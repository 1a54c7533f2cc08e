/** The notes layer of the score-components extension (`Gaming/NotesLayer.cs`):
    the visual-slot decision table, the clamped speed scale, trace calculator
    selection, per-frame draw planning, and the context lifecycle. */
module ScoreNotesLayer {
  import opened Errors
  import opened Notes
  import opened Trace
  import opened Drawing
  import opened Diagnostics
  import opened FramePlan
  import opened NoteResources

  /** The smallest speed scale the setter lets through. */
  const MinSpeedScale: real := 0.05

  /** The `GlobalSpeedScale` setter's clamp. */
  function ClampSpeedScale(value: real): (r: real)
    ensures r >= MinSpeedScale
    ensures r == value || (value <= MinSpeedScale && r == MinSpeedScale)
    ensures value > MinSpeedScale ==> r == value
  {
    if value <= MinSpeedScale then MinSpeedScale else value
  }

  /** The three role combinations the table rejects. */
  predicate RoleConflict(isHoldStart: bool, isHoldEnd: bool, isSlideStart: bool, isSlideEnd: bool) {
    || (isHoldStart && isHoldEnd)
    || (isSlideStart && isSlideEnd)
    || ((isHoldStart || isHoldEnd) && (isSlideStart || isSlideEnd))
  }

  /** Left, Up and Right select images 4, 5 and 6 for flick, hold and slide notes. */
  function DirectionIndex(d: FlickDirection): int
    requires d.Left? || d.Up? || d.Right?
  {
    match d
    case Left => 4
    case Up => 5
    case Right => 6
  }

  function SizeSlot(size: NoteSize, small: int, large: int): Result<Slot> {
    match size
    case Small => Ok(Slot(small, false))
    case Large => Ok(Slot(large, false))
    case OtherSize(_) => Err(ArgumentOutOfRangeException)
  }

  /** `GetImageIndex`: the image index and huge-note flag of a note. */
  function GetImageIndex(kind: NoteType, size: NoteSize, flickDirection: FlickDirection,
                         isHoldStart: bool, isHoldEnd: bool, isSlideStart: bool, isSlideEnd: bool): (r: Result<Slot>)
    ensures r == Err(ArgumentException) <==> RoleConflict(isHoldStart, isHoldEnd, isSlideStart, isSlideEnd)
    ensures r.Err? ==> r.error == ArgumentException || r.error == ArgumentOutOfRangeException
    ensures r.Ok? ==> -1 <= r.value.imageIndex <= 9
    ensures r.Ok? ==> (r.value.isHugeNote <==> kind == Special)
    ensures r.Ok? && r.value.isHugeNote ==> r.value.imageIndex == -1
  {
    if isHoldStart && isHoldEnd then Err(ArgumentException)
    else if isSlideStart && isSlideEnd then Err(ArgumentException)
    else if (isHoldStart || isHoldEnd) && (isSlideStart || isSlideEnd) then Err(ArgumentException)
    else
      match kind
      case Tap => SizeSlot(size, 0, 1)
      case Flick =>
        (match flickDirection
         case Left | Up | Right => Ok(Slot(DirectionIndex(flickDirection), false))
         case Down => Ok(Slot(-1, false))
         case _ => Err(ArgumentOutOfRangeException))
      case Hold =>
        (match flickDirection
         case NoDirection | Down => SizeSlot(size, 2, 3)
         case Left | Up | Right => Ok(Slot(DirectionIndex(flickDirection), false))
         case OtherDirection(_) => Err(ArgumentOutOfRangeException))
      case Slide =>
        (match flickDirection
         case NoDirection | Down =>
           Ok(Slot(if isSlideStart then 7 else if isSlideEnd then 9 else 8, false))
         case Left | Up | Right => Ok(Slot(DirectionIndex(flickDirection), false))
         case OtherDirection(_) => Err(ArgumentOutOfRangeException))
      case Special => Ok(Slot(-1, true))
      case SpecialEnd | SpecialPrepare | ScorePrepare => Ok(Slot(-1, false))
      case OtherType(_) => Err(ArgumentOutOfRangeException)
  }

  /** The private overload that reads a note's fields. */
  function NoteSlot(note: Note): (r: Result<Slot>)
    ensures r == Err(ArgumentException) <==>
      RoleConflict(note.isHoldStart, note.isHoldEnd, note.isSlideStart, note.isSlideEnd)
    ensures r.Ok? ==> -1 <= r.value.imageIndex <= 9 && (r.value.isHugeNote <==> note.kind == Special)
  {
    GetImageIndex(note.kind, note.size, note.flickDirection,
                  note.isHoldStart, note.isHoldEnd, note.isSlideStart, note.isSlideEnd)
  }

  /** The enum values that reach a `default:` branch. */
  predicate UnnamedValueReached(kind: NoteType, size: NoteSize, flickDirection: FlickDirection) {
    || kind.OtherType?
    || (kind.Tap? && size.OtherSize?)
    || (kind.Flick? && (flickDirection.NoDirection? || flickDirection.OtherDirection?))
    || (kind.Hold? && (flickDirection.OtherDirection? || ((flickDirection.NoDirection? || flickDirection.Down?) && size.OtherSize?)))
    || (kind.Slide? && flickDirection.OtherDirection?)
  }

  /** The table throws `ArgumentOutOfRangeException` exactly when there is no
      role conflict and a value reaches a `default:` branch; so it is total
      on consistent roles and named enum values. */
  lemma OutOfRangeIff(kind: NoteType, size: NoteSize, flickDirection: FlickDirection,
                      isHoldStart: bool, isHoldEnd: bool, isSlideStart: bool, isSlideEnd: bool)
    ensures GetImageIndex(kind, size, flickDirection, isHoldStart, isHoldEnd, isSlideStart, isSlideEnd)
              == Err(ArgumentOutOfRangeException)
            <==> !RoleConflict(isHoldStart, isHoldEnd, isSlideStart, isSlideEnd)
                 && UnnamedValueReached(kind, size, flickDirection)
    ensures GetImageIndex(kind, size, flickDirection, isHoldStart, isHoldEnd, isSlideStart, isSlideEnd).Ok?
            <==> !RoleConflict(isHoldStart, isHoldEnd, isSlideStart, isSlideEnd)
                 && !UnnamedValueReached(kind, size, flickDirection)
  {
  }

  /** Tap notes: Small 0, Large 1. Hold notes without a direction (or Down):
      Small 2, Large 3. Slide notes without a direction (or Down): start 7,
      end 9, otherwise 8. */
  lemma BodySlots(size: NoteSize, d: FlickDirection, isHoldStart: bool, isHoldEnd: bool, isSlideStart: bool, isSlideEnd: bool)
    requires !RoleConflict(isHoldStart, isHoldEnd, isSlideStart, isSlideEnd)
    ensures size == Small ==> GetImageIndex(Tap, size, d, isHoldStart, isHoldEnd, isSlideStart, isSlideEnd) == Ok(Slot(0, false))
    ensures size == Large ==> GetImageIndex(Tap, size, d, isHoldStart, isHoldEnd, isSlideStart, isSlideEnd) == Ok(Slot(1, false))
    ensures (d == NoDirection || d == Down) && size == Small ==>
              GetImageIndex(Hold, size, d, isHoldStart, isHoldEnd, isSlideStart, isSlideEnd) == Ok(Slot(2, false))
    ensures (d == NoDirection || d == Down) && size == Large ==>
              GetImageIndex(Hold, size, d, isHoldStart, isHoldEnd, isSlideStart, isSlideEnd) == Ok(Slot(3, false))
    ensures (d == NoDirection || d == Down) ==>
              GetImageIndex(Slide, size, d, isHoldStart, isHoldEnd, isSlideStart, isSlideEnd)
                == Ok(Slot(if isSlideStart then 7 else if isSlideEnd then 9 else 8, false))
  {
  }

  /** Left, Up and Right give 4, 5 and 6 on flick, hold and slide notes alike;
      a Down flick is not drawn, a flick without a direction throws. */
  lemma DirectionalSlots(kind: NoteType, size: NoteSize, isHoldStart: bool, isHoldEnd: bool, isSlideStart: bool, isSlideEnd: bool)
    requires !RoleConflict(isHoldStart, isHoldEnd, isSlideStart, isSlideEnd)
    requires kind == Flick || kind == Hold || kind == Slide
    ensures GetImageIndex(kind, size, Left, isHoldStart, isHoldEnd, isSlideStart, isSlideEnd) == Ok(Slot(4, false))
    ensures GetImageIndex(kind, size, Up, isHoldStart, isHoldEnd, isSlideStart, isSlideEnd) == Ok(Slot(5, false))
    ensures GetImageIndex(kind, size, Right, isHoldStart, isHoldEnd, isSlideStart, isSlideEnd) == Ok(Slot(6, false))
    ensures kind == Flick ==> GetImageIndex(kind, size, Down, isHoldStart, isHoldEnd, isSlideStart, isSlideEnd) == Ok(Slot(-1, false))
    ensures kind == Flick ==>
      GetImageIndex(kind, size, NoDirection, isHoldStart, isHoldEnd, isSlideStart, isSlideEnd) == Err(ArgumentOutOfRangeException)
  {
  }

  /** Special notes take the huge-note path; the other special kinds are not drawn. */
  lemma SpecialKindSlots(size: NoteSize, d: FlickDirection, isHoldStart: bool, isHoldEnd: bool, isSlideStart: bool, isSlideEnd: bool)
    requires !RoleConflict(isHoldStart, isHoldEnd, isSlideStart, isSlideEnd)
    ensures GetImageIndex(Special, size, d, isHoldStart, isHoldEnd, isSlideStart, isSlideEnd) == Ok(Slot(-1, true))
    ensures GetImageIndex(SpecialEnd, size, d, isHoldStart, isHoldEnd, isSlideStart, isSlideEnd) == Ok(Slot(-1, false))
    ensures GetImageIndex(SpecialPrepare, size, d, isHoldStart, isHoldEnd, isSlideStart, isSlideEnd) == Ok(Slot(-1, false))
    ensures GetImageIndex(ScorePrepare, size, d, isHoldStart, isHoldEnd, isSlideStart, isSlideEnd) == Ok(Slot(-1, false))
  {
  }

  /** `FirstOrDefault` over the calculators by plug-in identifier. */
  function FirstWithPluginId(calculators: seq<TraceCalculator>, id: string): (r: Option<nat>)
    ensures r.Some? ==> r.value < |calculators| && calculators[r.value].pluginId == id
    ensures r.Some? ==> forall j :: 0 <= j < r.value ==> calculators[j].pluginId != id
    ensures r.None? ==> forall j :: 0 <= j < |calculators| ==> calculators[j].pluginId != id
    decreases |calculators|
  {
    if |calculators| == 0 then None
    else if calculators[0].pluginId == id then Some(0)
    else match FirstWithPluginId(calculators[1..], id)
      case None => None
      case Some(k) => Some(k + 1)
  }

  /** The chosen calculator's position, and whether the configured one was missing. */
  datatype Selection = Selection(index: nat, fellBack: bool)

  /** Calculator selection of `OnInitialize`: none registered is fatal; the
      first with the configured identifier wins; otherwise the first one. */
  function SelectCalculator(calculators: seq<TraceCalculator>, id: string): (r: Result<Selection>)
    ensures r.Err? <==> |calculators| == 0
    ensures r.Err? ==> r.error == InvalidOperationException
    ensures r.Ok? ==> r.value.index < |calculators|
    ensures r.Ok? ==> (r.value.fellBack <==> forall j :: 0 <= j < |calculators| ==> calculators[j].pluginId != id)
    ensures r.Ok? && r.value.fellBack ==> r.value.index == 0
    ensures r.Ok? && !r.value.fellBack ==>
      calculators[r.value.index].pluginId == id
      && forall j :: 0 <= j < r.value.index ==> calculators[j].pluginId != id
  {
    if |calculators| == 0 then Err(InvalidOperationException)
    else match FirstWithPluginId(calculators, id)
      case Some(k) => Ok(Selection(k, false))
      case None => Ok(Selection(0, true))
  }

  /** The diagnostics selection adds to the debug overlay. */
  function SelectionDiagnostics(calculators: seq<TraceCalculator>, id: string): (r: seq<Diagnostic>)
    requires |calculators| > 0
    ensures |r| <= 1
    ensures |r| == 1 <==> SelectCalculator(calculators, id).value.fellBack
  {
    if SelectCalculator(calculators, id).value.fellBack
    then [MissingTraceCalculator(id, calculators[0].pluginId)]
    else []
  }

  /** The configuration the layer reads (`NotesLayerConfig`), already bound. */
  datatype NotesLayerConfig = NotesLayerConfig(
    tracePluginId: string,
    globalSpeed: real,
    syncLine: bool,
    slideMiddleSyncLine: bool,
    opacity: real,
    layoutY: LayoutY,
    noteImages: Option<seq<Option<ImageEntry>>>,
    specialNoteFile: Option<string>)

  /** The frame's animation metrics: notes start at the layer's Y and land at the tap points' Y. */
  function FrameAnimationMetrics(speed: real, width: real, height: real, config: NotesLayerConfig,
                                 tapPointsLayoutY: LayoutY, tapPoints: TapPointsInfo): AnimationMetrics
  {
    AnimationMetrics(speed, width, height,
      ResolveY(config.layoutY, height), ResolveY(tapPointsLayoutY, height),
      tapPoints.startXRatios, tapPoints.endXRatios, |tapPoints.endXRatios|)
  }

  /** An absolute layout Y keeps its place when the client height changes;
      a fractional one is proportional to the height (top / height is the
      same for any two heights). */
  lemma AbsoluteLayoutIgnoresHeight(speed: real, width: real, h1: real, h2: real, config: NotesLayerConfig,
                                    tapPointsLayoutY: LayoutY, tapPoints: TapPointsInfo)
    ensures !config.layoutY.isPercentage ==>
      FrameAnimationMetrics(speed, width, h1, config, tapPointsLayoutY, tapPoints).top
      == FrameAnimationMetrics(speed, width, h2, config, tapPointsLayoutY, tapPoints).top
    ensures !tapPointsLayoutY.isPercentage ==>
      FrameAnimationMetrics(speed, width, h1, config, tapPointsLayoutY, tapPoints).bottom
      == FrameAnimationMetrics(speed, width, h2, config, tapPointsLayoutY, tapPoints).bottom
    ensures config.layoutY.isPercentage ==>
      FrameAnimationMetrics(speed, width, h1, config, tapPointsLayoutY, tapPoints).top * h2
      == FrameAnimationMetrics(speed, width, h2, config, tapPointsLayoutY, tapPoints).top * h1
    ensures tapPointsLayoutY.isPercentage ==>
      FrameAnimationMetrics(speed, width, h1, config, tapPointsLayoutY, tapPoints).bottom * h2
      == FrameAnimationMetrics(speed, width, h2, config, tapPointsLayoutY, tapPoints).bottom * h1
  {
    if config.layoutY.isPercentage {
      assert config.layoutY.value * h1 * h2 == config.layoutY.value * h2 * h1;
    }
    if tapPointsLayoutY.isPercentage {
      assert tapPointsLayoutY.value * h1 * h2 == tapPointsLayoutY.value * h2 * h1;
    }
  }

  function VisibleAt(isNoteVisible: (Note, real, AnimationMetrics) -> bool, now: real, metrics: AnimationMetrics): Note -> bool {
    n => isNoteVisible(n, now, metrics)
  }

  /** The per-frame drawing environment. This layer's note metrics carry no
      speed scale; only the animation metrics do. */
  function FrameEnv(calculator: TraceCalculator, now: real, scaling: ScaleResults, metrics: AnimationMetrics,
                    strip: Resource, pen: Resource, special: Option<Resource>, config: NotesLayerConfig): DrawEnv
  {
    DrawEnv(calculator, now,
      NoteMetrics(scaling.noteStart, scaling.noteEnd, None),
      NoteMetrics(scaling.specialNoteStart, scaling.specialNoteEnd, None),
      metrics, strip, pen, special, config.syncLine, config.slideMiddleSyncLine, config.opacity)
  }

  /** On notes resolved by this table, a frame throws only at a visible note
      with conflicting roles or an unnamed enum value: hidden notes are never
      classified. */
  lemma FrameErrorOnlyFromVisible(notes: seq<Note>, visible: Note -> bool, env: DrawEnv)
    ensures PlanNotes(notes, visible, NoteSlot, env).error.Some? ==>
      exists i :: 0 <= i < |notes| && visible(notes[i]) &&
        (RoleConflict(notes[i].isHoldStart, notes[i].isHoldEnd, notes[i].isSlideStart, notes[i].isSlideEnd)
         || UnnamedValueReached(notes[i].kind, notes[i].size, notes[i].flickDirection))
  {
    PlanErrorIff(notes, visible, NoteSlot, env);
    if PlanNotes(notes, visible, NoteSlot, env).error.Some? {
      var i :| 0 <= i < |notes| && visible(notes[i]) && NoteSlot(notes[i]).Err?;
      var n := notes[i];
      OutOfRangeIff(n.kind, n.size, n.flickDirection, n.isHoldStart, n.isHoldEnd, n.isSlideStart, n.isSlideEnd);
    }
  }

  class NotesLayer {
    /** `_globalSpeedScale` */
    var globalSpeedScale: real
    /** `TraceCalculator`, unset until `OnInitialize` */
    var traceCalculator: Option<TraceCalculator>
    /** `_score`: the loaded score's notes, in chart order */
    var score: Option<seq<Note>>
    const resources: SurfaceResources

    ghost predicate Valid()
      reads this, resources
    {
      globalSpeedScale >= MinSpeedScale && resources.Valid()
    }

    constructor ()
      ensures Valid() && fresh(resources)
      ensures globalSpeedScale == 1.0 && traceCalculator.None? && score.None?
      ensures resources.noteImages == null && resources.specialNoteImage.None? && resources.syncLinePen.None?
      ensures resources.released == []
    {
      globalSpeedScale := 1.0;
      traceCalculator := None;
      score := None;
      resources := new SurfaceResources();
    }

    /** The `GlobalSpeedScale` setter. */
    method SetGlobalSpeedScale(value: real)
      requires Valid()
      modifies this
      ensures Valid()
      ensures globalSpeedScale == ClampSpeedScale(value)
      ensures traceCalculator == old(traceCalculator) && score == old(score)
    {
      var v := value;
      if v <= MinSpeedScale {
        v := MinSpeedScale;
      }
      globalSpeedScale := v;
    }

    /** `OnInitialize`. `loadedScore` is the score loader's runtime score
        (`None` without a loader or a score); `calculators` the registered
        trace calculators in load order. */
    method Initialize(loadedScore: Option<seq<Note>>, calculators: seq<TraceCalculator>,
                      config: NotesLayerConfig, overlay: DebugOverlay?)
      returns (err: Option<Error>)
      requires Valid()
      modifies this, overlay
      ensures Valid()
      ensures score == loadedScore
      ensures |calculators| == 0 ==>
        && err == Some(InvalidOperationException)
        && traceCalculator == old(traceCalculator) && globalSpeedScale == old(globalSpeedScale)
        && (overlay != null ==> overlay.lines == old(overlay.lines))
      ensures |calculators| > 0 ==>
        && err.None?
        && traceCalculator == Some(calculators[SelectCalculator(calculators, config.tracePluginId).value.index])
        && globalSpeedScale == ClampSpeedScale(config.globalSpeed)
        && (overlay != null ==>
              overlay.lines == old(overlay.lines) + SelectionDiagnostics(calculators, config.tracePluginId))
    {
      score := loadedScore;
      var selection := SelectCalculator(calculators, config.tracePluginId);
      if selection.Err? {
        return Some(selection.error);
      }
      if selection.value.fellBack && overlay != null {
        overlay.AddLine(MissingTraceCalculator(config.tracePluginId, calculators[0].pluginId));
      }
      traceCalculator := Some(calculators[selection.value.index]);
      SetGlobalSpeedScale(config.globalSpeed);
      err := None;
    }

    /** `OnDrawBuffer`. `syncTimer` is the sync timer's current time (`None`
        when there is none), `tapPoints` and `scaling` the tap-points and
        stage-scaling elements, `isNoteVisible` stands for
        `NoteAnimationHelper.IsNoteVisible`. */
    method DrawBuffer(syncTimer: Option<real>, tapPoints: Option<TapPointsInfo>, scaling: Option<ScaleResults>,
                      config: NotesLayerConfig, tapPointsLayoutY: LayoutY, clientWidth: real, clientHeight: real,
                      isNoteVisible: (Note, real, AnimationMetrics) -> bool)
      returns (frame: Frame)
      requires Valid() && (score.Some? ==> traceCalculator.Some?)
      ensures score.None? || !resources.DefaultStripLoaded() || syncTimer.None? ==> frame == Frame([], None)
      ensures score.Some? && resources.DefaultStripLoaded() && syncTimer.Some? && (tapPoints.None? || scaling.None?) ==>
        frame == Frame([], Some(InvalidOperationException))
      ensures score.Some? && resources.DefaultStripLoaded() && syncTimer.Some? && tapPoints.Some? && scaling.Some? ==>
        var metrics := FrameAnimationMetrics(globalSpeedScale, clientWidth, clientHeight, config, tapPointsLayoutY, tapPoints.value);
        var env := FrameEnv(traceCalculator.value, syncTimer.value, scaling.value, metrics,
                            resources.noteImages[0].value, resources.syncLinePen.value, resources.specialNoteImage, config);
        frame == PlanNotes(score.value, VisibleAt(isNoteVisible, syncTimer.value, metrics), NoteSlot, env)
    {
      if score.None? {
        return Frame([], None);
      }
      if !resources.DefaultStripLoaded() {
        return Frame([], None);
      }
      var noteImages := resources.noteImages;
      var notes := score.value;
      if syncTimer.None? {
        return Frame([], None);
      }
      if tapPoints.None? {
        return Frame([], Some(InvalidOperationException));
      }
      if scaling.None? {
        return Frame([], Some(InvalidOperationException));
      }
      var now := syncTimer.value;
      var metrics := FrameAnimationMetrics(globalSpeedScale, clientWidth, clientHeight, config, tapPointsLayoutY, tapPoints.value);
      var env := FrameEnv(traceCalculator.value, now, scaling.value, metrics,
                          noteImages[0].value, resources.syncLinePen.value, resources.specialNoteImage, config);
      frame := DrawNotes(notes, VisibleAt(isNoteVisible, now, metrics), NoteSlot, env);
    }

    /** `OnGotContext`. */
    method GotContext(scaling: Option<ScaleResults>, config: NotesLayerConfig, fileExists: string -> bool,
                      overlay: DebugOverlay?)
      returns (err: Option<Error>)
      requires Valid()
      modifies resources, overlay
      ensures Valid()
      ensures resources.released == old(resources.released)
      ensures scaling.None? ==>
        && err == Some(InvalidOperationException)
        && resources.noteImages == old(resources.noteImages)
        && resources.specialNoteImage == old(resources.specialNoteImage)
        && resources.syncLinePen == old(resources.syncLinePen)
        && (overlay != null ==> overlay.lines == old(overlay.lines))
      ensures scaling.Some? ==>
        && err.None?
        && resources.syncLinePen == Some(Pen(scaling.value.syncLineWidth))
        && (config.noteImages.None? || |config.noteImages.value| == 0 ==> resources.noteImages == old(resources.noteImages))
        && (config.noteImages.Some? && |config.noteImages.value| > 0 ==>
              resources.noteImages != null && fresh(resources.noteImages)
              && resources.noteImages[..] == LoadedStrips(config.noteImages.value, fileExists))
        && resources.specialNoteImage ==
             (if config.specialNoteFile.Some? && fileExists(config.specialNoteFile.value)
              then Some(Bitmap(config.specialNoteFile.value)) else old(resources.specialNoteImage))
        && (overlay != null ==>
              overlay.lines == old(overlay.lines) + ContextDiagnostics(config.noteImages, config.specialNoteFile, fileExists))
    {
      err := resources.GotContext(scaling, config.noteImages, config.specialNoteFile, fileExists, overlay);
    }

    /** `OnLostContext`. */
    method LostContext() returns (err: Option<Error>)
      requires Valid()
      modifies resources
      ensures Valid()
      ensures old(resources.syncLinePen).None? ==>
        && err == Some(NullReferenceException)
        && resources.released == old(resources.released)
        && resources.noteImages == old(resources.noteImages)
        && resources.specialNoteImage == old(resources.specialNoteImage)
        && resources.syncLinePen == old(resources.syncLinePen)
      ensures old(resources.syncLinePen).Some? ==>
        && err.None?
        && resources.released == old(resources.released) + [old(resources.syncLinePen).value]
             + Present(old(resources.Images())) + AsSeq(old(resources.specialNoteImage))
        && resources.noteImages == null
        // the bitmap is disposed but still referenced; the pen likewise
        && resources.specialNoteImage == old(resources.specialNoteImage)
        && resources.syncLinePen == old(resources.syncLinePen)
    {
      err := resources.LostContext();
    }
  }
}
