/** The older notes layer of the Theater program (`Elements/NotesLayer.cs`).
    Its visual-slot table is written inline in the draw loop; here it is
    extracted as `TheaterSlot` and compared with the extension's table. */
module TheaterNotesLayer {
  import opened Errors
  import opened Notes
  import opened Trace
  import opened Drawing
  import opened Diagnostics
  import opened FramePlan
  import opened NoteResources
  import ScoreNotesLayer

  /** The inline `switch` of `OnDrawBuffer`: no role-conflict checks, and
      only `SpecialEnd` among the special kinds is "not drawn". */
  function TheaterSlot(note: Note): (r: Result<Slot>)
    ensures r.Err? ==> r.error == ArgumentOutOfRangeException
    ensures r.Ok? ==> -1 <= r.value.imageIndex <= 9
    ensures r.Ok? ==> (r.value.isHugeNote <==> note.kind == Special)
  {
    match note.kind
    case Tap =>
      (match note.size
       case Small => Ok(Slot(0, false))
       case Large => Ok(Slot(1, false))
       case OtherSize(_) => Err(ArgumentOutOfRangeException))
    case Flick =>
      (match note.flickDirection
       case Left => Ok(Slot(4, false))
       case Up => Ok(Slot(5, false))
       case Right => Ok(Slot(6, false))
       case Down => Ok(Slot(-1, false))
       case _ => Err(ArgumentOutOfRangeException))
    case Hold =>
      (match note.flickDirection
       case NoDirection | Down =>
         (match note.size
          case Small => Ok(Slot(2, false))
          case Large => Ok(Slot(3, false))
          case OtherSize(_) => Err(ArgumentOutOfRangeException))
       case Left => Ok(Slot(4, false))
       case Up => Ok(Slot(5, false))
       case Right => Ok(Slot(6, false))
       case OtherDirection(_) => Err(ArgumentOutOfRangeException))
    case Slide =>
      (match note.flickDirection
       case NoDirection | Down =>
         Ok(Slot(if note.isSlideStart then 7 else if note.isSlideEnd then 9 else 8, false))
       case Left => Ok(Slot(4, false))
       case Up => Ok(Slot(5, false))
       case Right => Ok(Slot(6, false))
       case OtherDirection(_) => Err(ArgumentOutOfRangeException))
    case Special => Ok(Slot(-1, true))
    case SpecialEnd => Ok(Slot(-1, false))
    case _ => Err(ArgumentOutOfRangeException)
  }

  /** Where the two tables agree: consistent roles and a kind other than
      `SpecialPrepare` and `ScorePrepare` give the same answer, error or not. */
  lemma TablesAgree(note: Note)
    requires !ScoreNotesLayer.RoleConflict(note.isHoldStart, note.isHoldEnd, note.isSlideStart, note.isSlideEnd)
    requires note.kind != SpecialPrepare && note.kind != ScorePrepare
    ensures TheaterSlot(note) == ScoreNotesLayer.NoteSlot(note)
  {
  }

  /** Where they differ. Conflicting roles: the extension throws
      `ArgumentException`, the Theater never does, and a slide note that is
      both start and end takes the start image. `SpecialPrepare` and
      `ScorePrepare`: the extension skips them, the Theater throws. */
  lemma TablesDiffer(note: Note)
    ensures ScoreNotesLayer.RoleConflict(note.isHoldStart, note.isHoldEnd, note.isSlideStart, note.isSlideEnd) ==>
      ScoreNotesLayer.NoteSlot(note) == Err(ArgumentException) && TheaterSlot(note) != Err(ArgumentException)
    ensures (note.kind == Slide && (note.flickDirection == NoDirection || note.flickDirection == Down) && note.isSlideStart)
            ==> TheaterSlot(note) == Ok(Slot(7, false))
    ensures (note.kind == SpecialPrepare || note.kind == ScorePrepare) ==>
      TheaterSlot(note) == Err(ArgumentOutOfRangeException)
      && (!ScoreNotesLayer.RoleConflict(note.isHoldStart, note.isHoldEnd, note.isSlideStart, note.isSlideEnd) ==>
            ScoreNotesLayer.NoteSlot(note) == Ok(Slot(-1, false)))
  {
  }

  /** The inline table never reads the hold roles, so a note's hold flags
      do not change its slot, whatever its other roles. */
  lemma TheaterIgnoresHoldRoles(note: Note)
    ensures TheaterSlot(note) == TheaterSlot(note.(isHoldStart := false, isHoldEnd := false))
  {
  }

  /** A slide start is tested before a slide end: a note that is both gets
      the start's slot. */
  lemma TheaterSlideStartFirst(note: Note)
    requires note.isSlideStart
    ensures TheaterSlot(note) == TheaterSlot(note.(isSlideEnd := false))
  {
  }

  /** The Theater's slot of any note that is not a prepare kind, whatever its
      roles: the extension's slot of the same note with the hold flags
      cleared and the slide-end flag dropped from a slide start. */
  lemma {:induction false} TheaterSlotOfEveryNote(note: Note)
    requires note.kind != SpecialPrepare && note.kind != ScorePrepare
    ensures TheaterSlot(note)
      == ScoreNotesLayer.NoteSlot(note.(isHoldStart := false, isHoldEnd := false,
                                        isSlideEnd := note.isSlideEnd && !note.isSlideStart))
  {
    var cleared := note.(isHoldStart := false, isHoldEnd := false);
    TheaterIgnoresHoldRoles(note);
    if note.isSlideStart {
      TheaterSlideStartFirst(cleared);
    }
    TablesAgree(cleared.(isSlideEnd := note.isSlideEnd && !note.isSlideStart));
  }

  /** Program settings the layer reads. In this build layout Y values are
      always fractions of the client height. */
  datatype TheaterSettings = TheaterSettings(
    syncLine: bool,
    slideMiddleSyncLine: bool,
    opacity: real,
    notesLayerY: real,
    tapPointsY: real,
    noteImages: Option<seq<Option<ImageEntry>>>,
    specialNoteFile: Option<string>)

  /** The frame's animation metrics, with both layout Y values read as fractions of the height. */
  function FrameAnimationMetrics(speed: real, width: real, height: real, settings: TheaterSettings,
                                 tapPoints: TapPointsInfo): AnimationMetrics
  {
    AnimationMetrics(speed, width, height, settings.notesLayerY * height, settings.tapPointsY * height,
      tapPoints.startXRatios, tapPoints.endXRatios, |tapPoints.endXRatios|)
  }

  /** Visibility is tested against the common note metrics. */
  function VisibleAt(isNoteVisible: (Note, real, NoteMetrics) -> bool, now: real, metrics: NoteMetrics): Note -> bool {
    n => isNoteVisible(n, now, metrics)
  }

  /** Unlike the extension's, this layer's note metrics carry the speed scale. */
  function CommonMetrics(scaling: ScaleResults, speed: real): NoteMetrics
  {
    NoteMetrics(scaling.noteStart, scaling.noteEnd, Some(speed))
  }

  function FrameEnv(calculator: TraceCalculator, now: real, scaling: ScaleResults, speed: real, metrics: AnimationMetrics,
                    strip: Resource, pen: Resource, special: Option<Resource>, settings: TheaterSettings): DrawEnv
  {
    DrawEnv(calculator, now,
      CommonMetrics(scaling, speed),
      NoteMetrics(scaling.specialNoteStart, scaling.specialNoteEnd, Some(speed)),
      metrics, strip, pen, special, settings.syncLine, settings.slideMiddleSyncLine, settings.opacity)
  }

  /** The two layers build the same animation metrics when the extension's
      layout Y values are fractions of the height: the absolute case is the
      extension's addition. */
  lemma MetricsMatchExtension(speed: real, width: real, height: real, settings: TheaterSettings,
                              config: ScoreNotesLayer.NotesLayerConfig, tapPoints: TapPointsInfo)
    requires config.layoutY == LayoutY(true, settings.notesLayerY)
    ensures FrameAnimationMetrics(speed, width, height, settings, tapPoints)
      == ScoreNotesLayer.FrameAnimationMetrics(speed, width, height, config, LayoutY(true, settings.tapPointsY), tapPoints)
  {
  }

  /** With the same sync-line, slide-middle and opacity settings, the two
      layers' drawing environments differ only in the speed scale of the
      note metrics: absent in the extension, the layer's speed here. */
  lemma EnvDiffersOnlyInSpeed(calculator: TraceCalculator, now: real, scaling: ScaleResults, speed: real,
                              metrics: AnimationMetrics, strip: Resource, pen: Resource, special: Option<Resource>,
                              settings: TheaterSettings, config: ScoreNotesLayer.NotesLayerConfig)
    requires config.syncLine == settings.syncLine && config.slideMiddleSyncLine == settings.slideMiddleSyncLine
    requires config.opacity == settings.opacity
    ensures ScoreNotesLayer.FrameEnv(calculator, now, scaling, metrics, strip, pen, special, config).commonNoteMetrics.globalSpeedScale.None?
    ensures ScoreNotesLayer.FrameEnv(calculator, now, scaling, metrics, strip, pen, special, config).specialNoteMetrics.globalSpeedScale.None?
    ensures FrameEnv(calculator, now, scaling, speed, metrics, strip, pen, special, settings).commonNoteMetrics.globalSpeedScale == Some(speed)
    ensures FrameEnv(calculator, now, scaling, speed, metrics, strip, pen, special, settings).specialNoteMetrics.globalSpeedScale == Some(speed)
    ensures FrameEnv(calculator, now, scaling, speed, metrics, strip, pen, special, settings)
      == ScoreNotesLayer.FrameEnv(calculator, now, scaling, metrics, strip, pen, special, config).(
           commonNoteMetrics := CommonMetrics(scaling, speed),
           specialNoteMetrics := ScoreNotesLayer.FrameEnv(calculator, now, scaling, metrics, strip, pen, special, config)
                                   .specialNoteMetrics.(globalSpeedScale := Some(speed)))
    ensures CommonMetrics(scaling, speed).(globalSpeedScale := None)
      == ScoreNotesLayer.FrameEnv(calculator, now, scaling, metrics, strip, pen, special, config).commonNoteMetrics
  {
  }

  class NotesLayer {
    /** `_globalSpeedScale` */
    var globalSpeedScale: real
    /** `_score` */
    var score: Option<seq<Note>>
    /** The static `RealisticNoteTraceCalculator`, fixed for the layer's lifetime. */
    const traceCalculator: TraceCalculator
    const resources: SurfaceResources

    ghost predicate Valid()
      reads this, resources
    {
      globalSpeedScale >= ScoreNotesLayer.MinSpeedScale && resources.Valid()
    }

    constructor (realistic: TraceCalculator)
      ensures Valid() && fresh(resources)
      ensures globalSpeedScale == 1.0 && score.None? && traceCalculator == realistic
      ensures resources.noteImages == null && resources.specialNoteImage.None? && resources.syncLinePen.None?
      ensures resources.released == []
    {
      globalSpeedScale := 1.0;
      score := None;
      traceCalculator := realistic;
      resources := new SurfaceResources();
    }

    /** The `GlobalSpeedScale` setter. */
    method SetGlobalSpeedScale(value: real)
      requires Valid()
      modifies this
      ensures Valid()
      ensures globalSpeedScale == ScoreNotesLayer.ClampSpeedScale(value)
      ensures score == old(score)
    {
      var v := value;
      if v <= ScoreNotesLayer.MinSpeedScale {
        v := ScoreNotesLayer.MinSpeedScale;
      }
      globalSpeedScale := v;
    }

    /** `OnInitialize`: keep the score loader's score (`None` without one). */
    method Initialize(loadedScore: Option<seq<Note>>)
      requires Valid()
      modifies this
      ensures Valid()
      ensures score == loadedScore && globalSpeedScale == old(globalSpeedScale)
    {
      score := loadedScore;
    }

    /** `OnDrawBuffer`. `gamingArea` holds the stage's scale results. */
    method DrawBuffer(syncTimer: Option<real>, tapPoints: Option<TapPointsInfo>, gamingArea: Option<ScaleResults>,
                      settings: TheaterSettings, clientWidth: real, clientHeight: real,
                      isNoteVisible: (Note, real, NoteMetrics) -> bool)
      returns (frame: Frame)
      requires Valid()
      ensures score.None? || !resources.DefaultStripLoaded() || syncTimer.None? ==> frame == Frame([], None)
      ensures score.Some? && resources.DefaultStripLoaded() && syncTimer.Some? && (tapPoints.None? || gamingArea.None?) ==>
        frame == Frame([], Some(InvalidOperationException))
      ensures score.Some? && resources.DefaultStripLoaded() && syncTimer.Some? && tapPoints.Some? && gamingArea.Some? ==>
        var metrics := FrameAnimationMetrics(globalSpeedScale, clientWidth, clientHeight, settings, tapPoints.value);
        var env := FrameEnv(traceCalculator, syncTimer.value, gamingArea.value, globalSpeedScale, metrics,
                            resources.noteImages[0].value, resources.syncLinePen.value, resources.specialNoteImage, settings);
        frame == PlanNotes(score.value,
                           VisibleAt(isNoteVisible, syncTimer.value, CommonMetrics(gamingArea.value, globalSpeedScale)),
                           TheaterSlot, env)
    {
      if score.None? {
        return Frame([], None);
      }
      if !resources.DefaultStripLoaded() {
        return Frame([], None);
      }
      var noteImages := resources.noteImages;
      var notes := score.value;
      if syncTimer.None? {
        return Frame([], None);
      }
      if tapPoints.None? {
        return Frame([], Some(InvalidOperationException));
      }
      if gamingArea.None? {
        return Frame([], Some(InvalidOperationException));
      }
      var now := syncTimer.value;
      var metrics := FrameAnimationMetrics(globalSpeedScale, clientWidth, clientHeight, settings, tapPoints.value);
      var env := FrameEnv(traceCalculator, now, gamingArea.value, globalSpeedScale, metrics,
                          noteImages[0].value, resources.syncLinePen.value, resources.specialNoteImage, settings);
      frame := DrawNotes(notes, VisibleAt(isNoteVisible, now, env.commonNoteMetrics), TheaterSlot, env);
    }

    /** `OnGotContext`; `gamingArea` is the required gaming-area element. */
    method GotContext(gamingArea: Option<ScaleResults>, settings: TheaterSettings, fileExists: string -> bool,
                      overlay: DebugOverlay?)
      returns (err: Option<Error>)
      requires Valid()
      modifies resources, overlay
      ensures Valid()
      ensures resources.released == old(resources.released)
      ensures gamingArea.None? ==>
        && err == Some(InvalidOperationException)
        && resources.noteImages == old(resources.noteImages)
        && resources.specialNoteImage == old(resources.specialNoteImage)
        && resources.syncLinePen == old(resources.syncLinePen)
        && (overlay != null ==> overlay.lines == old(overlay.lines))
      ensures gamingArea.Some? ==>
        && err.None?
        && resources.syncLinePen == Some(Pen(gamingArea.value.syncLineWidth))
        && (settings.noteImages.None? || |settings.noteImages.value| == 0 ==> resources.noteImages == old(resources.noteImages))
        && (settings.noteImages.Some? && |settings.noteImages.value| > 0 ==>
              resources.noteImages != null && fresh(resources.noteImages)
              && resources.noteImages[..] == LoadedStrips(settings.noteImages.value, fileExists))
        && resources.specialNoteImage ==
             (if settings.specialNoteFile.Some? && fileExists(settings.specialNoteFile.value)
              then Some(Bitmap(settings.specialNoteFile.value)) else old(resources.specialNoteImage))
        && (overlay != null ==>
              overlay.lines == old(overlay.lines) + ContextDiagnostics(settings.noteImages, settings.specialNoteFile, fileExists))
    {
      err := resources.GotContext(gamingArea, settings.noteImages, settings.specialNoteFile, fileExists, overlay);
    }

    /** `OnLostContext`: every non-null image strip is disposed and `_noteImages` dropped. */
    method LostContext() returns (err: Option<Error>)
      requires Valid()
      modifies resources
      ensures Valid()
      ensures old(resources.syncLinePen).None? ==>
        && err == Some(NullReferenceException)
        && resources.released == old(resources.released)
        && resources.noteImages == old(resources.noteImages)
        && resources.specialNoteImage == old(resources.specialNoteImage)
        && resources.syncLinePen == old(resources.syncLinePen)
      ensures old(resources.syncLinePen).Some? ==>
        && err.None?
        && resources.released == old(resources.released) + [old(resources.syncLinePen).value]
             + Present(old(resources.Images())) + AsSeq(old(resources.specialNoteImage))
        && resources.noteImages == null
        // the bitmap is disposed but still referenced; the pen likewise
        && resources.specialNoteImage == old(resources.specialNoteImage)
        && resources.syncLinePen == old(resources.syncLinePen)
    {
      err := resources.LostContext();
    }
  }
}
