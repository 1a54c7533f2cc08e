/** The tap-points merging animation (`Gaming/TapPointsMergingAnimation.cs`):
    once started, the tap points slide to the centre while fading into the
    special-note aura (phase 1), then the special-note socket fades in at the
    centre (phase 2). Times are seconds on the sync timer's clock. */
module TapPointsMerging {
  import opened Errors
  import opened Trace
  import opened Drawing
  import opened FramePlan

  const Phase1Duration: real := 0.5
  const Phase2Duration: real := 0.3

  /** `MathHelper.Lerp`. */
  function Lerp(from: real, to: real, t: real): (r: real)
    ensures t == 0.0 ==> r == from
    ensures t == 1.0 ==> r == to
  {
    from + (to - from) * t
  }

  /** The two fields of the animation. */
  datatype AnimationState = AnimationState(isAnimationStarted: bool, animationStartedTime: real)

  /** What a draw at a given time does: nothing, cancel, or one of the two phases with its progress. */
  datatype Phase = NotStarted | Cancelled | Phase1(perc: real) | Phase2(perc: real)

  function PhaseAt(s: AnimationState, now: real): (p: Phase)
    ensures p.NotStarted? <==> !s.isAnimationStarted
    ensures p.Cancelled? <==>
      s.isAnimationStarted
      && (now < s.animationStartedTime || now - s.animationStartedTime > Phase1Duration + Phase2Duration)
    ensures p.Phase1? ==>
      now - s.animationStartedTime <= Phase1Duration
      && 0.0 <= p.perc <= 1.0 && p.perc * Phase1Duration == now - s.animationStartedTime
    ensures p.Phase2? ==>
      now - s.animationStartedTime > Phase1Duration
      && 0.0 < p.perc <= 1.0 && Phase1Duration + p.perc * Phase2Duration == now - s.animationStartedTime
  {
    if !s.isAnimationStarted then NotStarted
    else if now < s.animationStartedTime then Cancelled
    else
      var elapsed := now - s.animationStartedTime;
      if elapsed > Phase1Duration + Phase2Duration then Cancelled
      else if elapsed <= Phase1Duration then Phase1(elapsed / Phase1Duration)
      else Phase2((elapsed - Phase1Duration) / Phase2Duration)
  }

  /** The state after a draw: a cancelling draw clears the started flag, nothing else changes it. */
  function AfterDraw(s: AnimationState, now: real): (r: AnimationState)
    ensures r.animationStartedTime == s.animationStartedTime
    ensures r.isAnimationStarted <==> s.isAnimationStarted && !PhaseAt(s, now).Cancelled?
  {
    if PhaseAt(s, now).Cancelled? then s.(isAnimationStarted := false) else s
  }

  /** A run of draws at the given clock readings, with no restart in between. */
  function RunDraws(s: AnimationState, times: seq<real>): AnimationState
    decreases |times|
  {
    if |times| == 0 then s else RunDraws(AfterDraw(s, times[0]), times[1..])
  }

  /** Without a restart the animation never turns itself on, and the start
      time is never touched: a stopped animation stays stopped. */
  lemma {:induction false} StoppedStaysStopped(s: AnimationState, times: seq<real>)
    ensures RunDraws(s, times).animationStartedTime == s.animationStartedTime
    ensures RunDraws(s, times).isAnimationStarted ==> s.isAnimationStarted
    ensures !s.isAnimationStarted ==> RunDraws(s, times) == s
    decreases |times|
  {
    if |times| > 0 {
      StoppedStaysStopped(AfterDraw(s, times[0]), times[1..]);
    }
  }

  /** Once a draw cancels the animation, every later draw without a restart draws nothing. */
  lemma CancelledDrawsNothing(s: AnimationState, times: seq<real>, i: nat, later: real)
    requires i < |times| && PhaseAt(RunDraws(s, times[..i]), times[i]).Cancelled?
    ensures PhaseAt(RunDraws(s, times[..i + 1]), later) == NotStarted
  {
    RunDrawsSnoc(s, times[..i], times[i]);
    assert times[..i + 1] == times[..i] + [times[i]];
  }

  lemma {:induction false} RunDrawsSnoc(s: AnimationState, times: seq<real>, t: real)
    ensures RunDraws(s, times + [t]) == AfterDraw(RunDraws(s, times), t)
    decreases |times|
  {
    if |times| == 0 {
      assert times + [t] == [t];
    } else {
      assert (times + [t])[1..] == times[1..] + [t];
      RunDrawsSnoc(AfterDraw(s, times[0]), times[1..], t);
    }
  }

  /** The sizes the stage scaling element supplies to the animation. */
  datatype MergingScale = MergingScale(
    tapPointStart: Size, tapPointEnd: Size,
    auraStart: Size, auraEnd: Size,
    socket: Size)

  /** The three bitmaps the animation draws. */
  datatype MergingImages = MergingImages(tapPoint: Resource, aura: Resource, socket: Resource)

  /** Phase 1 at track ratio `ratio`: the tap point fading out and the aura fading in, both moving to the centre. */
  function TrackCommands(ratio: real, perc: real, y: real, width: real, scale: MergingScale, images: MergingImages): seq<DrawCommand> {
    var tapW := Lerp(scale.tapPointStart.width, scale.tapPointEnd.width, perc);
    var tapH := Lerp(scale.tapPointStart.height, scale.tapPointEnd.height, perc);
    var auraW := Lerp(scale.auraStart.width, scale.auraEnd.width, perc);
    var auraH := Lerp(scale.auraStart.height, scale.auraEnd.height, perc);
    var x := Lerp(ratio, 0.5, perc) * width;
    [ DrawBitmap(images.tapPoint, x - tapW / 2.0, y - tapH / 2.0, tapW, tapH, Some(1.0 - perc)),
      DrawBitmap(images.aura, x - auraW / 2.0, y - auraH / 2.0, auraW, auraH, Some(perc)) ]
  }

  /** Phase 1 over all tracks, in track order. */
  function Phase1Commands(ratios: seq<real>, perc: real, y: real, width: real, scale: MergingScale, images: MergingImages): seq<DrawCommand>
    decreases |ratios|
  {
    if |ratios| == 0 then []
    else Phase1Commands(ratios[..|ratios| - 1], perc, y, width, scale, images)
           + TrackCommands(ratios[|ratios| - 1], perc, y, width, scale, images)
  }

  /** Two draws per track: track `i`'s tap point is draw `2i`, with opacity
      `1 - perc`, and its aura draw `2i + 1`, with opacity `perc`, both
      centred on the same point. */
  lemma {:induction false} Phase1Layout(ratios: seq<real>, perc: real, y: real, width: real, scale: MergingScale, images: MergingImages, i: nat)
    requires i < |ratios|
    ensures |Phase1Commands(ratios, perc, y, width, scale, images)| == 2 * |ratios|
    ensures Phase1Commands(ratios, perc, y, width, scale, images)[2 * i] == TrackCommands(ratios[i], perc, y, width, scale, images)[0]
    ensures Phase1Commands(ratios, perc, y, width, scale, images)[2 * i + 1] == TrackCommands(ratios[i], perc, y, width, scale, images)[1]
    ensures Phase1Commands(ratios, perc, y, width, scale, images)[2 * i].bitmapOpacity == Some(1.0 - perc)
    ensures Phase1Commands(ratios, perc, y, width, scale, images)[2 * i + 1].bitmapOpacity == Some(perc)
    ensures var c := Phase1Commands(ratios, perc, y, width, scale, images);
      c[2 * i].x + c[2 * i].width / 2.0 == c[2 * i + 1].x + c[2 * i + 1].width / 2.0 == Lerp(ratios[i], 0.5, perc) * width
    decreases |ratios|
  {
    var init := ratios[..|ratios| - 1];
    Phase1Length(init, perc, y, width, scale, images);
    if i < |init| {
      Phase1Layout(init, perc, y, width, scale, images, i);
    }
  }

  lemma {:induction false} Phase1Length(ratios: seq<real>, perc: real, y: real, width: real, scale: MergingScale, images: MergingImages)
    ensures |Phase1Commands(ratios, perc, y, width, scale, images)| == 2 * |ratios|
    decreases |ratios|
  {
    if |ratios| > 0 {
      Phase1Length(ratios[..|ratios| - 1], perc, y, width, scale, images);
    }
  }

  /** Phase 2: the socket fading in and the full-size aura, both at the
      horizontal centre. The socket's top edge is `y` minus half its width, as written. */
  function Phase2Commands(perc: real, y: real, width: real, scale: MergingScale, images: MergingImages): (r: seq<DrawCommand>)
    ensures |r| == 2 && r[0].DrawBitmap? && r[1].DrawBitmap? && r[0].image == images.socket && r[1].image == images.aura
    ensures r[0].bitmapOpacity == Some(perc) && r[1].bitmapOpacity.None?
    ensures r[0].x + r[0].width / 2.0 == r[1].x + r[1].width / 2.0 == width * 0.5
    // the aura at its end size, centred on `y`
    ensures r[1].width == scale.auraEnd.width && r[1].height == scale.auraEnd.height
    ensures r[1].y + r[1].height / 2.0 == y
    // the socket at its own size, its top edge half its width above `y`
    ensures r[0].width == scale.socket.width && r[0].height == scale.socket.height
    ensures r[0].y == y - scale.socket.width / 2.0
  {
    var x := width * 0.5;
    [ DrawBitmap(images.socket, x - scale.socket.width / 2.0, y - scale.socket.width / 2.0,
                 scale.socket.width, scale.socket.height, Some(perc)),
      DrawBitmap(images.aura, x - scale.auraEnd.width / 2.0, y - scale.auraEnd.height / 2.0,
                 scale.auraEnd.width, scale.auraEnd.height, None) ]
  }

  /** The draws of one frame in the given phase. */
  function PhaseCommands(p: Phase, ratios: seq<real>, y: real, width: real, scale: MergingScale, images: MergingImages): seq<DrawCommand> {
    match p
    case Phase1(perc) => Phase1Commands(ratios, perc, y, width, scale, images)
    case Phase2(perc) => Phase2Commands(perc, y, width, scale, images)
    case _ => []
  }

  /** The phase-1 `for` loop over the tap points' end ratios. */
  method DrawPhase1(ratios: seq<real>, perc: real, y: real, width: real, scale: MergingScale, images: MergingImages)
    returns (commands: seq<DrawCommand>)
    ensures commands == Phase1Commands(ratios, perc, y, width, scale, images)
  {
    var tapW := Lerp(scale.tapPointStart.width, scale.tapPointEnd.width, perc);
    var tapH := Lerp(scale.tapPointStart.height, scale.tapPointEnd.height, perc);
    var auraW := Lerp(scale.auraStart.width, scale.auraEnd.width, perc);
    var auraH := Lerp(scale.auraStart.height, scale.auraEnd.height, perc);
    commands := [];
    for i := 0 to |ratios|
      invariant commands == Phase1Commands(ratios[..i], perc, y, width, scale, images)
    {
      assert ratios[..i + 1][..i] == ratios[..i];
      var x := Lerp(ratios[i], 0.5, perc) * width;
      var tapPoint := DrawBitmap(images.tapPoint, x - tapW / 2.0, y - tapH / 2.0, tapW, tapH, Some(1.0 - perc));
      var aura := DrawBitmap(images.aura, x - auraW / 2.0, y - auraH / 2.0, auraW, auraH, Some(perc));
      assert [tapPoint, aura] == TrackCommands(ratios[i], perc, y, width, scale, images);
      commands := commands + [tapPoint];
      commands := commands + [aura];
    }
    assert ratios[..|ratios|] == ratios;
  }

  class TapPointsMergingAnimation {
    /** `_isAnimationStarted` */
    var isAnimationStarted: bool
    /** `_animationStartedTime` */
    var animationStartedTime: real
    /** The bitmaps acquired when the render context is gained. */
    const images: MergingImages

    constructor (images: MergingImages)
      ensures !isAnimationStarted && animationStartedTime == 0.0 && this.images == images
    {
      isAnimationStarted := false;
      animationStartedTime := 0.0;
      this.images := images;
    }

    function State(): AnimationState
      reads this
    {
      AnimationState(isAnimationStarted, animationStartedTime)
    }

    /** `StartAnimation`; `syncTimer` is the sync timer's current time, if there is a timer. */
    method StartAnimation(syncTimer: Option<real>) returns (err: Option<Error>)
      modifies this
      ensures syncTimer.None? ==>
        err == Some(InvalidOperationException) && State() == old(State())
      ensures syncTimer.Some? ==>
        err.None? && isAnimationStarted && animationStartedTime == syncTimer.value
    {
      if syncTimer.None? {
        return Some(InvalidOperationException);
      }
      animationStartedTime := syncTimer.value;
      isAnimationStarted := true;
      err := None;
    }

    /** `OnDraw`. The collaborators are looked up only once the animation is
        started; a missing one throws. */
    method Draw(syncTimer: Option<real>, scaling: Option<MergingScale>, tapPoints: Option<TapPointsInfo>,
                clientWidth: real, clientHeight: real, tapPointsLayoutY: LayoutY)
      returns (frame: Frame)
      modifies this
      // only StartAnimation turns the animation on, and the start time is never changed here
      ensures isAnimationStarted ==> old(isAnimationStarted)
      ensures animationStartedTime == old(animationStartedTime)
      ensures !old(isAnimationStarted) ==> frame == Frame([], None) && State() == old(State())
      ensures old(isAnimationStarted) && (syncTimer.None? || scaling.None? || tapPoints.None?) ==>
        frame == Frame([], Some(InvalidOperationException)) && State() == old(State())
      ensures old(isAnimationStarted) && syncTimer.Some? && scaling.Some? && tapPoints.Some? ==>
        && State() == AfterDraw(old(State()), syncTimer.value)
        && frame == Frame(PhaseCommands(PhaseAt(old(State()), syncTimer.value), tapPoints.value.endXRatios,
                                        ResolveY(tapPointsLayoutY, clientHeight), clientWidth, scaling.value, images), None)
    {
      if !isAnimationStarted {
        return Frame([], None);
      }
      if syncTimer.None? || scaling.None? || tapPoints.None? {
        return Frame([], Some(InvalidOperationException));
      }
      var currentTime := syncTimer.value;
      if currentTime < animationStartedTime {
        // cancelled when the clock steps back
        isAnimationStarted := false;
        return Frame([], None);
      }
      var animationTime := currentTime - animationStartedTime;
      if animationTime > Phase1Duration + Phase2Duration {
        isAnimationStarted := false;
        return Frame([], None);
      }
      var y := ResolveY(tapPointsLayoutY, clientHeight);
      var commands: seq<DrawCommand>;
      if animationTime <= Phase1Duration {
        var perc := animationTime / Phase1Duration;
        commands := DrawPhase1(tapPoints.value.endXRatios, perc, y, clientWidth, scaling.value, images);
      } else {
        var perc := (animationTime - Phase1Duration) / Phase2Duration;
        commands := Phase2Commands(perc, y, clientWidth, scaling.value, images);
      }
      frame := Frame(commands, None);
    }
  }
}
