/** The metrics records and the note trace calculator capability.

    A trace calculator is a record of functions: its bodies (the realistic
    perspective trace and any plug-in alternative) are not part of this model,
    so every calculator value stands for an arbitrary, deterministic one. */
module Trace {
  import opened Errors
  import opened Notes

  datatype Size = Size(width: real, height: real)

  /** Start/end radius of one class of notes. The Theater build also copies the
      global speed scale into this record; the extension build leaves it out (`None`). */
  datatype NoteMetrics = NoteMetrics(startRadius: Size, endRadius: Size, globalSpeedScale: Option<real>)

  /** Per-frame layout: speed scale, client size, spawn and tap-line Y, and
      the per-track start and end X ratios. */
  datatype AnimationMetrics = AnimationMetrics(
    globalSpeedScale: real,
    width: real,
    height: real,
    top: real,
    bottom: real,
    noteStartXRatios: seq<real>,
    noteEndXRatios: seq<real>,
    trackCount: nat)

  /** Two end points and two Bezier control points of a ribbon. */
  datatype RibbonLocations = RibbonLocations(
    x1: real, y1: real, controlX1: real, controlY1: real,
    controlX2: real, controlY2: real, x2: real, y2: real)

  /** One `INoteTraceCalculator`: a plug-in identifier and the seven queries. */
  datatype TraceCalculator = TraceCalculator(
    pluginId: string,
    noteRadius: (Note, real, NoteMetrics, AnimationMetrics) -> Size,
    noteX: (Note, real, NoteMetrics, AnimationMetrics) -> real,
    noteY: (Note, real, NoteMetrics, AnimationMetrics) -> real,
    specialNoteRadius: (Note, real, NoteMetrics, AnimationMetrics) -> Size,
    specialNoteX: (Note, real, NoteMetrics, AnimationMetrics) -> real,
    specialNoteY: (Note, real, NoteMetrics, AnimationMetrics) -> real,
    ribbonLocations: (Note, Note, real, NoteMetrics, AnimationMetrics) -> RibbonLocations)

  /** A layout Y coordinate that is either absolute or a fraction of the height. */
  datatype LayoutY = LayoutY(isPercentage: bool, value: real)

  function ResolveY(y: LayoutY, height: real): real {
    if y.isPercentage then y.value * height else y.value
  }

  /** The tap-points element's track ratios: where notes appear and where they land. */
  datatype TapPointsInfo = TapPointsInfo(startXRatios: seq<real>, endXRatios: seq<real>)

  /** The note sizes the stage scaling element computes for the current client size. */
  datatype ScaleResults = ScaleResults(
    noteStart: Size, noteEnd: Size,
    specialNoteStart: Size, specialNoteEnd: Size,
    syncLineWidth: real)
}
