/** The per-frame walk over the note list that both notes layers perform:
    for each note, in list order, skip it, or draw a sync line and then its
    sprite, or draw the special (huge) note bitmap. The two layers differ in
    how they test visibility and resolve a note's visual slot; both are
    parameters here. */
module FramePlan {
  import opened Errors
  import opened Notes
  import opened Trace
  import opened Drawing

  /** The visual slot of a note: an index into the note image strip, or the huge-note path. */
  datatype Slot = Slot(imageIndex: int, isHugeNote: bool)

  /** Everything a frame computes before its note loop. */
  datatype DrawEnv = DrawEnv(
    calculator: TraceCalculator,
    now: real,
    commonNoteMetrics: NoteMetrics,
    specialNoteMetrics: NoteMetrics,
    animationMetrics: AnimationMetrics,
    noteStrip: Resource,
    syncLinePen: Resource,
    specialNoteImage: Option<Resource>,
    syncLine: bool,
    slideMiddleSyncLine: bool,
    opacity: real)

  /** The commands a frame issued and the exception, if any, that ended it. */
  datatype Frame = Frame(commands: seq<DrawCommand>, error: Option<Error>)

  /** Sync lines are configured on, the note has a sync partner, and either
      neither of the two is a slide-middle note or slide-middle sync lines are on. */
  predicate DrawsSyncLine(note: Note, env: DrawEnv): (r: bool)
    // with slide-middle sync lines on, every synced note gets its line
    ensures env.slideMiddleSyncLine ==> (r <==> env.syncLine && note.HasNextSync())
    // with them off, a line touching a slide-middle note is suppressed
    ensures !env.slideMiddleSyncLine ==>
      (r <==> env.syncLine && note.HasNextSync() && !note.isSlideMiddle && !note.nextSync.value.isSlideMiddle)
  {
    && env.syncLine
    && note.HasNextSync()
    && (!(note.isSlideMiddle || note.nextSync.value.isSlideMiddle) || env.slideMiddleSyncLine)
  }

  function NoteX(note: Note, env: DrawEnv): real {
    env.calculator.noteX(note, env.now, env.commonNoteMetrics, env.animationMetrics)
  }

  function NoteY(note: Note, env: DrawEnv): real {
    env.calculator.noteY(note, env.now, env.commonNoteMetrics, env.animationMetrics)
  }

  /** The sprite of a normal note, centred on the calculator's position. */
  function NoteSprite(note: Note, imageIndex: int, env: DrawEnv): DrawCommand {
    var r := env.calculator.noteRadius(note, env.now, env.commonNoteMetrics, env.animationMetrics);
    DrawImageStripUnit(env.noteStrip, imageIndex,
      NoteX(note, env) - r.width / 2.0, NoteY(note, env) - r.height / 2.0, r.width, r.height, env.opacity)
  }

  /** The bitmap of a huge note, placed by the special-note queries and metrics. */
  function SpecialSprite(note: Note, image: Resource, env: DrawEnv): DrawCommand {
    var c := env.calculator;
    var x := c.specialNoteX(note, env.now, env.specialNoteMetrics, env.animationMetrics);
    var y := c.specialNoteY(note, env.now, env.specialNoteMetrics, env.animationMetrics);
    var r := c.specialNoteRadius(note, env.now, env.specialNoteMetrics, env.animationMetrics);
    DrawBitmap(image, x - r.width / 2.0, y - r.height / 2.0, r.width, r.height, None)
  }

  /** The draw calls one note contributes, given whether it is visible and its slot. */
  function NoteCommands(note: Note, visible: bool, slot: Result<Slot>, env: DrawEnv): (r: Result<seq<DrawCommand>>)
    // invisible notes cost nothing, and are not even classified
    ensures !visible ==> r == Ok([])
    // a slot error propagates only from a visible note
    ensures r.Err? <==> visible && slot.Err?
    ensures r.Err? ==> r.error == slot.error
    // a non-huge note whose index is negative is skipped
    ensures visible && slot.Ok? && slot.value.imageIndex < 0 && !slot.value.isHugeNote ==> r == Ok([])
    // a normal note: the sync line (if drawn) comes first, the sprite last
    ensures visible && slot.Ok? && slot.value.imageIndex >= 0 && !slot.value.isHugeNote ==>
      && r.Ok?
      && |r.value| == (if DrawsSyncLine(note, env) then 2 else 1)
      && r.value[|r.value| - 1] == NoteSprite(note, slot.value.imageIndex, env)
      && (DrawsSyncLine(note, env) ==>
            r.value[0] == DrawLine(env.syncLinePen, NoteX(note, env), NoteY(note, env),
                                   NoteX(note.nextSync.value, env), NoteY(note, env)))
    // a huge note draws only its bitmap, and only when that bitmap is loaded
    ensures visible && slot.Ok? && slot.value.isHugeNote ==>
      r == (if env.specialNoteImage.Some? then Ok([SpecialSprite(note, env.specialNoteImage.value, env)]) else Ok([]))
    ensures r.Ok? ==> |r.value| <= 2
  {
    if !visible then Ok([])
    else match slot
      case Err(e) => Err(e)
      case Ok(s) =>
        if s.imageIndex < 0 && !s.isHugeNote then Ok([])
        else if !s.isHugeNote then
          var line :=
            if DrawsSyncLine(note, env)
            then [DrawLine(env.syncLinePen, NoteX(note, env), NoteY(note, env),
                           NoteX(note.nextSync.value, env), NoteY(note, env))]
            else [];
          Ok(line + [NoteSprite(note, s.imageIndex, env)])
        else if env.specialNoteImage.Some? then Ok([SpecialSprite(note, env.specialNoteImage.value, env)])
        else Ok([])
  }

  /** The frame a note list produces: the notes' commands in list order, up to
      the first note whose slot resolution throws. Defined on the last note so
      that it matches a left-to-right loop. */
  function PlanNotes(notes: seq<Note>, visible: Note -> bool, slot: Note -> Result<Slot>, env: DrawEnv): (r: Frame)
    // each note contributes at most a sync line and one sprite
    ensures |r.commands| <= 2 * |notes|
    decreases |notes|
  {
    if |notes| == 0 then Frame([], None)
    else Advance(PlanNotes(notes[..|notes| - 1], visible, slot, env), notes[|notes| - 1], visible, slot, env)
  }

  /** One more note after a partial frame: nothing once it has thrown,
      otherwise the note's commands or its error. */
  function Advance(before: Frame, note: Note, visible: Note -> bool, slot: Note -> Result<Slot>, env: DrawEnv): (r: Frame)
    ensures |r.commands| <= |before.commands| + 2
  {
    if before.error.Some? then before
    else match NoteCommands(note, visible(note), slot(note), env)
      case Ok(c) => Frame(before.commands + c, None)
      case Err(e) => Frame(before.commands, Some(e))
  }

  lemma AdvanceThen(f: Frame, g: Frame, note: Note, visible: Note -> bool, slot: Note -> Result<Slot>, env: DrawEnv)
    ensures Advance(Then(f, g), note, visible, slot, env) == Then(f, Advance(g, note, visible, slot, env))
  {
    if f.error.None? && g.error.None? {
      match NoteCommands(note, visible(note), slot(note), env)
      case Ok(c) => assert f.commands + g.commands + c == f.commands + (g.commands + c);
      case Err(_) =>
    }
  }

  /** Running frame `f`, then (if it did not throw) frame `g`. */
  function Then(f: Frame, g: Frame): Frame {
    if f.error.Some? then f else Frame(f.commands + g.commands, g.error)
  }

  /** The `foreach` loop of `OnDrawBuffer`. */
  method DrawNotes(notes: seq<Note>, visible: Note -> bool, slot: Note -> Result<Slot>, env: DrawEnv)
    returns (frame: Frame)
    ensures frame == PlanNotes(notes, visible, slot, env)
  {
    var commands: seq<DrawCommand> := [];
    var i := 0;
    while i < |notes|
      invariant 0 <= i <= |notes|
      invariant PlanNotes(notes[..i], visible, slot, env) == Frame(commands, None)
    {
      var note := notes[i];
      assert notes[..i + 1][..i] == notes[..i];
      var r := NoteCommands(note, visible(note), slot(note), env);
      if r.Err? {
        assert notes[..i + 1] == notes[..i] + [note];
        frame := Frame(commands, Some(r.error));
        PlanStopsAtError(notes, i, visible, slot, env);
        return;
      }
      commands := commands + r.value;
      i := i + 1;
    }
    assert notes[..|notes|] == notes;
    frame := Frame(commands, None);
  }

  /** Once a prefix of the list has thrown, the rest of the list changes nothing. */
  lemma {:induction false} PlanStopsAtError(notes: seq<Note>, i: nat, visible: Note -> bool, slot: Note -> Result<Slot>, env: DrawEnv)
    requires i < |notes|
    requires PlanNotes(notes[..i + 1], visible, slot, env).error.Some?
    ensures PlanNotes(notes, visible, slot, env) == PlanNotes(notes[..i + 1], visible, slot, env)
    decreases |notes|
  {
    if i + 1 < |notes| {
      var init := notes[..|notes| - 1];
      assert init[..i + 1] == notes[..i + 1];
      PlanStopsAtError(init, i, visible, slot, env);
    } else {
      assert notes[..i + 1] == notes;
    }
  }

  /** Draw order follows list order: the frame of `a + b` is the frame of `a`
      followed (unless `a` threw) by the frame of `b`. */
  lemma {:induction false} PlanAppend(a: seq<Note>, b: seq<Note>, visible: Note -> bool, slot: Note -> Result<Slot>, env: DrawEnv)
    ensures PlanNotes(a + b, visible, slot, env) == Then(PlanNotes(a, visible, slot, env), PlanNotes(b, visible, slot, env))
    decreases |b|
  {
    if |b| == 0 {
      assert a + b == a;
    } else {
      var b' := b[..|b| - 1];
      assert (a + b)[..|a + b| - 1] == a + b';
      assert (a + b)[|a + b| - 1] == b[|b| - 1];
      PlanAppend(a, b', visible, slot, env);
      AdvanceThen(PlanNotes(a, visible, slot, env), PlanNotes(b', visible, slot, env), b[|b| - 1], visible, slot, env);
    }
  }

  /** A frame throws exactly when some visible note has a slot error, and then
      the error is that of such a note. */
  lemma {:induction false} PlanErrorIff(notes: seq<Note>, visible: Note -> bool, slot: Note -> Result<Slot>, env: DrawEnv)
    ensures PlanNotes(notes, visible, slot, env).error.None? <==>
      forall i :: 0 <= i < |notes| && visible(notes[i]) ==> slot(notes[i]).Ok?
    ensures PlanNotes(notes, visible, slot, env).error.Some? ==>
      exists i :: 0 <= i < |notes| && visible(notes[i]) && slot(notes[i]) == Err(PlanNotes(notes, visible, slot, env).error.value)
    decreases |notes|
  {
    if |notes| > 0 {
      var init := notes[..|notes| - 1];
      PlanErrorIff(init, visible, slot, env);
      assert forall i :: 0 <= i < |init| ==> init[i] == notes[i];
    }
  }

  /** No visible note, no draw call. */
  lemma {:induction false} PlanNothingVisible(notes: seq<Note>, visible: Note -> bool, slot: Note -> Result<Slot>, env: DrawEnv)
    requires forall i :: 0 <= i < |notes| ==> !visible(notes[i])
    ensures PlanNotes(notes, visible, slot, env) == Frame([], None)
    decreases |notes|
  {
    if |notes| > 0 {
      var init := notes[..|notes| - 1];
      assert forall i :: 0 <= i < |init| ==> init[i] == notes[i];
      PlanNothingVisible(init, visible, slot, env);
    }
  }
}
