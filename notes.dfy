/** The runtime note record the notes layers read every frame. */
module Notes {
  import opened Errors

  /** Note type. A C# enum variable can hold a number that names no member;
      `OtherType` stands for such a value, which reaches a `default:` branch. */
  datatype NoteType =
    | Tap | Flick | Hold | Slide | Special | SpecialEnd | SpecialPrepare | ScorePrepare
    | OtherType(code: int)

  datatype NoteSize = Small | Large | OtherSize(code: int)

  datatype FlickDirection = NoDirection | Left | Up | Right | Down | OtherDirection(code: int)

  /** A note as the drawing code sees it. The role flags are the answers of the
      note's `IsHoldStart`, `IsHoldEnd`, `IsSlideStart`, `IsSlideMiddle` and
      `IsSlideEnd` queries, which are independent booleans to the drawing code;
      `nextSync` is the note that shares this note's timestamp, if any. */
  datatype Note = Note(
    kind: NoteType,
    size: NoteSize,
    flickDirection: FlickDirection,
    isHoldStart: bool,
    isHoldEnd: bool,
    isSlideStart: bool,
    isSlideMiddle: bool,
    isSlideEnd: bool,
    timestamp: real,
    track: int,
    nextSync: Option<Note>)
  {
    predicate HasNextSync() { nextSync.Some? }
  }
}
