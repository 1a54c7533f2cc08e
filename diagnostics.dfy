/** The debug overlay the layers write warnings to. Its text is not modelled:
    each warning is a value naming the situation and the file it mentions. */
module Diagnostics {

  datatype Diagnostic =
    | MissingTraceCalculator(requestedId: string, fallbackId: string)
    | DefaultStripNotSpecified
    | DefaultStripNotFound(file: string)
    | StripNotFoundFallingBack(file: string)
    | HugeNoteImageNotSpecified
    | HugeNoteImageNotFound(file: string)

  class DebugOverlay {
    var lines: seq<Diagnostic>

    constructor ()
      ensures lines == []
    {
      lines := [];
    }

    method AddLine(line: Diagnostic)
      modifies this
      ensures lines == old(lines) + [line]
    {
      lines := lines + [line];
    }
  }
}
