/** The surface-bound resources of a notes layer: the note image strips, the
    huge-note bitmap and the sync-line pen, acquired when the render context
    is gained and disposed when it is lost. Both notes layers hold the same
    three fields and run the same acquisition and release code. */
module NoteResources {
  import opened Errors
  import opened Trace
  import opened Drawing
  import opened Diagnostics

  /** One configured note image strip. */
  datatype ImageEntry = ImageEntry(file: Option<string>, count: int, orientation: int)

  /** What slot `i` holds after loading: a strip exactly when its entry and
      file name are present and the file exists. */
  function LoadedStrip(entry: Option<ImageEntry>, fileExists: string -> bool): (r: Option<Resource>)
    ensures r.Some? <==> entry.Some? && entry.value.file.Some? && fileExists(entry.value.file.value)
    ensures r.Some? ==> r.value.ImageStrip? && r.value.file == entry.value.file.value
  {
    match entry
    case None => None
    case Some(e) =>
      if e.file.Some? && fileExists(e.file.value) then Some(ImageStrip(e.file.value, e.count, e.orientation))
      else None
  }

  function LoadedStrips(entries: seq<Option<ImageEntry>>, fileExists: string -> bool): (r: seq<Option<Resource>>)
    ensures |r| == |entries|
    ensures forall i :: 0 <= i < |entries| ==> r[i] == LoadedStrip(entries[i], fileExists)
  {
    seq(|entries|, i requires 0 <= i < |entries| => LoadedStrip(entries[i], fileExists))
  }

  /** The warning slot `index` produces: none for an empty entry or a loaded
      file, otherwise "default strip not found" for slot 0 and "falling back
      to default" for the others. */
  function SlotDiagnostic(index: nat, entry: Option<ImageEntry>, fileExists: string -> bool): (r: seq<Diagnostic>)
    ensures |r| <= 1
    // a warning exactly for a given entry that could not be loaded
    ensures |r| == 1 <==> entry.Some? && LoadedStrip(entry, fileExists).None?
    ensures |r| == 1 ==> (r[0].DefaultStripNotFound? <==> index == 0)
    ensures |r| == 1 ==> (r[0].DefaultStripNotFound? || r[0].StripNotFoundFallingBack?) && r[0].file == entry.value.file.GetOr("")
  {
    match entry
    case None => []
    case Some(e) =>
      if e.file.Some? && fileExists(e.file.value) then []
      else if index == 0 then [DefaultStripNotFound(e.file.GetOr(""))]
      else [StripNotFoundFallingBack(e.file.GetOr(""))]
  }

  function StripDiagnostics(entries: seq<Option<ImageEntry>>, fileExists: string -> bool): (r: seq<Diagnostic>)
    // at most one warning per entry
    ensures |r| <= |entries|
    decreases |entries|
  {
    if |entries| == 0 then []
    else StripDiagnostics(entries[..|entries| - 1], fileExists)
           + SlotDiagnostic(|entries| - 1, entries[|entries| - 1], fileExists)
  }

  /** Every warning names an entry that was given but could not be loaded;
      so a fully loadable configuration is silent. */
  lemma {:induction false} StripDiagnosticsOnlyForMissing(entries: seq<Option<ImageEntry>>, fileExists: string -> bool)
    ensures (forall i :: 0 <= i < |entries| ==> entries[i].None? || LoadedStrip(entries[i], fileExists).Some?)
            <==> StripDiagnostics(entries, fileExists) == []
    decreases |entries|
  {
    if |entries| > 0 {
      var init := entries[..|entries| - 1];
      var last := entries[|entries| - 1];
      StripDiagnosticsOnlyForMissing(init, fileExists);
      assert forall i :: 0 <= i < |init| ==> init[i] == entries[i];
      var before := StripDiagnostics(init, fileExists);
      var here := SlotDiagnostic(|entries| - 1, last, fileExists);
      assert StripDiagnostics(entries, fileExists) == before + here;
      assert (before + here == []) <==> (before == [] && here == []);
      assert (here == []) <==> (last.None? || LoadedStrip(last, fileExists).Some?);
    }
  }

  /** The resources among the slots, in slot order. */
  function Present(slots: seq<Option<Resource>>): (r: seq<Resource>)
    ensures |r| <= |slots|
    decreases |slots|
  {
    if |slots| == 0 then []
    else Present(slots[..|slots| - 1]) + (if slots[|slots| - 1].Some? then [slots[|slots| - 1].value] else [])
  }

  /** `Present` keeps exactly the filled slots. */
  lemma {:induction false} PresentExactly(slots: seq<Option<Resource>>, r: Resource)
    ensures r in Present(slots) <==> Some(r) in slots
    decreases |slots|
  {
    if |slots| > 0 {
      var init := slots[..|slots| - 1];
      PresentExactly(init, r);
      assert slots == init + [slots[|slots| - 1]];
    }
  }

  /** A context loss after a context gain releases every strip that was loaded. */
  lemma LoadedStripsAreReleased(entries: seq<Option<ImageEntry>>, fileExists: string -> bool, i: nat)
    requires i < |entries| && LoadedStrip(entries[i], fileExists).Some?
    ensures LoadedStrip(entries[i], fileExists).value in Present(LoadedStrips(entries, fileExists))
  {
    var slots := LoadedStrips(entries, fileExists);
    assert slots[i] == LoadedStrip(entries[i], fileExists);
    PresentExactly(slots, slots[i].value);
  }

  function AsSeq(r: Option<Resource>): seq<Resource> {
    if r.Some? then [r.value] else []
  }

  /** The warnings of one `OnGotContext`: the strips' warnings, then the huge-note image's. */
  function ContextDiagnostics(entries: Option<seq<Option<ImageEntry>>>, specialFile: Option<string>,
                              fileExists: string -> bool): seq<Diagnostic>
  {
    StripsDiagnostics(entries, fileExists) + SpecialImageDiagnostics(specialFile, fileExists)
  }

  /** The strip part: "not specified" when no strip is configured, else the slots' warnings. */
  function StripsDiagnostics(entries: Option<seq<Option<ImageEntry>>>, fileExists: string -> bool): seq<Diagnostic> {
    if entries.None? || |entries.value| == 0 then [DefaultStripNotSpecified]
    else StripDiagnostics(entries.value, fileExists)
  }

  /** The huge-note image part. */
  function SpecialImageDiagnostics(specialFile: Option<string>, fileExists: string -> bool): seq<Diagnostic> {
    if specialFile.None? then [HugeNoteImageNotSpecified]
    else if !fileExists(specialFile.value) then [HugeNoteImageNotFound(specialFile.value)]
    else []
  }


  lemma StripDiagnosticsStep(entries: seq<Option<ImageEntry>>, i: nat, fileExists: string -> bool)
    requires i < |entries|
    ensures StripDiagnostics(entries[..i + 1], fileExists)
      == StripDiagnostics(entries[..i], fileExists) + SlotDiagnostic(i, entries[i], fileExists)
  {
    assert entries[..i + 1][..i] == entries[..i];
  }

  /** The strip warnings are all about strips, and only the first can
      concern the default strip. */
  lemma {:induction false} StripDiagnosticsKinds(entries: seq<Option<ImageEntry>>, fileExists: string -> bool)
    ensures forall k :: 0 <= k < |StripDiagnostics(entries, fileExists)| ==>
      StripDiagnostics(entries, fileExists)[k].DefaultStripNotFound? || StripDiagnostics(entries, fileExists)[k].StripNotFoundFallingBack?
    ensures forall k :: 0 < k < |StripDiagnostics(entries, fileExists)| ==>
      StripDiagnostics(entries, fileExists)[k].StripNotFoundFallingBack?
    decreases |entries|
  {
    if |entries| > 0 {
      var init := entries[..|entries| - 1];
      StripDiagnosticsKinds(init, fileExists);
      var before := StripDiagnostics(init, fileExists);
      var here := SlotDiagnostic(|entries| - 1, entries[|entries| - 1], fileExists);
      var r := StripDiagnostics(entries, fileExists);
      assert r == before + here;
      assert forall k :: |before| <= k < |r| ==> r[k] == here[k - |before|];
      assert forall k :: 0 <= k < |before| ==> r[k] == before[k];
    }
  }

  /** The warnings of a context gain: "default strip not specified" comes
      first exactly when no strip is configured, the huge-note image's
      warning comes last, and there is none when its file exists. */
  lemma ContextDiagnosticsOrder(entries: Option<seq<Option<ImageEntry>>>, specialFile: Option<string>,
                                fileExists: string -> bool)
    ensures var r := ContextDiagnostics(entries, specialFile, fileExists);
      (entries.None? || |entries.value| == 0) <==> |r| > 0 && r[0] == DefaultStripNotSpecified
    ensures var r := ContextDiagnostics(entries, specialFile, fileExists);
      specialFile.None? ==> |r| > 0 && r[|r| - 1] == HugeNoteImageNotSpecified
    ensures var r := ContextDiagnostics(entries, specialFile, fileExists);
      specialFile.Some? && !fileExists(specialFile.value) ==>
        |r| > 0 && r[|r| - 1] == HugeNoteImageNotFound(specialFile.value)
    ensures var r := ContextDiagnostics(entries, specialFile, fileExists);
      specialFile.Some? && fileExists(specialFile.value) ==>
        forall k :: 0 <= k < |r| ==> !r[k].HugeNoteImageNotSpecified? && !r[k].HugeNoteImageNotFound?
  {
    var strips := StripsDiagnostics(entries, fileExists);
    var special := SpecialImageDiagnostics(specialFile, fileExists);
    if entries.Some? && |entries.value| > 0 {
      StripDiagnosticsKinds(entries.value, fileExists);
      assert |strips| > 0 ==> strips[0] != DefaultStripNotSpecified;
    }
  }

  lemma AppendAssoc(a: seq<Diagnostic>, b: seq<Diagnostic>, c: seq<Diagnostic>)
    ensures a + b + c == a + (b + c)
  {
  }

  /** One iteration of the strip loop of `OnGotContext`: an empty entry is
      skipped, a missing file is warned about, anything else is loaded. */
  method LoadSlot(index: nat, entry: Option<ImageEntry>, fileExists: string -> bool, overlay: DebugOverlay?)
    returns (slot: Option<Resource>)
    modifies overlay
    ensures slot == LoadedStrip(entry, fileExists)
    ensures overlay != null ==> overlay.lines == old(overlay.lines) + SlotDiagnostic(index, entry, fileExists)
  {
    if entry.None? {
      return None;
    }
    var file := entry.value.file;
    if file.None? || !fileExists(file.value) {
      if overlay != null {
        if index == 0 {
          overlay.AddLine(DefaultStripNotFound(file.GetOr("")));
        } else {
          overlay.AddLine(StripNotFoundFallingBack(file.GetOr("")));
        }
      }
      return None;
    }
    slot := Some(ImageStrip(file.value, entry.value.count, entry.value.orientation));
  }

  /** The `for` loop of `OnGotContext`: a new array with one slot per entry,
      filled where the entry's file exists, warning about the others. */
  method LoadStrips(entries: seq<Option<ImageEntry>>, fileExists: string -> bool, overlay: DebugOverlay?)
    returns (images: array<Option<Resource>>)
    requires |entries| > 0
    modifies overlay
    ensures fresh(images)
    ensures images[..] == LoadedStrips(entries, fileExists)
    ensures overlay != null ==> overlay.lines == old(overlay.lines) + StripDiagnostics(entries, fileExists)
  {
    images := new Option<Resource>[|entries|];
    for i := 0 to |entries|
      invariant forall j :: 0 <= j < i ==> images[j] == LoadedStrip(entries[j], fileExists)
      invariant overlay != null ==> overlay.lines == old(overlay.lines) + StripDiagnostics(entries[..i], fileExists)
    {
      StripDiagnosticsStep(entries, i, fileExists);
      if overlay != null {
        AppendAssoc(old(overlay.lines), StripDiagnostics(entries[..i], fileExists), SlotDiagnostic(i, entries[i], fileExists));
      }
      var slot := LoadSlot(i, entries[i], fileExists, overlay);
      images[i] := slot;
    }
    assert forall j :: 0 <= j < |entries| ==> images[..][j] == LoadedStrips(entries, fileExists)[j];
    assert entries[..|entries|] == entries;
  }

  class SurfaceResources {
    /** `_noteImages`: `null`, or an array with one slot per configured strip. */
    var noteImages: array?<Option<Resource>>
    /** `_specialNoteImage` */
    var specialNoteImage: Option<Resource>
    /** `_simpleSyncLinePen` */
    var syncLinePen: Option<Resource>
    /** Every `Dispose` call made so far, in order. */
    var released: seq<Resource>

    /** An image array, when present, is non-empty and was created together with a pen. */
    ghost predicate Valid()
      reads this
    {
      noteImages != null ==> noteImages.Length > 0 && syncLinePen.Some?
    }

    /** `_noteImages?[0] != null` */
    predicate DefaultStripLoaded()
      reads this, noteImages
    {
      noteImages != null && noteImages.Length > 0 && noteImages[0].Some?
    }

    ghost function Images(): seq<Option<Resource>>
      reads this, noteImages
    {
      if noteImages == null then [] else noteImages[..]
    }

    constructor ()
      ensures Valid()
      ensures noteImages == null && specialNoteImage.None? && syncLinePen.None? && released == []
    {
      noteImages := null;
      specialNoteImage := None;
      syncLinePen := None;
      released := [];
    }

    /** `OnGotContext`. `scaling` is the stage scaling element (the build's
        required collaborator), `entries` the configured strips, `specialFile`
        the huge-note image name, and `fileExists` stands for `File.Exists`. */
    method GotContext(scaling: Option<ScaleResults>, entries: Option<seq<Option<ImageEntry>>>,
                      specialFile: Option<string>, fileExists: string -> bool, overlay: DebugOverlay?)
      returns (err: Option<Error>)
      requires Valid()
      modifies this, overlay
      ensures Valid()
      ensures released == old(released)
      ensures scaling.None? ==>
        && err == Some(InvalidOperationException)
        && noteImages == old(noteImages) && specialNoteImage == old(specialNoteImage) && syncLinePen == old(syncLinePen)
        && (overlay != null ==> overlay.lines == old(overlay.lines))
      ensures scaling.Some? ==>
        && err.None?
        && syncLinePen == Some(Pen(scaling.value.syncLineWidth))
        // no strip configured: the image array is left as it was
        && (entries.None? || |entries.value| == 0 ==> noteImages == old(noteImages))
        // otherwise a new array, slot i filled iff its entry names an existing file
        && (entries.Some? && |entries.value| > 0 ==>
              noteImages != null && fresh(noteImages) && noteImages[..] == LoadedStrips(entries.value, fileExists))
        // the huge-note bitmap is replaced only when its file exists
        && specialNoteImage ==
             (if specialFile.Some? && fileExists(specialFile.value) then Some(Bitmap(specialFile.value))
              else old(specialNoteImage))
        && (overlay != null ==>
              overlay.lines == old(overlay.lines) + ContextDiagnostics(entries, specialFile, fileExists))
    {
      if scaling.None? {
        return Some(InvalidOperationException);
      }
      AcquireStrips(entries, fileExists, overlay);
      AcquireSpecialImage(specialFile, fileExists, overlay);
      syncLinePen := Some(Pen(scaling.value.syncLineWidth));
      err := None;
    }

    /** The strip part of `OnGotContext`: warn when no strip is configured,
        otherwise load a new array. The pen is created afterwards. */
    method AcquireStrips(entries: Option<seq<Option<ImageEntry>>>, fileExists: string -> bool, overlay: DebugOverlay?)
      modifies this, overlay
      ensures entries.None? || |entries.value| == 0 ==> noteImages == old(noteImages)
      ensures entries.Some? && |entries.value| > 0 ==>
        noteImages != null && fresh(noteImages) && noteImages.Length > 0
        && noteImages[..] == LoadedStrips(entries.value, fileExists)
      ensures specialNoteImage == old(specialNoteImage) && syncLinePen == old(syncLinePen) && released == old(released)
      ensures overlay != null ==> overlay.lines == old(overlay.lines) + StripsDiagnostics(entries, fileExists)
    {
      if entries.None? || |entries.value| == 0 {
        if overlay != null {
          overlay.AddLine(DefaultStripNotSpecified);
        }
      } else {
        noteImages := LoadStrips(entries.value, fileExists, overlay);
      }
    }

    /** The huge-note image part of `OnGotContext`: load it when its file exists, warn otherwise. */
    method AcquireSpecialImage(specialFile: Option<string>, fileExists: string -> bool, overlay: DebugOverlay?)
      modifies this, overlay
      ensures specialNoteImage ==
        (if specialFile.Some? && fileExists(specialFile.value) then Some(Bitmap(specialFile.value))
         else old(specialNoteImage))
      ensures noteImages == old(noteImages) && syncLinePen == old(syncLinePen) && released == old(released)
      ensures overlay != null ==> overlay.lines == old(overlay.lines) + SpecialImageDiagnostics(specialFile, fileExists)
    {
      if specialFile.None? {
        if overlay != null {
          overlay.AddLine(HugeNoteImageNotSpecified);
        }
      } else if !fileExists(specialFile.value) {
        if overlay != null {
          overlay.AddLine(HugeNoteImageNotFound(specialFile.value));
        }
      } else {
        specialNoteImage := Some(Bitmap(specialFile.value));
      }
    }

    /** `OnLostContext`: dispose the pen (a `null` pen throws), then every
        non-null strip in slot order, drop the strip array, then dispose the
        huge-note bitmap, which stays referenced. */
    method LostContext() returns (err: Option<Error>)
      requires Valid()
      modifies this
      ensures Valid()
      ensures old(syncLinePen).None? ==>
        && err == Some(NullReferenceException)
        && released == old(released) && noteImages == old(noteImages)
        && specialNoteImage == old(specialNoteImage) && syncLinePen == old(syncLinePen)
      ensures old(syncLinePen).Some? ==>
        && err.None?
        && released == old(released) + [old(syncLinePen).value] + Present(old(Images())) + AsSeq(old(specialNoteImage))
        && noteImages == null
        && specialNoteImage == old(specialNoteImage) && syncLinePen == old(syncLinePen)
    {
      if syncLinePen.None? {
        return Some(NullReferenceException);
      }
      released := released + [syncLinePen.value];
      if noteImages != null {
        var images := noteImages;
        ghost var before := released;
        for i := 0 to images.Length
          invariant released == before + Present(images[..i])
          invariant noteImages == images
          invariant specialNoteImage == old(specialNoteImage) && syncLinePen == old(syncLinePen)
        {
          assert images[..i + 1][..i] == images[..i];
          if images[i].Some? {
            released := released + [images[i].value];
          }
        }
        assert images[..images.Length] == images[..];
      }
      noteImages := null;
      if specialNoteImage.Some? {
        released := released + [specialNoteImage.value];
      }
      err := None;
    }
  }
}
