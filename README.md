# MilliSim notes layers, merging animation, enumerator and score-file test — a Dafny model

This project models the decision logic of MilliSim's note rendering core and
proves properties of it:

- the **visual-slot table** that maps a note's type, size, flick direction and
  hold/slide roles to an image-strip index or to the huge (special) note path,
  in both the score-components extension and the older Theater program, and
  where the two tables differ;
- **per-frame draw planning**: which notes of the score produce a sync line and
  a sprite, a special-note bitmap, or nothing, in note-list order, and the
  early exits and exceptions of a frame;
- the **clamped global speed scale** and **trace calculator selection** by
  plug-in identifier, with fallback and diagnostic;
- the **surface resources** (note image strips, huge-note bitmap, sync-line
  pen) acquired on context gain and disposed on context loss;
- the **tap-points merging animation**: its two-field state machine, its
  cancellation rules and its two phases;
- the **component-collection enumerator**: its index cursor and the shared
  active-enumerator counter;
- the MLTD Unity3D score format's **file-type test**.

Draw calls are not executed: each one becomes a `DrawCommand` appended to
the frame's command sequence (`Drawing`). Exceptions become `Err` values or
an `error` field (`Errors`), `null` becomes `None`. The trace calculator
(`Trace.TraceCalculator`) is a record of its seven queries, following
`OpenMLTD.MilliSim.Theater/Internal/INoteTraceCalculator.cs`; since no
calculator body is modelled, every calculator value stands for any
deterministic one, and the note visibility test is likewise a function
parameter. The sync timer, the tap-points and stage-scaling elements, the
score loader, the plug-in registry, configuration and `File.Exists` are
parameters of the operations that look them up. Times are seconds as `real`.

Modules: `Errors`, `Notes` (note record and enums; each enum has an
`Other…` constructor for a number that names no member; such a value
reaches the code's `default:` branches, as do some named values, such as a
Flick note without a direction or a note type the Theater's table does not
handle), `Trace`, `Drawing`, `Diagnostics`
(the debug overlay, its lines as values), `FramePlan` (the note loop shared by
both layers), `NoteResources` (the resource fields and context handlers shared
by both layers), `ScoreNotesLayer`, `TheaterNotesLayer`, `TapPointsMerging`,
`ComponentCollections`, `Unity3DScoreFormat` (whose `PluginId`,
`CanReadAsSource` and `CanReadAsCompiled` are constants, the latter two
`true`, as at OpenMLTD.MilliSim.Extension.Scores.StandardScoreFormats.Mltd/Unity3DScoreFormat.cs:11-23).

Behaviours of the code that the model keeps as written:

- A context loss with no pen throws `NullReferenceException`, because both
  layers dispose the sync-line pen unconditionally (OpenMLTD.MilliSim.Extension.Components.ScoreComponents/Gaming/NotesLayer.cs:324,
  OpenMLTD.MilliSim.Theater/Elements/NotesLayer.cs:302); `SurfaceResources.LostContext` models that,
  with nothing else changed.
- Conflicting hold/slide roles are checked while drawing: the extension's
  table throws `ArgumentException` for a visible note with such roles
  (OpenMLTD.MilliSim.Extension.Components.ScoreComponents/Gaming/NotesLayer.cs:44-52), and the Theater's inline table
  (OpenMLTD.MilliSim.Theater/Elements/NotesLayer.cs:108-201) does not check them at all.
- Special notes go through the slot table and come out with the huge-note
  flag set (OpenMLTD.MilliSim.Extension.Components.ScoreComponents/Gaming/NotesLayer.cs:139-141).
- A context loss disposes the huge-note bitmap without clearing the field
  (OpenMLTD.MilliSim.Extension.Components.ScoreComponents/Gaming/NotesLayer.cs:333), and a later gain without a valid file
  keeps it (OpenMLTD.MilliSim.Extension.Components.ScoreComponents/Gaming/NotesLayer.cs:306-316).
- The merging animation's phase-2 socket is placed with its top edge at `y`
  minus half its **width** (OpenMLTD.MilliSim.Extension.Components.ScoreComponents/Gaming/TapPointsMergingAnimation.cs:100).

## Model

| member | source | states |
|---|---|---|
| `ScoreNotesLayer.ClampSpeedScale` | OpenMLTD.MilliSim.Extension.Components.ScoreComponents/Gaming/NotesLayer.cs:31-39 | the stored speed is at least 0.05; it equals the value given when that exceeds 0.05, and is exactly 0.05 otherwise |
| `ScoreNotesLayer.NotesLayer.SetGlobalSpeedScale` | OpenMLTD.MilliSim.Extension.Components.ScoreComponents/Gaming/NotesLayer.cs:31-39 | the setter stores the clamped value and keeps the layer's speed at least 0.05 |
| `ScoreNotesLayer.NotesLayer.constructor` | OpenMLTD.MilliSim.Extension.Components.ScoreComponents/Gaming/NotesLayer.cs:369-380 | a new layer has speed 1, no calculator, no score and no surface resources |
| `ScoreNotesLayer.GetImageIndex` | OpenMLTD.MilliSim.Extension.Components.ScoreComponents/Gaming/NotesLayer.cs:43-152 | ArgumentException exactly when hold start and end, slide start and end, or a hold role and a slide role are both set; no other error but ArgumentOutOfRangeException; every index in -1..9; huge exactly for Special, and then the index is -1 |
| `ScoreNotesLayer.OutOfRangeIff` | OpenMLTD.MilliSim.Extension.Components.ScoreComponents/Gaming/NotesLayer.cs:56-149 | ArgumentOutOfRangeException exactly when roles are consistent and an unnamed value reaches a default branch (Flick with no direction included); otherwise, with consistent roles, a slot is returned |
| `ScoreNotesLayer.BodySlots` | OpenMLTD.MilliSim.Extension.Components.ScoreComponents/Gaming/NotesLayer.cs:57-125 | Tap Small 0 / Large 1; Hold with no direction or Down: Small 2 / Large 3; Slide with no direction or Down: start 7, else end 9, else 8 |
| `ScoreNotesLayer.DirectionalSlots` | OpenMLTD.MilliSim.Extension.Components.ScoreComponents/Gaming/NotesLayer.cs:69-134 | Left/Up/Right give 4/5/6 for Flick, Hold and Slide; Flick Down gives -1; Flick with no direction throws ArgumentOutOfRangeException |
| `ScoreNotesLayer.SpecialKindSlots` | OpenMLTD.MilliSim.Extension.Components.ScoreComponents/Gaming/NotesLayer.cs:139-146 | Special gives (-1, huge); SpecialEnd, SpecialPrepare and ScorePrepare give (-1, not huge) |
| `ScoreNotesLayer.NoteSlot` | OpenMLTD.MilliSim.Extension.Components.ScoreComponents/Gaming/NotesLayer.cs:365-367 | the overload on a note throws ArgumentException iff the note's roles conflict; a slot it returns has an index in -1..9 and is huge iff the note is Special |
| `ScoreNotesLayer.FirstWithPluginId` | OpenMLTD.MilliSim.Extension.Components.ScoreComponents/Gaming/NotesLayer.cs:352 | the index found is the first calculator whose plug-in identifier matches; none found means none matches |
| `ScoreNotesLayer.SelectCalculator` | OpenMLTD.MilliSim.Extension.Components.ScoreComponents/Gaming/NotesLayer.cs:345-358 | fails with InvalidOperationException exactly when no calculator is registered; otherwise chooses the first matching one, or falls back to element 0 exactly when none matches |
| `ScoreNotesLayer.SelectionDiagnostics` | OpenMLTD.MilliSim.Extension.Components.ScoreComponents/Gaming/NotesLayer.cs:353-356 | exactly one diagnostic when selection falls back, none otherwise |
| `ScoreNotesLayer.AbsoluteLayoutIgnoresHeight` | OpenMLTD.MilliSim.Extension.Components.ScoreComponents/Gaming/NotesLayer.cs:193-202 | an absolute notes-layer or tap-points Y stays put when the client height changes; a fractional one is proportional to the height (its value times one height equals its value at that height times the other) |
| `ScoreNotesLayer.NotesLayer.Initialize` | OpenMLTD.MilliSim.Extension.Components.ScoreComponents/Gaming/NotesLayer.cs:336-363 | the score is always taken; with no calculators the call throws and leaves calculator, speed and overlay alone; otherwise the selected calculator is installed, the speed clamped from configuration, and the fallback diagnostic added when an overlay exists |
| `ScoreNotesLayer.NotesLayer.DrawBuffer` | OpenMLTD.MilliSim.Extension.Components.ScoreComponents/Gaming/NotesLayer.cs:154-261 | nothing drawn without a score, without the default strip or without a sync timer; InvalidOperationException without tap points or stage scaling; otherwise the frame is the note plan, over the animation metrics and drawing environment that `FrameAnimationMetrics` and `FrameEnv` build, with visibility tested against the animation metrics |
| `ScoreNotesLayer.FrameErrorOnlyFromVisible` | OpenMLTD.MilliSim.Extension.Components.ScoreComponents/Gaming/NotesLayer.cs:216-221 | a frame throws only at a visible note with conflicting roles or an unnamed enum value |
| `ScoreNotesLayer.NotesLayer.GotContext` | OpenMLTD.MilliSim.Extension.Components.ScoreComponents/Gaming/NotesLayer.cs:263-319 | no stage scaling throws before any change; otherwise the pen is created, slot i of a fresh strip array is filled iff its entry names an existing file, and the warnings are added in order |
| `ScoreNotesLayer.NotesLayer.LostContext` | OpenMLTD.MilliSim.Extension.Components.ScoreComponents/Gaming/NotesLayer.cs:321-334 | disposes the pen, then every loaded strip in slot order, then the huge-note bitmap, and drops the strip array; a missing pen throws |
| `FramePlan.NoteCommands` | OpenMLTD.MilliSim.Extension.Components.ScoreComponents/Gaming/NotesLayer.cs:216-258 | an invisible note draws nothing and is not classified; a slot error is raised only for a visible note; a non-huge note with negative index draws nothing; a drawn normal note gives an optional sync line (both ends at the note's Y, to the partner's X) then its sprite, the line present iff sync lines are on, the note has a partner and neither is slide-middle unless slide-middle lines are on; a huge note draws only its bitmap and only when loaded |
| `FramePlan.DrawsSyncLine` | OpenMLTD.MilliSim.Extension.Components.ScoreComponents/Gaming/NotesLayer.cs:232-239 | with slide-middle sync lines on, a line is drawn iff sync lines are on and the note has a partner; with them off, additionally only when neither the note nor its partner is slide-middle |
| `FramePlan.PlanNotes` | OpenMLTD.MilliSim.Extension.Components.ScoreComponents/Gaming/NotesLayer.cs:216-258 | the frame of a note list, defined note by note in list order up to the first throw; it issues at most two commands per note |
| `FramePlan.DrawNotes` | OpenMLTD.MilliSim.Extension.Components.ScoreComponents/Gaming/NotesLayer.cs:216-258 | the loop's commands and error are exactly the note plan of the list |
| `FramePlan.PlanAppend` | OpenMLTD.MilliSim.Extension.Components.ScoreComponents/Gaming/NotesLayer.cs:216-258 | draw order follows list order: the plan of a + b is the plan of a followed, unless a threw, by the plan of b |
| `FramePlan.PlanStopsAtError` | OpenMLTD.MilliSim.Extension.Components.ScoreComponents/Gaming/NotesLayer.cs:221 | after the first throwing note the rest of the list changes nothing |
| `FramePlan.PlanErrorIff` | OpenMLTD.MilliSim.Extension.Components.ScoreComponents/Gaming/NotesLayer.cs:216-225 | a frame throws iff some visible note's slot is an error, and the error is that note's |
| `FramePlan.PlanNothingVisible` | OpenMLTD.MilliSim.Extension.Components.ScoreComponents/Gaming/NotesLayer.cs:216-219 | with no visible note, a frame draws nothing and does not throw |
| `NoteResources.LoadedStrip` | OpenMLTD.MilliSim.Extension.Components.ScoreComponents/Gaming/NotesLayer.cs:283-302 | a slot holds a strip iff its entry and file name exist and the file exists, and the strip is made from that file |
| `NoteResources.LoadedStrips` | OpenMLTD.MilliSim.Extension.Components.ScoreComponents/Gaming/NotesLayer.cs:280-303 | one slot per entry, each as LoadedStrip says |
| `NoteResources.LoadStrips` | OpenMLTD.MilliSim.Extension.Components.ScoreComponents/Gaming/NotesLayer.cs:280-303 | the loading loop yields a fresh array equal to LoadedStrips and adds the slot warnings in order |
| `NoteResources.StripDiagnosticsOnlyForMissing` | OpenMLTD.MilliSim.Extension.Components.ScoreComponents/Gaming/NotesLayer.cs:284-299 | the strip warnings are empty exactly when every given entry could be loaded |
| `NoteResources.SlotDiagnostic` | OpenMLTD.MilliSim.Extension.Components.ScoreComponents/Gaming/NotesLayer.cs:284-298 | one warning exactly for a given entry that cannot be loaded, naming its file (empty when none); "default strip not found" iff it is slot 0, otherwise "falling back to default" |
| `NoteResources.StripDiagnostics` | OpenMLTD.MilliSim.Extension.Components.ScoreComponents/Gaming/NotesLayer.cs:282-303 | the strip loop gives at most one warning per entry |
| `NoteResources.StripDiagnosticsKinds` | OpenMLTD.MilliSim.Extension.Components.ScoreComponents/Gaming/NotesLayer.cs:282-303 | every strip-loop warning is about a strip (default not found, or falling back to default), and only the first can concern the default strip |
| `NoteResources.ContextDiagnosticsOrder` | OpenMLTD.MilliSim.Extension.Components.ScoreComponents/Gaming/NotesLayer.cs:275-316 | "default strip not specified" comes first exactly when no strip is configured; the huge-note image's "not specified" or "not found" comes last, and there is no huge-note warning when its file exists |
| `NoteResources.Present` | OpenMLTD.MilliSim.Extension.Components.ScoreComponents/Gaming/NotesLayer.cs:326-330 | the disposed strips are no more than the slots |
| `NoteResources.PresentExactly` | OpenMLTD.MilliSim.Extension.Components.ScoreComponents/Gaming/NotesLayer.cs:326-330 | a strip is disposed iff some slot holds it |
| `NoteResources.LoadedStripsAreReleased` | OpenMLTD.MilliSim.Extension.Components.ScoreComponents/Gaming/NotesLayer.cs:280-331 | a context loss after a context gain disposes every strip the gain loaded |
| `NoteResources.LoadSlot` | OpenMLTD.MilliSim.Extension.Components.ScoreComponents/Gaming/NotesLayer.cs:283-302 | one slot of the strip loop: the slot gets exactly LoadedStrip of its entry and the overlay gains exactly that slot's warning |
| `NoteResources.SurfaceResources.AcquireStrips` | OpenMLTD.MilliSim.Extension.Components.ScoreComponents/Gaming/NotesLayer.cs:275-304 | with no strip configured the array is kept and "default strip not specified" is shown; otherwise a fresh, non-empty array equal to LoadedStrips replaces it; bitmap, pen and dispose log are untouched |
| `NoteResources.SurfaceResources.AcquireSpecialImage` | OpenMLTD.MilliSim.Extension.Components.ScoreComponents/Gaming/NotesLayer.cs:306-316 | the huge-note bitmap is replaced by the named file's bitmap iff that file exists, otherwise a "not specified" or "not found" warning is shown; nothing else changes |
| `NoteResources.SurfaceResources.constructor` | OpenMLTD.MilliSim.Extension.Components.ScoreComponents/Gaming/NotesLayer.cs:369-378 | a new layer holds no image array, no huge-note bitmap, no pen |
| `NoteResources.SurfaceResources.GotContext` | OpenMLTD.MilliSim.Extension.Components.ScoreComponents/Gaming/NotesLayer.cs:263-319 | as the layer's GotContext; with no strips configured the array is left as it was; the huge-note bitmap is replaced only when its file exists |
| `NoteResources.SurfaceResources.LostContext` | OpenMLTD.MilliSim.Extension.Components.ScoreComponents/Gaming/NotesLayer.cs:321-334 | the dispose log grows by pen, present strips in slot order, huge-note bitmap; the array becomes null, bitmap and pen stay referenced; with no pen it throws and changes nothing |
| `TheaterNotesLayer.TheaterSlot` | OpenMLTD.MilliSim.Theater/Elements/NotesLayer.cs:108-201 | the inline table only throws ArgumentOutOfRangeException; indices in -1..9; huge exactly for Special |
| `TheaterNotesLayer.TablesAgree` | OpenMLTD.MilliSim.Theater/Elements/NotesLayer.cs:108-201 | with consistent roles and a kind other than SpecialPrepare and ScorePrepare, the inline table equals the extension's table |
| `TheaterNotesLayer.TablesDiffer` | OpenMLTD.MilliSim.Theater/Elements/NotesLayer.cs:110-201 | conflicting roles: extension throws ArgumentException, Theater never does; Theater tests slide start before slide end; SpecialPrepare and ScorePrepare throw in the Theater but are skipped by the extension |
| `TheaterNotesLayer.TheaterIgnoresHoldRoles` | OpenMLTD.MilliSim.Theater/Elements/NotesLayer.cs:108-201 | the inline table never reads the hold-start and hold-end flags: clearing them never changes a note's slot, whatever its roles |
| `TheaterNotesLayer.TheaterSlotOfEveryNote` | OpenMLTD.MilliSim.Theater/Elements/NotesLayer.cs:108-201 | for every note but the two prepare kinds, whatever its roles, the Theater's slot is the extension's slot of that note with the hold flags cleared and a slide start's slide-end flag dropped |
| `TheaterNotesLayer.TheaterSlideStartFirst` | OpenMLTD.MilliSim.Theater/Elements/NotesLayer.cs:168-179 | a slide start takes the start's slot whether or not it is also a slide end |
| `TheaterNotesLayer.MetricsMatchExtension` | OpenMLTD.MilliSim.Theater/Elements/NotesLayer.cs:79-87 | the Theater's animation metrics equal the extension's whenever the extension's layout Y values are fractions holding the same numbers |
| `TheaterNotesLayer.EnvDiffersOnlyInSpeed` | OpenMLTD.MilliSim.Theater/Elements/NotesLayer.cs:70-99 | with equal sync-line, slide-middle and opacity settings, the Theater's drawing environment is the extension's except that both note metrics carry the layer's speed scale, which the extension leaves out |
| `TheaterNotesLayer.NotesLayer.constructor` | OpenMLTD.MilliSim.Theater/Elements/NotesLayer.cs:321-331 | a new layer has speed 1, no score, no surface resources, and the static realistic calculator (line 37) for its lifetime |
| `TheaterNotesLayer.NotesLayer.SetGlobalSpeedScale` | OpenMLTD.MilliSim.Theater/Elements/NotesLayer.cs:27-35 | values at or below 0.05 are stored as exactly 0.05, others unchanged |
| `TheaterNotesLayer.NotesLayer.Initialize` | OpenMLTD.MilliSim.Theater/Elements/NotesLayer.cs:314-319 | the score loader's score is kept |
| `TheaterNotesLayer.NotesLayer.DrawBuffer` | OpenMLTD.MilliSim.Theater/Elements/NotesLayer.cs:39-239 | early exits on null score, missing default strip or sync timer; InvalidOperationException without tap points or gaming area; otherwise the note plan with the inline table, the fixed calculator, the metrics and environment that `FrameAnimationMetrics`, `CommonMetrics` and `FrameEnv` build, and visibility tested against the common note metrics |
| `TheaterNotesLayer.NotesLayer.GotContext` | OpenMLTD.MilliSim.Theater/Elements/NotesLayer.cs:241-297 | as the extension's, with the gaming area as the required element |
| `TheaterNotesLayer.NotesLayer.LostContext` | OpenMLTD.MilliSim.Theater/Elements/NotesLayer.cs:299-312 | disposes the pen, then every non-null strip in slot order, then the huge-note bitmap, and drops the strip array; a missing pen throws |
| `TapPointsMerging.Lerp` | OpenMLTD.MilliSim.Extension.Components.ScoreComponents/Gaming/TapPointsMergingAnimation.cs:82-89 | interpolation starts at the first value and ends at the second |
| `TapPointsMerging.PhaseAt` | OpenMLTD.MilliSim.Extension.Components.ScoreComponents/Gaming/TapPointsMergingAnimation.cs:32-94 | idle iff not started; cancel iff the clock is before the start or more than 0.5 + 0.3 s after it; phase 1 up to 0.5 s with progress elapsed / 0.5 in [0, 1]; phase 2 after that with progress (elapsed - 0.5) / 0.3 in (0, 1] |
| `TapPointsMerging.AfterDraw` | OpenMLTD.MilliSim.Extension.Components.ScoreComponents/Gaming/TapPointsMergingAnimation.cs:54-65 | a draw only ever clears the started flag, exactly when it cancels, and never moves the start time |
| `TapPointsMerging.StoppedStaysStopped` | OpenMLTD.MilliSim.Extension.Components.ScoreComponents/Gaming/TapPointsMergingAnimation.cs:26-63 | across any run of draws without a restart the flag never turns on and the start time never changes |
| `TapPointsMerging.CancelledDrawsNothing` | OpenMLTD.MilliSim.Extension.Components.ScoreComponents/Gaming/TapPointsMergingAnimation.cs:32-65 | after a cancelling draw every later draw is idle until a restart |
| `TapPointsMerging.Phase1Layout` | OpenMLTD.MilliSim.Extension.Components.ScoreComponents/Gaming/TapPointsMergingAnimation.cs:76-92 | two draws per track in track order: the tap point with opacity 1 - perc and the aura with opacity perc, centred on the same interpolated x |
| `TapPointsMerging.Phase2Commands` | OpenMLTD.MilliSim.Extension.Components.ScoreComponents/Gaming/TapPointsMergingAnimation.cs:93-102 | the socket with opacity perc at its own size, its top edge half its width above y, and the aura at its end size without opacity, centred on y; both centred at x = width × 0.5 |
| `TapPointsMerging.DrawPhase1` | OpenMLTD.MilliSim.Extension.Components.ScoreComponents/Gaming/TapPointsMergingAnimation.cs:79-92 | the phase-1 loop yields exactly the per-track draws in track order |
| `TapPointsMerging.TapPointsMergingAnimation.constructor` | OpenMLTD.MilliSim.Extension.Components.ScoreComponents/Gaming/TapPointsMergingAnimation.cs:134-135 | a new animation is not started |
| `TapPointsMerging.TapPointsMergingAnimation.StartAnimation` | OpenMLTD.MilliSim.Extension.Components.ScoreComponents/Gaming/TapPointsMergingAnimation.cs:19-27 | sets the flag and records the clock; with no sync timer throws InvalidOperationException and changes nothing |
| `TapPointsMerging.TapPointsMergingAnimation.Draw` | OpenMLTD.MilliSim.Extension.Components.ScoreComponents/Gaming/TapPointsMergingAnimation.cs:29-105 | not started: nothing drawn or changed; missing collaborators throw; otherwise the state becomes AfterDraw and the draws are those of the phase; the flag is never turned on here |
| `ComponentCollections.MoveNextStep` | OpenMLTD.MilliSim.Foundation/ComponentCollection.Enumerator.cs:23-29 | moves iff index < Count - 1, then index + 1; otherwise the index is unchanged |
| `ComponentCollections.CurrentAt` | OpenMLTD.MilliSim.Foundation/ComponentCollection.Enumerator.cs:35-43 | ArgumentOutOfRangeException iff index < 0 or index ≥ Count, else the component at index |
| `ComponentCollections.DrainYieldsRest` | OpenMLTD.MilliSim.Foundation/ComponentCollection.Enumerator.cs:23-43 | alternating MoveNext and Current over an unchanged collection yields the components after the cursor once each in order, all of them from index -1, and nothing once exhausted |
| `ComponentCollections.Enumerator.constructor` | OpenMLTD.MilliSim.Foundation/ComponentCollection.Enumerator.cs:10-47 | the index starts at -1 and the collection's active-enumerator count grows by exactly one |
| `ComponentCollections.Enumerator.Dispose` | OpenMLTD.MilliSim.Foundation/ComponentCollection.Enumerator.cs:17-21 | the count drops by exactly one on every call |
| `ComponentCollections.Enumerator.MoveNext` | OpenMLTD.MilliSim.Foundation/ComponentCollection.Enumerator.cs:23-29 | result and new index as MoveNextStep says |
| `ComponentCollections.Enumerator.Reset` | OpenMLTD.MilliSim.Foundation/ComponentCollection.Enumerator.cs:31-33 | the index is -1 again |
| `ComponentCollections.Enumerator.Current` | OpenMLTD.MilliSim.Foundation/ComponentCollection.Enumerator.cs:35-43 | the result is CurrentAt of the index and the live component list |
| `Unity3DScoreFormat.LowerChar` | OpenMLTD.MilliSim.Extension.Scores.StandardScoreFormats.Mltd/Unity3DScoreFormat.cs:34 | ASCII capitals move to lower case, everything else is kept, and no capital remains |
| `Unity3DScoreFormat.ToLower` | OpenMLTD.MilliSim.Extension.Scores.StandardScoreFormats.Mltd/Unity3DScoreFormat.cs:34 | lower-casing keeps the length and maps each character |
| `Unity3DScoreFormat.ToLowerIdempotent` | OpenMLTD.MilliSim.Extension.Scores.StandardScoreFormats.Mltd/Unity3DScoreFormat.cs:34 | lower-casing twice is lower-casing once |
| `Unity3DScoreFormat.SupportsFileType` | OpenMLTD.MilliSim.Extension.Scores.StandardScoreFormats.Mltd/Unity3DScoreFormat.cs:33-36 | accepted iff the last 8 characters lower-case to .unity3d or the last 12 to .unity3d.lz4 |
| `Unity3DScoreFormat.Capabilities` | OpenMLTD.MilliSim.Extension.Scores.StandardScoreFormats.Mltd/Unity3DScoreFormat.cs:11-23 | the plug-in identifier is plugin.score.mltd.unity3d and the format reads both source and compiled scores |
| `Unity3DScoreFormat.SupportsIgnoresCase` | OpenMLTD.MilliSim.Extension.Scores.StandardScoreFormats.Mltd/Unity3DScoreFormat.cs:33-36 | names that lower-case alike get the same answer |
| `Unity3DScoreFormat.AcceptedEndings` | OpenMLTD.MilliSim.Extension.Scores.StandardScoreFormats.Mltd/Unity3DScoreFormat.cs:35 | an accepted name has at least 8 characters and ends in d or 4, case aside |
| `Unity3DScoreFormat.Lz4NeedsUnity3d` | OpenMLTD.MilliSim.Extension.Scores.StandardScoreFormats.Mltd/Unity3DScoreFormat.cs:35 | a name ending in .lz4 is accepted iff .unity3d comes right before it |
| `Unity3DScoreFormat.UpperCaseAccepted` | OpenMLTD.MilliSim.Extension.Scores.StandardScoreFormats.Mltd/Unity3DScoreFormat.cs:34-35 | A.UNITY3D and a.unity3d are both accepted |
| `Unity3DScoreFormat.MixedCaseCompressedAccepted` | OpenMLTD.MilliSim.Extension.Scores.StandardScoreFormats.Mltd/Unity3DScoreFormat.cs:34-35 | song.Unity3D.LZ4 is accepted |
| `Unity3DScoreFormat.OtherEndingsRefused` | OpenMLTD.MilliSim.Extension.Scores.StandardScoreFormats.Mltd/Unity3DScoreFormat.cs:35 | song.lz4 and song.unity3d.zip are refused |

## Left out

- Rendering itself: `Begin2D`/`End2D`, brushes and the Direct2D calls are not modelled; draw calls are command values, and a frame that throws keeps the commands issued before the throw.
- Trace calculator bodies (`RealisticNoteTraceCalculator` and any plug-in) and `NoteAnimationHelper.IsNoteVisible`: not part of this model; they are arbitrary deterministic functions, so nothing is claimed about positions, easing or the visibility boundary. Ribbon locations are carried in the calculator record but no modelled code uses them.
- Floating point: speeds, times, ratios, `MathHelper.Lerp` and `perc` are `real`; single-precision rounding (including `0.05f` not being exactly 0.05) and `TimeSpan` tick granularity are not modelled. NaN is not modelled: `real` has none, and a NaN speed would pass the setter's test (OpenMLTD.MilliSim.Extension.Components.ScoreComponents/Gaming/NotesLayer.cs:34) unclamped, so the bound "speed at least 0.05" holds only for non-NaN values.
- `ScoreNotesLayer.NotesLayer.DrawBuffer`: requires a trace calculator once a score is loaded. The only way to draw with a score and no calculator is an initialization that takes the score (OpenMLTD.MilliSim.Extension.Components.ScoreComponents/Gaming/NotesLayer.cs:340) and then throws for want of calculators (OpenMLTD.MilliSim.Extension.Components.ScoreComponents/Gaming/NotesLayer.cs:346-348); drawing such a layer throws `NullReferenceException` at the first visible drawn note (OpenMLTD.MilliSim.Extension.Components.ScoreComponents/Gaming/NotesLayer.cs:228 or 252), which is not modelled. A layer that was never initialized has no score and returns at OpenMLTD.MilliSim.Extension.Components.ScoreComponents/Gaming/NotesLayer.cs:157-158, which is modelled.
- Asset loading is abstracted to a file-existence oracle; a loader that fails after the existence check, and the image strip count/orientation cast, are not modelled.
- `IsSlideMiddle`, `HasNextSync` and the other note queries: the note's role flags and sync partner are given as record fields; how the score loader derives them is not part of this model.
- The enumerator's write lock and multi-threaded use: the counter is a plain field; a collection shrinking under a cursor is allowed by the model's types but not analysed.
- `Unity3DScoreFormat.SupportsFileType`: a null file name is not modelled. Strings here are never null, so the `NullReferenceException` that the source raises when it lower-cases a null name (OpenMLTD.MilliSim.Extension.Scores.StandardScoreFormats.Mltd/Unity3DScoreFormat.cs:34) has no counterpart.
- `ToLowerInvariant`: only ASCII letters are lower-cased, and `EndsWith` is an ordinal comparison (the .NET default is culture-sensitive).
- Diagnostic text: debug overlay lines are values naming the situation and the file, not formatted strings.
- The merging animation's own context handlers (bitmap loading and disposal) and the layout of its image bitmaps: the three bitmaps are given at construction.
- Configuration store, plug-in manager and element lookups: their results are parameters.
