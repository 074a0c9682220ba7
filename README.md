# Tiger sprite-sheet editor — verified model

A Dafny model of the editing core of Tiger, a sprite-sheet editor. A sheet
holds frames (image files) and named animations. Each animation holds one
sequence of keyframes per direction; each keyframe shows a frame for a
duration, at an offset, with named hitboxes. The editor changes a document by
commands, keeps an undo history and supports multi-step mouse gestures. It
exports the sheet through templates.

The model follows the program's three generations.

- **Newest Rust engine** (`src-tauri/src/sheet.rs`, `src-tauri/src/document.rs`,
  `src-tauri/src/document/*`).
  - Sheet values: `Sheets`, `Names`, `Paths`.
  - Selections and their pools: `Selections`, `DocumentSelection`.
  - Views: `Views`.
  - Gesture sessions: `Gestures`, `Drags`, `HitboxDrags`.
  - Timeline clock: `Timeline`.
  - Undo history: `History`, `UndoStacks`.
  - Navigation chain and `sanitize_view`: `Documents`.
  - Content edits: `Content`, `KeyframeEdits`, `Clipboards`.
  - Relocation and export-settings sessions: `Relocation`, `ExportEditing`.
  - The command processor: `Commands`, `CommandProcessing`.
  - `Document` is a class whose fields the operations reassign. Sheets, views,
    selections and history entries are values, because the editor clones them
    into history and compares them with `==`.
- **Older Rust engines.**
  - The oldest `state/document.rs`: `LegacyDocuments`, `LegacyHistory`,
    `LegacySelections`, `LegacyViews`, `LegacyApps`.
  - The intermediate `state/document/*`: `StateDocuments`.
  - The first editor's tab list in `src/state/app.rs`: `LegacyTabs`.
- **Front end** (`src/stores/*.ts`, `src/utils/keyboard.ts`): `FrontEndState`,
  `FocusStores`, `SpriteStores`, `Keyboard`.
- **Supporting code.**
  - Sheet-format migrations: `Migrations`.
  - Onboarding: `Onboarding`.
  - Observables: `Observables`.
  - Texture lists and DTOs: `TextureLists`, `Dtos`.
  - Export data builders: `Metadata`, `LiquidExport`.
  - Bounding boxes: `BoundingBoxes`.
  - File watchers: `FileWatchers`.

How side effects are modelled:

- Loops over collections become methods with loop invariants, proved against
  specification functions.
- Durations are milliseconds as `nat`.
- Rust's truncating `i32`/`i64` division and the `u64` saturating arithmetic
  of the duration drag are written out.
- The filesystem is a parameter: the files on disk for relocation, and a
  `FileSystem` value for the export validators.
- Observers are callbacks described by what they answer.
- Uuid keys are dropped, because equality in the source ignores them.

## Model

| member | source | states |
|---|---|---|
| BoundingBoxes.TruncDiv | src/utils.rs:60-71 | Integer division rounding toward zero, as `/` on `i32`: an exact quotient is the plain quotient. |
| BoundingBoxes.TruncDivTruncates | src/utils.rs:68 | The remainder `TruncDiv` leaves is smaller than the divisor in magnitude, and is zero or has the sign of the dividend: the quotient rounds toward zero for every sign of dividend and divisor. |
| BoundingBoxes.FromPoints | src/utils.rs:60-71 | `Rect::from_points`: a rectangle of non-negative size holding every point. |
| BoundingBoxes.FromPointsIsTight | src/utils.rs:60-71 | Each of the four edges of `Rect::from_points` passes through one of the points, so no smaller rectangle holds them all. |
| BoundingBoxes.MirroredRange | src/utils.rs:60-71 | A coordinate, its mirror image, another one and its mirror image range over plus and minus the larger magnitude. |
| BoundingBoxes.MirroredSpan | src/utils.rs:60-71 | The box spanned by two corners and their mirror images is symmetric about the origin. |
| BoundingBoxes.Centered | src/utils.rs:60-71 | What `BoundingBox::center_on_origin` computes: the box spanned by the corners and their mirror images, moved back by its own origin and then by half its size. |
| BoundingBoxes.CenteredBy | src/utils.rs:60-71 | The centred box spans plus and minus the larger magnitude of the two horizontal edges, and likewise vertically. |
| BoundingBoxes.CenteredExampleWide | src/utils.rs:96-118 | the box at (-50, -300) of size 1000 by 800 centres to the box at (-950, -500) of size 1900 by 1000, as the unit test expects |
| BoundingBoxes.CenteredExampleSquare | src/utils.rs:96-118 | the box at (100, 100) of size 50 by 50 centres to the box at (-150, -150) of size 300 by 300, as the unit test expects |
| BoundingBoxes.BoundingBox.constructor | src/utils.rs:54-57 | the box holds the rectangle given |
| BoundingBoxes.BoundingBox.CenterOnOrigin | src/utils.rs:60-71 | the rectangle becomes the centred one, symmetric about the origin and holding the old rectangle |
| BoundingBoxes.Union | src/utils.rs:74-94 | `Rect::union`: a rectangle of zero size gives way to the other. Otherwise the result holds both, lies inside every rectangle that holds both, and each of its edges is an edge of one of the two. |
| BoundingBoxes.UnionOf | src/utils.rs:74-94 | The union of the frame rectangles, folded from the zero rectangle in frame order: it holds every frame rectangle of non-zero size. |
| BoundingBoxes.UnionOfIsSmallest | src/utils.rs:74-94 | The folded union lies inside every rectangle that holds all the frame rectangles of non-zero size, so it is the smallest such box; when every frame rectangle has zero size, so has the union. |
| BoundingBoxes.GetBoundingBox | src/utils.rs:74-94 | `get_bounding_box`: an animation without frames has none; a frame whose texture is not loaded fails the whole box; otherwise the union of the frame rectangles. |
| Clipboards.SelectedIndices | src-tauri/src/document.rs:328-372 | The indices from `i` below `n` whose keyframe `(name, d, index)` is selected, ascending. |
| Clipboards.SlotsInDirection | src-tauri/src/document.rs:328-372 | The selected keyframes of sequence `d` of animation `name`, by index. |
| Clipboards.Tagged | src-tauri/src/document.rs:328-372 | Each index of `indices` paired with direction `d`. |
| Clipboards.TaggedMembers | src-tauri/src/document.rs:328-372 | a slot is among the tagged indices exactly when it is in that direction and its index is listed |
| Clipboards.SelectedSlotsFrom | src-tauri/src/document.rs:328-372 | The selected keyframes of animation `name`, from direction `AllDirections[k]` on, in the order `selected_keyframes` lists them. |
| Clipboards.SlotsConcatOrdered | src-tauri/src/document.rs:328-372 | The slots of the direction of rank `k`, by index, followed by ordered slots of later directions, are ordered. |
| Clipboards.SelectedSlots | src-tauri/src/document.rs:328-372 | `Document::selected_keyframes`, in the order it lists them; `None` without a current animation. |
| Clipboards.SelectedSlotsAreSelectedKeyframes | src-tauri/src/document.rs:328-372 | The listed slots are exactly the selected keyframes of the current animation. |
| Clipboards.KeyframesAt | src-tauri/src/document/clipboard.rs:64-72 | one keyframe per listed slot, the keyframe at that slot |
| Clipboards.Copy | src-tauri/src/document/clipboard.rs:21-31 | `Document::copy`: the selected animations if any, else the selected keyframes if any, else the selected hitboxes if any, else nothing. The keyframes and hitboxes need a current animation (and, for hitboxes, a keyframe under the clock); without one the copy is empty. |
| Clipboards.CopyManifest | src-tauri/src/document/clipboard.rs:21-31 | What was copied reports the kind the precedence picked. |
| Clipboards.AddedUnder | src-tauri/src/document/clipboard.rs:50-62 | `m` with the entries of `clip` listed in `names` added under the names `created`, the `j`-th clipboard entry under the `j`-th created name. |
| Clipboards.PasteEntries | src-tauri/src/document/clipboard.rs:50-62 | The paste loop of `paste_animations` and `paste_hitboxes`: for each clipboard entry, in ascending name order, find the first free name among its own name and its numbered variants and insert the entry there. |
| Clipboards.PasteOne | src-tauri/src/document/clipboard.rs:50-62 | One turn of the paste loop: the `i`-th clipboard entry goes under the first free variant of its name. |
| Clipboards.PasteLoopStep | src-tauri/src/document/clipboard.rs:50-62 | The paste loop's invariant holds after its `i`-th turn. |
| Clipboards.PasteProgressStep | src-tauri/src/document/clipboard.rs:50-62 | One more turn of the paste loop keeps its invariant. |
| Clipboards.FreshlyNamedStep | src-tauri/src/document/clipboard.rs:50-62 | One more fresh name, variant `k` of `n`, keeps the names fresh, distinct and first free. |
| Clipboards.PasteStepAdds | src-tauri/src/document/clipboard.rs:50-62 | One more turn of the paste loop adds the entry under the new name. |
| Clipboards.FreshStep | src-tauri/src/document/clipboard.rs:50-62 | A name not yet taken extends a list of fresh, distinct, taken names. |
| Clipboards.NumberedStep | src-tauri/src/document/clipboard.rs:50-62 | The numbering of the created names extends by the new one. |
| Clipboards.VariantsTaken | src-tauri/src/document/clipboard.rs:50-62 | The lower variants that were taken stay taken as names are added. |
| Clipboards.AddedUnderEntries | src-tauri/src/document/clipboard.rs:50-62 | What `AddedUnder` keeps and adds, when the new names are fresh and distinct. |
| Clipboards.PasteAnimations | src-tauri/src/document/clipboard.rs:50-62 | `Document::paste_animations`: each clipboard animation is added under the first free name among its own name and its numbered variants, and the new animations become the whole selection. |
| Clipboards.PastedAnimationsSelected | src-tauri/src/document/clipboard.rs:50-62 | After pasting, the selected animations are exactly the new ones. |
| Clipboards.PasteUnderTakenName | src-tauri/src/document/clipboard.rs:50-62 | Pasting an animation whose name is taken, while its " 2" variant is free, names the copy with " 2". |
| Clipboards.PasteIndex | src-tauri/src/document/clipboard.rs:74-95 | Where `paste_keyframes` inserts: after the last keyframe when the clock is at or past the end of the sequence, otherwise at the keyframe under the clock (index 0 when none can be found). |
| Clipboards.PastedKeyframes | src-tauri/src/document/clipboard.rs:74-95 | `Document::paste_keyframes`: the clipboard keyframes go, in clipboard order, into the current sequence at the paste index, and become the whole selection. Fails, changing nothing, without a current sequence. |
| Clipboards.PastedKeyframesSelected | src-tauri/src/document/clipboard.rs:74-95 | After pasting keyframes, the selected keyframes are exactly the pasted block, and the keyframes of the current sequence before the paste index are still where they were. |
| Clipboards.PasteKeyframes | src-tauri/src/document/clipboard.rs:74-95 | the sheet, view and result are those of the keyframe paste specification, whose lemmas say where the block goes and that it is selected; nothing else changes |
| Clipboards.PasteHitboxes | src-tauri/src/document/clipboard.rs:107-122 | `Document::paste_hitboxes`: each clipboard hitbox is added to the keyframe under the clock under the first free name among its own name and its numbered variants, and the new hitboxes become the whole selection. Fails, changing nothing, without a keyframe under the clock. |
| Clipboards.Paste | src-tauri/src/document/clipboard.rs:33-39 | pasting animations always succeeds; pasting keyframes fails exactly without a current sequence, and pasting hitboxes exactly without a keyframe under the clock |
| Commands.Manifest | src-tauri/src/document/command.rs:512-532 | `Clipboard::manifest`: the kind of content, without the content. |
| Commands.GestureClassification | src-tauri/src/document/command.rs:534-564 | The two classifications agree on gestures: beginning or moving a gesture keeps the session and records nothing, ending one keeps the session and is recorded, and undo and redo are neither recorded nor session-preserving. |
| Commands.UnrecordedPreservesTransient | src-tauri/src/document/command.rs:534-564 | Every command that is kept out of history, other than undo and redo, keeps the gesture sessions. |
| Commands.ClampSnappingBase | src-tauri/src/document/command.rs:534-564 | The clamp applied to `SetKeyframeSnappingBaseDuration`: between 1 ms and 1000 ms. |
| Content.FramesOutsideMembers | src-tauri/src/sheet.rs:233-240 | Filtering the frames by a set of paths keeps exactly the frames whose source is not in the set. |
| Content.KeyframesOutsideMembers | src-tauri/src/sheet.rs:233-240 | Filtering the keyframes by a set of paths keeps exactly the keyframes showing a frame not in the set. |
| Content.FramesOutsideNothing | src-tauri/src/sheet.rs:233-240 | Filtering the frames by no path keeps them all, in order. |
| Content.KeyframesOutsideNothing | src-tauri/src/sheet.rs:233-240 | Filtering the keyframes by no path keeps them all, in order. |
| Content.KeptOfConcatFrames | src-tauri/src/sheet.rs:233-240 | `retain` of one path on the frames distributes over concatenation. |
| Content.KeptOfConcatKeyframes | src-tauri/src/sheet.rs:233-240 | `retain` of one path on the keyframes distributes over concatenation. |
| Content.FramesOutsideStep | src-tauri/src/sheet.rs:233-240 | `Sheet::delete_frame` of one more path, applied to the frames left by a set of paths, leaves those of the larger set, in order. |
| Content.KeyframesOutsideStep | src-tauri/src/sheet.rs:233-240 | The same for the keyframes of a sequence. |
| Content.FramesRemovedNothing | src-tauri/src/document/content.rs:5-10 | Before any frame is deleted, nothing has been removed. |
| Content.FramesRemovedMembers | src-tauri/src/document/content.rs:5-10 | After the selected frames are deleted, the frames left are exactly those with an unselected source, and each sequence keeps exactly its keyframes that show an unselected frame. |
| Content.FramesRemovedIsFramesDeleted | src-tauri/src/document/content.rs:5-10 | What the deletion loop keeps as its invariant determines the sheet: it holds exactly of `FramesDeleted`, the sheet filtered by the whole set, so the order in which the set is walked does not matter. |
| Content.FramesRemovedStep | src-tauri/src/document/content.rs:5-10 | Deleting one more frame, after a set of them, gives the sheet filtered by the larger set: frames and keyframes keep their order. |
| Content.DeleteSelectedFrames | src-tauri/src/document/content.rs:5-10 | `Document::delete_selected_frames`: the frames and the keyframes of every sequence become, in their order and with their repeats, exactly those not showing a selected frame; animations, directions and looping flags are kept; view, sessions, persistent state and history are unchanged. |
| Content.EditedViewSpec | src-tauri/src/document/content.rs:19-33 | After editing an existing animation it is the workbench animation, the workbench is centred at clock 0, and a sequence is current exactly when the animation has one: the direction that was current if the animation has it, else the animation's first. |
| Content.EditAnimation | src-tauri/src/document/content.rs:19-33 | `Document::edit_animation`. Fails, with the view already changed, when the name is not an animation. |
| Content.CreateAnimation | src-tauri/src/document/content.rs:12-17 | `Document::create_animation`: a four-direction animation is added under the first free name among "New Animation", "New Animation 2", ... (every earlier candidate is taken, the chosen one is not); only it is selected, it is edited from clock 0, playback stops; sessions and history are kept. |
| Content.NewAnimationShape | src-tauri/src/document/content.rs:12-17 | The new animation has the four empty sequences east, north, west and south, east first, and does not loop. |
| Content.CreatedAnimationIsEdited | src-tauri/src/document/content.rs:12-17 | A created animation is edited in one of its four empty sequences (the direction that was current if it is one of the four, else east), with the clock at 0 and the animation as the only selected item. |
| Content.RenamedView | src-tauri/src/document/content.rs:35-46 | The view after a rename: only the new name is selected, and the current animation follows the rename. |
| Content.RenameAnimation | src-tauri/src/document/content.rs:35-46 | `Document::rename_animation`: a sheet error aborts before anything changes; otherwise the sheet renames and the view follows. |
| Content.RenameKeepsWorkbench | src-tauri/src/document/content.rs:35-46 | Renaming never changes what the workbench shows: the animation being edited, whatever it is now called, and its current sequence. |
| Content.DeleteAnimation | src-tauri/src/document/content.rs:48-50 | the sheet becomes that of deleting the animation; nothing else changes |
| Content.DeleteSelectedAnimations | src-tauri/src/document/content.rs:52-57 | `Document::delete_selected_animations`: every selected animation is gone, the others untouched. |
| Documents.Document.constructor | src-tauri/src/document.rs:99-113 | `Document::new`: an empty sheet, the default view and one default history entry at version 0. |
| Documents.Document.MarkAsSaved | src-tauri/src/document/command.rs:388-390 | the saved version is recorded, and when it is the current version the document counts as saved; nothing else changes |
| Documents.Document.RequestClose | src-tauri/src/document.rs:154-156 | the close request is set, and a valid document should then close exactly when it is saved; nothing else changes |
| Documents.Document.CancelClose | src-tauri/src/document.rs:158-160 | the close request is cleared, so the document should not close; nothing else changes |
| Documents.WorkbenchAnimation | src-tauri/src/document.rs:248-258 | `Document::workbench_animation`: it resolves exactly when the current animation is set and in the sheet, to that name and animation; otherwise `NotEditingAnyAnimation` or `AnimationNotInDocument` names what is missing. |
| Documents.WorkbenchSequence | src-tauri/src/document.rs:274-285 | `Document::workbench_sequence`: it resolves exactly when the workbench animation resolves and has a sequence in the current direction, to that direction and sequence; otherwise the animation's error, `NotEditingAnySequence` or `SequenceNotInAnimation`. |
| Documents.WorkbenchKeyframe | src-tauri/src/document.rs:302-308 | `Document::workbench_keyframe`: it resolves exactly when the workbench sequence resolves and is not empty, to the keyframe whose time range holds the clock (the last one past the end); otherwise the sequence's error or `NoKeyframeAtTime`. |
| Documents.WorkbenchSequenceMut | src-tauri/src/document.rs:287-300 | `Document::workbench_sequence_mut`: the same sequence as `workbench_sequence`, but the current direction is looked at before the current animation, so with neither set the error names the direction. |
| Documents.WorkbenchKeyframeMut | src-tauri/src/document.rs:310-319 | `Document::workbench_keyframe_mut`: it resolves exactly when `workbench_keyframe` does, to the same keyframe; only the error for a missing direction comes first. |
| Documents.NothingEditedErrors | src-tauri/src/document.rs:302-308 | With nothing being edited, the two chains report different errors: the animation for `workbench_keyframe`, the direction for `workbench_keyframe_mut`. |
| Documents.ResolutionChain | src-tauri/src/document.rs:302-308 | The resolution chain: a keyframe resolves only through a sequence, a sequence only through an animation, and a non-empty resolved sequence always has a keyframe under the clock. |
| Documents.SelectedAnimations | src-tauri/src/document.rs:321-326 | `Document::selected_animations`: the selected names that exist in the sheet. |
| Documents.SelectedKeyframes | src-tauri/src/document.rs:328-350 | `Document::selected_keyframes`: the selected keyframes of the current animation. |
| Documents.SelectedHitboxes | src-tauri/src/document.rs:374-393 | `Document::selected_hitboxes`: it succeeds exactly when the workbench keyframe resolves, with exactly the hitboxes of that keyframe that are selected; otherwise the keyframe's error. |
| Documents.FirstDirection | src-tauri/src/document.rs:178-246 | The first sequence of an animation in direction order, as a sorted map iterates. |
| Documents.FirstDirectionFrom | src-tauri/src/document.rs:178-246 | the lowest-ranked direction from rank k that has a sequence, or nothing exactly when there is none |
| Documents.ResolvedCurrents | src-tauri/src/document.rs:178-246 | The first step of `sanitize_view`: the current animation is dropped when it does not resolve, together with the direction, and a direction that does not resolve falls back to the animation's first one. |
| Documents.ClampedClock | src-tauri/src/document.rs:178-246 | The second step of `sanitize_view`: the clock stays within the current sequence. |
| Documents.SanitizedSelection | src-tauri/src/document.rs:178-246 | The last step of `sanitize_view`: selections restricted to what exists and is editable. |
| Documents.SanitizedView | src-tauri/src/document.rs:178-246 | `Document::sanitize_view`, as the view it makes from the sheet, the view and the playing flag. |
| Documents.ResolutionDependsOnCurrents | src-tauri/src/document.rs:178-246 | What the workbench resolves to depends only on the current animation and direction. |
| Documents.SanitizedClock | src-tauri/src/document.rs:178-246 | After `sanitize_view`, the clock lies within the current sequence and moved only if it was past it. |
| Documents.SanitizedSelectionSpec | src-tauri/src/document.rs:178-246 | After `sanitize_view`, every selection holds only existing items: frames and animations of the sheet, keyframes of the current animation, and hitboxes of the keyframe under the clock, none at all while hitboxes are locked or the timeline plays. |
| Documents.SanitizedViewKeepsRest | src-tauri/src/document.rs:178-246 | `sanitize_view` touches only the current animation and direction, the clock and the selection. |
| Documents.SanitizedViewResolves | src-tauri/src/document.rs:178-246 | After `sanitize_view`, whatever is current resolves in the sheet. |
| Documents.SanitizedCurrentsStable | src-tauri/src/document.rs:178-246 | Resolving and clamping a sanitized view again leaves it as it is. |
| Documents.ResolvedCurrentsStable | src-tauri/src/document.rs:178-246 | A view whose current animation and direction were resolved once resolves to itself. |
| Documents.ResolvedAnimationKept | src-tauri/src/document.rs:178-246 | a view whose current animation and direction are already the resolved ones keeps its animation when resolved again |
| Documents.ResolvedSequenceKept | src-tauri/src/document.rs:178-246 | a view whose current animation and direction are already the resolved ones keeps its direction when resolved again |
| Documents.ResolvedAnimationStable | src-tauri/src/document.rs:178-246 | Resolving twice finds the animation the first pass left. |
| Documents.ResolvedSequenceStable | src-tauri/src/document.rs:178-246 | Resolving twice finds the direction the first pass left, or again none. |
| Documents.SanitizedSelectionStable | src-tauri/src/document.rs:178-246 | A selection that holds only what survives sanitizing is kept as it is. |
| Documents.SanitizeViewIdempotent | src-tauri/src/document.rs:178-246 | Sanitizing an already sanitized view changes nothing. |
| Documents.SanitizeView | src-tauri/src/document.rs:178-246 | the document's view becomes the sanitized view and nothing else changes |
| Documents.SelectFramesOnly | src-tauri/src/document/selection.rs:95-101 | only the selection changes, to a fresh one holding exactly these frames |
| Documents.SelectAnimationsOnly | src-tauri/src/document/selection.rs:108-114 | only the selection changes, to a fresh one holding exactly these animations |
| Documents.SelectKeyframesOnly | src-tauri/src/document/selection.rs:124-130 | only the selection changes, to a fresh one holding exactly these keyframes |
| Documents.SelectHitboxesOnly | src-tauri/src/document/selection.rs:148-154 | only the selection changes, to a fresh one holding exactly these hitboxes |
| Documents.SelectCurrentKeyframe | src-tauri/src/document/selection.rs:257-263 | `Document::select_current_keyframe`: it succeeds exactly when there is a keyframe under the clock, which then becomes the only selection; otherwise it fails with the workbench keyframe's error. |
| Documents.TrySelectCurrentKeyframe | src-tauri/src/document/selection.rs:257-263 | a failure leaves the view as it is, success selects the keyframe under the clock, and only the selection changes |
| DocumentSelection.SelectableFrames | src-tauri/src/document/selection.rs:460-466 | `Document::selectable_frames`: the frame sources in the order of `Sheet::sorted_frames`, which sorts frames by source. |
| DocumentSelection.SelectableAnimations | src-tauri/src/document/selection.rs:468-474 | every animation name appears, in strictly ascending order |
| DocumentSelection.HitboxRefs | src-tauri/src/document/selection.rs:476-484 | The identities of the hitboxes `names` of the keyframe at `slot` of `animation`. |
| DocumentSelection.SelectableHitboxes | src-tauri/src/document/selection.rs:476-484 | `Document::selectable_hitboxes`: the hitboxes of the keyframe under the clock, by name; fails when there is no such keyframe. |
| DocumentSelection.HitboxRefsOfNames | src-tauri/src/document/selection.rs:476-484 | The identities listed are exactly those of the keyframe at `slot` whose name is listed. |
| DocumentSelection.RangeMemberSortsBetween | src-tauri/src/document/selection.rs:704-717 | Every member of the range between `a` and `b` sorts between them. |
| DocumentSelection.SortsBetweenInRange | src-tauri/src/document/selection.rs:704-717 | A member of the pool that sorts between `a` and `b` lies in the range between them. |
| DocumentSelection.AscendingRange | src-tauri/src/document/selection.rs:704-717 | In an ascending pool, the range between two of its members holds exactly the members that sort between them. |
| DocumentSelection.FrameClicked | src-tauri/src/document/selection.rs:180-191 | `Document::select_frame`: the other three kinds are cleared and the frames selection is altered by the click, a shift-click ranging over the sorted frames. A shift-click on a sheet without frames panics in the source (it slices an empty pool), hence the precondition. |
| DocumentSelection.FrameShiftClickSelectsSpan | src-tauri/src/document/selection.rs:180-191 | A shift-click (without ctrl) from a pivot frame selects exactly the frames whose sources sort between the pivot and the clicked frame. |
| DocumentSelection.AnimationClicked | src-tauri/src/document/selection.rs:193-204 | the other kinds are cleared and the clicked animation becomes the last interacted one; a plain click selects it alone and a ctrl-click toggles it |
| DocumentSelection.AnimationShiftClickSelectsSpan | src-tauri/src/document/selection.rs:193-204 | A shift-click from a pivot animation selects exactly the animations named between the two. |
| DocumentSelection.KeyframeClicked | src-tauri/src/document/selection.rs:228-255 | `Document::select_keyframe_internal`: the other three kinds are cleared and the clicked direction becomes current before the current animation is resolved, so both changes stay when that fails; otherwise the keyframes selection is altered, a shift-click ranging over the time span between the pivot and the clicked keyframe. The range is the one the code computes: a missing pivot, or one in another animation, is replaced by the default identity, so the shift-selected keyframes are then named after the empty animation. |
| DocumentSelection.KeyframesClicked | src-tauri/src/document/selection.rs:228-255 | The keyframes selection after a click on a keyframe of `animation`, named `name`, with the range as written. |
| DocumentSelection.KeyframeClickedIntended | src-tauri/src/document/selection.rs:228-255 | The click as evidently intended: the shift range starts from the first keyframe of the clicked keyframe's own animation when there is no usable pivot, so every keyframe a shift-click selects is a keyframe of the animation being edited. |
| DocumentSelection.KeyframesClickedIntended | src-tauri/src/document/selection.rs:206-226 | The keyframes selection after a click on a keyframe of `animation`, named `name`, with the intended range. |
| DocumentSelection.KeyframeClickedCounterexample | src-tauri/src/document/selection.rs:228-255 | Shift-clicking the only keyframe of "walk" with no pivot: the code selects the keyframe ("", East, 0), which belongs to no animation of the sheet, where the intended click selects ("walk", East, 0). |
| DocumentSelection.RangesOrdered | src-tauri/src/sheet.rs:403-412 | Keyframe time ranges never run backwards: an earlier keyframe ends by the time a later one starts. |
| DocumentSelection.IndexAtWithin | src-tauri/src/sheet.rs:372-412 | A time within a keyframe's range finds that keyframe. |
| DocumentSelection.ClickedKeyframeIsShown | src-tauri/src/document/selection.rs:206-226 | Clicking a keyframe that lasts, while the timeline is paused, puts it under the clock: it becomes the keyframe the workbench shows, and a plain click leaves it the only selected keyframe. |
| DocumentSelection.HitboxClicked | src-tauri/src/document/selection.rs:265-286 | `Document::select_hitbox`: the other three kinds are cleared, then the hitbox named `name` of the keyframe under the clock is clicked, a shift-click ranging over that keyframe's hitboxes by name; without such a keyframe the click fails after the clearing. A shift-click on a keyframe without hitboxes panics in the source, hence the precondition. |
| DocumentSelection.SequenceKeyframes | src-tauri/src/document/selection.rs:156-178 | The keyframes of the sequence `d` of `animation` (named `name`), in order. |
| DocumentSelection.KeyframesFrom | src-tauri/src/document/selection.rs:156-178 | The keyframes of the directions from `AllDirections[k]` on, as `sequences_iter` lists them. |
| DocumentSelection.AllSelected | src-tauri/src/document/selection.rs:156-178 | `Document::select_all`: everything of the first kind that has a selection (frames, animations, then hitboxes of the keyframe under the clock), or, when nothing is selected, every keyframe of the current animation; the other kinds end up empty. Fails, changing nothing, when the hitboxes or the keyframes to select cannot be resolved. |
| DocumentSelection.SelectAllHitboxes | src-tauri/src/document/selection.rs:156-178 | With only hitboxes selected, selecting all selects every hitbox of the keyframe under the clock, or fails when there is none. |
| DocumentSelection.SelectAllKeyframes | src-tauri/src/document/selection.rs:156-178 | With nothing selected, selecting all selects every keyframe of the current animation, or fails when there is none. |
| DocumentSelection.SelectionCleared | src-tauri/src/document/selection.rs:488-490 | only the selection changes, and every kind ends with nothing selected, no pivot and no last interaction |
| DocumentSelection.IndexOfDistinct | src-tauri/src/document/selection.rs:719-732 | In a pool without repeats, every item is found at its own position. |
| DocumentSelection.OffsetAndBack | src-tauri/src/document/selection.rs:719-732 | In a pool without repeats, stepping `delta` places and then `-delta` places comes back. |
| DocumentSelection.FramesBrowsed | src-tauri/src/document/selection.rs:366-374 | `Document::browse_frames`: step from the last clicked frame through the sorted frames, laid out as the list mode shows them. |
| DocumentSelection.FramesBrowseDownThenUp | src-tauri/src/document/selection.rs:366-374 | Browsing down then up through the frames without shift comes back to the frame clicked last, which is then the only one selected, pivot and last clicked, whatever the list mode. |
| DocumentSelection.AnimationsBrowsed | src-tauri/src/document/selection.rs:376-385 | `Document::browse_animations`: the same through the sorted animations, always laid out as a list. |
| DocumentSelection.HitboxesBrowsed | src-tauri/src/document/selection.rs:387-396 | `Document::browse_hitboxes`: step through the hitboxes of the keyframe under the clock, by name. |
| DocumentSelection.KeyframesBrowsed | src-tauri/src/document/selection.rs:398-458 | `Document::browse_keyframes` (shift held, nothing else selected): with no keyframe clicked yet, the one under the clock is selected first; then the keyframe next to the start (sideways in its sequence, up or down to the nearest direction with a keyframe at the same time) is clicked, and the clock moves to the start of that keyframe when it lies at or before the pivot, else to the last millisecond of it. A pivot that no longer exists fails after the click. |
| DocumentSelection.BrowseClock | src-tauri/src/document/selection.rs:398-458 | Where browsing the timeline puts the clock: at the start of the target when it lies at or before the pivot, else at its last millisecond. |
| DocumentSelection.KeyframeBrowsedTo | src-tauri/src/document/selection.rs:398-458 | The second half of `browse_keyframes`: click the keyframe `to`, then move the clock relative to the pivot. |
| DocumentSelection.LandedKeyframeIsShown | src-tauri/src/document/selection.rs:398-458 | Landing on a keyframe that lasts shows it, unless the pivot no longer exists. |
| DocumentSelection.BrowsedKeyframeIsShown | src-tauri/src/document/selection.rs:398-458 | Browsing the timeline to a keyframe that lasts shows that keyframe on the workbench: it is the last clicked keyframe, its direction is current and, unless the pivot no longer exists, the clock lies within it. |
| DocumentSelection.Edge | src-tauri/src/document/selection.rs:312-364 | the item browsed to is one of the pool's |
| DocumentSelection.BrowseToEdgeSelectsExtremeFrame | src-tauri/src/document/selection.rs:312-364 | Home and end without shift, with frames selected, select exactly the frame whose source sorts first or last. |
| DocumentSelection.BrowseToEndClicksLastKeyframe | src-tauri/src/document/selection.rs:312-337 | Shift+end with nothing but keyframes selected, on a paused timeline, clicks the last keyframe of the current sequence and moves the clock to its start. |
| DocumentSelection.NudgeDelta | src-tauri/src/document/selection.rs:64-88 | How far `nudge_selection` moves things: one unit in the pressed direction, ten for a large nudge. |
| DocumentSelection.SelectionNudged | src-tauri/src/document/selection.rs:64-88 | `Document::nudge_selection`: every selected keyframe of the current animation moves (with its hitboxes) by the nudge, then every selected hitbox of the keyframe under the clock does. Without a current animation nothing moves; without a keyframe under the clock the keyframes have moved when the failure is reported. |
| DocumentSelection.HitboxEditKeepsOffsets | src-tauri/src/document/selection.rs:64-88 | Editing the selected hitboxes leaves every keyframe of the sheet in place, at the same offset. |
| DocumentSelection.NudgeMovesSelectedKeyframes | src-tauri/src/document/selection.rs:64-88 | After a nudge, every selected keyframe of the current animation sits at its old offset plus the nudge, and every other keyframe at its old one, whether or not the hitbox step then fails. |
| DocumentSelection.SelectFrame | src-tauri/src/document/selection.rs:180-191 | the view becomes the frame click's and the sheet, transient state, persistent state and history are unchanged |
| DocumentSelection.SelectAnimation | src-tauri/src/document/selection.rs:193-204 | the view becomes the animation click's and the sheet, transient state, persistent state and history are unchanged |
| DocumentSelection.SelectKeyframe | src-tauri/src/document/selection.rs:206-226 | the view and result are those of the keyframe click; the sheet, transient state, persistent state and history are unchanged |
| DocumentSelection.SelectHitbox | src-tauri/src/document/selection.rs:265-286 | the view and result are those of the hitbox click; the sheet, transient state, persistent state and history are unchanged |
| DocumentSelection.SelectAll | src-tauri/src/document/selection.rs:156-178 | on failure the error is returned and the view is unchanged; on success the view is the select-all one; nothing else changes |
| DocumentSelection.ClearSelection | src-tauri/src/document/selection.rs:488-490 | the view's selection is cleared and the sheet, transient state, persistent state and history are unchanged |
| DocumentSelection.BrowseSelection | src-tauri/src/document/selection.rs:288-310 | the view and result are those of browsing the selection; the sheet, transient state, persistent state and history are unchanged |
| DocumentSelection.BrowseToEdge | src-tauri/src/document/selection.rs:312-364 | the view and result are those of browsing to the end or start; sheet, transient state, persistent state and history are unchanged |
| DocumentSelection.NudgeSelection | src-tauri/src/document/selection.rs:64-88 | the sheet, view and result are those of the nudge; transient state, persistent state and history are unchanged |
| DocumentSelection.DeleteSelection | src-tauri/src/document/selection.rs:48-54 | `Document::delete_selection`: sheet, view and result are those of `SelectionDeleted`: the selected frames go (`FramesDeleted`), then the selected animations, then the selected keyframes as `Timeline.KeyframeDeletion` says, whose failure is returned at once; otherwise the selected hitboxes of the keyframe under the clock go (`HitboxesDeleted`) and the result is `Ok`. Sessions, persistent state and history are kept. |
| DocumentSelection.SelectionDeletedSpec | src-tauri/src/document/selection.rs:48-54 | Whatever happens, the frames left are, in order, exactly those with an unselected source, no selected animation and no animation that was not there is left, and a failure leaves the view as it was. |
| DocumentSelection.BeginRenameSelection | src-tauri/src/document/selection.rs:56-62 | `Document::begin_rename_selection`: rename the animation clicked last, else the hitbox clicked last, else do nothing. |
| Drags.TruncatingDiv | src-tauri/src/document/transient.rs:309-379 | `i64` division as Rust computes it: the quotient is rounded toward zero. |
| Drags.ApplyDelta | src-tauri/src/document/transient.rs:309-379 | The `apply_delta` closure on `u64` milliseconds: a positive delta is a saturating add, any other a saturating subtraction of its magnitude. |
| Drags.WithSlot | src-tauri/src/document/transient.rs:309-379 | The animation with the keyframe in one existing slot replaced. |
| Drags.SameSlotsSame | src-tauri/src/document/transient.rs:309-379 | Two animations of the same shape holding the same keyframe in every slot are equal. |
| Drags.OrderedSlots | src-tauri/src/document/transient.rs:309-379 | The keyframes of `animation` selected under the animation name `name`, each once, in the order `sequences_iter` and `keyframes_iter` visit them. |
| Drags.SlotsFrom | src-tauri/src/document/transient.rs:309-379 | The selected slots of the directions of rank `k` and above. |
| Drags.JoinInOrder | src-tauri/src/document/transient.rs:309-379 | Slots of one direction followed by slots of later directions stay in slot order. |
| Drags.IndexSlots | src-tauri/src/document/transient.rs:309-379 | The selected slots of direction `d` from index `i` up to `count`. |
| Drags.SlotsFromShape | src-tauri/src/document/transient.rs:309-379 | The selected slots depend on the animation's shape only. |
| Drags.DraggedDuration | src-tauri/src/document/transient.rs:309-379 | The duration a keyframe whose range was `original` when the drag began takes on. |
| Drags.CountSharing | src-tauri/src/document/transient.rs:309-379 | never more than the slots counted, and zero exactly when none of them shares the drag |
| Drags.CountSharingCounts | src-tauri/src/document/transient.rs:309-379 | Counting the slots in order counts the set of sharing slots, since no slot comes twice. |
| Drags.AffectedCount | src-tauri/src/document/transient.rs:309-379 | `num_frames_affected`: how many keyframes share the drag, the selected ones of the dragged keyframe's direction up to and including its index, and at least one. |
| Drags.DragDurations | src-tauri/src/document/transient.rs:309-379 | The loop of `update_drag_keyframe_duration`: each slot in turn takes its dragged duration; the first slot missing from the snapshot stops the loop, keeping the durations set so far. |
| Drags.DragDurationsSpec | src-tauri/src/document/transient.rs:309-379 | The loop fails exactly when a slot is missing from the snapshot, and otherwise every listed slot has the duration its snapshot range dictates, with nothing else about any keyframe changed. |
| Drags.DragDurationsTwice | src-tauri/src/document/transient.rs:309-379 | A second drag from the same snapshot replaces the first instead of adding to it. |
| Drags.DragEach | src-tauri/src/document/transient.rs:274-307 | The drag loop as the source runs it, over the slots in iteration order. |
| Drags.DurationDragView | src-tauri/src/document/transient.rs:274-307 | The view as `begin_drag_keyframe_duration` leaves it: a keyframe that is not yet selected becomes the only selected keyframe and its direction the current sequence. |
| Drags.DurationSnapshot | src-tauri/src/document/transient.rs:274-307 | The snapshot of a duration drag: the time range of every selected keyframe. |
| Drags.DurationDragBegun | src-tauri/src/document/transient.rs:274-307 | What `begin_drag_keyframe_duration` leaves: the view with the dragged keyframe selected and the snapshot of the selected keyframes' time ranges; without a current animation, that error and no change. |
| Drags.BeginDragKeyframeDuration | src-tauri/src/document/transient.rs:274-307 | the view, transient state and result are those of beginning the drag; sheet, persistent state and history are unchanged |
| Drags.DurationDragged | src-tauri/src/document/transient.rs:309-379 | `Document::update_drag_keyframe_duration` with duration snapping off: the total delta is shared out, rounding toward zero, between the selected keyframes up to the dragged one, and each selected keyframe takes its snapshot duration plus that share, at least 20 ms. |
| Drags.DurationsSet | src-tauri/src/document/transient.rs:309-379 | The sheet after the drag loop over `slots` in the current animation `name`. |
| Drags.OrderedSlotsExist | src-tauri/src/document/transient.rs:309-379 | every slot the drag loop visits names an existing keyframe |
| Drags.DurationDragFails | src-tauri/src/document/transient.rs:309-379 | A duration drag fails exactly when there is no drag under way, no current animation, or the dragged keyframe or a selected keyframe of the current animation is missing from the snapshot. |
| Drags.DurationDragSucceeds | src-tauri/src/document/transient.rs:309-379 | A successful duration drag shares the delta, rounding toward zero, between the selected keyframes of the dragged direction up to the dragged index; each selected keyframe of the current animation takes the duration its snapshot range and that share give, and nothing else in the sheet changes. |
| Drags.SelectedInOrder | src-tauri/src/document/transient.rs:309-379 | The slots the loop visits are the selected keyframes, and the count of those sharing the drag is the count the source takes of them. |
| Drags.DurationDragReshaped | src-tauri/src/document/transient.rs:309-379 | The drag on a current animation replaced by another of the same shape: same slots, same share. |
| Drags.DurationsSetTwice | src-tauri/src/document/transient.rs:309-379 | After a successful loop, a second loop from the same snapshot replaces the first. |
| Drags.DurationDragDoesNotAccumulate | src-tauri/src/document/transient.rs:309-379 | Updates never accumulate: after a successful update, the next one from the same snapshot gives what it would have given on its own. |
| Drags.DragKeyframeDurations | src-tauri/src/document/transient.rs:309-379 | the outcome is the duration drag specification's, whose lemmas state when it fails, how the delta is shared and that drags do not accumulate |
| Drags.UpdateDragKeyframeDuration | src-tauri/src/document/transient.rs:309-379 | the sheet, view and result are those of the duration drag specification; transient state, persistent state and history are unchanged |
| Drags.EndDragKeyframeDuration | src-tauri/src/document/transient.rs:432-434 | the duration drag session ends, so no duration is being dragged; nothing else changes |
| Drags.AxisLocked | src-tauri/src/document/transient.rs:472-520 | The axis lock of the nudges: unless both axes are free, only the component of larger magnitude is kept, the vertical one on a tie. |
| Drags.WorkbenchZoom | src-tauri/src/document/transient.rs:472-520 | The zoom of the workbench. The view keeps the factor between 1 and 32; a factor of 0, which no view operation produces, reads as 1. |
| Drags.Unzoomed | src-tauri/src/document/transient.rs:472-520 | A displacement in screen pixels as sheet pixels: divided by the zoom and rounded down. |
| Drags.UnzoomedAtOne | src-tauri/src/document/transient.rs:472-520 | At zoom 1 a displacement is its own size on the sheet. |
| Drags.RefSlots | src-tauri/src/document/transient.rs:472-520 | The slots of a list of keyframe references, in the same order. |
| Drags.NudgeEach | src-tauri/src/document/transient.rs:472-520 | The loop of `update_nudge_keyframe`: each slot in turn is moved to its snapshot offset plus the shift, its hitboxes following it; the first slot missing from the snapshot, or naming a missing sequence or keyframe, stops the loop, keeping the moves made so far. |
| Drags.NudgeEachSpec | src-tauri/src/document/transient.rs:472-520 | The nudge loop fails exactly when a slot is missing from the snapshot or from the animation; otherwise every listed keyframe sits at its snapshot offset plus the shift, however often the slot is listed. |
| Drags.NudgeOrderIrrelevant | src-tauri/src/document/transient.rs:472-520 | A successful nudge loop does not depend on the order or repetition of the slots it visits. |
| Drags.NudgeEachTwice | src-tauri/src/document/transient.rs:472-520 | A second nudge loop from the same snapshot replaces the first instead of adding to it. |
| Drags.Offsets | src-tauri/src/document/transient.rs:440-470 | The snapshot of a keyframe nudge: the offset of every keyframe of the animation. |
| Drags.KeyframeNudgeBegun | src-tauri/src/document/transient.rs:440-470 | What `begin_nudge_keyframe` leaves: the nudged keyframe selected (alone, if it was not selected already) and the offsets of every keyframe of the current animation in the snapshot; without a current animation, that error and no change. |
| Drags.BeginNudgeKeyframe | src-tauri/src/document/transient.rs:440-470 | the view, transient state and result are those of beginning the nudge; sheet, persistent state and history are unchanged |
| Drags.KeyframesNudged | src-tauri/src/document/transient.rs:472-520 | `Document::update_nudge_keyframe`, visiting the selected keyframes in the order `order` lists them: each is moved to its snapshot offset plus the axis-locked displacement divided by the zoom, rounded down. |
| Drags.KeyframeNudgeEffect | src-tauri/src/document/transient.rs:472-520 | With a nudge under way and a current animation, a keyframe nudge succeeds exactly when every listed keyframe is in the snapshot and in the animation; it then moves each of them to its snapshot offset plus the shift, and nothing else in the sheet changes. |
| Drags.RefSlotsMembers | src-tauri/src/document/transient.rs:472-520 | Two lists of the same references list the same slots. |
| Drags.KeyframeNudgeOrderIrrelevant | src-tauri/src/document/transient.rs:472-520 | The order in which the selected keyframes are visited, which the source leaves to a hash set, does not matter to a nudge that succeeds. |
| Drags.KeyframeNudgeDoesNotAccumulate | src-tauri/src/document/transient.rs:472-520 | Keyframe nudges never accumulate: after a successful update, the next one from the same snapshot gives what it would have given on its own. |
| Drags.AxisLockedNudgeExample | src-tauri/src/document/transient.rs:472-520 | The case of the source's tests: a nudge by (5, 10) locked to one axis at zoom 1 moves 10 down. |
| Drags.Enumerate | src-tauri/src/document/transient.rs:472-520 | Lists the members of a set, in an order of its own choosing. |
| Drags.NudgeLoop | src-tauri/src/document/transient.rs:472-520 | The nudge loop as the source runs it, over the listed references in turn. |
| Drags.NudgeKeyframes | src-tauri/src/document/transient.rs:472-520 | The computation of `update_nudge_keyframe` on values, visiting the references in the order `order` lists them. |
| Drags.UpdateNudgeKeyframe | src-tauri/src/document/transient.rs:472-520 | `Document::update_nudge_keyframe`: the selected keyframes are visited in some order; by `KeyframeNudgeOrderIrrelevant` a successful nudge does not depend on which. |
| Drags.EndNudgeKeyframe | src-tauri/src/document/transient.rs:522-524 | the keyframe nudge session ends; nothing else changes |
| Dtos.SheetToDto | src-tauri/src/dto.rs:55-61 | one frame path per frame of the sheet, in the sheet's order |
| Dtos.SheetDtoListsTextures | src-tauri/src/dto.rs:55-61 | the paths sent to the front end are exactly the textures the sheet lists |
| Dtos.DocumentName | src-tauri/src/dto.rs:41-53 | the path's file name, or "??" when the path has none; never empty |
| Dtos.DocumentNameOfJoin | src-tauri/src/dto.rs:41-53 | a document saved as a file name in a directory is shown under that file name |
| Dtos.RootHasNoName | src-tauri/src/dto.rs:41-53 | the root directory is shown as "??" |
| Dtos.DocumentToDto | src-tauri/src/dto.rs:41-53 | the document's path, its display name and its sheet's frame list |
| Dtos.DocumentsToDto | src-tauri/src/dto.rs:30-39 | one summary per open document, in the same order |
| Dtos.AppToDto | src-tauri/src/dto.rs:30-39 | one summary per document in order; the current path is reported exactly when it names an open document |
| ExportEditing.ValidateTemplatePath | src-tauri/src/document/export.rs:150-162 | `validate_template_path`: the template must be an absolute path to an existing file that parses as a template; the first failed check names the problem. |
| ExportEditing.ValidateOutputFilePath | src-tauri/src/document/export.rs:164-172 | `validate_output_file_path`: an output file must be absolute and not a directory. |
| ExportEditing.ValidateOutputDirectoryPath | src-tauri/src/document/export.rs:174-182 | `validate_output_directory_path`: an output directory must be absolute and not a file. |
| ExportEditing.ValidateTemplateExportSettings | src-tauri/src/document/export.rs:107-119 | one verdict per path: the template path judged as a template, the texture and metadata files as output files, the paths root as an output directory |
| ExportEditing.ValidSettingsAreAbsolute | src-tauri/src/document/export.rs:107-182 | Settings that pass validation have only absolute paths. |
| ExportEditing.ValidateExportSettings | src-tauri/src/document/export.rs:98-105 | `Document::validate_export_settings`: validate the edited copy; fails outside the dialog. |
| ExportEditing.ExportSettingsEdit | src-tauri/src/document/export.rs:29-34 | the copy being edited, or the not-editing error exactly when the dialog is closed |
| ExportEditing.BeganExportAs | src-tauri/src/document/export.rs:51-59 | `Document::begin_export_as`: edit a copy of the sheet's settings, or of the defaults when it has none. |
| ExportEditing.WithPath | src-tauri/src/document/export.rs:65-96 | exactly the chosen path is replaced and the other three are kept |
| ExportEditing.SetExportPath | src-tauri/src/document/export.rs:65-71 | `set_export_template_file`, `set_export_texture_file`, `set_export_metadata_file` and `set_export_metadata_paths_root`: change one path of the copy; outside the dialog they fail and change nothing. |
| ExportEditing.SetPathRevalidates | src-tauri/src/document/export.rs:65-119 | Setting a path changes the verdict on that path only: the new verdict is the validator's verdict on the new path, and the other three stay. |
| ExportEditing.WithAbsolutePaths | src-tauri/src/document/export.rs:121-129 | `ExportSettings::with_absolute_paths` as `end_export_as` uses it: the settings unchanged when every path is absolute, an error naming the first relative path otherwise. |
| ExportEditing.EndedExportAs | src-tauri/src/document/export.rs:121-129 | `Document::end_export_as`: store the edited copy in the sheet and close the dialog. Fails, changing nothing, outside the dialog or while a path of the copy is relative. |
| ExportEditing.BeginThenEndKeepsSettings | src-tauri/src/document/export.rs:121-129 | Opening the dialog and confirming it at once leaves a sheet whose settings are absolute as it was, and closes the dialog. |
| ExportEditing.DefaultsCannotBeConfirmed | src-tauri/src/document/export.rs:121-129 | A document without export settings cannot confirm the dialog untouched: the default paths are empty, hence relative. |
| ExportEditing.BeginExportAs | src-tauri/src/document/export.rs:51-59 | the persistent state becomes that of opening the dialog; nothing else changes |
| ExportEditing.CancelExportAs | src-tauri/src/document/export.rs:61-63 | the dialog closes, dropping the copy, so no copy is being edited; nothing else changes |
| ExportEditing.SetExportPathOf | src-tauri/src/document/export.rs:65-96 | outside the dialog the error is returned and nothing changes; otherwise the chosen path of the copy is replaced |
| ExportEditing.EndExportAs | src-tauri/src/document/export.rs:121-129 | outside the dialog, or with a copy that fails validation, the error is returned and nothing changes; otherwise the sheet takes the copy with absolute paths and the dialog closes |
| FileWatchers.FileWatcher.constructor | src-tauri/src/file_watcher.rs:21-27 | A new watcher of the older engine watches no file. |
| FileWatchers.FileWatcher.UpdateWatchedFiles | src-tauri/src/file_watcher.rs:29-66 | `FileWatcher::update_watched_files`: unwatch every file no document uses any more, then watch every used file not watched yet. A file is recorded as watched whether or not the watch call succeeds, so the watched set ends up exactly the set of frame sources. |
| FileWatchers.Unwatched | src-tauri/src/utils/file_watcher.rs:72-83 | The first half of both updates: every watched path that is no longer relevant is unwatched. |
| FileWatchers.WatchedWhereWatchable | src-tauri/src/utils/file_watcher.rs:85-101 | The second half of the newer update: each new directory is recorded when its watch call succeeds. |
| FileWatchers.RelevantDirectories | src-tauri/src/utils/file_watcher.rs:66-70 | The directories holding the relevant files: the parents of those that have one. |
| FileWatchers.FilterEvents | src-tauri/src/utils/file_watcher.rs:23-32 | `EventFilter::handle_event`: the events passed on are exactly those about a relevant file, none is added, and when every event is relevant the batch passes unchanged. |
| FileWatchers.FilterEventsCounts | src-tauri/src/utils/file_watcher.rs:23-32 | An event about a relevant file is passed on as many times as it occurs in the batch; any other is never passed on. |
| FileWatchers.FilterEventsAppend | src-tauri/src/utils/file_watcher.rs:23-32 | Filtering two batches in a row gives the filtered first batch followed by the filtered second: `retain` keeps the relative order of the events. |
| FileWatchers.DirectoryWatcher.constructor | src-tauri/src/utils/file_watcher.rs:36-56 | A new watcher of the newer engine watches no directory. |
| FileWatchers.DirectoryWatcher.UpdateWatchedFiles | src-tauri/src/utils/file_watcher.rs:65-102 | `FileWatcher::update_watched_files`: unwatch every directory that holds no relevant file any more, then watch every relevant directory not watched yet, recording it only when the watch call (here: membership in `watchable`) succeeds. |
| FocusStores.Step | src/stores/focus.ts:10-15 | a trap adds one to the counter, a release removes one |
| FocusStores.RunMovesByBalance | src/stores/focus.ts:10-15 | a series of actions moves the counter by traps taken minus traps freed |
| FocusStores.BalancedActionsFreeInput | src/stores/focus.ts:10-18 | from zero, input is free again exactly when every trap has been freed, and trapped while more traps were taken than freed |
| FocusStores.FocusStore.constructor | src/stores/focus.ts:4-8 | the counter starts at zero, so input is not trapped |
| FocusStores.FocusStore.TrapInput | src/stores/focus.ts:10-12 | the counter goes up by one, and input is then trapped unless the counter was negative |
| FocusStores.FocusStore.FreeInput | src/stores/focus.ts:13-15 | the counter goes down by one |
| SpriteStores.CountOf | src/stores/sprite.ts:17-21 | the invalidation count of a path, zero for a path never invalidated |
| SpriteStores.Invalidated | src/stores/sprite.ts:11-14 | the path's count goes up by one and every other path's count is unchanged |
| SpriteStores.Url | src/stores/sprite.ts:17-21 | the asset URL, then "?invalidation=", then the path's count in decimal |
| SpriteStores.InvalidateChangesOnlyThatUrl | src/stores/sprite.ts:11-21 | invalidating a path changes its URL and keeps the URL of every other path |
| SpriteStores.SpriteStore.constructor | src/stores/sprite.ts:5-9 | no path has been invalidated |
| SpriteStores.SpriteStore.Invalidate | src/stores/sprite.ts:11-14 | the counts become those of invalidating the path |
| SpriteStores.SpriteStore.GetUrl | src/stores/sprite.ts:17-21 | the URL ends with the path's current count in decimal after the invalidation query |
| FrontEndState.FirstDocumentAt | src/stores/state.ts:36-43 | the index of the first document with that path, or nothing exactly when no document has it |
| FrontEndState.FirstAnimationNamed | src/stores/state.ts:49-53 | an animation of that name, or nothing exactly when no animation has it |
| FrontEndState.RecordLookup | src/stores/state.ts:60-62 | never null; the sequence stored under the key, or undefined exactly when the key is absent |
| FrontEndState.Filter | src/stores/state.ts:81-83 | exactly the items accepted, never more items than given |
| FrontEndState.CurrentDocument | src/stores/state.ts:36-43 | a document exactly when the current path names one, and then one at that path |
| FrontEndState.CurrentAnimation | src/stores/state.ts:44-54 | an animation only for a current document with a non-empty current name, and then one of that name; none exactly when the name is empty or no animation has it |
| FrontEndState.CurrentSequence | src/stores/state.ts:55-65 | not null exactly when there are a current animation and a non-empty direction; an object is the sequence stored under that direction |
| FrontEndState.CurrentKeyframe | src/stores/state.ts:66-76 | not null exactly when there are a current sequence and an index; an object is the keyframe at an in-range index, undefined means the index is out of range |
| FrontEndState.SelectedFrames | src/stores/state.ts:77-84 | present exactly with a current document, and then exactly its selected frames |
| FrontEndState.SelectedAnimations | src/stores/state.ts:85-92 | present exactly with a current document, and then exactly its selected animations |
| FrontEndState.SelectedHitboxes | src/stores/state.ts:93-98 | present exactly with a current keyframe, and then exactly its selected hitboxes |
| FrontEndState.SelectedInSequences | src/stores/state.ts:103-105 | exactly the selected keyframes of any sequence of the record |
| FrontEndState.SelectedKeyframes | src/stores/state.ts:99-106 | present exactly with a current animation, and then exactly the selected keyframes of its sequences |
| FrontEndState.AnyFramesMissing | src/stores/state.ts:107-109 | true exactly when the current document has a frame missing on disk |
| FrontEndState.NonEmptyHasMember | src/stores/state.ts:110-124 | a present list is non-empty exactly when it has a member |
| FrontEndState.CutAndCopyNeedASelection | src/stores/state.ts:110-124 | cutting is possible exactly when an animation, a keyframe of the current animation or a hitbox of the current keyframe is selected; copying also when a frame is |
| FrontEndState.CanPaste | src/stores/state.ts:125-127 | pasting needs a current document, so a current path |
| FrontEndState.OnboardingInProgress | src/stores/state.ts:128-133 | true exactly in the three intermediate onboarding steps |
| FrontEndState.ActiveModalId | src/stores/app.ts:29-36 | the error's key whenever there is an error; none exactly when there is no error and no close request on the current document |
| FrontEndState.SelectorsFailClosed | src/stores/state.ts:44-106 | a keyframe needs a sequence, a sequence an animation, an animation a document, and the selection getters follow those links |
| FrontEndState.ClosingModalNamesDocument | src/stores/app.ts:29-36 | without an error, an active dialog is the close confirmation of the current document, whose id is "closing_" followed by its path |
| Gestures.AnimationBeingRenamed | src-tauri/src/document/transient.rs:96-101 | the animation name exactly while an animation rename is under way |
| Gestures.HitboxBeingRenamed | src-tauri/src/document/transient.rs:103-108 | the hitbox name exactly while a hitbox rename is under way |
| Gestures.BeginRenameAnimation | src-tauri/src/document/transient.rs:66-68 | the rename session becomes an animation rename of that name, so that name is the one being renamed and no hitbox is; nothing else changes |
| Gestures.BeginRenameHitbox | src-tauri/src/document/transient.rs:79-81 | the rename session becomes a hitbox rename of that name, so that name is the one being renamed and no animation is; nothing else changes |
| Gestures.CancelRename | src-tauri/src/document/transient.rs:92-94 | no rename session remains, so neither an animation nor a hitbox is being renamed; nothing else changes |
| Gestures.EndRenameAnimation | src-tauri/src/document/transient.rs:70-77 | `Document::end_rename_animation`: outside an animation rename it fails and changes nothing; inside one, the session ends even when the rename itself fails. |
| Gestures.EndRenameHitbox | src-tauri/src/document/transient.rs:83-90 | `Document::end_rename_hitbox`: the same for a hitbox of the keyframe under the clock. |
| Gestures.Reversed | src-tauri/src/document/transient.rs:117-149 | the sequence back to front: same length, element i is element length-1-i |
| Gestures.InsertedBlock | src-tauri/src/document/transient.rs:117-149 | The sequence with `block` inserted at `at`, in order. Inserting at a position past the end fails, unless there is nothing to insert. |
| Gestures.SplicePlacesBlock | src-tauri/src/document/transient.rs:117-149 | Splicing `block` in at `at` places it there. |
| Gestures.InsertEach | src-tauri/src/document/transient.rs:117-149 | The loop that inserts each keyframe of `keyframes` in turn at the same index: the last one inserted ends up first, so the block reads back to front. Only the first insertion can fail, so a failure changes nothing. |
| Gestures.InsertIntoSplice | src-tauri/src/document/transient.rs:117-149 | Inserting at `at` of a splice puts the keyframe at the head of the spliced block. |
| Gestures.ReversedExtended | src-tauri/src/document/transient.rs:117-149 | Reversing one more element of a prefix puts it first. |
| Gestures.BlockRefs | src-tauri/src/document/transient.rs:117-149 | exactly the references to keyframes start .. start+n-1 of that direction of that animation, one per index |
| Gestures.LandedView | src-tauri/src/document/transient.rs:117-149 | The view after a block of `n` keyframes lands at `at` of `direction`: the block is selected. |
| Gestures.FramesBeingDragged | src-tauri/src/document/transient.rs:155-160 | `Document::frames_being_dragged`: the selected frames, while a frame drag is under way. |
| Gestures.BeginDragAndDropFrame | src-tauri/src/document/transient.rs:110-115 | an unselected frame becomes the only selected frame, a selected one keeps the selection; the frame drag session starts on that frame, which is then among the frames being dragged |
| Gestures.EndDragAndDropFrame | src-tauri/src/document/transient.rs:151-153 | the frame drag session ends, so no frame is being dragged; nothing else changes |
| Gestures.NewKeyframes | src-tauri/src/document/transient.rs:117-149 | One new keyframe per path, in the same order. |
| Gestures.FrameDrop | src-tauri/src/document/transient.rs:117-149 | What dropping the selected frames at `index` of `direction` does: a new keyframe per frame, in ascending path order, inserted as one block; while paused the clock moves to the block's start; the block becomes the selection. Any failure leaves sheet and view unchanged. |
| Gestures.FrameLanding | src-tauri/src/document/transient.rs:117-149 | The part of a frame drop after the workbench animation `name` is found. |
| Gestures.FramesSettled | src-tauri/src/document/transient.rs:134-148 | The end of a frame drop, once `moved` holds the `n` new keyframes at `index` of `direction`: while paused the clock moves to the block's start; the block becomes the selection and the direction current. It fails with `NoKeyframeAtIndex`, changing nothing, exactly when paused with no keyframe at `index`, where the editor's `keyframe_times()[index]` panics. |
| Gestures.FrameDropWithoutFramesPastEnd | src-tauri/src/document/transient.rs:134-139 | A paused drop of no frame at or past the end of the sequence fails with `NoKeyframeAtIndex` and changes nothing, the case where the editor panics. |
| Gestures.ReversedNewKeyframes | src-tauri/src/document/transient.rs:117-149 | building keyframes for the reversed paths and reversing them gives the keyframes for the paths in order |
| Gestures.DropFrameOnTimeline | src-tauri/src/document/transient.rs:117-149 | `Document::drop_frame_on_timeline`: sheet, view and result are those of `FrameDrop` (including its failure where the editor panics); the session ends on success only. |
| Gestures.PlanFrameDrop | src-tauri/src/document/transient.rs:117-149 | the outcome is `FrameDrop`'s, whose lemmas say what it inserts and selects, and that a paused drop of no frame past the end fails (`FrameDropWithoutFramesPastEnd`) |
| Gestures.LandFrames | src-tauri/src/document/transient.rs:117-149 | Inserts new keyframes for `frames`, one at a time in reverse order, at `index` of `direction`. |
| Gestures.FrameDropInsertsSelectedFrames | src-tauri/src/document/transient.rs:117-149 | A successful frame drop puts one new keyframe per selected frame, in ascending path order, at `index`, keeps the keyframes around them in order, and selects exactly the new keyframes. |
| Gestures.FrameDropSelectsNewKeyframes | src-tauri/src/document/transient.rs:117-149 | After a successful frame drop, exactly the new keyframes are selected. |
| Gestures.FrameLandingInserts | src-tauri/src/document/transient.rs:117-149 | A successful landing inserts the block of new keyframes at `index`. |
| Gestures.FrameLandingSelects | src-tauri/src/document/transient.rs:117-149 | A successful landing selects exactly the block of new keyframes. |
| Gestures.KeyframesBeingDragged | src-tauri/src/document/transient.rs:262-272 | `Document::keyframes_being_dragged`: the selected slots, while a keyframe drag is under way. |
| Gestures.BeginDragAndDropKeyframe | src-tauri/src/document/transient.rs:162-178 | `Document::begin_drag_and_drop_keyframe`: an unselected keyframe becomes the only selected one. |
| Gestures.EndDragAndDropKeyframe | src-tauri/src/document/transient.rs:258-260 | the keyframe drag session ends, so no keyframe is being dragged; nothing else changes |
| Gestures.LastDroppedExists | src-tauri/src/document/transient.rs:180-256 | a non-empty set of slots has a slot that sorts last by start time and slot |
| Gestures.LastDroppedUnique | src-tauri/src/document/transient.rs:180-256 | that last slot is unique |
| Gestures.LastDropped | src-tauri/src/document/transient.rs:180-256 | the slot of the set that sorts last |
| Gestures.DropOrderLength | src-tauri/src/document/transient.rs:180-256 | The drop order has one entry per slot. |
| Gestures.DropOrderSorts | src-tauri/src/document/transient.rs:180-256 | The drop order lists each slot of the set once, last dropped first. |
| Gestures.SortForDrop | src-tauri/src/document/transient.rs:180-256 | the slots in drop order: each slot once, sorted by start time then slot, last first |
| Gestures.TakeSlotsDeletes | src-tauri/src/document/transient.rs:180-256 | Taking slots out deletes them exactly as deleting the selected keyframes does. |
| Gestures.TakeSlotsExist | src-tauri/src/document/transient.rs:180-256 | when taking the slots out reports no failure, every slot named an existing keyframe |
| Gestures.TimesNondecreasing | src-tauri/src/sheet.rs:396-401 | keyframe start times never decrease along a sequence |
| Gestures.DropOrderPerDirection | src-tauri/src/document/transient.rs:180-256 | Sorted by start time, existing keyframes of one direction come in index order. |
| Gestures.TakenAreOriginals | src-tauri/src/document/transient.rs:180-256 | Deleting existing slots, each direction largest index first, succeeds and takes out exactly the keyframes the slots named before anything was deleted, in the order of the slots. |
| Gestures.CountBefore | src-tauri/src/document/transient.rs:180-256 | How many of `slots` lie in `direction` before `index`. |
| Gestures.CountBeforeBound | src-tauri/src/document/transient.rs:180-256 | fewer than index slots of a direction lie before index |
| Gestures.KeyframeDrop | src-tauri/src/document/transient.rs:180-256 | What dropping the selected keyframes at `index` of `direction` does: they are deleted last in drop order first, then inserted as one block, in drop order, where `index` falls once the deleted keyframes before it are gone; while paused the clock moves to the block's start, failing when the block is past the end; the block becomes the selection. Errors keep what was done before them. |
| Gestures.KeyframeMove | src-tauri/src/document/transient.rs:180-256 | A keyframe drop once the workbench animation `name` is found and the dragged `slots` are sorted: take them out, then land them at `at`. |
| Gestures.Landing | src-tauri/src/document/transient.rs:180-256 | The second half of a keyframe drop, once `taken` is out of `after`: insert them back to front at `at` of `direction`, move the clock while paused, and select the block. |
| Gestures.Settled | src-tauri/src/document/transient.rs:180-256 | The end of a landing, once `moved` holds the block of `n` keyframes at `at` of `direction`: while paused the clock moves to the block's start, which fails when `at` is past the end; the block becomes the selection. |
| Gestures.TakeEach | src-tauri/src/document/transient.rs:180-256 | the sequence after, the keyframes taken out and the failure are those of taking the slots out one by one |
| Gestures.DropKeyframeOnTimeline | src-tauri/src/document/transient.rs:180-256 | the sheet, view and result are those of the keyframe drop specification; on success the drag session ends; persistent state and history are unchanged |
| Gestures.PlanKeyframeDrop | src-tauri/src/document/transient.rs:180-256 | the outcome is the keyframe drop specification's, whose lemmas say where the block lands and what is selected |
| Gestures.MoveKeyframes | src-tauri/src/document/transient.rs:180-256 | the outcome is that of taking the slots out and landing them |
| Gestures.Land | src-tauri/src/document/transient.rs:180-256 | Inserts the taken keyframes, one at a time, at `at` of `direction`. |
| Gestures.SlotKeyframes | src-tauri/src/document/transient.rs:180-256 | one keyframe per slot |
| Gestures.KeyframeMoveLandsBlock | src-tauri/src/document/transient.rs:180-256 | What a successful keyframe drop does, once `KeyframeDrop` has found the workbench animation and sorted the selection into drop order: the original keyframes of the selected slots, without any change to them, lie as one block in drop order (earliest start first) at `at`, and exactly that block, one keyframe per selected slot, is selected. |
| Gestures.KeyframeMovePlacesBlock | src-tauri/src/document/transient.rs:180-256 | A successful move of slots sorted in drop order places their original keyframes as one block. |
| Gestures.DropOrderTakesOriginals | src-tauri/src/document/transient.rs:180-256 | Taking existing slots out in drop order takes exactly the keyframes they named. |
| Gestures.KeyframeMoveSelectsBlock | src-tauri/src/document/transient.rs:180-256 | A successful move selects one keyframe per slot, as a block at `at`. |
| Gestures.LandingPlacesBlock | src-tauri/src/document/transient.rs:180-256 | a successful landing puts the taken keyframes, in reverse, as a block at the index |
| Gestures.LandingSelectsBlock | src-tauri/src/document/transient.rs:180-256 | What a landing selects: the block, one keyframe per taken keyframe. |
| Gestures.TakeSlotsLength | src-tauri/src/document/transient.rs:180-256 | Taking slots out, when it succeeds, takes one keyframe per slot. |
| History.Push | src-tauri/src/document/command.rs:396-405 | the history stays well formed, the cursor is at its head and the entry is under it |
| History.WithCurrentView | src-tauri/src/document/command.rs:407-461 | The state after replacing the view of the entry under the cursor. |
| History.RecordView | src-tauri/src/document/command.rs:407-461 | A view-only change: merged into the current entry when allowed, pushed under a new version otherwise. |
| History.Recorded | src-tauri/src/document/command.rs:407-461 | `Document::record_command`. A sheet change first records the view the user browsed to while away from the head (if it differs from the entry there), then pushes the change under a new version. A view-only change is recorded only at the head. The browsed view is remembered while away from the head and forgotten at it. |
| History.SheetChangeRecorded | src-tauri/src/document/command.rs:407-461 | The sheet-change step of `record_command`: the browsed view first, then the change under a new version. |
| History.Browsed | src-tauri/src/document/command.rs:407-461 | The view browsed to away from the head, recorded when it differs from the entry there. |
| History.PushEntry | src-tauri/src/document/command.rs:396-405 | the bookkeeping after the push is the push specification's, which keeps the history well formed and puts the entry at the head under the cursor |
| History.RecordViewChange | src-tauri/src/document/command.rs:407-461 | The view-change step of `record_command`: merge when allowed, push otherwise. |
| History.Record | src-tauri/src/document/command.rs:407-461 | The body of `record_command` on the history bookkeeping, given the document's sheet and view. |
| History.RecordSheetChange | src-tauri/src/document/command.rs:407-461 | the bookkeeping after the step is the sheet-change specification's |
| History.Browse | src-tauri/src/document/command.rs:407-461 | the bookkeeping after the step is the browsing specification's |
| History.PushUndoState | src-tauri/src/document/command.rs:396-405 | the document keeps its content and a well-formed history, which becomes the push of the entry |
| History.RecordCommand | src-tauri/src/document/command.rs:407-461 | the document keeps its content and a well-formed history, which becomes the recorded one, whose lemmas state what undo then restores |
| History.RecordedSheetChange | src-tauri/src/document/command.rs:407-461 | A recorded sheet change becomes the entry under the cursor, at the head of the history, under a version newer than any before it. |
| History.RecordedSheetChangeUndoable | src-tauri/src/document/command.rs:407-461 | After a sheet change is recorded, the entry just before the cursor holds the sheet the change was made on, so an undo brings that sheet back. At the head the whole previous entry is kept, view included. |
| History.SheetChangeKeepsPrevious | src-tauri/src/document/command.rs:407-461 | The sheet-change step leaves the sheet that was under the cursor just before the new entry. |
| History.RecordViewKeepsSheet | src-tauri/src/document/command.rs:407-461 | Recording a view change leaves the sheet under the cursor as it was. |
| History.ViewOnlyRecordingKeepsSheet | src-tauri/src/document/command.rs:407-461 | Recording a command that did not change the sheet never puts a different sheet under the history cursor: a view-only change is merged or pushed with the sheet it had. |
| History.PushKeepsPrevious | src-tauri/src/document/command.rs:407-461 | After a push, the entry that was under the cursor sits just before the new one. |
| History.RecordedNoChange | src-tauri/src/document/command.rs:407-461 | A command that changed neither the sheet nor the view leaves the entries, the cursor and the versions alone. |
| History.RecordedViewChangeAtHead | src-tauri/src/document/command.rs:407-468 | A view-only change at the head is merged into the entry under the cursor when `can_merge_view` holds, and pushed under a new version otherwise. |
| History.RecordedViewChangeDetached | src-tauri/src/document/command.rs:407-461 | Browsing away from the head changes no entry; the browsed view is only remembered. |
| History.UndoneIndex | src-tauri/src/document/command.rs:470-478 | The cursor after `undo`: one entry back, unless already at the first. |
| History.RedoneIndex | src-tauri/src/document/command.rs:480-488 | The cursor after `redo`: one entry forward, unless already at the head. |
| History.UndoRedoInverse | src-tauri/src/document/command.rs:480-488 | Redo takes back an undo, and undo takes back a redo. |
| History.NothingToRedoAfterChange | src-tauri/src/document/command.rs:480-488 | Right after a change is recorded there is nothing to redo. |
| History.Undo | src-tauri/src/document/command.rs:470-478 | `Document::undo`: restores the previous entry's sheet and view and stops playback. |
| History.Redo | src-tauri/src/document/command.rs:480-488 | `Document::redo`: restores the next entry's sheet and view and stops playback. |
| History.UndoCommand | src-tauri/src/document/command.rs:490-492 | `Document::undo_command`: the command that produced the entry under the cursor. |
| History.RedoCommand | src-tauri/src/document/command.rs:494-500 | `Document::redo_command`: the command of the next entry, none at the head. |
| HitboxDrags.RoundDiv | src-tauri/src/document/transient.rs:646-734 | `a / b` rounded to the nearest integer, halves away from zero, as `f32::round` does. |
| HitboxDrags.ResizeDelta | src-tauri/src/document/transient.rs:646-734 | The movement of the dragged edge or corner, in sheet pixels: the mouse movement (aspect-locked when asked, on a corner) divided by the zoom and rounded to the nearest pixel. |
| HitboxDrags.BoundingBox | src-tauri/src/document/transient.rs:646-734 | `Rect::from_points` of two points: the smallest rectangle with both as corners. |
| HitboxDrags.ResizedRectangle | src-tauri/src/document/transient.rs:646-734 | The rectangle a resize by `delta` leaves: spanned by the anchor and the moved handle, flipping if dragged past the anchor. |
| HitboxDrags.ResizeByNothing | src-tauri/src/document/transient.rs:646-734 | A resize by nothing gives the snapshot rectangle back, whichever handle is held. |
| HitboxDrags.ResizeWithoutFlip | src-tauri/src/document/transient.rs:646-734 | As long as the handle is not dragged past the anchor, the dragged edges move by the delta and the others stay where they were. |
| HitboxDrags.EdgeResizeKeepsOtherAxis | src-tauri/src/document/transient.rs:646-734 | Dragging an edge leaves the other axis of the rectangle alone, even past the anchor. |
| HitboxDrags.ResizeDeltaAtOne | src-tauri/src/document/transient.rs:646-734 | At zoom 1 and without the aspect lock, the mouse movement is the delta. |
| HitboxDrags.ResizeExamples | src-tauri/src/document/transient.rs:1293-1333 | The cases of the source's tests: a 100 by 100 box at the origin resized by (10, 10). |
| HitboxDrags.AspectResizeExample | src-tauri/src/document/transient.rs:1336-1357 | The aspect-ratio case of the source's tests: the SE corner of a square dragged by (40, 80) at zoom 1 moves by (80, 80). |
| HitboxDrags.Edited | src-tauri/src/document/transient.rs:568-611 | One hitbox after the edit: moved to its snapshot position plus the shift, keeping its size; or set to its snapshot rectangle resized. |
| HitboxDrags.EditedTwice | src-tauri/src/document/transient.rs:568-611 | A second edit of the same kind replaces the first. |
| HitboxDrags.EditHitboxes | src-tauri/src/document/transient.rs:568-611 | The loop of `update_nudge_hitbox` and `update_resize_hitbox`: each named hitbox in turn takes its edit; the first one missing from the snapshot stops the loop, keeping the edits made so far. |
| HitboxDrags.EditHitboxesSpec | src-tauri/src/document/transient.rs:568-611 | Over distinct names, the edit loop fails exactly when a name is missing from the snapshot, and otherwise edits each listed hitbox once. |
| HitboxDrags.EditHitboxesTwice | src-tauri/src/document/transient.rs:568-611 | A second edit loop of the same kind over the same names replaces the first. |
| HitboxDrags.EditEach | src-tauri/src/document/transient.rs:568-611 | The edit loop as the source runs it, over the names in turn. |
| HitboxDrags.EditedNames | src-tauri/src/document/transient.rs:568-611 | The hitboxes of the keyframe whose names are selected, in the ascending order the keyframe's sorted map visits them. |
| HitboxDrags.WorkbenchKeyframeExists | src-tauri/src/document/transient.rs:568-611 | The current animation holds the workbench keyframe. |
| HitboxDrags.SelectedHitboxesEdited | src-tauri/src/document/transient.rs:568-611 | The common tail of the hitbox updates: the selected hitboxes of the keyframe under the clock, in ascending name order, take the edit; without such a keyframe, the error of `workbench_keyframe_mut` and no change. |
| HitboxDrags.SelectedHitboxesEditEffect | src-tauri/src/document/transient.rs:568-611 | With a keyframe under the clock, a hitbox update succeeds exactly when the snapshot holds every selected hitbox of that keyframe; it then edits those hitboxes and leaves every other part of the sheet alone. |
| HitboxDrags.SelectedHitboxesEditTwice | src-tauri/src/document/transient.rs:568-611 | After a successful update, the next one of the same kind from the same snapshot gives what it would have given on its own. |
| HitboxDrags.KeyframeReplacedTwice | src-tauri/src/document/transient.rs:568-611 | replacing the same keyframe twice keeps only the second replacement |
| HitboxDrags.EditSelectedHitboxes | src-tauri/src/document/transient.rs:568-611 | The update of the selected hitboxes, as the source runs it. |
| HitboxDrags.HitboxPositions | src-tauri/src/document/transient.rs:535-566 | The snapshot of a hitbox nudge: the position of every hitbox of the keyframe. |
| HitboxDrags.HitboxNudgeBegun | src-tauri/src/document/transient.rs:535-566 | What `begin_nudge_hitbox` leaves: the hitbox selected (alone, if it was not selected already) and the positions of every hitbox of the keyframe under the clock in the snapshot; without such a keyframe, that error and no change. |
| HitboxDrags.BeginNudgeHitbox | src-tauri/src/document/transient.rs:535-566 | the view, transient state and result are those of beginning the nudge; sheet, persistent state and history are unchanged |
| HitboxDrags.HitboxesNudged | src-tauri/src/document/transient.rs:568-611 | `Document::update_nudge_hitbox`: each selected hitbox of the keyframe under the clock moves to its snapshot position plus the axis-locked displacement divided by the zoom, rounded down. |
| HitboxDrags.HitboxNudgeEffect | src-tauri/src/document/transient.rs:568-611 | With a nudge under way and a keyframe under the clock, a hitbox nudge succeeds exactly when the snapshot holds every selected hitbox of the keyframe; each of them then sits at its snapshot position plus the shift with its size unchanged, and nothing else in the sheet changes. |
| HitboxDrags.HitboxNudgeDoesNotAccumulate | src-tauri/src/document/transient.rs:568-611 | Hitbox nudges never accumulate: after a successful update, the next one from the same snapshot gives what it would have given on its own. |
| HitboxDrags.UpdateNudgeHitbox | src-tauri/src/document/transient.rs:568-611 | the sheet, view and result are those of the hitbox nudge specification, whose lemmas state when it fails and that nudges do not accumulate; nothing else changes |
| HitboxDrags.EndNudgeHitbox | src-tauri/src/document/transient.rs:613-615 | the hitbox nudge session ends; nothing else changes |
| HitboxDrags.HitboxesBeingNudged | src-tauri/src/document/transient.rs:617-627 | `Document::hitboxes_being_nudged`: the names of the selected hitboxes while a nudge is under way, none otherwise. |
| HitboxDrags.HitboxRectangles | src-tauri/src/document/transient.rs:629-644 | The snapshot of a hitbox resize: the rectangle of every hitbox of the keyframe. |
| HitboxDrags.HitboxResizeBegun | src-tauri/src/document/transient.rs:629-644 | What `begin_resize_hitbox` leaves: the axis, the hitbox and the rectangle of every hitbox of the keyframe under the clock in the snapshot, the selection untouched; without such a keyframe, that error and no change. |
| HitboxDrags.BeginResizeHitbox | src-tauri/src/document/transient.rs:629-644 | the transient state and result are those of beginning the resize; sheet, view, persistent state and history are unchanged |
| HitboxDrags.HitboxesResized | src-tauri/src/document/transient.rs:646-734 | `Document::update_resize_hitbox`: each selected hitbox of the keyframe under the clock takes its snapshot rectangle resized by the mouse movement, divided by the zoom and rounded. |
| HitboxDrags.HitboxResizeEffect | src-tauri/src/document/transient.rs:646-734 | With a resize under way and a keyframe under the clock, a hitbox resize succeeds exactly when the snapshot holds every selected hitbox of the keyframe; each of them then takes its snapshot rectangle resized, and nothing else in the sheet changes. |
| HitboxDrags.HitboxResizeDoesNotAccumulate | src-tauri/src/document/transient.rs:646-734 | Hitbox resizes never accumulate: after a successful update, the next one from the same snapshot gives what it would have given on its own. |
| HitboxDrags.UpdateResizeHitbox | src-tauri/src/document/transient.rs:646-734 | the sheet, view and result are those of the hitbox resize specification, whose lemmas state when it fails and that resizes do not accumulate; nothing else changes |
| HitboxDrags.EndResizeHitbox | src-tauri/src/document/transient.rs:736-738 | the hitbox resize session ends; nothing else changes |
| HitboxDrags.HitboxesBeingResized | src-tauri/src/document/transient.rs:740-750 | `Document::hitboxes_being_resized`: the names of the selected hitboxes while a resize is under way, none otherwise. |
| Keyboard.OnKeyDown | src/utils/keyboard.ts:37-149 | `onKeyDown`: nothing is dispatched while a text field has focus or the focus store traps input; otherwise the first matching chord, with or without ctrl, picks the one action. |
| Keyboard.CtrlActionIsBound | src/utils/keyboard.ts:37-149 | Whatever a ctrl chord dispatches has a chord in the table that matches the event. |
| Keyboard.CtrlBareChordIsBound | src/utils/keyboard.ts:37-149 | The ctrl chords that ignore shift and alt are in the table as they are. |
| Keyboard.PlainActionIsBound | src/utils/keyboard.ts:37-149 | Whatever a chord without ctrl dispatches has a chord in the table that matches the event. |
| Keyboard.DispatchedActionIsBound | src/utils/keyboard.ts:37-149 | Whatever the handler dispatches has a chord in the table that matches the event. |
| Keyboard.BoundFileActionIsDispatched | src/utils/keyboard.ts:37-149 | The ctrl chords for document files and export dispatch the action the table binds them to. |
| Keyboard.BoundEditActionIsDispatched | src/utils/keyboard.ts:37-149 | The ctrl chords for editing and nudging dispatch the action the table binds them to. |
| Keyboard.BoundZoomActionIsDispatched | src/utils/keyboard.ts:37-149 | The ctrl chords for workbench and timeline zoom dispatch the action the table binds them to. |
| Keyboard.BoundCtrlActionIsDispatched | src/utils/keyboard.ts:37-149 | A table chord with ctrl that matches the event names exactly the action the ctrl branch dispatches. |
| Keyboard.BoundPlainActionIsDispatched | src/utils/keyboard.ts:37-149 | A table chord without ctrl that matches the event names exactly the action the plain branch dispatches. |
| Keyboard.BoundActionIsDispatched | src/utils/keyboard.ts:37-149 | A table chord that matches the event names exactly the action the handler dispatches, so no chord is bound to two actions. |
| KeyframeEdits.NudgeKeyframe | src-tauri/src/document/transient.rs:526-533 | `Document::nudge_keyframe`: move a keyframe to a new offset, carrying its hitboxes along. |
| KeyframeEdits.NudgeKeyframeTwice | src-tauri/src/document/transient.rs:526-533 | Two nudges in a row land where the second alone would: only the final offset matters. |
| KeyframeEdits.NudgeKeyframeInPlace | src-tauri/src/document/transient.rs:526-533 | Nudging a keyframe to where it already is changes nothing. |
| KeyframeEdits.WithKeyframe | src-tauri/src/document/keyframe.rs:7-26 | frames, export settings and animation names unchanged; only the named slot holds the new keyframe |
| KeyframeEdits.SameDurationsSameRanges | src-tauri/src/document/keyframe.rs:7-12 | The time ranges of a sequence depend only on its durations. |
| KeyframeEdits.WithKeyframeKeepsWorkbench | src-tauri/src/document/keyframe.rs:7-12 | Replacing the keyframe under the clock by one of the same duration keeps it the keyframe under the clock, in the same animation and sequence. |
| KeyframeEdits.MapSelectedKeyframes | src-tauri/src/document/keyframe.rs:7-12 | Apply `f` to the keyframes of `animation` (named `name`) that are selected. |
| KeyframeEdits.EditSelectedKeyframes | src-tauri/src/document/keyframe.rs:7-12 | Apply `f` to every selected keyframe of the current animation; fails when there is none. |
| KeyframeEdits.EditSelectedKeyframesSpec | src-tauri/src/document/keyframe.rs:7-12 | What editing the selected keyframes does: the current animation keeps its shape, every selected keyframe of it becomes `f` of itself, every other keyframe and every other animation stays as it was. |
| KeyframeEdits.SetKeyframeDuration | src-tauri/src/document/keyframe.rs:7-12 | without a current animation the error is returned and the sheet is unchanged; otherwise every selected keyframe of it takes the duration and nothing else changes |
| KeyframeEdits.SetKeyframeOffsetX | src-tauri/src/document/keyframe.rs:14-19 | `Document::set_keyframe_offset_x`: new x offset for every selected keyframe, hitboxes following. |
| KeyframeEdits.SetKeyframeOffsetY | src-tauri/src/document/keyframe.rs:21-26 | without a current animation the error is returned and the sheet is unchanged; otherwise every selected keyframe is nudged to the new y offset, keeping its x |
| KeyframeEdits.SetOffsetXMovesHitboxes | src-tauri/src/document/keyframe.rs:14-19 | Setting the x offset changes only x: the y offset, frame, duration and hitbox sizes stay, and every hitbox moves horizontally by the change. |
| KeyframeEdits.CreateHitbox | src-tauri/src/document/keyframe.rs:28-36 | `Document::create_hitbox`: without a keyframe under the clock the error is returned and nothing changes; otherwise a default hitbox is added to that keyframe under the first free name among "New Hitbox", "New Hitbox 2", ..., it alone is selected and its rename begins. |
| KeyframeEdits.CreatedHitboxIsSelected | src-tauri/src/document/keyframe.rs:28-36 | After `create_hitbox`, the new hitbox, and only it, is the selected hitbox of the keyframe under the clock. |
| KeyframeEdits.RenameHitbox | src-tauri/src/document/keyframe.rs:38-50 | `Document::rename_hitbox`: rename a hitbox of the keyframe under the clock and select only it. |
| KeyframeEdits.DeleteHitbox | src-tauri/src/document/keyframe.rs:52-56 | `Document::delete_hitbox`: remove a hitbox from the keyframe under the clock, found through the mutable chain. |
| KeyframeEdits.SelectedHitboxNames | src-tauri/src/document/keyframe.rs:58-71 | The names of all selected hitboxes, whichever keyframe they were selected in. |
| KeyframeEdits.DeleteSelectedHitboxes | src-tauri/src/document/keyframe.rs:58-71 | `Document::delete_selected_hitboxes`: the sheet becomes `HitboxesDeleted` of the old sheet and view; the result is `Ok` either way; view, sessions, persistent state and history are kept. |
| KeyframeEdits.HitboxesDeleted | src-tauri/src/document/keyframe.rs:58-71 | Afterwards the keyframe under the clock is the same slot and keyframe with every selected hitbox name removed; without such a keyframe the sheet is unchanged; frames, animation names and every other animation are kept. |
| KeyframeEdits.MapHitboxes | src-tauri/src/document/keyframe.rs:73-79 | frame, duration, offset and hitbox names kept; exactly the named hitboxes are edited |
| KeyframeEdits.EditSelectedHitboxes | src-tauri/src/document/keyframe.rs:73-79 | Apply `f` to the selected hitboxes of the keyframe under the clock: it succeeds exactly when that keyframe resolves, replacing it by the keyframe with `f` applied to its selected hitboxes; otherwise the keyframe's error. |
| KeyframeEdits.SetHitboxPositionX | src-tauri/src/document/keyframe.rs:73-79 | without a keyframe under the clock the error is returned and the sheet is unchanged; otherwise each selected hitbox moves to the new x, keeping its y and size |
| KeyframeEdits.SetHitboxPositionY | src-tauri/src/document/keyframe.rs:81-87 | without a keyframe under the clock the error is returned and the sheet is unchanged; otherwise each selected hitbox moves to the new y, keeping its x and size |
| KeyframeEdits.SetHitboxPositionXSpec | src-tauri/src/document/keyframe.rs:73-87 | Setting a position coordinate moves the selected hitboxes of the keyframe under the clock to it, keeps their other coordinate and their size, and leaves the other hitboxes alone. |
| KeyframeEdits.ResizedToWidth | src-tauri/src/document/keyframe.rs:89-100 | The size `set_hitbox_width` gives: the new width, and a height that is kept, or scaled by new width over old width (rounded down) when the aspect ratio is preserved and the old width is not 0. |
| KeyframeEdits.ResizedToHeight | src-tauri/src/document/keyframe.rs:102-113 | the new height; the width is kept without the aspect lock or for a zero height, and otherwise scaled in proportion, rounded |
| KeyframeEdits.ResizeToSameSize | src-tauri/src/document/keyframe.rs:89-113 | Setting the width or height a hitbox already has leaves its size as it is. |
| KeyframeEdits.SetHitboxWidth | src-tauri/src/document/keyframe.rs:89-100 | without a keyframe under the clock the error is returned and the sheet is unchanged; otherwise each selected hitbox takes the size of resizing to the width |
| KeyframeEdits.SetHitboxHeight | src-tauri/src/document/keyframe.rs:102-113 | without a keyframe under the clock the error is returned and the sheet is unchanged; otherwise each selected hitbox takes the size of resizing to the height |
| LegacyApps.Paths | src-tauri/src/state/app.rs:72-89 | one path per document, in order |
| LegacyApps.Find | src-tauri/src/state/app.rs:72-89 | The index of the first document with `path`, as `iter().position` finds it. |
| LegacyApps.RemoveAt | src-tauri/src/state/app.rs:72-89 | The sequence without its element at `index`, as `Vec::remove` leaves it. |
| LegacyApps.FocusAfterClose | src-tauri/src/state/app.rs:72-89 | The path that receives the focus once the entry at `index` has been removed, leaving `remaining`: the entry now at `index`, or the last one when the removed entry was the last, or nothing when none is left. |
| LegacyApps.FocusGoesToNeighbour | src-tauri/src/state/app.rs:72-89 | Closing hands the focus to a neighbour of the closed entry: the one that followed it, or the one before it when it was the last. |
| LegacyApps.RemoveKeepsUnique | src-tauri/src/state/app.rs:72-89 | Removing an entry keeps the others distinct and drops the removed one. |
| LegacyApps.Focused | src-tauri/src/state/app.rs:40-47 | `focus_document` on the list: the document at `path` gets default transient state. |
| LegacyApps.Opened | src-tauri/src/state/app.rs:32-38 | `open_document` on the list: append the document unless its path is open, then focus it. |
| LegacyApps.OpenKeepsPathsUnique | src-tauri/src/state/app.rs:32-38 | Opening never lists a path twice, and opening the same document again changes nothing more. |
| LegacyApps.Closed | src-tauri/src/state/app.rs:72-89 | `close_document` on the list and the focus; an unknown path changes neither. |
| LegacyApps.CloseRemovesDocument | src-tauri/src/state/app.rs:72-89 | Closing an open document removes its path from the list, keeps the paths distinct, and leaves the focus on a document that is still open. |
| LegacyApps.OpenTwoCloseSecond | src-tauri/src/state/app.rs:122-143 | Opening two documents and closing the second leaves the first one focused. |
| LegacyApps.Acknowledged | src-tauri/src/state/app.rs:95-99 | the oldest message leaves the queue and the rest stay in order; an empty queue stays empty |
| LegacyApps.AcknowledgeInOrder | src-tauri/src/state/app.rs:95-99 | The queue is first in, first out: after `count` acknowledgements exactly the messages shown after the first `count` remain, in order. |
| LegacyApps.App.constructor | src-tauri/src/state/app.rs:19-25 | no document, no focus and no error; the app is well formed |
| LegacyApps.App.OpenDocument | src-tauri/src/state/app.rs:32-38 | the list becomes that of opening the document, which is focused; errors are kept and the app stays well formed |
| LegacyApps.App.FocusDocument | src-tauri/src/state/app.rs:40-47 | an unknown path is the not-found error; otherwise the document is focused with its transient state reset |
| LegacyApps.App.CurrentDocument | src-tauri/src/state/app.rs:49-54 | `current_document`: the focused document, if the focused path is still open. |
| LegacyApps.App.CloseDocument | src-tauri/src/state/app.rs:72-89 | the list and the focus become those of closing the path; errors are kept and the app stays well formed |
| LegacyApps.App.ShowErrorMessage | src-tauri/src/state/app.rs:91-93 | the message joins the end of the queue; documents and focus are kept |
| LegacyApps.App.AcknowledgeError | src-tauri/src/state/app.rs:95-99 | the queue becomes that of acknowledging its oldest message; documents and focus are kept |
| LegacyDocuments.WorkbenchAnimation | src-tauri/src/state/document.rs:416-427 | `get_workbench_animation`: the animation named by the view, with the error for each missing part. |
| LegacyDocuments.WorkbenchSequence | src-tauri/src/state/document.rs:405-414 | `get_workbench_sequence`: it resolves exactly when the edited animation resolves and has a sequence in the current direction, to that direction and sequence; otherwise the error names what is missing. |
| LegacyDocuments.SlotsIn | src-tauri/src/state/document.rs:177-210 | The keyframes of `animation` among `slots`, each once, in the order `sequences_iter` and `keyframes_iter` visit them: by direction, then by index. |
| LegacyDocuments.FramePool | src-tauri/src/state/document.rs:177-210 | one source per frame, in the sheet's order |
| LegacyDocuments.SelectionEdit | src-tauri/src/state/document.rs:177-210 | The edit `alter_selection` applies for a click: the clicked item with every item of its kind in list order. Keyframes need an edited animation. A click on a hitbox stops the program, so callers never make one. |
| LegacyDocuments.KeyframeClickSelects | src-tauri/src/state/document.rs:177-210 | A plain click on a keyframe of the edited animation selects that keyframe alone and nothing of any other kind; a click on a keyframe the animation does not have keeps the keyframe selection and still clears the other kinds. |
| LegacyDocuments.EditedView | src-tauri/src/state/document.rs:223-240 | The view `edit_animation` leaves: the animation edited from its start, centred, on its first direction. |
| LegacyDocuments.EditedViewResolves | src-tauri/src/state/document.rs:223-240 | After editing an animation of the sheet, the view resolves to that animation, and to a sequence of it exactly when it has one. |
| LegacyDocuments.RenamedView | src-tauri/src/state/document.rs:242-255 | `rename_animation` on the view: the new name is the only selection, and the edited animation follows the rename. |
| LegacyDocuments.RenameKeepsWorkbench | src-tauri/src/state/document.rs:242-255 | Renaming keeps the workbench on the same animation, whichever was edited. |
| LegacyDocuments.DeletedView | src-tauri/src/state/document.rs:257-265 | `delete_animation` on the view: the name leaves the animation selection, and is no longer edited. |
| LegacyDocuments.DeleteForgetsAnimation | src-tauri/src/state/document.rs:257-265 | After a deletion the deleted animation is neither selected nor edited, and the workbench resolves exactly when it resolved before to another animation. |
| LegacyDocuments.AdvancedSpec | src-tauri/src/state/document.rs:272-303 | What playback guarantees: a paused timeline does not move; a playing one on a sequence of positive duration `d` ends inside it, below `d` and still playing when looping, at most `d` otherwise, and stopped exactly when it reached `d`. Nothing but the clock changes. |
| LegacyDocuments.AdvancedLoopingComposes | src-tauri/src/state/document.rs:272-303 | Playing a looping animation for `a` then `b` milliseconds is playing it for `a + b`. |
| LegacyDocuments.Played | src-tauri/src/state/document.rs:305-324 | `play`, once the timeline is known to be paused: the clock goes back to the start when it sits at or past the end, and a selection holding hitboxes or keyframes is cleared entirely. |
| LegacyDocuments.PlayedSpec | src-tauri/src/state/document.rs:305-324 | After `play` nothing of the selection is a hitbox or a keyframe, and a non-empty sequence of positive duration plays from a point before its end, so the first tick does not stop it at once. |
| LegacyDocuments.Scrubbed | src-tauri/src/state/document.rs:330-339 | `scrub_timeline`: it succeeds exactly when the workbench sequence resolves, moving only the clock, to the time clamped to the sequence's duration (0 for an empty one). |
| LegacyDocuments.SelectedSlots | src-tauri/src/state/document.rs:442-465 | `get_selected_keyframes`: the selected keyframes of the edited animation, in iteration order. |
| LegacyDocuments.DragView | src-tauri/src/state/document.rs:349-368 | The view `begin_drag_keyframe_duration` drags from: the dragged keyframe is selected alone unless already selected. |
| LegacyDocuments.BegunDrag | src-tauri/src/state/document.rs:349-368 | The drag `begin_drag_keyframe_duration` starts: it begins exactly when an animation is being edited, holding the dragged keyframe and the duration of every existing selected keyframe; without an edited animation it fails, though the selection has already changed. |
| LegacyDocuments.AsRanges | src-tauri/src/state/document.rs:370-403 | The original durations as ranges starting at 0, whose lengths are the durations. |
| LegacyDocuments.DragUpdated | src-tauri/src/state/document.rs:370-403 | `update_drag_keyframe_duration`: the delta is shared, rounding toward zero, among the selected keyframes of the dragged direction up to the dragged index; each selected keyframe in turn takes its original duration moved by that share, saturating, and at least 20 ms. A keyframe without an original duration stops the loop with an error, keeping the durations already set. |
| LegacyDocuments.DragUpdatedSpec | src-tauri/src/state/document.rs:370-403 | The update fails exactly when a selected keyframe has no original duration; when it succeeds, every selected keyframe of the edited animation holds its original duration moved by the shared delta, at least 20 ms, and nothing else of the animation changed. |
| LegacyDocuments.BegunDragCoversSelection | src-tauri/src/state/document.rs:370-403 | A drag begun on the current selection never misses an original duration while the sheet and view stay as they were: the update succeeds. |
| LegacyDocuments.Document.constructor | src-tauri/src/state/document.rs:100-115 | `Document::new`: an empty sheet, the default view, and a history of that one state at version 0. |
| LegacyDocuments.Document.MarkAsSaved | src-tauri/src/state/document.rs:145-147 | only the saved version changes, to the one given |
| LegacyDocuments.Document.ClearTransient | src-tauri/src/state/document.rs:157-159 | the drag in progress is dropped; nothing else changes |
| LegacyDocuments.Document.RequestClose | src-tauri/src/state/document.rs:161-163 | only the close-requested flag changes, to set |
| LegacyDocuments.Document.CancelClose | src-tauri/src/state/document.rs:165-167 | only the close-requested flag changes, to cleared |
| LegacyDocuments.Document.AlterSelection | src-tauri/src/state/document.rs:177-210 | `alter_selection`: the clicked kind is altered against its list, and every other kind cleared. |
| LegacyDocuments.Document.EditAnimation | src-tauri/src/state/document.rs:223-240 | `edit_animation`: an animation of the sheet becomes the edited one, from its start, paused. |
| LegacyDocuments.Document.CreateAnimation | src-tauri/src/state/document.rs:212-221 | `create_animation`: a new empty animation under a fresh name, selected alone and edited. |
| LegacyDocuments.Document.RenameAnimation | src-tauri/src/state/document.rs:242-255 | `rename_animation`: the sheet's rename, then the selection and the edited animation follow. |
| LegacyDocuments.Document.DeleteAnimation | src-tauri/src/state/document.rs:257-265 | `delete_animation`: the animation leaves the sheet, the selection and the workbench. |
| LegacyDocuments.Document.Tick | src-tauri/src/state/document.rs:267-270 | the view and playing flag become those of advancing the timeline by the delta; nothing else changes |
| LegacyDocuments.Document.Play | src-tauri/src/state/document.rs:305-324 | `play`: nothing when already playing; otherwise needs a current sequence. |
| LegacyDocuments.Document.Pause | src-tauri/src/state/document.rs:326-328 | only the playing flag changes, to paused |
| LegacyDocuments.Document.ScrubTimeline | src-tauri/src/state/document.rs:330-339 | without a current sequence the error is returned and the view is unchanged; otherwise the clock moves to the time clamped to the sequence; nothing else changes |
| LegacyDocuments.Document.ApplyDirectionPreset | src-tauri/src/state/document.rs:341-347 | `apply_direction_preset` on the edited animation; the current direction is left as it was. |
| LegacyDocuments.Document.BeginDragKeyframeDuration | src-tauri/src/state/document.rs:349-368 | `begin_drag_keyframe_duration`: select the keyframe unless selected, then note every selected duration. |
| LegacyDocuments.Document.UpdateDragKeyframeDuration | src-tauri/src/state/document.rs:370-403 | `update_drag_keyframe_duration`: every selected duration becomes its dragged one. |
| LegacyDocuments.Document.Undo | src-tauri/src/state/document.rs:528-536 | `undo`: step back in history, restoring its sheet and view and pausing, unless at the first entry. |
| LegacyDocuments.Document.Redo | src-tauri/src/state/document.rs:538-546 | `redo`: step forward in history, restoring its sheet and view and pausing, unless at the last entry. |
| LegacyDocuments.Document.RecordCommand | src-tauri/src/state/document.rs:500-526 | `record_command`, with a pushed view-only entry keeping the version of its sheet. |
| LegacyDocuments.Document.DispatchContentCommand | src-tauri/src/state/document.rs:560-603 | each content command has the effect `ContentEffect` states: importing frames adds them; a selection click alters the selection of its kind, failing on an item outside the sheet; creating an animation adds an empty one under a fresh name, selected and edited; editing, renaming and deleting an animation change the sheet and view as their operations do, or fail with nothing changed; the direction preset reshapes the edited animation; the history and the drag are kept |
| LegacyDocuments.Document.DispatchTimelineCommand | src-tauri/src/state/document.rs:560-603 | each timeline command has the effect `TimelineEffect` states: tick advances playback; play restarts a paused timeline or fails without a sequence; pause stops; scrub moves the clock; beginning a duration drag selects the keyframe and notes the durations; updating it sets the dragged durations; the history is kept |
| LegacyDocuments.Document.Dispatch | src-tauri/src/state/document.rs:560-603 | The match of `process_command`: a view command sets its view field; a content or timeline command has its group's effect; undo and redo move the history as `Undone` and `Redone` say and restore the entry's sheet and view, pausing; every command but undo and redo keeps the history. |
| LegacyDocuments.Document.ProcessCommand | src-tauri/src/state/document.rs:560-603 | `process_command`: the dispatched state `dispatched` is the command's effect (view, content, timeline) on the state before; on failure it is returned at once, with the history kept; otherwise any drag ends unless the command begins or continues one, and the command is recorded: the history becomes `RecordedIntended` of the history before (or of its undone or redone version for undo and redo), whose current entry equals the document. |
| LegacyHistory.Started | src-tauri/src/state/document.rs:100-115 | `Document::new`: one entry, version 0, the cursor on it. |
| LegacyHistory.Pushed | src-tauri/src/state/document.rs:489-498 | `push_undo_state`: the entries after the cursor are dropped, the new entry goes last with the cursor on it, and the oldest entries go until the cap holds. The entry the cursor was on comes right before it. |
| LegacyHistory.WithCurrentView | src-tauri/src/state/document.rs:500-526 | the cursor, length and next version are kept; the entry under the cursor takes the view and every other entry is unchanged |
| LegacyHistory.Recorded | src-tauri/src/state/document.rs:500-526 | `record_command`, as written: a changed sheet advances the version and pushes; a view-only change merges or pushes an entry that carries the latest version number, whichever sheet the cursor is on. |
| LegacyHistory.RecordedIntended | src-tauri/src/state/document.rs:500-526 | `record_command` as evidently intended: identical, except that a pushed view-only entry carries the version of the entry it was made from, since its sheet is that entry's sheet. |
| LegacyHistory.RecordedIntendedDiffersOnlyThere | src-tauri/src/state/document.rs:500-526 | The two rules differ only on a pushed view-only change. |
| LegacyHistory.RecordedReflectsDocument | src-tauri/src/state/document.rs:500-526 | After recording, the entry under the cursor holds the sheet and view recorded; the version advances exactly when the sheet changed, and the new entry then carries that version and the command. |
| LegacyHistory.ViewChangesMerge | src-tauri/src/state/document.rs:500-526 | A view change under a mergeable entry does not grow the history. |
| LegacyHistory.Undone | src-tauri/src/state/document.rs:528-536 | `Document::undo` on the history: one step back, unless at the first entry. |
| LegacyHistory.Redone | src-tauri/src/state/document.rs:538-546 | `Document::redo` on the history: one step forward, unless at the last entry. |
| LegacyHistory.UndoCommand | src-tauri/src/state/document.rs:548-550 | the command that made the entry under the cursor |
| LegacyHistory.RedoCommand | src-tauri/src/state/document.rs:552-558 | none at the last entry; otherwise the command that made the next entry |
| LegacyHistory.UndoRedoInverse | src-tauri/src/state/document.rs:528-546 | Undo then redo, and redo then undo, come back to the same place. |
| LegacyHistory.UndoneCommandIsRedoable | src-tauri/src/state/document.rs:528-558 | What undo offers to undo is what redo then offers to redo. |
| LegacyHistory.SheetChangeUndoable | src-tauri/src/state/document.rs:500-536 | Undoing a recorded sheet change brings back the entry the change was made from; nothing is left to redo before it. |
| LegacyHistory.PushedEntries | src-tauri/src/state/document.rs:489-498 | Everything in a pushed history comes from before, except the new entry. |
| LegacyHistory.PushedKeepsVersions | src-tauri/src/state/document.rs:489-498 | Pushing an entry keeps versions naming sheets when its version is not beyond the counter and names its sheet already. |
| LegacyHistory.WithCurrentViewKeepsVersions | src-tauri/src/state/document.rs:500-526 | Changing the view under the cursor keeps versions naming sheets. |
| LegacyHistory.RecordedIntendedKeepsVersions | src-tauri/src/state/document.rs:500-526 | the corrected rule keeps every version naming a single sheet |
| LegacyHistory.SameVersionSameSheet | src-tauri/src/state/document.rs:141-147 | With the corrected rule, a saved version that the cursor shows again means the sheet saved: a document that reports itself saved holds the sheet of the entry that was saved. |
| LegacyHistory.SavedAfterUndoThenViewChange | src-tauri/src/state/document.rs:500-526 | The rule as written breaks this: record a change of the sheet, save, undo, then change only the view. The new entry reuses the saved version number while holding the sheet from before the saved change. |
| LegacySelections.Made | src-tauri/src/state/selection.rs:122-127 | `MultiSelectionData::new`: exactly `items`, pivoting on the last one. |
| LegacySelections.Span | src-tauri/src/state/selection.rs:154-192 | The pool slice between two positions, both included. |
| LegacySelections.Alter | src-tauri/src/state/selection.rs:154-192 | `MultiSelectionData::alter` against the ordered pool of every selectable item: nothing happens when the item is not in the pool; otherwise a plain click selects it alone, ctrl toggles it, shift selects the span from the pivot (position 0 when the pivot is unknown), and shift+ctrl adds that span when the pivot is selected and removes it otherwise. Ctrl moves the pivot to the item. |
| LegacySelections.Removed | src-tauri/src/state/selection.rs:137-143 | `remove`: the item leaves the selected set; the pivot stays. |
| LegacySelections.Altered | src-tauri/src/state/selection.rs:58-85 | `MultiSelection::alter`: the edited kind is altered and the other three are cleared. |
| LegacySelections.FrameSelected | src-tauri/src/state/selection.rs:43-46 | exactly that frame is selected; the other kinds are cleared |
| LegacySelections.AnimationSelected | src-tauri/src/state/selection.rs:48-51 | exactly that animation is selected; the other kinds are cleared |
| LegacySelections.KeyframeSelected | src-tauri/src/state/selection.rs:53-56 | exactly that keyframe is selected; the other kinds are cleared |
| LegacySelections.MultipleRanges | src-tauri/src/state/selection.rs:292-304 | Shift-click 5 from 2, ctrl-click 10, then shift+ctrl-click 15: the selection is 2..=5 together with 10..=15, pivoting on 15. |
| LegacySelections.RevertToSingleRange | src-tauri/src/state/selection.rs:306-316 | ... and a plain shift-click on 12 afterwards leaves only 12..=15, spanned from the pivot 15. |
| LegacySelections.RemoveRangeFromUnselectedPivot | src-tauri/src/state/selection.rs:318-339 | With 2..=5 and 10..=18 selected, ctrl-click 16 off, then shift+ctrl-click 12 from the now unselected pivot 16: 12..=16 is removed, splitting the second range in two. |
| LegacyTabs.Sources | src/state/app.rs:206-216 | one source per tab, in order |
| LegacyTabs.FindTab | src/state/app.rs:198-216 | The index of the first tab showing `path`. |
| LegacyTabs.WithNewTab | src/state/app.rs:206-216 | `end_new_document` on the list: a fresh tab replaces the one at `path`, or is appended. |
| LegacyTabs.NewTabKeepsSourcesUnique | src/state/app.rs:206-216 | Adding or replacing a tab never shows a path twice. |
| LegacyTabs.Relocated | src/state/app.rs:227-242 | the same tabs, with only the tab at the index now showing the new path |
| LegacyTabs.RelocateToFreePathKeepsUnique | src/state/app.rs:227-242 | Relocating onto a path that no tab shows keeps the paths distinct and drops the old one. |
| LegacyTabs.RelocateOntoOpenPathDuplicates | src/state/app.rs:227-242 | Relocating onto a path that another tab already shows leaves two tabs with that path: nothing in `relocate_document` checks the target. |
| LegacyTabs.ClosedCurrent | src/state/app.rs:249-267 | The tabs and focus after `close_current_document`, or the error it returns. |
| LegacyTabs.CloseCurrentRemovesTab | src/state/app.rs:249-267 | Closing the focused tab removes its path and leaves the focus on a remaining tab. |
| LegacyTabs.AppState.constructor | src/state/app.rs:127-134 | no tab, no focus and the clock at 0; the state is well formed |
| LegacyTabs.AppState.Tick | src/state/app.rs:136-145 | the application clock advances by the delta; tabs and focus are kept |
| LegacyTabs.AppState.AddTab | src/state/app.rs:244-247 | the tab joins the end of the list; focus and clock are kept and the paths stay distinct |
| LegacyTabs.AppState.EndNewDocument | src/state/app.rs:206-216 | the tabs become those of adding a fresh tab at the path, which is focused; the state stays well formed |
| LegacyTabs.AppState.EndOpenDocument | src/state/app.rs:218-225 | `end_open_document`: a path without a tab is read from disk into a new tab, and then focused. `readSucceeds` stands for the outcome of reading the sheet file; a failed read changes nothing. |
| LegacyTabs.AppState.RelocateDocument | src/state/app.rs:227-242 | `relocate_document`: the first tab showing `from` now shows `to`, and the focus follows it when it was on `from`. |
| LegacyTabs.AppState.CloseCurrentDocument | src/state/app.rs:249-267 | without a focused tab the no-document error is returned and nothing changes; otherwise tabs and focus become those of closing it |
| LegacyTabs.AppState.CloseAllDocuments | src/state/app.rs:269-272 | no tab and no focus remain; the clock is kept |
| LegacyTabs.AppState.FocusDocument | src/state/app.rs:304-308 | the focus moves to the path exactly when a tab shows it; tabs and clock are kept |
| LegacyViews.HalfTowardZero | src-tauri/src/state/view.rs:89-145 | Rust's `/ 2` on `i32`, which rounds toward zero. |
| LegacyViews.ZoomInLevel | src-tauri/src/state/view.rs:123-133 | One zoom-in step on a signed level, capped at `cap`. |
| LegacyViews.ZoomOutLevel | src-tauri/src/state/view.rs:134-144 | One zoom-out step on a signed level, floored at `floor`. |
| LegacyViews.WorkbenchZoomKeepsLevels | src-tauri/src/state/view.rs:89-113 | Zooming the workbench in or out keeps it on a reachable level, so the level is never 0, -1 or -3: the factor is never zero and never 1/1 or 1/3. |
| LegacyViews.TimelineZoomKeepsLevels | src-tauri/src/state/view.rs:123-147 | The same holds for the timeline, with a cap of 4 and a floor of -4. |
| LegacyViews.ZoomOutThenIn | src-tauri/src/state/view.rs:89-147 | Zooming out and back in returns to the level, everywhere but at the floor. |
| LegacyViews.ZoomNeverReachesForbiddenLevels | src-tauri/src/state/view.rs:89-147 | From the default level, no series of zoom steps reaches 0, -1 or -3. |
| LegacyViews.DefaultView | src-tauri/src/state/view.rs:26-37 | `View::default`: the frames tab, nothing edited, no offset, the clock at 0, both zoom levels at 1. |
| LegacyViews.ZoomingKeepsViewValid | src-tauri/src/state/view.rs:89-147 | Every zoom step and reset keeps a valid view valid, so its zoom levels stay among the reachable ones; each step touches only its own level, and panning by a delta and back returns the offset. |
| LegacyViews.ZoomInUnsigned | src-tauri/src/state/view.rs:89-98 | `zoom_in_workbench` on the unsigned level: double, at most 32. |
| LegacyViews.ZoomOutUnsigned | src-tauri/src/state/view.rs:100-109 | `zoom_out_workbench` on the unsigned level: halve, at least 1. |
| LegacyViews.UnsignedZoomStaysInRange | src-tauri/src/state/view.rs:89-109 | On the levels between 1 and 32 the unsigned steps stay between 1 and 32, and zooming in undoes zooming out on even levels. |
| LegacyViews.CaseSensitiveFilterKeeps | src-tauri/src/state/document/view.rs:154-175 | A blank filter hides nothing, and a name typed as the filter is never hidden. |
| LiquidExport.HitboxData | src/export/mod.rs:39-49 | `liquid_data_from_hitbox`: the rectangle's edges, the far ones one size away from the near ones. |
| LiquidExport.FrameData | src/export/mod.rs:61-83 | `liquid_data_from_frame`: the frame's position in the sheet's frame list and its place in the packed texture. A frame that is not in the sheet is reported before a frame that was not packed. |
| LiquidExport.GetFrame | src/export/mod.rs:95-127 | The first frame whose source is the given path, as `Sheet::get_frame` finds it. |
| LiquidExport.HitboxesData | src/export/mod.rs:95-127 | The hitboxes of a keyframe in the keyframe's own order. |
| LiquidExport.KeyframeData | src/export/mod.rs:95-127 | `liquid_data_from_keyframe`: the top-left corner lies half the packed size (rounded down) before the keyframe's centre offset. A frame that was not packed is reported before a frame the sheet does not have. |
| LiquidExport.KeyframeCentred | src/export/mod.rs:95-127 | The keyframe's frame is centred on its offset, to within half a pixel. |
| LiquidExport.BuildKeyframe | src/export/mod.rs:95-127 | The hitbox loop of `liquid_data_from_keyframe`, pushing each hitbox in turn. |
| LiquidExport.AnimationData | src/export/mod.rs:136-152 | `liquid_data_from_animation`: the name, the looping flag and the keyframes in timeline order. |
| LiquidExport.AnimationDataSucceeds | src/export/mod.rs:136-152 | An animation converts exactly when each keyframe shows a packed frame of the sheet. |
| LiquidExport.BuildAnimation | src/export/mod.rs:136-152 | The keyframe loop of `liquid_data_from_animation`, returning on the first failure. |
| LiquidExport.SheetData | src/export/mod.rs:161-195 | `liquid_data_from_sheet`: the frames, then the animations, each in sheet order, then the texture path relative to the metadata root. `diffPaths` stands for the path-relativising library. |
| LiquidExport.SheetDataSucceeds | src/export/mod.rs:161-195 | The template data is built exactly when every frame of the sheet was packed, every keyframe shows a packed frame of the sheet, and the texture path can be made relative to the metadata root. |
| LiquidExport.FramesDataSucceed | src/export/mod.rs:161-195 | The frame list is built exactly when every frame of the sheet was packed. |
| LiquidExport.AnimationsDataSucceed | src/export/mod.rs:161-195 | The animation list is built exactly when every keyframe shows a packed frame of the sheet. |
| LiquidExport.FramesInSheetOrder | src/export/mod.rs:161-195 | The frames of the template data follow the sheet's frame list, and when no two frames share a source each one is numbered by its place in that list. |
| LiquidExport.BuildSheet | src/export/mod.rs:161-195 | The frame and animation loops of `liquid_data_from_sheet`, each returning on the first failure. |
| Metadata.WithForwardSlashes | src-tauri/src/export/metadata.rs:276-276 | `with_forward_slashes`: every backslash becomes a forward slash. |
| Metadata.ForwardSlashesIdempotent | src-tauri/src/export/metadata.rs:276 | converting slashes twice is converting them once |
| Metadata.SortedSources | src-tauri/src/export/metadata.rs:219-258 | The order frames are listed in: by source path, each source once. |
| Metadata.FrameMetadata | src-tauri/src/export/metadata.rs:90-112 | `Frame::new`: the frame's position among the sorted frames, with its place in the packed texture. |
| Metadata.HitboxMetadata | src-tauri/src/export/metadata.rs:69-77 | `Hitbox::new` of the metadata: the name, the top-left corner and the size. |
| Metadata.HitboxesMetadata | src-tauri/src/export/metadata.rs:125-154 | one entry per hitbox of the keyframe, in ascending name order |
| Metadata.KeyframeMetadata | src-tauri/src/export/metadata.rs:125-154 | `Keyframe::new` of the metadata: the packed size of the keyframe's frame places its top-left corner half that size (rounded down) before the keyframe's offset. A frame that was not packed is reported before a frame the sheet does not have. |
| Metadata.KeyframeCentredOnOffset | src-tauri/src/export/metadata.rs:125-154 | The keyframe of a metadata entry is centred on its offset, to within half a pixel. |
| Metadata.KeyframeResults | src-tauri/src/export/metadata.rs:164-180 | one conversion per keyframe, in order |
| Metadata.SequenceMetadata | src-tauri/src/export/metadata.rs:164-180 | `Sequence::new` of the metadata: the keyframes in timeline order. |
| Metadata.SequenceMetadataSucceeds | src-tauri/src/export/metadata.rs:164-180 | A sequence converts exactly when each of its keyframes shows a packed frame of the sheet. |
| Metadata.KeyframeToMetadata | src-tauri/src/export/metadata.rs:125-154 | `Keyframe::new`: the loop over the hitboxes in name order around the lookups. |
| Metadata.HitboxesToMetadata | src-tauri/src/export/metadata.rs:125-154 | The hitbox loop of `Keyframe::new`, in name order. |
| Metadata.HitboxesNamed | src-tauri/src/export/metadata.rs:125-154 | one entry per name, in the order of the names |
| Metadata.SequenceToMetadata | src-tauri/src/export/metadata.rs:164-180 | `Sequence::new`: the loop over the keyframes, returning on the first failure. |
| Metadata.Kept | src-tauri/src/export/metadata.rs:191-208 | exactly the directions kept, still in direction order |
| Metadata.SortedDirections | src-tauri/src/export/metadata.rs:191-208 | The directions of an animation in `Direction` order, as its ordered map iterates them. |
| Metadata.SequenceResults | src-tauri/src/export/metadata.rs:191-208 | one conversion per sequence of the animation, in direction order |
| Metadata.AnimationMetadata | src-tauri/src/export/metadata.rs:191-208 | `Animation::new` of the metadata: the sequences in direction order. |
| Metadata.AnimationMetadataSucceeds | src-tauri/src/export/metadata.rs:191-208 | An animation converts exactly when each of its sequences does. |
| Metadata.AnimationToMetadata | src-tauri/src/export/metadata.rs:191-208 | `Animation::new`: the loop over the sequences, returning on the first failure. |
| Metadata.FrameResults | src-tauri/src/export/metadata.rs:219-258 | one conversion per frame source, in path order |
| Metadata.FramesMetadata | src-tauri/src/export/metadata.rs:219-258 | The frame list of the sheet data: a failure can only be a frame of the sheet that was not packed. |
| Metadata.FramesMetadataSucceeds | src-tauri/src/export/metadata.rs:219-258 | The frame list is built exactly when every frame of the sheet was packed. |
| Metadata.AnimationResults | src-tauri/src/export/metadata.rs:219-258 | one conversion per animation, in name order |
| Metadata.AnimationsMetadata | src-tauri/src/export/metadata.rs:219-258 | The animation list of the sheet data, in name order. |
| Metadata.AnimationsMetadataSucceeds | src-tauri/src/export/metadata.rs:219-258 | The animation list is built exactly when every animation converts. |
| Metadata.SheetMetadata | src-tauri/src/export/metadata.rs:219-258 | `Sheet::new` of the metadata: the frames in path order, the animations in name order, and the texture path relative to the metadata root with forward slashes. `diffPaths` stands for the path-relativising library. `generate_sheet_metadata` hands this to the template of the only kind of export settings there is. |
| Metadata.SheetMetadataSucceeds | src-tauri/src/export/metadata.rs:219-258 | The metadata of a sheet is built exactly when every frame of the sheet was packed, every keyframe shows a packed frame of the sheet, and the texture path can be made relative to the metadata root. |
| Metadata.AnimationsKeyframesSucceed | src-tauri/src/export/metadata.rs:219-258 | The animation list is built exactly when every keyframe of every sequence shows a packed frame of the sheet. |
| Metadata.AnimationKeyframesSucceed | src-tauri/src/export/metadata.rs:219-258 | An animation converts exactly when each keyframe of each of its sequences shows a packed frame of the sheet. |
| Metadata.FramesToMetadata | src-tauri/src/export/metadata.rs:219-258 | The frame loop of `Sheet::new`, returning on the first failure. |
| Metadata.AnimationsToMetadata | src-tauri/src/export/metadata.rs:219-258 | The animation loop of `Sheet::new`, returning on the first failure. |
| Metadata.SheetToMetadata | src-tauri/src/export/metadata.rs:219-258 | `Sheet::new`: the frames, then the animations, then the texture path. |
| Metadata.FramesNumberedInOrder | src-tauri/src/export/metadata.rs:219-258 | The frames of the sheet data are numbered by their own position in the list. |
| Metadata.KeyframeFrameListed | src-tauri/src/export/metadata.rs:219-258 | The frame a keyframe entry refers to is the entry of the frame list at its index. |
| Migrations.SettingsV1ToV2 | src-tauri/src/sheet/compat/version2.rs:157-166 | Tiger2's `ExportSettings::from` a Tiger1 one: the new root is the metadata destination. |
| Migrations.SheetV1ToV2 | src-tauri/src/sheet/compat/version2.rs:78-86 | Tiger2's `Sheet::from` a Tiger1 sheet: frames and animations carry over unchanged. |
| Migrations.SettingsV2ToV3 | src/sheet/compat/version3.rs:178-187 | Tiger3's `ExportSettings::from` a Tiger2 one: the stored root is replaced by the metadata destination. |
| Migrations.KeyframeV2ToV3 | src/sheet/compat/version3.rs:99-108 | A keyframe starts Tiger3 with no hitboxes. |
| Migrations.AnimationsV2ToV3 | src/sheet/compat/version3.rs:70-78 | one animation per animation, same name, looping flag and keyframes in order, each keyframe starting without hitboxes |
| Migrations.Moved | src/sheet/compat/version3.rs:33-61 | A frame's hitbox as it lands on a keyframe showing that frame: moved by the keyframe's offset, linked and unlocked. |
| Migrations.MovedAll | src/sheet/compat/version3.rs:33-61 | every hitbox moved by the same offset, in order |
| Migrations.FrameHitboxes | src/sheet/compat/version3.rs:33-61 | The reference for the hitbox migration: the hitboxes of every frame whose source is `source`, in frame order and each frame's hitbox order, moved by `offset`. |
| Migrations.HitboxesPushedAppends | src/sheet/compat/version3.rs:33-61 | Pushing the hitboxes of one frame appends them, moved, to each keyframe showing it. |
| Migrations.HitboxesMigratedAppends | src/sheet/compat/version3.rs:33-61 | The migration loop nest computes the reference: each keyframe gains `FrameHitboxes` of its frame. |
| Migrations.SheetV2ToV3 | src/sheet/compat/version3.rs:33-61 | Tiger3's `Sheet::from` a Tiger2 sheet: frames keep only their source, animations and keyframes carry over, and each keyframe receives the hitboxes of every frame with its source, moved by its offset. |
| Migrations.FramesWithoutHitboxesAddNothing | src/sheet/compat/version3.rs:33-61 | A frame with no hitboxes contributes nothing to any keyframe. |
| Migrations.PushToTimeline | src/sheet/compat/version3.rs:33-61 | The innermost loop, over the keyframes of one animation. |
| Migrations.PushToAnimations | src/sheet/compat/version3.rs:33-61 | The loop over the animations, for one hitbox of one frame. |
| Migrations.MigrateHitboxes | src/sheet/compat/version3.rs:33-61 | The two outer loops of the migration, over the frames and their hitboxes. |
| Migrations.UpgradeV2ToV3 | src/sheet/compat/version3.rs:33-61 | the loops compute the Tiger3 sheet the conversion specifies, whose lemmas say each keyframe gains the moved hitboxes of its frame |
| Migrations.HitboxPairs | src-tauri/src/sheet/version4.rs:177-191 | one (name, geometry) pair per hitbox, in order |
| Migrations.HitboxesByName | src-tauri/src/sheet/version4.rs:177-191 | Tiger4's hitbox map: each hitbox by its name, keeping only its geometry. |
| Migrations.KeyframeV3ToV4 | src-tauri/src/sheet/version4.rs:177-191 | Tiger4's `Keyframe::from`: hitboxes by name, dropping their linked and locked flags. |
| Migrations.AnimationV3ToV4 | src-tauri/src/sheet/version4.rs:153-169 | Tiger4's `Animation::from`: the timeline becomes the one sequence, facing East. |
| Migrations.SettingsV3ToV4 | src-tauri/src/sheet/version4.rs:219-230 | Tiger4's `ExportSettings::from`: Liquid settings, with the metadata destination as the root. |
| Migrations.AnimationPairs | src-tauri/src/sheet/version4.rs:139-151 | one (name, converted animation) pair per animation, in order |
| Migrations.SheetV3ToV4 | src-tauri/src/sheet/version4.rs:139-151 | Tiger4's `Sheet::from` a Tiger3 sheet: frames carry over, animations are collected by name (a later animation replaces an earlier one of the same name), and each faces East only. |
| Migrations.LastAnimationOfANameWins | src-tauri/src/sheet/version4.rs:139-151 | Of several Tiger3 animations sharing a name, the last one is the one Tiger4 keeps. |
| Migrations.LastHitboxOfANameWins | src-tauri/src/sheet/version4.rs:177-191 | Of several hitboxes of a keyframe sharing a name, the last one is the one Tiger4 keeps. |
| Migrations.ReadAsV2 | src-tauri/src/sheet/compat/version2.rs:67-76 | Tiger2's `read_file`: a Tiger1 file is converted, a Tiger2 file taken as it is. |
| Migrations.ReadAsV3 | src/sheet/compat/version3.rs:15-24 | a Tiger3 file is taken as it is; an older one is read as Tiger2 and converted |
| Migrations.ReadSheet | src-tauri/src/sheet/version4.rs:129-137 | Tiger4's `read_file`: a current file is taken as it is, an older one upgraded step by step. |
| Migrations.ReadingOlderFileResetsPathsRoot | src-tauri/src/sheet/version4.rs:129-137 | Whatever root an older file stored, reading it sets the metadata paths root to the metadata destination. |
| Migrations.ReadingTiger2KeepsNamesAndFrames | src-tauri/src/sheet/version4.rs:129-137 | A Tiger2 file's animation names survive the reading, and its frames stay in order. |
| Migrations.SheetFrom050 | src-tauri/src/sheet/version_1_0_0.rs:156-169 | 1.0.0's `Sheet::from` a 0.5.0 sheet, field by field: frames, animations and their sequences, keyframes and hitboxes, and the template export settings, root included. Nothing is lost or changed. |
| Migrations.AnimationsFrom050Unchanged | src-tauri/src/sheet/version_1_0_0.rs:171-183 | converting every animation of a 0.5.0 sheet gives the same animations back |
| Names.NatToString | src-tauri/src/sheet.rs:179-189 | the decimal rendering is never empty and has at least two digits from ten on |
| Names.NatToStringInjective | src-tauri/src/sheet.rs:179-189 | different numbers render differently |
| Names.NumberedNameInjective | src-tauri/src/sheet.rs:179-189 | different candidates of the fresh-name search are different names |
| Names.SecondName | src-tauri/src/sheet.rs:179-189 | the second candidate is the base name followed by " 2" |
| Names.FirstFreeIsSecond | src-tauri/src/sheet.rs:179-189 | with the base name taken and its " 2" variant free, the search picks the " 2" variant |
| Names.FreshName | src-tauri/src/sheet.rs:508-517 | the name found is not taken, and is the first candidate in the sequence that is not |
| Observables.SubscriptionIds.constructor | src-tauri/src/utils/observable.rs:5-5 | The process-wide id counter starts at zero. |
| Observables.Observable.constructor | src-tauri/src/utils/observable.rs:40-45 | A new observable holds the given value and has no subscription and no call recorded. |
| Observables.Observable.Subscribe | src-tauri/src/utils/observable.rs:83-90 | `Observable::subscribe`: register the callback under the next id of the process. |
| Observables.Observable.Unsubscribe | src-tauri/src/utils/observable.rs:92-94 | `Observable::unsubscribe`: forget that id; an id this observable never issued changes nothing. |
| Observables.Observable.Notify | src-tauri/src/utils/observable.rs:59-81 | `Observable::notify`: every subscription present when the call starts is called exactly once; its entry is taken out for the call (so a callback unsubscribing itself removes nothing) and put back unless the callback answers CancelSubscription. |
| Observables.Observable.Mutate | src-tauri/src/utils/observable.rs:51-57 | `Observable::mutate`: change the value, then notify once. |
| Observables.NotifyThreeTimes | src-tauri/src/utils/observable.rs:137-151 | Three notifications reach a subscriber that stays subscribed three times. |
| Observables.NoCallsAfterUnsubscribe | src-tauri/src/utils/observable.rs:167-181 | After unsubscribing, neither a mutation nor a notification reaches the callback. |
| Observables.ForeignUnsubscribeIgnored | src-tauri/src/utils/observable.rs:183-198 | A subscription of another observable cannot unsubscribe anything here. |
| Observables.UnsubscribeWithinCallback | src-tauri/src/utils/observable.rs:200-224 | A callback that unsubscribes itself while being called stays subscribed. |
| Observables.CancelByReturnValue | src-tauri/src/utils/observable.rs:226-238 | A callback answering CancelSubscription is called once and then no more. |
| Onboarding.Rank | src-tauri/src/features/onboarding.rs:64-100 | How far along the guide a step is. |
| Onboarding.ComputeOnboardingStep | src-tauri/src/features/onboarding.rs:64-100 | `State::compute_onboarding_step`: Completed stays Completed; otherwise the step is the first thing missing from the open documents (a document, a frame, an animation, a keyframe), and Completed once none is. |
| Onboarding.KeyframeNeedsAnimation | src-tauri/src/features/onboarding.rs:64-100 | A keyframe lives in an animation, so the guide is complete as soon as a frame and a keyframe exist. |
| Onboarding.OpeningNeverRegresses | src-tauri/src/features/onboarding.rs:64-100 | Opening one more document never moves the guide back. |
| Onboarding.GuidedFlow | src-tauri/src/features/onboarding.rs:128-152 | The guided flow on one new document: import a frame, create an animation (with the four directions of a new animation), then place the frame on its North timeline; each step advances the guide by one. |
| Onboarding.OnboardingState.constructor | src-tauri/src/features/onboarding.rs:11-15 | A new state holds the given documents and has not started the guide. |
| Onboarding.OnboardingState.AdvanceOnboarding | src-tauri/src/features/onboarding.rs:60-62 | `State::advance_onboarding`: store the computed step. |
| Paths.LastSlash | src-tauri/src/document/relocate.rs:32-53 | the position of the last '/' with none after it, or nothing exactly when the path has no '/' |
| Paths.Parent | src-tauri/src/document/relocate.rs:32-37 | `Path::parent`: none for the empty path and the root, the empty path for a bare name, the root for a name under the root, and otherwise everything before the last separator. |
| Paths.FileName | src-tauri/src/document/relocate.rs:50-52 | `Path::file_name`: the text after the last separator, unless it is empty or the parent-directory marker "..". |
| Paths.Join | src-tauri/src/document/relocate.rs:53 | `Path::join` of a single file name onto a directory. |
| Paths.JoinSplits | src-tauri/src/document/relocate.rs:47-53 | a file name joined onto a directory has that directory as parent and that name as file name |
| Paths.LastSlashBeforeName | src-tauri/src/document/relocate.rs:47-53 | the last separator of a joined path is the one before the name |
| CommandProcessing.ListCommandEffect | src-tauri/src/document/command.rs:191-352 | a list command keeps the navigation and the workbench; setting the list offset writes the active mode's offset and keeps the mode |
| CommandProcessing.WorkbenchCommandEffect | src-tauri/src/document/command.rs:191-352 | a workbench command keeps the navigation; every one but centring leaves the zoom within [1, 32], and a zoom in range stays in range |
| CommandProcessing.DisplayCommandEffect | src-tauri/src/document/command.rs:191-352 | a display command keeps the navigation and the workbench, and keeps the snapping base within [1, 1000] |
| CommandProcessing.ViewCommandEffect | src-tauri/src/document/command.rs:191-352 | a view-field command keeps the navigation and keeps a zoom in range within range |
| CommandProcessing.ProcessSelectionCommand | src-tauri/src/document/command.rs:191-352 | each selection command sets the view its specification function gives (`FrameClicked`, `AnimationClicked`, `KeyframeSelected`, `HitboxClicked`, `AllSelected`, `SelectionCleared`, `SelectionBrowsed`, `BrowsedToEdge`), or the sheet and view of `SelectionNudged`; deleting the selection gives the sheet, view and result of `SelectionDeleted`; beginning a rename renames the last interacted animation, else hitbox; history and persistent state are kept |
| CommandProcessing.ProcessContentCommand | src-tauri/src/document/command.rs:191-352 | paste as `Pasted` says; importing frames adds them; deleting a frame is `Sheet::delete_frame`; deleting the selected frames filters the frames and keyframes by the selection, keeping their order (`FramesRemoved`); creating an animation adds an empty one under a fresh name, selected, edited and paused; editing an animation fails exactly when it is missing; deleting animations removes them from the sheet; the history and gesture sessions are kept |
| CommandProcessing.ProcessTimelineCommand | src-tauri/src/document/command.rs:191-352 | tick advances the clock as `Advance`; play fails without a sequence and otherwise starts, from 0 at or past the end; pause stops and selects the keyframe under the clock; scrub and the four jumps set the view their functions give; looping and the direction preset change the edited animation or fail without one; selecting a direction sets it; deleting the selected keyframes is `KeyframeDeletion`; the history and gesture sessions are kept |
| CommandProcessing.ProcessGestureCommand | src-tauri/src/document/command.rs:191-352 | each begin, update, drop, end and cancel of a rename, drag-and-drop, duration drag, nudge or resize sets the state its specification function gives (`FrameDrop`, `KeyframeDrop`, `DurationDragged`, `KeyframesNudged` in some order of the selection, `HitboxesNudged`, `HitboxesResized`, ...); ending a rename renames the animation or hitbox being renamed, or fails when none is; a drop ends its session only when it succeeds; the history is kept; a paused drop of no frame at or past the end fails with `NoKeyframeAtIndex` and changes nothing, where the editor panics |
| CommandProcessing.ProcessKeyframeEditCommand | src-tauri/src/document/command.rs:191-352 | setting a duration or offset edits every selected keyframe, setting a hitbox position or size every selected hitbox, each failing with nothing changed as the edit does; creating a hitbox adds a new one under a fresh name to the keyframe under the clock, selected and being renamed; deleting hitboxes removes them from that keyframe; the history and persistent state are kept |
| CommandProcessing.ProcessSessionCommand | src-tauri/src/document/command.rs:191-352 | the relocate-frames dialog begins empty, records each relocation against the files on disk, is cancelled, or ends by relocating the sheet's frames, failing when not open; the export dialog begins, is cancelled, ends by storing the edited settings, or sets one of its paths, failing as the export editing does; the history and gesture sessions are kept |
| CommandProcessing.ProcessViewCommand | src-tauri/src/document/command.rs:191-352 | a view command always succeeds and keeps the sheet, history and sessions; it writes the view, or toggles the aspect-ratio lock |
| CommandProcessing.DispatchIsTotal | src-tauri/src/document/command.rs:191-352 | every command is undo, redo, or in one of the dispatch groups |
| CommandProcessing.ProcessEditingCommand | src-tauri/src/document/command.rs:191-352 | every command other than undo, redo and the view commands has the effect its group states (`EditingEffect`); the history is kept; with no session under way, one that does not keep sessions leaves them empty; deleting the selection gives the sheet, view and result `SelectionDeleted` states, and deleting the selected frames filters frames and keyframes by the selection in their order |
| CommandProcessing.ProcessSheetCommand | src-tauri/src/document/command.rs:191-352 | a selection, content or timeline command has the effect its group states; the history is kept; in particular deleting the selection gives the sheet, view and result of `SelectionDeleted`, and deleting the selected frames keeps the other frames and keyframes in their order (`FramesRemoved`) |
| CommandProcessing.ProcessWorkbenchCommand | src-tauri/src/document/command.rs:191-352 | a gesture, keyframe-edit or dialog command has the effect its group states; the history is kept |
| CommandProcessing.ProcessHistoryCommand | src-tauri/src/document/command.rs:470-488 | undo and redo keep the history well formed and the sessions, and move the cursor as the undo and redo specifications say |
| CommandProcessing.ProcessCommandInternal | src-tauri/src/document/command.rs:191-352 | `Document::process_command_internal`: undo and redo move the cursor and restore the entry's sheet and view; every other command has the per-command effect `CommandEffect` states, view commands writing their view field or toggling the aspect-ratio lock, and keeps the history; deleting the selection is `SelectionDeleted`, deleting the selected frames is `FramesRemoved`, both exact and order-preserving |
| CommandProcessing.ResetGestures | src-tauri/src/document/command.rs:355-357 | unless the command keeps them, every gesture session is reset; nothing else changes |
| CommandProcessing.ResetAndProcess | src-tauri/src/document/command.rs:355-359 | reset the gesture sessions, then run the command: a command other than undo and redo has its per-command effect on the reset state, and undo and redo move the cursor as the undo and redo specifications say; the per-command effect includes deleting the selection as `SelectionDeleted` states |
| CommandProcessing.SanitizeAndRecord | src-tauri/src/document/command.rs:364-368 | the view is sanitised against the sheet and nothing else changes, then a recordable command is recorded; any other command keeps the history |
| CommandProcessing.ProcessCommand | src-tauri/src/document/command.rs:354-371 | `Document::process_command`. Unless the command keeps them, every gesture session is reset first (creating a hitbox then starts renaming it). A command other than undo and redo then has its per-command effect (`CommandEffect`) on that state, giving `processed`; the view ends sanitised against the sheet. A recordable command is recorded against the history as it stood before the command; any other command other than undo and redo leaves the history alone. Deleting the selection has the sheet, view and result of `SelectionDeleted`; deleting the selected frames keeps the remaining frames and keyframes in order. |
| Relocation.RelocateFramesEdit | src-tauri/src/document/relocate.rs:4-9 | the mapping of the open session, or the not-relocating error exactly when no session is open |
| Relocation.BeginRelocateFrames | src-tauri/src/document/relocate.rs:20-22 | a session opens with an empty mapping; nothing else changes |
| Relocation.CancelRelocateFrames | src-tauri/src/document/relocate.rs:24-26 | the session closes, so no mapping is open; nothing else changes |
| Relocation.AutomaticRelocationsSpec | src-tauri/src/document/relocate.rs:28-63 | The automatic relocations are exactly the frames that follow the relocation, each sent to its own file name in the new directory. |
| Relocation.RelocatedEditSpec | src-tauri/src/document/relocate.rs:28-63 | Relocating `from` to `to` maps `from` to `to`, keeps every earlier entry, and adds only frames of the sheet that follow the relocation. |
| Relocation.RelocateFrame | src-tauri/src/document/relocate.rs:28-63 | `Document::relocate_frame`: record `from -> to` in the open session, then scan the sheet's frames for the ones that follow the move. |
| Relocation.Mapped | src-tauri/src/document/relocate.rs:65-70 | Where `path` goes under `mapping`: its image when mapped, itself otherwise. |
| Relocation.RelocatedFrames | src-tauri/src/document/relocate.rs:65-70 | one frame per frame, each moved to its mapped path |
| Relocation.RelocatedKeyframes | src-tauri/src/document/relocate.rs:65-70 | one keyframe per keyframe, each showing its mapped path and otherwise unchanged |
| Relocation.RelocatedAnimation | src-tauri/src/document/relocate.rs:65-70 | the looping flag and directions are kept; each sequence's keyframes are relocated |
| Relocation.RelocatedSheet | src-tauri/src/document/relocate.rs:65-70 | The sheet with every frame and every keyframe that shows a mapped path moved to its new path. `Sheet::relocate_frames` is not part of this model; this is the rewrite its callers rely on. |
| Relocation.RelocateNothing | src-tauri/src/document/relocate.rs:65-70 | Relocating through an empty mapping changes nothing. |
| Relocation.RelocatedPathsGone | src-tauri/src/document/relocate.rs:65-70 | After relocation no frame and no keyframe shows a mapped path that is not also a target. |
| Relocation.EndRelocateFrames | src-tauri/src/document/relocate.rs:65-70 | `Document::end_relocate_frames`: close the session and rewrite the sheet through its mapping; without a session it fails and changes nothing. |
| Selections.Only | src-tauri/src/document/selection.rs:570-576 | `Selection::new`: select exactly `items`; pivot and last interaction are the last one. |
| Selections.Toggle | src-tauri/src/document/selection.rs:649-655 | toggling flips the item's membership and leaves every other item, the pivot and the last interaction alone |
| Selections.Alter | src-tauri/src/document/selection.rs:617-647 | `Selection::alter`. `affected` is what the item pool's `range` returns for the current pivot and the interacted item; it is only consulted when shift is held. |
| Selections.CtrlClickTwice | src-tauri/src/document/selection.rs:617-655 | Two ctrl-clicks on the same item give back the selected set. |
| Selections.IndexOf | src-tauri/src/document/selection.rs:708-716 | nothing exactly when the item is absent; otherwise the first index holding it |
| Selections.PositionOrFirst | src-tauri/src/document/selection.rs:708-716 | The position of an item in the pool, or 0 when it is absent (as `ItemPool::range` does). |
| Selections.ListRange | src-tauri/src/document/selection.rs:704-717 | `ItemPool::range` over an ordered list: the inclusive slice between the positions of `from` and `to`, where an endpoint missing from the pool counts as position 0. Slicing an empty pool panics in the source, hence the precondition. |
| Selections.ListRangeHoldsEnds | src-tauri/src/document/selection.rs:704-717 | The range holds both of its endpoints, with the first item of the pool standing in for a `from` that is absent. |
| Selections.OffsetFrom | src-tauri/src/document/selection.rs:719-732 | `ItemPool1D::offset_from`: the item `delta` places after `from`, nothing when `from` is absent or the target falls outside the pool. |
| Selections.AsListOffset | src-tauri/src/document/selection.rs:903-910 | `BrowseDirection::as_list_offset`: a linear list only moves up and down; a grid four items wide moves one item sideways or one row (4 items) vertically. |
| Selections.SequenceHits | src-tauri/src/document/selection.rs:771-837 | The keyframes of one sequence that fall in a shift-selection, tagged with `name`. |
| Selections.DirectionHits | src-tauri/src/document/selection.rs:771-837 | The hits over the directions `AllDirections[k..]`, in direction order. |
| Selections.KeyframeRange | src-tauri/src/document/selection.rs:771-837 | The keyframe range as evidently intended: the missing pivot is replaced by the first keyframe of the first direction of the clicked keyframe's own animation, so every keyframe returned belongs to that animation. |
| Selections.KeyframeRangeAsWrittenCases | src-tauri/src/document/selection.rs:771-837 | The range as written is the intended one when the pivot lies in the clicked keyframe's own animation; otherwise it only holds keyframes named after the empty animation, so (for any animation with a real name) none of them is a keyframe of the animation being edited. |
| Selections.KeyframeRangeCounterexample | src-tauri/src/document/selection.rs:771-837 | A concrete case: shift-clicking the only keyframe of "walk" with no pivot. |
| Selections.KeyframeRangeContainsTarget | src-tauri/src/document/selection.rs:771-837 | The clicked keyframe is always part of its own range. |
| Selections.NextDirectionWithKeyframe | src-tauri/src/document/selection.rs:839-891 | The first direction among `AllDirections[k..]` (scanning up) whose sequence has a keyframe at `time`. |
| Selections.PreviousDirectionWithKeyframe | src-tauri/src/document/selection.rs:839-891 | The last direction among `AllDirections[..k]` (scanning down) whose sequence has a keyframe at `time`. |
| Selections.TimelineOffsetFrom | src-tauri/src/document/selection.rs:839-891 | `ItemPoolTimeline::offset_from`: left and right step within the sequence; up and down move to the nearest earlier or later direction that has a keyframe at the middle of the current keyframe, without wrapping around. |
| Sheets.DirectionRank | src-tauri/src/sheet/version_1_0_0.rs:62-72 | a direction's rank is its place in the declared order East to SouthEast, the order the derived comparison uses |
| Sheets.PresetFrom | src-tauri/src/sheet.rs:311-320 | the first preset, in declaration order, whose directions are exactly the given set |
| Sheets.FromDirections | src-tauri/src/sheet.rs:311-320 | a set is recognised as the preset whose directions are exactly that set, and as nothing when no preset's are |
| Sheets.PresetDirectionsInjective | src-tauri/src/sheet.rs:322-351 | no two presets have the same directions, so recognition is unambiguous |
| Sheets.FromPresetDirections | src-tauri/src/sheet.rs:311-351 | recognising a preset's own directions gives back that preset |
| Sheets.SetPosition | src-tauri/src/sheet.rs:580-586 | the hitbox moves to the position and keeps its size |
| Sheets.SetSize | src-tauri/src/sheet.rs:588-594 | the hitbox takes the size and keeps its position |
| Sheets.NewHitbox | src-tauri/src/sheet.rs:546-554 | `Hitbox::new`: a 20 by 20 square centred on the origin. |
| Sheets.NewKeyframe | src-tauri/src/sheet.rs:450-458 | a keyframe of the frame with no hitboxes, the default duration and a zero offset |
| Sheets.AddFrame | src-tauri/src/sheet.rs:165-171 | afterwards the sheet has the frame; a frame already there leaves the sheet unchanged, otherwise it is appended; animations and export settings are kept |
| Sheets.AddFrameIdempotent | src-tauri/src/sheet.rs:165-171 | adding the same frame twice is the same as adding it once |
| Sheets.AddFrameKeepsSourcesUnique | src-tauri/src/sheet.rs:165-171 | adding a frame keeps the frame sources free of duplicates |
| Sheets.AddFrames | src-tauri/src/sheet.rs:173-177 | the old frames stay as a prefix, every path has a frame afterwards, each new frame comes from the paths, and unique sources stay unique |
| Sheets.AddFrameGrows | src-tauri/src/sheet.rs:173-177 | Adding a frame keeps every frame there was, in place, and may only append one for `path`. |
| Sheets.CreateAnimation | src-tauri/src/sheet.rs:179-189 | `Sheet::create_animation`: insert an empty animation under the first free name among "New Animation", "New Animation 2", "New Animation 3", ... |
| Sheets.RenameEntry | src-tauri/src/sheet.rs:211-231 | The rename rule shared by animations and hitboxes: the same name keeps the map; a taken new name fails with `TargetTaken`; a missing old name with `SourceMissing`; otherwise it succeeds, moving the entry to the new name and keeping every other entry. |
| Sheets.RenameEntryRoundTrip | src-tauri/src/sheet.rs:211-231 | renaming there and back again restores the map |
| Sheets.RenameAnimation | src-tauri/src/sheet.rs:211-231 | the same name leaves the sheet unchanged; a taken new name fails with AnimationNameAlreadyExists, a missing old one with AnimationNotFound; otherwise it succeeds, moving the animation to the new name, keeping every other animation, the frames and the export settings |
| Sheets.DeleteAnimation | src-tauri/src/sheet.rs:242-244 | the named animation is gone and every other animation and the frames are unchanged |
| Sheets.FramesKeptAppend | src-tauri/src/sheet.rs:233-240 | keeping the frames not showing a path distributes over appending a frame |
| Sheets.WithoutFrame | src-tauri/src/sheet.rs:233-240 | the frames other than the path's, in their order |
| Sheets.KeyframesWithout | src-tauri/src/sheet.rs:233-240 | `retain` on a sequence's keyframes: exactly the keyframes not showing the path remain, in their original order (`KeyframesKept`). |
| Sheets.KeyframesKeptInOrder | src-tauri/src/sheet.rs:233-240 | The kept keyframes are a subsequence of the original ones, and none of them shows the path. |
| Sheets.DeleteFrame | src-tauri/src/sheet.rs:233-240 | `Sheet::delete_frame`: the frame list keeps, in order, exactly the frames with another source; every animation and sequence is kept, and each sequence keeps, in order, exactly the keyframes not showing the path. |
| Sheets.ApplyDirectionPreset | src-tauri/src/sheet.rs:302-308 | `Animation::apply_direction_preset`: keep the sequences of the preset's directions, drop the others, and add an empty sequence for each missing one. |
| Sheets.ApplyThenRecognisePreset | src-tauri/src/sheet.rs:298-308 | after a preset is applied the animation's recognised preset is that preset |
| Sheets.RangesFromDurations | src-tauri/src/sheet.rs:403-412 | Each range is as long as its keyframe. |
| Sheets.RangesFromAdjacent | src-tauri/src/sheet.rs:403-412 | Range `i` ends where range `i + 1` starts. |
| Sheets.RangesFromEnds | src-tauri/src/sheet.rs:403-412 | The first range starts at `start` and the last ends after the total duration. |
| Sheets.RangesFromShape | src-tauri/src/sheet.rs:403-412 | the ranges begin at the start, each is as long as its keyframe, each ends where the next begins, and the last ends at the start plus the total duration |
| Sheets.TimeRangesContiguous | src-tauri/src/sheet.rs:403-412 | The keyframe time ranges are contiguous from 0, each as long as its keyframe, and the last ends at the sequence's total duration. |
| Sheets.KeyframeTimes | src-tauri/src/sheet.rs:396-401 | the time of each keyframe is the start of its range |
| Sheets.DurationMillis | src-tauri/src/sheet.rs:441-446 | `Sequence::duration_millis`: nothing for an empty sequence, the sum of durations otherwise. |
| Sheets.IndexEndingAfter | src-tauri/src/sheet.rs:372-384 | The first index, from `i`, whose range ends after `time`; the last index when there is none. |
| Sheets.KeyframeIndexAtSpec | src-tauri/src/sheet.rs:372-384 | nothing exactly for an empty sequence; otherwise every earlier keyframe ends by the time, and the one found ends after it or is the last |
| Sheets.KeyframeIndexAtContains | src-tauri/src/sheet.rs:372-384 | Within the sequence, the keyframe found is the one whose range contains `time`. |
| Sheets.FindKeyframeIndexAt | src-tauri/src/sheet.rs:372-384 | The loop of `Sequence::keyframe_index_at`, which accumulates durations into a cursor. |
| Sheets.KeyframeAt | src-tauri/src/sheet.rs:386-389 | nothing exactly for an empty sequence; otherwise an index in range with its keyframe |
| Sheets.InsertKeyframe | src-tauri/src/sheet.rs:414-420 | fails with InvalidFrameIndex exactly past the end; otherwise the keyframe sits at the index and the others keep their order around it |
| Sheets.DeleteKeyframe | src-tauri/src/sheet.rs:422-427 | fails with InvalidFrameIndex exactly at or past the end; otherwise the keyframe at the index is returned and the others close up in order |
| Sheets.InsertThenDelete | src-tauri/src/sheet.rs:414-427 | Deleting the keyframe just inserted gives back the sequence and the keyframe. |
| Sheets.DeleteThenInsert | src-tauri/src/sheet.rs:414-427 | Re-inserting a deleted keyframe where it was gives back the sequence. |
| Sheets.CreateHitbox | src-tauri/src/sheet.rs:508-517 | `Keyframe::create_hitbox`: add a default hitbox under the first free "New Hitbox" name. |
| Sheets.RenameHitbox | src-tauri/src/sheet.rs:519-538 | the same name leaves the keyframe unchanged; a taken new name fails with HitboxNameAlreadyExists, a missing old one with HitboxNotFound; otherwise it succeeds, moving the hitbox to the new name and keeping every other hitbox, the frame, duration and offset |
| Sheets.DeleteHitbox | src-tauri/src/sheet.rs:540-542 | the named hitbox is gone, every other hitbox is unchanged, and frame, duration and offset are kept |
| StateDocuments.ViewStepsKeepValid | src-tauri/src/state/document/view.rs:50-100 | Every zoom step keeps both levels among the reachable ones and leaves the other level alone; zooming the workbench out undoes zooming it in below the cap, and panning back undoes a pan. |
| StateDocuments.WorkbenchKeyframe | src-tauri/src/document.rs:302-308 | `get_workbench_keyframe`: the keyframe of the current sequence under the playhead. |
| StateDocuments.Pivot | src-tauri/src/state/document/selection.rs:567-577 | The pivot of a keyframe range: a pivot in another animation, or none, becomes the first keyframe of the first direction of the clicked keyframe's animation. |
| StateDocuments.OverlappingHalf | src-tauri/src/state/document/selection.rs:567-628 | The keyframes among `refs` that overlap `affected` by half their length. |
| StateDocuments.KeyframeRangeSpec | src-tauri/src/state/document/selection.rs:567-628 | A keyframe is in the range exactly when it is a keyframe of the animation, in the clicked keyframe's animation, between the two endpoints' directions, and overlapping their span by half; the range of this engine is therefore the newer engine's minus the keyframes whose overlap is the whole span but less than half their own length; the clicked keyframe is always in it. |
| StateDocuments.TimelineOffsetFrom | src-tauri/src/state/document/selection.rs:631-680 | `ItemPoolTimeline::offset_from`: left and right step within the pivot's sequence; up and down move to the nearest earlier or later direction whose sequence has a keyframe at the playhead, without wrapping around. Stepping left does not check the sequence exists. |
| StateDocuments.TimelineOffsetAtMiddle | src-tauri/src/state/document/selection.rs:631-680 | From an existing keyframe, browsing here agrees with the newer engine's browsing whenever the playhead stands at the middle of that keyframe, which is where the newer engine looks. |
| StateDocuments.UpOffsetAtMiddle | src-tauri/src/state/document/selection.rs:631-680 | Browsing up, both engines look from the middle of the keyframe browsed from. |
| StateDocuments.DownOffsetAtMiddle | src-tauri/src/state/document/selection.rs:631-680 | Browsing down, both engines look from the middle of the keyframe browsed from. |
| StateDocuments.Altered | src-tauri/src/state/document/selection.rs:270-297 | `MultiSelection::alter`: the kinds other than the edited one are cleared, and the edited kind is altered by the click. A plain click selects the item alone, and a shift-click on a keyframe selects only keyframes of the clicked keyframe's animation, the clicked one included when it exists. |
| StateDocuments.HitboxPool | src-tauri/src/state/document/selection.rs:218-227 | `selectable_hitboxes`: the hitboxes of the current keyframe, in name order. |
| StateDocuments.SelectedItem | src-tauri/src/state/document/selection.rs:100-143 | `select_item`, as the view it leaves and its outcome. A click on a keyframe first makes its direction the current one and, unless the timeline plays, moves the playhead to the keyframe's start; these stay even when the lookup that follows fails. What a click does: frames and animations are always selectable; a hitbox click fails, changing nothing, when there is no keyframe under the playhead, with the lookup's error; a keyframe click fails when its direction is not a sequence of the edited animation, having already made it current. A plain click selects the item alone, clearing every other kind, and a click on a keyframe names the edited animation. |
| StateDocuments.EditedView | src-tauri/src/state/document/content.rs:19-25 | The view `edit_animation` leaves: the named animation is current, the workbench centred and the clock at 0; the direction and the selection stay. Nothing checks that the sheet has the animation: a missing one shows up at the next lookup. |
| StateDocuments.RenamedView | src-tauri/src/state/document/content.rs:27-40 | `rename_animation` on the view: the new name is the only selection, and the edited animation follows the rename. |
| StateDocuments.RenameKeepsWorkbench | src-tauri/src/state/document/content.rs:27-40 | Renaming keeps the workbench on the same animation, whichever was edited. |
| StateDocuments.DeleteLeavesWorkbenchDangling | src-tauri/src/state/document/content.rs:42-44 | `delete_animation` changes the sheet alone: when the deleted animation was the edited one, the workbench no longer resolves, failing with the deleted name. |
| StateDocuments.CreatedAnimationShape | src-tauri/src/state/document/content.rs:12-17 | The created animation has an empty sequence for each of the four directions, and does not loop. |
| StateDocuments.LoopingSet | src-tauri/src/state/document/timeline.rs:78-82 | `set_animation_looping` on the edited animation. |
| StateDocuments.PresetApplied | src-tauri/src/state/document/timeline.rs:84-91 | `apply_direction_preset` on the edited animation; the current direction is left as it was. |
| StateDocuments.Played | src-tauri/src/state/document/timeline.rs:48-61 | `play`, once the timeline is known to be paused: it needs a current sequence, and the clock goes back to the start when it sits at or past the end of a sequence of positive duration. Unlike the older engine, the selection stays. |
| StateDocuments.Scrubbed | src-tauri/src/state/document/timeline.rs:67-76 | `scrub_timeline`: the clock moves to the time, clamped to the current sequence. |
| StateDocuments.DragView | src-tauri/src/state/document/timeline.rs:93-118 | The view `begin_drag_keyframe_duration` drags from: the dragged keyframe of the edited animation is selected alone unless it already is selected. |
| StateDocuments.DragBeginsOnFocus | src-tauri/src/state/document/timeline.rs:93-118 | A drag begun on a keyframe of the edited animation notes the duration of that keyframe among the others selected, and an update that follows at once finds every original duration it needs. |
| StateDocuments.DragBegun | src-tauri/src/state/document/timeline.rs:93-118 | `begin_drag_keyframe_duration`, as the view and the drag it leaves: it needs an edited animation, then the dragged keyframe is selected unless it already is, and the duration of every selected keyframe of the animation is noted. |
| StateDocuments.DragOutcome | src-tauri/src/state/document/timeline.rs:93-118 | What `begin_drag_keyframe_duration` leaves: on failure nothing changes and the error is returned; on success the view and the drag begun. |
| StateDocuments.DragBegunSpec | src-tauri/src/state/document/timeline.rs:93-118 | The drag begun holds the dragged keyframe, and the duration of the dragged keyframe when it exists; an update right after it finds every duration it needs. |
| StateDocuments.HitboxRenamed | src-tauri/src/state/document/keyframe.rs:4-21 | `rename_hitbox` on the keyframe under the playhead: the keyframe's rename, then the renamed hitbox becomes the only selection. |
| StateDocuments.HitboxDeleted | src-tauri/src/state/document/keyframe.rs:23-27 | `delete_hitbox` on the keyframe under the playhead: the hitbox is gone from that keyframe and every other hitbox stays. The selection is left as it was. |
| StateDocuments.BeganExportAs | src-tauri/src/state/document/export.rs:54-61 | `begin_export_as`: edit a copy of the sheet's settings, or of the defaults when it has none. |
| StateDocuments.ExportPathSet | src-tauri/src/state/document/export.rs:67-98 | The four setters of the dialog: change one path of the copy; outside the dialog they fail and change nothing. |
| StateDocuments.ExportSettingsValidated | src-tauri/src/state/document/export.rs:100-107 | `validate_export_settings`: one verdict per path of the copy; fails outside the dialog. |
| StateDocuments.EndedExportAs | src-tauri/src/state/document/export.rs:123-128 | `end_export_as`: the copy goes into the sheet and the dialog closes. It fails, changing nothing, only outside the dialog: this engine does not check that the paths are absolute. |
| StateDocuments.ExportDialogRoundTrip | src-tauri/src/state/document/export.rs:54-128 | Opening the dialog and confirming it at once always succeeds, and leaves the sheet with settings: its own, or the defaults (whose empty paths the newer engine refuses). Changing one path in between stores that path. |
| StateDocuments.ViewCommandEffect | src-tauri/src/state/document/command.rs:103-144 | The effect of a view command on the view: the zoom levels stay among the reachable ones, and what the workbench edits and the playhead stay. |
| StateDocuments.Document.constructor | src-tauri/src/state/document.rs:100-115 | A new document: an empty sheet, the default view, and a history of that one state at version 0. |
| StateDocuments.Document.MarkAsSaved | src-tauri/src/state/document/command.rs:215-217 | `mark_as_saved`: record the given version as the one on disk; nothing else changes. |
| StateDocuments.Document.Undo | src-tauri/src/state/document/command.rs:262-270 | `undo`: step back in history, restoring its sheet and view and pausing, unless at the first entry. |
| StateDocuments.Document.Redo | src-tauri/src/state/document/command.rs:272-280 | `redo`: step forward in history, restoring its sheet and view and pausing, unless at the last entry. |
| StateDocuments.Document.RecordCommand | src-tauri/src/state/document/command.rs:234-260 | `record_command`, with a pushed view-only entry keeping the version of its sheet. |
| StateDocuments.Document.DeleteSelectedFrames | src-tauri/src/state/document/content.rs:5-10 | `delete_selected_frames`: the frames and the keyframes of every sequence become, in their order, exactly those not showing a selected frame; view, drag, persistent state and history are unchanged. |
| StateDocuments.Document.EditAnimation | src-tauri/src/state/document/content.rs:19-25 | `edit_animation`: the named animation is edited from its start, centred and paused. |
| StateDocuments.Document.CreateAnimation | src-tauri/src/state/document/content.rs:12-17 | `create_animation`: a new animation with the four directions, under a fresh name, selected alone and edited. |
| StateDocuments.Document.RenameAnimation | src-tauri/src/state/document/content.rs:27-40 | `rename_animation`: the sheet's rename, then the selection and the edited animation follow. |
| StateDocuments.Document.DeleteAnimation | src-tauri/src/state/document/content.rs:42-44 | `delete_animation`: the animation leaves the sheet; the view is left as it was. |
| StateDocuments.Document.SetAnimationLooping | src-tauri/src/state/document/timeline.rs:78-82 | `set_animation_looping`: on success the sheet becomes `LoopingSet` of the old sheet and view; on failure the error is returned and the sheet stays; view, drag, history and persistent state never change. |
| StateDocuments.Document.ApplyDirectionPreset | src-tauri/src/state/document/timeline.rs:84-91 | `apply_direction_preset`: on success the sheet becomes `PresetApplied` of the old sheet and view; on failure the error is returned and the sheet stays; nothing else changes. |
| StateDocuments.Document.RenameHitbox | src-tauri/src/state/document/keyframe.rs:4-21 | `rename_hitbox`: on success sheet and view become `HitboxRenamed` of the old ones (the renamed hitbox selected); on failure the error is returned and neither changes. |
| StateDocuments.Document.DeleteHitbox | src-tauri/src/state/document/keyframe.rs:23-27 | `delete_hitbox`: on success the sheet becomes `HitboxDeleted` of the old sheet and view; on failure the error is returned and the sheet stays. |
| StateDocuments.Document.SelectItem | src-tauri/src/state/document/selection.rs:100-143 | `select_item`: the view the click leaves, kept even when the click fails after focusing a direction. |
| StateDocuments.Document.Tick | src-tauri/src/state/document/timeline.rs:14-16 | `tick`, which advances the timeline as the older engine does. |
| StateDocuments.Document.Play | src-tauri/src/state/document/timeline.rs:48-61 | `play`: nothing when already playing; otherwise it needs a current sequence. |
| StateDocuments.Document.Pause | src-tauri/src/state/document/timeline.rs:63-65 | `pause`: the timeline stops playing; nothing else changes. |
| StateDocuments.Document.ScrubTimeline | src-tauri/src/state/document/timeline.rs:67-76 | `scrub_timeline`: on success the view becomes `Scrubbed` of the old sheet and view; without an edited sequence the error is returned and the view stays. |
| StateDocuments.Document.BeginDragKeyframeDuration | src-tauri/src/state/document/timeline.rs:93-118 | `begin_drag_keyframe_duration`: result, view and drag are those of `DragOutcome` (selection of the keyframe, drag holding every selected keyframe's duration); sheet, history and persistent state stay. |
| StateDocuments.Document.UpdateDragKeyframeDuration | src-tauri/src/state/document/timeline.rs:120-156 | `update_drag_keyframe_duration`: every selected duration of the edited animation becomes its dragged one. |
| StateDocuments.Document.BeginExportAs | src-tauri/src/state/document/export.rs:54-61 | `begin_export_as`: the dialog opens on the sheet's export settings, or on new default settings when the sheet has none; nothing else changes. |
| StateDocuments.Document.CancelExportAs | src-tauri/src/state/document/export.rs:63-65 | `cancel_export_as`: the dialog closes without touching the sheet. |
| StateDocuments.Document.SetExportPath | src-tauri/src/state/document/export.rs:67-98 | `set_export_*_file` and `set_export_metadata_paths_root`: with the dialog open, the chosen path of the edited settings changes; without it, `NotEditingExportSettings` and nothing changes. |
| StateDocuments.Document.EndExportAs | src-tauri/src/state/document/export.rs:123-128 | `end_export_as`: with the dialog open, the edited settings become the sheet's and the dialog closes; without it, `NotEditingExportSettings` and nothing changes. |
| StateDocuments.Document.DispatchContentCommand | src-tauri/src/state/document/command.rs:103-132 | each content command has the effect `ContentEffect` states: importing frames adds them; deleting the selected frames removes exactly those; a selection click sets the view `SelectedItem` gives; creating, editing, renaming and deleting an animation, looping, the direction preset, and renaming and deleting a hitbox change the sheet and view as their operations do, or fail with nothing changed; history and drag are kept; the frames deletion is exact and keeps the order of frames and keyframes (`FramesRemoved`) |
| StateDocuments.Document.DispatchTimelineCommand | src-tauri/src/state/document/command.rs:133-157 | each timeline command has the effect `TimelineEffect` states: tick advances playback; play restarts a paused timeline or fails without a sequence; pause stops; scrub moves the clock; beginning a duration drag selects the keyframe and notes the durations; updating it sets the dragged durations; the history is kept |
| StateDocuments.Document.DispatchExportCommand | src-tauri/src/state/document/command.rs:179-185 | each export-dialog command has the effect `ExportEffect` states: begin opens the dialog on the sheet's settings; cancel closes it; end stores the edited settings in the sheet, or fails when the dialog is not open; setting a path edits it, or fails when the dialog is not open; history, drag and view are kept |
| StateDocuments.Document.DispatchHistoryCommand | src-tauri/src/state/document/command.rs:101-102 | `Undo` and `Redo`, which never fail: the history becomes `Undone` or `Redone` of the old one; when the cursor moved, the sheet and view are those of its entry and playback stops; otherwise nothing changes |
| StateDocuments.Document.DispatchViewCommand | src-tauri/src/state/document/command.rs:103-144 | The commands that only set fields of the view. |
| StateDocuments.Document.Dispatch | src-tauri/src/state/document/command.rs:99-209 | The match of `process_command`: a command other than undo and redo has the per-command effect `CommandEffect` states (view, content, timeline and export groups; nothing for the gesture-ending commands) and keeps the history; undo and redo move the history as `Undone` and `Redone` say and restore the entry's sheet and view. Deleting the selected frames leaves, in order, exactly the frames and keyframes not showing a selected frame. |
| StateDocuments.Document.ProcessCommand | src-tauri/src/state/document/command.rs:99-209 | `process_command`: the dispatched state `dispatched` is the command's `CommandEffect` on the state before; on failure it is returned at once, with the history kept; otherwise, unless the command begins or continues a gesture, any gesture ends and the command is recorded: the history becomes `RecordedIntended` of the history before (of its undone or redone version for undo and redo), whose current entry equals the document; a gesture command leaves the history alone. |
| StateDocuments.Document.EndGestureAndRecord | src-tauri/src/state/document/command.rs:190-206 | The tail of `process_command`: a command that begins or continues a gesture (or a tick) leaves the document as it was; any other ends the gesture and is recorded by the corrected rule `RecordedIntended`, after which the history's current entry holds the document's sheet and view. |
| TextureLists.SheetTextures | src-tauri/src/utils/texture_list.rs:28-32 | `Sheet::list_textures`: the set of frame sources. |
| TextureLists.AppTextures | src-tauri/src/utils/texture_list.rs:14-18 | `App::list_textures` (a document lists its sheet's textures): the union over every open document. |
| TextureLists.AddFrameTextures | src-tauri/src/utils/texture_list.rs:28-32 | Adding a frame adds its source to the textures and nothing else. |
| TextureLists.DeleteFrameTextures | src-tauri/src/utils/texture_list.rs:28-32 | Deleting a frame removes its source from the textures and nothing else. |
| Timeline.AdvanceTimeline | src-tauri/src/document/timeline.rs:8-39 | the view and playing flag become those of advancing by the delta; the sheet, transient state, the rest of the persistent state and the history are unchanged |
| Timeline.Tick | src-tauri/src/document/timeline.rs:8-39 | the view and playing flag after the clock moved are those the tick specification gives |
| Timeline.AdvanceWhilePaused | src-tauri/src/document/timeline.rs:8-39 | Advancing a paused timeline changes nothing. |
| Timeline.AdvanceLoopingStaysInSequence | src-tauri/src/document/timeline.rs:8-39 | A looping animation keeps playing, its clock strictly before the end of the sequence. |
| Timeline.AdvanceStopsAtEnd | src-tauri/src/document/timeline.rs:8-39 | A non-looping animation plays on with the selection untouched while the clock is before the end, and otherwise stops exactly at the end. |
| Timeline.AdvanceLoopingComposes | src-tauri/src/document/timeline.rs:8-39 | Two ticks of a looping animation land where one tick of their sum does. |
| Timeline.AdvanceLooping | src-tauri/src/document/timeline.rs:8-39 | One tick of a looping animation wraps the clock around the sequence's duration. |
| Timeline.TickedLooping | src-tauri/src/document/timeline.rs:8-39 | One tick of a looping animation only wraps the clock around the sequence's duration. |
| Timeline.Play | src-tauri/src/document/timeline.rs:41-55 | `Document::play`: start playback, from the beginning when the clock is at or past the end. |
| Timeline.Pause | src-tauri/src/document/timeline.rs:57-63 | `Document::pause`: stop playback; a selection of at most one keyframe follows the clock. |
| Timeline.ScrubbedClock | src-tauri/src/document/timeline.rs:65-75 | Where scrubbing to `time` puts the clock: clamped to the sequence, 0 for an empty one. |
| Timeline.ScrubTimeline | src-tauri/src/document/timeline.rs:65-75 | `Document::scrub_timeline`: move the clock, clamped, and select the keyframe under it. |
| Timeline.JumpToAnimationStart | src-tauri/src/document/timeline.rs:77-81 | `Document::jump_to_animation_start`: scrub to 0 and scroll the timeline back to its start. |
| Timeline.JumpToAnimationEnd | src-tauri/src/document/timeline.rs:83-87 | without a current sequence the error is returned and the view is unchanged; otherwise the clock is scrubbed to the sequence's duration; nothing else changes |
| Timeline.LastEndingBy | src-tauri/src/document/timeline.rs:89-102 | The last of the first `n` ranges that ends at or before `now`. |
| Timeline.FirstStartingAfter | src-tauri/src/document/timeline.rs:89-102 | the first range from i on that starts after the time, or nothing exactly when none does |
| Timeline.StartsIncrease | src-tauri/src/document/timeline.rs:89-117 | Keyframe starts strictly increase when every keyframe lasts at least a millisecond. |
| Timeline.NextThenPrevious | src-tauri/src/document/timeline.rs:89-117 | With keyframes of positive duration, jumping forward from a keyframe's start lands on the next keyframe's start, and jumping back from there returns to where it began. |
| Timeline.JumpsMoveTheRightWay | src-tauri/src/document/timeline.rs:89-117 | The previous-frame jump never moves the clock forward, and the next-frame jump never moves it back within the sequence. |
| Timeline.RangesEndLater | src-tauri/src/document/timeline.rs:89-117 | Every range starts no later than the sequence ends. |
| Timeline.JumpToPreviousFrame | src-tauri/src/document/timeline.rs:89-102 | `Document::jump_to_previous_frame`: the clock moves even when no keyframe can then be selected. |
| Timeline.JumpToNextFrame | src-tauri/src/document/timeline.rs:104-117 | without a current sequence the error is returned and the view is unchanged; otherwise the clock moves to the start of the first keyframe starting after it, or stays; nothing else changes |
| Timeline.CycleStep | src-tauri/src/document/timeline.rs:119-169 | The direction `k` steps from `from`, in declaration order or against it, wrapping around. |
| Timeline.CycleFrom | src-tauri/src/document/timeline.rs:119-169 | The first step among `k` to 7 from `from` whose direction qualifies, if any. |
| Timeline.OtherDirections | src-tauri/src/document/timeline.rs:119-169 | The directions 1 to 7 steps away from `from`, in the order the cycle visits them. |
| Timeline.CycleReachesOthers | src-tauri/src/document/timeline.rs:119-169 | The cycle visits each of the seven other directions, and never `from` itself. |
| Timeline.CycleTargetSpec | src-tauri/src/document/timeline.rs:119-169 | The cycle lands on another direction whose sequence lasts until the clock, and finds nothing only when no other direction has one. |
| Timeline.CycleDirections | src-tauri/src/document/timeline.rs:119-169 | without a current animation the error is returned and the view is unchanged; otherwise the current direction becomes the next one in cycle order whose sequence lasts until the clock, if any; nothing else changes |
| Timeline.SetAnimationLooping | src-tauri/src/document/timeline.rs:171-175 | without a current animation the error is returned and the sheet is unchanged; otherwise only that animation's looping flag changes |
| Timeline.ApplyDirectionPreset | src-tauri/src/document/timeline.rs:177-181 | without a current animation the error is returned and the sheet is unchanged; otherwise that animation takes the preset's directions and nothing else changes |
| Timeline.SelectDirection | src-tauri/src/document/timeline.rs:183-187 | `Document::select_direction`: a failure to select the keyframe under the clock is ignored. |
| Timeline.LargestExists | src-tauri/src/document/timeline.rs:183-187 | a non-empty set of slots has a largest slot |
| Timeline.LargestUnique | src-tauri/src/document/timeline.rs:183-187 | the largest slot of a set is unique |
| Timeline.Largest | src-tauri/src/document/timeline.rs:189-226 | the largest slot of a non-empty set |
| Timeline.DescendingOrderSorts | src-tauri/src/document/timeline.rs:183-187 | The order holds exactly the slots of the set, largest first. |
| Timeline.SortDescending | src-tauri/src/document/timeline.rs:189-226 | the slots in descending order, as sorting and then reversing gives |
| Timeline.Overlap | src-tauri/src/document/timeline.rs:189-226 | never more than the clock, and the whole range when the range ends by the clock |
| Timeline.RangesOrdered | src-tauri/src/document/timeline.rs:189-226 | the keyframe time ranges of a sequence are ordered and contiguous |
| Timeline.RangeBeforeLater | src-tauri/src/document/timeline.rs:189-226 | in contiguous ranges an earlier range ends by the time a later one starts |
| Timeline.OverlapSumStable | src-tauri/src/document/timeline.rs:189-226 | The overlaps of keyframes wholly before both clocks do not depend on which clock. |
| Timeline.ClockAfterSum | src-tauri/src/document/timeline.rs:189-226 | With ordered ranges and slots largest first, the loop's clock ends up pulled back by exactly the deleted time that lay before the original clock, so it stays on the same moment of the remaining keyframes. |
| Timeline.Without | src-tauri/src/document/timeline.rs:189-226 | never longer than the keyframes it starts from |
| Timeline.WithoutNothing | src-tauri/src/document/timeline.rs:189-226 | Removing nothing keeps every keyframe. |
| Timeline.WithoutIgnoresFar | src-tauri/src/document/timeline.rs:189-226 | Positions past the end do not matter. |
| Timeline.WithoutSplit | src-tauri/src/document/timeline.rs:189-226 | When every removed position is before `m`, everything from `m` on is kept as it is. |
| Timeline.WithoutDeleteAt | src-tauri/src/document/timeline.rs:189-226 | Deleting position `i` first and then smaller positions removes all of them. |
| Timeline.IndicesIn | src-tauri/src/document/timeline.rs:189-226 | exactly the indices that the slots name in the direction |
| Timeline.IndicesInTail | src-tauri/src/document/timeline.rs:189-226 | the indices named by a list of slots are those of its head plus those of its tail |
| Timeline.DeleteSlot | src-tauri/src/document/timeline.rs:189-226 | deleting an existing slot succeeds and is one step of deleting a list of slots |
| Timeline.DeleteSlotsStep | src-tauri/src/document/timeline.rs:189-226 | deleting a list of slots deletes the first, then the rest |
| Timeline.DeleteSlotKeepsRest | src-tauri/src/document/timeline.rs:189-226 | After the largest slot of a direction is deleted, the smaller ones of that direction still exist. |
| Timeline.DeleteSlotsFails | src-tauri/src/document/timeline.rs:189-226 | Deleting slots largest first fails exactly when one of them does not exist. |
| Timeline.DeleteSlotsKeepsShape | src-tauri/src/document/timeline.rs:189-226 | Deleting keyframes keeps the looping flag and the set of directions. |
| Timeline.DeleteSlotsIn | src-tauri/src/document/timeline.rs:189-226 | In one direction, deleting existing slots largest first removes exactly their positions. |
| Timeline.DeleteSlotIn | src-tauri/src/document/timeline.rs:189-226 | Deleting the largest slot first, then the rest of one direction, removes all of that direction's positions. |
| Timeline.KeyframeDeletion | src-tauri/src/document/timeline.rs:189-226 | What `Document::delete_selected_keyframes` does: with nothing selected, nothing; otherwise the selected keyframes of the current animation are deleted, largest slot first, and the clock is pulled back by the deleted time of the current direction that lay before it, then the keyframe under the clock is selected. A missing sequence or keyframe stops the deletions with those made so far kept and the view left alone. |
| Timeline.DeleteSelectedKeyframes | src-tauri/src/document/timeline.rs:189-226 | the sheet, view and result are those of the deletion specification; transient state, persistent state and history are unchanged |
| Timeline.PlanKeyframeDeletion | src-tauri/src/document/timeline.rs:189-226 | the outcome is the deletion specification's |
| Timeline.DeleteEach | src-tauri/src/document/timeline.rs:189-226 | The deletion loop: each slot in turn is deleted from `animation`, and the clock pulled back by the deleted time of `direction` before it. |
| Timeline.DeletionClockSpec | src-tauri/src/document/timeline.rs:189-226 | What a successful deletion means for the current direction: the clock moves back by the deleted time that lay before it, never below 0. |
| UndoStacks.Pushed | src-tauri/src/document/command.rs:396-405 | the new entry last, preceded by the entries up to the cursor, dropping from the front so that at most the cap remain |
| UndoStacks.PushEntry | src-tauri/src/document/command.rs:396-405 | the list is the capped push of the entry and the cursor ends on the pushed entry |
| Views.SetWorkbenchZoomFactor | src-tauri/src/document/view.rs:100-104 | the factor ends within [1, 32]: the one given when in range, else the nearer bound; nothing else changes |
| Views.ZoomInWorkbench | src-tauri/src/document/view.rs:74-76 | the factor ends within [1, 32], doubled unless that passes 32; nothing else changes |
| Views.ZoomOutWorkbench | src-tauri/src/document/view.rs:78-80 | the factor ends within [1, 32], never grows from a factor in range, and is halved (rounding down) from 2 on; nothing else changes |
| Views.ZoomInThenOut | src-tauri/src/document/view.rs:74-80 | Zooming in then out restores the factor whenever zooming in was not capped. |
| Views.ResetWorkbenchZoom | src-tauri/src/document/view.rs:106-108 | the factor becomes 1 and nothing else changes |
| Views.CenterWorkbench | src-tauri/src/document/view.rs:110-112 | the workbench offset becomes the origin and nothing else changes |
| Views.SkipToTimelineStart | src-tauri/src/document/view.rs:186-188 | the clock goes back to 0 and nothing else changes |
| Views.ResetTimelineOffset | src-tauri/src/document/view.rs:178-180 | the timeline offset becomes 0 and nothing else changes |
| Views.SetFramesListOffset | src-tauri/src/document/view.rs:190-195 | the active list mode's offset becomes the one given; the mode and the other mode's offset are kept |
| Views.ListOffsetsPerMode | src-tauri/src/document/view.rs:459-480 | Each list mode keeps its own offset: switching away and back gives back what was set. |
| Views.Lower | src-tauri/src/document/view.rs:298-315 | one character per character, each lowercased |
| Views.WordLength | src-tauri/src/document/view.rs:298-315 | The length of the leading run of non-whitespace characters. |
| Views.Terms | src-tauri/src/document/view.rs:298-315 | `split_ascii_whitespace`: the non-empty runs of non-whitespace characters. |
| Views.TermsAreSubstrings | src-tauri/src/document/view.rs:298-315 | Every term of a string occurs in it. |
| Views.BlankHasNoTerms | src-tauri/src/document/view.rs:298-315 | A string made only of whitespace has no terms. |
| Views.FilterKeeps | src-tauri/src/document/view.rs:298-315 | A blank filter hides nothing, and a filter never hides the name it was typed from. |
| Views.LowerOfLowercase | src-tauri/src/document/view.rs:298-315 | Lowercasing leaves a string without capital letters unchanged. |
| Views.TermsOfScenarioFilter | src-tauri/src/document/view.rs:437-445 | The filter "a ack" has the two terms "a" and "ack". |
| Views.FilterKeepsMatchingFrame | src-tauri/src/document/view.rs:437-445 | The filter "a ack" keeps "attack-west". |
| Views.FilterHidesOtherFrame | src-tauri/src/document/view.rs:437-445 | The filter "a ack" hides "dead-all", which does not contain "ack". |

## Left out

Floating point and text:

- Views.Lower: lowercases ASCII letters only. The frame and animation filters use Unicode `to_lowercase` (src-tauri/src/document/view.rs:298-315), so a filter "É" finds a frame named "é" in the editor but not in the model.
- Views.SetFramesListOffset: the list offsets are integers, where the editor keeps `f32` scroll positions.
- CommandProcessing.ViewCommandEffect: panning the workbench or the timeline, the timeline zoom factor, `SetTimelineZoomAmount` and zooming the timeline around a point are `f32` arithmetic. Their commands leave the modelled view unchanged (`IsFloatingPointViewCommand`).
- Drags.Unzoomed: mouse displacements are integers divided by the whole zoom and floored. The editor floors an `f32` quotient, so a fractional displacement or zoom is not covered.
- HitboxDrags.ResizeDelta: the resize displacement is an integer divided by the zoom and rounded to the nearest pixel, where the editor rounds an `f32` quotient.
- Drags.UpdateDragKeyframeDuration: snapping dragged durations to neighbouring keyframes (`snap_keyframe`, with a threshold of 20.0 divided by the timeline zoom) is not modelled. The model always applies the unsnapped duration.
- StateDocuments.Document.ProcessCommand: the workbench offset of the intermediate engine's view is an integer vector, where the editor keeps `f32` coordinates.

Calls the editor would panic on, excluded by a precondition instead of modelled as a crash:

- Selections.ListRange: requires a non-empty pool. The editor indexes `self[0..=0]` and panics on an empty slice (src-tauri/src/document/selection.rs:724-730).
- Selections.ListRangeHoldsEnds: states its property under the same non-empty requirement.
- DocumentSelection.FrameClicked: a shift-click requires at least one frame, for the same panic.
- DocumentSelection.AnimationClicked: a shift-click requires at least one animation, for the same panic.
- DocumentSelection.HitboxClicked: a shift-click requires at least one hitbox on the workbench keyframe, for the same panic.
- DocumentSelection.SelectFrame: carries the requirement of DocumentSelection.FrameClicked.
- DocumentSelection.SelectAnimation: carries the requirement of DocumentSelection.AnimationClicked.
- DocumentSelection.SelectHitbox: carries the requirement of DocumentSelection.HitboxClicked.
- CommandProcessing.ProcessCommand: requires `Admissible`, which excludes exactly those shift-clicks.
- CommandProcessing.ProcessCommandInternal: requires `Admissible`, as CommandProcessing.ProcessCommand does.
- CommandProcessing.ProcessEditingCommand: requires `Admissible`, as CommandProcessing.ProcessCommand does.
- CommandProcessing.ProcessSelectionCommand: requires `Admissible`, as CommandProcessing.ProcessCommand does.
- LegacyDocuments.Document.ProcessCommand: requires that an `AlterSelection` does not name a hitbox. The oldest engine answers that case with `todo!()` (src-tauri/src/state/document.rs:198).
- LegacyDocuments.Document.Dispatch: the same requirement as LegacyDocuments.Document.ProcessCommand.
- LegacyDocuments.Document.DispatchContentCommand: the same requirement as LegacyDocuments.Document.ProcessCommand.
- LegacyDocuments.Document.AlterSelection: the same requirement as LegacyDocuments.Document.ProcessCommand.
- LegacyDocuments.SelectionEdit: the same requirement as LegacyDocuments.Document.ProcessCommand.
- StateDocuments.Document.SelectItem: requires `CanSelect`, which excludes a shift-click on an empty list of frames, animations or hitboxes, where the intermediate engine's range panics in the same way.
- StateDocuments.SelectedItem: requires `CanSelect`, as StateDocuments.Document.SelectItem does.
- StateDocuments.Document.Dispatch: requires `CanSelect` for an `AlterSelection`.
- StateDocuments.Document.DispatchContentCommand: requires `CanSelect` for an `AlterSelection`.
- StateDocuments.Document.ProcessCommand: requires `CanSelect` for an `AlterSelection`.

Calls the editor would panic on, modelled as an error:

- Gestures.FramesSettled: a paused frame drop with no frame selected, at an index at or past the end of the sequence, inserts nothing and then reads `keyframe_times()[index]` out of bounds (src-tauri/src/document/transient.rs:134-139). The model fails with `NoKeyframeAtIndex` and leaves sheet and view unchanged (`Gestures.FrameDropWithoutFramesPastEnd`).
- Gestures.FrameDrop: inherits that failure of Gestures.FramesSettled.
- Gestures.PlanFrameDrop: inherits that failure of Gestures.FramesSettled.
- Gestures.DropFrameOnTimeline: inherits that failure of Gestures.FramesSettled, and keeps the drag session, as any failed drop does.
- CommandProcessing.ProcessGestureCommand: the frame drop effect inherits that failure of Gestures.FramesSettled.

The oldest engine (`src-tauri/src/state/document.rs`):

- LegacyDocuments.Document.RecordCommand: records with the corrected rule `LegacyHistory.RecordedIntended`. The oldest engine pushes a view-only change under `next_version` (src-tauri/src/state/document.rs:505-524); `LegacyHistory.Recorded` models that and `LegacyHistory.SavedAfterUndoThenViewChange` shows where the two differ (see "## Findings").
- LegacyDocuments.Document.ProcessCommand: records through LegacyDocuments.Document.RecordCommand, so with the same corrected rule.

The intermediate engine (`src-tauri/src/state/document/*`):

- StateDocuments.Document.RecordCommand: records with the same corrected rule, where the intermediate engine pushes under `next_version` (src-tauri/src/state/document/command.rs:239-258).
- StateDocuments.Document.EndGestureAndRecord: records with the corrected rule, as StateDocuments.Document.RecordCommand does.
- StateDocuments.Document.ProcessCommand: records with the corrected rule, as StateDocuments.Document.RecordCommand does.
- StateDocuments.Document.ProcessCommand: requires `IsModelled`. It carries out undo and redo, the view commands, content, timeline, drag and export commands, `AlterSelection`, `RenameHitbox` and `DeleteHitbox`. These commands are not modelled: `SetWorkbenchZoomFactor`, `HideSprite`/`ShowSprite`, `HideOrigin`/`ShowOrigin`, `DeleteSelectedAnimations`, the four `JumpTo*`, `SetTimelineZoomAmount`, `SelectDirection`, frame and keyframe drag-and-drop, `DeleteSelectedKeyframes`, keyframe and hitbox nudging, hitbox resizing, `CreateHitbox`, `DeleteSelectedHitboxes`, `LockHitboxes`/`UnlockHitboxes` and the hitbox position and size setters. The newest engine's versions of all of these are modelled.
- StateDocuments.Document.Dispatch: `AlterSelection(item, shift, ctrl)` is modelled by the intermediate engine's clicked-item operation `select_item` (src-tauri/src/state/document/selection.rs:100-143). The arrow-key `alter_selection(direction, shift)` of that file (145-202) is reachable from no command of this engine; only its timeline step `StateDocuments.TimelineOffsetFrom` is modelled. `nudge_selection` (74-98) and `delete_selection` (66-72), which no command of this engine calls, are not modelled.
- StateDocuments.Document.ProcessCommand: the intermediate engine's `sanitize_view`, run after every command, is not modelled.
- src-tauri/src/state/document/details.rs (hitbox position and aspect-ratio-preserving size setters) is not modelled. The newest engine's equivalents in `KeyframeEdits` are.
- src-tauri/src/state/document/clipboard.rs (copy and paste in the intermediate engine) is not modelled. The newest engine's clipboard is modelled in `Clipboards`.

Iteration and sort order:

- Clipboards.PasteEntries: adds the clipboard entries in ascending name order. `paste_animations` and `paste_hitboxes` walk a `HashMap` (src-tauri/src/document/clipboard.rs:50-62, 107-122), whose order is unspecified. The fresh names can depend on that order: pasting {walk, walk 2} over a sheet holding walk names the copy of walk "walk 2" and the copy of walk 2 "walk 2 2" in the model, while the other order names them "walk 3" and "walk 2". The sets of pasted contents, the selection of exactly the new entries and the freshness of every name hold in any order.
- Clipboards.PasteAnimations: pastes in ascending name order, as Clipboards.PasteEntries does.
- Clipboards.PasteHitboxes: pastes in ascending name order, as Clipboards.PasteEntries does.
- Clipboards.Paste: pastes in ascending name order, as Clipboards.PasteEntries does.
- Clipboards.PastedAnimationsSelected: is stated for the ascending name order of Clipboards.PasteEntries.
- Clipboards.PasteUnderTakenName: is stated for the ascending name order of Clipboards.PasteEntries.
- CommandProcessing.ProcessContentCommand: the paste effects use the ascending name order of Clipboards.PasteEntries.
- Gestures.FrameDrop: orders the dropped frames by comparing their paths as strings. `drop_frame_on_timeline` sorts `PathBuf`s, which compare component by component (src-tauri/src/document/transient.rs:117-149). The two orders differ when one name is a prefix of another followed by a character below `/`: as strings "walk-2/a.png" comes before "walk/a.png", as paths it comes after. That every selected frame is inserted once, as a block at the drop index, holds in either order.
- Gestures.PlanFrameDrop: orders the dropped frames as strings, as Gestures.FrameDrop does.
- Gestures.DropFrameOnTimeline: orders the dropped frames as strings, as Gestures.FrameDrop does.
- Gestures.FrameDropInsertsSelectedFrames: is stated for the string order of Gestures.FrameDrop.
- CommandProcessing.ProcessGestureCommand: the frame drop effect orders the frames as strings, as Gestures.FrameDrop does.
- Gestures.SortForDrop: sorts the dropped keyframes by start time and direction, then by index. `drop_keyframe_on_timeline` stable-sorts by start time and direction alone, starting from the selection's `HashSet` order (src-tauri/src/document/transient.rs:187-211), so two keyframes of one direction with the same start time (a zero-length keyframe and its successor) can come in either order there. The same tie-break is in Gestures.DropOrderSorts, Gestures.LastDropped and Gestures.KeyframeDrop. Distinct start times, or distinct directions, are ordered as in the editor.

Input and output:

- Reading and writing sheet files, serde parsing, and the `read_file` of each format version are not modelled. `Migrations.ReadSheet` starts from an already decoded file of any version.
- LiquidExport.SheetData: parsing and rendering the Liquid template are not modelled; only the data handed to the template is. Frames are identified by value, where the exporter compares references, and `i32` offsets do not wrap.
- The operating system's file-watch calls are parameters of `FileWatchers`: the older watcher ignores their outcome, and the newer one is told per directory whether the watch succeeded.
- Relocation.RelocateFrame: whether a file exists on disk is the `onDisk` parameter.
- ExportEditing.ValidateTemplatePath: whether a template parses is part of the `FileSystem` parameter.
- Observables.Observable.Notify: a callback is represented by what it answers, and whether it unsubscribes itself during the call. The process-wide id counter is the `SubscriptionIds` object. Thread safety of the atomic counter is not modelled.
- The persistent accessors, `Display for Command` and the error formatting have no behaviour to state and are not modelled.

Integer widths:

- Durations are unbounded `nat` milliseconds. Overflow of a `u64` sum of durations is not modelled. The saturating `u64` add and subtract of the duration drag are modelled with `Drags.ApplyDelta`.
- History version numbers are unbounded integers, where the editor uses `i32`.
- KeyframeEdits.ResizedToWidth: the product `new_width * height / old_width` is unbounded. The editor computes it in `u32` (src-tauri/src/document/keyframe.rs:95), which overflows once the product exceeds 4294967295.
- KeyframeEdits.ResizedToHeight: the same unbounded `u32` product (src-tauri/src/document/keyframe.rs:108).
- KeyframeEdits.SetHitboxWidth: uses KeyframeEdits.ResizedToWidth, so the same unbounded product.
- KeyframeEdits.SetHitboxHeight: uses KeyframeEdits.ResizedToHeight, so the same unbounded product.
- KeyframeEdits.NudgeKeyframe: keyframe offsets and hitbox positions are unbounded integers. The editor adds `i32` vectors (src-tauri/src/document/transient.rs:526-531), which panics in debug builds and wraps in release builds beyond 2147483647.
- Drags.KeyframesNudged: unbounded keyframe offsets and hitbox positions, as in KeyframeEdits.NudgeKeyframe.
- Drags.UpdateNudgeKeyframe: unbounded keyframe offsets and hitbox positions, as in KeyframeEdits.NudgeKeyframe.
- HitboxDrags.HitboxesNudged: unbounded hitbox positions, as in KeyframeEdits.NudgeKeyframe.
- HitboxDrags.UpdateNudgeHitbox: unbounded hitbox positions, as in KeyframeEdits.NudgeKeyframe.
- KeyframeEdits.SetKeyframeOffsetX: unbounded offsets and hitbox positions, as in KeyframeEdits.NudgeKeyframe.
- KeyframeEdits.SetKeyframeOffsetY: unbounded offsets and hitbox positions, as in KeyframeEdits.NudgeKeyframe.
- KeyframeEdits.SetHitboxPositionX: unbounded hitbox positions, as in KeyframeEdits.NudgeKeyframe.
- KeyframeEdits.SetHitboxPositionY: unbounded hitbox positions, as in KeyframeEdits.NudgeKeyframe.
- Metadata.FrameMetadata: the frame index and its packed position and size are unbounded. The exporter casts them `as i32` (src-tauri/src/export/metadata.rs:105-110), which wraps values above 2147483647.
- Metadata.KeyframeMetadata: the exported numbers are unbounded, as in Metadata.FrameMetadata.
- Metadata.SheetMetadata: the exported numbers are unbounded, as in Metadata.FrameMetadata.

## Findings

| source | as written | input that shows it | evidently intended | confidence | as-written member | corrected member |
|---|---|---|---|---|---|---|
| src-tauri/src/document/selection.rs:770-780 | The keyframe range replaces a missing pivot, or a pivot in another animation, by `unwrap_or_default()`, that is `("", East, 0)`. The range is then tagged with the animation name `""`. | Animation "walk" with one East keyframe and no pivot; shift-click that keyframe. The selection becomes {("", East, 0)}, a keyframe of no animation. | Start the range from the first keyframe of the clicked keyframe's own animation, as the intermediate engine does (src-tauri/src/state/document/selection.rs:574-576). Every selected keyframe is then one of the edited animation. | not executed | DocumentSelection.KeyframeClicked, with DocumentSelection.KeyframeClickedCounterexample and Selections.KeyframeRangeCounterexample | DocumentSelection.KeyframeClickedIntended, using Selections.KeyframeRange |
| src-tauri/src/state/document.rs:500-526 | A view-only change that cannot be merged pushes an entry carrying `next_version`, the newest version number, even when the cursor was moved back by undo and the sheet is an older one. | Change the sheet (version 1), save, undo, then change only the view. The new entry carries version 1 with the sheet of version 0, so `is_saved` holds for an unsaved sheet. The same code is at src-tauri/src/state/document/command.rs:234-260. | The pushed view-only entry carries the version of the entry it was made from. Every version then names one sheet, and `is_saved` means the sheet on disk is shown. | not executed | LegacyHistory.Recorded, with LegacyHistory.SavedAfterUndoThenViewChange | LegacyHistory.RecordedIntended, with LegacyHistory.RecordedIntendedKeepsVersions and LegacyHistory.SameVersionSameSheet |

Keyframe clicks in the document (`KeyframeSelected`, browsing, `SelectKeyframe`) use the range as written, so they behave as the editor does. The older documents record history with the corrected rule (`LegacyDocuments.Document.RecordCommand`, `StateDocuments.Document.RecordCommand`), so their `Valid` invariant holds: every version names one sheet.
