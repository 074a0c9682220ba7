/**
 * The undo history of a document: a capped list of entries with a cursor,
 * the version counter, and the view browsed while the cursor is away from
 * the head. Recording a command pushes or merges an entry; undo and redo
 * move the cursor and restore the sheet and view it points at.
 */
module History {
  import opened Wrappers
  import opened Sheets
  import opened Views
  import opened Documents
  import Commands
  import UndoStacks

  /** The history bookkeeping of a document, as one value. */
  datatype HistoryState = HistoryState(
    entries: seq<HistoryEntry>,
    index: nat,
    latestVersion: int,
    detachedView: Option<View>)
  {
    predicate Valid() {
      0 < |entries| <= MaxHistoryLength && index < |entries|
    }

    function Current(): HistoryEntry
      requires Valid()
    {
      entries[index]
    }

    predicate AtHead()
      requires Valid()
    {
      index == |entries| - 1
    }
  }

  function HistoryOf(doc: Document): HistoryState
    reads doc
  {
    HistoryState(doc.history, doc.historyIndex, doc.latestVersion, doc.detachedView)
  }

  /** The state after pushing `entry`. */
  function Push(h: HistoryState, entry: HistoryEntry): (r: HistoryState)
    requires h.Valid()
    ensures r.Valid() && r.AtHead() && r.Current() == entry
  {
    var entries := UndoStacks.Pushed(h.entries, h.index, entry, MaxHistoryLength);
    h.(entries := entries, index := |entries| - 1)
  }

  /** The state after replacing the view of the entry under the cursor. */
  function WithCurrentView(h: HistoryState, view: View): (r: HistoryState)
    requires h.Valid()
    ensures r.Valid()
  {
    h.(entries := h.entries[h.index := h.Current().(view := view)])
  }

  /**
   * `Document::can_merge_view`: a view change may be folded into the entry
   * under the cursor unless that entry is version 0, and only when that entry
   * itself did not change the sheet.
   */
  predicate CanMergeView(h: HistoryState)
    requires h.Valid()
  {
    h.Current().version != 0 && h.index > 0 && h.entries[h.index - 1].sheet == h.Current().sheet
  }

  /** A view-only change: merged into the current entry when allowed, pushed under a new version otherwise. */
  function RecordView(h: HistoryState, view: View, command: Commands.Command): (r: HistoryState)
    requires h.Valid()
    ensures r.Valid()
  {
    if CanMergeView(h) then WithCurrentView(h, view)
    else
      var version := h.latestVersion + 1;
      Push(h.(latestVersion := version), HistoryEntry(Some(command), h.Current().sheet, view, version))
  }

  /**
   * `Document::record_command`. A sheet change first records the view the
   * user browsed to while away from the head (if it differs from the entry
   * there), then pushes the change under a new version. A view-only change is
   * recorded only at the head. The browsed view is remembered while away
   * from the head and forgotten at it.
   */
  function Recorded(h: HistoryState, sheet: Sheet, view: View, command: Commands.Command): (r: HistoryState)
    requires h.Valid()
    ensures r.Valid()
  {
    var current := h.Current();
    var atHead := h.AtHead();
    var recorded :=
      if current.sheet != sheet then SheetChangeRecorded(h, sheet, view, command)
      else if current.view != view && atHead then RecordView(h, view, command)
      else h;
    recorded.(detachedView := if atHead then None else Some(view))
  }

  /** The sheet-change step of `record_command`: the browsed view first, then the change under a new version. */
  function SheetChangeRecorded(h: HistoryState, sheet: Sheet, view: View, command: Commands.Command): (r: HistoryState)
    requires h.Valid()
    ensures r.Valid()
  {
    var browsed := Browsed(h);
    var version := browsed.latestVersion + 1;
    Push(browsed.(latestVersion := version), HistoryEntry(Some(command), sheet, view, version))
  }

  /** The view browsed to away from the head, recorded when it differs from the entry there. */
  function Browsed(h: HistoryState): (r: HistoryState)
    requires h.Valid()
    ensures r.Valid() && r.Current().sheet == h.Current().sheet
  {
    if !h.AtHead() && h.detachedView.Some? && h.detachedView.value != h.Current().view then
      RecordViewKeepsSheet(h, h.detachedView.value, Commands.DetachedNavigation);
      RecordView(h, h.detachedView.value, Commands.DetachedNavigation)
    else h
  }

  /** `push_undo_state` on the history bookkeeping. */
  method PushEntry(h: HistoryState, entry: HistoryEntry) returns (r: HistoryState)
    requires h.Valid()
    ensures r == Push(h, entry)
  {
    var entries, index := UndoStacks.PushEntry(h.entries, h.index, entry, MaxHistoryLength);
    r := h.(entries := entries, index := index);
  }

  /** The view-change step of `record_command`: merge when allowed, push otherwise. */
  method RecordViewChange(h: HistoryState, view: View, command: Commands.Command) returns (r: HistoryState)
    requires h.Valid()
    ensures r == RecordView(h, view, command)
  {
    var current := h.entries[h.index];
    if h.index > 0 && current.version != 0 && h.entries[h.index - 1].sheet == current.sheet {
      r := h.(entries := h.entries[h.index := current.(view := view)]);
    } else {
      var version := h.latestVersion + 1;
      r := PushEntry(h.(latestVersion := version), HistoryEntry(Some(command), current.sheet, view, version));
    }
  }

  /** The body of `record_command` on the history bookkeeping, given the document's sheet and view. */
  method Record(h: HistoryState, sheet: Sheet, view: View, command: Commands.Command) returns (r: HistoryState)
    requires h.Valid()
    ensures r == Recorded(h, sheet, view, command)
  {
    var current := h.Current();
    var isAtHead := h.AtHead();
    if current.sheet != sheet {
      r := RecordSheetChange(h, sheet, view, command);
    } else if current.view != view && isAtHead {
      r := RecordViewChange(h, view, command);
    } else {
      r := h;
    }
    r := r.(detachedView := if isAtHead then None else Some(view));
  }

  /** The sheet-change step of `record_command`. */
  method RecordSheetChange(h: HistoryState, sheet: Sheet, view: View, command: Commands.Command) returns (r: HistoryState)
    requires h.Valid()
    ensures r == SheetChangeRecorded(h, sheet, view, command)
  {
    var browsed := Browse(h);
    var version := browsed.latestVersion + 1;
    r := PushEntry(browsed.(latestVersion := version), HistoryEntry(Some(command), sheet, view, version));
  }

  /** The browsing step of `record_command`. */
  method Browse(h: HistoryState) returns (r: HistoryState)
    requires h.Valid()
    ensures r == Browsed(h)
  {
    r := h;
    if !h.AtHead() && h.detachedView.Some? && h.detachedView.value != h.Current().view {
      r := RecordViewChange(h, h.detachedView.value, Commands.DetachedNavigation);
    }
  }

  /** `Document::push_undo_state`. */
  method PushUndoState(doc: Document, entry: HistoryEntry)
    requires doc.Valid()
    modifies doc
    ensures doc.Valid() && KeepsContent(doc)
    ensures HistoryOf(doc) == Push(old(HistoryOf(doc)), entry)
  {
    var r := PushEntry(HistoryOf(doc), entry);
    doc.history, doc.historyIndex := r.entries, r.index;
  }

  /** `Document::record_command`, applied to the document's own sheet and view. */
  method RecordCommand(doc: Document, command: Commands.Command)
    requires doc.Valid()
    modifies doc
    ensures doc.Valid()
    ensures KeepsContent(doc)
    ensures HistoryOf(doc) == Recorded(old(HistoryOf(doc)), old(doc.sheet), old(doc.view), command)
  {
    var r := Record(HistoryOf(doc), doc.sheet, doc.view, command);
    Store(doc, r);
  }

  /** Writes the history bookkeeping back into the document. */
  method Store(doc: Document, r: HistoryState)
    requires r.Valid()
    modifies doc
    ensures doc.Valid()
    ensures KeepsContent(doc)
    ensures HistoryOf(doc) == r
  {
    doc.history := r.entries;
    doc.historyIndex := r.index;
    doc.latestVersion := r.latestVersion;
    doc.detachedView := r.detachedView;
  }

  /** The fields of a document that recording into history leaves alone. */
  twostate predicate KeepsContent(doc: Document)
    reads doc
  {
    && doc.path == old(doc.path) && doc.sheet == old(doc.sheet) && doc.view == old(doc.view)
    && doc.transient == old(doc.transient) && doc.persistent == old(doc.persistent)
  }

  /**
   * A recorded sheet change becomes the entry under the cursor, at the head
   * of the history, under a version newer than any before it.
   */
  lemma RecordedSheetChange(h: HistoryState, sheet: Sheet, view: View, command: Commands.Command)
    requires h.Valid() && sheet != h.Current().sheet
    ensures var r := Recorded(h, sheet, view, command);
      && r.AtHead()
      && r.Current() == HistoryEntry(Some(command), sheet, view, r.latestVersion)
      && h.latestVersion < r.latestVersion <= h.latestVersion + 2
  {
  }

  /**
   * After a sheet change is recorded, the entry just before the cursor holds
   * the sheet the change was made on, so an undo brings that sheet back. At
   * the head the whole previous entry is kept, view included.
   */
  lemma RecordedSheetChangeUndoable(h: HistoryState, sheet: Sheet, view: View, command: Commands.Command)
    requires h.Valid() && sheet != h.Current().sheet
    ensures var r := Recorded(h, sheet, view, command);
      && r.index > 0
      && r.entries[r.index - 1].sheet == h.Current().sheet
      && (h.AtHead() ==> r.entries[r.index - 1] == h.Current())
  {
    SheetChangeKeepsPrevious(h, sheet, view, command);
  }

  /** The sheet-change step leaves the sheet that was under the cursor just before the new entry. */
  lemma SheetChangeKeepsPrevious(h: HistoryState, sheet: Sheet, view: View, command: Commands.Command)
    requires h.Valid()
    ensures var r := SheetChangeRecorded(h, sheet, view, command);
      && r.index > 0
      && r.entries[r.index - 1].sheet == h.Current().sheet
      && (h.AtHead() ==> r.entries[r.index - 1] == h.Current())
  {
    var browsed := Browsed(h);
    var version := browsed.latestVersion + 1;
    PushKeepsPrevious(browsed.(latestVersion := version), HistoryEntry(Some(command), sheet, view, version));
  }

  /** Recording a view change leaves the sheet under the cursor as it was. */
  lemma RecordViewKeepsSheet(h: HistoryState, view: View, command: Commands.Command)
    requires h.Valid()
    ensures RecordView(h, view, command).Current().sheet == h.Current().sheet
  {
  }

  /**
   * Recording a command that did not change the sheet never puts a different
   * sheet under the history cursor: a view-only change is merged or pushed
   * with the sheet it had.
   */
  lemma ViewOnlyRecordingKeepsSheet(h: HistoryState, view: View, c: Commands.Command)
    requires h.Valid()
    ensures Recorded(h, h.Current().sheet, view, c).Current().sheet == h.Current().sheet
    ensures Recorded(h, h.Current().sheet, view, c).latestVersion <= h.latestVersion + 1
  {
    var atHead := h.AtHead();
    var r := Recorded(h, h.Current().sheet, view, c);
    if h.Current().view != view && atHead {
      var pushed := RecordView(h, view, c);
      RecordViewKeepsSheet(h, view, c);
      assert r == pushed.(detachedView := None);
    } else {
      assert r == h.(detachedView := if atHead then None else Some(view));
    }
  }

  /** After a push, the entry that was under the cursor sits just before the new one. */
  lemma PushKeepsPrevious(h: HistoryState, entry: HistoryEntry)
    requires h.Valid()
    ensures Push(h, entry).index > 0 && Push(h, entry).entries[Push(h, entry).index - 1] == h.Current()
  {
    var entries := UndoStacks.Pushed(h.entries, h.index, entry, MaxHistoryLength);
    assert entries[|entries| - 2] == h.Current();
  }

  /** A command that changed neither the sheet nor the view leaves the entries, the cursor and the versions alone. */
  lemma RecordedNoChange(h: HistoryState, command: Commands.Command)
    requires h.Valid()
    ensures var r := Recorded(h, h.Current().sheet, h.Current().view, command);
      && r.entries == h.entries && r.index == h.index && r.latestVersion == h.latestVersion
      && r.detachedView == (if h.AtHead() then None else Some(h.Current().view))
  {
  }

  /**
   * A view-only change at the head is merged into the entry under the cursor
   * when `can_merge_view` holds, and pushed under a new version otherwise.
   */
  lemma RecordedViewChangeAtHead(h: HistoryState, view: View, command: Commands.Command)
    requires h.Valid() && h.AtHead() && view != h.Current().view
    ensures var r := Recorded(h, h.Current().sheet, view, command);
      && r.Current().view == view && r.Current().sheet == h.Current().sheet && r.detachedView.None?
      && (CanMergeView(h) ==>
            && r.index == h.index && r.latestVersion == h.latestVersion
            && r.entries == h.entries[h.index := h.Current().(view := view)])
      && (!CanMergeView(h) ==>
            && r.AtHead() && r.latestVersion == h.latestVersion + 1
            && r.Current() == HistoryEntry(Some(command), h.Current().sheet, view, r.latestVersion)
            && r.entries[r.index - 1] == h.Current())
  {
  }

  /** Browsing away from the head changes no entry; the browsed view is only remembered. */
  lemma RecordedViewChangeDetached(h: HistoryState, view: View, command: Commands.Command)
    requires h.Valid() && !h.AtHead()
    ensures var r := Recorded(h, h.Current().sheet, view, command);
      && r.entries == h.entries && r.index == h.index && r.latestVersion == h.latestVersion
      && r.detachedView == Some(view)
  {
  }

  // ----- Undo and redo -----

  /** The cursor after `undo`: one entry back, unless already at the first. */
  function UndoneIndex(h: HistoryState): (i: nat)
    requires h.Valid()
    ensures i < |h.entries|
    ensures h.index > 0 ==> i == h.index - 1
    ensures h.index == 0 ==> i == 0
  {
    if h.index > 0 then h.index - 1 else h.index
  }

  /** The cursor after `redo`: one entry forward, unless already at the head. */
  function RedoneIndex(h: HistoryState): (i: nat)
    requires h.Valid()
    ensures i < |h.entries|
    ensures !h.AtHead() ==> i == h.index + 1
    ensures h.AtHead() ==> i == h.index
  {
    if h.index < |h.entries| - 1 then h.index + 1 else h.index
  }

  /** Redo takes back an undo, and undo takes back a redo. */
  lemma UndoRedoInverse(h: HistoryState)
    requires h.Valid()
    ensures h.index > 0 ==> RedoneIndex(h.(index := UndoneIndex(h))) == h.index
    ensures !h.AtHead() ==> UndoneIndex(h.(index := RedoneIndex(h))) == h.index
  {
  }

  /** Right after a change is recorded there is nothing to redo. */
  lemma NothingToRedoAfterChange(h: HistoryState, sheet: Sheet, view: View, command: Commands.Command)
    requires h.Valid() && sheet != h.Current().sheet
    ensures var r := Recorded(h, sheet, view, command);
      RedoneIndex(r) == r.index && RedoCommand(r).None?
  {
  }

  /** `Document::undo`: restores the previous entry's sheet and view and stops playback. */
  method Undo(doc: Document) returns (r: Result<(), DocumentError>)
    requires doc.Valid()
    modifies doc
    ensures doc.Valid() && r.Ok?
    ensures doc.historyIndex == UndoneIndex(old(HistoryOf(doc)))
    ensures old(doc.historyIndex) > 0 ==>
      && doc.sheet == doc.history[doc.historyIndex].sheet
      && doc.view == doc.history[doc.historyIndex].view
      && doc.persistent == old(doc.persistent).(timelineIsPlaying := false)
    ensures old(doc.historyIndex) == 0 ==>
      doc.sheet == old(doc.sheet) && doc.view == old(doc.view) && doc.persistent == old(doc.persistent)
    ensures doc.path == old(doc.path) && doc.transient == old(doc.transient)
    ensures doc.history == old(doc.history) && doc.latestVersion == old(doc.latestVersion)
    ensures doc.detachedView == old(doc.detachedView)
  {
    if doc.historyIndex > 0 {
      doc.historyIndex := doc.historyIndex - 1;
      doc.sheet := doc.history[doc.historyIndex].sheet;
      doc.view := doc.history[doc.historyIndex].view;
      doc.persistent := doc.persistent.(timelineIsPlaying := false);
    }
    r := Ok(());
  }

  /** `Document::redo`: restores the next entry's sheet and view and stops playback. */
  method Redo(doc: Document) returns (r: Result<(), DocumentError>)
    requires doc.Valid()
    modifies doc
    ensures doc.Valid() && r.Ok?
    ensures doc.historyIndex == RedoneIndex(old(HistoryOf(doc)))
    ensures old(doc.historyIndex) < |doc.history| - 1 ==>
      && doc.sheet == doc.history[doc.historyIndex].sheet
      && doc.view == doc.history[doc.historyIndex].view
      && doc.persistent == old(doc.persistent).(timelineIsPlaying := false)
    ensures old(doc.historyIndex) == |doc.history| - 1 ==>
      doc.sheet == old(doc.sheet) && doc.view == old(doc.view) && doc.persistent == old(doc.persistent)
    ensures doc.path == old(doc.path) && doc.transient == old(doc.transient)
    ensures doc.history == old(doc.history) && doc.latestVersion == old(doc.latestVersion)
    ensures doc.detachedView == old(doc.detachedView)
  {
    if doc.historyIndex < |doc.history| - 1 {
      doc.historyIndex := doc.historyIndex + 1;
      doc.sheet := doc.history[doc.historyIndex].sheet;
      doc.view := doc.history[doc.historyIndex].view;
      doc.persistent := doc.persistent.(timelineIsPlaying := false);
    }
    r := Ok(());
  }

  /** `Document::undo_command`: the command that produced the entry under the cursor. */
  function UndoCommand(h: HistoryState): (c: Option<Commands.Command>)
    requires h.Valid()
    ensures c == h.entries[h.index].lastCommand
  {
    h.Current().lastCommand
  }

  /** `Document::redo_command`: the command of the next entry, none at the head. */
  function RedoCommand(h: HistoryState): (c: Option<Commands.Command>)
    requires h.Valid()
    ensures h.AtHead() ==> c.None?
    ensures !h.AtHead() ==> c == h.entries[h.index + 1].lastCommand
  {
    if h.index < |h.entries| - 1 then h.entries[h.index + 1].lastCommand else None
  }
}
