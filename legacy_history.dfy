/**
 * The undo history of the two older document engines: a capped list of
 * entries with a cursor, and the version counter that a change of the sheet
 * advances. Recording a command pushes an entry when the sheet changed; a
 * change of the view alone is folded into the entry under the cursor when
 * that entry did not itself change the sheet, and pushed otherwise. Undo and
 * redo only move the cursor. The command, sheet and view types are
 * parameters, since both engines keep the same history over their own types.
 */
module LegacyHistory {
  import opened Wrappers
  import UndoStacks

  /** The history never holds more entries than this. */
  const MaxHistoryLength: nat := 100

  datatype Entry<C, S, V> = Entry(lastCommand: Option<C>, sheet: S, view: V, version: int)

  datatype Log<C, S, V> = Log(entries: seq<Entry<C, S, V>>, index: nat, nextVersion: int)
  {
    predicate Valid() {
      0 < |entries| <= MaxHistoryLength && index < |entries|
    }

    function Current(): Entry<C, S, V>
      requires Valid()
    {
      entries[index]
    }

    /** `Document::version`: the version of the entry under the cursor. */
    function Version(): int
      requires Valid()
    {
      Current().version
    }
  }

  /** `Document::new`: one entry, version 0, the cursor on it. */
  function Started<C, S, V>(sheet: S, view: V): (r: Log<C, S, V>)
    ensures r.Valid() && r.entries == [Entry(None, sheet, view, 0)] && r.index == 0 && r.nextVersion == 0
  {
    Log([Entry(None, sheet, view, 0)], 0, 0)
  }

  /**
   * `push_undo_state`: the entries after the cursor are dropped, the new
   * entry goes last with the cursor on it, and the oldest entries go until
   * the cap holds. The entry the cursor was on comes right before it.
   */
  function Pushed<C, S, V>(h: Log<C, S, V>, entry: Entry<C, S, V>): (r: Log<C, S, V>)
    requires h.Valid()
    ensures r.Valid() && r.index == |r.entries| - 1 && r.Current() == entry
    ensures r.nextVersion == h.nextVersion
    ensures r.index >= 1 && r.entries[r.index - 1] == h.Current()
  {
    var entries := UndoStacks.Pushed(h.entries, h.index, entry, MaxHistoryLength);
    Log(entries, |entries| - 1, h.nextVersion)
  }

  /** A view change may be folded into the entry under the cursor when that entry kept the sheet of the one before it. */
  predicate CanMerge<C, S(==), V>(h: Log<C, S, V>)
    requires h.Valid()
  {
    h.index > 0 && h.entries[h.index - 1].sheet == h.Current().sheet
  }

  /** The entry under the cursor with its view replaced. */
  function WithCurrentView<C, S, V>(h: Log<C, S, V>, view: V): (r: Log<C, S, V>)
    requires h.Valid()
    ensures r.Valid() && r.index == h.index && |r.entries| == |h.entries| && r.nextVersion == h.nextVersion
    ensures r.Current() == h.Current().(view := view)
    ensures forall k :: 0 <= k < |h.entries| && k != h.index ==> r.entries[k] == h.entries[k]
  {
    h.(entries := h.entries[h.index := h.Current().(view := view)])
  }

  /**
   * `record_command`, as written: a changed sheet advances the version and
   * pushes; a view-only change merges or pushes an entry that carries the
   * latest version number, whichever sheet the cursor is on.
   */
  function Recorded<C, S(==), V(==)>(h: Log<C, S, V>, command: C, sheet: S, view: V): (r: Log<C, S, V>)
    requires h.Valid()
    ensures r.Valid()
  {
    if h.Current().sheet != sheet then
      var version := h.nextVersion + 1;
      Pushed(h.(nextVersion := version), Entry(Some(command), sheet, view, version))
    else if h.Current().view != view then
      if CanMerge(h) then WithCurrentView(h, view)
      else Pushed(h, Entry(Some(command), sheet, view, h.nextVersion))
    else h
  }

  /**
   * `record_command` as evidently intended: identical, except that a pushed
   * view-only entry carries the version of the entry it was made from, since
   * its sheet is that entry's sheet.
   */
  function RecordedIntended<C, S(==), V(==)>(h: Log<C, S, V>, command: C, sheet: S, view: V): (r: Log<C, S, V>)
    requires h.Valid()
    ensures r.Valid()
  {
    if h.Current().sheet != sheet then
      var version := h.nextVersion + 1;
      Pushed(h.(nextVersion := version), Entry(Some(command), sheet, view, version))
    else if h.Current().view != view then
      if CanMerge(h) then WithCurrentView(h, view)
      else Pushed(h, Entry(Some(command), sheet, view, h.Version()))
    else h
  }

  /** The two rules differ only on a pushed view-only change. */
  lemma RecordedIntendedDiffersOnlyThere<C, S, V>(h: Log<C, S, V>, command: C, sheet: S, view: V)
    requires h.Valid()
    requires h.Current().sheet != sheet || h.Current().view == view || CanMerge(h)
    ensures RecordedIntended(h, command, sheet, view) == Recorded(h, command, sheet, view)
  {
  }

  /**
   * After recording, the entry under the cursor holds the sheet and view
   * recorded; the version advances exactly when the sheet changed, and the
   * new entry then carries that version and the command.
   */
  lemma RecordedReflectsDocument<C, S, V>(h: Log<C, S, V>, command: C, sheet: S, view: V)
    requires h.Valid()
    ensures var r := RecordedIntended(h, command, sheet, view);
      && r.Current().sheet == sheet && r.Current().view == view
      && r.nextVersion == (if h.Current().sheet != sheet then h.nextVersion + 1 else h.nextVersion)
      && (h.Current().sheet != sheet ==> r.Version() == r.nextVersion && r.Current().lastCommand == Some(command))
      && (h.Current().sheet == sheet ==> r.Version() == h.Version())
  {
  }

  /** A view change under a mergeable entry does not grow the history. */
  lemma ViewChangesMerge<C, S, V>(h: Log<C, S, V>, command: C, view: V)
    requires h.Valid() && CanMerge(h) && h.Current().view != view
    ensures var r := RecordedIntended(h, command, h.Current().sheet, view);
      |r.entries| == |h.entries| && r.index == h.index && r.Version() == h.Version()
  {
  }

  // ----- Moving the cursor -----

  /** `Document::undo` on the history: one step back, unless at the first entry. */
  function Undone<C, S, V>(h: Log<C, S, V>): (r: Log<C, S, V>)
    requires h.Valid()
    ensures r.Valid() && r.entries == h.entries && r.nextVersion == h.nextVersion
    ensures r.index == if h.index > 0 then h.index - 1 else h.index
  {
    if h.index > 0 then h.(index := h.index - 1) else h
  }

  /** `Document::redo` on the history: one step forward, unless at the last entry. */
  function Redone<C, S, V>(h: Log<C, S, V>): (r: Log<C, S, V>)
    requires h.Valid()
    ensures r.Valid() && r.entries == h.entries && r.nextVersion == h.nextVersion
    ensures r.index == if h.index < |h.entries| - 1 then h.index + 1 else h.index
  {
    if h.index < |h.entries| - 1 then h.(index := h.index + 1) else h
  }

  /** `get_undo_command`: the command that made the entry under the cursor. */
  function UndoCommand<C, S, V>(h: Log<C, S, V>): (r: Option<C>)
    requires h.Valid()
    ensures r == h.Current().lastCommand
  {
    h.Current().lastCommand
  }

  /** `get_redo_command`: the command that made the next entry, if any. */
  function RedoCommand<C, S, V>(h: Log<C, S, V>): (r: Option<C>)
    requires h.Valid()
    ensures h.index == |h.entries| - 1 ==> r.None?
    ensures h.index < |h.entries| - 1 ==> r == h.entries[h.index + 1].lastCommand
  {
    if h.index < |h.entries| - 1 then h.entries[h.index + 1].lastCommand else None
  }

  /** Undo then redo, and redo then undo, come back to the same place. */
  lemma UndoRedoInverse<C, S, V>(h: Log<C, S, V>)
    requires h.Valid()
    ensures h.index > 0 ==> Redone(Undone(h)) == h
    ensures h.index < |h.entries| - 1 ==> Undone(Redone(h)) == h
  {
  }

  /** What undo offers to undo is what redo then offers to redo. */
  lemma UndoneCommandIsRedoable<C, S, V>(h: Log<C, S, V>)
    requires h.Valid() && h.index > 0
    ensures RedoCommand(Undone(h)) == UndoCommand(h)
  {
  }

  /** Undoing a recorded sheet change brings back the entry the change was made from; nothing is left to redo before it. */
  lemma {:induction false} SheetChangeUndoable<C, S, V>(h: Log<C, S, V>, command: C, sheet: S, view: V)
    requires h.Valid() && h.Current().sheet != sheet
    ensures var r := RecordedIntended(h, command, sheet, view);
      && Undone(r).Current() == h.Current()
      && RedoCommand(r).None?
      && RedoCommand(Undone(r)) == Some(command)
  {
    var version := h.nextVersion + 1;
    var r := Pushed(h.(nextVersion := version), Entry(Some(command), sheet, view, version));
    assert r.entries[r.index - 1] == h.Current();
  }

  // ----- Versions name sheets -----

  /** Every version in the history is at most the counter, and one version never names two sheets. */
  predicate VersionsNameSheets<C, S(==), V>(h: Log<C, S, V>) {
    && (forall k :: 0 <= k < |h.entries| ==> h.entries[k].version <= h.nextVersion)
    && (forall i, j :: 0 <= i < |h.entries| && 0 <= j < |h.entries| && h.entries[i].version == h.entries[j].version
          ==> h.entries[i].sheet == h.entries[j].sheet)
  }

  /** Everything in a pushed history comes from before, except the new entry. */
  lemma PushedEntries<C, S, V>(h: Log<C, S, V>, entry: Entry<C, S, V>)
    requires h.Valid()
    ensures var r := Pushed(h, entry);
      forall k :: 0 <= k < |r.entries| ==> r.entries[k] == entry || r.entries[k] in h.entries
  {
  }

  /** Pushing an entry keeps versions naming sheets when its version is not beyond the counter and names its sheet already. */
  lemma {:induction false} PushedKeepsVersions<C, S, V>(h: Log<C, S, V>, entry: Entry<C, S, V>)
    requires h.Valid() && VersionsNameSheets(h) && entry.version <= h.nextVersion
    requires forall k :: 0 <= k < |h.entries| && h.entries[k].version == entry.version ==> h.entries[k].sheet == entry.sheet
    ensures VersionsNameSheets(Pushed(h, entry))
  {
    var r := Pushed(h, entry);
    PushedEntries(h, entry);
    forall i, j | 0 <= i < |r.entries| && 0 <= j < |r.entries| && r.entries[i].version == r.entries[j].version
      ensures r.entries[i].sheet == r.entries[j].sheet
    {
      if r.entries[i] != entry {
        var a :| 0 <= a < |h.entries| && h.entries[a] == r.entries[i];
        if r.entries[j] != entry {
          var b :| 0 <= b < |h.entries| && h.entries[b] == r.entries[j];
        }
      } else if r.entries[j] != entry {
        var b :| 0 <= b < |h.entries| && h.entries[b] == r.entries[j];
      }
    }
    forall k | 0 <= k < |r.entries|
      ensures r.entries[k].version <= r.nextVersion
    {
      if r.entries[k] != entry {
        var a :| 0 <= a < |h.entries| && h.entries[a] == r.entries[k];
      }
    }
  }

  /** Changing the view under the cursor keeps versions naming sheets. */
  lemma WithCurrentViewKeepsVersions<C, S, V>(h: Log<C, S, V>, view: V)
    requires h.Valid() && VersionsNameSheets(h)
    ensures VersionsNameSheets(WithCurrentView(h, view))
  {
    var r := WithCurrentView(h, view);
    assert forall k :: 0 <= k < |r.entries| ==>
      r.entries[k].version == h.entries[k].version && r.entries[k].sheet == h.entries[k].sheet;
  }

  /** The corrected rule keeps versions naming sheets. */
  lemma {:induction false} RecordedIntendedKeepsVersions<C, S, V>(h: Log<C, S, V>, command: C, sheet: S, view: V)
    requires h.Valid() && VersionsNameSheets(h)
    ensures VersionsNameSheets(RecordedIntended(h, command, sheet, view))
  {
    if h.Current().sheet != sheet {
      var version := h.nextVersion + 1;
      PushedKeepsVersions(h.(nextVersion := version), Entry(Some(command), sheet, view, version));
    } else if h.Current().view != view {
      if CanMerge(h) {
        WithCurrentViewKeepsVersions(h, view);
      } else {
        PushedKeepsVersions(h, Entry(Some(command), sheet, view, h.Version()));
      }
    }
  }

  /**
   * With the corrected rule, a saved version that the cursor shows again
   * means the sheet saved: a document that reports itself saved holds the
   * sheet of the entry that was saved.
   */
  lemma SameVersionSameSheet<C, S, V>(h: Log<C, S, V>, saved: nat)
    requires h.Valid() && VersionsNameSheets(h) && saved < |h.entries|
    requires h.Version() == h.entries[saved].version
    ensures h.Current().sheet == h.entries[saved].sheet
  {
  }

  /**
   * The rule as written breaks this: record a change of the sheet, save,
   * undo, then change only the view. The new entry reuses the saved version
   * number while holding the sheet from before the saved change.
   */
  lemma SavedAfterUndoThenViewChange()
    ensures var h0: Log<int, int, int> := Started(0, 0);
      var h1 := Recorded(h0, 1, 1, 0);
      var saved := h1.Version();
      var h2 := Undone(h1);
      var h3 := Recorded(h2, 2, h2.Current().sheet, 1);
      && h3.Version() == saved && h3.Current().sheet != h1.Current().sheet
      && !VersionsNameSheets(Log(h1.entries + [h3.Current()], 0, h3.nextVersion))
      && RecordedIntended(h2, 2, h2.Current().sheet, 1).Version() != saved
  {
    var h0: Log<int, int, int> := Started(0, 0);
    var h1 := Recorded(h0, 1, 1, 0);
    assert h1.entries == [Entry(None, 0, 0, 0), Entry(Some(1), 1, 0, 1)];
    var h2 := Undone(h1);
    var h3 := Recorded(h2, 2, h2.Current().sheet, 1);
    assert h3.entries == [Entry(None, 0, 0, 0), Entry(Some(2), 0, 1, 1)];
    var joined := Log(h1.entries + [h3.Current()], 0, h3.nextVersion);
    assert joined.entries[1].version == joined.entries[2].version;
  }
}
