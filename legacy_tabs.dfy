/**
 * The tab list of the first editor's `AppState`: a tab per open sheet, the
 * focused tab's path and the application clock. A new or opened document
 * gets a tab unless one exists for its path, relocating a document renames
 * its tab, and closing the focused tab hands the focus to its neighbour.
 */
module LegacyTabs {
  import opened Wrappers
  import Selections
  import LegacyApps

  type Path = string

  /**
   * A tab: the path of its sheet, and whether its document was read from
   * that path or created empty.
   */
  datatype Tab = Tab(source: Path, readFromDisk: bool)

  datatype StateError = NoDocumentOpen | DocumentNotFound | ReadFailed

  function Sources(tabs: seq<Tab>): (r: seq<Path>)
    ensures |r| == |tabs|
    ensures forall i :: 0 <= i < |tabs| ==> r[i] == tabs[i].source
  {
    seq(|tabs|, i requires 0 <= i < |tabs| => tabs[i].source)
  }

  /** The index of the first tab showing `path`. */
  function FindTab(tabs: seq<Tab>, path: Path): (r: Option<nat>)
    ensures r.None? <==> path !in Sources(tabs)
    ensures r.Some? ==> r.value < |tabs| && tabs[r.value].source == path
    ensures r.Some? ==> forall j :: 0 <= j < r.value ==> tabs[j].source != path
  {
    Selections.IndexOf(Sources(tabs), path)
  }

  /** `end_new_document` on the list: a fresh tab replaces the one at `path`, or is appended. */
  function WithNewTab(tabs: seq<Tab>, path: Path): (r: seq<Tab>)
    ensures path in Sources(tabs) ==> Sources(r) == Sources(tabs)
    ensures path !in Sources(tabs) ==> Sources(r) == Sources(tabs) + [path]
    ensures FindTab(r, path).Some? && r[FindTab(r, path).value] == Tab(path, false)
  {
    match FindTab(tabs, path)
    case Some(i) =>
      var r := tabs[i := Tab(path, false)];
      assert Sources(r) == Sources(tabs);
      r
    case None =>
      var r := tabs + [Tab(path, false)];
      assert Sources(r) == Sources(tabs) + [path];
      r
  }

  /** Adding or replacing a tab never shows a path twice. */
  lemma NewTabKeepsSourcesUnique(tabs: seq<Tab>, path: Path)
    requires LegacyApps.UniquePaths(Sources(tabs))
    ensures LegacyApps.UniquePaths(Sources(WithNewTab(tabs, path)))
  {
  }

  /** The tabs after renaming the tab at `index` to `to`. */
  function Relocated(tabs: seq<Tab>, index: nat, to: Path): (r: seq<Tab>)
    requires index < |tabs|
    ensures |r| == |tabs| && r[index].source == to
    ensures forall i :: 0 <= i < |tabs| && i != index ==> r[i] == tabs[i]
  {
    tabs[index := tabs[index].(source := to)]
  }

  /** Relocating onto a path that no tab shows keeps the paths distinct and drops the old one. */
  lemma RelocateToFreePathKeepsUnique(tabs: seq<Tab>, from: Path, to: Path)
    requires LegacyApps.UniquePaths(Sources(tabs)) && from in Sources(tabs) && to !in Sources(tabs)
    ensures LegacyApps.UniquePaths(Sources(Relocated(tabs, FindTab(tabs, from).value, to)))
    ensures from !in Sources(Relocated(tabs, FindTab(tabs, from).value, to))
  {
    var index := FindTab(tabs, from).value;
    var r := Relocated(tabs, index, to);
    forall k | 0 <= k < |r|
      ensures r[k].source != from
    {
      if k != index {
        assert Sources(tabs)[k] != Sources(tabs)[index] || k == index;
      }
    }
  }

  /**
   * Relocating onto a path that another tab already shows leaves two tabs
   * with that path: nothing in `relocate_document` checks the target.
   */
  lemma RelocateOntoOpenPathDuplicates(tabs: seq<Tab>, from: Path, to: Path)
    requires from in Sources(tabs) && to in Sources(tabs) && from != to
    ensures !LegacyApps.UniquePaths(Sources(Relocated(tabs, FindTab(tabs, from).value, to)))
  {
    var i := FindTab(tabs, from).value;
    var j := FindTab(tabs, to).value;
    var r := Relocated(tabs, i, to);
    assert Sources(r)[i] == Sources(r)[j];
    if i < j {
      assert !(Sources(r)[i] != Sources(r)[j]);
    } else {
      assert !(Sources(r)[j] != Sources(r)[i]);
    }
  }

  /** The tabs and focus after `close_current_document`, or the error it returns. */
  function ClosedCurrent(tabs: seq<Tab>, current: Option<Path>): (r: Result<(seq<Tab>, Option<Path>), StateError>)
    ensures r.Err? <==> current.None? || current.value !in Sources(tabs)
    ensures r.Err? ==> r.error == NoDocumentOpen
    ensures r.Ok? ==> r.value.0 == LegacyApps.RemoveAt(tabs, FindTab(tabs, current.value).value)
    ensures r.Ok? ==> r.value.1 == LegacyApps.FocusAfterClose(Sources(r.value.0), FindTab(tabs, current.value).value)
  {
    if current.None? then Err(NoDocumentOpen)
    else match FindTab(tabs, current.value)
      case None => Err(NoDocumentOpen)
      case Some(index) =>
        var remaining := LegacyApps.RemoveAt(tabs, index);
        Ok((remaining, LegacyApps.FocusAfterClose(Sources(remaining), index)))
  }

  /** Closing the focused tab removes its path and leaves the focus on a remaining tab. */
  lemma CloseCurrentRemovesTab(tabs: seq<Tab>, current: Path)
    requires LegacyApps.UniquePaths(Sources(tabs)) && current in Sources(tabs)
    ensures ClosedCurrent(tabs, Some(current)).Ok?
    ensures current !in Sources(ClosedCurrent(tabs, Some(current)).value.0)
    ensures LegacyApps.UniquePaths(Sources(ClosedCurrent(tabs, Some(current)).value.0))
  {
    var index := FindTab(tabs, current).value;
    assert Sources(LegacyApps.RemoveAt(tabs, index)) == LegacyApps.RemoveAt(Sources(tabs), index);
    LegacyApps.RemoveKeepsUnique(Sources(tabs), index);
  }

  /** Tabs with distinct paths, the focused one among them. */
  predicate ValidTabs(tabs: seq<Tab>, current: Option<Path>) {
    LegacyApps.UniquePaths(Sources(tabs)) && (current.Some? ==> current.value in Sources(tabs))
  }

  /** The application state: tabs, focus and clock, updated in place. */
  class AppState {
    var tabs: seq<Tab>
    var currentTab: Option<Path>
    var clock: nat

    predicate Valid()
      reads this
    {
      ValidTabs(tabs, currentTab)
    }

    constructor()
      ensures tabs == [] && currentTab == None && clock == 0
      ensures Valid()
    {
      tabs := [];
      currentTab := None;
      clock := 0;
    }

    /** The application clock advances by `delta` milliseconds. */
    method Tick(delta: nat)
      modifies this
      ensures clock == old(clock) + delta
      ensures tabs == old(tabs) && currentTab == old(currentTab)
    {
      clock := clock + delta;
    }

    predicate IsOpened(path: Path)
      reads this
    {
      path in Sources(tabs)
    }

    /** `add_tab` asserts that no tab shows the new tab's path. */
    method AddTab(tab: Tab)
      requires !IsOpened(tab.source)
      modifies this
      ensures tabs == old(tabs) + [tab]
      ensures currentTab == old(currentTab) && clock == old(clock)
      ensures old(LegacyApps.UniquePaths(Sources(tabs))) ==> LegacyApps.UniquePaths(Sources(tabs))
    {
      tabs := tabs + [tab];
      assert Sources(tabs) == Sources(old(tabs)) + [tab.source];
    }

    method EndNewDocument(path: Path)
      modifies this
      ensures tabs == WithNewTab(old(tabs), path)
      ensures currentTab == Some(path) && clock == old(clock)
      ensures old(Valid()) ==> Valid()
    {
      var index := FindTab(tabs, path);
      if index.Some? {
        tabs := tabs[index.value := Tab(path, false)];
      } else {
        AddTab(Tab(path, false));
      }
      currentTab := Some(path);
    }

    /**
     * `end_open_document`: a path without a tab is read from disk into a new
     * tab, and then focused. `readSucceeds` stands for the outcome of reading
     * the sheet file; a failed read changes nothing.
     */
    method EndOpenDocument(path: Path, readSucceeds: bool) returns (r: Result<(), StateError>)
      modifies this
      ensures r.Err? <==> !old(IsOpened(path)) && !readSucceeds
      ensures r.Err? ==> r.error == ReadFailed && tabs == old(tabs) && currentTab == old(currentTab)
      ensures r.Ok? && old(IsOpened(path)) ==> tabs == old(tabs)
      ensures r.Ok? && !old(IsOpened(path)) ==> tabs == old(tabs) + [Tab(path, true)]
      ensures r.Ok? ==> currentTab == Some(path)
      ensures clock == old(clock)
      ensures old(Valid()) ==> Valid()
    {
      if FindTab(tabs, path).None? {
        if !readSucceeds {
          return Err(ReadFailed);
        }
        AddTab(Tab(path, true));
        assert Sources(tabs)[|tabs| - 1] == path;
      }
      currentTab := Some(path);
      r := Ok(());
    }

    /**
     * `relocate_document`: the first tab showing `from` now shows `to`, and
     * the focus follows it when it was on `from`.
     */
    method RelocateDocument(from: Path, to: Path) returns (r: Result<(), StateError>)
      modifies this
      ensures r.Err? <==> !old(IsOpened(from))
      ensures r.Err? ==> r.error == DocumentNotFound && tabs == old(tabs) && currentTab == old(currentTab)
      ensures r.Ok? ==> tabs == Relocated(old(tabs), FindTab(old(tabs), from).value, to)
      ensures r.Ok? ==> currentTab == if old(currentTab) == Some(from) then Some(to) else old(currentTab)
      ensures clock == old(clock)
    {
      var i := 0;
      while i < |tabs|
        invariant 0 <= i <= |tabs|
        invariant tabs == old(tabs) && currentTab == old(currentTab)
        invariant forall j :: 0 <= j < i ==> tabs[j].source != from
      {
        if tabs[i].source == from {
          assert FindTab(tabs, from) == Some(i);
          tabs := tabs[i := tabs[i].(source := to)];
          if Some(from) == currentTab {
            currentTab := Some(to);
          }
          return Ok(());
        }
        i := i + 1;
      }
      r := Err(DocumentNotFound);
    }

    method CloseCurrentDocument() returns (r: Result<(), StateError>)
      modifies this
      ensures r.Err? <==> ClosedCurrent(old(tabs), old(currentTab)).Err?
      ensures r.Err? ==> r.error == NoDocumentOpen && tabs == old(tabs) && currentTab == old(currentTab)
      ensures r.Ok? ==> (tabs, currentTab) == ClosedCurrent(old(tabs), old(currentTab)).value
      ensures clock == old(clock)
      ensures old(Valid()) ==> Valid()
    {
      if currentTab.None? {
        return Err(NoDocumentOpen);
      }
      var index := FindTab(tabs, currentTab.value);
      if index.None? {
        return Err(NoDocumentOpen);
      }
      if old(Valid()) {
        CloseCurrentRemovesTab(tabs, currentTab.value);
      }
      tabs := LegacyApps.RemoveAt(tabs, index.value);
      currentTab := LegacyApps.FocusAfterClose(Sources(tabs), index.value);
      r := Ok(());
    }

    method CloseAllDocuments()
      modifies this
      ensures tabs == [] && currentTab == None && clock == old(clock)
      ensures Valid()
    {
      tabs := [];
      currentTab := None;
    }

    /** `FocusDocument`: the focus moves only to a path that has a tab. */
    method FocusDocument(path: Path)
      modifies this
      ensures currentTab == if old(IsOpened(path)) then Some(path) else old(currentTab)
      ensures tabs == old(tabs) && clock == old(clock)
      ensures old(Valid()) ==> Valid()
    {
      if IsOpened(path) {
        currentTab := Some(path);
      }
    }
  }
}
