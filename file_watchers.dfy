/**
 * Keeping the operating system's file watches in line with the frames the
 * open documents use. The watch calls themselves are outside the model: the
 * older watcher ignores their outcome, and the newer one is told, per
 * directory, whether the call succeeds.
 */
module FileWatchers {
  import opened Wrappers
  import opened Sheets
  import Paths
  import TextureLists

  /** The watcher of the older engine: one watch per frame file. */
  class FileWatcher {
    var watchedFiles: set<Path>

    constructor()
      ensures watchedFiles == {}
    {
      watchedFiles := {};
    }

    /**
     * `FileWatcher::update_watched_files`: unwatch every file no document
     * uses any more, then watch every used file not watched yet. A file is
     * recorded as watched whether or not the watch call succeeds, so the
     * watched set ends up exactly the set of frame sources.
     */
    method UpdateWatchedFiles(sheets: seq<Sheet>)
      modifies this
      ensures watchedFiles == TextureLists.AppTextures(sheets)
    {
      var relevant := TextureLists.AppTextures(sheets);
      var kept := Unwatched(watchedFiles, relevant);
      var toWatch := relevant - kept;
      var watched := kept;
      while toWatch != {}
        invariant toWatch == relevant - watched
        invariant watched <= relevant
        decreases |toWatch|
      {
        var file :| file in toWatch;
        watched := watched + {file};
        toWatch := toWatch - {file};
      }
      watchedFiles := watched;
    }
  }

  /** The first half of both updates: every watched path that is no longer relevant is unwatched. */
  method Unwatched(watched: set<Path>, relevant: set<Path>) returns (r: set<Path>)
    ensures r == watched * relevant
  {
    r := watched;
    var toUnwatch := r - relevant;
    while toUnwatch != {}
      invariant toUnwatch == r - relevant
      invariant r * relevant == watched * relevant
      invariant forall x :: x in r ==> x in relevant || x in toUnwatch
      decreases |toUnwatch|
    {
      var path :| path in toUnwatch;
      r := r - {path};
      toUnwatch := toUnwatch - {path};
    }
    assert r * relevant == r;
  }

  /** The second half of the newer update: each new directory is recorded when its watch call succeeds. */
  method WatchedWhereWatchable(kept: set<Path>, toWatch: set<Path>, watchable: set<Path>) returns (r: set<Path>)
    ensures r == kept + toWatch * watchable
  {
    r := kept;
    var remaining := toWatch;
    while remaining != {}
      invariant remaining <= toWatch
      invariant r == kept + (toWatch - remaining) * watchable
      decreases |remaining|
    {
      var directory :| directory in remaining;
      if directory in watchable {
        r := r + {directory};
      }
      remaining := remaining - {directory};
    }
  }

  /** The directories holding the relevant files: the parents of those that have one. */
  function RelevantDirectories(files: set<Path>): (r: set<Path>)
    ensures forall d :: d in r <==> exists f :: f in files && Paths.Parent(f) == Some(d)
  {
    set f | f in files && Paths.Parent(f).Some? :: Paths.Parent(f).value
  }

  /**
   * `EventFilter::handle_event`: of a batch of file events, only those about
   * a relevant file are passed on, in their order.
   */
  function FilterEvents(events: seq<Path>, relevant: set<Path>): (r: seq<Path>)
    ensures forall e :: e in r <==> e in events && e in relevant
    ensures |r| <= |events|
    ensures (forall e :: e in events ==> e in relevant) ==> r == events
  {
    if events == [] then []
    else (if events[0] in relevant then [events[0]] else []) + FilterEvents(events[1..], relevant)
  }

  /** An event about a relevant file is passed on as many times as it occurs, any other never. */
  lemma {:induction false} FilterEventsCounts(events: seq<Path>, relevant: set<Path>, e: Path)
    ensures multiset(FilterEvents(events, relevant))[e] == if e in relevant then multiset(events)[e] else 0
  {
    if events != [] {
      FilterEventsCounts(events[1..], relevant, e);
      assert events == [events[0]] + events[1..];
    }
  }

  /**
   * Filtering a batch made of two batches filters each and keeps them in that
   * order, so the events passed on keep their relative order.
   */
  lemma {:induction false} FilterEventsAppend(a: seq<Path>, b: seq<Path>, relevant: set<Path>)
    ensures FilterEvents(a + b, relevant) == FilterEvents(a, relevant) + FilterEvents(b, relevant)
  {
    if a == [] {
      assert a + b == b;
    } else {
      assert (a + b)[0] == a[0] && (a + b)[1..] == a[1..] + b;
      FilterEventsAppend(a[1..], b, relevant);
    }
  }

  /** The watcher of the newer engine: one watch per directory holding a frame file. */
  class DirectoryWatcher {
    var watchedDirectories: set<Path>

    constructor()
      ensures watchedDirectories == {}
    {
      watchedDirectories := {};
    }

    /** `FileWatcher::is_watching`: the path's parent directory is watched. */
    predicate IsWatching(path: Path)
      reads this
    {
      match Paths.Parent(path)
      case None => false
      case Some(directory) => directory in watchedDirectories
    }

    /**
     * `FileWatcher::update_watched_files`: unwatch every directory that holds
     * no relevant file any more, then watch every relevant directory not
     * watched yet, recording it only when the watch call (here: membership
     * in `watchable`) succeeds.
     */
    method UpdateWatchedFiles(relevantFiles: set<Path>, watchable: set<Path>)
      modifies this
      ensures var relevant := RelevantDirectories(relevantFiles);
        watchedDirectories == old(watchedDirectories) * relevant + (relevant - old(watchedDirectories)) * watchable
      ensures watchedDirectories <= RelevantDirectories(relevantFiles)
      ensures forall d :: d in watchedDirectories && d !in old(watchedDirectories) ==> d in watchable
      ensures RelevantDirectories(relevantFiles) <= watchable ==>
        forall f :: f in relevantFiles && Paths.Parent(f).Some? ==> IsWatching(f)
    {
      var relevant := RelevantDirectories(relevantFiles);
      var kept := Unwatched(watchedDirectories, relevant);
      var watched := WatchedWhereWatchable(kept, relevant - kept, watchable);
      watchedDirectories := watched;
    }
  }
}
