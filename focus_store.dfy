/**
 * The front-end focus store: a counter of the dialogs and text fields that
 * currently hold keyboard input for themselves. Traps nest, so the keyboard
 * shortcuts are live again only once every trap has been freed.
 */
module FocusStores {

  /** The two actions of the store. */
  datatype FocusAction = TrapInput | FreeInput

  /** The counter after one action: a trap adds one, a release removes one. */
  function Step(count: int, action: FocusAction): (r: int)
    ensures action.TrapInput? ==> r == count + 1
    ensures action.FreeInput? ==> r == count - 1
  {
    match action
    case TrapInput => count + 1
    case FreeInput => count - 1
  }

  /** The counter after a series of actions, taken in order. */
  function Run(count: int, actions: seq<FocusAction>): int
    decreases |actions|
  {
    if actions == [] then count else Run(Step(count, actions[0]), actions[1..])
  }

  /** Traps taken minus traps freed. */
  function Balance(actions: seq<FocusAction>): int
    decreases |actions|
  {
    if actions == [] then 0
    else (if actions[0].TrapInput? then 1 else -1) + Balance(actions[1..])
  }

  /** Running a series of actions moves the counter by exactly its balance. */
  lemma {:induction false} RunMovesByBalance(count: int, actions: seq<FocusAction>)
    ensures Run(count, actions) == count + Balance(actions)
    decreases |actions|
  {
    if actions != [] {
      RunMovesByBalance(Step(count, actions[0]), actions[1..]);
    }
  }

  /**
   * From the initial counter, a series with as many releases as traps leaves
   * the input untrapped, and a series with more traps leaves it trapped.
   */
  lemma BalancedActionsFreeInput(actions: seq<FocusAction>)
    ensures Balance(actions) == 0 ==> !Trapped(Run(0, actions))
    ensures Balance(actions) > 0 ==> Trapped(Run(0, actions))
  {
    RunMovesByBalance(0, actions);
  }

  /** `isInputTrapped` on a counter value. */
  predicate Trapped(count: int) {
    count > 0
  }

  /** The store itself: one integer counter, which the actions update in place. */
  class FocusStore {
    var trapCount: int

    constructor()
      ensures trapCount == 0 && !IsInputTrapped()
    {
      trapCount := 0;
    }

    method TrapInput()
      modifies this
      ensures trapCount == Step(old(trapCount), FocusAction.TrapInput)
      ensures IsInputTrapped() <== old(trapCount) >= 0
    {
      trapCount := trapCount + 1;
    }

    method FreeInput()
      modifies this
      ensures trapCount == Step(old(trapCount), FocusAction.FreeInput)
    {
      trapCount := trapCount - 1;
    }

    /** `isInputTrapped`: a trap is held while the counter is positive. */
    predicate IsInputTrapped()
      reads this
    {
      Trapped(trapCount)
    }
  }
}

/**
 * The front-end sprite store: a per-path invalidation counter whose value is
 * appended to the image URL, so that a texture reloaded from disk gets a new
 * URL and the browser fetches it again.
 */
module SpriteStores {
  import Names

  /** The counter of `path`, treating a path never invalidated as 0. */
  function CountOf(counts: map<string, nat>, path: string): (r: nat)
    ensures path !in counts ==> r == 0
    ensures path in counts ==> r == counts[path]
  {
    if path in counts then counts[path] else 0
  }

  /** The counts after `invalidate(path)`. */
  function Invalidated(counts: map<string, nat>, path: string): (r: map<string, nat>)
    ensures path in r && CountOf(r, path) == CountOf(counts, path) + 1
    ensures forall other :: other != path ==> CountOf(r, other) == CountOf(counts, other)
    ensures r.Keys == counts.Keys + {path}
  {
    counts[path := CountOf(counts, path) + 1]
  }

  const InvalidationQuery := "?invalidation="

  /**
   * `getURL(path)`: the asset URL of the file followed by the invalidation
   * query. `assetUrl` is the result of the host's `convertFileSrc` for it.
   */
  function Url(counts: map<string, nat>, assetUrl: string, path: string): (r: string)
    ensures |r| == |assetUrl| + |InvalidationQuery| + |Names.NatToString(CountOf(counts, path))|
    ensures r[..|assetUrl|] == assetUrl
    ensures r[|assetUrl|..|assetUrl| + |InvalidationQuery|] == InvalidationQuery
    ensures r[|assetUrl| + |InvalidationQuery|..] == Names.NatToString(CountOf(counts, path))
  {
    assetUrl + InvalidationQuery + Names.NatToString(CountOf(counts, path))
  }

  /**
   * Invalidating a path gives it a URL it never had before, since its
   * counter only grows, and keeps the URL of every other path.
   */
  lemma InvalidateChangesOnlyThatUrl(counts: map<string, nat>, assetUrl: string, path: string, other: string)
    ensures Url(Invalidated(counts, path), assetUrl, path) != Url(counts, assetUrl, path)
    ensures other != path ==> Url(Invalidated(counts, path), assetUrl, other) == Url(counts, assetUrl, other)
  {
    var n := CountOf(counts, path);
    if Names.NatToString(n) == Names.NatToString(n + 1) {
      Names.NatToStringInjective(n, n + 1);
      assert false;
    }
    var k := |assetUrl| + |InvalidationQuery|;
    assert Url(counts, assetUrl, path)[k..] != Url(Invalidated(counts, path), assetUrl, path)[k..];
  }

  /** The store: the counter map, which `invalidate` updates in place. */
  class SpriteStore {
    var invalidationCounts: map<string, nat>

    constructor()
      ensures invalidationCounts == map[]
    {
      invalidationCounts := map[];
    }

    method Invalidate(path: string)
      modifies this
      ensures invalidationCounts == Invalidated(old(invalidationCounts), path)
    {
      var oldValue := if path in invalidationCounts then invalidationCounts[path] else 0;
      invalidationCounts := invalidationCounts[path := 1 + oldValue];
    }

    function GetUrl(assetUrl: string, path: string): (r: string)
      reads this
      ensures |r| > |assetUrl| + |InvalidationQuery|
      ensures r[|assetUrl| + |InvalidationQuery|..] == Names.NatToString(CountOf(invalidationCounts, path))
    {
      Url(invalidationCounts, assetUrl, path)
    }
  }
}
