/**
 * The capped undo list that every generation of the document keeps: pushing
 * drops everything after the cursor, appends the new entry and then removes
 * entries from the front until at most `cap` remain.
 */
module UndoStacks {
  /** The list a push leaves. */
  function Pushed<E>(entries: seq<E>, index: nat, entry: E, cap: nat): (r: seq<E>)
    requires index < |entries| && cap > 0
    ensures |r| == if index + 2 <= cap then index + 2 else cap
    ensures r[|r| - 1] == entry
    ensures forall k :: 0 <= k < |r| - 1 ==> r[k] == entries[index + 2 - |r| + k]
  {
    var grown := entries[..index + 1] + [entry];
    if |grown| <= cap then grown else grown[|grown| - cap..]
  }

  /**
   * The loop of `push_undo_state`: truncate after the cursor, push, then
   * remove the first entry while the list is over its cap; the cursor ends on
   * the pushed entry.
   */
  method PushEntry<E>(entries: seq<E>, index: nat, entry: E, cap: nat) returns (r: seq<E>, newIndex: nat)
    requires index < |entries| && cap > 0
    ensures r == Pushed(entries, index, entry, cap) && newIndex == |r| - 1
  {
    var grown := entries[..index + 1] + [entry];
    r := grown;
    newIndex := |r| - 1;
    ghost var dropped := 0;
    while |r| > cap
      invariant dropped <= |grown| && r == grown[dropped..] && newIndex == |r| - 1
      invariant dropped > 0 ==> |r| >= cap
      decreases |r|
    {
      r := r[1..];
      newIndex := newIndex - 1;
      dropped := dropped + 1;
    }
  }
}
