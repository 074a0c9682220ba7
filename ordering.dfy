/**
 * Lexicographic order on strings (by character code, as Rust orders `String`
 * and the lossy rendering of paths) and the ascending listing of a set of
 * strings, which is the iteration order of a `BTreeMap<String, _>` and of
 * the sorted frame, animation and hitbox lists.
 */
module Ordering {

  predicate StrLe(a: string, b: string)
    decreases |a|
  {
    a == [] || (b != [] && (a[0] < b[0] || (a[0] == b[0] && StrLe(a[1..], b[1..]))))
  }

  lemma {:induction false} StrLeTotal(a: string, b: string)
    ensures StrLe(a, b) || StrLe(b, a)
    decreases |a|
  {
    if a != [] && b != [] && a[0] == b[0] {
      StrLeTotal(a[1..], b[1..]);
    }
  }

  lemma {:induction false} StrLeAntisymmetric(a: string, b: string)
    requires StrLe(a, b) && StrLe(b, a)
    ensures a == b
    decreases |a|
  {
    if a != [] {
      StrLeAntisymmetric(a[1..], b[1..]);
      assert a == [a[0]] + a[1..] && b == [b[0]] + b[1..];
    }
  }

  lemma {:induction false} StrLeTransitive(a: string, b: string, c: string)
    requires StrLe(a, b) && StrLe(b, c)
    ensures StrLe(a, c)
    decreases |a|
  {
    if a != [] && a[0] == b[0] && b[0] == c[0] {
      StrLeTransitive(a[1..], b[1..], c[1..]);
    }
  }

  /** `m` is the smallest member of `s`. */
  predicate IsSmallest(m: string, s: set<string>) {
    m in s && forall y :: y in s ==> StrLe(m, y)
  }

  lemma {:induction false} SmallestExists(s: set<string>)
    requires s != {}
    ensures exists m :: IsSmallest(m, s)
    decreases |s|
  {
    var x :| x in s;
    StrLeTotal(x, x);
    if s == {x} {
      assert IsSmallest(x, s);
    } else {
      SmallestExists(s - {x});
      var m :| IsSmallest(m, s - {x});
      StrLeTotal(x, m);
      if StrLe(x, m) {
        forall y | y in s
          ensures StrLe(x, y)
        {
          if y != x {
            StrLeTransitive(x, m, y);
          }
        }
        assert IsSmallest(x, s);
      } else {
        assert IsSmallest(m, s);
      }
    }
  }

  /** The smallest string of a non-empty set. */
  function Smallest(s: set<string>): (m: string)
    requires s != {}
    ensures IsSmallest(m, s)
  {
    SmallestExists(s);
    assert forall a, b :: IsSmallest(a, s) && IsSmallest(b, s) ==> a == b by {
      forall a, b | IsSmallest(a, s) && IsSmallest(b, s)
        ensures a == b
      {
        StrLeAntisymmetric(a, b);
      }
    }
    var m :| IsSmallest(m, s);
    m
  }

  predicate StrictlyAscending(r: seq<string>) {
    forall i, j :: 0 <= i < j < |r| ==> StrLe(r[i], r[j]) && r[i] != r[j]
  }

  /** The members of `s` in ascending order, each once. */
  function Ascending(s: set<string>): (r: seq<string>)
    ensures |r| == |s|
    ensures forall x :: x in r <==> x in s
    ensures StrictlyAscending(r)
    decreases |s|
  {
    if s == {} then []
    else
      var m := Smallest(s);
      var rest := Ascending(s - {m});
      AscendingStep(s, m, rest);
      [m] + rest
  }

  /** The smallest member followed by the rest in ascending order is in ascending order. */
  lemma AscendingStep(s: set<string>, m: string, rest: seq<string>)
    requires IsSmallest(m, s) && StrictlyAscending(rest)
    requires forall x :: x in rest <==> x in s - {m}
    ensures StrictlyAscending([m] + rest)
  {
    var r := [m] + rest;
    forall i, j | 0 <= i < j < |r|
      ensures StrLe(r[i], r[j]) && r[i] != r[j]
    {
      if i == 0 {
        assert r[j] == rest[j - 1] && rest[j - 1] in rest;
      } else {
        assert r[i] == rest[i - 1] && r[j] == rest[j - 1];
      }
    }
  }
}
