/**
 * Decimal rendering of counters and the "New Animation", "New Animation 2", ...
 * naming scheme that sheets and keyframes use when they create fresh entries.
 */
module Names {

  function DigitChar(d: nat): (c: char)
    requires d < 10
    ensures '0' <= c <= '9'
  {
    (48 + d) as char
  }

  /** `format!("{}", n)` for a non-negative integer. */
  function NatToString(n: nat): (s: string)
    ensures 1 <= |s|
    ensures n >= 10 ==> 2 <= |s|
    decreases n
  {
    if n < 10 then [DigitChar(n)] else NatToString(n / 10) + [DigitChar(n % 10)]
  }

  lemma {:induction false} NatToStringInjective(a: nat, b: nat)
    requires NatToString(a) == NatToString(b)
    ensures a == b
    decreases a
  {
    if a >= 10 && b >= 10 {
      var sa, sb := NatToString(a), NatToString(b);
      assert sa[..|sa| - 1] == NatToString(a / 10);
      assert sb[..|sb| - 1] == NatToString(b / 10);
      NatToStringInjective(a / 10, b / 10);
      assert sa[|sa| - 1] == DigitChar(a % 10);
      assert sb[|sb| - 1] == DigitChar(b % 10);
    }
  }

  /**
   * The `n`-th candidate of the fresh-name search: the bare base name first,
   * then `"<base> 2"`, `"<base> 3"`, ...
   */
  function NumberedName(base: string, n: nat): string
    requires 1 <= n
  {
    if n == 1 then base else base + " " + NatToString(n)
  }

  lemma NumberedNameInjective(base: string, m: nat, n: nat)
    requires 1 <= m && 1 <= n
    requires NumberedName(base, m) == NumberedName(base, n)
    ensures m == n
  {
    if m != 1 && n != 1 {
      var a, b := NumberedName(base, m), NumberedName(base, n);
      assert a[|base| + 1..] == NatToString(m);
      assert b[|base| + 1..] == NatToString(n);
      NatToStringInjective(m, n);
    }
  }

  /** The second candidate is the base name followed by " 2". */
  lemma SecondName(base: string)
    ensures NumberedName(base, 2) == base + " 2"
  {
  }

  /**
   * When the base name is taken and its " 2" variant is not, the first free
   * candidate is the " 2" variant.
   */
  lemma FirstFreeIsSecond(base: string, taken: set<string>, name: string, n: nat)
    requires base in taken && NumberedName(base, 2) !in taken
    requires 1 <= n && name == NumberedName(base, n) && name !in taken
    requires forall j :: 1 <= j < n ==> NumberedName(base, j) in taken + {name}
    ensures n == 2
  {
    if n > 2 {
      assert NumberedName(base, 2) in taken + {name};
      NumberedNameInjective(base, 2, n);
    }
  }

  /**
   * The fresh-name loop of `Sheet::create_animation` and `Keyframe::create_hitbox`:
   * try the base name, then the numbered names from 2 upward, and stop at the
   * first one not already taken.
   */
  method FreshName(base: string, taken: set<string>) returns (name: string, ghost n: nat)
    ensures 1 <= n && name == NumberedName(base, n)
    ensures name !in taken
    ensures forall j :: 1 <= j < n ==> NumberedName(base, j) in taken
  {
    name := base;
    var index := 2;
    ghost var seen: set<string> := {};
    while name in taken
      invariant 2 <= index
      invariant name == NumberedName(base, index - 1)
      invariant forall j :: 1 <= j < index - 1 ==> NumberedName(base, j) in taken
      invariant seen <= taken
      invariant forall j :: index - 1 <= j ==> NumberedName(base, j) !in seen
      decreases |taken - seen|
    {
      forall j | index <= j
        ensures NumberedName(base, j) != name
      {
        if NumberedName(base, j) == name {
          NumberedNameInjective(base, j, index - 1);
        }
      }
      assert name !in seen;
      assert taken - (seen + {name}) < taken - seen;
      seen := seen + {name};
      name := NumberedName(base, index);
      index := index + 1;
    }
    n := index - 1;
  }
}
