/**
 * Collecting the results of a loop that pushes each value it computes and
 * returns on the first error, as Rust's `?` inside a `for` loop does.
 */
module Collect {
  import opened Wrappers

  /** The position of the first error, or the length when there is none. */
  function FirstErr<T, E>(rs: seq<Result<T, E>>): (k: nat)
    ensures k <= |rs|
    ensures forall j :: 0 <= j < k ==> rs[j].Ok?
    ensures k < |rs| ==> rs[k].Err?
  {
    if rs == [] then 0
    else if rs[0].Err? then 0
    else 1 + FirstErr(rs[1..])
  }

  /** A loop that pushes each value and returns on the first error, as a function. */
  function AllOk<T, E>(rs: seq<Result<T, E>>): (r: Result<seq<T>, E>)
    ensures r.Ok? ==> |r.value| == |rs| && forall i :: 0 <= i < |rs| ==> rs[i] == Ok(r.value[i])
    ensures r.Err? ==> FirstErr(rs) < |rs| && r.error == rs[FirstErr(rs)].error
  {
    if rs == [] then Ok([])
    else if rs[0].Err? then Err(rs[0].error)
    else match AllOk(rs[1..])
      case Err(e) => Err(e)
      case Ok(vs) => Ok([rs[0].value] + vs)
  }

  /** Appending a value to results that are all values appends it to the collected values. */
  lemma {:induction false} AllOkAppendOk<T, E>(rs: seq<Result<T, E>>, x: T)
    requires AllOk(rs).Ok?
    ensures AllOk(rs + [Ok(x)]) == Ok(AllOk(rs).value + [x])
  {
    if rs != [] {
      var tail := AllOk(rs[1..]);
      assert rs[0].Ok? && tail.Ok? && AllOk(rs).value == [rs[0].value] + tail.value;
      var longer := rs + [Ok(x)];
      assert longer[0] == rs[0] && longer[1..] == rs[1..] + [Ok(x)];
      AllOkAppendOk(rs[1..], x);
      assert AllOk(longer[1..]).value == tail.value + [x];
      assert AllOk(longer).Ok?;
      assert AllOk(longer).value == [rs[0].value] + (tail.value + [x]);
      assert AllOk(longer).value == AllOk(rs).value + [x];
    } else {
      assert AllOk(rs) == Ok([]);
      var one := rs + [Ok(x)];
      assert one[1..] == [] && one[0] == Ok(x);
      assert AllOk(one[1..]) == Ok([]);
      assert one != [];
      assert !one[0].Err?;
      assert one[0].value == x;
      assert AllOk(one) == Ok([one[0].value] + AllOk(one[1..]).value);
      assert AllOk(one).Ok?;
      assert AllOk(one[1..]).value == [];
      assert AllOk(one).value == [x];
      assert AllOk(one) == Ok([x]);
      assert AllOk(rs).value + [x] == [x];
    }
  }

  /** After results that are all values, the first error is the error of the whole. */
  lemma {:induction false} AllOkAppendErr<T, E>(rs: seq<Result<T, E>>, rest: seq<Result<T, E>>)
    requires AllOk(rs).Ok? && rest != [] && rest[0].Err?
    ensures AllOk(rs + rest) == Err(rest[0].error)
  {
    if rs == [] {
      assert rs + rest == rest;
    } else {
      assert rs[0].Ok? && AllOk(rs[1..]).Ok?;
      assert (rs + rest)[1..] == rs[1..] + rest;
      AllOkAppendErr(rs[1..], rest);
    }
  }

  /** One more step of that loop: a value extends the prefix, an error ends the whole. */
  lemma {:induction false} AllOkStep<T, E>(rs: seq<Result<T, E>>, i: nat, done: seq<T>)
    requires i < |rs| && AllOk(rs[..i]) == Ok(done)
    ensures rs[i].Ok? ==> AllOk(rs[..i + 1]) == Ok(done + [rs[i].value])
    ensures rs[i].Err? ==> AllOk(rs) == Err(rs[i].error)
  {
    var prefix := rs[..i];
    if rs[i].Ok? {
      var x := rs[i].value;
      assert rs[..i + 1] == prefix + [Ok(x)];
      AllOkAppendOk(prefix, x);
    } else {
      var rest := rs[i..];
      assert rs == prefix + rest;
      assert rest[0] == rs[i];
      AllOkAppendErr(prefix, rest);
    }
  }

  /** The collected results are values exactly when every result is one. */
  lemma AllOkIff<T, E>(rs: seq<Result<T, E>>)
    ensures AllOk(rs).Ok? <==> forall i :: 0 <= i < |rs| ==> rs[i].Ok?
  {
  }

  lemma AllOkWhole<T, E>(rs: seq<Result<T, E>>)
    ensures rs[..|rs|] == rs
  {
  }

  /**
   * Collecting `(key, value)` pairs into a map, as `collect()` into a
   * `BTreeMap` or `HashMap` does: every key of the pairs is present, and a
   * later pair overwrites an earlier one with the same key.
   */
  function Collected<K(!new), V>(pairs: seq<(K, V)>): (r: map<K, V>)
    ensures forall k :: k in r <==> exists i :: 0 <= i < |pairs| && pairs[i].0 == k
    decreases |pairs|
  {
    if pairs == [] then map[]
    else
      var init := pairs[..|pairs| - 1];
      var r := Collected(init)[pairs[|pairs| - 1].0 := pairs[|pairs| - 1].1];
      assert forall i :: 0 <= i < |init| ==> init[i] == pairs[i];
      r
  }

  /** The value kept for a key is the one of its last pair. */
  lemma {:induction false} CollectedLastWins<K(!new), V>(pairs: seq<(K, V)>, i: nat)
    requires i < |pairs|
    requires forall j :: i < j < |pairs| ==> pairs[j].0 != pairs[i].0
    ensures pairs[i].0 in Collected(pairs) && Collected(pairs)[pairs[i].0] == pairs[i].1
    decreases |pairs|
  {
    if i < |pairs| - 1 {
      var init := pairs[..|pairs| - 1];
      assert init[i] == pairs[i];
      CollectedLastWins(init, i);
    }
  }

  /** The last position, from `i` on, whose key is the key at `i`. */
  ghost function LastWithKey<K, V>(pairs: seq<(K, V)>, i: nat): (k: nat)
    requires i < |pairs|
    ensures i <= k < |pairs| && pairs[k].0 == pairs[i].0
    ensures forall j :: k < j < |pairs| ==> pairs[j].0 != pairs[k].0
    decreases |pairs| - i
  {
    if exists j :: i < j < |pairs| && pairs[j].0 == pairs[i].0 then
      var j :| i < j < |pairs| && pairs[j].0 == pairs[i].0;
      LastWithKey(pairs, j)
    else i
  }
}
