/**
 * Utils/Snowflakable.swift: anything that has a snowflake renders as its
 * decimal text, and an array of such things can be read, searched and
 * written by snowflake. The array is a Swift value, so writing through the
 * subscript replaces the array held by the variable with a new one; the
 * setters here are functions from the old array to the new one.
 */
module Keyed {
  import opened Wrappers
  import opened Decimal
  import opened Snowflakes

  /** `asString`: the snowflake's decimal description. */
  function AsString(flake: Snowflake): (s: string)
    ensures Canonical(s) && Parse(s) == Some(flake)
  {
    ParseDescription(flake);
    Description(flake)
  }

  /** The snowflakes of the elements, in order: `map { $0.snowflakeDescription }`. */
  function Keys<T>(xs: seq<T>, key: T -> Snowflake): (ks: seq<Snowflake>)
    ensures |ks| == |xs| && forall i | 0 <= i < |xs| :: ks[i] == key(xs[i])
  {
    if xs == [] then [] else [key(xs[0])] + Keys(xs[1..], key)
  }

  /** `sContains`: the key is among the elements' snowflakes. */
  predicate Contains<T>(xs: seq<T>, key: T -> Snowflake, flake: Snowflake) {
    flake in Keys(xs, key)
  }

  /** `firstIndex(where:)`: the position of the first element with the snowflake. */
  function FirstIndex<T>(xs: seq<T>, key: T -> Snowflake, flake: Snowflake): (r: Option<nat>)
    ensures r.Some? ==> r.value < |xs| && key(xs[r.value]) == flake
    ensures r.Some? ==> forall j | 0 <= j < r.value :: key(xs[j]) != flake
    ensures r.None? <==> forall j | 0 <= j < |xs| :: key(xs[j]) != flake
  {
    if xs == [] then None
    else if key(xs[0]) == flake then Some(0)
    else
      match FirstIndex(xs[1..], key, flake)
      case None => None
      case Some(i) => Some(i + 1)
  }

  /** The getter, `first { $0.snowflakeDescription == flake }`. */
  function Get<T>(xs: seq<T>, key: T -> Snowflake, flake: Snowflake): (r: Option<T>)
    ensures r.Some? ==> r.value in xs && key(r.value) == flake
  {
    if xs == [] then None
    else if key(xs[0]) == flake then Some(xs[0])
    else Get(xs[1..], key, flake)
  }

  /** The element the getter returns is the one at the first matching position. */
  lemma {:induction false} GetIsFirstMatch<T>(xs: seq<T>, key: T -> Snowflake, flake: Snowflake)
    ensures FirstIndex(xs, key, flake).None? <==> Get(xs, key, flake).None?
    ensures FirstIndex(xs, key, flake).Some? ==> Get(xs, key, flake) == Some(xs[FirstIndex(xs, key, flake).value])
  {
    if xs != [] && key(xs[0]) != flake {
      GetIsFirstMatch(xs[1..], key, flake);
    }
  }

  /** `sContains` holds exactly when some element matches, exactly when the getter finds one. */
  lemma ContainsIffGet<T>(xs: seq<T>, key: T -> Snowflake, flake: Snowflake)
    ensures Contains(xs, key, flake) <==> exists i | 0 <= i < |xs| :: key(xs[i]) == flake
    ensures Contains(xs, key, flake) <==> Get(xs, key, flake).Some?
  {
    GetIsFirstMatch(xs, key, flake);
    var ks := Keys(xs, key);
    if Contains(xs, key, flake) {
      var i :| 0 <= i < |ks| && ks[i] == flake;
      assert key(xs[i]) == flake;
    }
  }

  /** `remove(at:)`. */
  function RemoveAt<T>(xs: seq<T>, i: nat): (ys: seq<T>)
    requires i < |xs|
    ensures |ys| == |xs| - 1
    ensures forall j | 0 <= j < i :: ys[j] == xs[j]
    ensures forall j | i <= j < |ys| :: ys[j] == xs[j + 1]
  {
    xs[..i] + xs[i + 1..]
  }

  /** `value` as an array suffix: one element, or none for nil. */
  function Appended<T>(value: Option<T>): seq<T> {
    if value.Some? then [value.value] else []
  }

  /**
   * The setter: without a matching element nothing changes; otherwise the
   * first match is removed and a non-nil value is appended.
   */
  function Assign<T>(xs: seq<T>, key: T -> Snowflake, flake: Snowflake, value: Option<T>): (ys: seq<T>)
    ensures FirstIndex(xs, key, flake).None? ==> ys == xs
    ensures FirstIndex(xs, key, flake).Some? ==>
      ys == RemoveAt(xs, FirstIndex(xs, key, flake).value) + Appended(value)
  {
    match FirstIndex(xs, key, flake)
    case None => xs
    case Some(index) => RemoveAt(xs, index) + Appended(value)
  }

  /**
   * The setter's effect on a present key: nil shortens the array by one;
   * a value keeps its length and comes last; the other elements keep their
   * relative order and only the first match is gone.
   */
  lemma AssignPresent<T>(xs: seq<T>, key: T -> Snowflake, flake: Snowflake, value: Option<T>)
    requires Contains(xs, key, flake)
    ensures FirstIndex(xs, key, flake).Some?
    ensures value.None? ==> |Assign(xs, key, flake, value)| == |xs| - 1
    ensures value.Some? ==> (|Assign(xs, key, flake, value)| == |xs| &&
                             Assign(xs, key, flake, value)[|xs| - 1] == value.value)
    ensures var i := FirstIndex(xs, key, flake).value;
      Assign(xs, key, flake, value)[..|xs| - 1] == xs[..i] + xs[i + 1..]
  {
    ContainsIffGet(xs, key, flake);
    GetIsFirstMatch(xs, key, flake);
    var i := FirstIndex(xs, key, flake).value;
    var ys := Assign(xs, key, flake, value);
    assert ys == RemoveAt(xs, i) + Appended(value);
    assert ys[..|xs| - 1] == RemoveAt(xs, i);
  }

  /** Removing one position takes exactly that element out of the multiset. */
  lemma RemoveAtMultiset<T>(xs: seq<T>, i: nat)
    requires i < |xs|
    ensures multiset(RemoveAt(xs, i)) + multiset{xs[i]} == multiset(xs)
  {
    var a, b := xs[..i], xs[i + 1..];
    assert xs == a + [xs[i]] + b;
    calc {
      multiset(xs);
      multiset(a) + multiset{xs[i]} + multiset(b);
      multiset(a + b) + multiset{xs[i]};
    }
  }

  /** The setter on a present key trades exactly the first match for the new value, if any. */
  lemma AssignPresentKeepsOthers<T>(xs: seq<T>, key: T -> Snowflake, flake: Snowflake, value: Option<T>)
    requires Contains(xs, key, flake)
    ensures FirstIndex(xs, key, flake).Some?
    ensures multiset(Assign(xs, key, flake, value)) + multiset{xs[FirstIndex(xs, key, flake).value]} ==
      multiset(xs) + multiset(Appended(value))
  {
    AssignPresent(xs, key, flake, value);
    var i := FirstIndex(xs, key, flake).value;
    var rest := RemoveAt(xs, i);
    RemoveAtMultiset(xs, i);
    assert multiset(rest + Appended(value)) == multiset(rest) + multiset(Appended(value));
  }

  /** Writing an absent key, even a non-nil value, leaves the array as it was. */
  lemma AssignAbsent<T>(xs: seq<T>, key: T -> Snowflake, flake: Snowflake, value: Option<T>)
    requires !Contains(xs, key, flake)
    ensures Assign(xs, key, flake, value) == xs
  {
    ContainsIffGet(xs, key, flake);
    GetIsFirstMatch(xs, key, flake);
  }

  /**
   * Reading a key back after writing a value under it finds that value
   * when the key was held by exactly one element; another element that
   * shares the key would be found first.
   */
  lemma GetAfterAssign<T>(xs: seq<T>, key: T -> Snowflake, flake: Snowflake, v: T)
    requires key(v) == flake
    requires exists i | 0 <= i < |xs| :: key(xs[i]) == flake
    requires forall i, j | 0 <= i < j < |xs| :: key(xs[i]) == flake ==> key(xs[j]) != flake
    ensures Get(Assign(xs, key, flake, Some(v)), key, flake) == Some(v)
  {
    var i := FirstIndex(xs, key, flake).value;
    var ys := Assign(xs, key, flake, Some(v));
    var rest := RemoveAt(xs, i);
    assert ys == rest + [v];
    forall j | 0 <= j < |rest|
      ensures key(rest[j]) != flake
    {
      if j < i {
        assert rest[j] == xs[j];
      } else {
        assert rest[j] == xs[j + 1];
      }
    }
    assert key(ys[|rest|]) == flake;
    GetIsFirstMatch(ys, key, flake);
    assert FirstIndex(ys, key, flake) == Some(|rest|);
  }
}
