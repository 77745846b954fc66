/**
 * The list operations both Redux slices perform on their `pastes` arrays,
 * written once over any element type with a key (the element's `_id`):
 * `findIndex`, indexed replacement, `filter` by key and `splice(index, 1)`.
 */
module IdLists {
  import opened Subsequence

  /** True when no element of `s` has key `k`. */
  predicate NoneHasKey<T, K(==)>(s: seq<T>, key: T -> K, k: K)
  {
    forall i :: 0 <= i < |s| ==> key(s[i]) != k
  }

  /** `Array.prototype.findIndex` with the predicate `item => key(item) === k`: the first index whose key is `k`, or -1. */
  function FindIndex<T, K(==)>(s: seq<T>, key: T -> K, k: K): (r: int)
    ensures -1 <= r < |s|
    ensures r == -1 <==> NoneHasKey(s, key, k)
    ensures r >= 0 ==> key(s[r]) == k && NoneHasKey(s[..r], key, k)
    decreases |s|
  {
    if s == [] then -1
    else if key(s[0]) == k then 0
    else
      var j := FindIndex(s[1..], key, k);
      assert forall i :: 0 < i < |s| ==> s[i] == s[1..][i - 1];
      if j == -1 then -1
      else
        j + 1
  }

  /** `findIndex` followed by `arr[index] = x` when the index is not -1: the first element with `x`'s key becomes `x`. */
  function ReplaceFirst<T, K(==)>(s: seq<T>, key: T -> K, x: T): (r: seq<T>)
    ensures |r| == |s|
    ensures NoneHasKey(s, key, key(x)) ==> r == s
    ensures forall j :: 0 <= j < |s| && key(s[j]) == key(x) && NoneHasKey(s[..j], key, key(x)) ==> r == s[j := x]
  {
    var i := FindIndex(s, key, key(x));
    if i >= 0 then s[i := x] else s
  }

  /** `filter(item => key(item) !== k)`: every element whose key is `k` is dropped. */
  function RemoveAll<T(!new), K(==)>(s: seq<T>, key: T -> K, k: K): (r: seq<T>)
    ensures forall x :: x in r <==> x in s && key(x) != k
    ensures IsSubsequence(r, s)
    decreases |s|
  {
    if s == [] then []
    else
      var rest := RemoveAll(s[1..], key, k);
      assert s == [s[0]] + s[1..];
      if key(s[0]) == k then
        ConsRight(s[0], rest, s[1..]);
        rest
      else
        ConsBoth(s[0], rest, s[1..]);
        [s[0]] + rest
  }

  /** `findIndex` followed by `splice(index, 1)` when the index is not -1: only the first element with key `k` is dropped. */
  function RemoveFirst<T, K(==)>(s: seq<T>, key: T -> K, k: K): (r: seq<T>)
    ensures NoneHasKey(s, key, k) ==> r == s
    ensures forall j :: 0 <= j < |s| && key(s[j]) == k && NoneHasKey(s[..j], key, k) ==> r == s[..j] + s[j + 1..]
  {
    var i := FindIndex(s, key, k);
    if i >= 0 then s[..i] + s[i + 1..] else s
  }

  /** How many elements of `s` have key `k`. */
  function CountKey<T, K(==)>(s: seq<T>, key: T -> K, k: K): nat
    decreases |s|
  {
    if s == [] then 0
    else (if key(s[0]) == k then 1 else 0) + CountKey(s[1..], key, k)
  }

  lemma {:induction false} CountKeyAppend<T, K>(a: seq<T>, b: seq<T>, key: T -> K, k: K)
    ensures CountKey(a + b, key, k) == CountKey(a, key, k) + CountKey(b, key, k)
    decreases |a|
  {
    if a != [] {
      assert (a + b)[1..] == a[1..] + b;
      CountKeyAppend(a[1..], b, key, k);
    } else {
      assert a + b == b;
    }
  }

  lemma {:induction false} CountKeyZero<T, K>(s: seq<T>, key: T -> K, k: K)
    ensures CountKey(s, key, k) == 0 <==> NoneHasKey(s, key, k)
    decreases |s|
  {
    if s != [] {
      CountKeyZero(s[1..], key, k);
      assert forall i :: 0 < i < |s| ==> s[i] == s[1..][i - 1];
    }
  }

  /** Removing every match leaves no element with that key and keeps the order of the others; doing it twice changes nothing more. */
  lemma {:induction false} RemoveAllSpec<T(!new), K>(s: seq<T>, key: T -> K, k: K)
    ensures NoneHasKey(RemoveAll(s, key, k), key, k)
    ensures CountKey(RemoveAll(s, key, k), key, k) == 0
    ensures RemoveAll(RemoveAll(s, key, k), key, k) == RemoveAll(s, key, k)
    ensures |RemoveAll(s, key, k)| == |s| - CountKey(s, key, k)
    decreases |s|
  {
    var r := RemoveAll(s, key, k);
    assert forall i :: 0 <= i < |r| ==> r[i] in r;
    CountKeyZero(r, key, k);
    RemoveAllKeepsClean(r, key, k);
    if s != [] {
      RemoveAllSpec(s[1..], key, k);
    }
  }

  /** A list that has no element with key `k` is left as it is by the filter. */
  lemma {:induction false} RemoveAllKeepsClean<T(!new), K>(s: seq<T>, key: T -> K, k: K)
    requires NoneHasKey(s, key, k)
    ensures RemoveAll(s, key, k) == s
    decreases |s|
  {
    if s != [] {
      assert forall i :: 0 < i < |s| ==> s[i] == s[1..][i - 1];
      RemoveAllKeepsClean(s[1..], key, k);
    }
  }

  /** Removing the first match drops exactly one element with that key: the length falls by one and any later duplicates survive. */
  lemma RemoveFirstSpec<T, K>(s: seq<T>, key: T -> K, k: K)
    ensures CountKey(s, key, k) > 0 ==> |RemoveFirst(s, key, k)| == |s| - 1
    ensures CountKey(s, key, k) > 0 ==> CountKey(RemoveFirst(s, key, k), key, k) == CountKey(s, key, k) - 1
    ensures CountKey(s, key, k) == 0 ==> RemoveFirst(s, key, k) == s
  {
    CountKeyZero(s, key, k);
    var i := FindIndex(s, key, k);
    if i >= 0 {
      assert s == s[..i] + [s[i]] + s[i + 1..];
      CountKeyAppend(s[..i] + [s[i]], s[i + 1..], key, k);
      CountKeyAppend(s[..i], [s[i]], key, k);
      CountKeyAppend(s[..i], s[i + 1..], key, k);
      CountKeyZero(s[..i], key, k);
      assert CountKey([s[i]], key, k) == 1;
    }
  }

  /** With two or more matches, removing the first one and removing all of them disagree. */
  lemma RemoveFirstIsNotRemoveAll<T(!new), K>(s: seq<T>, key: T -> K, k: K)
    requires CountKey(s, key, k) >= 2
    ensures RemoveFirst(s, key, k) != RemoveAll(s, key, k)
  {
    RemoveFirstSpec(s, key, k);
    RemoveAllSpec(s, key, k);
  }
}
