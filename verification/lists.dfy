/** The three array idioms the state container and the services rely on:
    `findIndex`/`find` (first element with a given id), an in-place change of
    that first element, and `filter` on "id differs". Elements are identified
    through a `key` projection. */
module Lists {
  import opened Wrappers

  /** No two elements share a key. */
  predicate DistinctBy<T>(xs: seq<T>, key: T -> int) {
    forall i, j :: 0 <= i < j < |xs| ==> key(xs[i]) != key(xs[j])
  }

  /** True iff `i` is the first position whose key is `id`. */
  predicate IsFirstMatch<T>(xs: seq<T>, key: T -> int, id: int, i: int) {
    && 0 <= i < |xs|
    && key(xs[i]) == id
    && forall j :: 0 <= j < i ==> key(xs[j]) != id
  }

  predicate HasKey<T>(xs: seq<T>, key: T -> int, id: int) {
    exists i :: 0 <= i < |xs| && key(xs[i]) == id
  }

  /** `findIndex`: the first position holding `id`, or nothing. */
  function FindIndex<T>(xs: seq<T>, key: T -> int, id: int): (r: Option<nat>)
    ensures r.Some? <==> HasKey(xs, key, id)
    ensures r.Some? ==> IsFirstMatch(xs, key, id, r.value)
  {
    if |xs| == 0 then None
    else if key(xs[0]) == id then Some(0)
    else match FindIndex(xs[1..], key, id)
      case None => None
      case Some(i) => Some(i + 1)
  }

  /** Applies `f` to the first element whose key is `id`; the list is left
      as it is when there is none. */
  function ModifyFirst<T>(xs: seq<T>, key: T -> int, id: int, f: T -> T): (r: seq<T>)
    ensures |r| == |xs|
    ensures !HasKey(xs, key, id) ==> r == xs
    ensures forall i :: IsFirstMatch(xs, key, id, i) ==> r == xs[i := f(xs[i])]
  {
    match FindIndex(xs, key, id)
    case None => xs
    case Some(i) => xs[i := f(xs[i])]
  }

  /** `filter(x => key(x) !== id)`: drops every element with key `id`. */
  function RemoveAll<T>(xs: seq<T>, key: T -> int, id: int): (r: seq<T>)
    ensures forall i :: 0 <= i < |r| ==> r[i] in xs && key(r[i]) != id
    ensures forall i :: 0 <= i < |xs| && key(xs[i]) != id ==> xs[i] in r
    ensures |r| <= |xs|
    ensures !HasKey(xs, key, id) ==> r == xs
  {
    if |xs| == 0 then []
    else if key(xs[0]) == id then RemoveAll(xs[1..], key, id)
    else [xs[0]] + RemoveAll(xs[1..], key, id)
  }

  /** Filtering keeps the order of the survivors: it distributes over
      concatenation. */
  lemma {:induction false} RemoveAllAppend<T>(a: seq<T>, b: seq<T>, key: T -> int, id: int)
    ensures RemoveAll(a + b, key, id) == RemoveAll(a, key, id) + RemoveAll(b, key, id)
    decreases |a|
  {
    if |a| > 0 {
      var ab := a + b;
      assert ab[0] == a[0];
      assert ab[1..] == a[1..] + b;
      RemoveAllAppend(a[1..], b, key, id);
      if key(a[0]) != id {
        assert RemoveAll(ab, key, id) == [a[0]] + RemoveAll(a[1..] + b, key, id);
        assert RemoveAll(a, key, id) == [a[0]] + RemoveAll(a[1..], key, id);
      }
    } else {
      assert a + b == b;
    }
  }

  /** Removing the same id twice is the same as removing it once. */
  lemma RemoveAllIdempotent<T>(xs: seq<T>, key: T -> int, id: int)
    ensures RemoveAll(RemoveAll(xs, key, id), key, id) == RemoveAll(xs, key, id)
  {
  }

  lemma {:induction false} RemoveAllKeepsDistinct<T>(xs: seq<T>, key: T -> int, id: int, f: T -> int)
    requires DistinctBy(xs, f)
    ensures DistinctBy(RemoveAll(xs, key, id), f)
    decreases |xs|
  {
    if |xs| > 0 {
      RemoveAllKeepsDistinct(xs[1..], key, id, f);
      var rest := RemoveAll(xs[1..], key, id);
      forall y | y in rest
        ensures f(y) != f(xs[0])
      {
        var k :| 0 <= k < |xs[1..]| && xs[1..][k] == y;
        assert xs[k + 1] == y;
      }
    }
  }

  /** With distinct keys, a present id removes exactly one element. */
  lemma {:induction false} RemoveAllRemovesOne<T>(xs: seq<T>, key: T -> int, id: int)
    requires DistinctBy(xs, key)
    requires HasKey(xs, key, id)
    ensures |RemoveAll(xs, key, id)| == |xs| - 1
    decreases |xs|
  {
    if key(xs[0]) == id {
      assert !HasKey(xs[1..], key, id) by {
        forall k | 0 <= k < |xs[1..]|
          ensures key(xs[1..][k]) != id
        {
          assert xs[1..][k] == xs[k + 1];
        }
      }
    } else {
      var k :| 0 <= k < |xs| && key(xs[k]) == id;
      assert key(xs[1..][k - 1]) == id;
      RemoveAllRemovesOne(xs[1..], key, id);
    }
  }

  /** Changing the first match into an element with the same key keeps
      keys distinct. */
  lemma ModifyFirstKeepsDistinct<T>(xs: seq<T>, key: T -> int, id: int, f: T -> T)
    requires DistinctBy(xs, key)
    requires forall x :: key(x) == id ==> key(f(x)) == id
    ensures DistinctBy(ModifyFirst(xs, key, id, f), key)
  {
    var r := ModifyFirst(xs, key, id, f);
    if i :| IsFirstMatch(xs, key, id, i) {
      assert forall j :: 0 <= j < |xs| ==> key(r[j]) == key(xs[j]);
    }
  }

  /** The positions of the positive entries, in increasing order. */
  function Positive(xs: seq<nat>): (idx: seq<nat>)
    ensures |idx| <= |xs|
  {
    if |xs| == 0 then []
    else if xs[0] > 0 then [0] + Shift(Positive(xs[1..]))
    else Shift(Positive(xs[1..]))
  }

  /** Every listed position holds a positive entry. */
  lemma {:induction false} PositiveSound(xs: seq<nat>)
    ensures forall k :: 0 <= k < |Positive(xs)| ==> Positive(xs)[k] < |xs| && xs[Positive(xs)[k]] > 0
    decreases |xs|
  {
    if |xs| > 0 {
      var tail := xs[1..];
      var rest := Positive(tail);
      PositiveSound(tail);
      var s := Shift(rest);
      var h := if xs[0] > 0 then 1 else 0;
      var idx := if xs[0] > 0 then [0] + s else s;
      assert Positive(xs) == idx;
      forall k | 0 <= k < |idx|
        ensures idx[k] < |xs| && xs[idx[k]] > 0
      {
        if k >= h {
          assert idx[k] == s[k - h] == rest[k - h] + 1;
          assert tail[rest[k - h]] == xs[idx[k]];
        }
      }
    }
  }

  /** The positions are listed in increasing order. */
  lemma {:induction false} PositiveAscending(xs: seq<nat>)
    ensures forall k, l :: 0 <= k < l < |Positive(xs)| ==> Positive(xs)[k] < Positive(xs)[l]
    decreases |xs|
  {
    if |xs| > 0 {
      var rest := Positive(xs[1..]);
      PositiveAscending(xs[1..]);
      var s := Shift(rest);
      forall k, l | 0 <= k < l < |s|
        ensures s[k] < s[l]
      {
        assert s[k] == rest[k] + 1 && s[l] == rest[l] + 1;
        assert rest[k] < rest[l];
      }
      if xs[0] > 0 {
        var idx := [0] + s;
        assert Positive(xs) == idx;
        forall k, l | 0 <= k < l < |idx|
          ensures idx[k] < idx[l]
        {
          if k > 0 {
            assert idx[k] == s[k - 1];
          }
          assert idx[l] == s[l - 1];
        }
      }
    }
  }

  /** Every position holding a positive entry is listed. */
  lemma {:induction false} PositiveComplete(xs: seq<nat>)
    ensures forall i :: 0 <= i < |xs| && xs[i] > 0 ==> i in Positive(xs)
    decreases |xs|
  {
    if |xs| > 0 {
      var tail := xs[1..];
      var rest := Positive(tail);
      PositiveComplete(tail);
      var s := Shift(rest);
      var h := if xs[0] > 0 then 1 else 0;
      var idx := if xs[0] > 0 then [0] + s else s;
      assert Positive(xs) == idx;
      forall i | 0 <= i < |xs| && xs[i] > 0
        ensures i in idx
      {
        if i == 0 {
          assert idx[0] == 0;
        } else {
          assert tail[i - 1] == xs[i];
          var k :| 0 <= k < |rest| && rest[k] == i - 1;
          assert idx[k + h] == s[k] == i;
        }
      }
    }
  }

  function Shift(idx: seq<nat>): (r: seq<nat>)
    ensures |r| == |idx|
    ensures forall k :: 0 <= k < |idx| ==> r[k] == idx[k] + 1
  {
    seq(|idx|, k requires 0 <= k < |idx| => idx[k] + 1)
  }

}
