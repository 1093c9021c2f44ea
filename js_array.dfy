/** The JavaScript array built-ins the handlers use, on sequences, and the specification
    function "remove the first element with a given key" they are proved against. */
module JsArray {
  import opened Common

  /** `s.indexOf(x)`: the first index holding `x`, or -1. */
  function IndexOf<T(==)>(s: seq<T>, x: T): (i: int)
    ensures -1 <= i < |s|
    ensures i == -1 <==> x !in s
    ensures 0 <= i ==> s[i] == x && forall j :: 0 <= j < i ==> s[j] != x
  {
    if |s| == 0 then -1
    else if s[0] == x then 0
    else
      var j := IndexOf(s[1..], x);
      assert forall m :: 1 <= m < |s| ==> s[m] == s[1..][m - 1];
      if j == -1 then -1 else j + 1
  }

  /** `s.map(f)`. */
  function Map<A, B>(s: seq<A>, f: A -> B): (r: seq<B>)
    ensures |r| == |s|
    ensures forall i :: 0 <= i < |s| ==> r[i] == f(s[i])
  {
    seq(|s|, i requires 0 <= i < |s| => f(s[i]))
  }

  /** `s.filter(p)`: the elements satisfying `p`. */
  function Filter<A>(s: seq<A>, p: A -> bool): (r: seq<A>)
    ensures |r| <= |s|
    ensures forall x :: x in r ==> x in s && p(x)
    ensures |r| == 0 <==> forall i :: 0 <= i < |s| ==> !p(s[i])
    ensures forall i :: 0 <= i < |s| && p(s[i]) ==> s[i] in r
    ensures |r| == |s| <==> forall i :: 0 <= i < |s| ==> p(s[i])
  {
    if |s| == 0 then []
    else if p(s[0]) then [s[0]] + Filter(s[1..], p)
    else
      var r := Filter(s[1..], p);
      assert forall i :: 1 <= i < |s| ==> s[i] == s[1..][i - 1];
      r
  }

  /** `s.findIndex(p)`: the first index whose element satisfies `p`, or -1. */
  function FindIndex<A>(s: seq<A>, p: A -> bool): (i: int)
    ensures -1 <= i < |s|
    ensures i == -1 <==> forall j :: 0 <= j < |s| ==> !p(s[j])
    ensures 0 <= i ==> p(s[i]) && forall j :: 0 <= j < i ==> !p(s[j])
  {
    if |s| == 0 then -1
    else if p(s[0]) then 0
    else
      var j := FindIndex(s[1..], p);
      assert forall m :: 1 <= m < |s| ==> s[m] == s[1..][m - 1];
      if j == -1 then -1 else j + 1
  }

  /** `s.find(p)`: the first element satisfying `p`, if any. */
  function Find<A>(s: seq<A>, p: A -> bool): (r: Option<A>)
    ensures r.None? <==> forall j :: 0 <= j < |s| ==> !p(s[j])
    ensures r.Some? ==> r.value == s[FindIndex(s, p)] && p(r.value)
  {
    var i := FindIndex(s, p);
    if i == -1 then None else Some(s[i])
  }

  /** The array that `s.splice(start, 1)` leaves behind: a negative start counts from the end
      (clamped at 0) and a start at or past the end removes nothing. */
  function RemoveAt<T>(s: seq<T>, start: int): (r: seq<T>)
    ensures 0 <= start < |s| ==> |r| == |s| - 1 && r == s[..start] + s[start + 1..]
    ensures start >= |s| ==> r == s
    ensures start == -1 && |s| > 0 ==> r == s[..|s| - 1]
  {
    if 0 <= start < |s| then s[..start] + s[start + 1..]
    else if start >= |s| then s
    else if 0 <= |s| + start then
      assert |s| + start + 1 <= |s|;
      s[..|s| + start] + s[|s| + start + 1..]
    else if |s| > 0 then s[1..]
    else s
  }

  /** Specification: `s` without its first element whose key is `k`; `s` itself when no key matches. */
  function RemoveFirst<T>(s: seq<T>, key: T -> Id, k: Id): seq<T>
  {
    if |s| == 0 then []
    else if key(s[0]) == k then s[1..]
    else [s[0]] + RemoveFirst(s[1..], key, k)
  }

  /** No two elements of `s` share a key. */
  ghost predicate UniqueKeys<T>(s: seq<T>, key: T -> Id) {
    forall i, j :: 0 <= i < j < |s| ==> key(s[i]) != key(s[j])
  }

  /** The handlers' removal, `splice(map(key).indexOf(k), 1)` behind a "present" guard, is the
      specification's "remove the first element with key k". */
  lemma {:induction false} SpliceAtIndexOfIsRemoveFirst<T>(s: seq<T>, key: T -> Id, k: Id)
    requires k in Map(s, key)
    ensures RemoveAt(s, IndexOf(Map(s, key), k)) == RemoveFirst(s, key, k)
  {
    var i := IndexOf(Map(s, key), k);
    RemoveFirstAt(s, key, k, i);
  }

  /** Removing the first match at index `i` keeps everything before `i` and everything after it. */
  lemma {:induction false} RemoveFirstAt<T>(s: seq<T>, key: T -> Id, k: Id, i: nat)
    requires i < |s| && key(s[i]) == k
    requires forall j :: 0 <= j < i ==> key(s[j]) != k
    ensures RemoveFirst(s, key, k) == s[..i] + s[i + 1..]
  {
    if i > 0 {
      RemoveFirstAt(s[1..], key, k, i - 1);
      assert s[..i] == [s[0]] + s[1..][..i - 1];
      assert s[i + 1..] == s[1..][i..];
    }
  }

  /** Exactly one element goes: length drops by one and the multiset loses one element with key `k`. */
  lemma {:induction false} RemoveFirstRemovesOne<T>(s: seq<T>, key: T -> Id, k: Id)
    requires exists j :: 0 <= j < |s| && key(s[j]) == k
    ensures |RemoveFirst(s, key, k)| == |s| - 1
    ensures exists x :: x in s && key(x) == k && multiset(RemoveFirst(s, key, k)) + multiset{x} == multiset(s)
  {
    var r := RemoveFirst(s, key, k);
    assert s == [s[0]] + s[1..];
    if key(s[0]) == k {
      assert r == s[1..];
      RemoveAtMultiset(s, 0);
      assert s[0] in s;
    } else {
      var j :| 0 <= j < |s| && key(s[j]) == k;
      assert key(s[1..][j - 1]) == k;
      RemoveFirstRemovesOne(s[1..], key, k);
      var r' := RemoveFirst(s[1..], key, k);
      var x :| x in s[1..] && key(x) == k && multiset(r') + multiset{x} == multiset(s[1..]);
      assert r == [s[0]] + r';
      assert multiset(r) == multiset{s[0]} + multiset(r');
      assert multiset(s) == multiset{s[0]} + multiset(s[1..]);
      assert x in s;
    }
  }

  /** `RemoveAt` in range takes exactly the element at that index out of the multiset. */
  lemma RemoveAtMultiset<T>(s: seq<T>, i: nat)
    requires i < |s|
    ensures multiset(RemoveAt(s, i)) + multiset{s[i]} == multiset(s)
  {
    assert s == s[..i] + [s[i]] + s[i + 1..];
    assert multiset(s) == multiset(s[..i]) + multiset{s[i]} + multiset(s[i + 1..]);
  }

  /** Removal keeps keys unique, and with unique keys the removed key is gone afterwards. */
  lemma {:induction false} RemoveFirstKeepsUnique<T>(s: seq<T>, key: T -> Id, k: Id)
    requires UniqueKeys(s, key)
    ensures UniqueKeys(RemoveFirst(s, key, k), key)
    ensures forall j :: 0 <= j < |RemoveFirst(s, key, k)| ==> key(RemoveFirst(s, key, k)[j]) != k
  {
    if |s| > 0 {
      if key(s[0]) == k {
        assert forall j :: 0 <= j < |s[1..]| ==> key(s[1..][j]) == key(s[j + 1]);
      } else {
        RemoveFirstKeepsUnique(s[1..], key, k);
        RemoveFirstSubset(s[1..], key, k);
        var r := RemoveFirst(s, key, k);
        assert r == [s[0]] + RemoveFirst(s[1..], key, k);
        forall i, j | 0 <= i < j < |r| ensures key(r[i]) != key(r[j]) {
          if i == 0 {
            assert r[j] in RemoveFirst(s[1..], key, k);
            var m :| 0 <= m < |s[1..]| && s[1..][m] == r[j];
            assert s[m + 1] == r[j];
          }
        }
      }
    }
  }

  /** Every element left after removal was an element of the original sequence. */
  lemma {:induction false} RemoveFirstSubset<T>(s: seq<T>, key: T -> Id, k: Id)
    ensures forall x :: x in RemoveFirst(s, key, k) ==> x in s
  {
    if |s| > 0 && key(s[0]) != k {
      RemoveFirstSubset(s[1..], key, k);
    }
  }

  /** Prepending then removing the same key gives the original back. */
  lemma PrependThenRemoveFirst<T>(x: T, s: seq<T>, key: T -> Id)
    ensures RemoveFirst([x] + s, key, key(x)) == s
  {
    assert ([x] + s)[1..] == s;
  }
}
