/** The list updates the pages apply to their state: `filter` on a key
    (keep the matching records, or drop them) and `map` replacing the
    records with a given key. */
module Lists {

  /** `r` is `xs` with some elements left out and the rest in their
      original order. */
  predicate IsSubsequence<T(==)>(r: seq<T>, xs: seq<T>)
    decreases |xs|
  {
    if r == [] then true
    else if xs == [] then false
    else (r[0] == xs[0] && IsSubsequence(r[1..], xs[1..])) || IsSubsequence(r, xs[1..])
  }

  /** `xs.filter(x => key(x) === k)`: the elements whose key is `k`. */
  function Select<T(==), K(==)>(xs: seq<T>, key: T -> K, k: K): (r: seq<T>)
    ensures |r| <= |xs|
    ensures forall i :: 0 <= i < |r| ==> r[i] in xs && key(r[i]) == k
    ensures forall i :: 0 <= i < |xs| && key(xs[i]) == k ==> xs[i] in r
  {
    if xs == [] then []
    else (if key(xs[0]) == k then [xs[0]] else []) + Select(xs[1..], key, k)
  }

  /** `xs.filter(x => key(x) !== k)`: the elements whose key is not `k`. */
  function Reject<T(==), K(==)>(xs: seq<T>, key: T -> K, k: K): (r: seq<T>)
    ensures |r| <= |xs|
    ensures forall i :: 0 <= i < |r| ==> r[i] in xs && key(r[i]) != k
    ensures forall i :: 0 <= i < |xs| && key(xs[i]) != k ==> xs[i] in r
  {
    if xs == [] then []
    else (if key(xs[0]) != k then [xs[0]] else []) + Reject(xs[1..], key, k)
  }

  /** `xs.map(x => key(x) === k ? y : x)`: every element with key `k` is
      replaced by `y`, the others stay where they were. */
  function Replace<T, K(==)>(xs: seq<T>, key: T -> K, k: K, y: T): (r: seq<T>)
    ensures |r| == |xs|
    ensures forall i :: 0 <= i < |xs| ==> r[i] == if key(xs[i]) == k then y else xs[i]
  {
    if xs == [] then []
    else [if key(xs[0]) == k then y else xs[0]] + Replace(xs[1..], key, k, y)
  }

  /** Selecting keeps the original relative order. */
  lemma {:induction false} SelectIsSubsequence<T, K>(xs: seq<T>, key: T -> K, k: K)
    ensures IsSubsequence(Select(xs, key, k), xs)
  {
    if xs != [] {
      SelectIsSubsequence(xs[1..], key, k);
      if key(xs[0]) == k {
        assert Select(xs, key, k)[1..] == Select(xs[1..], key, k);
      } else {
        assert Select(xs, key, k) == Select(xs[1..], key, k);
      }
    }
  }

  /** Rejecting keeps the original relative order. */
  lemma {:induction false} RejectIsSubsequence<T, K>(xs: seq<T>, key: T -> K, k: K)
    ensures IsSubsequence(Reject(xs, key, k), xs)
  {
    if xs != [] {
      RejectIsSubsequence(xs[1..], key, k);
      if key(xs[0]) != k {
        assert Reject(xs, key, k)[1..] == Reject(xs[1..], key, k);
      } else {
        assert Reject(xs, key, k) == Reject(xs[1..], key, k);
      }
    }
  }

  /** Selecting keeps every element with key `k` as many times as it
      occurs, and no other element. */
  lemma {:induction false} SelectCount<T(!new), K>(xs: seq<T>, key: T -> K, k: K)
    ensures forall x :: multiset(Select(xs, key, k))[x] == if key(x) == k then multiset(xs)[x] else 0
  {
    if xs != [] {
      SelectCount(xs[1..], key, k);
      assert xs == [xs[0]] + xs[1..];
    }
  }

  /** Rejecting keeps every element whose key is not `k` as many times as
      it occurs, and no other element. */
  lemma {:induction false} RejectCount<T(!new), K>(xs: seq<T>, key: T -> K, k: K)
    ensures forall x :: multiset(Reject(xs, key, k))[x] == if key(x) != k then multiset(xs)[x] else 0
  {
    if xs != [] {
      RejectCount(xs[1..], key, k);
      assert xs == [xs[0]] + xs[1..];
    }
  }

  /** Rejecting a key no element has changes nothing; in particular
      rejecting twice is rejecting once. */
  lemma {:induction false} RejectAbsent<T, K>(xs: seq<T>, key: T -> K, k: K)
    requires forall i :: 0 <= i < |xs| ==> key(xs[i]) != k
    ensures Reject(xs, key, k) == xs
  {
    if xs != [] {
      RejectAbsent(xs[1..], key, k);
    }
  }

  lemma RejectIdempotent<T, K>(xs: seq<T>, key: T -> K, k: K)
    ensures Reject(Reject(xs, key, k), key, k) == Reject(xs, key, k)
  {
    var r := Reject(xs, key, k);
    RejectAbsent(r, key, k);
  }

  /** Replacing the elements with key `k` by a `y` that has key `k` leaves
      the other elements, and their order, exactly as they were. */
  lemma {:induction false} ReplaceKeepsOthers<T, K>(xs: seq<T>, key: T -> K, k: K, y: T)
    requires key(y) == k
    ensures Reject(Replace(xs, key, k, y), key, k) == Reject(xs, key, k)
  {
    if xs != [] {
      ReplaceKeepsOthers(xs[1..], key, k, y);
      assert Replace(xs, key, k, y)[1..] == Replace(xs[1..], key, k, y);
    }
  }

  /** After replacing, the elements with key `k` are as many as before and
      all equal `y`. */
  lemma {:induction false} ReplaceSelects<T, K>(xs: seq<T>, key: T -> K, k: K, y: T)
    requires key(y) == k
    ensures |Select(Replace(xs, key, k, y), key, k)| == |Select(xs, key, k)|
    ensures forall i :: 0 <= i < |Select(Replace(xs, key, k, y), key, k)| ==>
      Select(Replace(xs, key, k, y), key, k)[i] == y
  {
    if xs != [] {
      ReplaceSelects(xs[1..], key, k, y);
      assert Replace(xs, key, k, y)[1..] == Replace(xs[1..], key, k, y);
    }
  }

  /** Replacing a key that no element has changes nothing. */
  lemma {:induction false} ReplaceAbsent<T, K>(xs: seq<T>, key: T -> K, k: K, y: T)
    requires forall i :: 0 <= i < |xs| ==> key(xs[i]) != k
    ensures Replace(xs, key, k, y) == xs
  {
    if xs != [] {
      ReplaceAbsent(xs[1..], key, k, y);
    }
  }
}
