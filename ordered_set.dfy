/**
 * A JavaScript `Set`, and the key order of a JavaScript `Map`, as a duplicate-free sequence
 * kept in insertion order: `add` appends an element that is not there yet and leaves a present
 * one where it is; `delete` takes an element out and keeps the order of the others.
 * `Array.from(set)` is then the sequence itself.
 */
module OrderedSet {

  /** No element occurs twice. */
  ghost predicate NoDup<T>(s: seq<T>) {
    forall i, j :: 0 <= i < j < |s| ==> s[i] != s[j]
  }

  /** The elements of `s` as a mathematical set. */
  function Elems<T(!new)>(s: seq<T>): (e: set<T>)
    ensures forall y :: y in e <==> y in s
  {
    set y | y in s
  }

  /** `Set.prototype.add`. */
  function Insert<T(==,!new)>(s: seq<T>, x: T): (r: seq<T>)
    ensures forall y :: y in r <==> y in s || y == x
    ensures NoDup(s) ==> NoDup(r)
    ensures |s| <= |r| && r[..|s|] == s
  {
    if x in s then s else s + [x]
  }

  /** `xs.forEach(x => set.add(x))`: the elements of `xs` added one after another. */
  function InsertAll<T(==,!new)>(s: seq<T>, xs: seq<T>): (r: seq<T>)
    ensures forall y :: y in r <==> y in s || y in xs
    ensures NoDup(s) ==> NoDup(r)
    ensures |s| <= |r| && r[..|s|] == s
    decreases |xs|
  {
    if xs == [] then s
    else
      var n := |xs| - 1;
      assert xs == xs[..n] + [xs[n]];
      Insert(InsertAll(s, xs[..n]), xs[n])
  }

  /** Adding `a` and then `b` is adding `a + b`. */
  lemma {:induction false} InsertAllConcat<T(!new)>(s: seq<T>, a: seq<T>, b: seq<T>)
    ensures InsertAll(s, a + b) == InsertAll(InsertAll(s, a), b)
    decreases |b|
  {
    if b == [] {
      assert a + b == a;
    } else {
      var n := |b| - 1;
      assert (a + b)[..|a + b| - 1] == a + b[..n];
      assert (a + b)[|a + b| - 1] == b[n];
      InsertAllConcat(s, a, b[..n]);
    }
  }

  /** `new Set(s)` of a duplicate-free `s` gives back `s` in the same order. */
  lemma {:induction false} InsertAllOfDupFree<T(!new)>(s: seq<T>)
    requires NoDup(s)
    ensures InsertAll([], s) == s
    decreases |s|
  {
    if s != [] {
      var n := |s| - 1;
      assert NoDup(s[..n]);
      InsertAllOfDupFree(s[..n]);
      assert s[n] !in s[..n];
      assert s[..n] + [s[n]] == s;
    }
  }

  /** `[...new Set([...s, ...xs])]` is `xs` added to `s` when `s` has no duplicates. */
  lemma UnionOfDupFree<T(!new)>(s: seq<T>, xs: seq<T>)
    requires NoDup(s)
    ensures InsertAll([], s + xs) == InsertAll(s, xs)
  {
    InsertAllConcat([], s, xs);
    InsertAllOfDupFree(s);
  }

  /** `s.filter(y => !xs.includes(y))`. */
  function Without<T(==,!new)>(s: seq<T>, xs: seq<T>): (r: seq<T>)
    ensures forall y :: y in r <==> y in s && y !in xs
    ensures |r| <= |s|
    ensures NoDup(s) ==> NoDup(r)
  {
    if s == [] then []
    else
      var rest := Without(s[1..], xs);
      assert NoDup(s) ==> s[0] !in s[1..] && NoDup(s[1..]);
      (if s[0] in xs then [] else [s[0]]) + rest
  }

  /** `Set.prototype.delete` (and `Map.prototype.delete` on the key order). */
  function Delete<T(==,!new)>(s: seq<T>, x: T): (r: seq<T>)
    ensures forall y :: y in r <==> y in s && y != x
    ensures NoDup(s) ==> NoDup(r)
  {
    Without(s, [x])
  }

  /** `xs.forEach(x => set.delete(x))`: the elements of `xs` deleted one after another. */
  function DeleteAll<T(==,!new)>(s: seq<T>, xs: seq<T>): (r: seq<T>)
    ensures forall y :: y in r <==> y in s && y !in xs
    ensures NoDup(s) ==> NoDup(r)
    decreases |xs|
  {
    if xs == [] then s
    else
      var n := |xs| - 1;
      assert xs == xs[..n] + [xs[n]];
      Delete(DeleteAll(s, xs[..n]), xs[n])
  }

  /** Filtering twice is filtering once by both lists. */
  lemma {:induction false} WithoutWithout<T(!new)>(s: seq<T>, a: seq<T>, b: seq<T>)
    ensures Without(Without(s, a), b) == Without(s, a + b)
  {
    if s != [] {
      WithoutWithout(s[1..], a, b);
      var w := Without(s, a);
      if s[0] in a {
        assert w == Without(s[1..], a);
      } else {
        assert w == [s[0]] + Without(s[1..], a);
        assert w[1..] == Without(s[1..], a);
      }
    }
  }

  /**
   * The server's delete loop and the client's `filter` agree: deleting the elements of `xs` one
   * at a time keeps exactly the elements of `s` that are not in `xs`, in their order.
   */
  lemma {:induction false} DeleteAllIsWithout<T(!new)>(s: seq<T>, xs: seq<T>)
    ensures DeleteAll(s, xs) == Without(s, xs)
    decreases |xs|
  {
    if xs == [] {
      WithoutNothing(s);
    } else {
      var n := |xs| - 1;
      var front, last := xs[..n], xs[n];
      assert front + [last] == xs;
      calc {
        DeleteAll(s, xs);
        Delete(DeleteAll(s, front), last);
        { DeleteAllIsWithout(s, front); }
        Without(Without(s, front), [last]);
        { WithoutWithout(s, front, [last]); }
        Without(s, xs);
      }
    }
  }

  /** Filtering by an empty list keeps everything. */
  lemma {:induction false} WithoutNothing<T(!new)>(s: seq<T>)
    ensures Without(s, []) == s
  {
    if s != [] {
      WithoutNothing(s[1..]);
      assert [s[0]] + s[1..] == s;
    }
  }
}
