/** Orders and the two list normalisations the scripts use: Python's
    `sorted(set(xs))` and the order-preserving "append if not seen" loop. */
module Ordering {

  ghost predicate StrictTotalOrder<T(!new)>(lt: (T, T) -> bool) {
    && (forall x :: !lt(x, x))
    && (forall x, y, z :: lt(x, y) && lt(y, z) ==> lt(x, z))
    && (forall x, y :: x != y ==> lt(x, y) || lt(y, x))
  }

  /** Python's comparison of sequences (str, tuple, list): the first differing
      element decides, and a proper prefix is smaller. */
  predicate SeqLt<T(==)>(a: seq<T>, b: seq<T>, lt: (T, T) -> bool)
    decreases |a|
  {
    if |a| == 0 then |b| > 0
    else if |b| == 0 then false
    else lt(a[0], b[0]) || (a[0] == b[0] && SeqLt(a[1..], b[1..], lt))
  }

  lemma {:induction false} SeqLtIrreflexive<T(!new)>(a: seq<T>, lt: (T, T) -> bool)
    requires StrictTotalOrder(lt)
    ensures !SeqLt(a, a, lt)
    decreases |a|
  {
    if |a| > 0 {
      SeqLtIrreflexive(a[1..], lt);
    }
  }

  lemma {:induction false} SeqLtTransitive<T(!new)>(a: seq<T>, b: seq<T>, c: seq<T>, lt: (T, T) -> bool)
    requires StrictTotalOrder(lt)
    requires SeqLt(a, b, lt) && SeqLt(b, c, lt)
    ensures SeqLt(a, c, lt)
    decreases |a|
  {
    if |a| > 0 && |b| > 0 && |c| > 0 && a[0] == b[0] && b[0] == c[0] {
      SeqLtTransitive(a[1..], b[1..], c[1..], lt);
    }
  }

  lemma {:induction false} SeqLtTotal<T(!new)>(a: seq<T>, b: seq<T>, lt: (T, T) -> bool)
    requires StrictTotalOrder(lt)
    requires a != b
    ensures SeqLt(a, b, lt) || SeqLt(b, a, lt)
    decreases |a|
  {
    if |a| > 0 && |b| > 0 && a[0] == b[0] {
      assert a == [a[0]] + a[1..] && b == [b[0]] + b[1..];
      SeqLtTotal(a[1..], b[1..], lt);
    }
  }

  /** A common prefix does not decide the comparison: it is decided by
      what follows it. */
  lemma {:induction false} SeqLtAfterCommonPrefix<T(!new)>(a: seq<T>, b: seq<T>, i: nat, lt: (T, T) -> bool)
    requires StrictTotalOrder(lt)
    requires i <= |a| && i <= |b| && a[..i] == b[..i]
    ensures SeqLt(a, b, lt) == SeqLt(a[i..], b[i..], lt)
    decreases i
  {
    if i > 0 {
      assert a[0] == a[..i][0] == b[..i][0] == b[0];
      assert a[1..][..i - 1] == a[..i][1..] == b[..i][1..] == b[1..][..i - 1];
      SeqLtAfterCommonPrefix(a[1..], b[1..], i - 1, lt);
      assert a[1..][i - 1..] == a[i..] && b[1..][i - 1..] == b[i..];
    }
  }

  /** The lexicographic order over a strict total order is itself one. */
  lemma SeqLtIsStrictTotalOrder<T(!new)>(lt: (T, T) -> bool)
    requires StrictTotalOrder(lt)
    ensures StrictTotalOrder((a: seq<T>, b: seq<T>) => SeqLt(a, b, lt))
  {
    var slt := (a: seq<T>, b: seq<T>) => SeqLt(a, b, lt);
    forall a: seq<T> ensures !slt(a, a) {
      SeqLtIrreflexive(a, lt);
    }
    forall a: seq<T>, b: seq<T>, c: seq<T> | slt(a, b) && slt(b, c) ensures slt(a, c) {
      SeqLtTransitive(a, b, c, lt);
    }
    forall a: seq<T>, b: seq<T> | a != b ensures slt(a, b) || slt(b, a) {
      SeqLtTotal(a, b, lt);
    }
  }

  ghost predicate StrictlySorted<T>(s: seq<T>, lt: (T, T) -> bool) {
    forall i, j :: 0 <= i < j < |s| ==> lt(s[i], s[j])
  }

  function InsertSorted<T(==, !new)>(x: T, s: seq<T>, lt: (T, T) -> bool): (r: seq<T>)
    requires StrictTotalOrder(lt) && StrictlySorted(s, lt)
    ensures StrictlySorted(r, lt)
    ensures forall y :: y in r <==> y == x || y in s
  {
    if s == [] then [x]
    else if x == s[0] then s
    else if lt(x, s[0]) then [x] + s
    else
      assert StrictlySorted(s[1..], lt);
      var rest := InsertSorted(x, s[1..], lt);
      assert forall y :: y in rest ==> lt(s[0], y) by {
        forall y | y in rest ensures lt(s[0], y) {
          if y != x {
            var k :| 0 <= k < |s[1..]| && s[1..][k] == y;
            assert s[k + 1] == y;
          }
        }
      }
      [s[0]] + rest
  }

  /** Python `sorted(set(xs))` for a strict total order `lt`. */
  function SortedDistinct<T(==, !new)>(xs: seq<T>, lt: (T, T) -> bool): (r: seq<T>)
    requires StrictTotalOrder(lt)
    ensures StrictlySorted(r, lt)
    ensures forall y :: y in r <==> y in xs
    decreases |xs|
  {
    if xs == [] then []
    else
      var r := InsertSorted(xs[|xs| - 1], SortedDistinct(xs[..|xs| - 1], lt), lt);
      assert xs == xs[..|xs| - 1] + [xs[|xs| - 1]];
      r
  }

  lemma NonEmptyHasHead<T>(s: seq<T>)
    ensures s != [] ==> s[0] in s
  {
  }

  lemma HeadIsLeast<T(!new)>(s: seq<T>, y: T, lt: (T, T) -> bool)
    requires StrictlySorted(s, lt) && y in s
    ensures y == s[0] || lt(s[0], y)
  {
    var k :| 0 <= k < |s| && s[k] == y;
    if k > 0 {
      assert lt(s[0], s[k]);
    }
  }

  /** A strictly sorted sequence is determined by its elements: whatever order
      the inputs came in, `sorted(set(xs))` is the same list. */
  lemma {:induction false} SortedUnique<T(!new)>(a: seq<T>, b: seq<T>, lt: (T, T) -> bool)
    requires StrictTotalOrder(lt)
    requires StrictlySorted(a, lt) && StrictlySorted(b, lt)
    requires forall y :: y in a <==> y in b
    ensures a == b
    decreases |a|
  {
    if a != [] && b != [] {
      assert a[0] in a && b[0] in b;
      HeadIsLeast(a, b[0], lt);
      HeadIsLeast(b, a[0], lt);
      assert a[0] == b[0];
      assert a == [a[0]] + a[1..] && b == [b[0]] + b[1..];
      assert StrictlySorted(a[1..], lt) && StrictlySorted(b[1..], lt);
      forall y ensures y in a[1..] <==> y in b[1..] {
        if y in a[1..] {
          var i :| 1 <= i < |a| && a[i] == y;
          assert lt(a[0], y) && y != b[0] && y in b;
          assert y in [b[0]] + b[1..];
        }
        if y in b[1..] {
          var j :| 1 <= j < |b| && b[j] == y;
          assert lt(b[0], y) && y != a[0] && y in a;
          assert y in [a[0]] + a[1..];
        }
      }
      SortedUnique(a[1..], b[1..], lt);
    } else {
      NonEmptyHasHead(a);
      NonEmptyHasHead(b);
    }
  }

  /** `sorted(set(xs))` depends only on the set of elements of `xs`. */
  lemma SortedDistinctOfSameElements<T(!new)>(xs: seq<T>, ys: seq<T>, lt: (T, T) -> bool)
    requires StrictTotalOrder(lt)
    requires forall y :: y in xs <==> y in ys
    ensures SortedDistinct(xs, lt) == SortedDistinct(ys, lt)
  {
    SortedUnique(SortedDistinct(xs, lt), SortedDistinct(ys, lt), lt);
  }

  ghost predicate NoDuplicates<T>(s: seq<T>) {
    forall i, j :: 0 <= i < j < |s| ==> s[i] != s[j]
  }

  /** A strictly sorted sequence holds each element once. */
  lemma StrictlySortedNoDuplicates<T(!new)>(s: seq<T>, lt: (T, T) -> bool)
    requires StrictTotalOrder(lt) && StrictlySorted(s, lt)
    ensures NoDuplicates(s)
  {
    forall i, j | 0 <= i < j < |s| ensures s[i] != s[j] {
      assert lt(s[i], s[j]);
    }
  }

  /** The list built by `for p in xs: if p not in seen: seen.append(p)`. */
  function Dedup<T(==, !new)>(xs: seq<T>): (r: seq<T>)
    ensures NoDuplicates(r)
    ensures forall y :: y in r <==> y in xs
    decreases |xs|
  {
    if xs == [] then []
    else
      var d := Dedup(xs[..|xs| - 1]);
      var x := xs[|xs| - 1];
      assert xs == xs[..|xs| - 1] + [x];
      if x in d then d else d + [x]
  }

  /** Index of the first occurrence of `x` in `xs`. */
  function FirstIndex<T(==)>(xs: seq<T>, x: T): (i: nat)
    requires x in xs
    ensures i < |xs| && xs[i] == x && x !in xs[..i]
  {
    if xs[0] == x then 0
    else
      var i := FirstIndex(xs[1..], x);
      assert xs[..i + 1] == [xs[0]] + xs[1..][..i];
      i + 1
  }

  lemma {:induction false} FirstIndexIsLeast<T(!new)>(xs: seq<T>, x: T, k: nat)
    requires k < |xs| && xs[k] == x
    ensures FirstIndex(xs, x) <= k
    decreases k
  {
    if xs[0] != x {
      FirstIndexIsLeast(xs[1..], x, k - 1);
    }
  }

  lemma FirstIndexOfPrefix<T(!new)>(xs: seq<T>, n: nat, x: T)
    requires n <= |xs| && x in xs[..n]
    ensures FirstIndex(xs[..n], x) == FirstIndex(xs, x)
  {
    var i := FirstIndex(xs[..n], x);
    FirstIndexIsLeast(xs, x, i);
    var j := FirstIndex(xs, x);
    FirstIndexIsLeast(xs[..n], x, j);
  }

  /** One more element leaves the de-duplicated list in place and appends
      the element when it is new. */
  lemma DedupStep<T(!new)>(xs: seq<T>)
    requires xs != []
    ensures var d := Dedup(xs[..|xs| - 1]);
      var x := xs[|xs| - 1];
      |d| <= |Dedup(xs)| <= |d| + 1 && Dedup(xs)[..|d|] == d
      && (|Dedup(xs)| == |d| + 1 ==> Dedup(xs)[|d|] == x && x !in xs[..|xs| - 1])
  {
  }

  /** The de-duplicated list keeps the inputs' first occurrences in their
      original order. */
  lemma {:induction false} DedupKeepsFirstOccurrenceOrder<T(!new)>(xs: seq<T>)
    ensures forall i, j :: 0 <= i < j < |Dedup(xs)| ==>
      FirstIndex(xs, Dedup(xs)[i]) < FirstIndex(xs, Dedup(xs)[j])
    decreases |xs|
  {
    if xs != [] {
      var n := |xs| - 1;
      var init := xs[..n];
      var d := Dedup(init);
      var r := Dedup(xs);
      DedupKeepsFirstOccurrenceOrder(init);
      DedupStep(xs);
      forall i, j | 0 <= i < j < |r|
        ensures FirstIndex(xs, r[i]) < FirstIndex(xs, r[j])
      {
        assert r[i] == r[..|d|][i] == d[i] && d[i] in init;
        FirstIndexOfPrefix(xs, n, r[i]);
        if j < |d| {
          assert r[j] == r[..|d|][j] == d[j] && d[j] in init;
          FirstIndexOfPrefix(xs, n, r[j]);
        } else {
          assert r[j] == xs[n] && xs[n] !in init;
          FirstIndexAtEnd(xs);
        }
      }
    }
  }

  /** An element seen only at the end has its first index there. */
  lemma FirstIndexAtEnd<T>(xs: seq<T>)
    requires xs != [] && xs[|xs| - 1] !in xs[..|xs| - 1]
    ensures FirstIndex(xs, xs[|xs| - 1]) == |xs| - 1
  {
  }
}
