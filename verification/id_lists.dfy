/**
 * The ordered id lists of the filter. Checking a box appends with `push`;
 * unchecking it or clicking its badge keeps `item !== id` with `filter`.
 */
module IdLists {

  /** `a` is `b` with some elements deleted, the rest in their original order. */
  predicate IsSubsequence(a: seq<int>, b: seq<int>)
    decreases |b|
  {
    if |a| == 0 then true
    else if |b| == 0 then false
    else if a[0] == b[0] then IsSubsequence(a[1..], b[1..])
    else IsSubsequence(a, b[1..])
  }

  /** What removing every `x` from `xs` must produce: no `x`, every other id as often as before, order kept. */
  ghost predicate RemovedAll(r: seq<int>, xs: seq<int>, x: int)
  {
    && x !in r
    && multiset(r) == multiset(xs)[x := 0]
    && IsSubsequence(r, xs)
  }

  /** `xs.filter((item) => item !== x)`. */
  function Without(xs: seq<int>, x: int): (r: seq<int>)
    ensures RemovedAll(r, xs, x)
    ensures |r| <= |xs|
    decreases |xs|
  {
    if |xs| == 0 then []
    else
      assert xs == [xs[0]] + xs[1..];
      var rest := Without(xs[1..], x);
      if xs[0] == x then
        assert rest == [] || rest[0] != xs[0];
        SubsequenceOfTail(rest, xs);
        rest
      else
        [xs[0]] + rest
  }

  lemma SubsequenceOfTail(a: seq<int>, b: seq<int>)
    requires |b| >= 1
    requires IsSubsequence(a, b[1..])
    requires a == [] || a[0] != b[0]
    ensures IsSubsequence(a, b)
  {
  }

  /** A subsequence holds each element at most as often as the sequence it comes from. */
  lemma {:induction false} SubsequenceMultiset(a: seq<int>, b: seq<int>)
    requires IsSubsequence(a, b)
    ensures multiset(a) <= multiset(b)
    decreases |b|
  {
    if |a| > 0 {
      assert b == [b[0]] + b[1..];
      if a[0] == b[0] {
        SubsequenceMultiset(a[1..], b[1..]);
        assert a == [a[0]] + a[1..];
      } else {
        SubsequenceMultiset(a, b[1..]);
      }
    }
  }

  /** `RemovedAll` pins the result down: `Without` is the only list that meets it. */
  lemma {:induction false} RemovedAllUnique(r: seq<int>, xs: seq<int>, x: int)
    requires RemovedAll(r, xs, x)
    ensures r == Without(xs, x)
    decreases |xs|
  {
    if |xs| == 0 {
      assert |r| == 0;
    } else {
      var y := xs[0];
      assert xs == [y] + xs[1..];
      if y == x {
        assert r == [] || r[0] != y;
        assert IsSubsequence(r, xs[1..]);
        assert multiset(r) == multiset(xs[1..])[x := 0];
        RemovedAllUnique(r, xs[1..], x);
      } else {
        assert multiset(r)[y] == multiset(xs)[y] >= 1;
        assert y in r;
        assert |r| >= 1;
        if r[0] == y {
          assert r == [y] + r[1..];
          assert IsSubsequence(r[1..], xs[1..]);
          assert multiset(r) == multiset{y} + multiset(r[1..]);
          assert multiset(r[1..]) == multiset(xs[1..])[x := 0] by {
            forall z
              ensures multiset(r[1..])[z] == multiset(xs[1..])[x := 0][z]
            {
              assert multiset(r)[z] == multiset{y}[z] + multiset(r[1..])[z];
              assert multiset(xs)[z] == multiset{y}[z] + multiset(xs[1..])[z];
            }
          }
          RemovedAllUnique(r[1..], xs[1..], x);
        } else {
          assert IsSubsequence(r, xs[1..]);
          SubsequenceMultiset(r, xs[1..]);
          assert false;
        }
      }
    }
  }

  /** No id occurs twice. */
  predicate NoRepeats(xs: seq<int>)
  {
    forall i, j :: 0 <= i < j < |xs| ==> xs[i] != xs[j]
  }

  /** Deleting elements from a repeat-free list leaves it repeat-free. */
  lemma {:induction false} SubsequenceNoRepeats(a: seq<int>, b: seq<int>)
    requires IsSubsequence(a, b)
    requires NoRepeats(b)
    ensures NoRepeats(a)
    decreases |b|
  {
    if |a| > 0 {
      assert NoRepeats(b[1..]) by {
        forall i, j | 0 <= i < j < |b[1..]| ensures b[1..][i] != b[1..][j] {
          assert b[1..][i] == b[i + 1] && b[1..][j] == b[j + 1];
        }
      }
      if a[0] == b[0] {
        SubsequenceNoRepeats(a[1..], b[1..]);
        SubsequenceMultiset(a[1..], b[1..]);
        assert b == [b[0]] + b[1..];
        assert b[0] !in b[1..] by {
          forall j | 0 <= j < |b[1..]| ensures b[1..][j] != b[0] {
            assert b[1..][j] == b[j + 1];
          }
        }
        assert multiset(b[1..])[b[0]] == 0;
        assert a[0] !in a[1..];
        forall i, j | 0 <= i < j < |a| ensures a[i] != a[j] {
          if i == 0 {
            assert a[j] == a[1..][j - 1];
          } else {
            assert a[i] == a[1..][i - 1] && a[j] == a[1..][j - 1];
          }
        }
      } else {
        SubsequenceNoRepeats(a, b[1..]);
      }
    }
  }

  /** Removing an id that is not in the list leaves the list as it was. */
  lemma {:induction false} WithoutAbsent(xs: seq<int>, x: int)
    requires x !in xs
    ensures Without(xs, x) == xs
    decreases |xs|
  {
    if |xs| > 0 {
      WithoutAbsent(xs[1..], x);
      assert xs == [xs[0]] + xs[1..];
    }
  }

  /** Removing twice is removing once. */
  lemma WithoutIdempotent(xs: seq<int>, x: int)
    ensures Without(Without(xs, x), x) == Without(xs, x)
  {
    WithoutAbsent(Without(xs, x), x);
  }

  /** An id appended and then removed leaves the same list as removing it outright. */
  lemma {:induction false} WithoutAppended(xs: seq<int>, x: int)
    ensures Without(xs + [x], x) == Without(xs, x)
    decreases |xs|
  {
    if |xs| == 0 {
      assert Without([x], x) == Without([x][1..], x);
    } else {
      assert (xs + [x])[1..] == xs[1..] + [x];
      WithoutAppended(xs[1..], x);
    }
  }
}
