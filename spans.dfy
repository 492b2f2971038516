// Sequences produced by counted loops. `Span(lo, hi, f)` is what a loop
// `for (i = lo; i < hi; i++)` emits when iteration i emits f(i); nested loops
// nest spans. The lemmas here are proved once and used by every model of a
// loop that issues calls or collects points.
module Spans {

  function Span<T>(lo: int, hi: int, f: int -> seq<T>): seq<T>
    decreases hi - lo
  {
    if hi <= lo then [] else Span(lo, hi - 1, f) + f(hi - 1)
  }

  /** Row `r` of a grid: the inner loop over columns c0..c1-1. */
  function GridRow<T>(c0: int, c1: int, g: (int, int) -> seq<T>): int -> seq<T>
  {
    r => Span(c0, c1, GridCell(g, r))
  }

  function GridCell<T>(g: (int, int) -> seq<T>, r: int): int -> seq<T>
  {
    c => g(r, c)
  }

  /** Two nested loops, rows outside. */
  function Grid<T>(r0: int, r1: int, c0: int, c1: int, g: (int, int) -> seq<T>): seq<T>
  {
    Span(r0, r1, GridRow(c0, c1, g))
  }

  predicate Distinct<T(==)>(s: seq<T>)
  {
    forall i, j :: 0 <= i < j < |s| ==> s[i] != s[j]
  }

  lemma {:induction false} SpanLength<T>(lo: int, hi: int, f: int -> seq<T>, n: nat)
    requires lo <= hi
    requires forall i :: lo <= i < hi ==> |f(i)| == n
    ensures |Span(lo, hi, f)| == (hi - lo) * n
    decreases hi - lo
  {
    if hi > lo {
      SpanLength(lo, hi - 1, f, n);
      assert (hi - lo) * n == (hi - 1 - lo) * n + n;
    }
  }

  lemma {:induction false} SpanMember<T>(lo: int, hi: int, f: int -> seq<T>, x: T)
    ensures x in Span(lo, hi, f) <==> exists i :: lo <= i < hi && x in f(i)
    decreases hi - lo
  {
    if hi > lo {
      SpanMember(lo, hi - 1, f, x);
    }
  }

  lemma {:induction false} SpanSplit<T>(lo: int, mid: int, hi: int, f: int -> seq<T>)
    requires lo <= mid <= hi
    ensures Span(lo, hi, f) == Span(lo, mid, f) + Span(mid, hi, f)
    decreases hi - lo
  {
    if hi > mid {
      SpanSplit(lo, mid, hi - 1, f);
    }
  }

  lemma {:induction false} SpanEmpty<T>(lo: int, hi: int, f: int -> seq<T>)
    requires forall i :: lo <= i < hi ==> f(i) == []
    ensures Span(lo, hi, f) == []
    decreases hi - lo
  {
    if hi > lo {
      SpanEmpty(lo, hi - 1, f);
    }
  }

  lemma {:induction false} SpanCongruent<T>(lo: int, hi: int, f: int -> seq<T>, g: int -> seq<T>)
    requires forall i :: lo <= i < hi ==> f(i) == g(i)
    ensures Span(lo, hi, f) == Span(lo, hi, g)
    decreases hi - lo
  {
    if hi > lo {
      SpanCongruent(lo, hi - 1, f, g);
    }
  }

  /** What every iteration's elements satisfy, the whole loop's do. */
  lemma SpanAll<T>(lo: int, hi: int, f: int -> seq<T>, P: T -> bool)
    requires forall i, x :: lo <= i < hi && x in f(i) ==> P(x)
    ensures forall x :: x in Span(lo, hi, f) ==> P(x)
  {
    forall x | x in Span(lo, hi, f) ensures P(x) {
      SpanMember(lo, hi, f, x);
    }
  }

  /** The first element a loop emits comes from its first iteration. */
  lemma SpanFirst<T>(lo: int, hi: int, f: int -> seq<T>)
    requires lo < hi && |f(lo)| > 0
    ensures |Span(lo, hi, f)| > 0 && Span(lo, hi, f)[0] == f(lo)[0]
  {
    SpanSplit(lo, lo + 1, hi, f);
    assert Span(lo, lo + 1, f) == f(lo);
  }

  /** The elements of a loop's first iteration open its output. */
  lemma SpanHeadAt<T>(lo: int, hi: int, f: int -> seq<T>, j: int)
    requires lo < hi && 0 <= j < |f(lo)|
    ensures j < |Span(lo, hi, f)| && Span(lo, hi, f)[j] == f(lo)[j]
  {
    SpanSplit(lo, lo + 1, hi, f);
    assert Span(lo, lo + 1, f) == f(lo);
  }

  /** One more iteration of a counted loop. */
  lemma SpanNext<T>(lo: int, hi: int, f: int -> seq<T>)
    requires lo <= hi
    ensures Span(lo, hi + 1, f) == Span(lo, hi, f) + f(hi)
  {
  }

  lemma SpanSnoc<T>(prefix: seq<T>, lo: int, hi: int, f: int -> seq<T>)
    requires lo <= hi
    ensures prefix + Span(lo, hi + 1, f) == prefix + Span(lo, hi, f) + f(hi)
  {
    assert Span(lo, hi + 1, f) == Span(lo, hi, f) + f(hi);
  }

  /** One more row of a grid. */
  lemma GridRowStep<T>(lo: int, w: int, c0: int, c1: int, g: (int, int) -> seq<T>)
    requires lo <= w
    ensures Span(lo, w + 1, GridRow(c0, c1, g)) == Span(lo, w, GridRow(c0, c1, g)) + Span(c0, c1, GridCell(g, w))
  {
  }

  /** A span whose pieces are empty outside [a, b) and agree with g inside
      it is the span of g over [a, b). */
  lemma SpanTrim<T>(lo: int, a: int, b: int, hi: int, f: int -> seq<T>, g: int -> seq<T>)
    requires lo <= a <= b <= hi
    requires forall i :: lo <= i < a ==> f(i) == []
    requires forall i :: b <= i < hi ==> f(i) == []
    requires forall i :: a <= i < b ==> f(i) == g(i)
    ensures Span(lo, hi, f) == Span(a, b, g)
  {
    SpanSplit(lo, a, hi, f);
    SpanSplit(a, b, hi, f);
    SpanEmpty(lo, a, f);
    SpanEmpty(b, hi, f);
    SpanCongruent(a, b, f, g);
  }

  /** A span is repetition-free when each piece is and no value appears in
      two different pieces. */
  lemma {:induction false} SpanDistinct<T>(lo: int, hi: int, f: int -> seq<T>)
    requires forall i :: lo <= i < hi ==> Distinct(f(i))
    requires forall i, j, x :: lo <= i < j < hi && x in f(i) ==> x !in f(j)
    ensures Distinct(Span(lo, hi, f))
    decreases hi - lo
  {
    if hi > lo {
      SpanDistinct(lo, hi - 1, f);
      var a, b := Span(lo, hi - 1, f), f(hi - 1);
      forall i, j | 0 <= i < j < |a + b| ensures (a + b)[i] != (a + b)[j] {
        if i < |a| && j >= |a| {
          SpanMember(lo, hi - 1, f, a[i]);
          assert b[j - |a|] in b;
        }
      }
    }
  }

  lemma GridMember<T>(r0: int, r1: int, c0: int, c1: int, g: (int, int) -> seq<T>, x: T)
    ensures x in Grid(r0, r1, c0, c1, g) <==>
            exists r, c :: r0 <= r < r1 && c0 <= c < c1 && x in g(r, c)
  {
    SpanMember(r0, r1, GridRow(c0, c1, g), x);
    forall r | r0 <= r < r1
      ensures x in GridRow(c0, c1, g)(r) <==> exists c :: c0 <= c < c1 && x in g(r, c)
    {
      SpanMember(c0, c1, GridCell(g, r), x);
      assert GridRow(c0, c1, g)(r) == Span(c0, c1, GridCell(g, r));
      assert forall c :: GridCell(g, r)(c) == g(r, c);
    }
    if x in Grid(r0, r1, c0, c1, g) {
      var r :| r0 <= r < r1 && x in GridRow(c0, c1, g)(r);
      var c :| c0 <= c < c1 && x in g(r, c);
    }
    if exists r, c :: r0 <= r < r1 && c0 <= c < c1 && x in g(r, c) {
      var r, c :| r0 <= r < r1 && c0 <= c < c1 && x in g(r, c);
      assert x in GridRow(c0, c1, g)(r);
    }
  }

  /** An element of cell (r, c) of a grid is an element of the grid. */
  lemma GridHas<T>(r0: int, r1: int, c0: int, c1: int, g: (int, int) -> seq<T>, r: int, c: int, x: T)
    requires r0 <= r < r1 && c0 <= c < c1 && x in g(r, c)
    ensures x in Grid(r0, r1, c0, c1, g)
  {
    GridMember(r0, r1, c0, c1, g, x);
  }

  /** A grid whose every cell emits n elements. */
  lemma GridLengthEach<T>(r0: int, r1: int, c0: int, c1: int, g: (int, int) -> seq<T>, n: nat)
    requires r0 <= r1 && c0 <= c1
    requires forall r, c :: r0 <= r < r1 && c0 <= c < c1 ==> |g(r, c)| == n
    ensures |Grid(r0, r1, c0, c1, g)| == (r1 - r0) * ((c1 - c0) * n)
  {
    forall r | r0 <= r < r1 ensures |GridRow(c0, c1, g)(r)| == (c1 - c0) * n {
      SpanLength(c0, c1, GridCell(g, r), n);
    }
    SpanLength(r0, r1, GridRow(c0, c1, g), (c1 - c0) * n);
  }

  lemma GridLength<T>(r0: int, r1: int, c0: int, c1: int, g: (int, int) -> seq<T>)
    requires r0 <= r1 && c0 <= c1
    requires forall r, c :: r0 <= r < r1 && c0 <= c < c1 ==> |g(r, c)| == 1
    ensures |Grid(r0, r1, c0, c1, g)| == (r1 - r0) * (c1 - c0)
  {
    forall r | r0 <= r < r1 ensures |GridRow(c0, c1, g)(r)| == c1 - c0 {
      SpanLength(c0, c1, GridCell(g, r), 1);
    }
    SpanLength(r0, r1, GridRow(c0, c1, g), c1 - c0);
  }

  /** A loop that emits exactly one value per iteration: the k-th value
      comes from iteration lo + k. */
  lemma {:induction false} SpanSingleAt<T>(lo: int, hi: int, f: int -> seq<T>, k: int)
    requires lo <= hi && 0 <= k < hi - lo
    requires forall i :: lo <= i < hi ==> |f(i)| == 1
    ensures |Span(lo, hi, f)| == hi - lo
    ensures Span(lo, hi, f)[k] == f(lo + k)[0]
    decreases hi - lo
  {
    SpanLength(lo, hi, f, 1);
    SpanLength(lo, hi - 1, f, 1);
    if k < hi - 1 - lo {
      SpanSingleAt(lo, hi - 1, f, k);
    }
  }

  /** One value per iteration, never the same value twice. */
  lemma SpanSingleDistinct<T>(lo: int, hi: int, f: int -> seq<T>)
    requires forall i :: lo <= i < hi ==> |f(i)| == 1
    requires forall i, j :: lo <= i < j < hi ==> f(i)[0] != f(j)[0]
    ensures Distinct(Span(lo, hi, f))
  {
    forall i, j, x | lo <= i < j < hi && x in f(i) ensures x !in f(j) {
      assert f(i) == [f(i)[0]];
      assert f(j) == [f(j)[0]];
    }
    SpanDistinct(lo, hi, f);
  }

  // ---- lists without repeats ------------------------------------------------

  /** What is in four pieces put together is in one of them. */
  lemma MemberFour<T>(a: seq<T>, b: seq<T>, c: seq<T>, d: seq<T>, x: T)
    ensures x in a + b + c + d <==> x in a || x in b || x in c || x in d
  {
  }

  /** Appending four pieces one by one is appending their concatenation. */
  lemma AppendFour<T>(x: seq<T>, a: seq<T>, b: seq<T>, c: seq<T>, d: seq<T>)
    ensures x + a + b + c + d == x + (a + b + c + d)
  {
  }

  /** Two lists without repeats and with no value in common join into a
      list without repeats. */
  lemma DistinctAppend<T>(a: seq<T>, b: seq<T>)
    requires Distinct(a) && Distinct(b)
    requires forall x :: x in a ==> x !in b
    ensures Distinct(a + b)
  {
    forall i, j | 0 <= i < j < |a + b| ensures (a + b)[i] != (a + b)[j] {
      if j < |a| {
        assert (a + b)[i] == a[i] && (a + b)[j] == a[j];
      } else if i >= |a| {
        assert (a + b)[i] == b[i - |a|] && (a + b)[j] == b[j - |a|];
      } else {
        assert (a + b)[i] == a[i] && a[i] in a;
        assert (a + b)[j] == b[j - |a|] && b[j - |a|] in b;
      }
    }
  }

  /** A list has at least as many entries as it has different values, and
      exactly as many when it has no repeats. */
  lemma {:induction false} DistinctCard<T>(s: seq<T>)
    ensures |set x | x in s| <= |s|
    ensures |set x | x in s| == |s| <==> Distinct(s)
    decreases |s|
  {
    if s != [] {
      var init, last := s[..|s| - 1], s[|s| - 1];
      assert s == init + [last];
      DistinctCard(init);
      assert (set x | x in s) == (set x | x in init) + {last};
      if last in init {
        var k :| 0 <= k < |init| && init[k] == last;
        assert s[k] == s[|s| - 1];
        assert (set x | x in s) == (set x | x in init);
      } else {
        if Distinct(init) {
          forall i, j | 0 <= i < j < |s| ensures s[i] != s[j] {
            if j == |s| - 1 {
              assert s[i] == init[i];
            } else {
              assert s[i] == init[i] && s[j] == init[j];
            }
          }
        } else {
          var i, j :| 0 <= i < j < |init| && init[i] == init[j];
          assert s[i] == s[j];
        }
      }
    }
  }

  /** In a list without repeats every value occurs once or not at all. */
  lemma {:induction false} DistinctCount<T>(s: seq<T>, x: T)
    requires Distinct(s)
    ensures multiset(s)[x] == if x in s then 1 else 0
    decreases |s|
  {
    if s != [] {
      var init, last := s[..|s| - 1], s[|s| - 1];
      assert s == init + [last];
      assert Distinct(init) by {
        forall i, j | 0 <= i < j < |init| ensures init[i] != init[j] {
          assert init[i] == s[i] && init[j] == s[j];
        }
      }
      DistinctCount(init, x);
      assert last !in init by {
        forall k | 0 <= k < |init| ensures init[k] != last {
          assert init[k] == s[k];
        }
      }
    }
  }

  /** Two lists of the same length holding the same values, one of them
      without repeats, hold every value equally often: the other has no
      repeats either, and they are permutations of each other. */
  lemma SameValuesSameMultiset<T>(a: seq<T>, b: seq<T>)
    requires Distinct(a) && |a| == |b|
    requires forall x :: x in a <==> x in b
    ensures Distinct(b)
    ensures multiset(a) == multiset(b)
  {
    DistinctCard(a);
    DistinctCard(b);
    assert (set x | x in a) == (set x | x in b);
    forall x ensures multiset(a)[x] == multiset(b)[x] {
      DistinctCount(a, x);
      DistinctCount(b, x);
    }
  }
}
