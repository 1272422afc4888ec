/**
 * Periods laid end to end. Both the mahadasha and the antardasha tables are
 * built the same way: a list of lords, a list of spans, and a running start
 * that advances by each span in turn.
 */
module Periods {

  /**
   * A (lord, start, end) triple. Mahadashas count in calendar years;
   * antardashas count in days after 1 January of the mahadasha's start year.
   */
  datatype Period<L> = Period(lord: L, start: int, end: int)

  datatype Option<T> = None | Some(value: T)

  /** Each period ends where the next one starts. */
  predicate Contiguous<L>(ps: seq<Period<L>>)
  {
    forall i :: 0 <= i < |ps| - 1 ==> ps[i].end == ps[i + 1].start
  }

  /** The lords of a list of periods, in order. */
  function Lords<L>(ps: seq<Period<L>>): (ls: seq<L>)
    ensures |ls| == |ps| && forall i :: 0 <= i < |ps| ==> ls[i] == ps[i].lord
  {
    if ps == [] then [] else [ps[0].lord] + Lords(ps[1..])
  }

  /** Sum of a list of spans. */
  function Sum(xs: seq<int>): (total: int)
  {
    if xs == [] then 0 else Sum(xs[..|xs| - 1]) + xs[|xs| - 1]
  }

  /** Summing a prefix one element longer adds that element. */
  lemma SumPrefix(xs: seq<int>, i: nat)
    requires i < |xs|
    ensures Sum(xs[..i + 1]) == Sum(xs[..i]) + xs[i]
  {
    assert xs[..i + 1][..i] == xs[..i];
  }

  /** Summing a concatenation. */
  lemma {:induction false} SumConcat(xs: seq<int>, ys: seq<int>)
    ensures Sum(xs + ys) == Sum(xs) + Sum(ys)
    decreases |ys|
  {
    if ys == [] {
      assert xs + ys == xs;
    } else {
      var ys' := ys[..|ys| - 1];
      assert (xs + ys)[..|xs + ys| - 1] == xs + ys';
      SumConcat(xs, ys');
    }
  }

  /** The sum of non-negative spans is at least each of its prefix sums. */
  lemma {:induction false} SumPrefixBelowWhole(xs: seq<int>, i: nat)
    requires i <= |xs|
    requires forall k :: 0 <= k < |xs| ==> 0 <= xs[k]
    ensures 0 <= Sum(xs[..i]) <= Sum(xs)
    decreases |xs|
  {
    if xs != [] {
      var n := |xs|;
      var xs' := xs[..n - 1];
      if i == n {
        assert xs[..i] == xs && xs'[..n - 1] == xs';
        SumPrefixBelowWhole(xs', n - 1);
      } else {
        assert xs[..i] == xs'[..i];
        SumPrefixBelowWhole(xs', i);
      }
    }
  }

  /**
   * The periods ruled in turn by `lords`, the `i`-th lasting `spans[i]`:
   * period `i` starts once the spans of all earlier periods have passed
   * since `origin`.
   */
  function Layout<L>(origin: int, lords: seq<L>, spans: seq<int>): (ps: seq<Period<L>>)
    requires |lords| == |spans|
    ensures |ps| == |lords|
  {
    seq(|lords|, i requires 0 <= i < |lords| =>
      Period(lords[i], origin + Sum(spans[..i]), origin + Sum(spans[..i]) + spans[i]))
  }

  /** Laying out one more lord appends its period, which starts where the earlier ones end. */
  lemma LayoutSnoc<L>(origin: int, lords: seq<L>, spans: seq<int>, i: nat)
    requires |lords| == |spans| && i < |lords|
    ensures Layout(origin, lords[..i + 1], spans[..i + 1]) == Layout(origin, lords[..i], spans[..i]) +
      [Period(lords[i], origin + Sum(spans[..i]), origin + Sum(spans[..i]) + spans[i])]
  {
    assert spans[..i + 1][..i] == spans[..i];
    forall k | 0 <= k < i ensures spans[..i + 1][..k] == spans[..i][..k] {
    }
  }

  /**
   * A layout is back to back, keeps the lords in order, gives period `i`
   * the span `spans[i]`, starts at the origin and ends after all the spans.
   */
  lemma LayoutContiguous<L>(origin: int, lords: seq<L>, spans: seq<int>)
    requires |lords| == |spans| && lords != []
    ensures var ps := Layout(origin, lords, spans);
      && Contiguous(ps)
      && Lords(ps) == lords
      && ps[0].start == origin
      && ps[|ps| - 1].end == origin + Sum(spans)
      && (forall i :: 0 <= i < |ps| ==> ps[i].end - ps[i].start == spans[i])
  {
    var ps := Layout(origin, lords, spans);
    forall i | 0 <= i < |ps| - 1 ensures ps[i].end == ps[i + 1].start {
      SumPrefix(spans, i);
    }
    SumPrefix(spans, |spans| - 1);
    assert spans[..|spans|] == spans;
    assert spans[..0] == [];
  }

  /** Each element of `xs` multiplied by `c`. */
  function Scale(xs: seq<int>, c: int): (ys: seq<int>)
    ensures |ys| == |xs| && forall i :: 0 <= i < |xs| ==> ys[i] == xs[i] * c
  {
    seq(|xs|, i requires 0 <= i < |xs| => xs[i] * c)
  }

  /** Scaling every span scales their sum. */
  lemma {:induction false} SumScale(xs: seq<int>, c: int)
    ensures Sum(Scale(xs, c)) == Sum(xs) * c
    decreases |xs|
  {
    if xs != [] {
      var xs' := xs[..|xs| - 1];
      assert Scale(xs, c)[..|xs| - 1] == Scale(xs', c);
      SumScale(xs', c);
      assert (Sum(xs') + xs[|xs| - 1]) * c == Sum(xs') * c + xs[|xs| - 1] * c;
    }
  }

  /**
   * Rounding each of a list of exact quantities down to a multiple of `q`
   * loses less than `q` per element: with `q * ds[i] <= es[i] < q * ds[i] + q`
   * for every `i`, the sums satisfy the same bounds with `q * |ds|`.
   */
  lemma {:induction false} FloorSumBounds(ds: seq<int>, es: seq<int>, q: int)
    requires |ds| == |es|
    requires forall i :: 0 <= i < |ds| ==> q * ds[i] <= es[i] < q * ds[i] + q
    ensures q * Sum(ds) <= Sum(es)
    ensures ds != [] ==> Sum(es) < q * Sum(ds) + q * |ds|
    decreases |ds|
  {
    if ds != [] {
      var n := |ds|;
      FloorSumBounds(ds[..n - 1], es[..n - 1], q);
      assert q * Sum(ds) == q * Sum(ds[..n - 1]) + q * ds[n - 1];
      assert q * |ds| == q * (n - 1) + q;
    }
  }

  /** `start <= year <= end`: both ends of a period count as inside it. */
  predicate Covers<L>(p: Period<L>, year: int)
  {
    p.start <= year <= p.end
  }

  /** Back-to-back periods leave no gap: every year from the first start to the last end is inside one of them. */
  lemma {:induction false} ContiguousCovers<L>(ps: seq<Period<L>>, year: int)
    requires Contiguous(ps) && ps != []
    requires ps[0].start <= year <= ps[|ps| - 1].end
    ensures exists i :: 0 <= i < |ps| && Covers(ps[i], year)
    decreases |ps|
  {
    if year > ps[0].end {
      assert |ps| > 1;
      var tail := ps[1..];
      assert Contiguous(tail) by {
        forall i | 0 <= i < |tail| - 1 ensures tail[i].end == tail[i + 1].start {
          assert tail[i] == ps[i + 1] && tail[i + 1] == ps[i + 2];
        }
      }
      ContiguousCovers(tail, year);
      var i :| 0 <= i < |tail| && Covers(tail[i], year);
      assert ps[i + 1] == tail[i];
    } else {
      assert Covers(ps[0], year);
    }
  }
}
