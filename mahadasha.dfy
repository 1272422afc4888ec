/**
 * The mahadasha sequence: starting at the birth year, the nine planets rule
 * in the cycle order, beginning with the Moon's nakshatra lord, each for its
 * fixed number of years.
 */
module Mahadasha {
  import opened Periods
  import opened DashaTables
  import opened Nakshatra

  /** `s` turned so that it begins at position `idx` and wraps round after its last element. */
  function Rotate<T>(s: seq<T>, idx: nat): (r: seq<T>)
    requires idx < |s|
    ensures |r| == |s|
  {
    s[idx..] + s[..idx]
  }

  /** Element `i` of the turned sequence, before and after the wrap. */
  lemma RotateElements<T>(s: seq<T>, idx: nat)
    requires idx < |s|
    ensures forall i :: 0 <= i < |s| - idx ==> Rotate(s, idx)[i] == s[idx + i]
    ensures forall i :: |s| - idx <= i < |s| ==> Rotate(s, idx)[i] == s[idx + i - |s|]
  {
  }

  /** For a cycle of nine, element `i` of the turned cycle is the one at `(idx + i) mod 9`. */
  lemma RotateAt<T>(s: seq<T>, idx: nat, i: nat)
    requires |s| == 9 && idx < 9 && i < 9
    ensures Rotate(s, idx)[i] == s[(idx + i) % 9]
  {
    RotateElements(s, idx);
    if i < 9 - idx {
      assert (idx + i) % 9 == idx + i;
    } else {
      assert (idx + i) % 9 == idx + i - 9;
    }
  }

  /** Turning a sequence permutes it; in particular it keeps every element. */
  lemma RotatePermutes<T>(s: seq<T>, idx: nat)
    requires idx < |s|
    ensures multiset(Rotate(s, idx)) == multiset(s)
    ensures forall x :: x in s ==> x in Rotate(s, idx)
  {
    assert s == s[..idx] + s[idx..];
    forall x | x in s ensures x in Rotate(s, idx) {
      assert x in multiset(s);
    }
  }

  /** Turning a sequence without repetitions gives one without repetitions. */
  lemma RotateDistinct<T>(s: seq<T>, idx: nat)
    requires idx < |s|
    requires forall i, j :: 0 <= i < j < |s| ==> s[i] != s[j]
    ensures forall i, j :: 0 <= i < j < |s| ==> Rotate(s, idx)[i] != Rotate(s, idx)[j]
  {
    var r := Rotate(s, idx);
    RotateElements(s, idx);
    forall i, j | 0 <= i < j < |s| ensures r[i] != r[j] {
      var a := if i < |s| - idx then idx + i else idx + i - |s|;
      var b := if j < |s| - idx then idx + j else idx + j - |s|;
      assert r[i] == s[a] && r[j] == s[b] && a != b;
      if a < b { assert s[a] != s[b]; } else { assert s[b] != s[a]; }
    }
  }

  /** Turning the cycle leaves the total of its years unchanged. */
  lemma RotateKeepsYears(s: seq<Planet>, idx: nat)
    requires idx < |s|
    ensures Sum(YearsOf(Rotate(s, idx))) == Sum(YearsOf(s))
  {
    var ys := YearsOf(s);
    assert YearsOf(Rotate(s, idx)) == ys[idx..] + ys[..idx];
    assert ys == ys[..idx] + ys[idx..];
    SumConcat(ys[idx..], ys[..idx]);
    SumConcat(ys[..idx], ys[idx..]);
  }

  /** The reference timeline: the cycle turned to start at `lord`, each planet ruling its years from the birth year on. */
  function Mahadashas(birthYear: int, lord: Planet): (ds: seq<Period<Planet>>)
  {
    var order := Rotate(DashaSequence, IndexOf(lord));
    Layout(birthYear, order, YearsOf(order))
  }

  /**
   * `calculate_dasha_start`: look up the Moon's lord, find its place in the
   * cycle, and append one period per planet while a running start year
   * advances by each duration. `round` leaves these integers unchanged.
   */
  method CalculateDashaStart(birthYear: int, moonDeg: real) returns (dashaList: seq<Period<Planet>>)
    ensures dashaList == Mahadashas(birthYear, MoonLord(moonDeg))
  {
    var lord := MoonLord(moonDeg);
    var idx := IndexOf(lord);
    ghost var order := Rotate(DashaSequence, idx);
    ghost var ys := YearsOf(order);
    var startYear := birthYear;
    dashaList := [];
    for i := 0 to |DashaSequence|
      invariant startYear == birthYear + Sum(ys[..i])
      invariant dashaList == Layout(birthYear, order[..i], ys[..i])
    {
      var planet := DashaSequence[(idx + i) % |DashaSequence|];
      RotateAt(DashaSequence, idx, i);
      var duration := Years(planet);
      LayoutSnoc(birthYear, order, ys, i);
      SumPrefix(ys, i);
      dashaList := dashaList + [Period(planet, startYear, startYear + duration)];
      startYear := startYear + duration;
    }
    assert order[..|DashaSequence|] == order && ys[..|DashaSequence|] == ys;
  }

  /**
   * Laying out a turned cycle of nine distinct planets that names every
   * planet: nine periods, the `i`-th ruled by the planet `i` places after
   * the starting one, each planet exactly once.
   */
  lemma RotatedLayoutOrder(birthYear: int, s: seq<Planet>, idx: nat)
    requires |s| == 9 && idx < 9
    requires forall i, j :: 0 <= i < j < |s| ==> s[i] != s[j]
    requires forall p: Planet :: p in s
    ensures var ds := Layout(birthYear, Rotate(s, idx), YearsOf(Rotate(s, idx)));
      && |ds| == 9
      && ds[0].lord == s[idx]
      && (forall i :: 0 <= i < |ds| ==> ds[i].lord == s[(idx + i) % 9])
      && (forall i, j :: 0 <= i < j < |ds| ==> ds[i].lord != ds[j].lord)
      && (forall p: Planet :: p in Lords(ds))
      && multiset(Lords(ds)) == multiset(s)
  {
    var r := Rotate(s, idx);
    LayoutContiguous(birthYear, r, YearsOf(r));
    forall i | 0 <= i < 9 ensures r[i] == s[(idx + i) % 9] {
      RotateAt(s, idx, i);
    }
    RotatePermutes(s, idx);
    RotateDistinct(s, idx);
  }

  /**
   * The timeline has nine periods, turned to start at the Moon's lord, and
   * lists every planet exactly once.
   */
  lemma MahadashaOrder(birthYear: int, lord: Planet)
    ensures var ds := Mahadashas(birthYear, lord);
      && |ds| == 9
      && ds[0].lord == lord
      && (forall i :: 0 <= i < |ds| ==> ds[i].lord == DashaSequence[(IndexOf(lord) + i) % 9])
      && (forall i, j :: 0 <= i < j < |ds| ==> ds[i].lord != ds[j].lord)
      && (forall p: Planet :: p in Lords(ds))
      && multiset(Lords(ds)) == multiset(DashaSequence)
  {
    TablesComplete();
    RotatedLayoutOrder(birthYear, DashaSequence, IndexOf(lord));
  }

  /**
   * The periods are back to back, each lasts its planet's number of years,
   * and together they cover the 120 years from the birth year.
   */
  lemma MahadashaContiguous(birthYear: int, lord: Planet)
    ensures var ds := Mahadashas(birthYear, lord);
      && Contiguous(ds)
      && ds[0].start == birthYear
      && ds[|ds| - 1].end == birthYear + TotalDashaYears == birthYear + 120
      && (forall i :: 0 <= i < |ds| ==> ds[i].end - ds[i].start == Years(ds[i].lord))
  {
    var order := Rotate(DashaSequence, IndexOf(lord));
    LayoutContiguous(birthYear, order, YearsOf(order));
    RotateKeepsYears(DashaSequence, IndexOf(lord));
    TotalIs120();
  }

  /** Birth year 2000 under the Moon: (Moon, 2000, 2010), (Mars, 2010, 2017), ..., ending in 2120. */
  lemma MoonBornIn2000()
    ensures var ds := Mahadashas(2000, Moon);
      ds[0] == Period(Moon, 2000, 2010) && ds[1] == Period(Mars, 2010, 2017) && ds[8].end == 2120
  {
    MahadashaContiguous(2000, Moon);
    var order := Rotate(DashaSequence, IndexOf(Moon));
    assert order[0] == Moon && order[1] == Mars;
  }
}
