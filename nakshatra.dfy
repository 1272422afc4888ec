/**
 * The nakshatra-lord lookup: the Moon's ecliptic longitude, in degrees,
 * picks the ruling planet of the segment it falls in. The table's segments
 * are 13.2 degrees wide and the last one starts at 343.2 degrees.
 */
module Nakshatra {
  import opened DashaTables

  /** Starting longitude of segment `k`. */
  function Threshold(k: nat): (deg: real)
    requires k < |NakshatraLords|
  {
    NakshatraLords[k].1
  }

  /** `table[k]` with Python's indexing: a negative index counts from the end. */
  function PyIndex(table: seq<(Planet, real)>, k: int): (entry: (Planet, real))
    requires -|table| <= k < |table|
  {
    if k < 0 then table[|table| + k] else table[k]
  }

  /**
   * `get_moon_lord`: scan the thresholds in order and, at the first one the
   * longitude is strictly below, return the lord of the entry before it; if
   * there is none, return the last entry's lord. A non-negative longitude
   * gets the lord of its segment; a negative one, or one past the last
   * threshold, gets Mercury.
   */
  function MoonLord(moonDeg: real): (lord: Planet)
    ensures 0.0 <= moonDeg ==> lord == NakshatraLords[Segment(moonDeg)].0
    ensures moonDeg < 0.0 || moonDeg >= 343.2 ==> lord == Mercury
  {
    ThresholdsSpaced();
    if 0.0 <= moonDeg then
      SegmentIsLastAtOrBelow(NakshatraLords, moonDeg);
      ScanFrom(NakshatraLords, moonDeg, 0)
    else
      ScanFrom(NakshatraLords, moonDeg, 0)
  }

  /**
   * The loop of `get_moon_lord` over `table`, from iteration `i` on; the
   * result is always the lord of one of the table's entries.
   */
  function ScanFrom(table: seq<(Planet, real)>, moonDeg: real, i: nat): (lord: Planet)
    requires 0 < |table| && i <= |table|
    ensures exists k :: 0 <= k < |table| && table[k].0 == lord
    decreases |table| - i
  {
    if i == |table| then
      table[|table| - 1].0
    else if moonDeg < table[i].1 then
      var k := if i == 0 then |table| - 1 else i - 1;
      assert PyIndex(table, i - 1) == table[k];
      PyIndex(table, i - 1).0
    else
      ScanFrom(table, moonDeg, i + 1)
  }

  /** A table of 27 segments, the `k`-th starting at `13.2 * k` degrees. */
  ghost predicate Spaced(table: seq<(Planet, real)>)
  {
    |table| == 27 && forall k :: 0 <= k < |table| ==> table[k].1 == 13.2 * k as real
  }

  /** The segment a non-negative longitude falls in: `floor(deg / 13.2)`, capped at the last one. */
  function Segment(moonDeg: real): (k: nat)
    requires 0.0 <= moonDeg
    ensures k < 27
  {
    if moonDeg >= 343.2 then 26 else (moonDeg / 13.2).Floor
  }

  /** The table is evenly spaced, 13.2 degrees apart, the last segment starting at 343.2. */
  lemma ThresholdsSpaced()
    ensures Spaced(NakshatraLords)
    ensures Threshold(26) == 343.2
  {
  }

  /** Each third of the table lists its lords in the cycle order. */
  lemma LordsFirstThird()
    ensures forall j :: 0 <= j < 9 ==> NakshatraLords[j].0 == DashaSequence[j]
  {
  }

  lemma LordsSecondThird()
    ensures forall j :: 0 <= j < 9 ==> NakshatraLords[9 + j].0 == DashaSequence[j]
  {
  }

  lemma LordsLastThird()
    ensures forall j :: 0 <= j < 9 ==> NakshatraLords[18 + j].0 == DashaSequence[j]
  {
  }

  /** The table's lords repeat the cycle order three times. */
  lemma LordsCycle()
    ensures |NakshatraLords| == 27
    ensures forall k :: 0 <= k < |NakshatraLords| ==> NakshatraLords[k].0 == DashaSequence[k % 9]
  {
    LordsFirstThird();
    LordsSecondThird();
    LordsLastThird();
    forall k | 0 <= k < 27 ensures NakshatraLords[k].0 == DashaSequence[k % 9] {
      var j := k % 9;
      assert k == j || k == 9 + j || k == 18 + j;
    }
  }

  /**
   * From any iteration whose previous threshold the longitude has reached,
   * the scan ends at the longitude's segment.
   */
  lemma {:induction false} ScanFindsSegment(table: seq<(Planet, real)>, moonDeg: real, i: nat)
    requires Spaced(table) && 1 <= i <= |table|
    requires 0.0 <= moonDeg && table[i - 1].1 <= moonDeg
    ensures ScanFrom(table, moonDeg, i) == table[Segment(moonDeg)].0
    decreases |table| - i
  {
    if i < |table| {
      if moonDeg < table[i].1 {
        assert (i - 1) as real <= moonDeg / 13.2 < i as real;
      } else {
        ScanFindsSegment(table, moonDeg, i + 1);
      }
    }
  }

  /** In an evenly spaced table, segment `Segment(deg)` is the last one starting at or below `deg`. */
  lemma SegmentIsLastAtOrBelow(table: seq<(Planet, real)>, moonDeg: real)
    requires Spaced(table) && 0.0 <= moonDeg
    ensures var k := Segment(moonDeg);
      && table[k].1 <= moonDeg
      && (forall j :: k < j < |table| ==> moonDeg < table[j].1)
      && ScanFrom(table, moonDeg, 0) == table[k].0
  {
    var k := Segment(moonDeg);
    assert k as real <= moonDeg / 13.2;
    assert k < 26 ==> moonDeg / 13.2 < (k + 1) as real;
    ScanFindsSegment(table, moonDeg, 1);
  }

  /**
   * For a non-negative longitude the lookup returns the lord of the last
   * threshold at or below it; a longitude exactly on a threshold belongs to
   * the segment that starts there.
   */
  lemma LastThresholdAtOrBelow(moonDeg: real)
    requires 0.0 <= moonDeg
    ensures var k := Segment(moonDeg);
      && Threshold(k) <= moonDeg
      && (forall j :: k < j < |NakshatraLords| ==> moonDeg < Threshold(j))
      && MoonLord(moonDeg) == NakshatraLords[k].0
  {
    ThresholdsSpaced();
    SegmentIsLastAtOrBelow(NakshatraLords, moonDeg);
  }

  /** The same lookup in closed form: segment `k` is ruled by the `k mod 9`-th planet of the cycle. */
  lemma MoonLordCycles(moonDeg: real)
    requires 0.0 <= moonDeg
    ensures MoonLord(moonDeg) == DashaSequence[Segment(moonDeg) % 9]
  {
    LordsCycle();
    LastThresholdAtOrBelow(moonDeg);
  }

  /**
   * Past the last threshold the scan falls through to Mercury; below 0 it
   * stops at the first entry and index `-1` wraps round to Mercury as well.
   */
  lemma OutOfRangeIsMercury(moonDeg: real)
    requires moonDeg < 0.0 || moonDeg >= 343.2
    ensures MoonLord(moonDeg) == Mercury
  {
    if moonDeg >= 343.2 {
      LastThresholdAtOrBelow(moonDeg);
    }
  }

  /** 39.5 degrees is still in the Sun's segment; the Moon's segment begins at 39.6. */
  lemma BoundaryExamples()
    ensures MoonLord(39.5) == Sun
    ensures MoonLord(39.6) == Moon
    ensures MoonLord(0.0) == Ketu
  {
    LordsCycle();
    LastThresholdAtOrBelow(39.5);
    LastThresholdAtOrBelow(39.6);
    LastThresholdAtOrBelow(0.0);
  }
}
