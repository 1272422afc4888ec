/**
 * The antardasha sequence: one mahadasha split into nine sub-periods, always
 * in the cycle order starting at Ketu, each lasting its planet's share of
 * 120 years of the mahadasha's duration, truncated to whole days. Dates are
 * day offsets from 1 January of the mahadasha's start year.
 */
module Antardasha {
  import opened Periods
  import opened DashaTables

  /**
   * The sub-planet's share of 120 years, times the mahadasha's duration in
   * years, times 365.25 days, truncated to whole days. Since 365.25 is
   * 1461/4 this is `years * duration * 1461 / 480` in natural-number
   * division.
   */
  function SubPeriodDays(sub: Planet, duration: nat): (days: nat)
    ensures 480 * days <= Years(sub) * duration * 1461 < 480 * days + 480
    ensures days as real <= (Years(sub) as real / 120.0) * duration as real * 365.25 < days as real + 1.0
  {
    Years(sub) * duration * 1461 / 480
  }

  /** The lengths in days of the sub-periods of `order` within a mahadasha of `duration` years. */
  function DaysOf(order: seq<Planet>, duration: nat): (ds: seq<int>)
    ensures |ds| == |order| && forall i :: 0 <= i < |order| ==> ds[i] == SubPeriodDays(order[i], duration)
  {
    seq(|order|, i requires 0 <= i < |order| => SubPeriodDays(order[i], duration))
  }

  /** The reference table: the cycle order from Ketu, each sub-period laid after the previous one from day 0. */
  function Antardashas(lord: Planet): (a: seq<Period<Planet>>)
  {
    Layout(0, DashaSequence, DaysOf(DashaSequence, Years(lord)))
  }

  /**
   * `calculate_antardashas`: look up the mahadasha's duration (a lord that
   * is not a key of `DASHA_YEARS`, the "Unknown" sentinel, raises
   * `KeyError`), then append one sub-period per planet of the cycle order,
   * each starting where the previous one ended.
   */
  method CalculateAntardashas(mahadashaLord: Ruler, startYear: int) returns (r: Outcome<seq<Period<Planet>>>)
    ensures mahadashaLord.Unknown? ==> r == KeyError(Unknown)
    ensures mahadashaLord.Known? ==> r == Ok(Antardashas(mahadashaLord.planet))
  {
    if mahadashaLord.Unknown? {
      return KeyError(mahadashaLord);
    }
    var duration := Years(mahadashaLord.planet);
    ghost var days := DaysOf(DashaSequence, duration);
    var antardashaList := [];
    var currentStart := 0;
    for i := 0 to |DashaSequence|
      invariant currentStart == Sum(days[..i])
      invariant antardashaList == Layout(0, DashaSequence[..i], days[..i])
    {
      var subLord := DashaSequence[i];
      var subDurationDays := SubPeriodDays(subLord, duration);
      var endDate := currentStart + subDurationDays;
      LayoutSnoc(0, DashaSequence, days, i);
      SumPrefix(days, i);
      antardashaList := antardashaList + [Period(subLord, currentStart, endDate)];
      currentStart := endDate;
    }
    assert DashaSequence[..|DashaSequence|] == DashaSequence && days[..|DashaSequence|] == days;
    return Ok(antardashaList);
  }

  /**
   * Whatever the mahadasha lord, the sub-periods follow the cycle order from
   * Ketu, start on day 0, are back to back, and each lasts its own
   * truncated share.
   */
  lemma AntardashaContiguous(lord: Planet)
    ensures var a := Antardashas(lord);
      && Contiguous(a)
      && Lords(a) == DashaSequence
      && a[0].lord == Ketu
      && a[0].start == 0
      && a[|a| - 1].end == Sum(DaysOf(DashaSequence, Years(lord)))
      && (forall i :: 0 <= i < |a| ==> a[i].end - a[i].start == SubPeriodDays(a[i].lord, Years(lord)))
  {
    LayoutContiguous(0, DashaSequence, DaysOf(DashaSequence, Years(lord)));
  }

  /**
   * Truncating each share loses less than a day: `480` times the total is at
   * most the exact `years * duration * 1461`, and falls short of it by less
   * than `480` per sub-period.
   */
  lemma TruncationBounds(order: seq<Planet>, duration: nat)
    ensures 480 * Sum(DaysOf(order, duration)) <= Sum(YearsOf(order)) * (duration * 1461)
    ensures order != [] ==> Sum(YearsOf(order)) * (duration * 1461) < 480 * Sum(DaysOf(order, duration)) + 480 * |order|
  {
    var c := duration * 1461;
    var exact := Scale(YearsOf(order), c);
    forall i | 0 <= i < |order|
      ensures 480 * DaysOf(order, duration)[i] <= exact[i] < 480 * DaysOf(order, duration)[i] + 480
    {
      assert exact[i] == Years(order[i]) * duration * 1461;
    }
    FloorSumBounds(DaysOf(order, duration), exact, 480);
    SumScale(YearsOf(order), c);
  }

  /**
   * The sub-periods together last at most the mahadasha's nominal
   * `duration * 365.25` days and fall short of it by less than 9 days:
   * in quarter days, `0 <= 1461 * duration - 4 * total < 36`.
   */
  lemma AntardashaDrift(lord: Planet)
    ensures var a := Antardashas(lord);
      && 4 * a[|a| - 1].end <= 1461 * Years(lord)
      && 1461 * Years(lord) < 4 * a[|a| - 1].end + 36
  {
    AntardashaContiguous(lord);
    TruncationBounds(DashaSequence, Years(lord));
    TotalIs120();
  }

  /**
   * A Moon mahadasha (10 years): Ketu 213 days, Venus 608 days, ..., the
   * nine together 3649 days against a nominal 3652.25.
   */
  lemma MoonAntardashas()
    ensures var a := Antardashas(Moon);
      a[0] == Period(Ketu, 0, 213) && a[1] == Period(Venus, 213, 821) && a[8].end == 3649
  {
    var days := DaysOf(DashaSequence, 10);
    assert days == [213, 608, 182, 304, 213, 547, 487, 578, 517];
    AntardashaContiguous(Moon);
    SumPrefix(days, 0);
    SumPrefix(days, 1);
    SumPrefix(days, 2);
    SumPrefix(days, 3);
    SumPrefix(days, 4);
    SumPrefix(days, 5);
    SumPrefix(days, 6);
    SumPrefix(days, 7);
    SumPrefix(days, 8);
    assert days[..0] == [] && days[..9] == days;
  }
}
