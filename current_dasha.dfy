/**
 * Picking the mahadasha that holds a reference year, and its predictions.
 * The reference year is a parameter: the program reads it from the clock.
 */
module CurrentDasha {
  import opened Periods
  import opened DashaTables
  import opened Mahadasha
  import opened Antardasha

  /** Position of the first period covering `year`, or `|ps|` when none does. */
  function FirstCover(ps: seq<Period<Planet>>, year: int): (k: nat)
    ensures k <= |ps|
    ensures k < |ps| ==> Covers(ps[k], year)
    ensures forall j :: 0 <= j < k ==> !Covers(ps[j], year)
  {
    if ps == [] then 0
    else if Covers(ps[0], year) then 0
    else 1 + FirstCover(ps[1..], year)
  }

  /** The first period, in list order, whose closed range of years holds `year`; `None` when there is none. */
  function FindCurrent(ps: seq<Period<Planet>>, year: int): (found: Option<Period<Planet>>)
    ensures found.None? <==> forall i :: 0 <= i < |ps| ==> !Covers(ps[i], year)
    ensures found.Some? ==>
      (exists k :: 0 <= k < |ps| && found.value == ps[k] && Covers(ps[k], year)
                   && forall j :: 0 <= j < k ==> !Covers(ps[j], year))
  {
    var k := FirstCover(ps, year);
    if k < |ps| then Some(ps[k]) else None
  }

  /** No planet's canned predictions coincide with the fallback texts, and every planet has an entry. */
  lemma PredictionsAreSpecific()
    ensures forall p: Planet :: p in DashaPredictions && DashaPredictions[p] != GenericPrediction
  {
    forall p: Planet ensures p in DashaPredictions && DashaPredictions[p] != GenericPrediction {
      PlanetInTables(p);
      assert DashaPredictions[p].career != GenericPrediction.career;
    }
  }

  /**
   * The prediction lookup with a fallback: a planet gets its own entry,
   * which always differs from the fallback; the sentinel "Unknown" is not a
   * key and gets the fallback.
   */
  function PredictionFor(lord: Ruler): (p: Prediction)
    ensures p == GenericPrediction <==> lord.Unknown?
    ensures lord.Known? ==> lord.planet in DashaPredictions && p == DashaPredictions[lord.planet]
  {
    PredictionsAreSpecific();
    if lord.Known? && lord.planet in DashaPredictions then DashaPredictions[lord.planet]
    else GenericPrediction
  }

  /**
   * The current mahadasha and its predictions: the first period covering
   * the year with its planet's predictions, or else the sentinel
   * `("Unknown", year, year)` with the fallback texts.
   */
  function CurrentPeriod(ps: seq<Period<Planet>>, year: int): (r: (Period<Ruler>, Prediction))
    ensures r.0.lord.Unknown? <==> forall i :: 0 <= i < |ps| ==> !Covers(ps[i], year)
    ensures r.0.lord.Unknown? ==> r.0 == Period(Unknown, year, year) && r.1 == GenericPrediction
    ensures r.0.lord.Known? ==>
      && Covers(r.0, year)
      && (exists k :: 0 <= k < |ps| && ps[k] == Period(r.0.lord.planet, r.0.start, r.0.end)
                      && forall j :: 0 <= j < k ==> !Covers(ps[j], year))
      && r.0.lord.planet in DashaPredictions && r.1 == DashaPredictions[r.0.lord.planet] && r.1 != GenericPrediction
  {
    match FindCurrent(ps, year)
    case Some(d) => (Period(Known(d.lord), d.start, d.end), PredictionFor(Known(d.lord)))
    case None => (Period(Unknown, year, year), GenericPrediction)
  }

  /** Two periods sharing the boundary year 2010: the earlier one, Moon, is picked. */
  lemma SharedBoundaryExample()
    ensures CurrentPeriod([Period(Moon, 2000, 2010), Period(Mars, 2010, 2017)], 2010).0 == Period(Known(Moon), 2000, 2010)
  {
  }

  /** Within one timeline each period ends no later than any later one starts. */
  lemma MahadashaOrdered(birthYear: int, lord: Planet, j: nat, i: nat)
    requires j < i < 9
    ensures var ds := Mahadashas(birthYear, lord); ds[j].end <= ds[i].start
  {
    var order := Rotate(DashaSequence, IndexOf(lord));
    var ys := YearsOf(order);
    SumPrefixBelowWhole(ys[..i], j + 1);
    assert ys[..i][..j + 1] == ys[..j + 1];
    SumPrefix(ys, j);
  }

  /**
   * On the boundary year between mahadashas `i` and `i + 1`, both cover the
   * year and the earlier one is picked.
   */
  lemma BoundaryYearGoesToEarlier(birthYear: int, lord: Planet, i: nat)
    requires i < 8
    ensures var ds := Mahadashas(birthYear, lord);
      Covers(ds[i + 1], ds[i].end) && FindCurrent(ds, ds[i].end) == Some(ds[i])
  {
    var ds := Mahadashas(birthYear, lord);
    MahadashaContiguous(birthYear, lord);
    forall j | 0 <= j < i ensures !Covers(ds[j], ds[i].end) {
      MahadashaOrdered(birthYear, lord, j, i);
    }
    var k := FirstCover(ds, ds[i].end);
    assert k == i;
  }

  /**
   * A year has a current mahadasha exactly when it lies in the 120 years
   * from the birth year; otherwise the "Unknown" sentinel comes back.
   */
  lemma CurrentWithinCycle(birthYear: int, lord: Planet, year: int)
    ensures CurrentPeriod(Mahadashas(birthYear, lord), year).0.lord.Known?
      <==> birthYear <= year <= birthYear + 120
  {
    var ds := Mahadashas(birthYear, lord);
    MahadashaContiguous(birthYear, lord);
    if birthYear <= year <= birthYear + 120 {
      ContiguousCovers(ds, year);
    } else {
      forall i | 0 <= i < |ds| ensures !Covers(ds[i], year) {
        if i > 0 { MahadashaOrdered(birthYear, lord, 0, i); }
        if i < 8 { MahadashaOrdered(birthYear, lord, i, 8); }
      }
    }
  }

  /**
   * The script's last step: the antardashas of the current mahadasha,
   * starting in its start year. When no period covers the year, the
   * sentinel's lord "Unknown" raises `KeyError`.
   */
  method CurrentAntardashas(ps: seq<Period<Planet>>, year: int) returns (r: Outcome<seq<Period<Planet>>>)
    ensures r.KeyError? <==> forall i :: 0 <= i < |ps| ==> !Covers(ps[i], year)
    ensures r.KeyError? ==> r.key == Unknown
    ensures r.Ok? ==>
      (exists k :: 0 <= k < |ps| && Covers(ps[k], year) && r.value == Antardashas(ps[k].lord)
                   && forall j :: 0 <= j < k ==> !Covers(ps[j], year))
  {
    var current := CurrentPeriod(ps, year);
    r := CalculateAntardashas(current.0.lord, current.0.start);
  }
}
