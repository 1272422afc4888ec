/**
 * The constant tables of the Vimshottari dasha system: the nine planets, the
 * number of years each one rules, their fixed cyclic order, the 27 nakshatra
 * thresholds and the canned predictions, with the facts the calculations
 * rely on (every planet has an entry, the durations add up to 120 years).
 */
module DashaTables {
  import opened Periods

  /** The nine grahas of the Vimshottari cycle. */
  datatype Planet = Ketu | Venus | Sun | Moon | Mars | Rahu | Jupiter | Saturn | Mercury

  /**
   * The lord a period is labelled with. The current-period selection labels
   * its "nothing matched" sentinel with the name "Unknown", which is not a
   * key of any table.
   */
  datatype Ruler = Known(planet: Planet) | Unknown

  /** What a failed dictionary lookup raises: the key that was missing. */
  datatype Outcome<T> = Ok(value: T) | KeyError(key: Ruler)

  /** Career, love and health texts for one planet. */
  datatype Prediction = Prediction(career: string, love: string, health: string)

  /** Years each planet rules in the 120-year cycle. */
  const DashaYears: map<Planet, nat> :=
    map[Ketu := 7, Venus := 20, Sun := 6, Moon := 10, Mars := 7,
        Rahu := 18, Jupiter := 16, Saturn := 19, Mercury := 17]

  /** The fixed cyclic order of the periods. */
  const DashaSequence: seq<Planet> :=
    [Ketu, Venus, Sun, Moon, Mars, Rahu, Jupiter, Saturn, Mercury]

  /** The 27 (lord, starting longitude in degrees) pairs, 13.2 degrees apart. */
  const NakshatraLords: seq<(Planet, real)> :=
    [ (Ketu, 0.0), (Venus, 13.2), (Sun, 26.4), (Moon, 39.6),
      (Mars, 52.8), (Rahu, 66.0), (Jupiter, 79.2),
      (Saturn, 92.4), (Mercury, 105.6), (Ketu, 118.8),
      (Venus, 132.0), (Sun, 145.2), (Moon, 158.4),
      (Mars, 171.6), (Rahu, 184.8), (Jupiter, 198.0),
      (Saturn, 211.2), (Mercury, 224.4), (Ketu, 237.6),
      (Venus, 250.8), (Sun, 264.0), (Moon, 277.2),
      (Mars, 290.4), (Rahu, 303.6), (Jupiter, 316.8),
      (Saturn, 330.0), (Mercury, 343.2) ]

  const DashaPredictions: map<Planet, Prediction> :=
    map[
      Sun := Prediction("Leadership in career", "Clarity in love", "Watch your blood pressure"),
      Moon := Prediction("Creative career choices", "Emotional bonding", "Good emotional health"),
      Mars := Prediction("Action-oriented projects", "Conflicts possible", "Injury-prone period"),
      Mercury := Prediction("Learning and growth", "Smart communication", "Mental rest needed"),
      Jupiter := Prediction("Expansion & blessings", "Marriage potential", "Spiritual wellness"),
      Venus := Prediction("Career in arts/beauty", "Strong love life", "Reproductive health"),
      Saturn := Prediction("Slow but steady success", "Karmic love lessons", "Bone & joint care"),
      Rahu := Prediction("Sudden career rise", "Unconventional romance", "Mental health focus"),
      Ketu := Prediction("Letting go phase", "Detached from love", "Spiritual health focus")
    ]

  /** The texts used when there is no current period or no table entry. */
  const GenericPrediction: Prediction :=
    Prediction("Balanced career", "Steady love life", "Normal health")

  /**
   * The duration lookup in `DashaYears`, written out by cases; `YearsAgreesWithTable`
   * shows it returns the dictionary's entry.
   */
  function Years(p: Planet): (y: nat)
    ensures 6 <= y <= 20
  {
    match p
    case Ketu => 7
    case Venus => 20
    case Sun => 6
    case Moon => 10
    case Mars => 7
    case Rahu => 18
    case Jupiter => 16
    case Saturn => 19
    case Mercury => 17
  }

  /** Every planet is in the cycle and is a key of both dictionaries. */
  lemma PlanetInTables(p: Planet)
    ensures p in DashaSequence && p in DashaYears && p in DashaPredictions
  {
    match p
    case Ketu =>
    case Venus =>
    case Sun =>
    case Moon =>
    case Mars =>
    case Rahu =>
    case Jupiter =>
    case Saturn =>
    case Mercury =>
  }

  /** The durations of the planets in `s`, in order. */
  function YearsOf(s: seq<Planet>): (ys: seq<int>)
    ensures |ys| == |s| && forall i :: 0 <= i < |s| ==> ys[i] == Years(s[i])
  {
    seq(|s|, i requires 0 <= i < |s| => Years(s[i]))
  }

  /**
   * The total of the durations in `DashaYears`, summed over the cycle
   * order: the dictionary's keys are exactly the planets of the cycle,
   * each once.
   */
  const TotalDashaYears: int := Sum(YearsOf(DashaSequence))

  /** The position of `p` in the cycle order, found as `list.index` finds it. */
  function IndexOf(p: Planet): (i: nat)
    ensures i < |DashaSequence| && DashaSequence[i] == p
  {
    PlanetInTables(p);
    IndexFrom(p, 0)
  }

  /** The scan of `list.index`, from position `k` on. */
  function IndexFrom(p: Planet, k: nat): (i: nat)
    requires k <= |DashaSequence| && p in DashaSequence[k..]
    requires forall j :: 0 <= j < k ==> DashaSequence[j] != p
    ensures k <= i < |DashaSequence| && DashaSequence[i] == p
    ensures forall j :: 0 <= j < i ==> DashaSequence[j] != p
    decreases |DashaSequence| - k
  {
    if DashaSequence[k] == p then k
    else
      assert DashaSequence[k..] == [DashaSequence[k]] + DashaSequence[k + 1..];
      IndexFrom(p, k + 1)
  }

  /** Every planet is a key of `DASHA_YEARS` and `Years` returns its entry, so the lookup never raises. */
  lemma YearsAgreesWithTable(p: Planet)
    ensures p in DashaYears && DashaYears[p] == Years(p)
  {
    match p
    case Ketu =>
    case Venus =>
    case Sun =>
    case Moon =>
    case Mars =>
    case Rahu =>
    case Jupiter =>
    case Saturn =>
    case Mercury =>
  }

  /** The tables agree: the cycle lists each planet once, and both dictionaries have every planet as a key. */
  lemma TablesComplete()
    ensures |DashaSequence| == 9
    ensures forall i, j :: 0 <= i < j < |DashaSequence| ==> DashaSequence[i] != DashaSequence[j]
    ensures forall p: Planet :: p in DashaSequence && p in DashaYears && p in DashaPredictions
    ensures DashaYears.Keys == set p | p in DashaSequence
  {
    forall p: Planet ensures p in DashaSequence && p in DashaYears && p in DashaPredictions {
      PlanetInTables(p);
    }
  }

  /** The cycle lists each planet once, so `IndexOf` gives the only position holding `p`. */
  lemma IndexOfUnique(p: Planet, j: nat)
    requires j < |DashaSequence| && DashaSequence[j] == p
    ensures j == IndexOf(p)
  {
    TablesComplete();
  }

  /** The cycle length: the nine durations add up to 120 years. */
  lemma TotalIs120()
    ensures TotalDashaYears == 120
  {
    var ys := YearsOf(DashaSequence);
    assert ys == [7, 20, 6, 10, 7, 18, 16, 19, 17];
    SumPrefix(ys, 0);
    SumPrefix(ys, 1);
    SumPrefix(ys, 2);
    SumPrefix(ys, 3);
    SumPrefix(ys, 4);
    SumPrefix(ys, 5);
    SumPrefix(ys, 6);
    SumPrefix(ys, 7);
    SumPrefix(ys, 8);
    assert ys[..0] == [] && ys[..9] == ys;
  }
}
