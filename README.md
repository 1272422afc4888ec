# Vimshottari dasha calculator, modelled in Dafny

The program computes a Vimshottari dasha timeline from a Moon longitude and
a birth year. The nakshatra (one of 27 segments of the zodiac) that the
Moon occupies names a ruling planet. From the birth year, the nine
mahadashas (major periods) follow in a fixed cyclic order that starts at
that planet, each lasting its fixed number of years, 120 years in all. A
mahadasha divides into nine antardashas (sub-periods), always in the cycle
order from Ketu, each lasting the sub-planet's share of the mahadasha,
truncated to whole days. The program then picks the mahadasha that holds
the current year and looks up canned career, love and health predictions
for it, falling back to generic texts.

The model has six modules:

- `Periods` (`periods.dfy`): periods laid end to end from a list of lords
  and spans (`Layout`), and facts about sums of spans.
- `DashaTables` (`dasha_tables.dfy`): the planets and the constant tables,
  with `Years` (the duration lookup) and `IndexOf` (`list.index`).
- `Nakshatra` (`nakshatra.dfy`): `get_moon_lord` as the recursive scan
  `MoonLord` and `ScanFrom`.
- `Mahadasha` (`mahadasha.dfy`): `calculate_dasha_start` as the method
  `CalculateDashaStart` with its loop, proved equal to the reference
  timeline `Mahadashas`.
- `Antardasha` (`antardasha.dfy`): `calculate_antardashas` as the method
  `CalculateAntardashas` with its loop, proved equal to `Antardashas`.
- `CurrentDasha` (`current_dasha.dfy`): the current-period selection, the
  prediction fallback, and the final antardasha call.

Modelling choices:

- Longitudes are Dafny `real`, so the table's thresholds (0.0, 13.2, …,
  343.2) are exact; the segments are 13.2 degrees wide, as the table says,
  not 13°20'.
- `365.25 = 1461/4`, so a sub-period lasts `years * duration * 1461 / 480`
  days, rounded down, computed exactly.
- Antardasha dates are day offsets from 1 January of the mahadasha's start
  year; `startYear` is therefore passed but not used.
- `round` is the identity on the integer years of the mahadasha loop.
- The sentinel lord `"Unknown"` is `Ruler.Unknown`; a failing dictionary
  lookup is `Outcome.KeyError`.
- `Years` is written by cases; `YearsAgreesWithTable` proves it returns the
  `DASHA_YEARS` entry. `TotalDashaYears` sums the durations in cycle order;
  `TablesComplete` proves the dictionary's keys are exactly the planets of
  the cycle, each once, so this is the sum of the dictionary's values.

What the code does at the boundaries:

- The scan uses a strict `<`, so a longitude exactly on a threshold belongs
  to the segment that starts there: 39.5 gives Sun and 39.6 gives Moon.
- On a year shared by two mahadashas, the first in list order wins: year
  2010 gives Moon for `[(Moon, 2000, 2010), (Mars, 2010, 2017)]`.

## Model

| member | source | states |
|---|---|---|
| DashaTables.Years | Dasha_streamlit_st.py:5-8 | every planet rules between 6 and 20 years |
| DashaTables.YearsAgreesWithTable | Dasha_streamlit_st.py:5-8 | every planet is a key of `DASHA_YEARS`, so the lookup never raises, and `Years` returns its entry |
| DashaTables.PlanetInTables | Dasha_streamlit_st.py:5-34 | each planet is in `DASHA_SEQUENCE` and is a key of both `DASHA_YEARS` and `DASHA_PREDICTIONS` |
| DashaTables.TablesComplete | Dasha_streamlit_st.py:5-34 | the cycle has 9 distinct planets; every planet has a duration and a prediction entry; the duration keys are exactly the cycle's planets |
| DashaTables.TotalIs120 | Dasha_streamlit_st.py:10 | `TOTAL_DASHA_YEARS` is 120 |
| DashaTables.IndexOf | Dasha_streamlit_st.py:44 | `DASHA_SEQUENCE.index(p)` is a position in the cycle that holds `p` |
| DashaTables.IndexFrom | Dasha_streamlit_st.py:44 | the scan of `list.index` returns the first position holding `p` |
| DashaTables.IndexOfUnique | Dasha_streamlit_st.py:44 | the position holding `p` is unique, so `index` returns it |
| Nakshatra.ThresholdsSpaced | Dasha_streamlit_st.py:12-22 | the 27 thresholds are `13.2 * k` and the last is 343.2 |
| Nakshatra.LordsCycle | Dasha_streamlit_st.py:12-22 | entry `k` of the table is ruled by the `(k mod 9)`-th planet of the cycle |
| Nakshatra.MoonLord | Dasha_streamlit_st.py:36-40 | `get_moon_lord` as the scan below from the first entry: a non-negative longitude gets the lord of its segment (capped at the last), and a negative longitude or one at or past 343.2 gets Mercury; `LastThresholdAtOrBelow`, `MoonLordCycles` and `OutOfRangeIsMercury` state the same in other terms |
| Nakshatra.ScanFrom | Dasha_streamlit_st.py:37-40 | the loop with strict `<`: at the first threshold the longitude is below, the lord of the previous entry, found through Python's negative index so that `i - 1 = -1` is the last entry; past the end, the last entry's lord; either way the lord of some entry of the table |
| Nakshatra.LastThresholdAtOrBelow | Dasha_streamlit_st.py:36-40 | for a non-negative longitude the lookup returns the lord of the last threshold at or below it; all later thresholds are above it |
| Nakshatra.MoonLordCycles | Dasha_streamlit_st.py:36-40 | for a non-negative longitude, the lookup equals `DASHA_SEQUENCE[floor(deg / 13.2) mod 9]`, with the segment capped at 26 (a negative longitude gets Mercury instead, see `OutOfRangeIsMercury`) |
| Nakshatra.OutOfRangeIsMercury | Dasha_streamlit_st.py:37-40 | at or past 343.2 degrees the scan falls through to Mercury; below 0 the index `-1` wraps to Mercury too |
| Nakshatra.BoundaryExamples | Dasha_streamlit_st.py:36-40 | 39.5 gives Sun, 39.6 gives Moon, 0.0 gives Ketu |
| Mahadasha.CalculateDashaStart | Dasha_streamlit_st.py:42-53 | the loop's list is the cycle turned to start at the Moon's lord, laid out year by year from the birth year |
| Mahadasha.MahadashaOrder | Dasha_streamlit_st.py:43-51 | nine entries; entry `i` is ruled by `DASHA_SEQUENCE[(idx + i) mod 9]`; the first is the Moon's lord; the lords are distinct, every planet occurs, and they are a permutation of the cycle |
| Mahadasha.MahadashaContiguous | Dasha_streamlit_st.py:45-52 | entries are back to back, the first starts at the birth year, the last ends at birth year + 120, and each spans its planet's years |
| Mahadasha.MoonBornIn2000 | Dasha_streamlit_st.py:42-53 | born in 2000 under the Moon: (Moon, 2000, 2010), (Mars, 2010, 2017), …, ending in 2120 |
| Antardasha.SubPeriodDays | Dasha_streamlit_st.py:62-63 | the sub-period length is the exact share `years / 120 * duration * 365.25` days rounded down, stated both in reals and as `years * duration * 1461 / 480` |
| Antardasha.CalculateAntardashas | Dasha_streamlit_st.py:55-68 | the lord "Unknown" raises `KeyError`; a planet gives the cycle order from Ketu, laid out day by day from day 0 |
| Antardasha.AntardashaContiguous | Dasha_streamlit_st.py:58-66 | for every lord the sub-periods follow the cycle order from Ketu, start on day 0, are back to back, and each lasts its own truncated share |
| Antardasha.TruncationBounds | Dasha_streamlit_st.py:62-63 | summing truncated shares loses less than one day per sub-period and never gains |
| Antardasha.AntardashaDrift | Dasha_streamlit_st.py:61-66 | the sub-periods together last at most `duration * 365.25` days and less than 9 days fewer |
| Antardasha.MoonAntardashas | Dasha_streamlit_st.py:55-68 | a Moon mahadasha: Ketu days 0-213, Venus 213-821, the last ending on day 3649 |
| CurrentDasha.FirstCover | Dasha_streamlit_st.py:108 | the first position whose period holds the year, or the list's length when none does |
| CurrentDasha.FindCurrent | Dasha_streamlit_st.py:108 | `next(..., None)` is `None` exactly when no period holds the year, and otherwise the first period in list order that holds it |
| CurrentDasha.PredictionsAreSpecific | Dasha_streamlit_st.py:24-34 | every planet has a prediction entry and none equals the fallback texts |
| CurrentDasha.PredictionFor | Dasha_streamlit_st.py:110 | `.get` with the fallback: a planet gets its own entry, which is never the fallback; "Unknown" gets the fallback |
| CurrentDasha.CurrentPeriod | Dasha_streamlit_st.py:108-113 | the sentinel `("Unknown", year, year)` with the fallback texts exactly when no period holds the year; otherwise the first period holding it, with its planet's predictions |
| CurrentDasha.SharedBoundaryExample | Dasha_streamlit_st.py:108 | year 2010 in `[(Moon, 2000, 2010), (Mars, 2010, 2017)]` gives Moon |
| CurrentDasha.MahadashaOrdered | Dasha_streamlit_st.py:45-52 | each mahadasha ends no later than any later one starts |
| CurrentDasha.BoundaryYearGoesToEarlier | Dasha_streamlit_st.py:108 | the year on which a mahadasha ends is also held by the next one, and the earlier one is picked |
| CurrentDasha.CurrentWithinCycle | Dasha_streamlit_st.py:107-113 | a year has a current mahadasha exactly when it lies between the birth year and birth year + 120 |
| CurrentDasha.CurrentAntardashas | Dasha_streamlit_st.py:126 | the antardasha call raises `KeyError` on "Unknown" exactly when no period holds the year; otherwise it returns the antardashas of the first period, in list order, holding the year |

## Left out

- Ephemeris computation (lines 1 and 89-98): a call into an astronomy library that loads a DE421 data file. The Moon longitude is an input. When that computation fails, the program uses 0.0 (lines 99-101), which is just one input value here; `BoundaryExamples` shows it gives Ketu.
- Console input and its retry loops (lines 71-87), and all printing (lines 116-128): console I/O.
- The clock (line 107): the reference year is a parameter.
- Calendar arithmetic with `datetime`, `timedelta` and `.date()` (lines 58-65): antardasha dates are day offsets from 1 January of the start year, not calendar dates.
- Floating point: thresholds and 365.25 are exact here. IEEE-754 rounding could put a longitude that lies on a threshold, or a day count that is exactly an integer, on the other side of the boundary.
- The use of `dob` after a failed parse (line 105): it raises `NameError` at script level, outside the calculation.
- Antardasha.CalculateAntardashas: `startYear` is not used. It sets the calendar origin (line 58), which day offsets do not need. It also drives two error paths the model does not have: building 1 January of a year outside 1 to 9999 raises `ValueError` (line 58), and adding days past 31 December 9999 raises `OverflowError` (line 64), for instance for a Venus mahadasha starting in 9990. The call on line 126 cannot reach either: the start year it passes lies between the birth year, which is at least 1, and the current year.
