# Geomagnetic GPS-risk classification, modelled in Dafny

This project models the decision logic of the Geomagnetic Energy Risk
Monitoring dashboard (`gps_energy_monitoring.py`):

- `gps_risk(kp_index, latitude)`: a Kp index and a latitude give the score
  `kp * (|lat| / 90)`. The score is placed on four half-open bands: Low below 2,
  Moderate below 4, High below 6, Severe otherwise. A missing latitude returns
  the integer `0` instead of a label.
- the table step of `build_df(kp_index)`: each sampled city is classified
  with the same Kp, in row order. The list of risks is then attached as a
  new `risk` column.
- the current snapshot: the first row of the Kp forecast gives the current
  Kp, and the city table is built with it.

Modules:

- `GpsRisk` (`gps_risk.dfy`) holds the classifier. The result type `Risk` has a
  distinct `Zero` constructor for the integer sentinel, next to the four labels.
  `InBand` is the band table. It serves as the reference definition that the
  if/elif chain `Band` is proved against. The score is computed over `real`.
- `RiskTable` (`risk_table.dfy`) holds `City` rows with an optional latitude.
  `Table` is the reference definition of the rated table. `BuildTable` is the
  loop that appends to `risks`, followed by `AttachRisk`, the column assignment.
- `Snapshot` (`snapshot.dfy`) holds the forecast rows and the selection of the
  first one.

## Model

| member | source | states |
|---|---|---|
| `GpsRisk.Band` | gps_energy_monitoring.py:26-33 | the if/elif chain always yields one of the four labels, and the score lies in that label's half-open band: (-inf,2), [2,4), [4,6), [6,+inf) |
| `GpsRisk.Classify` | gps_energy_monitoring.py:18-33 | the result is the sentinel 0 exactly when the latitude is missing; otherwise it is a label whose band holds `kp * (|lat|/90)` |
| `GpsRisk.MissingLatitudeIsZero` | gps_energy_monitoring.py:23-24 | a missing latitude gives the sentinel 0 for every Kp, and the sentinel is not one of the labels |
| `GpsRisk.BandUnique` | gps_energy_monitoring.py:26-33 | the four bands do not overlap, so a score has one label only |
| `GpsRisk.ClassifyExactlyOneLabel` | gps_energy_monitoring.py:25-33 | for a present latitude, the result equals a label r if and only if the score lies in r's band |
| `GpsRisk.ClassifySymmetric` | gps_energy_monitoring.py:25 | the result does not depend on the sign of the latitude |
| `GpsRisk.BandMonotone` | gps_energy_monitoring.py:26-33 | a larger score never lands in a lower band |
| `GpsRisk.ClassifyMonotoneInKp` | gps_energy_monitoring.py:19-33 | for a fixed latitude, a larger Kp never gives a lower category ("higher Kp = higher risk") |
| `GpsRisk.ClassifyMonotoneInLatitude` | gps_energy_monitoring.py:19-33 | for a fixed Kp, a larger absolute latitude never gives a lower category ("higher latitude = higher risk"); no sign condition on Kp is needed |
| `GpsRisk.EquatorIsLow` | gps_energy_monitoring.py:25-27 | at latitude 0 the result is Low for every finite Kp |
| `GpsRisk.PoleDecidedByKp` | gps_energy_monitoring.py:25-33 | at a pole (|lat| = 90) the score equals the Kp, and the category is the band of the Kp alone |
| `GpsRisk.ThresholdsFallUpward` | gps_energy_monitoring.py:26-33 | a score exactly on 2, 4 or 6 falls into the band above (Moderate, High, Severe), and a score just below stays in the band below |
| `RiskTable.AttachRisk` | gps_energy_monitoring.py:40 | attaching a list as the `risk` column keeps the rows: dropping the column gives back the input rows, and reading the column gives back the list |
| `RiskTable.TableAt` | gps_energy_monitoring.py:37-40 | the table has one row per input row, in input order; row i keeps city i and has risk `gps_risk(kp, lat_i)` |
| `RiskTable.TableKeepsCities` | gps_energy_monitoring.py:40-41 | the step only adds the `risk` column: every field of every row and the row count are unchanged |
| `RiskTable.TableAppend` | gps_energy_monitoring.py:38-39 | rows are rated independently and in order: the table of two blocks of rows is the two tables concatenated |
| `RiskTable.TableMissingLatitude` | gps_energy_monitoring.py:39 | a row's risk is the sentinel 0 if and only if the row has no latitude |
| `RiskTable.NoLatitudeColumn` | gps_energy_monitoring.py:39 | when no row has a latitude entry, every risk in the column is the sentinel 0 |
| `RiskTable.BuildTable` | gps_energy_monitoring.py:35-41 | the loop that appends one risk per row, followed by the column assignment, produces exactly the reference table |
| `Snapshot.CurrentKp` | gps_energy_monitoring.py:83 | the current Kp is the Kp of the first forecast row (`iloc[0]`); a non-empty forecast is required |
| `Snapshot.CurrentSnapshot` | gps_energy_monitoring.py:83-84 | the current Kp is the first forecast row's Kp; the table keeps every city and rates each one with that Kp and its own latitude |
| `Snapshot.SnapshotIgnoresLaterEntries` | gps_energy_monitoring.py:83-84 | appending further forecast rows changes neither the current Kp nor the current table |
| `Snapshot.SnapshotMonotoneInKp` | gps_energy_monitoring.py:83-84 | a higher first-row Kp never lowers the current category of any city that has a latitude |

## Left out

- `load_world_cities` (HTTP CSV download, column renaming, caching) is I/O. The
  loaded table is not modelled; its rows are the input `cities`.
- `.sample(20, random_state=42)` is a pandas random sampling call. The sampled
  rows are the input sequence of `BuildTable`, so any row count is allowed.
- `get_kp_forecast` (NOAA request, JSON and datetime parsing, and the fallback
  of `np.random.randint` values) is network I/O and randomness. Its result is
  the input `forecast` of `CurrentSnapshot`, with time tags as opaque integers.
  The fallback always has ten rows. A NOAA answer with only the header row would
  be empty, and `iloc[0]` would then fail. The model states this as the
  requires `|forecast| > 0`.
- The Streamlit and matplotlib UI (title, chart, map, markdown) is
  presentation. The legend text is prose, and its integer ranges do not match
  the thresholds in `gps_risk`. The model follows the code.
- Floating point: the score is computed in exact `real` arithmetic. A Python
  float score within a rounding error of 2, 4 or 6 may fall into a different
  band. A NaN latitude (a present but empty pandas cell) fails every `<` test
  and would be rated Severe. Neither case is captured, because `real` has no NaN.
- A non-finite Kp is not modelled either: the Kp is a `real`, which is always
  finite. `astype(float)` turns a null Kp into NaN. A NaN Kp makes every score
  NaN, every `<` test fails, and every row with a latitude is rated Severe. An
  infinite Kp makes the score NaN at the equator (`inf * 0.0`), so the equator
  is rated Severe too. `GpsRisk.EquatorIsLow`, `GpsRisk.PoleDecidedByKp`, the
  band lemmas and the monotonicity lemmas hold for finite Kp values only.
- Table columns other than city, country, latitude and longitude are not
  modelled. The rating copies each row whole, so extra columns would be kept
  unchanged in the same way.
