/** The current risk snapshot: the first entry of the Kp forecast is taken
    as the current Kp, and the city table is built with it. */
module Snapshot {
  import opened GpsRisk
  import opened RiskTable

  /** One forecast row: its time tag (an opaque instant) and its Kp. */
  datatype ForecastEntry = ForecastEntry(timeTag: int, kp: real)

  /** `forecast_df.iloc[0]["kp_index"]`: the Kp of the first forecast row.
      `iloc[0]` fails on an empty forecast, so the forecast must have a row. */
  function CurrentKp(forecast: seq<ForecastEntry>): (kp: real)
    requires |forecast| > 0
    ensures kp == forecast[0].kp
    ensures exists e :: e in forecast && e.kp == kp
  {
    forecast[0].kp
  }

  /** The current snapshot of the dashboard: read the current Kp off the
      first forecast row and build the risk table with it. Every row keeps its city and is rated by the
      first row's Kp and its own latitude. */
  method CurrentSnapshot(forecast: seq<ForecastEntry>, cities: seq<City>)
    returns (latestKp: real, table: seq<RatedCity>)
    requires |forecast| > 0
    ensures latestKp == forecast[0].kp
    ensures table == Table(latestKp, cities)
    ensures Cities(table) == cities
    ensures forall i :: 0 <= i < |table| ==> table[i].risk == Classify(forecast[0].kp, cities[i].latitude)
  {
    latestKp := CurrentKp(forecast);
    table := BuildTable(latestKp, cities);
    TableKeepsCities(latestKp, cities);
    TableAt(latestKp, cities);
  }

  /** Only the first forecast row matters: appending further forecast rows
      changes neither the current Kp nor the current table. */
  lemma SnapshotIgnoresLaterEntries(f: seq<ForecastEntry>, later: seq<ForecastEntry>, cities: seq<City>)
    requires |f| > 0
    ensures CurrentKp(f + later) == CurrentKp(f)
    ensures Table(CurrentKp(f + later), cities) == Table(CurrentKp(f), cities)
  {
  }

  /** A higher first-row Kp never lowers any city's current category. */
  lemma SnapshotMonotoneInKp(f: seq<ForecastEntry>, g: seq<ForecastEntry>, cities: seq<City>, i: int)
    requires |f| > 0 && |g| > 0 && CurrentKp(f) <= CurrentKp(g)
    requires 0 <= i < |cities| && cities[i].latitude.Some?
    ensures |Table(CurrentKp(f), cities)| == |cities| == |Table(CurrentKp(g), cities)|
    ensures Table(CurrentKp(f), cities)[i].risk.IsLabel()
    ensures Table(CurrentKp(g), cities)[i].risk.IsLabel()
    ensures Table(CurrentKp(f), cities)[i].risk.Rank() <= Table(CurrentKp(g), cities)[i].risk.Rank()
  {
    TableAt(CurrentKp(f), cities);
    TableAt(CurrentKp(g), cities);
    ClassifyMonotoneInKp(CurrentKp(f), CurrentKp(g), cities[i].latitude.value);
  }
}
