/** The table step of `build_df`: every sampled city is classified with
    the same Kp, the risks are collected in row order, and the list is
    attached to the table as a new `risk` column. */
module RiskTable {
  import opened GpsRisk

  /** One row of the city table as loaded. `name` is the `city` column (the
      catalog's `name` column renamed on loading). `latitude` is `None` when
      the row has no latitude entry (`row.get("latitude", None)`). */
  datatype City = City(
    name: string,
    country: string,
    latitude: Option<real>,
    longitude: Option<real>)

  /** A row after the `risk` column has been attached. */
  datatype RatedCity = RatedCity(city: City, risk: Risk)

  /** The table with the `risk` column dropped again. */
  function Cities(table: seq<RatedCity>): (cities: seq<City>)
    ensures |cities| == |table|
  {
    seq(|table|, i requires 0 <= i < |table| => table[i].city)
  }

  /** The `risk` column of a table. */
  function RiskColumn(table: seq<RatedCity>): (risks: seq<Risk>)
    ensures |risks| == |table|
  {
    seq(|table|, i requires 0 <= i < |table| => table[i].risk)
  }

  /** `cities["risk"] = risks`: the list becomes a column, row by row. Pandas
      refuses a list whose length differs from the table's, hence the
      requires. Attaching is undone by dropping the column, and the column
      read back is the list that was attached. */
  function AttachRisk(cities: seq<City>, risks: seq<Risk>): (table: seq<RatedCity>)
    requires |risks| == |cities|
    ensures Cities(table) == cities
    ensures RiskColumn(table) == risks
  {
    if cities == [] then []
    else [RatedCity(cities[0], risks[0])] + AttachRisk(cities[1..], risks[1..])
  }

  /** Reference definition of the finished table: each row keeps its city
      and gets the classification of its own latitude under the one Kp. */
  function Table(kp: real, cities: seq<City>): seq<RatedCity>
  {
    if cities == [] then []
    else [RatedCity(cities[0], Classify(kp, cities[0].latitude))] + Table(kp, cities[1..])
  }

  /** One rated row per input row, in input order, each rated by
      `gps_risk(kp, its latitude)`. */
  lemma {:induction false} TableAt(kp: real, cities: seq<City>)
    ensures |Table(kp, cities)| == |cities|
    ensures forall i :: 0 <= i < |cities| ==>
      Table(kp, cities)[i] == RatedCity(cities[i], Classify(kp, cities[i].latitude))
  {
    if cities != [] {
      TableAt(kp, cities[1..]);
    }
  }

  /** The step only adds the `risk` column: dropping it gives back the input
      rows, every field of every row unchanged and the row count the same. */
  lemma TableKeepsCities(kp: real, cities: seq<City>)
    ensures Cities(Table(kp, cities)) == cities
  {
    TableAt(kp, cities);
  }

  /** Rows are rated independently and in order: the table of two blocks of
      rows is the two tables one after the other. */
  lemma {:induction false} TableAppend(kp: real, a: seq<City>, b: seq<City>)
    ensures Table(kp, a + b) == Table(kp, a) + Table(kp, b)
  {
    if a == [] {
      assert a + b == b;
    } else {
      assert (a + b)[1..] == a[1..] + b;
      TableAppend(kp, a[1..], b);
    }
  }

  /** A row without a latitude is rated with the sentinel 0, and a row with
      one is rated with one of the four labels. */
  lemma TableMissingLatitude(kp: real, cities: seq<City>, i: int)
    requires 0 <= i < |cities|
    ensures |Table(kp, cities)| == |cities|
    ensures Table(kp, cities)[i].risk == Zero <==> cities[i].latitude.None?
  {
    TableAt(kp, cities);
  }

  /** If the loaded table has no latitude column at all, every row is rated
      with the sentinel 0. */
  lemma NoLatitudeColumn(kp: real, cities: seq<City>)
    requires forall i :: 0 <= i < |cities| ==> cities[i].latitude.None?
    ensures forall r :: r in RiskColumn(Table(kp, cities)) ==> r == Zero
  {
    TableAt(kp, cities);
  }

  /** `build_df(kp_index)` after sampling: the loop over the rows appends one
      classification per row to `risks`, then the list is attached as the
      `risk` column. The sampled rows are the input `cities`. */
  method BuildTable(kp: real, cities: seq<City>) returns (table: seq<RatedCity>)
    ensures table == Table(kp, cities)
  {
    var risks: seq<Risk> := [];
    for i := 0 to |cities|
      invariant |risks| == i
      invariant forall j :: 0 <= j < i ==> risks[j] == Classify(kp, cities[j].latitude)
    {
      risks := risks + [Classify(kp, cities[i].latitude)];
    }
    table := AttachRisk(cities, risks);
    TableAt(kp, cities);
    forall i | 0 <= i < |cities|
      ensures table[i] == Table(kp, cities)[i]
    {
      assert table[i].city == Cities(table)[i];
      assert table[i].risk == RiskColumn(table)[i];
    }
  }
}
