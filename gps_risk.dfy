/** The GPS-risk classifier: a geomagnetic Kp index and a city's latitude
    are combined into a score, and the score is placed on one of four
    half-open bands. A missing latitude short-circuits to the integer 0,
    which is not one of the four labels. */
module GpsRisk {

  /** A value that may be absent, as Python's `None` is. */
  datatype Option<T> = None | Some(value: T)

  /** What the classifier returns. `Zero` stands for the plain integer 0
      returned for a missing latitude; the other four are the string labels. */
  datatype Risk = Zero | Low | Moderate | High | Severe {

    /** One of the four string labels (anything but the integer sentinel). */
    predicate IsLabel() {
      !Zero?
    }

    /** Position of a label on the scale Low < Moderate < High < Severe. */
    function Rank(): (n: nat)
      requires IsLabel()
      ensures n <= 3
    {
      match this
      case Low => 0
      case Moderate => 1
      case High => 2
      case Severe => 3
    }
  }

  /** The band table: Low is (-inf, 2), Moderate [2, 4), High [4, 6) and
      Severe [6, +inf). The integer sentinel belongs to no band. */
  predicate InBand(r: Risk, score: real) {
    match r
    case Zero => false
    case Low => score < 2.0
    case Moderate => 2.0 <= score < 4.0
    case High => 4.0 <= score < 6.0
    case Severe => 6.0 <= score
  }

  function Abs(x: real): real {
    if x < 0.0 then -x else x
  }

  /** `kp * (|lat| / 90)`: the Kp index weighted by the latitude's share of
      the way from the equator to a pole. */
  function Score(kp: real, lat: real): real {
    kp * (Abs(lat) / 90.0)
  }

  /** The if/elif chain on the score, each test a strict `<`, so a score
      equal to a threshold falls into the band above it. */
  function Band(score: real): (r: Risk)
    ensures r.IsLabel() && InBand(r, score)
  {
    if score < 2.0 then Low
    else if score < 4.0 then Moderate
    else if score < 6.0 then High
    else Severe
  }

  /** `gps_risk(kp_index, latitude)`: the sentinel for a missing latitude,
      otherwise the band of the score. */
  function Classify(kp: real, latitude: Option<real>): (r: Risk)
    ensures latitude.None? <==> r == Zero
    ensures latitude.Some? ==> r.IsLabel() && InBand(r, Score(kp, latitude.value))
  {
    match latitude
    case None => Zero
    case Some(lat) => Band(Score(kp, lat))
  }

  /** A missing latitude gives the sentinel whatever the Kp, and never a label. */
  lemma MissingLatitudeIsZero(kp: real)
    ensures Classify(kp, None) == Zero && !Classify(kp, None).IsLabel()
  {
  }

  /** The bands do not overlap, so a score has exactly one label. */
  lemma BandUnique(a: Risk, b: Risk, score: real)
    requires InBand(a, score) && InBand(b, score)
    ensures a == b
  {
  }

  /** For a present latitude the result is the one label whose band holds
      the score. */
  lemma ClassifyExactlyOneLabel(kp: real, lat: real, r: Risk)
    ensures Classify(kp, Some(lat)) == r <==> InBand(r, Score(kp, lat))
  {
    var c := Classify(kp, Some(lat));
    if InBand(r, Score(kp, lat)) {
      BandUnique(c, r, Score(kp, lat));
    }
  }

  /** Only the magnitude of the latitude matters: the southern hemisphere
      is rated as the northern one. */
  lemma ClassifySymmetric(kp: real, lat: real)
    ensures Classify(kp, Some(lat)) == Classify(kp, Some(-lat))
  {
    assert Abs(-lat) == Abs(lat);
  }

  /** A larger score never lands in a lower band. */
  lemma BandMonotone(s1: real, s2: real)
    requires s1 <= s2
    ensures Band(s1).Rank() <= Band(s2).Rank()
  {
  }

  /** The latitude weight `|lat| / 90` is never negative. */
  lemma WeightNonNegative(lat: real)
    ensures Abs(lat) / 90.0 >= 0.0
  {
  }

  /** Scaling by a non-negative factor keeps the order of two reals. */
  lemma ScaleMonotone(a: real, b: real, w: real)
    requires a <= b && 0.0 <= w
    ensures a * w <= b * w && w * a <= w * b
  {
    assert b * w - a * w == (b - a) * w;
  }

  /** A non-positive real times a non-negative one is not positive. */
  lemma ScaleNonPositive(k: real, w: real)
    requires k <= 0.0 <= w
    ensures k * w <= 0.0
  {
    ScaleMonotone(k, 0.0, w);
  }

  /** For a fixed latitude, a larger Kp never gives a lower category. */
  lemma ClassifyMonotoneInKp(kp1: real, kp2: real, lat: real)
    requires kp1 <= kp2
    ensures Classify(kp1, Some(lat)).Rank() <= Classify(kp2, Some(lat)).Rank()
  {
    WeightNonNegative(lat);
    ScaleMonotone(kp1, kp2, Abs(lat) / 90.0);
    BandMonotone(Score(kp1, lat), Score(kp2, lat));
  }

  /** For a fixed Kp, a latitude farther from the equator never gives a
      lower category. For a Kp of zero or below every latitude scores at
      most 0 and is Low, so no sign condition on the Kp is needed. */
  lemma ClassifyMonotoneInLatitude(kp: real, lat1: real, lat2: real)
    requires Abs(lat1) <= Abs(lat2)
    ensures Classify(kp, Some(lat1)).Rank() <= Classify(kp, Some(lat2)).Rank()
  {
    var w1, w2 := Abs(lat1) / 90.0, Abs(lat2) / 90.0;
    WeightNonNegative(lat1);
    if kp >= 0.0 {
      ScaleMonotone(w1, w2, kp);
      BandMonotone(Score(kp, lat1), Score(kp, lat2));
    } else {
      ScaleNonPositive(kp, w1);
      ScaleNonPositive(kp, w2);
    }
  }

  /** At the equator the score is 0, so every Kp is Low. */
  lemma EquatorIsLow(kp: real)
    ensures Classify(kp, Some(0.0)) == Low
  {
  }

  /** At a pole the weight is 1 and the score is the Kp itself, so the
      category is decided by the Kp alone. */
  lemma PoleDecidedByKp(kp: real, lat: real)
    requires Abs(lat) == 90.0
    ensures Score(kp, lat) == kp
    ensures Classify(kp, Some(lat)) == Band(kp)
    ensures InBand(Classify(kp, Some(lat)), kp)
  {
  }

  /** A score exactly on a threshold falls into the higher band: Kp 2, 4
      and 6 at a pole are Moderate, High and Severe, and just below each
      threshold the lower band still holds. */
  lemma ThresholdsFallUpward()
    ensures Classify(2.0, Some(90.0)) == Moderate
    ensures Classify(4.0, Some(-90.0)) == High
    ensures Classify(6.0, Some(90.0)) == Severe
    ensures Classify(1.999, Some(90.0)) == Low
    ensures Classify(3.999, Some(-90.0)) == Moderate
    ensures Classify(5.999, Some(90.0)) == High
  {
  }
}
