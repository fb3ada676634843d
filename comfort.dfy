/** The "feels like" card of the weather view (app.py:885-900): the current
    temperature in degrees Celsius falls into one of five bands, each shown
    with a word and an emoji. */
module Comfort {

  datatype Band = VeryCold | Cold | Pleasant | Warm | Hot {
    /** Position of the band from coldest (0) to hottest (4). */
    function Rank(): nat
    {
      match this
      case VeryCold => 0
      case Cold => 1
      case Pleasant => 2
      case Warm => 3
      case Hot => 4
    }

    /** The word shown under the emoji. */
    function Condition(): string
    {
      match this
      case VeryCold => "매우 추움"
      case Cold => "추움"
      case Pleasant => "쾌적"
      case Warm => "따뜻함"
      case Hot => "더움"
    }

    function Emoji(): string
    {
      match this
      case VeryCold => "\U{1F976}"
      case Cold => "\U{1F630}"
      case Pleasant => "\U{1F60A}"
      case Warm => "\U{1F642}"
      case Hot => "\U{1F975}"
    }
  }

  /** The upper bounds of the first four bands, in increasing order: a
      temperature belongs to the first band whose bound it is below. */
  const Thresholds: seq<real> := [0.0, 10.0, 20.0, 28.0]

  /** The if/elif chain of app.py:886-900. */
  function Classify(temp: real): (b: Band)
    ensures forall i | 0 <= i < |Thresholds| :: Thresholds[i] <= temp <==> i < b.Rank()
  {
    if temp < 0.0 then VeryCold
    else if temp < 10.0 then Cold
    else if temp < 20.0 then Pleasant
    else if temp < 28.0 then Warm
    else Hot
  }

  /** How many of the bounds a temperature has reached. */
  function Reached(bounds: seq<real>, temp: real): (n: nat)
    ensures n <= |bounds|
  {
    if bounds == [] then 0 else (if bounds[0] <= temp then 1 else 0) + Reached(bounds[1..], temp)
  }

  /** The band's rank is the number of thresholds the temperature has reached,
      so each band is the half-open interval between two consecutive
      thresholds (the first and last open-ended). */
  lemma ClassifyCountsThresholds(temp: real)
    ensures Classify(temp).Rank() == Reached(Thresholds, temp)
  {
    var t := Thresholds;
    assert t[1..] == [10.0, 20.0, 28.0] && t[1..][1..] == [20.0, 28.0];
    assert t[1..][1..][1..] == [28.0] && t[1..][1..][1..][1..] == [];
    assert Reached([28.0], temp) == if 28.0 <= temp then 1 else 0;
    assert Reached([20.0, 28.0], temp) == (if 20.0 <= temp then 1 else 0) + Reached([28.0], temp);
    assert Reached([10.0, 20.0, 28.0], temp) == (if 10.0 <= temp then 1 else 0) + Reached([20.0, 28.0], temp);
  }

  /** A band never goes down as the temperature goes up. */
  lemma ClassifyMonotone(t1: real, t2: real)
    requires t1 <= t2
    ensures Classify(t1).Rank() <= Classify(t2).Rank()
  {
    ClassifyCountsThresholds(t1);
    ClassifyCountsThresholds(t2);
    ReachedMonotone(Thresholds, t1, t2);
  }

  lemma {:induction false} ReachedMonotone(bounds: seq<real>, t1: real, t2: real)
    requires t1 <= t2
    ensures Reached(bounds, t1) <= Reached(bounds, t2)
  {
    if bounds != [] {
      ReachedMonotone(bounds[1..], t1, t2);
    }
  }

  /** Each band has its own word and its own emoji (app.py:887-900), so the
      card always tells the bands apart. */
  lemma BandsTellApart(b1: Band, b2: Band)
    ensures b1.Condition() == b2.Condition() <==> b1 == b2
    ensures b1.Emoji() == b2.Emoji() <==> b1 == b2
  {
  }

  /** The card for a temperature shows the word and emoji of its band: below
      0 °C "매우 추움" with a cold face, from 28 °C "더움" with a hot face. */
  lemma CardExamples()
    ensures Classify(-5.0).Condition() == "매우 추움" && Classify(-5.0).Emoji() == "\U{1F976}"
    ensures Classify(15.0).Condition() == "쾌적" && Classify(15.0).Emoji() == "\U{1F60A}"
    ensures Classify(30.0).Condition() == "더움" && Classify(30.0).Emoji() == "\U{1F975}"
  {
  }

  /** The boundaries belong to the warmer band: 0, 10, 20 and 28 degrees are
      "cold", "pleasant", "warm" and "hot". */
  lemma BoundariesBelongAbove()
    ensures Classify(0.0) == Cold && Classify(10.0) == Pleasant
    ensures Classify(20.0) == Warm && Classify(28.0) == Hot
    ensures Classify(-0.5) == VeryCold && Classify(27.9) == Warm
  {
  }
}
