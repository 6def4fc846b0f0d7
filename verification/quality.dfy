/**
 The two quality classifiers of the dashboard: a latency in milliseconds and a
 throughput in Mbps are each turned into a label and the width (in percent) of
 the bar drawn under the reading.
 */
module Quality {

  datatype Rating = Excellent | Good | Fair | Slow | VerySlow | Poor

  /** The label shown for a rating. */
  function Text(r: Rating): string {
    match r
    case Excellent => "Excellent"
    case Good => "Good"
    case Fair => "Fair"
    case Slow => "Slow"
    case VerySlow => "Very Slow"
    case Poor => "Poor"
  }

  /** The bar width that goes with a rating; both classifiers use the same pairs. */
  function Percent(r: Rating): int {
    match r
    case Excellent => 100
    case Good => 75
    case Fair => 50
    case Slow => 30
    case VerySlow => 15
    case Poor => 25
  }

  datatype Quality = Quality(rating: Rating, percent: int)

  /** Latency classes: below 20 ms, [20, 50), [50, 100) and everything else. */
  function PingQuality(ping: real): (q: Quality)
    ensures q.rating == Excellent <==> ping < 20.0
    ensures q.rating == Good <==> 20.0 <= ping < 50.0
    ensures q.rating == Fair <==> 50.0 <= ping < 100.0
    ensures q.rating == Poor <==> 100.0 <= ping
    ensures q.percent == Percent(q.rating) && q.percent in {25, 50, 75, 100}
  {
    if ping < 20.0 then Quality(Excellent, 100)
    else if ping < 50.0 then Quality(Good, 75)
    else if ping < 100.0 then Quality(Fair, 50)
    else Quality(Poor, 25)
  }

  /** Throughput classes, all with strict lower bounds: (100, ..), (50, 100], (25, 50], (10, 25] and the rest. */
  function SpeedQuality(speed: real): (q: Quality)
    ensures q.rating == Excellent <==> 100.0 < speed
    ensures q.rating == Good <==> 50.0 < speed <= 100.0
    ensures q.rating == Fair <==> 25.0 < speed <= 50.0
    ensures q.rating == Slow <==> 10.0 < speed <= 25.0
    ensures q.rating == VerySlow <==> speed <= 10.0
    ensures q.percent == Percent(q.rating) && q.percent in {15, 30, 50, 75, 100}
  {
    if speed > 100.0 then Quality(Excellent, 100)
    else if speed > 50.0 then Quality(Good, 75)
    else if speed > 25.0 then Quality(Fair, 50)
    else if speed > 10.0 then Quality(Slow, 30)
    else Quality(VerySlow, 15)
  }

  /** A higher latency never earns a wider bar. */
  lemma PingQualityAntitone(a: real, b: real)
    requires a <= b
    ensures PingQuality(b).percent <= PingQuality(a).percent
  {
  }

  /** A higher throughput never earns a narrower bar. */
  lemma SpeedQualityMonotone(a: real, b: real)
    requires a <= b
    ensures SpeedQuality(a).percent <= SpeedQuality(b).percent
  {
  }

  /** The boundaries belong to the worse class for latency (strict `<`) ... */
  lemma PingBoundaries()
    ensures PingQuality(19.99).rating == Excellent
    ensures PingQuality(20.0) == Quality(Good, 75)
    ensures PingQuality(50.0) == Quality(Fair, 50)
    ensures PingQuality(100.0) == Quality(Poor, 25)
  {
  }

  /** ... and to the worse class for throughput too (strict `>`). */
  lemma SpeedBoundaries()
    ensures SpeedQuality(100.0) == Quality(Good, 75)
    ensures SpeedQuality(100.01) == Quality(Excellent, 100)
    ensures SpeedQuality(42.0) == Quality(Fair, 50)
    ensures SpeedQuality(10.0) == Quality(VerySlow, 15)
    ensures Text(SpeedQuality(10.0).rating) == "Very Slow"
  {
  }
}
