/**
 The speedometer gauge: an SVG arc of length 377 whose dash offset is reduced in
 proportion to the speed, saturating at 500 Mbps. Only the target offset is
 modelled, not the tween towards it.
 */
module Speedometer {

  const MaxSpeed: real := 500.0
  const ArcLength: real := 377.0

  /** The stroke dash offset the gauge is animated to for `speed`. */
  function ArcOffset(speed: real): (offset: real)
    ensures 0.0 <= speed ==> 0.0 <= offset <= ArcLength
    ensures MaxSpeed <= speed ==> offset == 0.0
    ensures speed <= MaxSpeed ==> (ArcLength - offset) * MaxSpeed == speed * ArcLength
    ensures speed < 0.0 ==> ArcLength < offset
  {
    var normalized := if speed < MaxSpeed then speed else MaxSpeed;
    ArcLength - normalized / MaxSpeed * ArcLength
  }

  /** A faster reading never leaves more of the arc undrawn. */
  lemma ArcOffsetAntitone(a: real, b: real)
    requires a <= b
    ensures ArcOffset(b) <= ArcOffset(a)
  {
  }

  /** Speed 0, as set by a reset, leaves the whole arc undrawn. */
  lemma ArcOffsetAtRest()
    ensures ArcOffset(0.0) == ArcLength
  {
  }
}
