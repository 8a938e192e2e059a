/** The linear maps from an angle in degrees to the normalised servo value
    in [-1, 1] that the hardware library accepts, with their inverses.
    The base servo takes angles in [0, 360] and uses `a/180 - 1`; the top
    servo takes angles in [0, 180] and uses `a/90 - 1`. */
module ServoMap {

  /** The angles `set_base_angle` accepts: it raises unless 0 <= a <= 360. */
  predicate BaseAngleInRange(a: real) {
    !(a < 0.0 || a > 360.0)
  }

  /** The angles `set_top_angle` accepts: it raises unless 0 <= a <= 180. */
  predicate TopAngleInRange(a: real) {
    !(a < 0.0 || a > 180.0)
  }

  /** A value the servo accepts. */
  predicate ServoValueInRange(v: real) {
    -1.0 <= v <= 1.0
  }

  /** The servo value written for a base angle. */
  function BaseServoValue(a: real): (v: real)
    ensures BaseAngleInRange(a) <==> ServoValueInRange(v)
    ensures v == -1.0 <==> a == 0.0
    ensures v == 1.0 <==> a == 360.0
    ensures v == 0.0 <==> a == 180.0
  {
    a / 180.0 - 1.0
  }

  /** The servo value written for a top angle. */
  function TopServoValue(a: real): (v: real)
    ensures TopAngleInRange(a) <==> ServoValueInRange(v)
    ensures v == -1.0 <==> a == 0.0
    ensures v == 1.0 <==> a == 180.0
    ensures v == 0.0 <==> a == 90.0
  {
    a / 90.0 - 1.0
  }

  /** The base angle a servo value stands for: the inverse of `BaseServoValue`.
      It sends [-1, 1] into [0, 360] and nothing else there. */
  function BaseAngleOf(v: real): (a: real)
    ensures ServoValueInRange(v) <==> BaseAngleInRange(a)
    ensures BaseServoValue(a) == v
  {
    (v + 1.0) * 180.0
  }

  /** The top angle a servo value stands for: the inverse of `TopServoValue`.
      It sends [-1, 1] into [0, 180] and nothing else there. */
  function TopAngleOf(v: real): (a: real)
    ensures ServoValueInRange(v) <==> TopAngleInRange(a)
    ensures TopServoValue(a) == v
  {
    (v + 1.0) * 90.0
  }

  /** Reading back the angle from the written value gives the angle again. */
  lemma BaseRoundTrip(a: real)
    ensures BaseAngleOf(BaseServoValue(a)) == a
  {
  }

  /** Every servo value is reached by the angle `BaseAngleOf` names, and by
      no other angle. */
  lemma BaseRoundTripValue(v: real)
    ensures BaseServoValue(BaseAngleOf(v)) == v
    ensures forall a :: BaseServoValue(a) == v ==> a == BaseAngleOf(v)
  {
  }

  /** Every angle `set_base_angle` accepts is the inverse of some accepted
      servo value: `BaseAngleOf` sends [-1, 1] onto [0, 360]. */
  lemma BaseAngleOfOnto(a: real)
    requires BaseAngleInRange(a)
    ensures exists v :: ServoValueInRange(v) && BaseAngleOf(v) == a
  {
    BaseRoundTrip(a);
    assert ServoValueInRange(BaseServoValue(a));
  }

  lemma TopRoundTrip(a: real)
    ensures TopAngleOf(TopServoValue(a)) == a
  {
  }

  /** Every servo value is reached by the angle `TopAngleOf` names, and by
      no other angle. */
  lemma TopRoundTripValue(v: real)
    ensures TopServoValue(TopAngleOf(v)) == v
    ensures forall a :: TopServoValue(a) == v ==> a == TopAngleOf(v)
  {
  }

  /** `TopAngleOf` sends [-1, 1] onto [0, 180]. */
  lemma TopAngleOfOnto(a: real)
    requires TopAngleInRange(a)
    ensures exists v :: ServoValueInRange(v) && TopAngleOf(v) == a
  {
    TopRoundTrip(a);
    assert ServoValueInRange(TopServoValue(a));
  }

  /** The base map is strictly increasing, hence one-to-one. */
  lemma BaseStrictlyIncreasing(a: real, b: real)
    ensures a < b <==> BaseServoValue(a) < BaseServoValue(b)
    ensures a == b <==> BaseServoValue(a) == BaseServoValue(b)
  {
  }

  /** The top map is strictly increasing, hence one-to-one. */
  lemma TopStrictlyIncreasing(a: real, b: real)
    ensures a < b <==> TopServoValue(a) < TopServoValue(b)
    ensures a == b <==> TopServoValue(a) == TopServoValue(b)
  {
  }

  /** The base map covers its 360 degrees with the same [-1, 1] range the
      top map spends on 180 degrees: a base angle drives the servo as far
      as half that angle drives the top servo. */
  lemma BaseIsHalfSpeedTop(a: real)
    ensures BaseServoValue(a) == TopServoValue(a / 2.0)
  {
  }
}
