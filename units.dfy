/** Angles, in radians. */
module Units {

  /** `Math.PI`, as the double the browser uses, taken as an exact real. */
  const Pi: real := 3.141592653589793

  /** `THREE.MathUtils.degToRad` */
  function DegToRad(degrees: real): (radians: real)
    ensures radians * 180.0 == degrees * Pi
    ensures degrees > 0.0 ==> radians > 0.0
    ensures degrees < 0.0 ==> radians < 0.0
    ensures degrees == 0.0 ==> radians == 0.0
    ensures degrees == 180.0 ==> radians == Pi
  {
    degrees * (Pi / 180.0)
  }
}
