/**
 * Numeric helpers of the Cardboard HMD: FMath::Clamp, angle normalisation of
 * FRotator, and the conversion of vectors and quaternions from the Cardboard
 * SDK's right-handed frame (-Z forward, +X right, +Y up) into Unreal's
 * left-handed frame (+X forward, +Y right, +Z up). Floats are modelled as reals.
 */
module CardboardMath {

  /** FMath::Clamp(X, Min, Max): `X < Min ? Min : X < Max ? X : Max`. */
  function Clamp(x: real, lo: real, hi: real): (r: real)
    ensures lo <= hi ==> lo <= r <= hi
    ensures lo <= x <= hi ==> r == x
    ensures x < lo ==> r == lo
    ensures lo <= hi <= x ==> r == hi
  {
    if x < lo then lo else if x < hi then x else hi
  }

  /** Unreal's FVector. */
  datatype Vector = Vector(X: real, Y: real, Z: real)

  const ZeroVector := Vector(0.0, 0.0, 0.0)

  function SizeSquared(v: Vector): real
  {
    v.X * v.X + v.Y * v.Y + v.Z * v.Z
  }

  /** Maps a Cardboard position (x, y, z) to Unreal axes, scaled to world units. */
  function ConvertCardboardVectorToUnreal(x: real, y: real, z: real, worldToMetersScale: real): (v: Vector)
    ensures worldToMetersScale != 0.0 ==>
      ConvertUnrealVectorToCardboard(v, worldToMetersScale) == (x, y, z)
    ensures SizeSquared(v) == worldToMetersScale * worldToMetersScale * (x * x + y * y + z * z)
  {
    var s := worldToMetersScale;
    ScaleCancels(x, s); ScaleCancels(y, s); ScaleCancels(z, s);
    Vector(-z * s, x * s, y * s)
  }

  lemma ScaleCancels(x: real, s: real)
    ensures s != 0.0 ==> (x * s) / s == x && -(-x * s) / s == x
  {
  }

  /** The inverse mapping, from Unreal axes back to Cardboard axes. */
  function ConvertUnrealVectorToCardboard(v: Vector, worldToMetersScale: real): (c: (real, real, real))
    requires worldToMetersScale != 0.0
  {
    (v.Y / worldToMetersScale, v.Z / worldToMetersScale, -v.X / worldToMetersScale)
  }

  /** Converting back and then forth again gives back the Unreal vector. */
  lemma UnrealVectorRoundTrip(v: Vector, s: real)
    requires s != 0.0
    ensures var c := ConvertUnrealVectorToCardboard(v, s);
            ConvertCardboardVectorToUnreal(c.0, c.1, c.2, s) == v
  {
    var c := ConvertUnrealVectorToCardboard(v, s);
    assert c.0 * s == v.Y;
    assert c.1 * s == v.Z;
    assert -c.2 * s == v.X;
  }

  /** Unreal's FQuat, stored as (X, Y, Z, W). */
  datatype Quat = Quat(X: real, Y: real, Z: real, W: real)

  function QuatSizeSquared(q: Quat): real
  {
    q.X * q.X + q.Y * q.Y + q.Z * q.Z + q.W * q.W
  }

  /** Maps a Cardboard rotation (w, x, y, z) to an Unreal quaternion: a
      permutation of the components with one sign flip, so no renormalisation. */
  function ConvertCardboardQuaternionToUnreal(w: real, x: real, y: real, z: real): (q: Quat)
    ensures QuatSizeSquared(q) == w * w + x * x + y * y + z * z
    ensures ConvertUnrealQuaternionToCardboard(q) == (w, x, y, z)
  {
    Quat(-z, x, y, w)
  }

  /** The inverse mapping, giving the Cardboard components (w, x, y, z). */
  function ConvertUnrealQuaternionToCardboard(q: Quat): (c: (real, real, real, real))
  {
    (q.W, q.Y, q.Z, -q.X)
  }

  /** Unreal's FRotator, in degrees. */
  datatype Rotator = Rotator(Pitch: real, Yaw: real, Roll: real)

  /** C's fmod(a, 360): the remainder of the division truncated toward zero. */
  function Fmod360(a: real): (r: real)
    ensures -360.0 < r < 360.0
    ensures a >= 0.0 ==> r >= 0.0
    ensures a <= 0.0 ==> r <= 0.0
  {
    if a >= 0.0 then a - 360.0 * ((a / 360.0).Floor as real)
    else -((-a) - 360.0 * (((-a) / 360.0).Floor as real))
  }

  /** True when d is a whole number of turns. */
  predicate WholeTurns(d: real)
  {
    (d / 360.0).Floor as real == d / 360.0
  }

  /** FRotator::ClampAxis: the angle brought into [0, 360). */
  function ClampAxis(angle: real): (r: real)
    ensures 0.0 <= r < 360.0
    ensures WholeTurns(r - angle)
  {
    var f := Fmod360(angle);
    FmodWholeTurns(angle);
    if f < 0.0 then
      assert WholeTurns((f + 360.0) - angle) by { ShiftWholeTurns(f - angle, 1); }
      f + 360.0
    else f
  }

  /** FRotator::NormalizeAxis: the angle brought into (-180, 180]. */
  function NormalizeAxis(angle: real): (r: real)
    ensures -180.0 < r <= 180.0
    ensures WholeTurns(r - angle)
  {
    var c := ClampAxis(angle);
    if c > 180.0 then
      assert WholeTurns((c - 360.0) - angle) by { ShiftWholeTurns(c - angle, -1); }
      c - 360.0
    else c
  }

  /** An angle already in (-180, 180] is left as it is, so normalising
      twice is the same as normalising once. */
  lemma NormalizeAxisKeepsNormal(angle: real)
    requires -180.0 < angle <= 180.0
    ensures NormalizeAxis(angle) == angle
  {
    if angle >= 0.0 {
      assert (angle / 360.0).Floor == 0;
      assert Fmod360(angle) == angle;
    } else {
      assert ((-angle) / 360.0).Floor == 0;
      assert Fmod360(angle) == angle;
      assert ClampAxis(angle) == angle + 360.0;
    }
  }

  lemma NormalizeAxisIdempotent(angle: real)
    ensures NormalizeAxis(NormalizeAxis(angle)) == NormalizeAxis(angle)
  {
    NormalizeAxisKeepsNormal(NormalizeAxis(angle));
  }

  lemma FmodWholeTurns(a: real)
    ensures WholeTurns(Fmod360(a) - a)
  {
    if a >= 0.0 {
      var k := (a / 360.0).Floor;
      assert Fmod360(a) - a == -(k as real) * 360.0;
      IntegerTurns(-k);
    } else {
      var k := ((-a) / 360.0).Floor;
      assert Fmod360(a) - a == (k as real) * 360.0;
      IntegerTurns(k);
    }
  }

  lemma IntegerTurns(k: int)
    ensures WholeTurns((k as real) * 360.0)
  {
    assert (k as real) * 360.0 / 360.0 == k as real;
  }

  lemma ShiftWholeTurns(d: real, k: int)
    requires WholeTurns(d)
    ensures WholeTurns(d + (k as real) * 360.0)
  {
    var n := (d / 360.0).Floor;
    assert d == (n as real) * 360.0;
    assert d + (k as real) * 360.0 == ((n + k) as real) * 360.0;
    IntegerTurns(n + k);
  }
}
