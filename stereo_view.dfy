/**
 * Side-by-side stereo: each eye renders into one half of the view rectangle
 * (AdjustViewRect), and the distortion pass samples the matching half of the
 * rendered texture (GetEyeRenderParams_RenderThread).
 */
module StereoView {

  /** EStereoscopicPass. */
  datatype StereoPass = Full | LeftEye | RightEye | MonoscopicEye

  const TwoTo31: int := 0x8000_0000
  const TwoTo32: int := 0x1_0000_0000

  predicate IsInt32(x: int) { -TwoTo31 <= x < TwoTo31 }
  predicate IsUInt32(x: int) { 0 <= x < TwoTo32 }

  /** A view rectangle as AdjustViewRect receives it: int32 X and Y, uint32
      SizeX and SizeY. */
  datatype ViewRect = ViewRect(X: int, Y: int, SizeX: int, SizeY: int)

  predicate ValidRect(r: ViewRect)
  {
    IsInt32(r.X) && IsInt32(r.Y) && IsUInt32(r.SizeX) && IsUInt32(r.SizeY)
  }

  /** The int32 that a 32-bit result stores: x reduced modulo 2^32 into the
      signed range. */
  function WrapInt32(x: int): (r: int)
    ensures IsInt32(r)
    ensures (r - x) % TwoTo32 == 0
    ensures IsInt32(x) ==> r == x
  {
    var u := x % TwoTo32;
    if u < TwoTo31 then u else u - TwoTo32
  }

  /** AdjustViewRect: SizeX is halved by unsigned division; the right eye's X
      moves by the halved width, with the 32-bit addition wrapping. */
  function AdjustViewRect(pass: StereoPass, r: ViewRect): (a: ViewRect)
    requires ValidRect(r)
    ensures ValidRect(a)
    ensures 2 * a.SizeX <= r.SizeX <= 2 * a.SizeX + 1
    ensures a.Y == r.Y && a.SizeY == r.SizeY
    ensures pass != RightEye ==> a.X == r.X
    ensures pass == RightEye && IsInt32(r.X + a.SizeX) ==> a.X == r.X + a.SizeX
    ensures pass == RightEye ==> (a.X - (r.X + a.SizeX)) % TwoTo32 == 0
  {
    var half := r.SizeX / 2;
    if pass == RightEye then ViewRect(WrapInt32(r.X + half), r.Y, half, r.SizeY)
    else ViewRect(r.X, r.Y, half, r.SizeY)
  }

  /** When the right edge of the rectangle is representable, the two eye
      viewports sit side by side inside the original rectangle: the right one
      starts where the left one ends, and at most one column (an odd width)
      is left over. */
  lemma EyeViewportsTile(r: ViewRect)
    requires ValidRect(r) && IsInt32(r.X + r.SizeX)
    ensures var left := AdjustViewRect(LeftEye, r);
            var right := AdjustViewRect(RightEye, r);
            left.X == r.X &&
            right.X == left.X + left.SizeX &&
            left.SizeX == right.SizeX &&
            r.X + r.SizeX - 1 <= right.X + right.SizeX <= r.X + r.SizeX
  {
    var half := r.SizeX / 2;
    assert r.X <= r.X + half <= r.X + r.SizeX;
  }

  /** The UV transform of an eye: the texture is sampled at
      offset + scale * uv. */
  datatype EyeRenderParams = EyeRenderParams(ScaleX: real, ScaleY: real, OffsetX: real, OffsetY: real)

  /** GetEyeRenderParams_RenderThread: the left eye reads the left half of
      the texture, every other pass the right half. */
  function GetEyeRenderParams(pass: StereoPass): (p: EyeRenderParams)
    ensures p.ScaleX == 0.5 && p.ScaleY == 1.0 && p.OffsetY == 0.0
    ensures p.OffsetX == (if pass == LeftEye then 0.0 else 0.5)
    ensures 0.0 <= p.OffsetX && p.OffsetX + p.ScaleX <= 1.0
  {
    if pass == LeftEye then EyeRenderParams(0.5, 1.0, 0.0, 0.0)
    else EyeRenderParams(0.5, 1.0, 0.5, 0.0)
  }

  /** For both eyes and an even, representable width, the fraction of the
      rectangle that AdjustViewRect gives an eye is the fraction of the
      texture its render parameters sample. */
  lemma ViewportMatchesTextureWindow(pass: StereoPass, r: ViewRect)
    requires pass == LeftEye || pass == RightEye
    requires ValidRect(r) && IsInt32(r.X + r.SizeX)
    requires r.SizeX > 0 && r.SizeX % 2 == 0
    ensures var a := AdjustViewRect(pass, r);
            var p := GetEyeRenderParams(pass);
            (a.X - r.X) as real == p.OffsetX * r.SizeX as real &&
            a.SizeX as real == p.ScaleX * r.SizeX as real &&
            a.SizeY as real == p.ScaleY * r.SizeY as real
  {
    var half := r.SizeX / 2;
    assert half as real == 0.5 * r.SizeX as real;
  }
}
