/**
 * UrovrInstance::testinsal123: fills the base mip of a transient
 * PF_B8G8R8A8 texture from an array of FColor, four bytes per pixel in
 * B, G, R order with the alpha byte forced to 0xFF. The texture object is
 * reduced to its mip byte buffer.
 */
module PixelPacking {

  /** FColor: its channels in memory order. */
  datatype Color = Color(B: bv8, G: bv8, R: bv8, A: bv8)

  /** The four bytes written for one pixel. */
  function PixelBytes(c: Color): seq<bv8>
  {
    [c.B, c.G, c.R, 0xFF]
  }

  /** The packed image of a run of colours, pixel after pixel. */
  function Packed(colors: seq<Color>): (bytes: seq<bv8>)
    ensures |bytes| == 4 * |colors|
  {
    if colors == [] then [] else PixelBytes(colors[0]) + Packed(colors[1..])
  }

  /** Pixel i of the packed image sits at bytes 4i .. 4i + 3. */
  lemma {:induction false} PackedPixel(colors: seq<Color>, i: int)
    requires 0 <= i < |colors|
    ensures Packed(colors)[4 * i .. 4 * i + 4] == PixelBytes(colors[i])
  {
    if i > 0 {
      PackedPixel(colors[1..], i - 1);
      assert Packed(colors)[4 * i .. 4 * i + 4] == Packed(colors[1..])[4 * (i - 1) .. 4 * (i - 1) + 4];
    }
  }

  /** The colours back from packed bytes, reading B, G, R, A per pixel. */
  function Unpacked(bytes: seq<bv8>): (colors: seq<Color>)
    requires |bytes| % 4 == 0
    ensures |colors| == |bytes| / 4
  {
    if bytes == [] then []
    else [Color(bytes[0], bytes[1], bytes[2], bytes[3])] + Unpacked(bytes[4..])
  }

  /** The colours made opaque: what survives packing. */
  function Opaque(colors: seq<Color>): (r: seq<Color>)
    ensures |r| == |colors|
    ensures forall i :: 0 <= i < |colors| ==> r[i] == colors[i].(A := 0xFF)
  {
    if colors == [] then [] else [colors[0].(A := 0xFF)] + Opaque(colors[1..])
  }

  /** Packing loses only the alpha channel. */
  lemma {:induction false} PackedRoundTrip(colors: seq<Color>)
    ensures Unpacked(Packed(colors)) == Opaque(colors)
  {
    if colors != [] {
      PackedRoundTrip(colors[1..]);
      assert Packed(colors)[4..] == Packed(colors[1..]);
    }
  }

  /** Bytes 4i .. 4i + 3 of `bytes` hold the packing of c. */
  ghost predicate PixelAt(bytes: seq<bv8>, i: int, c: Color)
    requires 0 <= i && 4 * i + 4 <= |bytes|
  {
    bytes[4 * i] == c.B && bytes[4 * i + 1] == c.G && bytes[4 * i + 2] == c.R && bytes[4 * i + 3] == 0xFF
  }

  /** Bytes that hold every pixel of a run of colours are its packing. */
  lemma {:induction false} PackedFromPixels(bytes: seq<bv8>, colors: seq<Color>)
    requires |bytes| == 4 * |colors|
    requires forall i :: 0 <= i < |colors| ==> PixelAt(bytes, i, colors[i])
    ensures bytes == Packed(colors)
  {
    if colors != [] {
      var rest := bytes[4..];
      forall i | 0 <= i < |colors| - 1
        ensures PixelAt(rest, i, colors[1..][i])
      {
        assert PixelAt(bytes, i + 1, colors[i + 1]);
      }
      PackedFromPixels(rest, colors[1..]);
      assert PixelAt(bytes, 0, colors[0]);
      assert bytes == bytes[..4] + rest;
    }
  }

  /** The inner loop of testinsal123: one row left to right, pixel
      rowStart + x of the colours into bytes 4 * (rowStart + x) onwards. */
  method FillRow(mipData: array<bv8>, rowStart: int, w: int, colorArray: seq<Color>)
    requires 0 <= rowStart && 0 < w
    requires rowStart + w <= |colorArray| && 4 * (rowStart + w) <= mipData.Length
    modifies mipData
    ensures forall i :: 0 <= i < mipData.Length && !(4 * rowStart <= i < 4 * (rowStart + w)) ==>
              mipData[i] == old(mipData[i])
    ensures forall i :: rowStart <= i < rowStart + w ==> PixelAt(mipData[..], i, colorArray[i])
  {
    var dest := 4 * rowStart;
    var src := rowStart;
    var x := 0;
    while x < w
      invariant 0 <= x <= w
      invariant src == rowStart + x && dest == 4 * src
      invariant forall i :: 0 <= i < mipData.Length && !(4 * rowStart <= i < dest) ==>
                  mipData[i] == old(mipData[i])
      invariant forall i :: rowStart <= i < src ==> PixelAt(mipData[..], i, colorArray[i])
    {
      mipData[dest] := colorArray[src].B;
      dest := dest + 1;
      mipData[dest] := colorArray[src].G;
      dest := dest + 1;
      mipData[dest] := colorArray[src].R;
      dest := dest + 1;
      mipData[dest] := 0xFF;
      dest := dest + 1;
      src := src + 1;
      x := x + 1;
    }
  }

  /** The loops of testinsal123, writing into the locked mip buffer: rows
      from the last up, each left to right, the source and the destination
      on the same row, so the image is not flipped. Only each row's first
      colour is taken through a range-checked index; the rest of the row is
      read through a raw pointer. */
  method FillBaseMip(mipData: array<bv8>, imageWidth: int, imageHeight: int, colorArray: seq<Color>)
    requires imageWidth > 0 && imageHeight > 0
    requires imageWidth * imageHeight <= |colorArray|
    requires mipData.Length == 4 * (imageWidth * imageHeight)
    modifies mipData
    ensures mipData[..] == Packed(colorArray[..imageWidth * imageHeight])
  {
    var w, h := imageWidth, imageHeight;
    ghost var total := w * h;
    // pixels from `filled` on are written: the rows below the current one
    ghost var filled := total;
    var y := 0;
    while y < h
      invariant 0 <= y <= h
      invariant filled == (h - y) * w && 0 <= filled <= total
      invariant forall i :: filled <= i < total ==> PixelAt(mipData[..], i, colorArray[i])
    {
      var row := h - 1 - y;
      assert (row + 1) * w == row * w + w;
      ghost var before := mipData[..];
      FillRow(mipData, row * w, w, colorArray);
      forall i | filled <= i < total
        ensures PixelAt(mipData[..], i, colorArray[i])
      {
        assert PixelAt(before, i, colorArray[i]);
      }
      filled := row * w;
      y := y + 1;
    }
    PackedFromPixels(mipData[..], colorArray[..total]);
  }

  /** testinsal123: creates the texture's base mip of 4 * w * h bytes and
      fills it. */
  method CreateTextureMipData(imageWidth: int, imageHeight: int, colorArray: seq<Color>)
    returns (mipData: array<bv8>)
    requires imageWidth > 0 && imageHeight > 0
    requires imageWidth * imageHeight <= |colorArray|
    ensures fresh(mipData)
    ensures mipData[..] == Packed(colorArray[..imageWidth * imageHeight])
  {
    mipData := new bv8[4 * (imageWidth * imageHeight)];
    FillBaseMip(mipData, imageWidth, imageHeight, colorArray);
  }
}
