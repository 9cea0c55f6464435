/** The colour value types the views store (`Rgba`, `Srgb`). Only the hex
    constructor is modelled; the sRGB transfer functions are not part of this model. */
module Color {
  import opened Floats

  datatype Rgba = Rgba(r: Float, g: Float, b: Float, a: Float)

  datatype Srgb = Srgb(r: Float, g: Float, b: Float)

  /** `Rgba::default()`: all four channels zero. */
  const Transparent: Rgba := Rgba(Zero, Zero, Zero, Zero)

  function ByteChannel(byte: nat): (r: Float) {
    Div(FromNat(byte), Num(255.0))
  }

  /** `Rgba::from_hex`: the big-endian bytes of `u` are red, green, blue, alpha,
      each divided by 255. A six-digit literal therefore has a zero red channel and
      its last byte as alpha. */
  function RgbaFromHex(u: nat): (c: Rgba)
    requires u < 0x1_0000_0000
    ensures c.a == Num((u % 256) as real / 255.0)
    ensures c.r == Num((u / 0x100_0000) as real / 255.0)
    ensures c.g == Num((u / 0x1_0000 % 256) as real / 255.0)
    ensures c.b == Num((u / 0x100 % 256) as real / 255.0)
  {
    Rgba(ByteChannel(u / 0x100_0000), ByteChannel(u / 0x1_0000 % 256),
         ByteChannel(u / 0x100 % 256), ByteChannel(u % 256))
  }

  /** The four bytes the channels are read from make up the whole of `u`: no bit
      of the hex value is lost or read twice. */
  lemma HexBytesRecompose(u: nat)
    requires u < 0x1_0000_0000
    ensures u == (u / 0x100_0000) * 0x100_0000 + (u / 0x1_0000 % 256) * 0x1_0000 + (u / 0x100 % 256) * 0x100 + u % 256
  {
    var a := u / 0x100;
    var b := a / 0x100;
    var c := b / 0x100;
    assert u == a * 0x100 + u % 256;
    assert a == b * 0x100 + a % 256;
    assert b == c * 0x100 + b % 256;
    assert b == u / 0x1_0000;
    assert c == u / 0x100_0000;
  }

  /** `Rgba::from_hex(0)` is the default colour. */
  lemma FromHexZero()
    ensures RgbaFromHex(0) == Transparent
  {
  }

  /** The literal `0xFFFFFF` the views start with is opaque, with a zero red channel. */
  lemma FromHexWhiteLiteral()
    ensures RgbaFromHex(0xFFFFFF) == Rgba(Zero, One, One, One)
  {
  }
}
