/** The conversions between the light's normalised attributes and raw
    property values: the on/off sentinels, the is_on normalisation, the
    packed 24-bit RGB value, and the effect lookup. */
module LightValues {
  import opened MiotSpec

  /** A colour component as the host platform passes it: 0..255. */
  type Byte = x: int | 0 <= x < 256

  datatype RgbColor = RgbColor(r: Byte, g: Byte, b: Byte)

  /** The value written to turn an on-property on: True for a bool property, else 1. */
  function OnValue(format: Format): Value {
    if format == FormatBool then VBool(true) else VInt(1)
  }

  /** The value written to turn an on-property off: False for a bool property, else 0. */
  function OffValue(format: Format): Value {
    if format == FormatBool then VBool(false) else VInt(0)
  }

  /** is_on over the cached on-value: an int (Python's bool is one too) reads
      as "value == 1"; no cached value reads as None. */
  function IsOnOf(cached: Option<Value>): (r: Option<bool>)
    ensures r.None? <==> cached.None? || cached.value.VNone?
    ensures r == Some(true) <==> cached == Some(VInt(1)) || cached == Some(VBool(true))
  {
    match cached
    case None => None
    case Some(VNone) => None
    case Some(VBool(b)) => Some(b)
    case Some(VInt(i)) => Some(i == 1)
  }

  /** Reading back the sentinels: on reads as on and off as off, whatever the format. */
  lemma SentinelsReadBack(format: Format)
    ensures IsOnOf(Some(OnValue(format))) == Some(true)
    ensures IsOnOf(Some(OffValue(format))) == Some(false)
    ensures (OnValue(format).VBool? <==> format == FormatBool)
            && (OffValue(format).VBool? <==> format == FormatBool)
  {
  }

  /** (r << 16) | (g << 8) | b: the three bytes occupy disjoint bits, so the
      bitwise or is their weighted sum. */
  function Pack(c: RgbColor): (v: int)
    ensures 0 <= v < 0x100_0000
  {
    c.r * 0x1_0000 + c.g * 0x100 + c.b
  }

  /** ((v >> 16) & 0xFF, (v >> 8) & 0xFF, v & 0xFF). Python's shifts floor and
      the mask keeps the low byte, which on Dafny's ints is / and % by a
      positive power of two, for negative v as well. */
  function Unpack(v: int): RgbColor {
    RgbColor((v / 0x1_0000) % 0x100, (v / 0x100) % 0x100, v % 0x100)
  }

  /** Unpacking a packed colour gives the colour back. */
  lemma UnpackPack(c: RgbColor)
    ensures Unpack(Pack(c)) == c
  {
    var v := Pack(c);
    var low := c.g * 0x100 + c.b;
    assert 0 <= low < 0x1_0000;
    DivModUnique(v, 0x1_0000, c.r, low);
    DivModUnique(v, 0x100, c.r * 0x100 + c.g, c.b);
    DivModUnique(c.r * 0x100 + c.g, 0x100, c.r, c.g);
  }

  /** Packing the unpacked components of a 24-bit value gives the value back. */
  lemma PackUnpack(v: int)
    requires 0 <= v < 0x100_0000
    ensures Pack(Unpack(v)) == v
  {
    var hi := v / 0x1_0000;
    var mid := v / 0x100;
    assert v == mid * 0x100 + v % 0x100;
    DivModUnique(mid, 0x100, hi, mid % 0x100) by {
      assert mid == (mid / 0x100) * 0x100 + mid % 0x100;
      DivDiv(v, 0x100, 0x100);
    }
  }

  /** a == q * d + r with 0 <= r < d determines the quotient and remainder. */
  lemma DivModUnique(a: int, d: int, q: int, r: int)
    requires d > 0 && 0 <= r < d && a == q * d + r
    ensures a / d == q && a % d == r
  {
    var q', r' := a / d, a % d;
    assert (q - q') * d == r' - r;
    MulSmall(q - q', d);
  }

  /** A multiple of d strictly between -d and d is zero. */
  lemma MulSmall(x: int, d: int)
    requires d > 0 && -d < x * d < d
    ensures x == 0
  {
  }

  /** Two successive floor divisions by positive numbers are one division by their product. */
  lemma DivDiv(a: int, b: int, c: int)
    requires b > 0 && c > 0
    ensures (a / b) / c == a / (b * c)
  {
    var q := (a / b) / c;
    var r := (a / b) % c;
    assert a / b == q * c + r;
    assert a == (a / b) * b + a % b;
    assert a == q * (b * c) + (r * b + a % b);
    assert 0 <= r * b + a % b < b * c by {
      assert r * b <= (c - 1) * b;
    }
    DivModUnique(a, b * c, q, r * b + a % b);
  }

  /** rgb_color over the cached packed value; each component is a byte. */
  function RgbOf(cached: Option<Value>): (r: Option<RgbColor>)
    ensures r.None? <==> cached.None? || cached.value.VNone?
  {
    match cached
    case None => None
    case Some(VNone) => None
    case Some(VBool(b)) => Some(Unpack(if b then 1 else 0))
    case Some(VInt(i)) => Some(Unpack(i))
  }

  /** A colour written as its packed value reads back as the same colour. */
  lemma RgbReadBack(c: RgbColor)
    ensures RgbOf(Some(VInt(Pack(c)))) == Some(c)
  {
    UnpackPack(c);
  }

  /** effect over the cached mode value: the label the mode map gives it. */
  function EffectOf(modeMap: Option<ModeMap>, cached: Option<Value>): (r: Option<string>)
    ensures r.Some? ==> modeMap.Some? && r.value in Labels(modeMap.value)
    ensures modeMap.Some? && cached.Some? && AsKey(cached.value).Some? ==>
              r == Lookup(modeMap.value, AsKey(cached.value).value)
    ensures modeMap.None? || cached.None? || AsKey(cached.value).None? ==> r.None?
  {
    var r := GetMapValue(modeMap, cached);
    if r.Some? then
      var k := AsKey(cached.value).value;
      var i :| 0 <= i < |modeMap.value| && modeMap.value[i] == Entry(k, r.value);
      assert Labels(modeMap.value)[i] == r.value;
      r
    else r
  }
}
