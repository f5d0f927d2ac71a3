/** The projection a light builds from its device's property descriptors at
    construction: which property serves which role, the brightness scale, the
    mode map with its effect list, and the supported colour modes. The scan
    over the descriptors is specified here as a fold of Step over the
    descriptor sequence, followed by the colour-mode fallback Finish. */
module LightProjection {
  import opened MiotSpec

  /** A range-built mode map is refused when int((max - min) / step) exceeds this. */
  const ValueRangeModeCountMax: int := 30

  /** The host platform's colour modes the light uses. */
  datatype ColorMode = ColorTemp | Rgb | BrightnessOnly | OnOff

  /** A (min, max) pair of a value range. */
  type Scale = (int, int)

  /** The fields the constructor fills in. */
  datatype Projection = Projection(
    propOn: Option<Prop>,
    propBrightness: Option<Prop>,
    propColorTemp: Option<Prop>,
    propColor: Option<Prop>,
    propMode: Option<Prop>,
    brightnessScale: Option<Scale>,
    modeMap: Option<ModeMap>,
    effectList: Option<seq<string>>,
    supportsEffect: bool,
    colorTempKelvinRange: Option<Scale>,
    supportedColorModes: set<ColorMode>,
    colorMode: Option<ColorMode>)

  /** The state before the first descriptor is looked at. */
  const Init: Projection :=
    Projection(None, None, None, None, None, None, None, None, false, None, {}, None)

  // ---------------------------------------------------------------------
  // Decimal labels: f'mode {value}'

  function DigitChar(d: int): (c: char)
    requires 0 <= d < 10
    ensures '0' <= c <= '9'
  {
    (('0' as int) + d) as char
  }

  /** The decimal digits of n, most significant first. */
  function NatString(n: nat): (s: string)
    ensures |s| > 0 && (n >= 10 ==> |s| >= 2)
    ensures forall i :: 0 <= i < |s| ==> '0' <= s[i] <= '9'
  {
    if n < 10 then [DigitChar(n)] else NatString(n / 10) + [DigitChar(n % 10)]
  }

  /** str(v) for an integer v. */
  function IntString(v: int): string {
    if v < 0 then "-" + NatString(-v) else NatString(v)
  }

  /** The label a range-built mode map gives the raw value v. */
  function ModeLabel(v: int): string {
    "mode " + IntString(v)
  }

  /** Distinct numbers have distinct decimal strings. */
  lemma {:induction false} NatStringDistinct(a: nat, b: nat)
    requires a != b
    ensures NatString(a) != NatString(b)
  {
    var sa, sb := NatString(a), NatString(b);
    if a >= 10 && b >= 10 {
      if a % 10 == b % 10 {
        assert a / 10 != b / 10;
        NatStringDistinct(a / 10, b / 10);
        assert sa[..|sa| - 1] == NatString(a / 10) && sb[..|sb| - 1] == NatString(b / 10);
      } else {
        assert sa[|sa| - 1] == DigitChar(a % 10) && sb[|sb| - 1] == DigitChar(b % 10);
      }
    } else if a < 10 && b < 10 {
      assert sa[0] != sb[0];
    } else {
      assert |sa| != |sb|;
    }
  }

  /** Distinct raw values get distinct labels. */
  lemma ModeLabelInjective(a: int, b: int)
    ensures ModeLabel(a) == ModeLabel(b) <==> a == b
  {
    if a != b {
      var sa, sb := IntString(a), IntString(b);
      assert ModeLabel(a)[5..] == sa && ModeLabel(b)[5..] == sb;
      if a < 0 && b < 0 {
        assert sa[1..] == NatString(-a) && sb[1..] == NatString(-b);
        NatStringDistinct(-a, -b);
      } else if a >= 0 && b >= 0 {
        NatStringDistinct(a, b);
      } else {
        assert sa[0] != sb[0];
      }
    }
  }

  // ---------------------------------------------------------------------
  // Mode maps synthesised from a value range

  /** int(a / b) for a positive b: Python truncates the quotient toward zero. */
  function TruncDiv(a: int, b: PosInt): int {
    if a >= 0 then a / b else -((-a) / b)
  }

  /** {value: f'mode {value}' for value in range(lo, hi, step)}. */
  function RangeModes(lo: int, hi: int, step: PosInt): ModeMap
    decreases hi - lo
  {
    if lo >= hi then [] else [Entry(lo, ModeLabel(lo))] + RangeModes(lo + step, hi, step)
  }

  /** The i-th entry of a range-built map is lo + i * step, labelled
      "mode <lo + i * step>", and lies strictly below hi. */
  lemma RangeModesAt(lo: int, hi: int, step: PosInt, i: int)
    requires 0 <= i < |RangeModes(lo, hi, step)|
    ensures RangeModes(lo, hi, step)[i] == Entry(lo + i * step, ModeLabel(lo + i * step))
    ensures lo + i * step < hi
  {
    RangeModesKeyAt(lo, hi, step, i);
    RangeModesLabelled(lo, hi, step, i);
  }

  /** A non-empty range-built map starts with lo; the rest is built from lo + step. */
  lemma RangeModesUnfold(lo: int, hi: int, step: PosInt)
    requires lo < hi
    ensures RangeModes(lo, hi, step) == [Entry(lo, ModeLabel(lo))] + RangeModes(lo + step, hi, step)
  {
  }

  /** Past the first entry, entry i is entry i - 1 of the map built from lo + step. */
  lemma RangeModesTail(lo: int, hi: int, step: PosInt, i: int)
    requires 0 < i < |RangeModes(lo, hi, step)|
    ensures i - 1 < |RangeModes(lo + step, hi, step)|
    ensures RangeModes(lo, hi, step)[i] == RangeModes(lo + step, hi, step)[i - 1]
  {
  }

  lemma {:induction false} RangeModesKeyAt(lo: int, hi: int, step: PosInt, i: int)
    requires 0 <= i < |RangeModes(lo, hi, step)|
    ensures RangeModes(lo, hi, step)[i].key == lo + i * step < hi
    decreases hi - lo
  {
    if i > 0 {
      RangeModesTail(lo, hi, step, i);
      RangeModesKeyAt(lo + step, hi, step, i - 1);
      MulSucc(i - 1, step);
    }
  }

  lemma {:induction false} RangeModesLabelled(lo: int, hi: int, step: PosInt, i: int)
    requires 0 <= i < |RangeModes(lo, hi, step)|
    ensures RangeModes(lo, hi, step)[i].text == ModeLabel(RangeModes(lo, hi, step)[i].key)
    decreases hi - lo
  {
    if i > 0 {
      RangeModesTail(lo, hi, step, i);
      RangeModesLabelled(lo + step, hi, step, i - 1);
    }
  }

  /** The value after the last entry is not below hi: the map stops only
      when the progression reaches hi. */
  lemma {:induction false} RangeModesEnd(lo: int, hi: int, step: PosInt)
    ensures lo + |RangeModes(lo, hi, step)| * step >= hi
    decreases hi - lo
  {
    if lo < hi {
      var n := |RangeModes(lo + step, hi, step)|;
      RangeModesEnd(lo + step, hi, step);
      assert |RangeModes(lo, hi, step)| == n + 1;
      MulSucc(n, step);
    }
  }

  /** The entries of a range-built map are exactly lo, lo + step, ... strictly
      below hi, in that order, each labelled "mode <key>". */
  lemma RangeModesShape(lo: int, hi: int, step: PosInt)
    ensures var m := RangeModes(lo, hi, step);
            && (forall i :: 0 <= i < |m| ==> m[i] == Entry(lo + i * step, ModeLabel(lo + i * step)))
            && (forall i :: 0 <= i < |m| ==> m[i].key < hi)
            && lo + |m| * step >= hi
  {
    var m := RangeModes(lo, hi, step);
    forall i | 0 <= i < |m|
      ensures m[i] == Entry(lo + i * step, ModeLabel(lo + i * step)) && m[i].key < hi
    {
      RangeModesAt(lo, hi, step, i);
    }
    RangeModesEnd(lo, hi, step);
  }

  /** The keys of a range-built map lie in [lo, hi) and are distinct. */
  lemma {:induction false} RangeModesKeys(lo: int, hi: int, step: PosInt)
    ensures forall k :: k in Keys(RangeModes(lo, hi, step)) ==> lo <= k < hi
    ensures DistinctKeys(RangeModes(lo, hi, step))
    decreases hi - lo
  {
    if lo < hi {
      var m := RangeModes(lo, hi, step);
      RangeModesKeys(lo + step, hi, step);
      assert m[1..] == RangeModes(lo + step, hi, step);
    }
  }

  /** When the guard lets a range through, the map has at most 31 entries:
      the guard bounds the number of steps, not the number of values. */
  lemma RangeModesGuardBound(lo: int, hi: int, step: PosInt)
    requires TruncDiv(hi - lo, step) <= ValueRangeModeCountMax
    ensures |RangeModes(lo, hi, step)| <= ValueRangeModeCountMax + 1
  {
    if lo < hi {
      RangeModesLastBelow(lo, hi, step);
      StepsBound(hi - lo, |RangeModes(lo, hi, step)| - 1, step);
    }
  }

  /** The last entry of a non-empty range-built map lies below hi. */
  lemma {:induction false} RangeModesLastBelow(lo: int, hi: int, step: PosInt)
    requires lo < hi
    ensures (|RangeModes(lo, hi, step)| - 1) * step < hi - lo
    decreases hi - lo
  {
    var n := |RangeModes(lo + step, hi, step)|;
    assert |RangeModes(lo, hi, step)| == n + 1;
    if lo + step < hi {
      RangeModesLastBelow(lo + step, hi, step);
      MulSucc(n - 1, step);
    }
  }

  /** If int(d / step) <= 30 for a positive d, fewer than 31 steps fit below d. */
  lemma StepsBound(d: int, k: int, step: PosInt)
    requires d > 0 && TruncDiv(d, step) <= ValueRangeModeCountMax && k * step < d
    ensures k <= ValueRangeModeCountMax
  {
    DivBound(d, step);
    MulMonotone(d / step + 1, 31, step);
    MulCancel(k, 31, step);
  }

  lemma SeqAssoc<T>(a: seq<T>, b: seq<T>, c: seq<T>)
    ensures a + b + c == a + (b + c)
  {
  }

  /** (n + 1) * b == n * b + b */
  lemma MulSucc(n: int, b: int)
    ensures (n + 1) * b == n * b + b
  {
  }

  /** A non-negative d is below (d / b + 1) * b. */
  lemma DivBound(d: int, b: PosInt)
    requires d >= 0
    ensures d < (d / b + 1) * b
  {
    MulSucc(d / b, b);
  }

  lemma MulMonotone(x: int, y: int, b: PosInt)
    requires x <= y
    ensures x * b <= y * b
  {
  }

  lemma MulCancel(x: int, y: int, b: PosInt)
    requires x * b < y * b
    ensures x < y
  {
  }

  /** The bound is reached: range(0, 61, 2) passes the guard with 31 values. */
  lemma RangeModesGuardAdmits31()
    ensures TruncDiv(61 - 0, 2) <= ValueRangeModeCountMax
    ensures |RangeModes(0, 61, 2)| == ValueRangeModeCountMax + 1
  {
    var step: PosInt := 2;
    var n := |RangeModes(0, 61, step)|;
    RangeModesEnd(0, 61, step);
    assert n * step == 2 * n;
    RangeModesKeyAt(0, 61, step, n - 1);
    assert (n - 1) * step == 2 * n - 2;
  }

  /** Appending the entry for value to a prefix of the map leaves the map built from value + step to go. */
  lemma RangeModesAppend(m: ModeMap, value: int, hi: int, step: PosInt, whole: ModeMap)
    requires value < hi && m + RangeModes(value, hi, step) == whole
    ensures (m + [Entry(value, ModeLabel(value))]) + RangeModes(value + step, hi, step) == whole
  {
    RangeModesUnfold(value, hi, step);
    SeqAssoc(m, [Entry(value, ModeLabel(value))], RangeModes(value + step, hi, step));
  }

  /** The map for a range-built mode property, after the scan has built it. */
  method BuildRangeModes(r: ValueRange) returns (m: ModeMap)
    ensures m == RangeModes(r.min, r.max, r.step)
  {
    m := [];
    var value := r.min;
    while value < r.max
      invariant m + RangeModes(value, r.max, r.step) == RangeModes(r.min, r.max, r.step)
      decreases r.max - value
    {
      // the values rise strictly, so mode_list[value] = ... appends
      RangeModesAppend(m, value, r.max, r.step, RangeModes(r.min, r.max, r.step));
      m := m + [Entry(value, ModeLabel(value))];
      value := value + r.step;
    }
  }

  // ---------------------------------------------------------------------
  // The scan

  /** mode_list of a "mode" property: from its value list, else from its value
      range (empty when the range has too many steps), else none. */
  function ModeList(prop: Prop): Option<ModeMap> {
    if |prop.valueList| > 0 then Some(ToMap(prop.valueList))
    else if prop.valueRange.Some? then
      var r := prop.valueRange.value;
      if TruncDiv(r.max - r.min, r.step) > ValueRangeModeCountMax then Some([])
      else Some(RangeModes(r.min, r.max, r.step))
    else None
  }

  /** Record m as the mode map, its labels as the effect list, and prop as prop_mode. */
  function WithModes(p: Projection, m: ModeMap, prop: Prop): Projection {
    p.(modeMap := Some(m), effectList := Some(Labels(m)), supportsEffect := true, propMode := Some(prop))
  }

  /** What one descriptor contributes. */
  function Step(p: Projection, prop: Prop): Projection {
    match prop.name
    case On => p.(propOn := Some(prop))
    case Brightness =>
      if prop.valueRange.Some? then
        var r := prop.valueRange.value;
        p.(brightnessScale := Some((r.min, r.max)), propBrightness := Some(prop))
      else if p.modeMap.None? && |prop.valueList| > 0 then
        WithModes(p, ToMap(prop.valueList), prop)
      else p
    case ColorTemperature =>
      if prop.valueRange.None? then p
      else
        var r := prop.valueRange.value;
        p.(colorTempKelvinRange := Some((r.min, r.max)),
           supportedColorModes := p.supportedColorModes + {ColorTemp},
           colorMode := Some(ColorTemp),
           propColorTemp := Some(prop))
    case Color =>
      p.(supportedColorModes := p.supportedColorModes + {Rgb},
         colorMode := Some(Rgb),
         propColor := Some(prop))
    case Mode =>
      var ml := ModeList(prop);
      if ml.Some? && |ml.value| > 0 then WithModes(p, ml.value, prop) else p
    case Other(_) => p
  }

  /** The projection after the descriptors props have been scanned in order. */
  function Scan(props: seq<Prop>): Projection {
    if props == [] then Init else Step(Scan(props[..|props| - 1]), props[|props| - 1])
  }

  /** After the scan: with no colour-temperature and no RGB mode, a light with a
      range brightness supports brightness only, else one with an on-property
      supports on/off only. */
  function Finish(p: Projection): Projection {
    if p.supportedColorModes == {} then
      if p.propBrightness.Some? then p.(supportedColorModes := {BrightnessOnly}, colorMode := Some(BrightnessOnly))
      else if p.propOn.Some? then p.(supportedColorModes := {OnOff}, colorMode := Some(OnOff))
      else p
    else p
  }

  /** The projection a light constructed from props holds. */
  function ScanProps(props: seq<Prop>): Projection {
    Finish(Scan(props))
  }

  // ---------------------------------------------------------------------
  // What the scan guarantees

  /** The consistency the scan keeps between the fields. */
  predicate Coherent(p: Projection) {
    && (p.colorMode.None? <==> p.supportedColorModes == {})
    && (p.colorMode.Some? ==> p.colorMode.value in p.supportedColorModes)
    && (ColorTemp in p.supportedColorModes <==> p.propColorTemp.Some?)
    && (Rgb in p.supportedColorModes <==> p.propColor.Some?)
    && (p.propBrightness.Some? <==> p.brightnessScale.Some?)
    && (p.modeMap.Some? <==> p.supportsEffect)
    && (p.modeMap.Some? <==> p.propMode.Some?)
    && (p.modeMap.Some? <==> p.effectList.Some?)
    && (p.modeMap.Some? ==> |p.modeMap.value| > 0 && DistinctKeys(p.modeMap.value)
                            && p.effectList.value == Labels(p.modeMap.value))
  }

  /** The scan proper (before the fallback) only ever adds COLOR_TEMP and RGB. */
  predicate ScanCoherent(p: Projection) {
    Coherent(p) && p.supportedColorModes <= {ColorTemp, Rgb}
  }

  lemma StepKeepsCoherent(p: Projection, prop: Prop)
    requires ScanCoherent(p)
    ensures ScanCoherent(Step(p, prop))
  {
    match prop.name
    case Mode =>
      ModeListDistinct(prop);
      WithModesCoherent(p, prop);
    case Brightness =>
      if prop.valueRange.None? && p.modeMap.None? && |prop.valueList| > 0 {
        WithModesCoherent(p, prop);
      }
    case _ =>
  }

  /** Every mode list has distinct keys. */
  lemma ModeListDistinct(prop: Prop)
    ensures ModeList(prop).Some? ==> DistinctKeys(ModeList(prop).value)
  {
    if |prop.valueList| == 0 && prop.valueRange.Some? {
      var r := prop.valueRange.value;
      RangeModesKeys(r.min, r.max, r.step);
    }
  }

  /** Recording a non-empty map with distinct keys keeps the projection coherent. */
  lemma WithModesCoherent(p: Projection, prop: Prop)
    requires ScanCoherent(p)
    ensures forall m :: |m| > 0 && DistinctKeys(m) ==> ScanCoherent(WithModes(p, m, prop))
  {
  }

  /** Every prefix of the scan is coherent: an advertised effect capability
      always has a non-empty mode map behind it, and a current colour mode
      is one of the supported ones. */
  lemma {:induction false} ScanIsCoherent(props: seq<Prop>)
    ensures ScanCoherent(Scan(props))
  {
    if props != [] {
      ScanIsCoherent(props[..|props| - 1]);
      StepKeepsCoherent(Scan(props[..|props| - 1]), props[|props| - 1]);
    }
  }

  /** The finished projection is coherent, and it has a colour mode exactly
      when it supports one. */
  lemma ScanPropsIsCoherent(props: seq<Prop>)
    ensures Coherent(ScanProps(props))
    ensures ScanProps(props).supportedColorModes <= {ColorTemp, Rgb} || |ScanProps(props).supportedColorModes| == 1
  {
    ScanIsCoherent(props);
  }

  predicate IsOnProp(prop: Prop) { prop.name == On }
  predicate IsRangeBrightness(prop: Prop) { prop.name == Brightness && prop.valueRange.Some? }
  predicate IsRangeColorTemp(prop: Prop) { prop.name == ColorTemperature && prop.valueRange.Some? }
  predicate IsColorProp(prop: Prop) { prop.name == Color }

  /** The last descriptor in props that satisfies f. */
  function LastWhere(props: seq<Prop>, f: Prop -> bool): (r: Option<Prop>)
    ensures r.Some? <==> exists i :: 0 <= i < |props| && f(props[i])
    ensures r.Some? ==> f(r.value) && r.value in props
  {
    if props == [] then None
    else if f(props[|props| - 1]) then Some(props[|props| - 1])
    else
      var r := LastWhere(props[..|props| - 1], f);
      assert forall i :: 0 <= i < |props| - 1 ==> props[..|props| - 1][i] == props[i];
      r
  }

  /** Each role goes to the LAST descriptor that qualifies for it: a later
      on, brightness, colour-temperature or colour property replaces an
      earlier one. */
  lemma ScanPicksLast(props: seq<Prop>)
    ensures Scan(props).propOn == LastWhere(props, IsOnProp)
    ensures Scan(props).propBrightness == LastWhere(props, IsRangeBrightness)
    ensures Scan(props).propColorTemp == LastWhere(props, IsRangeColorTemp)
    ensures Scan(props).propColor == LastWhere(props, IsColorProp)
  {
    ScanPicksLastOn(props);
    ScanPicksLastBrightness(props);
    ScanPicksLastColorTemp(props);
    ScanPicksLastColor(props);
  }

  lemma {:induction false} ScanPicksLastOn(props: seq<Prop>)
    ensures Scan(props).propOn == LastWhere(props, IsOnProp)
  {
    if props != [] {
      ScanPicksLastOn(props[..|props| - 1]);
    }
  }

  lemma {:induction false} ScanPicksLastBrightness(props: seq<Prop>)
    ensures Scan(props).propBrightness == LastWhere(props, IsRangeBrightness)
  {
    if props != [] {
      ScanPicksLastBrightness(props[..|props| - 1]);
    }
  }

  lemma {:induction false} ScanPicksLastColorTemp(props: seq<Prop>)
    ensures Scan(props).propColorTemp == LastWhere(props, IsRangeColorTemp)
  {
    if props != [] {
      ScanPicksLastColorTemp(props[..|props| - 1]);
    }
  }

  lemma {:induction false} ScanPicksLastColor(props: seq<Prop>)
    ensures Scan(props).propColor == LastWhere(props, IsColorProp)
  {
    if props != [] {
      ScanPicksLastColor(props[..|props| - 1]);
    }
  }

  /** The supported colour modes after construction: COLOR_TEMP if some
      colour-temperature property has a value range, RGB if some colour
      property exists; with neither, BRIGHTNESS if some brightness has a
      value range, else ONOFF if some on-property exists, else none. */
  lemma SupportedColorModes(props: seq<Prop>)
    ensures var ct := exists i :: 0 <= i < |props| && IsRangeColorTemp(props[i]);
            var rgb := exists i :: 0 <= i < |props| && IsColorProp(props[i]);
            var bri := exists i :: 0 <= i < |props| && IsRangeBrightness(props[i]);
            var on := exists i :: 0 <= i < |props| && IsOnProp(props[i]);
            ScanProps(props).supportedColorModes ==
              if ct || rgb then (if ct then {ColorTemp} else {}) + (if rgb then {Rgb} else {})
              else if bri then {BrightnessOnly}
              else if on then {OnOff}
              else {}
  {
    ScanIsCoherent(props);
    ScanPicksLast(props);
    var p := Scan(props);
    assert p.supportedColorModes == (if p.propColorTemp.Some? then {ColorTemp} else {})
                                    + (if p.propColor.Some? then {Rgb} else {});
  }

  /** A "mode" property with a value range and no value list: the scan takes
      the range-built map exactly when the guard passes and the range is not
      empty; otherwise the property contributes nothing (no effect
      capability, no prop_mode). */
  lemma ModeFromRange(p: Projection, prop: Prop)
    requires prop.name == Mode && |prop.valueList| == 0 && prop.valueRange.Some?
    ensures var r := prop.valueRange.value;
            var passes := TruncDiv(r.max - r.min, r.step) <= ValueRangeModeCountMax && r.min < r.max;
            && (passes ==> Step(p, prop) == WithModes(p, RangeModes(r.min, r.max, r.step), prop))
            && (!passes ==> Step(p, prop) == p)
  {
  }

  /** Descriptors the scan skips: a colour temperature without a value range,
      a brightness with neither a range nor a value list, and a value-list
      brightness once a mode map is set. */
  lemma StepSkips(p: Projection, prop: Prop)
    ensures prop.name == ColorTemperature && prop.valueRange.None? ==> Step(p, prop) == p
    ensures prop.name == Brightness && prop.valueRange.None? && |prop.valueList| == 0 ==> Step(p, prop) == p
    ensures prop.name == Brightness && prop.valueRange.None? && p.modeMap.Some? ==> Step(p, prop) == p
  {
  }

  /** A value-list brightness seen first claims the mode map; a later "mode"
      property with a non-empty map takes it over. Seen the other way round,
      the brightness value list is ignored. */
  lemma ModePrecedence(p: Projection, bri: Prop, mode: Prop)
    requires bri.name == Brightness && bri.valueRange.None? && |bri.valueList| > 0
    requires p.modeMap.None?
    requires mode.name == Mode && ModeList(mode).Some? && |ModeList(mode).value| > 0
    ensures Step(p, bri).propMode == Some(bri) && Step(p, bri).modeMap == Some(ToMap(bri.valueList))
    ensures Step(Step(p, bri), mode).propMode == Some(mode)
    ensures Step(Step(p, bri), mode).modeMap == ModeList(mode)
    ensures Step(Step(p, mode), bri).propMode == Some(mode)
    ensures Step(Step(p, mode), bri).modeMap == ModeList(mode)
  {
  }

  /** Choosing the effect "mode <v>" of a range-built map finds the raw value v. */
  lemma RangeModeKeyOfLabel(lo: int, hi: int, step: PosInt, i: int)
    requires 0 <= i < |RangeModes(lo, hi, step)|
    ensures GetMapKey(Some(RangeModes(lo, hi, step)), ModeLabel(lo + i * step)) == Some(lo + i * step)
  {
    var m := RangeModes(lo, hi, step);
    var v := lo + i * step;
    RangeModesAt(lo, hi, step, i);
    var k := FirstKeyOf(m, ModeLabel(v));
    assert k.Some? by { assert m[i].text == ModeLabel(v); }
    var j :| 0 <= j < |m| && m[j] == Entry(k.value, ModeLabel(v));
    RangeModesAt(lo, hi, step, j);
    ModeLabelInjective(k.value, v);
  }
}
