/** The light entity: the roles, scale, mode map and colour modes its
    constructor scans out of the device's property descriptors, the
    attributes it reads from cached property values, and the writes it makes
    when turned on or off. Property writes and state publication are
    recorded, in order, in a log of commands. */
module LightEntity {
  import opened MiotSpec
  import opened LightProjection
  import opened LightValues
  import opened LightCommands
  import Select

  /** entity_registry.async_get_entity_id("select", DOMAIN, uniqueId): the
      registry maps a unique id to the entity id it registered. */
  function RegistryLookup(registry: map<string, string>, uniqueId: string): Option<string> {
    if uniqueId in registry then Some(registry[uniqueId]) else None
  }

  /** The state string of an entity in the state machine, if it has one. */
  function StateOf(states: map<string, string>, entityId: string): Option<string> {
    if entityId in states then Some(states[entityId]) else None
  }

  class Light {
    /** The device's id, as its device_info identifiers carry it. */
    const deviceId: string
    /** The host platform's value_to_brightness and brightness_to_value. */
    const valueToBrightness: Rescale
    const brightnessToValue: Rescale

    var propOn: Option<Prop>
    var propBrightness: Option<Prop>
    var propColorTemp: Option<Prop>
    var propColor: Option<Prop>
    var propMode: Option<Prop>
    var brightnessScale: Option<Scale>
    var modeMap: Option<ModeMap>
    var effectList: Option<seq<string>>
    var supportsEffect: bool
    var colorTempKelvinRange: Option<Scale>
    var supportedColorModes: set<ColorMode>
    var colorMode: Option<ColorMode>

    /** The last value each property reported, as the base entity caches it. */
    var cache: map<Prop, Value>
    /** The send-mode selector's entity id, once it has been found. */
    var commandSendModeEntityId: Option<string>
    /** Every command sent to the transport, oldest first. */
    var log: seq<Command>

    /** The fields the constructor scan fills in. */
    function Fields(): Projection
      reads this`propOn, this`propBrightness, this`propColorTemp, this`propColor, this`propMode
      reads this`brightnessScale, this`modeMap, this`effectList, this`supportsEffect
      reads this`colorTempKelvinRange, this`supportedColorModes, this`colorMode
    {
      Projection(propOn, propBrightness, propColorTemp, propColor, propMode, brightnessScale, modeMap,
                 effectList, supportsEffect, colorTempKelvinRange, supportedColorModes, colorMode)
    }

    /** Scans the descriptors in order, each one overriding what an earlier one
        of the same name set, then falls back to brightness-only or on/off
        when no colour mode was found. */
    constructor (deviceId: string, props: seq<Prop>, valueToBrightness: Rescale, brightnessToValue: Rescale)
      ensures Fields() == ScanProps(props)
      ensures this.deviceId == deviceId
      ensures this.valueToBrightness == valueToBrightness && this.brightnessToValue == brightnessToValue
      ensures cache == map[] && commandSendModeEntityId == None && log == []
    {
      this.deviceId := deviceId;
      this.valueToBrightness := valueToBrightness;
      this.brightnessToValue := brightnessToValue;
      propOn, propBrightness, propColorTemp, propColor, propMode := None, None, None, None, None;
      brightnessScale, modeMap, effectList := None, None, None;
      supportsEffect, colorTempKelvinRange := false, None;
      supportedColorModes, colorMode := {}, None;
      cache, commandSendModeEntityId, log := map[], None, [];
      new;
      var i := 0;
      while i < |props|
        invariant 0 <= i <= |props|
        invariant Fields() == Scan(props[..i])
        invariant cache == map[] && commandSendModeEntityId == None && log == []
      {
        assert props[..i + 1][..i] == props[..i];
        ScanProp(props[i]);
        i := i + 1;
      }
      assert props[..i] == props;
      if supportedColorModes == {} {
        if propBrightness.Some? {
          supportedColorModes := {BrightnessOnly};
          colorMode := Some(BrightnessOnly);
        } else if propOn.Some? {
          supportedColorModes := {OnOff};
          colorMode := Some(OnOff);
        }
      }
    }

    /** What the constructor does with one descriptor. */
    method ScanProp(prop: Prop)
      modifies this`propOn, this`propBrightness, this`propColorTemp, this`propColor, this`propMode
      modifies this`brightnessScale, this`modeMap, this`effectList, this`supportsEffect
      modifies this`colorTempKelvinRange, this`supportedColorModes, this`colorMode
      ensures Fields() == Step(old(Fields()), prop)
    {
      match prop.name {
        case On =>
          propOn := Some(prop);
        case Brightness =>
          if prop.valueRange.Some? {
            brightnessScale := Some((prop.valueRange.value.min, prop.valueRange.value.max));
            propBrightness := Some(prop);
          } else if modeMap.None? && |prop.valueList| > 0 {
            var m := ToMap(prop.valueList);
            modeMap := Some(m);
            effectList := Some(Labels(m));
            supportsEffect := true;
            propMode := Some(prop);
          }
        case ColorTemperature =>
          if prop.valueRange.Some? {
            colorTempKelvinRange := Some((prop.valueRange.value.min, prop.valueRange.value.max));
            supportedColorModes := supportedColorModes + {ColorTemp};
            colorMode := Some(ColorTemp);
            propColorTemp := Some(prop);
          }
        case Color =>
          supportedColorModes := supportedColorModes + {Rgb};
          colorMode := Some(Rgb);
          propColor := Some(prop);
        case Mode =>
          var modeList := ScanModeList(prop);
          if modeList.Some? && |modeList.value| > 0 {
            modeMap := modeList;
            effectList := Some(Labels(modeList.value));
            supportsEffect := true;
            propMode := Some(prop);
          }
        case Other(_) =>
      }
    }

    /** mode_list of a "mode" descriptor: its value list as a dict, else one
        label per step of its value range, or an empty dict when the range has
        too many steps, else none. */
    static method ScanModeList(prop: Prop) returns (modeList: Option<ModeMap>)
      ensures modeList == ModeList(prop)
    {
      modeList := None;
      if |prop.valueList| > 0 {
        modeList := Some(ToMap(prop.valueList));
      } else if prop.valueRange.Some? {
        var r := prop.valueRange.value;
        if TruncDiv(r.max - r.min, r.step) > ValueRangeModeCountMax {
          modeList := Some([]);
        } else {
          var m := BuildRangeModes(r);
          modeList := Some(m);
        }
      }
    }

    /** The base entity's value-changed callback: a property reported a new
        value, which replaces the cached one. */
    method Report(prop: Prop, v: Value)
      modifies this`cache
      ensures cache == old(cache)[prop := v]
    {
      cache := cache[prop := v];
    }

    /** get_prop_value: the cached value of a property the light has, if any. */
    function PropValue(prop: Option<Prop>): Option<Value>
      reads this`cache
    {
      if prop.Some? && prop.value in cache then Some(cache[prop.value]) else None
    }

    /** is_on: unknown without a cached on-value, else on exactly when the
        value is True or the integer 1. */
    function IsOn(): (r: Option<bool>)
      reads this`cache, this`propOn
      ensures r.None? <==> PropValue(propOn).None? || PropValue(propOn).value.VNone?
      ensures r == Some(true) <==> PropValue(propOn) in {Some(VInt(1)), Some(VBool(true))}
    {
      IsOnOf(PropValue(propOn))
    }

    /** brightness: the cached brightness value rescaled from the native range
        to 0..255, unknown without one. */
    function Brightness(): (r: Option<int>)
      reads this`cache, this`propBrightness, this`brightnessScale
      ensures r.None? <==> PropValue(propBrightness).None? || PropValue(propBrightness).value.VNone?
      ensures forall i :: PropValue(propBrightness) == Some(VInt(i)) ==> r == Some(valueToBrightness(brightnessScale, i))
    {
      var v := PropValue(propBrightness);
      if v.None? || v.value.VNone? then None
      else Some(valueToBrightness(brightnessScale, AsKey(v.value).value))
    }

    /** rgb_color: the cached packed colour split into its three bytes. */
    function RgbColor(): (r: Option<RgbColor>)
      reads this`cache, this`propColor
      ensures r.None? <==> PropValue(propColor).None? || PropValue(propColor).value.VNone?
      ensures forall c: RgbColor :: PropValue(propColor) == Some(VInt(Pack(c))) ==> r == Some(c)
    {
      forall c: RgbColor | PropValue(propColor) == Some(VInt(Pack(c))) ensures RgbOf(PropValue(propColor)) == Some(c) {
        RgbReadBack(c);
      }
      RgbOf(PropValue(propColor))
    }

    /** effect: the label the mode map gives the cached mode value. */
    function Effect(): (r: Option<string>)
      reads this`cache, this`propMode, this`modeMap
      ensures r.Some? ==> modeMap.Some? && r.value in Labels(modeMap.value)
      ensures modeMap.Some? && PropValue(propMode).Some? && AsKey(PropValue(propMode).value).Some? ==>
                r == Lookup(modeMap.value, AsKey(PropValue(propMode).value).value)
      ensures modeMap.None? || PropValue(propMode).None? || AsKey(PropValue(propMode).value).None? ==> r.None?
    {
      EffectOf(modeMap, PropValue(propMode))
    }

    /** async_turn_on. The send-mode selector is found once, through its
        unique id, and remembered; without it nothing is written. Otherwise
        the selector's state picks the strategy, and the commands and colour
        mode are those the strategy prescribes for the request, the brightness
        before the call and the scanned fields. */
    method TurnOn(req: Request, registry: map<string, string>, states: map<string, string>)
      modifies this`log, this`colorMode, this`commandSendModeEntityId
      ensures old(commandSendModeEntityId).Some? ==> commandSendModeEntityId == old(commandSendModeEntityId)
      ensures old(commandSendModeEntityId).None? ==>
                commandSendModeEntityId == RegistryLookup(registry, Select.SendModeEntityId(deviceId))
      ensures commandSendModeEntityId.None? ==> log == old(log) && colorMode == old(colorMode)
      ensures commandSendModeEntityId.Some? ==>
                && log == old(log) + TurnOnCommands(StrategyOf(StateOf(states, commandSendModeEntityId.value)),
                                                    req, old(Brightness()), old(Fields()), brightnessToValue)
                && colorMode == TurnOnColorMode(req, old(colorMode))
    {
      ghost var p, b0 := Fields(), Brightness();
      if commandSendModeEntityId.None? {
        commandSendModeEntityId := RegistryLookup(registry, Select.SendModeEntityId(deviceId));
      }
      if commandSendModeEntityId.None? {
        return;
      }
      var commandSendMode := StateOf(states, commandSendModeEntityId.value);

      var sendBrightnessFirst := false;
      if req.brightness.Some? {
        var brightnessOld := Brightness();
        if brightnessOld.Some? && brightnessOld.value != 0 && req.brightness.value <= brightnessOld.value {
          sendBrightnessFirst := true;
        }
      }
      assert sendBrightnessFirst == BrightnessFirst(req, b0);

      if commandSendMode == Some(Select.SendTogether) {
        SendTogether(req, sendBrightnessFirst, b0);
      } else if commandSendMode == Some(Select.SendTurnOnFirst) {
        SendTurnOnFirst(req, sendBrightnessFirst, b0);
      } else {
        SendOneByOne(req, b0);
      }
    }

    /** "Send Together": the shared batch with the on-write last, written as
        one batch, then the state published. */
    method SendTogether(req: Request, sendBrightnessFirst: bool, ghost oldBrightness: Option<int>)
      requires sendBrightnessFirst == BrightnessFirst(req, oldBrightness)
      modifies this`log, this`colorMode
      ensures log == old(log) + TurnOnCommands(Together, req, oldBrightness, old(Fields()), brightnessToValue)
      ensures colorMode == TurnOnColorMode(req, old(colorMode))
    {
      var batch := SendBody(req, sendBrightnessFirst);
      if propOn.Some? {
        batch := batch + [Write(OnRole, OnValue(propOn.value.format))];
      } else {
        assert batch + OnWrites(propOn) == batch;
      }
      ghost var log0 := log;
      log := log + [Batch(batch, false)];
      log := log + [Publish];
      assert log == log0 + [Batch(batch, false), Publish];
    }

    /** "Send Turn On First": the on-write first, then the shared batch,
        written as one batch, then the state published. */
    method SendTurnOnFirst(req: Request, sendBrightnessFirst: bool, ghost oldBrightness: Option<int>)
      requires sendBrightnessFirst == BrightnessFirst(req, oldBrightness)
      modifies this`log, this`colorMode
      ensures log == old(log) + TurnOnCommands(TurnOnFirst, req, oldBrightness, old(Fields()), brightnessToValue)
      ensures colorMode == TurnOnColorMode(req, old(colorMode))
    {
      var batch: seq<Write> := [];
      if propOn.Some? {
        batch := batch + [Write(OnRole, OnValue(propOn.value.format))];
      }
      assert batch == OnWrites(propOn);
      var body := SendBody(req, sendBrightnessFirst);
      batch := batch + body;
      ghost var log0 := log;
      log := log + [Batch(batch, false)];
      log := log + [Publish];
      assert log == log0 + [Batch(batch, false), Publish];
    }

    /** The part of a batch the two batch strategies share: the effect, the
        brightness when it goes first, colour temperature, colour, the
        brightness otherwise. Requesting a colour temperature or a colour sets
        the colour mode, the colour last. */
    method SendBody(req: Request, sendBrightnessFirst: bool) returns (batch: seq<Write>)
      modifies this`colorMode
      ensures batch == BatchBody(req, sendBrightnessFirst, brightnessScale, modeMap, brightnessToValue)
      ensures colorMode == TurnOnColorMode(req, old(colorMode))
    {
      batch := [];
      if req.effect.Some? {
        batch := batch + [Write(ModeRole, KeyValue(GetMapKey(modeMap, req.effect.value)))];
      }
      if sendBrightnessFirst && req.brightness.Some? {
        batch := batch + [Write(BrightnessRole, VInt(brightnessToValue(brightnessScale, req.brightness.value)))];
      }
      if req.colorTempKelvin.Some? {
        batch := batch + [Write(ColorTempRole, VInt(req.colorTempKelvin.value))];
        colorMode := Some(ColorTemp);
      }
      if req.rgbColor.Some? {
        var rgb := Pack(req.rgbColor.value);
        batch := batch + [Write(ColorRole, VInt(rgb))];
        colorMode := Some(Rgb);
      }
      if !sendBrightnessFirst && req.brightness.Some? {
        batch := batch + [Write(BrightnessRole, VInt(brightnessToValue(brightnessScale, req.brightness.value)))];
      }
    }

    /** The one-at-a-time strategy: the on-write publishes, the others do not,
        and the state is published at the end. */
    method SendOneByOne(req: Request, ghost oldBrightness: Option<int>)
      modifies this`log, this`colorMode
      ensures log == old(log) + TurnOnCommands(OneByOne, req, oldBrightness, old(Fields()), brightnessToValue)
      ensures colorMode == TurnOnColorMode(req, old(colorMode))
    {
      OneByOneShape(req, oldBrightness, Fields(), brightnessToValue);
      ghost var log0, on := log, OnCommands(propOn);
      if propOn.Some? {
        log := log + [Single(Write(OnRole, OnValue(propOn.value.format)), true)];
      }
      assert log == log0 + on;
      SendSingles(req);
      log := log + [Publish];
      AppendAssoc(log0, on, Singles(BrightnessWrites(req, brightnessScale, brightnessToValue) + ColorTempWrites(req)
                                    + RgbWrites(req) + EffectWrites(req, modeMap)), [Publish]);
    }

    /** The writes after the on-write, each sent on its own without publishing:
        brightness, colour temperature, colour, effect. */
    method SendSingles(req: Request)
      modifies this`log, this`colorMode
      ensures log == old(log) + Singles(BrightnessWrites(req, brightnessScale, brightnessToValue) + ColorTempWrites(req)
                                        + RgbWrites(req) + EffectWrites(req, modeMap))
      ensures colorMode == TurnOnColorMode(req, old(colorMode))
    {
      ghost var start := log;
      ghost var sent: seq<Write> := [];
      assert log == start + Singles(sent);
      if req.brightness.Some? {
        var brightness := brightnessToValue(brightnessScale, req.brightness.value);
        var w := Write(BrightnessRole, VInt(brightness));
        SinglesStep(log, start, sent, w);
        log := log + [Single(w, false)];
        sent := sent + [w];
      }
      assert sent == BrightnessWrites(req, brightnessScale, brightnessToValue);
      ghost var s1 := sent;
      if req.colorTempKelvin.Some? {
        var w := Write(ColorTempRole, VInt(req.colorTempKelvin.value));
        SinglesStep(log, start, sent, w);
        log := log + [Single(w, false)];
        sent := sent + [w];
        colorMode := Some(ColorTemp);
      }
      assert sent == s1 + ColorTempWrites(req);
      ghost var s2 := sent;
      if req.rgbColor.Some? {
        var rgb := Pack(req.rgbColor.value);
        var w := Write(ColorRole, VInt(rgb));
        SinglesStep(log, start, sent, w);
        log := log + [Single(w, false)];
        sent := sent + [w];
        colorMode := Some(Rgb);
      }
      assert sent == s2 + RgbWrites(req);
      ghost var s3 := sent;
      if req.effect.Some? {
        var w := Write(ModeRole, KeyValue(GetMapKey(modeMap, req.effect.value)));
        SinglesStep(log, start, sent, w);
        log := log + [Single(w, false)];
        sent := sent + [w];
      }
      assert sent == s3 + EffectWrites(req, modeMap);
    }

    /** async_turn_off: without an on-property nothing is written; otherwise
        the off-sentinel is written once, and that write publishes. */
    method TurnOff()
      modifies this`log
      ensures log == old(log) + TurnOffCommands(Fields())
    {
      if propOn.None? {
        return;
      }
      var valueOn := OffValue(propOn.value.format);
      log := log + [Single(Write(OnRole, valueOn), true)];
    }
  }
}
