# Xiaomi Home light and command-send-mode selector, modelled in Dafny

This project models two pieces of the Xiaomi Home integration for Home
Assistant.

The first is the light entity (`light.py`):

- its constructor scans the device's MIoT property descriptors (`on`,
  `brightness`, `color-temperature`, `color`, `mode`) into a projection:
  the property serving each role, the brightness scale, the raw-value to
  label `mode_map` with its effect list, and the supported colour modes;
- its read accessors `is_on`, `brightness`, `rgb_color` and `effect` decode
  cached raw values;
- `async_turn_on` turns the requested attributes into property writes,
  ordered by one of three strategies, "Send Together", "Send Turn On First"
  and "Send One by One" (the fallback), together with the "brightness first
  when dimming" rule;
- `async_turn_off` writes the off-sentinel.

The second is the `LightCommandSendMode` selector (`select.py`), a
three-state, user-settable, restorable choice that names the strategy.

Modules:

- `MiotSpec` (`miot_spec.dfy`) holds property descriptors and raw values.
  It models a Python dict as an association list in insertion order, and
  gives the inherited `get_map_value` / `get_map_key` lookups.
- `LightProjection` (`light_projection.dfy`) states the constructor scan as
  a fold of `Step` over the descriptors followed by the colour-mode fallback
  `Finish`. It also holds the range-built mode maps and their
  `"mode <value>"` labels.
- `LightValues` (`light_values.dfy`) holds the on/off sentinels, `is_on`,
  24-bit RGB packing and `effect`.
- `LightCommands` (`light_commands.dfy`) states, as functions, the commands
  each strategy issues. Its lemmas prove the order, multiplicity and
  read-back properties of those commands.
- `LightEntity` (`light.dfy`) is the `Light` class. Its fields are the
  scanned projection, the value cache, the cached selector id and a log of
  transport commands. Its constructor loops over the descriptors. Its
  `TurnOn` and `TurnOff` methods append to the log and are proved against
  the `LightCommands` functions.
- `Select` (`select.dfy`) is the `LightCommandSendMode` class, plus a replay
  of selector events that proves the current option always stays listed.

The transport is a log of `Command`s:

- `Single(write, publish)` is `set_property_async`;
- `Batch(writes, publish)` is `set_properties_async`;
- `Publish` is `async_write_ha_state`.

Each write carries the role of the property it goes to.

Behaviour the model follows from the code:

- When several descriptors qualify for the same role, the LAST one wins,
  because each assignment in the scan loop overwrites the previous one
  (`ScanPicksLast`).
- The range guard `int((max - min) / step) > 30` bounds the number of steps,
  not the number of values. A range that passes can therefore yield 31
  modes (`RangeModesGuardBound`, `RangeModesGuardAdmits31`).

## Model

| member | source | states |
|---|---|---|
| MiotSpec.ToMap | custom_components/xiaomi_home/light.py:176 | `value_list.to_map()` has distinct keys, exactly the listed values, and each key maps to the description of its last occurrence; a non-empty list gives a non-empty map |
| MiotSpec.GetMapValue | custom_components/xiaomi_home/light.py:248-250 | a label is returned only when the map holds that (key, label) entry, and is returned whenever the key is in the map |
| MiotSpec.FirstKeyOf | custom_components/xiaomi_home/light.py:292-293 | the key returned is that of the first entry carrying the label; none is returned exactly when no entry carries it |
| MiotSpec.KeyThenValue | custom_components/xiaomi_home/light.py:292-293 | for a label in the map, looking up the key `get_map_key` finds gives the label back |
| LightProjection.ModeLabelInjective | custom_components/xiaomi_home/light.py:194 | `f'mode {value}'` labels distinct raw values differently, in both directions |
| LightProjection.RangeModesShape | custom_components/xiaomi_home/light.py:190-194 | a range-built map's i-th entry is `min + i*step` labelled `mode <min + i*step>`, every key is below `max`, and the next step would reach `max` |
| LightProjection.RangeModesKeys | custom_components/xiaomi_home/light.py:190-194 | a range-built map's keys lie in `[min, max)` and are distinct |
| LightProjection.BuildRangeModes | custom_components/xiaomi_home/light.py:190-194 | the `for value in range(...)` loop builds exactly the range-built map |
| LightProjection.RangeModesGuardBound | custom_components/xiaomi_home/light.py:179-194 | a range that passes the guard yields at most 31 modes |
| LightProjection.RangeModesGuardAdmits31 | custom_components/xiaomi_home/light.py:179-194 | `range(0, 61, 2)` passes the guard and yields 31 modes, so the bound is reached |
| LightProjection.ModeFromRange | custom_components/xiaomi_home/light.py:173-202 | a range-only `mode` property sets the range-built map, effect list, effect capability and `prop_mode` exactly when the guard passes and the range is non-empty; otherwise it changes nothing |
| LightProjection.StepSkips | custom_components/xiaomi_home/light.py:137-166 | a colour temperature without a range, a brightness with neither range nor value list, and a value-list brightness once a mode map is set contribute nothing |
| LightProjection.ModePrecedence | custom_components/xiaomi_home/light.py:142-199 | a value-list brightness claims an unset mode map; a later non-empty `mode` map overrides it; a brightness seen after a mode map is ignored |
| LightProjection.StepKeepsCoherent | custom_components/xiaomi_home/light.py:132-202 | one scan step preserves the coherence of the projection |
| LightProjection.ScanIsCoherent | custom_components/xiaomi_home/light.py:132-202 | after any prefix of the scan: a colour mode is set exactly when one is supported and is one of them; COLOR_TEMP / RGB are supported exactly when their property is set; effect capability, `prop_mode`, effect list and a non-empty distinct-keyed mode map go together |
| LightProjection.ScanPropsIsCoherent | custom_components/xiaomi_home/light.py:132-210 | the finished projection is coherent, and after the fallback it supports either only COLOR_TEMP/RGB modes or exactly one mode |
| LightProjection.ScanPicksLast | custom_components/xiaomi_home/light.py:132-171 | `prop_on`, `prop_brightness`, `prop_color_temp` and `prop_color` are the last qualifying descriptor for their role |
| LightProjection.SupportedColorModes | custom_components/xiaomi_home/light.py:156-210 | the supported colour modes are COLOR_TEMP and/or RGB when such properties exist; otherwise {BRIGHTNESS} with a range brightness, else {ONOFF} with an on-property, else none |
| LightProjection.RangeModeKeyOfLabel | custom_components/xiaomi_home/light.py:190-194 | choosing the effect `mode <v>` of a range-built map finds the raw value v |
| LightValues.IsOnOf | custom_components/xiaomi_home/light.py:212-219 | `is_on` is unknown exactly without a cached value, and on exactly when the cached value is True or the integer 1 |
| LightValues.SentinelsReadBack | custom_components/xiaomi_home/light.py:437 | the on-sentinel reads back as on and the off-sentinel as off; both are booleans exactly for a bool-format property |
| LightValues.Pack | custom_components/xiaomi_home/light.py:312-315 | `(r << 16) \| (g << 8) \| b` of three bytes is a 24-bit value |
| LightValues.UnpackPack | custom_components/xiaomi_home/light.py:240-243 | unpacking a packed colour gives the three bytes back |
| LightValues.PackUnpack | custom_components/xiaomi_home/light.py:240-243 | packing the unpacked components of a 24-bit value gives the value back |
| LightValues.RgbOf | custom_components/xiaomi_home/light.py:234-243 | `rgb_color` is unknown exactly without a cached value |
| LightValues.RgbReadBack | custom_components/xiaomi_home/light.py:234-243 | a colour written as its packed value reads back as that colour |
| LightValues.EffectOf | custom_components/xiaomi_home/light.py:245-250 | with a mode map and a cached integer (or bool) value, the effect is the label stored under that key, and unknown when the key is absent; without a mode map, a cached value or an integer value it is unknown; a reported effect is always one of the map's labels |
| LightCommands.StrategyOfOptions | custom_components/xiaomi_home/light.py:286-394 | the three selector options name three different strategies; the default option and a missing state both mean one write at a time |
| LightCommands.KeyValue | custom_components/xiaomi_home/light.py:289-294 | the value written for an effect reads back as a mode-map key exactly when `get_map_key` found one, and then as that key |
| LightCommands.TurnOnColorMode | custom_components/xiaomi_home/light.py:304-320 | the colour mode ends RGB if a colour was requested, else COLOR_TEMP if a colour temperature was, else unchanged |
| LightCommands.TurnOnWritesSame | custom_components/xiaomi_home/light.py:286-430 | every strategy makes the same multiset of writes; only the order differs |
| LightCommands.TurnOnWritesEachOnce | custom_components/xiaomi_home/light.py:286-430 | under every strategy a role is written exactly when it is requested (the on-role when there is an on-property), and never twice, so a requested brightness appears exactly once |
| LightCommands.TurnOnWritesRanked | custom_components/xiaomi_home/light.py:286-430 | each strategy's writes are strictly ordered by that strategy's role ranking |
| LightCommands.TogetherOrder | custom_components/xiaomi_home/light.py:286-337 | "Send Together" sends one non-publishing batch and then publishes: effect first, on last, colour temperature before colour, brightness before them when it goes first and after them otherwise |
| LightCommands.TurnOnFirstOrder | custom_components/xiaomi_home/light.py:339-392 | "Send Turn On First" sends one non-publishing batch and then publishes: on first, then effect, colour temperature before colour, brightness placed as the rule says |
| LightCommands.OneByOneOrder | custom_components/xiaomi_home/light.py:394-430 | one-by-one sends one command per write, on, brightness, colour temperature, colour, effect in that order; only the on-write publishes, the state is published last, and the old brightness plays no part |
| LightCommands.TogetherDimmingScenario | custom_components/xiaomi_home/light.py:278-337 | dimming with an effect and a colour temperature under "Send Together" writes effect, brightness, colour temperature, on |
| LightCommands.OneByOneBrighteningScenario | custom_components/xiaomi_home/light.py:394-430 | brightening under the default strategy writes on (publishing), then brightness, then publishes |
| LightCommands.OnOffWritesReadBack | custom_components/xiaomi_home/light.py:432-438 | every on-write reads back as on; a turn-off makes exactly one write, an on-role write that reads back as off, when there is an on-property, and none otherwise |
| LightEntity.Light.constructor | custom_components/xiaomi_home/light.py:109-210 | the fields after construction are the scan of the descriptors followed by the colour-mode fallback; the cache and the log are empty and no selector id is known |
| LightEntity.Light.ScanProp | custom_components/xiaomi_home/light.py:133-202 | one loop iteration changes the fields exactly as one scan step |
| LightEntity.Light.ScanModeList | custom_components/xiaomi_home/light.py:173-194 | computes `mode_list` of a `mode` descriptor: its value-list map, else the range-built map or an empty map when the guard refuses, else none |
| LightEntity.Light.IsOn | custom_components/xiaomi_home/light.py:212-219 | the light is on exactly when the cached on-value is True or 1, and unknown without a cached value |
| LightEntity.Light.Brightness | custom_components/xiaomi_home/light.py:221-227 | brightness is unknown exactly without a cached brightness value, and for every cached integer it is that integer rescaled by `value_to_brightness` with the light's brightness scale |
| LightEntity.Light.RgbColor | custom_components/xiaomi_home/light.py:234-243 | a cached packed colour reads as that colour; unknown exactly without a cached value |
| LightEntity.Light.Effect | custom_components/xiaomi_home/light.py:245-250 | the effect is the mode-map label stored under the cached mode value, unknown when the light has no mode map, no cached mode value or a non-integer one; a reported effect is a label of the light's mode map |
| LightEntity.Light.TurnOn | custom_components/xiaomi_home/light.py:252-430 | the selector id is looked up once and then kept; without it nothing is written and the colour mode is unchanged; otherwise the log grows by the commands of the strategy the selector's state names, with the brightness-first rule taken from the brightness before the call, and the colour mode ends RGB if a colour was requested, else COLOR_TEMP if a temperature was, else unchanged |
| LightEntity.Light.SendTogether | custom_components/xiaomi_home/light.py:286-337 | appends exactly the "Send Together" commands |
| LightEntity.Light.SendTurnOnFirst | custom_components/xiaomi_home/light.py:339-392 | appends exactly the "Send Turn On First" commands |
| LightEntity.Light.SendBody | custom_components/xiaomi_home/light.py:288-328 | builds the batch shared by both batch strategies and sets the colour mode as requested |
| LightEntity.Light.SendOneByOne | custom_components/xiaomi_home/light.py:394-430 | appends exactly the one-by-one commands |
| LightEntity.Light.SendSingles | custom_components/xiaomi_home/light.py:399-429 | appends one non-publishing command per requested write, in the order brightness, colour temperature, colour, effect |
| LightEntity.Light.TurnOff | custom_components/xiaomi_home/light.py:432-438 | appends nothing without an on-property, else the single publishing off-write |
| Select.SendModeEntityIdInjective | custom_components/xiaomi_home/select.py:122-123 | different devices get different selector ids, in both directions |
| Select.Apply | custom_components/xiaomi_home/select.py:131-140 | a listed selection or a listed restored state becomes current; an unlisted selection, an unlisted restored state or a missing one leaves the option unchanged |
| Select.ReplayStaysListed | custom_components/xiaomi_home/select.py:128-140 | after construction and any sequence of selections and restores, the current option is one of the three listed options |
| Select.RestoreExamples | custom_components/xiaomi_home/select.py:136-140 | a restored listed option is kept; an unlisted or missing last state leaves the default |
| Select.LightCommandSendMode.constructor | custom_components/xiaomi_home/select.py:117-129 | the options are the three listed strings, the current option is "Send One by One", and entity id and unique id are both `select.light_<device_id>_command_send_mode` |
| Select.LightCommandSendMode.SelectOption | custom_components/xiaomi_home/select.py:131-134 | a listed option becomes current and is published once; an unlisted one changes nothing and publishes nothing |
| Select.LightCommandSendMode.AddedToHass | custom_components/xiaomi_home/select.py:136-140 | a listed last state becomes current; a missing or unlisted one leaves the option unchanged |
| Select.LightCommandSendMode.CurrentOption | custom_components/xiaomi_home/select.py:142-144 | the current option is always one of the three listed options |

## Left out

- `async_setup_entry` in both files: entity enumeration and registration are host plumbing.
- The entity registry and `hass.states`: they are parameters of `TurnOn`, as maps from unique id to entity id (`RegistryLookup`) and from entity id to state string (`StateOf`).
- `set_property_async`, `set_properties_async` and `async_write_ha_state`: they are appends to the command log. Transport failures, retries, exceptions and async scheduling are not modelled.
- A write to a property the light does not have (`prop=None` in the source): it is logged by role like any other write. What the transport does with it is not part of this model.
- The cache update of the base entity on device reports: it is the `Report` method. Subscription and the device connection are not part of this model.
- `value_to_brightness` and `brightness_to_value`: these host library functions round through floats. They are opaque function parameters of the light, and no round-trip is claimed.
- LightEntity.Light.Brightness: states the value through the opaque rescaler only; nothing is claimed about the rescaling itself, because `value_to_brightness` is a host library function.
- Cached values that are floats or strings: raw values are booleans, integers or None.
- `color_temp_kelvin`: a pass-through of the cached colour-temperature value.
- The generic `Select` entity, logging, icons, group detection, entity category and `device_info` metadata.
- Value ranges with a non-positive step: the step is positive by type.
- Floating-point value ranges: bounds and step are integers, and the guard `int((max - min) / step)` is modelled as exact integer division truncated toward zero (`TruncDiv`). The source divides in floating point, and `range()` refuses float bounds; for huge integer ranges the float quotient can round up where exact division does not (step 2^60 and max - min = 31 * 2^60 - 1: the float quotient is 31.0 and the source refuses, while the model admits 31 modes).
