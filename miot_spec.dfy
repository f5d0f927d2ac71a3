/** The slice of the MIoT device-specification model that the light and
    select entities consume: raw values, property descriptors with their
    optional value range and value list, and the value-list dictionary
    together with the two inherited dictionary lookups
    (get_map_value and get_map_key of the base entity). */
module MiotSpec {

  datatype Option<+T> = None | Some(value: T)

  /** A raw property value as the device reports it and the entity caches it.
      VNone is Python's None (a lookup that found nothing). */
  datatype Value = VBool(b: bool) | VInt(i: int) | VNone

  /** The declared value format of a property. The light only asks whether it is bool. */
  datatype Format = FormatBool | FormatInt | FormatFloat | FormatString

  /** The semantic property names the light looks at; every other name is Other. */
  datatype PropName = On | Brightness | ColorTemperature | Color | Mode | Other(name: string)

  type PosInt = x: int | x > 0 witness 1

  /** A numeric value range; the step is positive. */
  datatype ValueRange = ValueRange(min: int, max: int, step: PosInt)

  datatype ValueListItem = ValueListItem(value: int, description: string)

  /** A property descriptor. siid/piid identify the property inside the device.
      An empty value list stands for "no value list" (it is falsy). */
  datatype Prop = Prop(siid: int, piid: int, name: PropName, format: Format,
                       valueRange: Option<ValueRange>, valueList: seq<ValueListItem>)

  /** One entry of a dictionary from raw value to its label text. */
  datatype Entry = Entry(key: int, text: string)

  /** A Python dict from raw value to label: entries in insertion order, keys distinct. */
  type ModeMap = seq<Entry>

  /** The keys of a dict. */
  function Keys(m: ModeMap): set<int> {
    if m == [] then {} else {m[0].key} + Keys(m[1..])
  }

  /** No key occurs twice. */
  predicate DistinctKeys(m: ModeMap) {
    m == [] || (m[0].key !in Keys(m[1..]) && DistinctKeys(m[1..]))
  }

  /** The labels in insertion order: list(mode_map.values()). */
  function Labels(m: ModeMap): seq<string> {
    seq(|m|, i requires 0 <= i < |m| => m[i].text)
  }

  /** The label stored under key k, if any. */
  function Lookup(m: ModeMap, k: int): (r: Option<string>)
    ensures r.Some? <==> k in Keys(m)
    ensures r.Some? ==> Entry(k, r.value) in m
  {
    if m == [] then None
    else if m[0].key == k then Some(m[0].text)
    else Lookup(m[1..], k)
  }

  /** In a dict with distinct keys, every entry is what its key looks up. */
  lemma {:induction false} LookupEntry(m: ModeMap, i: int)
    requires DistinctKeys(m) && 0 <= i < |m|
    ensures Lookup(m, m[i].key) == Some(m[i].text)
  {
    if i > 0 {
      assert m[i] == m[1..][i - 1];
      LookupEntry(m[1..], i - 1);
      KeysHaveEntries(m[1..], i - 1);
    }
  }

  /** Every entry's key is among the keys. */
  lemma {:induction false} KeysHaveEntries(m: ModeMap, i: int)
    requires 0 <= i < |m|
    ensures m[i].key in Keys(m)
  {
    if i > 0 {
      assert m[i] == m[1..][i - 1];
      KeysHaveEntries(m[1..], i - 1);
    }
  }

  /** d[k] = v on a dict: an existing key keeps its place and takes the new
      value, a new key goes to the end. */
  function Put(m: ModeMap, k: int, v: string): (r: ModeMap)
    requires DistinctKeys(m)
    ensures DistinctKeys(r)
    ensures Keys(r) == Keys(m) + {k}
    ensures k !in Keys(m) ==> r == m + [Entry(k, v)]
  {
    if m == [] then [Entry(k, v)]
    else if m[0].key == k then
      var r := [Entry(k, v)] + m[1..];
      assert r[1..] == m[1..];
      r
    else
      var rest := Put(m[1..], k, v);
      var r := [m[0]] + rest;
      assert r[1..] == rest;
      assert k !in Keys(m) ==> rest == m[1..] + [Entry(k, v)];
      assert k !in Keys(m) ==> r == m + [Entry(k, v)];
      r
  }

  /** After d[k] = v, k looks up v and every other key what it looked up before. */
  lemma {:induction false} PutLookup(m: ModeMap, k: int, v: string, k': int)
    requires DistinctKeys(m)
    ensures Lookup(Put(m, k, v), k') == if k' == k then Some(v) else Lookup(m, k')
  {
    if m != [] && m[0].key != k {
      var r := Put(m, k, v);
      assert r[1..] == Put(m[1..], k, v);
      PutLookup(m[1..], k, v, k');
    }
  }

  /** The set of values a value list carries. */
  function ItemValues(items: seq<ValueListItem>): set<int> {
    if items == [] then {} else ItemValues(items[..|items| - 1]) + {items[|items| - 1].value}
  }

  /** value_list.to_map(): {item.value: item.description for item in items}.
      A repeated value keeps its first position and takes its last description. */
  function ToMap(items: seq<ValueListItem>): (m: ModeMap)
    ensures DistinctKeys(m)
    ensures Keys(m) == ItemValues(items)
    ensures |items| > 0 ==> |m| > 0
    ensures forall k :: Lookup(m, k) == LastDescription(items, k)
  {
    if items == [] then []
    else
      var last := items[|items| - 1];
      var m := Put(ToMap(items[..|items| - 1]), last.value, last.description);
      assert forall k :: Lookup(m, k) == LastDescription(items, k) by {
        forall k ensures Lookup(m, k) == LastDescription(items, k) {
          PutLookup(ToMap(items[..|items| - 1]), last.value, last.description, k);
        }
      }
      m
  }

  /** The description of the last item carrying value k. */
  function LastDescription(items: seq<ValueListItem>, k: int): Option<string> {
    if items == [] then None
    else if items[|items| - 1].value == k then Some(items[|items| - 1].description)
    else LastDescription(items[..|items| - 1], k)
  }

  /** The integer a raw value hashes to as a dict key: Python's True and False
      are the keys 1 and 0. None is never a key of these dicts. */
  function AsKey(v: Value): Option<int> {
    match v
    case VBool(b) => Some(if b then 1 else 0)
    case VInt(i) => Some(i)
    case VNone => None
  }

  /** get_map_value(map_, key): None for a missing map or key, else map_[key]. */
  function GetMapValue(m: Option<ModeMap>, key: Option<Value>): (r: Option<string>)
    ensures r.Some? ==> m.Some? && key.Some? && AsKey(key.value).Some?
                        && Entry(AsKey(key.value).value, r.value) in m.value
    ensures m.Some? && key.Some? && AsKey(key.value).Some? && AsKey(key.value).value in Keys(m.value)
            ==> r.Some?
  {
    if m.None? || key.None? then None
    else match AsKey(key.value)
      case None => None
      case Some(k) => Lookup(m.value, k)
  }

  /** The key of the first entry of m labelled text, in insertion order. */
  function FirstKeyOf(m: ModeMap, text: string): (r: Option<int>)
    ensures r.None? <==> forall i :: 0 <= i < |m| ==> m[i].text != text
    ensures r.Some? ==> exists i :: 0 <= i < |m| && m[i] == Entry(r.value, text)
                                    && forall j :: 0 <= j < i ==> m[j].text != text
  {
    if m == [] then None
    else if m[0].text == text then
      assert m[0] == Entry(m[0].key, text);
      Some(m[0].key)
    else
      var r := FirstKeyOf(m[1..], text);
      if r.Some? then
        var i :| 0 <= i < |m[1..]| && m[1..][i] == Entry(r.value, text)
                 && forall j :: 0 <= j < i ==> m[1..][j].text != text;
        assert m[i + 1] == Entry(r.value, text);
        assert forall j :: 0 <= j < i + 1 ==> m[j].text != text by {
          forall j | 0 <= j < i + 1 ensures m[j].text != text {
            if j > 0 { assert m[j] == m[1..][j - 1]; }
          }
        }
        r
      else
        assert forall i :: 0 <= i < |m| ==> m[i].text != text by {
          forall i | 0 <= i < |m| ensures m[i].text != text {
            if i > 0 { assert m[i] == m[1..][i - 1]; }
          }
        }
        r
  }

  /** get_map_key(map_, value): None for a missing map or an unknown label,
      else the first key carrying that label. */
  function GetMapKey(m: Option<ModeMap>, text: string): (r: Option<int>)
  {
    if m.None? then None else FirstKeyOf(m.value, text)
  }

  /** Looking up the key that get_map_key returns gives the label back. */
  lemma KeyThenValue(m: ModeMap, text: string)
    requires DistinctKeys(m)
    requires exists i :: 0 <= i < |m| && m[i].text == text
    ensures GetMapKey(Some(m), text).Some?
    ensures GetMapValue(Some(m), Some(VInt(GetMapKey(Some(m), text).value))) == Some(text)
  {
    var k := FirstKeyOf(m, text);
    var i :| 0 <= i < |m| && m[i] == Entry(k.value, text);
    LookupEntry(m, i);
  }
}
