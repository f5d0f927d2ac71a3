/** What turning the light on or off sends to the device: the strategy the
    send-mode selector names, the brightness-first rule, the writes each
    requested attribute makes, and the order in which each strategy issues
    them. The Light class's TurnOn and TurnOff append exactly these
    commands to their transport log. */
module LightCommands {
  import opened MiotSpec
  import opened LightProjection
  import opened LightValues
  import Select

  /** The three ways of ordering the turn-on writes. */
  datatype Strategy = OneByOne | TurnOnFirst | Together

  /** The strategy named by the selector's state; a missing or unrecognised
      state means one write at a time. */
  function StrategyOf(state: Option<string>): (s: Strategy)
    ensures s == Together <==> state == Some(Select.SendTogether)
    ensures s == TurnOnFirst <==> state == Some(Select.SendTurnOnFirst)
  {
    if state == Some(Select.SendTogether) then Together
    else if state == Some(Select.SendTurnOnFirst) then TurnOnFirst
    else OneByOne
  }

  /** Each of the selector's options names a different strategy, its default
      names the one-at-a-time strategy, and so does a missing state. */
  lemma StrategyOfOptions()
    ensures StrategyOf(Some(Select.SendModeOptions[0])) == OneByOne
    ensures StrategyOf(None) == OneByOne
    ensures forall i, j :: 0 <= i < j < |Select.SendModeOptions| ==>
              StrategyOf(Some(Select.SendModeOptions[i])) != StrategyOf(Some(Select.SendModeOptions[j]))
  {
  }

  /** The attributes a turn-on call asks for; None is "not in kwargs". */
  datatype Request = Request(brightness: Option<int>, colorTempKelvin: Option<int>,
                             rgbColor: Option<RgbColor>, effect: Option<string>)

  /** Which of the light's properties a write goes to. */
  datatype Role = OnRole | BrightnessRole | ColorTempRole | ColorRole | ModeRole

  datatype Write = Write(role: Role, value: Value)

  /** What the transport is asked to do: one property write, a batch of
      writes, or publishing the entity's state. The flag says whether the
      write itself publishes the state afterwards. */
  datatype Command =
    | Single(write: Write, publish: bool)
    | Batch(writes: seq<Write>, publish: bool)
    | Publish

  /** A brightness rescaler of the host platform, given the native (min, max). */
  type Rescale = (Option<Scale>, int) -> int

  /** Brightness goes before colour temperature and colour when it is
      requested, the current brightness is known and non-zero, and the new
      brightness is not above it. */
  predicate BrightnessFirst(req: Request, oldBrightness: Option<int>) {
    && req.brightness.Some?
    && oldBrightness.Some? && oldBrightness.value != 0
    && req.brightness.value <= oldBrightness.value
  }

  /** A looked-up key as a raw value; a label with no key is written as None.
      The written value is a dict key again exactly when a key was found, and
      then it is that key. */
  function KeyValue(k: Option<int>): (v: Value)
    ensures AsKey(v) == k
  {
    if k.Some? then VInt(k.value) else VNone
  }

  function OnWrites(propOn: Option<Prop>): seq<Write> {
    if propOn.Some? then [Write(OnRole, OnValue(propOn.value.format))] else []
  }

  function EffectWrites(req: Request, modeMap: Option<ModeMap>): seq<Write> {
    if req.effect.Some? then [Write(ModeRole, KeyValue(GetMapKey(modeMap, req.effect.value)))] else []
  }

  function BrightnessWrites(req: Request, scale: Option<Scale>, toValue: Rescale): seq<Write> {
    if req.brightness.Some? then [Write(BrightnessRole, VInt(toValue(scale, req.brightness.value)))] else []
  }

  function ColorTempWrites(req: Request): seq<Write> {
    if req.colorTempKelvin.Some? then [Write(ColorTempRole, VInt(req.colorTempKelvin.value))] else []
  }

  function RgbWrites(req: Request): seq<Write> {
    if req.rgbColor.Some? then [Write(ColorRole, VInt(Pack(req.rgbColor.value)))] else []
  }

  /** Every write a turn-on makes, whatever the strategy. */
  function AllWrites(req: Request, p: Projection, toValue: Rescale): seq<Write> {
    OnWrites(p.propOn) + EffectWrites(req, p.modeMap) + BrightnessWrites(req, p.brightnessScale, toValue) + ColorTempWrites(req) + RgbWrites(req)
  }

  /** Whether a turn-on writes a property in the given role: the on-property
      when there is one, any other only when its attribute is requested. */
  predicate Requested(role: Role, req: Request, p: Projection) {
    match role
    case OnRole => p.propOn.Some?
    case BrightnessRole => req.brightness.Some?
    case ColorTempRole => req.colorTempKelvin.Some?
    case ColorRole => req.rgbColor.Some?
    case ModeRole => req.effect.Some?
  }

  /** The writes of the two batch strategies apart from the on-write. */
  function BatchBody(req: Request, first: bool, scale: Option<Scale>, modeMap: Option<ModeMap>,
                     toValue: Rescale): seq<Write>
  {
    var bri := BrightnessWrites(req, scale, toValue);
    EffectWrites(req, modeMap) + (if first then bri else []) + ColorTempWrites(req) + RgbWrites(req)
      + (if first then [] else bri)
  }

  /** Independent writes that do not publish. */
  function Singles(ws: seq<Write>): seq<Command> {
    seq(|ws|, i requires 0 <= i < |ws| => Single(ws[i], false))
  }

  lemma SinglesAppend(a: seq<Write>, b: seq<Write>)
    ensures Singles(a + b) == Singles(a) + Singles(b)
  {
  }

  /** Sending one more independent write extends the log by its command. */
  lemma SinglesStep(log: seq<Command>, start: seq<Command>, sent: seq<Write>, w: Write)
    requires log == start + Singles(sent)
    ensures log + [Single(w, false)] == start + Singles(sent + [w])
  {
    SinglesAppend(sent, [w]);
  }

  /** The on-write of the one-at-a-time strategy, which publishes. */
  function OnCommands(propOn: Option<Prop>): seq<Command> {
    if propOn.Some? then [Single(Write(OnRole, OnValue(propOn.value.format)), true)] else []
  }

  /** The commands a turn-on issues once the strategy is known. */
  function TurnOnCommands(s: Strategy, req: Request, oldBrightness: Option<int>, p: Projection,
                          toValue: Rescale): seq<Command>
  {
    var first := BrightnessFirst(req, oldBrightness);
    match s
    case Together => [Batch(BatchBody(req, first, p.brightnessScale, p.modeMap, toValue) + OnWrites(p.propOn), false), Publish]
    case TurnOnFirst => [Batch(OnWrites(p.propOn) + BatchBody(req, first, p.brightnessScale, p.modeMap, toValue), false), Publish]
    case OneByOne =>
      OnCommands(p.propOn)
        + Singles(BrightnessWrites(req, p.brightnessScale, toValue) + ColorTempWrites(req) + RgbWrites(req) + EffectWrites(req, p.modeMap))
        + [Publish]
  }

  /** The colour mode after a turn-on: RGB if a colour was requested, else
      COLOR_TEMP if a colour temperature was, else the current mode. */
  function TurnOnColorMode(req: Request, current: Option<ColorMode>): (m: Option<ColorMode>)
    ensures req.rgbColor.Some? ==> m == Some(Rgb)
    ensures req.rgbColor.None? && req.colorTempKelvin.Some? ==> m == Some(ColorTemp)
    ensures req.rgbColor.None? && req.colorTempKelvin.None? ==> m == current
  {
    if req.rgbColor.Some? then Some(Rgb)
    else if req.colorTempKelvin.Some? then Some(ColorTemp)
    else current
  }

  /** The commands a turn-off issues: nothing without an on-property, else the
      off-sentinel written once. */
  function TurnOffCommands(p: Projection): seq<Command> {
    if p.propOn.None? then [] else [Single(Write(OnRole, OffValue(p.propOn.value.format)), true)]
  }

  // ---------------------------------------------------------------------
  // The writes a command sequence makes, and their order

  /** The property writes of a command sequence, in the order they are made. */
  function Writes(cs: seq<Command>): seq<Write> {
    if cs == [] then [] else CommandWrites(cs[0]) + Writes(cs[1..])
  }

  function CommandWrites(c: Command): seq<Write> {
    match c
    case Single(w, _) => [w]
    case Batch(ws, _) => ws
    case Publish => []
  }

  lemma {:induction false} WritesAppend(a: seq<Command>, b: seq<Command>)
    ensures Writes(a + b) == Writes(a) + Writes(b)
  {
    if a != [] {
      assert (a + b)[0] == a[0];
      assert (a + b)[1..] == a[1..] + b;
      WritesAppend(a[1..], b);
    } else {
      assert a + b == b;
    }
  }

  lemma {:induction false} WritesOfSingles(ws: seq<Write>)
    ensures Writes(Singles(ws)) == ws
  {
    if ws != [] {
      assert Singles(ws)[1..] == Singles(ws[1..]);
      WritesOfSingles(ws[1..]);
    }
  }

  /** The writes in ws carry strictly increasing ranks: they are in the order
      the ranking gives and no role is written twice. */
  predicate Ranked(ws: seq<Write>, rank: Role -> int) {
    forall i, j :: 0 <= i < j < |ws| ==> rank(ws[i].role) < rank(ws[j].role)
  }

  /** Every write in role a comes before every write in role b. */
  predicate Before(ws: seq<Write>, a: Role, b: Role) {
    forall i, j :: 0 <= i < |ws| && 0 <= j < |ws| && ws[i].role == a && ws[j].role == b ==> i < j
  }

  /** Some write is in role r. */
  predicate HasRole(ws: seq<Write>, r: Role) {
    exists i :: 0 <= i < |ws| && ws[i].role == r
  }

  lemma RankedBefore(ws: seq<Write>, rank: Role -> int, a: Role, b: Role)
    requires Ranked(ws, rank) && rank(a) < rank(b)
    ensures Before(ws, a, b)
  {
  }

  lemma RankedAppend(xs: seq<Write>, ys: seq<Write>, rank: Role -> int)
    requires Ranked(xs, rank) && Ranked(ys, rank)
    requires forall i, j :: 0 <= i < |xs| && 0 <= j < |ys| ==> rank(xs[i].role) < rank(ys[j].role)
    ensures Ranked(xs + ys, rank)
  {
  }

  /** The order of the one-at-a-time strategy: on, brightness, colour
      temperature, colour, effect. */
  function OneByOneRank(r: Role): int {
    match r
    case OnRole => 0
    case BrightnessRole => 1
    case ColorTempRole => 2
    case ColorRole => 3
    case ModeRole => 4
  }

  /** The order of "Send Together": effect, brightness if it goes first,
      colour temperature, colour, brightness otherwise, on. */
  function TogetherRank(first: bool, r: Role): int {
    match r
    case ModeRole => 0
    case BrightnessRole => if first then 1 else 4
    case ColorTempRole => 2
    case ColorRole => 3
    case OnRole => 5
  }

  /** The order of "Send Turn On First": on, then as "Send Together". */
  function TurnOnFirstRank(first: bool, r: Role): int {
    if r == OnRole then -1 else TogetherRank(first, r)
  }

  /** The order in which a strategy issues its writes. */
  function RankOf(s: Strategy, first: bool): Role -> int {
    match s
    case OneByOne => OneByOneRank
    case Together => r => TogetherRank(first, r)
    case TurnOnFirst => r => TurnOnFirstRank(first, r)
  }

  /** Every write of a single-write list is in the given role. */
  predicate AllIn(ws: seq<Write>, r: Role) {
    forall i :: 0 <= i < |ws| ==> ws[i].role == r
  }

  lemma RankedPieces(ws: seq<Write>, r: Role, rank: Role -> int)
    requires |ws| <= 1 && AllIn(ws, r)
    ensures Ranked(ws, rank)
  {
  }

  /** Appending a piece of at most one write whose rank is above every rank
      so far keeps the writes ranked. */
  lemma RankedSnoc(xs: seq<Write>, ys: seq<Write>, r: Role, rank: Role -> int)
    requires Ranked(xs, rank) && |ys| <= 1 && AllIn(ys, r)
    requires forall i :: 0 <= i < |xs| ==> rank(xs[i].role) < rank(r)
    ensures Ranked(xs + ys, rank)
    ensures forall i :: 0 <= i < |xs + ys| ==> rank((xs + ys)[i].role) <= rank(r)
  {
    RankedAppend(xs, ys, rank);
  }

  /** The on-, effect-, brightness-, colour-temperature- and colour-writes
      are at most one write each, in their own role. */
  lemma PiecesShape(req: Request, p: Projection, toValue: Rescale)
    ensures |OnWrites(p.propOn)| <= 1 && AllIn(OnWrites(p.propOn), OnRole)
    ensures |EffectWrites(req, p.modeMap)| <= 1 && AllIn(EffectWrites(req, p.modeMap), ModeRole)
    ensures |BrightnessWrites(req, p.brightnessScale, toValue)| <= 1 && AllIn(BrightnessWrites(req, p.brightnessScale, toValue), BrightnessRole)
    ensures |ColorTempWrites(req)| <= 1 && AllIn(ColorTempWrites(req), ColorTempRole)
    ensures |RgbWrites(req)| <= 1 && AllIn(RgbWrites(req), ColorRole)
  {
  }

  /** The batch body is in the order of the two batch strategies, and holds no on-write. */
  lemma BatchBodyRanked(req: Request, first: bool, p: Projection, toValue: Rescale, rank: Role -> int)
    requires rank(ModeRole) < rank(ColorTempRole) < rank(ColorRole)
    requires first ==> rank(ModeRole) < rank(BrightnessRole) < rank(ColorTempRole)
    requires !first ==> rank(ColorRole) < rank(BrightnessRole)
    ensures Ranked(BatchBody(req, first, p.brightnessScale, p.modeMap, toValue), rank)
    ensures forall i :: 0 <= i < |BatchBody(req, first, p.brightnessScale, p.modeMap, toValue)| ==>
              BatchBody(req, first, p.brightnessScale, p.modeMap, toValue)[i].role != OnRole
  {
    PiecesShape(req, p, toValue);
    var bri := BrightnessWrites(req, p.brightnessScale, toValue);
    var e := EffectWrites(req, p.modeMap);
    var b1 := if first then bri else [];
    var b2 := if first then [] else bri;
    var ct := ColorTempWrites(req);
    var c := RgbWrites(req);
    RankedPieces(e, ModeRole, rank);
    RankedSnoc(e, b1, BrightnessRole, rank);
    RankedSnoc(e + b1, ct, ColorTempRole, rank);
    RankedSnoc(e + b1 + ct, c, ColorRole, rank);
    if !first {
      RankedSnoc(e + b1 + ct + c, b2, BrightnessRole, rank);
    }
    assert BatchBody(req, first, p.brightnessScale, p.modeMap, toValue) == e + b1 + ct + c + b2;
  }

  lemma WritesOfBatch(ws: seq<Write>)
    ensures Writes([Batch(ws, false), Publish]) == ws
  {
    assert [Batch(ws, false), Publish][1..] == [Publish];
    assert [Publish][1..] == [];
  }

  lemma TogetherRanked(req: Request, first: bool, p: Projection, toValue: Rescale)
    ensures Ranked(BatchBody(req, first, p.brightnessScale, p.modeMap, toValue) + OnWrites(p.propOn), r => TogetherRank(first, r))
  {
    var rank := (r: Role) => TogetherRank(first, r);
    var body := BatchBody(req, first, p.brightnessScale, p.modeMap, toValue);
    PiecesShape(req, p, toValue);
    BatchBodyRanked(req, first, p, toValue, rank);
    RankedSnoc(body, OnWrites(p.propOn), OnRole, rank);
  }

  lemma TurnOnFirstRanked(req: Request, first: bool, p: Projection, toValue: Rescale)
    ensures Ranked(OnWrites(p.propOn) + BatchBody(req, first, p.brightnessScale, p.modeMap, toValue), r => TurnOnFirstRank(first, r))
  {
    var rank := (r: Role) => TurnOnFirstRank(first, r);
    PiecesShape(req, p, toValue);
    BatchBodyRanked(req, first, p, toValue, rank);
    RankedAppend(OnWrites(p.propOn), BatchBody(req, first, p.brightnessScale, p.modeMap, toValue), rank);
  }

  /** The one-at-a-time commands: the publishing on-write, the other writes
      one command each, then the state published. */
  lemma OneByOneShape(req: Request, oldBrightness: Option<int>, p: Projection, toValue: Rescale)
    ensures TurnOnCommands(OneByOne, req, oldBrightness, p, toValue)
            == OnCommands(p.propOn)
               + Singles(BrightnessWrites(req, p.brightnessScale, toValue) + ColorTempWrites(req) + RgbWrites(req)
                         + EffectWrites(req, p.modeMap))
               + [Publish]
  {
  }

  /** The writes of the one-at-a-time strategy, in the order they are made. */
  lemma OneByOneWrites(req: Request, oldBrightness: Option<int>, p: Projection, toValue: Rescale)
    ensures Writes(TurnOnCommands(OneByOne, req, oldBrightness, p, toValue))
            == OnWrites(p.propOn) + BrightnessWrites(req, p.brightnessScale, toValue) + ColorTempWrites(req) + RgbWrites(req)
               + EffectWrites(req, p.modeMap)
  {
    OneByOneShape(req, oldBrightness, p, toValue);
    OnCommandsWrites(p.propOn);
    WritesOfSinglesThenPublish(OnCommands(p.propOn), OnWrites(p.propOn),
                               BrightnessWrites(req, p.brightnessScale, toValue) + ColorTempWrites(req) + RgbWrites(req)
                               + EffectWrites(req, p.modeMap));
    AppendAssoc(OnWrites(p.propOn), BrightnessWrites(req, p.brightnessScale, toValue) + ColorTempWrites(req),
                RgbWrites(req), EffectWrites(req, p.modeMap));
  }

  lemma OnCommandsWrites(propOn: Option<Prop>)
    ensures Writes(OnCommands(propOn)) == OnWrites(propOn)
  {
    if propOn.Some? {
      WritesOfOne(OnCommands(propOn)[0]);
    }
  }

  lemma AppendAssoc<T>(a: seq<T>, b: seq<T>, c: seq<T>, d: seq<T>)
    ensures a + b + c + d == a + (b + c + d)
  {
  }

  lemma WritesOfSinglesThenPublish(first: seq<Command>, firstWrites: seq<Write>, ws: seq<Write>)
    requires Writes(first) == firstWrites
    ensures Writes(first + Singles(ws) + [Publish]) == firstWrites + ws
  {
    WritesAppend(first + Singles(ws), [Publish]);
    WritesAppend(first, Singles(ws));
    WritesOfSingles(ws);
    WritesOfOne(Publish);
  }

  lemma WritesOfOne(c: Command)
    ensures Writes([c]) == CommandWrites(c)
  {
    assert [c][1..] == [];
  }

  lemma OneByOneRanked(req: Request, p: Projection, toValue: Rescale)
    ensures Ranked(OnWrites(p.propOn) + BrightnessWrites(req, p.brightnessScale, toValue) + ColorTempWrites(req) + RgbWrites(req)
                   + EffectWrites(req, p.modeMap), OneByOneRank)
  {
    PiecesShape(req, p, toValue);
    var on := OnWrites(p.propOn);
    var bri := BrightnessWrites(req, p.brightnessScale, toValue);
    var ct := ColorTempWrites(req);
    var c := RgbWrites(req);
    RankedPieces(on, OnRole, OneByOneRank);
    RankedSnoc(on, bri, BrightnessRole, OneByOneRank);
    RankedSnoc(on + bri, ct, ColorTempRole, OneByOneRank);
    RankedSnoc(on + bri + ct, c, ColorRole, OneByOneRank);
    RankedSnoc(on + bri + ct + c, EffectWrites(req, p.modeMap), ModeRole, OneByOneRank);
  }

  /** The writes of every strategy are in that strategy's order, so in
      particular no role is written twice. */
  lemma TurnOnWritesRanked(s: Strategy, req: Request, oldBrightness: Option<int>,
                           p: Projection, toValue: Rescale)
    ensures Ranked(Writes(TurnOnCommands(s, req, oldBrightness, p, toValue)),
                   RankOf(s, BrightnessFirst(req, oldBrightness)))
  {
    var first := BrightnessFirst(req, oldBrightness);
    match s
    case Together =>
      WritesOfBatch(BatchBody(req, first, p.brightnessScale, p.modeMap, toValue) + OnWrites(p.propOn));
      TogetherRanked(req, first, p, toValue);
    case TurnOnFirst =>
      WritesOfBatch(OnWrites(p.propOn) + BatchBody(req, first, p.brightnessScale, p.modeMap, toValue));
      TurnOnFirstRanked(req, first, p, toValue);
    case OneByOne =>
      OneByOneWrites(req, oldBrightness, p, toValue);
      OneByOneRanked(req, p, toValue);
  }

  // ---------------------------------------------------------------------
  // What every strategy writes, and in which order

  /** Whatever the strategy, a turn-on makes the same writes: only their
      order differs. */
  lemma TurnOnWritesSame(s: Strategy, req: Request, oldBrightness: Option<int>, p: Projection,
                         toValue: Rescale)
    ensures multiset(Writes(TurnOnCommands(s, req, oldBrightness, p, toValue)))
            == multiset(AllWrites(req, p, toValue))
  {
    match s
    case Together =>
      var body := BatchBody(req, BrightnessFirst(req, oldBrightness), p.brightnessScale, p.modeMap, toValue);
      WritesOfBatch(body + OnWrites(p.propOn));
      BatchWritesSame(req, BrightnessFirst(req, oldBrightness), p, toValue, body + OnWrites(p.propOn));
    case TurnOnFirst =>
      var body := BatchBody(req, BrightnessFirst(req, oldBrightness), p.brightnessScale, p.modeMap, toValue);
      WritesOfBatch(OnWrites(p.propOn) + body);
      BatchWritesSame(req, BrightnessFirst(req, oldBrightness), p, toValue, OnWrites(p.propOn) + body);
    case OneByOne =>
      OneByOneWrites(req, oldBrightness, p, toValue);
      OneByOneWritesSame(req, p, toValue);
  }

  lemma BatchWritesSame(req: Request, first: bool, p: Projection, toValue: Rescale, ws: seq<Write>)
    requires ws == BatchBody(req, first, p.brightnessScale, p.modeMap, toValue) + OnWrites(p.propOn)
             || ws == OnWrites(p.propOn) + BatchBody(req, first, p.brightnessScale, p.modeMap, toValue)
    ensures multiset(ws) == multiset(AllWrites(req, p, toValue))
  {
    BatchBodyMultiset(req, first, p, toValue);
    AllWritesMultiset(req, p, toValue);
  }

  lemma OneByOneWritesSame(req: Request, p: Projection, toValue: Rescale)
    ensures multiset(OnWrites(p.propOn) + BrightnessWrites(req, p.brightnessScale, toValue) + ColorTempWrites(req) + RgbWrites(req)
                     + EffectWrites(req, p.modeMap))
            == multiset(AllWrites(req, p, toValue))
  {
    AllWritesMultiset(req, p, toValue);
  }

  lemma AllWritesMultiset(req: Request, p: Projection, toValue: Rescale)
    ensures multiset(AllWrites(req, p, toValue))
            == multiset(OnWrites(p.propOn)) + multiset(EffectWrites(req, p.modeMap)) + multiset(BrightnessWrites(req, p.brightnessScale, toValue))
               + multiset(ColorTempWrites(req)) + multiset(RgbWrites(req))
  {
  }

  lemma BatchBodyMultiset(req: Request, first: bool, p: Projection, toValue: Rescale)
    ensures multiset(BatchBody(req, first, p.brightnessScale, p.modeMap, toValue))
            == multiset(EffectWrites(req, p.modeMap)) + multiset(BrightnessWrites(req, p.brightnessScale, toValue))
               + multiset(ColorTempWrites(req)) + multiset(RgbWrites(req))
  {
    var bri := BrightnessWrites(req, p.brightnessScale, toValue);
    var b1 := if first then bri else [];
    var b2 := if first then [] else bri;
    assert multiset(b1) + multiset(b2) == multiset(bri);
  }

  /** Writes with the same multiset have the same roles. */
  lemma SameWritesSameRoles(a: seq<Write>, b: seq<Write>, r: Role)
    requires multiset(a) == multiset(b)
    ensures HasRole(a, r) <==> HasRole(b, r)
  {
    if HasRole(a, r) {
      var i :| 0 <= i < |a| && a[i].role == r;
      assert a[i] in multiset(b);
      var j :| 0 <= j < |b| && b[j] == a[i];
    }
    if HasRole(b, r) {
      var j :| 0 <= j < |b| && b[j].role == r;
      assert b[j] in multiset(a);
      var i :| 0 <= i < |a| && a[i] == b[j];
    }
  }

  /** A ranking that tells roles apart. */
  predicate Injective(rank: Role -> int) {
    forall a: Role, b: Role :: rank(a) == rank(b) ==> a == b
  }

  lemma RanksInjective(s: Strategy, first: bool)
    ensures Injective(RankOf(s, first))
  {
  }

  /** Under an injective ranking, ranked writes write each role at most once. */
  lemma RankedOnce(ws: seq<Write>, rank: Role -> int)
    requires Ranked(ws, rank) && Injective(rank)
    ensures forall i, j :: 0 <= i < |ws| && 0 <= j < |ws| && ws[i].role == ws[j].role ==> i == j
  {
  }

  /** Whatever the strategy, a turn-on writes the on-property exactly once
      when there is one, and every other role exactly once when its attribute
      is requested: a requested brightness is never written twice or dropped. */
  lemma TurnOnWritesEachOnce(s: Strategy, req: Request, oldBrightness: Option<int>, p: Projection,
                             toValue: Rescale, r: Role)
    ensures HasRole(Writes(TurnOnCommands(s, req, oldBrightness, p, toValue)), r) <==> Requested(r, req, p)
    ensures var ws := Writes(TurnOnCommands(s, req, oldBrightness, p, toValue));
            forall i, j :: 0 <= i < |ws| && 0 <= j < |ws| && ws[i].role == ws[j].role ==> i == j
  {
    var ws := Writes(TurnOnCommands(s, req, oldBrightness, p, toValue));
    TurnOnWritesSame(s, req, oldBrightness, p, toValue);
    SameWritesSameRoles(ws, AllWrites(req, p, toValue), r);
    AllWritesRoles(req, p, toValue, r);
    TurnOnWritesRanked(s, req, oldBrightness, p, toValue);
    RanksInjective(s, BrightnessFirst(req, oldBrightness));
    RankedOnce(ws, RankOf(s, BrightnessFirst(req, oldBrightness)));
  }

  lemma AllWritesRoles(req: Request, p: Projection, toValue: Rescale, r: Role)
    ensures HasRole(AllWrites(req, p, toValue), r) <==> Requested(r, req, p)
  {
    var ws := AllWrites(req, p, toValue);
    var on := OnWrites(p.propOn);
    var e := EffectWrites(req, p.modeMap);
    var bri := BrightnessWrites(req, p.brightnessScale, toValue);
    var ct := ColorTempWrites(req);
    var c := RgbWrites(req);
    PiecesShape(req, p, toValue);
    if Requested(r, req, p) {
      var i := match r
        case OnRole => 0
        case ModeRole => |on|
        case BrightnessRole => |on + e|
        case ColorTempRole => |on + e + bri|
        case ColorRole => |on + e + bri + ct|;
      assert ws[i].role == r;
    }
  }

  /** "Send Together": one batch that does not publish, then publishing the
      state. The effect goes first and the on-write last; brightness goes
      before colour temperature and colour when it goes first, after them
      otherwise. */
  lemma TogetherOrder(req: Request, oldBrightness: Option<int>, p: Projection, toValue: Rescale)
    ensures var cs := TurnOnCommands(Together, req, oldBrightness, p, toValue);
            var ws := Writes(cs);
            && cs == [Batch(ws, false), Publish]
            && (forall r :: r != OnRole ==> Before(ws, r, OnRole))
            && (forall r :: r != ModeRole ==> Before(ws, ModeRole, r))
            && Before(ws, ColorTempRole, ColorRole)
            && (BrightnessFirst(req, oldBrightness) ==>
                  Before(ws, BrightnessRole, ColorTempRole) && Before(ws, BrightnessRole, ColorRole))
            && (!BrightnessFirst(req, oldBrightness) ==>
                  Before(ws, ColorTempRole, BrightnessRole) && Before(ws, ColorRole, BrightnessRole))
  {
    var first := BrightnessFirst(req, oldBrightness);
    WritesOfBatch(BatchBody(req, first, p.brightnessScale, p.modeMap, toValue) + OnWrites(p.propOn));
    TurnOnWritesRanked(Together, req, oldBrightness, p, toValue);
    TogetherRankedOrder(Writes(TurnOnCommands(Together, req, oldBrightness, p, toValue)), first);
  }

  /** Writes in the order of "Send Together" put the effect first and the
      on-write last, and brightness where the rule places it. */
  lemma TogetherRankedOrder(ws: seq<Write>, first: bool)
    requires Ranked(ws, RankOf(Together, first))
    ensures forall r :: r != OnRole ==> Before(ws, r, OnRole)
    ensures forall r :: r != ModeRole ==> Before(ws, ModeRole, r)
    ensures Before(ws, ColorTempRole, ColorRole)
    ensures first ==> Before(ws, BrightnessRole, ColorTempRole) && Before(ws, BrightnessRole, ColorRole)
    ensures !first ==> Before(ws, ColorTempRole, BrightnessRole) && Before(ws, ColorRole, BrightnessRole)
  {
    var rank := RankOf(Together, first);
    forall r | r != OnRole ensures Before(ws, r, OnRole) {
      RankedBefore(ws, rank, r, OnRole);
    }
    forall r | r != ModeRole ensures Before(ws, ModeRole, r) {
      RankedBefore(ws, rank, ModeRole, r);
    }
    RankedBefore(ws, rank, ColorTempRole, ColorRole);
    if first {
      RankedBefore(ws, rank, BrightnessRole, ColorTempRole);
      RankedBefore(ws, rank, BrightnessRole, ColorRole);
    } else {
      RankedBefore(ws, rank, ColorTempRole, BrightnessRole);
      RankedBefore(ws, rank, ColorRole, BrightnessRole);
    }
  }

  /** "Send Turn On First": one batch that does not publish, then publishing
      the state. The on-write goes first, then the effect; brightness goes
      before colour temperature and colour when it goes first, after them
      otherwise. */
  lemma TurnOnFirstOrder(req: Request, oldBrightness: Option<int>, p: Projection, toValue: Rescale)
    ensures var cs := TurnOnCommands(TurnOnFirst, req, oldBrightness, p, toValue);
            var ws := Writes(cs);
            && cs == [Batch(ws, false), Publish]
            && (forall r :: r != OnRole ==> Before(ws, OnRole, r))
            && (forall r :: r != OnRole && r != ModeRole ==> Before(ws, ModeRole, r))
            && Before(ws, ColorTempRole, ColorRole)
            && (BrightnessFirst(req, oldBrightness) ==>
                  Before(ws, BrightnessRole, ColorTempRole) && Before(ws, BrightnessRole, ColorRole))
            && (!BrightnessFirst(req, oldBrightness) ==>
                  Before(ws, ColorTempRole, BrightnessRole) && Before(ws, ColorRole, BrightnessRole))
  {
    var first := BrightnessFirst(req, oldBrightness);
    WritesOfBatch(OnWrites(p.propOn) + BatchBody(req, first, p.brightnessScale, p.modeMap, toValue));
    TurnOnWritesRanked(TurnOnFirst, req, oldBrightness, p, toValue);
    TurnOnFirstRankedOrder(Writes(TurnOnCommands(TurnOnFirst, req, oldBrightness, p, toValue)), first);
  }

  /** Writes in the order of "Send Turn On First" put the on-write first, then
      the effect, and brightness where the rule places it. */
  lemma TurnOnFirstRankedOrder(ws: seq<Write>, first: bool)
    requires Ranked(ws, RankOf(TurnOnFirst, first))
    ensures forall r :: r != OnRole ==> Before(ws, OnRole, r)
    ensures forall r :: r != OnRole && r != ModeRole ==> Before(ws, ModeRole, r)
    ensures Before(ws, ColorTempRole, ColorRole)
    ensures first ==> Before(ws, BrightnessRole, ColorTempRole) && Before(ws, BrightnessRole, ColorRole)
    ensures !first ==> Before(ws, ColorTempRole, BrightnessRole) && Before(ws, ColorRole, BrightnessRole)
  {
    var rank := RankOf(TurnOnFirst, first);
    forall r | r != OnRole ensures Before(ws, OnRole, r) {
      RankedBefore(ws, rank, OnRole, r);
    }
    forall r | r != OnRole && r != ModeRole ensures Before(ws, ModeRole, r) {
      RankedBefore(ws, rank, ModeRole, r);
    }
    RankedBefore(ws, rank, ColorTempRole, ColorRole);
    if first {
      RankedBefore(ws, rank, BrightnessRole, ColorTempRole);
      RankedBefore(ws, rank, BrightnessRole, ColorRole);
    } else {
      RankedBefore(ws, rank, ColorTempRole, BrightnessRole);
      RankedBefore(ws, rank, ColorRole, BrightnessRole);
    }
  }

  /** One write at a time: independent writes in the order on, brightness,
      colour temperature, colour, effect, of which only the on-write
      publishes, then publishing the state. The brightness-first rule plays
      no part. */
  lemma OneByOneOrder(req: Request, oldBrightness: Option<int>, other: Option<int>, p: Projection,
                      toValue: Rescale)
    ensures var cs := TurnOnCommands(OneByOne, req, oldBrightness, p, toValue);
            var ws := Writes(cs);
            && |cs| == |ws| + 1 && cs[|cs| - 1] == Publish
            && (forall i :: 0 <= i < |ws| ==> cs[i] == Single(ws[i], ws[i].role == OnRole))
            && Before(ws, OnRole, BrightnessRole) && Before(ws, BrightnessRole, ColorTempRole)
            && Before(ws, ColorTempRole, ColorRole) && Before(ws, ColorRole, ModeRole)
            && (forall r :: r != OnRole ==> Before(ws, OnRole, r))
            && cs == TurnOnCommands(OneByOne, req, other, p, toValue)
  {
    OneByOneSingles(req, oldBrightness, p, toValue);
    OneByOneBefore(req, oldBrightness, p, toValue);
    OneByOneShape(req, oldBrightness, p, toValue);
    OneByOneShape(req, other, p, toValue);
  }

  /** Each one-at-a-time write is its own command, publishing exactly when it
      is the on-write; the state is published last. */
  lemma OneByOneSingles(req: Request, oldBrightness: Option<int>, p: Projection, toValue: Rescale)
    ensures var cs := TurnOnCommands(OneByOne, req, oldBrightness, p, toValue);
            var ws := Writes(cs);
            && |cs| == |ws| + 1 && cs[|cs| - 1] == Publish
            && (forall i :: 0 <= i < |ws| ==> cs[i] == Single(ws[i], ws[i].role == OnRole))
  {
    var rest := BrightnessWrites(req, p.brightnessScale, toValue) + ColorTempWrites(req) + RgbWrites(req) + EffectWrites(req, p.modeMap);
    OneByOneShape(req, oldBrightness, p, toValue);
    PiecesShape(req, p, toValue);
    assert forall i :: 0 <= i < |rest| ==> rest[i].role != OnRole;
    SinglesThenPublishShape(p.propOn, rest);
  }

  /** The publishing on-write, then writes in other roles one command each,
      then publishing: each command carries one write and publishes exactly
      when it is the on-write. */
  lemma SinglesThenPublishShape(propOn: Option<Prop>, rest: seq<Write>)
    requires forall i :: 0 <= i < |rest| ==> rest[i].role != OnRole
    ensures var cs := OnCommands(propOn) + Singles(rest) + [Publish];
            var ws := Writes(cs);
            && |cs| == |ws| + 1 && cs[|cs| - 1] == Publish
            && (forall i :: 0 <= i < |ws| ==> cs[i] == Single(ws[i], ws[i].role == OnRole))
  {
    var cs := OnCommands(propOn) + Singles(rest) + [Publish];
    OnCommandsWrites(propOn);
    WritesOfSinglesThenPublish(OnCommands(propOn), OnWrites(propOn), rest);
    var k := |OnCommands(propOn)|;
    assert |OnWrites(propOn)| == k;
    forall i | 0 <= i < |Writes(cs)| ensures cs[i] == Single(Writes(cs)[i], Writes(cs)[i].role == OnRole) {
      if i >= k {
        assert cs[i] == Singles(rest)[i - k];
      }
    }
  }

  /** The one-at-a-time writes come in the order on, brightness, colour
      temperature, colour, effect. */
  lemma OneByOneBefore(req: Request, oldBrightness: Option<int>, p: Projection, toValue: Rescale)
    ensures var ws := Writes(TurnOnCommands(OneByOne, req, oldBrightness, p, toValue));
            && Before(ws, OnRole, BrightnessRole) && Before(ws, BrightnessRole, ColorTempRole)
            && Before(ws, ColorTempRole, ColorRole) && Before(ws, ColorRole, ModeRole)
            && (forall r :: r != OnRole ==> Before(ws, OnRole, r))
  {
    TurnOnWritesRanked(OneByOne, req, oldBrightness, p, toValue);
    OneByOneRankedOrder(Writes(TurnOnCommands(OneByOne, req, oldBrightness, p, toValue)));
  }

  /** Writes in the one-at-a-time order: on, brightness, colour temperature,
      colour, effect. */
  lemma OneByOneRankedOrder(ws: seq<Write>)
    requires Ranked(ws, RankOf(OneByOne, false))
    ensures Before(ws, OnRole, BrightnessRole) && Before(ws, BrightnessRole, ColorTempRole)
    ensures Before(ws, ColorTempRole, ColorRole) && Before(ws, ColorRole, ModeRole)
    ensures forall r :: r != OnRole ==> Before(ws, OnRole, r)
  {
    var rank := RankOf(OneByOne, false);
    RankedBefore(ws, rank, OnRole, BrightnessRole);
    RankedBefore(ws, rank, BrightnessRole, ColorTempRole);
    RankedBefore(ws, rank, ColorTempRole, ColorRole);
    RankedBefore(ws, rank, ColorRole, ModeRole);
    forall r | r != OnRole ensures Before(ws, OnRole, r) {
      RankedBefore(ws, rank, OnRole, r);
    }
  }

  /** Effect, colour temperature and a lower brightness together under "Send
      Together", with an on-property: effect, brightness, colour temperature,
      on, in one batch. */
  lemma TogetherDimmingScenario(req: Request, current: int, p: Projection, toValue: Rescale)
    requires req.effect.Some? && req.colorTempKelvin.Some? && req.rgbColor.None?
    requires req.brightness.Some? && current != 0 && req.brightness.value <= current
    requires p.propOn.Some?
    ensures var ws := Writes(TurnOnCommands(Together, req, Some(current), p, toValue));
            |ws| == 4 && ws[0].role == ModeRole && ws[1].role == BrightnessRole
            && ws[2].role == ColorTempRole && ws[3].role == OnRole
  {
    var body := BatchBody(req, true, p.brightnessScale, p.modeMap, toValue);
    WritesOfBatch(body + OnWrites(p.propOn));
  }

  /** Only a higher brightness under the default strategy, with an
      on-property: the on-write, which publishes, then the brightness write,
      then publishing the state. */
  lemma OneByOneBrighteningScenario(req: Request, current: Option<int>, p: Projection, toValue: Rescale)
    requires req.brightness.Some? && req.colorTempKelvin.None? && req.rgbColor.None? && req.effect.None?
    requires current.Some? ==> req.brightness.value > current.value
    requires p.propOn.Some?
    ensures TurnOnCommands(StrategyOf(None), req, current, p, toValue)
            == [Single(Write(OnRole, OnValue(p.propOn.value.format)), true),
                Single(Write(BrightnessRole, VInt(toValue(p.brightnessScale, req.brightness.value))), false),
                Publish]
  {
    var bri := BrightnessWrites(req, p.brightnessScale, toValue);
    assert bri + ColorTempWrites(req) + RgbWrites(req) + EffectWrites(req, p.modeMap) == bri;
  }

  /** The on-write of any strategy reads back as on, the off-write of a
      turn-off as off, and a turn-off makes exactly one write when there is an
      on-property and none otherwise. */
  lemma OnOffWritesReadBack(p: Projection)
    ensures |Writes(TurnOffCommands(p))| == (if p.propOn.Some? then 1 else 0)
    ensures forall i :: 0 <= i < |OnWrites(p.propOn)| ==> IsOnOf(Some(OnWrites(p.propOn)[i].value)) == Some(true)
    ensures forall i :: 0 <= i < |Writes(TurnOffCommands(p))| ==>
              Writes(TurnOffCommands(p))[i].role == OnRole
              && IsOnOf(Some(Writes(TurnOffCommands(p))[i].value)) == Some(false)
  {
    if p.propOn.Some? {
      WritesOfOne(TurnOffCommands(p)[0]);
      SentinelsReadBack(p.propOn.value.format);
    }
  }
}
