/** The per-device "Command Send Mode" selector: a user-settable,
    restorable choice among three write-ordering strategies for turning a
    light on. */
module Select {
  import opened MiotSpec

  const SendOneByOne: string := "Send One by One"
  const SendTurnOnFirst: string := "Send Turn On First"
  const SendTogether: string := "Send Together"

  /** The selector's options, in the order it lists them; the first is the default. */
  const SendModeOptions: seq<string> := [SendOneByOne, SendTurnOnFirst, SendTogether]

  const SendModePrefix: string := "select.light_"
  const SendModeSuffix: string := "_command_send_mode"

  /** The selector's entity id and unique id for a device; the light looks
      the selector up by this unique id. */
  function SendModeEntityId(deviceId: string): string {
    SendModePrefix + deviceId + SendModeSuffix
  }

  /** Different devices get different selector ids. */
  lemma SendModeEntityIdInjective(a: string, b: string)
    ensures SendModeEntityId(a) == SendModeEntityId(b) <==> a == b
  {
    if a != b && |a| == |b| {
      var n := |SendModePrefix|;
      assert SendModeEntityId(a)[n..n + |a|] == a;
      assert SendModeEntityId(b)[n..n + |b|] == b;
    }
  }

  /** What can happen to the selector after construction. */
  datatype SelectorEvent =
    | UserSelects(option: string)          // async_select_option
    | Restored(lastState: Option<string>)  // async_added_to_hass, with the last saved state if any

  /** The current option after an event: a listed option is taken, anything
      else leaves the current option as it was. */
  function Apply(current: string, e: SelectorEvent): (next: string)
    ensures e.UserSelects? && e.option in SendModeOptions ==> next == e.option
    ensures e.UserSelects? && e.option !in SendModeOptions ==> next == current
    ensures e.Restored? && e.lastState.Some? && e.lastState.value in SendModeOptions ==> next == e.lastState.value
    ensures e.Restored? && (e.lastState.None? || e.lastState.value !in SendModeOptions) ==> next == current
  {
    match e
    case UserSelects(option) => if option in SendModeOptions then option else current
    case Restored(last) => if last.Some? && last.value in SendModeOptions then last.value else current
  }

  /** The current option after a history of events, starting from the default. */
  function Replay(events: seq<SelectorEvent>): string {
    if events == [] then SendModeOptions[0]
    else Apply(Replay(events[..|events| - 1]), events[|events| - 1])
  }

  /** Whatever the user selects and whatever is restored, the current option
      stays one of the three listed options. */
  lemma {:induction false} ReplayStaysListed(events: seq<SelectorEvent>)
    ensures Replay(events) in SendModeOptions
  {
    if events != [] {
      ReplayStaysListed(events[..|events| - 1]);
    }
  }

  /** A restored "Send Together" is kept; an unlisted or missing last state
      leaves the default. */
  lemma RestoreExamples()
    ensures Replay([Restored(Some(SendTogether))]) == SendTogether
    ensures Replay([Restored(Some("Send Twice"))]) == SendOneByOne
    ensures Replay([Restored(None)]) == SendOneByOne
  {
  }

  class LightCommandSendMode {
    const deviceId: string
    const name: string
    const entityId: string
    const uniqueId: string
    const options: seq<string>
    /** _attr_current_option */
    var currentOption: string
    /** How many times the entity published its state. */
    var published: nat

    ghost predicate Valid()
      reads this
    {
      && options == SendModeOptions
      && currentOption in options
      && entityId == SendModeEntityId(deviceId)
      && uniqueId == entityId
    }

    constructor (deviceId: string)
      ensures Valid()
      ensures this.deviceId == deviceId && name == "Command Send Mode"
      ensures currentOption == SendOneByOne && published == 0
    {
      this.deviceId := deviceId;
      name := "Command Send Mode";
      entityId := SendModeEntityId(deviceId);
      uniqueId := SendModeEntityId(deviceId);
      options := SendModeOptions;
      currentOption := SendModeOptions[0];
      published := 0;
    }

    /** A listed option becomes current and is published; anything else is ignored. */
    method SelectOption(option: string)
      requires Valid()
      modifies this`currentOption, this`published
      ensures Valid()
      ensures currentOption == Apply(old(currentOption), UserSelects(option))
      ensures published == if option in SendModeOptions then old(published) + 1 else old(published)
    {
      if option in options {
        currentOption := option;
        published := published + 1;
      }
    }

    /** On being added: a last saved state that is a listed option becomes current. */
    method AddedToHass(lastState: Option<string>)
      requires Valid()
      modifies this`currentOption
      ensures Valid()
      ensures currentOption == Apply(old(currentOption), Restored(lastState))
    {
      if lastState.Some? && lastState.value in options {
        currentOption := lastState.value;
      }
    }

    /** current_option: always one of the listed options. */
    function CurrentOption(): (r: string)
      reads this
      requires Valid()
      ensures r in SendModeOptions
    {
      currentOption
    }
  }
}
