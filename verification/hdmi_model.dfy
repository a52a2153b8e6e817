/**
 The display power sequencer of the wall-panel HDMI daemon, as pure functions.

 Every subprocess the daemon starts (`ddcutil`, `vcgencmd`, `pkill`, `xset`,
 the kiosk browser) is an opaque command whose outcome is supplied by a
 `World`: the n-th subprocess call of the process gets `w(n)`. A run of an
 operation is the list of actions it performs, each subprocess call recorded
 together with the outcome it got, plus the index of the next call.
 */
module HdmiModel {

  // ---------------------------------------------------------------------------
  // Python's `sub in s` on strings
  // ---------------------------------------------------------------------------

  /** Substring search, as Python's `in` operator on two strings. */
  function Contains(s: string, sub: string): bool
    decreases |s|
  {
    sub <= s || (|s| > 0 && Contains(s[1..], sub))
  }

  /** `sub` occurs in `s` starting at index `i`. */
  predicate OccursAt(s: string, sub: string, i: nat)
  {
    i + |sub| <= |s| && s[i..i + |sub|] == sub
  }

  // ---------------------------------------------------------------------------
  // Outcomes, states, commands and actions
  // ---------------------------------------------------------------------------

  /** What one `subprocess` call hands back: the finished process with its
      captured standard output, or an exception (missing executable, expired
      timeout). A non-zero exit status is not an exception. Every call is
      taken to return one of the two; a call that blocks forever is not
      modelled. */
  datatype Outcome = Completed(stdout: string) | Raised

  /** The outcome of every subprocess call of the process, by call number. */
  type World = nat -> Outcome

  /** The display state the daemon reports. */
  datatype PowerState = On | Off | Unknown

  /** The payload a state is published as. */
  function Payload(s: PowerState): string
  {
    match s
    case On => "ON"
    case Off => "OFF"
    case Unknown => "UNKNOWN"
  }

  /** `get_hdmi_status`: the classification of `vcgencmd display_power -1`. */
  function StatusOf(o: Outcome): PowerState
  {
    match o
    case Raised => Unknown
    case Completed(out) => if Contains(out, "1") then On else Off
  }

  /** `check_ddc`: the verdict drawn from `ddcutil detect`. */
  function DdcVerdict(o: Outcome): bool
  {
    o.Completed? && Contains(o.stdout, "Display 1")
  }

  /** The external programs the daemon runs. */
  datatype Command =
    | DdcDetect              // ddcutil detect
    | Pkill                  // pkill -f chromium
    | XsetStandby            // xset dpms force standby
    | DdcSetVcp(level: nat)  // ddcutil setvcp 10 <level>  (VCP 0x10: brightness)
    | VcgenPower(on: bool)   // vcgencmd display_power 1 / 0
    | LaunchKiosk(url: string) // chromium-browser --kiosk ... <url>
    | QueryStatus            // vcgencmd display_power -1

  /** The commands `set_hdmi_power` runs itself, outside any helper that
      swallows exceptions. */
  predicate IsDirect(c: Command)
  {
    c.DdcSetVcp? || c.VcgenPower?
  }

  /** One observable effect: a subprocess call with the outcome it got, a
      delay, or an MQTT client call. */
  datatype Action =
    | Call(cmd: Command, outcome: Outcome)
    | Sleep(millis: nat)
    | Subscribe(topic: string)
    | Publish(topic: string, payload: string, retain: bool)

  /** The commands run by a list of actions, in order. */
  function Commands(acts: seq<Action>): seq<Command>
  {
    if acts == [] then []
    else (if acts[0].Call? then [acts[0].cmd] else []) + Commands(acts[1..])
  }

  /** Some command `set_hdmi_power` runs directly raised. */
  predicate DirectRaised(acts: seq<Action>)
  {
    exists i :: 0 <= i < |acts| && acts[i].Call? && IsDirect(acts[i].cmd) && acts[i].outcome.Raised?
  }

  /** Every occurrence of `b` in `cs` comes after some occurrence of `a`. */
  predicate Precedes(cs: seq<Command>, a: Command, b: Command)
  {
    forall j :: 0 <= j < |cs| && cs[j] == b ==> exists i :: 0 <= i < j && cs[i] == a
  }

  /** The actions of a helper run, and the number of the next subprocess call. */
  datatype Effects = Effects(acts: seq<Action>, next: nat)

  /** The same, for a run that also yields a display state. */
  datatype Reply = Reply(acts: seq<Action>, next: nat, state: PowerState)

  // ---------------------------------------------------------------------------
  // MQTT topics and payloads
  // ---------------------------------------------------------------------------

  const TopicCmd := "homeassistant/switch/rpi_hdmi/set"
  const TopicState := "homeassistant/switch/rpi_hdmi/state"
  const TopicAvail := "homeassistant/switch/rpi_hdmi/availability"
  const TopicConfig := "homeassistant/switch/rpi_hdmi/config"

  /** The payloads `on_message` acts on. */
  predicate IsCommandPayload(p: string)
  {
    p in ["ON", "OFF"]
  }

  // ---------------------------------------------------------------------------
  // The sequencer
  // ---------------------------------------------------------------------------

  /** `blank_screen`: kill the kiosk, settle, force DPMS standby. An exception
      ends the helper early and is swallowed. */
  function Blanking(w: World, k: nat): Effects
  {
    if w(k).Raised? then Effects([Call(Pkill, w(k))], k + 1)
    else Effects([Call(Pkill, w(k)), Sleep(500), Call(XsetStandby, w(k + 1))], k + 2)
  }

  /** `restore_display`: kill any stale kiosk, settle, launch a fresh one on
      `url`. An exception ends the helper early and is swallowed. */
  function Restoring(url: string, w: World, k: nat): Effects
  {
    if w(k).Raised? then Effects([Call(Pkill, w(k))], k + 1)
    else Effects([Call(Pkill, w(k)), Sleep(1000), Call(LaunchKiosk(url), w(k + 1))], k + 2)
  }

  /** The OFF branch of `set_hdmi_power`, then the final status query. */
  function PowerOff(ddc: bool, w: World, k: nat): Reply
  {
    var b := Blanking(w, k);
    var settled := b.acts + [Sleep(1000)];
    var j := b.next;
    if ddc && w(j).Raised? then
      Reply(settled + [Call(DdcSetVcp(0), w(j))], j + 1, Unknown)
    else
      var dimmed := if ddc then settled + [Call(DdcSetVcp(0), w(j))] + [Sleep(500)] else settled;
      var s := if ddc then j + 1 else j;
      var signalled := dimmed + [Call(VcgenPower(false), w(s))];
      if w(s).Raised? then Reply(signalled, s + 1, Unknown)
      else Reply(signalled + [Call(QueryStatus, w(s + 1))], s + 2, StatusOf(w(s + 1)))
  }

  /** The ON branch of `set_hdmi_power`, then the final status query. */
  function PowerOn(ddc: bool, url: string, w: World, k: nat): Reply
  {
    if w(k).Raised? then Reply([Call(VcgenPower(true), w(k))], k + 1, Unknown)
    else
      var woken := [Call(VcgenPower(true), w(k))] + [Sleep(3000)];
      if ddc && w(k + 1).Raised? then
        Reply(woken + [Call(DdcSetVcp(100), w(k + 1))], k + 2, Unknown)
      else
        var lit := if ddc then woken + [Call(DdcSetVcp(100), w(k + 1))] else woken;
        var r := Restoring(url, w, if ddc then k + 2 else k + 1);
        Reply(lit + r.acts + [Call(QueryStatus, w(r.next))], r.next + 1, StatusOf(w(r.next)))
  }

  /** `set_hdmi_power(state)`: "OFF" powers down, anything else powers up. */
  function PowerSequence(state: string, ddc: bool, url: string, w: World, k: nat): Reply
  {
    if state == "OFF" then PowerOff(ddc, w, k) else PowerOn(ddc, url, w, k)
  }

  /** `on_message` for a decoded payload: run the sequence for "ON"/"OFF" and
      publish its result retained; ignore anything else. */
  function MessageEffects(payload: string, ddc: bool, url: string, w: World, k: nat): Effects
  {
    if IsCommandPayload(payload) then
      var r := PowerSequence(payload, ddc, url, w, k);
      Effects(r.acts + [Publish(TopicState, Payload(r.state), true)], r.next)
    else Effects([], k)
  }

  /** `on_connect` with return code `rc`: on success subscribe to the command
      topic, announce availability, query the display and publish its state,
      both publications retained; on failure nothing. */
  function ConnectEffects(rc: int, w: World, k: nat): Effects
  {
    if rc == 0 then
      Effects([Subscribe(TopicCmd), Publish(TopicAvail, "online", true),
               Call(QueryStatus, w(k)), Publish(TopicState, Payload(StatusOf(w(k))), true)], k + 1)
    else Effects([], k)
  }

  /** The client loop handing payloads to `on_message` one at a time. */
  function Session(payloads: seq<string>, ddc: bool, url: string, w: World, k: nat): Effects
    decreases |payloads|
  {
    if payloads == [] then Effects([], k)
    else
      var m := MessageEffects(payloads[0], ddc, url, w, k);
      var rest := Session(payloads[1..], ddc, url, w, m.next);
      Effects(m.acts + rest.acts, rest.next)
  }

  /** The payloads that are commands, in order. */
  function CommandPayloads(payloads: seq<string>): seq<string>
  {
    if payloads == [] then []
    else (if IsCommandPayload(payloads[0]) then [payloads[0]] else []) + CommandPayloads(payloads[1..])
  }

  /** The payloads published on the state topic, in order. */
  function StatePublications(acts: seq<Action>): seq<string>
  {
    if acts == [] then []
    else
      (if acts[0].Publish? && acts[0].topic == TopicState then [acts[0].payload] else [])
      + StatePublications(acts[1..])
  }

  // ---------------------------------------------------------------------------
  // Home Assistant discovery record
  // ---------------------------------------------------------------------------

  datatype DeviceInfo = DeviceInfo(
    identifiers: seq<string>,
    name: string,
    model: string,
    manufacturer: string,
    swVersion: string)

  datatype DiscoveryConfig = DiscoveryConfig(
    name: string,
    uniqueId: string,
    commandTopic: string,
    stateTopic: string,
    availabilityTopic: string,
    payloadOn: string,
    payloadOff: string,
    stateOn: string,
    stateOff: string,
    optimistic: bool,
    qos: nat,
    retain: bool,
    icon: string,
    device: DeviceInfo)

  /** The record announced on `TopicConfig`; `displayName` is the
      install-time DISPLAY_NAME. Its vocabulary agrees with what `on_message`
      accepts and what the state topic carries. */
  function Discovery(displayName: string): (d: DiscoveryConfig)
    ensures d.name == displayName
    ensures d.commandTopic == TopicCmd && d.stateTopic == TopicState && d.availabilityTopic == TopicAvail
    ensures d.payloadOn == "ON" && d.payloadOff == "OFF"
    ensures IsCommandPayload(d.payloadOn) && IsCommandPayload(d.payloadOff)
    ensures d.stateOn == Payload(On) && d.stateOff == Payload(Off)
    ensures !d.optimistic && d.retain && d.qos == 1
  {
    DiscoveryConfig(
      displayName,
      "rpi_hdmi_monitor_pablohass",
      TopicCmd,
      TopicState,
      TopicAvail,
      "ON",
      "OFF",
      "ON",
      "OFF",
      false,
      1,
      true,
      "mdi:monitor",
      DeviceInfo(
        ["rpi_wall_panel_pablohass"],
        "RPi Wall Panel",
        "Raspberry Pi 4 + 15.6\" Touch Display",
        "Raspberry Pi Foundation",
        "1.0.0"))
  }
}
