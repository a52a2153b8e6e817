/**
 The daemon's process state and its callbacks, imperatively: the
 write-once DDC/CI capability flag, the count of subprocess calls made so
 far and the trace of every effect performed. Each method is tied to the
 function of `HdmiModel` that specifies it.
 */
module HdmiPanel {
  import opened HdmiModel

  class Panel {
    /** The outcome the host gives each subprocess call, by call number. */
    const world: World
    /** HA_URL, the dashboard the kiosk shows (filled in at install time). */
    const haUrl: string
    /** Number of subprocess calls made so far. */
    var calls: nat
    /** DDC_AVAILABLE. */
    var ddcAvailable: bool
    /** Every effect performed so far, oldest first. */
    var trace: seq<Action>

    /** The process at import time: DDC_AVAILABLE starts False. */
    constructor (world: World, haUrl: string)
      ensures this.world == world && this.haUrl == haUrl
      ensures calls == 0 && !ddcAvailable && trace == []
    {
      this.world := world;
      this.haUrl := haUrl;
      calls := 0;
      ddcAvailable := false;
      trace := [];
    }

    /** `subprocess.run` / `subprocess.Popen` of one command. */
    method Exec(c: Command) returns (o: Outcome)
      modifies this`calls, this`trace
      ensures o == world(old(calls)) && calls == old(calls) + 1
      ensures trace == old(trace) + [Call(c, o)]
    {
      o := world(calls);
      calls := calls + 1;
      trace := trace + [Call(c, o)];
    }

    /** `time.sleep`. */
    method Pause(millis: nat)
      modifies this`trace
      ensures trace == old(trace) + [Sleep(millis)]
    {
      trace := trace + [Sleep(millis)];
    }

    /** `check_ddc`: probe once and store the verdict; any exception stores
        False. Returns exactly what it stored. */
    method CheckDdc() returns (available: bool)
      modifies this`calls, this`trace, this`ddcAvailable
      ensures available == ddcAvailable == DdcVerdict(world(old(calls)))
      ensures calls == old(calls) + 1
      ensures trace == old(trace) + [Call(DdcDetect, world(old(calls)))]
    {
      var o := Exec(DdcDetect);
      match o
      case Raised =>
        ddcAvailable := false;
        return false;
      case Completed(out) =>
        ddcAvailable := Contains(out, "Display 1");
        return ddcAvailable;
    }

    /** `get_hdmi_status`. */
    method GetHdmiStatus() returns (s: PowerState)
      modifies this`calls, this`trace
      ensures s == StatusOf(world(old(calls)))
      ensures calls == old(calls) + 1
      ensures trace == old(trace) + [Call(QueryStatus, world(old(calls)))]
    {
      var o := Exec(QueryStatus);
      match o
      case Raised =>
        s := Unknown;
      case Completed(out) =>
        s := if Contains(out, "1") then On else Off;
    }

    /** `blank_screen`. */
    method BlankScreen()
      modifies this`calls, this`trace
      ensures var b := Blanking(world, old(calls));
              trace == old(trace) + b.acts && calls == b.next
    {
      var o := Exec(Pkill);
      if o.Raised? {
        return;
      }
      Pause(500);
      o := Exec(XsetStandby);
    }

    /** `restore_display`. */
    method RestoreDisplay()
      modifies this`calls, this`trace
      ensures var r := Restoring(haUrl, world, old(calls));
              trace == old(trace) + r.acts && calls == r.next
    {
      var o := Exec(Pkill);
      if o.Raised? {
        return;
      }
      Pause(1000);
      o := Exec(LaunchKiosk(haUrl));
    }

    /** The OFF branch of `set_hdmi_power` (lines 123-141) and the final
        query: blank, settle, dim when DDC/CI is available, cut the signal. */
    method PowerDown() returns (r: PowerState)
      modifies this`calls, this`trace
      ensures var p := PowerOff(ddcAvailable, world, old(calls));
              trace == old(trace) + p.acts && calls == p.next && r == p.state
    {
      ghost var t0 := trace;
      ghost var b := Blanking(world, calls);
      BlankScreen();
      Pause(1000);
      ghost var settled := b.acts + [Sleep(1000)];
      assert trace == t0 + settled;
      if ddcAvailable {
        var o := Exec(DdcSetVcp(0));
        if o.Raised? {
          return Unknown;
        }
        Pause(500);
        assert trace == t0 + (settled + [Call(DdcSetVcp(0), o)] + [Sleep(500)]);
      }
      var o := Exec(VcgenPower(false));
      if o.Raised? {
        return Unknown;
      }
      r := GetHdmiStatus();
    }

    /** The ON branch of `set_hdmi_power` (lines 146-166) and the final
        query: signal on, wait, restore brightness when DDC/CI is available,
        relaunch the kiosk. */
    method PowerUp() returns (r: PowerState)
      modifies this`calls, this`trace
      ensures var p := PowerOn(ddcAvailable, haUrl, world, old(calls));
              trace == old(trace) + p.acts && calls == p.next && r == p.state
    {
      ghost var t0 := trace;
      var o := Exec(VcgenPower(true));
      if o.Raised? {
        return Unknown;
      }
      Pause(3000);
      if ddcAvailable {
        o := Exec(DdcSetVcp(100));
        if o.Raised? {
          return Unknown;
        }
      }
      ghost var lit := trace[|t0|..];
      assert trace == t0 + lit;
      RestoreDisplay();
      r := GetHdmiStatus();
    }

    /** `set_hdmi_power`: "OFF" powers down, any other state powers up. An
        exception from a command it runs itself ends the sequence with
        Unknown; otherwise the state is queried afresh. */
    method SetHdmiPower(state: string) returns (r: PowerState)
      modifies this`calls, this`trace
      ensures var p := PowerSequence(state, ddcAvailable, haUrl, world, old(calls));
              trace == old(trace) + p.acts && calls == p.next && r == p.state
    {
      if state == "OFF" {
        r := PowerDown();
      } else {
        r := PowerUp();
      }
    }

    /** `on_connect`: on success subscribe to the command topic, announce
        availability, then publish the queried state; both retained. */
    method OnConnect(rc: int)
      modifies this`calls, this`trace
      ensures var e := ConnectEffects(rc, world, old(calls));
              trace == old(trace) + e.acts && calls == e.next
    {
      if rc == 0 {
        trace := trace + [Subscribe(TopicCmd)];
        trace := trace + [Publish(TopicAvail, "online", true)];
        var current := GetHdmiStatus();
        trace := trace + [Publish(TopicState, Payload(current), true)];
      }
    }

    /** `on_message` for a decoded payload. */
    method OnMessage(payload: string)
      modifies this`calls, this`trace
      ensures var m := MessageEffects(payload, ddcAvailable, haUrl, world, old(calls));
              trace == old(trace) + m.acts && calls == m.next
    {
      if payload in ["ON", "OFF"] {
        var newState := SetHdmiPower(payload);
        trace := trace + [Publish(TopicState, Payload(newState), true)];
      }
    }
  }
}
