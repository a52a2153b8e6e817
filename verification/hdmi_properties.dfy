/**
 What the sequencer promises, proved about the functions of `HdmiModel`.
 */
module HdmiProperties {
  import opened HdmiModel

  // ---------------------------------------------------------------------------
  // Classification of subprocess output
  // ---------------------------------------------------------------------------

  /** The recursive substring search finds exactly the occurrences there are. */
  lemma {:induction false} ContainsIff(s: string, sub: string)
    ensures Contains(s, sub) <==> exists i: nat :: OccursAt(s, sub, i)
    decreases |s|
  {
    if sub <= s {
      assert OccursAt(s, sub, 0);
    }
    if |s| == 0 {
      if exists i: nat :: OccursAt(s, sub, i) {
        var i: nat :| OccursAt(s, sub, i);
        assert sub == [];
      }
    } else {
      ContainsIff(s[1..], sub);
      if Contains(s[1..], sub) {
        var i: nat :| OccursAt(s[1..], sub, i);
        SliceShift(s, i, |sub|);
        assert OccursAt(s, sub, i + 1);
      }
      if exists i: nat :: OccursAt(s, sub, i) {
        var i: nat :| OccursAt(s, sub, i);
        if i == 0 {
          assert sub <= s;
        } else {
          SliceShift(s, i - 1, |sub|);
          assert OccursAt(s[1..], sub, i - 1);
        }
      }
    }
  }

  /** A slice of the tail is the slice of the whole one index further on. */
  lemma SliceShift(s: string, i: nat, n: nat)
    requires i + n < |s|
    ensures s[1..][i..i + n] == s[i + 1..i + 1 + n]
  {
    var a, b := s[1..][i..i + n], s[i + 1..i + 1 + n];
    forall j | 0 <= j < n
      ensures a[j] == b[j]
    {
    }
    assert a == b;
  }

  /** `get_hdmi_status` reports ON exactly when the query's output holds a
      '1', OFF when it completed without one, UNKNOWN exactly when it
      raised; no other value. */
  lemma StatusQuery(o: Outcome)
    ensures StatusOf(o) == Unknown <==> o.Raised?
    ensures StatusOf(o) == On <==> o.Completed? && exists i :: 0 <= i < |o.stdout| && o.stdout[i] == '1'
    ensures StatusOf(o) == Off <==> o.Completed? && forall i :: 0 <= i < |o.stdout| ==> o.stdout[i] != '1'
    ensures Payload(StatusOf(o)) in ["ON", "OFF", "UNKNOWN"]
  {
    if o.Completed? {
      var s := o.stdout;
      ContainsIff(s, "1");
      forall i: nat
        ensures OccursAt(s, "1", i) <==> i < |s| && s[i] == '1'
      {
        if i < |s| {
          assert s[i..i + 1] == [s[i]];
        }
      }
    }
  }

  /** `check_ddc` finds the capability exactly when the probe completed and
      its output holds "Display 1"; an exception never enables it. */
  lemma DdcProbe(o: Outcome)
    ensures DdcVerdict(o) <==> o.Completed? && exists i: nat :: OccursAt(o.stdout, "Display 1", i)
    ensures DdcVerdict(o) ==> |o.stdout| >= 9
    ensures o.Raised? ==> !DdcVerdict(o)
  {
    if o.Completed? {
      ContainsIff(o.stdout, "Display 1");
    }
  }

  // ---------------------------------------------------------------------------
  // Helpers about traces
  // ---------------------------------------------------------------------------

  lemma {:induction false} CommandsAppend(a: seq<Action>, b: seq<Action>)
    ensures Commands(a + b) == Commands(a) + Commands(b)
    decreases |a|
  {
    if a == [] {
      assert a + b == b;
    } else {
      var head := if a[0].Call? then [a[0].cmd] else [];
      assert (a + b)[0] == a[0];
      assert (a + b)[1..] == a[1..] + b;
      assert Commands(a + b) == head + Commands(a[1..] + b);
      CommandsAppend(a[1..], b);
      assert Commands(a) == head + Commands(a[1..]);
    }
  }

  lemma CommandsOne(x: Action)
    ensures Commands([x]) == if x.Call? then [x.cmd] else []
  {
  }

  /** Every occurrence of `b` after a first `a` that no `b` precedes. */
  lemma PrecedesSplit(pre: seq<Command>, a: Command, post: seq<Command>, b: Command)
    requires b !in pre && a != b
    ensures Precedes(pre + [a] + post, a, b)
  {
    var cs := pre + [a] + post;
    forall j | 0 <= j < |cs| && cs[j] == b
      ensures exists i :: 0 <= i < j && cs[i] == a
    {
      assert j > |pre|;
      assert cs[|pre|] == a;
    }
  }

  lemma PrecedesAbsent(cs: seq<Command>, a: Command, b: Command)
    requires b !in cs
    ensures Precedes(cs, a, b)
  {
  }

  // ---------------------------------------------------------------------------
  // The commands each step runs, in order
  // ---------------------------------------------------------------------------

  /** `blank_screen` runs `pkill` and, unless that raised, `xset`. */
  lemma BlankingCommands(w: World, k: nat)
    ensures Commands(Blanking(w, k).acts) == if w(k).Raised? then [Pkill] else [Pkill, XsetStandby]
    ensures !DirectRaised(Blanking(w, k).acts)
  {
    if !w(k).Raised? {
      CommandsAppend([Call(Pkill, w(k))], [Sleep(500), Call(XsetStandby, w(k + 1))]);
      CommandsAppend([Sleep(500)], [Call(XsetStandby, w(k + 1))]);
      CommandsOne(Call(Pkill, w(k)));
      CommandsOne(Sleep(500));
      CommandsOne(Call(XsetStandby, w(k + 1)));
    } else {
      CommandsOne(Call(Pkill, w(k)));
    }
  }

  /** `restore_display` runs `pkill` and, unless that raised, launches the
      kiosk on `url`. */
  lemma RestoringCommands(url: string, w: World, k: nat)
    ensures Commands(Restoring(url, w, k).acts) == if w(k).Raised? then [Pkill] else [Pkill, LaunchKiosk(url)]
    ensures !DirectRaised(Restoring(url, w, k).acts)
  {
    if !w(k).Raised? {
      CommandsAppend([Call(Pkill, w(k))], [Sleep(1000), Call(LaunchKiosk(url), w(k + 1))]);
      CommandsAppend([Sleep(1000)], [Call(LaunchKiosk(url), w(k + 1))]);
      CommandsOne(Call(Pkill, w(k)));
      CommandsOne(Sleep(1000));
      CommandsOne(Call(LaunchKiosk(url), w(k + 1)));
    } else {
      CommandsOne(Call(Pkill, w(k)));
    }
  }

  lemma DirectRaisedAppend(a: seq<Action>, b: seq<Action>)
    ensures DirectRaised(a + b) <==> DirectRaised(a) || DirectRaised(b)
  {
    if DirectRaised(a) {
      var i :| 0 <= i < |a| && a[i].Call? && IsDirect(a[i].cmd) && a[i].outcome.Raised?;
      assert (a + b)[i] == a[i];
    }
    if DirectRaised(b) {
      var i :| 0 <= i < |b| && b[i].Call? && IsDirect(b[i].cmd) && b[i].outcome.Raised?;
      assert (a + b)[|a| + i] == b[i];
    }
    if DirectRaised(a + b) {
      var i :| 0 <= i < |a + b| && (a + b)[i].Call? && IsDirect((a + b)[i].cmd) && (a + b)[i].outcome.Raised?;
      if i < |a| {
        assert a[i] == (a + b)[i];
      } else {
        assert b[i - |a|] == (a + b)[i];
      }
    }
  }

  /** Appending one action adds its command, if any, and raises directly
      exactly when it is itself a raising direct call. */
  lemma Snoc(acts: seq<Action>, x: Action)
    ensures Commands(acts + [x]) == Commands(acts) + (if x.Call? then [x.cmd] else [])
    ensures DirectRaised(acts + [x]) <==> DirectRaised(acts) || (x.Call? && IsDirect(x.cmd) && x.outcome.Raised?)
  {
    CommandsAppend(acts, [x]);
    CommandsOne(x);
    DirectRaisedAppend(acts, [x]);
    assert [x][0] == x;
  }

  /** The commands of the OFF branch: blanking, the brightness command when
      DDC/CI is available, the signal cut, the status query; a raising
      direct command ends the list. */
  lemma OffCommands(ddc: bool, w: World, k: nat)
    ensures var b := Blanking(w, k);
            var s := if ddc then b.next + 1 else b.next;
            var dim := if ddc then [DdcSetVcp(0)] else [];
            Commands(PowerOff(ddc, w, k).acts) ==
              if ddc && w(b.next).Raised? then Commands(b.acts) + dim
              else if w(s).Raised? then Commands(b.acts) + dim + [VcgenPower(false)]
              else Commands(b.acts) + dim + [VcgenPower(false), QueryStatus]
    ensures var b := Blanking(w, k);
            var s := if ddc then b.next + 1 else b.next;
            DirectRaised(PowerOff(ddc, w, k).acts) <==> (ddc && w(b.next).Raised?) || w(s).Raised?
  {
    var b := Blanking(w, k);
    BlankingCommands(w, k);
    var settled := b.acts + [Sleep(1000)];
    Snoc(b.acts, Sleep(1000));
    var j := b.next;
    var dc := Call(DdcSetVcp(0), w(j));
    var p := PowerOff(ddc, w, k);
    if ddc && w(j).Raised? {
      assert p.acts == settled + [dc];
      Snoc(settled, dc);
    } else {
      var dimmed := if ddc then settled + [dc] + [Sleep(500)] else settled;
      if ddc {
        Snoc(settled, dc);
        Snoc(settled + [dc], Sleep(500));
      }
      assert Commands(dimmed) == Commands(b.acts) + (if ddc then [DdcSetVcp(0)] else []);
      assert !DirectRaised(dimmed);
      var s := if ddc then j + 1 else j;
      var sig := Call(VcgenPower(false), w(s));
      Snoc(dimmed, sig);
      if w(s).Raised? {
        assert p.acts == dimmed + [sig];
      } else {
        assert p.acts == dimmed + [sig] + [Call(QueryStatus, w(s + 1))];
        Snoc(dimmed + [sig], Call(QueryStatus, w(s + 1)));
      }
    }
  }

  /** The commands of the ON branch: the signal, the brightness command when
      DDC/CI is available, `restore_display`'s commands, the status query; a
      raising direct command ends the list. */
  lemma OnCommands(ddc: bool, url: string, w: World, k: nat)
    ensures var j := if ddc then k + 2 else k + 1;
            var r := Restoring(url, w, j);
            var lit := if ddc then [DdcSetVcp(100)] else [];
            Commands(PowerOn(ddc, url, w, k).acts) ==
              if w(k).Raised? then [VcgenPower(true)]
              else if ddc && w(k + 1).Raised? then [VcgenPower(true)] + lit
              else [VcgenPower(true)] + lit + Commands(r.acts) + [QueryStatus]
    ensures DirectRaised(PowerOn(ddc, url, w, k).acts) <==> w(k).Raised? || (ddc && w(k + 1).Raised?)
  {
    var sig := Call(VcgenPower(true), w(k));
    Snoc([], sig);
    assert [] + [sig] == [sig];
    if !w(k).Raised? {
      var woken := [sig] + [Sleep(3000)];
      Snoc([sig], Sleep(3000));
      var dc := Call(DdcSetVcp(100), w(k + 1));
      Snoc(woken, dc);
      if !(ddc && w(k + 1).Raised?) {
        var lit := if ddc then woken + [dc] else woken;
        var j := if ddc then k + 2 else k + 1;
        var r := Restoring(url, w, j);
        RestoringCommands(url, w, j);
        CommandsAppend(lit, r.acts);
        DirectRaisedAppend(lit, r.acts);
        Snoc(lit + r.acts, Call(QueryStatus, w(r.next)));
      }
    }
  }

  // ---------------------------------------------------------------------------
  // Ordering, gating and the reported state of `set_hdmi_power`
  // ---------------------------------------------------------------------------

  /** The ordering facts of the OFF branch, on its list of commands. */
  lemma OffOrder(blank: seq<Command>, dim: seq<Command>, tail: seq<Command>, cs: seq<Command>)
    requires blank == [Pkill] || blank == [Pkill, XsetStandby]
    requires dim == [] || dim == [DdcSetVcp(0)]
    requires tail == [] || tail == [VcgenPower(false)] || tail == [VcgenPower(false), QueryStatus]
    requires cs == blank + dim + tail
    ensures |cs| > 0 && cs[0] == Pkill
    ensures Precedes(cs, Pkill, VcgenPower(false))
    ensures XsetStandby in cs ==> Precedes(cs, XsetStandby, VcgenPower(false))
    ensures dim != [] ==> Precedes(cs, DdcSetVcp(0), VcgenPower(false))
    ensures dim != [] && XsetStandby in cs ==> Precedes(cs, XsetStandby, DdcSetVcp(0))
  {
    assert cs == [] + [Pkill] + cs[1..];
    PrecedesSplit([], Pkill, cs[1..], VcgenPower(false));
    if blank == [Pkill, XsetStandby] {
      assert cs == [Pkill] + [XsetStandby] + cs[2..];
      PrecedesSplit([Pkill], XsetStandby, cs[2..], VcgenPower(false));
      PrecedesSplit([Pkill], XsetStandby, cs[2..], DdcSetVcp(0));
    } else {
      assert XsetStandby !in cs;
    }
    if dim != [] {
      assert cs == blank + [DdcSetVcp(0)] + tail;
      PrecedesSplit(blank, DdcSetVcp(0), tail, VcgenPower(false));
    }
  }

  /** Powering off blanks first: `pkill` opens the sequence, and the blanking
      commands, then the brightness command when DDC/CI is available, come
      before the signal is cut. */
  lemma OffSequence(ddc: bool, url: string, w: World, k: nat, r: Reply, cs: seq<Command>)
    requires r == PowerSequence("OFF", ddc, url, w, k) && cs == Commands(r.acts)
    ensures |cs| > 0 && cs[0] == Pkill
    ensures Precedes(cs, Pkill, VcgenPower(false))
    ensures XsetStandby in cs ==> Precedes(cs, XsetStandby, VcgenPower(false))
    ensures ddc ==> Precedes(cs, DdcSetVcp(0), VcgenPower(false))
    ensures ddc && XsetStandby in cs ==> Precedes(cs, XsetStandby, DdcSetVcp(0))
  {
    OffCommands(ddc, w, k);
    var b := Blanking(w, k);
    BlankingCommands(w, k);
    var s := if ddc then b.next + 1 else b.next;
    var dim := if ddc then [DdcSetVcp(0)] else [];
    var tail := if ddc && w(b.next).Raised? then []
                else if w(s).Raised? then [VcgenPower(false)]
                else [VcgenPower(false), QueryStatus];
    OffOrder(Commands(b.acts), dim, tail, cs);
  }

  /** Failures inside `blank_screen` never keep the signal on: the signal
      is cut unless the brightness command itself raised, which then ends
      the sequence. */
  lemma OffSignalCut(ddc: bool, url: string, w: World, k: nat, r: Reply, cs: seq<Command>)
    requires r == PowerSequence("OFF", ddc, url, w, k) && cs == Commands(r.acts)
    ensures |r.acts| > 0
    ensures VcgenPower(false) !in cs <==> ddc && r.acts[|r.acts| - 1] == Call(DdcSetVcp(0), Raised)
  {
    OffCommands(ddc, w, k);
    BlankingCommands(w, k);
  }

  /** The ordering facts of the ON branch, on its list of commands. */
  lemma OnOrder(lit: seq<Command>, restore: seq<Command>, url: string, cs: seq<Command>)
    requires lit == [VcgenPower(true)] || lit == [VcgenPower(true), DdcSetVcp(100)]
    requires restore == [] || restore == [Pkill] || restore == [Pkill, LaunchKiosk(url)]
    requires cs == lit + restore || (restore != [] && cs == lit + restore + [QueryStatus])
    ensures |cs| > 0 && cs[0] == VcgenPower(true)
    ensures Precedes(cs, VcgenPower(true), Pkill) && Precedes(cs, VcgenPower(true), LaunchKiosk(url))
    ensures DdcSetVcp(100) in cs ==>
              Precedes(cs, DdcSetVcp(100), Pkill) && Precedes(cs, DdcSetVcp(100), LaunchKiosk(url))
    ensures Precedes(cs, Pkill, LaunchKiosk(url))
  {
    assert cs == [] + [VcgenPower(true)] + cs[1..];
    PrecedesSplit([], VcgenPower(true), cs[1..], Pkill);
    PrecedesSplit([], VcgenPower(true), cs[1..], LaunchKiosk(url));
    if lit == [VcgenPower(true), DdcSetVcp(100)] {
      assert cs == [VcgenPower(true)] + [DdcSetVcp(100)] + cs[2..];
      PrecedesSplit([VcgenPower(true)], DdcSetVcp(100), cs[2..], Pkill);
      PrecedesSplit([VcgenPower(true)], DdcSetVcp(100), cs[2..], LaunchKiosk(url));
    }
    if restore == [] {
      assert cs == lit;
      PrecedesAbsent(cs, Pkill, LaunchKiosk(url));
    } else {
      assert cs == lit + [Pkill] + cs[|lit| + 1..];
      PrecedesSplit(lit, Pkill, cs[|lit| + 1..], LaunchKiosk(url));
    }
  }

  /** Powering on lights the signal first, restores the brightness when
      DDC/CI is available, and only then touches the kiosk: `pkill` before
      the launch on `url`. */
  lemma OnSequence(state: string, ddc: bool, url: string, w: World, k: nat, r: Reply, cs: seq<Command>)
    requires state != "OFF"
    requires r == PowerSequence(state, ddc, url, w, k) && cs == Commands(r.acts)
    ensures |cs| > 0 && cs[0] == VcgenPower(true)
    ensures Precedes(cs, VcgenPower(true), Pkill) && Precedes(cs, VcgenPower(true), LaunchKiosk(url))
    ensures ddc ==> Precedes(cs, DdcSetVcp(100), Pkill) && Precedes(cs, DdcSetVcp(100), LaunchKiosk(url))
    ensures Precedes(cs, Pkill, LaunchKiosk(url))
  {
    OnCommands(ddc, url, w, k);
    var j := if ddc then k + 2 else k + 1;
    RestoringCommands(url, w, j);
    var lit := if ddc && !w(k).Raised? then [VcgenPower(true), DdcSetVcp(100)] else [VcgenPower(true)];
    var restore := if w(k).Raised? || (ddc && w(k + 1).Raised?) then [] else Commands(Restoring(url, w, j).acts);
    OnOrder(lit, restore, url, cs);
    if ddc && w(k).Raised? {
      PrecedesAbsent(cs, DdcSetVcp(100), Pkill);
      PrecedesAbsent(cs, DdcSetVcp(100), LaunchKiosk(url));
    }
  }

  /** Failures inside `restore_display` never abort the sequence: it runs
      exactly when no direct command raised, and whatever it meets, the
      status query follows it. */
  lemma OnRestoreIsolated(state: string, ddc: bool, url: string, w: World, k: nat, r: Reply, cs: seq<Command>)
    requires state != "OFF"
    requires r == PowerSequence(state, ddc, url, w, k) && cs == Commands(r.acts)
    ensures Pkill in cs <==> !DirectRaised(r.acts)
    ensures Pkill in cs ==> |cs| > 0 && cs[|cs| - 1] == QueryStatus
  {
    OnCommands(ddc, url, w, k);
    RestoringCommands(url, w, if ddc then k + 2 else k + 1);
  }

  /** Brightness commands run only when DDC/CI is available, always at the
      level of their branch (0 to power off, 100 to power on), and a
      sequence that reaches its status query with DDC/CI available has run
      one. */
  lemma BrightnessGated(state: string, ddc: bool, url: string, w: World, k: nat, r: Reply, cs: seq<Command>)
    requires r == PowerSequence(state, ddc, url, w, k) && cs == Commands(r.acts)
    ensures !ddc ==> forall c :: c in cs ==> !c.DdcSetVcp?
    ensures forall c :: c in cs && c.DdcSetVcp? ==> c.level == if state == "OFF" then 0 else 100
    ensures ddc && QueryStatus in cs ==> DdcSetVcp(if state == "OFF" then 0 else 100) in cs
  {
    if state == "OFF" {
      OffCommands(ddc, w, k);
      BlankingCommands(w, k);
    } else {
      OnCommands(ddc, url, w, k);
      RestoringCommands(url, w, if ddc then k + 2 else k + 1);
    }
  }

  /** The state `set_hdmi_power` returns, in both branches: when no direct
      command raised, the sequence ends with a fresh status query and the
      result is that query's classification; otherwise it ends at the
      raising command, skipping the rest, and the result is UNKNOWN. */
  lemma QueriedResult(state: string, ddc: bool, url: string, w: World, k: nat, r: Reply, cs: seq<Command>)
    requires r == PowerSequence(state, ddc, url, w, k) && cs == Commands(r.acts)
    ensures |r.acts| > 0
    ensures QueryStatus in cs <==> !DirectRaised(r.acts)
    ensures !DirectRaised(r.acts) ==>
              var last := r.acts[|r.acts| - 1];
              last.Call? && last.cmd == QueryStatus && r.state == StatusOf(last.outcome)
    ensures DirectRaised(r.acts) ==>
              var last := r.acts[|r.acts| - 1];
              r.state == Unknown && last.Call? && IsDirect(last.cmd) && last.outcome.Raised?
    ensures r.state == Unknown <==> DirectRaised(r.acts) || r.acts[|r.acts| - 1] == Call(QueryStatus, Raised)
  {
    if state == "OFF" {
      QueriedOff(ddc, w, k, r, cs);
    } else {
      QueriedOn(ddc, url, w, k, r, cs);
    }
  }

  /** `QueriedResult` for the OFF branch. */
  lemma QueriedOff(ddc: bool, w: World, k: nat, r: Reply, cs: seq<Command>)
    requires r == PowerOff(ddc, w, k) && cs == Commands(r.acts)
    ensures |r.acts| > 0
    ensures QueryStatus in cs <==> !DirectRaised(r.acts)
    ensures !DirectRaised(r.acts) ==>
              var last := r.acts[|r.acts| - 1];
              last.Call? && last.cmd == QueryStatus && r.state == StatusOf(last.outcome)
    ensures DirectRaised(r.acts) ==>
              var last := r.acts[|r.acts| - 1];
              r.state == Unknown && last.Call? && IsDirect(last.cmd) && last.outcome.Raised?
    ensures r.state == Unknown <==> DirectRaised(r.acts) || r.acts[|r.acts| - 1] == Call(QueryStatus, Raised)
  {
    OffCommands(ddc, w, k);
    BlankingCommands(w, k);
    StatusQuery(r.acts[|r.acts| - 1].outcome);
  }

  /** `QueriedResult` for the ON branch. */
  lemma QueriedOn(ddc: bool, url: string, w: World, k: nat, r: Reply, cs: seq<Command>)
    requires r == PowerOn(ddc, url, w, k) && cs == Commands(r.acts)
    ensures |r.acts| > 0
    ensures QueryStatus in cs <==> !DirectRaised(r.acts)
    ensures !DirectRaised(r.acts) ==>
              var last := r.acts[|r.acts| - 1];
              last.Call? && last.cmd == QueryStatus && r.state == StatusOf(last.outcome)
    ensures DirectRaised(r.acts) ==>
              var last := r.acts[|r.acts| - 1];
              r.state == Unknown && last.Call? && IsDirect(last.cmd) && last.outcome.Raised?
    ensures r.state == Unknown <==> DirectRaised(r.acts) || r.acts[|r.acts| - 1] == Call(QueryStatus, Raised)
  {
    OnCommands(ddc, url, w, k);
    RestoringCommands(url, w, if ddc then k + 2 else k + 1);
    StatusQuery(r.acts[|r.acts| - 1].outcome);
  }

  /** The commands powering off can run. */
  lemma OffCommandSet(ddc: bool, w: World, k: nat)
    ensures forall c :: c in Commands(PowerOff(ddc, w, k).acts) ==>
              c in {Pkill, XsetStandby, DdcSetVcp(0), VcgenPower(false), QueryStatus}
  {
    OffCommands(ddc, w, k);
    BlankingCommands(w, k);
    var b := Blanking(w, k);
    var blank := Commands(b.acts);
    assert forall c :: c in blank ==> c == Pkill || c == XsetStandby;
    var tail: seq<Command> := [DdcSetVcp(0), VcgenPower(false), QueryStatus];
    var cs := Commands(PowerOff(ddc, w, k).acts);
    assert cs[..|blank|] == blank;
    assert forall i :: |blank| <= i < |cs| ==> cs[i] in tail;
  }

  /** The commands powering on can run. */
  lemma OnCommandSet(ddc: bool, url: string, w: World, k: nat)
    ensures forall c :: c in Commands(PowerOn(ddc, url, w, k).acts) ==>
              c in {VcgenPower(true), DdcSetVcp(100), Pkill, LaunchKiosk(url), QueryStatus}
  {
    OnCommands(ddc, url, w, k);
    RestoringCommands(url, w, if ddc then k + 2 else k + 1);
  }

  /** Each branch runs only its own commands: powering off never lights the
      signal, restores brightness or launches the kiosk; powering on never
      cuts the signal, dims or forces standby, and launches the kiosk only
      on `url`. */
  lemma BranchExclusive(state: string, ddc: bool, url: string, w: World, k: nat, r: Reply, cs: seq<Command>)
    requires r == PowerSequence(state, ddc, url, w, k) && cs == Commands(r.acts)
    ensures state == "OFF" ==> VcgenPower(true) !in cs && DdcSetVcp(100) !in cs
    ensures state == "OFF" ==> forall c :: c in cs ==> !c.LaunchKiosk?
    ensures state != "OFF" ==> VcgenPower(false) !in cs && XsetStandby !in cs && DdcSetVcp(0) !in cs
    ensures state != "OFF" ==> forall c :: c in cs && c.LaunchKiosk? ==> c.url == url
  {
    if state == "OFF" {
      OffCommandSet(ddc, w, k);
    } else {
      OnCommandSet(ddc, url, w, k);
    }
  }

  // ---------------------------------------------------------------------------
  // Dispatch of MQTT messages
  // ---------------------------------------------------------------------------

  /** No action of the list is an MQTT client call. */
  predicate Silent(acts: seq<Action>)
  {
    forall i :: 0 <= i < |acts| ==> acts[i].Call? || acts[i].Sleep?
  }

  lemma {:induction false} StatePublicationsAppend(a: seq<Action>, b: seq<Action>)
    ensures StatePublications(a + b) == StatePublications(a) + StatePublications(b)
    decreases |a|
  {
    if a == [] {
      assert a + b == b;
    } else {
      assert (a + b)[1..] == a[1..] + b;
      StatePublicationsAppend(a[1..], b);
    }
  }

  lemma {:induction false} SilentPublishesNothing(acts: seq<Action>)
    requires Silent(acts)
    ensures StatePublications(acts) == []
    decreases |acts|
  {
    if acts != [] {
      assert Silent(acts[1..]) by {
        forall i | 0 <= i < |acts[1..]| ensures acts[1..][i].Call? || acts[1..][i].Sleep? {
          assert acts[1..][i] == acts[i + 1];
        }
      }
      SilentPublishesNothing(acts[1..]);
    }
  }

  /** `set_hdmi_power` itself never talks to the broker. */
  lemma SequenceSilent(state: string, ddc: bool, url: string, w: World, k: nat)
    ensures Silent(PowerSequence(state, ddc, url, w, k).acts)
  {
  }

  /** `on_message` acts on exactly the payloads "ON" and "OFF". For those it
      runs the power sequence and then publishes its result, retained, on
      the state topic, as its only publication; any other payload causes no
      action at all and consumes no subprocess call. */
  lemma MessageDispatch(payload: string, ddc: bool, url: string, w: World, k: nat, m: Effects)
    requires m == MessageEffects(payload, ddc, url, w, k)
    ensures IsCommandPayload(payload) <==> payload == "ON" || payload == "OFF"
    ensures !IsCommandPayload(payload) ==> m.acts == [] && m.next == k
    ensures IsCommandPayload(payload) ==>
              var r := PowerSequence(payload, ddc, url, w, k);
              && Commands(m.acts) == Commands(r.acts)
              && StatePublications(m.acts) == [Payload(r.state)]
              && m.acts[|m.acts| - 1] == Publish(TopicState, Payload(r.state), true)
              && m.next == r.next
  {
    if IsCommandPayload(payload) {
      var r := PowerSequence(payload, ddc, url, w, k);
      var pub := Publish(TopicState, Payload(r.state), true);
      Snoc(r.acts, pub);
      SequenceSilent(payload, ddc, url, w, k);
      SilentPublishesNothing(r.acts);
      StatePublicationsAppend(r.acts, [pub]);
      assert [pub][1..] == [];
    }
  }

  /** Payloads that are not commands leave no trace in a session: handling
      a stream of messages does exactly what handling its commands alone
      does. */
  lemma {:induction false} SessionIgnoresInvalid(payloads: seq<string>, ddc: bool, url: string, w: World, k: nat)
    ensures Session(payloads, ddc, url, w, k) == Session(CommandPayloads(payloads), ddc, url, w, k)
    decreases |payloads|
  {
    if payloads != [] {
      var m := MessageEffects(payloads[0], ddc, url, w, k);
      SessionIgnoresInvalid(payloads[1..], ddc, url, w, m.next);
      if IsCommandPayload(payloads[0]) {
        var cp := CommandPayloads(payloads);
        assert cp == [payloads[0]] + CommandPayloads(payloads[1..]);
        assert cp[0] == payloads[0] && cp[1..] == CommandPayloads(payloads[1..]);
      } else {
        var rest := Session(payloads[1..], ddc, url, w, k);
        assert m.acts == [] && m.next == k;
        assert Session(payloads, ddc, url, w, k) == Effects([] + rest.acts, rest.next);
        assert [] + rest.acts == rest.acts;
        assert CommandPayloads(payloads) == CommandPayloads(payloads[1..]);
      }
    }
  }

  /** Every command of a session is answered by exactly one state
      publication, and every state published is ON, OFF or UNKNOWN. */
  lemma {:induction false} SessionReports(payloads: seq<string>, ddc: bool, url: string, w: World, k: nat)
    ensures var pubs := StatePublications(Session(payloads, ddc, url, w, k).acts);
            |pubs| == |CommandPayloads(payloads)| &&
            forall p :: p in pubs ==> p == "ON" || p == "OFF" || p == "UNKNOWN"
    decreases |payloads|
  {
    if payloads != [] {
      var m := MessageEffects(payloads[0], ddc, url, w, k);
      var rest := Session(payloads[1..], ddc, url, w, m.next);
      SessionReports(payloads[1..], ddc, url, w, m.next);
      MessageDispatch(payloads[0], ddc, url, w, k, m);
      StatePublicationsAppend(m.acts, rest.acts);
      if IsCommandPayload(payloads[0]) {
        var r := PowerSequence(payloads[0], ddc, url, w, k);
        assert Payload(r.state) in ["ON", "OFF", "UNKNOWN"];
      }
    }
  }

  /** Without DDC/CI no brightness command runs, however many messages
      arrive. */
  lemma {:induction false} SessionBrightnessGated(payloads: seq<string>, ddc: bool, url: string, w: World, k: nat)
    requires !ddc
    ensures forall c :: c in Commands(Session(payloads, ddc, url, w, k).acts) ==> !c.DdcSetVcp?
    decreases |payloads|
  {
    if payloads != [] {
      var m := MessageEffects(payloads[0], ddc, url, w, k);
      var rest := Session(payloads[1..], ddc, url, w, m.next);
      SessionBrightnessGated(payloads[1..], ddc, url, w, m.next);
      MessageDispatch(payloads[0], ddc, url, w, k, m);
      CommandsAppend(m.acts, rest.acts);
      if IsCommandPayload(payloads[0]) {
        var r := PowerSequence(payloads[0], ddc, url, w, k);
        BrightnessGated(payloads[0], ddc, url, w, k, r, Commands(r.acts));
      }
    }
  }

  // ---------------------------------------------------------------------------
  // Connection and discovery
  // ---------------------------------------------------------------------------

  /** On a successful connection the subscription comes first, then the
      retained `online`, then the retained state, which is the classification
      of the query made between them; a failed connection does nothing. */
  lemma ConnectOrder(rc: int, w: World, k: nat, e: Effects)
    requires e == ConnectEffects(rc, w, k)
    ensures rc != 0 ==> e.acts == [] && e.next == k
    ensures rc == 0 ==>
              && |e.acts| == 4 && e.next == k + 1
              && e.acts[0] == Subscribe(TopicCmd)
              && e.acts[1] == Publish(TopicAvail, "online", true)
              && e.acts[2] == Call(QueryStatus, w(k))
              && e.acts[3] == Publish(TopicState, Payload(StatusOf(w(k))), true)
              && Commands(e.acts) == [QueryStatus]
              && StatePublications(e.acts) == [Payload(StatusOf(w(k)))]
  {
    if rc == 0 {
      var a := e.acts;
      assert a == [a[0]] + [a[1]] + [a[2]] + [a[3]];
      CommandsAppend([a[0]] + [a[1]] + [a[2]], [a[3]]);
      CommandsAppend([a[0]] + [a[1]], [a[2]]);
      CommandsAppend([a[0]], [a[1]]);
      CommandsOne(a[0]);
      CommandsOne(a[1]);
      CommandsOne(a[2]);
      CommandsOne(a[3]);
      StatePublicationsAppend([a[0]] + [a[1]] + [a[2]], [a[3]]);
      StatePublicationsAppend([a[0]] + [a[1]], [a[2]]);
      StatePublicationsAppend([a[0]], [a[1]]);
      assert [a[0]][1..] == [] && [a[1]][1..] == [] && [a[2]][1..] == [] && [a[3]][1..] == [];
    }
  }

  /** The payloads Home Assistant is told to send drive the matching branch:
      its ON command powers the display up and its OFF command powers it
      down, and both are acted on by `on_message`. */
  lemma DiscoveryDrivesSequence(name: string, ddc: bool, url: string, w: World, k: nat)
    ensures IsCommandPayload(Discovery(name).payloadOn) && IsCommandPayload(Discovery(name).payloadOff)
    ensures PowerSequence(Discovery(name).payloadOn, ddc, url, w, k) == PowerOn(ddc, url, w, k)
    ensures PowerSequence(Discovery(name).payloadOff, ddc, url, w, k) == PowerOff(ddc, w, k)
  {
    var d := Discovery(name);
    assert d.payloadOn == "ON" && d.payloadOff == "OFF";
    assert "ON" != "OFF" by { assert "ON"[1] != "OFF"[1]; }
  }
}
