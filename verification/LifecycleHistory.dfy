/** What the steps of a run of the machine lifecycle say about the state it comes to. */
module LifecycleHistory {
  import opened Wrappers
  import opened Probe
  import opened Registry
  import opened Lifecycle
  import opened LifecycleInvariant
  import LT = LifecycleTheorems
  import Debouncer
  import VmmActor

  lemma {:induction false} LastStep(s: State, run: seq<Action>)
    requires Legal(s, run) && run != []
    ensures var before := run[..|run| - 1];
            && Legal(s, before) && Enabled(After(s, before), run[|run| - 1])
            && After(s, run) == Apply(After(s, before), run[|run| - 1])
    decreases |run|
  {
    hide Apply, Enabled;
    if |run| == 1 {
      assert run[1..] == [] && run[..0] == [];
    } else {
      LastStep(Apply(s, run[0]), run[1..]);
      assert run[..|run| - 1][1..] == run[1..][..|run| - 2];
    }
  }

  lemma RunIsReachable(run: seq<Action>)
    requires Legal(INITIAL, run)
    ensures LT.Reachable(After(INITIAL, run)) && Inv(After(INITIAL, run))
  {
    hide Legal, After, Inv;
    assert LT.Reachable(After(INITIAL, run));
    LT.ReachableInv(After(INITIAL, run));
  }

  // ---------- mailboxes are first in, first out ----------

  /** What a step sends to the manager: a notice that a machine finished, or a verdict that overturned the last. */
  function Sent(s: State, x: Action): seq<Notice> {
    if x.Deliver? && x.pid in s.actors && s.actors[x.pid].inbox != [] then
      var a := s.actors[x.pid];
      if a.vmm.behavior == VmmActor.Started && a.inbox[0] == VmmActor.Finished then [StoppedNotice(a.vmid, x.pid)] else []
    else if x.Debounce? && x.pid in s.actors && s.actors[x.pid].verdicts != [] then
      var a := s.actors[x.pid];
      var v := a.verdicts[0];
      if Debouncer.Step(CONFIGURED, a.debouncer, v).1 then [ReadinessNotice(a.vmid, x.pid, v)] else []
    else
      []
  }

  lemma DeliveriesToManager(s: State, x: Action)
    requires Enabled(s, x) && (x.Deliver? || x.DeliverStopping?)
    ensures Apply(s, x).box == s.box + Sent(s, x)
  {
  }

  lemma ManagerTakes(s: State)
    requires Enabled(s, ManagerReceives)
    ensures ReceiveNotice(s).box == s.box[1..]
  {
  }

  lemma CallsSendNothing(s: State, p: Pid)
    requires Enabled(s, CallReturns(p))
    ensures ReturnCall(s, p).box == s.box
  {
  }

  lemma CloseSendsNothing(s: State, x: Action)
    requires Enabled(s, x) && IsClose(x)
    ensures Apply(s, x).box == s.box
  {
    hide IsSnapshot;
  }

  /** The manager's mailbox: messages come in at the end, one at a time, and are handled from the front. */
  lemma ManagerMailboxIsFifo(s: State, x: Action)
    requires Enabled(s, x)
    ensures Apply(s, x).box == (if x.ManagerReceives? then s.box[1..] else s.box) + Sent(s, x)
  {
    if x.Deliver? || x.DeliverStopping? {
      DeliveriesToManager(s, x);
      hide Apply, Sent;
    } else if x.ManagerReceives? {
      ManagerTakes(s);
      hide ReceiveNotice;
    } else if x.CallReturns? {
      CallsSendNothing(s, x.pid);
      hide ReturnCall;
    } else if IsClose(x) {
      CloseSendsNothing(s, x);
      hide Apply;
    } else {
      hide Debouncer.Step, Own, OwnEnabled;
    }
  }

  /** What a step posts to the actor `p`. */
  function Posted(s: State, x: Action, p: Pid): seq<VmmActor.Message> {
    if x == MachineExits(p) then [VmmActor.Finished]
    else if x.CloseSends? && HasNext(s) && s.closer.entries[s.closer.next].pid == p then [VmmActor.Stop]
    else []
  }

  /** The steps by which an actor takes its first message. */
  predicate Takes(x: Action, p: Pid) {
    x == Deliver(p) || x == LaunchSucceeds(p) || x == LaunchFails(p)
  }

  ghost predicate IsFifo(a: Actor, b: Actor, x: Action, p: Pid, posted: seq<VmmActor.Message>)
    requires Takes(x, p) ==> a.inbox != []
  {
    b.vmm.life != VmmActor.Dead ==> b.inbox == (if Takes(x, p) then a.inbox[1..] else a.inbox) + posted
  }

  lemma OwnMailboxIsFifo(a: Actor, x: Action)
    requires IsOwn(x) && OwnEnabled(a, x)
    ensures IsFifo(a, Own(a, x), x, x.pid, if x.MachineExits? then [VmmActor.Finished] else [])
  {
  }

  lemma MessagesLeaveMailbox(s: State, x: Action, p: Pid)
    requires Enabled(s, x) && p in s.actors
    requires x.Deliver? || x.DeliverStopping? || x.Debounce?
    ensures p in Apply(s, x).actors && IsFifo(s.actors[p], Apply(s, x).actors[p], x, p, [])
  {
    hide Debouncer.Step;
  }

  lemma ManagerLeavesMailbox(s: State, x: Action, p: Pid)
    requires Enabled(s, x) && p in s.actors && (x.ManagerReceives? || x.CallReturns?)
    ensures p in Apply(s, x).actors && Apply(s, x).actors[p].inbox == s.actors[p].inbox
  {
  }

  lemma CloseFillsMailbox(s: State, x: Action, p: Pid)
    requires Enabled(s, x) && p in s.actors && IsClose(x)
    ensures p in Apply(s, x).actors && IsFifo(s.actors[p], Apply(s, x).actors[p], x, p, Posted(s, x, p))
  {
    hide IsSnapshot;
  }

  /** An actor's mailbox, up to its death: nothing is lost, nothing overtakes, nothing comes twice. */
  lemma ActorMailboxIsFifo(s: State, x: Action, p: Pid)
    requires Enabled(s, x) && p in s.actors && s.nextPid !in s.actors
    ensures p in Apply(s, x).actors
    ensures Apply(s, x).actors[p].vmm.life != VmmActor.Dead ==>
              Apply(s, x).actors[p].inbox
              == (if Takes(x, p) then s.actors[p].inbox[1..] else s.actors[p].inbox) + Posted(s, x, p)
  {
    if x.Deliver? || x.DeliverStopping? || x.Debounce? {
      MessagesLeaveMailbox(s, x, p);
      hide Apply;
    } else if x.ManagerReceives? || x.CallReturns? {
      ManagerLeavesMailbox(s, x, p);
      hide Apply;
    } else if IsClose(x) {
      CloseFillsMailbox(s, x, p);
      hide Apply;
    } else if IsOwn(x) && x.pid == p {
      OwnMailboxIsFifo(s.actors[p], x);
      hide Own;
    }
  }

  // ---------- what happened to one machine ----------

  /** What has become of one actor is what the steps of the run did to it. */
  ghost predicate Tells(done: set<Action>, p: Pid, a: Actor) {
    && Spawn(a.vmid, a.ip) in done
    && (a.hist.launches == 1 <==> LaunchSucceeds(p) in done)
    && (a.pc.Failed? <==> LaunchFails(p) in done)
    && (a.pc.Answered? <==> Answer(p) in done)
    && (a.waiter.Reported? <==> MachineExits(p) in done)
    && (a.children.Halted? <==> HaltChildren(p) in done)
    && (a.call.TimedOut? <==> CallTimesOut(p) in done)
    && (a.call.Tracked? || a.call.Refused? <==> CallReturns(p) in done)
    && (a.call.Tracked? <==> CallReturns(p) in done && Answer(p) in done)
    && (a.call.Refused? <==> CallReturns(p) in done && LaunchFails(p) in done)
    && (a.vmm.life == VmmActor.Dead <==> DeliverStopping(p) in done)
  }

  /** The steps of one actor that `Tells` speaks of. */
  predicate IsTold(x: Action, p: Pid) {
    || x == LaunchSucceeds(p) || x == LaunchFails(p) || x == Answer(p) || x == MachineExits(p) || x == HaltChildren(p)
    || x == CallTimesOut(p) || x == CallReturns(p) || x == DeliverStopping(p)
  }

  ghost predicate Untold(done: set<Action>, p: Pid) {
    forall x :: x in done ==> !IsTold(x, p)
  }

  lemma NewIsTold(done: set<Action>, p: Pid, vmid: VmId, ip: Ip)
    requires Untold(done, p)
    ensures Tells(done + {Spawn(vmid, ip)}, p, NewActor(vmid, ip))
  {
  }

  /** What a step that does not concern an actor leaves alone. */
  predicate SameTale(a: Actor, b: Actor) {
    && b.vmid == a.vmid && b.ip == a.ip && b.hist.launches == a.hist.launches && b.pc == a.pc
    && b.waiter == a.waiter && b.children == a.children && b.call == a.call
    && (b.vmm.life == VmmActor.Dead <==> a.vmm.life == VmmActor.Dead)
  }

  lemma TaleGoesOn(done: set<Action>, p: Pid, a: Actor, x: Action, b: Actor)
    requires Tells(done, p, a) && SameTale(a, b) && !IsTold(x, p)
    ensures Tells(done + {x}, p, b)
  {
  }

  /** What the debouncer of an actor has heard and said. */
  predicate SameHearing(a: Actor, b: Actor) {
    b.verdicts == a.verdicts && b.debouncer == a.debouncer && b.hist.forwarded == a.hist.forwarded
  }

  lemma MessageKeepsTale(s: State, x: Action, p: Pid)
    requires Enabled(s, x) && p in s.actors && VmmActor.Stopping !in s.actors[p].inbox
    requires x.Deliver? || x.Debounce? || (x.DeliverStopping? && x.pid != p)
    ensures p in Apply(s, x).actors && SameTale(s.actors[p], Apply(s, x).actors[p])
  {
    hide Debouncer.Step;
  }

  lemma MessageKeepsHearing(s: State, x: Action, p: Pid)
    requires Enabled(s, x) && p in s.actors && x != Debounce(p)
    requires x.Deliver? || x.Debounce? || x.DeliverStopping?
    ensures p in Apply(s, x).actors && SameHearing(s.actors[p], Apply(s, x).actors[p])
  {
    hide Debouncer.Step, VmmActor.Handle;
  }

  lemma ManagerKeepsTale(s: State, p: Pid)
    requires Enabled(s, ManagerReceives) && p in s.actors
    ensures p in ReceiveNotice(s).actors && SameTale(s.actors[p], ReceiveNotice(s).actors[p])
  {
  }

  lemma ManagerKeepsHearing(s: State, p: Pid)
    requires Enabled(s, ManagerReceives) && p in s.actors
    ensures p in ReceiveNotice(s).actors && SameHearing(s.actors[p], ReceiveNotice(s).actors[p])
  {
  }

  lemma CallKeepsHearing(s: State, q: Pid, p: Pid)
    requires Enabled(s, CallReturns(q)) && p in s.actors
    ensures p in ReturnCall(s, q).actors && SameHearing(s.actors[p], ReturnCall(s, q).actors[p])
  {
  }

  lemma CloseKeepsTale(s: State, x: Action, p: Pid)
    requires Enabled(s, x) && p in s.actors && IsClose(x)
    ensures p in Apply(s, x).actors && SameTale(s.actors[p], Apply(s, x).actors[p])
    ensures SameHearing(s.actors[p], Apply(s, x).actors[p])
  {
    hide IsSnapshot;
  }

  lemma OthersKeepTale(s: State, x: Action, p: Pid)
    requires Enabled(s, x) && p in s.actors && s.nextPid !in s.actors && !IsTold(x, p)
    requires VmmActor.Stopping !in s.actors[p].inbox
    ensures p in Apply(s, x).actors && SameTale(s.actors[p], Apply(s, x).actors[p])
  {
    if x.Deliver? || x.Debounce? || x.DeliverStopping? {
      hide Apply, Enabled, SameTale;
      MessageKeepsTale(s, x, p);
    } else if x.ManagerReceives? {
      hide ReceiveNotice, SameTale;
      ManagerKeepsTale(s, p);
    } else if IsClose(x) {
      hide Apply, Enabled, SameTale;
      CloseKeepsTale(s, x, p);
    } else {
      assert IsOwn(x) && x.pid == p ==> x.ProbeEnds?;
    }
  }

  lemma StartIsTold(done: set<Action>, p: Pid, a: Actor, x: Action)
    requires x.LaunchSucceeds? || x.LaunchFails? || x.Answer?
    requires Tells(done, p, a) && PcInv(a) && x.pid == p && OwnEnabled(a, x)
    ensures Tells(done + {x}, p, Own(a, x))
  {
  }

  lemma EndIsTold(done: set<Action>, p: Pid, a: Actor, x: Action)
    requires x.MachineExits? || x.HaltChildren? || x.CallTimesOut?
    requires Tells(done, p, a) && x.pid == p && OwnEnabled(a, x)
    ensures Tells(done + {x}, p, Own(a, x))
  {
  }

  lemma OwnStepIsTold(done: set<Action>, p: Pid, a: Actor, x: Action)
    requires Tells(done, p, a) && PcInv(a) && IsTold(x, p) && IsOwn(x) && OwnEnabled(a, x)
    ensures Tells(done + {x}, p, Own(a, x))
  {
    hide Tells, PcInv, Own, OwnEnabled;
    if x.LaunchSucceeds? || x.LaunchFails? || x.Answer? {
      StartIsTold(done, p, a, x);
    } else {
      EndIsTold(done, p, a, x);
    }
  }

  lemma ReturnIsTold(done: set<Action>, s: State, p: Pid)
    requires Enabled(s, CallReturns(p)) && Tells(done, p, s.actors[p]) && ViewInv(p, Look(s, p))
    requires s.actors[p].vmid != ""
    ensures p in ReturnCall(s, p).actors && Tells(done + {CallReturns(p)}, p, ReturnCall(s, p).actors[p])
  {
    hide DebouncerInv, BoxInv, StopInv;
  }

  lemma HandlingStoppingIsTold(done: set<Action>, p: Pid, a: Actor, awaited: bool)
    requires Tells(done, p, a)
    ensures Tells(done + {DeliverStopping(p)}, p, Handled(a, VmmActor.Stopping, [], awaited))
  {
  }

  lemma StoppingIsTold(done: set<Action>, s: State, p: Pid)
    requires Enabled(s, DeliverStopping(p)) && Tells(done, p, s.actors[p])
    ensures var t := React(s, p, VmmActor.Stopping, []);
            p in t.actors && Tells(done + {DeliverStopping(p)}, p, t.actors[p])
  {
    hide Tells, Handled, VmmActor.Handle;
    HandlingStoppingIsTold(done, p, s.actors[p], Awaited(s, p));
  }

  ghost predicate Told(done: set<Action>, s: State, p: Pid) {
    if p in s.actors then Tells(done, p, s.actors[p]) else Untold(done, p)
  }

  lemma LookIsOf(s: State, p: Pid)
    requires p in s.actors
    ensures Look(s, p).a == s.actors[p]
  {
  }

  lemma ToldOwnStep(done: set<Action>, s: State, x: Action, p: Pid)
    requires IsOwn(x) && x.pid == p && p in s.actors && OwnEnabled(s.actors[p], x)
    requires Tells(done, p, s.actors[p]) && IsTold(x, p) && PcInv(s.actors[p])
    ensures var t := Put(s, p, Own(s.actors[p], x)); p in t.actors && Tells(done + {x}, p, t.actors[p])
  {
    hide PcInv, Tells, Own, OwnEnabled, IsTold;
    OwnStepIsTold(done, p, s.actors[p], x);
  }

  lemma ToldStep(done: set<Action>, s: State, x: Action, p: Pid)
    requires Enabled(s, x) && p in s.actors && Tells(done, p, s.actors[p]) && IsTold(x, p)
    requires ViewInv(p, Look(s, p)) && PcInv(s.actors[p]) && s.actors[p].vmid != ""
    ensures p in Apply(s, x).actors && Tells(done + {x}, p, Apply(s, x).actors[p])
  {
    hide PcInv, Tells, ViewInv, Look, Own, OwnEnabled, ReturnCall, React, Put;
    if x.CallReturns? {
      ReturnIsTold(done, s, p);
    } else if x.DeliverStopping? {
      StoppingIsTold(done, s, p);
    } else {
      ToldOwnStep(done, s, x, p);
    }
  }

  lemma KnownIsTold(done: set<Action>, s: State, x: Action, p: Pid)
    requires Inv(s) && Enabled(s, x) && p in s.actors && Tells(done, p, s.actors[p])
    ensures p in Apply(s, x).actors && Tells(done + {x}, p, Apply(s, x).actors[p])
  {
    assert IdsInv(s) && s.nextPid !in s.actors;
    LT.OneViewOf(s, p);
    assert VmmActor.Stopping !in s.actors[p].inbox && PcInv(s.actors[p]) && s.actors[p].vmid != "" by { LookIsOf(s, p); }
    hide Inv, IdsInv, PcInv, Tells, ViewInv, Look, Apply, Enabled, IsTold;
    if IsTold(x, p) {
      ToldStep(done, s, x, p);
    } else {
      OthersKeepTale(s, x, p);
      TaleGoesOn(done, p, s.actors[p], x, Apply(s, x).actors[p]);
    }
  }

  lemma UnknownIsNotTold(s: State, x: Action, p: Pid)
    requires Enabled(s, x) && p !in s.actors
    ensures !IsTold(x, p)
  {
  }

  /** A step that does not spawn `p` leaves it unknown, and does nothing to it. */
  lemma UnknownStays(s: State, x: Action, p: Pid)
    requires Enabled(s, x) && p !in s.actors && !(x.Spawn? && p == s.nextPid)
    ensures p !in Apply(s, x).actors && !IsTold(x, p)
  {
    UnknownIsNotTold(s, x, p);
    hide IsSnapshot, VmmActor.Handle, Debouncer.Step, Own, OwnEnabled, IsTold, Handled, Debounced, SentStop, Registered;
  }

  lemma StepIsTold(done: set<Action>, s: State, x: Action, p: Pid)
    requires Inv(s) && Enabled(s, x) && Told(done, s, p)
    ensures Told(done + {x}, Apply(s, x), p)
  {
    hide Inv, Tells, IsTold;
    if p in s.actors {
      hide Apply, Enabled;
      KnownIsTold(done, s, x, p);
    } else if x.Spawn? && p == s.nextPid {
      NewIsTold(done, p, x.vmid, x.ip);
    } else {
      hide Apply, Enabled;
      UnknownStays(s, x, p);
    }
  }

  /** The steps of a run. */
  function Steps(run: seq<Action>): set<Action> {
    set x | x in run
  }

  /** The history of one machine, over every run: its state says exactly which of these steps were taken. */
  lemma {:induction false} RunTells(run: seq<Action>, p: Pid)
    requires Legal(INITIAL, run)
    ensures Told(Steps(run), After(INITIAL, run), p)
  {
    hide Apply, Enabled, Inv, Tells, IsTold;
    if run == [] {
    } else {
      var before := run[..|run| - 1];
      LastStep(INITIAL, run);
      RunTells(before, p);
      RunIsReachable(before);
      StepIsTold(Steps(before), After(INITIAL, before), run[|run| - 1], p);
      assert run == before + [run[|run| - 1]];
      assert Steps(run) == Steps(before) + {run[|run| - 1]};
    }
  }

  // ---------- from the probes to the registry ----------

  /** The verdicts of the probes of one machine, in the order they ended. */
  function Probes(run: seq<Action>, p: Pid): seq<Verdict> {
    if run == [] then []
    else
      var x := run[|run| - 1];
      Probes(run[..|run| - 1], p) + if x.ProbeEnds? && x.pid == p then [x.verdict] else []
  }

  /** How many of them the debouncer has handled. */
  function Debounces(run: seq<Action>, p: Pid): nat {
    if run == [] then 0 else Debounces(run[..|run| - 1], p) + if run[|run| - 1] == Debounce(p) then 1 else 0
  }

  /** The debouncer has handled the first `n` verdicts, in order, and the others wait in its mailbox. */
  ghost predicate Heard(probes: seq<Verdict>, n: nat, a: Actor) {
    && n <= |probes| && a.verdicts == probes[n..]
    && a.debouncer == Debouncer.RunFrom(CONFIGURED, Debouncer.INITIAL, probes[..n])
    && a.hist.forwarded == Debouncer.Forwarded(CONFIGURED, Debouncer.INITIAL, probes[..n])
  }

  lemma ProbeIsHeard(probes: seq<Verdict>, n: nat, a: Actor, x: Action)
    requires Heard(probes, n, a) && x.ProbeEnds? && OwnEnabled(a, x)
    ensures Heard(probes + [x.verdict], n, Own(a, x))
  {
    assert (probes + [x.verdict])[..n] == probes[..n];
    assert (probes + [x.verdict])[n..] == probes[n..] + [x.verdict];
  }

  lemma DebounceIsHeard(probes: seq<Verdict>, n: nat, a: Actor)
    requires Heard(probes, n, a) && a.verdicts != []
    ensures Heard(probes, n + 1, Debounced(a))
  {
    assert probes[..n + 1][..n] == probes[..n] && probes[..n + 1][n] == probes[n] == a.verdicts[0];
    assert probes[n..][1..] == probes[n + 1..];
  }

  ghost predicate HeardOf(run: seq<Action>, s: State, p: Pid) {
    if p in s.actors then Heard(Probes(run, p), Debounces(run, p), s.actors[p])
    else Probes(run, p) == [] && Debounces(run, p) == 0
  }

  lemma OthersAreNotHeard(s: State, x: Action, p: Pid)
    requires Enabled(s, x) && p in s.actors && s.nextPid !in s.actors
    requires !(x.ProbeEnds? && x.pid == p) && x != Debounce(p)
    ensures p in Apply(s, x).actors && SameHearing(s.actors[p], Apply(s, x).actors[p])
  {
    if x.Deliver? || x.Debounce? || x.DeliverStopping? {
      hide Apply, Enabled, SameHearing;
      MessageKeepsHearing(s, x, p);
    } else if x.ManagerReceives? {
      hide ReceiveNotice, SameHearing;
      ManagerKeepsHearing(s, p);
    } else if x.CallReturns? {
      hide ReturnCall, SameHearing;
      CallKeepsHearing(s, x.pid, p);
    } else if IsClose(x) {
      hide Apply, Enabled, SameHearing;
      CloseKeepsTale(s, x, p);
    }
  }

  lemma OneMore(run: seq<Action>, x: Action, p: Pid)
    ensures Probes(run + [x], p) == Probes(run, p) + if x.ProbeEnds? && x.pid == p then [x.verdict] else []
    ensures Debounces(run + [x], p) == Debounces(run, p) + if x == Debounce(p) then 1 else 0
  {
    assert (run + [x])[..|run|] == run;
  }

  lemma HearingStays(probes: seq<Verdict>, n: nat, a: Actor, b: Actor)
    requires Heard(probes, n, a) && SameHearing(a, b)
    ensures Heard(probes, n, b)
  {
  }

  lemma KnownIsHeard(run: seq<Action>, s: State, x: Action, p: Pid)
    requires Enabled(s, x) && p in s.actors && s.nextPid !in s.actors
    requires Heard(Probes(run, p), Debounces(run, p), s.actors[p])
    ensures p in Apply(s, x).actors && Heard(Probes(run + [x], p), Debounces(run + [x], p), Apply(s, x).actors[p])
  {
    OneMore(run, x, p);
    hide Probes, Debounces, Heard;
    if x.ProbeEnds? && x.pid == p {
      hide Own, OwnEnabled;
      ProbeIsHeard(Probes(run, p), Debounces(run, p), s.actors[p], x);
    } else if x == Debounce(p) {
      hide Debounced, Debouncer.Step;
      DebounceIsHeard(Probes(run, p), Debounces(run, p), s.actors[p]);
    } else {
      hide Apply, Enabled;
      OthersAreNotHeard(s, x, p);
      assert Probes(run, p) + [] == Probes(run, p);
      HearingStays(Probes(run, p), Debounces(run, p), s.actors[p], Apply(s, x).actors[p]);
    }
  }

  /** Nothing is probed or debounced for an actor that is not there yet. */
  lemma UnknownIsNotHeard(s: State, x: Action, p: Pid)
    requires Enabled(s, x) && p !in s.actors
    ensures !(x.ProbeEnds? && x.pid == p) && x != Debounce(p)
    ensures p in Apply(s, x).actors ==> Heard([], 0, Apply(s, x).actors[p])
  {
    hide IsSnapshot, VmmActor.Handle, Debouncer.Step, Own, OwnEnabled;
  }

  lemma StepIsHeard(run: seq<Action>, s: State, x: Action, p: Pid)
    requires Enabled(s, x) && s.nextPid !in s.actors && HeardOf(run, s, p)
    ensures HeardOf(run + [x], Apply(s, x), p)
  {
    hide Apply, Enabled, Heard, Probes, Debounces;
    if p in s.actors {
      KnownIsHeard(run, s, x, p);
    } else {
      OneMore(run, x, p);
      UnknownIsNotHeard(s, x, p);
    }
  }

  lemma PidIsFresh(run: seq<Action>)
    requires Legal(INITIAL, run)
    ensures After(INITIAL, run).nextPid !in After(INITIAL, run).actors
  {
    RunIsReachable(run);
    hide Legal, After, CloserInv, ViewsInv;
  }

  /**
   From the probes to the manager, over every run: the debouncer handles the verdicts of the probes as they
   came, and what was forwarded to the manager is what those verdicts call for.
   */
  lemma {:induction false} ProbesAreHeard(run: seq<Action>, p: Pid)
    requires Legal(INITIAL, run)
    ensures HeardOf(run, After(INITIAL, run), p)
  {
    hide Apply, Enabled, Heard;
    if run == [] {
    } else {
      hide Probes, Debounces;
      var before := run[..|run| - 1];
      LastStep(INITIAL, run);
      ProbesAreHeard(before, p);
      PidIsFresh(before);
      hide HeardOf;
      StepIsHeard(before, After(INITIAL, before), run[|run| - 1], p);
      assert run == before + [run[|run| - 1]];
    }
  }

  lemma {:induction false} ProbedBefore(run: seq<Action>, p: Pid, v: Verdict)
    requires v in Probes(run, p)
    ensures ProbeEnds(p, v) in run
  {
    if run[|run| - 1] == ProbeEnds(p, v) {
    } else {
      ProbedBefore(run[..|run| - 1], p, v);
    }
  }

  lemma {:induction false} ForwardedCame(h: seq<Verdict>, v: Verdict)
    requires v in Debouncer.Forwarded(CONFIGURED, Debouncer.INITIAL, h)
    ensures v in h
  {
    hide Debouncer.Step;
    if v == h[|h| - 1] {
    } else {
      ForwardedCame(h[..|h| - 1], v);
    }
  }

  lemma DeliveredThenPending(s: State, p: Pid)
    requires Inv(s) && p in s.actors
    ensures s.actors[p].hist.delivered + Events(s.box, p) == s.actors[p].hist.forwarded
  {
    LT.OneViewOf(s, p);
  }

  lemma ReadyWasHeard(s: State, id: VmId, probes: seq<Verdict>, n: nat)
    requires LT.Reachable(s) && Inv(s) && id in s.db && s.db[id].ready && s.db[id].pid in s.actors
    requires Heard(probes, n, s.actors[s.db[id].pid])
    ensures Ready in probes
  {
    var p := s.db[id].pid;
    hide Inv;
    LT.ReadyEntryServes(s, id);
    hide LT.Reachable;
    DeliveredThenPending(s, p);
    assert Ready in s.actors[p].hist.delivered + Events(s.box, p);
    ForwardedCame(probes[..n], Ready);
  }

  /** The probes of the actor an entry names were heard. */
  lemma EntryIsHeard(run: seq<Action>, id: VmId)
    requires Legal(INITIAL, run) && id in After(INITIAL, run).db
    ensures var s := After(INITIAL, run);
            var p := s.db[id].pid;
            LT.Reachable(s) && Inv(s) && p in s.actors && Heard(Probes(run, p), Debounces(run, p), s.actors[p])
  {
    var s := After(INITIAL, run);
    RunIsReachable(run);
    ProbesAreHeard(run, s.db[id].pid);
    hide Legal, After, Inv, Heard;
    LT.NoUnexplainedEntry(s, id);
  }

  /** No machine is marked ready of which no probe ever succeeded. */
  lemma ReadyWasProbed(run: seq<Action>, id: VmId)
    requires Legal(INITIAL, run) && id in After(INITIAL, run).db && After(INITIAL, run).db[id].ready
    ensures ProbeEnds(After(INITIAL, run).db[id].pid, Ready) in run
  {
    var s := After(INITIAL, run);
    var p := s.db[id].pid;
    EntryIsHeard(run, id);
    hide Legal, After, Inv, Heard, LT.Reachable;
    ReadyWasHeard(s, id, Probes(run, p), Debounces(run, p));
    ProbedBefore(run, p, Ready);
  }

  lemma FlagOfHeard(s: State, id: VmId, probes: seq<Verdict>, n: nat)
    requires LT.Reachable(s) && id in s.db && s.db[id].pid in s.actors && Heard(probes, n, s.actors[s.db[id].pid])
    requires s.actors[s.db[id].pid].verdicts == [] && Events(s.box, s.db[id].pid) == []
    ensures var a := s.actors[s.db[id].pid];
            var d := a.hist.delivered;
            (s.db[id].ready <==> Debouncer.RunFrom(CONFIGURED, Debouncer.INITIAL, probes).behavior == Ready)
            <==> !(|d| == a.hist.deliveredAtAdd && d != [] && d[|d| - 1] == Ready)
  {
    hide Debouncer.RunFrom, Debouncer.Forwarded;
    LT.FlagMatchesDebouncer(s, id);
    assert probes[..n] == probes;
  }

  /**
   The flag follows the probes: when all verdicts of a machine have been debounced and all its events
   handled, its entry is marked ready if and only if its whole probe history leaves a debouncer ready,
   unless the entry missed a `Ready` that came before it; and in that case the two differ.
   */
  lemma FlagFollowsProbes(run: seq<Action>, id: VmId)
    requires Legal(INITIAL, run) && id in After(INITIAL, run).db
    ensures var s := After(INITIAL, run);
            var p := s.db[id].pid;
            && p in s.actors
            && (s.actors[p].verdicts == [] && Events(s.box, p) == [] ==>
                  var d := s.actors[p].hist.delivered;
                  (s.db[id].ready <==> Debouncer.RunFrom(CONFIGURED, Debouncer.INITIAL, Probes(run, p)).behavior == Ready)
                  <==> !(|d| == s.actors[p].hist.deliveredAtAdd && d != [] && d[|d| - 1] == Ready))
  {
    var s := After(INITIAL, run);
    var p := s.db[id].pid;
    EntryIsHeard(run, id);
    hide Legal, After, Inv, Heard, LT.Reachable, Debouncer.RunFrom, Probes, Debounces, Events;
    if s.actors[p].verdicts == [] && Events(s.box, p) == [] {
      FlagOfHeard(s, id, Probes(run, p), Debounces(run, p));
    }
  }

  // ---------- the world is free ----------

  lemma PcOf(s: State, p: Pid)
    requires LT.Reachable(s) && p in s.actors
    ensures PcInv(s.actors[p])
  {
    var v := LT.ReachableView(s, p);
    hide LT.Reachable, PcInv;
  }

  /**
   Nothing is held up: every message in a mailbox can be taken, every goroutine that has something to do can
   do it, and whatever the outside world decides can happen: a launch may succeed or fail, a probe may end
   with either verdict, a machine may exit and a call may time out.
   */
  lemma NothingIsHeldUp(s: State, p: Pid)
    requires LT.Reachable(s) && p in s.actors
    ensures var a := s.actors[p];
            && (a.pc.Fresh? ==> Enabled(s, LaunchSucceeds(p)) && Enabled(s, LaunchFails(p)))
            && (a.pc.Launching? ==> Enabled(s, Answer(p)))
            && (a.call.Waiting? ==> Enabled(s, CallTimesOut(p)))
            && (a.call.GotStarted? || a.call.GotFailure? ==> Enabled(s, CallReturns(p)))
            && (a.waiter.Blocked? ==> Enabled(s, MachineExits(p)))
            && (a.children.Probing? ==> Enabled(s, ProbeEnds(p, Ready)) && Enabled(s, ProbeEnds(p, Unready)))
            && (a.children.Probing? && a.verdicts != [] ==> Enabled(s, Debounce(p)))
            && (a.children.Probing? && a.vmm.life == VmmActor.Dead ==> Enabled(s, HaltChildren(p)))
            && ((a.pc.Answered? || a.pc.Failed?) && a.vmm.life == VmmActor.Alive && a.inbox != [] ==> Enabled(s, Deliver(p)))
            && (a.vmm.life == VmmActor.Dying ==> Enabled(s, DeliverStopping(p)))
  {
    PcOf(s, p);
    hide LT.Reachable, IsSnapshot, FreshId;
  }

  /** Before its launch and after its end there is nothing to be done about a machine. */
  lemma NothingOutOfTurn(s: State, p: Pid)
    requires LT.Reachable(s) && p in s.actors
    ensures var a := s.actors[p];
            && (Enabled(s, LaunchSucceeds(p)) || Enabled(s, LaunchFails(p)) ==> a.pc.Fresh? && a.hist.launches == 0)
            && (forall v :: Enabled(s, ProbeEnds(p, v)) ==> a.hist.launches == 1 && !a.children.Halted?)
            && (Enabled(s, MachineExits(p)) ==> a.hist.launches == 1 && !a.waiter.Reported?)
            && (Enabled(s, HaltChildren(p)) ==> a.vmm.life == VmmActor.Dead)
            && (Enabled(s, CallTimesOut(p)) ==> a.call.Waiting?)
            && (Enabled(s, CallReturns(p)) ==> a.pc.Answered? || a.pc.Failed?)
  {
    PcOf(s, p);
    hide LT.Reachable;
  }
}
