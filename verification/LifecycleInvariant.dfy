/** What every step of the machine lifecycle keeps. */
module LifecycleInvariant {
  import opened Wrappers
  import opened Probe
  import opened Registry
  import opened Lifecycle
  import Debouncer
  import VmmActor

  // ---------- what waits in the manager's mailbox ----------

  ghost predicate IsEvent(n: Notice, p: Pid) {
    n.ReadinessNotice? && n.from == p
  }

  ghost predicate IsStop(n: Notice, p: Pid) {
    n.StoppedNotice? && n.from == p
  }

  /** The readiness events of actor `p` in a mailbox, in order. */
  ghost function Events(box: seq<Notice>, p: Pid): seq<Verdict> {
    if box == [] then []
    else
      var n := box[|box| - 1];
      Events(box[..|box| - 1], p) + if IsEvent(n, p) then [n.verdict] else []
  }

  /** The number of `Stopped` notices of actor `p` in a mailbox. */
  ghost function StopNotices(box: seq<Notice>, p: Pid): nat {
    if box == [] then 0
    else
      var n := box[|box| - 1];
      StopNotices(box[..|box| - 1], p) + if IsStop(n, p) then 1 else 0
  }

  lemma {:induction false} EventsConcat(x: seq<Notice>, y: seq<Notice>, p: Pid)
    ensures Events(x + y, p) == Events(x, p) + Events(y, p)
  {
    if y == [] {
      assert x + y == x;
    } else {
      assert (x + y)[..|x + y| - 1] == x + y[..|y| - 1];
      EventsConcat(x, y[..|y| - 1], p);
    }
  }

  lemma {:induction false} StopNoticesConcat(x: seq<Notice>, y: seq<Notice>, p: Pid)
    ensures StopNotices(x + y, p) == StopNotices(x, p) + StopNotices(y, p)
  {
    if y == [] {
      assert x + y == x;
    } else {
      assert (x + y)[..|x + y| - 1] == x + y[..|y| - 1];
      StopNoticesConcat(x, y[..|y| - 1], p);
    }
  }

  lemma BoxGrows(box: seq<Notice>, n: Notice, p: Pid)
    ensures Events(box + [n], p) == Events(box, p) + if IsEvent(n, p) then [n.verdict] else []
    ensures StopNotices(box + [n], p) == StopNotices(box, p) + if IsStop(n, p) then 1 else 0
  {
    assert (box + [n])[..|box|] == box;
  }

  lemma BoxShrinks(box: seq<Notice>, p: Pid)
    requires box != []
    ensures Events(box, p) == (if IsEvent(box[0], p) then [box[0].verdict] else []) + Events(box[1..], p)
    ensures StopNotices(box, p) == (if IsStop(box[0], p) then 1 else 0) + StopNotices(box[1..], p)
  {
    var first := [box[0]];
    assert box == first + box[1..];
    EventsConcat(first, box[1..], p);
    StopNoticesConcat(first, box[1..], p);
    assert first[..0] == [];
  }

  /** An actor that never wrote to a mailbox has nothing in it. */
  lemma {:induction false} NothingFromStrangers(box: seq<Notice>, p: Pid)
    requires forall i :: 0 <= i < |box| ==> box[i].from != p
    ensures Events(box, p) == [] && StopNotices(box, p) == 0
  {
    if box == [] {
    } else {
      NothingFromStrangers(box[..|box| - 1], p);
    }
  }

  // ---------- the invariant ----------

  /** The actor takes its machine to be running and is not on its way out; the machine itself may have exited. */
  predicate Running(a: Actor) {
    a.vmm.behavior == VmmActor.Started && a.vmm.life == VmmActor.Alive
  }

  /** A stop is waiting for this actor, under way, or over. */
  predicate Halting(a: Actor) {
    VmmActor.Stop in a.inbox || !Running(a)
  }

  /** The registry flag that the delivered readiness events call for. */
  predicate Flag(h: History) {
    |h.delivered| > h.deliveredAtAdd && h.delivered[|h.delivered| - 1] == Ready
  }

  /** The program counters of one actor and of its `StartVMM` call fit together. */
  predicate PcInv(a: Actor) {
    && match a.pc {
       case Fresh => a.inbox == [VmmActor.Start] && (a.call.Waiting? || a.call.TimedOut?)
       case Launching => a.call.Waiting? || a.call.TimedOut?
       case Answered => a.call.GotStarted? || a.call.Tracked? || a.call.TimedOut?
       case Failed => a.call.GotFailure? || a.call.Refused? || a.call.TimedOut?
    }
    && (!a.pc.Fresh? ==> VmmActor.Start !in a.inbox)
    && VmmActor.Stopping !in a.inbox
    && (!a.pc.Answered? ==> a.vmm == VmmActor.INITIAL)
    && (a.vmm.life == VmmActor.Dying ==> a.vmm.behavior == VmmActor.Started)
    && (a.vmm.life == VmmActor.Dead ==> a.vmm.behavior == VmmActor.Stopped)
    && (a.children.Unspawned? <==> a.pc.Fresh? || a.pc.Failed?)
    && (a.waiter.NoWaiter? <==> a.pc.Fresh? || a.pc.Failed?)
    && (a.waiter.Reported? && (a.pc.Launching? || Running(a)) ==> VmmActor.Finished in a.inbox)
    && (VmmActor.Finished in a.inbox || a.vmm.life != VmmActor.Alive ==> a.waiter.Reported?)
    && a.hist.launches == a.hist.halts + VmmActor.One(a.pc.Launching? || a.vmm.behavior == VmmActor.Started)
    && a.hist.launches == VmmActor.One(a.pc.Launching? || a.pc.Answered?)
  }

  /** The debouncer agrees with what it has forwarded. */
  ghost predicate DebouncerInv(a: Actor) {
    var f := a.hist.forwarded;
    && Debouncer.InRange(CONFIGURED, a.debouncer)
    && (forall i :: 0 <= i < |f| ==> f[i] == Debouncer.Alternating(i))
    && a.debouncer.behavior == Debouncer.Alternating(|f| + 1)
    && (a.children.Unspawned? ==> f == [])
  }

  /** What `Close` and the registry have done to one actor. */
  predicate StopInv(a: Actor) {
    && a.hist.stops <= 1
    && (VmmActor.Stop in a.inbox ==> a.hist.stops > 0)
    && (a.hist.stops > 0 || a.hist.deleted ==> a.call.Tracked? && Halting(a))
    && (a.call.Tracked? ==> a.hist.deliveredAtAdd <= |a.hist.delivered|)
    && (a.hist.deleted ==> a.hist.stops > 0 || (a.hist.notices > 0 && !a.hist.early))
    && (a.hist.late ==> a.call.Tracked?)
    && (a.hist.early ==> a.hist.notices > 0)
    && (a.hist.notices > 0 && !a.hist.early ==> a.hist.deleted)
    && (a.hist.reply.Unanswered? <==> !(a.pc.Answered? && a.vmm == VmmActor.INITIAL))
    && (!a.hist.reply.Unanswered? ==> a.hist.stops > 0)
  }

  /** Everything the rest of the system holds about one actor. */
  datatype View = View(
    a: Actor,
    events: seq<Verdict>,     // its readiness events in the manager's mailbox
    notices: nat,             // its `Stopped` notices there
    entry: Option<Entry>,     // its registry entry
    inHand: bool)             // `Close` has it in hand

  ghost function Look(s: State, p: Pid): View
    requires p in s.actors
  {
    var a := s.actors[p];
    View(a, Events(s.box, p), StopNotices(s.box, p), if a.vmid in s.db then Some(s.db[a.vmid]) else None, InHand(s, p))
  }

  /** One actor and the mailbox of the manager. */
  ghost predicate BoxInv(v: View) {
    && v.a.hist.delivered + v.events == v.a.hist.forwarded
    && v.a.hist.notices + v.notices == VmmActor.One(v.a.vmm.life != VmmActor.Alive)
  }

  /** One actor, the registry and `Close`. */
  ghost predicate DbInv(p: Pid, v: View) {
    && (v.entry.Some? <==> v.a.call.Tracked? && !v.a.hist.deleted)
    && (v.entry.Some? ==> v.entry.value == Entry(v.a.vmid, p, v.a.ip, Flag(v.a.hist)))
    && (v.a.hist.stops > 0 ==> v.a.hist.deleted || v.inHand)
    && (v.inHand ==> v.a.hist.stops > 0)
    && (v.entry.Some? ==> Running(v.a) || v.notices > 0 || v.inHand || v.a.hist.early)
  }

  ghost predicate ViewInv(p: Pid, v: View) {
    PcInv(v.a) && DebouncerInv(v.a) && StopInv(v.a) && BoxInv(v) && DbInv(p, v)
  }

  ghost predicate Owned(s: State, id: VmId, p: Pid) {
    p in s.actors && s.actors[p].vmid == id
  }

  ghost predicate IdsInv(s: State) {
    && (forall p :: p in s.actors ==> p < s.nextPid && s.actors[p].vmid != "")
    && (forall p, q :: p in s.actors && q in s.actors && s.actors[p].vmid == s.actors[q].vmid ==> p == q)
    && (forall id :: id in s.db ==> Owned(s, id, s.db[id].pid))
    && (forall i :: 0 <= i < |s.box| ==> Owned(s, s.box[i].id, s.box[i].from))
    && |s.db| + s.dels == s.adds
  }

  /** `Close` has sent `Stop` to the entry at `i`. */
  predicate Sent(c: Closer, i: nat) {
    match c
    case Idle => false
    case Sweep(_, next, phase) => i < next || (i == next && !phase.Sending?)
    case Closed(_) => true
  }

  /** `Close` is done with the entry at `i`. */
  predicate Passed(c: Closer, i: nat) {
    match c
    case Idle => false
    case Sweep(_, next, _) => i < next
    case Closed(_) => true
  }

  ghost predicate SweepInv(s: State, i: nat)
    requires !s.closer.Idle? && i < |s.closer.entries|
  {
    var e := s.closer.entries[i];
    && Owned(s, e.vmid, e.pid)
    && s.actors[e.pid].call.Tracked?
    && s.actors[e.pid].hist.stops == VmmActor.One(Sent(s.closer, i))
    && (Passed(s.closer, i) ==> s.actors[e.pid].hist.deleted)
  }

  /** The sweep: what it has passed is gone from the registry, what lies ahead got no `Stop` yet. */
  ghost predicate CloserInv(s: State) {
    && (s.closer.Sweep? ==>
          && s.closer.next <= |s.closer.entries|
          && (s.closer.next == |s.closer.entries| ==> s.closer.phase.Sending?))
    && (!s.closer.Idle? ==>
          && (forall i :: 0 <= i < |s.closer.entries| ==> SweepInv(s, i))
          && (forall i, j :: 0 <= i < j < |s.closer.entries| ==> s.closer.entries[i].pid != s.closer.entries[j].pid))
  }

  ghost predicate ViewsInv(s: State) {
    forall p :: p in s.actors ==> ViewInv(p, Look(s, p))
  }

  ghost predicate CoreInv(s: State) {
    IdsInv(s) && CloserInv(s) && ViewsInv(s)
  }

  /** While `Close` waits, its future has been completed if and only if the actor in hand has answered in time. */
  ghost predicate ReplyInv(s: State) {
    HasNext(s) && s.closer.phase.Awaiting? ==>
      && NextKnown(s)
      && (s.closer.phase.replied <==> s.actors[s.closer.entries[s.closer.next].pid].hist.reply.InTime?)
  }

  ghost predicate Inv(s: State) {
    CoreInv(s) && ReplyInv(s)
  }

  lemma InitialInv()
    ensures Inv(INITIAL)
  {
  }

  // ---------- frames: what a step of one actor leaves alone ----------

  /** What no step but those of `Close` may do to an actor in its snapshot. */
  predicate Follows(a: Actor, b: Actor) {
    && b.vmid == a.vmid && b.hist.stops == a.hist.stops
    && (a.call.Tracked? ==> b.call.Tracked?)
    && (a.hist.deleted ==> b.hist.deleted)
  }

  predicate SameSweep(c: Closer, d: Closer) {
    || c == d
    || (c.Sweep? && d.Sweep? && c.entries == d.entries && c.next == d.next && (c.phase.Sending? <==> d.phase.Sending?))
  }

  lemma CloserFrame(s: State, s': State)
    requires CloserInv(s) && SameSweep(s.closer, s'.closer)
    requires forall p :: p in s.actors ==> p in s'.actors && Follows(s.actors[p], s'.actors[p])
    ensures CloserInv(s')
  {
    if !s'.closer.Idle? {
      forall i | 0 <= i < |s'.closer.entries|
        ensures SweepInv(s', i)
      {
        assert SweepInv(s, i);
      }
    }
  }

  lemma IdsFrame(s: State, s': State)
    requires IdsInv(s) && s'.nextPid == s.nextPid && s'.actors.Keys == s.actors.Keys
    requires forall p :: p in s.actors ==> s'.actors[p].vmid == s.actors[p].vmid
    requires forall id :: id in s'.db ==> id in s.db && s'.db[id].pid == s.db[id].pid
    requires forall i :: 0 <= i < |s'.box| ==> Owned(s, s'.box[i].id, s'.box[i].from)
    requires |s'.db| + s'.dels == s'.adds
    ensures IdsInv(s')
  {
    forall id | id in s'.db
      ensures Owned(s', id, s'.db[id].pid)
    {
      assert Owned(s, id, s.db[id].pid);
    }
  }

  /** One instance of the view invariant, for proofs that need not look inside it. */
  lemma OneView(s: State, p: Pid)
    requires ViewsInv(s) && p in s.actors
    ensures ViewInv(p, Look(s, p))
  {
    hide ViewInv, Look;
  }

  /** If only actor `p` looks different, only actor `p` has to be looked at. */
  lemma ViewsFrame(s: State, s': State, p: Pid)
    requires ViewsInv(s) && s'.actors.Keys == s.actors.Keys && p in s.actors
    requires forall q :: q in s.actors && q != p ==> Look(s', q) == Look(s, q)
    requires ViewInv(p, Look(s', p))
    ensures ViewsInv(s')
  {
    hide ViewInv, Look;
    forall q | q in s'.actors
      ensures ViewInv(q, Look(s', q))
    {
      if q != p {
        assert Look(s', q) == Look(s, q);
      }
    }
  }

  lemma PutKeepsIds(s: State, p: Pid, a: Actor)
    requires IdsInv(s) && p in s.actors && a.vmid == s.actors[p].vmid
    ensures IdsInv(Put(s, p, a))
  {
    IdsFrame(s, Put(s, p, a));
  }

  lemma PutKeepsViews(s: State, p: Pid, a: Actor)
    requires ViewsInv(s) && p in s.actors && a.vmid == s.actors[p].vmid
    requires ViewInv(p, Look(s, p).(a := a))
    ensures ViewsInv(Put(s, p, a))
  {
    hide ViewInv;
    var s' := Put(s, p, a);
    assert Look(s', p) == Look(s, p).(a := a);
    ViewsFrame(s, s', p);
  }

  /** A step of actor `p` that leaves registry, mailbox and `Close` alone. */
  lemma PutKeepsCore(s: State, p: Pid, a: Actor)
    requires CoreInv(s) && p in s.actors && Follows(s.actors[p], a)
    requires ViewInv(p, Look(s, p).(a := a))
    ensures CoreInv(Put(s, p, a))
  {
    hide IdsInv, CloserInv, ViewsInv, ViewInv, Look;
    PutKeepsIds(s, p, a);
    PutKeepsViews(s, p, a);
    CloserFrame(s, Put(s, p, a));
  }

  // ---------- steps of one actor ----------

  lemma OwnKeepsPc(a: Actor, x: Action)
    requires PcInv(a) && StopInv(a) && IsOwn(x) && OwnEnabled(a, x)
    ensures PcInv(Own(a, x)) && StopInv(Own(a, x)) && Follows(a, Own(a, x))
  {
  }

  lemma OwnKeepsRest(p: Pid, v: View, x: Action)
    requires ViewInv(p, v) && IsOwn(x) && OwnEnabled(v.a, x)
    ensures var w := v.(a := Own(v.a, x)); DebouncerInv(w.a) && BoxInv(w) && DbInv(p, w)
  {
  }

  lemma OwnKeepsView(p: Pid, v: View, x: Action)
    requires ViewInv(p, v) && IsOwn(x) && OwnEnabled(v.a, x)
    ensures ViewInv(p, v.(a := Own(v.a, x))) && Follows(v.a, Own(v.a, x))
  {
    OwnKeepsPc(v.a, x);
    assert PcInv(v.a) && StopInv(v.a);
    OwnKeepsRest(p, v, x);
    hide PcInv, StopInv, DebouncerInv, BoxInv, DbInv, Own, OwnEnabled, Follows;
  }

  lemma OwnKeepsCore(s: State, x: Action)
    requires CoreInv(s) && Enabled(s, x) && IsOwn(x)
    ensures CoreInv(Apply(s, x))
  {
    hide IdsInv, CloserInv, ViewInv, Own, OwnEnabled;
    assert ViewInv(x.pid, Look(s, x.pid));
    OwnKeepsView(x.pid, Look(s, x.pid), x);
    PutKeepsCore(s, x.pid, Own(s.actors[x.pid], x));
  }


  lemma SpawnKeepsIds(s: State, vmid: VmId, ip: Ip)
    requires IdsInv(s) && FreshId(s, vmid)
    ensures IdsInv(Spawned(s, vmid, ip))
  {
    var s' := Spawned(s, vmid, ip);
    assert s.nextPid !in s.actors && s'.actors == s.actors[s.nextPid := NewActor(vmid, ip)];
    forall id: VmId, p | Owned(s, id, p)
      ensures Owned(s', id, p)
    {
    }
  }

  lemma SpawnedView(s: State, vmid: VmId, ip: Ip)
    requires IdsInv(s) && CloserInv(s) && FreshId(s, vmid)
    ensures Look(Spawned(s, vmid, ip), s.nextPid) == View(NewActor(vmid, ip), [], 0, None, false)
  {
    NothingFromStrangers(s.box, s.nextPid);
    if HasNext(s) {
      assert SweepInv(s, s.closer.next);
    }
  }

  lemma SpawnKeepsViews(s: State, vmid: VmId, ip: Ip)
    requires ViewsInv(s) && s.nextPid !in s.actors && FreshId(s, vmid)
    requires Look(Spawned(s, vmid, ip), s.nextPid) == View(NewActor(vmid, ip), [], 0, None, false)
    ensures ViewsInv(Spawned(s, vmid, ip))
  {
    var s' := Spawned(s, vmid, ip);
    assert ViewInv(s.nextPid, View(NewActor(vmid, ip), [], 0, None, false));
    hide ViewInv;
    forall q | q in s'.actors
      ensures ViewInv(q, Look(s', q))
    {
      if q != s.nextPid {
        assert Look(s', q) == Look(s, q);
      }
    }
  }

  lemma SpawnKeepsCloser(s: State, vmid: VmId, ip: Ip)
    requires CloserInv(s) && s.nextPid !in s.actors
    ensures CloserInv(Spawned(s, vmid, ip))
  {
    hide CloserInv;
    CloserFrame(s, Spawned(s, vmid, ip));
  }

  lemma SpawnKeepsCore(s: State, vmid: VmId, ip: Ip)
    requires CoreInv(s) && FreshId(s, vmid)
    ensures CoreInv(Spawned(s, vmid, ip))
  {
    assert s.nextPid !in s.actors;
    hide CloserInv, ViewsInv, IdsInv, Look, Spawned, FreshId;
    SpawnKeepsIds(s, vmid, ip);
    SpawnKeepsCloser(s, vmid, ip);
    SpawnedView(s, vmid, ip);
    SpawnKeepsViews(s, vmid, ip);
  }

  // ---------- handling a message ----------

  /** What a message handled does to the view of its actor. */
  ghost function HandledView(v: View, m: VmmActor.Message, rest: seq<VmmActor.Message>, awaited: bool): View {
    v.(a := Handled(v.a, m, rest, awaited),
       notices := v.notices + VmmActor.One(VmmActor.Handle(v.a.vmm, m, false).notified))
  }

  lemma DeliverKeepsView(p: Pid, v: View, awaited: bool)
    requires ViewInv(p, v) && CanReceive(v.a) && !StartsNow(v.a)
    ensures ViewInv(p, HandledView(v, v.a.inbox[0], v.a.inbox[1..], awaited))
  {
  }

  lemma StoppingKeepsView(p: Pid, v: View, awaited: bool)
    requires ViewInv(p, v) && v.a.vmm.life == VmmActor.Dying
    ensures ViewInv(p, HandledView(v, VmmActor.Stopping, [], awaited))
  {
  }

  lemma ReactLooks(s: State, p: Pid, m: VmmActor.Message, rest: seq<VmmActor.Message>, q: Pid)
    requires p in s.actors && q in s.actors
    ensures Look(React(s, p, m, rest), q) == if q == p then HandledView(Look(s, p), m, rest, Awaited(s, p)) else Look(s, q)
  {
    hide VmmActor.Handle, Events, StopNotices;
    BoxGrows(s.box, StoppedNotice(s.actors[p].vmid, p), q);
    assert InHand(React(s, p, m, rest), q) == InHand(s, q);
  }

  lemma ReactKeepsIds(s: State, p: Pid, m: VmmActor.Message, rest: seq<VmmActor.Message>)
    requires IdsInv(s) && p in s.actors
    ensures IdsInv(React(s, p, m, rest))
  {
    hide VmmActor.Handle;
    IdsFrame(s, React(s, p, m, rest));
  }

  lemma ReactKeepsViews(s: State, p: Pid, m: VmmActor.Message, rest: seq<VmmActor.Message>)
    requires ViewsInv(s) && p in s.actors && ViewInv(p, HandledView(Look(s, p), m, rest, Awaited(s, p)))
    ensures ViewsInv(React(s, p, m, rest))
  {
    var s' := React(s, p, m, rest);
    assert s'.actors.Keys == s.actors.Keys;
    hide ViewsInv, ViewInv, React, Look, HandledView;
    forall q | q in s.actors
      ensures Look(s', q) == if q == p then HandledView(Look(s, p), m, rest, Awaited(s, p)) else Look(s, q)
    {
      ReactLooks(s, p, m, rest, q);
    }
    ViewsFrame(s, s', p);
  }

  lemma ReactKeepsCore(s: State, p: Pid, m: VmmActor.Message, rest: seq<VmmActor.Message>)
    requires CoreInv(s) && p in s.actors && ViewInv(p, HandledView(Look(s, p), m, rest, Awaited(s, p)))
    ensures CoreInv(React(s, p, m, rest))
  {
    hide IdsInv, CloserInv, ViewsInv, ViewInv, Look, HandledView, VmmActor.Handle;
    ReactKeepsIds(s, p, m, rest);
    ReactKeepsViews(s, p, m, rest);
    CloserFrame(s, React(s, p, m, rest));
  }

  lemma DeliverKeepsCore(s: State, p: Pid)
    requires CoreInv(s) && Enabled(s, Deliver(p))
    ensures CoreInv(Apply(s, Deliver(p)))
  {
    hide IdsInv, CloserInv, ViewInv, React;
    assert ViewInv(p, Look(s, p));
    DeliverKeepsView(p, Look(s, p), Awaited(s, p));
    ReactKeepsCore(s, p, s.actors[p].inbox[0], s.actors[p].inbox[1..]);
  }

  lemma DeliverStoppingKeepsCore(s: State, p: Pid)
    requires CoreInv(s) && Enabled(s, DeliverStopping(p))
    ensures CoreInv(Apply(s, DeliverStopping(p)))
  {
    hide IdsInv, CloserInv, ViewInv, React;
    assert ViewInv(p, Look(s, p));
    StoppingKeepsView(p, Look(s, p), Awaited(s, p));
    ReactKeepsCore(s, p, VmmActor.Stopping, []);
  }

  // ---------- the debouncer ----------

  ghost function DebouncedView(v: View): View
    requires v.a.verdicts != []
  {
    var x := v.a.verdicts[0];
    v.(a := Debounced(v.a),
       events := v.events + if Debouncer.Step(CONFIGURED, v.a.debouncer, x).1 then [x] else [])
  }

  lemma DebounceKeepsView(p: Pid, v: View)
    requires ViewInv(p, v) && v.a.children.Probing? && v.a.verdicts != []
    ensures ViewInv(p, DebouncedView(v))
  {
    Debouncer.StepKeepsRange(CONFIGURED, v.a.debouncer, v.a.verdicts[0]);
  }

  lemma DebounceLooks(s: State, p: Pid, q: Pid)
    requires p in s.actors && q in s.actors && s.actors[p].verdicts != []
    ensures Look(RunDebouncer(s, p), q) == if q == p then DebouncedView(Look(s, p)) else Look(s, q)
  {
    hide Debouncer.Step, Events, StopNotices;
    BoxGrows(s.box, ReadinessNotice(s.actors[p].vmid, p, s.actors[p].verdicts[0]), q);
  }

  lemma DebounceKeepsActors(s: State, p: Pid)
    requires p in s.actors && s.actors[p].verdicts != []
    ensures RunDebouncer(s, p).actors.Keys == s.actors.Keys
  {
    hide Debouncer.Step, Debounced;
  }

  lemma DebounceKeepsIds(s: State, p: Pid)
    requires IdsInv(s) && p in s.actors && s.actors[p].verdicts != []
    ensures IdsInv(RunDebouncer(s, p))
  {
    hide Debouncer.Step;
    IdsFrame(s, RunDebouncer(s, p));
  }

  lemma DebounceKeepsViews(s: State, p: Pid)
    requires ViewsInv(s) && p in s.actors && s.actors[p].verdicts != []
    requires ViewInv(p, DebouncedView(Look(s, p)))
    ensures ViewsInv(RunDebouncer(s, p))
  {
    hide ViewsInv, ViewInv, RunDebouncer, DebouncedView;
    assert Look(s, p).a == s.actors[p];
    hide Look;
    var s' := RunDebouncer(s, p);
    DebounceKeepsActors(s, p);
    forall q | q in s.actors
      ensures Look(s', q) == if q == p then DebouncedView(Look(s, p)) else Look(s, q)
    {
      DebounceLooks(s, p, q);
    }
    ViewsFrame(s, s', p);
  }

  lemma DebounceKeepsCore(s: State, p: Pid)
    requires CoreInv(s) && Enabled(s, Debounce(p))
    ensures CoreInv(Apply(s, Debounce(p)))
  {
    hide IdsInv, CloserInv, ViewInv, DebouncedView, Debouncer.Step;
    assert ViewInv(p, Look(s, p));
    DebounceKeepsView(p, Look(s, p));
    DebounceKeepsIds(s, p);
    DebounceKeepsViews(s, p);
    CloserFrame(s, RunDebouncer(s, p));
  }

  // ---------- a call that returns ----------

  ghost function TrackedView(p: Pid, v: View, late: bool): View {
    v.(a := Registered(v.a, late), entry := Some(Entry(v.a.vmid, p, v.a.ip, false)))
  }

  lemma CallReturnsKeepsView(p: Pid, v: View, late: bool)
    requires ViewInv(p, v)
    ensures v.a.call.GotFailure? ==> ViewInv(p, v.(a := v.a.(call := Refused)))
    ensures v.a.call.GotStarted? ==> v.entry.None? && ViewInv(p, TrackedView(p, v, late))
  {
  }

  lemma TrackLooks(s: State, p: Pid, q: Pid)
    requires IdsInv(s) && p in s.actors && q in s.actors
    requires s.actors[p].call.GotStarted? && s.actors[p].vmid !in s.db
    ensures Look(ReturnCall(s, p), q) == if q == p then TrackedView(p, Look(s, p), !s.closer.Idle?) else Look(s, q)
  {
  }

  /** A new entry under the id of its actor. */
  lemma EntryKeepsIds(s: State, p: Pid)
    requires IdsInv(s) && p in s.actors && s.actors[p].vmid !in s.db
    ensures var vmid := s.actors[p].vmid;
            IdsInv(s.(db := s.db[vmid := Entry(vmid, p, s.actors[p].ip, false)], adds := s.adds + 1))
  {
    var vmid := s.actors[p].vmid;
    var e := Entry(vmid, p, s.actors[p].ip, false);
    var s' := s.(db := s.db[vmid := e], adds := s.adds + 1);
    AddedSize(s.db, vmid, e);
    forall id: VmId, q | Owned(s, id, q)
      ensures Owned(s', id, q)
    {
    }
  }

  /** Where the returning call adds its machine, it does nothing else. */
  lemma TrackSteps(s: State, p: Pid)
    requires p in s.actors && s.actors[p].call.GotStarted? && s.actors[p].vmid !in s.db && s.actors[p].vmid != ""
    ensures var a := s.actors[p];
            ReturnCall(s, p)
            == Put(s, p, Registered(a, !s.closer.Idle?))
               .(db := s.db[a.vmid := Entry(a.vmid, p, a.ip, false)], adds := s.adds + 1)
  {
  }

  lemma TrackKeepsIds(s: State, p: Pid)
    requires IdsInv(s) && p in s.actors
    requires s.actors[p].call.GotStarted? && s.actors[p].vmid !in s.db
    ensures IdsInv(ReturnCall(s, p))
  {
    var a := s.actors[p];
    var b := Registered(a, !s.closer.Idle?);
    assert a.vmid != "" && b.vmid == a.vmid && b.ip == a.ip;
    hide IdsInv, ReturnCall, Registered;
    TrackSteps(s, p);
    PutKeepsIds(s, p, b);
    EntryKeepsIds(Put(s, p, b), p);
  }

  lemma TrackKeepsActors(s: State, p: Pid)
    requires p in s.actors
    ensures ReturnCall(s, p).actors.Keys == s.actors.Keys
  {
  }

  lemma TrackKeepsViews(s: State, p: Pid)
    requires IdsInv(s) && ViewsInv(s) && p in s.actors
    requires s.actors[p].call.GotStarted? && s.actors[p].vmid !in s.db
    requires ViewInv(p, TrackedView(p, Look(s, p), !s.closer.Idle?))
    ensures ViewsInv(ReturnCall(s, p))
  {
    var s' := ReturnCall(s, p);
    hide IdsInv, ViewsInv, ViewInv, ReturnCall, TrackedView, Look;
    TrackKeepsActors(s, p);
    forall q | q in s.actors
      ensures Look(s', q) == if q == p then TrackedView(p, Look(s, p), !s.closer.Idle?) else Look(s, q)
    {
      TrackLooks(s, p, q);
    }
    ViewsFrame(s, s', p);
  }

  lemma RefusalKeepsCore(s: State, p: Pid)
    requires CoreInv(s) && p in s.actors && s.actors[p].call.GotFailure?
    ensures CoreInv(Put(s, p, s.actors[p].(call := Refused)))
  {
    hide IdsInv, CloserInv, ViewInv;
    assert ViewInv(p, Look(s, p));
    CallReturnsKeepsView(p, Look(s, p), false);
    PutKeepsCore(s, p, s.actors[p].(call := Refused));
  }

  lemma TrackKeepsCloser(s: State, p: Pid)
    requires CloserInv(s) && p in s.actors && s.actors[p].call.GotStarted?
    ensures CloserInv(ReturnCall(s, p))
  {
    hide CloserInv;
    CloserFrame(s, ReturnCall(s, p));
  }

  /** The id of a started machine is not in the registry yet. */
  lemma StartedIsNew(s: State, p: Pid)
    requires CoreInv(s) && p in s.actors && s.actors[p].call.GotStarted?
    ensures s.actors[p].vmid !in s.db && ViewInv(p, TrackedView(p, Look(s, p), !s.closer.Idle?))
  {
    hide IdsInv, CloserInv, ViewInv, TrackedView;
    assert ViewInv(p, Look(s, p));
    CallReturnsKeepsView(p, Look(s, p), !s.closer.Idle?);
  }

  lemma TrackKeepsCore(s: State, p: Pid)
    requires CoreInv(s) && p in s.actors && s.actors[p].call.GotStarted?
    ensures CoreInv(ReturnCall(s, p))
  {
    hide IdsInv, CloserInv, ViewsInv, ViewInv, TrackedView, ReturnCall;
    StartedIsNew(s, p);
    TrackKeepsIds(s, p);
    TrackKeepsViews(s, p);
    TrackKeepsCloser(s, p);
  }

  lemma CallReturnsKeepsCore(s: State, p: Pid)
    requires CoreInv(s) && Enabled(s, CallReturns(p))
    ensures CoreInv(Apply(s, CallReturns(p)))
  {
    hide CoreInv;
    if s.actors[p].call.GotFailure? {
      RefusalKeepsCore(s, p);
    } else {
      TrackKeepsCore(s, p);
    }
  }

  // ---------- the manager ----------

  ghost function NoticedView(v: View): View
    requires v.notices > 0
  {
    var h := v.a.hist.(notices := v.a.hist.notices + 1, early := v.a.hist.early || !v.a.call.Tracked?,
                       deleted := v.a.hist.deleted || v.entry.Some?);
    v.(a := v.a.(hist := h), notices := v.notices - 1, entry := None)
  }

  ghost function DeliveredView(v: View): View
    requires v.events != []
  {
    var x := v.events[0];
    v.(a := v.a.(hist := v.a.hist.(delivered := v.a.hist.delivered + [x])), events := v.events[1..],
       entry := if v.entry.Some? then Some(v.entry.value.(ready := x == Ready)) else None)
  }

  lemma NoticeKeepsView(p: Pid, v: View)
    requires ViewInv(p, v)
    ensures v.notices > 0 ==> ViewInv(p, NoticedView(v))
  {
  }

  lemma DeliveryKeepsView(p: Pid, v: View)
    requires ViewInv(p, v) && v.events != []
    ensures ViewInv(p, DeliveredView(v))
  {
    var h := DeliveredView(v).a.hist;
    assert h.delivered + DeliveredView(v).events == v.a.hist.delivered + v.events;
  }

  lemma StoppedLooksAside(s: State, id: VmId, p: Pid, q: Pid)
    requires IdsInv(s) && s.box != [] && s.box[0] == StoppedNotice(id, p) && Owned(s, id, p)
    requires q in s.actors && q != p
    ensures Look(ReceiveStopped(s, id, p), q) == Look(s, q)
  {
    hide Events, StopNotices;
    BoxShrinks(s.box, q);
    assert s.actors[q].vmid != id;
    hide IdsInv;
  }

  lemma StoppedLooksItself(s: State, id: VmId, p: Pid)
    requires s.box != [] && s.box[0] == StoppedNotice(id, p) && Owned(s, id, p)
    ensures Look(s, p).notices > 0
    ensures Look(ReceiveStopped(s, id, p), p) == NoticedView(Look(s, p))
  {
    hide Events, StopNotices;
    BoxShrinks(s.box, p);
  }

  lemma StoppedLooks(s: State, id: VmId, p: Pid, q: Pid)
    requires IdsInv(s) && s.box != [] && s.box[0] == StoppedNotice(id, p) && p in s.actors && q in s.actors
    ensures Look(s, p).notices > 0
    ensures Look(ReceiveStopped(s, id, p), q) == if q == p then NoticedView(Look(s, p)) else Look(s, q)
  {
    assert Owned(s, s.box[0].id, s.box[0].from);
    hide Look, ReceiveStopped, NoticedView, IdsInv;
    StoppedLooksItself(s, id, p);
    if q != p {
      StoppedLooksAside(s, id, p, q);
    }
  }

  lemma ReadinessLooks(s: State, id: VmId, p: Pid, v: Verdict, q: Pid)
    requires IdsInv(s) && s.box != [] && s.box[0] == ReadinessNotice(id, p, v) && p in s.actors && q in s.actors
    ensures Look(s, p).events != []
    ensures Look(ReceiveReadiness(s, id, p, v), q) == if q == p then DeliveredView(Look(s, p)) else Look(s, q)
  {
    hide Events, StopNotices;
    assert Owned(s, s.box[0].id, s.box[0].from);
    BoxShrinks(s.box, p);
    BoxShrinks(s.box, q);
  }

  lemma TakingAMessageKeepsIds(s: State, p: Pid, a: Actor)
    requires IdsInv(s) && s.box != [] && p in s.actors && a.vmid == s.actors[p].vmid
    ensures IdsInv(Put(s, p, a).(box := s.box[1..]))
  {
    var s' := Put(s, p, a).(box := s.box[1..]);
    forall i | 0 <= i < |s'.box|
      ensures Owned(s, s'.box[i].id, s'.box[i].from)
    {
      assert s'.box[i] == s.box[i + 1];
    }
    IdsFrame(s, s');
  }

  lemma RemovalKeepsIds(s: State, id: VmId)
    requires IdsInv(s) && id in s.db
    ensures IdsInv(s.(db := Removed(s.db, id), dels := s.dels + 1))
  {
    RemovedSize(s.db, id);
    IdsFrame(s, s.(db := Removed(s.db, id), dels := s.dels + 1));
  }

  lemma DeletionKeepsIds(s: State, id: VmId, p: Pid)
    requires IdsInv(s) && p in s.actors
    ensures IdsInv(Delete(s, id, p))
  {
    hide IdsInv, Removed;
    if id in s.db {
      PutKeepsIds(s, p, Delete(s, id, p).actors[p]);
      RemovalKeepsIds(Put(s, p, Delete(s, id, p).actors[p]), id);
    }
  }

  lemma MarkingKeepsIds(s: State, id: VmId, ready: bool)
    requires IdsInv(s)
    ensures IdsInv(s.(db := Marked(s.db, id, ready)))
  {
    var s' := s.(db := Marked(s.db, id, ready));
    MarkedKeepsKeys(s.db, id, ready);
    assert |s'.db.Keys| == |s.db.Keys|;
    IdsFrame(s, s');
  }

  lemma StoppedKeepsIds(s: State, id: VmId, p: Pid)
    requires IdsInv(s) && s.box != [] && p in s.actors
    ensures IdsInv(ReceiveStopped(s, id, p))
  {
    hide IdsInv, Delete;
    var a := s.actors[p];
    var h := a.hist.(notices := a.hist.notices + 1, early := a.hist.early || !a.call.Tracked?);
    TakingAMessageKeepsIds(s, p, a.(hist := h));
    DeletionKeepsIds(Put(s, p, a.(hist := h)).(box := s.box[1..]), id, p);
  }

  lemma ReadinessKeepsIds(s: State, id: VmId, p: Pid, v: Verdict)
    requires IdsInv(s) && s.box != [] && p in s.actors
    ensures IdsInv(ReceiveReadiness(s, id, p, v))
  {
    hide IdsInv, Marked;
    var a := s.actors[p];
    var a' := a.(hist := a.hist.(delivered := a.hist.delivered + [v]));
    TakingAMessageKeepsIds(s, p, a');
    MarkingKeepsIds(Put(s, p, a').(box := s.box[1..]), id, v == Ready);
  }

  lemma ReceivingKeepsActors(s: State)
    requires s.box != [] && s.box[0].from in s.actors
    ensures ReceiveNotice(s).actors.Keys == s.actors.Keys
  {
  }

  lemma StoppedKeepsViews(s: State, id: VmId, p: Pid)
    requires IdsInv(s) && ViewsInv(s) && s.box != [] && s.box[0] == StoppedNotice(id, p) && p in s.actors
    ensures ViewsInv(ReceiveStopped(s, id, p))
  {
    var s' := ReceiveStopped(s, id, p);
    hide IdsInv, ViewsInv, ViewInv, ReceiveStopped, NoticedView, Look;
    ReceivingKeepsActors(s);
    OneView(s, p);
    StoppedLooks(s, id, p, p);
    NoticeKeepsView(p, Look(s, p));
    forall q | q in s.actors && q != p
      ensures Look(s', q) == Look(s, q)
    {
      StoppedLooks(s, id, p, q);
    }
    ViewsFrame(s, s', p);
  }

  lemma ReadinessKeepsViews(s: State, id: VmId, p: Pid, v: Verdict)
    requires IdsInv(s) && ViewsInv(s) && s.box != [] && s.box[0] == ReadinessNotice(id, p, v) && p in s.actors
    ensures ViewsInv(ReceiveReadiness(s, id, p, v))
  {
    var s' := ReceiveReadiness(s, id, p, v);
    hide IdsInv, ViewsInv, ViewInv, ReceiveReadiness, DeliveredView, Look;
    ReceivingKeepsActors(s);
    OneView(s, p);
    ReadinessLooks(s, id, p, v, p);
    DeliveryKeepsView(p, Look(s, p));
    forall q | q in s.actors && q != p
      ensures Look(s', q) == Look(s, q)
    {
      ReadinessLooks(s, id, p, v, q);
    }
    ViewsFrame(s, s', p);
  }

  lemma ManagerKeepsCore(s: State)
    requires CoreInv(s) && Enabled(s, ManagerReceives)
    ensures CoreInv(Apply(s, ManagerReceives))
  {
    hide IdsInv, CloserInv, ViewsInv, ViewInv, Look;
    match s.box[0] {
      case StoppedNotice(id, p) =>
        StoppedKeepsIds(s, id, p);
        StoppedKeepsViews(s, id, p);
      case ReadinessNotice(id, p, v) =>
        ReadinessKeepsIds(s, id, p, v);
        ReadinessKeepsViews(s, id, p, v);
    }
    CloserFrame(s, ReceiveNotice(s));
  }

  // ---------- Close ----------

  lemma CloserChangeKeepsIds(s: State, c: Closer)
    requires IdsInv(s)
    ensures IdsInv(s.(closer := c))
  {
    IdsFrame(s, s.(closer := c));
  }

  lemma CloserChangeKeepsViews(s: State, c: Closer)
    requires ViewsInv(s)
    requires forall q :: q in s.actors ==> InHand(s.(closer := c), q) == InHand(s, q)
    ensures ViewsInv(s.(closer := c))
  {
    hide ViewInv, InHand;
    var s' := s.(closer := c);
    forall q | q in s'.actors
      ensures ViewInv(q, Look(s', q))
    {
      assert Look(s', q) == Look(s, q);
    }
  }

  /** A registry entry outside a sweep belongs to a tracked actor that got no `Stop`. */
  lemma SnapshotEntry(s: State, e: Entry)
    requires IdsInv(s) && ViewsInv(s) && !s.closer.Sweep? && e.vmid in s.db && s.db[e.vmid] == e
    ensures Owned(s, e.vmid, e.pid)
    ensures s.actors[e.pid].call.Tracked? && s.actors[e.pid].hist.stops == 0
  {
    assert Owned(s, e.vmid, e.pid);
    assert ViewInv(e.pid, Look(s, e.pid));
  }

  lemma CloseBeginsKeepsCloser(s: State, order: seq<Entry>)
    requires IdsInv(s) && ViewsInv(s) && !s.closer.Sweep? && IsSnapshot(s.db, order)
    ensures CloserInv(s.(closer := Sweep(order, 0, Sending)))
  {
    var s' := s.(closer := Sweep(order, 0, Sending));
    hide IdsInv, ViewsInv;
    forall i | 0 <= i < |order|
      ensures SweepInv(s', i)
    {
      SnapshotEntry(s, order[i]);
    }
    forall i, j | 0 <= i < j < |order|
      ensures order[i].pid != order[j].pid
    {
      SnapshotEntry(s, order[i]);
      SnapshotEntry(s, order[j]);
    }
  }

  lemma CloseBeginsKeepsCore(s: State, order: seq<Entry>)
    requires CoreInv(s) && !s.closer.Sweep? && IsSnapshot(s.db, order)
    ensures CoreInv(s.(closer := Sweep(order, 0, Sending)))
  {
    hide IdsInv, ViewsInv, CloserInv, IsSnapshot;
    CloseBeginsKeepsCloser(s, order);
    CloserChangeKeepsIds(s, Sweep(order, 0, Sending));
    CloserChangeKeepsViews(s, Sweep(order, 0, Sending));
  }

  lemma SentView(p: Pid, v: View)
    requires ViewInv(p, v) && v.a.call.Tracked? && v.a.hist.stops == 0
    ensures ViewInv(p, v.(a := SentStop(v.a), inHand := true))
  {
  }

  lemma SendKeepsCloser(s: State)
    requires CloserInv(s) && NextKnown(s) && s.closer.phase.Sending?
    ensures CloserInv(SendStop(s))
  {
    var s' := SendStop(s);
    assert SweepInv(s, s.closer.next);
    forall i | 0 <= i < |s'.closer.entries|
      ensures SweepInv(s', i)
    {
      assert SweepInv(s, i);
    }
  }

  lemma SendLooks(s: State, q: Pid)
    requires CloserInv(s) && NextKnown(s) && s.closer.phase.Sending? && q in s.actors
    ensures var p := s.closer.entries[s.closer.next].pid;
            Look(SendStop(s), q)
            == if q == p then Look(s, p).(a := SentStop(s.actors[p]), inHand := true) else Look(s, q)
  {
    hide CloserInv, Events, StopNotices;
  }

  lemma SendKeepsViews(s: State)
    requires ViewsInv(s) && CloserInv(s) && NextKnown(s) && s.closer.phase.Sending?
    ensures ViewsInv(SendStop(s))
  {
    var s' := SendStop(s);
    var p := s.closer.entries[s.closer.next].pid;
    assert s'.actors.Keys == s.actors.Keys;
    assert SweepInv(s, s.closer.next);
    hide ViewInv, CloserInv, SendStop;
    assert ViewInv(p, Look(s, p));
    SentView(p, Look(s, p));
    hide Look, SentStop;
    forall q | q in s.actors
      ensures Look(s', q) == if q == p then Look(s, p).(a := SentStop(s.actors[p]), inHand := true) else Look(s, q)
    {
      SendLooks(s, q);
    }
    ViewsFrame(s, s', p);
  }

  lemma SendKeepsIds(s: State)
    requires IdsInv(s) && NextKnown(s)
    ensures IdsInv(SendStop(s))
  {
    IdsFrame(s, SendStop(s));
  }

  lemma CloseSendsKeepsCore(s: State)
    requires CoreInv(s) && NextKnown(s) && s.closer.phase.Sending?
    ensures CoreInv(SendStop(s))
  {
    hide IdsInv, CloserInv, ViewsInv;
    SendKeepsIds(s);
    SendKeepsCloser(s);
    SendKeepsViews(s);
  }

  /** The entry in hand stays in hand when `Close` has its reply or has given up. */
  lemma StaysInHand(s: State, q: Pid)
    requires HasNext(s) && s.closer.phase.Awaiting?
    ensures InHand(s.(closer := s.closer.(phase := Deleting)), q) == InHand(s, q)
  {
  }

  lemma ToDeletingKeepsCore(s: State)
    requires CoreInv(s) && HasNext(s) && s.closer.phase.Awaiting?
    ensures CoreInv(s.(closer := s.closer.(phase := Deleting)))
  {
    var c := s.closer.(phase := Deleting);
    hide IdsInv, ViewsInv, CloserInv, InHand;
    CloserChangeKeepsIds(s, c);
    CloserFrame(s, s.(closer := c));
    forall q | q in s.actors
      ensures InHand(s.(closer := c), q) == InHand(s, q)
    {
      StaysInHand(s, q);
    }
    CloserChangeKeepsViews(s, c);
  }

  lemma EndKeepsCloser(s: State)
    requires CloserInv(s) && s.closer.Sweep? && s.closer.next == |s.closer.entries|
    ensures CloserInv(s.(closer := Closed(s.closer.entries)))
  {
    var s' := s.(closer := Closed(s.closer.entries));
    forall i | 0 <= i < |s'.closer.entries|
      ensures SweepInv(s', i)
    {
      assert SweepInv(s, i);
    }
  }

  lemma CloseEndsKeepsCore(s: State)
    requires CoreInv(s) && s.closer.Sweep? && s.closer.next == |s.closer.entries|
    ensures CoreInv(s.(closer := Closed(s.closer.entries)))
  {
    hide IdsInv, ViewsInv, CloserInv;
    EndKeepsCloser(s);
    CloserChangeKeepsIds(s, Closed(s.closer.entries));
    CloserChangeKeepsViews(s, Closed(s.closer.entries));
  }

  ghost function DeletedView(v: View): View {
    v.(a := v.a.(hist := v.a.hist.(deleted := v.a.hist.deleted || v.entry.Some?)), entry := None, inHand := false)
  }

  lemma DeletionKeepsView(p: Pid, v: View)
    requires ViewInv(p, v) && v.inHand
    ensures ViewInv(p, DeletedView(v)) && DeletedView(v).a.hist.deleted
  {
  }

  lemma DeleteLooks(s: State, q: Pid)
    requires IdsInv(s) && CloserInv(s) && NextKnown(s) && q in s.actors
    requires s.closer.phase.Deleting?
    ensures var p := s.closer.entries[s.closer.next].pid;
            Look(DeleteNext(s), q) == if q == p then DeletedView(Look(s, p)) else Look(s, q)
  {
    assert SweepInv(s, s.closer.next);
    hide Events, StopNotices;
  }

  lemma DeleteKeepsCloser(s: State)
    requires CloserInv(s) && NextKnown(s) && s.closer.phase.Deleting?
    requires DeleteNext(s).actors[s.closer.entries[s.closer.next].pid].hist.deleted
    ensures CloserInv(DeleteNext(s))
  {
    var s' := DeleteNext(s);
    forall i | 0 <= i < |s'.closer.entries|
      ensures SweepInv(s', i)
    {
      assert SweepInv(s, i);
    }
  }

  lemma DeleteLooksEverywhere(s: State)
    requires IdsInv(s) && CloserInv(s) && NextKnown(s) && s.closer.phase.Deleting?
    ensures var p := s.closer.entries[s.closer.next].pid;
            && DeleteNext(s).actors.Keys == s.actors.Keys
            && Look(s, p).inHand && Look(DeleteNext(s), p) == DeletedView(Look(s, p))
            && forall q :: q in s.actors && q != p ==> Look(DeleteNext(s), q) == Look(s, q)
  {
    var p := s.closer.entries[s.closer.next].pid;
    assert Look(s, p).inHand && DeleteNext(s).actors.Keys == s.actors.Keys;
    hide IdsInv, CloserInv, DeleteNext, DeletedView, Look;
    DeleteLooks(s, p);
    forall q | q in s.actors && q != p
      ensures Look(DeleteNext(s), q) == Look(s, q)
    {
      DeleteLooks(s, q);
    }
  }

  lemma DeleteKeepsViews(s: State)
    requires IdsInv(s) && CloserInv(s) && ViewsInv(s) && NextKnown(s) && s.closer.phase.Deleting?
    ensures ViewsInv(DeleteNext(s))
    ensures DeleteNext(s).actors[s.closer.entries[s.closer.next].pid].hist.deleted
  {
    hide IdsInv, CloserInv, ViewInv, DeleteNext, DeletedView, InHand;
    var p := s.closer.entries[s.closer.next].pid;
    DeleteLooksEverywhere(s);
    assert ViewInv(p, Look(s, p));
    DeletionKeepsView(p, Look(s, p));
    ViewsFrame(s, DeleteNext(s), p);
  }

  lemma DeleteKeepsIds(s: State)
    requires IdsInv(s) && NextKnown(s)
    ensures IdsInv(DeleteNext(s))
  {
    hide IdsInv, Delete;
    var e := s.closer.entries[s.closer.next];
    DeletionKeepsIds(s, e.vmid, e.pid);
    CloserChangeKeepsIds(Delete(s, e.vmid, e.pid), Sweep(s.closer.entries, s.closer.next + 1, Sending));
  }

  lemma CloseDeletesKeepsCore(s: State)
    requires CoreInv(s) && NextKnown(s) && s.closer.phase.Deleting?
    ensures CoreInv(DeleteNext(s))
  {
    hide IdsInv, CloserInv, ViewsInv, DeleteNext;
    DeleteKeepsIds(s);
    DeleteKeepsViews(s);
    DeleteKeepsCloser(s);
  }

  // ---------- every run ----------

  lemma StepKeepsCore(s: State, x: Action)
    requires CoreInv(s) && Enabled(s, x)
    ensures CoreInv(Apply(s, x))
  {
    hide CoreInv, ReturnCall, React, RunDebouncer, ReceiveNotice, SendStop, DeleteNext, Own, OwnEnabled, IsSnapshot;
    match x {
      case Spawn(vmid, ip) => SpawnKeepsCore(s, vmid, ip);
      case CallReturns(p) => CallReturnsKeepsCore(s, p);
      case Deliver(p) => DeliverKeepsCore(s, p);
      case DeliverStopping(p) => DeliverStoppingKeepsCore(s, p);
      case Debounce(p) => DebounceKeepsCore(s, p);
      case ManagerReceives => ManagerKeepsCore(s);
      case CloseBegins(order) => CloseBeginsKeepsCore(s, order);
      case CloseSends => CloseSendsKeepsCore(s);
      case CloseGetsReply => ToDeletingKeepsCore(s);
      case CloseTimesOut => ToDeletingKeepsCore(s);
      case CloseDeletes => CloseDeletesKeepsCore(s);
      case CloseEnds => CloseEndsKeepsCore(s);
      case _ => OwnKeepsCore(s, x);
    }
  }

  // ---------- what the future of `Close` knows ----------

  lemma ReplyFrame(s: State, s': State)
    requires ReplyInv(s) && s'.closer == s.closer
    requires forall p :: p in s.actors ==> p in s'.actors && s'.actors[p].hist.reply == s.actors[p].hist.reply
    ensures ReplyInv(s')
  {
  }

  /** Steps outside the machine actors and `Close` answer no `Stop`. */
  lemma NothingAnswered(s: State, x: Action, p: Pid)
    requires Enabled(s, x) && p in s.actors && s.nextPid !in s.actors
    requires !x.Deliver? && !x.DeliverStopping? && !IsClose(x)
    ensures p in Apply(s, x).actors && Apply(s, x).actors[p].hist.reply == s.actors[p].hist.reply
  {
  }

  lemma CloserUntouched(s: State, x: Action)
    requires Enabled(s, x) && !x.Deliver? && !x.DeliverStopping? && !IsClose(x)
    ensures Apply(s, x).closer == s.closer
  {
  }

  lemma OthersKeepReply(s: State, x: Action)
    requires CoreInv(s) && ReplyInv(s) && Enabled(s, x)
    requires !x.Deliver? && !x.DeliverStopping? && !IsClose(x)
    ensures ReplyInv(Apply(s, x))
  {
    assert s.nextPid !in s.actors;
    hide CoreInv, ReplyInv, Enabled, Apply;
    CloserUntouched(s, x);
    forall p | p in s.actors
      ensures p in Apply(s, x).actors && Apply(s, x).actors[p].hist.reply == s.actors[p].hist.reply
    {
      NothingAnswered(s, x, p);
    }
    ReplyFrame(s, Apply(s, x));
  }

  lemma ReactKeepsReply(s: State, p: Pid, m: VmmActor.Message, rest: seq<VmmActor.Message>)
    requires ReplyInv(s) && p in s.actors
    requires VmmActor.Handle(s.actors[p].vmm, m, false).reply == VmmActor.ReplyStopped ==> s.actors[p].hist.reply.Unanswered?
    ensures ReplyInv(React(s, p, m, rest))
  {
    hide VmmActor.Handle;
  }

  /** An actor that answers `Stop` has not answered one before. */
  lemma AnswersOnce(p: Pid, v: View, m: VmmActor.Message)
    requires ViewInv(p, v) && VmmActor.Handle(v.a.vmm, m, false).reply == VmmActor.ReplyStopped
    ensures v.a.hist.reply.Unanswered?
  {
  }

  lemma DeliveriesKeepReply(s: State, p: Pid, m: VmmActor.Message, rest: seq<VmmActor.Message>)
    requires CoreInv(s) && ReplyInv(s) && p in s.actors
    ensures ReplyInv(React(s, p, m, rest))
  {
    hide IdsInv, CloserInv, ReplyInv, React, ViewInv, VmmActor.Handle;
    assert ViewInv(p, Look(s, p));
    if VmmActor.Handle(s.actors[p].vmm, m, false).reply == VmmActor.ReplyStopped {
      AnswersOnce(p, Look(s, p), m);
    }
    ReactKeepsReply(s, p, m, rest);
  }

  lemma NoAnswerBeforeStop(p: Pid, v: View)
    requires ViewInv(p, v) && v.a.hist.stops == 0
    ensures v.a.hist.reply.Unanswered?
  {
  }

  lemma SendKeepsReply(s: State)
    requires CoreInv(s) && NextKnown(s) && s.closer.phase.Sending?
    ensures ReplyInv(SendStop(s))
  {
    var p := s.closer.entries[s.closer.next].pid;
    assert SweepInv(s, s.closer.next);
    assert ViewInv(p, Look(s, p));
    hide CoreInv, ViewInv;
    NoAnswerBeforeStop(p, Look(s, p));
  }

  lemma CloseKeepsReply(s: State, x: Action)
    requires CoreInv(s) && Enabled(s, x) && IsClose(x)
    ensures ReplyInv(Apply(s, x))
  {
    hide CoreInv;
    if x.CloseSends? {
      SendKeepsReply(s);
    }
  }

  lemma StepKeepsReply(s: State, x: Action)
    requires CoreInv(s) && ReplyInv(s) && Enabled(s, x)
    ensures ReplyInv(Apply(s, x))
  {
    hide CoreInv, ReplyInv, React;
    if IsClose(x) {
      CloseKeepsReply(s, x);
    } else if x.Deliver? {
      DeliveriesKeepReply(s, x.pid, s.actors[x.pid].inbox[0], s.actors[x.pid].inbox[1..]);
    } else if x.DeliverStopping? {
      DeliveriesKeepReply(s, x.pid, VmmActor.Stopping, []);
    } else {
      OthersKeepReply(s, x);
    }
  }

  lemma StepKeepsInv(s: State, x: Action)
    requires Inv(s) && Enabled(s, x)
    ensures Inv(Apply(s, x))
  {
    hide CoreInv, ReplyInv, Apply, Enabled;
    StepKeepsCore(s, x);
    StepKeepsReply(s, x);
  }

  lemma {:induction false} RunKeepsInv(s: State, run: seq<Action>)
    requires Inv(s) && Legal(s, run)
    ensures Inv(After(s, run))
    decreases |run|
  {
    if run == [] {
    } else {
      hide Inv, Apply, Enabled;
      StepKeepsInv(s, run[0]);
      RunKeepsInv(Apply(s, run[0]), run[1..]);
    }
  }
}
