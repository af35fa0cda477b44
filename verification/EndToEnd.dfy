/**
 The whole process: requests to run a machine arrive at the HTTP servers, the servers are shut down
 gracefully, and then the deferred `Close` stops the machines.
 */
module EndToEnd {
  import opened Registry
  import L = Lifecycle
  import LI = LifecycleInvariant
  import LT = LifecycleTheorems
  import R = ServerRun
  import VmmActor
  import Debouncer

  /** `owner` is the HTTP server whose handler made the `StartVMM` call of an actor. */
  datatype State = State(run: R.State, life: L.State, owner: map<Pid, nat>)

  datatype Action =
    | Process(x: R.Action)
    | Machine(y: L.Action)
    | HandleRun(server: nat, vmid: VmId, ip: Ip)

  function Initial(probes: nat, servers: nat): State {
    State(R.Initial(probes, servers), L.INITIAL, map[])
  }

  /** The call is still inside a request handler. */
  predicate InProgress(c: L.Call) {
    c.Waiting? || c.GotStarted? || c.GotFailure?
  }

  /** The server's `Shutdown` has returned without an error. */
  predicate ShutDown(v: R.Server) {
    v.stopper == R.Reporting(true) || v.stopper == R.Done(true)
  }

  /** No handler of this server is inside `StartVMM`. */
  ghost predicate Quiescent(s: State, server: nat) {
    forall p :: p in s.life.actors && p in s.owner && s.owner[p] == server ==> !InProgress(s.life.actors[p].call)
  }

  predicate AfterServe(m: R.Main) {
    m.RunningDefers? || m.Exiting?
  }

  /**
   The library's contract of a graceful server shutdown: it succeeds only when no handler runs, and no
   handler starts after it. `Close` is the deferred call; the process goes on when it has ended.
   */
  ghost predicate Enabled(s: State, a: Action) {
    match a
    case Process(x) =>
      && R.Enabled(s.run, x)
      && (x.ShutdownEnds? && x.ok ==> Quiescent(s, x.i))
      && (x.MainSteps? && s.run.main.RunningDefers? ==> s.life.closer.Closed?)
    case Machine(y) =>
      && !y.Spawn? && L.Enabled(s.life, y)
      && (y.CloseBegins? ==> s.run.main.RunningDefers? && s.life.closer.Idle?)
    case HandleRun(i, vmid, ip) =>
      && !R.Booting(s.run.main) && i < |s.run.servers| && !ShutDown(s.run.servers[i])
      && L.Enabled(s.life, L.Spawn(vmid, ip))
  }

  ghost function Apply(s: State, a: Action): State
    requires Enabled(s, a)
  {
    match a
    case Process(x) => s.(run := R.Apply(s.run, x))
    case Machine(y) => s.(life := L.Apply(s.life, y))
    case HandleRun(i, vmid, ip) =>
      s.(life := L.Apply(s.life, L.Spawn(vmid, ip)), owner := s.owner[s.life.nextPid := i])
  }

  ghost predicate Legal(s: State, run: seq<Action>)
    decreases |run|
  {
    run == [] || (Enabled(s, run[0]) && Legal(Apply(s, run[0]), run[1..]))
  }

  ghost function After(s: State, run: seq<Action>): State
    requires Legal(s, run)
    decreases |run|
  {
    if run == [] then s else After(Apply(s, run[0]), run[1..])
  }

  // ---------- invariants ----------

  /** A call in progress belongs to a server that has not shut down successfully. */
  ghost predicate OwnerInv(s: State) {
    forall p :: p in s.life.actors ==>
      && p in s.owner && s.owner[p] < |s.run.servers|
      && (InProgress(s.life.actors[p].call) ==> !ShutDown(s.run.servers[s.owner[p]]))
  }

  /** `Close` runs after `Serve`, and has ended when the process exits. */
  ghost predicate OrderInv(s: State) {
    && (!s.life.closer.Idle? ==> AfterServe(s.run.main))
    && (s.run.main.Exiting? ==> s.life.closer.Closed?)
  }

  /** `Close` has taken a snapshot, and it lists this actor. */
  ghost predicate InSnapshot(c: L.Closer, p: Pid) {
    !c.Idle? && exists i :: 0 <= i < |c.entries| && c.entries[i].pid == p
  }

  /** `Close` runs once: what it stops is in its snapshot, and what it does not find there came late. */
  ghost predicate Accounted(c: L.Closer, p: Pid, a: L.Actor) {
    if c.Idle? then !a.hist.late && a.hist.stops == 0
    else
      && (a.hist.late || a.hist.stops == 0 || InSnapshot(c, p))
      && (a.hist.late ==> !InSnapshot(c, p) && a.hist.stops == 0)
      && (a.call.Tracked? && !a.hist.late && !a.hist.deleted ==> InSnapshot(c, p))
  }

  /** After a graceful shutdown no entry comes late. */
  ghost predicate LateInv(s: State) {
    forall p :: p in s.life.actors ==>
      && Accounted(s.life.closer, p, s.life.actors[p])
      && (s.run.cancelled ==> !s.life.actors[p].hist.late)
  }

  ghost predicate Inv(s: State) {
    R.Inv(s.run) && LI.Inv(s.life) && OwnerInv(s) && OrderInv(s) && LateInv(s)
  }

  /** After a graceful shutdown every server is done. */
  lemma CancelledMeansAllShutDown(r: R.State, i: nat)
    requires R.Inv(r) && r.cancelled && i < |r.servers|
    ensures ShutDown(r.servers[i])
  {
    R.AllReported(r, i);
    var j :| 0 <= j < |r.received| && r.received[j].server == i;
    assert r.received[j].ok;
  }

  lemma NoCallAfterGracefulShutdown(s: State, p: Pid)
    requires R.Inv(s.run) && OwnerInv(s) && s.run.cancelled && p in s.life.actors
    ensures !InProgress(s.life.actors[p].call)
  {
    hide R.Inv;
    CancelledMeansAllShutDown(s.run, s.owner[p]);
  }

  // ---------- what single steps of either part do to the other's concerns ----------

  lemma MachineKeepsActors(l: L.State, y: L.Action)
    requires L.Enabled(l, y) && !y.Spawn?
    ensures L.Apply(l, y).actors.Keys == l.actors.Keys
  {
    hide VmmActor.Handle, Debouncer.Step, L.Own, L.OwnEnabled, L.Handled, L.Debounced, L.SentStop, IsSnapshot;
  }

  /** What a step does to an actor that it does not track or send a `Stop`. */
  predicate SameAccount(a: L.Actor, b: L.Actor) {
    && b.hist.late == a.hist.late && b.hist.stops == a.hist.stops
    && (b.call.Tracked? ==> a.call.Tracked?) && (InProgress(b.call) ==> InProgress(a.call))
    && (a.hist.deleted ==> b.hist.deleted)
  }

  lemma OwnKeepsAccount(a: L.Actor, y: L.Action)
    requires L.IsOwn(y) && L.OwnEnabled(a, y)
    ensures SameAccount(a, L.Own(a, y))
  {
  }

  lemma MessageKeepsAccount(l: L.State, y: L.Action, p: Pid)
    requires L.Enabled(l, y) && p in l.actors && (y.Deliver? || y.DeliverStopping? || y.Debounce?)
    ensures p in L.Apply(l, y).actors && SameAccount(l.actors[p], L.Apply(l, y).actors[p])
  {
    hide VmmActor.Handle, Debouncer.Step;
  }

  lemma ManagerKeepsAccount(l: L.State, p: Pid)
    requires L.Enabled(l, L.ManagerReceives) && p in l.actors
    ensures p in L.ReceiveNotice(l).actors && SameAccount(l.actors[p], L.ReceiveNotice(l).actors[p])
  {
  }

  lemma DeletionKeepsAccount(l: L.State, p: Pid)
    requires L.Enabled(l, L.CloseDeletes) && p in l.actors
    ensures p in L.DeleteNext(l).actors && SameAccount(l.actors[p], L.DeleteNext(l).actors[p])
  {
  }

  lemma StepKeepsAccount(l: L.State, y: L.Action, p: Pid)
    requires L.Enabled(l, y) && p in l.actors && !y.Spawn? && !y.CallReturns? && !y.CloseSends?
    ensures p in L.Apply(l, y).actors && SameAccount(l.actors[p], L.Apply(l, y).actors[p])
  {
    if y.Deliver? || y.DeliverStopping? || y.Debounce? {
      hide *;
      MessageKeepsAccount(l, y, p);
    } else if y.ManagerReceives? {
      hide L.ReceiveNotice, SameAccount;
      ManagerKeepsAccount(l, p);
    } else if y.CloseDeletes? {
      hide L.DeleteNext, SameAccount;
      DeletionKeepsAccount(l, p);
    } else if L.IsOwn(y) {
      hide L.Own, L.OwnEnabled;
      if p == y.pid {
        OwnKeepsAccount(l.actors[p], y);
      }
    } else {
      hide IsSnapshot;
    }
  }

  /** What a returning call does to its actor and to the others. */
  lemma ReturnKeepsAccount(l: L.State, q: Pid, p: Pid)
    requires L.Enabled(l, L.CallReturns(q)) && p in l.actors
    ensures p in L.ReturnCall(l, q).actors && L.ReturnCall(l, q).closer == l.closer
    ensures var a, b := l.actors[p], L.ReturnCall(l, q).actors[p];
            if p == q then b.hist.stops == a.hist.stops && (b.hist.late ==> a.hist.late || !l.closer.Idle?)
                           && (b.call.Tracked? ==> b.hist.late == !l.closer.Idle?) && !InProgress(b.call)
            else b == a
  {
  }

  lemma SendingKeepsCalls(l: L.State, p: Pid)
    requires L.Enabled(l, L.CloseSends) && p in l.actors
    ensures p in L.SendStop(l).actors && L.SendStop(l).actors[p].call == l.actors[p].call
  {
  }

  lemma MachineEndsCalls(l: L.State, y: L.Action, p: Pid)
    requires L.Enabled(l, y) && !y.Spawn? && p in l.actors
    ensures p in L.Apply(l, y).actors
    ensures InProgress(L.Apply(l, y).actors[p].call) ==> InProgress(l.actors[p].call)
  {
    if y.CallReturns? {
      hide L.ReturnCall, InProgress;
      ReturnKeepsAccount(l, y.pid, p);
    } else if y.CloseSends? {
      hide L.SendStop, InProgress;
      SendingKeepsCalls(l, p);
    } else {
      hide L.Apply, L.Enabled, InProgress;
      StepKeepsAccount(l, y, p);
    }
  }

  /** A begun `Close` keeps its snapshot. */
  lemma SweepStays(l: L.State, y: L.Action)
    requires L.Enabled(l, y) && !y.CloseBegins?
    ensures L.Apply(l, y).closer.Idle? <==> l.closer.Idle?
    ensures !l.closer.Idle? ==> L.Apply(l, y).closer.entries == l.closer.entries
  {
  }

  /** Outside `Close`, the sweep stays where it is. */
  lemma MachineKeepsSweep(l: L.State, y: L.Action)
    requires L.Enabled(l, y)
    requires !y.CloseBegins? && !y.CloseDeletes? && !y.CloseEnds?
    ensures L.Apply(l, y).closer.Idle? <==> l.closer.Idle?
    ensures L.Apply(l, y).closer.Closed? <==> l.closer.Closed?
  {
  }

  lemma HandlerKeepsServers(r: R.State, i: nat)
    requires R.SpawnInv(r)
    ensures |R.HandlerStep(r).servers| == |r.servers|
    ensures i < |r.servers| && ShutDown(R.HandlerStep(r).servers[i]) ==> ShutDown(r.servers[i])
  {
    R.HandlerKeepsReports(r);
    hide R.SpawnInv;
    if !r.handler.Spawning? {
      hide R.HandlerStep;
    }
  }

  /** A step of the server process keeps the servers, and only a successful report shuts one down. */
  lemma ProcessKeepsServers(r: R.State, x: R.Action, i: nat)
    requires R.Enabled(r, x) && R.SpawnInv(r)
    ensures |R.Apply(r, x).servers| == |r.servers|
    ensures i < |r.servers| && ShutDown(R.Apply(r, x).servers[i]) && !ShutDown(r.servers[i]) ==>
              x == R.ShutdownEnds(i, true)
  {
    HandlerKeepsServers(r, i);
    hide R.HandlerStep, R.SpawnInv;
  }

  lemma ProcessKeepsOrder(r: R.State, x: R.Action)
    requires R.Enabled(r, x) && R.Inv(r)
    ensures AfterServe(r.main) ==> AfterServe(R.Apply(r, x).main) && R.Apply(r, x).cancelled == r.cancelled
    ensures R.Apply(r, x).main.Exiting? && !r.main.Exiting? ==> x.MainSteps? && r.main.RunningDefers?
  {
  }

  lemma NothingIsLate(s: State)
    requires LateInv(s) && s.life.closer.Idle?
    ensures forall p :: p in s.life.actors ==> !s.life.actors[p].hist.late
  {
  }

  lemma ProcessKeepsOwners(s: State, x: R.Action)
    requires R.Inv(s.run) && OwnerInv(s) && Enabled(s, Process(x))
    ensures OwnerInv(Apply(s, Process(x)))
  {
    var s' := Apply(s, Process(x));
    assert R.SpawnInv(s.run);
    hide R.Inv, R.Apply, R.Enabled, R.SpawnInv;
    ProcessKeepsServers(s.run, x, 0);
    forall p | p in s'.life.actors && InProgress(s'.life.actors[p].call)
      ensures !ShutDown(s'.run.servers[s.owner[p]])
    {
      ProcessKeepsServers(s.run, x, s.owner[p]);
    }
  }

  lemma ProcessKeepsInv(s: State, x: R.Action)
    requires Inv(s) && Enabled(s, Process(x))
    ensures Inv(Apply(s, Process(x)))
  {
    hide R.Inv, LI.Inv, R.Apply, R.Enabled, Accounted;
    R.StepKeepsInv(s.run, x);
    ProcessKeepsOrder(s.run, x);
    ProcessKeepsOwners(s, x);
    hide OwnerInv, Quiescent;
    if !AfterServe(s.run.main) {
      NothingIsLate(s);
    }
  }

  lemma NewOwner(s: State, i: nat, a: L.Actor)
    requires OwnerInv(s) && i < |s.run.servers| && !ShutDown(s.run.servers[i])
    ensures OwnerInv(s.(life := s.life.(actors := s.life.actors[s.life.nextPid := a], nextPid := s.life.nextPid + 1),
                        owner := s.owner[s.life.nextPid := i]))
  {
  }

  lemma NewIsAccounted(s: State, vmid: VmId, ip: Ip)
    requires LI.Inv(s.life) && LateInv(s) && L.FreshId(s.life, vmid)
    ensures LateInv(s.(life := L.Spawned(s.life, vmid, ip)))
  {
    var s' := s.(life := L.Spawned(s.life, vmid, ip));
    var p := s.life.nextPid;
    assert Accounted(s.life.closer, p, L.NewActor(vmid, ip));
    hide LI.Inv, Accounted, L.FreshId;
    forall q | q in s'.life.actors
      ensures Accounted(s.life.closer, q, s'.life.actors[q])
      ensures s'.run.cancelled ==> !s'.life.actors[q].hist.late
    {
      if q != p {
        assert s'.life.actors[q] == s.life.actors[q];
      }
    }
  }

  lemma LateIgnoresOwners(s: State, owner: map<Pid, nat>)
    requires LateInv(s)
    ensures LateInv(s.(owner := owner))
  {
  }

  lemma HandleRunKeepsInv(s: State, i: nat, vmid: VmId, ip: Ip)
    requires Inv(s) && Enabled(s, HandleRun(i, vmid, ip))
    ensures Inv(Apply(s, HandleRun(i, vmid, ip)))
  {
    hide R.Inv, LI.Inv, LateInv, OwnerInv;
    LI.StepKeepsInv(s.life, L.Spawn(vmid, ip));
    NewIsAccounted(s, vmid, ip);
    NewOwner(s, i, L.NewActor(vmid, ip));
    LateIgnoresOwners(s.(life := L.Spawned(s.life, vmid, ip)), s.owner[s.life.nextPid := i]);
    hide L.NewActor, L.FreshId;
  }

  lemma MachineKeepsOwners(s: State, y: L.Action)
    requires OwnerInv(s) && Enabled(s, Machine(y))
    ensures OwnerInv(Apply(s, Machine(y)))
  {
    hide L.Apply, L.Enabled;
    MachineKeepsActors(s.life, y);
    forall p | p in s.life.actors
      ensures InProgress(L.Apply(s.life, y).actors[p].call) ==> InProgress(s.life.actors[p].call)
    {
      MachineEndsCalls(s.life, y, p);
    }
  }

  lemma AccountFrame(c: L.Closer, d: L.Closer, p: Pid, a: L.Actor, b: L.Actor)
    requires Accounted(c, p, a) && SameAccount(a, b)
    requires (d.Idle? <==> c.Idle?) && (!c.Idle? ==> d.entries == c.entries)
    ensures Accounted(d, p, b)
  {
  }

  /** A tracked actor whose entry was not deleted has one. */
  lemma TrackedHasEntry(l: L.State, p: Pid)
    requires LI.Inv(l) && p in l.actors && l.actors[p].call.Tracked? && !l.actors[p].hist.deleted
    ensures l.actors[p].vmid in l.db && l.db[l.actors[p].vmid].pid == p
  {
    LT.OneViewOf(l, p);
    hide LI.Inv, LI.PcInv, LI.DebouncerInv, LI.StopInv, LI.BoxInv;
  }

  /** The snapshot lists every tracked actor whose entry was not deleted. */
  lemma SnapshotLists(l: L.State, order: seq<Entry>, p: Pid)
    requires LI.Inv(l) && IsSnapshot(l.db, order) && p in l.actors
    requires l.actors[p].call.Tracked? && !l.actors[p].hist.deleted
    ensures InSnapshot(L.Sweep(order, 0, L.Sending), p)
  {
    hide LI.Inv;
    TrackedHasEntry(l, p);
    var e := l.db[l.actors[p].vmid];
    assert e in order;
    var i :| 0 <= i < |order| && order[i] == e;
  }

  lemma CloseBeginsKeepsLate(s: State, order: seq<Entry>)
    requires LI.Inv(s.life) && LateInv(s) && s.life.closer.Idle? && IsSnapshot(s.life.db, order)
    ensures LateInv(s.(life := s.life.(closer := L.Sweep(order, 0, L.Sending))))
  {
    hide LI.Inv, IsSnapshot, InSnapshot;
    forall p | p in s.life.actors
      ensures Accounted(L.Sweep(order, 0, L.Sending), p, s.life.actors[p])
    {
      if s.life.actors[p].call.Tracked? && !s.life.actors[p].hist.deleted {
        SnapshotLists(s.life, order, p);
      }
    }
  }

  lemma CloseSendsKeepsLate(s: State)
    requires LateInv(s) && Enabled(s, Machine(L.CloseSends))
    ensures LateInv(s.(life := L.SendStop(s.life)))
  {
    var c := s.life.closer;
    assert InSnapshot(c, c.entries[c.next].pid);
    hide InSnapshot;
  }

  lemma SnapshotIsTracked(l: L.State, p: Pid)
    requires LI.Inv(l) && InSnapshot(l.closer, p)
    ensures p in l.actors && l.actors[p].call.Tracked?
  {
    var i :| 0 <= i < |l.closer.entries| && l.closer.entries[i].pid == p;
    assert LI.SweepInv(l, i);
  }

  /** An actor whose call has not returned is not in a snapshot and was not sent `Stop`. */
  lemma ReturningIsUnknown(l: L.State, p: Pid)
    requires LI.Inv(l) && p in l.actors && !l.actors[p].call.Tracked?
    ensures l.actors[p].hist.stops == 0 && !l.actors[p].hist.late && !InSnapshot(l.closer, p)
  {
    LT.OneViewOf(l, p);
    hide LI.Inv, InSnapshot;
    if InSnapshot(l.closer, p) {
      SnapshotIsTracked(l, p);
    }
  }

  lemma ReturnIsAccounted(l: L.State, q: Pid, p: Pid)
    requires LI.Inv(l) && L.Enabled(l, L.CallReturns(q)) && p in l.actors && Accounted(l.closer, p, l.actors[p])
    ensures p in L.ReturnCall(l, q).actors && Accounted(l.closer, p, L.ReturnCall(l, q).actors[p])
  {
    hide LI.Inv, InSnapshot, L.ReturnCall, InProgress;
    ReturnKeepsAccount(l, q, p);
    if p == q {
      ReturningIsUnknown(l, q);
    }
  }

  lemma CallReturnsKeepsLate(s: State, q: Pid)
    requires R.Inv(s.run) && LI.Inv(s.life) && OwnerInv(s) && LateInv(s)
    requires Enabled(s, Machine(L.CallReturns(q)))
    ensures LateInv(s.(life := L.ReturnCall(s.life, q)))
  {
    var l := s.life;
    MachineKeepsActors(l, L.CallReturns(q));
    assert InProgress(l.actors[q].call);
    hide R.Inv, LI.Inv, OwnerInv, Accounted, L.ReturnCall, InProgress;
    if s.run.cancelled {
      NoCallAfterGracefulShutdown(s, q);
    }
    ReturnKeepsAccount(l, q, q);
    forall p | p in l.actors
      ensures Accounted(l.closer, p, L.ReturnCall(l, q).actors[p])
    {
      ReturnIsAccounted(l, q, p);
    }
  }

  lemma OthersKeepLate(s: State, y: L.Action)
    requires LateInv(s) && Enabled(s, Machine(y))
    requires !y.CallReturns? && !y.CloseBegins? && !y.CloseSends?
    ensures LateInv(Apply(s, Machine(y)))
  {
    var s' := Apply(s, Machine(y));
    assert L.Enabled(s.life, y) && s' == s.(life := L.Apply(s.life, y));
    assert s'.life.closer.Idle? == s.life.closer.Idle?
           && (!s.life.closer.Idle? ==> s'.life.closer.entries == s.life.closer.entries) by {
      SweepStays(s.life, y);
    }
    hide L.Apply, L.Enabled, Enabled, Apply, Accounted;
    MachineKeepsActors(s.life, y);
    forall p | p in s.life.actors
      ensures Accounted(s'.life.closer, p, s'.life.actors[p])
      ensures s.run.cancelled ==> !s'.life.actors[p].hist.late
    {
      StepKeepsAccount(s.life, y, p);
      AccountFrame(s.life.closer, s'.life.closer, p, s.life.actors[p], s'.life.actors[p]);
    }
  }

  lemma MachineKeepsLate(s: State, y: L.Action)
    requires Inv(s) && Enabled(s, Machine(y))
    ensures LateInv(Apply(s, Machine(y)))
  {
    hide R.Inv, LI.Inv, OwnerInv, OrderInv, LateInv, L.ReturnCall, L.SendStop, IsSnapshot;
    match y {
      case CallReturns(q) => CallReturnsKeepsLate(s, q);
      case CloseBegins(order) => CloseBeginsKeepsLate(s, order);
      case CloseSends => CloseSendsKeepsLate(s);
      case _ => OthersKeepLate(s, y);
    }
  }

  lemma MachineKeepsOrder(s: State, y: L.Action)
    requires OrderInv(s) && Enabled(s, Machine(y))
    ensures OrderInv(Apply(s, Machine(y)))
  {
    if !y.CloseBegins? && !y.CloseDeletes? && !y.CloseEnds? {
      hide L.Apply, L.Enabled;
      MachineKeepsSweep(s.life, y);
    }
  }

  lemma MachineKeepsInv(s: State, y: L.Action)
    requires Inv(s) && Enabled(s, Machine(y))
    ensures Inv(Apply(s, Machine(y)))
  {
    MachineKeepsLate(s, y);
    hide R.Inv, LI.Inv, OwnerInv, OrderInv, LateInv, L.Apply, L.Enabled;
    LI.StepKeepsInv(s.life, y);
    MachineKeepsOwners(s, y);
    MachineKeepsOrder(s, y);
  }

  lemma StepKeepsInv(s: State, a: Action)
    requires Inv(s) && Enabled(s, a)
    ensures Inv(Apply(s, a))
  {
    hide Inv;
    match a {
      case Process(x) => ProcessKeepsInv(s, x);
      case Machine(y) => MachineKeepsInv(s, y);
      case HandleRun(i, vmid, ip) => HandleRunKeepsInv(s, i, vmid, ip);
    }
  }

  lemma {:induction false} RunKeepsInv(s: State, run: seq<Action>)
    requires Inv(s) && Legal(s, run)
    ensures Inv(After(s, run))
    decreases |run|
  {
    if run == [] {
    } else {
      hide Inv, Apply, Enabled;
      StepKeepsInv(s, run[0]);
      RunKeepsInv(Apply(s, run[0]), run[1..]);
    }
  }

  // ---------- what holds in every run of the process ----------

  ghost predicate Reachable(s: State) {
    exists probes: nat, servers: nat, run ::
      Legal(Initial(probes, servers), run) && After(Initial(probes, servers), run) == s
  }

  lemma ReachableInv(s: State)
    requires Reachable(s)
    ensures Inv(s)
  {
    var probes: nat, servers: nat, run :|
      Legal(Initial(probes, servers), run) && After(Initial(probes, servers), run) == s;
    R.InitialInv(probes, servers);
    LI.InitialInv();
    hide R.Inv, LI.Inv, Apply, Enabled;
    RunKeepsInv(Initial(probes, servers), run);
  }

  /** After a graceful shutdown, from before `Close` starts on, no `StartVMM` call is in progress. */
  lemma NoCallDuringClose(s: State, p: Pid)
    requires Reachable(s) && s.run.cancelled && p in s.life.actors
    ensures !InProgress(s.life.actors[p].call)
  {
    hide R.Inv, LI.Inv;
    ReachableInv(s);
    NoCallAfterGracefulShutdown(s, p);
  }

  /** `Close` starts only after `Serve` has returned, and has ended when the process exits. */
  lemma CloseIsDeferred(s: State)
    requires Reachable(s)
    ensures !s.life.closer.Idle? ==> AfterServe(s.run.main) && s.run.handler.Finished?
    ensures s.run.main.Exiting? ==> s.life.closer.Closed?
  {
    ReachableInv(s);
  }

  /** What a finished `Close` has done about one actor. */
  lemma ClosedView(l: L.State, p: Pid)
    requires LI.Inv(l) && l.closer.Closed? && p in l.actors && InSnapshot(l.closer, p)
    ensures l.actors[p].hist.stops == 1 && l.actors[p].hist.deleted
  {
    var i :| 0 <= i < |l.closer.entries| && l.closer.entries[i].pid == p;
    assert LI.SweepInv(l, i);
  }

  lemma ExitView(s: State, p: Pid)
    requires Reachable(s) && s.run.main.Exiting? && p in s.life.actors
    ensures LI.Inv(s.life) && s.life.closer.Closed? && Accounted(s.life.closer, p, s.life.actors[p])
    ensures LI.ViewInv(p, LI.Look(s.life, p))
    ensures InSnapshot(s.life.closer, p) ==> s.life.actors[p].hist.stops == 1 && s.life.actors[p].hist.deleted
    ensures s.run.cancelled ==> !s.life.actors[p].hist.late
  {
    hide R.Inv, LI.Inv, Accounted;
    ReachableInv(s);
    LT.OneViewOf(s.life, p);
    hide LI.ViewInv, InSnapshot;
    if InSnapshot(s.life.closer, p) {
      ClosedView(s.life, p);
    }
  }

  /**
   What is in the registry when the process exits, exactly: an entry that was made after `Close` had
   begun and that no notice of its own machine has removed since.
   */
  lemma EntryAtExit(s: State, p: Pid)
    requires Reachable(s) && s.run.main.Exiting? && p in s.life.actors
    ensures var a := s.life.actors[p];
            a.vmid in s.life.db <==> a.hist.late && (a.hist.notices == 0 || a.hist.early)
  {
    ExitView(s, p);
    hide Reachable, LI.Inv, InSnapshot;
  }

  lemma EntryHasActor(l: L.State, id: VmId)
    requires LI.Inv(l) && id in l.db
    ensures l.db[id].pid in l.actors && l.actors[l.db[id].pid].vmid == id
  {
    assert LI.Owned(l, id, l.db[id].pid);
  }

  /**
   The registry is empty at exit if and only if every start call that added its machine after `Close`
   had begun was followed by the handled notice of that machine.
   */
  lemma RegistryEmptyAtExit(s: State)
    requires Reachable(s) && s.run.main.Exiting?
    ensures s.life.db == map[] <==>
            forall p :: p in s.life.actors && s.life.actors[p].hist.late ==>
              s.life.actors[p].hist.notices > 0 && !s.life.actors[p].hist.early
  {
    hide R.Inv, LI.Inv, Reachable;
    assert LI.Inv(s.life) by { ReachableInv(s); }
    forall p | p in s.life.actors
      ensures s.life.actors[p].vmid in s.life.db
              <==> s.life.actors[p].hist.late && (s.life.actors[p].hist.notices == 0 || s.life.actors[p].hist.early)
    {
      EntryAtExit(s, p);
    }
    if s.life.db != map[] {
      var id :| id in s.life.db;
      EntryHasActor(s.life, id);
    }
  }

  /** Each machine in the snapshot `Close` took was sent exactly one `Stop` and its entry is gone. */
  lemma ExitStopsSnapshot(s: State, p: Pid)
    requires Reachable(s) && s.run.main.Exiting? && p in s.life.actors
    ensures s.life.closer.Closed?
    ensures s.life.actors[p].hist.stops == VmmActor.One(InSnapshot(s.life.closer, p))
    ensures InSnapshot(s.life.closer, p) ==> s.life.actors[p].vmid !in s.life.db
  {
    ExitView(s, p);
    hide Reachable, LI.Inv, InSnapshot;
  }

  lemma LifeReachableView(s: State, p: Pid)
    requires Reachable(s) && p in s.life.actors
    ensures LI.ViewInv(p, LI.Look(s.life, p))
  {
    hide R.Inv, LI.Inv;
    ReachableInv(s);
    LT.OneViewOf(s.life, p);
  }

  /**
   A machine of the snapshot at exit: if it has not exited by itself, it is stopped if and only if its
   actor handled the `Stop` before the process exits. When `Close` had the reply in time it certainly did;
   otherwise `Close` deleted the entry all the same, and the message may still be in the mailbox.
   The same goes for what the actor did, if it has not handled the exit of its machine.
   */
  lemma StoppedAtExit(s: State, p: Pid)
    requires Reachable(s) && s.run.main.Exiting? && p in s.life.actors && InSnapshot(s.life.closer, p)
    ensures var a := s.life.actors[p];
            && (a.waiter.Blocked? ==> (!LT.Live(a) <==> !a.hist.reply.Unanswered?))
            && (a.vmm.life == VmmActor.Alive ==> (!LT.Up(a) <==> !a.hist.reply.Unanswered?))
            && (a.vmm.life == VmmActor.Alive && LT.Up(a) ==> VmmActor.Stop in a.inbox)
            && (a.hist.reply.InTime? ==> !LT.Up(a) && a.hist.launches == a.hist.halts == 1)
  {
    hide Reachable, LI.Inv, LI.ViewInv, InSnapshot, Accounted;
    ExitView(s, p);
    LT.StopView(p, LI.Look(s.life, p));
  }

  /**
   Graceful shutdown drains the registry: if every HTTP server shut down successfully, the process exits
   with an empty registry, whatever notices deleted entries meanwhile. Each machine that was ever in the
   registry was sent exactly one `Stop` or had reported its end before.
   */
  lemma GracefulShutdownDrains(s: State)
    requires Reachable(s) && s.run.main.Exiting? && s.run.cancelled
    ensures s.life.db == map[]
    ensures forall p :: p in s.life.actors && s.life.actors[p].call.Tracked? ==>
              && LI.Halting(s.life.actors[p])
              && (s.life.actors[p].hist.stops == 1 || s.life.actors[p].hist.notices == 1)
  {
    hide R.Inv, LI.Inv, Reachable;
    forall p | p in s.life.actors
      ensures !s.life.actors[p].hist.late
    {
      ExitView(s, p);
    }
    RegistryEmptyAtExit(s);
    forall p | p in s.life.actors && s.life.actors[p].call.Tracked?
      ensures LI.Halting(s.life.actors[p])
      ensures s.life.actors[p].hist.stops == 1 || s.life.actors[p].hist.notices == 1
    {
      LifeReachableView(s, p);
    }
  }

  lemma LeftView(p: Pid, v: LI.View)
    requires LI.ViewInv(p, v) && !InProgress(v.a.call)
    ensures var reached := v.a.hist.launches == 1 && (v.a.call.TimedOut? || (v.a.call.Tracked? && v.a.hist.reply.Unanswered?));
            && (LT.Up(v.a) <==> reached && v.a.vmm.life != VmmActor.Dead)
            && (LT.Live(v.a) <==> reached && v.a.vmm.life == VmmActor.Alive && !LT.ExitUnhandled(v.a))
  {
    hide LI.DebouncerInv, LI.BoxInv, LI.DbInv;
  }

  /**
   What a graceful shutdown leaves running, exactly: a machine that was launched, whose exit its actor
   has neither handled nor in its mailbox, and that is an orphan of a timed-out start call or was
   registered and has not answered its `Stop`. One that exited, but was not cleaned up by its actor, is
   left up in the same two cases as long as that actor is not dead.
   */
  lemma UpAfterGracefulShutdown(s: State, p: Pid)
    requires Reachable(s) && s.run.main.Exiting? && s.run.cancelled && p in s.life.actors
    ensures var a := s.life.actors[p];
            LT.Live(a) <==>
            && a.hist.launches == 1 && a.vmm.life == VmmActor.Alive && !LT.ExitUnhandled(a)
            && (a.call.TimedOut? || (a.call.Tracked? && a.hist.reply.Unanswered?))
    ensures var a := s.life.actors[p];
            LT.Up(a) <==>
            && a.hist.launches == 1 && a.vmm.life != VmmActor.Dead
            && (a.call.TimedOut? || (a.call.Tracked? && a.hist.reply.Unanswered?))
  {
    NoCallDuringClose(s, p);
    LifeReachableView(s, p);
    hide Reachable, LI.ViewInv, InProgress;
    LeftView(p, LI.Look(s.life, p));
  }

  /**
   Nothing is held up by putting the two systems together: once serving, every server that has not shut down
   takes requests; machines go on as they are, at any time; and `Close` can begin when its turn has come.
   */
  lemma NothingIsHeldUp(s: State, i: nat, vmid: VmId, ip: Ip, y: L.Action, order: seq<Entry>)
    ensures !R.Booting(s.run.main) && i < |s.run.servers| && !ShutDown(s.run.servers[i]) && L.FreshId(s.life, vmid)
            ==> Enabled(s, HandleRun(i, vmid, ip))
    ensures L.Enabled(s.life, y) && !y.Spawn? && !y.CloseBegins? ==> Enabled(s, Machine(y))
    ensures s.run.main.RunningDefers? && s.life.closer.Idle? && IsSnapshot(s.life.db, order)
            ==> Enabled(s, Machine(L.CloseBegins(order)))
    ensures s.run.main.RunningDefers? && s.life.closer.Closed? ==> Enabled(s, Process(R.MainSteps))
    ensures i < |s.run.servers| && s.run.servers[i].stopper.Stopping? ==> Enabled(s, Process(R.ShutdownEnds(i, false)))
    ensures i < |s.run.servers| && s.run.servers[i].stopper.Stopping? && Quiescent(s, i)
            ==> Enabled(s, Process(R.ShutdownEnds(i, true)))
  {
    hide IsSnapshot, Quiescent;
  }

  // ---------- without a graceful shutdown ----------

  lemma {:induction false} AfterConcat(s: State, run: seq<Action>, a: Action)
    requires Legal(s, run) && Enabled(After(s, run), a)
    ensures Legal(s, run + [a]) && After(s, run + [a]) == Apply(After(s, run), a)
    decreases |run|
  {
    hide Apply, Enabled;
    if run != [] {
      assert (run + [a])[0] == run[0] && (run + [a])[1..] == run[1..] + [a];
      AfterConcat(Apply(s, run[0]), run[1..], a);
    } else {
      assert run + [a] == [a] && [a][1..] == [];
      assert Legal(Apply(s, a), []);
    }
  }

  lemma ReachableStep(s: State, a: Action)
    requires Reachable(s) && Enabled(s, a)
    ensures Reachable(Apply(s, a))
  {
    hide Apply, Enabled, Initial;
    var probes: nat, servers: nat, run :|
      Legal(Initial(probes, servers), run) && After(Initial(probes, servers), run) == s;
    AfterConcat(Initial(probes, servers), run, a);
  }

  /** A server process without probes and with one HTTP server, before any request. */
  const SERVING := R.State(R.Serving, R.AwaitingShutdown, [], [R.Server(true, R.NotSpawned)], 0, 0, [], false, 2, [],
                           true, false)

  /** The same process after `Shutdown` was called: the server has reported `ok`, and no longer serves. */
  function Served(ok: bool): R.State {
    R.State(R.Serving, R.Finished, [], [R.Server(false, R.Done(ok))], 1, 1, [R.Returned], false, 0,
            [R.Report(0, ok)], ok, ok)
  }

  lemma ServingReachable()
    ensures Reachable(State(SERVING, L.INITIAL, map[]))
  {
    var s := Initial(0, 1);
    assert Legal(s, []) && After(s, []) == s;
    assert Reachable(s);
    assert s.run.probes == [] && s.run.servers == [R.Server(true, R.NotSpawned)];
    hide Reachable;
    ReachableStep(s, Process(R.MainSteps));
    s := Apply(s, Process(R.MainSteps));
    ReachableStep(s, Process(R.MainSteps));
  }

  /** A step of the server process beside machines that stay as they are. */
  lemma ProcessSteps(s: State, x: R.Action) returns (t: State)
    requires Reachable(s) && R.Enabled(s.run, x) && (x == R.ShutdownEnds(0, true) ==> Quiescent(s, 0))
    requires !s.run.main.RunningDefers? && |s.run.servers| == 1
    ensures t == s.(run := R.Apply(s.run, x)) && Reachable(t)
  {
    hide Reachable, R.Apply, Quiescent;
    assert Enabled(s, Process(x));
    hide R.Enabled;
    ReachableStep(s, Process(x));
    t := s.(run := R.Apply(s.run, x));
  }

  lemma MachineSteps(s: State, y: L.Action) returns (t: State)
    requires Reachable(s) && L.Enabled(s.life, y) && !y.Spawn? && !y.CloseBegins?
    ensures t == s.(life := L.Apply(s.life, y)) && Reachable(t)
  {
    hide Reachable, L.Apply, L.Enabled;
    ReachableStep(s, Machine(y));
    t := s.(life := L.Apply(s.life, y));
  }

  lemma ChannelClosedReachable(s: State) returns (t: State)
    requires Reachable(s) && s.run == SERVING
    ensures Reachable(t) && t == s.(run := SERVING.(shuttingDown := 1, closes := 1, callers := [R.Returned]))
  {
    hide Reachable, Quiescent;
    t := ProcessSteps(s, R.CallShutdown);
    t := ProcessSteps(t, R.CallerSwaps(0));
    t := ProcessSteps(t, R.CallerCloses(0));
    assert t.run.callers == [R.Returned];
  }

  lemma ServerSpawnedReachable(s: State) returns (t: State)
    requires Reachable(s) && s.run == SERVING.(shuttingDown := 1, closes := 1, callers := [R.Returned])
    ensures Reachable(t)
    ensures t == s.(run := s.run.(handler := R.Receiving(0), servers := [R.Server(true, R.Stopping)]))
  {
    hide Reachable, Quiescent;
    t := ProcessSteps(s, R.HandlerSteps);
    t := ProcessSteps(t, R.HandlerSteps);
    t := ProcessSteps(t, R.HandlerSteps);
    t := ProcessSteps(t, R.HandlerSteps);
    assert t.run.servers == [R.Server(true, R.Stopping)];
  }

  lemma ReportReachable(s: State, ok: bool) returns (t: State)
    requires Reachable(s) && (ok ==> Quiescent(s, 0))
    requires s.run == SERVING.(shuttingDown := 1, closes := 1, callers := [R.Returned],
                               handler := R.Receiving(0), servers := [R.Server(true, R.Stopping)])
    ensures Reachable(t) && t == s.(run := Served(ok))
  {
    hide Reachable, Quiescent;
    t := ProcessSteps(s, R.ShutdownEnds(0, ok));
    t := ProcessSteps(t, R.Receive(0));
    t := ProcessSteps(t, R.HandlerSteps);
    if ok {
      t := ProcessSteps(t, R.HandlerSteps);
    }
    t := ProcessSteps(t, R.ServeReturns(0));
    assert t.run.servers == [R.Server(false, R.Done(ok))] && t.run.received == [R.Report(0, ok)];
  }

  /** `Shutdown` is called, the only server reports, and the deferred calls begin. */
  lemma DefersReachable(s: State, ok: bool) returns (t: State)
    requires Reachable(s) && s.run == SERVING && (ok ==> Quiescent(s, 0))
    ensures Reachable(t) && t == s.(run := Served(ok).(main := R.RunningDefers))
  {
    hide Reachable;
    t := ChannelClosedReachable(s);
    t := ServerSpawnedReachable(t);
    t := ReportReachable(t, ok);
    hide Quiescent;
    t := ProcessSteps(t, R.MainSteps);
  }

  /** A machine that is launching, and one that is running and registered. */
  const LAUNCHING := L.Actor("a", "ip", L.Launching, VmmActor.INITIAL, [], L.Blocked, L.Probing, [], Debouncer.INITIAL,
                             L.Waiting, L.NO_HISTORY.(launches := 1))

  const TRACKED := LAUNCHING.(pc := L.Answered, vmm := VmmActor.State(VmmActor.Started, VmmActor.Alive),
                              call := L.Tracked)

  const ENTRY := Entry("a", 0, "ip", false)

  /** The serving process with one machine, launching in a handler or registered. */
  const HANDLING := State(SERVING, L.State(map[0 := LAUNCHING], 1, [], map[], L.Idle, 0, 0), map[0 := 0])

  const REGISTERED := State(SERVING, L.State(map[0 := TRACKED], 1, [], map["a" := ENTRY], L.Idle, 1, 0), map[0 := 0])

  lemma HandlingReachable()
    ensures Reachable(HANDLING)
  {
    hide Reachable;
    ServingReachable();
    var s := State(SERVING, L.INITIAL, map[]);
    ReachableStep(s, HandleRun(0, "a", "ip"));
    s := Apply(s, HandleRun(0, "a", "ip"));
    assert s.life.actors[0] == L.NewActor("a", "ip");
    s := MachineSteps(s, L.LaunchSucceeds(0));
    assert [VmmActor.Start][1..] == [];
    assert s == HANDLING;
  }

  lemma RegisteredReachable()
    ensures Reachable(REGISTERED)
  {
    hide Reachable;
    HandlingReachable();
    var s := MachineSteps(HANDLING, L.Answer(0));
    s := MachineSteps(s, L.CallReturns(0));
    assert s == REGISTERED;
  }

  /** The process leaves its deferred calls. */
  lemma ExitReachable(s: State) returns (t: State)
    requires Reachable(s) && s.run.main.RunningDefers? && s.life.closer.Closed?
    ensures Reachable(t) && t.run.main.Exiting? && t.run.cancelled == s.run.cancelled && t.life == s.life
  {
    hide Reachable;
    ReachableStep(s, Process(R.MainSteps));
    t := Apply(s, Process(R.MainSteps));
  }

  /** `Close` runs while no machine is registered. */
  lemma EmptyCloseReachable(s: State) returns (t: State)
    requires Reachable(s) && s.run.main.RunningDefers? && s.life.closer.Idle? && s.life.db == map[]
    ensures Reachable(t) && t == s.(life := s.life.(closer := L.Closed([])))
  {
    hide Reachable;
    ReachableStep(s, Machine(L.CloseBegins([])));
    t := Apply(s, Machine(L.CloseBegins([])));
    t := MachineSteps(t, L.CloseEnds);
  }

  /**
   The condition on late entries is needed: if a server fails to shut down in time, a machine whose start
   outlasts `Close` is left running, and in the registry, when the process exits.
   */
  lemma FailedShutdownLeavesMachine() returns (s: State)
    ensures Reachable(s) && s.run.main.Exiting? && !s.run.cancelled
    ensures 0 in s.life.actors && LI.Running(s.life.actors[0]) && LT.Live(s.life.actors[0])
    ensures s.life.actors[0].vmid in s.life.db
    ensures s.life.actors[0].hist.stops == 0
  {
    hide Reachable;
    HandlingReachable();
    s := DefersReachable(HANDLING, false);
    s := EmptyCloseReachable(s);
    s := MachineSteps(s, L.Answer(0));
    s := MachineSteps(s, L.CallReturns(0));
    s := ExitReachable(s);
  }

  /** The registered machine after `Close` has sent it a `Stop` that it has not handled. */
  const SENT := TRACKED.(inbox := [VmmActor.Stop], hist := TRACKED.hist.(stops := 1))

  /** The same after `Close` has deleted its entry. */
  const FORGOTTEN := SENT.(hist := SENT.hist.(deleted := true))

  /** `Close` has taken its snapshot of the only machine. */
  lemma SnapshotReachable(s0: State) returns (s: State)
    requires Reachable(s0) && s0 == REGISTERED.(run := Served(true).(main := R.RunningDefers))
    ensures Reachable(s) && s == s0.(life := s0.life.(closer := L.Sweep([ENTRY], 0, L.Sending)))
  {
    assert IsSnapshot(s0.life.db, [ENTRY]);
    hide Reachable, IsSnapshot;
    ReachableStep(s0, Machine(L.CloseBegins([ENTRY])));
    s := Apply(s0, Machine(L.CloseBegins([ENTRY])));
  }

  /** `Close` has the only machine in hand. */
  lemma SentReachable(s0: State) returns (s: State)
    requires Reachable(s0) && s0 == REGISTERED.(run := Served(true).(main := R.RunningDefers))
    ensures Reachable(s)
    ensures s == s0.(life := s0.life.(actors := map[0 := SENT], closer := L.Sweep([ENTRY], 0, L.Awaiting(false))))
  {
    hide Reachable;
    s := SnapshotReachable(s0);
    s := MachineSteps(s, L.CloseSends);
    assert s.life.actors[0] == SENT;
  }

  lemma DroppedReachable(s0: State) returns (s: State)
    requires Reachable(s0) && s0.life.actors == map[0 := SENT] && s0.life.db == map["a" := ENTRY]
    requires s0.life.closer == L.Sweep([ENTRY], 0, L.Deleting)
    ensures Reachable(s) && s.run == s0.run
    ensures s.life.actors == map[0 := FORGOTTEN] && s.life.db == map[] && s.life.closer == L.Sweep([ENTRY], 1, L.Sending)
  {
    hide Reachable;
    s := MachineSteps(s0, L.CloseDeletes);
    assert s.life.actors[0] == FORGOTTEN;
  }

  /** `Close` gives up waiting for it, deletes its entry and ends. */
  lemma GivenUpReachable(s0: State) returns (s: State)
    requires Reachable(s0) && s0.life.actors == map[0 := SENT] && s0.life.db == map["a" := ENTRY]
    requires s0.life.closer == L.Sweep([ENTRY], 0, L.Awaiting(false))
    ensures Reachable(s) && s.run == s0.run
    ensures s.life.actors == map[0 := FORGOTTEN] && s.life.db == map[] && s.life.closer == L.Closed([ENTRY])
  {
    hide Reachable;
    s := MachineSteps(s0, L.CloseTimesOut);
    s := DroppedReachable(s);
    s := MachineSteps(s, L.CloseEnds);
  }

  /**
   The window of the last second: after a graceful shutdown a registered machine that does not answer its
   `Stop` before `Close` gives up is still running when the process exits, though the registry is empty.
   */
  lemma UnansweredStopLeavesMachine() returns (s: State)
    ensures Reachable(s) && s.run.main.Exiting? && s.run.cancelled && s.life.db == map[]
    ensures 0 in s.life.actors && s.life.actors[0].call.Tracked?
    ensures LI.Running(s.life.actors[0]) && LT.Live(s.life.actors[0])
    ensures s.life.actors[0].inbox == [VmmActor.Stop] && s.life.actors[0].hist.reply.Unanswered?
  {
    hide Reachable;
    RegisteredReachable();
    assert Quiescent(REGISTERED, 0);
    s := DefersReachable(REGISTERED, true);
    s := SentReachable(s);
    s := GivenUpReachable(s);
    s := ExitReachable(s);
  }
}
