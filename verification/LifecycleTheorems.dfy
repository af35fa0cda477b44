/** What holds in every reachable state of the machine lifecycle, and what its windows allow. */
module LifecycleTheorems {
  import opened Wrappers
  import opened Probe
  import opened Registry
  import opened Lifecycle
  import opened LifecycleInvariant
  import Debouncer
  import VmmActor

  ghost predicate Reachable(s: State) {
    exists run :: Legal(INITIAL, run) && After(INITIAL, run) == s
  }

  lemma ReachableInv(s: State)
    requires Reachable(s)
    ensures Inv(s)
  {
    hide Inv, Enabled, Apply;
    var run :| Legal(INITIAL, run) && After(INITIAL, run) == s;
    InitialInv();
    RunKeepsInv(INITIAL, run);
  }

  /** The view of one actor in a reachable state. */
  lemma ReachableView(s: State, p: Pid) returns (v: View)
    requires Reachable(s) && p in s.actors
    ensures v == Look(s, p) && ViewInv(p, v)
  {
    hide IdsInv, CloserInv, ViewInv;
    ReachableInv(s);
    v := Look(s, p);
  }

  // ---------- machines and registry entries ----------

  /** The machine of this actor was launched, and the actor has not stopped it. */
  predicate Up(a: Actor) {
    a.pc.Launching? || a.vmm.behavior == VmmActor.Started
  }

  /** The machine itself runs: it was launched, was not stopped and has not exited. */
  predicate Live(a: Actor) {
    Up(a) && a.waiter.Blocked?
  }

  /** The machine has exited, and its actor has yet to handle that. */
  predicate ExitUnhandled(a: Actor) {
    VmmActor.Finished in a.inbox
  }

  /** A machine is up exactly while its launches outnumber its stops, by one. */
  lemma UpMeansOneLaunchMore(s: State, p: Pid)
    requires Reachable(s) && p in s.actors
    ensures s.actors[p].hist.launches == s.actors[p].hist.halts + VmmActor.One(Up(s.actors[p]))
    ensures s.actors[p].hist.launches <= 1
  {
    var v := ReachableView(s, p);
  }

  /**
   Where a machine that is up has exited: exactly when the message about it waits in the mailbox of its
   actor, or the actor has handled it and is on its way out.
   */
  lemma UpIsLiveOrExited(s: State, p: Pid)
    requires Reachable(s) && p in s.actors && Up(s.actors[p])
    ensures Live(s.actors[p]) <==> !ExitUnhandled(s.actors[p]) && s.actors[p].vmm.life == VmmActor.Alive
  {
    var v := ReachableView(s, p);
  }

  /**
   No lost machine: a machine that is up is in the registry under its own pid, or its `StartVMM` call
   is still in progress, or that call timed out, or a stop is on its way to it.
   */
  lemma NoLostMachine(s: State, p: Pid)
    requires Reachable(s) && p in s.actors && Up(s.actors[p])
    ensures var a := s.actors[p];
            || (a.vmid in s.db && s.db[a.vmid].pid == p)
            || a.call.Waiting? || a.call.GotStarted?
            || a.call.TimedOut?
            || VmmActor.Stop in a.inbox || a.vmm.life == VmmActor.Dying
  {
    var v := ReachableView(s, p);
  }

  /**
   The orphan window, exactly: once its call has returned, a machine whose actor is started and is not
   being stopped is in the registry if and only if the call did not time out.
   */
  lemma UntrackedMeansTimedOut(s: State, p: Pid)
    requires Reachable(s) && p in s.actors && Running(s.actors[p])
    requires VmmActor.Stop !in s.actors[p].inbox && !s.actors[p].call.GotStarted?
    ensures s.actors[p].vmid in s.db <==> !s.actors[p].call.TimedOut?
  {
    var v := ReachableView(s, p);
  }

  /**
   No unexplained entry: an entry is filed under the id of its actor, and its machine runs, or its exit
   is waiting to be handled by the actor, or its notice is in the manager's mailbox, or `Close` has it in
   hand, or its notice was consumed before the entry was made. In the first two cases the actor is started.
   */
  lemma NoUnexplainedEntry(s: State, id: VmId)
    requires Reachable(s) && id in s.db
    ensures var e := s.db[id];
            && e.vmid == id && e.pid in s.actors && s.actors[e.pid].vmid == id && e.ip == s.actors[e.pid].ip
            && (|| (Running(s.actors[e.pid]) && (Live(s.actors[e.pid]) || ExitUnhandled(s.actors[e.pid])))
                || StopNotices(s.box, e.pid) > 0
                || InHand(s, e.pid)
                || s.actors[e.pid].hist.early)
  {
    ReachableInv(s);
    assert Owned(s, id, s.db[id].pid);
    hide IdsInv, CloserInv;
    var v := ReachableView(s, s.db[id].pid);
  }

  lemma SettledView(p: Pid, v: View)
    requires ViewInv(p, v) && v.entry.Some? && v.notices == 0 && !v.inHand
    ensures Running(v.a) <==> !v.a.hist.early
    ensures Live(v.a) <==> !v.a.hist.early && !ExitUnhandled(v.a)
  {
    hide DebouncerInv;
  }

  /**
   The stale-entry window, exactly: when no notice is on its way and `Close` is not at it, the actor of
   an entry is started if and only if no notice of it was consumed before the entry was made; and its
   machine runs if and only if, besides, no exit of it is waiting to be handled.
   */
  lemma StaleMeansEarlyNotice(s: State, id: VmId)
    requires Reachable(s) && id in s.db
    requires StopNotices(s.box, s.db[id].pid) == 0 && !InHand(s, s.db[id].pid)
    ensures s.db[id].pid in s.actors
    ensures var a := s.actors[s.db[id].pid];
            && (Running(a) <==> !a.hist.early)
            && (Live(a) <==> !a.hist.early && !ExitUnhandled(a))
  {
    NoUnexplainedEntry(s, id);
    hide Reachable, ViewInv;
    var v := ReachableView(s, s.db[id].pid);
    SettledView(s.db[id].pid, v);
  }

  /** Distinct entries belong to distinct actors. */
  lemma PidsAreDistinct(s: State, id: VmId, id': VmId)
    requires Reachable(s) && id in s.db && id' in s.db && s.db[id].pid == s.db[id'].pid
    ensures id == id'
  {
    NoUnexplainedEntry(s, id);
    NoUnexplainedEntry(s, id');
  }

  /** Adding a started machine to the registry never fails. */
  lemma AddNeverFails(s: State, p: Pid)
    requires Reachable(s) && p in s.actors && s.actors[p].call.GotStarted?
    ensures Added(s.db, s.actors[p].vmid, Some(p), s.actors[p].ip).Success?
  {
    var v := ReachableView(s, p);
    ReachableInv(s);
  }

  /** The manager can always take its next message: it comes from a known actor and carries its id. */
  lemma ManagerNeverBlocks(s: State)
    requires Reachable(s) && s.box != []
    ensures Owned(s, s.box[0].id, s.box[0].from) && Enabled(s, ManagerReceives)
  {
    assert Owned(s, s.box[0].id, s.box[0].from) by { ReachableInv(s); }
  }

  /** From its first step to its last, `Close` always has a next one it can take. */
  lemma CloseNeverBlocks(s: State)
    requires Reachable(s) && s.closer.Sweep?
    ensures exists x :: IsClose(x) && Enabled(s, x)
  {
    assert HasNext(s) ==> SweepInv(s, s.closer.next) by { ReachableInv(s); }
    assert s.closer.next <= |s.closer.entries| by { ReachableInv(s); }
    hide Reachable;
    var x :=
      if s.closer.next == |s.closer.entries| then CloseEnds
      else match s.closer.phase
           case Sending => CloseSends
           case Awaiting(replied) => if replied then CloseGetsReply else CloseTimesOut
           case Deleting => CloseDeletes;
    assert IsClose(x) && Enabled(s, x);
  }

  /** When the future of `Close` has its reply, the machine in hand has been stopped; without one it has not answered. */
  lemma ReplyMeansStopped(s: State)
    requires Reachable(s) && HasNext(s) && s.closer.phase.Awaiting?
    ensures NextKnown(s)
    ensures var a := s.actors[s.closer.entries[s.closer.next].pid];
            && (s.closer.phase.replied <==> a.hist.reply.InTime?)
            && (s.closer.phase.replied ==> !Up(a) && a.hist.launches == a.hist.halts == 1)
  {
    assert ReplyInv(s) by { ReachableInv(s); }
    hide Reachable;
    var v := ReachableView(s, s.closer.entries[s.closer.next].pid);
  }

  /** What a `Stop` has done to a machine: one that has not exited, and one whose exit is not handled yet. */
  predicate StopEffect(a: Actor) {
    && (a.waiter.Blocked? ==> (Live(a) <==> a.hist.reply.Unanswered?))
    && (a.vmm.life == VmmActor.Alive ==> (Up(a) <==> a.hist.reply.Unanswered?))
    && (a.vmm.life == VmmActor.Alive && Up(a) ==> VmmActor.Stop in a.inbox)
    && (a.vmm.life == VmmActor.Dead ==> !Up(a))
    && (!a.hist.reply.Unanswered? ==> !Up(a) && a.hist.launches == a.hist.halts == 1)
  }

  lemma StopView(p: Pid, v: View)
    requires ViewInv(p, v) && v.a.hist.stops > 0
    ensures StopEffect(v.a)
  {
  }

  /**
   A machine that was sent `Stop` and has not exited by itself is stopped if and only if its actor has
   handled that message, in time or not; until then the message is in its mailbox. The same goes for what
   the actor does while it has not handled the exit of its machine.
   */
  lemma StopTakesEffect(s: State, p: Pid)
    requires Reachable(s) && p in s.actors && s.actors[p].hist.stops > 0
    ensures StopEffect(s.actors[p])
  {
    hide Reachable, ViewInv, StopEffect;
    var v := ReachableView(s, p);
    StopView(p, v);
  }

  /** Successful additions minus successful deletions is the size of the registry. */
  lemma AddsMinusDeletes(s: State)
    requires Reachable(s)
    ensures s.adds - s.dels == |s.db|
  {
    ReachableInv(s);
  }

  /** Over any number of `Close` runs, a machine is sent at most one `Stop`, and only after it was tracked. */
  lemma AtMostOneStop(s: State, p: Pid)
    requires Reachable(s) && p in s.actors
    ensures s.actors[p].hist.stops <= 1
    ensures s.actors[p].hist.stops == 1 ==> s.actors[p].call.Tracked? && Halting(s.actors[p])
  {
    var v := ReachableView(s, p);
  }

  /** A finished `Close` has sent each machine of its snapshot exactly one `Stop` and removed all of them. */
  lemma CloseStopsItsSnapshot(s: State, i: nat)
    requires Reachable(s) && s.closer.Closed? && i < |s.closer.entries|
    ensures var e := s.closer.entries[i];
            && e.pid in s.actors && s.actors[e.pid].vmid == e.vmid
            && s.actors[e.pid].hist.stops == 1 && e.vmid !in s.db
  {
    ReachableInv(s);
    var e := s.closer.entries[i];
    assert SweepInv(s, i);
    hide IdsInv, CloserInv;
    var v := ReachableView(s, e.pid);
  }

  // ---------- readiness ----------

  /**
   An entry is marked ready if and only if the manager has handled a readiness event for it since it
   was made and the last one was `Ready`.
   */
  lemma FlagIsLastEvent(s: State, id: VmId)
    requires Reachable(s) && id in s.db
    ensures s.db[id].pid in s.actors
    ensures var h := s.actors[s.db[id].pid].hist;
            s.db[id].ready <==> |h.delivered| > h.deliveredAtAdd && h.delivered[|h.delivered| - 1] == Ready
  {
    NoUnexplainedEntry(s, id);
    var v := ReachableView(s, s.db[id].pid);
  }

  lemma FlagView(p: Pid, v: View)
    requires ViewInv(p, v) && v.entry.Some? && v.events == []
    ensures var d := v.a.hist.delivered;
            (v.entry.value.ready <==> v.a.debouncer.behavior == Ready)
            <==> !(|d| == v.a.hist.deliveredAtAdd && d != [] && d[|d| - 1] == Ready)
  {
    hide PcInv;
    assert v.a.hist.delivered == v.a.hist.forwarded;
  }

  /**
   Registry and debouncer agree: with no readiness event of the machine in the mailbox, the flag of its
   entry equals the debouncer's behaviour, unless the last event was a `Ready` that came before the
   entry was made; and in that case they do differ.
   */
  lemma FlagMatchesDebouncer(s: State, id: VmId)
    requires Reachable(s) && id in s.db && Events(s.box, s.db[id].pid) == []
    ensures s.db[id].pid in s.actors
    ensures var a := s.actors[s.db[id].pid];
            var d := a.hist.delivered;
            (s.db[id].ready <==> a.debouncer.behavior == Ready)
            <==> !(|d| == a.hist.deliveredAtAdd && d != [] && d[|d| - 1] == Ready)
  {
    NoUnexplainedEntry(s, id);
    hide Reachable, ViewInv;
    var v := ReachableView(s, s.db[id].pid);
    FlagView(s.db[id].pid, v);
  }

  /**
   Where a request may go: an entry marked ready has the address of its own machine, which was launched
   and whose last handled readiness event was `Ready`. With no notice on its way and `Close` not at it,
   that machine runs if and only if no notice of it was consumed before the entry was made and no exit of
   it is waiting to be handled.
   */
  lemma ReadyEntryServes(s: State, id: VmId)
    requires Reachable(s) && id in s.db && s.db[id].ready
    ensures s.db[id].pid in s.actors
    ensures var p := s.db[id].pid;
            var a := s.actors[p];
            && a.vmid == id && s.db[id].ip == a.ip && a.hist.launches == 1
            && a.hist.delivered != [] && a.hist.delivered[|a.hist.delivered| - 1] == Ready
            && (StopNotices(s.box, p) == 0 && !InHand(s, p) ==>
                  (Live(a) <==> !a.hist.early && !ExitUnhandled(a)) && (Running(a) <==> !a.hist.early))
  {
    NoUnexplainedEntry(s, id);
    FlagIsLastEvent(s, id);
    if StopNotices(s.box, s.db[id].pid) == 0 && !InHand(s, s.db[id].pid) {
      StaleMeansEarlyNotice(s, id);
    }
    hide Reachable;
    var v := ReachableView(s, s.db[id].pid);
  }

  /** The manager gets the readiness events of a machine in the order sent, strictly alternating. */
  lemma EventsAlternate(s: State, p: Pid, i: nat)
    requires Reachable(s) && p in s.actors && i < |s.actors[p].hist.delivered + Events(s.box, p)|
    ensures (s.actors[p].hist.delivered + Events(s.box, p))[i] == Debouncer.Alternating(i)
  {
    var v := ReachableView(s, p);
    assert v.a.hist.forwarded[i] == Debouncer.Alternating(i);
  }

  // ---------- deletion is for good ----------

  /** What never changes back: the id of an actor, a deletion, a timed-out call, a notice that came too early. */
  predicate Lasts(a: Actor, b: Actor) {
    && b.vmid == a.vmid
    && (a.hist.deleted ==> b.hist.deleted)
    && (a.call.TimedOut? ==> b.call.TimedOut?)
    && (a.hist.early ==> b.hist.early)
  }

  lemma OwnLasts(a: Actor, x: Action)
    requires IsOwn(x) && OwnEnabled(a, x)
    ensures Lasts(a, Own(a, x))
  {
  }

  lemma MessageLasts(s: State, x: Action, p: Pid)
    requires Enabled(s, x) && p in s.actors
    requires x.Deliver? || x.DeliverStopping? || x.Debounce?
    ensures p in Apply(s, x).actors && Lasts(s.actors[p], Apply(s, x).actors[p])
  {
    hide VmmActor.Handle, Debouncer.Step;
  }

  lemma CallLasts(s: State, q: Pid, p: Pid)
    requires Enabled(s, CallReturns(q)) && p in s.actors
    ensures p in ReturnCall(s, q).actors && Lasts(s.actors[p], ReturnCall(s, q).actors[p])
  {
  }

  lemma ManagerLasts(s: State, p: Pid)
    requires Enabled(s, ManagerReceives) && p in s.actors
    ensures p in ReceiveNotice(s).actors && Lasts(s.actors[p], ReceiveNotice(s).actors[p])
  {
  }

  lemma CloseLasts(s: State, x: Action, p: Pid)
    requires Enabled(s, x) && p in s.actors && IsClose(x)
    ensures p in Apply(s, x).actors && Lasts(s.actors[p], Apply(s, x).actors[p])
  {
    hide IsSnapshot;
  }

  /** A step keeps every actor and what lasts about it. */
  lemma StepLasts(s: State, x: Action, p: Pid)
    requires Enabled(s, x) && p in s.actors && s.nextPid !in s.actors
    ensures p in Apply(s, x).actors && Lasts(s.actors[p], Apply(s, x).actors[p])
  {
    if x.Deliver? || x.DeliverStopping? || x.Debounce? {
      hide *;
      MessageLasts(s, x, p);
    } else if x.CallReturns? {
      hide ReturnCall, Lasts;
      CallLasts(s, x.pid, p);
    } else if x.ManagerReceives? {
      hide ReceiveNotice, Lasts;
      ManagerLasts(s, p);
    } else if IsClose(x) {
      hide Enabled, Apply;
      CloseLasts(s, x, p);
    } else if IsOwn(x) {
      hide Own, OwnEnabled;
      if p == x.pid {
        OwnLasts(s.actors[p], x);
      }
    }
  }

  lemma {:induction false} RunLasts(s: State, run: seq<Action>, p: Pid)
    requires Inv(s) && Legal(s, run) && p in s.actors
    ensures p in After(s, run).actors && Lasts(s.actors[p], After(s, run).actors[p])
    decreases |run|
  {
    if run == [] {
    } else {
      assert s.nextPid !in s.actors;
      hide Inv, Apply, Enabled;
      StepKeepsInv(s, run[0]);
      StepLasts(s, run[0], p);
      RunLasts(Apply(s, run[0]), run[1..], p);
    }
  }

  lemma OneViewOf(s: State, p: Pid)
    requires Inv(s) && p in s.actors
    ensures ViewInv(p, Look(s, p))
  {
    hide IdsInv, CloserInv, ViewInv, Look;
  }

  /** Whatever lasts about an actor of a reachable state, and the invariant, after any continuation. */
  lemma ContinuationLasts(s: State, run: seq<Action>, p: Pid)
    requires Reachable(s) && Legal(s, run) && p in s.actors
    ensures var t := After(s, run);
            p in t.actors && Lasts(s.actors[p], t.actors[p]) && ViewInv(p, Look(t, p))
  {
    hide CoreInv, ReplyInv;
    ReachableInv(s);
    RunKeepsInv(s, run);
    RunLasts(s, run, p);
    OneViewOf(After(s, run), p);
  }

  /**
   An orphan stays one: in no continuation does `Close` send a `Stop` to a machine whose start call timed
   out, nor does it enter the registry.
   */
  lemma OrphanIsNeverStopped(s: State, run: seq<Action>, p: Pid)
    requires Reachable(s) && Legal(s, run) && p in s.actors && s.actors[p].call.TimedOut?
    ensures var t := After(s, run);
            && p in t.actors && t.actors[p].vmid == s.actors[p].vmid && t.actors[p].call.TimedOut?
            && t.actors[p].hist.stops == 0 && VmmActor.Stop !in t.actors[p].inbox && t.actors[p].vmid !in t.db
  {
    ContinuationLasts(s, run, p);
    hide Reachable, Legal, After;
  }

  /**
   No resurrection: once its entry was deleted, no continuation of the run, whatever late readiness
   events it delivers, brings the id back into the registry or into a snapshot of it.
   */
  lemma NoResurrection(s: State, run: seq<Action>, p: Pid, snapshot: seq<Entry>)
    requires Reachable(s) && Legal(s, run) && p in s.actors && s.actors[p].hist.deleted
    requires IsSnapshot(After(s, run).db, snapshot)
    ensures s.actors[p].vmid !in After(s, run).db
    ensures forall i :: 0 <= i < |snapshot| ==> snapshot[i].vmid != s.actors[p].vmid
  {
    var t := After(s, run);
    ContinuationLasts(s, run, p);
    hide Reachable, Legal, After, IsSnapshot;
    SnapshotSkips(t.db, snapshot, s.actors[p].vmid);
  }

  /** The entry of `p` is there although the notice that its machine finished has come and gone. */
  ghost predicate Stale(s: State, p: Pid) {
    p in s.actors && s.actors[p].vmid in s.db && s.actors[p].hist.early
  }

  lemma IdsAreUnique(s: State, p: Pid, q: Pid)
    requires Reachable(s) && p in s.actors && q in s.actors && s.actors[p].vmid == s.actors[q].vmid
    ensures p == q
  {
    ReachableInv(s);
  }

  lemma StaleHasNoNotice(s: State, p: Pid)
    requires Reachable(s) && Stale(s, p)
    ensures StopNotices(s.box, p) == 0
    ensures s.box != [] && s.box[0].id == s.actors[p].vmid ==> !s.box[0].StoppedNotice?
  {
    var v := ReachableView(s, p);
    if s.box != [] && s.box[0].id == s.actors[p].vmid {
      assert s.box[0].from == p by {
        ManagerNeverBlocks(s);
        IdsAreUnique(s, s.box[0].from, p);
      }
      BoxShrinks(s.box, p);
    }
  }

  lemma DeletionHitsInHand(s: State, p: Pid)
    requires Reachable(s) && NextKnown(s) && s.closer.phase.Deleting? && p in s.actors
    requires s.closer.entries[s.closer.next].vmid == s.actors[p].vmid
    ensures InHand(s, p)
  {
    ReachableInv(s);
    assert SweepInv(s, s.closer.next);
  }

  /** Only a handled notice and `Close` delete entries, each the one under the id it names. */
  lemma OthersKeepKeys(s: State, x: Action, id: VmId)
    requires Enabled(s, x) && id in s.db && !x.ManagerReceives? && !x.CloseDeletes?
    ensures id in Apply(s, x).db
  {
    hide VmmActor.Handle, Debouncer.Step, Own, OwnEnabled, IsSnapshot;
  }

  lemma DeletionsName(s: State, x: Action, id: VmId)
    requires Enabled(s, x) && id in s.db && id !in Apply(s, x).db && (x.ManagerReceives? || x.CloseDeletes?)
    ensures x.ManagerReceives? ==> s.box[0].StoppedNotice? && s.box[0].id == id
    ensures x.CloseDeletes? ==> s.closer.entries[s.closer.next].vmid == id
  {
  }

  /** A stale entry stays until `Close` deletes it: nothing else ever removes it. */
  lemma StaleStays(s: State, x: Action, p: Pid)
    requires Reachable(s) && Enabled(s, x) && Stale(s, p)
    ensures Stale(Apply(s, x), p) || (x.CloseDeletes? && InHand(s, p))
  {
    var id := s.actors[p].vmid;
    assert s.nextPid !in s.actors by { ReachableInv(s); }
    hide Reachable, Apply, InHand;
    StepLasts(s, x, p);
    StaleHasNoNotice(s, p);
    if id !in Apply(s, x).db {
      if x.ManagerReceives? || x.CloseDeletes? {
        DeletionsName(s, x, id);
      } else {
        OthersKeepKeys(s, x, id);
      }
      if x.CloseDeletes? {
        DeletionHitsInHand(s, p);
      }
    }
  }

  // ---------- the windows are real ----------

  lemma ReachableInitially()
    ensures Reachable(INITIAL)
  {
    assert Legal(INITIAL, []) && After(INITIAL, []) == INITIAL;
  }

  lemma {:induction false} AfterConcat(s: State, run: seq<Action>, x: Action)
    requires Legal(s, run) && Enabled(After(s, run), x)
    ensures Legal(s, run + [x]) && After(s, run + [x]) == Apply(After(s, run), x)
    decreases |run|
  {
    if run != [] {
      assert (run + [x])[0] == run[0] && (run + [x])[1..] == run[1..] + [x];
      hide Apply, Enabled;
      AfterConcat(Apply(s, run[0]), run[1..], x);
    } else {
      hide Apply, Enabled;
      assert run + [x] == [x] && [x][1..] == [];
      assert Legal(Apply(s, x), []);
    }
  }

  lemma ReachableStep(s: State, x: Action)
    requires Reachable(s) && Enabled(s, x)
    ensures Reachable(Apply(s, x))
  {
    hide Apply, Enabled;
    var run :| Legal(INITIAL, run) && After(INITIAL, run) == s;
    AfterConcat(INITIAL, run, x);
  }

  /** A system with one machine, and nothing in the manager's mailbox or in the registry. */
  function OneActor(a: Actor): State {
    State(map[0 := a], 1, [], map[], Idle, 0, 0)
  }

  lemma OwnStepReachable(a: Actor, x: Action)
    requires Reachable(OneActor(a)) && IsOwn(x) && x.pid == 0 && OwnEnabled(a, x)
    ensures Reachable(OneActor(Own(a, x)))
  {
    hide Own, OwnEnabled, Reachable;
    ReachableStep(OneActor(a), x);
    assert Apply(OneActor(a), x) == OneActor(Own(a, x));
  }

  /** The machine runs and has answered; its `StartVMM` call has not taken the answer yet. */
  const STARTED := Actor("a", "ip", Answered, VmmActor.State(VmmActor.Started, VmmActor.Alive), [], Blocked,
                         Probing, [], Debouncer.INITIAL, GotStarted, NO_HISTORY.(launches := 1))

  lemma SpawnedReachable()
    ensures Reachable(OneActor(NewActor("a", "ip")))
  {
    ReachableInitially();
    hide Reachable;
    ReachableStep(INITIAL, Spawn("a", "ip"));
  }

  lemma StartedReachable()
    ensures Reachable(OneActor(STARTED))
  {
    hide Reachable;
    SpawnedReachable();
    var a := NewActor("a", "ip");
    OwnStepReachable(a, LaunchSucceeds(0));
    assert [VmmActor.Start][1..] == [];
    OwnStepReachable(Own(a, LaunchSucceeds(0)), Answer(0));
  }

  /** The orphan window is real: a call that times out leaves a running machine outside the registry. */
  lemma OrphanIsReachable() returns (s: State)
    ensures Reachable(s) && 0 in s.actors && s.actors[0].call.TimedOut?
    ensures Running(s.actors[0]) && Live(s.actors[0])
    ensures s.actors[0].vmid !in s.db && s.box == [] && !s.closer.Sweep?
  {
    hide Reachable;
    SpawnedReachable();
    var a := NewActor("a", "ip");
    OwnStepReachable(a, LaunchSucceeds(0));
    assert [VmmActor.Start][1..] == [];
    var b := Own(a, LaunchSucceeds(0));
    OwnStepReachable(b, CallTimesOut(0));
    OwnStepReachable(Own(b, CallTimesOut(0)), Answer(0));
    s := OneActor(Own(Own(b, CallTimesOut(0)), Answer(0)));
  }

  /** A step of one part of the system and one of another. */
  lemma TwoSteps(s: State, x: Action, y: Action) returns (t: State)
    requires Reachable(s) && Enabled(s, x) && Enabled(Apply(s, x), y)
    ensures Reachable(t) && t == Apply(Apply(s, x), y)
  {
    hide Reachable, Apply, Enabled;
    ReachableStep(s, x);
    ReachableStep(Apply(s, x), y);
    t := Apply(Apply(s, x), y);
  }

  /** The machine has finished, and the manager has handled the notice of it. */
  function Finished(verdicts: seq<Verdict>): Actor {
    STARTED.(verdicts := verdicts, waiter := Reported, vmm := VmmActor.State(VmmActor.Started, VmmActor.Dying),
             hist := STARTED.hist.(notices := 1, early := true))
  }

  lemma FinishedReachable(verdicts: seq<Verdict>)
    requires Reachable(OneActor(STARTED.(verdicts := verdicts)))
    ensures Reachable(OneActor(Finished(verdicts)))
  {
    hide Reachable;
    var a := STARTED.(verdicts := verdicts);
    OwnStepReachable(a, MachineExits(0));
    var s := TwoSteps(OneActor(Own(a, MachineExits(0))), Deliver(0), ManagerReceives);
    assert ([VmmActor.Finished] + [])[1..] == [] && [] + [VmmActor.Finished] == [VmmActor.Finished];
    assert s.actors[0] == Finished(verdicts);
    assert s == OneActor(Finished(verdicts));
  }

  /** Its actor is gone, and now its start call returns. */
  function Forgotten(verdicts: seq<Verdict>): Actor {
    Registered(Finished(verdicts).(vmm := VmmActor.State(VmmActor.Stopped, VmmActor.Dead),
                                   hist := Finished(verdicts).hist.(halts := 1)), false)
  }

  lemma ForgottenReachable(verdicts: seq<Verdict>) returns (s: State)
    requires Reachable(OneActor(Finished(verdicts)))
    ensures Reachable(s)
    ensures s == OneActor(Forgotten(verdicts)).(db := map["a" := Entry("a", 0, "ip", false)], adds := 1)
  {
    hide Reachable;
    s := TwoSteps(OneActor(Finished(verdicts)), DeliverStopping(0), CallReturns(0));
    assert s.actors[0] == Forgotten(verdicts);
  }

  /** The stale-entry window is real: an entry of a machine that is gone, with nothing left to remove it. */
  lemma StaleEntryIsReachable() returns (s: State)
    ensures Reachable(s) && Stale(s, 0) && s.actors[0].vmm.life == VmmActor.Dead
    ensures s.box == [] && s.closer.Idle?
  {
    hide Reachable;
    StartedReachable();
    FinishedReachable([]);
    s := ForgottenReachable([]);
  }

  /**
   Both windows together: a stale entry marked ready, so that requests go to a machine that is gone. The
   probe succeeded before the machine finished, and its verdict comes after the entry was made.
   */
  lemma StaleReadyEntryIsReachable() returns (s: State)
    ensures Reachable(s) && Stale(s, 0) && s.actors[0].vmm.life == VmmActor.Dead
    ensures s.db[s.actors[0].vmid].pid == 0 && s.db[s.actors[0].vmid].ready
    ensures s.box == [] && s.closer.Idle?
  {
    hide Reachable;
    StartedReachable();
    OwnStepReachable(STARTED, ProbeEnds(0, Ready));
    assert Own(STARTED, ProbeEnds(0, Ready)) == STARTED.(verdicts := [Ready]);
    FinishedReachable([Ready]);
    s := ForgottenReachable([Ready]);
    s := TwoSteps(s, Debounce(0), ManagerReceives);
  }

  /** The readiness window is real: a ready debouncer whose `Ready` the registry entry has missed. */
  lemma MissedReadyIsReachable() returns (s: State)
    ensures Reachable(s) && "a" in s.db && s.db["a"].pid == 0 && 0 in s.actors
    ensures Running(s.actors[0]) && Live(s.actors[0])
    ensures !s.db["a"].ready && s.actors[0].debouncer.behavior == Ready && s.box == []
  {
    hide Reachable;
    StartedReachable();
    OwnStepReachable(STARTED, ProbeEnds(0, Ready));
    var s0 := OneActor(Own(STARTED, ProbeEnds(0, Ready)));
    ReachableStep(s0, Debounce(0));
    var s1 := Apply(s0, Debounce(0));
    assert s1.box == [ReadinessNotice("a", 0, Ready)];
    ReachableStep(s1, ManagerReceives);
    var s2 := Apply(s1, ManagerReceives);
    ReachableStep(s2, CallReturns(0));
    s := Apply(s2, CallReturns(0));
  }

  /** The machine runs, is registered and marked ready. */
  const SERVING := STARTED.(call := Tracked, debouncer := Debouncer.State(Ready, 0),
                            hist := STARTED.hist.(forwarded := [Ready], delivered := [Ready]))

  lemma TrackedReachable() returns (s: State)
    ensures Reachable(s)
    ensures s == OneActor(Registered(STARTED, false)).(db := map["a" := Entry("a", 0, "ip", false)], adds := 1)
  {
    hide Reachable;
    StartedReachable();
    ReachableStep(OneActor(STARTED), CallReturns(0));
    s := Apply(OneActor(STARTED), CallReturns(0));
  }

  lemma ProbedReachable() returns (s: State)
    ensures Reachable(s)
    ensures s == OneActor(Registered(STARTED, false).(verdicts := [Ready]))
                 .(db := map["a" := Entry("a", 0, "ip", false)], adds := 1)
  {
    hide Reachable;
    s := TrackedReachable();
    ReachableStep(s, ProbeEnds(0, Ready));
    s := Apply(s, ProbeEnds(0, Ready));
    assert s.actors[0].verdicts == [Ready];
  }

  lemma MarkedReachable() returns (s: State)
    ensures Reachable(s)
    ensures s == OneActor(SERVING).(db := map["a" := Entry("a", 0, "ip", true)], adds := 1)
  {
    hide Reachable;
    s := ProbedReachable();
    s := TwoSteps(s, Debounce(0), ManagerReceives);
    assert s.actors[0] == SERVING;
  }

  /**
   The exit window is real: the machine of a ready entry has exited, and its actor has not handled that
   yet. Nothing else is wrong with the entry, but requests go to a machine that is gone.
   */
  lemma UnhandledExitIsReachable() returns (s: State)
    ensures Reachable(s) && "a" in s.db && s.db["a"].ready && s.db["a"].pid == 0 && 0 in s.actors
    ensures ExitUnhandled(s.actors[0]) && Running(s.actors[0]) && !Live(s.actors[0]) && !s.actors[0].hist.early
    ensures s.box == [] && s.closer.Idle?
  {
    hide Reachable;
    s := MarkedReachable();
    ReachableStep(s, MachineExits(0));
    s := Apply(s, MachineExits(0));
  }

  // ---------- `Close` comes to an end ----------

  /** How many steps of its own `Close` has yet to take: three for each entry, and one to end. */
  function StepsLeft(c: Closer): int {
    if !c.Sweep? then 0
    else
      3 * (|c.entries| - c.next) + 1
      - match c.phase
        case Sending => 0
        case Awaiting(_) => 1
        case Deleting => 2
  }

  /** The number of steps of `Close` in a run. */
  function CloseSteps(run: seq<Action>): nat {
    if run == [] then 0 else (if IsClose(run[0]) then 1 else 0) + CloseSteps(run[1..])
  }

  lemma OneStepLess(s: State, x: Action)
    requires CloserInv(s) && Enabled(s, x) && !x.CloseBegins?
    ensures StepsLeft(Apply(s, x).closer) == StepsLeft(s.closer) - if IsClose(x) then 1 else 0
  {
    if IsClose(x) {
    } else if x.Deliver? || x.DeliverStopping? {
      hide VmmActor.Handle;
    } else {
      hide Apply, Enabled;
      CloserUntouched(s, x);
    }
  }

  lemma {:induction false} StepsAreCounted(s: State, run: seq<Action>)
    requires Inv(s) && Legal(s, run) && forall i :: 0 <= i < |run| ==> !run[i].CloseBegins?
    ensures StepsLeft(After(s, run).closer) + CloseSteps(run) == StepsLeft(s.closer)
    decreases |run|
  {
    if run == [] {
    } else {
      assert CloserInv(s);
      hide Inv, Apply, Enabled, StepsLeft;
      OneStepLess(s, run[0]);
      StepKeepsInv(s, run[0]);
      StepsAreCounted(Apply(s, run[0]), run[1..]);
    }
  }

  lemma SnapshotStays(s: State, x: Action)
    requires Enabled(s, x) && !x.CloseBegins? && !s.closer.Idle?
    ensures !Apply(s, x).closer.Idle? && Apply(s, x).closer.entries == s.closer.entries
  {
    if IsClose(x) {
    } else if x.Deliver? || x.DeliverStopping? {
      hide VmmActor.Handle;
    } else {
      hide Apply, Enabled;
      CloserUntouched(s, x);
    }
  }

  lemma {:induction false} SweepOrClosed(s: State, run: seq<Action>)
    requires Legal(s, run) && !s.closer.Idle? && forall i :: 0 <= i < |run| ==> !run[i].CloseBegins?
    ensures !After(s, run).closer.Idle? && After(s, run).closer.entries == s.closer.entries
    decreases |run|
  {
    if run == [] {
    } else {
      hide Apply, Enabled;
      SnapshotStays(s, run[0]);
      SweepOrClosed(Apply(s, run[0]), run[1..]);
    }
  }

  lemma OneIsLeftInASweep(s: State)
    requires CloserInv(s) && s.closer.Sweep?
    ensures 0 < StepsLeft(s.closer) <= 3 * |s.closer.entries| + 1
  {
  }

  /**
   `Close` ends: in every continuation, whatever the rest of the system does between its steps, it ends
   with the last of exactly `StepsLeft` steps of its own, which are at most three for each entry of its
   snapshot and one more. Until then it always has a next step.
   */
  lemma CloseEndsInTime(s: State, run: seq<Action>)
    requires Reachable(s) && s.closer.Sweep? && Legal(s, run)
    requires forall i :: 0 <= i < |run| ==> !run[i].CloseBegins?
    ensures CloseSteps(run) <= StepsLeft(s.closer) <= 3 * |s.closer.entries| + 1
    ensures After(s, run).closer == Closed(s.closer.entries) <==> CloseSteps(run) == StepsLeft(s.closer)
  {
    var t := After(s, run);
    assert Inv(s) && Inv(t) by {
      hide Inv;
      ReachableInv(s);
      RunKeepsInv(s, run);
    }
    assert CloserInv(s) && CloserInv(t);
    hide Reachable, Legal, After, CloseSteps, Inv, CloserInv;
    StepsAreCounted(s, run);
    SweepOrClosed(s, run);
    OneIsLeftInASweep(s);
    assert t.closer.Closed? ==> StepsLeft(t.closer) == 0;
    if t.closer.Sweep? {
      OneIsLeftInASweep(t);
    }
  }
}
