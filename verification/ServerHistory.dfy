/** What the steps of a run of the server process say about the state it comes to. */
module ServerHistory {
  import opened ServerRun

  lemma {:induction false} LastStep(s: State, run: seq<Action>)
    requires Legal(s, run) && run != []
    ensures var before := run[..|run| - 1];
            && Legal(s, before) && Enabled(After(s, before), run[|run| - 1])
            && After(s, run) == Apply(After(s, before), run[|run| - 1])
    decreases |run|
  {
    hide Apply, Enabled;
    if |run| == 1 {
      assert run[1..] == [] && run[..0] == [];
    } else {
      LastStep(Apply(s, run[0]), run[1..]);
      assert run[..|run| - 1][1..] == run[1..][..|run| - 2];
    }
  }

  lemma RunIsReachable(probes: nat, servers: nat, run: seq<Action>)
    requires Legal(Initial(probes, servers), run)
    ensures Reachable(After(Initial(probes, servers), run))
  {
  }

  function One(b: bool): nat {
    if b then 1 else 0
  }

  // ---------- who asks for a shutdown ----------

  /** The direct calls of `Shutdown` in a run. */
  function Calls(run: seq<Action>): nat {
    if run == [] then 0 else Calls(run[..|run| - 1]) + One(run[|run| - 1].CallShutdown?)
  }

  /** Every direct call, the first interrupt and the deferred call at the end are one caller each. */
  ghost predicate CallersTraced(run: seq<Action>, s: State) {
    && (s.interrupted <==> Interrupt in run)
    && |s.callers| == Calls(run) + One(Interrupt in run) + One(s.main.Exiting?)
  }

  lemma HandlerKeepsCallers(s: State)
    ensures var s' := HandlerStep(s);
            s'.callers == s.callers && s'.interrupted == s.interrupted && s'.main == s.main
  {
  }

  lemma StepKeepsCallersTraced(run: seq<Action>, s: State, x: Action)
    requires CallersTraced(run, s) && Enabled(s, x)
    ensures CallersTraced(run + [x], Apply(s, x))
  {
    assert (run + [x])[..|run|] == run;
    assert forall y :: y in run + [x] <==> y in run || y == x;
    hide HandlerStep;
    if x.HandlerSteps? {
      HandlerKeepsCallers(s);
    }
  }

  lemma {:induction false} CallersAreTraced(probes: nat, servers: nat, run: seq<Action>)
    requires Legal(Initial(probes, servers), run)
    ensures CallersTraced(run, After(Initial(probes, servers), run))
  {
    if run == [] {
    } else {
      var before := run[..|run| - 1];
      hide Apply, Enabled, CallersTraced, Initial;
      LastStep(Initial(probes, servers), run);
      CallersAreTraced(probes, servers, before);
      StepKeepsCallersTraced(before, After(Initial(probes, servers), before), run[|run| - 1]);
      assert run == before + [run[|run| - 1]];
    }
  }

  lemma {:induction false} CallsAreCounted(run: seq<Action>)
    requires CallShutdown in run
    ensures Calls(run) > 0
  {
    if run[|run| - 1].CallShutdown? {
    } else {
      assert run == run[..|run| - 1] + [run[|run| - 1]];
      CallsAreCounted(run[..|run| - 1]);
    }
  }

  /**
   A call of `Shutdown` or an interrupt is never lost: after it, as long as the channel is open, some caller
   can close it at once, or can win the compare-and-swap and close it next.
   */
  lemma ShutdownIsNotLost(probes: nat, servers: nat, run: seq<Action>)
    requires Legal(Initial(probes, servers), run) && (Interrupt in run || CallShutdown in run)
    ensures var s := After(Initial(probes, servers), run);
            s.closes == 0 ==> exists c: nat :: ClosesNext(s, c)
  {
    var s := After(Initial(probes, servers), run);
    RunIsReachable(probes, servers, run);
    CallersAreTraced(probes, servers, run);
    if CallShutdown in run {
      CallsAreCounted(run);
    }
    hide After, Legal, Reachable;
    if s.closes == 0 {
      SomeCallerCloses(s);
    }
  }

  // ---------- what the servers reported ----------

  /** One server: its shutdown ended as its stopper says, its report was taken, its serving goroutine ended. */
  ghost predicate ServerTraced(run: seq<Action>, s: State, i: nat)
    requires i < |s.servers|
  {
    var p := s.servers[i].stopper;
    && (ShutdownEnds(i, true) in run <==> p == Reporting(true) || p == Done(true))
    && (ShutdownEnds(i, false) in run <==> p == Reporting(false) || p == Done(false))
    && (Receive(i) in run <==> p.Done?)
    && (p.Done? ==> Report(i, p.ok) in s.received)
    && (ServeReturns(i) in run <==> !s.servers[i].serving)
  }

  ghost predicate ServersTraced(run: seq<Action>, s: State) {
    forall i :: 0 <= i < |s.servers| ==> ServerTraced(run, s, i)
  }

  /** The steps that concern one server. */
  predicate Concerns(x: Action, i: nat) {
    x == ShutdownEnds(i, true) || x == ShutdownEnds(i, false) || x == Receive(i) || x == ServeReturns(i)
  }

  lemma OtherServersStay(s: State, x: Action, i: nat)
    requires Enabled(s, x) && i < |s.servers| && !Concerns(x, i) && !x.HandlerSteps?
    ensures |Apply(s, x).servers| == |s.servers| && Apply(s, x).servers[i] == s.servers[i]
  {
  }

  lemma SpawningStays(s: State, i: nat)
    requires SpawnInv(s) && i < |s.servers|
    ensures |HandlerStep(s).servers| == |s.servers| && HandlerStep(s).servers[i].serving == s.servers[i].serving
    ensures HandlerStep(s).servers[i].stopper == s.servers[i].stopper
            || (s.servers[i].stopper.NotSpawned? && HandlerStep(s).servers[i].stopper.Stopping?)
  {
  }

  lemma ReceivedGrows(s: State, x: Action, r: Report)
    requires Enabled(s, x) && r in s.received
    ensures r in Apply(s, x).received
  {
    if x.HandlerSteps? {
      HandlerKeepsReports(s);
      hide HandlerStep;
    }
  }

  lemma TracedTransfer(run: seq<Action>, s: State, x: Action, s': State, i: nat)
    requires i < |s.servers| == |s'.servers| && ServerTraced(run, s, i) && !Concerns(x, i)
    requires s'.servers[i].serving == s.servers[i].serving
    requires s'.servers[i].stopper == s.servers[i].stopper
             || (s.servers[i].stopper.NotSpawned? && s'.servers[i].stopper.Stopping?)
    requires forall r :: r in s.received ==> r in s'.received
    ensures ServerTraced(run + [x], s', i)
  {
    assert forall y :: y in run + [x] <==> y in run || y == x;
  }

  lemma OwnServerTraced(run: seq<Action>, s: State, x: Action, i: nat)
    requires i < |s.servers| && ServerTraced(run, s, i) && Enabled(s, x) && Concerns(x, i)
    ensures |Apply(s, x).servers| == |s.servers| && ServerTraced(run + [x], Apply(s, x), i)
  {
    assert forall y :: y in run + [x] <==> y in run || y == x;
  }

  lemma SameNumber(s: State, x: Action)
    requires Enabled(s, x)
    ensures |Apply(s, x).servers| == |s.servers|
  {
    if x.HandlerSteps? {
      HandlerKeepsReports(s);
      hide HandlerStep;
    }
  }

  lemma ServerStays(s: State, x: Action, i: nat)
    requires SpawnInv(s) && Enabled(s, x) && i < |s.servers| && !Concerns(x, i)
    ensures |Apply(s, x).servers| == |s.servers| && Apply(s, x).servers[i].serving == s.servers[i].serving
    ensures Apply(s, x).servers[i].stopper == s.servers[i].stopper
            || (s.servers[i].stopper.NotSpawned? && Apply(s, x).servers[i].stopper.Stopping?)
  {
    hide SpawnInv, HandlerStep, Concerns;
    if x.HandlerSteps? {
      SpawningStays(s, i);
    } else {
      hide Apply, Enabled;
      OtherServersStay(s, x, i);
    }
  }

  lemma StepKeepsServersTraced(run: seq<Action>, s: State, x: Action)
    requires ServersTraced(run, s) && SpawnInv(s) && Enabled(s, x)
    ensures ServersTraced(run + [x], Apply(s, x))
  {
    var s' := Apply(s, x);
    hide SpawnInv, ServerTraced, Apply, Enabled, Concerns;
    forall r | r in s.received
      ensures r in s'.received
    {
      ReceivedGrows(s, x, r);
    }
    SameNumber(s, x);
    forall i | 0 <= i < |s'.servers|
      ensures ServerTraced(run + [x], s', i)
    {
      if Concerns(x, i) {
        OwnServerTraced(run, s, x, i);
      } else {
        ServerStays(s, x, i);
        TracedTransfer(run, s, x, s', i);
      }
    }
  }

  lemma InitiallyTraced(probes: nat, servers: nat)
    ensures ServersTraced([], Initial(probes, servers))
  {
  }

  lemma RunInv(probes: nat, servers: nat, run: seq<Action>)
    requires Legal(Initial(probes, servers), run)
    ensures var s := After(Initial(probes, servers), run); Inv(s) && SpawnInv(s)
  {
    RunIsReachable(probes, servers, run);
    var s := After(Initial(probes, servers), run);
    hide Legal, After, Reachable;
    ReachableInv(s);
  }

  lemma {:induction false} ServersAreTraced(probes: nat, servers: nat, run: seq<Action>)
    requires Legal(Initial(probes, servers), run)
    ensures ServersTraced(run, After(Initial(probes, servers), run))
  {
    hide Apply, Enabled, ServersTraced, Initial;
    if run == [] {
      InitiallyTraced(probes, servers);
    } else {
      var before := run[..|run| - 1];
      LastStep(Initial(probes, servers), run);
      ServersAreTraced(probes, servers, before);
      RunInv(probes, servers, before);
      StepKeepsServersTraced(before, After(Initial(probes, servers), before), run[|run| - 1]);
      assert run == before + [run[|run| - 1]];
    }
  }

  lemma LastReportFailed(s: State)
    requires Inv(s) && s.handler.Finished? && !s.cancelled
    ensures s.received != []
    ensures var r := s.received[|s.received| - 1]; r.server < |s.servers| && s.servers[r.server].stopper == Done(false)
  {
  }

  /** The last report taken decides, whichever server it came from. */
  lemma OutcomeOfRun(probes: nat, servers: nat, run: seq<Action>)
    requires Legal(Initial(probes, servers), run) && After(Initial(probes, servers), run).handler.Finished?
    ensures var s := After(Initial(probes, servers), run);
            && (s.cancelled ==> forall i :: 0 <= i < |s.servers| ==> ShutdownEnds(i, true) in run && Receive(i) in run)
            && (!s.cancelled ==> exists i :: 0 <= i < |s.servers| && ShutdownEnds(i, false) in run && Receive(i) in run)
  {
    var s := After(Initial(probes, servers), run);
    RunIsReachable(probes, servers, run);
    ServersAreTraced(probes, servers, run);
    RunInv(probes, servers, run);
    hide Legal, After, Reachable;
    if s.cancelled {
      forall i | 0 <= i < |s.servers|
        ensures ShutdownEnds(i, true) in run && Receive(i) in run
      {
        HookAfterAllReports(s, i);
        assert ServerTraced(run, s, i);
      }
    } else {
      LastReportFailed(s);
      var i := s.received[|s.received| - 1].server;
      assert ServerTraced(run, s, i);
    }
  }

  // ---------- Serve never hangs ----------

  /** The steps that bring `Serve` to its end once a shutdown was asked for. */
  predicate IsServeStep(x: Action) {
    x.MainSteps? || x.HandlerSteps? || x.ShutdownEnds? || x.Receive? || x.ServeReturns?
  }

  lemma {:induction false} SomeServes(servers: seq<Server>) returns (i: nat)
    requires StillServing(servers) > 0
    ensures i < |servers| && servers[i].serving
  {
    var n := |servers| - 1;
    if servers[n].serving {
      i := n;
    } else {
      i := SomeServes(servers[..n]);
    }
  }

  /** The servers whose reports were taken are at most as many as the reports. */
  lemma {:induction false} TakenServers(received: seq<Report>) returns (taken: set<nat>)
    ensures |taken| <= |received| && forall j :: 0 <= j < |received| ==> received[j].server in taken
  {
    if received == [] {
      taken := {};
    } else {
      var before := TakenServers(received[..|received| - 1]);
      taken := before + {received[|received| - 1].server};
    }
  }

  lemma SubsetIsSmaller(a: set<nat>, b: set<nat>)
    requires a <= b
    ensures |a| <= |b|
  {
    assert b == a + (b - a);
  }

  /** Fewer reports than servers leave a server whose report was not taken. */
  lemma SomeIsMissing(received: seq<Report>, n: nat) returns (i: nat)
    requires |received| < n
    ensures i < n && forall j :: 0 <= j < |received| ==> received[j].server != i
  {
    var taken := TakenServers(received);
    var range := SizeOfRange(n);
    if range <= taken {
      SubsetIsSmaller(range, taken);
    }
    i :| i in range && i !in taken;
  }

  lemma ReceiverGoesOn(s: State) returns (x: Action)
    requires Inv(s) && s.main.Serving? && s.handler.Receiving? && s.success && s.handler.done < |s.servers|
    requires forall i :: 0 <= i < |s.servers| && s.servers[i].stopper.Done? ==> Report(i, s.servers[i].stopper.ok) in s.received
    ensures IsServeStep(x) && Enabled(s, x)
  {
    var i := SomeIsMissing(s.received, |s.servers|);
    assert !s.servers[i].stopper.NotSpawned? by { assert SpawnInv(s); }
    hide Inv;
    x := if s.servers[i].stopper.Stopping? then ShutdownEnds(i, true) else Receive(i);
  }

  lemma ReportsAreReceived(probes: nat, servers: nat, run: seq<Action>)
    requires Legal(Initial(probes, servers), run)
    ensures var s := After(Initial(probes, servers), run);
            forall i :: 0 <= i < |s.servers| && s.servers[i].stopper.Done? ==> Report(i, s.servers[i].stopper.ok) in s.received
  {
    var s := After(Initial(probes, servers), run);
    ServersAreTraced(probes, servers, run);
    hide Legal, After;
    forall i | 0 <= i < |s.servers| && s.servers[i].stopper.Done?
      ensures Report(i, s.servers[i].stopper.ok) in s.received
    {
      assert ServerTraced(run, s, i);
    }
  }

  /** When the handler is done and some goroutine still serves, that one can end; otherwise `Serve` returns. */
  lemma LastGoroutines(s: State) returns (x: Action)
    requires Inv(s) && s.main.Serving? && s.handler.Finished?
    ensures IsServeStep(x) && Enabled(s, x)
  {
    assert SpawnInv(s) && WaitInv(s);
    hide Inv;
    if StillServing(s.servers) > 0 {
      var i := SomeServes(s.servers);
      x := ServeReturns(i);
    } else {
      x := MainSteps;
    }
  }

  /**
   `Serve` never hangs: once the shutdown channel is closed, there is always a next step that brings it
   closer to its end, without another caller or interrupt.
   */
  lemma ServeNeverHangs(probes: nat, servers: nat, run: seq<Action>)
    requires Legal(Initial(probes, servers), run)
    ensures var s := After(Initial(probes, servers), run);
            s.main.Serving? && s.closes > 0 ==> exists x :: IsServeStep(x) && Enabled(s, x)
  {
    var s := After(Initial(probes, servers), run);
    RunInv(probes, servers, run);
    ReportsAreReceived(probes, servers, run);
    hide Legal, After, Inv, SpawnInv;
    if s.main.Serving? && s.closes > 0 {
      var x;
      if s.handler.Finished? {
        x := LastGoroutines(s);
      } else if s.handler.Receiving? && s.success && s.handler.done < |s.servers| {
        x := ReceiverGoesOn(s);
      } else {
        x := HandlerSteps;
      }
      assert IsServeStep(x) && Enabled(s, x);
    }
  }

  /** As long as one server has a report to make and none has failed, the handler waits for it. */
  lemma ReporterIsAwaited(s: State, i: nat)
    requires Reachable(s) && s.handler.Receiving? && s.success && i < |s.servers| && s.servers[i].stopper.Reporting?
    ensures s.main.Serving? && s.handler.done < |s.servers|
  {
    ReachableInv(s);
    assert ReportInv(s) && FlagsInv(s) && WaitInv(s);
    if s.handler.done == |s.servers| {
      AllReported(s, i);
    }
    if !s.main.Serving? {
      ServeReturnsLast(s);
    }
  }

  /**
   Nothing is held up: while serving an interrupt can come, a call of `Shutdown` at any time; a caller goes
   on; a shutdown of a server may end either way; a report can be taken while the handler waits for one.
   */
  lemma NothingIsHeldUp(s: State, c: nat, i: nat, ok: bool)
    requires Reachable(s)
    ensures Enabled(s, CallShutdown)
    ensures s.main.Serving? ==> Enabled(s, Interrupt)
    ensures Booting(s.main) || s.main.RunningDefers? ==> Enabled(s, MainSteps)
    ensures c < |s.callers| && s.callers[c].Entered? ==> Enabled(s, CallerSwaps(c))
    ensures c < |s.callers| && s.callers[c].Won? ==> Enabled(s, CallerCloses(c))
    ensures i < |s.servers| && s.servers[i].stopper.Stopping? ==> Enabled(s, ShutdownEnds(i, ok))
    ensures i < |s.servers| && s.servers[i].stopper.Reporting? && s.handler.Receiving? && s.success ==> Enabled(s, Receive(i))
    ensures i < |s.servers| && s.servers[i].serving && !s.servers[i].stopper.NotSpawned? ==> Enabled(s, ServeReturns(i))
  {
    if i < |s.servers| && s.servers[i].stopper.Reporting? && s.handler.Receiving? && s.success {
      ReporterIsAwaited(s, i);
    }
  }
}
