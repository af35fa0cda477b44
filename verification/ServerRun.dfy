/**
 One run of the server process: start-up marks the probes, serving ends with a graceful shutdown that
 any number of callers may ask for, one goroutine per HTTP server reports its outcome, and the
 deferred calls follow. Probe flags are set one store at a time.
 */
module ServerRun {
  import opened Prober

  /** One call of `Shutdown`: entered, has won the compare-and-swap, or returned. */
  datatype Caller = Entered | Won | Returned

  /** The goroutine that shuts one HTTP server down and reports the outcome on an unbuffered channel. */
  datatype Stopper = NotSpawned | Stopping | Reporting(ok: bool) | Done(ok: bool)

  /** One HTTP server: whether its serving goroutine still runs, and its shutdown goroutine. */
  datatype Server = Server(serving: bool, stopper: Stopper)

  datatype Main = SettingHealthy(next: nat) | SettingReady(next: nat) | Serving | RunningDefers | Exiting

  /** The goroutine that waits for the shutdown channel. */
  datatype Handler =
    | AwaitingShutdown
    | ClearingReady(next: nat)
    | Spawning(next: nat)
    | Receiving(done: nat)
    | ClearingHealthy(next: nat)
    | Finished

  datatype Report = Report(server: nat, ok: bool)

  datatype State = State(
    main: Main,
    handler: Handler,
    probes: seq<Flags>,
    servers: seq<Server>,
    shuttingDown: int,
    closes: nat,               // how often the shutdown channel was closed
    callers: seq<Caller>,
    interrupted: bool,
    wg: int,                   // counter of the wait group
    received: seq<Report>,     // reports taken off the channel, in order
    success: bool,
    cancelled: bool)           // the server context, cancelled by the ServerShutdown hook

  /** `probes` and `servers` may have any length; serving `n` servers adds `n + 1` to the wait group. */
  function Initial(probes: nat, servers: nat): State {
    State(SettingHealthy(0), AwaitingShutdown, seq(probes, _ => DOWN), seq(servers, _ => Server(true, NotSpawned)),
          0, 0, [], false, servers + 1, [], true, false)
  }

  datatype Action =
    | MainSteps
    | HandlerSteps
    | CallShutdown
    | Interrupt
    | CallerSwaps(c: nat)
    | CallerCloses(c: nat)
    | ShutdownEnds(i: nat, ok: bool)
    | Receive(i: nat)
    | ServeReturns(i: nat)

  predicate Enabled(s: State, x: Action) {
    match x
    case MainSteps => (s.main.Serving? ==> s.wg == 0) && !s.main.Exiting?
    case HandlerSteps =>
      && s.main.Serving?
      && match s.handler {
         case AwaitingShutdown => s.closes > 0
         case Receiving(i) => i < |s.servers| ==> !s.success
         case Finished => false
         case _ => true
      }
    case CallShutdown => true
    case Interrupt => s.main.Serving?
    case CallerSwaps(c) => c < |s.callers| && s.callers[c].Entered?
    case CallerCloses(c) => c < |s.callers| && s.callers[c].Won?
    case ShutdownEnds(i, _) => i < |s.servers| && s.servers[i].stopper.Stopping?
    case Receive(i) =>
      && s.main.Serving? && s.handler.Receiving? && s.handler.done < |s.servers| && s.success
      && i < |s.servers| && s.servers[i].stopper.Reporting?
    case ServeReturns(i) => i < |s.servers| && s.servers[i].serving && !s.servers[i].stopper.NotSpawned?
  }

  function Store(s: State, i: nat, op: Op): State
    requires i < |s.probes|
  {
    s.(probes := s.probes[i := Set(s.probes[i], op)])
  }

  function PutStopper(s: State, i: nat, p: Stopper): State
    requires i < |s.servers|
  {
    s.(servers := s.servers[i := s.servers[i].(stopper := p)])
  }

  /** `runServer`: healthy, ready, serve until the wait group is empty, deferred calls, deferred shutdown. */
  function MainStep(s: State): State {
    match s.main
    case SettingHealthy(k) =>
      if k < |s.probes| then Store(s, k, SetHealthy).(main := SettingHealthy(k + 1)) else s.(main := SettingReady(0))
    case SettingReady(k) =>
      if k < |s.probes| then Store(s, k, SetReady).(main := SettingReady(k + 1)) else s.(main := Serving)
    case Serving => s.(main := RunningDefers)
    case RunningDefers => s.(main := Exiting, callers := s.callers + [Entered])
    case Exiting => s
  }

  /** `handleShutdown`, once the channel is closed. */
  function HandlerStep(s: State): State {
    match s.handler
    case AwaitingShutdown => s.(handler := ClearingReady(0))
    case ClearingReady(k) =>
      if k < |s.probes| then Store(s, k, SetNotReady).(handler := ClearingReady(k + 1)) else s.(handler := Spawning(0))
    case Spawning(k) =>
      if k < |s.servers| then PutStopper(s, k, Stopping).(handler := Spawning(k + 1)) else s.(handler := Receiving(0))
    case Receiving(k) =>
      // after a failed report the remaining iterations do not touch the channel
      if k < |s.servers| then s.(handler := Receiving(k + 1))
      else if s.success then s.(handler := ClearingHealthy(0))
      else s.(handler := Finished, wg := s.wg - 1)
    case ClearingHealthy(k) =>
      if k < |s.probes| then Store(s, k, SetNotHealthy).(handler := ClearingHealthy(k + 1))
      else s.(handler := Finished, wg := s.wg - 1, cancelled := true)
    case Finished => s
  }

  function TakeReport(s: State, i: nat): State
    requires s.handler.Receiving? && i < |s.servers| && s.servers[i].stopper.Reporting?
  {
    var ok := s.servers[i].stopper.ok;
    PutStopper(s, i, Done(ok)).(received := s.received + [Report(i, ok)], success := ok,
                                handler := Receiving(s.handler.done + 1))
  }

  function Apply(s: State, x: Action): State
    requires Enabled(s, x)
  {
    match x
    case MainSteps => MainStep(s)
    case HandlerSteps => HandlerStep(s)
    case CallShutdown => s.(callers := s.callers + [Entered])
    case Interrupt => if s.interrupted then s else s.(interrupted := true, callers := s.callers + [Entered])
    case CallerSwaps(c) =>
      if s.shuttingDown == 0 then s.(shuttingDown := 1, callers := s.callers[c := Won])
      else s.(callers := s.callers[c := Returned])
    case CallerCloses(c) => s.(closes := s.closes + 1, callers := s.callers[c := Returned])
    case ShutdownEnds(i, ok) => PutStopper(s, i, Reporting(ok))
    case Receive(i) => TakeReport(s, i)
    case ServeReturns(i) => s.(servers := s.servers[i := s.servers[i].(serving := false)], wg := s.wg - 1)
  }

  /**
   The receive loop of the handler over the reports in the order they arrive. The loop ends on the
   first failure as far as the channel is concerned: later reports are left on it.
   */
  method CollectReports(reports: seq<bool>) returns (success: bool, consumed: nat)
    ensures success <==> forall i :: 0 <= i < |reports| ==> reports[i]
    ensures success ==> consumed == |reports|
    ensures !success ==>
              && 0 < consumed <= |reports| && !reports[consumed - 1]
              && forall i :: 0 <= i < consumed - 1 ==> reports[i]
  {
    success, consumed := true, 0;
    for i := 0 to |reports|
      invariant success ==> consumed == i && forall j :: 0 <= j < i ==> reports[j]
      invariant !success ==>
                  && 0 < consumed <= i && !reports[consumed - 1]
                  && forall j :: 0 <= j < consumed - 1 ==> reports[j]
    {
      if success {
        success := reports[consumed];
        consumed := consumed + 1;
      }
    }
  }

  predicate Legal(s: State, run: seq<Action>)
    decreases |run|
  {
    run == [] || (Enabled(s, run[0]) && Legal(Apply(s, run[0]), run[1..]))
  }

  function After(s: State, run: seq<Action>): State
    requires Legal(s, run)
    decreases |run|
  {
    if run == [] then s else After(Apply(s, run[0]), run[1..])
  }

  // ---------- invariants ----------

  /** The compare-and-swap lets one caller through, and that one closes the channel. */
  ghost predicate ChannelInv(s: State) {
    && 0 <= s.shuttingDown <= 1 && s.closes <= s.shuttingDown
    && (forall c :: 0 <= c < |s.callers| && s.callers[c].Won? ==> s.shuttingDown == 1 && s.closes == 0)
    && (forall c, d :: 0 <= c < |s.callers| && 0 <= d < |s.callers| && s.callers[c].Won? && s.callers[d].Won? ==> c == d)
    && (!s.handler.AwaitingShutdown? ==> s.closes == 1)
    && (s.shuttingDown == 0 ==> forall c :: 0 <= c < |s.callers| ==> s.callers[c].Entered?)
  }

  predicate Winner(s: State, c: nat) {
    c < |s.callers| && s.callers[c].Won?
  }

  /** The caller that won the compare-and-swap is there until it has closed the channel. */
  ghost predicate WinnerInv(s: State) {
    s.shuttingDown == 1 && s.closes == 0 ==> exists c :: Winner(s, c)
  }

  /** What every probe shows at each point of start-up and shutdown. */
  function Expected(main: Main, handler: Handler, success: bool, i: nat): Flags {
    match main
    case SettingHealthy(k) => Flags(false, i < k)
    case SettingReady(k) => Flags(i < k, true)
    case _ =>
      match handler
      case AwaitingShutdown => Flags(true, true)
      case ClearingReady(k) => Flags(i >= k, true)
      case Spawning(_) => Flags(false, true)
      case Receiving(_) => Flags(false, true)
      case ClearingHealthy(k) => Flags(false, i >= k)
      case Finished => Flags(false, !success)
  }

  predicate Booting(m: Main) {
    m.SettingHealthy? || m.SettingReady?
  }

  ghost predicate FlagsInv(s: State) {
    && (Booting(s.main) ==> s.handler.AwaitingShutdown?)
    && forall i :: 0 <= i < |s.probes| ==> s.probes[i] == Expected(s.main, s.handler, s.success, i)
  }

  /** A shutdown goroutine runs once the spawn loop has come to it. */
  ghost predicate SpawnInv(s: State) {
    forall i :: 0 <= i < |s.servers| ==>
      (s.servers[i].stopper.NotSpawned? <==>
         match s.handler
         case AwaitingShutdown => true
         case ClearingReady(_) => true
         case Spawning(k) => i >= k
         case _ => false)
  }

  /** The reports taken so far: each server at most once, and all successes but for a last failure. */
  ghost predicate TakenInv(servers: seq<Server>, received: seq<Report>, success: bool) {
    && (forall j :: 0 <= j < |received| ==>
          received[j].server < |servers| && servers[received[j].server].stopper == Done(received[j].ok))
    && (forall j, k :: 0 <= j < k < |received| ==> received[j].server != received[k].server)
    && (forall j :: 0 <= j < |received| - 1 ==> received[j].ok)
    && success == (received == [] || received[|received| - 1].ok)
  }

  /** How many reports the receive loop has taken at each point of the shutdown. */
  predicate LoopInv(s: State) {
    match s.handler
    case Receiving(k) => |s.received| <= k <= |s.servers| && (s.success ==> |s.received| == k)
    case ClearingHealthy(_) => s.success && |s.received| == |s.servers|
    case Finished => s.success ==> |s.received| == |s.servers|
    case _ => s.received == []
  }

  /** The receive loop: a last failure ends the receiving. */
  ghost predicate ReportInv(s: State) {
    TakenInv(s.servers, s.received, s.success) && LoopInv(s)
  }

  /** The serving goroutines that have not ended. */
  function StillServing(servers: seq<Server>): nat {
    if servers == [] then 0
    else StillServing(servers[..|servers| - 1]) + if servers[|servers| - 1].serving then 1 else 0
  }

  ghost predicate WaitInv(s: State) {
    && s.wg == StillServing(s.servers) + (if s.handler.Finished? then 0 else 1)
    && (s.main.RunningDefers? || s.main.Exiting? ==> s.wg == 0)
    && (s.cancelled <==> s.handler.Finished? && s.success)
  }

  ghost predicate Inv(s: State) {
    ChannelInv(s) && WinnerInv(s) && FlagsInv(s) && SpawnInv(s) && ReportInv(s) && WaitInv(s)
  }

  lemma {:induction false} ServingUpdate(servers: seq<Server>, i: nat, v: Server)
    requires i < |servers|
    ensures StillServing(servers[i := v])
            == StillServing(servers) - (if servers[i].serving then 1 else 0) + (if v.serving then 1 else 0)
  {
    var n := |servers| - 1;
    if i == n {
      assert servers[i := v][..n] == servers[..n];
    } else {
      ServingUpdate(servers[..n], i, v);
      assert servers[i := v][..n] == servers[..n][i := v];
    }
  }

  lemma {:induction false} NoneServing(servers: seq<Server>, i: nat)
    requires StillServing(servers) == 0 && i < |servers|
    ensures !servers[i].serving
  {
    if i < |servers| - 1 {
      NoneServing(servers[..|servers| - 1], i);
    }
  }

  lemma {:induction false} AllServing(servers: seq<Server>)
    requires forall i :: 0 <= i < |servers| ==> servers[i].serving
    ensures StillServing(servers) == |servers|
  {
    if servers == [] {
    } else {
      AllServing(servers[..|servers| - 1]);
    }
  }

  lemma InitialInv(probes: nat, servers: nat)
    ensures Inv(Initial(probes, servers))
  {
    AllServing(Initial(probes, servers).servers);
  }

  /** The callers are the same, or one more has just entered. */
  ghost predicate SameCallers(s: State, s': State) {
    && s'.shuttingDown == s.shuttingDown && s'.closes == s.closes
    && (s'.callers == s.callers || s'.callers == s.callers + [Entered])
    && (s'.handler.AwaitingShutdown? || !s.handler.AwaitingShutdown? || s.closes > 0)
  }

  lemma OthersKeepCallers(s: State, x: Action)
    requires Enabled(s, x) && !x.CallerSwaps? && !x.CallerCloses?
    ensures SameCallers(s, Apply(s, x))
  {
  }

  lemma ChannelTransfer(s: State, s': State)
    requires ChannelInv(s) && SameCallers(s, s')
    ensures ChannelInv(s')
  {
  }

  lemma ChannelStep(s: State, x: Action)
    requires ChannelInv(s) && Enabled(s, x)
    ensures ChannelInv(Apply(s, x))
  {
    if !x.CallerSwaps? && !x.CallerCloses? {
      hide Apply, Enabled, SameCallers, ChannelInv;
      OthersKeepCallers(s, x);
      ChannelTransfer(s, Apply(s, x));
    }
  }

  lemma WinnerTransfer(s: State, s': State)
    requires WinnerInv(s) && SameCallers(s, s')
    ensures WinnerInv(s')
  {
    if s.shuttingDown == 1 && s.closes == 0 {
      var c :| Winner(s, c);
      assert Winner(s', c);
    }
  }

  lemma WinnerSwaps(s: State, d: nat)
    requires WinnerInv(s) && Enabled(s, CallerSwaps(d))
    ensures WinnerInv(Apply(s, CallerSwaps(d)))
  {
    var s' := Apply(s, CallerSwaps(d));
    if s.shuttingDown == 0 {
      assert Winner(s', d);
    } else if s.shuttingDown == 1 && s.closes == 0 {
      var c :| Winner(s, c);
      assert Winner(s', c);
    }
  }

  lemma WinnerStep(s: State, x: Action)
    requires WinnerInv(s) && Enabled(s, x)
    ensures WinnerInv(Apply(s, x))
  {
    match x {
      case CallerSwaps(d) => WinnerSwaps(s, d);
      case CallerCloses(_) =>
      case _ =>
        hide Apply, Enabled, SameCallers, WinnerInv;
        OthersKeepCallers(s, x);
        WinnerTransfer(s, Apply(s, x));
    }
  }

  lemma FlagsMainStep(s: State)
    requires FlagsInv(s) && WaitInv(s) && Enabled(s, MainSteps)
    ensures FlagsInv(MainStep(s))
  {
    if s.main.Serving? {
      assert s.handler.Finished? || s.wg > 0;
    }
  }

  /** A store by the hook: the flag of the next probe. */
  lemma FlagsStore(s: State)
    requires FlagsInv(s) && ReportInv(s) && Enabled(s, HandlerSteps)
    requires s.handler.ClearingReady? || s.handler.ClearingHealthy?
    ensures FlagsInv(HandlerStep(s))
  {
  }

  lemma FlagsHandlerStep(s: State)
    requires FlagsInv(s) && ReportInv(s) && Enabled(s, HandlerSteps)
    ensures FlagsInv(HandlerStep(s))
  {
    if s.handler.ClearingReady? || s.handler.ClearingHealthy? {
      hide FlagsInv, HandlerStep;
      FlagsStore(s);
    } else {
      assert HandlerStep(s).probes == s.probes;
    }
  }

  lemma FlagsStep(s: State, x: Action)
    requires FlagsInv(s) && WaitInv(s) && ReportInv(s) && Enabled(s, x)
    ensures FlagsInv(Apply(s, x))
  {
    match x {
      case MainSteps => FlagsMainStep(s);
      case HandlerSteps => FlagsHandlerStep(s);
      case Receive(i) =>
      case _ =>
        assert Apply(s, x).probes == s.probes && Apply(s, x).main == s.main;
        assert Apply(s, x).handler == s.handler && Apply(s, x).success == s.success;
    }
  }

  /** Where the shutdown goroutines stand to be spawned, and how far the spawn loop has come, are the same. */
  ghost predicate SameSpawns(s: State, s': State) {
    && s'.handler == s.handler && |s'.servers| == |s.servers|
    && forall i :: 0 <= i < |s.servers| ==>
                     (s'.servers[i].stopper.NotSpawned? <==> s.servers[i].stopper.NotSpawned?)
  }

  lemma SpawnTransfer(s: State, s': State)
    requires SpawnInv(s) && SameSpawns(s, s')
    ensures SpawnInv(s')
  {
  }

  lemma SpawnHandlerStep(s: State)
    requires SpawnInv(s)
    ensures SpawnInv(HandlerStep(s))
  {
    if s.handler.Spawning? && s.handler.next < |s.servers| {
      assert forall i :: 0 <= i < |s.servers| && i != s.handler.next ==> HandlerStep(s).servers[i] == s.servers[i];
    } else {
      assert HandlerStep(s).servers == s.servers;
    }
  }

  lemma OthersKeepSpawns(s: State, x: Action)
    requires Enabled(s, x) && !x.HandlerSteps? && !x.Receive?
    ensures SameSpawns(s, Apply(s, x))
  {
  }

  lemma SpawnReceive(s: State, i: nat)
    requires SpawnInv(s) && Enabled(s, Receive(i))
    ensures SpawnInv(TakeReport(s, i))
  {
  }

  lemma SpawnStep(s: State, x: Action)
    requires SpawnInv(s) && Enabled(s, x)
    ensures SpawnInv(Apply(s, x))
  {
    match x {
      case HandlerSteps => SpawnHandlerStep(s);
      case Receive(i) => SpawnReceive(s, i);
      case _ =>
        hide Apply, Enabled, SameSpawns, SpawnInv;
        OthersKeepSpawns(s, x);
        SpawnTransfer(s, Apply(s, x));
    }
  }

  lemma HandlerKeepsReports(s: State)
    ensures HandlerStep(s).received == s.received && HandlerStep(s).success == s.success
    ensures |HandlerStep(s).servers| == |s.servers|
    ensures s.handler.Spawning? || HandlerStep(s).servers == s.servers
  {
  }

  lemma LoopHandlerStep(s: State)
    requires LoopInv(s) && Enabled(s, HandlerSteps)
    ensures LoopInv(HandlerStep(s))
  {
    HandlerKeepsReports(s);
  }

  lemma ReportHandlerStep(s: State)
    requires ReportInv(s) && Enabled(s, HandlerSteps)
    ensures ReportInv(HandlerStep(s))
  {
    assert s.handler.Spawning? ==> s.received == [];
    LoopHandlerStep(s);
    HandlerKeepsReports(s);
    hide HandlerStep, LoopInv, Enabled;
  }

  lemma ReportReceive(s: State, i: nat)
    requires ReportInv(s) && Enabled(s, Receive(i))
    ensures ReportInv(TakeReport(s, i))
  {
    var s' := TakeReport(s, i);
    forall j | 0 <= j < |s.received|
      ensures s.received[j].server != i && s'.received[j] == s.received[j] && s.received[j].ok
    {
      assert s.servers[s.received[j].server].stopper == Done(s.received[j].ok);
    }
  }

  /** The handler has not moved, and no finished shutdown goroutine has changed. */
  ghost predicate SameReports(s: State, s': State) {
    && s'.handler == s.handler && s'.received == s.received && s'.success == s.success
    && |s'.servers| == |s.servers|
    && forall i :: 0 <= i < |s.servers| && s.servers[i].stopper.Done? ==> s'.servers[i].stopper == s.servers[i].stopper
  }

  lemma ReportTransfer(s: State, s': State)
    requires ReportInv(s) && SameReports(s, s')
    ensures ReportInv(s')
  {
  }

  lemma ReportFrame(s: State, x: Action)
    requires ReportInv(s) && Enabled(s, x) && !x.HandlerSteps? && !x.Receive?
    ensures ReportInv(Apply(s, x))
  {
    hide ReportInv;
    assert SameReports(s, Apply(s, x));
    hide Apply, Enabled, SameReports;
    ReportTransfer(s, Apply(s, x));
  }

  lemma ReportStep(s: State, x: Action)
    requires ReportInv(s) && Enabled(s, x)
    ensures ReportInv(Apply(s, x))
  {
    match x {
      case HandlerSteps => ReportHandlerStep(s);
      case Receive(i) => ReportReceive(s, i);
      case _ => ReportFrame(s, x);
    }
  }

  lemma WaitHandlerStep(s: State)
    requires WaitInv(s) && Enabled(s, HandlerSteps) && (s.handler.ClearingHealthy? ==> s.success)
    ensures WaitInv(HandlerStep(s))
  {
    if s.handler.Spawning? && s.handler.next < |s.servers| {
      ServingUpdate(s.servers, s.handler.next, s.servers[s.handler.next].(stopper := Stopping));
    }
  }

  lemma WaitServerStep(s: State, x: Action)
    requires WaitInv(s) && Enabled(s, x) && !x.MainSteps? && !x.HandlerSteps?
    ensures WaitInv(Apply(s, x))
  {
    match x {
      case ShutdownEnds(i, ok) => ServingUpdate(s.servers, i, s.servers[i].(stopper := Reporting(ok)));
      case Receive(i) => ServingUpdate(s.servers, i, s.servers[i].(stopper := Done(s.servers[i].stopper.ok)));
      case ServeReturns(i) => ServingUpdate(s.servers, i, s.servers[i].(serving := false));
      case _ =>
    }
  }

  lemma WaitStep(s: State, x: Action)
    requires WaitInv(s) && ReportInv(s) && Enabled(s, x)
    ensures WaitInv(Apply(s, x))
  {
    match x {
      case MainSteps =>
      case HandlerSteps => WaitHandlerStep(s);
      case _ => WaitServerStep(s, x);
    }
  }

  lemma StepKeepsInv(s: State, x: Action)
    requires Inv(s) && Enabled(s, x)
    ensures Inv(Apply(s, x))
  {
    hide Apply, Enabled, ChannelInv, WinnerInv, FlagsInv, SpawnInv, ReportInv, WaitInv;
    ChannelStep(s, x);
    WinnerStep(s, x);
    FlagsStep(s, x);
    SpawnStep(s, x);
    ReportStep(s, x);
    WaitStep(s, x);
  }

  lemma {:induction false} RunKeepsInv(s: State, run: seq<Action>)
    requires Inv(s) && Legal(s, run)
    ensures Inv(After(s, run))
    decreases |run|
  {
    if run == [] {
    } else {
      hide Inv, Apply, Enabled;
      StepKeepsInv(s, run[0]);
      RunKeepsInv(Apply(s, run[0]), run[1..]);
    }
  }

  // ---------- what holds in every run ----------

  ghost predicate Reachable(s: State) {
    exists probes: nat, servers: nat, run ::
      Legal(Initial(probes, servers), run) && After(Initial(probes, servers), run) == s
  }

  lemma ReachableInv(s: State)
    requires Reachable(s)
    ensures Inv(s)
  {
    hide Inv, Apply, Enabled, Initial;
    var probes: nat, servers: nat, run :|
      Legal(Initial(probes, servers), run) && After(Initial(probes, servers), run) == s;
    InitialInv(probes, servers);
    RunKeepsInv(Initial(probes, servers), run);
  }

  /**
   The shutdown channel is never closed twice, however many callers and interrupts there are: when one
   is about to close it, it is still open.
   */
  lemma ChannelClosedOnce(s: State)
    requires Reachable(s)
    ensures s.closes <= 1
    ensures forall c :: Enabled(s, CallerCloses(c)) ==> s.closes == 0
  {
    ReachableInv(s);
  }

  predicate ClosesNext(s: State, c: nat) {
    || Enabled(s, CallerCloses(c))
    || (Enabled(s, CallerSwaps(c)) && Enabled(Apply(s, CallerSwaps(c)), CallerCloses(c)))
  }

  /** While the channel is open, some caller can close it at once, or win the compare-and-swap and close it next. */
  lemma SomeCallerCloses(s: State)
    requires Reachable(s) && s.callers != [] && s.closes == 0
    ensures exists c: nat :: ClosesNext(s, c)
  {
    ReachableInv(s);
    assert ChannelInv(s);
    if s.shuttingDown == 1 {
      var c :| Winner(s, c);
      assert ClosesNext(s, c);
    } else {
      assert s.callers[0].Entered?;
      assert ClosesNext(s, 0);
    }
  }

  /** When `Serve` returns normally the channel was closed and every member of the wait group is done. */
  lemma ServeReturnsLast(s: State)
    requires Reachable(s) && (s.main.RunningDefers? || s.main.Exiting?)
    ensures s.closes == 1 && s.handler.Finished?
    ensures forall i :: 0 <= i < |s.servers| ==> !s.servers[i].serving && !s.servers[i].stopper.NotSpawned?
  {
    ReachableInv(s);
    forall i | 0 <= i < |s.servers|
      ensures !s.servers[i].serving
    {
      NoneServing(s.servers, i);
    }
  }

  /** The wait group counts exactly the goroutines that are not done, so it never goes negative. */
  lemma WaitGroupCounts(s: State)
    requires Reachable(s)
    ensures s.wg == StillServing(s.servers) + (if s.handler.Finished? then 0 else 1)
  {
    ReachableInv(s);
  }

  /** No HTTP server is being shut down before every probe was taken out of service. */
  lemma NotReadyBeforeShutdown(s: State, i: nat)
    requires Reachable(s) && i < |s.servers| && !s.servers[i].stopper.NotSpawned?
    ensures forall p :: p in s.probes ==> !p.ready
  {
    ReachableInv(s);
    assert SpawnInv(s);
    assert !Booting(s.main) && !s.handler.AwaitingShutdown? && !s.handler.ClearingReady?;
  }

  lemma {:induction false} SetOfDistinct(xs: seq<nat>) returns (image: set<nat>)
    requires forall j, k :: 0 <= j < k < |xs| ==> xs[j] != xs[k]
    ensures |image| == |xs| && forall x :: x in image <==> x in xs
  {
    if xs == [] {
      image := {};
    } else {
      var n := |xs| - 1;
      var before := SetOfDistinct(xs[..n]);
      image := before + {xs[n]};
      assert xs == xs[..n] + [xs[n]];
    }
  }

  lemma {:induction false} SizeOfRange(n: nat) returns (range: set<nat>)
    ensures |range| == n && forall x :: x in range <==> 0 <= x < n
  {
    if n == 0 {
      range := {};
    } else {
      var before := SizeOfRange(n - 1);
      range := before + {n - 1};
    }
  }

  lemma SubsetOfSameSize(a: set<nat>, b: set<nat>)
    requires a <= b && |a| == |b|
    ensures a == b
  {
    assert b == a + (b - a);
    assert |b| == |a| + |b - a|;
  }

  /** `n` distinct numbers below `n` are all of them. */
  lemma Pigeonhole(xs: seq<nat>, n: nat, i: nat)
    requires |xs| == n && i < n
    requires forall j, k :: 0 <= j < k < |xs| ==> xs[j] != xs[k]
    requires forall j :: 0 <= j < |xs| ==> xs[j] < n
    ensures i in xs
  {
    var image := SetOfDistinct(xs);
    var range := SizeOfRange(n);
    assert image <= range;
    SubsetOfSameSize(image, range);
  }

  lemma AllReported(s: State, i: nat)
    requires ReportInv(s) && |s.received| == |s.servers| && i < |s.servers|
    ensures exists j :: 0 <= j < |s.received| && s.received[j].server == i
  {
    var xs := seq(|s.received|, j requires 0 <= j < |s.received| => s.received[j].server);
    Pigeonhole(xs, |s.servers|, i);
    var j :| 0 <= j < |xs| && xs[j] == i;
    assert s.received[j].server == i;
  }

  /**
   The `ServerShutdown` hook runs, and cancels the server context, only after every server reported,
   each of them once and all of them success.
   */
  lemma HookAfterAllReports(s: State, i: nat)
    requires Reachable(s) && (s.handler.ClearingHealthy? || s.cancelled) && i < |s.servers|
    ensures s.servers[i].stopper == Done(true)
    ensures |s.received| == |s.servers|
    ensures exists j :: 0 <= j < |s.received| && s.received[j] == Report(i, true)
  {
    ReachableInv(s);
    AllReported(s, i);
    var j :| 0 <= j < |s.received| && s.received[j].server == i;
    assert s.received[j].ok && s.received[j] == Report(i, true);
  }

  /**
   The handler finishes with the hook if and only if all servers reported success; otherwise it has
   taken reports up to and including the first failure and none after it.
   */
  lemma FinishedOutcome(s: State)
    requires Reachable(s) && s.handler.Finished?
    ensures s.cancelled <==> |s.received| == |s.servers| && forall j :: 0 <= j < |s.received| ==> s.received[j].ok
    ensures !s.cancelled ==>
              && s.received != [] && !s.received[|s.received| - 1].ok
              && forall j :: 0 <= j < |s.received| - 1 ==> s.received[j].ok
  {
    ReachableInv(s);
  }

  /** Ready implies healthy, for every probe, after every single store. */
  lemma ReadyImpliesHealthy(s: State)
    requires Reachable(s)
    ensures forall i :: 0 <= i < |s.probes| && s.probes[i].ready ==> s.probes[i].healthy
  {
    ReachableInv(s);
  }

  /** While serving and until a shutdown was asked for, every probe is ready and healthy. */
  lemma UpWhileServing(s: State)
    requires Reachable(s) && s.main.Serving? && s.shuttingDown == 0
    ensures forall i :: 0 <= i < |s.probes| ==> s.probes[i] == Flags(true, true)
  {
    ReachableInv(s);
  }
}
