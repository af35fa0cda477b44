/**
 Stopping a machine: a graceful shutdown races a timeout, the machine is stopped by force unless the
 graceful shutdown won, and the network and jailer clean-up follows whatever happened before.
 */
module MachineStop {
  import opened Wrappers

  /** What the stop does to the outside world, in order. */
  datatype Event = ForceStop | CleanCni(ifName: string) | CleanJailer

  /** The branch of the race that was taken. */
  datatype Branch = Graceful | GracefulFailed | TimedOut

  /** An interface is listed with the name of its CNI configuration, if it has one. */
  datatype Config = Config(interfaces: seq<Option<string>>, jailer: bool)

  /** One clean-up attempt for every interface with a CNI configuration, in order. */
  function CniCleanups(interfaces: seq<Option<string>>): seq<Event> {
    if interfaces == [] then []
    else
      CniCleanups(interfaces[..|interfaces| - 1])
      + match interfaces[|interfaces| - 1] case Some(name) => [CleanCni(name)] case None => []
  }

  function Forced(b: Branch): seq<Event> {
    if b == Graceful then [] else [ForceStop]
  }

  /** The complete log of one stop. */
  function StopLog(c: Config, b: Branch): seq<Event> {
    Forced(b) + CniCleanups(c.interfaces) + if c.jailer then [CleanJailer] else []
  }

  lemma OneCleanupMore(interfaces: seq<Option<string>>, i: nat)
    requires i < |interfaces|
    ensures CniCleanups(interfaces[..i + 1])
            == CniCleanups(interfaces[..i]) + match interfaces[i] case Some(name) => [CleanCni(name)] case None => []
  {
    assert interfaces[..i + 1][..i] == interfaces[..i];
  }

  /** The machine handle: `Start` sets it, `Stop` does nothing without it. */
  class Vmm {
    const config: Config
    var started: bool
    var log: seq<Event>

    constructor (config: Config)
      ensures this.config == config && !started && log == []
    {
      this.config := config;
      started, log := false, [];
    }

    method Start(success: bool) returns (ok: bool)
      modifies this
      ensures ok == success && started == (old(started) || success) && log == old(log)
    {
      if success {
        started := true;
      }
      return success;
    }

    method Stop(branch: Branch)
      modifies this
      ensures started == old(started)
      ensures log == old(log) + if started then StopLog(config, branch) else []
    {
      if started {
        StopMachine(branch);
      }
    }

    /** Results of the clean-up steps are only logged, so they do not appear. */
    method CleanInterfaces()
      modifies `log
      ensures log == old(log) + CniCleanups(config.interfaces)
    {
      for i := 0 to |config.interfaces|
        invariant log == old(log) + CniCleanups(config.interfaces[..i])
      {
        OneCleanupMore(config.interfaces, i);
        hide CniCleanups;
        match config.interfaces[i] {
          case Some(name) => log := log + [CleanCni(name)];
          case None =>
        }
      }
      assert config.interfaces[..|config.interfaces|] == config.interfaces;
    }

    method StopMachine(branch: Branch)
      modifies `log
      ensures log == old(log) + StopLog(config, branch)
    {
      match branch {
        case Graceful =>
        case GracefulFailed => log := log + [ForceStop];
        case TimedOut => log := log + [ForceStop];
      }
      CleanInterfaces();
      if config.jailer {
        log := log + [CleanJailer];
      }
    }
  }

  // ---------- every interleaving of the two goroutines ----------

  /** The goroutine that asks the machine to shut down; `failed` is the error it got. */
  datatype Shutdown = Asking | Sending(failed: bool) | Gone

  datatype Main = Selecting | Cleaning(next: nat) | CleaningJailer | Returned

  datatype State = State(
    shutdown: Shutdown,
    channel: seq<bool>,
    expired: bool,
    main: Main,
    branch: Option<Branch>,
    log: seq<Event>)

  const CAPACITY := 1

  const INITIAL := State(Asking, [], false, Selecting, None, [])

  datatype Action =
    | ShutdownReturns(failed: bool)
    | Send
    | Expire
    | TakeResult
    | TakeTimeout
    | CleanInterface
    | FinishInterfaces
    | CleanUpJailer

  predicate Enabled(c: Config, s: State, a: Action) {
    match a
    case ShutdownReturns(_) => s.shutdown.Asking?
    case Send => s.shutdown.Sending? && |s.channel| < CAPACITY
    case Expire => true
    case TakeResult => s.main.Selecting? && s.channel != []
    case TakeTimeout => s.main.Selecting? && s.expired
    case CleanInterface => s.main.Cleaning? && s.main.next < |c.interfaces|
    case FinishInterfaces => s.main.Cleaning? && s.main.next == |c.interfaces|
    case CleanUpJailer => s.main.CleaningJailer?
  }

  function Apply(c: Config, s: State, a: Action): State
    requires Enabled(c, s, a)
  {
    match a
    case ShutdownReturns(failed) => s.(shutdown := Sending(failed))
    case Send => s.(shutdown := Gone, channel := s.channel + [s.shutdown.failed])
    case Expire => s.(expired := true)
    case TakeResult =>
      var b := if s.channel[0] then GracefulFailed else Graceful;
      s.(channel := s.channel[1..], branch := Some(b), log := s.log + Forced(b), main := Cleaning(0))
    case TakeTimeout =>
      s.(branch := Some(TimedOut), log := s.log + Forced(TimedOut), main := Cleaning(0))
    case CleanInterface =>
      s.(main := Cleaning(s.main.next + 1),
         log := s.log + match c.interfaces[s.main.next] case Some(name) => [CleanCni(name)] case None => [])
    case FinishInterfaces => s.(main := CleaningJailer)
    case CleanUpJailer =>
      // returning also runs the deferred cancel of the shutdown context
      s.(main := Returned, expired := true, log := s.log + if c.jailer then [CleanJailer] else [])
  }

  predicate Legal(c: Config, s: State, run: seq<Action>)
    decreases |run|
  {
    run == [] || (Enabled(c, s, run[0]) && Legal(c, Apply(c, s, run[0]), run[1..]))
  }

  function After(c: Config, s: State, run: seq<Action>): State
    requires Legal(c, s, run)
    decreases |run|
  {
    if run == [] then s else After(c, Apply(c, s, run[0]), run[1..])
  }

  ghost predicate Inv(c: Config, s: State) {
    && (!s.shutdown.Gone? ==> s.channel == [])
    && |s.channel| <= CAPACITY
    && (s.main.Selecting? <==> s.branch.None?)
    && (s.branch == Some(Graceful) || s.branch == Some(GracefulFailed) ==> s.shutdown.Gone? && s.channel == [])
    && (s.branch == Some(TimedOut) ==> s.expired)
    && match s.main
       case Selecting => s.log == []
       case Cleaning(i) => i <= |c.interfaces| && s.log == Forced(s.branch.value) + CniCleanups(c.interfaces[..i])
       case CleaningJailer => s.log == Forced(s.branch.value) + CniCleanups(c.interfaces)
       case Returned => s.log == StopLog(c, s.branch.value)
  }

  lemma InitialInv(c: Config)
    ensures Inv(c, INITIAL)
  {
  }

  lemma StepKeepsInv(c: Config, s: State, a: Action)
    requires Inv(c, s) && Enabled(c, s, a)
    ensures Inv(c, Apply(c, s, a))
  {
    match a {
      case CleanInterface =>
        assert c.interfaces[..s.main.next + 1][..s.main.next] == c.interfaces[..s.main.next];
      case FinishInterfaces =>
        assert c.interfaces[..|c.interfaces|] == c.interfaces;
      case _ =>
    }
  }

  lemma {:induction false} RunKeepsInv(c: Config, s: State, run: seq<Action>)
    requires Inv(c, s) && Legal(c, s, run)
    ensures Inv(c, After(c, s, run))
    decreases |run|
  {
    if run == [] {
    } else {
      StepKeepsInv(c, s, run[0]);
      RunKeepsInv(c, Apply(c, s, run[0]), run[1..]);
    }
  }

  /** The shutdown goroutine never blocks on its send, however late it comes. */
  lemma SendNeverBlocks(c: Config, run: seq<Action>)
    requires Legal(c, INITIAL, run)
    ensures After(c, INITIAL, run).shutdown.Sending? ==> Enabled(c, After(c, INITIAL, run), Send)
  {
    RunKeepsInv(c, INITIAL, run);
  }

  /** In every interleaving the stop that returned did exactly what its branch of the race calls for. */
  lemma StopIsComplete(c: Config, run: seq<Action>)
    requires Legal(c, INITIAL, run)
    ensures var s := After(c, INITIAL, run);
            s.main.Returned? ==> s.branch.Some? && s.log == StopLog(c, s.branch.value)
  {
    RunKeepsInv(c, INITIAL, run);
  }

  /** The steps the stop can take without the shutdown goroutine. */
  predicate IsStopStep(a: Action) {
    a.TakeTimeout? || a.CleanInterface? || a.FinishInterfaces? || a.CleanUpJailer?
  }

  /** The stop never hangs: once the timeout has passed it always has a next step. */
  lemma StopNeverBlocks(c: Config, run: seq<Action>)
    requires Legal(c, INITIAL, run)
    ensures var s := After(c, INITIAL, run);
            && Enabled(c, s, Expire)
            && (s.expired && !s.main.Returned? ==>
                  exists a :: IsStopStep(a) && Enabled(c, s, a))
  {
    RunKeepsInv(c, INITIAL, run);
    var s := After(c, INITIAL, run);
    hide After, Legal;
    var a := match s.main
             case Selecting => TakeTimeout
             case Cleaning(i) => if i < |c.interfaces| then CleanInterface else FinishInterfaces
             case _ => CleanUpJailer;
    assert s.expired && !s.main.Returned? ==> IsStopStep(a) && Enabled(c, s, a);
  }

  // ---------- what the run says about the branch ----------

  lemma {:induction false} LastStep(c: Config, s: State, run: seq<Action>)
    requires Legal(c, s, run) && run != []
    ensures var before := run[..|run| - 1];
            && Legal(c, s, before) && Enabled(c, After(c, s, before), run[|run| - 1])
            && After(c, s, run) == Apply(c, After(c, s, before), run[|run| - 1])
    decreases |run|
  {
    hide Apply, Enabled;
    if |run| == 1 {
      assert run[1..] == [] && run[..0] == [];
    } else {
      LastStep(c, Apply(c, s, run[0]), run[1..]);
      assert run[..|run| - 1][1..] == run[1..][..|run| - 2];
    }
  }

  /** Where a run has come to: what the shutdown returned, where that is, and how the race ended. */
  ghost predicate Traced(run: seq<Action>, s: State) {
    && (s.shutdown.Asking? <==> ShutdownReturns(true) !in run && ShutdownReturns(false) !in run)
    && !(ShutdownReturns(true) in run && ShutdownReturns(false) in run)
    && (s.shutdown.Sending? ==> ShutdownReturns(s.shutdown.failed) in run)
    && (forall i :: 0 <= i < |s.channel| ==> ShutdownReturns(s.channel[i]) in run)
    && (TakeResult in run <==> s.branch == Some(Graceful) || s.branch == Some(GracefulFailed))
    && (s.branch == Some(Graceful) ==> ShutdownReturns(false) in run)
    && (s.branch == Some(GracefulFailed) ==> ShutdownReturns(true) in run)
  }

  lemma StepKeepsTraced(c: Config, run: seq<Action>, s: State, a: Action)
    requires Traced(run, s) && Inv(c, s) && Enabled(c, s, a)
    ensures Traced(run + [a], Apply(c, s, a))
  {
    hide CniCleanups, StopLog, Forced;
    assert forall x :: x in run + [a] <==> x in run || x == a;
  }

  lemma {:induction false} RunIsTraced(c: Config, run: seq<Action>)
    requires Legal(c, INITIAL, run)
    ensures Traced(run, After(c, INITIAL, run))
  {
    if run == [] {
    } else {
      var before := run[..|run| - 1];
      hide Apply, Enabled, Traced, Inv;
      LastStep(c, INITIAL, run);
      RunIsTraced(c, before);
      assert Inv(c, INITIAL) by { InitialInv(c); }
      RunKeepsInv(c, INITIAL, before);
      StepKeepsTraced(c, before, After(c, INITIAL, before), run[|run| - 1]);
      assert run == before + [run[|run| - 1]];
    }
  }

  lemma {:induction false} EventsAreTraced(c: Config, run: seq<Action>)
    requires Legal(c, INITIAL, run)
    ensures Expire in run ==> After(c, INITIAL, run).expired
    ensures Send in run && After(c, INITIAL, run).main.Selecting? ==> After(c, INITIAL, run).channel != []
  {
    if run == [] {
    } else {
      var before := run[..|run| - 1];
      LastStep(c, INITIAL, run);
      EventsAreTraced(c, before);
      assert run == before + [run[|run| - 1]];
      assert forall x :: x in run <==> x in before || x == run[|run| - 1];
      hide After, Legal;
    }
  }

  /**
   The race is open: the graceful shutdown may end either way until it has ended, and while the stop
   selects, whichever of the two events has happened can be taken, both if both have.
   */
  lemma RaceIsOpen(c: Config, run: seq<Action>, failed: bool)
    requires Legal(c, INITIAL, run)
    ensures var s := After(c, INITIAL, run);
            && (ShutdownReturns(true) !in run && ShutdownReturns(false) !in run ==> Enabled(c, s, ShutdownReturns(failed)))
            && (s.main.Selecting? && Expire in run ==> Enabled(c, s, TakeTimeout))
            && (s.main.Selecting? && Send in run ==> Enabled(c, s, TakeResult))
  {
    RunIsTraced(c, run);
    EventsAreTraced(c, run);
    RunKeepsInv(c, INITIAL, run);
    hide After, Legal;
  }

  function Count(log: seq<Event>, e: Event): nat {
    multiset(log)[e]
  }

  lemma CountOneMore<T>(xs: seq<T>, y: T, x: T)
    ensures multiset(xs + [y])[x] == multiset(xs)[x] + if x == y then 1 else 0
  {
  }

  lemma CountCleanup(before: seq<Event>, i: Option<string>, name: string)
    ensures Count(before + (match i case Some(x) => [CleanCni(x)] case None => []), CleanCni(name))
            == Count(before, CleanCni(name)) + if i == Some(name) then 1 else 0
  {
    if i.None? {
      assert before + [] == before;
    }
  }

  lemma {:induction false} CniCleanupsCounted(interfaces: seq<Option<string>>, name: string)
    ensures forall i :: 0 <= i < |CniCleanups(interfaces)| ==> CniCleanups(interfaces)[i].CleanCni?
    ensures Count(CniCleanups(interfaces), CleanCni(name)) == multiset(interfaces)[Some(name)]
  {
    if interfaces == [] {
    } else {
      var n := |interfaces| - 1;
      assert interfaces[..n + 1] == interfaces == interfaces[..n] + [interfaces[n]];
      hide CniCleanups, Count;
      OneCleanupMore(interfaces, n);
      CniCleanupsCounted(interfaces[..n], name);
      CountCleanup(CniCleanups(interfaces[..n]), interfaces[n], name);
      CountOneMore(interfaces[..n], interfaces[n], Some(name));
    }
  }

  /**
   What a stop log contains: one forced stop unless the graceful shutdown succeeded, one clean-up
   for each configured interface, and the jailer clean-up last if there is a jailer.
   */
  lemma StopLogCounts(c: Config, b: Branch, name: string)
    ensures Count(StopLog(c, b), ForceStop) == if b == Graceful then 0 else 1
    ensures Count(StopLog(c, b), CleanCni(name)) == multiset(c.interfaces)[Some(name)]
    ensures Count(StopLog(c, b), CleanJailer) == if c.jailer then 1 else 0
    ensures c.jailer ==> StopLog(c, b)[|StopLog(c, b)| - 1] == CleanJailer
    ensures b != Graceful ==> StopLog(c, b)[0] == ForceStop
  {
    CniCleanupsCounted(c.interfaces, name);
    var cni := CniCleanups(c.interfaces);
    assert Count(cni, ForceStop) == 0 && Count(cni, CleanJailer) == 0;
  }

  /**
   When the machine is forced: not at all if the stop took the result of the shutdown and that was a
   success; otherwise once, before anything else.
   */
  lemma ForcedUnlessGraceful(c: Config, run: seq<Action>)
    requires Legal(c, INITIAL, run) && After(c, INITIAL, run).main.Returned?
    ensures var log := After(c, INITIAL, run).log;
            var graceful := TakeResult in run && ShutdownReturns(false) in run;
            && (ForceStop !in log <==> graceful)
            && (!graceful ==> log != [] && log[0] == ForceStop && Count(log, ForceStop) == 1)
  {
    StopIsComplete(c, run);
    RunIsTraced(c, run);
    var s := After(c, INITIAL, run);
    hide After, Legal;
    StopLogCounts(c, s.branch.value, "");
    assert ForceStop in multiset(s.log) <==> ForceStop in s.log;
    assert s.main.Returned? && s.branch != None;
  }

  /** The clean-ups follow the order of the interfaces: one for each that has a configuration, none for others. */
  lemma {:induction false} CleanupsInOrder(x: seq<Option<string>>, y: seq<Option<string>>, name: string)
    ensures CniCleanups(x + y) == CniCleanups(x) + CniCleanups(y)
    ensures CniCleanups([Some(name)]) == [CleanCni(name)] && CniCleanups([None]) == []
  {
    if y == [] {
      assert x + y == x;
      var none: seq<Option<string>> := [None];
      assert [Some(name)][..0] == [] && none[..0] == [];
    } else {
      assert (x + y)[..|x + y| - 1] == x + y[..|y| - 1];
      CleanupsInOrder(x, y[..|y| - 1], name);
    }
  }
}
