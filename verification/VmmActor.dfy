/** The actor of one machine: two behaviours, one start, and a stop on every way out. */
module VmmActor {
  import opened Wrappers
  import MachineStop

  datatype Behavior = Stopped | Started

  /**
   How far the actor itself has come: `Dying` has asked the actor system to stop it, so that
   `Stopping` is the next message it gets; `Dead` gets no message any more.
   */
  datatype Life = Alive | Dying | Dead

  datatype State = State(behavior: Behavior, life: Life)

  const INITIAL := State(Stopped, Alive)

  datatype Message = Start | Stop | Finished | Stopping | Other

  datatype Reply = NoReply | ReplyStarted | ReplyFailure | ReplyStopped

  /**
   What one message leads to: the next state, the reply, whether the machine was launched or
   stopped, and whether a `Stopped` notice went to the manager.
   */
  datatype Outcome = Outcome(next: State, reply: Reply, launched: bool, halted: bool, notified: bool)

  function Quiet(s: State): Outcome {
    Outcome(s, NoReply, false, false, false)
  }

  predicate Deliverable(s: State, m: Message) {
    match s.life
    case Alive => true
    case Dying => m == Stopping
    case Dead => false
  }

  /** The two behaviours; `startOk` is whether launching the machine would succeed. */
  function Handle(s: State, m: Message, startOk: bool): Outcome {
    match (s.behavior, m)
    case (Stopped, Start) =>
      if startOk then Outcome(s.(behavior := Started), ReplyStarted, true, false, false)
      else Outcome(s, ReplyFailure, false, false, false)
    case (Stopped, Stopping) => Quiet(s.(life := Dead))
    case (Started, Stopping) => Outcome(State(Stopped, Dead), NoReply, false, true, false)
    case (Started, Stop) => Outcome(s.(behavior := Stopped), ReplyStopped, false, true, false)
    case (Started, Finished) => Outcome(s.(life := Dying), NoReply, false, false, true)
    case _ => Quiet(s)
  }

  class Actor {
    const machine: MachineStop.Vmm
    var behavior: Behavior
    var life: Life
    var manager: Option<nat>
    /** The managers that were sent a `Stopped` notice. */
    var notices: seq<nat>

    ghost predicate Valid()
      reads this, machine
    {
      behavior == Started ==> machine.started && manager.Some?
    }

    ghost function Contents(): State
      reads this
    {
      State(behavior, life)
    }

    constructor (machine: MachineStop.Vmm)
      ensures Valid() && this.machine == machine && Contents() == INITIAL && notices == []
    {
      this.machine := machine;
      behavior, life, manager, notices := Stopped, Alive, None, [];
    }

    method Receive(m: Message, sender: nat, startOk: bool, branch: MachineStop.Branch) returns (reply: Reply)
      requires Valid() && Deliverable(Contents(), m)
      modifies this, machine
      ensures Valid()
      ensures var o := Handle(old(Contents()), m, startOk);
              && Contents() == o.next && reply == o.reply
              && machine.log == old(machine.log)
                 + (if o.halted then MachineStop.StopLog(machine.config, branch) else [])
              && notices == old(notices) + (if o.notified then [manager.value] else [])
      ensures manager == if old(behavior) == Stopped && m == Start then Some(sender) else old(manager)
      // message by message: the only `Start` that counts comes while stopped
      ensures old(behavior) == Stopped && m == Start ==>
                && reply == (if startOk then ReplyStarted else ReplyFailure)
                && behavior == (if startOk then Started else Stopped)
                && machine.started == (old(machine.started) || startOk)
      ensures old(behavior) == Started && m == Stop ==> reply == ReplyStopped && behavior == Stopped
      ensures reply != NoReply ==> (old(behavior) == Stopped && m == Start) || (old(behavior) == Started && m == Stop)
      ensures behavior != old(behavior) ==> m == Start || m == Stop || m == Stopping
      // a finished machine is reported once, and the actor stops itself; it is stopped on every way out
      ensures notices == old(notices) + if old(behavior) == Started && m == Finished then [manager.value] else []
      ensures life == if m == Stopping then Dead else if old(behavior) == Started && m == Finished then Dying else old(life)
      ensures machine.log == old(machine.log)
              + if old(behavior) == Started && (m == Stop || m == Stopping)
                then MachineStop.StopLog(machine.config, branch) else []
    {
      reply := NoReply;
      match behavior {
        case Stopped =>
          if m == Start {
            manager := Some(sender);
            var ok := machine.Start(startOk);
            if !ok {
              return ReplyFailure;
            }
            behavior := Started;
            return ReplyStarted;
          } else if m == Stopping {
            life := Dead;
          }
        case Started =>
          match m {
            case Stopping =>
              machine.Stop(branch);
              behavior, life := Stopped, Dead;
            case Stop =>
              machine.Stop(branch);
              behavior := Stopped;
              return ReplyStopped;
            case Finished =>
              notices := notices + [manager.value];
              life := Dying;
            case _ =>
          }
      }
    }
  }

  // ---------- whole message histories ----------

  datatype Delivery = Delivery(message: Message, startOk: bool)

  /** What a history of deliveries added up to. */
  datatype Tally = Tally(
    state: State,
    launches: nat,
    halts: nat,
    notices: nat,
    startReplies: nat,         // `Started` answers
    failureReplies: nat,       // failure answers
    stopReplies: nat)          // `Stopped` answers

  function One(b: bool): nat {
    if b then 1 else 0
  }

  /** What one delivery adds. */
  function Plus(t: Tally, d: Delivery): Tally {
    var o := Handle(t.state, d.message, d.startOk);
    Tally(o.next, t.launches + One(o.launched), t.halts + One(o.halted),
          t.notices + One(o.notified), t.startReplies + One(o.reply == ReplyStarted),
          t.failureReplies + One(o.reply == ReplyFailure), t.stopReplies + One(o.reply == ReplyStopped))
  }

  function Sum(h: seq<Delivery>): Tally {
    if h == [] then Tally(INITIAL, 0, 0, 0, 0, 0, 0)
    else
      Plus(Sum(h[..|h| - 1]), h[|h| - 1])
  }

  predicate Legal(h: seq<Delivery>) {
    h == [] || (Legal(h[..|h| - 1]) && Deliverable(Sum(h[..|h| - 1]).state, h[|h| - 1].message))
  }

  function Starts(h: seq<Delivery>): nat {
    if h == [] then 0 else Starts(h[..|h| - 1]) + One(h[|h| - 1].message == Start)
  }

  /** The starts for which launching the machine would not have succeeded. */
  function FailedStarts(h: seq<Delivery>): nat {
    if h == [] then 0
    else FailedStarts(h[..|h| - 1]) + One(h[|h| - 1].message == Start && !h[|h| - 1].startOk)
  }

  /**
   The balance of a history: the machine is running exactly in behaviour `Started`, every launch ends in
   at most one stop, every launch was answered as a start, and the manager is told at most once, by an
   actor that then dies.
   */
  predicate Balanced(t: Tally) {
    && t.launches == t.halts + One(t.state.behavior == Started)
    && t.notices <= 1
    && (t.state.life == Alive ==> t.notices == 0)
    && (t.state.life == Dying ==> t.notices == 1 && t.state.behavior == Started)
    && (t.state.life == Dead ==> t.state.behavior == Stopped)
    && t.startReplies == t.launches
    && t.notices + t.stopReplies <= t.launches
    && t.stopReplies + One(t.state.behavior == Started) <= t.launches
    && (t.state.life == Dying ==> t.stopReplies < t.launches)
  }

  lemma DeliveryKeepsBalance(t: Tally, d: Delivery)
    requires Balanced(t) && Deliverable(t.state, d.message)
    ensures Balanced(Plus(t, d))
    ensures Plus(t, d).launches <= t.launches + One(d.message == Start && d.startOk)
    ensures Plus(t, d).failureReplies <= t.failureReplies + One(d.message == Start && !d.startOk)
  {
  }

  /** Start/stop balance over every message history. */
  lemma {:induction false} StartStopBalance(h: seq<Delivery>)
    requires Legal(h)
    ensures Balanced(Sum(h)) && Sum(h).launches <= Starts(h) && Sum(h).failureReplies <= FailedStarts(h)
  {
    if h == [] {
    } else {
      var before := h[..|h| - 1];
      StartStopBalance(before);
      DeliveryKeepsBalance(Sum(before), h[|h| - 1]);
      hide Balanced, Plus;
    }
  }

  /** With the single `Start` the manager sends, a handled `Stop` and a notice exclude each other. */
  lemma StopExcludesNotice(h: seq<Delivery>)
    requires Legal(h) && Starts(h) <= 1
    ensures Sum(h).notices + Sum(h).stopReplies <= 1
  {
    StartStopBalance(h);
  }

  /** The only launch was stopped, and nothing was reported. */
  predicate Over(t: Tally) {
    t.launches == t.halts == 1 && t.notices == 0 && t.state.behavior == Stopped
  }

  lemma RepliedIsOver(t: Tally)
    requires Balanced(t) && t.launches <= 1 && t.stopReplies == 1
    ensures Over(t)
  {
  }

  lemma DeliveryKeepsOver(t: Tally, d: Delivery)
    requires Balanced(Plus(t, d)) && Plus(t, d).launches <= 1 && Over(t)
    ensures Over(Plus(t, d))
  {
  }

  lemma LastDelivery(h: seq<Delivery>)
    requires h != []
    ensures var before := h[..|h| - 1];
            && Sum(h) == Plus(Sum(before), h[|h| - 1])
            && (Legal(h) ==> Legal(before)) && Starts(before) <= Starts(h)
  {
  }

  /** Once the only `Start` was answered by a handled `Stop`, nothing is ever launched or reported again. */
  lemma {:induction false} StoppedForGood(h: seq<Delivery>, k: nat)
    requires Legal(h) && Starts(h) <= 1 && k <= |h|
    requires Sum(h[..k]).stopReplies == 1
    ensures Sum(h).launches == Sum(h).halts == 1 && Sum(h).notices == 0 && Sum(h).state.behavior == Stopped
  {
    hide Legal, Starts, Sum, Balanced, Plus;
    StartStopBalance(h);
    if k == |h| {
      assert h[..k] == h;
      RepliedIsOver(Sum(h));
    } else {
      var before := h[..|h| - 1];
      assert before[..k] == h[..k];
      LastDelivery(h);
      StoppedForGood(before, k);
      DeliveryKeepsOver(Sum(before), h[|h| - 1]);
    }
  }
}
