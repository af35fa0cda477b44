/**
 The life of all machines as one concurrent system: the manager with its mailbox and its registry,
 the goroutines inside `StartVMM`, the machine actors with their probes and debouncers, and `Close`.
 Every step is one message handled, one registry operation or one thing the outside world does.
 */
module Lifecycle {
  import opened Wrappers
  import opened Probe
  import opened Registry
  import Debouncer
  import VmmActor

  /** Where a `StartVMM` call stands. The last four have returned to the caller. */
  datatype Call = Waiting | GotStarted | GotFailure | TimedOut | Refused | Tracked | Rejected

  /** Where the machine actor stands with its `Start` message; launching takes a while. */
  datatype Pc = Fresh | Launching | Answered | Failed

  /** The goroutine that waits for the machine to finish. */
  datatype Waiter = NoWaiter | Blocked | Reported

  /** The ticker and the readiness actor. */
  datatype Children = Unspawned | Probing | Halted

  /** What became of the `Stop` message to a machine: its answer came before the future timed out, or after it. */
  datatype StopReply = Unanswered | InTime | TooLate

  /** Bookkeeping about one machine that no code reads. */
  datatype History = History(
    launches: nat,             // successful machine starts
    halts: nat,                // machine stops
    forwarded: seq<Verdict>,   // readiness events sent to the manager
    delivered: seq<Verdict>,   // readiness events the manager has handled
    deliveredAtAdd: nat,       // how many of those came before the registry entry
    notices: nat,              // `Stopped` notices the manager has handled
    early: bool,               // one of them came before the registry entry
    late: bool,                // the registry entry was made after a `Close` had begun
    stops: nat,                // `Stop` messages `Close` has sent
    reply: StopReply,          // the answer to it
    deleted: bool)             // the registry entry was deleted

  const NO_HISTORY := History(0, 0, [], [], 0, 0, false, false, 0, Unanswered, false)

  datatype Actor = Actor(
    vmid: VmId,
    ip: Ip,
    pc: Pc,
    vmm: VmmActor.State,
    inbox: seq<VmmActor.Message>,
    waiter: Waiter,
    children: Children,
    verdicts: seq<Verdict>,    // mailbox of the readiness actor
    debouncer: Debouncer.State,
    call: Call,
    hist: History)

  /** A message to the manager. The manager reads `id`; `from` only says who sent it. */
  datatype Notice =
    | StoppedNotice(id: VmId, from: Pid)
    | ReadinessNotice(id: VmId, from: Pid, verdict: Verdict)

  datatype Phase = Sending | Awaiting(replied: bool) | Deleting

  /** `Close` works through its snapshot; the entry at `next` is the one in hand. */
  datatype Closer = Idle | Sweep(entries: seq<Entry>, next: nat, phase: Phase) | Closed(entries: seq<Entry>)

  datatype State = State(
    actors: map<Pid, Actor>,
    nextPid: Pid,
    box: seq<Notice>,          // mailbox of the manager
    db: Machines,
    closer: Closer,
    adds: nat,                 // successful registry additions
    dels: nat)                 // deletions that found an entry

  const INITIAL := State(map[], 0, [], map[], Idle, 0, 0)

  datatype Action =
    | Spawn(vmid: VmId, ip: Ip)        // StartVMM spawns an actor and sends it Start
    | LaunchSucceeds(pid: Pid)         // machine up, probe and waiter running, Start not answered yet
    | LaunchFails(pid: Pid)
    | Answer(pid: Pid)                 // the actor becomes Started and answers
    | CallTimesOut(pid: Pid)
    | CallReturns(pid: Pid)            // StartVMM takes the answer, and adds the machine if it started
    | MachineExits(pid: Pid)
    | Deliver(pid: Pid)                // the actor handles its next message
    | DeliverStopping(pid: Pid)
    | HaltChildren(pid: Pid)
    | ProbeEnds(pid: Pid, verdict: Verdict)
    | Debounce(pid: Pid)
    | ManagerReceives
    | CloseBegins(order: seq<Entry>)
    | CloseSends
    | CloseGetsReply
    | CloseTimesOut
    | CloseDeletes
    | CloseEnds

  predicate CanReceive(a: Actor) {
    !a.pc.Launching? && a.vmm.life == VmmActor.Alive && a.inbox != []
  }

  predicate StartsNow(a: Actor) {
    CanReceive(a) && a.vmm.behavior == VmmActor.Stopped && a.inbox[0] == VmmActor.Start
  }

  /** The id of a new machine is a fresh unique id. */
  predicate FreshId(s: State, vmid: VmId) {
    vmid != "" && forall p :: p in s.actors ==> s.actors[p].vmid != vmid
  }

  /** The steps that change nothing but one actor. */
  predicate IsOwn(x: Action) {
    || x.LaunchSucceeds? || x.LaunchFails? || x.Answer? || x.CallTimesOut? || x.MachineExits?
    || x.HaltChildren? || x.ProbeEnds?
  }

  /** The steps of `Close`. */
  predicate IsClose(x: Action) {
    || x.CloseBegins? || x.CloseSends? || x.CloseGetsReply? || x.CloseTimesOut? || x.CloseDeletes? || x.CloseEnds?
  }

  predicate OwnEnabled(a: Actor, x: Action)
    requires IsOwn(x)
  {
    match x
    case LaunchSucceeds(_) => StartsNow(a)
    case LaunchFails(_) => StartsNow(a)
    case Answer(_) => a.pc.Launching?
    case CallTimesOut(_) => a.call.Waiting?
    case MachineExits(_) => a.waiter.Blocked?
    case HaltChildren(_) => a.vmm.life == VmmActor.Dead && a.children.Probing?
    case ProbeEnds(_, _) => a.children.Probing?
  }

  /** The first answer completes the call, unless it has timed out. */
  function Replied(call: Call, reply: VmmActor.Reply): Call {
    if !call.Waiting? then call
    else
      match reply
      case ReplyStarted => GotStarted
      case ReplyFailure => GotFailure
      case _ => call
  }

  /** A message to a dead actor is a dead letter. */
  function Post(a: Actor, m: VmmActor.Message): Actor {
    if a.vmm.life == VmmActor.Dead then a else a.(inbox := a.inbox + [m])
  }

  function Own(a: Actor, x: Action): Actor
    requires IsOwn(x) && OwnEnabled(a, x)
  {
    match x
    case LaunchSucceeds(_) =>
      a.(pc := Launching, inbox := a.inbox[1..], waiter := Blocked, children := Probing,
         hist := a.hist.(launches := a.hist.launches + 1))
    case LaunchFails(_) =>
      var o := VmmActor.Handle(a.vmm, VmmActor.Start, false);
      a.(pc := Failed, inbox := a.inbox[1..], call := Replied(a.call, o.reply), vmm := o.next)
    case Answer(_) =>
      var o := VmmActor.Handle(a.vmm, VmmActor.Start, true);
      a.(pc := Answered, call := Replied(a.call, o.reply), vmm := o.next)
    case CallTimesOut(_) => a.(call := TimedOut)
    case MachineExits(_) => Post(a, VmmActor.Finished).(waiter := Reported)
    case HaltChildren(_) => a.(children := Halted)
    case ProbeEnds(_, v) => a.(verdicts := a.verdicts + [v])
  }

  predicate HasNext(s: State) {
    s.closer.Sweep? && s.closer.next < |s.closer.entries|
  }

  predicate NextKnown(s: State) {
    HasNext(s) && s.closer.entries[s.closer.next].pid in s.actors
  }

  ghost predicate Enabled(s: State, x: Action) {
    match x
    case Spawn(vmid, _) => FreshId(s, vmid)
    case CallReturns(p) => p in s.actors && (s.actors[p].call.GotStarted? || s.actors[p].call.GotFailure?)
    case Deliver(p) => p in s.actors && CanReceive(s.actors[p]) && !StartsNow(s.actors[p])
    case DeliverStopping(p) => p in s.actors && s.actors[p].vmm.life == VmmActor.Dying
    case Debounce(p) => p in s.actors && s.actors[p].children.Probing? && s.actors[p].verdicts != []
    case ManagerReceives => s.box != [] && s.box[0].from in s.actors
    case CloseBegins(order) => !s.closer.Sweep? && IsSnapshot(s.db, order)
    case CloseSends => NextKnown(s) && s.closer.phase.Sending?
    case CloseGetsReply => HasNext(s) && s.closer.phase == Awaiting(true)
    case CloseTimesOut => HasNext(s) && s.closer.phase == Awaiting(false)
    case CloseDeletes => NextKnown(s) && s.closer.phase.Deleting?
    case CloseEnds => s.closer.Sweep? && s.closer.next == |s.closer.entries|
    case _ => x.pid in s.actors && OwnEnabled(s.actors[x.pid], x)
  }

  /** `Close` has sent `Stop` to this actor and has not deleted its entry yet. */
  predicate InHand(s: State, p: Pid) {
    HasNext(s) && s.closer.entries[s.closer.next].pid == p && !s.closer.phase.Sending?
  }

  function Put(s: State, p: Pid, a: Actor): State {
    s.(actors := s.actors[p := a])
  }

  function NewActor(vmid: VmId, ip: Ip): Actor {
    Actor(vmid, ip, Fresh, VmmActor.INITIAL, [VmmActor.Start], NoWaiter, Unspawned, [], Debouncer.INITIAL,
          Waiting, NO_HISTORY)
  }

  /** `StartVMM` has spawned an actor and sent it `Start`. */
  function Spawned(s: State, vmid: VmId, ip: Ip): State {
    Put(s, s.nextPid, NewActor(vmid, ip)).(nextPid := s.nextPid + 1)
  }

  /** `del` on the registry, with the bookkeeping of the actor whose entry it is. */
  function Delete(s: State, id: VmId, p: Pid): State
    requires p in s.actors
  {
    if id in s.db then
      var a := s.actors[p];
      Put(s, p, a.(hist := a.hist.(deleted := true))).(db := Removed(s.db, id), dels := s.dels + 1)
    else
      s
  }

  /** The actor after `StartVMM` has added it to the registry. */
  function Registered(a: Actor, late: bool): Actor {
    a.(call := Tracked, hist := a.hist.(deliveredAtAdd := |a.hist.delivered|, late := late))
  }

  /** `StartVMM` takes the answer; a started machine goes into the registry. */
  function ReturnCall(s: State, p: Pid): State
    requires p in s.actors
  {
    var a := s.actors[p];
    if a.call.GotFailure? then Put(s, p, a.(call := Refused))
    else
      match Added(s.db, a.vmid, Some(p), a.ip)
      case Failure(_) => Put(s, p, a.(call := Rejected))
      case Success(m) =>
        Put(s, p, Registered(a, !s.closer.Idle?)).(db := m, adds := s.adds + 1)
  }

  /** `Close` waits for the answer of this actor. */
  predicate Awaited(s: State, p: Pid) {
    InHand(s, p) && s.closer.phase.Awaiting?
  }

  /** The answer to `Stop`, if `o` is one; `awaited` is whether `Close` still waits for it. */
  function StopAnswer(h: History, o: VmmActor.Outcome, awaited: bool): StopReply {
    if o.reply != VmmActor.ReplyStopped then h.reply else if awaited then InTime else TooLate
  }

  /** The actor after it handled `m`, with `rest` still to come. */
  function Handled(a: Actor, m: VmmActor.Message, rest: seq<VmmActor.Message>, awaited: bool): Actor {
    var o := VmmActor.Handle(a.vmm, m, false);
    a.(vmm := o.next, inbox := rest,
       hist := a.hist.(halts := a.hist.halts + VmmActor.One(o.halted), reply := StopAnswer(a.hist, o, awaited)))
  }

  /** The actor handles `m`; a `Stopped` reply reaches `Close` if it is still waiting for it. */
  function React(s: State, p: Pid, m: VmmActor.Message, rest: seq<VmmActor.Message>): State
    requires p in s.actors
  {
    var a := s.actors[p];
    var o := VmmActor.Handle(a.vmm, m, false);
    Put(s, p, Handled(a, m, rest, Awaited(s, p)))
       .(box := if o.notified then s.box + [StoppedNotice(a.vmid, p)] else s.box,
         closer := if o.reply == VmmActor.ReplyStopped && Awaited(s, p) then s.closer.(phase := Awaiting(true))
                   else s.closer)
  }

  /** The debouncer takes its next verdict, and forwards it if it overturns the behaviour. */
  function Debounced(a: Actor): Actor
    requires a.verdicts != []
  {
    var v := a.verdicts[0];
    var (d, forward) := Debouncer.Step(CONFIGURED, a.debouncer, v);
    a.(debouncer := d, verdicts := a.verdicts[1..],
       hist := a.hist.(forwarded := a.hist.forwarded + if forward then [v] else []))
  }

  function RunDebouncer(s: State, p: Pid): State
    requires p in s.actors && s.actors[p].verdicts != []
  {
    var a := s.actors[p];
    var v := a.verdicts[0];
    Put(s, p, Debounced(a))
       .(box := if Debouncer.Step(CONFIGURED, a.debouncer, v).1
                then s.box + [ReadinessNotice(a.vmid, p, v)] else s.box)
  }

  /** The manager handles a `Stopped` notice, the first message in its mailbox. */
  function ReceiveStopped(s: State, id: VmId, p: Pid): State
    requires s.box != [] && p in s.actors
  {
    var a := s.actors[p];
    var h := a.hist.(notices := a.hist.notices + 1, early := a.hist.early || !a.call.Tracked?);
    Delete(Put(s, p, a.(hist := h)).(box := s.box[1..]), id, p)
  }

  /** The manager handles a readiness event, the first message in its mailbox. */
  function ReceiveReadiness(s: State, id: VmId, p: Pid, v: Verdict): State
    requires s.box != [] && p in s.actors
  {
    var a := s.actors[p];
    Put(s, p, a.(hist := a.hist.(delivered := a.hist.delivered + [v])))
       .(box := s.box[1..], db := Marked(s.db, id, v == Ready))
  }

  /** The manager handles its next message: one registry operation on the id in the message. */
  function ReceiveNotice(s: State): State
    requires s.box != [] && s.box[0].from in s.actors
  {
    match s.box[0]
    case StoppedNotice(id, p) => ReceiveStopped(s, id, p)
    case ReadinessNotice(id, p, v) => ReceiveReadiness(s, id, p, v)
  }

  /** The actor after `Close` has sent it `Stop`. */
  function SentStop(a: Actor): Actor {
    Post(a, VmmActor.Stop).(hist := a.hist.(stops := a.hist.stops + 1))
  }

  function SendStop(s: State): State
    requires NextKnown(s)
  {
    var p := s.closer.entries[s.closer.next].pid;
    Put(s, p, SentStop(s.actors[p]))
       .(closer := s.closer.(phase := Awaiting(false)))
  }

  function DeleteNext(s: State): State
    requires NextKnown(s)
  {
    var e := s.closer.entries[s.closer.next];
    Delete(s, e.vmid, e.pid).(closer := Sweep(s.closer.entries, s.closer.next + 1, Sending))
  }

  function Apply(s: State, x: Action): State
    requires Enabled(s, x)
  {
    match x
    case Spawn(vmid, ip) => Spawned(s, vmid, ip)
    case CallReturns(p) => ReturnCall(s, p)
    case Deliver(p) => React(s, p, s.actors[p].inbox[0], s.actors[p].inbox[1..])
    case DeliverStopping(p) => React(s, p, VmmActor.Stopping, [])
    case Debounce(p) => RunDebouncer(s, p)
    case ManagerReceives => ReceiveNotice(s)
    case CloseBegins(order) => s.(closer := Sweep(order, 0, Sending))
    case CloseSends => SendStop(s)
    case CloseGetsReply => s.(closer := s.closer.(phase := Deleting))
    case CloseTimesOut => s.(closer := s.closer.(phase := Deleting))
    case CloseDeletes => DeleteNext(s)
    case CloseEnds => s.(closer := Closed(s.closer.entries))
    case _ => Put(s, x.pid, Own(s.actors[x.pid], x))
  }

  ghost predicate Legal(s: State, run: seq<Action>)
    decreases |run|
  {
    run == [] || (Enabled(s, run[0]) && Legal(Apply(s, run[0]), run[1..]))
  }

  ghost function After(s: State, run: seq<Action>): State
    requires Legal(s, run)
    decreases |run|
  {
    if run == [] then s else After(Apply(s, run[0]), run[1..])
  }
}
