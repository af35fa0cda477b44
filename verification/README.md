# Verified model of the Firebox machine manager

Firebox starts Firecracker machines on request, probes them, routes HTTP invocations to the ready
ones, and stops them when the server shuts down. This project models that behaviour in Dafny 4.11 and
proves what it keeps in every run. `dafny verify dfyconfig.toml` verifies everything.

## What is modelled

* **The machine lifecycle** (`Lifecycle`, `LifecycleInvariant`, `LifecycleTheorems`, `LifecycleHistory`).
  One transition system with the manager's mailbox and registry, the goroutines inside `StartVMM` with futures that may
  time out, the actor of every machine, its probe and debouncer, and `Close`. A step is one message
  handled, one registry operation or one event of the outside world. Ids and pids are fresh and machines
  unbounded in number. The `History` of an actor is bookkeeping that no step reads. The windows of the code
  are part of the system, and theorems say exactly when each one matters: a timed-out start leaves an
  orphan; a `Stopped` notice handled before the registry entry is made leaves a stale entry, which a late
  `Ready` can even mark ready; a `Ready` handled before the entry is made is missed; a `Stop` that is not
  answered before `Close` gives up leaves a machine running although its entry is gone; and a machine that
  has exited keeps its entry until its actor has handled the exit and the manager the notice of it. The
  actor of such a machine is still in behaviour `Started`, so `Running` and `Up` speak of what the actor
  takes its machine to be, and `Live` of the machine itself.
* **The parts of that system as imperative code**, each proved against the function the system uses:
  `Registry.Db`, `Debouncer.ReadinessActor`, `VmmActor.Actor`, `MachineStop.Vmm`, `Ticker.TickerActor`,
  `Manager.VMMManager`.
* **Graceful shutdown** (`ServerRun`, `ServerHistory`). Start-up, the compare-and-swap and the shutdown
  channel, one goroutine per HTTP server reporting on an unbuffered channel, the short-circuit receive loop, the two
  hooks setting probe flags one store at a time, the wait group, and the deferred calls. Any number of
  servers, probes, callers and interrupts.
* **The whole process** (`EndToEnd`). The product of the two systems: requests to start a machine come
  in through the servers, and `Close` runs as the deferred call.
* **The invoke codec** (`Base64`, `Headers`, `Invoke`). Bodies in the base 64 encoding of section 4 of
  RFC 4648, and header maps that are walked in an arbitrary order. Key canonicalisation is any idempotent
  function.
* **Small components** (`Prober`, `Defers`, `MachineStop`, `Ticker`).

A property that is false of the code is replaced by the exact condition under which it holds, an if and
only if over every reachable state or every input, next to a reachable state or an input in which it fails:

* every machine whose actor is started is registered: `UntrackedMeansTimedOut`, `OrphanIsReachable`;
* every entry names a machine that runs: `StaleMeansEarlyNotice`, `StaleEntryIsReachable`, and for entries
  that requests go to `ReadyEntryServes`, `StaleReadyEntryIsReachable`, `UnhandledExitIsReachable`;
* the flag of an entry is the debouncer's verdict: `FlagMatchesDebouncer`, `MissedReadyIsReachable`;
* the registry is empty when the process exits: `RegistryEmptyAtExit`, `FailedShutdownLeavesMachine`. A
  graceful shutdown is one way to meet the condition (`GracefulShutdownDrains`);
* every registered machine is stopped when the process exits: `StoppedAtExit`, `UpAfterGracefulShutdown`,
  `UnansweredStopLeavesMachine`;
* the order in which header maps are walked does not matter: `OrderDoesNotMatter`,
  `CollisionsMakeOrderMatter`, `MultiCollisionsMakeOrderMatter`. The last two hold for every
  canonicalisation and every two keys that collide under it, such as `a` and `A`.

A comment in `StartVMM` says a failing `add` should never happen; `AddNeverFails` proves it, given that
machine ids are unique. The manager logs every `Stopped` notice as an unexpected termination; the system
shows that a handled `Stop` never produces one.

## Assumptions

Mailboxes are first in, first out; `Become` replaces the behaviour; stopping an actor delivers `Stopping`
before any other message; messages to a dead actor are lost. A future is completed by its reply or by its
timeout, whichever comes first, and timeouts may happen at any moment. A machine id is non-empty and
unique. The graceful shutdown of an HTTP server succeeds only when none of its handlers runs, and none
starts after that.

## Model

| member | source | states |
|---|---|---|
| LifecycleInvariant.StepKeepsInv | pkg/actors/manager/manager.go:54-109 | every step of manager, calls, machine actors, probes and `Close` keeps the lifecycle invariant |
| LifecycleInvariant.RunKeepsInv | pkg/actors/vmm/vmm.go:62-150 | the lifecycle invariant holds after every run |
| LifecycleInvariant.DeliverKeepsView | pkg/actors/vmm/vmm.go:82-97 | handling `Stop` or a finished machine keeps everything the system holds about that machine consistent |
| LifecycleInvariant.CallReturnsKeepsView | pkg/actors/manager/manager.go:79-91 | an answer taken by `StartVMM` finds no entry under the id, and the new entry is explained |
| LifecycleInvariant.DebounceKeepsView | pkg/actors/vmm/readiness.go:40-64 | what the debouncer has forwarded is what the manager has handled plus what waits in its mailbox |
| LifecycleInvariant.NoticeKeepsView | pkg/actors/manager/manager.go:56-58 | a handled `Stopped` notice accounts for the entry it deletes, or for having come too early |
| LifecycleInvariant.DeliveryKeepsView | pkg/actors/manager/manager.go:59-64 | a handled readiness event sets the flag of the entry and nothing else |
| LifecycleInvariant.StepKeepsReply | pkg/actors/manager/manager.go:100-105 | every step keeps it that the future of `Close` is completed exactly when the machine in hand has answered its `Stop` in time |
| LifecycleTheorems.NoLostMachine | pkg/actors/manager/manager.go:68-92 | a machine that was launched and not stopped, exited or not, is in the registry, or its start call is in progress or timed out, or a stop is on its way |
| LifecycleTheorems.UpIsLiveOrExited | pkg/actors/vmm/vmm.go:91-113 | a machine that is not stopped has exited if and only if the message about it waits in the mailbox of its actor or was handled by it |
| LifecycleTheorems.UntrackedMeansTimedOut | pkg/actors/manager/manager.go:72-77 | once its call has returned, a machine whose actor is started and not being stopped is in the registry if and only if its start call did not time out |
| LifecycleTheorems.OrphanIsNeverStopped | pkg/actors/manager/manager.go:72-109 | in every continuation, a machine whose start call timed out is never sent `Stop` and never enters the registry |
| LifecycleTheorems.OrphanIsReachable | pkg/actors/manager/manager.go:73 | a live machine outside the registry after a timeout is reachable |
| LifecycleTheorems.NoUnexplainedEntry | pkg/actors/manager/db.go:53-84 | each entry has its own id and pid, and names a live machine, one whose exit waits to be handled, a notice on its way, the entry `Close` has in hand, or a machine whose notice came before the entry |
| LifecycleTheorems.StaleMeansEarlyNotice | pkg/actors/manager/manager.go:56-58 | with no notice on its way and `Close` not at it, the machine of an entry is live if and only if no notice preceded the entry and no exit waits to be handled; its actor is started if and only if no notice preceded the entry |
| LifecycleTheorems.StaleStays | pkg/actors/manager/db.go:75-84 | only `Close` ever removes a stale entry |
| LifecycleTheorems.StaleEntryIsReachable | pkg/actors/vmm/vmm.go:99-113 | a stale entry with nothing left to remove it is reachable |
| LifecycleTheorems.StaleReadyEntryIsReachable | pkg/actors/manager/manager.go:119-135 | a stale entry that is marked ready, so that requests go to a machine that is gone, is reachable |
| LifecycleTheorems.UnhandledExitIsReachable | pkg/actors/vmm/vmm.go:109-113 | a ready entry, otherwise in order, whose machine has exited while its actor has not handled that, is reachable |
| LifecycleTheorems.PidsAreDistinct | pkg/actors/manager/db.go:66-70 | different entries belong to different actors |
| LifecycleTheorems.AddNeverFails | pkg/actors/manager/manager.go:81-84 | adding a started machine never fails |
| LifecycleTheorems.ManagerNeverBlocks | pkg/actors/manager/manager.go:54-66 | every message in the mailbox carries the id of the actor that sent it |
| LifecycleTheorems.CloseNeverBlocks | pkg/actors/manager/manager.go:98-108 | in every state of a running `Close`, one of its own steps is enabled |
| LifecycleTheorems.CloseEndsInTime | pkg/actors/manager/manager.go:98-108 | in every continuation `Close` ends with exactly the last of a number of own steps that is known beforehand, at most three for each entry and one more |
| LifecycleTheorems.ReplyMeansStopped | pkg/actors/manager/manager.go:102-105 | the future of `Close` has a reply if and only if the machine in hand answered in time, and then that machine has been stopped |
| LifecycleTheorems.StopTakesEffect | pkg/actors/vmm/vmm.go:82-97 | a machine that was sent `Stop` and has not exited by itself is stopped if and only if its actor handled that message, which is in its mailbox until then |
| LifecycleTheorems.UpMeansOneLaunchMore | pkg/actors/vmm/vmm.go:62-97 | a machine is up exactly while its launches outnumber its stops, by one, and it is launched once |
| LifecycleTheorems.AddsMinusDeletes | pkg/actors/manager/db.go:53-84 | successful additions minus successful deletions is the registry size |
| LifecycleTheorems.AtMostOneStop | pkg/actors/manager/manager.go:100-107 | over any number of `Close` runs a machine gets at most one `Stop`, only if it was tracked |
| LifecycleTheorems.CloseStopsItsSnapshot | pkg/actors/manager/manager.go:94-109 | a finished `Close` sent each machine of its snapshot exactly one `Stop` and removed all of them |
| LifecycleTheorems.FlagIsLastEvent | pkg/actors/manager/db.go:86-95 | an entry is marked ready if and only if the last readiness event handled since it was made was `Ready` |
| LifecycleTheorems.FlagMatchesDebouncer | pkg/actors/vmm/readiness.go:40-64 | with no event on its way, flag and debouncer agree, except exactly when the last event was a `Ready` before the entry |
| LifecycleTheorems.ReadyEntryServes | pkg/actors/manager/manager.go:119-135 | an entry marked ready has the address of its own launched machine, whose last handled event was `Ready`; with no notice on its way and `Close` not at it, the machine is live if and only if no notice preceded the entry and no exit waits to be handled |
| LifecycleTheorems.MissedReadyIsReachable | pkg/actors/vmm/vmm.go:99-113 | a ready machine whose entry is not marked ready is reachable |
| LifecycleTheorems.EventsAlternate | pkg/actors/vmm/readiness.go:40-64 | the manager gets the readiness events of a machine in order, alternating from `Ready` |
| LifecycleTheorems.NoResurrection | pkg/actors/manager/db.go:75-95 | once an entry was deleted no continuation brings its id back into the registry or a snapshot |
| LifecycleHistory.RunTells | pkg/actors/vmm/vmm.go:62-121 | over every run, id and address of a machine, its launch, its answer, its exit, its probing, its start call and its end are exactly what the steps of the run made them |
| LifecycleHistory.ManagerMailboxIsFifo | pkg/actors/manager/manager.go:54-66 | every step adds at the end of the mailbox of the manager what it sends, one notice or event or nothing, and only the manager takes messages, from the front |
| LifecycleHistory.ActorMailboxIsFifo | pkg/actors/vmm/vmm.go:58-113 | until an actor is dead, nothing posted to it is lost, overtaken or repeated |
| LifecycleHistory.ProbesAreHeard | pkg/actors/vmm/probe.go:35-44 | over every run the debouncer has handled a prefix of the verdicts of the probes of its machine, the rest waits in order, and what was forwarded is what those verdicts call for |
| LifecycleHistory.ReadyWasProbed | pkg/actors/vmm/probe.go:36-43 | no machine is marked ready of which no probe ever succeeded |
| LifecycleHistory.FlagFollowsProbes | pkg/actors/vmm/readiness.go:40-64 | with nothing on its way, an entry is marked ready if and only if the whole probe history of its machine leaves a debouncer ready, except exactly when a `Ready` came before the entry |
| LifecycleHistory.NothingIsHeldUp | pkg/actors/vmm/vmm.go:99-150 | every message can be taken, every goroutine goes on, a launch may succeed or fail, a probe may end either way, a machine may exit and a call may time out |
| LifecycleHistory.NothingOutOfTurn | pkg/actors/vmm/vmm.go:99-150 | nothing is launched twice, probed or exited before its launch, halted before its actor is dead, or returned before an answer |
| Registry.Db.Entries | pkg/actors/manager/db.go:44-51 | a snapshot lists every entry exactly once, in any order |
| Registry.Db.Add | pkg/actors/manager/db.go:53-73 | the three errors in order, else one new entry that is not ready |
| Registry.Db.Del | pkg/actors/manager/db.go:75-84 | removes the id and returns its pid if it was there |
| Registry.Db.Ready | pkg/actors/manager/db.go:86-95 | sets the flag of an existing entry, never makes one |
| Registry.Db.Find | pkg/actors/manager/db.go:33-42 | the entry under an id, or none |
| Registry.MarkedKeepsKeys | pkg/actors/manager/db.go:86-95 | marking changes no key and no other entry |
| Manager.VMMManager.Receive | pkg/actors/manager/manager.go:54-66 | each message is one registry operation on the id it carries |
| Manager.VMMManager.StartVMM | pkg/actors/manager/manager.go:68-92 | one `Start` to the spawned actor; the registry changes exactly if a started machine could be added; each failure has its error |
| Manager.VMMManager.GetServiceIP | pkg/actors/manager/manager.go:119-135 | the address of some ready machine, or an error if and only if there is none |
| Manager.VMMManager.Close | pkg/actors/manager/manager.go:94-109 | one `Stop` for each entry of the snapshot, in order; what is left of the registry was added meanwhile, whatever messages are handled and start calls end between its steps |
| Manager.OnlyAddedAreLeft | pkg/actors/manager/manager.go:94-109 | an id left after the whole snapshot was worked through was added while `Close` ran |
| Manager.SystemReceives | pkg/actors/manager/manager.go:54-66 | the lifecycle system's manager step is `Receive` |
| Manager.SystemAdds | pkg/actors/manager/manager.go:74-91 | where the lifecycle system ends a start call, by an answer or a timeout, registry and caller see what `StartVMM` does |
| VmmActor.Actor.Receive | pkg/actors/vmm/vmm.go:58-121 | message by message: behaviours, replies, notices, the end of the actor, and the complete log of a machine stop |
| VmmActor.StartStopBalance | pkg/actors/vmm/vmm.go:62-121 | over every message history launches minus stops is one exactly in `Started`, every launch was answered as started; at most one notice, from an actor that then dies |
| VmmActor.StopExcludesNotice | pkg/actors/vmm/vmm.go:82-97 | with one `Start`, a handled `Stop` and a notice exclude each other |
| VmmActor.StoppedForGood | pkg/actors/vmm/vmm.go:62-97 | after the only start was stopped nothing is launched or reported again |
| Debouncer.ReadinessActor.Receive | pkg/actors/vmm/readiness.go:36-64 | in each behaviour, the contradicting verdict counts and overturns exactly at its own threshold, and is forwarded exactly then; everything else changes nothing |
| Debouncer.CounterNeverWraps | pkg/actors/vmm/readiness.go:22 | for all thresholds the 32-bit counter stays in range, so its increment never wraps |
| Debouncer.ForwardedAlternates | pkg/actors/vmm/readiness.go:40-64 | forwarded verdicts alternate from `Ready`; the behaviour is the last one forwarded |
| Debouncer.Conservation | pkg/actors/vmm/readiness.go:40-64 | contradicting verdicts are exactly the thresholds paid for the changes, success for `Ready` and failure for `Unready`, plus the counter |
| Debouncer.FlappingBound | pkg/actors/vmm/readiness.go:40-64 | n probes cause only as many changes as they can pay for |
| Debouncer.FlappingBoundIsTight | pkg/actors/vmm/readiness.go:40-64 | for every number of changes some history pays exactly that price |
| Debouncer.RunOverturns | pkg/actors/vmm/readiness.go:40-64 | a run of contradicting verdicts overturns the behaviour exactly when it fills the counter |
| Debouncer.ConfiguredChanges | pkg/actors/vmm/vmm.go:134-135 | with the configured thresholds one success makes a machine ready, and exactly the third failure unready |
| Ticker.TickerActor.Receive | pkg/actors/ticker/ticker.go:20-36 | for each message, whether the handler runs and which timer is armed afterwards |
| Ticker.NewTicker | pkg/actors/ticker/ticker.go:40-64 | the three construction errors in order, else the configured ticker |
| Ticker.ProbeSpacing | pkg/actors/ticker/ticker.go:20-36 | between two probe ends lies a period for each probe and at most a timeout more |
| Ticker.ProbeTimes | pkg/actors/ticker/ticker.go:20-36 | a probe ends after the initial delay, a period for each probe before it, and all probing up to then, exactly |
| Ticker.DetectionLatency | pkg/actors/vmm/probe.go:35-44 | a machine that fails every probe is reported by exactly the probe that fills the counter, none before it, within F*(period+timeout) seconds |
| Ticker.ConfiguredLatency | pkg/actors/vmm/vmm.go:124-136 | with the configured specification by the third failure, within 12 seconds, which is attained |
| MachineStop.Vmm.Start | pkg/vmm/vmm.go:94-101 | the machine handle is set only on success |
| MachineStop.Vmm.Stop | pkg/vmm/vmm.go:110-115 | without a machine nothing happens, otherwise one complete stop |
| MachineStop.Vmm.StopMachine | pkg/vmm/vmm.go:154-191 | the log of a stop: force unless graceful, the interface clean-ups in order, the jailer |
| MachineStop.SendNeverBlocks | pkg/vmm/vmm.go:160-163 | in every interleaving the shutdown goroutine can send when it wants to |
| MachineStop.StopIsComplete | pkg/vmm/vmm.go:154-191 | in every interleaving a returned stop did exactly what its branch calls for |
| MachineStop.ForcedUnlessGraceful | pkg/vmm/vmm.go:165-178 | in every interleaving a returned stop forced the machine, once and first, unless it took the result of the shutdown and that was a success |
| MachineStop.StopNeverBlocks | pkg/vmm/vmm.go:165-190 | once the timeout has passed, a stop always has a next step until it returns |
| MachineStop.RaceIsOpen | pkg/vmm/vmm.go:160-178 | the graceful shutdown may end either way, and while the stop selects, each of the two events can be taken once it has happened |
| MachineStop.CleanupsInOrder | pkg/vmm/vmm.go:180-187 | the clean-ups follow the order of the interfaces, one for each that has a CNI configuration |
| MachineStop.StopLogCounts | pkg/vmm/vmm.go:165-190 | one forced stop unless graceful, first; one clean-up for each configured interface; the jailer last |
| ServerRun.RunKeepsInv | api/server/server.go:405-453 | the server invariant holds after every run |
| ServerRun.ChannelClosedOnce | api/server/server.go:406-411 | the shutdown channel is never closed twice |
| ServerRun.SomeCallerCloses | api/server/server.go:406-411 | while the channel is open and someone has called `Shutdown`, some caller can close it, at once or after winning the compare-and-swap |
| ServerHistory.ShutdownIsNotLost | api/server/server.go:495-509 | after a call of `Shutdown` or an interrupt, as long as the channel is open, some caller can close it at once or next |
| ServerHistory.CallersAreTraced | api/server/server.go:495-509 | over every run the callers of `Shutdown` are its direct calls, one for the first interrupt, and the deferred call at the end |
| ServerRun.ServeReturnsLast | api/server/server.go:327-331 | `Serve` returns only after the channel was closed and every goroutine it waits for is done |
| ServerRun.WaitGroupCounts | api/server/server.go:172-193 | the wait group counts exactly the goroutines that are not done |
| ServerRun.NotReadyBeforeShutdown | api/server/server.go:425-443 | no server is shut down before every probe is not ready |
| ServerRun.HookAfterAllReports | api/server/server.go:445-452 | the final hook runs only after every server reported success, once |
| ServerRun.FinishedOutcome | api/server/server.go:445-452 | the hook ran if and only if all reports were successes; otherwise reports were taken up to the first failure |
| ServerHistory.OutcomeOfRun | api/server/server.go:413-453 | over every run, the final hook ran only if the shutdown of every server ended in success and was received; otherwise one that ended in failure was received |
| ServerHistory.ServeNeverHangs | api/server/server.go:413-453 | once the channel is closed there is always a step that brings `Serve` to its end, with no further caller or interrupt |
| ServerHistory.NothingIsHeldUp | api/server/server.go:405-453 | interrupts and calls can come, callers go on, a server may shut down either way, and its report can be taken while the handler waits |
| ServerRun.CollectReports | api/server/server.go:446-449 | the receive loop succeeds if and only if all reports are successes and consumes them up to the first failure |
| ServerRun.ReadyImpliesHealthy | api/server/configure_firebox.go:76-85 | after every single store, a ready probe is healthy |
| ServerRun.UpWhileServing | cmd/server.go:147-148 | while serving, before a shutdown is asked for, every probe is ready and healthy |
| EndToEnd.NoCallDuringClose | api/server/server.go:450-452 | after a graceful shutdown no start call is in progress |
| EndToEnd.CloseIsDeferred | cmd/server.go:144-151 | `Close` runs after `Serve` has returned and ends before the process exits |
| EndToEnd.NothingIsHeldUp | cmd/server.go:144-171 | servers that have not shut down take requests, machines go on at any time, `Close` can begin in its turn, and the process exits after it |
| EndToEnd.GracefulShutdownDrains | cmd/server.go:167-171 | if every server shut down, the process exits with an empty registry, and every machine ever registered was sent one `Stop` or had reported its end |
| EndToEnd.EntryAtExit | pkg/actors/manager/manager.go:81-84 | an entry is in the registry at exit if and only if it was made after `Close` had begun and no notice of its machine was handled since |
| EndToEnd.RegistryEmptyAtExit | pkg/actors/manager/manager.go:94-109 | the registry is empty at exit if and only if every start call that added its machine after `Close` had begun was followed by the notice of that machine |
| EndToEnd.StoppedAtExit | pkg/actors/manager/manager.go:102-106 | at exit a machine of the snapshot that has not exited by itself is stopped if and only if its actor handled the `Stop`; a reply in time means that it did |
| EndToEnd.UpAfterGracefulShutdown | pkg/actors/manager/manager.go:72-109 | after a graceful shutdown a machine is left live if and only if it was launched, its exit was neither handled nor waits to be, and its start call timed out or it was registered and did not answer `Stop`; the same for machines that exited and were not stopped |
| EndToEnd.UnansweredStopLeavesMachine | pkg/actors/manager/manager.go:97-106 | a live one among the registered is reachable: `Close` gives up, deletes the entry, and the process exits while the machine runs |
| EndToEnd.ExitStopsSnapshot | pkg/actors/manager/manager.go:94-109 | at exit exactly the machines of the snapshot were sent a `Stop`, one each, and their entries are gone |
| EndToEnd.FailedShutdownLeavesMachine | pkg/actors/manager/manager.go:94-109 | if a server fails to shut down in time, a live registered machine may be left at exit |
| Prober.Combined.Apply | pkg/prober/combiner.go:14-30 | an operation reaches every probe of the list |
| Prober.Combined.IsReady | pkg/prober/combiner.go:32-42 | ready if and only if every probe is |
| Prober.Combined.IsHealthy | pkg/prober/combiner.go:62-72 | healthy if and only if every probe is |
| Prober.HttpProbe.Apply | pkg/prober/local/http.go:57-75 | each setter changes its own flag only |
| Prober.ProbesAgree | pkg/prober/combiner.go:14-72 | probes changed only together agree and show the last values set |
| Defers.Defers.Add | pkg/utils/defers.go:16-19 | a function added is the first to be executed |
| Defers.Defers.Exec | pkg/utils/defers.go:21-25 | executes all functions once, last added first |
| Defers.LastInFirstOut | pkg/utils/defers.go:16-25 | the position of each function in the execution |
| Base64.RoundTrip | pkg/actors/manager/manager.go:159 | decoding an encoded body gives back the bytes, for every byte sequence |
| Base64.EncodesTheBits | pkg/actors/manager/manager.go:159 | the digits carry exactly the bits of the input, completed with zeros |
| Base64.PaddingIsAtTheEnd | pkg/actors/manager/manager.go:159 | padding completes the last group and everything before it is in the alphabet |
| Base64.EncodedLength | pkg/actors/manager/manager.go:159 | four characters for every three bytes, rounded up |
| Base64.AlphabetIsTheTable | pkg/actors/manager/manager.go:159 | digits and characters correspond as in table 1 of RFC 4648, in both directions |
| Base64.DecodesExactly | pkg/actors/manager/manager.go:198-203 | a body is corrupt if and only if, without its line breaks, it is not whole groups of the alphabet with at most two padding characters at the end; otherwise the bytes are what its digits stand for |
| Base64.OnlyLineBreaksAreSkipped | pkg/actors/manager/manager.go:199 | line breaks are skipped wherever they are, and nothing else |
| Headers.Split | pkg/actors/manager/manager.go:165-180 | single values go to one map and all others, empty lists included, to the other, in every iteration order |
| Headers.SplitPartitions | pkg/actors/manager/manager.go:165-180 | the two maps share no key and have all keys, a key being in the first, with its value, if and only if it has exactly one |
| Headers.Build | pkg/actors/manager/manager.go:217-227 | the header is the result of the additions in the order the maps happened to be walked, and holds exactly the (canonical key, value) pairs of the inputs |
| Headers.BuiltContents | pkg/actors/manager/manager.go:217-227 | with distinct canonical keys each key holds cookies, then the header, then the multi-value header, in every order |
| Headers.OrderDoesNotMatter | pkg/actors/manager/manager.go:220-227 | every iteration order gives the same header if and only if colliding single values are equal and colliding value lists can be swapped |
| Headers.DistinctKeysAreEnough | pkg/actors/manager/manager.go:220-227 | distinct canonical keys within either map make the order irrelevant |
| Headers.CollisionsMakeOrderMatter | pkg/actors/manager/manager.go:220-222 | any two colliding headers with different values have two iteration orders with different results |
| Headers.MultiCollisionsMakeOrderMatter | pkg/actors/manager/manager.go:223-227 | the same for two colliding multi-value headers whose lists cannot be swapped |
| Headers.SplitMergeRoundTrip | pkg/actors/manager/manager.go:165-227 | split and merge give back the header in every order if and only if its keys are canonical and no list is empty |
| Headers.HeaderConservation | pkg/actors/manager/manager.go:217-227 | for all keys and orders the header has exactly the (canonical key, value) pairs of the three inputs |
| Invoke.ToHttpResponse | pkg/actors/manager/manager.go:152-192 | the model of a response, whose body decodes to the payload |
| Invoke.ToHttpRequest | pkg/actors/manager/manager.go:194-229 | corrupt bodies and unacceptable requests fail in that order; otherwise method, path, query, address and body are the given ones and the header holds exactly the pairs of cookies, headers and multi-value headers |
| Invoke.BodyRoundTrip | pkg/actors/manager/manager.go:198-206 | a response body sent back as a request yields the same bytes; the empty one takes the other branch |
| Invoke.ModelRoundTrip | pkg/actors/manager/manager.go:152-229 | body and header of a response survive the way back if and only if keys are canonical and no list is empty |

## Left out

- The Firecracker SDK, CNI plugin, file system and jailer calls succeed or fail arbitrarily.
- Socket paths, random interface names and the rest of the machine configuration.
- HTTP transport, TLS, listeners, generated models, routing of requests to handlers and the echo server.
- Command line flags, configuration loading and logging.
- Restarts by actor supervision, for which the source has only a placeholder.
- `Fatalf` and crashes, which end the process without deferred calls.
- Cookies of a response: their parsing and printing is library code, so they are given strings. A round trip of a response sends no cookies.
- Manager.VMMManager.GetServiceIP: any ready machine may be returned; nothing is said about how often each one is.
- Manager.VMMManager.Close: the method is sequential; what other goroutines do to the registry is a parameter and happens between its steps. All interleavings are in the lifecycle system.
- Invoke.ToHttpRequest: escaping and printing the URL is library code; the library's check of method and URL is a parameter.
- Manager.VMMManager.StartVMM: the result of its future is a parameter; where it comes from is in the lifecycle system.
- Headers.Split: a missing map and an empty map are not distinguished.
- Timeout durations in the lifecycle: a future may time out at any moment; only the detection latency counts seconds.
- Liveness beyond the steps that are shown never to block: no fairness is assumed.
