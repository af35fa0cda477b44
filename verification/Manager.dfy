/** The manager itself: its mailbox handler, its calls from request handlers, and `Close`. */
module Manager {
  import opened Wrappers
  import opened Registry
  import opened Lifecycle
  import opened Probe

  /** What the future of a start request delivers in the end. */
  datatype StartResult = Started(id: VmId, ip: Ip) | Failed | NoAnswer | Unexpected

  datatype StartError = MachineFailed | FutureFailed | AddFailed(error: AddError) | UnexpectedMessage

  /** What a message does to the registry. */
  function Received(m: Machines, n: Notice): Machines {
    match n
    case StoppedNotice(id, _) => Removed(m, id)
    case ReadinessNotice(id, _, v) => Marked(m, id, v == Ready)
  }

  /** What the end of a start call does to the registry: a started machine is added, if that is possible. */
  function AfterStart(m: Machines, pid: Pid, result: StartResult): Machines {
    match result
    case Started(id, ip) =>
      (match Added(m, id, Some(pid), ip)
       case Success(added) => added
       case Failure(_) => m)
    case _ => m
  }

  /** What others do to the registry while `Close` runs: the mailbox handler, and start calls that end. */
  datatype Event = Handles(notice: Notice) | Returns(pid: Pid, result: StartResult)

  function Happened(m: Machines, e: Event): Machines {
    match e
    case Handles(n) => Received(m, n)
    case Returns(pid, result) => AfterStart(m, pid, result)
  }

  function AllHappened(m: Machines, events: seq<Event>): Machines {
    if events == [] then m
    else Happened(AllHappened(m, events[..|events| - 1]), events[|events| - 1])
  }

  /** What happens during iteration `i` of `Close`. */
  function During(meanwhile: seq<seq<Event>>, i: nat): seq<Event> {
    if i < |meanwhile| then meanwhile[i] else []
  }

  /** The registry after `Close` has gone through these entries. */
  function Closing(m: Machines, entries: seq<Entry>, meanwhile: seq<seq<Event>>): Machines {
    if entries == [] then m
    else
      var n := |entries| - 1;
      Removed(AllHappened(Closing(m, entries[..n], meanwhile), During(meanwhile, n)), entries[n].vmid)
  }

  /** One of these events is a start call that ends with a started machine of this id. */
  ghost predicate Adds(events: seq<Event>, id: VmId) {
    exists i :: 0 <= i < |events| && events[i].Returns? && events[i].result.Started? && events[i].result.id == id
  }

  ghost predicate AddedMeanwhile(meanwhile: seq<seq<Event>>, id: VmId) {
    exists i: nat :: Adds(During(meanwhile, i), id)
  }

  /** Only the end of a start call brings an id into the registry. */
  lemma {:induction false} NewWasAdded(m: Machines, events: seq<Event>, id: VmId)
    requires id in AllHappened(m, events)
    ensures id in m || Adds(events, id)
  {
    if events == [] {
    } else {
      var n := |events| - 1;
      if id in AllHappened(m, events[..n]) {
        NewWasAdded(m, events[..n], id);
        if id !in m {
          var i :| 0 <= i < n && events[..n][i].Returns? && events[..n][i].result.Started? && events[..n][i].result.id == id;
          assert events[i] == events[..n][i];
        }
      } else {
        assert events[n].Returns? && events[n].result.Started? && events[n].result.id == id;
      }
    }
  }

  /** What `Close` leaves was not in the part of the snapshot it has gone through, or came meanwhile. */
  lemma {:induction false} LeftWasAdded(m: Machines, entries: seq<Entry>, meanwhile: seq<seq<Event>>, id: VmId)
    requires id in Closing(m, entries, meanwhile)
    ensures AddedMeanwhile(meanwhile, id) || (id in m && forall i :: 0 <= i < |entries| ==> entries[i].vmid != id)
  {
    hide Happened, Adds;
    if entries == [] {
    } else {
      var n := |entries| - 1;
      var before := Closing(m, entries[..n], meanwhile);
      NewWasAdded(before, During(meanwhile, n), id);
      if id in before {
        LeftWasAdded(m, entries[..n], meanwhile, id);
      }
    }
  }

  /** After all of the snapshot, only what came meanwhile is left. */
  lemma OnlyAddedAreLeft(m: Machines, entries: seq<Entry>, meanwhile: seq<seq<Event>>, id: VmId)
    requires WellFormed(m) && IsSnapshot(m, entries) && id in Closing(m, entries, meanwhile)
    ensures AddedMeanwhile(meanwhile, id)
  {
    LeftWasAdded(m, entries, meanwhile, id);
    if id in m {
      assert m[id] in entries && m[id].vmid == id;
      var i :| 0 <= i < |entries| && entries[i] == m[id];
      assert entries[i].vmid == id;
    }
  }

  function Pids(entries: seq<Entry>): seq<Pid> {
    if entries == [] then [] else Pids(entries[..|entries| - 1]) + [entries[|entries| - 1].pid]
  }

  lemma {:induction false} PidsInOrder(entries: seq<Entry>)
    ensures |Pids(entries)| == |entries|
    ensures forall i :: 0 <= i < |entries| ==> Pids(entries)[i] == entries[i].pid
  {
    if entries == [] {
    } else {
      PidsInOrder(entries[..|entries| - 1]);
    }
  }

  lemma OneEntryMore(m: Machines, entries: seq<Entry>, i: nat, meanwhile: seq<seq<Event>>)
    requires i < |entries|
    ensures Closing(m, entries[..i + 1], meanwhile)
            == Removed(AllHappened(Closing(m, entries[..i], meanwhile), During(meanwhile, i)), entries[i].vmid)
    ensures Pids(entries[..i + 1]) == Pids(entries[..i]) + [entries[i].pid]
  {
    assert entries[..i + 1][..i] == entries[..i];
    hide AllHappened, Removed;
  }

  class VMMManager {
    const db: Db
    /** The actors that were sent `Start`, and those that were sent `Stop`, in order. */
    var starts: seq<Pid>
    var stops: seq<Pid>

    constructor ()
      ensures fresh(db) && db.Valid() && db.machines == map[] && starts == stops == []
    {
      db := new Db();
      starts, stops := [], [];
    }

    /** The mailbox handler; only the id in a message matters to the registry. */
    method Receive(n: Notice)
      requires db.Valid()
      modifies db
      ensures db.Valid()
      ensures db.machines == Received(old(db.machines), n)
      ensures n.StoppedNotice? ==>
                && db.machines.Keys == old(db.machines).Keys - {n.id}
                && forall id :: id in db.machines ==> db.machines[id] == old(db.machines)[id]
      ensures n.ReadinessNotice? ==>
                && db.machines.Keys == old(db.machines).Keys
                && forall id :: id in db.machines ==>
                                  db.machines[id] == if id == n.id then old(db.machines)[id].(ready := n.verdict == Probe.Ready)
                                                     else old(db.machines)[id]
    {
      match n {
        case StoppedNotice(id, _) =>
          var _ := db.Del(id);
        case ReadinessNotice(id, _, verdict) =>
          match verdict {
            case Ready => db.Ready(id, true);
            case Unready => db.Ready(id, false);
          }
      }
    }

    /** `pid` is the actor that gets spawned, and `result` what its future delivers. */
    method StartVMM(pid: Pid, result: StartResult) returns (r: Result<(VmId, Ip), StartError>)
      requires db.Valid()
      modifies db, `starts
      ensures db.Valid()
      ensures starts == old(starts) + [pid]
      ensures db.machines == AfterStart(old(db.machines), pid, result)
      ensures r.Success? <==> result.Started? && Added(old(db.machines), result.id, Some(pid), result.ip).Success?
      ensures r.Success? ==>
                && r.value == (result.id, result.ip) && result.id != "" && result.id !in old(db.machines)
                && db.machines == old(db.machines)[result.id := Entry(result.id, pid, result.ip, false)]
      ensures r.Failure? ==> db.machines == old(db.machines)
      ensures r.Failure? ==>
                r.error == match result
                           case Started(id, ip) => AddFailed(Added(old(db.machines), id, Some(pid), ip).error)
                           case Failed => MachineFailed
                           case NoAnswer => FutureFailed
                           case Unexpected => UnexpectedMessage
    {
      starts := starts + [pid];
      match result {
        case Started(id, ip) =>
          var error := db.Add(id, Some(pid), ip);
          if error.Some? {
            return Failure(AddFailed(error.value));
          }
          return Success((id, ip));
        case Failed => return Failure(MachineFailed);
        case NoAnswer => return Failure(FutureFailed);
        case Unexpected => return Failure(UnexpectedMessage);
      }
    }

    /** A request goes to any machine that is marked ready. */
    method GetServiceIP() returns (r: Option<Ip>)
      requires db.Valid()
      ensures r.None? <==> forall id :: id in db.machines ==> !db.machines[id].ready
      ensures r.Some? ==> exists id :: id in db.machines && db.machines[id].ready && db.machines[id].ip == r.value
    {
      var entries := db.Entries();
      var ready: seq<Entry> := [];
      for i := 0 to |entries|
        invariant forall j :: 0 <= j < |ready| ==>
                                ready[j].ready && ready[j].vmid in db.machines && db.machines[ready[j].vmid] == ready[j]
        invariant forall j :: 0 <= j < i && entries[j].ready ==> entries[j] in ready
      {
        if entries[i].ready {
          ready := ready + [entries[i]];
        }
      }
      if |ready| == 0 {
        assert forall id :: id in db.machines ==> db.machines[id] in entries;
        return None;
      }
      var k :| 0 <= k < |ready|;
      assert ready[k].vmid in db.machines && db.machines[ready[k].vmid].ready;
      return Some(ready[k].ip);
    }

    /** What others do, one event after the other. */
    method PerformAll(events: seq<Event>)
      requires db.Valid()
      modifies db, `starts
      ensures db.Valid()
      ensures db.machines == AllHappened(old(db.machines), events)
    {
      for i := 0 to |events|
        invariant db.Valid() && db.machines == AllHappened(old(db.machines), events[..i])
      {
        assert events[..i + 1][..i] == events[..i];
        match events[i] {
          case Handles(n) => Receive(n);
          case Returns(pid, result) => var _ := StartVMM(pid, result);
        }
      }
      assert events[..|events|] == events;
    }

    /** The loop of `Close` over its snapshot. */
    method StopAll(entries: seq<Entry>, meanwhile: seq<seq<Event>>)
      requires db.Valid()
      modifies db, `starts, `stops
      ensures db.Valid()
      ensures stops == old(stops) + Pids(entries)
      ensures db.machines == Closing(old(db.machines), entries, meanwhile)
    {
      assert entries[..0] == [];
      for i := 0 to |entries|
        invariant db.Valid()
        invariant stops == old(stops) + Pids(entries[..i])
        invariant db.machines == Closing(old(db.machines), entries[..i], meanwhile)
      {
        hide *;
        OneEntryMore(old(db.machines), entries, i, meanwhile);
        stops := stops + [entries[i].pid];
        PerformAll(During(meanwhile, i));
        var _ := db.Del(entries[i].vmid);
      }
      assert entries[..|entries|] == entries;
    }

    /**
     `Close`, while `meanwhile[i]` happens during iteration `i`. Whether a future fails is only logged.
     Every entry of the snapshot is sent one `Stop`, in order, and what is left in the registry was added
     meanwhile: nothing, if no start call ended.
     */
    method Close(meanwhile: seq<seq<Event>>) returns (entries: seq<Entry>)
      requires db.Valid()
      modifies db, `starts, `stops
      ensures db.Valid()
      ensures IsSnapshot(old(db.machines), entries) && |entries| == |old(db.machines)|
      ensures |stops| == |old(stops)| + |entries| && stops[..|old(stops)|] == old(stops)
      ensures forall i :: 0 <= i < |entries| ==> stops[|old(stops)| + i] == entries[i].pid
      ensures db.machines == Closing(old(db.machines), entries, meanwhile)
      ensures forall id :: id in db.machines ==> AddedMeanwhile(meanwhile, id)
    {
      entries := db.Entries();
      StopAll(entries, meanwhile);
      PidsInOrder(entries);
      assert WellFormed(old(db.machines));
      hide *;
      forall id | id in db.machines
        ensures AddedMeanwhile(meanwhile, id)
      {
        OnlyAddedAreLeft(old(db.machines), entries, meanwhile, id);
      }
    }
  }

  // ---------- the lifecycle system uses these very operations ----------

  /** Where the system lets the manager handle a message, its registry changes as `Receive` changes it. */
  lemma SystemReceives(s: State)
    requires Enabled(s, ManagerReceives)
    ensures Apply(s, ManagerReceives).db == Received(s.db, s.box[0])
    ensures Apply(s, ManagerReceives).box == s.box[1..]
  {
    assert s.box[0].id !in s.db ==> Removed(s.db, s.box[0].id) == s.db;
  }

  /** What the future of a start call delivers where the system lets that call end. */
  function ResultOf(a: Actor, x: Action): StartResult {
    if x.CallTimesOut? then NoAnswer else if a.call.GotStarted? then Started(a.vmid, a.ip) else StartResult.Failed
  }

  /** How the caller learns of it. */
  function Ended(m: Machines, p: Pid, result: StartResult): Call {
    match result
    case Started(id, ip) => if Added(m, id, Some(p), ip).Success? then Tracked else Rejected
    case NoAnswer => TimedOut
    case _ => Refused
  }

  /** Where the system lets a start call end, with an answer or without, the registry changes as in `StartVMM`. */
  lemma SystemAdds(s: State, x: Action)
    requires Enabled(s, x) && (x.CallReturns? || x.CallTimesOut?)
    ensures x.pid in s.actors
    ensures var result := ResultOf(s.actors[x.pid], x);
            && Apply(s, x).db == AfterStart(s.db, x.pid, result)
            && Apply(s, x).actors[x.pid].call == Ended(s.db, x.pid, result)
  {
  }
}
