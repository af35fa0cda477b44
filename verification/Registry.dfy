/** The manager's registry of machines: a map updated in place under a mutex, one operation at a time. */
module Registry {
  import opened Wrappers

  type VmId = string
  type Pid = nat
  type Ip = string

  datatype Entry = Entry(vmid: VmId, pid: Pid, ip: Ip, ready: bool)

  type Machines = map<VmId, Entry>

  datatype AddError = EmptyId | NilPid | AlreadyAdded

  /** Entries are filed under their own, non-empty id. */
  ghost predicate WellFormed(m: Machines) {
    forall id :: id in m ==> m[id].vmid == id && id != ""
  }

  function Added(m: Machines, vmid: VmId, pid: Option<Pid>, ip: Ip): Result<Machines, AddError> {
    if vmid == "" then Failure(EmptyId)
    else if pid.None? then Failure(NilPid)
    else if vmid in m then Failure(AlreadyAdded)
    else Success(m[vmid := Entry(vmid, pid.value, ip, false)])
  }

  function Removed(m: Machines, vmid: VmId): Machines {
    m - {vmid}
  }

  function Marked(m: Machines, vmid: VmId, ready: bool): Machines {
    if vmid in m then m[vmid := m[vmid].(ready := ready)] else m
  }

  /** `r` lists every entry of `m` exactly once, in some order. */
  ghost predicate IsSnapshot(m: Machines, r: seq<Entry>) {
    && (forall i :: 0 <= i < |r| ==> r[i].vmid in m && m[r[i].vmid] == r[i])
    && (forall id :: id in m ==> m[id] in r)
    && (forall i, j :: 0 <= i < j < |r| ==> r[i].vmid != r[j].vmid)
  }

  class Db {
    var machines: Machines

    ghost predicate Valid()
      reads this
    {
      WellFormed(machines)
    }

    constructor ()
      ensures Valid() && machines == map[]
    {
      machines := map[];
    }

    method Find(vmid: VmId) returns (e: Option<Entry>)
      requires Valid()
      ensures e.None? <==> vmid !in machines
      ensures e.Some? ==> e.value.vmid == vmid && e.value == machines[vmid]
    {
      if vmid !in machines {
        return None;
      }
      return Some(machines[vmid]);
    }

    /** The map is walked in an arbitrary order. */
    method Entries() returns (result: seq<Entry>)
      requires Valid()
      ensures IsSnapshot(machines, result) && |result| == |machines|
    {
      result := [];
      var left := machines.Keys;
      assert |left| == |machines|;
      while left != {}
        invariant left <= machines.Keys
        invariant |result| + |left| == |machines|
        invariant forall i :: 0 <= i < |result| ==>
                                && result[i].vmid in machines && result[i].vmid !in left
                                && machines[result[i].vmid] == result[i]
        invariant forall id :: id in machines && id !in left ==> machines[id] in result
        invariant forall i, j :: 0 <= i < j < |result| ==> result[i].vmid != result[j].vmid
        decreases left
      {
        var id :| id in left;
        result := result + [machines[id]];
        left := left - {id};
      }
    }

    method Add(vmid: VmId, pid: Option<Pid>, ip: Ip) returns (error: Option<AddError>)
      requires Valid()
      modifies this
      ensures Valid()
      ensures match Added(old(machines), vmid, pid, ip)
              case Success(m) => error == None && machines == m
              case Failure(e) => error == Some(e) && machines == old(machines)
      ensures error == Some(EmptyId) <==> vmid == ""
      ensures error == Some(NilPid) <==> vmid != "" && pid.None?
      ensures error == Some(AlreadyAdded) <==> vmid != "" && pid.Some? && vmid in old(machines)
      ensures error == None ==>
                && machines.Keys == old(machines).Keys + {vmid} && machines[vmid] == Entry(vmid, pid.value, ip, false)
                && forall id :: id in old(machines) ==> machines[id] == old(machines)[id]
    {
      if vmid == "" {
        return Some(EmptyId);
      }
      if pid.None? {
        return Some(NilPid);
      }
      if vmid in machines {
        return Some(AlreadyAdded);
      }
      machines := machines[vmid := Entry(vmid, pid.value, ip, false)];
      return None;
    }

    method Del(vmid: VmId) returns (pid: Option<Pid>)
      requires Valid()
      modifies this
      ensures Valid() && machines == Removed(old(machines), vmid)
      ensures machines.Keys == old(machines).Keys - {vmid}
      ensures forall id :: id in machines ==> machines[id] == old(machines)[id]
      ensures pid == if vmid in old(machines) then Some(old(machines)[vmid].pid) else None
    {
      if vmid in machines {
        pid := Some(machines[vmid].pid);
        machines := machines - {vmid};
      } else {
        pid := None;
      }
    }

    method Ready(vmid: VmId, ready: bool)
      requires Valid()
      modifies this
      ensures Valid() && machines == Marked(old(machines), vmid, ready) && machines.Keys == old(machines).Keys
      ensures forall id :: id in machines ==>
                machines[id] == if id == vmid then old(machines)[id].(ready := ready) else old(machines)[id]
    {
      if vmid in machines {
        var e := machines[vmid];
        machines := machines[vmid := e.(ready := ready)];
      }
    }
  }

  lemma RemovedSize(m: Machines, vmid: VmId)
    ensures |Removed(m, vmid)| == |m| - if vmid in m then 1 else 0
  {
    assert Removed(m, vmid).Keys == m.Keys - {vmid};
  }

  lemma AddedSize(m: Machines, vmid: VmId, e: Entry)
    requires vmid !in m
    ensures |m[vmid := e]| == |m| + 1
  {
    assert m[vmid := e].Keys == m.Keys + {vmid};
  }

  /** A snapshot of a registry without an id is a snapshot without that id. */
  lemma SnapshotSkips(m: Machines, r: seq<Entry>, vmid: VmId)
    requires IsSnapshot(m, r) && vmid !in m
    ensures forall i :: 0 <= i < |r| ==> r[i].vmid != vmid
  {
  }

  /** Marking never brings an entry back and touches nothing but the flag of that entry. */
  lemma MarkedKeepsKeys(m: Machines, vmid: VmId, ready: bool)
    ensures Marked(m, vmid, ready).Keys == m.Keys
    ensures forall id :: id in m ==> Marked(m, vmid, ready)[id] == if id == vmid then m[id].(ready := ready) else m[id]
  {
  }
}
