/** Readiness and health of the server: single probes with two flags, and lists of them set together. */
module Prober {

  datatype Flags = Flags(ready: bool, healthy: bool)

  const DOWN := Flags(false, false)

  datatype Op = SetReady | SetNotReady | SetHealthy | SetNotHealthy

  function Set(f: Flags, op: Op): Flags {
    match op
    case SetReady => f.(ready := true)
    case SetNotReady => f.(ready := false)
    case SetHealthy => f.(healthy := true)
    case SetNotHealthy => f.(healthy := false)
  }

  function SetAll(fs: seq<Flags>, op: Op): seq<Flags> {
    seq(|fs|, i requires 0 <= i < |fs| => Set(fs[i], op))
  }

  class HttpProbe {
    var ready: bool
    var healthy: bool

    constructor ()
      ensures Contents() == DOWN
    {
      ready, healthy := false, false;
    }

    ghost function Contents(): Flags
      reads this
    {
      Flags(ready, healthy)
    }

    method Apply(op: Op)
      modifies this
      ensures Contents() == Set(old(Contents()), op)
      ensures ready == (op == SetReady || (old(ready) && op != SetNotReady))
      ensures healthy == (op == SetHealthy || (old(healthy) && op != SetNotHealthy))
    {
      match op {
        case SetReady => ready := true;
        case SetNotReady => ready := false;
        case SetHealthy => healthy := true;
        case SetNotHealthy => healthy := false;
      }
    }
  }

  /** A probe that passes every operation on to a list of probes, the same probe possibly twice. */
  class Combined {
    const probes: seq<HttpProbe>

    constructor (probes: seq<HttpProbe>)
      ensures this.probes == probes
    {
      this.probes := probes;
    }

    ghost function Contents(): seq<Flags>
      reads this, probes
    {
      seq(|probes|, i requires 0 <= i < |probes| reads this, probes => probes[i].Contents())
    }

    method Apply(op: Op)
      modifies probes
      ensures Contents() == SetAll(old(Contents()), op)
    {
      for i := 0 to |probes|
        invariant forall j :: 0 <= j < |probes| ==>
                                probes[j].Contents() == old(probes[j].Contents())
                                || probes[j].Contents() == Set(old(probes[j].Contents()), op)
        invariant forall j :: 0 <= j < i ==> probes[j].Contents() == Set(old(probes[j].Contents()), op)
      {
        probes[i].Apply(op);
      }
    }

    method IsReady() returns (b: bool)
      ensures b <==> forall i :: 0 <= i < |probes| ==> Contents()[i].ready
    {
      for i := 0 to |probes|
        invariant forall j :: 0 <= j < i ==> Contents()[j].ready
      {
        if !probes[i].ready {
          assert !Contents()[i].ready;
          return false;
        }
      }
      return true;
    }

    method IsHealthy() returns (b: bool)
      ensures b <==> forall i :: 0 <= i < |probes| ==> Contents()[i].healthy
    {
      for i := 0 to |probes|
        invariant forall j :: 0 <= j < i ==> Contents()[j].healthy
      {
        if !probes[i].healthy {
          assert !Contents()[i].healthy;
          return false;
        }
      }
      return true;
    }
  }

  // ---------- whole histories of operations ----------

  /** The flags of `n` new probes after a history of operations on all of them. */
  function Run(n: nat, ops: seq<Op>): seq<Flags> {
    if ops == [] then seq(n, _ => DOWN)
    else SetAll(Run(n, ops[..|ops| - 1]), ops[|ops| - 1])
  }

  /** The value the last readiness operation of a history set; not ready before the first. */
  function LastReady(ops: seq<Op>): bool {
    if ops == [] then false
    else
      match ops[|ops| - 1]
      case SetReady => true
      case SetNotReady => false
      case _ => LastReady(ops[..|ops| - 1])
  }

  function LastHealthy(ops: seq<Op>): bool {
    if ops == [] then false
    else
      match ops[|ops| - 1]
      case SetHealthy => true
      case SetNotHealthy => false
      case _ => LastHealthy(ops[..|ops| - 1])
  }

  /**
   Probes that change only together always agree, and each shows the last values set. Hence the
   combined probe reports them too, except that a combination of no probes is always ready and healthy.
   */
  lemma {:induction false} ProbesAgree(n: nat, ops: seq<Op>)
    ensures Run(n, ops) == seq(n, _ => Flags(LastReady(ops), LastHealthy(ops)))
    ensures (forall f :: f in Run(n, ops) ==> f.ready) <==> n == 0 || LastReady(ops)
    ensures (forall f :: f in Run(n, ops) ==> f.healthy) <==> n == 0 || LastHealthy(ops)
  {
    if ops == [] {
    } else {
      ProbesAgree(n, ops[..|ops| - 1]);
    }
    if n == 0 {
    } else {
      var r := Run(n, ops);
      assert r[0] in r && r[0] == Flags(LastReady(ops), LastHealthy(ops));
    }
  }
}
