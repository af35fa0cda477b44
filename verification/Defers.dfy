/** Deferred calls: a list of functions, executed last in, first out. */
module Defers {

  /** A deferred function is known by a name; executing it is recorded. */
  type Task = nat

  function Reversed(ts: seq<Task>): (r: seq<Task>)
    ensures |r| == |ts|
  {
    if ts == [] then [] else Reversed(ts[1..]) + [ts[0]]
  }

  lemma {:induction false} ReversedAppend(ts: seq<Task>, t: Task)
    ensures Reversed(ts + [t]) == [t] + Reversed(ts)
  {
    if ts == [] {
    } else {
      assert (ts + [t])[1..] == ts[1..] + [t];
      ReversedAppend(ts[1..], t);
    }
  }

  class Defers {
    var fs: seq<Task>
    var executed: seq<Task>
    /** The functions in the order they were added. */
    ghost var added: seq<Task>

    ghost predicate Valid()
      reads this
    {
      fs == Reversed(added)
    }

    constructor ()
      ensures Valid() && added == [] && executed == []
    {
      fs, executed, added := [], [], [];
    }

    method Add(f: Task)
      requires Valid()
      modifies this
      ensures Valid() && added == old(added) + [f] && executed == old(executed)
    {
      ReversedAppend(added, f);
      fs := [f] + fs;
      added := added + [f];
    }

    method Exec()
      requires Valid()
      modifies `executed
      ensures Valid() && executed == old(executed) + Reversed(added)
    {
      for i := 0 to |fs|
        invariant executed == old(executed) + fs[..i]
      {
        executed := executed + [fs[i]];
      }
    }
  }

  /** The function added as number `k` is executed as number `k` from the end. */
  lemma {:induction false} LastInFirstOut(ts: seq<Task>, k: nat)
    requires k < |ts|
    ensures Reversed(ts)[|ts| - 1 - k] == ts[k]
  {
    if k == 0 {
    } else {
      LastInFirstOut(ts[1..], k - 1);
    }
  }
}
