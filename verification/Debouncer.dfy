/**
 The readiness debouncer of a machine: a two-behaviour automaton with one shared counter that
 forwards a verdict to the manager only when it overturns the current behaviour.
 */
module Debouncer {
  import opened Wrappers
  import opened Probe

  datatype State = State(behavior: Verdict, counter: Int32)

  const INITIAL := State(Unready, 0)

  /** What handling one verdict does: the new state, and whether the verdict is forwarded. */
  function Step(spec: ProbeSpec, s: State, v: Verdict): (State, bool) {
    if v == s.behavior then
      (s, false)
    else
      var c := Increment(s.counter);
      if c >= Threshold(spec, v) then (State(v, 0), true) else (s.(counter := c), false)
  }

  /** The counter is never negative and stays below what the next change needs. */
  predicate InRange(spec: ProbeSpec, s: State) {
    0 <= s.counter < Effective(spec, Opposite(s.behavior))
  }

  /** The actor itself, with the messages it has forwarded to the manager. */
  class ReadinessActor {
    const spec: ProbeSpec
    var behavior: Verdict
    var counter: Int32
    var forwarded: seq<Verdict>

    ghost function Contents(): State
      reads this
    {
      State(behavior, counter)
    }

    constructor (spec: ProbeSpec)
      ensures this.spec == spec && Contents() == INITIAL && forwarded == []
    {
      this.spec := spec;
      behavior, counter, forwarded := Unready, 0, [];
    }

    /** Dispatches to the current behaviour; `None` stands for every other message. */
    method Receive(message: Option<Verdict>)
      modifies this
      ensures message.None? ==> Contents() == old(Contents()) && forwarded == old(forwarded)
      ensures message.Some? ==>
                && Contents() == Step(spec, old(Contents()), message.value).0
                && forwarded == old(forwarded)
                   + if Step(spec, old(Contents()), message.value).1 then [message.value] else []
      ensures message == Some(old(behavior)) ==> Contents() == old(Contents()) && forwarded == old(forwarded)
      ensures old(behavior) == Ready && message == Some(Unready) ==>
                if Increment(old(counter)) >= spec.failureThreshold
                then behavior == Unready && counter == 0 && forwarded == old(forwarded) + [Unready]
                else behavior == Ready && counter == Increment(old(counter)) && forwarded == old(forwarded)
      ensures old(behavior) == Unready && message == Some(Ready) ==>
                if Increment(old(counter)) >= spec.successThreshold
                then behavior == Ready && counter == 0 && forwarded == old(forwarded) + [Ready]
                else behavior == Unready && counter == Increment(old(counter)) && forwarded == old(forwarded)
    {
      match behavior {
        case Unready => WhileUnready(message);
        case Ready => WhileReady(message);
      }
    }

    method WhileUnready(message: Option<Verdict>)
      requires behavior == Unready
      modifies this
      ensures message != Some(Ready) ==> Contents() == old(Contents()) && forwarded == old(forwarded)
      ensures message == Some(Ready) ==>
                && Contents() == Step(spec, old(Contents()), Ready).0
                && forwarded == old(forwarded) + if Contents().behavior == Ready then [Ready] else []
    {
      if message == Some(Ready) {
        counter := Increment(counter);
        if counter >= spec.successThreshold {
          behavior := Ready;
          counter := 0;
          forwarded := forwarded + [Ready];
        }
      }
    }

    method WhileReady(message: Option<Verdict>)
      requires behavior == Ready
      modifies this
      ensures message != Some(Unready) ==> Contents() == old(Contents()) && forwarded == old(forwarded)
      ensures message == Some(Unready) ==>
                && Contents() == Step(spec, old(Contents()), Unready).0
                && forwarded == old(forwarded) + if Contents().behavior == Unready then [Unready] else []
    {
      if message == Some(Unready) {
        counter := Increment(counter);
        if counter >= spec.failureThreshold {
          behavior := Unready;
          counter := 0;
          forwarded := forwarded + [Unready];
        }
      }
    }
  }

  // ---------- whole probe histories ----------

  /** The state after a history of verdicts. */
  function RunFrom(spec: ProbeSpec, s: State, h: seq<Verdict>): State {
    if h == [] then s
    else Step(spec, RunFrom(spec, s, h[..|h| - 1]), h[|h| - 1]).0
  }

  /** The verdicts forwarded to the manager over a history: one for each behaviour change. */
  function Forwarded(spec: ProbeSpec, s: State, h: seq<Verdict>): seq<Verdict> {
    if h == [] then []
    else
      var before := h[..|h| - 1];
      var v := h[|h| - 1];
      Forwarded(spec, s, before) + if Step(spec, RunFrom(spec, s, before), v).1 then [v] else []
  }

  /** How many times verdict `v` was handled while the behaviour was the opposite one. */
  function Contradictions(spec: ProbeSpec, s: State, h: seq<Verdict>, v: Verdict): nat {
    if h == [] then 0
    else
      var before := h[..|h| - 1];
      Contradictions(spec, s, before, v)
      + if h[|h| - 1] == v && RunFrom(spec, s, before).behavior != v then 1 else 0
  }

  lemma StepKeepsRange(spec: ProbeSpec, s: State, v: Verdict)
    requires InRange(spec, s)
    ensures InRange(spec, Step(spec, s, v).0)
    ensures Increment(s.counter) == s.counter + 1
    ensures Step(spec, s, v).1 <==> v != s.behavior && s.counter + 1 == Effective(spec, v)
  {
  }

  /** Whatever the thresholds, the 32-bit counter never leaves its range, so it never wraps. */
  lemma {:induction false} CounterNeverWraps(spec: ProbeSpec, h: seq<Verdict>)
    ensures InRange(spec, RunFrom(spec, INITIAL, h))
    ensures Increment(RunFrom(spec, INITIAL, h).counter) == RunFrom(spec, INITIAL, h).counter + 1
  {
    if h == [] {
    } else {
      CounterNeverWraps(spec, h[..|h| - 1]);
      StepKeepsRange(spec, RunFrom(spec, INITIAL, h[..|h| - 1]), h[|h| - 1]);
    }
  }

  /** The verdict that position `i` of the forwarded sequence has to carry. */
  function Alternating(i: nat): Verdict {
    if i % 2 == 0 then Ready else Unready
  }

  /** Forwarded verdicts alternate, starting with `Ready`; the behaviour is the last one forwarded. */
  lemma {:induction false} ForwardedAlternates(spec: ProbeSpec, h: seq<Verdict>)
    ensures var f := Forwarded(spec, INITIAL, h);
            && (forall i :: 0 <= i < |f| ==> f[i] == Alternating(i))
            && RunFrom(spec, INITIAL, h).behavior == Alternating(|f| + 1)
  {
    if h == [] {
    } else {
      ForwardedAlternates(spec, h[..|h| - 1]);
    }
  }

  lemma MultipleOfNext(a: nat, k: nat)
    ensures a * (k + 1) == a * k + a
  {
  }

  /** What `t` changes have cost in verdicts `v`. */
  function Spent(spec: ProbeSpec, v: Verdict, t: nat): nat {
    Effective(spec, v) * if v == Ready then (t + 1) / 2 else t / 2
  }

  /** A change from the opposite of `v`, the one after `t` others, costs one more threshold of `v` and nothing else. */
  lemma SpentOnNextChange(spec: ProbeSpec, v: Verdict, t: nat)
    requires Alternating(t + 1) == Opposite(v)
    ensures Spent(spec, v, t + 1) == Spent(spec, v, t) + Effective(spec, v)
    ensures Spent(spec, Opposite(v), t + 1) == Spent(spec, Opposite(v), t)
  {
    if v == Ready {
      assert (t + 2) / 2 == t / 2 + 1 && (t + 1) / 2 == t / 2;
      MultipleOfNext(Effective(spec, Ready), t / 2);
    } else {
      assert (t + 2) / 2 == (t + 1) / 2 == t / 2 + 1;
      MultipleOfNext(Effective(spec, Unready), t / 2);
    }
  }

  /** What is on the counter when `v` contradicts the behaviour. */
  function Pending(s: State, v: Verdict): nat
    requires s.counter >= 0
  {
    if s.behavior == v then 0 else s.counter
  }

  /** One verdict `v` adds to its own account what it contradicts, and nothing to the other one. */
  lemma VerdictIsAccountedFor(spec: ProbeSpec, s: State, v: Verdict, t: nat)
    requires InRange(spec, s) && s.behavior == Alternating(t + 1)
    ensures var (s', changed) := Step(spec, s, v);
            var t' := if changed then t + 1 else t;
            && s'.counter >= 0
            && Spent(spec, v, t') + Pending(s', v)
               == Spent(spec, v, t) + Pending(s, v) + (if s.behavior != v then 1 else 0)
            && Spent(spec, Opposite(v), t') + Pending(s', Opposite(v))
               == Spent(spec, Opposite(v), t) + Pending(s, Opposite(v))
  {
    StepKeepsRange(spec, s, v);
    if Step(spec, s, v).1 {
      SpentOnNextChange(spec, v, t);
    }
    hide Spent, Effective, Alternating;
  }

  lemma {:induction false} Accounts(spec: ProbeSpec, h: seq<Verdict>, v: Verdict)
    ensures RunFrom(spec, INITIAL, h).counter >= 0
    ensures Contradictions(spec, INITIAL, h, v)
            == Spent(spec, v, |Forwarded(spec, INITIAL, h)|) + Pending(RunFrom(spec, INITIAL, h), v)
  {
    CounterNeverWraps(spec, h);
    if h == [] {
    } else {
      var before := h[..|h| - 1];
      assert RunFrom(spec, INITIAL, h).counter >= 0;
      hide Effective, Step, Pending, Alternating, Spent;
      Accounts(spec, before, v);
      CounterNeverWraps(spec, before);
      ForwardedAlternates(spec, before);
      VerdictIsAccountedFor(spec, RunFrom(spec, INITIAL, before), h[|h| - 1], |Forwarded(spec, INITIAL, before)|);
    }
  }

  /**
   Conservation: every contradicting verdict was either spent on a change, a full threshold for
   each change of that kind, or is still on the counter. Agreeing verdicts neither count nor reset.
   */
  lemma {:induction false} Conservation(spec: ProbeSpec, h: seq<Verdict>)
    ensures var s := RunFrom(spec, INITIAL, h);
            var t := |Forwarded(spec, INITIAL, h)|;
            && Contradictions(spec, INITIAL, h, Ready)
               == AtLeastOne(spec.successThreshold) * ((t + 1) / 2) + (if s.behavior == Unready then s.counter else 0)
            && Contradictions(spec, INITIAL, h, Unready)
               == AtLeastOne(spec.failureThreshold) * (t / 2) + (if s.behavior == Ready then s.counter else 0)
  {
    CounterNeverWraps(spec, h);
    Accounts(spec, h, Ready);
    Accounts(spec, h, Unready);
    hide AtLeastOne, RunFrom, Forwarded, Contradictions;
  }

  lemma {:induction false} ContradictionsBounded(spec: ProbeSpec, s: State, h: seq<Verdict>)
    ensures Contradictions(spec, s, h, Ready) + Contradictions(spec, s, h, Unready) <= |h|
  {
    if h == [] {
    } else {
      ContradictionsBounded(spec, s, h[..|h| - 1]);
    }
  }

  /** What `t` behaviour changes cost in probes. */
  function Cost(spec: ProbeSpec, t: nat): (r: nat)
    ensures r == AtLeastOne(spec.successThreshold) * ((t + 1) / 2) + AtLeastOne(spec.failureThreshold) * (t / 2)
  {
    Spent(spec, Ready, t) + Spent(spec, Unready, t)
  }

  /** Flapping bound: a history pays in full for each of its changes. */
  lemma FlappingBound(spec: ProbeSpec, h: seq<Verdict>)
    ensures Cost(spec, |Forwarded(spec, INITIAL, h)|) <= |h|
  {
    Conservation(spec, h);
    CounterNeverWraps(spec, h);
    ContradictionsBounded(spec, INITIAL, h);
  }

  // ---------- runs of one verdict ----------

  function Repeat(v: Verdict, n: nat): (r: seq<Verdict>)
    ensures |r| == n && forall i :: 0 <= i < n ==> r[i] == v
  {
    seq(n, _ => v)
  }

  /** Below the threshold, a run of contradicting verdicts only counts. */
  lemma {:induction false} RunOfContradictions(spec: ProbeSpec, s: State, h: seq<Verdict>)
    requires InRange(spec, s)
    requires forall i :: 0 <= i < |h| ==> h[i] == Opposite(s.behavior)
    requires s.counter + |h| < Effective(spec, Opposite(s.behavior))
    ensures RunFrom(spec, s, h) == State(s.behavior, s.counter + |h|)
    ensures Forwarded(spec, s, h) == []
  {
    if h == [] {
    } else {
      RunOfContradictions(spec, s, h[..|h| - 1]);
      StepKeepsRange(spec, RunFrom(spec, s, h[..|h| - 1]), h[|h| - 1]);
    }
  }

  /** A run of contradicting verdicts overturns the behaviour exactly when it fills the counter. */
  lemma RunOverturns(spec: ProbeSpec, s: State, h: seq<Verdict>)
    requires InRange(spec, s)
    requires forall i :: 0 <= i < |h| ==> h[i] == Opposite(s.behavior)
    requires s.counter + |h| == Effective(spec, Opposite(s.behavior))
    ensures RunFrom(spec, s, h) == State(Opposite(s.behavior), 0)
    ensures Forwarded(spec, s, h) == [Opposite(s.behavior)]
  {
    RunOfContradictions(spec, s, h[..|h| - 1]);
    StepKeepsRange(spec, RunFrom(spec, s, h[..|h| - 1]), h[|h| - 1]);
  }

  lemma {:induction false} RunConcat(spec: ProbeSpec, s: State, g: seq<Verdict>, h: seq<Verdict>)
    ensures RunFrom(spec, s, g + h) == RunFrom(spec, RunFrom(spec, s, g), h)
    ensures Forwarded(spec, s, g + h) == Forwarded(spec, s, g) + Forwarded(spec, RunFrom(spec, s, g), h)
  {
    if h == [] {
      assert g + h == g;
    } else {
      assert (g + h)[..|g + h| - 1] == g + h[..|h| - 1];
      RunConcat(spec, s, g, h[..|h| - 1]);
    }
  }

  /** The cheapest history with `t` changes: exactly one threshold of verdicts for each of them. */
  function Cheapest(spec: ProbeSpec, t: nat): seq<Verdict> {
    if t == 0 then []
    else Cheapest(spec, t - 1) + Repeat(Alternating(t - 1), Effective(spec, Alternating(t - 1)))
  }

  /** One threshold of verdicts overturns a fresh opposite behaviour. */
  lemma BurstOverturns(spec: ProbeSpec, v: Verdict)
    ensures var s := State(Opposite(v), 0);
            var burst := Repeat(v, Effective(spec, v));
            RunFrom(spec, s, burst) == State(v, 0) && Forwarded(spec, s, burst) == [v]
  {
    RunOverturns(spec, State(Opposite(v), 0), Repeat(v, Effective(spec, v)));
  }

  lemma AlternatingNext(t: nat)
    requires t > 0
    ensures Alternating(t) == Opposite(Alternating(t - 1)) && Alternating(t + 1) == Alternating(t - 1)
  {
  }

  lemma CostOfNextChange(spec: ProbeSpec, t: nat)
    requires t > 0
    ensures Cost(spec, t) == Cost(spec, t - 1) + Effective(spec, Alternating(t - 1))
  {
    AlternatingNext(t);
    SpentOnNextChange(spec, Alternating(t - 1), t - 1);
    hide Effective, Spent;
  }

  lemma {:induction false} CheapestLength(spec: ProbeSpec, t: nat)
    ensures |Cheapest(spec, t)| == Cost(spec, t)
  {
    if t == 0 {
      assert Cheapest(spec, 0) == [] && Cost(spec, 0) == 0;
    } else {
      hide Cost, Effective, Repeat;
      CheapestLength(spec, t - 1);
      CostOfNextChange(spec, t);
    }
  }

  /** A history that has just made change number `t - 1`, and a burst that makes the next. */
  lemma BurstMakesNextChange(spec: ProbeSpec, h: seq<Verdict>, t: nat)
    requires t > 0 && RunFrom(spec, INITIAL, h) == State(Alternating(t), 0)
    ensures var v := Alternating(t - 1);
            var longer := h + Repeat(v, Effective(spec, v));
            && RunFrom(spec, INITIAL, longer) == State(Alternating(t + 1), 0)
            && Forwarded(spec, INITIAL, longer) == Forwarded(spec, INITIAL, h) + [v]
  {
    hide *;
    var v := Alternating(t - 1);
    AlternatingNext(t);
    BurstOverturns(spec, v);
    RunConcat(spec, INITIAL, h, Repeat(v, Effective(spec, v)));
  }

  lemma CheapestNext(spec: ProbeSpec, t: nat)
    requires t > 0
    ensures var v := Alternating(t - 1);
            Cheapest(spec, t) == Cheapest(spec, t - 1) + Repeat(v, Effective(spec, v))
  {
  }

  lemma {:induction false} CheapestChanges(spec: ProbeSpec, t: nat)
    ensures |Forwarded(spec, INITIAL, Cheapest(spec, t))| == t
    ensures RunFrom(spec, INITIAL, Cheapest(spec, t)) == State(Alternating(t + 1), 0)
  {
    if t == 0 {
      assert Cheapest(spec, 0) == [];
    } else {
      CheapestNext(spec, t);
      hide *;
      CheapestChanges(spec, t - 1);
      BurstMakesNextChange(spec, Cheapest(spec, t - 1), t);
    }
  }

  /** The flapping bound is exact: some history makes `t` changes with `Cost(t)` probes. */
  lemma FlappingBoundIsTight(spec: ProbeSpec, t: nat)
    ensures |Cheapest(spec, t)| == Cost(spec, t)
    ensures |Forwarded(spec, INITIAL, Cheapest(spec, t))| == t
    ensures RunFrom(spec, INITIAL, Cheapest(spec, t)) == State(Alternating(t + 1), 0)
  {
    hide *;
    CheapestLength(spec, t);
    CheapestChanges(spec, t);
  }

  /** With the configured thresholds one success makes a machine ready, and only the third failure unready. */
  lemma ConfiguredChanges(n: nat)
    requires 1 <= n <= 3
    ensures RunFrom(CONFIGURED, State(Unready, 0), [Ready]) == State(Ready, 0)
    ensures Forwarded(CONFIGURED, State(Unready, 0), [Ready]) == [Ready]
    ensures RunFrom(CONFIGURED, State(Ready, 0), Repeat(Unready, n)) == if n < 3 then State(Ready, n) else State(Unready, 0)
    ensures Forwarded(CONFIGURED, State(Ready, 0), Repeat(Unready, n)) == if n < 3 then [] else [Unready]
  {
    BurstOverturns(CONFIGURED, Ready);
    assert Repeat(Ready, 1) == [Ready];
    if n < 3 {
      RunOfContradictions(CONFIGURED, State(Ready, 0), Repeat(Unready, n));
    } else {
      BurstOverturns(CONFIGURED, Unready);
    }
    hide RunFrom, Forwarded;
  }
}
