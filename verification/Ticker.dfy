/** The ticker that drives the probe, and how long it takes to notice a machine that went bad. */
module Ticker {
  import opened Wrappers
  import opened Probe
  import Debouncer

  datatype Message = Start | Stop | ReceiveTimeout | Other

  datatype ConstructionError = NonPositivePeriod | NilHandler | NegativeInitialDelay

  /** One reaction of the ticker: whether the handler runs, and the timer afterwards. */
  datatype Reaction = Reaction(handled: bool, timer: Option<int>)

  function React(initialDelay: int, period: int, timer: Option<int>, m: Message): Reaction {
    match m
    case Start => if initialDelay != 0 then Reaction(false, Some(initialDelay)) else Reaction(true, Some(period))
    case Stop => Reaction(false, None)
    case ReceiveTimeout => Reaction(true, Some(period))
    case Other => Reaction(false, timer)
  }

  class TickerActor {
    const initialDelay: int
    const period: int
    var timer: Option<int>
    var handled: nat

    constructor (period: int, initialDelay: int)
      requires period > 0 && initialDelay >= 0
      ensures this.period == period && this.initialDelay == initialDelay
      ensures timer == None && handled == 0
    {
      this.period, this.initialDelay := period, initialDelay;
      timer, handled := None, 0;
    }

    method Receive(m: Message)
      modifies this
      ensures timer == React(initialDelay, period, old(timer), m).timer
      ensures handled == old(handled) + if React(initialDelay, period, old(timer), m).handled then 1 else 0
      ensures handled == old(handled) + 1 <==> m == ReceiveTimeout || (m == Start && initialDelay == 0)
      ensures m == Start ==> timer == Some(if initialDelay != 0 then initialDelay else period)
      ensures m == ReceiveTimeout ==> timer == Some(period)
      ensures m == Stop ==> timer == None
      ensures m == Other ==> timer == old(timer)
    {
      match m {
        case Start =>
          if initialDelay != 0 {
            timer := Some(initialDelay);
          } else {
            handled := handled + 1;
            timer := Some(period);
          }
        case Stop =>
          timer := None;
        case ReceiveTimeout =>
          handled := handled + 1;
          timer := Some(period);
        case Other =>
      }
    }
  }

  /** `NewTickerActor` with its panics as errors, checked in the order of the source. */
  method NewTicker(period: int, handler: bool, initialDelay: Option<int>)
    returns (r: Result<TickerActor, ConstructionError>)
    ensures r == Failure(NonPositivePeriod) <==> period <= 0
    ensures r == Failure(NilHandler) <==> period > 0 && !handler
    ensures r == Failure(NegativeInitialDelay) <==>
            period > 0 && handler && initialDelay.Some? && initialDelay.value < 0
    ensures r.Success? ==>
              && fresh(r.value) && r.value.period == period && r.value.timer == None && r.value.handled == 0
              && r.value.initialDelay == if initialDelay.Some? then initialDelay.value else 0
  {
    if period <= 0 {
      return Failure(NonPositivePeriod);
    }
    if !handler {
      return Failure(NilHandler);
    }
    var delay := 0;
    if initialDelay.Some? {
      if initialDelay.value < 0 {
        return Failure(NegativeInitialDelay);
      }
      delay := initialDelay.value;
    }
    var t := new TickerActor(period, delay);
    return Success(t);
  }

  // ---------- time ----------

  /**
   The clock of a started ticker: `now` is the current time, `timer` what is armed and `ends` the
   times at which probes ended so far.
   */
  datatype Clock = Clock(now: int, timer: Option<int>, ends: seq<int>)

  /** Handling `m`, where a probe it triggers takes `duration`; the timer is armed after the probe. */
  function Handle(initialDelay: int, period: int, c: Clock, m: Message, duration: nat): Clock {
    var r := React(initialDelay, period, c.timer, m);
    if r.handled then
      Clock(c.now + duration, r.timer, c.ends + [c.now + duration])
    else
      c.(timer := r.timer)
  }

  /** The armed timer runs out and its message is handled. */
  function Elapse(initialDelay: int, period: int, c: Clock, duration: nat): Clock
    requires c.timer.Some?
  {
    Handle(initialDelay, period, c.(now := c.now + c.timer.value), ReceiveTimeout, duration)
  }

  /**
   A ticker started at time 0 and left alone until it has made `|durations|` probes, the first of
   which happens within `Start` itself when there is no initial delay.
   */
  function Timeline(initialDelay: nat, period: nat, durations: seq<nat>): (c: Clock)
    requires period > 0 && |durations| > 0
    ensures |c.ends| == |durations| && c.timer == Some(period) && c.ends[|durations| - 1] == c.now
  {
    var last := |durations| - 1;
    if last == 0 then
      var started := Handle(initialDelay, period, Clock(0, None, []), Start, durations[0]);
      if initialDelay == 0 then started else Elapse(initialDelay, period, started, durations[0])
    else
      Elapse(initialDelay, period, Timeline(initialDelay, period, durations[..last]), durations[last])
  }

  /** One probe more ends a period and its own duration after the one before. */
  lemma OneProbeMore(initialDelay: nat, period: nat, durations: seq<nat>)
    requires period > 0 && |durations| > 1
    ensures var last := |durations| - 1;
            var before := Timeline(initialDelay, period, durations[..last]).ends;
            Timeline(initialDelay, period, durations).ends == before + [before[last - 1] + period + durations[last]]
  {
  }

  lemma MultipleOfNext(k: nat, x: int)
    requires k > 0
    ensures k * x == (k - 1) * x + x
  {
  }

  lemma FirstProbe(initialDelay: nat, period: nat, durations: seq<nat>)
    requires period > 0 && |durations| == 1
    ensures Timeline(initialDelay, period, durations).ends == [initialDelay + durations[0]]
  {
  }

  function Sum(xs: seq<nat>): nat {
    if xs == [] then 0 else Sum(xs[..|xs| - 1]) + xs[|xs| - 1]
  }

  /** When probes end, exactly: the initial delay, a period between any two, and all probing so far. */
  lemma {:induction false} ProbeTimes(initialDelay: nat, period: nat, durations: seq<nat>, k: nat)
    requires period > 0 && k < |durations|
    ensures Timeline(initialDelay, period, durations).ends[k] == initialDelay + k * period + Sum(durations[..k + 1])
  {
    var last := |durations| - 1;
    if last == 0 {
      FirstProbe(initialDelay, period, durations);
      assert durations[..1] == durations && durations[..0] == [];
    } else {
      OneProbeMore(initialDelay, period, durations);
      hide Timeline;
      ProbeTimes(initialDelay, period, durations[..last], if k < last then k else last - 1);
      if k < last {
        assert durations[..last][..k + 1] == durations[..k + 1];
      } else {
        MultipleOfNext(k, period);
        assert durations[..k + 1] == durations && durations[..last][..last] == durations[..last];
      }
    }
  }

  /** Between two probe ends lies a period for each probe and at most a timeout more. */
  lemma {:induction false} ProbeSpacing(initialDelay: nat, period: nat, timeout: nat, durations: seq<nat>, j: nat, k: nat)
    requires period > 0 && j <= k < |durations|
    requires forall i :: 0 <= i < |durations| ==> durations[i] <= timeout
    ensures var ends := Timeline(initialDelay, period, durations).ends;
            (k - j) * period <= ends[k] - ends[j] <= (k - j) * (period + timeout)
  {
    var last := |durations| - 1;
    hide Timeline;
    if j == k {
    } else {
      OneProbeMore(initialDelay, period, durations);
      if k < last {
        ProbeSpacing(initialDelay, period, timeout, durations[..last], j, k);
      } else {
        ProbeSpacing(initialDelay, period, timeout, durations[..last], j, last - 1);
        MultipleOfNext(k - j, period);
        MultipleOfNext(k - j, period + timeout);
        assert k - j - 1 == last - 1 - j;
      }
    }
  }

  lemma MulMonotone(a: nat, b: nat, c: nat)
    requires a <= b
    ensures a * c <= b * c
  {
  }

  /** The state of the debouncer, and what it has forwarded, once probe `i` of a history is handled. */
  function StateAfter(spec: ProbeSpec, h: seq<Verdict>, i: nat): Debouncer.State
    requires i < |h|
  {
    Debouncer.RunFrom(spec, Debouncer.INITIAL, h[..i + 1])
  }

  function ForwardedAfter(spec: ProbeSpec, h: seq<Verdict>, i: nat): seq<Verdict>
    requires i < |h|
  {
    Debouncer.Forwarded(spec, Debouncer.INITIAL, h[..i + 1])
  }

  lemma CounterBelow(spec: ProbeSpec, h: seq<Verdict>, j: nat)
    requires j < |h| && StateAfter(spec, h, j).behavior == Ready
    ensures 0 <= StateAfter(spec, h, j).counter < AtLeastOne(spec.failureThreshold)
  {
    Debouncer.CounterNeverWraps(spec, h[..j + 1]);
  }

  /** What the failures after probe `j` lead to, up to the one that fills the counter. */
  lemma FailuresAfter(spec: ProbeSpec, h: seq<Verdict>, j: nat, i: nat)
    requires j < |h| && StateAfter(spec, h, j).behavior == Ready
    requires j <= i < |h| && forall l :: j < l < |h| ==> h[l] == Unready
    requires i - j <= AtLeastOne(spec.failureThreshold) - StateAfter(spec, h, j).counter
    ensures ForwardedAfter(spec, h, i)
            == ForwardedAfter(spec, h, j)
               + if i - j < AtLeastOne(spec.failureThreshold) - StateAfter(spec, h, j).counter then [] else [Unready]
  {
    var s := StateAfter(spec, h, j);
    var bad := h[j + 1..i + 1];
    Debouncer.CounterNeverWraps(spec, h[..j + 1]);
    assert Effective(spec, Unready) == AtLeastOne(spec.failureThreshold);
    assert h[..i + 1] == h[..j + 1] + bad;
    Debouncer.RunConcat(spec, Debouncer.INITIAL, h[..j + 1], bad);
    hide Debouncer.Forwarded, Debouncer.RunFrom;
    if i - j < AtLeastOne(spec.failureThreshold) - s.counter {
      Debouncer.RunOfContradictions(spec, s, bad);
    } else {
      Debouncer.RunOverturns(spec, s, bad);
    }
  }

  /**
   Detection latency. Let probe `j` leave the debouncer ready and let every later probe fail, at least as
   many as the failure threshold. Then exactly the probe that fills the counter makes the debouncer forward
   `Unready`, none before it anything, within `threshold * (period + timeout)` seconds.
   */
  lemma DetectionLatency(spec: ProbeSpec, durations: seq<nat>, h: seq<Verdict>, j: nat) returns (k: nat)
    requires spec.initialDelaySeconds >= 0 && spec.periodSeconds > 0 && spec.timeoutSeconds >= 0
    requires |durations| == |h|
    requires forall i :: 0 <= i < |durations| ==> durations[i] <= spec.timeoutSeconds
    requires j < |h| && StateAfter(spec, h, j).behavior == Ready
    requires forall i :: j < i < |h| ==> h[i] == Unready
    requires |h| > j + AtLeastOne(spec.failureThreshold)
    ensures k == j + AtLeastOne(spec.failureThreshold) - StateAfter(spec, h, j).counter
    ensures j < k <= j + AtLeastOne(spec.failureThreshold)
    ensures forall i :: j <= i < k ==> ForwardedAfter(spec, h, i) == ForwardedAfter(spec, h, j)
    ensures ForwardedAfter(spec, h, k) == ForwardedAfter(spec, h, j) + [Unready]
    ensures var ends := Timeline(spec.initialDelaySeconds, spec.periodSeconds, durations).ends;
            ends[k] - ends[j] <= AtLeastOne(spec.failureThreshold) * (spec.periodSeconds + spec.timeoutSeconds)
  {
    CounterBelow(spec, h, j);
    k := j + AtLeastOne(spec.failureThreshold) - StateAfter(spec, h, j).counter;
    hide StateAfter, ForwardedAfter, AtLeastOne;
    forall i | j <= i < k
      ensures ForwardedAfter(spec, h, i) == ForwardedAfter(spec, h, j)
    {
      FailuresAfter(spec, h, j, i);
    }
    FailuresAfter(spec, h, j, k);
    ProbeSpacing(spec.initialDelaySeconds, spec.periodSeconds, spec.timeoutSeconds, durations, j, k);
    MulMonotone(k - j, AtLeastOne(spec.failureThreshold), spec.periodSeconds + spec.timeoutSeconds);
  }

  lemma SumNext(xs: seq<nat>, i: nat)
    requires i < |xs|
    ensures Sum(xs[..i + 1]) == Sum(xs[..i]) + xs[i]
  {
    assert xs[..i + 1][..i] == xs[..i];
  }

  lemma SumOfThree(xs: seq<nat>, j: nat)
    requires j + 3 < |xs|
    ensures Sum(xs[..j + 4]) == Sum(xs[..j + 1]) + xs[j + 1] + xs[j + 2] + xs[j + 3]
  {
    SumNext(xs, j + 1);
    SumNext(xs, j + 2);
    SumNext(xs, j + 3);
    hide Sum;
  }

  /**
   With the configured probe a ready machine that keeps failing is reported by its third failure, less the
   failures already counted, within 12 seconds, and if all probes time out in no less.
   */
  lemma ConfiguredLatency(durations: seq<nat>, h: seq<Verdict>, j: nat) returns (k: nat)
    requires |durations| == |h|
    requires forall i :: 0 <= i < |durations| ==> durations[i] <= 3
    requires j < |h| && StateAfter(CONFIGURED, h, j).behavior == Ready
    requires forall i :: j < i < |h| ==> h[i] == Unready
    requires |h| > j + 3
    ensures k == j + 3 - StateAfter(CONFIGURED, h, j).counter && j < k <= j + 3
    ensures forall i :: j <= i < k ==> ForwardedAfter(CONFIGURED, h, i) == ForwardedAfter(CONFIGURED, h, j)
    ensures ForwardedAfter(CONFIGURED, h, k) == ForwardedAfter(CONFIGURED, h, j) + [Unready]
    ensures Timeline(0, 1, durations).ends[k] - Timeline(0, 1, durations).ends[j] <= 12
    ensures StateAfter(CONFIGURED, h, j).counter == 0 && (forall i :: j < i <= k ==> durations[i] == 3) ==>
              Timeline(0, 1, durations).ends[k] - Timeline(0, 1, durations).ends[j] == 12
  {
    k := DetectionLatency(CONFIGURED, durations, h, j);
    hide Timeline, StateAfter, ForwardedAfter;
    if StateAfter(CONFIGURED, h, j).counter == 0 && forall i :: j < i <= k ==> durations[i] == 3 {
      ProbeTimes(0, 1, durations, j);
      ProbeTimes(0, 1, durations, k);
      SumOfThree(durations, j);
    }
  }
}
