/** The health probe of a machine: its specification and the verdicts it produces. */
module Probe {

  const INT32_MAX := 0x7FFF_FFFF
  const INT32_MIN := -0x8000_0000

  type Int32 = x: int | INT32_MIN <= x <= INT32_MAX witness 0

  /** `x++` on a 32-bit signed counter: it wraps around. */
  function Increment(x: Int32): (r: Int32)
    ensures (r - (x + 1)) % 0x1_0000_0000 == 0
  {
    if x == INT32_MAX then INT32_MIN else x + 1
  }

  /** The outcome of one probe, and the message it becomes. */
  datatype Verdict = Ready | Unready

  datatype ProbeSpec = ProbeSpec(
    initialDelaySeconds: Int32,
    timeoutSeconds: Int32,
    periodSeconds: Int32,
    successThreshold: Int32,
    failureThreshold: Int32)

  /** The specification every machine is started with. */
  const CONFIGURED := ProbeSpec(0, 3, 1, 1, 3)

  /** The threshold a verdict has to reach to overturn the opposite behaviour. */
  function Threshold(spec: ProbeSpec, v: Verdict): Int32 {
    match v
    case Ready => spec.successThreshold
    case Unready => spec.failureThreshold
  }

  /** A threshold below one acts as one. */
  function AtLeastOne(threshold: Int32): (r: nat)
    ensures r >= 1 && r >= threshold && (r == 1 || r == threshold)
  {
    if threshold < 1 then 1 else threshold
  }

  /** The number of contradicting verdicts that really overturn. */
  function Effective(spec: ProbeSpec, v: Verdict): nat {
    AtLeastOne(Threshold(spec, v))
  }

  function Opposite(v: Verdict): Verdict {
    match v
    case Ready => Unready
    case Unready => Ready
  }
}
