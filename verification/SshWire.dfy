/**
  The values that cross the boundary between the SSH forward host and the native
  manager: wire counters, the client context, and the five freshness counters that
  snapshots and change hints both carry.
*/
module SshWire {
  import opened Options

  const MAX_COUNTER: nat := 18446744073709551615

  type WireCounter = c: nat | c <= MAX_COUNTER

  /** The next counter, or None when the 64-bit range is exhausted. */
  function IncrementWireCounter(c: WireCounter): Option<WireCounter> {
    if c + 1 <= MAX_COUNTER then Some(c + 1) else None
  }

  type ScopeId = string

  datatype Context = Context(desktopInstanceId: string, managerSessionId: string, clientEpoch: WireCounter)

  datatype Counters = Counters(
    scopeGeneration: WireCounter,
    connections: WireCounter,
    rules: WireCounter,
    profiles: WireCounter,
    trust: WireCounter)

  /** Every counter of `a` is at most the same counter of `b`. */
  predicate Leq(a: Counters, b: Counters) {
    && a.scopeGeneration <= b.scopeGeneration
    && a.connections <= b.connections
    && a.rules <= b.rules
    && a.profiles <= b.profiles
    && a.trust <= b.trust
  }

  /** `next.some((value, index) => value < current[index])` */
  predicate SomeBelow(next: Counters, current: Counters) {
    || next.scopeGeneration < current.scopeGeneration
    || next.connections < current.connections
    || next.rules < current.rules
    || next.profiles < current.profiles
    || next.trust < current.trust
  }

  /** `next.some((value, index) => value > current[index])` */
  predicate SomeAbove(next: Counters, current: Counters) {
    SomeBelow(current, next)
  }
}
