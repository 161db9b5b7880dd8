/** The three immutable protocols: Red Queen, Chronos Seal and the Golden Thread (si_dcos_kernel.py:124-158). */
module Protocols {
  import opened Wrappers
  import opened Metrics
  import opened AuditChain

  const RedQueenThreshold: real := 0.50

  /** Red Queen failsafe: `false` means "abort all operations". */
  function RedQueenProtocol(rhoVirtue: real): (proceed: bool)
    ensures !proceed <==> rhoVirtue <= RedQueenThreshold
  {
    if rhoVirtue <= RedQueenThreshold then false else true
  }

  /**
   * Chronos Seal: stores the entry's hash in `hash_value` and returns it.
   * Nothing else about the entry changes, so sealing an already sealed and
   * unchanged entry leaves its hash as it was.
   */
  method ChronosSeal(entry: AuditLogEntry, digest: EntryContent -> Digest) returns (h: Digest)
    modifies entry
    ensures h == digest(entry.Content())
    ensures entry.hashValue == Some(h)
    ensures old(entry.hashValue) == Some(entry.ComputeHash(digest)) ==> entry.hashValue == old(entry.hashValue)
  {
    entry.hashValue := Some(entry.ComputeHash(digest));
    h := entry.hashValue.value;
  }

  /**
   * Golden Thread: the planned action is safe when virtue is high and
   * dissonance low; the action itself plays no part. A safe state is always
   * clear of the Red Queen threshold.
   */
  function GoldenThreadCheck(plannedAction: string, rho: RhoMetrics): (safe: bool)
    ensures safe <==> rho.virtue > 0.7 && rho.dissonance < 0.5
    ensures safe ==> RedQueenProtocol(rho.virtue)
  {
    rho.virtue > 0.7 && rho.dissonance < 0.5
  }

  /** The Golden Thread verdict does not depend on the action's name. */
  lemma GoldenThreadIgnoresAction(a: string, b: string, rho: RhoMetrics)
    ensures GoldenThreadCheck(a, rho) == GoldenThreadCheck(b, rho)
  {
  }
}
