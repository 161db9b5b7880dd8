/**
 * The hash-chained audit log: entries, their hash, and the linkage invariant
 * that the kernel's append operations maintain (si_dcos_kernel.py:92-117, 453-497).
 */
module AuditChain {
  import opened Wrappers
  import opened Metrics

  /** A hex digest as produced by SHA-256. */
  type Digest = string

  /**
   * Every field of an audit entry except `hash_value`: exactly what
   * `compute_hash` serialises. `action` is optional because the decision
   * path records whatever the Telos engine selected, which is `None` for an
   * empty candidate list.
   */
  datatype EntryContent = EntryContent(
    entryId: string,
    timestamp: string,
    agentName: string,
    action: Option<string>,
    rhoMetrics: RhoMetrics,
    policyName: Option<string>,
    protocolEnforced: Option<string>,
    previousHash: Option<Digest>)

  /**
   * An audit log entry. Only `hashValue` is ever assigned after construction
   * (by the Chronos seal), so the other fields are constants.
   */
  class AuditLogEntry {
    const entryId: string
    const timestamp: string
    const agentName: string
    const action: Option<string>
    const rhoMetrics: RhoMetrics
    const policyName: Option<string>
    const protocolEnforced: Option<string>
    const previousHash: Option<Digest>
    var hashValue: Option<Digest>

    constructor (entryId: string, timestamp: string, agentName: string, action: Option<string>,
                 rhoMetrics: RhoMetrics, policyName: Option<string>, protocolEnforced: Option<string>,
                 previousHash: Option<Digest>)
      ensures Content() == EntryContent(entryId, timestamp, agentName, action, rhoMetrics,
                                        policyName, protocolEnforced, previousHash)
      ensures hashValue == None
    {
      this.entryId := entryId;
      this.timestamp := timestamp;
      this.agentName := agentName;
      this.action := action;
      this.rhoMetrics := rhoMetrics;
      this.policyName := policyName;
      this.protocolEnforced := protocolEnforced;
      this.previousHash := previousHash;
      this.hashValue := None;
    }

    /** The hashed fields; it reads no mutable state, so `hashValue` is not among them. */
    function Content(): EntryContent {
      EntryContent(entryId, timestamp, agentName, action, rhoMetrics, policyName, protocolEnforced, previousHash)
    }

    /**
     * `compute_hash`: SHA-256 of the sorted-key JSON of the content. The
     * digest is a parameter about which nothing is assumed.
     */
    function ComputeHash(digest: EntryContent -> Digest): (h: Digest)
      ensures h == digest(EntryContent(entryId, timestamp, agentName, action, rhoMetrics,
                                       policyName, protocolEnforced, previousHash))
    {
      digest(Content())
    }
  }

  /** Two entries that agree on every field but `hash_value` have the same hash. */
  lemma HashIgnoresHashValue(a: AuditLogEntry, b: AuditLogEntry, digest: EntryContent -> Digest)
    requires a.Content() == b.Content()
    ensures a.ComputeHash(digest) == b.ComputeHash(digest)
  {
  }

  /** An entry as a value (`asdict(entry)`), as returned by `get_audit_log`. */
  datatype Record = Record(content: EntryContent, hashValue: Option<Digest>)

  /** The log together with the kernel's `last_audit_hash`. */
  datatype Chain = Chain(records: seq<Record>, head: Option<Digest>)

  /**
   * The chain invariant: every entry is sealed with the hash of its own
   * content, the first entry points to no predecessor, every later entry
   * points to the hash of the one before it, and the head is the last hash
   * (or none for an empty log).
   */
  predicate Linked(ch: Chain, digest: EntryContent -> Digest) {
    && (forall i :: 0 <= i < |ch.records| ==> ch.records[i].hashValue == Some(digest(ch.records[i].content)))
    && (|ch.records| > 0 ==> ch.records[0].content.previousHash == None)
    && (forall i :: 0 < i < |ch.records| ==> ch.records[i].content.previousHash == ch.records[i - 1].hashValue)
    && ch.head == (if |ch.records| == 0 then None else ch.records[|ch.records| - 1].hashValue)
  }

  /** The empty log the kernel starts with. */
  function Empty(): (ch: Chain)
    ensures forall digest: EntryContent -> Digest :: Linked(ch, digest)
  {
    Chain([], None)
  }

  /**
   * Seal an entry, append it and advance the head, as each of the kernel's
   * three logging operations does. Appending keeps the chain linked when the
   * entry was stamped with the current head, and never touches earlier entries.
   */
  function Append(ch: Chain, c: EntryContent, digest: EntryContent -> Digest): (r: Chain)
    ensures |r.records| == |ch.records| + 1
    ensures r.records[..|ch.records|] == ch.records
    ensures r.records[|ch.records|].content == c
    ensures r.head == Some(digest(c))
    ensures Linked(ch, digest) && c.previousHash == ch.head ==> Linked(r, digest)
  {
    var h := digest(c);
    Chain(ch.records + [Record(c, Some(h))], Some(h))
  }

  /** A prefix of a linked log, with the head moved back, is itself linked. */
  lemma LinkedPrefix(ch: Chain, n: nat, digest: EntryContent -> Digest)
    requires Linked(ch, digest) && n <= |ch.records|
    ensures Linked(Chain(ch.records[..n], if n == 0 then None else ch.records[n - 1].hashValue), digest)
  {
  }
}
