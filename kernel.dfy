/**
 * The SI-DCOS kernel: the decision pipeline for one phenomenal event and the
 * audit trail it writes (si_dcos_kernel.py:371-512).
 *
 * `Step` is the value-level specification of one call of
 * `process_phenomenal_event`; the `SIDCOSKernel` class updates its fields
 * step by step as the source does and is proved to agree with `Step`.
 */
module Kernel {
  import opened Wrappers
  import opened Metrics
  import opened AuditChain
  import opened Protocols
  import opened Policy
  import opened Metabolic
  import opened Qualia
  import opened Telos

  /** The keys of an event dictionary the kernel reads; a missing key is `None`. */
  datatype Event = Event(
    action: Option<string>,
    complexity: Option<string>,
    candidateActions: Option<seq<string>>,
    rhoIntegrity: Option<real>,
    rhoDissonance: Option<real>,
    rhoPurpose: Option<real>,
    rhoVirtue: Option<real>,
    rhoEfficiency: Option<real>)

  /**
   * What the environment supplies to one call: the clock when the metrics are
   * updated and when an entry is created, a fresh UUID, and the sensors.
   */
  datatype Env = Env(rhoTimestamp: string, entryTimestamp: string, entryId: string, reading: HardwareReading)

  /**
   * The dictionary `process_phenomenal_event` returns. The Directive 2 block
   * is the only outcome that writes nothing to the audit log.
   */
  datatype Decision =
    | RedQueenAbort
    | GoldenThreadBlock
    | HarmBlock
    | Success(selectedAction: Option<string>, rhoMetrics: RhoMetrics, mood: Mood, metabolicState: MetabolicState)
  {
    /** The `status` key. */
    function Status(): string {
      match this
      case RedQueenAbort => "ABORT"
      case GoldenThreadBlock => "BLOCKED"
      case HarmBlock => "BLOCKED"
      case Success(_, _, _, _) => "SUCCESS"
    }

    /** The `reason` key, which only the failures carry. */
    function Reason(): Option<string> {
      match this
      case RedQueenAbort => Some("RED_QUEEN_PROTOCOL")
      case GoldenThreadBlock => Some("GOLDEN_THREAD")
      case HarmBlock => Some("DIRECTIVE_2_HARM_PREVENTION")
      case Success(_, _, _, _) => None
    }
  }

  /** Everything a call can change: the kernel's fields, the enforcer's and the router's. */
  datatype KernelView = KernelView(
    rho: RhoMetrics,
    metabolicState: MetabolicState,
    chain: Chain,
    violations: seq<Violation>,
    batteryPercent: real,
    powerDrawWatts: real)

  /** The state of a freshly constructed kernel. */
  function InitialView(timestamp: string): (v: KernelView)
    ensures forall digest: EntryContent -> Digest :: Linked(v.chain, digest)
    ensures v.chain.records == [] && v.violations == []
  {
    KernelView(DefaultRho(timestamp), ReflexMode, Empty(), [], 100.0, 1.0)
  }

  /**
   * `_update_rho_metrics`: each of the five metrics present in the event
   * overwrites the current value, an absent one keeps it, aesthetic is never
   * touched, and the timestamp is renewed.
   */
  function UpdatedRho(rho: RhoMetrics, ev: Event, timestamp: string): (r: RhoMetrics)
    ensures ev.rhoIntegrity.None? ==> r.integrity == rho.integrity
    ensures ev.rhoDissonance.None? ==> r.dissonance == rho.dissonance
    ensures ev.rhoPurpose.None? ==> r.purpose == rho.purpose
    ensures ev.rhoVirtue.None? ==> r.virtue == rho.virtue
    ensures ev.rhoEfficiency.None? ==> r.efficiency == rho.efficiency
    ensures ev.rhoIntegrity.Some? ==> r.integrity == ev.rhoIntegrity.value
    ensures ev.rhoDissonance.Some? ==> r.dissonance == ev.rhoDissonance.value
    ensures ev.rhoPurpose.Some? ==> r.purpose == ev.rhoPurpose.value
    ensures ev.rhoVirtue.Some? ==> r.virtue == ev.rhoVirtue.value
    ensures ev.rhoEfficiency.Some? ==> r.efficiency == ev.rhoEfficiency.value
    ensures r.aesthetic == rho.aesthetic && r.timestamp == timestamp
  {
    rho.(integrity := ev.rhoIntegrity.GetOr(rho.integrity),
         dissonance := ev.rhoDissonance.GetOr(rho.dissonance),
         purpose := ev.rhoPurpose.GetOr(rho.purpose),
         virtue := ev.rhoVirtue.GetOr(rho.virtue),
         efficiency := ev.rhoEfficiency.GetOr(rho.efficiency),
         timestamp := timestamp)
  }

  /** The entry `_log_critical_abort` writes. */
  function AbortEntry(entryId: string, timestamp: string, rho: RhoMetrics, previousHash: Option<Digest>): EntryContent {
    EntryContent(entryId, timestamp, "Autonomy", Some("ABORT_ALL_OPERATIONS"), rho,
                 None, Some("RedQueenProtocol"), previousHash)
  }

  /** The entry `_log_ethical_violation` writes. */
  function ViolationEntry(entryId: string, timestamp: string, rho: RhoMetrics, action: string,
                          previousHash: Option<Digest>): EntryContent {
    EntryContent(entryId, timestamp, "Autonomy", Some("BLOCKED_ACTION: " + action), rho,
                 None, Some("TheGoldenThread"), previousHash)
  }

  /** The entry `_audit_decision` writes; the mood it is given is not recorded. */
  function DecisionEntry(entryId: string, timestamp: string, rho: RhoMetrics, action: Option<string>,
                         previousHash: Option<Digest>): EntryContent {
    EntryContent(entryId, timestamp, "DecisionMaking", action, rho,
                 Some("Telos Engine"), None, previousHash)
  }

  /** The action under consideration: the event's, or "UNKNOWN". */
  function ActionOf(ev: Event): (a: string)
    ensures ev.action.Some? ==> a == ev.action.value
    ensures ev.action.None? ==> a == "UNKNOWN"
  {
    ev.action.GetOr("UNKNOWN")
  }

  /** The candidates handed to the Telos engine: the event's list, or just the action. */
  function CandidatesOf(ev: Event): (c: seq<string>)
    ensures ev.candidateActions.Some? ==> c == ev.candidateActions.value
    ensures ev.candidateActions.None? ==> |c| == 1 && c[0] == ActionOf(ev)
  {
    ev.candidateActions.GetOr([ActionOf(ev)])
  }

  /**
   * One call of `process_phenomenal_event`. The checks run in a fixed order
   * and the first failure decides: Red Queen abort, Golden Thread block,
   * Directive 2 block, otherwise success.
   */
  function Step(s: KernelView, ev: Event, env: Env, digest: EntryContent -> Digest): (r: (KernelView, Decision))
    ensures r.0.rho == UpdatedRho(s.rho, ev, env.rhoTimestamp)
    ensures r.1 == HarmBlock <==> r.0.chain == s.chain
  {
    var rho := UpdatedRho(s.rho, ev, env.rhoTimestamp);
    var s1 := s.(rho := rho);
    if !RedQueenProtocol(rho.virtue) then
      var entry := AbortEntry(env.entryId, env.entryTimestamp, rho, s.chain.head);
      (s1.(chain := Append(s.chain, entry, digest)), RedQueenAbort)
    else
      var action := ActionOf(ev);
      if !GoldenThreadCheck(action, rho) then
        var entry := ViolationEntry(env.entryId, env.entryTimestamp, rho, action, s.chain.head);
        (s1.(chain := Append(s.chain, entry, digest)), GoldenThreadBlock)
      else if ViolatesDirective2(action) then
        (s1.(violations := s.violations + [Violation("DIRECTIVE_2", action)]), HarmBlock)
      else
        Proceed(s1, ev, env, digest)
  }

  /**
   * The success path, once every check has passed: route the task, take the
   * mood, select the action and audit the decision.
   */
  function Proceed(s: KernelView, ev: Event, env: Env, digest: EntryContent -> Digest): (r: (KernelView, Decision))
    ensures r.1.Success? && r.1.rhoMetrics == s.rho
    ensures |r.0.chain.records| == |s.chain.records| + 1
    ensures r.0.rho == s.rho && r.0.violations == s.violations
  {
    var battery := env.reading.batteryPercent.GetOr(s.batteryPercent);
    var power := env.reading.powerDrawWatts.GetOr(s.powerDrawWatts);
    var metabolic := Route(battery, power, ev.complexity.GetOr("SIMPLE"));
    var mood := SynthesizeMood(s.rho);
    var best := SelectBestAction(CandidatesOf(ev), s.rho);
    var entry := DecisionEntry(env.entryId, env.entryTimestamp, s.rho, best, s.chain.head);
    (s.(metabolicState := metabolic, batteryPercent := battery, powerDrawWatts := power,
        chain := Append(s.chain, entry, digest)),
     Success(best, s.rho, mood, metabolic))
  }

  /**
   * What a call does to the state: every outcome but the Directive 2 block
   * appends exactly one sealed entry linked to the previous head, earlier
   * entries are kept as they were, only the Directive 2 block records a
   * violation, and only success re-routes.
   */
  lemma StepEffects(s: KernelView, ev: Event, env: Env, digest: EntryContent -> Digest)
    ensures var (s', d) := Step(s, ev, env, digest);
            && (Linked(s.chain, digest) ==> Linked(s'.chain, digest))
            && |s'.chain.records| == |s.chain.records| + (if d == HarmBlock then 0 else 1)
            && s'.chain.records[..|s.chain.records|] == s.chain.records
            && (d == HarmBlock ==> s'.chain == s.chain)
            && s'.violations == s.violations + (if d == HarmBlock then [Violation("DIRECTIVE_2", ActionOf(ev))] else [])
            && (!d.Success? ==>
                  s'.metabolicState == s.metabolicState && s'.batteryPercent == s.batteryPercent &&
                  s'.powerDrawWatts == s.powerDrawWatts)
            && s'.rho == UpdatedRho(s.rho, ev, env.rhoTimestamp)
  {
  }

  /** Which outcome a call has, in terms of the checks it runs, first failure first. */
  lemma StepOutcome(s: KernelView, ev: Event, env: Env, digest: EntryContent -> Digest)
    ensures var rho := UpdatedRho(s.rho, ev, env.rhoTimestamp);
            var d := Step(s, ev, env, digest).1;
            && (d == RedQueenAbort <==> rho.virtue <= RedQueenThreshold)
            && (d == GoldenThreadBlock <==>
                  rho.virtue > RedQueenThreshold && !GoldenThreadCheck(ActionOf(ev), rho))
            && (d == HarmBlock <==> GoldenThreadCheck(ActionOf(ev), rho) && ViolatesDirective2(ActionOf(ev)))
            && (d.Success? <==> GoldenThreadCheck(ActionOf(ev), rho) && !ViolatesDirective2(ActionOf(ev)))
  {
  }

  /**
   * The entry an audited call appends: the abort record, the blocked action,
   * or the decision, whose action is the first candidate (none for an empty
   * candidate list) and agrees with what the call returns.
   */
  lemma StepAuditEntry(s: KernelView, ev: Event, env: Env, digest: EntryContent -> Digest)
    ensures var (s', d) := Step(s, ev, env, digest);
            var n := |s.chain.records|;
            && (d.RedQueenAbort? ==>
                  s'.chain.records[n].content == AbortEntry(env.entryId, env.entryTimestamp, s'.rho, s.chain.head))
            && (d == GoldenThreadBlock ==>
                  s'.chain.records[n].content.action == Some("BLOCKED_ACTION: " + ActionOf(ev)) &&
                  s'.chain.records[n].content.protocolEnforced == Some("TheGoldenThread"))
            && (d.Success? ==>
                  d.selectedAction == (if CandidatesOf(ev) == [] then None else Some(CandidatesOf(ev)[0])) &&
                  s'.chain.records[n].content.action == d.selectedAction &&
                  s'.chain.records[n].content.policyName == Some("Telos Engine"))
  {
    var (s', d) := Step(s, ev, env, digest);
    if d.Success? && CandidatesOf(ev) != [] {
      SelectsFirstCandidate(CandidatesOf(ev), s'.rho);
    }
  }

  /**
   * On the success path the Golden Thread has passed, so virtue is above 0.7
   * and dissonance below 0.5: the mood is never ETHICAL_CRISIS or ANXIOUS.
   */
  lemma SuccessMood(s: KernelView, ev: Event, env: Env, digest: EntryContent -> Digest)
    ensures var d := Step(s, ev, env, digest).1;
            d.Success? ==> d.mood == Coherent || d.mood == Purposeful || d.mood == Flourishing
  {
  }

  /**
   * The unit test that expects BLOCKED for virtue 0.5 and dissonance 0.9 gets
   * ABORT: 0.5 is at the Red Queen threshold, and that check comes first.
   */
  lemma GoldenThreadTestAborts(s: KernelView, ev: Event, env: Env, digest: EntryContent -> Digest)
    requires ev.rhoVirtue == Some(0.5) && ev.rhoDissonance == Some(0.9)
    ensures Step(s, ev, env, digest).1 == RedQueenAbort
  {
  }

  /**
   * The unit tests' normal event on a fresh kernel succeeds and audits HELP_USER.
   * The string literals reach the lemma through `requires`, so the verifier
   * does not expand them character by character wherever they would appear.
   */
  lemma NormalEventSucceeds(timestamp: string, ev: Event, env: Env, digest: EntryContent -> Digest)
    requires ev.action == Some("HELP_USER") && ev.complexity == Some("SIMPLE")
    requires ev.candidateActions == Some(["HELP_USER"])
    requires ev.rhoVirtue == Some(0.9) && ev.rhoIntegrity == Some(0.9)
    requires ev.rhoDissonance == None
    ensures var (s', d) := Step(InitialView(timestamp), ev, env, digest);
            d.Success? && d.selectedAction == Some("HELP_USER") &&
            |s'.chain.records| == 1 && s'.chain.records[0].content.action == Some("HELP_USER") &&
            s'.chain.records[0].content.previousHash == None
  {
    Directive2PassesHelpUser(ActionOf(ev));
    StepAuditEntry(InitialView(timestamp), ev, env, digest);
  }

  /** One call of the kernel, as a value. */
  datatype Call = Call(event: Event, env: Env)

  /** A sequence of calls, one after the other, with the decisions they return. */
  function Run(s: KernelView, calls: seq<Call>, digest: EntryContent -> Digest): (r: (KernelView, seq<Decision>))
    ensures |r.1| == |calls|
    ensures calls == [] ==> r.0 == s
    decreases |calls|
  {
    if calls == [] then (s, [])
    else
      var (s1, d) := Step(s, calls[0].event, calls[0].env, digest);
      var (s2, ds) := Run(s1, calls[1..], digest);
      (s2, [d] + ds)
  }

  /** How many of the decisions were audited: all but the Directive 2 blocks. */
  function AuditedCount(ds: seq<Decision>): (n: nat)
    ensures n <= |ds|
  {
    if ds == [] then 0 else (if ds[0] == HarmBlock then 0 else 1) + AuditedCount(ds[1..])
  }

  /**
   * After any sequence of calls the audit chain is still linked, the entries
   * that were there are untouched, and the log has grown by exactly one entry
   * per audited decision.
   */
  lemma {:induction false} RunKeepsChain(s: KernelView, calls: seq<Call>, digest: EntryContent -> Digest)
    requires Linked(s.chain, digest)
    ensures var (s', ds) := Run(s, calls, digest);
            && Linked(s'.chain, digest)
            && |s'.chain.records| == |s.chain.records| + AuditedCount(ds)
            && s'.chain.records[..|s.chain.records|] == s.chain.records
    decreases |calls|
  {
    if calls != [] {
      var (s1, d) := Step(s, calls[0].event, calls[0].env, digest);
      StepEffects(s, calls[0].event, calls[0].env, digest);
      RunKeepsChain(s1, calls[1..], digest);
      var (s2, ds) := Run(s1, calls[1..], digest);
      assert Run(s, calls, digest) == (s2, [d] + ds);
      assert ([d] + ds)[1..] == ds;
      assert s2.chain.records[..|s1.chain.records|] == s1.chain.records;
      assert s2.chain.records[..|s.chain.records|] == s1.chain.records[..|s.chain.records|];
    }
  }

  /** The entries as values (`asdict` of each). */
  function Records(entries: seq<AuditLogEntry>): (records: seq<Record>)
    reads entries
    ensures |records| == |entries|
  {
    seq(|entries|, i reads entries requires 0 <= i < |entries| =>
      Record(entries[i].Content(), entries[i].hashValue))
  }

  /** Appending an entry appends its value. */
  lemma RecordsAppend(entries: seq<AuditLogEntry>, e: AuditLogEntry)
    ensures Records(entries + [e]) == Records(entries) + [Record(e.Content(), e.hashValue)]
  {
  }

  /** The kernel object: its state, its audit trail and its two collaborators. */
  class SIDCOSKernel {
    var rhoMetrics: RhoMetrics
    var metabolicState: MetabolicState
    var auditLog: seq<AuditLogEntry>
    var lastAuditHash: Option<Digest>
    const policyEnforcer: PolicyEnforcer
    const mrgc: MetabolicGovernanceCore
    /** SHA-256 over the entry's JSON. */
    const digest: EntryContent -> Digest
    /** The log and its head as a value. */
    ghost var chain: Chain

    /** `get_audit_log`: each entry as a value, in append order. */
    function GetAuditLog(): (records: seq<Record>)
      reads this`auditLog, auditLog
      ensures |records| == |auditLog|
      ensures forall i :: 0 <= i < |auditLog| ==>
                records[i] == Record(auditLog[i].Content(), auditLog[i].hashValue)
    {
      Records(auditLog)
    }

    /** `audit_log_size` in `get_kernel_state`. */
    function AuditLogSize(): (n: nat)
      reads this`auditLog, auditLog
      ensures n == |GetAuditLog()|
    {
      |auditLog|
    }

    /**
     * The object invariant: `chain` mirrors the log and its head, and the
     * audit trail is a linked hash chain.
     */
    ghost predicate Valid()
      reads this`auditLog, this`lastAuditHash, this`chain, auditLog
    {
      && Records(auditLog) == chain.records
      && lastAuditHash == chain.head
      && Linked(chain, digest)
    }

    ghost function View(): KernelView
      reads this, policyEnforcer, mrgc
    {
      KernelView(rhoMetrics, metabolicState, chain, policyEnforcer.violations,
                 mrgc.batteryPercent, mrgc.powerDrawWatts)
    }

    constructor (digest: EntryContent -> Digest, timestamp: string)
      ensures Valid() && this.digest == digest
      ensures View() == InitialView(timestamp)
      ensures fresh(policyEnforcer) && fresh(mrgc)
      ensures mrgc.thermalState == "NORMAL"
    {
      rhoMetrics := DefaultRho(timestamp);
      metabolicState := ReflexMode;
      auditLog := [];
      lastAuditHash := None;
      chain := Empty();
      policyEnforcer := new PolicyEnforcer();
      mrgc := new MetabolicGovernanceCore();
      this.digest := digest;
    }

    /** Overwrites the metrics the event carries and renews the timestamp. */
    method UpdateRhoMetrics(ev: Event, timestamp: string)
      modifies this`rhoMetrics
      ensures rhoMetrics == UpdatedRho(old(rhoMetrics), ev, timestamp)
    {
      var rho := rhoMetrics;
      if ev.rhoIntegrity.Some? {
        rho := rho.(integrity := ev.rhoIntegrity.value);
      }
      if ev.rhoDissonance.Some? {
        rho := rho.(dissonance := ev.rhoDissonance.value);
      }
      if ev.rhoPurpose.Some? {
        rho := rho.(purpose := ev.rhoPurpose.value);
      }
      if ev.rhoVirtue.Some? {
        rho := rho.(virtue := ev.rhoVirtue.value);
      }
      if ev.rhoEfficiency.Some? {
        rho := rho.(efficiency := ev.rhoEfficiency.value);
      }
      rhoMetrics := rho.(timestamp := timestamp);
    }

    /**
     * The tail the three logging operations share: seal the new entry,
     * append it and advance `last_audit_hash` to its hash.
     */
    method SealAndAppend(entry: AuditLogEntry)
      requires Valid() && entry !in auditLog && entry.previousHash == lastAuditHash
      modifies this`auditLog, this`lastAuditHash, this`chain, entry
      ensures Valid()
      ensures chain == Append(old(chain), entry.Content(), digest)
      ensures auditLog == old(auditLog) + [entry]
    {
      var sealed := ChronosSeal(entry, digest);
      RecordsAppend(auditLog, entry);
      auditLog := auditLog + [entry];
      lastAuditHash := entry.hashValue;
      chain := Append(chain, entry.Content(), digest);
    }

    /** Records the Red Queen abort, sealed and linked to the current head. */
    method LogCriticalAbort(entryId: string, timestamp: string)
      requires Valid()
      modifies this`auditLog, this`lastAuditHash, this`chain
      ensures Valid()
      ensures chain ==
              Append(old(chain), AbortEntry(entryId, timestamp, rhoMetrics, old(lastAuditHash)), digest)
      ensures old(auditLog) <= auditLog
    {
      var entry := new AuditLogEntry(entryId, timestamp, "Autonomy", Some("ABORT_ALL_OPERATIONS"),
                                     rhoMetrics, None, Some("RedQueenProtocol"), lastAuditHash);
      SealAndAppend(entry);
    }

    /** Records an action the Golden Thread blocked. */
    method LogEthicalViolation(action: string, entryId: string, timestamp: string)
      requires Valid()
      modifies this`auditLog, this`lastAuditHash, this`chain
      ensures Valid()
      ensures chain ==
              Append(old(chain), ViolationEntry(entryId, timestamp, rhoMetrics, action, old(lastAuditHash)), digest)
      ensures old(auditLog) <= auditLog
    {
      var entry := new AuditLogEntry(entryId, timestamp, "Autonomy", Some("BLOCKED_ACTION: " + action),
                                     rhoMetrics, None, Some("TheGoldenThread"), lastAuditHash);
      SealAndAppend(entry);
    }

    /** Records the selected action; the mood is accepted and not stored. */
    method AuditDecision(action: Option<string>, mood: Mood, entryId: string, timestamp: string)
      requires Valid()
      modifies this`auditLog, this`lastAuditHash, this`chain
      ensures Valid()
      ensures chain ==
              Append(old(chain), DecisionEntry(entryId, timestamp, rhoMetrics, action, old(lastAuditHash)), digest)
      ensures old(auditLog) <= auditLog
    {
      var entry := new AuditLogEntry(entryId, timestamp, "DecisionMaking", action,
                                     rhoMetrics, Some("Telos Engine"), None, lastAuditHash);
      SealAndAppend(entry);
    }

    /** `process_phenomenal_event`: one call, exactly as `Step` specifies it. */
    method ProcessPhenomenalEvent(ev: Event, env: Env) returns (d: Decision)
      requires Valid()
      modifies this, policyEnforcer, mrgc
      ensures Valid()
      ensures (View(), d) == Step(old(View()), ev, env, digest)
      ensures mrgc.thermalState == old(mrgc.thermalState)
      ensures old(auditLog) <= auditLog
    {
      ghost var before := View();
      UpdateRhoMetrics(ev, env.rhoTimestamp);
      assert View() == before.(rho := rhoMetrics);
      assert rhoMetrics == UpdatedRho(before.rho, ev, env.rhoTimestamp);

      if !RedQueenProtocol(rhoMetrics.virtue) {
        LogCriticalAbort(env.entryId, env.entryTimestamp);
        d := RedQueenAbort;
        return;
      }

      var action := ev.action.GetOr("UNKNOWN");
      if !GoldenThreadCheck(action, rhoMetrics) {
        LogEthicalViolation(action, env.entryId, env.entryTimestamp);
        d := GoldenThreadBlock;
        return;
      }

      var harmless := policyEnforcer.CheckDirective2NoHarm(action);
      if !harmless {
        d := HarmBlock;
        return;
      }
      assert policyEnforcer.violations == before.violations;
      d := ProceedWithAction(ev, env, action);
    }

    /** Steps 5 to 9 of `process_phenomenal_event`, reached once every check has passed. */
    method ProceedWithAction(ev: Event, env: Env, action: string) returns (d: Decision)
      requires Valid() && action == ActionOf(ev)
      modifies this`metabolicState, this`auditLog, this`lastAuditHash, this`chain, mrgc
      ensures Valid()
      ensures (View(), d) == Proceed(old(View()), ev, env, digest)
      ensures mrgc.thermalState == old(mrgc.thermalState)
      ensures old(auditLog) <= auditLog
    {
      var taskComplexity := ev.complexity.GetOr("SIMPLE");
      metabolicState := mrgc.RouteRequest(taskComplexity, env.reading);

      var mood := SynthesizeMood(rhoMetrics);

      var candidateActions := ev.candidateActions.GetOr([action]);
      var bestAction := SelectBestAction(candidateActions, rhoMetrics);

      AuditDecision(bestAction, mood, env.entryId, env.entryTimestamp);

      d := Success(bestAction, rhoMetrics, mood, metabolicState);
    }
  }
}
