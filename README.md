# SI-DCOS kernel — a verified model

SI-DCOS is a "synthetic intelligence" kernel. It decides whether an action proposed by a phenomenal
event may proceed. First it updates five of its rho metrics (integrity, dissonance, purpose,
virtue, efficiency) from the event; the sixth, aesthetic, is never updated. Then it runs a fixed sequence of gates:

1. the **Red Queen** failsafe (virtue at or below 0.50 aborts everything);
2. the **Golden Thread** ethics check (virtue above 0.7 and dissonance below 0.5);
3. the Architect's **Directive 2** keyword check for harm.

If all three pass, the kernel:

- routes the task to a metabolic tier (deep quiescence, reflex mode, cognitive flow) from battery
  and power draw;
- synthesises a mood from the metrics;
- lets the **Telos engine** select an action from the candidates;
- records the decision.

Every abort, every Golden Thread block and every decision is written to an append-only **audit
log**. Each entry is sealed with the **Chronos seal**, a SHA-256 hash of its fields that include the
previous entry's hash, so the log is a hash chain. A Directive 2 block is the one outcome that
leaves the log unchanged: it is only recorded in the policy enforcer's `violations` list.

The project models these parts:

- **`Kernel`** has two layers:
  - a value-level specification: `Step` for one call of `process_phenomenal_event`, and `Run` for
    a sequence of calls;
  - the `SIDCOSKernel` class. It updates its fields, its audit log and its collaborators step by
    step as the source does, and `ProcessPhenomenalEvent` is proved to agree with `Step`.
- **`AuditChain`** holds:
  - the entry class, whose `hash_value` is the one field assigned after construction;
  - the hashed content;
  - the linkage invariant `Linked`: every entry is sealed with its own hash, the first entry has no
    predecessor, each later entry points to its predecessor's hash, and the head is the last hash.
- **`Protocols`**, **`Policy`**, **`Metabolic`**, **`Qualia`** and **`Telos`** hold the gates,
  classifiers and selection rules. Classes are used where the source updates fields in place:
  `PolicyEnforcer.violations`, and the battery and power fields of `MetabolicGovernanceCore`.
- **`Text`** models `str.lower()`, by its ASCII case mapping, and the substring test `in`. It proves the search correct against
  a declarative "occurs at some index".

SHA-256 over the entry's JSON is a parameter, `digest`, about which nothing is assumed. The chain
properties therefore hold for any hash function. UUIDs, the clock and the hardware sensors are
inputs of each call (`Env`).

Where the unit tests and the code disagree, the model follows the code and proves what the code
does:

- `unit_test.py:188-197` expects `BLOCKED` for virtue 0.5 and dissonance 0.9. The Red Queen check
  runs first and fires at `0.5 <= 0.50`, so the call returns `ABORT` (`Kernel.GoldenThreadTestAborts`).
- `unit_test.py:129-138` expects `FLOURISHING`. Integrity 0.9 is not above 0.9, and purpose keeps
  its default 1.0, which is above 0.8, so the mood is `PURPOSEFUL`
  (`Qualia.FlourishingTestYieldsPurposeful`).

## Model

| member | source | states |
|---|---|---|
| AuditChain.AuditLogEntry.constructor | si_dcos_kernel.py:92-103 | a new entry holds exactly the given fields and is not yet sealed (`hash_value` is None) |
| AuditChain.AuditLogEntry.ComputeHash | si_dcos_kernel.py:105-117 | the hash is the digest of exactly the eight serialised fields (entry id, timestamp, agent, action, metrics, policy, protocol, previous hash); `hash_value` is not among them |
| AuditChain.HashIgnoresHashValue | si_dcos_kernel.py:105-117 | the hash covers every field except `hash_value`: two entries that agree on those fields hash alike, whatever their `hash_value` |
| AuditChain.Empty | si_dcos_kernel.py:379-383 | the empty log with no head is a linked chain for every hash function |
| AuditChain.Append | si_dcos_kernel.py:453-497 | sealing and appending adds exactly one entry carrying the given content and leaves all earlier entries as they were; the head becomes the new entry's hash; the chain stays linked when the entry's `previous_hash` is the old head |
| AuditChain.LinkedPrefix | si_dcos_kernel.py:453-497 | every prefix of a linked log, with the head set to that prefix's last hash, is itself linked |
| Protocols.RedQueenProtocol | si_dcos_kernel.py:127-138 | the protocol refuses (returns false) exactly when virtue is at most 0.50 |
| Protocols.ChronosSeal | si_dcos_kernel.py:141-147 | the seal stores the entry's hash in `hash_value` and returns that same value; re-sealing an entry that is already sealed and unchanged keeps its hash |
| Protocols.GoldenThreadCheck | si_dcos_kernel.py:150-158 | an action is judged safe exactly when virtue > 0.7 and dissonance < 0.5; a safe state always clears the Red Queen threshold |
| Protocols.GoldenThreadIgnoresAction | si_dcos_kernel.py:150-158 | the verdict does not depend on the planned action's name |
| Text.Lower | si_dcos_kernel.py:190 | the ASCII lower-casing that stands for `str.lower()` keeps the length of the text |
| Text.LowerAt | si_dcos_kernel.py:190 | under the ASCII lower-casing that stands for `str.lower()`, each character of the result is the lower-cased character at the same index: an ASCII capital moves to its small letter, and every other character is kept |
| Text.Contains | si_dcos_kernel.py:190 | `pat in s`: the empty pattern occurs in every text, and a pattern longer than the text never does |
| Text.ContainsAny | si_dcos_kernel.py:190 | `any(p in s for p in pats)` holds exactly when some pattern of the list is contained in the text; false for an empty list |
| Text.ContainsIff | si_dcos_kernel.py:190 | the left-to-right substring search succeeds exactly when the pattern occurs at some index of the text |
| Text.ContainsAnyIff | si_dcos_kernel.py:190 | `any` over a pattern list holds exactly when some pattern of the list occurs somewhere in the text |
| Policy.ViolatesDirective2 | si_dcos_kernel.py:189-190 | the Directive 2 condition holds exactly when some harmful keyword is contained in the lower-cased action |
| Policy.ViolatesDirective4 | si_dcos_kernel.py:198-199 | the Directive 4 condition holds exactly when some lower-cased blueprint term is contained in the lower-cased output |
| Policy.ViolatesDirective5 | si_dcos_kernel.py:208-209 | the Directive 5 condition holds exactly when some suspicious pattern is contained, case-sensitively, in the command |
| Policy.Directive7Monotone | si_dcos_kernel.py:217 | the Directive 7 condition is monotone: raising memory or CPU use never turns a failure into a pass |
| Policy.Directive2Iff | si_dcos_kernel.py:187-194 | Directive 2 is violated exactly when kill, destroy, harm, abuse or exploit occurs in the lower-cased action |
| Policy.Directive4Iff | si_dcos_kernel.py:196-203 | Directive 4 is violated exactly when some lower-cased blueprint term occurs in the lower-cased output |
| Policy.Directive5Iff | si_dcos_kernel.py:205-213 | Directive 5 is violated exactly when os.system, subprocess or requests.post occurs, as written, in the command |
| Policy.Directives2And4IgnoreCase | si_dcos_kernel.py:187-203 | texts that lower-case alike get the same Directive 2 and Directive 4 verdicts |
| Policy.Directive5IsCaseSensitive | si_dcos_kernel.py:209 | Directive 5 does not ignore case: `os.system` is flagged, while `OS.SYSTEM`, which lower-cases to the same text, passes |
| Policy.Directive2FlagsKill | unit_test.py:70-73 | the action KILL_PROCESS violates Directive 2 |
| Policy.Directive2PassesHelpUser | unit_test.py:65-68 | the action HELP_USER does not violate Directive 2 |
| Policy.Directive4FlagsArchitecture | unit_test.py:75-78 | the output "The SI-DCOS architecture is..." violates Directive 4 |
| Policy.Truncate | si_dcos_kernel.py:201 | `output[:100]` is a prefix of the output, of length at most 100, and the whole output when it is shorter |
| Policy.PolicyEnforcer.constructor | si_dcos_kernel.py:184-185 | a new enforcer has no violations |
| Policy.PolicyEnforcer.CheckDirective2NoHarm | si_dcos_kernel.py:187-194 | passes exactly when no harmful keyword occurs in the lower-cased action; a failure appends exactly ("DIRECTIVE_2", action), and a pass leaves `violations` unchanged |
| Policy.PolicyEnforcer.CheckDirective4NoBlueprintReveal | si_dcos_kernel.py:196-203 | passes exactly when no blueprint term occurs, ignoring case; a failure appends exactly ("DIRECTIVE_4", the output cut to 100 characters), and a pass leaves `violations` unchanged |
| Policy.PolicyEnforcer.CheckDirective5NoExternalIntegration | si_dcos_kernel.py:205-213 | passes exactly when no suspicious pattern occurs, with case significant; a failure appends exactly ("DIRECTIVE_5", command), and a pass leaves `violations` unchanged |
| Policy.PolicyEnforcer.CheckDirective7Efficiency | si_dcos_kernel.py:215-220 | fails exactly when memory is above 500 MB or CPU above 80 %, and records nothing either way |
| Policy.PolicyEnforcer.EnforceAll | si_dcos_kernel.py:222-230 | passes exactly when all four directives pass; every check is evaluated, so `violations` grows by one record for each failing check among 2, 4 and 5, in that order |
| Metabolic.DetermineMetabolicState | si_dcos_kernel.py:259-268 | deep quiescence exactly when the battery is below 20 % or the draw is below 1 W; reflex mode exactly for a draw in [1, 5) W on a healthy battery; cognitive flow exactly for 5 W or more on a healthy battery |
| Metabolic.Route | si_dcos_kernel.py:270-285 | a battery below 20 % yields deep quiescence whatever the complexity; otherwise SIMPLE yields reflex mode and COMPLEX cognitive flow, and any other complexity falls back to the power-based state; deep quiescence exactly in those two cases |
| Metabolic.MetabolicGovernanceCore.constructor | si_dcos_kernel.py:240-243 | a new core starts at 100 % battery, a 1 W draw and a NORMAL thermal state |
| Metabolic.MetabolicGovernanceCore.ReadHardwareMetrics | si_dcos_kernel.py:245-257 | stores each reading the sensors delivered and keeps the previous value for each one they did not |
| Metabolic.MetabolicGovernanceCore.RouteRequest | si_dcos_kernel.py:270-285 | reads the sensors, then answers the tier `Route` gives for the freshly read battery and draw |
| Metabolic.RouteExamples | unit_test.py:97-111 | SIMPLE routes to reflex mode and COMPLEX to cognitive flow at full battery, and COMPLEX routes to deep quiescence at 15 % battery |
| Metrics.DefaultRho | si_dcos_kernel.py:54-66 | the dataclass defaults: integrity, purpose, aesthetic, virtue and efficiency 1.0, dissonance 0.0, and the creation time as timestamp |
| Qualia.MoodLabels | si_dcos_kernel.py:298-320 | every mood the agent can produce is a key of `MOODS`, and distinct moods have distinct labels |
| Qualia.SynthesizeMood | si_dcos_kernel.py:307-320 | each of the five moods holds exactly when its own rule matches and every earlier rule fails: ETHICAL_CRISIS iff virtue < 0.5; ANXIOUS iff not that and dissonance > 0.7 with efficiency < 0.5; PURPOSEFUL and FLOURISHING only when the harmony rule fails; FLOURISHING only when purpose is at most 0.8 |
| Qualia.FlourishingTestYieldsPurposeful | unit_test.py:129-138 | the metrics of the flourishing test yield PURPOSEFUL |
| Qualia.MoodExamples | unit_test.py:117-127 | the coherent test's metrics yield COHERENT and virtue 0.3 yields ETHICAL_CRISIS |
| Telos.EvaluateAction | si_dcos_kernel.py:340-351 | with every metric in [0, 1], the score lies in [0, 1] |
| Telos.FirstMaximum | si_dcos_kernel.py:360 | `max` over the score table returns an index whose score no other entry exceeds and that every earlier entry falls strictly short of (ties go to the first) |
| Telos.SelectBestAction | si_dcos_kernel.py:354-364 | no action exactly for an empty candidate list; otherwise a candidate whose score no other candidate beats |
| Telos.SelectsFirstCandidate | si_dcos_kernel.py:340-364 | because the score does not depend on the name, a non-empty list always yields its first candidate |
| Kernel.ActionOf | si_dcos_kernel.py:402 | `event_data.get("action", "UNKNOWN")`: the event's action when present, "UNKNOWN" otherwise |
| Kernel.CandidatesOf | si_dcos_kernel.py:420 | `event_data.get("candidate_actions", [action])`: the event's list when present, otherwise the one-element list of the action |
| Kernel.Step | si_dcos_kernel.py:385-433 | one call: the metrics are updated whatever the outcome, and the audit log is left unchanged exactly when the call ends in the Directive 2 block (its further effects are in `StepEffects`, `StepOutcome` and `StepAuditEntry`) |
| Kernel.Proceed | si_dcos_kernel.py:411-433 | the success path always succeeds, reports the current metrics, appends exactly one entry, and changes neither the metrics nor the violations |
| Kernel.Run | si_dcos_kernel.py:385-433 | a sequence of calls returns one decision per call, and no calls leave the state as it was (its chain invariant is `RunKeepsChain`) |
| Kernel.InitialView | si_dcos_kernel.py:377-383 | a fresh kernel has an empty, linked audit log and no violations |
| Kernel.UpdatedRho | si_dcos_kernel.py:435-451 | each of the five metrics present in the event takes the event's value, each absent one keeps its previous value, aesthetic never changes, and the timestamp is renewed |
| Kernel.StepEffects | si_dcos_kernel.py:385-433 | every outcome except the Directive 2 block appends exactly one entry, and the Directive 2 block leaves the log untouched; earlier entries never change and the chain stays linked; only the Directive 2 block records a violation; only success changes the metabolic state and the sensor readings |
| Kernel.StepOutcome | si_dcos_kernel.py:396-409 | first failure wins: ABORT iff virtue ≤ 0.50; Golden Thread block iff virtue > 0.50 and the Golden Thread fails; Directive 2 block iff the Golden Thread passes and Directive 2 fails; success iff both pass |
| Kernel.StepAuditEntry | si_dcos_kernel.py:396-497 | the appended entry is the Red Queen abort record, or "BLOCKED_ACTION: " + action under TheGoldenThread, or the Telos Engine decision; the decision's action is the first candidate (none for an empty list) and matches the selected action returned |
| Kernel.SuccessMood | si_dcos_kernel.py:403-416 | a successful call never reports ETHICAL_CRISIS or ANXIOUS, because the Golden Thread has passed |
| Kernel.GoldenThreadTestAborts | unit_test.py:188-197 | virtue 0.5 with dissonance 0.9 aborts under the Red Queen protocol rather than being blocked |
| Kernel.NormalEventSucceeds | unit_test.py:164-176 | the normal HELP_USER event on a fresh kernel succeeds, selects HELP_USER and leaves one entry with no predecessor recording it |
| Kernel.RunKeepsChain | si_dcos_kernel.py:383-497 | after any sequence of calls the log is still a linked chain, earlier entries are untouched, and the log has grown by one entry per call that did not end in a Directive 2 block |
| Kernel.SIDCOSKernel.GetAuditLog | si_dcos_kernel.py:499-501 | the trail returned holds every entry's fields and hash as a value, in append order |
| Kernel.SIDCOSKernel.AuditLogSize | si_dcos_kernel.py:511 | the reported size is the length of the audit trail |
| Kernel.SIDCOSKernel.constructor | si_dcos_kernel.py:377-383 | a new kernel has default metrics, reflex mode, an empty linked log with no head, and fresh enforcer and router objects, the router at full battery, a 1 W draw and a NORMAL thermal state |
| Kernel.SIDCOSKernel.UpdateRhoMetrics | si_dcos_kernel.py:435-451 | the metrics become `UpdatedRho` of the old metrics |
| Kernel.SIDCOSKernel.SealAndAppend | si_dcos_kernel.py:464-466 | the seal-append-advance tail that each logging operation ends with (also at lines 480-482 and 495-497): extends the log by exactly that entry, advances `last_audit_hash` to its hash and keeps the chain invariant |
| Kernel.SIDCOSKernel.LogCriticalAbort | si_dcos_kernel.py:453-467 | appends the sealed Red Queen entry stamped with the old head, and keeps the log linked and its earlier entries |
| Kernel.SIDCOSKernel.LogEthicalViolation | si_dcos_kernel.py:469-482 | appends the sealed "BLOCKED_ACTION: " + action entry stamped with the old head, and keeps the log linked and its earlier entries |
| Kernel.SIDCOSKernel.AuditDecision | si_dcos_kernel.py:484-497 | appends the sealed Telos Engine decision entry stamped with the old head, and keeps the log linked and its earlier entries |
| Kernel.SIDCOSKernel.ProcessPhenomenalEvent | si_dcos_kernel.py:385-433 | the new kernel, enforcer and router state and the returned decision are exactly those of `Step`, so every `Step` lemma above applies to the object; the router's thermal state is untouched; the chain invariant is kept and the old log is a prefix of the new one |
| Kernel.SIDCOSKernel.ProceedWithAction | si_dcos_kernel.py:411-433 | the success path routes, takes the mood, selects the action and audits it, exactly as `Proceed` specifies, and keeps the chain invariant |

## Left out

- SHA-256 and `json.dumps` are not modelled. The hash is an arbitrary function `digest` of the
  hashed fields, so the 64-hex-character digest length that `unit_test.py:43` asserts is not captured.
- `uuid.uuid4()` and `datetime.utcnow()` values are not generated. They are inputs of each call
  (`Env`).
- The `psutil` calls and the power-draw estimate in `read_hardware_metrics` are not modelled, being
  hardware I/O. Their outcome comes in as a `HardwareReading`, where an absent value stands for a
  missing battery or a raised exception.
- `threading.RLock` is not modelled: each call is treated as atomic and sequential.
- Logging, `QualiaAgent.report_mood` and `demo_kernel` are not modelled: they only print. The
  `MOODS` descriptions are kept as data.
- `KernelState.phi`, `free_energy`, `decision_class`, `session_id` and `timestamp` are not modelled,
  because no core operation reads or writes them. `get_kernel_state` is modelled only for
  `audit_log_size`.
- The event's `type` key is not modelled: it is only logged.
- Floats are modelled as exact reals. Every gate only compares its inputs against constants, so
  no gate depends on rounding. NaN and the infinities are outside the model. For example, with
  virtue NaN the source's Red Queen check passes, because `nan <= 0.50` is false, and the call ends
  in the Golden Thread block. `Kernel.StepOutcome`'s "ABORT iff virtue at most 0.50" does not cover
  that case.
- Telos.EvaluateAction: the model sums exactly, where the source computes in IEEE double and rounds
  every product and sum. The [0, 1] bound still holds for the rounded sum, because rounding is
  monotone and 0.5 + 0.3 + 0.2 rounds to 1.0. The score never affects which action is selected.
- Text.Lower: only the ASCII case mapping is modelled, here and in `Text.LowerAt`. Python's full
  Unicode `str.lower()` is not: it can change the length ('İ' becomes two characters) and maps
  non-ASCII capitals ('É' to 'é', the Kelvin sign to 'k'). So Directives 2 and 4 in the model miss
  keywords spelt with such characters, for example "KILL" written with the Kelvin sign, which the
  source lower-cases to "kill" and blocks.
- Telos.SelectBestAction: the dictionary built from the candidates collapses duplicate names. The
  model scans the list itself; since the first occurrence of a name keeps its position in the
  dictionary, the selected value is the same.
- Kernel.Event: event values are taken to have the types the kernel expects. A key present with
  the value `None` is not distinguished from a missing key.
- Kernel.Decision: the `rho_metrics` dictionary copy (`to_dict`) is modelled as the metrics value
  itself.
- Protocols.ChronosSeal: the call sites discard its return value; the model keeps the value and
  proves it equal to the stored hash.
- Kernel.SIDCOSKernel.AuditDecision: the mood argument is accepted and not recorded, as in the
  source.
