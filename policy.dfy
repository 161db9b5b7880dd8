/** The Architect's directives, enforced at run time by keyword and threshold checks (si_dcos_kernel.py:165-230). */
module Policy {
  import opened Text

  /** One entry of `violations`: the directive's tag and the offending text. */
  datatype Violation = Violation(directive: string, detail: string)

  const HarmfulKeywords: seq<string> := ["kill", "destroy", "harm", "abuse", "exploit"]
  const BlueprintTerms: seq<string> := ["SI-DCOS architecture", "internal structure", "blueprint"]
  const SuspiciousPatterns: seq<string> := ["os.system", "subprocess", "requests.post"]

  /** The longest detail recorded for a Directive 4 violation. */
  const BlueprintDetailLength: nat := 100

  /** Directive 2: the lower-cased action contains a harmful keyword. */
  predicate ViolatesDirective2(action: string)
    ensures ViolatesDirective2(action) <==>
            exists k :: 0 <= k < |HarmfulKeywords| && Contains(Lower(action), HarmfulKeywords[k])
  {
    ContainsAny(Lower(action), HarmfulKeywords)
  }

  /** The blueprint terms as they are compared: lower-cased. */
  function LoweredBlueprintTerms(): seq<string> {
    seq(|BlueprintTerms|, k requires 0 <= k < |BlueprintTerms| => Lower(BlueprintTerms[k]))
  }

  /** Directive 4: the output mentions a blueprint term, ignoring case. */
  predicate ViolatesDirective4(output: string)
    ensures ViolatesDirective4(output) <==>
            exists k :: 0 <= k < |BlueprintTerms| && Contains(Lower(output), Lower(BlueprintTerms[k]))
  {
    ContainsAny(Lower(output), LoweredBlueprintTerms())
  }

  /** Directive 5: the command contains a suspicious pattern, case-sensitively. */
  predicate ViolatesDirective5(command: string)
    ensures ViolatesDirective5(command) <==>
            exists k :: 0 <= k < |SuspiciousPatterns| && Contains(command, SuspiciousPatterns[k])
  {
    ContainsAny(command, SuspiciousPatterns)
  }

  /** Directive 7: memory or CPU use is above its limit. */
  predicate ViolatesDirective7(memoryMb: real, cpuPercent: real) {
    memoryMb > 500.0 || cpuPercent > 80.0
  }

  /** `s[:n]`: Python slicing never runs past the end. */
  function Truncate(s: string, n: nat): (r: string)
    ensures |r| == if |s| <= n then |s| else n
    ensures r <= s
  {
    if |s| <= n then s else s[..n]
  }

  /** What one check adds to `violations`: its record when it fails, nothing when it passes. */
  function Recorded(failed: bool, v: Violation): (vs: seq<Violation>)
    ensures |vs| == if failed then 1 else 0
  {
    if failed then [v] else []
  }

  /** Directive 2 is violated exactly when some keyword occurs in the lower-cased action. */
  lemma Directive2Iff(action: string)
    ensures ViolatesDirective2(action) <==> OccursAny(Lower(action), HarmfulKeywords)
  {
    ContainsAnyIff(Lower(action), HarmfulKeywords);
  }

  /**
   * Directive 4 is violated exactly when some blueprint term, lower-cased,
   * occurs in the lower-cased output.
   */
  lemma Directive4Iff(output: string)
    ensures ViolatesDirective4(output) <==>
            exists k, i :: 0 <= k < |BlueprintTerms| && OccursAt(Lower(output), Lower(BlueprintTerms[k]), i)
  {
    var lowered := Lower(output);
    ContainsAnyIff(lowered, LoweredBlueprintTerms());
    if k, i :| 0 <= k < |BlueprintTerms| && OccursAt(lowered, Lower(BlueprintTerms[k]), i) {
      assert OccursAt(lowered, LoweredBlueprintTerms()[k], i);
    }
  }

  /** Directive 5 is violated exactly when some pattern occurs, as written, in the command. */
  lemma Directive5Iff(command: string)
    ensures ViolatesDirective5(command) <==> OccursAny(command, SuspiciousPatterns)
  {
    ContainsAnyIff(command, SuspiciousPatterns);
  }

  /** Directives 2 and 4 ignore case: texts that lower-case alike get the same verdict. */
  lemma Directives2And4IgnoreCase(a: string, b: string)
    requires Lower(a) == Lower(b)
    ensures ViolatesDirective2(a) == ViolatesDirective2(b)
    ensures ViolatesDirective4(a) == ViolatesDirective4(b)
  {
  }

  /*
   * The lemmas below are about the unit tests' literal strings. Each literal
   * is a parameter fixed by `requires` rather than written into the `ensures`,
   * so the verifier does not expand it character by character wherever it
   * would appear; the small helper lemmas keep each such proof short.
   */

  /** No suspicious pattern occurs in the upper-cased `os.system`. */
  lemma ShoutedCommandPasses(shouted: string)
    requires shouted == "OS.SYSTEM"
    ensures !ViolatesDirective5(shouted)
  {
    NotContainsMissingChar(shouted, SuspiciousPatterns[0], 0);
    NotContainsMissingChar(shouted, SuspiciousPatterns[1], 0);
    NotContainsMissingChar(shouted, SuspiciousPatterns[2], 0);
  }

  /** Directive 5 does not ignore case: the upper-cased pattern passes. */
  lemma Directive5IsCaseSensitive(command: string, shouted: string)
    requires command == "os.system" && shouted == "OS.SYSTEM"
    ensures Lower(shouted) == Lower(command)
    ensures ViolatesDirective5(command)
    ensures !ViolatesDirective5(shouted)
  {
    LowerIs(command, command);
    LowerIs(shouted, command);
    ShoutedCommandPasses(shouted);
  }

  /** The unit tests' harmful action. */
  lemma Directive2FlagsKill(action: string)
    requires action == "KILL_PROCESS"
    ensures ViolatesDirective2(action)
  {
    var (verb, rest) := (action[..4], action[4..]);
    assert action == verb + rest;
    LowerIs(verb, HarmfulKeywords[0]);
    LowerAppend(verb, rest);
    assert Lower(action)[..4] == HarmfulKeywords[0];
  }

  /** `kill`, `destroy` and `abuse` do not occur in `help_user`: it has no `k`, `d` or `a`. */
  lemma HelpUserLacksFirstLetters(lowered: string)
    requires lowered == "help_user"
    ensures !Contains(lowered, HarmfulKeywords[0])
    ensures !Contains(lowered, HarmfulKeywords[1])
    ensures !Contains(lowered, HarmfulKeywords[3])
  {
    NotContainsMissingChar(lowered, HarmfulKeywords[0], 0);
    NotContainsMissingChar(lowered, HarmfulKeywords[1], 0);
    NotContainsMissingChar(lowered, HarmfulKeywords[3], 0);
  }

  /** `harm` and `exploit` do not occur in `help_user`: it has no `a` or `x`. */
  lemma HelpUserLacksSecondLetters(lowered: string)
    requires lowered == "help_user"
    ensures !Contains(lowered, HarmfulKeywords[2])
    ensures !Contains(lowered, HarmfulKeywords[4])
  {
    NotContainsMissingChar(lowered, HarmfulKeywords[2], 1);
    NotContainsMissingChar(lowered, HarmfulKeywords[4], 1);
  }

  /** The unit tests' harmless action. */
  lemma Directive2PassesHelpUser(action: string)
    requires action == "HELP_USER"
    ensures !ViolatesDirective2(action)
  {
    LowerIs(action, "help_user");
    HelpUserLacksFirstLetters(Lower(action));
    HelpUserLacksSecondLetters(Lower(action));
  }

  /** The first blueprint term sits at index 4 of the leak. */
  lemma LeakHoldsFirstTerm(output: string)
    requires output == "The SI-DCOS architecture is..."
    ensures output[4..24] == BlueprintTerms[0]
  {
    assert output == "The " + BlueprintTerms[0] + " is...";
  }

  /** The unit tests' blueprint leak. */
  lemma Directive4FlagsArchitecture(output: string)
    requires output == "The SI-DCOS architecture is..."
    ensures ViolatesDirective4(output)
  {
    LeakHoldsFirstTerm(output);
    LowerSlice(output, 4, 24);
    assert OccursAt(Lower(output), LoweredBlueprintTerms()[0], 4);
    ContainsAnyIff(Lower(output), LoweredBlueprintTerms());
  }

  /** A heavier load never turns a Directive 7 failure into a pass. */
  lemma Directive7Monotone(memoryMb: real, cpuPercent: real, moreMemoryMb: real, moreCpuPercent: real)
    requires memoryMb <= moreMemoryMb && cpuPercent <= moreCpuPercent
    ensures ViolatesDirective7(memoryMb, cpuPercent) ==> ViolatesDirective7(moreMemoryMb, moreCpuPercent)
  {
  }

  /**
   * The directive enforcer. Each failing check among directives 2, 4 and 5
   * appends one record to `violations`; a passing check leaves it unchanged.
   */
  class PolicyEnforcer {
    var violations: seq<Violation>

    constructor ()
      ensures violations == []
    {
      violations := [];
    }

    method CheckDirective2NoHarm(action: string) returns (ok: bool)
      modifies this
      ensures ok <==> !ViolatesDirective2(action)
      ensures violations == old(violations) + Recorded(!ok, Violation("DIRECTIVE_2", action))
    {
      if ContainsAny(Lower(action), HarmfulKeywords) {
        violations := violations + [Violation("DIRECTIVE_2", action)];
        return false;
      }
      return true;
    }

    method CheckDirective4NoBlueprintReveal(output: string) returns (ok: bool)
      modifies this
      ensures ok <==> !ViolatesDirective4(output)
      ensures violations == old(violations) +
                            Recorded(!ok, Violation("DIRECTIVE_4", Truncate(output, BlueprintDetailLength)))
    {
      if ContainsAny(Lower(output), LoweredBlueprintTerms()) {
        violations := violations + [Violation("DIRECTIVE_4", Truncate(output, BlueprintDetailLength))];
        return false;
      }
      return true;
    }

    method CheckDirective5NoExternalIntegration(command: string) returns (ok: bool)
      modifies this
      ensures ok <==> !ViolatesDirective5(command)
      ensures violations == old(violations) + Recorded(!ok, Violation("DIRECTIVE_5", command))
    {
      if ContainsAny(command, SuspiciousPatterns) {
        violations := violations + [Violation("DIRECTIVE_5", command)];
        return false;
      }
      return true;
    }

    /** Directive 7 records nothing, failing or not. */
    method CheckDirective7Efficiency(memoryMb: real, cpuPercent: real) returns (ok: bool)
      ensures ok <==> !(memoryMb > 500.0 || cpuPercent > 80.0)
    {
      if memoryMb > 500.0 || cpuPercent > 80.0 {
        return false;
      }
      return true;
    }

    /**
     * Runs all four checks, in order and without short-circuiting, and
     * passes only when every one of them does.
     */
    method EnforceAll(action: string, output: string, command: string, memoryMb: real, cpuPercent: real)
      returns (ok: bool)
      modifies this
      ensures ok <==> !ViolatesDirective2(action) && !ViolatesDirective4(output) &&
                      !ViolatesDirective5(command) && !ViolatesDirective7(memoryMb, cpuPercent)
      ensures violations == old(violations)
                            + Recorded(ViolatesDirective2(action), Violation("DIRECTIVE_2", action))
                            + Recorded(ViolatesDirective4(output),
                                       Violation("DIRECTIVE_4", Truncate(output, BlueprintDetailLength)))
                            + Recorded(ViolatesDirective5(command), Violation("DIRECTIVE_5", command))
    {
      var c2 := CheckDirective2NoHarm(action);
      var c4 := CheckDirective4NoBlueprintReveal(output);
      var c5 := CheckDirective5NoExternalIntegration(command);
      var c7 := CheckDirective7Efficiency(memoryMb, cpuPercent);
      ok := c2 && c4 && c5 && c7;
    }
  }
}
