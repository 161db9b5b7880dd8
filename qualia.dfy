/** The Qualia agent: the rho metrics summarised as one mood label (si_dcos_kernel.py:292-326). */
module Qualia {
  import opened Metrics

  /** The mood labels and their descriptions (`MOODS`). */
  const Moods: map<string, string> := map[
    "COHERENT" := "System in harmony; high integrity, low dissonance",
    "ANXIOUS" := "High dissonance, low efficiency; stress detected",
    "PURPOSEFUL" := "High purpose alignment; executing goal",
    "ETHICAL_CRISIS" := "Low virtue; fundamental values conflict",
    "FLOURISHING" := "All ρ values high; system thriving"]

  /** The five labels `synthesize_mood` can return. */
  datatype Mood = Coherent | Anxious | Purposeful | EthicalCrisis | Flourishing {
    /** The label as the source spells it. */
    function Label(): string {
      match this
      case Coherent => "COHERENT"
      case Anxious => "ANXIOUS"
      case Purposeful => "PURPOSEFUL"
      case EthicalCrisis => "ETHICAL_CRISIS"
      case Flourishing => "FLOURISHING"
    }
  }

  /** Every label is a key of `MOODS`, and distinct moods have distinct labels. */
  lemma MoodLabels(m: Mood, n: Mood)
    ensures m.Label() in Moods
    ensures m.Label() == n.Label() ==> m == n
  {
  }

  predicate IsAnxious(rho: RhoMetrics) {
    rho.dissonance > 0.7 && rho.efficiency < 0.5
  }

  predicate Harmonious(rho: RhoMetrics) {
    rho.integrity > 0.9 && rho.dissonance < 0.3
  }

  predicate AllHigh(rho: RhoMetrics) {
    rho.integrity > 0.8 && rho.virtue > 0.8 && rho.efficiency > 0.8
  }

  /**
   * `synthesize_mood`: the first matching rule wins, so each mood is
   * characterised by which earlier rules failed; in particular FLOURISHING is only reachable when purpose is at
   * most 0.8, since a higher purpose already yields PURPOSEFUL.
   */
  function SynthesizeMood(rho: RhoMetrics): (mood: Mood)
    ensures mood == EthicalCrisis <==> rho.virtue < 0.5
    ensures mood == Anxious <==> rho.virtue >= 0.5 && IsAnxious(rho)
    ensures mood == Purposeful <==> rho.virtue >= 0.5 && !IsAnxious(rho) && !Harmonious(rho) && rho.purpose > 0.8
    ensures mood == Flourishing <==>
              rho.virtue >= 0.5 && !IsAnxious(rho) && !Harmonious(rho) && rho.purpose <= 0.8 && AllHigh(rho)
    ensures mood == Coherent <==>
              rho.virtue >= 0.5 && !IsAnxious(rho) &&
              (Harmonious(rho) || (rho.purpose <= 0.8 && !AllHigh(rho)))
  {
    if rho.virtue < 0.5 then EthicalCrisis
    else if rho.dissonance > 0.7 && rho.efficiency < 0.5 then Anxious
    else if rho.integrity > 0.9 && rho.dissonance < 0.3 then Coherent
    else if rho.purpose > 0.8 then Purposeful
    else if rho.integrity > 0.8 && rho.virtue > 0.8 && rho.efficiency > 0.8 then Flourishing
    else Coherent
  }

  /**
   * The unit test that expects FLOURISHING for integrity 0.9, virtue 0.9,
   * efficiency 0.9 and dissonance 0.1 gets PURPOSEFUL: integrity 0.9 is not
   * above 0.9, and purpose keeps its default 1.0, which is above 0.8.
   */
  lemma FlourishingTestYieldsPurposeful(timestamp: string)
    ensures SynthesizeMood(DefaultRho(timestamp).(integrity := 0.9, virtue := 0.9, efficiency := 0.9,
                                                  dissonance := 0.1)) == Purposeful
  {
  }

  /** The other two unit-test moods, each from the dataclass defaults with the test's overrides. */
  lemma MoodExamples(timestamp: string)
    ensures SynthesizeMood(DefaultRho(timestamp).(integrity := 0.95, dissonance := 0.1)) == Coherent
    ensures SynthesizeMood(DefaultRho(timestamp).(virtue := 0.3)) == EthicalCrisis
  {
  }
}
