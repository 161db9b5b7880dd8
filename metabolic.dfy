/** Metabolic governance: routing a task to a computational tier by power state (si_dcos_kernel.py:38-41, 237-285). */
module Metabolic {
  import opened Wrappers

  datatype MetabolicState = DeepQuiescence | ReflexMode | CognitiveFlow

  const CriticalBattery: real := 20.0

  /**
   * `determine_metabolic_state`: a critical battery or a draw below 1 W means
   * quiescence, below 5 W reflex mode, anything else cognitive flow.
   */
  function DetermineMetabolicState(batteryPercent: real, powerDrawWatts: real): (m: MetabolicState)
    ensures m == DeepQuiescence <==> batteryPercent < CriticalBattery || powerDrawWatts < 1.0
    ensures m == ReflexMode <==> batteryPercent >= CriticalBattery && 1.0 <= powerDrawWatts < 5.0
    ensures m == CognitiveFlow <==> batteryPercent >= CriticalBattery && powerDrawWatts >= 5.0
  {
    if batteryPercent < CriticalBattery then DeepQuiescence
    else if powerDrawWatts < 1.0 then DeepQuiescence
    else if powerDrawWatts < 5.0 then ReflexMode
    else CognitiveFlow
  }

  /**
   * The tier `route_request` answers once the metrics are read: a critical
   * battery overrides everything, then "SIMPLE" and "COMPLEX" have fixed
   * tiers, and any other complexity falls back to the power state.
   */
  function Route(batteryPercent: real, powerDrawWatts: real, complexity: string): (m: MetabolicState)
    ensures batteryPercent < CriticalBattery ==> m == DeepQuiescence
    ensures batteryPercent >= CriticalBattery && complexity == "SIMPLE" ==> m == ReflexMode
    ensures batteryPercent >= CriticalBattery && complexity == "COMPLEX" ==> m == CognitiveFlow
    ensures complexity != "SIMPLE" && complexity != "COMPLEX" ==> m == DetermineMetabolicState(batteryPercent, powerDrawWatts)
    ensures m == DeepQuiescence <==>
              batteryPercent < CriticalBattery ||
              (complexity != "SIMPLE" && complexity != "COMPLEX" && powerDrawWatts < 1.0)
  {
    if batteryPercent < CriticalBattery then DeepQuiescence
    else
      var state := DetermineMetabolicState(batteryPercent, powerDrawWatts);
      if complexity == "SIMPLE" then ReflexMode
      else if complexity == "COMPLEX" then CognitiveFlow
      else state
  }

  /**
   * What one call of `read_hardware_metrics` observed. `batteryPercent` is
   * absent when the device has no battery or the sensor read failed;
   * `powerDrawWatts` is absent when the CPU/memory read raised, in which case
   * nothing later in that call is assigned.
   */
  datatype HardwareReading = HardwareReading(batteryPercent: Option<real>, powerDrawWatts: Option<real>)

  class MetabolicGovernanceCore {
    var batteryPercent: real
    var powerDrawWatts: real
    var thermalState: string

    constructor ()
      ensures batteryPercent == 100.0 && powerDrawWatts == 1.0 && thermalState == "NORMAL"
    {
      batteryPercent := 100.0;
      powerDrawWatts := 1.0;
      thermalState := "NORMAL";
    }

    /** Stores whatever the sensors delivered; a missing value keeps the previous one. */
    method ReadHardwareMetrics(reading: HardwareReading)
      modifies this
      ensures batteryPercent == reading.batteryPercent.GetOr(old(batteryPercent))
      ensures powerDrawWatts == reading.powerDrawWatts.GetOr(old(powerDrawWatts))
      ensures thermalState == old(thermalState)
    {
      if reading.batteryPercent.Some? {
        batteryPercent := reading.batteryPercent.value;
      }
      if reading.powerDrawWatts.Some? {
        powerDrawWatts := reading.powerDrawWatts.value;
      }
    }

    /** Reads the metrics, then picks the tier for the task from the fresh values. */
    method RouteRequest(taskComplexity: string, reading: HardwareReading) returns (m: MetabolicState)
      modifies this
      ensures batteryPercent == reading.batteryPercent.GetOr(old(batteryPercent))
      ensures powerDrawWatts == reading.powerDrawWatts.GetOr(old(powerDrawWatts))
      ensures thermalState == old(thermalState)
      ensures m == Route(batteryPercent, powerDrawWatts, taskComplexity)
    {
      ReadHardwareMetrics(reading);
      if batteryPercent < CriticalBattery {
        return DeepQuiescence;
      }
      var metabolicState := DetermineMetabolicState(batteryPercent, powerDrawWatts);
      if taskComplexity == "SIMPLE" {
        m := ReflexMode;
      } else if taskComplexity == "COMPLEX" {
        m := CognitiveFlow;
      } else {
        m := metabolicState;
      }
    }
  }

  /** The unit tests' routing cases, on a fresh core whose sensors report nothing new. */
  lemma RouteExamples()
    ensures Route(100.0, 1.0, "SIMPLE") == ReflexMode
    ensures Route(100.0, 1.0, "COMPLEX") == CognitiveFlow
    ensures Route(15.0, 1.0, "COMPLEX") == DeepQuiescence
  {
  }
}
