/** The rho metrics: the kernel's numeric state variables (si_dcos_kernel.py:53-69). */
module Metrics {

  /**
   * One snapshot of the rho metrics. The source's floats are modelled as reals:
   * every use below only compares them against constants (scores in Telos
   * are the one place they are combined arithmetically).
   */
  datatype RhoMetrics = RhoMetrics(
    integrity: real,
    dissonance: real,
    purpose: real,
    aesthetic: real,
    virtue: real,
    efficiency: real,
    timestamp: string)

  /**
   * The dataclass defaults, with the creation time passed in: every metric
   * starts at its best value, full integrity, purpose, aesthetic, virtue and
   * efficiency with no dissonance.
   */
  function DefaultRho(timestamp: string): (rho: RhoMetrics)
    ensures rho.integrity == 1.0 && rho.purpose == 1.0 && rho.aesthetic == 1.0
    ensures rho.virtue == 1.0 && rho.efficiency == 1.0
    ensures rho.dissonance == 0.0 && rho.timestamp == timestamp
  {
    RhoMetrics(1.0, 0.0, 1.0, 1.0, 1.0, 1.0, timestamp)
  }
}
