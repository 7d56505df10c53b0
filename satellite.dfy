/** The satellite.js calls the loaders make, as uninterpreted functions. */
module Satellite {
  import opened Wrappers
  import opened Three

  /** A JavaScript Date, as milliseconds since the Unix epoch. */
  type Instant = int

  /** `propagate(l1, l2, t)` stands for `satellite.propagate(satellite.twoline2satrec(l1, l2), t).position`,
      None meaning `undefined`; `eciToEcf(p, gmst)` for `satellite.eciToEcf`; `gstime(t)`
      for `satellite.gstime`. */
  datatype Propagator = Propagator(
    propagate: (string, string, Instant) -> Option<Vec3>,
    eciToEcf: (Vec3, real) -> Vec3,
    gstime: Instant -> real)
}
