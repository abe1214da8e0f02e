/** The parameter vector the stiff-string simulation consumes. Only its
    layout matters here; the simulation itself is not modelled. */
module StiffString {

  /** Seven physical constants, in the order the simulation expects them:
      length, density, radius, tension, Young's modulus and the two damping
      coefficients. */
  datatype SimulationParameters = SimulationParameters(
    L: real, rho: real, r: real, T: real, E: real, sigma0: real, sigma1: real)

  /** The fields in their declared order, position by position; a layout
      helper for stating where each value lands in the vector. */
  function Fields(p: SimulationParameters): seq<real>
  {
    [p.L, p.rho, p.r, p.T, p.E, p.sigma0, p.sigma1]
  }
}
