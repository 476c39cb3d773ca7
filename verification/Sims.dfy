/** The two SIMs of the device, and the data contexts of each. */
module Sims {
  const SIM_COUNT := 2
  const MAX_PDP := 6

  type Sim = i: int | 0 <= i < SIM_COUNT
}
