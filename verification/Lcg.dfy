/**
 The linear congruential generator shared by src/shift_register_modulator.cpp and
 src/stochastic_modulator.cpp: 32-bit wrap-around, and the top 24 bits read as a fraction.
 */
module Lcg {

  type Seed = s: int | 0 <= s < 0x1_0000_0000

  function NextSeed(s: Seed): Seed { (s * 1664525 + 1013904223) % 0x1_0000_0000 }

  /** The seed after `n` draws. */
  function Later(s: Seed, n: nat): Seed { if n == 0 then s else NextSeed(Later(s, n - 1)) }

  /** The value drawn when the generator has reached this seed; never negative and never one. */
  function Draw(s: Seed): (r: real)
    ensures 0.0 <= r < 1.0
  {
    (s / 256) as real / 16777216.0
  }
}
