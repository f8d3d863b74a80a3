/** The per-tile animation: a random phase chosen once per tile and the
    elevation it gives at a point in time.

    The random source and sin are abstracted: a random draw is an integer in
    [0, RandMax], and Sin is an otherwise unknown function whose values lie
    in [-1, 1]. */
module Heights {

  /** Largest value of the C library's rand() (the glibc value). */
  const RandMax: int := 2147483647

  /** Greatest phase a tile can be given, and half the elevation range. */
  const PhaseScale: real := 2.5

  type UnitWave = f: real -> real | forall x :: -1.0 <= f(x) <= 1.0 witness (x: real) => 0.0

  /** The sine function, known here only by its range. */
  const Sin: UnitWave

  /** Phase of a tile seeded with random draw r: 2.5 * r / RandMax. */
  function Phase(r: int): (p: real)
    ensures 0 <= r <= RandMax ==> 0.0 <= p <= PhaseScale
  {
    PhaseScale * r as real / RandMax as real
  }

  /** The phase interval is closed: draw 0 gives 0 and RandMax gives exactly
      2.5, and larger draws give larger phases. */
  lemma PhaseRange(r: int, r': int)
    ensures Phase(0) == 0.0 && Phase(RandMax) == PhaseScale
    ensures r < r' ==> Phase(r) < Phase(r')
  {
  }

  /** Elevation of a tile with phase `phase` at time t: 2.5 * (1 + sin(t + phase)). */
  function Elevation(t: real, phase: real): (h: real)
    ensures 0.0 <= h <= 2.0 * PhaseScale
  {
    PhaseScale * (1.0 + Sin(t + phase))
  }

  /** A tile's elevation depends on time and phase only through their sum:
      advancing the clock by d is the same as shifting the phase by d. */
  lemma ElevationShift(t: real, phase: real, d: real)
    ensures Elevation(t + d, phase) == Elevation(t, phase + d)
  {
    assert t + d + phase == t + (phase + d);
  }
}
