/** The random draws of both demos, as nondeterministic choices within the
    range each library call documents. No generator is modelled. */
module Random {

  /** `numpy.random.randint(low, high)` and `random.randrange(low, high)`: both
      draw an integer in [low, high), the upper end excluded. */
  method RandRange(low: int, high: int) returns (r: int)
    requires low < high
    ensures low <= r < high
  {
    r :| low <= r < high;
  }

  /** `random.randint(a, b)`: an integer in [a, b], both ends included. */
  method RandInt(a: int, b: int) returns (r: int)
    requires a <= b
    ensures a <= r <= b
  {
    r :| a <= r <= b;
  }
}
