/** Sizes that are fixed when a hash is created. */
module Config {
  const MAX_THREADS: nat := 128
  const ZERO_BATCH_SIZE: nat := 1024

  /** The size of both rings, computed in 32-bit unsigned arithmetic. */
  function MaxSubmissions(queueDepth: nat, workers: nat): (size: nat)
    ensures size >= 32
  {
    var most := if queueDepth > workers then queueDepth else workers;
    var scaled := most * 4 % 0x1_0000_0000;
    if scaled > 32 then scaled else 32
  }

  /** Below the width of the multiplication there is room for a STOP per worker and every update. */
  lemma RingsAreLargeEnough(queueDepth: nat, workers: nat)
    requires queueDepth < 0x4000_0000 && workers <= MAX_THREADS
    ensures workers <= MaxSubmissions(queueDepth, workers) && 4 * queueDepth <= MaxSubmissions(queueDepth, workers)
  {
  }
}
