/**
 Small vocabulary that several components share.
 */
module Common {

  datatype Option<T> = None | Some(value: T)

  /** Values of an unsigned int, and of an unsigned long on a 32-bit machine, are below this. */
  const WORD: nat := 0x1_0000_0000

  /** An unlimited runtime, and the mark of a CPU whose runtime is disabled. */
  const RUNTIME_INF: nat := 0xFFFF_FFFF_FFFF_FFFF

  const MAX_RT_PRIO: int := 100

  function Pow2(n: nat): (r: nat)
    ensures r > 0
  {
    if n == 0 then 1 else 2 * Pow2(n - 1)
  }
}
