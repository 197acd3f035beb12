/** What the step systems share. */
module Common {

  /** Threads of a step system, by number. */
  type Tid = nat

  datatype Option<T> = None | Some(value: T)

  function Pow2(e: nat): (p: nat)
    ensures p > 0
  {
    if e == 0 then 1 else 2 * Pow2(e - 1)
  }
}
