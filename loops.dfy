/** Loop counts shared by the renderer and the sphere mesh. */
module Loops {

  /** How often `for (int i = 0; i < n; ++i)` runs: n, or none for n < 0. */
  function Iterations(n: int): nat
  {
    if n < 0 then 0 else n
  }
}
