/** Arithmetic shared by the simulator and the recommender. */
module Numbers {

  /** Python's `abs` on a real. */
  function Abs(x: real): (r: real)
    ensures r >= 0.0 && (r == x || r == -x)
  {
    if x < 0.0 then -x else x
  }
}
