/** Types that several modules use. */
module Common {

  datatype Option<+T> = None | Some(value: T)

  /** A 32-bit unsigned word. */
  type Word = x: int | 0 <= x < 0x1_0000_0000

  function Sum(xs: seq<real>): real {
    if xs == [] then 0.0 else Sum(xs[..|xs| - 1]) + xs[|xs| - 1]
  }

  lemma SumAppend(xs: seq<real>, x: real)
    ensures Sum(xs + [x]) == Sum(xs) + x
  {
    assert (xs + [x])[..|xs|] == xs;
  }
}
