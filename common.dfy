/** Small shared vocabulary: an optional value, as Python's `None` or a value. */
module Common {

  datatype Option<+T> = None | Some(value: T)

  /** Python's `sum` over a list of numbers. */
  function Sum(xs: seq<real>): real
  {
    if xs == [] then 0.0 else Sum(xs[..|xs| - 1]) + xs[|xs| - 1]
  }

  /** A list is its prefix before `i` followed by the rest. */
  lemma SplitAt<T>(s: seq<T>, i: int)
    requires 0 <= i <= |s|
    ensures s[..i] + s[i..] == s
  {
  }
}
