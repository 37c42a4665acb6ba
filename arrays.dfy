/** Shape conventions for the numpy arrays the processor works on, and the
    errors that numpy, scipy and Python raise along the way. */
module Arrays {

  /** The exceptions the processor can raise, one constructor per cause. */
  datatype Error =
    | ShapeUnpack          // `C, _, _ = stack.shape` on an array that is not 3-D
    | EmptyReduction       // np.max / np.min along an axis of length 0
    | ZeroDivision         // `1 / T` with T == 0
    | InvalidFilterDesign  // scipy.signal.butter: order < 0 or Wn outside (0, 1)

  datatype Result<T> = Ok(value: T) | Err(error: Error)

  /** `g` is a rows-by-cols grid: a 2-D array of shape (rows, cols). */
  predicate IsGrid<T>(g: seq<seq<T>>, rows: nat, cols: nat)
  {
    |g| == rows && forall i :: 0 <= i < rows ==> |g[i]| == cols
  }

  /** The second axis of a 2-D array (0 when it has no rows). */
  function Width<T>(g: seq<seq<T>>): nat
  {
    if |g| == 0 then 0 else |g[0]|
  }

  /** Every row of `g` has the same length, as in any numpy 2-D array. */
  predicate IsPlane<T>(g: seq<seq<T>>)
  {
    IsGrid(g, |g|, Width(g))
  }
}
