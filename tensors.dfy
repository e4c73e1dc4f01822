/** Arrays as the bridges see them: by shape only. Element values and
    the numeric work of the backends are not modelled. */
module Tensors {

  type Shape = seq<nat>

  /** The number of elements an array of shape `s` holds. */
  function Elements(s: Shape): nat {
    if s == [] then 1 else s[0] * Elements(s[1..])
  }

  /** The outcome of `np.array(value, dtype=np.float32)` on a request's JSON
      value: the shape of the array built, or the reason numpy refused it. */
  datatype Conversion = Converted(shape: Shape) | Refused(reason: string)

  /** An array a backend returned, described by its shape. */
  datatype Tensor = Tensor(shape: Shape)

  /** The batch-dimension rule `if len(x.shape) == 1: x = x.reshape(1, -1)`:
      a vector of n features becomes one sample of n features; every other
      rank is left alone. */
  function WithBatchDim(s: Shape): (r: Shape)
    ensures Elements(r) == Elements(s)
    ensures |r| != 1
    ensures |s| == 1 ==> r == [1] + s
    ensures |s| != 1 ==> r == s
  {
    if |s| == 1 then
      assert ([1] + s)[1..] == s;
      [1] + s
    else s
  }

  /** The column rule `if len(y.shape) == 1: y = y.reshape(-1, 1)`: a vector
      of n predictions becomes n rows of one column. */
  function AsColumn(s: Shape): (r: Shape)
    ensures Elements(r) == Elements(s)
    ensures |r| != 1
    ensures |s| == 1 ==> r == s + [1]
    ensures |s| != 1 ==> r == s
  {
    if |s| == 1 then
      assert (s + [1])[1..] == [1];
      assert Elements(s + [1]) == s[0] * Elements([1]) == s[0];
      assert Elements(s) == s[0] * Elements(s[1..]) == s[0];
      s + [1]
    else s
  }
}
