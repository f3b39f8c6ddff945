/** Small value types shared by every module of the model. */
module Wrappers {

  datatype Option<+T> = None | Some(value: T)

  datatype Result<+R, +E> = Success(value: R) | Failure(error: E)

  /** What `parseFloat` / `parseInt` make of one form field or spreadsheet cell:
      an empty text, a text that is not a number (NaN), or a number. */
  datatype Field<+T> = Blank | Malformed | Parsed(value: T)

  /** `parseFloat(x) || d`: NaN and 0 are both falsy, so both give the default. */
  function RealOr(f: Field<real>, d: real): (r: real)
    ensures f.Parsed? && f.value != 0.0 ==> r == f.value
    ensures !(f.Parsed? && f.value != 0.0) ==> r == d
  {
    if f.Parsed? && f.value != 0.0 then f.value else d
  }

  /** `parseInt(x) || d`, the integer counterpart of RealOr. */
  function IntOr(f: Field<int>, d: int): (r: int)
    ensures f.Parsed? && f.value != 0 ==> r == f.value
    ensures !(f.Parsed? && f.value != 0) ==> r == d
  {
    if f.Parsed? && f.value != 0 then f.value else d
  }

  function MaxReal(a: real, b: real): (m: real)
    ensures m >= a && m >= b
    ensures m == a || m == b
  {
    if a >= b then a else b
  }

  /** `findIndex(p)`: the position of the first element satisfying `p`, or -1 when there is none. */
  function FirstIndex<T>(s: seq<T>, p: T -> bool): (k: int)
    ensures -1 <= k < |s|
    ensures k >= 0 ==> p(s[k]) && forall j :: 0 <= j < k ==> !p(s[j])
    ensures k < 0 ==> forall j :: 0 <= j < |s| ==> !p(s[j])
  {
    if s == [] then -1
    else if p(s[0]) then 0
    else
      var k := FirstIndex(s[1..], p);
      if k < 0 then -1 else k + 1
  }
}
