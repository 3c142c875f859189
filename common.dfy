/** Types shared by both editors. */
module Common {

  /** A value that may be absent: the JavaScript `null` of a lookup. */
  datatype Option<+T> = None | Some(value: T)

  /** The gesture a pointer press started: `null`, 'new', 'move' or 'resize'. */
  datatype Mode = Idle | New | Move | Resize

  function Max(a: real, b: real): (m: real)
    ensures m >= a && m >= b
    ensures m == a || m == b
  {
    if a >= b then a else b
  }

  /** `list.splice(i, 1)`: the list without its i-th element, the others in order. */
  function RemoveAt<T>(s: seq<T>, i: nat): (r: seq<T>)
    requires i < |s|
    ensures |r| == |s| - 1
    ensures forall j :: 0 <= j < |r| ==> r[j] == s[if j < i then j else j + 1]
  {
    s[..i] + s[i + 1..]
  }
}
