/** Sequences. */
module Sequences {

  /** The sequence without its element at k. */
  function Unlink<T>(s: seq<T>, k: nat): (r: seq<T>)
    requires k < |s|
    ensures |r| == |s| - 1
  {
    s[..k] + s[k + 1..]
  }
}
