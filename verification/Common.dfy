/** Definitions that several of the models share. */
module Common {
  datatype Option<T> = None | Some(value: T)

  /** 1 << k. */
  function Pow2(k: nat): (r: nat)
    ensures r > 0
  {
    if k == 0 then 1 else 2 * Pow2(k - 1)
  }

  /** m with v in row a and column b. */
  function Put<T>(m: seq<seq<T>>, a: nat, b: nat, v: T): (r: seq<seq<T>>)
    requires a < |m| && b < |m[a]|
    ensures |r| == |m| && forall i :: 0 <= i < |m| ==> |r[i]| == |m[i]|
    ensures forall i, j :: 0 <= i < |m| && 0 <= j < |m[i]| ==> r[i][j] == if i == a && j == b then v else m[i][j]
  {
    m[a := m[a][b := v]]
  }
}
