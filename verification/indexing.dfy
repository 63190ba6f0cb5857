/** List subscription as the emulator's host language performs it: an index
    may be negative and then counts from the end, and anything outside
    [-n, n) raises an index error instead of reading or writing a cell. RAM
    and the register file are both such lists, and every address the machine
    computes goes through here. */
module Indexing {

  datatype Option<+T> = None | Some(value: T)

  function Abs(x: int): nat
  {
    if x < 0 then -x else x
  }

  /** The cell that index `i` denotes in a list of length `n`, if any. */
  function Slot(n: nat, i: int): (r: Option<nat>)
    ensures r.Some? <==> 0 <= i + n && i < n
    ensures r.Some? ==> r.value < n && (r.value == i || r.value == i + n)
  {
    if 0 <= i < n then Some(i)
    else if 0 <= i + n && i < 0 then Some(i + n)
    else None
  }

  /** Two in-range indices name the same cell exactly when they are equal or
      one is the other's negative alias, `n` below it. */
  lemma SameSlot(n: nat, i: int, j: int)
    requires 0 <= i + n && i < n && 0 <= j + n && j < n
    ensures Slot(n, i) == Slot(n, j) <==> i == j || i == j + n || j == i + n
  {
  }

  /** `s[i]`, or None where the host language raises an index error. */
  function Get(s: seq<int>, i: int): (r: Option<int>)
    ensures r.Some? <==> 0 <= i + |s| && i < |s|
    ensures r.Some? ==> r.value == s[Slot(|s|, i).value]
  {
    match Slot(|s|, i)
    case None => None
    case Some(k) => Some(s[k])
  }

  /** `s[i] = v`, or None where the host language raises an index error. */
  function Set(s: seq<int>, i: int, v: int): (r: Option<seq<int>>)
    ensures r.Some? <==> 0 <= i + |s| && i < |s|
    ensures r.Some? ==> |r.value| == |s|
    ensures r.Some? ==> forall k :: 0 <= k < |s| ==>
              r.value[k] == (if k == Slot(|s|, i).value then v else s[k])
  {
    match Slot(|s|, i)
    case None => None
    case Some(k) => Some(s[k := v])
  }

  /** Reading back an address just written yields the written value, through
      any index that names the same cell; every other cell is unaffected. */
  lemma GetAfterSet(s: seq<int>, i: int, v: int, j: int)
    requires 0 <= i + |s| && i < |s|
    ensures Get(Set(s, i, v).value, j)
            == if Slot(|s|, j) == Slot(|s|, i) then Some(v) else Get(s, j)
  {
  }
}
