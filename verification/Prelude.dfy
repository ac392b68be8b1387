/** Values shared by every component: optional results and Go's 64-bit integers. */
module Prelude {

  datatype Option<+T> = None | Some(value: T)

  /** Go's uint64. */
  type U64 = x: int | 0 <= x < 0x1_0000_0000_0000_0000

  /** Go's int64, which is also the representation of time.Duration. */
  type I64 = x: int | -0x8000_0000_0000_0000 <= x < 0x8000_0000_0000_0000

  /** The uint64 that wrap-around arithmetic stores for the exact result x: the only uint64 that differs
      from x by a multiple of 2^64 (see WrapUMultiple). */
  function WrapU(x: int): U64
    decreases x < 0, if x < 0 then -x else x
  {
    if x < 0 then WrapU(x + 0x1_0000_0000_0000_0000)
    else if x >= 0x1_0000_0000_0000_0000 then WrapU(x - 0x1_0000_0000_0000_0000)
    else x
  }

  /** The int64 that wrap-around arithmetic stores for the exact result x: the only int64 that differs
      from x by a multiple of 2^64 (see WrapIMultiple). */
  function WrapI(x: int): I64
    decreases if x < 0 then -x else x + 1
  {
    if x < -0x8000_0000_0000_0000 then WrapI(x + 0x1_0000_0000_0000_0000)
    else if x >= 0x8000_0000_0000_0000 then WrapI(x - 0x1_0000_0000_0000_0000)
    else x
  }

  /** Reading a Go map: the zero value stands for a missing key. */
  function Get<V>(m: map<string, V>, key: string, zero: V): V {
    if key in m then m[key] else zero
  }

  function Last<T>(s: seq<T>): T
    requires s != []
  {
    s[|s| - 1]
  }

  function Front<T>(s: seq<T>): seq<T>
    requires s != []
  {
    s[..|s| - 1]
  }

  /** Appending and then dropping the last element gives the sequence back. */
  lemma FrontOfAppend<T>(s: seq<T>, x: T)
    ensures Front(s + [x]) == s && Last(s + [x]) == x
  {
  }

  lemma {:induction false} WrapUMultiple(x: int) returns (k: int)
    ensures WrapU(x) == x + 0x1_0000_0000_0000_0000 * k
    decreases x < 0, if x < 0 then -x else x
  {
    if x < 0 {
      k := WrapUMultiple(x + 0x1_0000_0000_0000_0000);
      k := k + 1;
    } else if x >= 0x1_0000_0000_0000_0000 {
      k := WrapUMultiple(x - 0x1_0000_0000_0000_0000);
      k := k - 1;
    } else {
      k := 0;
    }
  }

  /** A multiple of m strictly between -m and m is zero. */
  lemma SmallMultiple(m: int, k: int)
    requires m > 0 && -m < m * k < m
    ensures k == 0
  {
  }

  /** Adding a multiple of 2^64 leaves the stored value alone. */
  lemma WrapUShift(x: int, y: int, k: int)
    requires y == x + 0x1_0000_0000_0000_0000 * k
    ensures WrapU(y) == WrapU(x)
  {
    var i := WrapUMultiple(x);
    var j := WrapUMultiple(y);
    SmallMultiple(0x1_0000_0000_0000_0000, k + j - i);
  }

  /** Wrapping early or late makes no difference to a sum of uint64 values. */
  lemma WrapUAdd(x: int, y: int)
    ensures WrapU(WrapU(x) + y) == WrapU(x + y)
  {
    var k := WrapUMultiple(x);
    WrapUShift(x + y, WrapU(x) + y, k);
  }

  lemma {:induction false} WrapIMultiple(x: int) returns (k: int)
    ensures WrapI(x) == x + 0x1_0000_0000_0000_0000 * k
    decreases if x < 0 then -x else x + 1
  {
    if x < -0x8000_0000_0000_0000 {
      k := WrapIMultiple(x + 0x1_0000_0000_0000_0000);
      k := k + 1;
    } else if x >= 0x8000_0000_0000_0000 {
      k := WrapIMultiple(x - 0x1_0000_0000_0000_0000);
      k := k - 1;
    } else {
      k := 0;
    }
  }

  /** Adding a multiple of 2^64 leaves the stored value alone. */
  lemma WrapIShift(x: int, y: int, k: int)
    requires y == x + 0x1_0000_0000_0000_0000 * k
    ensures WrapI(y) == WrapI(x)
  {
    var i := WrapIMultiple(x);
    var j := WrapIMultiple(y);
    SmallMultiple(0x1_0000_0000_0000_0000, k + j - i);
  }

  /** Wrapping early or late makes no difference to a sum of int64 values. */
  lemma WrapIAdd(x: int, y: int)
    ensures WrapI(WrapI(x) + WrapI(y)) == WrapI(x + y)
  {
    var i := WrapIMultiple(x);
    var j := WrapIMultiple(y);
    WrapIShift(x + y, WrapI(x) + WrapI(y), i + j);
  }
}
