/** Fixed-width little-endian words, as the packed structs of the protocol hold them. */
module Bytes {
  type byte = x: int | 0 <= x < 0x100
  type u16 = x: int | 0 <= x < 0x1_0000
  type u32 = x: int | 0 <= x < 0x1_0000_0000
  type u64 = x: int | 0 <= x < 0x1_0000_0000_0000_0000

  datatype Option<+T> = None | Some(value: T)

  function Pow256(n: nat): (p: nat)
    ensures p > 0
  {
    if n == 0 then 1 else 256 * Pow256(n - 1)
  }

  function ToLE(n: nat, x: nat): (s: seq<byte>)
    ensures |s| == n
  {
    if n == 0 then [] else [x % 256] + ToLE(n - 1, x / 256)
  }

  function FromLE(s: seq<byte>): nat {
    if s == [] then 0 else s[0] + 256 * FromLE(s[1..])
  }

  lemma {:induction false} LERoundTrip(n: nat, x: nat)
    requires x < Pow256(n)
    ensures FromLE(ToLE(n, x)) == x
  {
    if n > 0 {
      LERoundTrip(n - 1, x / 256);
      assert ToLE(n, x)[1..] == ToLE(n - 1, x / 256);
    }
  }

  function Sum(widths: seq<nat>): nat {
    if widths == [] then 0 else widths[0] + Sum(widths[1..])
  }

  /** The fields of a packed struct, one after the other. */
  function Pack(widths: seq<nat>, values: seq<nat>): (s: seq<byte>)
    requires |widths| == |values|
    ensures |s| == Sum(widths)
  {
    if widths == [] then [] else ToLE(widths[0], values[0]) + Pack(widths[1..], values[1..])
  }

  /** Reads the fields of a packed struct at the start of b. */
  function Unpack(widths: seq<nat>, b: seq<byte>): (values: seq<nat>)
    requires Sum(widths) <= |b|
    ensures |values| == |widths|
  {
    if widths == [] then []
    else [FromLE(b[..widths[0]])] + Unpack(widths[1..], b[widths[0]..])
  }

  /** Bound of an unsigned word of w bytes, for the widths the protocol uses. */
  function Limit(w: nat): nat {
    if w == 8 then 0x1_0000_0000_0000_0000 else if w == 4 then 0x1_0000_0000 else if w == 1 then 0x100 else 0
  }

  lemma LimitIsPower(w: nat)
    ensures Limit(w) <= Pow256(w)
  {
    assert Pow256(1) == 256 * Pow256(0);
    assert Pow256(2) == 256 * Pow256(1);
    assert Pow256(4) == 256 * 256 * Pow256(2);
    assert Pow256(8) == 256 * 256 * 256 * 256 * Pow256(4);
  }

  predicate Fit(widths: seq<nat>, values: seq<nat>) {
    |widths| == |values| && forall i :: 0 <= i < |widths| ==> values[i] < Limit(widths[i])
  }

  lemma {:induction false} UnpackPack(widths: seq<nat>, values: seq<nat>, rest: seq<byte>)
    requires Fit(widths, values)
    ensures Unpack(widths, Pack(widths, values) + rest) == values
  {
    if widths != [] {
      var b := Pack(widths, values) + rest;
      var head := ToLE(widths[0], values[0]);
      assert b == head + (Pack(widths[1..], values[1..]) + rest);
      assert b[..widths[0]] == head;
      assert b[widths[0]..] == Pack(widths[1..], values[1..]) + rest;
      LimitIsPower(widths[0]);
      LERoundTrip(widths[0], values[0]);
      UnpackPack(widths[1..], values[1..], rest);
    }
  }

  /** A flag of a flag byte: the bit with weight w. */
  predicate HasFlag(flags: byte, w: int)
    requires w > 0
  {
    flags / w % 2 == 1
  }
}
