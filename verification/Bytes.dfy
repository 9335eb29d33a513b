/** Byte strings, addresses and prefixes as babeld handles them. */
module Bytes {
  type byte = x: int | 0 <= x < 0x100
  type u16 = x: int | 0 <= x < 0x1_0000

  type Addr = s: seq<byte> | |s| == 16 witness seq(16, _ => 0)
  type RouterId = s: seq<byte> | |s| == 8 witness seq(8, _ => 0)

  /** A destination: sixteen address bytes and a prefix length (IPv4 is v4-mapped, with 96 added). */
  datatype Prefix = Prefix(addr: Addr, plen: byte)

  const V4PREFIX: seq<byte> := [0, 0, 0, 0, 0, 0, 0, 0, 0, 0, 0xFF, 0xFF]

  predicate V4Mapped(a: Addr) {
    a[..12] == V4PREFIX
  }

  predicate AllZero(s: seq<byte>) {
    forall i | 0 <= i < |s| :: s[i] == 0
  }

  predicate AllOnes(s: seq<byte>) {
    forall i | 0 <= i < |s| :: s[i] == 0xFF
  }

  /** memcmp on two strings of one length: negative, zero or positive. */
  function MemCmp(a: seq<byte>, b: seq<byte>): int
    requires |a| == |b|
  {
    if |a| == 0 then 0
    else if a[0] != b[0] then a[0] - b[0]
    else MemCmp(a[1..], b[1..])
  }

  lemma {:induction false} MemCmpAntisymmetric(a: seq<byte>, b: seq<byte>)
    requires |a| == |b|
    ensures MemCmp(b, a) == -MemCmp(a, b)
    ensures MemCmp(a, b) == 0 <==> a == b
  {
    if |a| != 0 {
      MemCmpAntisymmetric(a[1..], b[1..]);
      assert a == [a[0]] + a[1..] && b == [b[0]] + b[1..];
    }
  }

  lemma {:induction false} MemCmpTransitive(a: seq<byte>, b: seq<byte>, c: seq<byte>)
    requires |a| == |b| == |c|
    requires MemCmp(a, b) <= 0 && MemCmp(b, c) <= 0
    ensures MemCmp(a, c) <= 0
    ensures MemCmp(a, c) == 0 ==> MemCmp(a, b) == 0 && MemCmp(b, c) == 0
  {
    if |a| != 0 && a[0] == b[0] == c[0] {
      MemCmpTransitive(a[1..], b[1..], c[1..]);
    }
  }

  predicate MartianPrefix(p: Prefix) {
    var a := p.addr;
    || (p.plen >= 8 && a[0] == 0xFF)
    || (p.plen >= 10 && a[0] == 0xFE && a[1] / 0x40 == 2)
    || (p.plen >= 128 && AllZero(a[..15]) && a[15] <= 1)
    || (p.plen >= 96 && V4Mapped(a) &&
        ((p.plen >= 104 && (a[12] == 127 || a[12] == 0)) || (p.plen >= 100 && a[12] / 0x20 == 7)))
  }
}
