/**
 The 24-byte BFD control header of section 4.1 of RFC 5880, and the checks a received one must pass before
 it reaches the session.
 */
module BfdPacket {
  import opened Bytes
  import opened BfdSession

  const PKT_LEN: byte := 24
  const VERSION: byte := 1

  function Big32(x: u32): seq<byte> {
    [x / 0x100_0000, x / 0x1_0000 % 0x100, x / 0x100 % 0x100, x % 0x100]
  }

  function Read32(b: seq<byte>, i: nat): u32
    requires i + 4 <= |b|
  {
    b[i] as int * 0x100_0000 + b[i + 1] as int * 0x1_0000 + b[i + 2] as int * 0x100 + b[i + 3] as int
  }

  function StateCode(s: SesState): byte {
    match s
    case AdminDown => 0
    case Down => 1
    case Init => 2
    case Up => 3
  }

  function CodeState(n: byte): SesState {
    if n == 0 then AdminDown else if n == 1 then Down else if n == 2 then Init else Up
  }

  function Bit(on: bool, weight: byte): byte {
    if on then weight else 0
  }

  predicate BitOf(b: byte, weight: byte)
    requires weight > 0
  {
    b as int / weight as int % 2 == 1
  }

  function Flags(p: Pkt, cbit: bool): int {
    StateCode(p.state) as int * 64 + Bit(p.poll, 32) as int + Bit(p.final, 16) as int + Bit(cbit, 8) as int
    + Bit(p.demand, 2) as int
  }

  lemma FlagsFit(p: Pkt, cbit: bool)
    ensures 0 <= Flags(p, cbit) < 0x100
    ensures CodeState(Flags(p, cbit) / 64) == p.state
    ensures BitOf(Flags(p, cbit), 32) == p.poll && BitOf(Flags(p, cbit), 16) == p.final &&
            BitOf(Flags(p, cbit), 8) == cbit
    ensures !BitOf(Flags(p, cbit), 4) && BitOf(Flags(p, cbit), 2) == p.demand && !BitOf(Flags(p, cbit), 1)
  {
    var f := Flags(p, cbit);
    assert f / 32 == 2 * StateCode(p.state) as int + (if p.poll then 1 else 0);
    assert f / 16 == 2 * (f / 32) + (if p.final then 1 else 0);
    assert f / 8 == 2 * (f / 16) + (if cbit then 1 else 0);
    assert f / 4 == 2 * (f / 8);
    assert f / 2 == 2 * (f / 4) + (if p.demand then 1 else 0);
  }

  /** A packet as its sender writes it; the C bit and the echo interval are carried along untouched. */
  function Wire(p: Pkt, cbit: bool, echo: u32): (b: seq<byte>)
    requires p.diag < 32
    ensures |b| == PKT_LEN as int
  {
    FlagsFit(p, cbit);
    [VERSION as int * 32 + p.diag, Flags(p, cbit), p.mult, PKT_LEN] + Big32(p.myDiscr) + Big32(p.yourDiscr)
    + Big32(p.timers.tx) + Big32(p.timers.rx) + Big32(echo)
  }

  datatype Verdict =
    | TooShort
    | BadVersion
    | ZeroMultiplier
    | BadLength
    | Multipoint
    | ZeroMyDiscr
    | ZeroYourDiscr
    | Accepted(p: Pkt)

  function Header(b: seq<byte>): Pkt
    requires |b| >= PKT_LEN as int
  {
    Pkt(CodeState(b[1] as int / 64), BitOf(b[1], 32), BitOf(b[1], 16), BitOf(b[1], 2), b[2],
        Read32(b, 4), Read32(b, 8), Timers(Read32(b, 12), Read32(b, 16)), b[0] as int % 32)
  }

  /** The checks of the receive path, in their order. */
  function Examine(b: seq<byte>): Verdict {
    if |b| < PKT_LEN as int then TooShort
    else if b[0] as int / 32 != VERSION as int then BadVersion
    else if b[2] == 0 then ZeroMultiplier
    else if b[3] < PKT_LEN || b[3] as int > |b| then BadLength
    else if BitOf(b[1], 1) then Multipoint
    else if Header(b).myDiscr == 0 then ZeroMyDiscr
    else if Header(b).yourDiscr == 0 && !Header(b).state.Down? && !Header(b).state.AdminDown? then ZeroYourDiscr
    else Accepted(Header(b))
  }

  /** What a packet must satisfy to be taken. */
  predicate HeaderOk(p: Pkt) {
    && p.mult != 0
    && p.myDiscr != 0
    && (p.yourDiscr == 0 ==> p.state.Down? || p.state.AdminDown?)
  }

  lemma Read32Big32(x: u32, pre: seq<byte>, post: seq<byte>)
    ensures |Big32(x)| == 4 && Read32(pre + Big32(x) + post, |pre|) == x
  {
    var b := pre + Big32(x) + post;
    assert b[|pre|] == Big32(x)[0] && b[|pre| + 1] == Big32(x)[1] && b[|pre| + 2] == Big32(x)[2] &&
           b[|pre| + 3] == Big32(x)[3];
    assert x / 0x1_0000 == x / 0x100_0000 * 0x100 + x / 0x1_0000 % 0x100;
    assert x / 0x100 == x / 0x1_0000 * 0x100 + x / 0x100 % 0x100;
  }

  lemma WireFields(p: Pkt, cbit: bool, echo: u32)
    requires p.diag < 32
    ensures var b := Wire(p, cbit, echo);
            && Read32(b, 4) == p.myDiscr && Read32(b, 8) == p.yourDiscr
            && Read32(b, 12) == p.timers.tx && Read32(b, 16) == p.timers.rx
  {
    hide Flags, Read32;
    FlagsFit(p, cbit);
    var h: seq<byte> := [VERSION as int * 32 + p.diag, Flags(p, cbit), p.mult, PKT_LEN];
    var m, y, t, r, e := Big32(p.myDiscr), Big32(p.yourDiscr), Big32(p.timers.tx), Big32(p.timers.rx), Big32(echo);
    var b := Wire(p, cbit, echo);
    assert b == h + m + (y + t + r + e);
    Read32Big32(p.myDiscr, h, y + t + r + e);
    assert b == (h + m) + y + (t + r + e);
    Read32Big32(p.yourDiscr, h + m, t + r + e);
    assert b == (h + m + y) + t + (r + e);
    Read32Big32(p.timers.tx, h + m + y, r + e);
    assert b == (h + m + y + t) + r + e;
    Read32Big32(p.timers.rx, h + m + y + t, e);
  }

  /** Every packet survives the trip over the wire, and is accepted exactly when its header is in order. */
  lemma WireRoundTrip(p: Pkt, cbit: bool, echo: u32)
    requires p.diag < 32
    ensures Header(Wire(p, cbit, echo)) == p
    ensures Examine(Wire(p, cbit, echo)) == Accepted(p) <==> HeaderOk(p)
  {
    hide Flags, Read32;
    FlagsFit(p, cbit);
    WireFields(p, cbit, echo);
    var b := Wire(p, cbit, echo);
    assert b[0] as int == 32 + p.diag && b[1] as int == Flags(p, cbit) && b[2] == p.mult && b[3] == PKT_LEN;
  }
}
