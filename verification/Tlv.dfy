/**
 Receiving Babel packets: the length checks of babel_packet_examin, and parse_packet with the state it
 carries from one TLV to the next (router id, next hops and the prefixes that later updates abbreviate).
 */
module Tlv {
  import opened Bytes
  import opened Seqno

  const MESSAGE_PAD1 := 0
  const MESSAGE_ROUTER_ID := 6
  const MESSAGE_NH := 7
  const MESSAGE_UPDATE := 8
  const MESSAGE_MAX := 10

  const SUBTLV_DIVERSITY := 2
  const DIVERSITY_HOPS := 8
  const CHANNEL_INTERFERING := 255

  datatype Option<+T> = None | Some(value: T)

  /** tlv_min_length: shortest body of each known type. */
  function MinLength(t: byte): nat {
    if t == 2 then 6 else if t == 3 then 2 else if t == 4 then 6 else if t == 5 then 6
    else if t == 6 then 10 else if t == 7 then 2 else if t == 8 then 10 else if t == 9 then 2
    else if t == 10 then 14 else 0
  }

  /** The first message of a packet body: one byte of padding, or a type, a length and that many bytes. */
  predicate Complete(body: seq<byte>) {
    body != [] && (body[0] != MESSAGE_PAD1 ==> |body| >= 2 && body[1] + 2 <= |body| && body[1] >= MinLength(body[0]))
  }

  function MessageLength(body: seq<byte>): (n: nat)
    requires Complete(body)
    ensures 1 <= n <= |body|
  {
    if body[0] == MESSAGE_PAD1 then 1 else body[1] as int + 2
  }

  /** What babel_packet_examin accepts as a body. */
  predicate WellFormed(body: seq<byte>) {
    body == [] || (Complete(body) && WellFormed(body[MessageLength(body)..]))
  }

  function Short(m: seq<byte>, i: nat): u16
    requires i + 1 < |m|
  {
    m[i] as int * 0x100 + m[i + 1] as int
  }

  /** b with its k lowest bits cleared. */
  function ClearLow(b: byte, k: nat): (c: byte)
    requires 1 <= k <= 7
    ensures c <= b
  {
    match k
    case 1 => b - b % 2
    case 2 => b - b % 4
    case 3 => b - b % 8
    case 4 => b - b % 16
    case 5 => b - b % 32
    case 6 => b - b % 64
    case _ => b - b % 128
  }

  /** mask_prefix: every bit past the prefix length cleared. */
  function MaskPrefix(a: Addr, plen: nat): Addr {
    if plen >= 128 then a
    else
      seq(16, i requires 0 <= i < 16 =>
        if i < plen / 8 then a[i] else if i == plen / 8 && plen % 8 != 0 then ClearLow(a[i], 8 - plen % 8) else 0)
  }

  /** What network_prefix yields: how many bytes it used (negative for failure), and the address. */
  datatype Parsed = Parsed(used: int, addr: Addr)

  const ZEROES: Addr := [0, 0, 0, 0, 0, 0, 0, 0, 0, 0, 0, 0, 0, 0, 0, 0]

  const NO_PREFIX := Parsed(-1, ZEROES)

  function Raw(head: seq<byte>, p: seq<byte>): Addr
    requires |head| + |p| <= 16
  {
    head + p + seq(16 - |head| - |p|, _ => 0)
  }

  /** The first k bytes of p, or none when k is negative. */
  function Take(p: seq<byte>, k: int): seq<byte>
    requires k <= |p|
  {
    if k <= 0 then [] else p[..k]
  }

  /** network_prefix; plen is None for a bare address. */
  function NetworkPrefix(ae: byte, plen: Option<byte>, omitted: byte, dp: Option<Addr>, p: seq<byte>): Parsed {
    var pb := if plen.Some? then (plen.value + 7) / 8 else if ae == 1 then 4 else 16;
    var mask := if plen.None? then 128 else if ae == 1 then plen.value + 96 else plen.value;
    if pb > 16 then NO_PREFIX
    else if ae == 0 then Parsed(0, MaskPrefix(Raw([], []), mask))
    else if ae == 1 then
      if omitted > 4 || pb > 4 || pb - omitted > |p| || (omitted > 0 && (dp.None? || !V4Mapped(dp.value))) then
        NO_PREFIX
      else
        var head := if omitted > 0 then dp.value[..12 + omitted] else V4PREFIX;
        Parsed(pb - omitted, MaskPrefix(Raw(head, Take(p, pb - omitted)), mask))
    else if ae == 2 then
      if omitted > 16 || pb - omitted > |p| || (omitted > 0 && (dp.None? || V4Mapped(dp.value))) then NO_PREFIX
      else
        var head := if omitted > 0 then dp.value[..omitted] else [];
        Parsed(pb - omitted, MaskPrefix(Raw(head, Take(p, pb - omitted)), mask))
    else if ae == 3 then
      if pb - 8 > |p| then NO_PREFIX
      else Parsed(pb - 8, MaskPrefix(Raw([0xFE, 0x80, 0, 0, 0, 0, 0, 0], Take(p, pb - 8)), mask))
    else NO_PREFIX
  }

  /**
   What the receiver knows: the sender's address, whether its interface speaks IPv4 or is far away, and stale memory.
   */
  datatype Receiver = Receiver(from: Addr, ipv4: bool, faraway: bool, junk: RouterId)

  /** The variables that parse_packet keeps between TLVs. */
  datatype ParserState = ParserState(haveId: bool, id: RouterId, v4Prefix: Option<Addr>, v6Prefix: Option<Addr>,
                                     v4Nh: Option<Addr>, v6Nh: Option<Addr>)

  function Initial(rx: Receiver): ParserState {
    if V4Mapped(rx.from) then ParserState(false, rx.junk, None, None, Some(rx.from), None)
    else ParserState(false, rx.junk, None, None, None, Some(rx.from))
  }

  /** What a TLV makes the receiver do. */
  datatype Action =
    | Learn(id: RouterId, prefix: Prefix, dist: Dist, interval: u16, nexthop: Addr, channels: seq<byte>)
    | RetractAll

  function Flag(b: byte, bit: nat): bool
    requires bit == 0x80 || bit == 0x40
  {
    b / bit % 2 == 1
  }

  // ---- Sub-TLVs ----

  predicate SubComplete(a: seq<byte>) {
    |a| >= 2 && a[1] + 2 <= |a|
  }

  /** parse_subtlv_no_special_action answers -2: a mandatory sub-TLV is reached. */
  predicate Mandatory(a: seq<byte>)
    decreases |a|
  {
    if a == [] then false
    else if a[0] == 0 then Mandatory(a[1..])
    else if !SubComplete(a) then false
    else if a[0] >= 0x80 then true
    else if a[0] <= 3 then Mandatory(a[a[1] + 2..])
    else false
  }

  datatype SubResult = Ignore | Channels(channels: seq<byte>)

  /** parse_update_subtlv: whether to ignore the update, and the channels in force. */
  function UpdateSubtlvs(a: seq<byte>, channels: seq<byte>): SubResult
    decreases |a|
  {
    if a == [] then Channels(channels)
    else if a[0] == 0 then UpdateSubtlvs(a[1..], channels)
    else if !SubComplete(a) then Channels(channels)
    else if a[0] >= 0x80 then Ignore
    else if a[0] == SUBTLV_DIVERSITY then
      var len := if a[1] > DIVERSITY_HOPS then DIVERSITY_HOPS else a[1];
      if 0 in a[2..2 + len] then Channels(channels)
      else UpdateSubtlvs(a[len + 2..], a[2..2 + len])
    else UpdateSubtlvs(a[a[1] + 2..], channels)
  }

  // ---- One message ----

  function RouterIdStep(st: ParserState, m: seq<byte>): ParserState
    requires |m| >= 12
  {
    var st1 := st.(id := m[4..12]);
    if AllZero(m[4..12]) || AllOnes(m[4..12]) then st1 else st1.(haveId := true)
  }

  function NhStep(st: ParserState, m: seq<byte>): ParserState
    requires |m| >= 4
  {
    var r := NetworkPrefix(m[2], None, 0, None, m[4..]);
    if (m[2] != 1 && m[2] != 3) || r.used <= 0 then st.(v4Nh := None, v6Nh := None)
    else if r.used + 4 < |m| && Mandatory(m[4 + r.used..]) then st
    else if m[2] == 1 then st.(v4Nh := Some(r.addr))
    else st.(v6Nh := Some(r.addr))
  }

  /** The prefix part of an update: the prefix, or None, and the state after remembering it. */
  function UpdatePrefix(st: ParserState, m: seq<byte>): (ParserState, Option<Parsed>)
    requires |m| >= 12
  {
    var dp := if m[2] == 1 then st.v4Prefix else st.v6Prefix;
    var r := if m[5] == 0 || dp.Some? then NetworkPrefix(m[2], Some(m[4]), m[5], dp, m[12..]) else NO_PREFIX;
    if r.used < 0 then (if Flag(m[3], 0x80) then st.(v4Prefix := None, v6Prefix := None) else st, None)
    else if !Flag(m[3], 0x80) then (st, Some(r))
    else if m[2] == 1 then (st.(v4Prefix := Some(r.addr)), Some(r))
    else (st.(v6Prefix := Some(r.addr)), Some(r))
  }

  function IdFromPrefix(ae: byte, a: Addr): RouterId {
    if ae == 1 then [0, 0, 0, 0] + a[12..] else a[8..]
  }

  function UpdateStep(st: ParserState, rx: Receiver, m: seq<byte>): (ParserState, seq<Action>)
    requires |m| >= 12
  {
    var ae, metric := m[2], Short(m, 10);
    if ae > 3 then (st, [])
    else
      var (st1, parsed) := UpdatePrefix(st, m);
      if parsed.None? then (st1, [])
      else
        var r := parsed.value;
        var st2 := if Flag(m[3], 0x40) then st1.(haveId := true, id := IdFromPrefix(ae, r.addr)) else st1;
        if st2.haveId && (AllZero(st2.id) || AllOnes(st2.id)) then (st2, [])
        else if metric < INFINITY && !st2.haveId && ae != 0 then (st2, [])
        else if ae == 0 then (st2, if metric < INFINITY || m[4] != 0 || m[5] != 0 then [] else [RetractAll])
        else if ae == 1 && st2.v4Nh.None? then (st2, [])
        else if ae == 3 && m[5] != 0 then (st2, [])
        else if ae == 1 && !rx.ipv4 then (st2, [])
        else
          var nh := if ae == 1 then st2.v4Nh.value else if st2.v6Nh.Some? then st2.v6Nh.value else rx.from;
          var plen := if ae == 1 then (m[4] + 96) % 0x100 else m[4];
          var subs :=
            if rx.faraway then Channels([])
            else UpdateSubtlvs(if 12 + r.used < |m| then m[12 + r.used..] else [],
                               if metric < 256 then [] else [CHANNEL_INTERFERING]);
          if subs.Ignore? then (st2, [])
          else
            (st2, [Learn(st2.id, Prefix(r.addr, plen), Dist(Short(m, 8), metric), Short(m, 6), nh, subs.channels)])
  }

  /** One message.  Hellos, acknowledgements and requests do not touch the state kept between TLVs. */
  function Step(st: ParserState, rx: Receiver, m: seq<byte>): (ParserState, seq<Action>)
    requires Complete(m)
  {
    if m[0] == MESSAGE_ROUTER_ID then (RouterIdStep(st, m), [])
    else if m[0] == MESSAGE_NH then (NhStep(st, m), [])
    else if m[0] == MESSAGE_UPDATE then UpdateStep(st, rx, m)
    else (st, [])
  }

  /** A whole body, message by message. */
  function ParseBody(st: ParserState, rx: Receiver, body: seq<byte>): (ParserState, seq<Action>)
    requires WellFormed(body)
    decreases |body|
  {
    if body == [] then (st, [])
    else
      var n := MessageLength(body);
      var (st1, a) := Step(st, rx, body[..n]);
      var (st2, b) := ParseBody(st1, rx, body[n..]);
      (st2, a + b)
  }

  /** The first message and the rest. */
  lemma ParseFirst(st: ParserState, rx: Receiver, body: seq<byte>)
    requires body != [] && WellFormed(body)
    ensures Complete(body) && Complete(body[..MessageLength(body)]) && WellFormed(body[MessageLength(body)..])
    ensures var (st1, x) := Step(st, rx, body[..MessageLength(body)]);
            var (st2, y) := ParseBody(st1, rx, body[MessageLength(body)..]);
            ParseBody(st, rx, body) == (st2, x + y)
  {
    hide Step;
  }

  lemma WellFormedCons(body: seq<byte>)
    requires Complete(body) && WellFormed(body[MessageLength(body)..])
    ensures WellFormed(body)
  {
  }

  lemma CompleteConcat(a: seq<byte>, b: seq<byte>)
    requires Complete(a)
    ensures Complete(a + b) && MessageLength(a + b) == MessageLength(a)
    ensures (a + b)[..MessageLength(a)] == a[..MessageLength(a)]
    ensures (a + b)[MessageLength(a)..] == a[MessageLength(a)..] + b
  {
  }

  /** Parsing a concatenation is parsing the parts in turn. */
  lemma {:induction false} ParseConcat(st: ParserState, rx: Receiver, a: seq<byte>, b: seq<byte>)
    requires WellFormed(a) && WellFormed(b)
    ensures WellFormed(a + b)
    ensures var (st1, x) := ParseBody(st, rx, a);
            var (st2, y) := ParseBody(st1, rx, b);
            ParseBody(st, rx, a + b) == (st2, x + y)
    decreases |a|
  {
    hide Step, Complete, MessageLength;
    if a == [] {
      assert a + b == b;
      assert ParseBody(st, rx, a) == (st, []);
      var (st2, y) := ParseBody(st, rx, b);
      assert [] + y == y;
    } else {
      hide ParseBody, WellFormed;
      ParseFirst(st, rx, a);
      var n := MessageLength(a);
      CompleteConcat(a, b);
      var (st1, x) := Step(st, rx, a[..n]);
      ParseConcat(st1, rx, a[n..], b);
      WellFormedCons(a + b);
      ParseFirst(st, rx, a + b);
      var (st2, y) := ParseBody(st1, rx, a[n..]);
      var (st3, z) := ParseBody(st2, rx, b);
      assert x + y + z == x + (y + z);
    }
  }

  /** A body that is a single message. */
  lemma ParseSingle(st: ParserState, rx: Receiver, m: seq<byte>)
    requires Complete(m) && MessageLength(m) == |m|
    ensures WellFormed(m) && ParseBody(st, rx, m) == Step(st, rx, m)
  {
    hide Step;
    assert m[..|m|] == m && m[|m|..] == [];
    var (st1, a) := Step(st, rx, m);
    assert ParseBody(st1, rx, []) == (st1, []) && a + [] == a;
  }

  // ---- The receiving loops ----

  /** The check at one offset, in terms of the bytes there. */
  predicate CompleteAt(body: seq<byte>, i: nat)
    requires i < |body|
  {
    body[i] != MESSAGE_PAD1 ==>
      i + 2 <= |body| && i + body[i + 1] as int + 2 <= |body| && body[i + 1] >= MinLength(body[i])
  }

  function NextAt(body: seq<byte>, i: nat): nat
    requires i < |body| && CompleteAt(body, i)
  {
    if body[i] == MESSAGE_PAD1 then i + 1 else i + body[i + 1] as int + 2
  }

  lemma WellFormedEmpty()
    ensures WellFormed([])
  {
  }

  lemma NothingLeft(st: ParserState, rx: Receiver, body: seq<byte>)
    ensures WellFormed(body[|body|..]) && ParseBody(st, rx, body[|body|..]) == (st, [])
    ensures body[0..] == body
  {
  }

  lemma WellFormedAt(body: seq<byte>, i: nat)
    requires i < |body|
    ensures WellFormed(body[i..]) <==> CompleteAt(body, i) && WellFormed(body[NextAt(body, i)..])
    ensures CompleteAt(body, i) ==> MessageLength(body[i..]) == NextAt(body, i) - i
  {
    var b := body[i..];
    assert b[0] == body[i] && (i + 1 < |body| ==> b[1] == body[i + 1]);
    if CompleteAt(body, i) {
      assert b[NextAt(body, i) - i..] == body[NextAt(body, i)..];
    }
  }

  /** babel_packet_examin: the header, the length field, and every message complete and long enough. */
  method Examine(packet: seq<byte>) returns (ok: bool, bodylen: nat)
    ensures ok <==> |packet| >= 4 && packet[0] == 42 && packet[1] == 2 && Short(packet, 2) + 4 <= |packet| &&
                    WellFormed(packet[4..4 + Short(packet, 2)])
    ensures ok ==> bodylen == Short(packet, 2)
  {
    hide WellFormed, Complete, MessageLength, Short;
    ok, bodylen := false, 0;
    if |packet| < 4 || packet[0] != 42 || packet[1] != 2 {
      return;
    }
    bodylen := Short(packet, 2);
    if bodylen + 4 > |packet| {
      return;
    }
    ghost var body := packet[4..4 + bodylen];
    var i := 0;
    assert body[0..] == body;
    while i < bodylen
      invariant i <= bodylen
      invariant WellFormed(body) <==> WellFormed(body[i..])
    {
      WellFormedAt(body, i);
      var t := packet[4 + i];
      if t == MESSAGE_PAD1 {
        i := i + 1;
      } else {
        if i + 2 > bodylen {
          return;
        }
        var len: int := packet[4 + i + 1];
        if i + len + 2 > bodylen {
          return;
        }
        if t <= MESSAGE_MAX && MinLength(t) != 0 && len < MinLength(t) {
          return;
        }
        i := i + len + 2;
      }
    }
    assert body[i..] == [] && WellFormed([]) by {
      WellFormedEmpty();
    }
    ok := true;
  }

  /** parse_packet, from a link-local sender: visits exactly the messages that Examine validated. */
  method ParsePacket(rx: Receiver, packet: seq<byte>) returns (ok: bool, actions: seq<Action>)
    ensures ok <==> |packet| >= 4 && packet[0] == 42 && packet[1] == 2 && Short(packet, 2) + 4 <= |packet| &&
                    WellFormed(packet[4..4 + Short(packet, 2)])
    ensures ok ==> actions == ParseBody(Initial(rx), rx, packet[4..4 + Short(packet, 2)]).1
    ensures !ok ==> actions == []
  {
    hide Step, WellFormed, Complete, ParseBody, MessageLength, Short;
    var bodylen;
    ok, bodylen := Examine(packet);
    actions := [];
    if !ok {
      return;
    }
    ghost var body := packet[4..4 + bodylen];
    var i, st := 0, Initial(rx);
    NothingLeft(st, rx, body);
    while i < bodylen
      invariant i <= bodylen && WellFormed(body[i..])
      invariant ParseBody(Initial(rx), rx, body).1 == actions + ParseBody(st, rx, body[i..]).1
    {
      WellFormedAt(body, i);
      var n: int := if packet[4 + i] == MESSAGE_PAD1 then 1 else packet[4 + i + 1] as int + 2;
      var m := packet[4 + i..4 + i + n];
      ParseAt(st, rx, body, i);
      assert m == body[i..i + n];
      var (st1, a) := Step(st, rx, m);
      ghost var rest := ParseBody(st1, rx, body[i + n..]).1;
      assert actions + (a + rest) == actions + a + rest;
      st, actions := st1, actions + a;
      i := i + n;
    }
    NothingLeft(st, rx, body);
  }

  lemma ParseAt(st: ParserState, rx: Receiver, body: seq<byte>, i: nat)
    requires i < |body| && WellFormed(body[i..])
    ensures CompleteAt(body, i) && Complete(body[i..NextAt(body, i)]) && WellFormed(body[NextAt(body, i)..])
    ensures var (st1, a) := Step(st, rx, body[i..NextAt(body, i)]);
            var (st2, b) := ParseBody(st1, rx, body[NextAt(body, i)..]);
            ParseBody(st, rx, body[i..]) == (st2, a + b)
  {
    hide Step;
    WellFormedAt(body, i);
    var n := MessageLength(body[i..]);
    assert body[i..][..n] == body[i..i + n] && body[i..][n..] == body[i + n..];
  }
}
