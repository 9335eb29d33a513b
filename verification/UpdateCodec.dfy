/**
 Sending updates.  really_send_update abbreviates each update against what it has already put into the
 packet; what it writes is read back by the parser as the same updates.
 */
module UpdateCodec {
  import opened Bytes
  import opened Seqno
  import opened Tlv

  /** An update to send: the arguments of really_send_update once the output filter has had its say. */
  datatype Out = Out(id: RouterId, prefix: Prefix, dist: Dist, channels: Option<seq<byte>>)

  predicate Canonical(p: Prefix) {
    p.plen <= 128 && MaskPrefix(p.addr, p.plen) == p.addr
  }

  predicate ValidId(id: RouterId) {
    !AllZero(id) && !AllOnes(id)
  }

  /** What the callers pass: a masked prefix, a usable router id, and at most eight non-zero channels. */
  predicate ValidOut(o: Out) {
    && Canonical(o.prefix) && ValidId(o.id)
    && (o.channels.Some? ==> |o.channels.value| <= DIVERSITY_HOPS && 0 !in o.channels.value)
  }

  predicate IsV4(p: Prefix) {
    p.plen >= 96 && V4Mapped(p.addr)
  }

  type Ipv4 = s: seq<byte> | |s| == 4 witness [0, 0, 0, 0]

  /** v4tov6: the v4-mapped form. */
  function Mapped(v4: Ipv4): Addr {
    V4PREFIX + v4
  }

  /** What the sender remembers having put into the current packet. */
  datatype Cache = Cache(id: Option<RouterId>, nh: Option<Ipv4>, prefix: Option<Addr>)

  const EMPTY_CACHE := Cache(None, None, None)

  function Two(x: u16): seq<byte> {
    [x / 0x100, x % 0x100]
  }

  function NhTlv(v4: Ipv4): seq<byte> {
    [MESSAGE_NH, 6, 1, 0] + v4
  }

  function IdTlv(id: RouterId): seq<byte> {
    [MESSAGE_ROUTER_ID, 10, 0, 0] + id
  }

  function ChannelsTlv(c: Option<seq<byte>>): (r: seq<byte>)
    requires c.Some? ==> |c.value| <= DIVERSITY_HOPS
    ensures |r| <= 2 + DIVERSITY_HOPS
  {
    if c.None? then [] else [SUBTLV_DIVERSITY, |c.value|] + c.value
  }

  function UpdateTlv(ae: byte, flags: byte, plen: byte, omit: byte, interval: u16, d: Dist,
                     bytes: seq<byte>, subs: seq<byte>): seq<byte>
    requires |bytes| + |subs| <= 64
  {
    [MESSAGE_UPDATE, 10 + |bytes| + |subs|, ae, flags, plen, omit] + Two(interval) + Two(d.seqno) + Two(d.metric) +
    bytes + subs
  }

  /** How many leading bytes two addresses share, up to a limit. */
  function Shared(a: Addr, b: Addr, limit: nat): (n: nat)
    requires limit <= 16
    ensures n <= limit && a[..n] == b[..n]
    ensures n < limit ==> a[n] != b[n]
  {
    SharedFrom(a, b, limit, 0)
  }

  function SharedFrom(a: Addr, b: Addr, limit: nat, n: nat): (k: nat)
    requires n <= limit <= 16 && a[..n] == b[..n]
    ensures n <= k <= limit && a[..k] == b[..k]
    ensures k < limit ==> a[k] != b[k]
    decreases limit - n
  {
    if n < limit && a[n] == b[n] then
      assert a[..n + 1] == a[..n] + [a[n]] && b[..n + 1] == b[..n] + [b[n]];
      SharedFrom(a, b, limit, n + 1)
    else n
  }

  function Omit(c: Cache, p: Prefix): (n: nat)
    requires p.plen <= 128
    ensures n <= p.plen / 8
  {
    if c.prefix.Some? then Shared(c.prefix.value, p.addr, p.plen / 8) else 0
  }

  predicate MarksPrefix(c: Cache, p: Prefix) {
    c.prefix.None? || p.plen >= 48
  }

  /** The id is the last half of a host prefix, and need not be sent separately. */
  predicate IdInPrefix(o: Out) {
    o.prefix.plen == 128 && o.prefix.addr[8..] == o.id
  }

  predicate NeedsId(c: Cache, o: Out) {
    c.id.None? || c.id.value != o.id
  }

  /** The TLVs that really_send_update writes for a v4 destination, and the cache afterwards. */
  function EncodeV4(c: Cache, ipv4: Ipv4, interval: u16, o: Out): (seq<byte>, Cache)
    requires ValidOut(o) && IsV4(o.prefix)
  {
    var plen := o.prefix.plen - 96;
    var pb := (plen + 7) / 8;
    ((if c.nh != Some(ipv4) then NhTlv(ipv4) else []) +
     (if NeedsId(c, o) then IdTlv(o.id) else []) +
     UpdateTlv(1, 0, plen, 0, interval, o.dist, o.prefix.addr[12..12 + pb], ChannelsTlv(o.channels)),
     Cache(Some(o.id), Some(ipv4), c.prefix))
  }

  function EncodeV6(c: Cache, interval: u16, o: Out): (seq<byte>, Cache)
    requires ValidOut(o) && !IsV4(o.prefix)
  {
    var plen, omit := o.prefix.plen, Omit(c, o.prefix);
    var pb := (plen + 7) / 8;
    var mark, inPrefix := MarksPrefix(c, o.prefix), NeedsId(c, o) && IdInPrefix(o);
    ((if NeedsId(c, o) && !IdInPrefix(o) then IdTlv(o.id) else []) +
     UpdateTlv(2, (if mark then 0x80 else 0) + (if inPrefix then 0x40 else 0), plen, omit, interval, o.dist,
               o.prefix.addr[omit..pb], ChannelsTlv(o.channels)),
     Cache(Some(o.id), c.nh, if mark then Some(o.prefix.addr) else c.prefix))
  }

  /** really_send_update on an interface that is up: nothing for IPv4 when the interface has no IPv4 address. */
  function Encode(c: Cache, ipv4: Option<Ipv4>, interval: u16, o: Out): (seq<byte>, Cache)
    requires ValidOut(o)
  {
    if !IsV4(o.prefix) then EncodeV6(c, interval, o)
    else if ipv4.None? then ([], c)
    else EncodeV4(c, ipv4.value, interval, o)
  }

  // ---- What the receiver should make of it ----

  function HeardChannels(rx: Receiver, o: Out): seq<byte> {
    if rx.faraway then []
    else if o.channels.Some? then o.channels.value
    else if o.dist.metric < 256 then []
    else [CHANNEL_INTERFERING]
  }

  function Received(rx: Receiver, ipv4: Option<Ipv4>, interval: u16, o: Out): seq<Action> {
    if !IsV4(o.prefix) then [Learn(o.id, o.prefix, o.dist, interval, rx.from, HeardChannels(rx, o))]
    else if ipv4.None? || !rx.ipv4 then []
    else [Learn(o.id, o.prefix, o.dist, interval, Mapped(ipv4.value), HeardChannels(rx, o))]
  }

  /** The sender's cache describes what the receiver holds. */
  predicate Agree(rx: Receiver, c: Cache, st: ParserState) {
    && (c.id.Some? ==> st.haveId && st.id == c.id.value && ValidId(st.id))
    && (c.nh.Some? ==> st.v4Nh == Some(Mapped(c.nh.value)))
    && AgreePrefix(rx, c, st)
  }

  predicate AgreePrefix(rx: Receiver, c: Cache, st: ParserState) {
    && (c.prefix.Some? ==> st.v6Prefix == c.prefix && !V4Mapped(c.prefix.value))
    && (st.v6Nh.Some? ==> st.v6Nh.value == rx.from)
  }

  // ---- One message at a time ----

  lemma NhIsHeard(st: ParserState, rx: Receiver, v4: Ipv4)
    ensures WellFormed(NhTlv(v4))
    ensures ParseBody(st, rx, NhTlv(v4)) == (st.(v4Nh := Some(Mapped(v4))), [])
  {
    var m := NhTlv(v4);
    assert m[4..] == v4 && v4[..4] == v4;
    assert Raw(V4PREFIX, v4) == Mapped(v4);
    ParseSingle(st, rx, m);
  }

  lemma IdIsHeard(st: ParserState, rx: Receiver, id: RouterId)
    requires ValidId(id)
    ensures WellFormed(IdTlv(id))
    ensures ParseBody(st, rx, IdTlv(id)) == (st.(haveId := true, id := id), [])
  {
    var m := IdTlv(id);
    assert m[4..12] == id;
    ParseSingle(st, rx, m);
  }

  /** The fields of an update TLV are where the parser looks for them. */
  lemma UpdateFields(ae: byte, flags: byte, plen: byte, omit: byte, interval: u16, d: Dist,
                     bytes: seq<byte>, subs: seq<byte>)
    requires |bytes| + |subs| <= 64
    ensures var m := UpdateTlv(ae, flags, plen, omit, interval, d, bytes, subs);
            && |m| == 12 + |bytes| + |subs| && m[0] == MESSAGE_UPDATE && m[1] as int + 2 == |m|
            && m[2] == ae && m[3] == flags && m[4] == plen && m[5] == omit
            && Short(m, 6) == interval && Short(m, 8) == d.seqno && Short(m, 10) == d.metric
            && m[12..] == bytes + subs && m[12 + |bytes|..] == subs
  {
    var m := UpdateTlv(ae, flags, plen, omit, interval, d, bytes, subs);
    assert m[6] == interval / 0x100 && m[7] == interval % 0x100;
    assert m[8] == d.seqno / 0x100 && m[9] == d.seqno % 0x100;
    assert m[10] == d.metric / 0x100 && m[11] == d.metric % 0x100;
  }

  lemma ChannelsAreHeard(c: Option<seq<byte>>, default: seq<byte>)
    requires c.Some? ==> |c.value| <= DIVERSITY_HOPS && 0 !in c.value
    ensures UpdateSubtlvs(ChannelsTlv(c), default) == Channels(if c.Some? then c.value else default)
  {
    if c.Some? {
      var a := ChannelsTlv(c);
      assert a[2..2 + |c.value|] == c.value && a[2 + |c.value|..] == [];
    }
  }

  /** Rebuilding a canonical prefix from shared leading bytes and the bytes sent. */
  lemma PrefixRebuilt(p: Prefix, head: seq<byte>, rest: seq<byte>)
    requires Canonical(p)
    requires var bytes := (p.plen as int + 7) / 8;
             |head| + |rest| == bytes || (|head| > bytes && rest == [] && |head| <= 16)
    requires head + rest == p.addr[..|head| + |rest|]
    ensures MaskPrefix(Raw(head, rest), p.plen) == p.addr
  {
    var q := Raw(head, rest);
    var k := |head| + |rest|;
    assert forall i | 0 <= i < k :: q[i] == (head + rest)[i] == p.addr[i];
    assert p.plen < 128 ==> forall i | 0 <= i < 16 :: p.addr[i] == MaskPrefix(p.addr, p.plen)[i];
    assert forall i | 0 <= i < 16 :: MaskPrefix(q, p.plen)[i] == p.addr[i];
  }

  /** A masked prefix shorter than 96 bits is never v4-mapped, so it can always be abbreviated against. */
  lemma CanonicalNotMapped(p: Prefix)
    requires Canonical(p) && !IsV4(p)
    ensures !V4Mapped(p.addr)
  {
    assert p.addr[..12][11] == p.addr[11] == MaskPrefix(p.addr, p.plen)[11];
    assert p.plen < 96 ==> p.addr[11] != V4PREFIX[11];
  }

  lemma V4PrefixParsed(dp: Option<Addr>, p: Prefix, subs: seq<byte>)
    requires Canonical(p) && IsV4(p)
    ensures var pb := (p.plen - 96 + 7) / 8;
            NetworkPrefix(1, Some(p.plen - 96), 0, dp, p.addr[12..12 + pb] + subs) == Parsed(pb, p.addr)
  {
    hide MaskPrefix, Canonical, Raw, V4Mapped;
    CanonicalLength(p);
    var pb := (p.plen - 96 + 7) / 8;
    var bytes := p.addr[12..12 + pb];
    assert Take(bytes + subs, pb) == bytes;
    V4Head(p, pb);
    PrefixRebuilt(p, V4PREFIX, bytes);
  }

  lemma CanonicalLength(p: Prefix)
    requires Canonical(p)
    ensures p.plen <= 128
  {
  }

  lemma V4Head(p: Prefix, pb: nat)
    requires V4Mapped(p.addr) && pb <= 4
    ensures V4PREFIX + p.addr[12..12 + pb] == p.addr[..12 + pb]
  {
  }

  lemma V6PrefixParsed(c: Cache, dp: Option<Addr>, p: Prefix, subs: seq<byte>)
    requires Canonical(p) && !IsV4(p) && (c.prefix.Some? ==> dp == c.prefix && !V4Mapped(dp.value))
    ensures var omit, pb := Omit(c, p), (p.plen as int + 7) / 8;
            && NetworkPrefix(2, Some(p.plen), omit, dp, p.addr[omit..pb] + subs) == Parsed(pb - omit, p.addr)
            && (omit == 0 || dp.Some?)
  {
    hide MaskPrefix, Canonical, Raw, V4Mapped;
    CanonicalLength(p);
    var omit, pb := Omit(c, p), (p.plen as int + 7) / 8;
    var bytes, head := p.addr[omit..pb], if omit > 0 then dp.value[..omit] else [];
    assert Take(bytes + subs, pb - omit) == bytes;
    assert head + bytes == p.addr[..pb];
    PrefixRebuilt(p, head, bytes);
  }

  lemma UpdateV4IsHeard(st: ParserState, rx: Receiver, ipv4: Ipv4, interval: u16, o: Out)
    requires ValidOut(o) && IsV4(o.prefix)
    requires st.haveId && st.id == o.id && st.v4Nh == Some(Mapped(ipv4))
    ensures var plen := o.prefix.plen - 96;
            var m := UpdateTlv(1, 0, plen, 0, interval, o.dist, o.prefix.addr[12..12 + (plen + 7) / 8],
                               ChannelsTlv(o.channels));
            WellFormed(m) && ParseBody(st, rx, m) == (st, Received(rx, Some(ipv4), interval, o))
  {
    hide Step, ParseBody, WellFormed, UpdateTlv, NetworkPrefix, UpdateSubtlvs, ChannelsTlv, MaskPrefix, V4Mapped, Short;
    var plen := o.prefix.plen - 96;
    var pb := (plen + 7) / 8;
    var bytes, subs := o.prefix.addr[12..12 + pb], ChannelsTlv(o.channels);
    var m := UpdateTlv(1, 0, plen, 0, interval, o.dist, bytes, subs);
    UpdateFields(1, 0, plen, 0, interval, o.dist, bytes, subs);
    V4PrefixParsed(st.v4Prefix, o.prefix, subs);
    ChannelsAreHeard(o.channels, if o.dist.metric < 256 then [] else [CHANNEL_INTERFERING]);
    UpdateV4Step(st, rx, m, bytes, o);
    ParseSingle(st, rx, m);
  }

  lemma UpdateV4Step(st: ParserState, rx: Receiver, m: seq<byte>, bytes: seq<byte>, o: Out)
    requires |m| >= 12 + |bytes| && m[0] == MESSAGE_UPDATE && m[1] as int + 2 == |m|
    requires m[2] == 1 && m[3] == 0 && m[5] == 0 && m[4] as int + 96 == o.prefix.plen
    requires NetworkPrefix(1, Some(m[4]), 0, st.v4Prefix, m[12..]) == Parsed(|bytes|, o.prefix.addr)
    requires Short(m, 8) == o.dist.seqno && Short(m, 10) == o.dist.metric
    requires st.haveId && st.id == o.id && ValidId(o.id) && st.v4Nh.Some?
    requires UpdateSubtlvs(m[12 + |bytes|..], if o.dist.metric < 256 then [] else [CHANNEL_INTERFERING]) ==
             Channels(if o.channels.Some? then o.channels.value else if o.dist.metric < 256 then []
                 else [CHANNEL_INTERFERING])
    ensures Step(st, rx, m) == (st, if rx.ipv4 then [Learn(o.id, o.prefix, o.dist, Short(m, 6), st.v4Nh.value,
                                                           HeardChannels(rx, o))] else [])
  {
    hide NetworkPrefix, UpdateSubtlvs, AllZero, AllOnes;
    assert m[12 + |bytes|..] == if 12 + |bytes| < |m| then m[12 + |bytes|..] else [];
  }

  lemma UpdateV6Step(st: ParserState, rx: Receiver, m: seq<byte>, bytes: seq<byte>, o: Out)
    requires |m| >= 12 + |bytes| && m[0] == MESSAGE_UPDATE && m[1] as int + 2 == |m|
    requires m[2] == 2 && m[4] == o.prefix.plen && (m[5] == 0 || st.v6Prefix.Some?)
    requires NetworkPrefix(2, Some(m[4]), m[5], st.v6Prefix, m[12..]) == Parsed(|bytes|, o.prefix.addr)
    requires Short(m, 8) == o.dist.seqno && Short(m, 10) == o.dist.metric && ValidId(o.id)
    requires if Flag(m[3], 0x40) then IdInPrefix(o) else st.haveId && st.id == o.id
    requires st.v6Nh.Some? ==> st.v6Nh.value == rx.from
    requires UpdateSubtlvs(m[12 + |bytes|..], if o.dist.metric < 256 then [] else [CHANNEL_INTERFERING]) ==
             Channels(if o.channels.Some? then o.channels.value else if o.dist.metric < 256 then []
                 else [CHANNEL_INTERFERING])
    ensures Step(st, rx, m) ==
            (st.(haveId := true, id := o.id, v6Prefix := if Flag(m[3], 0x80) then Some(o.prefix.addr) else st.v6Prefix),
             [Learn(o.id, o.prefix, o.dist, Short(m, 6), rx.from, HeardChannels(rx, o))])
  {
    hide NetworkPrefix, UpdateSubtlvs, AllZero, AllOnes;
    assert m[12 + |bytes|..] == if 12 + |bytes| < |m| then m[12 + |bytes|..] else [];
  }

  lemma UpdateV6IsHeard(st: ParserState, rx: Receiver, c: Cache, interval: u16, o: Out, flags: byte)
    requires ValidOut(o) && !IsV4(o.prefix) && AgreePrefix(rx, c, st)
    requires if Flag(flags, 0x40) then IdInPrefix(o) else st.haveId && st.id == o.id
    ensures var omit := Omit(c, o.prefix);
            var m := UpdateTlv(2, flags, o.prefix.plen, omit, interval, o.dist,
                               o.prefix.addr[omit..(o.prefix.plen as int + 7) / 8], ChannelsTlv(o.channels));
            && WellFormed(m)
            && ParseBody(st, rx, m) ==
               (st.(haveId := true, id := o.id, v6Prefix := if Flag(flags, 0x80) then Some(o.prefix.addr)
                   else st.v6Prefix),
                Received(rx, None, interval, o))
  {
    hide Step, ParseBody, WellFormed, UpdateTlv, NetworkPrefix, UpdateSubtlvs, ChannelsTlv, MaskPrefix, V4Mapped,
      Short, Flag;
    var plen, omit := o.prefix.plen, Omit(c, o.prefix);
    var pb := (plen as int + 7) / 8;
    var bytes, subs := o.prefix.addr[omit..pb], ChannelsTlv(o.channels);
    var m := UpdateTlv(2, flags, plen, omit, interval, o.dist, bytes, subs);
    UpdateFields(2, flags, plen, omit, interval, o.dist, bytes, subs);
    V6PrefixParsed(c, st.v6Prefix, o.prefix, subs);
    ChannelsAreHeard(o.channels, if o.dist.metric < 256 then [] else [CHANNEL_INTERFERING]);
    UpdateV6Step(st, rx, m, bytes, o);
    ParseSingle(st, rx, m);
  }

  // ---- One call of really_send_update ----

  lemma EncodeV4IsHeard(st: ParserState, rx: Receiver, c: Cache, ipv4: Ipv4, interval: u16, o: Out)
    requires ValidOut(o) && IsV4(o.prefix) && Agree(rx, c, st)
    ensures var (bytes, c') := EncodeV4(c, ipv4, interval, o);
            && WellFormed(bytes)
            && ParseBody(st, rx, bytes) == (st.(haveId := true, id := o.id, v4Nh := Some(Mapped(ipv4))),
                                            Received(rx, Some(ipv4), interval, o))
  {
    hide Step, ParseBody, WellFormed, UpdateTlv, MaskPrefix, V4Mapped, NhTlv, IdTlv, Received;
    var nh := if c.nh != Some(ipv4) then NhTlv(ipv4) else [];
    var id := if NeedsId(c, o) then IdTlv(o.id) else [];
    var plen := o.prefix.plen - 96;
    var up := UpdateTlv(1, 0, plen, 0, interval, o.dist, o.prefix.addr[12..12 + (plen + 7) / 8],
        ChannelsTlv(o.channels));
    NothingIsHeard(st, rx);
    NhIsHeard(st, rx, ipv4);
    var st1 := st.(v4Nh := Some(Mapped(ipv4)));
    NothingIsHeard(st1, rx);
    IdIsHeard(st1, rx, o.id);
    var st2 := st1.(haveId := true, id := o.id);
    UpdateV4IsHeard(st2, rx, ipv4, interval, o);
    ParseConcat(st, rx, nh, id);
    ParseConcat(st, rx, nh + id, up);
    var got := Received(rx, Some(ipv4), interval, o);
    assert [] + [] + got == got;
  }

  lemma NothingIsHeard(st: ParserState, rx: Receiver)
    ensures WellFormed([]) && ParseBody(st, rx, []) == (st, [])
  {
  }

  lemma EncodeV6IsHeard(st: ParserState, rx: Receiver, c: Cache, interval: u16, o: Out)
    requires ValidOut(o) && !IsV4(o.prefix) && Agree(rx, c, st)
    ensures var (bytes, c') := EncodeV6(c, interval, o);
            && WellFormed(bytes)
            && ParseBody(st, rx, bytes) ==
               (st.(haveId := true, id := o.id, v6Prefix := if MarksPrefix(c, o.prefix) then Some(o.prefix.addr)
                   else st.v6Prefix),
                Received(rx, None, interval, o))
  {
    hide Step, ParseBody, WellFormed, UpdateTlv, MaskPrefix, V4Mapped, IdTlv, Received, Omit;
    var plen, omit := o.prefix.plen, Omit(c, o.prefix);
    var mark, inPrefix := MarksPrefix(c, o.prefix), NeedsId(c, o) && IdInPrefix(o);
    var flags := (if mark then 0x80 else 0) + (if inPrefix then 0x40 else 0);
    var id := if NeedsId(c, o) && !IdInPrefix(o) then IdTlv(o.id) else [];
    var up := UpdateTlv(2, flags, plen, omit, interval, o.dist, o.prefix.addr[omit..(plen as int + 7) / 8],
                        ChannelsTlv(o.channels));
    NothingIsHeard(st, rx);
    IdIsHeard(st, rx, o.id);
    var st1 := if id == [] then st else st.(haveId := true, id := o.id);
    assert id == IdTlv(o.id) ==> id != [] by {
      assert |IdTlv(o.id)| == 12 by { IdTlvLength(o.id); }
    }
    UpdateV6IsHeard(st1, rx, c, interval, o, flags);
    ParseConcat(st, rx, id, up);
    var got := Received(rx, None, interval, o);
    assert [] + got == got;
  }

  lemma IdTlvLength(id: RouterId)
    ensures |IdTlv(id)| == 12
  {
  }

  /** Whatever the sender abbreviates, one call is read back as the one update, and the two sides keep agreeing. */
  lemma EncodeIsHeard(st: ParserState, rx: Receiver, c: Cache, ipv4: Option<Ipv4>, interval: u16, o: Out)
    requires ValidOut(o) && Agree(rx, c, st)
    ensures var (bytes, c') := Encode(c, ipv4, interval, o);
            && WellFormed(bytes)
            && ParseBody(st, rx, bytes).1 == Received(rx, ipv4, interval, o)
            && Agree(rx, c', ParseBody(st, rx, bytes).0)
  {
    hide Step, ParseBody, WellFormed, UpdateTlv, MaskPrefix, V4Mapped, IdTlv, NhTlv;
    if !IsV4(o.prefix) {
      CanonicalNotMapped(o.prefix);
      EncodeV6IsHeard(st, rx, c, interval, o);
    } else if ipv4.Some? {
      EncodeV4IsHeard(st, rx, c, ipv4.value, interval, o);
    } else {
      NothingIsHeard(st, rx);
    }
  }

  // ---- A whole packet ----

  /** What goes into a send buffer: updates, wildcard retractions, and messages of other types. */
  datatype Item =
    | Update(out: Out, ipv4: Option<Ipv4>, interval: u16)
    | Wildcard(seqno: u16)
    | Other(message: seq<byte>)

  predicate ValidItem(i: Item) {
    match i
    case Update(o, _, _) => ValidOut(o)
    case Wildcard(_) => true
    case Other(m) => Complete(m) && MessageLength(m) == |m| && m[0] !in {MESSAGE_ROUTER_ID, MESSAGE_NH, MESSAGE_UPDATE}
  }

  /** send_wildcard_retraction. */
  function WildcardTlv(seqno: u16): seq<byte> {
    UpdateTlv(0, 0x40, 0, 0, 0xFFFF, Dist(seqno, INFINITY), [], [])
  }

  function EncodeItem(c: Cache, i: Item): (seq<byte>, Cache)
    requires ValidItem(i)
  {
    match i
    case Update(o, ipv4, interval) => Encode(c, ipv4, interval, o)
    case Wildcard(seqno) => (WildcardTlv(seqno), c.(id := None))
    case Other(m) => (m, c)
  }

  function EncodeAll(c: Cache, items: seq<Item>): (seq<byte>, Cache)
    requires forall i | i in items :: ValidItem(i)
  {
    if items == [] then ([], c)
    else
      var k := |items| - 1;
      var (bytes, c1) := EncodeAll(c, items[..k]);
      var (more, c2) := EncodeItem(c1, items[k]);
      (bytes + more, c2)
  }

  function ReceivedItem(rx: Receiver, i: Item): seq<Action> {
    if i.Update? then Received(rx, i.ipv4, i.interval, i.out) else []
  }

  function ReceivedAll(rx: Receiver, items: seq<Item>): seq<Action> {
    if items == [] then [] else ReceivedAll(rx, items[..|items| - 1]) + ReceivedItem(rx, items[|items| - 1])
  }

  /**
   The wildcard retraction that this sender writes retracts nothing at this receiver, whatever came
   before it: its id flag makes the router id all zero, and the update is dropped for that.
   */
  lemma WildcardIsIgnored(st: ParserState, rx: Receiver, seqno: u16)
    ensures WellFormed(WildcardTlv(seqno))
    ensures ParseBody(st, rx, WildcardTlv(seqno)) == (st.(haveId := true, id := [0, 0, 0, 0, 0, 0, 0, 0]), [])
  {
    var m := WildcardTlv(seqno);
    UpdateFields(0, 0x40, 0, 0, 0xFFFF, Dist(seqno, INFINITY), [], []);
    assert MaskPrefix(Raw([], []), 0)[8..] == [0, 0, 0, 0, 0, 0, 0, 0];
    ParseSingle(st, rx, m);
  }

  lemma ItemIsHeard(st: ParserState, rx: Receiver, c: Cache, i: Item)
    requires ValidItem(i) && Agree(rx, c, st)
    ensures var (bytes, c') := EncodeItem(c, i);
            && WellFormed(bytes)
            && ParseBody(st, rx, bytes).1 == ReceivedItem(rx, i)
            && Agree(rx, c', ParseBody(st, rx, bytes).0)
  {
    hide ParseBody, WellFormed, Encode, WildcardTlv, Received;
    match i
    case Update(o, ipv4, interval) => EncodeIsHeard(st, rx, c, ipv4, interval, o);
    case Wildcard(seqno) => WildcardIsIgnored(st, rx, seqno);
    case Other(m) => ParseSingle(st, rx, m);
  }

  lemma {:induction false} AllIsHeard(st: ParserState, rx: Receiver, c: Cache, items: seq<Item>)
    requires (forall i | i in items :: ValidItem(i)) && Agree(rx, c, st)
    ensures var (bytes, c') := EncodeAll(c, items);
            && WellFormed(bytes)
            && ParseBody(st, rx, bytes).1 == ReceivedAll(rx, items)
            && Agree(rx, c', ParseBody(st, rx, bytes).0)
  {
    hide ParseBody, WellFormed, EncodeItem, ReceivedItem, ValidItem, Agree;
    if items == [] {
      NothingIsHeard(st, rx);
    } else {
      var k := |items| - 1;
      AllIsHeard(st, rx, c, items[..k]);
      var (bytes, c1) := EncodeAll(c, items[..k]);
      var (more, c2) := EncodeItem(c1, items[k]);
      ItemIsHeard(ParseBody(st, rx, bytes).0, rx, c1, items[k]);
      ParseConcat(st, rx, bytes, more);
    }
  }

  /**
   Round trip.  Any sequence of updates, interleaved with any other messages, encoded into one packet is
   parsed back as exactly those updates in order: router id, prefix, sequence number, metric, interval,
   next hop and channels.
   */
  lemma PacketRoundTrip(rx: Receiver, items: seq<Item>)
    requires forall i | i in items :: ValidItem(i)
    ensures WellFormed(EncodeAll(EMPTY_CACHE, items).0)
    ensures ParseBody(Initial(rx), rx, EncodeAll(EMPTY_CACHE, items).0).1 == ReceivedAll(rx, items)
  {
    AllIsHeard(Initial(rx), rx, EMPTY_CACHE, items);
  }
}
