/**
 The send buffer of an interface.  Messages accumulate in an array and leave as packets; a flush first
 sends the updates that are still pending, which may themselves fill the buffer and flush it.
 */
module SendBuffer {
  import opened Bytes
  import opened Seqno
  import opened Tlv
  import opened UpdateCodec
  import Moderation

  /** The smallest send buffer that interface_recalculate allocates: an MTU of 128 less headers. */
  const MIN_BUFSIZE := 64

  /** Room that really_send_update reserves for one update with its next hop and router id. */
  const WORST_CASE := 60

  /** A packet: the fixed header with the length of the body, then the body. */
  function Packet(body: seq<byte>): seq<byte>
    requires |body| <= 0xFFFF
  {
    [42, 2] + Two(|body|) + body
  }

  function Flatten(ps: seq<seq<Item>>): seq<Item> {
    if ps == [] then [] else Flatten(ps[..|ps| - 1]) + ps[|ps| - 1]
  }

  predicate AllValid(items: seq<Item>) {
    forall i | i in items :: ValidItem(i)
  }

  /** p is what goes out for these items, or nothing. */
  ghost predicate Carries(p: Option<seq<byte>>, items: seq<Item>) {
    && AllValid(items) && |EncodeAll(EMPTY_CACHE, items).0| <= 0xFFFF
    && (p.Some? ==> p.value == Packet(EncodeAll(EMPTY_CACHE, items).0))
  }

  /** The flush of these items has something to send. */
  predicate Full(items: seq<Item>) {
    AllValid(items) && EncodeAll(EMPTY_CACHE, items).0 != []
  }

  /** One flush: it sends exactly if there is something to send and the bucket has a token for it. */
  predicate MeteredAt(p: Option<seq<byte>>, items: seq<Item>, bucket: Moderation.Bucket, now: int,
      after: Moderation.Bucket) {
    && (p.Some? <==> Full(items) && Moderation.Admits(bucket, now))
    && after == if Full(items) then Moderation.Drawn(bucket, now) else bucket
  }

  /** All flushes so far, the bucket before each, and the one in force. */
  ghost predicate Metered(sent: seq<Option<seq<byte>>>, flushed: seq<seq<Item>>, buckets: seq<Moderation.Bucket>,
                          times: seq<int>, bucket: Moderation.Bucket) {
    && |sent| == |flushed| == |times| == |buckets| - 1 && buckets[|sent|] == bucket
    && forall k | 0 <= k < |sent| :: MeteredAt(sent[k], flushed[k], buckets[k], times[k], buckets[k + 1])
  }

  lemma MeteredNext(sent: seq<Option<seq<byte>>>, flushed: seq<seq<Item>>, buckets: seq<Moderation.Bucket>,
                    times: seq<int>, bucket: Moderation.Bucket, p: Option<seq<byte>>, items: seq<Item>, now: int,
                    after: Moderation.Bucket)
    requires Metered(sent, flushed, buckets, times, bucket) && MeteredAt(p, items, bucket, now, after)
    ensures Metered(sent + [p], flushed + [items], buckets + [after], times + [now], after)
  {
    hide MeteredAt;
    var s, f, b, t := sent + [p], flushed + [items], buckets + [after], times + [now];
    forall k | 0 <= k < |s| ensures MeteredAt(s[k], f[k], b[k], t[k], b[k + 1]) {
      assert k < |sent| ==> MeteredAt(sent[k], flushed[k], buckets[k], times[k], buckets[k + 1]);
    }
  }

  // ---- How many packets leave ----

  function Packets(sent: seq<Option<seq<byte>>>): nat {
    if sent == [] then 0 else Packets(sent[..|sent| - 1]) + if sent[|sent| - 1].Some? then 1 else 0
  }

  /** The times at which the bucket was asked. */
  function AskedAt(flushed: seq<seq<Item>>, times: seq<int>): seq<int>
    requires |flushed| == |times|
  {
    if flushed == [] then []
    else
      var n := |flushed| - 1;
      AskedAt(flushed[..n], times[..n]) + if Full(flushed[n]) then [times[n]] else []
  }

  lemma {:induction false} PacketsAreAdmitted(sent: seq<Option<seq<byte>>>, flushed: seq<seq<Item>>,
                                              buckets: seq<Moderation.Bucket>, times: seq<int>,
                                              bucket: Moderation.Bucket)
    requires Metered(sent, flushed, buckets, times, bucket)
    ensures Packets(sent) == Moderation.Admitted(buckets[0], AskedAt(flushed, times))
    ensures Moderation.After(buckets[0], AskedAt(flushed, times)) == bucket
    decreases |sent|
  {
    hide Full;
    if sent != [] {
      var n := |sent| - 1;
      assert MeteredAt(sent[n], flushed[n], buckets[n], times[n], buckets[n + 1]);
      PacketsAreAdmitted(sent[..n], flushed[..n], buckets[..n + 1], times[..n], buckets[n]);
      var asked := AskedAt(flushed[..n], times[..n]);
      if Full(flushed[n]) {
        assert (asked + [times[n]])[..|asked|] == asked;
      } else {
        assert asked + [] == asked;
      }
    }
  }

  lemma {:induction false} AskedInOrder(flushed: seq<seq<Item>>, times: seq<int>, start: int)
    requires |flushed| == |times| && Moderation.Orderly(Moderation.Bucket(Moderation.TOKENS_MAX, start), times)
    ensures Moderation.Orderly(Moderation.Bucket(Moderation.TOKENS_MAX, start), AskedAt(flushed, times))
    ensures forall t | t in AskedAt(flushed, times) :: t in times
  {
    hide Full;
    if flushed != [] {
      var n := |flushed| - 1;
      AskedInOrder(flushed[..n], times[..n], start);
      var asked := AskedAt(flushed[..n], times[..n]);
      forall i | 0 <= i < |asked| ensures asked[i] <= times[n] && asked[i] in times {
        assert asked[i] in times[..n];
      }
    }
  }

  /** However much is flushed: at most two hundred packets, and forty more for every second of the interface's life. */
  lemma PacketsAreLimited(sent: seq<Option<seq<byte>>>, flushed: seq<seq<Item>>, buckets: seq<Moderation.Bucket>,
                          times: seq<int>, bucket: Moderation.Bucket, start: int, end: int)
    requires Metered(sent, flushed, buckets, times, bucket) &&
             buckets[0] == Moderation.Bucket(Moderation.TOKENS_MAX, start)
    requires Moderation.Orderly(buckets[0], times) && start <= end && forall t | t in times :: t <= end
    ensures Packets(sent) <= Moderation.TOKENS_MAX + Moderation.TOKENS_PER_SEC * (end - start)
  {
    PacketsAreAdmitted(sent, flushed, buckets, times, bucket);
    AskedInOrder(flushed, times, start);
    var asked := AskedAt(flushed, times);
    if asked != [] {
      Moderation.RateSinceStart(start, asked);
      assert asked[|asked| - 1] in asked;
    }
  }

  /** A packet that leaves is accepted by the receiver's checks and parsed as exactly the items put into it. */
  lemma SentIsReceived(rx: Receiver, p: seq<byte>, items: seq<Item>)
    requires Carries(Some(p), items)
    ensures |p| >= 4 && p[0] == 42 && p[1] == 2 && Short(p, 2) as int + 4 == |p|
    ensures WellFormed(p[4..]) && ParseBody(Initial(rx), rx, p[4..]).1 == ReceivedAll(rx, items)
  {
    var body := EncodeAll(EMPTY_CACHE, items).0;
    assert p[2] == |body| / 0x100 && p[3] == |body| % 0x100;
    assert p[4..] == body;
    PacketRoundTrip(rx, items);
  }

  lemma EncodeAllSnoc(items: seq<Item>, i: Item)
    requires AllValid(items) && ValidItem(i)
    ensures AllValid(items + [i])
    ensures var (bytes, c) := EncodeAll(EMPTY_CACHE, items);
            var (more, c') := EncodeItem(c, i);
            EncodeAll(EMPTY_CACHE, items + [i]) == (bytes + more, c')
  {
    assert (items + [i])[..|items|] == items;
  }

  lemma EncodeNothing()
    ensures AllValid([]) && EncodeAll(EMPTY_CACHE, []) == ([], EMPTY_CACHE)
  {
  }

  lemma EncodeFits(c: Cache, ipv4: Option<Ipv4>, interval: u16, o: Out)
    requires ValidOut(o)
    ensures |Encode(c, ipv4, interval, o).0| <= WORST_CASE
  {
    hide MaskPrefix, Omit, V4Mapped;
  }

  /**
   What the tables say about a buffered prefix when it is flushed: whose it is, whether it is announced, kept quiet or
   retracted, and the update that is sent.
   */
  datatype Resolution = Resolution(id: RouterId, fate: Moderation.Fate, out: Out)

  function IdOf(res: Prefix -> Resolution): Prefix -> RouterId {
    p => res(p).id
  }

  function FateOf(res: Prefix -> Resolution): Prefix -> Moderation.Fate {
    p => res(p).fate
  }

  predicate ResolvesWell(res: Prefix -> Resolution, p: Prefix) {
    res(p).fate.Quiet? || (ValidOut(res(p).out) && res(p).out.prefix == p)
  }

  function Items(ps: seq<Prefix>, res: Prefix -> Resolution, ipv4: Option<Ipv4>, interval: u16): (items: seq<Item>)
    ensures |items| == |ps|
  {
    seq(|ps|, k requires 0 <= k < |ps| => Update(res(ps[k]).out, ipv4, interval))
  }

  /** The updates that flushing the buffered prefixes sends: sorted, and announcements once each. */
  function Pending(ps: seq<Prefix>, res: Prefix -> Resolution, ipv4: Option<Ipv4>, interval: u16): seq<Item> {
    Items(Moderation.Sends(ps, IdOf(res), FateOf(res)), res, ipv4, interval)
  }

  lemma PendingNothing(res: Prefix -> Resolution, ipv4: Option<Ipv4>, interval: u16)
    ensures Pending([], res, ipv4, interval) == []
  {
    assert Moderation.Filled([], IdOf(res)) == [];
  }

  lemma ItemsNext(ps: seq<Prefix>, p: Prefix, res: Prefix -> Resolution, ipv4: Option<Ipv4>, interval: u16)
    ensures Items(ps + [p], res, ipv4, interval) == Items(ps, res, ipv4, interval) +
            [Update(res(p).out, ipv4, interval)]
  {
  }

  /** Sorting brings in no prefix that was not buffered. */
  lemma SortedFrom(ps: seq<Prefix>, id: Prefix -> RouterId, k: nat)
    requires k < |Moderation.SortOf(Moderation.Filled(ps, id))|
    ensures Moderation.SortOf(Moderation.Filled(ps, id))[k].prefix in ps
  {
    var b, s := Moderation.Filled(ps, id), Moderation.SortOf(Moderation.Filled(ps, id));
    Moderation.SortSorts(b);
    assert s[k] in multiset(s) && s[k] in multiset(b);
    var i :| 0 <= i < |b| && b[i] == s[k];
    assert b[i].prefix == ps[i];
  }

  lemma MeteredFlush(p: Option<seq<byte>>, items: seq<Item>, bucket: Moderation.Bucket, now: int,
                     after: Moderation.Bucket, full: bool)
    requires full == Full(items) && (p.Some? <==> full && Moderation.Admits(bucket, now))
    requires after == if full then Moderation.Drawn(bucket, now) else bucket
    ensures MeteredAt(p, items, bucket, now, after)
  {
  }

  lemma FlattenSnoc(ps: seq<seq<Item>>, p: seq<Item>)
    ensures Flatten(ps + [p]) == Flatten(ps) + p
  {
    assert (ps + [p])[..|ps|] == ps;
  }

  /** The count of shared bytes is the only one with no mismatch before it and one at it. */
  lemma SharedUnique(a: Addr, b: Addr, limit: nat, n: nat)
    requires limit <= 16 && n <= limit && a[..n] == b[..n] && (n < limit ==> a[n] != b[n])
    ensures n == Shared(a, b, limit)
  {
    var k := Shared(a, b, limit);
    assert forall i | 0 <= i < n :: a[i] == a[..n][i] == b[..n][i] == b[i];
    assert forall i | 0 <= i < k :: a[i] == a[..k][i] == b[..k][i] == b[i];
  }

  class Interface {
    const bufsize: nat
    const sendbuf: array<byte>
    var buffered: nat
    var cache: Cache
    var ipv4: Option<Ipv4>
    var interval: u16
    var pending: seq<Prefix>
    var updateBufsize: nat
    /** What the tables say at the moment. */
    var resolve: Prefix -> Resolution
    var bucket: Moderation.Bucket
    var now: int
    /** What each flush handed to the socket; None where there was nothing to send or no token to send it with. */
    var sent: seq<Option<seq<byte>>>

    ghost var items: seq<Item>
    ghost var flushed: seq<seq<Item>>
    ghost var buckets: seq<Moderation.Bucket>
    ghost var times: seq<int>

    /** The buffer holds the encoding of its items. */
    ghost predicate Holding()
      reads this, sendbuf
    {
      && MIN_BUFSIZE <= bufsize <= 0xFFFF && sendbuf.Length == bufsize && buffered <= bufsize
      && AllValid(items) && EncodeAll(EMPTY_CACHE, items) == (sendbuf[..buffered], cache)
    }

    ghost predicate Valid()
      reads this, sendbuf
    {
      && Holding()
      && (forall p | p in pending :: ResolvesWell(resolve, p))
      && |sent| == |flushed| && (forall k | 0 <= k < |sent| :: Carries(sent[k], flushed[k]))
      && Metered(sent, flushed, buckets, times, bucket)
    }

    /** Everything put into the buffer so far, in order, whether still there or gone. */
    ghost function History(): seq<Item>
      reads this
    {
      Flatten(flushed) + items
    }

    constructor (size: nat, start: int, tables: Prefix -> Resolution)
      requires MIN_BUFSIZE <= size <= 0xFFFF
      ensures Valid() && fresh(sendbuf) && History() == [] && pending == [] && sent == []
      ensures buckets == [Moderation.Bucket(Moderation.TOKENS_MAX, start)] && resolve == tables && now == start
    {
      bufsize, sendbuf := size, new byte[size](_ => 0);
      buffered, cache, ipv4, interval, pending, updateBufsize := 0, EMPTY_CACHE, None, 0, [], 0;
      resolve, now, bucket := tables, start, Moderation.Bucket(Moderation.TOKENS_MAX, start);
      sent, items, flushed := [], [], [];
      buckets, times := [Moderation.Bucket(Moderation.TOKENS_MAX, start)], [];
    }

    // ---- Writing bytes ----

    /** accumulate_bytes and its shorter forms: the caller has made sure of the room. */
    method Accumulate(bytes: seq<byte>)
      requires sendbuf.Length == bufsize && buffered + |bytes| <= bufsize
      modifies this`buffered, sendbuf
      ensures buffered == old(buffered) + |bytes| <= bufsize
      ensures sendbuf[..buffered] == old(sendbuf[..buffered]) + bytes
    {
      var k := 0;
      while k < |bytes|
        invariant k <= |bytes| && buffered == old(buffered) + k
        invariant sendbuf[..buffered] == old(sendbuf[..buffered]) + bytes[..k]
      {
        sendbuf[buffered] := bytes[k];
        buffered, k := buffered + 1, k + 1;
        assert bytes[..k] == bytes[..k - 1] + [bytes[k - 1]];
      }
    }

    // ---- Flushing ----

    /** check_bucket. */
    method CheckBucket() returns (ok: bool)
      modifies this`bucket
      ensures ok == Moderation.Admits(old(bucket), now) && bucket == Moderation.Drawn(old(bucket), now)
    {
      if bucket.tokens == 0 {
        var seconds := now - bucket.time;
        if seconds > 0 {
          bucket := bucket.(tokens := if Moderation.TOKENS_MAX < seconds * Moderation.TOKENS_PER_SEC
                            then Moderation.TOKENS_MAX else seconds * Moderation.TOKENS_PER_SEC);
        }
        bucket := bucket.(time := now);
      }
      ok := bucket.tokens > 0;
      if ok {
        bucket := bucket.(tokens := bucket.tokens - 1);
      }
    }

    /** flushbuf: pending updates first, then one packet; the next one starts from nothing. */
    method FlushBuf()
      requires Valid()
      modifies this`buffered, this`cache, this`pending, this`sent, this`items, this`flushed, this`updateBufsize,
               sendbuf, this`bucket, this`buckets, this`times
      ensures Valid() && buffered == 0 && items == [] && cache == EMPTY_CACHE && pending == []
      ensures History() == old(History()) + Pending(old(pending), resolve, ipv4, interval)
      ensures old(flushed) < flushed && old(sent) < sent && old(buckets) < buckets
      ensures old(pending) == [] ==>
                sent == old(sent) + [if old(buffered) > 0 && Moderation.Admits(old(bucket), now)
                                     then Some(Packet(old(sendbuf[..buffered]))) else None]
      decreases |pending|, 2
    {
      hide EncodeAll, AllValid, Carries, Packet, Flatten, ValidOut, Metered, Pending;
      FlushUpdates();
      SendPacket();
    }

    /** The second half of flushbuf: the buffer leaves as a packet if there is anything in it and the bucket allows. */
    method SendPacket()
      requires Valid() && pending == []
      modifies this`buffered, this`cache, this`sent, this`items, this`flushed, this`bucket, this`buckets, this`times
      ensures Valid() && buffered == 0 && items == [] && cache == EMPTY_CACHE && History() == old(History())
      ensures sent == old(sent) + [if old(buffered) > 0 && Moderation.Admits(old(bucket), now)
                                   then Some(Packet(old(sendbuf[..buffered]))) else None]
      ensures flushed == old(flushed) + [old(items)] && old(buckets) < buckets
    {
      hide EncodeAll, AllValid, Carries, Packet, Flatten, Metered, MeteredAt, Full, Moderation.Admits, Moderation.Drawn;
      var p := None;
      ghost var before := bucket;
      FullIsBuffered();
      if buffered > 0 {
        var ok := CheckBucket();
        if ok {
          p := Some(Packet(sendbuf[..buffered]));
        }
      }
      CarriesBuffer(p);
      MeteredFlush(p, items, before, now, bucket, buffered > 0);
      MeteredNext(sent, flushed, buckets, times, before, p, items, now, bucket);
      FlattenSnoc(flushed, items);
      sent, flushed, buckets, times := sent + [p], flushed + [items], buckets + [bucket], times + [now];
      buffered, cache, items := 0, EMPTY_CACHE, [];
      EncodeNothing();
    }

    lemma FullIsBuffered()
      requires Holding()
      ensures Full(items) <==> buffered > 0
    {
      hide EncodeAll;
    }

    /** flushupdates: the list is taken over, filled in and sorted; repeated announcements are skipped. */
    method FlushUpdates()
      requires Valid()
      modifies this`buffered, this`cache, this`pending, this`sent, this`items, this`flushed, this`updateBufsize,
               sendbuf, this`bucket, this`buckets, this`times
      ensures Valid() && pending == []
      ensures History() == old(History()) + Pending(old(pending), resolve, ipv4, interval)
      ensures old(flushed) <= flushed && old(sent) <= sent && old(buckets) <= buckets
      ensures old(pending) == [] ==>
                && buffered == old(buffered) && sent == old(sent) && bucket == old(bucket)
                && sendbuf[..] == old(sendbuf[..])
      decreases |pending|, 1
    {
      hide EncodeAll, AllValid, Carries, Flatten, ValidOut, Metered, Moderation.Emit, Moderation.SortOf,
        Moderation.Filled;
      PendingNothing(resolve, ipv4, interval);
      if |pending| > 0 {
        var ps := pending;
        pending, updateBufsize := [], 0;
        var b := Moderation.FillAndSort(ps, IdOf(resolve));
        forall k | 0 <= k < |b| ensures ResolvesWell(resolve, b[k].prefix) {
          SortedFrom(ps, IdOf(resolve), k);
        }
        SendSorted(b);
      }
    }

    /** The loop of flushupdates over the sorted list. */
    method SendSorted(b: seq<Moderation.Buffered>)
      requires Valid() && pending == [] && forall k | 0 <= k < |b| :: ResolvesWell(resolve, b[k].prefix)
      modifies this`buffered, this`cache, this`pending, this`sent, this`items, this`flushed, this`updateBufsize,
               sendbuf, this`bucket, this`buckets, this`times
      ensures Valid() && pending == []
      ensures History() == old(History()) + Items(Moderation.Emit(b, FateOf(resolve)).0, resolve, ipv4, interval)
      ensures old(flushed) <= flushed && old(sent) <= sent && old(buckets) <= buckets
      decreases 0, 6
    {
      hide EncodeAll, AllValid, Carries, Flatten, ValidOut, Metered, Moderation.Emit, ResolvesWell;
      var last: seq<Prefix> := [];
      var k := 0;
      ghost var fate := FateOf(resolve);
      Moderation.EmitNothing(fate);
      assert b[..0] == [];
      while k < |b|
        invariant k <= |b| && Valid() && pending == []
        invariant History() == old(History()) + Items(Moderation.Emit(b[..k], fate).0, resolve, ipv4, interval)
        invariant last == Moderation.Emit(b[..k], fate).1
        invariant old(flushed) <= flushed && old(sent) <= sent && old(buckets) <= buckets
      {
        var p := b[k].prefix;
        Moderation.EmitNext(b, fate, k);
        ItemsNext(Moderation.Emit(b[..k], fate).0, p, resolve, ipv4, interval);
        last := SendUnlessLast(p, last);
        k := k + 1;
      }
      assert b[..k] == b;
    }

    /** One turn of the loop: the prefix announced last is skipped, and only an announcement becomes the last. */
    method SendUnlessLast(p: Prefix, last: seq<Prefix>) returns (last': seq<Prefix>)
      requires Valid() && pending == [] && ResolvesWell(resolve, p)
      modifies this`buffered, this`cache, this`pending, this`sent, this`items, this`flushed, this`updateBufsize,
               sendbuf, this`bucket, this`buckets, this`times
      ensures Valid() && pending == []
      ensures last' == if last != [p] && resolve(p).fate.Announce? then [p] else last
      ensures History() == old(History()) +
                           if last == [p] || resolve(p).fate.Quiet? then []
                           else [Update(resolve(p).out, ipv4, interval)]
      ensures old(flushed) <= flushed && old(sent) <= sent && old(buckets) <= buckets
      decreases 0, 5
    {
      hide EncodeAll, AllValid, Carries, Flatten, ValidOut, Metered, Pending;
      last' := last;
      if last != [p] {
        PendingNothing(resolve, ipv4, interval);
        assert pending[..0] == [];
        match resolve(p).fate {
          case Announce =>
            ReallySendUpdate(resolve(p).out);
            last' := [p];
          case Quiet =>
          case Retract =>
            ReallySendUpdate(resolve(p).out);
        }
      }
    }

    method EnsureSpace(space: nat)
      requires Valid() && space <= MIN_BUFSIZE
      modifies this`buffered, this`cache, this`pending, this`sent, this`items, this`flushed, this`updateBufsize,
               sendbuf, this`bucket, this`buckets, this`times
      ensures Valid() && bufsize - buffered >= space
      ensures pending == [] || pending == old(pending)
      ensures History() == old(History()) + Pending(old(pending)[..|old(pending)| - |pending|], resolve, ipv4, interval)
      ensures old(flushed) <= flushed && old(sent) <= sent && old(buckets) <= buckets
      decreases |pending|, 3
    {
      hide Metered, Carries, EncodeAll, AllValid, Flatten, Pending;
      PendingNothing(resolve, ipv4, interval);
      assert old(pending)[..0] == [] && old(pending)[..|old(pending)|] == old(pending);
      if bufsize - buffered < space {
        FlushBuf();
      }
    }

    /** really_send_update: the whole group for one update lands in one packet. */
    method ReallySendUpdate(o: Out)
      requires Valid() && ValidOut(o)
      modifies this`buffered, this`cache, this`pending, this`sent, this`items, this`flushed, this`updateBufsize,
               sendbuf, this`bucket, this`buckets, this`times
      ensures Valid()
      ensures pending == [] || pending == old(pending)
      ensures History() == old(History()) +
              Pending(old(pending)[..|old(pending)| - |pending|], resolve, ipv4, interval) +
                           [Update(o, ipv4, interval)]
      ensures items != [] && items[|items| - 1] == Update(o, ipv4, interval)
      ensures old(flushed) <= flushed && old(sent) <= sent && old(buckets) <= buckets
      decreases |pending|, 4
    {
      hide Metered, Carries, EncodeAll, AllValid, Flatten, Pending;
      EnsureSpace(WORST_CASE);
      WriteUpdate(o);
    }

    /** The TLVs of one update, byte by byte. */
    method WriteUpdate(o: Out)
      requires Holding() && ValidOut(o) && bufsize - buffered >= WORST_CASE
      modifies this`buffered, this`cache, this`items, sendbuf
      ensures Holding() && items == old(items) + [Update(o, ipv4, interval)]
    {
      EncodeFits(cache, ipv4, interval, o);
      EncodeAllSnoc(items, Update(o, ipv4, interval));
      hide EncodeV4, EncodeV6, EncodeAll, AllValid, ValidOut, Carries, IsV4;
      if !IsV4(o.prefix) {
        WriteV6(o);
      } else if ipv4.Some? {
        WriteV4(o);
      } else {
        assert sendbuf[..buffered] + [] == sendbuf[..buffered];
      }
      items := items + [Update(o, ipv4, interval)];
    }

    /** The loop that counts the bytes an IPv6 prefix shares with the last one marked. */
    method CountOmitted(p: Prefix) returns (omit: nat)
      requires p.plen <= 128
      ensures omit == Omit(cache, p)
    {
      omit := 0;
      if cache.prefix.Some? {
        var q := cache.prefix.value;
        while omit < p.plen as int / 8 && q[omit] == p.addr[omit]
          invariant omit <= p.plen as int / 8 && q[..omit] == p.addr[..omit]
        {
          omit := omit + 1;
          assert q[..omit] == q[..omit - 1] + [q[omit - 1]] &&
                 p.addr[..omit] == p.addr[..omit - 1] + [p.addr[omit - 1]];
        }
        SharedUnique(q, p.addr, p.plen as int / 8, omit);
      }
    }

    /** The Update TLV itself; there is room, so start_message does not flush. */
    method WriteUpdateTlv(ae: byte, flags: byte, plen: byte, omit: byte, d: Dist, bytes: seq<byte>,
        channels: Option<seq<byte>>)
      requires sendbuf.Length == bufsize && (channels.Some? ==> |channels.value| <= DIVERSITY_HOPS)
      requires |bytes| <= 16 && buffered + 12 + |bytes| + |ChannelsTlv(channels)| <= bufsize
      modifies this`buffered, sendbuf
      ensures buffered <= bufsize
      ensures sendbuf[..buffered] == old(sendbuf[..buffered]) +
                                     UpdateTlv(ae, flags, plen, omit, interval, d, bytes, ChannelsTlv(channels))
    {
      hide ChannelsTlv;
      ghost var was := sendbuf[..buffered];
      var subs := ChannelsTlv(channels);
      var fixed := [MESSAGE_UPDATE, 10 + |bytes| + |subs|, ae, flags, plen, omit];
      var shorts := Two(interval) + Two(d.seqno) + Two(d.metric);
      Accumulate(fixed);
      Accumulate(shorts);
      Accumulate(bytes);
      Accumulate(subs);
      assert was + fixed + shorts + bytes + subs ==
             was + (fixed + Two(interval) + Two(d.seqno) + Two(d.metric) + bytes + subs);
    }

    method WriteNh(v4: Ipv4)
      requires sendbuf.Length == bufsize && buffered + 8 <= bufsize
      modifies this`buffered, this`cache, sendbuf
      ensures buffered == old(buffered) + 8 <= bufsize && cache == old(cache).(nh := Some(v4))
      ensures sendbuf[..buffered] == old(sendbuf[..buffered]) + NhTlv(v4)
    {
      ghost var was := sendbuf[..buffered];
      Accumulate([MESSAGE_NH, 6]);
      Accumulate([1, 0]);
      Accumulate(v4);
      assert was + [MESSAGE_NH, 6] + [1, 0] + v4 == was + NhTlv(v4);
      cache := cache.(nh := Some(v4));
    }

    method WriteId(id: RouterId)
      requires sendbuf.Length == bufsize && buffered + 12 <= bufsize
      modifies this`buffered, this`cache, sendbuf
      ensures buffered == old(buffered) + 12 <= bufsize && cache == old(cache).(id := Some(id))
      ensures sendbuf[..buffered] == old(sendbuf[..buffered]) + IdTlv(id)
    {
      ghost var was := sendbuf[..buffered];
      Accumulate([MESSAGE_ROUTER_ID, 10]);
      Accumulate([0, 0]);
      Accumulate(id);
      assert was + [MESSAGE_ROUTER_ID, 10] + [0, 0] + id == was + IdTlv(id);
      cache := cache.(id := Some(id));
    }

    method WriteV6(o: Out)
      requires sendbuf.Length == bufsize && ValidOut(o) && !IsV4(o.prefix) && buffered + WORST_CASE <= bufsize
      modifies this`buffered, this`cache, sendbuf
      ensures buffered <= bufsize
      ensures var (bytes, c) := EncodeV6(old(cache), interval, o);
              sendbuf[..buffered] == old(sendbuf[..buffered]) + bytes && cache == c
    {
      hide UpdateTlv, IdTlv, ChannelsTlv, MaskPrefix, Omit, V4Mapped;
      var plen := o.prefix.plen;
      var omit := CountOmitted(o.prefix);
      var pb := (plen as int + 7) / 8;
      var flags := if MarksPrefix(cache, o.prefix) then 0x80 else 0;
      var marked := flags == 0x80;
      ghost var was, c := sendbuf[..buffered], cache;
      ghost var id := if NeedsId(c, o) && !IdInPrefix(o) then IdTlv(o.id) else [];
      if NeedsId(cache, o) {
        if IdInPrefix(o) {
          flags := flags + 0x40;
          cache := cache.(id := Some(o.id));
        } else {
          WriteId(o.id);
        }
      }
      assert sendbuf[..buffered] == was + id;
      ghost var up := UpdateTlv(2, flags, plen, omit, interval, o.dist, o.prefix.addr[omit..pb],
          ChannelsTlv(o.channels));
      assert was + id + up == was + (id + up);
      WriteUpdateTlv(2, flags, plen, omit, o.dist, o.prefix.addr[omit..pb], o.channels);
      if marked {
        cache := cache.(prefix := Some(o.prefix.addr));
      }
    }

    method WriteV4(o: Out)
      requires sendbuf.Length == bufsize && ValidOut(o) && IsV4(o.prefix) && ipv4.Some? &&
               buffered + WORST_CASE <= bufsize
      modifies this`buffered, this`cache, sendbuf
      ensures buffered <= bufsize
      ensures var (bytes, c) := EncodeV4(old(cache), ipv4.value, interval, o);
              sendbuf[..buffered] == old(sendbuf[..buffered]) + bytes && cache == c
    {
      hide UpdateTlv, IdTlv, NhTlv, ChannelsTlv, MaskPrefix, V4Mapped;
      var plen := o.prefix.plen - 96;
      var pb := (plen + 7) / 8;
      ghost var was, c := sendbuf[..buffered], cache;
      ghost var nh := if c.nh != Some(ipv4.value) then NhTlv(ipv4.value) else [];
      ghost var id := if NeedsId(c, o) then IdTlv(o.id) else [];
      if cache.nh != Some(ipv4.value) {
        WriteNh(ipv4.value);
      }
      assert sendbuf[..buffered] == was + nh;
      if NeedsId(cache, o) {
        WriteId(o.id);
      }
      assert sendbuf[..buffered] == was + nh + id;
      ghost var up := UpdateTlv(1, 0, plen, 0, interval, o.dist, o.prefix.addr[12..12 + pb], ChannelsTlv(o.channels));
      assert was + nh + id + up == was + (nh + id + up);
      WriteUpdateTlv(1, 0, plen, 0, o.dist, o.prefix.addr[12..12 + pb], o.channels);
    }

    // ---- Other messages ----

    /** A hello, acknowledgement, IHU or request, as start_message and end_message frame it. */
    method SendMessage(m: seq<byte>)
      requires Valid() && ValidItem(Other(m)) && |m| <= MIN_BUFSIZE
      modifies this`buffered, this`cache, this`pending, this`sent, this`items, this`flushed, this`updateBufsize,
               sendbuf, this`bucket, this`buckets, this`times
      ensures Valid()
      ensures pending == [] || pending == old(pending)
      ensures History() == old(History()) +
              Pending(old(pending)[..|old(pending)| - |pending|], resolve, ipv4, interval) + [Other(m)]
    {
      EnsureSpace(|m|);
      Append(m, Other(m));
    }

    /** Writes one message into room that is there. */
    method Append(m: seq<byte>, item: Item)
      requires Holding() && ValidItem(item) && bufsize - buffered >= |m|
      requires !item.Update? && EncodeItem(cache, item).0 == m
      modifies this`buffered, this`cache, this`items, sendbuf
      ensures Holding() && items == old(items) + [item]
    {
      hide EncodeAll, AllValid, ValidOut, Carries, WildcardTlv, ValidItem;
      EncodeAllSnoc(items, item);
      Accumulate(m);
      cache := if item.Wildcard? then cache.(id := None) else cache;
      items := items + [item];
    }

    method SendWildcardRetraction(seqno: u16)
      requires Valid()
      modifies this`buffered, this`cache, this`pending, this`sent, this`items, this`flushed, this`updateBufsize,
               sendbuf, this`bucket, this`buckets, this`times
      ensures Valid()
      ensures pending == [] || pending == old(pending)
      ensures History() == old(History()) +
              Pending(old(pending)[..|old(pending)| - |pending|], resolve, ipv4, interval) + [Wildcard(seqno)]
    {
      EnsureSpace(12);
      Append(WildcardTlv(seqno), Wildcard(seqno));
    }

    /** buffer_update: a full list is sent before the new prefix is noted; n is the room for a full update. */
    method BufferUpdate(p: Prefix, n: nat)
      requires Valid() && ResolvesWell(resolve, p)
      modifies this`buffered, this`cache, this`pending, this`sent, this`items, this`flushed, this`updateBufsize,
               sendbuf, this`bucket, this`buckets, this`times
      ensures Valid()
      ensures var full := |old(pending)| > 0 && |old(pending)| >= old(updateBufsize);
              && pending == (if full then [] else old(pending)) + [p]
              && History() == old(History()) + if full then Pending(old(pending), resolve, ipv4, interval) else []
    {
      hide Metered, Carries, EncodeAll, AllValid, Flatten, Pending;
      if |pending| > 0 && |pending| >= updateBufsize {
        FlushUpdates();
      }
      if updateBufsize == 0 {
        updateBufsize := if n <= bufsize / 16 then bufsize / 16 else n;
      }
      pending := pending + [p];
    }

    /** Time passes, and the tables change. */
    method Advance(later: int, tables: Prefix -> Resolution)
      requires Valid() && forall p | p in pending :: ResolvesWell(tables, p)
      modifies this`now, this`resolve
      ensures Valid() && History() == old(History()) && now == later && resolve == tables
    {
      hide Metered, Carries, EncodeAll, AllValid, Flatten;
      now, resolve := later, tables;
    }

    lemma CarriesBuffer(p: Option<seq<byte>>)
      requires Holding() && (p.Some? ==> p.value == Packet(sendbuf[..buffered]))
      ensures Carries(p, items)
    {
    }
  }
}
