/** The wire format, and the daemon's reassembly of messages from a byte stream (the receiving half
    of `client_cb` in `ubusd_main.c`), for every way the kernel may split reads. */
module RxStream {
  import opened TxQueue
  import opened Ubus
  import Seqs

  /** The header with the head of the data that follows it. */
  const HDRBUF := 12

  type U16 = n: int | 0 <= n < 0x1_0000
  type U32 = n: int | 0 <= n < 0x1_0000_0000

  /** `struct ubus_msghdr` in host order. */
  datatype Header = Header(version: Byte, typ: Byte, seqno: U16, peer: U32)

  /** A message: its data begins with a blob head that carries the length of the whole data. */
  datatype Packet = Packet(hdr: Header, data: seq<Byte>)

  /** A number in network order: all but the last byte, the last byte, and one byte more. */
  function High(n: nat): nat {
    n / 256
  }

  function Low(n: nat): Byte {
    n % 256
  }

  function Be(high: nat, low: Byte): nat {
    high * 256 + low
  }

  lemma BeSplit(n: nat, high: nat, low: Byte)
    ensures Be(High(n), Low(n)) == n
    ensures High(Be(high, low)) == high && Low(Be(high, low)) == low
  {
  }

  lemma HighBound(n: nat)
    ensures n < 0x1_0000 ==> High(n) < 256
    ensures n < 0x1_0000_0000 ==> High(High(High(n))) < 256
  {
  }

  lemma BeBound(b: seq<Byte>)
    requires |b| == 4
    ensures Be(b[0], b[1]) < 0x1_0000
    ensures Be(Be(Be(b[0], b[1]), b[2]), b[3]) < 0x1_0000_0000
  {
  }

  /** `cpu_to_be16`, `cpu_to_be32`. */
  function HeaderBytes(h: Header): (b: seq<Byte>)
    ensures |b| == HDR
  {
    HighBound(h.seqno);
    HighBound(h.peer);
    [h.version, h.typ, High(h.seqno), Low(h.seqno),
     High(High(High(h.peer))), Low(High(High(h.peer))), Low(High(h.peer)), Low(h.peer)]
  }

  /** `be16_to_cpu`, `be32_to_cpu`. */
  function HeaderOf(b: seq<Byte>): Header
    requires |b| == HDR
  {
    BeBound(b[2..6]);
    BeBound(b[4..8]);
    Header(b[0], b[1], Be(b[2], b[3]), Be(Be(Be(b[4], b[5]), b[6]), b[7]))
  }

  /** Network order: the first byte of a number counts most. */
  lemma HeaderPlaces(h: Header)
    ensures var b := HeaderBytes(h);
      && b[0] == h.version && b[1] == h.typ
      && h.seqno == 0x100 * (b[2] as int) + b[3]
      && h.peer == 0x100_0000 * (b[4] as int) + 0x1_0000 * (b[5] as int) + 0x100 * (b[6] as int) + b[7]
  {
    BeSplit(h.seqno, 0, 0);
    BeSplit(h.peer, 0, 0);
    BeSplit(High(h.peer), 0, 0);
    BeSplit(High(High(h.peer)), 0, 0);
  }

  lemma RawLenPlaces(b: seq<Byte>)
    requires BLOB <= |b|
    ensures RawLen(b) == 0x1_0000 * (b[1] as int) + 0x100 * (b[2] as int) + b[3]
  {
  }

  lemma HeaderRoundTrip(h: Header)
    ensures HeaderOf(HeaderBytes(h)) == h
  {
    hide High, Low, Be;
    BeSplit(h.seqno, 0, 0);
    BeSplit(h.peer, 0, 0);
    BeSplit(High(h.peer), 0, 0);
    BeSplit(High(High(h.peer)), 0, 0);
  }

  lemma HeaderBytesOf(b: seq<Byte>)
    requires |b| == HDR
    ensures HeaderBytes(HeaderOf(b)) == b
  {
    hide High, Low, Be;
    BeSplit(0, b[2], b[3]);
    BeSplit(0, b[4], b[5]);
    BeSplit(0, Be(b[4], b[5]), b[6]);
    BeSplit(0, Be(Be(b[4], b[5]), b[6]), b[7]);
  }

  /** `blob_raw_len`: the low 24 bits of the head, in network order. */
  function RawLen(b: seq<Byte>): nat
    requires BLOB <= |b|
  {
    Be(Be(b[1], b[2]), b[3])
  }

  /** The checks made on a received head: at least a head, and at most the limit once padded to a
      multiple of four. */
  predicate GoodLen(raw: nat) {
    BLOB <= raw && (raw + 3) / 4 * 4 <= MAX_MSGLEN
  }

  predicate Sendable(p: Packet) {
    BLOB <= |p.data| && RawLen(p.data) == |p.data| && GoodLen(|p.data|)
  }

  function Encode(p: Packet): seq<Byte> {
    HeaderBytes(p.hdr) + p.data
  }

  function EncodeAll(ps: seq<Packet>): seq<Byte> {
    if ps == [] then [] else Encode(ps[0]) + EncodeAll(ps[1..])
  }

  // ----- what a byte stream means -----

  /** The messages of a stream, the bytes of the unfinished one after them, and whether that one
      announces an unacceptable length. */
  datatype Reading = Reading(msgs: seq<Packet>, rest: seq<Byte>, bad: bool) {
    function After(p: Packet): Reading {
      this.(msgs := [p] + msgs)
    }

    function Behind(ps: seq<Packet>): Reading {
      this.(msgs := ps + msgs)
    }
  }

  function Decode(s: seq<Byte>): Reading
    decreases |s|
  {
    if |s| < HDRBUF then Reading([], s, false)
    else
      var raw := RawLen(s[HDR..HDRBUF]);
      if !GoodLen(raw) then Reading([], s, true)
      else if |s| < HDR + raw then Reading([], s, false)
      else Decode(s[HDR + raw..]).After(PacketOf(s, raw))
  }

  function PacketOf(s: seq<Byte>, raw: nat): Packet
    requires HDR + raw <= |s|
  {
    Packet(HeaderOf(s[..HDR]), s[HDR..HDR + raw])
  }

  /** Reading a stream in two parts: the second part continues the unfinished message. */
  lemma {:induction false} DecodeMore(a: seq<Byte>, b: seq<Byte>)
    requires !Decode(a).bad
    ensures Decode(a + b) == Decode(Decode(a).rest + b).Behind(Decode(a).msgs)
    decreases |a|
  {
    hide PacketOf, GoodLen, RawLen;
    if HDRBUF <= |a| {
      var raw := RawLen(a[HDR..HDRBUF]);
      assert (a + b)[HDR..HDRBUF] == a[HDR..HDRBUF];
      if HDR + raw <= |a| {
        var d := Decode(a[HDR + raw..]);
        DecodeMore(a[HDR + raw..], b);
        assert (a + b)[HDR + raw..] == a[HDR + raw..] + b;
        SamePacket(a, b, raw);
        Seqs.Assoc([PacketOf(a, raw)], d.msgs, Decode(d.rest + b).msgs);
      }
    }
  }

  lemma SamePacket(a: seq<Byte>, b: seq<Byte>, raw: nat)
    requires HDR + raw <= |a|
    ensures PacketOf(a + b, raw) == PacketOf(a, raw)
  {
    assert (a + b)[..HDR] == a[..HDR] && (a + b)[HDR..HDR + raw] == a[HDR..HDR + raw];
  }

  /** A packet that can be sent reads back as itself, whatever follows. */
  lemma DecodeEncoded(p: Packet, s: seq<Byte>)
    requires Sendable(p)
    ensures Decode(Encode(p) + s) == Decode(s).After(p)
  {
    var t := Encode(p) + s;
    HeaderRoundTrip(p.hdr);
    assert t[..HDR] == HeaderBytes(p.hdr);
    assert t[HDR..HDRBUF] == p.data[..BLOB];
    assert t[HDR..HDR + |p.data|] == p.data;
    assert t[HDR + |p.data|..] == s;
  }

  /** Decoding undoes encoding. */
  lemma {:induction false} RoundTrip(ps: seq<Packet>)
    requires forall p :: p in ps ==> Sendable(p)
    ensures Decode(EncodeAll(ps)) == Reading(ps, [], false)
  {
    hide Encode, Sendable;
    if ps != [] {
      RoundTrip(ps[1..]);
      DecodeEncoded(ps[0], EncodeAll(ps[1..]));
    }
  }

  /** A part of a packet reads as nothing yet. */
  lemma DecodePart(p: Packet, n: nat)
    requires Sendable(p) && n < |Encode(p)|
    ensures Decode(Encode(p)[..n]) == Reading([], Encode(p)[..n], false)
  {
    if HDRBUF <= n {
      assert Encode(p)[..n][HDR..HDRBUF] == p.data[..BLOB];
    }
  }

  /** At every moment, the messages read from a stream of encoded packets are the first of them. */
  lemma {:induction false} ReadInOrder(ps: seq<Packet>, n: nat)
    requires forall p :: p in ps ==> Sendable(p)
    requires n <= |EncodeAll(ps)|
    ensures Decode(EncodeAll(ps)[..n]).msgs <= ps && !Decode(EncodeAll(ps)[..n]).bad
  {
    hide Encode, Sendable, Decode;
    var s := EncodeAll(ps);
    if ps == [] {
      DecodeNone();
      assert s[..n] == [];
    } else {
      var p := ps[0];
      var size := |Encode(p)|;
      if n < size {
        assert s[..n] == Encode(p)[..n];
        DecodePart(p, n);
      } else {
        assert s[..n] == Encode(p) + EncodeAll(ps[1..])[..n - size];
        DecodeEncoded(p, EncodeAll(ps[1..])[..n - size]);
        ReadInOrder(ps[1..], n - size);
      }
    }
  }

  lemma DecodeNone()
    ensures Decode([]) == Reading([], [], false)
  {
  }

  // ----- reassembly -----

  /** More bytes leave the account straight. */
  lemma MoreBytes(taken: seq<Byte>, cur: seq<Byte>, accepted: seq<Packet>, chunk: seq<Byte>)
    requires Decode(taken) == Decode(cur).Behind(accepted) && !Decode(cur).bad
    ensures Decode(taken + chunk) == Decode(cur + chunk).Behind(accepted)
  {
    hide Decode;
    DecodeMore(taken, chunk);
    DecodeMore(cur, chunk);
    Seqs.Assoc(accepted, Decode(cur).msgs, Decode(Decode(cur).rest + chunk).msgs);
  }

  /** So does handing on a complete message. */
  lemma HandOn(taken: seq<Byte>, accepted: seq<Packet>, p: Packet)
    requires Sendable(p) && Decode(taken) == Decode(Encode(p)).Behind(accepted)
    ensures Decode(taken) == Decode([]).Behind(accepted + [p])
  {
    hide Decode, Encode;
    DecodeEncoded(p, []);
    DecodeNone();
    assert Encode(p) + [] == Encode(p);
  }

  /** How a call of `client_cb` ends: the client stays, or it is disconnected for a bad length, for want of memory, or
      because it was flagged and has nothing left to be sent. */
  datatype End = Kept | Refused | NoMemory | Flagged

  // ----- how far a wake-up reads -----

  /** How many bytes are read, how it ends, and whether the client is flagged then. */
  datatype Outcome = Outcome(used: nat, end: End, eof: bool) {
    function Plus(n: nat): Outcome {
      this.(used := used + n)
    }
  }

  /** How many bytes the next system call asks for, given those of the message under way. */
  function Wanted(cur: seq<Byte>): nat {
    if |cur| < HDRBUF then HDRBUF - |cur| else Max0(HDR + RawLen(cur[HDR..HDRBUF]) - |cur|)
  }

  /** A call that gives less than it is asked for is the last one.  One that completes a head may find a bad length or no
      memory.  One that completes a message hands it on, and when that is the one that flags the client, no other message
      is begun; `left` counts down to it. */
  function Reads(cur: seq<Byte>, input: seq<Byte>, calls: seq<(nat, bool)>, left: int, eof: bool): Outcome
    decreases |calls|
  {
    if calls == [] || (eof && |cur| < HDRBUF) then Outcome(0, Kept, eof)
    else
      var n := Min(calls[0].0, Min(Wanted(cur), |input|));
      var now := cur + input[..n];
      if n < Wanted(cur) then Outcome(n, Kept, eof)
      else if |cur| < HDRBUF && !GoodLen(RawLen(now[HDR..])) then Outcome(n, Refused, eof)
      else if |cur| < HDRBUF && !calls[0].1 then Outcome(n, NoMemory, eof)
      else if |cur| < HDRBUF && Wanted(now) > 0 then Reads(now, input[n..], calls[1..], left, eof).Plus(n)
      else Reads([], input[n..], calls[1..], left - 1, eof || left == 1).Plus(n)
  }

  /** How a read into the head ends. */
  function HeadEnd(now: seq<Byte>, memory: bool): End {
    if |now| < HDRBUF then Kept else if !GoodLen(RawLen(now[HDR..HDRBUF])) then Refused else if !memory then NoMemory else Kept
  }

  /** Every call gives as much as there is, and memory lasts. */
  predicate Generous(calls: seq<(nat, bool)>, n: nat) {
    forall i :: 0 <= i < |calls| ==> calls[i].0 >= n && calls[i].1
  }

  /** If every call gives all that it is asked for and that is there, there are calls enough, memory lasts and nothing flags
      the client, then everything is read, up to a bad length. */
  lemma {:induction false} ReadsAll(cur: seq<Byte>, input: seq<Byte>, calls: seq<(nat, bool)>, left: int)
    requires Decode(cur) == Reading([], cur, false)
    requires |calls| > |input| && Generous(calls, |input|) && left <= 0
    ensures var o := Reads(cur, input, calls, left, false);
      if Decode(cur + input).bad then o.end == Refused else o == Outcome(|input|, Kept, false)
    decreases |calls|
  {
    hide Decode, RawLen, GoodLen, Wanted;
    var n := Min(Wanted(cur), |input|);
    var x, rest := input[..n], input[n..];
    assert cur + x + rest == cur + input;
    AtRestWants(cur);
    assert Generous(calls[1..], |rest|);
    if n < Wanted(cur) {
      NotDone(cur, input);
    } else {
      assert [] + rest == rest;
      if |cur| < HDRBUF { HeadDone(cur, x, rest); } else { BodyDone(cur, x, rest); }
      if |cur| < HDRBUF && Wanted(cur + x) > 0 {
        if GoodLen(RawLen((cur + x)[HDR..])) { ReadsAll(cur + x, rest, calls[1..], left); }
      } else {
        DecodeNone();
        ReadsAll([], rest, calls[1..], left - 1);
      }
    }
  }

  /** While memory lasts and no message is still to come that flags the client, nothing but a bad length ends the connection. */
  lemma {:induction false} ReadsOn(cur: seq<Byte>, input: seq<Byte>, calls: seq<(nat, bool)>, left: int)
    requires left <= 0 && forall i :: 0 <= i < |calls| ==> calls[i].1
    ensures var o := Reads(cur, input, calls, left, false); !o.eof && (o.end == Kept || o.end == Refused)
    decreases |calls|
  {
    hide RawLen, GoodLen, Wanted;
    if calls != [] {
      var n := Min(calls[0].0, Min(Wanted(cur), |input|));
      ReadsOn(cur + input[..n], input[n..], calls[1..], left);
      ReadsOn([], input[n..], calls[1..], left - 1);
    }
  }

  lemma AtRestWants(cur: seq<Byte>)
    requires Decode(cur) == Reading([], cur, false)
    ensures Wanted(cur) > 0 && (|cur| < HDRBUF ==> |cur| + Wanted(cur) == HDRBUF)
  {
  }

  lemma NotDone(cur: seq<Byte>, input: seq<Byte>)
    requires Decode(cur) == Reading([], cur, false) && |input| < Wanted(cur)
    ensures !Decode(cur + input).bad
  {
    if |cur| >= HDRBUF { assert (cur + input)[HDR..HDRBUF] == cur[HDR..HDRBUF]; }
  }

  /** A head is complete. */
  lemma HeadDone(cur: seq<Byte>, x: seq<Byte>, rest: seq<Byte>)
    requires |cur| < HDRBUF && |x| == Wanted(cur)
    ensures var now := cur + x;
      && |now| == HDRBUF
      && (!GoodLen(RawLen(now[HDR..])) ==> Decode(now + rest).bad)
      && (GoodLen(RawLen(now[HDR..])) ==>
            if Wanted(now) > 0 then Decode(now) == Reading([], now, false) else Decode(now + rest).bad == Decode(rest).bad)
  {
    var now := cur + x;
    assert now[HDR..HDRBUF] == now[HDR..] && (now + rest)[HDR..HDRBUF] == now[HDR..];
    assert (now + rest)[HDRBUF..] == rest;
  }

  /** A message is complete. */
  lemma BodyDone(cur: seq<Byte>, x: seq<Byte>, rest: seq<Byte>)
    requires Decode(cur) == Reading([], cur, false) && HDRBUF <= |cur| && |x| == Wanted(cur)
    ensures Decode(cur + x + rest).bad == Decode(rest).bad
  {
    var now := cur + x;
    assert (now + rest)[HDR..HDRBUF] == cur[HDR..HDRBUF] && (now + rest)[|now|..] == rest;
  }

  class Receiver {
    /** `hdrbuf`: the header and the head of the data. */
    const hdrbuf: array<Byte>
    /** `pending_msg_offset`, and `pending_msg` with its data once the head is complete. */
    var offset: nat
    var hdr: Header
    var data: array?<Byte>
    var eof: bool

    /** The messages handed on, and all bytes read. */
    var accepted: seq<Packet>
    ghost var taken: seq<Byte>

    /** The bytes of the message being received. */
    ghost function Current(): seq<Byte>
      reads this, hdrbuf, data
    {
      if data == null then (if offset <= hdrbuf.Length then hdrbuf[..offset] else [])
      else if HDR <= offset <= HDR + data.Length then HeaderBytes(hdr) + data[..offset - HDR] else []
    }

    /** The buffers have room for everything still to be read: the data has exactly the announced
        length, and the offset has not reached its end. */
    ghost predicate Roomy()
      reads this, hdrbuf, data
    {
      && hdrbuf.Length == HDRBUF
      && (data == null ==> offset < HDRBUF)
      && (data != null ==>
            && data != hdrbuf
            && BLOB <= data.Length && RawLen(data[..BLOB]) == data.Length && GoodLen(data.Length)
            && HDRBUF <= offset <= HDR + data.Length)
    }

    /** What has been handed on, with what is under way, is what the bytes mean. */
    ghost predicate Faithful()
      requires Roomy()
      reads this, hdrbuf, data
    {
      Decode(taken) == Decode(Current()).Behind(accepted)
    }

    ghost predicate Valid()
      reads this, hdrbuf, data
    {
      Roomy() && Faithful() && (data != null ==> offset < HDR + data.Length)
    }

    constructor ()
      ensures Valid() && accepted == [] && taken == [] && !eof
      ensures fresh(hdrbuf) && data == null
    {
      hdrbuf := new Byte[HDRBUF];
      offset, data, eof := 0, null, false;
      hdr := Header(0, 0, 0, 0);
      accepted, taken := [], [];
      new;
      DecodeNone();
      assert Current() == [];
    }

    /** Between reads, the message under way is unfinished and not bad. */
    lemma AtRest()
      requires Valid()
      ensures Decode(Current()) == Reading([], Current(), false)
      ensures Decode(taken) == Reading(accepted, Current(), false)
    {
      if data != null {
        var cur := HeaderBytes(hdr) + data[..offset - HDR];
        assert Current() == cur;
        hide HeaderBytes;
        assert cur[HDR..HDRBUF] == data[..BLOB];
      }
    }

    /** A read into the rest of the header buffer. */
    method FillHeader(chunk: seq<Byte>)
      requires Valid() && data == null && |chunk| <= HDRBUF - offset
      modifies this`taken, this`offset, hdrbuf
      ensures taken == old(taken) + chunk
      ensures offset == old(offset) + |chunk| && hdrbuf[..offset] == old(Current()) + chunk
      ensures Decode(taken) == Decode(hdrbuf[..offset]).Behind(accepted)
    {
      AtRest();
      hide Decode;
      MoreBytes(taken, Current(), accepted, chunk);
      PutStart(hdrbuf[..], offset, chunk);
      CopyIn(hdrbuf, offset, chunk);
      taken := taken + chunk;
      offset := offset + |chunk|;
    }

    /** The header buffer is full: a bad length or a lack of memory ends the connection, and otherwise the data is
        allocated at its length and its head copied. */
    method StartBody(memory: bool) returns (end: End)
      requires hdrbuf.Length == HDRBUF == offset && data == null
      requires Decode(taken) == Decode(hdrbuf[..offset]).Behind(accepted)
      modifies this`hdr, this`data
      ensures end == if Decode(taken).bad then Refused else if !memory then NoMemory else Kept
      ensures end == Refused <==> !GoodLen(RawLen(hdrbuf[HDR..]))
      ensures end == Refused ==> accepted == Decode(taken).msgs
      ensures end != Kept ==> accepted <= Decode(taken).msgs && data == null
      ensures end == Kept ==> Roomy() && Faithful() && data != null && fresh(data) && Current() == hdrbuf[..]
    {
      hide Decode, RawLen, HeaderOf, HeaderBytes, Put;
      ghost var full := hdrbuf[..offset];
      assert hdrbuf[HDR..] == full[HDR..] && hdrbuf[..HDR] == full[..HDR];
      DecodeHead(full);
      var raw := RawLen(hdrbuf[HDR..]);
      if !GoodLen(raw) { return Refused; }
      if !memory { return NoMemory; }
      var body := new Byte[raw];
      PutStart(body[..], 0, full[HDR..]);
      CopyIn(body, 0, hdrbuf[HDR..]);
      hdr := HeaderOf(hdrbuf[..HDR]);
      data := body;
      assert data[..BLOB] == data[..][..BLOB] == full[HDR..];
      end := Kept;
    }

    /** The header half of a read. */
    method ReceiveHeader(chunk: seq<Byte>, memory: bool) returns (end: End)
      requires Valid() && data == null && |chunk| <= HDRBUF - offset
      modifies this`taken, this`offset, this`hdr, this`data, hdrbuf
      ensures taken == old(taken) + chunk
      ensures end != Flagged && (end == Refused <==> Decode(taken).bad) && (end == NoMemory ==> !memory)
      ensures end == Refused ==> accepted == Decode(taken).msgs
      ensures end != Kept ==> accepted <= Decode(taken).msgs && data == null
      ensures end == Kept ==> Roomy() && Faithful() && (data == null || fresh(data)) && Current() == old(Current()) + chunk
      ensures offset == old(offset) + |chunk|
      ensures end == HeadEnd(old(Current()) + chunk, memory) && (end == Kept ==> (data == null <==> offset < HDRBUF))
    {
      hide Decode, HeaderBytes, RawLen, GoodLen;
      FillHeader(chunk);
      end := Kept;
      if offset < HDRBUF {
        AtRest();
        return;
      }
      assert hdrbuf[..offset] == hdrbuf[..] && hdrbuf[..][HDR..] == hdrbuf[HDR..];
      end := StartBody(memory);
    }

    /** A read into the rest of the data.  A complete message is handed on. */
    method ReceiveBody(chunk: seq<Byte>) returns (complete: bool)
      requires Roomy() && Faithful() && data != null
      requires |chunk| <= data.Length - (offset - HDR)
      modifies this`taken, this`offset, this`data, this`accepted, data
      ensures Valid()
      ensures taken == old(taken) + chunk
      ensures complete <==> |chunk| == old(data.Length - (offset - HDR))
      ensures if complete
              then |accepted| == |old(accepted)| + 1 && old(accepted) <= accepted && data == null && offset == 0
              else accepted == old(accepted) && data == old(data) && offset == old(offset) + |chunk|
    {
      hide Decode, RawLen, HeaderBytes, Put, GoodLen;
      var at := offset - HDR;
      ghost var was := data[..];
      assert was[..at] == data[..at] && was[..BLOB] == data[..BLOB];
      BodyBytes(hdr, was, at, chunk, taken, accepted);
      CopyIn(data, at, chunk);
      taken := taken + chunk;
      assert data[..][..at + |chunk|] == data[..at + |chunk|] && data[..][..BLOB] == data[..BLOB];
      if |chunk| < data.Length - at {
        offset := offset + |chunk|;
        return false;
      }
      accepted := accepted + [Packet(hdr, data[..])];
      offset, data := 0, null;
      return true;
    }

    /** A send in the handler flagged the client for disconnect. */
    method Flag()
      requires Valid()
      modifies this`eof
      ensures Valid() && eof && Current() == old(Current())
    {
      hide Decode;
      eof := true;
    }

    /** One `recvmsg` for the header. */
    method HeaderStep(input: seq<Byte>, used0: nat, take: nat, memory: bool, ghost base: seq<Byte>)
      returns (used: nat, end: End)
      requires Valid() && data == null
      requires used0 <= |input| && taken == base + input[..used0]
      modifies this`taken, this`offset, this`hdr, this`data, hdrbuf
      ensures used0 <= used <= |input| && taken == base + input[..used]
      ensures end != Flagged && (end == Refused <==> Decode(taken).bad) && (end == NoMemory ==> !memory)
      ensures end == Refused ==> accepted == Decode(taken).msgs
      ensures end != Kept ==> accepted <= Decode(taken).msgs && data == null
      ensures end == Kept ==> Roomy() && Faithful() && (data == null || fresh(data))
      ensures data == null && end == Kept ==> Valid()
      ensures used == used0 + Min(take, Min(Wanted(old(Current())), |input| - used0))
      ensures end == HeadEnd(old(Current()) + input[used0..used], memory)
      ensures end == Kept ==>
        && Current() == old(Current()) + input[used0..used]
        && (data == null <==> used - used0 < Wanted(old(Current())))
    {
      hide Decode, HeaderBytes, RawLen, GoodLen;
      var n := Min(take, Min(HDRBUF - offset, |input| - used0));
      Seqs.TakeMore(input, used0, n);
      used := used0 + n;
      end := ReceiveHeader(input[used0..used], memory);
    }

    /** One `read` for the data, unless none is missing. */
    method BodyStep(input: seq<Byte>, used0: nat, take: nat, ghost base: seq<Byte>) returns (used: nat, complete: bool)
      requires Roomy() && Faithful() && data != null
      requires used0 <= |input| && taken == base + input[..used0]
      modifies this`taken, this`offset, this`data, this`accepted, data
      ensures used0 <= used <= |input| && taken == base + input[..used]
      ensures old(offset) < HDR + old(data.Length) || complete ==> Valid()
      ensures old(offset) == HDR + old(data.Length) ==> complete
      ensures old(accepted) <= accepted
      ensures if complete then data == null && offset == 0 && |accepted| == |old(accepted)| + 1
              else data == old(data) && accepted == old(accepted)
      ensures used == used0 + Min(take, Min(old(HDR + data.Length - offset), |input| - used0))
      ensures complete <==> used - used0 == old(HDR + data.Length - offset)
    {
      hide Decode, HeaderBytes, RawLen, GoodLen;
      var len := data.Length - (offset - HDR);
      var n := Min(take, Min(len, |input| - used0));
      Seqs.TakeMore(input, used0, n);
      used := used0 + n;
      complete := ReceiveBody(input[used0..used]);
    }

    /** Nothing is under way. */
    lemma Fresh()
      requires data == null && offset == 0
      ensures Current() == []
    {
    }

    /** What the next call asks for. */
    lemma Wants()
      requires Roomy()
      ensures |Current()| == offset && (data == null <==> offset < HDRBUF)
      ensures Wanted(Current()) == if data == null then HDRBUF - offset else HDR + data.Length - offset
    {
      hide RawLen, HeaderBytes;
      if data != null { assert Current()[HDR..HDRBUF] == data[..BLOB]; }
    }

    /** The part of a turn that reads the head. */
    method ReadHead(input: seq<Byte>, used0: nat, calls: seq<(nat, bool)>, t: nat, ghost base: seq<Byte>, ghost left: int)
      returns (used: nat, end: End)
      requires Valid() && data == null && !eof && t < |calls|
      requires used0 <= |input| && taken == base + input[..used0]
      modifies this`taken, this`offset, this`hdr, this`data, hdrbuf
      ensures used0 <= used <= |input| && taken == base + input[..used]
      ensures end != Flagged && (end == Refused <==> Decode(taken).bad) && (end == NoMemory ==> !calls[t].1)
      ensures end == Refused ==> accepted == Decode(taken).msgs
      ensures end != Kept ==> accepted <= Decode(taken).msgs && data == null
      ensures end == Kept ==> Roomy() && Faithful() && (data == null || fresh(data))
      ensures data == null && end == Kept ==> Valid()
      ensures var o := old(Reads(Current(), input[used0..], calls[t..], left, false));
        if end != Kept || data == null then o == Outcome(used - used0, end, false)
        else o == (if offset < HDR + data.Length then Reads(Current(), input[used..], calls[t + 1..], left, false)
                   else Reads([], input[used..], calls[t + 1..], left - 1, left == 1)).Plus(used - used0)
    {
      hide Decode, HeaderBytes, RawLen, GoodLen, Reads, Wanted, Faithful;
      Wants();
      ghost var cur := Current();
      ReadsHead(cur, input[used0..], calls[t..], left);
      used, end := HeaderStep(input, used0, calls[t].0, calls[t].1, base);
      assert input[used0..][..used - used0] == input[used0..used] && input[used0..][used - used0..] == input[used..];
      assert calls[t..][1..] == calls[t + 1..];
      if end == Kept { Wants(); }
    }

    /** The part of a turn that reads the data. */
    method ReadBody(input: seq<Byte>, used0: nat, calls: seq<(nat, bool)>, t: nat, ghost base: seq<Byte>, ghost left: int)
      returns (used: nat, complete: bool)
      requires Valid() && data != null && t < |calls|
      requires used0 <= |input| && taken == base + input[..used0]
      modifies this`taken, this`offset, this`data, this`accepted, data
      ensures Valid() && used0 <= used <= |input| && taken == base + input[..used]
      ensures old(accepted) <= accepted && |accepted| == |old(accepted)| + if complete then 1 else 0
      ensures if complete then data == null && offset == 0 else data == old(data)
      ensures var o := old(Reads(Current(), input[used0..], calls[t..], left, eof));
        if complete then o == Reads([], input[used..], calls[t + 1..], left - 1, eof || left == 1).Plus(used - used0)
        else o == Outcome(used - used0, Kept, eof)
    {
      hide Decode, HeaderBytes, RawLen, GoodLen, Reads, Wanted, Faithful;
      Wants();
      ReadsBody(Current(), input[used0..], calls[t..], left, eof);
      used, complete := BodyStep(input, used0, calls[t].0, base);
      assert input[used0..][used - used0..] == input[used..];
      assert calls[t..][1..] == calls[t + 1..];
    }

    /** A message is complete and is handed on. */
    method HandOver(input: seq<Byte>, used0: nat, calls: seq<(nat, bool)>, t0: nat, ghost base: seq<Byte>, ghost left: int)
      returns (used: nat, t: nat, complete: bool)
      requires Roomy() && Faithful() && data != null && t0 <= |calls|
      requires used0 <= |input| && taken == base + input[..used0]
      modifies this`taken, this`offset, this`data, this`accepted, data
      ensures Valid() && used0 <= used <= |input| && t0 <= t <= |calls| && taken == base + input[..used]
      ensures old(accepted) <= accepted && |accepted| == |old(accepted)| + if complete then 1 else 0
      ensures if complete then data == null && offset == 0 else data == old(data)
      ensures complete && old(offset < HDR + data.Length) ==> t0 < t
      ensures var o := old(if offset < HDR + data.Length then Reads(Current(), input[used0..], calls[t0..], left, eof)
                           else Reads([], input[used0..], calls[t0..], left - 1, eof || left == 1));
        if complete then o == Reads([], input[used..], calls[t..], left - 1, eof || left == 1).Plus(used - used0)
        else o == Outcome(used - used0, Kept, eof)
    {
      hide Decode, HeaderBytes, RawLen, GoodLen, Faithful, Reads, Wanted;
      if offset < HDR + data.Length {
        ReadsStop(Current(), input[used0..], calls[t0..], left, eof);
        if t0 == |calls| { return used0, t0, false; }
        used, complete := ReadBody(input, used0, calls, t0, base, left);
        t := t0 + 1;
      } else {
        used, complete := BodyStep(input, used0, 0, base);
        t := t0;
      }
    }

    /** From `retry` on, once.  `again` says that a message has been handed on. */
    method Turn(input: seq<Byte>, used0: nat, calls: seq<(nat, bool)>, t0: nat, eofAt: nat, ghost base: seq<Byte>)
      returns (used: nat, t: nat, end: End, again: bool)
      requires Valid() && t0 <= |calls| && used0 <= |input| && taken == base + input[..used0]
      modifies this`taken, this`offset, this`hdr, this`data, this`accepted, this`eof, hdrbuf, data
      ensures used0 <= used <= |input| && t0 <= t <= |calls| && taken == base + input[..used]
      ensures old(accepted) <= accepted && (data == null || data == old(data) || fresh(data))
      ensures end != Flagged && (end == Refused <==> Decode(taken).bad) && (end == NoMemory ==> exists c :: c in calls && !c.1)
      ensures end == Refused ==> accepted == Decode(taken).msgs
      ensures end != Kept ==> accepted <= Decode(taken).msgs && !again
      ensures end == Kept ==> Valid()
      ensures again ==> t0 < t
      ensures var o := old(Reads(Current(), input[used0..], calls[t0..], eofAt - |accepted|, eof));
        if again then Valid() && o == Reads(Current(), input[used..], calls[t..], eofAt - |accepted|, eof).Plus(used - used0)
        else o == Outcome(used - used0, end, eof)
    {
      hide Decode, Faithful, Reads, Roomy, Current;
      AtRest();
      Wants();
      used, t, end, again := used0, t0, Kept, false;
      ghost var left := eofAt - |accepted|;
      ReadsStop(Current(), input[used0..], calls[t0..], left, eof);
      if !eof && data == null {
        if t == |calls| { return; }
        used, end := ReadHead(input, used, calls, t, base, left);
        assert calls[t] in calls;
        t := t + 1;
        if end != Kept { return; }
      }
      if data == null { return; }
      var complete;
      used, t, complete := HandOver(input, used, calls, t, base, left);
      AtRest();
      if !complete { return; }
      Fresh();
      if |accepted| == eofAt { Flag(); }
      again := true;
    }

    /** The receiving half of `client_cb`.  `input` holds the bytes that have arrived, `calls` the number each system call
        returns and whether memory lasts after it; the client is flagged for disconnect when the message numbered `eofAt`
        is handled; and `idle` says whether nothing is left to be sent to it.  It reads on, message after message, as long
        as the calls give what they are asked for.  Whatever the split, the messages handed on are those the bytes mean,
        and the client is disconnected exactly for a bad length, for want of memory, or when it is flagged and idle. */
    method OnReadable(input: seq<Byte>, calls: seq<(nat, bool)>, eofAt: nat, idle: bool) returns (used: nat, end: End)
      requires Valid()
      modifies this, hdrbuf, data
      ensures used <= |input| && taken == old(taken) + input[..used]
      ensures old(accepted) <= accepted
      ensures end == Refused <==> Decode(taken).bad
      ensures end == NoMemory ==> exists c :: c in calls && !c.1
      ensures if end == NoMemory then accepted <= Decode(taken).msgs else accepted == Decode(taken).msgs
      ensures end == Kept || end == Flagged ==> Valid() && (end == Flagged <==> eof && idle)
      ensures data == null || data == old(data) || fresh(data)
      ensures var o := old(Reads(Current(), input, calls, eofAt - |accepted|, eof));
        used == o.used && eof == o.eof && end == if o.end == Kept && o.eof && idle then Flagged else o.end
    {
      hide Decode, Roomy, Faithful, Reads;
      used, end := 0, Kept;
      var t, again := 0, true;
      ghost var whole := Reads(Current(), input, calls, eofAt - |accepted|, eof);
      assert input[..0] == [] && input[0..] == input && calls[0..] == calls;
      while again
        invariant t <= |calls| && used <= |input|
        invariant taken == old(taken) + input[..used]
        invariant old(accepted) <= accepted
        invariant data == null || data == old(data) || fresh(data)
        invariant end != Flagged && (!again ==> (end == Refused <==> Decode(taken).bad))
        invariant end == NoMemory ==> exists c :: c in calls && !c.1
        invariant end == Refused ==> accepted == Decode(taken).msgs
        invariant end != Kept ==> accepted <= Decode(taken).msgs
        invariant end == Kept ==> Valid()
        invariant again ==> end == Kept && whole == Reads(Current(), input[used..], calls[t..], eofAt - |accepted|, eof).Plus(used)
        invariant !again ==> whole == Outcome(used, end, eof)
        decreases |calls| - t, again
      {
        used, t, end, again := Turn(input, used, calls, t, eofAt, old(taken));
      }
      if end == Kept {
        AtRest();
        if eof && idle { end := Flagged; }
      }
    }
  }

  /** Where the reading stops, and what one call does. */
  lemma ReadsStop(cur: seq<Byte>, input: seq<Byte>, calls: seq<(nat, bool)>, left: int, eof: bool)
    ensures calls == [] || (eof && |cur| < HDRBUF) ==> Reads(cur, input, calls, left, eof) == Outcome(0, Kept, eof)
  {
  }

  lemma ReadsHead(cur: seq<Byte>, input: seq<Byte>, calls: seq<(nat, bool)>, left: int)
    requires calls != [] && |cur| < HDRBUF
    ensures var n := Min(calls[0].0, Min(Wanted(cur), |input|));
      var now, o := cur + input[..n], Reads(cur, input, calls, left, false);
      if n < Wanted(cur) || HeadEnd(now, calls[0].1) != Kept then o == Outcome(n, HeadEnd(now, calls[0].1), false)
      else if Wanted(now) > 0 then o == Reads(now, input[n..], calls[1..], left, false).Plus(n)
      else o == Reads([], input[n..], calls[1..], left - 1, left == 1).Plus(n)
  {
    hide RawLen, GoodLen;
    var n := Min(calls[0].0, Min(Wanted(cur), |input|));
    if n == Wanted(cur) { assert (cur + input[..n])[HDR..HDRBUF] == (cur + input[..n])[HDR..]; }
  }

  lemma ReadsBody(cur: seq<Byte>, input: seq<Byte>, calls: seq<(nat, bool)>, left: int, eof: bool)
    requires calls != [] && HDRBUF <= |cur|
    ensures var n := Min(calls[0].0, Min(Wanted(cur), |input|));
      Reads(cur, input, calls, left, eof) ==
      if n < Wanted(cur) then Outcome(n, Kept, eof)
      else Reads([], input[n..], calls[1..], left - 1, eof || left == 1).Plus(n)
  {
  }

  /** Two connections that have carried the same bytes have handed on the same messages and wait
      for the same rest, however their reads were split. */
  lemma SplitIndependent(a: Receiver, b: Receiver)
    requires a.Valid() && b.Valid() && a.taken == b.taken
    ensures a.accepted == b.accepted && a.Current() == b.Current()
  {
    hide Decode;
    a.AtRest();
    b.AtRest();
  }

  /** Bytes written into a buffer in place. */
  function Put(buf: seq<Byte>, at: nat, chunk: seq<Byte>): (r: seq<Byte>)
    requires at + |chunk| <= |buf|
    ensures |r| == |buf|
  {
    buf[..at] + chunk + buf[at + |chunk|..]
  }

  method CopyIn(a: array<Byte>, at: nat, chunk: seq<Byte>)
    requires at + |chunk| <= a.Length
    modifies a
    ensures a[..] == Put(old(a[..]), at, chunk)
  {
    forall i | 0 <= i < |chunk| { a[at + i] := chunk[i]; }
  }

  lemma PutStart(buf: seq<Byte>, at: nat, chunk: seq<Byte>)
    requires at + |chunk| <= |buf|
    ensures Put(buf, at, chunk)[..at + |chunk|] == buf[..at] + chunk
    ensures BLOB <= at ==> Put(buf, at, chunk)[..BLOB] == buf[..BLOB]
  {
  }

  /** A full header buffer: what its bytes mean so far. */
  lemma DecodeHead(full: seq<Byte>)
    requires |full| == HDRBUF
    ensures Decode(full).bad <==> !GoodLen(RawLen(full[HDR..]))
    ensures Decode(full).bad ==> Decode(full).msgs == []
    ensures HeaderBytes(HeaderOf(full[..HDR])) + full[HDR..] == full
  {
    HeaderBytesOf(full[..HDR]);
  }

  /** A read into the data buffer, seen on values. */
  lemma BodyBytes(hdr: Header, was: seq<Byte>, at: nat, chunk: seq<Byte>, taken: seq<Byte>, accepted: seq<Packet>)
    requires BLOB <= at && at + |chunk| <= |was|
    requires RawLen(was[..BLOB]) == |was| && GoodLen(|was|)
    requires Decode(taken) == Decode(HeaderBytes(hdr) + was[..at]).Behind(accepted)
    ensures var now := Put(was, at, chunk);
      && now[..BLOB] == was[..BLOB]
      && Decode(taken + chunk) == Decode(HeaderBytes(hdr) + now[..at + |chunk|]).Behind(accepted)
      && (at + |chunk| == |was| ==> Decode(taken + chunk) == Decode([]).Behind(accepted + [Packet(hdr, now)]))
  {
    var cur, now := HeaderBytes(hdr) + was[..at], Put(was, at, chunk);
    PutStart(was, at, chunk);
    hide Put, HeaderBytes;
    assert cur[HDR..HDRBUF] == was[..BLOB];
    assert !Decode(cur).bad;
    hide Decode;
    MoreBytes(taken, cur, accepted, chunk);
    Seqs.Assoc(HeaderBytes(hdr), was[..at], chunk);
    if at + |chunk| == |was| {
      assert now[..at + |chunk|] == now;
      assert RawLen(now) == RawLen(now[..BLOB]);
      HandOn(taken + chunk, accepted, Packet(hdr, now));
    }
  }
}
