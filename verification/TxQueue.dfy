/** A client's transmit queue in the daemon: `ubus_msg_send`, `ubus_msg_enqueue` and
    `ubus_msg_writev` (`ubusd.c`), and the drain at the top of `client_cb` (`ubusd_main.c`), for
    every way the kernel may cut writes short. */
module TxQueue {
  import opened Options
  import Seqs

  type Byte = b: int | 0 <= b < 256

  /** UBUS_CLIENT_MAX_TXQ_LEN, and the size of the message header. */
  const MAX_TXQ_LEN := 1048576
  const HDR := 8
  const BLOB := 4
  const INT_MAX := 0x7fff_ffff

  /** A message as bytes: the header in network order, and the data. */
  datatype Message = Message(hdr: seq<Byte>, data: seq<Byte>)

  /** The data begins with the head of a blob. */
  predicate Proper(m: Message) {
    |m.hdr| == HDR && BLOB <= |m.data| <= INT_MAX
  }

  /** The length of a blob has 24 bits. */
  predicate Sized(m: Message) {
    Proper(m) && |m.data| < 0x100_0000
  }

  function Wire(m: Message): seq<Byte> {
    m.hdr + m.data
  }

  function Flat(ms: seq<Message>): seq<Byte> {
    if ms == [] then [] else Wire(ms[0]) + Flat(ms[1..])
  }

  lemma {:induction false} FlatAppend(a: seq<Message>, b: seq<Message>)
    ensures Flat(a + b) == Flat(a) + Flat(b)
  {
    hide Wire;
    if a == [] {
      assert a + b == b;
    } else {
      FlatAppend(a[1..], b);
      assert (a + b)[0] == a[0] && (a + b)[1..] == a[1..] + b;
      Seqs.Assoc(Wire(a[0]), Flat(a[1..]), Flat(b));
    }
  }

  lemma FlatOne(m: Message)
    ensures Flat([m]) == Wire(m) && Flat([]) == []
  {
    assert [m][1..] == [];
  }

  /** One more message at the end. */
  lemma FlatSnoc(ms: seq<Message>, m: Message)
    ensures Flat(ms + [m]) == Flat(ms) + Wire(m)
  {
    FlatAppend(ms, [m]);
    FlatOne(m);
  }

  /** The gather list of `ubus_msg_writev`: whatever the offset, the buffers hold exactly the rest
      of the message. */
  method GatherList(m: Message, offset: nat) returns (iov: seq<seq<Byte>>)
    requires Proper(m) && offset <= HDR + |m.data|
    ensures Joined(iov) == Wire(m)[offset..]
  {
    if offset < HDR {
      iov := [m.hdr[offset..], m.data];
      assert iov[1..] == [m.data] && iov[1..][1..] == [];
      assert Joined(iov[1..]) == m.data + Joined([]) == m.data;
      assert Joined(iov) == m.hdr[offset..] + m.data;
    } else {
      var rest := offset - HDR;
      iov := [m.data[rest..]];
      assert iov[1..] == [] && Joined(iov[1..]) == [];
      assert Joined(iov) == m.data[rest..] + [];
    }
  }

  function Joined(iov: seq<seq<Byte>>): seq<Byte> {
    if iov == [] then [] else iov[0] + Joined(iov[1..])
  }

  /** `cl->txq_len + sizeof(ub->hdr) + ub->len > UBUS_CLIENT_MAX_TXQ_LEN`: the signed length is
      converted to the unsigned word of the platform before it is added. */
  predicate OverLimit(txqLen: int, len: nat, word: nat)
    requires 0 < word
  {
    (txqLen % word + HDR + len) % word > MAX_TXQ_LEN
  }

  /** The conversion never wraps: with at least 32 bits, a length of at most the limit, and a
      debt (a negative length) smaller than the message, the check compares the true sum. */
  lemma LimitDoesNotWrap(txqLen: int, len: nat, word: nat)
    requires 0x1_0000_0000 <= word && len <= INT_MAX
    requires -(HDR + len) < txqLen <= MAX_TXQ_LEN
    ensures OverLimit(txqLen, len, word) <==> txqLen + HDR + len > MAX_TXQ_LEN
  {
    var sum := txqLen + HDR + len;
    if txqLen < 0 {
      assert txqLen % word == txqLen + word;
      assert (sum + word) % word == sum;
    }
  }

  /** What one `sendmsg` of the drain may do. */
  datatype Result = Wrote(n: nat) | Interrupted | Again | Fatal

  function Min(a: nat, b: nat): nat {
    if a <= b then a else b
  }

  /** How far into the queue the kernel has got. */
  ghost function Sent(queue: seq<Message>, ofs: nat): nat {
    if queue == [] then 0 else Min(ofs, |Flat(queue)|)
  }

  /** The stream is whole messages, then the first `ofs` bytes of the head of the queue, and the
      queue length counts what is left.  Only a client flagged for disconnect can have been left
      with half a message at the end. */
  ghost predicate Framed(queue: seq<Message>, ofs: nat, txqLen: int, eof: bool,
                         wire: seq<Byte>, done: seq<Message>, torn: seq<Byte>) {
    && (forall m :: m in queue ==> Proper(m))
    && (torn != [] ==> eof && queue == [])
    && (queue != [] ==>
          && ofs < |Wire(queue[0])|
          && txqLen == |Flat(queue)| - ofs
          && 0 < txqLen <= MAX_TXQ_LEN)
    && wire == Flat(done) + torn + Flat(queue)[..Sent(queue, ofs)]
  }

  /** The kernel takes a whole message. */
  lemma FramedWhole(txqLen: int, ofs: nat, eof: bool, wire: seq<Byte>, done: seq<Message>, m: Message)
    requires Framed([], ofs, txqLen, eof, wire, done, [])
    ensures Framed([], ofs, txqLen, eof, wire + Wire(m), done + [m], [])
  {
    FlatSnoc(done, m);
  }

  /** The kernel takes a part, and the rest is queued or lost. */
  lemma FramedPart(txqLen: int, ofs: nat, eof: bool, wire: seq<Byte>, done: seq<Message>, m: Message, n: nat)
    requires Framed([], ofs, txqLen, eof, wire, done, [])
    requires Proper(m) && n < |Wire(m)|
    ensures |Wire(m)| - n <= MAX_TXQ_LEN ==> Framed([m], n, |Wire(m)| - n, eof, wire + Wire(m)[..n], done, [])
    ensures 0 < n ==> Framed([], n, 0 - n, true, wire + Wire(m)[..n], done, Wire(m)[..n])
  {
    FlatOne(m);
  }

  /** A message joins the messages that wait. */
  lemma FramedQueued(queue: seq<Message>, ofs: nat, txqLen: int, eof: bool,
                     wire: seq<Byte>, done: seq<Message>, m: Message)
    requires Framed(queue, ofs, txqLen, eof, wire, done, []) && queue != []
    requires Proper(m) && txqLen + |Wire(m)| <= MAX_TXQ_LEN
    ensures Framed(queue + [m], ofs, txqLen + |Wire(m)|, eof, wire, done, [])
  {
    FlatSnoc(queue, m);
    assert Flat(queue)[..ofs] == Flat(queue + [m])[..ofs];
  }

  /** The kernel takes more of the head of the queue. */
  lemma FramedMore(queue: seq<Message>, ofs: nat, txqLen: int, eof: bool,
                   wire: seq<Byte>, done: seq<Message>, torn: seq<Byte>, n: nat)
    requires Framed(queue, ofs, txqLen, eof, wire, done, torn) && queue != []
    requires ofs + n <= |Wire(queue[0])|
    ensures var wire' := wire + Wire(queue[0])[ofs..][..n];
      if ofs + n < |Wire(queue[0])|
      then Framed(queue, ofs + n, txqLen - n, eof, wire', done, torn)
      else
        && Framed(queue[1..], 0, txqLen - n, eof, wire', done + [queue[0]], torn)
        && (queue[1..] == [] ==> txqLen == n)
  {
    hide Wire;
    var head := queue[0];
    HeadOfQueue(queue, ofs, n);
    if ofs + n == |Wire(head)| {
      FlatSnoc(done, head);
      assert Flat(queue)[..ofs + n] == Wire(head);
      NextHead(queue[1..], txqLen - n);
    }
  }

  /** With an empty queue its length and offset do not matter. */
  lemma FramedEmpty(ofs: nat, txqLen: int, ofs': nat, txqLen': int, eof: bool,
                    wire: seq<Byte>, done: seq<Message>, torn: seq<Byte>)
    requires Framed([], ofs, txqLen, eof, wire, done, torn)
    ensures Framed([], ofs', txqLen', eof, wire, done, torn)
  {
  }

  // ----- the plain view -----

  /** A client seen from outside: the messages taken on for it, how many of their bytes are out, the part of a message that
      was begun and then dropped, and the flag. */
  datatype Plain = Plain(accepted: seq<Message>, out: nat, torn: seq<Byte>, eof: bool)

  /** A message is offered to the kernel and the queue.  What waits counts against the limit; if nothing waits the kernel
      may take a part at once. */
  ghost function Offer(p: Plain, m: Message, w: int, allocOk: bool): Plain {
    var left, size, n := |Flat(p.accepted)| - p.out, |Wire(m)|, if w < 0 then 0 else Min(w, |Wire(m)|);
    if left > 0 then (if allocOk && left + size <= MAX_TXQ_LEN then p.(accepted := p.accepted + [m]) else p)
    else if n == size || (allocOk && size - n <= MAX_TXQ_LEN) then p.(accepted := p.accepted + [m], out := p.out + n)
    else if n > 0 then p.(torn := Wire(m)[..n], eof := true)
    else p
  }

  /** The messages of which bytes are left, and how far the first of them has got. */
  ghost function Waiting(accepted: seq<Message>, out: nat): (seq<Message>, nat) {
    if accepted == [] then ([], 0)
    else if out < |Wire(accepted[0])| then (accepted, out)
    else Waiting(accepted[1..], out - |Wire(accepted[0])|)
  }

  /** What the kernel has got of the queue and of the messages before it. */
  lemma OutIs(queue: seq<Message>, ofs: nat, txqLen: int, eof: bool,
              wire: seq<Byte>, done: seq<Message>, torn: seq<Byte>)
    requires Framed(queue, ofs, txqLen, eof, wire, done, torn)
    ensures var out := |Flat(done)| + Sent(queue, ofs);
      && |wire| == out + |torn|
      && out <= |Flat(done + queue)|
      && wire == Flat(done + queue)[..out] + torn
      && |Flat(done + queue)| - out == if queue == [] then 0 else txqLen
  {
    FlatAppend(done, queue);
    if queue == [] { assert done + queue == done && Flat(done)[..|Flat(done)|] == Flat(done); }
  }

  /** The offer is what the message, the queue and the wire become. */
  lemma OfferIs(p: Plain, q: Plain, queue: seq<Message>, txqLen: int, m: Message, w: int, allocOk: bool, was: nat, now: nat)
    requires Proper(m) && (p.torn != [] ==> p.eof) && !Behind(p.torn, m, w, allocOk)
    requires |Flat(p.accepted)| - p.out == (if queue == [] then 0 else txqLen) && (queue != [] ==> 0 < txqLen)
    requires was == p.out + |p.torn| && now == q.out + |q.torn|
    requires now == was + if queue == [] then |Start(m, w)| else 0
    requires q.accepted == if Taken(queue, txqLen, m, w, allocOk) then p.accepted + [m] else p.accepted
    requires q.torn == if queue == [] && 0 < w && !Taken(queue, txqLen, m, w, allocOk) then Start(m, w) else p.torn
    requires q.eof == (p.eof || q.torn != [])
    ensures q == Offer(p, m, w, allocOk)
  {
    hide Wire, Flat;
    WireSize(m);
  }

  lemma {:induction false} WaitingIs(done: seq<Message>, queue: seq<Message>, ofs: nat)
    requires queue != [] ==> ofs < |Wire(queue[0])|
    ensures Waiting(done + queue, |Flat(done)| + if queue == [] then 0 else ofs) == (queue, if queue == [] then 0 else ofs)
  {
    if done == [] {
      assert [] + queue == queue;
    } else {
      WaitingIs(done[1..], queue, ofs);
      assert (done + queue)[1..] == done[1..] + queue;
    }
  }

  class Client {
    const word: nat
    var queue: seq<Message>
    var ofs: nat
    var txqLen: int
    var eof: bool

    /** The bytes the kernel has taken, the messages completely taken, and the part of a message
        that was begun and then dropped. */
    ghost var wire: seq<Byte>
    ghost var done: seq<Message>
    ghost var torn: seq<Byte>

    /** Set when a message is written or queued behind half a message. */
    ghost var spliced: bool

    ghost predicate Valid()
      reads this
    {
      0x1_0000_0000 <= word && Framed(queue, ofs, txqLen, eof, wire, done, torn)
    }

    /** The messages taken on: those written and those waiting. */
    ghost function Accepted(): seq<Message>
      reads this
    {
      done + queue
    }

    ghost function View(): Plain
      reads this
    {
      Plain(Accepted(), |Flat(done)| + Sent(queue, ofs), torn, eof)
    }

    /** What has been written is the start of the messages taken on, and the part that was dropped. */
    lemma Stream()
      requires Valid()
      ensures View().out <= |Flat(View().accepted)| && wire == Flat(View().accepted)[..View().out] + View().torn
      ensures |wire| == View().out + |View().torn|
      ensures |Flat(View().accepted)| - View().out == if queue == [] then 0 else txqLen
    {
      OutIs(queue, ofs, txqLen, eof, wire, done, torn);
    }

    lemma Rest()
      requires Valid()
      ensures Waiting(View().accepted, View().out) == (queue, if queue == [] then 0 else ofs)
    {
      WaitingIs(done, queue, ofs);
      if queue != [] { assert |Wire(queue[0])| <= |Flat(queue)|; }
    }

    constructor (word: nat)
      requires 0x1_0000_0000 <= word
      ensures Valid() && wire == [] && queue == [] && ofs == 0 && txqLen == 0 && Accepted() == [] && torn == []
      ensures !eof && !spliced && this.word == word
    {
      this.word := word;
      queue, ofs, txqLen, eof := [], 0, 0, false;
      wire, done, torn, spliced := [], [], [], false;
    }

    /** `ubus_msg_enqueue`.  `allocOk` is false when memory runs out. */
    method Enqueue(m: Message, allocOk: bool) returns (ok: bool)
      requires 0x1_0000_0000 <= word && Proper(m)
      requires -(HDR + |m.data|) < txqLen <= MAX_TXQ_LEN
      modifies this`queue, this`txqLen
      ensures ok <==> allocOk && old(txqLen) + HDR + |m.data| <= MAX_TXQ_LEN
      ensures ok ==> queue == old(queue) + [m] && txqLen == old(txqLen) + |Wire(m)|
      ensures !ok ==> queue == old(queue) && txqLen == old(txqLen)
    {
      LimitDoesNotWrap(txqLen, |m.data|, word);
      if OverLimit(txqLen, |m.data|, word) { return false; }
      if !allocOk { return false; }
      queue := queue + [m];
      txqLen := txqLen + |m.data| + HDR;
      return true;
    }

    /** The direct write of `ubus_msg_send` on an empty queue: the kernel takes `w` bytes (a negative
        count is an error), and what is left is queued, or lost. */
    method WriteDirect(m: Message, w: int, allocOk: bool)
      requires 0x1_0000_0000 <= word && Proper(m) && queue == []
      modifies this`queue, this`ofs, this`txqLen, this`eof, this`wire, this`done, this`torn
      ensures var n := if w < 0 then 0 else Min(w, |Wire(m)|);
        && wire == old(wire) + Wire(m)[..n]
        && (n == |Wire(m)| ==>
              done == old(done) + [m] && queue == [] && torn == old(torn) && eof == old(eof)
              && ofs == old(ofs) && txqLen == old(txqLen))
        && (n < |Wire(m)| ==>
              && done == old(done) && ofs == n
              && (allocOk && |Wire(m)| - n <= MAX_TXQ_LEN ==>
                    queue == [m] && txqLen == |Wire(m)| - n && torn == old(torn) && eof == old(eof))
              && (!allocOk || |Wire(m)| - n > MAX_TXQ_LEN ==>
                    && queue == [] && txqLen == 0 - n
                    && torn == (if n == 0 then old(torn) else Wire(m)[..n])
                    && eof == (old(eof) || 0 < n)))
    {
      hide Wire;
      WireSize(m);
      var size := |m.data| + HDR;
      var written := if w < 0 then 0 else Min(w, size);
      wire := wire + Wire(m)[..written];
      if written >= size {
        done := done + [m];
        return;
      }
      var partial := written > 0;
      ofs := written;
      txqLen := -written;
      var ok := Enqueue(m, allocOk);
      if ok { return; }
      if partial {
        torn := Wire(m)[..ofs];
        eof := true;
      }
    }

    /** With nothing queued the message is written at once, as far as the kernel takes it. */
    method TransmitNow(m: Message, w: int, allocOk: bool)
      requires Valid() && Proper(m) && queue == []
      modifies this`queue, this`ofs, this`txqLen, this`eof, this`wire, this`done, this`torn
      ensures !Behind(old(torn), m, w, allocOk) ==>
        && Valid()
        && Accepted() == (if Taken([], 0, m, w, allocOk) then old(Accepted()) + [m] else old(Accepted()))
        && torn == (if 0 < w && !Taken([], 0, m, w, allocOk) then Start(m, w) else old(torn))
        && eof == (old(eof) || torn != [])
      ensures wire == old(wire) + Start(m, w)
      ensures old(eof) ==> eof
    {
      DebtBound();
      hide Framed, Wire;
      WireSize(m);
      assert Framed([], ofs, txqLen, eof, wire, done, torn);
      var n := if w < 0 then 0 else Min(w, |m.data| + HDR);
      FramedEmpty(ofs, txqLen, n, 0 - n, eof, wire, done, torn);
      if torn == [] {
        if n == |Wire(m)| {
          FramedWhole(txqLen, ofs, eof, wire, done, m);
        } else {
          FramedPart(txqLen, ofs, eof, wire, done, m, n);
        }
      }
      assert Wire(m)[..|Wire(m)|] == Wire(m);
      WriteDirect(m, w, allocOk);
    }

    /** The whole of `ubus_msg_send` after the end-of-file test and the monitor copies. */
    method Transmit(m: Message, w: int, allocOk: bool)
      requires Valid() && Proper(m)
      modifies this
      ensures spliced == (old(spliced) || Behind(old(torn), m, w, allocOk))
      ensures !Behind(old(torn), m, w, allocOk) ==>
        && Valid()
        && Accepted() == (if Taken(old(queue), old(txqLen), m, w, allocOk)
                          then old(Accepted()) + [m] else old(Accepted()))
        && torn == (if old(queue) == [] && 0 < w && !Taken(old(queue), old(txqLen), m, w, allocOk)
                    then Start(m, w) else old(torn))
        && eof == (old(eof) || torn != [])
        && View() == Offer(old(View()), m, w, allocOk)
      ensures wire == old(wire) + (if old(queue) == [] then Start(m, w) else [])
      ensures old(eof) ==> eof
    {
      DebtBound();
      Stream();
      hide Framed, Wire, Start, Flat, Taken, Behind, Offer, Sent;
      ghost var before, behind := View(), Behind(torn, m, w, allocOk);
      Pass(m, w, allocOk);
      if !behind {
        Stream();
        OfferIs(before, View(), old(queue), old(txqLen), m, w, allocOk, |old(wire)|, |wire|);
      }
    }

    method Pass(m: Message, w: int, allocOk: bool)
      requires Valid() && Proper(m)
      modifies this
      ensures spliced == (old(spliced) || Behind(old(torn), m, w, allocOk))
      ensures !Behind(old(torn), m, w, allocOk) ==>
        && Valid()
        && Accepted() == (if Taken(old(queue), old(txqLen), m, w, allocOk)
                          then old(Accepted()) + [m] else old(Accepted()))
        && torn == (if old(queue) == [] && 0 < w && !Taken(old(queue), old(txqLen), m, w, allocOk)
                    then Start(m, w) else old(torn))
        && eof == (old(eof) || torn != [])
      ensures wire == old(wire) + (if old(queue) == [] then Start(m, w) else [])
      ensures old(eof) ==> eof
    {
      DebtBound();
      hide Framed, Wire, Start;
      WireSize(m);
      spliced := spliced || Behind(torn, m, w, allocOk);
      if queue == [] {
        TransmitNow(m, w, allocOk);
      } else {
        if txqLen + |Wire(m)| <= MAX_TXQ_LEN {
          FramedQueued(queue, ofs, txqLen, eof, wire, done, m);
        }
        var ok := Enqueue(m, allocOk);
      }
    }

    /** The event loop has seen the peer close. */
    method Close()
      requires Valid()
      modifies this`eof
      ensures Valid() && eof
      ensures View() == After1(old(View()), PeerClosed)
    {
      eof := true;
    }

    lemma DebtBound()
      requires Valid()
      ensures queue != [] ==> torn == [] && 0 < txqLen <= MAX_TXQ_LEN
      ensures torn != [] ==> eof && queue == []
    {
    }

    /** `ubus_msg_send`.  A client that is a monitor first gets a copy of its own message; the
        end-of-file flag is tested once, before the copy.  After half a message has been dropped a
        send writes nothing, and the stream stays framed unless the copy itself is torn and the
        message still follows it. */
    method Send(m: Message, at: Option<MonitorInfo>, w0: int, alloc0: bool, w: int, alloc: bool)
      requires Valid() && Sized(m)
      modifies this
      ensures old(eof) ==> wire == old(wire) && Accepted() == old(Accepted())
      ensures spliced == (old(spliced) || Splices(old(queue), old(eof), m, at, w0, alloc0, w, alloc))
      ensures !Splices(old(queue), old(eof), m, at, w0, alloc0, w, alloc) ==>
        && Valid()
        && old(Accepted()) <= Accepted()
        && (at.Some? && !old(eof) ==>
              var first := if Taken(old(queue), old(txqLen), CopyOf(m, at.value), w0, alloc0)
                           then old(Accepted()) + [CopyOf(m, at.value)] else old(Accepted());
              Accepted() == first || Accepted() == first + [m])
        && (torn != old(torn) ==> eof)
      ensures Splices(old(queue), old(eof), m, at, w0, alloc0, w, alloc) ==>
        eof && wire == old(wire) + Start(CopyOf(m, at.value), w0) + Start(m, w)
      ensures old(wire) <= wire
      ensures old(torn) != [] ==> torn == old(torn)
      ensures at.None? && !old(eof) ==>
        Accepted() == (if Taken(old(queue), old(txqLen), m, w, alloc)
                       then old(Accepted()) + [m] else old(Accepted()))
      ensures !Splices(old(queue), old(eof), m, at, w0, alloc0, w, alloc) ==>
        View() == After1(old(View()), SendOp(m, at, w0, alloc0, w, alloc))
    {
      DebtBound();
      hide Framed, Wire, Start, CopyOf, Offer, View;
      if eof { return; }
      if at.Some? {
        Transmit(CopyOf(m, at.value), w0, alloc0);
        DebtBound();
      }
      Transmit(m, w, alloc);
    }

    /** One successful write of the drain: `n` bytes of what is left of the head of the queue. */
    method WriteHead(n: nat)
      requires Valid() && queue != []
      modifies this`queue, this`ofs, this`txqLen, this`wire, this`done
      ensures Valid() && Accepted() == old(Accepted())
      ensures old(wire) <= wire
      ensures |wire| == |old(wire)| + Min(n, |Wire(old(queue)[0])| - old(ofs))
      ensures if old(ofs) + n < |Wire(old(queue)[0])|
              then queue == old(queue) && ofs == old(ofs) + n
              else queue == old(queue)[1..] && ofs == 0 && (queue == [] ==> txqLen == 0)
    {
      hide Wire;
      var head := queue[0];
      assert Proper(head) && ofs < |Wire(head)|;
      WireSize(head);
      hide Framed;
      var iov := GatherList(head, ofs);
      var written := Min(n, HDR + |head.data| - ofs);
      FramedMore(queue, ofs, txqLen, eof, wire, done, torn, written);
      wire := wire + Joined(iov)[..written];
      ofs := ofs + written;
      txqLen := txqLen - written;
      if ofs < HDR + |head.data| { return; }
      ofs := 0;
      done := done + [head];
      queue := queue[1..];
    }

    /** The drain of `client_cb`: it retries until the kernel would block or the queue is empty,
        and frees each message once its last byte is out. */
    method Drain(results: seq<Result>) returns (disconnect: bool)
      requires Valid()
      modifies this`queue, this`ofs, this`txqLen, this`wire, this`done
      ensures Valid() && Accepted() == old(Accepted())
      ensures old(wire) <= wire
      ensures |wire| == |old(wire)| + Written(results, old(queue), old(ofs))
      ensures disconnect <==> Fails(results, old(queue), old(ofs))
      ensures queue == [] && old(queue) != [] ==> txqLen == 0 && ofs == 0
      ensures View() == After1(old(View()), DrainOp(results))
    {
      Stream();
      Rest();
      hide Framed, Flat, Wire, Waiting;
      disconnect := WriteQueue(results);
      Stream();
    }

    method WriteQueue(results: seq<Result>) returns (disconnect: bool)
      requires Valid()
      modifies this`queue, this`ofs, this`txqLen, this`wire, this`done
      ensures Valid() && Accepted() == old(Accepted())
      ensures old(wire) <= wire
      ensures |wire| == |old(wire)| + Written(results, old(queue), old(ofs))
      ensures disconnect <==> Fails(results, old(queue), old(ofs))
      ensures queue == [] && old(queue) != [] ==> txqLen == 0 && ofs == 0
    {
      hide Flat, Wire;
      var r := 0;
      assert results[0..] == results;
      while queue != []
        invariant 0 <= r <= |results|
        invariant Valid() && Accepted() == old(Accepted())
        invariant old(wire) <= wire
        invariant |wire| + Written(results[r..], queue, ofs) == |old(wire)| + Written(results, old(queue), old(ofs))
        invariant Fails(results[r..], queue, ofs) == Fails(results, old(queue), old(ofs))
        invariant queue == [] && old(queue) != [] ==> txqLen == 0 && ofs == 0
        decreases |results| - r
      {
        if r == |results| { return false; }
        var result := results[r];
        assert results[r..][0] == result && results[r..][1..] == results[r + 1..];
        r := r + 1;
        match result {
          case Interrupted => continue;
          case Again => return false;
          case Fatal => return true;
          case Wrote(n) => WriteHead(n);
        }
      }
      return false;
    }
  }

  lemma WireSize(m: Message)
    requires Proper(m)
    ensures |Wire(m)| == HDR + |m.data|
  {
  }

  /** Writing on from an offset into the head of the queue. */
  lemma HeadOfQueue(queue: seq<Message>, ofs: nat, n: nat)
    requires queue != [] && ofs + n <= |Wire(queue[0])|
    ensures Flat(queue) == Wire(queue[0]) + Flat(queue[1..])
    ensures Flat(queue)[..ofs] + Wire(queue[0])[ofs..][..n] == Flat(queue)[..ofs + n]
  {
  }

  lemma NextHead(queue: seq<Message>, txqLen: int)
    requires forall m :: m in queue ==> Proper(m)
    requires txqLen == |Flat(queue)|
    ensures queue == [] ==> txqLen == 0
    ensures queue != [] ==> 0 < |Wire(queue[0])| <= txqLen
  {
    if queue != [] { assert Proper(queue[0]); }
  }

  /** The number of bytes a drain gets out, given what the kernel does. */
  function Written(results: seq<Result>, queue: seq<Message>, ofs: nat): nat {
    if results == [] || queue == [] then 0
    else match results[0]
      case Interrupted => Written(results[1..], queue, ofs)
      case Again => 0
      case Fatal => 0
      case Wrote(n) =>
        if ofs + n < |Wire(queue[0])| then n + Written(results[1..], queue, ofs + n)
        else Max0(|Wire(queue[0])| - ofs) + Written(results[1..], queue[1..], 0)
  }

  /** Whether the drain meets a fatal error. */
  predicate Fails(results: seq<Result>, queue: seq<Message>, ofs: nat) {
    if results == [] || queue == [] then false
    else match results[0]
      case Interrupted => Fails(results[1..], queue, ofs)
      case Again => false
      case Fatal => true
      case Wrote(n) =>
        if ofs + n < |Wire(queue[0])| then Fails(results[1..], queue, ofs + n)
        else Fails(results[1..], queue[1..], 0)
  }

  /** The kernel has neither refused nor failed. */
  predicate Goes(results: seq<Result>) {
    forall i :: 0 <= i < |results| ==> results[i].Wrote? || results[i].Interrupted?
  }

  /** What is left of a queue after some bytes have gone out of it, from an offset into its head. */
  ghost function LeftAfter(queue: seq<Message>, ofs: nat, n: nat): (seq<Message>, nat) {
    Waiting(queue, ofs + n)
  }

  lemma WaitingStep(queue: seq<Message>, out: nat)
    ensures queue == [] ==> Waiting(queue, out) == ([], 0)
    ensures queue != [] ==>
      Waiting(queue, out) == if out < |Wire(queue[0])| then (queue, out) else Waiting(queue[1..], out - |Wire(queue[0])|)
  {
  }

  /** One more result: a write takes at most the rest of the message it is at. */
  lemma {:induction false} WrittenMore(results: seq<Result>, queue: seq<Message>, ofs: nat, last: Result)
    requires Goes(results) && (queue != [] ==> ofs < |Wire(queue[0])|) && forall m :: m in queue ==> 0 < |Wire(m)|
    ensures var n := Written(results, queue, ofs);
      var (rest, at) := LeftAfter(queue, if queue == [] then 0 else ofs, n);
      && (rest != [] ==> at < |Wire(rest[0])|)
      && Written(results + [last], queue, ofs) ==
           n + (if rest != [] && last.Wrote? then Min(last.n, |Wire(rest[0])| - at) else 0)
      && (Fails(results + [last], queue, ofs) <==> rest != [] && last.Fatal?)
  {
    hide Wire, Waiting;
    WaitingStep(queue, (if queue == [] then 0 else ofs) + Written(results, queue, ofs));
    if results == [] {
      assert [] + [last] == [last] && [last][1..] == [];
      assert Written([], queue, ofs) == 0;
    } else if queue != [] {
      assert (results + [last])[0] == results[0] && (results + [last])[1..] == results[1..] + [last];
      assert Goes(results[1..]);
      if results[0].Wrote? && ofs + results[0].n < |Wire(queue[0])| {
        WrittenMore(results[1..], queue, ofs + results[0].n, last);
      } else if results[0].Wrote? {
        WrittenMore(results[1..], queue[1..], 0, last);
      } else {
        WrittenMore(results[1..], queue, ofs, last);
      }
    }
  }

  /** Nothing happens after the kernel has refused or failed. */
  lemma {:induction false} WrittenStops(results: seq<Result>, more: seq<Result>, queue: seq<Message>, ofs: nat)
    requires !Goes(results)
    ensures Written(results + more, queue, ofs) == Written(results, queue, ofs)
    ensures Fails(results + more, queue, ofs) == Fails(results, queue, ofs)
  {
    hide Wire;
    if queue != [] {
      assert (results + more)[0] == results[0] && (results + more)[1..] == results[1..] + more;
      if results[0].Wrote? && ofs + results[0].n < |Wire(queue[0])| {
        WrittenStops(results[1..], more, queue, ofs + results[0].n);
      } else if results[0].Wrote? {
        WrittenStops(results[1..], more, queue[1..], 0);
      } else if results[0].Interrupted? {
        WrittenStops(results[1..], more, queue, ofs);
      }
    }
  }

  function Max0(n: int): nat {
    if n < 0 then 0 else n
  }

  /** A message is taken on when the kernel takes all of it at once, or when what is left of it
      fits in the queue. */
  ghost predicate Taken(queue: seq<Message>, txqLen: int, m: Message, w: int, allocOk: bool) {
    if queue == [] then
      w >= |Wire(m)| || (allocOk && |Wire(m)| - (if w < 0 then 0 else w) <= MAX_TXQ_LEN)
    else
      allocOk && txqLen + |Wire(m)| <= MAX_TXQ_LEN
  }

  /** A message that gets onto the wire or into the queue behind half a message. */
  ghost predicate Behind(torn: seq<Byte>, m: Message, w: int, allocOk: bool) {
    torn != [] && (0 < w || Taken([], 0, m, w, allocOk))
  }

  // ----- monitor copies -----

  /** What the copy for a monitor says besides the message: its header; and in front of the data of the message the head
      of the blob, the four numbers and the direction, eight bytes each, and the head of the last attribute. */
  type MonitorInfo = i: Info | |i.hdr| == HDR && |i.front| == FRONT witness Info(Zeros(HDR), Zeros(FRONT))
  datatype Info = Info(hdr: seq<Byte>, front: seq<Byte>)

  const FRONT := 48

  function Zeros(n: nat): (z: seq<Byte>)
    ensures |z| == n
  {
    if n == 0 then [] else Zeros(n - 1) + [0]
  }

  /** The data of an attribute is padded to a multiple of four. */
  function Padding(n: nat): nat {
    (4 - n % 4) % 4
  }

  /** `ubusd_monitor_message`: the copy of a message, with the data inside the head of its blob. */
  function CopyOf(m: Message, at: MonitorInfo): (c: Message)
    requires Sized(m)
    ensures Proper(c) && |c.data| == FRONT - BLOB + |m.data| + Padding(|m.data|)
  {
    Message(at.hdr, at.front + m.data[BLOB..] + Zeros(Padding(|m.data|)))
  }

  /** The least size of the data with which the copy is two bytes over the limit: below MAX_MSGLEN, so that a client can
      send such a message. */
  const TEAR := 1048525

  lemma CopySize(m: Message, at: MonitorInfo)
    requires Sized(m)
    ensures |Wire(CopyOf(m, at))| >= MAX_TXQ_LEN + 2 <==> |m.data| >= TEAR
  {
    var n := |m.data|;
    assert (n + Padding(n)) % 4 == 0;
  }

  /** The send tears the client's own monitor copy and then takes on the message behind it. */
  ghost predicate Splices(queue: seq<Message>, eof: bool, m: Message, at: Option<MonitorInfo>,
                          w0: int, alloc0: bool, w: int, alloc: bool)
    requires Sized(m)
  {
    && !eof
    && at.Some?
    && queue == []
    && 0 < w0
    && !Taken([], 0, CopyOf(m, at.value), w0, alloc0)
    && (0 < w || Taken([], 0, m, w, alloc))
  }

  /** The bytes a direct write puts on the wire. */
  ghost function Start(m: Message, w: int): seq<Byte> {
    if w <= 0 then [] else Wire(m)[..Min(w, |Wire(m)|)]
  }

  /** Which sends are safe whatever the kernel does: as long as memory lasts, all but those to a client that monitors
      itself and has nothing queued of messages of at least that size; and if memory may run out, all but those to a
      client that monitors itself and has nothing queued. */
  lemma SpliceExactly(queue: seq<Message>, eof: bool, m: Message, at: Option<MonitorInfo>)
    requires Sized(m)
    ensures (exists w0, w :: Splices(queue, eof, m, at, w0, true, w, true)) <==>
      !eof && queue == [] && at.Some? && |m.data| >= TEAR
    ensures (exists w0, alloc0, w, alloc :: Splices(queue, eof, m, at, w0, alloc0, w, alloc)) <==>
      !eof && queue == [] && at.Some?
  {
    hide CopyOf, Wire;
    if !eof && queue == [] && at.Some? {
      CopySize(m, at.value);
      WireSize(CopyOf(m, at.value));
      assert Splices(queue, eof, m, at, 1, false, 1, true);
      assert |m.data| >= TEAR ==> Splices(queue, eof, m, at, 1, true, 1, true);
    }
  }

  // ----- runs -----

  datatype Op =
    | SendOp(m: Message, at: Option<MonitorInfo>, w0: int, alloc0: bool, w: int, alloc: bool)
    | DrainOp(results: seq<Result>)
    | PeerClosed

  /** A send that cannot break the framing as long as memory lasts: the client does not monitor itself, or the message is
      small enough. */
  predicate Tame(op: Op) {
    op.SendOp? ==> Sized(op.m) && (op.at.Some? ==> |op.m.data| < TEAR)
  }

  /** The memory for the client's own copies does not run out. */
  predicate Lasts(op: Op) {
    op.SendOp? && op.at.Some? ==> op.alloc0
  }

  /** What an operation makes of the plain view.  The flag is looked at once, before the client's own copy. */
  ghost function After1(p: Plain, op: Op): Plain {
    match op
    case SendOp(m, at, w0, alloc0, w, alloc) =>
      if p.eof then p
      else Offer(if at.Some? && Sized(m) then Offer(p, CopyOf(m, at.value), w0, alloc0) else p, m, w, alloc)
    case DrainOp(results) =>
      var (queue, ofs) := Waiting(p.accepted, p.out);
      p.(out := p.out + Written(results, queue, ofs))
    case PeerClosed => p.(eof := true)
  }

  ghost function After(p: Plain, ops: seq<Op>): Plain {
    if ops == [] then p else After1(After(p, ops[..|ops| - 1]), ops[|ops| - 1])
  }

  /** Over every run of sends, drains and closes, with every way the kernel may cut writes short: the messages taken on and
      the bytes written are those of the plain view, the stream is the start of those messages and the dropped part, the
      queue stays within its limit, and nothing is written behind half a message. */
  method Run(cl: Client, ops: seq<Op>)
    requires cl.Valid() && !cl.spliced
    requires forall i :: 0 <= i < |ops| ==> Tame(ops[i]) && Lasts(ops[i])
    modifies cl
    ensures cl.Valid() && !cl.spliced && cl.View() == After(old(cl.View()), ops)
    ensures var p := After(old(cl.View()), ops); p.out <= |Flat(p.accepted)| && cl.wire == Flat(p.accepted)[..p.out] + p.torn
    ensures old(cl.wire) <= cl.wire
    ensures old(cl.Accepted()) <= cl.Accepted()
    ensures old(cl.torn) != [] ==> cl.wire == old(cl.wire)
  {
    hide Framed, Wire, CopyOf, After1, Flat;
    ghost var start := cl.View();
    for i := 0 to |ops|
      invariant cl.Valid() && !cl.spliced && cl.View() == After(start, ops[..i])
      invariant old(cl.wire) <= cl.wire
      invariant old(cl.Accepted()) <= cl.Accepted()
      invariant old(cl.torn) != [] ==> cl.wire == old(cl.wire) && cl.torn != []
    {
      assert ops[..i + 1][..i] == ops[..i];
      assert Tame(ops[i]) && Lasts(ops[i]);
      cl.DebtBound();
      match ops[i] {
        case SendOp(m, at, w0, alloc0, w, alloc) =>
          NeverSplices(cl.queue, cl.eof, m, at, w0, w, alloc);
          cl.Send(m, at, w0, alloc0, w, alloc);
        case DrainOp(results) => var gone := cl.Drain(results);
        case PeerClosed => cl.Close();
      }
    }
    assert ops[..|ops|] == ops;
    cl.Stream();
  }

  lemma NeverSplices(queue: seq<Message>, eof: bool, m: Message, at: Option<MonitorInfo>, w0: int, w: int, alloc: bool)
    requires Sized(m) && (at.Some? ==> |m.data| < TEAR)
    ensures !Splices(queue, eof, m, at, w0, true, w, alloc)
  {
    hide CopyOf, Wire;
    if at.Some? { CopySize(m, at.value); }
  }

  /** The framing breaks for every message of that size, on every client that monitors itself and has nothing queued,
      if the kernel takes one byte of the copy and then the whole message. */
  method TornCopy(cl: Client, m: Message, at: MonitorInfo)
    requires cl.Valid() && !cl.eof && cl.queue == [] && Sized(m) && |m.data| >= TEAR
    modifies cl
    ensures cl.spliced && cl.eof
    ensures cl.wire == old(cl.wire) + Wire(CopyOf(m, at))[..1] + Wire(m)
  {
    WireSize(m);
    WireSize(CopyOf(m, at));
    CopySize(m, at);
    hide Wire, Framed, CopyOf;
    assert Wire(m)[..|Wire(m)|] == Wire(m);
    cl.Send(m, Some(at), 1, true, |Wire(m)|, true);
  }
}
