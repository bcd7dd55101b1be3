/** Sending from a client (`writev_retry` and `ubus_send_msg` in `libubus-io.c`), and what the daemon
    makes of the bytes. */
module ClientIo {
  import opened TxQueue
  import opened RxStream
  import opened Ubus
  import Seqs

  lemma JoinedCons(head: seq<Byte>, tail: seq<seq<Byte>>)
    ensures Joined([head] + tail) == head + Joined(tail)
  {
    assert ([head] + tail)[1..] == tail;
  }

  /** How many bytes the calls offer to take before one fails, and whether any of them does not fail. */
  function Handed(results: seq<Result>): nat {
    if results == [] || results[0].Fatal? then 0
    else Handed(results[1..]) + if results[0].Wrote? then results[0].n else 0
  }

  predicate Begins(results: seq<Result>) {
    results != [] && !results[0].Fatal? && (results[0].Wrote? || Begins(results[1..]))
  }

  /** `writev_retry` with the results of its `sendmsg` calls; a list that ends early stands for an
      error.  It comes back with a length exactly when the calls take every byte before one fails; and the
      descriptor goes once, with the first call that does not fail. */
  method WritevRetry(buffers: seq<seq<Byte>>, results: seq<Result>, withFd: bool)
    returns (ret: int, out: seq<Byte>, fdPassed: nat)
    requires buffers != []
    ensures var all := Joined(buffers);
      && out == all[..Min(|all|, Handed(results))]
      && ret == (if Begins(results) && |all| <= Handed(results) then |all| else -1)
    ensures fdPassed == if withFd && Begins(results) then 1 else 0
  {
    hide Joined;
    out, fdPassed := [], 0;
    var iov, len, fd, r := buffers, 0, withFd, 0;
    ghost var begun := false;
    assert results[0..] == results;
    while true
      invariant iov != [] && r <= |results|
      invariant out + Joined(iov) == Joined(buffers) && len == |out|
      invariant Handed(results) == |out| + Handed(results[r..])
      invariant Begins(results) == (begun || Begins(results[r..]))
      invariant fd == (withFd && !begun) && fdPassed == if withFd && begun then 1 else 0
      invariant begun ==> 0 < |Joined(iov)|
      decreases |results| - r
    {
      if r == |results| {
        Prefix(out, Joined(iov), Joined(buffers));
        return -1, out, fdPassed;
      }
      var result := results[r];
      assert results[r..][0] == result && results[r..][1..] == results[r + 1..];
      r := r + 1;
      match result {
        case Interrupted => continue;
        case Again => continue;
        case Fatal =>
          Prefix(out, Joined(iov), Joined(buffers));
          return -1, out, fdPassed;
        case Wrote(n) =>
          var cur := Min(n, |Joined(iov)|);
          if fd { fdPassed := fdPassed + 1; }
          fd, begun := false, true;
          Advance(out, Joined(iov), cur);
          out := out + Joined(iov)[..cur];
          len := len + cur;
          ghost var rest := Joined(iov)[cur..];
          iov, cur := SkipBuffers(iov, cur);
          if iov == [] {
            assert out == Joined(buffers);
            return len, out, fdPassed;
          }
          CutFirst(iov, cur);
          iov := [iov[0][cur..]] + iov[1..];
          NotEmpty(iov);
      }
    }
  }

  lemma Prefix(out: seq<Byte>, rest: seq<Byte>, all: seq<Byte>)
    requires out + rest == all
    ensures all[..|out|] == out
  {
  }

  lemma NotEmpty(iov: seq<seq<Byte>>)
    requires iov != [] && iov[0] != []
    ensures 0 < |Joined(iov)|
  {
  }

  lemma Advance(out: seq<Byte>, rest: seq<Byte>, cur: nat)
    requires cur <= |rest|
    ensures (out + rest[..cur]) + rest[cur..] == out + rest
  {
  }

  lemma CutFirst(iov: seq<seq<Byte>>, cur: nat)
    requires iov != [] && cur <= |iov[0]| && cur <= |Joined(iov)|
    ensures Joined([iov[0][cur..]] + iov[1..]) == Joined(iov)[cur..]
  {
    JoinedCons(iov[0][cur..], iov[1..]);
    assert iov == [iov[0]] + iov[1..];
    JoinedCons(iov[0], iov[1..]);
  }

  /** The inner loop: buffers that went out entirely are dropped. */
  method SkipBuffers(buffers: seq<seq<Byte>>, n: nat) returns (iov: seq<seq<Byte>>, cur: nat)
    requires buffers != [] && n <= |Joined(buffers)|
    ensures iov == [] ==> n == |Joined(buffers)|
    ensures iov != [] ==> cur < |iov[0]| && cur <= |Joined(iov)| && Joined(iov)[cur..] == Joined(buffers)[n..]
  {
    iov, cur := buffers, n;
    while iov != [] && cur >= |iov[0]|
      invariant cur <= |Joined(iov)|
      invariant Joined(iov)[cur..] == Joined(buffers)[n..]
      decreases |iov|
    {
      assert Joined(iov)[cur..] == Joined(iov[1..])[cur - |iov[0]|..];
      cur := cur - |iov[0]|;
      iov := iov[1..];
    }
  }

  /** `ubus_send_msg`: a message over the limit is refused before anything is written. */
  method SendMsg(p: Packet, results: seq<Result>, withFd: bool) returns (ret: int, out: seq<Byte>, eof: bool)
    requires BLOB <= |p.data| && RawLen(p.data) == |p.data|
    ensures -1 <= ret
    ensures !Sendable(p) ==> ret == -1 && out == [] && !eof
    ensures out <= Encode(p)
    ensures ret >= 0 ==> out == Encode(p) && ret == |out| && Sendable(p)
    ensures Sendable(p) ==>
      && (ret >= 0 <==> |Encode(p)| <= Handed(results)) && (eof <==> ret == -1)
      && out == Encode(p)[..Min(|Encode(p)|, Handed(results))]
  {
    hide HeaderBytes;
    if (|p.data| + 3) / 4 * 4 > MAX_MSGLEN { return -1, [], false; }
    var fdPassed;
    JoinedCons(p.data, []);
    JoinedCons(HeaderBytes(p.hdr), [p.data]);
    assert [p.data] + [] == [p.data];
    assert Joined([HeaderBytes(p.hdr), p.data]) == HeaderBytes(p.hdr) + p.data by {
      assert [HeaderBytes(p.hdr)] + [p.data] == [HeaderBytes(p.hdr), p.data];
    }
    HandedBegins(results);
    ret, out, fdPassed := WritevRetry([HeaderBytes(p.hdr), p.data], results, withFd);
    eof := ret < 0;
  }

  lemma {:induction false} HandedBegins(results: seq<Result>)
    ensures 0 < Handed(results) ==> Begins(results)
  {
    if results != [] { HandedBegins(results[1..]); }
  }

  /** The connection takes the whole of a message. */
  predicate Whole(p: Packet, results: seq<Result>) {
    Sendable(p) ==> |Encode(p)| <= Handed(results)
  }

  function Sendables(ps: seq<Packet>): seq<Packet>
    requires forall p :: p in ps ==> BLOB <= |p.data|
  {
    if ps == [] then []
    else Sendables(ps[..|ps| - 1]) + (if Sendable(ps[|ps| - 1]) then [ps[|ps| - 1]] else [])
  }

  lemma {:induction false} EncodeSnoc(ps: seq<Packet>, p: Packet)
    ensures EncodeAll(ps + [p]) == EncodeAll(ps) + Encode(p)
  {
    hide Encode;
    if ps == [] {
      assert [p][1..] == [] && ps + [p] == [p];
    } else {
      EncodeSnoc(ps[1..], p);
      assert (ps + [p])[0] == ps[0] && (ps + [p])[1..] == ps[1..] + [p];
      Seqs.Assoc(Encode(ps[0]), EncodeAll(ps[1..]), Encode(p));
    }
  }

  /** A client sends messages one after the other until the connection fails.  The stream is the
      encoding of the sendable ones among the first `tried`, cut off only by a failure. */
  method SendAll(ps: seq<Packet>, results: seq<seq<Result>>) returns (stream: seq<Byte>, tried: nat, eof: bool)
    requires forall p :: p in ps ==> BLOB <= |p.data| && RawLen(p.data) == |p.data|
    requires |results| == |ps|
    ensures tried <= |ps| && (!eof ==> tried == |ps|) && (eof ==> 0 < tried)
    ensures forall i :: 0 <= i < tried ==> (Whole(ps[i], results[i]) <==> !(eof && i == tried - 1))
    ensures stream <= EncodeAll(Sendables(ps[..tried]))
    ensures !eof ==> stream == EncodeAll(Sendables(ps))
  {
    hide Encode, Sendable, RawLen;
    stream, tried, eof := [], 0, false;
    while tried < |ps|
      invariant tried <= |ps| && !eof
      invariant forall i :: 0 <= i < tried ==> Whole(ps[i], results[i])
      invariant stream == EncodeAll(Sendables(ps[..tried]))
    {
      var p := ps[tried];
      var ret, out;
      ret, out, eof := SendMsg(p, results[tried], false);
      assert ps[..tried + 1][..tried] == ps[..tried];
      assert Sendables(ps[..tried + 1]) == Sendables(ps[..tried]) + (if Sendable(p) then [p] else []);
      EncodeSnoc(Sendables(ps[..tried]), p);
      assert Sendables(ps[..tried]) + [] == Sendables(ps[..tried]) && stream + [] == stream;
      stream := stream + out;
      tried := tried + 1;
      if eof { return; }
    }
    assert ps[..tried] == ps;
  }

  lemma {:induction false} SendablesAre(ps: seq<Packet>)
    requires forall p :: p in ps ==> BLOB <= |p.data|
    ensures forall p :: p in Sendables(ps) ==> Sendable(p)
  {
    if ps != [] { SendablesAre(ps[..|ps| - 1]); }
  }

  /** What a receiver has handed on of a stream of encoded messages, cut off anywhere: the first of them, and all of them
      once everything has arrived. */
  lemma Received(sent: seq<Packet>, taken: seq<Byte>)
    requires forall p :: p in sent ==> Sendable(p)
    requires taken <= EncodeAll(sent)
    ensures Decode(taken).msgs <= sent && !Decode(taken).bad
    ensures taken == EncodeAll(sent) ==> Decode(taken).msgs == sent
  {
    hide Decode, Sendable;
    assert EncodeAll(sent)[..|taken|] == taken;
    ReadInOrder(sent, |taken|);
    RoundTrip(sent);
  }

  /** One wake-up of the daemon: how many bytes have arrived by then, what the system calls return, and whether the client
      is idle then. */
  datatype WakeUp = WakeUp(arrived: nat, calls: seq<(nat, bool)>, eofAt: nat, idle: bool)

  /** Memory lasts, and nothing flags the client. */
  predicate Patient(w: WakeUp) {
    w.eofAt == 0 && forall i :: 0 <= i < |w.calls| ==> w.calls[i].1
  }

  /** Everything has arrived, there are calls enough, and each gives all that it is asked for and that is there. */
  predicate Thorough(w: WakeUp, n: nat) {
    w.arrived >= n && |w.calls| > n && forall i :: 0 <= i < |w.calls| ==> w.calls[i].0 >= n
  }

  /** End to end: a client sends messages under every behaviour of its kernel, and the daemon receives the stream in any
      number of wake-ups under every behaviour of its own.  The daemon hands on the first of the messages that can be
      sent, in order, and all of them once all bytes have been read; and it never meets a bad length.  If memory lasts and
      nothing flags the client, it is never disconnected, and a last wake-up that finds everything arrived, and whose calls
      give all that is there, reads all of it. */
  method Transfer(ps: seq<Packet>, results: seq<seq<Result>>, wakeUps: seq<WakeUp>)
    returns (r: Receiver, stream: seq<Byte>, failed: bool, end: End)
    requires forall p :: p in ps ==> BLOB <= |p.data| && RawLen(p.data) == |p.data|
    requires |results| == |ps|
    ensures failed <==> exists i :: 0 <= i < |ps| && !Whole(ps[i], results[i])
    ensures fresh(r) && r.taken <= stream <= EncodeAll(Sendables(ps)) && (!failed ==> stream == EncodeAll(Sendables(ps)))
    ensures end != Refused && r.accepted <= Sendables(ps)
    ensures end != NoMemory && r.taken == EncodeAll(Sendables(ps)) ==> r.accepted == Sendables(ps)
    ensures (forall i :: 0 <= i < |wakeUps| ==> Patient(wakeUps[i])) ==> end == Kept
    ensures (forall i :: 0 <= i < |wakeUps| ==> Patient(wakeUps[i])) && wakeUps != [] && Thorough(wakeUps[|wakeUps| - 1], |stream|)
            ==> r.taken == stream && (!failed ==> r.accepted == Sendables(ps))
  {
    hide Decode, Sendable, RawLen, Encode, EncodeAll, Sendables, Thorough, Patient, Whole;
    var tried;
    stream, tried, failed := SendAll(ps, results);
    SendablesAre(ps);
    SendablesPrefix(ps, tried);
    assert failed ==> !Whole(ps[tried - 1], results[tried - 1]);
    r := new Receiver();
    end := Kept;
    var pos: nat := 0;
    for i := 0 to |wakeUps|
      invariant fresh(r) && fresh(r.hdrbuf) && (r.data == null || fresh(r.data))
      invariant end == Kept && r.Valid() && pos <= |stream| && r.taken == stream[..pos]
      invariant (forall k :: 0 <= k < i ==> Patient(wakeUps[k])) ==> !r.eof
      invariant (forall k :: 0 <= k < i ==> Patient(wakeUps[k])) && 0 < i && Thorough(wakeUps[i - 1], |stream|) ==> pos == |stream|
    {
      var used;
      used, end := Wake(r, stream, pos, Sendables(ps), wakeUps[i]);
      pos := pos + used;
      if end != Kept { return; }
    }
    r.AtRest();
    Received(Sendables(ps), r.taken);
  }

  method Wake(r: Receiver, stream: seq<Byte>, pos: nat, ghost sent: seq<Packet>, w: WakeUp) returns (used: nat, end: End)
    requires pos <= |stream| && r.taken == stream[..pos]
    requires r.Valid() && stream <= EncodeAll(sent) && forall p :: p in sent ==> Sendable(p)
    modifies r, r.hdrbuf, r.data
    ensures pos + used <= |stream| && r.taken == stream[..pos + used]
    ensures end != Refused && (end == Kept ==> r.Valid())
    ensures r.accepted <= sent && (end != NoMemory && r.taken == EncodeAll(sent) ==> r.accepted == sent)
    ensures r.data == null || r.data == old(r.data) || fresh(r.data)
    ensures !old(r.eof) && Patient(w) ==> end == Kept && !r.eof
    ensures !old(r.eof) && Patient(w) && Thorough(w, |stream|) ==> pos + used == |stream|
  {
    hide Decode, Sendable, EncodeAll, r.Valid, Reads;
    var input := stream[pos..Min(|stream|, pos + w.arrived)];
    if !r.eof && Patient(w) {
      ReadsOn(r.Current(), input, w.calls, w.eofAt - |r.accepted|);
      if Thorough(w, |stream|) {
        r.AtRest();
        assert stream[..pos] + input == stream;
        MoreBytes(r.taken, r.Current(), r.accepted, input);
        Received(sent, stream);
        ReadsAll(r.Current(), input, w.calls, w.eofAt - |r.accepted|);
      }
    }
    used, end := r.OnReadable(input, w.calls, w.eofAt, w.idle);
    assert stream[..pos] + input[..used] == stream[..pos + used];
    Received(sent, r.taken);
  }

  lemma {:induction false} SendablesPrefix(ps: seq<Packet>, n: nat)
    requires n <= |ps| && forall p :: p in ps ==> BLOB <= |p.data|
    ensures EncodeAll(Sendables(ps[..n])) <= EncodeAll(Sendables(ps))
    decreases |ps| - n
  {
    hide Encode, Sendable;
    if n == |ps| {
      assert ps[..n] == ps;
    } else {
      assert ps[..n + 1][..n] == ps[..n];
      if Sendable(ps[n]) { EncodeSnoc(Sendables(ps[..n]), ps[n]); }
      assert Sendables(ps[..n]) + [] == Sendables(ps[..n]);
      SendablesPrefix(ps, n + 1);
    }
  }
}
