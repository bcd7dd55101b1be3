/** Message buffers of the daemon (`ubusd.c`): reference counts, buffers that point into storage that is rewritten
    later, and the descriptors that travel with messages.

    The heap is written out: a buffer is known by its address, and so is a piece of shared storage.  A descriptor
    stands for one receipt of a descriptor from a client, so a number that the kernel hands out again after it was
    closed is a different descriptor here. */
module MsgBufs {
  import opened Options
  import opened Seqs

  type Addr = nat
  type Fd = nat

  /** USES_EXTERNAL_BUFFER: the data belongs to someone else. */
  const EXTERNAL := 0xFFFF_FFFF

  const STATUS := 1
  const DATA := 2
  const INVOKE := 5
  const MONITOR := 11

  datatype Hdr = Hdr(typ: nat, seqno: nat, peer: nat)

  /** `ub->data`: behind the buffer itself, or somewhere else. */
  datatype Data = Own(bytes: seq<int>) | At(blob: Addr)

  /** `struct ubus_msg_buf`. */
  datatype Buf = Buf(refcount: nat, hdr: Hdr, data: Data, fd: Option<Fd>)

  type Mem = map<Addr, Buf>
  type Blobs = map<Addr, seq<int>>

  /** A message as it will go out, with the descriptor that goes along. */
  datatype Content = Content(hdr: Hdr, bytes: seq<int>, fd: Option<Fd>)

  /** What becomes of a message that `ubus_msg_send` is asked to send: written out at once, queued, or dropped. */
  datatype Outcome = Written | Queued | Dropped

  /** A list without the element at `i`. */
  function Drop<T>(q: seq<T>, i: nat): seq<T>
    requires i < |q|
  {
    q[..i] + q[i + 1..]
  }

  lemma DropCons<T>(q: seq<T>, i: nat)
    requires i < |q|
    ensures Drop(q, i) == if i == 0 then q[1..] else [q[0]] + Drop(q[1..], i - 1)
    ensures forall x :: x in Drop(q, i) ==> x in q
  {
  }

  lemma {:induction false} OccursDrop(q: seq<Addr>, i: nat, b: Addr)
    requires i < |q|
    ensures Occurs(q, b) == Occurs(Drop(q, i), b) + if q[i] == b then 1 else 0
  {
    hide Drop;
    DropCons(q, i);
    if 0 < i {
      OccursDrop(q[1..], i - 1, b);
      assert Drop(q, i)[1..] == Drop(q[1..], i - 1);
    }
  }

  // ----- reference counts -----

  /** The count of a buffer is the number of references to it: `h` held by code, `q` in the queue.  A buffer on
      shared storage has one holder and is never queued. */
  ghost predicate Counted(x: Buf, h: nat, q: nat) {
    if x.refcount == EXTERNAL then x.data.At? && h == 1 && q == 0
    else x.data.Own? && 0 < x.refcount < EXTERNAL && x.refcount == h + q
  }

  ghost predicate Counts(mem: Mem, held: map<Addr, nat>, queue: seq<Addr>) {
    && held.Keys == mem.Keys
    && (forall b :: b in queue ==> b in mem)
    && forall b :: b in mem ==> Counted(mem[b], held[b], Occurs(queue, b))
  }

  /** A new reference to one buffer, or one less, leaves all the others alone. */
  lemma CountsUpdate(mem: Mem, held: map<Addr, nat>, queue: seq<Addr>, b: Addr, x: Buf, h: nat)
    requires Counts(mem, held, queue) && (b in mem || b !in queue)
    requires Counted(x, h, Occurs(queue, b))
    ensures Counts(mem[b := x], held[b := h], queue)
  {
  }

  lemma CountsAt(mem: Mem, held: map<Addr, nat>, queue: seq<Addr>, b: Addr)
    requires Counts(mem, held, queue) && b in mem
    ensures b in held && Counted(mem[b], held[b], Occurs(queue, b))
    ensures mem[b].refcount == EXTERNAL ==> mem[b].data.At? && b !in queue && held[b] == 1
    ensures forall c :: c in queue ==> c in mem
  {
  }

  lemma CountsRemove(mem: Mem, held: map<Addr, nat>, queue: seq<Addr>, b: Addr)
    requires Counts(mem, held, queue) && b !in queue
    ensures Counts(mem - {b}, held - {b}, queue)
  {
  }

  lemma CountsPush(mem: Mem, held: map<Addr, nat>, queue: seq<Addr>, b: Addr)
    requires Counts(mem, held, queue) && b in mem && mem[b].refcount != EXTERNAL && 0 < held[b]
    ensures Counts(mem, held[b := held[b] - 1], queue + [b])
  {
    forall c | c in mem ensures Counted(mem[c], held[b := held[b] - 1][c], Occurs(queue + [b], c)) {
      OccursSnoc(queue, b, c);
    }
  }

  lemma CountsPop(mem: Mem, held: map<Addr, nat>, queue: seq<Addr>, i: nat)
    requires Counts(mem, held, queue) && i < |queue|
    ensures queue[i] in mem && Counts(mem, held[queue[i] := held[queue[i]] + 1], Drop(queue, i))
  {
    var b := queue[i];
    assert b in queue;
    forall c | c in mem ensures Counted(mem[c], held[b := held[b] + 1][c], Occurs(Drop(queue, i), c)) {
      assert Counted(mem[c], held[c], Occurs(queue, c));
      OccursDrop(queue, i, c);
    }
  }

  // ----- contents -----

  ghost predicate Stored(mem: Mem, blobs: Blobs) {
    forall b :: b in mem && mem[b].data.At? ==> mem[b].data.blob in blobs
  }

  ghost function Show(x: Buf, blobs: Blobs): Content
    requires x.data.At? ==> x.data.blob in blobs
  {
    Content(x.hdr, if x.data.Own? then x.data.bytes else blobs[x.data.blob], x.fd)
  }

  /** The queued messages as they will go out. */
  ghost function Waiting(mem: Mem, blobs: Blobs, queue: seq<Addr>): (w: seq<Content>)
    requires Stored(mem, blobs) && forall b :: b in queue ==> b in mem
    ensures |w| == |queue|
  {
    if queue == [] then [] else
      assert queue[0] in queue;
      [Show(mem[queue[0]], blobs)] + Waiting(mem, blobs, queue[1..])
  }

  lemma WaitingCons(mem: Mem, blobs: Blobs, queue: seq<Addr>)
    requires Stored(mem, blobs) && queue != [] && forall c :: c in queue ==> c in mem
    ensures queue[0] in mem && Waiting(mem, blobs, queue)[0] == Show(mem[queue[0]], blobs)
    ensures Waiting(mem, blobs, queue)[1..] == Waiting(mem, blobs, queue[1..])
  {
  }

  lemma {:induction false} WaitingAt(mem: Mem, blobs: Blobs, queue: seq<Addr>, i: nat)
    requires Stored(mem, blobs) && i < |queue| && forall c :: c in queue ==> c in mem
    ensures queue[i] in mem && Waiting(mem, blobs, queue)[i] == Show(mem[queue[i]], blobs)
  {
    WaitingCons(mem, blobs, queue);
    if i != 0 { WaitingAt(mem, blobs, queue[1..], i - 1); }
  }

  lemma {:induction false} WaitingSnoc(mem: Mem, blobs: Blobs, queue: seq<Addr>, b: Addr)
    requires Stored(mem, blobs) && b in mem && forall c :: c in queue ==> c in mem
    ensures Waiting(mem, blobs, queue + [b]) == Waiting(mem, blobs, queue) + [Show(mem[b], blobs)]
  {
    if queue == [] {
      assert [] + [b] == [b];
    } else {
      assert queue[0] in queue;
      WaitingSnoc(mem, blobs, queue[1..], b);
      assert (queue + [b])[1..] == queue[1..] + [b];
    }
  }

  lemma {:induction false} WaitingDrop(mem: Mem, blobs: Blobs, queue: seq<Addr>, i: nat)
    requires Stored(mem, blobs) && i < |queue| && forall c :: c in queue ==> c in mem
    ensures forall c :: c in Drop(queue, i) ==> c in mem
    ensures Waiting(mem, blobs, Drop(queue, i)) == Drop(Waiting(mem, blobs, queue), i)
  {
    hide Drop, Stored, Waiting, Show;
    DropCons(queue, i);
    DropCons(Waiting(mem, blobs, queue), i);
    WaitingCons(mem, blobs, queue);
    if 0 < i {
      WaitingDrop(mem, blobs, queue[1..], i - 1);
      assert Drop(queue, i)[1..] == Drop(queue[1..], i - 1);
      WaitingCons(mem, blobs, Drop(queue, i));
    }
  }

  /** Two heaps agree on a buffer that is queued: same header, same storage of its own, same descriptor. */
  ghost predicate Agree(mem: Mem, mem': Mem, b: Addr) {
    && b in mem && b in mem' && mem[b].data.Own?
    && mem[b].data == mem'[b].data && mem[b].hdr == mem'[b].hdr && mem[b].fd == mem'[b].fd
  }

  /** Whatever happens to shared storage and to other buffers, the queued messages are what they were. */
  lemma {:induction false} Undisturbed(mem: Mem, blobs: Blobs, mem': Mem, blobs': Blobs, queue: seq<Addr>)
    requires Stored(mem, blobs) && Stored(mem', blobs')
    requires forall b :: b in queue ==> b in mem && b in mem' && Agree(mem, mem', b)
    ensures Waiting(mem', blobs', queue) == Waiting(mem, blobs, queue)
  {
    if queue != [] {
      assert queue[0] in queue;
      Undisturbed(mem, blobs, mem', blobs', queue[1..]);
    }
  }

  /** A queued buffer has storage of its own. */
  lemma QueuedOwn(mem: Mem, held: map<Addr, nat>, queue: seq<Addr>)
    requires Counts(mem, held, queue)
    ensures forall b :: b in queue ==> b in mem && mem[b].data.Own?
  {
    forall b | b in queue ensures b in mem && mem[b].data.Own? {
      assert Counted(mem[b], held[b], Occurs(queue, b));
    }
  }

  /** One buffer comes to be `x` with `h` holders.  If it is queued, its header, data and descriptor stay. */
  lemma Replace(mem: Mem, blobs: Blobs, held: map<Addr, nat>, queue: seq<Addr>, b: Addr, x: Buf, h: nat)
    requires Counts(mem, held, queue) && Stored(mem, blobs)
    requires x.data.At? ==> x.data.blob in blobs
    requires b in queue ==> b in mem && x.hdr == mem[b].hdr && x.data == mem[b].data && x.fd == mem[b].fd
    requires Counted(x, h, Occurs(queue, b))
    ensures Counts(mem[b := x], held[b := h], queue) && Stored(mem[b := x], blobs)
    ensures Waiting(mem[b := x], blobs, queue) == Waiting(mem, blobs, queue)
  {
    hide Counted, Waiting;
    CountsUpdate(mem, held, queue, b, x, h);
    QueuedOwn(mem, held, queue);
    Undisturbed(mem, blobs, mem[b := x], blobs, queue);
  }

  lemma Remove(mem: Mem, blobs: Blobs, held: map<Addr, nat>, queue: seq<Addr>, b: Addr)
    requires Counts(mem, held, queue) && Stored(mem, blobs) && b !in queue
    ensures Counts(mem - {b}, held - {b}, queue) && Stored(mem - {b}, blobs)
    ensures Waiting(mem - {b}, blobs, queue) == Waiting(mem, blobs, queue)
  {
    hide Counted, Waiting;
    CountsRemove(mem, held, queue, b);
    QueuedOwn(mem, held, queue);
    Undisturbed(mem, blobs, mem - {b}, blobs, queue);
  }

  // ----- descriptors -----

  /** Every received descriptor is with exactly one buffer, or was closed exactly once.  `place` says which;
      the buffers in `stale` have handed theirs on, and what their field still says does not count. */
  ghost predicate Fds(mem: Mem, closed: seq<Fd>, place: map<Fd, Option<Addr>>, stale: set<Addr>) {
    && (forall b :: b in mem && b !in stale && mem[b].fd.Some? ==>
          mem[b].fd.value in place && place[mem[b].fd.value] == Some(b))
    && (forall f :: f in place ==> match place[f]
          case Some(b) => b in mem && b !in stale && mem[b].fd == Some(f)
          case None => f in closed)
    && (forall f :: f in closed ==> f in place && place[f] == None)
    && Distinct(closed)
  }

  lemma FdsUpdate(mem: Mem, closed: seq<Fd>, place: map<Fd, Option<Addr>>, stale: set<Addr>, b: Addr, x: Buf)
    requires Fds(mem, closed, place, stale)
    requires x.fd == if b in mem then mem[b].fd else None
    ensures Fds(mem[b := x], closed, place, stale)
  {
  }

  /** The descriptor `f`, just received, goes to the buffer `b`. */
  lemma FdsTake(mem: Mem, closed: seq<Fd>, place: map<Fd, Option<Addr>>, stale: set<Addr>, b: Addr, f: Fd)
    requires Fds(mem, closed, place, stale) && b in mem && b !in stale && mem[b].fd == None && f !in place
    ensures Fds(mem[b := mem[b].(fd := Some(f))], closed, place[f := Some(b)], stale)
  {
  }

  /** The descriptor of `b` goes to `r`, and the field of `b` is left as it is. */
  lemma FdsMove(mem: Mem, closed: seq<Fd>, place: map<Fd, Option<Addr>>, stale: set<Addr>, b: Addr, r: Addr)
    requires Fds(mem, closed, place, stale) && b in mem && b !in stale && mem[b].fd.Some?
    requires r in mem && r != b && r !in stale && mem[r].fd == None
    ensures Fds(mem[r := mem[r].(fd := mem[b].fd)], closed, place[mem[b].fd.value := Some(r)], stale + {b})
    ensures mem[b].fd.value in place
  {
  }

  /** Once its field is cleared, a buffer that handed its descriptor on is like any other. */
  lemma FdsClear(mem: Mem, closed: seq<Fd>, place: map<Fd, Option<Addr>>, stale: set<Addr>, b: Addr)
    requires Fds(mem, closed, place, stale) && b in mem && (b in stale || mem[b].fd == None)
    ensures Fds(mem[b := mem[b].(fd := None)], closed, place, stale - {b})
  {
  }

  lemma FdsClose(mem: Mem, closed: seq<Fd>, place: map<Fd, Option<Addr>>, stale: set<Addr>, b: Addr)
    requires Fds(mem, closed, place, stale) && b in mem && b !in stale && mem[b].fd.Some?
    ensures Fds(mem[b := mem[b].(fd := None)], closed + [mem[b].fd.value], place[mem[b].fd.value := None], stale)
    ensures mem[b].fd.value in place
  {
  }

  /** The descriptor of a buffer is closed, but the field is left as it is. */
  lemma FdsCloseStale(mem: Mem, closed: seq<Fd>, place: map<Fd, Option<Addr>>, stale: set<Addr>, b: Addr)
    requires Fds(mem, closed, place, stale) && b in mem && b !in stale && mem[b].fd.Some?
    ensures Fds(mem, closed + [mem[b].fd.value], place[mem[b].fd.value := None], stale + {b})
    ensures mem[b].fd.value in place
  {
  }

  lemma FdsRemove(mem: Mem, closed: seq<Fd>, place: map<Fd, Option<Addr>>, stale: set<Addr>, b: Addr)
    requires Fds(mem, closed, place, stale) && b in mem && b !in stale && mem[b].fd == None
    ensures Fds(mem - {b}, closed, place, stale)
  {
  }

  /** No descriptor was closed twice, and none that a buffer still refers to was closed. */
  ghost predicate ClosedOnce(mem: Mem, closed: seq<Fd>) {
    Distinct(closed) && forall b :: b in mem && mem[b].fd.Some? ==> mem[b].fd.value !in closed
  }

  lemma FdsOnce(mem: Mem, closed: seq<Fd>, place: map<Fd, Option<Addr>>)
    requires Fds(mem, closed, place, {})
    ensures ClosedOnce(mem, closed)
  {
  }

  lemma ClosedTwice(closed: seq<Fd>, f: Fd)
    ensures !Distinct(closed + [f] + [f])
  {
    assert (closed + [f] + [f])[|closed|] == (closed + [f] + [f])[|closed| + 1];
  }

  // ----- events -----

  /** The message for the `i`th object: its id in front of the payload, the next number, peer 0. */
  ghost function EventCopy(bytes: seq<int>, seqno: nat, i: nat, id: nat): Content
    requires bytes != []
  {
    Content(Hdr(INVOKE, (seqno + i + 1) % 65536, 0), [id] + bytes[1..], None)
  }

  ghost function EventCopies(bytes: seq<int>, seqno: nat, targets: seq<(nat, Outcome)>): seq<Content>
    requires bytes != []
  {
    if targets == [] then []
    else
      var n := |targets| - 1;
      EventCopies(bytes, seqno, targets[..n]) +
      if targets[n].1.Queued? then [EventCopy(bytes, seqno, n, targets[n].0)] else []
  }

  lemma EventCopiesSnoc(bytes: seq<int>, seqno: nat, targets: seq<(nat, Outcome)>, i: nat)
    requires bytes != [] && i < |targets|
    ensures EventCopies(bytes, seqno, targets[..i + 1]) == EventCopies(bytes, seqno, targets[..i]) +
      if targets[i].1.Queued? then [EventCopy(bytes, seqno, i, targets[i].0)] else []
  {
    assert targets[..i + 1][..i] == targets[..i];
  }

  // ----- monitors -----

  /** The copy of a message for a monitor: the monitor's own number. */
  ghost function MonitorCopy(bytes: seq<int>, seqno: nat): Content {
    Content(Hdr(MONITOR, seqno, 0), bytes, None)
  }

  ghost function MonitorCopies(bytes: seq<int>, monitors: seq<(nat, Outcome)>): seq<Content> {
    if monitors == [] then []
    else
      var n := |monitors| - 1;
      MonitorCopies(bytes, monitors[..n]) +
      if monitors[n].1.Queued? then [MonitorCopy(bytes, monitors[n].0)] else []
  }

  lemma MonitorCopiesSnoc(bytes: seq<int>, monitors: seq<(nat, Outcome)>, i: nat)
    requires i < |monitors|
    ensures MonitorCopies(bytes, monitors[..i + 1]) == MonitorCopies(bytes, monitors[..i]) +
      if monitors[i].1.Queued? then [MonitorCopy(bytes, monitors[i].0)] else []
  {
    assert monitors[..i + 1][..i] == monitors[..i];
  }

  // ----- what an operation leaves alone -----

  /** The references that code holds, to other buffers than `ub`, are as before, and new buffers have none. */
  ghost predicate SameHeld(held: map<Addr, nat>, held': map<Addr, nat>, ub: set<Addr>) {
    && held.Keys - ub <= held'.Keys
    && forall b :: b in held' ==> held'[b] == if b in held && b !in ub then held[b] else 0
  }

  /** The buffers on shared storage, other than `ub`, are as before. */
  ghost predicate SameShared(mem: Mem, mem': Mem, ub: set<Addr>) {
    forall b :: b in mem && b !in ub && mem[b].refcount == EXTERNAL ==> b in mem' && mem'[b] == mem[b]
  }

  lemma SameNow(mem: Mem, held: map<Addr, nat>, ub: set<Addr>)
    ensures SameShared(mem, mem, ub) && SameHeld(held, held, {})
  {
  }

  lemma SameLonger(mem: Mem, held: map<Addr, nat>, mem': Mem, held': map<Addr, nat>, mem'': Mem, held'': map<Addr, nat>, b: Addr)
    requires SameShared(mem, mem', {b}) && SameHeld(held, held', {})
    requires SameShared(mem', mem'', {b}) && SameHeld(held', held'', {})
    ensures SameShared(mem, mem'', {b}) && SameHeld(held, held'', {})
  {
  }

  /** A buffer that comes and goes. */
  lemma Temporary(mem: Mem, held: map<Addr, nat>, b: Addr, x: Buf, mem': Mem, held': map<Addr, nat>)
    requires b !in mem && b !in held
    requires SameShared(mem[b := x], mem', {b}) && SameHeld(held[b := 1], held', {})
    ensures b in held' && held'[b] == 1
    ensures SameShared(mem, mem' - {b}, {}) && SameHeld(held, held' - {b}, {})
  {
    assert b in held[b := 1];
  }

  lemma SameBut(mem: Mem, mem': Mem, b: Addr)
    requires mem - {b} == mem' - {b}
    ensures SameShared(mem, mem', {b})
  {
    forall c | c in mem && c != b ensures c in mem' && mem'[c] == mem[c] {
      assert c in mem - {b} && (mem - {b})[c] == (mem' - {b})[c];
    }
  }

  /** Nobody holds a buffer that is let go of. */
  lemma Released(mem0: Mem, held0: map<Addr, nat>, mem1: Mem, mem: Mem, held: map<Addr, nat>, b: Addr, x: Buf)
    requires mem1 - {b} == mem0 - {b} && SameShared(mem1, mem, {b}) && SameHeld(held0, held[b := 0], {b})
    ensures SameHeld(held0, held - {b}, {b})
    ensures SameShared(mem0, mem - {b}, {b})
    ensures SameShared(mem0, mem[b := x], {b})
  {
    SameBut(mem0, mem1, b);
    forall c | c in held - {b} ensures c in held[b := 0] && held[b := 0][c] == held[c] {}
  }

  // ----- the operations -----

  class Pool {
    var mem: Mem
    /** Storage that is rewritten: the blob buffers and each client's status message. */
    var blobs: Blobs
    /** The transmit queues of all clients. */
    var queue: seq<Addr>
    var closed: seq<Fd>
    /** The next address that `calloc` returns. */
    var next: Addr
    /** The references held by running code, by a client record and by suspended commands. */
    ghost var held: map<Addr, nat>
    ghost var place: map<Fd, Option<Addr>>
    ghost var stale: set<Addr>
    /** The messages that have left the queue, as they were then. */
    ghost var log: seq<Content>

    ghost predicate Valid()
      reads `mem, `blobs, `queue, `closed, `next, `held, `place, `stale
    {
      && Counts(mem, held, queue)
      && Stored(mem, blobs)
      && Fds(mem, closed, place, stale)
      && stale <= mem.Keys
      && forall b :: b in mem ==> b < next
    }

    ghost function Pending(): seq<Content>
      requires Valid()
      reads `mem, `blobs, `queue, `closed, `next, `held, `place, `stale
    {
      Waiting(mem, blobs, queue)
    }

    constructor ()
      ensures Valid() && queue == [] && closed == [] && mem == map[] && blobs == map[]
      ensures place == map[] && stale == {} && held == map[] && log == []
    {
      mem, blobs, queue, closed, next := map[], map[], [], [], 0;
      held, place, stale, log := map[], map[], {}, [];
    }

    /** Shared storage is rewritten: the queued messages do not change. */
    method PatchBlob(k: Addr, bytes: seq<int>)
      requires Valid()
      modifies this`blobs
      ensures Valid() && Pending() == old(Pending()) && blobs == old(blobs)[k := bytes]
    {
      QueuedOwn(mem, held, queue);
      ghost var blobs0 := blobs;
      blobs := blobs[k := bytes];
      Undisturbed(mem, blobs0, mem, blobs, queue);
    }

    /** The header of a buffer that is not queued is rewritten. */
    method PatchHeader(b: Addr, hdr: Hdr)
      requires Valid() && b in mem && b !in queue
      modifies this`mem
      ensures Valid() && Pending() == old(Pending()) && mem == old(mem)[b := old(mem[b]).(hdr := hdr)]
    {
      hide Fds, Waiting, Counts;
      CountsAt(mem, held, queue, b);
      Replace(mem, blobs, held, queue, b, mem[b].(hdr := hdr), held[b]);
      FdsUpdate(mem, closed, place, stale, b, mem[b].(hdr := hdr));
      assert held[b := held[b]] == held;
      mem := mem[b := mem[b].(hdr := hdr)];
    }

    /** `ubus_msg_new`. */
    method New(hdr: Hdr, data: Data) returns (b: Addr)
      requires Valid() && (data.At? ==> data.blob in blobs)
      modifies this`mem, this`next, this`held
      ensures Valid() && Pending() == old(Pending()) && b !in old(mem) && b !in old(held) && b in mem && b !in queue
      ensures mem == old(mem)[b := Buf(if data.Own? then 1 else EXTERNAL, hdr, data, None)]
      ensures held == old(held)[b := 1]
    {
      hide Fds, Waiting, Stored;
      b := next;
      var x := Buf(if data.Own? then 1 else EXTERNAL, hdr, data, None);
      assert b !in mem && b !in queue;
      Replace(mem, blobs, held, queue, b, x, 1);
      FdsUpdate(mem, closed, place, stale, b, x);
      next := next + 1;
      mem, held := mem[b := x], held[b := 1];
    }

    /** The field `fd` of one buffer is copied to another one, to which the descriptor then belongs. */
    method PassFd(b: Addr, r: Addr)
      requires Valid() && b in mem && r in mem && b != r && b !in stale && r !in stale && mem[r].fd == None && r !in queue
      modifies this`mem, this`place, this`stale
      ensures Valid() && Pending() == old(Pending()) && r in old(mem)
      ensures mem == old(mem)[r := old(mem)[r].(fd := old(mem[b].fd))]
      ensures stale == if old(mem[b].fd.Some?) then old(stale) + {b} else old(stale)
      ensures place == if old(mem[b].fd.Some?) then old(place)[old(mem[b].fd.value) := Some(r)] else old(place)
      ensures place.Keys == old(place.Keys)
    {
      hide Fds, Waiting, Counts;
      var x := mem[r].(fd := mem[b].fd);
      CountsAt(mem, held, queue, r);
      Replace(mem, blobs, held, queue, r, x, held[r]);
      assert held[r := held[r]] == held;
      if mem[b].fd.Some? {
        FdsMove(mem, closed, place, stale, b, r);
        place, stale := place[mem[b].fd.value := Some(r)], stale + {b};
      } else {
        FdsUpdate(mem, closed, place, stale, r, x);
      }
      mem := mem[r := x];
    }

    /** `ub->fd = -1`. */
    method ClearFd(b: Addr)
      requires Valid() && b in mem && b !in queue && (b in stale || mem[b].fd == None)
      modifies this`mem, this`stale
      ensures Valid() && Pending() == old(Pending()) && b in old(mem)
      ensures mem == old(mem)[b := old(mem)[b].(fd := None)] && stale == old(stale) - {b}
    {
      hide Fds, Waiting, Counts;
      CountsAt(mem, held, queue, b);
      Replace(mem, blobs, held, queue, b, mem[b].(fd := None), held[b]);
      assert held[b := held[b]] == held;
      FdsClear(mem, closed, place, stale, b);
      mem, stale := mem[b := mem[b].(fd := None)], stale - {b};
    }

    /** `ubus_msg_close_fd`. */
    method CloseFd(b: Addr)
      requires Valid() && b in mem && b !in stale && b !in queue
      modifies this`mem, this`place, this`closed
      ensures Valid() && Pending() == old(Pending()) && b in old(mem)
      ensures mem == old(mem)[b := old(mem)[b].(fd := None)]
      ensures closed == old(closed) + if old(mem)[b].fd.Some? then [old(mem)[b].fd.value] else []
      ensures place == if old(mem)[b].fd.Some? then old(place)[old(mem)[b].fd.value := None] else old(place)
      ensures place.Keys == old(place.Keys)
    {
      hide Fds, Waiting, Counts;
      CountsAt(mem, held, queue, b);
      if mem[b].fd.Some? {
        Replace(mem, blobs, held, queue, b, mem[b].(fd := None), held[b]);
        assert held[b := held[b]] == held;
        FdsClose(mem, closed, place, stale, b);
        closed := closed + [mem[b].fd.value];
        place := place[mem[b].fd.value := None];
        mem := mem[b := mem[b].(fd := None)];
      }
    }

    /** A copy of a buffer on shared storage, which takes over its descriptor. */
    method Copy(b: Addr) returns (r: Addr)
      requires Valid() && b in mem && b !in stale && mem[b].refcount == EXTERNAL
      modifies this`mem, this`next, this`held, this`place, this`stale
      ensures Valid() && Pending() == old(Pending()) && stale == old(stale)
      ensures b in old(mem) && r !in old(mem) && r !in old(held) && r in mem && b in mem && held == old(held)[r := 1]
      ensures mem[r] == Buf(1, old(mem[b].hdr), Own(old(Show(mem[b], blobs)).bytes), old(mem[b].fd))
      ensures mem == old(mem)[b := old(mem)[b].(fd := None)][r := mem[r]]
      ensures place == if mem[r].fd.Some? then old(place)[mem[r].fd.value := Some(r)] else old(place)
      ensures place.Keys == old(place.Keys)
    {
      hide Fds, Waiting, Counts;
      var x := mem[b];
      CountsAt(mem, held, queue, b);
      r := New(x.hdr, Own(blobs[x.data.blob]));
      PassFd(b, r);
      ClearFd(b);
    }

    /** `ubus_msg_ref` on a buffer with storage of its own. */
    method Retain(b: Addr)
      requires Valid() && b in mem && mem[b].refcount + 1 < EXTERNAL
      modifies this`mem, this`held
      ensures Valid() && Pending() == old(Pending()) && b in old(mem)
      ensures mem == old(mem)[b := old(mem)[b].(refcount := old(mem[b].refcount) + 1)]
      ensures held == old(held)[b := old(held)[b] + 1]
    {
      hide Fds, Waiting, Counts;
      var x := mem[b];
      CountsAt(mem, held, queue, b);
      Replace(mem, blobs, held, queue, b, x.(refcount := x.refcount + 1), held[b] + 1);
      FdsUpdate(mem, closed, place, stale, b, x.(refcount := x.refcount + 1));
      mem, held := mem[b := x.(refcount := x.refcount + 1)], held[b := held[b] + 1];
    }

    /** `ubus_msg_enqueue`: the queue gains the message as it is now, and nothing else in it changes.  Returns the
        buffer that was queued. */
    method Enqueue(b: Addr) returns (r: Addr)
      requires Valid() && b in mem && b !in stale
      requires mem[b].refcount == EXTERNAL || mem[b].refcount + 1 < EXTERNAL
      modifies this`mem, this`next, this`held, this`place, this`stale, this`queue
      ensures Valid() && Pending() == old(Pending()) + [old(Show(mem[b], blobs))]
      ensures stale == old(stale) && queue == old(queue) + [r]
      ensures b in old(mem) && r in mem && b in mem
      ensures old(mem[b].refcount) == EXTERNAL ==>
        && r !in old(mem) && r !in old(held) && held == old(held)[r := 0]
        && mem[r].fd == old(mem[b].fd) && mem == old(mem)[b := old(mem)[b].(fd := None)][r := mem[r]]
        && place == if mem[r].fd.Some? then old(place)[mem[r].fd.value := Some(r)] else old(place)
      ensures old(mem[b].refcount) != EXTERNAL ==>
        && r == b && held == old(held) && place == old(place)
        && mem == old(mem)[b := old(mem)[b].(refcount := old(mem[b].refcount) + 1)]
      ensures place.Keys == old(place.Keys)
    {
      hide Fds, Waiting, Stored, Counts;
      CountsAt(mem, held, queue, b);
      if mem[b].refcount == EXTERNAL {
        r := Copy(b);
      } else {
        Retain(b);
        r := b;
      }
      CountsAt(mem, held, queue, r);
      CountsPush(mem, held, queue, r);
      WaitingSnoc(mem, blobs, queue, r);
      queue, held := queue + [r], held[r := held[r] - 1];
    }

    /** `ubus_msg_free`: one reference less.  With the last one the descriptor is closed and the buffer is gone. */
    method Free(b: Addr)
      requires Valid() && b in mem && b !in stale && 0 < held[b]
      modifies this`mem, this`held, this`place, this`closed
      ensures Valid() && Pending() == old(Pending()) && b in old(mem) && b in old(held)
      ensures old(mem[b].refcount) == 1 || old(mem[b].refcount) == EXTERNAL ==>
        && mem == old(mem) - {b} && held == old(held) - {b} && b !in queue
        && closed == old(closed) + (if old(mem)[b].fd.Some? then [old(mem)[b].fd.value] else [])
        && place == if old(mem)[b].fd.Some? then old(place)[old(mem)[b].fd.value := None] else old(place)
      ensures old(mem[b].refcount) != 1 && old(mem[b].refcount) != EXTERNAL ==>
        && mem == old(mem)[b := old(mem)[b].(refcount := old(mem)[b].refcount - 1)]
        && held == old(held)[b := old(held)[b] - 1]
        && closed == old(closed) && place == old(place)
      ensures place.Keys == old(place.Keys)
    {
      hide Fds, Waiting, Counts;
      CountsAt(mem, held, queue, b);
      if mem[b].refcount == 1 || mem[b].refcount == EXTERNAL {
        CloseFd(b);
        Remove(mem, blobs, held, queue, b);
        FdsRemove(mem, closed, place, stale, b);
        mem, held := mem - {b}, held - {b};
      } else {
        var x := mem[b].(refcount := mem[b].refcount - 1);
        Replace(mem, blobs, held, queue, b, x, held[b] - 1);
        FdsUpdate(mem, closed, place, stale, b, x);
        mem, held := mem[b := x], held[b := held[b] - 1];
      }
    }

    /** `ubus_msg_list_free`: the message at the head of some client's queue leaves, the others stay as they are. */
    method ListFree(i: nat)
      requires Valid() && i < |queue| && queue[i] !in stale
      modifies this`mem, this`held, this`place, this`closed, this`queue, this`log
      ensures Valid() && queue == Drop(old(queue), i) && Pending() == Drop(old(Pending()), i)
      ensures log == old(log) + [old(Pending())[i]]
      ensures place.Keys == old(place.Keys) && SameShared(old(mem), mem, {})
      ensures forall c :: c in held ==> c in old(held) && held[c] == old(held)[c]
    {
      hide Fds, Waiting, Counts, Stored, Drop, Occurs, Counted;
      var b := queue[i];
      CountsPop(mem, held, queue, i);
      CountsAt(mem, held, queue, b);
      WaitingAt(mem, blobs, queue, i);
      WaitingDrop(mem, blobs, queue, i);
      ghost var shown := Show(mem[b], blobs);
      log := log + [shown];
      queue, held := Drop(queue, i), held[b := held[b] + 1];
      Free(b);
    }

    /** The descriptor that came with a message is entered in its buffer. */
    method TakeFd(b: Addr, f: Fd)
      requires Valid() && b in mem && b !in stale && b !in queue && mem[b].fd == None && f !in place
      modifies this`mem, this`place
      ensures Valid() && Pending() == old(Pending()) && b in old(mem)
      ensures mem == old(mem)[b := old(mem)[b].(fd := Some(f))] && place == old(place)[f := Some(b)]
    {
      hide Fds, Waiting, Counts;
      CountsAt(mem, held, queue, b);
      Replace(mem, blobs, held, queue, b, mem[b].(fd := Some(f)), held[b]);
      assert held[b := held[b]] == held;
      FdsTake(mem, closed, place, stale, b, f);
      mem, place := mem[b := mem[b].(fd := Some(f))], place[f := Some(b)];
    }

    /** A message is accepted from a client: a buffer of its own, with the descriptor that came along. */
    method Accept(hdr: Hdr, bytes: seq<int>, fd: Option<Fd>) returns (ub: Addr)
      requires Valid() && (fd.Some? ==> fd.value !in place)
      modifies this`mem, this`next, this`held, this`place
      ensures Valid() && Pending() == old(Pending()) && ub !in old(mem) && ub in mem && ub !in queue
      ensures mem == old(mem)[ub := Buf(1, hdr, Own(bytes), fd)] && held == old(held)[ub := 1]
      ensures place == if fd.Some? then old(place)[fd.value := Some(ub)] else old(place)
    {
      hide Fds, Waiting, Counts, Stored;
      ub := New(hdr, Own(bytes));
      if fd.Some? { TakeFd(ub, fd.value); }
    }

    /** The buffer of a reply, on the shared blob `k`, with the descriptor of the message it replies to. */
    method NewReply(ub: Addr, k: Addr, typ: nat) returns (e: Addr)
      requires Valid() && ub in mem && ub !in stale && k in blobs
      modifies this`mem, this`next, this`held, this`place, this`stale
      ensures Valid() && Pending() == old(Pending())
      ensures ub in old(mem) && e !in old(mem) && e !in old(held) && e !in old(stale) && e !in queue
      ensures mem == old(mem)[e := Buf(EXTERNAL, old(mem)[ub].hdr.(typ := typ), At(k), old(mem)[ub].fd)]
      ensures held == old(held)[e := 1]
      ensures stale == if old(mem)[ub].fd.Some? then old(stale) + {ub} else old(stale)
      ensures place.Keys == old(place.Keys)
    {
      hide Fds, Waiting, Counts, Stored, Occurs;
      CountsAt(mem, held, queue, ub);
      e := New(mem[ub].hdr.(typ := typ), At(k));
      PassFd(ub, e);
    }

    /** The reply is queued: the descriptor goes along with the queued copy `r`. */
    method ReplyQueued(ub: Addr, k: Addr, typ: nat) returns (r: Addr)
      requires Valid() && ub in mem && ub !in stale && k in blobs
      modifies this`mem, this`next, this`held, this`place, this`stale, this`queue, this`closed
      ensures Valid() && ub in old(mem) && ub in mem && mem[ub] == old(mem)[ub]
      ensures stale == if mem[ub].fd.Some? then old(stale) + {ub} else old(stale)
      ensures place.Keys == old(place.Keys) && closed == old(closed)
      ensures r in mem && mem[r].fd == mem[ub].fd && r !in old(mem) && r !in old(held)
      ensures mem == old(mem)[r := mem[r]] && held == old(held)[r := 0] && queue == old(queue) + [r]
      ensures Pending() == old(Pending()) + [Content(mem[ub].hdr.(typ := typ), blobs[k], mem[ub].fd)]
    {
      hide Fds, Waiting, Counts, Stored, Occurs;
      var e := NewReply(ub, k, typ);
      CountsAt(mem, held, queue, e);
      r := Enqueue(e);
      Free(e);
    }

    /** It is not: the descriptor is closed with the buffer of the reply. */
    method ReplyUnqueued(ub: Addr, k: Addr, typ: nat)
      requires Valid() && ub in mem && ub !in stale && k in blobs
      modifies this`mem, this`next, this`held, this`place, this`stale, this`closed
      ensures Valid() && mem == old(mem) && held == old(held) && Pending() == old(Pending())
      ensures stale == if mem[ub].fd.Some? then old(stale) + {ub} else old(stale)
      ensures place.Keys == old(place.Keys)
      ensures closed == old(closed) + (if mem[ub].fd.Some? then [mem[ub].fd.value] else [])
    {
      hide Fds, Waiting, Counts, Stored, Occurs;
      var e := NewReply(ub, k, typ);
      CountsAt(mem, held, queue, e);
      Free(e);
    }

    /** `ubus_proto_send_msg_from_blob` once its buffer exists: the descriptor goes along with a queued copy `r`,
        and is closed otherwise. */
    method SendReply(ub: Addr, k: Addr, typ: nat, outcome: Outcome) returns (r: Addr)
      requires Valid() && ub in mem && ub !in stale && k in blobs
      modifies this`mem, this`next, this`held, this`place, this`stale, this`queue, this`closed
      ensures Valid() && ub in old(mem) && ub in mem && mem[ub] == old(mem)[ub]
      ensures stale == if mem[ub].fd.Some? then old(stale) + {ub} else old(stale)
      ensures place.Keys == old(place.Keys)
      ensures outcome.Queued? ==>
        && r in mem && mem[r].fd == mem[ub].fd && r !in old(mem) && r !in old(held)
        && mem == old(mem)[r := mem[r]] && held == old(held)[r := 0]
        && closed == old(closed) && queue == old(queue) + [r]
        && Pending() == old(Pending()) + [Content(mem[ub].hdr.(typ := typ), blobs[k], mem[ub].fd)]
      ensures !outcome.Queued? ==>
        && mem == old(mem) && held == old(held)
        && closed == old(closed) + (if mem[ub].fd.Some? then [mem[ub].fd.value] else [])
        && queue == old(queue) && Pending() == old(Pending())
    {
      hide Fds, Waiting, Counts, Stored, Occurs;
      if outcome.Queued? {
        r := ReplyQueued(ub, k, typ);
      } else {
        ReplyUnqueued(ub, k, typ);
        r := ub;
      }
    }

    /** `close(fd)` when there is no memory for the reply; the field is left to the caller. */
    method CloseStale(b: Addr)
      requires Valid() && b in mem && b !in stale
      modifies this`place, this`stale, this`closed
      ensures Valid() && Pending() == old(Pending()) && place.Keys == old(place.Keys)
      ensures stale == if mem[b].fd.Some? then old(stale) + {b} else old(stale)
      ensures closed == old(closed) + (if mem[b].fd.Some? then [mem[b].fd.value] else [])
    {
      hide Fds, Waiting, Counts, Stored;
      if mem[b].fd.Some? {
        FdsCloseStale(mem, closed, place, stale, b);
        closed, place, stale := closed + [mem[b].fd.value], place[mem[b].fd.value := None], stale + {b};
      }
    }

    /** An INVOKE is forwarded to the owner of the object: `blob_buf_init` and `blob_put` fill the shared blob `k`,
        and the descriptor of `ub` is either with the queued message `r` or closed. */
    method ForwardInvoke(ub: Addr, k: Addr, caller: nat, bytes: seq<int>, memory: bool, outcome: Outcome)
      returns (r: Addr)
      requires Valid() && ub in mem && ub !in queue && stale == {}
      modifies this`mem, this`blobs, this`next, this`held, this`place, this`stale, this`queue, this`closed
      ensures Valid() && ub in old(mem) && ub in mem && stale == {} && place.Keys == old(place.Keys)
      ensures mem[ub] == old(mem)[ub].(hdr := old(mem)[ub].hdr.(peer := caller), fd := None)
      ensures SameShared(old(mem), mem, {ub})
      ensures memory && outcome.Queued? ==>
        && queue == old(queue) + [r] && r != ub && r !in old(held) && held == old(held)[r := 0]
        && Pending() == old(Pending()) + [Content(Hdr(INVOKE, old(mem)[ub].hdr.seqno, caller), bytes, old(mem)[ub].fd)]
        && closed == old(closed) && r in mem && mem[r].fd == old(mem)[ub].fd
      ensures !(memory && outcome.Queued?) ==>
        && queue == old(queue) && held == old(held) && Pending() == old(Pending())
        && closed == old(closed) + if old(mem)[ub].fd.Some? then [old(mem)[ub].fd.value] else []
    {
      hide Fds, Waiting, Counts, Stored, Occurs;
      CountsAt(mem, held, queue, ub);
      PatchHeader(ub, mem[ub].hdr.(peer := caller));
      PatchBlob(k, bytes);
      if memory {
        r := SendReply(ub, k, INVOKE, outcome);
      } else {
        r := ub;
        CloseStale(ub);
      }
      ClearFd(ub);
    }

    /** A client's message is sent on under another header (a response or a pong). */
    method SendOn(ub: Addr, hdr: Hdr, outcome: Outcome)
      requires Valid() && ub in mem && ub !in queue && ub !in stale && mem[ub].refcount == 1
      modifies this`mem, this`next, this`held, this`place, this`stale, this`queue
      ensures Valid() && stale == old(stale) && place == old(place) && held == old(held)
      ensures ub in old(mem) && ub in mem && mem[ub].refcount == if outcome.Queued? then 2 else 1
      ensures queue == old(queue) + if outcome.Queued? then [ub] else []
      ensures Pending() == old(Pending()) + if outcome.Queued? then [old(Show(mem[ub], blobs)).(hdr := hdr)] else []
      ensures mem[ub].fd == old(mem)[ub].fd && SameShared(old(mem), mem, {ub})
    {
      hide Fds, Waiting, Counts, Stored, Occurs;
      PatchHeader(ub, hdr);
      if outcome.Queued? {
        var _ := Enqueue(ub);
      }
    }

    /** The client's status message, which lives in shared storage, is rewritten and sent: what was queued from it
        before stays as it was. */
    method SendStatus(ret: Addr, k: Addr, seqno: nat, peer: nat, status: seq<int>, outcome: Outcome)
      requires Valid() && ret in mem && ret !in stale && mem[ret].refcount == EXTERNAL && mem[ret].data == At(k)
      requires mem[ret].fd == None
      modifies this`mem, this`blobs, this`next, this`held, this`place, this`stale, this`queue
      ensures Valid() && ret in old(mem) && ret in mem && ret !in stale
      ensures mem[ret] == Buf(EXTERNAL, Hdr(old(mem)[ret].hdr.typ, seqno, peer), At(k), None)
      ensures Pending() == old(Pending()) +
        if outcome.Queued? then [Content(Hdr(old(mem[ret]).hdr.typ, seqno, peer), status, None)] else []
      ensures stale == old(stale) && place.Keys == old(place.Keys) && SameHeld(old(held), held, {})
    {
      hide Fds, Waiting, Counts, Stored, Occurs;
      PatchBlob(k, status);
      SendAs(ret, k, Hdr(mem[ret].hdr.typ, seqno, peer), outcome);
    }

    /** A buffer on shared storage is renumbered and sent. */
    method SendAs(b: Addr, k: Addr, hdr: Hdr, outcome: Outcome)
      requires Valid() && b in mem && b !in stale && mem[b].refcount == EXTERNAL && mem[b].data == At(k) && k in blobs
      requires mem[b].fd == None
      modifies this`mem, this`next, this`held, this`place, this`stale, this`queue
      ensures Valid() && Pending() == old(Pending()) + if outcome.Queued? then [Content(hdr, blobs[k], None)] else []
      ensures b in mem && b !in stale && mem[b] == Buf(EXTERNAL, hdr, At(k), None)
      ensures SameShared(old(mem), mem, {b}) && SameHeld(old(held), held, {})
      ensures stale == old(stale) && place.Keys == old(place.Keys)
    {
      hide Fds, Waiting, Counts, Stored, Occurs;
      CountsAt(mem, held, queue, b);
      PatchHeader(b, hdr);
      if outcome.Queued? {
        var _ := Enqueue(b);
      }
    }

    /** An event goes to one object after another: one buffer on shared storage, patched with the object's id and a
        number each time.  Each queued copy is the message for its own object. */
    method SendEvent(b: Addr, k: Addr, seqno: nat, targets: seq<(nat, Outcome)>)
      requires Valid() && b in mem && b !in stale && mem[b].refcount == EXTERNAL && mem[b].data == At(k)
      requires k in blobs && blobs[k] != [] && mem[b].hdr.typ == INVOKE && mem[b].hdr.peer == 0 && mem[b].fd == None
      modifies this`mem, this`blobs, this`next, this`held, this`place, this`stale, this`queue
      ensures Valid() && Pending() == old(Pending()) + EventCopies(old(blobs[k]), seqno, targets)
      ensures b in mem && mem[b].refcount == EXTERNAL && SameShared(old(mem), mem, {b}) && SameHeld(old(held), held, {})
      ensures stale == old(stale) && place.Keys == old(place.Keys)
    {
      hide Fds, Waiting, Counts, Stored, Occurs, SameShared, SameHeld;
      SameNow(mem, held, {b});
      for i := 0 to |targets|
        invariant Valid() && b in mem && b !in stale && mem[b].refcount == EXTERNAL && mem[b].data == At(k)
        invariant k in blobs && blobs[k] != [] && blobs[k][1..] == old(blobs[k])[1..]
        invariant mem[b].hdr.typ == INVOKE && mem[b].hdr.peer == 0 && mem[b].fd == None
        invariant SameShared(old(mem), mem, {b}) && SameHeld(old(held), held, {})
        invariant stale == old(stale) && place.Keys == old(place.Keys)
        invariant Pending() == old(Pending()) + EventCopies(old(blobs[k]), seqno, targets[..i])
      {
        EventCopiesSnoc(old(blobs[k]), seqno, targets, i);
        PatchBlob(k, blobs[k][0 := targets[i].0]);
        assert blobs[k] == [targets[i].0] + old(blobs[k])[1..];
        ghost var mem1, held1 := mem, held;
        SendAs(b, k, mem[b].hdr.(seqno := (seqno + i + 1) % 65536), targets[i].1);
        SameLonger(old(mem), old(held), mem1, held1, mem, held, b);
      }
      assert targets[..|targets|] == targets;
    }

    /** The copies of a message for the monitors: one buffer on shared storage, renumbered for each. */
    method SendCopies(b: Addr, k: Addr, monitors: seq<(nat, Outcome)>)
      requires Valid() && b in mem && b !in stale && mem[b].refcount == EXTERNAL && mem[b].data == At(k)
      requires k in blobs && mem[b].hdr.typ == MONITOR && mem[b].hdr.peer == 0 && mem[b].fd == None
      modifies this`mem, this`next, this`held, this`place, this`stale, this`queue
      ensures Valid() && Pending() == old(Pending()) + MonitorCopies(blobs[k], monitors)
      ensures b in mem && mem[b].refcount == EXTERNAL && SameShared(old(mem), mem, {b}) && SameHeld(old(held), held, {})
      ensures stale == old(stale) && place.Keys == old(place.Keys)
    {
      hide Fds, Waiting, Counts, Stored, Occurs, SameShared, SameHeld;
      SameNow(mem, held, {b});
      for i := 0 to |monitors|
        invariant Valid() && b in mem && b !in stale && mem[b].refcount == EXTERNAL && mem[b].data == At(k)
        invariant mem[b].hdr.typ == MONITOR && mem[b].hdr.peer == 0 && mem[b].fd == None
        invariant SameShared(old(mem), mem, {b}) && SameHeld(old(held), held, {})
        invariant stale == old(stale) && place.Keys == old(place.Keys)
        invariant Pending() == old(Pending()) + MonitorCopies(blobs[k], monitors[..i])
      {
        MonitorCopiesSnoc(blobs[k], monitors, i);
        ghost var mem1, held1 := mem, held;
        SendAs(b, k, mem[b].hdr.(seqno := monitors[i].0), monitors[i].1);
        SameLonger(old(mem), old(held), mem1, held1, mem, held, b);
      }
      assert monitors[..|monitors|] == monitors;
    }

    /** An event is built on the shared blob `k`, sent, and its buffer freed. */
    method EmitEvent(k: Addr, payload: seq<int>, seqno: nat, targets: seq<(nat, Outcome)>)
      requires Valid() && stale == {}
      modifies this`mem, this`blobs, this`next, this`held, this`place, this`stale, this`queue, this`closed
      ensures Valid() && Pending() == old(Pending()) + EventCopies([0] + payload, seqno, targets)
      ensures SameShared(old(mem), mem, {}) && SameHeld(old(held), held, {})
      ensures stale == {} && place.Keys == old(place.Keys)
    {
      hide Fds, Waiting, Counts, Stored, Occurs, EventCopies, SameShared, SameHeld;
      PatchBlob(k, [0] + payload);
      var b := New(Hdr(INVOKE, 0, 0), At(k));
      ghost var x := mem[b];
      SendEvent(b, k, seqno, targets);
      Temporary(old(mem), old(held), b, x, mem, held);
      Free(b);
    }

    /** So are the copies for the monitors. */
    method EmitCopies(k: Addr, payload: seq<int>, monitors: seq<(nat, Outcome)>)
      requires Valid() && stale == {}
      modifies this`mem, this`blobs, this`next, this`held, this`place, this`stale, this`queue, this`closed
      ensures Valid() && Pending() == old(Pending()) + MonitorCopies(payload, monitors)
      ensures SameShared(old(mem), mem, {}) && SameHeld(old(held), held, {})
      ensures stale == {} && place.Keys == old(place.Keys)
    {
      hide Fds, Waiting, Counts, Stored, Occurs, MonitorCopies, SameShared, SameHeld;
      PatchBlob(k, payload);
      var b := New(Hdr(MONITOR, 0, 0), At(k));
      ghost var x := mem[b];
      SendCopies(b, k, monitors);
      Temporary(old(mem), old(held), b, x, mem, held);
      Free(b);
    }

    /** An accepted message is handled and freed.  Wherever it goes, its descriptor is accounted for: it goes along with
        what is queued, or is closed at once. */
    method Handle(ub: Addr, k: Addr, path: Path)
      requires Valid() && ub in mem && ub !in queue && stale == {}
      requires mem[ub].refcount == 1 && held[ub] == 1
      modifies this`mem, this`blobs, this`next, this`held, this`place, this`stale, this`queue, this`closed
      ensures Valid() && stale == {} && place.Keys == old(place.Keys)
      ensures ub in old(held) && ub in old(mem) && SameHeld(old(held), held, {ub}) && SameShared(old(mem), mem, {ub})
      ensures Pending() == old(Pending()) + Passed(old(Show(mem[ub], blobs)), path)
      ensures Passed(old(Show(mem[ub], blobs)), path) == [] ==> ub !in mem
      ensures closed == old(closed) + if old(mem[ub]).fd.None? || Travels(old(Show(mem[ub], blobs)), path) then []
                                      else [old(mem[ub]).fd.value]
    {
      hide Fds, Waiting, Counts, Stored, Occurs, SameHeld, SameShared;
      CountsAt(mem, held, queue, ub);
      if mem[ub].hdr.typ != STATUS && mem[ub].hdr.typ != INVOKE {
        CloseFd(ub);
        SameBut(old(mem), mem, ub);
      }
      ghost var mem1 := mem;
      Dispatch(ub, k, path);
      Released(old(mem), old(held), mem1, mem, held, ub, mem[ub].(refcount := mem[ub].refcount - 1));
      Free(ub);
    }

    /** The handler of a message, which does not free it. */
    method Dispatch(ub: Addr, k: Addr, path: Path)
      requires Valid() && ub in mem && ub !in queue && stale == {}
      requires mem[ub].refcount == 1 && held[ub] == 1
      requires mem[ub].hdr.typ != STATUS && mem[ub].hdr.typ != INVOKE ==> mem[ub].fd == None
      modifies this`mem, this`blobs, this`next, this`held, this`place, this`stale, this`queue, this`closed
      ensures Valid() && stale == {} && place.Keys == old(place.Keys)
      ensures ub in mem && ub in held && held[ub] == 1 && SameHeld(old(held), held[ub := 0], {ub})
      ensures ub in old(mem) && SameShared(old(mem), mem, {ub})
      ensures Pending() == old(Pending()) + Passed(old(Show(mem[ub], blobs)), path)
      ensures mem[ub].refcount == if path.SentOn? && path.outcome.Queued? then 2 else 1
      ensures mem[ub].fd == if path.Forwarded? then None else old(mem)[ub].fd
      ensures closed == old(closed) + if path.Forwarded? && !(path.memory && path.outcome.Queued?) && old(mem)[ub].fd.Some?
                                      then [old(mem)[ub].fd.value] else []
    {
      hide Fds, Waiting, Counts, Stored, Occurs;
      CountsAt(mem, held, queue, ub);
      match path {
        case Answered =>
        case Forwarded(caller, bytes, memory, outcome) =>
          var _ := ForwardInvoke(ub, k, caller, bytes, memory, outcome);
        case SentOn(hdr, outcome) =>
          SendOn(ub, hdr, outcome);
      }
      CountsAt(mem, held, queue, ub);
    }

    /** An INVOKE of the built-in ACL object: the reply takes `ub->fd` along, the caller does not clear it, and the
        free that follows closes it again.  So this is right exactly when no descriptor came with the message. */
    method HandleQuery(ub: Addr, k: Addr, bytes: seq<int>, memory: bool, outcome: Outcome)
      requires Valid() && ub in mem && ub !in queue && stale == {}
      requires mem[ub].refcount == 1 && held[ub] == 1
      modifies this
      ensures ClosedOnce(mem, closed) <==> old(mem[ub]).fd == None
      ensures ub !in mem && ub in old(mem)
      ensures old(mem[ub]).fd == None ==>
        && Valid() && stale == {} && SameHeld(old(held), held, {ub})
        && Pending() == old(Pending()) + if memory && outcome.Queued?
                                         then [Content(old(mem)[ub].hdr.(typ := DATA), bytes, None)] else []
      ensures old(mem[ub]).fd.Some? ==> var f := old(mem[ub]).fd.value;
        if memory && outcome.Queued? then
          closed == old(closed) + [f] && exists b :: b in queue && b in mem && mem[b].fd == Some(f)
        else closed == old(closed) + [f] + [f]
    {
      hide Fds, Waiting, Counts, Stored, Occurs;
      PatchBlob(k, bytes);
      var fd := mem[ub].fd;
      var r := ub;
      if memory {
        r := SendReply(ub, k, DATA, outcome);
      } else {
        CloseStale(ub);
      }
      if fd == None {
        Free(ub);
        FdsOnce(mem, closed, place);
      } else {
        ClosedTwice(old(closed), fd.value);
        closed := closed + [fd.value];
        mem, held := mem - {ub}, held - {ub};
        assert memory && outcome.Queued? ==> r in queue && r in mem && mem[r].fd == fd;
      }
    }

    /** All queued messages are written out. */
    method DrainAll()
      requires Valid() && stale == {}
      modifies this`mem, this`held, this`place, this`closed, this`queue, this`log
      ensures Valid() && queue == [] && place.Keys == old(place.Keys)
      ensures log == old(log) + old(Pending()) && SameShared(old(mem), mem, {})
      ensures forall c :: c in held ==> c in old(held) && held[c] == old(held)[c]
    {
      hide Fds, Waiting, Counts, Stored, Occurs;
      while queue != []
        invariant Valid() && place.Keys == old(place.Keys) && |Pending()| == |queue|
        invariant log + Pending() == old(log) + old(Pending()) && SameShared(old(mem), mem, {})
        invariant forall c :: c in held ==> c in old(held) && held[c] == old(held)[c]
        decreases |queue|
      {
        HeadOut(log, Pending());
        ListFree(0);
      }
      assert log + Pending() == log;
    }

    /** One step of a run; `ret` is the status message. */
    method Perform(op: Op, ret: Addr)
      requires Valid() && stale == {} && ret in mem && Idle(held, ret)
      requires mem[ret].refcount == EXTERNAL && mem[ret].data == At(1) && mem[ret].hdr.typ == STATUS && mem[ret].fd == None
      requires op.Arrives? && op.fd.Some? ==> op.fd.value !in place
      modifies this
      ensures Valid() && stale == {} && ret in mem && Idle(held, ret)
      ensures mem[ret].refcount == EXTERNAL && mem[ret].data == At(1) && mem[ret].hdr.typ == STATUS && mem[ret].fd == None
      ensures Pending() == Queue1(old(Pending()), op) && log == old(log) + Out1(old(Pending()), op)
      ensures place.Keys == old(place.Keys) + if op.Arrives? && op.fd.Some? then {op.fd.value} else {}
    {
      hide Fds, Waiting, Counts, Stored, Occurs, Drop, EventCopies, MonitorCopies;
      CountsAt(mem, held, queue, ret);
      match op {
        case Arrives(hdr, bytes, fd, path) =>
          var ub := Accept(hdr, bytes, fd);
          Handle(ub, 0, path);
        case StatusSent(seqno, peer, status, outcome) => SendStatus(ret, 1, seqno, peer, status, outcome);
        case EventSent(payload, seqno, targets) => EmitEvent(0, payload, seqno, targets);
        case Monitored(payload, monitors) => EmitCopies(0, payload, monitors);
        case WrittenOut(i) => if i < |queue| { ListFree(i); }
      }
      CountsAt(mem, held, queue, ret);
    }
  }

  lemma HeadOut(log: seq<Content>, pending: seq<Content>)
    requires pending != []
    ensures log + pending == (log + [pending[0]]) + Drop(pending, 0)
  {
  }

  /** Where a received message goes: nowhere, to the owner of an object, or on to another client. */
  datatype Path =
    | Answered
    | Forwarded(caller: nat, bytes: seq<int>, memory: bool, outcome: Outcome)
    | SentOn(hdr: Hdr, outcome: Outcome)

  /** What is queued for a received message.  Its descriptor goes along only if it is a status or a call. */
  ghost function Passed(m: Content, path: Path): seq<Content> {
    var fd := if m.hdr.typ == STATUS || m.hdr.typ == INVOKE then m.fd else None;
    match path
    case Answered => []
    case Forwarded(caller, bytes, memory, outcome) =>
      if memory && outcome.Queued? then [Content(Hdr(INVOKE, m.hdr.seqno, caller), bytes, fd)] else []
    case SentOn(hdr, outcome) => if outcome.Queued? then [Content(hdr, m.bytes, fd)] else []
  }

  /** The descriptor of a received message is with what is queued for it. */
  ghost predicate Travels(m: Content, path: Path) {
    Passed(m, path) != [] && m.fd.Some? && Passed(m, path)[0].fd == m.fd
  }

  // ----- runs -----

  datatype Op =
    | Arrives(hdr: Hdr, bytes: seq<int>, fd: Option<Fd>, path: Path)
    | StatusSent(seqno: nat, peer: nat, status: seq<int>, outcome: Outcome)
    | EventSent(payload: seq<int>, seqno: nat, targets: seq<(nat, Outcome)>)
    | Monitored(payload: seq<int>, monitors: seq<(nat, Outcome)>)
    | WrittenOut(i: nat)

  /** A queue of messages that cannot change: what a step adds or takes away, and what goes out with it. */
  ghost function Queue1(q: seq<Content>, op: Op): seq<Content> {
    match op
    case Arrives(hdr, bytes, fd, path) => q + Passed(Content(hdr, bytes, fd), path)
    case StatusSent(seqno, peer, status, outcome) =>
      q + if outcome.Queued? then [Content(Hdr(STATUS, seqno, peer), status, None)] else []
    case EventSent(payload, seqno, targets) => q + EventCopies([0] + payload, seqno, targets)
    case Monitored(payload, monitors) => q + MonitorCopies(payload, monitors)
    case WrittenOut(i) => if i < |q| then Drop(q, i) else q
  }

  ghost function Out1(q: seq<Content>, op: Op): seq<Content> {
    if op.WrittenOut? && op.i < |q| then [q[op.i]] else []
  }

  ghost function Queue(ops: seq<Op>): seq<Content> {
    if ops == [] then [] else Queue1(Queue(ops[..|ops| - 1]), ops[|ops| - 1])
  }

  ghost function Sent(ops: seq<Op>): seq<Content> {
    if ops == [] then [] else Sent(ops[..|ops| - 1]) + Out1(Queue(ops[..|ops| - 1]), ops[|ops| - 1])
  }

  /** Nothing but the status message is held. */
  ghost predicate Idle(held: map<Addr, nat>, ret: Addr) {
    ret in held && forall b :: b in held ==> held[b] == if b == ret then 1 else 0
  }

  ghost function FdsOf(run: seq<Op>): seq<Fd> {
    if run == [] then []
    else
      var op := run[|run| - 1];
      FdsOf(run[..|run| - 1]) + if op.Arrives? && op.fd.Some? then [op.fd.value] else []
  }

  lemma FdsOfPrefix(run: seq<Op>, i: nat)
    requires i < |run|
    ensures FdsOf(run[..i + 1]) == FdsOf(run[..i]) + if run[i].Arrives? && run[i].fd.Some? then [run[i].fd.value] else []
  {
    assert run[..i + 1][..i] == run[..i];
  }

  lemma {:induction false} FdsOfLess(run: seq<Op>, i: nat)
    requires i <= |run|
    ensures FdsOf(run[..i]) <= FdsOf(run)
    decreases |run| - i
  {
    if i == |run| {
      assert run[..i] == run;
    } else {
      FdsOfPrefix(run, i);
      FdsOfLess(run, i + 1);
    }
  }

  /** A descriptor that has not come yet is new. */
  lemma FdsOfNew(run: seq<Op>, i: nat)
    requires i < |run| && Distinct(FdsOf(run)) && run[i].Arrives? && run[i].fd.Some?
    ensures run[i].fd.value !in FdsOf(run[..i])
  {
    FdsOfPrefix(run, i);
    FdsOfLess(run, i + 1);
    var s := FdsOf(run[..i]);
    assert FdsOf(run)[|s|] == run[i].fd.value;
    assert forall j :: 0 <= j < |s| ==> s[j] == FdsOf(run)[j];
  }

  /** A heap without references is empty. */
  lemma Emptied(mem: Mem, held: map<Addr, nat>)
    requires Counts(mem, held, []) && forall b :: b in held ==> held[b] == 0
    ensures mem == map[]
  {
    assert forall b :: b in mem ==> Counted(mem[b], held[b], Occurs([], b));
  }

  /** In every run of messages that are received and go their ways, of statuses, events and monitor copies, and of queued
      messages that are written out in any order: every message goes out as it was when it was queued, whatever has been
      done since to the storage it was built on.  Once all of them are out, no buffer is left, and each descriptor that was
      received has been closed exactly once. */
  method Run(ops: seq<Op>) returns (p: Pool)
    requires Distinct(FdsOf(ops))
    ensures p.Valid() && p.mem == map[] && p.queue == []
    ensures p.log == Sent(ops) + Queue(ops)
    ensures Distinct(p.closed)
    ensures forall f :: f in p.closed <==> f in FdsOf(ops)
  {
    hide Waiting, Counts, Stored, Occurs, Counted, Fds, Queue1, Out1;
    p := new Pool();
    NothingWaits(p);
    p.PatchBlob(1, []);
    var ret := p.New(Hdr(STATUS, 0, 0), At(1));
    for i := 0 to |ops|
      invariant fresh(p) && p.Valid() && p.stale == {} && ret in p.mem && Idle(p.held, ret)
      invariant p.mem[ret].refcount == EXTERNAL && p.mem[ret].data == At(1)
      invariant p.mem[ret].hdr.typ == STATUS && p.mem[ret].fd == None
      invariant forall f :: f in p.place <==> f in FdsOf(ops[..i])
      invariant p.Pending() == Queue(ops[..i]) && p.log == Sent(ops[..i])
    {
      FdsOfPrefix(ops, i);
      assert ops[..i + 1][..i] == ops[..i];
      if ops[i].Arrives? && ops[i].fd.Some? { FdsOfNew(ops, i); }
      p.Perform(ops[i], ret);
    }
    assert ops[..|ops|] == ops;
    p.DrainAll();
    CountsAt(p.mem, p.held, p.queue, ret);
    p.Free(ret);
    Emptied(p.mem, p.held);
    AllClosed(p.closed, p.place, p.stale);
  }

  lemma NothingWaits(p: Pool)
    requires p.Valid() && p.queue == []
    ensures p.Pending() == []
  {
  }

  lemma AllClosed(closed: seq<Fd>, place: map<Fd, Option<Addr>>, stale: set<Addr>)
    requires Fds(map[], closed, place, stale)
    ensures Distinct(closed) && forall f :: f in closed <==> f in place
  {
  }
}
