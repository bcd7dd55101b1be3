/** The client's receive buffer: its growth and shrinkage (`alloc_msg_buf` in `libubus-io.c`) and the swap
    around an object's handler (`ubus_process_obj_msg` in `libubus-obj.c`). */
module ClientBuffers {
  import opened Options
  import opened Seqs
  import opened Ubus

  /** UBUS_MSG_CHUNK_SIZE and UBUS_MSGBUF_REDUCTION_INTERVAL. */
  const CHUNK := 65536
  const REDUCTION_INTERVAL := 16

  type Ptr = nat

  /** The length rounded up to whole chunks. */
  function Rounded(len: nat): (r: nat)
    ensures len <= r < len + CHUNK && r % CHUNK == 0
  {
    var rem := len % CHUNK;
    if rem > 0 then len + CHUNK - rem else len
  }

  // ----- the plain view -----

  datatype Op = Received(len: nat, memory: bool) | HandlerStarts | HandlerEnds

  /** A message of proper size. */
  predicate Asks(op: Op) {
    op.Received? && 4 <= op.len <= MAX_MSGLEN
  }

  /** The sizes of the blocks that handlers keep, the size of the current block, the reduction counter, and how many blocks
      there have been. */
  datatype Plain = Plain(saved: seq<nat>, cur: Option<nat>, counter: nat, made: nat)

  /** Room for a message: the block stays if it is large enough, except that a block that has been too large for more
      messages than the interval is replaced. */
  function Allocated(p: Plain, need: nat, memory: bool): Plain {
    var have, len := if p.cur.Some? then p.cur.value else 0, Rounded(need);
    if len == have then p
    else if len < have && p.counter < REDUCTION_INTERVAL then p.(counter := p.counter + 1)
    else
      var q := if len < have then p.(counter := 0) else p;
      if memory then q.(cur := Some(len), made := q.made + 1) else q
  }

  function After1(p: Plain, op: Op): Plain {
    match op
    case Received(len, memory) => if Asks(op) then Allocated(p, len, memory) else p
    case HandlerStarts => if p.cur.Some? then p.(saved := p.saved + [p.cur.value], cur := None) else p
    case HandlerEnds =>
      if p.saved == [] then p
      else p.(saved := p.saved[..|p.saved| - 1], cur := if p.cur.Some? then p.cur else Some(p.saved[|p.saved| - 1]))
  }

  function After(p: Plain, ops: seq<Op>): Plain {
    if ops == [] then p else After1(After(p, ops[..|ops| - 1]), ops[|ops| - 1])
  }

  function First(): Plain {
    Plain([], Some(CHUNK), 0, 1)
  }

  predicate HasRoom(p: Plain, need: nat) {
    p.cur.Some? && need <= p.cur.value
  }

  /** The messages for which room is asked, and whether there is room for the whole of each. */
  function Rooms(ops: seq<Op>): seq<(nat, bool)> {
    if ops == [] then []
    else
      var op := ops[|ops| - 1];
      Rooms(ops[..|ops| - 1]) + if Asks(op) then [(op.len, HasRoom(After(First(), ops), op.len))] else []
  }

  /** Unless memory runs out there is room, and more than a chunk is never wasted on a new block. */
  lemma RoomFor(p: Plain, op: Op)
    requires Asks(op) && op.memory
    ensures HasRoom(After1(p, op), op.len)
    ensures After1(p, op).made > p.made ==> After1(p, op).cur.value < op.len + CHUNK
  {
  }

  /** Messages of one size, one after the other. */
  function Repeated(len: nat, n: nat): (ops: seq<Op>)
    ensures |ops| == n
  {
    if n == 0 then [] else Repeated(len, n - 1) + [Received(len, true)]
  }

  lemma {:induction false} CountsUp(p: Plain, len: nat, n: nat)
    requires 4 <= len <= MAX_MSGLEN && p.cur.Some? && Rounded(len) < p.cur.value
    requires p.counter + n <= REDUCTION_INTERVAL
    ensures After(p, Repeated(len, n)) == p.(counter := p.counter + n)
  {
    if n != 0 {
      CountsUp(p, len, n - 1);
      assert Repeated(len, n)[..n - 1] == Repeated(len, n - 1);
    }
  }

  /** A block that is too large is kept for the rest of the interval, and then replaced by one that fits. */
  lemma Shrinks(p: Plain, len: nat)
    requires 4 <= len <= MAX_MSGLEN && p.cur.Some? && Rounded(len) < p.cur.value && p.counter <= REDUCTION_INTERVAL
    ensures forall n :: 0 <= n <= REDUCTION_INTERVAL - p.counter ==> After(p, Repeated(len, n)).cur == p.cur
    ensures After(p, Repeated(len, REDUCTION_INTERVAL - p.counter + 1)) ==
            p.(cur := Some(Rounded(len)), counter := 0, made := p.made + 1)
  {
    var n := REDUCTION_INTERVAL - p.counter;
    forall i | 0 <= i <= n ensures After(p, Repeated(len, i)).cur == p.cur { CountsUp(p, len, i); }
    CountsUp(p, len, n);
    assert Repeated(len, n + 1)[..n] == Repeated(len, n);
  }

  /** The counter never passes the interval. */
  lemma {:induction false} CounterBound(ops: seq<Op>)
    ensures After(First(), ops).counter <= REDUCTION_INTERVAL
  {
    if ops != [] { CounterBound(ops[..|ops| - 1]); }
  }

  // ----- the context -----

  /** The sizes of some blocks. */
  function Sizes(heap: map<Ptr, nat>, blocks: seq<Ptr>): (sizes: seq<nat>)
    ensures |sizes| == |blocks|
  {
    if blocks == [] then []
    else
      var n := |blocks| - 1;
      Sizes(heap, blocks[..n]) + [if blocks[n] in heap then heap[blocks[n]] else 0]
  }

  /** A new block in the place of the current one, or where there was none. */
  lemma ReplaceLast(saved: seq<Ptr>, data: Option<Ptr>, p: Ptr)
    requires Distinct(Held(saved, data))
    requires p !in Held(saved, data)
    ensures Distinct(saved + [p])
    ensures forall x :: x in saved + [p] <==>
      x == p || (x in Held(saved, data) && Some(x) != data)
  {
    var held := Held(saved, data);
    assert forall i :: 0 <= i < |saved| ==> held[i] == saved[i];
    if data.Some? { assert held[|saved|] == data.value; }
  }

  lemma KeepRest(saved: seq<Ptr>, data: Ptr)
    requires saved != [] && Distinct(saved + [data])
    ensures var rest := saved[..|saved| - 1] + [data];
      && Distinct(rest)
      && forall p :: p in rest <==> p in saved + [data] && p != saved[|saved| - 1]
  {
    var all, rest, prev := saved + [data], saved[..|saved| - 1] + [data], saved[|saved| - 1];
    assert all[|saved| - 1] == prev;
    forall i, j | 0 <= i < j < |rest| ensures rest[i] != rest[j] {
      assert rest[i] == all[i] && rest[j] == all[if j < |saved| - 1 then j else |saved|];
    }
    forall p ensures p in rest <==> p in all && p != prev {
      if p in rest {
        var i :| 0 <= i < |rest| && rest[i] == p;
        assert all[if i < |saved| - 1 then i else |saved|] == p;
      }
      if p in all && p != prev {
        var i :| 0 <= i < |all| && all[i] == p;
        assert rest[if i < |saved| - 1 then i else |saved| - 1] == p;
      }
    }
  }

  /** The blocks a context holds. */
  function Held(saved: seq<Ptr>, data: Option<Ptr>): seq<Ptr> {
    saved + if data.Some? then [data.value] else []
  }

  /** The length field is the size of the current block, or of the block that will come back when the running handler
      returns; every live block is held, once; and every other block has been freed, once. */
  ghost predicate HeapOk(data: Option<Ptr>, dataLen: nat, saved: seq<Ptr>, heap: map<Ptr, nat>, freed: seq<Ptr>, next: Ptr) {
    && (data.Some? ==> data.value in heap && heap[data.value] == dataLen)
    && (data.None? && saved != [] ==> saved[|saved| - 1] in heap && heap[saved[|saved| - 1]] == dataLen)
    && Distinct(Held(saved, data))
    && (forall p :: p in heap <==> p in Held(saved, data))
    && Distinct(freed)
    && (forall p :: p in freed ==> p !in heap && p < next)
    && (forall p :: p in heap ==> p < next)
    && (forall p :: 0 <= p < next && p !in heap ==> p in freed)
  }

  lemma SavedLive(data: Option<Ptr>, dataLen: nat, saved: seq<Ptr>, heap: map<Ptr, nat>, freed: seq<Ptr>, next: Ptr)
    requires HeapOk(data, dataLen, saved, heap, freed, next)
    ensures forall p :: p in saved ==> p in heap && Some(p) != data && p < next
  {
    forall p | p in saved ensures Some(p) != data && p in Held(saved, data) {
      var i :| 0 <= i < |saved| && saved[i] == p;
      assert Held(saved, data)[i] == p;
      if data.Some? { assert Held(saved, data)[|saved|] == data.value; }
    }
  }

  /** A new block replaces the current one. */
  lemma HeapReplaced(data: Option<Ptr>, dataLen: nat, saved: seq<Ptr>, heap: map<Ptr, nat>, freed: seq<Ptr>, next: Ptr, len: nat)
    requires HeapOk(data, dataLen, saved, heap, freed, next)
    ensures data.Some? ==> data.value in heap && data.value !in freed
    ensures var heap' := (if data.Some? then heap - {data.value} else heap)[next := len];
      && HeapOk(Some(next), len, saved, heap', freed + (if data.Some? then [data.value] else []), next + 1)
      && Sizes(heap', saved) == Sizes(heap, saved)
  {
    SavedLive(data, dataLen, saved, heap, freed, next);
    if data.Some? { assert data.value == Held(saved, data)[|saved|]; }
    assert next !in Held(saved, data);
    ReplaceLast(saved, data, next);
    SizesSame(heap, (if data.Some? then heap - {data.value} else heap)[next := len], saved);
  }

  /** A handler takes the block along, and brings it back. */
  lemma HeapHanded(data: Ptr, dataLen: nat, saved: seq<Ptr>, heap: map<Ptr, nat>, freed: seq<Ptr>, next: Ptr)
    ensures HeapOk(Some(data), dataLen, saved, heap, freed, next) <==> HeapOk(None, dataLen, saved + [data], heap, freed, next)
  {
    assert Held(saved, Some(data)) == Held(saved + [data], None);
  }

  /** The block of the innermost handler is freed. */
  lemma HeapFreed(data: Ptr, dataLen: nat, saved: seq<Ptr>, heap: map<Ptr, nat>, freed: seq<Ptr>, next: Ptr)
    requires HeapOk(Some(data), dataLen, saved, heap, freed, next) && saved != []
    ensures var prev := saved[|saved| - 1];
      && prev in heap && prev !in freed
      && HeapOk(Some(data), dataLen, saved[..|saved| - 1], heap - {prev}, freed + [prev], next)
      && Sizes(heap - {prev}, saved[..|saved| - 1]) == Sizes(heap, saved[..|saved| - 1])
  {
    SavedLive(Some(data), dataLen, saved, heap, freed, next);
    var prev := saved[|saved| - 1];
    assert prev in saved;
    KeepRest(saved, data);
    SavedLive(Some(data), dataLen, saved[..|saved| - 1], heap - {prev}, freed + [prev], next);
    SizesSame(heap, heap - {prev}, saved[..|saved| - 1]);
  }

  function ViewOf(data: Option<Ptr>, dataLen: nat, counter: nat, saved: seq<Ptr>, heap: map<Ptr, nat>, next: Ptr): Plain {
    Plain(Sizes(heap, saved), if data.Some? then Some(dataLen) else None, counter, next)
  }

  /** What the end of the innermost handler makes of the blocks. */
  lemma HandlerBlock(data: Option<Ptr>, dataLen: nat, counter: nat, saved: seq<Ptr>, heap: map<Ptr, nat>, freed: seq<Ptr>, next: Ptr)
    requires HeapOk(data, dataLen, saved, heap, freed, next) && saved != []
    ensures var prev, rest, ended := saved[|saved| - 1], saved[..|saved| - 1],
                After1(ViewOf(data, dataLen, counter, saved, heap, next), HandlerEnds);
      && (data.None? ==>
            HeapOk(Some(prev), dataLen, rest, heap, freed, next)
            && ViewOf(Some(prev), dataLen, counter, rest, heap, next) == ended)
      && (data.Some? ==>
            && prev in heap && prev !in freed
            && HeapOk(data, dataLen, rest, heap - {prev}, freed + [prev], next)
            && ViewOf(data, dataLen, counter, rest, heap - {prev}, next) == ended)
  {
    var prev, rest := saved[|saved| - 1], saved[..|saved| - 1];
    var sizes := Sizes(heap, saved);
    assert sizes[..|saved| - 1] == Sizes(heap, rest);
    if data.Some? {
      HeapFreed(data.value, dataLen, saved, heap, freed, next);
    } else {
      assert prev in heap && heap[prev] == dataLen;
      assert saved == rest + [prev];
      HeapHanded(prev, dataLen, rest, heap, freed, next);
    }
    hide HeapOk;
  }

  lemma {:induction false} SizesSame(heap: map<Ptr, nat>, heap': map<Ptr, nat>, blocks: seq<Ptr>)
    requires forall p :: p in blocks ==> p in heap && p in heap' && heap[p] == heap'[p]
    ensures Sizes(heap, blocks) == Sizes(heap', blocks)
  {
    if blocks != [] { SizesSame(heap, heap', blocks[..|blocks| - 1]); }
  }

  lemma SizesSnoc(heap: map<Ptr, nat>, blocks: seq<Ptr>, p: Ptr)
    requires p in heap
    ensures Sizes(heap, blocks + [p]) == Sizes(heap, blocks) + [heap[p]]
  {
    assert (blocks + [p])[..|blocks|] == blocks;
  }

  class Context {
    /** `msgbuf.data`, `msgbuf_data_len` and `msgbuf_reduction_counter`. */
    var data: Option<Ptr>
    var dataLen: nat
    var counter: nat
    /** `prev_data` of every handler that is running, innermost last. */
    var saved: seq<Ptr>
    /** The allocator: the size of each live block, and the blocks freed so far. */
    var heap: map<Ptr, nat>
    var freed: seq<Ptr>
    var nextPtr: Ptr
    /** The messages for which room was asked, and whether there was room for the whole of each. */
    ghost var asked: seq<(nat, bool)>

    ghost predicate Valid()
      reads `data, `dataLen, `saved, `heap, `freed, `nextPtr
    {
      HeapOk(data, dataLen, saved, heap, freed, nextPtr)
    }

    ghost function View(): Plain
      reads `data, `dataLen, `saved, `heap, `nextPtr, `counter
    {
      ViewOf(data, dataLen, counter, saved, heap, nextPtr)
    }

    constructor ()
      ensures Valid() && data.Some? && dataLen == CHUNK && saved == [] && freed == [] && asked == [] && View() == First()
    {
      data, dataLen, counter, saved := Some(0), CHUNK, 0, [];
      heap, freed, nextPtr, asked := map[0 := CHUNK], [], 1, [];
    }

    /** `free`, of a live block that has not been freed before. */
    method Free(p: Ptr)
      requires p in heap && p !in freed
      modifies this`heap, this`freed
      ensures heap == old(heap) - {p} && freed == old(freed) + [p]
    {
      heap := heap - {p};
      freed := freed + [p];
    }

    /** `realloc`: the current block, if there is one, is replaced by one of the given size. */
    method Realloc(len: nat)
      requires Valid()
      modifies this`data, this`dataLen, this`heap, this`freed, this`nextPtr
      ensures Valid() && data.Some? && dataLen == len
      ensures View() == old(View()).(cur := Some(len), made := old(View()).made + 1)
    {
      hide HeapOk, Sizes;
      HeapReplaced(data, dataLen, saved, heap, freed, nextPtr, len);
      var p := nextPtr;
      nextPtr := nextPtr + 1;
      if data.Some? {
        Free(data.value);
      }
      heap := heap[p := len];
      data, dataLen := Some(p), len;
      assert freed == old(freed) + (if old(data).Some? then [old(data).value] else []);
    }

    /** `alloc_msg_buf`; `memory` is false when `realloc` fails.  On success the current block has room for
        the message; on failure nothing has changed. */
    method AllocMsgBuf(need: nat, memory: bool) returns (ok: bool)
      requires Valid() && 4 <= need <= MAX_MSGLEN
      modifies this
      ensures Valid() && saved == old(saved)
      ensures ok ==> data.Some? && need <= dataLen
      ensures !ok ==> !memory && data == old(data) && heap == old(heap) && freed == old(freed)
      ensures old(data).Some? ==> data.Some?
      ensures View() == Allocated(old(View()), need, memory)
      ensures asked == old(asked) + [(need, data.Some? && need <= dataLen)]
    {
      hide HeapOk, Sizes;
      var bufLen := dataLen;
      if data.None? {
        bufLen := 0;
      }
      var len := Rounded(need);
      if len < bufLen {
        counter := counter + 1;
        if counter > REDUCTION_INTERVAL {
          counter := 0;
          bufLen := 0;
        }
      }
      if len <= bufLen {
        asked := asked + [(need, true)];
        return true;
      }
      if !memory {
        asked := asked + [(need, data.Some? && need <= dataLen)];
        return false;
      }
      Realloc(len);
      asked := asked + [(need, true)];
      return true;
    }

    /** A handler is called on the message in the buffer: it keeps the block, and the context has none. */
    method BeginHandler()
      requires Valid() && data.Some?
      modifies this`data, this`saved
      ensures Valid() && data.None? && saved == old(saved) + [old(data).value]
      ensures View() == After1(old(View()), HandlerStarts)
    {
      assert data.value in heap && heap[data.value] == dataLen;
      HeapHanded(data.value, dataLen, saved, heap, freed, nextPtr);
      SizesSnoc(heap, saved, data.value);
      hide HeapOk, Sizes;
      saved := saved + [data.value];
      data := None;
    }

    /** The handler returns: its block is freed if another was received into meanwhile, and otherwise it
        comes back. */
    method EndHandler()
      requires Valid() && saved != []
      modifies this`data, this`saved, this`heap, this`freed
      ensures Valid() && data.Some? && saved == old(saved)[..|old(saved)| - 1]
      ensures if old(data).Some? then data == old(data) && freed == old(freed) + [old(saved)[|old(saved)| - 1]]
              else data == Some(old(saved)[|old(saved)| - 1]) && freed == old(freed)
      ensures View() == After1(old(View()), HandlerEnds)
    {
      hide HeapOk, ViewOf, After1;
      var prev, rest := saved[|saved| - 1], saved[..|saved| - 1];
      HandlerBlock(data, dataLen, counter, saved, heap, freed, nextPtr);
      saved := rest;
      if data.Some? {
        Free(prev);
      } else {
        data := Some(prev);
      }
    }

    /** `ubus_shutdown` outside all handlers: the last block goes. */
    method Shutdown()
      requires Valid() && saved == []
      modifies this`data, this`heap, this`freed
      ensures Valid() && data.None? && heap == map[] && nextPtr == old(nextPtr)
    {
      if data.Some? {
        assert Held(saved, data) == [data.value];
        Free(data.value);
        data := None;
        assert Held(saved, data) == [];
      }
    }
  }

  // ----- runs -----

  lemma AllFreed(data: Option<Ptr>, dataLen: nat, saved: seq<Ptr>, freed: seq<Ptr>, next: Ptr)
    requires HeapOk(data, dataLen, saved, map[], freed, next)
    ensures Distinct(freed) && forall p :: 0 <= p < next <==> p in freed
  {
  }

  /** Over every nesting of handlers and receptions, with any allocation failing, a block that is in use has exactly the
      recorded size; for exactly those messages there was room for which the plain view has room; and when all handlers
      have returned and the context is shut down, every block that the plain view has made has been freed, exactly
      once. */
  method Run(ops: seq<Op>) returns (c: Context)
    ensures fresh(c) && c.heap == map[] && Distinct(c.freed)
    ensures forall p :: 0 <= p < c.nextPtr <==> p in c.freed
    ensures c.asked == Rooms(ops) && c.nextPtr == After(First(), ops).made
  {
    hide Distinct, Sizes, HeapOk;
    c := new Context();
    for i := 0 to |ops|
      invariant fresh(c) && c.Valid() && c.View() == After(First(), ops[..i]) && c.asked == Rooms(ops[..i])
    {
      assert ops[..i + 1][..i] == ops[..i];
      match ops[i] {
        case Received(len, memory) => if 4 <= len <= MAX_MSGLEN { var ok := c.AllocMsgBuf(len, memory); }
        case HandlerStarts => if c.data.Some? { c.BeginHandler(); }
        case HandlerEnds => if c.saved != [] { c.EndHandler(); }
      }
    }
    assert ops[..|ops|] == ops;
    while c.saved != []
      invariant fresh(c) && c.Valid() && c.asked == Rooms(ops) && c.nextPtr == After(First(), ops).made
      decreases |c.saved|
    {
      c.EndHandler();
    }
    c.Shutdown();
    AllFreed(c.data, c.dataLen, c.saved, c.freed, c.nextPtr);
  }
}
