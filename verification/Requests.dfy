/** Requests of a client (`libubus-req.c`): finding the request an answer belongs to, the bit mask with
    which a notification waits for its subscribers, and completion, exactly once. */
module Requests {
  import opened Options
  import opened Seqs
  import opened Ubus

  /** UBUS_MAX_NOTIFY_PEERS and one slot more for the daemon. */
  const MAX_PEERS := 16
  const SLOTS := 17

  // ----- bits of a 32-bit mask -----

  predicate Bit(p: nat, i: nat) {
    if i == 0 then p % 2 == 1 else Bit(p / 2, i - 1)
  }

  /** `p | (1 << i)`. */
  function SetBit(p: nat, i: nat): nat {
    if i == 0 then p / 2 * 2 + 1 else SetBit(p / 2, i - 1) * 2 + p % 2
  }

  /** `p & ~(1 << i)`. */
  function ClearBit(p: nat, i: nat): nat {
    if i == 0 then p / 2 * 2 else ClearBit(p / 2, i - 1) * 2 + p % 2
  }

  function Pow2(n: nat): (r: nat)
    ensures 0 < r
  {
    if n == 0 then 1 else 2 * Pow2(n - 1)
  }

  lemma {:induction false} BitOfSet(p: nat, i: nat, j: nat)
    ensures Bit(SetBit(p, i), j) <==> i == j || Bit(p, j)
  {
    if i > 0 && j > 0 { BitOfSet(p / 2, i - 1, j - 1); }
  }

  lemma {:induction false} BitOfClear(p: nat, i: nat, j: nat)
    ensures Bit(ClearBit(p, i), j) <==> i != j && Bit(p, j)
  {
    if i > 0 && j > 0 { BitOfClear(p / 2, i - 1, j - 1); }
  }

  lemma {:induction false} MaskBound(p: nat, i: nat, n: nat)
    requires p < Pow2(n) && i < n
    ensures SetBit(p, i) < Pow2(n) && ClearBit(p, i) < Pow2(n)
  {
    if i > 0 { MaskBound(p / 2, i - 1, n - 1); }
  }

  ghost predicate NoBits(p: nat, n: nat) {
    forall i: nat :: i < n ==> !Bit(p, i)
  }

  /** A mask is zero exactly when no bit is set. */
  lemma {:induction false} MaskZero(p: nat, n: nat)
    requires p < Pow2(n)
    ensures p == 0 <==> NoBits(p, n)
  {
    if n > 0 {
      MaskZero(p / 2, n - 1);
      forall i: nat | 0 < i < n ensures Bit(p, i) <==> Bit(p / 2, i - 1) {}
      if p % 2 == 1 {
        var zero: nat := 0;
        assert Bit(p, zero);
      } else if p != 0 {
        var i: nat :| i < n - 1 && Bit(p / 2, i);
        assert Bit(p, i + 1);
      }
    }
  }

  // ----- the slots of a notification -----

  /** How many slots below `n` still wait for the given id. */
  ghost function Waiting(p: nat, ids: seq<nat>, n: nat, x: nat): nat
    requires n <= |ids|
  {
    if n == 0 then 0 else Waiting(p, ids, n - 1, x) + if Bit(p, n - 1) && ids[n - 1] == x then 1 else 0
  }

  lemma {:induction false} WaitingSame(p: nat, q: nat, ids: seq<nat>, ids': seq<nat>, n: nat, x: nat)
    requires n <= |ids| && n <= |ids'|
    requires forall i: nat :: i < n ==> Bit(p, i) == Bit(q, i) && (Bit(p, i) ==> ids[i] == ids'[i])
    ensures Waiting(p, ids, n, x) == Waiting(q, ids', n, x)
  {
    hide Bit;
    if n > 0 { WaitingSame(p, q, ids, ids', n - 1, x); }
  }

  /** Clearing a slot takes its id away once. */
  lemma {:induction false} WaitingClear(p: nat, ids: seq<nat>, i: nat, n: nat, x: nat)
    requires i < n <= |ids| && Bit(p, i)
    ensures Waiting(p, ids, n, x) == Waiting(ClearBit(p, i), ids, n, x) + if x == ids[i] then 1 else 0
  {
    hide Bit, ClearBit;
    BitOfClear(p, i, n - 1);
    if i == n - 1 {
      forall j: nat | j < n - 1 ensures Bit(ClearBit(p, i), j) == Bit(p, j) { BitOfClear(p, i, j); }
      WaitingSame(ClearBit(p, i), p, ids, ids, n - 1, x);
    } else {
      WaitingClear(p, ids, i, n - 1, x);
    }
  }

  /** No slot waits for the id. */
  ghost predicate NoSlot(p: nat, ids: seq<nat>, n: nat, x: nat)
    requires n <= |ids|
  {
    forall i: nat :: i < n && Bit(p, i) ==> ids[i] != x
  }

  lemma {:induction false} WaitingZero(p: nat, ids: seq<nat>, n: nat, x: nat)
    requires n <= |ids|
    ensures Waiting(p, ids, n, x) == 0 <==> NoSlot(p, ids, n, x)
  {
    hide Bit;
    if n > 0 {
      WaitingZero(p, ids, n - 1, x);
      var last: nat := n - 1;
      assert Bit(p, last) && ids[last] == x ==> !NoSlot(p, ids, n, x);
      assert NoSlot(p, ids, n, x) ==> NoSlot(p, ids, last, x);
      assert NoSlot(p, ids, last, x) && !(Bit(p, last) && ids[last] == x) ==> NoSlot(p, ids, n, x);
    }
  }

  ghost predicate NoneWaiting(p: nat, ids: seq<nat>)
    requires |ids| == SLOTS
  {
    forall x: nat :: Waiting(p, ids, SLOTS, x) == 0
  }

  /** Nothing is waited for exactly when the mask is zero. */
  lemma MaskDone(p: nat, ids: seq<nat>)
    requires p < Pow2(SLOTS) && |ids| == SLOTS
    ensures p == 0 <==> NoneWaiting(p, ids)
  {
    hide Bit, Pow2, Waiting;
    MaskZero(p, SLOTS);
    if p == 0 {
      forall x: nat ensures Waiting(p, ids, SLOTS, x) == 0 { WaitingZero(p, ids, SLOTS, x); }
    } else {
      var i: nat :| i < SLOTS && Bit(p, i);
      WaitingZero(p, ids, SLOTS, ids[i]);
      assert !NoSlot(p, ids, SLOTS, ids[i]);
    }
  }

  /** Every listed entry has been answered as often as it is listed. */
  ghost predicate Covered(listed: seq<nat>, got: seq<nat>) {
    forall x: nat :: Occurs(listed, x) <= Occurs(got, x)
  }

  /** Setting a clear slot for an id waits for it once more. */
  lemma WaitingSet(p: nat, ids: seq<nat>, i: nat, v: nat, n: nat, x: nat)
    requires i < n <= |ids| && !Bit(p, i)
    ensures Waiting(SetBit(p, i), ids[i := v], n, x) == Waiting(p, ids, n, x) + if x == v then 1 else 0
  {
    hide Bit, SetBit, ClearBit;
    var q := SetBit(p, i);
    BitOfSet(p, i, i);
    WaitingClear(q, ids[i := v], i, n, x);
    forall j: nat | j < n ensures Bit(ClearBit(q, i), j) == Bit(p, j) {
      BitOfSet(p, i, j);
      BitOfClear(q, i, j);
    }
    WaitingSame(p, ClearBit(q, i), ids, ids[i := v], n, x);
  }

  /** The well-formed entries of the daemon's list of subscribers. */
  function WellFormed(entries: seq<Option<nat>>): seq<nat> {
    if entries == [] then []
    else WellFormed(entries[..|entries| - 1]) + Value(entries[|entries| - 1])
  }

  function Value(e: Option<nat>): seq<nat> {
    if e.Some? then [e.value] else []
  }

  lemma {:induction false} WellFormedGrows(entries: seq<Option<nat>>, i: nat)
    requires i <= |entries|
    ensures WellFormed(entries[..i]) <= WellFormed(entries)
    decreases |entries| - i
  {
    if i < |entries| {
      assert entries[..i + 1][..i] == entries[..i];
      WellFormedGrows(entries, i + 1);
    } else {
      assert entries[..i] == entries;
    }
  }

  function First(q: seq<nat>, n: nat): seq<nat> {
    if |q| <= n then q else q[..n]
  }

  lemma FirstIs(q: seq<nat>, start: seq<nat>)
    requires start <= q
    ensures First(q, |start|) == start
  {
  }

  /** The daemon's list is entered: slots 1 to 16 wait for its first sixteen well-formed entries. */
  ghost predicate Listed(p: nat, ids: seq<nat>, listed: seq<nat>) {
    && |ids| == SLOTS && |listed| <= MAX_PEERS && p < Pow2(SLOTS)
    && (forall i: nat :: |listed| < i ==> !Bit(p, i))
    && !Bit(p, 0)
    && forall x :: Waiting(p, ids, SLOTS, x) == Occurs(listed, x)
  }

  lemma ListedNone(ids: seq<nat>)
    requires |ids| == SLOTS
    ensures Listed(0, ids, [])
  {
    forall i: nat ensures !Bit(0, i) { ZeroBit(i); }
    forall x: nat ensures Waiting(0, ids, SLOTS, x) == 0 { WaitingZero(0, ids, SLOTS, x); }
  }

  lemma {:induction false} ZeroBit(i: nat)
    ensures !Bit(0, i)
  {
    if i > 0 { ZeroBit(i - 1); }
  }

  lemma ListedMore(p: nat, ids: seq<nat>, listed: seq<nat>, v: nat)
    requires Listed(p, ids, listed) && |listed| < MAX_PEERS
    ensures Listed(SetBit(p, |listed| + 1), ids[|listed| + 1 := v], listed + [v])
  {
    hide Waiting, Pow2, Bit, SetBit, Occurs;
    var i := |listed| + 1;
    var q := SetBit(p, i);
    MaskBound(p, i, SLOTS);
    forall j: nat ensures Bit(q, j) <==> i == j || Bit(p, j) { BitOfSet(p, i, j); }
    forall x: nat ensures Waiting(q, ids[i := v], SLOTS, x) == Occurs(listed + [v], x) {
      WaitingSet(p, ids, i, v, SLOTS, x);
      OccursSnoc(listed, v, x);
    }
  }

  // ----- what has been heard -----

  datatype Event =
    | StatusArrives(peer: nat, entries: seq<Option<nat>>)
    | StatusDone
    | DataArrives
    | DataDone
    | Lost
    | Aborted

  /** Whether the daemon has answered and with which list, the answers since then, and how it ended: the connection was
      lost, or the application aborted the request.  After that nothing is heard. */
  datatype Heard = Heard(answered: bool, listed: seq<nat>, got: seq<nat>, lost: bool, aborted: bool)

  function Hear1(obj: nat, h: Heard, e: Event): Heard {
    if h.lost || h.aborted then h
    else if e.Lost? then h.(lost := true)
    else if e.Aborted? then h.(aborted := true)
    else if !e.StatusArrives? then h
    else if h.answered then h.(got := h.got + [e.peer])
    else if e.peer == obj then Heard(true, First(WellFormed(e.entries), MAX_PEERS), [], false, false)
    else h
  }

  function Nothing(): Heard {
    Heard(false, [], [], false, false)
  }

  function Hear(obj: nat, events: seq<Event>): Heard {
    if events == [] then Nothing()
    else Hear1(obj, Hear(obj, events[..|events| - 1]), events[|events| - 1])
  }

  // ----- the course of a notification -----

  /** A notification without its slots: what has been heard; whether it is in the list and whether it is over, with which
      code; how many status callbacks are running and whether a data callback is; and the completions. */
  datatype Course = Course(heard: Heard, linked: bool, over: bool, code: int, inside: nat, blocked: bool, codes: seq<int>)

  function Begun(): Course {
    Course(Nothing(), true, false, 0, 0, false, [])
  }

  /** The daemon and every listed entry have answered. */
  ghost predicate Full(h: Heard) {
    h.answered && Covered(h.listed, h.got)
  }

  /** An answer of this peer is waited for: first that of the daemon, which names the object, and then those listed. */
  predicate Awaited(obj: nat, h: Heard, peer: nat) {
    if h.answered then Occurs(h.got, peer) < Occurs(h.listed, peer) else peer == obj
  }

  function Finish(c: Course, code: int): Course {
    c.(linked := false, over := true, code := code, codes := if c.codes == [] && !c.blocked then [code] else c.codes)
  }

  ghost function Next(obj: nat, watched: bool, c: Course, e: Event): Course {
    var d := c.(heard := Hear1(obj, c.heard, e));
    match e
    case StatusArrives(peer, _) =>
      if !c.linked || !Awaited(obj, c.heard, peer) then d
      else if c.heard.answered && watched then d.(inside := c.inside + 1)
      else if Full(d.heard) then Finish(d, 0)
      else d
    case StatusDone =>
      if c.inside == 0 then c
      else if Full(c.heard) then Finish(c.(inside := c.inside - 1), 0)
      else c.(inside := c.inside - 1)
    case DataArrives => if c.linked then c.(blocked := true) else c
    case DataDone =>
      if c.blocked then c.(blocked := false, codes := if c.over && c.codes == [] then [c.code] else c.codes) else c
    case Lost => if c.linked then Finish(d, TIMEOUT) else d
    case Aborted => d.(linked := false)
  }

  ghost function CourseOf(obj: nat, watched: bool, events: seq<Event>): Course {
    if events == [] then Begun()
    else Next(obj, watched, CourseOf(obj, watched, events[..|events| - 1]), events[|events| - 1])
  }

  /** A code to complete with: 0 once every entry has been answered, and a timeout if the request was given up. */
  predicate Apt(code: int, pending: nat, givenUp: bool) {
    (code == 0 && pending == 0) || (code == TIMEOUT && givenUp)
  }

  /** The slots wait for exactly the entries that have not been answered. */
  ghost predicate SlotsOk(p: nat, ids: seq<nat>, h: Heard, obj: nat) {
    && |ids| == SLOTS && p < Pow2(SLOTS)
    && (!h.answered ==> p == 1 && ids[0] == obj && h.listed == [] && h.got == [])
    && (h.answered ==>
          && |h.listed| <= MAX_PEERS && !Bit(p, 0)
          && forall x :: Waiting(p, ids, SLOTS, x) == Rest(Occurs(h.listed, x), Occurs(h.got, x)))
  }

  class Notification {
    /** `id[]`, and the mask of the slots that have not answered yet. */
    const id: array<nat>
    var pending: nat
    /** `struct ubus_request`: in the list of requests, its status, and the completion callback. */
    var linked: bool
    var statusMsg: bool
    var statusCode: int
    var blocked: bool
    var callback: bool
    /** The codes that the completion callback has been called with. */
    var codes: seq<int>
    /** Whether there is a `status_cb`, and how many calls of it have not returned. */
    const watched: bool
    var inside: nat

    /** The notifying object, what has been heard, and whether the request was given up. */
    ghost var obj: nat
    ghost var heard: Heard
    ghost var givenUp: bool

    /** Once no slot waits, the request is over, or will be when the status callbacks that are running return.  The
        completion callback has run exactly once if the request is over, and not at all before. */
    ghost predicate Valid()
      reads this, id
    {
      && id.Length == SLOTS && SlotsOk(pending, id[..], heard, obj)
      && (linked ==> !statusMsg) && (!linked ==> statusMsg || heard.aborted) && (heard.aborted ==> !linked)
      && (statusMsg && !givenUp ==> pending == 0)
      && (pending == 0 && inside == 0 ==> statusMsg)
      && (heard.lost ==> statusMsg) && (givenUp ==> heard.lost)
      && (!watched ==> inside == 0)
      && |codes| == (if statusMsg && !blocked then 1 else 0)
      && callback == (codes == [])
      && (statusMsg ==> Apt(statusCode, pending, givenUp)) && (codes != [] ==> Apt(codes[0], pending, givenUp))
    }

    ghost function View(): Course
      reads this
    {
      Course(heard, linked, statusMsg, statusCode, inside, blocked, codes)
    }

    /** `__ubus_notify_async`, and the request is put into the list. */
    constructor (obj: nat, watched: bool)
      ensures Valid() && View() == Begun() && !givenUp
      ensures this.obj == obj && this.watched == watched && fresh(id)
    {
      hide Pow2, Waiting;
      SlotBound();
      id := new nat[SLOTS](_ => 0);
      pending := 1;
      linked, statusMsg, statusCode, blocked, callback, codes := true, false, 0, false, true, [];
      this.obj, this.watched, inside := obj, watched, 0;
      heard, givenUp := Nothing(), false;
      new;
      id[0] := obj;
    }

    /** `ubus_find_notify_id`: the first slot that waits for the id.  The scan never leaves the table. */
    method FindNotifyId(objid: nat) returns (slot: int)
      requires id.Length == SLOTS && pending < Pow2(SLOTS)
      ensures slot >= 0 ==> slot < SLOTS && Bit(pending, slot) && id[slot] == objid
      ensures slot >= 0 ==> NoSlot(pending, id[..], slot, objid)
      ensures slot < 0 ==> NoSlot(pending, id[..], SLOTS, objid)
    {
      hide Pow2, NoSlot, Bit, Shifted;
      var p: nat, i: nat := pending, 0;
      NoSlotNone(pending, id[..], objid);
      ShiftNone(pending);
      while p != 0
        invariant 0 <= i <= SLOTS && p < Pow2(SLOTS - i)
        invariant Shifted(pending, p, i)
        invariant NoSlot(pending, id[..], i, objid)
        decreases p
      {
        HalfBound(p, SLOTS - i);
        ShiftMore(pending, p, i);
        NoSlotMore(pending, id[..], i, objid);
        if p % 2 == 1 && id[i] == objid { return i; }
        i := i + 1;
        p := p / 2;
      }
      ShiftDone(pending, i);
      NoSlotAfter(pending, id[..], i, objid);
      return -1;
    }

    /** `ubus_req_complete_cb`. */
    method Complete()
      modifies this`callback, this`codes
      ensures callback == false
      ensures codes == old(codes) + if old(callback) then [statusCode] else []
    {
      if !callback { return; }
      callback := false;
      codes := codes + [statusCode];
    }

    /** `ubus_set_req_status`: out of the list, and completed unless a data callback is running. */
    method SetStatus(ret: int)
      modifies this`linked, this`statusMsg, this`statusCode, this`callback, this`codes
      ensures !linked && statusMsg && statusCode == ret
      ensures callback == (old(callback) && blocked)
      ensures codes == old(codes) + if old(callback) && !blocked then [ret] else []
    {
      linked := false;
      statusMsg := true;
      statusCode := ret;
      if !blocked {
        Complete();
      }
    }

    /** The first branch of `ubus_process_notify_status`: the daemon's list is entered. */
    method EnterList(entries: seq<Option<nat>>)
      requires id.Length == SLOTS && pending == 0
      modifies this`pending, id
      ensures Listed(pending, id[..], First(WellFormed(entries), MAX_PEERS))
    {
      hide Listed, Bit, SetBit;
      var idx := 1;
      ghost var entered: seq<nat> := [];
      ListedNone(id[..]);
      for i := 0 to |entries|
        invariant entered == WellFormed(entries[..i]) && idx == |entered| + 1 <= MAX_PEERS
        invariant Listed(pending, id[..], entered)
      {
        assert entries[..i + 1][..i] == entries[..i];
        if entries[i].None? { continue; }
        ListedMore(pending, id[..], entered, entries[i].value);
        pending := SetBit(pending, idx);
        id[idx] := entries[i].value;
        entered := entered + [entries[i].value];
        idx := idx + 1;
        if idx == MAX_PEERS + 1 {
          WellFormedGrows(entries, i + 1);
          FirstIs(WellFormed(entries), entered);
          return;
        }
      }
      assert entries[..|entries|] == entries;
    }

    /** A STATUS message with the request's number arrives.  Before the daemon's own status nothing else counts; it
        brings the list; and from then on each status ticks off one waiting entry for its sender, whatever the order.
        If there is a status callback for it, this is the part before the callback, which may enter the library
        again; otherwise it is the whole. */
    method BeginStatus(peer: nat, entries: seq<Option<nat>>) returns (called: bool)
      requires Valid()
      modifies this, id
      ensures Valid() && givenUp == old(givenUp) && obj == old(obj)
      ensures View() == Next(obj, watched, old(View()), StatusArrives(peer, entries))
      ensures inside == old(inside) + if called then 1 else 0
    {
      hide Pow2, Waiting, NoSlot, Listed, ClearBit, Bit, Occurs, Full, SlotsOk, Hear1, First, WellFormed;
      SlotRange(pending, id[..], heard, obj);
      if !linked {
        Unheeded(peer, entries);
        return false;
      }
      var slot := FindNotifyId(peer);
      SlotAwaited(pending, id[..], heard, obj, peer, slot);
      if slot < 0 {
        Unheeded(peer, entries);
        return false;
      }
      ghost var h := heard;
      HearKeeps(obj, heard, StatusArrives(peer, entries));
      heard := Hear1(obj, heard, StatusArrives(peer, entries));
      if slot == 0 {
        FirstCleared(pending, id[..], h, obj);
        pending := ClearBit(pending, slot);
        EnterList(entries);
        ListEntered(pending, id[..], h, obj, entries);
      } else {
        EntryTicked(pending, id[..], h, obj, peer, entries, slot);
        pending := ClearBit(pending, slot);
        if watched {
          inside := inside + 1;
          return true;
        }
      }
      FullExactly(pending, id[..], heard, obj);
      Test();
      called := false;
    }

    /** The status callback is back.  What it was called for may have been overtaken: a status that arrived during the
        callback may have completed the request already. */
    method EndStatus()
      requires Valid() && 0 < inside
      modifies this
      ensures Valid() && givenUp == old(givenUp) && obj == old(obj)
      ensures View() == Next(obj, watched, old(View()), StatusDone)
    {
      hide Pow2, Waiting, Occurs, Bit, Covered;
      AnsweredExactly();
      inside := inside - 1;
      Test();
    }

    /** The end of `ubus_process_notify_status`. */
    method Test()
      requires id.Length == SLOTS
      modifies this`linked, this`statusMsg, this`statusCode, this`callback, this`codes
      ensures pending != 0 ==>
        && linked == old(linked) && statusMsg == old(statusMsg) && statusCode == old(statusCode)
        && callback == old(callback) && codes == old(codes)
      ensures pending == 0 ==>
        && !linked && statusMsg && statusCode == 0 && callback == (old(callback) && blocked)
        && codes == old(codes) + if old(callback) && !blocked then [0] else []
    {
      if pending == 0 {
        SetStatus(0);
      }
    }

    /** A status that no slot waits for, or that finds the request no longer in the list, changes nothing but the
        account of what has been heard. */
    ghost method Unheeded(peer: nat, entries: seq<Option<nat>>)
      requires Valid() && (linked ==> NoSlot(pending, id[..], SLOTS, peer))
      modifies this`heard
      ensures Valid() && heard == Hear1(obj, old(heard), StatusArrives(peer, entries))
    {
      hide SlotsOk, NoSlot, Hear1;
      NothingTicked(pending, id[..], heard, obj, peer, entries);
      HearKeeps(obj, heard, StatusArrives(peer, entries));
      heard := Hear1(obj, heard, StatusArrives(peer, entries));
    }

    /** A DATA message: its callback runs with the request blocked, unless one is running already. */
    method BeginData() returns (began: bool)
      requires Valid() && linked
      modifies this`blocked
      ensures Valid() && began == !old(blocked) && View() == Next(obj, watched, old(View()), DataArrives)
    {
      hide Pow2, Waiting, Occurs, Bit;
      if blocked { return false; }
      blocked := true;
      return true;
    }

    /** The callback is back: a status that came meanwhile completes the request now. */
    method EndData()
      requires Valid() && blocked
      modifies this`blocked, this`callback, this`codes
      ensures Valid() && View() == Next(obj, watched, old(View()), DataDone)
    {
      hide Pow2, Waiting, Occurs, Bit;
      blocked := false;
      if statusMsg {
        Complete();
      }
    }

    /** The connection is lost, or the time is up: the request is given up if it is still in the list. */
    method GiveUp()
      requires Valid()
      modifies this
      ensures Valid() && View() == Next(obj, watched, old(View()), Lost)
      ensures givenUp == (old(givenUp) || old(linked)) && obj == old(obj)
    {
      hide Pow2, Waiting, Occurs, Bit;
      heard := Hear1(obj, heard, Lost);
      if linked {
        SetStatus(TIMEOUT);
        givenUp := true;
      }
    }

    /** `ubus_abort_request`: a request that is in the list leaves it, and nothing is called. */
    method Abort()
      requires Valid()
      modifies this`linked, this`heard
      ensures Valid() && View() == Next(obj, watched, old(View()), Aborted)
    {
      hide Pow2, Waiting, Occurs, Bit;
      heard := Hear1(obj, heard, Aborted);
      linked := false;
    }

    /** No slot waits exactly when the daemon and every listed entry have answered. */
    lemma AnsweredExactly()
      requires Valid()
      ensures pending == 0 <==> Full(heard)
    {
      hide Pow2, Waiting, Occurs, Bit, Covered;
      FullExactly(pending, id[..], heard, obj);
    }

    /** The promise: a notification that is not given up is over exactly when the daemon has answered and every listed
        entry has been answered as often as it is listed, as soon as no status callback is running; and then it has
        completed exactly once, with code 0, as soon as no data callback is running. */
    lemma OverExactly()
      requires Valid() && !givenUp
      ensures statusMsg ==> Full(heard)
      ensures inside == 0 && Full(heard) ==> statusMsg
      ensures |codes| == if statusMsg && !blocked then 1 else 0
      ensures codes != [] ==> codes == [0]
    {
      hide Pow2, Waiting, Occurs, Bit, Full;
      AnsweredExactly();
    }
  }

  lemma SlotRange(p: nat, ids: seq<nat>, h: Heard, obj: nat)
    requires SlotsOk(p, ids, h, obj)
    ensures |ids| == SLOTS && p < Pow2(SLOTS)
  {
  }

  lemma FullExactly(p: nat, ids: seq<nat>, h: Heard, obj: nat)
    requires SlotsOk(p, ids, h, obj)
    ensures p == 0 <==> Full(h)
  {
    hide Pow2, Waiting, Occurs, Bit;
    MaskDone(p, ids);
    if Full(h) {
      assert NoneWaiting(p, ids);
    } else if h.answered {
      var x: nat :| Occurs(h.listed, x) > Occurs(h.got, x);
      assert Waiting(p, ids, SLOTS, x) > 0;
    }
  }

  /** The search finds a slot exactly for an answer that is waited for, and the first slot exactly for the daemon's. */
  lemma SlotAwaited(p: nat, ids: seq<nat>, h: Heard, obj: nat, peer: nat, slot: int)
    requires SlotsOk(p, ids, h, obj)
    requires slot >= 0 ==> slot < SLOTS && Bit(p, slot) && ids[slot] == peer
    requires slot < 0 ==> NoSlot(p, ids, SLOTS, peer)
    ensures slot >= 0 <==> Awaited(obj, h, peer)
    ensures slot >= 0 ==> (slot == 0 <==> !h.answered)
  {
    hide Pow2, Waiting, Occurs;
    WaitingZero(p, ids, SLOTS, peer);
    if !h.answered {
      OnlyFirst(slot);
      if slot < 0 { FirstSlot(ids, peer); }
    }
  }

  /** An answer that is not waited for leaves the slots right, and so does one that comes when nothing is heard. */
  lemma NothingTicked(p: nat, ids: seq<nat>, h: Heard, obj: nat, peer: nat, entries: seq<Option<nat>>)
    requires SlotsOk(p, ids, h, obj) && (h.lost || h.aborted || p == 0 || NoSlot(p, ids, SLOTS, peer))
    ensures SlotsOk(p, ids, Hear1(obj, h, StatusArrives(peer, entries)), obj)
  {
    hide Pow2, Waiting, NoSlot, Bit, Occurs;
    if !h.lost && !h.aborted {
      if p == 0 { ZeroMask(ids, peer); }
      if h.answered { Ignored(p, ids, h.listed, h.got, peer); } else { FirstSlot(ids, peer); }
    }
  }

  lemma FirstCleared(p: nat, ids: seq<nat>, h: Heard, obj: nat)
    requires SlotsOk(p, ids, h, obj) && !h.answered
    ensures ClearBit(p, 0) == 0
  {
  }

  /** The daemon's list has been entered. */
  lemma ListEntered(p: nat, ids: seq<nat>, h: Heard, obj: nat, entries: seq<Option<nat>>)
    requires Listed(p, ids, First(WellFormed(entries), MAX_PEERS)) && !h.answered && !h.lost && !h.aborted
    ensures SlotsOk(p, ids, Hear1(obj, h, StatusArrives(obj, entries)), obj)
  {
    hide Waiting, Occurs, Bit;
    Entered(p, ids, First(WellFormed(entries), MAX_PEERS));
  }

  /** A listed entry has been ticked off. */
  lemma EntryTicked(p: nat, ids: seq<nat>, h: Heard, obj: nat, peer: nat, entries: seq<Option<nat>>, slot: nat)
    requires SlotsOk(p, ids, h, obj) && h.answered && !h.lost && !h.aborted
    requires slot < SLOTS && Bit(p, slot) && ids[slot] == peer
    ensures SlotsOk(ClearBit(p, slot), ids, Hear1(obj, h, StatusArrives(peer, entries)), obj)
  {
    hide Waiting, Occurs, Bit, Pow2;
    Ticked(p, ids, slot, true, h.listed, h.got, peer);
  }

  lemma HearKeeps(obj: nat, h: Heard, e: Event)
    ensures e.StatusArrives? ==> Hear1(obj, h, e).lost == h.lost && Hear1(obj, h, e).aborted == h.aborted
  {
  }

  /** In a mask of one only the first bit is set. */
  lemma OnlyFirst(i: int)
    ensures i >= 0 ==> (Bit(1, i) <==> i == 0)
  {
    if i > 0 { ZeroBit(i - 1); }
  }

  /** A status for which no slot waits changes nothing. */
  lemma Ignored(p: nat, ids: seq<nat>, listed: seq<nat>, got: seq<nat>, peer: nat)
    requires |ids| == SLOTS && NoSlot(p, ids, SLOTS, peer)
    requires forall x :: Waiting(p, ids, SLOTS, x) == Rest(Occurs(listed, x), Occurs(got, x))
    ensures forall x :: Waiting(p, ids, SLOTS, x) == Rest(Occurs(listed, x), Occurs(got + [peer], x))
  {
    hide Waiting, Occurs, Bit, NoSlot;
    WaitingZero(p, ids, SLOTS, peer);
    forall x: nat ensures Waiting(p, ids, SLOTS, x) == Rest(Occurs(listed, x), Occurs(got + [peer], x)) {
      OccursSnoc(got, peer, x);
    }
  }

  /** Before the daemon's status, only the first slot waits. */
  lemma FirstSlot(ids: seq<nat>, x: nat)
    requires |ids| == SLOTS
    ensures NoSlot(1, ids, SLOTS, x) ==> ids[0] != x
  {
    var zero: nat := 0;
    assert Bit(1, zero);
  }

  /** Ticking off a slot. */
  lemma Ticked(p: nat, ids: seq<nat>, slot: nat, answered: bool, listed: seq<nat>, got: seq<nat>, peer: nat)
    requires |ids| == SLOTS && p < Pow2(SLOTS) && slot < SLOTS && Bit(p, slot) && ids[slot] == peer
    requires !answered ==> p == 1
    requires answered ==> !Bit(p, 0) && forall x :: Waiting(p, ids, SLOTS, x) == Rest(Occurs(listed, x), Occurs(got, x))
    ensures ClearBit(p, slot) < Pow2(SLOTS)
    ensures !answered ==> slot == 0 && ClearBit(p, slot) == 0
    ensures answered ==>
      && slot != 0 && !Bit(ClearBit(p, slot), 0)
      && forall x :: Waiting(ClearBit(p, slot), ids, SLOTS, x) == Rest(Occurs(listed, x), Occurs(got + [peer], x))
  {
    MaskBound(p, slot, SLOTS);
    if !answered {
      if slot != 0 { ZeroBit(slot - 1); }
    } else {
      hide Waiting, Occurs, Bit, ClearBit;
      BitOfClear(p, slot, 0);
      forall x: nat ensures Waiting(ClearBit(p, slot), ids, SLOTS, x) == Rest(Occurs(listed, x), Occurs(got + [peer], x)) {
        WaitingClear(p, ids, slot, SLOTS, x);
        OccursSnoc(got, peer, x);
      }
    }
  }

  lemma Entered(p: nat, ids: seq<nat>, listed: seq<nat>)
    requires Listed(p, ids, listed)
    ensures |listed| <= MAX_PEERS && p < Pow2(SLOTS) && !Bit(p, 0)
    ensures forall x :: Waiting(p, ids, SLOTS, x) == Rest(Occurs(listed, x), Occurs([], x))
  {
    hide Waiting, Bit, Pow2;
  }

  /** `p` is the mask shifted right by `i`. */
  ghost predicate Shifted(mask: nat, p: nat, i: nat) {
    forall j: nat {:trigger Bit(p, j)} :: Bit(mask, i + j) == Bit(p, j)
  }

  lemma ShiftNone(mask: nat)
    ensures Shifted(mask, mask, 0)
  {
  }

  lemma ShiftMore(mask: nat, p: nat, i: nat)
    requires Shifted(mask, p, i)
    ensures Bit(mask, i) <==> p % 2 == 1
    ensures Shifted(mask, p / 2, i + 1)
  {
    var zero: nat := 0;
    assert Bit(p, zero) <==> p % 2 == 1;
    assert Bit(mask, i + zero) == Bit(p, zero);
    forall j: nat ensures Bit(mask, i + 1 + j) == Bit(p / 2, j) {
      assert Bit(p, j + 1) == Bit(p / 2, j);
      assert i + (j + 1) == i + 1 + j;
    }
  }

  lemma ShiftDone(mask: nat, i: nat)
    requires Shifted(mask, 0, i)
    ensures forall j: nat :: i <= j ==> !Bit(mask, j)
  {
    hide Bit;
    forall j: nat | i <= j ensures !Bit(mask, j) {
      ZeroBit(j - i);
      assert i + (j - i) == j;
    }
  }

  lemma HalfBound(p: nat, n: nat)
    requires p < Pow2(n)
    ensures p != 0 ==> 0 < n && p / 2 < Pow2(n - 1)
  {
  }

  lemma SlotBound()
    ensures 1 < Pow2(SLOTS)
  {
    assert Pow2(SLOTS) == 2 * Pow2(MAX_PEERS);
  }

  lemma NoSlotNone(p: nat, ids: seq<nat>, x: nat)
    ensures NoSlot(p, ids, 0, x)
  {
  }

  lemma NoSlotMore(p: nat, ids: seq<nat>, i: nat, x: nat)
    requires i < |ids| && NoSlot(p, ids, i, x)
    ensures !(Bit(p, i) && ids[i] == x) ==> NoSlot(p, ids, i + 1, x)
  {
    hide Bit;
  }

  lemma NoSlotAfter(p: nat, ids: seq<nat>, i: nat, x: nat)
    requires i <= |ids| && NoSlot(p, ids, i, x)
    requires forall j: nat :: i <= j < |ids| ==> !Bit(p, j)
    ensures NoSlot(p, ids, |ids|, x)
  {
    hide Bit;
  }

  function Rest(a: nat, b: nat): nat {
    if a <= b then 0 else a - b
  }

  // ----- finding the request of an answer -----

  /** An entry of the list of requests; `start` counts the requests started so far. */
  datatype Entry =
    | Plain(start: nat, peer: nat)
    | Notifying(start: nat, n: Notification)

  /** `req->seq` is the low 16 bits of the count. */
  function SeqOf(start: nat): nat {
    start % 0x1_0000
  }

  ghost function Cells(requests: seq<Entry>): set<object> {
    (set r | r in requests && r.Notifying? :: r.n as object) + (set r | r in requests && r.Notifying? :: r.n.id as object)
  }

  /** The entry takes an answer with the given number and peer. */
  ghost predicate Takes(r: Entry, seqno: nat, peer: nat)
    requires r.Notifying? ==> r.n.id.Length == SLOTS
    reads if r.Notifying? then {r.n, r.n.id} else {}
  {
    && SeqOf(r.start) == seqno
    && match r
       case Plain(_, p) => p == peer
       case Notifying(_, n) => !NoSlot(n.pending, n.id[..], SLOTS, peer)
  }

  ghost predicate Sound(requests: seq<Entry>)
    reads Cells(requests)
  {
    forall r :: r in requests && r.Notifying? ==> r.n.id.Length == SLOTS && r.n.pending < Pow2(SLOTS)
  }

  /** The first entry that takes the answer, or the end of the list. */
  ghost function Found(requests: seq<Entry>, seqno: nat, peer: nat): (at: nat)
    requires Sound(requests)
    reads Cells(requests)
    ensures at <= |requests|
    ensures at < |requests| ==> Takes(requests[at], seqno, peer)
    ensures forall j :: 0 <= j < at ==> !Takes(requests[j], seqno, peer)
  {
    if requests == [] then 0
    else
      assert requests[0] in requests;
      assert forall r :: r in requests[1..] ==> r in requests;
      if Takes(requests[0], seqno, peer) then 0 else 1 + Found(requests[1..], seqno, peer)
  }

  /** `ubus_find_request`: the first entry of the list that takes the answer, and for a notification the
      slot it is for. */
  method FindRequest(requests: seq<Entry>, seqno: nat, peer: nat) returns (at: int, slot: int)
    requires Sound(requests)
    ensures at == if Found(requests, seqno, peer) < |requests| then Found(requests, seqno, peer) else -1
    ensures at >= 0 && requests[at].Notifying? ==> 0 <= slot < SLOTS && requests[at].n.id[slot] == peer
  {
    hide Pow2, Bit;
    slot := -1;
    for i := 0 to |requests|
      invariant forall j :: 0 <= j < i ==> !Takes(requests[j], seqno, peer)
    {
      var r := requests[i];
      assert r in requests;
      if seqno != SeqOf(r.start) { continue; }
      match r {
        case Plain(_, p) =>
          if peer != p { continue; }
        case Notifying(_, n) =>
          if n.pending == 0 {
            ZeroMask(n.id[..], peer);
            continue;
          }
          slot := n.FindNotifyId(peer);
          if slot < 0 { continue; }
      }
      return i, slot;
    }
    return -1, slot;
  }

  lemma ZeroMask(ids: seq<nat>, x: nat)
    requires |ids| == SLOTS
    ensures NoSlot(0, ids, SLOTS, x)
  {
    forall i: nat ensures !Bit(0, i) { ZeroBit(i); }
  }

  /** All outstanding requests were started within one turn of the 16-bit counter. */
  ghost predicate OneTurn(requests: seq<Entry>) {
    forall i, j :: 0 <= i < j < |requests| ==>
      requests[i].start != requests[j].start && -0x1_0000 < requests[i].start - requests[j].start < 0x1_0000
  }

  /** Within one turn, an answer that an outstanding request takes is taken by no other: the search finds
      that very request. */
  lemma FindsTheRequest(requests: seq<Entry>, k: nat, seqno: nat, peer: nat)
    requires Sound(requests) && OneTurn(requests) && k < |requests|
    requires Takes(requests[k], seqno, peer)
    ensures forall j :: 0 <= j < |requests| && j != k ==> !Takes(requests[j], seqno, peer)
    ensures Found(requests, seqno, peer) == k
  {
    forall j | 0 <= j < |requests| && j != k ensures SeqOf(requests[j].start) != SeqOf(requests[k].start) {
      if j < k { SameTurn(requests[j].start, requests[k].start); } else { SameTurn(requests[k].start, requests[j].start); }
    }
  }

  lemma SameTurn(a: nat, b: nat)
    ensures SeqOf(a) == SeqOf(b) <==> (a - b) % 0x1_0000 == 0
  {
    var d := a / 0x1_0000 - b / 0x1_0000;
    assert a - b == 0x1_0000 * d + (SeqOf(a) - SeqOf(b));
  }

  /** Beyond one turn the search finds another request: of two calls of the same object, one turn of the counter apart,
      both take the answer to the older one, and the search stops at the newer one, which is at the head of the list. */
  lemma FindsTheOther(start: nat, peer: nat)
    ensures var requests := [Plain(start + 0x1_0000, peer), Plain(start, peer)];
      && Sound(requests) && !OneTurn(requests)
      && Takes(requests[0], SeqOf(start), peer) && Takes(requests[1], SeqOf(start), peer)
      && Found(requests, SeqOf(start), peer) == 0
  {
    SameTurn(start + 0x1_0000, start);
    var requests := [Plain(start + 0x1_0000, peer), Plain(start, peer)];
    assert Takes(requests[0], SeqOf(start), peer);
    assert -0x1_0000 >= requests[1].start - requests[0].start;
  }

  // ----- runs of a notification -----

  /** What the course of a notification promises: it completes at most once; with 0 only if the daemon and every listed entry
      have answered, and with a timeout only if the connection was lost; and if the connection was not lost before an abort,
      then exactly if they have answered, as soon as no callback is running.  So one that is aborted completes exactly if the
      last answer has come before: it was aborted when it was over, or in the status callback of that answer. */
  ghost predicate Promise(c: Course) {
    && (c.codes == [] || c.codes == [0] || c.codes == [TIMEOUT])
    && (!c.heard.lost && c.inside == 0 && !c.blocked ==> c.codes == if Full(c.heard) then [0] else [])
    && (!c.heard.lost ==> TIMEOUT !in c.codes) && (!Full(c.heard) ==> 0 !in c.codes)
    && (c.heard.lost && !c.blocked ==> c.codes != [])
  }

  /** Over every run of messages, of callbacks that begin and end in any nesting, of losses of the connection and of aborts,
      the slots and flags follow the course of the notification, which keeps its promise. */
  method RunNotification(obj: nat, watched: bool, events: seq<Event>) returns (n: Notification)
    ensures fresh(n) && n.Valid() && n.obj == obj && n.View() == CourseOf(obj, watched, events)
    ensures n.heard == Hear(obj, events) && Promise(n.View())
  {
    hide Pow2, Waiting, Occurs, Bit, Covered, Hear1, Next, Full;
    n := new Notification(obj, watched);
    for i := 0 to |events|
      invariant fresh(n) && fresh(n.id) && n.Valid() && n.obj == obj && n.watched == watched
      invariant n.View() == CourseOf(obj, watched, events[..i])
    {
      assert events[..i + 1][..i] == events[..i];
      Idle(obj, watched, n.View(), events[i]);
      match events[i] {
        case StatusArrives(peer, entries) => var called := n.BeginStatus(peer, entries);
        case StatusDone => if 0 < n.inside { n.EndStatus(); }
        case DataArrives => if n.linked { var began := n.BeginData(); }
        case DataDone => if n.blocked { n.EndData(); }
        case Lost => n.GiveUp();
        case Aborted => n.Abort();
      }
    }
    assert events[..|events|] == events;
    CourseHeard(obj, watched, events);
    n.AnsweredExactly();
    if !n.givenUp { n.OverExactly(); }
  }

  lemma Idle(obj: nat, watched: bool, c: Course, e: Event)
    ensures e.StatusDone? && c.inside == 0 ==> Next(obj, watched, c, e) == c
    ensures e.DataArrives? && !c.linked ==> Next(obj, watched, c, e) == c
    ensures e.DataDone? && !c.blocked ==> Next(obj, watched, c, e) == c
  {
  }

  lemma {:induction false} CourseHeard(obj: nat, watched: bool, events: seq<Event>)
    ensures CourseOf(obj, watched, events).heard == Hear(obj, events)
  {
    hide Next, Hear1;
    if events != [] {
      var n := |events| - 1;
      CourseHeard(obj, watched, events[..n]);
      NextHeard(obj, watched, CourseOf(obj, watched, events[..n]), events[n]);
    }
  }

  lemma NextHeard(obj: nat, watched: bool, c: Course, e: Event)
    ensures Next(obj, watched, c, e).heard == Hear1(obj, c.heard, e)
  {
    hide Full, Awaited;
  }
}
