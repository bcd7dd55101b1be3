/** Event sources and event delivery (`ubusd_event.c`): a string tree of patterns, a list of
    sources per object, and a 32-bit stamp that keeps an event from reaching an object twice. */
module Events {
  import opened CStrings
  import opened Seqs
  import opened Options
  import opened Ubus

  /** `struct event_source`; the serial stands for its address. */
  datatype Source = Source(serial: nat, key: CStr, partial: bool, obj: ObjId)

  /** The event side of `struct ubus_object`. */
  datatype Listener = Listener(client: ClientId, seen: nat, events: seq<Source>)

  /** An event message handed to an object's client. */
  datatype Delivery = Delivery(obj: ObjId, seqno: nat)

  ghost predicate Sorted(patterns: seq<Source>) {
    forall i, j {:trigger Leq(patterns[i].key, patterns[j].key)} ::
      0 <= i < j < |patterns| ==> Leq(patterns[i].key, patterns[j].key)
  }

  lemma {:induction false} WithoutSorted(patterns: seq<Source>, s: set<Source>)
    requires Sorted(patterns)
    ensures Sorted(Without(patterns, s))
  {
    if patterns != [] {
      WithoutSorted(patterns[1..], s);
      var rest := Without(patterns[1..], s);
      forall k | 0 <= k < |rest|
        ensures Leq(patterns[0].key, rest[k].key)
      {
        assert rest[k] in patterns[1..];
      }
    }
  }

  // ----- the stamp -----

  /** `obj_event_seq` skips 0, so the stamps repeat after 2^32 - 1 events. */
  const PERIOD: nat := 0xFFFF_FFFF

  /** The stamp in force after `n` events. */
  function Stamp(n: nat): (s: nat)
    ensures 1 <= s <= PERIOD
  {
    n % PERIOD + 1
  }

  /** `if (!++obj_event_seq) obj_event_seq = 1` on a 32-bit counter. */
  lemma NextStamp(n: nat)
    ensures Stamp(n + 1) == if (Stamp(n) + 1) % 0x1_0000_0000 == 0 then 1 else (Stamp(n) + 1) % 0x1_0000_0000
  {
  }

  /** Two events carry the same stamp exactly when they are a multiple of the period apart. */
  lemma StampsRepeat(m: nat, n: nat)
    requires m <= n
    ensures Stamp(m) == Stamp(n) <==> (n - m) % PERIOD == 0
  {
    var d := n / PERIOD - m / PERIOD;
    assert n - m == PERIOD * d + (n % PERIOD - m % PERIOD);
    if Stamp(m) == Stamp(n) {
      assert (PERIOD * d) % PERIOD == 0;
    }
  }

  // ----- the pattern tree -----

  /** The place after all sources with keys not above the new one. */
  function Place(patterns: seq<Source>, key: CStr, i: nat): (p: nat)
    requires Sorted(patterns) && i <= |patterns|
    requires forall k :: 0 <= k < i ==> Leq(patterns[k].key, key)
    ensures i <= p <= |patterns|
    ensures forall k :: 0 <= k < |patterns| ==> (k < p <==> Leq(patterns[k].key, key))
    ensures forall k :: p <= k < |patterns| ==> Leq(key, patterns[k].key)
    decreases |patterns| - i
  {
    if i < |patterns| && NotAfter(patterns[i].key, key) then Place(patterns, key, i + 1)
    else
      assert forall k :: i <= k < |patterns| ==> Leq(key, patterns[k].key) && !Leq(patterns[k].key, key) by {
        forall k | i <= k < |patterns| ensures Leq(key, patterns[k].key) && !Leq(patterns[k].key, key) {
          LeqTotal(key, patterns[i].key);
          if i < k {
            LeqTransitive(key, patterns[i].key, patterns[k].key);
            if Leq(patterns[k].key, key) { LeqTransitive(patterns[i].key, patterns[k].key, key); }
          }
        }
      }
      i
  }

  function Inserted(patterns: seq<Source>, ev: Source): seq<Source>
    requires Sorted(patterns)
  {
    var p := Place(patterns, ev.key, 0);
    patterns[..p] + [ev] + patterns[p..]
  }

  /** A source has come in front of exactly those with greater keys, and all others are as they were. */
  ghost predicate InsertedAt(before: seq<Source>, ev: Source, after: seq<Source>, p: nat) {
    && p <= |before| && after == before[..p] + [ev] + before[p..]
    && forall k :: 0 <= k < |before| ==> (k < p <==> Leq(before[k].key, ev.key))
  }

  lemma InsertedBehind(patterns: seq<Source>, ev: Source)
    requires Sorted(patterns)
    ensures exists p :: InsertedAt(patterns, ev, Inserted(patterns, ev), p)
  {
    assert InsertedAt(patterns, ev, Inserted(patterns, ev), Place(patterns, ev.key, 0));
  }

  lemma InsertedMembers(patterns: seq<Source>, ev: Source)
    requires Sorted(patterns)
    ensures multiset(Inserted(patterns, ev)) == multiset(patterns) + multiset{ev}
    ensures forall s :: s in Inserted(patterns, ev) <==> s in patterns || s == ev
  {
    var p := Place(patterns, ev.key, 0);
    assert patterns == patterns[..p] + patterns[p..];
    assert forall s :: s in Inserted(patterns, ev) <==> s in multiset(Inserted(patterns, ev));
  }

  lemma InsertedSorted(patterns: seq<Source>, ev: Source)
    requires Sorted(patterns)
    ensures Sorted(Inserted(patterns, ev))
  {
    var p, r := Place(patterns, ev.key, 0), Inserted(patterns, ev);
    forall i, j | 0 <= i < j < |r|
      ensures Leq(r[i].key, r[j].key)
    {
      var i', j' := if i < p then i else i - 1, if j < p then j else j - 1;
      if i != p && j != p {
        assert r[i] == patterns[i'] && r[j] == patterns[j'];
        assert Leq(patterns[i'].key, patterns[j'].key);
      }
    }
  }

  lemma InsertedDistinct(patterns: seq<Source>, ev: Source)
    requires Sorted(patterns) && Distinct(patterns) && ev !in patterns
    ensures Distinct(Inserted(patterns, ev))
  {
    hide Leq, Sorted;
    var p, r := Place(patterns, ev.key, 0), Inserted(patterns, ev);
    forall i, j | 0 <= i < j < |r|
      ensures r[i] != r[j]
    {
      assert i != p ==> r[i] == patterns[if i < p then i else i - 1];
      assert j != p ==> r[j] == patterns[if j < p then j else j - 1];
    }
  }

  // ----- consistency of the tree and the lists -----

  /** The tree and the per-object lists hold the same sources, each once. */
  ghost predicate Linked(objects: map<ObjId, Listener>, patterns: seq<Source>) {
    && Distinct(patterns)
    && (forall s :: s in patterns ==> s.obj in objects && s in objects[s.obj].events)
    && (forall o :: o in objects ==> Distinct(objects[o].events))
    && (forall o, s :: o in objects && s in objects[o].events ==> s.obj == o && s in patterns)
  }

  lemma LinkSource(objects: map<ObjId, Listener>, patterns: seq<Source>, ev: Source)
    requires Sorted(patterns) && Linked(objects, patterns)
    requires ev.obj in objects && ev !in patterns
    ensures Linked(objects[ev.obj := objects[ev.obj].(events := [ev] + objects[ev.obj].events)], Inserted(patterns, ev))
  {
    InsertedMembers(patterns, ev);
    InsertedDistinct(patterns, ev);
    DistinctCons(ev, objects[ev.obj].events);
  }

  lemma SourcesOf(objects: map<ObjId, Listener>, patterns: seq<Source>, id: ObjId)
    requires Linked(objects, patterns) && id in objects
    ensures forall s :: s in Elements(objects[id].events) <==> s in patterns && s.obj == id
  {
  }

  lemma UnlinkHead(objects: map<ObjId, Listener>, patterns: seq<Source>, id: ObjId)
    requires Linked(objects, patterns)
    requires id in objects && objects[id].events != []
    ensures Linked(objects[id := objects[id].(events := objects[id].events[1..])],
                   Without(patterns, {objects[id].events[0]}))
  {
    hide Without, Distinct;
    var events := objects[id].events;
    WithoutHead(events);
    WithoutDistinct(events, {events[0]});
    WithoutDistinct(patterns, {events[0]});
  }

  lemma LinkedRemove(objects: map<ObjId, Listener>, patterns: seq<Source>, id: ObjId)
    requires Linked(objects, patterns) && id in objects && objects[id].events == []
    ensures Linked(objects - {id}, patterns)
  {
    hide Distinct;
  }

  // ----- who gets an event -----

  /** The plain rule: the eligible objects with a matching pattern in the list. */
  ghost function Recipients(patterns: seq<Source>, id: CStr, eligible: set<ObjId>): set<ObjId> {
    set s | s in patterns && Matches(s.key, s.partial, id) && s.obj in eligible :: s.obj
  }

  lemma RecipientsSnoc(patterns: seq<Source>, i: nat, id: CStr, eligible: set<ObjId>)
    requires i < |patterns|
    ensures var s := patterns[i];
      Recipients(patterns[..i + 1], id, eligible) ==
      Recipients(patterns[..i], id, eligible) +
      (if Matches(s.key, s.partial, id) && s.obj in eligible then {s.obj} else {})
  {
    assert patterns[..i + 1] == patterns[..i] + [patterns[i]];
  }

  /** Stopping where the shared prefix shrinks loses no recipient. */
  lemma RecipientsEndAtShrink(patterns: seq<Source>, prev: nat, i: nat, id: CStr, eligible: set<ObjId>)
    requires Sorted(patterns)
    requires prev < i < |patterns|
    requires Lcp(id, patterns[i].key) < Lcp(id, patterns[prev].key)
    ensures Recipients(patterns, id, eligible) == Recipients(patterns[..i], id, eligible)
  {
    forall k | i <= k < |patterns|
      ensures !Matches(patterns[k].key, patterns[k].partial, id)
    {
      if k == i { LeqReflexive(patterns[i].key); }
      NoMatchAfterShrink(patterns[prev].key, patterns[i].key, patterns[k].key, patterns[k].partial, id);
    }
    hide Matches;
    forall s | s in patterns && Matches(s.key, s.partial, id)
      ensures s in patterns[..i]
    {
      var k :| 0 <= k < |patterns| && patterns[k] == s;
      assert patterns[..i][k] == s;
    }
  }

  /** The objects of a list of deliveries. */
  ghost function Reached(sent: seq<Delivery>): set<ObjId> {
    set d | d in sent :: d.obj
  }

  /** No object appears twice, and the numbers run on from the counter. */
  ghost predicate OncePerObject(sent: seq<Delivery>, counter: nat) {
    && (forall i, j :: 0 <= i < j < |sent| ==> sent[i].obj != sent[j].obj)
    && (forall i :: 0 <= i < |sent| ==> sent[i].seqno == (counter + 1 + i) % 0x1_0000)
  }

  /** The stamps after an event has stamped a set of objects. */
  ghost function Stamped(objects: map<ObjId, Listener>, reached: set<ObjId>, stamp: nat): map<ObjId, Listener> {
    map o | o in objects :: if o in reached then objects[o].(seen := stamp) else objects[o]
  }

  ghost function Remembered(last: map<ObjId, nat>, reached: set<ObjId>, n: nat): map<ObjId, nat> {
    map o | o in last.Keys + reached :: if o in reached then n else last[o]
  }

  /** The same objects, with the same owners and sources. */
  ghost predicate SameButStamps(a: map<ObjId, Listener>, b: map<ObjId, Listener>) {
    a.Keys == b.Keys && forall o :: o in a ==> a[o].client == b[o].client && a[o].events == b[o].events
  }

  lemma StampedSame(objects: map<ObjId, Listener>, reached: set<ObjId>, stamp: nat)
    ensures SameButStamps(objects, Stamped(objects, reached, stamp))
  {
  }

  lemma StampOne(objects: map<ObjId, Listener>, reached: set<ObjId>, stamp: nat, o: ObjId)
    requires o in objects && o !in reached
    ensures Stamped(objects, reached, stamp)[o := objects[o].(seen := stamp)] == Stamped(objects, reached + {o}, stamp)
  {
  }

  lemma RememberOne(last: map<ObjId, nat>, reached: set<ObjId>, n: nat, o: ObjId)
    ensures Remembered(last, reached, n)[o := n] == Remembered(last, reached + {o}, n)
  {
  }

  lemma StampedAt(objects: map<ObjId, Listener>, reached: set<ObjId>, stamp: nat, o: ObjId)
    requires o in Stamped(objects, reached, stamp)
    ensures o in objects
    ensures Stamped(objects, reached, stamp)[o] == if o in reached then objects[o].(seen := stamp) else objects[o]
  {
  }

  lemma OnceMore(sent: seq<Delivery>, counter: nat, d: Delivery)
    requires OncePerObject(sent, counter)
    requires d.obj !in Reached(sent) && d.seqno == (counter + 1 + |sent|) % 0x1_0000
    ensures OncePerObject(sent + [d], counter)
    ensures Reached(sent + [d]) == Reached(sent) + {d.obj}
  {
    forall i | 0 <= i < |sent| ensures sent[i].obj in Reached(sent) {
      assert sent[i] in sent;
    }
  }

  // ----- the history -----

  /** An event that was allowed: its sender and name, whether its message could be built, and the objects it was due
      at. */
  datatype Asked = Asked(sender: Option<ClientId>, event: CStr, built: bool, due: set<ObjId>)

  /** What became of it: the due objects that still had its stamp, the messages sent, and the objects stamped. */
  datatype Round = Round(asked: Asked, stale: set<ObjId>, sent: seq<Delivery>, stamped: set<ObjId>)

  /** The event was sent exactly once to every object it was due at, and to no other. */
  ghost predicate Delivered(r: Round) {
    Reached(r.sent) == r.asked.due && forall i, j :: 0 <= i < j < |r.sent| ==> r.sent[i].obj != r.sent[j].obj
  }

  /** An earlier event, a whole number of periods back, has stamped the object. */
  ghost predicate StampedBefore(history: seq<Round>, i: nat, o: ObjId)
    requires i <= |history|
  {
    exists j :: 0 <= j < i && (i - j) % PERIOD == 0 && o in history[j].stamped
  }

  /** An event is sent exactly once to every object it is due at and that does not have its stamp yet, and to no other;
      and an object can only have its stamp from an event a whole number of periods back. */
  ghost predicate RoundOk(history: seq<Round>, i: nat)
    requires i < |history|
  {
    var r := history[i];
    && (forall j, k :: 0 <= j < k < |r.sent| ==> r.sent[j].obj != r.sent[k].obj)
    && (if r.asked.built then r.stamped == Reached(r.sent) == r.asked.due - r.stale else r.sent == [])
    && r.stale <= r.asked.due
    && forall o :: o in r.stale ==> StampedBefore(history, i, o)
  }

  /** All messages sent, in order. */
  ghost function SentIn(history: seq<Round>): seq<Delivery> {
    if history == [] then [] else SentIn(history[..|history| - 1]) + history[|history| - 1].sent
  }

  /** They are numbered one after the other, and the 16-bit counter is at the last number. */
  ghost predicate Numbered(history: seq<Round>, counter: nat) {
    && counter == |SentIn(history)| % 0x1_0000
    && forall i :: 0 <= i < |SentIn(history)| ==> SentIn(history)[i].seqno == (i + 1) % 0x1_0000
  }

  lemma NumberMore(history: seq<Round>, counter: nat, round: Round, counter': nat)
    requires Numbered(history, counter) && OncePerObject(round.sent, counter)
    requires counter' == (counter + |round.sent|) % 0x1_0000
    ensures Numbered(history + [round], counter')
  {
    assert (history + [round])[..|history|] == history;
    var before := SentIn(history);
    forall i | 0 <= i < |round.sent| ensures round.sent[i].seqno == (|before| + i + 1) % 0x1_0000 {
      assert round.sent[i].seqno == (counter + 1 + i) % 0x1_0000;
      Wraps(|before|, i + 1);
    }
    Wraps(|before|, |round.sent|);
  }

  lemma Wraps(a: nat, b: nat)
    ensures (a % 0x1_0000 + b) % 0x1_0000 == (a + b) % 0x1_0000
  {
  }

  /** The first 2^32 - 1 events, if they could be built, were delivered. */
  lemma EarlyDelivered(history: seq<Round>, i: nat)
    requires i < |history| && i < PERIOD && RoundOk(history, i) && history[i].asked.built
    ensures Delivered(history[i])
  {
    hide Reached;
    assert history[i].stale == {};
  }

  lemma RoundKept(history: seq<Round>, more: seq<Round>, i: nat)
    requires i < |history| && history <= more && RoundOk(history, i)
    ensures RoundOk(more, i)
  {
    forall o | o in history[i].stale ensures StampedBefore(more, i, o) {
      var j :| 0 <= j < i && (i - j) % PERIOD == 0 && o in history[j].stamped;
      assert o in more[j].stamped;
    }
  }

  class Bus {
    var objects: map<ObjId, Listener>
    var patterns: seq<Source>
    var objEventSeq: nat
    var eventSeq: nat
    var nextSerial: nat

    /** Events sent so far, and for each live object the last one that stamped it. */
    ghost var count: nat
    ghost var last: map<ObjId, nat>
    /** What became of each. */
    ghost var history: seq<Round>

    /** The tree is sorted and agrees with the lists, and every stamp is that of the last event
        that stamped the object. */
    ghost predicate Valid()
      reads `objects, `patterns, `objEventSeq, `eventSeq, `nextSerial, `count, `last
    {
      && Sorted(patterns)
      && Linked(objects, patterns)
      && (forall s :: s in patterns ==> s.serial < nextSerial)
      && objEventSeq == Stamp(count)
      && eventSeq < 0x1_0000
      && last.Keys <= objects.Keys
      && (forall o :: o in objects ==>
            objects[o].seen == if o in last then Stamp(last[o]) else 0)
      && (forall o :: o in last ==> 0 < last[o] <= count)
    }

    /** The history tells of every event, and of the last one that stamped each object. */
    ghost predicate Logged()
      reads `history, `count, `last, `eventSeq
    {
      && |history| == count && Numbered(history, eventSeq)
      && (forall o :: o in last ==> 0 < last[o] <= count && o in history[last[o] - 1].stamped)
      && (forall i :: 0 <= i < |history| ==> RoundOk(history, i))
    }

    constructor ()
      ensures Valid() && Logged() && eventSeq == 0 && objects == map[] && patterns == [] && count == 0 && last == map[]
    {
      objects, patterns, objEventSeq, eventSeq, nextSerial := map[], [], 1, 0, 0;
      count, last, history := 0, map[], [];
    }

    // ----- objects and patterns -----

    method AddObject(id: ObjId, client: ClientId)
      requires Valid() && id !in objects
      modifies this
      ensures Valid()
      ensures objects == old(objects)[id := Listener(client, 0, [])]
      ensures patterns == old(patterns) && count == old(count) && last == old(last) && history == old(history)
      ensures old(Logged()) ==> Logged()
    {
      hide RoundOk, Sorted, Stamp;
      objects := objects[id := Listener(client, 0, [])];
    }

    /** `ubusd_alloc_event_pattern`.  On success the object gains one source, which matches what
        the pattern text says; the reserved ids, a foreign object and an empty pattern are refused. */
    method AllocEventPattern(cl: ClientId, obj: Option<ObjId>, pattern: Option<CStr>, denied: bool)
      returns (rc: int, ghost added: Option<Source>)
      requires Valid()
      modifies this
      ensures Valid() && count == old(count) && last == old(last) && history == old(history)
      ensures old(Logged()) ==> Logged()
      ensures rc == OK <==> added.Some?
      ensures rc == OK <==>
        && obj.Some? && pattern.Some? && SYSTEM_OBJECT_MAX <= obj.value
        && obj.value in old(objects) && old(objects)[obj.value].client == cl
        && pattern.value != "" && !denied
      ensures rc == INVALID_ARGUMENT <==> obj.None? || pattern.None?
      ensures rc == NOT_FOUND <==> obj.Some? && pattern.Some? && SYSTEM_OBJECT_MAX <= obj.value && obj.value !in old(objects)
      ensures rc in {OK, INVALID_ARGUMENT, NOT_FOUND, PERMISSION_DENIED}
      ensures added.None? ==> objects == old(objects) && patterns == old(patterns)
      ensures added.Some? ==>
        && multiset(patterns) == multiset(old(patterns)) + multiset{added.value}
        && (exists p :: InsertedAt(old(patterns), added.value, patterns, p))
        && objects.Keys == old(objects).Keys
        && (forall o :: o in objects ==>
              objects[o] == if o != obj.value then old(objects)[o]
                            else old(objects)[o].(events := [added.value] + old(objects)[o].events))
        && added.value.obj == obj.value
        && added.value.key == Key(pattern.value) && added.value.partial == IsWildcard(pattern.value)
        && forall name: CStr :: Matches(added.value.key, added.value.partial, name) <==>
             if IsWildcard(pattern.value) then IsPrefix(Key(pattern.value), name) else name == pattern.value
    {
      hide RoundOk, Sorted, Distinct, Linked, Inserted, InsertedAt, Leq, Stamp, Numbered;
      added := None;
      if obj.None? || pattern.None? { return INVALID_ARGUMENT, None; }
      var id := obj.value;
      if id < SYSTEM_OBJECT_MAX { return PERMISSION_DENIED, None; }
      if id !in objects { return NOT_FOUND, None; }
      if objects[id].client != cl { return PERMISSION_DENIED, None; }
      var text := pattern.value;
      var len := |text|;
      if len == 0 { return PERMISSION_DENIED, None; }
      var partial := false;
      if text[len - 1] == '*' {
        partial := true;
        len := len - 1;
      }
      if denied { return PERMISSION_DENIED, None; }
      assert text[..len] == Key(text);
      var ev := Source(nextSerial, text[..len], partial, id);
      LinkSource(objects, patterns, ev);
      InsertedSorted(patterns, ev);
      InsertedMembers(patterns, ev);
      InsertedBehind(patterns, ev);
      objects := objects[id := objects[id].(events := [ev] + objects[id].events)];
      nextSerial := nextSerial + 1;
      patterns := Inserted(patterns, ev);
      rc, added := OK, Some(ev);
    }

    /** `ubusd_event_cleanup_object`: the sources leave the list and the tree one by one, and the
        sources of other objects keep their order. */
    method CleanupObject(id: ObjId)
      requires Valid() && id in objects
      modifies this`objects, this`patterns
      ensures Valid()
      ensures objects == old(objects)[id := old(objects)[id].(events := [])]
      ensures patterns == Without(old(patterns), Elements(old(objects)[id].events))
      ensures forall s :: s in patterns <==> s in old(patterns) && s.obj != id
    {
      hide Without, Distinct, Sorted, Linked, Stamp;
      ghost var all := objects[id].events;
      ghost var gone: set<Source> := {};
      SourcesOf(objects, patterns, id);
      WithoutNone(patterns, gone);
      while objects[id].events != []
        invariant Valid()
        invariant id in objects && objects == old(objects)[id := old(objects)[id].(events := objects[id].events)]
        invariant patterns == Without(old(patterns), gone)
        invariant gone + Elements(objects[id].events) == Elements(all)
        decreases |objects[id].events|
      {
        var ev := objects[id].events[0];
        UnlinkHead(objects, patterns, id);
        WithoutTwice(old(patterns), gone, {ev});
        WithoutSorted(patterns, {ev});
        gone := gone + {ev};
        objects := objects[id := objects[id].(events := objects[id].events[1..])];
        patterns := Without(patterns, {ev});
      }
      assert gone == Elements(all);
    }

    /** The end of `ubusd_free_object` as far as events go. */
    method RemoveObject(id: ObjId)
      requires Valid() && id in objects
      modifies this
      ensures Valid() && count == old(count) && history == old(history)
      ensures old(Logged()) ==> Logged()
      ensures objects == old(objects) - {id} && last == old(last) - {id}
      ensures patterns == Without(old(patterns), Elements(old(objects)[id].events))
      ensures forall s :: s in patterns <==> s in old(patterns) && s.obj != id
    {
      hide RoundOk, Without, Distinct, Sorted, Linked, Stamp;
      CleanupObject(id);
      LinkedRemove(objects, patterns, id);
      objects := objects - {id};
      last := last - {id};
    }

    // ----- delivery -----

    /** Some pattern of the object matches the event, and the object is not the sender's own. */
    ghost predicate Due(o: ObjId, sender: Option<ClientId>, id: CStr)
      reads this
    {
      && o in objects
      && sender != Some(objects[o].client)
      && exists s :: s in patterns && s.obj == o && Matches(s.key, s.partial, id)
    }

    /** The stamp of the next event is still on the object: its last event lies a whole number of
        periods back. */
    ghost predicate Stale(o: ObjId)
      reads this
    {
      o in last && (count + 1 - last[o]) % PERIOD == 0
    }

    /** `ubusd_send_event_msg`: the sender's own objects and objects stamped already are skipped;
        the message is built on first use and numbered per recipient. */
    method SendEventMsg(sender: Option<ClientId>, obj: ObjId, filled: bool, fillOk: bool)
      returns (rc: int, sent: seq<Delivery>)
      requires Valid() && obj in objects && 0 < count
      modifies this`objects, this`eventSeq, this`last
      ensures Valid()
      ensures
        if sender == Some(old(objects)[obj].client) || old(objects)[obj].seen == objEventSeq then
          rc == OK && sent == [] && objects == old(objects) && eventSeq == old(eventSeq) && last == old(last)
        else
          && objects == old(objects)[obj := old(objects)[obj].(seen := objEventSeq)]
          && last == old(last)[obj := count]
          && if filled || fillOk
             then rc == OK && eventSeq == (old(eventSeq) + 1) % 0x1_0000 && sent == [Delivery(obj, eventSeq)]
             else rc == UNKNOWN_ERROR && eventSeq == old(eventSeq) && sent == []
    {
      hide Sorted, Distinct, Stamp;
      if sender == Some(objects[obj].client) { return OK, []; }
      if objects[obj].seen == objEventSeq { return OK, []; }
      objects := objects[obj := objects[obj].(seen := objEventSeq)];
      last := last[obj := count];
      if !filled {
        if !fillOk { return UNKNOWN_ERROR, []; }
      }
      eventSeq := (eventSeq + 1) % 0x1_0000;
      return OK, [Delivery(obj, eventSeq)];
    }

    ghost function DueAt(sender: Option<ClientId>, id: CStr): set<ObjId>
      reads this
    {
      set o | o in objects && Due(o, sender, id)
    }

    ghost function StaleAt(sender: Option<ClientId>, id: CStr): set<ObjId>
      reads this
    {
      set o | o in objects && Due(o, sender, id) && Stale(o)
    }

    /** `ubusd_send_event`.  The scan over the tree, with its early exit and its stamps, sends the
        event exactly once to each object that is due and not stale. */
    method SendEvent(sender: Option<ClientId>, id: CStr, denied: bool, fillOk: bool)
      returns (rc: int, sent: seq<Delivery>)
      requires Valid() && Logged()
      modifies this
      ensures Valid() && Logged() && patterns == old(patterns) && SameButStamps(old(objects), objects)
      ensures denied ==>
        rc == PERMISSION_DENIED && sent == [] && history == old(history) && objects == old(objects) && last == old(last)
      ensures !denied ==>
        && |history| == |old(history)| + 1 && old(history) <= history
        && history[|old(history)|].asked == Asked(sender, id, fillOk, old(DueAt(sender, id)))
        && history[|old(history)|].stale == old(StaleAt(sender, id)) && history[|old(history)|].sent == sent
      ensures !denied && fillOk ==>
        && rc == OK && OncePerObject(sent, old(eventSeq))
        && Reached(sent) == old(DueAt(sender, id)) - old(StaleAt(sender, id))
        && objects == Stamped(old(objects), Reached(sent), Stamp(count))
        && last == Remembered(old(last), Reached(sent), count)
      ensures !denied && !fillOk ==>
        && sent == []
        && rc == if old(DueAt(sender, id)) - old(StaleAt(sender, id)) == {} then OK else UNKNOWN_ERROR
    {
      hide Valid, Sorted, Linked, Stamp, Stamped, Remembered, Recipients, Reached, RoundOk, SameButStamps, Numbered;
      if denied {
        SameStamps(objects);
        return PERMISSION_DENIED, [];
      }
      ghost var eligible := EligibleFor(sender, id);
      ghost var due, stale := DueAt(sender, id), StaleAt(sender, id);
      StartEvent();
      ghost var stamped;
      rc, sent, stamped := Scan(sender, id, fillOk, eligible);
      ghost var round := Round(Asked(sender, id, fillOk, due), stale, sent, stamped);
      StampedSame(old(objects), stamped, objEventSeq);
      LogRound(old(history), old(last), old(count), round, last);
      NumberMore(old(history), old(eventSeq), round, eventSeq);
      history := history + [round];
      assert objEventSeq == Stamp(count) by { CurrentStamp(); }
    }

    lemma CurrentStamp()
      requires Valid()
      ensures objEventSeq == Stamp(count)
    {
    }

    /** The objects that are not the sender's own and whose stamp is not that of the next event. */
    ghost function EligibleFor(sender: Option<ClientId>, id: CStr): (e: set<ObjId>)
      requires Valid()
      reads this
      ensures Recipients(patterns, id, e) == DueAt(sender, id) - StaleAt(sender, id)
      ensures e == set o | o in objects && sender != Some(objects[o].client) && objects[o].seen != Stamp(count + 1)
    {
      assert forall o :: o in objects ==> (objects[o].seen == Stamp(count + 1) <==> Stale(o)) by {
        forall o | o in objects ensures objects[o].seen == Stamp(count + 1) <==> Stale(o) {
          if o in last { StampsRepeat(last[o], count + 1); }
        }
      }
      set o | o in objects && sender != Some(objects[o].client) && objects[o].seen != Stamp(count + 1)
    }

    /** The 32-bit counter moves on, skipping zero. */
    method StartEvent()
      requires Valid()
      modifies this`objEventSeq, this`count
      ensures Valid() && count == old(count) + 1 && objEventSeq == Stamp(count)
    {
      hide Sorted, Linked;
      NextStamp(count);
      objEventSeq := (objEventSeq + 1) % 0x1_0000_0000;
      if objEventSeq == 0 {
        objEventSeq := 1;
      }
      count := count + 1;
    }

    /** The state in the middle of a scan that has sent the given deliveries. */
    ghost predicate MidScan(sent: seq<Delivery>, objects0: map<ObjId, Listener>, last0: map<ObjId, nat>,
                            eventSeq0: nat, sender: Option<ClientId>, eligible: set<ObjId>)
      reads this
    {
      && Valid() && 0 < count
      && eventSeq == (eventSeq0 + |sent|) % 0x1_0000
      && OncePerObject(sent, eventSeq0)
      && objects == Stamped(objects0, Reached(sent), objEventSeq)
      && last == Remembered(last0, Reached(sent), count)
      && eligible == set o | o in objects0 && sender != Some(objects0[o].client) && objects0[o].seen != objEventSeq
    }

    /** One matching source: its object gets the event if it is eligible and has not got it yet. */
    method Offer(sender: Option<ClientId>, ev: Source, before: seq<Delivery>, fillOk: bool,
                 ghost objects0: map<ObjId, Listener>, ghost last0: map<ObjId, nat>, ghost eventSeq0: nat,
                 ghost eligible: set<ObjId>)
      returns (rc: int, sent: seq<Delivery>, ghost stamped: set<ObjId>)
      requires MidScan(before, objects0, last0, eventSeq0, sender, eligible)
      requires ev in patterns
      requires !fillOk ==> before == []
      modifies this`objects, this`eventSeq, this`last
      ensures Valid()
      ensures rc == OK || rc == UNKNOWN_ERROR
      ensures rc == UNKNOWN_ERROR <==> !fillOk && ev.obj in eligible
      ensures rc != OK ==> sent == before
      ensures eventSeq == (eventSeq0 + |sent|) % 0x1_0000
      ensures objects == Stamped(objects0, stamped, objEventSeq) && last == Remembered(last0, stamped, count)
      ensures rc == OK ==>
        && MidScan(sent, objects0, last0, eventSeq0, sender, eligible) && stamped == Reached(sent)
        && Reached(sent) == Reached(before) + (if ev.obj in eligible then {ev.obj} else {})
        && (!fillOk ==> sent == [])
    {
      hide Stamp, OncePerObject, Reached, Stamped, Remembered, Valid;
      SourceLive(ev);
      StampedAt(objects0, Reached(before), objEventSeq, ev.obj);
      assert fillOk || Reached(before) == {} by { if !fillOk { Nothing(0); } }
      var one;
      rc, one := SendEventMsg(sender, ev.obj, before != [], fillOk);
      sent := before + one;
      stamped := Reached(before);
      if one != [] || rc != OK {
        StampOne(objects0, Reached(before), objEventSeq, ev.obj);
        RememberOne(last0, Reached(before), count, ev.obj);
        stamped := stamped + {ev.obj};
      }
      if one != [] {
        OnceMore(before, eventSeq0, one[0]);
      } else {
        assert sent == before;
      }
    }

    lemma SourceLive(ev: Source)
      requires Valid() && ev in patterns
      ensures ev.obj in objects
    {
    }

    method Scan(sender: Option<ClientId>, id: CStr, fillOk: bool, ghost eligible: set<ObjId>)
      returns (rc: int, sent: seq<Delivery>, ghost stamped: set<ObjId>)
      requires Valid() && 0 < count
      requires eligible == set o | o in objects && sender != Some(objects[o].client) && objects[o].seen != objEventSeq
      modifies this`objects, this`eventSeq, this`last
      ensures Valid()
      ensures OncePerObject(sent, old(eventSeq)) && eventSeq == (old(eventSeq) + |sent|) % 0x1_0000
      ensures objects == Stamped(old(objects), stamped, objEventSeq) && last == Remembered(old(last), stamped, count)
      ensures fillOk ==> rc == OK && stamped == Reached(sent) == Recipients(patterns, id, eligible)
      ensures !fillOk ==> sent == [] && rc == if Recipients(patterns, id, eligible) == {} then OK else UNKNOWN_ERROR
    {
      hide Sorted, Linked, Stamp, Matches, Recipients, OncePerObject, Reached, Stamped, Remembered;
      rc, sent := OK, [];
      var matchLen := 0;
      ghost var prev := -1;
      Nothing(eventSeq);
      NothingStamped(objects, last, objEventSeq, count);
      NoRecipients(id, eligible);
      assert patterns[..0] == [];
      stamped := {};
      for i := 0 to |patterns|
        invariant rc == OK
        invariant -1 <= prev < i
        invariant matchLen == if prev < 0 then 0 else Lcp(id, patterns[prev].key)
        invariant MidScan(sent, old(objects), old(last), old(eventSeq), sender, eligible)
        invariant stamped == Reached(sent) == Recipients(patterns[..i], id, eligible)
        invariant !fillOk ==> sent == []
      {
        var ev := patterns[i];
        var full, cur := StrMatchLen(id, ev.key);
        MatchByLength(ev.key, ev.partial, id);
        RecipientsSnoc(patterns, i, id, eligible);
        if cur < matchLen {
          RecipientsEndAtShrink(patterns, prev, i, id, eligible);
          return;
        }
        matchLen := cur;
        prev := i;
        if !full {
          if !ev.partial { continue; }
          if matchLen != |ev.key| { continue; }
        }
        rc, sent, stamped := Offer(sender, ev, sent, fillOk, old(objects), old(last), old(eventSeq), eligible);
        if rc != OK {
          RecipientsGrow(patterns, i, id, eligible);
          return;
        }
      }
      assert patterns[..|patterns|] == patterns;
    }

    /** One operation of a run. */
    method Perform(op: Op) returns (rc: int)
      requires Valid() && Logged()
      modifies this
      ensures Valid() && Logged() && SameOwners(old(objects), objects, op)
      ensures PlainOf(objects, patterns) == After1(PlainOf(old(objects), old(patterns)), op)
      ensures AskedIn(history) == AskedIn(old(history)) + Event1(PlainOf(old(objects), old(patterns)), op)
      ensures op.Register? ==> rc == RegisterCode(PlainOf(old(objects), old(patterns)), op)
      ensures op.Send? ==> rc == SendCode(op, history)
      ensures op.Add? || op.Remove? ==> rc == OK
    {
      hide Valid, RoundOk, Stamp, Stamped, Remembered, Reached, OncePerObject, DueIn, Matches, Numbered;
      rc := OK;
      match op {
        case Add(id, client) =>
          if id !in objects {
            PlainAdd(objects, patterns, id, Listener(client, 0, []));
            AddObject(id, client);
          }
        case Register(cl, obj, pattern, forbidden) => rc := PerformRegister(cl, obj, pattern, forbidden);
        case Remove(id) =>
          if id in objects {
            ghost var objects0, before := objects, patterns;
            RemoveObject(id);
            PlainRemove(objects0, before, patterns, id);
          } else {
            NotRegistered(id);
          }
        case Send(sender, event, denied, fillOk) =>
          ghost var objects0 := objects;
          SameDue(this, sender, event);
          var sent;
          rc, sent := SendEvent(sender, event, denied, fillOk);
          PlainSame(objects0, objects, patterns);
          if !denied { assert history[..|history| - 1] == old(history); }
      }
    }

    method PerformRegister(cl: ClientId, obj: Option<ObjId>, pattern: Option<CStr>, forbidden: bool) returns (rc: int)
      requires Valid() && Logged()
      modifies this
      ensures Valid() && Logged() && history == old(history)
      ensures SameOwners(old(objects), objects, Register(cl, obj, pattern, forbidden))
      ensures PlainOf(objects, patterns) == After1(PlainOf(old(objects), old(patterns)), Register(cl, obj, pattern, forbidden))
      ensures rc == RegisterCode(PlainOf(old(objects), old(patterns)), Register(cl, obj, pattern, forbidden))
    {
      hide Valid, RoundOk, Matches, Numbered, InsertedAt;
      ghost var before := patterns;
      ghost var added;
      rc, added := AllocEventPattern(cl, obj, pattern, forbidden);
      if added.Some? { PlainRegister(before, patterns, added.value); }
    }

    lemma NotRegistered(id: ObjId)
      requires Valid() && id !in objects
      ensures PlainOf(objects, patterns) == After1(PlainOf(objects, patterns), Remove(id))
    {
      var p := PlainOf(objects, patterns);
      assert p.owners - {id} == p.owners;
      assert p.wants == set w | w in p.wants && w.0 != id;
    }
  }

  /** A new round keeps the history right. */
  lemma LogRound(history: seq<Round>, last: map<ObjId, nat>, count: nat, r: Round, last': map<ObjId, nat>)
    requires |history| == count && last' == Remembered(last, r.stamped, count + 1)
    requires forall o :: o in last ==> 0 < last[o] <= count && o in history[last[o] - 1].stamped
    requires forall i :: 0 <= i < |history| ==> RoundOk(history, i)
    requires forall j, k :: 0 <= j < k < |r.sent| ==> r.sent[j].obj != r.sent[k].obj
    requires if r.asked.built then r.stamped == Reached(r.sent) == r.asked.due - r.stale else r.sent == []
    requires r.stale <= r.asked.due
    requires forall o :: o in r.stale ==> o in last && (count + 1 - last[o]) % PERIOD == 0
    ensures forall o :: o in last' ==> 0 < last'[o] <= count + 1 && o in (history + [r])[last'[o] - 1].stamped
    ensures forall i :: 0 <= i < |history| + 1 ==> RoundOk(history + [r], i)
  {
    hide Reached;
    var more := history + [r];
    forall i | 0 <= i < |history| ensures RoundOk(more, i) { RoundKept(history, more, i); }
    forall o | o in r.stale ensures StampedBefore(more, count, o) {
      var j := last[o] - 1;
      assert (count - j) % PERIOD == 0 && o in more[j].stamped;
    }
  }

  lemma SameStamps(objects: map<ObjId, Listener>)
    ensures SameButStamps(objects, objects)
  {
  }

  lemma Nothing(counter: nat)
    ensures OncePerObject([], counter) && Reached([]) == {}
  {
  }

  lemma NothingStamped(objects: map<ObjId, Listener>, last: map<ObjId, nat>, stamp: nat, n: nat)
    ensures Stamped(objects, {}, stamp) == objects && Remembered(last, {}, n) == last
  {
  }

  lemma NoRecipients(id: CStr, eligible: set<ObjId>)
    ensures Recipients([], id, eligible) == {}
  {
  }

  lemma RecipientsGrow(patterns: seq<Source>, i: nat, id: CStr, eligible: set<ObjId>)
    requires i < |patterns|
    ensures Recipients(patterns[..i + 1], id, eligible) <= Recipients(patterns, id, eligible)
  {
  }

  // ----- runs -----

  datatype Op =
    | Add(id: ObjId, client: ClientId)
    | Register(cl: ClientId, obj: Option<ObjId>, pattern: Option<CStr>, forbidden: bool)
    | Remove(id: ObjId)
    | Send(sender: Option<ClientId>, event: CStr, denied: bool, fillOk: bool)

  /** The plain view: who owns which object, and which object has registered what. */
  datatype Plain = Plain(owners: map<ObjId, ClientId>, wants: set<(ObjId, CStr, bool)>)

  ghost predicate Wants(p: Plain, o: ObjId, event: CStr) {
    exists w :: w in p.wants && w.0 == o && Matches(w.1, w.2, event)
  }

  /** The objects that have registered a pattern for the event and are not the sender's own. */
  ghost function DueIn(p: Plain, sender: Option<ClientId>, event: CStr): set<ObjId> {
    set o | o in p.owners && sender != Some(p.owners[o]) && Wants(p, o, event)
  }

  /** A registration is accepted from the owner of an unreserved object, for a permitted pattern that is not empty. */
  predicate Accepts(p: Plain, op: Op) {
    && op.Register? && op.obj.Some? && op.pattern.Some? && SYSTEM_OBJECT_MAX <= op.obj.value
    && op.obj.value in p.owners && p.owners[op.obj.value] == op.cl && op.pattern.value != "" && !op.forbidden
  }

  /** The status of an event: an error if it is refused, or if its message could not be built for some object. */
  ghost function SendCode(op: Op, history: seq<Round>): nat
    requires op.Send?
  {
    if op.denied then PERMISSION_DENIED
    else if history == [] then OK
    else
      var r := history[|history| - 1];
      if !r.asked.built && r.asked.due - r.stale != {} then UNKNOWN_ERROR else OK
  }

  /** The status of a registration. */
  function RegisterCode(p: Plain, op: Op): nat
    requires op.Register?
  {
    if op.obj.None? || op.pattern.None? then INVALID_ARGUMENT
    else if SYSTEM_OBJECT_MAX <= op.obj.value && op.obj.value !in p.owners then NOT_FOUND
    else if Accepts(p, op) then OK
    else PERMISSION_DENIED
  }

  ghost function After1(p: Plain, op: Op): Plain {
    match op
    case Add(id, client) => if id in p.owners then p else p.(owners := p.owners[id := client])
    case Register(_, obj, pattern, _) =>
      if Accepts(p, op) then p.(wants := p.wants + {(obj.value, Key(pattern.value), IsWildcard(pattern.value))}) else p
    case Remove(id) => Plain(p.owners - {id}, set w | w in p.wants && w.0 != id)
    case Send(_, _, _, _) => p
  }

  /** The owners of the objects before and after an operation. */
  ghost predicate SameOwners(a: map<ObjId, Listener>, b: map<ObjId, Listener>, op: Op) {
    && b.Keys == (if op.Add? then a.Keys + {op.id} else if op.Remove? then a.Keys - {op.id} else a.Keys)
    && forall o :: o in b ==> b[o].client == if o in a then a[o].client else if op.Add? then op.client else 0
  }

  /** The event of an operation, if it sends one that is allowed. */
  ghost function Event1(p: Plain, op: Op): seq<Asked> {
    if op.Send? && !op.denied then [Asked(op.sender, op.event, op.fillOk, DueIn(p, op.sender, op.event))] else []
  }

  ghost function After(ops: seq<Op>): Plain {
    if ops == [] then Plain(map[], {}) else After1(After(ops[..|ops| - 1]), ops[|ops| - 1])
  }

  /** The events that are allowed, each with the objects it is due at. */
  ghost function Events(ops: seq<Op>): seq<Asked> {
    if ops == [] then []
    else
      var before, op := ops[..|ops| - 1], ops[|ops| - 1];
      Events(before) + Event1(After(before), op)
  }

  ghost function AskedIn(history: seq<Round>): seq<Asked> {
    if history == [] then [] else AskedIn(history[..|history| - 1]) + [history[|history| - 1].asked]
  }

  lemma {:induction false} AskedAt(history: seq<Round>, i: nat)
    requires i < |history|
    ensures |AskedIn(history)| == |history| && AskedIn(history)[i] == history[i].asked
  {
    var n := |history| - 1;
    if n > 0 { AskedAt(history[..n], if i < n then i else 0); }
  }

  ghost function PlainOf(objects: map<ObjId, Listener>, patterns: seq<Source>): Plain {
    Plain(map o | o in objects :: objects[o].client, set s | s in patterns :: (s.obj, s.key, s.partial))
  }

  lemma SameDue(bus: Bus, sender: Option<ClientId>, event: CStr)
    ensures bus.DueAt(sender, event) == DueIn(PlainOf(bus.objects, bus.patterns), sender, event)
  {
    var p := PlainOf(bus.objects, bus.patterns);
    hide Matches;
    forall o | o in bus.objects
      ensures (exists s :: s in bus.patterns && s.obj == o && Matches(s.key, s.partial, event)) <==> Wants(p, o, event)
    {
      if s :| s in bus.patterns && s.obj == o && Matches(s.key, s.partial, event) {
        assert (s.obj, s.key, s.partial) in p.wants;
      }
    }
  }

  lemma PlainAdd(objects: map<ObjId, Listener>, patterns: seq<Source>, id: ObjId, l: Listener)
    ensures PlainOf(objects[id := l], patterns).owners == PlainOf(objects, patterns).owners[id := l.client]
    ensures PlainOf(objects[id := l], patterns).wants == PlainOf(objects, patterns).wants
  {
  }

  lemma PlainRegister(patterns: seq<Source>, more: seq<Source>, s: Source)
    requires multiset(more) == multiset(patterns) + multiset{s}
    ensures PlainOf(map[], more).wants == PlainOf(map[], patterns).wants + {(s.obj, s.key, s.partial)}
  {
    assert forall x :: x in more <==> x in multiset(more);
    assert forall x :: x in patterns <==> x in multiset(patterns);
    assert forall x :: x in more <==> x in patterns || x == s;
    assert s in more;
  }

  lemma PlainRemove(objects: map<ObjId, Listener>, patterns: seq<Source>, rest: seq<Source>, id: ObjId)
    requires forall s :: s in rest <==> s in patterns && s.obj != id
    ensures PlainOf(objects - {id}, rest) == After1(PlainOf(objects, patterns), Remove(id))
  {
    var a, b := PlainOf(objects - {id}, rest), After1(PlainOf(objects, patterns), Remove(id));
    assert a.owners == b.owners;
    assert a.wants == b.wants;
  }

  lemma PlainSame(a: map<ObjId, Listener>, b: map<ObjId, Listener>, patterns: seq<Source>)
    requires SameButStamps(a, b)
    ensures PlainOf(a, patterns) == PlainOf(b, patterns)
  {
  }

  /** Over every run of objects that come, register patterns, and go, the tree and the lists stand for what has been
      registered; the history tells of every allowed event; and each of the first 2^32 - 1 of them whose message could
      be built was sent exactly once to every object it was due at, and to no other. */
  method Run(ops: seq<Op>) returns (bus: Bus)
    ensures fresh(bus) && bus.Valid() && bus.Logged()
    ensures PlainOf(bus.objects, bus.patterns) == After(ops)
    ensures AskedIn(bus.history) == Events(ops)
    ensures forall i :: 0 <= i < |bus.history| && i < PERIOD && bus.history[i].asked.built ==> Delivered(bus.history[i])
  {
    hide RoundOk, Delivered, Numbered, bus.Valid, PlainOf, After1, Event1, SameOwners;
    bus := new Bus();
    assert PlainOf(bus.objects, bus.patterns) == After([]) by { PlainNone(); }
    for n := 0 to |ops|
      invariant fresh(bus) && bus.Valid() && bus.Logged()
      invariant PlainOf(bus.objects, bus.patterns) == After(ops[..n])
      invariant AskedIn(bus.history) == Events(ops[..n])
    {
      assert ops[..n + 1][..n] == ops[..n];
      var rc := bus.Perform(ops[n]);
    }
    assert ops[..|ops|] == ops;
    forall i | 0 <= i < |bus.history| && i < PERIOD && bus.history[i].asked.built ensures Delivered(bus.history[i]) {
      EarlyDelivered(bus.history, i);
    }
  }

  lemma PlainNone()
    ensures PlainOf(map[], []) == After([])
  {
  }

  // ----- beyond the first 2^32 - 1 events -----

  /** One object, listening for "a" only, whose last event was the first of all. */
  ghost predicate HeardFirst(bus: Bus)
    reads bus
  {
    && bus.Valid() && bus.Logged()
    && bus.objects.Keys == {2000} && bus.objects[2000].client == 7
    && bus.last == map[2000 := 1]
    && bus.patterns != []
    && forall p :: p in bus.patterns ==> p.obj == 2000 && p.key == "a" && !p.partial
  }

  lemma OnlyA(bus: Bus)
    requires HeardFirst(bus)
    ensures bus.DueAt(None, "a") == {2000} && bus.DueAt(None, "b") == {}
  {
    hide bus.Valid, bus.Logged;
    assert bus.patterns[0] in bus.patterns;
  }

  method Listening() returns (bus: Bus, ghost s: Source)
    ensures fresh(bus) && bus.Valid() && bus.Logged() && bus.count == 0 && bus.last == map[]
    ensures bus.objects.Keys == {2000} && bus.objects[2000].client == 7
    ensures bus.patterns == [s] && s.obj == 2000 && s.key == "a" && !s.partial
  {
    hide Sorted, Linked, Distinct, RoundOk, Matches, Stamp;
    bus := new Bus();
    bus.AddObject(2000, 7);
    var rc, ev := bus.AllocEventPattern(7, Some(2000), Some("a"), false);
    assert multiset(bus.patterns) == multiset{ev.value};
    assert |bus.patterns| == 1 && bus.patterns[0] in multiset(bus.patterns);
    s := ev.value;
    assert bus.patterns[0] == s;
  }

  method HearFirst() returns (bus: Bus)
    ensures fresh(bus) && HeardFirst(bus) && bus.count == 1
  {
    hide Sorted, Linked, Distinct, OncePerObject, RoundOk, Stamp;
    ghost var s;
    bus, s := Listening();
    assert s in bus.patterns;
    assert bus.DueAt(None, "a") == {2000} by { assert bus.Due(2000, None, "a"); }
    assert bus.StaleAt(None, "a") == {};
    var rc, sent := bus.SendEvent(None, "a", false, true);
    assert Reached(sent) == {2000};
  }

  method PassBy(bus: Bus)
    requires HeardFirst(bus)
    modifies bus
    ensures HeardFirst(bus) && bus.count == old(bus.count) + 1
  {
    hide Sorted, Linked, Distinct, OncePerObject, Stamp, RoundOk, Reached;
    OnlyA(bus);
    assert bus.StaleAt(None, "b") == {};
    var rc, sent := bus.SendEvent(None, "b", false, true);
    assert Reached(sent) == {};
  }

  /** The bound is sharp: an object hears of "a", then 2^32 - 2 events pass it by, and the next "a" is not sent to it
      although it is due. */
  method MissedEvent() returns (bus: Bus)
    ensures fresh(bus) && bus.Valid() && bus.Logged() && |bus.history| == PERIOD + 1
    ensures bus.history[PERIOD].asked == Asked(None, "a", true, {2000})
    ensures bus.history[PERIOD].sent == [] && !Delivered(bus.history[PERIOD])
  {
    hide Sorted, Linked, Distinct, OncePerObject, Stamp, RoundOk;
    bus := HearFirst();
    var n := 1;
    while n < PERIOD
      invariant 1 <= n <= PERIOD
      invariant fresh(bus) && HeardFirst(bus) && bus.count == n
    {
      PassBy(bus);
      n := n + 1;
    }
    MissLast(bus);
  }

  method MissLast(bus: Bus)
    requires HeardFirst(bus) && bus.count == PERIOD
    modifies bus
    ensures bus.Valid() && bus.Logged() && |bus.history| == PERIOD + 1
    ensures bus.history[PERIOD].asked == Asked(None, "a", true, {2000})
    ensures bus.history[PERIOD].sent == [] && !Delivered(bus.history[PERIOD])
  {
    OnlyA(bus);
    hide bus.Valid, OncePerObject, Stamp, Stamped, Remembered, RoundOk;
    assert bus.Stale(2000);
    assert 2000 in bus.DueAt(None, "a");
    assert bus.StaleAt(None, "a") == {2000};
    var rc, again := bus.SendEvent(None, "a", false, true);
    assert Reached(again) == {};
    assert again != [] ==> again[0].obj in Reached(again);
    assert 2000 !in Reached(bus.history[PERIOD].sent);
  }
}
