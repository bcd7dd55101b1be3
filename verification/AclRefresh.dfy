/** The client's copy of the access lists is refreshed by one static request (`libubus-acl.c`): while it is
    under way, further triggers are remembered and answered by one more query. */
module AclRefresh {

  datatype Event = EventArrives(typ: string) | RequestCompletes | ConnectionLost

  /** Only the sequence event triggers a refresh. */
  predicate Trigger(e: Event) {
    e == EventArrives("ubus.acl.sequence")
  }

  /** How many events are triggers, and after how many events the last of them has come. */
  function Triggers(events: seq<Event>): nat {
    multiset(events)[EventArrives("ubus.acl.sequence")]
  }

  function LastTrigger(events: seq<Event>): nat {
    if events == [] then 0
    else if Trigger(events[|events| - 1]) then |events| else LastTrigger(events[..|events| - 1])
  }

  /** After how many events each query is started, the first of them at once: a trigger starts one if none is under way,
      and the end of one starts another if there has been a trigger since its start. */
  function Starts(events: seq<Event>): (starts: seq<nat>)
    ensures starts != []
    decreases |events|, 0
  {
    if events == [] then [0]
    else
      var before, e := events[..|events| - 1], events[|events| - 1];
      if (if Trigger(e) then !Busy(before) else !e.EventArrives? && Behind(before)) then Starts(before) + [|events|]
      else Starts(before)
  }

  /** A query is under way. */
  predicate Busy(events: seq<Event>)
    decreases |events|, 0
  {
    if events == [] then true
    else
      var before, e := events[..|events| - 1], events[|events| - 1];
      match e
      case EventArrives(_) => Trigger(e) || Busy(before)
      case RequestCompletes => Behind(before)
      case ConnectionLost => false
  }

  /** And there has been a trigger since its start. */
  predicate Behind(events: seq<Event>)
    decreases |events|, 2
  {
    Busy(events) && LastQuery(events) < LastTrigger(events)
  }

  function LastQuery(events: seq<Event>): nat
    decreases |events|, 1
  {
    Starts(events)[|Starts(events)| - 1]
  }

  /** No trigger is lost: after each of the events a query has been started no earlier, or another will be as soon as the
      one under way ends. */
  lemma {:induction false} NoneLost(events: seq<Event>)
    ensures LastTrigger(events) <= LastQuery(events) || Behind(events)
    ensures LastQuery(events) <= |events| && LastTrigger(events) <= |events|
  {
    if events != [] { NoneLost(events[..|events| - 1]); }
  }

  /** And none leads to more than one query. */
  lemma {:induction false} NoneTwice(events: seq<Event>)
    ensures |Starts(events)| + (if Behind(events) then 1 else 0) <= 1 + Triggers(events)
  {
    if events != [] {
      assert events == events[..|events| - 1] + [events[|events| - 1]];
      NoneTwice(events[..|events| - 1]);
      NoneLost(events[..|events| - 1]);
    }
  }

  /** The event with this number is a trigger. */
  predicate TriggerAt(events: seq<Event>, n: nat) {
    0 < n <= |events| && Trigger(events[n - 1])
  }

  lemma {:induction false} LastTriggerAt(events: seq<Event>)
    ensures 0 < LastTrigger(events) ==> TriggerAt(events, LastTrigger(events))
  {
    if events != [] { LastTriggerAt(events[..|events| - 1]); }
  }

  /** Every query but the first has a trigger of its own, which has come since the one before was started. */
  lemma {:induction false} OwnTrigger(events: seq<Event>, i: nat)
    requires 0 < i < |Starts(events)|
    ensures exists n :: Starts(events)[i - 1] < n <= Starts(events)[i] && TriggerAt(events, n)
  {
    var before, e := events[..|events| - 1], events[|events| - 1];
    if i < |Starts(before)| {
      OwnTrigger(before, i);
      var n :| Starts(before)[i - 1] < n <= Starts(before)[i] && TriggerAt(before, n);
      assert TriggerAt(events, n);
    } else {
      NoneLost(before);
      LastTriggerAt(before);
      assert TriggerAt(events, if Trigger(e) then |events| else LastTrigger(before));
    }
  }

  class AclClient {
    /** `acl_query_active`, `acl_query_deferred`, and whether `acl_req` is in the list of requests. */
    var active: bool
    var deferred: bool
    var linked: bool
    var queries: nat

    /** The events so far. */
    ghost var heard: seq<Event>

    /** The request is in the list exactly while a query is active. */
    ghost predicate Linked()
      reads this
    {
      (linked <==> active) && (deferred ==> active)
    }

    /** The fields say which queries the events so far call for. */
    ghost predicate Valid()
      reads this
    {
      Linked() && active == Busy(heard) && deferred == Behind(heard) && queries == |Starts(heard)|
    }

    constructor ()
      ensures Linked() && !active && queries == 0 && heard == []
    {
      active, deferred, linked, queries, heard := false, false, false, 0, [];
    }

    /** `ubus_invoke_async` on the static request: clearing it while it is in the list would corrupt the
        list, so it must not be. */
    method StartRequest()
      requires !linked
      modifies this`linked, this`queries
      ensures linked && queries == old(queries) + 1
    {
      queries := queries + 1;
      linked := true;
    }

    /** `acl_query`. */
    method Query()
      requires Linked()
      modifies this`active, this`deferred, this`linked, this`queries
      ensures Linked() && active
      ensures if old(active) then deferred && queries == old(queries) else !deferred && queries == old(queries) + 1
    {
      if active {
        deferred := true;
        return;
      }
      active := true;
      StartRequest();
    }

    /** `acl_subscribe_cb`. */
    method OnEvent(typ: string)
      requires Valid()
      modifies this
      ensures Valid() && heard == old(heard) + [EventArrives(typ)]
    {
      heard := heard + [EventArrives(typ)];
      Last(heard);
      if typ != "ubus.acl.sequence" { return; }
      Query();
    }

    /** The request gets its status, or is flushed with the connection: it leaves the list, and the callback
        starts the deferred query. */
    method OnComplete()
      requires Linked() && linked
      modifies this`active, this`deferred, this`linked, this`queries
      ensures Linked() && active == old(deferred) && !deferred
      ensures queries == old(queries) + if old(deferred) then 1 else 0
    {
      linked := false;
      active := false;
      if !deferred { return; }
      deferred := false;
      Query();
    }

    /** `ubus_flush_requests` as far as this request goes: it ends, although completing the request may put it
        back into the list. */
    method Flush()
      requires Linked()
      modifies this`active, this`deferred, this`linked, this`queries
      ensures Linked() && !linked && queries == old(queries) + if old(deferred) then 1 else 0
    {
      while linked
        invariant Linked()
        invariant queries + (if deferred then 1 else 0) == old(queries) + if old(deferred) then 1 else 0
        decreases deferred, linked
      {
        OnComplete();
      }
    }

    /** One event of a run. */
    method Step(e: Event)
      requires Valid()
      modifies this
      ensures Valid() && heard == old(heard) + [e]
    {
      match e {
        case EventArrives(typ) => OnEvent(typ);
        case RequestCompletes =>
          heard := heard + [e];
          Last(heard);
          if linked { OnComplete(); }
        case ConnectionLost =>
          heard := heard + [e];
          Last(heard);
          Flush();
      }
    }
  }

  /** The last event and those before it. */
  lemma Last(events: seq<Event>)
    requires events != []
    ensures forall before: seq<Event>, e: Event :: events == before + [e] ==>
      events[..|events| - 1] == before && events[|events| - 1] == e
    ensures LastQuery(events) <= |events| && LastTrigger(events) <= |events|
    ensures LastQuery(events[..|events| - 1]) < |events| && LastTrigger(events[..|events| - 1]) < |events|
  {
    NoneLost(events);
    NoneLost(events[..|events| - 1]);
  }

  /** Over every interleaving of events and completions the queries sent are exactly those that the events call for: the
      last trigger, and with it every one before, has been followed by a query that was started no earlier, or is deferred
      behind a query that is active; none leads to more than one query; and once the connection is lost, none is left. */
  method Run(events: seq<Event>) returns (a: AclClient)
    ensures fresh(a) && a.Valid() && a.heard == events
    ensures LastTrigger(events) <= LastQuery(events) <= |events| || (a.deferred && a.linked)
    ensures a.queries == |Starts(events)| <= 1 + Triggers(events)
    ensures forall i :: 0 < i < a.queries ==> exists n :: Starts(events)[i - 1] < n <= Starts(events)[i] && TriggerAt(events, n)
    ensures events != [] && events[|events| - 1] == ConnectionLost ==> LastTrigger(events) <= LastQuery(events) && !a.linked
  {
    a := new AclClient();
    a.Query();
    for i := 0 to |events|
      invariant fresh(a) && a.Valid() && a.heard == events[..i]
    {
      assert events[..i + 1] == events[..i] + [events[i]];
      a.Step(events[i]);
    }
    assert events[..|events|] == events;
    NoneLost(events);
    NoneTwice(events);
    forall i | 0 < i < a.queries ensures exists n :: Starts(events)[i - 1] < n <= Starts(events)[i] && TriggerAt(events, n) {
      OwnTrigger(events, i);
    }
  }
}
