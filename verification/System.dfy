/** The registry and the event sources together: an object is created and freed in both, and an object with a path is
    announced by an event when it comes and when it goes. */
module System {
  import opened CStrings
  import opened Options
  import opened Ubus
  import R = Registry
  import D = Daemon
  import E = Events

  /** The event side knows exactly the objects that have an owner, and their owners. */
  ghost predicate Agree(objects: map<ObjId, R.Obj>, listeners: map<ObjId, E.Listener>) {
    && R.Owned(objects)
    && (forall o :: o in listeners <==> o in objects && !R.Builtin(o))
    && forall o :: o in listeners ==> objects[o].client == Some(listeners[o].client)
  }

  /** An operation that adds no object and takes none away. */
  lemma AgreeSame(objects: map<ObjId, R.Obj>, a: map<ObjId, E.Listener>, b: map<ObjId, E.Listener>, op: E.Op)
    requires Agree(objects, a) && E.SameOwners(a, b, op) && !op.Add? && !op.Remove?
    ensures Agree(objects, b)
  {
  }

  lemma AgreeAdd(objects: map<ObjId, R.Obj>, o: ObjId, obj: R.Obj, c: ClientId,
                 a: map<ObjId, E.Listener>, b: map<ObjId, E.Listener>)
    requires Agree(objects, a) && o !in objects && obj.client == Some(c) && E.SameOwners(a, b, E.Add(o, c))
    ensures Agree(objects[o := obj], b)
  {
  }

  lemma AgreeStarted()
    ensures Agree(R.Started().objects, map[]) && R.Started().clients == map[]
    ensures E.PlainOf(map[], []) == E.After([]) && E.AskedIn([]) == E.Events([])
  {
  }

  lemma AgreeLeft(objects: map<ObjId, R.Obj>, left: map<ObjId, R.Obj>, listeners: map<ObjId, E.Listener>)
    requires Agree(objects, listeners) && R.SameOwners(objects, left, {}) && R.Owned(left)
    ensures Agree(left, listeners)
  {
  }

  /** The listeners that are left after the given ones have gone. */
  ghost predicate LeftWithout(a: map<ObjId, E.Listener>, b: map<ObjId, E.Listener>, gone: seq<ObjId>) {
    && (forall o :: o in b <==> o in a && o !in gone)
    && forall o :: o in b ==> b[o].client == a[o].client
  }

  lemma LeftNone(a: map<ObjId, E.Listener>)
    ensures LeftWithout(a, a, [])
  {
  }

  lemma LeftMore(a: map<ObjId, E.Listener>, b: map<ObjId, E.Listener>, c: map<ObjId, E.Listener>, gone: seq<ObjId>, o: ObjId)
    requires LeftWithout(a, b, gone) && LeftWithout(b, c, [o])
    ensures LeftWithout(a, c, gone + [o])
  {
  }

  lemma AgreeWithout(objects: map<ObjId, R.Obj>, left: map<ObjId, R.Obj>, dead: set<ObjId>,
                     listeners: map<ObjId, E.Listener>, others: map<ObjId, E.Listener>, gone: seq<ObjId>)
    requires Agree(objects, listeners) && R.SameOwners(objects, left, dead) && R.Owned(left)
    requires LeftWithout(listeners, others, gone) && forall o :: o in gone <==> o in dead
    ensures Agree(left, others)
  {
  }

  // ----- what the event side is asked to do -----

  /** An object comes: if it has a path it is announced, before it can listen itself. */
  ghost function Welcome(o: ObjId, c: ClientId, path: Option<CStr>, fillOk: bool): seq<E.Op> {
    (if path.Some? then [E.Send(None, "ubus.object.add", false, fillOk)] else []) + [E.Add(o, c)]
  }

  /** An object goes: its sources go first, and if it has a path it is announced to be gone. */
  ghost function Farewell(objects: map<ObjId, R.Obj>, o: ObjId, fillOk: bool): seq<E.Op> {
    [E.Remove(o)] + if o in objects && objects[o].path.Some? then [E.Send(None, "ubus.object.remove", false, fillOk)] else []
  }

  /** The names of events that clients may not send. */
  ghost predicate Reserved(event: CStr) {
    exists rest: string :: event == "ubus." + rest
  }

  lemma ReservedPrefix(event: CStr)
    ensures Reserved(event) <==> "ubus." <= event
  {
    if "ubus." <= event { assert event == "ubus." + event[5..]; }
  }

  /** A client sends an event. */
  ghost function Forwarded(c: ClientId, event: Option<CStr>, denied: bool, fillOk: bool): seq<E.Op> {
    if event.None? || Reserved(event.value) then [] else [E.Send(Some(c), event.value, denied, fillOk)]
  }

  /** The objects of a list go, one after the other. */
  ghost function Farewells(objects: map<ObjId, R.Obj>, list: seq<ObjId>, fills: seq<bool>): seq<E.Op> {
    if list == [] then []
    else
      var n := |list| - 1;
      Farewells(objects, list[..n], fills) + Farewell(objects, list[n], n < |fills| && fills[n])
  }

  lemma FarewellsNone(objects: map<ObjId, R.Obj>, fills: seq<bool>)
    ensures Farewells(objects, [], fills) == []
  {
  }

  lemma FarewellsMore(objects: map<ObjId, R.Obj>, list: seq<ObjId>, fills: seq<bool>, i: nat)
    requires i < |list|
    ensures Farewells(objects, list[..i + 1], fills) ==
            Farewells(objects, list[..i], fills) + Farewell(objects, list[i], i < |fills| && fills[i])
  {
    assert list[..i + 1][..i] == list[..i];
  }

  /** The operations on the event side that a command brings about. */
  ghost function OpsFor(r: R.Reg, cmd: Command): seq<E.Op> {
    if cmd.c !in r.clients then []
    else
      match cmd
      case AddCmd(c, typeId, signature, path, denied, randomType, randomObj, fillOk) =>
        var o := D.NewId(r, path, denied, randomObj);
        if o.None? then [] else Welcome(o.value, c, path, fillOk)
      case RemoveCmd(c, obj, fillOk) =>
        if D.RemoveCode(r, c, obj) == OK then Farewell(r.objects, obj.value, fillOk) else []
      case RegisterCmd(c, obj, pattern, denied) => [E.Register(c, obj, pattern, denied)]
      case SendCmd(c, event, denied, fillOk) => Forwarded(c, event, denied, fillOk)
      case DisconnectCmd(c, fills) => Farewells(r.objects, r.clients[c], fills)
      case ConnectCmd(c) => []
      case SubscribeCmd(c, obj, target, sameUser, sameGroup, denied) => []
      case UnsubscribeCmd(c, obj, target) => []
      case MonitorCmd(c, uid, gid, meth) => []
  }

  /** The command as the registry sees it; events are nothing to it. */
  ghost function ForRegistry(cmd: Command): Option<D.Command> {
    match cmd
    case ConnectCmd(c) => Some(D.ConnectCmd(c))
    case AddCmd(c, typeId, signature, path, denied, randomType, randomObj, fillOk) =>
      Some(D.AddObjectCmd(c, typeId, signature, path, denied, randomType, randomObj))
    case RemoveCmd(c, obj, fillOk) => Some(D.RemoveObjectCmd(c, obj))
    case SubscribeCmd(c, obj, target, sameUser, sameGroup, denied) =>
      Some(D.SubscribeCmd(c, obj, target, sameUser, sameGroup, denied))
    case UnsubscribeCmd(c, obj, target) => Some(D.UnsubscribeCmd(c, obj, target))
    case RegisterCmd(c, obj, pattern, denied) => None
    case SendCmd(c, event, denied, fillOk) => None
    case MonitorCmd(c, uid, gid, meth) => Some(D.MonitorCmd(c, uid, gid, meth))
    case DisconnectCmd(c, fills) => Some(D.DisconnectCmd(c))
  }

  ghost predicate Moves(r: R.Reg, cmd: Command, r': R.Reg) {
    var core := ForRegistry(cmd);
    if core.None? then r' == r else D.Moves(r, core.value, r')
  }

  class Bus {
    const d: D.Daemon
    const events: E.Bus
    /** What the event side has been asked to do, and the registry at the start and after each command. */
    ghost var trail: seq<E.Op>
    ghost var regs: seq<R.Reg>

    /** The listeners, the patterns and the events so far are those of the operations. */
    ghost predicate Sources()
      reads `trail, events
    {
      && events.Valid() && events.Logged()
      && E.PlainOf(events.objects, events.patterns) == E.After(trail)
      && E.AskedIn(events.history) == E.Events(trail)
    }

    ghost predicate Valid()
      reads `trail, d, events
    {
      d.Valid() && Sources() && Agree(d.objects, events.objects)
    }

    constructor ()
      ensures Valid() && fresh(d) && fresh(events) && d.View() == R.Started() && trail == [] && regs == [R.Started()]
    {
      hide R.Consistent, R.LogOk, R.Started;
      d := new D.Daemon();
      events := new E.Bus();
      trail, regs := [], [R.Started()];
      new;
      hide d.Valid, events.Valid, events.Logged;
      AgreeStarted();
    }

    method Do(op: E.Op) returns (rc: int)
      requires Sources()
      modifies events, `trail
      ensures Sources() && trail == old(trail) + [op] && E.SameOwners(old(events.objects), events.objects, op)
      ensures op.Register? ==> rc == E.RegisterCode(E.After(old(trail)), op)
      ensures op.Send? ==> rc == E.SendCode(op, events.history)
    {
      hide events.Valid, events.Logged, E.PlainOf, E.AskedIn, E.After1, E.Event1, E.SameOwners, E.RegisterCode, E.SendCode;
      rc := events.Perform(op);
      trail := trail + [op];
      assert trail[..|trail| - 1] == old(trail);
    }

    method Connect(c: ClientId)
      requires Valid() && c !in d.clients
      modifies d
      ensures Valid() && d.View() == R.Connect(old(d.View()), c)
    {
      hide R.Consistent, R.LogOk, Sources;
      d.Connect(c);
    }

    /** ADD_OBJECT: the object is entered in the registry, and announced. */
    method AddObject(c: ClientId, typeId: Option<TypeId>, signature: Option<bool>, path: Option<CStr>, denied: bool,
                     randomType: seq<nat>, randomObj: seq<nat>, fillOk: bool)
      returns (obj: Option<ObjId>)
      requires Valid() && c in d.clients
      modifies d, events, `trail
      ensures Valid() && obj == D.NewId(old(d.View()), path, denied, randomObj)
      ensures D.Moves(old(d.View()), D.AddObjectCmd(c, typeId, signature, path, denied, randomType, randomObj), d.View())
      ensures trail == old(trail) + if obj.Some? then Welcome(obj.value, c, path, fillOk) else []
    {
      hide R.Consistent, R.LogOk, d.Valid, Sources, D.NewId, D.TypeFor, D.OneMoreUse, Agree, E.SameOwners, R.Owned;
      ghost var objects0, listeners := d.objects, events.objects;
      var rc, reply := d.HandleAddObject(c, typeId, signature, path, denied, randomType, randomObj);
      if rc != OK { return None; }
      obj := Some(reply.value.obj);
      if path.Some? {
        var sent := Do(E.Send(None, "ubus.object.add", false, fillOk));
        AgreeSame(objects0, listeners, events.objects, E.Send(None, "ubus.object.add", false, fillOk));
        listeners := events.objects;
      }
      var added := Do(E.Add(obj.value, c));
      AgreeAdd(objects0, obj.value, d.objects[obj.value], c, listeners, events.objects);
    }

    /** REMOVE_OBJECT: the object leaves the registry with its subscriptions, and the tree of patterns with its sources;
        then its path is announced to be gone. */
    method RemoveObject(c: ClientId, objId: Option<ObjId>, fillOk: bool) returns (rc: int)
      requires Valid() && c in d.clients
      modifies d, events, `trail
      ensures Valid() && rc == D.RemoveCode(old(d.View()), c, objId)
      ensures D.Moves(old(d.View()), D.RemoveObjectCmd(c, objId), d.View())
      ensures trail == old(trail) + if rc == OK then Farewell(old(d.objects), objId.value, fillOk) else []
      ensures rc == OK ==> objId.value !in d.objects && forall s :: s in events.patterns ==> s.obj != objId.value
    {
      hide R.Consistent, R.LogOk, R.Free, R.GoneOf, R.Owned, D.Records, d.Valid, Agree, LeftWithout, Sources;
      ghost var r := d.View();
      ghost var listeners := events.objects;
      var named := objId.Some? && objId.value in d.objects && d.objects[objId.value].path.Some?;
      var reply;
      assert R.Owned(d.objects) by { AgreeOwned(d.objects, events.objects); }
      rc, reply := d.HandleRemoveObject(c, objId);
      if rc != OK { return; }
      R.FreeOwners(r, objId.value);
      Forget(objId.value, named, fillOk);
      AgreeWithout(r.objects, d.objects, {objId.value}, listeners, events.objects, [objId.value]);
      NoSources(this, objId.value);
    }

    /** The sources of an object go, and if it has a path it is announced to be gone. */
    method Forget(o: ObjId, named: bool, fillOk: bool)
      requires Sources()
      modifies events, `trail
      ensures Sources() && LeftWithout(old(events.objects), events.objects, [o])
      ensures trail == old(trail) + [E.Remove(o)] + if named then [E.Send(None, "ubus.object.remove", false, fillOk)] else []
    {
      hide Sources;
      var gone := Do(E.Remove(o));
      if named {
        var sent := Do(E.Send(None, "ubus.object.remove", false, fillOk));
      }
    }

    /** A client's objects go, one after the other. */
    method ForgetAll(list: seq<ObjId>, fills: seq<bool>)
      requires Sources()
      modifies events, `trail
      ensures Sources() && LeftWithout(old(events.objects), events.objects, list)
      ensures trail == old(trail) + Farewells(d.objects, list, fills)
    {
      hide Sources, LeftWithout, Farewells;
      assert Farewells(d.objects, [], fills) == [] by { FarewellsNone(d.objects, fills); }
      assert LeftWithout(events.objects, events.objects, []) by { LeftNone(events.objects); }
      for i := 0 to |list|
        invariant Sources() && LeftWithout(old(events.objects), events.objects, list[..i])
        invariant trail == old(trail) + Farewells(d.objects, list[..i], fills)
      {
        assert list[..i + 1] == list[..i] + [list[i]];
        FarewellsMore(d.objects, list, fills, i);
        ghost var before := events.objects;
        Forget(list[i], list[i] in d.objects && d.objects[list[i]].path.Some?, i < |fills| && fills[i]);
        LeftMore(old(events.objects), before, events.objects, list[..i], list[i]);
      }
      assert list[..|list|] == list;
    }

    /** A client disconnects: afterwards nothing refers to it or to one of its objects. */
    method Disconnect(c: ClientId, fills: seq<bool>)
      requires Valid() && c in d.clients
      modifies d, events, `trail
      ensures Valid() && D.Moves(old(d.View()), D.DisconnectCmd(c), d.View())
      ensures trail == old(trail) + Farewells(old(d.objects), old(d.clients)[c], fills)
      ensures c !in d.clients && c !in d.monitors
      ensures forall o :: o in d.objects ==> o in old(d.objects) && old(d.objects)[o].client != Some(c)
      ensures forall s :: s in d.subs ==> d.subs[s].subscriber in d.objects && d.subs[s].target in d.objects
      ensures forall s :: s in events.patterns ==> s.obj in d.objects
    {
      hide R.Consistent, R.LogOk, R.LeftOf, d.Valid, Sources, Farewells, R.GoneOf, D.Records, D.Ended;
      ghost var r := d.View();
      ghost var listeners := events.objects;
      ghost var dead := set o | o in d.objects && d.objects[o].client == Some(c);
      OwnObjects(d, c);
      ForgetAll(d.clients[c], fills);
      d.Disconnect(c);
      R.LeftOwners(r, d.View(), dead);
      AgreeWithout(r.objects, d.objects, dead, listeners, events.objects, r.clients[c]);
      LiveEnds(d);
      LiveSources(this);
    }

    /** SUBSCRIBE and UNSUBSCRIBE. */
    method Watch(c: ClientId, objId: Option<ObjId>, targetId: Option<ObjId>, sameUser: bool, sameGroup: bool, denied: bool)
      returns (rc: int)
      requires Valid() && c in d.clients
      modifies d
      ensures Valid() && rc == D.WatchCode(old(d.View()), c, objId, targetId, sameUser, sameGroup, denied)
      ensures D.Moves(old(d.View()), D.SubscribeCmd(c, objId, targetId, sameUser, sameGroup, denied), d.View())
    {
      hide R.Consistent, R.LogOk, R.AddSub, d.Valid, Sources, D.Moves;
      ghost var r, s := d.View(), d.nextSub;
      rc := d.HandleAddWatch(c, objId, targetId, sameUser, sameGroup, denied);
      if rc == OK {
        R.AddOwners(r, s, R.Sub(objId.value, targetId.value));
        AgreeLeft(r.objects, d.objects, events.objects);
      }
    }

    method Unwatch(c: ClientId, objId: Option<ObjId>, targetId: Option<ObjId>) returns (rc: int)
      requires Valid() && c in d.clients
      modifies d
      ensures Valid() && rc == D.UnwatchCode(old(d.View()), c, objId, targetId)
      ensures D.Moves(old(d.View()), D.UnsubscribeCmd(c, objId, targetId), d.View())
    {
      hide R.Consistent, R.LogOk, R.DropSubs, d.Valid, Sources, D.Moves, D.FirstTo, D.UnwatchCode;
      ghost var r := d.View();
      ghost var gone;
      rc, gone := d.HandleRemoveWatch(c, objId, targetId);
      if rc == OK {
        R.DropOwners(r, {gone.value});
        AgreeLeft(r.objects, d.objects, events.objects);
      }
    }

    method Monitor(c: ClientId, uid: int, gid: int, meth: string) returns (rc: int)
      requires Valid() && c in d.clients
      modifies d
      ensures Valid() && rc == R.MonitorCode(uid, gid, meth)
      ensures D.Moves(old(d.View()), D.MonitorCmd(c, uid, gid, meth), d.View())
    {
      hide R.Consistent, R.LogOk, d.Valid, Sources;
      rc := d.MonitorRecv(c, uid, gid, meth);
    }

    /** The built-in event object: a pattern is registered, or an event is sent. */
    method Register(c: ClientId, obj: Option<ObjId>, pattern: Option<CStr>, denied: bool) returns (rc: int)
      requires Valid()
      modifies events, `trail
      ensures Valid() && trail == old(trail) + [E.Register(c, obj, pattern, denied)]
      ensures rc == E.RegisterCode(E.After(old(trail)), E.Register(c, obj, pattern, denied))
    {
      hide Sources, d.Valid, E.RegisterCode, E.After, E.SameOwners, Agree;
      rc := Do(E.Register(c, obj, pattern, denied));
      AgreeSame(d.objects, old(events.objects), events.objects, E.Register(c, obj, pattern, denied));
    }

    /** `ubusd_forward_event`: names that begin with "ubus." are the daemon's own. */
    method Send(c: ClientId, event: Option<CStr>, denied: bool, fillOk: bool) returns (rc: int)
      requires Valid()
      modifies events, `trail
      ensures Valid() && trail == old(trail) + Forwarded(c, event, denied, fillOk)
      ensures
        if event.None? then rc == INVALID_ARGUMENT
        else if Reserved(event.value) then rc == PERMISSION_DENIED
        else rc == E.SendCode(E.Send(Some(c), event.value, denied, fillOk), events.history)
    {
      hide Sources, d.Valid, E.SameOwners, E.SendCode, Agree;
      if event.None? { return INVALID_ARGUMENT; }
      ReservedPrefix(event.value);
      if "ubus." <= event.value { return PERMISSION_DENIED; }
      rc := Do(E.Send(Some(c), event.value, denied, fillOk));
      AgreeSame(d.objects, old(events.objects), events.objects, E.Send(Some(c), event.value, denied, fillOk));
    }

    /** A command from a client; one that is not connected has no way to send it. */
    method Execute(cmd: Command)
      requires Valid()
      modifies this, d, events
      ensures Valid() && Moves(old(d.View()), cmd, d.View())
      ensures trail == old(trail) + OpsFor(old(d.View()), cmd)
      ensures regs == old(regs) + [d.View()]
    {
      hide Valid, Moves, OpsFor;
      React(cmd);
      regs := regs + [d.View()];
    }

    method React(cmd: Command)
      requires Valid()
      modifies d, events, `trail
      ensures Valid() && Moves(old(d.View()), cmd, d.View())
      ensures trail == old(trail) + OpsFor(old(d.View()), cmd)
    {
      hide Valid, Welcome, Farewell, Farewells, Forwarded, Reserved, D.NewId, E.RegisterCode, E.SendCode, E.After,
        R.LeftOf, R.Free, R.SetMonitors, D.Adds, D.TypeFor, R.MonitorsAfter, D.AddsSub, D.DropsSub, R.MonitorCode;
      if cmd.ConnectCmd? {
        if cmd.c !in d.clients { Connect(cmd.c); }
        return;
      }
      if cmd.c !in d.clients { return; }
      match cmd {
        case AddCmd(c, typeId, signature, path, denied, randomType, randomObj, fillOk) =>
          var obj := AddObject(c, typeId, signature, path, denied, randomType, randomObj, fillOk);
        case RemoveCmd(c, obj, fillOk) => var rc := RemoveObject(c, obj, fillOk);
        case SubscribeCmd(c, obj, target, sameUser, sameGroup, denied) =>
          var rc := Watch(c, obj, target, sameUser, sameGroup, denied);
        case UnsubscribeCmd(c, obj, target) => var rc := Unwatch(c, obj, target);
        case RegisterCmd(c, obj, pattern, denied) => var rc := Register(c, obj, pattern, denied);
        case SendCmd(c, event, denied, fillOk) => var rc := Send(c, event, denied, fillOk);
        case MonitorCmd(c, uid, gid, meth) => var rc := Monitor(c, uid, gid, meth);
        case DisconnectCmd(c, fills) => Disconnect(c, fills);
      }
    }
  }

  lemma AgreeOwned(objects: map<ObjId, R.Obj>, listeners: map<ObjId, E.Listener>)
    requires Agree(objects, listeners)
    ensures R.Owned(objects)
  {
  }

  lemma NoSources(b: Bus, o: ObjId)
    requires b.Sources() && o !in b.events.objects
    ensures forall s :: s in b.events.patterns ==> s.obj != o
  {
  }

  lemma OwnObjects(d: D.Daemon, c: ClientId)
    requires d.Valid() && c in d.clients
    ensures forall o :: o in d.clients[c] <==> o in d.objects && d.objects[o].client == Some(c)
  {
    D.OwnList(d.View(), c);
  }

  lemma LiveEnds(d: D.Daemon)
    requires d.Valid()
    ensures forall s :: s in d.subs ==> d.subs[s].subscriber in d.objects && d.subs[s].target in d.objects
  {
    forall s | s in d.subs ensures d.subs[s].subscriber in d.objects && d.subs[s].target in d.objects {
      assert R.SubOk(d.View(), s);
    }
  }

  lemma LiveSources(b: Bus)
    requires b.Sources()
    ensures forall s :: s in b.events.patterns ==> s.obj in b.events.objects && s in b.events.objects[s.obj].events
  {
  }

  lemma LiveOwners(b: Bus)
    requires b.Valid()
    ensures forall o :: o in b.d.objects && !R.Builtin(o) ==>
      b.d.objects[o].client.Some? && b.d.objects[o].client.value in b.d.clients
  {
  }

  lemma LiveAll(b: Bus)
    requires b.Valid()
    ensures E.PlainOf(b.events.objects, b.events.patterns) == E.After(b.trail)
    ensures E.AskedIn(b.events.history) == E.Events(b.trail)
    ensures forall i :: 0 <= i < |b.events.history| && i < E.PERIOD && b.events.history[i].asked.built ==>
      E.Delivered(b.events.history[i])
    ensures forall s :: s in b.events.patterns ==>
      s.obj in b.d.objects && s.obj in b.events.objects && s in b.events.objects[s.obj].events
    ensures forall o :: o in b.d.objects && !R.Builtin(o) ==>
      b.d.objects[o].client.Some? && b.d.objects[o].client.value in b.d.clients
    ensures forall s :: s in b.d.subs ==> b.d.subs[s].subscriber in b.d.objects && b.d.subs[s].target in b.d.objects
  {
    hide R.Consistent, R.LogOk, E.PlainOf, E.AskedIn, E.Delivered, b.events.Valid, b.events.Logged;
    LiveSources(b);
    LiveEnds(b.d);
    LiveOwners(b);
    forall i | 0 <= i < |b.events.history| && i < E.PERIOD && b.events.history[i].asked.built
      ensures E.Delivered(b.events.history[i])
    {
      EarlyRound(b.events, i);
    }
  }

  lemma EarlyRound(bus: E.Bus, i: nat)
    requires bus.Logged() && i < |bus.history| && i < E.PERIOD && bus.history[i].asked.built
    ensures E.Delivered(bus.history[i])
  {
    hide E.RoundOk, E.Delivered;
    E.EarlyDelivered(bus.history, i);
  }

  // ----- runs -----

  datatype Command =
    | ConnectCmd(c: ClientId)
    | AddCmd(c: ClientId, typeId: Option<TypeId>, signature: Option<bool>, path: Option<CStr>, denied: bool,
             randomType: seq<nat>, randomObj: seq<nat>, fillOk: bool)
    | RemoveCmd(c: ClientId, obj: Option<ObjId>, fillOk: bool)
    | SubscribeCmd(c: ClientId, obj: Option<ObjId>, target: Option<ObjId>, sameUser: bool, sameGroup: bool, denied: bool)
    | UnsubscribeCmd(c: ClientId, obj: Option<ObjId>, target: Option<ObjId>)
    | RegisterCmd(c: ClientId, obj: Option<ObjId>, pattern: Option<CStr>, denied: bool)
    | SendCmd(c: ClientId, event: Option<CStr>, denied: bool, fillOk: bool)
    | MonitorCmd(c: ClientId, uid: int, gid: int, meth: string)
    | DisconnectCmd(c: ClientId, fills: seq<bool>)

  /** The clients that are connected after a run. */
  function Connected(commands: seq<Command>): set<ClientId> {
    if commands == [] then {}
    else Connected1(Connected(commands[..|commands| - 1]), commands[|commands| - 1])
  }

  function Connected1(cs: set<ClientId>, cmd: Command): set<ClientId> {
    if cmd.ConnectCmd? then cs + {cmd.c} else if cmd.DisconnectCmd? then cs - {cmd.c} else cs
  }

  /** The registries of a run, from that of a daemon that has just started. */
  ghost predicate History(commands: seq<Command>, regs: seq<R.Reg>) {
    && |regs| == |commands| + 1 && regs[0] == R.Started()
    && forall i :: 0 <= i < |commands| ==> Moves(regs[i], commands[i], regs[i + 1])
  }

  /** Everything the event side is asked to do in a run. */
  ghost function Trail(commands: seq<Command>, regs: seq<R.Reg>): seq<E.Op>
    requires |commands| < |regs|
  {
    if commands == [] then []
    else
      var n := |commands| - 1;
      Trail(commands[..n], regs[..n + 1]) + OpsFor(regs[n], commands[n])
  }

  lemma MovesConnected(r: R.Reg, cmd: Command, r': R.Reg)
    requires Moves(r, cmd, r') && forall c :: c in r.monitors ==> c in r.clients
    ensures r'.clients.Keys == Connected1(r.clients.Keys, cmd)
    ensures forall c :: c in r'.monitors ==> c in r'.clients
  {
    hide D.Moves;
    var core := ForRegistry(cmd);
    if core.Some? { D.MovesClients(r, core.value, r'); }
  }

  lemma {:induction false} RunConnected(commands: seq<Command>, regs: seq<R.Reg>)
    requires History(commands, regs)
    ensures regs[|commands|].clients.Keys == Connected(commands)
    ensures forall c :: c in regs[|commands|].monitors ==> c in regs[|commands|].clients
  {
    hide Moves, Connected1;
    if commands != [] {
      var n := |commands| - 1;
      RunConnected(commands[..n], regs[..n + 1]);
      MovesConnected(regs[n], commands[n], regs[n + 1]);
    }
  }

  /** Every run takes the registry from command to command, and the event side through the operations that the commands
      bring about: the patterns, and the events with those due to hear them, are what those operations say, and each of
      the first 2^32 - 1 events whose message could be built was sent exactly once to those.  No client passes for the
      daemon.  The registry stays consistent and in agreement with the event side: whatever is referred to is live, and
      every object but the built-in ones belongs to a client that has connected and not disconnected. */
  method Run(commands: seq<Command>) returns (b: Bus)
    ensures fresh(b) && fresh(b.d) && fresh(b.events) && b.Valid()
    ensures History(commands, b.regs) && b.regs[|commands|] == b.d.View()
    ensures E.PlainOf(b.events.objects, b.events.patterns) == E.After(Trail(commands, b.regs))
    ensures E.AskedIn(b.events.history) == E.Events(Trail(commands, b.regs))
    ensures forall i :: 0 <= i < |b.events.history| && i < E.PERIOD && b.events.history[i].asked.built ==>
      E.Delivered(b.events.history[i])
    ensures forall r :: r in b.events.history && Reserved(r.asked.event) ==> r.asked.sender.None?
    ensures b.d.clients.Keys == Connected(commands)
    ensures forall s :: s in b.events.patterns ==> s.obj in b.d.objects && s in b.events.objects[s.obj].events
    ensures forall o :: o in b.d.objects && !R.Builtin(o) ==>
      b.d.objects[o].client.Some? && b.d.objects[o].client.value in Connected(commands)
    ensures forall s :: s in b.d.subs ==> b.d.subs[s].subscriber in b.d.objects && b.d.subs[s].target in b.d.objects
  {
    hide b.Valid, Moves, OpsFor, Connected, Trail, E.PlainOf, E.AskedIn, E.After, E.Events, E.Delivered, R.Started, Reserved;
    b := new Bus();
    assert Trail([], b.regs) == [] by { TrailStart(b.regs); }
    for i := 0 to |commands|
      invariant fresh(b) && fresh(b.d) && fresh(b.events) && b.Valid()
      invariant History(commands[..i], b.regs) && b.regs[i] == b.d.View()
      invariant b.trail == Trail(commands[..i], b.regs)
    {
      ghost var before := b.regs;
      b.Execute(commands[i]);
      TrailMore(commands, before, b.d.View(), i);
    }
    assert commands[..|commands|] == commands;
    RunConnected(commands, b.regs);
    LiveAll(b);
    NoneForged(b.events.history, commands, b.regs);
  }

  /** An event with a reserved name is the daemon's. */
  ghost predicate Honest(sender: Option<ClientId>, event: CStr) {
    Reserved(event) ==> sender.None?
  }

  ghost predicate HonestOps(ops: seq<E.Op>) {
    forall op :: op in ops && op.Send? ==> Honest(op.sender, op.event)
  }

  lemma {:induction false} FarewellsHonest(objects: map<ObjId, R.Obj>, list: seq<ObjId>, fills: seq<bool>)
    ensures HonestOps(Farewells(objects, list, fills))
  {
    if list != [] { FarewellsHonest(objects, list[..|list| - 1], fills); }
  }

  lemma {:induction false} TrailHonest(commands: seq<Command>, regs: seq<R.Reg>)
    requires |commands| < |regs|
    ensures HonestOps(Trail(commands, regs))
  {
    hide Reserved, D.NewId, D.RemoveCode;
    if commands != [] {
      var n := |commands| - 1;
      TrailHonest(commands[..n], regs[..n + 1]);
      if commands[n].DisconnectCmd? && commands[n].c in regs[n].clients {
        FarewellsHonest(regs[n].objects, regs[n].clients[commands[n].c], commands[n].fills);
      }
      assert HonestOps(OpsFor(regs[n], commands[n]));
    }
  }

  lemma {:induction false} EventsHonest(ops: seq<E.Op>)
    requires HonestOps(ops)
    ensures forall a :: a in E.Events(ops) ==> Honest(a.sender, a.event)
  {
    hide Reserved, E.DueIn;
    if ops != [] {
      var n := |ops| - 1;
      assert ops[n] in ops;
      EventsHonest(ops[..n]);
    }
  }

  /** So no client can pass for the daemon: every event with a reserved name comes from the daemon itself. */
  lemma NoneForged(history: seq<E.Round>, commands: seq<Command>, regs: seq<R.Reg>)
    requires |commands| < |regs| && E.AskedIn(history) == E.Events(Trail(commands, regs))
    ensures forall r :: r in history ==> Honest(r.asked.sender, r.asked.event)
  {
    hide Reserved, Trail, E.Events;
    TrailHonest(commands, regs);
    EventsHonest(Trail(commands, regs));
    forall r | r in history ensures Honest(r.asked.sender, r.asked.event) {
      var i :| 0 <= i < |history| && history[i] == r;
      E.AskedAt(history, i);
      assert r.asked in E.AskedIn(history);
    }
  }

  lemma TrailStart(regs: seq<R.Reg>)
    requires 0 < |regs|
    ensures Trail([], regs) == []
  {
  }

  lemma TrailMore(commands: seq<Command>, regs: seq<R.Reg>, r: R.Reg, i: nat)
    requires i < |commands| && |regs| == i + 1
    ensures Trail(commands[..i + 1], regs + [r]) == Trail(commands[..i], regs) + OpsFor(regs[i], commands[i])
  {
    assert commands[..i + 1][..i] == commands[..i] && (regs + [r])[..i + 1] == regs;
  }
}
