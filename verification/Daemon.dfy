/** The daemon's object bookkeeping as it runs (`ubusd_obj.c`, the handlers of `ubusd_proto.c`,
    `ubusd_monitor.c`, `ubusd_id.c` and the disconnect of `ubusd_main.c`): every operation changes
    the registry in place, one list at a time, and is proved to make a change of `Registry`. */
module Daemon {
  import opened CStrings
  import opened Options
  import opened Seqs
  import opened Registry
  import opened Ubus

  /** The random source offers no free id. */
  predicate Exhausted(random: seq<nat>, used: set<nat>) {
    forall n :: n in random ==> n in used || n < SYSTEM_OBJECT_MAX
  }

  /** The first free id that it offers. */
  function FirstFree(random: seq<nat>, used: set<nat>): (id: Option<nat>)
    ensures id.Some? ==> id.value !in used && SYSTEM_OBJECT_MAX <= id.value && id.value in random
    ensures id.None? <==> Exhausted(random, used)
  {
    if random == [] then None
    else if random[0] !in used && SYSTEM_OBJECT_MAX <= random[0] then Some(random[0])
    else FirstFree(random[1..], used)
  }

  /** `ubus_alloc_id` for a random id, given what the random source returns: an id that is not
      reserved and not in the tree, or none if the source runs dry. */
  method AllocId(used: set<nat>, random: seq<nat>) returns (id: Option<nat>)
    ensures id == FirstFree(random, used)
  {
    assert random[0..] == random;
    for i := 0 to |random|
      invariant FirstFree(random[i..], used) == FirstFree(random, used)
    {
      if SYSTEM_OBJECT_MAX <= random[i] && random[i] !in used { return Some(random[i]); }
      assert random[i..][1..] == random[i + 1..];
    }
    return None;
  }

  /** The type of a new object.  A type id stands for the type it names, if there is one; a signature, which counts only
      where there is no type id, makes a new type if it is well formed and the random source offers a free id. */
  function TypeFor(types: map<TypeId, nat>, typeId: Option<TypeId>, signature: Option<bool>, random: seq<nat>): Option<TypeId> {
    if typeId.Some? then (if typeId.value in types then typeId else None)
    else if signature == Some(true) then FirstFree(random, types.Keys)
    else None
  }

  /** How many uses a type has. */
  function Uses(types: map<TypeId, nat>, t: TypeId): nat {
    if t in types then types[t] else 0
  }

  /** The type, if it has no other use. */
  function OnlyUse(types: map<TypeId, nat>, typ: Option<TypeId>): Option<TypeId> {
    if typ.Some? && Uses(types, typ.value) == 1 then typ else None
  }

  /** One type has one more use, and all others as many as before. */
  ghost predicate OneMoreUse(types: map<TypeId, nat>, typ: Option<TypeId>, types': map<TypeId, nat>) {
    && types'.Keys == types.Keys + (if typ.Some? then {typ.value} else {})
    && forall t: TypeId :: Uses(types', t) == Uses(types, t) + if typ == Some(t) then 1 else 0
  }

  /** The id of a new object: the first free one, unless its path is refused or taken. */
  function NewId(r: Reg, objPath: Option<CStr>, denied: bool, random: seq<nat>): (o: Option<ObjId>)
    ensures o.Some? ==> o.value !in r.objects && SYSTEM_OBJECT_MAX <= o.value
  {
    if objPath.Some? && (denied || objPath.value in r.path) then None else FirstFree(random, r.objects.Keys)
  }

  /** An object is added to the registry, as the first of its client's. */
  ghost predicate Adds(r: Reg, c: ClientId, o: ObjId, objPath: Option<CStr>, typ: Option<TypeId>, r': Reg) {
    && c in r.clients && o !in r.objects
    && r'.objects == r.objects[o := Obj(Some(c), objPath, typ, [], [])]
    && OneMoreUse(r.types, typ, r'.types)
    && r'.clients == r.clients[c := [o] + r.clients[c]]
    && r'.path == (if objPath.None? then r.path else r.path[objPath.value := o])
    && r'.subs == r.subs && r'.monitors == r.monitors
  }

  lemma RefOneMore(types: map<TypeId, nat>, typ: Option<TypeId>)
    ensures OneMoreUse(types, typ, Ref(types, typ))
  {
  }

  // ----- single records, on values -----

  /** Taking one record out touches only its two ends. */
  lemma DropOne(r: Reg, s: SubId)
    requires SubsOk(r) && s in r.subs
    ensures SubOk(r, s)
    ensures var t, o := r.subs[s].target, r.subs[s].subscriber;
      && t != o
      && DropSubs(r, {s}).objects ==
         r.objects[t := r.objects[t].(subscribers := Without(r.objects[t].subscribers, {s}))]
                  [o := r.objects[o].(targets := Without(r.objects[o].targets, {s}))]
  {
    hide Without;
    assert SubOk(r, s);
    var t, o := r.subs[s].target, r.subs[s].subscriber;
    forall k | k in r.objects
      ensures k != t ==> Without(r.objects[k].subscribers, {s}) == r.objects[k].subscribers
      ensures k != o ==> Without(r.objects[k].targets, {s}) == r.objects[k].targets
    {
      assert ListsOk(r, k);
      if k != t { WithoutNone(r.objects[k].subscribers, {s}); }
      if k != o { WithoutNone(r.objects[k].targets, {s}); }
    }
  }

  /** Taking one record out keeps the registry consistent, and only its target can lose its last
      subscriber. */
  lemma DropOneFacts(r: Reg, s: SubId)
    requires Consistent(r) && s in r.subs
    ensures Consistent(DropSubs(r, {s}))
    ensures var t, o := r.subs[s].target, r.subs[s].subscriber;
      && t in r.objects && o in r.objects && t != o
      && HasSubscribers(r.objects, t)
      && DropSubs(r, {s}) == r.(subs := r.subs - {s}, objects :=
           r.objects[t := r.objects[t].(subscribers := Without(r.objects[t].subscribers, {s}))]
                    [o := r.objects[o].(targets := Without(r.objects[o].targets, {s}))])
      && forall k :: k != t ==> HasSubscribers(DropSubs(r, {s}).objects, k) == HasSubscribers(r.objects, k)
  {
    DropOne(r, s);
    DropSubsConsistent(r, {s});
  }

  class Daemon {
    var clients: map<ClientId, seq<ObjId>>
    var objects: map<ObjId, Obj>
    var types: map<TypeId, nat>
    var path: map<CStr, ObjId>
    var subs: map<SubId, Sub>
    var monitors: seq<ClientId>
    /** The notes handed to object owners, and a supply of addresses for records. */
    var out: seq<Note>
    var nextSub: SubId
    /** The registry at the start and after each command of a run. */
    ghost var regs: seq<Reg>

    ghost function View(): Reg
      reads `clients, `objects, `types, `path, `subs, `monitors
    {
      Reg(clients, objects, types, path, subs, monitors)
    }

    ghost predicate Valid()
      reads `clients, `objects, `types, `path, `subs, `monitors, `out, `nextSub
    {
      && Consistent(View())
      && LogOk(out, objects)
      && forall s :: s in subs ==> s < nextSub
    }

    constructor ()
      ensures Valid() && View() == Started() && out == [] && regs == [Started()]
    {
      clients, objects, types, path, subs, monitors := map[], Started().objects, map[], map[], map[], [];
      out, nextSub, regs := [], 0, [Started()];
      new;
      StartedConsistent();
    }

    // ----- subscriptions -----

    /** `ubus_subscribe`: the record goes to the head of both lists, and the target's owner hears of
        its first subscriber. */
    method Subscribe(obj: ObjId, target: ObjId)
      requires Valid() && obj in objects && target in objects
      requires objects[obj].client.Some? && objects[target].client.Some?
      requires objects[obj].client != objects[target].client
      modifies this
      ensures Valid()
      ensures old(nextSub) !in old(subs) && View() == AddSub(old(View()), old(nextSub), Sub(obj, target))
      ensures out == old(out) + (if old(objects)[target].subscribers == [] then [Activity(target, true)] else [])
    {
      hide Consistent;
      var first := objects[target].subscribers == [];
      var s := nextSub;
      ghost var objects0 := objects;
      AddSubConsistent(View(), s, Sub(obj, target));
      nextSub := nextSub + 1;
      subs := subs[s := Sub(obj, target)];
      objects := objects[target := objects[target].(subscribers := [s] + objects[target].subscribers)];
      objects := objects[obj := objects[obj].(targets := [s] + objects[obj].targets)];
      LogStep(out, objects0, objects, target);
      if first {
        out := out + [Activity(target, true)];
      }
    }

    /** `ubus_unsubscribe`: the record leaves both lists, and the target's owner hears of the loss of
        its last subscriber. */
    method Unsubscribe(s: SubId)
      requires Valid() && s in subs
      modifies this`objects, this`subs, this`out
      ensures Valid()
      ensures View() == DropSubs(old(View()), {s})
      ensures var t := old(subs)[s].target;
        t in objects && out == old(out) + (if objects[t].subscribers == [] then [Activity(t, false)] else [])
    {
      hide Consistent, Without, DropSubs, HasSubscribers;
      DropOneFacts(View(), s);
      ghost var objects0 := objects;
      var t, o := subs[s].target, subs[s].subscriber;
      objects := objects[t := objects[t].(subscribers := Without(objects[t].subscribers, {s}))];
      objects := objects[o := objects[o].(targets := Without(objects[o].targets, {s}))];
      subs := subs - {s};
      LogStep(out, objects0, objects, t);
      assert HasSubscribers(objects, t) == (objects[t].subscribers != []) by { SubscribersOf(objects, t); }
      if objects[t].subscribers == [] {
        out := out + [Activity(t, false)];
      }
    }

    /** `ubus_notify_unsubscribe`: the subscriber's owner hears that the target is gone. */
    method NotifyUnsubscribe(s: SubId)
      requires Valid() && s in subs
      modifies this`objects, this`subs, this`out
      ensures Valid()
      ensures View() == DropSubs(old(View()), {s})
      ensures GoneOf(out) == GoneOf(old(out)) + [old(subs)[s]]
    {
      hide Consistent, DropSubs, GoneOf;
      LogGone(out, objects, subs[s]);
      ActivitySnoc(out, Gone(subs[s]), 0);
      out := out + [Gone(subs[s])];
      ghost var mid := out;
      Unsubscribe(s);
      if out != mid { ActivitySnoc(mid, out[|out| - 1], 0); }
    }

    // ----- freeing -----

    /** The first loop of `ubusd_free_object`: the object's own subscriptions end. */
    method DropTargets(o: ObjId)
      requires Valid() && o in objects
      modifies this`objects, this`subs, this`out
      ensures Valid() && o in objects && objects[o].targets == []
      ensures View() == DropSubs(old(View()), Elements(old(objects)[o].targets))
      ensures GoneOf(out) == GoneOf(old(out))
    {
      hide Consistent, DropSubs, GoneOf, LogOk;
      ghost var gone: set<SubId> := {};
      DropNone(View());
      while objects[o].targets != []
        invariant Valid() && o in objects
        invariant View() == DropSubs(old(View()), gone)
        invariant gone + Elements(objects[o].targets) == Elements(old(objects)[o].targets)
        invariant GoneOf(out) == GoneOf(old(out))
        decreases |objects[o].targets|
      {
        var s := objects[o].targets[0];
        HeadTarget(View(), o);
        DropSubsTwice(old(View()), gone, {s});
        ghost var mid := out;
        Unsubscribe(s);
        if out != mid { ActivitySnoc(mid, out[|out| - 1], 0); }
        gone := gone + {s};
      }
      assert gone == Elements(old(objects)[o].targets);
    }

    /** The second loop: every subscriber hears of the end, once per record and in list order. */
    method DropSubscribers(o: ObjId)
      requires Valid() && o in objects
      modifies this`objects, this`subs, this`out
      ensures Valid() && o in objects && objects[o].subscribers == []
      ensures View() == DropSubs(old(View()), Elements(old(objects)[o].subscribers))
      ensures GoneOf(out) == GoneOf(old(out)) + Records(old(subs), old(objects)[o].subscribers)
    {
      hide Consistent, DropSubs, GoneOf, LogOk;
      ghost var gone: set<SubId> := {};
      DropNone(View());
      while objects[o].subscribers != []
        invariant Valid() && o in objects
        invariant View() == DropSubs(old(View()), gone)
        invariant forall s :: s in subs ==> s in old(subs) && subs[s] == old(subs)[s]
        invariant gone + Elements(objects[o].subscribers) == Elements(old(objects)[o].subscribers)
        invariant GoneOf(out) + Records(old(subs), objects[o].subscribers) ==
                  GoneOf(old(out)) + Records(old(subs), old(objects)[o].subscribers)
        decreases |objects[o].subscribers|
      {
        var s := objects[o].subscribers[0];
        HeadSubscriber(View(), o);
        DropSubsTwice(old(View()), gone, {s});
        DropSubsParts(View(), {s});
        Assoc(GoneOf(out), [subs[s]], Records(old(subs), objects[o].subscribers[1..]));
        NotifyUnsubscribe(s);
        gone := gone + {s};
      }
      assert gone == Elements(old(objects)[o].subscribers);
    }

    /** `ubus_unref_object_type`. */
    method UnrefType(t: TypeId)
      requires t in types && 0 < types[t]
      modifies this`types
      ensures types == Unref(old(types), Some(t))
    {
      types := types[t := types[t] - 1];
      if types[t] > 0 {
        return;
      }
      types := types - {t};
    }

    /** `ubusd_free_object`: both loops, then the object leaves the path tree, its client's list and
        the tree of objects, and its type loses a use. */
    method FreeObject(o: ObjId)
      requires Valid() && o in objects
      modifies this`clients, this`objects, this`types, this`path, this`subs, this`out
      ensures Valid()
      ensures View() == Free(old(View()), o)
      ensures GoneOf(out) == GoneOf(old(out)) + Records(old(subs), old(objects)[o].subscribers)
    {
      hide DropSubs, GoneOf, LogOk, Consistent, HasSubscribers, Delete;
      FreeOrder(View(), o);
      DropTargets(o);
      DropSubscribers(o);
      ghost var v := View();
      DeleteParts(v, o);
      LogDelete(out, objects, o);
      DeleteFacts(v, o);
      var ob := objects[o];
      if ob.path.Some? {
        path := path - {ob.path.value};
      }
      if ob.client.Some? {
        var c := ob.client.value;
        clients := clients[c := Without(clients[c], {o})];
      }
      objects := objects - {o};
      if ob.typ.Some? {
        UnrefType(ob.typ.value);
      }
    }

    // ----- clients -----

    method Connect(c: ClientId)
      requires Valid() && c !in clients
      modifies this`clients
      ensures Valid() && View() == Registry.Connect(old(View()), c)
    {
      hide Consistent, LogOk;
      ConnectConsistent(View(), c);
      clients := clients[c := []];
    }

    /** `ubusd_monitor_disconnect`: the first monitor of the client goes; there is only one. */
    method MonitorDisconnect(c: ClientId)
      requires Valid()
      modifies this`monitors
      ensures Valid() && View() == SetMonitors(old(View()), Without(old(monitors), {c}))
    {
      hide LogOk, ClientsOk, PathOk, TypesOk, SubsOk, Without;
      var i := 0;
      while i < |monitors| && monitors[i] != c
        invariant 0 <= i <= |monitors|
        invariant c !in monitors[..i]
      {
        i := i + 1;
      }
      TakeOut(monitors, i, c);
      WithoutDistinct(monitors, {c});
      SetMonitorsConsistent(View(), Without(monitors, {c}));
      if i < |monitors| {
        monitors := monitors[..i] + monitors[i + 1..];
      }
    }

    /** `ubusd_monitor_connect`: an old monitor of the client is replaced. */
    method MonitorConnect(c: ClientId)
      requires Valid() && c in clients
      modifies this`monitors
      ensures Valid() && View() == SetMonitors(old(View()), Without(old(monitors), {c}) + [c])
    {
      hide LogOk, ClientsOk, PathOk, TypesOk, SubsOk, Without;
      MonitorDisconnect(c);
      SetMonitorsConsistent(View(), monitors + [c]);
      monitors := monitors + [c];
    }

    /** `ubusd_monitor_recv`: only root may monitor. */
    method MonitorRecv(c: ClientId, uid: int, gid: int, meth: string) returns (rc: int)
      requires Valid() && c in clients
      modifies this`monitors
      ensures Valid() && (View() == SetMonitors(old(View()), monitors))
      ensures rc == MonitorCode(uid, gid, meth) && monitors == MonitorsAfter(old(monitors), c, uid, gid, meth)
      ensures rc == OK ==> (c in monitors <==> meth == "add")
      ensures forall k :: k != c ==> (k in monitors <==> k in old(monitors))
      ensures rc != OK ==> monitors == old(monitors)
    {
      hide LogOk, Consistent, Without;
      if uid != 0 || gid != 0 { return PERMISSION_DENIED; }
      if meth == "add" {
        MonitorConnect(c);
        return OK;
      }
      if meth == "remove" {
        MonitorDisconnect(c);
        return OK;
      }
      return METHOD_NOT_FOUND;
    }

    /** The loop of `ubusd_proto_free_client`: the objects are freed one by one from the head of the client's list. */
    method FreeObjects(c: ClientId)
      requires Valid() && c in clients
      modifies this`clients, this`objects, this`types, this`path, this`subs, this`out
      ensures Valid() && c in clients && clients[c] == [] && clients.Keys == old(clients).Keys
      ensures LeftOf(old(View()), View(), set o | o in old(objects) && old(objects)[o].client == Some(c))
      ensures GoneOf(out) == GoneOf(old(out)) + Records(old(subs), Ended(old(View()), old(clients)[c]))
    {
      hide LogOk, Consistent, Without, GoneOf, Free, LeftOf, DropSubs, DropFrom, Records, Ended;
      ghost var start := View();
      ghost var mine := set o | o in objects && objects[o].client == Some(c);
      ghost var freed: set<ObjId> := {};
      LeftAll(View());
      OwnList(View(), c);
      while clients[c] != []
        invariant Valid() && c in clients && clients.Keys == old(clients).Keys
        invariant LeftOf(start, View(), freed) && freed + Elements(clients[c]) == mine
        invariant GoneOf(out) + Records(start.subs, Ended(start, clients[c])) ==
                  GoneOf(old(out)) + Records(start.subs, Ended(start, start.clients[c]))
        decreases |clients[c]|
      {
        var o := clients[c][0];
        OwnHead(View(), c);
        SubscribersStay(start, View(), freed, c, o);
        EndedHead(start, clients[c]);
        Assoc(GoneOf(out), Records(start.subs, start.objects[o].subscribers),
              Records(start.subs, Ended(start, clients[c][1..])));
        LeftOfFree(start, View(), freed, o);
        FreeObject(o);
        freed := freed + {o};
      }
      assert freed == mine;
      assert LeftOf(old(View()), View(), mine);
      EndedNone(start);
      assert GoneOf(out) + [] == GoneOf(out);
    }

    /** `handle_client_disconnect` with `ubusd_proto_free_client`: the monitor goes, the objects, and then the client.
        Afterwards nothing refers to the client or to its objects, and everything else is as it was.  The owners of the
        subscribers of its objects have been told once per subscription. */
    method Disconnect(c: ClientId)
      requires Valid() && c in clients
      modifies this
      ensures Valid()
      ensures c !in clients && c !in monitors
      ensures LeftOf(old(View()), View(), set o | o in old(objects) && old(objects)[o].client == Some(c))
      ensures clients.Keys == old(clients).Keys - {c}
      ensures monitors == Without(old(monitors), {c})
      ensures old(Owned(objects)) ==> Owned(objects)
      ensures GoneOf(out) == GoneOf(old(out)) + Records(old(subs), Ended(old(View()), old(clients)[c]))
    {
      hide LogOk, Consistent, Without, GoneOf, Free, LeftOf, DropSubs, DropFrom, Owned, Records, Ended;
      ghost var start := View();
      ghost var mine := set o | o in objects && objects[o].client == Some(c);
      MonitorDisconnect(c);
      EndedSame(start, monitors, clients[c]);
      FreeObjects(c);
      RemoveClientConsistent(View(), c);
      LeftMonitors(start, View(), monitors, mine, c);
      clients := clients - {c};
      LeftOwners(start, View(), mine);
      if old(Owned(objects)) { OwnedLeft(old(objects), objects, mine); }
    }

    // ----- creating objects -----

    /** `ubus_get_obj_type`: a known type is held. */
    method GetType(t: TypeId) returns (typ: Option<TypeId>)
      modifies this`types
      ensures typ == if t in old(types) then Some(t) else None
      ensures types == if t in old(types) then old(types)[t := old(types)[t] + 1] else old(types)
    {
      if t !in types { return None; }
      types := types[t := types[t] + 1];
      return Some(t);
    }

    /** `ubus_create_obj_type`: a new type, held once, unless its signature is malformed. */
    method CreateType(wellFormed: bool, random: seq<nat>) returns (typ: Option<TypeId>)
      modifies this`types
      ensures typ == if wellFormed then FirstFree(random, old(types).Keys) else None
      ensures types == if typ.Some? then old(types)[typ.value := 1] else old(types)
    {
      typ := AllocId(types.Keys, random);
      if typ.None? { return; }
      types := types[typ.value := 1];
      if !wellFormed {
        UnrefType(typ.value);
        typ := None;
        assert types == old(types);
      }
    }

    /** `ubusd_create_object_internal`: the new object uses its type. */
    method CreateInternal(typ: Option<TypeId>, random: seq<nat>) returns (obj: Option<ObjId>)
      requires typ.Some? ==> typ.value in types
      modifies this`objects, this`types
      ensures obj == FirstFree(random, old(objects).Keys)
      ensures obj.Some? ==>
        && objects == old(objects)[obj.value := Obj(None, None, typ, [], [])]
        && types == Ref(old(types), typ)
      ensures obj.None? ==> objects == old(objects) && types == old(types)
    {
      obj := AllocId(objects.Keys, random);
      if obj.None? { return; }
      objects := objects[obj.value := Obj(None, None, typ, [], [])];
      if typ.Some? {
        types := types[typ.value := types[typ.value] + 1];
      }
    }

    /** The first half of `ubusd_create_object`: find or make the type, make the object, let go of
        the type.  If no object comes of it, nothing has changed. */
    method NewTypedObject(typeId: Option<TypeId>, signature: Option<bool>, randomType: seq<nat>, randomObj: seq<nat>)
      returns (obj: Option<ObjId>, typ: Option<TypeId>)
      requires Valid()
      modifies this`objects, this`types
      ensures Valid()
      ensures typ == TypeFor(old(types), typeId, signature, randomType)
      ensures obj == FirstFree(randomObj, old(objects).Keys)
      ensures View() == if obj.Some? then NewObject(old(View()), obj.value, typ) else old(View())
    {
      hide LogOk, Consistent, Ref, Unref;
      typ := None;
      if typeId.Some? {
        typ := GetType(typeId.value);
      } else if signature.Some? {
        typ := CreateType(signature.value, randomType);
      }
      HeldType(old(View()), typ);
      obj := CreateInternal(typ, randomObj);
      if typ.Some? {
        UnrefType(typ.value);
      }
      if obj.Some? {
        NewObjectConsistent(old(View()), obj.value, typ);
        LogNew(out, old(objects), obj.value, typ);
      }
    }

    /** `ubusd_create_object`.  A path that is refused or taken undoes the creation completely. */
    method CreateObject(c: ClientId, typeId: Option<TypeId>, signature: Option<bool>, objPath: Option<CStr>, denied: bool,
                        randomType: seq<nat>, randomObj: seq<nat>)
      returns (obj: Option<ObjId>)
      requires Valid() && c in clients
      modifies this
      ensures Valid()
      ensures obj == NewId(old(View()), objPath, denied, randomObj)
      ensures obj.None? ==> View() == old(View())
      ensures obj.Some? ==> Adds(old(View()), c, obj.value, objPath, TypeFor(old(types), typeId, signature, randomType), View())
    {
      hide LogOk, Consistent, NewObject, Free, GoneOf, TypeFor, FirstFree, OneMoreUse, Ref, SetPath, SetClient;
      var typ;
      obj, typ := NewTypedObject(typeId, signature, randomType, randomObj);
      if obj.None? { return; }
      var o := obj.value;

      FreeNew(old(View()), o, typ);
      NewParts(old(View()), o, typ);
      if objPath.Some? {
        if denied {
          FreeObject(o);
          obj := None;
          return;
        }
        if objPath.value in path {
          FreeObject(o);
          obj := None;
          return;
        }
      }
      MadeParts(old(View()), o, typ, objPath, c);
      Place(o, objPath, c);
    }

    /** The object gets its path and its client. */
    method Place(o: ObjId, objPath: Option<CStr>, c: ClientId)
      requires Valid() && o in objects && objects[o].path.None? && objects[o].client.None? && c in clients
      requires objects[o].subscribers == [] && objects[o].targets == [] && (objPath.Some? ==> objPath.value !in path)
      modifies this`objects, this`path, this`clients
      ensures Valid()
      ensures var r := old(View()); View() == SetClient(if objPath.None? then r else SetPath(r, o, objPath.value), o, c)
    {
      hide LogOk, Consistent;
      if objPath.Some? {
        SetPathConsistent(View(), o, objPath.value);
        LogSame(out, objects, objects[o := objects[o].(path := objPath)]);
        objects := objects[o := objects[o].(path := objPath)];
        path := path[objPath.value := o];
      }
      SetClientConsistent(View(), o, c);
      LogSame(out, objects, objects[o := objects[o].(client := Some(c))]);
      objects := objects[o := objects[o].(client := Some(c))];
      clients := clients[c := [o] + clients[c]];
    }

    // ----- commands -----

    /** `ubusd_handle_add_object`: the reply carries the id, and the type if the request had a
        signature and the object has a type. */
    method HandleAddObject(c: ClientId, typeId: Option<TypeId>, signature: Option<bool>, objPath: Option<CStr>,
                           denied: bool, randomType: seq<nat>, randomObj: seq<nat>)
      returns (rc: int, reply: Option<ObjectReply>)
      requires Valid() && c in clients
      modifies this
      ensures Valid() && clients.Keys == old(clients).Keys
      ensures var o, typ := NewId(old(View()), objPath, denied, randomObj), TypeFor(old(types), typeId, signature, randomType);
        && rc == (if o.Some? then OK else INVALID_ARGUMENT)
        && reply == (if o.Some? then Some(ObjectReply(o.value, if signature.Some? then typ else None)) else None)
        && (o.None? ==> View() == old(View()))
        && (o.Some? ==> Adds(old(View()), c, o.value, objPath, typ, View()))
      ensures old(Owned(objects)) ==> Owned(objects)
    {
      hide LogOk, Consistent, TypeFor, OneMoreUse, NewId;
      var obj := CreateObject(c, typeId, signature, objPath, denied, randomType, randomObj);
      if obj.None? { return INVALID_ARGUMENT, None; }
      rc, reply := OK, Some(ObjectReply(obj.value, if signature.Some? then objects[obj.value].typ else None));
    }

    /** `ubusd_handle_remove_object`: only the owner may, and the reply names the object's type exactly
        when this removal deletes the type. */
    method HandleRemoveObject(c: ClientId, objId: Option<ObjId>) returns (rc: int, reply: Option<ObjectReply>)
      requires Valid() && c in clients
      modifies this
      ensures Valid() && clients.Keys == old(clients).Keys && monitors == old(monitors)
      ensures rc == RemoveCode(old(View()), c, objId)
      ensures rc != OK ==> reply.None? && View() == old(View()) && out == old(out)
      ensures rc == OK ==>
        && View() == Free(old(View()), objId.value)
        && reply == Some(ObjectReply(objId.value, OnlyUse(old(types), old(objects)[objId.value].typ)))
        && (forall t :: reply.value.typ == Some(t) <==> old(objects)[objId.value].typ == Some(t) && t !in types)
        && GoneOf(out) == GoneOf(old(out)) + Records(old(subs), old(objects)[objId.value].subscribers)
      ensures old(Owned(objects)) ==> Owned(objects)
    {
      hide LogOk, Consistent, Free, GoneOf, Owned;
      if objId.None? { return INVALID_ARGUMENT, None; }
      var o := objId.value;
      if o !in objects { return NOT_FOUND, None; }
      var obj := objects[o];
      if obj.client != Some(c) { return PERMISSION_DENIED, None; }
      var typ := None;
      TypeOf(View(), o);
      if obj.typ.Some? && types[obj.typ.value] == 1 {
        typ := obj.typ;
      }
      if obj.typ.Some? { TypeDropped(View(), o, obj.typ.value); }
      FreeClients(View(), o);
      FreeOwners(View(), o);
      FreeObject(o);
      if old(Owned(objects)) { OwnedLeft(old(objects), objects, {o}); }
      return OK, Some(ObjectReply(o, typ));
    }

    /** `ubusd_handle_add_watch`.  A target without a path is open to clients with the same user or group, and one with a
        path to those that the access list lets subscribe. */
    method HandleAddWatch(c: ClientId, objId: Option<ObjId>, targetId: Option<ObjId>, sameUser: bool, sameGroup: bool,
                          denied: bool)
      returns (rc: int)
      requires Valid() && c in clients
      modifies this
      ensures Valid() && clients.Keys == old(clients).Keys && monitors == old(monitors)
      ensures rc == WatchCode(old(View()), c, objId, targetId, sameUser, sameGroup, denied)
      ensures Moves(old(View()), SubscribeCmd(c, objId, targetId, sameUser, sameGroup, denied), View())
      ensures rc == OK ==>
        && old(nextSub) !in old(subs)
        && View() == AddSub(old(View()), old(nextSub), Sub(objId.value, targetId.value))
      ensures rc != OK ==> View() == old(View()) && out == old(out)
      ensures old(Owned(objects)) ==> Owned(objects)
    {
      hide LogOk, Consistent, Owned;
      if objId.None? || targetId.None? { return INVALID_ARGUMENT; }
      if objId.value !in objects { return NOT_FOUND; }
      if objects[objId.value].client != Some(c) { return INVALID_ARGUMENT; }
      if targetId.value !in objects || objects[targetId.value].client.None? { return NOT_FOUND; }
      if objects[targetId.value].client == Some(c) { return INVALID_ARGUMENT; }
      if objects[targetId.value].path.None? {
        if !sameUser && !sameGroup { return NOT_FOUND; }
      } else if denied {
        return NOT_FOUND;
      }
      AddOwners(View(), nextSub, Sub(objId.value, targetId.value));
      Subscribe(objId.value, targetId.value);
      assert AddsSub(old(View()), objId.value, targetId.value, old(nextSub), View());
      if old(Owned(objects)) { OwnedLeft(old(objects), objects, {}); }
      return OK;
    }

    /** `ubusd_handle_remove_watch`: the most recent subscription to the target ends. */
    method HandleRemoveWatch(c: ClientId, objId: Option<ObjId>, targetId: Option<ObjId>)
      returns (rc: int, ghost gone: Option<SubId>)
      requires Valid() && c in clients
      modifies this
      ensures Valid() && clients.Keys == old(clients).Keys && monitors == old(monitors)
      ensures rc == UnwatchCode(old(View()), c, objId, targetId)
      ensures Moves(old(View()), UnsubscribeCmd(c, objId, targetId), View())
      ensures rc == OK <==> gone.Some?
      ensures rc != OK ==> View() == old(View()) && out == old(out)
      ensures rc == OK ==>
        && objId.Some? && targetId.Some? && objId.value in old(objects) && old(objects)[objId.value].client == Some(c)
        && gone.value in old(subs) && old(subs)[gone.value] == Sub(objId.value, targetId.value)
        && FirstTo(old(View()), objId.value, targetId.value, gone.value)
        && View() == DropSubs(old(View()), {gone.value})
      ensures old(Owned(objects)) ==> Owned(objects)
    {
      hide LogOk, Consistent, DropSubs, Owned;
      gone := None;
      if objId.None? || targetId.None? { return INVALID_ARGUMENT, None; }
      if objId.value !in objects { return NOT_FOUND, None; }
      var o, id := objId.value, targetId.value;
      if objects[o].client != Some(c) { return INVALID_ARGUMENT, None; }
      TargetsOf(View(), o);
      for i := 0 to |objects[o].targets|
        invariant Valid() && View() == old(View()) && out == old(out)
        invariant forall k :: 0 <= k < i ==> subs[objects[o].targets[k]].target != id
      {
        var s := objects[o].targets[i];
        if subs[s].target != id { continue; }
        assert NoneTo(View(), objects[o].targets[..i], id);
        DropClients(View(), {s});
        DropOwners(View(), {s});
        Unsubscribe(s);
        assert DropsSub(old(View()), o, id, s, View());
        if old(Owned(objects)) { OwnedLeft(old(objects), objects, {}); }
        return OK, Some(s);
      }
      return NOT_FOUND, None;
    }

    /** A command from a client; one that is not connected has no way to send it. */
    method Execute(cmd: Command)
      requires Valid() && Owned(objects)
      modifies this
      ensures Valid() && Owned(objects) && Moves(old(View()), cmd, View())
      ensures regs == old(regs) + [View()]
    {
      hide Valid, Owned, Moves;
      ghost var before := regs;
      React(cmd);
      regs := before + [View()];
    }

    method React(cmd: Command)
      requires Valid() && Owned(objects)
      modifies this
      ensures Valid() && Owned(objects) && Moves(old(View()), cmd, View())
    {
      hide Consistent, LogOk, LeftOf, DropSubs, Free, GoneOf, HasSubscribers, Owned, AddSub, Adds, FirstTo, NewId, TypeFor,
        Without;
      if cmd.ConnectCmd? {
        if cmd.c !in clients { Connect(cmd.c); }
        return;
      }
      if cmd.c !in clients { return; }
      match cmd {
        case DisconnectCmd(c) => Disconnect(c);
        case MonitorCmd(c, uid, gid, meth) => var rc := MonitorRecv(c, uid, gid, meth);
        case AddObjectCmd(c, typeId, signature, objPath, denied, randomType, randomObj) =>
          var rc, reply := HandleAddObject(c, typeId, signature, objPath, denied, randomType, randomObj);
        case RemoveObjectCmd(c, obj) => var rc, reply := HandleRemoveObject(c, obj);
        case SubscribeCmd(c, obj, target, sameUser, sameGroup, denied) =>
          var rc := HandleAddWatch(c, obj, target, sameUser, sameGroup, denied);
        case UnsubscribeCmd(c, obj, target) =>
          var rc, gone := HandleRemoveWatch(c, obj, target);
      }
    }
  }

  ghost predicate NoneTo(r: Reg, list: seq<SubId>, target: ObjId) {
    forall s :: s in list ==> s in r.subs && r.subs[s].target != target
  }

  /** The record `s` is the first in the object's list that has the given target. */
  ghost predicate FirstTo(r: Reg, o: ObjId, target: ObjId, s: SubId) {
    && o in r.objects
    && exists i :: 0 <= i < |r.objects[o].targets| && r.objects[o].targets[i] == s &&
                   NoneTo(r, r.objects[o].targets[..i], target)
  }

  /** The data of a reply to ADD_OBJECT or REMOVE_OBJECT. */
  datatype ObjectReply = ObjectReply(obj: ObjId, typ: Option<TypeId>)

  lemma FreeClients(r: Reg, o: ObjId)
    requires o in r.objects
    ensures Free(r, o).clients.Keys == r.clients.Keys && Free(r, o).monitors == r.monitors
  {
  }

  lemma DropClients(r: Reg, s: set<SubId>)
    ensures DropSubs(r, s).clients == r.clients && DropSubs(r, s).monitors == r.monitors
  {
  }

  lemma TypeOf(r: Reg, o: ObjId)
    requires Consistent(r) && o in r.objects
    ensures r.objects[o].typ.Some? ==> r.objects[o].typ.value in r.types
  {
  }

  lemma TargetsOf(r: Reg, o: ObjId)
    requires Consistent(r) && o in r.objects
    ensures forall s :: s in r.objects[o].targets ==> s in r.subs && r.subs[s].subscriber == o
    ensures forall s :: s in r.subs && r.subs[s].subscriber == o ==> s in r.objects[o].targets
  {
    hide ClientsOk, PathOk, TypesOk, Distinct;
    assert ListsOk(r, o);
    forall s | s in r.subs && r.subs[s].subscriber == o ensures s in r.objects[o].targets { assert SubOk(r, s); }
  }

  // ----- runs -----

  datatype Command =
    | ConnectCmd(c: ClientId)
    | AddObjectCmd(c: ClientId, typeId: Option<TypeId>, signature: Option<bool>, path: Option<CStr>, denied: bool,
                   randomType: seq<nat>, randomObj: seq<nat>)
    | RemoveObjectCmd(c: ClientId, obj: Option<ObjId>)
    | SubscribeCmd(c: ClientId, obj: Option<ObjId>, target: Option<ObjId>, sameUser: bool, sameGroup: bool, denied: bool)
    | UnsubscribeCmd(c: ClientId, obj: Option<ObjId>, target: Option<ObjId>)
    | MonitorCmd(c: ClientId, uid: int, gid: int, meth: string)
    | DisconnectCmd(c: ClientId)

  // ----- what a command does -----

  /** The status of SUBSCRIBE: only the subscriber's owner may, for another client's object that is open to it. */
  function WatchCode(r: Reg, c: ClientId, obj: Option<ObjId>, target: Option<ObjId>, sameUser: bool, sameGroup: bool,
                     denied: bool): nat
  {
    if obj.None? || target.None? then INVALID_ARGUMENT
    else if obj.value !in r.objects then NOT_FOUND
    else if r.objects[obj.value].client != Some(c) then INVALID_ARGUMENT
    else if target.value !in r.objects || r.objects[target.value].client.None? then NOT_FOUND
    else if r.objects[target.value].client == Some(c) then INVALID_ARGUMENT
    else if r.objects[target.value].path.None? && !sameUser && !sameGroup then NOT_FOUND
    else if r.objects[target.value].path.Some? && denied then NOT_FOUND
    else OK
  }

  /** The status of UNSUBSCRIBE. */
  ghost function UnwatchCode(r: Reg, c: ClientId, obj: Option<ObjId>, target: Option<ObjId>): nat {
    if obj.None? || target.None? then INVALID_ARGUMENT
    else if obj.value !in r.objects then NOT_FOUND
    else if r.objects[obj.value].client != Some(c) then INVALID_ARGUMENT
    else if exists s :: s in r.subs && r.subs[s] == Sub(obj.value, target.value) then OK
    else NOT_FOUND
  }

  /** The status of REMOVE_OBJECT. */
  function RemoveCode(r: Reg, c: ClientId, obj: Option<ObjId>): nat {
    if obj.None? then INVALID_ARGUMENT
    else if obj.value !in r.objects then NOT_FOUND
    else if r.objects[obj.value].client != Some(c) then PERMISSION_DENIED
    else OK
  }

  /** A record is added, or the first one of a pair in the subscriber's list goes. */
  ghost predicate AddsSub(r: Reg, o: ObjId, target: ObjId, s: SubId, r': Reg) {
    && o in r.objects && target in r.objects && o != target
    && s !in r.subs && r' == AddSub(r, s, Sub(o, target))
  }

  ghost predicate DropsSub(r: Reg, o: ObjId, target: ObjId, s: SubId, r': Reg) {
    s in r.subs && r.subs[s] == Sub(o, target) && FirstTo(r, o, target, s) && r' == DropSubs(r, {s})
  }

  /** The registry before and after a command. */
  ghost predicate Moves(r: Reg, cmd: Command, r': Reg) {
    if cmd.ConnectCmd? then r' == if cmd.c in r.clients then r else Registry.Connect(r, cmd.c)
    else if cmd.c !in r.clients then r' == r
    else
      match cmd
      case AddObjectCmd(c, typeId, signature, objPath, denied, randomType, randomObj) =>
        var o := NewId(r, objPath, denied, randomObj);
        if o.None? then r' == r else Adds(r, c, o.value, objPath, TypeFor(r.types, typeId, signature, randomType), r')
      case RemoveObjectCmd(c, obj) => r' == if RemoveCode(r, c, obj) == OK then Free(r, obj.value) else r
      case SubscribeCmd(c, obj, target, sameUser, sameGroup, denied) =>
        if WatchCode(r, c, obj, target, sameUser, sameGroup, denied) == OK
        then exists s :: AddsSub(r, obj.value, target.value, s, r') else r' == r
      case UnsubscribeCmd(c, obj, target) =>
        if UnwatchCode(r, c, obj, target) == OK then exists s :: DropsSub(r, obj.value, target.value, s, r') else r' == r
      case MonitorCmd(c, uid, gid, meth) => r' == SetMonitors(r, MonitorsAfter(r.monitors, c, uid, gid, meth))
      case DisconnectCmd(c) =>
        && LeftOf(r, r', set o | o in r.objects && r.objects[o].client == Some(c))
        && r'.clients.Keys == r.clients.Keys - {c} && r'.monitors == Without(r.monitors, {c})
  }

  // ----- whole runs -----

  /** The clients that are connected after a run. */
  function Connected(commands: seq<Command>): set<ClientId> {
    if commands == [] then {}
    else Connected1(Connected(commands[..|commands| - 1]), commands[|commands| - 1])
  }

  function Connected1(cs: set<ClientId>, cmd: Command): set<ClientId> {
    if cmd.ConnectCmd? then cs + {cmd.c} else if cmd.DisconnectCmd? then cs - {cmd.c} else cs
  }

  /** The root clients that monitor after a run. */
  function Monitoring(commands: seq<Command>): set<ClientId> {
    if commands == [] then {}
    else
      var before, cmd := commands[..|commands| - 1], commands[|commands| - 1];
      Monitoring1(Monitoring(before), Connected(before), cmd)
  }

  function Monitoring1(ms: set<ClientId>, cs: set<ClientId>, cmd: Command): set<ClientId> {
    if cmd.DisconnectCmd? then ms - {cmd.c}
    else if cmd.MonitorCmd? && cmd.c in cs && cmd.uid == 0 && cmd.gid == 0 && cmd.meth == "add" then ms + {cmd.c}
    else if cmd.MonitorCmd? && cmd.c in cs && cmd.uid == 0 && cmd.gid == 0 && cmd.meth == "remove" then ms - {cmd.c}
    else ms
  }

  /** The registries of a run, from that of a daemon that has just started. */
  ghost predicate History(commands: seq<Command>, regs: seq<Reg>) {
    && |regs| == |commands| + 1 && regs[0] == Started()
    && forall i :: 0 <= i < |commands| ==> Moves(regs[i], commands[i], regs[i + 1])
  }

  /** Commands about objects and subscriptions leave the clients and the monitors alone. */
  lemma MovesOthers(r: Reg, cmd: Command, r': Reg)
    requires Moves(r, cmd, r') && !cmd.ConnectCmd? && !cmd.DisconnectCmd? && !cmd.MonitorCmd?
    ensures r'.clients.Keys == r.clients.Keys && r'.monitors == r.monitors
  {
    hide DropSubs, Free, FirstTo, NewId, TypeFor, OneMoreUse;
    if cmd.RemoveObjectCmd? && RemoveCode(r, cmd.c, cmd.obj) == OK { FreeClients(r, cmd.obj.value); }
    if cmd.UnsubscribeCmd? && cmd.c in r.clients && UnwatchCode(r, cmd.c, cmd.obj, cmd.target) == OK {
      var s :| DropsSub(r, cmd.obj.value, cmd.target.value, s, r');
      DropClients(r, {s});
    }
  }

  lemma MonitorsAre(ms: seq<ClientId>, cs: set<ClientId>, cmd: Command)
    requires cmd.MonitorCmd? && cmd.c in cs
    ensures forall k :: k in MonitorsAfter(ms, cmd.c, cmd.uid, cmd.gid, cmd.meth) <==> k in Monitoring1(Elements(ms), cs, cmd)
  {
    hide Without;
  }

  lemma MovesOwn(r: Reg, cmd: Command, r': Reg)
    requires Moves(r, cmd, r') && (cmd.ConnectCmd? || cmd.DisconnectCmd? || cmd.MonitorCmd?)
    requires forall c :: c in r.monitors ==> c in r.clients
    ensures r'.clients.Keys == Connected1(r.clients.Keys, cmd)
    ensures forall c :: c in r'.monitors <==> c in Monitoring1(Elements(r.monitors), r.clients.Keys, cmd)
  {
    hide LeftOf, Without, MonitorsAfter, Adds, AddsSub, DropsSub, Free, NewId, TypeFor;
    if cmd.MonitorCmd? && cmd.c in r.clients { MonitorsAre(r.monitors, r.clients.Keys, cmd); }
  }

  /** Who is known and who monitors after a command. */
  lemma MovesClients(r: Reg, cmd: Command, r': Reg)
    requires Moves(r, cmd, r') && forall c :: c in r.monitors ==> c in r.clients
    ensures r'.clients.Keys == Connected1(r.clients.Keys, cmd)
    ensures forall c :: c in r'.monitors ==> c in r'.clients
    ensures forall c :: c in r'.monitors <==> c in Monitoring1(Elements(r.monitors), r.clients.Keys, cmd)
  {
    hide Moves;
    if cmd.ConnectCmd? || cmd.DisconnectCmd? || cmd.MonitorCmd? {
      MovesOwn(r, cmd, r');
    } else {
      MovesOthers(r, cmd, r');
    }
  }

  lemma {:induction false} RunClients(commands: seq<Command>, regs: seq<Reg>)
    requires History(commands, regs)
    ensures var r := regs[|commands|];
      && r.clients.Keys == Connected(commands)
      && (forall c :: c in r.monitors ==> c in r.clients)
      && forall c :: c in r.monitors <==> c in Monitoring(commands)
  {
    hide Moves, Connected1, Monitoring1;
    if commands != [] {
      var n := |commands| - 1;
      RunClients(commands[..n], regs[..n + 1]);
      MovesClients(regs[n], commands[n], regs[n + 1]);
      assert Elements(regs[n].monitors) == Monitoring(commands[..n]);
    }
  }

  /** Every run of commands, starting with a fresh daemon, takes the registry from command to command as they say, and keeps
      it consistent and the owners correctly told.  Exactly the clients that have connected and not disconnected are known,
      exactly those of them that asked for it as root are monitors, and every object but the built-in ones has an owner. */
  method Run(commands: seq<Command>) returns (d: Daemon)
    ensures fresh(d) && d.Valid() && Owned(d.objects)
    ensures History(commands, d.regs) && d.regs[|commands|] == d.View()
    ensures d.clients.Keys == Connected(commands) && (forall c :: c in d.monitors <==> c in Monitoring(commands))
    ensures forall o :: Told(ActivityOf(d.out, o), HasSubscribers(d.objects, o))
  {
    hide Consistent, LogOk, HasSubscribers, Owned, Connected, Monitoring, Moves;
    d := new Daemon();
    assert Owned(d.objects) by { StartedOwned(); }
    for i := 0 to |commands|
      invariant fresh(d) && d.Valid() && Owned(d.objects)
      invariant History(commands[..i], d.regs) && d.regs[i] == d.View()
    {
      d.Execute(commands[i]);
    }
    assert commands[..|commands|] == commands;
    RunClients(commands, d.regs);
    AllTold(d.out, d.objects);
  }

  lemma StartedOwned()
    ensures Owned(Started().objects)
  {
  }

  lemma AllTold(out: seq<Note>, objects: map<ObjId, Obj>)
    requires LogOk(out, objects)
    ensures forall o :: Told(ActivityOf(out, o), HasSubscribers(objects, o))
  {
  }

  lemma LogNew(out: seq<Note>, objects: map<ObjId, Obj>, o: ObjId, typ: Option<TypeId>)
    requires LogOk(out, objects) && o !in objects
    ensures LogOk(out, objects[o := Obj(None, None, typ, [], [])])
  {
    LogStep(out, objects, objects[o := Obj(None, None, typ, [], [])], o);
  }

  lemma LogSame(out: seq<Note>, objects: map<ObjId, Obj>, objects': map<ObjId, Obj>)
    requires LogOk(out, objects) && objects'.Keys == objects.Keys
    requires forall o :: o in objects ==> objects'[o].subscribers == objects[o].subscribers
    ensures LogOk(out, objects')
  {
    LogStep(out, objects, objects', 0);
  }

  /** A new object with its path and its client. */
  lemma MadeParts(r: Reg, o: ObjId, typ: Option<TypeId>, objPath: Option<CStr>, c: ClientId)
    requires o !in r.objects && c in r.clients
    ensures var made := NewObject(r, o, typ);
      var v := SetClient(if objPath.None? then made else SetPath(made, o, objPath.value), o, c);
      Adds(r, c, o, objPath, typ, v)
  {
    hide OneMoreUse;
    RefOneMore(r.types, typ);
  }

  lemma NewParts(r: Reg, o: ObjId, typ: Option<TypeId>)
    ensures NewObject(r, o, typ) == r.(objects := r.objects[o := Obj(None, None, typ, [], [])], types := Ref(r.types, typ))
  {
  }

  /** Holding a type, using it and letting go leaves one use; holding it and letting go, none. */
  lemma HeldType(r: Reg, typ: Option<TypeId>)
    requires Consistent(r)
    ensures var held := Ref(r.types, typ);
      && (typ.None? ==> held == r.types)
      && (typ.Some? ==>
            && typ.value in held && 0 < held[typ.value]
            && held == r.types[typ.value := if typ.value in r.types then r.types[typ.value] + 1 else 1]
            && typ.value in Ref(held, typ) && 0 < Ref(held, typ)[typ.value])
      && Unref(Ref(held, typ), typ) == held
      && Unref(held, typ) == r.types
  {
    hide ClientsOk, PathOk, SubsOk;
    UnrefRef(r, typ);
  }

  lemma UnrefRef(r: Reg, typ: Option<TypeId>)
    requires TypesOk(r)
    ensures Unref(Ref(r.types, typ), typ) == r.types
  {
  }

  lemma NewHasNoSubs(r: Reg, o: ObjId, typ: Option<TypeId>)
    requires SubsOk(r) && o !in r.objects
    ensures SubsOf(NewObject(r, o, typ), o) == {}
  {
    forall s | s in r.subs ensures r.subs[s].subscriber != o && r.subs[s].target != o { assert SubOk(r, s); }
  }

  /** Freeing a new object undoes its creation. */
  lemma FreeNew(r: Reg, o: ObjId, typ: Option<TypeId>)
    requires Consistent(r) && o !in r.objects
    ensures Free(NewObject(r, o, typ), o) == r
    ensures Records(r.subs, []) == []
  {
    hide SubsOk, ClientsOk, PathOk, TypesOk, DropSubs, Unref, Ref, SubsOf, Delete;
    var n := NewObject(r, o, typ);
    NewHasNoSubs(r, o, typ);
    DropNone(n);
    UnrefRef(r, typ);
    DeleteParts(n, o);
    assert n.objects - {o} == r.objects;
  }

  lemma {:induction false} TakeOut<T(!new)>(q: seq<T>, i: nat, x: T)
    requires Distinct(q) && i <= |q| && x !in q[..i] && (i < |q| ==> q[i] == x)
    ensures Without(q, {x}) == if i < |q| then q[..i] + q[i + 1..] else q
  {
    if i == |q| {
      assert q[..i] == q;
      WithoutNone(q, {x});
    } else if i == 0 {
      WithoutHead(q);
    } else {
      assert q[0] == q[..i][0];
      assert q[1..][..i - 1] == q[..i][1..];
      TakeOut(q[1..], i - 1, x);
      assert q[..i] + q[i + 1..] == [q[0]] + (q[1..][..i - 1] + q[1..][i..]);
    }
  }

  lemma OwnList(r: Reg, c: ClientId)
    requires Consistent(r) && c in r.clients
    ensures Elements(r.clients[c]) == set o | o in r.objects && r.objects[o].client == Some(c)
  {
    hide SubsOk, TypesOk, PathOk;
  }

  /** The records of the subscribers of some objects, in the order in which they end when the objects are freed. */
  function Ended(r: Reg, q: seq<ObjId>): seq<SubId> {
    if q == [] then []
    else (if q[0] in r.objects then r.objects[q[0]].subscribers else []) + Ended(r, q[1..])
  }

  lemma {:induction false} EndedSame(r: Reg, ms: seq<ClientId>, q: seq<ObjId>)
    ensures Ended(SetMonitors(r, ms), q) == Ended(r, q)
  {
    if q != [] { EndedSame(r, ms, q[1..]); }
  }

  lemma EndedNone(r: Reg)
    ensures Records(r.subs, Ended(r, [])) == []
  {
  }

  lemma EndedHead(r: Reg, q: seq<ObjId>)
    requires q != [] && q[0] in r.objects
    ensures Records(r.subs, Ended(r, q)) == Records(r.subs, r.objects[q[0]].subscribers) + Records(r.subs, Ended(r, q[1..]))
  {
    RecordsAppend(r.subs, r.objects[q[0]].subscribers, Ended(r, q[1..]));
  }

  lemma {:induction false} RecordsAppend(subs: map<SubId, Sub>, a: seq<SubId>, b: seq<SubId>)
    ensures Records(subs, a + b) == Records(subs, a) + Records(subs, b)
  {
    if a == [] {
      assert [] + b == b;
    } else {
      assert (a + b)[1..] == a[1..] + b;
      RecordsAppend(subs, a[1..], b);
    }
  }

  /** While a client's objects are freed, those that are left keep their subscribers, which are other clients' objects. */
  lemma SubscribersStay(r: Reg, r': Reg, dead: set<ObjId>, c: ClientId, o: ObjId)
    requires Consistent(r) && LeftOf(r, r', dead) && o in r'.objects
    requires forall d :: d in dead + {o} ==> d in r.objects && r.objects[d].client == Some(c)
    ensures r'.objects[o].subscribers == r.objects[o].subscribers
    ensures Records(r'.subs, r'.objects[o].subscribers) == Records(r.subs, r.objects[o].subscribers)
  {
    hide ClientsOk, PathOk, TypesOk, MonitorsOk, Distinct, Without;
    var q, gone := r.objects[o].subscribers, Touching(r, dead);
    assert ListsOk(r, o);
    forall s | s in q ensures s in r.subs && s !in gone { assert SubOk(r, s); }
    WithoutNone(q, gone);
    RecordsSame(r'.subs, r.subs, q);
  }

  /** With a client end exactly the subscriptions to its objects, each once. */
  lemma EndedExactly(r: Reg, c: ClientId)
    requires Consistent(r) && c in r.clients
    ensures Distinct(Ended(r, r.clients[c]))
    ensures forall s :: s in Ended(r, r.clients[c]) <==>
      s in r.subs && r.subs[s].target in r.objects && r.objects[r.subs[s].target].client == Some(c)
  {
    hide PathOk, TypesOk, MonitorsOk;
    EndedOf(r, r.clients[c]);
    forall s | s in r.subs ensures r.subs[s].target in r.objects { assert SubOk(r, s); }
  }

  lemma {:induction false} EndedOf(r: Reg, q: seq<ObjId>)
    requires SubsOk(r) && Distinct(q) && forall o :: o in q ==> o in r.objects
    ensures Distinct(Ended(r, q))
    ensures forall s :: s in Ended(r, q) <==> s in r.subs && r.subs[s].target in q
  {
    if q != [] {
      EndedOf(r, q[1..]);
      assert ListsOk(r, q[0]);
      forall s | s in r.subs ensures SubOk(r, s) {}
      assert q == [q[0]] + q[1..] && q[0] !in q[1..];
      DistinctAppend(r.objects[q[0]].subscribers, Ended(r, q[1..]));
    }
  }

  lemma DistinctAppend(a: seq<SubId>, b: seq<SubId>)
    requires Distinct(a) && Distinct(b) && forall x :: x in a ==> x !in b
    ensures Distinct(a + b)
  {
    forall i, j | 0 <= i < j < |a + b| ensures (a + b)[i] != (a + b)[j] {
      if i < |a| && |a| <= j { assert a[i] in a && b[j - |a|] in b; }
    }
  }

  /** Freeing the first object of a client leaves the rest of its list. */
  lemma OwnHead(r: Reg, c: ClientId)
    requires Consistent(r) && c in r.clients && r.clients[c] != []
    ensures var o := r.clients[c][0];
      && o in r.objects
      && Free(r, o).clients == r.clients[c := r.clients[c][1..]]
      && Free(r, o).monitors == r.monitors
  {
    hide SubsOk, TypesOk, PathOk;
    assert r.clients[c][0] in r.clients[c];
    WithoutHead(r.clients[c]);
  }

  /** The monitors and the list of clients have no part in what is left of the objects. */
  lemma LeftMonitors(r: Reg, r': Reg, ms: seq<ClientId>, dead: set<ObjId>, c: ClientId)
    requires LeftOf(SetMonitors(r, ms), r', dead)
    ensures LeftOf(r, RemoveClient(r', c), dead)
  {
    hide DropFrom;
    assert Touching(SetMonitors(r, ms), dead) == Touching(r, dead);
  }

  /** The two loops together take out every record the object is an end of. */
  lemma FreeOrder(r: Reg, o: ObjId)
    requires Consistent(r) && o in r.objects
    ensures var t := Elements(r.objects[o].targets);
      && o in DropSubs(r, t).objects
      && DropSubs(r, t).objects[o].subscribers == r.objects[o].subscribers
      && Records(DropSubs(r, t).subs, r.objects[o].subscribers) == Records(r.subs, r.objects[o].subscribers)
      && DropSubs(DropSubs(r, t), Elements(r.objects[o].subscribers)) == DropSubs(r, SubsOf(r, o))
    ensures o in DropSubs(r, SubsOf(r, o)).objects && DropSubs(r, SubsOf(r, o)).objects[o].targets == []
  {
    DropOwnLists(r, o);
    hide ClientsOk, PathOk, TypesOk, MonitorsOk;
    var t, q := Elements(r.objects[o].targets), r.objects[o].subscribers;
    assert ListsOk(r, o);
    forall s | s in q ensures s !in t && s in r.subs { assert SubOk(r, s); }
    WithoutNone(q, t);
    RecordsSame(r.subs, r.subs - t, q);
    ListsAreSubsOf(r, o);
    DropSubsTwice(r, t, Elements(q));
  }

  lemma {:induction false} RecordsSame(a: map<SubId, Sub>, b: map<SubId, Sub>, q: seq<SubId>)
    requires forall s :: s in q ==> s in a && s in b && a[s] == b[s]
    ensures Records(a, q) == Records(b, q)
  {
    if q != [] {
      assert q[0] in q;
      RecordsSame(a, b, q[1..]);
    }
  }

  lemma DeleteParts(r: Reg, o: ObjId)
    requires o in r.objects
    ensures var ob := r.objects[o];
      Delete(r, o) == Reg(
        if ob.client.Some? && ob.client.value in r.clients
          then r.clients[ob.client.value := Without(r.clients[ob.client.value], {o})] else r.clients,
        r.objects - {o},
        Unref(r.types, ob.typ),
        if ob.path.Some? then r.path - {ob.path.value} else r.path,
        r.subs,
        r.monitors)
  {
  }

  lemma DeleteFacts(r: Reg, o: ObjId)
    requires Consistent(r) && o in r.objects && r.objects[o].targets == [] && r.objects[o].subscribers == []
    ensures Consistent(Delete(r, o))
    ensures r.objects[o].client.Some? ==> r.objects[o].client.value in r.clients
    ensures r.objects[o].typ.Some? ==> r.objects[o].typ.value in r.types && 0 < r.types[r.objects[o].typ.value]
  {
    DeleteConsistent(r, o);
  }

  lemma LogDelete(out: seq<Note>, objects: map<ObjId, Obj>, o: ObjId)
    requires LogOk(out, objects) && o in objects && objects[o].subscribers == []
    ensures LogOk(out, objects - {o})
  {
    LogStep(out, objects, objects - {o}, o);
  }

  /** The subscriptions behind a list of records. */
  function Records(subs: map<SubId, Sub>, q: seq<SubId>): seq<Sub> {
    if q == [] then []
    else (if q[0] in subs then [subs[q[0]]] else []) + Records(subs, q[1..])
  }

  lemma DropSubsParts(r: Reg, s: set<SubId>)
    ensures DropSubs(r, s).subs == r.subs - s
  {
  }

  /** Taking out the first record of a list leaves the rest of the list. */
  lemma HeadTarget(r: Reg, o: ObjId)
    requires Consistent(r) && o in r.objects && r.objects[o].targets != []
    ensures r.objects[o].targets[0] in r.subs
    ensures o in DropSubs(r, {r.objects[o].targets[0]}).objects
    ensures DropSubs(r, {r.objects[o].targets[0]}).objects[o].targets == r.objects[o].targets[1..]
  {
    hide ClientsOk, PathOk, TypesOk, MonitorsOk;
    assert ListsOk(r, o);
    WithoutHead(r.objects[o].targets);
  }

  lemma HeadSubscriber(r: Reg, o: ObjId)
    requires Consistent(r) && o in r.objects && r.objects[o].subscribers != []
    ensures r.objects[o].subscribers[0] in r.subs
    ensures o in DropSubs(r, {r.objects[o].subscribers[0]}).objects
    ensures DropSubs(r, {r.objects[o].subscribers[0]}).objects[o].subscribers == r.objects[o].subscribers[1..]
  {
    hide ClientsOk, PathOk, TypesOk, MonitorsOk;
    assert ListsOk(r, o);
    WithoutHead(r.objects[o].subscribers);
  }

  lemma SubscribersOf(objects: map<ObjId, Obj>, t: ObjId)
    requires t in objects
    ensures HasSubscribers(objects, t) == (objects[t].subscribers != [])
  {
  }
}
