/** The daemon's registry as a value: clients, objects, types, paths, subscriptions and monitors
    (`ubusd_obj.c`, `ubusd_proto.c`, `ubusd_monitor.c`), what it means for it to be consistent, and
    the elementary changes every command is made of. */
module Registry {
  import opened CStrings
  import opened Options
  import opened Seqs
  import opened Ubus

  type SubId = nat

  /** `struct ubus_object`; its two lists hold subscription records. */
  datatype Obj = Obj(client: Option<ClientId>, path: Option<CStr>, typ: Option<TypeId>,
                     subscribers: seq<SubId>, targets: seq<SubId>)

  /** `struct ubus_subscription`. */
  datatype Sub = Sub(subscriber: ObjId, target: ObjId)

  datatype Reg = Reg(
    clients: map<ClientId, seq<ObjId>>,
    objects: map<ObjId, Obj>,
    types: map<TypeId, nat>,
    path: map<CStr, ObjId>,
    subs: map<SubId, Sub>,
    monitors: seq<ClientId>)

  // ----- consistency -----

  /** Each client's list holds exactly its objects, each once. */
  ghost predicate ClientsOk(r: Reg) {
    && (forall c :: c in r.clients ==> Distinct(r.clients[c]))
    && (forall c, o :: c in r.clients && o in r.clients[c] ==> o in r.objects && r.objects[o].client == Some(c))
    && (forall o :: o in r.objects && r.objects[o].client.Some? ==>
          r.objects[o].client.value in r.clients && o in r.clients[r.objects[o].client.value])
  }

  /** The path tree holds exactly the live objects that have a path. */
  ghost predicate PathOk(r: Reg) {
    && (forall p :: p in r.path ==> r.path[p] in r.objects && r.objects[r.path[p]].path == Some(p))
    && (forall o :: o in r.objects && r.objects[o].path.Some? ==>
          r.objects[o].path.value in r.path && r.path[r.objects[o].path.value] == o)
  }

  ghost function Users(objects: map<ObjId, Obj>, t: TypeId): set<ObjId> {
    set o | o in objects && objects[o].typ == Some(t)
  }

  /** A type is kept exactly while objects use it, and its count is their number. */
  ghost predicate TypesOk(r: Reg) {
    && (forall t :: t in r.types ==> 0 < r.types[t] == |Users(r.objects, t)|)
    && (forall o :: o in r.objects && r.objects[o].typ.Some? ==> r.objects[o].typ.value in r.types)
  }

  /** A subscription record is in its target's list of subscribers and in its subscriber's list of
      targets; its ends are live and belong to different clients. */
  ghost predicate SubOk(r: Reg, s: SubId)
    requires s in r.subs
  {
    var sub := r.subs[s];
    && sub.subscriber in r.objects && sub.target in r.objects
    && s in r.objects[sub.target].subscribers
    && s in r.objects[sub.subscriber].targets
    && r.objects[sub.subscriber].client.Some? && r.objects[sub.target].client.Some?
    && r.objects[sub.subscriber].client != r.objects[sub.target].client
  }

  /** The lists of an object hold only its own records, each once. */
  ghost predicate ListsOk(r: Reg, o: ObjId)
    requires o in r.objects
  {
    && Distinct(r.objects[o].subscribers) && Distinct(r.objects[o].targets)
    && (forall s :: s in r.objects[o].subscribers ==> s in r.subs && r.subs[s].target == o)
    && (forall s :: s in r.objects[o].targets ==> s in r.subs && r.subs[s].subscriber == o)
  }

  ghost predicate SubsOk(r: Reg) {
    && (forall s {:trigger SubOk(r, s)} :: s in r.subs ==> SubOk(r, s))
    && (forall o {:trigger ListsOk(r, o)} :: o in r.objects ==> ListsOk(r, o))
  }

  /** At most one monitor per client, and only of live clients. */
  ghost predicate MonitorsOk(r: Reg) {
    Distinct(r.monitors) && forall c :: c in r.monitors ==> c in r.clients
  }

  ghost predicate Consistent(r: Reg) {
    ClientsOk(r) && PathOk(r) && TypesOk(r) && SubsOk(r) && MonitorsOk(r)
  }

  /** The registry of a daemon that has just started: the built-in objects, which have no owner, path or type. */
  function Started(): Reg {
    var bare := Obj(None, None, None, [], []);
    Reg(map[], map[EVENT_OBJECT := bare, ACL_OBJECT := bare, MONITOR_OBJECT := bare], map[], map[], map[], [])
  }

  lemma StartedConsistent()
    ensures Consistent(Started())
  {
    assert forall t :: Users(Started().objects, t) == {};
  }

  /** The status of a call of the monitor object: only root may monitor. */
  function MonitorCode(uid: int, gid: int, meth: string): nat {
    if uid != 0 || gid != 0 then PERMISSION_DENIED
    else if meth == "add" || meth == "remove" then OK
    else METHOD_NOT_FOUND
  }

  /** The monitors after a call of the monitor object. */
  function MonitorsAfter(ms: seq<ClientId>, c: ClientId, uid: int, gid: int, meth: string): seq<ClientId> {
    if MonitorCode(uid, gid, meth) != OK then ms
    else if meth == "add" then Without(ms, {c}) + [c]
    else Without(ms, {c})
  }

  // ----- owners -----

  predicate Builtin(o: ObjId) {
    o == EVENT_OBJECT || o == ACL_OBJECT || o == MONITOR_OBJECT
  }

  /** The built-in objects are there, and they alone have no owner. */
  ghost predicate Owned(objects: map<ObjId, Obj>) {
    && (forall o :: Builtin(o) ==> o in objects)
    && forall o :: o in objects ==> (objects[o].client.None? <==> Builtin(o))
  }

  /** The objects that are left keep their owners. */
  ghost predicate SameOwners(objects: map<ObjId, Obj>, left: map<ObjId, Obj>, dead: set<ObjId>) {
    && left.Keys == objects.Keys - dead
    && forall o :: o in left ==> left[o].client == objects[o].client
  }

  lemma OwnedLeft(objects: map<ObjId, Obj>, left: map<ObjId, Obj>, dead: set<ObjId>)
    requires Owned(objects) && SameOwners(objects, left, dead)
    requires forall o :: o in dead && o in objects ==> objects[o].client.Some?
    ensures Owned(left)
  {
  }

  lemma LeftOwners(r: Reg, r': Reg, dead: set<ObjId>)
    requires LeftOf(r, r', dead)
    ensures SameOwners(r.objects, r'.objects, dead)
  {
  }

  lemma FreeOwners(r: Reg, o: ObjId)
    requires o in r.objects
    ensures SameOwners(r.objects, Free(r, o).objects, {o})
  {
    hide LeftOf, Free;
    LeftAll(r);
    LeftOfFree(r, r, {}, o);
    assert {} + {o} == {o};
    LeftOwners(r, Free(r, o), {o});
  }

  lemma DropOwners(r: Reg, gone: set<SubId>)
    ensures SameOwners(r.objects, DropSubs(r, gone).objects, {})
  {
  }

  lemma AddOwners(r: Reg, s: SubId, sub: Sub)
    requires sub.subscriber in r.objects && sub.target in r.objects && sub.subscriber != sub.target
    ensures SameOwners(r.objects, AddSub(r, s, sub).objects, {})
  {
  }

  // ----- subscriptions -----

  /** Only subscription records and the lists of them differ. */
  ghost predicate SameShape(r: Reg, r': Reg) {
    && r'.clients == r.clients && r'.types == r.types && r'.path == r.path && r'.monitors == r.monitors
    && r'.objects.Keys == r.objects.Keys
    && forall o :: o in r.objects ==>
         && r'.objects[o].client == r.objects[o].client
         && r'.objects[o].path == r.objects[o].path
         && r'.objects[o].typ == r.objects[o].typ
  }

  lemma SameShapeKeeps(r: Reg, r': Reg)
    requires SameShape(r, r') && ClientsOk(r) && PathOk(r) && TypesOk(r) && MonitorsOk(r)
    ensures ClientsOk(r') && PathOk(r') && TypesOk(r') && MonitorsOk(r')
  {
    hide Distinct;
    forall t ensures Users(r'.objects, t) == Users(r.objects, t) {}
  }

  ghost function DropFrom(o: Obj, s: set<SubId>): Obj {
    o.(subscribers := Without(o.subscribers, s), targets := Without(o.targets, s))
  }

  /** The registry without a set of subscription records. */
  ghost function DropSubs(r: Reg, s: set<SubId>): Reg {
    r.(subs := r.subs - s, objects := map o | o in r.objects :: DropFrom(r.objects[o], s))
  }

  lemma DropFromTwice(o: Obj, a: set<SubId>, b: set<SubId>)
    ensures DropFrom(DropFrom(o, a), b) == DropFrom(o, a + b)
  {
    WithoutTwice(o.subscribers, a, b);
    WithoutTwice(o.targets, a, b);
  }

  lemma DropSubsTwice(r: Reg, a: set<SubId>, b: set<SubId>)
    ensures DropSubs(DropSubs(r, a), b) == DropSubs(r, a + b)
  {
    hide DropFrom;
    forall o | o in r.objects
      ensures DropFrom(DropFrom(r.objects[o], a), b) == DropFrom(r.objects[o], a + b)
    {
      DropFromTwice(r.objects[o], a, b);
    }
    assert DropSubs(DropSubs(r, a), b).objects == DropSubs(r, a + b).objects;
    assert r.subs - a - b == r.subs - (a + b);
  }

  lemma DropNone(r: Reg)
    ensures DropSubs(r, {}) == r
  {
    forall o | o in r.objects ensures DropFrom(r.objects[o], {}) == r.objects[o] {
      WithoutNone(r.objects[o].subscribers, {});
      WithoutNone(r.objects[o].targets, {});
    }
    assert DropSubs(r, {}).objects == r.objects;
  }

  lemma DropKeepsSub(r: Reg, gone: set<SubId>, s: SubId)
    requires s in r.subs && s !in gone && SubOk(r, s)
    ensures SubOk(DropSubs(r, gone), s)
  {
    hide Without;
  }

  lemma DropKeepsLists(r: Reg, gone: set<SubId>, o: ObjId)
    requires o in r.objects && ListsOk(r, o)
    ensures ListsOk(DropSubs(r, gone), o)
  {
    hide Without, Distinct;
    WithoutDistinct(r.objects[o].subscribers, gone);
    WithoutDistinct(r.objects[o].targets, gone);
  }

  lemma DropSubsConsistent(r: Reg, gone: set<SubId>)
    requires Consistent(r)
    ensures Consistent(DropSubs(r, gone))
  {
    hide Without, Distinct, SubOk, ListsOk, ClientsOk, PathOk, TypesOk, MonitorsOk;
    var r' := DropSubs(r, gone);
    forall s | s in r'.subs ensures SubOk(r', s) { DropKeepsSub(r, gone, s); }
    forall o | o in r'.objects ensures ListsOk(r', o) { DropKeepsLists(r, gone, o); }
    SameShapeKeeps(r, r');
  }

  /** The registry with one more record, at the head of both lists. */
  ghost function AddSub(r: Reg, s: SubId, sub: Sub): Reg
    requires sub.subscriber in r.objects && sub.target in r.objects && sub.subscriber != sub.target
  {
    var o, t := r.objects[sub.subscriber], r.objects[sub.target];
    r.(subs := r.subs[s := sub],
       objects := r.objects[sub.target := t.(subscribers := [s] + t.subscribers)]
                           [sub.subscriber := o.(targets := [s] + o.targets)])
  }

  lemma AddKeepsSub(r: Reg, s: SubId, sub: Sub, k: SubId)
    requires sub.subscriber in r.objects && sub.target in r.objects && sub.subscriber != sub.target
    requires k in r.subs && k != s && SubOk(r, k)
    ensures SubOk(AddSub(r, s, sub), k)
  {
  }

  lemma AddKeepsLists(r: Reg, s: SubId, sub: Sub, o: ObjId)
    requires sub.subscriber in r.objects && sub.target in r.objects && sub.subscriber != sub.target
    requires s !in r.subs && o in r.objects && ListsOk(r, o)
    ensures ListsOk(AddSub(r, s, sub), o)
  {
    hide Distinct;
    DistinctCons(s, r.objects[o].subscribers);
    DistinctCons(s, r.objects[o].targets);
  }

  lemma AddedSub(r: Reg, s: SubId, sub: Sub)
    requires sub.subscriber in r.objects && sub.target in r.objects
    requires r.objects[sub.subscriber].client.Some? && r.objects[sub.target].client.Some?
    requires r.objects[sub.subscriber].client != r.objects[sub.target].client
    ensures SubOk(AddSub(r, s, sub), s) && SameShape(r, AddSub(r, s, sub))
  {
  }

  lemma AddSubConsistent(r: Reg, s: SubId, sub: Sub)
    requires Consistent(r) && s !in r.subs
    requires sub.subscriber in r.objects && sub.target in r.objects
    requires r.objects[sub.subscriber].client.Some? && r.objects[sub.target].client.Some?
    requires r.objects[sub.subscriber].client != r.objects[sub.target].client
    ensures Consistent(AddSub(r, s, sub))
  {
    hide SubOk, ListsOk, Distinct, ClientsOk, PathOk, TypesOk, MonitorsOk, SameShape;
    var r' := AddSub(r, s, sub);
    AddedSub(r, s, sub);
    SameShapeKeeps(r, r');
    forall k | k in r'.subs ensures SubOk(r', k) { if k != s { AddKeepsSub(r, s, sub, k); } }
    forall o | o in r'.objects ensures ListsOk(r', o) { AddKeepsLists(r, s, sub, o); }
  }

  // ----- objects -----

  /** The records an object is an end of. */
  ghost function SubsOf(r: Reg, o: ObjId): set<SubId> {
    set s | s in r.subs && (r.subs[s].subscriber == o || r.subs[s].target == o)
  }

  /** The count of a type after one more, or one less, use; a count of zero is not kept. */
  function Ref(types: map<TypeId, nat>, t: Option<TypeId>): map<TypeId, nat> {
    if t.None? then types
    else types[t.value := if t.value in types then types[t.value] + 1 else 1]
  }

  function Unref(types: map<TypeId, nat>, t: Option<TypeId>): map<TypeId, nat> {
    if t.None? || t.value !in types then types
    else if types[t.value] <= 1 then types - {t.value}
    else types[t.value := types[t.value] - 1]
  }

  /** A new object: no client and no path yet, no records. */
  ghost function NewObject(r: Reg, o: ObjId, typ: Option<TypeId>): Reg {
    r.(objects := r.objects[o := Obj(None, None, typ, [], [])], types := Ref(r.types, typ))
  }

  /** Nothing changes for the objects that have records. */
  ghost predicate SameSubs(r: Reg, r': Reg) {
    && r'.subs == r.subs
    && (forall o :: o in r.objects && o !in r'.objects ==> r.objects[o].subscribers == [] && r.objects[o].targets == [])
    && (forall o :: o in r'.objects && o !in r.objects ==> r'.objects[o].subscribers == [] && r'.objects[o].targets == [])
    && forall o :: o in r.objects && o in r'.objects ==>
         && r'.objects[o].subscribers == r.objects[o].subscribers
         && r'.objects[o].targets == r.objects[o].targets
         && (r'.objects[o].client == r.objects[o].client || (r.objects[o].subscribers == [] && r.objects[o].targets == []))
  }

  lemma SameSubsKeeps(r: Reg, r': Reg)
    requires SubsOk(r) && SameSubs(r, r')
    ensures SubsOk(r')
  {
    forall s | s in r'.subs ensures SubOk(r', s) { assert SubOk(r, s); }
    forall o | o in r'.objects ensures ListsOk(r', o) { if o in r.objects { assert ListsOk(r, o); } }
  }

  lemma SameTypesKeeps(r: Reg, r': Reg)
    requires TypesOk(r) && r'.types == r.types && r'.objects.Keys == r.objects.Keys
    requires forall o :: o in r.objects ==> r'.objects[o].typ == r.objects[o].typ
    ensures TypesOk(r')
  {
    forall t: TypeId ensures Users(r'.objects, t) == Users(r.objects, t) {}
  }

  lemma UsersAdd(objects: map<ObjId, Obj>, o: ObjId, ob: Obj, t: TypeId)
    requires o !in objects
    ensures Users(objects[o := ob], t) == Users(objects, t) + (if ob.typ == Some(t) then {o} else {})
    ensures |Users(objects[o := ob], t)| == |Users(objects, t)| + (if ob.typ == Some(t) then 1 else 0)
  {
    assert o !in Users(objects, t);
    assert Users(objects[o := ob], t) == Users(objects, t) + (if ob.typ == Some(t) then {o} else {});
  }

  lemma NoUsers(r: Reg, t: TypeId)
    requires TypesOk(r) && t !in r.types
    ensures Users(r.objects, t) == {}
  {
  }

  lemma NewObjectTypes(r: Reg, o: ObjId, typ: Option<TypeId>)
    requires TypesOk(r) && o !in r.objects
    ensures TypesOk(NewObject(r, o, typ))
  {
    var r' := NewObject(r, o, typ);
    if typ.Some? && typ.value !in r.types { NoUsers(r, typ.value); }
    hide Users;
    forall t | t in r'.types ensures 0 < r'.types[t] == |Users(r'.objects, t)| {
      UsersAdd(r.objects, o, Obj(None, None, typ, [], []), t);
    }
  }

  lemma NewObjectClients(r: Reg, o: ObjId, typ: Option<TypeId>)
    requires ClientsOk(r) && PathOk(r) && o !in r.objects
    ensures ClientsOk(NewObject(r, o, typ)) && PathOk(NewObject(r, o, typ))
  {
    hide Distinct;
  }

  lemma NewObjectConsistent(r: Reg, o: ObjId, typ: Option<TypeId>)
    requires Consistent(r) && o !in r.objects
    ensures Consistent(NewObject(r, o, typ))
  {
    hide Distinct, TypesOk, SubsOk, ClientsOk, PathOk;
    NewObjectTypes(r, o, typ);
    NewObjectClients(r, o, typ);
    SameSubsKeeps(r, NewObject(r, o, typ));
  }

  /** The object gets its path. */
  ghost function SetPath(r: Reg, o: ObjId, p: CStr): Reg
    requires o in r.objects
  {
    r.(objects := r.objects[o := r.objects[o].(path := Some(p))], path := r.path[p := o])
  }

  lemma SetPathPaths(r: Reg, o: ObjId, p: CStr)
    requires PathOk(r) && o in r.objects && r.objects[o].path.None? && p !in r.path
    ensures PathOk(SetPath(r, o, p))
  {
    var r' := SetPath(r, o, p);
    forall q | q in r'.path ensures r'.path[q] in r'.objects && r'.objects[r'.path[q]].path == Some(q) {
      if q != p { assert r.objects[r.path[q]].path == Some(q); }
    }
  }

  /** The owners stay as they are. */
  lemma SameClientsKeeps(r: Reg, r': Reg)
    requires ClientsOk(r) && MonitorsOk(r) && r'.clients == r.clients && r'.monitors == r.monitors
    requires r'.objects.Keys == r.objects.Keys
    requires forall o :: o in r.objects ==> r'.objects[o].client == r.objects[o].client
    ensures ClientsOk(r') && MonitorsOk(r')
  {
    hide Distinct;
  }

  lemma SetPathConsistent(r: Reg, o: ObjId, p: CStr)
    requires Consistent(r) && o in r.objects && r.objects[o].path.None? && p !in r.path
    ensures Consistent(SetPath(r, o, p))
  {
    hide Distinct, TypesOk, SubsOk, PathOk, ClientsOk, MonitorsOk;
    SetPathPaths(r, o, p);
    SameClientsKeeps(r, SetPath(r, o, p));
    SameTypesKeeps(r, SetPath(r, o, p));
    SameSubsKeeps(r, SetPath(r, o, p));
  }

  /** The object gets its client, and goes to the head of the client's list. */
  ghost function SetClient(r: Reg, o: ObjId, c: ClientId): Reg
    requires o in r.objects && c in r.clients
  {
    r.(objects := r.objects[o := r.objects[o].(client := Some(c))], clients := r.clients[c := [o] + r.clients[c]])
  }

  lemma SetClientClients(r: Reg, o: ObjId, c: ClientId)
    requires ClientsOk(r) && o in r.objects && r.objects[o].client.None? && c in r.clients
    ensures ClientsOk(SetClient(r, o, c))
  {
    assert o !in r.clients[c];
    DistinctCons(o, r.clients[c]);
    hide Distinct;
  }

  lemma SamePathsKeeps(r: Reg, r': Reg)
    requires PathOk(r) && r'.path == r.path && r'.objects.Keys == r.objects.Keys
    requires forall o :: o in r.objects ==> r'.objects[o].path == r.objects[o].path
    ensures PathOk(r')
  {
  }

  lemma SetClientConsistent(r: Reg, o: ObjId, c: ClientId)
    requires Consistent(r) && o in r.objects && r.objects[o].client.None? && c in r.clients
    requires r.objects[o].subscribers == [] && r.objects[o].targets == []
    ensures Consistent(SetClient(r, o, c))
  {
    hide Distinct, TypesOk, SubsOk, ClientsOk, PathOk;
    SetClientClients(r, o, c);
    SamePathsKeeps(r, SetClient(r, o, c));
    SameTypesKeeps(r, SetClient(r, o, c));
    SameSubsKeeps(r, SetClient(r, o, c));
  }

  /** The object without records goes: out of the path tree, its client's list and the tree of
      objects, and its type loses a use. */
  ghost function Delete(r: Reg, o: ObjId): Reg
    requires o in r.objects
  {
    var ob := r.objects[o];
    r.(objects := r.objects - {o},
       path := if ob.path.Some? then r.path - {ob.path.value} else r.path,
       clients := if ob.client.Some? && ob.client.value in r.clients
                  then r.clients[ob.client.value := Without(r.clients[ob.client.value], {o})] else r.clients,
       types := Unref(r.types, ob.typ))
  }

  lemma DeleteTypes(r: Reg, o: ObjId)
    requires TypesOk(r) && o in r.objects
    ensures TypesOk(Delete(r, o))
  {
    var r' := Delete(r, o);
    forall t: TypeId ensures Users(r'.objects, t) == Users(r.objects, t) - {o} {}
    var typ := r.objects[o].typ;
    if typ.Some? {
      assert o in Users(r.objects, typ.value);
      assert |Users(r.objects, typ.value) - {o}| == r.types[typ.value] - 1;
      if r.types[typ.value] <= 1 { assert Users(r'.objects, typ.value) == {}; }
    }
    forall t | t in r'.types ensures 0 < r'.types[t] == |Users(r'.objects, t)| {
      if typ != Some(t) { assert o !in Users(r.objects, t); }
    }
  }

  lemma DeleteClients(r: Reg, o: ObjId)
    requires ClientsOk(r) && o in r.objects
    ensures ClientsOk(Delete(r, o))
  {
    hide Without, Distinct;
    var cl := r.objects[o].client;
    if cl.Some? { WithoutDistinct(r.clients[cl.value], {o}); }
  }

  lemma DeleteConsistent(r: Reg, o: ObjId)
    requires Consistent(r) && o in r.objects
    requires r.objects[o].subscribers == [] && r.objects[o].targets == []
    ensures Consistent(Delete(r, o))
  {
    hide Without, Distinct, TypesOk, ClientsOk, SubsOk;
    DeleteTypes(r, o);
    DeleteClients(r, o);
    SameSubsKeeps(r, Delete(r, o));
  }

  /** Freeing an object: its records go, then the object. */
  ghost function Free(r: Reg, o: ObjId): Reg
    requires o in r.objects
  {
    Delete(DropSubs(r, SubsOf(r, o)), o)
  }

  lemma ListsAreSubsOf(r: Reg, o: ObjId)
    requires SubsOk(r) && o in r.objects
    ensures SubsOf(r, o) == Elements(r.objects[o].targets) + Elements(r.objects[o].subscribers)
  {
    hide Distinct;
    assert ListsOk(r, o);
    forall s | s in SubsOf(r, o) ensures s in r.objects[o].targets || s in r.objects[o].subscribers {
      assert SubOk(r, s);
    }
  }

  lemma DropOwnLists(r: Reg, o: ObjId)
    requires SubsOk(r) && o in r.objects
    ensures DropSubs(r, SubsOf(r, o)).objects[o].subscribers == [] && DropSubs(r, SubsOf(r, o)).objects[o].targets == []
  {
    ListsAreSubsOf(r, o);
    WithoutAll(r.objects[o].subscribers, SubsOf(r, o));
    WithoutAll(r.objects[o].targets, SubsOf(r, o));
  }

  /** A type is deleted by freeing an object exactly when its count was one. */
  lemma TypeDropped(r: Reg, o: ObjId, t: TypeId)
    requires Consistent(r) && o in r.objects && r.objects[o].typ == Some(t)
    ensures t !in Free(r, o).types <==> r.types[t] == 1
  {
  }

  // ----- clients and monitors -----

  ghost function Connect(r: Reg, c: ClientId): Reg {
    r.(clients := r.clients[c := []])
  }

  lemma ConnectConsistent(r: Reg, c: ClientId)
    requires Consistent(r) && c !in r.clients
    ensures Consistent(Connect(r, c))
  {
    hide SubsOk, TypesOk, PathOk;
    SameTypesKeeps(r, Connect(r, c));
    SameSubsKeeps(r, Connect(r, c));
    SamePathsKeeps(r, Connect(r, c));
  }

  ghost function RemoveClient(r: Reg, c: ClientId): Reg {
    r.(clients := r.clients - {c})
  }

  lemma RemoveClientConsistent(r: Reg, c: ClientId)
    requires Consistent(r) && c in r.clients && r.clients[c] == [] && c !in r.monitors
    ensures Consistent(RemoveClient(r, c))
  {
    hide SubsOk, TypesOk, PathOk, Distinct;
    SameTypesKeeps(r, RemoveClient(r, c));
    SameSubsKeeps(r, RemoveClient(r, c));
    SamePathsKeeps(r, RemoveClient(r, c));
  }

  ghost function SetMonitors(r: Reg, ms: seq<ClientId>): Reg {
    r.(monitors := ms)
  }

  lemma SetMonitorsConsistent(r: Reg, ms: seq<ClientId>)
    requires Consistent(r) && Distinct(ms) && forall c :: c in ms ==> c in r.clients
    ensures Consistent(SetMonitors(r, ms))
  {
    hide SubsOk, TypesOk, PathOk, ClientsOk, Distinct;
    SameTypesKeeps(r, SetMonitors(r, ms));
    SameSubsKeeps(r, SetMonitors(r, ms));
    SamePathsKeeps(r, SetMonitors(r, ms));
    ClientsKept(r, ms);
  }

  lemma ClientsKept(r: Reg, ms: seq<ClientId>)
    requires ClientsOk(r)
    ensures ClientsOk(SetMonitors(r, ms))
  {
  }

  // ----- freeing many objects -----

  /** The records with an end among the given objects. */
  ghost function Touching(r: Reg, dead: set<ObjId>): set<SubId> {
    set s | s in r.subs && (r.subs[s].subscriber in dead || r.subs[s].target in dead)
  }

  /** `r'` is what is left of `r` without the given objects: no record touches them, and what is
      left is otherwise as it was. */
  ghost predicate LeftOf(r: Reg, r': Reg, dead: set<ObjId>) {
    && r'.objects.Keys == r.objects.Keys - dead
    && r'.subs == r.subs - Touching(r, dead)
    && forall o :: o in r'.objects ==> r'.objects[o] == DropFrom(r.objects[o], Touching(r, dead))
  }

  lemma LeftAll(r: Reg)
    ensures LeftOf(r, r, {})
  {
    assert Touching(r, {}) == {};
    DropNone(r);
    forall o | o in r.objects ensures r.objects[o] == DropFrom(r.objects[o], {}) {
      assert DropSubs(r, {}).objects[o] == r.objects[o];
    }
  }

  lemma LeftOfFree(r: Reg, r': Reg, dead: set<ObjId>, o: ObjId)
    requires LeftOf(r, r', dead) && o in r'.objects
    ensures LeftOf(r, Free(r', o), dead + {o})
  {
    hide Without, Delete, DropFrom;
    DeleteObjects(DropSubs(r', SubsOf(r', o)), o);
    var a, b := Touching(r, dead), SubsOf(r', o);
    assert Touching(r, dead + {o}) == a + b;
    forall k | k in r'.objects ensures DropFrom(DropFrom(r.objects[k], a), b) == DropFrom(r.objects[k], a + b) {
      DropFromTwice(r.objects[k], a, b);
    }
  }

  lemma DeleteObjects(r: Reg, o: ObjId)
    requires o in r.objects
    ensures Delete(r, o).objects == r.objects - {o} && Delete(r, o).subs == r.subs && Delete(r, o).monitors == r.monitors
  {
  }

  // ----- what the daemon tells object owners -----

  /** A message to an object's client: the object gained its first subscriber or lost its last one;
      or a target of the object is gone. */
  datatype Note = Activity(target: ObjId, active: bool) | Gone(sub: Sub)

  function ActivityOf(out: seq<Note>, o: ObjId): seq<bool> {
    if out == [] then []
    else
      var n := out[|out| - 1];
      ActivityOf(out[..|out| - 1], o) + (if n.Activity? && n.target == o then [n.active] else [])
  }

  function GoneOf(out: seq<Note>): seq<Sub> {
    if out == [] then []
    else
      var n := out[|out| - 1];
      GoneOf(out[..|out| - 1]) + (if n.Gone? then [n.sub] else [])
  }

  lemma ActivitySnoc(out: seq<Note>, n: Note, o: ObjId)
    ensures ActivityOf(out + [n], o) == ActivityOf(out, o) + (if n.Activity? && n.target == o then [n.active] else [])
    ensures GoneOf(out + [n]) == GoneOf(out) + (if n.Gone? then [n.sub] else [])
  {
    assert (out + [n])[..|out|] == out;
  }

  /** The activity notes of an object alternate, beginning with true, and the last one says whether
      it has subscribers. */
  ghost predicate Told(notes: seq<bool>, active: bool) {
    && (forall i :: 0 <= i < |notes| ==> notes[i] == (i % 2 == 0))
    && (|notes| % 2 == 1 <==> active)
  }

  ghost predicate HasSubscribers(objects: map<ObjId, Obj>, o: ObjId) {
    o in objects && objects[o].subscribers != []
  }

  ghost predicate LogOk(out: seq<Note>, objects: map<ObjId, Obj>) {
    forall o {:trigger ActivityOf(out, o)} :: Told(ActivityOf(out, o), HasSubscribers(objects, o))
  }

  /** A note is due exactly when an object starts or stops having subscribers. */
  lemma LogStep(out: seq<Note>, objects: map<ObjId, Obj>, objects': map<ObjId, Obj>, t: ObjId)
    requires LogOk(out, objects)
    requires forall o :: o != t ==> HasSubscribers(objects', o) == HasSubscribers(objects, o)
    ensures HasSubscribers(objects', t) == HasSubscribers(objects, t) ==> LogOk(out, objects')
    ensures HasSubscribers(objects', t) != HasSubscribers(objects, t) ==>
      LogOk(out + [Activity(t, HasSubscribers(objects', t))], objects')
  {
    hide HasSubscribers;
    if HasSubscribers(objects', t) != HasSubscribers(objects, t) {
      var n := Activity(t, HasSubscribers(objects', t));
      forall o ensures Told(ActivityOf(out + [n], o), HasSubscribers(objects', o)) {
        ActivitySnoc(out, n, o);
      }
    }
  }

  lemma LogGone(out: seq<Note>, objects: map<ObjId, Obj>, sub: Sub)
    requires LogOk(out, objects)
    ensures LogOk(out + [Gone(sub)], objects)
  {
    forall o ensures Told(ActivityOf(out + [Gone(sub)], o), HasSubscribers(objects, o)) {
      ActivitySnoc(out, Gone(sub), o);
    }
  }
}
