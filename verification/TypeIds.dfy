/** Object types on both ends of a connection (`ubusd_handle_add_object` and `ubusd_handle_remove_object` in
    `ubusd_proto.c`, `ubus_add_object`, `ubus_remove_object` and their callbacks in `libubus-obj.c`): a client
    remembers the id of a type it has registered, and must forget it when the daemon drops the type.

    Requests and replies travel in order, and the client may send further requests, from its callbacks,
    before a reply has come.  The client's types are used by no other client. */
module TypeIds {
  import opened Options
  import opened Ubus

  /** A `struct ubus_object_type` of the client. */
  type LocalType = nat

  /** ADD_OBJECT by type id or by signature, and REMOVE_OBJECT, for an object with the given type. */
  datatype Request =
    | AddById(local: LocalType, typ: TypeId)
    | AddBySignature(local: LocalType)
    | Remove(local: LocalType, obj: ObjId)

  /** The DATA replies: a type is named after a signature, or when it is dropped. */
  datatype Reply =
    | Added(local: LocalType, obj: ObjId, named: Option<TypeId>)
    | Removed(local: LocalType, obj: ObjId, named: Option<TypeId>)

  /** `objects` and `types` are the daemon's: the type of each of the client's objects, and the count of each
      type.  `ids` and `known` are the client's: the id remembered for each type, 0 for none, and the type of
      each object it knows by id.  `typeOf` and `objectOf` record for which type every id was handed out. */
  datatype State = State(
    objects: map<ObjId, Option<TypeId>>, types: map<TypeId, nat>, requests: seq<Request>, replies: seq<Reply>,
    ids: map<LocalType, TypeId>, known: map<ObjId, LocalType>,
    typeOf: map<TypeId, LocalType>, objectOf: map<ObjId, LocalType>)

  function Init(): State {
    State(map[], map[], [], [], map[], map[], map[], map[])
  }

  function IdOf(ids: map<LocalType, TypeId>, l: LocalType): TypeId {
    if l in ids then ids[l] else 0
  }

  // ----- steps -----

  datatype Step =
    | SendAdd(l: LocalType)
    | SendRemove(o: ObjId)
    | Handle(ok: bool, obj: ObjId, typ: TypeId)
    | ReceiveReply

  /** An id that is handed out is not in use, and not one of the reserved ones. */
  predicate Enabled(s: State, step: Step) {
    match step
    case SendAdd(l) => true
    case SendRemove(o) => o in s.known
    case Handle(_, obj, typ) =>
      s.requests != [] && obj !in s.objects && typ !in s.types && SYSTEM_OBJECT_MAX <= obj && SYSTEM_OBJECT_MAX <= typ
    case ReceiveReply => s.replies != []
  }

  /** The ids are 32-bit random numbers: here none is one that has been in use before. */
  predicate NewIds(s: State, step: Step) {
    step.Handle? ==> step.obj !in s.objectOf && step.typ !in s.typeOf
  }

  function Apply(s: State, step: Step): State
    requires Enabled(s, step)
  {
    match step
    case SendAdd(l) =>
      var id := IdOf(s.ids, l);
      s.(requests := s.requests + [if id != 0 then AddById(l, id) else AddBySignature(l)])
    case SendRemove(o) => s.(requests := s.requests + [Remove(s.known[o], o)])
    case Handle(ok, obj, typ) => HandleRequest(s, ok, obj, typ)
    case ReceiveReply => s.(ids := Learn(s.ids, s.replies[0]), known := Meet(s.known, s.replies[0]), replies := s.replies[1..])
  }

  /** `ubus_add_object_cb` and `ubus_remove_object_cb`: what a reply does to the remembered id of the type, and
      to the objects known by id. */
  function Learn(ids: map<LocalType, TypeId>, r: Reply): map<LocalType, TypeId> {
    if r.named.None? then ids else ids[r.local := if r.Added? then r.named.value else 0]
  }

  function Meet(known: map<ObjId, LocalType>, r: Reply): map<ObjId, LocalType> {
    if r.Added? then known[r.obj := r.local] else known - {r.obj}
  }

  /** The daemon handles a request.  `ok` is false when an addition is refused, which leaves no trace and
      gets no DATA reply. */
  function HandleRequest(s: State, ok: bool, obj: ObjId, typ: TypeId): State
    requires s.requests != []
  {
    var t := s.(requests := s.requests[1..]);
    match s.requests[0]
    case AddById(l, id) => if ok then AddTyped(t, l, obj, if id in s.types then Some(id) else None, None) else t
    case AddBySignature(l) => if ok then AddTyped(t.(typeOf := s.typeOf[typ := l]), l, obj, Some(typ), Some(typ)) else t
    case Remove(l, o) => if o in s.objects then Drop(t, l, o) else t
  }

  function AddTyped(s: State, l: LocalType, obj: ObjId, typ: Option<TypeId>, named: Option<TypeId>): State {
    s.(objects := s.objects[obj := typ],
       types := if typ.None? then s.types else s.types[typ.value := if typ.value in s.types then s.types[typ.value] + 1 else 1],
       objectOf := s.objectOf[obj := l],
       replies := s.replies + [Added(l, obj, named)])
  }

  function Drop(s: State, l: LocalType, o: ObjId): State
    requires o in s.objects
  {
    var typ, rest := s.objects[o], s.(objects := s.objects - {o});
    if typ.None? || typ.value !in s.types then rest.(replies := s.replies + [Removed(l, o, None)])
    else if s.types[typ.value] <= 1 then rest.(types := s.types - {typ.value}, replies := s.replies + [Removed(l, o, typ)])
    else rest.(types := s.types[typ.value := s.types[typ.value] - 1], replies := s.replies + [Removed(l, o, None)])
  }

  // ----- what the client will remember once all replies have come -----

  function LearnAll(ids: map<LocalType, TypeId>, replies: seq<Reply>): map<LocalType, TypeId> {
    if replies == [] then ids else Learn(LearnAll(ids, replies[..|replies| - 1]), replies[|replies| - 1])
  }

  lemma LearnSnoc(ids: map<LocalType, TypeId>, replies: seq<Reply>, r: Reply)
    ensures LearnAll(ids, replies + [r]) == Learn(LearnAll(ids, replies), r)
  {
    assert (replies + [r])[..|replies|] == replies;
  }

  lemma {:induction false} LearnHead(ids: map<LocalType, TypeId>, replies: seq<Reply>)
    requires replies != []
    ensures LearnAll(ids, replies) == LearnAll(Learn(ids, replies[0]), replies[1..])
  {
    hide Learn;
    var n := |replies| - 1;
    if n == 0 {
      assert replies[..0] == [] && replies[1..] == [];
    } else {
      LearnHead(ids, replies[..n]);
      assert replies[..n][1..] == replies[1..][..n - 1] && replies[1..][n - 1] == replies[n];
    }
  }

  // ----- the invariant -----

  ghost function Users(objects: map<ObjId, Option<TypeId>>, t: TypeId): set<ObjId> {
    set o | o in objects && objects[o] == Some(t)
  }

  /** The daemon counts the users of each type, and an object's type was handed out for the object's. */
  ghost predicate DaemonOk(s: State) {
    && (forall t :: t in s.types ==> t in s.typeOf && 0 < s.types[t] == |Users(s.objects, t)|)
    && (forall o :: o in s.objects ==> o in s.objectOf)
    && (forall o :: o in s.objects && s.objects[o].Some? ==>
          s.objects[o].value in s.types && s.typeOf[s.objects[o].value] == s.objectOf[o])
    && 0 !in s.typeOf
  }

  ghost predicate RequestOk(r: Request, typeOf: map<TypeId, LocalType>, objectOf: map<ObjId, LocalType>) {
    match r
    case AddById(l, t) => t in typeOf && typeOf[t] == l
    case AddBySignature(_) => true
    case Remove(l, o) => o in objectOf && objectOf[o] == l
  }

  ghost predicate ReplyOk(r: Reply, typeOf: map<TypeId, LocalType>, objectOf: map<ObjId, LocalType>) {
    && r.obj in objectOf && objectOf[r.obj] == r.local
    && (r.named.Some? ==> r.named.value in typeOf && typeOf[r.named.value] == r.local)
  }

  ghost predicate IdsOk(ids: map<LocalType, TypeId>, typeOf: map<TypeId, LocalType>) {
    forall l :: IdOf(ids, l) != 0 ==> IdOf(ids, l) in typeOf && typeOf[IdOf(ids, l)] == l
  }

  /** What travels and what the client knows was handed out for the types it is used with. */
  ghost predicate LinkOk(s: State) {
    && (forall i :: 0 <= i < |s.requests| ==> RequestOk(s.requests[i], s.typeOf, s.objectOf))
    && (forall i :: 0 <= i < |s.replies| ==> ReplyOk(s.replies[i], s.typeOf, s.objectOf))
    && IdsOk(s.ids, s.typeOf)
    && (forall o :: o in s.known ==> o in s.objectOf && s.objectOf[o] == s.known[o])
  }

  /** Every remembered id is that of a type. */
  ghost predicate Current(ids: map<LocalType, TypeId>, types: map<TypeId, nat>) {
    forall l :: IdOf(ids, l) != 0 ==> IdOf(ids, l) in types
  }

  /** No id is remembered, once all replies have come, that the daemon has dropped. */
  ghost predicate NotStale(s: State) {
    Current(LearnAll(s.ids, s.replies), s.types)
  }

  ghost predicate Inv(s: State) {
    DaemonOk(s) && LinkOk(s) && NotStale(s)
  }

  lemma LearnOk(ids: map<LocalType, TypeId>, r: Reply, typeOf: map<TypeId, LocalType>, objectOf: map<ObjId, LocalType>)
    requires IdsOk(ids, typeOf) && ReplyOk(r, typeOf, objectOf)
    ensures IdsOk(Learn(ids, r), typeOf)
  {
    forall l | IdOf(Learn(ids, r), l) != 0
      ensures IdOf(Learn(ids, r), l) in typeOf && typeOf[IdOf(Learn(ids, r), l)] == l
    {
      if r.named.None? || l != r.local { assert IdOf(Learn(ids, r), l) == IdOf(ids, l); }
    }
  }

  lemma {:induction false} LearnAllOk(ids: map<LocalType, TypeId>, replies: seq<Reply>, typeOf: map<TypeId, LocalType>,
                                      objectOf: map<ObjId, LocalType>)
    requires IdsOk(ids, typeOf) && forall i :: 0 <= i < |replies| ==> ReplyOk(replies[i], typeOf, objectOf)
    ensures IdsOk(LearnAll(ids, replies), typeOf)
  {
    hide Learn, IdsOk, ReplyOk;
    if replies != [] {
      var n := |replies| - 1;
      LearnAllOk(ids, replies[..n], typeOf, objectOf);
      LearnOk(LearnAll(ids, replies[..n]), replies[n], typeOf, objectOf);
    }
  }

  lemma UsersAdd(objects: map<ObjId, Option<TypeId>>, obj: ObjId, typ: Option<TypeId>, t: TypeId)
    requires obj !in objects
    ensures |Users(objects[obj := typ], t)| == |Users(objects, t)| + if typ == Some(t) then 1 else 0
  {
    assert obj !in Users(objects, t);
    assert Users(objects[obj := typ], t) == Users(objects, t) + (if typ == Some(t) then {obj} else {});
  }

  lemma NoUsers(s: State, t: TypeId)
    requires DaemonOk(s) && t !in s.types
    ensures |Users(s.objects, t)| == 0
  {
    assert Users(s.objects, t) == {};
  }

  lemma AddTypedDaemon(s: State, l: LocalType, obj: ObjId, typ: Option<TypeId>, named: Option<TypeId>)
    requires DaemonOk(s) && obj !in s.objectOf
    requires typ.Some? ==> typ.value in s.typeOf && s.typeOf[typ.value] == l
    ensures DaemonOk(AddTyped(s, l, obj, typ, named))
  {
    var s' := AddTyped(s, l, obj, typ, named);
    if typ.Some? && typ.value !in s.types { NoUsers(s, typ.value); }
    hide Users;
    forall t | t in s'.types ensures t in s'.typeOf && 0 < s'.types[t] == |Users(s'.objects, t)| {
      UsersAdd(s.objects, obj, typ, t);
    }
  }

  lemma UsersDrop(objects: map<ObjId, Option<TypeId>>, o: ObjId, t: TypeId)
    requires o in objects
    ensures |Users(objects - {o}, t)| == |Users(objects, t)| - if objects[o] == Some(t) then 1 else 0
    ensures |Users(objects - {o}, t)| == 0 ==> forall k :: k in objects && k != o ==> objects[k] != Some(t)
  {
    var rest := Users(objects - {o}, t);
    assert o !in rest;
    assert Users(objects, t) == rest + (if objects[o] == Some(t) then {o} else {});
    assert rest == {} ==> forall k :: k in objects && k != o && objects[k] == Some(t) ==> k in rest;
  }

  lemma DropDaemon(s: State, l: LocalType, o: ObjId)
    requires DaemonOk(s) && o in s.objects
    ensures DaemonOk(Drop(s, l, o))
  {
    hide Users;
    var s', typ := Drop(s, l, o), s.objects[o];
    forall t | t in s'.types ensures t in s'.typeOf && 0 < s'.types[t] == |Users(s'.objects, t)| {
      UsersDrop(s.objects, o, t);
    }
    if typ.Some? { UsersDrop(s.objects, o, typ.value); }
  }

  /** More ids handed out disturb no account. */
  lemma LinkGrows(s: State, s': State)
    requires LinkOk(s)
    requires s'.requests == s.requests && s'.replies == s.replies && s'.ids == s.ids && s'.known == s.known
    requires forall t :: t in s.typeOf ==> t in s'.typeOf && s'.typeOf[t] == s.typeOf[t]
    requires forall o :: o in s.objectOf ==> o in s'.objectOf && s'.objectOf[o] == s.objectOf[o]
    ensures LinkOk(s')
  {
    forall i | 0 <= i < |s'.requests| ensures RequestOk(s'.requests[i], s'.typeOf, s'.objectOf) {
      assert RequestOk(s.requests[i], s.typeOf, s.objectOf);
    }
    forall i | 0 <= i < |s'.replies| ensures ReplyOk(s'.replies[i], s'.typeOf, s'.objectOf) {
      assert ReplyOk(s.replies[i], s.typeOf, s.objectOf);
    }
  }

  /** A reply in the making: it was handed out right, and after it no dropped id is remembered. */
  lemma ReplySent(s: State, r: Reply, types: map<TypeId, nat>)
    requires LinkOk(s) && NotStale(s) && ReplyOk(r, s.typeOf, s.objectOf)
    requires r.Added? && r.named.Some? ==> r.named.value in types
    requires forall t :: t in s.types && t !in types ==> r == Removed(r.local, r.obj, Some(t))
    ensures forall l :: IdOf(LearnAll(s.ids, s.replies + [r]), l) != 0 ==> IdOf(LearnAll(s.ids, s.replies + [r]), l) in types
  {
    var ids := LearnAll(s.ids, s.replies);
    LearnSnoc(s.ids, s.replies, r);
    LearnAllOk(s.ids, s.replies, s.typeOf, s.objectOf);
    hide LearnAll;
    forall l | IdOf(Learn(ids, r), l) != 0 ensures IdOf(Learn(ids, r), l) in types {
      if r.named.Some? && l == r.local {
      } else {
        assert IdOf(Learn(ids, r), l) == IdOf(ids, l);
      }
    }
  }

  lemma SendInv(s: State, step: Step)
    requires Inv(s) && Enabled(s, step) && (step.SendAdd? || step.SendRemove?)
    ensures Inv(Apply(s, step))
  {
    hide Users, LearnAll;
    var s' := Apply(s, step);
    forall i | 0 <= i < |s'.requests| ensures RequestOk(s'.requests[i], s'.typeOf, s'.objectOf) {
      if i < |s.requests| { assert RequestOk(s.requests[i], s.typeOf, s.objectOf); }
    }
  }

  lemma ReceiveInv(s: State)
    requires Inv(s) && Enabled(s, ReceiveReply)
    ensures Inv(Apply(s, ReceiveReply))
  {
    var s' := Apply(s, ReceiveReply);
    LearnHead(s.ids, s.replies);
    assert ReplyOk(s.replies[0], s.typeOf, s.objectOf);
    LearnOk(s.ids, s.replies[0], s.typeOf, s.objectOf);
    hide LearnAll, Learn, IdsOk, Users;
    forall i | 0 <= i < |s'.replies| ensures ReplyOk(s'.replies[i], s'.typeOf, s'.objectOf) {
      assert ReplyOk(s.replies[i + 1], s.typeOf, s.objectOf);
    }
  }

  /** The head of the requests is taken off. */
  lemma Taken(s: State)
    requires Inv(s) && s.requests != []
    ensures Inv(s.(requests := s.requests[1..])) && RequestOk(s.requests[0], s.typeOf, s.objectOf)
  {
    hide LearnAll, IdsOk, Users;
    var t := s.(requests := s.requests[1..]);
    forall i | 0 <= i < |t.requests| ensures RequestOk(t.requests[i], t.typeOf, t.objectOf) {
      assert RequestOk(s.requests[i + 1], s.typeOf, s.objectOf);
    }
  }

  lemma AddInv(s: State, l: LocalType, obj: ObjId, typ: Option<TypeId>, named: Option<TypeId>)
    requires Inv(s) && obj !in s.objectOf
    requires typ.Some? ==> typ.value in s.typeOf && s.typeOf[typ.value] == l
    requires named.Some? ==> named == typ
    ensures Inv(AddTyped(s, l, obj, typ, named))
  {
    var s' := AddTyped(s, l, obj, typ, named);
    AddTypedDaemon(s, l, obj, typ, named);
    var wide := s.(objectOf := s'.objectOf);
    LinkGrows(s, wide);
    hide DaemonOk, LearnAll, IdsOk;
    ReplySent(wide, Added(l, obj, named), s'.types);
    forall i | 0 <= i < |s'.replies| ensures ReplyOk(s'.replies[i], s'.typeOf, s'.objectOf) {
      if i < |s.replies| { assert ReplyOk(wide.replies[i], wide.typeOf, wide.objectOf); }
    }
  }

  lemma NewTypeInv(s: State, l: LocalType, typ: TypeId)
    requires Inv(s) && typ !in s.typeOf && typ != 0
    ensures Inv(s.(typeOf := s.typeOf[typ := l]))
  {
    hide Users, LearnAll;
    LinkGrows(s, s.(typeOf := s.typeOf[typ := l]));
  }

  /** The reply to a removal names the type exactly when the type goes. */
  lemma DropReply(s: State, l: LocalType, o: ObjId)
    requires DaemonOk(s) && o in s.objects && s.objectOf[o] == l
    ensures var s' := Drop(s, l, o);
      && s' == s.(objects := s'.objects, types := s'.types, replies := s'.replies)
      && |s'.replies| == |s.replies| + 1
      && var r := s'.replies[|s.replies|];
         && s'.replies == s.replies + [r] && r.Removed? && r.local == l && r.obj == o
         && ReplyOk(r, s.typeOf, s.objectOf)
         && (forall t :: t in s.types && t !in s'.types <==> r.named == Some(t))
  {
    hide Users;
  }

  lemma DropInv(s: State, l: LocalType, o: ObjId)
    requires Inv(s) && o in s.objects && o in s.objectOf && s.objectOf[o] == l
    ensures Inv(Drop(s, l, o))
  {
    var s' := Drop(s, l, o);
    DropDaemon(s, l, o);
    DropReply(s, l, o);
    var r := s'.replies[|s.replies|];
    hide DaemonOk, LearnAll, IdsOk, ReplyOk, RequestOk, Drop;
    ReplySent(s, r, s'.types);
  }

  lemma StepInv(s: State, step: Step)
    requires Inv(s) && Enabled(s, step) && NewIds(s, step)
    ensures Inv(Apply(s, step))
  {
    hide Inv, AddTyped, Drop;
    match step
    case SendAdd(_) => SendInv(s, step);
    case SendRemove(_) => SendInv(s, step);
    case ReceiveReply => ReceiveInv(s);
    case Handle(ok, obj, typ) =>
      Taken(s);
      var t := s.(requests := s.requests[1..]);
      match s.requests[0] {
        case AddById(l, id) => if ok { AddInv(t, l, obj, if id in s.types then Some(id) else None, None); }
        case AddBySignature(l) =>
          if ok {
            NewTypeInv(t, l, typ);
            AddInv(t.(typeOf := t.typeOf[typ := l]), l, obj, Some(typ), Some(typ));
          }
        case Remove(l, o) => if o in s.objects { DropInv(t, l, o); }
      }
  }

  // ----- runs -----

  predicate Feasible(s: State, steps: seq<Step>)
    decreases |steps|
  {
    steps == [] || (Enabled(s, steps[0]) && Feasible(Apply(s, steps[0]), steps[1..]))
  }

  predicate NoIdTwice(s: State, steps: seq<Step>)
    requires Feasible(s, steps)
    decreases |steps|
  {
    steps == [] || (NewIds(s, steps[0]) && NoIdTwice(Apply(s, steps[0]), steps[1..]))
  }

  function Run(s: State, steps: seq<Step>): State
    requires Feasible(s, steps)
    decreases |steps|
  {
    if steps == [] then s else Run(Apply(s, steps[0]), steps[1..])
  }

  lemma {:induction false} RunInv(s: State, steps: seq<Step>)
    requires Inv(s) && Feasible(s, steps) && NoIdTwice(s, steps)
    ensures Inv(Run(s, steps))
    decreases |steps|
  {
    hide Inv, Apply;
    if steps != [] {
      StepInv(s, steps[0]);
      RunInv(Apply(s, steps[0]), steps[1..]);
    }
  }

  // ----- exactly when -----

  /** The removal drops a type that the client will go on remembering as the id of another of its types. */
  ghost predicate DropsShared(s: State, l: LocalType, o: ObjId) {
    && o in s.objects && s.objects[o].Some? && s.objects[o].value in s.types && s.types[s.objects[o].value] <= 1
    && exists k :: k != l && IdOf(LearnAll(s.ids, s.replies), k) == s.objects[o].value
  }

  /** The daemon handles such a removal. */
  ghost predicate Shared(s: State, step: Step) {
    step.Handle? && s.requests != [] && s.requests[0].Remove? && DropsShared(s, s.requests[0].local, s.requests[0].obj)
  }

  lemma LearnAdded(ids: map<LocalType, TypeId>, r: Reply, types: map<TypeId, nat>, types': map<TypeId, nat>)
    requires Current(ids, types) && r.Added? && (r.named.Some? ==> r.named.value in types')
    requires forall t :: t in types ==> t in types'
    ensures Current(Learn(ids, r), types')
  {
    forall l | IdOf(Learn(ids, r), l) != 0 ensures IdOf(Learn(ids, r), l) in types' {
      assert IdOf(Learn(ids, r), l) == if r.named.Some? && l == r.local then r.named.value else IdOf(ids, l);
    }
  }

  lemma LearnRemoved(ids: map<LocalType, TypeId>, l: LocalType, o: ObjId, t: TypeId, types: map<TypeId, nat>)
    requires Current(ids, types) && t != 0
    ensures Current(Learn(ids, Removed(l, o, Some(t))), types - {t}) <==> forall k :: k != l ==> IdOf(ids, k) != t
  {
    var ids' := Learn(ids, Removed(l, o, Some(t)));
    assert forall k :: IdOf(ids', k) == if k == l then 0 else IdOf(ids, k);
    if k :| k != l && IdOf(ids, k) == t { assert IdOf(ids', k) == t; }
  }

  lemma DropExactly(s: State, l: LocalType, o: ObjId)
    requires NotStale(s) && o in s.objects && 0 !in s.types
    ensures NotStale(Drop(s, l, o)) <==> !DropsShared(s, l, o)
  {
    hide LearnAll, Learn, Current;
    var s' := Drop(s, l, o);
    var r, ids := s'.replies[|s.replies|], LearnAll(s.ids, s.replies);
    LearnSnoc(s.ids, s.replies, r);
    if r.named.Some? {
      LearnRemoved(ids, l, o, r.named.value, s.types);
    } else {
      LearnNothing(ids, r, s.types, s'.types);
    }
  }

  lemma LearnNothing(ids: map<LocalType, TypeId>, r: Reply, types: map<TypeId, nat>, types': map<TypeId, nat>)
    requires Current(ids, types) && r.named.None? && types.Keys == types'.Keys
    ensures Current(Learn(ids, r), types')
  {
  }

  /** After one step some dropped id is remembered exactly if the step is such a removal. */
  lemma StepExactly(s: State, step: Step)
    requires NotStale(s) && Enabled(s, step) && 0 !in s.types
    ensures NotStale(Apply(s, step)) <==> !Shared(s, step)
    ensures 0 !in Apply(s, step).types
  {
    hide LearnAll, DropsShared;
    if step.ReceiveReply? { LearnHead(s.ids, s.replies); }
    if step.Handle? { HandleExactly(s, step.ok, step.obj, step.typ); }
  }

  lemma AddKeeps(s: State, l: LocalType, obj: ObjId, typ: Option<TypeId>, named: Option<TypeId>)
    requires NotStale(s) && 0 !in s.types && typ != Some(0) && (named.Some? ==> named == typ)
    ensures NotStale(AddTyped(s, l, obj, typ, named)) && 0 !in AddTyped(s, l, obj, typ, named).types
  {
    hide LearnAll, Learn, Current;
    LearnSnoc(s.ids, s.replies, Added(l, obj, named));
    LearnAdded(LearnAll(s.ids, s.replies), Added(l, obj, named), s.types, AddTyped(s, l, obj, typ, named).types);
  }

  lemma HandleExactly(s: State, ok: bool, obj: ObjId, typ: TypeId)
    requires NotStale(s) && Enabled(s, Handle(ok, obj, typ)) && 0 !in s.types
    ensures NotStale(HandleRequest(s, ok, obj, typ)) <==> !Shared(s, Handle(ok, obj, typ))
    ensures 0 !in HandleRequest(s, ok, obj, typ).types
  {
    hide DropsShared, Current, LearnAll, AddTyped;
    var t := s.(requests := s.requests[1..]);
    match s.requests[0]
    case AddById(l, id) => AddKeeps(t, l, obj, if id in s.types then Some(id) else None, None);
    case AddBySignature(l) => AddKeeps(t.(typeOf := s.typeOf[typ := l]), l, obj, Some(typ), Some(typ));
    case Remove(l, o) =>
      SharedSame(s, t, l, o);
      if o in s.objects { DropExactly(t, l, o); }
  }

  lemma SharedSame(s: State, t: State, l: LocalType, o: ObjId)
    requires t == s.(requests := t.requests)
    ensures DropsShared(s, l, o) <==> DropsShared(t, l, o)
    ensures DropsShared(s, l, o) ==> o in s.objects
  {
  }

  /** In no state of the run will a dropped id be remembered once the replies under way have come. */
  ghost predicate NeverRemembers(s: State, steps: seq<Step>)
    requires Feasible(s, steps)
    decreases |steps|
  {
    NotStale(s) && (steps == [] || NeverRemembers(Apply(s, steps[0]), steps[1..]))
  }

  ghost predicate NeverShared(s: State, steps: seq<Step>)
    requires Feasible(s, steps)
    decreases |steps|
  {
    steps == [] || (!Shared(s, steps[0]) && NeverShared(Apply(s, steps[0]), steps[1..]))
  }

  /** Over every run, whatever ids are handed out: no dropped id is ever remembered exactly if the daemon never handles
      the removal of a type's last object while the client has the type's id for another of its types as well. */
  lemma {:induction false} StaleExactly(s: State, steps: seq<Step>)
    requires Feasible(s, steps) && NotStale(s) && 0 !in s.types
    ensures NeverRemembers(s, steps) <==> NeverShared(s, steps)
    decreases |steps|
  {
    hide NotStale, Shared, Apply, Enabled;
    if steps != [] {
      StepExactly(s, steps[0]);
      if NotStale(Apply(s, steps[0])) { StaleExactly(Apply(s, steps[0]), steps[1..]); }
      else { assert !NeverRemembers(s, steps); }
    }
  }

  /** Where no id is handed out twice, it never does. */
  lemma {:induction false} NewIdsNotShared(s: State, steps: seq<Step>)
    requires Inv(s) && Feasible(s, steps) && NoIdTwice(s, steps)
    ensures NeverShared(s, steps)
    decreases |steps|
  {
    if steps != [] {
      StepInv(s, steps[0]);
      assert NotStale(s) && NotStale(Apply(s, steps[0]));
      assert 0 !in s.types;
      hide Inv, NotStale, Shared, Apply, Enabled;
      StepExactly(s, steps[0]);
      NewIdsNotShared(Apply(s, steps[0]), steps[1..]);
    }
  }

  /** The promise, over every run in which no id is handed out twice: once the replies under way have come, every id
      the client remembers is one of the daemon's types; and the count of a type is the number of its objects. */
  lemma NeverStale(steps: seq<Step>, l: LocalType)
    requires Feasible(Init(), steps) && NoIdTwice(Init(), steps)
    ensures var s := Run(Init(), steps);
      && (s.replies == [] && IdOf(s.ids, l) != 0 ==> IdOf(s.ids, l) in s.types)
      && (forall t :: t in s.types ==> s.types[t] == |Users(s.objects, t)|)
  {
    assert Inv(Init());
    RunInv(Init(), steps);
    var s := Run(Init(), steps);
    hide Run;
    assert s.replies == [] ==> IdOf(LearnAll(s.ids, s.replies), l) == IdOf(s.ids, l);
  }

  // ----- an id that is handed out again -----

  /** `steps` is a run that ends in `t`. */
  ghost predicate Reaches(steps: seq<Step>, t: State) {
    Feasible(Init(), steps) && Run(Init(), steps) == t
  }

  lemma {:induction false} RunMore(s: State, steps: seq<Step>, step: Step)
    requires Feasible(s, steps) && Enabled(Run(s, steps), step)
    ensures Feasible(s, steps + [step]) && Run(s, steps + [step]) == Apply(Run(s, steps), step)
    decreases |steps|
  {
    hide Enabled, Apply;
    if steps == [] {
      assert [] + [step] == [step] && [step][1..] == [];
    } else {
      RunMore(Apply(s, steps[0]), steps[1..], step);
      assert (steps + [step])[1..] == steps[1..] + [step];
    }
  }

  lemma More(steps: seq<Step>, s: State, step: Step) returns (longer: seq<Step>)
    requires Reaches(steps, s) && Enabled(s, step)
    ensures Reaches(longer, Apply(s, step))
  {
    hide Feasible, Run;
    longer := steps + [step];
    RunMore(Init(), steps, step);
  }

  /** An object of the first type has been registered. */
  function Registered(): State {
    State(map[2001 := Some(5000)], map[5000 := 1], [], [], map[0 := 5000], map[2001 := 0], map[5000 := 0], map[2001 := 0])
  }

  /** It is being removed, while objects of a second type and of the first are being added. */
  function Crossing(): State {
    Registered().(requests := [Remove(0, 2001), AddBySignature(1), AddById(0, 5000)])
  }

  /** The second type has got the id of the first, and so the object of the first type has got the second type. */
  function Mixed(): State {
    State(map[2002 := Some(5000), 2003 := Some(5000)], map[5000 := 2], [],
          [Removed(0, 2001, Some(5000)), Added(1, 2002, Some(5000)), Added(0, 2003, None)],
          map[0 := 5000], map[2001 := 0], map[5000 := 1], map[2001 := 0, 2002 := 1, 2003 := 0])
  }

  function Settled(): State {
    Mixed().(replies := [], ids := map[0 := 0, 1 := 5000], known := map[2002 := 1, 2003 := 0])
  }

  lemma ToRegistered() returns (steps: seq<Step>)
    ensures Reaches(steps, Registered())
  {
    hide Reaches;
    assert Reaches([], Init()) by { ReachesInit(); }
    steps := More([], Init(), SendAdd(0));
    var s1 := Apply(Init(), SendAdd(0));
    assert s1.requests == [AddBySignature(0)];
    steps := More(steps, s1, Handle(true, 2001, 5000));
    var s2 := Apply(s1, Handle(true, 2001, 5000));
    assert s2.requests == [] && s2.replies == [Added(0, 2001, Some(5000))];
    steps := More(steps, s2, ReceiveReply);
    var s3 := Apply(s2, ReceiveReply);
    assert s3.replies == [] && s3.ids == map[0 := 5000] && s3.known == map[2001 := 0];
  }

  lemma ReachesInit()
    ensures Reaches([], Init())
  {
  }

  lemma ToCrossing() returns (steps: seq<Step>)
    ensures Reaches(steps, Crossing())
  {
    hide Reaches;
    steps := ToRegistered();
    steps := More(steps, Registered(), SendRemove(2001));
    var s1 := Apply(Registered(), SendRemove(2001));
    assert s1.requests == [Remove(0, 2001)];
    steps := More(steps, s1, SendAdd(1));
    var s2 := Apply(s1, SendAdd(1));
    assert s2.requests == [Remove(0, 2001), AddBySignature(1)];
    steps := More(steps, s2, SendAdd(0));
    assert Apply(s2, SendAdd(0)).requests == Crossing().requests;
  }

  /** The daemon handles the three requests: the type is dropped, its id is handed out again, and asked for. */
  function Dropped(): State {
    State(map[], map[], [AddBySignature(1), AddById(0, 5000)], [Removed(0, 2001, Some(5000))],
          map[0 := 5000], map[2001 := 0], map[5000 := 0], map[2001 := 0])
  }

  lemma ToDropped() returns (steps: seq<Step>)
    ensures Reaches(steps, Dropped())
  {
    hide Reaches;
    steps := ToCrossing();
    steps := More(steps, Crossing(), Handle(true, 9000, 9000));
    var s := Apply(Crossing(), Handle(true, 9000, 9000));
    assert s.requests == Dropped().requests && s.replies == Dropped().replies;
    assert s.objects == map[] && s.types == map[];
  }

  lemma ToMixed() returns (steps: seq<Step>)
    ensures Reaches(steps, Mixed())
  {
    hide Reaches;
    steps := ToDropped();
    steps := More(steps, Dropped(), Handle(true, 2002, 5000));
    var s2 := Apply(Dropped(), Handle(true, 2002, 5000));
    assert s2.requests == [AddById(0, 5000)] && s2.replies == [Removed(0, 2001, Some(5000)), Added(1, 2002, Some(5000))];
    steps := More(steps, s2, Handle(true, 2003, 9000));
    var s3 := Apply(s2, Handle(true, 2003, 9000));
    assert s3.requests == [] && s3.replies == Mixed().replies && s3.types == Mixed().types;
    assert s3.objects == Mixed().objects && s3.typeOf == Mixed().typeOf && s3.objectOf == Mixed().objectOf;
  }

  lemma ToSettled() returns (steps: seq<Step>)
    ensures Reaches(steps, Settled())
  {
    hide Reaches;
    steps := ToMixed();
    steps := More(steps, Mixed(), ReceiveReply);
    var s1 := Apply(Mixed(), ReceiveReply);
    assert s1.replies == [Added(1, 2002, Some(5000)), Added(0, 2003, None)] && s1.ids == map[0 := 0] && s1.known == map[];
    steps := More(steps, s1, ReceiveReply);
    var s2 := Apply(s1, ReceiveReply);
    assert s2.replies == [Added(0, 2003, None)] && s2.ids == map[0 := 0, 1 := 5000] && s2.known == map[2002 := 1];
    steps := More(steps, s2, ReceiveReply);
    var s3 := Apply(s2, ReceiveReply);
    assert s3.replies == [] && s3.known == map[2002 := 1, 2003 := 0];
  }

  /** Both objects are removed. */
  function Emptied(): State {
    Settled().(objects := map[], types := map[], replies := [Removed(1, 2002, None), Removed(0, 2003, Some(5000))])
  }

  lemma ToEmptied() returns (steps: seq<Step>)
    ensures Reaches(steps, Emptied())
  {
    hide Reaches;
    steps := ToSettled();
    steps := More(steps, Settled(), SendRemove(2002));
    var s1 := Apply(Settled(), SendRemove(2002));
    assert s1.requests == [Remove(1, 2002)];
    steps := More(steps, s1, SendRemove(2003));
    var s2 := Apply(s1, SendRemove(2003));
    assert s2.requests == [Remove(1, 2002), Remove(0, 2003)];
    steps := More(steps, s2, Handle(true, 9000, 9000));
    OneRemoval();
    steps := More(steps, OneLeft(), Handle(true, 9000, 9000));
    LastRemoval();
  }

  function OneLeft(): State {
    Settled().(objects := map[2003 := Some(5000)], types := map[5000 := 1],
               requests := [Remove(0, 2003)], replies := [Removed(1, 2002, None)])
  }

  lemma OneRemoval()
    ensures var s := Settled().(requests := [Remove(1, 2002), Remove(0, 2003)]);
      Enabled(s, Handle(true, 9000, 9000)) && Apply(s, Handle(true, 9000, 9000)) == OneLeft()
  {
    var s := Settled().(requests := [Remove(1, 2002), Remove(0, 2003)]);
    assert s.requests[1..] == [Remove(0, 2003)];
    SecondDropped(s.(requests := [Remove(0, 2003)]));
  }

  lemma SecondDropped(s: State)
    requires s == Settled().(requests := [Remove(0, 2003)])
    ensures 2002 in s.objects && Drop(s, 1, 2002) == OneLeft()
  {
    assert s.objects - {2002} == map[2003 := Some(5000)];
    assert s.types[5000 := 1] == map[5000 := 1];
    assert s.replies + [Removed(1, 2002, None)] == [Removed(1, 2002, None)];
  }

  lemma LastRemoval()
    ensures Enabled(OneLeft(), Handle(true, 9000, 9000)) && Apply(OneLeft(), Handle(true, 9000, 9000)) == Emptied()
  {
    var t := Apply(OneLeft(), Handle(true, 9000, 9000));
    assert t.requests == [] && t.replies == Emptied().replies;
    assert t.objects == map[] && t.types == map[];
  }

  /** The reply that names the type names it for the first type: the client goes on remembering the id for the second,
      although the daemon has dropped it. */
  lemma StaleId() returns (steps: seq<Step>, s: State)
    ensures Reaches(steps, s)
    ensures s.replies == [] && IdOf(s.ids, 1) == 5000 && s.types == map[]
  {
    hide Reaches;
    steps := ToEmptied();
    steps := More(steps, Emptied(), ReceiveReply);
    var s5 := Apply(Emptied(), ReceiveReply);
    assert s5.replies == [Removed(0, 2003, Some(5000))];
    steps := More(steps, s5, ReceiveReply);
    s := Apply(s5, ReceiveReply);
  }
}
