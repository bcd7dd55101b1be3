/** Dispatch and replies (`ubusd_proto_receive_message` and the handlers of `ubusd_proto.c`, the command
    queue of `ubusd_main.c`): who gets which message for a received command, and when its buffer is
    released. */
module Replies {
  import opened CStrings
  import opened Options
  import opened Registry
  import opened Ubus
  import Seqs
  import D = Daemon

  datatype MsgType =
    | Hello | Status | Data | Ping | Lookup | Invoke | AddObject | RemoveObject
    | Subscribe | Unsubscribe | Notify | Monitor | Unknown

  /** The return codes of a handler that are not a status: nothing more to say, and queued. */
  const NO_REPLY := -1
  const QUEUED := -2

  /** The attributes of a message, as far as the handlers look at them. */
  datatype Attrs = Attrs(objId: Option<ObjId>, target: Option<ObjId>, meth: Option<string>, typeId: Option<TypeId>,
                         signature: Option<bool>, path: Option<CStr>, hasStatus: bool, hasData: bool, noReply: bool)

  datatype Request = Request(client: ClientId, typ: MsgType, seqno: nat, peer: nat, attrs: Attrs)

  /** A message handed to `ubus_msg_send`: a reply to the command numbered `cause`, or a message passed
      on because of it. */
  datatype Kind = Reply | Forward
  datatype Out = Out(to: ClientId, typ: MsgType, seqno: nat, peer: nat, obj: Option<ObjId>, kind: Kind, cause: nat, body: Body)

  /** What a reply says: a status code, the ids of an object and a type, or something that is not looked at here. */
  datatype Body = Code(code: nat) | Object(obj: ObjId, typ: Option<TypeId>) | Other

  /** What the rest of the daemon contributes: access decisions and credentials, random numbers, what the event object
      answers, and how far a lookup gets before the client's queue fills. */
  datatype Env = Env(denied: bool, uid: int, gid: int, sameUser: bool, sameGroup: bool, randomType: seq<nat>,
                     randomObj: seq<nat>, eventCode: nat, busy: bool, walk: Walk)

  datatype Walk = Walk(sent: nat, finished: Option<nat>)

  /** How things were when a command was received: the registry, the rest of the daemon, and the connection. */
  datatype Seen = Seen(reg: Reg, env: Env, conn: nat)

  // ----- what a command asks for -----

  /** A response that is passed on: from the owner of the object it names, to a client. */
  predicate Routable(r: Reg, req: Request) {
    && req.attrs.objId.Some?
    && (req.typ == Status ==> req.attrs.hasStatus) && (req.typ == Data ==> req.attrs.hasData)
    && req.attrs.objId.value in r.objects
    && r.objects[req.attrs.objId.value].client == Some(req.client)
    && req.peer in r.clients
  }

  predicate Callable(r: Reg, req: Request, env: Env) {
    req.attrs.meth.Some? && req.attrs.objId.Some? && req.attrs.objId.value in r.objects && !env.denied
  }

  /** A call that is passed on to the owner of the object. */
  predicate PassedOn(r: Reg, req: Request, env: Env) {
    req.typ == Invoke && Callable(r, req, env) && r.objects[req.attrs.objId.value].client.Some?
  }

  /** A notification that is accepted: from the owner of the object. */
  predicate Notifies(r: Reg, req: Request) {
    && req.typ == Notify && req.attrs.meth.Some? && req.attrs.objId.Some?
    && req.attrs.objId.value in r.objects && r.objects[req.attrs.objId.value].client == Some(req.client)
  }

  /** The commands that get no reply at all. */
  predicate SilentKind(s: Seen, req: Request) {
    || req.typ == Status || req.typ == Data
    || PassedOn(s.reg, req, s.env)
    || (Notifies(s.reg, req) && req.attrs.noReply)
  }

  /** The messages that are passed on because of a command. */
  ghost predicate Forwards(fs: seq<Out>, req: Request, s: Seen, k: nat) {
    if req.typ == Status || req.typ == Data then
      fs == if Routable(s.reg, req) then [PassedAnswer(req, k)] else []
    else if PassedOn(s.reg, req, s.env) then
      fs == [PassedCall(req, s.reg.objects[req.attrs.objId.value].client.value, req.attrs.objId.value, k)]
    else if Notifies(s.reg, req) then CallsFor(s.reg, req, k, req.attrs.objId.value, fs)
    else fs == []
  }

  // ----- what a command does to the registry -----

  /** The command as the registry sees it, if it is one that can change it. */
  function CommandOf(req: Request, env: Env): Option<D.Command> {
    var a := req.attrs;
    match req.typ
    case AddObject =>
      Some(D.AddObjectCmd(req.client, a.typeId, a.signature, a.path, env.denied, env.randomType, env.randomObj))
    case RemoveObject => Some(D.RemoveObjectCmd(req.client, a.objId))
    case Subscribe => Some(D.SubscribeCmd(req.client, a.objId, a.target, env.sameUser, env.sameGroup, env.denied))
    case Unsubscribe => Some(D.UnsubscribeCmd(req.client, a.objId, a.target))
    case Invoke =>
      if a.objId == Some(MONITOR_OBJECT) && a.meth.Some? && !env.denied
      then Some(D.MonitorCmd(req.client, env.uid, env.gid, a.meth.value)) else None
    case _ => None
  }

  /** The registry before and after a command. */
  ghost predicate Changes(r: Reg, req: Request, env: Env, r': Reg) {
    var cmd := CommandOf(req, env);
    if cmd.Some? then D.Moves(r, cmd.value, r') else r' == r
  }

  // ----- what a command is answered with -----

  /** The data, and the code of the status. */
  datatype Due = Due(data: seq<Body>, code: nat)

  /** The answer to a command that is neither silent nor put into the queue. */
  ghost function AnswerTo(req: Request, s: Seen): Due {
    var r, env, a := s.reg, s.env, req.attrs;
    match req.typ
    case Ping => Due([Other], OK)
    case AddObject =>
      var o := D.NewId(r, a.path, env.denied, env.randomObj);
      if o.None? then Due([], INVALID_ARGUMENT)
      else
        var typ := if a.signature.Some? then D.TypeFor(r.types, a.typeId, a.signature, env.randomType) else None;
        Due([Object(o.value, typ)], OK)
    case RemoveObject =>
      if D.RemoveCode(r, req.client, a.objId) == OK
      then Due([Object(a.objId.value, D.OnlyUse(r.types, r.objects[a.objId.value].typ))], OK)
      else Due([], D.RemoveCode(r, req.client, a.objId))
    case Subscribe => Due([], D.WatchCode(r, req.client, a.objId, a.target, env.sameUser, env.sameGroup, env.denied))
    case Unsubscribe => Due([], D.UnwatchCode(r, req.client, a.objId, a.target))
    case Invoke =>
      if a.meth.None? || a.objId.None? then Due([], INVALID_ARGUMENT)
      else if a.objId.value !in r.objects then Due([], NOT_FOUND)
      else if env.denied then Due([], PERMISSION_DENIED)
      else if a.objId.value == ACL_OBJECT && a.meth.value == "query" then Due([Other], OK)
      else Due([], BuiltinCode(a.objId.value, a.meth.value, env))
    case Notify =>
      if a.meth.None? || a.objId.None? then Due([], INVALID_ARGUMENT)
      else if a.objId.value !in r.objects then Due([], NOT_FOUND)
      else if r.objects[a.objId.value].client != Some(req.client) then Due([], PERMISSION_DENIED)
      else Due([], OK)
    case Lookup => Due(Others(env.walk.sent), if env.walk.finished.Some? then env.walk.finished.value else OK)
    case _ => Due([], INVALID_COMMAND)
  }

  function Others(n: nat): (bs: seq<Body>)
    ensures |bs| == n && forall i :: 0 <= i < n ==> bs[i] == Other
  {
    if n == 0 then [] else Others(n - 1) + [Other]
  }

  /** A lookup that is put into its client's command queue. */
  predicate Deferred(req: Request, s: Seen) {
    req.typ == Lookup && (s.env.busy || s.env.walk.finished.None?)
  }

  lemma Unchanged(r: Reg, req: Request, env: Env)
    ensures req.typ !in {AddObject, RemoveObject, Subscribe, Unsubscribe, Invoke} ==> Changes(r, req, env, r)
  {
  }

  // ----- accounts -----

  /** Where a command stands: waiting in its client's command queue, answered, silent by kind, or
      dropped with its connection. */
  datatype Phase = Waiting | Answered | Silent | Aborted

  /** The messages of one kind that a command has caused. */
  function Of(log: seq<Out>, kind: Kind, k: nat): seq<Out> {
    if log == [] then []
    else Of(log[..|log| - 1], kind, k) + Mine(log[|log| - 1], kind, k)
  }

  function Mine(o: Out, kind: Kind, k: nat): seq<Out> {
    if o.kind == kind && o.cause == k then [o] else []
  }

  function RepliesTo(log: seq<Out>, k: nat): seq<Out> {
    Of(log, Reply, k)
  }

  function ForwardsOf(log: seq<Out>, k: nat): seq<Out> {
    Of(log, Forward, k)
  }

  lemma {:induction false} OfAppend(a: seq<Out>, b: seq<Out>, kind: Kind, k: nat)
    ensures Of(a + b, kind, k) == Of(a, kind, k) + Of(b, kind, k)
  {
    hide Mine;
    if b == [] {
      assert a + b == a;
    } else {
      var n := |b| - 1;
      OfAppend(a, b[..n], kind, k);
      assert (a + b)[..|a + b| - 1] == a + b[..n] && (a + b)[|a + b| - 1] == b[n];
      Seqs.Assoc(Of(a, kind, k), Of(b[..n], kind, k), Mine(b[n], kind, k));
    }
  }

  lemma {:induction false} OfAll(q: seq<Out>, kind: Kind, k: nat)
    requires forall i :: 0 <= i < |q| ==> q[i].kind == kind && q[i].cause == k
    ensures Of(q, kind, k) == q
  {
    if q != [] {
      OfAll(q[..|q| - 1], kind, k);
      assert q == q[..|q| - 1] + [q[|q| - 1]];
    }
  }

  lemma {:induction false} OfNone(q: seq<Out>, kind: Kind, k: nat)
    requires forall i :: 0 <= i < |q| ==> q[i].kind != kind || q[i].cause != k
    ensures Of(q, kind, k) == []
  {
    if q != [] { OfNone(q[..|q| - 1], kind, k); }
  }

  /** The reply goes to the sender of the command and carries its numbers. */
  predicate Addressed(o: Out, req: Request) {
    o.to == req.client && o.seqno == req.seqno && o.peer == req.peer
  }

  ghost predicate AllData(rs: seq<Out>, req: Request) {
    forall i :: 0 <= i < |rs| ==> rs[i].typ == Data && Addressed(rs[i], req)
  }

  /** What the replies say, one after the other. */
  function Bodies(rs: seq<Out>): (bs: seq<Body>)
    ensures |bs| == |rs| && forall i :: 0 <= i < |rs| ==> bs[i] == rs[i].body
  {
    if rs == [] then [] else Bodies(rs[..|rs| - 1]) + [rs[|rs| - 1].body]
  }

  /** DATA replies, then exactly one STATUS. */
  ghost predicate DataThenStatus(rs: seq<Out>, req: Request) {
    && rs != []
    && AllData(rs[..|rs| - 1], req)
    && rs[|rs| - 1].typ == Status && Addressed(rs[|rs| - 1], req) && rs[|rs| - 1].body.Code?
  }

  /** Exactly the replies that the command calls for. */
  ghost predicate AnsweredBy(rs: seq<Out>, req: Request, s: Seen) {
    && DataThenStatus(rs, req)
    && (Deferred(req, s) || Bodies(rs) == AnswerTo(req, s).data + [Code(AnswerTo(req, s).code)])
  }

  /** The replies to a command fit its phase. */
  ghost predicate Settled(rs: seq<Out>, req: Request, s: Seen, phase: Phase) {
    match phase
    case Waiting => Deferred(req, s) && AllData(rs, req)
    case Answered => AnsweredBy(rs, req, s) && !SilentKind(s, req)
    case Silent => rs == [] && SilentKind(s, req)
    case Aborted => Deferred(req, s) && AllData(rs, req)
  }

  /** The account of one command: its replies, and the messages passed on because of it. */
  ghost predicate Kept(log: seq<Out>, k: nat, req: Request, s: Seen, phase: Phase) {
    Settled(RepliesTo(log, k), req, s, phase) && Forwards(ForwardsOf(log, k), req, s, k)
  }

  ghost predicate AllKept(received: seq<Request>, seen: seq<Seen>, log: seq<Out>, phases: seq<Phase>) {
    && |phases| == |received| == |seen|
    && forall k {:trigger received[k]} :: 0 <= k < |received| ==> Kept(log, k, received[k], seen[k], phases[k])
  }

  /** Messages caused by command `k` alone disturb no other account. */
  ghost predicate OnlyFor(added: seq<Out>, k: nat) {
    forall i :: 0 <= i < |added| ==> added[i].cause == k
  }

  lemma KeptOthers(log: seq<Out>, added: seq<Out>, k: nat, j: nat, req: Request, s: Seen, phase: Phase)
    requires OnlyFor(added, k) && j != k && Kept(log, j, req, s, phase)
    ensures Kept(log + added, j, req, s, phase)
  {
    hide Settled, Forwards, Of;
    OfAppend(log, added, Reply, j);
    OfAppend(log, added, Forward, j);
    OfNone(added, Reply, j);
    OfNone(added, Forward, j);
    assert Of(log, Reply, j) + [] == Of(log, Reply, j) && Of(log, Forward, j) + [] == Of(log, Forward, j);
  }

  /** A new command, and the messages it caused, with its phase. */
  lemma KeptNew(received: seq<Request>, seen: seq<Seen>, log: seq<Out>, phases: seq<Phase>, req: Request, s: Seen,
                added: seq<Out>, phase: Phase)
    requires AllKept(received, seen, log, phases) && Causes(log, |received|)
    requires OnlyFor(added, |received|) && Kept(added, |received|, req, s, phase)
    ensures AllKept(received + [req], seen + [s], log + added, phases + [phase])
  {
    hide Settled, Forwards, Of, Kept;
    var n := |received|;
    forall k | 0 <= k < n + 1
      ensures Kept(log + added, k, (received + [req])[k], (seen + [s])[k], (phases + [phase])[k])
    {
      if k < n {
        KeptOthers(log, added, n, k, received[k], seen[k], phases[k]);
      } else {
        KeptFirst(log, added, n, req, s, phase);
      }
    }
  }

  lemma KeptFirst(log: seq<Out>, added: seq<Out>, k: nat, req: Request, s: Seen, phase: Phase)
    requires Causes(log, k) && Kept(added, k, req, s, phase)
    ensures Kept(log + added, k, req, s, phase)
  {
    hide Settled, Forwards, Of;
    OfAppend(log, added, Reply, k);
    OfAppend(log, added, Forward, k);
    OfNone(log, Reply, k);
    OfNone(log, Forward, k);
    assert [] + Of(added, Reply, k) == Of(added, Reply, k) && [] + Of(added, Forward, k) == Of(added, Forward, k);
  }

  /** A command in the queue sends more replies. */
  lemma KeptMore(received: seq<Request>, seen: seq<Seen>, log: seq<Out>, phases: seq<Phase>, k: nat, added: seq<Out>, phase: Phase)
    requires AllKept(received, seen, log, phases) && k < |received|
    requires OnlyFor(added, k) && (forall i :: 0 <= i < |added| ==> added[i].kind == Reply)
    requires Settled(RepliesTo(log, k) + added, received[k], seen[k], phase)
    ensures AllKept(received, seen, log + added, phases[k := phase])
  {
    hide Settled, Forwards, Of;
    forall j | 0 <= j < |received|
      ensures Kept(log + added, j, received[j], seen[j], phases[k := phase][j])
    {
      if j != k {
        KeptOthers(log, added, k, j, received[j], seen[j], phases[j]);
      } else {
        OfAppend(log, added, Reply, k);
        OfAppend(log, added, Forward, k);
        OfAll(added, Reply, k);
        OfNone(added, Forward, k);
        assert Of(log, Forward, k) + [] == Of(log, Forward, k);
      }
    }
  }

  /** No message names a command that has not been received. */
  ghost predicate Causes(log: seq<Out>, n: nat) {
    forall i :: 0 <= i < |log| ==> log[i].cause < n
  }

  // ----- handlers -----

  function DataReply(req: Request, k: nat, body: Body): Out {
    Out(req.client, Data, req.seqno, req.peer, None, Reply, k, body)
  }

  /** One DATA reply for each of the bodies. */
  function Datas(req: Request, k: nat, bodies: seq<Body>): (q: seq<Out>)
    ensures |q| == |bodies| && forall i :: 0 <= i < |q| ==> q[i] == DataReply(req, k, bodies[i])
  {
    if bodies == [] then [] else Datas(req, k, bodies[..|bodies| - 1]) + [DataReply(req, k, bodies[|bodies| - 1])]
  }

  /** A call of an object, as it is passed to the owner: the caller's number, and the caller's id as peer. */
  function PassedCall(req: Request, owner: ClientId, o: ObjId, k: nat): Out {
    Out(owner, Invoke, req.seqno, req.client, Some(o), Forward, k, Other)
  }

  /** An answer, as it is passed to the client it names: its number, and the object's id as peer. */
  function PassedAnswer(req: Request, k: nat): Out
    requires req.attrs.objId.Some?
  {
    Out(req.peer, req.typ, req.seqno, req.attrs.objId.value, req.attrs.objId, Forward, k, Other)
  }

  function StatusReply(c: ClientId, seqno: nat, peer: nat, k: nat, code: nat): Out {
    Out(c, Status, seqno, peer, None, Reply, k, Code(code))
  }

  /** What a handler may leave to be done: with a status still to come exactly the data has been sent, and in the queue only
      data; without, either nothing, or the whole answer.  In any case the messages to be passed on have been. */
  ghost predicate Handled(ret: int, added: seq<Out>, req: Request, s: Seen, k: nat) {
    && OnlyFor(added, k)
    && Forwards(ForwardsOf(added, k), req, s, k)
    && var rs := RepliesTo(added, k);
       if ret == NO_REPLY then
         if SilentKind(s, req) then rs == [] else Notifies(s.reg, req) && AnsweredBy(rs, req, s)
       else
         && AllData(rs, req) && !SilentKind(s, req) && !Notifies(s.reg, req)
         && (ret == QUEUED <==> Deferred(req, s))
         && (ret != QUEUED ==> ret == AnswerTo(req, s).code && Bodies(rs) == AnswerTo(req, s).data)
  }

  /** A handler that sends nothing but data, and leaves a status to be sent. */
  lemma DataHandled(ret: int, req: Request, s: Seen, k: nat, bodies: seq<Body>)
    requires ret != NO_REPLY && !SilentKind(s, req) && !Notifies(s.reg, req) && (ret == QUEUED <==> Deferred(req, s))
    requires ret != QUEUED ==> 0 <= ret && AnswerTo(req, s) == Due(bodies, ret)
    ensures Handled(ret, Datas(req, k, bodies), req, s, k)
    ensures Datas(req, k, []) == []
  {
    hide Of, AnswerTo, AnsweredBy;
    var q := Datas(req, k, bodies);
    OfAll(q, Reply, k);
    OfNone(q, Forward, k);
    assert Bodies(q) == bodies;
  }

  /** A handler that only passes messages on. */
  lemma ForwardHandled(req: Request, s: Seen, k: nat, fs: seq<Out>)
    requires SilentKind(s, req) && Forwards(fs, req, s, k)
    requires forall i :: 0 <= i < |fs| ==> fs[i].kind == Forward && fs[i].cause == k
    ensures Handled(NO_REPLY, fs, req, s, k)
  {
    hide Of;
    OfAll(fs, Forward, k);
    OfNone(fs, Reply, k);
  }

  /** A client's command queue holds only waiting commands of its own, each once. */
  ghost predicate OwnQueue(q: seq<nat>, c: ClientId, received: seq<Request>, phases: seq<Phase>)
    requires |phases| == |received|
  {
    && Seqs.Distinct(q)
    && forall i :: 0 <= i < |q| ==> q[i] < |received| && received[q[i]].client == c && phases[q[i]] == Waiting
  }

  /** Every waiting command is in the queue of its client. */
  ghost predicate QueueOk(queues: map<ClientId, seq<nat>>, received: seq<Request>, phases: seq<Phase>) {
    && |phases| == |received|
    && (forall c :: c in queues ==> OwnQueue(queues[c], c, received, phases))
    && (forall k :: 0 <= k < |received| && phases[k] == Waiting ==>
          received[k].client in queues && k in queues[received[k].client])
  }

  /** Every buffer that is not waiting has been released, once. */
  ghost predicate FreedOk(freed: seq<nat>, phases: seq<Phase>) {
    && (forall k :: k in freed ==> k < |phases|)
    && (forall k :: 0 <= k < |phases| ==> multiset(freed)[k] == if phases[k] == Waiting then 0 else 1)
  }

  /** The whole account. */
  ghost predicate Accounts(queues: map<ClientId, seq<nat>>, received: seq<Request>, seen: seq<Seen>, log: seq<Out>,
                           freed: seq<nat>, phases: seq<Phase>) {
    && AllKept(received, seen, log, phases)
    && Causes(log, |received|)
    && QueueOk(queues, received, phases)
    && FreedOk(freed, phases)
  }

  /** The connection that a command came in on is still there. */
  predicate Live(conns: map<ClientId, nat>, req: Request, s: Seen) {
    req.client in conns && conns[req.client] == s.conn
  }

  /** Every connection has its own number; a command waits only while its connection lasts, and is dropped only when it
      has ended. */
  ghost predicate ConnsOk(conns: map<ClientId, nat>, next: nat, received: seq<Request>, seen: seq<Seen>, phases: seq<Phase>) {
    && |phases| == |received| == |seen|
    && (forall c :: c in conns ==> conns[c] < next)
    && forall k :: 0 <= k < |received| ==>
         && seen[k].conn < next
         && (phases[k] == Waiting ==> Live(conns, received[k], seen[k]))
         && (phases[k] == Aborted ==> !Live(conns, received[k], seen[k]))
  }

  /** Whenever a command was received, the built-in objects were there, and they alone had no owner. */
  ghost predicate SeenOk(seen: seq<Seen>) {
    forall k :: 0 <= k < |seen| ==> Owned(seen[k].reg.objects)
  }

  lemma SeenMore(seen: seq<Seen>, s: Seen)
    requires SeenOk(seen) && Owned(s.reg.objects)
    ensures SeenOk(seen + [s])
  {
  }

  lemma ConnsAnswered(conns: map<ClientId, nat>, next: nat, received: seq<Request>, seen: seq<Seen>, phases: seq<Phase>, k: nat)
    requires ConnsOk(conns, next, received, seen, phases) && k < |phases|
    ensures ConnsOk(conns, next, received, seen, phases[k := Answered])
  {
    hide Live;
  }

  lemma ConnsConnect(conns: map<ClientId, nat>, next: nat, received: seq<Request>, seen: seq<Seen>, phases: seq<Phase>, c: ClientId)
    requires ConnsOk(conns, next, received, seen, phases) && c !in conns
    ensures ConnsOk(conns[c := next], next + 1, received, seen, phases)
  {
  }

  lemma ConnsDrop(conns: map<ClientId, nat>, next: nat, received: seq<Request>, seen: seq<Seen>, phases: seq<Phase>,
                  phases': seq<Phase>, c: ClientId)
    requires ConnsOk(conns, next, received, seen, phases) && OnlyAborted(received, phases, phases', c)
    requires forall k :: 0 <= k < |received| && received[k].client == c ==> phases'[k] != Waiting
    ensures ConnsOk(conns - {c}, next, received, seen, phases')
  {
  }

  lemma AccountsConnect(queues: map<ClientId, seq<nat>>, received: seq<Request>, seen: seq<Seen>, log: seq<Out>,
                        freed: seq<nat>, phases: seq<Phase>, c: ClientId)
    requires Accounts(queues, received, seen, log, freed, phases) && c !in queues
    ensures Accounts(queues[c := []], received, seen, log, freed, phases)
  {
    hide AllKept, FreedOk;
  }

  lemma QueueNew(queues: map<ClientId, seq<nat>>, received: seq<Request>, phases: seq<Phase>, req: Request, phase: Phase)
    requires QueueOk(queues, received, phases) && req.client in queues
    ensures phase != Waiting ==> QueueOk(queues, received + [req], phases + [phase])
    ensures phase == Waiting ==>
      QueueOk(queues[req.client := queues[req.client] + [|received|]], received + [req], phases + [phase])
  {
    forall c | c in queues
      ensures OwnQueue(queues[c], c, received + [req], phases + [phase])
      ensures phase == Waiting && c == req.client ==> OwnQueue(queues[c] + [|received|], c, received + [req], phases + [phase])
    {
      assert OwnQueue(queues[c], c, received, phases);
    }
    hide OwnQueue;
    var q := queues[req.client] + [|received|];
    assert |received| in q && forall k :: k in queues[req.client] ==> k in q;
  }

  lemma FreedNew(freed: seq<nat>, phases: seq<Phase>, phase: Phase)
    requires FreedOk(freed, phases)
    ensures phase == Waiting ==> FreedOk(freed, phases + [phase])
    ensures phase != Waiting ==> FreedOk(freed + [|phases|], phases + [phase])
  {
    assert |phases| !in freed;
  }

  /** The calls of a notification, with its status in front unless none is wanted. */
  lemma NotifyHandled(req: Request, s: Seen, k: nat, calls: seq<Out>)
    requires Notifies(s.reg, req) && CallsFor(s.reg, req, k, req.attrs.objId.value, calls)
    ensures if req.attrs.noReply then Handled(NO_REPLY, calls, req, s, k)
            else Handled(NO_REPLY, [StatusReply(req.client, req.seqno, req.peer, k, OK)] + calls, req, s, k)
  {
    hide Of;
    if req.attrs.noReply {
      ForwardHandled(req, s, k, calls);
    } else {
      var status := [StatusReply(req.client, req.seqno, req.peer, k, OK)];
      OfAppend(status, calls, Reply, k);
      OfAppend(status, calls, Forward, k);
      OfAll(status, Reply, k);
      OfNone(calls, Reply, k);
      OfNone(status, Forward, k);
      OfAll(calls, Forward, k);
      assert status + [] == status && [] + calls == calls;
      assert Bodies(status) == [] + [Code(OK)];
      assert AnsweredBy(status, req, s);
    }
  }

  /** The head of a client's queue is done with. */
  lemma QueuePop(queues: map<ClientId, seq<nat>>, received: seq<Request>, phases: seq<Phase>, c: ClientId, phase: Phase)
    requires QueueOk(queues, received, phases) && c in queues && queues[c] != [] && phase != Waiting
    ensures queues[c][0] < |received| && received[queues[c][0]].client == c && phases[queues[c][0]] == Waiting
    ensures QueueOk(queues[c := queues[c][1..]], received, phases[queues[c][0] := phase])
  {
    var k := queues[c][0];
    assert OwnQueue(queues[c], c, received, phases);
    var queues', phases' := queues[c := queues[c][1..]], phases[k := phase];
    forall b | b in queues ensures OwnQueue(queues'[b], b, received, phases') {
      assert OwnQueue(queues[b], b, received, phases);
    }
    forall j | 0 <= j < |received| && phases'[j] == Waiting
      ensures received[j].client in queues' && j in queues'[received[j].client]
    {
      if received[j].client == c {
        var i :| 0 <= i < |queues[c]| && queues[c][i] == j;
        assert queues[c][1..][i - 1] == j;
      }
    }
  }

  lemma FreedOne(freed: seq<nat>, phases: seq<Phase>, k: nat, phase: Phase)
    requires FreedOk(freed, phases) && k < |phases| && phases[k] == Waiting && phase != Waiting
    ensures FreedOk(freed + [k], phases[k := phase])
  {
  }

  /** A command that was waiting sends its data, and its status if it has one. */
  lemma MoreReplies(rs: seq<Out>, req: Request, s: Seen, k: nat, bodies: seq<Body>, code: nat)
    requires Settled(rs, req, s, Waiting)
    ensures var ds, st := Datas(req, k, bodies), [StatusReply(req.client, req.seqno, req.peer, k, code)];
      Settled(rs + ds, req, s, Waiting) && Settled(rs + (ds + st), req, s, Answered)
  {
    hide AnswerTo;
    var ds, st := Datas(req, k, bodies), [StatusReply(req.client, req.seqno, req.peer, k, code)];
    assert (rs + (ds + st))[..|rs| + |ds|] == rs + ds;
  }

  /** The status of the dispatcher after the handler's data. */
  lemma StatusAfter(ret: int, added: seq<Out>, req: Request, s: Seen, k: nat)
    requires Handled(ret, added, req, s, k) && 0 <= ret
    ensures var all := added + [StatusReply(req.client, req.seqno, req.peer, k, ret)];
      OnlyFor(all, k) && Kept(all, k, req, s, Answered)
  {
    hide Of, Forwards, AnswerTo, SilentKind;
    var st := [StatusReply(req.client, req.seqno, req.peer, k, ret)];
    OfAppend(added, st, Reply, k);
    OfAppend(added, st, Forward, k);
    OfAll(st, Reply, k);
    OfNone(st, Forward, k);
    var rs, fs := RepliesTo(added, k), ForwardsOf(added, k);
    assert (rs + st)[..|rs|] == rs && fs + [] == fs;
    assert Bodies(rs + st) == Bodies(rs) + [Code(ret)];
  }

  /** One call per subscription of the object, to the subscriber's owner, in the order of the list. */
  ghost predicate CallsFor(r: Reg, req: Request, k: nat, o: ObjId, calls: seq<Out>) {
    && o in r.objects && |calls| == |r.objects[o].subscribers|
    && forall i :: 0 <= i < |calls| ==>
         && r.objects[o].subscribers[i] in r.subs
         && var sub := r.subs[r.objects[o].subscribers[i]].subscriber;
            && sub in r.objects && r.objects[sub].client.Some?
            && calls[i] == PassedCall(req, r.objects[sub].client.value, sub, k)
  }

  // ----- built-in objects -----

  /** `ubusd_event_recv`, `ubusd_acl_recv` and `ubusd_monitor_recv`: the status of a call of a built-in object. */
  function BuiltinCode(o: ObjId, meth: string, env: Env): nat {
    if o == MONITOR_OBJECT then MonitorCode(env.uid, env.gid, meth)
    else if o == ACL_OBJECT then (if meth == "query" then OK else INVALID_COMMAND)
    else if meth == "register" || meth == "send" then env.eventCode else INVALID_COMMAND
  }

  class Server {
    const d: D.Daemon
    /** Per client: the command queue, the header of the shared status message, and the number of its connection. */
    var queues: map<ClientId, seq<nat>>
    var retSeq: map<ClientId, nat>
    var retPeer: map<ClientId, nat>
    ghost var conns: map<ClientId, nat>
    ghost var nextConn: nat
    /** All commands received, all messages handed over, and the buffers released, in order. */
    var received: seq<Request>
    var log: seq<Out>
    var freed: seq<nat>
    ghost var seen: seq<Seen>
    ghost var phases: seq<Phase>
    /** The registry at the start and after each event of a run. */
    ghost var regs: seq<Reg>

    ghost predicate Valid()
      reads `queues, `conns, `nextConn, `received, `log, `freed, `seen, `phases, d
    {
      && d.Valid() && Owned(d.objects)
      && queues.Keys == d.clients.Keys == conns.Keys
      && Accounts(queues, received, seen, log, freed, phases)
      && ConnsOk(conns, nextConn, received, seen, phases)
      && SeenOk(seen)
    }

    constructor (d: D.Daemon)
      requires d.Valid() && Owned(d.objects) && d.clients == map[]
      ensures Valid() && this.d == d && received == [] && log == [] && seen == [] && regs == [d.View()]
    {
      this.d := d;
      queues, retSeq, retPeer, conns, nextConn := map[], map[], map[], map[], 0;
      received, log, freed, seen, phases, regs := [], [], [], [], [], [d.View()];
    }

    /** `ubusd_handle_response`: accepted only from the owner of the named object, and passed to the
        client the header names, with the object in its place. */
    method HandleResponse(req: Request, k: nat, ghost s: Seen) returns (ret: int, added: seq<Out>)
      requires (req.typ == Status || req.typ == Data) && s.reg == d.View()
      ensures ret == NO_REPLY
      ensures added == if Routable(d.View(), req) then [PassedAnswer(req, k)] else []
      ensures Handled(ret, added, req, s, k)
    {
      hide Of, Handled;
      ret, added := NO_REPLY, [];
      if req.attrs.objId.None? || (req.typ == Status && !req.attrs.hasStatus) || (req.typ == Data && !req.attrs.hasData)
         || req.attrs.objId.value !in d.objects || d.objects[req.attrs.objId.value].client != Some(req.client)
         || req.peer !in d.clients {
        ForwardHandled(req, s, k, []);
        return;
      }
      var o := req.attrs.objId.value;
      added := [Out(req.peer, req.typ, req.seqno, o, Some(o), Forward, k, Other)];
      ForwardHandled(req, s, k, added);
    }

    /** `ubusd_handle_invoke`: a call of a built-in object is answered here, and any other is passed to
        the owner with the caller's id as peer. */
    method HandleInvoke(req: Request, k: nat, env: Env, ghost s: Seen) returns (ret: int, added: seq<Out>)
      requires d.Valid() && Owned(d.objects) && req.client in d.clients && req.typ == Invoke && s.reg == d.View() && s.env == env
      modifies d
      ensures d.Valid() && Changes(old(d.View()), req, env, d.View())
      ensures d.clients == old(d.clients) && d.objects == old(d.objects)
      ensures Handled(ret, added, req, s, k)
      ensures PassedOn(s.reg, req, env) ==>
        && ret == NO_REPLY && |added| == 1
        && Some(added[0].to) == s.reg.objects[req.attrs.objId.value].client && added[0].typ == Invoke
        && added[0].seqno == req.seqno && added[0].peer == req.client && added[0].obj == req.attrs.objId
    {
      hide Of, Handled, d.Valid;
      BuiltinOwned(d.objects, MONITOR_OBJECT);
      BuiltinOwned(d.objects, ACL_OBJECT);
      added := [];
      if !PassedOn(s.reg, req, env) {
        DataHandled(AnswerTo(req, s).code, req, s, k, AnswerTo(req, s).data);
      }
      if req.attrs.meth.None? || req.attrs.objId.None? { return INVALID_ARGUMENT, []; }
      var o, meth := req.attrs.objId.value, req.attrs.meth.value;
      if o !in d.objects { return NOT_FOUND, []; }
      if env.denied { return PERMISSION_DENIED, []; }
      if d.objects[o].client.None? {
        if o == MONITOR_OBJECT {
          ret := d.MonitorRecv(req.client, env.uid, env.gid, meth);
        } else if o == ACL_OBJECT {
          if meth != "query" { return INVALID_COMMAND, []; }
          ret, added := OK, [Out(req.client, Data, req.seqno, req.peer, None, Reply, k, Other)];
          assert Datas(req, k, [Other]) == added;
        } else if meth == "register" || meth == "send" {
          ret := env.eventCode;
        } else {
          ret := INVALID_COMMAND;
        }
        return;
      }
      added := [Out(d.objects[o].client.value, Invoke, req.seqno, req.client, Some(o), Forward, k, Other)];
      ForwardHandled(req, s, k, added);
      ret := NO_REPLY;
    }

    /** The loop of `ubusd_handle_notify` over the subscribers. */
    method ForwardToSubscribers(req: Request, k: nat, o: ObjId) returns (added: seq<Out>)
      requires d.Valid() && o in d.objects
      ensures CallsFor(d.View(), req, k, o, added)
    {
      SubscribersLive(d.View(), o);
      added := [];
      for i := 0 to |d.objects[o].subscribers|
        invariant |added| == i
        invariant forall j :: 0 <= j < i ==>
          var sub := d.subs[d.objects[o].subscribers[j]].subscriber;
          added[j] == PassedCall(req, d.objects[sub].client.value, sub, k)
      {
        var sub := d.subs[d.objects[o].subscribers[i]].subscriber;
        added := added + [Out(d.objects[sub].client.value, Invoke, req.seqno, req.client, Some(sub), Forward, k, Other)];
      }
    }

    /** `ubusd_handle_notify`: the owner gets its status at once, with its own numbers, unless it wants no
        reply; then every subscriber is called. */
    method HandleNotify(req: Request, k: nat, ghost s: Seen) returns (ret: int, added: seq<Out>)
      requires d.Valid() && req.typ == Notify && s.reg == d.View()
      ensures Handled(ret, added, req, s, k)
      ensures ret == if Notifies(d.View(), req) then NO_REPLY else AnswerTo(req, s).code
      ensures ret == NO_REPLY ==>
        if req.attrs.noReply then CallsFor(d.View(), req, k, req.attrs.objId.value, added)
        else added != [] && added[0] == StatusReply(req.client, req.seqno, req.peer, k, OK)
             && CallsFor(d.View(), req, k, req.attrs.objId.value, added[1..])
      ensures ret != NO_REPLY ==> added == []
    {
      hide d.Valid, Handled, Of;
      if !Notifies(s.reg, req) { DataHandled(AnswerTo(req, s).code, req, s, k, []); }
      if req.attrs.meth.None? || req.attrs.objId.None? { return INVALID_ARGUMENT, []; }
      var o := req.attrs.objId.value;
      if o !in d.objects { return NOT_FOUND, []; }
      if d.objects[o].client != Some(req.client) { return PERMISSION_DENIED, []; }
      var calls := ForwardToSubscribers(req, k, o);
      NotifyHandled(req, s, k, calls);
      if req.attrs.noReply { return NO_REPLY, calls; }
      ret, added := NO_REPLY, [Out(req.client, Status, req.seqno, req.peer, None, Reply, k, Code(OK))] + calls;
      assert added[1..] == calls;
    }

    /** `ubusd_handle_lookup`: queued at once if data is waiting, and otherwise walked until the queue
        fills or the walk ends with a status. */
    method HandleLookup(req: Request, k: nat, env: Env, ghost s: Seen) returns (ret: int, added: seq<Out>)
      requires req.typ == Lookup && s.env == env
      ensures ret == if env.busy || env.walk.finished.None? then QUEUED else env.walk.finished.value
      ensures added == Datas(req, k, Others(if env.busy then 0 else env.walk.sent))
      ensures Handled(ret, added, req, s, k)
    {
      hide Handled, Datas, Others;
      if env.busy {
        DataHandled(QUEUED, req, s, k, []);
        NoOthers();
        return QUEUED, [];
      }
      ret := if env.walk.finished.Some? then env.walk.finished.value else QUEUED;
      added := Datas(req, k, Others(env.walk.sent));
      DataHandled(ret, req, s, k, Others(env.walk.sent));
    }

    /** `ubusd_handle_add_object` and `ubusd_handle_remove_object`. */
    method HandleObject(req: Request, k: nat, env: Env, ghost s: Seen) returns (ret: int, added: seq<Out>)
      requires d.Valid() && Owned(d.objects) && req.client in d.clients && (req.typ == AddObject || req.typ == RemoveObject)
      requires s.reg == d.View() && s.env == env
      modifies d
      ensures d.Valid() && Owned(d.objects) && d.clients.Keys == old(d.clients.Keys)
      ensures Handled(ret, added, req, s, k) && Changes(old(d.View()), req, env, d.View())
    {
      hide d.Valid, Owned, Free, Handled, D.NewId, D.TypeFor, D.Adds, D.OnlyUse;
      DataHandled(AnswerTo(req, s).code, req, s, k, AnswerTo(req, s).data);
      var reply;
      if req.typ == AddObject {
        ret, reply := d.HandleAddObject(req.client, req.attrs.typeId, req.attrs.signature, req.attrs.path, env.denied,
                                        env.randomType, env.randomObj);
      } else {
        ret, reply := d.HandleRemoveObject(req.client, req.attrs.objId);
      }
      added := [];
      if reply.Some? {
        added := [Out(req.client, Data, req.seqno, req.peer, None, Reply, k, Object(reply.value.obj, reply.value.typ))];
      }
      assert added == Datas(req, k, AnswerTo(req, s).data);
    }

    /** `ubusd_handle_add_watch` and `ubusd_handle_remove_watch`. */
    method HandleWatch(req: Request, k: nat, env: Env, ghost s: Seen) returns (ret: int, added: seq<Out>)
      requires d.Valid() && Owned(d.objects) && req.client in d.clients && (req.typ == Subscribe || req.typ == Unsubscribe)
      requires s.reg == d.View() && s.env == env
      modifies d
      ensures d.Valid() && Owned(d.objects) && d.clients.Keys == old(d.clients.Keys)
      ensures Handled(ret, added, req, s, k) && Changes(old(d.View()), req, env, d.View())
    {
      hide d.Valid, Owned, Handled, D.WatchCode, D.UnwatchCode, D.Moves, AddSub, DropSubs, D.FirstTo;
      DataHandled(AnswerTo(req, s).code, req, s, k, []);
      added := [];
      if req.typ == Subscribe {
        ret := d.HandleAddWatch(req.client, req.attrs.objId, req.attrs.target, env.sameUser, env.sameGroup, env.denied);
      } else {
        ghost var gone;
        ret, gone := d.HandleRemoveWatch(req.client, req.attrs.objId, req.attrs.target);
      }
    }

    /** `ubusd_send_pong`. */
    method SendPong(req: Request, k: nat, ghost s: Seen) returns (ret: int, added: seq<Out>)
      requires req.typ == Ping
      ensures Handled(ret, added, req, s, k)
    {
      hide Handled;
      DataHandled(OK, req, s, k, [Other]);
      ret, added := OK, [Out(req.client, Data, req.seqno, req.peer, None, Reply, k, Other)];
      assert added == Datas(req, k, [Other]);
    }

    /** A type without a handler. */
    method Refuse(req: Request, k: nat, ghost s: Seen) returns (ret: int, added: seq<Out>)
      requires req.typ in {Hello, Monitor, Unknown}
      ensures Handled(ret, added, req, s, k)
    {
      hide Handled;
      DataHandled(INVALID_COMMAND, req, s, k, []);
      ret, added := INVALID_COMMAND, [];
    }

    /** The table of handlers.  Exactly the data and the status that the command calls for are sent or left to be sent, and
        exactly the messages that it asks for are passed on. */
    method Handle(req: Request, k: nat, env: Env, ghost s: Seen) returns (ret: int, added: seq<Out>)
      requires d.Valid() && Owned(d.objects) && req.client in d.clients && s.reg == d.View() && s.env == env
      modifies d
      ensures d.Valid() && Owned(d.objects) && d.clients.Keys == old(d.clients.Keys)
      ensures ret >= QUEUED && Handled(ret, added, req, s, k)
      ensures Changes(old(d.View()), req, env, d.View())
    {
      hide Handled, Of, d.Valid, Owned, CallsFor, Changes, Datas, Others, AnswerTo, PassedOn, Notifies;
      Unchanged(d.View(), req, env);
      match req.typ {
        case Ping => ret, added := SendPong(req, k, s);
        case AddObject => ret, added := HandleObject(req, k, env, s);
        case RemoveObject => ret, added := HandleObject(req, k, env, s);
        case Lookup => ret, added := HandleLookup(req, k, env, s);
        case Invoke => ret, added := HandleInvoke(req, k, env, s);
        case Status => ret, added := HandleResponse(req, k, s);
        case Data => ret, added := HandleResponse(req, k, s);
        case Subscribe => ret, added := HandleWatch(req, k, env, s);
        case Unsubscribe => ret, added := HandleWatch(req, k, env, s);
        case Notify => ret, added := HandleNotify(req, k, s);
        case Hello => ret, added := Refuse(req, k, s);
        case Monitor => ret, added := Refuse(req, k, s);
        case Unknown => ret, added := Refuse(req, k, s);
      }
      Returns(ret, added, req, s, k);
    }

    /** `ubusd_proto_receive_message`.  A command is queued, answered with exactly one STATUS carrying its own numbers,
        after its data, or one of those that get no reply: a response, a call that is passed on, an accepted
        notification that wants none. */
    method Receive(req: Request, env: Env)
      requires Valid() && req.client in queues
      modifies this`queues, this`retSeq, this`retPeer, this`received, this`log, this`freed, this`seen, this`phases, d
      ensures Valid() && queues == Queue1(old(queues), |old(received)|, ReceiveEvent(req, env))
      ensures received == old(received) + [req] && old(log) <= log
      ensures seen == old(seen) + [Seen(old(d.View()), env, old(conns)[req.client])]
      ensures |phases| == |old(phases)| + 1 && old(phases) <= phases
      ensures var phase, s := phases[|phases| - 1], seen[|seen| - 1];
        && (phase == Waiting <==> Deferred(req, s))
        && (phase == Silent <==> SilentKind(s, req)) && phase != Aborted
      ensures Evolves(old(d.View()), ReceiveEvent(req, env), d.View())
    {
      hide Accounts, ConnsOk, Handled, d.Valid, Owned, SilentKind, Notifies, SeenOk, Changes, AnswerTo;
      ghost var s := Seen(d.View(), env, conns[req.client]);
      retSeq, retPeer := retSeq[req.client := req.seqno], retPeer[req.client := req.peer];
      SeenMore(seen, s);
      LookupAnswered(req, s);
      Connections(conns, nextConn, received, seen, phases);
      var ret, added := Handle(req, |received|, env, s);
      Returns(ret, added, req, s, |received|);
      Finish(req, s, ret, added);
    }

    /** The second half of the dispatcher: keep the buffer of a queued command, release any other, and
        send the shared status message unless the handler has seen to it. */
    method Finish(req: Request, ghost s: Seen, ret: int, added: seq<Out>)
      requires Accounts(queues, received, seen, log, freed, phases) && ConnsOk(conns, nextConn, received, seen, phases)
      requires req.client in queues && Live(conns, req, s)
      requires Handled(ret, added, req, s, |received|) && QUEUED <= ret
      requires req.client in retSeq && req.client in retPeer
      requires retSeq[req.client] == req.seqno && retPeer[req.client] == req.peer
      modifies this`queues, this`received, this`log, this`freed, this`seen, this`phases
      ensures Accounts(queues, received, seen, log, freed, phases) && ConnsOk(conns, nextConn, received, seen, phases)
      ensures received == old(received) + [req] && seen == old(seen) + [s]
      ensures queues == if ret != QUEUED then old(queues)
                        else old(queues)[req.client := old(queues)[req.client] + [|old(received)|]]
      ensures phases == old(phases) + [PhaseAfter(ret, req, s)] && old(log) <= log
    {
      hide Accounts, Handled, SilentKind;
      var c, k := req.client, |received|;
      Entered(queues, received, seen, log, freed, phases, req, s, ret, added);
      received, seen := received + [req], seen + [s];
      phases := phases + [PhaseAfter(ret, req, s)];
      log := log + added;
      if ret == QUEUED {
        queues := queues[c := queues[c] + [k]];
        return;
      }
      freed := freed + [k];
      if ret == NO_REPLY {
        return;
      }
      log := log + [Out(c, Status, retSeq[c], retPeer[c], None, Reply, k, Code(ret))];
    }

    /** `ubusd_cmd_lookup` on the head of the queue: the lookup goes on, and if it ends it gets its status
        with its own numbers, and its buffer is released. */
    method ResumeHead(c: ClientId, walk: Walk) returns (ret: int)
      requires Valid() && c in queues && queues[c] != []
      modifies this`queues, this`retSeq, this`retPeer, this`log, this`freed, this`phases
      ensures Valid()
      ensures ret == QUEUED <==> walk.finished.None?
      ensures ret == QUEUED ==> queues == old(queues) && freed == old(freed) && phases == old(phases)
      ensures ret != QUEUED ==>
        && queues == old(queues)[c := old(queues)[c][1..]]
        && freed == old(freed) + [old(queues)[c][0]]
        && old(queues)[c][0] < |old(phases)| && phases == old(phases)[old(queues)[c][0] := Answered]
      ensures old(queues)[c][0] < |received|
      ensures var k, req := old(queues)[c][0], received[old(queues)[c][0]];
        && req.client == c
        && log == old(log) + (Datas(req, k, Others(walk.sent)) +
                    if walk.finished.None? then [] else [StatusReply(c, req.seqno, req.peer, k, walk.finished.value)])
    {
      hide Accounts, ConnsOk, SeenOk, d.Valid, Owned, Datas, Others;
      var k := queues[c][0];
      Continued(queues, received, seen, log, freed, phases, c, Others(walk.sent));
      var req := received[k];
      log := log + Datas(req, k, Others(walk.sent));
      assert Datas(req, k, Others(walk.sent)) + [] == Datas(req, k, Others(walk.sent));
      if walk.finished.None? {
        assert log + [] == log;
        return QUEUED;
      }
      EndHead(c, walk.finished.value);
      return walk.finished.value;
    }

    /** The status of a queued lookup. */
    method EndHead(c: ClientId, code: nat)
      requires Valid() && c in queues && queues[c] != []
      modifies this`queues, this`retSeq, this`retPeer, this`log, this`freed, this`phases
      ensures Valid() && old(queues)[c][0] < |received|
      ensures queues == old(queues)[c := old(queues)[c][1..]] && freed == old(freed) + [old(queues)[c][0]]
      ensures old(queues)[c][0] < |old(phases)| && phases == old(phases)[old(queues)[c][0] := Answered]
      ensures var k, req := old(queues)[c][0], received[old(queues)[c][0]];
        log == old(log) + [StatusReply(c, req.seqno, req.peer, k, code)]
    {
      hide Accounts, ConnsOk, SeenOk, d.Valid, Owned;
      var k := queues[c][0];
      Concluded(queues, received, seen, log, freed, phases, c, code);
      ConnsAnswered(conns, nextConn, received, seen, phases, k);
      var req := received[k];
      retSeq, retPeer := retSeq[c := req.seqno], retPeer[c := req.peer];
      log := log + [Out(c, Status, retSeq[c], retPeer[c], None, Reply, k, Code(code))];
      queues := queues[c := queues[c][1..]];
      freed := freed + [k];
      phases := phases[k := Answered];
    }

    /** `ubus_client_cmd_queue_process`: queued lookups go on one after the other, from the head, until one
        fills the client's queue again. */
    method ProcessQueue(c: ClientId, walks: seq<Walk>)
      requires Valid() && c in queues && |walks| == |queues[c]|
      modifies this`queues, this`retSeq, this`retPeer, this`log, this`freed, this`phases
      ensures Valid()
      ensures queues == old(queues)[c := old(queues)[c][Finished(walks)..]]
      ensures freed == old(freed) + old(queues)[c][..Finished(walks)]
      ensures |phases| == |old(phases)|
      ensures log == old(log) + Resumption(received, old(queues)[c], walks)
    {
      hide Valid, Finished, Resumption, Datas, Others, StatusReply;
      Unfolds(received, queues[c], walks);
      var i := 0;
      ghost var q := queues[c];
      assert walks[0..] == walks && q[0..] == q && freed + q[..0] == freed;
      while i < |walks|
        invariant Valid() && 0 <= i <= |walks|
        invariant c in queues && queues == old(queues)[c := q[i..]]
        invariant freed == old(freed) + q[..i]
        invariant Finished(walks) == i + Finished(walks[i..])
        invariant |phases| == |old(phases)|
        invariant log + Resumption(received, q[i..], walks[i..]) == old(log) + Resumption(received, q, walks)
      {
        assert q[i..][1..] == q[i + 1..] && q[..i + 1] == q[..i] + [q[i]] && walks[i..][1..] == walks[i + 1..];
        Unfolds(received, q[i..], walks[i..]);
        ghost var before := log;
        var ret := ResumeHead(c, walks[i]);
        Seqs.Assoc(before, Resume1(received, q[i..], walks[i..]), Resumption(received, q[i + 1..], walks[i + 1..]));
        if ret == QUEUED { return; }
        i := i + 1;
      }
      Unfolds(received, q[i..], walks[i..]);
    }

    /** The commands a client has queued are released without an answer. */
    method DropQueue(c: ClientId)
      requires Accounts(queues, received, seen, log, freed, phases) && c in queues
      modifies this`queues, this`freed, this`phases
      ensures Accounts(queues, received, seen, log, freed, phases) && queues == old(queues)[c := []]
      ensures OnlyAborted(received, old(phases), phases, c)
    {
      hide Accounts, OnlyAborted;
      Discipline(queues, received, seen, log, freed, phases);
      NoneAborted(received, phases, c);
      SameMap(queues, c);
      while queues[c] != []
        invariant Accounts(queues, received, seen, log, freed, phases)
        invariant c in queues && queues == old(queues)[c := queues[c]]
        invariant OnlyAborted(received, old(phases), phases, c)
        decreases |queues[c]|
      {
        var k := queues[c][0];
        Dropped(queues, received, seen, log, freed, phases, c);
        OneAborted(received, old(phases), phases, c, k);
        UpdateTwice(old(queues), c, queues[c], queues[c][1..]);
        queues := queues[c := queues[c][1..]];
        freed := freed + [k];
        phases := phases[k := Aborted];
      }
    }

    /** `handle_client_disconnect`. */
    method Disconnect(c: ClientId)
      requires Valid() && c in queues
      modifies this`queues, this`conns, this`freed, this`phases, d
      ensures Valid() && queues == old(queues) - {c} && conns == old(conns) - {c}
      ensures received == old(received) && log == old(log) && seen == old(seen)
      ensures Evolves(old(d.View()), DisconnectEvent(c), d.View())
    {
      hide Accounts, ConnsOk, OnlyAborted, LeftOf, Seqs.Without, d.Valid, Owned, SeenOk;
      ghost var phases0 := phases;
      DropQueue(c);
      NoneWaiting(queues, received, seen, log, freed, phases, c);
      Forgotten(queues, received, seen, log, freed, phases, c);
      ConnsDrop(conns, nextConn, received, seen, phases0, phases, c);
      UpdateGone(old(queues), c);
      queues, conns := queues - {c}, conns - {c};
      d.Disconnect(c);
    }

    method Connect(c: ClientId)
      requires Valid() && c !in queues
      modifies this`queues, this`conns, this`nextConn, d
      ensures Valid() && queues == old(queues)[c := []] && received == old(received) && seen == old(seen)
      ensures Evolves(old(d.View()), ConnectEvent(c), d.View())
    {
      hide d.Valid, Accounts, ConnsOk, SeenOk, Owned, Consistent, LogOk;
      AccountsConnect(queues, received, seen, log, freed, phases, c);
      ConnsConnect(conns, nextConn, received, seen, phases, c);
      d.Connect(c);
      queues := queues[c := []];
      conns, nextConn := conns[c := nextConn], nextConn + 1;
    }

    lemma Account()
      requires Valid()
      ensures Accounts(queues, received, seen, log, freed, phases) && ConnsOk(conns, nextConn, received, seen, phases)
    {
    }

    lemma KnownClients()
      requires Valid()
      ensures queues.Keys == d.clients.Keys
    {
    }

    /** One event of a run. */
    method Step(e: Event)
      requires Valid() && regs != [] && regs[|regs| - 1] == d.View()
      modifies this, d
      ensures Valid() && queues == Queue1(old(queues), |old(received)|, e)
      ensures regs == old(regs) + [d.View()] && Evolves(old(d.View()), e, d.View())
      ensures Recorded(e, e.ReceiveEvent? && e.req.client in old(queues), old(d.View()), old(received), old(seen), received, seen)
      ensures !e.ReceiveEvent? ==> log == old(log) + Resumed(old(received), old(queues), e)
    {
      hide Valid, Evolves, Recorded;
      React(e);
      regs := regs + [d.View()];
    }

    method React(e: Event)
      requires Valid()
      modifies this`queues, this`retSeq, this`retPeer, this`conns, this`nextConn, this`received, this`log, this`freed
      modifies this`seen, this`phases, d
      ensures Valid() && queues == Queue1(old(queues), |old(received)|, e) && Evolves(old(d.View()), e, d.View())
      ensures Recorded(e, e.ReceiveEvent? && e.req.client in old(queues), old(d.View()), old(received), old(seen), received, seen)
      ensures !e.ReceiveEvent? ==> log == old(log) + Resumed(old(received), old(queues), e)
    {
      hide Valid, Live, SilentKind, Evolves, Finished, Resumption, PassedOn, Notifies;
      KnownClients();
      Idles(d.View(), e);
      assert log + [] == log;
      match e {
        case ConnectEvent(c) => if c !in queues { Connect(c); }
        case ReceiveEvent(req, env) => if req.client in queues { Receive(req, env); }
        case QueueEvent(c, walks) => if c in queues && |walks| == |queues[c]| { ProcessQueue(c, walks); }
        case DisconnectEvent(c) => if c in queues { Disconnect(c); }
      }
    }
  }

  lemma LookupAnswered(req: Request, s: Seen)
    ensures req.typ == Lookup ==> !SilentKind(s, req)
  {
  }

  lemma NoOthers()
    ensures Others(0) == []
  {
  }

  lemma Returns(ret: int, added: seq<Out>, req: Request, s: Seen, k: nat)
    requires Handled(ret, added, req, s, k)
    ensures ret >= QUEUED && (ret == QUEUED <==> Deferred(req, s))
  {
    hide Of, Forwards, AnsweredBy, AnswerTo;
  }

  lemma BuiltinOwned(objects: map<ObjId, Obj>, o: ObjId)
    requires Owned(objects) && Builtin(o)
    ensures o in objects && objects[o].client.None?
  {
  }

  /** How many queued lookups end before one fills the client's queue again. */
  function Finished(walks: seq<Walk>): (n: nat)
    ensures n <= |walks|
  {
    if walks == [] || walks[0].finished.None? then 0 else 1 + Finished(walks[1..])
  }

  /** What the first lookup of a queue sends when it goes on, and what all of them do. */
  function Resume1(received: seq<Request>, q: seq<nat>, walks: seq<Walk>): seq<Out> {
    if walks == [] || q == [] || q[0] >= |received| then []
    else
      var k, req, walk := q[0], received[q[0]], walks[0];
      Datas(req, k, Others(walk.sent)) +
      if walk.finished.None? then [] else [StatusReply(req.client, req.seqno, req.peer, k, walk.finished.value)]
  }

  function Resumption(received: seq<Request>, q: seq<nat>, walks: seq<Walk>): seq<Out>
    decreases |walks|
  {
    if walks == [] || q == [] then []
    else Resume1(received, q, walks) + if walks[0].finished.None? then [] else Resumption(received, q[1..], walks[1..])
  }

  lemma Unfolds(received: seq<Request>, q: seq<nat>, walks: seq<Walk>)
    ensures Finished(walks) == if walks == [] || walks[0].finished.None? then 0 else 1 + Finished(walks[1..])
    ensures Resumption(received, q, walks) ==
            if walks == [] || q == [] then []
            else if walks[0].finished.None? then Resume1(received, q, walks)
            else Resume1(received, q, walks) + Resumption(received, q[1..], walks[1..])
  {
    assert Resume1(received, q, walks) + [] == Resume1(received, q, walks);
  }

  /** A queued lookup goes on. */
  lemma Continued(queues: map<ClientId, seq<nat>>, received: seq<Request>, seen: seq<Seen>, log: seq<Out>, freed: seq<nat>,
                  phases: seq<Phase>, c: ClientId, bodies: seq<Body>)
    requires Accounts(queues, received, seen, log, freed, phases) && c in queues && queues[c] != []
    ensures var k := queues[c][0];
      && k < |received| && |phases| == |received| && received[k].client == c && phases[k] == Waiting
      && Accounts(queues, received, seen, log + Datas(received[k], k, bodies), freed, phases)
  {
    hide Settled, Of, OwnQueue, Forwards;
    var k := queues[c][0];
    QueuePop(queues, received, phases, c, Answered);
    assert Kept(log, k, received[k], seen[k], phases[k]);
    MoreReplies(RepliesTo(log, k), received[k], seen[k], k, bodies, 0);
    KeptMore(received, seen, log, phases, k, Datas(received[k], k, bodies), Waiting);
    assert phases[k := Waiting] == phases;
  }

  /** It ends. */
  lemma Concluded(queues: map<ClientId, seq<nat>>, received: seq<Request>, seen: seq<Seen>, log: seq<Out>, freed: seq<nat>,
                  phases: seq<Phase>, c: ClientId, code: nat)
    requires Accounts(queues, received, seen, log, freed, phases) && c in queues && queues[c] != []
    ensures var k := queues[c][0];
      && k < |received| && |phases| == |received| && received[k].client == c && phases[k] == Waiting
      && Accounts(queues[c := queues[c][1..]], received, seen,
                  log + [StatusReply(c, received[k].seqno, received[k].peer, k, code)], freed + [k], phases[k := Answered])
  {
    hide Settled, Of, OwnQueue, Forwards;
    var k := queues[c][0];
    QueuePop(queues, received, phases, c, Answered);
    FreedOne(freed, phases, k, Answered);
    var req := received[k];
    var st := [StatusReply(c, req.seqno, req.peer, k, code)];
    assert Kept(log, k, req, seen[k], phases[k]);
    MoreReplies(RepliesTo(log, k), req, seen[k], k, [], code);
    assert Datas(req, k, []) + st == st;
    KeptMore(received, seen, log, phases, k, st, Answered);
  }

  /** Some commands of one client have been dropped, and nothing else. */
  ghost predicate OnlyAborted(received: seq<Request>, phases: seq<Phase>, phases': seq<Phase>, c: ClientId) {
    && |phases| == |phases'| == |received|
    && forall k :: 0 <= k < |phases| && phases'[k] != phases[k] ==> received[k].client == c && phases'[k] == Aborted
  }

  lemma NoneAborted(received: seq<Request>, phases: seq<Phase>, c: ClientId)
    requires |phases| == |received|
    ensures OnlyAborted(received, phases, phases, c)
  {
  }

  lemma OneAborted(received: seq<Request>, phases: seq<Phase>, phases': seq<Phase>, c: ClientId, k: nat)
    requires OnlyAborted(received, phases, phases', c) && k < |phases'| && k < |received| && received[k].client == c
    ensures OnlyAborted(received, phases, phases'[k := Aborted], c)
  {
  }

  lemma UpdateTwice(m: map<ClientId, seq<nat>>, c: ClientId, x: seq<nat>, y: seq<nat>)
    ensures m[c := x][c := y] == m[c := y]
  {
  }

  lemma UpdateGone(m: map<ClientId, seq<nat>>, c: ClientId)
    ensures m[c := []] - {c} == m - {c}
  {
  }

  lemma SameMap(m: map<ClientId, seq<nat>>, c: ClientId)
    requires c in m
    ensures m[c := m[c]] == m
  {
  }

  lemma Dropped(queues: map<ClientId, seq<nat>>, received: seq<Request>, seen: seq<Seen>, log: seq<Out>, freed: seq<nat>,
                phases: seq<Phase>, c: ClientId)
    requires Accounts(queues, received, seen, log, freed, phases) && c in queues && queues[c] != []
    ensures queues[c][0] < |phases| == |received| && received[queues[c][0]].client == c
    ensures Accounts(queues[c := queues[c][1..]], received, seen, log, freed + [queues[c][0]], phases[queues[c][0] := Aborted])
  {
    hide Of, OwnQueue, Forwards;
    var k := queues[c][0];
    QueuePop(queues, received, phases, c, Aborted);
    FreedOne(freed, phases, k, Aborted);
    assert Kept(log, k, received[k], seen[k], Waiting);
    forall j | 0 <= j < |received| ensures Kept(log, j, received[j], seen[j], phases[k := Aborted][j]) {
      assert Kept(log, j, received[j], seen[j], phases[j]);
    }
  }

  lemma Forgotten(queues: map<ClientId, seq<nat>>, received: seq<Request>, seen: seq<Seen>, log: seq<Out>, freed: seq<nat>,
                  phases: seq<Phase>, c: ClientId)
    requires Accounts(queues, received, seen, log, freed, phases) && c in queues && queues[c] == []
    ensures Accounts(queues - {c}, received, seen, log, freed, phases)
  {
    hide AllKept, FreedOk;
  }

  lemma NoneWaiting(queues: map<ClientId, seq<nat>>, received: seq<Request>, seen: seq<Seen>, log: seq<Out>, freed: seq<nat>,
                    phases: seq<Phase>, c: ClientId)
    requires Accounts(queues, received, seen, log, freed, phases) && c in queues && queues[c] == []
    ensures |phases| == |received|
    ensures forall k :: 0 <= k < |received| && received[k].client == c ==> phases[k] != Waiting
  {
    hide AllKept, FreedOk;
  }

  ghost function PhaseAfter(ret: int, req: Request, s: Seen): Phase {
    if ret == QUEUED then Waiting else if SilentKind(s, req) then Silent else Answered
  }

  /** A command enters the accounts. */
  lemma Entered(queues: map<ClientId, seq<nat>>, received: seq<Request>, seen: seq<Seen>, log: seq<Out>, freed: seq<nat>,
                phases: seq<Phase>, req: Request, s: Seen, ret: int, added: seq<Out>)
    requires Accounts(queues, received, seen, log, freed, phases) && req.client in queues
    requires Handled(ret, added, req, s, |received|) && QUEUED <= ret
    ensures var k, phase := |received|, PhaseAfter(ret, req, s);
      var log' := if ret == QUEUED || ret == NO_REPLY then log + added
                  else log + added + [StatusReply(req.client, req.seqno, req.peer, k, ret)];
      if ret == QUEUED
      then Accounts(queues[req.client := queues[req.client] + [k]], received + [req], seen + [s], log', freed, phases + [phase])
      else Accounts(queues, received + [req], seen + [s], log', freed + [k], phases + [phase])
  {
    hide Settled, Of, Handled, OwnQueue, Kept, AllKept;
    var k, phase := |received|, PhaseAfter(ret, req, s);
    assert |phases| == |received| by { assert QueueOk(queues, received, phases); }
    HandledKept(ret, added, req, s, k);
    QueueNew(queues, received, phases, req, phase);
    FreedNew(freed, phases, phase);
    if ret == QUEUED || ret == NO_REPLY {
      KeptNew(received, seen, log, phases, req, s, added, phase);
    } else {
      var st := [StatusReply(req.client, req.seqno, req.peer, k, ret)];
      StatusAfter(ret, added, req, s, k);
      KeptNew(received, seen, log, phases, req, s, added + st, phase);
      Seqs.Assoc(log, added, st);
    }
  }

  /** What the contract of a handler means for the dispatcher. */
  lemma HandledKept(ret: int, added: seq<Out>, req: Request, s: Seen, k: nat)
    requires Handled(ret, added, req, s, k)
    ensures OnlyFor(added, k) && Causes(added, k + 1)
    ensures ret == QUEUED || ret == NO_REPLY ==> Kept(added, k, req, s, PhaseAfter(ret, req, s))
    ensures ret != QUEUED && ret != NO_REPLY ==> PhaseAfter(ret, req, s) == Answered
  {
    hide Of, Forwards;
  }

  lemma SubscribersLive(r: Reg, o: ObjId)
    requires Consistent(r) && o in r.objects
    ensures forall s :: s in r.objects[o].subscribers ==>
      s in r.subs && r.subs[s].subscriber in r.objects && r.objects[r.subs[s].subscriber].client.Some?
  {
    hide ClientsOk, PathOk, TypesOk, Seqs.Distinct;
    assert ListsOk(r, o);
    forall s | s in r.objects[o].subscribers
      ensures s in r.subs && r.subs[s].subscriber in r.objects && r.objects[r.subs[s].subscriber].client.Some?
    {
      assert SubOk(r, s);
    }
  }

  // ----- runs -----

  datatype Event =
    | ConnectEvent(c: ClientId)
    | ReceiveEvent(req: Request, env: Env)
    | QueueEvent(c: ClientId, walks: seq<Walk>)
    | DisconnectEvent(c: ClientId)

  /** The command queues before and after an event, when `n` commands have been received. */
  function Queue1(qs: map<ClientId, seq<nat>>, n: nat, e: Event): map<ClientId, seq<nat>> {
    match e
    case ConnectEvent(c) => if c in qs then qs else qs[c := []]
    case ReceiveEvent(req, env) =>
      if req.client in qs && req.typ == Lookup && (env.busy || env.walk.finished.None?)
      then qs[req.client := qs[req.client] + [n]] else qs
    case QueueEvent(c, walks) => if c in qs && |walks| == |qs[c]| then qs[c := qs[c][Finished(walks)..]] else qs
    case DisconnectEvent(c) => qs - {c}
  }

  /** The command queues after a run; a client has one exactly while it is connected. */
  function Queues(events: seq<Event>): map<ClientId, seq<nat>> {
    if events == [] then map[]
    else
      var before := events[..|events| - 1];
      Queue1(Queues(before), |Commands(before)|, events[|events| - 1])
  }

  /** What is sent because the queue of a client has become empty. */
  function Resumed(received: seq<Request>, qs: map<ClientId, seq<nat>>, e: Event): seq<Out> {
    if e.QueueEvent? && e.c in qs && |e.walks| == |qs[e.c]| then Resumption(received, qs[e.c], e.walks) else []
  }

  /** The commands that clients have sent while they were connected. */
  function Commands(events: seq<Event>): seq<(Request, Env)> {
    if events == [] then []
    else
      var before, e := events[..|events| - 1], events[|events| - 1];
      Commands(before) + if e.ReceiveEvent? && e.req.client in Queues(before) then [(e.req, e.env)] else []
  }

  /** After how many events each of them came. */
  function Times(events: seq<Event>): (times: seq<nat>)
    ensures |times| == |Commands(events)| && forall k :: 0 <= k < |times| ==> times[k] < |events|
  {
    if events == [] then []
    else
      var before, e := events[..|events| - 1], events[|events| - 1];
      Times(before) + if e.ReceiveEvent? && e.req.client in Queues(before) then [|before|] else []
  }

  /** The registry before and after an event. */
  ghost predicate Evolves(r: Reg, e: Event, r': Reg) {
    match e
    case ConnectEvent(c) => D.Moves(r, D.ConnectCmd(c), r')
    case ReceiveEvent(req, env) => if req.client in r.clients then Changes(r, req, env, r') else r' == r
    case QueueEvent(_, _) => r' == r
    case DisconnectEvent(c) => D.Moves(r, D.DisconnectCmd(c), r')
  }

  lemma Idles(r: Reg, e: Event)
    ensures e.ConnectEvent? && e.c in r.clients ==> Evolves(r, e, r)
    ensures e.ReceiveEvent? && e.req.client !in r.clients ==> Evolves(r, e, r)
    ensures e.QueueEvent? ==> Evolves(r, e, r)
    ensures e.DisconnectEvent? && e.c !in r.clients ==> Evolves(r, e, r)
  {
  }

  /** A command that is heard enters the account, with the registry as it was. */
  ghost predicate Recorded(e: Event, heard: bool, r: Reg, received: seq<Request>, seen: seq<Seen>,
                           received': seq<Request>, seen': seq<Seen>) {
    if heard && e.ReceiveEvent? then
      && received' == received + [e.req] && |seen'| == |seen| + 1 && seen <= seen'
      && seen'[|seen|].env == e.env && seen'[|seen|].reg == r
    else received' == received && seen' == seen
  }

  /** The registries of a run, from that of a daemon that has just started. */
  ghost predicate History(events: seq<Event>, regs: seq<Reg>) {
    && |regs| == |events| + 1 && regs[0] == Started()
    && forall i :: 0 <= i < |events| ==> Evolves(regs[i], events[i], regs[i + 1])
  }

  /** The commands of the account are those of the run, each with the registry as it was when it came. */
  ghost predicate Tells(received: seq<Request>, seen: seq<Seen>, events: seq<Event>, regs: seq<Reg>) {
    && |received| == |seen| == |Commands(events)| && |regs| == |events| + 1
    && forall k :: 0 <= k < |seen| ==>
         Commands(events)[k] == (received[k], seen[k].env) && seen[k].reg == regs[Times(events)[k]]
  }

  /** Over every run, the account is that of the commands sent; each of them is still in its client's command queue, on
      the same connection; or answered by data and then exactly one STATUS with its own numbers; or of a kind that gets
      no reply; or dropped because its connection has ended.  Exactly the messages it asks for, given the registry when
      it was received, have been passed on.  Its buffer has been released exactly once unless it is still queued. */
  method Run(events: seq<Event>) returns (sv: Server)
    ensures fresh(sv) && fresh(sv.d) && sv.Valid() && sv.queues == Queues(events)
    ensures History(events, sv.regs) && Tells(sv.received, sv.seen, events, sv.regs) && |sv.phases| == |sv.received|
    ensures forall k :: 0 <= k < |sv.received| ==>
      && Kept(sv.log, k, sv.received[k], sv.seen[k], sv.phases[k])
      && (sv.phases[k] == Waiting ==> Live(sv.conns, sv.received[k], sv.seen[k]))
      && (sv.phases[k] == Aborted ==> !Live(sv.conns, sv.received[k], sv.seen[k]))
      && multiset(sv.freed)[k] == if sv.phases[k] == Waiting then 0 else 1
  {
    hide Accounts, Kept, ConnsOk, SeenOk, Live, Owned, Queue1, Started, Tells, History, Evolves, Recorded, sv.Valid;
    var d := new D.Daemon();
    D.StartedOwned();
    StartedEmpty();
    TellsNone();
    sv := new Server(d);
    for i := 0 to |events|
      invariant fresh(sv) && fresh(sv.d) && sv.Valid()
      invariant sv.queues == Queues(events[..i]) && |sv.received| == |Commands(events[..i])|
      invariant |sv.regs| == i + 1 && sv.regs[i] == sv.d.View() && History(events[..i], sv.regs)
      invariant Tells(sv.received, sv.seen, events[..i], sv.regs)
    {
      assert events[..i + 1] == events[..i] + [events[i]];
      ghost var received0, seen0, regs0 := sv.received, sv.seen, sv.regs;
      sv.Step(events[i]);
      TellsMore(received0, seen0, regs0, events[..i], events[i], sv.received, sv.seen, sv.d.View());
    }
    assert events[..|events|] == events;
    sv.Account();
    Discipline(sv.queues, sv.received, sv.seen, sv.log, sv.freed, sv.phases);
    Connections(sv.conns, sv.nextConn, sv.received, sv.seen, sv.phases);
  }

  lemma StartedEmpty()
    ensures Started().clients == map[]
  {
  }

  lemma TellsNone()
    ensures Tells([], [], [], [Started()]) && History([], [Started()])
  {
  }

  lemma TellsMore(received: seq<Request>, seen: seq<Seen>, regs: seq<Reg>, events: seq<Event>, e: Event,
                  received': seq<Request>, seen': seq<Seen>, reg: Reg)
    requires Tells(received, seen, events, regs) && History(events, regs) && Evolves(regs[|regs| - 1], e, reg)
    requires Recorded(e, e.ReceiveEvent? && e.req.client in Queues(events), regs[|regs| - 1], received, seen, received', seen')
    ensures Tells(received', seen', events + [e], regs + [reg]) && History(events + [e], regs + [reg])
    ensures |received'| == |Commands(events + [e])|
  {
    hide Evolves, Started;
    assert (events + [e])[..|events|] == events;
    forall k | 0 <= k < |seen| ensures (regs + [reg])[Times(events)[k]] == regs[Times(events)[k]] {}
  }

  lemma Discipline(queues: map<ClientId, seq<nat>>, received: seq<Request>, seen: seq<Seen>, log: seq<Out>, freed: seq<nat>,
                   phases: seq<Phase>)
    requires Accounts(queues, received, seen, log, freed, phases)
    ensures |phases| == |received| == |seen|
    ensures forall k :: 0 <= k < |received| ==>
      && Kept(log, k, received[k], seen[k], phases[k])
      && multiset(freed)[k] == if phases[k] == Waiting then 0 else 1
  {
    hide Kept;
  }

  lemma Connections(conns: map<ClientId, nat>, next: nat, received: seq<Request>, seen: seq<Seen>, phases: seq<Phase>)
    requires ConnsOk(conns, next, received, seen, phases)
    ensures |phases| == |received| == |seen|
    ensures forall k :: 0 <= k < |received| ==>
      && (phases[k] == Waiting ==> Live(conns, received[k], seen[k]))
      && (phases[k] == Aborted ==> !Live(conns, received[k], seen[k]))
  {
    hide Live;
  }
}
