/** A call from one client to another and back (`ubus_invoke_async_fd`, `ubus_process_invoke`, `ubus_send_reply` and
    `ubus_complete_deferred_request` in the library, `ubusd_handle_invoke`, `ubusd_handle_notify` and
    `ubusd_handle_response` in the daemon): any number of connections, each with a stream of messages to the daemon and
    one back.  Notifications, and commands for the daemon itself, are under way on the same streams and with numbers from
    the same counters.

    Connections are numbered in the order in which they are made, and requests in the order in which they are started;
    the cause of a message is here the number of the request it belongs to. */
module Routing {
  import opened Options
  import opened Registry
  import opened Replies
  import opened Ubus
  import D = Daemon
  import Requests
  import Seqs

  type Conn = nat
  type CallNo = nat

  /** What a request is: a call of an object, a notification, or a command for the daemon. */
  datatype Sort = Call | Notification | Command

  /** A request: by whom, as the how manieth of that connection, and the peer in its header, which for a call or a
      notification is the object. */
  datatype Started = Started(conn: Conn, start: nat, peer: nat, sort: Sort)

  /** `struct ubus_request_data`, for a call that is being served. */
  datatype Job = Job(obj: ObjId, peer: nat, seqno: nat, call: CallNo)

  /** An entry of the list of requests.  A notification waits for the daemon, and then for the objects listed by it, as
      `Requests.Notification` does with its slots. */
  datatype Open = Plain(call: CallNo) | Notifying(call: CallNo, answered: bool, waiting: seq<ObjId>)

  /** A message to the daemon, and one from it; `sender` is the connection that an answer comes from, and `listed` the
      list of subscribers in the daemon's answer to a notification. */
  datatype Up = Up(req: Request, call: CallNo)
  datatype Down = Down(out: Out, sender: Option<Conn>, listed: seq<ObjId>)

  /** One connection: its streams, the count of requests started, the requests waiting for an answer, and the calls being
      served. */
  datatype Link = Link(up: seq<Up>, down: seq<Down>, started: nat, open: seq<Open>, jobs: seq<Job>)

  /** The id of each connection, the live ones, the requests, and which request was passed to which connection and to
      which object. */
  datatype World = World(ids: seq<ClientId>, live: set<Conn>, calls: seq<Started>, passed: set<(CallNo, Conn)>,
                         asked: set<(CallNo, ObjId)>)

  datatype State = State(w: World, links: seq<Link>, owner: map<ObjId, Conn>)

  function Init(): State {
    State(World([], {}, [], {}, {}), [], map[])
  }

  // ----- messages -----

  /** `ubus_invoke_async_fd`. */
  function CallMsg(id: ClientId, start: nat, obj: ObjId): Request {
    Request(id, Invoke, Requests.SeqOf(start), obj,
            Attrs(Some(obj), None, Some(""), None, None, None, false, true, false))
  }

  /** `__ubus_notify_async`, and any command for the daemon. */
  function NotifyMsg(id: ClientId, start: nat, obj: ObjId): Request {
    CallMsg(id, start, obj).(typ := Notify)
  }

  function CommandMsg(id: ClientId, start: nat, peer: nat): Request {
    Request(id, Lookup, Requests.SeqOf(start), peer, Attrs(None, None, None, None, None, None, false, false, false))
  }

  /** `ubus_send_reply` and `ubus_complete_deferred_request`. */
  function AnswerMsg(id: ClientId, job: Job, data: bool): Request {
    Request(id, if data then Data else Status, job.seqno, job.peer,
            Attrs(Some(job.obj), None, None, None, None, None, !data, data, false))
  }

  // ----- steps -----

  /** A request leaves the list, in any state, when it is aborted or its time is up, and `ubus_complete_request_async` can
      put it there later than it was started, or again.  `refused` calls leave `ubus_process_invoke` before the request is
      filled in, and are answered with zeros. */
  datatype Step =
    | Connect(id: ClientId)
    | Close(c: Conn)
    | AddObject(c: Conn, o: ObjId)
    | RemoveObject(o: ObjId)
    | Issue(c: Conn, o: ObjId)
    | IssueNotify(c: Conn, o: ObjId)
    | IssueCommand(c: Conn, peer: nat)
    | Enlist(c: Conn, e: Open)
    | Unlist(c: Conn, i: nat)
    | Pass(c: Conn, denied: bool)
    | PassNotify(c: Conn, subs: seq<ObjId>)
    | ReplyData(c: Conn)
    | ReplyStatus(c: Conn, code: nat)
    | PassTo(c: Conn, to: Conn)
    | Ignore(c: Conn)
    | Take(c: Conn, refused: bool)
    | Answer(c: Conn, j: nat, data: bool)

  predicate IdInUse(w: World, id: ClientId) {
    exists c :: c in w.live && c < |w.ids| && w.ids[c] == id
  }

  predicate Alive(s: State, c: Conn) {
    c in s.w.live && c < |s.w.ids| && c < |s.links|
  }

  predicate Owns(s: State, c: Conn, o: Option<ObjId>) {
    o.Some? && o.value in s.owner && s.owner[o.value] == c
  }

  /** An answer whose object is known, whose sender owns it, and whose peer is a client goes to that client. */
  predicate Accepts(s: State, c: Conn, req: Request) {
    Owns(s, c, req.attrs.objId) && IdInUse(s.w, req.peer)
  }

  predicate AllOwned(s: State, subs: seq<ObjId>) {
    forall i :: 0 <= i < |subs| ==> subs[i] in s.owner && Alive(s, s.owner[subs[i]])
  }

  /** An entry for a request of this connection. */
  predicate OpenOk(w: World, c: Conn, e: Open) {
    e.call < |w.calls| && w.calls[e.call].conn == c && (e.Notifying? <==> w.calls[e.call].sort == Notification)
  }

  predicate HasHead(s: State, c: Conn) {
    Alive(s, c) && s.links[c].up != []
  }

  predicate IsAnswer(req: Request) {
    req.typ == Status || req.typ == Data
  }

  predicate Enabled(s: State, step: Step) {
    match step
    case Connect(id) => !IdInUse(s.w, id)
    case Close(c) => Alive(s, c)
    case AddObject(c, o) => Alive(s, c) && o !in s.owner && o != 0
    case RemoveObject(o) => o in s.owner
    case Issue(c, _) => Alive(s, c)
    case IssueNotify(c, _) => Alive(s, c)
    case IssueCommand(c, _) => Alive(s, c)
    case Enlist(c, e) =>
      && Alive(s, c) && OpenOk(s.w, c, e)
      && forall i :: 0 <= i < |s.links[c].open| ==> s.links[c].open[i].call != e.call
    case Unlist(c, i) => Alive(s, c) && i < |s.links[c].open|
    case Pass(c, _) =>
      && HasHead(s, c) && s.links[c].up[0].req.typ == Invoke && s.links[c].up[0].req.attrs.objId.Some?
      && (s.links[c].up[0].req.attrs.objId.value in s.owner ==> Alive(s, s.owner[s.links[c].up[0].req.attrs.objId.value]))
    case PassNotify(c, subs) =>
      && HasHead(s, c) && s.links[c].up[0].req.typ == Notify && Owns(s, c, s.links[c].up[0].req.attrs.objId)
      && AllOwned(s, subs)
    case ReplyData(c) => HasHead(s, c) && s.links[c].up[0].req.typ == Lookup
    case ReplyStatus(c, _) =>
      && HasHead(s, c)
      && (s.links[c].up[0].req.typ == Lookup ||
          (s.links[c].up[0].req.typ == Notify && !Owns(s, c, s.links[c].up[0].req.attrs.objId)))
    case PassTo(c, to) =>
      && HasHead(s, c) && IsAnswer(s.links[c].up[0].req) && Accepts(s, c, s.links[c].up[0].req)
      && Alive(s, to) && s.w.ids[to] == s.links[c].up[0].req.peer
    case Ignore(c) => HasHead(s, c) && IsAnswer(s.links[c].up[0].req) && !Accepts(s, c, s.links[c].up[0].req)
    case Take(c, _) => Alive(s, c) && s.links[c].down != []
    case Answer(c, j, _) => Alive(s, c) && j < |s.links[c].jobs|
  }

  function Put(s: State, c: Conn, d: Down): State
    requires c < |s.links|
  {
    s.(links := s.links[c := s.links[c].(down := s.links[c].down + [d])])
  }

  function Pop(s: State, c: Conn): State
    requires c < |s.links| && s.links[c].up != []
  {
    s.(links := s.links[c := s.links[c].(up := s.links[c].up[1..])])
  }

  /** A call of an object is passed to its owner. */
  function PassOne(s: State, req: Request, k: CallNo, o: ObjId): State
    requires o in s.owner && Alive(s, s.owner[o])
  {
    var to := s.owner[o];
    Put(s.(w := s.w.(passed := s.w.passed + {(k, to)}, asked := s.w.asked + {(k, o)})), to,
        Down(PassedCall(req, s.w.ids[to], o, k), None, []))
  }

  /** `ubusd_handle_invoke`: to the owner, or back with a status. */
  function PassCall(s: State, c: Conn, denied: bool): State
    requires Enabled(s, Pass(c, denied))
  {
    var u, t := s.links[c].up[0], Pop(s, c);
    var o := u.req.attrs.objId.value;
    if o in s.owner && !denied then PassOne(t, u.req, u.call, o)
    else
      var code := if o in s.owner then PERMISSION_DENIED else NOT_FOUND;
      Put(t, c, Down(StatusReply(u.req.client, u.req.seqno, u.req.peer, u.call, code), None, []))
  }

  /** The loop of `ubusd_handle_notify`: a call for every subscriber. */
  function PassAll(s: State, req: Request, k: CallNo, subs: seq<ObjId>): State
    requires AllOwned(s, subs)
    decreases |subs|
  {
    if subs == [] then s
    else
      var t := PassOne(s, req, k, subs[0]);
      assert forall i :: 0 <= i < |subs[1..]| ==> subs[1..][i] == subs[i + 1];
      PassAll(t, req, k, subs[1..])
  }

  /** `ubusd_handle_notify`, accepted: the status with the list, and then the calls. */
  function Notified(s: State, c: Conn, subs: seq<ObjId>): State
    requires Enabled(s, PassNotify(c, subs))
  {
    var u := s.links[c].up[0];
    var t := Put(Pop(s, c), c, Down(StatusReply(u.req.client, u.req.seqno, u.req.peer, u.call, OK), None, subs));
    PassAll(t, u.req, u.call, subs)
  }

  /** The client reads a message: a call is served, and an answer goes to the request found for it. */
  ghost function TakeHead(s: State, c: Conn, refused: bool): State
    requires Enabled(s, Take(c, refused))
  {
    var l, d := s.links[c], s.links[c].down[0];
    var rest := l.(down := l.down[1..]);
    var job := if refused then Job(0, 0, 0, d.out.cause)
               else Job(if d.out.obj.Some? then d.out.obj.value else 0, d.out.peer, d.out.seqno, d.out.cause);
    s.(links := s.links[c :=
      if d.out.typ == Invoke then rest.(jobs := l.jobs + [job])
      else if d.out.typ == Status then rest.(open := Settle(s.w, l.open, d))
      else rest])
  }

  /** The request that takes a status is changed or leaves the list. */
  ghost function Settle(w: World, open: seq<Open>, d: Down): seq<Open> {
    if open == [] then []
    else if Takes(w, open[0], d.out.seqno, d.out.peer) then Ticked(open[0], d) + open[1..]
    else [open[0]] + Settle(w, open[1..], d)
  }

  function Ticked(e: Open, d: Down): seq<Open> {
    if e.Plain? then []
    else
      var left := if e.answered then WithoutOne(e.waiting, d.out.peer) else Requests.First(d.listed, Requests.MAX_PEERS);
      if left == [] then [] else [Notifying(e.call, true, left)]
  }

  function WithoutOne(q: seq<ObjId>, x: ObjId): seq<ObjId> {
    if q == [] then [] else if q[0] == x then q[1..] else [q[0]] + WithoutOne(q[1..], x)
  }

  /** The test of `ubus_find_request`. */
  ghost predicate Takes(w: World, e: Open, seqno: nat, peer: nat) {
    && e.call < |w.calls|
    && if e.Plain? then Requests.Takes(Requests.Plain(w.calls[e.call].start, w.calls[e.call].peer), seqno, peer)
       else Requests.SeqOf(w.calls[e.call].start) == seqno && peer in e.waiting
  }

  /** A request is started. */
  function Begin(s: State, c: Conn, peer: nat, sort: Sort, req: Request, e: Open): State
    requires Alive(s, c)
  {
    var l := s.links[c];
    s.(w := s.w.(calls := s.w.calls + [Started(c, l.started + 1, peer, sort)]),
       links := s.links[c := l.(started := l.started + 1, open := [e] + l.open, up := l.up + [Up(req, |s.w.calls|)])])
  }

  ghost function Apply(s: State, step: Step): State
    requires Enabled(s, step)
  {
    match step
    case Connect(id) =>
      s.(w := s.w.(ids := s.w.ids + [id], live := s.w.live + {|s.w.ids|}), links := s.links + [Link([], [], 0, [], [])])
    case Close(c) =>
      s.(w := s.w.(live := s.w.live - {c}), owner := map o | o in s.owner && s.owner[o] != c :: s.owner[o])
    case AddObject(c, o) => s.(owner := s.owner[o := c])
    case RemoveObject(o) => s.(owner := s.owner - {o})
    case Issue(c, o) => Begin(s, c, o, Call, CallMsg(s.w.ids[c], s.links[c].started + 1, o), Plain(|s.w.calls|))
    case IssueNotify(c, o) =>
      Begin(s, c, o, Notification, NotifyMsg(s.w.ids[c], s.links[c].started + 1, o), Notifying(|s.w.calls|, false, [o]))
    case IssueCommand(c, peer) =>
      Begin(s, c, peer, Command, CommandMsg(s.w.ids[c], s.links[c].started + 1, peer), Plain(|s.w.calls|))
    case Enlist(c, e) => s.(links := s.links[c := s.links[c].(open := [e] + s.links[c].open)])
    case Unlist(c, i) =>
      s.(links := s.links[c := s.links[c].(open := s.links[c].open[..i] + s.links[c].open[i + 1..])])
    case Pass(c, denied) => PassCall(s, c, denied)
    case PassNotify(c, subs) => Notified(s, c, subs)
    case ReplyData(c) => Put(s, c, Down(DataReply(s.links[c].up[0].req, s.links[c].up[0].call, Other), None, []))
    case ReplyStatus(c, code) =>
      var u := s.links[c].up[0];
      Put(Pop(s, c), c, Down(StatusReply(u.req.client, u.req.seqno, u.req.peer, u.call, code), None, []))
    case PassTo(c, to) =>
      var u := s.links[c].up[0];
      Put(Pop(s, c), to, Down(PassedAnswer(u.req, u.call), Some(c), []))
    case Ignore(c) => Pop(s, c)
    case Take(c, refused) => TakeHead(s, c, refused)
    case Answer(c, j, data) =>
      var l := s.links[c];
      s.(links := s.links[c := l.(up := l.up + [Up(AnswerMsg(s.w.ids[c], l.jobs[j], data), l.jobs[j].call)])])
  }

  ghost predicate Runs(s: State, steps: seq<Step>, t: State)
    decreases |steps|
  {
    if steps == [] then s == t
    else Enabled(s, steps[0]) && Runs(Apply(s, steps[0]), steps[1..], t)
  }

  // ----- the invariant -----

  /** The number belongs to the request `k`, and so does the peer: it is the one in its header, or an object the request
      was passed to. */
  ghost predicate Traced(w: World, k: CallNo, seqno: nat, peer: nat) {
    && k < |w.calls| && w.calls[k].conn < |w.ids| && seqno == Requests.SeqOf(w.calls[k].start)
    && (peer == w.calls[k].peer || (k, peer) in w.asked)
  }

  /** `peer` is the id of the caller. */
  ghost predicate Caller(w: World, k: CallNo, peer: nat) {
    k < |w.calls| && w.calls[k].conn < |w.ids| && peer == w.ids[w.calls[k].conn]
  }

  /** A job is a call that was passed to this connection, or one refused before it was filled in. */
  ghost predicate JobOk(w: World, c: Conn, job: Job) {
    || job.obj == 0
    || (Traced(w, job.call, job.seqno, job.obj) && Caller(w, job.call, job.peer) && (job.call, c) in w.passed)
  }

  ghost predicate UpOk(w: World, c: Conn, u: Up) {
    && c < |w.ids| && u.req.client == w.ids[c]
    && if IsAnswer(u.req) then
         && u.req.attrs.objId.Some? && JobOk(w, c, Job(u.req.attrs.objId.value, u.req.peer, u.req.seqno, u.call))
         && (u.req.typ == Status ==> u.req.attrs.hasStatus) && (u.req.typ == Data ==> u.req.attrs.hasData)
       else
         && Traced(w, u.call, u.req.seqno, u.req.peer) && w.calls[u.call].conn == c && u.req.peer == w.calls[u.call].peer
         && (u.req.typ == Lookup || u.req.typ == Invoke || u.req.typ == Notify)
         && (u.req.typ == Invoke || u.req.typ == Notify ==> u.req.attrs.objId == Some(u.req.peer) && u.req.attrs.meth.Some?)
         && (u.req.typ == Notify ==> w.calls[u.call].sort == Notification)
  }

  /** An answer carries the number and the peer of a request by this client, and comes from a connection that the
      request was passed to, or from the daemon.  If another connection started the request, that one is gone, and its id
      is this client's now. */
  ghost predicate AnswerOk(w: World, c: Conn, d: Down) {
    var k := d.out.cause;
    && c < |w.ids| && Traced(w, k, d.out.seqno, d.out.peer) && Caller(w, k, w.ids[c])
    && (w.calls[k].conn == c || w.calls[k].conn !in w.live)
    && (d.sender.Some? ==> (k, d.sender.value) in w.passed)
    && (d.sender.None? ==> w.calls[k].conn == c)
  }

  ghost predicate DownOk(w: World, c: Conn, d: Down) {
    && c < |w.ids| && d.out.to == w.ids[c]
    && if d.out.typ == Invoke then
         && Caller(w, d.out.cause, d.out.peer) && d.out.obj.Some?
         && Traced(w, d.out.cause, d.out.seqno, d.out.obj.value) && (d.out.cause, c) in w.passed
       else AnswerOk(w, c, d)
  }

  /** No request is in the list twice. */
  ghost predicate Once(open: seq<Open>) {
    forall i, j :: 0 <= i < j < |open| ==> open[i].call != open[j].call
  }

  ghost predicate LinkOk(w: World, c: Conn, l: Link) {
    && c < |w.ids|
    && (forall u :: u in l.up ==> UpOk(w, c, u))
    && (forall d :: d in l.down ==> DownOk(w, c, d))
    && (forall j :: j in l.jobs ==> JobOk(w, c, j))
    && (forall e :: e in l.open ==> OpenOk(w, c, e))
    && Once(l.open)
  }

  /** Only a notification is passed to other objects than the one in its header. */
  ghost predicate AskedOk(w: World) {
    forall a :: a in w.asked ==> a.0 < |w.calls| && (w.calls[a.0].sort != Notification ==> a.1 == w.calls[a.0].peer)
  }

  /** Live connections have different ids. */
  ghost predicate IdsOk(w: World) {
    && (forall c :: c in w.live ==> c < |w.ids|)
    && (forall c, d :: c in w.live && d in w.live && w.ids[c] == w.ids[d] ==> c == d)
  }

  /** The calls of one connection are counted upwards. */
  ghost predicate CallsOk(calls: seq<Started>, links: seq<Link>) {
    && (forall k :: 0 <= k < |calls| ==> calls[k].conn < |links| && calls[k].start <= links[calls[k].conn].started)
    && (forall i, k :: 0 <= i < k < |calls| && calls[i].conn == calls[k].conn ==> calls[i].start < calls[k].start)
  }

  ghost predicate Inv(s: State) {
    && |s.links| == |s.w.ids|
    && IdsOk(s.w) && AskedOk(s.w)
    && CallsOk(s.w.calls, s.links)
    && (forall c :: 0 <= c < |s.links| ==> LinkOk(s.w, c, s.links[c]))
    && (forall o :: o in s.owner ==> s.owner[o] in s.w.live && o != 0)
  }

  // ----- steps keep it -----

  /** What a step does to the world: connections, calls and passes are added, and no old connection comes alive. */
  ghost predicate Grows(w: World, v: World) {
    && w.ids <= v.ids && w.calls <= v.calls && w.passed <= v.passed && w.asked <= v.asked
    && forall c :: c in v.live && c < |w.ids| ==> c in w.live
  }

  lemma UpGrows(w: World, v: World, c: Conn, u: Up)
    requires Grows(w, v) && UpOk(w, c, u)
    ensures UpOk(v, c, u)
  {
  }

  lemma DownGrows(w: World, v: World, c: Conn, d: Down)
    requires Grows(w, v) && DownOk(w, c, d)
    ensures DownOk(v, c, d)
  {
  }

  lemma LinkGrows(w: World, v: World, c: Conn, l: Link)
    requires Grows(w, v) && LinkOk(w, c, l)
    ensures LinkOk(v, c, l)
  {
    hide UpOk, DownOk;
    forall u | u in l.up ensures UpOk(v, c, u) { UpGrows(w, v, c, u); }
    forall d | d in l.down ensures DownOk(v, c, d) { DownGrows(w, v, c, d); }
  }

  /** One link changes, and the world grows. */
  lemma Relink(s: State, w: World, c: Conn, l: Link)
    requires Inv(s) && Grows(s.w, w) && IdsOk(w) && AskedOk(w) && w.ids == s.w.ids && w.calls == s.w.calls && w.live == s.w.live
    requires c < |s.links| && LinkOk(w, c, l) && l.started == s.links[c].started
    ensures Inv(s.(w := w, links := s.links[c := l]))
  {
    hide LinkOk;
    forall d | 0 <= d < |s.links| ensures LinkOk(w, d, s.links[d]) { LinkGrows(s.w, w, d, s.links[d]); }
  }

  lemma PutInv(s: State, c: Conn, d: Down)
    requires Inv(s) && c < |s.links| && DownOk(s.w, c, d)
    ensures Inv(Put(s, c, d))
  {
    hide DownOk, UpOk, JobOk, OpenOk;
    Relink(s, s.w, c, s.links[c].(down := s.links[c].down + [d]));
    assert s.(w := s.w) == s;
  }

  lemma PopInv(s: State, c: Conn)
    requires Inv(s) && c < |s.links| && s.links[c].up != []
    ensures Inv(Pop(s, c)) && UpOk(s.w, c, s.links[c].up[0])
  {
    hide DownOk, UpOk, JobOk, OpenOk;
    Relink(s, s.w, c, s.links[c].(up := s.links[c].up[1..]));
  }

  /** A request is passed to the owner of an object. */
  lemma PassOneInv(s: State, c: Conn, u: Up, o: ObjId)
    requires Inv(s) && UpOk(s.w, c, u) && u.req.typ in {Invoke, Notify} && o in s.owner && Alive(s, s.owner[o])
    requires u.req.typ == Invoke ==> o == u.req.peer
    ensures Inv(PassOne(s, u.req, u.call, o))
  {
    hide LinkOk, CallsOk;
    var to := s.owner[o];
    var w := s.w.(passed := s.w.passed + {(u.call, to)}, asked := s.w.asked + {(u.call, o)});
    assert Grows(s.w, w);
    LinkGrows(s.w, w, to, s.links[to]);
    Relink(s, w, to, s.links[to]);
    assert s.links[to := s.links[to]] == s.links;
    PutInv(s.(w := w), to, Down(PassedCall(u.req, s.w.ids[to], o, u.call), None, []));
  }

  lemma OwnReplyOk(w: World, c: Conn, u: Up, listed: seq<ObjId>, code: nat)
    requires UpOk(w, c, u) && !IsAnswer(u.req)
    ensures DownOk(w, c, Down(StatusReply(u.req.client, u.req.seqno, u.req.peer, u.call, code), None, listed))
    ensures DownOk(w, c, Down(DataReply(u.req, u.call, Other), None, listed))
  {
  }

  lemma PassCallInv(s: State, c: Conn, denied: bool)
    requires Inv(s) && Enabled(s, Pass(c, denied))
    ensures Inv(PassCall(s, c, denied))
  {
    hide LinkOk, CallsOk, IdsOk, UpOk, DownOk, AskedOk;
    PopInv(s, c);
    var u, t := s.links[c].up[0], Pop(s, c);
    var o := u.req.attrs.objId.value;
    if o in s.owner && !denied {
      assert o == u.req.peer by { ObjectIsPeer(s.w, c, u); }
      PassOneInv(t, c, u, o);
    } else {
      var code := if o in s.owner then PERMISSION_DENIED else NOT_FOUND;
      OwnReplyOk(s.w, c, u, [], code);
      PutInv(t, c, Down(StatusReply(u.req.client, u.req.seqno, u.req.peer, u.call, code), None, []));
    }
  }

  lemma ObjectIsPeer(w: World, c: Conn, u: Up)
    requires UpOk(w, c, u) && u.req.typ == Invoke
    ensures u.req.attrs.objId == Some(u.req.peer)
  {
  }

  lemma {:induction false} PassAllInv(s: State, c: Conn, u: Up, subs: seq<ObjId>)
    requires Inv(s) && UpOk(s.w, c, u) && u.req.typ == Notify
    requires AllOwned(s, subs)
    ensures Inv(PassAll(s, u.req, u.call, subs))
    decreases |subs|
  {
    if subs != [] {
      PassOneInv(s, c, u, subs[0]);
      var t := PassOne(s, u.req, u.call, subs[0]);
      UpGrows(s.w, t.w, c, u);
      hide Inv, UpOk;
      PassAllInv(t, c, u, subs[1..]);
    }
  }

  lemma NotifiedInv(s: State, c: Conn, subs: seq<ObjId>)
    requires Inv(s) && Enabled(s, PassNotify(c, subs))
    ensures Inv(Notified(s, c, subs))
  {
    hide LinkOk, CallsOk, IdsOk, AskedOk, UpOk, DownOk, PassAll;
    PopInv(s, c);
    var u := s.links[c].up[0];
    OwnReplyOk(s.w, c, u, subs, OK);
    var d := Down(StatusReply(u.req.client, u.req.seqno, u.req.peer, u.call, OK), None, subs);
    PutInv(Pop(s, c), c, d);
    PassAllInv(Put(Pop(s, c), c, d), c, u, subs);
  }

  lemma ReplyInv(s: State, c: Conn, code: nat)
    requires Inv(s) && HasHead(s, c) && s.links[c].up[0].req.typ in {Lookup, Notify}
    ensures var u := s.links[c].up[0];
      && Inv(Put(s, c, Down(DataReply(u.req, u.call, Other), None, [])))
      && Inv(Put(Pop(s, c), c, Down(StatusReply(u.req.client, u.req.seqno, u.req.peer, u.call, code), None, [])))
  {
    hide LinkOk, CallsOk, IdsOk, AskedOk, UpOk, DownOk;
    PopInv(s, c);
    var u := s.links[c].up[0];
    OwnReplyOk(s.w, c, u, [], code);
    PutInv(s, c, Down(DataReply(u.req, u.call, Other), None, []));
    PutInv(Pop(s, c), c, Down(StatusReply(u.req.client, u.req.seqno, u.req.peer, u.call, code), None, []));
  }

  /** An answer that is accepted goes to the caller, or to a client that has the caller's id because the caller is
      gone. */
  lemma PassAnswerInv(s: State, c: Conn, to: Conn)
    requires Inv(s) && Enabled(s, PassTo(c, to))
    ensures Inv(Apply(s, PassTo(c, to)))
  {
    hide LinkOk, Grows, CallsOk;
    PopInv(s, c);
    var u := s.links[c].up[0];
    PutInv(Pop(s, c), to, Down(PassedAnswer(u.req, u.call), Some(c), []));
  }

  lemma ConnectInv(s: State, id: ClientId)
    requires Inv(s) && Enabled(s, Connect(id))
    ensures Inv(Apply(s, Connect(id)))
  {
    hide LinkOk;
    var t := Apply(s, Connect(id));
    forall d | 0 <= d < |s.links| ensures LinkOk(t.w, d, t.links[d]) { LinkGrows(s.w, t.w, d, s.links[d]); }
    LinkNew(t.w, |s.links|);
  }

  lemma LinkNew(w: World, c: Conn)
    requires c < |w.ids|
    ensures LinkOk(w, c, Link([], [], 0, [], []))
  {
  }

  lemma CloseInv(s: State, c: Conn)
    requires Inv(s) && Enabled(s, Close(c))
    ensures Inv(Apply(s, Close(c)))
  {
    hide LinkOk, CallsOk;
    var t := Apply(s, Close(c));
    forall d | 0 <= d < |s.links| ensures LinkOk(t.w, d, t.links[d]) { LinkGrows(s.w, t.w, d, s.links[d]); }
  }

  lemma OnceMore(w: World, c: Conn, l: Link, e: Open)
    requires LinkOk(w, c, l) && e.call == |w.calls|
    ensures Once([e] + l.open)
  {
    hide UpOk, DownOk, JobOk;
    forall i | 0 <= i < |l.open| ensures l.open[i].call != e.call { assert OpenOk(w, c, l.open[i]); }
  }

  lemma BeginInv(s: State, c: Conn, peer: nat, sort: Sort, req: Request, e: Open)
    requires Inv(s) && Alive(s, c) && e.call == |s.w.calls| && (e.Notifying? <==> sort == Notification)
    requires req.client == s.w.ids[c] && req.seqno == Requests.SeqOf(s.links[c].started + 1) && req.peer == peer
    requires req.typ == Lookup || req.typ == Invoke || req.typ == Notify
    requires req.typ != Lookup ==> req.attrs.objId == Some(peer) && req.attrs.meth.Some?
    requires req.typ == Notify ==> sort == Notification
    ensures Inv(Begin(s, c, peer, sort, req, e))
  {
    var t := Begin(s, c, peer, sort, req, e);
    assert Grows(s.w, t.w);
    assert UpOk(t.w, c, Up(req, |s.w.calls|)) && OpenOk(t.w, c, e);
    OnceMore(s.w, c, s.links[c], e);
    forall d | 0 <= d < |t.links| ensures LinkOk(t.w, d, t.links[d]) {
      hide UpOk, DownOk, JobOk, OpenOk;
      LinkGrows(s.w, t.w, d, s.links[d]);
    }
  }

  lemma {:induction false} SettleSubset(w: World, c: Conn, open: seq<Open>, d: Down)
    requires (forall e :: e in open ==> OpenOk(w, c, e)) && Once(open)
    ensures (forall e :: e in Settle(w, open, d) ==> OpenOk(w, c, e)) && Once(Settle(w, open, d))
    ensures forall e :: e in Settle(w, open, d) ==> exists i :: 0 <= i < |open| && open[i].call == e.call
  {
    hide Requests.First, WithoutOne, Takes;
    if open != [] {
      assert OpenOk(w, c, open[0]);
      SettleSubset(w, c, open[1..], d);
    }
  }

  lemma TakeInv(s: State, c: Conn, refused: bool)
    requires Inv(s) && Enabled(s, Take(c, refused))
    ensures Inv(Apply(s, Take(c, refused)))
  {
    hide UpOk, OpenOk, Settle, CallsOk, Once;
    var l, d := s.links[c], s.links[c].down[0];
    assert DownOk(s.w, c, d);
    SettleSubset(s.w, c, l.open, d);
    var t := Apply(s, Take(c, refused));
    Relink(s, s.w, c, t.links[c]);
  }

  lemma AnswerInv(s: State, c: Conn, j: nat, data: bool)
    requires Inv(s) && Enabled(s, Answer(c, j, data))
    ensures Inv(Apply(s, Answer(c, j, data)))
  {
    hide DownOk, OpenOk, CallsOk;
    var l := s.links[c];
    assert l.jobs[j] in l.jobs;
    Relink(s, s.w, c, l.(up := l.up + [Up(AnswerMsg(s.w.ids[c], l.jobs[j], data), l.jobs[j].call)]));
  }

  lemma EnlistInv(s: State, c: Conn, e: Open)
    requires Inv(s) && Enabled(s, Enlist(c, e))
    ensures Inv(Apply(s, Enlist(c, e)))
  {
    hide DownOk, UpOk, JobOk, OpenOk, CallsOk;
    Relink(s, s.w, c, s.links[c].(open := [e] + s.links[c].open));
  }

  lemma UnlistInv(s: State, c: Conn, i: nat)
    requires Inv(s) && Enabled(s, Unlist(c, i))
    ensures Inv(Apply(s, Unlist(c, i)))
  {
    hide DownOk, UpOk, JobOk, OpenOk, CallsOk;
    Relink(s, s.w, c, s.links[c].(open := s.links[c].open[..i] + s.links[c].open[i + 1..]));
  }

  lemma StepInv(s: State, step: Step)
    requires Inv(s) && Enabled(s, step)
    ensures Inv(Apply(s, step))
  {
    hide LinkOk, CallsOk, IdsOk;
    match step {
      case Connect(id) => ConnectInv(s, id);
      case Close(c) => CloseInv(s, c);
      case AddObject(c, o) =>
      case RemoveObject(o) =>
      case Issue(c, o) => BeginInv(s, c, o, Call, CallMsg(s.w.ids[c], s.links[c].started + 1, o), Plain(|s.w.calls|));
      case IssueNotify(c, o) =>
        BeginInv(s, c, o, Notification, NotifyMsg(s.w.ids[c], s.links[c].started + 1, o), Notifying(|s.w.calls|, false, [o]));
      case IssueCommand(c, peer) =>
        BeginInv(s, c, peer, Command, CommandMsg(s.w.ids[c], s.links[c].started + 1, peer), Plain(|s.w.calls|));
      case Pass(c, denied) => PassCallInv(s, c, denied);
      case PassNotify(c, subs) => NotifiedInv(s, c, subs);
      case ReplyData(c) => ReplyInv(s, c, 0);
      case ReplyStatus(c, code) => ReplyInv(s, c, code);
      case Ignore(c) => PopInv(s, c);
      case Enlist(c, e) => EnlistInv(s, c, e);
      case Unlist(c, i) => UnlistInv(s, c, i);
      case PassTo(c, to) => PassAnswerInv(s, c, to);
      case Take(c, refused) => TakeInv(s, c, refused);
      case Answer(c, j, data) => AnswerInv(s, c, j, data);
    }
  }

  lemma {:induction false} RunInv(s: State, steps: seq<Step>, t: State)
    requires Inv(s) && Runs(s, steps, t)
    ensures Inv(t)
    decreases |steps|
  {
    if steps != [] {
      StepInv(s, steps[0]);
      RunInv(Apply(s, steps[0]), steps[1..], t);
    }
  }

  lemma InitInv()
    ensures Inv(Init())
  {
    hide LinkOk;
  }

  lemma ReachableInv(steps: seq<Step>, s: State)
    requires Runs(Init(), steps, s)
    ensures Inv(s)
  {
    hide Runs;
    InitInv();
    RunInv(Init(), steps, s);
  }

  // ----- the promises -----

  /** The daemon can handle whatever comes. */
  lemma NeverStuck(s: State, c: Conn, denied: bool)
    requires Inv(s) && HasHead(s, c)
    ensures || Enabled(s, Pass(c, denied)) || Enabled(s, ReplyStatus(c, OK)) || Enabled(s, PassNotify(c, []))
            || Enabled(s, Ignore(c)) || exists to :: Enabled(s, PassTo(c, to))
  {
    hide CallsOk;
    var u := s.links[c].up[0];
    assert u in s.links[c].up && UpOk(s.w, c, u);
    if IsAnswer(u.req) && Accepts(s, c, u.req) {
      var to :| to in s.w.live && to < |s.w.ids| && s.w.ids[to] == u.req.peer;
      assert Enabled(s, PassTo(c, to));
    }
  }

  /** In every run, whatever is under way to a client is addressed to it. */
  lemma Addressed(steps: seq<Step>, s: State, c: Conn, d: Down)
    requires Runs(Init(), steps, s) && c < |s.links| && d in s.links[c].down
    ensures c < |s.w.ids| && d.out.to == s.w.ids[c]
  {
    hide Runs, CallsOk;
    ReachableInv(steps, s);
    assert LinkOk(s.w, c, s.links[c]);
    assert DownOk(s.w, c, d);
  }

  /** A call that is permitted goes to the owner of the object, with the number of the call and the id of the caller; any
      other goes back with a status. */
  lemma PassesToOwner(s: State, c: Conn, denied: bool)
    requires Inv(s) && Enabled(s, Pass(c, denied))
    ensures var u, t := s.links[c].up[0], Apply(s, Pass(c, denied));
      var o := u.req.attrs.objId.value;
      var to := if o in s.owner && !denied then s.owner[o] else c;
      && u.call < |s.w.calls| && s.w.calls[u.call].conn == c && o == s.w.calls[u.call].peer
      && |t.links[to].down| == |s.links[to].down| + 1
      && var m := t.links[to].down[|s.links[to].down|].out;
         && m.to == s.w.ids[to] && m.cause == u.call && m.seqno == Requests.SeqOf(s.w.calls[u.call].start)
         && if o in s.owner && !denied then m.typ == Invoke && m.peer == s.w.ids[c] && m.obj == Some(o)
            else m.typ == Status && m.peer == o && m.body == Code(if o in s.owner then PERMISSION_DENIED else NOT_FOUND)
  {
    hide CallsOk;
    var u := s.links[c].up[0];
    assert u in s.links[c].up && UpOk(s.w, c, u);
  }

  // ----- the daemon of this machine is the one whose handlers are modelled -----

  /** The registry knows the clients that are connected, and the owners of their objects. */
  ghost predicate Mirrors(r: Reg, s: State) {
    SameIds(r.clients.Keys, s.w) && OwnersMirrored(r.objects, s.owner, s.w.ids)
  }

  ghost predicate SameIds(clients: set<ClientId>, w: World) {
    forall id :: id in clients <==> IdInUse(w, id)
  }

  ghost predicate OwnersMirrored(objects: map<ObjId, Obj>, owner: map<ObjId, Conn>, ids: seq<ClientId>) {
    && (forall o :: o in owner <==> o in objects && objects[o].client.Some?)
    && forall o :: o in owner && owner[o] < |ids| ==> objects[o].client == Some(ids[owner[o]])
  }

  lemma OwnsMirrored(s: State, r: Reg, c: Conn, o: ObjId)
    requires Inv(s) && Alive(s, c) && Mirrors(r, s)
    ensures Owns(s, c, Some(o)) <==> o in r.objects && r.objects[o].client == Some(s.w.ids[c])
    ensures o in s.owner ==> Alive(s, s.owner[o])
  {
    hide CallsOk, LinkOk, AskedOk;
  }

  lemma MirrorsStart()
    ensures Mirrors(Registry.Started(), Init())
  {
  }

  /** The command that goes with a step, for the steps in which clients and objects come and go. */
  ghost predicate GoesWith(s: State, step: Step, r: Reg, cmd: D.Command)
    requires Enabled(s, step)
  {
    match step
    case Connect(id) => cmd == D.ConnectCmd(id)
    case Close(c) => cmd == D.DisconnectCmd(s.w.ids[c])
    case AddObject(c, o) =>
      cmd.AddObjectCmd? && cmd.c == s.w.ids[c] && D.NewId(r, cmd.path, cmd.denied, cmd.randomObj) == Some(o)
    case RemoveObject(o) => s.owner[o] < |s.w.ids| && cmd == D.RemoveObjectCmd(s.w.ids[s.owner[o]], Some(o))
    case _ => false
  }

  lemma ConnectMirrored(clients: set<ClientId>, w: World, id: ClientId)
    requires SameIds(clients, w)
    ensures SameIds(clients + {id}, w.(ids := w.ids + [id], live := w.live + {|w.ids|}))
  {
    var v := w.(ids := w.ids + [id], live := w.live + {|w.ids|});
    assert v.ids[|w.ids|] == id && |w.ids| in v.live;
    forall k ensures IdInUse(v, k) <==> k == id || IdInUse(w, k) {
      if IdInUse(w, k) {
        var c :| c in w.live && c < |w.ids| && w.ids[c] == k;
        assert c in v.live && v.ids[c] == k;
      }
    }
  }

  lemma CloseMirrored(clients: set<ClientId>, w: World, c: Conn)
    requires SameIds(clients, w) && IdsOk(w) && c in w.live
    ensures SameIds(clients - {w.ids[c]}, w.(live := w.live - {c}))
  {
    var v := w.(live := w.live - {c});
    forall k ensures IdInUse(v, k) <==> k != w.ids[c] && IdInUse(w, k) {
      if IdInUse(w, k) && k != w.ids[c] {
        var d :| d in w.live && d < |w.ids| && w.ids[d] == k;
        assert d in v.live;
      }
    }
  }

  /** Some objects lose their owner. */
  lemma OwnersLeft(objects: map<ObjId, Obj>, left: map<ObjId, Obj>, dead: set<ObjId>, owner: map<ObjId, Conn>,
                   ids: seq<ClientId>)
    requires OwnersMirrored(objects, owner, ids) && SameOwners(objects, left, dead)
    ensures OwnersMirrored(left, owner - dead, ids)
  {
  }

  /** The objects of a connection are those of its client. */
  lemma OwnersOf(objects: map<ObjId, Obj>, owner: map<ObjId, Conn>, w: World, c: Conn)
    requires OwnersMirrored(objects, owner, w.ids) && IdsOk(w) && c in w.live && forall o :: o in owner ==> owner[o] in w.live
    ensures (map o | o in owner && owner[o] != c :: owner[o]) ==
            owner - (set o | o in objects && objects[o].client == Some(w.ids[c]))
  {
  }

  lemma MirrorsConnect(s: State, id: ClientId, r: Reg)
    requires Inv(s) && Enabled(s, Connect(id)) && Mirrors(r, s)
    ensures id !in r.clients && Mirrors(Registry.Connect(r, id), Apply(s, Connect(id)))
  {
    hide CallsOk, AskedOk, LinkOk;
    ConnectMirrored(r.clients.Keys, s.w, id);
    assert Registry.Connect(r, id).clients.Keys == r.clients.Keys + {id};
  }

  lemma MirrorsClose(s: State, c: Conn, r: Reg, r': Reg)
    requires Inv(s) && Enabled(s, Close(c)) && Mirrors(r, s)
    requires r'.clients.Keys == r.clients.Keys - {s.w.ids[c]}
    requires SameOwners(r.objects, r'.objects, set o | o in r.objects && r.objects[o].client == Some(s.w.ids[c]))
    ensures Mirrors(r', Apply(s, Close(c)))
  {
    hide CallsOk, AskedOk, LinkOk, SameIds, OwnersMirrored, SameOwners;
    CloseMirrored(r.clients.Keys, s.w, c);
    var dead := set o | o in r.objects && r.objects[o].client == Some(s.w.ids[c]);
    OwnersLeft(r.objects, r'.objects, dead, s.owner, s.w.ids);
    OwnersOf(r.objects, s.owner, s.w, c);
    assert Apply(s, Close(c)).owner == s.owner - dead;
  }

  lemma MirrorsAdd(s: State, c: Conn, o: ObjId, r: Reg, r': Reg, x: Obj)
    requires Inv(s) && Enabled(s, Step.AddObject(c, o)) && Mirrors(r, s)
    requires r'.clients.Keys == r.clients.Keys && r'.objects == r.objects[o := x] && x.client == Some(s.w.ids[c])
    ensures Mirrors(r', Apply(s, Step.AddObject(c, o)))
  {
    hide CallsOk, AskedOk, LinkOk, SameIds;
  }

  lemma MirrorsRemove(s: State, o: ObjId, r: Reg, r': Reg)
    requires Inv(s) && Enabled(s, Step.RemoveObject(o)) && Mirrors(r, s)
    requires r'.clients.Keys == r.clients.Keys && SameOwners(r.objects, r'.objects, {o})
    ensures Mirrors(r', Apply(s, Step.RemoveObject(o)))
  {
    hide CallsOk, AskedOk, LinkOk, SameIds;
    OwnersLeft(r.objects, r'.objects, {o}, s.owner, s.w.ids);
  }

  lemma Connected(s: State, r: Reg, c: Conn)
    requires Inv(s) && Mirrors(r, s) && c in s.w.live
    ensures s.w.ids[c] in r.clients
  {
    hide CallsOk, AskedOk, LinkOk;
    assert IdInUse(s.w, s.w.ids[c]);
  }

  lemma MirrorsMoves(s: State, step: Step, r: Reg, cmd: D.Command, r': Reg)
    requires Inv(s) && Enabled(s, step) && Mirrors(r, s) && D.Moves(r, cmd, r')
    requires ComesOrGoes(step) && GoesWith(s, step, r, cmd)
    ensures Mirrors(r', Apply(s, step))
  {
    hide CallsOk, AskedOk, LinkOk, LeftOf, Free, D.OneMoreUse, D.TypeFor, Mirrors, Apply, SameOwners, Registry.Connect;
    match step
    case Connect(id) => MirrorsConnect(s, id, r);
    case Close(c) =>
      Connected(s, r, c);
      LeftOwners(r, r', set o | o in r.objects && r.objects[o].client == Some(s.w.ids[c]));
      MirrorsClose(s, c, r, r');
    case AddObject(c, o) =>
      Connected(s, r, c);
      MirrorsAdd(s, c, o, r, r', r'.objects[o]);
    case RemoveObject(o) =>
      Connected(s, r, s.owner[o]);
      OwnsMirrored(s, r, s.owner[o], o);
      FreeOwners(r, o);
      D.FreeClients(r, o);
      MirrorsRemove(s, o, r, r');
  }

  predicate ComesOrGoes(step: Step) {
    step.Connect? || step.Close? || step.AddObject? || step.RemoveObject?
  }

  /** The registry and this machine stay in step: clients and objects come and go on both sides alike, and the other
      steps touch neither. */
  lemma MirrorsKept(s: State, step: Step, r: Reg, cmd: D.Command, r': Reg)
    requires Inv(s) && Enabled(s, step) && Mirrors(r, s)
    requires if ComesOrGoes(step) then GoesWith(s, step, r, cmd) && D.Moves(r, cmd, r') else r' == r
    ensures Mirrors(r', Apply(s, step))
  {
    hide Inv, D.Moves, Apply, SameIds, OwnersMirrored;
    if ComesOrGoes(step) {
      hide Mirrors;
      MirrorsMoves(s, step, r, cmd, r');
    } else {
      SameClients(s, step);
      SameInUse(s.w, Apply(s, step).w, r.clients.Keys);
    }
  }

  lemma SameInUse(w: World, v: World, clients: set<ClientId>)
    requires SameIds(clients, w) && v.ids == w.ids && v.live == w.live
    ensures SameIds(clients, v)
  {
    assert forall id :: IdInUse(v, id) <==> IdInUse(w, id);
  }

  lemma SameClients(s: State, step: Step)
    requires Enabled(s, step) && !ComesOrGoes(step)
    ensures var t := Apply(s, step); t.w.ids == s.w.ids && t.w.live == s.w.live && t.owner == s.owner
  {
    if step.PassNotify? {
      var u := s.links[step.c].up[0];
      var t := Put(Pop(s, step.c), step.c,
                   Down(StatusReply(u.req.client, u.req.seqno, u.req.peer, u.call, OK), None, step.subs));
      SameAll(t, u.req, u.call, step.subs);
    }
  }

  lemma {:induction false} SameAll(s: State, req: Request, k: CallNo, subs: seq<ObjId>)
    requires AllOwned(s, subs)
    ensures var t := PassAll(s, req, k, subs); t.w.ids == s.w.ids && t.w.live == s.w.live && t.owner == s.owner
    decreases |subs|
  {
    if subs != [] {
      assert forall i :: 0 <= i < |subs[1..]| ==> subs[1..][i] == subs[i + 1];
      SameAll(PassOne(s, req, k, subs[0]), req, k, subs[1..]);
    }
  }

  /** A run of both: each step with the command that goes with it, if any, and the registry after it. */
  ghost predicate Together(s: State, r: Reg, steps: seq<Step>, moves: seq<(D.Command, Reg)>, t: State, r': Reg)
    requires |moves| == |steps|
    decreases |steps|
  {
    if steps == [] then s == t && r == r'
    else
      && Enabled(s, steps[0])
      && (if ComesOrGoes(steps[0]) then GoesWith(s, steps[0], r, moves[0].0) && D.Moves(r, moves[0].0, moves[0].1)
          else moves[0].1 == r)
      && Together(Apply(s, steps[0]), moves[0].1, steps[1..], moves[1..], t, r')
  }

  lemma {:induction false} MirrorsRun(s: State, r: Reg, steps: seq<Step>, moves: seq<(D.Command, Reg)>, t: State, r': Reg)
    requires Inv(s) && Mirrors(r, s) && |moves| == |steps| && Together(s, r, steps, moves, t, r')
    ensures Inv(t) && Mirrors(r', t)
    decreases |steps|
  {
    hide Inv, Mirrors, Apply, D.Moves, GoesWith;
    if steps != [] {
      StepInv(s, steps[0]);
      MirrorsKept(s, steps[0], r, moves[0].0, moves[0].1);
      MirrorsRun(Apply(s, steps[0]), moves[0].1, steps[1..], moves[1..], t, r');
    }
  }

  /** So in every run from the start the registry mirrors this machine. */
  lemma AlwaysMirrors(steps: seq<Step>, moves: seq<(D.Command, Reg)>, t: State, r': Reg)
    requires |moves| == |steps| && Together(Init(), Registry.Started(), steps, moves, t, r')
    ensures Inv(t) && Mirrors(r', t)
  {
    hide Together, Mirrors, Registry.Started;
    InitInv();
    MirrorsStart();
    MirrorsRun(Init(), Registry.Started(), steps, moves, t, r');
  }

  /** A call of an object that is not built in is passed on, or answered with a status, as the handler does it. */
  lemma CallsAgree(s: State, c: Conn, r: Reg, env: Env)
    requires Inv(s) && HasHead(s, c) && s.links[c].up[0].req.typ == Invoke && Mirrors(r, s)
    requires var o := s.links[c].up[0].req.attrs.objId; o.Some? && o.value in r.objects ==> r.objects[o.value].client.Some?
    ensures Enabled(s, Pass(c, env.denied))
    ensures var u, seen := s.links[c].up[0], Seen(r, env, 0);
      if PassedOn(r, u.req, env) then
        exists out: Out, to: Conn, w: World ::
          && to < |s.w.ids| && to < |s.links| && s.w.ids[to] == out.to && Forwards([out], u.req, seen, u.call)
          && Apply(s, Pass(c, env.denied)) == Put(Pop(s, c).(w := w), to, Down(out, None, []))
      else
        && !SilentKind(seen, u.req) && Forwards([], u.req, seen, u.call)
        && Apply(s, Pass(c, env.denied)) ==
             Put(Pop(s, c), c,
                 Down(StatusReply(u.req.client, u.req.seqno, u.req.peer, u.call, AnswerTo(u.req, seen).code), None, []))
  {
    hide CallsOk, AskedOk;
    var u := s.links[c].up[0];
    assert u in s.links[c].up && UpOk(s.w, c, u);
    var o := u.req.attrs.objId.value;
    OwnsMirrored(s, r, c, o);
    if PassedOn(r, u.req, env) {
      var to := s.owner[o];
      var out := PassedCall(u.req, s.w.ids[to], o, u.call);
      var w := s.w.(passed := s.w.passed + {(u.call, to)}, asked := s.w.asked + {(u.call, o)});
      assert Apply(s, Pass(c, env.denied)) == Put(Pop(s, c).(w := w), to, Down(out, None, []));
      assert Forwards([out], u.req, Seen(r, env, 0), u.call);
    }
  }

  /** So is an answer: passed on exactly if the handler does. */
  lemma AnswersAgree(s: State, c: Conn, r: Reg, env: Env)
    requires Inv(s) && HasHead(s, c) && IsAnswer(s.links[c].up[0].req) && Mirrors(r, s)
    ensures var u := s.links[c].up[0];
      if Routable(r, u.req) then
        exists to: Conn :: Enabled(s, PassTo(c, to)) && s.w.ids[to] == PassedAnswer(u.req, u.call).to &&
          Apply(s, PassTo(c, to)) == Put(Pop(s, c), to, Down(PassedAnswer(u.req, u.call), Some(c), []))
      else Enabled(s, Ignore(c)) && Apply(s, Ignore(c)) == Pop(s, c) && Forwards([], u.req, Seen(r, env, 0), u.call)
    ensures forall to: Conn :: Enabled(s, PassTo(c, to)) ==>
      Routable(r, s.links[c].up[0].req) && Forwards([PassedAnswer(s.links[c].up[0].req, s.links[c].up[0].call)],
                                                    s.links[c].up[0].req, Seen(r, env, 0), s.links[c].up[0].call)
  {
    hide CallsOk, AskedOk, JobOk;
    var u := s.links[c].up[0];
    assert u in s.links[c].up && UpOk(s.w, c, u);
    OwnsMirrored(s, r, c, u.req.attrs.objId.value);
    if Routable(r, u.req) {
      var to :| to in s.w.live && to < |s.w.ids| && s.w.ids[to] == u.req.peer;
      assert Enabled(s, PassTo(c, to));
    }
  }

  /** The objects behind the subscriptions of an object, in order. */
  ghost predicate Subscribers(r: Reg, o: ObjId, subs: seq<ObjId>) {
    && o in r.objects && |subs| == |r.objects[o].subscribers|
    && forall i :: 0 <= i < |subs| ==>
         r.objects[o].subscribers[i] in r.subs && r.subs[r.objects[o].subscribers[i]].subscriber == subs[i]
  }

  /** The calls for the subscribers, and those of them that a connection gets. */
  ghost function Calls(s: State, req: Request, k: CallNo, subs: seq<ObjId>): (calls: seq<Out>)
    requires AllOwned(s, subs)
    ensures |calls| == |subs|
    ensures forall i :: 0 <= i < |subs| ==> calls[i] == PassedCall(req, s.w.ids[s.owner[subs[i]]], subs[i], k)
  {
    seq(|subs|, i requires 0 <= i < |subs| => PassedCall(req, s.w.ids[s.owner[subs[i]]], subs[i], k))
  }

  ghost function Mail(calls: seq<Out>, to: ClientId): seq<Down> {
    if calls == [] then []
    else (if calls[0].to == to then [Down(calls[0], None, [])] else []) + Mail(calls[1..], to)
  }

  lemma {:induction false} PassAllMail(s: State, req: Request, k: CallNo, subs: seq<ObjId>, x: Conn)
    requires AllOwned(s, subs) && IdsOk(s.w) && Alive(s, x)
    ensures var t := PassAll(s, req, k, subs);
      && |t.links| == |s.links|
      && t.links[x] == s.links[x].(down := s.links[x].down + Mail(Calls(s, req, k, subs), s.w.ids[x]))
    decreases |subs|
  {
    var calls := Calls(s, req, k, subs);
    if subs == [] {
      assert s.links[x].down + [] == s.links[x].down;
    } else {
      var t := PassOne(s, req, k, subs[0]);
      assert forall i :: 0 <= i < |subs[1..]| ==> subs[1..][i] == subs[i + 1];
      PassAllMail(t, req, k, subs[1..], x);
      assert Calls(t, req, k, subs[1..]) == calls[1..];
      assert s.w.ids[s.owner[subs[0]]] == s.w.ids[x] <==> s.owner[subs[0]] == x;
    }
  }

  /** The notifier has got the status, and then every connection the calls for its objects, in order. */
  ghost predicate Announced(s: State, c: Conn, u: Up, subs: seq<ObjId>, calls: seq<Out>, t: State) {
    && |t.links| == |s.links|
    && forall x: Conn :: Alive(s, x) ==>
         t.links[x].down == s.links[x].down +
           (if x == c then [Down(StatusReply(u.req.client, u.req.seqno, u.req.peer, u.call, OK), None, subs)] else []) +
           Mail(calls, s.w.ids[x])
  }

  lemma NotifiedMail(s: State, c: Conn, subs: seq<ObjId>)
    requires IdsOk(s.w) && Enabled(s, PassNotify(c, subs))
    ensures var u := s.links[c].up[0];
      Announced(s, c, u, subs, Calls(s, u.req, u.call, subs), Notified(s, c, subs))
  {
    hide Mail, PassAll;
    var u := s.links[c].up[0];
    var t := Put(Pop(s, c), c, Down(StatusReply(u.req.client, u.req.seqno, u.req.peer, u.call, OK), None, subs));
    assert Calls(t, u.req, u.call, subs) == Calls(s, u.req, u.call, subs);
    PassAllMail(t, u.req, u.call, subs, c);
    forall x: Conn | Alive(s, x)
      ensures Notified(s, c, subs).links[x].down == t.links[x].down + Mail(Calls(s, u.req, u.call, subs), s.w.ids[x])
    {
      PassAllMail(t, u.req, u.call, subs, x);
    }
  }

  /** The objects of all subscribers have owners here as in the registry. */
  lemma SubscribersOwned(s: State, c: Conn, o: ObjId, subs: seq<ObjId>, r: Reg, req: Request, k: CallNo)
    requires Inv(s) && Alive(s, c) && Mirrors(r, s) && Consistent(r) && Subscribers(r, o, subs)
    ensures AllOwned(s, subs) && CallsFor(r, req, k, o, Calls(s, req, k, subs))
  {
    hide CallsOk, AskedOk, Consistent, LinkOk;
    SubscribersLive(r, o);
    forall i | 0 <= i < |subs| ensures subs[i] in s.owner && Alive(s, s.owner[subs[i]]) {
      assert r.objects[o].subscribers[i] in r.objects[o].subscribers;
      OwnsMirrored(s, r, c, subs[i]);
    }
  }

  /** And a notification: accepted exactly if the handler accepts it, and then every subscriber's owner gets the calls that
      the handler passes on, in order, and the notifier the status in front of its own. */
  lemma NotificationsAgree(s: State, c: Conn, subs: seq<ObjId>, r: Reg, env: Env)
    requires Inv(s) && HasHead(s, c) && s.links[c].up[0].req.typ == Notify && Mirrors(r, s) && Consistent(r)
    requires var o := s.links[c].up[0].req.attrs.objId; o.Some? && o.value in r.objects ==> Subscribers(r, o.value, subs)
    ensures var u, seen := s.links[c].up[0], Seen(r, env, 0);
      if Notifies(r, u.req) then
        && Enabled(s, PassNotify(c, subs))
        && Forwards(Calls(s, u.req, u.call, subs), u.req, seen, u.call)
        && Announced(s, c, u, subs, Calls(s, u.req, u.call, subs), Apply(s, PassNotify(c, subs)))
      else
        && Enabled(s, ReplyStatus(c, AnswerTo(u.req, seen).code)) && !SilentKind(seen, u.req)
        && Forwards([], u.req, seen, u.call)
  {
    hide CallsOk, AskedOk, Consistent, CallsFor, Mail, Announced, Mirrors, Subscribers, AllOwned, Notified;
    var u := s.links[c].up[0];
    assert u in s.links[c].up && UpOk(s.w, c, u);
    var o := u.req.attrs.objId.value;
    OwnsMirrored(s, r, c, o);
    if Notifies(r, u.req) {
      SubscribersOwned(s, c, o, subs, r, u.req, u.call);
      NotifiedMail(s, c, subs);
    }
  }

  // ----- an entry for a notification is the account that `Requests` keeps -----

  /** The entry waits for what is not answered yet: the daemon, which names the object, and then the objects listed. */
  ghost predicate Stands(e: Open, obj: ObjId, h: Requests.Heard) {
    && e.Notifying? && e.answered == h.answered && !h.lost && !h.aborted
    && (!h.answered ==> e.waiting == [obj])
    && (h.answered ==> forall x :: Seqs.Occurs(e.waiting, x) == Owed(h, x))
  }

  /** How many answers of an object are still to come. */
  ghost function Owed(h: Requests.Heard, x: ObjId): nat {
    var n, m := Seqs.Occurs(h.listed, x), Seqs.Occurs(h.got, x);
    if m < n then n - m else 0
  }

  lemma {:induction false} OneLess(q: seq<ObjId>, x: ObjId, y: ObjId)
    ensures Seqs.Occurs(WithoutOne(q, x), y) == Seqs.Occurs(q, y) - if x == y && x in q then 1 else 0
  {
    if q != [] && q[0] != x {
      OneLess(q[1..], x, y);
      assert ([q[0]] + WithoutOne(q[1..], x))[1..] == WithoutOne(q[1..], x);
    }
  }

  /** A notification that has just been started. */
  lemma StandsFirst(k: CallNo, o: ObjId)
    ensures Stands(Notifying(k, false, [o]), o, Requests.Nothing())
  {
  }

  /** It takes exactly the answers that are waited for. */
  lemma TakesAwaited(w: World, e: Open, seqno: nat, peer: nat, obj: ObjId, h: Requests.Heard)
    requires Stands(e, obj, h) && e.call < |w.calls|
    ensures Takes(w, e, seqno, peer) <==> seqno == Requests.SeqOf(w.calls[e.call].start) && Requests.Awaited(obj, h, peer)
  {
    assert h.answered ==> Seqs.Occurs(e.waiting, peer) == Owed(h, peer);
  }

  /** An answer that is taken ends the entry exactly if it is the last one waited for, and otherwise the entry stands for
      what is waited for then. */
  lemma TickedStands(e: Open, d: Down, entries: seq<Option<nat>>, obj: ObjId, h: Requests.Heard)
    requires Stands(e, obj, h) && d.out.peer in e.waiting && Requests.WellFormed(entries) == d.listed
    ensures var h' := Requests.Hear1(obj, h, Requests.StatusArrives(d.out.peer, entries));
      if Requests.Full(h') then Ticked(e, d) == []
      else |Ticked(e, d)| == 1 && Ticked(e, d)[0].call == e.call && Stands(Ticked(e, d)[0], obj, h')
  {
    hide Requests.WellFormed, Requests.First, Seqs.Occurs;
    var h' := Requests.Hear1(obj, h, Requests.StatusArrives(d.out.peer, entries));
    var left := if e.answered then WithoutOne(e.waiting, d.out.peer) else Requests.First(d.listed, Requests.MAX_PEERS);
    forall x: nat ensures Seqs.Occurs(left, x) == Owed(h', x) {
      if e.answered {
        OneLess(e.waiting, d.out.peer, x);
        Seqs.OccursSnoc(h.got, d.out.peer, x);
        assert Seqs.Occurs(e.waiting, x) == Owed(h, x);
      }
    }
    if left == [] {
      forall x: nat ensures Seqs.Occurs(h'.listed, x) <= Seqs.Occurs(h'.got, x) { assert Seqs.Occurs(left, x) == Owed(h', x); }
    } else {
      assert Seqs.Occurs(left, left[0]) == Owed(h', left[0]) && left[0] in left;
    }
  }

  /** The answers as the account hears of them. */
  ghost function Entries(listed: seq<ObjId>): (entries: seq<Option<nat>>)
    ensures Requests.WellFormed(entries) == listed
  {
    if listed == [] then [] else
      var entries := Entries(listed[..|listed| - 1]) + [Some(listed[|listed| - 1])];
      assert entries[..|entries| - 1] == Entries(listed[..|listed| - 1]);
      entries
  }

  ghost function Statuses(ds: seq<Down>): (events: seq<Requests.Event>)
    ensures |events| == |ds|
  {
    seq(|ds|, i requires 0 <= i < |ds| => Requests.StatusArrives(ds[i].out.peer, Entries(ds[i].listed)))
  }

  /** What becomes of the entry of a notification when answers with its number come in. */
  ghost function EntryAfter(k: CallNo, o: ObjId, ds: seq<Down>): seq<Open> {
    if ds == [] then [Notifying(k, false, [o])] else EntryAfter1(EntryAfter(k, o, ds[..|ds| - 1]), ds[|ds| - 1])
  }

  ghost function EntryAfter1(q: seq<Open>, d: Down): seq<Open> {
    if q != [] && q[0].Notifying? && d.out.peer in q[0].waiting then Ticked(q[0], d) + q[1..] else q
  }

  /** The entry is gone exactly when by the account the daemon and all that it listed have answered, and until then it
      stands for what the account waits for. */
  ghost predicate EntryIs(q: seq<Open>, k: CallNo, o: ObjId, h: Requests.Heard) {
    && !h.lost && !h.aborted
    && if Requests.Full(h) then q == [] else |q| == 1 && q[0].call == k && Stands(q[0], o, h)
  }

  /** Once all have answered it stays so, and an answer that is not waited for changes nothing. */
  lemma Unawaited(e: Open, d: Down, obj: ObjId, h: Requests.Heard)
    requires !h.lost && !h.aborted
    ensures var h' := Requests.Hear1(obj, h, Requests.StatusArrives(d.out.peer, Entries(d.listed)));
      && !h'.lost && !h'.aborted && (Requests.Full(h) ==> Requests.Full(h'))
      && (Stands(e, obj, h) && !Requests.Full(h) && d.out.peer !in e.waiting ==> Stands(e, obj, h') && !Requests.Full(h'))
  {
    hide Requests.WellFormed, Requests.First, Seqs.Occurs;
    var h' := Requests.Hear1(obj, h, Requests.StatusArrives(d.out.peer, Entries(d.listed)));
    if h.answered {
      forall x: nat ensures Seqs.Occurs(h'.got, x) == Seqs.Occurs(h.got, x) + if d.out.peer == x then 1 else 0 {
        Seqs.OccursSnoc(h.got, d.out.peer, x);
      }
      if Stands(e, obj, h) && d.out.peer !in e.waiting {
        assert Seqs.Occurs(e.waiting, d.out.peer) == Owed(h, d.out.peer);
        assert forall x: nat :: Owed(h', x) == Owed(h, x);
      }
      if Stands(e, obj, h) && !Requests.Full(h) && d.out.peer !in e.waiting {
        var x: nat :| Seqs.Occurs(h.got, x) < Seqs.Occurs(h.listed, x);
        assert Owed(h', x) == Owed(h, x);
      }
    }
  }

  lemma EntryStep(q: seq<Open>, d: Down, k: CallNo, o: ObjId, h: Requests.Heard)
    requires EntryIs(q, k, o, h)
    ensures EntryIs(EntryAfter1(q, d), k, o, Requests.Hear1(o, h, Requests.StatusArrives(d.out.peer, Entries(d.listed))))
  {
    hide Requests.Full, Requests.Hear1, Ticked, Owed;
    if Requests.Full(h) {
      Unawaited(Notifying(k, false, [o]), d, o, h);
    } else {
      Unawaited(q[0], d, o, h);
      if d.out.peer in q[0].waiting {
        TickedStands(q[0], d, Entries(d.listed), o, h);
        assert q[1..] == [];
      }
    }
  }

  lemma {:induction false} EntryEnds(k: CallNo, o: ObjId, ds: seq<Down>)
    ensures EntryIs(EntryAfter(k, o, ds), k, o, Requests.Hear(o, Statuses(ds)))
  {
    if ds == [] {
      StandsFirst(k, o);
    } else {
      hide EntryIs, Requests.Hear1, EntryAfter1;
      var n := |ds| - 1;
      EntryEnds(k, o, ds[..n]);
      assert Statuses(ds)[..n] == Statuses(ds[..n]);
      EntryStep(EntryAfter(k, o, ds[..n]), ds[n], k, o, Requests.Hear(o, Statuses(ds[..n])));
    }
  }

  /** An answer reaches the connection that started the request, with its number and with the peer in its header or an
      object it was passed to, from a connection that it was passed to or from the daemon -- unless the caller is gone
      and another connection has its id. */
  lemma ReachesCaller(steps: seq<Step>, s: State, c: Conn, d: Down)
    requires Runs(Init(), steps, s) && c < |s.links| && d in s.links[c].down && d.out.typ != Invoke
    ensures var k := d.out.cause;
      && k < |s.w.calls| && d.out.seqno == Requests.SeqOf(s.w.calls[k].start)
      && (d.out.peer == s.w.calls[k].peer || (s.w.calls[k].sort == Notification && (k, d.out.peer) in s.w.asked))
      && (d.sender.Some? ==> (k, d.sender.value) in s.w.passed)
      && (s.w.calls[k].conn == c ||
          (d.sender.Some? && s.w.calls[k].conn !in s.w.live && s.w.calls[k].conn < |s.w.ids| == |s.links|
           && s.w.ids[s.w.calls[k].conn] == s.w.ids[c]))
  {
    hide Runs, CallsOk;
    ReachableInv(steps, s);
    assert LinkOk(s.w, c, s.links[c]);
    assert DownOk(s.w, c, d);
  }

  /** While the client that it goes to is there, an answer is one of its own exactly if the client that made the request is
      still there. */
  lemma ReachesExactly(steps: seq<Step>, s: State, c: Conn, d: Down)
    requires Runs(Init(), steps, s) && Alive(s, c) && d in s.links[c].down && d.out.typ != Invoke
    ensures d.out.cause < |s.w.calls|
    ensures s.w.calls[d.out.cause].conn == c <==> s.w.calls[d.out.cause].conn in s.w.live
  {
    hide Runs;
    ReachesCaller(steps, s, c, d);
  }

  /** The answer at the head of a connection's messages is passed to a client although the one it is for is gone. */
  ghost predicate Late(s: State, step: Step) {
    && step.PassTo? && HasHead(s, step.c) && s.links[step.c].up[0].call < |s.w.calls|
    && s.w.calls[s.links[step.c].up[0].call].conn !in s.w.live
  }

  /** The daemon passes an answer to the client it is for exactly if that one is still there. */
  lemma PassesExactly(s: State, c: Conn, to: Conn)
    requires Inv(s) && Enabled(s, PassTo(c, to))
    ensures s.links[c].up[0].call < |s.w.calls|
    ensures s.w.calls[s.links[c].up[0].call].conn == to <==> !Late(s, PassTo(c, to))
  {
    hide CallsOk, Grows;
    var u := s.links[c].up[0];
    assert u in s.links[c].up && UpOk(s.w, c, u);
  }

  /** Every answer that has been passed on, and has not been read yet, is with the client it is for. */
  ghost predicate Home(s: State) {
    forall c, d :: 0 <= c < |s.links| && d in s.links[c].down && d.sender.Some? ==>
      d.out.cause < |s.w.calls| && s.w.calls[d.out.cause].conn == c
  }

  lemma HomePut(s: State, c: Conn, d: Down)
    requires c < |s.links| && d.out.cause < |s.w.calls|
    ensures Home(Put(s, c, d)) <==> Home(s) && (d.sender.Some? ==> s.w.calls[d.out.cause].conn == c)
  {
    var t := Put(s, c, d);
    assert d in t.links[c].down;
    assert forall b, e :: 0 <= b < |s.links| && e in s.links[b].down ==> e in t.links[b].down;
  }

  lemma HomeOwn(s: State, c: Conn, d: Down)
    requires c < |s.links| && Home(s) && d.sender.None?
    ensures Home(Put(s, c, d))
  {
  }

  lemma HomePop(s: State, c: Conn)
    requires c < |s.links| && s.links[c].up != []
    ensures Home(Pop(s, c)) <==> Home(s)
  {
    assert forall b :: 0 <= b < |s.links| ==> Pop(s, c).links[b].down == s.links[b].down;
  }

  lemma HomePassOne(s: State, req: Request, k: CallNo, o: ObjId)
    requires Home(s) && o in s.owner && Alive(s, s.owner[o])
    ensures Home(PassOne(s, req, k, o))
  {
  }

  lemma {:induction false} HomePassAll(s: State, req: Request, k: CallNo, subs: seq<ObjId>)
    requires Home(s) && AllOwned(s, subs)
    ensures Home(PassAll(s, req, k, subs))
    decreases |subs|
  {
    if subs != [] {
      var t := PassOne(s, req, k, subs[0]);
      hide Home;
      HomePassOne(s, req, k, subs[0]);
      HomePassAll(t, req, k, subs[1..]);
    }
  }

  /** No step but such a late one takes an answer astray. */
  lemma StepHome(s: State, step: Step)
    requires Inv(s) && Home(s) && Enabled(s, step)
    ensures Home(Apply(s, step)) <==> !Late(s, step)
  {
    if step.PassTo? {
      var u := s.links[step.c].up[0];
      hide Home, Inv;
      PassesExactly(s, step.c, step.to);
      HomePop(s, step.c);
      HomePut(Pop(s, step.c), step.to, Down(PassedAnswer(u.req, u.call), Some(step.c), []));
    } else {
      HomeKept(s, step);
    }
  }

  lemma HomeKept(s: State, step: Step)
    requires Home(s) && Enabled(s, step) && !step.PassTo?
    ensures Home(Apply(s, step))
  {
    hide Home;
    match step {
      case PassTo(_, _) =>
      case Pass(_, _) => HomeDaemon(s, step);
      case PassNotify(_, _) => HomeDaemon(s, step);
      case ReplyData(_) => HomeDaemon(s, step);
      case ReplyStatus(_, _) => HomeDaemon(s, step);
      case Ignore(c) => HomePop(s, c);
      case _ => HomeLess(s, Apply(s, step));
    }
  }

  lemma HomeDaemon(s: State, step: Step)
    requires Home(s) && Enabled(s, step) && (step.Pass? || step.PassNotify? || step.ReplyData? || step.ReplyStatus?)
    ensures Home(Apply(s, step))
  {
    hide PassAll, Home;
    var c, u := step.c, s.links[step.c].up[0];
    var code := if step.ReplyStatus? then step.code else if step.PassNotify? then OK
                else if u.req.attrs.objId.Some? && u.req.attrs.objId.value in s.owner then PERMISSION_DENIED else NOT_FOUND;
    var d := Down(StatusReply(u.req.client, u.req.seqno, u.req.peer, u.call, code), None,
                  if step.PassNotify? then step.subs else []);
    HomePop(s, c);
    HomeOwn(Pop(s, c), c, d);
    HomeOwn(s, c, Down(DataReply(u.req, u.call, Other), None, []));
    if step.PassNotify? { HomePassAll(Put(Pop(s, c), c, d), u.req, u.call, step.subs); }
    if step.Pass? && u.req.attrs.objId.value in s.owner { HomePassOne(Pop(s, c), u.req, u.call, u.req.attrs.objId.value); }
  }

  /** Nothing new is under way. */
  lemma HomeLess(s: State, t: State)
    requires Home(s) && |s.links| <= |t.links| && s.w.calls <= t.w.calls
    requires forall c :: 0 <= c < |s.links| ==>
      t.links[c].down == s.links[c].down || (s.links[c].down != [] && t.links[c].down == s.links[c].down[1..])
    requires forall c :: |s.links| <= c < |t.links| ==> t.links[c].down == []
    ensures Home(t)
  {
  }

  /** At every point of a run, every answer is with the client it is for. */
  ghost predicate AlwaysHome(s: State, steps: seq<Step>)
    decreases |steps|
  {
    Home(s) && (steps == [] || (Enabled(s, steps[0]) && AlwaysHome(Apply(s, steps[0]), steps[1..])))
  }

  /** The daemon passes no answer on when the client it is for is gone. */
  ghost predicate NeverLate(s: State, steps: seq<Step>)
    decreases |steps|
  {
    steps == [] || (Enabled(s, steps[0]) && !Late(s, steps[0]) && NeverLate(Apply(s, steps[0]), steps[1..]))
  }

  lemma {:induction false} RunHome(s: State, steps: seq<Step>, t: State)
    requires Inv(s) && Home(s) && Runs(s, steps, t)
    ensures AlwaysHome(s, steps) <==> NeverLate(s, steps)
    ensures AlwaysHome(s, steps) ==> Home(t)
    decreases |steps|
  {
    hide Inv, Home, Late, Apply, Enabled;
    if steps != [] {
      StepInv(s, steps[0]);
      StepHome(s, steps[0]);
      if !Late(s, steps[0]) { RunHome(Apply(s, steps[0]), steps[1..], t); }
    }
  }

  /** Over every run: no answer is ever with another client than the one it is for exactly if the daemon never passes one
      on after that client is gone. */
  lemma AstrayExactly(steps: seq<Step>, t: State)
    requires Runs(Init(), steps, t)
    ensures AlwaysHome(Init(), steps) <==> NeverLate(Init(), steps)
    ensures AlwaysHome(Init(), steps) ==> Home(t)
  {
    hide Runs, AlwaysHome, NeverLate, Inv;
    InitInv();
    RunHome(Init(), steps, t);
  }

  lemma IdsGrow(s: State, step: Step)
    requires Enabled(s, step)
    ensures s.w.ids <= Apply(s, step).w.ids
  {
    hide PassAll, Settle;
    if step.PassNotify? {
      var u := s.links[step.c].up[0];
      var d := Down(StatusReply(u.req.client, u.req.seqno, u.req.peer, u.call, OK), None, step.subs);
      IdsPassAll(Put(Pop(s, step.c), step.c, d), u.req, u.call, step.subs);
    }
  }

  lemma {:induction false} IdsPassAll(s: State, req: Request, k: CallNo, subs: seq<ObjId>)
    requires AllOwned(s, subs)
    ensures PassAll(s, req, k, subs).w.ids == s.w.ids
    decreases |subs|
  {
    if subs != [] { IdsPassAll(PassOne(s, req, k, subs[0]), req, k, subs[1..]); }
  }

  /** Where no id is handed out a second time, it never does. */
  lemma {:induction false} NewIdsNeverLate(s: State, steps: seq<Step>, t: State)
    requires Inv(s) && Runs(s, steps, t) && Seqs.Distinct(t.w.ids)
    ensures NeverLate(s, steps) && s.w.ids <= t.w.ids
    decreases |steps|
  {
    if steps != [] {
      StepInv(s, steps[0]);
      IdsGrow(s, steps[0]);
      NewIdsNeverLate(Apply(s, steps[0]), steps[1..], t);
      if steps[0].PassTo? {
        hide Runs, NeverLate, Apply, CallsOk;
        NotLate(s, steps[0].c, steps[0].to);
      }
    }
  }

  lemma NotLate(s: State, c: Conn, to: Conn)
    requires Inv(s) && Enabled(s, PassTo(c, to)) && Seqs.Distinct(s.w.ids)
    ensures !Late(s, PassTo(c, to))
  {
    hide CallsOk, Grows;
    var u := s.links[c].up[0];
    assert u in s.links[c].up && UpOk(s.w, c, u);
  }

  /** So then no answer goes astray. */
  lemma NeverAstray(steps: seq<Step>, s: State, c: Conn, d: Down)
    requires Runs(Init(), steps, s) && c < |s.links| && d in s.links[c].down && d.out.typ != Invoke
    requires Seqs.Distinct(s.w.ids)
    ensures d.out.cause < |s.w.calls| && s.w.calls[d.out.cause].conn == c
  {
    hide Runs, AlwaysHome, NeverLate;
    InitInv();
    NewIdsNeverLate(Init(), steps, s);
    AstrayExactly(steps, s);
    ReachesCaller(steps, s, c, d);
  }

  // ----- at the caller -----

  /** The entry waits for this peer. */
  ghost predicate Awaits(w: World, e: Open, peer: nat) {
    if e.Plain? then e.call < |w.calls| && w.calls[e.call].peer == peer else peer in e.waiting
  }

  /** Another request with the number of `k`, waiting for the same peer. */
  ghost predicate Rival(w: World, e: Open, k: CallNo, peer: nat) {
    && e.call < |w.calls| && k < |w.calls| && e.call != k
    && (w.calls[e.call].start - w.calls[k].start) % 0x1_0000 == 0 && Awaits(w, e, peer)
  }

  /** An entry takes an answer exactly if the request that the answer is for was started a whole number of turns of the
      16-bit counter before or after it, and the entry waits for the peer. */
  lemma TakesExactly(steps: seq<Step>, s: State, c: Conn, d: Down, e: Open)
    requires Runs(Init(), steps, s) && c < |s.links| && d in s.links[c].down && d.out.typ != Invoke
    requires e in s.links[c].open
    ensures e.call < |s.w.calls| && d.out.cause < |s.w.calls|
    ensures Takes(s.w, e, d.out.seqno, d.out.peer) <==>
            (s.w.calls[e.call].start - s.w.calls[d.out.cause].start) % 0x1_0000 == 0 && Awaits(s.w, e, d.out.peer)
    ensures s.w.calls[d.out.cause].conn == c && e.call == d.out.cause && e.Plain? ==> Awaits(s.w, e, d.out.peer)
  {
    hide Runs, CallsOk, DownOk, UpOk, JobOk, Once;
    ReachesCaller(steps, s, c, d);
    ReachableInv(steps, s);
    assert LinkOk(s.w, c, s.links[c]);
    assert OpenOk(s.w, c, e);
    Requests.SameTurn(s.w.calls[e.call].start, s.w.calls[d.out.cause].start);
  }

  /** The first entry that takes the answer, or the end of the list. */
  ghost function Found(w: World, open: seq<Open>, seqno: nat, peer: nat): (at: nat)
    ensures at <= |open| && (at < |open| ==> Takes(w, open[at], seqno, peer))
    ensures forall j :: 0 <= j < at ==> !Takes(w, open[j], seqno, peer)
  {
    if open == [] || Takes(w, open[0], seqno, peer) then 0 else 1 + Found(w, open[1..], seqno, peer)
  }

  /** A status changes that entry and no other. */
  lemma {:induction false} SettlesFound(w: World, open: seq<Open>, d: Down)
    ensures var at := Found(w, open, d.out.seqno, d.out.peer);
      Settle(w, open, d) == if at < |open| then open[..at] + Ticked(open[at], d) + open[at + 1..] else open
  {
    hide Takes, Ticked;
    if open != [] {
      if Takes(w, open[0], d.out.seqno, d.out.peer) {
        assert [] + Ticked(open[0], d) == Ticked(open[0], d);
      } else {
        SettlesFound(w, open[1..], d);
        var at := Found(w, open[1..], d.out.seqno, d.out.peer);
        hide Found, Settle;
        if at < |open[1..]| { Behind(open, at, Ticked(open[at + 1], d)); } else { assert [open[0]] + open[1..] == open; }
      }
    }
  }

  lemma Behind(open: seq<Open>, at: nat, x: seq<Open>)
    requires at + 1 < |open|
    ensures [open[0]] + (open[1..][..at] + x + open[1..][at + 1..]) == open[..at + 1] + x + open[at + 2..]
  {
    assert open[..at + 1] == [open[0]] + open[1..][..at];
  }

  /** At the caller, the answer is given to the request it is for exactly if no rival is in front of it in the list. */
  lemma SettlesExactly(steps: seq<Step>, s: State, c: Conn, d: Down, i: nat)
    requires Runs(Init(), steps, s) && c < |s.links| && d in s.links[c].down && d.out.typ != Invoke
    requires i < |s.links[c].open| && s.links[c].open[i].call == d.out.cause && Awaits(s.w, s.links[c].open[i], d.out.peer)
    ensures Found(s.w, s.links[c].open, d.out.seqno, d.out.peer) == i <==>
            forall j :: 0 <= j < i ==> !Rival(s.w, s.links[c].open[j], d.out.cause, d.out.peer)
  {
    hide Runs, Takes, Inv, Awaits;
    var open := s.links[c].open;
    TakesExactly(steps, s, c, d, open[i]);
    assert Takes(s.w, open[i], d.out.seqno, d.out.peer);
    forall j | 0 <= j < i
      ensures Takes(s.w, open[j], d.out.seqno, d.out.peer) <==> Rival(s.w, open[j], d.out.cause, d.out.peer)
    {
      TakesExactly(steps, s, c, d, open[j]);
      ReachableInv(steps, s);
      OnceIn(s, c, j, i);
    }
  }

  lemma OnceIn(s: State, c: Conn, j: nat, i: nat)
    requires Inv(s) && c < |s.links| && j < i < |s.links[c].open|
    ensures s.links[c].open[j].call != s.links[c].open[i].call
  {
    hide CallsOk, UpOk, DownOk, JobOk, OpenOk;
    assert LinkOk(s.w, c, s.links[c]);
  }

  /** The request and those waiting with it were started within one turn of the 16-bit counter. */
  ghost predicate OneTurn(w: World, open: seq<Open>, k: CallNo) {
    && k < |w.calls|
    && forall e :: e in open ==>
         e.call < |w.calls| && -0x1_0000 < w.calls[e.call].start - w.calls[k].start < 0x1_0000
  }

  /** So within one turn of the counter, whatever else is under way, the answer is taken by the request it is for and by no
      other; a notification takes it while it waits for that peer. */
  lemma FindsTheCall(steps: seq<Step>, s: State, c: Conn, d: Down, e: Open)
    requires Runs(Init(), steps, s) && c < |s.links| && d in s.links[c].down && d.out.typ != Invoke
    requires e in s.links[c].open
    requires OneTurn(s.w, s.links[c].open, d.out.cause) && s.w.calls[d.out.cause].conn == c
    ensures Takes(s.w, e, d.out.seqno, d.out.peer)
            <==> e.call == d.out.cause && (e.Notifying? ==> d.out.peer in e.waiting)
  {
    hide Runs, CallsOk, DownOk, UpOk, JobOk, Takes, Once;
    TakesExactly(steps, s, c, d, e);
    ReachableInv(steps, s);
    assert LinkOk(s.w, c, s.links[c]);
    assert OpenOk(s.w, c, e);
    SameStart(s.w.calls, s.links, e.call, d.out.cause);
  }

  lemma SameStart(calls: seq<Started>, links: seq<Link>, j: CallNo, k: CallNo)
    requires CallsOk(calls, links) && j < |calls| && k < |calls| && calls[j].conn == calls[k].conn
    ensures calls[j].start == calls[k].start <==> j == k
  {
  }

  // ----- an id that is handed out again -----

  lemma RunsNone(s: State)
    ensures Runs(s, [], s)
  {
  }

  lemma {:induction false} RunsSnoc(s: State, steps: seq<Step>, t: State, step: Step)
    requires Runs(s, steps, t) && Enabled(t, step)
    ensures Runs(s, steps + [step], Apply(t, step))
    decreases |steps|
  {
    if steps == [] {
      assert [] + [step] == [step];
      assert Runs(Apply(t, step), [step][1..], Apply(t, step));
    } else {
      RunsSnoc(Apply(s, steps[0]), steps[1..], t, step);
      assert (steps + [step])[1..] == steps[1..] + [step];
    }
  }

  /** Two clients, the second of which has an object; the first calls it. */
  function TwoClients(id: ClientId, other: ClientId, o: ObjId): State {
    State(World([id, other], {0, 1}, [], {}, {}), [Link([], [], 0, [], []), Link([], [], 0, [], [])], map[o := 1])
  }

  function Called(id: ClientId, other: ClientId, o: ObjId): State {
    State(World([id, other], {0, 1}, [Started(0, 1, o, Call)], {}, {}),
          [Link([Up(CallMsg(id, 1, o), 0)], [], 1, [Plain(0)], []), Link([], [], 0, [], [])], map[o := 1])
  }

  function Arrived(id: ClientId, other: ClientId, o: ObjId): State {
    State(World([id, other], {0, 1}, [Started(0, 1, o, Call)], {(0, 1)}, {(0, o)}),
          [Link([], [], 1, [Plain(0)], []), Link([], [Down(PassedCall(CallMsg(id, 1, o), other, o, 0), None, [])], 0, [], [])],
          map[o := 1])
  }

  /** The second is serving the call. */
  function Served(id: ClientId, other: ClientId, o: ObjId): State {
    State(World([id, other], {0, 1}, [Started(0, 1, o, Call)], {(0, 1)}, {(0, o)}),
          [Link([], [], 1, [Plain(0)], []), Link([], [], 0, [], [Job(o, id, 1, 0)])], map[o := 1])
  }

  /** The first has gone, another client has got its id, and has called the same object. */
  function Again(id: ClientId, other: ClientId, o: ObjId): State {
    State(World([id, other, id], {1, 2}, [Started(0, 1, o, Call), Started(2, 1, o, Call)], {(0, 1)}, {(0, o)}),
          [Link([], [], 1, [Plain(0)], []), Link([], [], 0, [], [Job(o, id, 1, 0)]),
           Link([Up(CallMsg(id, 1, o), 1)], [], 1, [Plain(1)], [])], map[o := 1])
  }

  lemma FirstClients(id: ClientId, other: ClientId, o: ObjId) returns (steps: seq<Step>)
    requires id != other && o != 0
    ensures Runs(Init(), steps, TwoClients(id, other, o))
  {
    hide Runs;
    assert Runs(Init(), [], Init()) by { RunsNone(Init()); }
    RunsSnoc(Init(), [], Init(), Connect(id));
    steps := [] + [Connect(id)];
    var s1 := Apply(Init(), Connect(id));
    assert s1 == State(World([id], {0}, [], {}, {}), [Link([], [], 0, [], [])], map[]);
    RunsSnoc(Init(), steps, s1, Connect(other));
    steps := steps + [Connect(other)];
    var s2 := Apply(s1, Connect(other));
    assert s2.w.ids == [id, other] && s2.w.live == {0, 1} && s2.links == TwoClients(id, other, o).links;
    RunsSnoc(Init(), steps, s2, Step.AddObject(1, o));
    steps := steps + [Step.AddObject(1, o)];
  }

  lemma FirstCall(id: ClientId, other: ClientId, o: ObjId)
    ensures Enabled(TwoClients(id, other, o), Issue(0, o))
    ensures Apply(TwoClients(id, other, o), Issue(0, o)) == Called(id, other, o)
  {
    var t := Apply(TwoClients(id, other, o), Issue(0, o));
    assert t.links[0].up == Called(id, other, o).links[0].up && t.links[0].open == [Plain(0)];
    assert t.links == Called(id, other, o).links && t.w.calls == Called(id, other, o).w.calls;
  }

  lemma FirstPass(id: ClientId, other: ClientId, o: ObjId)
    ensures Enabled(Called(id, other, o), Pass(0, false))
    ensures Apply(Called(id, other, o), Pass(0, false)) == Arrived(id, other, o)
  {
    var t := Apply(Called(id, other, o), Pass(0, false));
    assert t.links[0].up == [] && t.links[1].down == Arrived(id, other, o).links[1].down;
    assert t.links == Arrived(id, other, o).links && t.w.passed == {(0, 1)} && t.w.asked == {(0, o)};
  }

  lemma FirstTake(id: ClientId, other: ClientId, o: ObjId)
    ensures Enabled(Arrived(id, other, o), Take(1, false))
    ensures Apply(Arrived(id, other, o), Take(1, false)) == Served(id, other, o)
  {
    var t := Apply(Arrived(id, other, o), Take(1, false));
    assert t.links[1].down == [] && t.links[1].jobs == Served(id, other, o).links[1].jobs;
    assert t.links == Served(id, other, o).links;
  }

  lemma ServedRuns(id: ClientId, other: ClientId, o: ObjId) returns (steps: seq<Step>)
    requires id != other && o != 0
    ensures Runs(Init(), steps, Served(id, other, o))
  {
    hide Runs, Apply, Enabled;
    steps := FirstClients(id, other, o);
    FirstCall(id, other, o);
    RunsSnoc(Init(), steps, TwoClients(id, other, o), Issue(0, o));
    steps := steps + [Issue(0, o)];
    FirstPass(id, other, o);
    RunsSnoc(Init(), steps, Called(id, other, o), Pass(0, false));
    steps := steps + [Pass(0, false)];
    FirstTake(id, other, o);
    RunsSnoc(Init(), steps, Arrived(id, other, o), Take(1, false));
    steps := steps + [Take(1, false)];
  }

  lemma SecondCaller(id: ClientId, other: ClientId, o: ObjId) returns (steps: seq<Step>)
    requires id != other && o != 0
    ensures Runs(Init(), steps, Again(id, other, o))
  {
    hide Runs;
    steps := ServedRuns(id, other, o);
    RunsSnoc(Init(), steps, Served(id, other, o), Close(0));
    steps := steps + [Close(0)];
    var s1 := Apply(Served(id, other, o), Close(0));
    assert s1.owner == map[o := 1] && s1.w.live == {1};
    RunsSnoc(Init(), steps, s1, Connect(id));
    steps := steps + [Connect(id)];
    var s2 := Apply(s1, Connect(id));
    assert s2.w.ids == [id, other, id] && s2.w.live == {1, 2};
    RunsSnoc(Init(), steps, s2, Issue(2, o));
    steps := steps + [Issue(2, o)];
    var t := Apply(s2, Issue(2, o));
    assert t.links[2].up == Again(id, other, o).links[2].up && t.links[2].open == [Plain(1)];
    assert t.links == Again(id, other, o).links && t.w.calls == Again(id, other, o).w.calls;
  }

  /** The answer to the first call is on its way to the third connection, whose own request takes it. */
  ghost predicate Astray(s: State) {
    && |s.links| == 3 && |s.w.calls| == 2 && |s.links[2].down| == 1 && s.links[2].open == [Plain(1)]
    && var d := s.links[2].down[0];
    && d.out.typ == Status && d.out.cause == 0 && s.w.calls[0].conn == 0
    && Takes(s.w, Plain(1), d.out.seqno, d.out.peer)
  }

  lemma AnswerStrays(id: ClientId, other: ClientId, o: ObjId)
    requires id != other && o != 0
    ensures var s := Again(id, other, o);
      && Enabled(s, Answer(1, 0, false)) && Enabled(Apply(s, Answer(1, 0, false)), PassTo(1, 2))
      && Astray(Apply(Apply(s, Answer(1, 0, false)), PassTo(1, 2)))
  {
    var t := Apply(Again(id, other, o), Answer(1, 0, false));
    assert t.links[1].up == [Up(AnswerMsg(other, Job(o, id, 1, 0), false), 0)];
    assert t.w.ids[2] == id && IdInUse(t.w, id);
  }

  /** So an id that is handed out again can lead an answer astray. */
  lemma AnotherCaller(id: ClientId, other: ClientId, o: ObjId) returns (steps: seq<Step>, s: State)
    requires id != other && o != 0
    ensures Runs(Init(), steps, s) && Astray(s)
  {
    hide Runs, Apply, Enabled, Astray;
    steps := SecondCaller(id, other, o);
    s := Again(id, other, o);
    AnswerStrays(id, other, o);
    RunsSnoc(Init(), steps, s, Answer(1, 0, false));
    steps, s := steps + [Answer(1, 0, false)], Apply(s, Answer(1, 0, false));
    RunsSnoc(Init(), steps, s, PassTo(1, 2));
    steps, s := steps + [PassTo(1, 2)], Apply(s, PassTo(1, 2));
  }

  // ----- a number that comes round again -----

  /** The second client is serving the first one's call, and the first has started `n` other requests since. */
  ghost predicate Busy(s: State, id: ClientId, other: ClientId, o: ObjId, n: nat) {
    && s.w.ids == [id, other] && s.w.live == {0, 1} && s.owner == map[o := 1]
    && |s.w.calls| == n + 1 && s.w.calls[0] == Started(0, 1, o, Call)
    && |s.links| == 2 && s.links[1] == Link([], [], 0, [], [Job(o, id, 1, 0)])
    && s.links[0].started == n + 1 && s.links[0].down == [] && Plain(0) in s.links[0].open
  }

  lemma OneMoreCommand(s: State, id: ClientId, other: ClientId, o: ObjId, n: nat)
    requires Busy(s, id, other, o, n)
    ensures Enabled(s, IssueCommand(0, 0)) && Busy(Apply(s, IssueCommand(0, 0)), id, other, o, n + 1)
  {
  }

  lemma {:induction false} ManyCommands(id: ClientId, other: ClientId, o: ObjId, n: nat) returns (steps: seq<Step>, s: State)
    requires id != other && o != 0
    ensures Runs(Init(), steps, s) && Busy(s, id, other, o, n)
  {
    hide Runs;
    if n == 0 {
      steps := ServedRuns(id, other, o);
      s := Served(id, other, o);
      assert s.links[0].open[0] == Plain(0);
    } else {
      steps, s := ManyCommands(id, other, o, n - 1);
      hide Apply, Enabled;
      OneMoreCommand(s, id, other, o, n - 1);
      RunsSnoc(Init(), steps, s, IssueCommand(0, 0));
      steps, s := steps + [IssueCommand(0, 0)], Apply(s, IssueCommand(0, 0));
    }
  }

  /** The first client has called the object again, with the number of the first call. */
  ghost predicate CalledAgain(s: State, id: ClientId, other: ClientId, o: ObjId) {
    && s.w.ids == [id, other] && s.w.live == {0, 1} && s.owner == map[o := 1]
    && |s.w.calls| == 0x1_0001 && s.w.calls[0] == Started(0, 1, o, Call)
    && s.w.calls[0x1_0000] == Started(0, 0x1_0001, o, Call)
    && |s.links| == 2 && s.links[1] == Link([], [], 0, [], [Job(o, id, 1, 0)])
    && s.links[0].down == [] && s.links[0].open != [] && s.links[0].open[0] == Plain(0x1_0000)
    && Plain(0) in s.links[0].open[1..]
  }

  lemma CallAgain(s: State, id: ClientId, other: ClientId, o: ObjId)
    requires Busy(s, id, other, o, 0xffff)
    ensures Enabled(s, Issue(0, o)) && CalledAgain(Apply(s, Issue(0, o)), id, other, o)
  {
    var t := Apply(s, Issue(0, o));
    assert t.links[0].open[1..] == s.links[0].open;
  }

  /** The answer to the first call has arrived; the later one takes it and is over, and the first still waits. */
  ghost predicate TakenByLater(s: State) {
    && |s.links| == 2 && |s.links[0].down| == 1 && |s.w.calls| == 0x1_0001 && s.links[0].open != []
    && s.links[0].down[0].out.typ == Status && s.links[0].down[0].out.cause == 0
    && s.links[0].open[0] == Plain(0x1_0000) && Plain(0) in s.links[0].open[1..]
    && Settle(s.w, s.links[0].open, s.links[0].down[0]) == s.links[0].open[1..]
  }

  lemma AnswerArrives(s: State, id: ClientId, other: ClientId, o: ObjId)
    requires CalledAgain(s, id, other, o)
    ensures Enabled(s, Answer(1, 0, false)) && Enabled(Apply(s, Answer(1, 0, false)), PassTo(1, 0))
    ensures TakenByLater(Apply(Apply(s, Answer(1, 0, false)), PassTo(1, 0)))
  {
    var job := Job(o, id, 1, 0);
    var t := Apply(s, Answer(1, 0, false));
    assert t.links[1].up == [Up(AnswerMsg(other, job, false), 0)];
    assert t.w.ids[0] == id && IdInUse(t.w, id);
    var v := Apply(t, PassTo(1, 0));
    assert v.links[0].down == [Down(PassedAnswer(AnswerMsg(other, job, false), 0), Some(1), [])];
    assert Takes(v.w, v.links[0].open[0], 1, o);
  }

  /** So when the counter comes round, an answer can be taken by another call of the same object. */
  lemma AnotherCall(id: ClientId, other: ClientId, o: ObjId) returns (steps: seq<Step>, s: State)
    requires id != other && o != 0
    ensures Runs(Init(), steps, s) && TakenByLater(s)
  {
    hide Runs, Apply, Enabled, Busy, CalledAgain, TakenByLater;
    steps, s := ManyCommands(id, other, o, 0xffff);
    CallAgain(s, id, other, o);
    RunsSnoc(Init(), steps, s, Issue(0, o));
    steps, s := steps + [Issue(0, o)], Apply(s, Issue(0, o));
    AnswerArrives(s, id, other, o);
    RunsSnoc(Init(), steps, s, Answer(1, 0, false));
    steps, s := steps + [Answer(1, 0, false)], Apply(s, Answer(1, 0, false));
    RunsSnoc(Init(), steps, s, PassTo(1, 0));
    steps, s := steps + [PassTo(1, 0)], Apply(s, PassTo(1, 0));
  }
}
