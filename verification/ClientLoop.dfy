/** Re-entrancy in the client (`ubus_process_msg`, `ubus_queue_msg` and `ubus_process_pending_msg` in
    `libubus.c`, `ubus_handle_data` in `libubus-io.c`, `ubus_complete_request` in `libubus-req.c`).

    The library is entered again from its own callbacks, so the state carries the stack of library calls
    that have not returned, and a step is what the innermost of them does next.  Whatever the application
    does in a callback, and whatever arrives, is a choice of step. */
module ClientLoop {
  import opened Seqs

  /** Where a call of `ubus_handle_data` stands: at the head of its loop, about to receive, past a message,
      past the loop, about to return, or reporting a lost connection. */
  datatype Handling = Head | Receive | Check | After | Tail | Lost

  /** Where a call of `ubus_complete_request` stands: in its polling loop, past it, past the callback, or
      about to return. */
  datatype Waiting = Polling | Completed | Leaving | Left

  datatype Frame =
    | HandleData(at: Handling)
    | ProcessPending
    | Handler(m: nat)
    | Synchronous(phase: Waiting)
    | Callback

  datatype Stack = Empty | Push(top: Frame, below: Stack)

  datatype State = State(
    stack: Stack, depth: nat, pending: seq<nat>, cancel: bool, eof: bool, registered: bool,
    arrived: seq<nat>, started: seq<nat>)

  // ----- steps -----

  datatype Step =
    | Readable              // the event loop calls ubus_handle_data
    | Timer                 // the event loop calls the pending timer
    | AppSync               // the application makes a synchronous request
    | AppHandleEvent        // the application calls ubus_handle_event
    | Reconnect             // the application calls ubus_reconnect, which succeeds
    | Register              // the application adds the connection to the event loop
    | EnterLoop             // the head of the loop of ubus_handle_data
    | NoMessage(lost: bool) // get_next_msg fails
    | Answer(wakes: bool)   // STATUS, DATA or MONITOR, with a callback; it may end a synchronous request
    | Ignored               // any other message
    | ObjectMessage(m: nat) // INVOKE, NOTIFY or UNSUBSCRIBE
    | HandlerReturns
    | CallbackReturns
    | LoopCheck(cancelling: bool)
    | LeaveLoop
    | ReturnFromHandle
    | LostCallback
    | Drain                 // one turn of the loop of ubus_process_pending_msg
    | Poll
    | RequestDone
    | CompleteCallback(present: bool)
    | LeaveRequest
    | ReturnFromRequest

  function Init(registered: bool): State {
    State(Empty, 0, [], false, false, registered, [], [])
  }

  /** The application's code is running: outside all calls, or in a callback. */
  predicate AppRuns(s: State) {
    s.stack.Empty? || s.stack.top.Handler? || s.stack.top.Callback?
  }

  predicate On(s: State, f: Frame) {
    s.stack.Push? && s.stack.top == f
  }

  predicate Enabled(s: State, step: Step) {
    match step
    case Readable => s.stack.Empty?
    case Timer => s.stack.Empty?
    case AppSync => AppRuns(s)
    case AppHandleEvent => AppRuns(s)
    case Reconnect => AppRuns(s)
    case Register => AppRuns(s)
    case EnterLoop => On(s, HandleData(Head))
    case NoMessage(_) => On(s, HandleData(Receive))
    case Answer(_) => On(s, HandleData(Receive))
    case Ignored => On(s, HandleData(Receive))
    case ObjectMessage(m) => On(s, HandleData(Receive)) && m !in s.arrived
    case HandlerReturns => s.stack.Push? && s.stack.top.Handler? && 0 < s.depth
    case CallbackReturns => On(s, Callback)
    case LoopCheck(_) => On(s, HandleData(Check))
    case LeaveLoop => On(s, HandleData(After))
    case ReturnFromHandle => On(s, HandleData(Tail)) || On(s, HandleData(Lost))
    case LostCallback => On(s, HandleData(Lost))
    case Drain => On(s, ProcessPending)
    case Poll => On(s, Synchronous(Polling))
    case RequestDone => On(s, Synchronous(Polling)) && 0 < s.depth
    case CompleteCallback(_) => On(s, Synchronous(Completed))
    case LeaveRequest => On(s, Synchronous(Leaving))
    case ReturnFromRequest => On(s, Synchronous(Left))
  }

  /** The innermost call moves on. */
  function At(s: State, f: Frame): Stack
    requires s.stack.Push?
  {
    Push(f, s.stack.below)
  }

  function Apply(s: State, step: Step): State
    requires Enabled(s, step)
  {
    match step
    case Readable => s.(stack := Push(HandleData(Head), s.stack))
    case Timer => s.(stack := Push(ProcessPending, s.stack))
    case AppSync => s.(stack := Push(Synchronous(Polling), s.stack), depth := s.depth + 1)
    case AppHandleEvent => s.(stack := Push(HandleData(Head), s.stack))
    case Reconnect => s.(eof := false, registered := false)
    case Register => s.(registered := true)
    case EnterLoop =>
      if s.depth == 0 then s.(stack := Push(ProcessPending, At(s, HandleData(Receive))))
      else s.(stack := At(s, HandleData(Receive)))
    case NoMessage(lost) => s.(stack := At(s, HandleData(After)), eof := s.eof || lost)
    case Answer(wakes) => s.(stack := Push(Callback, At(s, HandleData(Check))), cancel := s.cancel || wakes)
    case Ignored => s.(stack := At(s, HandleData(Check)))
    case ObjectMessage(m) =>
      if 0 < s.depth then s.(stack := At(s, HandleData(Check)), pending := s.pending + [m], arrived := s.arrived + [m])
      else s.(stack := Push(Handler(m), At(s, HandleData(Check))), depth := s.depth + 1,
              arrived := s.arrived + [m], started := s.started + [m])
    case HandlerReturns => s.(stack := s.stack.below, depth := s.depth - 1)
    case CallbackReturns => s.(stack := s.stack.below)
    case LoopCheck(cancelling) =>
      s.(stack := At(s, HandleData(if cancelling || s.cancel then After else Head)))
    case LeaveLoop =>
      if s.depth == 0 then s.(stack := Push(ProcessPending, At(s, HandleData(Tail))))
      else s.(stack := At(s, HandleData(Tail)))
    case ReturnFromHandle =>
      if s.stack.top == HandleData(Tail) && s.eof then s.(stack := At(s, HandleData(Lost)))
      else s.(stack := s.stack.below)
    case LostCallback => s.(stack := Push(Callback, s.stack))
    case Drain =>
      if s.pending == [] || 0 < s.depth then s.(stack := s.stack.below)
      else s.(stack := Push(Handler(s.pending[0]), s.stack), depth := s.depth + 1,
              pending := s.pending[1..], started := s.started + [s.pending[0]])
    case Poll => s.(stack := Push(HandleData(Head), s.stack), cancel := false)
    case RequestDone =>
      s.(stack := At(s, Synchronous(Completed)), depth := s.depth - 1, cancel := s.cancel || s.eof || 1 < s.depth)
    case CompleteCallback(present) =>
      if present then s.(stack := Push(Callback, At(s, Synchronous(Leaving)))) else s.(stack := At(s, Synchronous(Leaving)))
    case LeaveRequest =>
      if s.depth == 0 && !s.registered then s.(stack := Push(ProcessPending, At(s, Synchronous(Left))))
      else s.(stack := At(s, Synchronous(Left)))
    case ReturnFromRequest => s.(stack := s.stack.below)
  }

  // ----- the invariant -----

  /** The calls that `stack_depth` counts. */
  function Deep(st: Stack): nat {
    match st
    case Empty => 0
    case Push(f, below) => Deep(below) + if f.Handler? || f == Synchronous(Polling) then 1 else 0
  }

  function Handlers(st: Stack): nat {
    match st
    case Empty => 0
    case Push(f, below) => Handlers(below) + if f.Handler? then 1 else 0
  }

  /** A call of the pending queue and an object's handler start only outside all counted calls; a call that
      has started the queue waits for it; the queue calls nothing but handlers; and handlers are called by the
      queue or the loop of `ubus_handle_data`. */
  predicate WellNested(st: Stack) {
    match st
    case Empty => true
    case Push(f, below) =>
      && WellNested(below)
      && (f.Handler? || f.ProcessPending? ==> Deep(below) == 0)
      && (below.Push? && below.top in {HandleData(Receive), HandleData(Tail), Synchronous(Left)} ==> f.ProcessPending?)
      && (below.Push? && below.top.ProcessPending? ==> f.Handler?)
      && (f.Handler? ==> below.Push? && (below.top == HandleData(Check) || below.top.ProcessPending?))
  }

  ghost predicate Inv(s: State) {
    && WellNested(s.stack)
    && s.depth == Deep(s.stack)
    && s.arrived == s.started + s.pending
    && Distinct(s.arrived)
    && (s.depth == 0 && (On(s, HandleData(Receive)) || On(s, HandleData(Tail))) ==> s.pending == [])
  }

  /** No handler runs inside another. */
  lemma {:induction false} OneHandler(st: Stack)
    requires WellNested(st)
    ensures Handlers(st) <= 1
    ensures Deep(st) == 0 ==> Handlers(st) == 0
  {
    if st.Push? { OneHandler(st.below); }
  }

  lemma InitInv(registered: bool)
    ensures Inv(Init(registered))
  {
  }

  /** The frame above a call that waits for the queue, or above the queue. */
  lemma Above(st: Stack)
    requires WellNested(st) && st.Push? && st.below.Push?
    ensures st.below.top in {HandleData(Receive), HandleData(Tail), Synchronous(Left)} ==> st.top.ProcessPending?
    ensures st.below.top.ProcessPending? ==> st.top.Handler?
  {
  }

  /** A step in which a call moves on, perhaps calling another. */
  lemma MoveInv(s: State, f: Frame, g: Frame)
    requires s.stack.Push? && WellNested(s.stack)
    requires f.HandleData? || f.Synchronous? || f.Callback?
    requires s.stack.top.HandleData? || s.stack.top.Synchronous?
    ensures WellNested(At(s, f))
    ensures Deep(At(s, f)) == Deep(s.stack) - (if s.stack.top == Synchronous(Polling) then 1 else 0)
                                            + (if f == Synchronous(Polling) then 1 else 0)
    ensures g.Callback? && f !in {HandleData(Receive), HandleData(Tail), Synchronous(Left)} ==>
      WellNested(Push(g, At(s, f))) && Deep(Push(g, At(s, f))) == Deep(At(s, f))
    ensures g.ProcessPending? && Deep(At(s, f)) == 0 ==>
      WellNested(Push(g, At(s, f))) && Deep(Push(g, At(s, f))) == 0
  {
  }

  lemma HandleInv(s: State, step: Step)
    requires Inv(s) && Enabled(s, step)
    requires step.EnterLoop? || step.NoMessage? || step.Answer? || step.Ignored? || step.LoopCheck? || step.LeaveLoop?
    ensures Inv(Apply(s, step))
  {
    hide Distinct, WellNested, Deep;
    match step
    case EnterLoop => MoveInv(s, HandleData(Receive), ProcessPending);
    case NoMessage(_) => MoveInv(s, HandleData(After), Callback);
    case Answer(_) => MoveInv(s, HandleData(Check), Callback);
    case Ignored => MoveInv(s, HandleData(Check), Callback);
    case LoopCheck(c) => MoveInv(s, HandleData(if c || s.cancel then After else Head), Callback);
    case LeaveLoop => MoveInv(s, HandleData(Tail), ProcessPending);
  }

  lemma RequestInv(s: State, step: Step)
    requires Inv(s) && Enabled(s, step)
    requires step.RequestDone? || step.CompleteCallback? || step.LeaveRequest? || step.LostCallback?
             || (step.ReturnFromHandle? && s.eof && On(s, HandleData(Tail)))
    ensures Inv(Apply(s, step))
  {
    hide Distinct, WellNested, Deep;
    match step
    case RequestDone => MoveInv(s, Synchronous(Completed), Callback);
    case CompleteCallback(_) => MoveInv(s, Synchronous(Leaving), Callback);
    case LeaveRequest => MoveInv(s, Synchronous(Left), ProcessPending);
    case LostCallback => MoveInv(s, HandleData(Lost), Callback);
    case ReturnFromHandle => MoveInv(s, HandleData(Lost), Callback);
  }

  /** A call from the application, the event loop or the polling loop. */
  lemma CallInv(s: State, step: Step)
    requires Inv(s) && Enabled(s, step)
    requires step.Readable? || step.Timer? || step.AppSync? || step.AppHandleEvent? || step.Poll?
             || step.Reconnect? || step.Register?
    ensures Inv(Apply(s, step))
  {
    hide Distinct;
  }

  lemma ReturnInv(s: State, step: Step)
    requires Inv(s) && Enabled(s, step)
    requires step.HandlerReturns? || step.CallbackReturns? || step.ReturnFromRequest?
             || (step.ReturnFromHandle? && !(s.eof && On(s, HandleData(Tail))))
    ensures Inv(Apply(s, step))
  {
    hide Distinct;
    if s.stack.below.Push? { Above(s.stack); }
  }

  lemma ObjectInv(s: State, m: nat)
    requires Inv(s) && Enabled(s, ObjectMessage(m))
    ensures Inv(Apply(s, ObjectMessage(m)))
  {
    MoveInv(s, HandleData(Check), Callback);
    var s' := Apply(s, ObjectMessage(m));
    assert Distinct(s.arrived + [m]);
    hide Distinct;
    if s.depth == 0 {
      assert s'.arrived == s'.started + s'.pending;
    }
  }

  lemma DrainInv(s: State)
    requires Inv(s) && Enabled(s, Drain)
    ensures Inv(Apply(s, Drain))
  {
    hide Distinct;
    var s' := Apply(s, Drain);
    if s.stack.below.Push? { Above(s.stack); }
    if s.pending != [] {
      assert s.started + s.pending == (s.started + [s.pending[0]]) + s.pending[1..];
    }
  }

  /** Every step of the library, and of the application in its callbacks, keeps the invariant. */
  lemma StepInv(s: State, step: Step)
    requires Inv(s) && Enabled(s, step)
    ensures Inv(Apply(s, step))
  {
    hide Inv, Apply;
    match step
    case Readable => CallInv(s, step);
    case Timer => CallInv(s, step);
    case AppSync => CallInv(s, step);
    case AppHandleEvent => CallInv(s, step);
    case Reconnect => CallInv(s, step);
    case Register => CallInv(s, step);
    case Poll => CallInv(s, step);
    case ObjectMessage(m) => ObjectInv(s, m);
    case Drain => DrainInv(s);
    case HandlerReturns => ReturnInv(s, step);
    case CallbackReturns => ReturnInv(s, step);
    case ReturnFromRequest => ReturnInv(s, step);
    case ReturnFromHandle =>
      if s.eof && On(s, HandleData(Tail)) { RequestInv(s, step); } else { ReturnInv(s, step); }
    case RequestDone => RequestInv(s, step);
    case CompleteCallback(_) => RequestInv(s, step);
    case LeaveRequest => RequestInv(s, step);
    case LostCallback => RequestInv(s, step);
    case _ => HandleInv(s, step);
  }

  // ----- runs -----

  predicate Feasible(s: State, steps: seq<Step>)
    decreases |steps|
  {
    steps == [] || (Enabled(s, steps[0]) && Feasible(Apply(s, steps[0]), steps[1..]))
  }

  function Run(s: State, steps: seq<Step>): State
    requires Feasible(s, steps)
    decreases |steps|
  {
    if steps == [] then s else Run(Apply(s, steps[0]), steps[1..])
  }

  lemma {:induction false} RunInv(s: State, steps: seq<Step>)
    requires Inv(s) && Feasible(s, steps)
    ensures Inv(Run(s, steps))
    decreases |steps|
  {
    hide Inv, Apply;
    if steps != [] {
      StepInv(s, steps[0]);
      RunInv(Apply(s, steps[0]), steps[1..]);
    }
  }

  /** The promise, over every run: handlers never run inside one another; they start in the order of
      arrival, each message once; and what has not started is waiting, in order. */
  lemma HandlersInOrder(registered: bool, steps: seq<Step>)
    requires Feasible(Init(registered), steps)
    ensures var s := Run(Init(registered), steps);
      && Handlers(s.stack) <= 1
      && s.arrived == s.started + s.pending
      && Distinct(s.arrived)
  {
    InitInv(registered);
    RunInv(Init(registered), steps);
    OneHandler(Run(Init(registered), steps).stack);
  }

  /** When `ubus_handle_data` finds the connection alive and returns outside all counted calls, nothing is pending. */
  lemma NothingPending(registered: bool, steps: seq<Step>)
    requires Feasible(Init(registered), steps)
    ensures var s := Run(Init(registered), steps);
      On(s, HandleData(Tail)) && s.depth == 0 && !s.eof ==> Apply(s, ReturnFromHandle).pending == []
  {
    hide Run, Feasible, WellNested, Distinct, Deep;
    InitInv(registered);
    RunInv(Init(registered), steps);
  }

  // ----- every call can return, and every message is served -----

  /** What a call does next if the application calls nothing and nothing arrives. */
  function Onward(f: Frame): Step {
    match f
    case HandleData(at) => (
      match at
      case Head => EnterLoop
      case Receive => NoMessage(false)
      case Check => LoopCheck(true)
      case After => LeaveLoop
      case _ => ReturnFromHandle)
    case ProcessPending => Drain
    case Handler(_) => HandlerReturns
    case Callback => CallbackReturns
    case Synchronous(phase) => (
      match phase
      case Polling => RequestDone
      case Completed => CompleteCallback(false)
      case Leaving => LeaveRequest
      case Left => ReturnFromRequest)
  }

  /** A bound on the steps of a call until it returns, the handlers of pending messages aside. */
  function Weight(f: Frame): (n: nat)
    ensures 0 < n
  {
    match f
    case HandleData(at) => (
      match at case Head => 7 case Receive => 5 case Check => 5 case After => 4 case Tail => 2 case Lost => 1)
    case Synchronous(phase) => (match phase case Polling => 5 case Completed => 4 case Leaving => 3 case Left => 1)
    case _ => 1
  }

  function Load(st: Stack): nat {
    if st.Empty? then 0 else Weight(st.top) + Load(st.below)
  }

  lemma OnwardEnabled(s: State)
    requires Inv(s) && s.stack.Push?
    ensures Enabled(s, Onward(s.stack.top))
  {
    hide Distinct, WellNested;
  }

  lemma LoadOf(f: Frame, g: Frame, st: Stack)
    ensures Load(Push(g, st)) == Weight(g) + Load(st)
    ensures Load(Push(f, Push(g, st))) == Weight(f) + Weight(g) + Load(st)
  {
  }

  ghost predicate Lighter(s: State, t: State) {
    t.arrived == s.arrived && (|t.pending| < |s.pending| || (t.pending == s.pending && Load(t.stack) < Load(s.stack)))
  }

  lemma HandleLighter(s: State, at: Handling)
    requires On(s, HandleData(at)) && Enabled(s, Onward(HandleData(at)))
    ensures Lighter(s, Apply(s, Onward(HandleData(at))))
  {
    hide Load;
    var f, below := s.stack.top, s.stack.below;
    LoadOf(f, f, below);
    match at
    case Head => LoadOf(ProcessPending, HandleData(Receive), below);
    case Receive => LoadOf(f, HandleData(After), below);
    case Check => LoadOf(f, HandleData(After), below);
    case After => LoadOf(ProcessPending, HandleData(Tail), below);
    case _ => LoadOf(f, HandleData(Lost), below);
  }

  lemma OtherLighter(s: State)
    requires s.stack.Push? && !s.stack.top.HandleData? && Enabled(s, Onward(s.stack.top))
    ensures Lighter(s, Apply(s, Onward(s.stack.top)))
  {
    hide Load;
    var f, below := s.stack.top, s.stack.below;
    LoadOf(f, f, below);
    if f.Synchronous? {
      LoadOf(f, Synchronous(Completed), below);
      LoadOf(f, Synchronous(Leaving), below);
      LoadOf(ProcessPending, Synchronous(Left), below);
    }
  }

  /** The innermost call is never stuck, and either serves a pending message or comes nearer to its return. */
  lemma Advances(s: State)
    requires Inv(s) && s.stack.Push?
    ensures Enabled(s, Onward(s.stack.top))
    ensures Inv(Apply(s, Onward(s.stack.top))) && Lighter(s, Apply(s, Onward(s.stack.top)))
  {
    hide Inv, Apply, Lighter, Onward, Enabled;
    OnwardEnabled(s);
    if s.stack.top.HandleData? { HandleLighter(s, s.stack.top.at); } else { OtherLighter(s); }
    StepInv(s, Onward(s.stack.top));
  }

  /** So all calls can return. */
  lemma {:induction false} AllReturn(s: State) returns (steps: seq<Step>)
    requires Inv(s)
    ensures Feasible(s, steps)
    ensures var t := Run(s, steps); Inv(t) && t.stack.Empty? && t.arrived == s.arrived
    decreases |s.pending|, Load(s.stack)
  {
    hide Inv, Apply, Load;
    if s.stack.Empty? {
      steps := [];
    } else {
      Advances(s);
      var step := Onward(s.stack.top);
      var rest := AllReturn(Apply(s, step));
      steps := [step] + rest;
      assert steps[1..] == rest;
    }
  }

  /** The timer serves everything that is pending. */
  lemma {:induction false} DrainsAll(s: State) returns (steps: seq<Step>)
    requires Inv(s) && s.stack == Push(ProcessPending, Empty)
    ensures Feasible(s, steps)
    ensures var t := Run(s, steps); t.stack.Empty? && t.pending == [] && t.arrived == s.arrived && t.started == s.arrived
    decreases |s.pending|
  {
    hide Distinct;
    if s.pending == [] {
      steps := [Drain];
      assert steps[1..] == [] && Run(Apply(s, Drain), []) == Apply(s, Drain);
      assert s.started + [] == s.started;
    } else {
      StepInv(s, Drain);
      var t := Apply(s, Drain);
      StepInv(t, HandlerReturns);
      var rest := DrainsAll(Apply(t, HandlerReturns));
      steps := [Drain] + ([HandlerReturns] + rest);
      assert steps[1..] == [HandlerReturns] + rest && ([HandlerReturns] + rest)[1..] == rest;
    }
  }

  lemma Started(s: State)
    requires Inv(s) && s.pending == []
    ensures s.started == s.arrived
  {
    hide Distinct, WellNested;
    assert s.started + [] == s.started;
  }

  lemma {:induction false} RunsOn(s: State, a: seq<Step>, b: seq<Step>)
    requires Feasible(s, a) && Feasible(Run(s, a), b)
    ensures Feasible(s, a + b) && Run(s, a + b) == Run(Run(s, a), b)
    decreases |a|
  {
    hide Apply;
    if a == [] {
      assert a + b == b;
    } else {
      RunsOn(Apply(s, a[0]), a[1..], b);
      assert (a + b)[1..] == a[1..] + b;
    }
  }

  /** From every point of every run all calls can return and every message that has arrived can get its handler: none is
      lost for good. */
  lemma AllServed(registered: bool, before: seq<Step>) returns (after: seq<Step>)
    requires Feasible(Init(registered), before)
    ensures var s := Run(Init(registered), before);
      && Feasible(s, after)
      && var t := Run(s, after); t.stack.Empty? && t.pending == [] && t.started == s.arrived
  {
    InitInv(registered);
    hide Inv;
    RunInv(Init(registered), before);
    var s := Run(Init(registered), before);
    var back := AllReturn(s);
    var t := Run(s, back);
    if t.pending == [] {
      after := back;
      Started(t);
    } else {
      assert Enabled(t, Timer);
      StepInv(t, Timer);
      assert Apply(t, Timer).stack == Push(ProcessPending, Empty) && Apply(t, Timer).arrived == t.arrived;
      var rest := DrainsAll(Apply(t, Timer));
      assert ([Timer] + rest)[1..] == rest;
      RunsOn(s, back, [Timer] + rest);
      after := back + ([Timer] + rest);
    }
  }

  /** An object message starts its handler at once, with nothing pending in front of it, unless a counted call is running;
      then it waits. */
  lemma StartsAtOnce(s: State, m: nat)
    requires Inv(s) && Enabled(s, ObjectMessage(m))
    ensures var t := Apply(s, ObjectMessage(m));
      if s.depth == 0 then s.pending == [] && t.started == s.arrived + [m] && On(t, Handler(m))
      else t.started == s.started && t.pending == s.pending + [m] && On(t, HandleData(Check))
  {
    hide Distinct, WellNested;
  }

  // ----- the end of a synchronous request -----

  /** A call that has not returned yet, and a request made inside it that is still polling. */
  predicate Over(st: Stack, base: Stack) {
    st == base || (st.Push? && Over(st.below, base))
  }

  predicate PollsOver(st: Stack, base: Stack) {
    st != base && st.Push? && (st.top == Synchronous(Polling) || PollsOver(st.below, base))
  }

  function Height(st: Stack): nat {
    if st.Empty? then 0 else 1 + Height(st.below)
  }

  lemma {:induction false} OverDeep(st: Stack, base: Stack)
    requires Over(st, base)
    ensures Deep(base) <= Deep(st) && Height(base) <= Height(st)
    ensures forall f :: Push(f, st) != base
    ensures st != base && st.Push? ==> Over(st.below, base)
  {
    if st != base { OverDeep(st.below, base); }
    forall f ensures Push(f, st) != base { assert Height(Push(f, st)) == 1 + Height(st); }
  }

  /** While a loop that has to leave waits for a callback, the flag stays set, or a request made in the callback is
      polling, which will set it again. */
  lemma StaysAwake(s: State, step: Step, base: Stack)
    requires Inv(s) && Enabled(s, step) && 0 < Deep(base)
    requires Over(s.stack, base) && s.stack != base && (s.cancel || PollsOver(s.stack, base))
    ensures var t := Apply(s, step); Over(t.stack, base) && (t.cancel || PollsOver(t.stack, base))
  {
    hide Distinct, WellNested;
    OverDeep(s.stack, base);
    OverDeep(s.stack.below, base);
  }

  /** The run comes back to this call for the first time at its end. */
  predicate ComesBack(s: State, steps: seq<Step>, base: Stack)
    requires Feasible(s, steps)
    decreases |steps|
  {
    if steps == [] then s.stack == base else s.stack != base && ComesBack(Apply(s, steps[0]), steps[1..], base)
  }

  lemma {:induction false} AwakeAtEnd(s: State, steps: seq<Step>, base: Stack)
    requires Inv(s) && Feasible(s, steps) && ComesBack(s, steps, base) && 0 < Deep(base)
    requires Over(s.stack, base) && (s.cancel || PollsOver(s.stack, base))
    ensures Run(s, steps).cancel && Run(s, steps).stack == base
    decreases |steps|
  {
    hide Inv, Apply;
    if steps != [] {
      StepInv(s, steps[0]);
      StaysAwake(s, steps[0], base);
      AwakeAtEnd(Apply(s, steps[0]), steps[1..], base);
    }
  }

  /** A status that ends a synchronous request takes the loop that received it out of `ubus_handle_data`, whatever is done
      in its callback, further synchronous requests included. */
  lemma WakesUp(s: State, steps: seq<Step>, cancelling: bool)
    requires Inv(s) && Enabled(s, Answer(true)) && 0 < s.depth
    requires Feasible(Apply(s, Answer(true)), steps)
    requires ComesBack(Apply(s, Answer(true)), steps, At(s, HandleData(Check)))
    ensures var t := Run(Apply(s, Answer(true)), steps);
      Enabled(t, LoopCheck(cancelling)) && On(Apply(t, LoopCheck(cancelling)), HandleData(After))
  {
    var base := At(s, HandleData(Check));
    StepInv(s, Answer(true));
    assert 0 < Deep(base);
    AwakeAtEnd(Apply(s, Answer(true)), steps, base);
  }

  // ----- a connection that is lost and restored -----

  /** Nothing but returns lies between here and the return of a call of `ubus_handle_data` that has looked at the queue for
      the last time. */
  predicate Stuck(st: Stack) {
    st.Push? && (st.top == HandleData(Lost) || ((st.top.Callback? || st.top == Synchronous(Left)) && Stuck(st.below)))
  }

  /** Outside all counted calls, whatever is pending will be seen to. */
  predicate Safe(s: State) {
    s.depth == 0 && s.pending != [] ==> !Stuck(s.stack)
  }

  /** A synchronous request, made in a callback that reports the lost connection, leaves the queue to the event loop. */
  predicate Strands(s: State, step: Step) {
    step.LeaveRequest? && s.stack.Push? && s.depth == 0 && s.pending != [] && s.registered && Stuck(s.stack.below)
  }

  lemma StepSafe(s: State, step: Step)
    requires Inv(s) && Safe(s) && Enabled(s, step)
    ensures Safe(Apply(s, step)) <==> !Strands(s, step)
  {
    hide Distinct;
    var s' := Apply(s, step);
    match step {
      case HandlerReturns => assert !Stuck(s'.stack);
      case RequestDone => assert !Stuck(s'.stack);
      case CompleteCallback(_) => assert !Stuck(s'.stack);
      case Answer(_) => assert !Stuck(s'.stack);
      case _ =>
    }
  }

  /** `ubus_handle_data` is about to return, outside all counted calls. */
  predicate Returning(s: State) {
    Enabled(s, ReturnFromHandle) && s.depth == 0
  }

  /** If everybody just returns from here, a call of `ubus_handle_data` returns while messages are pending. */
  ghost predicate Forgets(s: State) {
    exists back :: Unwinds(back) && Feasible(s, back) && Returning(Run(s, back)) && Run(s, back).pending != []
  }

  predicate Unwinds(back: seq<Step>) {
    forall i :: 0 <= i < |back| ==> back[i].ReturnFromRequest? || back[i].CallbackReturns?
  }

  lemma {:induction false} ForgetsIfStuck(s: State) returns (back: seq<Step>)
    requires Inv(s) && s.depth == 0 && s.pending != [] && Stuck(s.stack)
    ensures Unwinds(back) && Feasible(s, back) && Returning(Run(s, back)) && Run(s, back).pending != []
    decreases s.stack
  {
    if s.stack.top == HandleData(Lost) {
      back := [];
    } else {
      var step := if s.stack.top.Callback? then CallbackReturns else ReturnFromRequest;
      StepInv(s, step);
      hide Inv;
      var rest := ForgetsIfStuck(Apply(s, step));
      back := [step] + rest;
      assert back[1..] == rest;
    }
  }

  lemma {:induction false} SafeUnwinds(s: State, back: seq<Step>)
    requires Inv(s) && Safe(s) && Feasible(s, back) && Unwinds(back)
    ensures Inv(Run(s, back)) && Safe(Run(s, back))
    decreases |back|
  {
    hide Inv, Apply, Safe;
    if back != [] {
      StepInv(s, back[0]);
      StepSafe(s, back[0]);
      SafeUnwinds(Apply(s, back[0]), back[1..]);
    }
  }

  lemma ReturnsClear(s: State)
    requires Inv(s) && Safe(s) && Returning(s)
    ensures s.pending == []
  {
  }

  /** What is pending is forgotten exactly in the states that are not safe. */
  lemma ForgetsExactly(s: State)
    requires Inv(s)
    ensures Forgets(s) <==> !Safe(s)
  {
    hide Inv;
    if !Safe(s) {
      var back := ForgetsIfStuck(s);
    } else {
      forall back | Unwinds(back) && Feasible(s, back) && Returning(Run(s, back)) ensures Run(s, back).pending == [] {
        SafeUnwinds(s, back);
        ReturnsClear(Run(s, back));
      }
    }
  }

  /** Every such request leads to a forgotten message, unless someone comes between. */
  lemma StrandsForgets(s: State, step: Step)
    requires Inv(s) && Enabled(s, step) && Strands(s, step)
    ensures Forgets(Apply(s, step))
  {
    StepInv(s, step);
    ForgetsExactly(Apply(s, step));
  }

  /** At no point of the run is a message forgotten. */
  ghost predicate NeverForgets(s: State, steps: seq<Step>)
    requires Feasible(s, steps)
    decreases |steps|
  {
    !Forgets(s) && (steps != [] ==> NeverForgets(Apply(s, steps[0]), steps[1..]))
  }

  /** No synchronous request strands one. */
  predicate NeverStrands(s: State, steps: seq<Step>)
    requires Feasible(s, steps)
    decreases |steps|
  {
    steps != [] ==> !Strands(s, steps[0]) && NeverStrands(Apply(s, steps[0]), steps[1..])
  }

  lemma {:induction false} RunForgets(s: State, steps: seq<Step>)
    requires Inv(s) && Safe(s) && Feasible(s, steps)
    ensures NeverForgets(s, steps) <==> NeverStrands(s, steps)
    ensures NeverStrands(s, steps) ==> Inv(Run(s, steps)) && Safe(Run(s, steps))
    decreases |steps|
  {
    hide Inv, Apply, Safe, Forgets, Strands;
    ForgetsExactly(s);
    if steps != [] {
      StepInv(s, steps[0]);
      StepSafe(s, steps[0]);
      var t := Apply(s, steps[0]);
      ForgetsExactly(t);
      if Safe(t) { RunForgets(t, steps[1..]); }
    }
  }

  /** Over every run of every context: no message is ever left behind by a return outside all counted calls exactly if no
      synchronous request ends in the callback that reports a lost connection, with the context in the event loop and
      messages pending. */
  lemma ForgottenExactly(registered: bool, steps: seq<Step>)
    requires Feasible(Init(registered), steps)
    ensures NeverForgets(Init(registered), steps) <==> NeverStrands(Init(registered), steps)
    ensures var s := Run(Init(registered), steps);
      NeverStrands(Init(registered), steps) && Returning(s) ==> s.pending == []
  {
    hide Inv, NeverForgets, NeverStrands, Run, Feasible;
    InitInv(registered);
    RunForgets(Init(registered), steps);
    if NeverStrands(Init(registered), steps) && Returning(Run(Init(registered), steps)) {
      ReturnsClear(Run(Init(registered), steps));
    }
  }

  lemma {:induction false} Unregistered(s: State, steps: seq<Step>)
    requires Feasible(s, steps) && !s.registered && Register !in steps
    ensures NeverStrands(s, steps)
    decreases |steps|
  {
    if steps != [] {
      assert steps[0] in steps;
      Unregistered(Apply(s, steps[0]), steps[1..]);
    }
  }

  /** So a context that is not in the event loop leaves none behind, whether its connection is lost and restored or not. */
  lemma NothingPendingEver(steps: seq<Step>)
    requires Feasible(Init(false), steps) && Register !in steps
    ensures var s := Run(Init(false), steps);
      Returning(s) ==> s.pending == []
  {
    hide Feasible, Run, NeverForgets, NeverStrands;
    Unregistered(Init(false), steps);
    ForgottenExactly(false, steps);
  }

  // ----- a context in the event loop -----

  ghost predicate Reaches(steps: seq<Step>, t: State) {
    Feasible(Init(true), steps) && Run(Init(true), steps) == t
  }

  lemma {:induction false} RunMore(s: State, steps: seq<Step>, step: Step)
    requires Feasible(s, steps) && Enabled(Run(s, steps), step)
    ensures Feasible(s, steps + [step]) && Run(s, steps + [step]) == Apply(Run(s, steps), step)
    decreases |steps|
  {
    hide Enabled, Apply;
    if steps == [] {
      assert [] + [step] == [step] && [step][1..] == [];
    } else {
      RunMore(Apply(s, steps[0]), steps[1..], step);
      assert (steps + [step])[1..] == steps[1..] + [step];
    }
  }

  lemma More(steps: seq<Step>, s: State, step: Step) returns (longer: seq<Step>)
    requires Reaches(steps, s) && Enabled(s, step)
    ensures Reaches(longer, Apply(s, step))
  {
    hide Feasible, Run;
    longer := steps + [step];
    RunMore(Init(true), steps, step);
  }

  /** The connection has been lost, and the application hears of it. */
  function Hearing(): State {
    State(Push(Callback, Push(HandleData(Lost), Empty)), 0, [], false, true, true, [], [])
  }

  function Losing(): State {
    State(Push(HandleData(After), Empty), 0, [], false, true, true, [], [])
  }

  lemma ToLosing() returns (steps: seq<Step>)
    ensures Reaches(steps, Losing())
  {
    hide Reaches;
    assert Reaches([], Init(true)) by { ReachesInit(); }
    var s := Init(true);
    steps := More([], s, Readable); s := Apply(s, Readable);
    steps := More(steps, s, EnterLoop); s := Apply(s, EnterLoop);
    steps := More(steps, s, Drain); s := Apply(s, Drain);
    steps := More(steps, s, NoMessage(true)); s := Apply(s, NoMessage(true));
    assert s == Losing();
  }

  lemma ToHearing() returns (steps: seq<Step>)
    ensures Reaches(steps, Hearing())
  {
    hide Reaches;
    steps := ToLosing();
    var s := Losing();
    steps := More(steps, s, LeaveLoop); s := Apply(s, LeaveLoop);
    steps := More(steps, s, Drain); s := Apply(s, Drain);
    steps := More(steps, s, ReturnFromHandle); s := Apply(s, ReturnFromHandle);
    steps := More(steps, s, LostCallback); s := Apply(s, LostCallback);
    assert s == Hearing();
  }

  lemma ReachesInit()
    ensures Reaches([], Init(true))
  {
  }

  /** It has reconnected, and makes a request, during which a call arrives. */
  function Asking(): State {
    State(Push(HandleData(Check), Push(Synchronous(Polling), Push(Callback, Push(HandleData(Lost), Empty)))),
          1, [7], false, false, true, [7], [])
  }

  lemma ToAsking() returns (steps: seq<Step>)
    ensures Reaches(steps, Asking())
  {
    hide Reaches;
    steps := ToHearing();
    var s := Hearing();
    steps := More(steps, s, Reconnect); s := Apply(s, Reconnect);
    steps := More(steps, s, Register); s := Apply(s, Register);
    steps := More(steps, s, AppSync); s := Apply(s, AppSync);
    steps := More(steps, s, Poll); s := Apply(s, Poll);
    steps := More(steps, s, EnterLoop); s := Apply(s, EnterLoop);
    steps := More(steps, s, ObjectMessage(7)); s := Apply(s, ObjectMessage(7));
    assert s.pending == [7] && s.arrived == [7];
    assert s == Asking();
  }

  function Asked(): State {
    State(Push(Synchronous(Completed), Push(Callback, Push(HandleData(Lost), Empty))), 0, [7], false, false, true, [7], [])
  }

  lemma ToAsked() returns (steps: seq<Step>)
    ensures Reaches(steps, Asked())
  {
    hide Reaches;
    steps := ToAsking();
    var s := Asking();
    steps := More(steps, s, LoopCheck(true)); s := Apply(s, LoopCheck(true));
    steps := More(steps, s, LeaveLoop); s := Apply(s, LeaveLoop);
    steps := More(steps, s, ReturnFromHandle); s := Apply(s, ReturnFromHandle);
    steps := More(steps, s, RequestDone); s := Apply(s, RequestDone);
    assert s == Asked();
  }

  /** A context in the event loop can return with a message pending, on a connection that was restored in the callback
      that reported its loss: the message waits for the timer. */
  lemma PendingAfterReconnect() returns (steps: seq<Step>, s: State)
    ensures Reaches(steps, s)
    ensures On(s, HandleData(Lost)) && s.depth == 0 && !s.eof && s.registered && s.pending == [7]
    ensures Enabled(s, ReturnFromHandle) && Apply(s, ReturnFromHandle).stack == Empty
  {
    hide Reaches;
    steps := ToAsked();
    s := Asked();
    steps := More(steps, s, CompleteCallback(false)); s := Apply(s, CompleteCallback(false));
    steps := More(steps, s, LeaveRequest); s := Apply(s, LeaveRequest);
    steps := More(steps, s, ReturnFromRequest); s := Apply(s, ReturnFromRequest);
    steps := More(steps, s, CallbackReturns); s := Apply(s, CallbackReturns);
  }
}
