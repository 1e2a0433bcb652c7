/**
 Runs of a connection: calls from any thread, readiness reports, and tasks of its loop, in any
 order in which tasks submitted may come to run. `inflight` holds the tasks submitted and not yet
 run; that a loop runs them first come, first served is not needed here.
 */
module ConnectionRuns {
  import opened Base
  import opened ConnectionSpec
  import opened Growth

  datatype Reactor = Reactor(conn: Conn, inflight: multiset<Task>)

  datatype Step =
    | Announce(task: Task)
    | OffLoop(call: Call)
    | Run(task: Task, env: Env)

  ghost predicate Init(r: Reactor) {
    r == Reactor(FRESH, multiset{StartTask})
  }

  /** The kernel reports readiness for what is in the interest mask, and errors and hang-ups always. */
  predicate Reported(c: Conn, ready: Ready) {
    && c.registered
    && (ready.input || ready.prior ==> c.readable)
    && !ready.readHangUp
    && (ready.output ==> c.writable)
  }

  predicate MayAnnounce(c: Conn, task: Task) {
    task.SendTask? || task.ForeignTask? || (task.EventTask? && Reported(c, task.ready))
  }

  /** The tasks a handler submitted leave the connection for the loop. */
  function Collect(c: Conn, inflight: multiset<Task>): Reactor {
    Reactor(c.(submitted := []), inflight + multiset(c.submitted))
  }

  predicate NoSend(calls: seq<Call>) {
    forall call | call in calls :: !call.CallSend?
  }

  ghost predicate Next(r: Reactor, s: Step, r': Reactor) {
    && !r.conn.exited
    && match s
       case Announce(task) => MayAnnounce(r.conn, task) && r' == r.(inflight := r.inflight + multiset{task})
       case OffLoop(call) => !call.CallSend? && r' == Collect(RunCall(r.conn, call), r.inflight)
       case Run(task, env) =>
         // other threads reach `Send` only through the queue
         task in r.inflight && NoSend(env.gapRead) && NoSend(env.gapHangUp) &&
         r' == Collect(RunTask(r.conn, task, env), r.inflight - multiset{task})
  }

  ghost predicate RunOf(rs: seq<Reactor>, steps: seq<Step>) {
    && |rs| == |steps| + 1
    && Init(rs[0])
    && forall i | 0 <= i < |steps| :: Linked(rs, steps, i)
  }

  /** The `i`th step leads from the `i`th state to the one after it. */
  ghost predicate Linked(rs: seq<Reactor>, steps: seq<Step>, i: nat)
    requires i < |steps| < |rs|
  {
    Next(rs[i], steps[i], rs[i + 1])
  }

  lemma RunOfExtends(rs: seq<Reactor>, steps: seq<Step>, step: Step, r': Reactor)
    requires RunOf(rs, steps) && Next(rs[|steps|], step, r')
    ensures RunOf(rs + [r'], steps + [step])
  {
    forall i | 0 <= i < |steps + [step]| ensures Linked(rs + [r'], steps + [step], i) {
      assert i < |steps| ==> Linked(rs, steps, i);
    }
  }

  // ---------- what holds throughout ----------

  function Flatten(accepted: seq<Accepted>): Bytes {
    if accepted == [] then [] else Flatten(accepted[..|accepted| - 1]) + accepted[|accepted| - 1].msg
  }

  /** Reads and write completions come only after the connection was announced to its handler. */
  ghost predicate ConnectFirst(log: seq<Effect>) {
    forall i | 0 <= i < |log| && (log[i].OnRead? || log[i].OnWriteComplete?) :: OnConnect in log[..i]
  }

  function Closings(m: multiset<Task>): nat {
    m[CloseTask] + m[RemoveTask]
  }

  predicate NeedsConnect(ready: Ready) {
    ready.input || ready.prior || ready.readHangUp || ready.output
  }

  /** A task that may be in flight in this state of the connection. */
  predicate Timely(c: Conn, task: Task) {
    match task
    case EventTask(ready) => NeedsConnect(ready) ==> OnConnect in c.log
    case ShutdownTask(_) => Closing(c.state)
    case ForceShutdownTask => Closing(c.state)
    case CloseTask => c.past.overtaken || c.state == Disconnected
    case RemoveTask => c.past.overtaken || c.state == Disconnected
    case _ => true
  }

  /** The state goes from `a` to `b` forward, or `a` is the last. */
  predicate Follows(a: TcpState, b: TcpState) {
    a == Disconnected || Rank(a) <= Rank(b)
  }

  /** Step by step forward, unless from the last state. */
  predicate Trail(trail: seq<TcpState>) {
    |trail| <= 1 || (Trail(trail[..|trail| - 1]) && Follows(trail[|trail| - 2], trail[|trail| - 1]))
  }

  /** Something follows the last state. */
  predicate Late(trail: seq<TcpState>) {
    |trail| > 1 && (Late(trail[..|trail| - 1]) || trail[|trail| - 2] == Disconnected)
  }

  predicate TrailInv(state: TcpState, past: Past) {
    && past.trail != [] && past.trail[|past.trail| - 1] == state
    && Trail(past.trail) && past.overtaken == Late(past.trail)
  }

  /** `m` are the tasks in flight apart from those the running handler has submitted. */
  ghost predicate Core(c: Conn, m: multiset<Task>) {
    && Flatten(c.accepted) == c.wire + c.output
    && (c.state == Connected || c.readable || c.writable ==> c.registered && OnConnect in c.log)
    && (c.shut ==> Closing(c.state))
    && multiset(c.log)[OnConnect] <= (if c.state == Connecting then 0 else 1)
    && ConnectFirst(c.log)
    && multiset(c.log)[ContextCleared] <= multiset(c.log)[OnClose]
    && TrailInv(c.state, c.past)
    && (forall t | t in m :: Timely(c, t))
    && (forall t | t in c.submitted :: Timely(c, t))
  }

  /** Closing tasks in flight, told to the handler, or finding bytes waiting; `owed` are those being run. */
  function Given(c: Conn, m: multiset<Task>, owed: nat): nat {
    multiset(c.log)[OnClose] + Closings(m) + Closings(multiset(c.submitted)) + c.past.unheard + owed
  }

  /** Each time the state became the last one, one closing task was given out; the end of the process may lose it. */
  predicate Balanced(c: Conn, m: multiset<Task>, owed: nat) {
    var entered := multiset(c.past.trail)[Disconnected];
    Given(c, m, owed) <= entered && (c.exited || Given(c, m, owed) == entered)
  }

  ghost predicate Safe(c: Conn, m: multiset<Task>) {
    Core(c, m) && Balanced(c, m, 0)
  }

  // ---------- every handler keeps it ----------

  lemma LogKeepsCore(c: Conn, m: multiset<Task>, e: Effect)
    requires Core(c, m)
    requires e == OnConnect ==> multiset(c.log)[OnConnect] == 0 && c.state != Connecting
    requires e.OnRead? || e.OnWriteComplete? ==> OnConnect in c.log
    requires e == ContextCleared ==> multiset(c.log)[ContextCleared] < multiset(c.log)[OnClose]
    ensures Core(Log(c, e), m)
  {
    ConnectFirstExtends(c.log, e);
    forall t | Timely(c, t) ensures Timely(Log(c, e), t) {
      assert OnConnect in c.log ==> OnConnect in Log(c, e).log;
    }
  }

  lemma LogKeeps(c: Conn, m: multiset<Task>, e: Effect)
    requires Safe(c, m) && e != OnClose
    requires e == OnConnect ==> multiset(c.log)[OnConnect] == 0 && c.state != Connecting
    requires e.OnRead? || e.OnWriteComplete? ==> OnConnect in c.log
    requires e == ContextCleared ==> multiset(c.log)[ContextCleared] < multiset(c.log)[OnClose]
    ensures Safe(Log(c, e), m)
  {
    LogKeepsCore(c, m, e);
  }

  lemma ConnectFirstExtends(log: seq<Effect>, e: Effect)
    requires ConnectFirst(log) && (e.OnRead? || e.OnWriteComplete? ==> OnConnect in log)
    ensures ConnectFirst(log + [e])
  {
    var more := log + [e];
    assert forall i | 0 <= i < |log| :: more[..i] == log[..i];
    assert more[..|log|] == log;
  }

  lemma FlattenAppend(accepted: seq<Accepted>, a: Accepted)
    ensures Flatten(accepted + [a]) == Flatten(accepted) + a.msg
  {
    assert (accepted + [a])[..|accepted|] == accepted;
  }

  lemma StreamExtends(accepted: seq<Accepted>, wire: Bytes, output: Bytes, a: Accepted)
    requires Flatten(accepted) == wire + output
    ensures Flatten(accepted + [a]) == wire + (output + a.msg)
  {
    FlattenAppend(accepted, a);
  }

  lemma AcceptKeeps(c: Conn, m: multiset<Task>, sender: Option<Tid>, msg: Bytes, capacity: nat)
    requires Safe(c, m) && c.state == Connected
    ensures Safe(c.(output := c.output + msg, capacity := capacity, accepted := c.accepted + [Accepted(sender, msg)],
                    writable := true), m)
  {
    StreamExtends(c.accepted, c.wire, c.output, Accepted(sender, msg));
  }

  lemma ExitKeeps(c: Conn, m: multiset<Task>)
    requires Safe(c, m)
    ensures Safe(c.(exited := true), m)
  {
  }

  lemma HandleSendKeeps(c: Conn, m: multiset<Task>, sender: Option<Tid>, msg: Bytes, granted: bool, named: bool)
    requires Safe(c, m)
    ensures Safe(HandleSend(c, sender, msg, granted, named), m)
  {
    ExitKeeps(c, m);
    if c.state == Connected { AcceptKeeps(c, m, sender, msg, LengthAfter(c.capacity, |c.output|, |msg|)); }
  }

  lemma TrailMoves(c: Conn, s: TcpState)
    requires TrailInv(c.state, c.past) && Follows(c.state, s)
    ensures TrailInv(s, Moved(c, s).past)
  {
    assert (c.past.trail + [s])[..|c.past.trail|] == c.past.trail;
  }

  lemma TimelyMoves(c: Conn, s: TcpState, t: Task)
    requires Closing(s) && Timely(c, t)
    ensures Timely(Moved(c, s), t)
  {
  }

  lemma CoreMoves(c: Conn, m: multiset<Task>, s: TcpState)
    requires Core(c, m) && Closing(s)
    ensures Core(Moved(c, s), m)
  {
    TrailMoves(c, s);
    forall t | t in m ensures Timely(Moved(c, s), t) { TimelyMoves(c, s, t); }
    forall t | t in c.submitted ensures Timely(Moved(c, s), t) { TimelyMoves(c, s, t); }
  }

  lemma SubmitKeepsCore(c: Conn, m: multiset<Task>, t: Task)
    requires Core(c, m) && Timely(c, t)
    ensures Core(Submit(c, t), m)
  {
  }

  lemma MovedBalance(c: Conn, m: multiset<Task>, s: TcpState, t: Task)
    requires Balanced(c, m, 0) && !c.exited
    requires s == Disconnected <==> t == CloseTask || t == RemoveTask
    ensures Balanced(Submit(Moved(c, s), t), m, 0)
  {
  }

  /** The state moves on to closing or to the last one, and the task for it is given out. */
  lemma MovedKeeps(c: Conn, m: multiset<Task>, s: TcpState, t: Task)
    requires Safe(c, m) && !c.exited
    requires if s == Disconnected then t == CloseTask || t == RemoveTask
             else s == Disconnecting && (t.ShutdownTask? || t == ForceShutdownTask)
    ensures Safe(Submit(Moved(c, s), t), m)
  {
    CoreMoves(c, m, s);
    SubmitKeepsCore(Moved(c, s), m, t);
    MovedBalance(c, m, s, t);
  }

  lemma CheckedKeeps(c: Conn, m: multiset<Task>, checked: Checked)
    requires Safe(c, m)
    ensures Safe(c.(checked := checked), m)
  {
  }

  lemma StoreShutKeeps(c: Conn, m: multiset<Task>)
    requires Safe(c, m)
    ensures Safe(StoreShut(c), m)
  {
    if !c.exited && c.checked.shuts > 0 {
      var c1 := OneShutLess(c);
      CheckedKeeps(c, m, c1.checked);
      MovedKeeps(c1, m, Disconnecting, ForceShutdownTask);
    }
  }

  lemma StoreCloseKeeps(c: Conn, m: multiset<Task>)
    requires Safe(c, m)
    ensures Safe(StoreClose(c), m)
  {
    if !c.exited && c.checked.closes > 0 {
      var c1 := OneCloseLess(c);
      CheckedKeeps(c, m, c1.checked);
      MovedKeeps(c1, m, Disconnected, RemoveTask);
    }
  }

  lemma CheckShutKeeps(c: Conn, m: multiset<Task>)
    requires Safe(c, m)
    ensures Safe(CheckShut(c), m)
  {
    CheckedKeeps(c, m, c.checked.(shuts := c.checked.shuts + 1));
  }

  lemma CheckCloseKeeps(c: Conn, m: multiset<Task>, named: bool)
    requires Safe(c, m)
    ensures Safe(CheckClose(c, named), m)
  {
    ExitKeeps(c, m);
    if named { CheckedKeeps(c, m, c.checked.(closes := c.checked.closes + 1)); }
  }

  lemma CloseKeeps(c: Conn, m: multiset<Task>)
    requires Safe(c, m)
    ensures Safe(Close(c), m)
  {
    if !c.exited && c.state == Connected { MovedKeeps(c, m, Disconnected, CloseTask); }
  }

  lemma ShutdownKeeps(c: Conn, m: multiset<Task>, closeRead: bool)
    requires Safe(c, m)
    ensures Safe(Shutdown(c, closeRead), m)
  {
    if !c.exited && c.state == Connected { MovedKeeps(c, m, Disconnecting, ShutdownTask(closeRead)); }
  }

  lemma RunCallKeeps(c: Conn, m: multiset<Task>, call: Call)
    requires Safe(c, m)
    ensures Safe(RunCall(c, call), m)
  {
    match call
    case CallSend(msg, granted, named) => HandleSendKeeps(c, m, None, msg, granted, named);
    case CallClose => CloseKeeps(c, m);
    case CallShutdown(closeRead) => ShutdownKeeps(c, m, closeRead);
    case CheckForceShutdown => CheckShutKeeps(c, m);
    case StoreForceShutdown => StoreShutKeeps(c, m);
    case CheckForceClose(named) => CheckCloseKeeps(c, m, named);
    case StoreForceClose => StoreCloseKeeps(c, m);
  }

  lemma {:induction false} RunCallsKeep(c: Conn, m: multiset<Task>, calls: seq<Call>)
    requires Safe(c, m)
    ensures Safe(RunCalls(c, calls), m)
    decreases |calls|
  {
    if calls != [] {
      RunCallKeeps(c, m, calls[0]);
      RunCallsKeep(RunCall(c, calls[0]), m, calls[1..]);
    }
  }

  lemma CallbackKeeps(c: Conn, m: multiset<Task>, e: Effect, calls: seq<Call>)
    requires Safe(c, m)
    requires !c.exited && e == OnConnect ==> multiset(c.log)[OnConnect] == 0 && c.state != Connecting
    requires e.OnRead? || e.OnWriteComplete? ==> c.exited || OnConnect in c.log
    requires e != OnClose && e != ContextCleared
    ensures Safe(Callback(c, e, calls), m)
    ensures e == OnConnect && !c.exited ==> OnConnect in Callback(c, e, calls).log
    ensures c.registered ==> Callback(c, e, calls).registered
  {
    if !c.exited {
      LogKeeps(c, m, e);
      RunCallsKeep(Log(c, e), m, calls);
      RunCallsGrow(Log(c, e), calls);
    }
  }

  lemma HandleReadKeeps(c: Conn, m: multiset<Task>, env: Env)
    requires Safe(c, m) && OnConnect in c.log
    ensures Safe(HandleRead(c, env), m)
  {
    if !c.exited {
      match env.read
      case WouldBlock =>
      case ReadFailed => CallbackKeeps(c, m, OnError, env.onReadError);
      case Received(bytes) =>
        if bytes != [] {
          CallbackKeeps(c, m, OnRead(bytes), env.onRead);
        } else {
          HandleCloseKeeps(c, m, env.named, env.gapRead);
        }
    }
  }

  lemma FinishWriteKeeps(c: Conn, m: multiset<Task>, env: Env)
    requires Safe(c, m) && OnConnect in c.log
    ensures Safe(FinishWrite(c, env), m)
  {
    var c0 := SetWritable(c, false);
    assert Safe(c0, m);
    CallbackKeeps(c0, m, OnWriteComplete, env.onWriteComplete);
    var c1 := Callback(c0, OnWriteComplete, env.onWriteComplete);
    if c1.state == Disconnecting { SocketShutKeeps(c1, m, false, env.shutOk); }
  }

  lemma SocketShutKeeps(c: Conn, m: multiset<Task>, closeRead: bool, ok: bool)
    requires Safe(c, m) && Closing(c.state)
    ensures Safe(SocketShut(c, closeRead, ok), m)
  {
    if !c.exited && ok {
      var c1 := c.(shut := true);
      assert Safe(c1, m);
      LogKeeps(c1, m, SocketShutdown(closeRead));
    }
  }

  lemma WrittenKeeps(c: Conn, m: multiset<Task>, k: nat)
    requires Safe(c, m)
    ensures Safe(Written(c, k), m)
  {
    var c1 := Written(c, k);
    assert c1.wire + c1.output == c.wire + c.output;
  }

  lemma HandleWriteKeeps(c: Conn, m: multiset<Task>, env: Env)
    requires Safe(c, m)
    ensures Safe(HandleWrite(c, env), m)
  {
    if !c.exited && c.writable {
      if c.output == [] {
        FinishWriteKeeps(c, m, env);
      } else {
        match WriteAnswer(c.shut, env.write)
        case WriteFailed => CallbackKeeps(c, m, OnError, env.onWriteError);
        case WriteKilled =>
        case Wrote(k) =>
          WrittenKeeps(c, m, k);
          if Written(c, k).output == [] { FinishWriteKeeps(Written(c, k), m, env); }
      }
    }
  }

  lemma CallNeverLogs(c: Conn, call: Call)
    ensures RunCall(c, call).log == c.log
  {
  }

  /** Calls tell the handler nothing. */
  lemma {:induction false} CallsNeverLog(c: Conn, calls: seq<Call>)
    ensures RunCalls(c, calls).log == c.log
    decreases |calls|
  {
    if calls != [] {
      CallNeverLogs(c, calls[0]);
      CallsNeverLog(RunCall(c, calls[0]), calls[1..]);
    }
  }

  /** A closing task is run: the handler is told, or the process ends. */
  lemma HandleRemoveKeeps(c: Conn, m: multiset<Task>, env: Env)
    requires Core(c, m) && Balanced(c, m, 1)
    ensures Safe(HandleRemove(c, env), m)
  {
    if !c.exited && c.state == Disconnected {
      var c1 := Log(c, OnClose);
      LogKeepsCore(c, m, OnClose);
      RunCallsKeep(c1, m, env.onClose);
      CallsNeverLog(c1, env.onClose);
      var c2 := RunCalls(c1, env.onClose);
      if !c2.exited { LogKeeps(c2, m, ContextCleared); }
    }
  }

  lemma UnheardKeepsCore(c: Conn, m: multiset<Task>)
    requires Core(c, m)
    ensures Core(Unheard(c), m)
  {
  }

  lemma UnheardKeeps(c: Conn, m: multiset<Task>)
    requires Core(c, m) && Balanced(c, m, 1)
    ensures Safe(Unheard(c), m)
  {
    UnheardKeepsCore(c, m);
  }

  lemma HandleCloseKeeps(c: Conn, m: multiset<Task>, named: bool, gap: seq<Call>)
    requires Safe(c, m)
    ensures Safe(HandleClose(c, named, gap), m)
  {
    if !c.exited && c.state != Disconnected && named {
      RunCallsKeep(c, m, gap);
      var c1 := RunCalls(c, gap);
      if !c1.exited { MovedKeeps(c1, m, Disconnected, RemoveTask); }
    }
  }

  lemma HandleEventsKeeps(c: Conn, m: multiset<Task>, ready: Ready, env: Env)
    requires Safe(c, m) && (NeedsConnect(ready) ==> OnConnect in c.log)
    ensures Safe(HandleEvents(c, ready, env), m)
  {
    var c1 := ReadPart(c, ready, env);
    if ready.input || ready.prior || ready.readHangUp { HandleReadKeeps(c, m, env); }
    var c2 := WritePart(c1, ready, env);
    if ready.output { HandleWriteKeeps(c1, m, env); }
    var c3 := ErrorPart(c2, ready, env);
    if ready.error { CallbackKeeps(c2, m, OnError, env.onError); }
    HandleCloseKeeps(c3, m, env.named, env.gapHangUp);
  }

  lemma HandleStartKeeps(c: Conn, m: multiset<Task>, env: Env)
    requires Safe(c, m)
    ensures Safe(HandleStart(c, env), m)
  {
    var c1 := Printed(c.(registered := true), env.named);
    RegisteredKeeps(c, m);
    ExitKeeps(c.(registered := true), m);
    if !c1.exited && c1.state == Connecting { OpenedKeeps(c1, m, env); }
  }

  lemma RegisteredKeeps(c: Conn, m: multiset<Task>)
    requires Safe(c, m)
    ensures Safe(c.(registered := true), m)
  {
  }

  /** One step marks the connection open and tells its handler. */
  lemma OpenedKeeps(c: Conn, m: multiset<Task>, env: Env)
    requires Safe(c, m) && c.state == Connecting && c.registered && !c.exited
    ensures var c' := Callback(Moved(c, Connected), OnConnect, env.onConnect);
            Safe(c', m) && (c'.exited || Safe(c'.(readable := true), m))
  {
    var c1 := Log(Moved(c, Connected), OnConnect);
    OpenKeeps(c, m);
    assert OnConnect in c1.log;
    RunCallsKeep(c1, m, env.onConnect);
    RunCallsGrow(c1, env.onConnect);
    ReadableKeeps(RunCalls(c1, env.onConnect), m);
  }

  lemma ReadableKeeps(c: Conn, m: multiset<Task>)
    requires Safe(c, m) && c.registered && OnConnect in c.log
    ensures Safe(c.(readable := true), m)
  {
  }

  lemma OpenKeeps(c: Conn, m: multiset<Task>)
    requires Safe(c, m) && c.state == Connecting && c.registered
    ensures Safe(Log(Moved(c, Connected), OnConnect), m)
  {
    TrailMoves(c, Connected);
    ConnectFirstExtends(c.log, OnConnect);
    var c1 := Log(Moved(c, Connected), OnConnect);
    assert OnConnect in c1.log;
  }

  lemma RunTaskKeeps(c: Conn, inflight: multiset<Task>, task: Task, env: Env)
    requires Safe(c, inflight) && c.submitted == [] && task in inflight && !c.exited
    ensures Safe(RunTask(c, task, env), inflight - multiset{task})
  {
    var m := inflight - multiset{task};
    SafeWithout(c, inflight, task);
    match task
    case StartTask => HandleStartKeeps(c, m, env);
    case SendTask(sender, msg) => HandleSendKeeps(c, m, Some(sender), msg, env.granted, env.named);
    case EventTask(ready) => HandleEventsKeeps(c, m, ready, env);
    case CloseTask => if c.output == [] { HandleRemoveKeeps(c, m, env); } else { UnheardKeeps(c, m); }
    case RemoveTask => HandleRemoveKeeps(c, m, env);
    case ShutdownTask(closeRead) => ShutNowKeeps(c, m, closeRead, env);
    case ForceShutdownTask => ShutNowKeeps(c, m, false, env);
    case ForeignTask => RunCallsKeep(c, m, env.onForeign);
  }

  /** With one task taken out to be run, a closing one is owed. */
  lemma SafeWithout(c: Conn, inflight: multiset<Task>, task: Task)
    requires Safe(c, inflight) && task in inflight
    ensures var m := inflight - multiset{task};
            && Core(c, m) && Timely(c, task)
            && Balanced(c, m, if task == CloseTask || task == RemoveTask then 1 else 0)
  {
    assert inflight == inflight - multiset{task} + multiset{task};
  }

  lemma ShutNowKeeps(c: Conn, m: multiset<Task>, closeRead: bool, env: Env)
    requires Safe(c, m) && Closing(c.state)
    ensures Safe(ShutNow(c, closeRead, env), m)
  {
    var c1 := SetWritable(Printed(c, env.named), false);
    assert Safe(c1, m);
    SocketShutKeeps(c1, m, closeRead, env.shutOk);
  }

  // ---------- nothing is taken back ----------

  /** Connecting, open, closing: this order is never left, whatever overtakes what. */
  function Stage(s: TcpState): nat {
    match s
    case Connecting => 0
    case Connected => 1
    case Disconnecting => 2
    case Disconnected => 2
  }

  /**
   Histories only grow; nothing is accepted once closing began, nothing written once the socket has
   been shut down; and the state only moves forward unless a store was overtaken.
   */
  ghost predicate Grows(c: Conn, c': Conn) {
    && Stage(c.state) <= Stage(c'.state)
    && (!c'.past.overtaken ==> !c.past.overtaken && Rank(c.state) <= Rank(c'.state))
    && c.past.trail <= c'.past.trail && c.past.unheard <= c'.past.unheard
    && c.log <= c'.log && c.wire <= c'.wire && c.accepted <= c'.accepted
    && (c.registered ==> c'.registered)
    && (c.exited ==> c'.exited)
    && (Closing(c.state) ==> c'.accepted == c.accepted)
    && (c.shut ==> c'.shut && c'.wire == c.wire)
  }

  lemma MovedGrows(c: Conn, s: TcpState, t: Task)
    requires Closing(s) && Follows(c.state, s)
    ensures Grows(c, Submit(Moved(c, s), t))
  {
  }

  lemma CheckedGrows(c: Conn, checked: Checked)
    ensures Grows(c, c.(checked := checked))
  {
  }

  lemma StoreShutGrows(c: Conn)
    ensures Grows(c, StoreShut(c))
  {
    if !c.exited && c.checked.shuts > 0 {
      var c1 := OneShutLess(c);
      CheckedGrows(c, c1.checked);
      MovedGrows(c1, Disconnecting, ForceShutdownTask);
      GrowsOn(c, c1, StoreShut(c));
    }
  }

  lemma StoreCloseGrows(c: Conn)
    ensures Grows(c, StoreClose(c))
  {
    if !c.exited && c.checked.closes > 0 {
      var c1 := OneCloseLess(c);
      CheckedGrows(c, c1.checked);
      MovedGrows(c1, Disconnected, RemoveTask);
      GrowsOn(c, c1, StoreClose(c));
    }
  }

  lemma CloseGrows(c: Conn)
    ensures Grows(c, Close(c))
  {
    if c.state == Connected { MovedGrows(c, Disconnected, CloseTask); }
  }

  lemma ShutdownGrows(c: Conn, closeRead: bool)
    ensures Grows(c, Shutdown(c, closeRead))
  {
    if c.state == Connected { MovedGrows(c, Disconnecting, ShutdownTask(closeRead)); }
  }

  lemma ChecksGrow(c: Conn, named: bool)
    ensures Grows(c, CheckShut(c)) && Grows(c, CheckClose(c, named))
  {
    CheckedGrows(c, c.checked.(shuts := c.checked.shuts + 1));
    CheckedGrows(c, c.checked.(closes := c.checked.closes + 1));
  }

  lemma RunCallGrows(c: Conn, call: Call)
    ensures Grows(c, RunCall(c, call))
  {
    match call
    case CallSend(msg, granted, named) => HandleSendGrows(c, None, msg, granted, named);
    case CallClose => CloseGrows(c);
    case CallShutdown(closeRead) => ShutdownGrows(c, closeRead);
    case CheckForceShutdown => ChecksGrow(c, true);
    case StoreForceShutdown => StoreShutGrows(c);
    case CheckForceClose(named) => ChecksGrow(c, named);
    case StoreForceClose => StoreCloseGrows(c);
  }

  lemma {:induction false} RunCallsGrow(c: Conn, calls: seq<Call>)
    ensures Grows(c, RunCalls(c, calls))
    ensures forall e | e in c.log :: e in RunCalls(c, calls).log
    decreases |calls|
  {
    if calls != [] {
      RunCallGrows(c, calls[0]);
      RunCallsGrow(RunCall(c, calls[0]), calls[1..]);
    }
  }

  lemma CallbackGrows(c: Conn, e: Effect, calls: seq<Call>)
    ensures Grows(c, Callback(c, e, calls))
  {
    if !c.exited { RunCallsGrow(Log(c, e), calls); }
  }

  lemma HandleReadGrows(c: Conn, env: Env)
    ensures Grows(c, HandleRead(c, env))
  {
    HandleCloseGrows(c, env.named, env.gapRead);
    if env.read.Received? { CallbackGrows(c, OnRead(env.read.bytes), env.onRead); }
    CallbackGrows(c, OnError, env.onReadError);
  }

  lemma ReadPartGrows(c: Conn, ready: Ready, env: Env)
    ensures Grows(c, ReadPart(c, ready, env))
  {
    HandleReadGrows(c, env);
  }

  lemma WritePartGrows(c: Conn, ready: Ready, env: Env)
    ensures Grows(c, WritePart(c, ready, env))
  {
    HandleWriteGrows(c, env);
  }

  lemma DisconnectNowGrows(c: Conn)
    ensures Grows(c, DisconnectNow(c))
  {
  }

  lemma HandleCloseGrows(c: Conn, named: bool, gap: seq<Call>)
    ensures Grows(c, HandleClose(c, named, gap))
  {
    RunCallsGrow(c, gap);
    DisconnectNowGrows(RunCalls(c, gap));
    GrowsOn(c, RunCalls(c, gap), DisconnectNow(RunCalls(c, gap)));
  }

  lemma LastPartsGrow(c: Conn, ready: Ready, env: Env)
    ensures Grows(c, HangUpPart(ErrorPart(c, ready, env), ready, env))
  {
    var c1 := ErrorPart(c, ready, env);
    CallbackGrows(c, OnError, env.onError);
    HandleCloseGrows(c1, env.named, env.gapHangUp);
    GrowsOn(c, c1, HangUpPart(c1, ready, env));
  }

  lemma GrowsOn(a: Conn, b: Conn, c: Conn)
    requires Grows(a, b) && Grows(b, c)
    ensures Grows(a, c)
  {
  }

  lemma HandleEventsGrows(c: Conn, ready: Ready, env: Env)
    ensures Grows(c, HandleEvents(c, ready, env))
  {
    var c1 := ReadPart(c, ready, env);
    var c2 := WritePart(c1, ready, env);
    ReadPartGrows(c, ready, env);
    WritePartGrows(c1, ready, env);
    GrowsOn(c, c1, c2);
    LastPartsGrow(c2, ready, env);
    GrowsOn(c, c2, HandleEvents(c, ready, env));
  }

  lemma WrittenGrows(c: Conn, k: nat)
    requires !c.shut
    ensures Grows(c, Written(c, k))
  {
  }

  lemma HandleWriteGrows(c: Conn, env: Env)
    ensures Grows(c, HandleWrite(c, env))
  {
    CallbackGrows(c, OnError, env.onWriteError);
    FinishWriteGrows(c, env);
    if !c.shut && env.write.Wrote? {
      var c1 := Written(c, env.write.n);
      WrittenGrows(c, env.write.n);
      FinishWriteGrows(c1, env);
      GrowsOn(c, c1, FinishWrite(c1, env));
    }
  }

  lemma FinishWriteGrows(c: Conn, env: Env)
    ensures Grows(c, FinishWrite(c, env))
  {
    CallbackGrows(SetWritable(c, false), OnWriteComplete, env.onWriteComplete);
  }

  lemma OpeningGrows(c: Conn)
    requires c.state == Connecting
    ensures Grows(c, Moved(c.(registered := true), Connected))
  {
  }

  lemma HandleStartGrows(c: Conn, env: Env)
    ensures Grows(c, HandleStart(c, env))
  {
    if !c.exited && env.named && c.state == Connecting {
      var c1 := Moved(c.(registered := true), Connected);
      OpeningGrows(c);
      CallbackGrows(c1, OnConnect, env.onConnect);
      GrowsOn(c, c1, Callback(c1, OnConnect, env.onConnect));
    }
  }

  lemma HandleRemoveGrows(c: Conn, env: Env)
    ensures Grows(c, HandleRemove(c, env))
  {
    CallbackGrows(c, OnClose, env.onClose);
  }

  lemma SocketShutGrows(c: Conn, closeRead: bool, ok: bool)
    ensures Grows(c, SocketShut(c, closeRead, ok))
  {
  }

  lemma DropInterestGrows(c: Conn, named: bool)
    ensures Grows(c, SetWritable(Printed(c, named), false))
  {
  }

  lemma ShutNowGrows(c: Conn, closeRead: bool, env: Env)
    ensures Grows(c, ShutNow(c, closeRead, env))
  {
    var c1 := SetWritable(Printed(c, env.named), false);
    DropInterestGrows(c, env.named);
    SocketShutGrows(c1, closeRead, env.shutOk);
    GrowsOn(c, c1, SocketShut(c1, closeRead, env.shutOk));
  }

  lemma HandleSendGrows(c: Conn, sender: Option<Tid>, msg: Bytes, granted: bool, named: bool)
    ensures Grows(c, HandleSend(c, sender, msg, granted, named))
  {
  }

  lemma RunTaskGrows(c: Conn, task: Task, env: Env)
    ensures Grows(c, RunTask(c, task, env))
  {
    match task
    case StartTask => HandleStartGrows(c, env);
    case SendTask(sender, msg) => HandleSendGrows(c, Some(sender), msg, env.granted, env.named);
    case EventTask(ready) => HandleEventsGrows(c, ready, env);
    case CloseTask => HandleRemoveGrows(c, env);
    case ShutdownTask(closeRead) => ShutNowGrows(c, closeRead, env);
    case ForceShutdownTask => ShutNowGrows(c, false, env);
    case RemoveTask => HandleRemoveGrows(c, env);
    case ForeignTask => RunCallsGrow(c, env.onForeign);
  }

  // ---------- with no forced shutdown: interest mirrors work, and shutting down drains ----------

  predicate NoForce(calls: seq<Call>) {
    forall call | call in calls :: !call.StoreForceShutdown?
  }

  /** `strict` also forbids sending from the write-complete callback. */
  predicate GentleEnv(env: Env, strict: bool) {
    && NoForce(env.onConnect) && NoForce(env.onRead) && NoForce(env.onReadError) && NoForce(env.onWriteError)
    && NoForce(env.onWriteComplete) && NoForce(env.onError) && NoForce(env.onClose) && NoForce(env.onForeign)
    && NoForce(env.gapRead) && NoForce(env.gapHangUp)
    && (strict ==> NoSend(env.onWriteComplete))
  }

  predicate Gentle(s: Step, strict: bool) {
    match s
    case Announce(_) => true
    case OffLoop(call) => !call.StoreForceShutdown?
    case Run(_, env) => GentleEnv(env, strict)
  }

  /** Once the socket is shut down everything accepted is on the wire and nothing more is accepted. */
  predicate Drained(c: Conn) {
    c.shut ==> c.output == [] && Closing(c.state)
  }

  predicate Calm(c: Conn, strict: bool) {
    && ForceShutdownTask !in c.submitted
    && (c.exited || ((c.writable <==> c.output != []) && (strict ==> Drained(c))))
  }

  lemma RunCallCalm(c: Conn, call: Call, strict: bool)
    requires Calm(c, strict) && !call.StoreForceShutdown?
    ensures Calm(RunCall(c, call), strict)
    ensures !call.CallSend? ==> RunCall(c, call).output == c.output
  {
  }

  lemma {:induction false} RunCallsCalm(c: Conn, calls: seq<Call>, strict: bool)
    requires Calm(c, strict) && NoForce(calls)
    ensures Calm(RunCalls(c, calls), strict)
    ensures NoSend(calls) ==> RunCalls(c, calls).output == c.output
    decreases |calls|
  {
    if calls != [] {
      RunCallCalm(c, calls[0], strict);
      RunCallsCalm(RunCall(c, calls[0]), calls[1..], strict);
    }
  }

  lemma CallbackCalm(c: Conn, e: Effect, calls: seq<Call>, strict: bool)
    requires Calm(c, strict) && NoForce(calls) && !e.SocketShutdown?
    ensures Calm(Callback(c, e, calls), strict)
    ensures NoSend(calls) ==> Callback(c, e, calls).output == c.output
  {
    if !c.exited { RunCallsCalm(Log(c, e), calls, strict); }
  }

  lemma FinishWriteCalm(c: Conn, env: Env, strict: bool)
    requires c.output == [] && !c.exited && ForceShutdownTask !in c.submitted && (strict ==> Drained(c))
    requires GentleEnv(env, strict)
    ensures Calm(FinishWrite(c, env), strict)
  {
    var c0 := SetWritable(c, false);
    CallbackCalm(c0, OnWriteComplete, env.onWriteComplete, strict);
  }

  lemma HandleWriteCalm(c: Conn, env: Env, strict: bool)
    requires Calm(c, strict) && GentleEnv(env, strict)
    ensures Calm(HandleWrite(c, env), strict)
  {
    if !c.exited && c.writable {
      match WriteAnswer(c.shut, env.write)
      case WriteFailed => CallbackCalm(c, OnError, env.onWriteError, strict);
      case WriteKilled =>
      case Wrote(k) => if Written(c, k).output == [] { FinishWriteCalm(Written(c, k), env, strict); }
    }
  }

  lemma HandleCloseCalm(c: Conn, named: bool, gap: seq<Call>, strict: bool)
    requires Calm(c, strict) && NoForce(gap)
    ensures Calm(HandleClose(c, named, gap), strict)
  {
    RunCallsCalm(c, gap, strict);
  }

  lemma HandleEventsCalm(c: Conn, ready: Ready, env: Env, strict: bool)
    requires Calm(c, strict) && GentleEnv(env, strict)
    ensures Calm(HandleEvents(c, ready, env), strict)
  {
    var c1 := ReadPart(c, ready, env);
    assert Calm(c1, strict) by {
      if env.read.Received? { CallbackCalm(c, OnRead(env.read.bytes), env.onRead, strict); }
      CallbackCalm(c, OnError, env.onReadError, strict);
      HandleCloseCalm(c, env.named, env.gapRead, strict);
    }
    var c2 := WritePart(c1, ready, env);
    HandleWriteCalm(c1, env, strict);
    CallbackCalm(c2, OnError, env.onError, strict);
    HandleCloseCalm(ErrorPart(c2, ready, env), env.named, env.gapHangUp, strict);
  }

  lemma RunTaskCalm(c: Conn, task: Task, env: Env, strict: bool)
    requires Calm(c, strict) && GentleEnv(env, strict)
    requires task != ForceShutdownTask && (task.ShutdownTask? ==> Closing(c.state))
    ensures Calm(RunTask(c, task, env), strict)
  {
    match task
    case StartTask => HandleStartCalm(c, env, strict);
    case EventTask(ready) => HandleEventsCalm(c, ready, env, strict);
    case CloseTask => HandleRemoveCalm(c, env, strict);
    case RemoveTask => HandleRemoveCalm(c, env, strict);
    case ForeignTask => RunCallsCalm(c, env.onForeign, strict);
    case SendTask(_, _) =>
    case ShutdownTask(closeRead) => if c.output == [] { ShutNowCalm(c, closeRead, env, strict); }
    case ForceShutdownTask =>
  }

  lemma HandleStartCalm(c: Conn, env: Env, strict: bool)
    requires Calm(c, strict) && GentleEnv(env, strict)
    ensures Calm(HandleStart(c, env), strict)
  {
    if !c.exited && c.state == Connecting {
      CallbackCalm(Moved(c.(registered := true), Connected), OnConnect, env.onConnect, strict);
    }
  }

  lemma HandleRemoveCalm(c: Conn, env: Env, strict: bool)
    requires Calm(c, strict) && GentleEnv(env, strict)
    ensures Calm(HandleRemove(c, env), strict)
  {
    CallbackCalm(c, OnClose, env.onClose, strict);
  }

  lemma ShutNowCalm(c: Conn, closeRead: bool, env: Env, strict: bool)
    requires Calm(c, strict) && c.output == [] && Closing(c.state)
    ensures Calm(ShutNow(c, closeRead, env), strict)
  {
  }
}
