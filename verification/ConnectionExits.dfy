/**
 When does a connection end the process? Its handlers hold checks that are fatal: on memory, on the
 peer's address, on changing the interest of an unregistered channel, on removing while not
 disconnected, on writing without write interest, on `shutdown(2)`; and a write may raise `SIGPIPE`.
 The one on registration never fires. This is when each of the others does.
 */
module ConnectionExits {
  import opened Base
  import opened ConnectionSpec
  import opened ConnectionRuns
  import opened ConnectionTheorems
  import opened ConnectionShutdown

  // ---------- calls ----------

  /** Memory is refused where it is needed, or the address is gone where the connection is printed. */
  predicate CallFatal(c: Conn, call: Call) {
    match call
    case CallSend(msg, granted, named) =>
      if c.state == Connected then msg != [] && |c.output| + |msg| > c.capacity && !granted else !named
    case CheckForceClose(named) => !named
    case _ => false
  }

  /** One of the calls is fatal where its turn comes. */
  predicate SomeFatal(c: Conn, calls: seq<Call>)
    decreases |calls|
  {
    calls != [] && (CallFatal(c, calls[0]) || SomeFatal(RunCall(c, calls[0]), calls[1..]))
  }

  lemma CallExitsIff(c: Conn, m: multiset<Task>, call: Call)
    requires Core(c, m) && !c.exited
    ensures RunCall(c, call).exited <==> CallFatal(c, call)
  {
  }

  lemma {:induction false} CallsExitIff(c: Conn, m: multiset<Task>, calls: seq<Call>)
    requires Safe(c, m) && !c.exited
    ensures RunCalls(c, calls).exited <==> SomeFatal(c, calls)
    decreases |calls|
  {
    if calls != [] {
      var c1 := RunCall(c, calls[0]);
      CallExitsIff(c, m, calls[0]);
      if c1.exited {
        RunCallsGrow(c1, calls[1..]);
      } else {
        RunCallKeeps(c, m, calls[0]);
        CallsExitIff(c1, m, calls[1..]);
      }
    }
  }

  lemma CallbackExitsIff(c: Conn, m: multiset<Task>, e: Effect, calls: seq<Call>)
    requires Safe(c, m) && !c.exited && (e == OnError || ((e.OnRead? || e == OnWriteComplete) && OnConnect in c.log))
    ensures Callback(c, e, calls).exited <==> SomeFatal(Log(c, e), calls)
  {
    LogKeeps(c, m, e);
    CallsExitIff(Log(c, e), m, calls);
  }

  // ---------- handlers ----------

  predicate CloseFatal(c: Conn, named: bool, gap: seq<Call>) {
    c.state != Disconnected && (!named || SomeFatal(c, gap))
  }

  lemma CloseExitsIff(c: Conn, m: multiset<Task>, named: bool, gap: seq<Call>)
    requires Safe(c, m) && !c.exited
    ensures HandleClose(c, named, gap).exited <==> CloseFatal(c, named, gap)
  {
    CallsExitIff(c, m, gap);
  }

  predicate ReadFatal(c: Conn, env: Env) {
    match env.read
    case WouldBlock => false
    case ReadFailed => SomeFatal(Log(c, OnError), env.onReadError)
    case Received(bytes) =>
      if bytes == [] then CloseFatal(c, env.named, env.gapRead) else SomeFatal(Log(c, OnRead(bytes)), env.onRead)
  }

  lemma ReadExitsIff(c: Conn, m: multiset<Task>, env: Env)
    requires Safe(c, m) && OnConnect in c.log && !c.exited
    ensures HandleRead(c, env).exited <==> ReadFatal(c, env)
  {
    CallbackExitsIff(c, m, OnError, env.onReadError);
    CloseExitsIff(c, m, env.named, env.gapRead);
    if env.read.Received? { CallbackExitsIff(c, m, OnRead(env.read.bytes), env.onRead); }
  }

  /** A call of the callback is fatal, or the shutdown that the finished write leads to is refused. */
  predicate FinishFatal(c: Conn, env: Env) {
    || SomeFatal(Log(c.(writable := false), OnWriteComplete), env.onWriteComplete)
    || (GateAfter(GateOf(c), env.onWriteComplete).state == Disconnecting && !env.shutOk)
  }

  lemma FinishExitsIff(c: Conn, m: multiset<Task>, env: Env)
    requires Safe(c, m) && OnConnect in c.log && !c.exited && c.registered
    ensures FinishWrite(c, env).exited <==> FinishFatal(c, env)
  {
    var c0 := c.(writable := false);
    assert Safe(c0, m);
    CallbackExitsIff(c0, m, OnWriteComplete, env.onWriteComplete);
    var c1 := Log(c0, OnWriteComplete);
    if !RunCalls(c1, env.onWriteComplete).exited { CallsMoveGate(c1, env.onWriteComplete); }
  }

  /** No interest in writing; or the write raises the signal; or what follows it is fatal. */
  predicate WriteFatal(c: Conn, env: Env) {
    || !c.writable
    || (if c.output == [] then FinishFatal(c, env)
        else match WriteAnswer(c.shut, env.write)
          case WriteFailed => SomeFatal(Log(c, OnError), env.onWriteError)
          case WriteKilled => true
          case Wrote(k) => k >= |c.output| && FinishFatal(Written(c, k), env))
  }

  lemma WriteExitsIff(c: Conn, m: multiset<Task>, env: Env)
    requires Safe(c, m) && !c.exited
    ensures HandleWrite(c, env).exited <==> WriteFatal(c, env)
  {
    if c.writable {
      if c.output == [] {
        FinishExitsIff(c, m, env);
      } else {
        match WriteAnswer(c.shut, env.write)
        case WriteFailed => CallbackExitsIff(c, m, OnError, env.onWriteError);
        case WriteKilled =>
        case Wrote(k) =>
          WrittenKeeps(c, m, k);
          if k >= |c.output| { FinishExitsIff(Written(c, k), m, env); }
      }
    }
  }

  /** One of the parts of a report is fatal where its turn comes. */
  predicate ReportFatal(c: Conn, ready: Ready, env: Env) {
    var c1 := ReadPart(c, ready, env);
    var c2 := WritePart(c1, ready, env);
    var c3 := ErrorPart(c2, ready, env);
    || ((ready.input || ready.prior || ready.readHangUp) && ReadFatal(c, env))
    || (ready.output && WriteFatal(c1, env))
    || (ready.error && SomeFatal(Log(c2, OnError), env.onError))
    || (ready.hangUp && !ready.input && CloseFatal(c3, env.named, env.gapHangUp))
  }

  lemma ReadPartExitsIff(c: Conn, m: multiset<Task>, ready: Ready, env: Env)
    requires Safe(c, m) && !c.exited && (NeedsConnect(ready) ==> OnConnect in c.log)
    ensures var c' := ReadPart(c, ready, env);
            && Safe(c', m)
            && (c'.exited <==> (ready.input || ready.prior || ready.readHangUp) && ReadFatal(c, env))
  {
    if ready.input || ready.prior || ready.readHangUp {
      ReadExitsIff(c, m, env);
      HandleReadKeeps(c, m, env);
    }
  }

  lemma WritePartExitsIff(c: Conn, m: multiset<Task>, ready: Ready, env: Env)
    requires Safe(c, m) && !c.exited
    ensures var c' := WritePart(c, ready, env); Safe(c', m) && (c'.exited <==> ready.output && WriteFatal(c, env))
  {
    WriteExitsIff(c, m, env);
    HandleWriteKeeps(c, m, env);
  }

  lemma ErrorPartExitsIff(c: Conn, m: multiset<Task>, ready: Ready, env: Env)
    requires Safe(c, m) && !c.exited
    ensures var c' := ErrorPart(c, ready, env);
            Safe(c', m) && (c'.exited <==> ready.error && SomeFatal(Log(c, OnError), env.onError))
  {
    CallbackExitsIff(c, m, OnError, env.onError);
    CallbackKeeps(c, m, OnError, env.onError);
  }

  lemma ReportExitsIff(c: Conn, m: multiset<Task>, ready: Ready, env: Env)
    requires Safe(c, m) && !c.exited && (NeedsConnect(ready) ==> OnConnect in c.log)
    ensures HandleEvents(c, ready, env).exited <==> ReportFatal(c, ready, env)
  {
    var c1 := ReadPart(c, ready, env);
    var c2 := WritePart(c1, ready, env);
    var c3 := ErrorPart(c2, ready, env);
    ReadPartExitsIff(c, m, ready, env);
    if !c1.exited {
      WritePartExitsIff(c1, m, ready, env);
      if !c2.exited {
        ErrorPartExitsIff(c2, m, ready, env);
        if !c3.exited { CloseExitsIff(c3, m, env.named, env.gapHangUp); }
      }
    }
    LastPartsGrow(c2, ready, env);
    WritePartGrows(c1, ready, env);
    CallbackGrows(c2, OnError, env.onError);
    HandleCloseGrows(c3, env.named, env.gapHangUp);
  }

  /** The state has been moved back, or a call of the callback is fatal. */
  predicate RemoveFatal(c: Conn, env: Env) {
    c.state != Disconnected || SomeFatal(Log(c, OnClose), env.onClose)
  }

  lemma RemoveExitsIff(c: Conn, m: multiset<Task>, env: Env)
    requires Core(c, m) && Balanced(c, m, 1) && !c.exited
    ensures HandleRemove(c, env).exited <==> RemoveFatal(c, env)
  {
    LogKeepsCore(c, m, OnClose);
    CallsExitIff(Log(c, OnClose), m, env.onClose);
  }

  predicate StartFatal(c: Conn, env: Env) {
    || !env.named
    || (c.state == Connecting && SomeFatal(Log(Moved(c.(registered := true), Connected), OnConnect), env.onConnect))
  }

  lemma StartExitsIff(c: Conn, m: multiset<Task>, env: Env)
    requires Safe(c, m) && !c.exited
    ensures HandleStart(c, env).exited <==> StartFatal(c, env)
  {
    if c.state == Connecting {
      var c1 := c.(registered := true);
      RegisteredKeeps(c, m);
      OpenKeeps(c1, m);
      CallsExitIff(Log(Moved(c1, Connected), OnConnect), m, env.onConnect);
    }
  }

  lemma ShutNowExitsIff(c: Conn, m: multiset<Task>, closeRead: bool, env: Env)
    requires Core(c, m) && !c.exited
    ensures ShutNow(c, closeRead, env).exited <==> !env.named || !env.shutOk
  {
  }

  // ---------- tasks and steps ----------

  predicate Fatal(c: Conn, task: Task, env: Env) {
    match task
    case StartTask => StartFatal(c, env)
    case SendTask(_, msg) => CallFatal(c, CallSend(msg, env.granted, env.named))
    case EventTask(ready) => ReportFatal(c, ready, env)
    case CloseTask => c.output == [] && RemoveFatal(c, env)
    case ShutdownTask(_) => c.output == [] && (!env.named || !env.shutOk)
    case ForceShutdownTask => !env.named || !env.shutOk
    case RemoveTask => RemoveFatal(c, env)
    case ForeignTask => SomeFatal(c, env.onForeign)
  }

  lemma TaskExitsIff(c: Conn, inflight: multiset<Task>, task: Task, env: Env)
    requires Safe(c, inflight) && c.submitted == [] && !c.exited && task in inflight
    ensures RunTask(c, task, env).exited <==> Fatal(c, task, env)
  {
    var m := inflight - multiset{task};
    SafeWithout(c, inflight, task);
    match task
    case StartTask => StartExitsIff(c, m, env);
    case SendTask(_, msg) => CallExitsIff(c, m, CallSend(msg, env.granted, env.named));
    case EventTask(ready) => ReportExitsIff(c, m, ready, env);
    case CloseTask => RemoveExitsIff(c, m, env);
    case RemoveTask => RemoveExitsIff(c, m, env);
    case ShutdownTask(closeRead) => ShutNowExitsIff(c, m, closeRead, env);
    case ForceShutdownTask => ShutNowExitsIff(c, m, false, env);
    case ForeignTask => CallsExitIff(c, m, env.onForeign);
  }

  predicate StepFatal(c: Conn, s: Step) {
    match s
    case Announce(_) => false
    case OffLoop(call) => CallFatal(c, call)
    case Run(task, env) => Fatal(c, task, env)
  }

  /** In every run a step ends the process if and only if one of these causes is met in it. */
  lemma StepExitsIff(rs: seq<Reactor>, steps: seq<Step>, i: nat)
    requires RunOf(rs, steps) && i < |steps|
    ensures rs[i + 1].conn.exited <==> StepFatal(rs[i].conn, steps[i])
  {
    InvAlong(rs, steps, i);
    assert Linked(rs, steps, i);
    match steps[i]
    case Announce(_) =>
    case OffLoop(call) => CallExitsIff(rs[i].conn, rs[i].inflight, call);
    case Run(task, env) => TaskExitsIff(rs[i].conn, rs[i].inflight, task, env);
  }

  // ---------- with memory granted and the address known ----------

  predicate GrantedCall(call: Call) {
    (call.CallSend? ==> call.granted && call.named) && (call.CheckForceClose? ==> call.named)
  }

  predicate Granted(calls: seq<Call>) {
    forall call | call in calls :: GrantedCall(call)
  }

  predicate GrantedEnv(env: Env) {
    && env.granted && env.named
    && Granted(env.onConnect) && Granted(env.onRead) && Granted(env.onReadError) && Granted(env.onWriteError)
    && Granted(env.onWriteComplete) && Granted(env.onError) && Granted(env.onClose) && Granted(env.onForeign)
    && Granted(env.gapRead) && Granted(env.gapHangUp)
  }

  lemma {:induction false} GrantedNotFatal(c: Conn, calls: seq<Call>)
    requires Granted(calls)
    ensures !SomeFatal(c, calls)
    decreases |calls|
  {
    if calls != [] {
      assert GrantedCall(calls[0]);
      GrantedNotFatal(RunCall(c, calls[0]), calls[1..]);
    }
  }

  /** The write is stale, raises the signal, or finishes and leads to a refused shutdown. */
  predicate WriteAlone(c: Conn, env: Env) {
    || !c.writable
    || (c.output != [] && env.write.WriteKilled?)
    || ((c.output == [] || (WriteAnswer(c.shut, env.write).Wrote? && env.write.n >= |c.output|))
        && GateAfter(GateOf(c), env.onWriteComplete).state == Disconnecting && !env.shutOk)
  }

  lemma GrantedWrite(c: Conn, env: Env)
    requires GrantedEnv(env)
    ensures WriteFatal(c, env) <==> WriteAlone(c, env)
  {
    GrantedNotFatal(Log(c.(writable := false), OnWriteComplete), env.onWriteComplete);
    GrantedNotFatal(Log(c, OnError), env.onWriteError);
    if env.write.Wrote? {
      var c1 := Written(c, env.write.n);
      GrantedNotFatal(Log(c1.(writable := false), OnWriteComplete), env.onWriteComplete);
    }
  }

  lemma GrantedReport(c: Conn, ready: Ready, env: Env)
    requires GrantedEnv(env)
    ensures ReportFatal(c, ready, env) <==> ready.output && WriteAlone(ReadPart(c, ready, env), env)
  {
    var c1 := ReadPart(c, ready, env);
    var c2 := WritePart(c1, ready, env);
    GrantedNotFatal(Log(c, OnError), env.onReadError);
    GrantedNotFatal(c, env.gapRead);
    if env.read.Received? { GrantedNotFatal(Log(c, OnRead(env.read.bytes)), env.onRead); }
    GrantedWrite(c1, env);
    GrantedNotFatal(Log(c2, OnError), env.onError);
    GrantedNotFatal(ErrorPart(c2, ready, env), env.gapHangUp);
  }

  /**
   Then four causes are left: a stale report of writability, the signal, a refused shutdown, and a
   removal that finds the state moved back.
   */
  lemma GrantedExitsIff(rs: seq<Reactor>, steps: seq<Step>, i: nat)
    requires RunOf(rs, steps) && i < |steps| && steps[i].Run? && GrantedEnv(steps[i].env)
    ensures var c, task, env := rs[i].conn, steps[i].task, steps[i].env;
            rs[i + 1].conn.exited <==>
              || (task.EventTask? && task.ready.output && WriteAlone(ReadPart(c, task.ready, env), env))
              || (task.ShutdownTask? && c.output == [] && !env.shutOk)
              || (task == ForceShutdownTask && !env.shutOk)
              || (task == CloseTask && c.output == [] && c.state != Disconnected)
              || (task == RemoveTask && c.state != Disconnected)
  {
    StepExitsIff(rs, steps, i);
    var c, task, env := rs[i].conn, steps[i].task, steps[i].env;
    match task
    case StartTask => GrantedNotFatal(Log(Moved(c.(registered := true), Connected), OnConnect), env.onConnect);
    case SendTask(_, _) =>
    case EventTask(ready) => GrantedReport(c, ready, env);
    case CloseTask => GrantedNotFatal(Log(c, OnClose), env.onClose);
    case ShutdownTask(_) =>
    case ForceShutdownTask =>
    case RemoveTask => GrantedNotFatal(Log(c, OnClose), env.onClose);
    case ForeignTask => GrantedNotFatal(c, env.onForeign);
  }
}
