/** What comes of the inputs, law by law: what is read, said, written and told, on every run. */
module ConnectionOutcomes {
  import opened Base
  import opened ConnectionSpec
  import opened ConnectionRuns
  import opened ConnectionShutdown
  import opened ConnectionLedger

  // ---------- what calls say ----------

  function SaidNow(g: Gate, call: Call): seq<Accepted> {
    if call.CallSend? && call.msg != [] && g.state == Connected then [Accepted(None, call.msg)] else []
  }

  /** The non-empty messages of the sends whose turn comes while the connection is open. */
  function SaidBy(g: Gate, calls: seq<Call>): seq<Accepted>
    decreases |calls|
  {
    if calls == [] then [] else SaidNow(g, calls[0]) + SaidBy(GateStep(g, calls[0]), calls[1..])
  }

  lemma CallSays(c: Conn, call: Call)
    requires !c.exited && !RunCall(c, call).exited
    ensures RunCall(c, call).accepted == c.accepted + SaidNow(GateOf(c), call)
  {
  }

  lemma AlsoSays(accepted: seq<Accepted>, now: seq<Accepted>, later: seq<Accepted>)
    ensures (accepted + now) + later == accepted + (now + later)
  {
  }

  /** Calls made on the loop have accepted just what they say while open, whole and in order. */
  lemma {:induction false} CallsAccept(c: Conn, calls: seq<Call>)
    requires !c.exited && !RunCalls(c, calls).exited
    ensures RunCalls(c, calls).accepted == c.accepted + SaidBy(GateOf(c), calls)
    decreases |calls|
  {
    if calls != [] {
      var c1, rest := RunCall(c, calls[0]), calls[1..];
      RunCallsGrow(c1, rest);
      CallSays(c, calls[0]);
      CallMovesGate(c, calls[0]);
      CallsAccept(c1, rest);
      AlsoSays(c.accepted, SaidNow(GateOf(c), calls[0]), SaidBy(GateOf(c1), rest));
    }
  }

  // ---------- what a write takes ----------

  lemma CallNeverWrites(c: Conn, call: Call)
    ensures RunCall(c, call).wire == c.wire && c.output <= RunCall(c, call).output
  {
  }

  lemma {:induction false} CallsNeverWrite(c: Conn, calls: seq<Call>)
    ensures RunCalls(c, calls).wire == c.wire && c.output <= RunCalls(c, calls).output
    decreases |calls|
  {
    if calls != [] {
      CallNeverWrites(c, calls[0]);
      CallsNeverWrite(RunCall(c, calls[0]), calls[1..]);
    }
  }

  lemma CallbackNeverWrites(c: Conn, e: Effect, calls: seq<Call>)
    ensures Callback(c, e, calls).wire == c.wire && c.output <= Callback(c, e, calls).output
  {
    CallsNeverWrite(Log(c, e), calls);
  }

  lemma FinishNeverWrites(c: Conn, env: Env)
    ensures FinishWrite(c, env).wire == c.wire && c.output <= FinishWrite(c, env).output
  {
    var c0 := SetWritable(c, false);
    assert c0.wire == c.wire && c0.output == c.output;
    CallbackNeverWrites(c0, OnWriteComplete, env.onWriteComplete);
  }

  /**
   Of a write that the socket answers with `k` exactly the first `k` waiting bytes, or all of them, go
   onto the wire, and exactly these leave the buffer; any other answer moves nothing.
   */
  lemma WriteTakes(c: Conn, env: Env)
    requires !c.exited && c.writable && c.output != []
    ensures var c', waiting := HandleWrite(c, env), |c.output|;
            var n := if c.shut || !env.write.Wrote? then 0 else if env.write.n < waiting then env.write.n else waiting;
            && c'.wire == c.wire + c.output[..n]
            && c.output[n..] <= c'.output && (n < waiting && env.write.Wrote? && !c.shut ==> c'.output == c.output[n..])
  {
    CallsNeverWrite(Log(c, OnError), env.onWriteError);
    if env.write.Wrote? { FinishNeverWrites(Written(c, env.write.n), env); }
  }

  // ---------- what is read is heard ----------

  /** What the handler was given to read. */
  function Heard(log: seq<Effect>): seq<Bytes> {
    if log == [] then []
    else
      var rest, e := Heard(log[..|log| - 1]), log[|log| - 1];
      if e.OnRead? then rest + [e.bytes] else rest
  }

  /** What the kernel delivers to a report that asks for it; no bytes are the end of the stream. */
  function ArrivedIn(s: Step): seq<Bytes> {
    if s.Run? && s.task.EventTask? && (s.task.ready.input || s.task.ready.prior || s.task.ready.readHangUp)
       && s.env.read.Received? && s.env.read.bytes != []
    then [s.env.read.bytes]
    else []
  }

  function Arrived(steps: seq<Step>): seq<Bytes> {
    if steps == [] then [] else Arrived(steps[..|steps| - 1]) + ArrivedIn(steps[|steps| - 1])
  }

  lemma HeardOneMore(log: seq<Effect>, e: Effect)
    ensures Heard(log + [e]) == Heard(log) + if e.OnRead? then [e.bytes] else []
  {
  }

  lemma CallbackHears(c: Conn, e: Effect, calls: seq<Call>)
    requires !c.exited || !e.OnRead?
    ensures Heard(Callback(c, e, calls).log) == Heard(c.log) + if e.OnRead? then [e.bytes] else []
  {
    HeardOneMore(c.log, e);
    CallsNeverLog(Log(c, e), calls);
  }

  lemma CloseHearsNothing(c: Conn, named: bool, gap: seq<Call>)
    ensures HandleClose(c, named, gap).log == c.log
  {
    CallsNeverLog(c, gap);
  }

  lemma ReadHears(c: Conn, ready: Ready, env: Env)
    requires !c.exited
    ensures Heard(ReadPart(c, ready, env).log) == Heard(c.log) + ArrivedIn(Run(EventTask(ready), env))
  {
    CallbackHears(c, OnError, env.onReadError);
    CloseHearsNothing(c, env.named, env.gapRead);
    if env.read.Received? { CallbackHears(c, OnRead(env.read.bytes), env.onRead); }
  }

  lemma ShutHearsNothing(c: Conn, closeRead: bool, ok: bool)
    ensures Heard(SocketShut(c, closeRead, ok).log) == Heard(c.log)
  {
    HeardOneMore(c.log, SocketShutdown(closeRead));
  }

  lemma FinishHearsNothing(c: Conn, env: Env)
    ensures Heard(FinishWrite(c, env).log) == Heard(c.log)
  {
    var c0 := SetWritable(c, false);
    CallbackHears(c0, OnWriteComplete, env.onWriteComplete);
    ShutHearsNothing(Callback(c0, OnWriteComplete, env.onWriteComplete), false, env.shutOk);
  }

  lemma WriteHearsNothing(c: Conn, env: Env)
    ensures Heard(HandleWrite(c, env).log) == Heard(c.log)
  {
    CallbackHears(c, OnError, env.onWriteError);
    FinishHearsNothing(c, env);
    if env.write.Wrote? { FinishHearsNothing(Written(c, env.write.n), env); }
  }

  lemma ReportHears(c: Conn, ready: Ready, env: Env)
    requires !c.exited
    ensures Heard(HandleEvents(c, ready, env).log) == Heard(c.log) + ArrivedIn(Run(EventTask(ready), env))
  {
    var c1 := ReadPart(c, ready, env);
    ReadHears(c, ready, env);
    WriteHearsNothing(c1, env);
    var c2 := WritePart(c1, ready, env);
    CallbackHears(c2, OnError, env.onError);
    CloseHearsNothing(ErrorPart(c2, ready, env), env.named, env.gapHangUp);
  }

  lemma RemoveHearsNothing(c: Conn, env: Env)
    ensures Heard(HandleRemove(c, env).log) == Heard(c.log)
  {
    CallbackHears(c, OnClose, env.onClose);
    HeardOneMore(Callback(c, OnClose, env.onClose).log, ContextCleared);
  }

  lemma StartHearsNothing(c: Conn, env: Env)
    ensures Heard(HandleStart(c, env).log) == Heard(c.log)
  {
    CallbackHears(Moved(c.(registered := true), Connected), OnConnect, env.onConnect);
  }

  lemma ShutNowHearsNothing(c: Conn, closeRead: bool, env: Env)
    ensures Heard(ShutNow(c, closeRead, env).log) == Heard(c.log)
  {
    var c1 := SetWritable(Printed(c, env.named), false);
    assert c1.log == c.log;
    ShutHearsNothing(c1, closeRead, env.shutOk);
  }

  lemma SendLogsNothing(c: Conn, sender: Option<Tid>, msg: Bytes, granted: bool, named: bool)
    ensures HandleSend(c, sender, msg, granted, named).log == c.log
  {
  }

  lemma TaskHears(c: Conn, task: Task, env: Env)
    requires !c.exited
    ensures Heard(RunTask(c, task, env).log) == Heard(c.log) + ArrivedIn(Run(task, env))
  {
    match task
    case StartTask => StartHearsNothing(c, env);
    case SendTask(sender, msg) => SendLogsNothing(c, Some(sender), msg, env.granted, env.named);
    case EventTask(ready) => ReportHears(c, ready, env);
    case CloseTask => RemoveHearsNothing(c, env);
    case ShutdownTask(closeRead) => ShutNowHearsNothing(c, closeRead, env);
    case ForceShutdownTask => ShutNowHearsNothing(c, false, env);
    case RemoveTask => RemoveHearsNothing(c, env);
    case ForeignTask => CallsNeverLog(c, env.onForeign);
  }

  /** In every run the handler is given exactly the bytes that arrived, report by report and in order. */
  lemma {:induction false} ReceivedIsHeard(rs: seq<Reactor>, steps: seq<Step>, i: nat)
    requires RunOf(rs, steps) && i <= |steps|
    ensures Heard(rs[i].conn.log) == Arrived(steps[..i])
  {
    if i == 0 {
      assert rs[0].conn == FRESH;
    } else {
      ReceivedIsHeard(rs, steps, i - 1);
      assert steps[..i][..i - 1] == steps[..i - 1];
      StepHears(rs, steps, i - 1);
    }
  }

  lemma StepHears(rs: seq<Reactor>, steps: seq<Step>, i: nat)
    requires RunOf(rs, steps) && i < |steps|
    ensures Heard(rs[i + 1].conn.log) == Heard(rs[i].conn.log) + ArrivedIn(steps[i])
  {
    assert Linked(rs, steps, i);
    match steps[i]
    case Announce(_) =>
    case OffLoop(call) => CallNeverLogs(rs[i].conn, call);
    case Run(task, env) => TaskHears(rs[i].conn, task, env);
  }

  // ---------- who is told that it is over ----------

  /** How often running this task tells the handler `OnClose`, or the socket to stop reading. */
  function Tells(c: Conn, task: Task, e: Effect): nat {
    match e
    case OnClose => if task == RemoveTask || (task == CloseTask && c.output == []) then 1 else 0
    case SocketShutdown(true) => if task == ShutdownTask(true) && c.output == [] then 1 else 0
    case _ => 0
  }

  predicate Final(e: Effect) {
    e == OnClose || e == SocketShutdown(true)
  }

  lemma CallbackTells(c: Conn, e0: Effect, calls: seq<Call>, e: Effect)
    requires !Callback(c, e0, calls).exited
    ensures multiset(Callback(c, e0, calls).log)[e] == multiset(c.log)[e] + if e0 == e then 1 else 0
  {
    CallsNeverLog(Log(c, e0), calls);
  }

  lemma ReportTellsNothing(c: Conn, ready: Ready, env: Env, e: Effect)
    requires Final(e)
    ensures multiset(HandleEvents(c, ready, env).log)[e] == multiset(c.log)[e]
  {
    var c1 := ReadPart(c, ready, env);
    ReadTellsNothing(c, ready, env, e);
    var c2 := WritePart(c1, ready, env);
    WriteTellsNothing(c1, env, e);
    CallsNeverLog(Log(c2, OnError), env.onError);
    CloseHearsNothing(ErrorPart(c2, ready, env), env.named, env.gapHangUp);
  }

  lemma ReadTellsNothing(c: Conn, ready: Ready, env: Env, e: Effect)
    requires Final(e)
    ensures multiset(ReadPart(c, ready, env).log)[e] == multiset(c.log)[e]
  {
    CallsNeverLog(Log(c, OnError), env.onReadError);
    CloseHearsNothing(c, env.named, env.gapRead);
    if env.read.Received? { CallsNeverLog(Log(c, OnRead(env.read.bytes)), env.onRead); }
  }

  lemma FinishTellsNothing(c: Conn, env: Env, e: Effect)
    requires Final(e)
    ensures multiset(FinishWrite(c, env).log)[e] == multiset(c.log)[e]
  {
    var c0 := SetWritable(c, false);
    assert c0.log == c.log;
    CallsNeverLog(Log(c0, OnWriteComplete), env.onWriteComplete);
    var c1 := Callback(c0, OnWriteComplete, env.onWriteComplete);
    assert multiset(c1.log)[e] == multiset(c0.log)[e];
    ShutTellsNothing(c1, env.shutOk, e);
  }

  lemma ShutTellsNothing(c: Conn, ok: bool, e: Effect)
    requires Final(e)
    ensures multiset(SocketShut(c, false, ok).log)[e] == multiset(c.log)[e]
  {
  }

  lemma WriteTellsNothing(c: Conn, env: Env, e: Effect)
    requires Final(e)
    ensures multiset(HandleWrite(c, env).log)[e] == multiset(c.log)[e]
  {
    CallsNeverLog(Log(c, OnError), env.onWriteError);
    FinishTellsNothing(c, env, e);
    if env.write.Wrote? { FinishTellsNothing(Written(c, env.write.n), env, e); }
  }

  lemma RemoveTells(c: Conn, env: Env, e: Effect)
    requires Final(e) && !c.exited && !HandleRemove(c, env).exited
    ensures multiset(HandleRemove(c, env).log)[e] == multiset(c.log)[e] + if e == OnClose then 1 else 0
  {
    CallbackTells(c, OnClose, env.onClose, e);
  }

  lemma StartTellsNothing(c: Conn, env: Env, e: Effect)
    requires Final(e)
    ensures multiset(HandleStart(c, env).log)[e] == multiset(c.log)[e]
  {
    CallsNeverLog(Log(Moved(c.(registered := true), Connected), OnConnect), env.onConnect);
  }

  lemma ShutNowTells(c: Conn, closeRead: bool, env: Env, e: Effect)
    requires Final(e) && !c.exited && !ShutNow(c, closeRead, env).exited
    ensures multiset(ShutNow(c, closeRead, env).log)[e] ==
            multiset(c.log)[e] + if e == SocketShutdown(closeRead) then 1 else 0
  {
    assert ShutNow(c, closeRead, env).log == c.log + [SocketShutdown(closeRead)];
  }

  lemma TaskTells(c: Conn, task: Task, env: Env, e: Effect)
    requires Final(e) && !c.exited && !RunTask(c, task, env).exited
    ensures multiset(RunTask(c, task, env).log)[e] == multiset(c.log)[e] + Tells(c, task, e)
  {
    match task
    case CloseTask => CloseTaskTells(c, env, e);
    case ShutdownTask(closeRead) => ShutTaskTells(c, closeRead, env, e);
    case ForceShutdownTask => ShutNowTells(c, false, env, e);
    case RemoveTask => RemoveTells(c, env, e);
    case _ => OthersTellNothing(c, task, env, e);
  }

  lemma CloseTaskTells(c: Conn, env: Env, e: Effect)
    requires Final(e) && !c.exited && !RunTask(c, CloseTask, env).exited
    ensures multiset(RunTask(c, CloseTask, env).log)[e] == multiset(c.log)[e] + Tells(c, CloseTask, e)
  {
    if c.output == [] { RemoveTells(c, env, e); }
  }

  lemma ShutTaskTells(c: Conn, closeRead: bool, env: Env, e: Effect)
    requires Final(e) && !c.exited && !RunTask(c, ShutdownTask(closeRead), env).exited
    ensures multiset(RunTask(c, ShutdownTask(closeRead), env).log)[e] ==
            multiset(c.log)[e] + Tells(c, ShutdownTask(closeRead), e)
  {
    if c.output == [] { ShutNowTells(c, closeRead, env, e); }
  }

  lemma OthersTellNothing(c: Conn, task: Task, env: Env, e: Effect)
    requires Final(e) && !c.exited
    requires task == StartTask || task.SendTask? || task.EventTask? || task == ForeignTask
    ensures multiset(RunTask(c, task, env).log)[e] == multiset(c.log)[e]
  {
    match task
    case StartTask => StartTellsNothing(c, env, e);
    case SendTask(sender, msg) => SendLogsNothing(c, Some(sender), msg, env.granted, env.named);
    case EventTask(ready) => ReportTellsNothing(c, ready, env, e);
    case ForeignTask => CallsNeverLog(c, env.onForeign);
  }

  /** How many of the tasks run tell it. */
  ghost function Telling(rs: seq<Reactor>, steps: seq<Step>, i: nat, e: Effect): nat
    requires i <= |steps| < |rs|
  {
    if i == 0 then 0
    else Telling(rs, steps, i - 1, e) + if steps[i - 1].Run? then Tells(rs[i - 1].conn, steps[i - 1].task, e) else 0
  }

  /**
   In every run, as long as the process lives: `OnClose` is told once for every removal run, whatever
   waits, and once for every close task that found nothing to write; and the socket is told to stop
   reading once for every `Shutdown(true)` task that found nothing to write. No other task does either.
   */
  lemma {:induction false} ToldByTasks(rs: seq<Reactor>, steps: seq<Step>, i: nat, e: Effect)
    requires RunOf(rs, steps) && i <= |steps| && !rs[i].conn.exited && Final(e)
    ensures multiset(rs[i].conn.log)[e] == Telling(rs, steps, i, e)
  {
    if i == 0 {
      assert rs[0].conn == FRESH;
    } else {
      assert Linked(rs, steps, i - 1);
      ToldByTasks(rs, steps, i - 1, e);
      StepTells(rs, steps, i - 1, e);
    }
  }

  lemma StepTells(rs: seq<Reactor>, steps: seq<Step>, i: nat, e: Effect)
    requires RunOf(rs, steps) && i < |steps| && !rs[i + 1].conn.exited && Final(e)
    ensures multiset(rs[i + 1].conn.log)[e] ==
            multiset(rs[i].conn.log)[e] + if steps[i].Run? then Tells(rs[i].conn, steps[i].task, e) else 0
  {
    assert Linked(rs, steps, i);
    match steps[i]
    case Announce(_) =>
    case OffLoop(call) => CallNeverLogs(rs[i].conn, call);
    case Run(task, env) => TaskTells(rs[i].conn, task, env, e);
  }

  /**
   In every run at most one `Shutdown` ever submits its task, so which side the socket is told to shut
   is what that one asked for.
   */
  lemma OneSide(rs: seq<Reactor>, steps: seq<Step>, i: nat)
    requires RunOf(rs, steps) && i <= |steps| && !rs[i].conn.exited
    ensures var submitted := rs[i].inflight + Done(steps[..i]);
            submitted[ShutdownTask(true)] + submitted[ShutdownTask(false)] <= 1
  {
    FollowsAlive(rs, steps, i);
    OnlyOneShutdown(rs, steps, i);
  }
}
