/**
 Does a shut-down connection leave bytes behind? A graceful shutdown is meant to drain first. This is
 when it does not, told from the inputs of the one task that shuts the socket down.
 */
module ConnectionShutdown {
  import opened Base
  import opened ConnectionSpec
  import opened ConnectionRuns
  import opened ConnectionTheorems

  /** What decides the fate of a call: the state, and which stores are still to come. */
  datatype Gate = Gate(state: TcpState, checked: Checked)

  function GateOf(c: Conn): Gate {
    Gate(c.state, c.checked)
  }

  function GateStep(g: Gate, call: Call): Gate {
    match call
    case CallSend(_, _, _) => g
    case CallClose => if g.state == Connected then g.(state := Disconnected) else g
    case CallShutdown(_) => if g.state == Connected then g.(state := Disconnecting) else g
    case CheckForceShutdown =>
      if g.state == Disconnected then g else g.(checked := g.checked.(shuts := g.checked.shuts + 1))
    case StoreForceShutdown =>
      if g.checked.shuts == 0 then g else Gate(Disconnecting, g.checked.(shuts := g.checked.shuts - 1))
    case CheckForceClose(_) =>
      if g.state == Disconnected then g else g.(checked := g.checked.(closes := g.checked.closes + 1))
    case StoreForceClose =>
      if g.checked.closes == 0 then g else Gate(Disconnected, g.checked.(closes := g.checked.closes - 1))
  }

  function GateAfter(g: Gate, calls: seq<Call>): Gate
    decreases |calls|
  {
    if calls == [] then g else GateAfter(GateStep(g, calls[0]), calls[1..])
  }

  lemma CallMovesGate(c: Conn, call: Call)
    requires !c.exited && !RunCall(c, call).exited
    ensures GateOf(RunCall(c, call)) == GateStep(GateOf(c), call)
  {
  }

  lemma {:induction false} CallsMoveGate(c: Conn, calls: seq<Call>)
    requires !c.exited && !RunCalls(c, calls).exited
    ensures GateOf(RunCalls(c, calls)) == GateAfter(GateOf(c), calls)
    decreases |calls|
  {
    if calls != [] {
      RunCallsGrow(RunCall(c, calls[0]), calls[1..]);
      CallMovesGate(c, calls[0]);
      CallsMoveGate(RunCall(c, calls[0]), calls[1..]);
    }
  }

  /** Among the calls a non-empty send comes while the connection is still open. */
  predicate Answers(g: Gate, calls: seq<Call>)
    decreases |calls|
  {
    && calls != [] && g.state == Connected
    && ((calls[0].CallSend? && calls[0].msg != []) || Answers(GateStep(g, calls[0]), calls[1..]))
  }

  lemma SendOutput(c: Conn, msg: Bytes, granted: bool, named: bool)
    ensures var c' := HandleSend(c, None, msg, granted, named);
            || (c'.accepted == c.accepted && c'.output == c.output)
            || (|c'.accepted| > |c.accepted| && |c'.output| > |c.output|)
  {
  }

  /** What is accepted and what waits grow together. */
  lemma CallOutput(c: Conn, call: Call)
    ensures var c' := RunCall(c, call);
            || (c'.accepted == c.accepted && c'.output == c.output)
            || (|c'.accepted| > |c.accepted| && |c'.output| > |c.output|)
  {
    if call.CallSend? { SendOutput(c, call.msg, call.granted, call.named); }
  }

  lemma {:induction false} CallsOutput(c: Conn, calls: seq<Call>)
    ensures var c' := RunCalls(c, calls);
            && |c.accepted| <= |c'.accepted| && |c.output| <= |c'.output|
            && (c'.accepted == c.accepted <==> c'.output == c.output)
            && (|c'.accepted| > |c.accepted| <==> |c'.output| > |c.output|)
    decreases |calls|
  {
    if calls != [] {
      CallOutput(c, calls[0]);
      CallsOutput(RunCall(c, calls[0]), calls[1..]);
    }
  }

  /** Once closing began, calls leave what waits as it is. */
  lemma ClosedCalls(c: Conn, calls: seq<Call>)
    requires Closing(c.state)
    ensures RunCalls(c, calls).output == c.output
  {
    RunCallsGrow(c, calls);
    CallsOutput(c, calls);
  }

  /** From an open connection calls get something accepted exactly if they answer. */
  lemma {:induction false} AnswersIff(c: Conn, calls: seq<Call>)
    requires c.state == Connected && !c.exited && !RunCalls(c, calls).exited
    ensures RunCalls(c, calls).output != c.output <==> Answers(GateOf(c), calls)
    decreases |calls|
  {
    if calls != [] {
      var c1 := RunCall(c, calls[0]);
      RunCallsGrow(c1, calls[1..]);
      CallMovesGate(c, calls[0]);
      CallOutput(c, calls[0]);
      CallsOutput(c1, calls[1..]);
      FirstCall(c, calls[0]);
      if c1.state == Connected {
        AnswersIff(c1, calls[1..]);
      } else {
        RunCallGrows(c, calls[0]);
        ClosedCalls(c1, calls[1..]);
      }
    }
  }

  lemma FirstCall(c: Conn, call: Call)
    requires c.state == Connected && !c.exited && !RunCall(c, call).exited
    ensures RunCall(c, call).output != c.output <==> call.CallSend? && call.msg != []
    ensures call.CallSend? ==> RunCall(c, call).state == Connected
  {
  }

  lemma CallNeverShuts(c: Conn, call: Call)
    ensures RunCall(c, call).shut == c.shut
  {
  }

  lemma {:induction false} CallsNeverShut(c: Conn, calls: seq<Call>)
    ensures RunCalls(c, calls).shut == c.shut
    decreases |calls|
  {
    if calls != [] {
      CallNeverShuts(c, calls[0]);
      CallsNeverShut(RunCall(c, calls[0]), calls[1..]);
    }
  }

  /**
   A finished write on a closing connection shuts the socket down, and leaves bytes behind if and
   only if the connection was still open and the write-complete callback answered before it closed.
   */
  lemma FinishWriteDrainsIff(c: Conn, env: Env)
    requires c.output == [] && !c.exited && c.state != Connecting
    ensures var c' := FinishWrite(c, env);
            && (!c.shut && c'.shut ==> c'.state == Disconnecting && !c'.exited)
            && (c'.state == Disconnecting && !c'.exited ==>
                  c'.shut && (c'.output != [] <==> Answers(GateOf(c), env.onWriteComplete)))
  {
    var c0 := SetWritable(c, false);
    if !c0.exited {
      var c1 := Log(c0, OnWriteComplete);
      var c2 := RunCalls(c1, env.onWriteComplete);
      CallsNeverShut(c1, env.onWriteComplete);
      if Closing(c.state) {
        ClosedCalls(c1, env.onWriteComplete);
      } else if !c2.exited {
        AnswersIff(c1, env.onWriteComplete);
      }
    }
  }

  /** The state and the stores to come when the write part of a report is reached. */
  function GateAfterRead(g: Gate, ready: Ready, env: Env): Gate {
    if !(ready.input || ready.prior || ready.readHangUp) then g
    else match env.read
      case WouldBlock => g
      case ReadFailed => GateAfter(g, env.onReadError)
      case Received(bytes) =>
        if bytes != [] then GateAfter(g, env.onRead)
        else if g.state == Disconnected then g
        else GateAfter(g, env.gapRead).(state := Disconnected)
  }

  lemma ReadMovesGate(c: Conn, ready: Ready, env: Env)
    requires !c.exited && !ReadPart(c, ready, env).exited
    ensures GateOf(ReadPart(c, ready, env)) == GateAfterRead(GateOf(c), ready, env)
  {
    if ready.input || ready.prior || ready.readHangUp {
      match env.read
      case WouldBlock =>
      case ReadFailed => CallsMoveGate(Log(c, OnError), env.onReadError);
      case Received(bytes) =>
        if bytes != [] {
          CallsMoveGate(Log(c, OnRead(bytes)), env.onRead);
        } else if c.state != Disconnected {
          CallsMoveGate(c, env.gapRead);
        }
    }
  }

  /** The task shuts the socket down and leaves bytes behind: by force, or after an answer. */
  predicate LeavesBytes(c: Conn, task: Task, env: Env) {
    match task
    case ForceShutdownTask => c.output != []
    case EventTask(ready) => Answers(GateAfterRead(GateOf(c), ready, env), env.onWriteComplete)
    case _ => false
  }

  lemma ReadNeverShuts(c: Conn, ready: Ready, env: Env)
    ensures ReadPart(c, ready, env).shut == c.shut
  {
    CallsNeverShut(Log(c, OnError), env.onReadError);
    CallsNeverShut(c, env.gapRead);
    if env.read.Received? { CallsNeverShut(Log(c, OnRead(env.read.bytes)), env.onRead); }
  }

  lemma ErrorPartLeaves(c: Conn, ready: Ready, env: Env)
    ensures var c' := ErrorPart(c, ready, env);
            c'.shut == c.shut && (Closing(c.state) ==> c'.output == c.output && Closing(c'.state))
  {
    CallsNeverShut(Log(c, OnError), env.onError);
    if Closing(c.state) {
      ClosedCalls(Log(c, OnError), env.onError);
      CallbackGrows(c, OnError, env.onError);
    }
  }

  lemma HangUpPartLeaves(c: Conn, ready: Ready, env: Env)
    ensures var c' := HangUpPart(c, ready, env);
            c'.shut == c.shut && (Closing(c.state) ==> c'.output == c.output)
  {
    CallsNeverShut(c, env.gapHangUp);
    if Closing(c.state) { ClosedCalls(c, env.gapHangUp); }
  }

  lemma LastPartsLeave(c: Conn, ready: Ready, env: Env)
    ensures var c' := HangUpPart(ErrorPart(c, ready, env), ready, env);
            c'.shut == c.shut && (Closing(c.state) ==> c'.output == c.output)
  {
    ErrorPartLeaves(c, ready, env);
    HangUpPartLeaves(ErrorPart(c, ready, env), ready, env);
  }

  lemma WriteLeavesIff(c: Conn, m: multiset<Task>, env: Env)
    requires Safe(c, m) && !c.shut
    ensures var c' := HandleWrite(c, env);
            c'.shut ==>
              Closing(c'.state) && (c'.output != [] <==> Answers(GateOf(c), env.onWriteComplete))
  {
    if !c.exited && c.writable {
      if c.output == [] {
        FinishWriteDrainsIff(c, env);
      } else {
        match env.write
        case WriteFailed => CallsNeverShut(Log(c, OnError), env.onWriteError);
        case WriteKilled =>
        case Wrote(k) => if Written(c, k).output == [] { FinishWriteDrainsIff(Written(c, k), env); }
      }
    }
  }

  lemma ReportLeavesIff(c: Conn, m: multiset<Task>, ready: Ready, env: Env)
    requires Safe(c, m) && !c.shut && (NeedsConnect(ready) ==> OnConnect in c.log)
    ensures var c' := HandleEvents(c, ready, env);
            c'.shut ==>
              (c'.output != [] <==> Answers(GateAfterRead(GateOf(c), ready, env), env.onWriteComplete))
  {
    var c1 := ReadPart(c, ready, env);
    ReadNeverShuts(c, ready, env);
    if !c.exited && !c1.exited { ReadMovesGate(c, ready, env); }
    if ready.input || ready.prior || ready.readHangUp { HandleReadKeeps(c, m, env); }
    WriteLeavesIff(c1, m, env);
    LastPartsLeave(WritePart(c1, ready, env), ready, env);
  }

  lemma RemoveNeverShuts(c: Conn, env: Env)
    ensures HandleRemove(c, env).shut == c.shut
  {
    CallsNeverShut(Log(c, OnClose), env.onClose);
  }

  lemma StartNeverShuts(c: Conn, env: Env)
    ensures HandleStart(c, env).shut == c.shut
  {
    CallsNeverShut(Log(Moved(c.(registered := true), Connected), OnConnect), env.onConnect);
  }

  lemma SendNeverShuts(c: Conn, sender: Option<Tid>, msg: Bytes, granted: bool, named: bool)
    ensures HandleSend(c, sender, msg, granted, named).shut == c.shut
  {
  }

  lemma SocketShutLeaves(c: Conn, closeRead: bool, ok: bool)
    ensures var c' := SocketShut(c, closeRead, ok); c'.output == c.output && c'.accepted == c.accepted
  {
  }

  lemma ShutNowLeaves(c: Conn, closeRead: bool, env: Env)
    ensures var c' := ShutNow(c, closeRead, env); c'.output == c.output && c'.accepted == c.accepted
  {
    var c1 := SetWritable(Printed(c, env.named), false);
    assert c1.output == c.output && c1.accepted == c.accepted;
    SocketShutLeaves(c1, closeRead, env.shutOk);
  }

  lemma TaskLeavesIff(c: Conn, m: multiset<Task>, task: Task, env: Env)
    requires Safe(c, m) && !c.shut && Timely(c, task)
    ensures var c' := RunTask(c, task, env); c'.shut ==> (c'.output != [] <==> LeavesBytes(c, task, env))
  {
    match task
    case StartTask => StartNeverShuts(c, env);
    case SendTask(sender, msg) => SendNeverShuts(c, Some(sender), msg, env.granted, env.named);
    case EventTask(ready) => ReportLeavesIff(c, m, ready, env);
    case CloseTask => RemoveNeverShuts(c, env);
    case ShutdownTask(closeRead) => ShutNowLeaves(c, closeRead, env);
    case ForceShutdownTask => ShutNowLeaves(c, false, env);
    case RemoveTask => RemoveNeverShuts(c, env);
    case ForeignTask => CallsNeverShut(c, env.onForeign);
  }

  /** Only a task shuts the socket down. */
  lemma ShutByTask(rs: seq<Reactor>, steps: seq<Step>, i: nat)
    requires RunOf(rs, steps) && i < |steps| && rs[i].conn.shut != rs[i + 1].conn.shut
    ensures steps[i].Run?
  {
    assert Linked(rs, steps, i);
    if steps[i].OffLoop? { CallNeverShuts(rs[i].conn, steps[i].call); }
  }

  lemma TaskRuns(rs: seq<Reactor>, steps: seq<Step>, i: nat)
    requires RunOf(rs, steps) && i < |steps| && steps[i].Run?
    ensures Safe(rs[i].conn, rs[i].inflight) && Timely(rs[i].conn, steps[i].task)
    ensures rs[i + 1].conn == RunTask(rs[i].conn, steps[i].task, steps[i].env).(submitted := [])
  {
    InvAlong(rs, steps, i);
    assert Linked(rs, steps, i);
  }

  lemma StepLeavesIff(rs: seq<Reactor>, steps: seq<Step>, i: nat)
    requires RunOf(rs, steps) && i < |steps| && !rs[i].conn.shut && rs[i + 1].conn.shut
    ensures steps[i].Run? && (rs[i + 1].conn.output != [] <==> LeavesBytes(rs[i].conn, steps[i].task, steps[i].env))
  {
    ShutByTask(rs, steps, i);
    TaskRuns(rs, steps, i);
    TaskLeavesIff(rs[i].conn, rs[i].inflight, steps[i].task, steps[i].env);
  }

  /**
   In every run, for ever after the step that shuts the socket down, the wire holds exactly what was
   accepted if and only if that step was neither a forced shutdown with bytes waiting nor a finished
   write whose callback answered while the connection was still open.
   */
  lemma ShutdownDrainsIff(rs: seq<Reactor>, steps: seq<Step>, i: nat, j: nat)
    requires RunOf(rs, steps) && i < j <= |steps| && !rs[i].conn.shut && rs[i + 1].conn.shut
    ensures steps[i].Run?
    ensures rs[j].conn.wire == Flatten(rs[j].conn.accepted) <==> !LeavesBytes(rs[i].conn, steps[i].task, steps[i].env)
  {
    StepLeavesIff(rs, steps, i);
    InvAlong(rs, steps, i + 1);
    GrowsAlong(rs, steps, i + 1, j);
  }
}
