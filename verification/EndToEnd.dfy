/**
 From `Send` to the wire: any threads, the lock-free queue, the loop, the output buffer, and a socket
 that takes what it likes.
 */
module EndToEnd {
  import opened Base
  import opened ConnectionSpec
  import opened EventLoop
  import Lfq = LockFreeQueue
  import Fifo = AtomicQueue
  import CR = ConnectionRuns
  import CT = ConnectionTheorems
  import CD = ConnectionShutdown
  import CE = ConnectionExits
  import CL = ConnectionLedger
  import CO = ConnectionOutcomes

  // ---------- the connection's part of a run is a run of the connection ----------

  predicate Gentle(m: Move, strict: bool) {
    match m
    case OffLoop(call) => !call.StoreForceShutdown?
    case Work(env) => CR.GentleEnv(env, strict)
    case _ => true
  }

  ghost predicate AllGentle(ms: seq<Move>, strict: bool) {
    forall k | 0 <= k < |ms| :: Gentle(ms[k], strict)
  }

  ghost predicate AllGentleSteps(steps: seq<CR.Step>, strict: bool) {
    forall k | 0 <= k < |steps| :: CR.Gentle(steps[k], strict)
  }

  function StepFor(s: Loop, m: Move): CR.Step
    requires !m.Queue? && (m.Work? ==> s.hand.Some?)
  {
    match m
    case Announce(task) => CR.Announce(task)
    case OffLoop(call) => CR.OffLoop(call)
    case Work(env) => CR.Run(s.hand.value, env)
  }

  ghost function ReactorAt(ss: seq<Loop>, ms: seq<Move>): CR.Reactor
    requires Run(ss, ms)
  {
    CR.Reactor(ss[|ms|].conn, InFlight(ss, ms))
  }

  /** What a move of the loop other than a queue step does to the tasks in flight. */
  function Flow(s: Loop, m: Move, due: multiset<Task>, inflight: multiset<Task>): multiset<Task> {
    if m.Work? then inflight - multiset(InHand(s.hand)) + due else inflight + due
  }

  lemma OtherMovesFlow(ss: seq<Loop>, ms: seq<Move>, more: multiset<Task>)
    requires Run(ss, ms) && ms != [] && !ms[|ms| - 1].Queue?
    requires var n := |ms| - 1;
             ss[n + 1].due == ss[n].due + more && ss[n + 1].hand == if ms[n].Work? then None else ss[n].hand
    ensures var n := |ms| - 1;
            && Run(ss[..n + 1], ms[..n])
            && InFlight(ss, ms) == Flow(ss[n], ms[n], more, InFlight(ss[..n + 1], ms[..n]))
  {
    EventsStay(ss, ms);
  }

  lemma MoveIsStep(ss: seq<Loop>, ms: seq<Move>)
    requires Run(ss, ms) && ms != [] && !ms[|ms| - 1].Queue?
    ensures var n := |ms| - 1;
            && Run(ss[..n + 1], ms[..n]) && (ms[n].Work? ==> ss[n].hand.Some?)
            && CR.Next(ReactorAt(ss[..n + 1], ms[..n]), StepFor(ss[n], ms[n]), ReactorAt(ss, ms))
  {
    var n := |ms| - 1;
    RunPrefix(ss, ms, n);
    assert Linked(ss, ms, n);
    match ms[n]
    case Announce(task) => OtherMovesFlow(ss, ms, multiset{task});
    case OffLoop(call) => OtherMovesFlow(ss, ms, multiset(RunCall(ss[n].conn, call).submitted));
    case Work(env) =>
      assert multiset(InHand(ss[n].hand)) == multiset{ss[n].hand.value};
      OtherMovesFlow(ss, ms, multiset(RunTask(ss[n].conn, ss[n].hand.value, env).submitted));
  }

  // ---------- the connection's part, move by move ----------

  /** The steps of the connection: those of the moves that are not the queue's own, in order. */
  ghost function StepsOf(ss: seq<Loop>, ms: seq<Move>): seq<CR.Step>
    requires Run(ss, ms)
    decreases |ms|
  {
    if ms == [] then []
    else
      var n := |ms| - 1;
      RunPrefix(ss, ms, n);
      assert Linked(ss, ms, n);
      var before := StepsOf(ss[..n + 1], ms[..n]);
      if ms[n].Queue? then before else before + [StepFor(ss[n], ms[n])]
  }

  /** The states of the connection between them. */
  ghost function ReactorsOf(ss: seq<Loop>, ms: seq<Move>): seq<CR.Reactor>
    requires Run(ss, ms)
    decreases |ms|
  {
    if ms == [] then [ReactorAt(ss, ms)]
    else
      var n := |ms| - 1;
      RunPrefix(ss, ms, n);
      var before := ReactorsOf(ss[..n + 1], ms[..n]);
      if ms[n].Queue? then before else before + [ReactorAt(ss, ms)]
  }

  /** How many of the moves are not the queue's own. */
  function Others(ms: seq<Move>): nat {
    if ms == [] then 0 else Others(ms[..|ms| - 1]) + if ms[|ms| - 1].Queue? then 0 else 1
  }

  /** Leaving out the queue's own steps, a run of the loop is a run of its connection, step by step. */
  lemma {:induction false} ConnectionRun(ss: seq<Loop>, ms: seq<Move>)
    requires Run(ss, ms)
    ensures CR.RunOf(ReactorsOf(ss, ms), StepsOf(ss, ms))
    ensures |StepsOf(ss, ms)| == Others(ms)
    ensures ReactorsOf(ss, ms)[Others(ms)] == ReactorAt(ss, ms)
    decreases |ms|
  {
    if ms == [] {
      FirstReactor(ss);
    } else {
      var n := |ms| - 1;
      RunPrefix(ss, ms, n);
      ConnectionRun(ss[..n + 1], ms[..n]);
      if ms[n].Queue? {
        QueueMovesKeepInFlight(ss, ms);
        ConnectionIdle(ss, ms);
      } else {
        MoveIsStep(ss, ms);
        CR.RunOfExtends(ReactorsOf(ss[..n + 1], ms[..n]), StepsOf(ss[..n + 1], ms[..n]),
                        StepFor(ss[n], ms[n]), ReactorAt(ss, ms));
      }
    }
  }

  lemma FirstReactor(ss: seq<Loop>)
    requires Run(ss, [])
    ensures ReactorAt(ss, []) == CR.Reactor(FRESH, multiset{StartTask})
  {
  }

  /** The connection after `k` moves is where it should be. */
  lemma {:induction false} Placed(ss: seq<Loop>, ms: seq<Move>, k: nat)
    requires Run(ss, ms) && k <= |ms|
    ensures Others(ms[..k]) <= Others(ms) < |ReactorsOf(ss, ms)|
    ensures ReactorsOf(ss, ms)[Others(ms[..k])].conn == ss[k].conn
    decreases |ms|
  {
    ConnectionRun(ss, ms);
    if k == |ms| {
      assert ms[..k] == ms;
    } else {
      var n := |ms| - 1;
      RunPrefix(ss, ms, n);
      Placed(ss[..n + 1], ms[..n], k);
      assert ms[..n][..k] == ms[..k];
    }
  }

  /** And so is the step of the move that follows. */
  lemma {:induction false} PlacedStep(ss: seq<Loop>, ms: seq<Move>, k: nat)
    requires Run(ss, ms) && k < |ms| && !ms[k].Queue?
    ensures Others(ms[..k + 1]) == Others(ms[..k]) + 1 <= |StepsOf(ss, ms)|
    ensures ms[k].Work? ==> ss[k].hand.Some?
    ensures StepsOf(ss, ms)[Others(ms[..k])] == StepFor(ss[k], ms[k])
    decreases |ms|
  {
    var n := |ms| - 1;
    if k == n {
      LastPlaced(ss, ms);
    } else {
      RunPrefix(ss, ms, n);
      PlacedStep(ss[..n + 1], ms[..n], k);
      assert ms[..n][..k] == ms[..k] && ms[..n][..k + 1] == ms[..k + 1];
    }
  }

  lemma LastPlaced(ss: seq<Loop>, ms: seq<Move>)
    requires Run(ss, ms) && ms != [] && !ms[|ms| - 1].Queue?
    ensures var n := |ms| - 1;
            && Others(ms[..n + 1]) == Others(ms[..n]) + 1 == |StepsOf(ss, ms)|
            && (ms[n].Work? ==> ss[n].hand.Some?)
            && StepsOf(ss, ms)[Others(ms[..n])] == StepFor(ss[n], ms[n])
  {
    var n := |ms| - 1;
    RunPrefix(ss, ms, n);
    assert Linked(ss, ms, n);
    assert ms[..n + 1] == ms;
    ConnectionRun(ss[..n + 1], ms[..n]);
  }

  lemma {:induction false} OthersGrow(ms: seq<Move>, i: nat, j: nat)
    requires i <= j <= |ms|
    ensures Others(ms[..i]) <= Others(ms[..j])
    decreases j
  {
    if i < j {
      OthersGrow(ms, i, j - 1);
      assert ms[..j][..j - 1] == ms[..j - 1];
    }
  }

  lemma {:induction false} GentleRun(ss: seq<Loop>, ms: seq<Move>, strict: bool)
    requires Run(ss, ms) && AllGentle(ms, strict)
    ensures AllGentleSteps(StepsOf(ss, ms), strict)
    decreases |ms|
  {
    if ms != [] {
      var n := |ms| - 1;
      RunPrefix(ss, ms, n);
      GentleRun(ss[..n + 1], ms[..n], strict);
      assert Linked(ss, ms, n);
      GentleExtends(ms, StepsOf(ss[..n + 1], ms[..n]), ss[n], strict);
    }
  }

  lemma GentleExtends(ms: seq<Move>, steps: seq<CR.Step>, s: Loop, strict: bool)
    requires ms != [] && (AllGentle(ms[..|ms| - 1], strict) ==> AllGentleSteps(steps, strict))
    ensures var m := ms[|ms| - 1];
            AllGentle(ms, strict) ==>
              && AllGentleSteps(steps, strict)
              && (!m.Queue? && (m.Work? ==> s.hand.Some?) ==> AllGentleSteps(steps + [StepFor(s, m)], strict))
  {
  }

  lemma ConnectionIdle(ss: seq<Loop>, ms: seq<Move>)
    requires Run(ss, ms) && ms != [] && ms[|ms| - 1].Queue?
    ensures ss[|ms|].conn == ss[|ms| - 1].conn
  {
    assert Linked(ss, ms, |ms| - 1);
  }

  // ---------- what holds of the connection holds over the queue ----------

  /** Bytes on the wire and bytes waiting are the accepted messages, in order, at every moment. */
  lemma BytesConserved(ss: seq<Loop>, ms: seq<Move>)
    requires Run(ss, ms)
    ensures ss[|ms|].conn.wire + ss[|ms|].conn.output == CR.Flatten(ss[|ms|].conn.accepted)
  {
    ConnectionRun(ss, ms);
    CT.BytesConserved(ReactorsOf(ss, ms), StepsOf(ss, ms), Others(ms));
  }

  /** Once gracefully shut down, the wire holds exactly what was accepted. */
  lemma ShutdownDrains(ss: seq<Loop>, ms: seq<Move>)
    requires Run(ss, ms) && AllGentle(ms, true)
    requires ss[|ms|].conn.shut && !ss[|ms|].conn.exited
    ensures ss[|ms|].conn.wire == CR.Flatten(ss[|ms|].conn.accepted)
  {
    ConnectionRun(ss, ms);
    GentleRun(ss, ms, true);
    CT.ShutdownDrains(ReactorsOf(ss, ms), StepsOf(ss, ms), Others(ms), Others(ms));
  }

  /** Whatever overtakes what, closing is final; and no store overtaken, the state only moves forward. */
  lemma ForwardOnly(ss: seq<Loop>, ms: seq<Move>, i: nat, j: nat)
    requires Run(ss, ms) && i <= j <= |ms|
    ensures CR.Stage(ss[i].conn.state) <= CR.Stage(ss[j].conn.state)
    ensures !ss[j].conn.past.overtaken ==> Rank(ss[i].conn.state) <= Rank(ss[j].conn.state)
    ensures Closing(ss[i].conn.state) ==> ss[j].conn.accepted == ss[i].conn.accepted
  {
    ConnectionRun(ss, ms);
    Placed(ss, ms, i);
    Placed(ss, ms, j);
    OthersGrow(ms, i, j);
    CT.ForwardOnly(ReactorsOf(ss, ms), StepsOf(ss, ms), Others(ms[..i]), Others(ms[..j]));
  }

  /** For ever after the move that shuts the socket down, the wire holds what was accepted or that move left bytes. */
  lemma ShutdownDrainsIff(ss: seq<Loop>, ms: seq<Move>, i: nat, j: nat)
    requires Run(ss, ms) && i < j <= |ms| && !ss[i].conn.shut && ss[i + 1].conn.shut
    ensures ms[i].Work? && ss[i].hand.Some?
    ensures ss[j].conn.wire == CR.Flatten(ss[j].conn.accepted) <==>
            !CD.LeavesBytes(ss[i].conn, ss[i].hand.value, ms[i].env)
  {
    ConnectionRun(ss, ms);
    ShutIsNoQueueMove(ss, ms, i);
    PlacedStep(ss, ms, i);
    Placed(ss, ms, i);
    Placed(ss, ms, i + 1);
    Placed(ss, ms, j);
    OthersGrow(ms, i + 1, j);
    CD.ShutdownDrainsIff(ReactorsOf(ss, ms), StepsOf(ss, ms), Others(ms[..i]), Others(ms[..j]));
  }

  lemma ShutIsNoQueueMove(ss: seq<Loop>, ms: seq<Move>, i: nat)
    requires Run(ss, ms) && i < |ms| && ss[i + 1].conn != ss[i].conn
    ensures !ms[i].Queue?
  {
    assert Linked(ss, ms, i);
  }

  /** A close task the loop runs tells the handler, then or later, exactly if it finds nothing to write. */
  lemma CloseTellsIff(ss: seq<Loop>, ms: seq<Move>, i: nat, j: nat)
    requires Run(ss, ms) && i < j <= |ms| && ms[i].Work? && ss[i].hand == Some(CloseTask)
    requires !ss[j].conn.past.overtaken
    ensures ss[i].conn.output == [] <==> OnClose in ss[j].conn.log
  {
    ConnectionRun(ss, ms);
    PlacedStep(ss, ms, i);
    Placed(ss, ms, i);
    Placed(ss, ms, j);
    OthersGrow(ms, i + 1, j);
    CT.CloseTellsIff(ReactorsOf(ss, ms), StepsOf(ss, ms), Others(ms[..i]), Others(ms[..j]));
  }

  lemma QueueEndsNothing(ss: seq<Loop>, ms: seq<Move>, i: nat)
    requires Run(ss, ms) && i < |ms| && ms[i].Queue?
    ensures !ss[i + 1].conn.exited
  {
    assert Linked(ss, ms, i);
  }

  /** A move other than the queue's own ends the process exactly if one of the causes is met in it. */
  lemma StepExitsIff(ss: seq<Loop>, ms: seq<Move>, i: nat)
    requires Run(ss, ms) && i < |ms|
    ensures ms[i].Work? ==> ss[i].hand.Some?
    ensures ss[i + 1].conn.exited <==> !ms[i].Queue? && CE.StepFatal(ss[i].conn, StepFor(ss[i], ms[i]))
  {
    if ms[i].Queue? {
      QueueEndsNothing(ss, ms, i);
    } else {
      ConnectionRun(ss, ms);
      PlacedStep(ss, ms, i);
      Placed(ss, ms, i);
      Placed(ss, ms, i + 1);
      CE.StepExitsIff(ReactorsOf(ss, ms), StepsOf(ss, ms), Others(ms[..i]));
    }
  }

  /**
   As long as no store was overtaken, a removal the loop has in hand finds the connection disconnected
   and its handler not yet told.
   */
  lemma RemovalInHand(ss: seq<Loop>, ms: seq<Move>)
    requires Run(ss, ms) && !ss[|ms|].conn.past.overtaken
    requires ss[|ms|].hand == Some(RemoveTask) || ss[|ms|].hand == Some(CloseTask)
    ensures ss[|ms|].conn.state == Disconnected && OnClose !in ss[|ms|].conn.log
  {
    ConnectionRun(ss, ms);
    CT.RemovalsFindDisconnected(ReactorsOf(ss, ms), StepsOf(ss, ms), Others(ms), ss[|ms|].hand.value);
  }

  /**
   As long as the process lives, the inputs of the moves made decide what was accepted, by whichever
   way it came, and how much of it is on the wire; the last move of a process does no more than they say.
   */
  lemma InputsDecide(ss: seq<Loop>, ms: seq<Move>)
    requires Run(ss, ms)
    ensures var c, l := ss[|ms|].conn, CL.LedgerOf(StepsOf(ss, ms));
            && c.accepted <= l.accepted && |c.wire| <= l.taken
            && (!c.exited ==> CL.Agrees(c, l) && l.taken <= |CR.Flatten(l.accepted)|
                              && c.wire == CR.Flatten(l.accepted)[..l.taken])
  {
    ConnectionRun(ss, ms);
    assert StepsOf(ss, ms)[..Others(ms)] == StepsOf(ss, ms);
    CL.InputsBound(ReactorsOf(ss, ms), StepsOf(ss, ms), Others(ms));
    if !ss[|ms|].conn.exited { CL.InputsDecide(ReactorsOf(ss, ms), StepsOf(ss, ms), Others(ms)); }
  }

  /** The handler is given exactly the bytes that arrived, report by report and in order. */
  lemma ReceivedIsHeard(ss: seq<Loop>, ms: seq<Move>)
    requires Run(ss, ms)
    ensures CO.Heard(ss[|ms|].conn.log) == CO.Arrived(StepsOf(ss, ms))
  {
    ConnectionRun(ss, ms);
    assert StepsOf(ss, ms)[..Others(ms)] == StepsOf(ss, ms);
    CO.ReceivedIsHeard(ReactorsOf(ss, ms), StepsOf(ss, ms), Others(ms));
  }

  // ---------- which messages are accepted ----------

  /** The accepted messages that came through the queue. */
  function FromQueue(accepted: seq<Accepted>): seq<Accepted> {
    if accepted == [] then []
    else
      var rest, a := FromQueue(accepted[..|accepted| - 1]), accepted[|accepted| - 1];
      if a.sender.Some? then rest + [a] else rest
  }

  /** The message a task carries; an empty one is never accepted. */
  function MessageOf(task: Task): seq<Accepted> {
    if task.SendTask? && task.msg != [] then [Accepted(Some(task.sender), task.msg)] else []
  }

  function Messages(tasks: seq<Task>): seq<Accepted> {
    if tasks == [] then [] else Messages(tasks[..|tasks| - 1]) + MessageOf(tasks[|tasks| - 1])
  }

  lemma FromQueueAppend(accepted: seq<Accepted>, a: Accepted)
    ensures FromQueue(accepted + [a]) == FromQueue(accepted) + if a.sender.Some? then [a] else []
  {
  }

  lemma MessagesAppend(tasks: seq<Task>, task: Task)
    ensures Messages(tasks + [task]) == Messages(tasks) + MessageOf(task)
  {
  }

  lemma CallKeepsQueued(c: Conn, call: Call)
    ensures FromQueue(RunCall(c, call).accepted) == FromQueue(c.accepted)
  {
    if call.CallSend? { FromQueueAppend(c.accepted, Accepted(None, call.msg)); }
  }

  /** Calls made on the loop never count as coming through the queue. */
  lemma {:induction false} CallsKeepQueued(c: Conn, calls: seq<Call>)
    ensures FromQueue(RunCalls(c, calls).accepted) == FromQueue(c.accepted)
    decreases |calls|
  {
    if calls != [] {
      CallKeepsQueued(c, calls[0]);
      CallsKeepQueued(RunCall(c, calls[0]), calls[1..]);
    }
  }

  lemma CallbackKeepsQueued(c: Conn, e: Effect, calls: seq<Call>)
    ensures FromQueue(Callback(c, e, calls).accepted) == FromQueue(c.accepted)
  {
    CallsKeepQueued(Log(c, e), calls);
  }

  lemma ReadKeepsQueued(c: Conn, env: Env)
    ensures FromQueue(HandleRead(c, env).accepted) == FromQueue(c.accepted)
  {
    if env.read.Received? { CallbackKeepsQueued(c, OnRead(env.read.bytes), env.onRead); }
    CallbackKeepsQueued(c, OnError, env.onReadError);
    CallsKeepQueued(c, env.gapRead);
  }

  lemma FinishKeepsQueued(c: Conn, env: Env)
    ensures FromQueue(FinishWrite(c, env).accepted) == FromQueue(c.accepted)
  {
    CallbackKeepsQueued(SetWritable(c, false), OnWriteComplete, env.onWriteComplete);
  }

  lemma WriteKeepsQueued(c: Conn, env: Env)
    ensures FromQueue(HandleWrite(c, env).accepted) == FromQueue(c.accepted)
  {
    CallbackKeepsQueued(c, OnError, env.onWriteError);
    if env.write.Wrote? { FinishKeepsQueued(Written(c, env.write.n), env); }
    FinishKeepsQueued(c, env);
  }

  lemma ErrorPartKeepsQueued(c: Conn, ready: Ready, env: Env)
    ensures FromQueue(ErrorPart(c, ready, env).accepted) == FromQueue(c.accepted)
  {
    CallbackKeepsQueued(c, OnError, env.onError);
  }

  lemma HangUpPartKeepsQueued(c: Conn, ready: Ready, env: Env)
    ensures FromQueue(HangUpPart(c, ready, env).accepted) == FromQueue(c.accepted)
  {
    CallsKeepQueued(c, env.gapHangUp);
  }

  lemma EventsKeepQueued(c: Conn, ready: Ready, env: Env)
    ensures FromQueue(HandleEvents(c, ready, env).accepted) == FromQueue(c.accepted)
  {
    var c1 := ReadPart(c, ready, env);
    ReadKeepsQueued(c, env);
    var c2 := WritePart(c1, ready, env);
    WriteKeepsQueued(c1, env);
    ErrorPartKeepsQueued(c2, ready, env);
    HangUpPartKeepsQueued(ErrorPart(c2, ready, env), ready, env);
  }

  lemma SendAccepts(c: Conn, task: Task, env: Env)
    requires !c.exited && task.SendTask?
    ensures var c' := RunTask(c, task, env);
            FromQueue(c'.accepted) ==
            FromQueue(c.accepted) + if c.state == Connected && !c'.exited then MessageOf(task) else []
  {
  }

  lemma StartKeepsQueued(c: Conn, env: Env)
    ensures FromQueue(HandleStart(c, env).accepted) == FromQueue(c.accepted)
  {
    CallbackKeepsQueued(Moved(c.(registered := true), Connected), OnConnect, env.onConnect);
  }

  lemma RemoveKeepsQueued(c: Conn, env: Env)
    ensures FromQueue(HandleRemove(c, env).accepted) == FromQueue(c.accepted)
  {
    CallbackKeepsQueued(c, OnClose, env.onClose);
  }

  lemma OthersKeepQueued(c: Conn, task: Task, env: Env)
    requires !task.SendTask?
    ensures FromQueue(RunTask(c, task, env).accepted) == FromQueue(c.accepted)
  {
    match task
    case StartTask => StartKeepsQueued(c, env);
    case EventTask(ready) => EventsKeepQueued(c, ready, env);
    case CloseTask => RemoveKeepsQueued(c, env);
    case RemoveTask => RemoveKeepsQueued(c, env);
    case ShutdownTask(closeRead) => CD.ShutNowLeaves(c, closeRead, env);
    case ForceShutdownTask => CD.ShutNowLeaves(c, false, env);
    case ForeignTask => CallsKeepQueued(c, env.onForeign);
  }

  /** A task adds its message exactly if it is a non-empty send run while connected. */
  lemma TaskAccepts(c: Conn, task: Task, env: Env)
    requires !c.exited
    ensures var c' := RunTask(c, task, env);
            FromQueue(c'.accepted) ==
            FromQueue(c.accepted) + if c.state == Connected && !c'.exited then MessageOf(task) else []
  {
    if task.SendTask? { SendAccepts(c, task, env); } else { OthersKeepQueued(c, task, env); }
  }

  /** The tasks the loop ran from beginning to end while the connection was open, in order. */
  ghost function RunWhileConnected(ss: seq<Loop>, ms: seq<Move>): seq<Task>
    requires |ss| == |ms| + 1
    decreases |ms|
  {
    if ms == [] then []
    else
      var n := |ms| - 1;
      var before := RunWhileConnected(ss[..n + 1], ms[..n]);
      if ms[n].Work? && ss[n].hand.Some? && ss[n].conn.state == Connected && !ss[n + 1].conn.exited
      then before + [ss[n].hand.value]
      else before
  }

  /** Exactly the messages of the sends run while connected are accepted, in that order. */
  lemma {:induction false} AcceptedIffConnected(ss: seq<Loop>, ms: seq<Move>)
    requires Run(ss, ms)
    ensures FromQueue(ss[|ms|].conn.accepted) == Messages(RunWhileConnected(ss, ms))
    decreases |ms|
  {
    if ms != [] {
      var n := |ms| - 1;
      RunPrefix(ss, ms, n);
      AcceptedIffConnected(ss[..n + 1], ms[..n]);
      assert Linked(ss, ms, n);
      if ms[n].Work? {
        WorkRuns(ss[n], ms[n], ss[n + 1]);
        WorkAccepts(ss[n].conn, ss[n + 1].conn, ss[n].hand.value, ms[n].env, RunWhileConnected(ss[..n + 1], ms[..n]));
      } else {
        OthersAcceptNothing(ss[n], ms[n], ss[n + 1]);
      }
    }
  }

  lemma WorkAccepts(c: Conn, c': Conn, task: Task, env: Env, part: seq<Task>)
    requires !c.exited && c' == RunTask(c, task, env).(submitted := []) && FromQueue(c.accepted) == Messages(part)
    ensures FromQueue(c'.accepted) == Messages(if c.state == Connected && !c'.exited then part + [task] else part)
  {
    TaskAccepts(c, task, env);
    MessagesAppend(part, task);
  }

  lemma WorkRuns(s: Loop, m: Move, s': Loop)
    requires Next(s, m, s') && m.Work?
    ensures s.hand.Some? && !s.conn.exited && s'.conn == RunTask(s.conn, s.hand.value, m.env).(submitted := [])
  {
  }

  lemma OthersAcceptNothing(s: Loop, m: Move, s': Loop)
    requires Next(s, m, s') && !m.Work?
    ensures s'.conn.accepted == s.conn.accepted && !s.conn.exited
    ensures CR.Stage(s.conn.state) <= CR.Stage(s'.conn.state)
    ensures s'.conn.state == Connected ==> s.conn.state == Connected
  {
    if m.OffLoop? {
      CR.RunCallGrows(s.conn, m.call);
      OthersSendNothing(s.conn, m.call);
    }
  }

  lemma OthersSendNothing(c: Conn, call: Call)
    requires !call.CallSend?
    ensures RunCall(c, call).accepted == c.accepted && (RunCall(c, call).state == Connected ==> c.state == Connected)
  {
  }

  /** Those tasks are one unbroken stretch of all the loop ran, up to the latest while still open. */
  ghost predicate Stretch(c: Conn, executed: seq<Task>, part: seq<Task>, lo: nat, hi: nat) {
    && lo <= hi <= |executed| && part == executed[lo..hi]
    && (c.state == Connecting ==> part == [])
    && (c.state == Connected && !c.exited ==> hi == |executed|)
  }

  lemma {:induction false} ConnectedIsStretch(ss: seq<Loop>, ms: seq<Move>) returns (lo: nat, hi: nat)
    requires Run(ss, ms)
    ensures Stretch(ss[|ms|].conn, Executed(ss, ms), RunWhileConnected(ss, ms), lo, hi)
    decreases |ms|
  {
    if ms == [] {
      lo, hi := 0, 0;
    } else {
      var n := |ms| - 1;
      RunPrefix(ss, ms, n);
      lo, hi := ConnectedIsStretch(ss[..n + 1], ms[..n]);
      assert Linked(ss, ms, n);
      if ms[n].Work? {
        WorkRuns(ss[n], ms[n], ss[n + 1]);
        CR.RunTaskGrows(ss[n].conn, ss[n].hand.value, ms[n].env);
        lo, hi := StretchGoesOn(ss[n].conn, ss[n + 1].conn, Executed(ss[..n + 1], ms[..n]),
                                RunWhileConnected(ss[..n + 1], ms[..n]), lo, hi, ss[n].hand.value);
      } else {
        OthersAcceptNothing(ss[n], ms[n], ss[n + 1]);
      }
    }
  }

  lemma StretchGoesOn(c: Conn, c': Conn, done: seq<Task>, part: seq<Task>, lo: nat, hi: nat, task: Task)
    returns (lo': nat, hi': nat)
    requires Stretch(c, done, part, lo, hi) && !c.exited && CR.Stage(c.state) <= CR.Stage(c'.state)
    ensures Stretch(c', done + [task], if c.state == Connected && !c'.exited then part + [task] else part, lo', hi')
  {
    var more := done + [task];
    assert more[lo..hi] == done[lo..hi];
    if c.state == Connected && !c'.exited {
      lo', hi' := lo, |more|;
      assert more[lo..hi'] == done[lo..hi] + [task];
    } else if c.state == Connecting {
      lo', hi' := |more|, |more|;
    } else {
      lo', hi' := lo, hi;
    }
  }

  // ---------- each sender's own order ----------

  function SendsOf(tasks: seq<Task>, t: Tid): seq<Task> {
    if tasks == [] then []
    else
      var rest, task := SendsOf(tasks[..|tasks| - 1], t), tasks[|tasks| - 1];
      if task.SendTask? && task.sender == t then rest + [task] else rest
  }

  lemma {:induction false} SendsOfConcat(a: seq<Task>, b: seq<Task>, t: Tid)
    ensures SendsOf(a + b, t) == SendsOf(a, t) + SendsOf(b, t)
    decreases |b|
  {
    if b == [] {
      assert a + b == a;
    } else {
      var n := |b| - 1;
      SendsOfConcat(a, b[..n], t);
      assert (a + b)[..|a + b| - 1] == a + b[..n];
    }
  }

  lemma SendsOfPrefix(a: seq<Task>, b: seq<Task>, t: Tid)
    requires a <= b
    ensures SendsOf(a, t) <= SendsOf(b, t)
  {
    assert b == a + b[|a|..];
    SendsOfConcat(a, b[|a|..], t);
  }

  /** A send is only ever pushed by the thread it names. */
  ghost predicate OwnSends(es: seq<Fifo.Event<Task>>) {
    forall i | 0 <= i < |es| :: OwnSend(es[i])
  }

  predicate OwnSend(e: Fifo.Event<Task>) {
    && (e.InvokePush? && e.x.SendTask? ==> e.x.sender == e.t)
    && (e.LinPush? && e.x.SendTask? ==> e.x.sender == e.t)
  }

  ghost predicate OwnWaiting(s: Fifo.State<Task>) {
    forall t | t in s.pushers && s.pushers[t].Invoked? && s.pushers[t].x.SendTask? :: s.pushers[t].x.sender == t
  }

  ghost predicate OwnInvokes(es: seq<Fifo.Event<Task>>) {
    forall i | 0 <= i < |es| :: OwnInvoke(es[i])
  }

  predicate OwnInvoke(e: Fifo.Event<Task>) {
    e.InvokePush? && e.x.SendTask? ==> e.x.sender == e.t
  }

  lemma SendsAreOwn(ss: seq<Loop>, ms: seq<Move>) returns (abs: seq<Fifo.State<Task>>)
    requires Run(ss, ms)
    ensures Fifo.Run(abs, Events(ss, ms)) && OwnSends(Events(ss, ms))
  {
    var es := Events(ss, ms);
    var g;
    abs, g := SpecRun(ss, ms);
    InvokesAreOwn(ss, ms);
    OwnAlong(abs, es, |es|);
    assert es[..|es|] == es;
  }

  lemma {:induction false} InvokesAreOwn(ss: seq<Loop>, ms: seq<Move>)
    requires Run(ss, ms)
    ensures OwnInvokes(Events(ss, ms))
    decreases |ms|
  {
    if ms != [] {
      var n := |ms| - 1;
      RunPrefix(ss, ms, n);
      InvokesAreOwn(ss[..n + 1], ms[..n]);
      assert Linked(ss, ms, n);
      if ms[n].Queue? { MoveIsOwn(ss[n], ms[n], ss[n + 1]); }
    }
  }

  lemma MoveIsOwn(s: Loop, m: Move, s': Loop)
    requires Next(s, m, s') && m.Queue?
    ensures OwnInvoke(Lfq.EventOf(s.q, m.a))
  {
    if m.a.StepPush? { PushEventsAskNothing(s.q, m.a.t); }
    if m.a.StepPop? { PopEventsReturn(s.q); }
  }

  lemma {:induction false} OwnAlong(abs: seq<Fifo.State<Task>>, es: seq<Fifo.Event<Task>>, n: nat)
    requires Fifo.Run(abs, es) && n <= |es| && OwnInvokes(es)
    ensures OwnSends(es[..n]) && OwnWaiting(abs[n])
  {
    if n > 0 {
      OwnAlong(abs, es, n - 1);
      assert Fifo.Next(abs[n - 1], es[n - 1], abs[n]) && OwnInvoke(es[n - 1]);
      assert es[..n] == es[..n - 1] + [es[n - 1]];
    }
  }

  lemma {:induction false} SendsPushedByThemselves(es: seq<Fifo.Event<Task>>, t: Tid)
    requires OwnSends(es)
    ensures SendsOf(Fifo.Pushed(es), t) == SendsOf(Fifo.PushedBy(es, t), t)
  {
    if es != [] {
      var n := |es| - 1;
      SendsPushedByThemselves(es[..n], t);
      var e := es[n];
      if e.LinPush? {
        assert OwnSend(e);
        SendsOfConcat(Fifo.Pushed(es[..n]), [e.x], t);
        SendsOfConcat(Fifo.PushedBy(es[..n], t), [e.x], t);
      }
    }
  }

  /** The sends of one thread run in the order in which it made them, none skipped. */
  lemma SenderOrder(ss: seq<Loop>, ms: seq<Move>, t: Tid)
    requires Run(ss, ms)
    ensures SendsOf(Executed(ss, ms), t) <= SendsOf(Fifo.InvokedBy(Events(ss, ms), t), t)
  {
    var es := Events(ss, ms);
    var abs := SendsAreOwn(ss, ms);
    var _ := TaskAccounting(ss, ms);
    SendsOfPrefix(Executed(ss, ms), Fifo.Pushed(es), t);
    SendsPushedByThemselves(es, t);
    Fifo.ProgramOrder(abs, es, t);
    SendsOfPrefix(Fifo.PushedBy(es, t), Fifo.InvokedBy(es, t), t);
  }

  // ---------- end to end ----------

  /**
   The wire carries a prefix of the accepted messages laid end to end: as many bytes as the socket
   said it took. All accepted messages are those the inputs give. Those that came through the
   queue are the sends the loop ran while connected, an unbroken stretch of the tasks it ran; it
   ran them in the order they were pushed, and each thread's in the order that thread made them.
   */
  lemma SendToWire(ss: seq<Loop>, ms: seq<Move>) returns (lo: nat, hi: nat)
    requires Run(ss, ms)
    ensures ss[|ms|].conn.wire <= CR.Flatten(ss[|ms|].conn.accepted)
    ensures !ss[|ms|].conn.exited ==>
              var l := CL.LedgerOf(StepsOf(ss, ms));
              ss[|ms|].conn.accepted == l.accepted && |ss[|ms|].conn.wire| == l.taken
    ensures FromQueue(ss[|ms|].conn.accepted) == Messages(RunWhileConnected(ss, ms))
    ensures lo <= hi <= |Executed(ss, ms)| && RunWhileConnected(ss, ms) == Executed(ss, ms)[lo..hi]
    ensures Executed(ss, ms) <= Fifo.Pushed(Events(ss, ms))
    ensures forall t: Tid :: SendsOf(Executed(ss, ms), t) <= SendsOf(Fifo.InvokedBy(Events(ss, ms), t), t)
  {
    BytesConserved(ss, ms);
    InputsDecide(ss, ms);
    AcceptedIffConnected(ss, ms);
    lo, hi := ConnectedIsStretch(ss, ms);
    var _ := TaskAccounting(ss, ms);
    forall t: Tid ensures SendsOf(Executed(ss, ms), t) <= SendsOf(Fifo.InvokedBy(Events(ss, ms), t), t) {
      SenderOrder(ss, ms, t);
    }
  }
}
