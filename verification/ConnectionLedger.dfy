/**
 A connection as its inputs tell it: no buffer, no interest mask, no memory, no end of the process.
 The ledger counts the bytes that wait and those the socket took, and keeps what was accepted, what
 the handler and the socket were told, and which tasks were asked for. Every run of a connection
 follows its ledger, so that what reaches the peer and the handler depends on the inputs alone.
 */
module ConnectionLedger {
  import opened Base
  import opened ConnectionSpec
  import opened ConnectionRuns
  import opened ConnectionTheorems
  import opened ConnectionShutdown

  datatype Ledger = Ledger(
    gate: Gate,
    accepted: seq<Accepted>,
    waiting: nat,
    taken: nat,
    shut: bool,
    started: bool,
    reading: bool,
    forced: bool,
    log: seq<Effect>,
    asked: multiset<Task>)

  const BLANK := Ledger(Gate(Connecting, Checked(0, 0)), [], 0, 0, false, false, false, false, [], multiset{StartTask})

  // ---------- calls ----------

  function Accept(l: Ledger, sender: Option<Tid>, msg: Bytes): Ledger {
    if l.gate.state != Connected || msg == [] then l
    else l.(accepted := l.accepted + [Accepted(sender, msg)], waiting := l.waiting + |msg|)
  }

  /** The task that a call gives to the loop if it comes at this gate. */
  function TaskOf(g: Gate, call: Call): seq<Task> {
    match call
    case CallClose => if g.state == Connected then [CloseTask] else []
    case CallShutdown(closeRead) => if g.state == Connected then [ShutdownTask(closeRead)] else []
    case StoreForceShutdown => if g.checked.shuts > 0 then [ForceShutdownTask] else []
    case StoreForceClose => if g.checked.closes > 0 then [RemoveTask] else []
    case _ => []
  }

  function EnterCall(l: Ledger, call: Call): Ledger {
    if call.CallSend? then Accept(l, None, call.msg)
    else l.(gate := GateStep(l.gate, call), asked := l.asked + multiset(TaskOf(l.gate, call)))
  }

  function EnterCalls(l: Ledger, calls: seq<Call>): Ledger
    decreases |calls|
  {
    if calls == [] then l else EnterCalls(EnterCall(l, calls[0]), calls[1..])
  }

  function Note(l: Ledger, e: Effect): Ledger {
    l.(log := l.log + [e])
  }

  function EnterCallback(l: Ledger, e: Effect, calls: seq<Call>): Ledger {
    EnterCalls(Note(l, e), calls)
  }

  // ---------- tasks ----------

  /** `handleClose`: unless disconnected already, a removal is asked for. */
  function EnterClose(l: Ledger, gap: seq<Call>): Ledger {
    if l.gate.state == Disconnected then l
    else
      var l1 := EnterCalls(l, gap);
      l1.(gate := l1.gate.(state := Disconnected), asked := l1.asked + multiset{RemoveTask})
  }

  function EnterRead(l: Ledger, ready: Ready, env: Env): Ledger {
    if !(ready.input || ready.prior || ready.readHangUp) || env.read.WouldBlock? then l
    else if env.read.ReadFailed? then EnterCallback(l, OnError, env.onReadError)
    else if env.read.bytes == [] then EnterClose(l, env.gapRead)
    else EnterCallback(l, OnRead(env.read.bytes), env.onRead)
  }

  function EnterShut(l: Ledger, closeRead: bool): Ledger {
    Note(l.(shut := true), SocketShutdown(closeRead))
  }

  function EnterFinish(l: Ledger, env: Env): Ledger {
    var l1 := EnterCallback(l, OnWriteComplete, env.onWriteComplete);
    if l1.gate.state == Disconnecting then EnterShut(l1, false) else l1
  }

  /** The socket takes what it says it took, at most all that waits, and nothing once shut down. */
  function Took(l: Ledger, write: WriteOutcome): nat {
    if l.shut || !write.Wrote? then 0 else if write.n < l.waiting then write.n else l.waiting
  }

  function EnterWrite(l: Ledger, ready: Ready, env: Env): Ledger {
    if !ready.output then l
    else if l.waiting > 0 && (env.write.WriteFailed? || (l.shut && env.write.Wrote?)) then
      EnterCallback(l, OnError, env.onWriteError)
    else
      var n := Took(l, env.write);
      var l1 := l.(waiting := l.waiting - n, taken := l.taken + n);
      if l1.waiting == 0 then EnterFinish(l1, env) else l1
  }

  function EnterError(l: Ledger, ready: Ready, env: Env): Ledger {
    if ready.error then EnterCallback(l, OnError, env.onError) else l
  }

  function EnterHangUp(l: Ledger, ready: Ready, env: Env): Ledger {
    if ready.hangUp && !ready.input then EnterClose(l, env.gapHangUp) else l
  }

  function EnterReport(l: Ledger, ready: Ready, env: Env): Ledger {
    EnterHangUp(EnterError(EnterWrite(EnterRead(l, ready, env), ready, env), ready, env), ready, env)
  }

  function EnterStart(l: Ledger, env: Env): Ledger {
    var l1 := l.(started := true);
    if l1.gate.state != Connecting then l1
    else EnterCallback(l1.(gate := l1.gate.(state := Connected)), OnConnect, env.onConnect).(reading := true)
  }

  function EnterRemove(l: Ledger, env: Env): Ledger {
    Note(EnterCallback(l, OnClose, env.onClose), ContextCleared)
  }

  function EnterTask(l: Ledger, task: Task, env: Env): Ledger {
    match task
    case StartTask => EnterStart(l, env)
    case SendTask(sender, msg) => Accept(l, Some(sender), msg)
    case EventTask(ready) => EnterReport(l, ready, env)
    case CloseTask => if l.waiting == 0 then EnterRemove(l, env) else l
    case ShutdownTask(closeRead) => if l.waiting == 0 then EnterShut(l, closeRead) else l
    case ForceShutdownTask => EnterShut(l.(forced := true), false)
    case RemoveTask => EnterRemove(l, env)
    case ForeignTask => EnterCalls(l, env.onForeign)
  }

  function EnterStep(l: Ledger, s: Step): Ledger {
    match s
    case Announce(task) => l.(asked := l.asked + multiset{task})
    case OffLoop(call) => EnterCall(l, call)
    case Run(task, env) => EnterTask(l, task, env)
  }

  function LedgerOf(steps: seq<Step>): Ledger {
    if steps == [] then BLANK else EnterStep(LedgerOf(steps[..|steps| - 1]), steps[|steps| - 1])
  }

  /** The tasks the loop ran. */
  function Done(steps: seq<Step>): multiset<Task> {
    if steps == [] then multiset{}
    else
      var s := steps[|steps| - 1];
      Done(steps[..|steps| - 1]) + if s.Run? then multiset{s.task} else multiset{}
  }

  // ---------- what it means to follow ----------

  /** `Shutdown` has been asked for at most once, and not while open. */
  predicate OneShutdown(l: Ledger) {
    l.asked[ShutdownTask(true)] + l.asked[ShutdownTask(false)] <= if Closing(l.gate.state) then 1 else 0
  }

  /** The ledger goes on, no forced shutdown being entered. */
  predicate Ahead(l: Ledger, l': Ledger) {
    && l.accepted <= l'.accepted && l.log <= l'.log && l.taken <= l'.taken && l'.forced == l.forced
    && (OneShutdown(l) ==> OneShutdown(l'))
  }

  predicate Agrees(c: Conn, l: Ledger) {
    && GateOf(c) == l.gate
    && c.accepted == l.accepted && |c.output| == l.waiting && |c.wire| == l.taken
    && c.shut == l.shut && c.registered == l.started && c.readable == l.reading && c.log == l.log
    && (c.writable <==> l.waiting > 0 && !l.forced) && (l.forced ==> Closing(c.state))
  }

  /** `m` are the tasks asked for before the running handler began. */
  predicate Follows(c: Conn, m: multiset<Task>, l: Ledger) {
    if c.exited then c.accepted <= l.accepted && c.log <= l.log && |c.wire| <= l.taken
    else Agrees(c, l) && m + multiset(c.submitted) == l.asked
  }

  lemma Behind(c: Conn, m: multiset<Task>, l: Ledger, l': Ledger)
    requires Follows(c, m, l) && c.exited && Ahead(l, l')
    ensures Follows(c, m, l')
  {
  }

  lemma AheadOn(a: Ledger, b: Ledger, c: Ledger)
    requires Ahead(a, b) && Ahead(b, c)
    ensures Ahead(a, c)
  {
  }

  lemma AcceptAhead(l: Ledger, sender: Option<Tid>, msg: Bytes)
    ensures Ahead(l, Accept(l, sender, msg))
  {
  }

  lemma CallAhead(l: Ledger, call: Call)
    ensures Ahead(l, EnterCall(l, call))
  {
    if call.CallSend? { AcceptAhead(l, None, call.msg); }
  }

  lemma {:induction false} CallsAhead(l: Ledger, calls: seq<Call>)
    ensures Ahead(l, EnterCalls(l, calls))
    decreases |calls|
  {
    if calls != [] {
      var l1 := EnterCall(l, calls[0]);
      CallAhead(l, calls[0]);
      CallsAhead(l1, calls[1..]);
      AheadOn(l, l1, EnterCalls(l, calls));
    }
  }

  lemma CallbackAhead(l: Ledger, e: Effect, calls: seq<Call>)
    ensures Ahead(l, EnterCallback(l, e, calls))
  {
    CallsAhead(Note(l, e), calls);
    AheadOn(l, Note(l, e), EnterCallback(l, e, calls));
  }

  lemma CloseAhead(l: Ledger, gap: seq<Call>)
    ensures Ahead(l, EnterClose(l, gap))
  {
    CallsAhead(l, gap);
  }

  lemma ReadAhead(l: Ledger, ready: Ready, env: Env)
    ensures Ahead(l, EnterRead(l, ready, env))
  {
    CallbackAhead(l, OnError, env.onReadError);
    CloseAhead(l, env.gapRead);
    if env.read.Received? { CallbackAhead(l, OnRead(env.read.bytes), env.onRead); }
  }

  lemma FinishAhead(l: Ledger, env: Env)
    ensures Ahead(l, EnterFinish(l, env))
  {
    var l1 := EnterCallback(l, OnWriteComplete, env.onWriteComplete);
    CallbackAhead(l, OnWriteComplete, env.onWriteComplete);
    AheadOn(l, l1, EnterFinish(l, env));
  }

  lemma WriteAhead(l: Ledger, ready: Ready, env: Env)
    ensures Ahead(l, EnterWrite(l, ready, env))
  {
    CallbackAhead(l, OnError, env.onWriteError);
    var n := Took(l, env.write);
    var l1 := l.(waiting := l.waiting - n, taken := l.taken + n);
    FinishAhead(l1, env);
    AheadOn(l, l1, EnterFinish(l1, env));
  }

  lemma LastPartsAhead(l: Ledger, ready: Ready, env: Env)
    ensures Ahead(l, EnterError(l, ready, env)) && Ahead(l, EnterHangUp(l, ready, env))
  {
    CallbackAhead(l, OnError, env.onError);
    CloseAhead(l, env.gapHangUp);
  }

  lemma ReportAhead(l: Ledger, ready: Ready, env: Env)
    ensures Ahead(l, EnterReport(l, ready, env))
  {
    var l1 := EnterRead(l, ready, env);
    ReadAhead(l, ready, env);
    var l2 := EnterWrite(l1, ready, env);
    WriteAhead(l1, ready, env);
    AheadOn(l, l1, l2);
    var l3 := EnterError(l2, ready, env);
    LastPartsAhead(l2, ready, env);
    AheadOn(l, l2, l3);
    LastPartsAhead(l3, ready, env);
    AheadOn(l, l3, EnterHangUp(l3, ready, env));
  }

  lemma StartAhead(l: Ledger, env: Env)
    ensures Ahead(l, EnterStart(l, env))
  {
    CallbackAhead(l.(started := true, gate := l.gate.(state := Connected)), OnConnect, env.onConnect);
  }

  lemma RemoveAhead(l: Ledger, env: Env)
    ensures Ahead(l, EnterRemove(l, env))
  {
    CallbackAhead(l, OnClose, env.onClose);
    AheadOn(l, EnterCallback(l, OnClose, env.onClose), EnterRemove(l, env));
  }

  lemma TaskAhead(l: Ledger, task: Task, env: Env)
    requires task != ForceShutdownTask
    ensures Ahead(l, EnterTask(l, task, env))
  {
    match task
    case StartTask => StartAhead(l, env);
    case SendTask(sender, msg) => AcceptAhead(l, Some(sender), msg);
    case EventTask(ready) => ReportAhead(l, ready, env);
    case CloseTask => RemoveAhead(l, env);
    case ShutdownTask(_) =>
    case RemoveTask => RemoveAhead(l, env);
    case ForeignTask => CallsAhead(l, env.onForeign);
  }

  /** The ledger knows whether a forced shutdown has been run. */
  lemma {:induction false} ForcedIff(steps: seq<Step>)
    ensures LedgerOf(steps).forced <==> ForceShutdownTask in Done(steps)
  {
    if steps != [] {
      var before, s := steps[..|steps| - 1], steps[|steps| - 1];
      ForcedIff(before);
      if s.Run? && s.task != ForceShutdownTask { TaskAhead(LedgerOf(before), s.task, s.env); }
      if s.OffLoop? { CallAhead(LedgerOf(before), s.call); }
    }
  }

  // ---------- calls follow ----------

  lemma SendFollows(c: Conn, m: multiset<Task>, l: Ledger, sender: Option<Tid>, msg: Bytes, granted: bool, named: bool)
    requires Follows(c, m, l)
    ensures Follows(HandleSend(c, sender, msg, granted, named), m, Accept(l, sender, msg))
  {
    AcceptAhead(l, sender, msg);
  }

  /** A call that is not a send touches the state and what is submitted, or ends the process. */
  predicate OnlyMoves(c: Conn, c': Conn) {
    && c'.accepted == c.accepted && c'.output == c.output && c'.wire == c.wire && c'.log == c.log
    && c'.shut == c.shut && c'.registered == c.registered && c'.readable == c.readable && c'.writable == c.writable
  }

  lemma StoresMove(c: Conn)
    ensures OnlyMoves(c, StoreShut(c)) && OnlyMoves(c, StoreClose(c))
  {
  }

  lemma ChecksMove(c: Conn, named: bool)
    ensures OnlyMoves(c, CheckShut(c)) && OnlyMoves(c, CheckClose(c, named))
  {
  }

  lemma ClosesMove(c: Conn, closeRead: bool)
    ensures OnlyMoves(c, Close(c)) && OnlyMoves(c, Shutdown(c, closeRead))
  {
  }

  lemma OtherCallMoves(c: Conn, call: Call)
    requires !call.CallSend?
    ensures OnlyMoves(c, RunCall(c, call))
  {
    match call
    case CallClose => ClosesMove(c, true);
    case CallShutdown(closeRead) => ClosesMove(c, closeRead);
    case CheckForceShutdown => ChecksMove(c, true);
    case StoreForceShutdown => StoresMove(c);
    case CheckForceClose(named) => ChecksMove(c, named);
    case StoreForceClose => StoresMove(c);
  }

  lemma GateKeepsClosing(g: Gate, call: Call)
    requires Closing(g.state)
    ensures Closing(GateStep(g, call).state)
  {
  }

  lemma CallSubmits(c: Conn, call: Call)
    requires !c.exited && !RunCall(c, call).exited
    ensures RunCall(c, call).submitted == c.submitted + TaskOf(GateOf(c), call)
  {
  }

  lemma MovesFollow(c: Conn, c': Conn, m: multiset<Task>, l: Ledger, call: Call)
    requires Agrees(c, l) && OnlyMoves(c, c') && !call.CallSend?
    requires m + multiset(c.submitted) == l.asked && c'.submitted == c.submitted + TaskOf(l.gate, call)
    requires GateOf(c') == GateStep(GateOf(c), call)
    ensures Agrees(c', EnterCall(l, call)) && m + multiset(c'.submitted) == EnterCall(l, call).asked
  {
    if Closing(c.state) { GateKeepsClosing(GateOf(c), call); }
  }

  lemma CallFollows(c: Conn, m: multiset<Task>, l: Ledger, call: Call)
    requires Follows(c, m, l)
    ensures Follows(RunCall(c, call), m, EnterCall(l, call))
  {
    var c' := RunCall(c, call);
    if call.CallSend? {
      SendFollows(c, m, l, None, call.msg, call.granted, call.named);
    } else {
      OtherCallMoves(c, call);
      if !c.exited && !c'.exited {
        CallMovesGate(c, call);
        CallSubmits(c, call);
        MovesFollow(c, c', m, l, call);
      }
    }
  }

  lemma {:induction false} CallsFollow(c: Conn, m: multiset<Task>, l: Ledger, calls: seq<Call>)
    requires Follows(c, m, l)
    ensures Follows(RunCalls(c, calls), m, EnterCalls(l, calls))
    decreases |calls|
  {
    if calls != [] {
      CallFollows(c, m, l, calls[0]);
      CallsFollow(RunCall(c, calls[0]), m, EnterCall(l, calls[0]), calls[1..]);
    }
  }

  lemma NoteFollows(c: Conn, m: multiset<Task>, l: Ledger, e: Effect)
    requires Follows(c, m, l) && !c.exited
    ensures Follows(Log(c, e), m, Note(l, e))
  {
  }

  lemma CallbackFollows(c: Conn, m: multiset<Task>, l: Ledger, e: Effect, calls: seq<Call>)
    requires Follows(c, m, l)
    ensures Follows(Callback(c, e, calls), m, EnterCallback(l, e, calls))
  {
    if c.exited {
      CallbackAhead(l, e, calls);
      Behind(c, m, l, EnterCallback(l, e, calls));
    } else {
      NoteFollows(c, m, l, e);
      CallsFollow(Log(c, e), m, Note(l, e), calls);
    }
  }

  // ---------- handlers follow ----------

  lemma DisconnectFollows(c: Conn, m: multiset<Task>, l: Ledger)
    requires Follows(c, m, l) && !c.exited
    ensures Follows(DisconnectNow(c), m,
                    l.(gate := l.gate.(state := Disconnected), asked := l.asked + multiset{RemoveTask}))
  {
    assert multiset(c.submitted + [RemoveTask]) == multiset(c.submitted) + multiset{RemoveTask};
  }

  lemma CloseFollows(c: Conn, m: multiset<Task>, l: Ledger, named: bool, gap: seq<Call>)
    requires Follows(c, m, l)
    ensures Follows(HandleClose(c, named, gap), m, EnterClose(l, gap))
  {
    var c1, l1 := RunCalls(c, gap), EnterCalls(l, gap);
    CloseAhead(l, gap);
    if c.exited {
      Behind(c, m, l, EnterClose(l, gap));
    } else if c.state != Disconnected && named {
      CallsFollow(c, m, l, gap);
      if !c1.exited { DisconnectFollows(c1, m, l1); }
    }
  }

  lemma ReadFollows(c: Conn, m: multiset<Task>, l: Ledger, ready: Ready, env: Env)
    requires Follows(c, m, l)
    ensures Follows(ReadPart(c, ready, env), m, EnterRead(l, ready, env))
  {
    if c.exited {
      ReadAhead(l, ready, env);
      Behind(c, m, l, EnterRead(l, ready, env));
    } else {
      match env.read
      case WouldBlock =>
      case ReadFailed => CallbackFollows(c, m, l, OnError, env.onReadError);
      case Received(bytes) =>
        if bytes == [] {
          CloseFollows(c, m, l, env.named, env.gapRead);
        } else {
          CallbackFollows(c, m, l, OnRead(bytes), env.onRead);
        }
    }
  }

  lemma ShutFollows(c: Conn, m: multiset<Task>, l: Ledger, closeRead: bool, ok: bool)
    requires Follows(c, m, l)
    ensures Follows(SocketShut(c, closeRead, ok), m, EnterShut(l, closeRead))
  {
  }

  lemma FinishFollows(c: Conn, m: multiset<Task>, l: Ledger, env: Env)
    requires Follows(c.(writable := false), m, l) && !c.exited
    ensures Follows(FinishWrite(c, env), m, EnterFinish(l, env))
  {
    var c0 := SetWritable(c, false);
    if c0.exited {
      FinishAhead(l, env);
      Behind(c0, m, l, EnterFinish(l, env));
    } else {
      CallbackFollows(c0, m, l, OnWriteComplete, env.onWriteComplete);
      var l1 := EnterCallback(l, OnWriteComplete, env.onWriteComplete);
      var c1 := Callback(c0, OnWriteComplete, env.onWriteComplete);
      ShutFollows(c1, m, l1, false, env.shutOk);
    }
  }

  lemma WrittenFollows(c: Conn, m: multiset<Task>, l: Ledger, k: nat)
    requires Follows(c, m, l) && !c.exited && !c.shut && c.writable
    ensures var n := Took(l, Wrote(k));
            var l1 := l.(waiting := l.waiting - n, taken := l.taken + n);
            var c1 := Written(c, k);
            Follows(if c1.output == [] then c1.(writable := false) else c1, m, l1)
  {
  }

  lemma WaitingFollows(c: Conn, m: multiset<Task>, l: Ledger, ready: Ready, env: Env)
    requires Follows(c, m, l) && !c.exited && c.writable && c.output != [] && ready.output
    ensures Follows(HandleWrite(c, env), m, EnterWrite(l, ready, env))
  {
    match WriteAnswer(c.shut, env.write)
    case WriteFailed => CallbackFollows(c, m, l, OnError, env.onWriteError);
    case WriteKilled =>
    case Wrote(k) => TakenFollows(c, m, l, ready, k, env);
  }

  lemma TakenFollows(c: Conn, m: multiset<Task>, l: Ledger, ready: Ready, k: nat, env: Env)
    requires Follows(c, m, l) && !c.exited && !c.shut && c.writable && c.output != []
    requires ready.output && env.write == Wrote(k)
    ensures var c1 := Written(c, k);
            Follows(if c1.output == [] then FinishWrite(c1, env) else c1, m, EnterWrite(l, ready, env))
  {
    WrittenFollows(c, m, l, k);
    var c1, n := Written(c, k), Took(l, env.write);
    var l1 := l.(waiting := l.waiting - n, taken := l.taken + n);
    assert EnterWrite(l, ready, env) == if l1.waiting == 0 then EnterFinish(l1, env) else l1;
    if c1.output == [] { FinishFollows(c1, m, l1, env); }
  }

  lemma WriteFollows(c: Conn, m: multiset<Task>, l: Ledger, ready: Ready, env: Env)
    requires Follows(c, m, l)
    ensures Follows(WritePart(c, ready, env), m, EnterWrite(l, ready, env))
  {
    WriteAhead(l, ready, env);
    if c.exited {
      Behind(c, m, l, EnterWrite(l, ready, env));
    } else if ready.output {
      if c.writable {
        WaitingFollows(c, m, l, ready, env);
      } else {
        Behind(c.(exited := true), m, l, EnterWrite(l, ready, env));
      }
    }
  }

  lemma ErrorFollows(c: Conn, m: multiset<Task>, l: Ledger, ready: Ready, env: Env)
    requires Follows(c, m, l)
    ensures Follows(ErrorPart(c, ready, env), m, EnterError(l, ready, env))
  {
    CallbackFollows(c, m, l, OnError, env.onError);
  }

  lemma HangUpFollows(c: Conn, m: multiset<Task>, l: Ledger, ready: Ready, env: Env)
    requires Follows(c, m, l)
    ensures Follows(HangUpPart(c, ready, env), m, EnterHangUp(l, ready, env))
  {
    CloseFollows(c, m, l, env.named, env.gapHangUp);
  }

  lemma ReportFollows(c: Conn, m: multiset<Task>, l: Ledger, ready: Ready, env: Env)
    requires Follows(c, m, l)
    ensures Follows(HandleEvents(c, ready, env), m, EnterReport(l, ready, env))
  {
    var c1, l1 := ReadPart(c, ready, env), EnterRead(l, ready, env);
    ReadFollows(c, m, l, ready, env);
    var c2, l2 := WritePart(c1, ready, env), EnterWrite(l1, ready, env);
    WriteFollows(c1, m, l1, ready, env);
    var c3, l3 := ErrorPart(c2, ready, env), EnterError(l2, ready, env);
    ErrorFollows(c2, m, l2, ready, env);
    HangUpFollows(c3, m, l3, ready, env);
  }

  lemma StartFollows(c: Conn, m: multiset<Task>, l: Ledger, env: Env)
    requires Follows(c, m, l) && !c.exited
    ensures Follows(HandleStart(c, env), m, EnterStart(l, env))
  {
    var c1, l1 := Printed(c.(registered := true), env.named), l.(started := true);
    if c1.exited {
      StartAhead(l, env);
      Behind(c1, m, l, EnterStart(l, env));
    } else if c1.state == Connecting {
      CallbackFollows(Moved(c1, Connected), m, l1.(gate := l1.gate.(state := Connected)), OnConnect, env.onConnect);
    }
  }

  lemma RemoveFollows(c: Conn, m: multiset<Task>, l: Ledger, env: Env)
    requires Follows(c, m, l) && !c.exited
    ensures Follows(HandleRemove(c, env), m, EnterRemove(l, env))
  {
    var l1 := EnterCallback(l, OnClose, env.onClose);
    RemoveAhead(l, env);
    if c.state != Disconnected {
      Behind(c.(exited := true), m, l, EnterRemove(l, env));
    } else {
      var c1 := Callback(c, OnClose, env.onClose);
      CallbackFollows(c, m, l, OnClose, env.onClose);
      if c1.exited { Behind(c1, m, l1, EnterRemove(l, env)); } else { NoteFollows(c1, m, l1, ContextCleared); }
    }
  }

  /** Interest in writing is dropped, and stays so if bytes are waiting. */
  lemma ShutNowFollows(c: Conn, m: multiset<Task>, l: Ledger, closeRead: bool, force: bool, env: Env)
    requires Follows(c, m, l) && !c.exited && Closing(c.state) && (force || c.output == [])
    ensures Follows(ShutNow(c, closeRead, env), m, EnterShut(if force then l.(forced := true) else l, closeRead))
  {
    var l1 := if force then l.(forced := true) else l;
    var c1 := SetWritable(Printed(c, env.named), false);
    assert Follows(c1, m, l1);
    ShutFollows(c1, m, l1, closeRead, env.shutOk);
  }

  lemma TaskFollows(c: Conn, m: multiset<Task>, l: Ledger, task: Task, env: Env)
    requires Follows(c, m, l) && !c.exited && Timely(c, task)
    ensures Follows(RunTask(c, task, env), m, EnterTask(l, task, env))
  {
    match task
    case StartTask => StartFollows(c, m, l, env);
    case SendTask(sender, msg) => SendFollows(c, m, l, Some(sender), msg, env.granted, env.named);
    case EventTask(ready) => ReportFollows(c, m, l, ready, env);
    case CloseTask => if c.output == [] { RemoveFollows(c, m, l, env); }
    case ShutdownTask(closeRead) => if c.output == [] { ShutNowFollows(c, m, l, closeRead, false, env); }
    case ForceShutdownTask => ShutNowFollows(c, m, l, false, true, env);
    case RemoveTask => RemoveFollows(c, m, l, env);
    case ForeignTask => CallsFollow(c, m, l, env.onForeign);
  }

  // ---------- runs follow ----------

  /** The loop takes over what was submitted. */
  lemma CollectFollows(c: Conn, m: multiset<Task>, inflight: multiset<Task>, done: multiset<Task>, l: Ledger)
    requires Follows(c, m, l) && m == inflight + done
    ensures var r := Collect(c, inflight); Follows(r.conn, r.inflight + done, l)
  {
    assert (inflight + done) + multiset(c.submitted) == (inflight + multiset(c.submitted)) + done;
  }

  lemma TaskStepFollows(r: Reactor, task: Task, env: Env, l: Ledger, done: multiset<Task>)
    requires Inv(r) && !r.conn.exited && task in r.inflight && Follows(r.conn, r.inflight + done, l)
    ensures var r' := Collect(RunTask(r.conn, task, env), r.inflight - multiset{task});
            Follows(r'.conn, r'.inflight + (done + multiset{task}), EnterTask(l, task, env))
  {
    var m := r.inflight + done;
    assert Timely(r.conn, task);
    TaskFollows(r.conn, m, l, task, env);
    assert m == (r.inflight - multiset{task}) + (done + multiset{task});
    CollectFollows(RunTask(r.conn, task, env), m, r.inflight - multiset{task}, done + multiset{task},
                   EnterTask(l, task, env));
  }

  lemma CallStepFollows(r: Reactor, call: Call, l: Ledger, done: multiset<Task>)
    requires Follows(r.conn, r.inflight + done, l)
    ensures var r' := Collect(RunCall(r.conn, call), r.inflight);
            Follows(r'.conn, r'.inflight + done, EnterCall(l, call))
  {
    CallFollows(r.conn, r.inflight + done, l, call);
    CollectFollows(RunCall(r.conn, call), r.inflight + done, r.inflight, done, EnterCall(l, call));
  }

  lemma AnnounceFollows(c: Conn, inflight: multiset<Task>, done: multiset<Task>, l: Ledger, task: Task)
    requires Follows(c, inflight + done, l)
    ensures Follows(c, inflight + multiset{task} + done, l.(asked := l.asked + multiset{task}))
  {
    assert inflight + multiset{task} + done == inflight + done + multiset{task};
  }

  lemma StepFollows(r: Reactor, s: Step, r': Reactor, l: Ledger, done: multiset<Task>)
    requires Inv(r) && Next(r, s, r') && Follows(r.conn, r.inflight + done, l)
    ensures var more := if s.Run? then multiset{s.task} else multiset{};
            Follows(r'.conn, r'.inflight + (done + more), EnterStep(l, s))
  {
    match s
    case Announce(task) =>
      AnnounceFollows(r.conn, r.inflight, done, l, task);
      assert done + multiset{} == done;
    case OffLoop(call) =>
      CallStepFollows(r, call, l, done);
      assert done + multiset{} == done;
    case Run(task, env) => TaskStepFollows(r, task, env, l, done);
  }

  /** No thread announces a shutdown but through `Shutdown`, which only the first to close gets through. */
  lemma {:induction false} OnlyOneShutdown(rs: seq<Reactor>, steps: seq<Step>, i: nat)
    requires RunOf(rs, steps) && i <= |steps|
    ensures OneShutdown(LedgerOf(steps[..i]))
  {
    if i > 0 {
      OnlyOneShutdown(rs, steps, i - 1);
      assert steps[..i][..i - 1] == steps[..i - 1];
      AnnouncesNoShutdown(rs, steps, i - 1);
      EntersOneShutdown(LedgerOf(steps[..i - 1]), steps[i - 1]);
    }
  }

  lemma AnnouncesNoShutdown(rs: seq<Reactor>, steps: seq<Step>, i: nat)
    requires RunOf(rs, steps) && i < |steps|
    ensures steps[i].Announce? ==> !steps[i].task.ShutdownTask?
  {
    assert Linked(rs, steps, i);
  }

  lemma EntersOneShutdown(l: Ledger, s: Step)
    requires OneShutdown(l) && (s.Announce? ==> !s.task.ShutdownTask?)
    ensures OneShutdown(EnterStep(l, s))
  {
    match s
    case Announce(_) =>
    case OffLoop(call) => CallAhead(l, call);
    case Run(task, env) => if task != ForceShutdownTask { TaskAhead(l, task, env); }
  }

  /** Every run follows its ledger; in the step that ends the process it may fall behind. */
  lemma {:induction false} RunFollows(rs: seq<Reactor>, steps: seq<Step>, i: nat)
    requires RunOf(rs, steps) && i <= |steps|
    ensures Follows(rs[i].conn, rs[i].inflight + Done(steps[..i]), LedgerOf(steps[..i]))
  {
    if i == 0 {
      assert rs[0].conn == FRESH;
    } else {
      RunFollows(rs, steps, i - 1);
      assert steps[..i][..i - 1] == steps[..i - 1];
      InvAlong(rs, steps, i - 1);
      assert Linked(rs, steps, i - 1);
      StepFollows(rs[i - 1], steps[i - 1], rs[i], LedgerOf(steps[..i - 1]), Done(steps[..i - 1]));
    }
  }

  lemma SplitAt(whole: Bytes, front: Bytes, back: Bytes)
    requires whole == front + back
    ensures front == whole[..|front|] && back == whole[|front|..]
  {
  }

  /**
   In every run, as long as the process lives, the inputs of the steps taken decide which messages
   were accepted, how far they are on the wire, what the handler and the socket were told, which
   tasks were submitted and are still to run, and what the connection waits for.
   */
  lemma InputsDecide(rs: seq<Reactor>, steps: seq<Step>, i: nat)
    requires RunOf(rs, steps) && i <= |steps| && !rs[i].conn.exited
    ensures var c, l := rs[i].conn, LedgerOf(steps[..i]);
            && Agrees(c, l) && l.taken <= |Flatten(l.accepted)|
            && c.wire == Flatten(l.accepted)[..l.taken] && c.output == Flatten(l.accepted)[l.taken..]
            && rs[i].inflight + Done(steps[..i]) == l.asked
  {
    var c, l := rs[i].conn, LedgerOf(steps[..i]);
    FollowsAlive(rs, steps, i);
    BytesConserved(rs, steps, i);
    SplitAt(Flatten(c.accepted), c.wire, c.output);
  }

  lemma FollowsAlive(rs: seq<Reactor>, steps: seq<Step>, i: nat)
    requires RunOf(rs, steps) && i <= |steps| && !rs[i].conn.exited
    ensures Agrees(rs[i].conn, LedgerOf(steps[..i]))
    ensures rs[i].inflight + Done(steps[..i]) == LedgerOf(steps[..i]).asked
  {
    RunFollows(rs, steps, i);
    InvAlong(rs, steps, i);
  }

  /** The step that ends the process does no more than its inputs say. */
  lemma InputsBound(rs: seq<Reactor>, steps: seq<Step>, i: nat)
    requires RunOf(rs, steps) && i <= |steps|
    ensures var c, l := rs[i].conn, LedgerOf(steps[..i]);
            && c.accepted <= l.accepted && c.log <= l.log
            && |c.wire| <= l.taken && c.wire <= Flatten(c.accepted)
  {
    RunFollows(rs, steps, i);
    BytesConserved(rs, steps, i);
  }

  /** In every run the connection waits for writability exactly if bytes wait and no forced shutdown was run. */
  lemma InterestIff(rs: seq<Reactor>, steps: seq<Step>, i: nat)
    requires RunOf(rs, steps) && i <= |steps| && !rs[i].conn.exited
    ensures rs[i].conn.writable <==> rs[i].conn.output != [] && ForceShutdownTask !in Done(steps[..i])
  {
    RunFollows(rs, steps, i);
    ForcedIff(steps[..i]);
  }
}
