/** What holds on every run of a connection. */
module ConnectionTheorems {
  import opened Base
  import opened ConnectionSpec
  import opened ConnectionRuns

  ghost predicate Inv(r: Reactor) {
    r.conn.submitted == [] && Safe(r.conn, r.inflight)
  }

  lemma StepKeeps(r: Reactor, s: Step, r': Reactor)
    requires Inv(r) && Next(r, s, r')
    ensures Inv(r') && Grows(r.conn, r'.conn)
  {
    match s
    case Announce(task) =>
    case OffLoop(call) =>
      RunCallKeeps(r.conn, r.inflight, call);
      RunCallGrows(r.conn, call);
      CollectKeeps(RunCall(r.conn, call), r.inflight);
    case Run(task, env) =>
      RunTaskKeeps(r.conn, r.inflight, task, env);
      RunTaskGrows(r.conn, task, env);
      CollectKeeps(RunTask(r.conn, task, env), r.inflight - multiset{task});
  }

  lemma CollectKeeps(c: Conn, m: multiset<Task>)
    requires Safe(c, m)
    ensures Inv(Collect(c, m))
  {
    var r := Collect(c, m);
    forall t | t in r.inflight ensures Timely(r.conn, t) {
      assert t in m || t in c.submitted;
      assert Timely(c, t);
    }
    assert Closings(r.inflight) == Closings(m) + Closings(multiset(c.submitted));
  }

  lemma {:induction false} InvAlong(rs: seq<Reactor>, steps: seq<Step>, i: nat)
    requires RunOf(rs, steps) && i <= |steps|
    ensures Inv(rs[i])
  {
    if i == 0 {
      FreshIsSafe();
    } else {
      InvAlong(rs, steps, i - 1);
      assert Linked(rs, steps, i - 1);
      StepKeeps(rs[i - 1], steps[i - 1], rs[i]);
    }
  }

  lemma FreshIsSafe()
    ensures Inv(Reactor(FRESH, multiset{StartTask}))
  {
  }

  lemma {:induction false} GrowsAlong(rs: seq<Reactor>, steps: seq<Step>, i: nat, j: nat)
    requires RunOf(rs, steps) && i <= j <= |steps|
    ensures Grows(rs[i].conn, rs[j].conn)
    decreases j
  {
    if i < j {
      GrowsAlong(rs, steps, i, j - 1);
      GrowsInStep(rs, steps, j - 1);
      GrowsOn(rs[i].conn, rs[j - 1].conn, rs[j].conn);
    } else {
      GrowsNot(rs[i].conn);
    }
  }

  lemma GrowsNot(c: Conn)
    ensures Grows(c, c)
  {
  }

  lemma GrowsInStep(rs: seq<Reactor>, steps: seq<Step>, i: nat)
    requires RunOf(rs, steps) && i < |steps|
    ensures Grows(rs[i].conn, rs[i + 1].conn)
  {
    InvAlong(rs, steps, i);
    assert Linked(rs, steps, i);
    StepKeeps(rs[i], steps[i], rs[i + 1]);
  }

  /** No byte accepted is lost, repeated or reordered on its way to the socket. */
  lemma BytesConserved(rs: seq<Reactor>, steps: seq<Step>, i: nat)
    requires RunOf(rs, steps) && i <= |steps|
    ensures rs[i].conn.wire + rs[i].conn.output == Flatten(rs[i].conn.accepted)
    ensures rs[i].conn.wire <= Flatten(rs[i].conn.accepted)
  {
    InvAlong(rs, steps, i);
  }

  // ---------- the lifecycle ----------

  ghost predicate Forward(trail: seq<TcpState>) {
    forall i, j | 0 <= i < j < |trail| :: Rank(trail[i]) <= Rank(trail[j])
  }

  lemma {:induction false} TrailForward(trail: seq<TcpState>)
    requires Trail(trail) && !Late(trail)
    ensures Forward(trail)
    ensures forall i | 0 <= i < |trail| - 1 :: trail[i] != Disconnected
  {
    if |trail| > 1 {
      var n := |trail| - 1;
      TrailForward(trail[..n]);
      forall i, j | 0 <= i < j < |trail| ensures Rank(trail[i]) <= Rank(trail[j]) {
        assert i < n - 1 ==> Rank(trail[..n][i]) <= Rank(trail[..n][n - 1]);
        assert j < n ==> Rank(trail[..n][i]) <= Rank(trail[..n][j]);
      }
      forall i | 0 <= i < n ensures trail[i] != Disconnected {
        assert i < n - 1 ==> trail[..n][i] != Disconnected;
      }
    }
  }

  /** Not late, the last state was entered at most once, and then it is the present one. */
  lemma OnceAtMost(trail: seq<TcpState>)
    requires trail != [] && forall i | 0 <= i < |trail| - 1 :: trail[i] != Disconnected
    ensures multiset(trail)[Disconnected] == if trail[|trail| - 1] == Disconnected then 1 else 0
  {
    var n := |trail| - 1;
    assert trail == trail[..n] + [trail[n]];
    assert Disconnected !in trail[..n];
  }

  lemma {:induction false} LateHasCause(trail: seq<TcpState>) returns (i: nat)
    requires Late(trail)
    ensures i + 1 < |trail| && trail[i] == Disconnected
  {
    var n := |trail| - 1;
    if Late(trail[..n]) { i := LateHasCause(trail[..n]); } else { i := n - 1; }
  }

  lemma TwiceOrBack(trail: seq<TcpState>, i: nat)
    requires i + 1 < |trail| && trail[i] == Disconnected
    ensures Rank(trail[i + 1]) < Rank(trail[i]) || multiset(trail)[Disconnected] >= 2
  {
    assert trail == trail[..i] + [trail[i], trail[i + 1]] + trail[i + 2..];
    assert multiset(trail) ==
           multiset(trail[..i]) + multiset([trail[i], trail[i + 1]]) + multiset(trail[i + 2..]);
  }

  /**
   In every run, the values of the state only move forward and the last one is entered at most once
   if and only if no store was overtaken: none fell, after its check had passed, on a connection that
   another thread had disconnected meanwhile.
   */
  lemma OrderlyIff(rs: seq<Reactor>, steps: seq<Step>, i: nat)
    requires RunOf(rs, steps) && i <= |steps|
    ensures var past := rs[i].conn.past;
            Forward(past.trail) && multiset(past.trail)[Disconnected] <= 1 <==> !past.overtaken
  {
    InvAlong(rs, steps, i);
    var trail := rs[i].conn.past.trail;
    if Late(trail) {
      var k := LateHasCause(trail);
      TwiceOrBack(trail, k);
    } else {
      TrailForward(trail);
      OnceAtMost(trail);
    }
  }

  /** A call overtakes exactly if it is a store whose check has passed, and the state is the last by now. */
  lemma CallOvertakesIff(c: Conn, call: Call)
    requires !c.exited && !c.past.overtaken
    ensures RunCall(c, call).past.overtaken <==>
              && c.state == Disconnected
              && ((call.StoreForceShutdown? && c.checked.shuts > 0) || (call.StoreForceClose? && c.checked.closes > 0))
  {
  }

  lemma EnteredMeanwhile(before: seq<TcpState>, after: seq<TcpState>)
    requires before <= after && before != [] && Trail(after)
    requires Disconnected !in before
    ensures Late(after) || after[|after| - 1] == Disconnected <==> Disconnected in after[|before|..]
  {
    var rest := after[|before|..];
    assert after == before + rest;
    if Late(after) {
      var k := LateHasCause(after);
      assert after[k] in before || after[k] in rest;
    } else {
      TrailForward(after);
      if Disconnected in rest {
        var k :| 0 <= k < |rest| && rest[k] == Disconnected;
        assert after[|before| + k] == Disconnected;
      }
    }
  }

  lemma NeverEntered(trail: seq<TcpState>)
    requires trail != [] && Trail(trail) && !Late(trail) && trail[|trail| - 1] != Disconnected
    ensures Disconnected !in trail
  {
    TrailForward(trail);
  }

  /** From a trail that has not reached its end, `c1`'s is an extension that ends late or there. */
  lemma MeanwhileIff(c: Conn, c1: Conn)
    requires TrailInv(c.state, c.past) && TrailInv(c1.state, c1.past) && c.past.trail <= c1.past.trail
    requires !c.past.overtaken && c.state != Disconnected
    ensures c1.past.overtaken || c1.state == Disconnected <==> Disconnected in c1.past.trail[|c.past.trail|..]
  {
    NeverEntered(c.past.trail);
    EnteredMeanwhile(c.past.trail, c1.past.trail);
  }

  lemma TrailOfSafe(c: Conn, m: multiset<Task>)
    requires Safe(c, m)
    ensures TrailInv(c.state, c.past)
  {
  }

  lemma TrailAfterCalls(c: Conn, m: multiset<Task>, calls: seq<Call>)
    requires Safe(c, m)
    ensures var c1 := RunCalls(c, calls); TrailInv(c1.state, c1.past) && c.past.trail <= c1.past.trail
  {
    RunCallsGrow(c, calls);
    RunCallsKeep(c, m, calls);
    TrailOfSafe(RunCalls(c, calls), m);
  }

  lemma CloseStores(c: Conn, gap: seq<Call>)
    requires !c.exited && c.state != Disconnected && !RunCalls(c, gap).exited
    ensures var c1 := RunCalls(c, gap);
            HandleClose(c, true, gap).past.overtaken == (c1.past.overtaken || c1.state == Disconnected)
  {
  }

  /** `handleClose`, past its check, overtakes exactly if another thread disconnects before its store. */
  lemma HandleCloseOvertakesIff(c: Conn, m: multiset<Task>, gap: seq<Call>)
    requires Safe(c, m) && !c.exited && !c.past.overtaken && c.state != Disconnected && !RunCalls(c, gap).exited
    ensures var trail := RunCalls(c, gap).past.trail;
            && |c.past.trail| <= |trail|
            && (HandleClose(c, true, gap).past.overtaken <==> Disconnected in trail[|c.past.trail|..])
  {
    TrailOfSafe(c, m);
    TrailAfterCalls(c, m, gap);
    MeanwhileIff(c, RunCalls(c, gap));
    CloseStores(c, gap);
  }

  /**
   Whatever overtakes what: from connecting to open to closing there is no way back; what is on the
   wire, accepted or told to the handler stays so; nothing is accepted once closing began. The state
   itself moves forward only as long as no store was overtaken.
   */
  lemma ForwardOnly(rs: seq<Reactor>, steps: seq<Step>, i: nat, j: nat)
    requires RunOf(rs, steps) && i <= j <= |steps|
    ensures var a, b := rs[i].conn, rs[j].conn;
            && Stage(a.state) <= Stage(b.state)
            && (!b.past.overtaken ==> Rank(a.state) <= Rank(b.state))
            && a.past.trail <= b.past.trail && b.past.trail != [] && b.past.trail[|b.past.trail| - 1] == b.state
            && a.wire <= b.wire && a.accepted <= b.accepted && a.log <= b.log
            && (Closing(a.state) ==> b.accepted == a.accepted)
  {
    GrowsAlong(rs, steps, i, j);
    InvAlong(rs, steps, j);
  }

  /**
   Each time the last state was entered one closing task was given out: it is in flight, or led to
   `OnClose`, or found bytes waiting and told nobody.
   */
  lemma ClosingsBalance(rs: seq<Reactor>, steps: seq<Step>, i: nat)
    requires RunOf(rs, steps) && i <= |steps|
    ensures var given := multiset(rs[i].conn.log)[OnClose] + Closings(rs[i].inflight) + rs[i].conn.past.unheard;
            var entered := multiset(rs[i].conn.past.trail)[Disconnected];
            given <= entered && (!rs[i].conn.exited ==> given == entered)
  {
    InvAlong(rs, steps, i);
  }

  /** While no store was overtaken: one of the three, once, if the state is the last; else none. */
  lemma ClosedOnce(rs: seq<Reactor>, steps: seq<Step>, i: nat)
    requires RunOf(rs, steps) && i <= |steps| && !rs[i].conn.past.overtaken
    ensures multiset(rs[i].conn.log)[OnClose] + Closings(rs[i].inflight) + rs[i].conn.past.unheard <=
            if rs[i].conn.state == Disconnected then 1 else 0
  {
    InvAlong(rs, steps, i);
    TrailForward(rs[i].conn.past.trail);
    OnceAtMost(rs[i].conn.past.trail);
  }

  /**
   `OnConnect` at most once, before any read or write completion, whatever overtakes what. The context
   loses its connection at most as often as `OnClose` is told; and that is at most once, and only
   when disconnected, if no store was overtaken.
   */
  lemma CallbackDiscipline(rs: seq<Reactor>, steps: seq<Step>, i: nat)
    requires RunOf(rs, steps) && i <= |steps|
    ensures multiset(rs[i].conn.log)[OnConnect] <= 1 && ConnectFirst(rs[i].conn.log)
    ensures multiset(rs[i].conn.log)[ContextCleared] <= multiset(rs[i].conn.log)[OnClose]
    ensures !rs[i].conn.past.overtaken ==> multiset(rs[i].conn.log)[OnClose] <= 1
    ensures !rs[i].conn.past.overtaken && OnClose in rs[i].conn.log ==> rs[i].conn.state == Disconnected
  {
    InvAlong(rs, steps, i);
    assert OnClose in rs[i].conn.log <==> multiset(rs[i].conn.log)[OnClose] > 0;
    if !rs[i].conn.past.overtaken { ClosedOnce(rs, steps, i); }
  }

  /**
   As long as no store was overtaken the assertion in `handleRemove` cannot fire: whenever a removal
   can run, it is the only one, the state is the last, and the handler has not been told.
   */
  lemma RemovalsFindDisconnected(rs: seq<Reactor>, steps: seq<Step>, i: nat, task: Task)
    requires RunOf(rs, steps) && i <= |steps| && task in rs[i].inflight && (task == RemoveTask || task == CloseTask)
    requires !rs[i].conn.past.overtaken
    ensures rs[i].conn.state == Disconnected && rs[i].conn.past.unheard == 0
    ensures Closings(rs[i].inflight) == 1 && OnClose !in rs[i].conn.log
  {
    ClosedOnce(rs, steps, i);
    assert OnClose in rs[i].conn.log <==> multiset(rs[i].conn.log)[OnClose] > 0;
  }

  // ---------- runs without forced shutdown ----------

  lemma {:induction false} CalmAlong(rs: seq<Reactor>, steps: seq<Step>, i: nat, strict: bool)
    requires RunOf(rs, steps) && i <= |steps| && forall k | 0 <= k < i :: Gentle(steps[k], strict)
    ensures Calm(rs[i].conn, strict) && ForceShutdownTask !in rs[i].inflight
  {
    if i > 0 {
      CalmAlong(rs, steps, i - 1, strict);
      CalmInStep(rs, steps, i - 1, strict);
    }
  }

  lemma CalmInStep(rs: seq<Reactor>, steps: seq<Step>, i: nat, strict: bool)
    requires RunOf(rs, steps) && i < |steps| && Gentle(steps[i], strict)
    requires Calm(rs[i].conn, strict) && ForceShutdownTask !in rs[i].inflight
    ensures Calm(rs[i + 1].conn, strict) && ForceShutdownTask !in rs[i + 1].inflight
  {
    InvAlong(rs, steps, i);
    assert Linked(rs, steps, i);
    StepCalm(rs[i], steps[i], rs[i + 1], strict);
  }

  lemma StepCalm(r: Reactor, s: Step, r': Reactor, strict: bool)
    requires Inv(r) && Next(r, s, r') && Gentle(s, strict) && Calm(r.conn, strict) && ForceShutdownTask !in r.inflight
    ensures Calm(r'.conn, strict) && ForceShutdownTask !in r'.inflight
  {
    match s
    case Announce(_) =>
    case OffLoop(call) => RunCallCalm(r.conn, call, strict);
    case Run(task, env) =>
      assert Timely(r.conn, task);
      RunTaskCalm(r.conn, task, env, strict);
  }

  /** At every step boundary the connection waits for writability exactly when it has bytes to write. */
  lemma InterestMirrorsWork(rs: seq<Reactor>, steps: seq<Step>, i: nat)
    requires RunOf(rs, steps) && i <= |steps| && forall k | 0 <= k < i :: Gentle(steps[k], false)
    ensures rs[i].conn.exited || (rs[i].conn.writable <==> rs[i].conn.output != [])
  {
    CalmAlong(rs, steps, i, false);
  }

  /**
   A graceful shutdown drains: once the socket has been shut down, the wire holds exactly what was
   accepted, then and for the rest of the run.
   */
  lemma ShutdownDrains(rs: seq<Reactor>, steps: seq<Step>, i: nat, j: nat)
    requires RunOf(rs, steps) && i <= j <= |steps| && forall k | 0 <= k < i :: Gentle(steps[k], true)
    requires rs[i].conn.shut && !rs[i].conn.exited
    ensures rs[i].conn.wire == Flatten(rs[i].conn.accepted)
    ensures rs[j].conn.accepted == rs[i].conn.accepted && rs[j].conn.wire == rs[i].conn.wire
  {
    CalmAlong(rs, steps, i, true);
    InvAlong(rs, steps, i);
    GrowsAlong(rs, steps, i, j);
  }

  // ---------- closing with bytes still waiting ----------

  lemma CloseTaskTells(c: Conn, env: Env)
    requires !c.exited
    ensures var c' := RunTask(c, CloseTask, env);
            && multiset(c'.log)[OnClose] ==
               multiset(c.log)[OnClose] + (if c.output == [] && c.state == Disconnected then 1 else 0)
            && (c.output != [] ==> c'.past.unheard == c.past.unheard + 1)
  {
    CallsNeverLog(Log(c, OnClose), env.onClose);
  }

  /**
   `Close` tells the handler exactly when its task finds nothing left to write. If it finds bytes
   waiting, the handler is not told then, nor later unless a store is overtaken.
   */
  lemma CloseTellsIff(rs: seq<Reactor>, steps: seq<Step>, i: nat, j: nat)
    requires RunOf(rs, steps) && i < j <= |steps| && steps[i].Run? && steps[i].task == CloseTask
    requires !rs[j].conn.past.overtaken
    ensures rs[i].conn.output == [] <==> OnClose in rs[j].conn.log
  {
    assert Linked(rs, steps, i);
    GrowsAlong(rs, steps, i, i + 1);
    GrowsAlong(rs, steps, i + 1, j);
    RemovalsFindDisconnected(rs, steps, i, CloseTask);
    CloseTaskTells(rs[i].conn, steps[i].env);
    ClosedOnce(rs, steps, j);
    var a, b := rs[i + 1].conn.log, rs[j].conn.log;
    assert b == a + b[|a|..];
    assert OnClose in b <==> multiset(b)[OnClose] > 0;
  }

  // ---------- the end of the lifecycle ----------

  /** Disconnected, and no store still to come. */
  predicate Sealed(c: Conn) {
    c.state == Disconnected && c.checked == Checked(0, 0)
  }

  /** Sealed, it stays as it is, and what happened to the state is over. */
  predicate StillSealed(c: Conn, c': Conn) {
    && c'.state == c.state && c'.checked == c.checked
    && c'.past.trail == c.past.trail && c'.past.overtaken == c.past.overtaken
  }

  lemma SealedCall(c: Conn, call: Call)
    requires Sealed(c)
    ensures StillSealed(c, RunCall(c, call))
  {
  }

  lemma {:induction false} SealedCalls(c: Conn, calls: seq<Call>)
    requires Sealed(c)
    ensures StillSealed(c, RunCalls(c, calls))
    decreases |calls|
  {
    if calls != [] {
      SealedCall(c, calls[0]);
      SealedCalls(RunCall(c, calls[0]), calls[1..]);
    }
  }

  lemma SealedCallback(c: Conn, e: Effect, calls: seq<Call>)
    requires Sealed(c)
    ensures StillSealed(c, Callback(c, e, calls))
  {
    SealedCalls(Log(c, e), calls);
  }

  lemma SealedFinish(c: Conn, env: Env)
    requires Sealed(c)
    ensures StillSealed(c, FinishWrite(c, env))
  {
    SealedCallback(SetWritable(c, false), OnWriteComplete, env.onWriteComplete);
  }

  lemma SealedOn(a: Conn, b: Conn, c: Conn)
    requires StillSealed(a, b) && StillSealed(b, c)
    ensures StillSealed(a, c)
  {
  }

  lemma SealedRead(c: Conn, ready: Ready, env: Env)
    requires Sealed(c)
    ensures StillSealed(c, ReadPart(c, ready, env))
  {
    SealedCallback(c, OnError, env.onReadError);
    if env.read.Received? { SealedCallback(c, OnRead(env.read.bytes), env.onRead); }
  }

  lemma SealedWrite(c: Conn, ready: Ready, env: Env)
    requires Sealed(c)
    ensures StillSealed(c, WritePart(c, ready, env))
  {
    SealedCallback(c, OnError, env.onWriteError);
    SealedFinish(c, env);
    if env.write.Wrote? { SealedFinish(Written(c, env.write.n), env); }
  }

  lemma SealedReport(c: Conn, ready: Ready, env: Env)
    requires Sealed(c)
    ensures StillSealed(c, HandleEvents(c, ready, env))
  {
    var c1 := ReadPart(c, ready, env);
    SealedRead(c, ready, env);
    var c2 := WritePart(c1, ready, env);
    SealedWrite(c1, ready, env);
    SealedOn(c, c1, c2);
    var c3 := ErrorPart(c2, ready, env);
    SealedCallback(c2, OnError, env.onError);
    SealedOn(c, c2, c3);
    assert HangUpPart(c3, ready, env) == c3;
  }

  lemma SealedStart(c: Conn, env: Env)
    requires Sealed(c)
    ensures StillSealed(c, HandleStart(c, env))
  {
  }

  lemma SealedSend(c: Conn, sender: Option<Tid>, msg: Bytes, granted: bool, named: bool)
    requires Sealed(c)
    ensures StillSealed(c, HandleSend(c, sender, msg, granted, named))
  {
  }

  lemma SealedShut(c: Conn, closeRead: bool, env: Env)
    requires Sealed(c)
    ensures StillSealed(c, ShutNow(c, closeRead, env))
  {
  }

  lemma SealedRemove(c: Conn, env: Env)
    requires Sealed(c)
    ensures StillSealed(c, HandleRemove(c, env))
  {
    SealedCallback(c, OnClose, env.onClose);
  }

  lemma SealedTask(c: Conn, task: Task, env: Env)
    requires Sealed(c)
    ensures StillSealed(c, RunTask(c, task, env))
  {
    match task
    case StartTask => SealedStart(c, env);
    case SendTask(sender, msg) => SealedSend(c, Some(sender), msg, env.granted, env.named);
    case EventTask(ready) => SealedReport(c, ready, env);
    case CloseTask => SealedRemove(c, env);
    case ShutdownTask(closeRead) => SealedShut(c, closeRead, env);
    case ForceShutdownTask => SealedShut(c, false, env);
    case RemoveTask => SealedRemove(c, env);
    case ForeignTask => SealedCalls(c, env.onForeign);
  }

  /** Once disconnected with no store to come, the state never changes again. */
  lemma {:induction false} SealedForever(rs: seq<Reactor>, steps: seq<Step>, i: nat, j: nat)
    requires RunOf(rs, steps) && i <= j <= |steps| && Sealed(rs[i].conn)
    ensures StillSealed(rs[i].conn, rs[j].conn)
    decreases j
  {
    if i < j {
      SealedForever(rs, steps, i, j - 1);
      SealedInStep(rs, steps, j - 1);
    }
  }

  lemma SealedInStep(rs: seq<Reactor>, steps: seq<Step>, i: nat)
    requires RunOf(rs, steps) && i < |steps| && Sealed(rs[i].conn)
    ensures StillSealed(rs[i].conn, rs[i + 1].conn)
  {
    assert Linked(rs, steps, i);
    match steps[i]
    case Announce(_) =>
    case OffLoop(call) => SealedCall(rs[i].conn, call);
    case Run(task, env) => SealedTask(rs[i].conn, task, env);
  }
}
