/** Runs of a connection that end where one might not expect. */
module ConnectionExamples {
  import opened Base
  import opened ConnectionSpec
  import opened ConnectionRuns
  import opened ConnectionTheorems
  import opened ConnectionShutdown
  import opened ConnectionExits

  const QUIET := Env(true, true, true, WouldBlock, Wrote(1), [], [], [], [], [], [], [], [], [], [])
  const NEWS := QUIET.(read := Received([7]))
  const ANSWER := QUIET.(onWriteComplete := [CallSend([2], true, true), CallShutdown(false)])
  const REFUSED := QUIET.(shutOk := false)
  const RACED := QUIET.(gapHangUp := [CheckForceClose(true), StoreForceClose])
  const SEND := SendTask(0, [1])
  const OUT := EventTask(Ready(false, false, false, true, false, false))
  const INOUT := EventTask(Ready(true, false, false, true, false, false))
  const GONE := EventTask(Ready(false, false, false, false, false, true))

  const OPEN := FRESH.(state := Connected, registered := true, readable := true, log := [OnConnect],
                       past := Past([Connecting, Connected], false, 0))
  const FULL := OPEN.(output := [1], accepted := [Accepted(Some(0), [1])], writable := true)
  const DONE := FULL.(output := [], wire := [1], writable := false, log := [OnConnect, OnWriteComplete])
  const CUT := DONE.(state := Disconnecting, output := [2], writable := true, shut := true,
                     accepted := [Accepted(Some(0), [1]), Accepted(None, [2])],
                     log := [OnConnect, OnWriteComplete, SocketShutdown(false)], submitted := [ShutdownTask(false)],
                     past := Past([Connecting, Connected, Disconnecting], false, 0))

  ghost predicate AllGranted(steps: seq<Step>) {
    forall s | s in steps && s.Run? :: GrantedEnv(s.env)
  }

  lemma Extend(rs: seq<Reactor>, steps: seq<Step>, step: Step, r': Reactor)
    returns (rs': seq<Reactor>, steps': seq<Step>)
    requires RunOf(rs, steps) && Next(rs[|steps|], step, r')
    requires AllGranted(steps) && (step.Run? ==> GrantedEnv(step.env))
    ensures RunOf(rs', steps') && rs' == rs + [r'] && steps' == steps + [step] && AllGranted(steps')
  {
    RunOfExtends(rs, steps, step, r');
    rs', steps' := rs + [r'], steps + [step];
  }

  // ---------- how the connection gets there ----------

  lemma Opens()
    ensures RunTask(FRESH, StartTask, QUIET) == OPEN
  {
  }

  lemma Fills()
    ensures RunTask(OPEN, SEND, QUIET) == FULL
  {
  }

  lemma Empties()
    ensures RunTask(FULL, OUT, QUIET) == DONE
  {
  }

  lemma ToOpen() returns (rs: seq<Reactor>, steps: seq<Step>)
    ensures RunOf(rs, steps) && rs[|steps|] == Reactor(OPEN, multiset{}) && AllGranted(steps)
  {
    Opens();
    rs, steps := [Reactor(FRESH, multiset{StartTask})], [];
    rs, steps := Extend(rs, steps, Run(StartTask, QUIET), Reactor(OPEN, multiset{}));
  }

  /** Open, with one message waiting. */
  lemma ToFull() returns (rs: seq<Reactor>, steps: seq<Step>)
    ensures RunOf(rs, steps) && rs[|steps|] == Reactor(FULL, multiset{}) && AllGranted(steps)
  {
    Fills();
    rs, steps := ToOpen();
    rs, steps := Extend(rs, steps, Announce(SEND), Reactor(OPEN, multiset{SEND}));
    rs, steps := Extend(rs, steps, Run(SEND, QUIET), Reactor(FULL, multiset{}));
  }

  // ---------- the process ends ----------

  /** A report of writability is queued, and behind it one of data and writability. */
  lemma ToReported() returns (rs: seq<Reactor>, steps: seq<Step>)
    ensures RunOf(rs, steps) && rs[|steps|] == Reactor(FULL, multiset{OUT, INOUT}) && AllGranted(steps)
  {
    rs, steps := ToFull();
    rs, steps := Extend(rs, steps, Announce(OUT), Reactor(FULL, multiset{OUT}));
    rs, steps := Extend(rs, steps, Announce(INOUT), Reactor(FULL, multiset{OUT, INOUT}));
  }

  /**
   Data arrives, and is reported along with writability, while an earlier report of writability is
   still queued; the earlier one writes everything out, and the later one finds the interest in
   writing gone and ends the process.
   */
  lemma StaleReportExits() returns (rs: seq<Reactor>, steps: seq<Step>)
    ensures RunOf(rs, steps) && AllGranted(steps) && rs[|steps|].conn.exited
    ensures steps != [] && steps[|steps| - 1] == Run(INOUT, NEWS) && INOUT.ready.output
    ensures !ReadPart(rs[|steps| - 1].conn, INOUT.ready, NEWS).writable
  {
    Empties();
    rs, steps := ToReported();
    rs, steps := Extend(rs, steps, Run(OUT, QUIET), Reactor(DONE, multiset{INOUT}));
    var gone := Collect(RunTask(DONE, INOUT, NEWS), multiset{});
    assert multiset{INOUT} - multiset{INOUT} == multiset{};
    rs, steps := Extend(rs, steps, Run(INOUT, NEWS), gone);
  }

  const CLOSING := FULL.(state := Disconnecting, past := Past([Connecting, Connected, Disconnecting], false, 0))

  lemma Refused()
    ensures RunTask(CLOSING, OUT, REFUSED).exited
  {
    assert Written(CLOSING, 1).output == [];
  }

  /** Asked to shut down with a byte waiting, and told that it may be written. */
  lemma ToClosing() returns (rs: seq<Reactor>, steps: seq<Step>)
    ensures RunOf(rs, steps) && AllGranted(steps)
    ensures rs[|steps|] == Reactor(CLOSING, multiset{ShutdownTask(false), OUT})
  {
    var shutting := ShutdownTask(false);
    rs, steps := ToFull();
    assert Shutdown(FULL, false) == CLOSING.(submitted := [shutting]);
    rs, steps := Extend(rs, steps, OffLoop(CallShutdown(false)), Reactor(CLOSING, multiset{shutting}));
    rs, steps := Extend(rs, steps, Announce(OUT), Reactor(CLOSING, multiset{shutting, OUT}));
  }

  /**
   A graceful shutdown waits for the last byte; that is written, but by then the peer has reset the
   connection, and the shutdown is refused. Nothing is printed on this path.
   */
  lemma RefusedShutdownExits() returns (rs: seq<Reactor>, steps: seq<Step>)
    ensures RunOf(rs, steps) && AllGranted(steps) && rs[|steps|].conn.exited
    ensures steps != [] && steps[|steps| - 1] == Run(OUT, REFUSED) && !REFUSED.shutOk
    ensures rs[|steps| - 1].conn.state == Disconnecting && rs[|steps| - 1].conn.writable
  {
    Refused();
    rs, steps := ToClosing();
    var before := multiset{ShutdownTask(false), OUT};
    var last := RunTask(CLOSING, OUT, REFUSED);
    rs, steps := Extend(rs, steps, Run(OUT, REFUSED), Collect(last, before - multiset{OUT}));
  }

  // ---------- bytes are left behind ----------

  lemma Answered()
    ensures RunTask(FULL, OUT, ANSWER) == CUT
  {
    var c1 := Written(FULL, 1);
    assert c1 == FULL.(wire := [1], output := []);
    var c2 := Log(SetWritable(c1, false), OnWriteComplete);
    assert c2.log == [OnConnect, OnWriteComplete];
    var calls := ANSWER.onWriteComplete;
    assert calls[1..] == [CallShutdown(false)] && calls[1..][1..] == [];
    var c3 := RunCall(c2, calls[0]);
    assert c3.output == [2] && c3.accepted == CUT.accepted;
    var c4 := RunCall(c3, calls[1]);
    assert c4.past == CUT.past;
    assert RunCalls(c2, calls) == RunCalls(c3, calls[1..]) == RunCalls(c4, []) == c4;
    assert c4.log + [SocketShutdown(false)] == CUT.log;
    assert FinishWrite(c1, ANSWER) == CUT;
  }

  /**
   The write-complete callback answers and then asks for a shutdown: the socket is shut down at once
   and, however the run goes on, the answer never reaches the wire.
   */
  lemma AnswerCutOff() returns (rs0: seq<Reactor>, steps0: seq<Step>)
    ensures RunOf(rs0, steps0) && AllGranted(steps0)
    ensures rs0[|steps0|].conn.shut && rs0[|steps0|].conn.output == [2]
    ensures rs0[|steps0|].conn.accepted == [Accepted(Some(0), [1]), Accepted(None, [2])]
    ensures forall rs: seq<Reactor>, steps: seq<Step> | RunOf(rs, steps) && rs0 <= rs && steps0 <= steps ::
              forall j | |steps0| <= j <= |steps| :: rs[j].conn.wire == [1]
  {
    Answered();
    rs0, steps0 := ToFull();
    rs0, steps0 := Extend(rs0, steps0, Announce(OUT), Reactor(FULL, multiset{OUT}));
    var cut := Reactor(CUT.(submitted := []), multiset{ShutdownTask(false)});
    rs0, steps0 := Extend(rs0, steps0, Run(OUT, ANSWER), cut);
    forall rs: seq<Reactor>, steps: seq<Step> | RunOf(rs, steps) && rs0 <= rs && steps0 <= steps
      ensures forall j | |steps0| <= j <= |steps| :: rs[j].conn.wire == [1]
    {
      forall j | |steps0| <= j <= |steps| ensures rs[j].conn.wire == [1] {
        assert rs[|steps0|] == rs0[|steps0|];
        GrowsAlong(rs, steps, |steps0|, j);
      }
    }
  }

  // ---------- the handler is not told, or told twice ----------

  /** Closed with a message waiting: however the run goes on, the handler is never told. */
  lemma CloseForgets() returns (rs0: seq<Reactor>, steps0: seq<Step>)
    ensures RunOf(rs0, steps0) && AllGranted(steps0)
    ensures rs0[|steps0|].conn.state == Disconnected && rs0[|steps0|].conn.output != []
    ensures forall rs: seq<Reactor>, steps: seq<Step> | RunOf(rs, steps) && rs0 <= rs && steps0 <= steps ::
              forall j | |steps0| <= j <= |steps| :: OnClose !in rs[j].conn.log
  {
    var closed := FULL.(state := Disconnected, past := Past([Connecting, Connected, Disconnected], false, 0));
    rs0, steps0 := ToFull();
    assert Close(FULL) == closed.(submitted := [CloseTask]);
    rs0, steps0 := Extend(rs0, steps0, OffLoop(CallClose), Reactor(closed, multiset{CloseTask}));
    rs0, steps0 := Extend(rs0, steps0, Run(CloseTask, QUIET), Reactor(Unheard(closed), multiset{}));
    var n := |steps0|;
    forall rs: seq<Reactor>, steps: seq<Step> | RunOf(rs, steps) && rs0 <= rs && steps0 <= steps
      ensures forall j | n <= j <= |steps| :: OnClose !in rs[j].conn.log
    {
      forall j | n <= j <= |steps| ensures OnClose !in rs[j].conn.log {
        assert rs[n] == rs0[n] && rs[n - 1] == rs0[n - 1] && steps[n - 1] == steps0[n - 1];
        SealedForever(rs, steps, n, j);
        CloseTellsIff(rs, steps, n - 1, j);
      }
    }
  }

  const MOVED := OPEN.(state := Disconnecting,
                       past := Past([Connecting, Connected, Disconnected, Disconnecting], true, 0))
  const LATE := OPEN.(state := Disconnected, past := Past([Connecting, Connected, Disconnected, Disconnected], true, 0))

  /** Two forced calls are past their checks. */
  lemma ToChecked() returns (rs: seq<Reactor>, steps: seq<Step>)
    ensures RunOf(rs, steps) && AllGranted(steps)
    ensures rs[|steps|] == Reactor(OPEN.(checked := Checked(1, 1)), multiset{})
  {
    rs, steps := ToOpen();
    var one, two := OPEN.(checked := Checked(1, 0)), OPEN.(checked := Checked(1, 1));
    rs, steps := Extend(rs, steps, OffLoop(CheckForceShutdown), Reactor(one, multiset{}));
    rs, steps := Extend(rs, steps, OffLoop(CheckForceClose(true)), Reactor(two, multiset{}));
  }

  lemma Stores(closed: Conn)
    requires closed == OPEN.(state := Disconnected, checked := Checked(1, 0),
                             past := Past([Connecting, Connected, Disconnected], false, 0))
    ensures StoreClose(OPEN.(checked := Checked(1, 1))) == closed.(submitted := [RemoveTask])
    ensures StoreShut(closed) == MOVED.(submitted := [ForceShutdownTask])
  {
  }

  /** Both have stored, the one that checked first last. */
  lemma ToMoved() returns (rs: seq<Reactor>, steps: seq<Step>)
    ensures RunOf(rs, steps) && AllGranted(steps)
    ensures rs[|steps|] == Reactor(MOVED, multiset{RemoveTask, ForceShutdownTask})
  {
    var closed := OPEN.(state := Disconnected, checked := Checked(1, 0),
                        past := Past([Connecting, Connected, Disconnected], false, 0));
    Stores(closed);
    rs, steps := ToChecked();
    rs, steps := Extend(rs, steps, OffLoop(StoreForceClose), Reactor(closed, multiset{RemoveTask}));
    var both := multiset{RemoveTask, ForceShutdownTask};
    rs, steps := Extend(rs, steps, OffLoop(StoreForceShutdown), Reactor(MOVED, both));
  }

  /**
   `ForceShutdown` has checked that the connection is not disconnected; another thread's `ForceClose`
   runs; then `ForceShutdown` stores. The removal finds the state moved back, and its assertion fires.
   */
  lemma RemovalFindsMoved() returns (rs: seq<Reactor>, steps: seq<Step>)
    ensures RunOf(rs, steps) && AllGranted(steps) && rs[|steps|].conn.exited
    ensures steps != [] && steps[|steps| - 1] == Run(RemoveTask, QUIET)
    ensures rs[|steps| - 1].conn.state == Disconnecting && rs[|steps| - 1].conn.past.overtaken
  {
    rs, steps := ToMoved();
    assert RunTask(MOVED, RemoveTask, QUIET) == MOVED.(exited := true);
    var rest := multiset{ForceShutdownTask};
    rs, steps := Extend(rs, steps, Run(RemoveTask, QUIET), Reactor(MOVED.(exited := true), rest));
  }

  lemma RacedHangUp()
    ensures RunTask(OPEN, GONE, RACED) == LATE.(submitted := [RemoveTask, RemoveTask])
  {
    var calls := RACED.gapHangUp;
    var one := RunCall(OPEN, calls[0]);
    assert one == OPEN.(checked := Checked(0, 1));
    var two := RunCall(one, calls[1]);
    assert calls[1..] == [StoreForceClose] && calls[1..][1..] == [];
    assert RunCalls(OPEN, calls) == RunCalls(one, calls[1..]) == RunCalls(two, []) == two;
    assert two.past.trail == [Connecting, Connected, Disconnected];
  }

  /** The handler is told, and the context cleared. */
  function Told(c: Conn): Conn {
    Log(Log(c, OnClose), ContextCleared)
  }

  lemma OneRemoval(c: Conn)
    requires c.state == Disconnected && !c.exited
    ensures RunTask(c, RemoveTask, QUIET) == Told(c)
  {
  }

  /** A hang-up with a `ForceClose` in its gap has been handled. */
  lemma ToLate() returns (rs: seq<Reactor>, steps: seq<Step>)
    ensures RunOf(rs, steps) && AllGranted(steps)
    ensures rs[|steps|] == Reactor(LATE, multiset{RemoveTask, RemoveTask})
  {
    RacedHangUp();
    rs, steps := ToOpen();
    rs, steps := Extend(rs, steps, Announce(GONE), Reactor(OPEN, multiset{GONE}));
    assert multiset{GONE} - multiset{GONE} + multiset([RemoveTask, RemoveTask]) == multiset{RemoveTask, RemoveTask};
    rs, steps := Extend(rs, steps, Run(GONE, RACED), Reactor(LATE, multiset{RemoveTask, RemoveTask}));
  }

  lemma ToToldOnce() returns (rs: seq<Reactor>, steps: seq<Step>)
    ensures RunOf(rs, steps) && AllGranted(steps)
    ensures rs[|steps|] == Reactor(Told(LATE), multiset{RemoveTask})
  {
    rs, steps := ToLate();
    OneRemoval(LATE);
    assert multiset{RemoveTask, RemoveTask} - multiset{RemoveTask} == multiset{RemoveTask};
    rs, steps := Extend(rs, steps, Run(RemoveTask, QUIET), Reactor(Told(LATE), multiset{RemoveTask}));
  }

  /**
   A hang-up is reported; `handleClose` has checked the state; another thread's `ForceClose` runs;
   then `handleClose` stores. Two removals are submitted, and the handler is told twice.
   */
  lemma ToldTwice() returns (rs: seq<Reactor>, steps: seq<Step>)
    ensures RunOf(rs, steps) && AllGranted(steps)
    ensures multiset(rs[|steps|].conn.log)[OnClose] == 2
  {
    rs, steps := ToToldOnce();
    OneRemoval(Told(LATE));
    rs, steps := Extend(rs, steps, Run(RemoveTask, QUIET), Reactor(Told(Told(LATE)), multiset{}));
  }
}
