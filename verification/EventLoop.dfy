/**
 One connection on its event loop: threads push tasks onto the lock-free queue step by step, the
 loop thread pops them and runs each before it pops the next, and the connection's handlers submit
 further tasks. A task a thread has decided to submit is `due` until that thread starts its push.
 The loop's stop flag only makes threads stop early, which is among the runs.
 */
module EventLoop {
  import opened Base
  import Lfq = LockFreeQueue
  import QI = QueueInvariant
  import QR = QueueRefinement
  import Fifo = AtomicQueue
  import opened ConnectionSpec
  import CR = ConnectionRuns

  datatype Loop = Loop(q: Lfq.State<Task>, conn: Conn, due: multiset<Task>, hand: Option<Task>)

  datatype Move =
    | Announce(task: Task)
    | Queue(a: Lfq.Action<Task>)
    | OffLoop(call: Call)
    | Work(env: Env)

  ghost predicate Init(s: Loop) {
    Lfq.Init(s.q) && s.conn == FRESH && s.due == multiset{StartTask} && s.hand == None
  }

  ghost predicate QueueMove(s: Loop, a: Lfq.Action<Task>, s': Loop) {
    && Lfq.Next(s.q, a, s'.q) && s'.conn == s.conn
    && match a
       case BeginPush(t, x, _) =>
         x in s.due && (x.SendTask? ==> x.sender == t) && s'.due == s.due - multiset{x} && s'.hand == s.hand
       case StepPush(_) => s'.due == s.due && s'.hand == s.hand
       case BeginPop => s.hand == None && s'.due == s.due && s'.hand == s.hand
       case BeginEmpty => s.hand == None && s'.due == s.due && s'.hand == s.hand
       case StepPop => s'.due == s.due && s'.hand == HandAfter(s)
  }

  /** `Pop` returning a task puts it in the loop's hand. */
  function HandAfter(s: Loop): Option<Task> {
    match s.q.consumer
    case PopDone(Some(x)) => Some(x)
    case _ => s.hand
  }

  ghost predicate Next(s: Loop, m: Move, s': Loop) {
    && !s.conn.exited
    && match m
       case Announce(task) => CR.MayAnnounce(s.conn, task) && s' == s.(due := s.due + multiset{task})
       case Queue(a) => QueueMove(s, a, s')
       case OffLoop(call) =>
         var c' := RunCall(s.conn, call);
         !call.CallSend? && s' == s.(conn := c'.(submitted := []), due := s.due + multiset(c'.submitted))
       case Work(env) =>
         s.hand.Some? && CR.NoSend(env.gapRead) && CR.NoSend(env.gapHangUp) &&
         var c' := RunTask(s.conn, s.hand.value, env);
         s' == s.(conn := c'.(submitted := []), due := s.due + multiset(c'.submitted), hand := None)
  }

  ghost predicate Run(ss: seq<Loop>, ms: seq<Move>) {
    && |ss| == |ms| + 1
    && Init(ss[0])
    && forall i | 0 <= i < |ms| :: Linked(ss, ms, i)
  }

  /** The `i`th move leads from the `i`th state to the one after it. */
  ghost predicate Linked(ss: seq<Loop>, ms: seq<Move>, i: nat)
    requires i < |ms| < |ss|
  {
    Next(ss[i], ms[i], ss[i + 1])
  }

  lemma RunPrefix(ss: seq<Loop>, ms: seq<Move>, n: nat)
    requires Run(ss, ms) && n <= |ms|
    ensures Run(ss[..n + 1], ms[..n])
  {
    var ss', ms' := ss[..n + 1], ms[..n];
    forall i | 0 <= i < |ms'| ensures Linked(ss', ms', i) {
      assert Linked(ss, ms, i);
    }
  }

  /** The queue events of a run. */
  ghost function Events(ss: seq<Loop>, ms: seq<Move>): seq<Fifo.Event<Task>>
    requires Run(ss, ms)
    decreases |ms|
  {
    if ms == [] then []
    else
      var n := |ms| - 1;
      RunPrefix(ss, ms, n);
      assert Linked(ss, ms, n);
      var before := Events(ss[..n + 1], ms[..n]);
      if ms[n].Queue? then before + [Lfq.EventOf(ss[n].q, ms[n].a)] else before
  }

  /** The tasks the loop has run, in order. */
  ghost function Executed(ss: seq<Loop>, ms: seq<Move>): seq<Task>
    requires |ss| == |ms| + 1
    decreases |ms|
  {
    if ms == [] then []
    else
      var n := |ms| - 1;
      var before := Executed(ss[..n + 1], ms[..n]);
      if ms[n].Work? && ss[n].hand.Some? then before + [ss[n].hand.value] else before
  }

  function InHand(h: Option<Task>): seq<Task> {
    match h
    case None => []
    case Some(x) => [x]
  }

  /** The queue part of a run is, event by event, a run of the reference queue. */
  lemma {:induction false} SpecRun(ss: seq<Loop>, ms: seq<Move>)
    returns (abs: seq<Fifo.State<Task>>, g: QI.Shape)
    requires Run(ss, ms)
    ensures Fifo.Run(abs, Events(ss, ms))
    ensures QI.Inv(ss[|ms|].q, g) && abs[|Events(ss, ms)|] == QI.Abs(ss[|ms|].q, g)
    decreases |ms|
  {
    if ms == [] {
      g := QI.Shape([], map[], map[]);
      assert QI.Inv(ss[0].q, g);
      abs := [QI.Abs(ss[0].q, g)];
      assert abs[0] == Fifo.State([], map[], Fifo.Resting);
    } else {
      var n := |ms| - 1;
      RunPrefix(ss, ms, n);
      abs, g := SpecRun(ss[..n + 1], ms[..n]);
      assert Linked(ss, ms, n);
      if ms[n].Queue? {
        var a := ms[n].a;
        QR.StepMatched(ss[n].q, g, a);
        var g' := QR.NextShape(ss[n].q, g, a);
        Fifo.RunExtends(abs, Events(ss[..n + 1], ms[..n]), Lfq.EventOf(ss[n].q, a), QI.Abs(ss[n + 1].q, g'));
        abs, g := abs + [QI.Abs(ss[n + 1].q, g')], g';
      }
    }
  }

  /** While a task is in hand the loop is in no queue operation. */
  lemma {:induction false} HandMeansIdle(ss: seq<Loop>, ms: seq<Move>)
    requires Run(ss, ms)
    ensures ss[|ms|].hand.Some? ==> ss[|ms|].q.consumer == Lfq.Idle
    decreases |ms|
  {
    if ms != [] {
      var n := |ms| - 1;
      RunPrefix(ss, ms, n);
      HandMeansIdle(ss[..n + 1], ms[..n]);
      assert Linked(ss, ms, n);
    }
  }

  lemma PushEventsAskNothing(q: Lfq.State<Task>, t: Tid)
    requires t in q.producers
    ensures Fifo.AskedNow(Lfq.PushEvent(q, t)) == [] && Fifo.ReturnedNow(Lfq.PushEvent(q, t)) == []
  {
  }

  lemma PopEventsReturn(q: Lfq.State<Task>)
    ensures Fifo.AskedNow(Lfq.PopEvent(q)) == []
    ensures Fifo.ReturnedNow(Lfq.PopEvent(q)) == if q.consumer.PopDone? then InHand(q.consumer.result) else []
  {
  }

  /** A queue move takes what it asks for from the tasks due, and hands over what it returns. */
  lemma QueueMoveFlow(s: Loop, a: Lfq.Action<Task>, s': Loop)
    requires QueueMove(s, a, s') && (s.hand.Some? ==> s.q.consumer == Lfq.Idle)
    ensures var e := Lfq.EventOf(s.q, a);
            && multiset(Fifo.AskedNow(e)) <= s.due
            && s'.due == s.due - multiset(Fifo.AskedNow(e))
            && InHand(s'.hand) == InHand(s.hand) + Fifo.ReturnedNow(e)
  {
    match a
    case BeginPush(t, x, _) => assert Fifo.AskedNow(Lfq.EventOf(s.q, a)) == [x];
    case StepPush(t) => PushEventsAskNothing(s.q, t);
    case BeginPop =>
    case BeginEmpty =>
    case StepPop => StepPopFlow(s, a, s');
  }

  lemma StepPopFlow(s: Loop, a: Lfq.Action<Task>, s': Loop)
    requires QueueMove(s, a, s') && a == Lfq.StepPop && (s.hand.Some? ==> s.q.consumer == Lfq.Idle)
    ensures var e := Lfq.EventOf(s.q, a);
            Fifo.AskedNow(e) == [] && s'.due == s.due && InHand(s'.hand) == InHand(s.hand) + Fifo.ReturnedNow(e)
  {
    PopEventsReturn(s.q);
    assert s.hand == None;
  }

  /** Only running the task in hand changes the hand outside the queue. */
  lemma OtherMovesKeepHand(ss: seq<Loop>, ms: seq<Move>, i: nat)
    requires Run(ss, ms) && i < |ms| && !ms[i].Queue?
    ensures if ms[i].Work? then ss[i].hand.Some? && ss[i + 1].hand == None else ss[i + 1].hand == ss[i].hand
  {
    assert Linked(ss, ms, i);
  }

  /** A queue move as the last of a run hands over just what it returns. */
  lemma QueueMoveReturns(ss: seq<Loop>, ms: seq<Move>) returns (r: seq<Task>)
    requires Run(ss, ms) && ms != [] && ms[|ms| - 1].Queue?
    ensures var n := |ms| - 1;
            && Run(ss[..n + 1], ms[..n])
            && Fifo.Returned(Events(ss, ms)) == Fifo.Returned(Events(ss[..n + 1], ms[..n])) + r
            && InHand(ss[n + 1].hand) == InHand(ss[n].hand) + r
  {
    var n := |ms| - 1;
    RunPrefix(ss, ms, n);
    HandMeansIdle(ss[..n + 1], ms[..n]);
    assert Linked(ss, ms, n);
    QueueMoveFlow(ss[n], ms[n].a, ss[n + 1]);
    Fifo.OneMore(Events(ss[..n + 1], ms[..n]), Lfq.EventOf(ss[n].q, ms[n].a));
    r := Fifo.ReturnedNow(Lfq.EventOf(ss[n].q, ms[n].a));
  }

  lemma EventsStay(ss: seq<Loop>, ms: seq<Move>)
    requires Run(ss, ms) && ms != [] && !ms[|ms| - 1].Queue?
    ensures var n := |ms| - 1; Run(ss[..n + 1], ms[..n]) && Events(ss, ms) == Events(ss[..n + 1], ms[..n])
  {
    RunPrefix(ss, ms, |ms| - 1);
  }

  /** A move that is not the queue's runs the task in hand, or leaves what was run and what is in hand. */
  lemma OthersRunTheHand(ss: seq<Loop>, ms: seq<Move>)
    requires Run(ss, ms) && ms != [] && !ms[|ms| - 1].Queue?
    ensures var n := |ms| - 1;
            Executed(ss, ms) + InHand(ss[n + 1].hand) == Executed(ss[..n + 1], ms[..n]) + InHand(ss[n].hand)
  {
    OtherMovesKeepHand(ss, ms, |ms| - 1);
  }

  lemma {:induction false} ReturnedIsExecuted(ss: seq<Loop>, ms: seq<Move>)
    requires Run(ss, ms)
    ensures Fifo.Returned(Events(ss, ms)) == Executed(ss, ms) + InHand(ss[|ms|].hand)
    decreases |ms|
  {
    if ms != [] {
      var n := |ms| - 1;
      RunPrefix(ss, ms, n);
      ReturnedIsExecuted(ss[..n + 1], ms[..n]);
      if ms[n].Queue? {
        var _ := QueueMoveReturns(ss, ms);
        assert Executed(ss, ms) == Executed(ss[..n + 1], ms[..n]);
      } else {
        EventsStay(ss, ms);
        OthersRunTheHand(ss, ms);
      }
    }
  }

  /**
   Tasks run in the order in which their pushes took effect, each once: those run, then the one in
   hand, then the one a pop is holding, then those queued are all that were ever pushed.
   */
  lemma TaskAccounting(ss: seq<Loop>, ms: seq<Move>) returns (abs: seq<Fifo.State<Task>>)
    requires Run(ss, ms)
    ensures Fifo.Run(abs, Events(ss, ms))
    ensures var last := abs[|Events(ss, ms)|];
            Fifo.Pushed(Events(ss, ms)) ==
            Executed(ss, ms) + InHand(ss[|ms|].hand) + Fifo.InHand(last.popper) + last.queue
    ensures Executed(ss, ms) <= Fifo.Pushed(Events(ss, ms))
  {
    var g;
    abs, g := SpecRun(ss, ms);
    Fifo.Fifo(abs, Events(ss, ms));
    ReturnedIsExecuted(ss, ms);
  }

  // ---------- the connection part of a run ----------

  /** Every task submitted and not yet run, wherever it is. */
  ghost function InFlight(ss: seq<Loop>, ms: seq<Move>): multiset<Task>
    requires Run(ss, ms)
  {
    var es := Events(ss, ms);
    ss[|ms|].due + (multiset(Fifo.Asked(es)) - multiset(Fifo.Returned(es))) + multiset(InHand(ss[|ms|].hand))
  }

  lemma ReturnedWasAsked(ss: seq<Loop>, ms: seq<Move>)
    requires Run(ss, ms)
    ensures multiset(Fifo.Returned(Events(ss, ms))) <= multiset(Fifo.Asked(Events(ss, ms)))
  {
    var abs, _ := SpecRun(ss, ms);
    Fifo.ReturnedWasAsked(abs, Events(ss, ms));
  }

  /** `a` given out, `r` taken in: the balance stays. */
  lemma FlowBalance(due: multiset<Task>, asked: multiset<Task>, returned: multiset<Task>, hand: multiset<Task>,
                    a: multiset<Task>, r: multiset<Task>)
    requires a <= due && returned <= asked && returned + r <= asked + a
    ensures (due - a) + ((asked + a) - (returned + r)) + (hand + r) == due + (asked - returned) + hand
  {
  }

  lemma QueueMovesKeepInFlight(ss: seq<Loop>, ms: seq<Move>)
    requires Run(ss, ms) && ms != [] && ms[|ms| - 1].Queue?
    ensures var n := |ms| - 1; Run(ss[..n + 1], ms[..n]) && InFlight(ss, ms) == InFlight(ss[..n + 1], ms[..n])
  {
    var n := |ms| - 1;
    RunPrefix(ss, ms, n);
    assert Linked(ss, ms, n);
    var before, e := Events(ss[..n + 1], ms[..n]), Lfq.EventOf(ss[n].q, ms[n].a);
    HandMeansIdle(ss[..n + 1], ms[..n]);
    QueueMoveFlow(ss[n], ms[n].a, ss[n + 1]);
    Fifo.OneMore(before, e);
    ReturnedWasAsked(ss, ms);
    ReturnedWasAsked(ss[..n + 1], ms[..n]);
    FlowBalance(ss[n].due, multiset(Fifo.Asked(before)), multiset(Fifo.Returned(before)), multiset(InHand(ss[n].hand)),
                multiset(Fifo.AskedNow(e)), multiset(Fifo.ReturnedNow(e)));
  }
}
