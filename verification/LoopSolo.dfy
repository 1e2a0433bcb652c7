/** The loop makes progress: moving alone it takes the first task pushed and not yet run, and runs it. */
module LoopSolo {
  import opened Base
  import opened ConnectionSpec
  import opened EventLoop
  import CR = ConnectionRuns
  import Lfq = LockFreeQueue
  import QI = QueueInvariant
  import QS = QueueSolo
  import Fifo = AtomicQueue

  /** The loop's own moves. */
  predicate ByLoop(m: Move) {
    m.Work? || m == Queue(Lfq.BeginEmpty) || m == Queue(Lfq.BeginPop) || m == Queue(Lfq.StepPop)
  }

  lemma RunOn(ss: seq<Loop>, ms: seq<Move>, m: Move, s': Loop)
    requires Run(ss, ms) && Next(ss[|ms|], m, s')
    ensures Run(ss + [s'], ms + [m])
    ensures Executed(ss + [s'], ms + [m]) ==
            Executed(ss, ms) + if m.Work? && ss[|ms|].hand.Some? then [ss[|ms|].hand.value] else []
  {
    var ss', ms' := ss + [s'], ms + [m];
    forall i | 0 <= i < |ms'| ensures Linked(ss', ms', i) {
      if i < |ms| { assert Linked(ss, ms, i); }
    }
    assert ss'[..|ms| + 1] == ss && ms'[..|ms|] == ms;
  }

  lemma NoFault(ss: seq<Loop>, ms: seq<Move>)
    requires Run(ss, ms)
    ensures !ss[|ms|].q.fault
  {
    var _, g := SpecRun(ss, ms);
  }

  /** One step of the queue's, with nothing else changed. */
  lemma QueueStep(ss: seq<Loop>, ms: seq<Move>, a: Lfq.Action<Task>) returns (ss': seq<Loop>, ms': seq<Move>)
    requires Run(ss, ms) && !ss[|ms|].conn.exited && ss[|ms|].hand == None
    requires if ss[|ms|].q.consumer == Lfq.Idle then a == Lfq.BeginPop || a == Lfq.BeginEmpty else a == Lfq.StepPop
    ensures Run(ss', ms') && ms' == ms + [Queue(a)]
    ensures var hand := if a.StepPop? then HandAfter(ss[|ms|]) else None;
            ss' == ss + [ss[|ms|].(q := Lfq.Apply(ss[|ms|].q, a), hand := hand)]
    ensures Executed(ss', ms') == Executed(ss, ms)
  {
    var s := ss[|ms|];
    NoFault(ss, ms);
    var s' := s.(q := Lfq.Apply(s.q, a), hand := if a.StepPop? then HandAfter(s) else None);
    assert Next(s, Queue(a), s');
    RunOn(ss, ms, Queue(a), s');
    ss', ms' := ss + [s'], ms + [Queue(a)];
  }

  predicate Popping(q: Lfq.State<Task>) {
    q.consumer != Lfq.Idle && !q.consumer.EmptyLoadHead? && !q.consumer.EmptyDone?
  }

  /** Steps of the pop alone, until it is ready to return. */
  lemma {:induction false} PopsOn(ss: seq<Loop>, ms: seq<Move>, n: nat) returns (ss': seq<Loop>, ms': seq<Move>)
    requires Run(ss, ms) && !ss[|ms|].conn.exited && ss[|ms|].hand == None && Popping(ss[|ms|].q)
    ensures Run(ss', ms') && ss <= ss' && ms <= ms' && |ms'| <= |ms| + n
    ensures ss'[|ms'|] == ss[|ms|].(q := QS.SoloPop(ss[|ms|].q, n))
    ensures Executed(ss', ms') == Executed(ss, ms)
    ensures forall i | |ms| <= i < |ms'| :: ms'[i] == Queue(Lfq.StepPop)
    decreases n
  {
    ss', ms' := ss, ms;
    if n > 0 && !ss[|ms|].q.consumer.PopDone? {
      var ss1, ms1 := QueueStep(ss, ms, Lfq.StepPop);
      assert ss1[|ms1|] == ss[|ms|].(q := Lfq.StepConsumer(ss[|ms|].q));
      ss', ms' := PopsOn(ss1, ms1, n - 1);
    }
  }

  /** The first task pushed and not yet run is the one at the front of the queue. */
  lemma FrontIsNext(ss: seq<Loop>, ms: seq<Move>) returns (g: QI.Shape)
    requires Run(ss, ms) && ss[|ms|].hand == None && ss[|ms|].q.consumer == Lfq.Idle
    ensures QI.Inv(ss[|ms|].q, g)
    ensures Fifo.Pushed(Events(ss, ms)) == Executed(ss, ms) + QI.Elements(ss[|ms|].q.heap, g.chain)
  {
    var abs;
    abs, g := SpecRun(ss, ms);
    Fifo.Fifo(abs, Events(ss, ms));
    ReturnedIsExecuted(ss, ms);
  }

  /** The loop asks whether the queue is empty, and is told that it is not. */
  lemma LoopAloneAsks(ss: seq<Loop>, ms: seq<Move>) returns (ss': seq<Loop>, ms': seq<Move>)
    requires Run(ss, ms) && !ss[|ms|].conn.exited && ss[|ms|].hand == None && ss[|ms|].q.consumer == Lfq.Idle
    requires ss[|ms|].q.head != Lfq.NULLPTR
    ensures Run(ss', ms') && ss <= ss' && ms' == ms + [Queue(Lfq.BeginEmpty), Queue(Lfq.StepPop), Queue(Lfq.StepPop)]
    ensures ss'[|ms| + 2].q.consumer == Lfq.EmptyDone(false) && ss'[|ms'|] == ss[|ms|]
    ensures Executed(ss', ms') == Executed(ss, ms)
  {
    var ss1, ms1 := QueueStep(ss, ms, Lfq.BeginEmpty);
    var ss2, ms2 := QueueStep(ss1, ms1, Lfq.StepPop);
    ss', ms' := QueueStep(ss2, ms2, Lfq.StepPop);
  }

  lemma PopBegins(q: Lfq.State<Task>, g: QI.Shape)
    requires QI.Inv(q, g) && q.consumer == Lfq.Idle && !QS.FrontLinkMissing(q) && g.chain != []
    ensures QS.SoloPop(Lfq.Apply(q, Lfq.BeginPop), 6).consumer == Lfq.PopDone(Some(QI.Elements(q.heap, g.chain)[0]))
  {
    var q1 := Lfq.Apply(q, Lfq.BeginPop);
    assert QI.Inv(q1, g);
    QS.PopTakesOnePass(q1, g);
  }

  /** Seven moves at most, and the pop is about to return it. */
  lemma PopAlone(ss: seq<Loop>, ms: seq<Move>, g: QI.Shape) returns (ss': seq<Loop>, ms': seq<Move>)
    requires Run(ss, ms) && !ss[|ms|].conn.exited && ss[|ms|].hand == None && ss[|ms|].q.consumer == Lfq.Idle
    requires QI.Inv(ss[|ms|].q, g) && !QS.FrontLinkMissing(ss[|ms|].q) && g.chain != []
    ensures Run(ss', ms') && ss <= ss' && ms <= ms' && |ms'| <= |ms| + 7
    ensures forall i | |ms| <= i < |ms'| :: ByLoop(ms'[i])
    ensures Executed(ss', ms') == Executed(ss, ms)
    ensures ss'[|ms'|].conn == ss[|ms|].conn && ss'[|ms'|].hand == None
    ensures ss'[|ms'|].q.consumer == Lfq.PopDone(Some(QI.Elements(ss[|ms|].q.heap, g.chain)[0]))
  {
    PopBegins(ss[|ms|].q, g);
    var ss1, ms1 := QueueStep(ss, ms, Lfq.BeginPop);
    ss', ms' := PopsOn(ss1, ms1, 6);
  }

  /** One more puts it into the loop's hand. */
  lemma LoopAlonePops(ss: seq<Loop>, ms: seq<Move>, g: QI.Shape) returns (ss': seq<Loop>, ms': seq<Move>)
    requires Run(ss, ms) && !ss[|ms|].conn.exited && ss[|ms|].hand == None && ss[|ms|].q.consumer == Lfq.Idle
    requires QI.Inv(ss[|ms|].q, g) && !QS.FrontLinkMissing(ss[|ms|].q) && g.chain != []
    ensures Run(ss', ms') && ss <= ss' && ms <= ms' && |ms'| <= |ms| + 8
    ensures forall i | |ms| <= i < |ms'| :: ByLoop(ms'[i])
    ensures Executed(ss', ms') == Executed(ss, ms) && ss'[|ms'|].conn == ss[|ms|].conn
    ensures ss'[|ms'|].hand == Some(QI.Elements(ss[|ms|].q.heap, g.chain)[0]) && ss'[|ms'|].q.consumer == Lfq.Idle
  {
    var ss1, ms1 := PopAlone(ss, ms, g);
    ss', ms' := QueueStep(ss1, ms1, Lfq.StepPop);
  }

  /** Running the task in hand is always possible, whatever the kernel answers. */
  lemma WorkOn(ss: seq<Loop>, ms: seq<Move>, env: Env) returns (ss': seq<Loop>, ms': seq<Move>)
    requires Run(ss, ms) && !ss[|ms|].conn.exited && ss[|ms|].hand.Some?
    requires CR.NoSend(env.gapRead) && CR.NoSend(env.gapHangUp)
    ensures Run(ss', ms') && ss <= ss' && ms' == ms + [Work(env)]
    ensures Executed(ss', ms') == Executed(ss, ms) + [ss[|ms|].hand.value]
    ensures ss'[|ms'|].hand == None && ss'[|ms'|].q == ss[|ms|].q
    ensures ss'[|ms'|].conn == RunTask(ss[|ms|].conn, ss[|ms|].hand.value, env).(submitted := [])
  {
    var s := ss[|ms|];
    var c' := RunTask(s.conn, s.hand.value, env);
    var s' := s.(conn := c'.(submitted := []), due := s.due + multiset(c'.submitted), hand := None);
    assert Next(s, Work(env), s');
    RunOn(ss, ms, Work(env), s');
    ss', ms' := ss + [s'], ms + [Work(env)];
  }

  /**
   In every run: the loop at rest, a task pushed and not yet run, and the front link stored, the loop
   moving alone has in twelve moves been told that the queue is not empty, popped the first such task
   and run it, whatever the kernel answers.
   */
  lemma LoopAloneRuns(ss: seq<Loop>, ms: seq<Move>, env: Env) returns (ss': seq<Loop>, ms': seq<Move>)
    requires Run(ss, ms) && !ss[|ms|].conn.exited && ss[|ms|].hand == None && ss[|ms|].q.consumer == Lfq.Idle
    requires !QS.FrontLinkMissing(ss[|ms|].q) && |Executed(ss, ms)| < |Fifo.Pushed(Events(ss, ms))|
    requires CR.NoSend(env.gapRead) && CR.NoSend(env.gapHangUp)
    ensures Run(ss', ms') && ss <= ss' && ms <= ms' && |ms'| <= |ms| + 12
    ensures forall i | |ms| <= i < |ms'| :: ByLoop(ms'[i])
    ensures var x := Fifo.Pushed(Events(ss, ms))[|Executed(ss, ms)|];
            && Executed(ss', ms') == Executed(ss, ms) + [x]
            && ss'[|ms'|].conn == RunTask(ss[|ms|].conn, x, env).(submitted := [])
    ensures ss'[|ms'|].hand == None && ss'[|ms'|].q.consumer == Lfq.Idle
  {
    var g := FrontIsNext(ss, ms);
    QI.EmptyTail(ss[|ms|].q, g);
    var ss1, ms1 := LoopAloneAsks(ss, ms);
    var ss2, ms2 := LoopAlonePops(ss1, ms1, g);
    ss', ms' := WorkOn(ss2, ms2, env);
  }

  // ---------- for instance, a connection opens ----------

  const QUIET := Env(true, true, true, WouldBlock, Wrote(0), [], [], [], [], [], [], [], [], [], [])

  /** A step of a push by thread 0. */
  lemma PushStep(ss: seq<Loop>, ms: seq<Move>, a: Lfq.Action<Task>, s': Loop)
    returns (ss': seq<Loop>, ms': seq<Move>)
    requires Run(ss, ms) && QueueMove(ss[|ms|], a, s') && !ss[|ms|].conn.exited
    ensures Run(ss', ms') && ss' == ss + [s'] && ms' == ms + [Queue(a)]
    ensures Executed(ss', ms') == Executed(ss, ms)
    ensures Fifo.Pushed(Events(ss', ms')) ==
            Fifo.Pushed(Events(ss, ms)) + Fifo.PushedNow(Lfq.EventOf(ss[|ms|].q, a))
  {
    assert Next(ss[|ms|], Queue(a), s');
    RunOn(ss, ms, Queue(a), s');
    ss', ms' := ss + [s'], ms + [Queue(a)];
    assert ss'[..|ms| + 1] == ss && ms'[..|ms|] == ms;
    Fifo.OneMore(Events(ss, ms), Lfq.EventOf(ss[|ms|].q, a));
  }

  const NODE := map[1 := Lfq.Node(Lfq.NULLPTR, StartTask)]

  /** The loop before anything but the queue has moved. */
  function Early(head: Lfq.Addr, tail: Lfq.Addr, producers: map<Tid, Lfq.Producer>): Loop {
    Loop(Lfq.State(head, tail, NODE, producers, Lfq.Idle, false), FRESH, multiset{}, None)
  }

  lemma ToCalled() returns (ss: seq<Loop>, ms: seq<Move>)
    ensures Run(ss, ms) && Executed(ss, ms) == [] && Fifo.Pushed(Events(ss, ms)) == []
    ensures ss[|ms|] == Early(Lfq.NULLPTR, Lfq.NULLPTR, map[0 := Lfq.PushLoadTail(1)])
  {
    var q0 := Lfq.State(Lfq.NULLPTR, Lfq.NULLPTR, map[], map[], Lfq.Idle, false);
    ss, ms := [Loop(q0, FRESH, multiset{StartTask}, None)], [];
    assert Executed(ss, ms) == [] && Events(ss, ms) == [];
    ss, ms := PushStep(ss, ms, Lfq.BeginPush(0, StartTask, 1),
                       Early(Lfq.NULLPTR, Lfq.NULLPTR, map[0 := Lfq.PushLoadTail(1)]));
  }

  /** A step of the push that shows nothing yet. */
  predicate Quiet(s: Loop, s': Loop) {
    && 0 in s.q.producers && !s.q.fault
    && s' == s.(q := Lfq.StepProducer(s.q, 0)) && Fifo.PushedNow(Lfq.PushEvent(s.q, 0)) == []
  }

  lemma LoadsThenWins()
    ensures Quiet(Early(Lfq.NULLPTR, Lfq.NULLPTR, map[0 := Lfq.PushLoadTail(1)]),
                  Early(Lfq.NULLPTR, Lfq.NULLPTR, map[0 := Lfq.PushCasHead(1)]))
    ensures Quiet(Early(Lfq.NULLPTR, Lfq.NULLPTR, map[0 := Lfq.PushCasHead(1)]),
                  Early(1, Lfq.NULLPTR, map[0 := Lfq.PushStoreTail(1)]))
  {
  }

  lemma QuietStep(ss: seq<Loop>, ms: seq<Move>, s': Loop) returns (ss': seq<Loop>, ms': seq<Move>)
    requires Run(ss, ms) && Quiet(ss[|ms|], s') && !ss[|ms|].conn.exited
    ensures Run(ss', ms') && ss'[|ms'|] == s'
    ensures Executed(ss', ms') == Executed(ss, ms)
    ensures Fifo.Pushed(Events(ss', ms')) == Fifo.Pushed(Events(ss, ms))
  {
    assert QueueMove(ss[|ms|], Lfq.StepPush(0), s');
    ss', ms' := PushStep(ss, ms, Lfq.StepPush(0), s');
  }

  lemma ToWon() returns (ss: seq<Loop>, ms: seq<Move>)
    ensures Run(ss, ms) && Executed(ss, ms) == [] && Fifo.Pushed(Events(ss, ms)) == []
    ensures ss[|ms|] == Early(1, Lfq.NULLPTR, map[0 := Lfq.PushStoreTail(1)])
  {
    LoadsThenWins();
    ss, ms := ToCalled();
    ss, ms := QuietStep(ss, ms, Early(Lfq.NULLPTR, Lfq.NULLPTR, map[0 := Lfq.PushCasHead(1)]));
    ss, ms := QuietStep(ss, ms, Early(1, Lfq.NULLPTR, map[0 := Lfq.PushStoreTail(1)]));
  }

  /** `Start` has pushed its task and returned. */
  lemma ToStarted() returns (ss: seq<Loop>, ms: seq<Move>)
    ensures Run(ss, ms) && Executed(ss, ms) == [] && Fifo.Pushed(Events(ss, ms)) == [StartTask]
    ensures ss[|ms|] == Early(1, 1, map[])
  {
    ss, ms := ToWon();
    ss, ms := PushStep(ss, ms, Lfq.StepPush(0), Early(1, 1, map[0 := Lfq.PushDone(true)]));
    ss, ms := PushStep(ss, ms, Lfq.StepPush(0), Early(1, 1, map[]));
  }

  /** A run from the start in which `Start` is pushed, popped and run, and the connection is open. */
  lemma Opens() returns (ss: seq<Loop>, ms: seq<Move>)
    ensures Run(ss, ms) && Executed(ss, ms) == [StartTask]
    ensures ss[|ms|].conn.state == Connected && ss[|ms|].conn.log == [OnConnect] && ss[|ms|].conn.readable
  {
    ss, ms := ToStarted();
    ss, ms := LoopAloneRuns(ss, ms, QUIET);
  }
}
