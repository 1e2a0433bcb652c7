/**
 What a thread of the pool comes to when it moves alone: a worker takes the first job queued, runs it
 and deletes it, or waits, or leaves; a submitter enqueues; and the joiner discards what is left.
 */
module PoolSolo {
  import opened Base
  import opened ThreadPool
  import opened PoolInvariant
  import opened PoolTheorems

  /** From `s` the actions given can be taken one after the other, and end in `s'`. */
  ghost predicate Leads(s: State, acts: seq<Action>, s': State)
    decreases |acts|
  {
    if acts == [] then s' == s else Enabled(s, acts[0]) && Leads(Apply(s, acts[0]), acts[1..], s')
  }

  /** The same action `n` times. */
  function Times(n: nat, a: Action): (acts: seq<Action>)
    ensures |acts| == n
  {
    if n == 0 then [] else [a] + Times(n - 1, a)
  }

  lemma OneMore(s: State, n: nat, a: Action, s': State)
    requires Enabled(s, a) && Leads(Apply(s, a), Times(n, a), s')
    ensures Leads(s, Times(n + 1, a), s')
  {
    assert Times(n + 1, a)[1..] == Times(n, a);
  }

  // ---------- a worker ----------

  /** In every run a worker has left its loop only if the pool was stopped. */
  lemma {:induction false} LeavesOnlyStopped(ss: seq<State>, acts: seq<Action>, i: nat)
    requires Run(ss, acts) && i <= |acts|
    ensures forall k | 0 <= k < |ss[i].workers| && ss[i].workers[k] == Exited :: ss[i].cancel
    decreases i
  {
    if i > 0 {
      LeavesOnlyStopped(ss, acts, i - 1);
      assert Linked(ss, acts, i - 1);
      StepLeavesOnlyStopped(ss[i - 1], acts[i - 1]);
    }
  }

  lemma StepLeavesOnlyStopped(s: State, a: Action)
    requires Enabled(s, a) && forall k | 0 <= k < |s.workers| && s.workers[k] == Exited :: s.cancel
    ensures var s' := Apply(s, a); forall k | 0 <= k < |s'.workers| && s'.workers[k] == Exited :: s'.cancel
  {
    if !a.StepWorker? { OthersRunNothing(s, a); }
  }

  /** The state after the worker took the front job. */
  function Taken(s: State, i: nat): State
    requires i < |s.workers| && s.queue != []
  {
    var x := s.queue[0];
    s.(queue := s.queue[1..], workers := s.workers[i := RunJob(x)],
       past := s.past.(taken := s.past.taken + [x], takenBy := s.past.takenBy[x := i]))
  }

  /** The state after the worker took, ran and deleted the front job. */
  function Worked(s: State, i: nat): State
    requires i < |s.workers| && s.queue != []
  {
    var x := s.queue[0];
    s.(queue := s.queue[1..], live := s.live - {x},
       past := s.past.(taken := s.past.taken + [x], takenBy := s.past.takenBy[x := i],
                       started := s.past.started + [x], deleted := s.past.deleted + [x]))
  }

  /** Five steps take the front job; what the steps after them lead to, seven lead to. */
  lemma WorkerTakes(s: State, i: nat, s': State)
    requires i < |s.workers| && s.workers[i] == Check && !s.cancel && !s.fault && s.mutex == None && s.queue != []
    requires Leads(Taken(s, i), Times(2, StepWorker(i)), s')
    ensures Leads(s, Times(7, StepWorker(i)), s')
  {
    var a := StepWorker(i);
    var s1 := Apply(s, a);
    var s2 := Apply(s1, a);
    var s3 := Apply(s2, a);
    var s4 := Apply(s3, a);
    assert Apply(s4, a) == Taken(s, i) by {
      assert s.workers[i := Lock][i := Look][i := PopFront(s.queue[0])][i := Unlock(Some(s.queue[0]))]
              [i := RunJob(s.queue[0])] == s.workers[i := RunJob(s.queue[0])];
    }
    OneMore(s4, 2, a, s');
    OneMore(s3, 3, a, s');
    OneMore(s2, 4, a, s');
    OneMore(s1, 5, a, s');
    OneMore(s, 6, a, s');
  }

  lemma WorkerRan(s: State, i: nat, x: Job)
    requires i < |s.workers| && s.workers[i] == RunJob(x) && x in s.live
    ensures var past := s.past.(started := s.past.started + [x], deleted := s.past.deleted + [x]);
            DoWorker(DoWorker(s, i), i) == s.(live := s.live - {x}, past := past, workers := s.workers[i := Check])
  {
    assert s.workers[i := DeleteJob(x)][i := Check] == s.workers[i := Check];
  }

  lemma WorkerRuns(s: State, i: nat, x: Job)
    requires i < |s.workers| && s.workers[i] == RunJob(x) && !s.fault && x in s.live
    ensures Leads(s, Times(2, StepWorker(i)), DoWorker(DoWorker(s, i), i))
  {
    var a := StepWorker(i);
    var s1 := DoWorker(s, i);
    assert s1.workers[i] == DeleteJob(x) && !s1.fault;
    assert Apply(s, a) == s1;
    var s2 := DoWorker(s1, i);
    assert Leads(s2, Times(0, a), s2);
    OneMore(s1, 0, a, s2);
    OneMore(s, 1, a, s2);
  }

  /**
   In every run: a worker at the head of its loop, the pool not stopped, the mutex free and jobs
   queued, moving alone has in seven steps taken the job submitted first among those still queued, run
   it and deleted it, and is back at the head of its loop.
   */
  lemma WorkerAloneRuns(ss: seq<State>, acts: seq<Action>, j: nat, i: nat)
    requires Run(ss, acts) && j <= |acts| && i < |ss[j].workers|
    requires ss[j].workers[i] == Check && !ss[j].cancel && ss[j].mutex == None && ss[j].queue != []
    ensures Leads(ss[j], Times(7, StepWorker(i)), Worked(ss[j], i))
    ensures var past := ss[j].past; |past.taken| < |past.submitted| && ss[j].queue[0] == past.submitted[|past.taken|]
  {
    var s, x := ss[j], ss[j].queue[0];
    InvAlong(ss, acts, j);
    FrontIsNew(s);
    FrontIsLive(s);
    WorkerRuns(Taken(s, i), i, x);
    WorkerRan(Taken(s, i), i, x);
    assert s.workers[i := RunJob(x)][i := Check] == s.workers;
    WorkerTakes(s, i, Worked(s, i));
  }

  lemma FrontIsLive(s: State)
    requires Inv(s) && s.queue != []
    ensures s.joiner.DrainPop? || s.queue[0] in s.live
  {
    FrontIsNew(s);
  }

  /** With nothing queued it is back there in five steps and nothing has changed. */
  lemma WorkerAloneWaits(s: State, i: nat)
    requires i < |s.workers| && s.workers[i] == Check && !s.cancel && !s.fault && s.mutex == None && s.queue == []
    ensures Leads(s, Times(5, StepWorker(i)), s)
  {
    var a := StepWorker(i);
    var s1 := Apply(s, a);
    var s2 := Apply(s1, a);
    var s3 := Apply(s2, a);
    var s4 := Apply(s3, a);
    assert s.workers[i := Lock][i := Look][i := Unlock(None)][i := Wait][i := Check] == s.workers;
    assert Leads(s, Times(0, a), s) && Apply(s4, a) == s;
    OneMore(s4, 0, a, s);
    OneMore(s3, 1, a, s);
    OneMore(s2, 2, a, s);
    OneMore(s1, 3, a, s);
    OneMore(s, 4, a, s);
  }

  /** How far a worker of a stopped pool is from leaving, at most. */
  function Distance(w: Worker): nat {
    match w
    case Lock => 7
    case Look => 6
    case PopFront(_) => 5
    case Unlock(_) => 4
    case RunJob(_) => 3
    case DeleteJob(_) => 2
    case Wait => 2
    case Check => 1
    case Exited => 0
  }

  /**
   Once the pool is stopped a worker that moves alone, nobody else inside the mutex, leaves its loop
   in seven steps at most, finishing the job it holds.
   */
  lemma WorkerAloneLeaves(s: State, i: nat) returns (n: nat, s': State)
    requires Inv(s) && s.cancel && i < |s.workers| && (s.mutex == None || s.mutex == Some(ByWorker(i)))
    ensures n <= Distance(s.workers[i]) && Leads(s, Times(n, StepWorker(i)), s')
    ensures i < |s'.workers| && s'.workers[i] == Exited && Inv(s')
    decreases Distance(s.workers[i])
  {
    if s.workers[i] == Exited {
      n, s' := 0, s;
    } else {
      var a := StepWorker(i);
      var s1 := Apply(s, a);
      StepKeeps(s, a, s1);
      WorkerGetsCloser(s, i);
      n, s' := WorkerAloneLeaves(s1, i);
      OneMore(s, n, a, s');
      n := n + 1;
    }
  }

  lemma WorkerGetsCloser(s: State, i: nat)
    requires Inv(s) && s.cancel && i < |s.workers| && (s.mutex == None || s.mutex == Some(ByWorker(i)))
    requires s.workers[i] != Exited
    ensures var s1 := DoWorker(s, i);
            && s1.cancel && |s1.workers| == |s.workers| && (s1.mutex == None || s1.mutex == Some(ByWorker(i)))
            && Distance(s1.workers[i]) < Distance(s.workers[i])
  {
    assert WorkerInv(s, i, s.workers[i]);
  }

  // ---------- a submitter ----------

  /** A submitter moving alone has in three steps put its job behind those queued. */
  lemma SubmitAloneEnqueues(s: State, t: Tid, x: Job)
    requires !s.fault && s.mutex == None && t in s.submitters && s.submitters[t] == SubmitLock(x)
    ensures var past := s.past.(submitted := s.past.submitted + [x]);
            Leads(s, Times(3, StepSubmit(t)),
                  s.(queue := s.queue + [x], live := s.live + {x}, past := past, submitters := s.submitters - {t}))
  {
    var a := StepSubmit(t);
    var s1 := Apply(s, a);
    var s2 := Apply(s1, a);
    var s3 := Apply(s2, a);
    assert s3.submitters == s.submitters - {t};
    assert Leads(s3, Times(0, a), s3);
    OneMore(s2, 0, a, s3);
    OneMore(s1, 1, a, s3);
    OneMore(s, 2, a, s3);
  }

  // ---------- the joiner ----------

  /** How far the joiner is from having discarded one job more, or from its end. */
  function Phase(s: State): nat {
    match s.joiner
    case NotJoining => 0
    case JoinWorker(k) => 6 + if k < |s.workers| then |s.workers| - k else 0
    case DrainLock => 5
    case DrainLook => 4
    case DrainDelete(_) => 3
    case DrainPop(_) => 2
    case DrainUnlock => 1
    case Joined => 0
  }

  /** With every worker gone the joiner, moving alone, discards just what is queued, in order, and ends. */
  lemma JoinAloneFinishes(s: State) returns (n: nat, s': State)
    requires Inv(s) && s.joiner != NotJoining && AllExited(s, |s.workers|)
    requires s.mutex == None || s.mutex == Some(ByJoiner)
    ensures Leads(s, Times(n, StepJoin), s') && s'.joiner == Joined && s'.mutex == None
    ensures s'.queue == if s.joiner == Joined then s.queue else []
    ensures s'.past.drained + s'.queue == s.past.drained + s.queue
    ensures s'.past.started == s.past.started && s'.past.submitted == s.past.submitted
    decreases |s.queue|, Phase(s)
  {
    if s.joiner == Joined {
      n, s' := 0, s;
    } else {
      JoinerCanStep(s);
      var s1 := Apply(s, StepJoin);
      StepKeeps(s, StepJoin, s1);
      JoinerGetsCloser(s);
      JoinerDiscards(s);
      n, s' := JoinAloneFinishes(s1);
      OneMore(s, n, StepJoin, s');
      n := n + 1;
    }
  }

  lemma JoinerCanStep(s: State)
    requires Inv(s) && s.joiner != NotJoining && s.joiner != Joined && AllExited(s, |s.workers|)
    requires s.mutex == None || s.mutex == Some(ByJoiner)
    ensures Enabled(s, StepJoin)
  {
  }

  lemma JoinerGetsCloser(s: State)
    requires Inv(s) && Enabled(s, StepJoin) && AllExited(s, |s.workers|)
    requires s.mutex == None || s.mutex == Some(ByJoiner)
    ensures var s1 := DoJoiner(s);
            && s1.joiner != NotJoining && s1.workers == s.workers && (s1.mutex == None || s1.mutex == Some(ByJoiner))
            && (|s1.queue| < |s.queue| || (s1.queue == s.queue && Phase(s1) < Phase(s)))
            && (s1.joiner == Joined ==> s1.queue == [])
  {
  }

  lemma JoinerDiscards(s: State)
    requires s.joiner.DrainPop? ==> s.queue != []
    ensures var s1 := DoJoiner(s);
            && s1.past.drained + s1.queue == s.past.drained + s.queue
            && s1.past.started == s.past.started && s1.past.submitted == s.past.submitted
  {
  }
}
