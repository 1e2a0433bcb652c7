/** What the thread pool guarantees for its immediate jobs on every run. */
module PoolTheorems {
  import opened Base
  import opened ThreadPool
  import opened PoolInvariant

  lemma {:induction false} InvAlong(ss: seq<State>, acts: seq<Action>, i: nat)
    requires Run(ss, acts) && i <= |acts|
    ensures Inv(ss[i])
  {
    if i > 0 {
      InvAlong(ss, acts, i - 1);
      assert Linked(ss, acts, i - 1);
      StepKeeps(ss[i - 1], acts[i - 1], ss[i]);
    }
  }

  /** Jobs leave the queue in the order in which they entered it, and the rest is still queued. */
  lemma JobsLeaveInOrder(ss: seq<State>, acts: seq<Action>, i: nat)
    requires Run(ss, acts) && i <= |acts|
    ensures ss[i].past.submitted == ss[i].past.taken + ss[i].past.drained + ss[i].queue
    ensures Distinct(ss[i].past.submitted)
  {
    InvAlong(ss, acts, i);
  }

  /**
   No job runs twice or is deleted twice, none is touched after it is deleted, only jobs taken by
   a worker run, and a job that a worker took is deleted only after it ran.
   */
  lemma EachJobOnce(ss: seq<State>, acts: seq<Action>, i: nat)
    requires Run(ss, acts) && i <= |acts|
    ensures !ss[i].fault && Distinct(ss[i].past.started) && Distinct(ss[i].past.deleted)
    ensures forall x | x in ss[i].past.started :: x in ss[i].past.taken
    ensures forall x | x in ss[i].past.deleted ::
              x in ss[i].past.submitted && (x in ss[i].past.taken ==> x in ss[i].past.started)
  {
    InvAlong(ss, acts, i);
    var s := ss[i];
    if s.queue != [] { FrontIsNew(s); }
  }

  /** The joiner has seen the queue empty with every worker gone. */
  ghost predicate Settled(s: State) {
    (s.joiner == DrainUnlock || s.joiner == Joined) && AllExited(s, |s.workers|)
  }

  /** From `s` to `s'` jobs were at most submitted. */
  ghost predicate OnlySubmits(s: State, s': State) {
    && s.past.submitted <= s'.past.submitted
    && s'.past.taken == s.past.taken && s'.past.drained == s.past.drained
    && s'.past.started == s.past.started && s'.past.deleted == s.past.deleted
  }

  lemma OnlySubmitsOn(a: State, b: State, c: State)
    requires OnlySubmits(a, b) && OnlySubmits(b, c)
    ensures OnlySubmits(a, c)
  {
  }

  lemma SettledStays(s: State, a: Action, s': State)
    requires Inv(s) && Settled(s) && Next(s, a, s')
    ensures Settled(s') && OnlySubmits(s, s')
  {
  }

  lemma SettledStep(ss: seq<State>, acts: seq<Action>, j: nat)
    requires Run(ss, acts) && j < |acts| && Settled(ss[j])
    ensures Settled(ss[j + 1]) && OnlySubmits(ss[j], ss[j + 1])
  {
    InvAlong(ss, acts, j);
    assert Linked(ss, acts, j);
    SettledStays(ss[j], acts[j], ss[j + 1]);
  }

  lemma {:induction false} SettledAlong(ss: seq<State>, acts: seq<Action>, i: nat, j: nat)
    requires Run(ss, acts) && i <= j <= |acts| && Settled(ss[i])
    ensures Settled(ss[j]) && OnlySubmits(ss[i], ss[j])
    decreases j
  {
    if i < j {
      SettledAlong(ss, acts, i, j - 1);
      SettledStep(ss, acts, j - 1);
      OnlySubmitsOn(ss[i], ss[j - 1], ss[j]);
    }
  }

  /** With every worker gone, the jobs taken are the jobs run, and just what left the queue is deleted. */
  lemma NothingInHand(s: State, x: Job)
    requires Inv(s) && Settled(s)
    ensures x in s.past.taken <==> x in s.past.started
    ensures x in s.past.taken || x in s.past.drained <==> x in s.past.deleted
  {
  }

  lemma PartOf(s: State, k: nat)
    requires OrderInv(s) && k < |s.past.submitted|
    ensures s.past.submitted[k] in s.past.taken <==> k < |s.past.taken|
    ensures s.past.submitted[k] in s.past.drained <==> |s.past.taken| <= k < |s.past.taken| + |s.past.drained|
  {
    forall n | 0 <= n < |s.past.taken| ensures s.past.taken[n] == s.past.submitted[n] {}
    forall n | 0 <= n < |s.past.drained| ensures s.past.drained[n] == s.past.submitted[|s.past.taken| + n] {}
  }

  /**
   `Join` splits the jobs in submission order: a first part was run, each job once; the rest of
   those enqueued by the time it found the queue empty were discarded; all of these are deleted,
   each once. Jobs enqueued later are neither run nor deleted. This never changes again.
   */
  lemma JoinSplits(ss: seq<State>, acts: seq<Action>, i: nat, j: nat, k: nat)
    requires Run(ss, acts) && i <= j <= |acts| && ss[i].joiner == DrainUnlock && k < |ss[j].past.submitted|
    ensures ss[i].past.submitted <= ss[j].past.submitted && |ss[i].past.taken| <= |ss[i].past.submitted|
    ensures ss[j].past.submitted[k] in ss[j].past.started <==> k < |ss[i].past.taken|
    ensures ss[j].past.submitted[k] in ss[j].past.deleted <==> k < |ss[i].past.submitted|
  {
    InvAlong(ss, acts, i);
    InvAlong(ss, acts, j);
    SettledAlong(ss, acts, i, j);
    NothingInHand(ss[j], ss[j].past.submitted[k]);
    PartOf(ss[j], k);
  }

  // ---------- one worker ----------

  /** The job a worker has taken and not yet started. */
  function Unstarted(w: Worker): Option<Job> {
    if w.RunJob? then Some(w.job) else if w.Unlock? then w.found else None
  }

  function AsSeq(x: Option<Job>): seq<Job> {
    if x.Some? then [x.value] else []
  }

  ghost predicate InOrder(s: State) {
    |s.workers| == 1 && s.past.taken == s.past.started + AsSeq(Unstarted(s.workers[0]))
  }

  /** A pool of one worker runs its jobs in the order in which they were submitted. */
  lemma {:induction false} OneWorkerRunsInOrder(ss: seq<State>, acts: seq<Action>, i: nat)
    requires Run(ss, acts) && i <= |acts| && |ss[0].workers| == 1
    ensures InOrder(ss[i]) && ss[i].past.started <= ss[i].past.submitted
  {
    if i > 0 {
      OneWorkerRunsInOrder(ss, acts, i - 1);
      OneWorkerStep(ss, acts, i);
    }
    JobsLeaveInOrder(ss, acts, i);
  }

  lemma OneWorkerStep(ss: seq<State>, acts: seq<Action>, i: nat)
    requires Run(ss, acts) && 0 < i <= |acts| && InOrder(ss[i - 1])
    ensures InOrder(ss[i])
  {
    assert Linked(ss, acts, i - 1);
    if acts[i - 1].StepWorker? {
      InvAlong(ss, acts, i - 1);
      InvAlong(ss, acts, i);
      OneWorkerMoves(ss[i - 1]);
    } else {
      OthersRunNothing(ss[i - 1], acts[i - 1]);
    }
  }

  lemma OneWorkerMoves(s: State)
    requires InOrder(s) && WorkersInv(s) && !DoWorker(s, 0).fault
    ensures InOrder(DoWorker(s, 0))
  {
    assert WorkerInv(s, 0, s.workers[0]);
    if s.workers[0].PopFront? {
      OneWorkerTakes(s);
    } else if s.workers[0].RunJob? {
      OneWorkerRuns(s);
    } else if s.workers[0].DeleteJob? {
      assert DoWorker(s, 0).workers[0] == Check;
    } else {
      OneWorkerIdles(s);
    }
  }

  lemma OneWorkerTakes(s: State)
    requires InOrder(s) && s.workers[0].PopFront? && s.queue != [] && s.queue[0] == s.workers[0].job
    ensures InOrder(DoWorker(s, 0))
  {
  }

  lemma OneWorkerRuns(s: State)
    requires InOrder(s) && s.workers[0].RunJob? && !DoWorker(s, 0).fault
    ensures InOrder(DoWorker(s, 0))
  {
  }

  lemma OneWorkerIdles(s: State)
    requires InOrder(s) && !s.workers[0].PopFront? && !s.workers[0].RunJob? && !s.workers[0].DeleteJob?
    ensures var s' := DoWorker(s, 0);
            && |s'.workers| == 1 && s'.past.taken == s.past.taken && s'.past.started == s.past.started
            && Unstarted(s'.workers[0]) == Unstarted(s.workers[0])
  {
  }

  lemma OthersRunNothing(s: State, a: Action)
    requires Enabled(s, a) && !a.StepWorker?
    ensures var s' := Apply(s, a);
            s'.workers == s.workers && s'.past.taken == s.past.taken && s'.past.started == s.past.started
  {
  }

  // ---------- after the drain ----------

  lemma Extend(ss: seq<State>, acts: seq<Action>, a: Action) returns (ss': seq<State>, acts': seq<Action>)
    requires Run(ss, acts) && Enabled(ss[|acts|], a)
    ensures Run(ss', acts') && ss' == ss + [Apply(ss[|acts|], a)] && acts' == acts + [a]
  {
    ss', acts' := ss + [Apply(ss[|acts|], a)], acts + [a];
    forall i | 0 <= i < |acts'| ensures Linked(ss', acts', i) {
      if i < |acts| { assert Linked(ss, acts, i); }
    }
  }

  const NOTHING := History([], [], [], [], [], {}, map[])

  /** The only worker has left its loop and `Join` has returned. */
  lemma ToJoined() returns (ss: seq<State>, acts: seq<Action>)
    ensures Run(ss, acts)
    ensures ss[|acts|] == State([], None, true, {}, [Exited], map[], Joined, false, NOTHING)
  {
    ss, acts := [State([], None, false, {}, [Check], map[], NotJoining, false, NOTHING)], [];
    ss, acts := Extend(ss, acts, StartJoin);
    ss, acts := Extend(ss, acts, StepWorker(0));
    ss, acts := Extend(ss, acts, StepJoin);
    ss, acts := Extend(ss, acts, StepJoin);
    ss, acts := Extend(ss, acts, StepJoin);
    ss, acts := Extend(ss, acts, StepJoin);
    ss, acts := Extend(ss, acts, StepJoin);
  }

  /** A job submitted after `Join` is queued, with no worker left to run it and nobody to delete it. */
  lemma LateJob() returns (ss: seq<State>, acts: seq<Action>)
    ensures Run(ss, acts) && ss[|acts|].joiner == Joined && ss[|acts|].workers == [Exited]
    ensures ss[|acts|].queue == [5] && ss[|acts|].past.started == [] && ss[|acts|].past.deleted == []
  {
    ss, acts := ToJoined();
    ss, acts := Extend(ss, acts, StartSubmit(0, 5));
    ss, acts := Extend(ss, acts, StepSubmit(0));
    ss, acts := Extend(ss, acts, StepSubmit(0));
    ss, acts := Extend(ss, acts, StepSubmit(0));
  }
}
