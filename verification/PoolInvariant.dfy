/** The inductive invariant of the thread pool, step by step. */
module PoolInvariant {
  import opened Base
  import opened ThreadPool

  ghost predicate Distinct(s: seq<Job>) {
    forall i, j | 0 <= i < j < |s| :: s[i] != s[j]
  }

  /** The job a worker has popped and not yet deleted. */
  function Holds(w: Worker): Option<Job> {
    match w
    case Unlock(found) => found
    case RunJob(x) => Some(x)
    case DeleteJob(x) => Some(x)
    case _ => None
  }

  function PendingJob(p: Submitter): Option<Job> {
    match p
    case SubmitLock(x) => Some(x)
    case Emplace(x) => Some(x)
    case SubmitUnlock => None
  }

  predicate InLock(w: Worker) { w.Look? || w.PopFront? || w.Unlock? }

  predicate Draining(j: Joiner) { j.DrainLook? || j.DrainDelete? || j.DrainPop? || j.DrainUnlock? }

  /** The mutex is held by whoever is inside, and by nobody else. */
  ghost predicate MutexInv(s: State) {
    && (forall i | 0 <= i < |s.workers| :: InLock(s.workers[i]) <==> s.mutex == Some(ByWorker(i)))
    && (forall t | t in s.submitters ::
          (s.submitters[t].Emplace? || s.submitters[t].SubmitUnlock?) <==> s.mutex == Some(BySubmitter(t)))
    && (Draining(s.joiner) <==> s.mutex == Some(ByJoiner))
    && (s.mutex.Some? && s.mutex.value.ByWorker? ==> s.mutex.value.i < |s.workers|)
    && (s.mutex.Some? && s.mutex.value.BySubmitter? ==> s.mutex.value.t in s.submitters)
  }

  /** What was submitted, in order: taken by workers, then discarded, then still queued. */
  ghost predicate OrderInv(s: State) {
    && s.past.submitted == s.past.taken + s.past.drained + s.queue
    && Distinct(s.past.submitted)
    && (forall x | x in s.past.submitted :: x in s.past.named)
    && (forall x :: x in s.live <==> x in s.past.submitted && x !in s.past.deleted)
  }

  ghost predicate SubmittersInv(s: State) {
    && (forall t | t in s.submitters && PendingJob(s.submitters[t]).Some? ::
          PendingJob(s.submitters[t]).value in s.past.named && PendingJob(s.submitters[t]).value !in s.past.submitted)
    && (forall t, u | t in s.submitters && u in s.submitters && t != u && PendingJob(s.submitters[t]).Some? ::
          PendingJob(s.submitters[t]) != PendingJob(s.submitters[u]))
  }

  ghost predicate WorkerInv(s: State, i: nat, w: Worker) {
    && (Holds(w).Some? ==>
          var x := Holds(w).value;
          && x in s.past.takenBy && s.past.takenBy[x] == i && x !in s.past.deleted
          && (x in s.past.started <==> w.DeleteJob?))
    && (w.PopFront? ==> s.queue != [] && s.queue[0] == w.job)
  }

  ghost predicate WorkersInv(s: State) {
    forall i | 0 <= i < |s.workers| :: WorkerInv(s, i, s.workers[i])
  }

  /** A job taken and not yet deleted is in the hands of the worker that took it. */
  ghost predicate TakenInv(s: State) {
    && (forall x | x in s.past.takenBy :: x in s.past.taken && s.past.takenBy[x] < |s.workers|
                                     && (x !in s.past.deleted ==> Holds(s.workers[s.past.takenBy[x]]) == Some(x)))
    && (forall x | x in s.past.taken :: x in s.past.takenBy && (x in s.past.deleted ==> x in s.past.started))
    && (forall x | x in s.past.started :: x in s.past.taken)
  }

  ghost predicate OnceInv(s: State) {
    && Distinct(s.past.started) && Distinct(s.past.deleted)
    && (forall x | x in s.past.deleted :: x in s.past.taken || x in s.past.drained || s.joiner == DrainPop(x))
    && (forall x | x in s.past.drained :: x in s.past.deleted)
  }

  ghost predicate AllExited(s: State, n: nat) {
    n <= |s.workers| && forall i | 0 <= i < n :: s.workers[i] == Exited
  }

  ghost predicate JoinerInv(s: State) {
    match s.joiner
    case NotJoining => s.past.drained == []
    case JoinWorker(k) => s.past.drained == [] && AllExited(s, k)
    case DrainLock => s.past.drained == [] && AllExited(s, |s.workers|)
    case DrainLook => AllExited(s, |s.workers|)
    case DrainDelete(x) => AllExited(s, |s.workers|) && s.queue != [] && s.queue[0] == x && x !in s.past.deleted
    case DrainPop(x) => AllExited(s, |s.workers|) && s.queue != [] && s.queue[0] == x && x in s.past.deleted
    case DrainUnlock => AllExited(s, |s.workers|) && s.queue == []
    case Joined => AllExited(s, |s.workers|)
  }

  ghost predicate Inv(s: State) {
    && !s.fault
    && MutexInv(s)
    && OrderInv(s)
    && SubmittersInv(s)
    && WorkersInv(s)
    && TakenInv(s)
    && OnceInv(s)
    && JoinerInv(s)
  }

  /** The front of the queue has been neither taken nor discarded. */
  lemma FrontIsNew(s: State)
    requires OrderInv(s) && s.queue != []
    ensures var x := s.queue[0];
            x in s.past.submitted && x !in s.past.taken && x !in s.past.drained && x !in s.queue[1..]
  {
    var n := |s.past.taken| + |s.past.drained|;
    assert s.past.submitted[n] == s.queue[0];
    forall k | 0 <= k < n ensures (s.past.taken + s.past.drained)[k] != s.queue[0] {
      assert s.past.submitted[k] == (s.past.taken + s.past.drained)[k];
    }
    forall x | x in s.past.taken || x in s.past.drained ensures x in s.past.taken + s.past.drained {}
    forall k | 0 <= k < |s.queue[1..]| ensures s.queue[1..][k] != s.queue[0] {
      assert s.past.submitted[n + 1 + k] == s.queue[1..][k];
    }
  }

  // ---------- submitting ----------

  lemma StartSubmitKeeps(s: State, t: Tid, x: Job)
    requires Inv(s) && Enabled(s, StartSubmit(t, x))
    ensures Inv(Apply(s, StartSubmit(t, x)))
  {
  }

  lemma SubmitLockKeeps(s: State, t: Tid)
    requires Inv(s) && Enabled(s, StepSubmit(t)) && s.submitters[t].SubmitLock?
    ensures Inv(DoSubmitter(s, t))
  {
  }

  lemma EmplaceKeeps(s: State, t: Tid)
    requires Inv(s) && t in s.submitters && s.submitters[t].Emplace?
    ensures Inv(DoSubmitter(s, t))
  {
    var s' := DoSubmitter(s, t);
    assert s'.past.submitted == s'.past.taken + s'.past.drained + s'.queue;
    assert WorkersInv(s');
  }

  lemma SubmitUnlockKeeps(s: State, t: Tid)
    requires Inv(s) && t in s.submitters && s.submitters[t].SubmitUnlock?
    ensures Inv(DoSubmitter(s, t))
  {
  }

  // ---------- a worker ----------

  /** A worker moves on holding what it held; only the mutex may change with it. */
  lemma WorkerMovesKeep(s: State, i: nat, w: Worker, mutex: Option<Owner>)
    requires Inv(s) && i < |s.workers| && s.workers[i] != Exited && WorkerInv(s, i, w)
    requires Holds(w) == Holds(s.workers[i]) && MutexInv(WorkerGoto(s, i, w).(mutex := mutex))
    ensures Inv(WorkerGoto(s, i, w).(mutex := mutex))
  {
    var s' := WorkerGoto(s, i, w).(mutex := mutex);
    assert TakenInv(s');
    assert WorkersInv(s') by {
      forall j | 0 <= j < |s.workers| ensures WorkerInv(s', j, s'.workers[j]) {
        assert WorkerInv(s, j, s.workers[j]);
      }
    }
  }

  lemma WorkerReadsKeep(s: State, i: nat)
    requires Inv(s) && i < |s.workers|
    requires var w := s.workers[i]; w.Check? || w.Look? || w.Wait?
    ensures Inv(DoWorker(s, i))
  {
    WorkerMovesKeep(s, i, DoWorker(s, i).workers[i], s.mutex);
  }

  lemma WorkerLockKeeps(s: State, i: nat)
    requires Inv(s) && Enabled(s, StepWorker(i)) && s.workers[i].Lock?
    ensures Inv(DoWorker(s, i))
  {
  }

  lemma WorkerUnlockKeeps(s: State, i: nat)
    requires Inv(s) && i < |s.workers| && s.workers[i].Unlock?
    ensures Inv(DoWorker(s, i))
  {
  }

  /** Taking a job: no worker is left to do so once the joiner drains. */
  lemma PopFrontKeeps(s: State, i: nat)
    requires Inv(s) && i < |s.workers| && s.workers[i].PopFront?
    ensures Inv(DoWorker(s, i))
  {
    var s' := DoWorker(s, i);
    PopFrontRecorded(s, i);
    PopFrontOrder(s, i);
    assert TakenInv(s') && OnceInv(s') && JoinerInv(s') && SubmittersInv(s');
    assert WorkersInv(s') by {
      forall j | 0 <= j < |s.workers| ensures WorkerInv(s', j, s'.workers[j]) {
        assert WorkerInv(s, j, s.workers[j]);
      }
    }
  }

  lemma PopFrontRecorded(s: State, i: nat)
    requires Inv(s) && i < |s.workers| && s.workers[i].PopFront?
    ensures s.queue != [] && s.past.drained == []
    ensures var x := s.queue[0];
            && x in s.past.submitted && x !in s.past.taken && x !in s.past.takenBy && x !in s.past.deleted
            && forall y :: y in DoWorker(s, i).past.taken <==> y in s.past.taken || y == x
  {
    assert WorkerInv(s, i, s.workers[i]);
    FrontIsNew(s);
  }

  lemma PopFrontOrder(s: State, i: nat)
    requires Inv(s) && i < |s.workers| && s.workers[i].PopFront?
    ensures OrderInv(DoWorker(s, i)) && MutexInv(DoWorker(s, i))
  {
    var s' := DoWorker(s, i);
    PopFrontRecorded(s, i);
    assert s'.past.submitted == s'.past.taken + s'.past.drained + s'.queue;
  }

  /** Starting or deleting its own job, a worker disturbs no other. */
  lemma OthersKeep(s: State, s': State, i: nat)
    requires WorkersInv(s) && i < |s.workers| == |s'.workers| && Holds(s.workers[i]).Some?
    requires WorkerInv(s', i, s'.workers[i]) && s'.workers == s.workers[i := s'.workers[i]]
    requires s'.past.takenBy == s.past.takenBy && s'.queue == s.queue
    requires forall y | y != Holds(s.workers[i]).value ::
               (y in s'.past.started <==> y in s.past.started) && (y in s'.past.deleted <==> y in s.past.deleted)
    ensures WorkersInv(s')
  {
  }

  lemma RunJobKeeps(s: State, i: nat)
    requires Inv(s) && i < |s.workers| && s.workers[i].RunJob?
    ensures Inv(DoWorker(s, i))
  {
    RunJobRecorded(s, i);
    RunJobTaken(s, i);
    RunJobOnce(s, i);
    OthersKeep(s, DoWorker(s, i), i);
  }

  /** What a run of the worker's own job leaves on record. */
  lemma RunJobRecorded(s: State, i: nat)
    requires Inv(s) && i < |s.workers| && s.workers[i].RunJob?
    ensures var x := s.workers[i].job;
            && x in s.live && x !in s.past.started
            && DoWorker(s, i) == WorkerGoto(Start(s, x), i, DeleteJob(x))
  {
    assert WorkerInv(s, i, s.workers[i]);
  }

  lemma RunJobTaken(s: State, i: nat)
    requires Inv(s) && i < |s.workers| && s.workers[i].RunJob?
    ensures TakenInv(DoWorker(s, i)) && WorkerInv(DoWorker(s, i), i, DoWorker(s, i).workers[i])
  {
    RunJobRecorded(s, i);
    assert WorkerInv(s, i, s.workers[i]);
  }

  lemma RunJobOnce(s: State, i: nat)
    requires Inv(s) && i < |s.workers| && s.workers[i].RunJob?
    ensures OnceInv(DoWorker(s, i))
  {
    RunJobRecorded(s, i);
  }

  lemma DeleteJobRecorded(s: State, i: nat)
    requires Inv(s) && i < |s.workers| && s.workers[i].DeleteJob?
    ensures var x := s.workers[i].job;
            && x in s.live && x !in s.past.deleted && x in s.past.started
            && DoWorker(s, i) == WorkerGoto(Delete(s, x), i, Check)
  {
    assert WorkerInv(s, i, s.workers[i]);
  }

  lemma DeleteJobTaken(s: State, i: nat)
    requires Inv(s) && i < |s.workers| && s.workers[i].DeleteJob?
    ensures TakenInv(DoWorker(s, i)) && OnceInv(DoWorker(s, i))
  {
    DeleteJobRecorded(s, i);
    assert WorkerInv(s, i, s.workers[i]);
  }

  lemma DeleteJobKeeps(s: State, i: nat)
    requires Inv(s) && i < |s.workers| && s.workers[i].DeleteJob?
    ensures Inv(DoWorker(s, i))
  {
    DeleteJobRecorded(s, i);
    DeleteJobTaken(s, i);
    OthersKeep(s, DoWorker(s, i), i);
  }

  // ---------- the joiner ----------

  lemma JoinerMovesKeep(s: State)
    requires Inv(s) && Enabled(s, StepJoin) && (s.joiner.JoinWorker? || s.joiner.DrainLock? || s.joiner.DrainUnlock?)
    ensures Inv(DoJoiner(s))
  {
  }

  lemma StartJoinKeeps(s: State)
    requires Inv(s) && Enabled(s, StartJoin)
    ensures Inv(Apply(s, StartJoin))
  {
  }

  lemma DrainLookKeeps(s: State)
    requires Inv(s) && s.joiner.DrainLook?
    ensures Inv(DoJoiner(s))
  {
    if s.queue != [] { FrontIsNew(s); }
  }

  lemma DrainDeleteKeeps(s: State)
    requires Inv(s) && s.joiner.DrainDelete?
    ensures Inv(DoJoiner(s))
  {
    FrontIsNew(s);
    var s', x := DoJoiner(s), s.joiner.job;
    assert forall y :: y in s'.past.deleted <==> y in s.past.deleted || y == x;
  }

  lemma DrainPopOrder(s: State)
    requires Inv(s) && s.joiner.DrainPop?
    ensures OrderInv(DoJoiner(s)) && OnceInv(DoJoiner(s))
  {
    var s' := DoJoiner(s);
    assert s'.past.submitted == s'.past.taken + s'.past.drained + s'.queue;
  }

  lemma DrainPopKeeps(s: State)
    requires Inv(s) && s.joiner.DrainPop?
    ensures Inv(DoJoiner(s))
  {
    DrainPopOrder(s);
  }

  lemma StepKeeps(s: State, a: Action, s': State)
    requires Inv(s) && Next(s, a, s')
    ensures Inv(s')
  {
    match a
    case StartSubmit(t, x) => StartSubmitKeeps(s, t, x);
    case StartJoin => StartJoinKeeps(s);
    case StepSubmit(t) =>
      match s.submitters[t] {
        case SubmitLock(_) => SubmitLockKeeps(s, t);
        case Emplace(_) => EmplaceKeeps(s, t);
        case SubmitUnlock => SubmitUnlockKeeps(s, t);
      }
    case StepWorker(i) =>
      match s.workers[i] {
        case Lock => WorkerLockKeeps(s, i);
        case Unlock(_) => WorkerUnlockKeeps(s, i);
        case PopFront(_) => PopFrontKeeps(s, i);
        case RunJob(_) => RunJobKeeps(s, i);
        case DeleteJob(_) => DeleteJobKeeps(s, i);
        case _ => WorkerReadsKeep(s, i);
      }
    case StepJoin =>
      match s.joiner {
        case DrainLook => DrainLookKeeps(s);
        case DrainDelete(_) => DrainDeleteKeeps(s);
        case DrainPop(_) => DrainPopKeeps(s);
        case _ => JoinerMovesKeep(s);
      }
  }
}
