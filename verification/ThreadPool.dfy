/**
 The thread pool's immediate jobs as a transition system: any number of workers and submitting
 threads and one thread that joins, all sharing a queue under one mutex. One step is one access to
 the stop flag, the mutex or the queue, one `delete`, or one run of a job. Waiting may end at any
 time. A step that would run or delete a job that is not alive, or pop an empty queue, sets `fault`.
 */
module ThreadPool {
  import opened Base

  /** A job is named by the call that submits it; no two calls have the same name. */
  type Job = nat

  /** Where a worker is in its loop, with the job it holds. */
  datatype Worker =
    | Check
    | Lock
    | Look
    | PopFront(job: Job)
    | Unlock(found: Option<Job>)
    | RunJob(job: Job)
    | DeleteJob(job: Job)
    | Wait
    | Exited

  datatype Submitter = SubmitLock(job: Job) | Emplace(job: Job) | SubmitUnlock

  datatype Joiner =
    | NotJoining
    | JoinWorker(k: nat)
    | DrainLock
    | DrainLook
    | DrainDelete(job: Job)
    | DrainPop(job: Job)
    | DrainUnlock
    | Joined

  datatype Owner = ByWorker(i: nat) | BySubmitter(t: Tid) | ByJoiner

  /** What happened so far; only the freshness of names looks at it. */
  datatype History = History(
    submitted: seq<Job>,
    taken: seq<Job>,
    drained: seq<Job>,
    started: seq<Job>,
    deleted: seq<Job>,
    named: set<Job>,
    takenBy: map<Job, nat>)

  datatype State = State(
    queue: seq<Job>,
    mutex: Option<Owner>,
    cancel: bool,
    live: set<Job>,
    workers: seq<Worker>,
    submitters: map<Tid, Submitter>,
    joiner: Joiner,
    fault: bool,
    past: History)

  datatype Action = StartSubmit(t: Tid, job: Job) | StepSubmit(t: Tid) | StepWorker(i: nat) | StartJoin | StepJoin

  ghost predicate Init(s: State) {
    && s.queue == [] && s.mutex == None && !s.cancel && s.live == {} && s.submitters == map[]
    && s.joiner == NotJoining && !s.fault && (forall i | 0 <= i < |s.workers| :: s.workers[i] == Check)
    && s.past == History([], [], [], [], [], {}, map[])
  }

  function WorkerGoto(s: State, i: nat, w: Worker): State
    requires i < |s.workers|
  {
    s.(workers := s.workers[i := w])
  }

  function SubmitterGoto(s: State, t: Tid, p: Submitter): State {
    s.(submitters := s.submitters[t := p])
  }

  function Start(s: State, x: Job): State {
    if x in s.live then s.(past := s.past.(started := s.past.started + [x])) else s.(fault := true)
  }

  function Delete(s: State, x: Job): State {
    if x !in s.live then s.(fault := true)
    else s.(live := s.live - {x}, past := s.past.(deleted := s.past.deleted + [x]))
  }

  function DoWorker(s: State, i: nat): State
    requires i < |s.workers|
  {
    match s.workers[i]
    case Check => WorkerGoto(s, i, if s.cancel then Exited else Lock)
    case Lock => WorkerGoto(s, i, Look).(mutex := Some(ByWorker(i)))
    case Look => WorkerGoto(s, i, if s.queue == [] then Unlock(None) else PopFront(s.queue[0]))
    case PopFront(x) =>
      if s.queue == [] then s.(fault := true)
      else
        var past := s.past.(taken := s.past.taken + [s.queue[0]], takenBy := s.past.takenBy[s.queue[0] := i]);
        WorkerGoto(s, i, Unlock(Some(x))).(queue := s.queue[1..], past := past)
    case Unlock(found) => WorkerGoto(s, i, if found.Some? then RunJob(found.value) else Wait).(mutex := None)
    case RunJob(x) => WorkerGoto(Start(s, x), i, DeleteJob(x))
    case DeleteJob(x) => WorkerGoto(Delete(s, x), i, Check)
    case Wait => WorkerGoto(s, i, Check)
    case Exited => s
  }

  function DoSubmitter(s: State, t: Tid): State
    requires t in s.submitters
  {
    match s.submitters[t]
    case SubmitLock(x) => SubmitterGoto(s, t, Emplace(x)).(mutex := Some(BySubmitter(t)))
    case Emplace(x) =>
      var past := s.past.(submitted := s.past.submitted + [x]);
      SubmitterGoto(s, t, SubmitUnlock).(queue := s.queue + [x], live := s.live + {x}, past := past)
    case SubmitUnlock => s.(mutex := None, submitters := s.submitters - {t})
  }

  function DoJoiner(s: State): State {
    match s.joiner
    case JoinWorker(k) => s.(joiner := if k < |s.workers| then JoinWorker(k + 1) else DrainLock)
    case DrainLock => s.(joiner := DrainLook, mutex := Some(ByJoiner))
    case DrainLook => s.(joiner := if s.queue == [] then DrainUnlock else DrainDelete(s.queue[0]))
    case DrainDelete(x) => Delete(s, x).(joiner := DrainPop(x))
    case DrainPop(_) =>
      if s.queue == [] then s.(fault := true)
      else s.(joiner := DrainLook, queue := s.queue[1..], past := s.past.(drained := s.past.drained + [s.queue[0]]))
    case DrainUnlock => s.(joiner := Joined, mutex := None)
    case NotJoining => s
    case Joined => s
  }

  /** A locked mutex blocks, and a worker is joined only when it has left its loop. */
  predicate Enabled(s: State, a: Action) {
    && !s.fault
    && match a
       case StartSubmit(t, x) => t !in s.submitters && x !in s.past.named
       case StepSubmit(t) => t in s.submitters && (s.submitters[t].SubmitLock? ==> s.mutex == None)
       case StepWorker(i) => i < |s.workers| && s.workers[i] != Exited && (s.workers[i] == Lock ==> s.mutex == None)
       case StartJoin => s.joiner == NotJoining
       case StepJoin =>
         && s.joiner != NotJoining && s.joiner != Joined
         && (s.joiner == DrainLock ==> s.mutex == None)
         && (s.joiner.JoinWorker? && s.joiner.k < |s.workers| ==> s.workers[s.joiner.k] == Exited)
  }

  function Apply(s: State, a: Action): State
    requires Enabled(s, a)
  {
    match a
    case StartSubmit(t, x) => SubmitterGoto(s, t, SubmitLock(x)).(past := s.past.(named := s.past.named + {x}))
    case StepSubmit(t) => DoSubmitter(s, t)
    case StepWorker(i) => DoWorker(s, i)
    case StartJoin => s.(cancel := true, joiner := JoinWorker(0))
    case StepJoin => DoJoiner(s)
  }

  ghost predicate Next(s: State, a: Action, s': State) {
    Enabled(s, a) && s' == Apply(s, a)
  }

  ghost predicate Run(ss: seq<State>, acts: seq<Action>) {
    && |ss| == |acts| + 1
    && Init(ss[0])
    && forall i | 0 <= i < |acts| :: Linked(ss, acts, i)
  }

  /** The `i`th action leads from the `i`th state to the one after it. */
  ghost predicate Linked(ss: seq<State>, acts: seq<Action>, i: nat)
    requires i < |acts| < |ss|
  {
    Next(ss[i], acts[i], ss[i + 1])
  }
}
