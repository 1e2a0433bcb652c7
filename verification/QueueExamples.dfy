/** Runs of the lock-free queue that reach what one might not expect. */
module QueueExamples {
  import opened Base
  import opened LockFreeQueue
  import opened QueueShape
  import opened QueueTheorems
  import opened QueueSolo
  import Spec = AtomicQueue

  /** One step more. */
  lemma Extend(ss: seq<State<nat>>, acts: seq<Action<nat>>, a: Action<nat>)
    returns (ss': seq<State<nat>>, acts': seq<Action<nat>>)
    requires Run(ss, acts) && Enabled(ss[|acts|], a)
    ensures Run(ss', acts') && ss' == ss + [Apply(ss[|acts|], a)] && acts' == acts + [a]
  {
    ss', acts' := ss + [Apply(ss[|acts|], a)], acts + [a];
  }

  /** Thread 0 has won `head_` for its first node and not yet stored `tail_`. */
  lemma ToHalfOpen() returns (ss: seq<State<nat>>, acts: seq<Action<nat>>)
    ensures Run(ss, acts) && |acts| == 3
    ensures ss[|acts|] == State(1, NULLPTR, map[1 := Node(NULLPTR, 7)], map[0 := PushStoreTail(1)], Idle, false)
  {
    ss, acts := [State(NULLPTR, NULLPTR, map[], map[], Idle, false)], [];
    ss, acts := Extend(ss, acts, BeginPush(0, 7, 1));
    ss, acts := Extend(ss, acts, StepPush(0));
    ss, acts := Extend(ss, acts, StepPush(0));
  }

  /** Another push that starts there, alone, never finishes. */
  lemma PushCanSpin() returns (ss: seq<State<nat>>, acts: seq<Action<nat>>)
    ensures Run(ss, acts) && 1 in ss[|acts|].producers && ss[|acts|].producers[1].PushLoadTail?
    ensures forall n: nat :: !PushFinished(SoloPush(ss[|acts|], 1, n), 1)
  {
    ss, acts := ToHalfOpen();
    ss, acts := Extend(ss, acts, BeginPush(1, 8, 2));
    assert HalfOpen(ss[|acts|]);
    PushAloneFinishesIff(ss, acts, |acts|, 1);
  }

  /** `Empty` says no there, and the `Pop` that follows returns null. */
  lemma NotEmptyYetNothing() returns (ss: seq<State<nat>>, acts: seq<Action<nat>>)
    ensures Run(ss, acts) && |acts| == 7
    ensures Events(ss, acts)[4..] == [Spec.LinEmpty(false), Spec.ReturnEmpty(false), Spec.InvokePop]
    ensures PopEvent(ss[|acts|]) == Spec.LinPop(None)
  {
    ss, acts := ToHalfOpen();
    ss, acts := Extend(ss, acts, BeginEmpty);
    ss, acts := Extend(ss, acts, StepPop);
    ss, acts := Extend(ss, acts, StepPop);
    ss, acts := Extend(ss, acts, BeginPop);
    assert ss[|acts|].consumer == PopLoadTail;
  }

  /** Thread 1 has moved `tail_` past the only node and not yet stored the link: a pop alone spins. */
  lemma PopCanSpin() returns (ss: seq<State<nat>>, acts: seq<Action<nat>>)
    ensures Run(ss, acts) && ss[|acts|].consumer == PopLoadTail
    ensures forall n: nat :: !SoloPop(ss[|acts|], n).consumer.PopDone?
  {
    ss, acts := ToHalfOpen();
    ss, acts := Extend(ss, acts, StepPush(0));
    ss, acts := Extend(ss, acts, BeginPush(1, 8, 2));
    ss, acts := Extend(ss, acts, StepPush(1));
    ss, acts := Extend(ss, acts, StepPush(1));
    ss, acts := Extend(ss, acts, BeginPop);
    assert FrontLinkMissing(ss[|acts|]);
    PopAloneFinishesIff(ss, acts, |acts|);
  }
}
