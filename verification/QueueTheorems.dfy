/** What the lock-free queue guarantees on every run, for any number of pushing threads. */
module QueueTheorems {
  import opened Base
  import opened LockFreeQueue
  import opened QueueInvariant
  import opened QueueRefinement
  import opened QueueShape
  import Spec = AtomicQueue

  /** The unstored part of every state of a run. */
  ghost function Shapes<E>(ss: seq<State<E>>, acts: seq<Action<E>>): (gs: seq<Shape>)
    requires |ss| == |acts| + 1
    ensures |gs| == |ss|
    ensures gs[0] == Shape([], map[], map[])
    ensures forall i | 0 <= i < |acts| :: gs[i + 1] == NextShape(ss[i], gs[i], acts[i])
    decreases |acts|
  {
    if acts == [] then [Shape([], map[], map[])]
    else
      var n := |acts| - 1;
      var gs := Shapes(ss[..n + 1], acts[..n]);
      gs + [NextShape(ss[n], gs[n], acts[n])]
  }

  lemma InvAt<E>(ss: seq<State<E>>, acts: seq<Action<E>>, i: nat)
    requires Run(ss, acts) && i <= |acts|
    ensures Inv(ss[i], Shapes(ss, acts)[i])
  {
    var gs := Shapes(ss, acts);
    if i == 0 {
      assert Inv(ss[0], gs[0]);
    } else {
      InvAt(ss, acts, i - 1);
      assert Next(ss[i - 1], acts[i - 1], ss[i]);
      StepMatched(ss[i - 1], gs[i - 1], acts[i - 1]);
    }
  }

  lemma InvAlong<E>(ss: seq<State<E>>, acts: seq<Action<E>>)
    requires Run(ss, acts)
    ensures forall i | 0 <= i <= |acts| :: Inv(ss[i], Shapes(ss, acts)[i])
  {
    forall i | 0 <= i <= |acts| ensures Inv(ss[i], Shapes(ss, acts)[i]) {
      InvAt(ss, acts, i);
    }
  }

  /** The run of the reference queue that a run of the protocol stands for. */
  ghost function SpecStates<E>(ss: seq<State<E>>, acts: seq<Action<E>>): (abs: seq<Spec.State<E>>)
    requires |ss| == |acts| + 1
    requires forall i | 0 <= i <= |acts| :: Inv(ss[i], Shapes(ss, acts)[i])
    ensures |abs| == |ss|
    ensures forall i | 0 <= i <= |acts| :: Inv(ss[i], Shapes(ss, acts)[i]) && abs[i] == Abs(ss[i], Shapes(ss, acts)[i])
  {
    var gs := Shapes(ss, acts);
    seq(|ss|, i requires 0 <= i < |ss| && Inv(ss[i], gs[i]) => Abs(ss[i], gs[i]))
  }

  lemma SpecRuns<E>(ss: seq<State<E>>, acts: seq<Action<E>>) returns (abs: seq<Spec.State<E>>)
    requires Run(ss, acts)
    ensures Spec.Run(abs, Events(ss, acts))
    ensures forall i | 0 <= i <= |acts| :: Inv(ss[i], Shapes(ss, acts)[i]) && abs[i] == Abs(ss[i], Shapes(ss, acts)[i])
  {
    InvAlong(ss, acts);
    var es := Events(ss, acts);
    abs := SpecStates(ss, acts);
    forall i | 0 <= i < |es| ensures Spec.Next(abs[i], es[i], abs[i + 1]) {
      assert Next(ss[i], acts[i], ss[i + 1]);
      StepMatched(ss[i], Shapes(ss, acts)[i], acts[i]);
    }
    assert abs[0] == Spec.State([], map[], Spec.Resting);
  }

  /** Linearizability: the calls, effects and returns of any run are those of a run of the reference queue. */
  lemma Linearizable<E>(ss: seq<State<E>>, acts: seq<Action<E>>) returns (abs: seq<Spec.State<E>>)
    requires Run(ss, acts)
    ensures Spec.Run(abs, Events(ss, acts))
    ensures abs[|acts|].pushers == AbsPushers(ss[|acts|])
  {
    abs := SpecRuns(ss, acts);
    assert abs[|acts|] == Abs(ss[|acts|], Shapes(ss, acts)[|acts|]);
  }

  /** No step of any run touches a null or freed node or frees one twice, though addresses are reused. */
  lemma NeverFaults<E>(ss: seq<State<E>>, acts: seq<Action<E>>)
    requires Run(ss, acts)
    ensures forall i | 0 <= i <= |acts| :: !ss[i].fault
  {
    InvAlong(ss, acts);
    forall i | 0 <= i <= |acts| ensures !ss[i].fault {
      assert Inv(ss[i], Shapes(ss, acts)[i]);
    }
  }

  /** First in, first out: what `Pop` has handed back is a prefix of what was pushed, in effect order. */
  lemma PopsArePrefixOfPushes<E>(ss: seq<State<E>>, acts: seq<Action<E>>)
    requires Run(ss, acts)
    ensures var es := Events(ss, acts);
            Spec.Returned(es) <= Spec.Taken(es) <= Spec.Pushed(es)
  {
    var abs := Linearizable(ss, acts);
    Spec.Fifo(abs, Events(ss, acts));
  }

  /** `Pop` is about to read a null `tail_`, or `Empty` a null `head_`. */
  predicate FindsNothing<E>(s: State<E>) {
    || (s.consumer.PopLoadTail? && s.tail == NULLPTR)
    || (s.consumer.EmptyLoadHead? && s.head == NULLPTR)
  }

  lemma NothingEvent<E>(s: State<E>)
    requires FindsNothing(s)
    ensures PopEvent(s) == Spec.LinPop(None) || PopEvent(s) == Spec.LinEmpty(true)
  {
  }

  /** `Pop` gives up, and `Empty` says yes, only at an instant when everything pushed has been taken. */
  lemma NothingOnlyWhenEmpty<E>(ss: seq<State<E>>, acts: seq<Action<E>>, i: nat)
    requires Run(ss, acts) && i < |acts| && acts[i] == StepPop && FindsNothing(ss[i])
    ensures Spec.Pushed(Events(ss, acts)[..i]) == Spec.Taken(Events(ss, acts)[..i])
  {
    NothingEvent(ss[i]);
    var es := Events(ss, acts);
    assert es[i] == EventOf(ss[i], acts[i]);
    var abs := Linearizable(ss, acts);
    Spec.NothingMeansEmpty(abs, es, i);
  }

  /** Each thread's elements enter the queue once each, in the order in which it pushed them. */
  lemma ProgramOrderKept<E>(ss: seq<State<E>>, acts: seq<Action<E>>, t: Tid)
    requires Run(ss, acts)
    ensures var es := Events(ss, acts);
            && Spec.PushedBy(es, t) <= Spec.InvokedBy(es, t)
            && |Spec.InvokedBy(es, t)| <= |Spec.PushedBy(es, t)| + 1
            && (t !in ss[|acts|].producers ==> Spec.PushedBy(es, t) == Spec.InvokedBy(es, t))
  {
    var abs := Linearizable(ss, acts);
    Spec.ProgramOrder(abs, Events(ss, acts), t);
    assert abs[|acts|].pushers == AbsPushers(ss[|acts|]);
  }

  /** A returning push ran the emptiness callback just when it had found the queue empty. */
  lemma CallbackIffFoundEmpty<E>(ss: seq<State<E>>, acts: seq<Action<E>>, i: nat)
    requires Run(ss, acts) && i < |acts| && acts[i].StepPush?
    requires acts[i].t in ss[i].producers && ss[i].producers[acts[i].t].PushDone?
    ensures ss[i].producers[acts[i].t].onEmpty <==> Spec.FoundEmpty(Events(ss, acts)[..i], acts[i].t)
  {
    ReturnEvent(ss, acts, i);
    var abs := Linearizable(ss, acts);
    Spec.NotifiedIffFoundEmpty(abs, Events(ss, acts), i);
  }

  lemma ReturnEvent<E>(ss: seq<State<E>>, acts: seq<Action<E>>, i: nat)
    requires Run(ss, acts) && i < |acts| && acts[i].StepPush?
    requires acts[i].t in ss[i].producers && ss[i].producers[acts[i].t].PushDone?
    ensures Events(ss, acts)[i] == Spec.ReturnPush(acts[i].t, ss[i].producers[acts[i].t].onEmpty)
  {
    assert Events(ss, acts)[i] == PushEvent(ss[i], acts[i].t);
  }

  // ---------- what is in memory ----------

  /** The addresses queued after `i` steps, front to back. */
  ghost function Queued<E>(ss: seq<State<E>>, acts: seq<Action<E>>, i: nat): seq<Addr>
    requires |ss| == |acts| + 1 && i <= |acts|
  {
    Shapes(ss, acts)[i].chain
  }

  /** The elements in the queued nodes are those pushed and not yet taken, in order. */
  lemma QueuedElements<E>(ss: seq<State<E>>, acts: seq<Action<E>>, i: nat)
    requires Run(ss, acts) && i <= |acts|
    ensures Inv(ss[i], Shapes(ss, acts)[i])
    ensures var es := Events(ss, acts)[..i];
            Spec.Pushed(es) == Spec.Taken(es) + Elements(ss[i].heap, Queued(ss, acts, i))
  {
    var abs := SpecRuns(ss, acts);
    var es := Events(ss, acts);
    Spec.RunPrefix(abs, es, i);
    Spec.Fifo(abs[..i + 1], es[..i]);
    assert abs[i] == Abs(ss[i], Shapes(ss, acts)[i]);
  }

  /**
   `Empty` says yes exactly if nothing is queued and no first push is half way: it has won `head_` and
   not stored `tail_` yet.
   */
  lemma EmptyAnswerIff<E>(ss: seq<State<E>>, acts: seq<Action<E>>, i: nat)
    requires Run(ss, acts) && i < |acts| && acts[i] == StepPop && ss[i].consumer.EmptyLoadHead?
    ensures var es := Events(ss, acts);
            es[i] == Spec.LinEmpty(Spec.Pushed(es[..i]) == Spec.Taken(es[..i]) && !exists t :: OwnsHalfOpen(ss[i], t))
  {
    var s, g := ss[i], Shapes(ss, acts)[i];
    QueuedElements(ss, acts, i);
    HalfOpenOwned(s, g);
    EmptyTail(s, g);
    assert Events(ss, acts)[i] == PopEvent(s);
  }

  /**
   `head_` null implies `tail_` null. While `head_` is set and `tail_` null exactly one thread is
   at work there, and when it makes its plain store the other word is as it left it.
   */
  lemma HalfOpenExclusive<E>(ss: seq<State<E>>, acts: seq<Action<E>>, i: nat)
    requires Run(ss, acts) && i <= |acts|
    ensures var s := ss[i];
            && (s.head == NULLPTR ==> s.tail == NULLPTR)
            && (forall t, u | OwnsHalfOpen(s, t) && OwnsHalfOpen(s, u) :: t == u)
            && (forall t | OwnsHalfOpen(s, t) ::
                  !s.consumer.PopStoreHead? && s.tail == NULLPTR && s.head == s.producers[t].node)
            && (s.consumer.PopStoreHead? ==> s.tail == NULLPTR && s.head == s.consumer.headRead)
            && (s.head != NULLPTR && s.tail == NULLPTR <==>
                s.consumer.PopStoreHead? || exists t :: OwnsHalfOpen(s, t))
  {
    InvAt(ss, acts, i);
    HalfOpenOwned(ss[i], Shapes(ss, acts)[i]);
  }

  /**
   Each link between queued nodes is in memory, or missing and owed by exactly one thread, which
   will store just the missing address.
   */
  lemma MissingLinkOwedOnce<E>(ss: seq<State<E>>, acts: seq<Action<E>>, i: nat, k: nat)
    requires Run(ss, acts) && i <= |acts| && k + 1 < |Queued(ss, acts, i)|
    ensures var s, a, b := ss[i], Queued(ss, acts, i)[k], Queued(ss, acts, i)[k + 1];
            && a in s.heap && (s.heap[a].next == b || s.heap[a].next == NULLPTR)
            && (s.heap[a].next == NULLPTR <==> exists t :: OwesLink(s, t, a))
            && (forall t, u | OwesLink(s, t, a) && OwesLink(s, u, a) :: t == u)
            && (forall t | OwesLink(s, t, a) :: s.producers[t].node == b)
  {
    InvAt(ss, acts, i);
    LinkOwedOnce(ss[i], Shapes(ss, acts)[i], k);
  }

  /** A thread owes only links of nodes that are live, still queued, and not last. */
  lemma DebtsAreQueued<E>(ss: seq<State<E>>, acts: seq<Action<E>>, i: nat, t: Tid, a: Addr)
    requires Run(ss, acts) && i <= |acts| && OwesLink(ss[i], t, a)
    ensures a in ss[i].heap && a in Queued(ss, acts, i) && a != ss[i].tail
  {
    InvAt(ss, acts, i);
    DebtQueued(ss[i], Shapes(ss, acts)[i], t, a);
  }

  /**
   When no operation is in progress, following the stored links from `head_` meets every allocated
   node once, and reads off exactly the elements pushed and not yet taken, in order.
   */
  lemma QuiescentMemory<E>(ss: seq<State<E>>, acts: seq<Action<E>>)
    requires Run(ss, acts) && Quiescent(ss[|acts|])
    ensures var s, es := ss[|acts|], Events(ss, acts);
            var walk, taken := Walk(s.heap, s.head, |s.heap|), |Spec.Taken(es)|;
            && Members(walk) == s.heap.Keys && |walk| == |s.heap|
            && |Spec.Pushed(es)| == taken + |walk|
            && Spec.Taken(es) <= Spec.Pushed(es)
            && forall k | 0 <= k < |walk| :: walk[k] in s.heap && s.heap[walk[k]].element == Spec.Pushed(es)[taken + k]
  {
    var n := |acts|;
    QueuedElements(ss, acts, n);
    assert Events(ss, acts)[..n] == Events(ss, acts);
    QuiescentChain(ss[n], Shapes(ss, acts)[n]);
    var s, walk := ss[n], Walk(ss[n].heap, ss[n].head, |ss[n].heap|);
    forall k | 0 <= k < |walk| ensures walk[k] in s.heap {
      assert walk[k] in Members(walk);
    }
  }
}
