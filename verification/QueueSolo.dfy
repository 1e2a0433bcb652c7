/**
 When does an operation finish if its thread runs alone from here on? A push or pop that starts
 where no other thread is between a winning CAS and the store that follows it takes one pass of its
 loop. Otherwise it can spin for ever: the queue uses no lock, but a stalled thread can stall others.
 */
module QueueSolo {
  import opened Base
  import opened LockFreeQueue
  import opened QueueInvariant
  import opened QueueShape
  import opened QueueTheorems
  import Spec = AtomicQueue

  /** Up to `n` steps of thread `t` alone, stopping when its push is ready to return. */
  function SoloPush<E>(s: State<E>, t: Tid, n: nat): State<E>
    decreases n
  {
    if n == 0 || t !in s.producers || s.producers[t].PushDone? then s
    else SoloPush(StepProducer(s, t), t, n - 1)
  }

  predicate PushFinished<E>(s: State<E>, t: Tid) {
    t in s.producers && s.producers[t].PushDone?
  }

  /** Up to `n` steps of the consumer alone, stopping when its pop is ready to return. */
  function SoloPop<E>(s: State<E>, n: nat): State<E>
    decreases n
  {
    if n == 0 || s.consumer.PopDone? then s else SoloPop(StepConsumer(s), n - 1)
  }

  // ---------- push ----------

  /** `head_` set and `tail_` null: another thread is half way through the first push or the last pop. */
  predicate HalfOpen<E>(s: State<E>) {
    s.head != NULLPTR && s.tail == NULLPTR
  }

  /** One pass: three steps, after which the node is queued behind what was there. */
  lemma PushTakesOnePass<E>(s: State<E>, g: Shape, t: Tid)
    requires Inv(s, g) && t in s.producers && s.producers[t].PushLoadTail? && !HalfOpen(s)
    ensures var s' := SoloPush(s, t, 3);
            && PushFinished(s', t)
            && s'.tail == s.producers[t].node
            && (s.tail == NULLPTR ==> s'.head == s'.tail && s'.producers[t].onEmpty)
            && (s.tail != NULLPTR ==>
                  && s'.head == s.head && !s'.producers[t].onEmpty
                  && s.tail in s'.heap && s'.heap[s.tail].next == s'.tail)
  {
    EmptyTail(s, g);
    assert ProducerInv(s, g, t, s.producers[t]);
    var s1 := StepProducer(s, t);
    var s2 := StepProducer(s1, t);
    var s3 := StepProducer(s2, t);
    assert SoloPush(s, t, 3) == SoloPush(s1, t, 2) == SoloPush(s2, t, 1) == SoloPush(s3, t, 0);
  }

  lemma PushAloneSpins<E>(s: State<E>, t: Tid, n: nat)
    requires HalfOpen(s) && t in s.producers && (s.producers[t].PushLoadTail? || s.producers[t].PushCasHead?)
    ensures !PushFinished(SoloPush(s, t, n), t)
    decreases n
  {
    if n > 0 { PushAloneSpins(StepProducer(s, t), t, n - 1); }
  }

  /**
   In any run, a push at the head of its loop that runs alone from there on finishes if and only if
   no other thread is half way at the empty end; and then it takes one pass.
   */
  lemma PushAloneFinishesIff<E>(ss: seq<State<E>>, acts: seq<Action<E>>, i: nat, t: Tid)
    requires Run(ss, acts) && i <= |acts| && t in ss[i].producers && ss[i].producers[t].PushLoadTail?
    ensures !HalfOpen(ss[i]) <==> exists n :: PushFinished(SoloPush(ss[i], t, n), t)
    ensures !HalfOpen(ss[i]) <==> PushFinished(SoloPush(ss[i], t, 3), t)
  {
    var s := ss[i];
    if HalfOpen(s) {
      forall n: nat ensures !PushFinished(SoloPush(s, t, n), t) { PushAloneSpins(s, t, n); }
    } else {
      InvAt(ss, acts, i);
      PushTakesOnePass(s, Shapes(ss, acts)[i], t);
      assert PushFinished(SoloPush(s, t, 3), t);
    }
  }

  // ---------- pop ----------

  /** Two or more nodes queued and the link out of the front one not yet stored. */
  predicate FrontLinkMissing<E>(s: State<E>) {
    s.tail != NULLPTR && s.head != s.tail && s.head in s.heap && s.heap[s.head].next == NULLPTR
  }

  /** One node: unlink it through the tail. */
  lemma PopLastFinishes<E>(s: State<E>)
    requires s.consumer == PopLoadTail && s.tail != NULLPTR && s.head == s.tail && s.head in s.heap
    ensures SoloPop(s, 6).consumer == PopDone(Some(s.heap[s.head].element)) && SoloPop(s, 6).heap == s.heap - {s.head}
  {
    var s1 := StepConsumer(s);
    var s2 := StepConsumer(s1);
    var s3 := StepConsumer(s2);
    var s4 := StepConsumer(s3);
    var s5 := StepConsumer(s4);
    assert s3.consumer == PopStoreHead(s.head) && s3.heap == s.heap;
    assert SoloPop(s, 6) == SoloPop(s1, 5) == SoloPop(s2, 4) == SoloPop(s3, 3);
    assert SoloPop(s3, 3) == SoloPop(s4, 2) == SoloPop(s5, 1) == StepConsumer(s5);
  }

  /** More nodes: unlink the front one through the head. */
  lemma PopFrontFinishes<E>(s: State<E>)
    requires s.consumer == PopLoadTail && s.tail != NULLPTR && s.head != s.tail
    requires s.head in s.heap && s.heap[s.head].next != NULLPTR
    ensures SoloPop(s, 6).consumer == PopDone(Some(s.heap[s.head].element)) && SoloPop(s, 6).heap == s.heap - {s.head}
  {
    var s1 := StepConsumer(s);
    var s2 := StepConsumer(s1);
    var s3 := StepConsumer(s2);
    var s4 := StepConsumer(s3);
    var s5 := StepConsumer(s4);
    assert s3.consumer == PopCasHead(s.head, s.heap[s.head].next) && s3.heap == s.heap;
    assert SoloPop(s, 6) == SoloPop(s1, 5) == SoloPop(s2, 4) == SoloPop(s3, 3);
    assert SoloPop(s3, 3) == SoloPop(s4, 2) == SoloPop(s5, 1) == StepConsumer(s5);
  }

  lemma PopTakesOnePass<E>(s: State<E>, g: Shape)
    requires Inv(s, g) && s.consumer == PopLoadTail && !FrontLinkMissing(s)
    ensures var queue := Elements(s.heap, g.chain);
            SoloPop(s, 6).consumer == PopDone(if queue == [] then None else Some(queue[0]))
    ensures SoloPop(s, 6).heap == if g.chain == [] then s.heap else s.heap - {g.chain[0]}
  {
    EmptyTail(s, g);
    if g.chain == [] {
      assert SoloPop(s, 6) == SoloPop(StepConsumer(s), 5) == StepConsumer(s);
    } else if |g.chain| == 1 {
      assert s.head in g.chain;
      PopLastFinishes(s);
    } else {
      assert s.head in g.chain;
      PopFrontFinishes(s);
    }
  }

  lemma PopAloneSpins<E>(s: State<E>, n: nat)
    requires FrontLinkMissing(s)
    requires s.consumer == PopLoadTail || s.consumer == PopLoadHead(s.tail) || s.consumer == PopLoadNext(s.head)
    ensures !SoloPop(s, n).consumer.PopDone?
    decreases n
  {
    if n > 0 { PopAloneSpins(StepConsumer(s), n - 1); }
  }

  /**
   In any run, a pop at the head of its loop that runs alone from there on finishes if and only if
   the link out of the front node is not missing.
   */
  lemma PopAloneFinishesIff<E>(ss: seq<State<E>>, acts: seq<Action<E>>, i: nat)
    requires Run(ss, acts) && i <= |acts| && ss[i].consumer == PopLoadTail
    ensures !FrontLinkMissing(ss[i]) <==> exists n :: SoloPop(ss[i], n).consumer.PopDone?
  {
    var s := ss[i];
    if FrontLinkMissing(s) {
      forall n: nat ensures !SoloPop(s, n).consumer.PopDone? { PopAloneSpins(s, n); }
    } else {
      InvAt(ss, acts, i);
      PopTakesOnePass(s, Shapes(ss, acts)[i]);
      assert SoloPop(s, 6).consumer.PopDone?;
    }
  }

  /** Then it takes one pass, and returns the first element pushed and not yet taken, or nothing. */
  lemma PopAloneFinishes<E>(ss: seq<State<E>>, acts: seq<Action<E>>, i: nat)
    requires Run(ss, acts) && i <= |acts| && ss[i].consumer == PopLoadTail && !FrontLinkMissing(ss[i])
    ensures var s, es := ss[i], Events(ss, acts)[..i];
            var pushed, taken := Spec.Pushed(es), Spec.Taken(es);
            && |taken| <= |pushed|
            && SoloPop(s, 6).consumer == PopDone(if |pushed| == |taken| then None else Some(pushed[|taken|]))
            && SoloPop(s, 6).heap == if |pushed| == |taken| then s.heap else s.heap - {s.head}
  {
    QueuedElements(ss, acts, i);
    PopTakesOnePass(ss[i], Shapes(ss, acts)[i]);
  }

  /** In any run the two obstacles are other threads between a winning CAS and the store it owes. */
  lemma ObstaclesAreOwed<E>(ss: seq<State<E>>, acts: seq<Action<E>>, i: nat)
    requires Run(ss, acts) && i <= |acts|
    ensures HalfOpen(ss[i]) <==> ss[i].consumer.PopStoreHead? || exists t :: OwnsHalfOpen(ss[i], t)
    ensures FrontLinkMissing(ss[i]) <==> exists t :: OwesLink(ss[i], t, ss[i].head)
  {
    var s, g := ss[i], Shapes(ss, acts)[i];
    InvAt(ss, acts, i);
    HalfOpenOwned(s, g);
    EmptyTail(s, g);
    forall t | OwesLink(s, t, s.head) ensures s.head in g.chain && s.head != s.tail { DebtQueued(s, g, t, s.head); }
    if |g.chain| > 1 {
      assert g.chain[0] in g.chain;
      LinkOwedOnce(s, g, 0);
    }
  }
}
