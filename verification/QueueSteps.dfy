/** Every step of the lock-free queue keeps the invariant. */
module QueueSteps {
  import opened Base
  import opened LockFreeQueue
  import opened QueueInvariant

  lemma BeginPushKeeps<E>(s: State<E>, g: Shape, t: Tid, x: E, node: Addr)
    requires Inv(s, g) && Enabled(s, BeginPush(t, x, node))
    ensures Inv(Apply(s, BeginPush(t, x, node)), g.(holder := g.holder[node := t]))
  {
    BeginPushKeepsChain(s, g, t, x, node);
    BeginPushKeepsHolders(s, g, t, x, node);
    BeginPushKeepsProducers(s, g, t, x, node);
  }

  lemma BeginPushKeepsChain<E>(s: State<E>, g: Shape, t: Tid, x: E, node: Addr)
    requires Inv(s, g) && Enabled(s, BeginPush(t, x, node))
    ensures var s', g' := Apply(s, BeginPush(t, x, node)), g.(holder := g.holder[node := t]);
            ChainInv(s', g') && HalfOpenInv(s', g') && LinksInv(s', g')
  {
    var s', g' := Apply(s, BeginPush(t, x, node)), g.(holder := g.holder[node := t]);
    forall i, j | 0 <= i < j < |g.chain| && j == i + 1 ensures LinkInv(s', g', g.chain[i], g.chain[j]) {
      assert LinkInv(s, g, g.chain[i], g.chain[j]);
    }
  }

  lemma BeginPushKeepsHolders<E>(s: State<E>, g: Shape, t: Tid, x: E, node: Addr)
    requires Inv(s, g) && Enabled(s, BeginPush(t, x, node))
    ensures var s', g' := Apply(s, BeginPush(t, x, node)), g.(holder := g.holder[node := t]);
            HoldersInv(s', g') && ConsumerInv(s', g') && NoLeak(s', g')
  {
  }

  lemma BeginPushKeepsProducers<E>(s: State<E>, g: Shape, t: Tid, x: E, node: Addr)
    requires Inv(s, g) && Enabled(s, BeginPush(t, x, node))
    ensures ProducersInv(Apply(s, BeginPush(t, x, node)), g.(holder := g.holder[node := t]))
  {
  }

  lemma PushLoadTailKeeps<E>(s: State<E>, g: Shape, t: Tid)
    requires Inv(s, g) && t in s.producers && s.producers[t].PushLoadTail?
    ensures Inv(StepProducer(s, t), g)
  {
  }

  lemma PushCasHeadLostKeeps<E>(s: State<E>, g: Shape, t: Tid)
    requires Inv(s, g) && t in s.producers && s.producers[t].PushCasHead? && s.head != NULLPTR
    ensures Inv(StepProducer(s, t), g)
  {
  }

  /** Winning `head_`: it was null, so nothing is queued and nobody else is half way. */
  lemma PushCasHeadWonKeeps<E>(s: State<E>, g: Shape, t: Tid)
    requires Inv(s, g) && t in s.producers && s.producers[t].PushCasHead? && s.head == NULLPTR
    ensures Inv(StepProducer(s, t), g)
  {
  }

  /** Publishing the first node: the thread that won `head_` is the only one that may set `tail_`. */
  lemma PushStoreTailKeeps<E>(s: State<E>, g: Shape, t: Tid)
    requires Inv(s, g) && t in s.producers && s.producers[t].PushStoreTail?
    ensures var node := s.producers[t].node;
            Inv(StepProducer(s, t), g.(chain := [node], holder := g.holder - {node}))
  {
  }

  /** Winning `tail_`: the old last node is owed a link by this thread from now on. */
  lemma PushCasTailWonKeeps<E>(s: State<E>, g: Shape, t: Tid)
    requires Inv(s, g) && t in s.producers && s.producers[t].PushCasTail?
    requires s.tail == s.producers[t].tailRead
    ensures var node := s.producers[t].node;
            Inv(StepProducer(s, t), Shape(g.chain + [node], g.debtor[s.tail := t], g.holder - {node}))
  {
    var node := s.producers[t].node;
    var s', g' := StepProducer(s, t), Shape(g.chain + [node], g.debtor[s.tail := t], g.holder - {node});
    assert ProducerInv(s, g, t, s.producers[t]);
    assert LinksInv(s', g') by {
      forall i, j | 0 <= i < j < |g'.chain| && j == i + 1 ensures LinkInv(s', g', g'.chain[i], g'.chain[j]) {
        if j < |g.chain| {
          assert LinkInv(s, g, g.chain[i], g.chain[j]);
        }
      }
    }
    PushCasTailWonKeepsHolders(s, g, t);
  }

  lemma PushCasTailWonKeepsHolders<E>(s: State<E>, g: Shape, t: Tid)
    requires Inv(s, g) && t in s.producers && s.producers[t].PushCasTail?
    requires s.tail == s.producers[t].tailRead
    ensures var node := s.producers[t].node;
            var s', g' := StepProducer(s, t), Shape(g.chain + [node], g.debtor[s.tail := t], g.holder - {node});
            HoldersInv(s', g') && ProducersInv(s', g') && ConsumerInv(s', g') && NoLeak(s', g')
  {
  }

  lemma PushCasTailLostKeeps<E>(s: State<E>, g: Shape, t: Tid)
    requires Inv(s, g) && t in s.producers && s.producers[t].PushCasTail?
    requires s.tail != s.producers[t].tailRead
    ensures Inv(StepProducer(s, t), g)
  {
  }

  /** The late link store hits a node that is still queued, and pays the one debt on it. */
  lemma PushStoreNextKeeps<E>(s: State<E>, g: Shape, t: Tid)
    requires Inv(s, g) && t in s.producers && s.producers[t].PushStoreNext?
    ensures Inv(StepProducer(s, t), g.(debtor := g.debtor - {s.producers[t].tailRead}))
  {
    var tailRead := s.producers[t].tailRead;
    var s', g' := StepProducer(s, t), g.(debtor := g.debtor - {tailRead});
    assert ProducerInv(s, g, t, s.producers[t]);
    assert tailRead in g.chain && tailRead != s.tail;
    assert LinksInv(s', g') by {
      forall i, j | 0 <= i < j < |g.chain| && j == i + 1 ensures LinkInv(s', g', g.chain[i], g.chain[j]) {
        assert LinkInv(s, g, g.chain[i], g.chain[j]);
      }
    }
    PushStoreNextKeepsHolders(s, g, t);
  }

  lemma PushStoreNextKeepsHolders<E>(s: State<E>, g: Shape, t: Tid)
    requires Inv(s, g) && t in s.producers && s.producers[t].PushStoreNext?
    ensures var s', g' := StepProducer(s, t), g.(debtor := g.debtor - {s.producers[t].tailRead});
            HoldersInv(s', g') && ProducersInv(s', g') && ConsumerInv(s', g') && NoLeak(s', g')
  {
  }

  lemma PushDoneKeeps<E>(s: State<E>, g: Shape, t: Tid)
    requires Inv(s, g) && t in s.producers && s.producers[t].PushDone?
    ensures Inv(StepProducer(s, t), g)
  {
  }

  lemma PopLoadEndsKeep<E>(s: State<E>, g: Shape)
    requires Inv(s, g) && (s.consumer.PopLoadTail? || s.consumer.PopLoadHead?)
    ensures Inv(StepConsumer(s), g)
  {
  }

  /** The link read is the one to the second node, unless it is missing. */
  lemma PopLoadNextKeeps<E>(s: State<E>, g: Shape)
    requires Inv(s, g) && s.consumer.PopLoadNext?
    ensures Inv(StepConsumer(s), g)
  {
  }

  lemma PopCasTailLostKeeps<E>(s: State<E>, g: Shape)
    requires Inv(s, g) && s.consumer.PopCasTail? && s.tail != s.consumer.headRead
    ensures Inv(StepConsumer(s), g)
  {
  }

  /** Taking the only node: `tail_` is null now and the consumer alone may clear `head_`. */
  lemma PopCasTailWonKeeps<E>(s: State<E>, g: Shape)
    requires Inv(s, g) && s.consumer.PopCasTail? && s.tail == s.consumer.headRead
    ensures Inv(StepConsumer(s), g.(chain := []))
    ensures g.chain == [s.consumer.headRead]
  {
  }

  lemma PopStoreHeadKeeps<E>(s: State<E>, g: Shape)
    requires Inv(s, g) && s.consumer.PopStoreHead?
    ensures Inv(StepConsumer(s), g)
  {
  }

  lemma DropFront(chain: seq<Addr>)
    requires chain != [] && forall i, j | 0 <= i < j < |chain| :: chain[i] != chain[j]
    ensures forall a :: a in chain <==> a == chain[0] || a in chain[1..]
    ensures chain[0] !in chain[1..]
  {
  }

  /** Taking the front of two or more: nobody owes a link out of the node that leaves. */
  lemma PopCasHeadKeeps<E>(s: State<E>, g: Shape)
    requires Inv(s, g) && s.consumer.PopCasHead?
    ensures g.chain != [] && s.head == g.chain[0] && Inv(StepConsumer(s), g.(chain := g.chain[1..]))
  {
    var rest := g.chain[1..];
    var s', g' := StepConsumer(s), g.(chain := rest);
    assert LinkInv(s, g, g.chain[0], g.chain[1]);
    DropFront(g.chain);
    assert rest[|rest| - 1] == g.chain[|g.chain| - 1] && rest[0] == g.chain[1];
    assert ChainInv(s', g') && HalfOpenInv(s', g');
    assert LinksInv(s', g') by {
      forall i, j | 0 <= i < j < |rest| && j == i + 1 ensures LinkInv(s', g', rest[i], rest[j]) {
        assert LinkInv(s, g, g.chain[i + 1], g.chain[j + 1]);
      }
    }
    PopCasHeadKeepsHolders(s, g);
  }

  lemma PopCasHeadKeepsHolders<E>(s: State<E>, g: Shape)
    requires Inv(s, g) && s.consumer.PopCasHead?
    ensures var s', g' := StepConsumer(s), g.(chain := g.chain[1..]);
            HoldersInv(s', g') && ProducersInv(s', g') && ConsumerInv(s', g') && NoLeak(s', g')
  {
  }

  lemma PopTakeKeeps<E>(s: State<E>, g: Shape)
    requires Inv(s, g) && s.consumer.PopTake?
    ensures Inv(StepConsumer(s), g)
  {
  }

  /** The deleted node is live, unlinked and nobody else's. */
  lemma PopDeleteKeeps<E>(s: State<E>, g: Shape)
    requires Inv(s, g) && s.consumer.PopDelete?
    ensures Inv(StepConsumer(s), g)
  {
    var s' := StepConsumer(s);
    forall t | t in s.producers ensures ProducerInv(s', g, t, s.producers[t]) {
      assert ProducerInv(s, g, t, s.producers[t]);
    }
    forall i, j | 0 <= i < j < |g.chain| && j == i + 1 ensures LinkInv(s', g, g.chain[i], g.chain[j]) {
      assert LinkInv(s, g, g.chain[i], g.chain[j]);
    }
  }

  lemma ConsumerEdgesKeep<E>(s: State<E>, g: Shape, c: Consumer<E>)
    requires Inv(s, g) && Unlinked(s.consumer) == None
    requires c.Idle? || c.PopLoadTail? || c.EmptyLoadHead? || c.EmptyDone?
    ensures Inv(s.(consumer := c), g)
  {
  }
}
