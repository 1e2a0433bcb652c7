/**
 The lock-free queue is linearizable to a first-in first-out queue: every run is, event by event,
 a run of the reference queue.
 */
module QueueRefinement {
  import opened Base
  import opened LockFreeQueue
  import opened QueueInvariant
  import opened QueueSteps
  import Spec = AtomicQueue

  // ---------- how a change of state shows in the reference state ----------

  lemma SameElements<E>(heap: map<Addr, Node<E>>, heap': map<Addr, Node<E>>, chain: seq<Addr>)
    requires forall a | a in chain :: a in heap && a in heap' && heap[a].element == heap'[a].element
    ensures Elements(heap, chain) == Elements(heap', chain)
  {
  }

  lemma MovedPusher<E>(s: State<E>, s': State<E>, t: Tid, p: Producer)
    requires s'.producers == s.producers[t := p]
    requires forall u | u in s.producers && u != t ::
               AbsPusher(s'.heap, s.producers[u]) == AbsPusher(s.heap, s.producers[u])
    ensures AbsPushers(s') == AbsPushers(s)[t := AbsPusher(s'.heap, p)]
  {
  }

  lemma SamePushers<E>(s: State<E>, s': State<E>)
    requires s'.producers == s.producers
    requires forall t | t in s.producers ::
               AbsPusher(s'.heap, s.producers[t]) == AbsPusher(s.heap, s.producers[t])
    ensures AbsPushers(s') == AbsPushers(s)
  {
  }

  // ---------- producers ----------

  lemma BeginPushShows<E>(s: State<E>, g: Shape, t: Tid, x: E, node: Addr)
    requires Inv(s, g) && Enabled(s, BeginPush(t, x, node))
    ensures var s' := Apply(s, BeginPush(t, x, node));
            && (forall a | a in g.chain :: a in s'.heap)
            && Abs(s', g) == Abs(s, g).(pushers := AbsPushers(s)[t := Spec.Invoked(x)])
  {
    var s' := Apply(s, BeginPush(t, x, node));
    SameElements(s.heap, s'.heap, g.chain);
    forall u | u in s.producers && u != t
      ensures AbsPusher(s'.heap, s.producers[u]) == AbsPusher(s.heap, s.producers[u])
    {
      assert ProducerInv(s, g, u, s.producers[u]);
    }
    MovedPusher(s, s', t, PushLoadTail(node));
  }

  lemma BeginPushFollows<E>(s: State<E>, g: Shape, t: Tid, x: E, node: Addr)
    requires Inv(s, g) && Enabled(s, BeginPush(t, x, node))
    ensures var a := BeginPush(t, x, node);
            Matched(s, g, EventOf(s, a), Apply(s, a), g.(holder := g.holder[node := t]))
  {
    BeginPushKeeps(s, g, t, x, node);
    BeginPushShows(s, g, t, x, node);
  }

  lemma PushRetriesFollow<E>(s: State<E>, g: Shape, t: Tid)
    requires Inv(s, g) && t in s.producers
    requires
      var p := s.producers[t];
      p.PushLoadTail? || p.PushCasHead? || (p.PushCasTail? && s.tail != p.tailRead)
    ensures Matched(s, g, PushEvent(s, t), StepProducer(s, t), g)
  {
    match s.producers[t]
    case PushLoadTail(_) => PushLoadTailKeeps(s, g, t); PrivateMoveFollows(s, g, t);
    case PushCasHead(_) =>
      if s.head == NULLPTR { PushCasHeadWonKeeps(s, g, t); } else { PushCasHeadLostKeeps(s, g, t); }
      PrivateMoveFollows(s, g, t);
    case PushCasTail(_, _) => PushCasTailLostKeeps(s, g, t); PrivateMoveFollows(s, g, t);
  }

  /** Up to its publishing step a push stays, for the reference queue, just called. */
  lemma PrivateMoveFollows<E>(s: State<E>, g: Shape, t: Tid)
    requires Inv(s, g) && t in s.producers && Private(s.producers[t])
    requires var s' := StepProducer(s, t);
             && Inv(s', g) && s'.heap == s.heap && s'.consumer == s.consumer
             && t in s'.producers && s'.producers == s.producers[t := s'.producers[t]]
             && Private(s'.producers[t]) && s'.producers[t].node == s.producers[t].node
    ensures Spec.Next(Abs(s, g), Spec.Silent, Abs(StepProducer(s, t), g))
  {
  }

  lemma PushStoreTailFollows<E>(s: State<E>, g: Shape, t: Tid)
    requires Inv(s, g) && t in s.producers && s.producers[t].PushStoreTail?
    ensures var node := s.producers[t].node;
            Matched(s, g, PushEvent(s, t), StepProducer(s, t), g.(chain := [node], holder := g.holder - {node}))
  {
    PushStoreTailKeeps(s, g, t);
    assert ProducerInv(s, g, t, s.producers[t]);
    MovedPusher(s, StepProducer(s, t), t, PushDone(true));
  }

  lemma PushCasTailWonFollows<E>(s: State<E>, g: Shape, t: Tid)
    requires Inv(s, g) && t in s.producers && s.producers[t].PushCasTail?
    requires s.tail == s.producers[t].tailRead
    ensures var node := s.producers[t].node;
            Matched(s, g, PushEvent(s, t), StepProducer(s, t),
                    Shape(g.chain + [node], g.debtor[s.tail := t], g.holder - {node}))
  {
    PushCasTailWonKeeps(s, g, t);
    var p := s.producers[t];
    assert ProducerInv(s, g, t, p);
    MovedPusher(s, StepProducer(s, t), t, PushStoreNext(p.node, p.tailRead));
    assert Elements(s.heap, g.chain + [p.node]) == Elements(s.heap, g.chain) + [s.heap[p.node].element];
  }

  lemma PushStoreNextShows<E>(s: State<E>, g: Shape, t: Tid)
    requires Inv(s, g) && t in s.producers && s.producers[t].PushStoreNext?
    ensures var s' := StepProducer(s, t); (forall a | a in g.chain :: a in s'.heap) && Abs(s', g) == Abs(s, g)
  {
    assert ProducerInv(s, g, t, s.producers[t]);
    var s' := StepProducer(s, t);
    SameElements(s.heap, s'.heap, g.chain);
    MovedPusher(s, s', t, PushDone(false));
    assert AbsPushers(s') == AbsPushers(s);
  }

  lemma PushStoreNextFollows<E>(s: State<E>, g: Shape, t: Tid)
    requires Inv(s, g) && t in s.producers && s.producers[t].PushStoreNext?
    ensures Matched(s, g, PushEvent(s, t), StepProducer(s, t),
                    g.(debtor := g.debtor - {s.producers[t].tailRead}))
  {
    PushStoreNextKeeps(s, g, t);
    PushStoreNextShows(s, g, t);
  }

  lemma PushDoneFollows<E>(s: State<E>, g: Shape, t: Tid)
    requires Inv(s, g) && t in s.producers && s.producers[t].PushDone?
    ensures Matched(s, g, PushEvent(s, t), StepProducer(s, t), g)
  {
    PushDoneKeeps(s, g, t);
    assert AbsPushers(StepProducer(s, t)) == AbsPushers(s) - {t};
  }

  // ---------- the consumer ----------

  /** A step of the consumer alone shows only in the popping thread. */
  lemma ConsumerMoveShows<E>(s: State<E>, g: Shape, c: Consumer<E>)
    requires Inv(s, g)
    ensures var s' := s.(consumer := c); Abs(s', g) == Abs(s, g).(popper := AbsPopper(s'))
  {
  }

  /** A set `head_` means something is queued, or a first push on its way. */
  lemma NotEmptyHasCause<E>(s: State<E>, g: Shape)
    requires Inv(s, g) && s.head != NULLPTR && s.consumer.EmptyLoadHead?
    ensures Abs(s, g).queue != [] || Spec.SomePushInvoked(Abs(s, g))
  {
    if g.chain == [] {
      var t := g.holder[s.head];
      assert ProducerInv(s, g, t, s.producers[t]);
      assert Abs(s, g).pushers[t].Invoked?;
    }
  }

  /** Loads, a lost CAS, and the two edges of an operation change nothing that is queued. */
  lemma ConsumerReadsFollow<E>(s: State<E>, g: Shape)
    requires Inv(s, g)
    requires
      var c := s.consumer;
      || c.PopLoadTail? || c.PopLoadHead? || c.PopLoadNext? || (c.PopCasTail? && s.tail != c.headRead)
      || c.PopTake? || c.PopDone? || c.EmptyLoadHead? || c.EmptyDone?
    ensures Matched(s, g, PopEvent(s), StepConsumer(s), g)
  {
    var c := s.consumer;
    if c.PopDone? || c.EmptyLoadHead? || c.EmptyDone? { EdgesFollow(s, g); } else { LoadsFollow(s, g); }
  }

  lemma LoadsFollow<E>(s: State<E>, g: Shape)
    requires Inv(s, g)
    requires
      var c := s.consumer;
      || c.PopLoadTail? || c.PopLoadHead? || c.PopLoadNext? || (c.PopCasTail? && s.tail != c.headRead) || c.PopTake?
    ensures Matched(s, g, PopEvent(s), StepConsumer(s), g)
  {
    if s.consumer.PopCasTail? {
      PopCasTailLostKeeps(s, g);
    } else if s.consumer.PopTake? {
      PopTakeKeeps(s, g);
    } else if s.consumer.PopLoadNext? {
      PopLoadNextKeeps(s, g);
    } else {
      PopLoadEndsKeep(s, g);
    }
    ConsumerMoveShows(s, g, StepConsumer(s).consumer);
  }

  lemma EdgesFollow<E>(s: State<E>, g: Shape)
    requires Inv(s, g) && (s.consumer.PopDone? || s.consumer.EmptyLoadHead? || s.consumer.EmptyDone?)
    ensures Matched(s, g, PopEvent(s), StepConsumer(s), g)
  {
    var c := StepConsumer(s).consumer;
    if s.consumer.EmptyLoadHead? && s.head != NULLPTR { NotEmptyHasCause(s, g); }
    ConsumerEdgesKeep(s, g, c);
    ConsumerMoveShows(s, g, c);
  }

  lemma PopCasTailWonFollows<E>(s: State<E>, g: Shape)
    requires Inv(s, g) && s.consumer.PopCasTail? && s.tail == s.consumer.headRead
    ensures Matched(s, g, PopEvent(s), StepConsumer(s), g.(chain := []))
  {
    PopCasTailWonKeeps(s, g);
    SamePushers(s, StepConsumer(s));
  }

  lemma PopStoreHeadFollows<E>(s: State<E>, g: Shape)
    requires Inv(s, g) && s.consumer.PopStoreHead?
    ensures Matched(s, g, PopEvent(s), StepConsumer(s), g)
  {
    PopStoreHeadKeeps(s, g);
    SamePushers(s, StepConsumer(s));
  }

  lemma ElementsDrop<E>(heap: map<Addr, Node<E>>, chain: seq<Addr>)
    requires chain != [] && forall a | a in chain :: a in heap
    ensures forall a | a in chain[1..] :: a in chain
    ensures Elements(heap, chain)[0] == heap[chain[0]].element
    ensures Elements(heap, chain[1..]) == Elements(heap, chain)[1..]
  {
  }

  /** The front goes into the popping thread's hand. */
  lemma PopCasHeadShows<E>(s: State<E>)
    requires s.consumer.PopCasHead? && s.head == s.consumer.headRead && s.head in s.heap
    ensures var s' := StepConsumer(s);
            && s'.heap == s.heap && AbsPushers(s') == AbsPushers(s)
            && AbsPopper(s') == Spec.Popped(Some(s.heap[s.head].element))
  {
    SamePushers(s, StepConsumer(s));
  }

  lemma PopCasHeadNext<E>(s: State<E>, g: Shape)
    requires s.consumer.PopCasHead? && s.head == s.consumer.headRead
    requires g.chain != [] && s.head == g.chain[0] && forall a | a in g.chain :: a in s.heap
    ensures var s', g' := StepConsumer(s), g.(chain := g.chain[1..]);
            (forall a | a in g'.chain :: a in s'.heap) && Spec.Next(Abs(s, g), PopEvent(s), Abs(s', g'))
  {
    PopCasHeadShows(s);
    ElementsDrop(s.heap, g.chain);
  }

  lemma FrontIsHead<E>(s: State<E>, g: Shape)
    requires Inv(s, g) && s.consumer.PopCasHead?
    ensures g.chain != [] && s.head == g.chain[0] == s.consumer.headRead && forall a | a in g.chain :: a in s.heap
  {
  }

  lemma PopCasHeadFollows<E>(s: State<E>, g: Shape)
    requires Inv(s, g) && s.consumer.PopCasHead?
    ensures g.chain != [] && Matched(s, g, PopEvent(s), StepConsumer(s), g.(chain := g.chain[1..]))
  {
    PopCasHeadKeeps(s, g);
    FrontIsHead(s, g);
    PopCasHeadNext(s, g);
  }

  lemma PopDeleteFollows<E>(s: State<E>, g: Shape)
    requires Inv(s, g) && s.consumer.PopDelete?
    ensures Matched(s, g, PopEvent(s), StepConsumer(s), g)
  {
    PopDeleteKeeps(s, g);
    var s' := StepConsumer(s);
    SameElements(s.heap, s'.heap, g.chain);
    forall t | t in s.producers
      ensures AbsPusher(s'.heap, s.producers[t]) == AbsPusher(s.heap, s.producers[t])
    {
      assert ProducerInv(s, g, t, s.producers[t]);
    }
    SamePushers(s, s');
  }

  // ---------- every step, every run ----------

  /** How the unstored part of the state moves with a step. */
  ghost function NextShape<E>(s: State<E>, g: Shape, a: Action<E>): Shape {
    match a
    case BeginPush(t, _, node) => g.(holder := g.holder[node := t])
    case StepPush(t) =>
      if t !in s.producers then g
      else (match s.producers[t]
            case PushStoreTail(node) => g.(chain := [node], holder := g.holder - {node})
            case PushCasTail(node, tailRead) =>
              if s.tail == tailRead then Shape(g.chain + [node], g.debtor[s.tail := t], g.holder - {node}) else g
            case PushStoreNext(_, tailRead) => g.(debtor := g.debtor - {tailRead})
            case _ => g)
    case StepPop =>
      (match s.consumer
       case PopCasTail(headRead) => if s.tail == headRead then g.(chain := []) else g
       case PopCasHead(_, _) => if g.chain == [] then g else g.(chain := g.chain[1..])
       case _ => g)
    case _ => g
  }

  lemma StepMatched<E>(s: State<E>, g: Shape, a: Action<E>)
    requires Inv(s, g) && Enabled(s, a)
    ensures Matched(s, g, EventOf(s, a), Apply(s, a), NextShape(s, g, a))
  {
    match a
    case BeginPush(t, x, node) => BeginPushFollows(s, g, t, x, node);
    case BeginPop => BeginPopMatched(s, g, a);
    case BeginEmpty => BeginPopMatched(s, g, a);
    case StepPush(t) =>
      match s.producers[t] {
        case PushStoreTail(_) => PushStoreTailFollows(s, g, t);
        case PushStoreNext(_, _) => PushStoreNextFollows(s, g, t);
        case PushDone(_) => PushDoneFollows(s, g, t);
        case PushCasTail(_, tailRead) =>
          if s.tail == tailRead { PushCasTailWonFollows(s, g, t); } else { PushRetriesFollow(s, g, t); }
        case _ => PushRetriesFollow(s, g, t);
      }
    case StepPop =>
      match s.consumer {
        case PopStoreHead(_) => PopStoreHeadFollows(s, g);
        case PopCasHead(_, _) => PopCasHeadFollows(s, g);
        case PopDelete(_, _) => PopDeleteFollows(s, g);
        case PopCasTail(headRead) =>
          if s.tail == headRead { PopCasTailWonFollows(s, g); } else { ConsumerReadsFollow(s, g); }
        case _ => ConsumerReadsFollow(s, g);
      }
  }

  lemma BeginPopMatched<E>(s: State<E>, g: Shape, a: Action<E>)
    requires Inv(s, g) && Enabled(s, a) && (a.BeginPop? || a.BeginEmpty?)
    ensures Matched(s, g, EventOf(s, a), Apply(s, a), g)
  {
    var c := Apply(s, a).consumer;
    ConsumerEdgesKeep(s, g, c);
    ConsumerMoveShows(s, g, c);
  }
}
