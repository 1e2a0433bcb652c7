/**
 The inductive invariant of the lock-free queue. It speaks of three things the code never stores:
 the addresses of the queued nodes from front to back, the thread that owes each missing link
 between them, and the thread that holds each node not yet queued.
 */
module QueueInvariant {
  import opened Base
  import opened LockFreeQueue
  import Spec = AtomicQueue

  datatype Shape = Shape(chain: seq<Addr>, debtor: map<Addr, Tid>, holder: map<Addr, Tid>)

  /** The node is still only the pushing thread's: allocated, not yet in the chain. */
  predicate Private(p: Producer) {
    p.PushLoadTail? || p.PushCasHead? || p.PushStoreTail? || p.PushCasTail?
  }

  /** The node the consumer has unlinked and not yet deleted. */
  function Unlinked<E>(c: Consumer<E>): Option<Addr> {
    match c
    case PopStoreHead(h) => Some(h)
    case PopTake(h) => Some(h)
    case PopDelete(h, _) => Some(h)
    case _ => None
  }

  ghost predicate ChainInv<E>(s: State<E>, g: Shape) {
    && (forall i, j | 0 <= i < j < |g.chain| :: g.chain[i] != g.chain[j])
    && NULLPTR !in s.heap
    && (forall a | a in g.chain :: a in s.heap)
    && s.tail == (if g.chain == [] then NULLPTR else g.chain[|g.chain| - 1])
    && (g.chain != [] ==> s.head == g.chain[0] && s.tail in s.heap && s.heap[s.tail].next == NULLPTR)
  }

  /** `head_` set while nothing is queued: one thread owns that half-open state. */
  ghost predicate HalfOpenInv<E>(s: State<E>, g: Shape) {
    g.chain == [] && s.head != NULLPTR ==>
      || s.consumer == PopStoreHead(s.head)
      || (s.head in g.holder && g.holder[s.head] in s.producers
          && s.producers[g.holder[s.head]] == PushStoreTail(s.head))
  }

  /** The link from `a` to its successor `b` is stored, or owed by the one thread about to store it. */
  ghost predicate LinkInv<E>(s: State<E>, g: Shape, a: Addr, b: Addr) {
    && a in s.heap
    && (if a in g.debtor then
          && s.heap[a].next == NULLPTR
          && g.debtor[a] in s.producers && s.producers[g.debtor[a]] == PushStoreNext(b, a)
        else s.heap[a].next == b)
  }

  ghost predicate LinksInv<E>(s: State<E>, g: Shape) {
    forall i, j | 0 <= i < j < |g.chain| && j == i + 1 :: LinkInv(s, g, g.chain[i], g.chain[j])
  }

  ghost predicate ProducerInv<E>(s: State<E>, g: Shape, t: Tid, p: Producer) {
    && (Private(p) ==>
          && p.node in s.heap && s.heap[p.node].next == NULLPTR
          && p.node in g.holder && g.holder[p.node] == t
          && p.node !in g.chain && Unlinked(s.consumer) != Some(p.node))
    && (p.PushStoreTail? ==> g.chain == [] && s.head == p.node)
    && (p.PushCasTail? ==> p.tailRead != NULLPTR)
    && (p.PushStoreNext? ==> p.tailRead in g.debtor && g.debtor[p.tailRead] == t)
  }

  ghost predicate HoldersInv<E>(s: State<E>, g: Shape) {
    && (forall a | a in g.debtor :: a in g.chain && a != s.tail)
    && (forall a | a in g.holder ::
          g.holder[a] in s.producers && Private(s.producers[g.holder[a]]) && s.producers[g.holder[a]].node == a)
  }

  ghost predicate ProducersInv<E>(s: State<E>, g: Shape) {
    forall t | t in s.producers :: ProducerInv(s, g, t, s.producers[t])
  }

  ghost predicate ConsumerInv<E>(s: State<E>, g: Shape) {
    match s.consumer
    case PopLoadHead(tailRead) => tailRead in g.chain
    case PopCasTail(headRead) => g.chain != [] && headRead == g.chain[0]
    case PopLoadNext(headRead) => g.chain != [] && headRead == g.chain[0]
    case PopCasHead(headRead, headNext) =>
      |g.chain| >= 2 && headRead == g.chain[0] && headNext == g.chain[1] && headRead !in g.debtor
    case PopStoreHead(headRead) => g.chain == [] && s.head == headRead && headRead in s.heap
    case PopTake(headRead) => headRead in s.heap && headRead !in g.chain
    case PopDelete(headRead, element) =>
      headRead in s.heap && headRead !in g.chain && s.heap[headRead].element == element
    case _ => true
  }

  /** Every allocated node has a holder: the chain, a pushing thread, or the consumer. */
  ghost predicate NoLeak<E>(s: State<E>, g: Shape) {
    forall a | a in s.heap :: a in g.chain || a in g.holder || Unlinked(s.consumer) == Some(a)
  }

  ghost predicate Inv<E>(s: State<E>, g: Shape) {
    && !s.fault
    && ChainInv(s, g)
    && HalfOpenInv(s, g)
    && LinksInv(s, g)
    && HoldersInv(s, g)
    && ProducersInv(s, g)
    && ConsumerInv(s, g)
    && NoLeak(s, g)
  }

  lemma EmptyTail<E>(s: State<E>, g: Shape)
    requires Inv(s, g)
    ensures s.tail == NULLPTR <==> g.chain == []
    ensures s.head == NULLPTR ==> g.chain == []
  {
  }

  // ---------- the reference queue a state stands for ----------

  function AbsPusher<E>(heap: map<Addr, Node<E>>, p: Producer): Spec.Pusher<E> {
    if p.PushDone? then Spec.Linearized(p.onEmpty)
    else if p.PushStoreNext? || p.node !in heap then Spec.Linearized(false)
    else Spec.Invoked(heap[p.node].element)
  }

  function AbsPopper<E>(s: State<E>): Spec.Popper<E> {
    match s.consumer
    case Idle => Spec.Resting
    case PopStoreHead(h) => if h in s.heap then Spec.Popped(Some(s.heap[h].element)) else Spec.Resting
    case PopTake(h) => if h in s.heap then Spec.Popped(Some(s.heap[h].element)) else Spec.Resting
    case PopDelete(_, element) => Spec.Popped(Some(element))
    case PopDone(result) => Spec.Popped(result)
    case EmptyLoadHead => Spec.Testing
    case EmptyDone(answer) => Spec.Tested(answer)
    case _ => Spec.Popping
  }

  function Elements<E>(heap: map<Addr, Node<E>>, chain: seq<Addr>): (q: seq<E>)
    requires forall a | a in chain :: a in heap
    ensures |q| == |chain|
    ensures forall i | 0 <= i < |chain| :: chain[i] in chain && q[i] == heap[chain[i]].element
  {
    seq(|chain|, i requires 0 <= i < |chain| && chain[i] in chain => heap[chain[i]].element)
  }

  function AbsPushers<E>(s: State<E>): (m: map<Tid, Spec.Pusher<E>>) {
    map t | t in s.producers :: AbsPusher(s.heap, s.producers[t])
  }

  function Abs<E>(s: State<E>, g: Shape): Spec.State<E>
    requires forall a | a in g.chain :: a in s.heap
  {
    Spec.State(Elements(s.heap, g.chain), AbsPushers(s), AbsPopper(s))
  }

  /** A step is matched when the invariant survives it and the reference queue can follow. */
  ghost predicate Matched<E>(s: State<E>, g: Shape, e: Spec.Event<E>, s': State<E>, g': Shape)
    requires Inv(s, g)
  {
    Inv(s', g') && Spec.Next(Abs(s, g), e, Abs(s', g'))
  }
}
