/**
 `LockFreeQueue` as a transition system. One step is one atomic load, store or compare-exchange,
 one read of an element, or one `new`/`delete`; all atomics are sequentially consistent, so the
 runs of the protocol are exactly the interleavings of these steps. Any number of threads push,
 one thread pops. `delete` gives an address back and `new` may hand it out again at once.
 A step that would dereference a null or freed node, or free a node twice, sets `fault`.
 */
module LockFreeQueue {
  import opened Base
  import Spec = AtomicQueue

  type Addr = nat

  const NULLPTR: Addr := 0

  datatype Node<E> = Node(next: Addr, element: E)

  /** Where a thread is inside `Push`, with its locals. */
  datatype Producer =
    | PushLoadTail(node: Addr)
    | PushCasHead(node: Addr)
    | PushStoreTail(node: Addr)
    | PushCasTail(node: Addr, tailRead: Addr)
    | PushStoreNext(node: Addr, tailRead: Addr)
    | PushDone(onEmpty: bool)

  /** Where the popping thread is inside `Pop` or `Empty`, with its locals. */
  datatype Consumer<E> =
    | Idle
    | PopLoadTail
    | PopLoadHead(tailRead: Addr)
    | PopCasTail(headRead: Addr)
    | PopStoreHead(headRead: Addr)
    | PopLoadNext(headRead: Addr)
    | PopCasHead(headRead: Addr, headNext: Addr)
    | PopTake(headRead: Addr)
    | PopDelete(headRead: Addr, element: E)
    | PopDone(result: Option<E>)
    | EmptyLoadHead
    | EmptyDone(answer: bool)

  datatype State<E> = State(
    head: Addr,
    tail: Addr,
    heap: map<Addr, Node<E>>,
    producers: map<Tid, Producer>,
    consumer: Consumer<E>,
    fault: bool)

  datatype Action<E> =
    | BeginPush(t: Tid, x: E, node: Addr)
    | StepPush(t: Tid)
    | BeginPop
    | BeginEmpty
    | StepPop

  ghost predicate Init<E>(s: State<E>) {
    s == State(NULLPTR, NULLPTR, map[], map[], Idle, false)
  }

  function Goto<E>(s: State<E>, t: Tid, p: Producer): State<E> {
    s.(producers := s.producers[t := p])
  }

  function StepProducer<E>(s: State<E>, t: Tid): State<E>
    requires t in s.producers
  {
    match s.producers[t]
    case PushLoadTail(node) =>
      if s.tail == NULLPTR then Goto(s, t, PushCasHead(node)) else Goto(s, t, PushCasTail(node, s.tail))
    case PushCasHead(node) =>
      if s.head == NULLPTR then Goto(s, t, PushStoreTail(node)).(head := node)
      else Goto(s, t, PushLoadTail(node))
    case PushStoreTail(node) =>
      Goto(s, t, PushDone(true)).(tail := node)
    case PushCasTail(node, tailRead) =>
      if s.tail == tailRead then Goto(s, t, PushStoreNext(node, tailRead)).(tail := node)
      else Goto(s, t, PushLoadTail(node))
    case PushStoreNext(node, tailRead) =>
      if tailRead !in s.heap then s.(fault := true)
      else Goto(s, t, PushDone(false)).(heap := s.heap[tailRead := s.heap[tailRead].(next := node)])
    case PushDone(_) =>
      s.(producers := s.producers - {t})
  }

  function StepConsumer<E>(s: State<E>): State<E> {
    match s.consumer
    case Idle => s
    case PopLoadTail =>
      s.(consumer := if s.tail == NULLPTR then PopDone(None) else PopLoadHead(s.tail))
    case PopLoadHead(tailRead) =>
      s.(consumer := if s.head == tailRead then PopCasTail(s.head) else PopLoadNext(s.head))
    case PopCasTail(headRead) =>
      if s.tail == headRead then s.(tail := NULLPTR, consumer := PopStoreHead(headRead))
      else s.(consumer := PopLoadNext(headRead))
    case PopStoreHead(headRead) =>
      s.(head := NULLPTR, consumer := PopTake(headRead))
    case PopLoadNext(headRead) =>
      if headRead !in s.heap then s.(fault := true)
      else
        var headNext := s.heap[headRead].next;
        s.(consumer := if headNext == NULLPTR then PopLoadTail else PopCasHead(headRead, headNext))
    case PopCasHead(headRead, headNext) =>
      if s.head == headRead then s.(head := headNext, consumer := PopTake(headRead))
      else s.(consumer := PopLoadTail)
    case PopTake(headRead) =>
      if headRead !in s.heap then s.(fault := true)
      else s.(consumer := PopDelete(headRead, s.heap[headRead].element))
    case PopDelete(headRead, element) =>
      if headRead !in s.heap then s.(fault := true)
      else s.(heap := s.heap - {headRead}, consumer := PopDone(Some(element)))
    case PopDone(_) => s.(consumer := Idle)
    case EmptyLoadHead => s.(consumer := EmptyDone(s.head == NULLPTR))
    case EmptyDone(_) => s.(consumer := Idle)
  }

  /** `new` may return any address that is not in use. */
  ghost predicate Enabled<E>(s: State<E>, a: Action<E>) {
    && !s.fault
    && match a
       case BeginPush(t, _, node) => t !in s.producers && node != NULLPTR && node !in s.heap
       case StepPush(t) => t in s.producers
       case BeginPop => s.consumer == Idle
       case BeginEmpty => s.consumer == Idle
       case StepPop => s.consumer != Idle
  }

  function Apply<E>(s: State<E>, a: Action<E>): State<E>
    requires a.StepPush? ==> a.t in s.producers
  {
    match a
    case BeginPush(t, x, node) =>
      Goto(s, t, PushLoadTail(node)).(heap := s.heap[node := Node(NULLPTR, x)])
    case StepPush(t) => StepProducer(s, t)
    case BeginPop => s.(consumer := PopLoadTail)
    case BeginEmpty => s.(consumer := EmptyLoadHead)
    case StepPop => StepConsumer(s)
  }

  ghost predicate Next<E>(s: State<E>, a: Action<E>, s': State<E>) {
    Enabled(s, a) && s' == Apply(s, a)
  }

  ghost predicate Run<E>(ss: seq<State<E>>, acts: seq<Action<E>>) {
    && |ss| == |acts| + 1
    && Init(ss[0])
    && forall i | 0 <= i < |acts| :: Next(ss[i], acts[i], ss[i + 1])
  }

  // ---------- the event each step stands for ----------

  function PushEvent<E>(s: State<E>, t: Tid): Spec.Event<E>
    requires t in s.producers
  {
    match s.producers[t]
    case PushStoreTail(node) => if node in s.heap then Spec.LinPush(t, s.heap[node].element) else Spec.Silent
    case PushCasTail(node, tailRead) =>
      if s.tail == tailRead && node in s.heap then Spec.LinPush(t, s.heap[node].element) else Spec.Silent
    case PushDone(onEmpty) => Spec.ReturnPush(t, onEmpty)
    case _ => Spec.Silent
  }

  function PopEvent<E>(s: State<E>): Spec.Event<E> {
    match s.consumer
    case PopLoadTail => if s.tail == NULLPTR then Spec.LinPop(None) else Spec.Silent
    case PopCasTail(headRead) =>
      if s.tail == headRead && headRead in s.heap then Spec.LinPop(Some(s.heap[headRead].element)) else Spec.Silent
    case PopCasHead(headRead, _) =>
      if s.head == headRead && headRead in s.heap then Spec.LinPop(Some(s.heap[headRead].element)) else Spec.Silent
    case PopDone(result) => Spec.ReturnPop(result)
    case EmptyLoadHead => Spec.LinEmpty(s.head == NULLPTR)
    case EmptyDone(answer) => Spec.ReturnEmpty(answer)
    case _ => Spec.Silent
  }

  function EventOf<E>(s: State<E>, a: Action<E>): Spec.Event<E>
    requires a.StepPush? ==> a.t in s.producers
  {
    match a
    case BeginPush(t, x, _) => Spec.InvokePush(t, x)
    case StepPush(t) => PushEvent(s, t)
    case BeginPop => Spec.InvokePop
    case BeginEmpty => Spec.InvokeEmpty
    case StepPop => PopEvent(s)
  }

  /** The events of a run, one per step. */
  ghost function Events<E>(ss: seq<State<E>>, acts: seq<Action<E>>): (es: seq<Spec.Event<E>>)
    requires Run(ss, acts)
    ensures |es| == |acts|
    ensures forall i | 0 <= i < |acts| :: Next(ss[i], acts[i], ss[i + 1]) && es[i] == EventOf(ss[i], acts[i])
  {
    seq(|acts|, i requires 0 <= i < |acts| && Next(ss[i], acts[i], ss[i + 1]) => EventOf(ss[i], acts[i]))
  }
}
