/**
 The reference queue: a first-in first-out sequence on which every operation takes effect in one
 indivisible step somewhere between its call and its return. Any number of threads push; one
 thread pops and asks for emptiness. An implementation each of whose runs is, event by event, a
 run of this machine is linearizable.
 */
module AtomicQueue {
  import opened Base

  /**
   Calls and returns are what a user of the queue can see. The `Lin` events name the instant at
   which an operation takes effect; everything else an implementation does is `Silent`.
   */
  datatype Event<E> =
    | Silent
    | InvokePush(t: Tid, x: E)
    | LinPush(t: Tid, x: E)
    | ReturnPush(t: Tid, onEmpty: bool)
    | InvokePop
    | LinPop(r: Option<E>)
    | ReturnPop(r: Option<E>)
    | InvokeEmpty
    | LinEmpty(b: bool)
    | ReturnEmpty(b: bool)

  datatype Pusher<E> = Invoked(x: E) | Linearized(wasEmpty: bool)

  datatype Popper<E> = Resting | Popping | Popped(r: Option<E>) | Testing | Tested(b: bool)

  datatype State<E> = State(queue: seq<E>, pushers: map<Tid, Pusher<E>>, popper: Popper<E>)

  ghost predicate Init<E>(s: State<E>) {
    s == State([], map[], Resting)
  }

  ghost predicate SomePushInvoked<E>(s: State<E>) {
    exists t :: t in s.pushers && s.pushers[t].Invoked?
  }

  ghost predicate Next<E>(s: State<E>, e: Event<E>, s': State<E>) {
    match e
    case Silent => s' == s
    case InvokePush(t, x) =>
      t !in s.pushers && s' == s.(pushers := s.pushers[t := Invoked(x)])
    case LinPush(t, x) =>
      && t in s.pushers && s.pushers[t] == Invoked(x)
      && s' == s.(queue := s.queue + [x], pushers := s.pushers[t := Linearized(s.queue == [])])
    case ReturnPush(t, onEmpty) =>
      && t in s.pushers && s.pushers[t] == Linearized(onEmpty)
      && s' == s.(pushers := s.pushers - {t})
    case InvokePop =>
      s.popper == Resting && s' == s.(popper := Popping)
    case LinPop(r) =>
      && s.popper == Popping
      && (match r
          case None => s.queue == [] && s' == s.(popper := Popped(r))
          case Some(x) =>
            s.queue != [] && x == s.queue[0] && s' == s.(queue := s.queue[1..], popper := Popped(r)))
    case ReturnPop(r) =>
      s.popper == Popped(r) && s' == s.(popper := Resting)
    case InvokeEmpty =>
      s.popper == Resting && s' == s.(popper := Testing)
    case LinEmpty(b) =>
      // "not empty" may be early: it may also come from a push that was called and has yet to take effect
      && s.popper == Testing && (b ==> s.queue == []) && (!b ==> s.queue != [] || SomePushInvoked(s))
      && s' == s.(popper := Tested(b))
    case ReturnEmpty(b) =>
      s.popper == Tested(b) && s' == s.(popper := Resting)
  }

  ghost predicate Run<E>(ss: seq<State<E>>, es: seq<Event<E>>) {
    && |ss| == |es| + 1
    && Init(ss[0])
    && forall i | 0 <= i < |es| :: Next(ss[i], es[i], ss[i + 1])
  }

  // ---------- what a run of events says happened ----------

  /** Elements in the order in which their pushes took effect. */
  ghost function Pushed<E>(es: seq<Event<E>>): seq<E> {
    if es == [] then []
    else
      var rest := Pushed(es[..|es| - 1]);
      match es[|es| - 1]
      case LinPush(_, x) => rest + [x]
      case _ => rest
  }

  /** Elements in the order in which their pops took effect. */
  ghost function Taken<E>(es: seq<Event<E>>): seq<E> {
    if es == [] then []
    else
      var rest := Taken(es[..|es| - 1]);
      match es[|es| - 1]
      case LinPop(Some(x)) => rest + [x]
      case _ => rest
  }

  /** Elements handed back to the popping thread. */
  ghost function Returned<E>(es: seq<Event<E>>): seq<E> {
    if es == [] then []
    else
      var rest := Returned(es[..|es| - 1]);
      match es[|es| - 1]
      case ReturnPop(Some(x)) => rest + [x]
      case _ => rest
  }

  /** Everything anyone asked to push. */
  ghost function Asked<E>(es: seq<Event<E>>): seq<E> {
    if es == [] then []
    else
      var rest := Asked(es[..|es| - 1]);
      match es[|es| - 1]
      case InvokePush(_, x) => rest + [x]
      case _ => rest
  }

  /** What thread `t` asked to push, in its own program order. */
  ghost function InvokedBy<E>(es: seq<Event<E>>, t: Tid): seq<E> {
    if es == [] then []
    else
      var rest := InvokedBy(es[..|es| - 1], t);
      match es[|es| - 1]
      case InvokePush(u, x) => if u == t then rest + [x] else rest
      case _ => rest
  }

  /** The part of `Pushed` that came from thread `t`. */
  ghost function PushedBy<E>(es: seq<Event<E>>, t: Tid): seq<E> {
    if es == [] then []
    else
      var rest := PushedBy(es[..|es| - 1], t);
      match es[|es| - 1]
      case LinPush(u, x) => if u == t then rest + [x] else rest
      case _ => rest
  }

  /** Whether the latest push of `t` to take effect found the queue empty. */
  ghost function FoundEmpty<E>(es: seq<Event<E>>, t: Tid): bool {
    if es == [] then false
    else
      var before := es[..|es| - 1];
      match es[|es| - 1]
      case LinPush(u, _) => if u == t then Pushed(before) == Taken(before) else FoundEmpty(before, t)
      case _ => FoundEmpty(before, t)
  }

  function InHand<E>(p: Popper<E>): seq<E> {
    match p
    case Popped(Some(x)) => [x]
    case _ => []
  }

  function Waiting<E>(s: State<E>, t: Tid): seq<E> {
    if t in s.pushers && s.pushers[t].Invoked? then [s.pushers[t].x] else []
  }

  lemma RunPrefix<E>(ss: seq<State<E>>, es: seq<Event<E>>, n: nat)
    requires Run(ss, es) && n <= |es|
    ensures Run(ss[..n + 1], es[..n])
  {
  }

  // ---------- one event more ----------

  function AskedNow<E>(e: Event<E>): seq<E> {
    if e.InvokePush? then [e.x] else []
  }

  function PushedNow<E>(e: Event<E>): seq<E> {
    if e.LinPush? then [e.x] else []
  }

  function TakenNow<E>(e: Event<E>): seq<E> {
    if e.LinPop? && e.r.Some? then [e.r.value] else []
  }

  function ReturnedNow<E>(e: Event<E>): seq<E> {
    if e.ReturnPop? && e.r.Some? then [e.r.value] else []
  }

  lemma OneMore<E>(es: seq<Event<E>>, e: Event<E>)
    ensures Asked(es + [e]) == Asked(es) + AskedNow(e)
    ensures Pushed(es + [e]) == Pushed(es) + PushedNow(e)
    ensures Taken(es + [e]) == Taken(es) + TakenNow(e)
    ensures Returned(es + [e]) == Returned(es) + ReturnedNow(e)
  {
    assert (es + [e])[..|es|] == es;
  }

  /** What enters the queue comes out later, what is taken is held until it is handed back. */
  lemma ElementsMove<E>(s: State<E>, e: Event<E>, s': State<E>)
    requires Next(s, e, s')
    ensures s.queue + PushedNow(e) == TakenNow(e) + s'.queue
    ensures InHand(s.popper) + TakenNow(e) == ReturnedNow(e) + InHand(s'.popper)
  {
  }

  lemma Regroup<E>(a: seq<E>, q: seq<E>, p: seq<E>, t: seq<E>, q': seq<E>)
    requires q + p == t + q'
    ensures a + q + p == a + t + q'
  {
    assert a + q + p == a + (q + p);
    assert a + t + q' == a + (t + q');
  }

  lemma FifoStep<E>(s: State<E>, e: Event<E>, s': State<E>, es: seq<Event<E>>)
    requires Next(s, e, s') && Pushed(es) == Taken(es) + s.queue && Taken(es) == Returned(es) + InHand(s.popper)
    ensures Pushed(es + [e]) == Taken(es + [e]) + s'.queue
    ensures Taken(es + [e]) == Returned(es + [e]) + InHand(s'.popper)
  {
    OneMore(es, e);
    ElementsMove(s, e, s');
    Regroup(Taken(es), s.queue, PushedNow(e), TakenNow(e), s'.queue);
    Regroup(Returned(es), InHand(s.popper), TakenNow(e), ReturnedNow(e), InHand(s'.popper));
  }

  /** First in, first out: pushes in effect order are the pops in effect order followed by the queue. */
  lemma {:induction false} Fifo<E>(ss: seq<State<E>>, es: seq<Event<E>>)
    requires Run(ss, es)
    ensures Pushed(es) == Taken(es) + ss[|es|].queue
    ensures Taken(es) == Returned(es) + InHand(ss[|es|].popper)
  {
    if es != [] {
      var n := |es| - 1;
      RunPrefix(ss, es, n);
      Fifo(ss[..n + 1], es[..n]);
      FifoStep(ss[n], es[n], ss[n + 1], es[..n]);
      assert es == es[..n] + [es[n]];
    }
  }

  /** A pop answers "nothing" only at an instant when everything pushed had been taken. */
  lemma NothingMeansEmpty<E>(ss: seq<State<E>>, es: seq<Event<E>>, i: nat)
    requires Run(ss, es) && i < |es|
    requires es[i] == LinPop(None) || es[i] == LinEmpty(true)
    ensures Pushed(es[..i]) == Taken(es[..i])
  {
    RunPrefix(ss, es, i);
    Fifo(ss[..i + 1], es[..i]);
    assert Next(ss[i], es[i], ss[i + 1]);
  }

  /** Each thread's elements take effect once each, in the order in which the thread pushed them. */
  lemma {:induction false} ProgramOrder<E>(ss: seq<State<E>>, es: seq<Event<E>>, t: Tid)
    requires Run(ss, es)
    ensures InvokedBy(es, t) == PushedBy(es, t) + Waiting(ss[|es|], t)
  {
    if es != [] {
      var n := |es| - 1;
      RunPrefix(ss, es, n);
      ProgramOrder(ss[..n + 1], es[..n], t);
      assert Next(ss[n], es[n], ss[n + 1]);
    }
  }

  lemma {:induction false} NotedEmpty<E>(ss: seq<State<E>>, es: seq<Event<E>>, t: Tid)
    requires Run(ss, es)
    requires t in ss[|es|].pushers && ss[|es|].pushers[t].Linearized?
    ensures ss[|es|].pushers[t].wasEmpty == FoundEmpty(es, t)
  {
    if es != [] {
      var n := |es| - 1;
      RunPrefix(ss, es, n);
      assert Next(ss[n], es[n], ss[n + 1]);
      if es[n].LinPush? && es[n].t == t {
        Fifo(ss[..n + 1], es[..n]);
      } else {
        NotedEmpty(ss[..n + 1], es[..n], t);
      }
    }
  }

  /** The emptiness callback fires for exactly the pushes that took the queue from empty to non-empty. */
  lemma NotifiedIffFoundEmpty<E>(ss: seq<State<E>>, es: seq<Event<E>>, i: nat)
    requires Run(ss, es) && i < |es| && es[i].ReturnPush?
    ensures es[i].onEmpty <==> FoundEmpty(es[..i], es[i].t)
  {
    RunPrefix(ss, es, i);
    assert Next(ss[i], es[i], ss[i + 1]);
    NotedEmpty(ss[..i + 1], es[..i], es[i].t);
  }

  // ---------- nothing appears from nowhere ----------

  /** The threads whose push of `x` has not taken effect yet. */
  ghost function WaitersFor<E>(pushers: map<Tid, Pusher<E>>, x: E): set<Tid> {
    set t | t in pushers && pushers[t] == Invoked(x)
  }

  lemma AskingAdds<E>(m: map<Tid, Pusher<E>>, t: Tid, y: E, x: E)
    requires t !in m
    ensures |WaitersFor(m[t := Invoked(y)], x)| == |WaitersFor(m, x)| + if y == x then 1 else 0
  {
    assert WaitersFor(m[t := Invoked(y)], x) == WaitersFor(m, x) + if y == x then {t} else {};
  }

  lemma TakingEffectDrops<E>(m: map<Tid, Pusher<E>>, t: Tid, y: E, b: bool, x: E)
    requires t in m && m[t] == Invoked(y)
    ensures |WaitersFor(m[t := Linearized(b)], x)| == |WaitersFor(m, x)| - if y == x then 1 else 0
  {
    assert y == x ==> t in WaitersFor(m, x);
    assert WaitersFor(m[t := Linearized(b)], x) == WaitersFor(m, x) - if y == x then {t} else {};
  }

  lemma ReturningKeeps<E>(m: map<Tid, Pusher<E>>, t: Tid, x: E)
    requires t in m && m[t].Linearized?
    ensures WaitersFor(m - {t}, x) == WaitersFor(m, x)
  {
  }

  lemma WaitersMove<E>(s: State<E>, e: Event<E>, s': State<E>, x: E)
    requires Next(s, e, s')
    ensures |WaitersFor(s'.pushers, x)| ==
            |WaitersFor(s.pushers, x)|
            + (if e.InvokePush? && e.x == x then 1 else 0) - (if e.LinPush? && e.x == x then 1 else 0)
  {
    if e.InvokePush? {
      AskingAdds(s.pushers, e.t, e.x, x);
    } else if e.LinPush? {
      TakingEffectDrops(s.pushers, e.t, e.x, s.queue == [], x);
    } else if e.ReturnPush? {
      ReturningKeeps(s.pushers, e.t, x);
    } else {
      assert s'.pushers == s.pushers;
    }
  }

  lemma {:induction false} Balance<E>(ss: seq<State<E>>, es: seq<Event<E>>, x: E)
    requires Run(ss, es)
    ensures multiset(Asked(es))[x] == multiset(Pushed(es))[x] + |WaitersFor(ss[|es|].pushers, x)|
  {
    if es == [] {
      assert WaitersFor(ss[0].pushers, x) == {};
    } else {
      var n := |es| - 1;
      RunPrefix(ss, es, n);
      Balance(ss[..n + 1], es[..n], x);
      assert Next(ss[n], es[n], ss[n + 1]);
      WaitersMove(ss[n], es[n], ss[n + 1], x);
    }
  }

  /** Whatever is handed back was asked for, at least as many times. */
  lemma ReturnedWasAsked<E(!new)>(ss: seq<State<E>>, es: seq<Event<E>>)
    requires Run(ss, es)
    ensures multiset(Returned(es)) + multiset(InHand(ss[|es|].popper)) + multiset(ss[|es|].queue) <= multiset(Asked(es))
  {
    Fifo(ss, es);
    assert multiset(Pushed(es)) ==
           multiset(Returned(es)) + multiset(InHand(ss[|es|].popper)) + multiset(ss[|es|].queue);
    forall x ensures multiset(Pushed(es))[x] <= multiset(Asked(es))[x] {
      Balance(ss, es, x);
    }
  }

  lemma RunExtends<E>(ss: seq<State<E>>, es: seq<Event<E>>, e: Event<E>, s': State<E>)
    requires Run(ss, es) && Next(ss[|es|], e, s')
    ensures Run(ss + [s'], es + [e])
  {
  }
}
