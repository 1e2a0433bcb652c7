/** What the invariant of the lock-free queue says about a state. */
module QueueShape {
  import opened Base
  import opened LockFreeQueue
  import opened QueueInvariant

  // ---------- the half-open states ----------

  ghost predicate OwnsHalfOpen<E>(s: State<E>, t: Tid) {
    t in s.producers && s.producers[t].PushStoreTail?
  }

  /**
   `head_` null implies `tail_` null. While `head_` is set and `tail_` null exactly one thread is
   at work there, and when it makes its plain store the other word is as it left it.
   */
  lemma HalfOpenOwned<E>(s: State<E>, g: Shape)
    requires Inv(s, g)
    ensures s.head == NULLPTR ==> s.tail == NULLPTR
    ensures forall t, u | OwnsHalfOpen(s, t) && OwnsHalfOpen(s, u) :: t == u
    ensures forall t | OwnsHalfOpen(s, t) ::
              !s.consumer.PopStoreHead? && s.tail == NULLPTR && s.head == s.producers[t].node
    ensures s.consumer.PopStoreHead? ==> s.tail == NULLPTR && s.head == s.consumer.headRead
    ensures (s.head != NULLPTR && s.tail == NULLPTR) <==>
            (s.consumer.PopStoreHead? || exists t :: OwnsHalfOpen(s, t))
  {
    EmptyTail(s, g);
    forall t | OwnsHalfOpen(s, t)
      ensures g.holder[s.head] == t && !s.consumer.PopStoreHead? && s.tail == NULLPTR
      ensures s.head == s.producers[t].node && s.head != NULLPTR
    {
      assert ProducerInv(s, g, t, s.producers[t]);
    }
    if s.head != NULLPTR && s.tail == NULLPTR && !s.consumer.PopStoreHead? {
      assert OwnsHalfOpen(s, g.holder[s.head]);
    }
  }

  // ---------- the chain ----------

  /** Thread `t` has won the CAS on `tail_` and not yet stored the link out of `a`. */
  ghost predicate OwesLink<E>(s: State<E>, t: Tid, a: Addr) {
    t in s.producers && s.producers[t].PushStoreNext? && s.producers[t].tailRead == a
  }

  /**
   Each link of the chain is in memory, or missing and owed by exactly one thread, which will store
   just the missing address; a thread owes only links of nodes still in the chain.
   */
  lemma LinkOwedOnce<E>(s: State<E>, g: Shape, i: nat)
    requires Inv(s, g) && i + 1 < |g.chain|
    ensures g.chain[i] in s.heap
    ensures s.heap[g.chain[i]].next == g.chain[i + 1] || s.heap[g.chain[i]].next == NULLPTR
    ensures s.heap[g.chain[i]].next == NULLPTR <==> exists t :: OwesLink(s, t, g.chain[i])
    ensures forall t, u | OwesLink(s, t, g.chain[i]) && OwesLink(s, u, g.chain[i]) :: t == u
    ensures forall t | OwesLink(s, t, g.chain[i]) :: s.producers[t].node == g.chain[i + 1]
  {
    var a := g.chain[i];
    assert LinkInv(s, g, g.chain[i], g.chain[i + 1]);
    assert g.chain[i + 1] in g.chain;
    if a in g.debtor { assert OwesLink(s, g.debtor[a], a); }
    forall t | OwesLink(s, t, a) ensures a in g.debtor && t == g.debtor[a] {
      assert ProducerInv(s, g, t, s.producers[t]);
    }
  }

  lemma DebtQueued<E>(s: State<E>, g: Shape, t: Tid, a: Addr)
    requires Inv(s, g) && OwesLink(s, t, a)
    ensures a in s.heap && a in g.chain && a != s.tail
  {
  }

  // ---------- nodes ----------

  ghost predicate Quiescent<E>(s: State<E>) {
    s.producers == map[] && s.consumer == Idle
  }

  /** Follow stored links for `n` nodes. */
  ghost function Walk<E>(heap: map<Addr, Node<E>>, a: Addr, n: nat): seq<Addr>
    decreases n
  {
    if n == 0 || a !in heap then [] else [a] + Walk(heap, heap[a].next, n - 1)
  }

  lemma WalkIsChain<E>(s: State<E>, g: Shape, i: nat)
    requires Inv(s, g) && s.producers == map[] && i < |g.chain|
    ensures forall n: nat | n >= |g.chain| - i :: Walk(s.heap, g.chain[i], n) == g.chain[i..]
    decreases |g.chain| - i
  {
    assert g.chain[i] in g.chain;
    if i + 1 < |g.chain| {
      assert LinkInv(s, g, g.chain[i], g.chain[i + 1]);
      WalkIsChain(s, g, i + 1);
    }
    forall n: nat | n >= |g.chain| - i ensures Walk(s.heap, g.chain[i], n) == g.chain[i..] {
      assert g.chain[i..] == [g.chain[i]] + g.chain[i + 1..];
      if i + 1 == |g.chain| { assert s.heap[g.chain[i]].next == NULLPTR; }
    }
  }

  /**
   When no operation is in progress the stored links alone spell out the queue, and the queued
   nodes are the only ones allocated: nothing popped is still live and nothing has leaked.
   */
  lemma QuiescentChain<E>(s: State<E>, g: Shape)
    requires Inv(s, g) && Quiescent(s)
    ensures s.heap.Keys == Members(g.chain)
    ensures |s.heap| == |g.chain|
    ensures Walk(s.heap, s.head, |s.heap|) == g.chain
    ensures s.head == NULLPTR <==> s.tail == NULLPTR
  {
    EmptyTail(s, g);
    forall a | a in s.heap ensures a in g.chain {
      assert a in g.chain || a in g.holder;
    }
    DistinctCount(g.chain);
    assert s.heap.Keys == Members(g.chain);
    assert |s.heap| == |s.heap.Keys|;
    if g.chain != [] { WalkIsChain(s, g, 0); }
  }

  ghost function Members(chain: seq<Addr>): set<Addr> {
    set a | a in chain
  }

  lemma DistinctCount(chain: seq<Addr>)
    requires forall i, j | 0 <= i < j < |chain| :: chain[i] != chain[j]
    ensures |Members(chain)| == |chain|
  {
    if chain != [] {
      var rest := chain[1..];
      DistinctCount(rest);
      assert chain == [chain[0]] + rest;
      assert Members(chain) == {chain[0]} + Members(rest);
    }
  }
}
