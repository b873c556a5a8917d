/** The monitor layer of the communicator: mutual exclusion with hand-off, and no wake-up is
    lost between a condition variable and the semaphores it is built from. */
module RendezvousLocks {
  import opened Helpers
  import opened Rendezvous

  // ----- The lock -----

  /** Places inside the monitor. */
  predicate Inside(pc: Pc) { pc != Out && !Acquires(pc) && !pc.Park? }

  /** A thread is inside exactly when it holds the lock, and in the line of the lock exactly
      when it sleeps in an acquire. */
  ghost predicate LockThread(s: State, t: nat)
    requires t < |s.threads|
  {
    var th := s.threads[t];
    && (Inside(th.pc) <==> s.holder == Some(t))
    && (th.blocked ==> Acquires(th.pc) || th.pc.Park?)
    && (t in s.lockQ <==> th.blocked && Acquires(th.pc))
  }

  ghost predicate LockOk(s: State)
  {
    && (forall t :: 0 <= t < |s.threads| ==> LockThread(s, t))
    && (s.holder.Some? ==> s.holder.value < |s.threads|)
    && (s.holder == None ==> s.lockQ == [])
    && (forall u :: u in s.lockQ ==> u < |s.threads|)
    && Distinct(s.lockQ)
  }

  /** Thread `x` looks the same to the lock. */
  predicate SameToLock(a: Thread, b: Thread)
  {
    && Inside(a.pc) == Inside(b.pc)
    && (a.blocked && Acquires(a.pc)) == (b.blocked && Acquires(b.pc))
    && (b.blocked ==> Acquires(b.pc) || b.pc.Park?)
  }

  lemma LockFrame(s: State, s': State)
    requires LockOk(s) && s'.holder == s.holder && s'.lockQ == s.lockQ && |s'.threads| == |s.threads|
    requires forall x :: 0 <= x < |s.threads| ==> SameToLock(s.threads[x], s'.threads[x])
    ensures LockOk(s')
  {
    forall x | 0 <= x < |s'.threads| ensures LockThread(s', x) {
      assert LockThread(s, x);
      assert SameToLock(s.threads[x], s'.threads[x]);
    }
  }

  lemma AcquireKeepsLock(s: State, t: nat)
    requires LockOk(s) && t < |s.threads| && !s.threads[t].blocked && Acquires(s.threads[t].pc)
    ensures LockOk(Acquire(s, t))
  {
    var s' := Acquire(s, t);
    assert LockThread(s, t);
    DistinctAppend(s.lockQ, t);
    hide Distinct;
    forall x | 0 <= x < |s'.threads| ensures LockThread(s', x) {
      assert LockThread(s, x);
    }
  }

  /** The holder leaves the monitor to `pc`, and the next in line is inside. */
  lemma ReleaseKeepsLock(s: State, t: nat, pc: Pc)
    requires LockOk(s) && t < |s.threads| && s.holder == Some(t) && !s.threads[t].blocked && (pc == Out || pc.Park?)
    ensures s.lockQ != [] ==> s.lockQ[0] < |s.threads| && s.lockQ[0] != t
    ensures LockOk(Release(s.At(t, pc)))
  {
    hide Distinct;
    assert LockThread(s, t);
    if s.lockQ != [] {
      assert s.lockQ[0] in s.lockQ && LockThread(s, s.lockQ[0]);
      DistinctTail(s.lockQ);
    }
    var s' := Release(s.At(t, pc));
    forall x | 0 <= x < |s'.threads| ensures LockThread(s', x) {
      assert LockThread(s, x);
    }
  }

  // ----- Conditions and semaphores -----

  /** Between joining the queue of a condition and passing P. */
  predicate Waits(pc: Pc) { pc.Rel? || pc.Park? }

  /** A waiting thread owns its semaphore. Either the semaphore is still queued and nobody has
      signalled it, or it has left the queue and its signal is kept until the thread passes P. */
  ghost predicate SemThread(s: State, t: nat)
    requires t < |s.threads|
  {
    var th := s.threads[t];
    Waits(th.pc) ==>
      && th.sem < |s.sems| && s.sems[th.sem].owner == t
      && if th.sem in s.Queue(th.pc.c) then s.sems[th.sem] == Sem(0, if th.blocked then [t] else [], t)
         else th.pc.Park? && !th.blocked && s.sems[th.sem] == Sem(1, [], t)
  }

  /** Every queued semaphore belongs to a thread that waits on that condition. */
  ghost predicate QueueEntry(s: State, c: Cond, id: nat)
  {
    && id < |s.sems| && s.sems[id].owner < |s.threads|
    && var th := s.threads[s.sems[id].owner]; Waits(th.pc) && th.pc.c == c && th.sem == id
  }

  ghost predicate Distinct(q: seq<nat>)
  {
    forall i, j :: 0 <= i < j < |q| ==> q[i] != q[j]
  }

  lemma DistinctTail(q: seq<nat>)
    requires Distinct(q) && q != []
    ensures Distinct(q[1..]) && q[0] !in q[1..]
    ensures forall x :: x in q <==> x == q[0] || x in q[1..]
  {
  }

  lemma DistinctAppend(q: seq<nat>, x: nat)
    requires Distinct(q) && x !in q
    ensures Distinct(q + [x])
  {
  }

  ghost predicate QueueOk(s: State, c: Cond)
  {
    Distinct(s.Queue(c)) && forall id: nat :: id in s.Queue(c) ==> QueueEntry(s, c, id)
  }

  ghost predicate SemsOk(s: State)
  {
    && (forall t :: 0 <= t < |s.threads| ==> SemThread(s, t))
    && QueueOk(s, Listeners) && QueueOk(s, Speakers) && QueueOk(s, Pairs)
  }

  /** A thread looks the same to the conditions. */
  predicate SameToSems(a: Thread, b: Thread)
  {
    Waits(a.pc) == Waits(b.pc) && (Waits(a.pc) ==> a.pc == b.pc && a.sem == b.sem && a.blocked == b.blocked)
  }

  lemma SemsFrame(s: State, s': State)
    requires SemsOk(s) && s'.sems == s.sems && |s'.threads| == |s.threads|
    requires s'.listeners == s.listeners && s'.speakers == s.speakers && s'.pairs == s.pairs
    requires forall x :: 0 <= x < |s.threads| ==> SameToSems(s.threads[x], s'.threads[x])
    ensures SemsOk(s')
  {
    forall x | 0 <= x < |s'.threads| ensures SemThread(s', x) {
      assert SemThread(s, x) && SameToSems(s.threads[x], s'.threads[x]);
    }
    forall c: Cond ensures QueueOk(s', c) {
      assert QueueOk(s, c) && s'.Queue(c) == s.Queue(c);
      forall id: nat | id in s'.Queue(c) ensures QueueEntry(s', c, id) {
        assert QueueEntry(s, c, id);
        var o := s.sems[id].owner;
        assert SameToSems(s.threads[o], s'.threads[o]);
      }
    }
  }

  /** What falling asleep does to the conditions. */
  ghost predicate Enqueued(s: State, t: nat, c: Cond, s': State)
    requires t < |s.threads|
  {
    && s'.sems == s.sems + [Sem(0, [], t)]
    && s'.threads == s.threads[t := s.threads[t].(sem := |s.sems|, pc := Rel(c))]
    && (forall d :: s'.Queue(d) == if d == c then s.Queue(d) + [|s.sems|] else s.Queue(d))
  }

  lemma EnqueueKeepsQueue(s: State, t: nat, c: Cond, s': State, d: Cond)
    requires QueueOk(s, d) && t < |s.threads| && !Waits(s.threads[t].pc) && Enqueued(s, t, c, s')
    ensures QueueOk(s', d)
  {
    var q, id := s.Queue(d), |s.sems|;
    assert id in q ==> QueueEntry(s, d, id);
    if d == c { DistinctAppend(q, id); }
    forall x: nat | x in s'.Queue(d) ensures QueueEntry(s', d, x) {
      if x != id { assert QueueEntry(s, d, x); }
    }
  }

  lemma EnqueueKeepsThread(s: State, t: nat, c: Cond, s': State, x: nat)
    requires SemsOk(s) && t < |s.threads| && !s.threads[t].blocked && Enqueued(s, t, c, s') && x < |s.threads|
    ensures SemThread(s', x)
  {
    assert SemThread(s, x);
    if x == t {
      assert s'.Queue(c)[|s.Queue(c)|] == |s.sems|;
    } else if Waits(s.threads[x].pc) {
      var d, id := s.threads[x].pc.c, s.threads[x].sem;
      assert id in s'.Queue(d) <==> id in s.Queue(d);
    }
  }

  /** Falling asleep: nothing that waited before is disturbed. */
  lemma EnqueueKeepsSems(s: State, t: nat, c: Cond)
    requires SemsOk(s) && t < |s.threads| && !s.threads[t].blocked && !Waits(s.threads[t].pc)
    ensures SemsOk(Enqueue(s, t, c)) && Enqueued(s, t, c, Enqueue(s, t, c))
  {
    var s' := Enqueue(s, t, c);
    assert Enqueued(s, t, c, s');
    hide Enqueue, Enqueued, QueueOk, SemThread;
    forall x | 0 <= x < |s'.threads| ensures SemThread(s', x) {
      EnqueueKeepsThread(s, t, c, s', x);
    }
    EnqueueKeepsQueue(s, t, c, s', Listeners);
    EnqueueKeepsQueue(s, t, c, s', Speakers);
    EnqueueKeepsQueue(s, t, c, s', Pairs);
  }

  /** Passing P or going to sleep in it. */
  lemma PKeepsSems(s: State, t: nat)
    requires SemsOk(s) && t < |s.threads| && !s.threads[t].blocked && s.threads[t].pc.Park?
    ensures s.threads[t].sem < |s.sems| && SemsOk(P(s, t))
  {
    assert SemThread(s, t);
    var s' := P(s, t);
    forall x | 0 <= x < |s'.threads| ensures SemThread(s', x) {
      assert SemThread(s, x);
    }
    forall d: Cond ensures QueueOk(s', d) {
      assert QueueOk(s, d) && s'.Queue(d) == s.Queue(d);
      forall id: nat | id in s'.Queue(d) ensures QueueEntry(s', d, id) {
        assert QueueEntry(s, d, id);
      }
    }
  }

  /** The first thread in the queue of a condition. */
  ghost function FirstOf(s: State, c: Cond): (o: nat)
    requires QueueOk(s, c) && s.Queue(c) != []
    ensures o < |s.threads| && Waits(s.threads[o].pc) && s.threads[o].pc.c == c && s.threads[o].sem == s.Queue(c)[0]
  {
    assert s.Queue(c)[0] in s.Queue(c) && QueueEntry(s, c, s.Queue(c)[0]);
    s.sems[s.Queue(c)[0]].owner
  }

  /** What a wake-up does: the first thread `o` leaves the queue; it is past P if it slept there,
      and otherwise its signal is kept. */
  ghost predicate Woke(s: State, c: Cond, o: nat, s': State)
    requires s.Queue(c) != [] && o < |s.threads|
  {
    var id, th := s.Queue(c)[0], s.threads[o];
    && id < |s.sems|
    && s' == s.WithQueue(c, s.Queue(c)[1..]).(sems := s'.sems, threads := s'.threads)
    && s'.sems == s.sems[id := Sem(if th.blocked then 0 else 1, [], o)]
    && s'.threads == s.threads[o := if th.blocked then th.(blocked := false, pc := Reacq(c)) else th]
  }

  lemma WakeIsWoke(s: State, c: Cond)
    requires SemsOk(s) && QueueOk(s, c) && s.Queue(c) != [] && s.threads[FirstOf(s, c)].pc.Park?
    ensures CanWake(s, c) && Woke(s, c, FirstOf(s, c), Wake(s, c))
  {
    var id, o := s.Queue(c)[0], FirstOf(s, c);
    assert QueueEntry(s, c, id) && id in s.Queue(c) && SemThread(s, o);
    assert s.threads[o := s.threads[o]] == s.threads;
    assert [o][1..] == [];
  }

  lemma WokeKeepsQueues(s: State, c: Cond, o: nat, s': State, d: Cond)
    requires SemsOk(s) && QueueOk(s, c) && QueueOk(s, d) && s.Queue(c) != [] && o == FirstOf(s, c) && s.threads[o].pc.Park?
    requires Woke(s, c, o, s')
    ensures QueueOk(s', d) && s'.Queue(d) == if d == c then s.Queue(d)[1..] else s.Queue(d)
  {
    hide SemsOk, Distinct;
    var id := s.Queue(c)[0];
    assert id in s.Queue(c) && QueueEntry(s, c, id);
    DistinctTail(s.Queue(c));
    forall x: nat | x in s'.Queue(d) ensures QueueEntry(s', d, x) {
      assert QueueEntry(s, d, x);
    }
  }

  lemma WokeKeepsThreads(s: State, c: Cond, o: nat, s': State, x: nat)
    requires SemsOk(s) && QueueOk(s, c) && s.Queue(c) != [] && o == FirstOf(s, c) && s.threads[o].pc.Park?
    requires Woke(s, c, o, s') && x < |s.threads|
    ensures SemThread(s', x) && s.Queue(c)[0] !in s.Queue(c)[1..]
  {
    var id := s.Queue(c)[0];
    assert id in s.Queue(c) && QueueEntry(s, c, id) && SemThread(s, x) && SemThread(s, o);
    DistinctTail(s.Queue(c));
    assert x != o && Waits(s.threads[x].pc) ==> s.threads[x].sem != id;
  }

  /** A wake-up reaches exactly the first thread in the queue and disturbs no other. */
  lemma WakeKeepsSems(s: State, c: Cond)
    requires SemsOk(s) && QueueOk(s, c) && s.Queue(c) != [] && s.threads[FirstOf(s, c)].pc.Park?
    ensures CanWake(s, c) && SemsOk(Wake(s, c)) && Woke(s, c, FirstOf(s, c), Wake(s, c))
    ensures s.Queue(c)[0] !in s.Queue(c)[1..]
  {
    WakeIsWoke(s, c);
    var s' := Wake(s, c);
    hide Wake, QueueOk, SemThread;
    forall x | 0 <= x < |s'.threads| ensures SemThread(s', x) {
      WokeKeepsThreads(s, c, FirstOf(s, c), s', x);
    }
    WokeKeepsThreads(s, c, FirstOf(s, c), s', FirstOf(s, c));
    WokeKeepsQueues(s, c, FirstOf(s, c), s', Listeners);
    WokeKeepsQueues(s, c, FirstOf(s, c), s', Speakers);
    WokeKeepsQueues(s, c, FirstOf(s, c), s', Pairs);
  }
}
