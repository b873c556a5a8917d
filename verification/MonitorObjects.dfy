/** The lock, the semaphores and the condition variables as objects with queues of their own, as
    the program has them: a condition queues semaphore objects, and a sleeping thread keeps the one
    it made. The state machine knows semaphores by number only. */
module MonitorObjects {
  import opened Helpers
  import R = Rendezvous
  import opened RendezvousLocks
  import opened RendezvousProtocol
  import opened RendezvousSteps

  /** Thread `t` is inside the monitor and not falling asleep. */
  ghost predicate Attends(s: R.State, t: nat)
  {
    LockOk(s) && SemsOk(s) && t < |s.threads| && Inside(s.threads[t].pc) && !s.threads[t].pc.Rel?
  }

  /** A thread that waited on `c` and left its queue is on its way back; all others are where they
      were. */
  ghost predicate Roused(s: R.State, c: R.Cond, s': R.State, x: nat)
    requires x < |s.threads| == |s'.threads|
  {
    if Waits(s.threads[x].pc) && s.threads[x].pc.c == c then
      Woken(s', c, x) || (s'.threads[x] == s.threads[x] && s.threads[x].sem in s'.Queue(c))
    else s'.threads[x] == s.threads[x]
  }

  lemma WakeOne(s: R.State, c: R.Cond, t: nat)
    requires Attends(s, t) && s.Queue(c) != []
    ensures R.CanWake(s, c)
    ensures var s' := R.Wake(s, c);
      Attends(s', t) && s'.Queue(c) == s.Queue(c)[1..] && |s'.threads| == |s.threads|
      && forall x :: 0 <= x < |s.threads| ==> Roused(s, c, s', x)
  {
    Alone(s, t);
    QueueIsOk(s, c);
    var o := FirstOf(s, c);
    WakeKeepsSems(s, c);
    var s' := R.Wake(s, c);
    hide R.Wake, SemsOk, QueueOk, Inside, Roused, Waits, LockOk;
    WokeKeepsLock(s, c, o, s');
    AttenderStays(s, c, o, s', t);
    forall x | 0 <= x < |s.threads| ensures Roused(s, c, s', x) {
      WokeRouses(s, c, o, s', x);
    }
  }

  lemma QueueIsOk(s: R.State, c: R.Cond)
    requires SemsOk(s)
    ensures QueueOk(s, c)
  {
    hide QueueOk, SemThread;
  }

  lemma AttenderStays(s: R.State, c: R.Cond, o: nat, s': R.State, t: nat)
    requires s.Queue(c) != [] && o < |s.threads| && s.threads[o].pc == R.Park(c) && Woke(s, c, o, s')
    requires t < |s.threads| && Inside(s.threads[t].pc)
    ensures |s'.threads| == |s.threads| && s'.threads[t] == s.threads[t] && s'.Queue(c) == s.Queue(c)[1..]
  {
  }

  lemma WokeRouses(s: R.State, c: R.Cond, o: nat, s': R.State, x: nat)
    requires SemsOk(s) && x < |s.threads| == |s'.threads| && o < |s.threads| && !s.threads[x].pc.Rel?
    requires s.Queue(c) != [] && s.threads[o].pc == R.Park(c) && s.threads[o].sem == s.Queue(c)[0] && Woke(s, c, o, s')
    requires s.Queue(c)[0] !in s.Queue(c)[1..]
    ensures Roused(s, c, s', x)
  {
    hide QueueOk;
    assert SemThread(s, x);
    assert s'.Queue(c) == s.Queue(c)[1..];
    assert forall id :: id in s.Queue(c) ==> id == s.Queue(c)[0] || id in s.Queue(c)[1..];
  }

  /** The state after every thread in the queue of `c` was woken in turn. */
  ghost function WakeAll(s: R.State, c: R.Cond, t: nat): R.State
    requires Attends(s, t)
    decreases |s.Queue(c)|
  {
    if s.Queue(c) == [] then s
    else
      WakeOne(s, c, t);
      WakeAll(R.Wake(s, c), c, t)
  }

  /** No thread is left waiting on `c`, and no other thread is touched. */
  lemma {:induction false} WakeAllReachesAll(s: R.State, c: R.Cond, t: nat, x: nat)
    requires Attends(s, t) && x < |s.threads|
    ensures var s' := WakeAll(s, c, t); Attends(s', t) && s'.Queue(c) == [] && |s'.threads| == |s.threads|
    ensures var s' := WakeAll(s, c, t);
      if Waits(s.threads[x].pc) && s.threads[x].pc.c == c then Woken(s', c, x) else s'.threads[x] == s.threads[x]
    decreases |s.Queue(c)|
  {
    hide LockOk, SemThread, QueueOk, R.Wake, Inside;
    if s.Queue(c) == [] {
      WaitersArePast(s, c, t, x);
    } else {
      WakeOne(s, c, t);
      var s' := R.Wake(s, c);
      hide Attends;
      assert Roused(s, c, s', x);
      WakeAllReachesAll(s', c, t, x);
    }
  }

  lemma WaitersArePast(s: R.State, c: R.Cond, t: nat, x: nat)
    requires Attends(s, t) && x < |s.threads| && s.Queue(c) == []
    ensures Waits(s.threads[x].pc) && s.threads[x].pc.c == c ==> Woken(s, c, x)
  {
    assert SemThread(s, x);
  }

  // ----- The objects -----

  class Semaphore {
    /** The place among all semaphores ever made, and the thread it was made for. */
    ghost const id: nat
    ghost const owner: nat
    var value: nat
    var waitQueue: seq<nat>

    constructor (initialValue: nat, ghost id: nat, ghost owner: nat)
      ensures value == initialValue && waitQueue == [] && this.id == id && this.owner == owner
    {
      value, waitQueue := initialValue, [];
      this.id, this.owner := id, owner;
    }

    /** Tells whether thread `t` has to sleep. */
    method P(t: nat) returns (sleeps: bool)
      modifies this
      ensures sleeps == (old(value) == 0)
      ensures if sleeps then value == 0 && waitQueue == old(waitQueue) + [t]
              else value == old(value) - 1 && waitQueue == old(waitQueue)
    {
      if value == 0 {
        waitQueue := waitQueue + [t];
        return true;
      }
      value := value - 1;
      return false;
    }

    /** The thread to wake, if any. */
    method V() returns (thread: Option<nat>)
      modifies this
      ensures if old(waitQueue) == [] then thread == None && value == old(value) + 1 && waitQueue == []
              else thread == Some(old(waitQueue)[0]) && value == old(value) && waitQueue == old(waitQueue)[1..]
    {
      if waitQueue != [] {
        thread := Some(waitQueue[0]);
        waitQueue := waitQueue[1..];
      } else {
        thread := None;
        value := value + 1;
      }
    }
  }

  class Lock {
    var lockHolder: Option<nat>
    var waitQueue: seq<nat>

    constructor ()
      ensures lockHolder == None && waitQueue == []
    {
      lockHolder, waitQueue := None, [];
    }

    /** Tells whether thread `t` has to sleep. */
    method Acquire(t: nat) returns (sleeps: bool)
      modifies this
      ensures sleeps == (old(lockHolder) != None)
      ensures if sleeps then lockHolder == old(lockHolder) && waitQueue == old(waitQueue) + [t]
              else lockHolder == Some(t) && waitQueue == old(waitQueue)
    {
      if lockHolder != None {
        waitQueue := waitQueue + [t];
        return true;
      }
      lockHolder := Some(t);
      return false;
    }

    /** Hands the lock to the thread next in line, which is to be woken. */
    method Release() returns (next: Option<nat>)
      modifies this
      ensures if old(waitQueue) == [] then next == None && waitQueue == []
              else next == Some(old(waitQueue)[0]) && waitQueue == old(waitQueue)[1..]
      ensures lockHolder == next
    {
      if waitQueue == [] {
        next := None;
      } else {
        next := Some(waitQueue[0]);
        waitQueue := waitQueue[1..];
      }
      lockHolder := next;
    }
  }

  class Condition {
    var waitQueue: seq<Semaphore>

    constructor ()
      ensures waitQueue == []
    {
      waitQueue := [];
    }
  }

  /** A thread: where it stands, whether it sleeps, its word and the place of its deposit, and the
      semaphore it made for its latest sleep. */
  datatype KThread = KThread(pc: R.Pc, blocked: bool, word: int, slot: nat, waiter: Semaphore?)

  ghost function Ids(q: seq<Semaphore>): seq<nat>
  {
    seq(|q|, i requires 0 <= i < |q| => q[i].id)
  }

  ghost function ThreadOf(p: KThread): R.Thread
  {
    R.Thread(p.pc, p.blocked, if p.waiter == null then 0 else p.waiter.id, p.word, p.slot)
  }

  // ----- The communicator -----

  class Communicator {
    const mylock: Lock
    const listeners: Condition
    const speakers: Condition
    const pairs: Condition
    var spoken: bool
    var myword: int
    var numberOfSpeakers: int
    var threads: seq<KThread>
    /** What was said and heard, and all semaphores ever made. */
    var events: seq<R.Event>
    ghost var made: seq<Semaphore>

    /** `s` is known by its number. */
    ghost predicate Known(s: Semaphore)
      reads this
    {
      s.id < |made| && made[s.id] == s
    }

    ghost predicate Valid()
      reads this, listeners, speakers, pairs
    {
      && listeners != speakers && listeners != pairs && speakers != pairs
      && (forall i :: 0 <= i < |made| ==> made[i].id == i)
      && (forall s :: s in listeners.waitQueue ==> Known(s))
      && (forall s :: s in speakers.waitQueue ==> Known(s))
      && (forall s :: s in pairs.waitQueue ==> Known(s))
      && (forall t :: 0 <= t < |threads| ==> ThreadOk(threads[t]))
    }

    ghost predicate ThreadOk(p: KThread)
      reads this
    {
      (p.waiter != null ==> Known(p.waiter)) && (Waits(p.pc) ==> p.waiter != null)
    }

    ghost function Sems(): (r: seq<R.Sem>)
      reads this, made
      ensures |r| == |made| && forall i :: 0 <= i < |r| ==> r[i] == R.Sem(made[i].value, made[i].waitQueue, made[i].owner)
    {
      seq(|made|, i requires 0 <= i < |made| reads this, made => R.Sem(made[i].value, made[i].waitQueue, made[i].owner))
    }

    ghost function Threads(): (r: seq<R.Thread>)
      reads this
      ensures |r| == |threads| && forall t :: 0 <= t < |r| ==> r[t] == ThreadOf(threads[t])
    {
      seq(|threads|, t requires 0 <= t < |threads| reads this => ThreadOf(threads[t]))
    }

    ghost function Model(): R.State
      reads this, mylock, listeners, speakers, pairs, made
    {
      R.State(mylock.lockHolder, mylock.waitQueue, Sems(), Ids(listeners.waitQueue), Ids(speakers.waitQueue),
              Ids(pairs.waitQueue), spoken, myword, numberOfSpeakers, Threads(), events)
    }

    constructor (n: nat)
      ensures Valid() && Model() == R.Init(n)
    {
      mylock := new Lock();
      listeners := new Condition();
      speakers := new Condition();
      pairs := new Condition();
      spoken, myword, numberOfSpeakers := false, 0, 0;
      threads, made, events := seq(n, i => KThread(R.Out, false, 0, 0, null)), [], [];
      new;
      assert Threads() == R.Init(n).threads;
    }

    function Cond(c: R.Cond): Condition
    {
      match c case Listeners => listeners case Speakers => speakers case Pairs => pairs
    }

    method SetPc(t: nat, pc: R.Pc)
      requires Valid() && t < |threads| && (Waits(pc) ==> threads[t].waiter != null)
      modifies this`threads
      ensures Valid() && Model() == old(Model()).At(t, pc)
    {
      threads := threads[t := threads[t].(pc := pc)];
      assert Threads() == old(Threads())[t := ThreadOf(threads[t])];
    }

    /** `sleep` of a thread, and `ready` of another at the place `pc`. */
    method Sleep(t: nat)
      requires Valid() && t < |threads|
      modifies this`threads
      ensures Valid() && Model() == old(Model()).(threads := old(Threads())[t := old(Threads())[t].(blocked := true)])
    {
      threads := threads[t := threads[t].(blocked := true)];
      assert Threads() == old(Threads())[t := ThreadOf(threads[t])];
    }

    method Ready(t: nat, pc: R.Pc)
      requires Valid() && t < |threads| && (Waits(pc) ==> threads[t].waiter != null)
      modifies this`threads
      ensures Valid()
      ensures Model() == old(Model()).(threads := old(Threads())[t := old(Threads())[t].(blocked := false, pc := pc)])
    {
      threads := threads[t := threads[t].(blocked := false, pc := pc)];
      assert Threads() == old(Threads())[t := ThreadOf(threads[t])];
    }

    // ----- Lock -----

    method Acquire(t: nat)
      requires Valid() && t < |threads| && R.Acquires(threads[t].pc)
      modifies this`threads, mylock
      ensures Valid() && Model() == R.Acquire(old(Model()), t)
    {
      var sleeps := mylock.Acquire(t);
      if sleeps { Sleep(t); } else { SetPc(t, R.Acquired(threads[t].pc)); }
    }

    method Release()
      requires Valid() && (mylock.waitQueue != [] ==> mylock.waitQueue[0] < |threads|)
      modifies this`threads, mylock
      ensures Valid() && Model() == R.Release(old(Model()))
    {
      var next := mylock.Release();
      if next.Some? { Ready(next.value, R.Acquired(threads[next.value].pc)); }
    }

    // ----- Semaphore -----

    method P(t: nat)
      requires Valid() && t < |threads| && threads[t].pc.Park?
      modifies this`threads, made
      ensures Valid() && old(Model()).threads[t].sem < |old(Model()).sems| && Model() == R.P(old(Model()), t)
    {
      hide Sems, Threads;
      var waiter := threads[t].waiter;
      var sleeps := waiter.P(t);
      assert Sems() == old(Sems())[waiter.id := R.Sem(waiter.value, waiter.waitQueue, waiter.owner)];
      if sleeps { Sleep(t); } else { SetPc(t, R.Reacq(threads[t].pc.c)); }
    }

    method V(waiter: Semaphore)
      requires Valid() && Known(waiter) && (waiter.waitQueue != [] ==> waiter.waitQueue[0] < |threads|)
      modifies this`threads, waiter
      ensures Valid() && Model() == R.V(old(Model()), waiter.id)
    {
      var thread := waiter.V();
      assert Sems() == old(Sems())[waiter.id := R.Sem(waiter.value, waiter.waitQueue, waiter.owner)];
      if thread.Some? {
        var pc := threads[thread.value].pc;
        Ready(thread.value, if pc.Park? then R.Reacq(pc.c) else pc);
      }
    }

    // ----- Condition -----

    /** A new semaphore for the coming sleep of thread `t`. */
    method MakeWaiter(t: nat, c: R.Cond) returns (waiter: Semaphore)
      requires Valid() && t < |threads|
      modifies this`threads, this`made
      ensures Valid() && |made| == |old(made)| + 1 && made[|old(made)|] == waiter && fresh(waiter) && waiter.id == |old(made)|
      ensures var s, id := old(Model()), |old(made)|;
        Model() == s.(sems := s.sems + [R.Sem(0, [], t)], threads := s.threads[t := s.threads[t].(sem := id, pc := R.Rel(c))])
    {
      hide Sems, Threads;
      waiter := new Semaphore(0, |made|, t);
      ghost var sems, ths := Sems(), Threads();
      made := made + [waiter];
      threads := threads[t := threads[t].(waiter := waiter, pc := R.Rel(c))];
      assert Sems() == sems + [R.Sem(0, [], t)];
      assert Threads() == ths[t := ThreadOf(threads[t])];
    }

    method QueueWaiter(waiter: Semaphore, c: R.Cond)
      requires Valid() && Known(waiter)
      modifies Cond(c)
      ensures Valid() && Model() == old(Model()).WithQueue(c, old(Model()).Queue(c) + [waiter.id])
    {
      hide Sems, Threads;
      Cond(c).waitQueue := Cond(c).waitQueue + [waiter];
      assert Ids(Cond(c).waitQueue) == Ids(old(Cond(c).waitQueue)) + [waiter.id];
    }

    /** The first part of `sleep`. */
    method Enqueue(t: nat, c: R.Cond)
      requires Valid() && t < |threads|
      modifies this`threads, this`made, Cond(c)
      ensures Valid() && |made| == |old(made)| + 1 && fresh(made[|old(made)|]) && Model() == R.Enqueue(old(Model()), t, c)
    {
      hide Sems, Threads;
      var waiter := MakeWaiter(t, c);
      QueueWaiter(waiter, c);
    }

    method Wake(c: R.Cond)
      requires Valid() && R.CanWake(Model(), c)
      modifies this`threads, Cond(c), made
      ensures Valid() && Model() == R.Wake(old(Model()), c)
    {
      var q := Cond(c).waitQueue;
      if q != [] {
        assert Known(q[0]);
        Cond(c).waitQueue := q[1..];
        assert Ids(q[1..]) == Ids(q)[1..];
        V(q[0]);
      }
    }

    // ----- A step of a thread -----

    /** The thread leaves the monitor for `pc`. */
    method Leave(t: nat, pc: R.Pc)
      requires Valid() && t < |threads| && (Waits(pc) ==> threads[t].waiter != null)
      requires mylock.waitQueue != [] ==> mylock.waitQueue[0] < |threads|
      modifies this`threads, mylock
      ensures Valid() && Model() == R.Release(old(Model()).At(t, pc))
    {
      hide R.Release, Threads, Sems;
      SetPc(t, pc);
      Release();
    }

    /** The thread wakes a condition and goes on at `pc`. */
    method Signal(t: nat, pc: R.Pc, c: R.Cond)
      requires Valid() && t < |threads| && !Waits(pc) && R.CanWake(Model(), c)
      modifies this`threads, Cond(c), made
      ensures Valid() && R.CanWake(old(Model()).At(t, pc), c) && Model() == R.Wake(old(Model()).At(t, pc), c)
    {
      hide R.Wake, Threads, Sems;
      SetPc(t, pc);
      Wake(c);
    }

    /** One more speaker sleeps. */
    method CountedSleep(t: nat)
      requires Valid() && t < |threads|
      modifies this`numberOfSpeakers, this`threads, this`made, speakers
      ensures Valid() && Model() == R.Enqueue(old(Model()).(nSpeakers := old(numberOfSpeakers) + 1), t, R.Speakers)
    {
      hide R.Enqueue, Threads, Sems;
      AddSpeakers(1);
      Enqueue(t, R.Speakers);
    }

    method SpeakStep(t: nat, ch: R.Choice)
      requires Valid() && R.CanStep(Model(), t, ch)
      requires threads[t].pc in {R.SAcq, R.STest, R.SSleep, R.SBack, R.SDeposit, R.SWake, R.SPair, R.SDone}
      modifies this, mylock, listeners, speakers, pairs, made
      ensures Valid() && Model() == R.Step(old(Model()), t, ch)
    {
      hide R.Acquire, R.Release, R.Enqueue, R.Wake, Threads, Sems, Valid;
      match threads[t].pc
      case SAcq => Acquire(t);
      case STest => SetPc(t, if spoken then R.SSleep else R.SDeposit);
      case SSleep => CountedSleep(t);
      case SBack =>
        AddSpeakers(-1);
        SetPc(t, R.STest);
      case SDeposit => Deposit(t);
      case SWake => Signal(t, R.SPair, R.Listeners);
      case SPair => Enqueue(t, R.Pairs);
      case SDone => Leave(t, R.Out);
    }

    method AddSpeakers(d: int)
      requires Valid()
      modifies this`numberOfSpeakers
      ensures Valid() && Model() == old(Model()).(nSpeakers := old(numberOfSpeakers) + d)
    {
      numberOfSpeakers := numberOfSpeakers + d;
    }

    /** The word is left for a listener. */
    method Deposit(t: nat)
      requires Valid() && t < |threads|
      modifies this`myword, this`spoken, this`threads, this`events
      ensures Valid() && var s, th := old(Model()), old(Threads())[t];
        Model() == s.(myword := th.word, spoken := true, events := s.events + [R.Deposit(t, th.word)],
                      threads := s.threads[t := th.(pc := R.SWake, slot := |s.events|)])
    {
      hide Sems, Threads;
      ghost var ths := Threads();
      myword, spoken := threads[t].word, true;
      threads := threads[t := threads[t].(pc := R.SWake, slot := |events|)];
      events := events + [R.Deposit(t, myword)];
      assert Threads() == ths[t := ThreadOf(threads[t])];
    }

    /** The word is taken. */
    method Take(t: nat)
      requires Valid() && t < |threads|
      modifies this`spoken, this`threads, this`events
      ensures Valid() && var s := old(Model());
        Model() == s.(spoken := s.nSpeakers != 0 && s.spoken, events := s.events + [R.Take(t, s.myword)]).At(t, R.LWakePair)
    {
      hide Sems, Threads;
      if numberOfSpeakers == 0 { spoken := false; }
      events := events + [R.Take(t, myword)];
      SetPc(t, R.LWakePair);
    }

    method ListenStep(t: nat, ch: R.Choice)
      requires Valid() && R.CanStep(Model(), t, ch)
      requires threads[t].pc in {R.LAcq, R.LTest, R.LSleep, R.LTake, R.LWakePair, R.LWakeSpk, R.LDone}
      modifies this, mylock, listeners, speakers, pairs, made
      ensures Valid() && Model() == R.Step(old(Model()), t, ch)
    {
      hide R.Acquire, R.Release, R.Enqueue, R.Wake, Threads, Sems, Valid;
      match threads[t].pc
      case LAcq => Acquire(t);
      case LTest => SetPc(t, if spoken then R.LTake else R.LSleep);
      case LSleep => Enqueue(t, R.Listeners);
      case LTake => Take(t);
      case LWakePair => Signal(t, R.LWakeSpk, R.Pairs);
      case LWakeSpk => SignalSpeaker(t, ch);
      case LDone => Leave(t, R.Out);
    }

    /** The end of `listen`: the next speaker, if there is one, is woken. */
    method SignalSpeaker(t: nat, ch: R.Choice)
      requires Valid() && R.CanStep(Model(), t, ch) && threads[t].pc == R.LWakeSpk
      modifies this`spoken, this`threads, speakers, made
      ensures Valid() && Model() == R.Step(old(Model()), t, ch)
    {
      hide R.Wake, Threads, Sems;
      if numberOfSpeakers > 0 {
        Unspeak();
        Signal(t, R.LDone, R.Speakers);
      } else {
        SetPc(t, R.LDone);
      }
    }

    method Unspeak()
      requires Valid()
      modifies this`spoken
      ensures Valid() && Model() == old(Model()).(spoken := false)
    {
      spoken := false;
    }

    /** The call of a thread that is outside. */
    method Call(t: nat, ch: R.Choice)
      requires Valid() && t < |threads| && threads[t].pc == R.Out && ch != R.Go
      modifies this`threads
      ensures Valid() && var s, th := old(Model()), old(Threads())[t];
        Model() == if ch.Speak? then s.(threads := s.threads[t := th.(pc := R.SAcq, word := ch.word)]) else s.At(t, R.LAcq)
    {
      ghost var ths := Threads();
      threads := threads[t := if ch.Speak? then threads[t].(pc := R.SAcq, word := ch.word) else threads[t].(pc := R.LAcq)];
      assert Threads() == ths[t := ThreadOf(threads[t])];
    }

    /** Any step: the objects go through the states of the state machine. */
    method Step(t: nat, ch: R.Choice)
      requires Valid() && R.CanStep(Model(), t, ch)
      modifies this, mylock, listeners, speakers, pairs, made
      ensures Valid() && Model() == R.Step(old(Model()), t, ch)
    {
      hide R.Acquire, R.Release, R.P, R.Enqueue, R.Wake, Threads, Sems;
      match threads[t].pc
      case Out => Call(t, ch);
      case SAcq | STest | SSleep | SBack | SDeposit | SWake | SPair | SDone => SpeakStep(t, ch);
      case LAcq | LTest | LSleep | LTake | LWakePair | LWakeSpk | LDone => ListenStep(t, ch);
      case Rel(c) => Leave(t, R.Park(c));
      case Park(_) => P(t);
      case Reacq(_) => Acquire(t);
    }

    /** `wakeAll`: the queue is woken until it is empty; `t` is the caller. */
    method WakeEveryone(c: R.Cond, ghost t: nat)
      requires Valid() && Attends(Model(), t)
      modifies this`threads, Cond(c), made
      ensures Valid() && Model() == WakeAll(old(Model()), c, t)
    {
      hide LockOk, SemsOk, R.Wake, Threads, Sems, Valid;
      while Cond(c).waitQueue != []
        invariant Valid() && made == old(made) && Attends(Model(), t) && WakeAll(Model(), c, t) == WakeAll(old(Model()), c, t)
        decreases |Cond(c).waitQueue|
      {
        WakeOne(Model(), c, t);
        Wake(c);
      }
    }
  }
}
