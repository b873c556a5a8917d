/** What the communicator promises its callers, for any number of threads, any calls and any
    schedule. */
module Communicator {
  import opened Helpers
  import opened Rendezvous
  import opened RendezvousLocks
  import opened RendezvousProtocol
  import opened RendezvousSteps

  // ----- Each word goes to exactly one listener -----

  function Deposited(events: seq<Event>): (words: seq<int>)
  {
    if events == [] then []
    else
      var e := events[|events| - 1];
      Deposited(events[..|events| - 1]) + if e.Deposit? then [e.word] else []
  }

  function Taken(events: seq<Event>): (words: seq<int>)
  {
    if events == [] then []
    else
      var e := events[|events| - 1];
      Taken(events[..|events| - 1]) + if e.Take? then [e.word] else []
  }

  lemma {:induction false} AlternateDelivers(events: seq<Event>)
    requires Alternate(events)
    ensures Deposited(events) == Taken(events) + if |events| % 2 == 1 then [events[|events| - 1].word] else []
  {
    if events != [] {
      var init := events[..|events| - 1];
      assert Alternate(init);
      AlternateDelivers(init);
      assert |init| % 2 == 1 <==> |events| % 2 == 0;
      assert |events| % 2 == 0 ==> init[|init| - 1] == events[|events| - 2];
    }
  }

  /** Words are heard in the order they were deposited, each once, and at most one is on its
      way. */
  lemma EveryWordIsHeardOnce(n: nat, sched: seq<(nat, Choice)>)
    ensures var s := Run(Init(n), sched);
      && Alternate(s.events)
      && Deposited(s.events) == Taken(s.events) + if Pending(s) then [s.myword] else []
  {
    RunIsGood(n, sched);
    AlternateDelivers(Run(Init(n), sched).events);
  }

  // ----- A speaker returns only after its word was taken -----

  lemma DepositsAreTakenNext(events: seq<Event>, i: nat)
    requires Alternate(events) && i + 1 < |events| && events[i].Deposit?
    ensures events[i + 1].Take? && events[i + 1].word == events[i].word
  {
    var j := i + 1;
    assert events[i].Deposit? && events[j] == events[i + 1];
    assert i % 2 == 0 && j % 2 == 1;
  }

  lemma SpeakerReturnsAfterItsWordWasTaken(n: nat, sched: seq<(nat, Choice)>, t: nat)
    requires var s := Run(Init(n), sched); t < |s.threads| && s.threads[t].pc == SDone
    ensures var s := Run(Init(n), sched); var th := s.threads[t];
      && th.slot + 1 < |s.events| && s.events[th.slot] == Deposit(t, th.word)
      && s.events[th.slot + 1].Take? && s.events[th.slot + 1].word == th.word
  {
    RunIsGood(n, sched);
    var s := Run(Init(n), sched);
    hide Run, SemsOk, LockOk, NoneMissed;
    var i := s.threads[t].slot;
    assert SlotThread(s, HolderPc(s), t);
    DepositsAreTakenNext(s.events, i);
  }

  // ----- One thread in the monitor, one depositor among the pairs -----

  lemma MutualExclusion(n: nat, sched: seq<(nat, Choice)>, t: nat, u: nat)
    requires var s := Run(Init(n), sched); t < |s.threads| && u < |s.threads|
    requires var s := Run(Init(n), sched); Inside(s.threads[t].pc) && Inside(s.threads[u].pc)
    ensures t == u
  {
    RunIsGood(n, sched);
    Alone(Run(Init(n), sched), t);
  }

  /** While the lock is free, `spoken` holds exactly when the queue of pairs holds one thread,
      and that thread made the latest deposit. */
  lemma SpokenMeansOneDepositor(n: nat, sched: seq<(nat, Choice)>)
    requires Run(Init(n), sched).holder == None
    ensures var s := Run(Init(n), sched);
      && (s.spoken <==> Pending(s)) && |s.pairs| == (if s.spoken then 1 else 0)
      && (s.spoken ==> s.pairs[0] < |s.sems|
                       && s.events[|s.events| - 1] == Deposit(s.sems[s.pairs[0]].owner, s.myword))
  {
    RunIsGood(n, sched);
    var s := Run(Init(n), sched);
    if s.spoken {
      assert QueueOk(s, Pairs);
      var o := FirstOf(s, Pairs);
      assert s.pairs[0] in s.Queue(Pairs) && QueueEntry(s, Pairs, s.pairs[0]) && SlotThread(s, HolderPc(s), o);
    }
  }

  lemma {:induction false} CountAppend(ths: seq<Thread>, th: Thread)
    ensures Count(ths + [th]) == Count(ths) + if Counted(th.pc) then 1 else 0
  {
    if ths != [] {
      assert (ths + [th])[1..] == ths[1..] + [th];
      CountAppend(ths[1..], th);
    }
  }

  function CountedThreads(ths: seq<Thread>): set<nat>
  {
    set t: nat | t < |ths| && Counted(ths[t].pc)
  }

  lemma {:induction false} CountIsSize(ths: seq<Thread>)
    ensures Count(ths) == |CountedThreads(ths)|
  {
    if ths != [] {
      var k := |ths| - 1;
      assert ths[..k] + [ths[k]] == ths;
      CountAppend(ths[..k], ths[k]);
      CountIsSize(ths[..k]);
      assert CountedThreads(ths) == CountedThreads(ths[..k]) + if Counted(ths[k].pc) then {k} else {};
    } else {
      assert CountedThreads(ths) == {};
    }
  }

  /** `numberOfSpeakers` counts the speakers that sleep and those woken and not back yet. */
  lemma SpeakersAreCounted(n: nat, sched: seq<(nat, Choice)>)
    ensures var s := Run(Init(n), sched);
      s.nSpeakers == |CountedThreads(s.threads)|
  {
    RunIsGood(n, sched);
    CountIsSize(Run(Init(n), sched).threads);
  }

  // ----- No missed rendezvous -----

  /** Thread `t` waits on condition `c` and nobody has woken it. */
  ghost predicate Waiting(s: State, c: Cond, t: nat)
    requires t < |s.threads|
  {
    var th := s.threads[t];
    Waits(th.pc) && th.pc.c == c && th.sem in s.Queue(c)
  }

  /** Thread `t` is acquiring the lock, or has been woken and will acquire it. */
  ghost predicate Coming(s: State, t: nat)
    requires t < |s.threads|
  {
    var th := s.threads[t];
    Acquires(th.pc) || (th.pc.Park? && th.sem !in s.Queue(th.pc.c))
  }

  ghost predicate Settled(s: State)
  {
    s.holder == None && forall t :: 0 <= t < |s.threads| ==> !Coming(s, t)
  }

  lemma SettledHasNoneWoken(s: State, c: Cond)
    requires Good(s) && Settled(s)
    ensures !HasWoken(s, c)
  {
    hide SemsOk, Meeting;
    forall t | 0 <= t < |s.threads| ensures !Woken(s, c, t) {
      InsideHolds(s, t);
      assert !Coming(s, t);
    }
  }

  lemma SettledMissesNone(s: State, t: nat, u: nat)
    requires Good(s) && Settled(s) && t < |s.threads| && u < |s.threads| && Waiting(s, Listeners, t)
    ensures !Waiting(s, Speakers, u) && !Waiting(s, Pairs, u)
  {
    SettledHasNoneWoken(s, Listeners);
    SettledHasNoneWoken(s, Speakers);
    assert s.threads[t].sem in s.listeners;
  }

  /** When nobody holds the lock or is coming for it, no listener waits while a speaker does,
      neither one waiting to deposit nor one waiting to be heard. */
  lemma NoMissedRendezvous(n: nat, sched: seq<(nat, Choice)>, t: nat, u: nat)
    requires var s := Run(Init(n), sched); Settled(s) && t < |s.threads| && u < |s.threads|
    requires Waiting(Run(Init(n), sched), Listeners, t)
    ensures var s := Run(Init(n), sched); !Waiting(s, Speakers, u) && !Waiting(s, Pairs, u)
  {
    RunIsGood(n, sched);
    SettledMissesNone(Run(Init(n), sched), t, u);
  }

  /** Every thread sleeps or is outside the calls. */
  ghost predicate AllAsleep(s: State)
  {
    forall t :: 0 <= t < |s.threads| ==> s.threads[t].blocked || s.threads[t].pc == Out
  }

  lemma AsleepIsSettled(s: State)
    requires LockOk(s) && SemsOk(s)
    requires AllAsleep(s)
    ensures Settled(s)
  {
    hide QueueOk, Distinct;
    forall t | 0 <= t < |s.threads| ensures s.holder != Some(t) { assert LockThread(s, t); }
    forall t | 0 <= t < |s.threads| ensures !Coming(s, t) {
      assert LockThread(s, t) && SemThread(s, t);
    }
  }

  /** A sleeping thread inside a call waits on a condition, nobody having woken it. */
  lemma SleeperWaits(s: State, t: nat)
    requires LockOk(s) && SemsOk(s) && AllAsleep(s) && t < |s.threads| && s.threads[t].pc != Out
    ensures s.threads[t].pc.Park? && Waiting(s, s.threads[t].pc.c, t)
  {
    AsleepIsSettled(s);
    assert LockThread(s, t) && SemThread(s, t) && !Coming(s, t);
  }

  /** When every thread that has not returned sleeps, each of them waits on a condition, and
      either no listener waits or neither a speaker that wants to deposit nor one that wants to be
      heard: the communicator never blocks two calls that could meet. */
  lemma NoDeadlock(n: nat, sched: seq<(nat, Choice)>)
    requires AllAsleep(Run(Init(n), sched))
    ensures var s := Run(Init(n), sched);
      && (forall t: nat :: t < |s.threads| && s.threads[t].pc != Out ==>
            s.threads[t].pc.Park? && Waiting(s, s.threads[t].pc.c, t))
      && (s.listeners == [] || (s.speakers == [] && s.pairs == []))
  {
    RunIsGood(n, sched);
    hide Run;
    var s := Run(Init(n), sched);
    AsleepIsSettled(s);
    SettledQueues(s);
    hide LockOk, SemsOk, Meeting, AllAsleep, Settled;
    assert Good(s);
    forall t: nat | t < |s.threads| && s.threads[t].pc != Out
      ensures s.threads[t].pc.Park? && Waiting(s, s.threads[t].pc.c, t) {
      SleeperWaits(s, t);
    }
  }

  lemma SettledQueues(s: State)
    requires Good(s) && Settled(s)
    ensures s.listeners == [] || (s.speakers == [] && s.pairs == [])
  {
    SettledHasNoneWoken(s, Listeners);
    SettledHasNoneWoken(s, Speakers);
    hide LockOk, SemsOk, SlotsOk, Alternate, HasWoken;
  }
}
