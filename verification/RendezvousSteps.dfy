/** The steps of the communicator that carry words or wake-ups keep its invariant, and so does
    every run. */
module RendezvousSteps {
  import opened Helpers
  import opened Rendezvous
  import opened RendezvousLocks
  import opened RendezvousProtocol

  /** Only the holder is inside the monitor. */
  lemma Alone(s: State, t: nat)
    requires LockOk(s) && t < |s.threads| && Inside(s.threads[t].pc)
    ensures HolderPc(s) == s.threads[t].pc && s.holder == Some(t)
    ensures forall x :: 0 <= x < |s.threads| && x != t ==> !Inside(s.threads[x].pc)
  {
    forall x | 0 <= x < |s.threads| ensures Inside(s.threads[x].pc) <==> s.holder == Some(x) {
      InsideHolds(s, x);
    }
  }

  // ----- Tests, deposits and takes -----

  lemma TestKeepsSlots(s: State, t: nat, pc: Pc)
    requires t < |s.threads| && SlotsOk(s, s.threads[t].pc) && (s.threads[t].pc == STest || s.threads[t].pc == LTest)
    requires pc == SSleep || pc == SDeposit || pc == LTake || pc == LSleep
    ensures SlotsOk(s.At(t, pc), pc)
  {
    var s' := s.At(t, pc);
    forall x | 0 <= x < |s'.threads| ensures SlotThread(s', pc, x) { assert SlotThread(s, s.threads[t].pc, x); }
  }

  /** Those under way to the test that this thread has passed are still under way. */
  lemma TestKeepsWoken(s: State, t: nat, pc: Pc)
    requires t < |s.threads|
    requires (s.threads[t].pc == STest && pc == (if s.spoken then SSleep else SDeposit))
          || (s.threads[t].pc == LTest && pc == (if s.spoken then LTake else LSleep))
    ensures s.spoken ==> (HasWoken(s, Listeners) ==> HasWoken(s.At(t, pc), Listeners))
    ensures !s.spoken ==> (HasWoken(s, Speakers) ==> HasWoken(s.At(t, pc), Speakers))
  {
    if s.spoken { KeepsWoken(s, s.At(t, pc), Listeners); } else { KeepsWoken(s, s.At(t, pc), Speakers); }
  }

  lemma TestKeepsMeeting(s: State, t: nat, pc: Pc)
    requires t < |s.threads| && Meeting(s, s.threads[t].pc)
    requires (s.threads[t].pc == STest && pc == (if s.spoken then SSleep else SDeposit))
          || (s.threads[t].pc == LTest && pc == (if s.spoken then LTake else LSleep))
    ensures Meeting(s.At(t, pc), pc)
  {
    var s' := s.At(t, pc);
    TestKeepsSlots(s, t, pc);
    hide SlotsOk, Alternate;
    TestKeepsWoken(s, t, pc);
    hide HasWoken;
  }

  lemma DepositKeepsMeeting(s: State, t: nat, s': State)
    requires t < |s.threads| && s.threads[t].pc == SDeposit && Meeting(s, SDeposit)
    requires forall x :: 0 <= x < |s.threads| && x != t ==> !Inside(s.threads[x].pc)
    requires var th := s.threads[t];
      s' == s.(myword := th.word, spoken := true, events := s.events + [Deposit(t, th.word)],
               threads := s.threads[t := th.(pc := SWake, slot := |s.events|)])
    ensures Meeting(s', SWake)
  {
    forall x | 0 <= x < |s'.threads| ensures SlotThread(s', SWake, x) { assert SlotThread(s, SDeposit, x); }
  }

  lemma AlternateTake(events: seq<Event>, e: Event)
    requires Alternate(events) && |events| % 2 == 1 && e.Take? && e.word == events[|events| - 1].word
    ensures Alternate(events + [e])
  {
  }

  lemma TakeKeepsSlots(s: State, t: nat, s': State)
    requires t < |s.threads| && s.threads[t].pc == LTake && SlotsOk(s, LTake)
    requires forall x :: 0 <= x < |s.threads| && x != t ==> !Inside(s.threads[x].pc)
    requires s'.pairs == s.pairs && s'.events == s.events + [Take(t, s.myword)]
    requires s'.threads == s.threads[t := s.threads[t].(pc := LWakePair)]
    ensures SlotsOk(s', LWakePair)
  {
    forall x | 0 <= x < |s'.threads| ensures SlotThread(s', LWakePair, x) {
      assert SlotThread(s, LTake, x);
      hide SlotsOk;
    }
  }

  lemma TakeKeepsMeeting(s: State, t: nat, s': State)
    requires t < |s.threads| && s.threads[t].pc == LTake && Meeting(s, LTake) && s.nSpeakers >= 0
    requires forall x :: 0 <= x < |s.threads| && x != t ==> !Inside(s.threads[x].pc)
    requires s' == s.(spoken := s.nSpeakers != 0 && s.spoken, events := s.events + [Take(t, s.myword)]).At(t, LWakePair)
    ensures Meeting(s', LWakePair)
  {
    var e := Take(t, s.myword);
    assert Alternate(s'.events) && Pending(s) && !Pending(s') by { AlternateTake(s.events, e); }
    hide Alternate, Pending;
    TakeKeepsSlots(s, t, s');
    hide SlotThread, SlotsOk, HasWoken;
  }

  lemma TestKeepsGood(s: State, t: nat, ch: Choice)
    requires Good(s) && CanStep(s, t, ch) && (s.threads[t].pc == STest || s.threads[t].pc == LTest)
    ensures Good(Step(s, t, ch))
  {
    hide LockOk, SemsOk, Meeting, Count;
    var s' := Step(s, t, ch);
    Alone(s, t);
    LocalKeepsMonitor(s, s', t);
    CountUpdate(s.threads, t, s'.threads[t]);
    TestKeepsMeeting(s, t, s'.threads[t].pc);
  }

  lemma DepositKeepsGood(s: State, t: nat, ch: Choice)
    requires Good(s) && CanStep(s, t, ch) && s.threads[t].pc == SDeposit
    ensures Good(Step(s, t, ch))
  {
    hide LockOk, SemsOk, Meeting, Count;
    var s' := Step(s, t, ch);
    Alone(s, t);
    LocalKeepsMonitor(s, s', t);
    CountUpdate(s.threads, t, s'.threads[t]);
    DepositKeepsMeeting(s, t, s');
  }

  lemma TakeKeepsGood(s: State, t: nat, ch: Choice)
    requires Good(s) && CanStep(s, t, ch) && s.threads[t].pc == LTake
    ensures Good(Step(s, t, ch))
  {
    hide LockOk, SemsOk, Meeting, Count;
    var s' := Step(s, t, ch);
    Alone(s, t);
    LocalKeepsMonitor(s, s', t);
    CountUpdate(s.threads, t, s'.threads[t]);
    TakeKeepsMeeting(s, t, s');
  }

  // ----- Falling asleep -----

  lemma SleepKeepsMeeting(s: State, t: nat, c: Cond, s': State)
    requires SemsOk(s) && t < |s.threads| && Meeting(s, s.threads[t].pc) && Enqueued(s, t, c, s')
    requires s'.spoken == s.spoken && s'.myword == s.myword && s'.events == s.events
    requires s.threads[t].pc == (match c case Speakers => SSleep case Listeners => LSleep case Pairs => SPair)
    ensures Meeting(s', Rel(c))
  {
    SleepKeepsSlots(s, t, c, s');
    hide SlotsOk, Alternate, HasWoken, SemThread, SemsOk;
    assert s'.Queue(Pairs) == s'.pairs && s.Queue(Pairs) == s.pairs;
    assert s'.Queue(Listeners) == s'.listeners && s'.Queue(Speakers) == s'.speakers;
    forall d: Cond ensures d != c && HasWoken(s, d) ==> HasWoken(s', d) {
      if d != c { SleepKeepsWoken(s, t, c, s', d); }
    }
  }

  lemma SleepKeepsSlot(s: State, t: nat, c: Cond, s': State, x: nat)
    requires t < |s.threads| && x < |s.threads| && Enqueued(s, t, c, s') && s'.events == s.events
    requires SlotThread(s, s.threads[t].pc, x) && SemThread(s, x) && WordsOk(s, s.threads[t].pc)
    requires s.threads[t].pc == (match c case Speakers => SSleep case Listeners => LSleep case Pairs => SPair)
    ensures SlotThread(s', Rel(c), x)
  {
    hide Alternate;
    assert s'.Queue(Pairs) == s'.pairs && s.Queue(Pairs) == s.pairs;
  }

  lemma SleepKeepsSlots(s: State, t: nat, c: Cond, s': State)
    requires SemsOk(s) && t < |s.threads| && Meeting(s, s.threads[t].pc) && Enqueued(s, t, c, s')
    requires s'.events == s.events
    requires s.threads[t].pc == (match c case Speakers => SSleep case Listeners => LSleep case Pairs => SPair)
    ensures SlotsOk(s', Rel(c))
  {
    assert |s'.threads| == |s.threads|;
    hide SlotThread, SemThread, QueueOk, Enqueued, WordsOk, NoneMissed;
    forall x | 0 <= x < |s'.threads| ensures SlotThread(s', Rel(c), x) {
      SleepKeepsSlot(s, t, c, s', x);
    }
  }

  lemma SleepKeepsWoken(s: State, t: nat, c: Cond, s': State, d: Cond)
    requires t < |s.threads| && Enqueued(s, t, c, s') && d != c
    requires s.threads[t].pc == (match c case Speakers => SSleep case Listeners => LSleep case Pairs => SPair)
    ensures HasWoken(s, d) ==> HasWoken(s', d)
  {
    KeepsWoken(s, s', d);
  }

  lemma SleepKeepsGood(s: State, t: nat, ch: Choice)
    requires Good(s) && CanStep(s, t, ch)
    requires var pc := s.threads[t].pc; pc == SSleep || pc == LSleep || pc == SPair
    ensures Good(Step(s, t, ch))
  {
    hide LockOk, SemsOk, Meeting;
    var s', pc := Step(s, t, ch), s.threads[t].pc;
    var c := match pc case SSleep => Speakers case LSleep => Listeners case _ => Pairs;
    Alone(s, t);
    EnqueueKeepsSems(s, t, c);
    CountUpdate(s.threads, t, s'.threads[t]);
    assert Enqueued(s, t, c, s');
    SleepKeepsMeeting(s, t, c, s');
    SleepKeepsLock(s, t, s', c);
    SameSems(Enqueue(s, t, c), s');
  }

  lemma SleepKeepsLock(s: State, t: nat, s': State, c: Cond)
    requires LockOk(s) && t < |s.threads| && Inside(s.threads[t].pc)
    requires s'.holder == s.holder && s'.lockQ == s.lockQ
    requires exists id: nat :: s'.threads == s.threads[t := s.threads[t].(sem := id, pc := Rel(c))]
    ensures LockOk(s') && HolderPc(s') == Rel(c)
  {
    hide Distinct;
    InsideHolds(s, t);
    forall x | 0 <= x < |s.threads| ensures SameToLock(s.threads[x], s'.threads[x]) {
      assert LockThread(s, x);
    }
    LockFrame(s, s');
  }

  lemma SameSems(s: State, s': State)
    requires SemsOk(s) && s'.sems == s.sems && s'.threads == s.threads
    requires s'.listeners == s.listeners && s'.speakers == s.speakers && s'.pairs == s.pairs
    ensures SemsOk(s')
  {
    hide SemThread, QueueOk;
    SemsFrame(s, s');
  }

  // ----- The P of a sleeping thread -----

  lemma PKeepsMeeting(s: State, t: nat, hp: Pc)
    requires SemsOk(s) && Meeting(s, hp)
    requires t < |s.threads| && !s.threads[t].blocked && s.threads[t].pc.Park? && s.threads[t].sem < |s.sems|
    ensures Meeting(P(s, t), hp)
  {
    var s' := P(s, t);
    assert SemThread(s, t);
    PKeepsSlots(s, t, hp);
    PKeepsWoken(s, t, Listeners);
    PKeepsWoken(s, t, Speakers);
    assert SameWords(s, s') && s'.nSpeakers == s.nSpeakers;
    hide SlotsOk, HasWoken, SemsOk, SemThread, P;
    CalmKeepsWords(s, s', hp, hp);
    hide WordsOk, Pending;
  }

  /** A thread that passes P as a pair has left the queue of pairs. */
  lemma PKeepsSlot(s: State, t: nat, hp: Pc)
    requires t < |s.threads| && SlotThread(s, hp, t)
    requires !s.threads[t].blocked && s.threads[t].pc.Park? && s.threads[t].sem < |s.sems| && SemThread(s, t)
    ensures SlotThread(P(s, t), hp, t)
  {
    var th := s.threads[t];
    if s.sems[th.sem].value != 0 {
      assert th.pc.c == Pairs ==> th.sem !in s.Queue(Pairs);
    }
    hide SemThread;
  }

  lemma PKeepsOther(s: State, t: nat, hp: Pc, x: nat)
    requires x < |s.threads| && SlotThread(s, hp, x) && x != t
    requires t < |s.threads| && s.threads[t].pc.Park? && s.threads[t].sem < |s.sems|
    ensures SlotThread(P(s, t), hp, x)
  {
    assert P(s, t).threads[x] == s.threads[x] && P(s, t).events == s.events && P(s, t).pairs == s.pairs;
    hide P;
  }

  lemma PKeepsSlots(s: State, t: nat, hp: Pc)
    requires SlotsOk(s, hp)
    requires t < |s.threads| && !s.threads[t].blocked && s.threads[t].pc.Park? && s.threads[t].sem < |s.sems| && SemThread(s, t)
    ensures SlotsOk(P(s, t), hp)
  {
    assert |P(s, t).threads| == |s.threads|;
    hide SlotThread, P;
    forall x | 0 <= x < |s.threads| ensures SlotThread(P(s, t), hp, x) {
      if x == t { PKeepsSlot(s, t, hp); } else { PKeepsOther(s, t, hp, x); }
    }
  }

  lemma PKeepsWoken(s: State, t: nat, c: Cond)
    requires t < |s.threads| && !s.threads[t].blocked && s.threads[t].pc.Park? && s.threads[t].sem < |s.sems| && SemThread(s, t)
    ensures HasWoken(s, c) ==> HasWoken(P(s, t), c)
  {
    var s' := P(s, t);
    forall x | 0 <= x < |s.threads| && Woken(s, c, x) ensures Woken(s', c, x) {
    }
    KeepsWoken(s, s', c);
  }

  lemma PKeepsLock(s: State, t: nat)
    requires LockOk(s) && t < |s.threads| && !s.threads[t].blocked && s.threads[t].pc.Park? && s.threads[t].sem < |s.sems|
    ensures LockOk(P(s, t)) && HolderPc(P(s, t)) == HolderPc(s) && Count(P(s, t).threads) == Count(s.threads)
  {
    hide Distinct, Count;
    var s' := P(s, t);
    InsideHolds(s, t);
    forall x | 0 <= x < |s.threads| ensures SameToLock(s.threads[x], s'.threads[x]) {
      assert LockThread(s, x);
    }
    LockFrame(s, s');
    CountUpdate(s.threads, t, s'.threads[t]);
  }

  lemma ParkKeepsGood(s: State, t: nat, ch: Choice)
    requires Good(s) && CanStep(s, t, ch) && s.threads[t].pc.Park?
    ensures Good(Step(s, t, ch))
  {
    hide LockOk, SemsOk, Meeting, HolderPc, Count;
    assert Step(s, t, ch) == P(s, t);
    PKeepsSems(s, t);
    PKeepsMeeting(s, t, HolderPc(s));
    PKeepsLock(s, t);
  }

  // ----- Wake-ups -----

  /** Waking the first thread in line disturbs no lock. */
  lemma WokeKeepsLock(s: State, c: Cond, o: nat, s': State)
    requires LockOk(s) && s.Queue(c) != [] && o < |s.threads| && s.threads[o].pc == Park(c) && Woke(s, c, o, s')
    ensures LockOk(s') && HolderPc(s') == HolderPc(s) && Count(s'.threads) == Count(s.threads)
  {
    hide Distinct, Count;
    InsideHolds(s, o);
    forall x | 0 <= x < |s.threads| ensures SameToLock(s.threads[x], s'.threads[x]) {
      assert LockThread(s, x);
    }
    LockFrame(s, s');
    assert s.threads[o := s.threads[o]] == s.threads;
    CountUpdate(s.threads, o, s'.threads[o]);
  }

  lemma WokeKeepsSlot(m: State, c: Cond, o: nat, s': State, hp: Pc, hp': Pc, x: nat)
    requires m.Queue(c) != [] && o < |m.threads| && m.threads[o].pc == Park(c) && x < |m.threads|
    requires Woke(m, c, o, s') && m.threads[o].sem == m.Queue(c)[0] && SlotThread(m, hp, x)
    requires if c == Pairs then |m.pairs| == 1 && hp == LWakePair && hp' == LWakeSpk else hp != LWakePair && hp' != LWakePair
    ensures SlotThread(s', hp', x)
  {
    assert m.Queue(Pairs) == m.pairs && m.Queue(c)[0] in m.Queue(c);
  }

  lemma WokeKeepsSlots(m: State, c: Cond, o: nat, s': State, hp: Pc, hp': Pc)
    requires SlotsOk(m, hp) && m.Queue(c) != [] && o < |m.threads| && m.threads[o].pc == Park(c)
    requires Woke(m, c, o, s') && m.threads[o].sem == m.Queue(c)[0]
    requires if c == Pairs then |m.pairs| == 1 && hp == LWakePair && hp' == LWakeSpk else hp != LWakePair && hp' != LWakePair
    ensures SlotsOk(s', hp')
  {
    assert |s'.threads| == |m.threads|;
    hide SlotThread, Woke;
    forall x | 0 <= x < |s'.threads| ensures SlotThread(s', hp', x) {
      WokeKeepsSlot(m, c, o, s', hp, hp', x);
    }
  }

  /** The thread at the head of a queue is under way once it is woken. */
  lemma WokeIsWoken(m: State, c: Cond, o: nat, s': State)
    requires m.Queue(c) != [] && o < |m.threads| && m.threads[o].pc == Park(c) && m.threads[o].sem == m.Queue(c)[0]
    requires Woke(m, c, o, s') && m.Queue(c)[0] !in m.Queue(c)[1..]
    ensures HasWoken(s', c)
  {
    assert Woken(s', c, o);
  }

  lemma WakeNobody(m: State, c: Cond)
    requires m.Queue(c) == []
    ensures CanWake(m, c) && Wake(m, c) == m
  {
  }

  /** Effect of a wake-up in the monitor, whether anybody waits or not. */
  lemma WakeKeepsRest(m: State, c: Cond, t: nat, hp: Pc)
    requires LockOk(m) && SemsOk(m) && t < |m.threads| && Inside(m.threads[t].pc) && !m.threads[t].pc.Rel?
    requires SlotsOk(m, hp) && var hp' := m.threads[t].pc;
      if c == Pairs then |m.pairs| == 1 && hp == LWakePair && hp' == LWakeSpk else hp != LWakePair && hp' != LWakePair
    ensures CanWake(m, c)
    ensures var s' := Wake(m, c);
      && LockOk(s') && SemsOk(s') && HolderPc(s') == m.threads[t].pc && Count(s'.threads) == Count(m.threads)
      && s'.spoken == m.spoken && s'.myword == m.myword && s'.nSpeakers == m.nSpeakers && s'.events == m.events
      && (forall d :: s'.Queue(d) == if d == c && m.Queue(d) != [] then m.Queue(d)[1..] else m.Queue(d))
      && SlotsOk(s', m.threads[t].pc)
      && (m.Queue(c) != [] ==> HasWoken(s', c))
  {
    Alone(m, t);
    assert QueueOk(m, c);
    if m.Queue(c) == [] {
      hide SlotsOk, LockOk, SemsOk, QueueOk, Count, HolderPc, HasWoken;
      WakeNobody(m, c);
      SlotsAgain(m, hp, m.threads[t].pc);
      hide Wake;
      return;
    }
    var o := FirstOf(m, c);
    WakeKeepsSems(m, c);
    var s' := Wake(m, c);
    hide Wake, LockOk, SemsOk, SlotsOk, QueueOk, Count, HolderPc, Waits, Inside, HasWoken;
    WokeKeepsLock(m, c, o, s');
    WokeKeepsSlots(m, c, o, s', hp, m.threads[t].pc);
    WokeIsWoken(m, c, o, s');
  }

  lemma SlotsAgain(s: State, hp: Pc, hp': Pc)
    requires SlotsOk(s, hp) && (hp' == hp || (hp != LWakePair && hp' != LWakePair))
    ensures SlotsOk(s, hp')
  {
    forall x | 0 <= x < |s.threads| ensures SlotThread(s, hp', x) { assert SlotThread(s, hp, x); }
  }

  lemma StepOffKeepsSlots(s: State, t: nat, m: State, hp: Pc, pc: Pc)
    requires SlotsOk(s, hp) && t < |s.threads| && hp == s.threads[t].pc
    requires m.events == s.events && m.pairs == s.pairs
    requires pc == (if hp == SWake then SPair else if hp == LWakePair then LWakeSpk else LDone)
    requires (hp == SWake || Taking(hp)) && m.threads == s.threads[t := s.threads[t].(pc := pc)]
    ensures SlotsOk(m, hp)
  {
    forall x | 0 <= x < |m.threads| ensures SlotThread(m, hp, x) { assert SlotThread(s, hp, x); }
  }

  lemma PcFacts()
    ensures forall pc :: pc == SWake || pc == SPair || Taking(pc) || pc == LDone ==> Inside(pc) && !Waits(pc) && !Counted(pc)
  {
  }

  lemma AfterWakingListener(s: State, s': State)
    requires WordsOk(s, SWake) && s'.spoken == s.spoken && s'.myword == s.myword && s'.events == s.events
    requires s'.pairs == s.pairs && (s'.listeners != [] ==> HasWoken(s', Listeners))
    ensures WordsOk(s', SPair) && NoneMissed(s', SPair)
  {
    hide Alternate, HasWoken;
  }

  lemma WakeListenerKeepsGood(s: State, t: nat, ch: Choice)
    requires Good(s) && CanStep(s, t, ch) && s.threads[t].pc == SWake
    ensures Good(Step(s, t, ch))
  {
    hide LockOk, SemsOk, SlotsOk, Alternate, HasWoken, Woken, Count, Inside, Waits, Counted, HolderPc;
    assert Inside(SWake) && Inside(SPair) && !Waits(SWake) && !Waits(SPair) && !Counted(SWake) && !Counted(SPair) by {
      PcFacts();
    }
    Alone(s, t);
    var m := s.At(t, SPair);
    LocalKeepsMonitor(s, m, t);
    CountUpdate(s.threads, t, m.threads[t]);
    StepOffKeepsSlots(s, t, m, SWake, SPair);
    WakeKeepsRest(m, Listeners, t, SWake);
    var s' := Wake(m, Listeners);
    hide Wake;
    assert s' == Step(s, t, ch);
    hide Step, WordsOk, NoneMissed;
    assert s'.Queue(Listeners) == s'.listeners && m.Queue(Listeners) == m.listeners;
    assert s'.Queue(Speakers) == s'.speakers && m.Queue(Speakers) == m.speakers;
    assert s'.Queue(Pairs) == s'.pairs && m.Queue(Pairs) == m.pairs;
    AfterWakingListener(s, s');
  }

  lemma AfterWakingPair(s: State, s': State)
    requires WordsOk(s, LWakePair) && s'.spoken == s.spoken && s'.myword == s.myword && s'.events == s.events
    requires s'.nSpeakers == s.nSpeakers && |s'.pairs| == |s.pairs| - 1
    ensures WordsOk(s', LWakeSpk) && NoneMissed(s', LWakeSpk)
  {
    hide Alternate, HasWoken;
  }

  lemma WakePairKeepsGood(s: State, t: nat, ch: Choice)
    requires Good(s) && CanStep(s, t, ch) && s.threads[t].pc == LWakePair
    ensures Good(Step(s, t, ch))
  {
    hide LockOk, SemsOk, SlotsOk, Alternate, HasWoken, Woken, Count, Inside, Waits, Counted, HolderPc;
    assert Inside(LWakePair) && Inside(LWakeSpk) && !Waits(LWakePair) && !Waits(LWakeSpk) && !Counted(LWakePair) && !Counted(LWakeSpk) by {
      PcFacts();
    }
    Alone(s, t);
    var m := s.At(t, LWakeSpk);
    LocalKeepsMonitor(s, m, t);
    CountUpdate(s.threads, t, m.threads[t]);
    StepOffKeepsSlots(s, t, m, LWakePair, LWakeSpk);
    WakeKeepsRest(m, Pairs, t, LWakePair);
    var s' := Wake(m, Pairs);
    hide Wake;
    assert s' == Step(s, t, ch);
    hide Step, WordsOk, NoneMissed;
    assert s'.Queue(Listeners) == s'.listeners && m.Queue(Listeners) == m.listeners;
    assert s'.Queue(Speakers) == s'.speakers && m.Queue(Speakers) == m.speakers;
    assert s'.Queue(Pairs) == s'.pairs && m.Queue(Pairs) == m.pairs;
    AfterWakingPair(s, s');
  }

  lemma WakeSpeakerKeepsGood(s: State, t: nat, ch: Choice)
    requires Good(s) && CanStep(s, t, ch) && s.threads[t].pc == LWakeSpk && s.nSpeakers > 0
    ensures Good(Step(s, t, ch))
  {
    hide LockOk, SemsOk, SlotsOk, Alternate, HasWoken, Woken, Count, Inside, Waits, Counted, HolderPc;
    assert Inside(LWakeSpk) && Inside(LDone) && !Waits(LWakeSpk) && !Waits(LDone) && !Counted(LWakeSpk) && !Counted(LDone) by {
      PcFacts();
    }
    Alone(s, t);
    var m := s.(spoken := false).At(t, LDone);
    LocalKeepsMonitor(s, m, t);
    CountUpdate(s.threads, t, m.threads[t]);
    StepOffKeepsSlots(s, t, m, LWakeSpk, LDone);
    WakeKeepsRest(m, Speakers, t, LWakeSpk);
    var s' := Wake(m, Speakers);
    hide Wake;
    assert s' == Step(s, t, ch);
    hide Step;
    assert s'.Queue(Listeners) == s'.listeners && m.Queue(Listeners) == m.listeners;
    assert s'.Queue(Speakers) == s'.speakers && m.Queue(Speakers) == m.speakers;
    assert s'.Queue(Pairs) == s'.pairs && m.Queue(Pairs) == m.pairs;
  }

  lemma NoSpeakerKeepsGood(s: State, t: nat, ch: Choice)
    requires Good(s) && CanStep(s, t, ch) && s.threads[t].pc == LWakeSpk && s.nSpeakers <= 0
    ensures Good(Step(s, t, ch))
  {
    hide LockOk, SemsOk, SlotsOk, Alternate, HasWoken, Count;
    Alone(s, t);
    var m := Step(s, t, ch);
    LocalKeepsMonitor(s, m, t);
    CountUpdate(s.threads, t, m.threads[t]);
    StepOffKeepsSlots(s, t, m, LWakeSpk, LDone);
    NobodyCounted(s);
    SlotsAgain(m, LWakeSpk, LDone);
    Alone(m, t);
  }

  /** A speaker in the queue is counted. */
  lemma NobodyCounted(s: State)
    requires SemsOk(s) && Count(s.threads) == 0
    ensures s.speakers == []
  {
    if s.speakers != [] {
      assert QueueOk(s, Speakers);
      CountPositive(s.threads, FirstOf(s, Speakers));
    }
  }

  // ----- Every step and every run -----

  lemma StepKeepsGood(s: State, t: nat, ch: Choice)
    requires Good(s) && CanStep(s, t, ch)
    ensures Good(Step(s, t, ch))
  {
    hide Good, Step;
    match s.threads[t].pc
    case Out => CallKeepsGood(s, t, ch);
    case SBack => BackKeepsGood(s, t, ch);
    case SAcq | LAcq | Reacq(_) => AcquireKeepsGood(s, t, ch);
    case STest | LTest => TestKeepsGood(s, t, ch);
    case SSleep | LSleep | SPair => SleepKeepsGood(s, t, ch);
    case SDeposit => DepositKeepsGood(s, t, ch);
    case LTake => TakeKeepsGood(s, t, ch);
    case SWake => WakeListenerKeepsGood(s, t, ch);
    case LWakePair => WakePairKeepsGood(s, t, ch);
    case LWakeSpk => if s.nSpeakers > 0 { WakeSpeakerKeepsGood(s, t, ch); } else { NoSpeakerKeepsGood(s, t, ch); }
    case SDone | LDone | Rel(_) => ReleaseKeepsGood(s, t, ch);
    case Park(_) => ParkKeepsGood(s, t, ch);
  }

  /** What the original asserts of the lock before thread `t` acquires it, releases it, goes to
      sleep on a condition or wakes one. */
  predicate Asserted(s: State, t: nat)
    requires t < |s.threads|
  {
    var pc := s.threads[t].pc;
    && (Acquires(pc) ==> s.holder != Some(t))
    && (pc.Rel? || pc == SDone || pc == LDone ==> s.holder == Some(t))
    && (pc == SSleep || pc == LSleep || pc == SPair ==> s.holder == Some(t))
    && (pc == SWake || pc == LWakePair || pc == LWakeSpk ==> s.holder == Some(t))
  }

  /** No assertion of the original fails, and any thread that is awake can take its next step. */
  lemma AwakeCanStep(s: State, t: nat, ch: Choice)
    requires Good(s) && t < |s.threads| && !s.threads[t].blocked && (s.threads[t].pc == Out <==> ch != Go)
    ensures Asserted(s, t) && CanStep(s, t, ch)
  {
    InsideHolds(s, t);
    assert SemThread(s, t);
    if s.lockQ != [] { assert s.lockQ[0] in s.lockQ; }
    forall c: Cond ensures CanWake(s, c) {
      assert QueueOk(s, c);
      if s.Queue(c) != [] {
        var o := FirstOf(s, c);
        assert s.Queue(c)[0] in s.Queue(c) && QueueEntry(s, c, s.Queue(c)[0]) && SemThread(s, o);
      }
    }
  }

  /** A run under any schedule: a sleeping thread that is picked does nothing. */
  ghost function Run(s: State, sched: seq<(nat, Choice)>): State
    decreases |sched|
  {
    if sched == [] then s
    else if CanStep(s, sched[0].0, sched[0].1) then Run(Step(s, sched[0].0, sched[0].1), sched[1..])
    else Run(s, sched[1..])
  }

  lemma {:induction false} RunKeepsGood(s: State, sched: seq<(nat, Choice)>)
    requires Good(s)
    ensures Good(Run(s, sched))
    decreases |sched|
  {
    hide Good, Step, CanStep;
    if sched != [] {
      if CanStep(s, sched[0].0, sched[0].1) {
        StepKeepsGood(s, sched[0].0, sched[0].1);
        RunKeepsGood(Step(s, sched[0].0, sched[0].1), sched[1..]);
      } else {
        RunKeepsGood(s, sched[1..]);
      }
    }
  }

  lemma {:induction false} NoneCounted(ths: seq<Thread>)
    requires forall i :: 0 <= i < |ths| ==> ths[i].pc == Out
    ensures Count(ths) == 0
  {
    if ths != [] { NoneCounted(ths[1..]); }
  }

  /** Any number of threads, any calls, any schedule. */
  lemma RunIsGood(n: nat, sched: seq<(nat, Choice)>)
    ensures Good(Run(Init(n), sched))
  {
    NoneCounted(Init(n).threads);
    assert Good(Init(n));
    RunKeepsGood(Init(n), sched);
  }
}
