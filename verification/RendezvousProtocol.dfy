/** The protocol of the communicator, over every interleaving: words are deposited and taken in
    turn, a speaker leaves only after its own word was taken, and no rendezvous is missed. */
module RendezvousProtocol {
  import opened Helpers
  import opened Rendezvous
  import opened RendezvousLocks

  // ----- Counting the speakers that sleep or have been woken and are not back -----

  predicate Counted(pc: Pc) { pc == Rel(Speakers) || pc == Park(Speakers) || pc == Reacq(Speakers) || pc == SBack }

  function Count(ths: seq<Thread>): nat
  {
    if ths == [] then 0 else (if Counted(ths[0].pc) then 1 else 0) + Count(ths[1..])
  }

  lemma {:induction false} CountUpdate(ths: seq<Thread>, t: nat, th: Thread)
    requires t < |ths|
    ensures Count(ths[t := th]) + (if Counted(ths[t].pc) then 1 else 0) == Count(ths) + (if Counted(th.pc) then 1 else 0)
  {
    if t == 0 {
      assert ths[t := th][1..] == ths[1..];
    } else {
      assert ths[t := th][1..] == ths[1..][t - 1 := th];
      CountUpdate(ths[1..], t - 1, th);
    }
  }

  lemma {:induction false} CountPositive(ths: seq<Thread>, t: nat)
    requires t < |ths| && Counted(ths[t].pc)
    ensures Count(ths) > 0
  {
    if t > 0 { CountPositive(ths[1..], t - 1); }
  }

  // ----- Words -----

  /** Deposits and takes alternate, and each take is of the word just deposited. */
  ghost predicate Alternate(events: seq<Event>)
  {
    forall i {:trigger events[i]} :: 0 <= i < |events| ==>
      if i % 2 == 0 then events[i].Deposit? else events[i].Take? && events[i].word == events[i - 1].word
  }

  /** A word has been deposited and not taken. */
  predicate Pending(s: State) { |s.events| % 2 == 1 }

  ghost function HolderPc(s: State): Pc
  {
    if s.holder.Some? && s.holder.value < |s.threads| then s.threads[s.holder.value].pc else Out
  }

  predicate Taking(pc: Pc) { pc == LWakePair || pc == LWakeSpk }

  predicate Depositing(pc: Pc) { pc == SWake || pc == SPair }

  predicate Neutral(pc: Pc)
  {
    !Taking(pc) && !Depositing(pc) && pc != SDeposit && pc != SSleep && pc != LTake && pc != LSleep
  }

  /** `spoken` tells that a word is pending, and then `pairs` holds its depositor alone; only
      the holder of the lock sees anything else. */
  ghost predicate WordsOk(s: State, hp: Pc)
  {
    && Alternate(s.events)
    && (Pending(s) ==> s.myword == s.events[|s.events| - 1].word)
    && (if Taking(hp) then !Pending(s) && |s.events| >= 2 && (s.spoken ==> s.nSpeakers > 0) else s.spoken == Pending(s))
    && (hp == SSleep || hp == LTake || Depositing(hp) ==> s.spoken)
    && (hp == SDeposit || hp == LSleep ==> !s.spoken)
    && |s.pairs| == if hp == LWakePair then 1 else if Depositing(hp) then 0 else |s.events| % 2
  }

  /** The word of thread `t` stands at its slot. */
  ghost predicate Placed(s: State, th: Thread, t: nat)
  {
    th.slot < |s.events| && s.events[th.slot] == Deposit(t, th.word)
  }

  /** A speaker that still waits as a pair deposited the latest word; one that was woken, or has
      returned from its sleep, had its word taken. */
  ghost predicate SlotThread(s: State, hp: Pc, t: nat)
    requires t < |s.threads|
  {
    var th := s.threads[t];
    && (Depositing(th.pc) ==> Placed(s, th, t) && th.slot + 1 == |s.events|)
    && (th.pc == Rel(Pairs) || th.pc == Park(Pairs) ==>
          Placed(s, th, t) &&
          if th.sem in s.pairs then th.slot + (if hp == LWakePair then 2 else 1) == |s.events|
          else th.slot + 1 < |s.events|)
    && (th.pc == Reacq(Pairs) || th.pc == SDone ==> Placed(s, th, t) && th.slot + 1 < |s.events|)
  }

  ghost predicate SlotsOk(s: State, hp: Pc)
  {
    forall t :: 0 <= t < |s.threads| ==> SlotThread(s, hp, t)
  }

  // ----- Wake-ups under way -----

  /** Thread `t` is on its way from condition `c` to the test it slept on. */
  ghost predicate Woken(s: State, c: Cond, t: nat)
    requires t < |s.threads|
  {
    var th := s.threads[t];
    || (th.pc == Park(c) && th.sem !in s.Queue(c))
    || th.pc == Reacq(c)
    || (c == Listeners && (th.pc == LTest || th.pc == LTake))
    || (c == Speakers && (th.pc == SBack || th.pc == STest || th.pc == SDeposit))
  }

  ghost predicate HasWoken(s: State, c: Cond)
  {
    exists t :: 0 <= t < |s.threads| && Woken(s, c, t)
  }

  ghost predicate NoneMissed(s: State, hp: Pc)
  {
    && (Pending(s) && hp != SWake && s.listeners != [] ==> HasWoken(s, Listeners))
    && (!Pending(s) && !Taking(hp) && s.speakers != [] ==> HasWoken(s, Speakers))
  }

  lemma KeepsWoken(s: State, s': State, c: Cond)
    requires |s.threads| == |s'.threads| && forall x :: 0 <= x < |s.threads| && Woken(s, c, x) ==> Woken(s', c, x)
    ensures HasWoken(s, c) ==> HasWoken(s', c)
  {
    if HasWoken(s, c) {
      var x :| 0 <= x < |s.threads| && Woken(s, c, x);
      assert Woken(s', c, x);
    }
  }

  /** The part of the invariant that speaks of words. */
  ghost predicate Meeting(s: State, hp: Pc)
  {
    WordsOk(s, hp) && SlotsOk(s, hp) && NoneMissed(s, hp)
  }

  ghost predicate Good(s: State)
  {
    LockOk(s) && SemsOk(s) && s.nSpeakers == Count(s.threads) && Meeting(s, HolderPc(s))
  }

  // ----- Steps that carry no word -----

  /** The same words, and the same queues except that of the lock. */
  predicate SameWords(s: State, s': State)
  {
    && s'.listeners == s.listeners && s'.speakers == s.speakers && s'.pairs == s.pairs
    && s'.spoken == s.spoken && s'.myword == s.myword && s'.events == s.events && |s'.threads| == |s.threads|
  }

  /** The moves that carry no word. */
  predicate CalmMove(a: Pc, b: Pc)
  {
    || b == a
    || (a == Out && Acquires(b) && !b.Reacq?)
    || (Acquires(a) && b == Acquired(a))
    || (a == SBack && b == STest)
    || ((a == SDone || a == LDone) && b == Out)
    || (a.Rel? && b == Park(a.c))
  }

  predicate Calm(a: Thread, b: Thread)
  {
    CalmMove(a.pc, b.pc) && b.sem == a.sem && b.slot == a.slot && (b.word == a.word || a.pc == Out)
  }

  /** Entering the monitor carries no word. */
  lemma EntryIsCalm(pc: Pc)
    ensures CalmMove(pc, pc) && Neutral(Out)
    ensures Acquires(pc) ==> CalmMove(pc, Acquired(pc)) && Neutral(Acquired(pc)) && Counted(Acquired(pc)) == Counted(pc)
    ensures Acquires(pc) ==> !Waits(pc) && !Waits(Acquired(pc)) && !Inside(pc)
  {
  }

  lemma CalmKeepsSlots(s: State, s': State, hp: Pc, hp': Pc)
    requires SlotsOk(s, hp) && SameWords(s, s')
    requires hp' == hp || (Neutral(hp) && Neutral(hp'))
    requires forall x :: 0 <= x < |s.threads| ==> Calm(s.threads[x], s'.threads[x])
    ensures SlotsOk(s', hp')
  {
    forall x | 0 <= x < |s'.threads| ensures SlotThread(s', hp', x) {
      assert SlotThread(s, hp, x) && Calm(s.threads[x], s'.threads[x]);
    }
  }

  lemma CalmKeepsWoken(s: State, s': State, c: Cond)
    requires SameWords(s, s') && forall x :: 0 <= x < |s.threads| ==> Calm(s.threads[x], s'.threads[x])
    requires c != Pairs && HasWoken(s, c)
    ensures HasWoken(s', c)
  {
    var x :| 0 <= x < |s.threads| && Woken(s, c, x);
    assert Calm(s.threads[x], s'.threads[x]) && s.Queue(c) == s'.Queue(c);
    assert Woken(s', c, x);
  }

  lemma CalmKeepsWords(s: State, s': State, hp: Pc, hp': Pc)
    requires WordsOk(s, hp) && SameWords(s, s')
    requires (hp' == hp && s'.nSpeakers == s.nSpeakers) || (Neutral(hp) && Neutral(hp'))
    ensures WordsOk(s', hp') && Pending(s) == Pending(s')
  {
    hide Alternate;
  }

  lemma CalmKeepsMeeting(s: State, s': State, hp: Pc, hp': Pc)
    requires Meeting(s, hp) && SameWords(s, s')
    requires (hp' == hp && s'.nSpeakers == s.nSpeakers) || (Neutral(hp) && Neutral(hp'))
    requires forall x :: 0 <= x < |s.threads| ==> Calm(s.threads[x], s'.threads[x])
    ensures Meeting(s', hp')
  {
    CalmKeepsSlots(s, s', hp, hp');
    CalmKeepsWords(s, s', hp, hp');
    hide SlotsOk, Calm, HasWoken, WordsOk, Pending;
    if HasWoken(s, Listeners) { CalmKeepsWoken(s, s', Listeners); }
    if HasWoken(s, Speakers) { CalmKeepsWoken(s, s', Speakers); }
  }

  /** Inside the monitor a thread is the holder. */
  lemma InsideHolds(s: State, t: nat)
    requires LockOk(s) && t < |s.threads|
    ensures Inside(s.threads[t].pc) <==> s.holder == Some(t)
  {
    assert LockThread(s, t);
  }

  /** Every part of the invariant after a move of one thread that neither touches the lock nor
      waits. */
  lemma LocalKeepsMonitor(s: State, s': State, t: nat)
    requires LockOk(s) && SemsOk(s) && t < |s.threads| == |s'.threads| && !s.threads[t].blocked && !s'.threads[t].blocked
    requires s'.holder == s.holder && s'.lockQ == s.lockQ && s'.sems == s.sems
    requires s'.listeners == s.listeners && s'.speakers == s.speakers && s'.pairs == s.pairs
    requires s'.threads == s.threads[t := s'.threads[t]]
    requires Inside(s.threads[t].pc) == Inside(s'.threads[t].pc) && !Waits(s.threads[t].pc) && !Waits(s'.threads[t].pc)
    ensures LockOk(s') && SemsOk(s')
  {
    hide SemThread, QueueOk, Distinct;
    forall x | 0 <= x < |s.threads| ensures SameToLock(s.threads[x], s'.threads[x]) {
      assert LockThread(s, x);
    }
    LockFrame(s, s');
    SemsFrame(s, s');
  }

  lemma CallKeepsGood(s: State, t: nat, ch: Choice)
    requires Good(s) && CanStep(s, t, ch) && s.threads[t].pc == Out
    ensures Good(Step(s, t, ch))
  {
    hide LockOk, SemsOk, Meeting;
    var s' := Step(s, t, ch);
    LocalKeepsMonitor(s, s', t);
    CountUpdate(s.threads, t, s'.threads[t]);
    InsideHolds(s, t);
    CalmKeepsMeeting(s, s', HolderPc(s), HolderPc(s'));
  }

  lemma BackKeepsGood(s: State, t: nat, ch: Choice)
    requires Good(s) && CanStep(s, t, ch) && s.threads[t].pc == SBack
    ensures Good(Step(s, t, ch))
  {
    hide LockOk, SemsOk, Meeting;
    var s' := Step(s, t, ch);
    LocalKeepsMonitor(s, s', t);
    CountUpdate(s.threads, t, s'.threads[t]);
    InsideHolds(s, t);
    CalmKeepsMeeting(s, s', HolderPc(s), HolderPc(s'));
  }

  lemma AcquireKeepsGood(s: State, t: nat, ch: Choice)
    requires Good(s) && CanStep(s, t, ch) && Acquires(s.threads[t].pc)
    ensures Good(Step(s, t, ch))
  {
    hide LockOk, SemsOk, Meeting;
    var s' := Step(s, t, ch);
    assert s' == Acquire(s, t);
    AcquireKeepsLock(s, t);
    InsideHolds(s, t);
    hide Step, Count, Neutral, CalmMove, Counted, Acquired, Acquires, Waits, Inside;
    forall x | 0 <= x < |s.threads| ensures Calm(s.threads[x], s'.threads[x]) && SameToSems(s.threads[x], s'.threads[x]) {
      EntryIsCalm(s.threads[x].pc);
    }
    EntryIsCalm(s.threads[t].pc);
    SemsFrame(s, s');
    CountUpdate(s.threads, t, s'.threads[t]);
    CalmKeepsMeeting(s, s', HolderPc(s), HolderPc(s'));
  }

  /** What a release does: the holder leaves for `pc` and the first thread in line, if any, is
      inside. */
  ghost predicate Released(s: State, t: nat, pc: Pc, s': State)
    requires t < |s.threads|
  {
    && SameWords(s, s') && s'.sems == s.sems && s'.nSpeakers == s.nSpeakers
    && var mid := s.threads[t := s.threads[t].(pc := pc)];
       if s.lockQ == [] then s'.holder == None && s'.threads == mid
       else
         var u := s.lockQ[0];
         && u < |s.threads| && u != t && Acquires(s.threads[u].pc) && s'.holder == Some(u)
         && s'.threads == mid[u := mid[u].(blocked := false, pc := Acquired(mid[u].pc))]
  }

  lemma ReleaseIsReleased(s: State, t: nat, pc: Pc)
    requires LockOk(s) && t < |s.threads| && s.holder == Some(t) && !s.threads[t].blocked
    ensures s.lockQ != [] ==> s.lockQ[0] < |s.threads|
    ensures Released(s, t, pc, Release(s.At(t, pc)))
  {
    hide Distinct;
    assert LockThread(s, t);
    if s.lockQ != [] { assert s.lockQ[0] in s.lockQ && LockThread(s, s.lockQ[0]); }
  }

  lemma ReleasedKeepsSems(s: State, t: nat, pc: Pc, s': State)
    requires SemsOk(s) && t < |s.threads| && Released(s, t, pc, s')
    requires if s.threads[t].pc.Rel? then pc == Park(s.threads[t].pc.c) else !Waits(s.threads[t].pc) && !Waits(pc)
    requires !s.threads[t].blocked
    ensures SemsOk(s')
  {
    hide Distinct;
    forall x | 0 <= x < |s'.threads| ensures SemThread(s', x) {
      assert SemThread(s, x);
    }
    forall c: Cond ensures QueueOk(s', c) {
      assert QueueOk(s, c);
      forall id: nat | id in s'.Queue(c) ensures QueueEntry(s', c, id) {
        assert QueueEntry(s, c, id);
      }
    }
  }

  lemma ReleasedIsCalm(s: State, t: nat, pc: Pc, s': State)
    requires t < |s.threads| && s.holder == Some(t) && Released(s, t, pc, s')
    requires CalmMove(s.threads[t].pc, pc) && Neutral(s.threads[t].pc) && Counted(s.threads[t].pc) == Counted(pc)
    ensures forall x :: 0 <= x < |s.threads| ==> Calm(s.threads[x], s'.threads[x])
    ensures Neutral(HolderPc(s)) && Neutral(HolderPc(s')) && Count(s'.threads) == Count(s.threads)
  {
    hide Count, Neutral, CalmMove, Counted, Acquired, Acquires;
    EntryIsCalm(SAcq);
    var mid := s.threads[t := s.threads[t].(pc := pc)];
    CountUpdate(s.threads, t, mid[t]);
    if s.lockQ != [] {
      EntryIsCalm(s.threads[s.lockQ[0]].pc);
      CountUpdate(mid, s.lockQ[0], s'.threads[s.lockQ[0]]);
    }
    forall x | 0 <= x < |s.threads| ensures Calm(s.threads[x], s'.threads[x]) {
      EntryIsCalm(s.threads[x].pc);
    }
  }

  lemma ReleaseKeepsGood(s: State, t: nat, ch: Choice)
    requires Good(s) && CanStep(s, t, ch) && (s.threads[t].pc.Rel? || s.threads[t].pc == SDone || s.threads[t].pc == LDone)
    ensures Good(Step(s, t, ch))
  {
    hide LockOk, SemsOk, Meeting, Count, Calm, HolderPc, Released;
    var s', pc := Step(s, t, ch), s.threads[t].pc;
    var pc' := if pc.Rel? then Park(pc.c) else Out;
    InsideHolds(s, t);
    assert s' == Release(s.At(t, pc'));
    hide Step;
    ReleaseKeepsLock(s, t, pc');
    ReleaseIsReleased(s, t, pc');
    ReleasedKeepsSems(s, t, pc', s');
    ReleasedIsCalm(s, t, pc', s');
    assert SameWords(s, s') && s'.nSpeakers == s.nSpeakers;
    CalmKeepsMeeting(s, s', HolderPc(s), HolderPc(s'));
  }
}
