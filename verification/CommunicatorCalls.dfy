/** The words of the communicator against the calls that brought them: for any number of threads
    and any schedule, what a thread deposits is what it was asked to speak. */
module CommunicatorCalls {
  import opened Helpers
  import opened Rendezvous
  import opened RendezvousLocks
  import opened RendezvousProtocol
  import opened RendezvousSteps
  import opened Communicator

  // ----- Calls, deposits and takes of one thread -----

  /** The arguments of the calls of `speak` that thread `t` makes under a schedule, in order. */
  ghost function SpeakCalls(s: State, sched: seq<(nat, Choice)>, t: nat): seq<int>
    decreases |sched|
  {
    if sched == [] then []
    else
      var u, ch := sched[0].0, sched[0].1;
      if CanStep(s, u, ch) then
        (if u == t && ch.Speak? then [ch.word] else []) + SpeakCalls(Step(s, u, ch), sched[1..], t)
      else SpeakCalls(s, sched[1..], t)
  }

  /** The number of its calls of `listen`. */
  ghost function ListenCalls(s: State, sched: seq<(nat, Choice)>, t: nat): nat
    decreases |sched|
  {
    if sched == [] then 0
    else
      var u, ch := sched[0].0, sched[0].1;
      if CanStep(s, u, ch) then (if u == t && ch.Listen? then 1 else 0) + ListenCalls(Step(s, u, ch), sched[1..], t)
      else ListenCalls(s, sched[1..], t)
  }

  /** The words that thread `t` has deposited, in order. */
  function DepositsBy(events: seq<Event>, t: nat): seq<int>
  {
    if events == [] then []
    else
      var e := events[|events| - 1];
      DepositsBy(events[..|events| - 1], t) + if e.Deposit? && e.who == t then [e.word] else []
  }

  /** How many words it has taken. */
  function TakesBy(events: seq<Event>, t: nat): nat
  {
    if events == [] then 0
    else
      var e := events[|events| - 1];
      TakesBy(events[..|events| - 1], t) + if e.Take? && e.who == t then 1 else 0
  }

  /** Inside `speak`, before the deposit. */
  predicate ToDeposit(pc: Pc)
  {
    pc == SAcq || pc == STest || pc == SSleep || pc == SBack || pc == SDeposit ||
    pc == Rel(Speakers) || pc == Park(Speakers) || pc == Reacq(Speakers)
  }

  /** Inside `listen`, before the take. */
  predicate ToTake(pc: Pc)
  {
    pc == LAcq || pc == LTest || pc == LSleep || pc == LTake ||
    pc == Rel(Listeners) || pc == Park(Listeners) || pc == Reacq(Listeners)
  }

  lemma EventsAppend(events: seq<Event>, e: Event, t: nat)
    ensures DepositsBy(events + [e], t) == DepositsBy(events, t) + if e.Deposit? && e.who == t then [e.word] else []
    ensures TakesBy(events + [e], t) == TakesBy(events, t) + if e.Take? && e.who == t then 1 else 0
  {
    assert (events + [e])[..|events|] == events;
  }

  /** The words that thread `t` has deposited or is to deposit in its call under way. */
  function Words(s: State, t: nat): seq<int>
    requires t < |s.threads|
  {
    DepositsBy(s.events, t) + if ToDeposit(s.threads[t].pc) then [s.threads[t].word] else []
  }

  function Listens(s: State, t: nat): nat
    requires t < |s.threads|
  {
    TakesBy(s.events, t) + if ToTake(s.threads[t].pc) then 1 else 0
  }

  // ----- One step -----

  /** A thread moves without a call, a deposit or a take. */
  predicate Passes(a: Thread, b: Thread)
  {
    b.word == a.word && ToDeposit(a.pc) == ToDeposit(b.pc) && ToTake(a.pc) == ToTake(b.pc)
  }

  lemma AcquirePasses(s: State, u: nat, t: nat)
    requires u < |s.threads| && t < |s.threads| && Acquires(s.threads[u].pc)
    ensures var s' := Acquire(s, u); s'.events == s.events && |s'.threads| == |s.threads| && Passes(s.threads[t], s'.threads[t])
  {
  }

  lemma ReleasePasses(s: State, t: nat)
    requires t < |s.threads| && (s.lockQ != [] ==> s.lockQ[0] < |s.threads|)
    ensures var s' := Release(s); s'.events == s.events && |s'.threads| == |s.threads| && Passes(s.threads[t], s'.threads[t])
  {
  }

  lemma PPasses(s: State, u: nat, t: nat)
    requires t < |s.threads| && u < |s.threads| && s.threads[u].pc.Park? && s.threads[u].sem < |s.sems|
    ensures var s' := P(s, u); s'.events == s.events && |s'.threads| == |s.threads| && Passes(s.threads[t], s'.threads[t])
  {
  }

  lemma WakePasses(s: State, c: Cond, t: nat)
    requires t < |s.threads| && CanWake(s, c)
    ensures var s' := Wake(s, c); s'.events == s.events && |s'.threads| == |s.threads| && Passes(s.threads[t], s'.threads[t])
  {
  }

  lemma MovePasses(s: State, u: nat, pc: Pc, t: nat)
    requires t < |s.threads| && u < |s.threads|
    requires ToDeposit(s.threads[u].pc) == ToDeposit(pc) && ToTake(s.threads[u].pc) == ToTake(pc)
    ensures Passes(s.threads[t], s.At(u, pc).threads[t])
  {
  }

  lemma SleepPasses(s: State, u: nat, c: Cond, t: nat)
    requires t < |s.threads| && u < |s.threads|
    requires ToDeposit(s.threads[u].pc) == ToDeposit(Rel(c)) && ToTake(s.threads[u].pc) == ToTake(Rel(c))
    ensures var s' := Enqueue(s, u, c); s'.events == s.events && |s'.threads| == |s.threads| && Passes(s.threads[t], s'.threads[t])
  {
  }

  lemma QuietSpeak(s: State, u: nat, ch: Choice, t: nat)
    requires CanStep(s, u, ch) && t < |s.threads|
    requires s.threads[u].pc in {SAcq, STest, SSleep, SBack}
    ensures var s' := Step(s, u, ch); s'.events == s.events && |s'.threads| == |s.threads| && Passes(s.threads[t], s'.threads[t])
  {
    hide Acquire, Release, P, Wake, Enqueue, Passes;
    match s.threads[u].pc
    case SAcq => AcquirePasses(s, u, t);
    case STest => MovePasses(s, u, if s.spoken then SSleep else SDeposit, t);
    case SBack => MovePasses(s.(nSpeakers := s.nSpeakers - 1), u, STest, t);
    case SSleep => SleepPasses(s.(nSpeakers := s.nSpeakers + 1), u, Speakers, t);
  }

  lemma QuietWakeSpeaker(s: State, u: nat, ch: Choice, t: nat)
    requires CanStep(s, u, ch) && t < |s.threads| && s.threads[u].pc == LWakeSpk
    ensures var s' := Step(s, u, ch); s'.events == s.events && |s'.threads| == |s.threads| && Passes(s.threads[t], s'.threads[t])
  {
    hide Wake, Passes;
    if s.nSpeakers > 0 { LeaveAndWake(s, s.(spoken := false).At(u, LDone), u, LDone, Speakers, t); } else { MovePasses(s, u, LDone, t); }
  }

  lemma QuietListenEnd(s: State, u: nat, ch: Choice, t: nat)
    requires CanStep(s, u, ch) && t < |s.threads|
    requires s.threads[u].pc in {LWakePair, LDone}
    ensures var s' := Step(s, u, ch); s'.events == s.events && |s'.threads| == |s.threads| && Passes(s.threads[t], s'.threads[t])
  {
    hide Acquire, Release, P, Wake, Enqueue, Passes;
    match s.threads[u].pc
    case LWakePair => LeaveAndWake(s, s.At(u, LWakeSpk), u, LWakeSpk, Pairs, t);
    case LDone => LeaveAndRelease(s, u, Out, t);
  }

  lemma QuietSpeakEnd(s: State, u: nat, ch: Choice, t: nat)
    requires CanStep(s, u, ch) && t < |s.threads|
    requires s.threads[u].pc in {SWake, SPair, SDone}
    ensures var s' := Step(s, u, ch); s'.events == s.events && |s'.threads| == |s.threads| && Passes(s.threads[t], s'.threads[t])
  {
    hide Acquire, Release, P, Wake, Enqueue, Passes;
    match s.threads[u].pc
    case SWake => LeaveAndWake(s, s.At(u, SPair), u, SPair, Listeners, t);
    case SPair => SleepPasses(s, u, Pairs, t);
    case SDone => LeaveAndRelease(s, u, Out, t);
  }

  lemma QuietListen(s: State, u: nat, ch: Choice, t: nat)
    requires CanStep(s, u, ch) && t < |s.threads|
    requires s.threads[u].pc in {LAcq, LTest, LSleep}
    ensures var s' := Step(s, u, ch); s'.events == s.events && |s'.threads| == |s.threads| && Passes(s.threads[t], s'.threads[t])
  {
    hide Acquire, Release, P, Wake, Enqueue, Passes;
    match s.threads[u].pc
    case LAcq => AcquirePasses(s, u, t);
    case LTest => MovePasses(s, u, if s.spoken then LTake else LSleep, t);
    case LSleep => SleepPasses(s, u, Listeners, t);
  }

  lemma QuietSleep(s: State, u: nat, ch: Choice, t: nat)
    requires CanStep(s, u, ch) && t < |s.threads|
    requires s.threads[u].pc.Rel? || s.threads[u].pc.Park? || s.threads[u].pc.Reacq?
    ensures var s' := Step(s, u, ch); s'.events == s.events && |s'.threads| == |s.threads| && Passes(s.threads[t], s'.threads[t])
  {
    hide Acquire, Release, P, Passes;
    match s.threads[u].pc
    case Rel(c) => LeaveAndRelease(s, u, Park(c), t);
    case Park(_) => PPasses(s, u, t);
    case Reacq(_) => AcquirePasses(s, u, t);
  }

  /** A step that is neither a call nor a deposit nor a take. */
  lemma QuietStep(s: State, u: nat, ch: Choice, t: nat)
    requires CanStep(s, u, ch) && t < |s.threads|
    requires s.threads[u].pc != Out && s.threads[u].pc != SDeposit && s.threads[u].pc != LTake
    ensures var s' := Step(s, u, ch); s'.events == s.events && |s'.threads| == |s.threads| && Passes(s.threads[t], s'.threads[t])
  {
    var pc := s.threads[u].pc;
    hide Step, CanStep, Passes;
    if pc.Rel? || pc.Park? || pc.Reacq? { QuietSleep(s, u, ch, t); }
    else if pc in {SAcq, STest, SSleep, SBack} { QuietSpeak(s, u, ch, t); }
    else if pc in {SWake, SPair, SDone} { QuietSpeakEnd(s, u, ch, t); }
    else if pc == LWakeSpk { QuietWakeSpeaker(s, u, ch, t); }
    else if pc in {LWakePair, LDone} { QuietListenEnd(s, u, ch, t); }
    else { QuietListen(s, u, ch, t); }
  }

  lemma LeaveAndWake(s: State, m: State, u: nat, pc: Pc, c: Cond, t: nat)
    requires u < |s.threads| && t < |s.threads| && (m == s.At(u, pc) || m == s.(spoken := false).At(u, pc)) && CanWake(m, c)
    requires ToDeposit(s.threads[u].pc) == ToDeposit(pc) && ToTake(s.threads[u].pc) == ToTake(pc)
    ensures var s' := Wake(m, c); s'.events == s.events && |s'.threads| == |s.threads| && Passes(s.threads[t], s'.threads[t])
  {
    WakePasses(m, c, t);
    MovePasses(s, u, pc, t);
    hide Wake, ToDeposit, ToTake;
  }

  lemma LeaveAndRelease(s: State, u: nat, pc: Pc, t: nat)
    requires u < |s.threads| && t < |s.threads| && (s.lockQ != [] ==> s.lockQ[0] < |s.threads|)
    requires ToDeposit(s.threads[u].pc) == ToDeposit(pc) && ToTake(s.threads[u].pc) == ToTake(pc)
    ensures var s' := Release(s.At(u, pc)); s'.events == s.events && |s'.threads| == |s.threads| && Passes(s.threads[t], s'.threads[t])
  {
    ReleasePasses(s.At(u, pc), t);
    MovePasses(s, u, pc, t);
    hide Release, ToDeposit, ToTake;
  }

  lemma DepositWords(s: State, u: nat, ch: Choice, t: nat)
    requires CanStep(s, u, ch) && t < |s.threads| && s.threads[u].pc == SDeposit
    ensures var s' := Step(s, u, ch);
      && |s'.threads| == |s.threads| && s'.threads[t].word == s.threads[t].word
      && Words(s', t) == Words(s, t) && Listens(s', t) == Listens(s, t)
  {
    EventsAppend(s.events, Deposit(u, s.threads[u].word), t);
    hide DepositsBy, TakesBy;
  }

  lemma TakeWords(s: State, u: nat, ch: Choice, t: nat)
    requires CanStep(s, u, ch) && t < |s.threads| && s.threads[u].pc == LTake
    ensures var s' := Step(s, u, ch);
      && |s'.threads| == |s.threads| && s'.threads[t].word == s.threads[t].word
      && Words(s', t) == Words(s, t) && Listens(s', t) == Listens(s, t)
  {
    EventsAppend(s.events, Take(u, s.myword), t);
    hide DepositsBy, TakesBy;
  }

  lemma CallWords(s: State, u: nat, ch: Choice, t: nat)
    requires CanStep(s, u, ch) && t < |s.threads| && s.threads[u].pc == Out
    ensures var s' := Step(s, u, ch);
      && |s'.threads| == |s.threads|
      && Words(s', t) == Words(s, t) + (if u == t && ch.Speak? then [ch.word] else [])
      && Listens(s', t) == Listens(s, t) + (if u == t && ch.Listen? then 1 else 0)
      && s'.threads[t].word == (if u == t && ch.Speak? then ch.word else s.threads[t].word)
  {
    hide DepositsBy, TakesBy;
  }

  lemma StepWords(s: State, u: nat, ch: Choice, t: nat)
    requires CanStep(s, u, ch) && t < |s.threads|
    ensures var s' := Step(s, u, ch);
      && |s'.threads| == |s.threads|
      && Words(s', t) == Words(s, t) + (if u == t && ch.Speak? then [ch.word] else [])
      && Listens(s', t) == Listens(s, t) + (if u == t && ch.Listen? then 1 else 0)
      && s'.threads[t].word == (if u == t && ch.Speak? then ch.word else s.threads[t].word)
  {
    hide Step, DepositsBy, TakesBy, ToDeposit, ToTake;
    var pc := s.threads[u].pc;
    if pc == SDeposit || pc == LTake {
      NoCall(s, u, ch);
      if pc == SDeposit { DepositWords(s, u, ch, t); } else { TakeWords(s, u, ch, t); }
      hide Words, Listens, CanStep;
    } else if pc == Out {
      CallWords(s, u, ch, t);
      hide Words, Listens;
    } else {
      QuietStep(s, u, ch, t);
      NoCall(s, u, ch);
      hide CanStep;
    }
  }

  lemma NoCall(s: State, u: nat, ch: Choice)
    requires CanStep(s, u, ch) && s.threads[u].pc != Out
    ensures ch == Go
  {
  }

  // ----- Whole runs -----

  lemma {:induction false} RunWords(s: State, sched: seq<(nat, Choice)>, t: nat)
    requires t < |s.threads|
    ensures var s' := Run(s, sched);
      && |s'.threads| == |s.threads|
      && Words(s', t) == Words(s, t) + SpeakCalls(s, sched, t)
      && Listens(s', t) == Listens(s, t) + ListenCalls(s, sched, t)
      && s'.threads[t].word == (var calls := SpeakCalls(s, sched, t); if calls == [] then s.threads[t].word else calls[|calls| - 1])
    decreases |sched|
  {
    hide Step, CanStep, Words, Listens;
    if sched != [] {
      var u, ch := sched[0].0, sched[0].1;
      if CanStep(s, u, ch) {
        StepWords(s, u, ch, t);
        RunWords(Step(s, u, ch), sched[1..], t);
      } else {
        RunWords(s, sched[1..], t);
      }
    }
  }

  /** The words a thread has deposited, in order, are the arguments of its calls of `speak`, except
      that of a call which has not come to its deposit yet. */
  lemma DepositsAreArguments(n: nat, sched: seq<(nat, Choice)>, t: nat)
    requires t < n
    ensures var s := Run(Init(n), sched);
      && |s.threads| == n
      && SpeakCalls(Init(n), sched, t) ==
         DepositsBy(s.events, t) + if ToDeposit(s.threads[t].pc) then [s.threads[t].word] else []
  {
    RunWords(Init(n), sched, t);
  }

  /** A thread has taken one word for each of its calls of `listen`, except for one under way. */
  lemma OneTakePerListen(n: nat, sched: seq<(nat, Choice)>, t: nat)
    requires t < n
    ensures var s := Run(Init(n), sched);
      && |s.threads| == n
      && ListenCalls(Init(n), sched, t) == TakesBy(s.events, t) + if ToTake(s.threads[t].pc) then 1 else 0
  {
    RunWords(Init(n), sched, t);
  }

  lemma {:induction false} DepositIsThere(events: seq<Event>, t: nat, i: nat)
    requires i < |events| && events[i].Deposit? && events[i].who == t
    ensures DepositsBy(events, t) != []
  {
    if i < |events| - 1 { DepositIsThere(events[..|events| - 1], t, i); }
  }

  /** Thread `t` has deposited `word`, and a listener took it next. */
  ghost predicate HeardNext(events: seq<Event>, t: nat, word: int)
  {
    exists i: nat :: i + 1 < |events| && events[i] == Deposit(t, word) && events[i + 1].Take? && events[i + 1].word == word
  }

  /** A speaker that is about to return has deposited the argument of its latest call, and a
      listener took that word next. */
  lemma SpeakerWasHeard(n: nat, sched: seq<(nat, Choice)>, t: nat)
    requires t < n && var s := Run(Init(n), sched); |s.threads| == n && s.threads[t].pc == SDone
    ensures var s := Run(Init(n), sched); var calls := SpeakCalls(Init(n), sched, t);
      calls != [] && HeardNext(s.events, t, calls[|calls| - 1])
  {
    RunWords(Init(n), sched, t);
    RunIsGood(n, sched);
    var s := Run(Init(n), sched);
    hide Run, SpeakCalls, LockOk, SemsOk, NoneMissed;
    assert SlotThread(s, HolderPc(s), t);
    var i := s.threads[t].slot;
    DepositIsThere(s.events, t, i);
    assert Alternate(s.events);
    DepositsAreTakenNext(s.events, i);
  }
}
