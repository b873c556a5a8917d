/** The communicator on top of condition variables, locks and semaphores: every interleaving
    of any number of threads, one uninterruptible operation at a time. */
module Rendezvous {
  import opened Helpers

  datatype Cond = Listeners | Speakers | Pairs

  /** Where a thread stands in `speak` (S..), in `listen` (L..) or in the sleep of a condition
      variable: releasing the lock, in the P of its own semaphore, taking the lock again. */
  datatype Pc =
    | Out
    | SAcq | STest | SSleep | SBack | SDeposit | SWake | SPair | SDone
    | LAcq | LTest | LSleep | LTake | LWakePair | LWakeSpk | LDone
    | Rel(c: Cond) | Park(c: Cond) | Reacq(c: Cond)

  /** `sem` is the semaphore of the latest sleep, `word` the word to speak, `slot` the place of
      that word among the events. */
  datatype Thread = Thread(pc: Pc, blocked: bool, sem: nat, word: int, slot: nat)

  /** A semaphore with the threads waiting in P; `owner` is the thread it was made for. */
  datatype Sem = Sem(value: nat, waiting: seq<nat>, owner: nat)

  datatype Event = Deposit(who: nat, word: int) | Take(who: nat, word: int)

  datatype State = State(holder: Option<nat>, lockQ: seq<nat>, sems: seq<Sem>,
                         listeners: seq<nat>, speakers: seq<nat>, pairs: seq<nat>,
                         spoken: bool, myword: int, nSpeakers: int,
                         threads: seq<Thread>, events: seq<Event>)
  {
    function Queue(c: Cond): seq<nat>
    {
      match c case Listeners => listeners case Speakers => speakers case Pairs => pairs
    }

    function WithQueue(c: Cond, q: seq<nat>): State
    {
      match c
      case Listeners => this.(listeners := q)
      case Speakers => this.(speakers := q)
      case Pairs => this.(pairs := q)
    }

    function At(t: nat, pc: Pc): State
      requires t < |threads|
    {
      this.(threads := threads[t := threads[t].(pc := pc)])
    }
  }

  function Init(n: nat): State
  {
    State(None, [], [], [], [], [], false, 0, 0, seq(n, i => Thread(Out, false, 0, 0, 0)), [])
  }

  // ----- Lock -----

  /** The place after an acquire. */
  function Acquired(pc: Pc): Pc
  {
    match pc
    case SAcq => STest
    case LAcq => LTest
    case Reacq(Speakers) => SBack
    case Reacq(Listeners) => LTest
    case Reacq(Pairs) => SDone
    case _ => pc
  }

  predicate Acquires(pc: Pc) { pc == SAcq || pc == LAcq || pc.Reacq? }

  /** Takes a free lock, or waits in line. */
  function Acquire(s: State, t: nat): State
    requires t < |s.threads|
  {
    var th := s.threads[t];
    if s.holder == None then s.(holder := Some(t)).At(t, Acquired(th.pc))
    else s.(lockQ := s.lockQ + [t], threads := s.threads[t := th.(blocked := true)])
  }

  /** Hands the lock to the first thread in line. */
  function Release(s: State): State
    requires s.lockQ != [] ==> s.lockQ[0] < |s.threads|
  {
    if s.lockQ == [] then s.(holder := None)
    else
      var u := s.lockQ[0];
      var th := s.threads[u];
      s.(holder := Some(u), lockQ := s.lockQ[1..],
         threads := s.threads[u := th.(blocked := false, pc := Acquired(th.pc))])
  }

  // ----- Semaphore -----

  function P(s: State, t: nat): State
    requires t < |s.threads| && s.threads[t].pc.Park? && s.threads[t].sem < |s.sems|
  {
    var th := s.threads[t];
    var sem := s.sems[th.sem];
    if sem.value == 0 then
      s.(sems := s.sems[th.sem := sem.(waiting := sem.waiting + [t])], threads := s.threads[t := th.(blocked := true)])
    else
      s.(sems := s.sems[th.sem := sem.(value := sem.value - 1)]).At(t, Reacq(th.pc.c))
  }

  function V(s: State, id: nat): State
    requires id < |s.sems| && (s.sems[id].waiting != [] ==> s.sems[id].waiting[0] < |s.threads|)
  {
    var sem := s.sems[id];
    if sem.waiting == [] then s.(sems := s.sems[id := sem.(value := sem.value + 1)])
    else
      var u := sem.waiting[0];
      var th := s.threads[u];
      var pc := if th.pc.Park? then Reacq(th.pc.c) else th.pc;
      s.(sems := s.sems[id := sem.(waiting := sem.waiting[1..])],
         threads := s.threads[u := th.(blocked := false, pc := pc)])
  }

  // ----- Condition -----

  /** The first part of a sleep: a fresh semaphore joins the queue. */
  function Enqueue(s: State, t: nat, c: Cond): State
    requires t < |s.threads|
  {
    var id := |s.sems|;
    s.(sems := s.sems + [Sem(0, [], t)], threads := s.threads[t := s.threads[t].(sem := id, pc := Rel(c))])
    .WithQueue(c, s.Queue(c) + [id])
  }

  ghost predicate CanWake(s: State, c: Cond)
  {
    s.Queue(c) != [] ==>
      var id := s.Queue(c)[0];
      id < |s.sems| && (s.sems[id].waiting != [] ==> s.sems[id].waiting[0] < |s.threads|)
  }

  function Wake(s: State, c: Cond): State
    requires CanWake(s, c)
  {
    var q := s.Queue(c);
    if q == [] then s else V(s.WithQueue(c, q[1..]), q[0])
  }

  // ----- Steps -----

  datatype Choice = Speak(word: int) | Listen | Go

  /** What the step of thread `t` needs: it exists, it is not asleep, and the objects it
      touches exist. */
  ghost predicate CanStep(s: State, t: nat, ch: Choice)
  {
    && t < |s.threads| && !s.threads[t].blocked
    && var pc := s.threads[t].pc;
       && (pc == Out <==> ch != Go)
       && (pc.Park? ==> s.threads[t].sem < |s.sems|)
       && (pc.Rel? || pc == SDone || pc == LDone ==> s.lockQ != [] ==> s.lockQ[0] < |s.threads|)
       && (pc == SWake ==> CanWake(s, Listeners))
       && (pc == LWakePair ==> CanWake(s, Pairs))
       && (pc == LWakeSpk ==> CanWake(s, Speakers))
  }

  function Step(s: State, t: nat, ch: Choice): State
    requires CanStep(s, t, ch)
  {
    var th := s.threads[t];
    match th.pc
    case Out =>
      if ch.Speak? then s.(threads := s.threads[t := th.(pc := SAcq, word := ch.word)]) else s.At(t, LAcq)
    case SAcq => Acquire(s, t)
    case STest => s.At(t, if s.spoken then SSleep else SDeposit)
    case SSleep => Enqueue(s.(nSpeakers := s.nSpeakers + 1), t, Speakers)
    case SBack => s.(nSpeakers := s.nSpeakers - 1).At(t, STest)
    case SDeposit =>
      s.(myword := th.word, spoken := true, events := s.events + [Deposit(t, th.word)],
         threads := s.threads[t := th.(pc := SWake, slot := |s.events|)])
    case SWake => Wake(s.At(t, SPair), Listeners)
    case SPair => Enqueue(s, t, Pairs)
    case SDone => Release(s.At(t, Out))
    case LAcq => Acquire(s, t)
    case LTest => s.At(t, if s.spoken then LTake else LSleep)
    case LSleep => Enqueue(s, t, Listeners)
    case LTake =>
      s.(spoken := s.nSpeakers != 0 && s.spoken, events := s.events + [Take(t, s.myword)]).At(t, LWakePair)
    case LWakePair => Wake(s.At(t, LWakeSpk), Pairs)
    case LWakeSpk =>
      if s.nSpeakers > 0 then Wake(s.(spoken := false).At(t, LDone), Speakers) else s.At(t, LDone)
    case LDone => Release(s.At(t, Out))
    case Rel(c) => Release(s.At(t, Park(c)))
    case Park(_) => P(s, t)
    case Reacq(_) => Acquire(s, t)
  }
}
