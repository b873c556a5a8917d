/** How long a request takes, in every run of the hierarchy. */
module HierarchyTiming {
  import opened Helpers
  import opened LruCache
  import opened MemQueue
  import opened Hierarchy
  import opened HierarchySafety
  import opened HierarchyProgress
  import opened HierarchyQueues
  import opened HierarchyCaches

  // ----- A load waits for its entry to be ready -----

  /** The load `r` of the CPU stands in a queue and is not ready before `bound`. */
  ghost predicate Carried(q: seq<Entry>, r: Request, bound: nat)
  {
    Carries(q, LoadIndex(q), r) && q[LoadIndex(q)].ready >= bound
  }

  ghost predicate InLine(c: Core, r: Request, bound: nat)
  {
    c.cpu.status == Waiting && c.cpu.cur == r && !c.cpu.done && (Carried(c.l2q, r, bound) || Carried(c.memq, r, bound))
  }

  lemma TailCarried(q: seq<Entry>, r: Request, bound: nat)
    requires Carried(q, r, bound) && q[0].ready < bound
    ensures !CpuLoad(q[0]) && Carried(q[1..], r, bound)
  {
    CarriesTail(q, r);
  }

  lemma JoinsCarried(k: Kind, q: seq<Entry>, x: Request, cycle: nat, q': seq<Entry>, r: Request, bound: nat)
    requires Joins(k, q, x, cycle, q') && !(x.fromCPU && x.load) && Carried(q, r, bound)
    ensures Carried(q', r, bound)
  {
    JoinsOther(k, q, x, cycle, q', r);
  }

  /** A phase that leaves the load in line and serves nothing. */
  ghost predicate StillInLine(c: Core, c': Core, r: Request, bound: nat)
  {
    InLine(c', r, bound) && c'.served == c.served && c'.cycle == c.cycle
  }

  lemma CpuWaits(c: Core, c1: Core, r: Request, bound: nat)
    requires InLine(c, r, bound) && CpuMoves(c, c1)
    ensures StillInLine(c, c1, r, bound)
  {
    hide Joins, Carried;
    if c1 != c {
      var x: Request :| !x.fromCPU && x.load && Joins(QUEUE_L2, c.l2q, x, c.cycle, c1.l2q);
      if Carried(c.l2q, r, bound) { JoinsCarried(QUEUE_L2, c.l2q, x, c.cycle, c1.l2q, r, bound); }
    }
  }

  lemma L2Waits(c: Core, c2: Core, r: Request, bound: nat)
    requires InLine(c, r, bound) && c.cycle < bound && L2Moves(c, c2) && OneLoad(c) && Kinds(c)
    ensures StillInLine(c, c2, r, bound)
  {
    if FrontReady(c.l2q, c.cycle) {
      NotTheFront(c, r, bound);
      var front := c.l2q[0].req;
      hide Joins, Carried, OneLoad, Kinds;
      if Carried(c.memq, r, bound) && c2.memq != c.memq { JoinsCarried(QUEUE_MEM, c.memq, front, c.cycle, c2.memq, r, bound); }
    }
  }

  lemma NotTheFront(c: Core, r: Request, bound: nat)
    requires InLine(c, r, bound) && c.cycle < bound && FrontReady(c.l2q, c.cycle) && OneLoad(c) && Kinds(c)
    ensures !c.l2q[0].req.fromCPU && (Carried(c.l2q, r, bound) ==> Carried(c.l2q[1..], r, bound))
  {
    if Carried(c.l2q, r, bound) {
      TailCarried(c.l2q, r, bound);
    } else {
      assert CpuLoad(c.memq[LoadIndex(c.memq)]) && !NoLoad(c.memq);
      assert NoLoad(c.l2q) && !CpuLoad(c.l2q[0]);
    }
  }

  lemma MemWaits(c: Core, c3: Core, r: Request, bound: nat)
    requires InLine(c, r, bound) && c.cycle < bound && MemMoves(c, c3) && OneLoad(c)
    ensures StillInLine(c, c3, r, bound)
  {
    if FrontReady(c.memq, c.cycle) {
      if Carried(c.memq, r, bound) {
        TailCarried(c.memq, r, bound);
      } else {
        assert CpuLoad(c.l2q[LoadIndex(c.l2q)]) && !NoLoad(c.l2q);
        assert NoLoad(c.memq) && !CpuLoad(c.memq[0]);
      }
      hide Carried, OneLoad;
    }
  }

  lemma WbWaits(c: Core, c4: Core, r: Request, bound: nat)
    requires InLine(c, r, bound) && WbMoves(c, c4) && Kinds(c)
    ensures StillInLine(c, c4, r, bound)
  {
    if FrontReady(c.wb, c.cycle) {
      assert CpuStore(c.wb[0]);
      hide Joins, Carried, Kinds;
      if Carried(c.memq, r, bound) && c4.memq != c.memq { JoinsCarried(QUEUE_MEM, c.memq, c.wb[0].req, c.cycle, c4.memq, r, bound); }
    }
  }

  /** The turn after the CPU has moved. */
  lemma RestWaits(trace: seq<TraceOp>, c1: Core, c2: Core, c3: Core, c4: Core, now: nat, r: Request, bound: nat)
    requires Safe(trace, c1, now) && InLine(c1, r, bound) && c1.cycle < bound
    requires L2Moves(c1, c2) && MemMoves(c2, c3) && WbMoves(c3, c4)
    ensures StillInLine(c1, c4, r, bound)
  {
    hide L2Moves, MemMoves, WbMoves, InLine, Kinds, OneLoad, Logged, Conserved;
    L2Waits(c1, c2, r, bound);
    L2KeepsSafe(trace, c1, c2, now);
    MemWaits(c2, c3, r, bound);
    MemKeepsSafe(trace, c2, c3, now);
    WbWaits(c3, c4, r, bound);
  }

  lemma TurnWaits(trace: seq<TraceOp>, c: Core, c': Core, r: Request, bound: nat)
    requires Safe(trace, c, c.cycle) && InLine(c, r, bound) && c.cycle < bound && Turn(c, c')
    ensures InLine(c', r, bound) && c'.served == c.served && c'.cycle == c.cycle + 1
  {
    hide CpuMoves, L2Moves, MemMoves, WbMoves, Safe, Carried;
    var c1, c2, c3, c4 :|
      CpuMoves(c, c1) && L2Moves(c1, c2) && MemMoves(c2, c3) && WbMoves(c3, c4) && c' == c4.(cycle := c4.cycle + 1);
    CpuWaits(c, c1, r, bound);
    CpuKeepsSafe(trace, c, c1);
    RestWaits(trace, c1, c2, c3, c4, c.cycle + 1, r, bound);
  }

  /** A load in line is not served before the cycle in which its entry is ready. */
  lemma {:induction false} RunWaits(trace: seq<TraceOp>, pfs: seq<Option<Request>>, more: seq<Option<Request>>, r: Request, bound: nat)
    requires InLine(Run(trace, pfs).core, r, bound) && Run(trace, pfs + more).core.cycle <= bound
    ensures InLine(Run(trace, pfs + more).core, r, bound)
    ensures Run(trace, pfs + more).core.served == Run(trace, pfs).core.served
  {
    hide Run, Step, InLine, Turn, Safe;
    if more == [] {
      assert pfs + more == pfs;
    } else {
      var before, pf := more[..|more| - 1], more[|more| - 1];
      var s := Run(trace, pfs + before);
      assert pfs + more == pfs + before + [pf];
      RunGrows(trace, pfs + before, pf);
      StepCycle(s, pf);
      RunWaits(trace, pfs, before, r, bound);
      InLineRuns(s.core, r, bound);
      RunIsSafe(trace, pfs + before);
      StepIsTurn(s, pf);
      TurnWaits(trace, s.core, Step(s, pf).core, r, bound);
    }
  }

  lemma InLineRuns(c: Core, r: Request, bound: nat)
    requires InLine(c, r, bound)
    ensures !c.cpu.done
  {
  }

  lemma StepCycle(s: State, pf: Option<Request>)
    requires s.Shaped()
    ensures Step(s, pf).core.cycle == s.core.cycle + 1
  {
    hide CpuPhase, L2Phase, MemPhase, WbPhase;
    var s1 := CpuPhase(s, pf);
    var s2 := L2Phase(s1);
    PhaseCycle(s, pf);
    PhaseCycle(s1, pf);
    PhaseCycle(s2, pf);
    PhaseCycle(MemPhase(s2), pf);
  }

  lemma PhaseCycle(s: State, pf: Option<Request>)
    requires s.Shaped()
    ensures CpuPhase(s, pf).core.cycle == s.core.cycle && L2Phase(s).core.cycle == s.core.cycle
    ensures MemPhase(s).core.cycle == s.core.cycle && WbPhase(s).core.cycle == s.core.cycle
  {
    hide CheckIn, AccessIn, Offer;
  }

  // ----- A load enters the L2 queue -----

  /** In this turn a load that L1 does not answer finds room in the L2 queue. */
  predicate Enters(s: State)
    requires s.Shaped()
  {
    var c := s.core;
    && !c.cpu.done && |c.l2q| < QUEUE_L2.capacity
    && ((Issuing(c) && c.cpu.cur.load && !CheckIn(L1, s.dcache, c.cpu.cur.addr)) || c.cpu.status == StalledL2)
  }

  function Entering(c: Core): Request { if c.cpu.status == StalledL2 then c.cpu.cur else Issued(c) }

  lemma EntersMeans(s: State, pf: Option<Request>)
    requires s.Shaped() && Enters(s)
    ensures var c, c1 := s.core, CpuPhase(s, pf).core;
      c1 == c.(cpu := c1.cpu, l2q := Offer(QUEUE_L2, c.l2q, Entering(c), c.cycle))
      && c1.cpu == c.cpu.(status := Waiting, cur := Entering(c))
  {
    hide CheckIn, AccessIn, Offer;
  }

  /** An entry offered by the CPU is ready when `bound` says or later: it takes over a prefetch that
      is, or joins at the end. */
  ghost predicate ReadyFrom(k: Kind, q: seq<Entry>, addr: nat, joins: nat, bound: nat)
  {
    if Prefetched(k, q, addr) then forall d: nat :: LastFor(k, q, addr, d) ==> q[d].ready >= bound
    else joins >= bound
  }

  /** Where a load stands that was offered to a queue without one. */
  lemma LoadPlace(k: Kind, q: seq<Entry>, r: Request, cycle: nat, q': seq<Entry>)
    requires Offered(k, q, r, cycle, q') && |q| != k.capacity && NoLoad(q) && r.fromCPU && r.load
    ensures Carries(q', LoadIndex(q'), r)
    ensures var p := LoadIndex(q');
      if Prefetched(k, q, r.addr) then p < |q| && LastFor(k, q, r.addr, p) && q'[p].ready == q[p].ready
      else q'[p].ready == if k.pipelined || q == [] then cycle + k.latency else q[|q| - 1].ready + k.latency
  {
    var p := LoadIndex(q');
    if Prefetched(k, q, r.addr) {
      var d: nat :| LastFor(k, q, r.addr, d) && !q[d].req.fromCPU && TakesOver(q, d, r, q');
      assert CpuLoad(q'[d]) && forall j :: 0 <= j < |q'| && j != d ==> q'[j] == q[j];
      assert p == d;
    } else {
      assert CpuLoad(q'[|q|]) && forall j :: 0 <= j < |q| ==> q'[j] == q'[..|q|][j];
      assert p == |q|;
    }
  }

  lemma OfferedLoad(k: Kind, q: seq<Entry>, r: Request, cycle: nat, q': seq<Entry>, bound: nat)
    requires Offered(k, q, r, cycle, q') && |q| != k.capacity && NoLoad(q) && r.fromCPU && r.load
    requires ReadyFrom(k, q, r.addr, if k.pipelined || q == [] then cycle + k.latency else q[|q| - 1].ready + k.latency, bound)
    ensures Carried(q', r, bound)
  {
    LoadPlace(k, q, r, cycle, q');
    hide Offered, NoLoad, Carries, LoadIndex, Prefetched, LastFor;
  }

  /** A load enters the L2 queue and is ready twenty cycles later, or when the prefetch is whose
      entry it takes over. */
  lemma EntersL2(trace: seq<TraceOp>, s: State, pf: Option<Request>, bound: nat)
    requires Reached(trace, s) && Tidy(s.core) && Enters(s) && bound > s.core.cycle
    requires ReadyFrom(QUEUE_L2, s.core.l2q, s.core.cpu.cur.addr, s.core.cycle + 20, bound)
    ensures InLine(Step(s, pf).core, Entering(s.core), bound) && Step(s, pf).core.served == s.core.served
  {
    var s1 := CpuPhase(s, pf);
    var r := Entering(s.core);
    EntersMeans(s, pf);
    EnteringIsLoad(trace, s);
    OfferMeans(QUEUE_L2, s.core.l2q, r, s.core.cycle);
    hide CpuPhase, Step, Offered, ReadyFrom, NoLoad, Carried, Offer, Enters;
    OfferedLoad(QUEUE_L2, s.core.l2q, r, s.core.cycle, s1.core.l2q, bound);
    hide Safe, Tidy, TidyQueue;
    StepRest(trace, s, pf, r, bound);
  }

  lemma StepRest(trace: seq<TraceOp>, s: State, pf: Option<Request>, r: Request, bound: nat)
    requires Reached(trace, s) && InLine(CpuPhase(s, pf).core, r, bound) && bound > s.core.cycle
    ensures InLine(Step(s, pf).core, r, bound) && Step(s, pf).core.served == CpuPhase(s, pf).core.served
  {
    hide CpuPhase, L2Phase, MemPhase, WbPhase, Safe, L2Moves, MemMoves, WbMoves, Carried;
    var s1 := CpuPhase(s, pf);
    var s2 := L2Phase(s1);
    var s3 := MemPhase(s2);
    PhaseCycle(s, pf);
    CpuPhaseIsSafe(trace, s, pf);
    L2PhaseMoves(s1);
    MemPhaseMoves(s2);
    WbPhaseMoves(s3);
    RestWaits(trace, s1.core, s2.core, s3.core, WbPhase(s3).core, s.core.cycle + 1, r, bound);
  }

  lemma MemPhaseMoves(s: State)
    requires s.Shaped()
    ensures MemMoves(s.core, MemPhase(s).core)
  {
    hide AccessIn;
  }

  lemma EnteringIsLoad(trace: seq<TraceOp>, s: State)
    requires Reached(trace, s) && Enters(s)
    ensures var r := Entering(s.core); r.fromCPU && r.load && NoLoad(s.core.l2q) && NoLoad(s.core.memq)
    ensures Entering(s.core).addr == s.core.cpu.cur.addr
  {
    hide CheckIn, Logged, Conserved, Kinds;
  }

  /** The entry of a load that enters the L2 queue is ready twenty cycles later exactly when no prefetch
      for its block is the last entry for it there, and earlier otherwise. */
  lemma ReadyInTwenty(trace: seq<TraceOp>, s: State, pf: Option<Request>)
    requires Reached(trace, s) && Tidy(s.core) && Timed(s.core) && Enters(s)
    ensures var q, q1, r := s.core.l2q, CpuPhase(s, pf).core.l2q, Entering(s.core); var p := LoadIndex(q1);
      && Carries(q1, p, r) && q1[p].ready <= s.core.cycle + 20
      && (q1[p].ready == s.core.cycle + 20 <==> !Prefetched(QUEUE_L2, q, r.addr))
  {
    hide CpuPhase, Enters, Safe, Offered, Offer, Prefetched, LastFor, NoLoad, LoadIndex, Carries;
    EntersMeans(s, pf);
    EntersHasRoom(s);
    EnteringIsLoad(trace, s);
    OfferMeans(QUEUE_L2, s.core.l2q, Entering(s.core), s.core.cycle);
    hide Tagged;
    LoadPlace(QUEUE_L2, s.core.l2q, Entering(s.core), s.core.cycle, CpuPhase(s, pf).core.l2q);
  }

  lemma EntersHasRoom(s: State)
    requires s.Shaped() && Enters(s)
    ensures |s.core.l2q| < 20
  {
  }

  /** In every run, a load that enters the L2 queue in a cycle is not served in the twenty turns from
      that cycle on, unless a prefetch for its block is queued there. */
  lemma LoadTakesTwenty(trace: seq<TraceOp>, pfs: seq<Option<Request>>, pf: Option<Request>, more: seq<Option<Request>>)
    requires var s := Run(trace, pfs); Enters(s) && !Prefetched(QUEUE_L2, s.core.l2q, s.core.cpu.cur.addr)
    requires Run(trace, pfs + [pf] + more).core.cycle <= Run(trace, pfs).core.cycle + 20
    ensures var c, c' := Run(trace, pfs).core, Run(trace, pfs + [pf] + more).core;
      c'.served == c.served && c'.cpu.status == Waiting && c'.cpu.cur == Entering(c)
  {
    var s := Run(trace, pfs);
    RunIsSafe(trace, pfs);
    RunKeepsTidy(trace, pfs);
    RunGrows(trace, pfs, pf);
    hide Run, Step, Safe, Tidy;
    EntersL2(trace, s, pf, s.core.cycle + 20);
    RunWaits(trace, pfs + [pf], more, Entering(s.core), s.core.cycle + 20);
  }

  /** The processor comes first: a cycle in which it issues a request, or tries again to queue a load,
      leaves the prefetcher out; in every other cycle the prefetch is offered to the L2 queue, and
      nothing else depends on it. */
  lemma PrefetchWhenFree(trace: seq<TraceOp>, s: State, r: Request)
    requires Reached(trace, s) && Tidy(s.core)
    ensures var with, without := CpuPhase(s, Some(r)), CpuPhase(s, None);
      if Issuing(s.core) || s.core.cpu.status == StalledL2 then with == without
      else Offered(QUEUE_L2, s.core.l2q, r.(fromCPU := false, load := true), s.core.cycle, with.core.l2q)
           && without.core.l2q == s.core.l2q && with == without.(core := without.core.(l2q := with.core.l2q))
  {
    SafeKinds(trace, s.core, s.core.cycle);
    OfferMeans(QUEUE_L2, s.core.l2q, AsPrefetch(r), s.core.cycle);
    hide Safe, Kinds, CheckIn, AccessIn, Offer, Offered, TidyQueue;
  }

  /** A store that L1 answers goes nowhere else; one that L1 does not hold is offered to the write
      buffer, and the processor stalls when that is full. */
  lemma StoreIsBuffered(trace: seq<TraceOp>, s: State, pf: Option<Request>)
    requires Reached(trace, s) && Tidy(s.core) && Issuing(s.core) && !s.core.cpu.cur.load
    ensures var s1, c, c1 := CpuPhase(s, pf), s.core, CpuPhase(s, pf).core;
      && c1.l2q == c.l2q && c1.memq == c.memq && s1.l2cache == s.l2cache && c1.applied == c.applied
      && if CheckIn(L1, s.dcache, c.cpu.cur.addr) then
           c1.wb == c.wb && c1.accepted == c.accepted && c1.served == c.served + [Issued(c)]
         else if |c.wb| < WRITE_BUFFER.capacity then
           Offered(WRITE_BUFFER, c.wb, Issued(c), c.cycle, c1.wb) && c1.accepted == c.accepted + [Issued(c)]
           && c1.served == c.served + [Issued(c)] && s1.dcache == s.dcache
         else c1 == c.(cpu := c.cpu.(status := StalledWB, cur := Issued(c))) && s1.dcache == s.dcache
  {
    SafeKinds(trace, s.core, s.core.cycle);
    OfferMeans(WRITE_BUFFER, s.core.wb, Issued(s.core), s.core.cycle);
    hide Safe, CheckIn, AccessIn, Offer, Offered, TidyQueue;
  }

  // ----- A load goes on to memory -----

  /** What happens to the front of the L2 queue when it is due: it leaves if L2 holds its block; if
      not, it goes on to the memory queue as soon as that has room. */
  lemma L2Decides(s: State)
    requires s.Shaped() && Tidy(s.core) && FrontReady(s.core.l2q, s.core.cycle)
    ensures var c, c2 := s.core, L2Phase(s).core; var front := c.l2q[0].req;
      if CheckIn(L2, s.l2cache, front.addr) then c2.l2q == c.l2q[1..] && c2.memq == c.memq
      else if |c.memq| == 10 then c2 == c
      else c2.l2q == c.l2q[1..] && Offered(QUEUE_MEM, c.memq, front, c.cycle, c2.memq)
           && c2.cpu == c.cpu && c2.served == c.served && c2.cycle == c.cycle
  {
    OfferMeans(QUEUE_MEM, s.core.memq, s.core.l2q[0].req, s.core.cycle);
    hide CheckIn, AccessIn, Offer, Offered, TidyQueue;
  }

  /** In this turn a load that L2 does not hold finds room in the memory queue. */
  predicate Misses(s: State, pf: Option<Request>)
    requires s.Shaped()
  {
    && !s.core.cpu.done && |s.core.memq| < QUEUE_MEM.capacity && L2Due(s, pf) && L2Front(s, pf).fromCPU
    && !CheckIn(L2, s.l2cache, L2Front(s, pf).addr)
  }

  lemma FrontIsCurrent(trace: seq<TraceOp>, c: Core, bound: nat)
    requires Safe(trace, c, bound) && c.l2q != [] && c.l2q[0].req.fromCPU
    ensures c.cpu.status == Waiting && !c.cpu.done && c.cpu.cur == c.l2q[0].req && c.cpu.cur.load && NoLoad(c.memq)
  {
    hide Logged, Conserved;
    assert CpuLoad(c.l2q[0]);
  }

  lemma LastIsLate(q: seq<Entry>, lo: nat, hi: nat)
    requires Spaced(q, lo, hi) && q != []
    ensures q[|q| - 1].ready >= lo
  {
    assert q[|q| - 1].ready == q[0].ready + 50 * (|q| - 1);
  }

  lemma MissInLine(trace: seq<TraceOp>, s1: State, now: nat, bound: nat)
    requires s1.Shaped() && Tidy(s1.core) && Safe(trace, s1.core, now) && FrontReady(s1.core.l2q, s1.core.cycle)
    requires s1.core.l2q[0].req.fromCPU && !CheckIn(L2, s1.l2cache, s1.core.l2q[0].req.addr) && |s1.core.memq| < 10
    requires s1.core.memq == [] || s1.core.memq[|s1.core.memq| - 1].ready >= s1.core.cycle
    requires ReadyFrom(QUEUE_MEM, s1.core.memq, s1.core.l2q[0].req.addr, s1.core.cycle + 50, bound)
    ensures var c2 := L2Phase(s1).core; InLine(c2, s1.core.l2q[0].req, bound) && c2.served == s1.core.served && c2.cycle == s1.core.cycle
  {
    hide Safe, Tidy, L2Phase, CheckIn, Offered, NoLoad, Carried, ReadyFrom;
    L2Decides(s1);
    FrontIsCurrent(trace, s1.core, now);
    EarlierIsReady(QUEUE_MEM, s1.core.memq, s1.core.l2q[0].req.addr, s1.core.cycle, bound);
    OfferedLoad(QUEUE_MEM, s1.core.memq, s1.core.l2q[0].req, s1.core.cycle, L2Phase(s1).core.memq, bound);
  }

  lemma EarlierIsReady(k: Kind, q: seq<Entry>, addr: nat, cycle: nat, bound: nat)
    requires ReadyFrom(k, q, addr, cycle + k.latency, bound) && (q == [] || q[|q| - 1].ready >= cycle)
    ensures ReadyFrom(k, q, addr, if k.pipelined || q == [] then cycle + k.latency else q[|q| - 1].ready + k.latency, bound)
  {
    hide Prefetched, LastFor;
  }

  /** A load goes on to memory and is ready fifty cycles later, or when the prefetch is whose entry
      it takes over. */
  lemma GoesToMemory(trace: seq<TraceOp>, s: State, pf: Option<Request>, bound: nat)
    requires Reached(trace, s) && Tidy(s.core) && Timed(s.core) && Misses(s, pf) && bound > s.core.cycle
    requires ReadyFrom(QUEUE_MEM, s.core.memq, L2Front(s, pf).addr, s.core.cycle + 50, bound)
    ensures InLine(Step(s, pf).core, L2Front(s, pf), bound) && Step(s, pf).core.served == CpuPhase(s, pf).core.served
    ensures CpuPhase(s, pf).core.cpu.status == Waiting && L2Front(s, pf) == CpuPhase(s, pf).core.cpu.cur
  {
    hide CpuPhase, Safe, InLine, Tidy, ReadyFrom, CheckIn, Timed, Step;
    var s1 := CpuPhase(s, pf);
    MemoryIsLate(s.core);
    SafeKinds(trace, s.core, s.core.cycle);
    CpuPhaseCaches(s, pf);
    CpuPhaseIsTidy(s, pf);
    CpuPhaseIsSafe(trace, s, pf);
    hide Kinds, AtIssue;
    FrontIsCurrent(trace, s1.core, s.core.cycle + 1);
    MissInLine(trace, s1, s.core.cycle + 1, bound);
    AfterL2Waits(trace, s, pf, L2Front(s, pf), bound);
  }

  lemma MemoryIsLate(c: Core)
    requires Timed(c)
    ensures c.memq == [] || c.memq[|c.memq| - 1].ready >= c.cycle
  {
    if c.memq != [] { LastIsLate(c.memq, c.cycle, c.cycle + 49); }
  }

  lemma AfterL2Waits(trace: seq<TraceOp>, s: State, pf: Option<Request>, r: Request, bound: nat)
    requires Reached(trace, s) && bound > s.core.cycle && InLine(L2Phase(CpuPhase(s, pf)).core, r, bound)
    ensures InLine(Step(s, pf).core, r, bound) && Step(s, pf).core.served == L2Phase(CpuPhase(s, pf)).core.served
  {
    hide CpuPhase, L2Phase, MemPhase, WbPhase, Safe, MemMoves, WbMoves, InLine;
    var s1 := CpuPhase(s, pf);
    var s2 := L2Phase(s1);
    var s3 := MemPhase(s2);
    PhaseCycle(s, pf);
    PhaseCycle(s1, pf);
    CpuPhaseIsSafe(trace, s, pf);
    L2PhaseIsSafe(trace, s1, s.core.cycle + 1);
    MemPhaseMoves(s2);
    WbPhaseMoves(s3);
    LastWaits(trace, s2.core, s3.core, WbPhase(s3).core, s.core.cycle + 1, r, bound);
    SameLine(WbPhase(s3).core, Step(s, pf).core, r, bound);
  }

  lemma LastWaits(trace: seq<TraceOp>, c2: Core, c3: Core, c4: Core, now: nat, r: Request, bound: nat)
    requires Safe(trace, c2, now) && InLine(c2, r, bound) && c2.cycle < bound && MemMoves(c2, c3) && WbMoves(c3, c4)
    ensures StillInLine(c2, c4, r, bound)
  {
    hide MemMoves, WbMoves, InLine, Kinds, OneLoad, Logged, Conserved;
    MemWaits(c2, c3, r, bound);
    MemKeepsSafe(trace, c2, c3, now);
    WbWaits(c3, c4, r, bound);
  }

  lemma SameLine(c: Core, c': Core, r: Request, bound: nat)
    requires InLine(c, r, bound) && c' == c.(cycle := c'.cycle)
    ensures InLine(c', r, bound)
  {
  }

  /** In every run, a load that goes on to memory in a cycle is not served in the fifty turns from
      that cycle on, unless a prefetch for its block is queued there. */
  lemma LoadTakesFifty(trace: seq<TraceOp>, pfs: seq<Option<Request>>, pf: Option<Request>, more: seq<Option<Request>>)
    requires var s := Run(trace, pfs); Misses(s, pf) && !Prefetched(QUEUE_MEM, s.core.memq, L2Front(s, pf).addr)
    requires Run(trace, pfs + [pf] + more).core.cycle <= Run(trace, pfs).core.cycle + 50
    ensures var s, c' := Run(trace, pfs), Run(trace, pfs + [pf] + more).core; var c1 := CpuPhase(s, pf).core;
      c'.served == c1.served && c'.cpu.status == Waiting && c'.cpu.cur == c1.cpu.cur == L2Front(s, pf)
  {
    var s := Run(trace, pfs);
    RunIsSafe(trace, pfs);
    RunIsTimed(trace, pfs);
    RunKeepsTidy(trace, pfs);
    RunGrows(trace, pfs, pf);
    hide Run, Step, Safe, Tidy, CpuPhase, CheckIn, Timed;
    GoesToMemory(trace, s, pf, s.core.cycle + 50);
    RunWaits(trace, pfs + [pf], more, L2Front(s, pf), s.core.cycle + 50);
  }

  // ----- Without a prefetcher -----

  ghost predicate NoPrefetch(q: seq<Entry>) { forall i :: 0 <= i < |q| ==> q[i].req.fromCPU }

  ghost predicate PlainL2(q: seq<Entry>, issuedAt: nat)
  {
    NoPrefetch(q) && forall i :: 0 <= i < |q| ==> q[i].ready == issuedAt + 20
  }

  ghost predicate PlainMemory(q: seq<Entry>, issuedAt: nat, now: nat)
  {
    && NoPrefetch(q)
    && forall i :: 0 <= i < |q| && CpuLoad(q[i]) ==> q[i].ready >= issuedAt + 70 && now > issuedAt + 20
  }

  /** The load under way is in the L2 queue until it has been there for twenty cycles, and in the
      memory queue for fifty cycles more. */
  ghost predicate Plain(c: Core, now: nat)
  {
    && c.cpu.status != StalledL2
    && PlainL2(c.l2q, c.cpu.cur.issuedAt) && PlainMemory(c.memq, c.cpu.cur.issuedAt, now)
  }

  lemma OnlyLoad(q: seq<Entry>, p: nat, r: Request, j: nat)
    requires Carries(q, p, r) && j < |q| && CpuLoad(q[j])
    ensures j == p
  {
  }

  lemma LoneLoad(trace: seq<TraceOp>, c: Core, bound: nat)
    requires Safe(trace, c, bound) && NoPrefetch(c.l2q)
    ensures c.cpu.status != Waiting ==> c.l2q == [] && NoLoad(c.memq)
    ensures c.l2q != [] ==> c.cpu.status == Waiting && |c.l2q| == 1 && c.l2q[0].req == c.cpu.cur && NoLoad(c.memq)
    ensures c.cpu.status == Waiting && c.l2q == [] ==> Carries(c.memq, LoadIndex(c.memq), c.cpu.cur)
  {
    hide Logged, Conserved;
    assert forall i :: 0 <= i < |c.l2q| ==> CpuLoad(c.l2q[i]);
    if c.l2q != [] {
      assert CpuLoad(c.l2q[0]);
      OnlyLoad(c.l2q, LoadIndex(c.l2q), c.cpu.cur, 0);
      OnlyLoad(c.l2q, LoadIndex(c.l2q), c.cpu.cur, |c.l2q| - 1);
    }
  }

  lemma NoneToTakeOver(k: Kind, q: seq<Entry>, r: Request, cycle: nat, q': seq<Entry>)
    requires NoPrefetch(q) && r.fromCPU && |q| != k.capacity && Offered(k, q, r, cycle, q')
    ensures |q'| == |q| + 1 && q'[..|q|] == q && q'[|q|].req == r && NoPrefetch(q')
    ensures q'[|q|].ready == if k.pipelined || q == [] then cycle + k.latency else q[|q| - 1].ready + k.latency
  {
    assert !Prefetched(k, q, r.addr);
    assert forall i :: 0 <= i < |q| ==> q'[i] == q'[..|q|][i];
  }

  lemma MemoryGrows(q: seq<Entry>, q': seq<Entry>, issuedAt: nat, now: nat)
    requires PlainMemory(q, issuedAt, now) && NoPrefetch(q') && |q'| == |q| + 1 && q'[..|q|] == q
    requires CpuLoad(q'[|q|]) ==> q'[|q|].ready >= issuedAt + 70 && now > issuedAt + 20
    ensures PlainMemory(q', issuedAt, now)
  {
    assert forall i :: 0 <= i < |q| ==> q'[i] == q'[..|q|][i];
  }

  lemma CpuStays(s: State)
    requires s.Shaped() && !s.core.cpu.done && s.core.cpu.status != Ready && s.core.cpu.status != StalledL2
    requires !Enters(s) && |s.core.l2q| < 20
    ensures var c, c1 := s.core, CpuPhase(s, None).core;
      && c1.l2q == c.l2q && c1.memq == c.memq && c1.cpu.status != StalledL2
      && if c.cpu.status == Waiting then c1 == c else c1.cpu.status != Waiting
  {
    hide CheckIn, AccessIn, Offer;
  }

  lemma CpuPlain(trace: seq<TraceOp>, s: State)
    requires Reached(trace, s) && Plain(s.core, s.core.cycle) && Tidy(s.core)
    ensures Plain(CpuPhase(s, None).core, s.core.cycle + 1)
  {
    var c := s.core;
    hide Safe, CpuPhase, Enters, Offered, Offer, Tidy, CheckIn;
    LoneLoad(trace, c, c.cycle);
    SafeKinds(trace, c, c.cycle);
    if Enters(s) {
      EnterPlain(trace, s);
    } else {
      CpuStays(s);
      if c.cpu.status == Waiting { PlainLater(c, c.cycle); }
    }
  }

  lemma EnterPlain(trace: seq<TraceOp>, s: State)
    requires Reached(trace, s) && Plain(s.core, s.core.cycle) && Tidy(s.core) && Enters(s)
    ensures Plain(CpuPhase(s, None).core, s.core.cycle + 1)
  {
    hide Safe, CpuPhase, Enters, Offered, Offer, CheckIn, Carries, Tagged, Deduplicated;
    var c, c1 := s.core, CpuPhase(s, None).core;
    LoneLoad(trace, c, c.cycle);
    EntersMeans(s, None);
    EnteringIsLoad(trace, s);
    OfferMeans(QUEUE_L2, c.l2q, Entering(c), c.cycle);
    EntersAlone(c, c1);
  }

  lemma EntersAlone(c: Core, c1: Core)
    requires c.l2q == [] && NoLoad(c.memq) && NoPrefetch(c.memq) && c1.memq == c.memq
    requires Entering(c).fromCPU && c1.cpu.cur == Entering(c) == Issued(c) && c1.cpu.status == Waiting
    requires Offered(QUEUE_L2, [], Entering(c), c.cycle, c1.l2q)
    ensures Plain(c1, c.cycle + 1)
  {
    NoneToTakeOver(QUEUE_L2, [], Entering(c), c.cycle, c1.l2q);
  }

  lemma PlainLater(c: Core, now: nat)
    requires Plain(c, now)
    ensures Plain(c, now + 1)
  {
  }

  lemma L2Plain(trace: seq<TraceOp>, s: State)
    requires s.Shaped() && Tidy(s.core) && Safe(trace, s.core, s.core.cycle + 1) && Plain(s.core, s.core.cycle + 1)
    requires s.core.memq == [] || s.core.memq[|s.core.memq| - 1].ready >= s.core.cycle
    ensures Plain(L2Phase(s).core, s.core.cycle + 1)
  {
    var c := s.core;
    hide L2Phase, Safe, Tidy, CheckIn, Offered, Carries;
    LoneLoad(trace, c, c.cycle + 1);
    if FrontReady(c.l2q, c.cycle) {
      L2Decides(s);
      if CheckIn(L2, s.l2cache, c.l2q[0].req.addr) {
        L2AnswerMeans(s);
      } else if |c.memq| != 10 {
        HandOverPlain(s);
      }
    } else {
      L2Stays(s);
    }
  }

  lemma L2Stays(s: State)
    requires s.Shaped() && !FrontReady(s.core.l2q, s.core.cycle)
    ensures L2Phase(s).core == s.core
  {
  }

  lemma HandOverPlain(s: State)
    requires s.Shaped() && Plain(s.core, s.core.cycle + 1) && FrontReady(s.core.l2q, s.core.cycle)
    requires |s.core.l2q| == 1 && s.core.l2q[0].req == s.core.cpu.cur && NoLoad(s.core.memq) && |s.core.memq| != 10
    requires s.core.memq == [] || s.core.memq[|s.core.memq| - 1].ready >= s.core.cycle
    requires var c, c2 := s.core, L2Phase(s).core;
      c2.l2q == c.l2q[1..] && Offered(QUEUE_MEM, c.memq, c.l2q[0].req, c.cycle, c2.memq) && c2.cpu == c.cpu
    ensures Plain(L2Phase(s).core, s.core.cycle + 1)
  {
    var c, c2 := s.core, L2Phase(s).core;
    hide L2Phase, Offered;
    NoneToTakeOver(QUEUE_MEM, c.memq, c.l2q[0].req, c.cycle, c2.memq);
    MemoryGrows(c.memq, c2.memq, c.cpu.cur.issuedAt, c.cycle + 1);
  }

  lemma L2AnswerMeans(s: State)
    requires s.Shaped() && FrontReady(s.core.l2q, s.core.cycle) && CheckIn(L2, s.l2cache, s.core.l2q[0].req.addr)
    ensures var c, c2 := s.core, L2Phase(s).core;
      c2.l2q == c.l2q[1..] && c2.memq == c.memq && if c.l2q[0].req.fromCPU then c2.cpu.status == Idle else c2.cpu == c.cpu
  {
    hide AccessIn;
  }

  lemma MemAnswerMeans(s: State)
    requires s.Shaped() && FrontReady(s.core.memq, s.core.cycle)
    ensures var c, c3 := s.core, MemPhase(s).core;
      c3.memq == c.memq[1..] && c3.l2q == c.l2q && if CpuLoad(c.memq[0]) then c3.cpu.status == Idle else c3.cpu == c.cpu
  {
    hide AccessIn;
  }

  lemma MemPlain(trace: seq<TraceOp>, s: State)
    requires s.Shaped() && Safe(trace, s.core, s.core.cycle + 1) && Plain(s.core, s.core.cycle + 1)
    ensures Plain(MemPhase(s).core, s.core.cycle + 1)
  {
    hide Safe, MemPhase;
    var c := s.core;
    if FrontReady(c.memq, c.cycle) {
      MemAnswerMeans(s);
      LoneLoad(trace, c, c.cycle + 1);
      FrontLoadIsAlone(trace, c, c.cycle + 1);
    } else {
      MemStays(s);
    }
  }

  lemma MemStays(s: State)
    requires s.Shaped() && !FrontReady(s.core.memq, s.core.cycle)
    ensures MemPhase(s).core == s.core
  {
  }

  lemma FrontLoadIsAlone(trace: seq<TraceOp>, c: Core, bound: nat)
    requires Safe(trace, c, bound) && c.memq != []
    ensures CpuLoad(c.memq[0]) ==> NoLoad(c.memq[1..]) && NoLoad(c.l2q)
  {
    hide Logged, Conserved, Kinds;
    CarriesTail(c.memq, c.cpu.cur);
  }

  lemma WbMeans(s: State)
    requires s.Shaped() && Tidy(s.core)
    ensures var c, c4 := s.core, WbPhase(s).core;
      c4.l2q == c.l2q && c4.cpu == c.cpu &&
      (c4.memq == c.memq || (c.wb != [] && |c.memq| != 10 && Offered(QUEUE_MEM, c.memq, c.wb[0].req, c.cycle, c4.memq)))
  {
    if s.core.wb != [] { OfferMeans(QUEUE_MEM, s.core.memq, s.core.wb[0].req, s.core.cycle); }
    hide CheckIn, AccessIn, Offered, Offer, TidyQueue;
  }

  lemma WbPlain(trace: seq<TraceOp>, s: State)
    requires s.Shaped() && Tidy(s.core) && Safe(trace, s.core, s.core.cycle + 1) && Plain(s.core, s.core.cycle + 1)
    ensures Plain(WbPhase(s).core, s.core.cycle + 1)
  {
    var c, c4 := s.core, WbPhase(s).core;
    hide WbPhase, Safe, Tidy, Offered;
    WbMeans(s);
    if c4.memq != c.memq {
      FrontIsStore(trace, c, c.cycle + 1);
      NoneToTakeOver(QUEUE_MEM, c.memq, c.wb[0].req, c.cycle, c4.memq);
      hide NoPrefetch, PlainL2, PlainMemory;
      MemoryGrows(c.memq, c4.memq, c.cpu.cur.issuedAt, c.cycle + 1);
    }
  }

  lemma FrontIsStore(trace: seq<TraceOp>, c: Core, bound: nat)
    requires Safe(trace, c, bound) && c.wb != []
    ensures CpuStore(c.wb[0])
  {
  }

  lemma StepPlain(trace: seq<TraceOp>, s: State)
    requires Reached(trace, s) && Tidy(s.core) && Timed(s.core) && Plain(s.core, s.core.cycle)
    ensures var s1 := CpuPhase(s, None); Plain(s1.core, s.core.cycle + 1) && Plain(L2Phase(s1).core, s.core.cycle + 1)
    ensures var s' := Step(s, None); Plain(s'.core, s'.core.cycle)
  {
    hide CpuPhase, L2Phase, MemPhase, WbPhase, Plain, Safe, Tidy, Timed, CheckIn;
    var s1 := CpuPhase(s, None);
    var s2 := L2Phase(s1);
    var s3 := MemPhase(s2);
    SafeKinds(trace, s.core, s.core.cycle);
    TurnPhases(trace, s, None);
    MemoryIsLate(s.core);
    CpuPhaseIsTidy(s, None);
    L2PhaseIsTidy(s1);
    MemPhaseIsTidy(s2);
    CpuPlain(trace, s);
    L2Plain(trace, s1);
    MemPlain(trace, s2);
    WbPlain(trace, s3);
    StepCycle(s, None);
    SamePlain(WbPhase(s3).core, Step(s, None).core);
  }

  lemma SamePlain(c: Core, c': Core)
    requires Plain(c, c'.cycle) && c' == c.(cycle := c'.cycle)
    ensures Plain(c', c'.cycle)
  {
  }

  /** A run in which the prefetcher asks for nothing. */
  function Still(n: nat): seq<Option<Request>> { seq(n, i => None) }

  lemma {:induction false} RunIsPlain(trace: seq<TraceOp>, n: nat)
    ensures Plain(Run(trace, Still(n)).core, Run(trace, Still(n)).core.cycle)
  {
    if n > 0 {
      var s := Run(trace, Still(n - 1));
      assert Still(n) == Still(n - 1) + [None];
      RunIsPlain(trace, n - 1);
      RunIsSafe(trace, Still(n - 1));
      RunKeepsTidy(trace, Still(n - 1));
      RunIsTimed(trace, Still(n - 1));
      RunGrows(trace, Still(n - 1), None);
      hide Run, Step, Safe, Tidy, Timed, Plain;
      if !s.core.cpu.done { StepPlain(trace, s); }
    }
  }

  /** The load in the L2 queue of a plain state is due when it has been there for twenty cycles. */
  lemma PlainL2Due(trace: seq<TraceOp>, c: Core, now: nat, bound: nat)
    requires Safe(trace, c, bound) && Plain(c, now)
    ensures c.cpu.status == Waiting && now <= c.cpu.cur.issuedAt + 20 ==> c.l2q != []
    ensures c.l2q != [] ==> c.l2q[0].req == c.cpu.cur && c.cpu.cur.fromCPU && c.l2q[0].ready == c.cpu.cur.issuedAt + 20
    ensures c.memq != [] && CpuLoad(c.memq[0]) ==> c.memq[0].req == c.cpu.cur && c.memq[0].ready >= c.cpu.cur.issuedAt + 70
  {
    LoneLoad(trace, c, bound);
    hide Logged, Conserved;
    if c.memq != [] && CpuLoad(c.memq[0]) { OnlyLoad(c.memq, LoadIndex(c.memq), c.cpu.cur, 0); }
  }

  lemma IdlePrefetcher(s: State)
    requires s.Shaped() && s.core.cpu.status == Waiting
    ensures CpuPhase(s, None).core == s.core && !Issuing(s.core)
  {
  }

  /** What a plain state can serve, and when. */
  lemma PlainServes(trace: seq<TraceOp>, s: State)
    requires Reached(trace, s) && Tidy(s.core) && Timed(s.core) && Plain(s.core, s.core.cycle)
    ensures var now, r := s.core.cycle, ServedNow(s, None);
      r.Some? && r.value.load ==>
        || (Issuing(s.core) && CheckIn(L1, s.dcache, r.value.addr) && r.value.issuedAt == now)
        || (CheckIn(L2, s.l2cache, r.value.addr) && now >= r.value.issuedAt + 20)
        || now >= r.value.issuedAt + 70
  {
    hide Safe, Tidy, Timed, Plain, CheckIn, CpuPhase, L2Phase;
    StepPlain(trace, s);
    TurnPhases(trace, s, None);
    SafeKinds(trace, s.core, s.core.cycle);
    StalledIsStore(trace, s.core, s.core.cycle);
    var s1 := CpuPhase(s, None);
    PlainL2Due(trace, s1.core, s.core.cycle + 1, s.core.cycle + 1);
    PlainL2Due(trace, L2Phase(s1).core, s.core.cycle + 1, s.core.cycle + 1);
    hide LoadIndex;
  }

  lemma StalledIsStore(trace: seq<TraceOp>, c: Core, bound: nat)
    requires Safe(trace, c, bound)
    ensures c.cpu.status == StalledWB ==> !c.cpu.cur.load
  {
  }

  /** A waiting load is served exactly when it has been issued for twenty cycles, if L2 holds it. */
  lemma PlainWait(trace: seq<TraceOp>, s: State)
    requires Reached(trace, s) && Tidy(s.core) && Timed(s.core) && Plain(s.core, s.core.cycle) && s.core.cpu.status == Waiting
    requires s.core.cycle <= s.core.cpu.cur.issuedAt + 20
    ensures ServedNow(s, None) ==
      if s.core.cycle == s.core.cpu.cur.issuedAt + 20 && CheckIn(L2, s.l2cache, s.core.cpu.cur.addr)
      then Some(s.core.cpu.cur) else None
  {
    hide Safe, Tidy, Timed, Plain, CheckIn, CpuPhase, L2Phase, Offered, Offer, After, AtIssue, LoadIndex;
    var s1 := CpuPhase(s, None);
    IdlePrefetcher(s);
    PlainL2Due(trace, s.core, s.core.cycle, s.core.cycle);
    CpuPhaseCaches(s, None);
    if !CheckIn(L2, s.l2cache, s.core.cpu.cur.addr) || !FrontReady(s.core.l2q, s.core.cycle) {
      NoEarlyAnswer(trace, s);
    }
  }

  /** Memory does not answer a load that has just come, or not yet come, from the L2 queue. */
  lemma NoEarlyAnswer(trace: seq<TraceOp>, s: State)
    requires Reached(trace, s) && Tidy(s.core) && Timed(s.core) && Plain(s.core, s.core.cycle) && s.core.cpu.status == Waiting
    requires s.core.cycle <= s.core.cpu.cur.issuedAt + 20
    requires !CheckIn(L2, s.l2cache, s.core.cpu.cur.addr) || !FrontReady(s.core.l2q, s.core.cycle)
    ensures MemDue(s, None) ==> !(MemFront(s, None).fromCPU && MemFront(s, None).load)
  {
    hide Safe, Tidy, Timed, Plain, CheckIn, CpuPhase, L2Phase, Offered, After, AtIssue, LoadIndex;
    var s1 := CpuPhase(s, None);
    IdlePrefetcher(s);
    PlainL2Due(trace, s.core, s.core.cycle, s.core.cycle);
    CpuPhaseCaches(s, None);
    if FrontReady(s1.core.l2q, s1.core.cycle) { L2Decides(s1); } else { L2Stays(s1); }
    StepPlain(trace, s);
    TurnPhases(trace, s, None);
    PlainL2Due(trace, L2Phase(s1).core, s.core.cycle + 1, s.core.cycle + 1);
  }

  /** When the prefetcher asks for nothing, a load is served in the cycle of its issue if L1 holds its
      block; else twenty cycles later exactly if L2 holds it then; and not before seventy cycles
      later if L2 does not hold it when it is served. */
  lemma LatenciesWithoutPrefetches(trace: seq<TraceOp>, n: nat)
    requires !Run(trace, Still(n)).core.cpu.done
    ensures var s := Run(trace, Still(n)); var now, r, cur := s.core.cycle, ServedNow(s, None), s.core.cpu.cur;
      && (r.Some? && r.value.load ==>
            || (Issuing(s.core) && CheckIn(L1, s.dcache, r.value.addr) && r.value.issuedAt == now)
            || (CheckIn(L2, s.l2cache, r.value.addr) && now >= r.value.issuedAt + 20)
            || now >= r.value.issuedAt + 70)
      && (s.core.cpu.status == Waiting && now <= cur.issuedAt + 20 ==>
            r == if now == cur.issuedAt + 20 && CheckIn(L2, s.l2cache, cur.addr) then Some(cur) else None)
  {
    var s := Run(trace, Still(n));
    RunIsSafe(trace, Still(n));
    RunKeepsTidy(trace, Still(n));
    RunIsTimed(trace, Still(n));
    RunIsPlain(trace, n);
    hide Run, Safe, Tidy, Timed, Plain, CheckIn, ServedNow, Issuing;
    PlainServes(trace, s);
    if s.core.cpu.status == Waiting && s.core.cycle <= s.core.cpu.cur.issuedAt + 20 { PlainWait(trace, s); }
  }
}
