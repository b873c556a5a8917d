/** What holds of the queues of the hierarchy in every run. */
module HierarchyQueues {
  import opened Helpers
  import opened LruCache
  import opened MemQueue
  import opened Hierarchy
  import opened HierarchySafety
  import opened HierarchyProgress

  // ----- Prefetches never pile up -----

  ghost predicate TidyQueue(k: Kind, q: seq<Entry>) { Tagged(k, q) && Deduplicated(q) }

  ghost predicate Tidy(c: Core)
  {
    TidyQueue(QUEUE_L2, c.l2q) && TidyQueue(QUEUE_MEM, c.memq) && TidyQueue(WRITE_BUFFER, c.wb)
  }

  lemma TailIsTidy(k: Kind, q: seq<Entry>)
    requires TidyQueue(k, q) && q != []
    ensures TidyQueue(k, q[1..])
  {
  }

  lemma OfferIsTidy(k: Kind, q: seq<Entry>, r: Request, cycle: nat)
    requires TidyQueue(k, q)
    ensures TidyQueue(k, Offer(k, q, r, cycle))
  {
    OfferKeepsTagged(k, q, r, cycle);
    OfferKeepsDeduplicated(k, q, r, cycle);
  }

  /** Of the entries for one block, only the last may be a prefetch. */
  ghost predicate CpuFirst(k: Kind, q: seq<Entry>)
  {
    forall i, j :: 0 <= i < j < |q| && Block(k.source, q[i].req.addr) == Block(k.source, q[j].req.addr) ==> q[i].req.fromCPU
  }

  lemma TidyOnBlocks(k: Kind, q: seq<Entry>)
    requires TidyQueue(k, q)
    ensures CpuFirst(k, q)
  {
    hide Block;
    forall i, j | 0 <= i < j < |q| && Block(k.source, q[i].req.addr) == Block(k.source, q[j].req.addr)
      ensures q[i].req.fromCPU
    {
      TaggedBlocks(k, q, i, q[j].req.addr);
    }
  }

  lemma CpuPhaseIsTidy(s: State, pf: Option<Request>)
    requires s.Shaped() && Tidy(s.core)
    ensures Tidy(CpuPhase(s, pf).core)
  {
    var c := s.core;
    var cpu := GetStatus(c.cpu, c.cycle);
    var cur := Issue(cpu, c.cycle).cur;
    hide TidyQueue, Offer;
    if pf.Some? { OfferIsTidy(QUEUE_L2, c.l2q, AsPrefetch(pf.value), c.cycle); }
    OfferIsTidy(QUEUE_L2, c.l2q, cur, c.cycle);
    OfferIsTidy(QUEUE_L2, c.l2q, cpu.cur, c.cycle);
    OfferIsTidy(WRITE_BUFFER, c.wb, cur, c.cycle);
    OfferIsTidy(WRITE_BUFFER, c.wb, cpu.cur, c.cycle);
  }

  lemma L2PhaseIsTidy(s: State)
    requires s.Shaped() && Tidy(s.core)
    ensures Tidy(L2Phase(s).core)
  {
    var c := s.core;
    hide TidyQueue, Offer;
    if c.l2q != [] {
      TailIsTidy(QUEUE_L2, c.l2q);
      OfferIsTidy(QUEUE_MEM, c.memq, c.l2q[0].req, c.cycle);
    }
  }

  lemma MemPhaseIsTidy(s: State)
    requires s.Shaped() && Tidy(s.core)
    ensures Tidy(MemPhase(s).core)
  {
    hide TidyQueue;
    if s.core.memq != [] { TailIsTidy(QUEUE_MEM, s.core.memq); }
  }

  lemma WbPhaseIsTidy(s: State)
    requires s.Shaped() && Tidy(s.core)
    ensures Tidy(WbPhase(s).core)
  {
    var c := s.core;
    hide TidyQueue, Offer;
    if c.wb != [] {
      TailIsTidy(WRITE_BUFFER, c.wb);
      OfferIsTidy(QUEUE_MEM, c.memq, c.wb[0].req, c.cycle);
    }
  }

  lemma StepIsTidy(s: State, pf: Option<Request>)
    requires s.Shaped() && Tidy(s.core)
    ensures Tidy(Step(s, pf).core)
  {
    hide Tidy, CpuPhase, L2Phase, MemPhase, WbPhase;
    CpuPhaseIsTidy(s, pf);
    var s1 := CpuPhase(s, pf);
    L2PhaseIsTidy(s1);
    MemPhaseIsTidy(L2Phase(s1));
    WbPhaseIsTidy(MemPhase(L2Phase(s1)));
    SameQueuesTidy(WbPhase(MemPhase(L2Phase(s1))).core, Step(s, pf).core);
  }

  lemma {:induction false} RunKeepsTidy(trace: seq<TraceOp>, pfs: seq<Option<Request>>)
    ensures Tidy(Run(trace, pfs).core)
  {
    if pfs != [] {
      hide Step, Tidy;
      RunKeepsTidy(trace, pfs[..|pfs| - 1]);
      var s := Run(trace, pfs[..|pfs| - 1]);
      if !s.core.cpu.done { StepIsTidy(s, pfs[|pfs| - 1]); }
    }
  }

  /** In every queue of every run, all entries of the CPU for a block of memory come before the one
      entry of the prefetcher for it, if there is one. */
  lemma RunIsTidy(trace: seq<TraceOp>, pfs: seq<Option<Request>>)
    ensures var c := Run(trace, pfs).core;
      CpuFirst(QUEUE_L2, c.l2q) && CpuFirst(QUEUE_MEM, c.memq) && CpuFirst(WRITE_BUFFER, c.wb)
  {
    RunKeepsTidy(trace, pfs);
    var c := Run(trace, pfs).core;
    hide Run, TidyQueue, CpuFirst;
    TidyOnBlocks(QUEUE_L2, c.l2q);
    TidyOnBlocks(QUEUE_MEM, c.memq);
    TidyOnBlocks(WRITE_BUFFER, c.wb);
  }

  lemma SameQueuesTidy(c: Core, c': Core)
    requires Tidy(c) && c'.l2q == c.l2q && c'.memq == c.memq && c'.wb == c.wb
    ensures Tidy(c')
  {
  }

  // ----- Requests leave the memory queue -----

  /** The memory queue when it is served: whether its front leaves in this turn. */
  function Departs(s: State, pf: Option<Request>): nat
    requires s.Shaped()
  {
    if FrontReady(L2Phase(CpuPhase(s, pf)).core.memq, s.core.cycle) then 1 else 0
  }

  /** How many entries leave the memory queue, from its front, in the turns `more`. */
  function Departures(trace: seq<TraceOp>, pfs: seq<Option<Request>>, more: seq<Option<Request>>): nat
  {
    if more == [] then 0
    else
      var before := more[..|more| - 1];
      Departures(trace, pfs, before) +
      if Run(trace, pfs + before).core.cpu.done then 0 else Departs(Run(trace, pfs + before), more[|more| - 1])
  }

  /** When the entries of a queue are ready. */
  function Readies(q: seq<Entry>): (r: seq<nat>)
    ensures |r| == |q| && forall i :: 0 <= i < |r| ==> r[i] == q[i].ready
  {
    seq(|q|, i requires 0 <= i < |q| => q[i].ready)
  }

  /** After `d` departures the entries of `q` that have not left are the first ones of the queue,
      and are ready when they were. */
  ghost predicate MovedUp(q: seq<Entry>, d: nat, q': seq<Entry>)
  {
    d <= |q| ==> Readies(q)[d..] <= Readies(q')
  }

  lemma PhasesMoveMemoryUp(c: Core, c1: Core, c2: Core, c3: Core, c4: Core)
    requires Timed(c) && Phases(c, c1, c2, c3, c4)
    ensures c2.cycle == c.cycle && MovedUp(c.memq, if FrontReady(c2.memq, c.cycle) then 1 else 0, c4.memq)
  {
    hide CpuMoves, L2Moves, MemMoves, WbMoves, Piped, Spaced, FrontReady;
    CpuMovesTimed(c, c1);
    L2MovesTimed(c1, c2);
    MemMovesTimed(c2, c3);
    WbMovesTimed(c3, c4);
    hide CpuTimed;
  }

  /** The memory queue in one turn. */
  lemma TurnMovesMemoryUp(s: State, pf: Option<Request>)
    requires s.Shaped() && Timed(s.core)
    ensures MovedUp(s.core.memq, Departs(s, pf), Step(s, pf).core.memq)
  {
    var s1 := CpuPhase(s, pf);
    var s2 := L2Phase(s1);
    var s3 := MemPhase(s2);
    CpuPhaseMoves(s, pf);
    L2PhaseMoves(s1);
    assert MemMoves(s2.core, s3.core);
    WbPhaseMoves(s3);
    hide CpuPhase, L2Phase, MemPhase, WbPhase, CpuMoves, L2Moves, MemMoves, WbMoves, Timed;
    PhasesMoveMemoryUp(s.core, s1.core, s2.core, s3.core, WbPhase(s3).core);
  }

  lemma MovedUpTwice(q: seq<Entry>, d: nat, q': seq<Entry>, e: nat, q'': seq<Entry>)
    requires MovedUp(q, d, q') && MovedUp(q', e, q'')
    ensures MovedUp(q, d + e, q'')
  {
    if d + e <= |q| {
      var a, b, c := Readies(q), Readies(q'), Readies(q'');
      assert a[d..] == b[..|q| - d] && b[e..] == c[..|q'| - e];
      assert a[d + e..] == a[d..][e..] == b[e..][..|q| - d - e];
    }
  }

  lemma DeparturesGrow(trace: seq<TraceOp>, pfs: seq<Option<Request>>, more: seq<Option<Request>>)
    requires more != []
    ensures var before := more[..|more| - 1]; var s := Run(trace, pfs + before);
      Departures(trace, pfs, more) ==
      Departures(trace, pfs, before) + if s.core.cpu.done then 0 else Departs(s, more[|more| - 1])
  {
    hide Run, Departs;
  }

  lemma {:induction false} MemoryMovesUp(trace: seq<TraceOp>, pfs: seq<Option<Request>>, more: seq<Option<Request>>)
    ensures MovedUp(Run(trace, pfs).core.memq, Departures(trace, pfs, more), Run(trace, pfs + more).core.memq)
  {
    hide Run, Step, Departs, Timed;
    if more == [] {
      assert pfs + more == pfs;
    } else {
      hide MovedUp;
      DeparturesGrow(trace, pfs, more);
      hide Departures;
      var before, pf := more[..|more| - 1], more[|more| - 1];
      MemoryMovesUp(trace, pfs, before);
      var s := Run(trace, pfs + before);
      RunIsTimed(trace, pfs + before);
      RunGrows(trace, pfs + before, pf);
      assert pfs + more == pfs + before + [pf];
      if !s.core.cpu.done {
        TurnMovesMemoryUp(s, pf);
        MovedUpTwice(Run(trace, pfs).core.memq, Departures(trace, pfs, before), s.core.memq,
                      Departs(s, pf), Step(s, pf).core.memq);
      }
    }
  }

  lemma RunGrows(trace: seq<TraceOp>, pfs: seq<Option<Request>>, pf: Option<Request>)
    ensures var s := Run(trace, pfs); Run(trace, pfs + [pf]) == if s.core.cpu.done then s else Step(s, pf)
  {
    hide Step;
    assert (pfs + [pf])[..|pfs|] == pfs;
  }

  /** The entry at place `d` is ready within so many latencies. */
  lemma DueSoon(q: seq<Entry>, lo: nat, d: nat)
    requires Spaced(q, lo, lo + 49) && |q| <= 10
    ensures d < |q| ==> q[d].ready < lo + 500
  {
  }

  lemma FrontIsDue(q: seq<Entry>, lo: nat, hi: nat)
    requires Spaced(q, lo, hi)
    ensures q != [] ==> q[0].ready >= lo
  {
  }

  /** All requests that are in the memory queue have left it, served at its front one after the
      other, ten latencies later: capacity times latency. */
  lemma MemoryRequestsLeave(trace: seq<TraceOp>, pfs: seq<Option<Request>>, more: seq<Option<Request>>)
    requires Run(trace, pfs + more).core.cycle >= Run(trace, pfs).core.cycle + QUEUE_MEM.capacity * QUEUE_MEM.latency
    ensures Departures(trace, pfs, more) >= |Run(trace, pfs).core.memq|
    ensures MovedUp(Run(trace, pfs).core.memq, Departures(trace, pfs, more), Run(trace, pfs + more).core.memq)
  {
    RunIsTimed(trace, pfs);
    RunIsTimed(trace, pfs + more);
    MemoryMovesUp(trace, pfs, more);
    hide Run, Departures;
    var q, q', d := Run(trace, pfs).core.memq, Run(trace, pfs + more).core.memq, Departures(trace, pfs, more);
    DueSoon(q, Run(trace, pfs).core.cycle, d);
    FrontIsDue(q', Run(trace, pfs + more).core.cycle, Run(trace, pfs + more).core.cycle + 49);
  }

  // ----- Requests are issued on time -----

  /** An idle CPU has not missed the cycle in which its next request is ready, and a request under
      way was issued in that very cycle. */
  ghost predicate OnTime(c: Core, now: nat)
  {
    && c.cpu.status != Ready
    && (c.cpu.status == Idle && !c.cpu.done ==> now <= c.cpu.readyAt)
    && (c.cpu.status in {Waiting, StalledL2, StalledWB} ==> c.cpu.cur.issuedAt == c.cpu.readyAt)
  }

  lemma CpuIsOnTime(c: Core, c1: Core)
    requires OnTime(c, c.cycle) && !c.cpu.done && CpuMoves(c, c1)
    ensures OnTime(c1, c.cycle + 1) && c1.cycle == c.cycle
  {
    hide Joins;
    if c.cpu.status == StalledWB {
      var m: Core :| PrefetchMoves(c, m) && StoreMoves(m, c.cpu, c1);
    }
  }

  lemma L2IsOnTime(c1: Core, c2: Core)
    requires OnTime(c1, c1.cycle + 1) && L2Moves(c1, c2)
    ensures OnTime(c2, c1.cycle + 1) && c2.cycle == c1.cycle
  {
    hide Joins;
  }

  lemma MemIsOnTime(c2: Core, c3: Core)
    requires OnTime(c2, c2.cycle + 1) && MemMoves(c2, c3)
    ensures OnTime(c3, c2.cycle + 1) && c3.cycle == c2.cycle
  {
  }

  lemma WbIsOnTime(c3: Core, c4: Core)
    requires OnTime(c3, c3.cycle + 1) && WbMoves(c3, c4)
    ensures OnTime(c4, c3.cycle + 1) && c4.cycle == c3.cycle
  {
    hide Joins;
  }

  lemma TurnIsOnTime(c: Core, c': Core)
    requires OnTime(c, c.cycle) && !c.cpu.done && Turn(c, c')
    ensures OnTime(c', c'.cycle)
  {
    hide CpuMoves, L2Moves, MemMoves, WbMoves;
    var c1, c2, c3, c4 :|
      CpuMoves(c, c1) && L2Moves(c1, c2) && MemMoves(c2, c3) && WbMoves(c3, c4) && c' == c4.(cycle := c4.cycle + 1);
    CpuIsOnTime(c, c1);
    L2IsOnTime(c1, c2);
    MemIsOnTime(c2, c3);
    WbIsOnTime(c3, c4);
  }

  /** In every run each request is issued in the first cycle in which it is ready, which is its gap
      and one more cycle after the completion of the one before. */
  lemma {:induction false} RequestsAreIssuedOnTime(trace: seq<TraceOp>, pfs: seq<Option<Request>>)
    ensures OnTime(Run(trace, pfs).core, Run(trace, pfs).core.cycle)
  {
    if pfs != [] {
      hide Step, Turn, OnTime;
      var s := Run(trace, pfs[..|pfs| - 1]);
      RequestsAreIssuedOnTime(trace, pfs[..|pfs| - 1]);
      if !s.core.cpu.done {
        StepIsTurn(s, pfs[|pfs| - 1]);
        TurnIsOnTime(s.core, Step(s, pfs[|pfs| - 1]).core);
      }
    }
  }
}
