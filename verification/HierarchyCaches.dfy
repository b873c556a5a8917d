/** The hierarchy with its caches: what each turn brings into them, and how what they hold decides
    when a request is served. */
module HierarchyCaches {
  import opened Helpers
  import opened LruCache
  import LI = LruInclusion
  import opened LruMeaning
  import opened MemQueue
  import opened Hierarchy
  import opened HierarchySafety

  /** The machine has 32 KB of L1 and 256 KB of L2. */
  lemma CacheSizes()
    ensures L1.Valid() && L1.NumSets() * L1.assoc * Pow2(L1.b) == 32 * 1024
    ensures L2.Valid() && L2.NumSets() * L2.assoc * Pow2(L2.b) == 256 * 1024
  {
  }

  // ----- The accesses of one turn -----

  /** The CPU has a request to issue in this turn. */
  predicate Issuing(c: Core) { !c.cpu.done && c.cpu.status == Idle && c.cycle >= c.cpu.readyAt }

  /** The front of the L2 queue is due in this turn, after the CPU has moved. */
  predicate L2Due(s: State, pf: Option<Request>)
    requires s.Shaped()
  {
    FrontReady(CpuPhase(s, pf).core.l2q, s.core.cycle)
  }

  function L2Front(s: State, pf: Option<Request>): Request
    requires s.Shaped() && L2Due(s, pf)
  {
    CpuPhase(s, pf).core.l2q[0].req
  }

  /** The front of the memory queue is due in this turn, after the L2 queue was served. */
  predicate MemDue(s: State, pf: Option<Request>)
    requires s.Shaped()
  {
    FrontReady(L2Phase(CpuPhase(s, pf)).core.memq, s.core.cycle)
  }

  function MemFront(s: State, pf: Option<Request>): Request
    requires s.Shaped() && MemDue(s, pf)
  {
    L2Phase(CpuPhase(s, pf)).core.memq[0].req
  }

  /** What L1 answers at once. */
  function AtIssue(s: State): seq<Access>
    requires s.Shaped()
  {
    var cur := s.core.cpu.cur;
    if Issuing(s.core) && CheckIn(L1, s.dcache, cur.addr) then [Access(cur.addr, cur.load)] else []
  }

  /** The load or prefetch that L2 answers. */
  function FromL2(s: State, pf: Option<Request>): seq<Access>
    requires s.Shaped()
  {
    if L2Due(s, pf) && CheckIn(L2, s.l2cache, L2Front(s, pf).addr) then [Access(L2Front(s, pf).addr, true)] else []
  }

  /** What memory answers. */
  function FromMemory(s: State, pf: Option<Request>): seq<Access>
    requires s.Shaped()
  {
    if MemDue(s, pf) then [Access(MemFront(s, pf).addr, MemFront(s, pf).load)] else []
  }

  /** The buffered store that L2 answers, once memory has answered. */
  function FromBuffer(s: State, pf: Option<Request>): seq<Access>
    requires s.Shaped()
  {
    var wb := CpuPhase(s, pf).core.wb;
    if FrontReady(wb, s.core.cycle) && CheckIn(L2, After(L2, s.l2cache, FromMemory(s, pf)), wb[0].req.addr)
    then [Access(wb[0].req.addr, false)] else []
  }

  function LoadsOnly(accesses: seq<Access>): seq<Access>
  {
    if accesses == [] then []
    else (if accesses[0].load then [accesses[0]] else []) + LoadsOnly(accesses[1..])
  }

  /** L1 takes part in what it answers at once, in the loads that L2 answers and in the loads that
      memory answers. */
  function L1Turn(s: State, pf: Option<Request>): seq<Access>
    requires s.Shaped()
  {
    AtIssue(s) + FromL2(s, pf) + LoadsOnly(FromMemory(s, pf))
  }

  /** L2 takes part in whatever memory answers and in the buffered stores that it answers itself;
      a load that it answers leaves it as it was. */
  function L2Turn(s: State, pf: Option<Request>): seq<Access>
    requires s.Shaped()
  {
    FromMemory(s, pf) + FromBuffer(s, pf)
  }

  /** A cache after some more accesses. */
  function After(g: Geometry, c: Contents, accesses: seq<Access>): (c': Contents)
    requires g.Valid() && |c| == g.NumSets()
    ensures |c'| == |c|
  {
    if accesses == [] then c
    else AccessIn(g, After(g, c, accesses[..|accesses| - 1]), accesses[|accesses| - 1])
  }

  function L1Trail(trace: seq<TraceOp>, pfs: seq<Option<Request>>): seq<Access>
  {
    if pfs == [] then []
    else
      var s := Run(trace, pfs[..|pfs| - 1]);
      L1Trail(trace, pfs[..|pfs| - 1]) + if s.core.cpu.done then [] else L1Turn(s, pfs[|pfs| - 1])
  }

  function L2Trail(trace: seq<TraceOp>, pfs: seq<Option<Request>>): seq<Access>
  {
    if pfs == [] then []
    else
      var s := Run(trace, pfs[..|pfs| - 1]);
      L2Trail(trace, pfs[..|pfs| - 1]) + if s.core.cpu.done then [] else L2Turn(s, pfs[|pfs| - 1])
  }

  // ----- Caches follow their trails -----

  lemma AfterOne(g: Geometry, c: Contents, a: Access)
    requires g.Valid() && |c| == g.NumSets()
    ensures After(g, c, [a]) == AccessIn(g, c, a)
  {
    assert [a][..0] == [];
    assert After(g, c, []) == c;
  }

  lemma {:induction false} AfterAppend(g: Geometry, c: Contents, first: seq<Access>, second: seq<Access>)
    requires g.Valid() && |c| == g.NumSets()
    ensures After(g, c, first + second) == After(g, After(g, c, first), second)
  {
    hide AccessIn;
    if second == [] {
      assert first + second == first;
    } else {
      var n := |second| - 1;
      assert (first + second)[..|first| + n] == first + second[..n];
      AfterAppend(g, c, first, second[..n]);
    }
  }

  lemma {:induction false} RunAppend(g: Geometry, first: seq<Access>, second: seq<Access>)
    requires g.Valid()
    ensures LI.Run(g, first + second) == After(g, LI.Run(g, first), second)
  {
    hide AccessIn;
    if second == [] {
      assert first + second == first;
    } else {
      var n := |second| - 1;
      assert (first + second)[..|first| + n] == first + second[..n];
      RunAppend(g, first, second[..n]);
    }
  }

  /** What the CPU's part of the turn does to the caches. */
  lemma CpuPhaseCaches(s: State, pf: Option<Request>)
    requires s.Shaped() && !s.core.cpu.done && s.core.cpu.status != Ready
    ensures var s1, cur := CpuPhase(s, pf), s.core.cpu.cur;
      && s1.l2cache == s.l2cache && s1.core.cycle == s.core.cycle && s1.core.memq == s.core.memq
      && s1.dcache == After(L1, s.dcache, if Issuing(s.core) && CheckIn(L1, s.dcache, cur.addr) then [Access(cur.addr, cur.load)] else [])
  {
    if Issuing(s.core) { AfterOne(L1, s.dcache, Access(s.core.cpu.cur.addr, s.core.cpu.cur.load)); }
    hide CheckIn, AccessIn, Offer;
  }

  lemma L2PhaseCaches(s: State)
    requires s.Shaped() && Kinds(s.core)
    ensures var s', due := L2Phase(s), FrontReady(s.core.l2q, s.core.cycle);
      && s'.l2cache == s.l2cache && s'.core.cycle == s.core.cycle && s'.core.wb == s.core.wb
      && s'.dcache == After(L1, s.dcache,
           if due && CheckIn(L2, s.l2cache, s.core.l2q[0].req.addr) then [Access(s.core.l2q[0].req.addr, true)] else [])
  {
    if s.core.l2q != [] { AfterOne(L1, s.dcache, Access(s.core.l2q[0].req.addr, true)); }
    hide CheckIn, AccessIn, Offer;
  }

  lemma MemPhaseCaches(s: State)
    requires s.Shaped()
    ensures var s', due := MemPhase(s), FrontReady(s.core.memq, s.core.cycle);
      && s'.core.cycle == s.core.cycle && s'.core.wb == s.core.wb
      && s'.dcache == After(L1, s.dcache,
           if due && s.core.memq[0].req.load then [Access(s.core.memq[0].req.addr, true)] else [])
      && s'.l2cache == After(L2, s.l2cache,
           if due then [Access(s.core.memq[0].req.addr, s.core.memq[0].req.load)] else [])
  {
    if s.core.memq != [] {
      var req := s.core.memq[0].req;
      AfterOne(L1, s.dcache, Access(req.addr, true));
      AfterOne(L2, s.l2cache, Access(req.addr, req.load));
    }
    hide AccessIn;
  }

  lemma WbPhaseCaches(s: State)
    requires s.Shaped() && Kinds(s.core)
    ensures var s', due := WbPhase(s), FrontReady(s.core.wb, s.core.cycle);
      && s'.dcache == s.dcache
      && s'.l2cache == After(L2, s.l2cache,
           if due && CheckIn(L2, s.l2cache, s.core.wb[0].req.addr) then [Access(s.core.wb[0].req.addr, false)] else [])
  {
    if s.core.wb != [] { AfterOne(L2, s.l2cache, Access(s.core.wb[0].req.addr, false)); }
    hide CheckIn, AccessIn, Offer;
  }

  // ----- The phases of a turn in a run -----

  /** A state between two turns that some run reaches, or one that is as safe. */
  ghost predicate Reached(trace: seq<TraceOp>, s: State)
  {
    s.Shaped() && Safe(trace, s.core, s.core.cycle) && !s.core.cpu.done
  }

  lemma CpuPhaseIsSafe(trace: seq<TraceOp>, s: State, pf: Option<Request>)
    requires Reached(trace, s)
    ensures Safe(trace, CpuPhase(s, pf).core, s.core.cycle + 1)
  {
    hide CpuPhase, CpuMoves, Safe;
    CpuPhaseMoves(s, pf);
    CpuKeepsSafe(trace, s.core, CpuPhase(s, pf).core);
  }

  lemma L2PhaseIsSafe(trace: seq<TraceOp>, s: State, bound: nat)
    requires s.Shaped() && Safe(trace, s.core, bound)
    ensures Safe(trace, L2Phase(s).core, bound)
  {
    hide L2Phase, L2Moves, Safe;
    L2PhaseMoves(s);
    L2KeepsSafe(trace, s.core, L2Phase(s).core, bound);
  }

  lemma MemPhaseIsSafe(trace: seq<TraceOp>, s: State, bound: nat)
    requires s.Shaped() && Safe(trace, s.core, bound)
    ensures Safe(trace, MemPhase(s).core, bound)
  {
    hide Safe, AccessIn;
    MemKeepsSafe(trace, s.core, MemPhase(s).core, bound);
  }

  lemma SafeKinds(trace: seq<TraceOp>, c: Core, bound: nat)
    requires Safe(trace, c, bound)
    ensures Kinds(c) && c.cpu.status != Ready
  {
  }

  /** The phases of a turn one after the other. */
  lemma TurnPhases(trace: seq<TraceOp>, s: State, pf: Option<Request>)
    requires Reached(trace, s)
    ensures var s1 := CpuPhase(s, pf); var s2 := L2Phase(s1); var s3 := MemPhase(s2);
      && s1.core.cycle == s.core.cycle && s2.core.cycle == s.core.cycle && s3.core.cycle == s.core.cycle
      && s1.core.wb == s2.core.wb == s3.core.wb && s1.core.memq == s.core.memq
      && Safe(trace, s1.core, s.core.cycle + 1) && Safe(trace, s2.core, s.core.cycle + 1) && Safe(trace, s3.core, s.core.cycle + 1)
  {
    SafeKinds(trace, s.core, s.core.cycle);
    hide CpuPhase, L2Phase, MemPhase, Safe, Kinds, CheckIn, AccessIn, After;
    CpuPhaseIsSafe(trace, s, pf);
    CpuPhaseCaches(s, pf);
    var s1 := CpuPhase(s, pf);
    SafeKinds(trace, s1.core, s.core.cycle + 1);
    L2PhaseIsSafe(trace, s1, s.core.cycle + 1);
    L2PhaseCaches(s1);
    var s2 := L2Phase(s1);
    MemPhaseIsSafe(trace, s2, s.core.cycle + 1);
    MemPhaseCaches(s2);
  }

  lemma LoadsOfOne(a: Access)
    ensures LoadsOnly([a]) == if a.load then [a] else []
  {
    assert [a][1..] == [];
  }

  lemma TurnL1(trace: seq<TraceOp>, s: State, pf: Option<Request>)
    requires Reached(trace, s)
    ensures Step(s, pf).dcache == After(L1, After(L1, After(L1, s.dcache, AtIssue(s)), FromL2(s, pf)), LoadsOnly(FromMemory(s, pf)))
  {
    hide CpuPhase, L2Phase, MemPhase, WbPhase, CheckIn, AccessIn, After, FrontReady, Safe, Kinds;
    var s1 := CpuPhase(s, pf);
    var s2 := L2Phase(s1);
    var s3 := MemPhase(s2);
    TurnPhases(trace, s, pf);
    SafeKinds(trace, s.core, s.core.cycle);
    SafeKinds(trace, s1.core, s.core.cycle + 1);
    SafeKinds(trace, s3.core, s.core.cycle + 1);
    CpuPhaseCaches(s, pf);
    L2PhaseCaches(s1);
    MemPhaseCaches(s2);
    WbPhaseCaches(s3);
    if MemDue(s, pf) { LoadsOfOne(Access(MemFront(s, pf).addr, MemFront(s, pf).load)); }
  }

  lemma TurnL2(trace: seq<TraceOp>, s: State, pf: Option<Request>)
    requires Reached(trace, s)
    ensures Step(s, pf).l2cache == After(L2, After(L2, s.l2cache, FromMemory(s, pf)), FromBuffer(s, pf))
  {
    hide CpuPhase, L2Phase, MemPhase, WbPhase, CheckIn, AccessIn, After, FrontReady, Safe, Kinds;
    var s1 := CpuPhase(s, pf);
    var s2 := L2Phase(s1);
    var s3 := MemPhase(s2);
    TurnPhases(trace, s, pf);
    SafeKinds(trace, s.core, s.core.cycle);
    SafeKinds(trace, s1.core, s.core.cycle + 1);
    SafeKinds(trace, s3.core, s.core.cycle + 1);
    CpuPhaseCaches(s, pf);
    L2PhaseCaches(s1);
    MemPhaseCaches(s2);
    WbPhaseCaches(s3);
  }

  /** One turn brings into the caches what `L1Turn` and `L2Turn` say. */
  lemma TurnCaches(trace: seq<TraceOp>, s: State, pf: Option<Request>)
    requires Reached(trace, s)
    ensures Step(s, pf).dcache == After(L1, s.dcache, L1Turn(s, pf))
    ensures Step(s, pf).l2cache == After(L2, s.l2cache, L2Turn(s, pf))
  {
    TurnL1(trace, s, pf);
    TurnL2(trace, s, pf);
    hide Step, AtIssue, FromL2, FromMemory, FromBuffer, After;
    AfterAppend(L1, s.dcache, AtIssue(s), FromL2(s, pf));
    AfterAppend(L1, s.dcache, AtIssue(s) + FromL2(s, pf), LoadsOnly(FromMemory(s, pf)));
    AfterAppend(L2, s.l2cache, FromMemory(s, pf), FromBuffer(s, pf));
  }

  /** In every run both caches hold what their accesses so far have left in them. */
  lemma {:induction false} CachesFollowTrails(trace: seq<TraceOp>, pfs: seq<Option<Request>>)
    ensures Run(trace, pfs).dcache == LI.Run(L1, L1Trail(trace, pfs))
    ensures Run(trace, pfs).l2cache == LI.Run(L2, L2Trail(trace, pfs))
  {
    if pfs != [] {
      var before, pf := pfs[..|pfs| - 1], pfs[|pfs| - 1];
      CachesFollowTrails(trace, before);
      RunIsSafe(trace, before);
      var s := Run(trace, before);
      assert Run(trace, pfs) == if s.core.cpu.done then s else Step(s, pf);
      hide Run, Step, Safe, LI.Run, L1Turn, L2Turn;
      if s.core.cpu.done {
        assert L1Trail(trace, pfs) == L1Trail(trace, before) && L2Trail(trace, pfs) == L2Trail(trace, before);
      } else {
        TurnCaches(trace, s, pf);
        RunAppend(L1, L1Trail(trace, before), L1Turn(s, pf));
        RunAppend(L2, L2Trail(trace, before), L2Turn(s, pf));
      }
    }
  }

  /** So L1 holds a block exactly when it took part in an answer for the block, and since then in
      answers for fewer than two other blocks of its set. L2 holds a block exactly when memory
      brought it in, and fewer than eight other blocks of its set were brought in, or stored to,
      since that or since the latest store to it. */
  lemma CachesHoldExactly(trace: seq<TraceOp>, pfs: seq<Option<Request>>, addr: nat)
    ensures var s := Run(trace, pfs); var since := Since(L1, L1Trail(trace, pfs), Block(L1, addr));
      CheckIn(L1, s.dcache, addr) <==> since.Some? && |since.value| < 2
    ensures var s := Run(trace, pfs); var since := Since(L2, L2Trail(trace, pfs), Block(L2, addr));
      CheckIn(L2, s.l2cache, addr) <==> since.Some? && |since.value| < 8
  {
    CachesFollowTrails(trace, pfs);
    hide Run, LI.Run, CheckIn, Since, L1Trail, L2Trail, Block;
    HeldExactlyWhen(L1, L1Trail(trace, pfs), addr);
    HeldExactlyWhen(L2, L2Trail(trace, pfs), addr);
  }

  // ----- When a request is served -----

  /** The current request, stamped with the cycle of its issue. */
  function Issued(c: Core): Request { c.cpu.cur.(issuedAt := c.cycle) }

  /** The request that is served in this turn, by what the caches hold and who stands where. */
  function ServedNow(s: State, pf: Option<Request>): Option<Request>
    requires s.Shaped()
  {
    var c, cur := s.core, s.core.cpu.cur;
    var room := |c.wb| < WRITE_BUFFER.capacity;
    if Issuing(c) && (CheckIn(L1, s.dcache, cur.addr) || (!cur.load && room)) then Some(Issued(c))
    else if c.cpu.status == StalledWB && room then Some(cur)
    else if L2Due(s, pf) && L2Front(s, pf).fromCPU && CheckIn(L2, s.l2cache, L2Front(s, pf).addr) then Some(L2Front(s, pf))
    else if MemDue(s, pf) && MemFront(s, pf).fromCPU && MemFront(s, pf).load then Some(MemFront(s, pf))
    else None
  }

  function Log(r: Option<Request>): seq<Request> { if r.Some? then [r.value] else [] }

  lemma CpuServes(s: State, pf: Option<Request>)
    requires s.Shaped() && !s.core.cpu.done && s.core.cpu.status != Ready && |s.core.wb| <= 10
    ensures var c, c1 := s.core, CpuPhase(s, pf).core; var room := |c.wb| < 10;
      if Issuing(c) && (CheckIn(L1, s.dcache, c.cpu.cur.addr) || (!c.cpu.cur.load && room))
      then c1.served == c.served + [Issued(c)] && c1.cpu.status == Idle
      else if c.cpu.status == StalledWB && room then c1.served == c.served + [c.cpu.cur] && c1.cpu.status == Idle
      else c1.served == c.served
  {
    hide CheckIn, AccessIn, Offer;
  }

  lemma L2Serves(s: State)
    requires s.Shaped()
    ensures var c, c2 := s.core, L2Phase(s).core;
      if FrontReady(c.l2q, c.cycle) && c.l2q[0].req.fromCPU && CheckIn(L2, s.l2cache, c.l2q[0].req.addr)
      then c2.served == c.served + [c.l2q[0].req] && c2.cpu.status == Idle && c2.memq == c.memq
      else c2.served == c.served
  {
    hide CheckIn, AccessIn, Offer;
  }

  lemma MemServes(s: State)
    requires s.Shaped()
    ensures var c, c3 := s.core, MemPhase(s).core;
      c3.served == c.served +
        if FrontReady(c.memq, c.cycle) && c.memq[0].req.fromCPU && c.memq[0].req.load then [c.memq[0].req] else []
  {
    hide AccessIn;
  }

  lemma WbServesNone(s: State)
    requires s.Shaped()
    ensures WbPhase(s).core.served == s.core.served
  {
    hide CheckIn, AccessIn, Offer;
  }

  /** Only a waiting processor has a load at the front of a queue. */
  lemma FrontMeansWaiting(trace: seq<TraceOp>, c: Core, bound: nat)
    requires Safe(trace, c, bound)
    ensures c.l2q != [] && c.l2q[0].req.fromCPU ==> c.cpu.status == Waiting
    ensures c.memq != [] && c.memq[0].req.fromCPU && c.memq[0].req.load ==> c.cpu.status == Waiting
    ensures |c.wb| <= 10
  {
    if c.l2q != [] && c.l2q[0].req.fromCPU { assert CpuLoad(c.l2q[0]); }
    if c.memq != [] && c.memq[0].req.fromCPU && c.memq[0].req.load { assert CpuLoad(c.memq[0]); }
  }

  /** In every turn at most one request is served: an issued one that L1 answers or a store that
      finds room in the write buffer, at once; a load at the due front of the L2 queue exactly when
      L2 holds its block; and the load at the due front of the memory queue. */
  lemma ServedExactlyWhen(trace: seq<TraceOp>, s: State, pf: Option<Request>)
    requires Reached(trace, s)
    ensures Step(s, pf).core.served == s.core.served + Log(ServedNow(s, pf))
  {
    hide CpuPhase, L2Phase, MemPhase, WbPhase, CheckIn, Safe;
    var s1 := CpuPhase(s, pf);
    var s2 := L2Phase(s1);
    SafeKinds(trace, s.core, s.core.cycle);
    FrontMeansWaiting(trace, s.core, s.core.cycle);
    TurnPhases(trace, s, pf);
    FrontMeansWaiting(trace, s1.core, s.core.cycle + 1);
    FrontMeansWaiting(trace, s2.core, s.core.cycle + 1);
    CpuPhaseCaches(s, pf);
    CpuServes(s, pf);
    L2Serves(s1);
    MemServes(s2);
    WbServesNone(MemPhase(s2));
    L2KeepsIdle(s1);
  }

  lemma L2KeepsIdle(s: State)
    requires s.Shaped()
    ensures s.core.cpu.status == Idle ==> L2Phase(s).core.cpu.status == Idle
  {
    hide CheckIn, AccessIn, Offer;
  }
}
