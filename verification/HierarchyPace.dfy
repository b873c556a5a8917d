/** The pace of the processor and of the write buffer, and a load that a prefetch makes early. */
module HierarchyPace {
  import opened Helpers
  import opened LruCache
  import opened MemQueue
  import opened Hierarchy
  import opened HierarchySafety
  import opened HierarchyQueues
  import opened HierarchyCaches
  import opened HierarchyTiming

  // ----- From one request to the next -----

  /** A phase serves nothing, or completes a request of processor `from` in this cycle. */
  ghost predicate ServesOnce(c: Core, from: Cpu, c': Core)
  {
    || (c'.served == c.served && c'.cpu.readyAt == c.cpu.readyAt && c'.cpu.trace == c.cpu.trace && c'.cpu.done == c.cpu.done)
    || (|c'.served| == |c.served| + 1 && c'.cpu == Complete(from, c.cycle) && from.trace == c.cpu.trace && from.done == c.cpu.done)
  }

  lemma CpuServesOnce(c: Core, c1: Core)
    requires CpuMoves(c, c1) && c.cpu.status != Ready
    ensures exists from: Cpu :: ServesOnce(c, from, c1)
    ensures c1.served != c.served ==> c1.cpu.status == Idle
  {
    hide Joins;
    var cpu := GetStatus(c.cpu, c.cycle);
    var from := if cpu.status == Ready then Issue(cpu, c.cycle) else cpu;
    if cpu.status == StalledWB {
      var m: Core :| PrefetchMoves(c, m) && StoreMoves(m, cpu, c1);
    }
    assert ServesOnce(c, from, c1);
  }

  lemma L2ServesOnce(trace: seq<TraceOp>, c: Core, c2: Core, bound: nat)
    requires Safe(trace, c, bound) && L2Moves(c, c2)
    ensures ServesOnce(c, c.cpu, c2) && c2.cycle == c.cycle
    ensures if c2.served == c.served then c2.cpu == c.cpu else c.cpu.status == Waiting && c2.cpu.status == Idle
  {
    FrontMeansWaiting(trace, c, bound);
    hide Safe, Joins;
  }

  lemma MemServesOnce(trace: seq<TraceOp>, c: Core, c3: Core, bound: nat)
    requires Safe(trace, c, bound) && MemMoves(c, c3)
    ensures ServesOnce(c, c.cpu, c3) && c3.cycle == c.cycle
    ensures if c3.served == c.served then c3.cpu == c.cpu else c.cpu.status == Waiting
  {
    FrontMeansWaiting(trace, c, bound);
    hide Safe;
  }

  /** Where the processor stands after a turn that began with core `c`. */
  ghost predicate Pace(trace: seq<TraceOp>, c: Core, c': Core)
  {
    || (c'.served == c.served && c'.cpu.readyAt == c.cpu.readyAt && c'.cpu.trace == c.cpu.trace && c'.cpu.done == c.cpu.done)
    || (|c'.served| == |c.served| + 1 && c'.cpu.status == Idle &&
        if |c'.served| >= |trace| then c'.cpu.done else c'.cpu.readyAt == c.cycle + trace[|c'.served|].gap + 1)
  }

  lemma CompletePace(trace: seq<TraceOp>, c0: Core, c: Core, from: Cpu, c': Core, bound: nat)
    requires Safe(trace, c0, bound) && !c0.cpu.done && ServesOnce(c, from, c') && c.cycle == c0.cycle
    requires c.served == c0.served && c.cpu.readyAt == c0.cpu.readyAt && c.cpu.trace == c0.cpu.trace && c.cpu.done == c0.cpu.done
    ensures Pace(trace, c0, c')
  {
    hide Kinds, OneLoad, Conserved, Stamped;
  }

  /** In every turn of every run: while nothing is served the processor's next ready time stays; when a
      request is served, the next one is ready one cycle after its gap, counted from this turn. */
  lemma NextRequestIsReady(trace: seq<TraceOp>, s: State, pf: Option<Request>)
    requires Reached(trace, s)
    ensures Pace(trace, s.core, Step(s, pf).core)
  {
    hide CpuPhase, L2Phase, MemPhase, WbPhase, Safe, CpuMoves, L2Moves, MemMoves, ServesOnce, Pace;
    var s1 := CpuPhase(s, pf);
    var s2 := L2Phase(s1);
    var s3 := MemPhase(s2);
    SafeKinds(trace, s.core, s.core.cycle);
    TurnPhases(trace, s, pf);
    CpuPhaseMoves(s, pf);
    L2PhaseMoves(s1);
    MemPhaseMoves(s2);
    CpuServesOnce(s.core, s1.core);
    L2ServesOnce(trace, s1.core, s2.core, s.core.cycle + 1);
    MemServesOnce(trace, s2.core, s3.core, s.core.cycle + 1);
    WbKeepsCpu(s3);
    var from: Cpu :| ServesOnce(s.core, from, s1.core);
    PaceOfTurn(trace, s.core, s1.core, s2.core, s3.core, from, s.core.cycle);
    SamePace(trace, s.core, s3.core, Step(s, pf).core);
  }

  lemma WbKeepsCpu(s: State)
    requires s.Shaped()
    ensures WbPhase(s).core.cpu == s.core.cpu && WbPhase(s).core.served == s.core.served
  {
    hide CheckIn, AccessIn, Offer;
  }

  lemma SamePace(trace: seq<TraceOp>, c: Core, c': Core, c'': Core)
    requires Pace(trace, c, c') && c''.cpu == c'.cpu && c''.served == c'.served
    ensures Pace(trace, c, c'')
  {
  }

  lemma PaceOfTurn(trace: seq<TraceOp>, c: Core, c1: Core, c2: Core, c3: Core, from: Cpu, bound: nat)
    requires Safe(trace, c, bound) && !c.cpu.done && ServesOnce(c, from, c1) && ServesOnce(c1, c1.cpu, c2) && ServesOnce(c2, c2.cpu, c3)
    requires c1.cycle == c.cycle == c2.cycle && (c1.served != c.served ==> c1.cpu.status == Idle)
    requires if c2.served == c1.served then c2.cpu == c1.cpu else c1.cpu.status == Waiting && c2.cpu.status == Idle
    requires if c3.served == c2.served then c3.cpu == c2.cpu else c2.cpu.status == Waiting
    ensures Pace(trace, c, c3)
  {
    hide Safe;
    if c1.served != c.served {
      CompletePace(trace, c, c, from, c1, bound);
    } else if c2.served != c1.served {
      CompletePace(trace, c, c1, c1.cpu, c2, bound);
    } else {
      CompletePace(trace, c, c2, c2.cpu, c3, bound);
    }
  }

  // ----- Stores in the write buffer -----

  /** Every buffered store is ready twenty cycles after its issue at the earliest. */
  ghost predicate Buffered(c: Core, now: nat)
  {
    && (forall i :: 0 <= i < |c.wb| ==> c.wb[i].ready >= c.wb[i].req.issuedAt + 20)
    && (c.cpu.status == StalledWB ==> c.cpu.cur.issuedAt <= now)
  }

  lemma StoreBuffers(c: Core, cpu: Cpu, c1: Core)
    requires (forall d :: 0 <= d < |c.wb| ==> CpuStore(c.wb[d])) && Buffered(c, c.cycle) && StoreMoves(c, cpu, c1) && cpu.cur.issuedAt <= c.cycle && cpu.cur.fromCPU
    ensures Buffered(c1, c.cycle)
  {
  }

  lemma CpuBuffers(trace: seq<TraceOp>, c: Core, c1: Core)
    requires Safe(trace, c, c.cycle) && !c.cpu.done && Buffered(c, c.cycle) && CpuMoves(c, c1)
    ensures Buffered(c1, c.cycle)
  {
    hide Joins, Logged, Conserved, StoreMoves, NoLoad, InFlight;
    var cpu := GetStatus(c.cpu, c.cycle);
    match cpu.status
    case Ready =>
      var cur := Issue(cpu, c.cycle);
      if !cur.cur.load && c1 != CompleteWith(c, cur, cur.cur) { StoreBuffers(c, cur, c1); }
    case StalledWB =>
      var m: Core :| PrefetchMoves(c, m) && StoreMoves(m, cpu, c1);
      StoreBuffers(m, cpu, c1);
    case Waiting =>
    case Idle =>
    case StalledL2 =>
  }

  lemma L2Buffers(c: Core, c2: Core, now: nat)
    requires Buffered(c, now) && L2Moves(c, c2)
    ensures Buffered(c2, now)
  {
    hide Joins;
  }

  lemma MemBuffers(c: Core, c3: Core, now: nat)
    requires Buffered(c, now) && MemMoves(c, c3)
    ensures Buffered(c3, now)
  {
  }

  lemma WbBuffers(c: Core, c4: Core, now: nat)
    requires Buffered(c, now) && WbMoves(c, c4)
    ensures Buffered(c4, now + 1)
  {
    hide Joins;
  }

  lemma TurnBuffers(trace: seq<TraceOp>, c: Core, c': Core)
    requires Safe(trace, c, c.cycle) && !c.cpu.done && Buffered(c, c.cycle) && Turn(c, c')
    ensures Buffered(c', c'.cycle)
  {
    hide Safe, CpuMoves, L2Moves, MemMoves, WbMoves;
    var c1, c2, c3, c4 :|
      CpuMoves(c, c1) && L2Moves(c1, c2) && MemMoves(c2, c3) && WbMoves(c3, c4) && c' == c4.(cycle := c4.cycle + 1);
    CpuBuffers(trace, c, c1);
    L2Buffers(c1, c2, c.cycle);
    MemBuffers(c2, c3, c.cycle);
    WbBuffers(c3, c4, c.cycle);
    TurnKeepsSafe(trace, c, c');
  }

  /** In every run a buffered store is applied to L2, or asks memory for its block, twenty cycles
      after its issue at the earliest. */
  lemma {:induction false} StoresAreBuffered(trace: seq<TraceOp>, pfs: seq<Option<Request>>)
    ensures Buffered(Run(trace, pfs).core, Run(trace, pfs).core.cycle)
  {
    if pfs != [] {
      var before := pfs[..|pfs| - 1];
      StoresAreBuffered(trace, before);
      RunIsSafe(trace, before);
      hide Safe, Turn, Step, Buffered;
      var s := Run(trace, before);
      if !s.core.cpu.done {
        StepIsTurn(s, pfs[|pfs| - 1]);
        TurnBuffers(trace, s.core, Step(s, pfs[|pfs| - 1]).core);
      }
    }
  }

  // ----- A load that a prefetch makes early -----

  /** Nothing happens in a turn in which no queue is due and the processor waits. */
  ghost predicate Quiet(c: Core, turns: nat)
  {
    && !c.cpu.done && c.wb == []
    && (c.cpu.status == Waiting || (c.cpu.status == Idle && c.cycle + turns <= c.cpu.readyAt))
    && (c.l2q != [] ==> c.l2q[0].ready >= c.cycle + turns)
    && (c.memq != [] ==> c.memq[0].ready >= c.cycle + turns)
  }

  lemma QuietTurn(s: State)
    requires s.Shaped() && Quiet(s.core, 1)
    ensures Step(s, None) == s.(core := s.core.(cycle := s.core.cycle + 1))
  {
    assert CpuPhase(s, None) == s;
    assert L2Phase(s) == s && MemPhase(s) == s && WbPhase(s) == s;
  }

  lemma {:induction false} QuietTurns(trace: seq<TraceOp>, pfs: seq<Option<Request>>, n: nat)
    requires Quiet(Run(trace, pfs).core, n)
    ensures var s := Run(trace, pfs); Run(trace, pfs + Still(n)) == s.(core := s.core.(cycle := s.core.cycle + n))
  {
    hide Run, Step;
    if n == 0 {
      assert pfs + Still(0) == pfs;
    } else {
      assert pfs + Still(n) == pfs + Still(n - 1) + [None];
      QuietTurns(trace, pfs, n - 1);
      RunGrows(trace, pfs + Still(n - 1), None);
      QuietTurn(Run(trace, pfs + Still(n - 1)));
    }
  }

  const LATE := [TraceOp(true, 0, 0, 20)]
  const PREFETCH := Request(0, 0, true, false, 0)

  lemma ColdL1(addr: nat)
    ensures !CheckIn(L1, Empty(L1), addr)
  {
    IndexIsModulo(L1, addr);
    hide Pow2;
    assert Empty(L1)[L1.GetIndex(addr)] == [];
  }

  lemma ColdL2(addr: nat)
    ensures !CheckIn(L2, Empty(L2), addr)
  {
    IndexIsModulo(L2, addr);
    hide Pow2;
    assert Empty(L2)[L2.GetIndex(addr)] == [];
  }

  /** The prefetch of the first cycle is ready in cycle 21. */
  lemma PrefetchIsQueued()
    ensures var s := Run(LATE, [Some(PREFETCH)]); var c := s.core;
      && s.dcache == Empty(L1) && s.l2cache == Empty(L2) && c.cycle == 2 && c.served == [] && c.memq == [] && c.wb == []
      && c.cpu == Cpu(Idle, Request(0, 0, true, true, 0), 21, false, [])
      && |c.l2q| == 1 && c.l2q[0] == EntryFor(QUEUE_L2, [], PREFETCH, 1)
  {
    var s := Init(LATE);
    assert [Some(PREFETCH)][..0] == [];
    assert Run(LATE, []) == s;
    hide Empty, EntryFor;
    var m := CpuPhase(s, Some(PREFETCH));
    assert AsPrefetch(PREFETCH) == PREFETCH;
    assert m.core.l2q == [EntryFor(QUEUE_L2, [], PREFETCH, 1)];
    EntryReady(QUEUE_L2, PREFETCH, 1);
    assert L2Phase(m) == m && MemPhase(m) == m && WbPhase(m) == m;
  }

  lemma EntryReady(k: Kind, r: Request, cycle: nat)
    requires k.source.Valid()
    ensures EntryFor(k, [], r, cycle).ready == cycle + k.latency && EntryFor(k, [], r, cycle).req == r
  {
  }

  /** The load takes over its entry in cycle 21 and goes on to memory at once. */
  lemma LoadTakesOver(s: State)
    requires s.Shaped() && s.dcache == Empty(L1) && s.l2cache == Empty(L2)
    requires s.core.cycle == 21 && s.core.served == [] && s.core.memq == [] && s.core.wb == []
    requires s.core.cpu == Cpu(Idle, Request(0, 0, true, true, 0), 21, false, [])
    requires s.core.l2q == [EntryFor(QUEUE_L2, [], PREFETCH, 1)]
    ensures var c, r := Step(s, None).core, Request(0, 0, true, true, 21);
      && c.cycle == 22 && c.served == [] && c.l2q == [] && c.wb == [] && c.memq == [EntryFor(QUEUE_MEM, [], r, 21)]
      && c.cpu == Cpu(Waiting, r, 21, false, [])
  {
    var r := Request(0, 0, true, true, 21);
    ColdL1(0);
    ColdL2(0);
    EntryReady(QUEUE_L2, PREFETCH, 1);
    EntryReady(QUEUE_MEM, r, 21);
    var s1 := CpuPhase(s, None);
    var e := EntryFor(QUEUE_L2, [], PREFETCH, 1);
    assert LastOf([e], e.tag, e.index) == 0;
    hide Empty, CheckIn, AccessIn;
    assert s1.core.l2q == [e.(req := r)];
    assert s1 == s.(core := s1.core);
    var s2 := L2Phase(s1);
    assert s2.core.l2q == [] && s2.core.memq == [EntryFor(QUEUE_MEM, [], r, 21)];
    assert MemPhase(s2) == s2 && WbPhase(s2) == s2;
  }

  /** Memory answers in cycle 71. */
  lemma LoadIsAnswered(s: State, r: Request)
    requires s.Shaped() && s.core.cycle == 71 && s.core.served == [] && s.core.l2q == [] && s.core.wb == []
    requires s.core.memq == [EntryFor(QUEUE_MEM, [], r, 21)] && s.core.cpu == Cpu(Waiting, r, 21, false, []) && r.load && r.fromCPU
    ensures Step(s, None).core.served == [r]
  {
    EntryReady(QUEUE_MEM, r, 21);
    hide AccessIn, EntryFor;
    assert CpuPhase(s, None) == s;
    assert L2Phase(s) == s;
    var m := MemPhase(s);
    assert m.core.served == [r] && m.core.wb == [];
    assert WbPhase(m) == m;
  }

  function Early(n: nat): (s: State)
    ensures s.Shaped()
  {
    Run(LATE, [Some(PREFETCH)] + Still(n))
  }

  lemma EarlyNext(n: nat)
    ensures Early(n + 1) == if Early(n).core.cpu.done then Early(n) else Step(Early(n), None)
  {
    hide Run, Step;
    RunGrows(LATE, [Some(PREFETCH)] + Still(n), None);
    assert [Some(PREFETCH)] + Still(n + 1) == [Some(PREFETCH)] + Still(n) + [None];
  }

  lemma EarlyQuiet(n: nat, m: nat)
    requires Quiet(Early(n).core, m)
    ensures Early(n + m) == Early(n).(core := Early(n).core.(cycle := Early(n).core.cycle + m))
  {
    hide Run, Quiet;
    QuietTurns(LATE, [Some(PREFETCH)] + Still(n), m);
    assert [Some(PREFETCH)] + Still(n) + Still(m) == [Some(PREFETCH)] + Still(n + m);
  }

  lemma EarlyUntilIssue()
    ensures var s := Early(19); s.core.cycle == 21 && Enters(s)
    ensures var c, r := Early(20).core, Request(0, 0, true, true, 21);
      && c.cycle == 22 && c.served == [] && c.l2q == [] && c.wb == [] && c.memq == [EntryFor(QUEUE_MEM, [], r, 21)]
      && c.cpu == Cpu(Waiting, r, 21, false, [])
  {
    assert [Some(PREFETCH)] + Still(0) == [Some(PREFETCH)];
    PrefetchIsQueued();
    EntryReady(QUEUE_L2, PREFETCH, 1);
    ColdL1(0);
    hide Run, Step, CheckIn, EntryFor, Empty, Still;
    assert Early(0) == Run(LATE, [Some(PREFETCH)]);
    hide Early;
    EarlyQuiet(0, 19);
    EarlyNext(19);
    LoadTakesOver(Early(19));
  }

  /** So the bounds of twenty and of seventy cycles need their proviso: this load misses in both
      caches, which are empty, takes over the entry of the prefetch for its block, is with memory in the
      cycle of its issue, 21, and is served in cycle 71. */
  lemma EarlyLoad()
    ensures Early(19).core.cycle == 21 && Enters(Early(19))
    ensures Early(69).core.cycle == 71 && Early(69).core.served == []
    ensures Early(70).core.served == [Request(0, 0, true, true, 21)]
  {
    hide Early, Step, EntryFor, Enters;
    var r := Request(0, 0, true, true, 21);
    EarlyUntilIssue();
    EntryReady(QUEUE_MEM, r, 21);
    EarlyQuiet(20, 49);
    LoadIsAnswered(Early(69), r);
    EarlyNext(69);
  }
}
