/** Nothing starves: whatever the trace and whatever the prefetcher asks, every request of the
    CPU is completed within a fixed number of cycles, and the main loop ends. */
module HierarchyProgress {
  import opened Helpers
  import opened MemQueue
  import opened Hierarchy
  import opened HierarchySafety

  // ----- The clocks of the queues -----

  /** A pipelined queue: entries become ready in order, none later than `limit`. */
  ghost predicate Piped(q: seq<Entry>, limit: nat)
  {
    && (forall i, j :: 0 <= i <= j < |q| ==> q[i].ready <= q[j].ready)
    && (forall i :: 0 <= i < |q| ==> q[i].ready <= limit)
  }

  /** The memory queue: entries are ready exactly one latency apart, the first one between
      `lo` and `hi`. */
  ghost predicate Spaced(q: seq<Entry>, lo: nat, hi: nat)
  {
    && (forall i :: 0 <= i < |q| ==> q[i].ready == q[0].ready + 50 * i)
    && (q != [] ==> lo <= q[0].ready <= hi)
  }

  /** The clocks at the start of a turn. */
  ghost predicate Timed(c: Core)
  {
    && Piped(c.l2q, c.cycle + 19)
    && Piped(c.wb, c.cycle + 19)
    && Spaced(c.memq, c.cycle, c.cycle + 49)
    && |c.l2q| <= 20 && |c.memq| <= 10 && |c.wb| <= 10
  }

  lemma JoinsPiped(k: Kind, q: seq<Entry>, r: Request, cycle: nat, q': seq<Entry>)
    requires Joins(k, q, r, cycle, q') && k.pipelined && k.latency == 20 && Piped(q, cycle + 20)
    ensures Piped(q', cycle + 20) && |q| <= |q'| <= |q| + 1
    ensures forall i :: 0 <= i < |q| ==> q'[i].ready == q[i].ready
  {
  }

  lemma JoinsSpaced(q: seq<Entry>, r: Request, cycle: nat, q': seq<Entry>, lo: nat)
    requires Joins(QUEUE_MEM, q, r, cycle, q') && Spaced(q, lo, cycle + 50) && lo <= cycle + 50
    ensures Spaced(q', lo, cycle + 50) && |q| <= |q'| <= |q| + 1
    ensures forall i :: 0 <= i < |q| ==> q'[i].ready == q[i].ready
  {
  }

  /** What the processor phase leaves of the clocks. */
  ghost predicate CpuTimed(c: Core, c1: Core)
  {
    && c1.cycle == c.cycle && c1.memq == c.memq
    && Piped(c1.l2q, c.cycle + 20) && Piped(c1.wb, c.cycle + 20)
    && |c.l2q| <= |c1.l2q| <= 20 && |c.wb| <= |c1.wb| <= 10
    && (forall i :: 0 <= i < |c.l2q| ==> c1.l2q[i].ready == c.l2q[i].ready)
    && (forall i :: 0 <= i < |c.wb| ==> c1.wb[i].ready == c.wb[i].ready)
  }

  lemma StoreTimed(c: Core, cpu: Cpu, c1: Core)
    requires StoreMoves(c, cpu, c1) && Piped(c.wb, c.cycle + 20) && |c.wb| <= 10
    ensures c1.cycle == c.cycle && c1.memq == c.memq && c1.l2q == c.l2q
    ensures Piped(c1.wb, c.cycle + 20) && |c.wb| <= |c1.wb| <= 10
    ensures forall i :: 0 <= i < |c.wb| ==> c1.wb[i].ready == c.wb[i].ready
  {
    if |c.wb| != 10 { JoinsPiped(WRITE_BUFFER, c.wb, cpu.cur, c.cycle, c1.wb); }
  }

  lemma LoadTimed(c: Core, cpu: Cpu, c1: Core)
    requires LoadMoves(c, cpu, c1) && Piped(c.l2q, c.cycle + 20) && |c.l2q| <= 20
    ensures c1.cycle == c.cycle && c1.memq == c.memq && c1.wb == c.wb
    ensures Piped(c1.l2q, c.cycle + 20) && |c.l2q| <= |c1.l2q| <= 20
    ensures forall i :: 0 <= i < |c.l2q| ==> c1.l2q[i].ready == c.l2q[i].ready
  {
    if |c.l2q| != 20 { JoinsPiped(QUEUE_L2, c.l2q, cpu.cur, c.cycle, c1.l2q); }
  }

  lemma PrefetchTimed(c: Core, c1: Core)
    requires PrefetchMoves(c, c1) && Piped(c.l2q, c.cycle + 20) && |c.l2q| <= 20
    ensures c1.cycle == c.cycle && c1.memq == c.memq && c1.wb == c.wb && c1.cpu == c.cpu && c1.served == c.served
    ensures Piped(c1.l2q, c.cycle + 20) && |c.l2q| <= |c1.l2q| <= 20
    ensures forall i :: 0 <= i < |c.l2q| ==> c1.l2q[i].ready == c.l2q[i].ready
  {
    if c1 != c {
      var r: Request :| !r.fromCPU && r.load && Joins(QUEUE_L2, c.l2q, r, c.cycle, c1.l2q);
      JoinsPiped(QUEUE_L2, c.l2q, r, c.cycle, c1.l2q);
    }
  }

  lemma CpuMovesTimed(c: Core, c1: Core)
    requires Timed(c) && CpuMoves(c, c1)
    ensures CpuTimed(c, c1)
  {
    assert Piped(c.l2q, c.cycle + 20) && Piped(c.wb, c.cycle + 20);
    hide Piped, Spaced, StoreMoves, LoadMoves, PrefetchMoves, Joins;
    var cpu := GetStatus(c.cpu, c.cycle);
    match cpu.status
    case Ready =>
      var cur := Issue(cpu, c.cycle);
      if c1 != CompleteWith(c, cur, cur.cur) {
        if cur.cur.load { LoadTimed(c, cur, c1); } else { StoreTimed(c, cur, c1); }
      }
    case Waiting => PrefetchTimed(c, c1);
    case Idle => PrefetchTimed(c, c1);
    case StalledWB =>
      var m: Core :| PrefetchMoves(c, m) && StoreMoves(m, cpu, c1);
      PrefetchTimed(c, m);
      StoreTimed(m, cpu, c1);
    case StalledL2 => LoadTimed(c, cpu, c1);
  }

  // ----- What the other phases do to lengths and clocks -----

  /** The L2 queue stands still (not ready, or memory full) or gives up its front. */
  lemma L2MovesTimed(c1: Core, c2: Core)
    requires L2Moves(c1, c2) && Piped(c1.l2q, c1.cycle + 20) && |c1.memq| <= 10
    requires Spaced(c1.memq, c1.cycle, c1.cycle + 49)
    ensures c2.cycle == c1.cycle && c2.wb == c1.wb && |c2.served| >= |c1.served|
    ensures |c2.served| == |c1.served| ==> c2.cpu == c1.cpu
    ensures |c2.l2q| <= |c1.l2q| && Piped(c2.l2q, c1.cycle + 20) && Spaced(c2.memq, c1.cycle, c1.cycle + 50)
    ensures |c1.memq| <= |c2.memq| <= 10 && forall i :: 0 <= i < |c1.memq| ==> c2.memq[i].ready == c1.memq[i].ready
    ensures FrontReady(c1.l2q, c1.cycle) && |c1.memq| < 10 ==> c2.l2q == c1.l2q[1..]
    ensures c2.l2q == c1.l2q ==> c2 == c1 && (FrontReady(c1.l2q, c1.cycle) ==> |c1.memq| == 10)
    ensures c2.l2q == c1.l2q || (FrontReady(c1.l2q, c1.cycle) && c2.l2q == c1.l2q[1..])
  {
    if FrontReady(c1.l2q, c1.cycle) && c2.memq != c1.memq {
      JoinsSpaced(c1.memq, c1.l2q[0].req, c1.cycle, c2.memq, c1.cycle);
    }
  }

  lemma MemMovesTimed(c2: Core, c3: Core)
    requires MemMoves(c2, c3) && Spaced(c2.memq, c2.cycle, c2.cycle + 50)
    ensures c3.cycle == c2.cycle && c3.wb == c2.wb && c3.l2q == c2.l2q && |c3.served| >= |c2.served|
    ensures |c3.served| == |c2.served| ==> c3.cpu == c2.cpu
    ensures Spaced(c3.memq, c2.cycle + 1, c2.cycle + 50) && |c3.memq| <= |c2.memq|
    ensures FrontReady(c2.memq, c2.cycle) ==> c3.memq == c2.memq[1..]
    ensures !FrontReady(c2.memq, c2.cycle) ==> c3 == c2
  {
    if FrontReady(c2.memq, c2.cycle) {
      assert forall i :: 0 <= i < |c3.memq| ==> c3.memq[i] == c2.memq[i + 1];
    }
  }

  lemma WbMovesTimed(c3: Core, c4: Core)
    requires WbMoves(c3, c4) && Piped(c3.wb, c3.cycle + 20) && |c3.memq| <= 10
    requires Spaced(c3.memq, c3.cycle + 1, c3.cycle + 50)
    ensures c4.cycle == c3.cycle && c4.l2q == c3.l2q && c4.cpu == c3.cpu && c4.served == c3.served
    ensures |c4.wb| <= |c3.wb| && Piped(c4.wb, c3.cycle + 20) && Spaced(c4.memq, c3.cycle + 1, c3.cycle + 50)
    ensures |c3.memq| <= |c4.memq| <= 10 && forall i :: 0 <= i < |c3.memq| ==> c4.memq[i].ready == c3.memq[i].ready
    ensures c4.wb == c3.wb ==> c4 == c3
    ensures c4.wb == c3.wb || c4.wb == c3.wb[1..]
    ensures FrontReady(c3.wb, c3.cycle) && |c3.memq| < 10 ==> |c4.wb| == |c3.wb| - 1
  {
    if FrontReady(c3.wb, c3.cycle) && c4.memq != c3.memq {
      JoinsSpaced(c3.memq, c3.wb[0].req, c3.cycle, c4.memq, c3.cycle + 1);
    }
  }

  // ----- The rank -----

  function Due(e: Entry, cycle: nat): nat
  {
    if e.ready > cycle then e.ready - cycle else 0
  }

  /** Cycles until a full memory queue frees a place. */
  function SlotWait(memq: seq<Entry>, cycle: nat): nat
  {
    if |memq| == 10 then Due(memq[0], cycle) + 1 else 0
  }

  /** Cycles a load needs at most from its arrival in the L2 queue, and a request from its
      issue, to its completion. */
  const LOAD_BOUND := 2078
  const REQUEST_BOUND := 2720

  /** An upper bound on the cycles until the current request of the CPU is completed. A load
      in the L2 queue may have to wait for one memory place for every entry ahead of it and,
      since the write buffer takes freed places first, for every entry of that buffer. */
  function Rank(c: Core): nat
  {
    match c.cpu.status
    case Waiting =>
      var p, i := LoadIndex(c.l2q), LoadIndex(c.memq);
      if p < |c.l2q| then 501 + Due(c.l2q[p], c.cycle) + SlotWait(c.memq, c.cycle) + 52 * (p + |c.wb|)
      else if i < |c.memq| then Due(c.memq[i], c.cycle) + 1
      else 0
    case StalledL2 =>
      LOAD_BOUND + 1 + if |c.l2q| == 20 then Due(c.l2q[0], c.cycle) + SlotWait(c.memq, c.cycle) + 52 * (1 + |c.wb|) else 0
    case StalledWB =>
      if |c.wb| < 10 then 1
      else if Due(c.wb[0], c.cycle) > 0 then 52 + Due(c.wb[0], c.cycle)
      else if |c.memq| == 10 then 2 + Due(c.memq[0], c.cycle)
      else 52
    case _ => REQUEST_BOUND + 1 + if c.cpu.readyAt > c.cycle then c.cpu.readyAt - c.cycle else 0
  }

  /** The last two phases: either the write buffer shrinks, or the wait for a memory place
      goes on. */
  lemma PlaceComes(c2: Core, c3: Core, c4: Core)
    requires MemMoves(c2, c3) && WbMoves(c3, c4) && |c2.memq| <= 10
    requires Spaced(c2.memq, c2.cycle, c2.cycle + 50) && Piped(c2.wb, c2.cycle + 20)
    ensures |c4.wb| <= |c2.wb| && SlotWait(c4.memq, c2.cycle + 1) <= 50
    ensures |c4.wb| == |c2.wb| && SlotWait(c2.memq, c2.cycle) > 0 ==>
              SlotWait(c4.memq, c2.cycle + 1) < SlotWait(c2.memq, c2.cycle)
    ensures |c4.wb| == |c2.wb| && SlotWait(c2.memq, c2.cycle) == 0 ==> SlotWait(c4.memq, c2.cycle + 1) == 0
  {
    MemMovesTimed(c2, c3);
    WbMovesTimed(c3, c4);
  }

  /** The clocks hold again at the start of the next turn. */
  lemma TurnKeepsTimed(c: Core, c1: Core, c2: Core, c3: Core, c4: Core)
    requires Timed(c) && Phases(c, c1, c2, c3, c4)
    ensures c4.cycle == c.cycle && Timed(c4.(cycle := c.cycle + 1))
    ensures CpuTimed(c, c1)
    ensures |c1.served| <= |c2.served| <= |c3.served| == |c4.served|
    ensures |c4.served| == |c1.served| ==> c4.cpu == c1.cpu
  {
    hide CpuMoves, L2Moves, MemMoves, WbMoves, Piped, Spaced, FrontReady;
    CpuMovesTimed(c, c1);
    L2MovesTimed(c1, c2);
    MemMovesTimed(c2, c3);
    WbMovesTimed(c3, c4);
  }

  /** No load of the CPU is due later than ten latencies from now. */
  lemma MemoryRank(c: Core)
    requires Timed(c) && c.cpu.status == Waiting && NoLoad(c.l2q)
    ensures Rank(c) <= 500
  {
  }

  lemma RankBound(c: Core)
    requires Timed(c)
    ensures c.cpu.status == Waiting ==> Rank(c) <= LOAD_BOUND
    ensures c.cpu.status in {StalledL2, StalledWB} ==> Rank(c) <= REQUEST_BOUND
  {
  }

  // ----- The rank falls -----

  /** The phases of one turn. */
  ghost predicate Phases(c: Core, c1: Core, c2: Core, c3: Core, c4: Core)
  {
    CpuMoves(c, c1) && L2Moves(c1, c2) && MemMoves(c2, c3) && WbMoves(c3, c4)
  }

  /** A load in the L2 queue keeps its place behind the front while prefetches come in. */
  lemma LoadKeepsPlace(c: Core, c1: Core, c2: Core, r: Request)
    requires PrefetchMoves(c, c1) && Carries(c.l2q, LoadIndex(c.l2q), r)
    requires c2.l2q == c1.l2q || (c1.l2q != [] && c2.l2q == c1.l2q[1..])
    ensures var p := LoadIndex(c.l2q);
            && p < |c1.l2q| && c1.l2q[p] == c.l2q[p]
            && (c2.l2q == c1.l2q ==> LoadIndex(c2.l2q) == p)
            && (c2.l2q != c1.l2q && p > 0 ==> LoadIndex(c2.l2q) == p - 1 && p - 1 < |c2.l2q| && c2.l2q[p - 1] == c.l2q[p])
            && (c2.l2q != c1.l2q && p == 0 ==> NoLoad(c2.l2q))
  {
    if c1 != c {
      var q: Request :| !q.fromCPU && q.load && Joins(QUEUE_L2, c.l2q, q, c.cycle, c1.l2q);
      JoinsOther(QUEUE_L2, c.l2q, q, c.cycle, c1.l2q, r);
    }
    CarriesTail(c1.l2q, r);
  }

  /** What the phases after the processor do to the L2 queue, the write buffer and the wait
      for a memory place. */
  ghost predicate Drained(c: Core, l2q: seq<Entry>, wb: nat, c4: Core)
  {
    var before, after := SlotWait(c.memq, c.cycle), SlotWait(c4.memq, c.cycle + 1);
    && |c4.wb| <= wb && after <= 50
    && (c4.l2q == l2q || (l2q != [] && c4.l2q == l2q[1..] && l2q[0].ready <= c.cycle))
    && (c4.l2q == l2q && l2q != [] && l2q[0].ready <= c.cycle ==> before > 0)
    && (c4.l2q == l2q && |c4.wb| == wb ==> (before > 0 ==> after < before) && (before == 0 ==> after == 0))
  }

  lemma TurnDrains(c: Core, c1: Core, c2: Core, c3: Core, c4: Core)
    requires Timed(c) && Phases(c, c1, c2, c3, c4)
    ensures Drained(c, c1.l2q, |c1.wb|, c4)
  {
    hide CpuMoves, L2Moves, MemMoves, WbMoves, Piped, Spaced, SlotWait;
    CpuMovesTimed(c, c1);
    L2MovesTimed(c1, c2);
    PlaceComes(c2, c3, c4);
    MemMovesTimed(c2, c3);
    WbMovesTimed(c3, c4);
    FullMeansWait(c.memq, c.cycle);
  }

  lemma FullMeansWait(memq: seq<Entry>, cycle: nat)
    ensures |memq| == 10 <==> SlotWait(memq, cycle) > 0
  {
  }

  lemma OnlyPrefetches(c: Core, c1: Core, c2: Core, c3: Core, c4: Core)
    requires Phases(c, c1, c2, c3, c4) && c.cpu.status == Waiting
    ensures PrefetchMoves(c, c1)
  {
  }

  lemma RankInL2(c: Core)
    requires c.cpu.status == Waiting && LoadIndex(c.l2q) < |c.l2q|
    ensures var p := LoadIndex(c.l2q);
            Rank(c) == 501 + Due(c.l2q[p], c.cycle) + SlotWait(c.memq, c.cycle) + 52 * (p + |c.wb|)
  {
  }

  /** Where the load at position `p` of the L2 queue stands after the turn. */
  ghost predicate Advanced(c: Core, front: Entry, c4: Core, p: nat)
    requires p < |c.l2q|
  {
    var before, after := SlotWait(c.memq, c.cycle), SlotWait(c4.memq, c.cycle + 1);
    && |c4.wb| <= |c.wb| && after <= 50 && front.ready <= c.l2q[p].ready
    && (|| (LoadIndex(c4.l2q) == p && p < |c4.l2q| && c4.l2q[p].ready == c.l2q[p].ready
            && (front.ready <= c.cycle ==> before > 0)
            && (|c4.wb| == |c.wb| ==> (before > 0 ==> after < before) && (before == 0 ==> after == 0)))
        || (p > 0 && LoadIndex(c4.l2q) == p - 1 && p - 1 < |c4.l2q| && c4.l2q[p - 1].ready == c.l2q[p].ready)
        || NoLoad(c4.l2q))
  }

  lemma LoadInL2Stands(c: Core, c1: Core, c2: Core, c3: Core, c4: Core)
    requires Timed(c) && Phases(c, c1, c2, c3, c4)
    requires c.cpu.status == Waiting && Carries(c.l2q, LoadIndex(c.l2q), c.cpu.cur) && LoadIndex(c.l2q) < |c.l2q|
    ensures c1.cpu == c.cpu && c1.served == c.served && c1.l2q != []
    ensures Advanced(c, c1.l2q[0], c4, LoadIndex(c.l2q))
  {
    hide Phases, PrefetchMoves, LoadIndex, SlotWait, Carries, Spaced;
    TurnDrains(c, c1, c2, c3, c4);
    OnlyPrefetches(c, c1, c2, c3, c4);
    PrefetchTimed(c, c1);
    LoadKeepsPlace(c, c1, c4, c.cpu.cur);
    var p := LoadIndex(c.l2q);
    assert c1.l2q[0].ready <= c1.l2q[p].ready;
  }

  lemma LoadInL2Advances(c: Core, c1: Core, c2: Core, c3: Core, c4: Core)
    requires Timed(c) && Phases(c, c1, c2, c3, c4)
    requires c.cpu.status == Waiting && Carries(c.l2q, LoadIndex(c.l2q), c.cpu.cur) && LoadIndex(c.l2q) < |c.l2q|
    ensures |c4.served| > |c.served| || Rank(c4.(cycle := c.cycle + 1)) < Rank(c)
  {
    hide Phases, Rank, LoadIndex, SlotWait, Carries, Timed, CpuTimed, NoLoad;
    var p, c' := LoadIndex(c.l2q), c4.(cycle := c.cycle + 1);
    TurnKeepsTimed(c, c1, c2, c3, c4);
    LoadInL2Stands(c, c1, c2, c3, c4);
    RankInL2(c);
    if |c4.served| == |c.served| {
      if NoLoad(c4.l2q) {
        MemoryRank(c');
      } else {
        RankInL2(c');
      }
    }
  }

  /** A load in the memory queue keeps its entry, or reaches the front and is served. */
  lemma LoadKeepsEntry(c: Core, c1: Core, c2: Core, c3: Core, c4: Core)
    requires Timed(c) && Kinds(c) && Phases(c, c1, c2, c3, c4)
    requires c.cpu.status == Waiting && NoLoad(c.l2q) && Carries(c.memq, LoadIndex(c.memq), c.cpu.cur)
    ensures |c4.served| > |c.served| ||
            (LoadIndex(c4.l2q) == |c4.l2q| && LoadIndex(c4.memq) < |c4.memq|
             && c4.memq[LoadIndex(c4.memq)] == c.memq[LoadIndex(c.memq)]
             && c.memq[LoadIndex(c.memq)].ready > c.cycle)
  {
    hide CpuMoves, L2Moves, MemMoves, WbMoves, PrefetchMoves, Piped, Spaced;
    OnlyPrefetches(c, c1, c2, c3, c4);
    LoadSeesPrefetches(c, c1, c2, c.cpu.cur);
    CpuMovesTimed(c, c1);
    L2MovesTimed(c1, c2);
    LoadSeesService(c2, c3, c4, c.cpu.cur);
  }

  lemma LoadSeesPrefetches(c: Core, c1: Core, c2: Core, r: Request)
    requires PrefetchMoves(c, c1) && L2Moves(c1, c2) && Kinds(c)
    requires NoLoad(c.l2q) && Carries(c.memq, LoadIndex(c.memq), r)
    ensures c2.cycle == c.cycle && c2.served == c.served && c2.wb == c.wb && NoLoad(c2.l2q)
    ensures Carries(c2.memq, LoadIndex(c2.memq), r) && LoadIndex(c2.memq) == LoadIndex(c.memq)
    ensures c2.memq[LoadIndex(c2.memq)] == c.memq[LoadIndex(c.memq)] && c2.memq[0].ready == c.memq[0].ready
  {
    assert c1.memq == c.memq && NoLoad(c1.l2q) && forall i :: 0 <= i < |c1.l2q| ==> c1.l2q[i].req.load by {
      if c1 != c {
        var q: Request :| !q.fromCPU && q.load && Joins(QUEUE_L2, c.l2q, q, c.cycle, c1.l2q);
        JoinsOther(QUEUE_L2, c.l2q, q, c.cycle, c1.l2q, r);
        JoinsMembers(QUEUE_L2, c.l2q, q, c.cycle, c1.l2q);
      }
    }
    hide PrefetchMoves;
    if FrontReady(c1.l2q, c1.cycle) {
      assert !CpuLoad(c1.l2q[0]) && c1.l2q[0].req.load;
      if c2.memq != c1.memq {
        JoinsOther(QUEUE_MEM, c1.memq, c1.l2q[0].req, c1.cycle, c2.memq, r);
      }
    }
  }

  lemma LoadSeesService(c2: Core, c3: Core, c4: Core, r: Request)
    requires MemMoves(c2, c3) && WbMoves(c3, c4) && NoLoad(c2.l2q) && Carries(c2.memq, LoadIndex(c2.memq), r)
    requires forall i :: 0 <= i < |c2.wb| ==> CpuStore(c2.wb[i])
    requires Spaced(c2.memq, c2.cycle, c2.cycle + 50)
    ensures |c4.served| > |c2.served| ||
            (NoLoad(c4.l2q) && Carries(c4.memq, LoadIndex(c4.memq), r)
             && c4.memq[LoadIndex(c4.memq)] == c2.memq[LoadIndex(c2.memq)]
             && c2.memq[LoadIndex(c2.memq)].ready > c2.cycle)
  {
    CarriesTail(c2.memq, r);
    if |c3.served| == |c2.served| {
      assert Carries(c3.memq, LoadIndex(c3.memq), r) && c3.memq[LoadIndex(c3.memq)] == c2.memq[LoadIndex(c2.memq)];
      assert FrontReady(c2.memq, c2.cycle) ==> LoadIndex(c2.memq) > 0;
      if c4.memq != c3.memq {
        assert CpuStore(c3.wb[0]);
        JoinsOther(QUEUE_MEM, c3.memq, c3.wb[0].req, c3.cycle, c4.memq, r);
      }
    }
  }

  lemma LoadInMemoryAdvances(c: Core, c1: Core, c2: Core, c3: Core, c4: Core)
    requires Timed(c) && Kinds(c) && Phases(c, c1, c2, c3, c4)
    requires c.cpu.status == Waiting && NoLoad(c.l2q) && Carries(c.memq, LoadIndex(c.memq), c.cpu.cur)
    ensures |c4.served| > |c.served| || Rank(c4.(cycle := c.cycle + 1)) < Rank(c)
  {
    hide Phases, Spaced, Piped, PrefetchMoves;
    LoadKeepsEntry(c, c1, c2, c3, c4);
    TurnKeepsTimed(c, c1, c2, c3, c4);
    OnlyPrefetches(c, c1, c2, c3, c4);
    PrefetchKeepsCpu(c, c1);
    assert LoadIndex(c.l2q) == |c.l2q|;
  }

  lemma PrefetchKeepsCpu(c: Core, c1: Core)
    requires PrefetchMoves(c, c1)
    ensures c1.cpu == c.cpu && c1.served == c.served
  {
  }

  /** What the processor phase does for a CPU that is not waiting. */
  lemma CpuTries(c: Core, c1: Core)
    requires CpuMoves(c, c1) && |c.wb| <= 10 && |c.l2q| <= 20
    ensures c.cpu.status == StalledL2 ==>
              c1.served == c.served && c1.wb == c.wb && if |c.l2q| == 20 then c1.cpu == c.cpu && c1.l2q == c.l2q else c1.cpu.status == Waiting
    ensures c.cpu.status == StalledWB ==>
              if |c.wb| == 10 then c1.cpu == c.cpu && c1.wb == c.wb && c1.served == c.served else |c1.served| > |c.served|
    ensures c.cpu.status == Idle ==>
              |c1.served| > |c.served| || (c1.served == c.served &&
              (c1.cpu.status in {Waiting, StalledL2, StalledWB} || (c1.cpu == c.cpu && c.cpu.readyAt > c.cycle)))
  {
    hide Joins;
  }

  lemma StalledLoadAdvances(c: Core, c1: Core, c2: Core, c3: Core, c4: Core)
    requires Timed(c) && Phases(c, c1, c2, c3, c4) && CpuMoves(c, c1) && c.cpu.status == StalledL2
    ensures |c4.served| > |c.served| || Rank(c4.(cycle := c.cycle + 1)) < Rank(c)
  {
    hide Phases, CpuMoves, Spaced, Piped, SlotWait, LoadIndex;
    TurnKeepsTimed(c, c1, c2, c3, c4);
    TurnDrains(c, c1, c2, c3, c4);
    RankBound(c4.(cycle := c.cycle + 1));
    CpuTries(c, c1);
  }

  /** A full write buffer: its front leaves as soon as it is ready and memory has a place, and
      it takes the next place that memory frees. */
  lemma FullBufferDrains(c1: Core, c2: Core, c3: Core, c4: Core)
    requires L2Moves(c1, c2) && MemMoves(c2, c3) && WbMoves(c3, c4)
    requires |c1.wb| == 10 && Piped(c1.wb, c1.cycle + 20) && Piped(c1.l2q, c1.cycle + 20)
    requires Spaced(c1.memq, c1.cycle, c1.cycle + 49) && |c1.memq| <= 10
    ensures |c4.wb| == 9 || (c4.wb == c1.wb &&
            (c1.wb[0].ready > c1.cycle ||
             (|c4.memq| == 10 && c1.cycle < c4.memq[0].ready <= c1.cycle + 50 &&
              (|c1.memq| == 10 ==> c4.memq[0].ready == c1.memq[0].ready))))
  {
    hide L2Moves, MemMoves, WbMoves, Piped;
    L2MovesTimed(c1, c2);
    MemMovesTimed(c2, c3);
    WbMovesTimed(c3, c4);
  }

  lemma StalledStoreAdvances(c: Core, c1: Core, c2: Core, c3: Core, c4: Core)
    requires Timed(c) && Phases(c, c1, c2, c3, c4) && c.cpu.status == StalledWB
    ensures |c4.served| > |c.served| || Rank(c4.(cycle := c.cycle + 1)) < Rank(c)
  {
    hide CpuMoves, L2Moves, MemMoves, WbMoves, Piped, LoadIndex, SlotWait;
    TurnKeepsTimed(c, c1, c2, c3, c4);
    CpuTries(c, c1);
    if |c.wb| == 10 {
      FullBufferDrains(c1, c2, c3, c4);
    }
  }

  lemma IdleAdvances(c: Core, c1: Core, c2: Core, c3: Core, c4: Core)
    requires Timed(c) && Phases(c, c1, c2, c3, c4) && CpuMoves(c, c1) && c.cpu.status == Idle
    ensures |c4.served| > |c.served| || Rank(c4.(cycle := c.cycle + 1)) < Rank(c)
  {
    hide Phases, CpuMoves, Spaced, Piped;
    TurnKeepsTimed(c, c1, c2, c3, c4);
    RankBound(c4.(cycle := c.cycle + 1));
    CpuTries(c, c1);
  }

  /** Every turn either completes a request or lowers the rank. */
  lemma TurnAdvances(trace: seq<TraceOp>, c: Core, c': Core)
    requires Safe(trace, c, c.cycle) && Timed(c) && !c.cpu.done && Turn(c, c')
    ensures Timed(c')
    ensures |c'.served| > |c.served| || Rank(c') < Rank(c)
  {
    hide CpuMoves, L2Moves, MemMoves, WbMoves, Timed, Rank, Logged, Conserved, Kinds, Carries, NoLoad, LoadIndex;
    var c1, c2, c3, c4 :|
      CpuMoves(c, c1) && L2Moves(c1, c2) && MemMoves(c2, c3) && WbMoves(c3, c4) && c' == c4.(cycle := c4.cycle + 1);
    TurnKeepsTimed(c, c1, c2, c3, c4);
    match c.cpu.status
    case Waiting =>
      if NoLoad(c.l2q) {
        CarriesExcludes(c.l2q, c.cpu.cur);
        LoadInMemoryAdvances(c, c1, c2, c3, c4);
      } else {
        CarriesInside(c.l2q, c.cpu.cur);
        LoadInL2Advances(c, c1, c2, c3, c4);
      }
    case StalledL2 => StalledLoadAdvances(c, c1, c2, c3, c4);
    case StalledWB => StalledStoreAdvances(c, c1, c2, c3, c4);
    case Idle => IdleAdvances(c, c1, c2, c3, c4);
  }

  lemma CarriesExcludes(q: seq<Entry>, r: Request)
    requires NoLoad(q)
    ensures !Carries(q, LoadIndex(q), r)
  {
  }

  lemma CarriesInside(q: seq<Entry>, r: Request)
    ensures Carries(q, LoadIndex(q), r) ==> LoadIndex(q) < |q|
  {
  }

  // ----- When the next request is ready -----

  /** The wait before the current request is the gap its line of the trace asks for. */
  ghost predicate Paced(trace: seq<TraceOp>, c: Core, now: nat)
  {
    !c.cpu.done && |c.served| < |trace| ==> c.cpu.readyAt <= now + trace[|c.served|].gap
  }

  lemma CompletePaced(trace: seq<TraceOp>, c: Core, cpu: Cpu, r: Request)
    requires InOrder(trace, cpu, c.served) && !cpu.done
    ensures Paced(trace, CompleteWith(c, cpu, r), c.cycle + 1)
  {
  }

  lemma StorePaced(trace: seq<TraceOp>, c: Core, cpu: Cpu, c1: Core)
    requires InOrder(trace, cpu, c.served) && !cpu.done && StoreMoves(c, cpu, c1) && Paced(trace, c.(cpu := cpu), c.cycle)
    ensures Paced(trace, c1, c.cycle + 1) && |c1.served| >= |c.served|
  {
    CompletePaced(trace, c, cpu, cpu.cur);
    hide InOrder, Joins;
  }

  lemma LoadPaced(trace: seq<TraceOp>, c: Core, cpu: Cpu, c1: Core)
    requires LoadMoves(c, cpu, c1) && Paced(trace, c.(cpu := cpu), c.cycle)
    ensures Paced(trace, c1, c.cycle + 1) && |c1.served| >= |c.served|
  {
    hide Joins;
  }

  lemma PrefetchPaced(trace: seq<TraceOp>, c: Core, c1: Core)
    requires PrefetchMoves(c, c1) && Paced(trace, c, c.cycle)
    ensures c1.cpu == c.cpu && c1.served == c.served && c1.cycle == c.cycle && Paced(trace, c1, c.cycle)
  {
    hide Joins;
  }

  lemma CpuPaced(trace: seq<TraceOp>, c: Core, c1: Core)
    requires Safe(trace, c, c.cycle) && !c.cpu.done && CpuMoves(c, c1) && Paced(trace, c, c.cycle)
    ensures Paced(trace, c1, c.cycle + 1) && |c1.served| >= |c.served|
  {
    var cpu := GetStatus(c.cpu, c.cycle);
    assert InOrder(trace, c.cpu, c.served);
    assert InOrder(trace, cpu, c.served) && InOrder(trace, Issue(cpu, c.cycle), c.served);
    hide Safe, InOrder, StoreMoves, LoadMoves, PrefetchMoves;
    match cpu.status
    case Ready =>
      var cur := Issue(cpu, c.cycle);
      if c1 == CompleteWith(c, cur, cur.cur) { CompletePaced(trace, c, cur, cur.cur); }
      else if cur.cur.load { LoadPaced(trace, c, cur, c1); }
      else { StorePaced(trace, c, cur, c1); }
    case Waiting => PrefetchPaced(trace, c, c1);
    case Idle => PrefetchPaced(trace, c, c1);
    case StalledWB =>
      var m: Core :| PrefetchMoves(c, m) && StoreMoves(m, cpu, c1);
      PrefetchPaced(trace, c, m);
      StorePaced(trace, m, cpu, c1);
    case StalledL2 => LoadPaced(trace, c, cpu, c1);
  }

  lemma L2Paced(trace: seq<TraceOp>, c1: Core, c2: Core, bound: nat)
    requires Safe(trace, c1, bound) && L2Moves(c1, c2) && Paced(trace, c1, c1.cycle + 1)
    ensures Paced(trace, c2, c1.cycle + 1) && |c2.served| >= |c1.served|
  {
    if FrontReady(c1.l2q, c1.cycle) {
      var rest := c1.(l2q := c1.l2q[1..]);
      L2HitKeepsSafe(trace, c1, rest, bound);
      hide Joins, Kinds, Conserved, Stamped;
      if c1.l2q[0].req.fromCPU {
        CompletePaced(trace, rest, rest.cpu, c1.l2q[0].req);
      }
    }
  }

  lemma MemPaced(trace: seq<TraceOp>, c2: Core, c3: Core, bound: nat)
    requires Safe(trace, c2, bound) && MemMoves(c2, c3) && Paced(trace, c2, c2.cycle + 1)
    ensures Paced(trace, c3, c2.cycle + 1) && |c3.served| >= |c2.served|
  {
    if FrontReady(c2.memq, c2.cycle) {
      MemKeepsLoads(c2, c3);
      hide Kinds, Conserved, Stamped;
      var rest := c2.(memq := c2.memq[1..]);
      if CpuLoad(c2.memq[0]) {
        CompletePaced(trace, rest, rest.cpu, c2.memq[0].req);
      }
    }
  }

  lemma WbPaced(trace: seq<TraceOp>, c3: Core, c4: Core)
    requires WbMoves(c3, c4)
    ensures c4.cpu == c3.cpu && c4.served == c3.served
  {
    hide Joins;
  }

  lemma TurnKeepsPaced(trace: seq<TraceOp>, c: Core, c': Core)
    requires Safe(trace, c, c.cycle) && !c.cpu.done && Turn(c, c') && Paced(trace, c, c.cycle)
    ensures Paced(trace, c', c'.cycle) && |c'.served| >= |c.served|
  {
    hide CpuMoves, L2Moves, MemMoves, WbMoves, Safe;
    var c1, c2, c3, c4 :|
      CpuMoves(c, c1) && L2Moves(c1, c2) && MemMoves(c2, c3) && WbMoves(c3, c4) && c' == c4.(cycle := c4.cycle + 1);
    CpuKeepsSafe(trace, c, c1);
    L2KeepsSafe(trace, c1, c2, c.cycle + 1);
    MemKeepsSafe(trace, c2, c3, c.cycle + 1);
    WbKeepsSafe(trace, c3, c4, c.cycle + 1);
    CpuPaced(trace, c, c1);
    L2Paced(trace, c1, c2, c.cycle + 1);
    MemPaced(trace, c2, c3, c.cycle + 1);
    WbPaced(trace, c3, c4);
  }

  // ----- Whole runs -----

  lemma {:induction false} RunIsTimed(trace: seq<TraceOp>, pfs: seq<Option<Request>>)
    ensures Timed(Run(trace, pfs).core)
  {
    if pfs != [] {
      hide Safe, Turn, Step, Timed, Rank;
      var before := pfs[..|pfs| - 1];
      var s := Run(trace, before);
      RunIsTimed(trace, before);
      RunIsSafe(trace, before);
      if !s.core.cpu.done {
        StepIsTurn(s, pfs[|pfs| - 1]);
        TurnAdvances(trace, s.core, Step(s, pfs[|pfs| - 1]).core);
      }
    } else {
      InitIsTimed(trace);
    }
  }

  lemma InitIsTimed(trace: seq<TraceOp>)
    ensures Timed(Run(trace, []).core)
  {
  }

  lemma {:induction false} RunIsPaced(trace: seq<TraceOp>, pfs: seq<Option<Request>>)
    ensures Paced(trace, Run(trace, pfs).core, Run(trace, pfs).core.cycle)
  {
    if pfs != [] {
      hide Safe, Turn, Step, Paced;
      var before := pfs[..|pfs| - 1];
      var s := Run(trace, before);
      RunIsPaced(trace, before);
      RunIsSafe(trace, before);
      if !s.core.cpu.done {
        StepIsTurn(s, pfs[|pfs| - 1]);
        TurnKeepsPaced(trace, s.core, Step(s, pfs[|pfs| - 1]).core);
      }
    }
  }

  /** One more turn of a run that is not over. */
  lemma RunAdvances(trace: seq<TraceOp>, pfs: seq<Option<Request>>, pf: Option<Request>)
    requires !Run(trace, pfs).core.cpu.done
    ensures var c, c' := Run(trace, pfs).core, Run(trace, pfs + [pf]).core;
            |c'.served| > |c.served| || (|c'.served| == |c.served| && Rank(c') < Rank(c))
    ensures Run(trace, pfs + [pf]).core.cycle == Run(trace, pfs).core.cycle + 1
  {
    hide Safe, Turn, Step, Timed, Rank;
    var s := Run(trace, pfs);
    RunIsSafe(trace, pfs);
    RunIsTimed(trace, pfs);
    assert (pfs + [pf])[..|pfs|] == pfs;
    assert Run(trace, pfs + [pf]) == Step(s, pf);
    StepIsTurn(s, pf);
    TurnAdvances(trace, s.core, Step(s, pf).core);
    TurnKeepsSafe(trace, s.core, Step(s, pf).core);
    RunIsSafe(trace, pfs + [pf]);
    RunIsPaced(trace, pfs);
    TurnKeepsPaced(trace, s.core, Step(s, pf).core);
  }

  /** Progress: the CPU's current request is completed after at most `Rank` turns, whatever
      the prefetcher does meanwhile. */
  lemma {:induction false} CompletesWithinRank(trace: seq<TraceOp>, pfs: seq<Option<Request>>, more: seq<Option<Request>>)
    requires !Run(trace, pfs).core.cpu.done && |more| >= Rank(Run(trace, pfs).core)
    ensures |Run(trace, pfs + more).core.served| > |Run(trace, pfs).core.served|
    decreases |more|
  {
    hide Run, Rank;
    if more == [] {
      RankIsPositive(trace, pfs);
      assert false;
    } else {
      var next := pfs + [more[0]];
      RunAdvances(trace, pfs, more[0]);
      assert pfs + more == next + more[1..];
      if |Run(trace, next).core.served| == |Run(trace, pfs).core.served| {
        StillRunning(trace, pfs, next);
        CompletesWithinRank(trace, next, more[1..]);
      } else {
        ServedOnlyGrows(trace, next, more[1..]);
      }
    }
  }

  lemma RankIsPositive(trace: seq<TraceOp>, pfs: seq<Option<Request>>)
    ensures Rank(Run(trace, pfs).core) > 0
  {
    RunIsSafe(trace, pfs);
    hide Run;
  }

  lemma StillRunning(trace: seq<TraceOp>, pfs: seq<Option<Request>>, next: seq<Option<Request>>)
    requires !Run(trace, pfs).core.cpu.done
    requires |Run(trace, next).core.served| == |Run(trace, pfs).core.served|
    ensures !Run(trace, next).core.cpu.done
  {
    ServedInTraceOrder(trace, pfs);
    ServedInTraceOrder(trace, next);
  }

  lemma {:induction false} ServedOnlyGrows(trace: seq<TraceOp>, pfs: seq<Option<Request>>, more: seq<Option<Request>>)
    ensures |Run(trace, pfs + more).core.served| >= |Run(trace, pfs).core.served|
  {
    hide Step, Rank;
    if more == [] {
      assert pfs + more == pfs;
    } else {
      var n := |more| - 1;
      ServedOnlyGrows(trace, pfs, more[..n]);
      assert (pfs + more)[..|pfs + more| - 1] == pfs + more[..n];
      if !Run(trace, pfs + more[..n]).core.cpu.done {
        assert pfs + more == (pfs + more[..n]) + [more[n]];
        RunAdvances(trace, pfs + more[..n], more[n]);
      }
    }
  }

  /** A request that has been issued completes within `REQUEST_BOUND` turns. */
  lemma IssuedRequestsComplete(trace: seq<TraceOp>, pfs: seq<Option<Request>>, more: seq<Option<Request>>)
    requires Run(trace, pfs).core.cpu.status in {Waiting, StalledL2, StalledWB} && |more| >= REQUEST_BOUND
    ensures |Run(trace, pfs + more).core.served| > |Run(trace, pfs).core.served|
  {
    RunIsTimed(trace, pfs);
    RunIsSafe(trace, pfs);
    RankBound(Run(trace, pfs).core);
    hide Run, Rank;
    CompletesWithinRank(trace, pfs, more);
  }

  /** The turns that suffice for a trace. */
  function Budget(trace: seq<TraceOp>): nat
  {
    if trace == [] then 0 else REQUEST_BOUND + 1 + trace[0].gap + Budget(trace[1..])
  }

  /** The turns that suffice for what is left of it. */
  function Work(trace: seq<TraceOp>, c: Core): nat
  {
    if c.cpu.done || |c.served| >= |trace| then 0 else Rank(c) + Budget(trace[|c.served| + 1..])
  }

  lemma {:induction false} BudgetSuffix(trace: seq<TraceOp>, i: nat, k: nat)
    requires i <= k < |trace|
    ensures Budget(trace[i..]) >= REQUEST_BOUND + 1 + trace[k].gap + Budget(trace[k + 1..])
    decreases k - i
  {
    assert trace[i..][1..] == trace[i + 1..];
    if i < k { BudgetSuffix(trace, i + 1, k); }
  }

  lemma WorkFalls(trace: seq<TraceOp>, pfs: seq<Option<Request>>, pf: Option<Request>)
    requires !Run(trace, pfs).core.cpu.done
    ensures Work(trace, Run(trace, pfs + [pf]).core) < Work(trace, Run(trace, pfs).core)
  {
    hide Run, Timed;
    var c, c' := Run(trace, pfs).core, Run(trace, pfs + [pf]).core;
    RunAdvances(trace, pfs, pf);
    RankIsPositive(trace, pfs);
    ServedInTraceOrder(trace, pfs);
    ServedInTraceOrder(trace, pfs + [pf]);
    RunIsPaced(trace, pfs + [pf]);
    RunIsTimed(trace, pfs + [pf]);
    RankBound(c');
    hide Matches, Rank;
    var k := |c'.served|;
    if !c'.cpu.done && k > |c.served| {
      BudgetSuffix(trace, |c.served| + 1, k);
      IdleRank(trace, c');
    }
  }

  lemma IdleRank(trace: seq<TraceOp>, c: Core)
    requires Timed(c) && Paced(trace, c, c.cycle) && !c.cpu.done && |c.served| < |trace|
    ensures Rank(c) <= REQUEST_BOUND + 1 + trace[|c.served|].gap
  {
    RankBound(c);
  }

  /** The main loop ends: after `Budget(trace)` turns every request of the trace has been
      served, whatever the prefetcher does. */
  lemma {:induction false} LoopEnds(trace: seq<TraceOp>, pfs: seq<Option<Request>>, more: seq<Option<Request>>)
    requires |more| >= Work(trace, Run(trace, pfs).core)
    ensures Run(trace, pfs + more).core.cpu.done
    decreases |more|
  {
    hide Run, Work;
    if Run(trace, pfs).core.cpu.done {
      DoneStays(trace, pfs, more);
    } else if more == [] {
      WorkIsPositive(trace, pfs);
      assert false;
    } else {
      WorkFalls(trace, pfs, more[0]);
      assert pfs + more == (pfs + [more[0]]) + more[1..];
      LoopEnds(trace, pfs + [more[0]], more[1..]);
    }
  }

  lemma WorkIsPositive(trace: seq<TraceOp>, pfs: seq<Option<Request>>)
    requires !Run(trace, pfs).core.cpu.done
    ensures Work(trace, Run(trace, pfs).core) > 0
  {
    RankIsPositive(trace, pfs);
    ServedInTraceOrder(trace, pfs);
  }

  lemma {:induction false} DoneStays(trace: seq<TraceOp>, pfs: seq<Option<Request>>, more: seq<Option<Request>>)
    requires Run(trace, pfs).core.cpu.done
    ensures Run(trace, pfs + more) == Run(trace, pfs)
  {
    if more == [] {
      assert pfs + more == pfs;
    } else {
      var n := |more| - 1;
      DoneStays(trace, pfs, more[..n]);
      assert (pfs + more)[..|pfs + more| - 1] == pfs + more[..n];
    }
  }

  /** From the start: the simulation of a trace takes at most `Budget(trace)` cycles. */
  lemma SimulationEnds(trace: seq<TraceOp>, pfs: seq<Option<Request>>)
    requires |pfs| >= Budget(trace)
    ensures Run(trace, pfs).core.cpu.done
    ensures |Run(trace, pfs).core.served| == |trace|
  {
    InitialWork(trace);
    assert [] + pfs == pfs;
    LoopEnds(trace, [], pfs);
    ServedInTraceOrder(trace, pfs);
  }

  lemma InitialWork(trace: seq<TraceOp>)
    ensures Work(trace, Run(trace, []).core) <= Budget(trace)
  {
  }
}
