/** What every turn of the simulator keeps: one load in flight at most, every request served
    once and in order, every store applied once, and the timing of the queues. */
module HierarchySafety {
  import opened Helpers
  import opened MemQueue
  import opened Hierarchy

  // ----- Loads in a queue -----

  predicate CpuLoad(e: Entry) { e.req.fromCPU && e.req.load }

  /** Position of the first load of the CPU, or the length of the queue. */
  function LoadIndex(q: seq<Entry>): (p: nat)
    ensures p <= |q|
    ensures p < |q| ==> CpuLoad(q[p])
    ensures forall j :: 0 <= j < p ==> !CpuLoad(q[j])
  {
    if q == [] || CpuLoad(q[0]) then 0 else 1 + LoadIndex(q[1..])
  }

  ghost predicate NoLoad(q: seq<Entry>)
  {
    forall j :: 0 <= j < |q| ==> !CpuLoad(q[j])
  }

  /** `r` is the one load of the CPU in the queue, at position `p`. */
  ghost predicate Carries(q: seq<Entry>, p: nat, r: Request)
  {
    p < |q| && q[p].req == r && CpuLoad(q[p]) && forall j :: 0 <= j < |q| && j != p ==> !CpuLoad(q[j])
  }

  /** Exactly one load of the CPU is in flight, and it is `r`. */
  ghost predicate InFlight(l2q: seq<Entry>, memq: seq<Entry>, r: Request)
  {
    || (Carries(l2q, LoadIndex(l2q), r) && NoLoad(memq))
    || (NoLoad(l2q) && Carries(memq, LoadIndex(memq), r))
  }

  // ----- Stores in a queue -----

  predicate CpuStore(e: Entry) { e.req.fromCPU && !e.req.load }

  function StoreOf(e: Entry): multiset<Request>
  {
    if CpuStore(e) then multiset{e.req} else multiset{}
  }

  function Stores(q: seq<Entry>): multiset<Request>
  {
    if q == [] then multiset{} else StoreOf(q[0]) + Stores(q[1..])
  }

  lemma {:induction false} StoresAppend(q: seq<Entry>, e: Entry)
    ensures Stores(q + [e]) == Stores(q) + StoreOf(e)
  {
    if q == [] {
      assert [e][1..] == [];
    } else {
      assert (q + [e])[1..] == q[1..] + [e];
      StoresAppend(q[1..], e);
    }
  }

  lemma {:induction false} StoresReplace(q: seq<Entry>, d: nat, e: Entry)
    requires d < |q| && !CpuStore(q[d])
    ensures Stores(q[d := e]) == Stores(q) + StoreOf(e)
  {
    if d == 0 {
      assert q[d := e][1..] == q[1..];
    } else {
      assert q[d := e][1..] == q[1..][d - 1 := e];
      StoresReplace(q[1..], d - 1, e);
    }
  }

  // ----- What offering a request does -----

  lemma JoinsMembers(k: Kind, q: seq<Entry>, r: Request, cycle: nat, q': seq<Entry>)
    requires Joins(k, q, r, cycle, q')
    ensures |q'| <= |q| + 1
    ensures forall i :: 0 <= i < |q'| ==> q'[i].req == r || (i < |q| && q'[i] == q[i])
  {
  }

  lemma JoinsLoad(k: Kind, q: seq<Entry>, r: Request, cycle: nat, q': seq<Entry>)
    requires Joins(k, q, r, cycle, q') && r.fromCPU && r.load && NoLoad(q)
    ensures Carries(q', LoadIndex(q'), r)
  {
    if e: Entry :| q' == q + [e] && e.req == r {
      assert Carries(q', |q|, r);
    } else {
      var d :| 0 <= d < |q| && !q[d].req.fromCPU && q' == q[d := q[d].(req := r)];
      assert Carries(q', d, r);
    }
  }

  lemma JoinsOther(k: Kind, q: seq<Entry>, r: Request, cycle: nat, q': seq<Entry>, x: Request)
    requires Joins(k, q, r, cycle, q') && !(r.fromCPU && r.load)
    ensures NoLoad(q) ==> NoLoad(q')
    ensures var p := LoadIndex(q);
            Carries(q, p, x) ==> Carries(q', p, x) && LoadIndex(q') == p && q'[p] == q[p]
  {
    var p := LoadIndex(q);
    if Carries(q, p, x) {
      assert q'[p] == q[p] && Carries(q', p, x) by {
        if e: Entry :| q' == q + [e] && e.req == r {
        } else if r.fromCPU {
          var d :| 0 <= d < |q| && !q[d].req.fromCPU && q' == q[d := q[d].(req := r)];
          assert d != p;
        }
      }
    }
  }

  lemma JoinsStores(k: Kind, q: seq<Entry>, r: Request, cycle: nat, q': seq<Entry>)
    requires Joins(k, q, r, cycle, q')
    ensures Stores(q') == Stores(q) + if r.fromCPU && !r.load then multiset{r} else multiset{}
  {
    if e: Entry :| q' == q + [e] && e.req == r {
      StoresAppend(q, e);
    } else if r.fromCPU {
      var d :| 0 <= d < |q| && !q[d].req.fromCPU && q' == q[d := q[d].(req := r)];
      StoresReplace(q, d, q[d].(req := r));
    }
  }

  // ----- The invariant -----

  predicate Matches(r: Request, op: TraceOp) { r.load == op.load && r.pc == op.pc && r.addr == op.addr }

  /** The requests completed so far are the first ones of the trace, in order; the CPU holds
      the next one and the reader stands behind it. */
  ghost predicate InOrder(trace: seq<TraceOp>, c: Cpu, served: seq<Request>)
  {
    && |served| <= |trace|
    && (forall i :: 0 <= i < |served| ==> served[i].fromCPU && Matches(served[i], trace[i]))
    && (if c.done then |served| == |trace| && c.trace == []
        else |served| < |trace| && Matches(c.cur, trace[|served|]) && c.trace == trace[|served| + 1..])
  }

  /** Completed requests carry strictly increasing issue times before `bound`, and a request
      under way a later one. */
  ghost predicate Stamped(c: Cpu, served: seq<Request>, bound: nat)
  {
    && (forall i, j :: 0 <= i < j < |served| ==> served[i].issuedAt < served[j].issuedAt)
    && (forall i :: 0 <= i < |served| ==> served[i].issuedAt < bound)
    && (c.status in {Waiting, StalledL2, StalledWB} ==>
          c.cur.issuedAt < bound && forall i :: 0 <= i < |served| ==> served[i].issuedAt < c.cur.issuedAt)
  }

  ghost predicate Kinds(s: Core)
  {
    && (forall i :: 0 <= i < |s.l2q| ==> s.l2q[i].req.load)
    && (forall i :: 0 <= i < |s.wb| ==> CpuStore(s.wb[i]))
    && (forall i :: 0 <= i < |s.memq| ==> s.memq[i].req.load || s.memq[i].req.fromCPU)
    && |s.l2q| <= QUEUE_L2.capacity && |s.memq| <= QUEUE_MEM.capacity && |s.wb| <= WRITE_BUFFER.capacity
  }

  /** The CPU waits exactly when one of its loads is in flight, and that load is its current
      request. */
  ghost predicate OneLoad(s: Core)
  {
    && s.cpu.cur.fromCPU
    && (s.cpu.status == Waiting ==> s.cpu.cur.load && InFlight(s.l2q, s.memq, s.cpu.cur))
    && (s.cpu.status != Waiting ==> NoLoad(s.l2q) && NoLoad(s.memq))
    && (s.cpu.status == StalledL2 ==> s.cpu.cur.load)
    && (s.cpu.status == StalledWB ==> !s.cpu.cur.load)
    && (s.cpu.done ==> s.cpu.status == Idle)
    && s.cpu.status != Ready
  }

  /** Every accepted store is in exactly one place. */
  ghost predicate Conserved(s: Core)
  {
    && multiset(s.accepted) == multiset(s.applied) + Stores(s.wb) + Stores(s.memq)
    && multiset(s.accepted) <= multiset(s.served)
  }

  ghost predicate Logged(trace: seq<TraceOp>, c: Cpu, served: seq<Request>, bound: nat)
  {
    InOrder(trace, c, served) && Stamped(c, served, bound)
  }

  ghost predicate Safe(trace: seq<TraceOp>, s: Core, bound: nat)
  {
    Kinds(s) && OneLoad(s) && Logged(trace, s.cpu, s.served, bound) && Conserved(s)
  }

  /** Completing the current request moves the CPU to the next line of the trace. */
  lemma CompleteKeepsLog(trace: seq<TraceOp>, c: Cpu, served: seq<Request>, cycle: nat, bound: nat)
    requires Logged(trace, c, served, bound) && !c.done && c.cur.fromCPU
    requires c.cur.issuedAt < bound && forall i :: 0 <= i < |served| ==> served[i].issuedAt < c.cur.issuedAt
    ensures Logged(trace, Complete(c, cycle), served + [c.cur], bound)
  {
  }

  // ----- The processor -----

  lemma StoreKeepsSafe(trace: seq<TraceOp>, s: Core, cpu: Cpu, s': Core, bound: nat)
    requires Safe(trace, s.(cpu := cpu.(status := StalledWB)), bound) && StoreMoves(s, cpu, s')
    ensures Safe(trace, s', bound) && s'.cycle == s.cycle
  {
    if |s.wb| != 10 {
      CompleteKeepsLog(trace, cpu.(status := StalledWB), s.served, s.cycle, bound);
      StoreKeepsConserved(s, cpu, s');
      StoreKeepsLoads(s, cpu, s');
      hide Kinds, OneLoad, Conserved, InOrder, Stamped, Joins;
    }
  }

  lemma StoreKeepsLoads(s: Core, cpu: Cpu, s': Core)
    requires Kinds(s) && |s.wb| != 10 && OneLoad(s.(cpu := cpu.(status := StalledWB))) && StoreMoves(s, cpu, s')
    ensures Kinds(s') && OneLoad(s')
  {
  }

  lemma StoreKeepsConserved(s: Core, cpu: Cpu, s': Core)
    requires Conserved(s) && |s.wb| != 10 && cpu.cur.fromCPU && !cpu.cur.load && StoreMoves(s, cpu, s')
    ensures Conserved(s')
  {
    JoinsStores(WRITE_BUFFER, s.wb, cpu.cur, s.cycle, s'.wb);
  }

  lemma LoadKeepsSafe(trace: seq<TraceOp>, s: Core, cpu: Cpu, s': Core, bound: nat)
    requires Safe(trace, s.(cpu := cpu.(status := StalledL2)), bound) && LoadMoves(s, cpu, s')
    ensures Safe(trace, s', bound) && s'.cycle == s.cycle
  {
    if |s.l2q| != 20 {
      JoinsLoad(QUEUE_L2, s.l2q, cpu.cur, s.cycle, s'.l2q);
    }
  }

  lemma PrefetchKeepsSafe(trace: seq<TraceOp>, s: Core, s': Core, bound: nat)
    requires Safe(trace, s, bound) && PrefetchMoves(s, s')
    ensures Safe(trace, s', bound) && s'.cycle == s.cycle && s'.cpu == s.cpu
  {
    if s' != s {
      var r: Request :| !r.fromCPU && r.load && Joins(QUEUE_L2, s.l2q, r, s.cycle, s'.l2q);
      JoinsOther(QUEUE_L2, s.l2q, r, s.cycle, s'.l2q, s.cpu.cur);
    }
  }

  lemma HitKeepsSafe(trace: seq<TraceOp>, s: Core, c: Cpu, bound: nat)
    requires Kinds(s) && Conserved(s) && NoLoad(s.l2q) && NoLoad(s.memq)
    requires Logged(trace, c, s.served, bound) && c.status == Ready && !c.done && c.cur.fromCPU
    requires c.cur.issuedAt < bound && forall i :: 0 <= i < |s.served| ==> s.served[i].issuedAt < c.cur.issuedAt
    ensures Safe(trace, CompleteWith(s, c, c.cur), bound)
  {
    CompleteKeepsLog(trace, c, s.served, s.cycle, bound);
    hide InOrder, Stamped, Kinds, Stores, NoLoad;
    KindsOnly(s, CompleteWith(s, c, c.cur));
  }

  /** The kinds of the queues depend on the queues alone. */
  lemma KindsOnly(s: Core, s': Core)
    requires Kinds(s) && s'.l2q == s.l2q && s'.wb == s.wb && s'.memq == s.memq
    ensures Kinds(s')
  {
  }

  /** Issuing a request is safe as a stall would be. */
  lemma BeforeMoves(trace: seq<TraceOp>, s: Core, c: Cpu, bound: nat)
    requires Kinds(s) && Conserved(s) && NoLoad(s.l2q) && NoLoad(s.memq)
    requires Logged(trace, c, s.served, bound) && c.status == Ready && !c.done && c.cur.fromCPU
    requires c.cur.issuedAt < bound && forall i :: 0 <= i < |s.served| ==> s.served[i].issuedAt < c.cur.issuedAt
    ensures Safe(trace, s.(cpu := c.(status := if c.cur.load then StalledL2 else StalledWB)), bound)
  {
    var s' := s.(cpu := c.(status := if c.cur.load then StalledL2 else StalledWB));
    KindsOnly(s, s');
    hide Kinds, Stores, NoLoad;
  }

  lemma IssueKeepsSafe(trace: seq<TraceOp>, s: Core, c: Cpu, s': Core, bound: nat)
    requires Kinds(s) && Conserved(s) && NoLoad(s.l2q) && NoLoad(s.memq)
    requires Logged(trace, c, s.served, bound) && c.status == Ready && !c.done && c.cur.fromCPU
    requires c.cur.issuedAt < bound && forall i :: 0 <= i < |s.served| ==> s.served[i].issuedAt < c.cur.issuedAt
    requires s' == CompleteWith(s, c, c.cur) || if c.cur.load then LoadMoves(s, c, s') else StoreMoves(s, c, s')
    ensures Safe(trace, s', bound) && s'.cycle == s.cycle
  {
    hide Kinds, Logged, Conserved, NoLoad;
    if s' == CompleteWith(s, c, c.cur) {
      HitKeepsSafe(trace, s, c, bound);
      hide Safe;
    } else {
      hide Safe;
      BeforeMoves(trace, s, c, bound);
      if c.cur.load { LoadKeepsSafe(trace, s, c, s', bound); } else { StoreKeepsSafe(trace, s, c, s', bound); }
      hide LoadMoves, StoreMoves;
    }
  }

  lemma LaterBound(trace: seq<TraceOp>, s: Core, bound: nat)
    requires Safe(trace, s, bound)
    ensures Safe(trace, s, bound + 1)
  {
    hide Kinds, OneLoad, Conserved, InOrder;
  }

  lemma ReadyToIssue(trace: seq<TraceOp>, s: Core, c: Cpu)
    requires Safe(trace, s, s.cycle) && !s.cpu.done
    requires GetStatus(s.cpu, s.cycle).status == Ready && c == Issue(GetStatus(s.cpu, s.cycle), s.cycle)
    ensures NoLoad(s.l2q) && NoLoad(s.memq) && Logged(trace, c, s.served, s.cycle + 1)
    ensures c.status == Ready && !c.done && c.cur.fromCPU && c.cur.issuedAt == s.cycle
    ensures forall i :: 0 <= i < |s.served| ==> s.served[i].issuedAt < s.cycle
  {
    hide Kinds, Conserved, InFlight;
  }

  lemma CpuIssueKeepsSafe(trace: seq<TraceOp>, s: Core, s': Core)
    requires Safe(trace, s, s.cycle) && !s.cpu.done && CpuMoves(s, s')
    requires GetStatus(s.cpu, s.cycle).status == Ready
    ensures Safe(trace, s', s.cycle + 1) && s'.cycle == s.cycle
  {
    var c := Issue(GetStatus(s.cpu, s.cycle), s.cycle);
    ReadyToIssue(trace, s, c);
    hide OneLoad, Logged, Kinds, Conserved, StoreMoves, LoadMoves;
    IssueKeepsSafe(trace, s, c, s', s.cycle + 1);
  }

  lemma CpuKeepsSafe(trace: seq<TraceOp>, s: Core, s': Core)
    requires Safe(trace, s, s.cycle) && !s.cpu.done && CpuMoves(s, s')
    ensures Safe(trace, s', s.cycle + 1) && s'.cycle == s.cycle
  {
    hide Safe, StoreMoves, LoadMoves, PrefetchMoves;
    LaterBound(trace, s, s.cycle);
    var cpu := GetStatus(s.cpu, s.cycle);
    match cpu.status
    case Ready => CpuIssueKeepsSafe(trace, s, s');
    case Waiting => PrefetchKeepsSafe(trace, s, s', s.cycle + 1);
    case Idle => PrefetchKeepsSafe(trace, s, s', s.cycle + 1);
    case StalledWB =>
      var m: Core :| PrefetchMoves(s, m) && StoreMoves(m, cpu, s');
      PrefetchKeepsSafe(trace, s, m, s.cycle + 1);
      assert m == m.(cpu := cpu.(status := StalledWB));
      StoreKeepsSafe(trace, m, cpu, s', s.cycle + 1);
    case StalledL2 =>
      assert s == s.(cpu := cpu.(status := StalledL2));
      LoadKeepsSafe(trace, s, cpu, s', s.cycle + 1);
  }

  // ----- The queues -----

  /** The head of a queue that carries `r` is `r` itself or no load of the CPU. */
  lemma CarriesTail(q: seq<Entry>, r: Request)
    requires q != []
    ensures NoLoad(q) ==> NoLoad(q[1..])
    ensures Carries(q, LoadIndex(q), r) && CpuLoad(q[0]) ==> q[0].req == r && NoLoad(q[1..])
    ensures Carries(q, LoadIndex(q), r) && !CpuLoad(q[0]) ==>
              LoadIndex(q) > 0 && Carries(q[1..], LoadIndex(q) - 1, r) && LoadIndex(q[1..]) == LoadIndex(q) - 1
  {
    var p := LoadIndex(q);
    if Carries(q, p, r) && !CpuLoad(q[0]) {
      assert Carries(q[1..], p - 1, r);
    }
  }

  /** A prefetch leaves the L2 queue. */
  lemma PrefetchLeaves(trace: seq<TraceOp>, s: Core, rest: Core, bound: nat)
    requires Safe(trace, s, bound) && s.l2q != [] && rest == s.(l2q := s.l2q[1..]) && !s.l2q[0].req.fromCPU
    ensures Safe(trace, rest, bound)
  {
    CarriesTail(s.l2q, s.cpu.cur);
    hide Logged, Conserved;
  }

  /** The load of the CPU leaves it and is served. */
  lemma LoadLeaves(trace: seq<TraceOp>, s: Core, rest: Core, bound: nat)
    requires Safe(trace, s, bound) && s.l2q != [] && rest == s.(l2q := s.l2q[1..]) && s.l2q[0].req.fromCPU
    ensures Safe(trace, CompleteWith(rest, rest.cpu, s.l2q[0].req), bound)
    ensures s.cpu.status == Waiting && s.l2q[0].req == s.cpu.cur && NoLoad(rest.l2q) && NoLoad(s.memq)
  {
    CarriesTail(s.l2q, s.cpu.cur);
    assert CpuLoad(s.l2q[0]);
    CompleteKeepsLog(trace, s.cpu, s.served, s.cycle, bound);
    hide InOrder, Stamped, Stores;
  }

  /** A hit at the front of the L2 queue: a load of the CPU is the one it waits for. */
  lemma L2HitKeepsSafe(trace: seq<TraceOp>, s: Core, rest: Core, bound: nat)
    requires Safe(trace, s, bound) && s.l2q != [] && rest == s.(l2q := s.l2q[1..])
    ensures !s.l2q[0].req.fromCPU ==> Safe(trace, rest, bound)
    ensures s.l2q[0].req.fromCPU ==> Safe(trace, CompleteWith(rest, rest.cpu, s.l2q[0].req), bound)
    ensures s.l2q[0].req.fromCPU ==> s.cpu.status == Waiting && s.l2q[0].req == s.cpu.cur && NoLoad(rest.l2q) && NoLoad(s.memq)
  {
    hide Safe;
    if s.l2q[0].req.fromCPU { LoadLeaves(trace, s, rest, bound); } else { PrefetchLeaves(trace, s, rest, bound); }
  }

  /** It misses and moves on to memory. */
  lemma L2MissKeepsSafe(trace: seq<TraceOp>, s: Core, memq': seq<Entry>, bound: nat)
    requires Safe(trace, s, bound) && s.l2q != [] && |s.memq| != 10
    requires Joins(QUEUE_MEM, s.memq, s.l2q[0].req, s.cycle, memq')
    ensures Safe(trace, s.(l2q := s.l2q[1..], memq := memq'), bound)
  {
    hide InOrder, Stores, Joins, Logged;
    var req := s.l2q[0].req;
    L2HitKeepsSafe(trace, s, s.(l2q := s.l2q[1..]), bound);
    CarriesTail(s.l2q, s.cpu.cur);
    JoinsMembers(QUEUE_MEM, s.memq, req, s.cycle, memq');
    JoinsStores(QUEUE_MEM, s.memq, req, s.cycle, memq');
    if req.fromCPU {
      JoinsLoad(QUEUE_MEM, s.memq, req, s.cycle, memq');
    } else {
      JoinsOther(QUEUE_MEM, s.memq, req, s.cycle, memq', s.cpu.cur);
    }
  }

  lemma L2KeepsSafe(trace: seq<TraceOp>, s: Core, s': Core, bound: nat)
    requires Safe(trace, s, bound) && L2Moves(s, s')
    ensures Safe(trace, s', bound) && s'.cycle == s.cycle
  {
    if FrontReady(s.l2q, s.cycle) && s' != s {
      var req, rest := s.l2q[0].req, s.(l2q := s.l2q[1..]);
      if s' == if req.fromCPU then CompleteWith(rest, rest.cpu, req) else rest {
        L2HitKeepsSafe(trace, s, rest, bound);
      } else {
        L2MissKeepsSafe(trace, s, s'.memq, bound);
      }
    }
  }

  /** The front of the memory queue is served: the load the CPU waits for, a store, or a
      prefetch. */
  lemma MemKeepsSafe(trace: seq<TraceOp>, s: Core, s': Core, bound: nat)
    requires Safe(trace, s, bound) && MemMoves(s, s')
    ensures Safe(trace, s', bound) && s'.cycle == s.cycle
  {
    MemKeepsConserved(s, s');
    if FrontReady(s.memq, s.cycle) {
      MemKeepsLoads(s, s');
      if CpuLoad(s.memq[0]) {
        CompleteKeepsLog(trace, s.cpu, s.served, s.cycle, bound);
      }
      hide Kinds, OneLoad, InOrder, Stamped, Conserved;
    }
  }

  lemma MemKeepsLoads(s: Core, s': Core)
    requires Kinds(s) && OneLoad(s) && MemMoves(s, s') && FrontReady(s.memq, s.cycle)
    ensures Kinds(s') && OneLoad(s')
    ensures CpuLoad(s.memq[0]) ==> s.cpu.status == Waiting && s.memq[0].req == s.cpu.cur
  {
    CarriesTail(s.memq, s.cpu.cur);
    assert CpuLoad(s.memq[0]) ==> Carries(s.memq, LoadIndex(s.memq), s.cpu.cur);
  }

  lemma MemKeepsConserved(s: Core, s': Core)
    requires Conserved(s) && Kinds(s) && MemMoves(s, s')
    ensures Conserved(s')
  {
  }

  lemma WbKeepsSafe(trace: seq<TraceOp>, s: Core, s': Core, bound: nat)
    requires Safe(trace, s, bound) && WbMoves(s, s')
    ensures Safe(trace, s', bound) && s'.cycle == s.cycle
  {
    WbKeepsKinds(s, s');
    WbKeepsConserved(s, s');
    hide Logged, Stores, Joins, Kinds, Conserved;
    if FrontReady(s.wb, s.cycle) && s' != s {
      if s'.memq != s.memq {
        JoinsOther(QUEUE_MEM, s.memq, s.wb[0].req, s.cycle, s'.memq, s.cpu.cur);
      }
    }
  }

  lemma WbKeepsKinds(s: Core, s': Core)
    requires Kinds(s) && WbMoves(s, s')
    ensures Kinds(s') && (FrontReady(s.wb, s.cycle) ==> CpuStore(s.wb[0]))
  {
    if FrontReady(s.wb, s.cycle) {
      assert CpuStore(s.wb[0]);
    }
  }

  lemma WbKeepsConserved(s: Core, s': Core)
    requires Conserved(s) && Kinds(s) && WbMoves(s, s')
    ensures Conserved(s')
  {
    if FrontReady(s.wb, s.cycle) && s' != s {
      assert CpuStore(s.wb[0]);
      if s'.memq != s.memq {
        JoinsStores(QUEUE_MEM, s.memq, s.wb[0].req, s.cycle, s'.memq);
      }
    }
  }

  lemma CycleIsFree(c: Core, c': Core)
    requires c' == c.(cycle := c'.cycle) && Kinds(c) && OneLoad(c)
    ensures Kinds(c') && OneLoad(c')
  {
  }

  /** Every turn keeps the invariant, whatever the caches answer and the prefetcher asks. */
  lemma TurnKeepsSafe(trace: seq<TraceOp>, s: Core, s': Core)
    requires Safe(trace, s, s.cycle) && !s.cpu.done && Turn(s, s')
    ensures Safe(trace, s', s'.cycle) && s'.cycle == s.cycle + 1
  {
    hide Kinds, OneLoad, Logged, Stores, CpuMoves, L2Moves, MemMoves, WbMoves;
    var c1, c2, c3, c4 :|
      CpuMoves(s, c1) && L2Moves(c1, c2) && MemMoves(c2, c3) && WbMoves(c3, c4) && s' == c4.(cycle := c4.cycle + 1);
    CpuKeepsSafe(trace, s, c1);
    L2KeepsSafe(trace, c1, c2, s.cycle + 1);
    MemKeepsSafe(trace, c2, c3, s.cycle + 1);
    WbKeepsSafe(trace, c3, c4, s.cycle + 1);
    CycleIsFree(c4, s');
  }

  // ----- Whole runs -----

  /** Every state of every run is safe: for any trace, any prefetcher and any cache contents. */
  lemma {:induction false} RunIsSafe(trace: seq<TraceOp>, pfs: seq<Option<Request>>)
    ensures Safe(trace, Run(trace, pfs).core, Run(trace, pfs).core.cycle)
  {
    if pfs != [] {
      var before := pfs[..|pfs| - 1];
      RunIsSafe(trace, before);
      hide Safe, Turn, Step;
      var s := Run(trace, before);
      if !s.core.cpu.done {
        var pf := pfs[|pfs| - 1];
        StepIsTurn(s, pf);
        TurnKeepsSafe(trace, s.core, Step(s, pf).core);
      }
    }
  }

  /** The CPU waits exactly when one of its loads is in flight, and then exactly one is: its
      current request. */
  lemma WaitingMeansOneLoad(trace: seq<TraceOp>, pfs: seq<Option<Request>>)
    ensures var c := Run(trace, pfs).core;
            if c.cpu.status == Waiting then InFlight(c.l2q, c.memq, c.cpu.cur) && c.cpu.cur.load
            else NoLoad(c.l2q) && NoLoad(c.memq)
  {
    RunIsSafe(trace, pfs);
    hide Run;
  }

  /** Every request of the trace is completed once and in order: at any time the completed
      requests are the first lines of the trace, and all of them once the CPU is done. */
  lemma ServedInTraceOrder(trace: seq<TraceOp>, pfs: seq<Option<Request>>)
    ensures var c := Run(trace, pfs).core;
            && |c.served| <= |trace|
            && (forall i :: 0 <= i < |c.served| ==> Matches(c.served[i], trace[i]))
            && (c.cpu.done <==> |c.served| == |trace|)
  {
    RunIsSafe(trace, pfs);
    hide Run;
  }

  lemma {:induction false} StampsAreUnique(served: seq<Request>, r: Request)
    requires forall i, j :: 0 <= i < j < |served| ==> served[i].issuedAt < served[j].issuedAt
    ensures multiset(served)[r] <= 1
  {
    if served != [] {
      var n := |served| - 1;
      var before := served[..n];
      assert served == before + [served[n]];
      StampsAreUnique(before, r);
      assert forall i :: 0 <= i < n ==> before[i] != served[n];
    }
  }

  /** Every store the write buffer accepted is, exactly once, applied to L2, still in the
      write buffer or on its way through memory; and nothing else is ever applied. */
  lemma StoresAppliedOnce(trace: seq<TraceOp>, pfs: seq<Option<Request>>, r: Request)
    ensures var c := Run(trace, pfs).core;
            && (r in c.accepted ==> multiset(c.applied)[r] + Stores(c.wb)[r] + Stores(c.memq)[r] == 1)
            && (r !in c.accepted ==> r !in c.applied && r !in Stores(c.wb) && r !in Stores(c.memq))
  {
    RunIsSafe(trace, pfs);
    hide Run, Stores, Kinds, OneLoad, InOrder;
    var c := Run(trace, pfs).core;
    StampsAreUnique(c.served, r);
    assert multiset(c.accepted)[r] <= multiset(c.served)[r];
  }
}
