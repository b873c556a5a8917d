/** The simulator as objects updated in place: its main loop computes the runs of `Hierarchy`
    and ends on every trace. */
module Simulator {
  import opened Helpers
  import opened LruCache
  import opened CacheArrays
  import opened MemQueue
  import opened Hierarchy
  import HierarchySafety
  import HierarchyProgress

  /** The CPU with its trace file and the place it has read up to. */
  class Processor {
    const lines: seq<TraceOp>
    var next: nat
    var status: Status
    var cur: Request
    var readyAt: nat
    var done: bool

    /** The CPU knows what is left of the file. */
    function Abs(): Cpu
      reads this
    {
      Cpu(status, cur, readyAt, done, if next <= |lines| then lines[next..] else [])
    }

    constructor (ops: seq<TraceOp>)
      ensures Abs() == InitCore(ops).cpu
    {
      lines, next := ops, 0;
      status := Idle;
      done := false;
      cur := Request(0, 0, false, true, 0);
      readyAt := 0;
      new;
      ReadNextRequest(0);
    }

    method ReadNextRequest(cycle: nat)
      modifies this
      ensures Abs() == ReadNext(old(Abs()), cycle)
    {
      if next < |lines| {
        var op := lines[next];
        cur := cur.(addr := op.addr, load := op.load, pc := op.pc);
        readyAt := cycle + op.gap + 1;
        next := next + 1;
      } else {
        done := true;
      }
    }

    method CompleteRequest(cycle: nat)
      modifies this
      ensures Abs() == Complete(old(Abs()), cycle)
    {
      status := Idle;
      ReadNextRequest(cycle);
    }

    method IssueRequest(cycle: nat) returns (req: Request)
      modifies this
      ensures Abs() == Issue(old(Abs()), cycle) && req == Abs().cur
    {
      cur := cur.(issuedAt := cycle);
      req := cur;
    }

    method CheckStatus(cycle: nat) returns (s: Status)
      modifies this
      ensures Abs() == GetStatus(old(Abs()), cycle) && s == Abs().status
    {
      if status == Idle && cycle >= readyAt {
        status := Ready;
      }
      s := status;
    }

    method SetStatus(s: Status)
      modifies this
      ensures Abs() == old(Abs()).(status := s)
    {
      status := s;
    }
  }

  class Machine {
    var cycle: nat
    const cpu: Processor
    const dCache: Cache
    const l2Cache: Cache
    const writeBuffer: Queue
    const queueL2: Queue
    const queueMem: Queue
    ghost var served: seq<Request>
    ghost var accepted: seq<Request>
    ghost var applied: seq<Request>

    ghost function Objects(): set<object>
    {
      {this, cpu, dCache, dCache.rows, l2Cache, l2Cache.rows, writeBuffer, writeBuffer.cells,
       queueL2, queueL2.cells, queueMem, queueMem.cells}
    }

    ghost predicate Valid()
      reads Objects()
    {
      && dCache != l2Cache && dCache.rows != l2Cache.rows
      && writeBuffer != queueL2 && writeBuffer != queueMem && queueL2 != queueMem
      && writeBuffer.cells != queueL2.cells && writeBuffer.cells != queueMem.cells && queueL2.cells != queueMem.cells
      && dCache.Valid() && dCache.g == L1 && l2Cache.Valid() && l2Cache.g == L2
      && writeBuffer.Valid() && writeBuffer.kind == WRITE_BUFFER
      && queueL2.Valid() && queueL2.kind == QUEUE_L2
      && queueMem.Valid() && queueMem.kind == QUEUE_MEM
    }

    ghost function TheCore(): Core
      requires Valid()
      reads Objects()
    {
      Core(cycle, cpu.Abs(), queueL2.Entries(), queueMem.Entries(), writeBuffer.Entries(), served, accepted, applied)
    }

    ghost function TheState(): (s: State)
      requires Valid()
      reads Objects()
      ensures s.Shaped()
    {
      State(TheCore(), dCache.Contents(), l2Cache.Contents())
    }

    constructor (trace: seq<TraceOp>)
      ensures Valid() && fresh(Objects()) && TheState() == Init(trace)
    {
      hide Empty, Cache.Valid, Cache.Contents, Queue.Valid, Queue.Entries, ReadNext, Pow2;
      cycle := 1;
      cpu := new Processor(trace);
      dCache := new Cache(L1);
      l2Cache := new Cache(L2);
      writeBuffer := new Queue(WRITE_BUFFER);
      queueL2 := new Queue(QUEUE_L2);
      queueMem := new Queue(QUEUE_MEM);
      served, accepted, applied := [], [], [];
    }

    // ----- Single operations, by their effect on the state -----

    method CheckL1(req: Request) returns (isHit: bool)
      requires Valid()
      ensures Valid() && TheState() == old(TheState())
      ensures isHit == CheckIn(L1, TheState().dcache, req.addr)
    {
      isHit := dCache.Check(req.addr, req.load);
    }

    method CheckL2(req: Request) returns (isHit: bool)
      requires Valid()
      ensures Valid() && TheState() == old(TheState())
      ensures isHit == CheckIn(L2, TheState().l2cache, req.addr)
    {
      isHit := l2Cache.Check(req.addr, req.load);
    }

    method AccessL1(req: Request)
      requires Valid()
      modifies Objects()
      ensures Valid() && TheState() == old(TheState()).(dcache := AccessIn(L1, old(TheState()).dcache, Access(req.addr, req.load)))
    {
      hide AccessIn, Cache.Valid, Cache.Contents, Queue.Valid, Queue.Entries;
      var _ := dCache.Access(req.addr, req.load);
    }

    method AccessL2(req: Request)
      requires Valid()
      modifies Objects()
      ensures Valid() && TheState() == old(TheState()).(l2cache := AccessIn(L2, old(TheState()).l2cache, Access(req.addr, req.load)))
    {
      hide AccessIn, Cache.Valid, Cache.Contents, Queue.Valid, Queue.Entries;
      var _ := l2Cache.Access(req.addr, req.load);
    }

    /** Tells the CPU that `req` has been served. */
    method Finish(req: Request)
      requires Valid()
      modifies Objects()
      ensures Valid()
      ensures var s := old(TheState()); TheState() == s.(core := CompleteWith(s.core, s.core.cpu, req))
    {
      hide Cache.Valid, Cache.Contents, Queue.Valid, Queue.Entries, ReadNext;
      cpu.CompleteRequest(cycle);
      served := served + [req];
    }

    method Apply(req: Request)
      requires Valid()
      modifies Objects()
      ensures Valid()
      ensures var s := old(TheState()); TheState() == s.(core := s.core.(applied := s.core.applied + [req]))
    {
      hide Cache.Valid, Cache.Contents, Queue.Valid, Queue.Entries;
      applied := applied + [req];
    }

    method FrontL2() returns (ready: bool, req: Request)
      requires Valid()
      ensures Valid() && TheState() == old(TheState())
      ensures var c := TheState().core; ready == FrontReady(c.l2q, c.cycle) && (ready ==> req == c.l2q[0].req)
    {
      req := Request(0, 0, false, false, 0);
      ready := queueL2.IsFrontReady(cycle);
      if ready {
        req := queueL2.GetFront();
      }
    }

    method FrontMem() returns (ready: bool, req: Request)
      requires Valid()
      ensures Valid() && TheState() == old(TheState())
      ensures var c := TheState().core; ready == FrontReady(c.memq, c.cycle) && (ready ==> req == c.memq[0].req)
    {
      req := Request(0, 0, false, false, 0);
      ready := queueMem.IsFrontReady(cycle);
      if ready {
        req := queueMem.GetFront();
      }
    }

    method FrontWb() returns (ready: bool, req: Request)
      requires Valid()
      ensures Valid() && TheState() == old(TheState())
      ensures var c := TheState().core; ready == FrontReady(c.wb, c.cycle) && (ready ==> req == c.wb[0].req)
    {
      req := Request(0, 0, false, false, 0);
      ready := writeBuffer.IsFrontReady(cycle);
      if ready {
        req := writeBuffer.GetFront();
      }
    }

    method PopL2()
      requires Valid() && TheState().core.l2q != []
      modifies Objects()
      ensures Valid()
      ensures var s := old(TheState()); TheState() == s.(core := s.core.(l2q := s.core.l2q[1..]))
    {
      hide Cache.Valid, Cache.Contents, Queue.Valid, Queue.Entries;
      var _ := queueL2.Remove();
    }

    method PopMem()
      requires Valid() && TheState().core.memq != []
      modifies Objects()
      ensures Valid()
      ensures var s := old(TheState()); TheState() == s.(core := s.core.(memq := s.core.memq[1..]))
    {
      hide Cache.Valid, Cache.Contents, Queue.Valid, Queue.Entries;
      var _ := queueMem.Remove();
    }

    method PopWb()
      requires Valid() && TheState().core.wb != []
      modifies Objects()
      ensures Valid()
      ensures var s := old(TheState()); TheState() == s.(core := s.core.(wb := s.core.wb[1..]))
    {
      hide Cache.Valid, Cache.Contents, Queue.Valid, Queue.Entries;
      var _ := writeBuffer.Remove();
    }

    method OfferMem(req: Request) returns (ok: bool)
      requires Valid()
      modifies Objects()
      ensures Valid()
      ensures var s := old(TheState());
              && ok == (|s.core.memq| != QUEUE_MEM.capacity)
              && TheState() == if ok then s.(core := s.core.(memq := Offer(QUEUE_MEM, s.core.memq, req, s.core.cycle))) else s
    {
      hide Offer, Cache.Valid, Cache.Contents, Queue.Valid, Queue.Entries;
      ok := queueMem.Add(req, cycle);
    }

    /** Tries to put the current load of the CPU into the L2 queue. */
    method SendLoad()
      requires Valid()
      modifies Objects()
      ensures Valid()
      ensures var s := old(TheState()); TheState() == s.(core := Load(s.core, s.core.cpu))
    {
      hide Offer, Cache.Valid, Cache.Contents, Queue.Valid, Queue.Entries;
      var ok := queueL2.Add(cpu.cur, cycle);
      if ok {
        cpu.SetStatus(Waiting);
      } else {
        cpu.SetStatus(StalledL2);
      }
    }

    /** Tries to put the current store of the CPU into the write buffer. */
    method SendStore()
      requires Valid()
      modifies Objects()
      ensures Valid()
      ensures var s := old(TheState()); TheState() == s.(core := Store(s.core, s.core.cpu))
    {
      hide Offer, Cache.Valid, Cache.Contents, Queue.Valid, Queue.Entries, ReadNext;
      var req := cpu.cur;
      var ok := writeBuffer.Add(req, cycle);
      if ok {
        cpu.CompleteRequest(cycle);
        served, accepted := served + [req], accepted + [req];
      } else {
        cpu.SetStatus(StalledWB);
      }
    }

    /** Lets the prefetcher use the bus to L2. */
    method SendPrefetch(pf: Option<Request>)
      requires Valid()
      modifies Objects()
      ensures Valid()
      ensures var s := old(TheState()); TheState() == s.(core := Prefetch(s.core, pf))
    {
      hide Offer, Cache.Valid, Cache.Contents, Queue.Valid, Queue.Entries;
      if pf.Some? {
        var _ := queueL2.Add(AsPrefetch(pf.value), cycle);
      }
    }

    method PollCpu() returns (status: Status)
      requires Valid()
      modifies Objects()
      ensures Valid()
      ensures var s := old(TheState());
              var c := GetStatus(s.core.cpu, s.core.cycle);
              status == c.status && TheState() == s.(core := s.core.(cpu := c))
    {
      hide Cache.Valid, Cache.Contents, Queue.Valid, Queue.Entries;
      status := cpu.CheckStatus(cycle);
    }

    method IssueCpu() returns (req: Request)
      requires Valid()
      modifies Objects()
      ensures Valid()
      ensures var s := old(TheState());
              var c := Issue(s.core.cpu, s.core.cycle);
              req == c.cur && TheState() == s.(core := s.core.(cpu := c))
    {
      hide Cache.Valid, Cache.Contents, Queue.Valid, Queue.Entries;
      req := cpu.IssueRequest(cycle);
    }

    // ----- The phases of a turn -----

    method RunCpu(pf: Option<Request>)
      requires Valid()
      modifies Objects()
      ensures Valid() && TheState() == CpuPhase(old(TheState()), pf)
    {
      hide Valid, TheState, Objects, Offer, CheckIn, AccessIn, ReadNext;
      var status := PollCpu();
      match status
      case Ready =>
        var req := IssueCpu();
        var isHit := CheckL1(req);
        if isHit {
          AccessL1(req);
          Finish(req);
        } else if req.load {
          SendLoad();
        } else {
          SendStore();
        }
      case StalledL2 => SendLoad();
      case StalledWB =>
        SendPrefetch(pf);
        SendStore();
      case Waiting => SendPrefetch(pf);
      case Idle => SendPrefetch(pf);
    }

    method RunL2()
      requires Valid()
      modifies Objects()
      ensures Valid() && TheState() == L2Phase(old(TheState()))
    {
      hide Valid, TheState, Objects, Offer, CheckIn, AccessIn, ReadNext;
      var ready, req := FrontL2();
      if ready {
        var isHit := CheckL2(req);
        if isHit {
          AccessL1(req);
          if req.fromCPU {
            Finish(req);
          }
          PopL2();
        } else {
          var ok := OfferMem(req);
          if ok {
            PopL2();
          }
        }
      }
    }

    method RunMem()
      requires Valid()
      modifies Objects()
      ensures Valid() && TheState() == MemPhase(old(TheState()))
    {
      hide Valid, TheState, Objects, Offer, CheckIn, AccessIn, ReadNext;
      var ready, req := FrontMem();
      if ready {
        PopMem();
        AccessL2(req);
        if req.load {
          AccessL1(req);
        } else {
          Apply(req);
        }
        if req.fromCPU && req.load {
          Finish(req);
        }
      }
    }

    method RunWriteBuffer()
      requires Valid()
      modifies Objects()
      ensures Valid() && TheState() == WbPhase(old(TheState()))
    {
      hide Valid, TheState, Objects, Offer, CheckIn, AccessIn;
      var ready, req := FrontWb();
      if ready {
        var isHit := CheckL2(req);
        if isHit {
          AccessL2(req);
          PopWb();
          Apply(req);
        } else {
          var ok := OfferMem(req);
          if ok {
            PopWb();
          }
        }
      }
    }

    /** One turn of the main loop. */
    method Cycle(pf: Option<Request>)
      requires Valid()
      modifies Objects()
      ensures Valid() && TheState() == Step(old(TheState()), pf)
    {
      hide CpuPhase, L2Phase, MemPhase, WbPhase, Cache.Valid, Cache.Contents, Queue.Valid, Queue.Entries;
      RunCpu(pf);
      RunL2();
      RunMem();
      RunWriteBuffer();
      cycle := cycle + 1;
    }
  }

  /** The main loop. `pf` is what the prefetcher asks for in each cycle. The loop ends on every
      trace, having served every access of it once and in order. */
  method Simulate(trace: seq<TraceOp>, pf: nat -> Option<Request>) returns (m: Machine, ghost moves: seq<Option<Request>>)
    ensures m.Valid() && m.TheState() == Run(trace, moves) && |moves| <= HierarchyProgress.Budget(trace)
    ensures |m.served| == |trace| && forall i :: 0 <= i < |trace| ==> HierarchySafety.Matches(m.served[i], trace[i])
  {
    hide Run, Step, HierarchyProgress.Work;
    m := new Machine(trace);
    moves := [];
    InitialRun(trace);
    while !m.cpu.done
      invariant m.Valid() && fresh(m.Objects()) && m.TheState() == Run(trace, moves)
      invariant |moves| + HierarchyProgress.Work(trace, m.TheCore()) <= HierarchyProgress.Budget(trace)
      decreases HierarchyProgress.Work(trace, m.TheCore())
    {
      HierarchyProgress.WorkFalls(trace, moves, pf(m.cycle));
      RunExtends(trace, moves, pf(m.cycle));
      moves := moves + [pf(m.cycle)];
      m.Cycle(pf(m.cycle));
    }
    HierarchySafety.ServedInTraceOrder(trace, moves);
  }

  lemma InitialRun(trace: seq<TraceOp>)
    ensures Run(trace, []) == Init(trace)
    ensures HierarchyProgress.Work(trace, Init(trace).core) <= HierarchyProgress.Budget(trace)
  {
    HierarchyProgress.InitialWork(trace);
  }

  lemma RunExtends(trace: seq<TraceOp>, pfs: seq<Option<Request>>, pf: Option<Request>)
    requires !Run(trace, pfs).core.cpu.done
    ensures Run(trace, pfs + [pf]) == Step(Run(trace, pfs), pf)
  {
    hide Step;
    assert (pfs + [pf])[..|pfs|] == pfs;
  }
}
