/** The two-level memory hierarchy: one call of `Step` is one turn of the simulator's main loop. */
module Hierarchy {
  import opened Helpers
  import opened LruCache
  import opened MemQueue

  /** The configuration of the simulator: 32 KB two-way L1 that does not allocate on writes,
      256 KB eight-way L2 that does. */
  const L1 := Geometry(4, 10, 2, false)
  const L2 := Geometry(5, 10, 8, true)
  const WRITE_BUFFER := Kind(10, 20, true, L1)
  const QUEUE_L2 := Kind(20, 20, true, L1)
  const QUEUE_MEM := Kind(10, 50, false, L2)

  // ----- The processor -----

  datatype Status = Idle | Ready | Waiting | StalledL2 | StalledWB

  /** A line of the trace file; `gap` cycles pass before the access is ready. */
  datatype TraceOp = TraceOp(load: bool, pc: nat, addr: nat, gap: nat)

  datatype Cpu = Cpu(status: Status, cur: Request, readyAt: nat, done: bool, trace: seq<TraceOp>)

  function ReadNext(c: Cpu, cycle: nat): Cpu
  {
    if c.trace == [] then c.(done := true)
    else
      var op := c.trace[0];
      c.(cur := c.cur.(addr := op.addr, load := op.load, pc := op.pc),
         readyAt := cycle + op.gap + 1,
         trace := c.trace[1..])
  }

  function Complete(c: Cpu, cycle: nat): Cpu { ReadNext(c.(status := Idle), cycle) }

  function Issue(c: Cpu, cycle: nat): Cpu { c.(cur := c.cur.(issuedAt := cycle)) }

  function GetStatus(c: Cpu, cycle: nat): Cpu
  {
    if c.status == Idle && cycle >= c.readyAt then c.(status := Ready) else c
  }

  // ----- The machine -----

  /** Processor and queues between two turns of the loop, with three histories: the requests
      completed, the stores accepted by the write buffer and the stores applied to L2. */
  datatype Core = Core(cycle: nat, cpu: Cpu,
                       l2q: seq<Entry>, memq: seq<Entry>, wb: seq<Entry>,
                       served: seq<Request>, accepted: seq<Request>, applied: seq<Request>)

  datatype State = State(core: Core, dcache: Contents, l2cache: Contents) {
    predicate Shaped() { |dcache| == L1.NumSets() && |l2cache| == L2.NumSets() }
  }

  function InitCore(trace: seq<TraceOp>): Core
  {
    Core(1, ReadNext(Cpu(Idle, Request(0, 0, false, true, 0), 0, false, trace), 0), [], [], [], [], [], [])
  }

  function Init(trace: seq<TraceOp>): State { State(InitCore(trace), Empty(L1), Empty(L2)) }

  /** A request the prefetcher hands over, as the loop marks it. */
  function AsPrefetch(r: Request): Request { r.(fromCPU := false, load := true) }

  /** The processor `cpu` is told that `req` has been served. */
  function CompleteWith(c: Core, cpu: Cpu, req: Request): Core
  {
    c.(cpu := Complete(cpu, c.cycle), served := c.served + [req])
  }

  /** Offers the store `cpu.cur` to the write buffer. */
  function Store(c: Core, cpu: Cpu): Core
  {
    if |c.wb| == WRITE_BUFFER.capacity then c.(cpu := cpu.(status := StalledWB))
    else CompleteWith(c, cpu, cpu.cur)
         .(wb := Offer(WRITE_BUFFER, c.wb, cpu.cur, c.cycle), accepted := c.accepted + [cpu.cur])
  }

  /** Offers the load `cpu.cur` to the L2 queue. */
  function Load(c: Core, cpu: Cpu): Core
  {
    if |c.l2q| == QUEUE_L2.capacity then c.(cpu := cpu.(status := StalledL2))
    else c.(cpu := cpu.(status := Waiting), l2q := Offer(QUEUE_L2, c.l2q, cpu.cur, c.cycle))
  }

  function Prefetch(c: Core, pf: Option<Request>): Core
  {
    match pf
    case None => c
    case Some(r) => c.(l2q := Offer(QUEUE_L2, c.l2q, AsPrefetch(r), c.cycle))
  }

  /** The processor, and the prefetcher when the processor leaves the bus free. */
  function CpuPhase(s: State, pf: Option<Request>): (s': State)
    requires s.Shaped()
    ensures s'.Shaped()
  {
    var c := s.core;
    var cpu := GetStatus(c.cpu, c.cycle);
    match cpu.status
    case Waiting => s.(core := Prefetch(c, pf))
    case Idle => s.(core := Prefetch(c, pf))
    case StalledWB => s.(core := Store(Prefetch(c, pf), cpu))
    case StalledL2 => s.(core := Load(c, cpu))
    case Ready =>
      var cpu := Issue(cpu, c.cycle);
      var req := cpu.cur;
      if CheckIn(L1, s.dcache, req.addr) then
        s.(core := CompleteWith(c, cpu, req), dcache := AccessIn(L1, s.dcache, Access(req.addr, req.load)))
      else if req.load then s.(core := Load(c, cpu))
      else s.(core := Store(c, cpu))
  }

  function L2Phase(s: State): (s': State)
    requires s.Shaped()
    ensures s'.Shaped()
  {
    var c := s.core;
    if !FrontReady(c.l2q, c.cycle) then s
    else
      var req := c.l2q[0].req;
      if CheckIn(L2, s.l2cache, req.addr) then
        var c' := c.(l2q := c.l2q[1..]);
        s.(core := if req.fromCPU then CompleteWith(c', c'.cpu, req) else c',
           dcache := AccessIn(L1, s.dcache, Access(req.addr, req.load)))
      else if |c.memq| == QUEUE_MEM.capacity then s
      else s.(core := c.(memq := Offer(QUEUE_MEM, c.memq, req, c.cycle), l2q := c.l2q[1..]))
  }

  function MemPhase(s: State): (s': State)
    requires s.Shaped()
    ensures s'.Shaped()
  {
    var c := s.core;
    if !FrontReady(c.memq, c.cycle) then s
    else
      var req := c.memq[0].req;
      var c' := c.(memq := c.memq[1..]);
      var l2cache := AccessIn(L2, s.l2cache, Access(req.addr, req.load));
      if !req.load then State(c'.(applied := c.applied + [req]), s.dcache, l2cache)
      else State(if req.fromCPU then CompleteWith(c', c'.cpu, req) else c',
                 AccessIn(L1, s.dcache, Access(req.addr, req.load)), l2cache)
  }

  function WbPhase(s: State): (s': State)
    requires s.Shaped()
    ensures s'.Shaped()
  {
    var c := s.core;
    if !FrontReady(c.wb, c.cycle) then s
    else
      var req := c.wb[0].req;
      if CheckIn(L2, s.l2cache, req.addr) then
        s.(core := c.(wb := c.wb[1..], applied := c.applied + [req]),
           l2cache := AccessIn(L2, s.l2cache, Access(req.addr, req.load)))
      else if |c.memq| == QUEUE_MEM.capacity then s
      else s.(core := c.(memq := Offer(QUEUE_MEM, c.memq, req, c.cycle), wb := c.wb[1..]))
  }

  /** One turn of the loop. The prefetcher is an arbitrary environment. */
  function Step(s: State, pf: Option<Request>): (s': State)
    requires s.Shaped()
    ensures s'.Shaped()
  {
    var t := WbPhase(MemPhase(L2Phase(CpuPhase(s, pf))));
    t.(core := t.core.(cycle := t.core.cycle + 1))
  }

  /** The run of the simulator on a trace, as long as the prefetcher's moves last. */
  function Run(trace: seq<TraceOp>, pfs: seq<Option<Request>>): (s: State)
    ensures s.Shaped()
  {
    if pfs == [] then Init(trace)
    else
      var s := Run(trace, pfs[..|pfs| - 1]);
      if s.core.cpu.done then s else Step(s, pfs[|pfs| - 1])
  }

  // ----- The same turn with the cache lookups left open -----

  /** What `add` can do to a queue with room: append the request, put it in the place of a
      prefetch for its block, or drop it as a prefetch already asked for. */
  ghost predicate Joins(k: Kind, q: seq<Entry>, r: Request, cycle: nat, q': seq<Entry>)
  {
    || (exists e: Entry :: q' == q + [e] && e.req == r && e.ready == ReadyTime(k, q, cycle))
    || (r.fromCPU && exists d :: 0 <= d < |q| && !q[d].req.fromCPU && q' == q[d := q[d].(req := r)])
    || (!r.fromCPU && q' == q)
  }

  lemma OfferJoins(k: Kind, q: seq<Entry>, r: Request, cycle: nat)
    requires k.source.Valid() && |q| != k.capacity
    ensures Joins(k, q, r, cycle, Offer(k, q, r, cycle))
  {
    var e := EntryFor(k, q, r, cycle);
    var d := LastOf(q, e.tag, e.index);
    if d == -1 || q[d].req.fromCPU {
      assert Offer(k, q, r, cycle) == q + [e];
    }
  }

  ghost predicate StoreMoves(c: Core, cpu: Cpu, c': Core)
  {
    if |c.wb| == 10 then c' == c.(cpu := cpu.(status := StalledWB))
    else
      && Joins(WRITE_BUFFER, c.wb, cpu.cur, c.cycle, c'.wb)
      && c' == CompleteWith(c, cpu, cpu.cur).(wb := c'.wb, accepted := c.accepted + [cpu.cur])
  }

  ghost predicate LoadMoves(c: Core, cpu: Cpu, c': Core)
  {
    if |c.l2q| == 20 then c' == c.(cpu := cpu.(status := StalledL2))
    else
      && Joins(QUEUE_L2, c.l2q, cpu.cur, c.cycle, c'.l2q)
      && c' == c.(cpu := cpu.(status := Waiting), l2q := c'.l2q)
  }

  ghost predicate PrefetchMoves(c: Core, c': Core)
  {
    || c' == c
    || (|c.l2q| != 20 && c' == c.(l2q := c'.l2q)
        && exists r: Request :: !r.fromCPU && r.load && Joins(QUEUE_L2, c.l2q, r, c.cycle, c'.l2q))
  }

  ghost predicate CpuMoves(c: Core, c': Core)
  {
    var cpu := GetStatus(c.cpu, c.cycle);
    match cpu.status
    case Waiting => PrefetchMoves(c, c')
    case Idle => PrefetchMoves(c, c')
    case StalledWB => exists m: Core :: PrefetchMoves(c, m) && StoreMoves(m, cpu, c')
    case StalledL2 => LoadMoves(c, cpu, c')
    case Ready =>
      var cpu := Issue(cpu, c.cycle);
      || c' == CompleteWith(c, cpu, cpu.cur)
      || if cpu.cur.load then LoadMoves(c, cpu, c') else StoreMoves(c, cpu, c')
  }

  ghost predicate L2Moves(c: Core, c': Core)
  {
    if !FrontReady(c.l2q, c.cycle) then c' == c
    else
      var req, rest := c.l2q[0].req, c.(l2q := c.l2q[1..]);
      || c' == (if req.fromCPU then CompleteWith(rest, rest.cpu, req) else rest)
      || (|c.memq| == 10 && c' == c)
      || (|c.memq| != 10 && Joins(QUEUE_MEM, c.memq, req, c.cycle, c'.memq) && c' == rest.(memq := c'.memq))
  }

  ghost predicate MemMoves(c: Core, c': Core)
  {
    if !FrontReady(c.memq, c.cycle) then c' == c
    else
      var req, rest := c.memq[0].req, c.(memq := c.memq[1..]);
      c' == if !req.load then rest.(applied := c.applied + [req])
            else if req.fromCPU then CompleteWith(rest, rest.cpu, req)
            else rest
  }

  ghost predicate WbMoves(c: Core, c': Core)
  {
    if !FrontReady(c.wb, c.cycle) then c' == c
    else
      var req, rest := c.wb[0].req, c.(wb := c.wb[1..]);
      || c' == rest.(applied := c.applied + [req])
      || (|c.memq| == 10 && c' == c)
      || (|c.memq| != 10 && Joins(QUEUE_MEM, c.memq, req, c.cycle, c'.memq) && c' == rest.(memq := c'.memq))
  }

  /** Every phase of the machine is one of these moves, whatever the caches hold. */
  lemma CpuPhaseMoves(s: State, pf: Option<Request>)
    requires s.Shaped()
    ensures CpuMoves(s.core, CpuPhase(s, pf).core)
  {
    var c := s.core;
    var cpu := GetStatus(c.cpu, c.cycle);
    var cur := Issue(cpu, c.cycle).cur;
    assert PrefetchMoves(c, Prefetch(c, pf)) by {
      if pf.Some? && |c.l2q| != 20 { OfferJoins(QUEUE_L2, c.l2q, AsPrefetch(pf.value), c.cycle); }
    }
    if |c.wb| != 10 {
      OfferJoins(WRITE_BUFFER, c.wb, cur, c.cycle);
      OfferJoins(WRITE_BUFFER, c.wb, cpu.cur, c.cycle);
    }
    if |c.l2q| != 20 {
      OfferJoins(QUEUE_L2, c.l2q, cur, c.cycle);
      OfferJoins(QUEUE_L2, c.l2q, cpu.cur, c.cycle);
    }
  }

  lemma L2PhaseMoves(s: State)
    requires s.Shaped()
    ensures L2Moves(s.core, L2Phase(s).core)
  {
    var c := s.core;
    if c.l2q != [] && |c.memq| != 10 { OfferJoins(QUEUE_MEM, c.memq, c.l2q[0].req, c.cycle); }
  }

  lemma WbPhaseMoves(s: State)
    requires s.Shaped()
    ensures WbMoves(s.core, WbPhase(s).core)
  {
    var c := s.core;
    if c.wb != [] && |c.memq| != 10 { OfferJoins(QUEUE_MEM, c.memq, c.wb[0].req, c.cycle); }
  }

  /** A turn of the loop with the lookups left open. */
  ghost predicate Turn(c: Core, c': Core)
  {
    exists c1: Core, c2: Core, c3: Core, c4: Core ::
      CpuMoves(c, c1) && L2Moves(c1, c2) && MemMoves(c2, c3) && WbMoves(c3, c4) &&
      c' == c4.(cycle := c4.cycle + 1)
  }

  lemma StepIsTurn(s: State, pf: Option<Request>)
    requires s.Shaped()
    ensures Turn(s.core, Step(s, pf).core)
  {
    var s1 := CpuPhase(s, pf);
    CpuPhaseMoves(s, pf);
    L2PhaseMoves(s1);
    assert MemMoves(L2Phase(s1).core, MemPhase(L2Phase(s1)).core);
    WbPhaseMoves(MemPhase(L2Phase(s1)));
  }
}
