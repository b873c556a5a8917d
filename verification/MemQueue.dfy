/** The bounded request queues between the levels of the memory hierarchy. */
module MemQueue {
  import opened LruCache

  datatype Request = Request(addr: nat, pc: nat, load: bool, fromCPU: bool, issuedAt: nat)

  datatype Entry = Entry(req: Request, tag: nat, index: nat, ready: nat)

  /** What is fixed for a queue. The blocks compared are those of the cache above it. */
  datatype Kind = Kind(capacity: nat, latency: nat, pipelined: bool, source: Geometry)

  predicate SameBlock(e: Entry, tag: nat, index: nat) { e.tag == tag && e.index == index }

  /** Position of the last entry for a block, or -1. */
  function LastOf(q: seq<Entry>, tag: nat, index: nat): (d: int)
    ensures -1 <= d < |q|
    ensures d >= 0 ==> SameBlock(q[d], tag, index)
    ensures forall j :: d < j < |q| ==> !SameBlock(q[j], tag, index)
  {
    if q == [] then -1
    else if SameBlock(q[|q| - 1], tag, index) then |q| - 1
    else LastOf(q[..|q| - 1], tag, index)
  }

  function ReadyTime(k: Kind, q: seq<Entry>, cycle: nat): nat
  {
    if k.pipelined || q == [] then cycle + k.latency else k.latency + q[|q| - 1].ready
  }

  function EntryFor(k: Kind, q: seq<Entry>, req: Request, cycle: nat): Entry
    requires k.source.Valid()
  {
    Entry(req, k.source.GetTag(req.addr), k.source.GetIndex(req.addr), ReadyTime(k, q, cycle))
  }

  /** The queue after `add`; the call succeeds exactly when the queue was not full. */
  function Offer(k: Kind, q: seq<Entry>, req: Request, cycle: nat): seq<Entry>
    requires k.source.Valid()
  {
    var e := EntryFor(k, q, req, cycle);
    var d := LastOf(q, e.tag, e.index);
    if |q| == k.capacity then q
    else if d == -1 || q[d].req.fromCPU then q + [e]
    else if req.fromCPU then q[d := q[d].(req := req)]
    else q
  }

  predicate FrontReady(q: seq<Entry>, cycle: nat) { q != [] && q[0].ready <= cycle }

  /** Prefetches never pile up: an entry followed by another one for its block is the CPU's. */
  ghost predicate Deduplicated(q: seq<Entry>)
  {
    forall i, j :: 0 <= i < j < |q| && SameBlock(q[i], q[j].tag, q[j].index) ==> q[i].req.fromCPU
  }

  lemma OfferKeepsDeduplicated(k: Kind, q: seq<Entry>, req: Request, cycle: nat)
    requires k.source.Valid() && Deduplicated(q)
    ensures Deduplicated(Offer(k, q, req, cycle))
  {
    var e := EntryFor(k, q, req, cycle);
    var d := LastOf(q, e.tag, e.index);
    assert forall i :: 0 <= i < d && SameBlock(q[i], e.tag, e.index) ==> q[i].req.fromCPU;
  }

  // ----- Blocks -----

  /** Every entry carries the tag and index of its request's address. */
  ghost predicate Tagged(k: Kind, q: seq<Entry>)
  {
    && k.source.Valid()
    && (forall i :: 0 <= i < |q| ==> q[i].tag == k.source.GetTag(q[i].req.addr) && q[i].index == k.source.GetIndex(q[i].req.addr))
  }

  lemma TaggedBlocks(k: Kind, q: seq<Entry>, i: nat, addr: nat)
    requires Tagged(k, q) && i < |q|
    ensures SameBlock(q[i], k.source.GetTag(addr), k.source.GetIndex(addr)) <==>
            Block(k.source, q[i].req.addr) == Block(k.source, addr)
  {
    TagAndIndexNameTheBlock(k.source, q[i].req.addr, addr);
  }

  lemma OfferKeepsTagged(k: Kind, q: seq<Entry>, req: Request, cycle: nat)
    requires Tagged(k, q)
    ensures Tagged(k, Offer(k, q, req, cycle))
  {
  }

  /** Entry `d` is the last one of the queue for the block of an address. */
  ghost predicate LastFor(k: Kind, q: seq<Entry>, addr: nat, d: nat)
  {
    && d < |q| && Block(k.source, q[d].req.addr) == Block(k.source, addr)
    && forall j :: d < j < |q| ==> Block(k.source, q[j].req.addr) != Block(k.source, addr)
  }

  /** The last entry for the block of an address is a prefetch. */
  ghost predicate Prefetched(k: Kind, q: seq<Entry>, addr: nat)
  {
    exists d: nat :: LastFor(k, q, addr, d) && !q[d].req.fromCPU
  }

  /** The request takes over entry `d`, with its place and ready time. */
  predicate TakesOver(q: seq<Entry>, d: nat, req: Request, q': seq<Entry>)
  {
    d < |q| && q' == q[d := q[d].(req := req)]
  }

  /** What `add` does, told by the blocks of the addresses: a full queue refuses; a prefetch that is
      the last entry for the block makes a prefetch superfluous and is taken over by a request of
      the CPU; any other request joins at the end, ready a latency later, or a latency after the
      entry before it when the queue is not pipelined. */
  ghost predicate Offered(k: Kind, q: seq<Entry>, r: Request, cycle: nat, q': seq<Entry>)
  {
    if |q| == k.capacity then q' == q
    else if Prefetched(k, q, r.addr) then
      if r.fromCPU then exists d: nat :: LastFor(k, q, r.addr, d) && !q[d].req.fromCPU && TakesOver(q, d, r, q')
      else q' == q
    else
      && |q'| == |q| + 1 && q'[..|q|] == q && q'[|q|].req == r
      && q'[|q|].ready == if k.pipelined || q == [] then cycle + k.latency else q[|q| - 1].ready + k.latency
  }

  lemma OfferMeans(k: Kind, q: seq<Entry>, r: Request, cycle: nat)
    requires Tagged(k, q)
    ensures Tagged(k, Offer(k, q, r, cycle)) && Offered(k, q, r, cycle, Offer(k, q, r, cycle))
  {
    var tag, index := k.source.GetTag(r.addr), k.source.GetIndex(r.addr);
    var d := LastOf(q, tag, index);
    OfferKeepsTagged(k, q, r, cycle);
    forall i: nat | i < |q|
      ensures SameBlock(q[i], tag, index) <==> Block(k.source, q[i].req.addr) == Block(k.source, r.addr)
    {
      TaggedBlocks(k, q, i, r.addr);
    }
    hide SameBlock, Block, Tagged;
    LastIsLast(k, q, r.addr, tag, index);
  }

  lemma LastIsLast(k: Kind, q: seq<Entry>, addr: nat, tag: nat, index: nat)
    requires forall i: nat :: i < |q| ==> (SameBlock(q[i], tag, index) <==> Block(k.source, q[i].req.addr) == Block(k.source, addr))
    ensures var d := LastOf(q, tag, index);
      && (d >= 0 ==> LastFor(k, q, addr, d))
      && (forall e: nat :: LastFor(k, q, addr, e) ==> e == d)
      && (Prefetched(k, q, addr) <==> d >= 0 && !q[d].req.fromCPU)
  {
    var d := LastOf(q, tag, index);
    forall e: nat | LastFor(k, q, addr, e) ensures e == d {
      assert SameBlock(q[e], tag, index);
    }
  }

  // ----- The circular buffer -----

  /** The array position of the `i`-th entry. */
  function Slot(capacity: nat, front: nat, i: nat): nat
    requires front < capacity && i <= capacity
  {
    if front + i < capacity then front + i else front + i - capacity
  }

  /** The `n` entries from `front` on, wrapping around. */
  function Window(cells: seq<Entry>, front: nat, n: nat): (q: seq<Entry>)
    requires front < |cells| && n <= |cells|
    ensures |q| == n
    ensures forall i :: 0 <= i < n ==> q[i] == cells[Slot(|cells|, front, i)]
  {
    if front + n <= |cells| then cells[front..front + n] else cells[front..] + cells[..front + n - |cells|]
  }

  lemma WindowGrows(cells: seq<Entry>, front: nat, n: nat, e: Entry)
    requires front < |cells| && n < |cells|
    ensures Window(cells[Slot(|cells|, front, n) := e], front, n + 1) == Window(cells, front, n) + [e]
  {
  }

  lemma WindowChanges(cells: seq<Entry>, front: nat, n: nat, d: nat, e: Entry)
    requires front < |cells| && d < n <= |cells|
    ensures Window(cells[Slot(|cells|, front, d) := e], front, n) == Window(cells, front, n)[d := e]
  {
  }

  /** The circular buffer; a cell gathers what the four parallel arrays hold at one position. */
  class Queue {
    const kind: Kind
    var front: nat
    var rear: nat
    var size: nat
    const cells: array<Entry>

    ghost predicate Valid()
      reads this
    {
      && kind.source.Valid() && cells.Length == kind.capacity
      && size <= kind.capacity && front < kind.capacity && rear == Slot(kind.capacity, front, size)
    }

    /** The queue as a sequence, front first. */
    ghost function Entries(): (q: seq<Entry>)
      requires Valid()
      reads this, cells
      ensures |q| == size
    {
      Window(cells[..], front, size)
    }

    constructor (kind: Kind)
      requires kind.source.Valid() && kind.capacity > 0
      ensures Valid() && this.kind == kind && Entries() == [] && fresh(cells)
    {
      this.kind := kind;
      front, rear, size := 0, 0, 0;
      cells := new Entry[kind.capacity](i => Entry(Request(0, 0, false, false, 0), 0, 0, 0));
    }

    /** The position of the last entry for a block, or -1. */
    method FindDup(tag: nat, index: nat) returns (dupLoc: int)
      requires Valid() && size < kind.capacity
      ensures dupLoc == -1 <==> LastOf(Entries(), tag, index) == -1
      ensures dupLoc != -1 ==> dupLoc == Slot(kind.capacity, front, LastOf(Entries(), tag, index))
    {
      dupLoc := -1;
      var i := front;
      ghost var n, d, q := 0, -1, Entries();
      while i != rear
        invariant n <= size && i == Slot(kind.capacity, front, n) && -1 <= d < n
        invariant dupLoc == if d == -1 then -1 else Slot(kind.capacity, front, d)
        invariant d >= 0 ==> SameBlock(q[d], tag, index)
        invariant forall j :: d < j < n ==> !SameBlock(q[j], tag, index)
        decreases size - n
      {
        assert cells[i] == q[n];
        if SameBlock(cells[i], tag, index) {
          dupLoc, d := i, n;
        }
        i := i + 1;
        if i == kind.capacity {
          i := 0;
        }
        n := n + 1;
      }
      LastOfUnique(q, tag, index, d);
    }

    method Add(req: Request, cycle: nat) returns (success: bool)
      requires Valid()
      modifies this, cells
      ensures Valid()
      ensures success == (|old(Entries())| != kind.capacity)
      ensures !success ==> Entries() == old(Entries())
      ensures Entries() == Offer(kind, old(Entries()), req, cycle)
    {
      success := true;
      ghost var q := Entries();
      if size == kind.capacity {
        success := false;
      } else {
        var index := kind.source.GetIndex(req.addr);
        var tag := kind.source.GetTag(req.addr);
        var dupLoc := FindDup(tag, index);
        ghost var d := LastOf(q, tag, index);
        assert d >= 0 ==> cells[dupLoc] == q[d];
        if dupLoc == -1 || cells[dupLoc].req.fromCPU {
          Append(req, tag, index, cycle);
        } else if req.fromCPU {
          WindowChanges(cells[..], front, size, d, q[d].(req := req));
          cells[dupLoc] := cells[dupLoc].(req := req);
        }
      }
    }

    /** When the last entry will be ready. */
    method LastReady() returns (ready: nat)
      requires Valid() && 0 < size < kind.capacity
      ensures ready == Entries()[size - 1].ready
    {
      var i := rear - 1;
      if i < 0 {
        i := kind.capacity - 1;
      }
      ready := cells[i].ready;
    }

    /** Writes a new entry at the rear. */
    method Append(req: Request, tag: nat, index: nat, cycle: nat)
      requires Valid() && size < kind.capacity
      modifies this, cells
      ensures Valid()
      ensures Entries() == old(Entries()) + [Entry(req, tag, index, ReadyTime(kind, old(Entries()), cycle))]
    {
      var ready;
      if kind.pipelined || size == 0 {
        ready := cycle + kind.latency;
      } else {
        var last := LastReady();
        ready := kind.latency + last;
      }
      ghost var e := Entry(req, tag, index, ready);
      assert e.ready == ReadyTime(kind, Entries(), cycle);
      WindowGrows(cells[..], front, size, e);
      cells[rear] := Entry(req, tag, index, ready);
      size := size + 1;
      rear := rear + 1;
      if rear == kind.capacity {
        rear := 0;
      }
    }

    method Remove() returns (success: bool)
      requires Valid()
      modifies this
      ensures Valid()
      ensures success == (old(Entries()) != [])
      ensures Entries() == if success then old(Entries())[1..] else []
    {
      success := true;
      if size == 0 {
        success := false;
      } else {
        size := size - 1;
        front := front + 1;
        if front == kind.capacity {
          front := 0;
        }
      }
    }

    method IsFrontReady(cycle: nat) returns (r: bool)
      requires Valid()
      ensures r == FrontReady(Entries(), cycle)
    {
      r := size > 0 && cells[front].ready <= cycle;
    }

    method GetFront() returns (req: Request)
      requires Valid() && Entries() != []
      ensures req == Entries()[0].req
    {
      req := cells[front].req;
    }
  }

  /** What characterises the last entry for a block. */
  lemma LastOfUnique(q: seq<Entry>, tag: nat, index: nat, d: int)
    requires -1 <= d < |q| && (d >= 0 ==> SameBlock(q[d], tag, index))
    requires forall j :: d < j < |q| ==> !SameBlock(q[j], tag, index)
    ensures LastOf(q, tag, index) == d
  {
    var l := LastOf(q, tag, index);
    assert l >= 0 ==> SameBlock(q[l], tag, index);
  }
}
