/** Demand paging: the pages of all processes, the frames of physical memory with their inverted
    table, the swap file, and every memory section that runs under the memory lock. */
module Paging {
  import opened Helpers

  type Byte = bv8

  /** Bytes in a page. */
  const PAGE: nat := 0x400

  /** A page table entry; `ppn` is the frame of a valid page and the swap slot of a dirty page
      that is not valid. */
  datatype Entry = Entry(ppn: int, valid: bool, used: bool, dirty: bool)

  datatype Frame = Frame(owned: bool, used: bool, pinned: bool, owner: nat, vpn: nat)

  /** A read or write of virtual memory by the kernel: `n` bytes are done. */
  datatype Transfer = Transfer(write: bool, vaddr: int, data: seq<Byte>, offset: int, length: int, n: nat)

  datatype Stage = Verify | Copy | Clean

  datatype Call = Idle | Busy(t: Transfer, stage: Stage) | Returned(t: Transfer, count: nat)

  datatype Process = Process(live: bool, table: seq<Entry>, call: Call)

  /** A stretch of bytes stored at virtual address `at` of process `p`. */
  datatype Write = Write(p: nat, at: nat, bytes: seq<Byte>)

  datatype State = State(procs: seq<Process>, frames: seq<Frame>, memory: seq<Byte>, swap: seq<Byte>,
                         freeSwap: seq<nat>, numSwap: nat, hand: nat, log: seq<Write>)
  {
    predicate HasPage(p: nat, v: nat) { p < |procs| && v < |procs[p].table| }

    function E(p: nat, v: nat): Entry
      requires HasPage(p, v)
    {
      procs[p].table[v]
    }

    function WithEntry(p: nat, v: nat, e: Entry): (s': State)
      requires HasPage(p, v)
      ensures forall q: nat, w: nat :: s'.HasPage(q, w) <==> HasPage(q, w)
      ensures forall q: nat, w: nat :: HasPage(q, w) ==> s'.E(q, w) == if q == p && w == v then e else E(q, w)
    {
      this.(procs := procs[p := procs[p].(table := procs[p].table[v := e])])
    }

    function WithFrame(f: nat, fr: Frame): State
      requires f < |frames|
    {
      this.(frames := frames[f := fr])
    }

    function WithCall(p: nat, c: Call): State
      requires p < |procs|
    {
      this.(procs := procs[p := procs[p].(call := c)])
    }
  }

  function Init(numPhysPages: nat): State
  {
    State([], seq(numPhysPages, i => Frame(false, false, false, 0, 0)), seq(numPhysPages * PAGE, i => 0), [], [], 0, 0, [])
  }

  // ----- Pages of a flat store -----

  function PageOf(store: seq<Byte>, k: nat): (page: seq<Byte>)
    requires (k + 1) * PAGE <= |store|
    ensures |page| == PAGE
  {
    store[k * PAGE..(k + 1) * PAGE]
  }

  /** Stores bytes at an address, growing the store if they reach beyond its end. */
  function Splice(store: seq<Byte>, at: nat, bytes: seq<Byte>): (r: seq<Byte>)
    requires at <= |store|
    ensures |r| == if at + |bytes| <= |store| then |store| else at + |bytes|
  {
    store[..at] + bytes + if at + |bytes| <= |store| then store[at + |bytes|..] else []
  }

  lemma SpliceAt(store: seq<Byte>, at: nat, bytes: seq<Byte>, i: nat)
    requires at <= |store| && i < |Splice(store, at, bytes)|
    ensures Splice(store, at, bytes)[i] == if at <= i < at + |bytes| then bytes[i - at] else store[i]
  {
  }

  /** Replacing a page leaves every other page alone. */
  lemma SplicePage(store: seq<Byte>, k: nat, page: seq<Byte>, j: nat)
    requires k * PAGE <= |store| && |page| == PAGE
    requires j == k || (j + 1) * PAGE <= |store|
    ensures (j + 1) * PAGE <= |Splice(store, k * PAGE, page)|
    ensures PageOf(Splice(store, k * PAGE, page), j) == if j == k then page else PageOf(store, j)
  {
    var r := Splice(store, k * PAGE, page);
    assert |r| >= (k + 1) * PAGE && |r| >= |store|;
    var want := if j == k then page else PageOf(store, j);
    forall i | 0 <= i < PAGE ensures PageOf(r, j)[i] == want[i] {
      SpliceAt(store, k * PAGE, page, j * PAGE + i);
    }
  }

  // ----- The clock -----

  /** The frame `k` steps from the hand, going round. */
  function At(s: State, k: nat): (f: nat)
    requires k < |s.frames|
    ensures f < |s.frames|
  {
    var h := s.hand % |s.frames|;
    if h + k < |s.frames| then h + k else h + k - |s.frames|
  }

  /** A frame that the clock takes at first sight. */
  predicate Takes(fr: Frame) { !fr.owned || (!fr.pinned && !fr.used) }

  /** The least `j >= k` whose frame the clock takes, or the number of frames. */
  function FirstTaken(s: State, k: nat): (j: nat)
    requires |s.frames| > 0 && k <= |s.frames|
    ensures k <= j <= |s.frames| && (j < |s.frames| ==> Takes(s.frames[At(s, j)]))
    ensures forall i :: k <= i < j ==> !Takes(s.frames[At(s, i)])
    decreases |s.frames| - k
  {
    if k == |s.frames| || Takes(s.frames[At(s, k)]) then k else FirstTaken(s, k + 1)
  }

  function FirstUnpinned(s: State, k: nat): (j: nat)
    requires |s.frames| > 0 && k <= |s.frames|
    ensures k <= j <= |s.frames| && (j < |s.frames| ==> !s.frames[At(s, j)].pinned)
    ensures forall i :: k <= i < j ==> s.frames[At(s, i)].pinned
    decreases |s.frames| - k
  {
    if k == |s.frames| || !s.frames[At(s, k)].pinned then k else FirstUnpinned(s, k + 1)
  }

  /** The used bits of a frame and of the page in it are cleared. */
  function Clear(s: State, f: nat): State
    requires f < |s.frames|
  {
    var fr := s.frames[f];
    var s1 := s.WithFrame(f, fr.(used := false));
    if s.HasPage(fr.owner, fr.vpn) then s1.WithEntry(fr.owner, fr.vpn, s.E(fr.owner, fr.vpn).(used := false)) else s1
  }

  /** The first `k` frames from the hand are cleared. */
  function Sweep(s: State, k: nat): (s': State)
    requires k <= |s.frames|
    ensures |s'.frames| == |s.frames|
  {
    if k == 0 then s else Clear(Sweep(s, k - 1), At(s, k - 1))
  }

  /** The steps the clock walks before its frame, and the frame: none when all are pinned. */
  function Victim(s: State): (r: Option<nat>)
    requires |s.frames| > 0
    ensures r.Some? ==> r.value < |s.frames|
  {
    var n := |s.frames|;
    if FirstTaken(s, 0) < n then Some(At(s, FirstTaken(s, 0)))
    else if FirstUnpinned(s, 0) < n then Some(At(s, FirstUnpinned(s, 0)))
    else None
  }

  function AfterClock(s: State): (s': State)
    requires |s.frames| > 0
    ensures |s'.frames| == |s.frames|
  {
    var n := |s.frames|;
    if FirstTaken(s, 0) < n then Sweep(s, FirstTaken(s, 0)).(hand := At(s, FirstTaken(s, 0)) + 1)
    else if FirstUnpinned(s, 0) < n then Sweep(s, n).(hand := At(s, FirstUnpinned(s, 0)) + 1)
    else Sweep(s, n).(hand := At(s, n - 1) + 1)
  }

  // ----- Swap -----

  /** The lowest free slot, or a new one. */
  function Slot(s: State): nat { if s.freeSwap == [] then s.numSwap else s.freeSwap[0] }

  function AddToSwap(s: State, f: nat): State
    requires f < |s.frames| && (f + 1) * PAGE <= |s.memory| && Slot(s) * PAGE <= |s.swap|
  {
    s.(numSwap := if s.freeSwap == [] then s.numSwap + 1 else s.numSwap,
       freeSwap := if s.freeSwap == [] then [] else s.freeSwap[1..],
       swap := Splice(s.swap, Slot(s) * PAGE, PageOf(s.memory, f)))
    .WithFrame(f, s.frames[f].(pinned := false))
  }

  /** Adds to the queue of free slots, lowest first. */
  function Insert(q: seq<nat>, x: nat): (r: seq<nat>)
    ensures forall y :: y in r <==> y == x || y in q
    ensures |r| == |q| + 1
  {
    if q == [] || x <= q[0] then [x] + q
    else
      assert q == [q[0]] + q[1..];
      [q[0]] + Insert(q[1..], x)
  }

  function LoadFromSwap(s: State, slot: nat, f: nat): State
    requires f < |s.frames| && f * PAGE <= |s.memory| && (slot + 1) * PAGE <= |s.swap|
  {
    s.(memory := Splice(s.memory, f * PAGE, PageOf(s.swap, slot)), freeSwap := Insert(s.freeSwap, slot))
    .WithFrame(f, s.frames[f].(pinned := false))
  }

  // ----- Page faults -----

  /** Stores whose sizes fit the frames and the slots, and slots where they should be. */
  ghost predicate Sized(s: State)
  {
    && |s.frames| > 0 && |s.memory| == |s.frames| * PAGE && |s.swap| == s.numSwap * PAGE
    && (forall k :: k in s.freeSwap ==> k < s.numSwap)
  }

  /** The owner of a frame saves the page, if it was ever written, and drops it. */
  function Evict(s: State, f: nat): State
    requires Sized(s) && f < |s.frames| && s.HasPage(s.frames[f].owner, s.frames[f].vpn)
    requires s.E(s.frames[f].owner, s.frames[f].vpn).ppn == f
  {
    var p, v := s.frames[f].owner, s.frames[f].vpn;
    var e := s.E(p, v);
    assert s.freeSwap != [] ==> s.freeSwap[0] in s.freeSwap;
    if e.dirty then AddToSwap(s, f).WithEntry(p, v, e.(ppn := Slot(s), valid := false))
    else s.WithEntry(p, v, e.(valid := false))
  }

  /** The frame is given to page `v` of process `p`. */
  function Assign(s: State, f: nat, p: nat, v: nat): State
    requires f < |s.frames|
  {
    s.WithFrame(f, s.frames[f].(owned := true, used := true, owner := p, vpn := v))
  }

  /** A dirty page comes back from swap; any other page starts from `init`. */
  function Initialize(s: State, f: nat, p: nat, v: nat, init: seq<Byte>): State
    requires Sized(s) && f < |s.frames| && s.HasPage(p, v) && |init| == PAGE
    requires s.E(p, v).dirty ==> 0 <= s.E(p, v).ppn < s.numSwap
  {
    var e := s.E(p, v);
    (if e.dirty then LoadFromSwap(s, e.ppn, f) else s.(memory := Splice(s.memory, f * PAGE, init)))
    .WithEntry(p, v, e.(ppn := f, used := true, valid := true))
  }

  /** The victim frame, freed of its page. */
  function Freed(s: State): State
    requires |s.frames| > 0 && Victim(s).Some? && CanFree(AfterClock(s), Victim(s).value)
  {
    var f := Victim(s).value;
    if AfterClock(s).frames[f].owned then Evict(AfterClock(s), f) else AfterClock(s)
  }

  ghost predicate CanFree(s: State, f: nat)
  {
    && Sized(s) && f < |s.frames|
    && (s.frames[f].owned ==>
          s.HasPage(s.frames[f].owner, s.frames[f].vpn) && s.E(s.frames[f].owner, s.frames[f].vpn).ppn == f)
  }

  ghost predicate CanFault(s: State, p: nat, v: nat, init: seq<Byte>)
  {
    && |s.frames| > 0 && s.HasPage(p, v) && |init| == PAGE
    && (Victim(s).Some? ==>
          && CanFree(AfterClock(s), Victim(s).value)
          && Sized(Freed(s)) && |Freed(s).frames| == |s.frames| && Freed(s).HasPage(p, v)
          && (Freed(s).E(p, v).dirty ==> 0 <= Freed(s).E(p, v).ppn < Freed(s).numSwap))
  }

  /** The page fault; when every frame is pinned the thread sleeps, and starts over later. */
  function Fault(s: State, p: nat, v: nat, init: seq<Byte>): State
    requires CanFault(s, p, v, init)
  {
    if Victim(s) == None then AfterClock(s)
    else Initialize(Assign(Freed(s), Victim(s).value, p, v), Victim(s).value, p, v, init)
  }

  // ----- Reads and writes of virtual memory -----

  /** The page of the next byte of a transfer, the place in it, and how many bytes go. */
  function PageIndex(t: Transfer): int { (t.vaddr + t.n) / PAGE }

  function PageOffset(t: Transfer): int { (t.vaddr + t.n) % PAGE }

  function Chunk(t: Transfer): int
  {
    var left := PAGE - PageOffset(t);
    if left < t.length - t.n then left else t.length - t.n
  }

  /** The arguments are refused before anything is touched. */
  predicate Refused(t: Transfer, numPages: nat)
  {
    || t.offset < 0 || t.length < 0 || t.offset + t.length > |t.data|
    || t.vaddr < 0 || t.vaddr >= numPages * (PAGE - 1)
  }

  function Start(s: State, p: nat, t: Transfer): State
    requires p < |s.procs|
  {
    s.WithCall(p, if Refused(t, |s.procs[p].table|) then Returned(t, 0) else Busy(t, Verify))
  }

  /** The section that makes the page present, pins it and marks it. */
  function VerifyStep(s: State, p: nat, init: seq<Byte>): State
    requires p < |s.procs| && s.procs[p].call.Busy?
    requires var v := PageIndex(s.procs[p].call.t); 0 <= v < |s.procs[p].table| ==> CanPin(s, p, v, init)
  {
    var t := s.procs[p].call.t;
    var v := PageIndex(t);
    if v < 0 || v >= |s.procs[p].table| then s.WithCall(p, Returned(t, 0))
    else if !s.E(p, v).valid && Victim(s) == None then AfterClock(s)
    else Pin(if s.E(p, v).valid then s else Fault(s, p, v, init), p, v, t)
  }

  ghost predicate CanPin(s: State, p: nat, v: nat, init: seq<Byte>)
    requires s.HasPage(p, v)
  {
    if s.E(p, v).valid then 0 <= s.E(p, v).ppn < |s.frames|
    else
      && CanFault(s, p, v, init)
      && var s' := Fault(s, p, v, init); Victim(s).Some? ==> s'.HasPage(p, v) && 0 <= s'.E(p, v).ppn < |s'.frames|
  }

  function Pin(s: State, p: nat, v: nat, t: Transfer): State
    requires s.HasPage(p, v) && 0 <= s.E(p, v).ppn < |s.frames|
  {
    var e := s.E(p, v);
    s.WithFrame(e.ppn, s.frames[e.ppn].(used := true, pinned := true))
    .WithEntry(p, v, e.(dirty := e.dirty || t.write))
    .WithCall(p, Busy(t, Copy))
  }

  /** The copy between the caller's array and the frame, outside the lock. */
  ghost predicate CanCopy(s: State, p: nat)
  {
    && p < |s.procs| && s.procs[p].call.Busy?
    && var t := s.procs[p].call.t;
       var v := PageIndex(t);
       && 0 <= v < |s.procs[p].table| && 0 <= t.vaddr && 0 <= t.offset && t.n <= t.length && t.offset + t.length <= |t.data|
       && 0 <= s.E(p, v).ppn && (s.E(p, v).ppn + 1) * PAGE <= |s.memory|
  }

  function CopyStep(s: State, p: nat): State
    requires CanCopy(s, p)
  {
    var t := s.procs[p].call.t;
    var k := Chunk(t);
    var at := s.E(p, PageIndex(t)).ppn * PAGE + PageOffset(t);
    if t.write then
      var bytes := t.data[t.offset + t.n..t.offset + t.n + k];
      s.(memory := Splice(s.memory, at, bytes), log := s.log + [Write(p, t.vaddr + t.n, bytes)])
      .WithCall(p, Busy(t, Clean))
    else
      s.WithCall(p, Busy(t.(data := Splice(t.data, t.offset + t.n, s.memory[at..at + k])), Clean))
  }

  /** The section that unpins the page; the call goes on or returns. */
  function CleanStep(s: State, p: nat): State
    requires CanCopy(s, p) && s.E(p, PageIndex(s.procs[p].call.t)).ppn < |s.frames|
  {
    var t := s.procs[p].call.t;
    var f := s.E(p, PageIndex(t)).ppn;
    var t' := t.(n := t.n + Chunk(t));
    s.WithFrame(f, s.frames[f].(pinned := false))
    .WithCall(p, if t'.n < t.length then Busy(t', Verify) else Returned(t', t'.n))
  }

  // ----- Exit -----

  /** Frames of the first `k` pages are given up. */
  function Unload(s: State, p: nat, k: nat): (s': State)
    requires p < |s.procs| && k <= |s.procs[p].table|
    requires forall v :: 0 <= v < k && s.procs[p].table[v].valid ==> 0 <= s.procs[p].table[v].ppn < |s.frames|
    ensures |s'.frames| == |s.frames| && s' == s.(frames := s'.frames)
  {
    if k == 0 then s
    else
      var s1 := Unload(s, p, k - 1);
      var e := s.procs[p].table[k - 1];
      if e.valid then s1.WithFrame(e.ppn, s1.frames[e.ppn].(owned := false, used := false)) else s1
  }

  // ----- Steps -----

  datatype Step =
    | Spawn(numPages: nat)
    | Begin(p: nat, t: Transfer)
    | Go(p: nat, init: seq<Byte>)
    | Touch(p: nat, v: nat, init: seq<Byte>)
    | Exit(p: nat)

  ghost predicate CanStep(s: State, st: Step)
  {
    match st
    case Spawn(_) => true
    case Begin(p, t) => p < |s.procs| && s.procs[p].live && !s.procs[p].call.Busy? && t.n == 0
    case Go(p, init) =>
      && p < |s.procs| && s.procs[p].live && s.procs[p].call.Busy?
      && var v := PageIndex(s.procs[p].call.t);
         (match s.procs[p].call.stage
          case Verify => 0 <= v < |s.procs[p].table| ==> CanPin(s, p, v, init)
          case Copy => CanCopy(s, p)
          case Clean => CanCopy(s, p) && s.E(p, v).ppn < |s.frames|)
    case Touch(p, v, init) =>
      && s.HasPage(p, v) && s.procs[p].live && !s.procs[p].call.Busy?
      && (!s.E(p, v).valid ==> CanFault(s, p, v, init))
    case Exit(p) =>
      && p < |s.procs| && s.procs[p].live && !s.procs[p].call.Busy?
      && forall v :: 0 <= v < |s.procs[p].table| && s.procs[p].table[v].valid ==> 0 <= s.procs[p].table[v].ppn < |s.frames|
  }

  function Next(s: State, st: Step): State
    requires CanStep(s, st)
  {
    match st
    case Spawn(numPages) =>
      s.(procs := s.procs + [Process(true, seq(numPages, i => Entry(-1, false, false, false)), Idle)])
    case Begin(p, t) => Start(s, p, t)
    case Go(p, init) =>
      (match s.procs[p].call.stage
       case Verify => VerifyStep(s, p, init)
       case Copy => CopyStep(s, p)
       case Clean => CleanStep(s, p))
    case Touch(p, v, init) => if s.E(p, v).valid then s else Fault(s, p, v, init)
    case Exit(p) =>
      var s1 := Unload(s, p, |s.procs[p].table|);
      s1.(procs := s1.procs[p := s1.procs[p].(live := false)])
  }
}
