/** What every memory section keeps: page tables and inverted table are inverse to each other,
    swap slots are held once, and written pages keep their bytes wherever they are. */
module PagingSafety {
  import opened Helpers
  import opened Paging

  // ----- Page tables and the inverted table -----

  predicate Present(s: State, p: nat, v: nat) { s.HasPage(p, v) && s.procs[p].live && s.E(p, v).valid }

  /** A present page sits in the frame that names it; frame `hole`, if any, is between owners. */
  ghost predicate EntryOk(s: State, hole: int, p: nat, v: nat)
  {
    Present(s, p, v) ==>
      var f := s.E(p, v).ppn;
      0 <= f < |s.frames| && f != hole && s.frames[f].owned && s.frames[f].owner == p && s.frames[f].vpn == v
  }

  ghost predicate FrameOk(s: State, hole: int, f: nat)
    requires f < |s.frames|
  {
    f != hole && s.frames[f].owned ==>
      Present(s, s.frames[f].owner, s.frames[f].vpn) && s.E(s.frames[f].owner, s.frames[f].vpn).ppn == f
  }

  ghost predicate Mapped(s: State, hole: int)
  {
    && (forall p: nat, v: nat {:trigger s.E(p, v)} {:trigger s.HasPage(p, v)} :: EntryOk(s, hole, p, v))
    && (forall f :: 0 <= f < |s.frames| ==> FrameOk(s, hole, f))
  }

  // ----- Pins -----

  /** Process `p` is between pinning the page of its next byte and unpinning it. */
  predicate Active(s: State, p: nat)
  {
    p < |s.procs| && s.procs[p].live && s.procs[p].call.Busy? && s.procs[p].call.stage != Verify
  }

  ghost predicate FramePin(s: State, f: nat)
    requires f < |s.frames|
  {
    s.frames[f].pinned ==>
      s.frames[f].owned && Active(s, s.frames[f].owner) && PageIndex(s.procs[s.frames[f].owner].call.t) == s.frames[f].vpn
  }

  ghost predicate CallPin(s: State, p: nat)
  {
    Active(s, p) ==>
      var t := s.procs[p].call.t;
      var v := PageIndex(t);
      && 0 <= v && Present(s, p, v) && 0 <= s.E(p, v).ppn < |s.frames| && s.frames[s.E(p, v).ppn].pinned
      && (t.write ==> s.E(p, v).dirty)
  }

  ghost predicate PinsOk(s: State)
  {
    && (forall f :: 0 <= f < |s.frames| ==> FramePin(s, f))
    && (forall p :: 0 <= p < |s.procs| ==> CallPin(s, p))
  }

  // ----- Swap slots -----

  predicate Swapped(s: State, p: nat, v: nat) { s.HasPage(p, v) && s.E(p, v).dirty && !s.E(p, v).valid }

  ghost predicate Increasing(q: seq<nat>) { forall i, j :: 0 <= i < j < |q| ==> q[i] < q[j] }

  ghost predicate SlotOk(s: State, p: nat, v: nat)
  {
    Swapped(s, p, v) ==> 0 <= s.E(p, v).ppn < s.numSwap && s.E(p, v).ppn !in s.freeSwap
  }

  ghost predicate Alone(s: State, p: nat, v: nat, q: nat, w: nat)
  {
    Swapped(s, p, v) && Swapped(s, q, w) && s.E(p, v).ppn == s.E(q, w).ppn ==> p == q && v == w
  }

  ghost predicate Held(s: State, k: nat)
  {
    exists p: nat, v: nat :: Swapped(s, p, v) && s.E(p, v).ppn == k
  }

  ghost predicate SwapOk(s: State)
  {
    && Sized(s) && Increasing(s.freeSwap)
    && (forall p: nat, v: nat {:trigger Swapped(s, p, v)} :: SlotOk(s, p, v))
    && (forall p: nat, v: nat, q: nat, w: nat {:trigger Swapped(s, p, v), Swapped(s, q, w)} :: Alone(s, p, v, q, w))
    && (forall k: nat :: k < s.numSwap ==> k in s.freeSwap || Held(s, k))
  }

  // ----- Bytes -----

  /** The byte last stored at address `a` of process `p`. */
  function Latest(log: seq<Write>, p: nat, a: int): Option<Byte>
  {
    if log == [] then None
    else
      var w := log[|log| - 1];
      if w.p == p && w.at <= a < w.at + |w.bytes| then Some(w.bytes[a - w.at]) else Latest(log[..|log| - 1], p, a)
  }

  /** The bytes of a page, in its frame or in its slot. */
  ghost predicate Somewhere(s: State, p: nat, v: nat)
  {
    && s.HasPage(p, v) && 0 <= s.E(p, v).ppn
    && (s.E(p, v).ppn + 1) * PAGE <= if s.E(p, v).valid then |s.memory| else |s.swap|
  }

  ghost function Logical(s: State, p: nat, v: nat): seq<Byte>
    requires Somewhere(s, p, v)
  {
    if s.E(p, v).valid then PageOf(s.memory, s.E(p, v).ppn) else PageOf(s.swap, s.E(p, v).ppn)
  }

  /** Written pages of processes that run keep their bytes. */
  ghost predicate KeepsPage(s: State, s': State, p: nat, v: nat)
  {
    s.HasPage(p, v) && s.procs[p].live && s.E(p, v).dirty && p < |s'.procs| && s'.procs[p].live ==>
      Somewhere(s, p, v) && Somewhere(s', p, v) && s'.E(p, v).dirty && Logical(s', p, v) == Logical(s, p, v)
  }

  ghost predicate KeepsPages(s: State, s': State)
  {
    && s'.log == s.log && |s'.procs| >= |s.procs|
    && (forall p: nat, v: nat {:trigger s.HasPage(p, v)} :: KeepsPage(s, s', p, v))
    && (forall p: nat :: p < |s'.procs| && s'.procs[p].live ==> p < |s.procs| && s.procs[p].live)
  }

  /** A stored byte is in its page. */
  ghost predicate ByteOk(s: State, p: nat, a: nat)
  {
    Latest(s.log, p, a).Some? ==>
      && p < |s.procs|
      && (s.procs[p].live ==>
            && Somewhere(s, p, a / PAGE) && s.E(p, a / PAGE).dirty
            && Logical(s, p, a / PAGE)[a % PAGE] == Latest(s.log, p, a).value)
  }

  ghost predicate BytesOk(s: State)
  {
    forall p: nat, a: nat {:trigger Latest(s.log, p, a)} :: ByteOk(s, p, a)
  }

  lemma KeepsBytes(s: State, s': State)
    requires BytesOk(s) && KeepsPages(s, s')
    ensures BytesOk(s')
  {
    forall p: nat, a: nat ensures ByteOk(s', p, a) {
      assert ByteOk(s, p, a) && KeepsPage(s, s', p, a / PAGE);
      assert s.HasPage(p, a / PAGE) ==> KeepsPage(s, s', p, a / PAGE);
    }
  }

  // ----- Transfers -----

  /** Bytes of a transfer that are copied. */
  function Copied(c: Call): int
    requires !c.Idle?
  {
    if c.Busy? && c.stage == Clean then c.t.n + Chunk(c.t) else c.t.n
  }

  /** Byte `i` of a transfer agrees with the byte last stored at its address. */
  predicate Agrees(log: seq<Write>, p: nat, t: Transfer, i: int)
    requires 0 <= i < t.length && 0 <= t.offset && t.offset + t.length <= |t.data|
  {
    var b := Latest(log, p, t.vaddr + i);
    if t.write then b == Some(t.data[t.offset + i]) else b.Some? ==> b.value == t.data[t.offset + i]
  }

  /** What a call that is not refused returns: its length when all of it lies in the pages of the
      process, and otherwise 0. */
  function Outcome(t: Transfer, numPages: nat): int
  {
    if t.vaddr + t.length <= numPages * PAGE then t.length else 0
  }

  /** How many bytes it has copied by then: all that lie in the pages of the process. */
  function Reached(t: Transfer, numPages: nat): int
  {
    if t.vaddr + t.length <= numPages * PAGE then t.length else numPages * PAGE - t.vaddr
  }

  /** A call is refused, or what it copied agrees with the log. */
  ghost predicate CallFine(log: seq<Write>, p: nat, numPages: nat, c: Call)
  {
    !c.Idle? ==>
      if Refused(c.t, numPages) then c == Returned(c.t.(n := 0), 0)
      else
        && c.t.n <= c.t.length && c.t.vaddr + c.t.n <= numPages * PAGE
        && (c.Busy? ==> c.t.n < c.t.length || c.t.length == 0)
        && (c.Returned? ==> c.count == Outcome(c.t, numPages) && c.t.n == Reached(c.t, numPages))
        && forall i :: 0 <= i < Copied(c) && i < c.t.length ==> Agrees(log, p, c.t, i)
  }

  ghost predicate CallOk(s: State, p: nat)
    requires p < |s.procs|
  {
    CallFine(s.log, p, |s.procs[p].table|, s.procs[p].call)
  }

  ghost predicate CallsOk(s: State)
  {
    forall p :: 0 <= p < |s.procs| ==> CallOk(s, p)
  }

  ghost predicate Good(s: State)
  {
    Mapped(s, -1) && PinsOk(s) && SwapOk(s) && BytesOk(s) && CallsOk(s)
  }

  // ----- Sections that only clear used bits -----

  predicate SameEntry(a: Entry, b: Entry) { b == a.(used := b.used) }

  predicate SameFrame(a: Frame, b: Frame) { b == a.(used := b.used) }

  predicate SameProcess(a: Process, b: Process)
  {
    b.live == a.live && b.call == a.call && |b.table| == |a.table|
  }

  /** Only used bits and the hand differ. */
  ghost predicate UsedOnly(s: State, s': State)
  {
    && s' == s.(procs := s'.procs, frames := s'.frames, hand := s'.hand)
    && |s'.procs| == |s.procs| && |s'.frames| == |s.frames|
    && (forall p :: 0 <= p < |s.procs| ==> SameProcess(s.procs[p], s'.procs[p]))
    && (forall p: nat, v: nat {:trigger s.E(p, v)} {:trigger s'.E(p, v)} :: s.HasPage(p, v) ==> SameEntry(s.E(p, v), s'.E(p, v)))
    && (forall f :: 0 <= f < |s.frames| ==> SameFrame(s.frames[f], s'.frames[f]))
  }

  lemma {:induction false} SweepIsUsedOnly(s: State, k: nat)
    requires k <= |s.frames|
    ensures UsedOnly(s, Sweep(s, k))
  {
    if k > 0 {
      SweepIsUsedOnly(s, k - 1);
      var m, s' := Sweep(s, k - 1), Sweep(s, k);
      assert s' == Clear(m, At(s, k - 1));
      forall p | 0 <= p < |s.procs| ensures SameProcess(s.procs[p], s'.procs[p]) {
        assert SameProcess(s.procs[p], m.procs[p]);
      }
    }
  }

  lemma AfterClockIsUsedOnly(s: State)
    requires |s.frames| > 0
    ensures UsedOnly(s, AfterClock(s))
  {
    SweepIsUsedOnly(s, |s.frames|);
    SweepIsUsedOnly(s, FirstTaken(s, 0));
  }

  lemma UsedOnlyPresent(s: State, s': State, p: nat, v: nat)
    requires UsedOnly(s, s')
    ensures s'.HasPage(p, v) <==> s.HasPage(p, v)
    ensures Present(s', p, v) <==> Present(s, p, v)
    ensures Swapped(s', p, v) <==> Swapped(s, p, v)
    ensures s.HasPage(p, v) ==> SameEntry(s.E(p, v), s'.E(p, v))
  {
    if p < |s.procs| { assert SameProcess(s.procs[p], s'.procs[p]); }
  }

  lemma UsedOnlyKeepsMapped(s: State, s': State, hole: int)
    requires UsedOnly(s, s') && Mapped(s, hole)
    ensures Mapped(s', hole)
  {
    forall p: nat, v: nat ensures EntryOk(s', hole, p, v) {
      UsedOnlyPresent(s, s', p, v);
      assert s.HasPage(p, v) ==> EntryOk(s, hole, p, v);
    }
    forall f | 0 <= f < |s'.frames| ensures FrameOk(s', hole, f) {
      assert FrameOk(s, hole, f) && SameFrame(s.frames[f], s'.frames[f]);
      UsedOnlyPresent(s, s', s.frames[f].owner, s.frames[f].vpn);
    }
  }

  lemma UsedOnlyKeepsPins(s: State, s': State)
    requires UsedOnly(s, s') && PinsOk(s)
    ensures PinsOk(s')
  {
    forall f | 0 <= f < |s'.frames| ensures FramePin(s', f) {
      assert FramePin(s, f) && SameFrame(s.frames[f], s'.frames[f]);
      if s.frames[f].owner < |s.procs| { assert SameProcess(s.procs[s.frames[f].owner], s'.procs[s.frames[f].owner]); }
    }
    forall p | 0 <= p < |s'.procs| ensures CallPin(s', p) {
      assert CallPin(s, p) && SameProcess(s.procs[p], s'.procs[p]);
      if Active(s, p) { UsedOnlyPresent(s, s', p, PageIndex(s.procs[p].call.t)); }
    }
  }

  lemma UsedOnlyKeepsSwap(s: State, s': State)
    requires UsedOnly(s, s') && SwapOk(s)
    ensures SwapOk(s')
  {
    forall p: nat, v: nat ensures Swapped(s', p, v) <==> Swapped(s, p, v) { UsedOnlyPresent(s, s', p, v); }
    forall k: nat | k < s'.numSwap ensures k in s'.freeSwap || Held(s', k) {
      if Held(s, k) {
        var p: nat, v: nat :| Swapped(s, p, v) && s.E(p, v).ppn == k;
        assert Swapped(s', p, v) && SameEntry(s.E(p, v), s'.E(p, v));
      }
    }
    hide Increasing, Held, Sized;
    forall p: nat, v: nat ensures SlotOk(s', p, v) {
      assert Swapped(s, p, v) ==> SlotOk(s, p, v);
      UsedOnlyPresent(s, s', p, v);
    }
    forall p: nat, v: nat, q: nat, w: nat ensures Alone(s', p, v, q, w) {
      assert Swapped(s, p, v) && Swapped(s, q, w) ==> Alone(s, p, v, q, w);
      UsedOnlyPresent(s, s', p, v);
      UsedOnlyPresent(s, s', q, w);
    }
    assert Sized(s') by { assert Sized(s); }
  }

  // ----- Calls and bytes that a section does not touch -----

  ghost predicate SameCalls(s: State, s': State)
  {
    && s'.log == s.log && |s'.procs| == |s.procs|
    && (forall p :: 0 <= p < |s.procs| ==> SameProcess(s.procs[p], s'.procs[p]))
  }

  lemma SameCallsKeepsCalls(s: State, s': State)
    requires SameCalls(s, s') && CallsOk(s)
    ensures CallsOk(s')
  {
    forall p | 0 <= p < |s'.procs| ensures CallOk(s', p) {
      assert CallOk(s, p) && SameProcess(s.procs[p], s'.procs[p]);
    }
  }

  /** A written page is in its frame or in its slot. */
  lemma DirtyIsSomewhere(s: State, hole: int, p: nat, v: nat)
    requires Mapped(s, hole) && SwapOk(s) && s.HasPage(p, v) && s.procs[p].live && s.E(p, v).dirty
    ensures Somewhere(s, p, v)
  {
    assert EntryOk(s, hole, p, v) && SlotOk(s, p, v) && Swapped(s, p, v) == !s.E(p, v).valid;
  }

  lemma UsedOnlyKeepsPages(s: State, s': State)
    requires UsedOnly(s, s') && Mapped(s, -1) && SwapOk(s)
    ensures KeepsPages(s, s') && SameCalls(s, s')
  {
    forall p: nat, v: nat ensures KeepsPage(s, s', p, v) {
      UsedOnlyPresent(s, s', p, v);
      if s.HasPage(p, v) && s.procs[p].live && s.E(p, v).dirty { DirtyIsSomewhere(s, -1, p, v); }
    }
    forall p: nat | p < |s'.procs| && s'.procs[p].live ensures p < |s.procs| && s.procs[p].live {
      assert SameProcess(s.procs[p], s'.procs[p]);
    }
  }

  // ----- Eviction -----

  /** Everything the paging sections keep while frame `hole` is between owners. */
  ghost predicate Between(s: State, hole: int)
  {
    Mapped(s, hole) && PinsOk(s) && SwapOk(s)
  }

  /** The frame is owned by a page that is not pinned. */
  ghost predicate Evictable(s: State, f: nat)
  {
    Between(s, -1) && f < |s.frames| && s.frames[f].owned && !s.frames[f].pinned
  }

  lemma EvictableHasOwner(s: State, f: nat)
    requires Evictable(s, f)
    ensures var fr := s.frames[f]; Present(s, fr.owner, fr.vpn) && s.E(fr.owner, fr.vpn).ppn == f
  {
    assert FrameOk(s, -1, f);
  }

  /** What eviction does, in terms of single pages, frames and slots. */
  ghost predicate Evicted(s: State, f: nat, s': State)
    requires f < |s.frames| && s.HasPage(s.frames[f].owner, s.frames[f].vpn)
  {
    var o, w := s.frames[f].owner, s.frames[f].vpn;
    var e := s.E(o, w);
    && SameCalls(s, s') && s'.frames == s.frames && s'.memory == s.memory
    && (forall p: nat, v: nat :: s'.HasPage(p, v) <==> s.HasPage(p, v))
    && (forall p: nat, v: nat :: s.HasPage(p, v) ==>
          s'.E(p, v) == if p == o && v == w then e.(ppn := if e.dirty then Slot(s) else e.ppn, valid := false) else s.E(p, v))
    && if e.dirty then
         && Slot(s) * PAGE <= |s.swap| && (f + 1) * PAGE <= |s.memory|
         && s'.swap == Splice(s.swap, Slot(s) * PAGE, PageOf(s.memory, f))
         && s'.numSwap == (if s.freeSwap == [] then s.numSwap + 1 else s.numSwap)
         && s'.freeSwap == (if s.freeSwap == [] then [] else s.freeSwap[1..])
       else s'.swap == s.swap && s'.numSwap == s.numSwap && s'.freeSwap == s.freeSwap
  }

  lemma EvictIsEvicted(s: State, f: nat)
    requires Evictable(s, f)
    ensures CanFree(s, f) && Evicted(s, f, Evict(s, f))
  {
    EvictableHasOwner(s, f);
    assert s.freeSwap != [] ==> s.freeSwap[0] in s.freeSwap;
    assert s.frames[f := s.frames[f].(pinned := false)] == s.frames;
  }

  lemma EvictedKeepsMapped(s: State, f: nat, s': State)
    requires Evictable(s, f) && s.HasPage(s.frames[f].owner, s.frames[f].vpn) && Evicted(s, f, s')
    ensures Mapped(s', f)
  {
    EvictableHasOwner(s, f);
    hide SwapOk, PinsOk;
    forall p: nat, v: nat ensures EntryOk(s', f, p, v) {
      assert s.HasPage(p, v) ==> EntryOk(s, -1, p, v);
      if p < |s.procs| { assert SameProcess(s.procs[p], s'.procs[p]); }
    }
    forall g | 0 <= g < |s'.frames| ensures FrameOk(s', f, g) {
      assert FrameOk(s, -1, g);
      if s.frames[g].owner < |s.procs| { assert SameProcess(s.procs[s.frames[g].owner], s'.procs[s.frames[g].owner]); }
    }
  }

  lemma EvictedKeepsPins(s: State, f: nat, s': State)
    requires Evictable(s, f) && s.HasPage(s.frames[f].owner, s.frames[f].vpn) && Evicted(s, f, s')
    ensures PinsOk(s')
  {
    hide SwapOk;
    EvictableHasOwner(s, f);
    forall g | 0 <= g < |s'.frames| ensures FramePin(s', g) {
      assert FramePin(s, g);
      if s.frames[g].owner < |s.procs| { assert SameProcess(s.procs[s.frames[g].owner], s'.procs[s.frames[g].owner]); }
    }
    forall p | 0 <= p < |s'.procs| ensures CallPin(s', p) {
      assert CallPin(s, p) && SameProcess(s.procs[p], s'.procs[p]);
    }
  }

  lemma IncreasingTail(q: seq<nat>)
    requires Increasing(q) && q != []
    ensures Increasing(q[1..]) && q[0] !in q[1..] && forall x :: x in q <==> x == q[0] || x in q[1..]
  {
  }

  /** The slot taken is below the new number of slots, no longer free, and nobody held it. */
  lemma SlotIsFree(s: State)
    requires SwapOk(s)
    ensures forall p: nat, v: nat :: Swapped(s, p, v) ==> s.E(p, v).ppn != Slot(s)
    ensures Slot(s) * PAGE <= |s.swap|
  {
    forall p: nat, v: nat | Swapped(s, p, v) ensures s.E(p, v).ppn != Slot(s) {
      assert SlotOk(s, p, v);
    }
    assert s.freeSwap != [] ==> s.freeSwap[0] in s.freeSwap;
  }

  lemma EvictedKeepsSwap(s: State, f: nat, s': State)
    requires Evictable(s, f) && s.HasPage(s.frames[f].owner, s.frames[f].vpn) && Evicted(s, f, s')
    ensures SwapOk(s')
  {
    hide Mapped, PinsOk;
    var o, w := s.frames[f].owner, s.frames[f].vpn;
    EvictableHasOwner(s, f);
    SlotIsFree(s);
    if s.freeSwap != [] { IncreasingTail(s.freeSwap); }
    assert Sized(s');
    forall p: nat, v: nat ensures Swapped(s', p, v) == if p == o && v == w then s.E(o, w).dirty else Swapped(s, p, v) {
    }
    forall p: nat, v: nat ensures SlotOk(s', p, v) {
      assert Swapped(s, p, v) ==> SlotOk(s, p, v);
    }
    forall p: nat, v: nat, q: nat, u: nat ensures Alone(s', p, v, q, u) {
      assert Swapped(s, p, v) && Swapped(s, q, u) ==> Alone(s, p, v, q, u);
    }
    forall k: nat | k < s'.numSwap ensures k in s'.freeSwap || Held(s', k) {
      if s.E(o, w).dirty && k == Slot(s) {
        assert Swapped(s', o, w);
      } else if k !in s'.freeSwap {
        assert k !in s.freeSwap && k < s.numSwap && Held(s, k);
        var p: nat, v: nat :| Swapped(s, p, v) && s.E(p, v).ppn == k;
        assert Swapped(s', p, v);
      }
    }
  }

  /** The evicted page keeps its bytes in its slot, and all other written pages stay. */
  lemma EvictedKeepsPages(s: State, f: nat, s': State)
    requires Evictable(s, f) && s.HasPage(s.frames[f].owner, s.frames[f].vpn) && Evicted(s, f, s')
    ensures KeepsPages(s, s')
  {
    EvictableHasOwner(s, f);
    SlotIsFree(s);
    hide PinsOk, Increasing;
    forall p: nat, v: nat ensures KeepsPage(s, s', p, v) {
      if s.HasPage(p, v) && s.procs[p].live && s.E(p, v).dirty && p < |s'.procs| && s'.procs[p].live {
        DirtyIsSomewhere(s, -1, p, v);
        if s.E(s.frames[f].owner, s.frames[f].vpn).dirty {
          if Swapped(s, p, v) {
            SplicePage(s.swap, Slot(s), PageOf(s.memory, f), s.E(p, v).ppn);
          }
          SplicePage(s.swap, Slot(s), PageOf(s.memory, f), Slot(s));
        }
      }
    }
    forall p: nat | p < |s'.procs| && s'.procs[p].live ensures p < |s.procs| && s.procs[p].live {
      assert SameProcess(s.procs[p], s'.procs[p]);
    }
  }

  // ----- Filling a frame -----

  /** Frame `f` is free for the absent page `v` of process `p`. */
  ghost predicate Fillable(s: State, f: nat, p: nat, v: nat)
  {
    && Between(s, f) && f < |s.frames| && !s.frames[f].pinned
    && s.HasPage(p, v) && s.procs[p].live && !s.E(p, v).valid
  }

  ghost predicate Filled(s: State, f: nat, p: nat, v: nat, page: seq<Byte>, s': State)
    requires s.HasPage(p, v) && f < |s.frames|
  {
    var e := s.E(p, v);
    && SameCalls(s, s') && s'.swap == s.swap && s'.numSwap == s.numSwap
    && s'.frames == s.frames[f := Frame(true, true, false, p, v)]
    && (forall q: nat, w: nat :: s'.HasPage(q, w) <==> s.HasPage(q, w))
    && (forall q: nat, w: nat :: s.HasPage(q, w) ==>
          s'.E(q, w) == if q == p && w == v then e.(ppn := f, used := true, valid := true) else s.E(q, w))
    && f * PAGE <= |s.memory| && s'.memory == Splice(s.memory, f * PAGE, page) && |page| == PAGE
    && (if e.dirty then 0 <= e.ppn && (e.ppn + 1) * PAGE <= |s.swap| && page == PageOf(s.swap, e.ppn)
                        && s'.freeSwap == Insert(s.freeSwap, e.ppn)
        else s'.freeSwap == s.freeSwap)
  }

  lemma FillIsFilled(s: State, f: nat, p: nat, v: nat, init: seq<Byte>)
    requires Fillable(s, f, p, v) && |init| == PAGE
    ensures s.E(p, v).dirty ==> 0 <= s.E(p, v).ppn < s.numSwap
    ensures var page := if s.E(p, v).dirty then PageOf(s.swap, s.E(p, v).ppn) else init;
      Filled(s, f, p, v, page, Initialize(Assign(s, f, p, v), f, p, v, init))
  {
    assert Swapped(s, p, v) == s.E(p, v).dirty && SlotOk(s, p, v);
  }

  lemma FilledKeepsMapped(s: State, f: nat, p: nat, v: nat, page: seq<Byte>, s': State)
    requires Fillable(s, f, p, v) && Filled(s, f, p, v, page, s')
    ensures Mapped(s', -1)
  {
    hide SwapOk, PinsOk, Insert;
    forall q: nat, w: nat ensures EntryOk(s', -1, q, w) {
      assert s.HasPage(q, w) ==> EntryOk(s, f, q, w);
      if q < |s.procs| { assert SameProcess(s.procs[q], s'.procs[q]); }
    }
    assert SameProcess(s.procs[p], s'.procs[p]);
    forall g | 0 <= g < |s'.frames| ensures FrameOk(s', -1, g) {
      assert FrameOk(s, f, g);
      if s.frames[g].owner < |s.procs| { assert SameProcess(s.procs[s.frames[g].owner], s'.procs[s.frames[g].owner]); }
    }
  }

  lemma FilledKeepsPins(s: State, f: nat, p: nat, v: nat, page: seq<Byte>, s': State)
    requires Fillable(s, f, p, v) && Filled(s, f, p, v, page, s')
    ensures PinsOk(s')
  {
    hide SwapOk, Insert;
    forall g | 0 <= g < |s'.frames| ensures FramePin(s', g) {
      assert FramePin(s, g);
      if s.frames[g].owner < |s.procs| { assert SameProcess(s.procs[s.frames[g].owner], s'.procs[s.frames[g].owner]); }
    }
    forall q | 0 <= q < |s'.procs| ensures CallPin(s', q) {
      assert CallPin(s, q) && SameProcess(s.procs[q], s'.procs[q]);
    }
  }

  lemma {:induction false} InsertIncreasing(q: seq<nat>, x: nat)
    requires Increasing(q) && x !in q
    ensures Increasing(Insert(q, x))
  {
    if q != [] && x > q[0] {
      IncreasingTail(q);
      InsertIncreasing(q[1..], x);
      var r := Insert(q[1..], x);
      forall j | 0 <= j < |r| ensures q[0] < r[j] { assert r[j] in r; }
    }
  }

  lemma FilledKeepsSwap(s: State, f: nat, p: nat, v: nat, page: seq<Byte>, s': State)
    requires Fillable(s, f, p, v) && Filled(s, f, p, v, page, s')
    ensures SwapOk(s')
  {
    hide Mapped, PinsOk, Insert;
    var slot := s.E(p, v).ppn;
    assert Swapped(s, p, v) == s.E(p, v).dirty && SlotOk(s, p, v);
    if s.E(p, v).dirty { InsertIncreasing(s.freeSwap, slot); }
    assert forall y :: y in s'.freeSwap <==> (s.E(p, v).dirty && y == slot) || y in s.freeSwap;
    assert Sized(s');
    forall q: nat, w: nat ensures Swapped(s', q, w) == (Swapped(s, q, w) && !(q == p && w == v)) {
    }
    forall q: nat, w: nat ensures SlotOk(s', q, w) {
      assert Swapped(s, q, w) ==> SlotOk(s, q, w) && (s.E(p, v).dirty ==> Alone(s, p, v, q, w));
    }
    forall q: nat, w: nat, q2: nat, w2: nat ensures Alone(s', q, w, q2, w2) {
      assert Swapped(s, q, w) && Swapped(s, q2, w2) ==> Alone(s, q, w, q2, w2);
    }
    forall k: nat | k < s'.numSwap ensures k in s'.freeSwap || Held(s', k) {
      if k !in s'.freeSwap {
        assert k !in s.freeSwap && Held(s, k);
        var q: nat, w: nat :| Swapped(s, q, w) && s.E(q, w).ppn == k;
        assert Swapped(s', q, w);
      }
    }
  }

  /** A page that comes back has the bytes it left with, and no other written page changes. */
  lemma FilledKeepsPages(s: State, f: nat, p: nat, v: nat, page: seq<Byte>, s': State)
    requires Fillable(s, f, p, v) && Filled(s, f, p, v, page, s')
    ensures KeepsPages(s, s')
  {
    hide PinsOk, Insert, Increasing;
    forall q: nat, w: nat ensures KeepsPage(s, s', q, w) {
      if s.HasPage(q, w) && s.procs[q].live && s.E(q, w).dirty && q < |s'.procs| && s'.procs[q].live {
        DirtyIsSomewhere(s, f, q, w);
        assert EntryOk(s, f, q, w);
        if q == p && w == v {
          SplicePage(s.memory, f, page, f);
        } else if s.E(q, w).valid {
          SplicePage(s.memory, f, page, s.E(q, w).ppn);
        }
      }
    }
    forall q: nat | q < |s'.procs| && s'.procs[q].live ensures q < |s.procs| && s.procs[q].live {
      assert SameProcess(s.procs[q], s'.procs[q]);
    }
  }

  // ----- The whole fault -----

  lemma KeepsPagesTrans(a: State, b: State, c: State)
    requires KeepsPages(a, b) && KeepsPages(b, c) && SameCalls(a, b) && SameCalls(b, c)
    requires forall p: nat, v: nat :: b.HasPage(p, v) <==> a.HasPage(p, v)
    ensures KeepsPages(a, c) && SameCalls(a, c)
  {
    forall p: nat, v: nat ensures KeepsPage(a, c, p, v) {
      if p < |a.procs| { assert SameProcess(a.procs[p], b.procs[p]) && SameProcess(b.procs[p], c.procs[p]); }
      if a.HasPage(p, v) { assert KeepsPage(a, b, p, v) && KeepsPage(b, c, p, v); }
    }
    forall p | 0 <= p < |a.procs| ensures SameProcess(a.procs[p], c.procs[p]) {
      assert SameProcess(a.procs[p], b.procs[p]) && SameProcess(b.procs[p], c.procs[p]);
    }
  }

  /** The clock takes a frame that is free of an owner or not pinned. */
  lemma VictimIsFree(s: State)
    requires |s.frames| > 0 && Victim(s).Some?
    ensures var fr := s.frames[Victim(s).value]; !fr.owned || !fr.pinned
  {
  }

  /** Taking a victim leaves its frame between owners, and every written page whole. */
  lemma FreedIsBetween(s: State)
    requires Between(s, -1) && Victim(s).Some?
    ensures var f := Victim(s).value;
      && CanFree(AfterClock(s), f) && Between(Freed(s), f) && |Freed(s).frames| == |s.frames|
      && !Freed(s).frames[f].pinned && KeepsPages(s, Freed(s)) && SameCalls(s, Freed(s))
      && forall p: nat, v: nat :: (Freed(s).HasPage(p, v) <==> s.HasPage(p, v))
           && (s.HasPage(p, v) && !s.E(p, v).valid ==> Freed(s).E(p, v) == s.E(p, v).(used := Freed(s).E(p, v).used))
  {
    var f, m := Victim(s).value, AfterClock(s);
    VictimIsFree(s);
    AfterClockIsUsedOnly(s);
    hide AfterClock, Victim;
    UsedOnlyKeepsMapped(s, m, -1);
    UsedOnlyKeepsPins(s, m);
    UsedOnlyKeepsSwap(s, m);
    UsedOnlyKeepsPages(s, m);
    assert SameFrame(s.frames[f], m.frames[f]);
    forall p: nat, v: nat ensures (m.HasPage(p, v) <==> s.HasPage(p, v))
      && (s.HasPage(p, v) ==> SameEntry(s.E(p, v), m.E(p, v))) {
      UsedOnlyPresent(s, m, p, v);
    }
    if m.frames[f].owned {
      EvictIsEvicted(m, f);
      EvictableHasOwner(m, f);
      var s' := Freed(s);
      assert s' == Evict(m, f);
      hide Evict;
      EvictedKeepsMapped(m, f, s');
      EvictedKeepsPins(m, f, s');
      EvictedKeepsSwap(m, f, s');
      EvictedKeepsPages(m, f, s');
      hide Between, KeepsPages;
      KeepsPagesTrans(s, m, s');
    } else {
      OpenHole(m, f);
    }
  }

  /** A frame without an owner holds no page. */
  lemma OpenHole(s: State, f: nat)
    requires Between(s, -1) && f < |s.frames| && !s.frames[f].owned
    ensures Between(s, f) && !s.frames[f].pinned
  {
    assert FramePin(s, f);
    forall p: nat, v: nat ensures EntryOk(s, f, p, v) {
      assert s.HasPage(p, v) ==> EntryOk(s, -1, p, v);
    }
    forall g | 0 <= g < |s.frames| ensures FrameOk(s, f, g) { assert FrameOk(s, -1, g); }
  }

  /** A fault on an absent page: unless every frame is pinned the page is present after it, and
      everything else is kept. */
  lemma FaultKeeps(s: State, p: nat, v: nat, init: seq<Byte>)
    requires Between(s, -1) && s.HasPage(p, v) && s.procs[p].live && !s.E(p, v).valid && |init| == PAGE
    ensures CanFault(s, p, v, init)
    ensures var s' := Fault(s, p, v, init);
      && Between(s', -1) && KeepsPages(s, s') && SameCalls(s, s') && s'.HasPage(p, v)
      && (Victim(s).Some? ==> s'.E(p, v).valid && s'.E(p, v).dirty == s.E(p, v).dirty)
  {
    if Victim(s) == None {
      AfterClockIsUsedOnly(s);
      var m := AfterClock(s);
      hide AfterClock;
      UsedOnlyKeepsMapped(s, m, -1);
      UsedOnlyKeepsPins(s, m);
      UsedOnlyKeepsSwap(s, m);
      UsedOnlyKeepsPages(s, m);
      UsedOnlyPresent(s, m, p, v);
    } else {
      var f := Victim(s).value;
      FreedIsBetween(s);
      var b := Freed(s);
      hide Freed, Victim;
      assert SameProcess(s.procs[p], b.procs[p]) && b.E(p, v).valid == false;
      FillIsFilled(b, f, p, v, init);
      var s' := Fault(s, p, v, init);
      var page := if b.E(p, v).dirty then PageOf(b.swap, b.E(p, v).ppn) else init;
      assert Filled(b, f, p, v, page, s');
      hide Fault;
      FilledKeepsMapped(b, f, p, v, page, s');
      FilledKeepsPins(b, f, p, v, page, s');
      FilledKeepsSwap(b, f, p, v, page, s');
      FilledKeepsPages(b, f, p, v, page, s');
      hide Between, KeepsPages;
      KeepsPagesTrans(s, b, s');
    }
  }
}
