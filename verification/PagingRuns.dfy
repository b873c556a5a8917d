/** Runs of demand paging: every section of every process keeps the invariant. */
module PagingRuns {
  import opened Helpers
  import opened Paging
  import opened PagingSafety

  // ----- Pinning -----

  /** Process `p` has its page present and is about to pin it. */
  ghost predicate Pinnable(s: State, p: nat, v: nat, t: Transfer)
  {
    && Between(s, -1) && p < |s.procs| && s.procs[p].call == Busy(t, Verify) && PageIndex(t) == v && Present(s, p, v)
    && 0 <= s.E(p, v).ppn < |s.frames|
  }

  lemma PinKeepsMapped(s: State, p: nat, v: nat, t: Transfer)
    requires Pinnable(s, p, v, t)
    ensures Mapped(Pin(s, p, v, t), -1)
  {
    var s' := Pin(s, p, v, t);
    forall q: nat, w: nat ensures EntryOk(s', -1, q, w) {
      assert s.HasPage(q, w) ==> EntryOk(s, -1, q, w);
    }
    forall g | 0 <= g < |s'.frames| ensures FrameOk(s', -1, g) { assert FrameOk(s, -1, g); }
  }

  lemma PinKeepsPins(s: State, p: nat, v: nat, t: Transfer)
    requires Pinnable(s, p, v, t)
    ensures PinsOk(Pin(s, p, v, t))
  {
    var s' := Pin(s, p, v, t);
    assert EntryOk(s, -1, p, v);
    hide SwapOk;
    forall g | 0 <= g < |s'.frames| ensures FramePin(s', g) { assert FramePin(s, g); }
    forall q | 0 <= q < |s'.procs| ensures CallPin(s', q) { assert CallPin(s, q); }
  }

  lemma PinKeepsSwap(s: State, p: nat, v: nat, t: Transfer)
    requires Pinnable(s, p, v, t)
    ensures SwapOk(Pin(s, p, v, t))
  {
    var s' := Pin(s, p, v, t);
    hide Mapped, PinsOk, Pin;
    PinIsLocal(s, p, v, t);
    SameSlotsKeepSwap(s, s');
  }

  lemma PinIsLocal(s: State, p: nat, v: nat, t: Transfer)
    requires Pinnable(s, p, v, t)
    ensures var s' := Pin(s, p, v, t); SameSlots(s, s') && KeepsPages(s, s')
  {
    var s' := Pin(s, p, v, t);
    hide PinsOk;
    forall q: nat, w: nat ensures KeepsPage(s, s', q, w) {
      if s.HasPage(q, w) && s.procs[q].live && s.E(q, w).dirty { DirtyIsSomewhere(s, -1, q, w); }
    }
  }

  // ----- Sections that leave the swap alone -----

  ghost predicate SameSlots(s: State, s': State)
  {
    && s'.freeSwap == s.freeSwap && s'.numSwap == s.numSwap && s'.swap == s.swap
    && |s'.memory| == |s.memory| && |s'.frames| == |s.frames|
    && (forall p: nat, v: nat :: Swapped(s', p, v) <==> Swapped(s, p, v))
    && (forall p: nat, v: nat :: Swapped(s, p, v) ==> s'.E(p, v).ppn == s.E(p, v).ppn)
  }

  lemma SameSlotsKeepSwap(s: State, s': State)
    requires SwapOk(s) && SameSlots(s, s')
    ensures SwapOk(s')
  {
    forall p: nat, v: nat ensures SlotOk(s', p, v) { assert Swapped(s, p, v) ==> SlotOk(s, p, v); }
    forall p: nat, v: nat, q: nat, w: nat ensures Alone(s', p, v, q, w) {
      assert Swapped(s, p, v) && Swapped(s, q, w) ==> Alone(s, p, v, q, w);
    }
    forall k: nat | k < s'.numSwap ensures k in s'.freeSwap || Held(s', k) {
      if k !in s.freeSwap {
        assert Held(s, k);
        var p: nat, v: nat :| Swapped(s, p, v) && s.E(p, v).ppn == k;
        assert Swapped(s', p, v);
      }
    }
  }

  /** Only process `p`'s call differs among the calls. */
  ghost predicate OtherCallsSame(s: State, s': State, p: nat)
  {
    && |s'.procs| == |s.procs|
    && (forall q :: 0 <= q < |s.procs| && q != p ==> SameProcess(s.procs[q], s'.procs[q]))
  }

  lemma OtherCallsKeep(s: State, s': State, p: nat)
    requires CallsOk(s) && OtherCallsSame(s, s', p) && p < |s.procs| && CallOk(s', p)
    requires forall q: nat, a: int {:trigger Latest(s'.log, q, a)} :: q != p ==> Latest(s'.log, q, a) == Latest(s.log, q, a)
    ensures CallsOk(s')
  {
    forall q: nat | q < |s'.procs| ensures CallOk(s', q) {
      if q != p {
        assert CallOk(s, q) && SameProcess(s.procs[q], s'.procs[q]);
        var c := s.procs[q].call;
        if !c.Idle? && !Refused(c.t, |s.procs[q].table|) {
          forall i | 0 <= i < Copied(c) && i < c.t.length ensures Agrees(s'.log, q, c.t, i) {
            assert Agrees(s.log, q, c.t, i) && Latest(s'.log, q, c.t.vaddr + i) == Latest(s.log, q, c.t.vaddr + i);
          }
        }
      }
    }
  }

  // ----- Copying -----

  /** The chunk of a pinned transfer lies in its page, which lies in its frame. */
  ghost predicate Copyable(s: State, p: nat)
  {
    Good(s) && Active(s, p) && s.procs[p].call.stage == Copy
  }

  lemma ChunkFits(s: State, p: nat)
    requires Good(s) && Active(s, p)
    ensures CanCopy(s, p)
    ensures var t := s.procs[p].call.t;
      && 0 <= Chunk(t) <= t.length - t.n && PageOffset(t) + Chunk(t) <= PAGE && (t.n < t.length ==> Chunk(t) > 0)
      && Present(s, p, PageIndex(t)) && s.E(p, PageIndex(t)).ppn < |s.frames|
      && (s.E(p, PageIndex(t)).ppn + 1) * PAGE <= |s.memory|
  {
    assert CallPin(s, p) && CallOk(s, p);
  }

  lemma LatestAppend(log: seq<Write>, w: Write, p: nat, a: int)
    ensures Latest(log + [w], p, a) ==
            if w.p == p && w.at <= a < w.at + |w.bytes| then Some(w.bytes[a - w.at]) else Latest(log, p, a)
  {
    assert (log + [w])[..|log|] == log;
  }

  /** Copying changes neither tables nor frames. */
  lemma CopyKeepsTables(s: State, p: nat)
    requires Copyable(s, p) && CanCopy(s, p)
    ensures var s' := CopyStep(s, p); Mapped(s', -1) && PinsOk(s') && SwapOk(s')
  {
    var s' := CopyStep(s, p);
    ChunkFits(s, p);
    hide BytesOk, CallsOk;
    assert forall q: nat, w: nat :: s'.HasPage(q, w) <==> s.HasPage(q, w);
    assert forall q: nat, w: nat :: s.HasPage(q, w) ==> s'.E(q, w) == s.E(q, w);
    CopyFrame(s, s', p);
  }

  /** The same tables and frames, and a call that stays at the same page. */
  lemma CopyFrame(s: State, s': State, p: nat)
    requires Between(s, -1) && p < |s.procs| == |s'.procs| && Active(s, p) && Active(s', p)
    requires s'.frames == s.frames && |s'.memory| == |s.memory| && s'.swap == s.swap
    requires s'.freeSwap == s.freeSwap && s'.numSwap == s.numSwap
    requires forall q: nat, w: nat :: s'.HasPage(q, w) <==> s.HasPage(q, w)
    requires forall q: nat, w: nat :: s.HasPage(q, w) ==> s'.E(q, w) == s.E(q, w)
    requires forall q :: 0 <= q < |s.procs| ==> s'.procs[q].live == s.procs[q].live && (q != p ==> s'.procs[q].call == s.procs[q].call)
    requires PageIndex(s'.procs[p].call.t) == PageIndex(s.procs[p].call.t) && s'.procs[p].call.t.write == s.procs[p].call.t.write
    ensures Between(s', -1)
  {
    forall q: nat, w: nat ensures EntryOk(s', -1, q, w) { assert s.HasPage(q, w) ==> EntryOk(s, -1, q, w); }
    forall g | 0 <= g < |s'.frames| ensures FrameOk(s', -1, g) && FramePin(s', g) {
      assert FrameOk(s, -1, g) && FramePin(s, g);
    }
    forall q | 0 <= q < |s'.procs| ensures CallPin(s', q) { assert CallPin(s, q); }
    hide Mapped, PinsOk;
    SameSlotsKeepSwap(s, s');
  }

  /** A chunk stored inside one page, seen byte by byte. */
  lemma SpliceInPage(store: seq<Byte>, f: nat, off: nat, bytes: seq<Byte>, g: nat, r: nat)
    requires (f + 1) * PAGE <= |store| && (g + 1) * PAGE <= |store| && off + |bytes| <= PAGE && r < PAGE
    ensures |Splice(store, f * PAGE + off, bytes)| == |store|
    ensures PageOf(Splice(store, f * PAGE + off, bytes), g)[r] ==
            if g == f && off <= r < off + |bytes| then bytes[r - off] else PageOf(store, g)[r]
  {
    SpliceAt(store, f * PAGE + off, bytes, g * PAGE + r);
  }

  /** The addresses of a chunk inside one page. */
  lemma AddressInPage(x: nat, k: nat, a: nat)
    requires x % PAGE + k <= PAGE
    ensures x <= a < x + k <==> a / PAGE == x / PAGE && x % PAGE <= a % PAGE < x % PAGE + k
    ensures x <= a < x + k ==> a % PAGE - x % PAGE == a - x
  {
  }

  /** A write stores its chunk in the frame of its page and in the log. */
  ghost predicate Stored(s: State, p: nat, f: nat, x: nat, bytes: seq<Byte>, s': State)
  {
    && |s'.procs| == |s.procs| && x % PAGE + |bytes| <= PAGE && (f + 1) * PAGE <= |s.memory|
    && Present(s, p, x / PAGE) && s.E(p, x / PAGE).ppn == f && s.E(p, x / PAGE).dirty
    && s'.log == s.log + [Write(p, x, bytes)]
    && s'.memory == Splice(s.memory, f * PAGE + x % PAGE, bytes) && s'.swap == s.swap
    && (forall q: nat :: q < |s.procs| ==> s'.procs[q].live == s.procs[q].live)
    && (forall q: nat, w: nat :: s'.HasPage(q, w) <==> s.HasPage(q, w))
    && (forall q: nat, w: nat :: s.HasPage(q, w) ==> s'.E(q, w) == s.E(q, w))
  }

  lemma StoredKeepsByte(s: State, p: nat, f: nat, x: nat, bytes: seq<Byte>, s': State, q: nat, a: nat)
    requires Stored(s, p, f, x, bytes, s') && Mapped(s, -1) && |s.memory| == |s.frames| * PAGE && ByteOk(s, q, a)
    ensures ByteOk(s', q, a)
  {
    hide Splice, PageOf, Latest;
    var v := a / PAGE;
    LatestAppend(s.log, Write(p, x, bytes), q, a);
    AddressInPage(x, |bytes|, a);
    assert EntryOk(s, -1, p, x / PAGE);
    if s.HasPage(q, v) && s.procs[q].live && s.E(q, v).valid {
      assert EntryOk(s, -1, q, v);
      hide Mapped;
      var g := s.E(q, v).ppn;
      SpliceInPage(s.memory, f, x % PAGE, bytes, g, a % PAGE);
    }
  }

  lemma WriteIsStored(s: State, p: nat)
    requires Copyable(s, p) && CanCopy(s, p) && s.procs[p].call.t.write
    ensures 0 <= Chunk(s.procs[p].call.t) <= s.procs[p].call.t.length - s.procs[p].call.t.n
    ensures var t := s.procs[p].call.t;
      Stored(s, p, s.E(p, PageIndex(t)).ppn, t.vaddr + t.n, t.data[t.offset + t.n..t.offset + t.n + Chunk(t)], CopyStep(s, p))
  {
    ChunkFits(s, p);
    assert CallPin(s, p);
    hide Good, Chunk, Splice;
  }

  lemma WriteKeepsBytes(s: State, p: nat)
    requires Copyable(s, p) && CanCopy(s, p) && s.procs[p].call.t.write
    ensures BytesOk(CopyStep(s, p))
  {
    WriteIsStored(s, p);
    var t, s' := s.procs[p].call.t, CopyStep(s, p);
    hide CopyStep, Stored, ByteOk;
    forall q: nat, a: nat ensures ByteOk(s', q, a) {
      StoredKeepsByte(s, p, s.E(p, PageIndex(t)).ppn, t.vaddr + t.n, t.data[t.offset + t.n..t.offset + t.n + Chunk(t)], s', q, a);
    }
  }

  lemma WriteAgrees(log: seq<Write>, p: nat, t: Transfer, k: nat, i: int)
    requires t.write && 0 <= t.vaddr && 0 <= t.offset && t.n + k <= t.length && t.offset + t.length <= |t.data| && 0 <= i < t.n + k
    requires i < t.n ==> Agrees(log, p, t, i)
    ensures Agrees(log + [Write(p, t.vaddr + t.n, t.data[t.offset + t.n..t.offset + t.n + k])], p, t, i)
  {
    LatestAppend(log, Write(p, t.vaddr + t.n, t.data[t.offset + t.n..t.offset + t.n + k]), p, t.vaddr + i);
  }

  /** The bytes that a read takes from a frame. */
  lemma SliceOfPage(store: seq<Byte>, f: nat, off: nat, k: nat, j: nat)
    requires (f + 1) * PAGE <= |store| && off + k <= PAGE && j < k
    ensures store[f * PAGE + off..f * PAGE + off + k][j] == PageOf(store, f)[off + j]
  {
  }

  /** The array of a read once `bytes` are copied into it. */
  function WithRead(t: Transfer, bytes: seq<Byte>): Transfer
    requires 0 <= t.offset && t.offset + t.n <= |t.data|
  {
    t.(data := Splice(t.data, t.offset + t.n, bytes))
  }

  lemma ReadKeepsAgreement(log: seq<Write>, p: nat, t: Transfer, bytes: seq<Byte>, i: int)
    requires !t.write && 0 <= t.offset && t.offset + t.length <= |t.data| && t.n + |bytes| <= t.length
    requires 0 <= i < t.n && Agrees(log, p, t, i)
    ensures |WithRead(t, bytes).data| == |t.data| && Agrees(log, p, WithRead(t, bytes), i)
  {
    SpliceAt(t.data, t.offset + t.n, bytes, t.offset + i);
  }

  lemma AddressOf(v: nat, r: nat)
    requires r < PAGE
    ensures (v * PAGE + r) / PAGE == v && (v * PAGE + r) % PAGE == r
  {
  }

  lemma StoredByte(s: State, p: nat, v: nat, r: nat)
    requires Present(s, p, v) && r < PAGE && ByteOk(s, p, v * PAGE + r) && Latest(s.log, p, v * PAGE + r).Some?
    ensures 0 <= s.E(p, v).ppn && (s.E(p, v).ppn + 1) * PAGE <= |s.memory|
    ensures PageOf(s.memory, s.E(p, v).ppn)[r] == Latest(s.log, p, v * PAGE + r).value
  {
    AddressOf(v, r);
    hide PageOf, Latest;
  }

  /** A byte that a read takes from its frame is the latest one stored at its address. */
  lemma ReadIsLatest(s: State, p: nat, v: nat, off: nat, f: nat, bytes: seq<Byte>, j: nat)
    requires Present(s, p, v) && s.E(p, v).ppn == f && (f + 1) * PAGE <= |s.memory|
    requires off + |bytes| <= PAGE && j < |bytes| && ByteOk(s, p, v * PAGE + (off + j))
    requires bytes == s.memory[f * PAGE + off..f * PAGE + off + |bytes|]
    ensures Latest(s.log, p, v * PAGE + (off + j)).Some? ==> Latest(s.log, p, v * PAGE + (off + j)).value == bytes[j]
  {
    hide PageOf, Latest, ByteOk;
    if Latest(s.log, p, v * PAGE + (off + j)).Some? { StoredByte(s, p, v, off + j); }
    SliceOfPage(s.memory, f, off, |bytes|, j);
  }

  lemma ReadAgrees(log: seq<Write>, p: nat, t: Transfer, bytes: seq<Byte>, i: int)
    requires !t.write && 0 <= t.offset && t.offset + t.length <= |t.data|
    requires t.n + |bytes| <= t.length && t.n <= i < t.n + |bytes|
    requires Latest(log, p, t.vaddr + i).Some? ==> Latest(log, p, t.vaddr + i).value == bytes[i - t.n]
    ensures |WithRead(t, bytes).data| == |t.data| && Agrees(log, p, WithRead(t, bytes), i)
  {
    hide Latest;
    SpliceAt(t.data, t.offset + t.n, bytes, t.offset + i);
  }

  /** The bytes of a chunk are the latest ones stored at their addresses. */
  lemma ChunkIsLatest(s: State, p: nat, t: Transfer, f: nat, bytes: seq<Byte>, i: int)
    requires 0 <= t.vaddr && t.n <= i < t.n + |bytes| && PageOffset(t) + |bytes| <= PAGE
    requires Present(s, p, PageIndex(t)) && s.E(p, PageIndex(t)).ppn == f && (f + 1) * PAGE <= |s.memory|
    requires bytes == s.memory[f * PAGE + PageOffset(t)..f * PAGE + PageOffset(t) + |bytes|] && ByteOk(s, p, t.vaddr + i)
    ensures Latest(s.log, p, t.vaddr + i).Some? ==> Latest(s.log, p, t.vaddr + i).value == bytes[i - t.n]
  {
    hide Latest, ByteOk, Present;
    ChunkAddress(t, i);
    ReadIsLatest(s, p, PageIndex(t), PageOffset(t), f, bytes, i - t.n);
  }

  lemma ChunkAddress(t: Transfer, i: int)
    requires 0 <= t.vaddr
    ensures 0 <= PageIndex(t) && t.vaddr + i == PageIndex(t) * PAGE + (PageOffset(t) + (i - t.n))
  {
  }

  /** When its chunk is copied, a transfer is as good as before. */
  lemma CopiedIsFine(log: seq<Write>, p: nat, numPages: nat, t: Transfer, log': seq<Write>, t': Transfer)
    requires CallFine(log, p, numPages, Busy(t, Copy)) && t' == t.(data := t'.data) && |t'.data| == |t.data|
    requires !Refused(t, numPages) && 0 <= Chunk(t) <= t.length - t.n
    requires forall i :: 0 <= i < t.n + Chunk(t) ==> Agrees(log', p, t', i)
    ensures CallFine(log', p, numPages, Busy(t', Clean))
  {
  }

  lemma CleanedIsFine(log: seq<Write>, p: nat, numPages: nat, t: Transfer, t': Transfer)
    requires CallFine(log, p, numPages, Busy(t, Clean)) && t' == t.(n := t.n + Chunk(t))
    requires 0 <= Chunk(t) <= t.length - t.n && PageIndex(t) < numPages && PageOffset(t) + Chunk(t) <= PAGE
    ensures CallFine(log, p, numPages, if t'.n < t'.length then Busy(t', Verify) else Returned(t', t'.n))
  {
    if !Refused(t, numPages) {
      forall i | 0 <= i < t'.n && i < t'.length ensures Agrees(log, p, t', i) { assert Agrees(log, p, t, i); }
    }
  }

  /** What a copy adds to the log, and what becomes of the transfer. */
  lemma CopyEffect(s: State, p: nat)
    requires Copyable(s, p) && CanCopy(s, p)
    ensures var t := s.procs[p].call.t; 0 <= Chunk(t) <= t.length - t.n && 0 <= s.E(p, PageIndex(t)).ppn
    ensures var s', t := CopyStep(s, p), s.procs[p].call.t;
      var at := s.E(p, PageIndex(t)).ppn * PAGE + PageOffset(t);
      && |s'.procs| == |s.procs| && |s'.procs[p].table| == |s.procs[p].table| && at + Chunk(t) <= |s.memory|
      && (t.write ==> s'.log == s.log + [Write(p, t.vaddr + t.n, t.data[t.offset + t.n..t.offset + t.n + Chunk(t)])]
                      && s'.procs[p].call == Busy(t, Clean))
      && (!t.write ==> s'.log == s.log && s'.procs[p].call == Busy(WithRead(t, s.memory[at..at + Chunk(t)]), Clean))
  {
    ChunkFits(s, p);
    hide Good, Chunk, Splice;
  }

  lemma WriteKeepsCall(log: seq<Write>, p: nat, n: nat, t: Transfer)
    requires t.write && CallFine(log, p, n, Busy(t, Copy)) && !Refused(t, n) && 0 <= Chunk(t) <= t.length - t.n
    ensures CallFine(log + [Write(p, t.vaddr + t.n, t.data[t.offset + t.n..t.offset + t.n + Chunk(t)])], p, n, Busy(t, Clean))
  {
    var k := Chunk(t);
    var log' := log + [Write(p, t.vaddr + t.n, t.data[t.offset + t.n..t.offset + t.n + k])];
    CopiedAgrees(log, p, n, t);
    hide Chunk, CallFine, Agrees;
    forall i | 0 <= i < t.n + k ensures Agrees(log', p, t, i) { WriteAgrees(log, p, t, k, i); }
    CopiedIsFine(log, p, n, t, log', t);
  }

  /** Byte `i` of the transfer, in this chunk, is the latest one stored at its address. */
  predicate Current(log: seq<Write>, p: nat, t: Transfer, bytes: seq<Byte>, i: int)
    requires t.n <= i < t.n + |bytes|
  {
    var b := Latest(log, p, t.vaddr + i);
    b.Some? ==> b.value == bytes[i - t.n]
  }

  lemma ReadKeepsCall(log: seq<Write>, p: nat, n: nat, t: Transfer, bytes: seq<Byte>)
    requires !t.write && CallFine(log, p, n, Busy(t, Copy)) && !Refused(t, n) && |bytes| == Chunk(t) <= t.length - t.n
    requires forall i :: t.n <= i < t.n + |bytes| ==> Current(log, p, t, bytes, i)
    ensures CallFine(log, p, n, Busy(WithRead(t, bytes), Clean))
  {
    CopiedAgrees(log, p, n, t);
    var t' := WithRead(t, bytes);
    assert t' == t.(data := t'.data) && |t'.data| == |t.data|;
    hide Chunk, CallFine, Agrees, WithRead, Latest;
    forall i | 0 <= i < t.n + |bytes| ensures Agrees(log, p, t', i) {
      if i < t.n {
        ReadKeepsAgreement(log, p, t, bytes, i);
      } else {
        assert Current(log, p, t, bytes, i);
        ReadAgrees(log, p, t, bytes, i);
      }
    }
    CopiedIsFine(log, p, n, t, log, t');
  }

  lemma ReadIsCurrent(s: State, p: nat, t: Transfer, f: nat, bytes: seq<Byte>)
    requires 0 <= t.vaddr && BytesOk(s) && PageOffset(t) + |bytes| <= PAGE
    requires 0 <= PageIndex(t) && Present(s, p, PageIndex(t)) && s.E(p, PageIndex(t)).ppn == f && (f + 1) * PAGE <= |s.memory|
    requires bytes == s.memory[f * PAGE + PageOffset(t)..f * PAGE + PageOffset(t) + |bytes|]
    ensures forall i :: t.n <= i < t.n + |bytes| ==> Current(s.log, p, t, bytes, i)
  {
    hide Present, PageOffset, PageIndex, Latest, BytesOk;
    forall i | t.n <= i < t.n + |bytes| ensures Current(s.log, p, t, bytes, i) {
      ByteIsOk(s, p, t.vaddr + i);
      ChunkIsLatest(s, p, t, f, bytes, i);
    }
  }

  lemma CallIsFine(s: State, p: nat)
    requires Copyable(s, p)
    ensures var t, n := s.procs[p].call.t, |s.procs[p].table|;
      s.procs[p].call == Busy(t, Copy) && CallFine(s.log, p, n, Busy(t, Copy)) && !Refused(t, n) && 0 <= t.vaddr && BytesOk(s)
  {
    assert CallOk(s, p);
    hide Mapped, PinsOk, SwapOk, BytesOk, Agrees;
  }

  lemma CopyKeepsWrite(s: State, p: nat)
    requires Copyable(s, p) && CanCopy(s, p) && s.procs[p].call.t.write
    ensures p < |CopyStep(s, p).procs| && CallOk(CopyStep(s, p), p)
  {
    CallIsFine(s, p);
    CopyEffect(s, p);
    hide Copyable, CanCopy, Chunk, CallFine, CopyStep, BytesOk, PageOffset, PageIndex, Refused, Outcome, Reached;
    WriteKeepsCall(s.log, p, |s.procs[p].table|, s.procs[p].call.t);
  }

  lemma CopyKeepsRead(s: State, p: nat)
    requires Copyable(s, p) && CanCopy(s, p) && !s.procs[p].call.t.write
    ensures p < |CopyStep(s, p).procs| && CallOk(CopyStep(s, p), p)
  {
    ChunkFits(s, p);
    CallIsFine(s, p);
    CopyEffect(s, p);
    assert 0 <= PageIndex(s.procs[p].call.t);
    hide Copyable, CanCopy, Chunk, CallFine, CopyStep, BytesOk, PageOffset, PageIndex, Refused, WithRead, Present, Good;
    var t := s.procs[p].call.t;
    var f := s.E(p, PageIndex(t)).ppn;
    var bytes := s.memory[f * PAGE + PageOffset(t)..f * PAGE + PageOffset(t) + Chunk(t)];
    ReadIsCurrent(s, p, t, f, bytes);
    ReadKeepsCall(s.log, p, |s.procs[p].table|, t, bytes);
  }

  lemma CopyKeepsCall(s: State, p: nat)
    requires Copyable(s, p) && CanCopy(s, p)
    ensures p < |CopyStep(s, p).procs| && CallOk(CopyStep(s, p), p)
  {
    hide Copyable, CallOk, CopyStep;
    if s.procs[p].call.t.write { CopyKeepsWrite(s, p); } else { CopyKeepsRead(s, p); }
  }

  lemma CopiedAgrees(log: seq<Write>, p: nat, n: nat, t: Transfer)
    requires CallFine(log, p, n, Busy(t, Copy)) && !Refused(t, n)
    ensures forall i :: 0 <= i < t.n ==> i < t.length && Agrees(log, p, t, i)
  {
  }

  lemma ByteIsOk(s: State, p: nat, a: nat)
    requires BytesOk(s)
    ensures ByteOk(s, p, a)
  {
  }

  lemma CopyKeepsGood(s: State, p: nat)
    requires Copyable(s, p)
    ensures CanCopy(s, p) && Good(CopyStep(s, p))
  {
    ChunkFits(s, p);
    CopyKeepsTables(s, p);
    CopyKeepsCall(s, p);
    var s', t := CopyStep(s, p), s.procs[p].call.t;
    if t.write {
      WriteKeepsBytes(s, p);
      WriteIsStored(s, p);
    }
    assert BytesOk(s) && CallsOk(s);
    hide Mapped, PinsOk, SwapOk, CallOk;
    if !t.write {
      forall q: nat, a: nat ensures ByteOk(s', q, a) { assert ByteOk(s, q, a); }
    }
    hide BytesOk;
    forall q: nat, a: int {:trigger Latest(s'.log, q, a)} | q != p ensures Latest(s'.log, q, a) == Latest(s.log, q, a) {
      if t.write { LatestAppend(s.log, s'.log[|s.log|], q, a); }
    }
    OtherCallsKeep(s, s', p);
  }

  // ----- Unpinning -----

  ghost predicate Cleanable(s: State, p: nat)
  {
    Good(s) && Active(s, p) && s.procs[p].call.stage == Clean
  }

  lemma CleanKeepsTables(s: State, p: nat)
    requires Cleanable(s, p) && CanCopy(s, p) && s.E(p, PageIndex(s.procs[p].call.t)).ppn < |s.frames|
    ensures var s' := CleanStep(s, p); Mapped(s', -1) && PinsOk(s')
  {
    var s', t := CleanStep(s, p), s.procs[p].call.t;
    var f := s.E(p, PageIndex(t)).ppn;
    assert CallPin(s, p) && EntryOk(s, -1, p, PageIndex(t));
    hide BytesOk, CallsOk, SwapOk;
    forall q: nat, w: nat ensures EntryOk(s', -1, q, w) { assert s.HasPage(q, w) ==> EntryOk(s, -1, q, w); }
    forall g | 0 <= g < |s'.frames| ensures FrameOk(s', -1, g) && FramePin(s', g) {
      assert FrameOk(s, -1, g) && FramePin(s, g);
    }
    forall q | 0 <= q < |s'.procs| ensures CallPin(s', q) {
      assert CallPin(s, q);
      if q != p && Active(s, q) { assert EntryOk(s, -1, q, PageIndex(s.procs[q].call.t)); }
    }
  }

  /** A section that moves neither pages nor bytes. */
  ghost predicate SameStores(s: State, s': State)
  {
    && s'.memory == s.memory && s'.swap == s.swap && s'.freeSwap == s.freeSwap && s'.numSwap == s.numSwap
    && s'.log == s.log && |s'.frames| == |s.frames| && |s'.procs| >= |s.procs|
    && (forall q: nat, w: nat :: s.HasPage(q, w) ==> s'.HasPage(q, w) && s'.E(q, w) == s.E(q, w))
    && (forall q: nat, w: nat :: s'.HasPage(q, w) && !s.HasPage(q, w) ==> !s'.E(q, w).dirty)
    && (forall q: nat :: q < |s.procs| && s'.procs[q].live ==> s.procs[q].live)
  }

  lemma SameStoresKeeps(s: State, s': State)
    requires SwapOk(s) && BytesOk(s) && SameStores(s, s')
    ensures SwapOk(s') && BytesOk(s')
  {
    SameSlotsKeepSwap(s, s');
    hide SwapOk;
    forall q: nat, a: nat ensures ByteOk(s', q, a) { assert ByteOk(s, q, a); }
  }

  /** Unpinning changes no store and no other call. */
  lemma CleanIsLocal(s: State, p: nat)
    requires CanCopy(s, p) && s.E(p, PageIndex(s.procs[p].call.t)).ppn < |s.frames|
    ensures var s' := CleanStep(s, p); SameStores(s, s') && OtherCallsSame(s, s', p)
  {
    hide Chunk;
  }

  lemma CleanKeepsCall(s: State, p: nat)
    requires Cleanable(s, p) && CanCopy(s, p) && s.E(p, PageIndex(s.procs[p].call.t)).ppn < |s.frames|
    ensures p < |CleanStep(s, p).procs| && CallOk(CleanStep(s, p), p)
  {
    ChunkFits(s, p);
    var t, n := s.procs[p].call.t, |s.procs[p].table|;
    assert CallOk(s, p) && s.procs[p].call == Busy(t, Clean) && PageIndex(t) < n;
    hide Good, Chunk, CallFine;
    CleanedIsFine(s.log, p, n, t, t.(n := t.n + Chunk(t)));
  }

  lemma CleanKeepsGood(s: State, p: nat)
    requires Cleanable(s, p)
    ensures CanCopy(s, p) && s.E(p, PageIndex(s.procs[p].call.t)).ppn < |s.frames| && Good(CleanStep(s, p))
  {
    ChunkFits(s, p);
    hide Mapped, PinsOk, SwapOk, BytesOk, CallsOk, CleanStep, SameStores, OtherCallsSame, CallOk;
    CleanKeepsTables(s, p);
    CleanIsLocal(s, p);
    CleanKeepsCall(s, p);
    var s' := CleanStep(s, p);
    SameStoresKeeps(s, s');
    assert s'.log == s.log by { SameLog(s, s'); }
    OtherCallsKeep(s, s', p);
  }

  lemma SameLog(s: State, s': State)
    requires SameStores(s, s')
    ensures s'.log == s.log
  {
  }

  // ----- Calls, births and exits -----

  lemma BeginKeepsGood(s: State, p: nat, t: Transfer)
    requires Good(s) && p < |s.procs| && s.procs[p].live && !s.procs[p].call.Busy? && t.n == 0
    ensures Good(Start(s, p, t))
  {
    var s' := Start(s, p, t);
    assert CallOk(s', p);
    OtherCallsKeep(s, s', p);
    SameStoresKeeps(s, s');
    hide SwapOk, BytesOk, CallsOk;
    CallFrame(s, s', p);
  }

  /** A process that has nothing pinned changes its call and pins nothing. */
  lemma CallFrame(s: State, s': State, p: nat)
    requires Mapped(s, -1) && PinsOk(s) && p < |s.procs| == |s'.procs| && s' == s.WithCall(p, s'.procs[p].call)
    requires !Active(s, p) && !Active(s', p)
    ensures Mapped(s', -1) && PinsOk(s')
  {
    forall q: nat, w: nat ensures EntryOk(s', -1, q, w) { assert s.HasPage(q, w) ==> EntryOk(s, -1, q, w); }
    forall g | 0 <= g < |s'.frames| ensures FrameOk(s', -1, g) && FramePin(s', g) {
      assert FrameOk(s, -1, g) && FramePin(s, g);
    }
    forall q | 0 <= q < |s'.procs| ensures CallPin(s', q) { assert CallPin(s, q); }
  }

  lemma SpawnKeepsGood(s: State, n: nat)
    requires Good(s)
    ensures Good(Next(s, Spawn(n)))
  {
    var s' := Next(s, Spawn(n));
    assert forall q: nat, w: nat :: s.HasPage(q, w) ==> s'.HasPage(q, w) && s'.E(q, w) == s.E(q, w);
    hide Next;
    SameStoresKeeps(s, s');
    hide SwapOk, BytesOk;
    forall q: nat, w: nat ensures EntryOk(s', -1, q, w) { assert s.HasPage(q, w) ==> EntryOk(s, -1, q, w); }
    forall g | 0 <= g < |s'.frames| ensures FrameOk(s', -1, g) && FramePin(s', g) {
      assert FrameOk(s, -1, g) && FramePin(s, g);
    }
    forall q | 0 <= q < |s'.procs| ensures CallPin(s', q) && CallOk(s', q) {
      if q < |s.procs| { assert CallPin(s, q) && CallOk(s, q); }
    }
  }

  /** What giving up the first `k` pages does to a frame. */
  lemma {:induction false} UnloadAt(s: State, p: nat, k: nat, f: nat)
    requires Mapped(s, -1) && p < |s.procs| && s.procs[p].live && k <= |s.procs[p].table| && f < |s.frames|
    ensures forall v :: 0 <= v < k && s.procs[p].table[v].valid ==> 0 <= s.procs[p].table[v].ppn < |s.frames|
    ensures Unload(s, p, k).frames[f] ==
            if s.frames[f].owned && s.frames[f].owner == p && s.frames[f].vpn < k then s.frames[f].(owned := false, used := false)
            else s.frames[f]
  {
    assert FrameOk(s, -1, f);
    if k > 0 {
      assert s.HasPage(p, k - 1) && s.E(p, k - 1) == s.procs[p].table[k - 1] && EntryOk(s, -1, p, k - 1);
      UnloadAt(s, p, k - 1, f);
      if s.E(p, k - 1).valid { UnloadAt(s, p, k - 1, s.E(p, k - 1).ppn); }
    }
  }

  lemma ExitKeepsGood(s: State, p: nat)
    requires Good(s) && p < |s.procs| && s.procs[p].live && !s.procs[p].call.Busy?
    ensures CanStep(s, Exit(p)) && Good(Next(s, Exit(p)))
  {
    var n := |s.procs[p].table|;
    forall f: nat | f < |s.frames| ensures (forall v :: 0 <= v < n && s.procs[p].table[v].valid ==> 0 <= s.procs[p].table[v].ppn < |s.frames|)
      && Unload(s, p, n).frames[f] == if s.frames[f].owned && s.frames[f].owner == p && s.frames[f].vpn < n
                                      then s.frames[f].(owned := false, used := false) else s.frames[f] {
      UnloadAt(s, p, n, f);
    }
    assert |s.frames| > 0 && 0 < |s.frames|;
    UnloadAt(s, p, n, 0);
    var s' := Next(s, Exit(p));
    hide Next, Unload;
    SameStoresKeeps(s, s');
    hide SwapOk, BytesOk;
    forall q: nat, w: nat ensures EntryOk(s', -1, q, w) { assert s.HasPage(q, w) ==> EntryOk(s, -1, q, w); }
    forall g: nat | g < |s'.frames| ensures FrameOk(s', -1, g) && FramePin(s', g) {
      assert FrameOk(s, -1, g) && FramePin(s, g);
    }
    forall q | 0 <= q < |s'.procs| ensures CallPin(s', q) && CallOk(s', q) {
      assert CallPin(s, q) && CallOk(s, q);
    }
  }

  // ----- Faults -----

  lemma GoodAfter(s: State, s': State)
    requires Good(s) && Between(s', -1) && KeepsPages(s, s') && SameCalls(s, s')
    ensures Good(s')
  {
    KeepsBytes(s, s');
    SameCallsKeepsCalls(s, s');
  }

  lemma TouchKeepsGood(s: State, p: nat, v: nat, init: seq<Byte>)
    requires Good(s) && s.HasPage(p, v) && s.procs[p].live && !s.procs[p].call.Busy? && |init| == PAGE
    ensures CanStep(s, Touch(p, v, init)) && Good(Next(s, Touch(p, v, init)))
  {
    if !s.E(p, v).valid {
      hide Mapped, PinsOk, BytesOk, CallsOk, Fault, KeepsPages, SameCalls;
      FaultKeeps(s, p, v, init);
      GoodAfter(s, Fault(s, p, v, init));
    }
  }

  lemma PresentHasFrame(s: State, p: nat, v: nat)
    requires Good(s) && Present(s, p, v)
    ensures 0 <= s.E(p, v).ppn < |s.frames|
  {
    assert EntryOk(s, -1, p, v);
  }

  lemma PinKeepsGood(s: State, p: nat, v: nat, t: Transfer)
    requires Good(s) && Pinnable(s, p, v, t)
    ensures Good(Pin(s, p, v, t))
  {
    PinKeepsMapped(s, p, v, t);
    PinKeepsPins(s, p, v, t);
    PinKeepsSwap(s, p, v, t);
    PinIsLocal(s, p, v, t);
    var s' := Pin(s, p, v, t);
    assert CallOk(s, p);
    hide Mapped, PinsOk, SwapOk, BytesOk, KeepsPages;
    KeepsBytes(s, s');
    assert s'.log == s.log;
    OtherCallsKeep(s, s', p);
  }

  lemma VerifyKeepsGood(s: State, p: nat, init: seq<Byte>)
    requires Good(s) && p < |s.procs| && s.procs[p].live && |init| == PAGE
    requires s.procs[p].call.Busy? && s.procs[p].call.stage == Verify
    ensures CanStep(s, Go(p, init)) && Good(VerifyStep(s, p, init))
  {
    var t := s.procs[p].call.t;
    var v := PageIndex(t);
    if v < 0 || v >= |s.procs[p].table| {
      BadPageKeepsGood(s, p);
    } else if s.E(p, v).valid {
      PresentHasFrame(s, p, v);
      PinKeepsGood(s, p, v, t);
    } else {
      hide Mapped, PinsOk, BytesOk, CallsOk, KeepsPages;
      FaultKeeps(s, p, v, init);
      var s1 := Fault(s, p, v, init);
      GoodAfter(s, s1);
      if Victim(s).Some? {
        assert SameProcess(s.procs[p], s1.procs[p]);
        hide Fault;
        PresentHasFrame(s1, p, v);
        hide Good;
        PinKeepsGood(s1, p, v, t);
      }
    }
  }

  lemma BadPageKeepsGood(s: State, p: nat)
    requires Good(s) && p < |s.procs| && s.procs[p].call.Busy? && s.procs[p].call.stage == Verify
    requires !(0 <= PageIndex(s.procs[p].call.t) < |s.procs[p].table|)
    ensures Good(s.WithCall(p, Returned(s.procs[p].call.t, 0)))
  {
    var s' := s.WithCall(p, Returned(s.procs[p].call.t, 0));
    assert CallOk(s, p) && CallOk(s', p);
    OtherCallsKeep(s, s', p);
    SameStoresKeeps(s, s');
    hide SwapOk, BytesOk, CallsOk;
    CallFrame(s, s', p);
  }

  // ----- Every step and every run -----

  /** What the schedule must respect: processes exist and run, one call at a time, page faults on
      pages of the process. */
  ghost predicate Enabled(s: State, st: Step)
  {
    match st
    case Spawn(_) => true
    case Begin(p, t) => p < |s.procs| && s.procs[p].live && !s.procs[p].call.Busy? && t.n == 0
    case Go(p, init) => p < |s.procs| && s.procs[p].live && s.procs[p].call.Busy? && |init| == PAGE
    case Touch(p, v, init) => s.HasPage(p, v) && s.procs[p].live && !s.procs[p].call.Busy? && |init| == PAGE
    case Exit(p) => p < |s.procs| && s.procs[p].live && !s.procs[p].call.Busy?
  }

  /** No index of the original is out of range, and the invariant is kept. */
  lemma StepKeepsGood(s: State, st: Step)
    requires Good(s) && Enabled(s, st)
    ensures CanStep(s, st) && Good(Next(s, st))
  {
    hide Good, VerifyStep, CopyStep, CleanStep, Start, CanFault, CanPin, CanCopy;
    match st
    case Spawn(n) => SpawnKeepsGood(s, n);
    case Begin(p, t) => BeginKeepsGood(s, p, t);
    case Touch(p, v, init) => TouchKeepsGood(s, p, v, init);
    case Exit(p) => ExitKeepsGood(s, p);
    case Go(p, init) =>
      match s.procs[p].call.stage {
        case Verify => VerifyKeepsGood(s, p, init);
        case Copy => CopyKeepsGood(s, p);
        case Clean => CleanKeepsGood(s, p);
      }
  }

  ghost function Run(s: State, sched: seq<Step>): State
    decreases |sched|
  {
    if sched == [] then s
    else if CanStep(s, sched[0]) then Run(Next(s, sched[0]), sched[1..])
    else Run(s, sched[1..])
  }
}
