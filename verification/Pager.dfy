/** The kernel's paging code as it runs: tables, frames and counters updated in place. */
module Pager {
  import opened Helpers
  import P = Paging
  import opened Paging
  import opened PagingSafety
  import opened PagingClock

  lemma {:induction false} FirstTakenFrom(s: State, k: nat)
    requires |s.frames| > 0 && k <= |s.frames| && forall i :: 0 <= i < k ==> !Takes(s.frames[At(s, i)])
    ensures FirstTaken(s, 0) == FirstTaken(s, k)
  {
    if k > 0 { FirstTakenFrom(s, k - 1); }
  }

  lemma {:induction false} FirstUnpinnedFrom(s: State, k: nat)
    requires |s.frames| > 0 && k <= |s.frames| && forall i :: 0 <= i < k ==> s.frames[At(s, i)].pinned
    ensures FirstUnpinned(s, 0) == FirstUnpinned(s, k)
  {
    if k > 0 { FirstUnpinnedFrom(s, k - 1); }
  }

  // ----- The loop of the clock -----

  /** The place in the sweep after `total` steps, and the frame there. */
  function Place(s: State, total: nat): nat
    requires total < 2 * |s.frames|
  {
    if total < |s.frames| then total else total - |s.frames|
  }

  /** One of the first `k` frames from the hand is not pinned. */
  ghost predicate SomeUnpinned(s: State, k: nat)
    requires k <= |s.frames|
  {
    exists i :: 0 <= i < k && !s.frames[At(s, i)].pinned
  }

  lemma SomeUnpinnedNext(s: State, k: nat)
    requires k < |s.frames|
    ensures SomeUnpinned(s, k + 1) <==> SomeUnpinned(s, k) || !s.frames[At(s, k)].pinned
  {
    if !s.frames[At(s, k)].pinned { assert 0 <= k < k + 1; }
  }

  /** State `m`, where the clock that began in `s` stands after `total` frames without having
      found one; the second time round every used bit is cleared. */
  ghost predicate Swept(s: State, m: State, total: nat, notPinned: bool)
  {
    var n := |s.frames|;
    && total < 2 * n
    && m == Sweep(s, if total < n then total else n).(hand := m.hand)
    && (total == 0 ==> m.hand == s.hand) && (total > 0 ==> m.hand == At(s, Place(s, total - 1)) + 1)
    && (forall i :: 0 <= i < total && i < n ==> !Takes(s.frames[At(s, i)]))
    && (forall i :: 0 <= i < total - n ==> s.frames[At(s, i)].pinned)
    && (notPinned <==> SomeUnpinned(s, if total < n then total else n))
    && (total >= n ==> notPinned)
  }

  lemma SweptPlace(s: State, m: State, total: nat, notPinned: bool)
    requires Swept(s, m, total, notPinned)
    ensures |m.frames| == |s.frames| && m.hand % |s.frames| == At(s, Place(s, total))
    ensures var a, b := s.frames[At(s, Place(s, total))], m.frames[At(s, Place(s, total))];
      b.owned == a.owned && b.pinned == a.pinned && if total < |s.frames| then b == a else Cleared(m, At(s, Place(s, total)))
  {
    var n := |s.frames|;
    var k, f := if total < n then total else n, At(s, Place(s, total));
    SweepKeepsPins(s, k, f);
    SweepAt(s, k, Place(s, total));
    if total > 0 { ModSmall(m.hand, n); }
  }

  lemma SweptFound(s: State, m: State, total: nat, notPinned: bool)
    requires Swept(s, m, total, notPinned) && |m.frames| == |s.frames|
    requires Takes(m.frames[At(s, Place(s, total))])
    ensures Victim(s) == Some(At(s, Place(s, total))) && AfterClock(s) == m.(hand := At(s, Place(s, total)) + 1)
  {
    SweptPlace(s, m, total, notPinned);
    FirstTakenFrom(s, if total < |s.frames| then total else |s.frames|);
    if total >= |s.frames| {
      assert !Takes(s.frames[At(s, Place(s, total))]);
      FirstUnpinnedFrom(s, Place(s, total));
    }
  }

  /** One step of the first sweep. */
  lemma SweepGrows(s: State, m: State, total: nat)
    requires total < |s.frames| && m == Sweep(s, total).(hand := m.hand)
    ensures |m.frames| == |s.frames|
    ensures Clear(m, At(s, total)).(hand := At(s, total) + 1) == Sweep(s, total + 1).(hand := At(s, total) + 1)
  {
    ClearIgnoresHand(Sweep(s, total), At(s, total), m.hand);
  }

  /** The first sweep ends, and every frame was pinned. */
  lemma SweptAll(s: State, m: State, total: nat, notPinned: bool)
    requires Swept(s, m, total, notPinned) && |m.frames| == |s.frames|
    requires !Takes(m.frames[At(s, Place(s, total))]) && total < |s.frames|
    requires total + 1 == |s.frames| && !notPinned && m.frames[At(s, total)].pinned
    ensures Victim(s) == None && AfterClock(s) == Clear(m, At(s, total)).(hand := At(s, total) + 1)
  {
    SweptPlace(s, m, total, notPinned);
    SweepGrows(s, m, total);
    assert forall i :: 0 <= i < total + 1 ==> !Takes(s.frames[At(s, i)]);
    assert forall i :: 0 <= i < total + 1 ==> s.frames[At(s, i)].pinned;
    hide Sweep, Clear, Takes, Swept;
    FirstTakenFrom(s, |s.frames|);
    FirstUnpinnedFrom(s, |s.frames|);
  }

  /** It goes on. */
  lemma SweptMore(s: State, m: State, total: nat, notPinned: bool)
    requires Swept(s, m, total, notPinned) && |m.frames| == |s.frames|
    requires !Takes(m.frames[At(s, Place(s, total))]) && total < |s.frames|
    requires total + 1 < |s.frames| || notPinned || !m.frames[At(s, total)].pinned
    ensures Swept(s, Clear(m, At(s, total)).(hand := At(s, total) + 1), total + 1, notPinned || !m.frames[At(s, total)].pinned)
  {
    SweptPlace(s, m, total, notPinned);
    SweepGrows(s, m, total);
    SomeUnpinnedNext(s, total);
    assert forall i :: 0 <= i < total + 1 ==> !Takes(s.frames[At(s, i)]);
    hide Sweep, Clear, Takes, At, SomeUnpinned;
  }

  lemma SweptNextFirst(s: State, m: State, total: nat, notPinned: bool)
    requires Swept(s, m, total, notPinned) && |m.frames| == |s.frames|
    requires !Takes(m.frames[At(s, Place(s, total))]) && total < |s.frames|
    ensures var f := At(s, Place(s, total));
      var m', np := Clear(m, f).(hand := f + 1), notPinned || !m.frames[f].pinned;
      if total + 1 >= |s.frames| && !np then Victim(s) == None && AfterClock(s) == m'
      else Swept(s, m', total + 1, np)
  {
    if total + 1 == |s.frames| && !notPinned && m.frames[At(s, total)].pinned {
      SweptAll(s, m, total, notPinned);
    } else {
      SweptMore(s, m, total, notPinned);
    }
    hide Swept, Sweep, Clear, Takes, At, AfterClock, Victim;
  }

  lemma SweptNext(s: State, m: State, total: nat, notPinned: bool)
    requires Swept(s, m, total, notPinned) && |m.frames| == |s.frames|
    requires !Takes(m.frames[At(s, Place(s, total))])
    ensures var f := At(s, Place(s, total));
      var m', np := Clear(m, f).(hand := f + 1), notPinned || !m.frames[f].pinned;
      if total + 1 >= |s.frames| && !np then Victim(s) == None && AfterClock(s) == m'
      else Swept(s, m', total + 1, np)
  {
    if total < |s.frames| {
      SweptNextFirst(s, m, total, notPinned);
    } else {
      var f := At(s, Place(s, total));
      SweptPlace(s, m, total, notPinned);
      ClearClears(m, f);
      hide Sweep, Clear;
      LastSweep(s, m, total);
    }
  }

  /** The second time round ends before the frame that made it begin. */
  lemma LastSweep(s: State, m: State, total: nat)
    requires Swept(s, m, total, true) && |m.frames| == |s.frames| <= total
    requires s.frames[At(s, Place(s, total))].pinned
    ensures total + 1 < 2 * |s.frames|
  {
    var n := |s.frames|;
    var i :| 0 <= i < total && i < n && !s.frames[At(s, i)].pinned;
    assert total - n < i < n;
  }

  lemma SweptStart(s: State)
    requires |s.frames| > 0
    ensures Swept(s, s, 0, false)
  {
  }

  lemma SweptBound(s: State, m: State, total: nat, notPinned: bool)
    requires Swept(s, m, total, notPinned)
    ensures total < 2 * |s.frames|
  {
  }

  lemma TakesIs(fr: Frame)
    ensures Takes(fr) <==> !fr.owned || (!fr.pinned && !fr.used)
  {
  }

  lemma ClearIgnoresHand(s: State, f: nat, h: nat)
    requires f < |s.frames|
    ensures Clear(s.(hand := h), f) == Clear(s, f).(hand := h)
  {
  }

  lemma SpliceNone(store: seq<Byte>, at: nat, bytes: seq<Byte>)
    requires at <= |store|
    ensures Splice(store, at, bytes[..0]) == store
  {
  }

  /** One more byte is in place. */
  lemma SpliceMore(store: seq<Byte>, at: nat, bytes: seq<Byte>, i: nat)
    requires at + |bytes| <= |store| && i < |bytes|
    ensures Splice(store, at, bytes[..i + 1]) == Splice(store, at, bytes[..i])[at + i := bytes[i]]
  {
    var a, b := Splice(store, at, bytes[..i + 1]), Splice(store, at, bytes[..i])[at + i := bytes[i]];
    forall j | 0 <= j < |a| ensures a[j] == b[j] {
      SpliceAt(store, at, bytes[..i + 1], j);
      SpliceAt(store, at, bytes[..i], j);
    }
  }

  lemma ChunkSize(t: Transfer)
    ensures Chunk(t) <= t.length - t.n && PageOffset(t) + Chunk(t) <= PAGE && (t.n <= t.length ==> Chunk(t) >= 0)
  {
  }

  lemma AsleepIsAfterClock(s: State, p: nat, v: nat, init: seq<Byte>)
    requires CanFault(s, p, v, init) && Victim(s) == None
    ensures Fault(s, p, v, init) == AfterClock(s)
  {
  }

  class Kernel {
    var procs: seq<Process>
    const invertedPageTable: array<Frame>
    const memory: array<Byte>
    var swapFile: seq<Byte>
    var freeSwap: seq<nat>
    var numSwapPages: nat
    var currentPage: nat
    ghost var log: seq<Write>

    ghost function Model(): State
      reads this, invertedPageTable, memory
    {
      State(procs, invertedPageTable[..], memory[..], swapFile, freeSwap, numSwapPages, currentPage, log)
    }

    /** The two arrays are not one. */
    ghost predicate Separate() { (invertedPageTable as object) != (memory as object) }

    constructor (numPhysPages: nat)
      ensures Separate() && Model() == Init(numPhysPages)
    {
      procs, swapFile, freeSwap, numSwapPages, currentPage, log := [], [], [], 0, 0, [];
      invertedPageTable := new Frame[numPhysPages](i => Frame(false, false, false, 0, 0));
      memory := new Byte[numPhysPages * PAGE](i => 0);
      new;
      assert invertedPageTable[..] == Init(numPhysPages).frames;
      assert memory[..] == Init(numPhysPages).memory;
    }

    method SetFrame(f: nat, fr: Frame)
      requires Separate() && f < invertedPageTable.Length
      modifies invertedPageTable
      ensures Model() == old(Model()).WithFrame(f, fr)
    {
      invertedPageTable[f] := fr;
      assert invertedPageTable[..] == old(invertedPageTable[..])[f := fr];
    }

    method SetEntry(p: nat, v: nat, e: Entry)
      requires Model().HasPage(p, v)
      modifies this`procs
      ensures Model() == old(Model()).WithEntry(p, v, e)
    {
      procs := procs[p := procs[p].(table := procs[p].table[v := e])];
    }

    /** Copies bytes into physical memory. */
    method Store(at: nat, bytes: seq<Byte>)
      requires Separate() && at + |bytes| <= memory.Length
      modifies memory
      ensures Model() == old(Model()).(memory := Splice(old(memory[..]), at, bytes))
    {
      hide Splice;
      ghost var store := memory[..];
      var i := 0;
      SpliceNone(store, at, bytes);
      while i < |bytes|
        invariant 0 <= i <= |bytes| && memory[..] == Splice(store, at, bytes[..i])
      {
        SpliceMore(store, at, bytes, i);
        memory[at + i] := bytes[i];
        i := i + 1;
      }
      assert bytes[..i] == bytes;
    }

    /** `setUsed(vpn, false)` of the owner, with the used bit of the frame. */
    method ClearUsed(f: nat)
      requires Separate() && f < invertedPageTable.Length
      modifies this`procs, invertedPageTable
      ensures Model() == Clear(old(Model()), f)
    {
      var fr := invertedPageTable[f];
      SetFrame(f, fr.(used := false));
      if fr.owner < |procs| && fr.vpn < |procs[fr.owner].table| {
        SetEntry(fr.owner, fr.vpn, procs[fr.owner].table[fr.vpn].(used := false));
      }
    }

    /** The frame to give away, or none when all are pinned; then the caller sleeps until a page
        is unpinned and begins again. */
    method ClockAlgorithm() returns (found: bool, ppn: nat)
      requires Separate() && invertedPageTable.Length > 0
      modifies this`procs, this`currentPage, invertedPageTable
      ensures Model() == AfterClock(old(Model()))
      ensures Victim(old(Model())) == if found then Some(ppn) else None
    {
      hide Clear, Sweep, AfterClock, Victim, Swept, Takes, At;
      ghost var s := Model();
      var n := invertedPageTable.Length;
      var total, notPinned := 0, false;
      SweptStart(s);
      while true
        invariant Swept(s, Model(), total, notPinned) && total < 2 * n
        decreases 2 * n - total
      {
        ghost var m := Model();
        SweptPlace(s, m, total, notPinned);
        TakesIs(m.frames[currentPage % n]);
        currentPage := currentPage % n;
        var fr := invertedPageTable[currentPage];
        if !fr.owned {
          SweptFound(s, m, total, notPinned);
          currentPage := currentPage + 1;
          return true, currentPage - 1;
        }
        if fr.pinned {
          SweptNext(s, m, total, notPinned);
          ClearIgnoresHand(m, currentPage, currentPage);
          ClearUsed(currentPage);
          currentPage := currentPage + 1;
          total := total + 1;
        } else if !fr.used {
          SweptFound(s, m, total, notPinned);
          currentPage := currentPage + 1;
          return true, currentPage - 1;
        } else {
          SweptNext(s, m, total, notPinned);
          ClearIgnoresHand(m, currentPage, currentPage);
          notPinned := true;
          ClearUsed(currentPage);
          currentPage := currentPage + 1;
          total := total + 1;
        }
        if total >= n && !notPinned {
          return false, 0;
        }
        SweptBound(s, Model(), total, notPinned);
      }
    }

    // ----- Swap -----

    method AddToSwap(ppn: nat) returns (spn: nat)
      requires Separate() && ppn < invertedPageTable.Length && (ppn + 1) * PAGE <= memory.Length
      requires Slot(Model()) * PAGE <= |swapFile|
      modifies this`freeSwap, this`numSwapPages, this`swapFile, invertedPageTable
      ensures spn == Slot(old(Model())) && Model() == P.AddToSwap(old(Model()), ppn)
    {
      if freeSwap == [] {
        spn := numSwapPages;
        numSwapPages := numSwapPages + 1;
      } else {
        spn := freeSwap[0];
        freeSwap := freeSwap[1..];
      }
      swapFile := Splice(swapFile, spn * PAGE, memory[ppn * PAGE..(ppn + 1) * PAGE]);
      SetFrame(ppn, invertedPageTable[ppn].(pinned := false));
    }

    method LoadFromSwap(spn: nat, ppn: nat)
      requires Separate() && ppn < invertedPageTable.Length && (ppn + 1) * PAGE <= memory.Length
      requires (spn + 1) * PAGE <= |swapFile|
      modifies this`freeSwap, memory, invertedPageTable
      ensures Model() == P.LoadFromSwap(old(Model()), spn, ppn)
    {
      Store(ppn * PAGE, swapFile[spn * PAGE..(spn + 1) * PAGE]);
      SetFrame(ppn, invertedPageTable[ppn].(pinned := false));
      freeSwap := Insert(freeSwap, spn);
    }

    // ----- Page faults -----

    /** `savePage` of the owner. */
    method SavePage(p: nat, vpn: nat)
      requires Separate() && Sized(Model()) && Model().HasPage(p, vpn)
      requires 0 <= Model().E(p, vpn).ppn < invertedPageTable.Length
      requires var fr := invertedPageTable[Model().E(p, vpn).ppn]; fr.owner == p && fr.vpn == vpn
      modifies this`procs, this`freeSwap, this`numSwapPages, this`swapFile, invertedPageTable
      ensures Model() == Evict(old(Model()), old(Model().E(p, vpn).ppn))
    {
      var e := procs[p].table[vpn];
      assert freeSwap != [] ==> freeSwap[0] in freeSwap;
      if e.dirty {
        var spn := AddToSwap(e.ppn);
        SetEntry(p, vpn, e.(ppn := spn, valid := false));
      } else {
        SetEntry(p, vpn, e.(valid := false));
      }
    }

    /** A frame that is given to page `vpn` of process `p`, its former page saved. */
    method GetAvailablePage(p: nat, vpn: nat) returns (found: bool, ppn: nat)
      requires Separate() && invertedPageTable.Length > 0
      requires Victim(Model()).Some? ==> CanFree(AfterClock(Model()), Victim(Model()).value)
      modifies this`procs, this`currentPage, this`freeSwap, this`numSwapPages, this`swapFile, invertedPageTable
      ensures Victim(old(Model())) == if found then Some(ppn) else None
      ensures Model() == if found then Assign(Freed(old(Model())), ppn, p, vpn) else AfterClock(old(Model()))
    {
      hide Victim, AfterClock, Evict;
      found, ppn := ClockAlgorithm();
      if found {
        var fr := invertedPageTable[ppn];
        if fr.owned { SavePage(fr.owner, fr.vpn); }
        SetFrame(ppn, invertedPageTable[ppn].(owned := true, used := true, owner := p, vpn := vpn));
      }
    }

    /** `init` is the page of the executable or the cleared page that a first use starts from. */
    method InitializePage(ppn: nat, p: nat, vpn: nat, init: seq<Byte>)
      requires Separate() && Sized(Model()) && ppn < invertedPageTable.Length && Model().HasPage(p, vpn) && |init| == PAGE
      requires Model().E(p, vpn).dirty ==> 0 <= Model().E(p, vpn).ppn < numSwapPages
      modifies this`procs, this`freeSwap, memory, invertedPageTable
      ensures Model() == Initialize(old(Model()), ppn, p, vpn, init)
    {
      var e := procs[p].table[vpn];
      if e.dirty { LoadFromSwap(e.ppn, ppn); } else { Store(ppn * PAGE, init); }
      SetEntry(p, vpn, e.(ppn := ppn, used := true, valid := true));
    }

    method PageFault(p: nat, vpn: nat, init: seq<Byte>) returns (awake: bool)
      requires Separate() && CanFault(Model(), p, vpn, init)
      modifies this`procs, this`currentPage, this`freeSwap, this`numSwapPages, this`swapFile, memory, invertedPageTable
      ensures Model() == Fault(old(Model()), p, vpn, init) && (awake <==> Victim(old(Model())).Some?)
    {
      hide Victim, AfterClock, Freed, Initialize;
      var ppn;
      awake, ppn := GetAvailablePage(p, vpn);
      if awake { InitializePage(ppn, p, vpn, init); }
    }

    // ----- The sections of a read or write -----

    method SetCall(p: nat, c: Call)
      requires p < |procs|
      modifies this`procs
      ensures Model() == old(Model()).WithCall(p, c)
    {
      procs := procs[p := procs[p].(call := c)];
    }

    /** `verifyVaddr`: the next page of the transfer is present, pinned and marked. */
    method VerifyVaddr(p: nat, init: seq<Byte>)
      requires Separate() && p < |procs| && procs[p].call.Busy?
      requires var v := PageIndex(procs[p].call.t); 0 <= v < |procs[p].table| ==> CanPin(Model(), p, v, init)
      modifies this, memory, invertedPageTable
      ensures Model() == VerifyStep(old(Model()), p, init)
    {
      hide Victim, Fault;
      var t := procs[p].call.t;
      var vpn := PageIndex(t);
      if vpn < 0 || vpn >= |procs[p].table| {
        SetCall(p, Returned(t, 0));
        return;
      }
      if !procs[p].table[vpn].valid {
        var awake := PageFault(p, vpn, init);
        if !awake {
          AsleepIsAfterClock(old(Model()), p, vpn, init);
          return;
        }
      }
      var e := procs[p].table[vpn];
      SetFrame(e.ppn, invertedPageTable[e.ppn].(used := true, pinned := true));
      SetEntry(p, vpn, e.(dirty := e.dirty || t.write));
      SetCall(p, Busy(t, Copy));
    }

    /** The copy between the caller's array and physical memory. */
    method CopyBytes(p: nat)
      requires Separate() && CanCopy(Model(), p)
      modifies this`procs, this`log, memory
      ensures Model() == CopyStep(old(Model()), p)
    {
      hide Splice, Chunk;
      ChunkSize(procs[p].call.t);
      var t := procs[p].call.t;
      var pageOffset, k := PageOffset(t), Chunk(t);
      var physicalAddr := procs[p].table[PageIndex(t)].ppn * PAGE + pageOffset;
      if t.write {
        var bytes := t.data[t.offset + t.n..t.offset + t.n + k];
        Store(physicalAddr, bytes);
        log := log + [Write(p, t.vaddr + t.n, bytes)];
        SetCall(p, Busy(t, Clean));
      } else {
        SetCall(p, Busy(t.(data := Splice(t.data, t.offset + t.n, memory[physicalAddr..physicalAddr + k])), Clean));
      }
    }

    /** `verifyClean`: the page is unpinned, and the loop goes on while bytes are left. */
    method VerifyClean(p: nat)
      requires Separate() && CanCopy(Model(), p) && Model().E(p, PageIndex(procs[p].call.t)).ppn < invertedPageTable.Length
      modifies this`procs, invertedPageTable
      ensures Model() == CleanStep(old(Model()), p)
    {
      var t := procs[p].call.t;
      var ppn := procs[p].table[PageIndex(t)].ppn;
      SetFrame(ppn, invertedPageTable[ppn].(pinned := false));
      var t' := t.(n := t.n + Chunk(t));
      SetCall(p, if t'.n < t.length then Busy(t', Verify) else Returned(t', t'.n));
    }

    // ----- Exit -----

    method UnloadSections(p: nat)
      requires Separate() && p < |procs|
      requires forall v :: 0 <= v < |procs[p].table| && procs[p].table[v].valid ==> 0 <= procs[p].table[v].ppn < invertedPageTable.Length
      modifies invertedPageTable
      ensures Model() == Unload(old(Model()), p, |procs[p].table|)
    {
      var i := 0;
      while i < |procs[p].table|
        invariant 0 <= i <= |procs[p].table| && Model() == Unload(old(Model()), p, i)
      {
        var e := procs[p].table[i];
        if e.valid { SetFrame(e.ppn, invertedPageTable[e.ppn].(owned := false, used := false)); }
        i := i + 1;
      }
    }
  }
}
