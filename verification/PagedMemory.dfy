/** What demand paging promises, over every run of any number of processes. */
module PagedMemory {
  import opened Helpers
  import opened Paging
  import opened PagingSafety
  import opened PagingRuns

  lemma InitIsGood(n: nat)
    requires n > 0
    ensures Good(Init(n))
  {
    var s := Init(n);
    forall p: nat, v: nat ensures EntryOk(s, -1, p, v) && SlotOk(s, p, v) {
      assert !s.HasPage(p, v);
    }
    forall f | 0 <= f < |s.frames| ensures FrameOk(s, -1, f) && FramePin(s, f) {
      assert !s.frames[f].owned;
    }
    forall p: nat, v: nat, q: nat, w: nat ensures Alone(s, p, v, q, w) { assert !s.HasPage(p, v); }
    forall p: nat, a: nat ensures ByteOk(s, p, a) {}
  }

  lemma {:induction false} RunKeepsGood(s: State, sched: seq<Step>)
    requires Good(s) && AllEnabled(s, sched)
    ensures Good(Run(s, sched))
    decreases |sched|
  {
    hide Good, Next, CanStep, Enabled;
    if sched != [] {
      StepKeepsGood(s, sched[0]);
      RunKeepsGood(Next(s, sched[0]), sched[1..]);
    }
  }

  /** A schedule whose every step is enabled where it is taken. */
  ghost predicate AllEnabled(s: State, sched: seq<Step>)
    decreases |sched|
  {
    sched != [] ==> Enabled(s, sched[0]) && (CanStep(s, sched[0]) ==> AllEnabled(Next(s, sched[0]), sched[1..]))
  }

  /** A schedule for a machine with `n` frames. */
  ghost predicate Valid(n: nat, sched: seq<Step>)
  {
    n > 0 && AllEnabled(Init(n), sched)
  }

  /** Every reachable state is good. */
  lemma RunIsGood(n: nat, sched: seq<Step>)
    requires Valid(n, sched)
    ensures Good(Run(Init(n), sched))
  {
    InitIsGood(n);
    RunKeepsGood(Init(n), sched);
  }

  // ----- The tables -----

  /** Page tables and the inverted table are mutually inverse on owned frames. */
  lemma TablesAreInverse(n: nat, sched: seq<Step>, p: nat, v: nat, f: nat)
    requires Valid(n, sched)
    ensures var s := Run(Init(n), sched);
      (Present(s, p, v) && s.E(p, v).ppn == f) <==>
      (f < |s.frames| && s.frames[f].owned && s.frames[f].owner == p && s.frames[f].vpn == v)
  {
    RunIsGood(n, sched);
    var s := Run(Init(n), sched);
    hide Run, SwapOk, BytesOk, CallsOk, PinsOk;
    assert s.HasPage(p, v) ==> EntryOk(s, -1, p, v);
    if f < |s.frames| { assert FrameOk(s, -1, f); }
  }

  // ----- Reads return what was written -----

  /** A successful write is the latest store to each of its addresses; a successful read returns
      the latest store to each of its addresses. */
  lemma ReturnedCallsAgree(n: nat, sched: seq<Step>, p: nat, i: nat)
    requires Valid(n, sched)
    requires var s := Run(Init(n), sched); p < |s.procs| && s.procs[p].call.Returned? && i < s.procs[p].call.count
    ensures var s := Run(Init(n), sched); var t := s.procs[p].call.t;
      i < t.length && 0 <= t.offset && t.offset + t.length <= |t.data| && Agrees(s.log, p, t, i)
  {
    RunIsGood(n, sched);
    assert CallOk(Run(Init(n), sched), p);
  }

  /** A call that is not refused moves exactly the bytes that lie in the pages of the process. It
      returns their number, as documented, exactly when that is all of them; otherwise it
      returns 0. A call that is refused moves nothing and returns 0. */
  lemma CallReturnsLength(n: nat, sched: seq<Step>, p: nat)
    requires Valid(n, sched)
    requires var s := Run(Init(n), sched); p < |s.procs| && s.procs[p].call.Returned?
    ensures var s := Run(Init(n), sched); var c := s.procs[p].call; var end := |s.procs[p].table| * PAGE;
      if Refused(c.t, |s.procs[p].table|) then c.t.n == 0 && c.count == 0
      else
        && c.t.n == (if c.t.vaddr + c.t.length <= end then c.t.length else end - c.t.vaddr)
        && c.count == (if c.t.vaddr + c.t.length <= end then c.t.length else 0)
        && (c.count == c.t.n <==> c.t.vaddr + c.t.length <= end)
  {
    RunIsGood(n, sched);
    assert CallOk(Run(Init(n), sched), p);
  }

  // ----- A write that stores bytes and returns 0 -----

  lemma RunStep(n: nat, sched: seq<Step>, st: Step)
    requires Valid(n, sched) && Enabled(Run(Init(n), sched), st)
    ensures Valid(n, sched + [st]) && CanStep(Run(Init(n), sched), st)
    ensures Run(Init(n), sched + [st]) == Next(Run(Init(n), sched), st)
    ensures Good(Run(Init(n), sched)) && Good(Run(Init(n), sched + [st]))
  {
    hide Init, Next, CanStep, Enabled, Good;
    InitIsGood(n);
    RunIsGood(n, sched);
    StepKeepsGood(Run(Init(n), sched), st);
    RunAppend(Init(n), sched, [st]);
    EnabledAppend(Init(n), sched, st);
    assert [st][1..] == [];
  }

  lemma {:induction false} EnabledAppend(s: State, sched: seq<Step>, st: Step)
    requires Good(s) && AllEnabled(s, sched) && Enabled(Run(s, sched), st)
    ensures AllEnabled(s, sched + [st])
    decreases |sched|
  {
    hide Good, Next, CanStep, Enabled;
    if sched == [] {
      assert sched + [st] == [st] && [st][1..] == [];
    } else {
      StepKeepsGood(s, sched[0]);
      assert (sched + [st])[1..] == sched[1..] + [st];
      EnabledAppend(Next(s, sched[0]), sched[1..], st);
    }
  }

  /** A write of 48 bytes, 24 bytes before the end of the only page. */
  function LongWrite(n: nat): Transfer { Transfer(true, 1000, seq(48, i => 7), 0, 48, n) }

  /** One process of one page, with this call and this log. */
  predicate OnePage(s: State, c: Call, log: seq<Write>)
  {
    |s.procs| == 1 && s.procs[0].live && |s.procs[0].table| == 1 && s.procs[0].call == c && s.log == log
  }

  lemma FirstVerify(s: State, init: seq<Byte>)
    requires Good(s) && OnePage(s, Busy(LongWrite(0), Verify), []) && CanStep(s, Go(0, init)) && |init| == PAGE
    requires !s.procs[0].table[0].valid && |s.frames| == 1 && !s.frames[0].owned
    ensures OnePage(Next(s, Go(0, init)), Busy(LongWrite(0), Copy), [])
  {
    assert Takes(s.frames[At(s, 0)]) && s.E(0, 0) == s.procs[0].table[0];
    FaultKeeps(s, 0, 0, init);
    assert SameProcess(s.procs[0], Fault(s, 0, 0, init).procs[0]);
    hide Fault, Good;
  }

  lemma FirstCopy(s: State, init: seq<Byte>)
    requires OnePage(s, Busy(LongWrite(0), Copy), []) && CanStep(s, Go(0, init))
    ensures OnePage(Next(s, Go(0, init)), Busy(LongWrite(0), Clean), [Write(0, 1000, seq(24, i => 7))])
  {
    assert Chunk(LongWrite(0)) == 24 && LongWrite(0).data[0..24] == seq(24, i => 7);
    hide Splice;
  }

  lemma FirstClean(s: State, init: seq<Byte>, log: seq<Write>)
    requires OnePage(s, Busy(LongWrite(0), Clean), log) && CanStep(s, Go(0, init))
    ensures OnePage(Next(s, Go(0, init)), Busy(LongWrite(24), Verify), log)
  {
    assert Chunk(LongWrite(0)) == 24;
  }

  lemma LastVerify(s: State, init: seq<Byte>, log: seq<Write>)
    requires OnePage(s, Busy(LongWrite(24), Verify), log) && CanStep(s, Go(0, init))
    ensures OnePage(Next(s, Go(0, init)), Returned(LongWrite(24), 0), log)
  {
  }

  /** With one frame and one process of one page, that write stores 24 bytes and returns 0. */
  lemma PartialWriteReturnsZero() returns (sched: seq<Step>)
    ensures Valid(1, sched)
    ensures OnePage(Run(Init(1), sched), Returned(LongWrite(24), 0), [Write(0, 1000, seq(24, i => 7))])
  {
    var init := seq(PAGE, i => 0);
    var go, log := Go(0, init), [Write(0, 1000, seq(24, i => 7))];
    assert Valid(1, []) && Run(Init(1), []) == Init(1);
    RunStep(1, [], Spawn(1));
    sched := [] + [Spawn(1)];
    var s := Run(Init(1), sched);
    assert OnePage(s, Idle, []) && !s.procs[0].table[0].valid && |s.frames| == 1 && !s.frames[0].owned;
    hide Run, Init, Valid, Good;
    RunStep(1, sched, Begin(0, LongWrite(0)));
    sched := sched + [Begin(0, LongWrite(0))];
    s := Run(Init(1), sched);
    RunStep(1, sched, go);
    FirstVerify(s, init);
    hide Next, CanStep;
    sched := sched + [go];
    RunStep(1, sched, go);
    FirstCopy(Run(Init(1), sched), init);
    sched := sched + [go];
    RunStep(1, sched, go);
    FirstClean(Run(Init(1), sched), init, log);
    sched := sched + [go];
    RunStep(1, sched, go);
    LastVerify(Run(Init(1), sched), init, log);
    sched := sched + [go];
  }

  /** Not every call within the pages of the process is served: the limit checked is one byte a
      page too low, and exactly the calls that start at or above it are turned away. */
  lemma CallsNearTheEndAreRefused(t: Transfer, numPages: nat)
    requires 0 <= t.offset && 0 < t.length && t.offset + t.length <= |t.data|
    requires 0 <= t.vaddr && t.vaddr + t.length <= numPages * PAGE
    ensures Refused(t, numPages) <==> numPages * PAGE - t.vaddr <= numPages
    ensures Refused(Transfer(true, 1023, [0], 0, 1, 0), 1) && Refused(Transfer(false, 2046, [0, 0], 0, 2, 0), 2)
  {
    assert numPages * (PAGE - 1) == numPages * PAGE - numPages;
  }

  /** Process `p` is not in the middle of a write. */
  predicate NotWriting(s: State, p: nat)
  {
    p < |s.procs| && !(s.procs[p].call.Busy? && s.procs[p].call.t.write)
  }

  predicate StartsWrite(st: Step, p: nat) { st.Begin? && st.p == p && st.t.write }

  /** No step but a write of its own changes what is stored at the addresses of a process. */
  lemma OthersLeaveLatest(s: State, st: Step, p: nat)
    requires Good(s) && Enabled(s, st) && CanStep(s, st) && NotWriting(s, p) && !StartsWrite(st, p)
    ensures NotWriting(Next(s, st), p) && forall a: int :: Latest(Next(s, st).log, p, a) == Latest(s.log, p, a)
  {
    var s' := Next(s, st);
    StepLog(s, st);
    if s'.log != s.log {
      var w := s'.log[|s.log|];
      forall a: int ensures Latest(s'.log, p, a) == Latest(s.log, p, a) { LatestAppend(s.log, w, p, a); }
    }
    StepCall(s, st, p);
  }

  /** Only the copy of a writing process adds to the log. */
  lemma StepLog(s: State, st: Step)
    requires Good(s) && Enabled(s, st) && CanStep(s, st)
    ensures var s' := Next(s, st);
      s'.log == s.log ||
      (st.Go? && s.procs[st.p].call.t.write && exists w :: s'.log == s.log + [w] && w.p == st.p)
  {
    var s' := Next(s, st);
    match st
    case Touch(p, v, init) =>
      if !s.E(p, v).valid { hide Good, Fault; assert Good(s); FaultLog(s, p, v, init); }
    case Go(p, init) =>
      if s.procs[p].call.stage == Verify {
        var v := PageIndex(s.procs[p].call.t);
        if 0 <= v < |s.procs[p].table| && !s.E(p, v).valid { FaultLog(s, p, v, init); }
      } else if s.procs[p].call.stage == Copy && s.procs[p].call.t.write {
        assert s'.log == s.log + [s'.log[|s.log|]];
      }
    case Spawn(_) =>
    case Begin(_, _) =>
    case Exit(_) =>
  }

  lemma FaultLog(s: State, p: nat, v: nat, init: seq<Byte>)
    requires Good(s) && s.HasPage(p, v) && s.procs[p].live && !s.E(p, v).valid && |init| == PAGE
    ensures CanFault(s, p, v, init) && SameCalls(s, Fault(s, p, v, init))
  {
    FaultKeeps(s, p, v, init);
  }

  /** A fault changes no call. */
  lemma FaultCall(s: State, q: nat, v: nat, init: seq<Byte>, p: nat)
    requires Good(s) && s.HasPage(q, v) && s.procs[q].live && !s.E(q, v).valid && |init| == PAGE && p < |s.procs|
    ensures CanFault(s, q, v, init) && p < |Fault(s, q, v, init).procs| && Fault(s, q, v, init).procs[p].call == s.procs[p].call
  {
    FaultKeeps(s, q, v, init);
    assert SameProcess(s.procs[p], Fault(s, q, v, init).procs[p]);
  }

  lemma StepCall(s: State, st: Step, p: nat)
    requires Good(s) && Enabled(s, st) && CanStep(s, st) && NotWriting(s, p) && !StartsWrite(st, p)
    ensures NotWriting(Next(s, st), p)
  {
    hide Good, Fault, CanFault, CanCopy, Chunk, Splice, Refused, Victim, AfterClock;
    match st
    case Touch(q, v, init) =>
      if !s.E(q, v).valid { FaultCall(s, q, v, init, p); }
    case Go(q, init) =>
      if s.procs[q].call.stage == Verify {
        var v := PageIndex(s.procs[q].call.t);
        if 0 <= v < |s.procs[q].table| && !s.E(q, v).valid {
          FaultCall(s, q, v, init, p);
          if Victim(s) == None { AsleepCall(s, q, v, init); }
        }
      }
    case Spawn(_) =>
    case Begin(_, _) =>
    case Exit(_) =>
  }

  lemma AsleepCall(s: State, q: nat, v: nat, init: seq<Byte>)
    requires CanFault(s, q, v, init) && Victim(s) == None
    ensures Fault(s, q, v, init) == AfterClock(s)
  {
  }

  lemma {:induction false} RunLeavesLatest(s: State, sched: seq<Step>, p: nat, a: int)
    requires Good(s) && AllEnabled(s, sched) && NotWriting(s, p)
    requires forall i :: 0 <= i < |sched| ==> !StartsWrite(sched[i], p)
    ensures Latest(Run(s, sched).log, p, a) == Latest(s.log, p, a)
    decreases |sched|
  {
    hide Good, Next, CanStep, Enabled, Latest;
    if sched != [] {
      StepKeepsGood(s, sched[0]);
      OthersLeaveLatest(s, sched[0], p);
      RunLeavesLatest(Next(s, sched[0]), sched[1..], p, a);
    }
  }

  lemma {:induction false} RunAppend(s: State, first: seq<Step>, second: seq<Step>)
    ensures Run(s, first + second) == Run(Run(s, first), second)
    ensures AllEnabled(s, first + second) && Good(s) ==> AllEnabled(s, first) && AllEnabled(Run(s, first), second)
    decreases |first|
  {
    hide Good, Next, CanStep, Enabled;
    if first == [] {
      assert first + second == second;
    } else {
      assert (first + second)[1..] == first[1..] + second;
      if CanStep(s, first[0]) {
        RunAppend(Next(s, first[0]), first[1..], second);
        if Good(s) && Enabled(s, first[0]) { StepKeepsGood(s, first[0]); }
      } else {
        RunAppend(s, first[1..], second);
        if Good(s) && Enabled(s, first[0]) { StepKeepsGood(s, first[0]); }
      }
    }
  }

  /** Process `p` has returned from a write, or a read, of more than `i` bytes. */
  predicate Did(s: State, p: nat, write: bool, i: nat)
  {
    p < |s.procs| && s.procs[p].call.Returned? && s.procs[p].call.t.write == write && i < s.procs[p].call.count
  }

  lemma DidAgrees(s: State, p: nat, write: bool, i: nat)
    requires Good(s) && Did(s, p, write, i)
    ensures var t := s.procs[p].call.t; i < t.length && 0 <= t.offset && t.offset + t.length <= |t.data| && Agrees(s.log, p, t, i)
  {
    assert CallOk(s, p);
  }

  /** Paging refines flat memory: after a write that succeeded, a read of the same process that
      succeeds returns the bytes written at every address of both, whatever all processes did in
      between, as long as this one began no other write. */
  lemma ReadReturnsWhatWasWritten(n: nat, first: seq<Step>, second: seq<Step>, p: nat, i: nat, j: nat)
    requires Valid(n, first + second)
    requires forall k :: 0 <= k < |second| ==> !StartsWrite(second[k], p)
    requires Did(Run(Init(n), first), p, true, i) && Did(Run(Init(n), first + second), p, false, j)
    requires Run(Init(n), first).procs[p].call.t.vaddr + i == Run(Init(n), first + second).procs[p].call.t.vaddr + j
    ensures var t1, t2 := Run(Init(n), first).procs[p].call.t, Run(Init(n), first + second).procs[p].call.t;
      && 0 <= t1.offset && t1.offset + i < |t1.data| && 0 <= t2.offset && t2.offset + j < |t2.data|
      && t2.data[t2.offset + j] == t1.data[t1.offset + i]
  {
    hide Good, Next, CanStep, Enabled, Latest;
    var s0 := Init(n);
    InitIsGood(n);
    RunAppend(s0, first, second);
    var s1 := Run(s0, first);
    RunKeepsGood(s0, first);
    RunKeepsGood(s0, first + second);
    hide Run, AllEnabled, Init;
    var s2 := Run(s0, first + second);
    var t1, t2 := s1.procs[p].call.t, s2.procs[p].call.t;
    DidAgrees(s1, p, true, i);
    DidAgrees(s2, p, false, j);
    hide Refused;
    RunLeavesLatest(s1, second, p, t1.vaddr + i);
  }

  // ----- Swap slots -----

  /** The slots that hold a page, of processes that run and of those that exited. */
  ghost function SlotsInUse(s: State): set<nat>
    requires SwapOk(s)
  {
    set k: nat | k < s.numSwap && Held(s, k)
  }

  function Elements(q: seq<nat>): (r: set<nat>)
    ensures forall k :: k in r <==> k in q
  {
    if q == [] then {} else (assert q == [q[0]] + q[1..]; Elements(q[1..]) + {q[0]})
  }

  function Below(n: nat): (r: set<nat>)
    ensures forall k: nat :: k in r <==> k < n
    ensures |r| == n
  {
    if n == 0 then {} else Below(n - 1) + {n - 1}
  }

  lemma {:induction false} IncreasingIsSet(q: seq<nat>)
    requires Increasing(q)
    ensures |Elements(q)| == |q|
  {
    if q != [] {
      IncreasingTail(q);
      IncreasingIsSet(q[1..]);
    }
  }

  /** A held slot is below the number of slots and not free. */
  lemma HeldIsNotFree(s: State, k: nat)
    requires SwapOk(s) && Held(s, k)
    ensures k < s.numSwap && k !in s.freeSwap
  {
    var p: nat, v: nat :| Swapped(s, p, v) && s.E(p, v).ppn == k;
    assert SlotOk(s, p, v);
  }

  /** A slot is free or held, and never both. */
  lemma SlotIsFreeOrInUse(s: State, k: nat)
    requires SwapOk(s)
    ensures k in SlotsInUse(s) <==> k < s.numSwap && k !in s.freeSwap
  {
    if Held(s, k) { HeldIsNotFree(s, k); }
  }

  lemma Partition(used: set<nat>, free: seq<nat>, n: nat)
    requires Increasing(free) && forall k: nat :: k in free ==> k < n
    requires forall k: nat :: k in used <==> k < n && k !in free
    ensures |used| + |free| == n
  {
    IncreasingIsSet(free);
    assert Below(n) == used + Elements(free);
    assert used !! Elements(free);
  }

  lemma SlotsAreFreeOrInUse(s: State)
    requires SwapOk(s)
    ensures |SlotsInUse(s)| + |s.freeSwap| == s.numSwap
  {
    var used := SlotsInUse(s);
    forall k: nat ensures k in used <==> k < s.numSwap && k !in s.freeSwap { SlotIsFreeOrInUse(s, k); }
    assert Sized(s) && Increasing(s.freeSwap);
    hide SlotsInUse, SwapOk, Increasing;
    Partition(used, s.freeSwap, s.numSwap);
  }

  /** The state between the eviction and the loading of a fault; the state itself when the step
      has none. */
  ghost function Mid(s: State, st: Step): State
    requires Good(s) && Enabled(s, st)
  {
    if Faults(s, st) && Victim(s).Some? then (FreedIsBetween(s); Freed(s)) else s
  }

  ghost predicate Faults(s: State, st: Step)
    requires Enabled(s, st)
  {
    match st
    case Touch(p, v, _) => !s.E(p, v).valid
    case Go(p, _) =>
      s.procs[p].call.stage == Verify &&
      var v := PageIndex(s.procs[p].call.t); 0 <= v < |s.procs[p].table| && !s.E(p, v).valid
    case _ => false
  }

  function Max(a: nat, b: nat): nat { if a < b then b else a }

  /** The most slots in use at any moment of a run, on top of `m`. */
  ghost function Peak(s: State, sched: seq<Step>, m: nat): nat
    requires Good(s) && AllEnabled(s, sched)
    decreases |sched|
  {
    if sched == [] then m
    else
      StepKeepsGood(s, sched[0]);
      MidKeepsSwap(s, sched[0]);
      var s' := Next(s, sched[0]);
      Peak(s', sched[1..], Max(m, Max(|SlotsInUse(Mid(s, sched[0]))|, |SlotsInUse(s')|)))
  }

  lemma MidKeepsSwap(s: State, st: Step)
    requires Good(s) && Enabled(s, st)
    ensures SwapOk(Mid(s, st))
    ensures var m := Mid(s, st);
      m.numSwap == s.numSwap || (m.numSwap == s.numSwap + 1 && m.freeSwap == [])
  {
    if Faults(s, st) && Victim(s).Some? {
      FreedIsBetween(s);
      FreedSwap(s);
    }
  }

  lemma FreedSwap(s: State)
    requires |s.frames| > 0 && Victim(s).Some? && CanFree(AfterClock(s), Victim(s).value)
    ensures Freed(s).numSwap == s.numSwap || (Freed(s).numSwap == s.numSwap + 1 && Freed(s).freeSwap == [])
  {
    AfterClockIsUsedOnly(s);
  }

  lemma FaultNumSwap(s: State, p: nat, v: nat, init: seq<Byte>)
    requires CanFault(s, p, v, init)
    ensures Fault(s, p, v, init).numSwap == if Victim(s).Some? then Freed(s).numSwap else s.numSwap
  {
    AfterClockIsUsedOnly(s);
  }

  /** Loading frees a slot but never gives up the end of the file. */
  lemma NextNumSwap(s: State, st: Step)
    requires Good(s) && Enabled(s, st)
    ensures CanStep(s, st) && Next(s, st).numSwap == Mid(s, st).numSwap
  {
    StepKeepsGood(s, st);
    hide Good, Fault, Victim, Freed, CanFault;
    match st
    case Touch(p, v, init) => if !s.E(p, v).valid { FaultNumSwap(s, p, v, init); }
    case Go(p, init) =>
      if s.procs[p].call.stage == Verify {
        var v := PageIndex(s.procs[p].call.t);
        if 0 <= v < |s.procs[p].table| && !s.E(p, v).valid { FaultNumSwap(s, p, v, init); }
      }
    case Spawn(_) =>
    case Begin(_, _) =>
    case Exit(_) =>
  }

  lemma {:induction false} PeakIsNumSwap(s: State, sched: seq<Step>)
    requires Good(s) && AllEnabled(s, sched)
    ensures Peak(s, sched, s.numSwap) == Run(s, sched).numSwap
    decreases |sched|
  {
    hide Good, Next, CanStep, Enabled, Mid, SlotsInUse, SwapOk;
    if sched != [] {
      var st := sched[0];
      StepKeepsGood(s, st);
      MidKeepsSwap(s, st);
      NextNumSwap(s, st);
      var m, s' := Mid(s, st), Next(s, st);
      GoodSwap(s');
      SlotsAreFreeOrInUse(m);
      SlotsAreFreeOrInUse(s');
      assert Max(s.numSwap, Max(|SlotsInUse(m)|, |SlotsInUse(s')|)) == s'.numSwap;
      PeakIsNumSwap(s', sched[1..]);
    }
  }

  lemma GoodSwap(s: State)
    requires Good(s)
    ensures SwapOk(s)
  {
  }

  /** `numSwapPages` is the largest number of slots ever in use at once, counting the slots that
      exited processes never gave back. */
  lemma NumSwapIsHighWater(n: nat, sched: seq<Step>)
    requires Valid(n, sched)
    ensures Good(Init(n)) && Peak(Init(n), sched, 0) == Run(Init(n), sched).numSwap
  {
    InitIsGood(n);
    PeakIsNumSwap(Init(n), sched);
  }

  /** No two swapped pages share a slot, and no slot in use is free. */
  lemma SlotsAreHeldOnce(n: nat, sched: seq<Step>, p: nat, v: nat, q: nat, w: nat)
    requires Valid(n, sched)
    requires var s := Run(Init(n), sched); Swapped(s, p, v) && Swapped(s, q, w)
    ensures var s := Run(Init(n), sched);
      && 0 <= s.E(p, v).ppn < s.numSwap && s.E(p, v).ppn !in s.freeSwap
      && (s.E(p, v).ppn == s.E(q, w).ppn ==> p == q && v == w)
  {
    RunIsGood(n, sched);
    var s := Run(Init(n), sched);
    assert SlotOk(s, p, v) && Alone(s, p, v, q, w);
  }

  /** The slot taken is the lowest of the free ones, and the end of the file when none is free. */
  lemma SlotIsLowest(s: State, k: nat)
    requires Good(s) && k in s.freeSwap
    ensures Slot(s) in s.freeSwap && Slot(s) <= k && Slot(s) < s.numSwap
  {
    assert s.freeSwap[0] in s.freeSwap;
  }
}
