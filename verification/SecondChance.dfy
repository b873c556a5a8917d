/** The second chance: a page in use is not evicted before the clock has passed its frame once. */
module SecondChance {
  import opened Helpers
  import opened Paging
  import opened PagingSafety
  import opened PagingRuns
  import opened PagedMemory
  import opened PagingClock

  /** Frame `f` holds page `v` of process `p` and is marked as used. */
  predicate Marked(s: State, f: nat, p: nat, v: nat)
  {
    && f < |s.frames| && s.frames[f].owned && s.frames[f].used && s.frames[f].owner == p && s.frames[f].vpn == v
    && Present(s, p, v) && s.E(p, v).ppn == f
  }

  // ----- Using a page marks its frame -----

  /** Step `st` makes page `v` of process `p` ready for the kernel, or brings it in after a page
      fault of the process. */
  ghost predicate Uses(s: State, st: Step, p: nat, v: nat)
    requires Good(s) && Enabled(s, st)
  {
    StepKeepsGood(s, st);
    var s' := Next(s, st);
    match st
    case Go(q, _) =>
      p == q && v == PageIndex(s.procs[q].call.t) && s.procs[q].call.stage == Verify
      && q < |s'.procs| && s'.procs[q].call.Busy? && s'.procs[q].call.stage == Copy
    case Touch(q, w, _) => p == q && v == w && s'.HasPage(p, v) && !s.E(p, v).valid && s'.E(p, v).valid
    case _ => false
  }

  /** What a page fault does to the frames: the clock's sweep, and the page in the frame taken. */
  lemma FaultFrames(s: State, p: nat, v: nat, init: seq<Byte>)
    requires Good(s) && s.HasPage(p, v) && s.procs[p].live && !s.E(p, v).valid && |init| == PAGE
    ensures CanFault(s, p, v, init) && |s.frames| > 0
    ensures var s' := Fault(s, p, v, init);
      Good(s') && s'.HasPage(p, v) && SameCalls(s, s') &&
      match Victim(s)
      case None => s' == AfterClock(s)
      case Some(f) => s'.E(p, v).valid && s'.frames == AfterClock(s).frames[f := Frame(true, true, false, p, v)]
  {
    hide Mapped, PinsOk, BytesOk, CallsOk, KeepsPages;
    FaultKeeps(s, p, v, init);
    GoodAfter(s, Fault(s, p, v, init));
    if Victim(s).Some? {
      var f, b := Victim(s).value, Freed(s);
      FreedIsBetween(s);
      FreedFrames(s);
      assert SameProcess(s.procs[p], b.procs[p]) && !b.E(p, v).valid;
      hide Freed, Victim, SwapOk;
      FillIsFilled(b, f, p, v, init);
    }
  }

  lemma FreedFrames(s: State)
    requires Between(s, -1) && Victim(s).Some?
    ensures CanFree(AfterClock(s), Victim(s).value) && Freed(s).frames == AfterClock(s).frames
  {
    var f, m := Victim(s).value, AfterClock(s);
    FreedIsBetween(s);
    VictimIsFree(s);
    AfterClockIsUsedOnly(s);
    hide AfterClock, Victim;
    UsedOnlyKeepsMapped(s, m, -1);
    UsedOnlyKeepsPins(s, m);
    UsedOnlyKeepsSwap(s, m);
    assert SameFrame(s.frames[f], m.frames[f]);
    if m.frames[f].owned { EvictIsEvicted(m, f); }
  }

  /** A page that is present is in the frame that names it. */
  lemma MarkedFrame(s: State, p: nat, v: nat)
    requires Good(s) && Present(s, p, v)
    ensures 0 <= s.E(p, v).ppn < |s.frames|
    ensures Marked(s, s.E(p, v).ppn, p, v) <==> s.frames[s.E(p, v).ppn].used
  {
    assert EntryOk(s, -1, p, v);
  }

  /** A frame of a good state that is owned and used is marked for the page that it names. */
  lemma HeldFrame(s: State, f: nat, p: nat, v: nat)
    requires Good(s) && f < |s.frames|
    ensures Marked(s, f, p, v) <==> s.frames[f].owned && s.frames[f].used && s.frames[f].owner == p && s.frames[f].vpn == v
  {
    assert FrameOk(s, -1, f);
  }

  lemma PinMarks(s: State, p: nat, v: nat, t: Transfer)
    requires Good(s) && Present(s, p, v) && 0 <= s.E(p, v).ppn < |s.frames|
    ensures var s' := Pin(s, p, v, t); var f := s'.E(p, v).ppn;
      Present(s', p, v) && f == s.E(p, v).ppn && s'.frames == s.frames[f := s.frames[f].(used := true, pinned := true)]
  {
  }

  /** The section that readies a page for the kernel leaves a call whose page is outside the
      process, goes back to sleep when every frame is pinned, and else leaves the frame of the page
      marked and pinned. */
  lemma VerifyMarks(s: State, p: nat, init: seq<Byte>)
    requires Good(s) && Enabled(s, Go(p, init)) && s.procs[p].call.stage == Verify
    ensures CanStep(s, Go(p, init)) && |s.frames| > 0
    ensures var s' := Next(s, Go(p, init)); var v := PageIndex(s.procs[p].call.t);
      if v < 0 || v >= |s.procs[p].table| then s' == s.WithCall(p, Returned(s.procs[p].call.t, 0))
      else if !s.E(p, v).valid && Victim(s) == None then s' == AfterClock(s)
      else Active(s', p) && s'.HasPage(p, v) && Marked(s', s'.E(p, v).ppn, p, v) && s'.frames[s'.E(p, v).ppn].pinned
  {
    StepKeepsGood(s, Go(p, init));
    var v := PageIndex(s.procs[p].call.t);
    var s' := Next(s, Go(p, init));
    if 0 <= v < |s.procs[p].table| && (s.E(p, v).valid || Victim(s).Some?) {
      ReadyFrame(s, p, v, init);
      hide Good, CanFault, Fault, Victim, CanPin, AfterClock;
      var m := if s.E(p, v).valid then s else Fault(s, p, v, init);
      assert s' == Pin(m, p, v, s.procs[p].call.t);
      PinMarks(m, p, v, s.procs[p].call.t);
      hide Next, Pin;
      MarkedFrame(s', p, v);
    }
  }

  lemma ReadyFrame(s: State, p: nat, v: nat, init: seq<Byte>)
    requires Good(s) && s.HasPage(p, v) && s.procs[p].live && |init| == PAGE
    ensures !s.E(p, v).valid ==> CanFault(s, p, v, init)
    ensures |s.frames| > 0 && (s.E(p, v).valid || Victim(s).Some? ==>
      var m := if s.E(p, v).valid then s else Fault(s, p, v, init);
      Good(m) && Present(m, p, v) && 0 <= m.E(p, v).ppn < |m.frames|)
  {
    if s.E(p, v).valid {
      PresentHasFrame(s, p, v);
    } else {
      FaultFrames(s, p, v, init);
      if Victim(s).Some? {
        var m := Fault(s, p, v, init);
        assert SameProcess(s.procs[p], m.procs[p]);
        PresentHasFrame(m, p, v);
      }
    }
  }

  /** A page fault that brings a page in leaves its frame marked. */
  lemma TouchMarks(s: State, p: nat, v: nat, init: seq<Byte>)
    requires Good(s) && Enabled(s, Touch(p, v, init)) && !s.E(p, v).valid
    ensures CanStep(s, Touch(p, v, init)) && |s.frames| > 0
    ensures var s' := Next(s, Touch(p, v, init));
      if Victim(s) == None then s' == AfterClock(s) else s'.HasPage(p, v) && s'.E(p, v).ppn == Victim(s).value && Marked(s', Victim(s).value, p, v)
  {
    FaultFrames(s, p, v, init);
    if Victim(s).Some? {
      HeldFrame(Fault(s, p, v, init), Victim(s).value, p, v);
    }
  }

  // ----- A marked frame stays until the clock has passed it -----

  /** A clock that does not pass a marked frame does not take it either. */
  lemma SparedByClock(s: State, f: nat, p: nat, v: nat)
    requires Marked(s, f, p, v) && !Passes(s, f)
    ensures Victim(s).Some? && Victim(s).value != f && AfterClock(s).frames[f] == s.frames[f]
  {
    var k := FrameIsMet(s, f);
    ClockClearsFrames(s, f);
  }

  lemma FaultSpares(s: State, q: nat, w: nat, init: seq<Byte>, f: nat, p: nat, v: nat)
    requires Good(s) && s.HasPage(q, w) && s.procs[q].live && !s.E(q, w).valid && |init| == PAGE
    requires Marked(s, f, p, v) && !Passes(s, f)
    ensures CanFault(s, q, w, init) && Marked(Fault(s, q, w, init), f, p, v)
  {
    FaultFrames(s, q, w, init);
    SparedByClock(s, f, p, v);
    HeldFrame(Fault(s, q, w, init), f, p, v);
  }

  /** No step takes a marked frame away but a page fault whose clock passes it and the exit of its
      process. */
  lemma StepSpares(s: State, st: Step, f: nat, p: nat, v: nat)
    requires Good(s) && Enabled(s, st) && Marked(s, f, p, v) && st != Exit(p)
    requires Faults(s, st) ==> !Passes(s, f)
    ensures CanStep(s, st) && Marked(Next(s, st), f, p, v)
  {
    StepKeepsGood(s, st);
    var s' := Next(s, st);
    match st
    case Spawn(_) => HeldFrame(s', f, p, v);
    case Begin(_, _) => HeldFrame(s', f, p, v);
    case Touch(q, w, init) => if !s.E(q, w).valid { FaultSpares(s, q, w, init, f, p, v); }
    case Exit(q) =>
      UnloadAt(s, q, |s.procs[q].table|, f);
      HeldFrame(s', f, p, v);
    case Go(q, init) =>
      if s.procs[q].call.stage == Verify { VerifySpares(s, q, init, f, p, v); } else { HeldFrame(s', f, p, v); }
  }

  lemma VerifySpares(s: State, q: nat, init: seq<Byte>, f: nat, p: nat, v: nat)
    requires Good(s) && Enabled(s, Go(q, init)) && s.procs[q].call.stage == Verify && Marked(s, f, p, v)
    requires Faults(s, Go(q, init)) ==> !Passes(s, f)
    ensures CanStep(s, Go(q, init)) && Marked(Next(s, Go(q, init)), f, p, v)
  {
    StepKeepsGood(s, Go(q, init));
    var w := PageIndex(s.procs[q].call.t);
    var s' := Next(s, Go(q, init));
    if 0 <= w < |s.procs[q].table| {
      if !s.E(q, w).valid {
        FaultSpares(s, q, w, init, f, p, v);
        SparedByClock(s, f, p, v);
      }
      ReadyFrame(s, q, w, init);
      var m := if s.E(q, w).valid then s else Fault(s, q, w, init);
      PinMarks(m, q, w, s.procs[q].call.t);
    }
    HeldFrame(s', f, p, v);
  }

  /** No page fault of the schedule passes frame `f`. */
  ghost predicate Spared(s: State, sched: seq<Step>, f: nat)
    requires Good(s) && AllEnabled(s, sched)
    decreases |sched|
  {
    sched != [] ==> (
      StepKeepsGood(s, sched[0]);
      (Faults(s, sched[0]) ==> !Passes(s, f)) && Spared(Next(s, sched[0]), sched[1..], f)
    )
  }

  lemma {:induction false} RunSpares(s: State, sched: seq<Step>, f: nat, p: nat, v: nat)
    requires Good(s) && AllEnabled(s, sched) && Spared(s, sched, f) && Exit(p) !in sched && Marked(s, f, p, v)
    ensures Marked(Run(s, sched), f, p, v)
    decreases |sched|
  {
    hide Good, Next, CanStep, Enabled, Marked, Passes, Faults;
    if sched != [] {
      StepKeepsGood(s, sched[0]);
      StepSpares(s, sched[0], f, p, v);
      RunSpares(Next(s, sched[0]), sched[1..], f, p, v);
    }
  }

  /** The state at the end of a run. */
  ghost function Reached(n: nat, sched: seq<Step>): (s: State)
    requires Valid(n, sched)
    ensures Good(s)
  {
    RunIsGood(n, sched);
    Run(Init(n), sched)
  }

  /** The second chance, over every run: a page that the kernel has verified, or that a page fault
      has brought in, stays in its frame, marked, as long as no page fault passes that frame and its
      process runs; and the next page fault takes the frame only if it finds every frame owned and
      either pinned or used. */
  lemma SecondChance(n: nat, before: seq<Step>, st: Step, after: seq<Step>, p: nat, v: nat)
    requires Valid(n, before) && Enabled(Reached(n, before), st) && Uses(Reached(n, before), st, p, v)
    requires Valid(n, before + [st]) && Valid(n, before + [st] + after) && Exit(p) !in after
    requires var s := Reached(n, before + [st]);
      s.HasPage(p, v) && s.E(p, v).ppn >= 0 && AllEnabled(s, after) && Spared(s, after, s.E(p, v).ppn)
    ensures var f := Reached(n, before + [st]).E(p, v).ppn; var s := Reached(n, before + [st] + after);
      && Marked(s, f, p, v)
      && (Victim(s) == Some(f) ==> forall g :: 0 <= g < |s.frames| ==> s.frames[g].owned && (s.frames[g].pinned || s.frames[g].used))
  {
    hide Good, Next, Uses, Spared, Init, Run, AllEnabled, CanStep, Marked, Victim;
    RunStep(n, before, st);
    var s1 := Reached(n, before + [st]);
    UseMarks(Reached(n, before), st, p, v);
    var f := s1.E(p, v).ppn;
    RunAppend(Init(n), before + [st], after);
    RunSpares(s1, after, f, p, v);
    OnlyWhenAllTurnedDown(Run(s1, after), f, p, v);
  }

  lemma OnlyWhenAllTurnedDown(s: State, f: nat, p: nat, v: nat)
    requires Marked(s, f, p, v)
    ensures |s.frames| > 0
    ensures Victim(s) == Some(f) ==> forall g :: 0 <= g < |s.frames| ==> s.frames[g].owned && (s.frames[g].pinned || s.frames[g].used)
  {
    ClockTakesFirst(s);
  }

  lemma UseMarks(s: State, st: Step, p: nat, v: nat)
    requires Good(s) && Enabled(s, st) && Uses(s, st, p, v)
    ensures CanStep(s, st)
    ensures var s' := Next(s, st);
      s'.HasPage(p, v) && s'.E(p, v).ppn >= 0 && Marked(s', s'.E(p, v).ppn, p, v) && (st.Go? ==> s'.frames[s'.E(p, v).ppn].pinned)
  {
    StepKeepsGood(s, st);
    match st
    case Go(q, init) =>
      VerifyMarks(s, q, init);
      AfterClockIsUsedOnly(s);
      assert SameProcess(s.procs[p], AfterClock(s).procs[p]);
    case Touch(q, w, init) =>
      TouchMarks(s, q, w, init);
      AfterClockIsUsedOnly(s);
      UsedOnlyPresent(s, AfterClock(s), p, v);
    case _ =>
  }
}
