/** The clock: which frame it takes, which used bits it clears, and where its hand stands then. */
module PagingClock {
  import opened Helpers
  import opened Paging
  import opened PagingSafety

  // ----- What the clock's sweep does to a frame -----

  /** Clearing the frame again would change nothing. */
  predicate Cleared(s: State, f: nat)
    requires f < |s.frames|
  {
    var fr := s.frames[f];
    !fr.used && (s.HasPage(fr.owner, fr.vpn) ==> !s.E(fr.owner, fr.vpn).used)
  }

  lemma ClearClears(s: State, f: nat)
    requires f < |s.frames|
    ensures Cleared(Clear(s, f), f)
    ensures Cleared(s, f) ==> Clear(s, f) == s
  {
    var fr := s.frames[f];
    if Cleared(s, f) {
      assert s.frames[f := fr] == s.frames;
      if s.HasPage(fr.owner, fr.vpn) {
        var pr := s.procs[fr.owner];
        assert pr.table[fr.vpn := pr.table[fr.vpn]] == pr.table;
        assert s.procs[fr.owner := pr] == s.procs;
      }
    }
  }

  lemma ClearKeepsCleared(s: State, f: nat, g: nat)
    requires f < |s.frames| && g < |s.frames| && Cleared(s, g)
    ensures Cleared(Clear(s, f), g)
  {
  }

  /** In the middle of a sweep the frames passed are cleared and those ahead are untouched. */
  lemma {:induction false} SweepAt(s: State, k: nat, j: nat)
    requires k <= |s.frames| && j < |s.frames|
    ensures if j < k then Cleared(Sweep(s, k), At(s, j)) else Sweep(s, k).frames[At(s, j)] == s.frames[At(s, j)]
  {
    if k > 0 {
      SweepAt(s, k - 1, j);
      var m, f := Sweep(s, k - 1), At(s, k - 1);
      ClearClears(m, f);
      if j < k - 1 { ClearKeepsCleared(m, f, At(s, j)); }
    }
  }

  lemma SweepKeepsPins(s: State, k: nat, f: nat)
    requires k <= |s.frames| && f < |s.frames|
    ensures var fr := Sweep(s, k).frames[f];
      fr.owned == s.frames[f].owned && fr.pinned == s.frames[f].pinned && fr.owner == s.frames[f].owner && fr.vpn == s.frames[f].vpn
  {
    SweepIsUsedOnly(s, k);
    assert SameFrame(s.frames[f], Sweep(s, k).frames[f]);
  }

  // ----- The frame that the clock takes -----

  /** Every frame is met within one sweep from the hand. */
  lemma FrameIsMet(s: State, f: nat) returns (k: nat)
    requires f < |s.frames|
    ensures k < |s.frames| && At(s, k) == f
  {
    var h := s.hand % |s.frames|;
    k := if f >= h then f - h else f + |s.frames| - h;
  }

  /** The clock finds a frame unless every frame is owned and pinned. It takes the first from the
      hand that is without an owner, or neither pinned nor used; when there is none, the first
      that is not pinned. */
  lemma ClockTakesFirst(s: State)
    requires |s.frames| > 0
    ensures Victim(s) == None <==> forall f :: 0 <= f < |s.frames| ==> s.frames[f].owned && s.frames[f].pinned
    ensures Victim(s).Some? ==>
      exists k: nat :: k < |s.frames| && Victim(s).value == At(s, k) &&
        if Takes(s.frames[At(s, k)]) then forall i :: 0 <= i < k ==> !Takes(s.frames[At(s, i)])
        else
          && (forall f :: 0 <= f < |s.frames| ==> !Takes(s.frames[f]))
          && !s.frames[At(s, k)].pinned && forall i :: 0 <= i < k ==> s.frames[At(s, i)].pinned
  {
    var n, j, u := |s.frames|, FirstTaken(s, 0), FirstUnpinned(s, 0);
    if j == n {
      forall f: nat | f < n ensures !Takes(s.frames[f]) && (u == n ==> s.frames[f].pinned) {
        var k := FrameIsMet(s, f);
        assert At(s, k) == f;
      }
    }
    if j < n {
      assert Victim(s).value == At(s, j) && Takes(s.frames[At(s, j)]);
    } else if u < n {
      assert Victim(s).value == At(s, u) && !s.frames[At(s, u)].pinned;
    }
  }

  // ----- The used bits it clears, and its hand -----

  lemma SamePlace(s: State, i: nat, j: nat)
    requires i < |s.frames| && j < |s.frames| && At(s, i) == At(s, j)
    ensures i == j
  {
  }

  /** The clock passes frame `f` on its way round and does not take it at first sight. */
  ghost predicate Passes(s: State, f: nat)
    requires |s.frames| > 0
  {
    exists j: nat :: j < FirstTaken(s, 0) && j < |s.frames| && At(s, j) == f
  }

  /** The length of the first sweep: the frames before the one taken at first sight, or all. */
  lemma AfterClockSweeps(s: State)
    requires |s.frames| > 0
    ensures AfterClock(s) == Sweep(s, FirstTaken(s, 0)).(hand := AfterClock(s).hand)
  {
    var k := FirstTaken(s, 0);
    var swept := Sweep(s, k);
    assert k == |s.frames| || AfterClock(s) == swept.(hand := At(s, k) + 1);
    hide Sweep, At, FirstTaken, FirstUnpinned;
  }

  /** The clock clears the used bits of the frames it passes and of no others, and changes
      nothing else of a frame. */
  lemma ClockClearsFrames(s: State, f: nat)
    requires f < |s.frames|
    ensures AfterClock(s).frames[f] == s.frames[f].(used := s.frames[f].used && !Passes(s, f))
  {
    var j := FrameIsMet(s, f);
    var k := FirstTaken(s, 0);
    AfterClockSweeps(s);
    SweepAt(s, k, j);
    SweepKeepsPins(s, k, f);
    if Passes(s, f) {
      var i: nat :| i < k && i < |s.frames| && At(s, i) == f;
      SamePlace(s, i, j);
    }
  }

  /** A sweep over owned frames leaves the pages that are in none of them alone. */
  lemma {:induction false} SweepKeepsEntry(s: State, k: nat, p: nat, v: nat)
    requires k <= |s.frames| && s.HasPage(p, v)
    requires forall j :: 0 <= j < k ==> s.frames[At(s, j)].owner != p || s.frames[At(s, j)].vpn != v
    ensures Sweep(s, k).HasPage(p, v) && Sweep(s, k).E(p, v) == s.E(p, v)
  {
    if k > 0 {
      SweepKeepsEntry(s, k - 1, p, v);
      SweepKeepsPins(s, k - 1, At(s, k - 1));
    }
  }

  /** The clock clears the used bits of the pages in the frames it passes and of no others. */
  lemma ClockClearsPages(s: State, p: nat, v: nat)
    requires |s.frames| > 0 && Mapped(s, -1) && s.HasPage(p, v)
    ensures var here := Present(s, p, v) && Passes(s, s.E(p, v).ppn);
      AfterClock(s).HasPage(p, v) && AfterClock(s).E(p, v) == s.E(p, v).(used := s.E(p, v).used && !here)
  {
    var k := FirstTaken(s, 0);
    AfterClockSweeps(s);
    SweepIsUsedOnly(s, k);
    UsedOnlyPresent(s, Sweep(s, k), p, v);
    assert EntryOk(s, -1, p, v);
    if Present(s, p, v) && Passes(s, s.E(p, v).ppn) {
      var i: nat :| i < k && i < |s.frames| && At(s, i) == s.E(p, v).ppn;
      SweepAt(s, k, i);
      SweepKeepsPins(s, k, At(s, i));
    } else {
      forall j: nat | j < k ensures s.frames[At(s, j)].owner != p || s.frames[At(s, j)].vpn != v {
        assert !Takes(s.frames[At(s, j)]) && FrameOk(s, -1, At(s, j));
      }
      SweepKeepsEntry(s, k, p, v);
    }
  }

  lemma ModSmall(x: nat, n: nat)
    requires 0 < n && x <= n
    ensures x % n == if x == n then 0 else x
  {
  }

  lemma PlaceFromHand(s: State, f: nat)
    requires f < |s.frames| && s.hand == f + 1
    ensures At(s, |s.frames| - 1) == f
    ensures At(s, 0) == if f + 1 == |s.frames| then 0 else f + 1
  {
    ModSmall(f + 1, |s.frames|);
  }

  /** The hand stops behind the frame taken, so that frame is the last that the next search meets. */
  lemma HandMovesOn(s: State)
    requires |s.frames| > 0 && Victim(s).Some?
    ensures At(AfterClock(s), |s.frames| - 1) == Victim(s).value
    ensures At(AfterClock(s), 0) == if Victim(s).value + 1 == |s.frames| then 0 else Victim(s).value + 1
  {
    HandAfterClock(s);
    hide AfterClock, Victim;
    PlaceFromHand(AfterClock(s), Victim(s).value);
  }

  lemma HandAfterClock(s: State)
    requires |s.frames| > 0 && Victim(s).Some?
    ensures AfterClock(s).hand == Victim(s).value + 1
  {
    hide Sweep, At;
  }
}
