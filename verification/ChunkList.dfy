/** The chunks of the allocator as a list: where each chunk starts and whether it is free.
    Positions count headers, that is units of eight bytes. */
module ChunkList {

  datatype Chunk = Chunk(start: nat, free: bool)

  /** A block handed out: the chunk between the positions `lo` and `hi`. */
  datatype Block = Block(lo: nat, hi: nat)

  /** The last header of the arena, which delimits it. */
  const TOP := 8191

  /** Neighbours: positions grow and the two are not both free. */
  predicate Neighbours(c: Chunk, d: Chunk) { c.start < d.start && !(c.free && d.free) }

  /** The chunks tile the arena from position 0 to the delimiter, and no two neighbours are
      both free. */
  ghost predicate WellFormed(cs: seq<Chunk>)
  {
    && |cs| >= 2
    && cs[0].start == 0
    && cs[|cs| - 1] == Chunk(TOP, false)
    && (forall i :: 0 <= i < |cs| - 1 ==> Neighbours(cs[i], cs[i + 1]))
  }

  lemma {:induction false} Ordered(cs: seq<Chunk>, i: nat, j: nat)
    requires WellFormed(cs) && i <= j < |cs|
    ensures i < j ==> cs[i].start < cs[j].start
    decreases j - i
  {
    if i < j {
      assert Neighbours(cs[i], cs[i + 1]);
      Ordered(cs, i + 1, j);
    }
  }

  function Size(cs: seq<Chunk>, i: nat): int
    requires i + 1 < |cs|
  {
    cs[i + 1].start - cs[i].start
  }

  predicate Fits(cs: seq<Chunk>, i: nat, n: nat)
    requires i < |cs|
  {
    i + 1 < |cs| && cs[i].free && Size(cs, i) >= n
  }

  /** The first chunk from index `i` on that can hold `n` headers, or the end of the list. */
  function FirstFit(cs: seq<Chunk>, n: nat, i: nat): (k: nat)
    requires i <= |cs|
    ensures i <= k <= |cs|
    ensures k < |cs| ==> Fits(cs, k, n)
    ensures forall j :: i <= j < k ==> !Fits(cs, j, n)
    decreases |cs| - i
  {
    if i == |cs| || Fits(cs, i, n) then i else FirstFit(cs, n, i + 1)
  }

  /** The list after `n` headers have been taken from the high end of chunk `k`. */
  function Take(cs: seq<Chunk>, k: nat, n: nat): seq<Chunk>
    requires k < |cs| && Fits(cs, k, n)
  {
    if Size(cs, k) == n then cs[k := cs[k].(free := false)]
    else cs[..k + 1] + [Chunk(cs[k + 1].start - n, false)] + cs[k + 1..]
  }

  /** The list after chunk `k` has been given back and joined with free neighbours. */
  function Give(cs: seq<Chunk>, k: nat): seq<Chunk>
    requires k + 1 < |cs|
  {
    var left := if k > 0 && cs[k - 1].free then cs[..k] else cs[..k] + [Chunk(cs[k].start, true)];
    var right := if cs[k + 1].free then cs[k + 2..] else cs[k + 1..];
    left + right
  }

  function Initial(): seq<Chunk> { [Chunk(0, true), Chunk(TOP, false)] }

  /** Chunk `i` is busy and holds block `b`. */
  predicate Holds(cs: seq<Chunk>, i: int, b: Block)
  {
    0 <= i < |cs| - 1 && !cs[i].free && b == Block(cs[i].start, cs[i + 1].start)
  }

  ghost predicate IsLive(cs: seq<Chunk>, b: Block)
  {
    exists i :: Holds(cs, i, b)
  }

  /** The blocks handed out. */
  ghost function Live(cs: seq<Chunk>): (s: set<Block>)
    ensures forall b :: b in s <==> IsLive(cs, b)
  {
    LiveUpTo(cs, |cs| - 1)
  }

  ghost function LiveUpTo(cs: seq<Chunk>, n: int): (s: set<Block>)
    requires -1 <= n < |cs|
    ensures forall b :: b in s <==> exists i :: i < n && Holds(cs, i, b)
  {
    if n <= 0 then {}
    else if cs[n - 1].free then LiveUpTo(cs, n - 1)
    else
      assert Holds(cs, n - 1, Block(cs[n - 1].start, cs[n].start));
      LiveUpTo(cs, n - 1) + {Block(cs[n - 1].start, cs[n].start)}
  }

  // ----- The list is a canonical form -----

  /** Two lists with the same live blocks. */
  ghost predicate Same(cs: seq<Chunk>, ds: seq<Chunk>)
  {
    WellFormed(cs) && WellFormed(ds) && Live(cs) == Live(ds)
  }

  /** A busy chunk is found at the same index of the other list if it starts there too. */
  lemma SameBusy(cs: seq<Chunk>, ds: seq<Chunk>, i: nat)
    requires Same(cs, ds) && i + 1 < |cs| && i < |ds| && cs[i].start == ds[i].start && !cs[i].free
    ensures i + 1 < |ds| && !ds[i].free && cs[i + 1].start == ds[i + 1].start
  {
    var b := Block(cs[i].start, cs[i + 1].start);
    assert Holds(cs, i, b);
    assert IsLive(ds, b);
    var j :| Holds(ds, j, b);
    if j < i { Ordered(ds, j, i); }
    if i < j { Ordered(ds, i, j); }
  }

  /** A free chunk does not end earlier than in the other list. */
  lemma SameFree(cs: seq<Chunk>, ds: seq<Chunk>, i: nat)
    requires Same(cs, ds) && i + 1 < |cs| && i + 1 < |ds| && cs[i] == ds[i] && cs[i].free
    ensures ds[i + 1].start <= cs[i + 1].start
  {
    Ordered(ds, i + 1, |ds| - 1);
    if i + 2 < |cs| {
      assert Neighbours(cs[i], cs[i + 1]);
      var b := Block(cs[i + 1].start, cs[i + 2].start);
      assert Holds(cs, i + 1, b);
      assert IsLive(ds, b);
      var j :| Holds(ds, j, b);
      if j <= i { Ordered(ds, j, i); } else { Ordered(ds, i + 1, j); }
    }
  }

  lemma SameNext(cs: seq<Chunk>, ds: seq<Chunk>, i: nat)
    requires Same(cs, ds) && i + 1 < |cs| && i < |ds| && cs[i] == ds[i]
    ensures i + 1 < |ds| && cs[i + 1].start == ds[i + 1].start
  {
    Ordered(cs, i, |cs| - 1);
    if cs[i].free {
      SameFree(cs, ds, i);
      SameFree(ds, cs, i);
    } else {
      SameBusy(cs, ds, i);
    }
  }

  lemma SameState(cs: seq<Chunk>, ds: seq<Chunk>, i: nat)
    requires Same(cs, ds) && i < |cs| && i < |ds| && cs[i].start == ds[i].start
    ensures cs[i] == ds[i]
  {
    if i + 1 == |cs| {
      if i + 1 < |ds| { Ordered(ds, i, |ds| - 1); }
    } else {
      Ordered(cs, i, |cs| - 1);
      if !cs[i].free { SameBusy(cs, ds, i); }
      if !ds[i].free { SameBusy(ds, cs, i); }
    }
  }

  lemma {:induction false} SamePrefix(cs: seq<Chunk>, ds: seq<Chunk>, i: nat)
    requires Same(cs, ds) && i < |cs|
    ensures i < |ds| && cs[i] == ds[i]
    decreases i
  {
    if i > 0 {
      SamePrefix(cs, ds, i - 1);
      SameNext(cs, ds, i - 1);
    }
    SameState(cs, ds, i);
  }

  /** The list is determined by the set of blocks handed out. */
  lemma Canonical(cs: seq<Chunk>, ds: seq<Chunk>)
    requires WellFormed(cs) && WellFormed(ds) && Live(cs) == Live(ds)
    ensures cs == ds
  {
    hide WellFormed, Live;
    forall i | 0 <= i < |cs| ensures i < |ds| && cs[i] == ds[i] { SamePrefix(cs, ds, i); }
    if cs != [] { SamePrefix(cs, ds, |cs| - 1); }
    if ds != [] { SamePrefix(ds, cs, |ds| - 1); }
  }

  // ----- Taking -----

  function Taken(cs: seq<Chunk>, k: nat, n: nat): Block
    requires k < |cs| && Fits(cs, k, n) && n <= cs[k + 1].start
  {
    Block(cs[k + 1].start - n, cs[k + 1].start)
  }

  /** The list after a split, index by index. */
  lemma TakeIndices(cs: seq<Chunk>, k: nat, n: nat)
    requires k < |cs| && Fits(cs, k, n) && Size(cs, k) != n
    ensures var ts := Take(cs, k, n);
            && |ts| == |cs| + 1 && ts[k + 1] == Chunk(cs[k + 1].start - n, false)
            && (forall j :: 0 <= j <= k ==> ts[j] == cs[j])
            && (forall j :: k + 2 <= j < |ts| ==> ts[j] == cs[j - 1])
  {
  }

  lemma TakeKeepsForm(cs: seq<Chunk>, k: nat, n: nat)
    requires WellFormed(cs) && k < |cs| && Fits(cs, k, n) && n > 0
    ensures WellFormed(Take(cs, k, n)) && n <= cs[k + 1].start
  {
    var ts := Take(cs, k, n);
    if Size(cs, k) != n {
      TakeIndices(cs, k, n);
      hide Take;
      forall i | 0 <= i < |ts| - 1 ensures Neighbours(ts[i], ts[i + 1]) {
        if i < k {
          assert Neighbours(cs[i], cs[i + 1]);
        } else if i > k + 1 {
          assert Neighbours(cs[i - 1], cs[i]);
        }
      }
    } else {
      forall i | 0 <= i < |ts| - 1 ensures Neighbours(ts[i], ts[i + 1]) {
        assert Neighbours(cs[i], cs[i + 1]);
      }
    }
  }

  lemma TakeHolds(cs: seq<Chunk>, k: nat, n: nat, x: Block)
    requires WellFormed(cs) && k < |cs| && Fits(cs, k, n) && 0 < n <= cs[k + 1].start
    ensures IsLive(Take(cs, k, n), x) <==> IsLive(cs, x) || x == Taken(cs, k, n)
  {
    var ts, b := Take(cs, k, n), Taken(cs, k, n);
    if Size(cs, k) == n {
      assert forall i :: i != k ==> (Holds(ts, i, x) <==> Holds(cs, i, x));
      assert Holds(ts, k, x) <==> x == b;
    } else {
      TakeIndices(cs, k, n);
      hide Take, WellFormed;
      assert Holds(ts, k + 1, x) <==> x == b;
      forall i ensures i < k ==> Holds(ts, i, x) == Holds(cs, i, x) {}
      forall i ensures i > k ==> Holds(ts, i + 1, x) == Holds(cs, i, x) {}
      if i :| Holds(ts, i, x) && i != k + 1 {
        assert Holds(cs, if i < k then i else i - 1, x);
      }
      if i :| Holds(cs, i, x) {
        assert Holds(ts, if i < k then i else i + 1, x);
      }
    }
  }

  /** Nothing live touches a free chunk. */
  lemma BlocksDisjoint(cs: seq<Chunk>, k: nat, b: Block, x: Block)
    requires WellFormed(cs) && k + 1 < |cs| && cs[k].free
    requires cs[k].start <= b.lo < b.hi <= cs[k + 1].start && x in Live(cs)
    ensures x.hi <= b.lo || b.hi <= x.lo
  {
    var i :| Holds(cs, i, x);
    if i < k { Ordered(cs, i + 1, k); } else { Ordered(cs, k + 1, i); }
  }

  /** Taking adds one block; it overlaps no live block. */
  lemma TakeAddsBlock(cs: seq<Chunk>, k: nat, n: nat)
    requires WellFormed(cs) && k < |cs| && Fits(cs, k, n) && 0 < n <= cs[k + 1].start
    ensures Live(Take(cs, k, n)) == Live(cs) + {Taken(cs, k, n)}
    ensures forall x :: x in Live(cs) ==> x.hi <= Taken(cs, k, n).lo || Taken(cs, k, n).hi <= x.lo
    ensures Taken(cs, k, n) !in Live(cs)
  {
    hide WellFormed;
    forall x ensures IsLive(Take(cs, k, n), x) <==> IsLive(cs, x) || x == Taken(cs, k, n) {
      TakeHolds(cs, k, n, x);
    }
    forall x | x in Live(cs) ensures x.hi <= Taken(cs, k, n).lo || Taken(cs, k, n).hi <= x.lo {
      BlocksDisjoint(cs, k, Taken(cs, k, n), x);
    }
  }

  // ----- Giving back -----

  /** How the indices move when chunk `k` is given back. */
  ghost predicate GiveShape(cs: seq<Chunk>, k: nat, gs: seq<Chunk>, a: nat, b: nat)
    requires k + 1 < |cs|
  {
    && a <= k && a == (if k > 0 && cs[k - 1].free then 1 else 0) && b == (if cs[k + 1].free then 1 else 0)
    && |gs| == |cs| - a - b
    && k - a < |gs| && gs[k - a] == Chunk(cs[k - a].start, true)
    && (forall j :: 0 <= j < k - a ==> gs[j] == cs[j])
    && (forall j :: k - a < j < |gs| ==> gs[j] == cs[j + a + b])
  }

  lemma GiveIndices(cs: seq<Chunk>, k: nat) returns (a: nat, b: nat)
    requires WellFormed(cs) && k + 1 < |cs|
    ensures GiveShape(cs, k, Give(cs, k), a, b) && k + 1 + b < |cs|
  {
    a := if k > 0 && cs[k - 1].free then 1 else 0;
    b := if cs[k + 1].free then 1 else 0;
  }

  lemma GiveKeepsForm(cs: seq<Chunk>, k: nat)
    requires WellFormed(cs) && k + 1 < |cs| && !cs[k].free
    ensures WellFormed(Give(cs, k))
  {
    hide Give;
    var a, b := GiveIndices(cs, k);
    var gs := Give(cs, k);
    forall i | 0 <= i < |gs| - 1 ensures Neighbours(gs[i], gs[i + 1]) {
      if i < k - a {
        assert Neighbours(cs[i], cs[i + 1]);
        assert a == 1 && i == k - 2 ==> Neighbours(cs[k - 2], cs[k - 1]);
      } else if i > k - a {
        assert Neighbours(cs[i + a + b], cs[i + a + b + 1]);
      } else {
        assert Neighbours(cs[k], cs[k + 1]);
        assert a == 1 ==> Neighbours(cs[k - 1], cs[k]);
        assert b == 1 ==> Neighbours(cs[k + 1], cs[k + 2]);
      }
    }
  }

  lemma GiveHoldsOld(cs: seq<Chunk>, k: nat, gs: seq<Chunk>, a: nat, b: nat, x: Block)
    requires WellFormed(cs) && k + 1 < |cs| && !cs[k].free && GiveShape(cs, k, gs, a, b) && k + 1 + b < |cs| && IsLive(gs, x)
    ensures IsLive(cs, x) && x != Block(cs[k].start, cs[k + 1].start)
  {
    var i :| Holds(gs, i, x);
    var j := if i < k - a then i else i + a + b;
    assert Holds(cs, j, x);
    if j < k { Ordered(cs, j, k); } else { Ordered(cs, k, j); }
  }

  lemma GiveHoldsNew(cs: seq<Chunk>, k: nat, gs: seq<Chunk>, a: nat, b: nat, x: Block)
    requires k + 1 < |cs| && !cs[k].free && GiveShape(cs, k, gs, a, b) && k + 1 + b < |cs| && IsLive(cs, x)
    requires x != Block(cs[k].start, cs[k + 1].start)
    ensures IsLive(gs, x)
  {
    var i :| Holds(cs, i, x);
    assert i != k && (b == 1 ==> i != k + 1) && (a == 1 ==> i != k - 1);
    var j := if i < k then i else i - a - b;
    assert Holds(gs, j, x);
  }

  lemma GiveHolds(cs: seq<Chunk>, k: nat, x: Block)
    requires WellFormed(cs) && k + 1 < |cs| && !cs[k].free
    ensures IsLive(Give(cs, k), x) <==> IsLive(cs, x) && x != Block(cs[k].start, cs[k + 1].start)
  {
    var a, b := GiveIndices(cs, k);
    hide Give, WellFormed, IsLive, GiveShape;
    if IsLive(Give(cs, k), x) { GiveHoldsOld(cs, k, Give(cs, k), a, b, x); }
    if IsLive(cs, x) && x != Block(cs[k].start, cs[k + 1].start) { GiveHoldsNew(cs, k, Give(cs, k), a, b, x); }
  }

  /** Giving back removes exactly that block. */
  lemma GiveRemovesBlock(cs: seq<Chunk>, k: nat)
    requires WellFormed(cs) && k + 1 < |cs| && !cs[k].free
    ensures Live(Give(cs, k)) == Live(cs) - {Block(cs[k].start, cs[k + 1].start)}
  {
    hide Give, WellFormed;
    forall x ensures IsLive(Give(cs, k), x) <==> IsLive(cs, x) && x != Block(cs[k].start, cs[k + 1].start) {
      GiveHolds(cs, k, x);
    }
  }

  // ----- What follows from canonicity -----

  /** The index of a live block. */
  ghost function IndexOf(cs: seq<Chunk>, b: Block): (k: nat)
    requires b in Live(cs)
    ensures Holds(cs, k, b)
  {
    var k :| Holds(cs, k, b);
    k
  }

  ghost function GiveBlock(cs: seq<Chunk>, b: Block): (gs: seq<Chunk>)
    requires WellFormed(cs) && b in Live(cs)
    ensures WellFormed(gs) && Live(gs) == Live(cs) - {b}
  {
    GiveKeepsForm(cs, IndexOf(cs, b));
    GiveRemovesBlock(cs, IndexOf(cs, b));
    Give(cs, IndexOf(cs, b))
  }

  /** Giving back what has just been taken restores the list. */
  lemma TakeThenGive(cs: seq<Chunk>, k: nat, n: nat)
    requires WellFormed(cs) && k < |cs| && Fits(cs, k, n) && 0 < n <= cs[k + 1].start
    ensures WellFormed(Take(cs, k, n)) && Taken(cs, k, n) in Live(Take(cs, k, n))
    ensures GiveBlock(Take(cs, k, n), Taken(cs, k, n)) == cs
  {
    hide Take, WellFormed, Live, GiveBlock;
    TakeKeepsForm(cs, k, n);
    TakeAddsBlock(cs, k, n);
    Canonical(GiveBlock(Take(cs, k, n), Taken(cs, k, n)), cs);
  }

  /** The order in which blocks are given back does not matter. */
  lemma GivesCommute(cs: seq<Chunk>, x: Block, y: Block)
    requires WellFormed(cs) && x in Live(cs) && y in Live(cs) && x != y
    ensures GiveBlock(GiveBlock(cs, x), y) == GiveBlock(GiveBlock(cs, y), x)
  {
    hide WellFormed, Live, GiveBlock;
    Canonical(GiveBlock(GiveBlock(cs, x), y), GiveBlock(GiveBlock(cs, y), x));
  }

  /** Gives back the blocks of a sequence one after the other. */
  ghost function GiveAll(cs: seq<Chunk>, bs: seq<Block>): (gs: seq<Chunk>)
    requires WellFormed(cs) && (forall b :: b in bs ==> b in Live(cs))
    requires forall i, j :: 0 <= i < j < |bs| ==> bs[i] != bs[j]
    ensures WellFormed(gs) && Live(gs) == Live(cs) - (set b | b in bs)
    decreases |bs|
  {
    if bs == [] then cs
    else
      assert forall b :: b in bs <==> b == bs[0] || b in bs[1..];
      GiveAll(GiveBlock(cs, bs[0]), bs[1..])
  }

  /** Once everything has been given back, in any order, the arena is as it was at first. */
  lemma GiveEverything(cs: seq<Chunk>, bs: seq<Block>)
    requires WellFormed(cs) && (forall b :: b in bs <==> b in Live(cs))
    requires forall i, j :: 0 <= i < j < |bs| ==> bs[i] != bs[j]
    ensures GiveAll(cs, bs) == Initial()
  {
    InitialForm();
    hide WellFormed, Live;
    assert Live(cs) - (set b | b in bs) == {};
    Canonical(GiveAll(cs, bs), Initial());
  }

  lemma InitialForm()
    ensures WellFormed(Initial()) && Live(Initial()) == {}
  {
  }

  // ----- Any sequence of calls -----

  datatype Op = Alloc(n: nat) | Free(b: Block)

  /** A request for no header at all, and a block that is not live, are not valid calls. */
  ghost predicate Allowed(cs: seq<Chunk>, op: Op)
  {
    match op case Alloc(n) => n > 0 case Free(b) => b in Live(cs)
  }

  /** The first fit is taken; when nothing fits the call fails and nothing changes. */
  ghost function Apply(cs: seq<Chunk>, op: Op): (ds: seq<Chunk>)
    requires WellFormed(cs) && Allowed(cs, op)
  {
    match op
    case Alloc(n) => if FirstFit(cs, n, 0) < |cs| then Take(cs, FirstFit(cs, n, 0), n) else cs
    case Free(b) => GiveBlock(cs, b)
  }

  lemma ApplyKeepsForm(cs: seq<Chunk>, op: Op)
    requires WellFormed(cs) && Allowed(cs, op)
    ensures WellFormed(Apply(cs, op))
  {
    if op.Alloc? && FirstFit(cs, op.n, 0) < |cs| { TakeKeepsForm(cs, FirstFit(cs, op.n, 0), op.n); }
  }

  /** The list after some calls, each skipped if it is not valid where it stands. */
  ghost function After(cs: seq<Chunk>, ops: seq<Op>): (ds: seq<Chunk>)
    requires WellFormed(cs)
    ensures WellFormed(ds)
    decreases |ops|
  {
    if ops == [] then cs
    else if Allowed(cs, ops[0]) then (ApplyKeepsForm(cs, ops[0]); After(Apply(cs, ops[0]), ops[1..]))
    else After(cs, ops[1..])
  }

  /** Whatever was called, the chunks tile the arena with no two free neighbours, and two histories
      that leave the same blocks live leave the same list. */
  lemma HistoriesDoNotMatter(ops: seq<Op>, ops': seq<Op>)
    ensures WellFormed(Initial()) && WellFormed(After(Initial(), ops))
    ensures Live(After(Initial(), ops)) == Live(After(Initial(), ops')) ==> After(Initial(), ops) == After(Initial(), ops')
  {
    InitialForm();
    hide WellFormed, Live, After;
    if Live(After(Initial(), ops)) == Live(After(Initial(), ops')) {
      Canonical(After(Initial(), ops), After(Initial(), ops'));
    }
  }
}
