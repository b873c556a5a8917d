/** What a cache holds after a trace, told from the trace alone: a block is held exactly when
    fewer other blocks of its set than there are ways have been used since its own latest use. */
module LruMeaning {
  import opened Helpers
  import opened LruCache
  import opened LruInclusion

  // ----- Traces without a cache -----

  /** Blocks are dealt out to the sets in turn. */
  function TagOf(g: Geometry, blk: nat): nat { Quotient(blk, g.NumSets()) }

  function SetOf(g: Geometry, blk: nat): nat { Remainder(blk, g.NumSets()) }

  function Remainder(x: nat, d: nat): nat
    requires d > 0
  {
    x % d
  }

  /** The blocks of its set, other than itself, that were used after the latest use of block `blk`;
      none when it has never been used. A store that misses is no use of its block unless the cache
      allocates on writes. */
  ghost function Since(g: Geometry, trace: seq<Access>, blk: nat): Option<set<nat>>
  {
    if trace == [] then None
    else
      var before, a := trace[..|trace| - 1], trace[|trace| - 1];
      var x, earlier := Block(g, a.addr), Since(g, before, blk);
      if !(a.load || g.writeAlloc || Near(g, Since(g, before, x))) then earlier
      else if x == blk then Some({})
      else if earlier.Some? && SetOf(g, x) == SetOf(g, blk) then Some(earlier.value + {x})
      else earlier
  }

  ghost predicate Near(g: Geometry, since: Option<set<nat>>) { since.Some? && |since.value| < g.assoc }

  ghost predicate Resides(g: Geometry, trace: seq<Access>, blk: nat) { Near(g, Since(g, trace, blk)) }

  /** The access is a use of its block. */
  ghost predicate Counts(g: Geometry, before: seq<Access>, a: Access)
  {
    a.load || g.writeAlloc || Resides(g, before, Block(g, a.addr))
  }

  /** The block has been stored to since it came in. */
  ghost predicate Written(g: Geometry, trace: seq<Access>, blk: nat)
  {
    trace != [] &&
    var before, a := trace[..|trace| - 1], trace[|trace| - 1];
    if Block(g, a.addr) == blk && Counts(g, before, a) then !a.load || (Resides(g, before, blk) && Written(g, before, blk))
    else Written(g, before, blk)
  }

  // ----- One set against the trace -----

  /** The block that a tag means in set `i` of `m`. */
  function BlockOf(tag: nat, m: nat, i: nat): nat { tag * m + i }

  lemma BlockParts(tag: nat, m: nat, i: nat)
    requires i < m
    ensures BlockOf(tag, m, i) / m == tag && BlockOf(tag, m, i) % m == i
  {
    DivUnique(BlockOf(tag, m, i), m, tag, i);
  }

  lemma BlockWhole(g: Geometry, blk: nat)
    ensures BlockOf(TagOf(g, blk), g.NumSets(), SetOf(g, blk)) == blk
  {
  }

  ghost function Blocks(lines: seq<Line>, m: nat, i: nat): set<nat>
  {
    set p | 0 <= p < |lines| :: BlockOf(lines[p].tag, m, i)
  }

  lemma {:induction false} BlocksCount(lines: seq<Line>, m: nat, i: nat)
    requires Distinct(lines) && i < m
    ensures |Blocks(lines, m, i)| == |lines|
  {
    if lines != [] {
      var n := |lines| - 1;
      BlocksCount(lines[..n], m, i);
      BlockParts(lines[n].tag, m, i);
      forall p | 0 <= p < n ensures BlockOf(lines[p].tag, m, i) != BlockOf(lines[n].tag, m, i) {
        BlockParts(lines[p].tag, m, i);
      }
      BlocksSnoc(lines[..n], lines[n], m, i);
      assert lines == lines[..n] + [lines[n]];
    } else {
      assert Blocks(lines, m, i) == {};
    }
  }

  lemma BlocksSnoc(lines: seq<Line>, l: Line, m: nat, i: nat)
    ensures Blocks(lines + [l], m, i) == Blocks(lines, m, i) + {BlockOf(l.tag, m, i)}
  {
    var all := lines + [l];
    forall x | x in Blocks(lines, m, i) + {BlockOf(l.tag, m, i)} ensures x in Blocks(all, m, i) {
      if x == BlockOf(l.tag, m, i) {
        assert all[|lines|] == l;
      } else {
        var p :| 0 <= p < |lines| && x == BlockOf(lines[p].tag, m, i);
        assert all[p] == lines[p];
      }
    }
  }

  lemma BlocksCons(l: Line, lines: seq<Line>, m: nat, i: nat)
    ensures Blocks([l] + lines, m, i) == Blocks(lines, m, i) + {BlockOf(l.tag, m, i)}
  {
    var all := [l] + lines;
    forall x | x in Blocks(lines, m, i) + {BlockOf(l.tag, m, i)} ensures x in Blocks(all, m, i) {
      if x == BlockOf(l.tag, m, i) {
        assert all[0] == l;
      } else {
        var p :| 0 <= p < |lines| && x == BlockOf(lines[p].tag, m, i);
        assert all[p + 1] == lines[p];
      }
    }
  }

  lemma BlocksConcat(a: seq<Line>, b: seq<Line>, m: nat, i: nat)
    ensures Blocks(a + b, m, i) == Blocks(a, m, i) + Blocks(b, m, i)
    decreases |b|
  {
    if b == [] {
      assert a + b == a && Blocks(b, m, i) == {};
    } else {
      var n := |b| - 1;
      assert a + b == (a + b[..n]) + [b[n]] && b == b[..n] + [b[n]];
      BlocksConcat(a, b[..n], m, i);
      BlocksSnoc(a + b[..n], b[n], m, i);
      BlocksSnoc(b[..n], b[n], m, i);
    }
  }

  /** Line `p` of set `i`: what stands before it is what was used since. */
  ghost predicate LineOk(g: Geometry, trace: seq<Access>, i: nat, lines: seq<Line>, p: nat)
    requires p < |lines|
  {
    var blk := BlockOf(lines[p].tag, g.NumSets(), i);
    Since(g, trace, blk) == Some(Blocks(lines[..p], g.NumSets(), i)) && (lines[p].dirty <==> Written(g, trace, blk))
  }

  /** A block of the set that is not there is out of reach. */
  ghost predicate GoneOk(g: Geometry, trace: seq<Access>, i: nat, lines: seq<Line>, blk: nat)
  {
    SetOf(g, blk) == i && !Hits(lines, TagOf(g, blk)) ==> !Resides(g, trace, blk)
  }

  ghost predicate SetOk(g: Geometry, trace: seq<Access>, i: nat, lines: seq<Line>)
  {
    && i < g.NumSets() && 0 < g.assoc && |lines| <= g.assoc && Distinct(lines)
    && (forall p :: 0 <= p < |lines| ==> LineOk(g, trace, i, lines, p))
    && (forall blk: nat :: GoneOk(g, trace, i, lines, blk))
  }

  /** Held by the list and within reach by the trace are the same. */
  lemma HeldIsNear(g: Geometry, trace: seq<Access>, i: nat, lines: seq<Line>, blk: nat)
    requires SetOk(g, trace, i, lines) && SetOf(g, blk) == i
    ensures Hits(lines, TagOf(g, blk)) <==> Resides(g, trace, blk)
    ensures var p := Find(lines, TagOf(g, blk)); p < |lines| ==> (lines[p].dirty <==> Written(g, trace, blk))
  {
    var m := g.NumSets();
    var p := Find(lines, TagOf(g, blk));
    BlockWhole(g, blk);
    assert GoneOk(g, trace, i, lines, blk);
    if p < |lines| {
      assert LineOk(g, trace, i, lines, p);
      BlocksCount(lines[..p], m, i);
    }
  }

  // ----- One access -----

  /** What the next access means for a block of the trace. */
  lemma NextUse(g: Geometry, before: seq<Access>, a: Access, blk: nat)
    ensures var x, trace, earlier := Block(g, a.addr), before + [a], Since(g, before, blk);
      && Since(g, trace, blk) == (
           if !Counts(g, before, a) then earlier
           else if x == blk then Some({})
           else if earlier.Some? && SetOf(g, x) == SetOf(g, blk) then Some(earlier.value + {x})
           else earlier)
      && Written(g, trace, blk) == (
           if Counts(g, before, a) && x == blk then !a.load || (Resides(g, before, blk) && Written(g, before, blk))
           else Written(g, before, blk))
  {
    assert (before + [a])[..|before|] == before;
  }

  lemma BlockIsIn(g: Geometry, tag: nat, i: nat)
    requires i < g.NumSets()
    ensures var blk := BlockOf(tag, g.NumSets(), i); TagOf(g, blk) == tag && SetOf(g, blk) == i
  {
    BlockParts(tag, g.NumSets(), i);
  }

  /** An access that is no use, or to another set. */
  lemma IdleKeepsSet(g: Geometry, before: seq<Access>, a: Access, i: nat, lines: seq<Line>)
    requires SetOk(g, before, i, lines) && (!Counts(g, before, a) || SetOf(g, Block(g, a.addr)) != i)
    ensures SetOk(g, before + [a], i, lines)
  {
    hide Since, Written, Counts, SetOf, TagOf, Block;
    forall p | 0 <= p < |lines| ensures LineOk(g, before + [a], i, lines, p) {
      assert LineOk(g, before, i, lines, p);
      BlockIsIn(g, lines[p].tag, i);
      NextUse(g, before, a, BlockOf(lines[p].tag, g.NumSets(), i));
    }
    forall blk: nat ensures GoneOk(g, before + [a], i, lines, blk) {
      assert GoneOk(g, before, i, lines, blk);
      NextUse(g, before, a, blk);
    }
  }

  /** A block of the set that is out of reach, and is not the one used, stays so. */
  lemma GoneStays(g: Geometry, before: seq<Access>, a: Access, blk: nat)
    requires !Resides(g, before, blk) && Block(g, a.addr) != blk
    ensures !Resides(g, before + [a], blk)
  {
    NextUse(g, before, a, blk);
    var since := Since(g, before, blk);
    if since.Some? {
      var x := Block(g, a.addr);
      assert since.value + {x} >= since.value;
      Larger(since.value, x);
    }
  }

  lemma Larger(s: set<nat>, x: nat)
    ensures |s| <= |s + {x}| <= |s| + 1
    ensures x !in s ==> |s + {x}| == |s| + 1
  {
    if x in s { assert s + {x} == s; }
  }

  /** The used line comes to the front. */
  lemma FrontOk(g: Geometry, before: seq<Access>, a: Access, i: nat, line: Line, rest: seq<Line>)
    requires i < g.NumSets() && Counts(g, before, a) && BlockOf(line.tag, g.NumSets(), i) == Block(g, a.addr)
    requires line.dirty <==> !a.load || (Resides(g, before, Block(g, a.addr)) && Written(g, before, Block(g, a.addr)))
    ensures LineOk(g, before + [a], i, [line] + rest, 0)
  {
    NextUse(g, before, a, Block(g, a.addr));
    assert Blocks(([line] + rest)[..0], g.NumSets(), i) == {};
  }

  /** A line that the used one has overtaken. */
  lemma OvertakenOk(g: Geometry, before: seq<Access>, a: Access, i: nat, lines: seq<Line>, p: nat, front: Line, rest: seq<Line>)
    requires i < g.NumSets() && p < |lines| && LineOk(g, before, i, lines, p) && Counts(g, before, a)
    requires BlockOf(front.tag, g.NumSets(), i) == Block(g, a.addr) && lines[p].tag != front.tag
    requires p < |rest| && rest[..p + 1] == lines[..p + 1]
    ensures LineOk(g, before + [a], i, [front] + rest, p + 1)
  {
    var m, blk := g.NumSets(), BlockOf(lines[p].tag, g.NumSets(), i);
    BlockIsIn(g, lines[p].tag, i);
    BlockIsIn(g, front.tag, i);
    NextUse(g, before, a, blk);
    assert rest[p] == rest[..p + 1][p] == lines[p];
    assert ([front] + rest)[..p + 1] == [front] + lines[..p] by {
      assert rest[..p] == rest[..p + 1][..p] == lines[..p];
    }
    BlocksCons(front, lines[..p], m, i);
  }

  /** A line behind the used one keeps its place. */
  lemma BehindOk(g: Geometry, before: seq<Access>, a: Access, i: nat, lines: seq<Line>, q: nat, p: nat, front: Line)
    requires i < g.NumSets() && q < p < |lines| && LineOk(g, before, i, lines, p) && Counts(g, before, a)
    requires BlockOf(front.tag, g.NumSets(), i) == Block(g, a.addr) && lines[q].tag == front.tag != lines[p].tag
    ensures LineOk(g, before + [a], i, [front] + lines[..q] + lines[q + 1..], p)
  {
    var m, blk := g.NumSets(), BlockOf(lines[p].tag, g.NumSets(), i);
    BlockIsIn(g, lines[p].tag, i);
    BlockIsIn(g, front.tag, i);
    NextUse(g, before, a, blk);
    var used := [front] + lines[..q] + lines[q + 1..];
    assert used[p] == lines[p];
    assert used[..p] == ([front] + lines[..q]) + lines[q + 1..p];
    BlocksConcat([front] + lines[..q], lines[q + 1..p], m, i);
    BlocksCons(front, lines[..q], m, i);
    assert lines[..p] == (lines[..q] + [lines[q]]) + lines[q + 1..p];
    BlocksConcat(lines[..q] + [lines[q]], lines[q + 1..p], m, i);
    BlocksSnoc(lines[..q], lines[q], m, i);
    assert Block(g, a.addr) in Blocks(lines[..p], m, i);
    assert Blocks(lines[..p], m, i) + {Block(g, a.addr)} == Blocks(lines[..p], m, i);
  }

  /** A hit. */
  lemma HitKeepsSet(g: Geometry, before: seq<Access>, a: Access, i: nat, lines: seq<Line>)
    requires SetOk(g, before, i, lines) && SetOf(g, Block(g, a.addr)) == i && Hits(lines, TagOf(g, Block(g, a.addr)))
    ensures SetOk(g, before + [a], i, Use(lines, g.assoc, g.writeAlloc, TagOf(g, Block(g, a.addr)), a.load))
  {
    var x := Block(g, a.addr);
    var tag := TagOf(g, x);
    var q := Find(lines, tag);
    var front := Line(tag, lines[q].dirty || !a.load);
    BlockWhole(g, x);
    HeldIsNear(g, before, i, lines, x);
    UseKeepsDistinct(lines, g.assoc, g.writeAlloc, tag, a.load);
    assert Use(lines, g.assoc, g.writeAlloc, tag, a.load) == [front] + lines[..q] + lines[q + 1..];
    hide Since, Written, Resides, TagOf, SetOf, Block, LineOk, GoneOk, Use, Distinct, Find, Hits;
    HitLines(g, before, a, i, lines, q, front);
    HitGone(g, before, a, i, lines, q, front);
  }

  lemma HitLines(g: Geometry, before: seq<Access>, a: Access, i: nat, lines: seq<Line>, q: nat, front: Line)
    requires SetOk(g, before, i, lines) && q < |lines| && lines[q].tag == front.tag && Counts(g, before, a)
    requires BlockOf(front.tag, g.NumSets(), i) == Block(g, a.addr)
    requires front.dirty <==> !a.load || (Resides(g, before, Block(g, a.addr)) && Written(g, before, Block(g, a.addr)))
    ensures var used := [front] + lines[..q] + lines[q + 1..];
      forall p :: 0 <= p < |used| ==> LineOk(g, before + [a], i, used, p)
  {
    var used, rest := [front] + lines[..q] + lines[q + 1..], lines[..q] + lines[q + 1..];
    assert used == [front] + rest;
    hide LineOk, Since, Written, Resides, Block;
    FrontOk(g, before, a, i, front, rest);
    forall p | 0 <= p < |used| ensures LineOk(g, before + [a], i, used, p) {
      if 0 < p <= q {
        assert LineOk(g, before, i, lines, p - 1) && rest[..p] == lines[..p];
        OvertakenOk(g, before, a, i, lines, p - 1, front, rest);
      } else if q < p {
        assert LineOk(g, before, i, lines, p);
        BehindOk(g, before, a, i, lines, q, p, front);
      }
    }
  }

  lemma HitGone(g: Geometry, before: seq<Access>, a: Access, i: nat, lines: seq<Line>, q: nat, front: Line)
    requires SetOk(g, before, i, lines) && q < |lines| && lines[q].tag == front.tag == TagOf(g, Block(g, a.addr))
    ensures var trace, used := before + [a], [front] + lines[..q] + lines[q + 1..];
      forall blk: nat :: GoneOk(g, trace, i, used, blk)
  {
    hide Since, Written, Resides, SetOf, Block;
    var trace, used := before + [a], [front] + lines[..q] + lines[q + 1..];
    forall blk: nat ensures GoneOk(g, trace, i, used, blk) {
      assert GoneOk(g, before, i, lines, blk);
      HitsAfterHit(lines, q, front, TagOf(g, blk));
      HitIs(lines, front.tag);
      if blk != Block(g, a.addr) && !Resides(g, before, blk) { GoneStays(g, before, a, blk); }
    }
  }

  lemma HitsAfterHit(lines: seq<Line>, q: nat, front: Line, tag: nat)
    requires q < |lines| && front.tag == lines[q].tag
    ensures Hits([front] + lines[..q] + lines[q + 1..], tag) <==> Hits(lines, tag)
  {
    var used := [front] + lines[..q] + lines[q + 1..];
    HitIs(lines, tag);
    HitIs(used, tag);
    assert used[0] == front;
    forall p | 0 <= p < |lines| ensures lines[p].tag == used[if p == q then 0 else if p < q then p + 1 else p].tag {}
  }

  lemma HitIs(lines: seq<Line>, tag: nat)
    ensures Hits(lines, tag) <==> exists p :: 0 <= p < |lines| && lines[p].tag == tag
  {
  }

  /** A miss that brings the block in. */
  lemma FillKeepsSet(g: Geometry, before: seq<Access>, a: Access, i: nat, lines: seq<Line>)
    requires SetOk(g, before, i, lines) && SetOf(g, Block(g, a.addr)) == i
    requires (a.load || g.writeAlloc) && !Hits(lines, TagOf(g, Block(g, a.addr)))
    ensures SetOk(g, before + [a], i, Use(lines, g.assoc, g.writeAlloc, TagOf(g, Block(g, a.addr)), a.load))
  {
    var x := Block(g, a.addr);
    var tag := TagOf(g, x);
    var used := Use(lines, g.assoc, g.writeAlloc, tag, a.load);
    BlockWhole(g, x);
    HeldIsNear(g, before, i, lines, x);
    UseKeepsDistinct(lines, g.assoc, g.writeAlloc, tag, a.load);
    assert used == [Line(tag, !a.load)] + Kept(lines, g.assoc);
    FillLines(g, before, a, i, lines, Line(tag, !a.load));
    hide Since, Written, Resides, TagOf, SetOf, Block, LineOk, Use;
    forall blk: nat ensures GoneOk(g, before + [a], i, used, blk) {
      if SetOf(g, blk) == i && !Hits(used, TagOf(g, blk)) { FillGone(g, before, a, i, lines, blk); }
    }
  }

  /** The lines that a full set keeps when one comes in. */
  function Kept(lines: seq<Line>, assoc: nat): seq<Line>
    requires assoc > 0
  {
    if |lines| < assoc then lines else lines[..assoc - 1]
  }

  lemma FillLines(g: Geometry, before: seq<Access>, a: Access, i: nat, lines: seq<Line>, front: Line)
    requires SetOk(g, before, i, lines) && Counts(g, before, a) && !Hits(lines, front.tag)
    requires BlockOf(front.tag, g.NumSets(), i) == Block(g, a.addr)
    requires front.dirty <==> !a.load || (Resides(g, before, Block(g, a.addr)) && Written(g, before, Block(g, a.addr)))
    ensures var used := [front] + Kept(lines, g.assoc);
      forall p :: 0 <= p < |used| ==> LineOk(g, before + [a], i, used, p)
  {
    var rest := Kept(lines, g.assoc);
    var used := [front] + rest;
    HitIs(lines, front.tag);
    hide LineOk, Since, Written, Resides, Block, Hits;
    FrontOk(g, before, a, i, front, rest);
    forall p | 0 <= p < |used| ensures LineOk(g, before + [a], i, used, p) {
      if 0 < p {
        assert LineOk(g, before, i, lines, p - 1) && rest[..p] == lines[..p];
        OvertakenOk(g, before, a, i, lines, p - 1, front, rest);
      }
    }
  }

  /** Only the last line of a full set leaves. */
  lemma LastLeaves(lines: seq<Line>, assoc: nat, front: Line, tag: nat)
    requires 0 < assoc && |lines| <= assoc && Hits(lines, tag) && !Hits([front] + Kept(lines, assoc), tag)
    ensures Find(lines, tag) == |lines| - 1 == assoc - 1
  {
    var used := [front] + Kept(lines, assoc);
    HitIs(used, tag);
    assert forall p :: 0 <= p < |used| - 1 ==> used[p + 1] == lines[p];
  }

  /** The block that leaves a full set had as many used after it as there are ways. */
  lemma FillGone(g: Geometry, before: seq<Access>, a: Access, i: nat, lines: seq<Line>, blk: nat)
    requires SetOk(g, before, i, lines) && SetOf(g, Block(g, a.addr)) == i == SetOf(g, blk)
    requires (a.load || g.writeAlloc) && !Hits(lines, TagOf(g, Block(g, a.addr)))
    requires !Hits(Use(lines, g.assoc, g.writeAlloc, TagOf(g, Block(g, a.addr)), a.load), TagOf(g, blk))
    ensures !Resides(g, before + [a], blk)
  {
    var x, n := Block(g, a.addr), |lines| - 1;
    var front := Line(TagOf(g, x), !a.load);
    assert Use(lines, g.assoc, g.writeAlloc, TagOf(g, x), a.load) == [front] + Kept(lines, g.assoc);
    UsedHits(front, Kept(lines, g.assoc), TagOf(g, blk));
    if Hits(lines, TagOf(g, blk)) {
      LastLeaves(lines, g.assoc, front, TagOf(g, blk));
      BlockWhole(g, blk);
      assert LineOk(g, before, i, lines, n);
      BlocksCount(lines[..n], g.NumSets(), i);
      NotAmong(g, lines, n, x, i);
      Larger(Blocks(lines[..n], g.NumSets(), i), x);
      NextUse(g, before, a, blk);
    } else {
      assert GoneOk(g, before, i, lines, blk);
      GoneStays(g, before, a, blk);
    }
  }

  lemma UsedHits(front: Line, rest: seq<Line>, tag: nat)
    requires !Hits([front] + rest, tag)
    ensures front.tag != tag
  {
    HitIs([front] + rest, tag);
    assert ([front] + rest)[0] == front;
  }

  lemma NotAmong(g: Geometry, lines: seq<Line>, n: nat, x: nat, i: nat)
    requires n <= |lines| && i < g.NumSets() && !Hits(lines, TagOf(g, x))
    ensures x !in Blocks(lines[..n], g.NumSets(), i)
  {
    HitIs(lines, TagOf(g, x));
    if x in Blocks(lines[..n], g.NumSets(), i) {
      var p :| 0 <= p < n && x == BlockOf(lines[..n][p].tag, g.NumSets(), i);
      BlockIsIn(g, lines[p].tag, i);
    }
  }

  // ----- Whole traces -----

  lemma UseKeepsSet(g: Geometry, before: seq<Access>, a: Access, i: nat, lines: seq<Line>)
    requires SetOk(g, before, i, lines)
    ensures SetOk(g, before + [a], i,
              if SetOf(g, Block(g, a.addr)) == i then Use(lines, g.assoc, g.writeAlloc, TagOf(g, Block(g, a.addr)), a.load) else lines)
  {
    var x := Block(g, a.addr);
    if SetOf(g, x) == i {
      HeldIsNear(g, before, i, lines, x);
      if Hits(lines, TagOf(g, x)) { HitKeepsSet(g, before, a, i, lines); }
      else if a.load || g.writeAlloc { FillKeepsSet(g, before, a, i, lines); }
      else { IdleKeepsSet(g, before, a, i, lines); }
    } else {
      IdleKeepsSet(g, before, a, i, lines);
    }
  }

  lemma {:induction false} RunSets(g: Geometry, trace: seq<Access>, i: nat)
    requires g.Valid() && i < g.NumSets()
    ensures SetOk(g, trace, i, Run(g, trace)[i])
  {
    if trace != [] {
      var before, a := trace[..|trace| - 1], trace[|trace| - 1];
      RunSets(g, before, i);
      assert trace == before + [a];
      hide SetOk;
      UseKeepsSet(g, before, a, i, Run(g, before)[i]);
      IndexIsModulo(g, a.addr);
      TagIsQuotient(g, a.addr);
    }
  }

  /** After any trace and with either write policy, a cache holds a block exactly when the block has
      been used and fewer other blocks of its set than there are ways have been used since. */
  lemma HeldExactlyWhen(g: Geometry, trace: seq<Access>, addr: nat)
    requires g.Valid()
    ensures CheckIn(g, Run(g, trace), addr) <==>
      var since := Since(g, trace, Block(g, addr)); since.Some? && |since.value| < g.assoc
  {
    IndexIsModulo(g, addr);
    TagIsQuotient(g, addr);
    RunSets(g, trace, g.GetIndex(addr));
    HeldIsNear(g, trace, g.GetIndex(addr), Run(g, trace)[g.GetIndex(addr)], Block(g, addr));
  }

  /** The line of a block that is held is dirty exactly when the block was stored to since it came in. */
  lemma DirtyExactlyWhen(g: Geometry, trace: seq<Access>, addr: nat)
    requires g.Valid() && CheckIn(g, Run(g, trace), addr)
    ensures g.GetIndex(addr) < g.NumSets()
    ensures var lines := Run(g, trace)[g.GetIndex(addr)];
      lines[Find(lines, g.GetTag(addr))].dirty <==> Written(g, trace, Block(g, addr))
  {
    IndexIsModulo(g, addr);
    TagIsQuotient(g, addr);
    RunSets(g, trace, g.GetIndex(addr));
    HeldIsNear(g, trace, g.GetIndex(addr), Run(g, trace)[g.GetIndex(addr)], Block(g, addr));
  }
}
