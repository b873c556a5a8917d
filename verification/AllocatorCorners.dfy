/** Calls of the allocator whose size wraps, played on a fresh arena. */
module AllocatorCorners {
  import opened ChunkList
  import opened Allocator

  /** A first call for 2^32 - 15 bytes loses the list. */
  method LoseFreshArena(base: nat) returns (h: Heap)
    requires GoodBase(base)
    ensures Lost(h.words[..], base)
  {
    h := new Heap(base);
    Rounding(WORD_RANGE - 15);
    assert Fits(h.chunks, 0, 0);
    var _, _ := h.TMalloc(WORD_RANGE - 15);
  }

  /** The blocks of two calls for 16 bytes each, the first in front of the delimiter and the second
      in front of the first. */
  const EARLIER := Block(8188, TOP)
  const LATER := Block(8185, 8188)

  /** The chunk list after the two calls. */
  function TwoBlocks(): seq<Chunk> { [Chunk(0, true), Chunk(8185, false), Chunk(8188, false), Chunk(TOP, false)] }

  lemma TwoCalls()
    ensures RoundedSize(16) == 24 && RoundedSize(WORD_RANGE - 1) == 8
    ensures FirstFit(Initial(), 3, 0) == 0 && Fits(Initial(), 0, 3)
    ensures Take(Initial(), 0, 3) == [Chunk(0, true), Chunk(8188, false), Chunk(TOP, false)]
    ensures FirstFit(Take(Initial(), 0, 3), 3, 0) == 0 && Fits(Take(Initial(), 0, 3), 0, 3)
    ensures Take(Take(Initial(), 0, 3), 0, 3) == TwoBlocks()
    ensures FirstFit(TwoBlocks(), 1, 0) == 0 && Fits(TwoBlocks(), 0, 1)
    ensures LATER in Live(TwoBlocks()) && EARLIER in Live(TwoBlocks())
  {
    assert Holds(TwoBlocks(), 1, LATER) && Holds(TwoBlocks(), 2, EARLIER);
  }

  /** What the program has written. */
  ghost predicate Marked(ws: seq<Word>)
  {
    |ws| == WORDS && ws[2 * 8189] == Word(0, 0, 0, 0) && ws[2 * 8190] == Word(1, 0, 0, 0) && ws[2 * 8186] == Word(0, 0, 0, 0)
  }

  /** Two calls for 16 bytes on a fresh arena; then the program writes a zero and a one to the
      earlier block and a zero to the later one. */
  method TwoAllocations(base: nat) returns (h: Heap, vp: nat)
    requires GoodBase(base)
    ensures fresh(h) && fresh(h.words) && h.Valid() && h.bot != 0 && h.base == base && h.chunks == TwoBlocks() && vp == Addr(base, 8189)
    ensures Marked(h.words[..])
  {
    TwoCalls();
    hide RoundedSize, Take, FirstFit, Represents, KeepsPayloads, Word.Value, WellFormed, Heap.Valid;
    h := new Heap(base);
    vp := TwoTimes(h);
    Write(h, 2 * 8189, Word(0, 0, 0, 0), EARLIER);
    Write(h, 2 * 8190, Word(1, 0, 0, 0), EARLIER);
    Write(h, 2 * 8186, Word(0, 0, 0, 0), LATER);
  }

  method TwoTimes(h: Heap) returns (vp: nat)
    requires h.Valid() && h.chunks == Initial()
    modifies h, h.words
    ensures h.Valid() && h.bot != 0 && h.chunks == TwoBlocks() && vp == Addr(h.base, 8189)
  {
    TwoCalls();
    hide RoundedSize, Take, FirstFit, Represents, KeepsPayloads, Word.Value, WellFormed;
    ghost var k;
    vp, k := h.TMalloc(16);
    var _, _ := h.TMalloc(16);
  }

  lemma WrappedOverruns(ws: seq<Word>, base: nat, ws': seq<Word>, cs': seq<Chunk>, newp: nat)
    requires Reallocated(ws, base, TwoBlocks(), 0, WORD_RANGE - 1, EARLIER, ws', cs', newp)
    ensures Overran(ws, base, TwoBlocks(), 0, EARLIER, ws', newp)
  {
    TwoCalls();
    assert !Roomy(EARLIER, WORD_RANGE - 1);
    hide RoundedSize, Overran, Replaced, Lost, KeepsPayloads;
  }

  lemma MarkedBytes(ws: seq<Word>)
    requires Marked(ws)
    ensures BlockByte(ws, LATER, 0) == 0 && BlockByte(ws, EARLIER, 8) == 1 && ws[2 * EARLIER.lo + 2].Value() == 0
  {
  }

  /** Where the bare header goes, and what follows it. */
  lemma TwoBlocksRoom()
    ensures TwoBlocks()[0].free && Fits(TwoBlocks(), 0, 1) && Taken(TwoBlocks(), 0, 1) == Block(8184, 8185)
    ensures CopyFits(Block(8184, 8185), EARLIER) && TwoBlocks()[1].start == LATER.lo
    ensures Payload(EARLIER) == 16 && Payload(LATER) == 16
  {
  }

  /** The next live block gets byte 8 of the reallocated block. */
  lemma NextBlockAltered(ws: seq<Word>, base: nat, cs: seq<Chunk>, a: Block, c: Block, ws': seq<Word>, newp: nat)
    requires Represents(ws, base, cs) && a in Live(cs) && c in Live(cs) && 0 < |cs| && Fits(cs, 0, 1) && 1 <= cs[1].start
    requires Overran(ws, base, cs, 0, a, ws', newp) && CopyFits(Taken(cs, 0, 1), a)
    requires c.lo == cs[1].start && Payload(c) == 16 && Payload(a) == 16 && a.hi <= TOP && |ws| == WORDS
    ensures |ws'| == WORDS && 8 * c.lo + 8 < 4 * WORDS && BlockByte(ws', c, 0) == BlockByte(ws, a, 8)
  {
    hide Represents, Overran, Live, BlockByte, CopyFits, Fits, Payload, Taken;
    OverrunHitsPayload(ws, base, cs, 0, a, ws', newp, c, 0);
  }

  /** When the block begins with a null word, the next header has lost its left link. */
  lemma NextHeaderGone(ws: seq<Word>, base: nat, cs: seq<Chunk>, a: Block, ws': seq<Word>, newp: nat)
    requires Represents(ws, base, cs) && a in Live(cs) && 0 < |cs| && Fits(cs, 0, 1) && 1 <= cs[1].start
    requires Overran(ws, base, cs, 0, a, ws', newp) && CopyFits(Taken(cs, 0, 1), a)
    requires Payload(a) == 16 && a.hi <= TOP && |ws| == WORDS && ws[2 * a.lo + 2].Value() == 0
    ensures !Represents(ws', base, Take(cs, 0, 1))
  {
    hide Represents, Overran, Live, CopyFits, Fits, Payload, Word.Value, Take;
    AlignedBase(ws, base, cs);
    OverrunHitsHeader(ws, base, cs, 0, a, ws', newp);
  }

  lemma NeighbourAltered(ws: seq<Word>, base: nat, ws': seq<Word>, newp: nat)
    requires Represents(ws, base, TwoBlocks()) && Marked(ws)
    requires Overran(ws, base, TwoBlocks(), 0, EARLIER, ws', newp)
    ensures |ws'| == WORDS && BlockByte(ws', LATER, 0) == 1
    ensures Fits(TwoBlocks(), 0, 1) && !Represents(ws', base, Take(TwoBlocks(), 0, 1))
  {
    TwoCalls();
    TwoBlocksRoom();
    MarkedBytes(ws);
    hide RoundedSize, Take, Represents, Overran, Live, BlockByte, Word.Value, FirstFit, CopyFits, Fits, Payload, Taken;
    NextBlockAltered(ws, base, TwoBlocks(), EARLIER, LATER, ws', newp);
    NextHeaderGone(ws, base, TwoBlocks(), EARLIER, ws', newp);
  }

  /** Reallocating the earlier block to 2^32 - 1 bytes wraps to a bare header in front of the later
      one: the copy alters the payload of the later one, a live block the call has nothing to do
      with, and its header. `before` is the arena before. */
  method AlterNeighbour(base: nat) returns (h: Heap, ghost before: seq<Word>)
    requires GoodBase(base)
    ensures Represents(before, base, TwoBlocks()) && {EARLIER, LATER} <= Live(TwoBlocks()) && |h.words[..]| == WORDS
    ensures BlockByte(before, LATER, 0) == 0 && BlockByte(h.words[..], LATER, 0) == 1
    ensures Fits(TwoBlocks(), 0, 1) && !Represents(h.words[..], base, Take(TwoBlocks(), 0, 1))
  {
    TwoCalls();
    hide RoundedSize, Take, FirstFit, Represents, Reallocated, Live, BlockByte, Marked;
    var vp;
    h, vp := TwoAllocations(base);
    before := h.words[..];
    MarkedBytes(before);
    var newp, _ := h.TRealloc(vp, WORD_RANGE - 1, EARLIER);
    WrappedOverruns(before, base, h.words[..], h.chunks, newp);
    NeighbourAltered(before, base, h.words[..], newp);
  }

  /** The program stores a word in the payload of a block of its own. */
  method Write(h: Heap, i: nat, w: Word, ghost b: Block)
    requires h.Valid() && h.bot != 0 && b in Live(h.chunks) && 2 * b.lo + 2 <= i < 2 * b.hi && i < WORDS
    modifies h.words
    ensures h.Valid() && h.words[..] == old(h.words[..])[i := w]
  {
    ghost var ws := h.words[..];
    h.words[i] := w;
    PayloadWritten(ws, h.base, h.chunks, b, h.words[..]);
  }
}
