/** The boundary-tag allocator on its arena of machine words: chunk headers hold a left and a
    right pointer, and the lowest bit of the right pointer says that the chunk is free. */
module Allocator {
  import opened ChunkList

  // ----- Words of four bytes -----

  type Byte = b: nat | b < 256

  const WORD_RANGE := 0x1_0000_0000

  datatype Word = Word(b0: Byte, b1: Byte, b2: Byte, b3: Byte) {
    function Value(): nat { b0 + 0x100 * b1 + 0x1_0000 * b2 + 0x100_0000 * b3 }

    function Get(j: nat): Byte
      requires j < 4
    {
      if j == 0 then b0 else if j == 1 then b1 else if j == 2 then b2 else b3
    }

    function Set(j: nat, b: Byte): Word
      requires j < 4
    {
      if j == 0 then this.(b0 := b) else if j == 1 then this.(b1 := b) else if j == 2 then this.(b2 := b) else this.(b3 := b)
    }
  }

  function ToWord(n: nat): (w: Word)
    requires n < WORD_RANGE
    ensures w.Value() == n
  {
    var n1 := n / 0x100;
    var n2 := n1 / 0x100;
    Word(n % 0x100, n1 % 0x100, n2 % 0x100, n2 / 0x100)
  }

  // ----- The arena -----

  const WORDS := 16384

  /** The address of the header at position `i`. */
  function Addr(base: nat, i: nat): nat { base + 8 * i }

  predicate GoodBase(base: nat) { 0 < base && base % 8 == 0 && base + 4 * WORDS <= WORD_RANGE }

  /** Addresses of headers are even, so the lowest bit is free for other use. */
  lemma EvenAddr(base: nat, i: nat)
    requires GoodBase(base)
    ensures Addr(base, i) % 2 == 0 && (Addr(base, i) + 1) % 2 == 1
    ensures (Addr(base, i) - base) % 8 == 0 && (Addr(base, i) - base) / 8 == i
  {
    EvenMultiple(base / 8, i);
  }

  lemma EvenMultiple(q: nat, i: nat)
    ensures (8 * q + 8 * i) % 2 == 0 && (8 * q + 8 * i + 1) % 2 == 1 && (8 * i) % 8 == 0 && (8 * i) / 8 == i
  {
    assert 8 * q + 8 * i == 2 * (4 * q + 4 * i);
  }

  function LeftLink(base: nat, cs: seq<Chunk>, i: nat): nat
    requires i < |cs|
  {
    if i == 0 then 0 else Addr(base, cs[i - 1].start)
  }

  function RightLink(base: nat, cs: seq<Chunk>, i: nat): nat
    requires i < |cs|
  {
    if i == |cs| - 1 then 0 else Addr(base, cs[i + 1].start) + if cs[i].free then 1 else 0
  }

  /** The header of chunk `i` holds its two links and its free bit. */
  ghost predicate Header(ws: seq<Word>, base: nat, cs: seq<Chunk>, i: nat)
    requires |ws| == WORDS && i < |cs|
  {
    && cs[i].start <= TOP
    && ws[2 * cs[i].start].Value() == LeftLink(base, cs, i)
    && ws[2 * cs[i].start + 1].Value() == RightLink(base, cs, i)
  }

  /** The headers found in the arena are those of the list: right links lead through it upwards
      and left links are their inverses. */
  ghost predicate Represents(ws: seq<Word>, base: nat, cs: seq<Chunk>)
  {
    && |ws| == WORDS && GoodBase(base) && WellFormed(cs)
    && (forall i :: 0 <= i < |cs| ==> Header(ws, base, cs, i))
  }

  /** The byte at offset `a` of the arena. */
  function ByteAt(ws: seq<Word>, a: nat): Byte
    requires a < 4 * |ws|
  {
    ws[a / 4].Get(a % 4)
  }

  lemma SetByte(ws: seq<Word>, x: nat, b: Byte, y: nat)
    requires x < 4 * |ws| && y < 4 * |ws|
    ensures ByteAt(ws[x / 4 := ws[x / 4].Set(x % 4, b)], y) == if y == x then b else ByteAt(ws, y)
  {
  }

  /** The bytes after the first `n` bytes at `src` have been copied to `dst`. */
  ghost predicate Copied(ws: seq<Word>, dst: nat, src: nat, n: nat, ws': seq<Word>)
    requires src + n <= 4 * |ws|
  {
    |ws'| == |ws| && forall x {:trigger ByteAt(ws', x)} :: 0 <= x < 4 * |ws| ==>
      ByteAt(ws', x) == if dst <= x < dst + n then ByteAt(ws, src + (x - dst)) else ByteAt(ws, x)
  }

  lemma CopyOne(ws: seq<Word>, dst: nat, src: nat, i: nat, now: seq<Word>)
    requires dst + i < 4 * |ws| && src + i < 4 * |ws| && (src + i < dst || dst + i < src) && Copied(ws, dst, src, i, now)
    ensures Copied(ws, dst, src, i + 1, now[(dst + i) / 4 := now[(dst + i) / 4].Set((dst + i) % 4, ByteAt(now, src + i))])
  {
    var b := ByteAt(now, src + i);
    var ws' := now[(dst + i) / 4 := now[(dst + i) / 4].Set((dst + i) % 4, b)];
    forall x | 0 <= x < 4 * |ws| ensures ByteAt(ws', x) == if x == dst + i then b else ByteAt(now, x) {
      SetByte(now, dst + i, b, x);
    }
    hide ByteAt, Word.Set;
    assert b == ByteAt(ws, src + i);
  }

  lemma LiveInArena(ws: seq<Word>, base: nat, cs: seq<Chunk>, b: Block)
    requires Represents(ws, base, cs) && b in Live(cs)
    ensures b.lo < b.hi <= TOP
  {
    var i :| Holds(cs, i, b);
    assert Neighbours(cs[i], cs[i + 1]);
    assert Header(ws, base, cs, i + 1);
  }

  // ----- Changing headers -----

  /** The words at the given places have changed, to the given values, and no others. */
  ghost predicate Written(ws: seq<Word>, changes: map<nat, nat>, ws': seq<Word>)
  {
    && |ws'| == |ws|
    && (forall j :: 0 <= j < |ws| && j !in changes ==> ws'[j] == ws[j])
    && (forall j :: 0 <= j < |ws| && j in changes ==> ws'[j].Value() == changes[j])
  }

  /** A chunk whose header has not been touched and whose neighbours are where they were. */
  lemma HeaderKept(ws: seq<Word>, base: nat, cs: seq<Chunk>, i: nat, ws': seq<Word>, ds: seq<Chunk>, j: nat)
    requires |ws| == |ws'| == WORDS && i < |cs| && j < |ds| && Header(ws, base, cs, i) && cs[i] == ds[j]
    requires LeftLink(base, cs, i) == LeftLink(base, ds, j) && RightLink(base, cs, i) == RightLink(base, ds, j)
    requires ws'[2 * cs[i].start] == ws[2 * cs[i].start] && ws'[2 * cs[i].start + 1] == ws[2 * cs[i].start + 1]
    ensures Header(ws', base, ds, j)
  {
  }

  /** The words after chunk `k` has been given back and joined with `a` chunks on its left and
      `b` on its right: one right link and one left link are new, and inside the free chunk that
      results anything may have been overwritten. */
  ghost predicate GiveWritten(ws: seq<Word>, base: nat, cs: seq<Chunk>, k: nat, a: nat, b: nat, ws': seq<Word>)
    requires a <= k && k + 1 + b < |cs|
  {
    var m, r := cs[k - a].start, cs[k + 1 + b].start;
    && |ws'| == |ws| && m < r && 2 * r < |ws|
    && ws'[2 * m + 1].Value() == Addr(base, r) + 1
    && ws'[2 * r].Value() == Addr(base, m)
    && (forall j :: 0 <= j < |ws| && (j <= 2 * m || 2 * r < j) ==> ws'[j] == ws[j])
  }

  lemma GiveHeader(ws: seq<Word>, base: nat, cs: seq<Chunk>, k: nat, a: nat, b: nat, ws': seq<Word>, gs: seq<Chunk>, j: nat)
    requires |ws| == WORDS && WellFormed(cs) && k + 1 + b < |cs| && GiveShape(cs, k, gs, a, b)
    requires GiveWritten(ws, base, cs, k, a, b, ws') && j < |gs|
    requires Header(ws, base, cs, if j <= k - a then j else j + a + b)
    ensures Header(ws', base, gs, j)
  {
    hide WellFormed, Word.Value;
    var m, r := k - a, k + 1 + b;
    var i := if j <= m then j else j + a + b;
    if i < m { Ordered(cs, i, m); }
    if r < i { Ordered(cs, r, i); }
    if j < m || j > m + 1 {
      assert j == m - 1 ==> gs[j + 1].start == cs[i + 1].start;
      HeaderKept(ws, base, cs, i, ws', gs, j);
    }
  }

  /** Giving chunk `k` back. */
  lemma GiveRepresents(ws: seq<Word>, base: nat, cs: seq<Chunk>, k: nat, a: nat, b: nat, ws': seq<Word>)
    requires Represents(ws, base, cs) && k + 1 + b < |cs| && !cs[k].free
    requires GiveShape(cs, k, Give(cs, k), a, b) && GiveWritten(ws, base, cs, k, a, b, ws')
    ensures Represents(ws', base, Give(cs, k))
  {
    GiveKeepsForm(cs, k);
    hide Give, WellFormed, Header;
    assert |ws'| == |ws|;
    hide GiveWritten;
    forall j | 0 <= j < |Give(cs, k)| ensures Header(ws', base, Give(cs, k), j) {
      assert Header(ws, base, cs, if j <= k - a then j else j + a + b);
      GiveHeader(ws, base, cs, k, a, b, ws', Give(cs, k), j);
    }
  }

  lemma Apart(cs: seq<Chunk>, i: nat, j: nat)
    requires WellFormed(cs) && i < |cs| && j < |cs| && i != j
    ensures cs[i].start != cs[j].start
  {
    if i < j { Ordered(cs, i, j); } else { Ordered(cs, j, i); }
  }

  /** Taking a whole chunk clears its free bit. */
  lemma TakeWholeRepresents(ws: seq<Word>, base: nat, cs: seq<Chunk>, k: nat, n: nat, ws': seq<Word>)
    requires Represents(ws, base, cs) && k < |cs| && n > 0 && Fits(cs, k, n) && Size(cs, k) == n
    requires Written(ws, map[2 * cs[k].start + 1 := Addr(base, cs[k + 1].start)], ws')
    ensures Represents(ws', base, Take(cs, k, n))
  {
    TakeKeepsForm(cs, k, n);
    var ts := Take(cs, k, n);
    forall j | 0 <= j < |ts| ensures Header(ws', base, ts, j) {
      assert Header(ws, base, cs, j);
      if j != k { Apart(cs, j, k); }
    }
  }

  /** The words that change when chunk `k` is split in front of position `q`. */
  function SplitChanges(base: nat, cs: seq<Chunk>, k: nat, q: nat): map<nat, nat>
    requires k + 1 < |cs|
  {
    map[2 * q := Addr(base, cs[k].start), 2 * q + 1 := Addr(base, cs[k + 1].start),
        2 * cs[k].start + 1 := Addr(base, q) + 1, 2 * cs[k + 1].start := Addr(base, q)]
  }

  /** The words of the header at position `x` after the split. */
  lemma SplitWords(ws: seq<Word>, base: nat, cs: seq<Chunk>, k: nat, q: nat, ws': seq<Word>, x: nat)
    requires k + 1 < |cs| && cs[k].start < q < cs[k + 1].start && 2 * x + 1 < |ws|
    requires Written(ws, SplitChanges(base, cs, k, q), ws')
    ensures 2 * x + 1 < |ws'|
    ensures if x == q then ws'[2 * x].Value() == Addr(base, cs[k].start)
            else if x == cs[k + 1].start then ws'[2 * x].Value() == Addr(base, q)
            else ws'[2 * x] == ws[2 * x]
    ensures if x == q then ws'[2 * x + 1].Value() == Addr(base, cs[k + 1].start)
            else if x == cs[k].start then ws'[2 * x + 1].Value() == Addr(base, q) + 1
            else ws'[2 * x + 1] == ws[2 * x + 1]
  {
    hide Word.Value;
  }

  lemma SplitHeader(ws: seq<Word>, base: nat, cs: seq<Chunk>, k: nat, n: nat, ws': seq<Word>, ts: seq<Chunk>, j: nat)
    requires |ws| == |ws'| == WORDS && k < |cs| && n > 0 && Fits(cs, k, n) && Size(cs, k) > n
    requires ts == Take(cs, k, n) && WellFormed(ts) && n <= cs[k + 1].start <= TOP
    requires j < |cs| + 1 && Header(ws, base, cs, if j <= k then j else j - 1)
    requires Written(ws, SplitChanges(base, cs, k, cs[k + 1].start - n), ws') && j < |ts|
    ensures Header(ws', base, ts, j)
  {
    hide Take, WellFormed, Word.Value, Written, SplitChanges;
    TakeIndices(cs, k, n);
    var i := if j <= k then j else j - 1;
    SplitWords(ws, base, cs, k, cs[k + 1].start - n, ws', ts[j].start);
    if j < k {
      Ordered(ts, j, k);
      HeaderKept(ws, base, cs, i, ws', ts, j);
    } else if j > k + 2 {
      Ordered(ts, k + 2, j);
      HeaderKept(ws, base, cs, i, ws', ts, j);
    }
  }

  /** Splitting puts a new header between chunk `k` and the next. */
  lemma SplitRepresents(ws: seq<Word>, base: nat, cs: seq<Chunk>, k: nat, n: nat, ws': seq<Word>)
    requires Represents(ws, base, cs) && k < |cs| && n > 0 && Fits(cs, k, n) && Size(cs, k) > n
    requires n <= cs[k + 1].start && Written(ws, SplitChanges(base, cs, k, cs[k + 1].start - n), ws')
    ensures Represents(ws', base, Take(cs, k, n))
  {
    TakeKeepsForm(cs, k, n);
    TakeIndices(cs, k, n);
    assert Header(ws, base, cs, k + 1);
    hide Take, WellFormed, Header, SplitChanges;
    forall j | 0 <= j < |Take(cs, k, n)| ensures Header(ws', base, Take(cs, k, n), j) {
      assert Header(ws, base, cs, if j <= k then j else j - 1);
      SplitHeader(ws, base, cs, k, n, ws', Take(cs, k, n), j);
    }
  }

  /** The payloads of the live blocks hold what they held. */
  ghost predicate KeepsPayloads(ws: seq<Word>, ws': seq<Word>, live: set<Block>)
  {
    |ws'| == |ws| && forall b: Block, j :: b in live && 2 * b.lo + 2 <= j < 2 * b.hi && j < |ws| ==> ws'[j] == ws[j]
  }

  /** No chunk starts inside a live block. */
  lemma NoStartInside(cs: seq<Chunk>, b: Block, i: nat)
    requires WellFormed(cs) && b in Live(cs) && i < |cs|
    ensures cs[i].start <= b.lo || b.hi <= cs[i].start
  {
    var k :| Holds(cs, k, b);
    if i <= k { Ordered(cs, i, k); } else { Ordered(cs, k + 1, i); }
  }

  lemma SplitKeepsPayloads(ws: seq<Word>, base: nat, cs: seq<Chunk>, k: nat, q: nat, ws': seq<Word>)
    requires WellFormed(cs) && k + 1 < |cs| && cs[k].free && cs[k].start < q <= cs[k + 1].start
    requires Written(ws, SplitChanges(base, cs, k, q), ws')
    ensures KeepsPayloads(ws, ws', Live(cs))
  {
    hide WellFormed, Word.Value;
    forall b: Block, j | b in Live(cs) && 2 * b.lo + 2 <= j < 2 * b.hi && j < |ws| ensures ws'[j] == ws[j] {
      NoStartInside(cs, b, k);
      NoStartInside(cs, b, k + 1);
      BlocksDisjoint(cs, k, Block(cs[k].start, cs[k + 1].start), b);
    }
  }

  lemma HeadersKeepPayloads(ws: seq<Word>, cs: seq<Chunk>, i: nat, j: nat, changes: map<nat, nat>, ws': seq<Word>)
    requires WellFormed(cs) && i < |cs| && j < |cs| && Written(ws, changes, ws')
    requires forall x :: x in changes ==> x == 2 * cs[i].start + 1 || x == 2 * cs[j].start
    ensures KeepsPayloads(ws, ws', Live(cs))
  {
    hide WellFormed, Word.Value;
    forall b: Block, x | b in Live(cs) && 2 * b.lo + 2 <= x < 2 * b.hi && x < |ws| ensures ws'[x] == ws[x] {
      NoStartInside(cs, b, i);
      NoStartInside(cs, b, j);
    }
  }

  lemma GiveKeepsPayloads(ws: seq<Word>, base: nat, cs: seq<Chunk>, k: nat, a: nat, b: nat, ws': seq<Word>)
    requires WellFormed(cs) && k + 1 + b < |cs| && !cs[k].free && GiveShape(cs, k, Give(cs, k), a, b)
    requires GiveWritten(ws, base, cs, k, a, b, ws')
    ensures KeepsPayloads(ws, ws', Live(Give(cs, k)))
  {
    GiveKeepsForm(cs, k);
    var gs, m := Give(cs, k), k - a;
    hide Give, WellFormed, Word.Value;
    forall x: Block, j | x in Live(gs) && 2 * x.lo + 2 <= j < 2 * x.hi && j < |ws| ensures ws'[j] == ws[j] {
      NoStartInside(gs, x, m + 1);
      BlocksDisjoint(gs, m, Block(gs[m].start, gs[m + 1].start), x);
    }
  }

  /** Writing once more what has been written. */
  lemma WrittenAgain(ws: seq<Word>, changes: map<nat, nat>, ws': seq<Word>, i: nat, v: nat)
    requires Written(ws, changes, ws') && i < |ws| && i in changes && changes[i] == v < WORD_RANGE
    ensures Written(ws, changes, ws'[i := ToWord(v)])
  {
  }

  // ----- A list that is lost -----

  /** No chunk list is found in the arena any more. */
  ghost predicate Lost(ws: seq<Word>, base: nat)
  {
    forall cs :: !Represents(ws, base, cs)
  }

  /** The right links after such a split, header by header. */
  lemma TiedWords(ws: seq<Word>, base: nat, cs: seq<Chunk>, k: nat, ws': seq<Word>, x: nat)
    requires k + 1 < |cs| && cs[k].start < cs[k + 1].start && 2 * cs[k + 1].start + 1 < |ws| && 2 * x + 1 < |ws|
    requires Written(ws, SplitChanges(base, cs, k, cs[k + 1].start), ws')
    ensures |ws'| == |ws|
    ensures if x == cs[k + 1].start then ws'[2 * x + 1].Value() == Addr(base, cs[k + 1].start)
            else if x == cs[k].start then ws'[2 * x + 1].Value() == Addr(base, cs[k + 1].start) + 1
            else ws'[2 * x + 1] == ws[2 * x + 1]
  {
    hide Word.Value;
  }

  /** The right links up to the tied header lead where they led, and that of the tied header to
      itself. */
  lemma TiedLinks(ws: seq<Word>, base: nat, cs: seq<Chunk>, k: nat, ws': seq<Word>, i: nat)
    requires Represents(ws, base, cs) && k + 1 < |cs| && i <= k + 1
    requires Written(ws, SplitChanges(base, cs, k, cs[k + 1].start), ws')
    ensures cs[i].start <= TOP && |ws'| == WORDS
    ensures var w := ws'[2 * cs[i].start + 1].Value(); w - w % 2 == Addr(base, cs[if i <= k then i + 1 else i].start)
  {
    RightOf(ws, base, cs, i);
    AddrInRange(ws, base, cs, k + 1);
    AlignedBase(ws, base, cs);
    EvenAddr(base, cs[k + 1].start);
    Grows(ws, base, cs, k);
    if i < k {
      StartsDiffer(ws, base, cs, i, k);
      StartsDiffer(ws, base, cs, i, k + 1);
    }
    hide Word.Value, Represents, Written, SplitChanges, GoodBase;
    TiedWords(ws, base, cs, k, ws', cs[i].start);
  }

  lemma StartsDiffer(ws: seq<Word>, base: nat, cs: seq<Chunk>, i: nat, j: nat)
    requires Represents(ws, base, cs) && i < |cs| && j < |cs| && i != j
    ensures cs[i].start != cs[j].start
  {
    Apart(cs, i, j);
  }

  /** Through any list found in the arena afterwards, the right links lead as before. */
  lemma {:induction false} SameStarts(ws: seq<Word>, base: nat, cs: seq<Chunk>, k: nat, ws': seq<Word>, ds: seq<Chunk>, i: nat)
    requires Represents(ws, base, cs) && k + 1 < |cs| && Written(ws, SplitChanges(base, cs, k, cs[k + 1].start), ws')
    requires Represents(ws', base, ds) && i <= k + 1
    ensures i < |ds| && ds[i].start == cs[i].start
  {
    hide Word.Value, Represents, Written, SplitChanges;
    FirstAddr(ws, base, cs);
    FirstAddr(ws', base, ds);
    if i > 0 {
      SameStarts(ws, base, cs, k, ws', ds, i - 1);
      TiedLinks(ws, base, cs, k, ws', i - 1);
      RightOf(ws', base, ds, i - 1);
    }
  }

  /** In the headers of a list no right link leads back to its own header. */
  lemma NoSelfLink(ws: seq<Word>, base: nat, cs: seq<Chunk>, i: nat)
    requires Represents(ws, base, cs) && i < |cs|
    ensures cs[i].start <= TOP
    ensures var w := ws[2 * cs[i].start + 1].Value(); w - w % 2 != Addr(base, cs[i].start)
  {
    hide Word.Value, Represents;
    RightOf(ws, base, cs, i);
    AlignedBase(ws, base, cs);
    if i + 1 < |cs| { Grows(ws, base, cs, i); }
  }

  /** A split in front of nothing ties the next header to itself, and the list is lost: the walk
      from the bottom reaches that header and never leaves it. */
  lemma EmptySplitLoses(ws: seq<Word>, base: nat, cs: seq<Chunk>, k: nat, ws': seq<Word>)
    requires Represents(ws, base, cs) && k + 1 < |cs| && Written(ws, SplitChanges(base, cs, k, cs[k + 1].start), ws')
    ensures Lost(ws', base)
  {
    hide Word.Value, Represents, Written, SplitChanges;
    FirstAddr(ws, base, cs);
    forall ds: seq<Chunk> ensures !Represents(ws', base, ds) {
      if Represents(ws', base, ds) {
        SameStarts(ws, base, cs, k, ws', ds, k + 1);
        TiedLinks(ws, base, cs, k, ws', k + 1);
        NoSelfLink(ws', base, ds, k + 1);
      }
    }
  }

  // ----- Sizes -----

  /** The chunk size asked for, in the unsigned arithmetic of the machine. */
  function RoundedSize(nbytes: nat): nat
  {
    8 * (((nbytes + 7) % WORD_RANGE) / 8 + 1) % WORD_RANGE
  }

  /** The rounding in terms of `m`, the request in whole headers. */
  lemma RoundingUp(nbytes: nat) returns (m: nat)
    requires nbytes <= WORD_RANGE - 8
    ensures m == (nbytes + 7) / 8 && nbytes <= 8 * m < nbytes + 8
    ensures RoundedSize(nbytes) == if m + 1 < 0x2000_0000 then 8 * (m + 1) else 0
  {
    m := (nbytes + 7) / 8;
    assert (nbytes + 7) % WORD_RANGE == nbytes + 7;
    assert m + 1 <= 0x2000_0000;
  }

  lemma RoundingOver(nbytes: nat)
    requires WORD_RANGE - 7 <= nbytes < WORD_RANGE
    ensures RoundedSize(nbytes) == 8
  {
    assert (nbytes + 7) % WORD_RANGE == nbytes + 7 - WORD_RANGE < 7;
  }

  /** The rounding leaves room for the header and the request exactly when it does not wrap;
      for the eight requests below the last seven it wraps to zero. */
  lemma Rounding(nbytes: nat)
    requires nbytes < WORD_RANGE
    ensures RoundedSize(nbytes) % 8 == 0
    ensures RoundedSize(nbytes) >= nbytes + 8 <==> nbytes <= WORD_RANGE - 16
    ensures nbytes <= WORD_RANGE - 16 ==> RoundedSize(nbytes) < nbytes + 16
    ensures RoundedSize(nbytes) == 0 <==> WORD_RANGE - 15 <= nbytes <= WORD_RANGE - 8
    ensures nbytes >= WORD_RANGE - 7 ==> RoundedSize(nbytes) == 8
  {
    if nbytes <= WORD_RANGE - 8 {
      var m := RoundingUp(nbytes);
      hide RoundedSize;
    } else {
      RoundingOver(nbytes);
    }
  }

  // ----- The allocator -----

  class Heap {
    const base: nat
    const words: array<Word>
    var bot: nat
    var top: nat
    ghost var chunks: seq<Chunk>

    ghost predicate Valid()
      reads this, words
    {
      && words.Length == WORDS && GoodBase(base)
      && (if bot == 0 then chunks == Initial()
          else bot == base && top == Addr(base, TOP) && Represents(words[..], base, chunks))
    }

    constructor (base: nat)
      requires GoodBase(base)
      ensures Valid() && fresh(words) && this.base == base && chunks == Initial()
    {
      this.base := base;
      words := new Word[WORDS](i => Word(0, 0, 0, 0));
      bot, top := 0, 0;
      chunks := Initial();
    }

    // The header at address `p` is the one at position `i`.

    method GetLeft(p: nat, ghost i: nat) returns (v: nat)
      requires words.Length == WORDS && i <= TOP && p == Addr(base, i)
      ensures v == words[2 * i].Value()
    {
      hide Word.Value;
      v := words[2 * ((p - base) / 8)].Value();
    }

    /** The right pointer with the free bit masked. */
    method GetRight(p: nat, ghost i: nat) returns (v: nat)
      requires words.Length == WORDS && i <= TOP && p == Addr(base, i)
      ensures var w := words[2 * i + 1].Value(); v == w - w % 2
    {
      hide Word.Value;
      var w := words[2 * ((p - base) / 8) + 1].Value();
      v := w - w % 2;
    }

    method GetFreeBit(p: nat, ghost i: nat) returns (free: bool)
      requires words.Length == WORDS && i <= TOP && p == Addr(base, i)
      ensures free == (words[2 * i + 1].Value() % 2 == 1)
    {
      hide Word.Value;
      free := words[2 * ((p - base) / 8) + 1].Value() % 2 == 1;
    }

    method SetLeft(p: nat, v: nat, ghost i: nat)
      requires words.Length == WORDS && i <= TOP && p == Addr(base, i) && v < WORD_RANGE
      modifies words
      ensures words[..] == old(words[..])[2 * i := ToWord(v)]
    {
      hide ToWord;
      words[2 * ((p - base) / 8)] := ToWord(v);
    }

    method SetRight(p: nat, v: nat, ghost i: nat)
      requires words.Length == WORDS && i <= TOP && p == Addr(base, i) && v < WORD_RANGE
      modifies words
      ensures words[..] == old(words[..])[2 * i + 1 := ToWord(v)]
    {
      hide ToWord;
      words[2 * ((p - base) / 8) + 1] := ToWord(v);
    }

    method Init()
      requires Valid() && bot == 0
      modifies this, words
      ensures Valid() && bot != 0 && chunks == old(chunks)
    {
      hide Word.Value, ToWord, WellFormed;
      bot, top := base, Addr(base, TOP);
      SetLeft(bot, 0, 0);
      SetRight(bot, top + 1, 0);
      SetLeft(top, bot, TOP);
      SetRight(top, 0, TOP);
      InitialForm();
      assert Header(words[..], base, Initial(), 0);
      assert Header(words[..], base, Initial(), 1);
    }

    /** The search loop of `tmalloc`: the address of the first chunk that fits, or 0. */
    method Find(size: nat) returns (p: nat, ghost k: nat)
      requires Valid() && bot != 0 && size % 8 == 0
      ensures k == FirstFit(chunks, size / 8, 0)
      ensures var j := FirstFit(chunks, size / 8, 0); p == if j < |chunks| then Addr(base, chunks[j].start) else 0
    {
      hide Word.Value, WellFormed, Header, GoodBase;
      p, k := bot, 0;
      FirstAddr(words[..], base, chunks);
      while p != 0
        invariant k <= |chunks| && p == if k < |chunks| then Addr(base, chunks[k].start) else 0
        invariant FirstFit(chunks, size / 8, 0) == FirstFit(chunks, size / 8, k)
        decreases |chunks| - k
      {
        RightOf(words[..], base, chunks, k);
        var free := GetFreeBit(p, chunks[k].start);
        var right := GetRight(p, chunks[k].start);
        if free && right - p >= size {
          return;
        }
        p, k := right, k + 1;
      }
    }

    /** Puts a header at `q` between those at `p` and `pr`, and sets the free bit of `p`. */
    method Link(p: nat, q: nat, pr: nat, ghost i: nat, ghost h: nat, ghost r: nat)
      requires words.Length == WORDS && i < h <= r <= TOP && Addr(base, r) + 1 < WORD_RANGE
      requires p == Addr(base, i) && q == Addr(base, h) && pr == Addr(base, r)
      modifies words
      ensures Written(old(words[..]), map[2 * h := p, 2 * h + 1 := pr, 2 * i + 1 := q + 1, 2 * r := q], words[..])
    {
      hide Word.Value, ToWord;
      SetRight(p, pr, i);
      SetLeft(q, p, h);
      SetRight(q, pr, h);
      SetRight(p, q, i);
      SetLeft(pr, q, r);
      SetRight(p, q + 1, i);
    }

    /** The middle of `tmalloc`: chunk `k` at `p` is cut `size` bytes before its end. */
    method Split(p: nat, size: nat, ghost k: nat) returns (q: nat)
      requires words.Length == WORDS && Represents(words[..], base, chunks) && size % 8 == 0
      requires k < |chunks| && Fits(chunks, k, size / 8) && Size(chunks, k) > size / 8
      requires p == Addr(base, chunks[k].start)
      modifies words
      ensures size / 8 <= chunks[k + 1].start && q == Addr(base, chunks[k + 1].start - size / 8)
      ensures Written(old(words[..]), SplitChanges(base, chunks, k, chunks[k + 1].start - size / 8), words[..])
    {
      hide Word.Value, ToWord, WellFormed, GoodBase, Written, Header;
      ghost var s, r := chunks[k].start, chunks[k + 1].start;
      ghost var h := r - size / 8;
      RightOf(words[..], base, chunks, k);
      AddrInRange(words[..], base, chunks, k + 1);
      var pr := GetRight(p, s);
      q := p + (pr - p) - size;
      Link(p, q, pr, s, h, r);
    }

    /** Clears the free bit of the chunk at `p`. */
    method ClearFreeBit(p: nat, ghost i: nat)
      requires words.Length == WORDS && i <= TOP && p == Addr(base, i)
      modifies words
      ensures var w := old(words[2 * i + 1].Value());
              w < WORD_RANGE && words[..] == old(words[..])[2 * i + 1 := ToWord(w - w % 2)]
    {
      ValueInRange(words[2 * i + 1]);
      hide Word.Value;
      var v := GetRight(p, i);
      SetRight(p, v, i);
    }

    /** Cuts a busy chunk of `size` bytes off the end of chunk `k`. */
    method SplitOff(p: nat, size: nat, ghost k: nat) returns (q: nat)
      requires words.Length == WORDS && Represents(words[..], base, chunks) && size % 8 == 0
      requires k < |chunks| && Fits(chunks, k, size / 8) && Size(chunks, k) > size / 8
      requires p == Addr(base, chunks[k].start)
      modifies words
      ensures size / 8 <= chunks[k + 1].start && q == Addr(base, chunks[k + 1].start - size / 8)
      ensures Written(old(words[..]), SplitChanges(base, chunks, k, chunks[k + 1].start - size / 8), words[..])
    {
      hide Word.Value, ToWord, Represents, GoodBase, Written, SplitChanges;
      ghost var ws := words[..];
      AddrInRange(ws, base, chunks, k + 1);
      AlignedBase(ws, base, chunks);
      EvenAddr(base, chunks[k + 1].start);
      q := Split(p, size, k);
      ghost var h := chunks[k + 1].start - size / 8;
      ghost var changes, ws1 := SplitChanges(base, chunks, k, h), words[..];
      NewRightLink(ws, base, chunks, k, h, ws1);
      ClearFreeBit(q, h);
      WrittenAgain(ws, changes, ws1, 2 * h + 1, changes[2 * h + 1]);
    }

    /** Takes chunk `k` as it is. */
    method TakeWhole(p: nat, ghost k: nat)
      requires words.Length == WORDS && Represents(words[..], base, chunks)
      requires k + 1 < |chunks| && p == Addr(base, chunks[k].start)
      modifies words
      ensures Written(old(words[..]), map[2 * chunks[k].start + 1 := Addr(base, chunks[k + 1].start)], words[..])
    {
      hide Word.Value, ToWord, Represents, GoodBase;
      AlignedBase(words[..], base, chunks);
      RightOf(words[..], base, chunks, k);
      EvenAddr(base, chunks[k + 1].start);
      ClearFreeBit(p, chunks[k].start);
    }

    /** Chunk `k` is larger than asked for. A size that has wrapped to zero ties the right link
        of the next header to itself. */
    method CarvePart(p: nat, size: nat, ghost k: nat) returns (r: nat)
      requires Valid() && bot != 0 && size % 8 == 0
      requires k < |chunks| && Fits(chunks, k, size / 8) && Size(chunks, k) > size / 8
      requires p == Addr(base, chunks[k].start)
      modifies this, words
      ensures bot == old(bot)
      ensures size > 0 ==> Valid() && chunks == Take(old(chunks), k, size / 8)
                           && size / 8 <= old(chunks)[k + 1].start
                           && r == Addr(base, old(chunks)[k + 1].start - size / 8)
                           && KeepsPayloads(old(words[..]), words[..], Live(old(chunks)))
      ensures size == 0 ==> Lost(words[..], base) && TiedToItself(old(chunks)[k + 1].start)
    {
      hide Word.Value, Represents, Written, SplitChanges, Take, KeepsPayloads, Fits, Size, Live;
      ghost var ws, cs := words[..], chunks;
      r := SplitOff(p, size, k);
      PartTaken(ws, base, cs, k, size / 8, words[..]);
      if size > 0 {
        chunks := Take(cs, k, size / 8);
      }
    }

    /** Chunk `k` has exactly the size asked for. */
    method CarveWhole(p: nat, size: nat, ghost k: nat)
      requires Valid() && bot != 0 && size % 8 == 0 && size > 0
      requires k < |chunks| && Fits(chunks, k, size / 8) && Size(chunks, k) == size / 8
      requires p == Addr(base, chunks[k].start)
      modifies this, words
      ensures Valid() && bot == old(bot) && chunks == Take(old(chunks), k, size / 8)
      ensures KeepsPayloads(old(words[..]), words[..], Live(old(chunks)))
    {
      ghost var ws, cs := words[..], chunks;
      assert k + 1 < |cs|;
      hide Word.Value, Represents, Written, Take, KeepsPayloads, Fits, Size, Live;
      TakeWhole(p, k);
      WholeTaken(ws, base, cs, k, size / 8, words[..]);
      chunks := Take(cs, k, size / 8);
    }

    /** `tmalloc` once the first fit has been found at `p`. */
    method Carve(p: nat, size: nat, ghost k: nat) returns (r: nat)
      requires Valid() && bot != 0 && size % 8 == 0
      requires k < |chunks| && Fits(chunks, k, size / 8) && p == Addr(base, chunks[k].start)
      modifies this, words
      ensures bot == old(bot)
      ensures size > 0 ==> Valid() && chunks == Take(old(chunks), k, size / 8)
                           && size / 8 <= old(chunks)[k + 1].start
                           && r == Addr(base, old(chunks)[k + 1].start - size / 8)
                           && KeepsPayloads(old(words[..]), words[..], Live(old(chunks)))
      ensures size == 0 ==> Lost(words[..], base) && TiedToItself(old(chunks)[k + 1].start)
    {
      hide Word.Value, Represents, Take, KeepsPayloads, Live;
      RightOf(words[..], base, chunks, k);
      Grows(words[..], base, chunks, k);
      var right := GetRight(p, chunks[k].start);
      if right - p > size {
        r := CarvePart(p, size, k);
      } else {
        r := p;
        CarveWhole(p, size, k);
      }
    }

    /** `tmalloc`. Fails exactly when no free chunk fits; otherwise it takes the lowest that
        does. The list is lost exactly when the rounded size has wrapped to zero and some chunk
        is free. */
    method TMalloc(nbytes: nat) returns (vp: nat, ghost k: nat)
      requires Valid() && nbytes < WORD_RANGE
      modifies this, words
      ensures k == FirstFit(old(chunks), RoundedSize(nbytes) / 8, 0)
      ensures bot != 0 && (Lost(words[..], base) <==> RoundedSize(nbytes) == 0 && k < |old(chunks)|)
      ensures if Lost(words[..], base) then TiedToItself(old(chunks)[k + 1].start)
              else Valid() && KeepsPayloads(old(words[..]), words[..], Live(old(chunks)))
      ensures k == |old(chunks)| ==> vp == 0 && chunks == old(chunks)
      ensures k < |old(chunks)| && RoundedSize(nbytes) > 0 ==>
                vp != 0 && Allocated(base, old(chunks), k, RoundedSize(nbytes) / 8, chunks, vp)
    {
      hide Word.Value, Represents, RoundedSize, Take, FirstFit;
      if bot == 0 {
        NothingLive();
        Init();
      }
      var size := RoundedSize(nbytes);
      Rounding(nbytes);
      var p;
      p, k := Find(size);
      if p == 0 {
        vp := 0;
      } else {
        p := Carve(p, size, k);
        vp := p + 8;
      }
    }

    /** Sets the free bit of the chunk at `p`. */
    method SetFreeBit(p: nat, ghost i: nat)
      requires words.Length == WORDS && i <= TOP && p == Addr(base, i)
      requires words[2 * i + 1].Value() + 1 < WORD_RANGE
      modifies words
      ensures var w := old(words[2 * i + 1].Value()); words[2 * i + 1].Value() == w - w % 2 + 1
      ensures forall j :: 0 <= j < WORDS && j != 2 * i + 1 ==> words[j] == old(words[j])
    {
      hide Word.Value, ToWord;
      ghost var ws := words[..];
      var v := GetRight(p, i);
      SetRight(p, v + 1, i);
      assert words[..] == ws[2 * i + 1 := ToWord(v + 1)];
    }

    /** Joins the chunk at `p`, which ends at `Addr(base, s)`, to the one at `q` before it. */
    method MergeLeft(q: nat, p: nat, ghost m: nat, ghost i: nat, ghost s: nat)
      requires words.Length == WORDS && m < i < s <= TOP && q == Addr(base, m) && p == Addr(base, i)
      requires Addr(base, s) + 1 < WORD_RANGE && words[2 * i + 1].Value() == Addr(base, s) && Addr(base, s) % 2 == 0
      modifies words
      ensures words[2 * m + 1].Value() == Addr(base, s) + 1 && words[2 * s].Value() == Addr(base, m)
      ensures forall j :: 0 <= j < WORDS && j != 2 * m + 1 && j != 2 * s ==> words[j] == old(words[j])
    {
      hide Word.Value, ToWord;
      ghost var ws := words[..];
      ClearFreeBit(q, m);
      assert words[..][2 * i + 1] == ws[2 * i + 1];
      var pr := GetRight(p, i);
      SetRight(q, pr, m);
      SetLeft(pr, q, s);
      SetRight(q, pr + 1, m);
      assert words[..] == ws[2 * m + 1 := ToWord(pr + 1)][2 * s := ToWord(q)];
    }

    /** Joins the free chunk at `q`, which ends at `Addr(base, t)`, to the one at `p` before it. */
    method MergeRight(p: nat, q: nat, ghost m: nat, ghost s: nat, ghost t: nat)
      requires words.Length == WORDS && m < s < t <= TOP && p == Addr(base, m) && q == Addr(base, s)
      requires Addr(base, t) + 1 < WORD_RANGE && words[2 * s + 1].Value() == Addr(base, t) + 1 && Addr(base, t) % 2 == 0
      modifies words
      ensures words[2 * m + 1].Value() == Addr(base, t) && words[2 * t].Value() == Addr(base, m)
      ensures forall j :: 0 <= j < WORDS && j != 2 * m + 1 && j != 2 * t && j != 2 * s + 1 ==> words[j] == old(words[j])
    {
      hide Word.Value, ToWord;
      ClearFreeBit(q, s);
      ghost var ws := words[..];
      assert forall j :: 0 <= j < WORDS && j != 2 * s + 1 ==> ws[j] == old(words[j]);
      var qr := GetRight(q, s);
      SetRight(p, qr, m);
      SetLeft(qr, p, t);
      SetRight(q, qr + 1, s);
      assert words[..] == ws[2 * m + 1 := ToWord(qr)][2 * t := ToWord(p)][2 * s + 1 := ToWord(qr + 1)];
    }

    /** The first half of `tfree`: chunk `k` at `p` is joined to a free chunk on its left. */
    method JoinLeft(p: nat, ghost k: nat) returns (r: nat, ghost a: nat)
      requires words.Length == WORDS && Represents(words[..], base, chunks)
      requires k + 1 < |chunks| && !chunks[k].free && p == Addr(base, chunks[k].start)
      modifies words
      ensures a == if k > 0 && chunks[k - 1].free then 1 else 0
      ensures r == Addr(base, chunks[k - a].start)
      ensures LeftJoined(old(words[..]), base, chunks, k, a, words[..])
    {
      hide Word.Value, ToWord, WellFormed, Header, GoodBase;
      ghost var ws, i, s := words[..], chunks[k].start, chunks[k + 1].start;
      RightOf(ws, base, chunks, k);
      LeftOf(ws, base, chunks, k);
      LeftOf(ws, base, chunks, k + 1);
      AddrInRange(ws, base, chunks, k + 1);
      Grows(ws, base, chunks, k);
      AlignedBase(ws, base, chunks);
      EvenAddr(base, s);
      ClearFreeBit(p, i);
      assert forall j :: 0 <= j < WORDS && j != 2 * i + 1 ==> words[..][j] == ws[j];
      assert words[2 * i + 1].Value() == Addr(base, s);
      r, a := p, 0;
      var q := GetLeft(p, i);
      if q != 0 {
        RightOf(ws, base, chunks, k - 1);
        Grows(ws, base, chunks, k - 1);
        var free := GetFreeBit(q, chunks[k - 1].start);
        if free {
          MergeLeft(q, p, chunks[k - 1].start, i, s);
          r, a := q, 1;
        }
      }
    }

    /** The second half: the chunk at `p` is joined to a free chunk on its right and marked. */
    method JoinRight(p: nat, ghost k: nat, ghost a: nat, ghost ws: seq<Word>) returns (ghost b: nat)
      requires words.Length == WORDS && Represents(ws, base, chunks) && k + 1 < |chunks| && a <= k
      requires p == Addr(base, chunks[k - a].start) && LeftJoined(ws, base, chunks, k, a, words[..])
      modifies words
      ensures b == if chunks[k + 1].free then 1 else 0
      ensures k + 1 + b < |chunks| && GiveWritten(ws, base, chunks, k, a, b, words[..])
    {
      hide Word.Value, ToWord, WellFormed, Header, GoodBase;
      ghost var m, s := chunks[k - a].start, chunks[k + 1].start;
      RightOf(ws, base, chunks, k + 1);
      AlignedBase(ws, base, chunks);
      EvenAddr(base, s);
      AddrInRange(ws, base, chunks, k + 1);
      LastIsBusy(ws, base, chunks);
      b := 0;
      var q := GetRight(p, m);
      var free := GetFreeBit(q, s);
      if free {
        b := 1;
        ghost var t := chunks[k + 2].start;
        Grows(ws, base, chunks, k + 1);
        AddrInRange(ws, base, chunks, k + 2);
        EvenAddr(base, t);
        MergeRight(p, q, m, s, t);
      }
      SetFreeBit(p, m);
    }

    /** `tfree` of a live block (or of the null pointer): the block goes back to the list, and the
        payloads of the blocks that stay live are not touched. */
    method TFree(vp: nat, ghost b: Block)
      requires Valid() && (vp == 0 || (bot != 0 && b in Live(chunks) && vp == Addr(base, b.lo + 1)))
      modifies this, words
      ensures Valid() && bot == old(bot)
      ensures if vp == 0 then chunks == old(chunks) && words[..] == old(words[..]) else Released(old(chunks), b, chunks)
      ensures KeepsPayloads(old(words[..]), words[..], Live(chunks))
    {
      if vp != 0 {
        hide Word.Value, Represents, Live, LeftJoined, GiveWritten, KeepsPayloads, GiveBlock;
        ghost var ws, cs, k := words[..], chunks, IndexOf(chunks, b);
        var p := vp - 8;
        ghost var a;
        p, a := JoinLeft(p, k);
        ghost var b' := JoinRight(p, k, a, ws);
        BlockGiven(ws, base, cs, b, k, a, b', words[..]);
        chunks := GiveBlock(cs, b);
      }
    }

    /** Copies `n` bytes between two places of the arena that do not overlap, given as offsets. */
    method MemCpy(dst: nat, src: nat, n: nat)
      requires words.Length == WORDS && dst + n <= 4 * WORDS && src + n <= 4 * WORDS
      requires dst + n <= src || src + n <= dst
      modifies words
      ensures Copied(old(words[..]), dst, src, n, words[..])
      ensures forall j :: 0 <= j < WORDS && (4 * j + 4 <= dst || dst + n <= 4 * j) ==> words[j] == old(words[j])
    {
      ghost var ws := words[..];
      hide Copied;
      NothingCopied(ws, dst, src);
      for i := 0 to n
        invariant Copied(ws, dst, src, i, words[..])
        invariant forall j :: 0 <= j < WORDS && (4 * j + 4 <= dst || dst + i <= 4 * j) ==> words[j] == ws[j]
      {
        CopyOne(ws, dst, src, i, words[..]);
        var b := words[(src + i) / 4].Get((src + i) % 4);
        words[(dst + i) / 4] := words[(dst + i) / 4].Set((dst + i) % 4, b);
      }
    }

    /** How many bytes `trealloc` copies. */
    method BytesToCopy(vp: nat, newbytes: nat, ghost b: Block) returns (bytes: nat)
      requires Valid() && bot != 0 && b in Live(chunks) && vp == Addr(base, b.lo + 1)
      ensures b.lo < b.hi <= TOP && bytes == Kept(b, newbytes)
    {
      hide Word.Value, WellFormed, Header, GoodBase;
      ghost var k := IndexOf(chunks, b);
      RightOf(words[..], base, chunks, k);
      LiveInArena(words[..], base, chunks, b);
      var right := GetRight(vp - 8, b.lo);
      bytes := right - (vp - 8) - 8;
      if bytes > newbytes {
        bytes := newbytes;
      }
    }

    /** The copy of `trealloc`, when the new block `nb` has room for it. */
    method CopyBlock(newp: nat, vp: nat, bytes: nat, ghost b: Block, ghost nb: Block)
      requires Valid() && bot != 0 && b in Live(chunks) && nb in Live(chunks) && b != nb
      requires vp == Addr(base, b.lo + 1) && newp == Addr(base, nb.lo + 1)
      requires bytes <= Payload(b) && bytes <= Payload(nb)
      modifies words
      ensures Valid()
      ensures Moved(old(words[..]), words[..], b, nb, bytes)
      ensures KeepsPayloads(old(words[..]), words[..], Live(chunks) - {nb})
    {
      hide Word.Value, WellFormed, Header, GoodBase, Copied, KeepsPayloads;
      ghost var ws := words[..];
      LiveInArena(ws, base, chunks, b);
      LiveInArena(ws, base, chunks, nb);
      LiveDisjoint(chunks, b, nb);
      MemCpy(newp - base, vp - base, bytes);
      PayloadWritten(ws, base, chunks, nb, words[..]);
      BytesMoved(ws, words[..], b, nb, bytes);
    }

    /** The copy and the release of `trealloc`, when the new block `nb` has room for the bytes. */
    method MoveAndFree(newp: nat, vp: nat, bytes: nat, ghost b: Block, ghost nb: Block)
      requires Valid() && bot != 0 && b in Live(chunks) && nb in Live(chunks) && b != nb && b.lo < b.hi <= TOP && nb.lo < nb.hi <= TOP
      requires vp == Addr(base, b.lo + 1) && newp == Addr(base, nb.lo + 1)
      requires bytes <= Payload(b) && bytes <= Payload(nb)
      modifies this, words
      ensures Valid() && bot != 0 && Released(old(chunks), b, chunks)
      ensures Moved(old(words[..]), words[..], b, nb, bytes)
      ensures KeepsPayloads(old(words[..]), words[..], Live(old(chunks)) - {nb} - {b})
    {
      hide Word.Value, Represents, Live, KeepsPayloads, Moved, GiveBlock, WellFormed;
      ghost var cs, ws := chunks, words[..];
      CopyBlock(newp, vp, bytes, b, nb);
      ghost var ws2 := words[..];
      TFree(vp, b);
      assert Live(cs) - {nb} + {nb} - {b} == Live(cs) - {b};
      MoveOn(ws, ws2, words[..], Live(cs) - {nb}, b, nb, bytes);
    }

    /** `trealloc` of a live block to a size other than zero. Where the list is lost, or the copy
        runs past the new block, the call is followed no further. */
    method Resize(vp: nat, newbytes: nat, ghost b: Block) returns (newp: nat, ghost k: nat)
      requires Valid() && 0 < newbytes < WORD_RANGE
      requires bot != 0 && b in Live(chunks) && vp == Addr(base, b.lo + 1)
      modifies this, words
      ensures k == FirstFit(old(chunks), RoundedSize(newbytes) / 8, 0)
      ensures Reallocated(old(words[..]), base, old(chunks), k, newbytes, b, words[..], chunks, newp)
      ensures k == |old(chunks)| || (RoundedSize(newbytes) > 0 && Roomy(b, newbytes)) ==> Valid() && bot != 0
    {
      hide Word.Value, Represents, Take, FirstFit, RoundedSize, Live, KeepsPayloads, Moved, GiveBlock, WellFormed, Copied;
      ghost var cs, ws, n := chunks, words[..], RoundedSize(newbytes) / 8;
      Rounding(newbytes);
      newp, k := TMalloc(newbytes);
      if newp == 0 || RoundedSize(newbytes) == 0 {
        return;
      }
      ghost var nb, ws1 := Taken(cs, k, n), words[..];
      NewBlock(ws, base, cs, k, n, b, ws1);
      var bytes := BytesToCopy(vp, newbytes, b);
      if bytes <= RoundedSize(newbytes) - 8 {
        MoveAndFree(newp, vp, bytes, b, nb);
        assert Live(Take(cs, k, n)) - {nb} == Live(cs);
        MovedFrom(ws, ws1, words[..], Live(cs), b, nb, bytes);
      } else if newp - base + bytes <= 4 * WORDS && (newp + bytes <= vp || vp + bytes <= newp) {
        MemCpy(newp - base, vp - base, bytes);
      }
    }

    /** `trealloc`. The null pointer stands for an allocation and a size of zero for a release.
        Otherwise either nothing fits and the block stays as it is, or a new block takes over
        the first bytes of the old one, as many as both can hold, and no other payload changes,
        unless the size wraps. */
    method TRealloc(vp: nat, newbytes: nat, ghost b: Block) returns (newp: nat, ghost k: nat)
      requires Valid() && newbytes < WORD_RANGE
      requires vp == 0 || (bot != 0 && b in Live(chunks) && vp == Addr(base, b.lo + 1))
      modifies this, words
      ensures k == FirstFit(old(chunks), RoundedSize(newbytes) / 8, 0)
      ensures newbytes <= WORD_RANGE - 16 ==> Valid()
      ensures vp != 0 && newbytes == 0 ==>
                newp == 0 && Released(old(chunks), b, chunks) && KeepsPayloads(old(words[..]), words[..], Live(chunks))
      ensures vp != 0 && newbytes != 0 ==>
                Reallocated(old(words[..]), base, old(chunks), k, newbytes, b, words[..], chunks, newp)
      ensures vp != 0 && 0 < newbytes <= WORD_RANGE - 16 && k < |old(chunks)| ==>
                forall n: nat :: n <= newbytes && n <= 8 * (b.hi - b.lo - 1) ==>
                  KeepsBytes(old(words[..]), base, vp, words[..], newp, n)
      ensures vp == 0 ==>
                && (Lost(words[..], base) <==> RoundedSize(newbytes) == 0 && k < |old(chunks)|)
                && (!Lost(words[..], base) ==> Valid() && KeepsPayloads(old(words[..]), words[..], Live(old(chunks))))
                && (k == |old(chunks)| ==> newp == 0 && chunks == old(chunks))
                && (k < |old(chunks)| && RoundedSize(newbytes) > 0 ==>
                      Allocated(base, old(chunks), k, RoundedSize(newbytes) / 8, chunks, newp))
    {
      hide Word.Value, Represents, Take, FirstFit, RoundedSize, Live, KeepsPayloads, Reallocated, GiveBlock, WellFormed, Lost;
      k := FirstFit(chunks, RoundedSize(newbytes) / 8, 0);
      Rounding(newbytes);
      if vp == 0 {
        newp, k := TMalloc(newbytes);
      } else if newbytes != 0 {
        ghost var ws, cs := words[..], chunks;
        newp, k := Resize(vp, newbytes, b);
        if newbytes <= WORD_RANGE - 16 && k < |cs| {
          ReallocatedKeepsBytes(ws, base, cs, k, newbytes, b, words[..], chunks, vp, newp);
        }
      } else {
        newp := 0;
        TFree(vp, b);
      }
    }

    /** The right link of the header at position `i` leads back to it. */
    ghost predicate TiedToItself(i: nat)
      reads words
    {
      2 * i + 1 < words.Length && words[2 * i + 1].Value() == Addr(base, i)
    }
  }

  /** The words after the first half of `tfree`. */
  ghost predicate LeftJoined(ws: seq<Word>, base: nat, cs: seq<Chunk>, k: nat, a: nat, ws': seq<Word>)
    requires a <= k && k + 1 < |cs|
  {
    var m, s := cs[k - a].start, cs[k + 1].start;
    && |ws'| == |ws| && m < s && 2 * s + 1 < |ws|
    && (ws'[2 * m + 1].Value() == Addr(base, s) || ws'[2 * m + 1].Value() == Addr(base, s) + 1)
    && ws'[2 * s].Value() == Addr(base, m)
    && (forall j :: 0 <= j < |ws| && (j <= 2 * m || 2 * s < j) ==> ws'[j] == ws[j])
  }

  lemma LeftOf(ws: seq<Word>, base: nat, cs: seq<Chunk>, k: nat)
    requires Represents(ws, base, cs) && k < |cs|
    ensures cs[k].start <= TOP && ws[2 * cs[k].start].Value() == if k == 0 then 0 else Addr(base, cs[k - 1].start)
  {
    hide Word.Value;
    assert Header(ws, base, cs, k);
  }

  lemma LastIsBusy(ws: seq<Word>, base: nat, cs: seq<Chunk>)
    requires Represents(ws, base, cs)
    ensures |cs| > 0 && !cs[|cs| - 1].free
  {
  }

  lemma BlockGiven(ws: seq<Word>, base: nat, cs: seq<Chunk>, x: Block, k: nat, a: nat, b: nat, ws': seq<Word>)
    requires Represents(ws, base, cs) && x in Live(cs) && k == IndexOf(cs, x)
    requires a == (if k > 0 && cs[k - 1].free then 1 else 0) && b == (if cs[k + 1].free then 1 else 0)
    requires k + 1 + b < |cs| && GiveWritten(ws, base, cs, k, a, b, ws')
    ensures WellFormed(cs) && Represents(ws', base, GiveBlock(cs, x)) && KeepsPayloads(ws, ws', Live(GiveBlock(cs, x)))
  {
    var a1, b1 := GiveIndices(cs, k);
    SameJoin(cs, k, Give(cs, k), a, b, a1, b1);
    assert GiveBlock(cs, x) == Give(cs, k);
    hide Word.Value, Header, WellFormed, Give, GiveShape, GiveWritten, KeepsPayloads;
    GiveRepresents(ws, base, cs, k, a, b, ws');
    GiveKeepsPayloads(ws, base, cs, k, a, b, ws');
  }

  lemma SameJoin(cs: seq<Chunk>, k: nat, gs: seq<Chunk>, a: nat, b: nat, a1: nat, b1: nat)
    requires k + 1 < |cs| && GiveShape(cs, k, gs, a1, b1)
    requires a == (if k > 0 && cs[k - 1].free then 1 else 0) && b == if cs[k + 1].free then 1 else 0
    ensures a == a1 && b == b1
  {
  }

  lemma NewRightLink(ws: seq<Word>, base: nat, cs: seq<Chunk>, k: nat, h: nat, ws': seq<Word>)
    requires k + 1 < |cs| && cs[k].start < h && 2 * h + 1 < |ws|
    requires Written(ws, SplitChanges(base, cs, k, h), ws')
    ensures var changes := SplitChanges(base, cs, k, h);
            2 * h + 1 in changes && 2 * h + 1 < |ws'| && ws'[2 * h + 1].Value() == changes[2 * h + 1] == Addr(base, cs[k + 1].start)
  {
    hide Word.Value;
  }

  lemma PartTaken(ws: seq<Word>, base: nat, cs: seq<Chunk>, k: nat, n: nat, ws': seq<Word>)
    requires Represents(ws, base, cs) && k < |cs| && Fits(cs, k, n) && Size(cs, k) > n
    requires n <= cs[k + 1].start && Written(ws, SplitChanges(base, cs, k, cs[k + 1].start - n), ws')
    ensures n > 0 ==> Represents(ws', base, Take(cs, k, n)) && KeepsPayloads(ws, ws', Live(cs))
    ensures n == 0 ==> Lost(ws', base)
    ensures n == 0 ==> 2 * cs[k + 1].start + 1 < |ws'| && ws'[2 * cs[k + 1].start + 1].Value() == Addr(base, cs[k + 1].start)
  {
    hide Word.Value, Header, Take, KeepsPayloads, WellFormed;
    if n > 0 {
      hide Written, SplitChanges;
      SplitRepresents(ws, base, cs, k, n, ws');
      SplitKeepsPayloads(ws, base, cs, k, cs[k + 1].start - n, ws');
    } else {
      EmptySplitLoses(ws, base, cs, k, ws');
      AddrInRange(ws, base, cs, k + 1);
    }
  }

  lemma WholeTaken(ws: seq<Word>, base: nat, cs: seq<Chunk>, k: nat, n: nat, ws': seq<Word>)
    requires Represents(ws, base, cs) && k < |cs| && n > 0 && Fits(cs, k, n) && Size(cs, k) == n
    requires Written(ws, map[2 * cs[k].start + 1 := Addr(base, cs[k + 1].start)], ws')
    ensures Represents(ws', base, Take(cs, k, n)) && KeepsPayloads(ws, ws', Live(cs))
  {
    TakeWholeRepresents(ws, base, cs, k, n, ws');
    hide Word.Value, Header, Take, KeepsPayloads;
    HeadersKeepPayloads(ws, cs, k, k, map[2 * cs[k].start + 1 := Addr(base, cs[k + 1].start)], ws');
  }

  /** The bytes of a block behind its header. */
  function Payload(b: Block): nat { if b.lo < b.hi then 8 * (b.hi - b.lo - 1) else 0 }

  /** How many bytes survive a reallocation. */
  function Kept(b: Block, newbytes: nat): nat { if Payload(b) > newbytes then newbytes else Payload(b) }

  /** The new block has room for the copy: its size has not wrapped, or there is nothing to copy. */
  predicate Roomy(b: Block, newbytes: nat) { newbytes <= WORD_RANGE - 16 || Payload(b) == 0 }

  /** Byte `i` of the payload of block `b`. */
  function BlockByte(ws: seq<Word>, b: Block, i: nat): Byte
    requires 8 * b.lo + 8 + i < 4 * |ws|
  {
    ByteAt(ws, 8 * b.lo + 8 + i)
  }

  /** The first `n` bytes of block `b` have become the first bytes of block `nb`. */
  ghost predicate Moved(ws: seq<Word>, ws': seq<Word>, b: Block, nb: Block, n: nat)
  {
    && 8 * b.lo + 8 + n <= 4 * |ws| && 8 * nb.lo + 8 + n <= 4 * |ws'|
    && (forall i :: 0 <= i < n ==> BlockByte(ws', nb, i) == BlockByte(ws, b, i))
  }

  lemma BytesMoved(ws: seq<Word>, ws': seq<Word>, b: Block, nb: Block, n: nat)
    requires 8 * b.lo + 8 + n <= 4 * |ws| && 8 * nb.lo + 8 + n <= 4 * |ws'|
    requires Copied(ws, 8 * nb.lo + 8, 8 * b.lo + 8, n, ws')
    ensures Moved(ws, ws', b, nb, n)
  {
    hide ByteAt;
  }

  /** A word that has kept its value has kept its bytes. */
  lemma BytesKept(ws: seq<Word>, ws': seq<Word>, live: set<Block>, b: Block, i: nat)
    requires KeepsPayloads(ws, ws', live) && b in live && b.lo < b.hi && i < 8 * (b.hi - b.lo - 1) && 2 * b.hi <= |ws|
    ensures BlockByte(ws', b, i) == BlockByte(ws, b, i)
  {
    var j := (8 * b.lo + 8 + i) / 4;
    assert 2 * b.lo + 2 <= j < 2 * b.hi;
  }

  // ----- What the calls promise -----

  /** A block of `n` headers has been cut from chunk `k`, and `vp` points behind its header. */
  ghost predicate Allocated(base: nat, cs: seq<Chunk>, k: nat, n: nat, cs': seq<Chunk>, vp: nat)
  {
    && k < |cs| && Fits(cs, k, n) && n <= cs[k + 1].start
    && cs' == Take(cs, k, n) && vp == Addr(base, Taken(cs, k, n).lo + 1)
  }

  /** An allocation hands out one new block that overlaps no block handed out before, unless its
      size has wrapped to zero, when what results is no chunk list at all. The block has room for
      every byte asked for exactly up to 2^32 - 16 bytes; above, it has room for none. No chunk at
      a lower address would have done. */
  lemma NewPayload(base: nat, cs: seq<Chunk>, k: nat, nbytes: nat, cs': seq<Chunk>, vp: nat)
    requires WellFormed(cs) && nbytes < WORD_RANGE && k == FirstFit(cs, RoundedSize(nbytes) / 8, 0)
    requires Allocated(base, cs, k, RoundedSize(nbytes) / 8, cs', vp)
    ensures WellFormed(cs') <==> RoundedSize(nbytes) > 0
    ensures RoundedSize(nbytes) > 0 ==> exists b: Block ::
              && b !in Live(cs) && Live(cs') == Live(cs) + {b} && b.lo < b.hi && vp == Addr(base, b.lo + 1)
              && (if nbytes <= WORD_RANGE - 16 then nbytes <= Payload(b) < nbytes + 8 else Payload(b) == 0)
              && (forall x :: x in Live(cs) ==> x.hi <= b.lo || b.hi <= x.lo)
    ensures forall j :: 0 <= j < k ==> !Fits(cs, j, RoundedSize(nbytes) / 8)
  {
    Rounding(nbytes);
    var n := RoundedSize(nbytes) / 8;
    if n == 0 {
      EmptyTakeIsNoList(cs, k);
    } else {
      hide FirstFit, RoundedSize, Take, Live, WellFormed;
      TakeKeepsForm(cs, k, n);
      TakeAddsBlock(cs, k, n);
      var b := Taken(cs, k, n);
      assert Payload(b) == RoundedSize(nbytes) - 8;
    }
  }

  lemma EmptyTakeIsNoList(cs: seq<Chunk>, k: nat)
    requires WellFormed(cs) && k < |cs| && Fits(cs, k, 0)
    ensures !WellFormed(Take(cs, k, 0))
  {
    assert Neighbours(cs[k], cs[k + 1]);
    TakeIndices(cs, k, 0);
    var ts := Take(cs, k, 0);
    hide Take;
    assert !Neighbours(ts[k + 1], ts[k + 2]);
  }

  /** Block `b` has been given back. */
  ghost predicate Released(cs: seq<Chunk>, b: Block, cs': seq<Chunk>)
  {
    WellFormed(cs) && b in Live(cs) && cs' == GiveBlock(cs, b)
  }

  /** A new block has taken the place of block `b` and the first `n` of its bytes. */
  ghost predicate Replaced(ws: seq<Word>, base: nat, cs: seq<Chunk>, k: nat, n: nat, b: Block, bytes: nat,
                           ws': seq<Word>, cs': seq<Chunk>, vp: nat)
  {
    && k < |cs| && Fits(cs, k, n) && n <= cs[k + 1].start && vp == Addr(base, Taken(cs, k, n).lo + 1)
    && Released(Take(cs, k, n), b, cs')
    && Moved(ws, ws', b, Taken(cs, k, n), bytes)
    && KeepsPayloads(ws, ws', Live(cs) - {b})
  }

  // ----- Reallocation to a size that wraps -----

  /** Behind the new header of a block without payload there is room in the arena, and apart from
      block `b`, for all bytes of `b`. */
  predicate CopyFits(nb: Block, b: Block)
  {
    8 * nb.lo + 8 + Payload(b) <= 4 * WORDS && (8 * nb.lo + Payload(b) <= 8 * b.lo || 8 * b.lo + Payload(b) <= 8 * nb.lo)
  }

  /** A block that is only a header has been cut off, and all bytes of `b` have been copied behind
      it; where that leaves the arena, or the two ranges overlap, nothing is known. */
  ghost predicate Overran(ws: seq<Word>, base: nat, cs: seq<Chunk>, k: nat, b: Block, ws': seq<Word>, newp: nat)
  {
    && k < |cs| && Fits(cs, k, 1) && 1 <= cs[k + 1].start && b.lo < b.hi <= TOP
    && var nb := Taken(cs, k, 1);
       && newp == Addr(base, nb.lo + 1)
       && (CopyFits(nb, b) ==> exists ws1: seq<Word> ::
             && Represents(ws1, base, Take(cs, k, 1)) && KeepsPayloads(ws, ws1, Live(cs))
             && Copied(ws1, 8 * nb.lo + 8, 8 * b.lo + 8, Payload(b), ws'))
  }

  /** The outcomes of `trealloc` of block `b` to a size other than zero. */
  ghost predicate Reallocated(ws: seq<Word>, base: nat, cs: seq<Chunk>, k: nat, newbytes: nat, b: Block,
                              ws': seq<Word>, cs': seq<Chunk>, newp: nat)
  {
    if k >= |cs| then newp == 0 && cs' == cs && KeepsPayloads(ws, ws', Live(cs))
    else if RoundedSize(newbytes) == 0 then Lost(ws', base)
    else if Roomy(b, newbytes) then
      Replaced(ws, base, cs, k, RoundedSize(newbytes) / 8, b, Kept(b, newbytes), ws', cs', newp)
    else Overran(ws, base, cs, k, b, ws', newp)
  }

  /** The arena between the allocation and the copy. */
  lemma BeforeOverrun(ws: seq<Word>, base: nat, cs: seq<Chunk>, k: nat, b: Block, ws': seq<Word>, newp: nat) returns (ws1: seq<Word>)
    requires |ws| == WORDS && Overran(ws, base, cs, k, b, ws', newp) && CopyFits(Taken(cs, k, 1), b)
    ensures |ws1| == WORDS && KeepsPayloads(ws, ws1, Live(cs)) && 8 * b.lo + 8 + Payload(b) == 8 * b.hi
    ensures 8 * Taken(cs, k, 1).hi + Payload(b) <= 4 * WORDS
    ensures Copied(ws1, 8 * Taken(cs, k, 1).hi, 8 * b.lo + 8, Payload(b), ws')
  {
    hide Copied, KeepsPayloads, Take, Header, WellFormed, Fits;
    var nb := Taken(cs, k, 1);
    ws1 :| Represents(ws1, base, Take(cs, k, 1)) && KeepsPayloads(ws, ws1, Live(cs))
      && Copied(ws1, 8 * nb.lo + 8, 8 * b.lo + 8, Payload(b), ws');
  }

  /** Where the copied bytes come from and go to. */
  lemma OverrunByte(ws: seq<Word>, ws1: seq<Word>, live: set<Block>, b: Block, dst: nat, ws': seq<Word>, i: nat)
    requires |ws| == |ws1| == WORDS && KeepsPayloads(ws, ws1, live) && b in live && i < Payload(b) && b.hi <= TOP
    requires dst + Payload(b) <= 4 * WORDS && Copied(ws1, dst, 8 * b.lo + 8, Payload(b), ws')
    ensures |ws'| == WORDS && ByteAt(ws', dst + i) == BlockByte(ws, b, i)
  {
    BytesKept(ws, ws1, live, b, i);
    hide ByteAt, KeepsPayloads;
    assert ByteAt(ws', dst + i) == ByteAt(ws1, 8 * b.lo + 8 + i);
  }

  lemma WordOfBytes(v: Word, w: Word)
    requires forall t :: 0 <= t < 4 ==> v.Get(t) == w.Get(t)
    ensures v == w
  {
    assert v.Get(0) == w.Get(0) && v.Get(1) == w.Get(1) && v.Get(2) == w.Get(2) && v.Get(3) == w.Get(3);
  }

  /** The first word of the next header is the first word of the old block. */
  lemma OverrunHeader(ws: seq<Word>, ws1: seq<Word>, live: set<Block>, b: Block, r: nat, ws': seq<Word>)
    requires |ws| == |ws1| == WORDS && KeepsPayloads(ws, ws1, live) && b in live && Payload(b) >= 8 && b.hi <= TOP
    requires 8 * r + Payload(b) <= 4 * WORDS && Copied(ws1, 8 * r, 8 * b.lo + 8, Payload(b), ws')
    ensures |ws'| == WORDS && ws'[2 * r] == ws[2 * b.lo + 2]
  {
    OverrunByte(ws, ws1, live, b, 8 * r, ws', 0);
    hide KeepsPayloads, Copied;
    forall t | 0 <= t < 4 ensures ws'[2 * r].Get(t) == ws[2 * b.lo + 2].Get(t) {
      assert KeepsPayloads(ws, ws1, live) && Copied(ws1, 8 * r, 8 * b.lo + 8, Payload(b), ws');
      OverrunByte(ws, ws1, live, b, 8 * r, ws', t);
      assert (8 * r + t) / 4 == 2 * r && (8 * r + t) % 4 == t;
      assert (8 * b.lo + 8 + t) / 4 == 2 * b.lo + 2 && (8 * b.lo + 8 + t) % 4 == t;
    }
    hide Word.Get;
    WordOfBytes(ws'[2 * r], ws[2 * b.lo + 2]);
  }

  /** `trealloc` to a size that wraps to a bare header puts the bytes of the old block into the
      header of the next chunk. So the list survives only if the program had stored there the very
      link that belongs in that header. */
  lemma OverrunHitsHeader(ws: seq<Word>, base: nat, cs: seq<Chunk>, k: nat, b: Block, ws': seq<Word>, newp: nat)
    requires Represents(ws, base, cs) && b in Live(cs) && Payload(b) > 0
    requires Overran(ws, base, cs, k, b, ws', newp) && CopyFits(Taken(cs, k, 1), b)
    ensures |ws'| == WORDS && ws'[2 * cs[k + 1].start] == ws[2 * b.lo + 2]
    ensures Represents(ws', base, Take(cs, k, 1)) ==> ws[2 * b.lo + 2].Value() == Addr(base, Taken(cs, k, 1).lo)
  {
    hide Represents, Live, Copied, KeepsPayloads, ByteAt, Word.Value, Take;
    AlignedBase(ws, base, cs);
    var ws1 := BeforeOverrun(ws, base, cs, k, b, ws', newp);
    OverrunHeader(ws, ws1, Live(cs), b, cs[k + 1].start, ws');
    if Represents(ws', base, Take(cs, k, 1)) { NextHeader(ws', base, cs, k); }
  }

  /** And what follows it: the payload of a live block that comes next survives exactly as far as
      it held the same bytes. */
  lemma OverrunHitsPayload(ws: seq<Word>, base: nat, cs: seq<Chunk>, k: nat, b: Block, ws': seq<Word>, newp: nat, x: Block, i: nat)
    requires Represents(ws, base, cs) && b in Live(cs) && x in Live(cs)
    requires Overran(ws, base, cs, k, b, ws', newp) && CopyFits(Taken(cs, k, 1), b)
    requires x.lo == cs[k + 1].start && i < Payload(x) && 8 + i < Payload(b)
    ensures |ws'| == WORDS && 8 * x.lo + 8 + i < 4 * WORDS && BlockByte(ws', x, i) == BlockByte(ws, b, 8 + i)
  {
    hide Represents, Live, Copied, KeepsPayloads, ByteAt, Take;
    AlignedBase(ws, base, cs);
    var ws1 := BeforeOverrun(ws, base, cs, k, b, ws', newp);
    OverrunByte(ws, ws1, Live(cs), b, 8 * cs[k + 1].start, ws', 8 + i);
  }

  /** The left link behind a block that is only a header. */
  lemma NextHeader(ws: seq<Word>, base: nat, cs: seq<Chunk>, k: nat)
    requires k < |cs| && Fits(cs, k, 1) && 1 <= cs[k + 1].start && Represents(ws, base, Take(cs, k, 1))
    ensures cs[k + 1].start <= TOP && ws[2 * cs[k + 1].start].Value() == Addr(base, Taken(cs, k, 1).lo)
  {
    var ts := Take(cs, k, 1);
    hide Represents, Word.Value;
    if Size(cs, k) == 1 {
      LeftOf(ws, base, ts, k + 1);
    } else {
      TakeIndices(cs, k, 1);
      LeftOf(ws, base, ts, k + 2);
    }
  }

  /** Byte `i` behind pointer `p`. */
  function PointerByte(ws: seq<Word>, base: nat, p: nat, i: nat): Byte
    requires base <= p && p - base + i < 4 * |ws|
  {
    ByteAt(ws, p - base + i)
  }

  /** The first `n` bytes behind pointer `q` are those that were behind pointer `p`. */
  ghost predicate KeepsBytes(ws: seq<Word>, base: nat, p: nat, ws': seq<Word>, q: nat, n: nat)
  {
    && base <= p && base <= q && p - base + n <= 4 * |ws| && q - base + n <= 4 * |ws'|
    && (forall i :: 0 <= i < n ==> PointerByte(ws', base, q, i) == PointerByte(ws, base, p, i))
  }

  /** A reallocation that finds room keeps every byte that lies in the old block and in the new
      size. */
  lemma ReallocatedKeepsBytes(ws: seq<Word>, base: nat, cs: seq<Chunk>, k: nat, newbytes: nat, b: Block,
                              ws': seq<Word>, cs': seq<Chunk>, vp: nat, newp: nat)
    requires Reallocated(ws, base, cs, k, newbytes, b, ws', cs', newp) && k < |cs|
    requires 0 < newbytes <= WORD_RANGE - 16 && vp == Addr(base, b.lo + 1)
    ensures forall n: nat :: n <= newbytes && n <= 8 * (b.hi - b.lo - 1) ==> KeepsBytes(ws, base, vp, ws', newp, n)
  {
    Rounding(newbytes);
    hide RoundedSize, Take, Released, KeepsPayloads, Overran, Lost;
    var nb := Taken(cs, k, RoundedSize(newbytes) / 8);
    forall n: nat | n <= newbytes && n <= 8 * (b.hi - b.lo - 1) ensures KeepsBytes(ws, base, vp, ws', newp, n) {
      BytesBehind(ws, base, vp, b, ws', newp, nb, Kept(b, newbytes), n);
    }
  }

  lemma BytesBehind(ws: seq<Word>, base: nat, vp: nat, b: Block, ws': seq<Word>, newp: nat, nb: Block, m: nat, n: nat)
    requires Moved(ws, ws', b, nb, m) && n <= m && vp == Addr(base, b.lo + 1) && newp == Addr(base, nb.lo + 1)
    ensures KeepsBytes(ws, base, vp, ws', newp, n)
  {
    hide ByteAt;
    forall i | 0 <= i < n ensures PointerByte(ws', base, newp, i) == PointerByte(ws, base, vp, i) {
      assert BlockByte(ws', nb, i) == BlockByte(ws, b, i);
    }
  }

  lemma LiveDisjoint(cs: seq<Chunk>, x: Block, y: Block)
    requires WellFormed(cs) && x in Live(cs) && y in Live(cs) && x != y
    ensures x.hi <= y.lo || y.hi <= x.lo
  {
    var i :| Holds(cs, i, x);
    var j :| Holds(cs, j, y);
    if i < j { Ordered(cs, i + 1, j); } else { Ordered(cs, j + 1, i); }
  }

  /** Writing into one live payload disturbs neither the headers nor another payload. */
  lemma PayloadWritten(ws: seq<Word>, base: nat, cs: seq<Chunk>, b: Block, ws': seq<Word>)
    requires Represents(ws, base, cs) && b in Live(cs) && |ws'| == |ws|
    requires forall j :: 0 <= j < |ws| && (j < 2 * b.lo + 2 || 2 * b.hi <= j) ==> ws'[j] == ws[j]
    ensures Represents(ws', base, cs) && KeepsPayloads(ws, ws', Live(cs) - {b})
  {
    hide Word.Value, WellFormed;
    forall i | 0 <= i < |cs| ensures Header(ws', base, cs, i) {
      assert Header(ws, base, cs, i);
      NoStartInside(cs, b, i);
    }
    forall x: Block, j | x in Live(cs) - {b} && 2 * x.lo + 2 <= j < 2 * x.hi && j < |ws| ensures ws'[j] == ws[j] {
      LiveDisjoint(cs, x, b);
    }
  }

  /** The block `tmalloc` has just handed out. */
  lemma NewBlock(ws: seq<Word>, base: nat, cs: seq<Chunk>, k: nat, n: nat, b: Block, ws': seq<Word>)
    requires Represents(ws, base, cs) && b in Live(cs) && k < |cs| && Fits(cs, k, n) && 0 < n <= cs[k + 1].start
    requires Represents(ws', base, Take(cs, k, n))
    ensures var nb := Taken(cs, k, n);
            && nb in Live(Take(cs, k, n)) && b in Live(Take(cs, k, n)) && nb != b && nb.hi <= TOP
            && b.lo < b.hi <= TOP && Live(Take(cs, k, n)) == Live(cs) + {nb} && nb !in Live(cs)
            && WellFormed(Take(cs, k, n))
  {
    TakeAddsBlock(cs, k, n);
    LiveInArena(ws, base, cs, b);
    LiveInArena(ws', base, Take(cs, k, n), Taken(cs, k, n));
  }

  /** From the start of `trealloc` to its end, across the allocation. */
  lemma MovedFrom(ws: seq<Word>, ws1: seq<Word>, ws3: seq<Word>, live: set<Block>, b: Block, nb: Block, n: nat)
    requires |ws| == |ws1| == |ws3| == WORDS && KeepsPayloads(ws, ws1, live) && b in live
    requires b.lo < b.hi <= TOP && n <= Payload(b)
    requires Moved(ws1, ws3, b, nb, n) && KeepsPayloads(ws1, ws3, live - {b})
    ensures Moved(ws, ws3, b, nb, n) && KeepsPayloads(ws, ws3, live - {b})
  {
    hide BlockByte;
    forall i | 0 <= i < n ensures BlockByte(ws3, nb, i) == BlockByte(ws, b, i) {
      BytesKept(ws, ws1, live, b, i);
    }
  }

  /** From the copy to the end of `trealloc`. */
  lemma MoveOn(ws: seq<Word>, ws2: seq<Word>, ws3: seq<Word>, live: set<Block>, b: Block, nb: Block, n: nat)
    requires |ws| == |ws2| == |ws3| == WORDS && KeepsPayloads(ws, ws2, live) && KeepsPayloads(ws2, ws3, live + {nb} - {b})
    requires nb != b && nb.lo < nb.hi <= TOP && n <= 8 * (nb.hi - nb.lo - 1)
    requires Moved(ws, ws2, b, nb, n)
    ensures Moved(ws, ws3, b, nb, n) && KeepsPayloads(ws, ws3, live - {b})
  {
    hide BlockByte;
    forall i | 0 <= i < n ensures BlockByte(ws3, nb, i) == BlockByte(ws, b, i) {
      BytesKept(ws2, ws3, live + {nb} - {b}, nb, i);
    }
    assert forall x :: x in live - {b} ==> x in live && x in live + {nb} - {b};
  }

  lemma NothingCopied(ws: seq<Word>, dst: nat, src: nat)
    requires src <= 4 * |ws|
    ensures Copied(ws, dst, src, 0, ws)
  {
  }

  lemma NothingLive()
    ensures Live(Initial()) == {}
  {
  }

  lemma AlignedBase(ws: seq<Word>, base: nat, cs: seq<Chunk>)
    requires Represents(ws, base, cs)
    ensures GoodBase(base) && |ws| == WORDS
  {
  }

  lemma ValueInRange(w: Word)
    ensures w.Value() < WORD_RANGE
  {
  }

  lemma Grows(ws: seq<Word>, base: nat, cs: seq<Chunk>, k: nat)
    requires Represents(ws, base, cs) && k + 1 < |cs|
    ensures cs[k].start < cs[k + 1].start
  {
    assert Neighbours(cs[k], cs[k + 1]);
  }

  lemma AddrInRange(ws: seq<Word>, base: nat, cs: seq<Chunk>, k: nat)
    requires Represents(ws, base, cs) && k < |cs|
    ensures cs[k].start <= TOP && Addr(base, cs[k].start) + 1 < WORD_RANGE
  {
    assert Header(ws, base, cs, k);
  }

  lemma FirstAddr(ws: seq<Word>, base: nat, cs: seq<Chunk>)
    requires Represents(ws, base, cs)
    ensures |cs| > 0 && Addr(base, cs[0].start) == base != 0
  {
  }

  /** What the right link of a header decodes to. */
  lemma RightOf(ws: seq<Word>, base: nat, cs: seq<Chunk>, k: nat)
    requires Represents(ws, base, cs) && k < |cs|
    ensures cs[k].start <= TOP
    ensures var w := ws[2 * cs[k].start + 1].Value();
            && (w % 2 == 1 <==> cs[k].free)
            && w - w % 2 == (if k + 1 < |cs| then Addr(base, cs[k + 1].start) else 0)
  {
    hide Word.Value;
    assert Header(ws, base, cs, k);
    if k + 1 < |cs| { EvenAddr(base, cs[k + 1].start); }
  }
}
