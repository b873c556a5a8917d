/** The set-associative cache of the memory simulator, as recency lists: one list per set,
    most recently used line first. */
module LruCache {
  import opened Helpers

  // ----- Addresses -----

  function Quotient(x: nat, d: nat): nat
    requires d > 0
  {
    x / d
  }

  /** Unsigned 32-bit shifts. */
  function Shr(x: nat, k: nat): nat { Quotient(x, Pow2(k)) }

  function Shl32(x: nat, k: nat): nat { (x * Pow2(k)) % Pow2(32) }

  /** Blocks of `2^b` bytes, `2^s` sets of `assoc` ways. */
  datatype Geometry = Geometry(b: nat, s: nat, assoc: nat, writeAlloc: bool) {
    /** More than one set: with `s == 0` the shift by 32 of the index has no meaning. */
    predicate Valid() { 1 <= s && b + s <= 32 && 1 <= assoc }

    function NumSets(): nat { Pow2(s) }

    function GetTag(addr: nat): nat { Shr(addr, b + s) }

    function GetIndex(addr: nat): nat
      requires Valid()
    {
      Shr(Shl32(Shr(addr, b), 32 - s), 32 - s)
    }
  }

  lemma {:induction false} Pow2Add(j: nat, k: nat)
    ensures Pow2(j + k) == Pow2(j) * Pow2(k)
  {
    if j > 0 {
      Pow2Add(j - 1, k);
      assert Pow2(j + k) == 2 * (Pow2(j - 1) * Pow2(k)) == Pow2(j) * Pow2(k);
    }
  }

  lemma MulAtLeast(d: int, k: int)
    requires d > 0 && k >= 1
    ensures d * k >= d
  {
  }

  lemma DivUnique(x: int, d: int, q: int, r: int)
    requires d > 0 && 0 <= r < d && x == d * q + r
    ensures x / d == q && x % d == r
  {
    var q' := x / d;
    assert x == d * q' + x % d;
    if q > q' {
      MulAtLeast(d, q - q');
    } else if q < q' {
      MulAtLeast(d, q' - q);
    }
  }

  /** Scaling both sides of a remainder. */
  lemma ScaledModulo(y: nat, k: nat, m: nat)
    requires k > 0 && m > 0
    ensures m * k > 0 && ((y * k) % (m * k)) / k == y % m
  {
    var q, r := y / m, y % m;
    assert m * k > 0;
    assert y * k == (m * k) * q + r * k by {
      assert y == m * q + r;
      assert (m * q + r) * k == (m * q) * k + r * k;
      assert (m * q) * k == (m * k) * q;
    }
    assert 0 <= r * k < m * k by {
      assert (m - r) * k > 0;
    }
    DivUnique(y * k, m * k, q, r * k);
    DivUnique(r * k, k, r, 0);
  }

  /** The two shifts of `getIndex` take the block number modulo the number of sets. */
  lemma IndexIsModulo(g: Geometry, addr: nat)
    requires g.Valid()
    ensures g.GetIndex(addr) == (addr / Pow2(g.b)) % g.NumSets()
    ensures g.GetIndex(addr) < g.NumSets()
  {
    hide Pow2;
    Pow2Add(g.s, 32 - g.s);
    ScaledModulo(addr / Pow2(g.b), Pow2(32 - g.s), Pow2(g.s));
  }

  lemma Distribute(d: int, x: int, y: int)
    ensures d * (x + y) == d * x + d * y
  {
  }

  lemma Regroup(d: int, e: int, q: int)
    ensures d * (e * q) == (d * e) * q
  {
  }

  lemma DivDiv(x: nat, d: nat, e: nat)
    requires d > 0 && e > 0
    ensures d * e > 0 && x / (d * e) == (x / d) / e
  {
    var y, t := x / d, x % d;
    var q, r := y / e, y % e;
    Distribute(d, e * q, r);
    Regroup(d, e, q);
    Distribute(d, r, e - r);
    MulAtLeast(d, e - r);
    MulAtLeast(d, e);
    assert x == (d * e) * q + (d * r + t);
    assert 0 <= d * r;
    DivUnique(x, d * e, q, d * r + t);
  }

  lemma TagIsQuotient(g: Geometry, addr: nat)
    ensures g.GetTag(addr) == (addr / Pow2(g.b)) / g.NumSets()
  {
    hide Pow2;
    Pow2Add(g.b, g.s);
    DivDiv(addr, Pow2(g.b), Pow2(g.s));
  }

  /** The number of the block that an address lies in. */
  function Block(g: Geometry, addr: nat): nat { Quotient(addr, Pow2(g.b)) }

  lemma QuotientAndRemainder(x: nat, y: nat, m: nat)
    requires m > 0
    ensures x / m == y / m && x % m == y % m <==> x == y
  {
    assert x == m * (x / m) + x % m;
    assert y == m * (y / m) + y % m;
  }

  /** Tag and index together name the block: two addresses agree on both exactly when they
      lie in the same block. */
  lemma TagAndIndexNameTheBlock(g: Geometry, x: nat, y: nat)
    requires g.Valid()
    ensures g.GetTag(x) == g.GetTag(y) && g.GetIndex(x) == g.GetIndex(y)
            <==> x / Pow2(g.b) == y / Pow2(g.b)
  {
    TagIsQuotient(g, x);
    TagIsQuotient(g, y);
    IndexIsModulo(g, x);
    IndexIsModulo(g, y);
    QuotientAndRemainder(x / Pow2(g.b), y / Pow2(g.b), Pow2(g.s));
  }

  // ----- One set -----

  datatype Line = Line(tag: nat, dirty: bool)

  /** Position of a tag, or the length of the list when it is absent. */
  function Find(lines: seq<Line>, tag: nat): (i: nat)
    ensures i <= |lines|
    ensures i < |lines| ==> lines[i].tag == tag
    ensures forall j :: 0 <= j < i ==> lines[j].tag != tag
  {
    if lines == [] || lines[0].tag == tag then 0 else 1 + Find(lines[1..], tag)
  }

  function Hits(lines: seq<Line>, tag: nat): bool { Find(lines, tag) < |lines| }

  /** Use of a line: a hit moves it to the front; a miss brings it in when it is a load or the
      cache allocates on writes, at the expense of the last line of a full set. */
  function Use(lines: seq<Line>, assoc: nat, writeAlloc: bool, tag: nat, load: bool): seq<Line>
    requires assoc > 0
  {
    var i := Find(lines, tag);
    if i < |lines| then [Line(tag, lines[i].dirty || !load)] + lines[..i] + lines[i + 1..]
    else if !load && !writeAlloc then lines
    else [Line(tag, !load)] + if |lines| < assoc then lines else lines[..assoc - 1]
  }

  ghost predicate Distinct(lines: seq<Line>)
  {
    forall i, j :: 0 <= i < j < |lines| ==> lines[i].tag != lines[j].tag
  }

  lemma UseKeepsDistinct(lines: seq<Line>, assoc: nat, writeAlloc: bool, tag: nat, load: bool)
    requires assoc > 0 && Distinct(lines) && |lines| <= assoc
    ensures Distinct(Use(lines, assoc, writeAlloc, tag, load))
    ensures |Use(lines, assoc, writeAlloc, tag, load)| <= assoc
  {
    var i := Find(lines, tag);
    var used := Use(lines, assoc, writeAlloc, tag, load);
    if i < |lines| {
      assert forall j :: 0 < j < |used| ==> used[j] == lines[if j <= i then j - 1 else j];
    } else if load || writeAlloc {
      assert forall j :: 0 < j < |used| ==> used[j] == lines[j - 1];
    }
  }

  // ----- The whole cache -----

  datatype Access = Access(addr: nat, load: bool)

  type Contents = seq<seq<Line>>

  ghost predicate WellFormed(g: Geometry, c: Contents)
  {
    && g.Valid()
    && |c| == g.NumSets()
    && (forall i :: 0 <= i < |c| ==> |c[i]| <= g.assoc && Distinct(c[i]))
  }

  function Empty(g: Geometry): Contents { seq(g.NumSets(), i => []) }

  function CheckIn(g: Geometry, c: Contents, addr: nat): bool
    requires g.Valid() && |c| == g.NumSets()
  {
    IndexIsModulo(g, addr);
    Hits(c[g.GetIndex(addr)], g.GetTag(addr))
  }

  function AccessIn(g: Geometry, c: Contents, a: Access): (c': Contents)
    requires g.Valid() && |c| == g.NumSets()
    ensures |c'| == |c|
  {
    IndexIsModulo(g, a.addr);
    var i := g.GetIndex(a.addr);
    c[i := Use(c[i], g.assoc, g.writeAlloc, g.GetTag(a.addr), a.load)]
  }

  /** Every access keeps the sets bounded and their tags distinct. */
  lemma AccessKeepsWellFormed(g: Geometry, c: Contents, a: Access)
    requires WellFormed(g, c)
    ensures WellFormed(g, AccessIn(g, c, a))
  {
    IndexIsModulo(g, a.addr);
    var i := g.GetIndex(a.addr);
    UseKeepsDistinct(c[i], g.assoc, g.writeAlloc, g.GetTag(a.addr), a.load);
  }
}

/** A larger associativity never loses a block that a smaller one keeps. */
module LruInclusion {
  import opened LruCache

  function Tags(lines: seq<Line>): seq<nat>
  {
    seq(|lines|, i requires 0 <= i < |lines| => lines[i].tag)
  }

  ghost predicate NoRepeat(s: seq<nat>)
  {
    forall i, j :: 0 <= i < j < |s| ==> s[i] != s[j]
  }

  function Without(s: seq<nat>, t: nat): (r: seq<nat>)
  {
    if s == [] then [] else if s[0] == t then s[1..] else [s[0]] + Without(s[1..], t)
  }

  /** `a` is what is left of `b` after deleting some elements. */
  predicate Sub(a: seq<nat>, b: seq<nat>)
  {
    if a == [] then true
    else if b == [] then false
    else if a[0] == b[0] then Sub(a[1..], b[1..])
    else Sub(a, b[1..])
  }

  /** `Use` on tags alone. */
  function UseTag(s: seq<nat>, assoc: nat, allocate: bool, t: nat): seq<nat>
    requires assoc > 0
  {
    if t in s then [t] + Without(s, t)
    else if !allocate then s
    else [t] + if |s| < assoc then s else s[..assoc - 1]
  }

  lemma {:induction false} SubMember(a: seq<nat>, b: seq<nat>, t: nat)
    requires Sub(a, b) && t in a
    ensures t in b
    decreases |b|
  {
    if a[0] == b[0] {
      if t != a[0] { SubMember(a[1..], b[1..], t); }
    } else {
      SubMember(a, b[1..], t);
    }
  }

  lemma {:induction false} SubRefl(a: seq<nat>)
    ensures Sub(a, a)
  {
    if a != [] { SubRefl(a[1..]); }
  }

  lemma {:induction false} SubShorter(a: seq<nat>, b: seq<nat>)
    requires Sub(a, b)
    ensures |a| <= |b|
    decreases |b|
  {
    if a != [] {
      if a[0] == b[0] { SubShorter(a[1..], b[1..]); } else { SubShorter(a, b[1..]); }
    }
  }

  lemma {:induction false} WithoutAbsent(s: seq<nat>, t: nat)
    requires t !in s
    ensures Without(s, t) == s
  {
    if s != [] { WithoutAbsent(s[1..], t); }
  }

  /** Dropping the head of the smaller sequence. */
  lemma {:induction false} SubTail(a: seq<nat>, b: seq<nat>)
    requires a != [] && Sub(a, b)
    ensures Sub(a[1..], b)
    decreases |b|, 1
  {
    if a[0] == b[0] {
      SubWiden(a[1..], b);
    } else {
      SubTail(a, b[1..]);
      SubWiden(a[1..], b);
    }
  }

  lemma {:induction false} SubWiden(a: seq<nat>, b: seq<nat>)
    requires b != [] && Sub(a, b[1..])
    ensures Sub(a, b)
    decreases |b|, 0
  {
    if a != [] && a[0] == b[0] {
      SubTail(a, b[1..]);
    }
  }

  lemma {:induction false} SubWithout(a: seq<nat>, b: seq<nat>, t: nat)
    requires Sub(a, b) && NoRepeat(a) && NoRepeat(b)
    ensures Sub(Without(a, t), Without(b, t))
    decreases |b|
  {
    if a != [] {
      var a', b' := a[1..], b[1..];
      if a[0] == b[0] {
        if a[0] != t {
          SubWithout(a', b', t);
          assert ([a[0]] + Without(a', t))[1..] == Without(a', t);
          assert ([b[0]] + Without(b', t))[1..] == Without(b', t);
        }
      } else if b[0] == t {
        assert t !in b';
        if t in a { SubMember(a, b', t); }
        WithoutAbsent(a, t);
      } else {
        SubWithout(a, b', t);
        assert ([b[0]] + Without(b', t))[1..] == Without(b', t);
        SubWiden(Without(a, t), [b[0]] + Without(b', t));
      }
    }
  }

  lemma {:induction false} SubDropBoth(a: seq<nat>, b: seq<nat>)
    requires a != [] && b != [] && Sub(a, b)
    ensures Sub(a[..|a| - 1], b[..|b| - 1])
    decreases |b|
  {
    var b' := b[1..];
    assert b != [b[0]] ==> b[..|b| - 1][1..] == b'[..|b'| - 1];
    if a[0] == b[0] {
      var a' := a[1..];
      if a' != [] {
        SubShorter(a', b');
        SubDropBoth(a', b');
        assert a[..|a| - 1][1..] == a'[..|a'| - 1];
      }
    } else {
      SubShorter(a, b');
      SubDropBoth(a, b');
      SubWiden(a[..|a| - 1], b[..|b| - 1]);
    }
  }

  lemma {:induction false} SubDropLeft(a: seq<nat>, b: seq<nat>)
    requires a != [] && Sub(a, b)
    ensures Sub(a[..|a| - 1], b)
    decreases |b|
  {
    if a[0] == b[0] {
      if |a| > 1 {
        SubDropLeft(a[1..], b[1..]);
        assert a[..|a| - 1][1..] == a[1..][..|a| - 2];
      }
    } else {
      SubDropLeft(a, b[1..]);
      SubWiden(a[..|a| - 1], b);
    }
  }

  /** What relates the same set in a small and in a large cache: the small list is the large
      one with lines missing, and none is missing until the small set has filled up. */
  ghost predicate Included(a: seq<nat>, m: nat, b: seq<nat>, n: nat)
  {
    && 0 < m <= n && |a| <= m && |b| <= n
    && NoRepeat(a) && NoRepeat(b)
    && Sub(a, b)
    && (|a| < m ==> a == b)
  }

  lemma WithoutFacts(s: seq<nat>, t: nat)
    requires NoRepeat(s)
    ensures NoRepeat(Without(s, t)) && t !in Without(s, t)
    ensures |Without(s, t)| == |s| - if t in s then 1 else 0
  {
    if t in s {
      var i :| 0 <= i < |s| && s[i] == t;
      WithoutIsCut(s, i);
      var r := s[..i] + s[i + 1..];
      assert forall j :: 0 <= j < |r| ==> r[j] == s[if j < i then j else j + 1];
    } else {
      WithoutAbsent(s, t);
    }
  }

  lemma UseKeepsIncluded(a: seq<nat>, m: nat, b: seq<nat>, n: nat, allocate: bool, t: nat)
    requires Included(a, m, b, n)
    ensures Included(UseTag(a, m, allocate, t), m, UseTag(b, n, allocate, t), n)
  {
    var a', b' := UseTag(a, m, allocate, t), UseTag(b, n, allocate, t);
    WithoutFacts(a, t);
    WithoutFacts(b, t);
    if t in a {
      SubMember(a, b, t);
      SubWithout(a, b, t);
      assert a'[1..] == Without(a, t) && b'[1..] == Without(b, t);
    } else if t in b {
      SubWithout(a, b, t);
      WithoutAbsent(a, t);
      assert b'[1..] == Without(b, t);
      if allocate {
        SubDropLeft(a, Without(b, t));
        assert a'[1..] == a[..m - 1];
      } else {
        SubWiden(a, b');
      }
    } else if allocate {
      if |a| < m {
        assert a' == b';
        SubRefl(a');
      } else {
        SubShorter(a, b);
        assert a'[1..] == a[..m - 1];
        if |b| < n {
          SubDropLeft(a, b);
          assert b'[1..] == b;
        } else {
          SubDropBoth(a, b);
          assert b'[1..] == b[..n - 1];
        }
      }
    }
  }

  lemma {:induction false} WithoutIsCut(s: seq<nat>, i: nat)
    requires i < |s| && NoRepeat(s)
    ensures Without(s, s[i]) == s[..i] + s[i + 1..]
  {
    if i > 0 {
      WithoutIsCut(s[1..], i - 1);
      assert [s[0]] + (s[1..][..i - 1] + s[1..][i..]) == s[..i] + s[i + 1..];
    }
  }

  lemma HitByTag(lines: seq<Line>, t: nat)
    ensures Hits(lines, t) == (t in Tags(lines))
  {
    var i, s := Find(lines, t), Tags(lines);
    assert forall j :: 0 <= j < |s| ==> s[j] == lines[j].tag;
    assert i < |lines| ==> s[i] == t;
  }

  /** The tags of a set evolve by themselves. */
  lemma UseOnTags(lines: seq<Line>, assoc: nat, writeAlloc: bool, t: nat, load: bool)
    requires assoc > 0 && Distinct(lines) && |lines| <= assoc
    ensures Tags(Use(lines, assoc, writeAlloc, t, load)) == UseTag(Tags(lines), assoc, load || writeAlloc, t)
  {
    var i, s := Find(lines, t), Tags(lines);
    var used := Use(lines, assoc, writeAlloc, t, load);
    HitByTag(lines, t);
    if i < |lines| {
      HitOnTags(lines, t, i, Line(t, lines[i].dirty || !load));
    } else if load || writeAlloc {
      assert Tags(used) == [t] + if |s| < assoc then s else s[..assoc - 1];
    }
  }

  lemma HitOnTags(lines: seq<Line>, t: nat, i: nat, front: Line)
    requires Distinct(lines) && i < |lines| && lines[i].tag == t == front.tag
    ensures Tags([front] + lines[..i] + lines[i + 1..]) == [t] + Without(Tags(lines), t)
  {
    var s := Tags(lines);
    assert s[i] == t;
    WithoutIsCut(s, i);
    var used := [front] + lines[..i] + lines[i + 1..];
    var left := [t] + (s[..i] + s[i + 1..]);
    forall j | 0 <= j < |used|
      ensures Tags(used)[j] == left[j]
    {
      assert used[j] == if j == 0 then front else lines[if j <= i then j - 1 else j];
    }
    assert Tags(used) == left;
  }

  lemma SetKeepsIncluded(c: seq<Line>, m: nat, d: seq<Line>, n: nat, writeAlloc: bool, t: nat, load: bool)
    requires Distinct(c) && Distinct(d) && Included(Tags(c), m, Tags(d), n)
    ensures Included(Tags(Use(c, m, writeAlloc, t, load)), m, Tags(Use(d, n, writeAlloc, t, load)), n)
  {
    UseOnTags(c, m, writeAlloc, t, load);
    UseOnTags(d, n, writeAlloc, t, load);
    UseKeepsIncluded(Tags(c), m, Tags(d), n, load || writeAlloc, t);
  }

  // ----- Runs of two caches side by side -----

  function Run(g: Geometry, trace: seq<Access>): (c: Contents)
    requires g.Valid()
    ensures |c| == g.NumSets()
  {
    if trace == [] then Empty(g)
    else AccessIn(g, Run(g, trace[..|trace| - 1]), trace[|trace| - 1])
  }

  function HitCount(g: Geometry, trace: seq<Access>): nat
    requires g.Valid()
  {
    if trace == [] then 0
    else
      var before := trace[..|trace| - 1];
      HitCount(g, before) + if CheckIn(g, Run(g, before), trace[|trace| - 1].addr) then 1 else 0
  }

  /** The same cache with another associativity. */
  ghost predicate Widens(small: Geometry, large: Geometry)
  {
    && small.Valid() && large.Valid()
    && small.assoc <= large.assoc
    && large == small.(assoc := large.assoc)
  }

  ghost predicate AllIncluded(small: Geometry, c: Contents, large: Geometry, d: Contents)
  {
    && WellFormed(small, c) && WellFormed(large, d) && |c| == |d|
    && (forall i :: 0 <= i < |c| ==> Included(Tags(c[i]), small.assoc, Tags(d[i]), large.assoc))
  }

  lemma AccessKeepsIncluded(small: Geometry, c: Contents, large: Geometry, d: Contents, a: Access)
    requires Widens(small, large) && AllIncluded(small, c, large, d)
    ensures AllIncluded(small, AccessIn(small, c, a), large, AccessIn(large, d, a))
  {
    AccessKeepsWellFormed(small, c, a);
    AccessKeepsWellFormed(large, d, a);
    IndexIsModulo(small, a.addr);
    var i := small.GetIndex(a.addr);
    SetKeepsIncluded(c[i], small.assoc, d[i], large.assoc, small.writeAlloc, small.GetTag(a.addr), a.load);
  }

  lemma {:induction false} RunIncluded(small: Geometry, large: Geometry, trace: seq<Access>)
    requires Widens(small, large)
    ensures AllIncluded(small, Run(small, trace), large, Run(large, trace))
  {
    if trace != [] {
      var before := trace[..|trace| - 1];
      RunIncluded(small, large, before);
      AccessKeepsIncluded(small, Run(small, before), large, Run(large, before), trace[|trace| - 1]);
    }
  }

  /** Inclusion: whatever the trace and the write policy, a block held with associativity `a`
      is held with any larger associativity. */
  lemma Inclusion(small: Geometry, large: Geometry, trace: seq<Access>, addr: nat)
    requires Widens(small, large)
    ensures CheckIn(small, Run(small, trace), addr) ==> CheckIn(large, Run(large, trace), addr)
  {
    IndexIsModulo(small, addr);
    var i, t := small.GetIndex(addr), small.GetTag(addr);
    RunIncluded(small, large, trace);
    HitByTag(Run(small, trace)[i], t);
    HitByTag(Run(large, trace)[i], t);
    if CheckIn(small, Run(small, trace), addr) {
      SubMember(Tags(Run(small, trace)[i]), Tags(Run(large, trace)[i]), t);
    }
  }

  /** So a larger associativity never hits less often. */
  lemma {:induction false} LargerNeverHitsLess(small: Geometry, large: Geometry, trace: seq<Access>)
    requires Widens(small, large)
    ensures HitCount(small, trace) <= HitCount(large, trace)
  {
    if trace != [] {
      var before := trace[..|trace| - 1];
      LargerNeverHitsLess(small, large, before);
      Inclusion(small, large, before, trace[|trace| - 1].addr);
    }
  }
}
