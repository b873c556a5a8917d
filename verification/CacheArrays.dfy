/** The cache as the program stores it: for each set a row of ways with tag, valid bit, dirty
    bit and age counter, shown to maintain the recency lists of `LruCache`. */
module CacheArrays {
  import opened LruCache

  datatype Way = Way(tag: nat, valid: bool, dirty: bool, lru: nat)

  // ----- One row -----

  /** The ages of the valid ways are exactly 0, 1, .., and `ord` lists the ways by age. */
  ghost predicate Ranked(row: seq<Way>, ord: seq<nat>)
  {
    && (forall a :: 0 <= a < |ord| ==> ord[a] < |row| && row[ord[a]].valid && row[ord[a]].lru == a)
    && (forall w {:trigger row[w].valid} :: 0 <= w < |row| && row[w].valid ==> row[w].lru < |ord| && ord[row[w].lru] == w)
  }

  /** The recency list held by a row. */
  ghost function LinesOf(row: seq<Way>, ord: seq<nat>): (lines: seq<Line>)
    requires Ranked(row, ord)
    ensures |lines| == |ord|
    ensures forall a :: 0 <= a < |ord| ==> lines[a] == Line(row[ord[a]].tag, row[ord[a]].dirty)
  {
    seq(|ord|, a requires 0 <= a < |ord| => Line(row[ord[a]].tag, row[ord[a]].dirty))
  }

  ghost predicate RowOk(row: seq<Way>, ord: seq<nat>)
  {
    && Ranked(row, ord)
    && |ord| <= |row|
    && Distinct(LinesOf(row, ord))
    && (forall w :: 0 <= w < |row| && !row[w].valid ==> !row[w].dirty && row[w].lru == 0)
  }

  /** Distinct numbers below `n` are at most `n`. */
  lemma {:induction false} Pigeonhole(ws: seq<nat>, n: nat)
    requires forall i, j :: 0 <= i < j < |ws| ==> ws[i] != ws[j]
    requires forall i :: 0 <= i < |ws| ==> ws[i] < n
    ensures |ws| <= n
  {
    if ws != [] {
      assert ws[0] < n;
      if i :| 0 <= i < |ws| && ws[i] == n - 1 {
        var rest := ws[..i] + ws[i + 1..];
        assert forall j :: 0 <= j < |rest| ==> rest[j] == if j < i then ws[j] else ws[j + 1];
        Pigeonhole(rest, n - 1);
      } else {
        Pigeonhole(ws, n - 1);
      }
    }
  }

  /** A row with an open way has room for one more line. */
  lemma RoomLeft(row: seq<Way>, ord: seq<nat>, w: nat)
    requires Ranked(row, ord) && w < |row| && !row[w].valid
    ensures |ord| < |row| && w !in ord
  {
    Pigeonhole(ord + [w], |row|);
  }

  /** A row without one is full. */
  lemma NoRoomLeft(row: seq<Way>, ord: seq<nat>)
    requires Ranked(row, ord) && |ord| <= |row|
    requires forall w :: 0 <= w < |row| ==> row[w].valid
    ensures |ord| == |row|
    ensures forall w :: 0 <= w < |row| ==> row[w].lru < |row|
  {
    assert forall w :: 0 <= w < |row| ==> row[w].valid && row[w].lru < |ord|;
    Pigeonhole(seq(|row|, w requires 0 <= w < |row| => row[w].lru), |ord|);
  }

  ghost function Front(ord: seq<nat>, age: nat): (ord': seq<nat>)
    requires age < |ord|
    ensures |ord'| == |ord| && ord'[0] == ord[age]
    ensures forall a :: 0 < a <= age ==> ord'[a] == ord[a - 1]
    ensures forall a :: age < a < |ord| ==> ord'[a] == ord[a]
  {
    [ord[age]] + ord[..age] + ord[age + 1..]
  }

  /** A hit on way `w`: younger ways age by one, `w` becomes the youngest. */
  ghost predicate IsPromoted(row: seq<Way>, w: nat, load: bool, row': seq<Way>)
    requires w < |row|
  {
    && |row'| == |row|
    && row'[w] == row[w].(lru := 0, dirty := row[w].dirty || !load)
    && (forall v {:trigger row'[v]} :: 0 <= v < |row| && v != w ==>
          row'[v] == if row[v].valid && row[v].lru < row[w].lru then row[v].(lru := row[v].lru + 1) else row[v])
  }

  lemma PromotedRank(row: seq<Way>, ord: seq<nat>, w: nat, load: bool, row': seq<Way>)
    requires Ranked(row, ord) && w < |row| && row[w].valid && IsPromoted(row, w, load, row')
    ensures row[w].lru < |ord| && Ranked(row', Front(ord, row[w].lru))
  {
    var age := row[w].lru;
    var ord' := Front(ord, age);
    forall a | 0 <= a < |ord'|
      ensures ord'[a] < |row'| && row'[ord'[a]].valid && row'[ord'[a]].lru == a
    {
      assert ord[if a == 0 then age else if a <= age then a - 1 else a] == ord'[a];
    }
    forall v | 0 <= v < |row'| && row'[v].valid
      ensures row'[v].lru < |ord'| && ord'[row'[v].lru] == v
    {
      assert row[v].valid;
    }
  }

  /** The recency list after a hit. */
  /** The recency list after a hit. */
  /** A use that hits at place `i`. */
  lemma UseHit(lines: seq<Line>, assoc: nat, writeAlloc: bool, tag: nat, load: bool, i: nat)
    requires assoc > 0 && i < |lines| && lines[i].tag == tag && Distinct(lines)
    ensures Use(lines, assoc, writeAlloc, tag, load) == [Line(tag, lines[i].dirty || !load)] + lines[..i] + lines[i + 1..]
  {
    assert Find(lines, tag) == i by {
      var f := Find(lines, tag);
      assert f < |lines| && lines[f].tag == lines[i].tag;
    }
  }

  /** The recency list after a hit. */
  lemma PromotedLines(row: seq<Way>, ord: seq<nat>, w: nat, load: bool, row': seq<Way>)
    requires Ranked(row, ord) && w < |row| && row[w].valid && IsPromoted(row, w, load, row')
    requires row[w].lru < |ord| && Ranked(row', Front(ord, row[w].lru))
    ensures var age, lines := row[w].lru, LinesOf(row, ord);
      LinesOf(row', Front(ord, age)) == [Line(row[w].tag, row[w].dirty || !load)] + lines[..age] + lines[age + 1..]
  {
    var age, lines := row[w].lru, LinesOf(row, ord);
    var lines' := LinesOf(row', Front(ord, age));
    var want := [Line(row[w].tag, row[w].dirty || !load)] + lines[..age] + lines[age + 1..];
    hide LinesOf, Ranked, IsPromoted;
    forall a | 0 <= a < |ord| ensures lines'[a] == want[a] {
      PromotedAt(row, ord, w, load, row', a);
    }
    assert |lines'| == |want|;
  }

  lemma PromotedAt(row: seq<Way>, ord: seq<nat>, w: nat, load: bool, row': seq<Way>, a: nat)
    requires Ranked(row, ord) && w < |row| && row[w].valid && IsPromoted(row, w, load, row')
    requires row[w].lru < |ord| && Ranked(row', Front(ord, row[w].lru)) && a < |ord|
    ensures var age := row[w].lru;
      LinesOf(row', Front(ord, age))[a] ==
      if a == 0 then Line(row[w].tag, row[w].dirty || !load) else LinesOf(row, ord)[if a <= age then a - 1 else a]
  {
    var v := Front(ord, row[w].lru)[a];
    if a > 0 { assert v == ord[if a <= row[w].lru then a - 1 else a] && v != w; }
    hide LinesOf;
  }

  lemma Promoted(row: seq<Way>, ord: seq<nat>, w: nat, load: bool, writeAlloc: bool, row': seq<Way>)
    requires RowOk(row, ord) && w < |row| && row[w].valid && IsPromoted(row, w, load, row')
    ensures row[w].lru < |ord| && RowOk(row', Front(ord, row[w].lru))
    ensures LinesOf(row', Front(ord, row[w].lru)) == Use(LinesOf(row, ord), |row|, writeAlloc, row[w].tag, load)
  {
    PromotedRank(row, ord, w, load, row');
    PromotedLines(row, ord, w, load, row');
    var lines, age := LinesOf(row, ord), row[w].lru;
    assert lines[age] == Line(row[w].tag, row[w].dirty);
    UseHit(lines, |row|, writeAlloc, row[w].tag, load, age);
    UseKeepsDistinct(lines, |row|, writeAlloc, row[w].tag, load);
    assert |Front(ord, age)| == |ord|;
    hide Use, Distinct, Ranked, LinesOf, Front;
  }

  /** A miss that finds the open way `w`. */
  /** A new line in an open way comes first. */
  lemma FilledRank(row: seq<Way>, ord: seq<nat>, w: nat, tag: nat, load: bool, row': seq<Way>)
    requires Ranked(row, ord) && w < |row| == |row'| && !row[w].valid && row'[w] == Way(tag, true, !load, 0)
    requires forall v :: 0 <= v < |row| && v != w ==>
               row'[v] == if row[v].valid then row[v].(lru := row[v].lru + 1) else row[v]
    ensures Ranked(row', [w] + ord)
  {
    var ord' := [w] + ord;
    assert forall a :: 0 < a < |ord'| ==> ord'[a] == ord[a - 1];
    assert forall v :: 0 <= v < |row| && row[v].valid ==> row[v].lru < |ord|;
  }

  lemma FilledLines(row: seq<Way>, ord: seq<nat>, w: nat, tag: nat, load: bool, row': seq<Way>)
    requires Ranked(row, ord) && w < |row| == |row'| && !row[w].valid && row'[w] == Way(tag, true, !load, 0)
    requires forall v :: 0 <= v < |row| && v != w ==>
               row'[v] == if row[v].valid then row[v].(lru := row[v].lru + 1) else row[v]
    requires Ranked(row', [w] + ord)
    ensures LinesOf(row', [w] + ord) == [Line(tag, !load)] + LinesOf(row, ord)
  {
    var ord', lines, lines' := [w] + ord, LinesOf(row, ord), LinesOf(row', [w] + ord);
    hide LinesOf;
    forall a | 0 <= a < |ord'| ensures lines'[a] == if a == 0 then Line(tag, !load) else lines[a - 1] {
      assert a > 0 ==> ord'[a] == ord[a - 1] && row[ord[a - 1]].valid;
    }
    assert lines' == [Line(tag, !load)] + lines;
  }

  lemma Filled(row: seq<Way>, ord: seq<nat>, w: nat, tag: nat, load: bool, writeAlloc: bool, row': seq<Way>)
    requires RowOk(row, ord) && w < |row| == |row'| && !row[w].valid
    requires !Hits(LinesOf(row, ord), tag) && (load || writeAlloc)
    requires row'[w] == Way(tag, true, !load, 0)
    requires forall v :: 0 <= v < |row| && v != w ==>
               row'[v] == if row[v].valid then row[v].(lru := row[v].lru + 1) else row[v]
    ensures |ord| < |row|
    ensures RowOk(row', [w] + ord) && LinesOf(row', [w] + ord) == Use(LinesOf(row, ord), |row|, writeAlloc, tag, load)
  {
    RoomLeft(row, ord, w);
    FilledRank(row, ord, w, tag, load, row');
    FilledLines(row, ord, w, tag, load, row');
    UseKeepsDistinct(LinesOf(row, ord), |row|, writeAlloc, tag, load);
    hide Ranked, Distinct, LinesOf, Find;
  }

  lemma EvictedRank(row: seq<Way>, ord: seq<nat>, tag: nat, load: bool, row': seq<Way>)
    requires Ranked(row, ord) && 0 < |ord| == |row| == |row'|
    requires forall w :: 0 <= w < |row| ==> row[w].valid
    requires forall v :: 0 <= v < |row| ==> row'[v] == Turned(row[v], |row|, tag, load)
    ensures Ranked(row', Front(ord, |ord| - 1))
  {
    var n := |row|;
    var ord' := Front(ord, n - 1);
    forall a | 0 <= a < n
      ensures ord'[a] < n && row'[ord'[a]].valid && row'[ord'[a]].lru == a
    {
      assert ord'[a] == ord[if a == 0 then n - 1 else a - 1];
    }
    forall v | 0 <= v < n && row'[v].valid
      ensures row'[v].lru < n && ord'[row'[v].lru] == v
    {
      assert row[v].valid;
    }
  }

  lemma EvictedAt(row: seq<Way>, ord: seq<nat>, tag: nat, load: bool, row': seq<Way>, a: nat)
    requires Ranked(row, ord) && 0 < |ord| == |row| == |row'| && a < |ord|
    requires forall v :: 0 <= v < |row| ==> row'[v] == Turned(row[v], |row|, tag, load)
    requires Ranked(row', Front(ord, |ord| - 1))
    ensures LinesOf(row', Front(ord, |ord| - 1))[a] == if a == 0 then Line(tag, !load) else LinesOf(row, ord)[a - 1]
  {
    var n := |row|;
    var v := Front(ord, n - 1)[a];
    assert v == ord[if a == 0 then n - 1 else a - 1];
    assert row'[v] == Turned(row[v], n, tag, load);
    hide LinesOf;
  }

  lemma EvictedLines(row: seq<Way>, ord: seq<nat>, tag: nat, load: bool, row': seq<Way>)
    requires Ranked(row, ord) && 0 < |ord| == |row| == |row'|
    requires forall v :: 0 <= v < |row| ==> row'[v] == Turned(row[v], |row|, tag, load)
    requires Ranked(row', Front(ord, |ord| - 1))
    ensures LinesOf(row', Front(ord, |ord| - 1)) == [Line(tag, !load)] + LinesOf(row, ord)[..|ord| - 1]
  {
    var lines, lines' := LinesOf(row, ord), LinesOf(row', Front(ord, |ord| - 1));
    var want := [Line(tag, !load)] + lines[..|ord| - 1];
    hide LinesOf, Ranked, Turned;
    forall a | 0 <= a < |ord| ensures lines'[a] == want[a] {
      EvictedAt(row, ord, tag, load, row', a);
    }
    assert |lines'| == |want|;
  }

  /** A miss in a full row: everybody ages and the oldest way is replaced. */
  lemma Evicted(row: seq<Way>, ord: seq<nat>, tag: nat, load: bool, writeAlloc: bool, row': seq<Way>)
    requires RowOk(row, ord) && 0 < |ord| == |row| == |row'|
    requires forall w :: 0 <= w < |row| ==> row[w].valid
    requires !Hits(LinesOf(row, ord), tag) && (load || writeAlloc)
    requires forall v :: 0 <= v < |row| ==> row'[v] == Turned(row[v], |row|, tag, load)
    ensures RowOk(row', Front(ord, |ord| - 1))
    ensures LinesOf(row', Front(ord, |ord| - 1)) == Use(LinesOf(row, ord), |row|, writeAlloc, tag, load)
  {
    EvictedRank(row, ord, tag, load, row');
    EvictedLines(row, ord, tag, load, row');
    hide Ranked, Distinct, LinesOf;
    UseKeepsDistinct(LinesOf(row, ord), |row|, writeAlloc, tag, load);
    assert forall w :: 0 <= w < |row| ==> row[w].valid && row'[w].valid;
  }

  /** A valid way holds a tag exactly when the recency list does. */
  lemma HitsByWay(row: seq<Way>, ord: seq<nat>, tag: nat)
    requires RowOk(row, ord)
    ensures Hits(LinesOf(row, ord), tag) <==> exists w :: 0 <= w < |row| && row[w].valid && row[w].tag == tag
  {
    var lines := LinesOf(row, ord);
    if w :| 0 <= w < |row| && row[w].valid && row[w].tag == tag {
      assert lines[row[w].lru].tag == tag;
    }
    if Hits(lines, tag) {
      assert row[ord[Find(lines, tag)]].tag == tag;
    }
  }

  ghost predicate RowsOk(rows: seq<seq<Way>>, order: seq<seq<nat>>)
  {
    |rows| == |order| && forall s :: 0 <= s < |order| ==> RowOk(rows[s], order[s])
  }

  ghost function ContentsOf(rows: seq<seq<Way>>, order: seq<seq<nat>>): (c: Contents)
    requires RowsOk(rows, order)
    ensures |c| == |order|
    ensures forall s :: 0 <= s < |order| ==> c[s] == LinesOf(rows[s], order[s])
  {
    if rows == [] then []
    else ContentsOf(rows[..|rows| - 1], order[..|rows| - 1]) + [LinesOf(rows[|rows| - 1], order[|rows| - 1])]
  }

  lemma RowUpdated(rows: seq<seq<Way>>, order: seq<seq<nat>>, s: nat, row: seq<Way>, ord: seq<nat>)
    requires RowsOk(rows, order) && s < |rows| && RowOk(row, ord)
    ensures RowsOk(rows[s := row], order[s := ord])
    ensures ContentsOf(rows[s := row], order[s := ord]) == ContentsOf(rows, order)[s := LinesOf(row, ord)]
  {
  }

  function Older(w: Way, bound: nat): Way
  {
    if w.valid && w.lru < bound then w.(lru := w.lru + 1) else w
  }

  function Turned(w: Way, assoc: nat, tag: nat, load: bool): Way
  {
    if w.lru == assoc - 1 then Way(tag, true, !load, 0) else w.(lru := w.lru + 1)
  }

  // ----- The object -----

  class Cache {
    const g: Geometry
    const rows: array<seq<Way>>
    /** The ways of each set from the most to the least recently used. */
    ghost var order: seq<seq<nat>>

    ghost predicate Valid()
      reads this, rows
    {
      && g.Valid()
      && rows.Length == g.NumSets()
      && RowsOk(rows[..], order)
      && (forall s :: 0 <= s < rows.Length ==> |rows[s]| == g.assoc)
    }

    ghost function Contents(): (c: Contents)
      requires Valid()
      reads this, rows
      ensures |c| == |order|
      ensures forall s :: 0 <= s < |order| ==> c[s] == LinesOf(rows[s], order[s])
    {
      ContentsOf(rows[..], order)
    }

    constructor (geometry: Geometry)
      requires geometry.Valid()
      ensures Valid() && g == geometry && Contents() == Empty(g)
      ensures fresh(rows)
    {
      g := geometry;
      var row := seq(geometry.assoc, w => Way(0, false, false, 0));
      rows := new seq<Way>[geometry.NumSets()](i => row);
      order := seq(geometry.NumSets(), i => []);
    }

    /** The lowest valid way holding `tag`, or the number of ways. */
    method FindWay(s: nat, tag: nat) returns (w: nat)
      requires Valid() && s < |order|
      ensures w <= g.assoc
      ensures w < g.assoc <==> Hits(LinesOf(rows[s], order[s]), tag)
      ensures w < g.assoc ==> rows[s][w].valid && rows[s][w].tag == tag
    {
      w := 0;
      while w < g.assoc && !(tag == rows[s][w].tag && rows[s][w].valid)
        invariant w <= g.assoc
        invariant forall v :: 0 <= v < w ==> !(rows[s][v].valid && rows[s][v].tag == tag)
      {
        w := w + 1;
      }
      HitsByWay(rows[s], order[s], tag);
    }

    method Check(addr: nat, load: bool) returns (isHit: bool)
      requires Valid()
      ensures isHit == CheckIn(g, Contents(), addr)
    {
      IndexIsModulo(g, addr);
      var w := FindWay(g.GetIndex(addr), g.GetTag(addr));
      isHit := w < g.assoc;
    }

    /** Adds one to the age of every valid way younger than `bound`. */
    method Age(s: nat, bound: nat)
      requires s < rows.Length
      modifies rows
      ensures rows[..] == old(rows[..])[s := rows[s]] && |rows[s]| == |old(rows[s])|
      ensures forall v :: 0 <= v < |rows[s]| ==> rows[s][v] == Older(old(rows[s])[v], bound)
    {
      ghost var row := rows[s];
      for j := 0 to |rows[s]|
        invariant rows[..] == old(rows[..])[s := rows[s]] && |rows[s]| == |row|
        invariant forall v :: 0 <= v < j ==> rows[s][v] == Older(row[v], bound)
        invariant forall v :: j <= v < |row| ==> rows[s][v] == row[v]
      {
        if rows[s][j].lru < bound && rows[s][j].valid {
          rows[s] := rows[s][j := rows[s][j].(lru := rows[s][j].lru + 1)];
        }
      }
    }

    /** A hit on way `w`. */
    method Promote(s: nat, w: nat, load: bool)
      requires Valid() && s < |order| && w < g.assoc && rows[s][w].valid
      modifies this, rows
      ensures Valid()
      ensures Contents() == old(Contents())[s := Use(old(Contents())[s], g.assoc, g.writeAlloc, old(rows[s][w].tag), load)]
    {
      ghost var base, row, ord := rows[..], rows[s], order[s];
      if !load {
        rows[s] := rows[s][w := rows[s][w].(dirty := true)];
      }
      if g.assoc > 1 {
        Age(s, rows[s][w].lru);
        rows[s] := rows[s][w := rows[s][w].(lru := 0)];
      }
      assert IsPromoted(row, w, load, rows[s]);
      Promoted(row, ord, w, load, g.writeAlloc, rows[s]);
      Install(base, s, Front(ord, row[w].lru));
    }

    /** A miss that finds the open way `w`. */
    method Fill(s: nat, w: nat, tag: nat, load: bool)
      requires Valid() && s < |order| && w < g.assoc && !rows[s][w].valid
      requires !Hits(Contents()[s], tag) && (load || g.writeAlloc)
      modifies this, rows
      ensures Valid()
      ensures Contents() == old(Contents())[s := Use(old(Contents())[s], g.assoc, g.writeAlloc, tag, load)]
    {
      ghost var base, row, ord := rows[..], rows[s], order[s];
      RoomLeft(row, ord, w);
      rows[s] := rows[s][w := rows[s][w].(tag := tag, valid := true)];
      if !load {
        rows[s] := rows[s][w := rows[s][w].(dirty := true)];
      }
      if g.assoc > 1 {
        Age(s, g.assoc);
        rows[s] := rows[s][w := rows[s][w].(lru := 0)];
      }
      Filled(row, ord, w, tag, load, g.writeAlloc, rows[s]);
      Install(base, s, [w] + ord);
    }

    /** Everybody ages; the way whose age reaches the associativity is replaced. */
    method AgeAndReplace(s: nat, tag: nat, load: bool)
      requires s < rows.Length && |rows[s]| == g.assoc
      requires forall v :: 0 <= v < |rows[s]| ==> rows[s][v].lru < g.assoc
      modifies rows
      ensures rows[..] == old(rows[..])[s := rows[s]] && |rows[s]| == g.assoc
      ensures forall v :: 0 <= v < g.assoc ==> rows[s][v] == Turned(old(rows[s])[v], g.assoc, tag, load)
    {
      ghost var row := rows[s];
      for i := 0 to g.assoc
        invariant rows[..] == old(rows[..])[s := rows[s]] && |rows[s]| == |row|
        invariant forall v :: 0 <= v < i ==> rows[s][v] == Turned(row[v], g.assoc, tag, load)
        invariant forall v :: i <= v < |row| ==> rows[s][v] == row[v]
      {
        rows[s] := rows[s][i := rows[s][i].(lru := rows[s][i].lru + 1)];
        if rows[s][i].lru == g.assoc {
          rows[s] := rows[s][i := Way(tag, true, !load, 0)];
        }
      }
    }

    /** A miss in a full set. */
    method Evict(s: nat, tag: nat, load: bool)
      requires Valid() && s < |order|
      requires forall w :: 0 <= w < g.assoc ==> rows[s][w].valid
      requires !Hits(Contents()[s], tag) && (load || g.writeAlloc)
      modifies this, rows
      ensures Valid()
      ensures Contents() == old(Contents())[s := Use(old(Contents())[s], g.assoc, g.writeAlloc, tag, load)]
    {
      hide Ranked, Distinct, Use, LinesOf;
      ghost var base, row, ord, n := rows[..], rows[s], order[s], g.assoc;
      NoRoomLeft(row, ord);
      if g.assoc == 1 {
        rows[s] := rows[s][0 := rows[s][0].(tag := tag, valid := true, dirty := !load)];
      } else {
        AgeAndReplace(s, tag, load);
      }
      assert forall v :: 0 <= v < n ==> rows[s][v] == Turned(row[v], n, tag, load);
      Evicted(row, ord, tag, load, g.writeAlloc, rows[s]);
      Install(base, s, Front(ord, n - 1));
    }

    /** Records the new recency order of set `s`. */
    ghost method Install(base: seq<seq<Way>>, s: nat, ord: seq<nat>)
      requires g.Valid() && |base| == rows.Length == g.NumSets() && s < rows.Length
      requires RowsOk(base, order) && rows[..] == base[s := rows[s]] && RowOk(rows[s], ord)
      requires forall r :: 0 <= r < rows.Length ==> |rows[r]| == g.assoc
      modifies this
      ensures Valid() && order == old(order)[s := ord]
      ensures Contents() == ContentsOf(base, old(order))[s := LinesOf(rows[s], ord)]
    {
      RowUpdated(base, order, s, rows[s], ord);
      order := order[s := ord];
    }

    /** The lowest open way, or the number of ways. */
    method FindOpen(s: nat) returns (w: nat)
      requires Valid() && s < |order|
      ensures w <= g.assoc && (w < g.assoc ==> !rows[s][w].valid)
      ensures forall v :: 0 <= v < w ==> rows[s][v].valid
    {
      w := 0;
      while w < g.assoc && rows[s][w].valid
        invariant w <= g.assoc && forall v :: 0 <= v < w ==> rows[s][v].valid
      {
        w := w + 1;
      }
    }

    /** The age counters and the ways implement the recency lists. */
    method Access(addr: nat, load: bool) returns (isHit: bool)
      requires Valid()
      modifies this, rows
      ensures Valid()
      ensures isHit == CheckIn(g, old(Contents()), addr)
      ensures Contents() == AccessIn(g, old(Contents()), LruCache.Access(addr, load))
    {
      IndexIsModulo(g, addr);
      var s, tag := g.GetIndex(addr), g.GetTag(addr);
      var w := FindWay(s, tag);
      isHit := w < g.assoc;
      if isHit {
        Promote(s, w, load);
      } else if load || g.writeAlloc {
        w := FindOpen(s);
        if w < g.assoc {
          Fill(s, w, tag, load);
        } else {
          Evict(s, tag, load);
        }
      }
    }
  }
}
