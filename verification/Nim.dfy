/** The Nim puzzle of the CS61C dungeon: the exclusive-or of the pile sizes decides the
    game, and the solver prints exactly the moves that leave the opponent lost. */
module Nim {
  import opened Helpers

  // ----- Exclusive or on naturals -----

  /** Bitwise exclusive or, one binary digit at a time. */
  function Xor(a: nat, b: nat): nat
    decreases a + b
  {
    if a == 0 && b == 0 then 0
    else 2 * Xor(a / 2, b / 2) + if a % 2 != b % 2 then 1 else 0
  }

  /** Binary digit `k` of `a`. */
  function Bit(a: nat, k: nat): bool
    decreases k
  {
    if k == 0 then a % 2 == 1 else Bit(a / 2, k - 1)
  }

  /** `Xor` is the operator of the machine: every digit is the exclusive or of the digits. */
  lemma {:induction false} XorBits(a: nat, b: nat, k: nat)
    ensures Bit(Xor(a, b), k) == (Bit(a, k) != Bit(b, k))
    decreases k
  {
    var x := Xor(a, b);
    assert x / 2 == Xor(a / 2, b / 2);
    if k > 0 {
      XorBits(a / 2, b / 2, k - 1);
    }
  }

  /** No bits appear above the operands: machine integers of `k` bits never overflow. */
  lemma {:induction false} XorWidth(a: nat, b: nat, k: nat)
    requires a < Pow2(k) && b < Pow2(k)
    ensures Xor(a, b) < Pow2(k)
    decreases k
  {
    if k > 0 {
      XorWidth(a / 2, b / 2, k - 1);
    }
  }

  lemma {:induction false} XorComm(a: nat, b: nat)
    ensures Xor(a, b) == Xor(b, a)
    decreases a + b
  {
    if a + b > 0 { XorComm(a / 2, b / 2); }
  }

  lemma {:induction false} XorAssoc(a: nat, b: nat, c: nat)
    ensures Xor(Xor(a, b), c) == Xor(a, Xor(b, c))
    decreases a + b + c
  {
    if a + b + c > 0 {
      XorAssoc(a / 2, b / 2, c / 2);
      assert Xor(a, b) / 2 == Xor(a / 2, b / 2);
      assert Xor(b, c) / 2 == Xor(b / 2, c / 2);
    }
  }

  lemma {:induction false} XorSelf(a: nat)
    ensures Xor(a, a) == 0
  {
    if a > 0 { XorSelf(a / 2); }
  }

  lemma {:induction false} XorZero(a: nat)
    ensures Xor(a, 0) == a
  {
    if a > 0 { XorZero(a / 2); }
  }

  lemma XorCancel(a: nat, b: nat)
    ensures Xor(Xor(a, b), b) == a
  {
    XorAssoc(a, b, b);
    XorSelf(b);
    XorZero(a);
  }

  // ----- The game -----

  /** The value accumulated by `indicator`. */
  function Nimber(piles: seq<nat>): nat
  {
    if piles == [] then 0
    else Xor(Nimber(piles[..|piles| - 1]), piles[|piles| - 1])
  }

  /** The indicator has no more bits than the piles: on piles that fit a machine integer it
      fits one too, and so does every value of the accumulating loop. */
  lemma {:induction false} NimberWidth(piles: seq<nat>, k: nat)
    requires forall i :: 0 <= i < |piles| ==> piles[i] < Pow2(k)
    ensures Nimber(piles) < Pow2(k)
  {
    if piles != [] {
      var n := |piles| - 1;
      NimberWidth(piles[..n], k);
      XorWidth(Nimber(piles[..n]), piles[n], k);
    }
  }

  function Stones(piles: seq<nat>): nat
  {
    if piles == [] then 0 else Stones(piles[..|piles| - 1]) + piles[|piles| - 1]
  }

  /** Taking `j` stones from pile `i` is allowed. */
  predicate IsMove(piles: seq<nat>, i: nat, j: nat)
  {
    i < |piles| && 1 <= j <= piles[i]
  }

  function After(piles: seq<nat>, i: nat, j: nat): seq<nat>
    requires IsMove(piles, i, j)
  {
    piles[i := piles[i] - j]
  }

  lemma {:induction false} StonesUpdate(piles: seq<nat>, i: nat, v: nat)
    requires i < |piles|
    ensures Stones(piles[i := v]) == Stones(piles) - piles[i] + v
  {
    var n := |piles| - 1;
    if i == n {
      assert piles[i := v][..n] == piles[..n];
    } else {
      assert piles[i := v][..n] == piles[..n][i := v];
      StonesUpdate(piles[..n], i, v);
    }
  }

  /** The player to move can force taking the last stone: some move leaves a position from
      which the opponent cannot. */
  ghost predicate CanForceWin(piles: seq<nat>)
    decreases Stones(piles)
  {
    exists i: nat, j: nat ::
      IsMove(piles, i, j) &&
      (StonesUpdate(piles, i, piles[i] - j); !CanForceWin(After(piles, i, j)))
  }

  lemma {:induction false} NimberUpdate(piles: seq<nat>, i: nat, v: nat)
    requires i < |piles|
    ensures Nimber(piles[i := v]) == Xor(Xor(Nimber(piles), piles[i]), v)
  {
    var n := |piles| - 1;
    var rest, last := piles[..n], piles[n];
    if i == n {
      assert piles[i := v][..n] == rest;
      XorCancel(Nimber(rest), last);
    } else {
      assert piles[i := v][..n] == rest[i := v];
      NimberUpdate(rest, i, v);
      var m, p := Nimber(rest), piles[i];
      calc {
        Xor(Xor(Xor(m, p), v), last);
        { XorAssoc(Xor(m, p), v, last); XorComm(v, last); XorAssoc(Xor(m, p), last, v); }
        Xor(Xor(Xor(m, p), last), v);
        { XorAssoc(m, p, last); XorComm(p, last); XorAssoc(m, last, p); }
        Xor(Xor(Xor(m, last), p), v);
      }
    }
  }

  function Halves(piles: seq<nat>): seq<nat>
  {
    seq(|piles|, i requires 0 <= i < |piles| => piles[i] / 2)
  }

  lemma {:induction false} NimberHalves(piles: seq<nat>)
    ensures Nimber(Halves(piles)) == Nimber(piles) / 2
  {
    if piles != [] {
      var n := |piles| - 1;
      assert Halves(piles)[..n] == Halves(piles[..n]);
      NimberHalves(piles[..n]);
    }
  }

  /** An odd nimber has an odd pile. */
  lemma {:induction false} OddPile(piles: seq<nat>) returns (i: nat)
    requires Nimber(piles) % 2 == 1
    ensures i < |piles| && piles[i] % 2 == 1
  {
    var n := |piles| - 1;
    if piles[n] % 2 == 1 {
      i := n;
    } else {
      i := OddPile(piles[..n]);
    }
  }

  /** Some pile loses stones when the nimber is folded into it. */
  lemma {:induction false} ShrinkingPile(piles: seq<nat>) returns (i: nat)
    requires Nimber(piles) != 0
    ensures i < |piles| && Xor(piles[i], Nimber(piles)) < piles[i]
    decreases Nimber(piles)
  {
    var x := Nimber(piles);
    if x == 1 {
      i := OddPile(piles);
      XorZero(piles[i] / 2);
    } else {
      NimberHalves(piles);
      i := ShrinkingPile(Halves(piles));
    }
  }

  /** After a move, the nimber tells how the pile should have shrunk to reach zero. */
  lemma ZeroAfter(piles: seq<nat>, i: nat, j: nat)
    requires IsMove(piles, i, j)
    ensures Nimber(After(piles, i, j)) == 0 <==> piles[i] - j == Xor(piles[i], Nimber(piles))
  {
    hide Xor, Nimber;
    var x, p, v := Nimber(piles), piles[i], piles[i] - j;
    NimberUpdate(piles, i, v);
    XorComm(p, x);
    if Xor(Xor(x, p), v) == 0 {
      XorCancel(Xor(x, p), v);
      XorComm(0, v);
      XorZero(v);
    } else if v == Xor(x, p) {
      XorSelf(v);
    }
  }

  /** From a zero nimber every move spoils it; from a nonzero one some move restores zero. */
  lemma ZeroIsReachable(piles: seq<nat>)
    ensures Nimber(piles) != 0 <==>
            exists i: nat, j: nat :: IsMove(piles, i, j) && Nimber(After(piles, i, j)) == 0
  {
    var x := Nimber(piles);
    if x != 0 {
      var i := ShrinkingPile(piles);
      var j := piles[i] - Xor(piles[i], x);
      ZeroAfter(piles, i, j);
      assert IsMove(piles, i, j) && Nimber(After(piles, i, j)) == 0;
    } else {
      forall i: nat, j: nat | IsMove(piles, i, j)
        ensures Nimber(After(piles, i, j)) != 0
      {
        ZeroAfter(piles, i, j);
        XorZero(piles[i]);
      }
    }
  }

  /** Main theorem: the indicator is nonzero exactly when the player to move can force a win,
      for every number of piles and every size. */
  lemma {:induction false} NimberDecides(piles: seq<nat>)
    ensures CanForceWin(piles) <==> Nimber(piles) != 0
    decreases Stones(piles)
  {
    forall i: nat, j: nat | IsMove(piles, i, j)
      ensures CanForceWin(After(piles, i, j)) <==> Nimber(After(piles, i, j)) != 0
    {
      StonesUpdate(piles, i, piles[i] - j);
      NimberDecides(After(piles, i, j));
    }
    ZeroIsReachable(piles);
  }

  // ----- The program -----

  method Indicator(game: array<nat>) returns (indicator: nat)
    ensures indicator == Nimber(game[..])
  {
    indicator := 0;
    for i := 0 to game.Length
      invariant indicator == Nimber(game[..i])
    {
      assert game[..i + 1][..i] == game[..i];
      indicator := Xor(indicator, game[i]);
    }
    assert game[..game.Length] == game[..];
  }

  /** Moves in the order of the solver's two loops. */
  predicate Before(m: (nat, nat), n: (nat, nat))
  {
    m.0 < n.0 || (m.0 == n.0 && m.1 < n.1)
  }

  ghost predicate Ordered(at: seq<(nat, nat)>)
  {
    forall k, l :: 0 <= k < l < |at| ==> Before(at[k], at[l])
  }

  /** Taking `j` stones from pile `i` leaves the opponent lost. */
  ghost predicate Wins(piles: seq<nat>, i: nat, j: nat)
  {
    IsMove(piles, i, j) && Nimber(After(piles, i, j)) == 0
  }

  /** `at` holds exactly the winning moves before `(i, j)`, once each. */
  ghost predicate ListsWins(piles: seq<nat>, at: seq<(nat, nat)>, i: nat, j: nat)
  {
    && Ordered(at)
    && (forall k :: 0 <= k < |at| ==> Wins(piles, at[k].0, at[k].1) && Before(at[k], (i, j)))
    && (forall m: nat, n: nat :: Wins(piles, m, n) && Before((m, n), (i, j)) ==> (m, n) in at)
  }

  /** What is printed for the moves `at`: the stones to take and the size of the pile. */
  ghost predicate Prints(piles: seq<nat>, at: seq<(nat, nat)>, printed: seq<(nat, nat)>)
  {
    && |printed| == |at|
    && (forall k :: 0 <= k < |at| ==> at[k].0 < |piles| && printed[k] == (at[k].1, piles[at[k].0]))
  }

  /** One move further the list holds that move too, if it wins. */
  lemma ListMove(piles: seq<nat>, at: seq<(nat, nat)>, i: nat, j: nat)
    requires ListsWins(piles, at, i, j)
    ensures ListsWins(piles, if Wins(piles, i, j) then at + [(i, j)] else at, i, j + 1)
  {
    var at' := if Wins(piles, i, j) then at + [(i, j)] else at;
    hide Wins;
    forall m: nat, n: nat | Wins(piles, m, n) && Before((m, n), (i, j + 1))
      ensures (m, n) in at'
    {
      assert Before((m, n), (i, j)) ==> (m, n) in at;
      if (m, n) == (i, j) {
        assert at'[|at|] == (i, j);
      }
    }
  }

  /** Behind the last move in a pile comes the first one in the next. */
  lemma ListRow(piles: seq<nat>, at: seq<(nat, nat)>, i: nat)
    requires i < |piles| && ListsWins(piles, at, i, piles[i] + 1)
    ensures ListsWins(piles, at, i + 1, 0)
  {
    forall m: nat, n: nat | Wins(piles, m, n) && Before((m, n), (i + 1, 0))
      ensures (m, n) in at
    {
      assert Before((m, n), (i, piles[i] + 1));
    }
    hide Wins;
  }

  lemma ListNone(piles: seq<nat>)
    ensures ListsWins(piles, [], 0, 0) && Prints(piles, [], [])
  {
  }

  lemma PrintsAll(piles: seq<nat>, at: seq<(nat, nat)>, printed: seq<(nat, nat)>)
    requires Prints(piles, at, printed)
    ensures printed != [] <==> at != []
  {
  }

  lemma PrintsMore(piles: seq<nat>, at: seq<(nat, nat)>, printed: seq<(nat, nat)>, i: nat, j: nat)
    requires Prints(piles, at, printed) && i < |piles|
    ensures Prints(piles, at + [(i, j)], printed + [(j, piles[i])])
  {
  }

  /** The move of taking nothing is none. */
  lemma ListStart(piles: seq<nat>, at: seq<(nat, nat)>, i: nat)
    requires ListsWins(piles, at, i, 0)
    ensures ListsWins(piles, at, i, 1)
  {
    ListMove(piles, at, i, 0);
  }

  /** Past the last pile the list holds every move that leaves the opponent lost. */
  lemma ListComplete(piles: seq<nat>, at: seq<(nat, nat)>)
    requires Nimber(piles) != 0 ==> ListsWins(piles, at, |piles|, 0)
    requires Nimber(piles) == 0 ==> at == []
    ensures forall i: nat, j: nat :: (i, j) in at <==> IsMove(piles, i, j) && !CanForceWin(After(piles, i, j))
    ensures CanForceWin(piles) <==> at != []
    ensures Ordered(at)
  {
    NimberDecides(piles);
    ZeroIsReachable(piles);
    forall i: nat, j: nat
      ensures (i, j) in at <==> IsMove(piles, i, j) && !CanForceWin(After(piles, i, j))
    {
      if IsMove(piles, i, j) {
        NimberDecides(After(piles, i, j));
        assert Wins(piles, i, j) ==> Before((i, j), (|piles|, 0));
      }
    }
  }

  /** The solver: tells whether the player to move wins, prints every winning move once (as
      the stones to take and the size of the pile) and leaves the board as it was. */
  method FlatSolver(game: array<nat>) returns (win: bool, printed: seq<(nat, nat)>, ghost at: seq<(nat, nat)>)
    modifies game
    ensures game[..] == old(game[..])
    ensures win <==> CanForceWin(game[..])
    ensures win <==> printed != []
    ensures Prints(game[..], at, printed)
    ensures Ordered(at)
    ensures forall i: nat, j: nat :: (i, j) in at <==> IsMove(game[..], i, j) && !CanForceWin(After(game[..], i, j))
  {
    hide ListsWins, Prints, Nimber, CanForceWin;
    ghost var piles := game[..];
    var ind := Indicator(game);
    win := ind != 0;
    printed, at := [], [];
    ListNone(piles);
    if win {
      for i := 0 to game.Length
        invariant game[..] == piles
        invariant ListsWins(piles, at, i, 0) && Prints(piles, at, printed)
      {
        ListStart(piles, at, i);
        var size := game[i];
        for j := 1 to size + 1
          invariant game[..] == piles
          invariant ListsWins(piles, at, i, j) && Prints(piles, at, printed)
        {
          var nimber := Try(game, i, j);
          ListMove(piles, at, i, j);
          if nimber == 0 {
            PrintsMore(piles, at, printed, i, j);
            printed, at := printed + [(j, game[i])], at + [(i, j)];
          }
        }
        ListRow(piles, at, i);
      }
    }
    NimberDecides(piles);
    ListComplete(piles, at);
    PrintsAll(piles, at, printed);
  }

  /** Plays a move on the board, evaluates it and takes it back. */
  method Try(game: array<nat>, i: nat, j: nat) returns (nimber: nat)
    requires i < game.Length && 1 <= j <= game[i]
    modifies game
    ensures game[..] == old(game[..])
    ensures nimber == Nimber(After(game[..], i, j))
  {
    ghost var piles := game[..];
    game[i] := game[i] - j;
    assert game[..] == After(piles, i, j);
    nimber := Indicator(game);
    game[i] := game[i] + j;
  }
}
