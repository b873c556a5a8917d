/** What the shell promises of lines: exactly which are refused, and that printing and parsing are
    inverse. */
module ShellLines {
  import opened Shell
  import opened ShellGrammar

  // ----- Which lines are accepted -----

  /** The line is made of these stages. */
  ghost predicate MadeOf(line: string, stages: seq<seq<Item>>)
  {
    GoodStages(stages) && Lex(line) == Tokens(stages)
  }

  /** A line of stages means the pipeline of their commands, and is refused exactly when a stage
      has ten words or more. */
  lemma MeaningOfStages(line: string, stages: seq<seq<Item>>)
    requires MadeOf(line, stages)
    ensures ParseLine(line) == if AllShort(stages) then Ok(Build(stages)) else Err(TooManyArgs)
  {
    ParsesStages(stages);
  }

  /** The tokens of stages have a word after every redirection. */
  lemma {:induction false} StagesMissNothing(stages: seq<seq<Item>>)
    requires GoodStages(stages)
    ensures !HasMissing(Tokens(stages))
  {
    forall i: nat ensures !MissingAt(Tokens(stages), i) { NotMissingAt(stages, i); }
  }

  lemma {:induction false} NotMissingAt(stages: seq<seq<Item>>, i: nat)
    requires GoodStages(stages)
    ensures !MissingAt(Tokens(stages), i)
  {
    var a := ItemTokens(stages[0]);
    if |stages| == 1 {
      NotMissingInItems(stages[0], [], i);
      assert a + [] == a;
    } else {
      var more := Tokens(stages[1..]);
      var rest := [Sym('|')] + more;
      assert Tokens(stages) == a + rest && GoodStages(stages[1..]);
      if i < |a| {
        NotMissingInItems(stages[0], rest, i);
      } else if i > |a| {
        NotMissingAt(stages[1..], i - |a| - 1);
        hide ItemTokens, Tokens, GoodStages;
        assert a + rest == (a + [Sym('|')]) + more;
        MissingShift(a + [Sym('|')], more, i);
      } else {
        assert (a + rest)[i] == Sym('|');
      }
    }
  }

  lemma {:induction false} NotMissingInItems(items: seq<Item>, rest: seq<Token>, i: nat)
    requires GoodItems(items) && (i < |ItemTokens(items)| || rest == [])
    ensures !MissingAt(ItemTokens(items) + rest, i)
  {
    if items != [] {
      var h, tail := Head(items[0]), ItemTokens(items[1..]) + rest;
      assert ItemTokens(items) + rest == h + tail && GoodItem(items[0]);
      if i >= |h| {
        MissingShift(h, tail, i);
        NotMissingInItems(items[1..], rest, i - |h|);
      }
    }
  }

  lemma MissingShift(h: seq<Token>, tail: seq<Token>, i: nat)
    requires i >= |h|
    ensures MissingAt(h + tail, i) <==> MissingAt(tail, i - |h|)
  {
    var ts := h + tail;
    assert i < |ts| ==> ts[i] == tail[i - |h|];
    assert i + 1 < |ts| ==> ts[i + 1] == tail[i - |h| + 1];
  }

  /** Some stage has ten words or more. */
  ghost predicate TooLong(line: string)
  {
    exists stages :: MadeOf(line, stages) && !AllShort(stages)
  }

  /** The parser refuses exactly the lines with a redirection that no word follows, or else with a
      stage of ten words or more; every other line is made of stages and means their pipeline. */
  lemma RefusesExactly(line: string)
    requires NoNul(line)
    ensures ParseLine(line).Err? <==> HasMissing(Lex(line)) || TooLong(line)
    ensures ParseLine(line).Ok? <==> exists stages :: MadeOf(line, stages) && AllShort(stages)
    ensures forall stages :: MadeOf(line, stages) && AllShort(stages) ==> ParseLine(line) == Ok(Build(stages))
  {
    hide ParseLine, AllShort, GoodItems;
    var _ := LineIsSpaced(line);
    forall stages | MadeOf(line, stages)
      ensures !HasMissing(Lex(line)) && ParseLine(line) == if AllShort(stages) then Ok(Build(stages)) else Err(TooManyArgs) {
      MeaningOfStages(line, stages);
      StagesMissNothing(stages);
    }
    if HasMissing(Lex(line)) {
      MissingIsRefused(line);
    } else {
      var stages := Decompose(Lex(line));
      assert MadeOf(line, stages);
    }
  }

  lemma MissingIsRefused(line: string)
    requires NoNul(line) && HasMissing(Lex(line))
    ensures ParseLine(line).Err?
  {
    var _ := LineIsSpaced(line);
    var i: nat :| MissingAt(Lex(line), i);
    MissingFails(Lex(line), i);
  }

  lemma {:induction false} MissingFails(ts: seq<Token>, i: nat)
    requires MissingAt(ts, i)
    ensures ParsePipe(ts).Err?
    decreases |ts|
  {
    MissingInStage(ts, 0, i);
    hide TakeStage, MissingAt;
    var r := TakeStage(ts, 0);
    if r.Ok? {
      var k := |ts| - |r.value.rest|;
      var more := r.value.rest[1..];
      assert ts == ts[..k + 1] + more;
      MissingShift(ts[..k + 1], more, i);
      MissingFails(more, i - k - 1);
    }
  }

  /** A stage that goes on takes one or two tokens and then the rest of the stage. */
  lemma StageGoesOn(ts: seq<Token>, argc: nat) returns (n: nat, argc': nat)
    requires ts != [] && ts[0] != Sym('|') && TakeStage(ts, argc).Ok?
    ensures n == (if ts[0].Sym? then 2 else 1) <= |ts| && (n == 2 ==> ts[1].Word?)
    ensures TakeStage(ts[n..], argc').Ok? && TakeStage(ts[n..], argc').value.rest == TakeStage(ts, argc).value.rest
  {
    n, argc' := if ts[0].Sym? then 2 else 1, if ts[0].Sym? then argc else argc + 1;
  }

  /** A stage is taken only up to a bar, and never past a redirection without its word. */
  lemma MissingGoesOn(ts: seq<Token>, n: nat, i: nat)
    requires MissingAt(ts, i) && ts[0] != Sym('|') && n == (if ts[0].Sym? then 2 else 1) <= |ts| && (n == 2 ==> ts[1].Word?)
    ensures i >= n && MissingAt(ts[n..], i - n)
  {
    assert ts == ts[..n] + ts[n..];
    MissingShift(ts[..n], ts[n..], i);
  }

  lemma SuffixOfSuffix(ts: seq<Token>, n: nat, rest: seq<Token>)
    requires n <= |ts| && |rest| <= |ts[n..]| && rest == ts[n..][|ts[n..]| - |rest|..]
    ensures rest == ts[|ts| - |rest|..]
  {
  }

  lemma {:induction false} MissingInStage(ts: seq<Token>, argc: nat, i: nat)
    requires MissingAt(ts, i)
    ensures var r := TakeStage(ts, argc);
      r.Ok? ==> |r.value.rest| <= |ts| && r.value.rest == ts[|ts| - |r.value.rest|..] && i > |ts| - |r.value.rest|
    decreases |ts|
  {
    if ts[0] == Sym('|') {
      assert ts[0..] == ts;
    } else if TakeStage(ts, argc).Ok? {
      var n, argc' := StageGoesOn(ts, argc);
      MissingGoesOn(ts, n, i);
      hide TakeStage, MissingAt;
      MissingInStage(ts[n..], argc', i - n);
      SuffixOfSuffix(ts, n, TakeStage(ts, argc).value.rest);
    }
  }

  /** Blanks, and how words and redirections of a stage are mixed, do not matter: lines whose
      stages have the same words and the same redirections in order are parsed alike. */
  lemma OnlyOrdersMatter(line: string, stages: seq<seq<Item>>, line': string, stages': seq<seq<Item>>)
    requires MadeOf(line, stages) && MadeOf(line', stages') && |stages| == |stages'|
    requires forall i :: 0 <= i < |stages| ==> Args(stages[i]) == Args(stages'[i]) && Redirs(stages[i]) == Redirs(stages'[i])
    ensures ParseLine(line) == ParseLine(line')
  {
    MeaningOfStages(line, stages);
    MeaningOfStages(line', stages');
    assert forall i :: 0 <= i < |stages| ==> (Short(stages[i]) <==> Short(stages'[i]));
    SameBuild(stages, stages');
  }

  lemma {:induction false} SameBuild(a: seq<seq<Item>>, b: seq<seq<Item>>)
    requires a != [] && |a| == |b|
    requires forall i :: 0 <= i < |a| ==> Args(a[i]) == Args(b[i]) && Redirs(a[i]) == Redirs(b[i])
    ensures Build(a) == Build(b)
  {
    if |a| > 1 {
      assert forall i :: 0 <= i < |a| - 1 ==> a[1..][i] == a[i + 1] && b[1..][i] == b[i + 1];
      SameBuild(a[1..], b[1..]);
    }
  }

  // ----- Printing -----

  predicate PrintableStage(c: Cmd)
  {
    match c
    case Exec(argv) => |argv| < MAXARGS && forall i :: 0 <= i < |argv| ==> GoodWord(argv[i])
    case Redir(r, sub) => GoodWord(r.file) && (r.kind == '<' || r.kind == '>') && PrintableStage(sub)
    case Pipe(_, _) => false
  }

  /** The commands the parser makes. */
  predicate Printable(c: Cmd)
  {
    if c.Pipe? then PrintableStage(c.left) && Printable(c.right) else PrintableStage(c)
  }

  /** Words first, then redirections from the inside out. */
  function StageItems(c: Cmd): seq<Item>
    requires PrintableStage(c)
  {
    match c
    case Exec(argv) => seq(|argv|, i requires 0 <= i < |argv| => Arg(argv[i]))
    case Redir(r, sub) => StageItems(sub) + [To(r)]
  }

  function StagesOf(c: Cmd): (r: seq<seq<Item>>)
    requires Printable(c)
    ensures r != []
  {
    if c.Pipe? then [StageItems(c.left)] + StagesOf(c.right) else [StageItems(c)]
  }

  /** Tokens with single spaces between. */
  function Join(ts: seq<Token>): string
  {
    if ts == [] then "" else if |ts| == 1 then Text(ts[0]) else Text(ts[0]) + " " + Join(ts[1..])
  }

  function Print(c: Cmd): string
    requires Printable(c)
  {
    Join(Tokens(StagesOf(c)))
  }

  function SingleSpaces(n: nat): (gaps: seq<string>)
    ensures |gaps| == n + 1
  {
    seq(n + 1, i => if i == 0 || i == n then "" else " ")
  }

  lemma {:induction false} JoinIsSpaced(ts: seq<Token>)
    ensures Join(ts) == Spaced(ts, SingleSpaces(|ts|))
  {
    if |ts| == 1 {
      assert ts[1..] == [];
      assert Spaced(ts[1..], SingleSpaces(1)[1..]) == "";
    } else if |ts| > 1 {
      JoinIsSpaced(ts[1..]);
      SpaceInFront(ts[1..], SingleSpaces(|ts| - 1));
      assert SingleSpaces(|ts|)[1..] == [" "] + SingleSpaces(|ts| - 1)[1..];
    }
  }

  lemma SpaceInFront(ts: seq<Token>, gaps: seq<string>)
    requires ts != [] && |gaps| == |ts| + 1 && gaps[0] == ""
    ensures Spaced(ts, [" "] + gaps[1..]) == " " + Spaced(ts, gaps)
  {
    var x, y, gaps' := Text(ts[0]), Spaced(ts[1..], gaps[1..]), [" "] + gaps[1..];
    assert gaps'[1..] == gaps[1..];
    assert Spaced(ts, gaps') == gaps'[0] + x + y && Spaced(ts, gaps) == gaps[0] + x + y;
    hide Spaced, Text;
    Regroup(" ", x, y);
    Regroup("", x, y);
  }

  lemma LexPrinted(ts: seq<Token>)
    requires GoodTokens(ts)
    ensures Lex(Join(ts)) == ts
  {
    JoinIsSpaced(ts);
    LexSpaced(ts, SingleSpaces(|ts|));
  }

  lemma {:induction false} StageOfItems(c: Cmd)
    requires PrintableStage(c)
    ensures Stage(StageItems(c)) == c && GoodItems(StageItems(c)) && Short(StageItems(c))
  {
    var items := StageItems(c);
    match c
    case Exec(argv) => WordsOnly(argv, items);
    case Redir(r, sub) =>
      StageOfItems(sub);
      var inner := StageItems(sub);
      assert items == inner + [To(r)] && items[..|items| - 1] == inner;
      var rs := Redirs(inner);
      assert Redirs(items) == rs + [r] && Args(items) == Args(inner);
      assert (rs + [r])[..|rs|] == rs;
      assert Wrap(rs + [r], Exec(Args(inner))) == Redir(r, Wrap(rs, Exec(Args(inner))));
  }

  lemma {:induction false} WordsOnly(argv: seq<string>, items: seq<Item>)
    requires |items| == |argv| && forall i :: 0 <= i < |argv| ==> items[i] == Arg(argv[i])
    ensures Args(items) == argv && Redirs(items) == []
  {
    if argv != [] {
      var k := |argv| - 1;
      WordsOnly(argv[..k], items[..k]);
    }
  }

  lemma {:induction false} BuildOfStages(c: Cmd)
    requires Printable(c)
    ensures Build(StagesOf(c)) == c && GoodStages(StagesOf(c)) && AllShort(StagesOf(c))
  {
    hide Stage, GoodItems, Short;
    if c.Pipe? {
      StageOfItems(c.left);
      BuildOfStages(c.right);
      assert StagesOf(c)[1..] == StagesOf(c.right);
    } else {
      StageOfItems(c);
    }
  }

  lemma {:induction false} ItemTokensGood(items: seq<Item>)
    requires GoodItems(items)
    ensures GoodTokens(ItemTokens(items))
  {
    if items != [] {
      assert GoodItem(items[0]);
      ItemTokensGood(items[1..]);
    }
  }

  lemma {:induction false} TokensGood(stages: seq<seq<Item>>)
    requires GoodStages(stages)
    ensures GoodTokens(Tokens(stages))
  {
    ItemTokensGood(stages[0]);
    if |stages| > 1 { TokensGood(stages[1..]); }
  }

  /** Parsing a printed command gives the command back. */
  lemma RoundTrip(c: Cmd)
    requires Printable(c)
    ensures ParseLine(Print(c)) == Ok(c)
  {
    hide Build, Tokens, GoodStages, AllShort, ParseLine;
    BuildOfStages(c);
    TokensGood(StagesOf(c));
    LexPrinted(Tokens(StagesOf(c)));
    MeaningOfStages(Print(c), StagesOf(c));
  }

  // ----- Printing what was parsed -----

  lemma {:induction false} ArgsAreGood(items: seq<Item>)
    requires GoodItems(items)
    ensures forall i :: 0 <= i < |Args(items)| ==> GoodWord(Args(items)[i])
    ensures forall i :: 0 <= i < |Redirs(items)| ==> GoodItem(To(Redirs(items)[i]))
  {
    if items != [] {
      var k := |items| - 1;
      ArgsAreGood(items[..k]);
      assert GoodItem(items[k]);
    }
  }

  lemma {:induction false} WrapIsPrintable(rs: seq<Redirection>, c: Cmd)
    requires PrintableStage(c) && forall i :: 0 <= i < |rs| ==> GoodItem(To(rs[i]))
    ensures PrintableStage(Wrap(rs, c))
  {
    if rs != [] {
      var k := |rs| - 1;
      WrapIsPrintable(rs[..k], c);
      assert GoodItem(To(rs[k]));
    }
  }

  lemma {:induction false} BuildIsPrintable(stages: seq<seq<Item>>)
    requires GoodStages(stages) && AllShort(stages)
    ensures Printable(Build(stages))
  {
    ArgsAreGood(stages[0]);
    WrapIsPrintable(Redirs(stages[0]), Exec(Args(stages[0])));
    if |stages| > 1 { BuildIsPrintable(stages[1..]); }
  }

  /** Whatever line a command was parsed from, printing it and parsing again gives the command. */
  lemma ReprintIsStable(line: string, c: Cmd)
    requires NoNul(line) && ParseLine(line) == Ok(c)
    ensures Printable(c) && ParseLine(Print(c)) == Ok(c)
  {
    hide Build, AllShort, GoodStages, Printable;
    RefusesExactly(line);
    var stages :| MadeOf(line, stages) && AllShort(stages);
    BuildIsPrintable(stages);
    RoundTrip(c);
  }
}
