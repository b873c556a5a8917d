/** Which lines the shell accepts, what they mean, and a printer that the parser inverts. */
module ShellGrammar {
  import opened Shell

  // ----- Lines and tokens -----

  predicate GoodWord(w: string) { w != "" && AllPlain(w) }

  predicate GoodToken(t: Token) { match t case Word(w) => GoodWord(w) case Sym(c) => Symbol(c) }

  predicate GoodTokens(ts: seq<Token>) { forall i :: 0 <= i < |ts| ==> GoodToken(ts[i]) }

  function Text(t: Token): string { match t case Word(w) => w case Sym(c) => [c] }

  /** The line of some tokens: blanks, a token, blanks, a token, ..., blanks. */
  function Spaced(ts: seq<Token>, gaps: seq<string>): string
    requires |gaps| == |ts| + 1
  {
    if ts == [] then gaps[0] else gaps[0] + Text(ts[0]) + Spaced(ts[1..], gaps[1..])
  }

  /** Two words in a row are apart. */
  predicate GapsFit(ts: seq<Token>, gaps: seq<string>)
  {
    && |gaps| == |ts| + 1 && (forall i :: 0 <= i < |gaps| ==> AllBlank(gaps[i]))
    && (forall i :: 0 <= i < |ts| - 1 ==> ts[i].Word? && ts[i + 1].Word? ==> gaps[i + 1] != "")
  }

  /** After a word comes a blank, a symbol or the end. */
  lemma SpacedStart(ts: seq<Token>, gaps: seq<string>)
    requires GoodTokens(ts) && GapsFit(ts, gaps)
    ensures var s := Spaced(ts, gaps);
      s != "" ==> if gaps[0] != "" then Blank(s[0]) else ts != [] && s[0] == Text(ts[0])[0]
    ensures gaps[0] == "" && ts != [] ==> Spaced(ts, gaps) != ""
  {
    assert gaps[0] != "" ==> Blank(gaps[0][0]);
    assert ts != [] ==> GoodToken(ts[0]);
  }

  /** The first token of a line. */
  lemma LexOne(gap: string, t: Token, rest: string)
    requires AllBlank(gap) && GoodToken(t)
    requires t.Word? && rest != "" ==> !Plain(rest[0]) && rest[0] != '\0'
    ensures Lex(gap + Text(t) + rest) == [t] + Lex(rest)
  {
    hide Lex;
    var body := Text(t) + rest;
    Regroup(gap, Text(t), rest);
    assert (gap + body)[..|gap|] == gap && (gap + body)[|gap|..] == body;
    LexSkips(gap + body, |gap|);
    LexBody(t, rest);
  }

  lemma LexBody(t: Token, rest: string)
    requires GoodToken(t)
    requires t.Word? && rest != "" ==> !Plain(rest[0]) && rest[0] != '\0'
    ensures Lex(Text(t) + rest) == [t] + Lex(rest)
  {
    hide Lex;
    var body := Text(t) + rest;
    assert body[|Text(t)|..] == rest && body[..|Text(t)|] == Text(t);
    if t.Word? {
      assert forall i :: 0 <= i < |t.text| ==> body[i] == t.text[i] && Plain(t.text[i]);
      LexWord(body, |t.text|);
    } else {
      LexSymbol(body);
    }
  }

  lemma LexNone(gap: string)
    requires AllBlank(gap)
    ensures Lex(gap) == []
  {
    assert gap[..|gap|] == gap && gap[|gap|..] == "";
    LexSkips(gap, |gap|);
    EmptyHasNoToken();
  }

  /** The tokens of a spaced line are the tokens it was made of. */
  lemma {:induction false} LexSpaced(ts: seq<Token>, gaps: seq<string>)
    requires GoodTokens(ts) && GapsFit(ts, gaps)
    ensures Lex(Spaced(ts, gaps)) == ts
  {
    hide Lex;
    if ts == [] {
      LexNone(gaps[0]);
    } else {
      var rest := Spaced(ts[1..], gaps[1..]);
      assert GoodToken(ts[0]);
      TailFits(ts, gaps);
      SpacedStart(ts[1..], gaps[1..]);
      assert |ts| > 1 ==> GoodToken(ts[1]) && ts[1..][0] == ts[1];
      LexOne(gaps[0], ts[0], rest);
      LexSpaced(ts[1..], gaps[1..]);
    }
  }

  lemma TailFits(ts: seq<Token>, gaps: seq<string>)
    requires ts != [] && GoodTokens(ts) && GapsFit(ts, gaps)
    ensures GoodTokens(ts[1..]) && GapsFit(ts[1..], gaps[1..])
  {
    assert forall i :: 0 <= i < |ts| - 1 ==> ts[1..][i] == ts[i + 1];
    assert forall i :: 0 <= i < |gaps| - 1 ==> gaps[1..][i] == gaps[i + 1];
  }

  lemma ConsFits(t: Token, gap: string, ts: seq<Token>, gaps: seq<string>)
    requires GoodToken(t) && GoodTokens(ts) && AllBlank(gap) && GapsFit(ts, gaps)
    requires t.Word? && ts != [] && ts[0].Word? ==> gaps[0] != ""
    ensures GoodTokens([t] + ts) && GapsFit([t] + ts, [gap] + gaps)
    ensures Spaced([t] + ts, [gap] + gaps) == gap + Text(t) + Spaced(ts, gaps)
  {
    assert ([t] + ts)[1..] == ts && ([gap] + gaps)[1..] == gaps;
    assert forall i :: 0 <= i < |ts| ==> ([t] + ts)[i + 1] == ts[i];
    assert forall i :: 0 <= i < |gaps| ==> ([gap] + gaps)[i + 1] == gaps[i];
  }

  /** A line that is not blank begins with blanks and a token. */
  lemma SplitFirst(s: string) returns (gap: string, t: Token, rest: string)
    requires NoNul(s) && Skip(s) < |s|
    ensures s == gap + Text(t) + rest && AllBlank(gap) && GoodToken(t) && |rest| < |s| && NoNul(rest)
    ensures t.Word? && rest != "" ==> !Plain(rest[0])
    ensures Lex(s) == [t] + Lex(rest)
  {
    hide Lex;
    var n := Skip(s);
    var body := s[n..];
    gap := s[..n];
    t, rest := FirstToken(body);
    hide GoodToken, AllBlank, Text;
    assert s == gap + body;
    Regroup(gap, Text(t), rest);
    assert rest != "" ==> rest[0] != '\0';
    LexOne(gap, t, rest);
  }

  lemma Regroup(a: string, b: string, c: string)
    ensures a + b + c == a + (b + c) && ("" + (b + c) == b + c)
  {
  }

  lemma FirstToken(body: string) returns (t: Token, rest: string)
    requires NoNul(body) && body != "" && !Blank(body[0])
    ensures GoodToken(t) && body == Text(t) + rest && |rest| < |body| && NoNul(rest)
    ensures t.Word? && rest != "" ==> !Plain(rest[0])
  {
    if Symbol(body[0]) {
      t, rest := Sym(body[0]), body[1..];
    } else {
      var k := WordLength(body);
      t, rest := Word(body[..k]), body[k..];
      forall i | 0 <= i < k ensures Plain(body[..k][i]) { assert body[..k][i] == body[i]; }
      assert body == body[..k] + body[k..];
    }
  }

  /** Every line is its tokens, spaced. */
  lemma {:induction false} LineIsSpaced(s: string) returns (gaps: seq<string>)
    requires NoNul(s)
    ensures GoodTokens(Lex(s)) && GapsFit(Lex(s), gaps) && Spaced(Lex(s), gaps) == s
    decreases |s|
  {
    hide Lex, Text;
    if Skip(s) == |s| {
      assert s[..|s|] == s;
      LexNone(s);
      gaps := [s];
    } else {
      var gap, t, rest := SplitFirst(s);
      var more := LineIsSpaced(rest);
      SpacedStart(Lex(rest), more);
      assert Lex(rest) != [] ==> GoodToken(Lex(rest)[0]);
      StartsPlain(Lex(rest));
      ConsFits(t, gap, Lex(rest), more);
      gaps := [gap] + more;
    }
  }

  lemma StartsPlain(ts: seq<Token>)
    requires GoodTokens(ts)
    ensures ts != [] && ts[0].Word? ==> Text(ts[0]) != "" && Plain(Text(ts[0])[0])
  {
  }

  // ----- Tokens and stages -----

  predicate GoodItem(i: Item)
  {
    match i case Arg(w) => GoodWord(w) case To(r) => GoodWord(r.file) && (r.kind == '<' || r.kind == '>')
  }

  predicate GoodItems(items: seq<Item>) { forall i :: 0 <= i < |items| ==> GoodItem(items[i]) }

  predicate GoodStages(stages: seq<seq<Item>>) { stages != [] && forall i :: 0 <= i < |stages| ==> GoodItems(stages[i]) }

  function Head(i: Item): seq<Token> { match i case Arg(w) => [Word(w)] case To(r) => [Sym(r.kind), Word(r.file)] }

  function ItemTokens(items: seq<Item>): seq<Token>
  {
    if items == [] then [] else Head(items[0]) + ItemTokens(items[1..])
  }

  /** The tokens of a pipeline, stage after stage with bars between. */
  function Tokens(stages: seq<seq<Item>>): seq<Token>
    requires stages != []
  {
    if |stages| == 1 then ItemTokens(stages[0]) else ItemTokens(stages[0]) + [Sym('|')] + Tokens(stages[1..])
  }

  function Build(stages: seq<seq<Item>>): Cmd
    requires stages != []
  {
    if |stages| == 1 then Stage(stages[0]) else Pipe(Stage(stages[0]), Build(stages[1..]))
  }

  predicate Short(items: seq<Item>) { |Args(items)| < MAXARGS }

  predicate AllShort(stages: seq<seq<Item>>) { forall i :: 0 <= i < |stages| ==> Short(stages[i]) }

  lemma {:induction false} ArgsFront(i: Item, items: seq<Item>)
    ensures Args([i] + items) == (match i case Arg(w) => [w] case To(_) => []) + Args(items)
  {
    if items != [] {
      var k := |items| - 1;
      assert ([i] + items)[..k + 1] == [i] + items[..k];
      ArgsFront(i, items[..k]);
    } else {
      assert ([i] + items)[..0] == [] && [i] + items == [i];
    }
  }

  /** A stage is read back from its tokens, unless it has too many words. */
  lemma {:induction false} TakesStage(items: seq<Item>, rest: seq<Token>, argc: nat)
    requires GoodItems(items) && argc < MAXARGS && (rest != [] ==> rest[0] == Sym('|'))
    ensures TakeStage(ItemTokens(items) + rest, argc) ==
            if argc + |Args(items)| < MAXARGS then Ok(Scan(items, rest)) else Err(TooManyArgs)
  {
    hide Args, TakeStage;
    if items == [] {
      assert [] + rest == rest;
      ArgsOfNone();
      TakesNothing(rest, argc);
    } else {
      var i, tail := items[0], ItemTokens(items[1..]) + rest;
      assert items == [i] + items[1..] && GoodItem(i);
      ArgsFront(i, items[1..]);
      assert ItemTokens(items) + rest == Head(i) + tail;
      TakesItem(i, tail, argc);
      if argc + (if i.Arg? then 1 else 0) < MAXARGS {
        TakesStage(items[1..], rest, argc + if i.Arg? then 1 else 0);
      }
    }
  }

  lemma TakesNothing(rest: seq<Token>, argc: nat)
    requires rest != [] ==> rest[0] == Sym('|')
    ensures TakeStage(rest, argc) == Ok(Scan([], rest))
  {
  }

  lemma TakesItem(i: Item, tail: seq<Token>, argc: nat)
    requires GoodItem(i) && argc < MAXARGS
    ensures TakeStage(Head(i) + tail, argc) ==
            if i.Arg? && argc + 1 >= MAXARGS then Err(TooManyArgs)
            else Front(i, TakeStage(tail, argc + if i.Arg? then 1 else 0))
  {
    if i.Arg? {
      assert (Head(i) + tail)[1..] == tail;
    } else {
      assert (Head(i) + tail)[2..] == tail;
    }
  }

  lemma ArgsOfNone()
    ensures Args([]) == []
  {
  }

  /** A line of stages is parsed to their commands, or refused for a stage that is too long. */
  lemma {:induction false} ParsesStages(stages: seq<seq<Item>>)
    requires GoodStages(stages)
    ensures ParsePipe(Tokens(stages)) == if AllShort(stages) then Ok(Build(stages)) else Err(TooManyArgs)
  {
    if |stages| == 1 {
      assert ItemTokens(stages[0]) + [] == ItemTokens(stages[0]);
      TakesStage(stages[0], [], 0);
    } else {
      var rest := [Sym('|')] + Tokens(stages[1..]);
      assert Tokens(stages) == ItemTokens(stages[0]) + rest;
      TakesStage(stages[0], rest, 0);
      assert rest[1..] == Tokens(stages[1..]);
      assert AllShort(stages) <==> Short(stages[0]) && AllShort(stages[1..]) by {
        assert forall i :: 1 <= i < |stages| ==> stages[i] == stages[1..][i - 1];
      }
      ParsesStages(stages[1..]);
    }
  }

  /** A redirection that no word follows. */
  predicate MissingAt(ts: seq<Token>, i: nat)
  {
    i < |ts| && IsRedirect(ts[i]) && (i + 1 == |ts| || !ts[i + 1].Word?)
  }

  ghost predicate HasMissing(ts: seq<Token>) { exists i: nat :: MissingAt(ts, i) }

  /** Tokens where every redirection has its word are the tokens of stages. */
  lemma {:induction false} Decompose(ts: seq<Token>) returns (stages: seq<seq<Item>>)
    requires GoodTokens(ts) && !HasMissing(ts)
    ensures GoodStages(stages) && Tokens(stages) == ts
    decreases |ts|
  {
    if ts == [] { return [[]]; }
    var n := if IsRedirect(ts[0]) then 2 else 1;
    assert GoodToken(ts[0]) && !MissingAt(ts, 0) && (|ts| > 1 ==> GoodToken(ts[1]));
    forall i: nat ensures !MissingAt(ts[n..], i) { assert !MissingAt(ts, i + n); }
    assert forall i :: 0 <= i < |ts| - n ==> ts[n..][i] == ts[i + n];
    var more := Decompose(ts[n..]);
    if ts[0] == Sym('|') {
      stages := [[]] + more;
      assert stages[1..] == more && ItemTokens([]) == [];
      assert Tokens(stages) == [] + [Sym('|')] + ts[1..];
    } else {
      var item := if ts[0].Word? then Arg(ts[0].text) else To(Redirection(ts[0].c, ts[1].text));
      LongerIsGood(item, more);
      LongerTokens(item, more);
      stages := Longer(item, more);
      assert ts[..n] + ts[n..] == ts;
      assert ts[..n] == if ts[0].Word? then [ts[0]] else [ts[0], ts[1]];
    }
  }

  function Longer(item: Item, stages: seq<seq<Item>>): seq<seq<Item>>
    requires stages != []
  {
    [[item] + stages[0]] + stages[1..]
  }

  lemma LongerIsGood(item: Item, stages: seq<seq<Item>>)
    requires GoodItem(item) && GoodStages(stages)
    ensures GoodStages(Longer(item, stages))
  {
    var longer := Longer(item, stages);
    forall i | 0 <= i < |longer| ensures GoodItems(longer[i]) {
      if i > 0 { assert longer[i] == stages[i]; } else { assert GoodItems(stages[0]) && longer[0] == [item] + stages[0]; }
    }
  }

  lemma LongerTokens(item: Item, stages: seq<seq<Item>>)
    requires stages != []
    ensures Tokens(Longer(item, stages)) == Head(item) + Tokens(stages)
  {
    var first, longer := [item] + stages[0], Longer(item, stages);
    assert first[1..] == stages[0] && longer[1..] == stages[1..];
    assert ItemTokens(first) == Head(item) + ItemTokens(stages[0]);
    if |stages| > 1 {
      hide Head, ItemTokens;
      var h, a, b := Head(item), ItemTokens(stages[0]), Tokens(stages[1..]);
      assert Tokens(stages) == a + [Sym('|')] + b && Tokens(longer) == h + a + [Sym('|')] + b;
      hide Tokens;
      assert h + a + [Sym('|')] + b == h + (a + [Sym('|')] + b);
    }
  }
}
