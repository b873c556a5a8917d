/** The parser as it runs: a cursor over the line, advanced token by token. */
module ShellParser {
  import opened Helpers
  import opened Shell

  // ----- Items read so far -----

  /** The outcome of a scan with the items read before it. */
  function After(items: seq<Item>, r: Result<Scan>): Result<Scan>
  {
    match r case Ok(s) => Ok(Scan(items + s.items, s.rest)) case Err(e) => Err(e)
  }

  lemma AfterFront(items: seq<Item>, i: Item, r: Result<Scan>)
    ensures After(items, Front(i, r)) == After(items + [i], r)
  {
    if r.Ok? { assert items + ([i] + r.value.items) == items + [i] + r.value.items; }
  }

  lemma FailsAfter(a: seq<Item>, r: Result<Scan>, b: seq<Item>, r': Result<Scan>)
    requires After(a, r) == After(b, r') && r'.Err?
    ensures r == r'
  {
  }

  lemma AfterNone(r: Result<Scan>)
    ensures After([], r) == r
  {
    if r.Ok? { assert [] + r.value.items == r.value.items; }
  }

  lemma ItemsAppend(items: seq<Item>, i: Item)
    ensures Args(items + [i]) == Args(items) + match i case Arg(w) => [w] case To(_) => []
    ensures Redirs(items + [i]) == Redirs(items) + match i case Arg(_) => [] case To(r) => [r]
  {
    assert (items + [i])[..|items|] == items;
  }

  /** The strings of an argument vector, up to its terminator. */
  function Strings(argv: seq<Option<string>>): seq<string>
  {
    if argv == [] || argv[0].None? then [] else [argv[0].value] + Strings(argv[1..])
  }

  lemma {:induction false} ReadBack(argv: seq<Option<string>>, words: seq<string>)
    requires |words| < |argv| && argv[|words|].None? && forall i :: 0 <= i < |words| ==> argv[i] == Some(words[i])
    ensures Strings(argv) == words
  {
    if words != [] {
      assert forall i :: 0 <= i < |words| - 1 ==> argv[1..][i] == argv[i + 1];
      ReadBack(argv[1..], words[1..]);
    }
  }

  lemma Finishes(a: seq<Item>, r: Result<Scan>, b: seq<Item>, r': Result<Scan>)
    requires After(a, r) == After(b, r') && r'.Ok? && r'.value.items == [] && a == []
    ensures r == Ok(Scan(b, r'.value.rest))
  {
    AfterNone(r);
    assert b + [] == b;
  }

  lemma StageIs(items: seq<Item>)
    ensures Stage(items) == Wrap(Redirs(items), Exec(Args(items)))
  {
  }

  lemma NoItems()
    ensures Args([]) == [] && Redirs([]) == []
  {
  }

  class Parser {
    const line: string
    var pos: nat

    ghost predicate Valid()
      reads this
    {
      pos <= |line| && NoNul(line)
    }

    /** The tokens still to come. */
    ghost function Rest(): seq<Token>
      requires Valid()
      reads this
    {
      Lex(line[pos..])
    }

    constructor (line: string)
      requires NoNul(line)
      ensures Valid() && this.line == line && pos == 0
    {
      this.line, pos := line, 0;
    }

    /** Moves past blanks. */
    method SkipBlanks()
      requires Valid()
      modifies this
      ensures Valid() && pos >= old(pos) && Rest() == old(Rest()) && (pos < |line| ==> !Blank(line[pos]))
    {
      while pos < |line| && Blank(line[pos])
        invariant Valid() && pos >= old(pos) && AllBlank(line[old(pos)..pos])
      {
        assert line[old(pos)..pos + 1] == line[old(pos)..pos] + [line[pos]];
        pos := pos + 1;
      }
      assert line[old(pos)..][..pos - old(pos)] == line[old(pos)..pos];
      assert line[old(pos)..][pos - old(pos)..] == line[pos..];
      LexSkips(line[old(pos)..], pos - old(pos));
    }

    /** The character at the cursor, or the terminator. */
    function Current(): char
      requires pos <= |line|
      reads this
    {
      if pos < |line| then line[pos] else '\0'
    }

    /** The next token: its kind ('a' for a word, the terminator for none) and where its text is. */
    method GetToken() returns (tok: char, q: nat, eq: nat)
      requires Valid()
      modifies this
      ensures Valid() && pos >= old(pos) && q <= eq <= |line|
      ensures old(Rest()) == [] ==> tok == '\0' && Rest() == []
      ensures old(Rest()) != [] ==>
        && Rest() == old(Rest())[1..] && pos > old(pos)
        && match old(Rest())[0] case Sym(c) => tok == c && Symbol(c) case Word(w) => tok == 'a' && line[q..eq] == w
    {
      hide Lex;
      SkipBlanks();
      ghost var t := line[pos..];
      q, tok := pos, Current();
      if tok == '\0' {
        EmptyHasNoToken();
        assert t == "";
      } else if tok == '|' || tok == '<' {
        pos := pos + 1;
        LexSymbol(t);
        assert line[pos..] == t[1..];
      } else if tok == '>' {
        pos := pos + 1;
        LexSymbol(t);
        assert line[pos..] == t[1..];
      } else {
        tok := 'a';
        while pos < |line| && !Blank(line[pos]) && !Symbol(line[pos])
          invariant q <= pos <= |line| && NoNul(line) && (pos == q ==> pos < |line| && !Blank(line[pos]) && !Symbol(line[pos]))
          invariant forall i :: 0 <= i < pos - q ==> !Blank(t[i]) && !Symbol(t[i])
        {
          assert line[pos] == t[pos - q];
          pos := pos + 1;
        }
        LexWord(t, pos - q);
        assert line[q..pos] == t[..pos - q] && line[pos..] == t[pos - q..];
      }
      eq := pos;
      SkipBlanks();
    }

    /** Whether the next token is one of the symbols in `toks`. */
    method Peek(toks: string) returns (yes: bool)
      requires Valid() && forall i :: 0 <= i < |toks| ==> Symbol(toks[i])
      modifies this
      ensures Valid() && pos >= old(pos) && Rest() == old(Rest())
      ensures yes <==> Rest() != [] && Rest()[0].Sym? && Rest()[0].c in toks
      ensures Rest() == [] ==> pos == |line|
    {
      SkipBlanks();
      ghost var t := line[pos..];
      assert t[0..] == t;
      yes := Current() != '\0' && Current() in toks;
    }

    /** Reads the redirections that come next, after the items read so far; `argc` arguments came
        before. */
    method ParseRedirs(redirs: seq<Redirection>, ghost before: seq<Item>, ghost argc: nat)
      returns (r: Result<seq<Redirection>>, ghost items: seq<Item>)
      requires Valid() && redirs == Redirs(before)
      modifies this
      ensures Valid() && pos >= old(pos)
      ensures r.Err? ==> TakeStage(old(Rest()), argc) == Err(r.error)
      ensures r.Ok? ==> r.value == Redirs(items) && Args(items) == Args(before)
      ensures r.Ok? ==> After(before, TakeStage(old(Rest()), argc)) == After(items, TakeStage(Rest(), argc))
      ensures r.Ok? ==> Rest() == [] || !IsRedirect(Rest()[0])
    {
      hide Lex, Args, Redirs, After, Front;
      ghost var ts := Rest();
      items := before;
      var rs := redirs;
      var more := Peek("<>");
      while more
        invariant Valid() && pos >= old(pos) && rs == Redirs(items) && Args(items) == Args(before)
        invariant After(before, TakeStage(ts, argc)) == After(items, TakeStage(Rest(), argc))
        invariant more <==> Rest() != [] && IsRedirect(Rest()[0])
        decreases |line| - pos, more
      {
        ghost var now := Rest();
        var tok, _, _ := GetToken();
        var file, q, eq := GetToken();
        if file != 'a' {
          FailsAfter(before, TakeStage(ts, argc), items, TakeStage(now, argc));
          return Err(MissingFile), items;
        }
        var redir := Redirection(tok, line[q..eq]);
        assert now[0] == Sym(tok);
        assert now[1] == Word(line[q..eq]) && Rest() == now[2..];
        AfterFront(items, To(redir), TakeStage(Rest(), argc));
        ItemsAppend(items, To(redir));
        rs, items := rs + [redir], items + [To(redir)];
        more := Peek("<>");
      }
      return Ok(rs), items;
    }

    /** Reads one stage of a pipeline. The argument vector never overflows and always has room for
        its terminator, and the exit for a syntax error is never taken. */
    method ParseExec() returns (r: Result<Cmd>)
      requires Valid()
      modifies this
      ensures Valid() && pos >= old(pos)
      ensures match TakeStage(old(Rest()), 0)
              case Err(e) => r == Err(e)
              case Ok(s) => r == Ok(Stage(s.items)) && Rest() == s.rest
    {
      hide Lex, Args, Redirs, After, Front, Stage;
      ghost var ts := Rest();
      var argv := new Option<string>[MAXARGS](i => None);
      var argc := 0;
      NoItems();
      var rs, items := ParseRedirs([], [], 0);
      if rs.Err? { return Err(rs.error); }
      var ret := rs.value;
      var bar := Peek("|");
      while !bar
        invariant Valid() && pos >= old(pos) && fresh(argv) && argc < MAXARGS == argv.Length
        invariant |Args(items)| == argc && forall i :: 0 <= i < argc ==> argv[i] == Some(Args(items)[i])
        invariant ret == Redirs(items) && After([], TakeStage(ts, 0)) == After(items, TakeStage(Rest(), argc))
        invariant bar <==> Rest() != [] && Rest()[0] == Sym('|')
        invariant Rest() == [] || !IsRedirect(Rest()[0])
        decreases |line| - pos
      {
        ghost var now := Rest();
        var tok, q, eq := GetToken();
        if tok == '\0' { break; }
        if tok != 'a' { assert false; }
        argv[argc] := Some(line[q..eq]);
        ghost var arg := Arg(line[q..eq]);
        argc := argc + 1;
        if argc >= MAXARGS {
          FailsAfter([], TakeStage(ts, 0), items, TakeStage(now, argc - 1));
          return Err(TooManyArgs);
        }
        AfterFront(items, arg, TakeStage(Rest(), argc));
        ItemsAppend(items, arg);
        ghost var before := items + [arg];
        rs, items := ParseRedirs(ret, before, argc);
        if rs.Err? {
          FailsAfter([], TakeStage(ts, 0), before, Err(rs.error));
          return Err(rs.error);
        }
        ret := rs.value;
        bar := Peek("|");
      }
      argv[argc] := None;
      ReadBack(argv[..], Args(items));
      Finishes([], TakeStage(ts, 0), items, TakeStage(Rest(), argc));
      StageIs(items);
      r := Ok(Wrap(ret, Exec(Strings(argv[..]))));
    }

    /** Reads a pipeline: a stage, and after a bar the rest of it. */
    method ParsePipeline() returns (r: Result<Cmd>)
      requires Valid()
      modifies this
      ensures Valid() && pos >= old(pos)
      ensures r == ParsePipe(old(Rest())) && (r.Ok? ==> Rest() == [])
      decreases |line| - pos
    {
      hide Lex, Stage;
      r := ParseExec();
      if r.Err? { return; }
      var bar := Peek("|");
      if bar {
        var _, _, _ := GetToken();
        var right := ParsePipeline();
        if right.Err? { return right; }
        r := Ok(Pipe(r.value, right.value));
      }
    }
  }

  /** Parses a whole line. Nothing is ever left over. */
  method ParseCmd(line: string) returns (r: Result<Cmd>)
    requires NoNul(line)
    ensures r == ParseLine(line)
  {
    var p := new Parser(line);
    assert line[0..] == line;
    r := p.ParsePipeline();
    if r.Err? { return; }
    var _ := p.Peek("");
    if p.pos != |line| { assert false; }
  }
}
