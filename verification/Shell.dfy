/** The language of the shell: tokens, stages and commands, and what a line means. */
module Shell {

  /** Slots of the argument vector, the terminator included. */
  const MAXARGS: nat := 10

  // ----- Tokens -----

  predicate Blank(c: char) { c == ' ' || c == '\t' || c == '\r' || c == '\n' || c == '\U{000B}' }

  predicate Symbol(c: char) { c == '<' || c == '|' || c == '>' }

  /** Characters of words. */
  predicate Plain(c: char) { !Blank(c) && !Symbol(c) && c != '\0' }

  predicate AllPlain(s: string) { forall i :: 0 <= i < |s| ==> Plain(s[i]) }

  predicate AllBlank(s: string) { forall i :: 0 <= i < |s| ==> Blank(s[i]) }

  /** A line is a C string. */
  predicate NoNul(s: string) { forall i :: 0 <= i < |s| ==> s[i] != '\0' }

  datatype Token = Word(text: string) | Sym(c: char)

  /** Length of the blanks a string begins with, and of the word it begins with. */
  function Skip(s: string): (n: nat)
    ensures n <= |s| && AllBlank(s[..n]) && (n < |s| ==> !Blank(s[n]))
  {
    if s == "" || !Blank(s[0]) then 0
    else
      var n := 1 + Skip(s[1..]);
      assert s[..n] == [s[0]] + s[1..][..n - 1];
      n
  }

  function WordLength(s: string): (n: nat)
    ensures n <= |s|
    ensures forall i :: 0 <= i < n ==> !Blank(s[i]) && !Symbol(s[i])
    ensures n < |s| ==> Blank(s[n]) || Symbol(s[n])
  {
    if s == "" || Blank(s[0]) || Symbol(s[0]) then 0
    else
      var n := 1 + WordLength(s[1..]);
      assert forall i :: 1 <= i < n ==> s[i] == s[1..][i - 1];
      n
  }

  /** The tokens of a line. */
  function Lex(s: string): seq<Token>
    decreases |s|
  {
    var t := s[Skip(s)..];
    if t == "" then []
    else if Symbol(t[0]) then [Sym(t[0])] + Lex(t[1..])
    else [Word(t[..WordLength(t)])] + Lex(t[WordLength(t)..])
  }

  // ----- The first token -----

  /** Blanks in front do not matter. */
  lemma {:induction false} LexSkips(s: string, n: nat)
    requires n <= |s| && AllBlank(s[..n])
    ensures Lex(s) == Lex(s[n..])
  {
    SkipDrops(s, n);
    assert s[n..][Skip(s) - n..] == s[Skip(s)..];
  }

  lemma {:induction false} SkipDrops(s: string, n: nat)
    requires n <= |s| && AllBlank(s[..n])
    ensures n <= Skip(s) && Skip(s[n..]) == Skip(s) - n
  {
    if n > 0 {
      assert s[..n][0] == s[0];
      assert s[1..][..n - 1] == s[..n][1..];
      SkipDrops(s[1..], n - 1);
      assert s[1..][n - 1..] == s[n..];
    } else {
      assert s[n..] == s;
    }
  }

  lemma EmptyHasNoToken()
    ensures Lex("") == []
  {
  }

  lemma LexSymbol(t: string)
    requires t != "" && Symbol(t[0])
    ensures Lex(t) == [Sym(t[0])] + Lex(t[1..])
  {
    assert t[0..] == t;
  }

  lemma {:induction false} WordLengthIs(s: string, n: nat)
    requires n <= |s| && forall i :: 0 <= i < n ==> !Blank(s[i]) && !Symbol(s[i])
    requires n < |s| ==> Blank(s[n]) || Symbol(s[n])
    ensures WordLength(s) == n
  {
    if n > 0 {
      assert forall i :: 0 <= i < n - 1 ==> s[1..][i] == s[i + 1];
      WordLengthIs(s[1..], n - 1);
    }
  }

  lemma LexWord(t: string, n: nat)
    requires 0 < n <= |t| && forall i :: 0 <= i < n ==> !Blank(t[i]) && !Symbol(t[i])
    requires n < |t| ==> Blank(t[n]) || Symbol(t[n])
    ensures Lex(t) == [Word(t[..n])] + Lex(t[n..])
  {
    WordLengthIs(t, n);
    assert t[0..] == t;
  }

  // ----- Commands -----

  /** `kind` is '<' or '>'. */
  datatype Redirection = Redirection(kind: char, file: string)

  /** A redirection wraps the command it applies to. */
  datatype Cmd = Exec(argv: seq<string>) | Redir(r: Redirection, cmd: Cmd) | Pipe(left: Cmd, right: Cmd)

  datatype Error = MissingFile | TooManyArgs

  datatype Result<T> = Ok(value: T) | Err(error: Error)

  /** What a stage of a pipeline consists of. */
  datatype Item = Arg(word: string) | To(r: Redirection)

  function Args(items: seq<Item>): seq<string>
  {
    if items == [] then [] else Args(items[..|items| - 1]) + match items[|items| - 1] case Arg(w) => [w] case To(_) => []
  }

  function Redirs(items: seq<Item>): seq<Redirection>
  {
    if items == [] then [] else Redirs(items[..|items| - 1]) + match items[|items| - 1] case Arg(_) => [] case To(r) => [r]
  }

  /** The first redirection is innermost. */
  function Wrap(redirs: seq<Redirection>, cmd: Cmd): Cmd
  {
    if redirs == [] then cmd else Redir(redirs[|redirs| - 1], Wrap(redirs[..|redirs| - 1], cmd))
  }

  function Stage(items: seq<Item>): Cmd { Wrap(Redirs(items), Exec(Args(items))) }

  // ----- Parsing -----

  predicate IsRedirect(t: Token) { t == Sym('<') || t == Sym('>') }

  /** One stage from the front of the tokens: its items, and the tokens after it. */
  datatype Scan = Scan(items: seq<Item>, rest: seq<Token>)

  function Front(i: Item, r: Result<Scan>): Result<Scan>
  {
    match r case Ok(s) => Ok(Scan([i] + s.items, s.rest)) case Err(e) => Err(e)
  }

  /** `argc` arguments came before. */
  function TakeStage(ts: seq<Token>, argc: nat): (r: Result<Scan>)
    ensures r.Ok? ==> |r.value.rest| <= |ts| && (r.value.rest != [] ==> r.value.rest[0] == Sym('|'))
    decreases |ts|
  {
    if ts == [] || ts[0] == Sym('|') then Ok(Scan([], ts))
    else if ts[0].Sym? then
      if |ts| >= 2 && ts[1].Word? then Front(To(Redirection(ts[0].c, ts[1].text)), TakeStage(ts[2..], argc))
      else Err(MissingFile)
    else if argc + 1 >= MAXARGS then Err(TooManyArgs)
    else Front(Arg(ts[0].text), TakeStage(ts[1..], argc + 1))
  }

  function ParsePipe(ts: seq<Token>): Result<Cmd>
    decreases |ts|
  {
    match TakeStage(ts, 0)
    case Err(e) => Err(e)
    case Ok(s) =>
      if s.rest == [] then Ok(Stage(s.items))
      else
        match ParsePipe(s.rest[1..])
        case Err(e) => Err(e)
        case Ok(right) => Ok(Pipe(Stage(s.items), right))
  }

  function ParseLine(line: string): Result<Cmd> { ParsePipe(Lex(line)) }
}
