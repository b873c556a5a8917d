/** Some lines and what they mean. */
module ShellExamples {
  import opened Shell
  import opened ShellGrammar
  import opened ShellLines

  /** A word up to the next blank or symbol. */
  lemma NextWord(w: string, rest: string)
    requires w != "" && (forall i :: 0 <= i < |w| ==> Plain(w[i])) && (rest != "" ==> Blank(rest[0]) || Symbol(rest[0]))
    ensures Lex(w + rest) == [Word(w)] + Lex(rest)
  {
    hide Lex;
    var line := w + rest;
    assert forall i :: 0 <= i < |w| ==> line[i] == w[i];
    assert line[..|w|] == w && line[|w|..] == rest;
    LexWord(line, |w|);
  }

  lemma NextSymbol(c: char, rest: string)
    requires Symbol(c)
    ensures Lex([c] + rest) == [Sym(c)] + Lex(rest)
  {
    LexOne("", Sym(c), rest);
    assert "" + [c] + rest == [c] + rest;
  }

  lemma NextBlank(c: char, rest: string)
    requires Blank(c)
    ensures Lex([c] + rest) == Lex(rest)
  {
    assert ([c] + rest)[1..] == rest;
    LexSkips([c] + rest, 1);
  }

  /** A tab and a newline end words. */
  lemma TabAndNewline()
    ensures Lex("ls\t-l\n") == [Word("ls"), Word("-l")]
  {
    hide Lex;
    assert "ls\t-l\n" == "ls" + "\t-l\n" && "\t-l\n" == ['\t'] + "-l\n" && "-l\n" == "-l" + "\n" && "\n" == ['\n'] + "";
    NextWord("ls", "\t-l\n");
    NextBlank('\t', "-l\n");
    NextWord("-l", "\n");
    NextBlank('\n', "");
    EmptyHasNoToken();
  }

  /** So do a space, a carriage return and a vertical tab. */
  lemma OtherBlanks()
    ensures Lex("a b\rc\U{000B}d") == [Word("a"), Word("b"), Word("c"), Word("d")]
  {
    hide Lex;
    var d, c, b, a := "d", "c\U{000B}d", "b\rc\U{000B}d", "a b\rc\U{000B}d";
    assert a == "a" + (" " + b) && b == "b" + ("\r" + c) && c == "c" + ("\U{000B}" + d) && d == "d" + "";
    NextWord("a", " " + b);
    NextBlank(' ', b);
    NextWord("b", "\r" + c);
    NextBlank('\r', c);
    NextWord("c", "\U{000B}" + d);
    NextBlank('\U{000B}', d);
    NextWord("d", "");
    EmptyHasNoToken();
  }

  /** The three symbols stand for themselves without blanks around them; no other character does. */
  lemma Symbols()
    ensures Lex("a<b|c>d;&") == [Word("a"), Sym('<'), Word("b"), Sym('|'), Word("c"), Sym('>'), Word("d;&")]
  {
    hide Lex;
    var d, c, b := "d;&", "c>d;&", "b|c>d;&";
    assert "a<b|c>d;&" == "a" + (['<'] + b) && b == "b" + (['|'] + c) && c == "c" + (['>'] + d) && d == d + "";
    NextWord("a", ['<'] + b);
    NextSymbol('<', b);
    NextWord("b", ['|'] + c);
    NextSymbol('|', c);
    NextWord("c", ['>'] + d);
    NextSymbol('>', d);
    NextWord(d, "");
    EmptyHasNoToken();
  }

  /** A redirection applies to its own stage, wherever it stands among the words. */
  lemma PipelineOfTwo()
    ensures ParseLine("a<b -l|c>d") ==
      Ok(Pipe(Redir(Redirection('<', "b"), Exec(["a", "-l"])), Redir(Redirection('>', "d"), Exec(["c"]))))
  {
    hide Lex, ParseLine, Stage, ItemTokens, Args;
    var line := "a<b -l|c>d";
    var left, right := [Arg("a"), To(Redirection('<', "b")), Arg("-l")], [Arg("c"), To(Redirection('>', "d"))];
    var stages := [left, right];
    PipelineTokens();
    LeftStage();
    RightStage();
    assert stages[1..] == [right];
    assert GoodItems(left) && GoodItems(right) && GoodStages(stages);
    assert Tokens([right]) == ItemTokens(right);
    assert Tokens(stages) == ItemTokens(left) + [Sym('|')] + Tokens([right]);
    assert Build([right]) == Stage(right) && Build(stages) == Pipe(Stage(left), Build([right]));
    assert MadeOf(line, stages);
    MeaningOfStages(line, stages);
  }

  lemma LeftStage()
    ensures var items := [Arg("a"), To(Redirection('<', "b")), Arg("-l")];
      && ItemTokens(items) == [Word("a"), Sym('<'), Word("b"), Word("-l")] && |Args(items)| == 2
      && Stage(items) == Redir(Redirection('<', "b"), Exec(["a", "-l"]))
  {
    var r := Redirection('<', "b");
    var items := [Arg("a"), To(r), Arg("-l")];
    assert items[1..] == [To(r), Arg("-l")] && items[1..][1..] == [Arg("-l")] && [Arg("-l")][1..] == [];
    assert items[..2] == [Arg("a"), To(r)] && items[..2][..1] == [Arg("a")] && [Arg("a")][..0] == [];
    assert [r][..0] == [];
    assert Redirs(items) == Redirs(items[..2]) == Redirs([Arg("a")]) + [r] == [r];
    assert Args(items) == Args(items[..2]) + ["-l"] == ["a", "-l"];
    assert Wrap([r], Exec(["a", "-l"])) == Redir(r, Wrap([], Exec(["a", "-l"])));
  }

  lemma RightStage()
    ensures var items := [Arg("c"), To(Redirection('>', "d"))];
      && ItemTokens(items) == [Word("c"), Sym('>'), Word("d")] && |Args(items)| == 1
      && Stage(items) == Redir(Redirection('>', "d"), Exec(["c"]))
  {
    var r := Redirection('>', "d");
    var items := [Arg("c"), To(r)];
    assert items[1..] == [To(r)] && [To(r)][1..] == [];
    assert items[..1] == [Arg("c")] && [Arg("c")][..0] == [];
    assert [r][..0] == [];
    assert Redirs(items) == Redirs([Arg("c")]) + [r] == [r];
    assert Args(items) == Args([Arg("c")]) == ["c"];
    assert Wrap([r], Exec(["c"])) == Redir(r, Wrap([], Exec(["c"])));
  }

  lemma PipelineTokens()
    ensures Lex("a<b -l|c>d") ==
      [Word("a"), Sym('<'), Word("b"), Word("-l"), Sym('|'), Word("c"), Sym('>'), Word("d")]
  {
    hide Lex;
    var e, d, c, b := "d", "c>d", "-l|c>d", "b -l|c>d";
    assert "a<b -l|c>d" == "a" + (['<'] + b) && b == "b" + ([' '] + c) && c == "-l" + (['|'] + d) && d == "c" + (['>'] + e) && e == e + "";
    NextWord("a", ['<'] + b);
    NextSymbol('<', b);
    NextWord("b", [' '] + c);
    NextBlank(' ', c);
    NextWord("-l", ['|'] + d);
    NextSymbol('|', d);
    NextWord("c", ['>'] + e);
    NextSymbol('>', e);
    NextWord("d", "");
    EmptyHasNoToken();
  }
}
