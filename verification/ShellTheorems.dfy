/** The parser reads what the POSIX rules read, the printer writes what both read back. */
module ShellTheorems {
  import opened Base
  import opened ShellSyntax

  // ---- The parser agrees with the POSIX reading ----

  /** A word in the making belongs to a state that has started one. */
  ghost predicate Sane(st: State) {
    && |st.out.operators| == |st.out.segments|
    && (!st.started ==> st.word == "" && st.quote == Bare)
  }

  function WordOf(st: State): Option<string> { if st.started then Some(st.word) else None }

  /** The POSIX reading of the rest, picked up where `st` stands. */
  function Read(st: State, s: string): Option<seq<Token>> {
    match st.quote
    case Bare => Lex(WordOf(st), s)
    case Single => LexSingle(st.word, s)
    case Double => LexDouble(st.word, s)
  }

  /** The tokens finished so far. */
  function SoFar(st: State): seq<Token>
    requires Sane(st)
  {
    Closed(st.out.segments, st.out.operators) + WordTokens(st.argv)
  }

  lemma FlushedTokens(st: State)
    requires Sane(st) && st.quote == Bare
    ensures Sane(FlushWord(st)) && WordOf(FlushWord(st)) == None
    ensures SoFar(FlushWord(st)) == SoFar(st) + Delimited(WordOf(st))
  {
    if st.started {
      WordTokensAppend(st.argv, st.word);
      Assoc(Closed(st.out.segments, st.out.operators), WordTokens(st.argv), [Word(st.word)]);
    }
  }

  lemma WordTokensAppend(argv: seq<string>, arg: string)
    ensures WordTokens(argv + [arg]) == WordTokens(argv) + [Word(arg)]
  {
    assert (argv + [arg])[..|argv|] == argv;
  }

  lemma Assoc<T>(a: seq<T>, b: seq<T>, c: seq<T>)
    ensures a + (b + c) == (a + b) + c
  {
  }

  function WithOperator(st: State, op: string): State {
    st.(out := st.out.(operators := st.out.operators + [op]))
  }

  lemma ClosedTokens(st: State, op: string)
    requires Sane(st) && st.quote == Bare && FlushSegment(st).Ok?
    ensures var next := WithOperator(FlushSegment(st).value, op);
            && Sane(next) && next.quote == Bare && next.argv == [] && !next.started
            && SoFar(next) == SoFar(st) + Delimited(WordOf(st)) + [Op(op)]
  {
    FlushedTokens(st);
    var flushed := FlushWord(st);
    var next := WithOperator(FlushSegment(st).value, op);
    assert next.out.segments[..|st.out.segments|] == st.out.segments;
    assert next.out.operators[..|st.out.operators|] == st.out.operators;
  }

  /** Appends what is read later to what is read first. */
  lemma Chain(a: seq<Token>, b: seq<Token>, rest: seq<Token>, all: seq<Token>)
    requires (a + b) + rest == all
    ensures a + (b + rest) == all
  {
  }

  /** What a run that went from `st` to `fin` says about the rest of the command line. */
  ghost predicate Agrees(st: State, s: string, fin: State) {
    && Sane(st) && Sane(fin)
    && Read(st, s).Some? && SoFar(st) + Read(st, s).value == SoFar(fin) + Delimited(WordOf(fin))
  }

  /** A run that succeeds outside quotes finished exactly the tokens the POSIX rules find. */
  lemma {:induction false} RunReads(s: string, st: State, fin: State)
    requires Sane(st) && Run(s, st) == Ok(fin) && fin.quote == Bare
    ensures Agrees(st, s, fin)
    decreases |s|, 1
  {
    if st.quote == Bare {
      RunReadsBare(s, st, fin);
    } else {
      RunReadsQuoted(s, st, fin);
    }
  }

  lemma {:induction false} RunReadsQuoted(s: string, st: State, fin: State)
    requires Sane(st) && st.quote != Bare && Run(s, st) == Ok(fin) && fin.quote == Bare
    ensures Agrees(st, s, fin)
    decreases |s|, 0
  {
    assert s != "";
    if st.quote == Single {
      RunReads(s[1..], if s[0] == '\'' then st.(quote := Bare) else Add(st, s[0]), fin);
    } else if s[0] == '\\' {
      RunReads(s[2..], Add(st, s[1]).(started := true), fin);
    } else {
      RunReads(s[1..], if s[0] == '"' then st.(quote := Bare) else Add(st, s[0]), fin);
    }
  }

  lemma {:induction false} RunReadsBare(s: string, st: State, fin: State)
    requires Sane(st) && st.quote == Bare && Run(s, st) == Ok(fin) && fin.quote == Bare
    ensures Agrees(st, s, fin)
    decreases |s|, 0
  {
    if s == "" {
    } else if s[0] == ' ' || s[0] == '\t' {
      FlushedTokens(st);
      RunReads(s[1..], FlushWord(st), fin);
      BlankStep(s, st, fin);
    } else if s[0] == '|' || s[0] == '&' || s[0] == ';' {
      var op := OperatorAt(s);
      ClosedTokens(st, op);
      RunReads(s[|op|..], WithOperator(FlushSegment(st).value, op), fin);
      OperatorStep(s, st, fin);
    } else {
      var (n, next) := InWord(s, st);
      RunReads(s[n..], next, fin);
      WordStep(s, st, fin);
    }
  }

  /** A character that belongs to a word: how much of `s` it takes and the state after it. */
  function InWord(s: string, st: State): (nat, State)
    requires s != ""
  {
    if s[0] == '\\' && |s| > 1 then (2, Add(st, s[1]).(started := true))
    else if s[0] == '\'' then (1, st.(quote := Single, started := true))
    else if s[0] == '"' then (1, st.(quote := Double, started := true))
    else (1, Add(st, s[0]).(started := true))
  }

  lemma WordStep(s: string, st: State, fin: State)
    requires Sane(st) && st.quote == Bare && Run(s, st) == Ok(fin)
    requires s != "" && s[0] != ' ' && s[0] != '\t' && s[0] != '|' && s[0] != '&' && s[0] != ';'
    requires Agrees(InWord(s, st).1, s[InWord(s, st).0..], fin)
    ensures Agrees(st, s, fin)
  {
    WordReads(s, st, fin);
  }

  /** Outside quotes, both readings take the same characters into the word. */
  lemma WordReads(s: string, st: State, fin: State)
    requires Sane(st) && st.quote == Bare && Run(s, st) == Ok(fin)
    requires s != "" && s[0] != ' ' && s[0] != '\t' && s[0] != '|' && s[0] != '&' && s[0] != ';'
    ensures Read(st, s) == Read(InWord(s, st).1, s[InWord(s, st).0..])
  {
    if s[0] == '\\' {
      EscapeReads(s, st, fin);
    } else if s[0] == '\'' || s[0] == '"' {
      assert InWord(s, st).1.word == Current(WordOf(st));
    } else {
      PlainReads(s, st, fin);
    }
  }

  lemma EscapeReads(s: string, st: State, fin: State)
    requires Sane(st) && st.quote == Bare && Run(s, st) == Ok(fin) && s != "" && s[0] == '\\'
    ensures |s| > 1 && Lex(WordOf(st), s) == Lex(Some(st.word + [s[1]]), s[2..])
  {
  }

  lemma PlainReads(s: string, st: State, fin: State)
    requires Sane(st) && st.quote == Bare && Run(s, st) == Ok(fin) && s != ""
    requires s[0] !in " \t|&;\\'\""
    ensures Lex(WordOf(st), s) == Lex(Some(st.word + [s[0]]), s[1..])
  {
  }

  lemma BlankStep(s: string, st: State, fin: State)
    requires Sane(st) && st.quote == Bare && s != "" && (s[0] == ' ' || s[0] == '\t')
    requires Agrees(FlushWord(st), s[1..], fin)
    ensures Agrees(st, s, fin)
  {
    FlushedTokens(st);
    Chain(SoFar(st), Delimited(WordOf(st)), Lex(None, s[1..]).value, SoFar(fin) + Delimited(WordOf(fin)));
  }

  lemma LexOperator(word: Option<string>, s: string)
    requires s != "" && (s[0] == '|' || s[0] == '&' || s[0] == ';') && !(|s| > 1 && s[0] == s[1] == ';')
    ensures Lex(word, s) == Prepend(Delimited(word) + [Op(OperatorAt(s))], Lex(None, s[|OperatorAt(s)|..]))
  {
  }

  lemma Chain3(a: seq<Token>, b: seq<Token>, c: seq<Token>, rest: seq<Token>, all: seq<Token>)
    requires a + b + c + rest == all
    ensures a + (b + c + rest) == all
  {
  }

  lemma OperatorStep(s: string, st: State, fin: State)
    requires Sane(st) && st.quote == Bare && Run(s, st) == Ok(fin)
    requires s != "" && (s[0] == '|' || s[0] == '&' || s[0] == ';')
    requires FlushSegment(st).Ok? && Agrees(WithOperator(FlushSegment(st).value, OperatorAt(s)), s[|OperatorAt(s)|..], fin)
    ensures Agrees(st, s, fin)
  {
    var op := OperatorAt(s);
    var rest := Lex(None, s[|op|..]);
    ClosedTokens(st, op);
    NoDoubleSemicolon(s, st, fin);
    LexOperator(WordOf(st), s);
    assert rest.Some?;
    Chain3(SoFar(st), Delimited(WordOf(st)), [Op(op)], rest.value, SoFar(fin) + Delimited(WordOf(fin)));
  }

  lemma NothingToClose(s: string, st: State)
    requires s != "" && s[0] == ';' && st.quote == Bare && st.argv == [] && !st.started
    ensures Run(s, st) == Err(EmptySegment)
  {
  }

  /** POSIX reads two semicolons as one operator; the parser finds an empty segment between them. */
  lemma NoDoubleSemicolon(s: string, st: State, fin: State)
    requires Sane(st) && st.quote == Bare && Run(s, st) == Ok(fin)
    ensures !(|s| > 1 && s[0] == s[1] == ';')
  {
    if |s| > 1 && s[0] == s[1] == ';' {
      ClosedTokens(st, ";");
      NothingToClose(s[1..], WithOperator(FlushSegment(st).value, ";"));
    }
  }

  lemma LastTokens(fin: State)
    requires Sane(fin) && fin.quote == Bare && FlushSegment(fin).Ok?
    ensures var out := FlushSegment(fin).value.out;
            |out.operators| + 1 == |out.segments| && Tokens(out) == SoFar(fin) + Delimited(WordOf(fin))
  {
    FlushedTokens(fin);
    var out := FlushSegment(fin).value.out;
    assert out.segments[..|fin.out.segments|] == fin.out.segments;
  }

  /** A command the parser accepts is, token by token, what the POSIX rules make of the same text. */
  lemma ParseAgreesWithPosix(input: string)
    requires Parsed(input).Ok?
    ensures |Parsed(input).value.operators| + 1 == |Parsed(input).value.segments|
    ensures Lex(None, input) == Some(Tokens(Parsed(input).value))
  {
    var fin := Run(input, INITIAL).value;
    RunReads(input, INITIAL, fin);
    LastTokens(fin);
    assert SoFar(INITIAL) == [];
    assert [] + Lex(None, input).value == Lex(None, input).value;
  }

  // ---- What the parser produces ----

  ghost predicate GoodState(st: State) {
    && Sane(st) && Printable(st.word)
    && (forall i :: 0 <= i < |st.argv| ==> Printable(st.argv[i]))
    && (forall i :: 0 <= i < |st.out.segments| ==> GoodSegment(st.out.segments[i]))
    && forall i :: 0 <= i < |st.out.operators| ==> IsOperator(st.out.operators[i])
  }

  lemma FlushKeepsGood(st: State)
    requires GoodState(st) && st.quote == Bare && FlushSegment(st).Ok?
    ensures var next := FlushSegment(st).value;
            && (forall i :: 0 <= i < |next.out.segments| ==> GoodSegment(next.out.segments[i]))
            && next.out.operators == st.out.operators && |next.out.segments| == |st.out.segments| + 1
            && next.word == "" && next.argv == [] && !next.started && next.quote == Bare
  {
  }

  lemma {:induction false} RunKeepsGood(s: string, st: State)
    requires GoodState(st) && Run(s, st).Ok?
    ensures GoodState(Run(s, st).value)
    decreases |s|
  {
    if s == "" {
    } else if st.quote == Single {
      RunKeepsGood(s[1..], if s[0] == '\'' then st.(quote := Bare) else Add(st, s[0]));
    } else if s[0] == '\\' {
      RunKeepsGood(s[2..], Add(st, s[1]).(started := true));
    } else if st.quote == Double {
      RunKeepsGood(s[1..], if s[0] == '"' then st.(quote := Bare) else Add(st, s[0]));
    } else if s[0] == '\'' || s[0] == '"' {
      RunKeepsGood(s[1..], st.(quote := if s[0] == '"' then Double else Single, started := true));
    } else if s[0] == ' ' || s[0] == '\t' {
      RunKeepsGood(s[1..], FlushWord(st));
    } else if s[0] == '|' || s[0] == '&' || s[0] == ';' {
      FlushKeepsGood(st);
      RunKeepsGood(s[|OperatorAt(s)|..], WithOperator(FlushSegment(st).value, OperatorAt(s)));
    } else {
      RunKeepsGood(s[1..], Add(st, s[0]).(started := true));
    }
  }

  /** Every accepted command has 1 to 16 segments, plain executable names, printable arguments and known operators. */
  lemma ParsedIsWellFormed(input: string)
    requires Parsed(input).Ok?
    ensures WellFormed(Parsed(input).value)
  {
    RunKeepsGood(input, INITIAL);
    FlushKeepsGood(Run(input, INITIAL).value);
  }

  // ---- What the printer writes ----

  /** Reading the inside of a quoted argument, in single quotes, with `word` read already. */
  lemma {:induction false} RunEscaped(arg: string, rest: string, st: State)
    requires st.quote == Single && st.started && Printable(arg)
    ensures Run(Escaped(arg) + rest, st) == Run(rest, st.(word := st.word + arg))
    decreases |arg|
  {
    if arg == "" {
      assert Escaped(arg) + rest == rest && st.word + arg == st.word;
    } else {
      var init, c := arg[..|arg| - 1], arg[|arg| - 1];
      var piece := if c == '\'' then "'\"'\"'" else [c];
      assert Escaped(arg) + rest == Escaped(init) + (piece + rest);
      RunEscaped(init, piece + rest, st);
      var mid := st.(word := st.word + init);
      assert mid.word + [c] == st.word + arg;
      if c == '\'' { RunQuotedQuote(rest, mid); } else { assert (piece + rest)[1..] == rest; }
    }
  }

  /** Out of the single quotes, a single quote between double quotes, and back. */
  lemma RunQuotedQuote(rest: string, st: State)
    requires st.quote == Single && st.started
    ensures Run("'\"'\"'" + rest, st) == Run(rest, Add(st, '\''))
  {
    var s := "'\"'\"'" + rest;
    var bare, double := st.(quote := Bare), st.(quote := Double);
    assert s[1..] == "\"'\"'" + rest && s[2..] == "'\"'" + rest && s[3..] == "\"'" + rest && s[4..] == "'" + rest && s[5..] == rest;
    assert Run(s, st) == Run(s[1..], bare);
    assert s[1..][1..] == s[2..] && s[2..][1..] == s[3..] && s[3..][1..] == s[4..] && s[4..][1..] == s[5..];
    assert Run(s[1..], bare) == Run(s[2..], double);
    assert Run(s[2..], double) == Run(s[3..], Add(double, '\''));
    assert Run(s[3..], Add(double, '\'')) == Run(s[4..], Add(bare, '\''));
    assert Run(s[4..], Add(bare, '\'')) == Run(s[5..], Add(st, '\''));
  }

  /** A fresh word: the state after a quoted argument. */
  function Holding(st: State, arg: string): State { st.(word := arg, started := true) }

  lemma RunQuoted(arg: string, rest: string, st: State)
    requires st.quote == Bare && st.word == "" && Printable(arg)
    ensures Run(Quoted(arg) + rest, st) == Run(rest, Holding(st, arg))
  {
    var s := Quoted(arg) + rest;
    var open := st.(quote := Single, started := true);
    assert s == "'" + (Escaped(arg) + ("'" + rest));
    assert s[1..] == Escaped(arg) + ("'" + rest);
    assert Run(s, st) == Run(s[1..], open);
    RunEscaped(arg, "'" + rest, open);
    assert "" + arg == arg;
    assert ("'" + rest)[1..] == rest;
  }

  lemma RunBlank(rest: string, st: State)
    requires st.quote == Bare
    ensures Run(" " + rest, st) == Run(rest, FlushWord(st))
  {
    assert (" " + rest)[1..] == rest;
  }

  /** The state after the words of a segment, the last of them not flushed yet. */
  function AtEndOf(st: State, argv: seq<string>): State
    requires argv != []
  {
    Holding(st.(argv := argv[..|argv| - 1]), argv[|argv| - 1])
  }

  lemma {:induction false} RunWords(argv: seq<string>, rest: string, st: State)
    requires st.quote == Bare && st.word == "" && !st.started && st.argv == [] && argv != []
    requires forall i :: 0 <= i < |argv| ==> Printable(argv[i])
    ensures Run(Words(argv) + rest, st) == Run(rest, AtEndOf(st, argv))
    decreases |argv|
  {
    var n := |argv| - 1;
    if n == 0 {
      RunQuoted(argv[0], rest, st);
      assert st.(argv := argv[..n]) == st;
    } else {
      var init := argv[..n];
      assert Words(argv) + rest == Words(init) + (" " + (Quoted(argv[n]) + rest));
      RunWords(init, " " + (Quoted(argv[n]) + rest), st);
      RunBlank(Quoted(argv[n]) + rest, AtEndOf(st, init));
      assert init[..n - 1] + [init[n - 1]] == init;
      RunQuoted(argv[n], rest, st.(argv := init));
    }
  }

  lemma RunOperator(op: string, rest: string, st: State)
    requires IsOperator(op) && st.quote == Bare && FlushSegment(st).Ok?
    ensures Run(op + (" " + rest), st) == Run(" " + rest, WithOperator(FlushSegment(st).value, op))
  {
    var s := op + (" " + rest);
    assert s[0] == op[0] && s[|op|] == ' ';
    assert OperatorAt(s) == op;
    assert s[|op|..] == " " + rest;
  }

  /** The state after a printed command, its last word not flushed yet. */
  function AtEndOfAll(segments: seq<seq<string>>, operators: seq<string>): State
    requires segments != [] && segments[|segments| - 1] != [] && |operators| + 1 >= |segments|
  {
    var n := |segments| - 1;
    AtEndOf(INITIAL.(out := Command(segments[..n], operators[..n])), segments[n])
  }

  lemma FlushAtEnd(segments: seq<seq<string>>, operators: seq<string>)
    requires segments != [] && GoodSegment(segments[|segments| - 1]) && |operators| + 1 >= |segments|
    ensures FlushSegment(AtEndOfAll(segments, operators))
         == Ok(INITIAL.(out := Command(segments, operators[..|segments| - 1])))
  {
    var argv := segments[|segments| - 1];
    assert argv[..|argv| - 1] + [argv[|argv| - 1]] == argv;
    assert segments[..|segments| - 1] + [argv] == segments;
  }

  lemma PrintedTail(init: string, op: string, words: string, rest: string)
    ensures init + " " + op + " " + words + rest == init + (" " + (op + (" " + (words + rest))))
  {
  }

  lemma {:induction false} RunPrinted(segments: seq<seq<string>>, operators: seq<string>, rest: string)
    requires segments != [] && |operators| + 1 >= |segments|
    requires forall i :: 0 <= i < |segments| ==> GoodSegment(segments[i])
    requires forall i :: 0 <= i < |operators| ==> IsOperator(operators[i])
    ensures GoodSegment(segments[|segments| - 1])
    ensures Run(Printed(segments, operators) + rest, INITIAL) == Run(rest, AtEndOfAll(segments, operators))
    decreases |segments|
  {
    var n := |segments| - 1;
    if n == 0 {
      RunWords(segments[0], rest, INITIAL);
      assert INITIAL.(out := Command(segments[..0], operators[..0])) == INITIAL;
    } else {
      var init, op := segments[..n], operators[n - 1];
      PrintedTail(Printed(init, operators), op, Words(segments[n]), rest);
      RunPrinted(init, operators, " " + (op + (" " + (Words(segments[n]) + rest))));
      RunLastSegment(segments, operators, rest);
    }
  }

  lemma RunLastSegment(segments: seq<seq<string>>, operators: seq<string>, rest: string)
    requires |segments| > 1 && |operators| + 1 >= |segments| && IsOperator(operators[|segments| - 2])
    requires GoodSegment(segments[|segments| - 1]) && GoodSegment(segments[|segments| - 2])
    ensures
      var n := |segments| - 1;
      Run(" " + (operators[n - 1] + (" " + (Words(segments[n]) + rest))), AtEndOfAll(segments[..n], operators))
        == Run(rest, AtEndOfAll(segments, operators))
  {
    var n := |segments| - 1;
    var init, op := segments[..n], operators[n - 1];
    RunNextSegment(init, operators, op, Words(segments[n]) + rest);
    assert operators[..n - 1] + [op] == operators[..n];
    RunWords(segments[n], rest, INITIAL.(out := Command(init, operators[..n])));
  }

  /** From the end of one segment over its operator to the start of the next. */
  lemma RunNextSegment(init: seq<seq<string>>, operators: seq<string>, op: string, tail: string)
    requires init != [] && GoodSegment(init[|init| - 1]) && |operators| + 1 >= |init| && IsOperator(op)
    ensures Run(" " + (op + (" " + tail)), AtEndOfAll(init, operators))
         == Run(tail, INITIAL.(out := Command(init, operators[..|init| - 1] + [op])))
  {
    var st := AtEndOfAll(init, operators);
    RunBlank(op + (" " + tail), st);
    FlushAtEnd(init, operators);
    assert FlushSegment(FlushWord(st)) == FlushSegment(st);
    RunOperator(op, tail, FlushWord(st));
    RunBlank(tail, INITIAL.(out := Command(init, operators[..|init| - 1] + [op])));
  }

  /** The printer and the parser are inverse: the script of a well-formed command parses back to it unless it is too long. */
  lemma ParsePrinted(c: Command)
    requires WellFormed(c)
    ensures Parsed(Printed(c.segments, c.operators))
         == if |Printed(c.segments, c.operators)| > MAX_LENGTH then Err(TooLong) else Ok(c)
  {
    var script := Printed(c.segments, c.operators);
    RunPrinted(c.segments, c.operators, "");
    FlushAtEnd(c.segments, c.operators);
    assert script + "" == script;
    assert c.operators[..|c.segments| - 1] == c.operators;
  }

  /** However long it is, the POSIX rules find in the script exactly the argument lists and operators of the command. */
  lemma ScriptMeansCommand(c: Command)
    requires Proper(c)
    ensures Lex(None, Printed(c.segments, c.operators)) == Some(Tokens(c))
  {
    var script, fin := Printed(c.segments, c.operators), AtEndOfAll(c.segments, c.operators);
    RunPrinted(c.segments, c.operators, "");
    assert script + "" == script;
    RunReads(script, INITIAL, fin);
    FlushAtEnd(c.segments, c.operators);
    LastTokens(fin);
    assert c.operators[..|c.segments| - 1] == c.operators;
    assert SoFar(INITIAL) == [];
    assert [] + Lex(None, script).value == Lex(None, script).value;
  }
}
