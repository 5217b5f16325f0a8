/**
 Which texts the parser accepts, and as what: told by the characters and their quoting and by the POSIX reading,
 not by the parser.
 */
module ShellAcceptance {
  import opened Base
  import opened ShellSyntax
  import opened ShellTheorems

  // ---- The characters ----

  /**
   What is wrong with a character where it stands: `quote` is the quoting in front of `s`. Nothing ends a line; only a
   single quote means anything inside single quotes; expansions stay out of double quotes, where a backslash stands
   before a dollar sign, a backquote, a quote or a backslash; outside, redirections, groups, patterns, braces, tildes
   and comments are out as well.
   */
  function Fault(quote: Quote, s: string): Option<ParseError>
    decreases |s|
  {
    if s == "" then if quote == Bare then None else Some(Unclosed)
    else if s[0] in "\0\r\n" then Some(LineOrNul)
    else match quote
      case Single => Fault(if s[0] == '\'' then Bare else Single, s[1..])
      case Double =>
        if s[0] == '\\' then
          if |s| == 1 then Some(LoneBackslash)
          else if s[1] in "\0\r\n" then Some(EscapedLineOrNul)
          else if s[1] !in "$`\"\\" then Some(OddEscape)
          else Fault(Double, s[2..])
        else if s[0] in "$`" then Some(Expansion)
        else Fault(if s[0] == '"' then Bare else Double, s[1..])
      case Bare =>
        if s[0] == '\\' then
          if |s| == 1 then Some(LoneBackslash)
          else if s[1] in "\0\r\n" then Some(EscapedLineOrNul)
          else Fault(Bare, s[2..])
        else if s[0] in "$`" then Some(Expansion)
        else if s[0] in "<>()*?[{}~#" then Some(Unsupported)
        else Fault(if s[0] == '\'' then Single else if s[0] == '"' then Double else Bare, s[1..])
  }

  /** A run that succeeds outside quotes met no such character. */
  lemma {:induction false} RunIsFaultless(s: string, st: State, fin: State)
    requires Run(s, st) == Ok(fin) && fin.quote == Bare
    ensures Fault(st.quote, s) == None
    decreases |s|
  {
    if s == "" {
    } else if st.quote == Single {
      RunIsFaultless(s[1..], if s[0] == '\'' then st.(quote := Bare) else Add(st, s[0]), fin);
    } else if s[0] == '\\' {
      RunIsFaultless(s[2..], Add(st, s[1]).(started := true), fin);
    } else if st.quote == Double {
      RunIsFaultless(s[1..], if s[0] == '"' then st.(quote := Bare) else Add(st, s[0]), fin);
    } else if s[0] == '\'' || s[0] == '"' {
      RunIsFaultless(s[1..], st.(quote := if s[0] == '"' then Double else Single, started := true), fin);
    } else if s[0] == ' ' || s[0] == '\t' {
      RunIsFaultless(s[1..], FlushWord(st), fin);
    } else if s[0] == '|' || s[0] == '&' || s[0] == ';' {
      FaultAfterOperator(s);
      RunIsFaultless(s[|OperatorAt(s)|..], WithOperator(FlushSegment(st).value, OperatorAt(s)), fin);
    } else {
      RunIsFaultless(s[1..], Add(st, s[0]).(started := true), fin);
    }
  }

  lemma FaultAfterOperator(s: string)
    requires s != "" && (s[0] == '|' || s[0] == '&' || s[0] == ';')
    ensures Fault(Bare, s) == Fault(Bare, s[|OperatorAt(s)|..])
  {
    FaultAtPlain(s);
    if |OperatorAt(s)| == 2 {
      FaultAtPlain(s[1..]);
      assert s[1..][1..] == s[2..];
    }
  }

  /** A character that means nothing to the quoting. */
  lemma FaultAtPlain(s: string)
    requires s != "" && s[0] !in "\0\r\n\\$`<>()*?[{}~#'\""
    ensures Fault(Bare, s) == Fault(Bare, s[1..])
  {
  }

  // ---- The tokens ----

  /** The words since the last operator, if every operator before has a command in front and is a known one. */
  function Count(tokens: seq<Token>, n: nat): Option<nat> {
    if tokens == [] then Some(n)
    else match tokens[0]
      case Word(text) => if n == 0 && !IsIdentifier(text) then None else Count(tokens[1..], n + 1)
      case Op(symbol) => if n == 0 || symbol !in ["|", "||", "&&", ";"] then None else Count(tokens[1..], 0)
  }

  /** Segments with a plain name each, and operators between them. */
  predicate WholeCommand(tokens: seq<Token>, n: nat) { Count(tokens, n).Some? && Count(tokens, n).value > 0 }

  lemma {:induction false} CountAppends(a: seq<Token>, b: seq<Token>, n: nat)
    ensures Count(a + b, n) == if Count(a, n).Some? then Count(b, Count(a, n).value) else None
  {
    if a == [] {
      assert a + b == b;
    } else {
      assert (a + b)[1..] == a[1..] + b;
      CountAppends(a[1..], b, if a[0].Word? then n + 1 else 0);
    }
  }

  lemma {:induction false} CountWords(argv: seq<string>)
    requires argv != [] ==> IsIdentifier(argv[0])
    ensures Count(WordTokens(argv), 0) == Some(|argv|)
  {
    if argv != [] {
      CountWords(argv[..|argv| - 1]);
      CountAppends(WordTokens(argv[..|argv| - 1]), [Word(argv[|argv| - 1])], 0);
    }
  }

  lemma {:induction false} CountClosed(segments: seq<seq<string>>, operators: seq<string>)
    requires |operators| == |segments|
    requires forall i :: 0 <= i < |segments| ==> GoodSegment(segments[i])
    requires forall i :: 0 <= i < |operators| ==> IsOperator(operators[i])
    ensures Count(Closed(segments, operators), 0) == Some(0)
  {
    if segments != [] {
      var n := |segments| - 1;
      var front := Closed(segments[..n], operators[..n]);
      CountClosed(segments[..n], operators[..n]);
      CountWords(segments[n]);
      CountAppends(front, WordTokens(segments[n]), 0);
      CountAppends(front + WordTokens(segments[n]), [Op(operators[n])], 0);
    }
  }

  lemma ProperCounts(c: Command)
    requires Proper(c)
    ensures WholeCommand(Tokens(c), 0)
  {
    var n := |c.segments| - 1;
    CountClosed(c.segments[..n], c.operators);
    CountWords(c.segments[n]);
    CountAppends(Closed(c.segments[..n], c.operators), WordTokens(c.segments[n]), 0);
  }

  /** Two commands with the same tokens are the same. */
  lemma {:induction false} TokensTell(s1: seq<seq<string>>, o1: seq<string>, a1: seq<string>, s2: seq<seq<string>>, o2: seq<string>, a2: seq<string>)
    requires |s1| == |o1| && |s2| == |o2|
    requires Closed(s1, o1) + WordTokens(a1) == Closed(s2, o2) + WordTokens(a2)
    ensures s1 == s2 && o1 == o2 && a1 == a2
    decreases |s1|, |a1|
  {
    EndsIn(s1, o1, a1);
    EndsIn(s2, o2, a2);
    if a1 != [] {
      SameLastWord(s1, o1, a1, s2, o2, a2);
      TokensTell(s1, o1, a1[..|a1| - 1], s2, o2, a2[..|a2| - 1]);
      SameWhole(a1, a2);
    } else if s1 != [] {
      var n1, n2 := |s1| - 1, |s2| - 1;
      SameLastOperator(s1, o1, s2, o2);
      TokensTell(s1[..n1], o1[..n1], s1[n1], s2[..n2], o2[..n2], s2[n2]);
      SameWhole(s1, s2);
      SameWhole(o1, o2);
    }
  }

  lemma SameWhole<T>(a: seq<T>, b: seq<T>)
    requires a != [] && b != [] && a[..|a| - 1] == b[..|b| - 1] && a[|a| - 1] == b[|b| - 1]
    ensures a == b
  {
    assert a == a[..|a| - 1] + [a[|a| - 1]] && b == b[..|b| - 1] + [b[|b| - 1]];
  }

  lemma {:induction false} SameLastWord(s1: seq<seq<string>>, o1: seq<string>, a1: seq<string>, s2: seq<seq<string>>, o2: seq<string>, a2: seq<string>)
    requires |s1| == |o1| && |s2| == |o2| && a1 != [] && a2 != []
    requires Closed(s1, o1) + WordTokens(a1) == Closed(s2, o2) + WordTokens(a2)
    ensures a1[|a1| - 1] == a2[|a2| - 1]
    ensures Closed(s1, o1) + WordTokens(a1[..|a1| - 1]) == Closed(s2, o2) + WordTokens(a2[..|a2| - 1])
  {
    DropLast(Closed(s1, o1), WordTokens(a1[..|a1| - 1]), Word(a1[|a1| - 1]));
    DropLast(Closed(s2, o2), WordTokens(a2[..|a2| - 1]), Word(a2[|a2| - 1]));
  }

  lemma {:induction false} SameLastOperator(s1: seq<seq<string>>, o1: seq<string>, s2: seq<seq<string>>, o2: seq<string>)
    requires |s1| == |o1| && |s2| == |o2| && s1 != [] && s2 != []
    requires Closed(s1, o1) + WordTokens([]) == Closed(s2, o2) + WordTokens([])
    ensures
      var n1, n2 := |s1| - 1, |s2| - 1;
      && o1[n1] == o2[n2]
      && Closed(s1[..n1], o1[..n1]) + WordTokens(s1[n1]) == Closed(s2[..n2], o2[..n2]) + WordTokens(s2[n2])
  {
    CutsOff(s1, o1);
    CutsOff(s2, o2);
  }

  /** Closed segments end in an operator, and what is before it are the words of the last one. */
  lemma {:induction false} CutsOff(segments: seq<seq<string>>, operators: seq<string>)
    requires |segments| == |operators| && segments != []
    ensures
      var n, t := |segments| - 1, Closed(segments, operators) + WordTokens([]);
      && t != [] && t[|t| - 1] == Op(operators[n])
      && t[..|t| - 1] == Closed(segments[..n], operators[..n]) + WordTokens(segments[n])
  {
    var n := |segments| - 1;
    var front := Closed(segments[..n], operators[..n]) + WordTokens(segments[n]);
    assert Closed(segments, operators) + WordTokens([]) == front + [Op(operators[n])];
  }

  lemma DropLast(a: seq<Token>, b: seq<Token>, last: Token)
    ensures (a + (b + [last]))[..|a| + |b|] == a + b && (a + (b + [last]))[|a| + |b|] == last
  {
  }

  /** The last token tells whether words are open, segments closed or nothing is there. */
  lemma EndsIn(segments: seq<seq<string>>, operators: seq<string>, argv: seq<string>)
    requires |segments| == |operators|
    ensures var t := Closed(segments, operators) + WordTokens(argv);
            && (t == [] <==> segments == [] && argv == [])
            && (t != [] ==> (t[|t| - 1].Word? <==> argv != []))
  {
  }

  // ---- What is accepted ----

  /** The segment that `st` has open starts with a plain name. */
  predicate Named(st: State) { st.argv != [] ==> IsIdentifier(st.argv[0]) }

  /** Read as tokens, the rest of the command line completes what `st` has open. */
  ghost predicate Completes(st: State, s: string) {
    && Sane(st) && Named(st) && Fault(st.quote, s) == None
    && Read(st, s).Some? && WholeCommand(Read(st, s).value, |st.argv|)
  }

  /** Such a rest is read to its end. */
  lemma {:induction false} CompletedIsRead(s: string, st: State)
    requires Completes(st, s)
    ensures Run(s, st).Ok? && Run(s, st).value.quote == Bare && FlushSegment(Run(s, st).value).Ok?
    decreases |s|
  {
    if s == "" {
      FlushesAt(st, []);
    } else if st.quote != Bare {
      QuotedStep(s, st);
      CompletedIsRead(s[QuotedNext(s, st).0..], QuotedNext(s, st).1);
    } else if s[0] == ' ' || s[0] == '\t' {
      BlankCompletes(s, st);
      CompletedIsRead(s[1..], FlushWord(st));
    } else if s[0] == '|' || s[0] == '&' || s[0] == ';' {
      OperatorCompletes(s, st);
      CompletedIsRead(s[|OperatorAt(s)|..], WithOperator(FlushSegment(st).value, OperatorAt(s)));
    } else {
      var (n, next) := InWord(s, st);
      WordCompletes(s, st);
      CompletedIsRead(s[n..], next);
    }
  }

  /** One character inside quotes: how much of `s` it takes and the state after it. */
  function QuotedNext(s: string, st: State): (nat, State)
    requires s != ""
  {
    if st.quote == Single then (1, if s[0] == '\'' then st.(quote := Bare) else Add(st, s[0]))
    else if s[0] == '\\' && |s| > 1 then (2, Add(st, s[1]).(started := true))
    else (1, if s[0] == '"' then st.(quote := Bare) else Add(st, s[0]))
  }

  lemma QuotedStep(s: string, st: State)
    requires Completes(st, s) && st.quote != Bare && s != ""
    ensures var (n, next) := QuotedNext(s, st);
            n <= |s| && Completes(next, s[n..]) && Run(s, st) == Run(s[n..], next)
  {
    if st.quote == Double && s[0] == '\\' { assert st.word + [s[1]] == Add(st, s[1]).word; }
  }

  lemma WordCompletes(s: string, st: State)
    requires Completes(st, s) && st.quote == Bare
    requires s != "" && s[0] != ' ' && s[0] != '\t' && s[0] != '|' && s[0] != '&' && s[0] != ';'
    ensures var (n, next) := InWord(s, st);
            n <= |s| && Completes(next, s[n..]) && Run(s, st) == Run(s[n..], next)
  {
    if s[0] == '\\' {
      EscapeCompletes(s, st);
    } else if s[0] == '\'' || s[0] == '"' {
      QuoteCompletes(s, st);
    } else {
      PlainCompletes(s, st);
    }
  }

  lemma EscapeCompletes(s: string, st: State)
    requires Completes(st, s) && st.quote == Bare && s != "" && s[0] == '\\'
    ensures |s| > 1 && Completes(Add(st, s[1]).(started := true), s[2..]) && Run(s, st) == Run(s[2..], Add(st, s[1]).(started := true))
  {
  }

  lemma QuoteCompletes(s: string, st: State)
    requires Completes(st, s) && st.quote == Bare && s != "" && (s[0] == '\'' || s[0] == '"')
    ensures var next := st.(quote := if s[0] == '"' then Double else Single, started := true);
            Completes(next, s[1..]) && Run(s, st) == Run(s[1..], next)
  {
  }

  /** What a faultless text can have outside quotes, if it is no quote, blank, backslash or operator. */
  lemma PlainIsPlain(s: string)
    requires s != "" && Fault(Bare, s) == None && s[0] !in " \t|&;\\'\""
    ensures s[0] !in "\0\r\n$`<>()*?[{}~#" && Fault(Bare, s[1..]) == None
  {
  }

  lemma PlainCompletes(s: string, st: State)
    requires Completes(st, s) && st.quote == Bare && s != "" && s[0] !in " \t|&;\\'\""
    ensures var next := Add(st, s[0]).(started := true);
            Completes(next, s[1..]) && Run(s, st) == Run(s[1..], next)
  {
    PlainIsPlain(s);
  }

  /** Where the words of a segment end, an operator or the end can follow. */
  lemma FlushesAt(st: State, rest: seq<Token>)
    requires Sane(st) && Named(st) && WholeCommand(Delimited(WordOf(st)) + rest, |st.argv|)
    requires rest == [] || rest[0].Op?
    ensures FlushSegment(st).Ok?
  {
    CountAppends(Delimited(WordOf(st)), rest, |st.argv|);
  }

  lemma BlankCompletes(s: string, st: State)
    requires Completes(st, s) && st.quote == Bare && s != "" && (s[0] == ' ' || s[0] == '\t')
    ensures Completes(FlushWord(st), s[1..]) && Run(s, st) == Run(s[1..], FlushWord(st))
  {
    FlushedTokens(st);
    CountAppends(Delimited(WordOf(st)), Lex(None, s[1..]).value, |st.argv|);
  }

  /** The operator that the POSIX rules find is one the parser knows. */
  lemma OperatorIsKnown(s: string, st: State)
    requires Completes(st, s) && st.quote == Bare && s != "" && (s[0] == '|' || s[0] == '&' || s[0] == ';')
    ensures var op := OperatorAt(s);
            && op != "&" && Lex(None, s[|op|..]).Some?
            && Read(st, s).value == Delimited(WordOf(st)) + [Op(op)] + Lex(None, s[|op|..]).value
            && WholeCommand(Lex(None, s[|op|..]).value, 0)
  {
    var words := Delimited(WordOf(st));
    var op := if |s| > 1 && s[1] == s[0] then s[..2] else s[..1];
    LexAtOperator(WordOf(st), s);
    var rest := Lex(None, s[|op|..]).value;
    CountAppends(words + [Op(op)], rest, |st.argv|);
    CountAppends(words, [Op(op)], |st.argv|);
    assert op == OperatorAt(s);
  }

  lemma LexAtOperator(word: Option<string>, s: string)
    requires s != "" && (s[0] == '|' || s[0] == '&' || s[0] == ';')
    ensures var op := if |s| > 1 && s[1] == s[0] then s[..2] else s[..1];
            Lex(word, s) == Prepend(Delimited(word) + [Op(op)], Lex(None, s[|op|..]))
  {
  }

  lemma OperatorRuns(s: string, st: State)
    requires st.quote == Bare && s != "" && (s[0] == '|' || s[0] == '&' || s[0] == ';')
    requires OperatorAt(s) != "&" && FlushSegment(st).Ok?
    ensures Run(s, st) == Run(s[|OperatorAt(s)|..], WithOperator(FlushSegment(st).value, OperatorAt(s)))
  {
  }

  lemma {:induction false} OperatorFlushes(s: string, st: State)
    requires Completes(st, s) && st.quote == Bare && s != "" && (s[0] == '|' || s[0] == '&' || s[0] == ';')
    ensures FlushSegment(st).Ok?
  {
    OperatorIsKnown(s, st);
    var op := OperatorAt(s);
    var words, rest := Delimited(WordOf(st)), Lex(None, s[|op|..]).value;
    Regrouped(words, [Op(op)], rest);
    FlushesAt(st, [Op(op)] + rest);
  }

  lemma Regrouped<T>(a: seq<T>, b: seq<T>, c: seq<T>)
    ensures a + b + c == a + (b + c)
  {
  }

  lemma {:induction false} OperatorCompletes(s: string, st: State)
    requires Completes(st, s) && st.quote == Bare && s != "" && (s[0] == '|' || s[0] == '&' || s[0] == ';')
    ensures FlushSegment(st).Ok?
    ensures var next := WithOperator(FlushSegment(st).value, OperatorAt(s));
            Completes(next, s[|OperatorAt(s)|..]) && Run(s, st) == Run(s[|OperatorAt(s)|..], next)
  {
    FaultAfterOperator(s);
    OperatorIsKnown(s, st);
    OperatorFlushes(s, st);
    ClosedTokens(st, OperatorAt(s));
    OperatorRuns(s, st);
  }

  /** The text is not too long, no character of it is wrong where it stands, and POSIX reads command `c` in it. */
  ghost predicate Spells(input: string, c: Command) {
    && |input| <= 32 * 1024 && Fault(Bare, input) == None
    && Proper(c) && |c.segments| <= 16 && Lex(None, input) == Some(Tokens(c))
  }

  /** The parser accepts a text as a command exactly when the text spells it. */
  lemma AcceptedIff(input: string, c: Command)
    ensures Parsed(input) == Ok(c) <==> Spells(input, c)
  {
    if Parsed(input) == Ok(c) {
      RunIsFaultless(input, INITIAL, Run(input, INITIAL).value);
      ParsedIsWellFormed(input);
      ParseAgreesWithPosix(input);
    }
    if Spells(input, c) {
      ProperCounts(c);
      CompletedIsRead(input, INITIAL);
      ReadAs(input, c);
    }
  }

  /** What is read to its end is read as the command it spells. */
  lemma ReadAs(input: string, c: Command)
    requires Spells(input, c) && Run(input, INITIAL).Ok?
    requires Run(input, INITIAL).value.quote == Bare && FlushSegment(Run(input, INITIAL).value).Ok?
    ensures FlushSegment(Run(input, INITIAL).value).value.out == c
  {
    var fin := Run(input, INITIAL).value;
    var out := FlushSegment(fin).value.out;
    RunReads(input, INITIAL, fin);
    LastTokens(fin);
    assert SoFar(INITIAL) == [];
    assert [] + Tokens(c) == Tokens(c);
    SameTokensSameCommand(out, c);
  }

  lemma SameTokensSameCommand(c: Command, d: Command)
    requires |c.operators| + 1 == |c.segments| && |d.operators| + 1 == |d.segments| && Tokens(c) == Tokens(d)
    ensures c == d
  {
    var m, n := |c.segments| - 1, |d.segments| - 1;
    TokensTell(c.segments[..m], c.operators, c.segments[m], d.segments[..n], d.operators, d.segments[n]);
    assert c.segments == c.segments[..m] + [c.segments[m]] && d.segments == d.segments[..n] + [d.segments[n]];
  }
}
