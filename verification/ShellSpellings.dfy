/** The ways to write a command: bare words, double quotes and backslashes mean what single quotes mean. */
module ShellSpellings {
  import opened Base
  import opened ShellSyntax
  import opened ShellTheorems
  import opened ShellAcceptance

  /** In ASCII: A to Z, a to z and the underscore; digits and the dash come after the first character. */
  lemma NameIsAscii(s: string)
    ensures IsIdentifier(s) <==>
              && s != "" && (forall i :: 0 <= i < |s| ==> NameByte(s[i] as int))
              && !(48 <= s[0] as int <= 57) && s[0] as int != 45
  {
    if s != "" && forall i :: 0 <= i < |s| ==> NameByte(s[i] as int) {
      forall i | 0 <= i < |s| ensures IsLetter(s[i]) || '0' <= s[i] <= '9' || s[i] == '-' { assert NameByte(s[i] as int); }
    }
  }

  predicate NameByte(b: int) { 65 <= b <= 90 || 97 <= b <= 122 || b == 95 || 48 <= b <= 57 || b == 45 }

  // ---- Bare words ----

  /** A character without a meaning to the shell. */
  predicate IsPlain(c: char) { c !in "\0\r\n \t|&;\\$`'\"<>()*?[{}~#" }

  lemma {:induction false} RunPlain(word: string, rest: string, st: State)
    requires st.quote == Bare && forall i :: 0 <= i < |word| ==> IsPlain(word[i])
    ensures Run(word + rest, st) == Run(rest, if word == "" then st else st.(word := st.word + word, started := true))
    decreases |word|
  {
    if word == "" {
      assert word + rest == rest;
    } else {
      assert (word + rest)[1..] == word[1..] + rest;
      PlainTurn(word + rest, st);
      var next := Add(st, word[0]).(started := true);
      RunPlain(word[1..], rest, next);
      assert word == [word[0]] + word[1..];
      assert next.word + word[1..] == st.word + word;
      if word[1..] == "" { assert next.word == st.word + word; }
    }
  }

  lemma PlainTurn(s: string, st: State)
    requires st.quote == Bare && s != "" && IsPlain(s[0])
    ensures Run(s, st) == Run(s[1..], Add(st, s[0]).(started := true))
  {
  }

  lemma {:induction false} RunGap(gap: string, rest: string, st: State)
    requires st.quote == Bare && gap != "" && forall i :: 0 <= i < |gap| ==> gap[i] in " \t"
    ensures Run(gap + rest, st) == Run(rest, FlushWord(st))
    decreases |gap|
  {
    assert (gap + rest)[1..] == gap[1..] + rest;
    if |gap| == 1 {
      assert gap[1..] + rest == rest;
    } else {
      RunGap(gap[1..], rest, FlushWord(st));
    }
  }

  /** The words of a segment as they are, with `gap` between them. */
  function Joined(argv: seq<string>, gap: string): string {
    if argv == [] then ""
    else if |argv| == 1 then argv[0]
    else Joined(argv[..|argv| - 1], gap) + gap + argv[|argv| - 1]
  }

  predicate PlainWord(word: string) { word != "" && forall i :: 0 <= i < |word| ==> IsPlain(word[i]) }

  predicate IsGap(gap: string) { gap != "" && forall i :: 0 <= i < |gap| ==> gap[i] in " \t" }

  lemma RunPlainWord(word: string, rest: string, st: State)
    requires st.quote == Bare && st.word == "" && PlainWord(word)
    ensures Run(word + rest, st) == Run(rest, Holding(st, word))
  {
    RunPlain(word, rest, st);
    assert "" + word == word;
  }

  lemma JoinedTail(init: string, gap: string, last: string, rest: string)
    ensures init + gap + last + rest == init + (gap + (last + rest))
  {
  }

  lemma {:induction false} RunJoined(argv: seq<string>, gap: string, rest: string, st: State)
    requires st.quote == Bare && st.word == "" && !st.started && st.argv == [] && argv != [] && IsGap(gap)
    requires forall i :: 0 <= i < |argv| ==> PlainWord(argv[i])
    ensures Run(Joined(argv, gap) + rest, st) == Run(rest, AtEndOf(st, argv))
    decreases |argv|
  {
    var n := |argv| - 1;
    if n == 0 {
      RunPlainWord(argv[n], rest, st);
      assert st.(argv := argv[..n]) == st;
    } else {
      var init := argv[..n];
      JoinedTail(Joined(init, gap), gap, argv[n], rest);
      RunJoined(init, gap, gap + (argv[n] + rest), st);
      RunGap(gap, argv[n] + rest, AtEndOf(st, init));
      assert init[..n - 1] + [init[n - 1]] == init;
      RunPlainWord(argv[n], rest, st.(argv := init));
    }
  }

  /** A command as a person types it: bare words and operators, blanks or tabs between them. */
  function Typed(segments: seq<seq<string>>, operators: seq<string>, gap: string): string
    requires |operators| + 1 >= |segments|
  {
    if segments == [] then ""
    else if |segments| == 1 then Joined(segments[0], gap)
    else
      var n := |segments| - 1;
      Typed(segments[..n], operators, gap) + gap + operators[n - 1] + gap + Joined(segments[n], gap)
  }

  predicate PlainSegment(argv: seq<string>) {
    argv != [] && IsIdentifier(argv[0]) && forall i :: 0 <= i < |argv| ==> PlainWord(argv[i])
  }

  lemma TypedTail(init: string, gap: string, op: string, words: string, rest: string)
    ensures init + gap + op + gap + words + rest == init + (gap + (op + (gap + (words + rest))))
  {
  }

  lemma TypedOperator(op: string, gap: string, rest: string, st: State)
    requires IsOperator(op) && IsGap(gap) && st.quote == Bare && FlushSegment(st).Ok?
    ensures Run(op + (gap + rest), st) == Run(gap + rest, WithOperator(FlushSegment(st).value, op))
  {
    var s := op + (gap + rest);
    assert s[0] == op[0] && s[|op|] == gap[0];
    assert OperatorAt(s) == op;
    assert s[|op|..] == gap + rest;
  }

  /** From the end of one segment over its operator to the start of the next. */
  lemma TypedNext(init: seq<seq<string>>, operators: seq<string>, op: string, gap: string, tail: string)
    requires init != [] && PlainSegment(init[|init| - 1]) && |operators| + 1 >= |init| && IsOperator(op) && IsGap(gap)
    ensures Run(gap + (op + (gap + tail)), AtEndOfAll(init, operators))
         == Run(tail, INITIAL.(out := Command(init, operators[..|init| - 1] + [op])))
  {
    var st := AtEndOfAll(init, operators);
    RunGap(gap, op + (gap + tail), st);
    FlushTyped(init, operators);
    assert FlushSegment(FlushWord(st)) == FlushSegment(st);
    TypedOperator(op, gap, tail, FlushWord(st));
    RunGap(gap, tail, INITIAL.(out := Command(init, operators[..|init| - 1] + [op])));
  }

  lemma FlushTyped(segments: seq<seq<string>>, operators: seq<string>)
    requires segments != [] && PlainSegment(segments[|segments| - 1]) && |operators| + 1 >= |segments|
    ensures FlushSegment(AtEndOfAll(segments, operators))
         == Ok(INITIAL.(out := Command(segments, operators[..|segments| - 1])))
  {
    var argv := segments[|segments| - 1];
    assert argv[..|argv| - 1] + [argv[|argv| - 1]] == argv;
    assert segments[..|segments| - 1] + [argv] == segments;
  }

  lemma {:induction false} RunTyped(segments: seq<seq<string>>, operators: seq<string>, gap: string, rest: string)
    requires segments != [] && |operators| + 1 >= |segments| && IsGap(gap)
    requires forall i :: 0 <= i < |segments| ==> PlainSegment(segments[i])
    requires forall i :: 0 <= i < |operators| ==> IsOperator(operators[i])
    ensures PlainSegment(segments[|segments| - 1])
    ensures Run(Typed(segments, operators, gap) + rest, INITIAL) == Run(rest, AtEndOfAll(segments, operators))
    decreases |segments|
  {
    var n := |segments| - 1;
    if n == 0 {
      RunJoined(segments[0], gap, rest, INITIAL);
      assert INITIAL.(out := Command(segments[..0], operators[..0])) == INITIAL;
    } else {
      var init, op, words := segments[..n], operators[n - 1], Joined(segments[n], gap);
      TypedTail(Typed(init, operators, gap), gap, op, words, rest);
      RunTyped(init, operators, gap, gap + (op + (gap + (words + rest))));
      TypedLast(segments, operators, gap, rest);
    }
  }

  lemma TypedLast(segments: seq<seq<string>>, operators: seq<string>, gap: string, rest: string)
    requires |segments| > 1 && |operators| + 1 >= |segments| && IsOperator(operators[|segments| - 2]) && IsGap(gap)
    requires PlainSegment(segments[|segments| - 1]) && PlainSegment(segments[|segments| - 2])
    ensures
      var n := |segments| - 1;
      Run(gap + (operators[n - 1] + (gap + (Joined(segments[n], gap) + rest))), AtEndOfAll(segments[..n], operators))
        == Run(rest, AtEndOfAll(segments, operators))
  {
    var n := |segments| - 1;
    TypedNext(segments[..n], operators, operators[n - 1], gap, Joined(segments[n], gap) + rest);
    assert operators[..n - 1] + [operators[n - 1]] == operators[..n];
    RunJoined(segments[n], gap, rest, INITIAL.(out := Command(segments[..n], operators[..n])));
  }

  /** What a person types without any quoting is read as it stands: no plain command is refused or read otherwise. */
  lemma TypedIsParsed(c: Command, gap: string)
    requires c.segments != [] && |c.segments| <= 16 && |c.operators| + 1 == |c.segments| && IsGap(gap)
    requires forall i :: 0 <= i < |c.segments| ==> PlainSegment(c.segments[i])
    requires forall i :: 0 <= i < |c.operators| ==> c.operators[i] in ["|", "||", "&&", ";"]
    ensures Parsed(Typed(c.segments, c.operators, gap))
         == if |Typed(c.segments, c.operators, gap)| > 32 * 1024 then Err(TooLong) else Ok(c)
  {
    var text := Typed(c.segments, c.operators, gap);
    forall i | 0 <= i < |c.operators| ensures IsOperator(c.operators[i]) {}
    RunTyped(c.segments, c.operators, gap, "");
    FlushTyped(c.segments, c.operators);
    assert text + "" == text;
    assert c.operators[..|c.segments| - 1] == c.operators;
  }

  /** A name needs no quoting. */
  lemma NamesArePlain(s: string)
    requires IsIdentifier(s)
    ensures PlainWord(s)
  {
    forall i | 0 <= i < |s| ensures IsPlain(s[i]) { NameCharIsPlain(s[i]); }
  }

  lemma NameCharIsPlain(c: char)
    requires IsLetter(c) || '0' <= c <= '9' || c == '-'
    ensures IsPlain(c)
  {
  }

  lemma TypedExample()
    ensures Parsed("kubectl get pods") == Ok(Command([["kubectl", "get", "pods"]], []))
  {
    var argv := ["kubectl", "get", "pods"];
    NamesArePlain("kubectl");
    NamesArePlain("get");
    NamesArePlain("pods");
    assert argv[..2] == ["kubectl", "get"] && argv[..2][..1] == ["kubectl"];
    assert Joined(argv, " ") == "kubectl get pods";
    TypedIsParsed(Command([argv], []), " ");
  }

  // ---- Double quotes and backslashes ----

  /** A character between double quotes, behind a backslash if it would mean something there. */
  function DoublePiece(c: char): string {
    if c == '$' || c == '`' || c == '"' || c == '\\' then ['\\', c] else [c]
  }

  function InDouble(arg: string): string {
    if arg == "" then "" else DoublePiece(arg[0]) + InDouble(arg[1..])
  }

  /** With a backslash before every character. */
  function InBackslashes(arg: string): string {
    if arg == "" then "" else ['\\', arg[0]] + InBackslashes(arg[1..])
  }

  lemma RunDoublePiece(c: char, tail: string, st: State)
    requires st.quote == Double && st.started && !IsLineOrNul(c)
    ensures Run(DoublePiece(c) + tail, st) == Run(tail, Add(st, c))
  {
    var s := DoublePiece(c) + tail;
    assert s[|DoublePiece(c)|..] == tail;
  }

  lemma RunBackslashPiece(c: char, tail: string, st: State)
    requires st.quote == Bare && !IsLineOrNul(c)
    ensures Run(['\\', c] + tail, st) == Run(tail, Add(st, c).(started := true))
  {
    assert (['\\', c] + tail)[2..] == tail;
  }

  lemma Reassociate(a: string, b: string, c: string)
    ensures a + b + c == a + (b + c)
  {
  }

  lemma {:induction false} RunInDouble(arg: string, rest: string, st: State)
    requires st.quote == Double && st.started && Printable(arg)
    ensures Run(InDouble(arg) + rest, st) == Run(rest, st.(word := st.word + arg))
    decreases |arg|
  {
    if arg == "" {
      assert InDouble(arg) + rest == rest && st.word + arg == st.word;
    } else {
      Reassociate(DoublePiece(arg[0]), InDouble(arg[1..]), rest);
      RunDoublePiece(arg[0], InDouble(arg[1..]) + rest, st);
      RunInDouble(arg[1..], rest, Add(st, arg[0]));
      assert Add(st, arg[0]).word + arg[1..] == st.word + arg;
    }
  }

  lemma {:induction false} RunInBackslashes(arg: string, rest: string, st: State)
    requires st.quote == Bare && Printable(arg) && (arg == "" ==> st.started)
    ensures Run(InBackslashes(arg) + rest, st) == Run(rest, st.(word := st.word + arg, started := true))
    decreases |arg|
  {
    if arg == "" {
      assert InBackslashes(arg) + rest == rest && st.word + arg == st.word;
    } else {
      Reassociate(['\\', arg[0]], InBackslashes(arg[1..]), rest);
      RunBackslashPiece(arg[0], InBackslashes(arg[1..]) + rest, st);
      RunInBackslashes(arg[1..], rest, Add(st, arg[0]).(started := true));
      assert Add(st, arg[0]).word + arg[1..] == st.word + arg;
    }
  }

  lemma RunDoubleQuoted(arg: string, rest: string, st: State)
    requires st.quote == Bare && st.word == "" && Printable(arg)
    ensures Run("\"" + InDouble(arg) + "\"" + rest, st) == Run(rest, Holding(st, arg))
  {
    var s := "\"" + InDouble(arg) + "\"" + rest;
    assert s[0] == '"' && s[1..] == InDouble(arg) + ("\"" + rest);
    RunInDouble(arg, "\"" + rest, st.(quote := Double, started := true));
    assert "" + arg == arg && ("\"" + rest)[1..] == rest;
  }

  /** Every argument can be written in all three ways, and all three are read as the argument itself. */
  lemma {:induction false} QuotingsAgree(arg: string, rest: string, st: State)
    requires st.quote == Bare && st.word == "" && Printable(arg)
    ensures Run("'" + Escaped(arg) + "'" + rest, st) == Run(rest, Holding(st, arg))
    ensures Run("\"" + InDouble(arg) + "\"" + rest, st) == Run(rest, Holding(st, arg))
    ensures arg != "" ==> Run(InBackslashes(arg) + rest, st) == Run(rest, Holding(st, arg))
  {
    assert Quoted(arg) == "'" + Escaped(arg) + "'";
    RunQuoted(arg, rest, st);
    RunDoubleQuoted(arg, rest, st);
    assert "" + arg == arg;
    if arg != "" { RunInBackslashes(arg, rest, st); }
  }
}
