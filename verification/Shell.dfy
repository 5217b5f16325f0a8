/** The parser as it runs over the bytes, the printer as it appends to a buffer, and the policy fold over the segments. */
module Shell {
  import opened Base
  import S = ShellSyntax
  import opened ShellSyntax
  import opened ShellTheorems
  import opened ShellAcceptance
  import opened ShellRefusals

  /** The variables of the byte loop and the two steps that several branches share. */
  class Builder {
    var word: string
    var started: bool
    var argv: seq<string>
    var quote: Quote
    var out: Command

    function View(): State
      reads this
    {
      State(word, started, argv, quote, out)
    }

    constructor ()
      ensures View() == INITIAL
    {
      word, started, argv, quote, out := "", false, [], Bare, Command([], []);
    }

    method FlushWord()
      modifies this
      ensures View() == S.FlushWord(old(View()))
    {
      if started {
        argv := argv + [word];
        word, started := "", false;
      }
    }

    method FlushSegment() returns (error: Option<ParseError>)
      modifies this
      ensures error.Some? ==> S.FlushSegment(old(View())) == Err(error.value)
      ensures error.None? ==> S.FlushSegment(old(View())) == Ok(View())
    {
      FlushWord();
      if argv == [] { return Some(EmptySegment); }
      if !IsIdentifier(argv[0]) { return Some(BadName); }
      out := out.(segments := out.segments + [argv]);
      argv := [];
      error := None;
    }

    method WriteByte(c: char)
      modifies this
      ensures View() == Add(old(View()), c)
    {
      word := word + [c];
    }
  }

  /** One turn of the byte loop: reads one or two bytes from position `i`. */
  method Step(b: Builder, input: string, i: nat) returns (next: nat, error: Option<ParseError>)
    requires i < |input|
    modifies b
    ensures error.Some? ==> Run(input[i..], old(b.View())) == Err(error.value)
    ensures error.None? ==> i < next <= |input| && Run(input[i..], old(b.View())) == Run(input[next..], b.View())
  {
    var ch := input[i];
    next, error := i + 1, None;
    assert input[i..][1..] == input[i + 1..];
    assert i + 1 < |input| ==> input[i..][2..] == input[i + 2..];
    if IsLineOrNul(ch) { return next, Some(LineOrNul); }
    if b.quote == Single {
      if ch == '\'' { b.quote := Bare; } else { b.WriteByte(ch); }
    } else if ch == '\\' {
      if i + 1 >= |input| { return next, Some(LoneBackslash); }
      next := i + 2;
      if IsLineOrNul(input[i + 1]) { return next, Some(EscapedLineOrNul); }
      if b.quote == Double && !IsQuotedEscape(input[i + 1]) { return next, Some(OddEscape); }
      b.WriteByte(input[i + 1]);
      b.started := true;
    } else if ch == '$' || ch == '`' {
      error := Some(Expansion);
    } else if b.quote == Double {
      if ch == '"' { b.quote := Bare; } else { b.WriteByte(ch); }
    } else if ch == '\'' || ch == '"' {
      b.quote := if ch == '\'' then Single else Double;
      b.started := true;
    } else if ch == ' ' || ch == '\t' {
      b.FlushWord();
    } else if ch == '|' || ch == '&' || ch == ';' {
      next, error := Operate(b, input, i);
    } else if IsUnsupported(ch) {
      error := Some(Unsupported);
    } else {
      b.WriteByte(ch);
      b.started := true;
    }
  }

  /** An operator ends a segment; the same character again makes it a double one. */
  method Operate(b: Builder, input: string, i: nat) returns (next: nat, error: Option<ParseError>)
    requires i < |input| && b.quote == Bare && (input[i] == '|' || input[i] == '&' || input[i] == ';')
    modifies b
    ensures error.Some? ==> Run(input[i..], old(b.View())) == Err(error.value)
    ensures error.None? ==> i < next <= |input| && Run(input[i..], old(b.View())) == Run(input[next..], b.View())
  {
    var op := [input[i]];
    next := i + 1;
    if i + 1 < |input| && input[i + 1] == input[i] && input[i] != ';' {
      op := op + [input[i]];
      next := i + 2;
    }
    ghost var s := input[i..];
    assert op == OperatorAt(s) && s[|op|..] == input[next..];
    if op == "&" { return next, Some(Background); }
    error := b.FlushSegment();
    if error.Some? { return; }
    b.out := b.out.(operators := b.out.operators + [op]);
  }

  /** The parser. */
  method Parse(input: string) returns (r: Result<Command, ParseError>)
    ensures r == Parsed(input)
    ensures r.Ok? ==> Spells(input, r.value)
    ensures r.Err? ==> HasCause(input, r.error)
  {
    if |input| > MAX_LENGTH { return Err(TooLong); }
    if Parsed(input).Err? { RefusalHasItsCause(input); }
    var b := new Builder();
    var i := 0;
    assert input[0..] == input;
    while i < |input|
      invariant 0 <= i <= |input| && fresh(b)
      invariant Run(input, INITIAL) == Run(input[i..], b.View())
      decreases |input| - i
    {
      var next, error := Step(b, input, i);
      if error.Some? { return Err(error.value); }
      i := next;
    }
    if b.quote != Bare { return Err(Unclosed); }
    var error := b.FlushSegment();
    if error.Some? { return Err(error.value); }
    if |b.out.segments| > MAX_SEGMENTS { return Err(TooManySegments); }
    r := Ok(b.out);
    AcceptedIff(input, r.value);
  }

  /** Replaces every single quote of an argument. */
  method Escape(arg: string) returns (s: string)
    ensures s == Escaped(arg)
  {
    s := "";
    for i := 0 to |arg|
      invariant s == Escaped(arg[..i])
    {
      assert arg[..i + 1][..i] == arg[..i];
      s := s + if arg[i] == '\'' then "'\"'\"'" else [arg[i]];
    }
    assert arg[..|arg|] == arg;
  }

  method PrintWords(argv: seq<string>) returns (s: string)
    ensures s == Words(argv)
  {
    s := "";
    for j := 0 to |argv|
      invariant s == Words(argv[..j])
    {
      if j > 0 { s := s + " "; }
      var escaped := Escape(argv[j]);
      assert argv[..j + 1][..j] == argv[..j];
      s := s + ("'" + escaped + "'");
    }
    assert argv[..|argv|] == argv;
  }

  /** The printer. */
  method Script(c: Command) returns (s: string)
    requires |c.operators| + 1 >= |c.segments|
    ensures s == Printed(c.segments, c.operators)
    ensures WellFormed(c) ==> Parsed(s) == if |s| > MAX_LENGTH then Err(TooLong) else Ok(c)
    ensures Proper(c) ==> Lex(None, s) == Some(Tokens(c))
  {
    s := "";
    for i := 0 to |c.segments|
      invariant s == Printed(c.segments[..i], c.operators)
    {
      if i > 0 { s := s + (" " + c.operators[i - 1] + " "); }
      var words := PrintWords(c.segments[i]);
      assert c.segments[..i + 1][..i] == c.segments[..i];
      s := s + words;
    }
    assert c.segments[..|c.segments|] == c.segments;
    if WellFormed(c) { ParsePrinted(c); }
    if Proper(c) { ScriptMeansCommand(c); }
  }
}
