/** Every refusal of the parser has its cause in the text. */
module ShellRefusals {
  import opened Base
  import opened ShellSyntax
  import opened ShellTheorems
  import opened ShellAcceptance

  /** An error that one character, with its quoting, is the cause of. */
  predicate Lexical(e: ParseError) {
    e == LineOrNul || e == LoneBackslash || e == EscapedLineOrNul || e == OddEscape || e == Expansion || e == Unsupported
  }

  predicate Faulty(s: string, st: State, e: ParseError) { Lexical(e) && Fault(st.quote, s) == Some(e) }

  /** `n` characters on, the parser and the quoting both stand at `next`. */
  predicate GoesTo(s: string, st: State, n: nat, next: State) {
    0 < n <= |s| && Run(s, st) == Run(s[n..], next) && Fault(st.quote, s) == Fault(next.quote, s[n..])
  }

  /** How many characters one turn of the parser takes, and the state after it. */
  function Turn(s: string, st: State): (nat, State)
    requires s != ""
  {
    if st.quote != Bare then QuotedNext(s, st)
    else if s[0] == ' ' || s[0] == '\t' then (1, FlushWord(st))
    else if s[0] == '|' || s[0] == '&' || s[0] == ';' then
      (|OperatorAt(s)|, if FlushSegment(st).Ok? then WithOperator(FlushSegment(st).value, OperatorAt(s)) else st)
    else InWord(s, st)
  }

  /** The parser stops in front of `s`: at a lone ampersand, or at an operator behind a segment that is none. */
  ghost predicate StopsAt(s: string, st: State, e: ParseError) {
    && st.quote == Bare && s != "" && (s[0] == '|' || s[0] == '&' || s[0] == ';')
    && if OperatorAt(s) == "&" then e == Background else FlushSegment(st) == Err(e)
  }

  /** One turn: an error in front of `s`, or one further on. */
  lemma TurnOf(s: string, st: State, e: ParseError)
    requires s != "" && Run(s, st) == Err(e)
    ensures Faulty(s, st, e) || StopsAt(s, st, e)
         || GoesTo(s, st, Turn(s, st).0, Turn(s, st).1)
  {
    if st.quote != Bare {
      QuotedTurn(s, st, e);
    } else if s[0] == '|' || s[0] == '&' || s[0] == ';' {
      FaultAfterOperator(s);
    } else if s[0] == '\\' {
      EscapeTurn(s, st, e);
    } else {
      BareTurn(s, st, e);
    }
  }

  lemma QuotedTurn(s: string, st: State, e: ParseError)
    requires s != "" && st.quote != Bare && Run(s, st) == Err(e)
    ensures Faulty(s, st, e)
         || GoesTo(s, st, QuotedNext(s, st).0, QuotedNext(s, st).1)
  {
  }

  lemma EscapeTurn(s: string, st: State, e: ParseError)
    requires s != "" && st.quote == Bare && s[0] == '\\' && Run(s, st) == Err(e)
    ensures Faulty(s, st, e)
         || GoesTo(s, st, InWord(s, st).0, InWord(s, st).1)
  {
  }

  lemma BareTurn(s: string, st: State, e: ParseError)
    requires s != "" && st.quote == Bare && Run(s, st) == Err(e)
    requires s[0] != '\\' && s[0] != '|' && s[0] != '&' && s[0] != ';'
    ensures Faulty(s, st, e)
         || GoesTo(s, st, Turn(s, st).0, Turn(s, st).1)
  {
  }

  /** A turn that the parser takes on `s` it takes on every beginning of `s` that holds it. */
  lemma {:induction false} TurnOnPrefix(s: string, st: State, k: nat, e: ParseError)
    requires s != "" && Run(s, st) == Err(e) && !Faulty(s, st, e) && !StopsAt(s, st, e)
    requires Turn(s, st).0 <= k <= |s|
    ensures 0 < Turn(s, st).0 && Run(s[..k], st) == Run(s[..k][Turn(s, st).0..], Turn(s, st).1)
  {
    if st.quote == Bare && (s[0] == '|' || s[0] == '&' || s[0] == ';') {
      assert OperatorAt(s[..k]) == OperatorAt(s);
    } else if st.quote != Bare {
      QuotedOnPrefix(s, st, k, e);
    } else if s[0] == '\\' {
      EscapeOnPrefix(s, st, k, e);
    } else {
      BareOnPrefix(s, st, k, e);
    }
  }

  lemma {:induction false} QuotedOnPrefix(s: string, st: State, k: nat, e: ParseError)
    requires s != "" && st.quote != Bare && Run(s, st) == Err(e) && !Faulty(s, st, e)
    requires QuotedNext(s, st).0 <= k <= |s|
    ensures Run(s[..k], st) == Run(s[..k][QuotedNext(s, st).0..], QuotedNext(s, st).1)
  {
  }

  lemma {:induction false} EscapeOnPrefix(s: string, st: State, k: nat, e: ParseError)
    requires s != "" && st.quote == Bare && s[0] == '\\' && Run(s, st) == Err(e) && !Faulty(s, st, e)
    requires InWord(s, st).0 <= k <= |s|
    ensures Run(s[..k], st) == Run(s[..k][InWord(s, st).0..], InWord(s, st).1)
  {
  }

  lemma {:induction false} BareOnPrefix(s: string, st: State, k: nat, e: ParseError)
    requires s != "" && st.quote == Bare && Run(s, st) == Err(e) && !Faulty(s, st, e)
    requires s[0] != '\\' && s[0] != '|' && s[0] != '&' && s[0] != ';' && Turn(s, st).0 <= k <= |s|
    ensures Run(s[..k], st) == Run(s[..k][Turn(s, st).0..], Turn(s, st).1)
  {
  }

  /** Up to `k` everything is fine, and there the parser stops. */
  ghost predicate Stopped(s: string, st: State, k: nat, e: ParseError)
    requires k <= |s|
  {
    Run(s[..k], st).Ok? && StopsAt(s[k..], Run(s[..k], st).value, e)
  }

  lemma {:induction false} WhereItStops(s: string, st: State, e: ParseError) returns (k: nat)
    requires Run(s, st) == Err(e)
    ensures k <= |s| && (Faulty(s, st, e) || Stopped(s, st, k, e))
    decreases |s|
  {
    k := 0;
    assert s[..0] == "" && s[0..] == s;
    TurnOf(s, st, e);
    if !Faulty(s, st, e) && !StopsAt(s, st, e) {
      var (n, next) := Turn(s, st);
      var j := WhereItStops(s[n..], next, e);
      k := n + j;
      TurnOnPrefix(s, st, k, e);
      assert s[..k][n..] == s[n..][..j] && s[k..] == s[n..][j..];
    }
  }

  // ---- The twelve causes ----

  /** The tokens in front of position `k`, if the text up to there is whole. */
  ghost predicate ReadsTo(input: string, k: nat, t: seq<Token>) {
    k <= |input| && Fault(Bare, input[..k]) == None && Lex(None, input[..k]) == Some(t)
  }

  /** A segment ends here: at an operator, or where the text does. */
  ghost predicate SegmentEnds(input: string, k: nat)
    requires k <= |input|
  {
    k == |input| || input[k] == '|' || input[k] == '&' || input[k] == ';'
  }

  /** The last segment of `t` starts at `j`, and not with a name. */
  ghost predicate Misnamed(t: seq<Token>, j: nat) {
    j < |t| && t[j].Word? && !IsIdentifier(t[j].text) && (j == 0 || t[j - 1].Op?) && forall i :: j < i < |t| ==> t[i].Word?
  }

  ghost predicate BadSegment(input: string, k: nat, t: seq<Token>, e: ParseError) {
    && ReadsTo(input, k, t)
    && match e
       case Background => k < |input| && input[k] == '&' && (k + 1 == |input| || input[k + 1] != '&')
       case EmptySegment => SegmentEnds(input, k) && (t == [] || t[|t| - 1].Op?)
       case BadName => SegmentEnds(input, k) && exists j :: Misnamed(t, j)
       case _ => false
  }

  ghost predicate HasCause(input: string, e: ParseError) {
    match e
    case TooLong => |input| > 32 * 1024
    case TooManySegments => exists c :: Proper(c) && |c.segments| > 16 && Lex(None, input) == Some(Tokens(c))
    case Background | EmptySegment | BadName => exists k, t :: BadSegment(input, k, t, e)
    case _ => Fault(Bare, input) == Some(e)
  }

  lemma {:induction false} RunLeavesOpen(s: string, st: State, fin: State)
    requires Run(s, st) == Ok(fin) && fin.quote != Bare
    ensures Fault(st.quote, s) == Some(Unclosed)
    decreases |s|
  {
    if s == "" {
    } else if st.quote == Single {
      RunLeavesOpen(s[1..], if s[0] == '\'' then st.(quote := Bare) else Add(st, s[0]), fin);
    } else if s[0] == '\\' {
      RunLeavesOpen(s[2..], Add(st, s[1]).(started := true), fin);
    } else if st.quote == Double {
      RunLeavesOpen(s[1..], if s[0] == '"' then st.(quote := Bare) else Add(st, s[0]), fin);
    } else if s[0] == '\'' || s[0] == '"' {
      RunLeavesOpen(s[1..], st.(quote := if s[0] == '"' then Double else Single, started := true), fin);
    } else if s[0] == ' ' || s[0] == '\t' {
      RunLeavesOpen(s[1..], FlushWord(st), fin);
    } else if s[0] == '|' || s[0] == '&' || s[0] == ';' {
      FaultAfterOperator(s);
      RunLeavesOpen(s[|OperatorAt(s)|..], WithOperator(FlushSegment(st).value, OperatorAt(s)), fin);
    } else {
      RunLeavesOpen(s[1..], Add(st, s[0]).(started := true), fin);
    }
  }

  /** The words of the segment that `st` has open, the last one included. */
  function OpenWords(st: State): seq<string> { FlushWord(st).argv }

  lemma OpenTokens(st: State)
    requires Sane(st) && st.quote == Bare
    ensures SoFar(st) + Delimited(WordOf(st)) == Closed(st.out.segments, st.out.operators) + WordTokens(OpenWords(st))
  {
    FlushedTokens(st);
  }

  lemma {:induction false} WordsAreWords(argv: seq<string>)
    ensures |WordTokens(argv)| == |argv| && forall i :: 0 <= i < |argv| ==> WordTokens(argv)[i] == Word(argv[i])
  {
    if argv != [] { WordsAreWords(argv[..|argv| - 1]); }
  }

  /** A segment that cannot be closed has no word, or a first word that is no name. */
  lemma UnclosableSegment(st: State, e: ParseError)
    requires Sane(st) && st.quote == Bare && FlushSegment(st) == Err(e)
    ensures var t := SoFar(st) + Delimited(WordOf(st));
            || (e == EmptySegment && (t == [] || t[|t| - 1].Op?))
            || (e == BadName && exists j :: Misnamed(t, j))
  {
    var front, words := Closed(st.out.segments, st.out.operators), WordTokens(OpenWords(st));
    OpenTokens(st);
    WordsAreWords(OpenWords(st));
    EndsIn(st.out.segments, st.out.operators, []);
    assert front + [] == front;
    if OpenWords(st) != [] {
      assert e == BadName;
      assert Misnamed(front + words, |front|);
    } else {
      assert front + words == front;
    }
  }

  /** Where the parser stops at a segment, POSIX has read that segment. */
  lemma StoppedIsBadSegment(input: string, k: nat, e: ParseError) returns (t: seq<Token>)
    requires k <= |input| && Run(input[..k], INITIAL).Ok? && Run(input[..k], INITIAL).value.quote == Bare
    requires (k == |input| && FlushSegment(Run(input[..k], INITIAL).value) == Err(e)) || Stopped(input, INITIAL, k, e)
    ensures BadSegment(input, k, t, e)
  {
    var mid := Run(input[..k], INITIAL).value;
    RunIsFaultless(input[..k], INITIAL, mid);
    RunReads(input[..k], INITIAL, mid);
    assert SoFar(INITIAL) == [];
    t := Lex(None, input[..k]).value;
    assert [] + t == t;
    if k == |input| { assert input[..k] == input; }
    if FlushSegment(mid) == Err(e) { UnclosableSegment(mid, e); }
  }

  /** What the parser says is wrong with a text is wrong with it. */
  lemma RefusalHasItsCause(input: string)
    requires Parsed(input).Err?
    ensures HasCause(input, Parsed(input).error)
  {
    var e := Parsed(input).error;
    if |input| <= MAX_LENGTH {
      if Run(input, INITIAL).Err? {
        var k := WhereItStops(input, INITIAL, e);
        if Stopped(input, INITIAL, k, e) { var _ := StoppedIsBadSegment(input, k, e); }
      } else {
        EndHasItsCause(input, Run(input, INITIAL).value);
      }
    }
  }

  lemma EndHasItsCause(input: string, fin: State)
    requires |input| <= MAX_LENGTH && Run(input, INITIAL) == Ok(fin) && Parsed(input).Err?
    ensures HasCause(input, Parsed(input).error)
  {
    if fin.quote != Bare {
      RunLeavesOpen(input, INITIAL, fin);
    } else if FlushSegment(fin).Err? {
      assert input[..|input|] == input;
      var _ := StoppedIsBadSegment(input, |input|, Parsed(input).error);
    } else {
      var out := FlushSegment(fin).value.out;
      RunKeepsGood(input, INITIAL);
      FlushKeepsGood(fin);
      RunReads(input, INITIAL, fin);
      LastTokens(fin);
      assert SoFar(INITIAL) == [];
      assert [] + Lex(None, input).value == Lex(None, input).value;
      assert Proper(out);
    }
  }
}
