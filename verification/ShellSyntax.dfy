/**
 Commands as lists of literal arguments, and two readings of a command line: the restricted parser and the
 quoting and token rules of the POSIX.1-2017 Shell Command Language. A string holds one byte per character.
 */
module ShellSyntax {
  import opened Base

  datatype Command = Command(segments: seq<seq<string>>, operators: seq<string>)

  datatype ParseError =
    | TooLong | LineOrNul | LoneBackslash | EscapedLineOrNul | OddEscape | Expansion | Background
    | EmptySegment | BadName | Unsupported | Unclosed | TooManySegments

  const MAX_LENGTH: nat := 32_768
  const MAX_SEGMENTS: nat := 16

  predicate IsLineOrNul(c: char) { c == '\0' || c == '\r' || c == '\n' }

  /** What a backslash may stand before inside double quotes. */
  predicate IsQuotedEscape(c: char) { c == '$' || c == '`' || c == '"' || c == '\\' }

  predicate IsUnsupported(c: char) { c in "<>()*?[{}~#" }

  predicate IsLetter(c: char) { 'a' <= c <= 'z' || 'A' <= c <= 'Z' || c == '_' }

  /** An ordinary executable name. */
  predicate IsIdentifier(s: string) {
    s != "" && IsLetter(s[0]) && forall i :: 0 <= i < |s| ==> IsLetter(s[i]) || '0' <= s[i] <= '9' || s[i] == '-'
  }

  // ---- The restricted parser ----

  datatype Quote = Bare | Single | Double

  datatype State = State(word: string, started: bool, argv: seq<string>, quote: Quote, out: Command)

  const INITIAL := State("", false, [], Bare, Command([], []))

  function FlushWord(st: State): State {
    if st.started then st.(word := "", started := false, argv := st.argv + [st.word]) else st
  }

  function FlushSegment(st: State): Result<State, ParseError> {
    var flushed := FlushWord(st);
    if flushed.argv == [] then Err(EmptySegment)
    else if !IsIdentifier(flushed.argv[0]) then Err(BadName)
    else Ok(flushed.(argv := [], out := flushed.out.(segments := flushed.out.segments + [flushed.argv])))
  }

  function Add(st: State, c: char): State { st.(word := st.word + [c]) }

  /** The operator at the front of `s`: doubled when it stands twice, except for the semicolon. */
  function OperatorAt(s: string): (op: string)
    requires s != ""
    ensures 0 < |op| <= |s|
  {
    if |s| > 1 && s[1] == s[0] && s[0] != ';' then s[..2] else s[..1]
  }

  /** The rest of the command line, read from state `st`. */
  function Run(s: string, st: State): Result<State, ParseError>
    decreases |s|
  {
    if s == "" then Ok(st)
    else if IsLineOrNul(s[0]) then Err(LineOrNul)
    else if st.quote == Single then
      Run(s[1..], if s[0] == '\'' then st.(quote := Bare) else Add(st, s[0]))
    else if s[0] == '\\' then
      if |s| == 1 then Err(LoneBackslash)
      else if IsLineOrNul(s[1]) then Err(EscapedLineOrNul)
      else if st.quote == Double && !IsQuotedEscape(s[1]) then Err(OddEscape)
      else Run(s[2..], Add(st, s[1]).(started := true))
    else if s[0] == '$' || s[0] == '`' then Err(Expansion)
    else if st.quote == Double then
      Run(s[1..], if s[0] == '"' then st.(quote := Bare) else Add(st, s[0]))
    else if s[0] == '\'' then Run(s[1..], st.(quote := Single, started := true))
    else if s[0] == '"' then Run(s[1..], st.(quote := Double, started := true))
    else if s[0] == ' ' || s[0] == '\t' then Run(s[1..], FlushWord(st))
    else if s[0] == '|' || s[0] == '&' || s[0] == ';' then
      var op := OperatorAt(s);
      if op == "&" then Err(Background)
      else
        match FlushSegment(st)
        case Err(e) => Err(e)
        case Ok(next) => Run(s[|op|..], next.(out := next.out.(operators := next.out.operators + [op])))
    else if IsUnsupported(s[0]) then Err(Unsupported)
    else Run(s[1..], Add(st, s[0]).(started := true))
  }

  function Parsed(input: string): Result<Command, ParseError> {
    if |input| > MAX_LENGTH then Err(TooLong)
    else
      match Run(input, INITIAL)
      case Err(e) => Err(e)
      case Ok(st) =>
        if st.quote != Bare then Err(Unclosed)
        else
          match FlushSegment(st)
          case Err(e) => Err(e)
          case Ok(last) => if |last.out.segments| > MAX_SEGMENTS then Err(TooManySegments) else Ok(last.out)
  }

  // ---- The printer ----

  /** A single quote cannot stand inside single quotes: it is put between double quotes. */
  function Escaped(arg: string): string {
    if arg == "" then ""
    else Escaped(arg[..|arg| - 1]) + if arg[|arg| - 1] == '\'' then "'\"'\"'" else [arg[|arg| - 1]]
  }

  function Quoted(arg: string): string { "'" + Escaped(arg) + "'" }

  function Words(argv: seq<string>): string {
    if argv == [] then ""
    else if |argv| == 1 then Quoted(argv[0])
    else Words(argv[..|argv| - 1]) + " " + Quoted(argv[|argv| - 1])
  }

  function Printed(segments: seq<seq<string>>, operators: seq<string>): string
    requires |operators| + 1 >= |segments|
  {
    if segments == [] then ""
    else if |segments| == 1 then Words(segments[0])
    else
      var n := |segments| - 1;
      Printed(segments[..n], operators) + " " + operators[n - 1] + " " + Words(segments[n])
  }

  // ---- The token rules and the quoting rules (sections 2.2 and 2.3) ----

  datatype Token = Word(text: string) | Op(symbol: string)

  predicate IsOperatorChar(c: char) { c in "|&;<>()\n" }

  /** An expansion, a pattern or a brace: what this reading does not go into. */
  predicate IsOutside(c: char) { c in "*?[~{}" }

  function Current(word: Option<string>): string { if word.Some? then word.value else "" }

  function Delimited(word: Option<string>): seq<Token> { if word.Some? then [Word(word.value)] else [] }

  function Prepend(tokens: seq<Token>, rest: Option<seq<Token>>): Option<seq<Token>> {
    if rest.Some? then Some(tokens + rest.value) else None
  }

  /** Outside quotes: a word ends at a blank or an operator; a backslash keeps the next character. */
  function Lex(word: Option<string>, s: string): Option<seq<Token>>
    decreases |s|
  {
    if s == "" then Some(Delimited(word))
    else if s[0] == ' ' || s[0] == '\t' then Prepend(Delimited(word), Lex(None, s[1..]))
    else if s[0] == '\\' then
      if |s| == 1 then None
      else if s[1] == '\n' then Lex(word, s[2..])
      else Lex(Some(Current(word) + [s[1]]), s[2..])
    else if s[0] == '\'' then LexSingle(Current(word), s[1..])
    else if s[0] == '"' then LexDouble(Current(word), s[1..])
    else if s[0] == '$' || s[0] == '`' || IsOutside(s[0]) then None
    else if IsOperatorChar(s[0]) then
      var op := if |s| > 1 && s[1] == s[0] && s[0] in "|&;<>" then s[..2] else s[..1];
      Prepend(Delimited(word) + [Op(op)], Lex(None, s[|op|..]))
    else if s[0] == '#' && word.None? then None
    else Lex(Some(Current(word) + [s[0]]), s[1..])
  }

  /** Section 2.2.2: every character up to the next single quote is literal. */
  function LexSingle(word: string, s: string): Option<seq<Token>>
    decreases |s|
  {
    if s == "" then None
    else if s[0] == '\'' then Lex(Some(word), s[1..])
    else LexSingle(word + [s[0]], s[1..])
  }

  /** Section 2.2.3: a backslash is special only before a dollar sign, a backquote, a quote, a backslash or a newline. */
  function LexDouble(word: string, s: string): Option<seq<Token>>
    decreases |s|
  {
    if s == "" then None
    else if s[0] == '"' then Lex(Some(word), s[1..])
    else if s[0] == '$' || s[0] == '`' then None
    else if s[0] == '\\' then
      if |s| == 1 then None
      else if s[1] == '\n' then LexDouble(word, s[2..])
      else if IsQuotedEscape(s[1]) then LexDouble(word + [s[1]], s[2..])
      else LexDouble(word + s[..2], s[2..])
    else LexDouble(word + [s[0]], s[1..])
  }

  /** The tokens of a command: its words, with an operator after every segment but the last. */
  function WordTokens(argv: seq<string>): seq<Token> {
    if argv == [] then [] else WordTokens(argv[..|argv| - 1]) + [Word(argv[|argv| - 1])]
  }

  /** Segments each followed by its operator. */
  function Closed(segments: seq<seq<string>>, operators: seq<string>): seq<Token>
    requires |operators| == |segments|
  {
    if segments == [] then []
    else
      var n := |segments| - 1;
      Closed(segments[..n], operators[..n]) + WordTokens(segments[n]) + [Op(operators[n])]
  }

  function Tokens(c: Command): seq<Token>
    requires |c.operators| + 1 == |c.segments|
  {
    var n := |c.segments| - 1;
    Closed(c.segments[..n], c.operators) + WordTokens(c.segments[n])
  }

  // ---- The commands the parser can produce ----

  ghost predicate IsOperator(op: string) { op == "|" || op == "||" || op == "&&" || op == ";" }

  ghost predicate Printable(arg: string) { forall i :: 0 <= i < |arg| ==> !IsLineOrNul(arg[i]) }

  ghost predicate GoodSegment(argv: seq<string>) {
    argv != [] && IsIdentifier(argv[0]) && forall i :: 0 <= i < |argv| ==> Printable(argv[i])
  }

  ghost predicate WellFormed(c: Command) { Proper(c) && |c.segments| <= MAX_SEGMENTS }

  ghost predicate Proper(c: Command) {
    && c.segments != [] && |c.operators| + 1 == |c.segments|
    && (forall i :: 0 <= i < |c.segments| ==> GoodSegment(c.segments[i]))
    && forall i :: 0 <= i < |c.operators| ==> IsOperator(c.operators[i])
  }
}
