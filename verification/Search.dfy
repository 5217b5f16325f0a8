/**
 Searching a stored delivery in one pass, with a ring of recent lines and a list of hits still waiting for
 their trailing lines, against the plain reading: split into lines, find the matches, slice.

 A payload is a sequence of runes; the separators are ASCII, so this splits where the bytes would be split.
 */
module Search {
  import opened Base

  type Text = string

  const MAX_LINE_RUNES := 400

  /** One line bounded by runes. */
  function Clip(s: Text): (r: Text)
    ensures |r| <= MAX_LINE_RUNES + 1
    ensures |s| <= MAX_LINE_RUNES ==> r == s
  {
    if |s| <= MAX_LINE_RUNES then s else s[..MAX_LINE_RUNES] + "\U{2026}"
  }

  /** A longer line keeps its first 400 runes and ends in an ellipsis; a shorter one is shown whole. */
  lemma ClipShows(s: Text)
    ensures if |s| <= 400 then Clip(s) == s else |Clip(s)| == 401 && Clip(s)[..400] == s[..400] && Clip(s)[400] == '\U{2026}'
  {
  }

  // ---- Lines ----

  /** Where the first line ends: at its newline, or at the end. */
  function Break(buf: Text): (k: nat)
    ensures k <= |buf| && '\n' !in buf[..k] && (k < |buf| ==> buf[k] == '\n')
  {
    if buf == [] || buf[0] == '\n' then 0
    else
      var k := 1 + Break(buf[1..]);
      assert buf[..k] == [buf[0]] + buf[1..][..k - 1];
      k
  }

  function DropCR(s: Text): Text {
    if |s| > 0 && s[|s| - 1] == '\r' then s[..|s| - 1] else s
  }

  function Rest(buf: Text): Text {
    if Break(buf) < |buf| then buf[Break(buf) + 1..] else []
  }

  /** The lines a line scanner delivers. */
  function Lines(buf: Text): seq<Text>
    decreases |buf|
  {
    if buf == [] then [] else [DropCR(buf[..Break(buf)])] + Lines(Rest(buf))
  }

  function Newlines(buf: Text): nat {
    if buf == [] then 0 else (if buf[0] == '\n' then 1 else 0) + Newlines(buf[1..])
  }

  function CountLines(buf: Text): nat {
    if buf == [] then 0
    else Newlines(buf) + if buf[|buf| - 1] != '\n' then 1 else 0
  }

  lemma {:induction false} NewlinesAppend(a: Text, b: Text)
    ensures Newlines(a + b) == Newlines(a) + Newlines(b)
  {
    if a == [] {
      assert a + b == b;
    } else {
      assert (a + b)[1..] == a[1..] + b;
      NewlinesAppend(a[1..], b);
    }
  }

  lemma {:induction false} NoNewlines(a: Text)
    requires '\n' !in a
    ensures Newlines(a) == 0
  {
    if a != [] { NoNewlines(a[1..]); }
  }

  /** The two ways of counting lines agree on every payload. */
  lemma {:induction false} CountsAgree(buf: Text)
    ensures |Lines(buf)| == CountLines(buf)
    decreases |buf|
  {
    if buf != [] {
      var k := Break(buf);
      NoNewlines(buf[..k]);
      assert buf == buf[..k] + buf[k..];
      NewlinesAppend(buf[..k], buf[k..]);
      CountsAgree(Rest(buf));
      if k < |buf| { assert buf[k..][1..] == Rest(buf); }
    }
  }

  /** Every line with its newline put back. */
  function Join(lines: seq<Text>): Text {
    if lines == [] then [] else lines[0] + "\n" + Join(lines[1..])
  }

  /** A payload whose lines all end in a newline; the newline is added when only it is missing. */
  function Closed(buf: Text): Text {
    if buf == [] || buf[|buf| - 1] == '\n' then buf else buf + "\n"
  }

  lemma {:induction false} ClosedAppend(a: Text, r: Text)
    ensures Closed(a + "\n" + r) == a + "\n" + Closed(r)
  {
    var buf := a + "\n" + r;
    assert buf[|buf| - 1] == if r == [] then '\n' else r[|r| - 1];
    assert a + "\n" + (r + "\n") == buf + "\n";
  }

  lemma {:induction false} ClosedRest(buf: Text)
    requires buf != []
    ensures Closed(buf) == buf[..Break(buf)] + "\n" + Closed(Rest(buf))
  {
    var k := Break(buf);
    if k < |buf| {
      assert buf == buf[..k] + "\n" + Rest(buf);
      ClosedAppend(buf[..k], Rest(buf));
    } else {
      assert buf[..k] == buf;
      assert buf[|buf| - 1] != '\n';
      assert buf + "\n" + Closed([]) == buf + "\n";
    }
  }

  function RawLines(buf: Text): seq<Text>
    decreases |buf|
  {
    if buf == [] then [] else [buf[..Break(buf)]] + RawLines(Rest(buf))
  }

  /** The raw lines and their newlines are the payload, up to a final newline that was not there. */
  lemma {:induction false} RawLinesReassemble(buf: Text)
    ensures Join(RawLines(buf)) == Closed(buf)
    decreases |buf|
  {
    if buf != [] {
      ClosedRest(buf);
      RawLinesReassemble(Rest(buf));
      assert RawLines(buf) == [buf[..Break(buf)]] + RawLines(Rest(buf));
    }
  }

  predicate EndsInReturn(raw: Text) { raw != [] && raw[|raw| - 1] == '\r' }

  /** A raw line is the delivered line, or the delivered line and one carriage return; it holds no newline. */
  lemma {:induction false} LineIsRawLine(buf: Text, i: nat)
    requires i < |Lines(buf)|
    ensures |RawLines(buf)| == |Lines(buf)| && '\n' !in RawLines(buf)[i]
    ensures RawLines(buf)[i] == Lines(buf)[i] + if EndsInReturn(RawLines(buf)[i]) then "\r" else ""
    decreases |buf|
  {
    if i > 0 {
      LineIsRawLine(Rest(buf), i - 1);
    } else {
      var raw := buf[..Break(buf)];
      if EndsInReturn(raw) { assert raw == raw[..|raw| - 1] + "\r"; } else { assert raw + "" == raw; }
      if Rest(buf) != [] { LineIsRawLine(Rest(buf), 0); }
    }
  }

  /** A text is cut at its first newline in one way only. */
  lemma {:induction false} SameCut(a: Text, x: Text, b: Text, y: Text)
    requires a + ("\n" + x) == b + ("\n" + y) && '\n' !in a && '\n' !in b
    ensures a == b && x == y
  {
    var s := a + ("\n" + x);
    assert s[..|a|] == a && s[..|b|] == b;
    BreakIs(s, |a|);
    BreakIs(s, |b|);
    assert s[|a| + 1..] == x && s[|b| + 1..] == y;
  }

  lemma Reassociated(a: Text, b: Text)
    ensures a + "\n" + b == a + ("\n" + b)
  {
  }

  lemma {:induction false} FirstOf(lines: seq<Text>, buf: Text)
    requires buf != [] && Join(lines) == Closed(buf) && forall i :: 0 <= i < |lines| ==> '\n' !in lines[i]
    ensures lines != [] && lines[0] == buf[..Break(buf)] && Join(lines[1..]) == Closed(Rest(buf))
  {
    ClosedRest(buf);
    Reassociated(buf[..Break(buf)], Closed(Rest(buf)));
    Reassociated(lines[0], Join(lines[1..]));
    SameCut(lines[0], Join(lines[1..]), buf[..Break(buf)], Closed(Rest(buf)));
  }

  lemma {:induction false} JoinOfSome(lines: seq<Text>)
    ensures lines != [] ==> Join(lines) != []
  {
  }

  /** The raw lines are the only way to cut a payload at its newlines. */
  lemma {:induction false} RawLinesAreUnique(buf: Text, lines: seq<Text>)
    requires Join(lines) == Closed(buf) && forall i :: 0 <= i < |lines| ==> '\n' !in lines[i]
    ensures lines == RawLines(buf)
    decreases |buf|
  {
    if buf != [] {
      FirstOf(lines, buf);
      RawLinesAreUnique(Rest(buf), lines[1..]);
      assert lines == [lines[0]] + lines[1..];
    } else {
      JoinOfSome(lines);
    }
  }

  // ---- The plain reading ----

  datatype Hit = Hit(line: nat, text: Text, before: seq<Text>, after: seq<Text>)

  datatype SearchResult = SearchResult(total: nat, exact: bool, hits: seq<Hit>, truncated: bool, lines: nat)

  function Clips(lines: seq<Text>): seq<Text> {
    if lines == [] then [] else Clips(lines[..|lines| - 1]) + [Clip(lines[|lines| - 1])]
  }

  lemma {:induction false} ClipsAt(lines: seq<Text>, i: nat)
    requires i < |lines|
    ensures |Clips(lines)| == |lines| && Clips(lines)[i] == Clip(lines[i])
  {
    ClipsLength(lines);
    ClipsLength(lines[..|lines| - 1]);
    if i < |lines| - 1 { ClipsAt(lines[..|lines| - 1], i); }
  }

  lemma {:induction false} ClipsLength(lines: seq<Text>)
    ensures |Clips(lines)| == |lines|
  {
    if lines != [] { ClipsLength(lines[..|lines| - 1]); }
  }

  /** The positions of the matching lines, in order. */
  function Matching(lines: seq<Text>, matches: Text -> bool): seq<nat> {
    if lines == [] then []
    else
      var n := |lines| - 1;
      Matching(lines[..n], matches) + if matches(lines[n]) then [n] else []
  }

  /** `Matching` lists every matching position once, in increasing order. */
  lemma {:induction false} MatchingIsExact(lines: seq<Text>, matches: Text -> bool)
    ensures var r := Matching(lines, matches);
            && (forall j, k :: 0 <= j < k < |r| ==> r[j] < r[k])
            && (forall k :: 0 <= k < |r| ==> r[k] < |lines|)
            && (forall i :: 0 <= i < |lines| ==> (i in r <==> matches(lines[i])))
  {
    if lines != [] {
      var n := |lines| - 1;
      MatchingIsExact(lines[..n], matches);
      var r := Matching(lines[..n], matches);
      assert forall i :: 0 <= i < n ==> lines[..n][i] == lines[i];
      if matches(lines[n]) {
        assert Matching(lines, matches)[|r|] == n;
        assert forall i :: i in Matching(lines, matches) <==> i in r || i == n;
      }
    }
  }

  /** The match at `at` with up to `context` neighbours on each side. */
  function HitAt(lines: seq<Text>, at: nat, context: nat): Hit
    requires at < |lines|
  {
    Hit(at + 1, Clip(lines[at]),
        Clips(lines[Max(0, at - context)..at]),
        Clips(lines[at + 1..Min(|lines|, at + 1 + context)]))
  }

  /** What a search of `lines` is supposed to report. */
  ghost predicate Reports(res: SearchResult, lines: seq<Text>, matches: Text -> bool, limit: nat, context: nat, countCap: nat) {
    var found := Matching(lines, matches);
    && res.total == Min(|found|, countCap)
    && res.exact == (|found| <= countCap)
    && res.truncated == (|found| > limit)
    && res.lines == |lines|
    && |res.hits| == Min(limit, |found|)
    && forall k :: 0 <= k < |res.hits| ==> found[k] < |lines| && res.hits[k] == HitAt(lines, found[k], context)
  }

  /** `shown` is what a reader gets to see of raw line `raw`: no carriage return at the end, at most 400 runes. */
  predicate Shows(shown: Text, raw: Text) {
    var line := if EndsInReturn(raw) then raw[..|raw| - 1] else raw;
    if |line| <= 400 then shown == line
    else |shown| == 401 && shown[..400] == line[..400] && shown[400] == '\U{2026}'
  }

  ghost predicate AllShown(shown: seq<Text>, raw: seq<Text>, from: int) {
    0 <= from <= from + |shown| <= |raw| && forall j :: 0 <= j < |shown| ==> Shows(shown[j], raw[from + j])
  }

  /** A hit shows its own raw line, and the `context` raw lines on each side as far as there are any. */
  ghost predicate HitShows(h: Hit, raw: seq<Text>, context: nat) {
    && 1 <= h.line <= |raw| && Shows(h.text, raw[h.line - 1])
    && |h.before| == Min(context, h.line - 1) && AllShown(h.before, raw, h.line - 1 - |h.before|)
    && |h.after| == Min(context, |raw| - h.line) && AllShown(h.after, raw, h.line)
  }

  lemma ClipShowsRaw(buf: Text, i: nat)
    requires i < |Lines(buf)|
    ensures |RawLines(buf)| == |Lines(buf)| && Shows(Clip(Lines(buf)[i]), RawLines(buf)[i])
  {
    LineIsRawLine(buf, i);
    ClipShows(Lines(buf)[i]);
    var line, raw := Lines(buf)[i], RawLines(buf)[i];
    if EndsInReturn(raw) { assert raw[..|raw| - 1] == line; } else { assert line + "" == line; }
  }

  lemma ClippedSlice(lines: seq<Text>, from: nat, to: nat, j: nat)
    requires from <= to <= |lines| && j < to - from
    ensures |Clips(lines[from..to])| == to - from && Clips(lines[from..to])[j] == Clip(lines[from + j])
  {
    ClipsAt(lines[from..to], j);
  }

  lemma SliceShows(buf: Text, from: nat, to: nat)
    requires from <= to <= |Lines(buf)| == |RawLines(buf)|
    ensures |Clips(Lines(buf)[from..to])| == to - from && AllShown(Clips(Lines(buf)[from..to]), RawLines(buf), from)
  {
    ClipsLength(Lines(buf)[from..to]);
    forall j | 0 <= j < to - from ensures Shows(Clips(Lines(buf)[from..to])[j], RawLines(buf)[from + j]) {
      ClippedSlice(Lines(buf), from, to, j);
      ClipShowsRaw(buf, from + j);
    }
  }

  lemma HitShowsRaw(buf: Text, at: nat, context: nat)
    requires at < |Lines(buf)|
    ensures HitShows(HitAt(Lines(buf), at, context), RawLines(buf), context)
  {
    ClipShowsRaw(buf, at);
    SliceShows(buf, Max(0, at - context), at);
    SliceShows(buf, at + 1, Min(|Lines(buf)|, at + 1 + context));
  }

  ghost predicate AllShow(hits: seq<Hit>, raw: seq<Text>, context: nat) {
    forall k :: 0 <= k < |hits| ==> HitShows(hits[k], raw, context)
  }

  lemma ReportsShow(res: SearchResult, buf: Text, matches: Text -> bool, limit: nat, context: nat, countCap: nat)
    requires Reports(res, Lines(buf), matches, limit, context, countCap)
    ensures AllShow(res.hits, RawLines(buf), context)
  {
    forall k | 0 <= k < |res.hits| ensures HitShows(res.hits[k], RawLines(buf), context) {
      HitShowsRaw(buf, Matching(Lines(buf), matches)[k], context);
    }
  }

  // ---- One pass ----

  /** The hits among `some` that still lack trailing lines. */
  function Waiting(hits: seq<Hit>, some: seq<nat>, context: nat): seq<nat> {
    if some == [] then []
    else
      var p := some[|some| - 1];
      Waiting(hits, some[..|some| - 1], context) + if p < |hits| && |hits[p].after| < context then [p] else []
  }

  /** The ones among the first `n` hits, in order. */
  function FirstWaiting(hits: seq<Hit>, n: nat, context: nat): seq<nat>
    requires n <= |hits|
  {
    if n == 0 then []
    else if |hits[n - 1].after| < context then FirstWaiting(hits, n - 1, context) + [n - 1]
    else FirstWaiting(hits, n - 1, context)
  }

  function AllWaiting(hits: seq<Hit>, context: nat): seq<nat> {
    FirstWaiting(hits, |hits|, context)
  }

  lemma {:induction false} FirstWaitingMembers(hits: seq<Hit>, n: nat, context: nat, p: nat)
    requires n <= |hits|
    ensures p in FirstWaiting(hits, n, context) <==> p < n && |hits[p].after| < context
  {
    if n > 0 { FirstWaitingMembers(hits, n - 1, context, p); }
  }

  /** `Waiting` looks only at the hits it is given. */
  lemma {:induction false} WaitingDepends(hits: seq<Hit>, hits': seq<Hit>, some: seq<nat>, context: nat)
    requires |hits| == |hits'|
    requires forall i :: 0 <= i < |some| ==> some[i] < |hits| && hits[some[i]] == hits'[some[i]]
    ensures Waiting(hits, some, context) == Waiting(hits', some, context)
  {
    if some != [] { WaitingDepends(hits, hits', some[..|some| - 1], context); }
  }

  function Fed(h: Hit, text: Text): Hit { h.(after := h.after + [text]) }

  /** Exactly the hits in `seen` have got the line. */
  ghost predicate FedOnly(hits0: seq<Hit>, hits: seq<Hit>, seen: seq<nat>, text: Text) {
    && |hits| == |hits0|
    && forall p :: 0 <= p < |hits| ==> hits[p] == if p in seen then Fed(hits0[p], text) else hits0[p]
  }

  ghost predicate Pending(hits: seq<Hit>, some: seq<nat>, context: nat) {
    NoDup(some) && forall i :: 0 <= i < |some| ==> some[i] < |hits| && |hits[some[i]].after| < context
  }

  ghost predicate Visited(hits: seq<Hit>, seen: seq<nat>, context: nat, kept: seq<nat>) {
    && (forall j :: 0 <= j < |seen| ==> seen[j] < |hits|)
    && kept == Waiting(hits, seen, context)
  }

  /** One more hit has got the line, and stays in the list or leaves it. */
  lemma Visit(hits0: seq<Hit>, hits: seq<Hit>, seen: seq<nat>, p: nat, text: Text, context: nat, kept: seq<nat>)
    requires FedOnly(hits0, hits, seen, text) && p < |hits| && p !in seen && Visited(hits, seen, context, kept)
    ensures hits[p] == hits0[p]
    ensures FedOnly(hits0, hits[p := Fed(hits[p], text)], seen + [p], text)
    ensures Visited(hits[p := Fed(hits[p], text)], seen + [p], context, if |hits[p].after| + 1 < context then kept + [p] else kept)
  {
    WaitingDepends(hits, hits[p := Fed(hits[p], text)], seen, context);
    WaitingLast(hits[p := Fed(hits[p], text)], seen, p, context);
  }

  lemma NextPending(hits: seq<Hit>, some: seq<nat>, context: nat, seen: seq<nat>, rest: seq<nat>)
    requires Pending(hits, some, context) && some == seen + rest && rest != []
    ensures rest[0] !in seen && rest[0] < |hits| && |hits[rest[0]].after| < context
    ensures some == (seen + [rest[0]]) + rest[1..]
  {
    assert some[|seen|] == rest[0];
    assert forall j :: 0 <= j < |seen| ==> seen[j] == some[j];
  }

  lemma CutAt(s: seq<nat>, i: nat)
    requires i < |s|
    ensures (s[..i] + s[i + 1..])[..i] == s[..i] && (s[..i] + s[i + 1..])[i..] == s[i..][1..]
    ensures s[..i + 1] == s[..i] + [s[i]] && s[i + 1..] == s[i..][1..]
  {
  }

  /** Gives one more trailing line to every hit that waits for it, and drops the ones that need no more. */
  method FillAfter(hits0: seq<Hit>, pending0: seq<nat>, context: nat, text: Text) returns (hits: seq<Hit>, pending: seq<nat>)
    requires Pending(hits0, pending0, context)
    ensures FedOnly(hits0, hits, pending0, text)
    ensures Visited(hits, pending0, context, pending)
  {
    hits, pending := hits0, pending0;
    var i := 0;
    ghost var seen: seq<nat> := [];
    while i < |pending|
      invariant 0 <= i <= |pending|
      invariant pending0 == seen + pending[i..]
      invariant FedOnly(hits0, hits, seen, text)
      invariant Visited(hits, seen, context, pending[..i])
      decreases |pending| - i
    {
      NextPending(hits0, pending0, context, seen, pending[i..]);
      CutAt(pending, i);
      var p := pending[i];
      Visit(hits0, hits, seen, p, text, context, pending[..i]);
      seen := seen + [p];
      if |hits[p].after| < context {
        hits := hits[p := hits[p].(after := hits[p].after + [text])];
      }
      if |hits[p].after| >= context {
        pending := pending[..i] + pending[i + 1..];
      } else {
        i := i + 1;
      }
    }
    assert pending[..i] == pending && pending0 == seen;
  }

  lemma NextLineIs(buf: Text, pos: nat, i: nat)
    requires pos <= i <= |buf| && pos < |buf| && '\n' !in buf[pos..i] && (i < |buf| ==> buf[i] == '\n')
    ensures Lines(buf[pos..]) == [DropCR(buf[pos..i])] + Lines(buf[if i < |buf| then i + 1 else i..])
  {
    var s, k := buf[pos..], i - pos;
    assert s[..k] == buf[pos..i];
    assert k < |s| ==> s[k] == buf[i];
    BreakIs(s, k);
    assert Rest(s) == buf[if i < |buf| then i + 1 else i..];
  }

  /** The scanner: the next line from `pos`, without its newline and one carriage return, and where to go on. */
  method NextLine(buf: Text, pos: nat) returns (line: Text, next: nat)
    requires pos < |buf|
    ensures pos < next <= |buf|
    ensures Lines(buf[pos..]) == [line] + Lines(buf[next..])
  {
    var i := pos;
    while i < |buf| && buf[i] != '\n'
      invariant pos <= i <= |buf|
      invariant '\n' !in buf[pos..i]
    {
      assert buf[pos..i + 1] == buf[pos..i] + [buf[i]];
      i := i + 1;
    }
    NextLineIs(buf, pos, i);
    line := buf[pos..i];
    if |line| > 0 && line[|line| - 1] == '\r' { line := line[..|line| - 1]; }
    next := if i < |buf| then i + 1 else i;
  }

  lemma {:induction false} BreakIs(buf: Text, k: nat)
    requires k <= |buf| && '\n' !in buf[..k] && (k < |buf| ==> buf[k] == '\n')
    ensures Break(buf) == k
  {
    if k > 0 {
      assert buf[1..][..k - 1] == buf[..k][1..];
      assert buf[0] in buf[..k];
      BreakIs(buf[1..], k - 1);
    }
  }

  /** The hits a prefix of the lines already justifies. */
  ghost predicate HitsSoFar(hits: seq<Hit>, lines: seq<Text>, found: seq<nat>, limit: nat, context: nat) {
    && (forall k :: 0 <= k < |found| ==> found[k] < |lines|)
    && |hits| == Min(limit, |found|)
    && forall k :: 0 <= k < |hits| ==> hits[k] == HitAt(lines, found[k], context)
  }

  function Recent(lines: seq<Text>, context: nat): seq<Text> {
    Clips(lines[Max(0, |lines| - context)..])
  }

  lemma ClipsAppend(lines: seq<Text>, x: Text)
    ensures Clips(lines + [x]) == Clips(lines) + [Clip(x)]
  {
    assert (lines + [x])[..|lines|] == lines;
  }

  /** One more line gives a hit one more trailing line, unless it has enough. */
  lemma {:induction false} HitGrows(lines: seq<Text>, x: Text, at: nat, context: nat)
    requires at < |lines|
    ensures var h := HitAt(lines, at, context);
            HitAt(lines + [x], at, context) == if |h.after| < context then Fed(h, Clip(x)) else h
  {
    var lines' := lines + [x];
    assert lines'[Max(0, at - context)..at] == lines[Max(0, at - context)..at];
    var e := Min(|lines|, at + 1 + context);
    ClipsLength(lines[at + 1..e]);
    if e - (at + 1) < context {
      assert e == |lines| && Min(|lines'|, at + 1 + context) == |lines'|;
      assert lines'[at + 1..Min(|lines'|, at + 1 + context)] == lines[at + 1..e] + [x];
      ClipsAppend(lines[at + 1..e], x);
    } else {
      assert lines'[at + 1..e] == lines[at + 1..e];
    }
  }

  lemma HitsGrow(hits: seq<Hit>, hits': seq<Hit>, lines: seq<Text>, x: Text, found: seq<nat>, limit: nat, context: nat)
    requires HitsSoFar(hits, lines, found, limit, context)
    requires FedOnly(hits, hits', AllWaiting(hits, context), Clip(x))
    ensures HitsSoFar(hits', lines + [x], found, limit, context)
  {
    forall k | 0 <= k < |hits'| ensures hits'[k] == HitAt(lines + [x], found[k], context) {
      HitGrows(lines, x, found[k], context);
      FirstWaitingMembers(hits, |hits|, context, k);
    }
  }

  lemma PendingAppend(hits: seq<Hit>, some: seq<nat>, p: nat, context: nat)
    requires Pending(hits, some, context) && p !in some && p < |hits| && |hits[p].after| < context
    ensures Pending(hits, some + [p], context)
  {
  }

  lemma {:induction false} WaitingPending(hits: seq<Hit>, n: nat, context: nat)
    requires n <= |hits|
    ensures Pending(hits, FirstWaiting(hits, n, context), context)
  {
    if n > 0 {
      WaitingPending(hits, n - 1, context);
      FirstWaitingMembers(hits, n - 1, context, n - 1);
      if |hits[n - 1].after| < context { PendingAppend(hits, FirstWaiting(hits, n - 1, context), n - 1, context); }
    }
  }

  /** A hit that needed nothing before still needs nothing. */
  lemma {:induction false} WaitingAgain(hits: seq<Hit>, hits': seq<Hit>, n: nat, context: nat, text: Text, all: seq<nat>)
    requires FedOnly(hits, hits', all, text) && n <= |hits|
    ensures Waiting(hits', FirstWaiting(hits, n, context), context) == FirstWaiting(hits', n, context)
  {
    if n > 0 {
      WaitingAgain(hits, hits', n - 1, context, text, all);
      var r := FirstWaiting(hits, n - 1, context);
      if |hits[n - 1].after| < context { WaitingLast(hits', r, n - 1, context); }
    }
  }

  lemma WaitingLast(hits: seq<Hit>, some: seq<nat>, p: nat, context: nat)
    requires p < |hits|
    ensures Waiting(hits, some + [p], context) == Waiting(hits, some, context) + if |hits[p].after| < context then [p] else []
  {
    assert (some + [p])[..|some|] == some;
  }

  lemma {:induction false} FirstWaitingDepends(hits: seq<Hit>, hits': seq<Hit>, n: nat, context: nat)
    requires n <= |hits| && n <= |hits'| && forall q :: 0 <= q < n ==> hits'[q] == hits[q]
    ensures FirstWaiting(hits', n, context) == FirstWaiting(hits, n, context)
  {
    if n > 0 { FirstWaitingDepends(hits, hits', n - 1, context); }
  }

  lemma WaitingAppend(hits: seq<Hit>, h: Hit, context: nat)
    ensures AllWaiting(hits + [h], context) == if |h.after| < context then AllWaiting(hits, context) + [|hits|] else AllWaiting(hits, context)
  {
    FirstWaitingDepends(hits, hits + [h], |hits|, context);
  }

  lemma FreshHit(lines: seq<Text>, x: Text, context: nat)
    ensures HitAt(lines + [x], |lines|, context) == Hit(|lines| + 1, Clip(x), Recent(lines, context), [])
  {
    var from := Max(0, |lines| - context);
    assert (lines + [x])[from..|lines|] == lines[from..];
  }

  lemma NewHit(hits: seq<Hit>, lines: seq<Text>, x: Text, found: seq<nat>, limit: nat, context: nat)
    requires HitsSoFar(hits, lines + [x], found, limit, context) && |hits| < limit
    ensures HitsSoFar(hits + [Hit(|lines| + 1, Clip(x), Recent(lines, context), [])], lines + [x], found + [|lines|], limit, context)
  {
    FreshHit(lines, x, context);
  }

  lemma NoMoreHits(hits: seq<Hit>, lines: seq<Text>, x: Text, found: seq<nat>, limit: nat, context: nat)
    requires HitsSoFar(hits, lines + [x], found, limit, context) && |hits| >= limit
    ensures HitsSoFar(hits, lines + [x], found + [|lines|], limit, context)
  {
  }

  lemma {:induction false} ClipsTail(lines: seq<Text>)
    requires lines != []
    ensures Clips(lines[1..]) == Clips(lines)[1..]
  {
    ClipsLength(lines);
    ClipsLength(lines[..|lines| - 1]);
    if |lines| > 1 {
      ClipsTail(lines[..|lines| - 1]);
      assert lines[1..][..|lines| - 2] == lines[..|lines| - 1][1..];
    }
  }

  lemma RecentNext(lines: seq<Text>, x: Text, context: nat)
    requires context > 0
    ensures
      var ring := Recent(lines, context);
      Recent(lines + [x], context) == (if |ring| == context then ring[1..] else ring) + [Clip(x)]
  {
    var last := lines[Max(0, |lines| - context)..];
    ClipsLength(last);
    if |last| == context {
      assert (lines + [x])[|lines| + 1 - context..] == last[1..] + [x];
      ClipsTail(last);
      ClipsAppend(last[1..], x);
    } else {
      assert (lines + [x])[0..] == last + [x];
      ClipsAppend(last, x);
    }
  }

  /** What the loop has gathered. */
  datatype Scan = Scan(total: nat, exact: bool, truncated: bool, hits: seq<Hit>, ring: seq<Text>, pending: seq<nat>)

  ghost predicate Counted(s: Scan, found: nat, limit: nat, countCap: nat) {
    s.total == Min(found, countCap) && s.exact == (found <= countCap) && s.truncated == (found > limit)
  }

  /** What it has gathered from `lines`. */
  ghost predicate Progress(s: Scan, lines: seq<Text>, found: seq<nat>, limit: nat, context: nat, countCap: nat) {
    && Counted(s, |found|, limit, countCap)
    && HitsSoFar(s.hits, lines, found, limit, context)
    && s.pending == AllWaiting(s.hits, context)
    && s.ring == if context > 0 then Recent(lines, context) else []
  }

  method Fill(s: Scan, ghost lines: seq<Text>, ghost found: seq<nat>, limit: nat, context: nat, ghost countCap: nat, ghost raw: Text, text: Text)
    returns (hits: seq<Hit>, pending: seq<nat>)
    requires Progress(s, lines, found, limit, context, countCap) && text == Clip(raw)
    ensures HitsSoFar(hits, lines + [raw], found, limit, context)
    ensures pending == AllWaiting(hits, context)
  {
    WaitingPending(s.hits, |s.hits|, context);
    hits, pending := FillAfter(s.hits, s.pending, context, text);
    HitsGrow(s.hits, hits, lines, raw, found, limit, context);
    WaitingAgain(s.hits, hits, |hits|, context, text, s.pending);
  }

  lemma Reported(hits: seq<Hit>, hits': seq<Hit>, ring: seq<Text>, lines: seq<Text>, x: Text, found: seq<nat>, limit: nat, context: nat)
    requires HitsSoFar(hits, lines + [x], found, limit, context) && |hits| < limit
    requires ring == if context > 0 then Recent(lines, context) else []
    requires hits' == hits + [Hit(|lines| + 1, Clip(x), ring, [])]
    ensures HitsSoFar(hits', lines + [x], found + [|lines|], limit, context)
    ensures |hits'| == |hits| + 1
    ensures AllWaiting(hits', context) == if context > 0 then AllWaiting(hits, context) + [|hits|] else AllWaiting(hits, context)
  {
    if context == 0 { assert lines[|lines|..] == []; }
    assert ring == Recent(lines, context);
    var h := Hit(|lines| + 1, Clip(x), ring, []);
    NewHit(hits, lines, x, found, limit, context);
    WaitingAppend(hits, h, context);
  }

  /** A match: reported while there is room. */
  method Report(hits0: seq<Hit>, pending0: seq<nat>, ring: seq<Text>, line: nat, text: Text, limit: nat, context: nat,
                ghost lines: seq<Text>, ghost raw: Text, ghost found: seq<nat>)
    returns (hits: seq<Hit>, pending: seq<nat>, full: bool)
    requires HitsSoFar(hits0, lines + [raw], found, limit, context) && pending0 == AllWaiting(hits0, context)
    requires ring == (if context > 0 then Recent(lines, context) else []) && line == |lines| + 1 && text == Clip(raw)
    ensures HitsSoFar(hits, lines + [raw], found + [|lines|], limit, context)
    ensures pending == AllWaiting(hits, context)
    ensures full <==> |found| >= limit
  {
    hits, pending, full := hits0, pending0, |hits0| >= limit;
    if full {
      NoMoreHits(hits, lines, raw, found, limit, context);
    } else {
      hits := hits0 + [Hit(line, text, ring, [])];
      Reported(hits0, hits, ring, lines, raw, found, limit, context);
      if context > 0 {
        var last: nat := |hits0|;
        pending := pending + [last];
      }
    }
  }

  /** The ring keeps the last `context` lines. */
  method Push(ring0: seq<Text>, text: Text, context: nat, ghost lines: seq<Text>, ghost raw: Text) returns (ring: seq<Text>)
    requires ring0 == (if context > 0 then Recent(lines, context) else []) && text == Clip(raw)
    ensures ring == if context > 0 then Recent(lines + [raw], context) else []
  {
    ring := ring0;
    if context > 0 {
      RecentNext(lines, raw, context);
      if |ring| == context { ring := ring[1..]; }
      ring := ring + [text];
    }
  }

  /** The loop body: one line more. */
  method TakeLine(s0: Scan, line: nat, raw: Text, isMatch: bool, limit: nat, context: nat, countCap: nat,
                  ghost lines: seq<Text>, ghost found: seq<nat>)
    returns (s: Scan)
    requires Progress(s0, lines, found, limit, context, countCap) && line == |lines| + 1
    ensures Progress(s, lines + [raw], if isMatch then found + [|lines|] else found, limit, context, countCap)
  {
    var total, exact, truncated, ring := s0.total, s0.exact, s0.truncated, s0.ring;
    var text := Clip(raw);
    var hits, pending := Fill(s0, lines, found, limit, context, countCap, raw, text);

    if isMatch {
      if total < countCap { total := total + 1; } else { exact := false; }
      var full: bool;
      hits, pending, full := Report(hits, pending, ring, line, text, limit, context, lines, raw, found);
      if full { truncated := true; }
    }

    ring := Push(ring, text, context, lines, raw);
    s := Scan(total, exact, truncated, hits, ring, pending);
  }

  lemma MatchingNext(lines: seq<Text>, x: Text, matches: Text -> bool)
    ensures Matching(lines + [x], matches) == if matches(x) then Matching(lines, matches) + [|lines|] else Matching(lines, matches)
  {
    assert (lines + [x])[..|lines|] == lines;
  }

  /** Nobody cancelled before any of the first `n` lines. */
  ghost predicate Alive(cancelled: nat -> bool, n: nat) {
    forall i :: 0 <= i < n ==> !cancelled(i)
  }

  lemma AliveNext(cancelled: nat -> bool, n: nat)
    ensures Alive(cancelled, n + 1) <==> Alive(cancelled, n) && !cancelled(n)
  {
  }

  lemma NotAlive(cancelled: nat -> bool, n: nat, m: nat)
    requires cancelled(n) && n < m
    ensures !Alive(cancelled, m)
  {
  }

  lemma Shift<T>(all: seq<T>, done: seq<T>, x: T, rest: seq<T>)
    requires all == done + ([x] + rest)
    ensures all == (done + [x]) + rest && |done| < |all|
  {
  }

  /** The whole scan; `cancelled` says for each line whether the caller has gone away by then. */
  method ScanMatches(buf: Text, matches: Text -> bool, limit: nat, context: nat, countCap: nat, cancelled: nat -> bool)
    returns (r: Result<SearchResult, string>)
    ensures r.Ok? <==> Alive(cancelled, |Lines(buf)|)
    ensures r.Ok? ==> Reports(r.value, Lines(buf), matches, limit, context, countCap)
    ensures r.Ok? ==> AllShow(r.value.hits, RawLines(buf), context)
  {
    var s := Scan(0, true, false, [], [], []);
    var pos, line := 0, 0;
    ghost var done: seq<Text> := [];
    assert buf[0..] == buf;
    while pos < |buf|
      invariant 0 <= pos <= |buf| && line == |done|
      invariant Lines(buf) == done + Lines(buf[pos..])
      invariant Alive(cancelled, line)
      invariant Progress(s, done, Matching(done, matches), limit, context, countCap)
      decreases |buf| - pos
    {
      var raw, next := NextLine(buf, pos);
      Shift(Lines(buf), done, raw, Lines(buf[next..]));
      AliveNext(cancelled, line);
      if cancelled(line) {
        NotAlive(cancelled, line, |Lines(buf)|);
        return Err("cancelled");
      }
      line := line + 1;
      s := TakeLine(s, line, raw, matches(raw), limit, context, countCap, done, Matching(done, matches));
      MatchingNext(done, raw, matches);
      done := done + [raw];
      pos := next;
    }
    assert Lines(buf) == done;
    r := Ok(SearchResult(s.total, s.exact, s.hits, s.truncated, line));
    ReportsShow(r.value, buf, matches, limit, context, countCap);
  }

  // ---- The caller's bounds ----

  const DEFAULT_HITS: nat := 20
  const MAX_HITS: nat := 200
  const MAX_CONTEXT: nat := 20
  const MAX_COUNTED_HITS: nat := 100_000

  function HitLimit(limit: int): nat {
    if limit <= 0 then DEFAULT_HITS else Min(limit, MAX_HITS)
  }

  function ContextLines(context: int): nat { Max(0, Min(context, MAX_CONTEXT)) }

  /** What a caller gets for what it asks: at most 200 hits, 20 unless it says; at most 20 lines around each. */
  lemma BoundsAre(limit: int, context: int)
    ensures 1 <= HitLimit(limit) <= 200 && (1 <= limit <= 200 ==> HitLimit(limit) == limit)
    ensures (limit <= 0 ==> HitLimit(limit) == 20) && (limit > 200 ==> HitLimit(limit) == 200)
    ensures 0 <= ContextLines(context) <= 20 && (0 <= context <= 20 ==> ContextLines(context) == context)
    ensures (context < 0 ==> ContextLines(context) == 0) && (context > 20 ==> ContextLines(context) == 20)
    ensures MAX_COUNTED_HITS == 100 * 1000
  {
  }

  /** A search as the tool asks for it: any limit, any context, the fixed counting ceiling. */
  method Search(buf: Text, matches: Text -> bool, limit: int, context: int, cancelled: nat -> bool)
    returns (r: Result<SearchResult, string>)
    ensures r.Ok? <==> Alive(cancelled, |Lines(buf)|)
    ensures r.Ok? ==>
      && Reports(r.value, Lines(buf), matches, HitLimit(limit), ContextLines(context), MAX_COUNTED_HITS)
      && AllShow(r.value.hits, RawLines(buf), ContextLines(context))
      && r.value.lines == CountLines(buf) && |r.value.hits| <= 200
  {
    var shown := limit;
    if shown <= 0 { shown := DEFAULT_HITS; }
    if shown > MAX_HITS { shown := MAX_HITS; }
    r := ScanMatches(buf, matches, shown, Max(0, Min(context, MAX_CONTEXT)), MAX_COUNTED_HITS, cancelled);
    CountsAgree(buf);
  }
}
