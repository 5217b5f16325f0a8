/**
 What compacting a conversation means, on values: shorten old tool results, then drop whole old exchanges,
 then shorten the recent tool results, stopping as soon as the estimate fits.
 */
module HistorySpec {
  import opened Base
  import opened Tokens

  /** `args` and `raw` are the marshalled texts that go on the wire. */
  datatype Call = Call(name: string, args: string)

  datatype Response =
    | Whole(id: string, name: string, raw: string)
    | Shortened(id: string, name: string, head: string, tail: string, tokens: nat)

  datatype Part = Part(call: Option<Call>, response: Option<Response>, text: string)
  datatype Content = Content(role: string, parts: seq<Option<Part>>)

  /** A slice may hold nil contents. */
  type Entry = Option<Content>

  /** How a shortened response is marshalled from its head, its tail and its original size. */
  type Wire = (string, string, nat) -> string

  const MESSAGE_OVERHEAD: nat := 4

  function Marshal(r: Response, wire: Wire): string {
    match r
    case Whole(_, _, raw) => raw
    case Shortened(_, _, head, tail, tokens) => wire(head, tail, tokens)
  }

  function PartCost(p: Option<Part>, wire: Wire): nat {
    match p
    case None => 0
    case Some(Part(Some(call), _, _)) => Estimate(call.name) + Estimate(call.args)
    case Some(Part(None, Some(response), _)) => Estimate(Marshal(response, wire))
    case Some(Part(None, None, text)) => Estimate(text)
  }

  function PartsCost(ps: seq<Option<Part>>, wire: Wire): nat {
    if ps == [] then 0 else PartsCost(ps[..|ps| - 1], wire) + PartCost(ps[|ps| - 1], wire)
  }

  function EntryCost(e: Entry, wire: Wire): nat {
    if e.None? then 0 else MESSAGE_OVERHEAD + PartsCost(e.value.parts, wire)
  }

  function TotalCost(es: seq<Entry>, wire: Wire): nat {
    if es == [] then 0 else TotalCost(es[..|es| - 1], wire) + EntryCost(es[|es| - 1], wire)
  }

  lemma {:induction false} TotalCostConcat(a: seq<Entry>, b: seq<Entry>, wire: Wire)
    ensures TotalCost(a + b, wire) == TotalCost(a, wire) + TotalCost(b, wire)
  {
    if b == [] {
      assert a + b == a;
    } else {
      assert (a + b)[..|a + b| - 1] == a + b[..|b| - 1];
      TotalCostConcat(a, b[..|b| - 1], wire);
    }
  }

  lemma {:induction false} PartsCostConcat(a: seq<Option<Part>>, b: seq<Option<Part>>, wire: Wire)
    ensures PartsCost(a + b, wire) == PartsCost(a, wire) + PartsCost(b, wire)
  {
    if b == [] {
      assert a + b == a;
    } else {
      assert (a + b)[..|a + b| - 1] == a + b[..|b| - 1];
      PartsCostConcat(a, b[..|b| - 1], wire);
    }
  }

  /** What is counted: four tokens a content, and what goes on the wire of each part: a call, else a response, else its text. */
  lemma ContentCosts(role: string, ps: seq<Option<Part>>, p: Part, wire: Wire)
    ensures EntryCost(None, wire) == 0 && EntryCost(Some(Content(role, [])), wire) == 4
    ensures EntryCost(Some(Content(role, ps + [None])), wire) == EntryCost(Some(Content(role, ps)), wire)
    ensures EntryCost(Some(Content(role, ps + [Some(p)])), wire) - EntryCost(Some(Content(role, ps)), wire) ==
              if p.call.Some? then Estimate(p.call.value.name) + Estimate(p.call.value.args)
              else if p.response.Some? then Estimate(Marshal(p.response.value, wire))
              else Estimate(p.text)
  {
    PartsCostConcat(ps, [None], wire);
    PartsCostConcat(ps, [Some(p)], wire);
  }

  predicate HasCall(e: Entry) {
    e.Some? && exists j :: 0 <= j < |e.value.parts| && e.value.parts[j].Some? && e.value.parts[j].value.call.Some?
  }

  predicate HasResponse(e: Entry) {
    e.Some? && exists j :: 0 <= j < |e.value.parts| && e.value.parts[j].Some? && e.value.parts[j].value.response.Some?
  }

  /** A history costs what its contents cost. */
  lemma HistoryCosts(es: seq<Entry>, e: Entry, wire: Wire)
    ensures TotalCost([], wire) == 0 && TotalCost(es + [e], wire) == TotalCost(es, wire) + EntryCost(e, wire)
  {
    assert (es + [e])[..|es|] == es;
  }

  /** A content has a call when one of its parts is one, and a response likewise; a missing part is neither. */
  lemma PartsTell(role: string, ps: seq<Option<Part>>, p: Option<Part>)
    ensures !HasCall(None) && !HasResponse(None) && !HasCall(Some(Content(role, []))) && !HasResponse(Some(Content(role, [])))
    ensures HasCall(Some(Content(role, ps + [p]))) <==> HasCall(Some(Content(role, ps))) || (p.Some? && p.value.call.Some?)
    ensures HasResponse(Some(Content(role, ps + [p]))) <==> HasResponse(Some(Content(role, ps))) || (p.Some? && p.value.response.Some?)
  {
    var e, more := Content(role, ps), Content(role, ps + [p]);
    assert more.parts[|ps|] == p;
    if HasCall(Some(e)) {
      var j :| 0 <= j < |ps| && ps[j].Some? && ps[j].value.call.Some?;
      assert more.parts[j] == ps[j];
    }
    if HasResponse(Some(e)) {
      var j :| 0 <= j < |ps| && ps[j].Some? && ps[j].value.response.Some?;
      assert more.parts[j] == ps[j];
    }
  }

  // ---- Groups ----

  /** The end of the responses that directly follow, from `j` on. */
  function ResponsesEnd(es: seq<Entry>, j: nat): (r: nat)
    requires j <= |es|
    ensures j <= r <= |es|
    decreases |es| - j
  {
    if j < |es| && HasResponse(es[j]) then ResponsesEnd(es, j + 1) else j
  }

  /** The end of the group that starts at `i`. */
  function GroupEnd(es: seq<Entry>, i: nat): (r: nat)
    requires i < |es|
    ensures i < r <= |es|
  {
    if HasCall(es[i]) then ResponsesEnd(es, i + 1) else i + 1
  }

  /** The ends of all groups from `i` on. */
  function Ends(es: seq<Entry>, i: nat): seq<nat>
    requires i <= |es|
    decreases |es| - i
  {
    if i == |es| then [] else [GroupEnd(es, i)] + Ends(es, GroupEnd(es, i))
  }

  function Groups(es: seq<Entry>, i: nat): seq<seq<Entry>>
    requires i <= |es|
    decreases |es| - i
  {
    if i == |es| then [] else [es[i..GroupEnd(es, i)]] + Groups(es, GroupEnd(es, i))
  }

  function Flat<T>(gs: seq<seq<T>>): seq<T> {
    if gs == [] then [] else Flat(gs[..|gs| - 1]) + gs[|gs| - 1]
  }

  lemma FlatAppend<T>(gs: seq<seq<T>>, g: seq<T>)
    ensures Flat(gs + [g]) == Flat(gs) + g
  {
    assert (gs + [g])[..|gs|] == gs;
  }

  function GroupsCost(gs: seq<seq<Entry>>, wire: Wire): nat {
    if gs == [] then 0 else GroupsCost(gs[..|gs| - 1], wire) + TotalCost(gs[|gs| - 1], wire)
  }

  lemma GroupsCostAppend(gs: seq<seq<Entry>>, g: seq<Entry>, wire: Wire)
    ensures GroupsCost(gs + [g], wire) == GroupsCost(gs, wire) + TotalCost(g, wire)
  {
    assert (gs + [g])[..|gs|] == gs;
  }

  /** How many leading groups end at or before `cutoff`. */
  function Before(ends: seq<nat>, cutoff: int): (n: nat)
    ensures n <= |ends|
  {
    if ends == [] || ends[0] > cutoff then 0 else 1 + Before(ends[1..], cutoff)
  }

  /** The groups that may be compacted at all. */
  function Eligible(es: seq<Entry>, keepRecent: nat): nat {
    if keepRecent >= |es| then 0 else Before(Ends(es, 0), |es| - keepRecent)
  }

  // ---- Shortening ----

  function Cut(r: Response, max: nat, wire: Wire): Option<Response> {
    var raw := Marshal(r, wire);
    if Estimate(raw) <= max then None
    else
      var headBudget := max * 2 / 3;
      Some(Shortened(r.id, r.name, raw[..HeadLength(raw, headBudget)], Suffix(raw, TailLength(raw, max - headBudget)), Estimate(raw)))
  }

  predicate Oversized(p: Option<Part>, max: nat, wire: Wire) {
    p.Some? && p.value.response.Some? && Estimate(Marshal(p.value.response.value, wire)) > max
  }

  function ShortPart(p: Option<Part>, max: nat, wire: Wire): Option<Part> {
    if Oversized(p, max, wire) then Some(Part(None, Cut(p.value.response.value, max, wire), "")) else p
  }

  function ShortParts(ps: seq<Option<Part>>, max: nat, wire: Wire): seq<Option<Part>> {
    if ps == [] then [] else ShortParts(ps[..|ps| - 1], max, wire) + [ShortPart(ps[|ps| - 1], max, wire)]
  }

  function CountParts(ps: seq<Option<Part>>, max: nat, wire: Wire): nat {
    if ps == [] then 0
    else CountParts(ps[..|ps| - 1], max, wire) + if Oversized(ps[|ps| - 1], max, wire) then 1 else 0
  }

  function ShortEntry(e: Entry, max: nat, wire: Wire): Entry {
    if e.None? then e else Some(Content(e.value.role, ShortParts(e.value.parts, max, wire)))
  }

  function CountEntry(e: Entry, max: nat, wire: Wire): nat {
    if e.None? then 0 else CountParts(e.value.parts, max, wire)
  }

  function ShortGroup(es: seq<Entry>, max: nat, wire: Wire): seq<Entry> {
    if es == [] then [] else ShortGroup(es[..|es| - 1], max, wire) + [ShortEntry(es[|es| - 1], max, wire)]
  }

  function CountGroup(es: seq<Entry>, max: nat, wire: Wire): nat {
    if es == [] then 0 else CountGroup(es[..|es| - 1], max, wire) + CountEntry(es[|es| - 1], max, wire)
  }

  lemma {:induction false} ShortGroupLength(es: seq<Entry>, max: nat, wire: Wire)
    ensures |ShortGroup(es, max, wire)| == |es|
  {
    if es != [] { ShortGroupLength(es[..|es| - 1], max, wire); }
  }

  /** The parts with the first `i` of them treated. */
  function PartsSoFar(ps: seq<Option<Part>>, i: nat, max: nat, wire: Wire): seq<Option<Part>>
    requires i <= |ps|
  {
    ShortParts(ps[..i], max, wire) + ps[i..]
  }

  lemma {:induction false} ShortPartsLength(ps: seq<Option<Part>>, max: nat, wire: Wire)
    ensures |ShortParts(ps, max, wire)| == |ps|
  {
    if ps != [] { ShortPartsLength(ps[..|ps| - 1], max, wire); }
  }

  lemma PartsNext(ps: seq<Option<Part>>, i: nat, max: nat, wire: Wire)
    requires i < |ps|
    ensures |PartsSoFar(ps, i, max, wire)| == |ps| && PartsSoFar(ps, i, max, wire)[i] == ps[i]
    ensures PartsSoFar(ps, i + 1, max, wire) == PartsSoFar(ps, i, max, wire)[i := ShortPart(ps[i], max, wire)]
    ensures CountParts(ps[..i + 1], max, wire) == CountParts(ps[..i], max, wire) + if Oversized(ps[i], max, wire) then 1 else 0
  {
    ShortPartsLength(ps[..i], max, wire);
    assert ps[..i + 1][..i] == ps[..i];
  }

  lemma PartsAllDone(ps: seq<Option<Part>>, max: nat, wire: Wire)
    ensures PartsSoFar(ps, |ps|, max, wire) == ShortParts(ps, max, wire) && ps[..|ps|] == ps
  {
    assert ps[..|ps|] == ps;
  }

  function GroupSoFar(es: seq<Entry>, i: nat, max: nat, wire: Wire): seq<Entry>
    requires i <= |es|
  {
    ShortGroup(es[..i], max, wire) + es[i..]
  }

  lemma GroupNext(es: seq<Entry>, i: nat, max: nat, wire: Wire)
    requires i < |es|
    ensures |GroupSoFar(es, i, max, wire)| == |es| && GroupSoFar(es, i, max, wire)[i] == es[i]
    ensures GroupSoFar(es, i + 1, max, wire) == GroupSoFar(es, i, max, wire)[i := ShortEntry(es[i], max, wire)]
    ensures CountGroup(es[..i + 1], max, wire) == CountGroup(es[..i], max, wire) + CountEntry(es[i], max, wire)
  {
    ShortGroupLength(es[..i], max, wire);
    assert es[..i + 1][..i] == es[..i];
  }

  lemma GroupAllDone(es: seq<Entry>, max: nat, wire: Wire)
    ensures GroupSoFar(es, |es|, max, wire) == ShortGroup(es, max, wire) && es[..|es|] == es
  {
    assert es[..|es|] == es;
  }

  lemma {:induction false} NothingOversized(ps: seq<Option<Part>>, max: nat, wire: Wire)
    requires CountParts(ps, max, wire) == 0
    ensures ShortParts(ps, max, wire) == ps
  {
    if ps != [] { NothingOversized(ps[..|ps| - 1], max, wire); }
  }

  lemma EntryUntouched(e: Entry, max: nat, wire: Wire)
    requires CountEntry(e, max, wire) == 0
    ensures ShortEntry(e, max, wire) == e
  {
    if e.Some? { NothingOversized(e.value.parts, max, wire); }
  }

  lemma {:induction false} NothingToShorten(es: seq<Entry>, max: nat, wire: Wire)
    requires CountGroup(es, max, wire) == 0
    ensures ShortGroup(es, max, wire) == es
  {
    if es != [] {
      NothingToShorten(es[..|es| - 1], max, wire);
      EntryUntouched(es[|es| - 1], max, wire);
    }
  }

  // ---- The three stages ----

  /** One history over budget: its groups, how many of them may be compacted, the budget and the cap per result. */
  datatype Job = Job(groups: seq<seq<Entry>>, eligible: nat, budget: nat, cap: nat, wire: Wire)

  ghost predicate IsJob(j: Job) { j.eligible <= |j.groups| }

  /** Group `g` after groups below `a` and from `eligible` to `b` were shortened and those below `k` dropped. */
  function WorkAt(j: Job, a: nat, k: nat, b: nat, g: nat): seq<Entry>
    requires g < |j.groups|
  {
    if g < k then []
    else if g < a || j.eligible <= g < b then ShortGroup(j.groups[g], j.cap, j.wire)
    else j.groups[g]
  }

  function WorkUpTo(j: Job, a: nat, k: nat, b: nat, n: nat): seq<Entry>
    requires n <= |j.groups|
  {
    if n == 0 then [] else WorkUpTo(j, a, k, b, n - 1) + WorkAt(j, a, k, b, n - 1)
  }

  function Work(j: Job, a: nat, k: nat, b: nat): seq<Entry> { WorkUpTo(j, a, k, b, |j.groups|) }

  function WorkCost(j: Job, a: nat, k: nat, b: nat): nat { TotalCost(Work(j, a, k, b), j.wire) }

  /** The same, still group by group. */
  function StageUpTo(j: Job, a: nat, k: nat, b: nat, n: nat): seq<seq<Entry>>
    requires n <= |j.groups|
  {
    if n == 0 then [] else StageUpTo(j, a, k, b, n - 1) + [WorkAt(j, a, k, b, n - 1)]
  }

  function Stage(j: Job, a: nat, k: nat, b: nat): seq<seq<Entry>> { StageUpTo(j, a, k, b, |j.groups|) }

  lemma {:induction false} StageAt(j: Job, a: nat, k: nat, b: nat, n: nat, g: nat)
    requires g < n <= |j.groups|
    ensures |StageUpTo(j, a, k, b, n)| == n && StageUpTo(j, a, k, b, n)[g] == WorkAt(j, a, k, b, g)
  {
    StageLength(j, a, k, b, n);
    StageLength(j, a, k, b, n - 1);
    if g < n - 1 { StageAt(j, a, k, b, n - 1, g); }
  }

  lemma {:induction false} StageLength(j: Job, a: nat, k: nat, b: nat, n: nat)
    requires n <= |j.groups|
    ensures |StageUpTo(j, a, k, b, n)| == n
  {
    if n > 0 { StageLength(j, a, k, b, n - 1); }
  }

  lemma {:induction false} StageUpToIsWork(j: Job, a: nat, k: nat, b: nat, n: nat)
    requires n <= |j.groups|
    ensures Flat(StageUpTo(j, a, k, b, n)) == WorkUpTo(j, a, k, b, n)
    ensures GroupsCost(StageUpTo(j, a, k, b, n), j.wire) == TotalCost(WorkUpTo(j, a, k, b, n), j.wire)
  {
    if n > 0 {
      StageUpToIsWork(j, a, k, b, n - 1);
      FlatAppend(StageUpTo(j, a, k, b, n - 1), WorkAt(j, a, k, b, n - 1));
      GroupsCostAppend(StageUpTo(j, a, k, b, n - 1), WorkAt(j, a, k, b, n - 1), j.wire);
      TotalCostConcat(WorkUpTo(j, a, k, b, n - 1), WorkAt(j, a, k, b, n - 1), j.wire);
    }
  }

  lemma StageIsWork(j: Job, a: nat, k: nat, b: nat)
    ensures Flat(Stage(j, a, k, b)) == Work(j, a, k, b)
  {
    StageUpToIsWork(j, a, k, b, |j.groups|);
  }

  lemma StageCost(j: Job, a: nat, k: nat, b: nat)
    ensures GroupsCost(Stage(j, a, k, b), j.wire) == WorkCost(j, a, k, b)
  {
    StageUpToIsWork(j, a, k, b, |j.groups|);
  }

  /** From (a, b) to (a', b') the stages reach group `i` and no other. */
  ghost predicate NextShortened(j: Job, a: nat, b: nat, a': nat, b': nat, i: nat) {
    || (a == i < j.eligible && a' == a + 1 && b' == b)
    || (b == i >= j.eligible && a <= j.eligible && b' == b + 1 && a' == a)
  }

  /** One group more is shortened. */
  lemma ShortenStep(j: Job, a: nat, b: nat, a': nat, b': nat, k: nat, i: nat)
    requires IsJob(j) && k <= i < |j.groups| && j.eligible <= b
    requires NextShortened(j, a, b, a', b', i)
    ensures |Stage(j, a, k, b)| == |j.groups| && Stage(j, a, k, b)[i] == j.groups[i]
    ensures Stage(j, a', k, b') == Stage(j, a, k, b)[i := ShortGroup(j.groups[i], j.cap, j.wire)]
  {
    var n := |j.groups|;
    StageLength(j, a, k, b, n);
    StageLength(j, a', k, b', n);
    StageAt(j, a, k, b, n, i);
    forall g | 0 <= g < n ensures Stage(j, a', k, b')[g] == Stage(j, a, k, b)[i := ShortGroup(j.groups[i], j.cap, j.wire)][g] {
      StageAt(j, a, k, b, n, g);
      StageAt(j, a', k, b', n, g);
    }
  }

  /** One group more is dropped. */
  lemma DropStep(j: Job, a: nat, k: nat, b: nat)
    requires k < |j.groups|
    ensures |Stage(j, a, k, b)| == |j.groups| && |Stage(j, a, k, b)[k]| == |j.groups[k]|
    ensures Stage(j, a, k + 1, b) == Stage(j, a, k, b)[k := []]
  {
    var n := |j.groups|;
    StageLength(j, a, k, b, n);
    StageLength(j, a, k + 1, b, n);
    StageAt(j, a, k, b, n, k);
    ShortGroupLength(j.groups[k], j.cap, j.wire);
    var dropped := Stage(j, a, k, b)[k := []];
    forall g | 0 <= g < n ensures Stage(j, a, k + 1, b)[g] == dropped[g] {
      StageAt(j, a, k, b, n, g);
      StageAt(j, a, k + 1, b, n, g);
    }
  }

  /** How far the first stage goes, from `n` on: to the first history that fits. */
  function StopShortening(j: Job, n: nat): (r: nat)
    requires n <= j.eligible
    ensures n <= r <= j.eligible
    decreases j.eligible - n
  {
    if n == j.eligible || WorkCost(j, n, 0, j.eligible) <= j.budget then n else StopShortening(j, n + 1)
  }

  function StopDropping(j: Job, a: nat, n: nat): (r: nat)
    requires n <= j.eligible
    ensures n <= r <= j.eligible
    decreases j.eligible - n
  {
    if n == j.eligible || WorkCost(j, a, n, j.eligible) <= j.budget then n else StopDropping(j, a, n + 1)
  }

  function StopLast(j: Job, a: nat, k: nat, n: nat): (r: nat)
    requires n <= |j.groups|
    ensures n <= r <= |j.groups|
    decreases |j.groups| - n
  {
    if n == |j.groups| || WorkCost(j, a, k, n) <= j.budget then n else StopLast(j, a, k, n + 1)
  }

  /** Responses shortened in groups `from` up to `to`. */
  function CountGroups(j: Job, from: nat, to: nat): nat
    requires from <= to <= |j.groups|
  {
    if from == to then 0 else CountGroups(j, from, to - 1) + CountGroup(j.groups[to - 1], j.cap, j.wire)
  }

  function SizeUpTo(j: Job, n: nat): nat
    requires n <= |j.groups|
  {
    if n == 0 then 0 else SizeUpTo(j, n - 1) + |j.groups[n - 1]|
  }

  // ---- Compact ----

  datatype Policy = Policy(maxTokens: int, keepRecent: int, toolResultTokens: int, canRecall: bool)

  const DEFAULT_MAX_TOKENS: nat := 24_000
  const DEFAULT_KEEP_RECENT: nat := 6
  const DEFAULT_TOOL_RESULT_TOKENS: nat := 800

  function WithDefaults(p: Policy): (r: Policy)
    ensures r.maxTokens > 0 && r.keepRecent > 0 && r.toolResultTokens > 0
  {
    Policy(if p.maxTokens <= 0 then DEFAULT_MAX_TOKENS else p.maxTokens,
           if p.keepRecent <= 0 then DEFAULT_KEEP_RECENT else p.keepRecent,
           if p.toolResultTokens <= 0 then DEFAULT_TOOL_RESULT_TOKENS else p.toolResultTokens,
           p.canRecall)
  }

  /** A setting that is not positive means the default: 24000 tokens, 6 contents, 800 tokens a result. */
  lemma DefaultsAre(p: Policy)
    ensures WithDefaults(p).maxTokens == (if p.maxTokens > 0 then p.maxTokens else 24 * 1000)
    ensures WithDefaults(p).keepRecent == (if p.keepRecent > 0 then p.keepRecent else 6)
    ensures WithDefaults(p).toolResultTokens == (if p.toolResultTokens > 0 then p.toolResultTokens else 800)
    ensures WithDefaults(p).canRecall == p.canRecall
  {
  }

  datatype Report = Report(before: nat, after: nat, dropped: nat, truncated: nat)

  /** The text of the note that stands for dropped contents. */
  type Notice = (nat, bool) -> string

  function Placeholder(notice: Notice, dropped: nat, canRecall: bool): Entry {
    Some(Content("user", [Some(Part(None, None, notice(dropped, canRecall)))]))
  }

  function WithNote(kept: seq<Entry>, dropped: nat, canRecall: bool, notice: Notice): seq<Entry> {
    if dropped > 0 then [Placeholder(notice, dropped, canRecall)] + kept else kept
  }

  function JobOf(es: seq<Entry>, policy: Policy, wire: Wire): Job
    requires policy.maxTokens > 0 && policy.keepRecent > 0 && policy.toolResultTokens > 0
  {
    Job(Groups(es, 0), Eligible(es, policy.keepRecent), policy.maxTokens, policy.toolResultTokens, wire)
  }

  lemma {:induction false} AsManyGroupsAsEnds(es: seq<Entry>, i: nat)
    requires i <= |es|
    ensures |Groups(es, i)| == |Ends(es, i)|
    decreases |es| - i
  {
    if i < |es| { AsManyGroupsAsEnds(es, GroupEnd(es, i)); }
  }

  function Plan(j: Job): (r: (nat, nat, nat))
    requires IsJob(j)
    ensures r.0 <= j.eligible && r.1 <= j.eligible <= r.2 <= |j.groups|
  {
    var a := StopShortening(j, 0);
    var k := StopDropping(j, a, 0);
    (a, k, StopLast(j, a, k, j.eligible))
  }

  /** What becomes of a history over budget. */
  function Reduced(j: Job, before: nat, canRecall: bool, notice: Notice): (seq<Entry>, Report)
    requires IsJob(j)
  {
    var (a, k, b) := Plan(j);
    var dropped := SizeUpTo(j, k);
    var kept := Work(j, a, k, b);
    var out := WithNote(kept, dropped, canRecall, notice);
    (out, Report(before, TotalCost(out, j.wire), dropped, CountGroups(j, 0, a) + CountGroups(j, j.eligible, b)))
  }

  lemma JobIsJob(es: seq<Entry>, policy: Policy, wire: Wire)
    requires policy.maxTokens > 0 && policy.keepRecent > 0 && policy.toolResultTokens > 0
    ensures IsJob(JobOf(es, policy, wire))
  {
    AsManyGroupsAsEnds(es, 0);
  }

  /** The compacted history and the report, for a policy whose defaults are filled in. */
  function Compacted(es: seq<Entry>, policy: Policy, wire: Wire, notice: Notice): (seq<Entry>, Report)
    requires policy.maxTokens > 0 && policy.keepRecent > 0 && policy.toolResultTokens > 0
  {
    var before := TotalCost(es, wire);
    if before <= policy.maxTokens || es == [] then (es, Report(before, before, 0, 0))
    else
      JobIsJob(es, policy, wire);
      Reduced(JobOf(es, policy, wire), before, policy.canRecall, notice)
  }
}
