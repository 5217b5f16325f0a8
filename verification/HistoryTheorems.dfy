/** What compacting keeps, what it may change, and how little it drops. */
module HistoryTheorems {
  import opened Base
  import opened Tokens
  import opened HistorySpec

  // ---- Groups ----

  /** Where group `n`, counted from the one that starts at `i`, starts. */
  function Start(es: seq<Entry>, i: nat, n: nat): (r: nat)
    requires i <= |es| && n <= |Groups(es, i)|
    ensures r <= |es|
    decreases n
  {
    if n == 0 then i else Start(es, GroupEnd(es, i), n - 1)
  }

  /** The groups tile the history, in order and with nothing left over. */
  lemma {:induction false} GroupsTile(es: seq<Entry>, i: nat, n: nat)
    requires i <= |es| && n < |Groups(es, i)|
    ensures |Ends(es, i)| == |Groups(es, i)|
    ensures Start(es, i, n) < |es|
    ensures Start(es, i, n + 1) == GroupEnd(es, Start(es, i, n)) == Ends(es, i)[n]
    ensures Groups(es, i)[n] == es[Start(es, i, n)..Start(es, i, n + 1)]
    decreases n
  {
    AsManyGroupsAsEnds(es, i);
    if n > 0 { GroupsTile(es, GroupEnd(es, i), n - 1); }
  }

  lemma {:induction false} LastGroupEndsHistory(es: seq<Entry>, i: nat)
    requires i <= |es|
    ensures Start(es, i, |Groups(es, i)|) == |es|
    decreases |es| - i
  {
    if i < |es| { LastGroupEndsHistory(es, GroupEnd(es, i)); }
  }

  lemma {:induction false} SizeIsStart(es: seq<Entry>, j: Job, n: nat)
    requires j.groups == Groups(es, 0) && n <= |j.groups|
    ensures SizeUpTo(j, n) == Start(es, 0, n)
  {
    if n > 0 {
      SizeIsStart(es, j, n - 1);
      GroupsTile(es, 0, n - 1);
    }
  }

  lemma {:induction false} StartsGrow(es: seq<Entry>, m: nat, n: nat)
    requires m <= n <= |Groups(es, 0)|
    ensures Start(es, 0, m) <= Start(es, 0, n)
  {
    if m < n {
      StartsGrow(es, m, n - 1);
      GroupsTile(es, 0, n - 1);
    }
  }

  /** A call and the responses that directly follow it. */
  ghost predicate Run(es: seq<Entry>, p: nat, q: nat) {
    p < q < |es| && HasCall(es[p]) && forall m :: p < m <= q ==> HasResponse(es[m])
  }

  lemma {:induction false} ResponsesEndIsFirst(es: seq<Entry>, j: nat)
    requires j <= |es|
    ensures var r := ResponsesEnd(es, j);
            (r < |es| ==> !HasResponse(es[r])) && forall m :: j <= m < r ==> HasResponse(es[m])
    decreases |es| - j
  {
    if j < |es| && HasResponse(es[j]) { ResponsesEndIsFirst(es, j + 1); }
  }

  /** No group boundary falls between a call and one of its responses. */
  lemma {:induction false} RunsStayTogether(es: seq<Entry>, n: nat, p: nat, q: nat)
    requires n <= |Groups(es, 0)| && Run(es, p, q)
    ensures p < Start(es, 0, n) <==> q < Start(es, 0, n)
  {
    if n > 0 {
      RunsStayTogether(es, n - 1, p, q);
      GroupsTile(es, 0, n - 1);
      var s, e := Start(es, 0, n - 1), Start(es, 0, n);
      if s <= p < e <= q {
        assert HasResponse(es[e]);
        ResponsesEndIsFirst(es, s + 1);
      }
    }
  }

  /** A group is one content, or a call with every response that directly follows it. */
  lemma GroupIs(es: seq<Entry>, n: nat)
    requires n < |Groups(es, 0)|
    ensures
      var s, e := Start(es, 0, n), Start(es, 0, n + 1);
      && s < e <= |es|
      && (!HasCall(es[s]) ==> e == s + 1)
      && (HasCall(es[s]) ==> (e < |es| ==> !HasResponse(es[e])) && forall m :: s < m < e ==> HasResponse(es[m]))
  {
    GroupsTile(es, 0, n);
    ResponsesEndIsFirst(es, Start(es, 0, n) + 1);
  }

  lemma {:induction false} BeforeIsAll(ends: seq<nat>, cutoff: int)
    ensures Before(ends, cutoff) < |ends| ==> ends[Before(ends, cutoff)] > cutoff
  {
    if ends != [] && ends[0] <= cutoff { BeforeIsAll(ends[1..], cutoff); }
  }

  /** The groups that may be compacted are all the leading ones that leave the recent contents alone. */
  lemma EligibleIff(es: seq<Entry>, keepRecent: nat, n: nat)
    requires n <= |Groups(es, 0)|
    ensures n <= Eligible(es, keepRecent) <==> n == 0 || Start(es, 0, n) + keepRecent <= |es|
  {
    AsManyGroupsAsEnds(es, 0);
    if n > 0 {
      GroupsTile(es, 0, n - 1);
      var cutoff := |es| - keepRecent;
      if keepRecent < |es| {
        if n <= Before(Ends(es, 0), cutoff) {
          BeforeIsBefore(Ends(es, 0), cutoff, n - 1);
        } else {
          FirstBeyond(es, cutoff, n);
        }
      }
    }
  }

  lemma FirstBeyond(es: seq<Entry>, cutoff: int, n: nat)
    requires Before(Ends(es, 0), cutoff) < n <= |Groups(es, 0)| == |Ends(es, 0)|
    ensures Start(es, 0, n) > cutoff
  {
    var k := Before(Ends(es, 0), cutoff);
    BeforeIsAll(Ends(es, 0), cutoff);
    GroupsTile(es, 0, k);
    StartsGrow(es, k + 1, n);
  }

  lemma {:induction false} BeforeIsBefore(ends: seq<nat>, cutoff: int, m: nat)
    requires m < Before(ends, cutoff)
    ensures ends[m] <= cutoff
  {
    if m > 0 { BeforeIsBefore(ends[1..], cutoff, m - 1); }
  }

  /** Whatever may be dropped leaves the last `keepRecent` contents alone. */
  lemma RecentIsSafe(es: seq<Entry>, keepRecent: nat, n: nat)
    requires n <= Eligible(es, keepRecent) && n <= |Groups(es, 0)|
    ensures Start(es, 0, n) + Min(keepRecent, |es|) <= |es|
  {
    if n > 0 {
      GroupsTile(es, 0, n - 1);
      BeforeIsBefore(Ends(es, 0), |es| - keepRecent, n - 1);
    }
  }

  // ---- Shortening ----

  /** A shortened result keeps its id and its name, and both ends of the text with something cut out between. */
  ghost predicate Trimmed(r: Response, r': Response, max: nat, wire: Wire) {
    var raw := Marshal(r, wire);
    && r'.Shortened? && r'.id == r.id && r'.name == r.name && r'.tokens == Estimate(raw)
    && |r'.head| + |r'.tail| < |raw|
    && raw == r'.head + raw[|r'.head|..|raw| - |r'.tail|] + r'.tail
    && LargestPrefix(raw, max * 2 / 3, |r'.head|)
    && LargestSuffix(raw, max - max * 2 / 3, |r'.tail|)
  }

  lemma CutTrims(r: Response, max: nat, wire: Wire)
    requires Cut(r, max, wire).Some?
    ensures Trimmed(r, Cut(r, max, wire).value, max, wire)
  {
    var raw, h := Marshal(r, wire), max * 2 / 3;
    TextTrims(raw, h, max - h, HeadLength(raw, h), TailLength(raw, max - h));
  }

  lemma TextTrims(raw: string, headBudget: nat, tailBudget: nat, head: nat, tail: nat)
    requires Estimate(raw) > headBudget + tailBudget
    requires head == HeadLength(raw, headBudget) && tail == TailLength(raw, tailBudget)
    ensures head + tail < |raw| && raw == raw[..head] + raw[head..|raw| - tail] + Suffix(raw, tail)
    ensures LargestPrefix(raw, headBudget, head) && LargestSuffix(raw, tailBudget, tail)
  {
    HeadFromIsLargest(raw, headBudget, |raw|);
    TailFromIsLargest(raw, tailBudget, |raw|);
    HeadAndTailApart(raw, head, tail, headBudget, tailBudget);
  }

  /** What shortening may do to one content: trim oversized tool results, and nothing else. */
  ghost predicate SameButTrimmed(e: Entry, e': Entry, max: nat, wire: Wire) {
    && e.Some? == e'.Some?
    && (e.Some? ==>
      && e'.value.role == e.value.role
      && |e'.value.parts| == |e.value.parts|
      && forall i :: 0 <= i < |e.value.parts| ==>
           var p, p' := e.value.parts[i], e'.value.parts[i];
           if Oversized(p, max, wire)
           then p'.Some? && p'.value.response.Some? && Trimmed(p.value.response.value, p'.value.response.value, max, wire)
                && p'.value.call == None && p'.value.text == ""
           else p' == p)
  }

  lemma {:induction false} ShortPartsAt(ps: seq<Option<Part>>, max: nat, wire: Wire, i: nat)
    requires i < |ps|
    ensures |ShortParts(ps, max, wire)| == |ps| && ShortParts(ps, max, wire)[i] == ShortPart(ps[i], max, wire)
  {
    ShortPartsLength(ps, max, wire);
    ShortPartsLength(ps[..|ps| - 1], max, wire);
    if i < |ps| - 1 { ShortPartsAt(ps[..|ps| - 1], max, wire, i); }
  }

  lemma ShortEntryTrims(e: Entry, max: nat, wire: Wire)
    ensures SameButTrimmed(e, ShortEntry(e, max, wire), max, wire)
  {
    if e.Some? {
      var ps := e.value.parts;
      ShortPartsLength(ps, max, wire);
      forall i | 0 <= i < |ps| ensures
        var p' := ShortParts(ps, max, wire)[i];
        if Oversized(ps[i], max, wire)
        then p'.Some? && p'.value.response.Some? && Trimmed(ps[i].value.response.value, p'.value.response.value, max, wire)
             && p'.value.call == None && p'.value.text == ""
        else p' == ps[i]
      {
        ShortPartsAt(ps, max, wire, i);
        if Oversized(ps[i], max, wire) { CutTrims(ps[i].value.response.value, max, wire); }
      }
    }
  }

  lemma {:induction false} ShortGroupAt(es: seq<Entry>, max: nat, wire: Wire, i: nat)
    requires i < |es|
    ensures |ShortGroup(es, max, wire)| == |es| && ShortGroup(es, max, wire)[i] == ShortEntry(es[i], max, wire)
  {
    ShortGroupLength(es, max, wire);
    ShortGroupLength(es[..|es| - 1], max, wire);
    if i < |es| - 1 { ShortGroupAt(es[..|es| - 1], max, wire, i); }
  }

  // ---- The work in progress, content by content ----

  /** The content at position `at` of the history, after the stages came to `a`, and to `b` in the tail. */
  function After(es: seq<Entry>, j: Job, a: nat, b: nat, at: nat): Entry
    requires j.groups == Groups(es, 0) && IsJob(j) && a <= |j.groups| && b <= |j.groups| && at < |es|
  {
    if at < Start(es, 0, a) || Start(es, 0, j.eligible) <= at < Start(es, 0, b)
    then ShortEntry(es[at], j.cap, j.wire)
    else es[at]
  }

  lemma GroupAfter(es: seq<Entry>, j: Job, a: nat, k: nat, b: nat, g: nat, m: nat)
    requires j.groups == Groups(es, 0) && IsJob(j) && a <= |j.groups| && b <= |j.groups| && k <= g < |j.groups|
    requires m < |j.groups[g]|
    ensures |WorkAt(j, a, k, b, g)| == |j.groups[g]| && Start(es, 0, g) + m < |es|
    ensures WorkAt(j, a, k, b, g)[m] == After(es, j, a, b, Start(es, 0, g) + m)
  {
    GroupsTile(es, 0, g);
    ShortGroupAt(j.groups[g], j.cap, j.wire, m);
    Side(es, g, m, a);
    Side(es, g, m, b);
    Side(es, g, m, j.eligible);
  }

  /** A content lies before a group's start exactly when its own group comes before. */
  lemma Side(es: seq<Entry>, g: nat, m: nat, n: nat)
    requires g < |Groups(es, 0)| && m < |Groups(es, 0)[g]| && n <= |Groups(es, 0)|
    ensures Start(es, 0, g) + m < Start(es, 0, n) <==> g < n
  {
    SizeOfGroup(es, g);
    if g < n { StartsGrow(es, g + 1, n); } else { StartsGrow(es, n, g); }
  }

  /** Position `at` of the history, found in the work done on the groups from `k` up to `n`. */
  ghost predicate FoundAt(es: seq<Entry>, j: Job, a: nat, k: nat, b: nat, n: nat, at: nat, want: Entry)
    requires j.groups == Groups(es, 0) && k <= n <= |j.groups|
  {
    var m := at - Start(es, 0, k);
    0 <= m < |WorkUpTo(j, a, k, b, n)| && WorkUpTo(j, a, k, b, n)[m] == want
  }

  lemma FoundStays(es: seq<Entry>, j: Job, a: nat, k: nat, b: nat, n: nat, at: nat, want: Entry)
    requires j.groups == Groups(es, 0) && k <= n < |j.groups| && FoundAt(es, j, a, k, b, n, at, want)
    ensures FoundAt(es, j, a, k, b, n + 1, at, want)
  {
  }

  lemma FoundInLast(es: seq<Entry>, j: Job, a: nat, k: nat, b: nat, n: nat, at: nat)
    requires j.groups == Groups(es, 0) && IsJob(j) && a <= |j.groups| && b <= |j.groups| && k <= n < |j.groups|
    requires Start(es, 0, n) <= at < Start(es, 0, n + 1) <= |es|
    ensures FoundAt(es, j, a, k, b, n + 1, at, After(es, j, a, b, at))
  {
    WorkLength(es, j, a, k, b, n);
    SizeOfGroup(es, n);
    GroupAfter(es, j, a, k, b, n, at - Start(es, 0, n));
  }

  lemma {:induction false} WorkIs(es: seq<Entry>, j: Job, a: nat, k: nat, b: nat, n: nat, at: nat)
    requires j.groups == Groups(es, 0) && IsJob(j) && a <= |j.groups| && b <= |j.groups| && k <= n <= |j.groups|
    requires Start(es, 0, k) <= at < Start(es, 0, n)
    ensures FoundAt(es, j, a, k, b, n, at, After(es, j, a, b, at))
  {
    assert k < n;
    if at < Start(es, 0, n - 1) {
      WorkIs(es, j, a, k, b, n - 1, at);
      FoundStays(es, j, a, k, b, n - 1, at, After(es, j, a, b, at));
    } else {
      FoundInLast(es, j, a, k, b, n - 1, at);
    }
  }

  lemma SizeOfGroup(es: seq<Entry>, g: nat)
    requires g < |Groups(es, 0)|
    ensures |Groups(es, 0)[g]| == Start(es, 0, g + 1) - Start(es, 0, g)
  {
    GroupsTile(es, 0, g);
  }

  /** One group kept adds its length. */
  lemma WorkGrows(es: seq<Entry>, j: Job, a: nat, k: nat, b: nat, n: nat)
    requires j.groups == Groups(es, 0) && k <= n < |j.groups|
    ensures |WorkUpTo(j, a, k, b, n + 1)| == |WorkUpTo(j, a, k, b, n)| + Start(es, 0, n + 1) - Start(es, 0, n)
    ensures Start(es, 0, n) <= Start(es, 0, n + 1)
  {
    SizeOfGroup(es, n);
    GroupSize(j, a, k, b, n);
  }

  lemma {:induction false} WorkLength(es: seq<Entry>, j: Job, a: nat, k: nat, b: nat, n: nat)
    requires j.groups == Groups(es, 0) && IsJob(j) && k <= n <= |j.groups|
    ensures Start(es, 0, k) <= Start(es, 0, n)
    ensures |WorkUpTo(j, a, k, b, n)| == Start(es, 0, n) - Start(es, 0, k)
  {
    if k < n {
      WorkLength(es, j, a, k, b, n - 1);
      WorkGrows(es, j, a, k, b, n - 1);
    } else {
      NothingBelow(j, a, k, b, k);
    }
  }

  lemma GroupSize(j: Job, a: nat, k: nat, b: nat, g: nat)
    requires k <= g < |j.groups|
    ensures |WorkAt(j, a, k, b, g)| == |j.groups[g]|
  {
    ShortGroupLength(j.groups[g], j.cap, j.wire);
  }

  lemma {:induction false} NothingBelow(j: Job, a: nat, k: nat, b: nat, n: nat)
    requires n <= k <= |j.groups|
    ensures WorkUpTo(j, a, k, b, n) == []
  {
    if n > 0 { NothingBelow(j, a, k, b, n - 1); }
  }

  // ---- The stages stop at the first history that fits ----

  lemma {:induction false} StopShorteningIsFirst(j: Job, n: nat)
    requires n <= j.eligible
    ensures var r := StopShortening(j, n);
            && (r == j.eligible || WorkCost(j, r, 0, j.eligible) <= j.budget)
            && forall m :: n <= m < r ==> WorkCost(j, m, 0, j.eligible) > j.budget
    decreases j.eligible - n
  {
    if n < j.eligible && WorkCost(j, n, 0, j.eligible) > j.budget { StopShorteningIsFirst(j, n + 1); }
  }

  lemma {:induction false} StopDroppingIsFirst(j: Job, a: nat, n: nat)
    requires n <= j.eligible
    ensures var r := StopDropping(j, a, n);
            && (r == j.eligible || WorkCost(j, a, r, j.eligible) <= j.budget)
            && forall m :: n <= m < r ==> WorkCost(j, a, m, j.eligible) > j.budget
    decreases j.eligible - n
  {
    if n < j.eligible && WorkCost(j, a, n, j.eligible) > j.budget { StopDroppingIsFirst(j, a, n + 1); }
  }

  lemma {:induction false} StopLastIsFirst(j: Job, a: nat, k: nat, n: nat)
    requires n <= |j.groups|
    ensures var r := StopLast(j, a, k, n);
            && (r == |j.groups| || WorkCost(j, a, k, r) <= j.budget)
            && forall m :: n <= m < r ==> WorkCost(j, a, k, m) > j.budget
    decreases |j.groups| - n
  {
    if n < |j.groups| && WorkCost(j, a, k, n) > j.budget { StopLastIsFirst(j, a, k, n + 1); }
  }

  /**
   Gentlest first: each stage stops at the first history that fits, and a later stage starts only when the one
   before did all it could. So the dropped groups are the fewest that fit, and when even the last stage leaves
   the history over budget, every eligible group is gone and every result is trimmed.
   */
  lemma EscalatesOnlyWhenNeeded(j: Job)
    requires IsJob(j)
    ensures
      var (a, k, b) := Plan(j);
      && (forall m :: 0 <= m < a ==> WorkCost(j, m, 0, j.eligible) > j.budget)
      && (k > 0 ==> a == j.eligible)
      && (forall m :: 0 <= m < k ==> WorkCost(j, a, m, j.eligible) > j.budget)
      && (b > j.eligible ==> k == j.eligible)
      && (forall m :: j.eligible <= m < b ==> WorkCost(j, a, k, m) > j.budget)
      && (WorkCost(j, a, k, b) <= j.budget || (a == k == j.eligible && b == |j.groups|))
  {
    StopShorteningIsFirst(j, 0);
    var a := StopShortening(j, 0);
    StopDroppingIsFirst(j, a, 0);
    var k := StopDropping(j, a, 0);
    StopLastIsFirst(j, a, k, j.eligible);
  }

  // ---- The result ----

  /** `kept` is everything from position `d` on, at most trimmed. */
  ghost predicate Tail(es: seq<Entry>, kept: seq<Entry>, d: nat, max: nat, wire: Wire) {
    && d <= |es| && |kept| == |es| - d
    && forall m :: 0 <= m < |kept| ==> kept[m] == es[d + m] || kept[m] == ShortEntry(es[d + m], max, wire)
  }

  /** No call before `d` has a response from `d` on. */
  ghost predicate Unsplit(es: seq<Entry>, d: nat) {
    forall p: nat, q: nat :: Run(es, p, q) ==> (p < d <==> q < d)
  }

  lemma WorkIsTail(es: seq<Entry>, j: Job, a: nat, k: nat, b: nat)
    requires j.groups == Groups(es, 0) && IsJob(j) && a <= |j.groups| && b <= |j.groups| && k <= |j.groups|
    ensures Tail(es, Work(j, a, k, b), Start(es, 0, k), j.cap, j.wire)
  {
    LastGroupEndsHistory(es, 0);
    WorkLength(es, j, a, k, b, |j.groups|);
    var d, kept := Start(es, 0, k), Work(j, a, k, b);
    forall m | 0 <= m < |kept| ensures kept[m] == es[d + m] || kept[m] == ShortEntry(es[d + m], j.cap, j.wire) {
      WorkIs(es, j, a, k, b, |j.groups|, d + m);
    }
  }

  lemma NothingSplit(es: seq<Entry>, n: nat)
    requires n <= |Groups(es, 0)|
    ensures Unsplit(es, Start(es, 0, n))
  {
    forall p: nat, q: nat | Run(es, p, q) ensures p < Start(es, 0, n) <==> q < Start(es, 0, n) {
      RunsStayTogether(es, n, p, q);
    }
  }

  /** What remains of the output once the note, if there is one, is taken off. */
  function WithoutNote(out: seq<Entry>, dropped: nat): seq<Entry> {
    if dropped > 0 && out != [] then out[1..] else out
  }

  /** The positions of the elements that `p` holds of. */
  ghost function Where<T>(s: seq<T>, p: T -> bool): set<nat> { set i | 0 <= i < |s| && p(s[i]) }

  lemma WhereNext<T>(s: seq<T>, p: T -> bool)
    requires s != []
    ensures |Where(s, p)| == |Where(s[..|s| - 1], p)| + if p(s[|s| - 1]) then 1 else 0
  {
    var n := |s| - 1;
    assert Where(s, p) == Where(s[..n], p) + if p(s[n]) then {n} else {};
  }

  ghost function TooBig(max: nat, wire: Wire): Option<Part> -> bool { p => Oversized(p, max, wire) }

  lemma {:induction false} CountPartsIs(ps: seq<Option<Part>>, max: nat, wire: Wire)
    ensures CountParts(ps, max, wire) == |Where(ps, TooBig(max, wire))|
  {
    if ps != [] {
      CountPartsIs(ps[..|ps| - 1], max, wire);
      WhereNext(ps, TooBig(max, wire));
    }
  }

  lemma {:induction false} CountGroupConcat(a: seq<Entry>, b: seq<Entry>, max: nat, wire: Wire)
    ensures CountGroup(a + b, max, wire) == CountGroup(a, max, wire) + CountGroup(b, max, wire)
  {
    if b == [] {
      assert a + b == a;
    } else {
      assert (a + b)[..|a + b| - 1] == a + b[..|b| - 1];
      CountGroupConcat(a, b[..|b| - 1], max, wire);
    }
  }

  /** A content counts for as many truncated results as it has oversized ones, a missing one for none. */
  lemma ContentCounts(es: seq<Entry>, e: Entry, max: nat, wire: Wire)
    ensures CountGroup([], max, wire) == 0
    ensures CountGroup(es + [e], max, wire) ==
              CountGroup(es, max, wire) + if e.Some? then |Where(e.value.parts, TooBig(max, wire))| else 0
  {
    assert (es + [e])[..|es|] == es;
    if e.Some? { CountPartsIs(e.value.parts, max, wire); }
  }

  lemma CountGroupJoins(es: seq<Entry>, from: nat, mid: nat, to: nat, max: nat, wire: Wire)
    requires from <= mid <= to <= |es|
    ensures CountGroup(es[from..to], max, wire) == CountGroup(es[from..mid], max, wire) + CountGroup(es[mid..to], max, wire)
  {
    assert es[from..to] == es[from..mid] + es[mid..to];
    CountGroupConcat(es[from..mid], es[mid..to], max, wire);
  }

  /** The results counted as truncated are the oversized ones of the contents that were shortened. */
  lemma {:induction false} TruncatedIs(es: seq<Entry>, j: Job, from: nat, to: nat)
    requires j.groups == Groups(es, 0) && from <= to <= |j.groups|
    ensures Start(es, 0, from) <= Start(es, 0, to)
    ensures CountGroups(j, from, to) == CountGroup(es[Start(es, 0, from)..Start(es, 0, to)], j.cap, j.wire)
  {
    StartsGrow(es, from, to);
    if from == to {
      assert es[Start(es, 0, from)..Start(es, 0, to)] == [];
    } else {
      TruncatedIs(es, j, from, to - 1);
      GroupsTile(es, 0, to - 1);
      StartsGrow(es, from, to - 1);
      CountGroupJoins(es, Start(es, 0, from), Start(es, 0, to - 1), Start(es, 0, to), j.cap, j.wire);
    }
  }

  /** What the report says of a history over budget: the contents before the cut, and what shortening cut. */
  lemma ReportIs(es: seq<Entry>, policy: Policy, wire: Wire, notice: Notice)
    requires policy.maxTokens > 0 && policy.keepRecent > 0 && policy.toolResultTokens > 0
    requires TotalCost(es, wire) > policy.maxTokens && es != []
    ensures
      var j := JobOf(es, policy, wire);
      var report := Compacted(es, policy, wire, notice).1;
      && IsJob(j)
      && var (a, k, b) := Plan(j);
      && Start(es, 0, j.eligible) <= Start(es, 0, b) <= |es|
      && report.dropped == Start(es, 0, k)
      && report.truncated == CountGroup(es[..Start(es, 0, a)], j.cap, wire)
                             + CountGroup(es[Start(es, 0, j.eligible)..Start(es, 0, b)], j.cap, wire)
  {
    AsManyGroupsAsEnds(es, 0);
    var j := JobOf(es, policy, wire);
    var (a, k, b) := Plan(j);
    SizeIsStart(es, j, k);
    TruncatedIs(es, j, 0, a);
    TruncatedIs(es, j, j.eligible, b);
  }

  /** A history that fits is left alone, and the report says so. */
  lemma FittingIsKept(es: seq<Entry>, policy: Policy, wire: Wire, notice: Notice)
    requires policy.maxTokens > 0 && policy.keepRecent > 0 && policy.toolResultTokens > 0
    requires TotalCost(es, wire) <= policy.maxTokens
    ensures
      var (out, report) := Compacted(es, policy, wire, notice);
      out == es && report.before == report.after == TotalCost(es, wire) && report.dropped == 0 && report.truncated == 0
  {
  }

  /** Dropped plus kept is everything; the recent contents and every call with its responses stay together. */
  lemma CompactKeeps(es: seq<Entry>, policy: Policy, wire: Wire, notice: Notice)
    requires policy.maxTokens > 0 && policy.keepRecent > 0 && policy.toolResultTokens > 0
    ensures
      var (out, report) := Compacted(es, policy, wire, notice);
      && (report.dropped > 0 ==> out != [] && out[0] == Placeholder(notice, report.dropped, policy.canRecall))
      && Tail(es, WithoutNote(out, report.dropped), report.dropped, policy.toolResultTokens, wire)
      && Unsplit(es, report.dropped)
      && report.dropped + Min(policy.keepRecent, |es|) <= |es|
      && report.before == TotalCost(es, wire) && report.after == TotalCost(out, wire)
      && (report.before <= policy.maxTokens ==> out == es)
  {
    var (out, report) := Compacted(es, policy, wire, notice);
    if report.before > policy.maxTokens && es != [] {
      AsManyGroupsAsEnds(es, 0);
      var j := JobOf(es, policy, wire);
      var (a, k, b) := Plan(j);
      SizeIsStart(es, j, k);
      WorkIsTail(es, j, a, k, b);
      assert WithoutNote(out, report.dropped) == Work(j, a, k, b);
      RecentIsSafe(es, policy.keepRecent, k);
      NothingSplit(es, k);
    }
  }

  /** Before the first stage the work is the history itself. */
  lemma NothingDone(es: seq<Entry>, j: Job)
    requires j.groups == Groups(es, 0)
    ensures Work(j, 0, 0, j.eligible) == es && Stage(j, 0, 0, j.eligible) == j.groups
  {
    LastGroupEndsHistory(es, 0);
    UntouchedUpTo(es, j, |j.groups|);
    assert es[..|es|] == es;
    StageLength(j, 0, 0, j.eligible, |j.groups|);
    forall g | 0 <= g < |j.groups| ensures Stage(j, 0, 0, j.eligible)[g] == j.groups[g] {
      StageAt(j, 0, 0, j.eligible, |j.groups|, g);
    }
  }

  lemma {:induction false} UntouchedUpTo(es: seq<Entry>, j: Job, n: nat)
    requires j.groups == Groups(es, 0) && n <= |j.groups|
    ensures WorkUpTo(j, 0, 0, j.eligible, n) == es[..Start(es, 0, n)]
  {
    if n > 0 {
      UntouchedUpTo(es, j, n - 1);
      UntouchedAt(j, n - 1);
      GroupsTile(es, 0, n - 1);
      NextPrefix(es, j.groups[n - 1], Start(es, 0, n - 1), Start(es, 0, n));
    }
  }

  lemma UntouchedAt(j: Job, n: nat)
    requires n < |j.groups|
    ensures WorkUpTo(j, 0, 0, j.eligible, n + 1) == WorkUpTo(j, 0, 0, j.eligible, n) + j.groups[n]
  {
  }

  lemma NextPrefix(es: seq<Entry>, group: seq<Entry>, m: nat, n: nat)
    requires m <= n <= |es| && group == es[m..n]
    ensures es[..m] + group == es[..n]
  {
  }
}
