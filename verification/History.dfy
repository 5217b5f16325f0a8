/**
 Compact as it runs, over message objects that belong to the caller. None of these methods has a `modifies`
 clause: whatever they change they copy first, and what comes back is either one of the caller's own objects,
 kept as it was, or a new one.
 */
module History {
  import opened Base
  import opened Tokens
  import opened HistorySpec
  import opened HistoryTheorems

  class PartObj {
    var call: Option<Call>
    var response: Option<Response>
    var text: string

    constructor (call: Option<Call>, response: Option<Response>, text: string)
      ensures this.call == call && this.response == response && this.text == text
    {
      this.call, this.response, this.text := call, response, text;
    }
  }

  class ContentObj {
    var role: string
    var parts: seq<PartObj?>

    constructor (role: string, parts: seq<PartObj?>)
      ensures this.role == role && this.parts == parts
    {
      this.role, this.parts := role, parts;
    }
  }

  ghost function PartView(p: PartObj?): Option<Part>
    reads p
  {
    if p == null then None else Some(Part(p.call, p.response, p.text))
  }

  ghost function PartsView(ps: seq<PartObj?>): seq<Option<Part>>
    reads ps
  {
    if ps == [] then [] else PartsView(ps[..|ps| - 1]) + [PartView(ps[|ps| - 1])]
  }

  ghost function EntryView(c: ContentObj?): Entry
    reads c, PartsIn(c)
  {
    if c == null then None else Some(Content(c.role, PartsView(c.parts)))
  }

  method CostOfPart(p: PartObj?, wire: Wire) returns (n: nat)
    ensures n == PartCost(PartView(p), wire)
  {
    n := 0;
    if p != null {
      if p.call.Some? {
        var name := EstimateTokens(p.call.value.name);
        var args := EstimateTokens(p.call.value.args);
        n := name + args;
      } else if p.response.Some? {
        n := EstimateTokens(Marshal(p.response.value, wire));
      } else {
        n := EstimateTokens(p.text);
      }
    }
  }

  method CostOfContent(c: ContentObj?, wire: Wire) returns (n: nat)
    ensures n == EntryCost(EntryView(c), wire)
  {
    if c == null { return 0; }
    n := MESSAGE_OVERHEAD;
    for i := 0 to |c.parts|
      invariant n == MESSAGE_OVERHEAD + PartsCost(PartsView(c.parts[..i]), wire)
    {
      var cost := CostOfPart(c.parts[i], wire);
      assert c.parts[..i + 1][..i] == c.parts[..i];
      n := n + cost;
    }
    assert c.parts[..|c.parts|] == c.parts;
  }

  method Shorten(r: Response, max: nat, wire: Wire) returns (shortened: Option<Response>)
    ensures shortened == Cut(r, max, wire)
  {
    var raw := Marshal(r, wire);
    var cost := EstimateTokens(raw);
    if cost <= max { return None; }
    var headTokens := max * 2 / 3;
    var head := PrefixWithinTokens(raw, headTokens);
    var tail := SuffixWithinTokens(raw, max - headTokens);
    shortened := Some(Shortened(r.id, r.name, raw[..head], Suffix(raw, tail), cost));
  }

  /** The part itself when it is not oversized, else a new one holding the shortened result. */
  method ShortenPart(p: PartObj?, max: nat, wire: Wire) returns (p': PartObj?, changed: bool)
    ensures PartView(p') == ShortPart(old(PartView(p)), max, wire)
    ensures changed <==> Oversized(old(PartView(p)), max, wire)
    ensures if changed then p' != null && fresh(p') else p' == p
  {
    p', changed := p, false;
    if p != null && p.response.Some? {
      var shortened := Shorten(p.response.value, max, wire);
      if shortened.Some? {
        p' := new PartObj(None, shortened, "");
        changed := true;
      }
    }
  }


  lemma {:induction false} PartsViewLength(ps: seq<PartObj?>)
    ensures |PartsView(ps)| == |ps|
  {
    if ps != [] { PartsViewLength(ps[..|ps| - 1]); }
  }

  lemma {:induction false} PartsViewAt(ps: seq<PartObj?>, i: nat)
    requires i < |ps|
    ensures |PartsView(ps)| == |ps| && PartsView(ps)[i] == PartView(ps[i])
  {
    PartsViewLength(ps);
    PartsViewLength(ps[..|ps| - 1]);
    if i < |ps| - 1 { PartsViewAt(ps[..|ps| - 1], i); }
  }

  lemma PartsViewUpdate(ps: seq<PartObj?>, i: nat, p: PartObj?)
    requires i < |ps|
    ensures |PartsView(ps)| == |ps| && PartsView(ps[i := p]) == PartsView(ps)[i := PartView(p)]
  {
    PartsViewLength(ps);
    PartsViewLength(ps[i := p]);
    var v := PartsView(ps)[i := PartView(p)];
    forall h | 0 <= h < |ps| ensures PartsView(ps[i := p])[h] == v[h] {
      PartsViewAt(ps, h);
      PartsViewAt(ps[i := p], h);
    }
  }

  /** Making new objects leaves every view of old ones as it was. */
  twostate lemma {:induction false} SameParts(ps: seq<PartObj?>)
    requires forall p: PartObj :: old(allocated(p)) ==> p.call == old(p.call) && p.response == old(p.response) && p.text == old(p.text)
    ensures PartsView(ps) == old(PartsView(ps))
  {
    if ps != [] { SameParts(ps[..|ps| - 1]); }
  }

  /** The parts with oversized results shortened, in a copy of the slice. */
  method ShortenParts(ps: seq<PartObj?>, max: nat, wire: Wire) returns (parts: seq<PartObj?>, n: nat)
    ensures PartsView(parts) == ShortParts(old(PartsView(ps)), max, wire) && PartsView(ps) == old(PartsView(ps))
    ensures n == CountParts(old(PartsView(ps)), max, wire)
  {
    ghost var v := PartsView(ps);
    PartsViewLength(ps);
    parts, n := ps, 0;
    for i := 0 to |ps|
      invariant |parts| == |ps| == |v| && PartsView(ps) == v
      invariant PartsView(parts) == PartsSoFar(v, i, max, wire)
      invariant n == CountParts(v[..i], max, wire)
    {
      PartsViewAt(ps, i);
      label L: var part, changed := ShortenPart(ps[i], max, wire);
      SameParts@L(ps);
      SameParts@L(parts);
      PartsNext(v, i, max, wire);
      if changed {
        PartsViewUpdate(parts, i, part);
        parts := parts[i := part];
        n := n + 1;
      }
    }
    PartsAllDone(v, max, wire);
  }

  /** The content with oversized results shortened: the same object when there are none, else a new one. */
  method ShortenContent(c: ContentObj?, max: nat, wire: Wire) returns (c': ContentObj?, n: nat)
    ensures EntryView(c') == ShortEntry(old(EntryView(c)), max, wire)
    ensures n == CountEntry(old(EntryView(c)), max, wire)
    ensures if n == 0 then c' == c else c' != null && fresh(c')
  {
    c', n := c, 0;
    if c == null { return; }
    var parts;
    parts, n := ShortenParts(c.parts, max, wire);
    if n > 0 {
      c' := new ContentObj(c.role, parts);
    } else {
      NothingOversized(PartsView(c.parts), max, wire);
    }
  }

  // ---- Lists of contents ----

  ghost function PartsIn(c: ContentObj?): set<PartObj?>
    reads c
  {
    if c == null then {} else set p | p in c.parts
  }

  ghost function PartsOf(cs: seq<ContentObj?>): set<PartObj?>
    reads cs
  {
    if cs == [] then {} else PartsOf(cs[..|cs| - 1]) + PartsIn(cs[|cs| - 1])
  }

  ghost function View(cs: seq<ContentObj?>): seq<Entry>
    reads cs, PartsOf(cs)
  {
    if cs == [] then [] else View(cs[..|cs| - 1]) + [EntryView(cs[|cs| - 1])]
  }

  twostate lemma {:induction false} SameView(cs: seq<ContentObj?>)
    requires forall p: PartObj :: old(allocated(p)) ==> p.call == old(p.call) && p.response == old(p.response) && p.text == old(p.text)
    requires forall c: ContentObj :: old(allocated(c)) ==> c.role == old(c.role) && c.parts == old(c.parts)
    ensures View(cs) == old(View(cs))
  {
    if cs != [] {
      SameView(cs[..|cs| - 1]);
      var c := cs[|cs| - 1];
      if c != null { SameParts(c.parts); }
      assert EntryView(c) == old(EntryView(c));
    }
  }

  lemma ViewAppend(cs: seq<ContentObj?>, c: ContentObj?)
    ensures View(cs + [c]) == View(cs) + [EntryView(c)]
  {
    assert (cs + [c])[..|cs|] == cs;
  }

  lemma {:induction false} ViewLength(cs: seq<ContentObj?>)
    ensures |View(cs)| == |cs|
  {
    if cs != [] { ViewLength(cs[..|cs| - 1]); }
  }

  lemma {:induction false} ViewAt(cs: seq<ContentObj?>, i: nat)
    requires i < |cs|
    ensures |View(cs)| == |cs| && View(cs)[i] == EntryView(cs[i])
  {
    ViewLength(cs);
    ViewLength(cs[..|cs| - 1]);
    if i < |cs| - 1 { ViewAt(cs[..|cs| - 1], i); }
  }

  /** The caller's own objects, and new ones. */
  twostate predicate OwnOrNew(own: seq<ContentObj?>, new cs: seq<ContentObj?>) {
    forall c :: c in cs ==> c in own || fresh(c)
  }

  lemma TotalCostAppend(es: seq<Entry>, e: Entry, wire: Wire)
    ensures TotalCost(es + [e], wire) == TotalCost(es, wire) + EntryCost(e, wire)
  {
    assert (es + [e])[..|es|] == es;
  }

  method CostOfContents(cs: seq<ContentObj?>, wire: Wire) returns (n: nat)
    ensures n == TotalCost(View(cs), wire) && View(cs) == old(View(cs))
  {
    n := 0;
    for i := 0 to |cs|
      invariant n == TotalCost(View(cs[..i]), wire)
    {
      label L: var cost := CostOfContent(cs[i], wire);
      SameView@L(cs[..i]);
      assert cs[..i + 1] == cs[..i] + [cs[i]];
      ViewAppend(cs[..i], cs[i]);
      TotalCostAppend(View(cs[..i]), EntryView(cs[i]), wire);
      n := n + cost;
    }
    assert cs[..|cs|] == cs;
    SameView(cs);
  }

  lemma ViewUpdate(cs: seq<ContentObj?>, i: nat, c: ContentObj?)
    requires i < |cs|
    ensures |View(cs)| == |cs| && View(cs[i := c]) == View(cs)[i := EntryView(c)]
  {
    ViewLength(cs);
    ViewLength(cs[i := c]);
    var v := View(cs)[i := EntryView(c)];
    forall h | 0 <= h < |cs| ensures View(cs[i := c])[h] == v[h] {
      ViewAt(cs, h);
      ViewAt(cs[i := c], h);
    }
  }

  /** One turn of the loop below: entry `i`, replaced in the copy when one of its results is oversized. */
  method TruncateEntry(items: seq<ContentObj?>, out0: seq<ContentObj?>, i: nat, max: nat, wire: Wire)
    returns (out: seq<ContentObj?>, n: nat)
    requires i < |items| == |out0| == |View(items)| && View(out0) == GroupSoFar(View(items), i, max, wire)
    ensures |out| == |out0| && View(items) == old(View(items))
    ensures View(out) == GroupSoFar(old(View(items)), i + 1, max, wire)
    ensures n == CountEntry(old(View(items))[i], max, wire)
    ensures OwnOrNew(out0 + [items[i]], out)
  {
    ViewAt(items, i);
    GroupNext(View(items), i, max, wire);
    label L: var c;
    c, n := ShortenContent(items[i], max, wire);
    SameView@L(items);
    SameView@L(out0);
    ViewUpdate(out0, i, c);
    out := out0;
    if n > 0 {
      out := out0[i := c];
    } else {
      EntryUntouched(old(View(items))[i], max, wire);
    }
  }

  /** One group with oversized results shortened, in a copy of the slice. */
  method TruncateToolResults(items: seq<ContentObj?>, max: nat, wire: Wire) returns (out: seq<ContentObj?>, n: nat)
    ensures View(out) == ShortGroup(old(View(items)), max, wire)
    ensures n == CountGroup(old(View(items)), max, wire)
    ensures OwnOrNew(items, out)
  {
    ghost var v := View(items);
    ViewLength(items);
    out, n := items, 0;
    for i := 0 to |items|
      invariant |out| == |items| == |v| && View(items) == v
      invariant View(out) == GroupSoFar(v, i, max, wire)
      invariant n == CountGroup(v[..i], max, wire)
      invariant OwnOrNew(items, out)
    {
      GroupNext(v, i, max, wire);
      var shortened;
      out, shortened := TruncateEntry(items, out, i, max, wire);
      n := n + shortened;
    }
    GroupAllDone(v, max, wire);
  }

  // ---- Groups ----

  predicate HasFunctionCall(c: ContentObj?)
    reads c, PartsIn(c)
  {
    c != null && exists j :: 0 <= j < |c.parts| && c.parts[j] != null && c.parts[j].call.Some?
  }

  predicate HasFunctionResponse(c: ContentObj?)
    reads c, PartsIn(c)
  {
    c != null && exists j :: 0 <= j < |c.parts| && c.parts[j] != null && c.parts[j].response.Some?
  }

  lemma SameKinds(c: ContentObj?)
    ensures HasFunctionCall(c) == HasCall(EntryView(c))
    ensures HasFunctionResponse(c) == HasResponse(EntryView(c))
  {
    if c != null {
      PartsViewLength(c.parts);
      var ps := PartsView(c.parts);
      forall j | 0 <= j < |ps| ensures ps[j] == PartView(c.parts[j]) { PartsViewAt(c.parts, j); }
      if HasFunctionCall(c) {
        var j :| 0 <= j < |c.parts| && c.parts[j] != null && c.parts[j].call.Some?;
        assert ps[j].Some? && ps[j].value.call.Some?;
      }
      if HasFunctionResponse(c) {
        var j :| 0 <= j < |c.parts| && c.parts[j] != null && c.parts[j].response.Some?;
        assert ps[j].Some? && ps[j].value.response.Some?;
      }
    }
  }

  datatype Group = Group(items: seq<ContentObj?>, end: nat)

  lemma KindAt(cs: seq<ContentObj?>, i: nat)
    requires i < |cs|
    ensures |View(cs)| == |cs|
    ensures HasCall(View(cs)[i]) == HasFunctionCall(cs[i]) && HasResponse(View(cs)[i]) == HasFunctionResponse(cs[i])
  {
    ViewAt(cs, i);
    SameKinds(cs[i]);
  }

  /** The end of the group that starts at `i`: past the responses if `i` is a call. */
  method GroupEndAt(contents: seq<ContentObj?>, i: nat) returns (j: nat)
    requires i < |contents|
    ensures |View(contents)| == |contents|
    ensures j == GroupEnd(View(contents), i)
  {
    ghost var v := View(contents);
    KindAt(contents, i);
    j := i + 1;
    if HasFunctionCall(contents[i]) {
      while j < |contents| && HasFunctionResponse(contents[j])
        invariant i + 1 <= j <= |contents| && View(contents) == v
        invariant ResponsesEnd(v, i + 1) == ResponsesEnd(v, j)
      {
        KindAt(contents, j);
        j := j + 1;
      }
      if j < |contents| { KindAt(contents, j); }
    }
  }

  lemma ViewSlice(cs: seq<ContentObj?>, i: nat, j: nat)
    requires i <= j <= |cs|
    ensures |View(cs)| == |cs| && View(cs[i..j]) == View(cs)[i..j]
  {
    ViewLength(cs);
    ViewLength(cs[i..j]);
    forall k | 0 <= k < j - i ensures View(cs[i..j])[k] == View(cs)[i + k] {
      ViewAt(cs[i..j], k);
      ViewAt(cs, i + k);
    }
  }

  function StartOf(groups: seq<Group>, g: nat): nat
    requires g <= |groups|
  {
    if g == 0 then 0 else groups[g - 1].end
  }

  predicate SliceOf(contents: seq<ContentObj?>, from: nat, group: Group) {
    from <= group.end <= |contents| && group.items == contents[from..group.end]
  }

  /** Consecutive slices of `contents`. */
  ghost predicate Tiles(contents: seq<ContentObj?>, groups: seq<Group>) {
    groups != [] ==>
      var n := |groups| - 1;
      Tiles(contents, groups[..n]) && SliceOf(contents, StartOf(groups, n), groups[n])
  }

  lemma {:induction false} TilesAt(contents: seq<ContentObj?>, groups: seq<Group>, g: nat)
    requires Tiles(contents, groups) && g < |groups|
    ensures SliceOf(contents, StartOf(groups, g), groups[g])
  {
    if g < |groups| - 1 { TilesAt(contents, groups[..|groups| - 1], g); }
  }

  function EndsOf(groups: seq<Group>): seq<nat> {
    if groups == [] then [] else EndsOf(groups[..|groups| - 1]) + [groups[|groups| - 1].end]
  }

  lemma OneGroupMore(contents: seq<ContentObj?>, groups: seq<Group>, group: Group)
    requires Tiles(contents, groups) && SliceOf(contents, StartOf(groups, |groups|), group)
    ensures Tiles(contents, groups + [group]) && EndsOf(groups + [group]) == EndsOf(groups) + [group.end]
    ensures StartOf(groups + [group], |groups| + 1) == group.end
  {
    var groups' := groups + [group];
    assert groups'[..|groups|] == groups;
    assert StartOf(groups', |groups|) == StartOf(groups, |groups|);
  }

  lemma EndsNext(v: seq<Entry>, i: nat, ends: seq<nat>)
    requires i < |v| && Ends(v, 0) == ends + Ends(v, i)
    ensures Ends(v, 0) == ends + [GroupEnd(v, i)] + Ends(v, GroupEnd(v, i))
  {
  }

  /** Ties each call to the responses that follow it. */
  method BuildGroups(contents: seq<ContentObj?>) returns (groups: seq<Group>)
    ensures Tiles(contents, groups) && EndsOf(groups) == Ends(View(contents), 0)
  {
    groups := [];
    ghost var v := View(contents);
    ViewLength(contents);
    var i := 0;
    while i < |contents|
      invariant 0 <= i <= |contents| == |v| && View(contents) == v
      invariant Ends(v, 0) == EndsOf(groups) + Ends(v, i)
      invariant Tiles(contents, groups) && i == StartOf(groups, |groups|)
      decreases |contents| - i
    {
      label L: var j := GroupEndAt(contents, i);
      SameView@L(contents);
      var group := Group(contents[i..j], j);
      OneGroupMore(contents, groups, group);
      EndsNext(v, i, EndsOf(groups));
      groups := groups + [group];
      i := j;
    }
  }

  lemma {:induction false} EndsOfAt(groups: seq<Group>, g: nat)
    requires g < |groups|
    ensures |EndsOf(groups)| == |groups| && EndsOf(groups)[g] == groups[g].end
  {
    EndsOfLength(groups);
    EndsOfLength(groups[..|groups| - 1]);
    if g < |groups| - 1 { EndsOfAt(groups[..|groups| - 1], g); }
  }

  lemma {:induction false} EndsOfLength(groups: seq<Group>)
    ensures |EndsOf(groups)| == |groups|
  {
    if groups != [] { EndsOfLength(groups[..|groups| - 1]); }
  }

  /** The slices are the groups. */
  lemma BuiltGroups(contents: seq<ContentObj?>, groups: seq<Group>, g: nat)
    requires Tiles(contents, groups) && EndsOf(groups) == Ends(View(contents), 0) && g < |groups|
    ensures |groups| == |Groups(View(contents), 0)| && View(groups[g].items) == Groups(View(contents), 0)[g]
  {
    var v := View(contents);
    AsManyGroupsAsEnds(v, 0);
    EndsOfAt(groups, g);
    GroupsTile(v, 0, g);
    StartIs(contents, groups, g);
    TilesAt(contents, groups, g);
    ViewSlice(contents, StartOf(groups, g), groups[g].end);
  }

  lemma StartIs(contents: seq<ContentObj?>, groups: seq<Group>, g: nat)
    requires EndsOf(groups) == Ends(View(contents), 0) && g <= |groups| == |Groups(View(contents), 0)|
    ensures StartOf(groups, g) == Start(View(contents), 0, g)
  {
    if g > 0 {
      EndsOfAt(groups, g - 1);
      GroupsTile(View(contents), 0, g - 1);
    }
  }

  method ProtectedFrom(groups: seq<Group>, total: nat, keepRecent: nat) returns (n: nat)
    ensures n == if keepRecent >= total then 0 else Before(EndsOf(groups), total - keepRecent)
  {
    if keepRecent >= total { return 0; }
    var cutoff := total - keepRecent;
    EndsOfLength(groups);
    ghost var ends := EndsOf(groups);
    n := 0;
    while n < |groups| && groups[n].end <= cutoff
      invariant n <= |groups| == |ends|
      invariant Before(ends, cutoff) == n + Before(ends[n..], cutoff)
    {
      EndsOfAt(groups, n);
      assert ends[n..][1..] == ends[n + 1..];
      n := n + 1;
    }
    if n < |groups| { EndsOfAt(groups, n); }
  }

  // ---- The three stages ----

  function SetOf(items: seq<ContentObj?>): set<ContentObj?> { set c | c in items }

  function ContentsOf(work: seq<seq<ContentObj?>>): set<ContentObj?> {
    if work == [] then {} else ContentsOf(work[..|work| - 1]) + SetOf(work[|work| - 1])
  }

  ghost function PartsOfAll(work: seq<seq<ContentObj?>>): set<PartObj?>
    reads ContentsOf(work)
  {
    if work == [] then {} else PartsOfAll(work[..|work| - 1]) + PartsOf(work[|work| - 1])
  }

  ghost function ViewAll(work: seq<seq<ContentObj?>>): seq<seq<Entry>>
    reads ContentsOf(work), PartsOfAll(work)
  {
    if work == [] then [] else ViewAll(work[..|work| - 1]) + [View(work[|work| - 1])]
  }

  twostate lemma {:induction false} SameViewAll(work: seq<seq<ContentObj?>>)
    requires forall p: PartObj :: old(allocated(p)) ==> p.call == old(p.call) && p.response == old(p.response) && p.text == old(p.text)
    requires forall c: ContentObj :: old(allocated(c)) ==> c.role == old(c.role) && c.parts == old(c.parts)
    ensures ViewAll(work) == old(ViewAll(work))
  {
    if work != [] {
      SameViewAll(work[..|work| - 1]);
      SameView(work[|work| - 1]);
    }
  }

  lemma ViewAllAppend(work: seq<seq<ContentObj?>>, items: seq<ContentObj?>)
    ensures ViewAll(work + [items]) == ViewAll(work) + [View(items)]
  {
    assert (work + [items])[..|work|] == work;
  }

  lemma {:induction false} ViewAllLength(work: seq<seq<ContentObj?>>)
    ensures |ViewAll(work)| == |work|
  {
    if work != [] { ViewAllLength(work[..|work| - 1]); }
  }

  lemma {:induction false} ViewAllAt(work: seq<seq<ContentObj?>>, g: nat)
    requires g < |work|
    ensures |ViewAll(work)| == |work| && ViewAll(work)[g] == View(work[g])
  {
    ViewAllLength(work);
    ViewAllLength(work[..|work| - 1]);
    if g < |work| - 1 { ViewAllAt(work[..|work| - 1], g); }
  }

  lemma ViewAllUpdate(work: seq<seq<ContentObj?>>, g: nat, items: seq<ContentObj?>)
    requires g < |work|
    ensures |ViewAll(work)| == |work| && ViewAll(work[g := items]) == ViewAll(work)[g := View(items)]
  {
    var work' := work[g := items];
    ViewAllLength(work);
    ViewAllLength(work');
    forall h | 0 <= h < |work| ensures ViewAll(work')[h] == ViewAll(work)[g := View(items)][h] {
      ViewAllAt(work, h);
      ViewAllAt(work', h);
    }
  }

  method EstimateGroups(work: seq<seq<ContentObj?>>, wire: Wire) returns (n: nat)
    ensures n == GroupsCost(old(ViewAll(work)), wire) && ViewAll(work) == old(ViewAll(work))
  {
    n := 0;
    for i := 0 to |work|
      invariant n == GroupsCost(old(ViewAll(work[..i])), wire)
    {
      var cost := CostOfContents(work[i], wire);
      SameView(work[i]);
      assert work[..i + 1] == work[..i] + [work[i]];
      assert old(ViewAll(work[..i + 1])) == old(ViewAll(work[..i])) + [old(View(work[i]))] by {
        assert work[..i + 1][..i] == work[..i];
      }
      GroupsCostAppend(old(ViewAll(work[..i])), old(View(work[i])), wire);
      n := n + cost;
    }
    assert work[..|work|] == work;
    SameViewAll(work);
  }

  /** Every object of every group is one of `own`. */
  ghost predicate AllIn(work: seq<seq<ContentObj?>>, own: set<ContentObj?>) {
    forall g, i :: 0 <= g < |work| && 0 <= i < |work[g]| ==> work[g][i] in own
  }

  /** Group `i` shortened in a copy if anything in it is oversized. */
  method ReplaceGroup(work0: seq<seq<ContentObj?>>, i: nat, cap: nat, wire: Wire, ghost own0: set<ContentObj?>)
    returns (work: seq<seq<ContentObj?>>, n: nat, ghost own: set<ContentObj?>)
    requires i < |work0| && AllIn(work0, own0)
    ensures |work| == |work0| == |old(ViewAll(work0))|
    ensures ViewAll(work) == old(ViewAll(work0))[i := ShortGroup(old(ViewAll(work0))[i], cap, wire)]
    ensures n == CountGroup(old(ViewAll(work0))[i], cap, wire) && (n == 0 ==> ViewAll(work) == old(ViewAll(work0)))
    ensures own0 <= own && fresh(own - own0) && AllIn(work, own)
  {
    ViewAllAt(work0, i);
    var shortened;
    shortened, n := TruncateToolResults(work0[i], cap, wire);
    SameViewAll(work0);
    ViewAllUpdate(work0, i, shortened);
    work, own := work0, own0;
    if n > 0 {
      work := work0[i := shortened];
      own := own0 + SetOf(shortened);
    } else {
      NothingToShorten(old(View(work0[i])), cap, wire);
    }
  }

  /** One step of a stage, with the estimate brought up to date. */
  method ShortenGroup(work0: seq<seq<ContentObj?>>, cost0: nat, i: nat, cap: nat, wire: Wire, ghost own0: set<ContentObj?>)
    returns (work: seq<seq<ContentObj?>>, cost: nat, n: nat, ghost own: set<ContentObj?>)
    requires i < |work0| && AllIn(work0, own0) && cost0 == GroupsCost(ViewAll(work0), wire)
    ensures |work| == |work0| == |old(ViewAll(work0))|
    ensures ViewAll(work) == old(ViewAll(work0))[i := ShortGroup(old(ViewAll(work0))[i], cap, wire)]
    ensures n == CountGroup(old(ViewAll(work0))[i], cap, wire) && cost == GroupsCost(ViewAll(work), wire)
    ensures own0 <= own && fresh(own - own0) && AllIn(work, own)
  {
    cost := cost0;
    work, n, own := ReplaceGroup(work0, i, cap, wire, own0);
    if n > 0 { cost := EstimateGroups(work, wire); }
  }

  /** One step of a shortening stage: group `i`, which no stage has touched. */
  method StageStep(work0: seq<seq<ContentObj?>>, cost0: nat, i: nat, cap: nat, wire: Wire,
                   ghost job: Job, ghost a: nat, ghost b: nat, ghost a': nat, ghost b': nat, ghost k: nat, ghost own0: set<ContentObj?>)
    returns (work: seq<seq<ContentObj?>>, cost: nat, n: nat, ghost own: set<ContentObj?>)
    requires job.cap == cap && job.wire == wire && IsJob(job) && k <= i < |job.groups| == |work0| && job.eligible <= b
    requires NextShortened(job, a, b, a', b', i)
    requires ViewAll(work0) == Stage(job, a, k, b) && cost0 == WorkCost(job, a, k, b) && AllIn(work0, own0)
    ensures |work| == |work0| && ViewAll(work) == Stage(job, a', k, b') && cost == WorkCost(job, a', k, b')
    ensures n == CountGroup(job.groups[i], cap, wire)
    ensures own0 <= own && fresh(own - own0) && AllIn(work, own)
  {
    StageCost(job, a, k, b);
    StageCost(job, a', k, b');
    ShortenStep(job, a, b, a', b', k, i);
    work, cost, n, own := ShortenGroup(work0, cost0, i, cap, wire, own0);
  }

  /** Shortens old groups, one by one, until the history fits. */
  method ShortenOld(work0: seq<seq<ContentObj?>>, cost0: nat, eligible: nat, budget: nat, cap: nat, wire: Wire,
                    ghost job: Job, ghost own0: set<ContentObj?>)
    returns (work: seq<seq<ContentObj?>>, cost: nat, n: nat, ghost own: set<ContentObj?>)
    requires job.eligible == eligible && job.budget == budget && job.cap == cap && job.wire == wire && IsJob(job)
    requires |work0| == |job.groups| && AllIn(work0, own0)
    requires ViewAll(work0) == Stage(job, 0, 0, eligible) && cost0 == WorkCost(job, 0, 0, eligible)
    ensures var a := StopShortening(job, 0);
            |work| == |work0| && ViewAll(work) == Stage(job, a, 0, eligible)
            && cost == WorkCost(job, a, 0, eligible) && n == CountGroups(job, 0, a)
    ensures own0 <= own && fresh(own - own0) && AllIn(work, own)
  {
    work, cost, n, own := work0, cost0, 0, own0;
    var i := 0;
    while i < eligible && cost > budget
      invariant 0 <= i <= eligible && |work| == |work0|
      invariant ViewAll(work) == Stage(job, i, 0, eligible)
      invariant cost == WorkCost(job, i, 0, eligible) && n == CountGroups(job, 0, i)
      invariant StopShortening(job, 0) == StopShortening(job, i)
      invariant own0 <= own && fresh(own - own0) && AllIn(work, own)
    {
      var m;
      work, cost, m, own := StageStep(work, cost, i, cap, wire, job, i, eligible, i + 1, eligible, 0, own);
      n := n + m;
      i := i + 1;
    }
  }

  lemma DropView(work: seq<seq<ContentObj?>>, k: nat, job: Job, a: nat, own: set<ContentObj?>)
    requires k < |work| == |job.groups| && IsJob(job) && ViewAll(work) == Stage(job, a, k, job.eligible) && AllIn(work, own)
    ensures ViewAll(work[k := []]) == Stage(job, a, k + 1, job.eligible) && |work[k]| == |job.groups[k]|
    ensures AllIn(work[k := []], own)
  {
    DropStep(job, a, k, job.eligible);
    ViewAllUpdate(work, k, []);
    ViewAllAt(work, k);
    ViewLength(work[k]);
  }

  method DropGroup(work0: seq<seq<ContentObj?>>, k: nat, wire: Wire, ghost job: Job, ghost a: nat, ghost own: set<ContentObj?>)
    returns (work: seq<seq<ContentObj?>>, cost: nat, size: nat)
    requires k < |work0| == |job.groups| && wire == job.wire && IsJob(job) && AllIn(work0, own)
    requires ViewAll(work0) == Stage(job, a, k, job.eligible)
    ensures |work| == |work0| && ViewAll(work) == Stage(job, a, k + 1, job.eligible) && AllIn(work, own)
    ensures cost == WorkCost(job, a, k + 1, job.eligible) && size == |job.groups[k]|
  {
    DropView(work0, k, job, a, own);
    StageCost(job, a, k + 1, job.eligible);
    size := |work0[k]|;
    work := work0[k := []];
    cost := EstimateGroups(work, wire);
  }

  /** Drops groups from the front, one by one, until the history fits. */
  method DropOld(work0: seq<seq<ContentObj?>>, cost0: nat, eligible: nat, budget: nat, wire: Wire,
                 ghost job: Job, ghost a: nat, ghost own: set<ContentObj?>)
    returns (work: seq<seq<ContentObj?>>, cost: nat, dropped: nat)
    requires job.eligible == eligible && job.budget == budget && job.wire == wire && IsJob(job)
    requires |work0| == |job.groups| && AllIn(work0, own)
    requires ViewAll(work0) == Stage(job, a, 0, eligible) && cost0 == WorkCost(job, a, 0, eligible)
    ensures var k := StopDropping(job, a, 0);
            |work| == |work0| && ViewAll(work) == Stage(job, a, k, eligible)
            && cost == WorkCost(job, a, k, eligible) && dropped == SizeUpTo(job, k)
    ensures AllIn(work, own)
  {
    work, cost, dropped := work0, cost0, 0;
    var k := 0;
    while k < eligible && cost > budget
      invariant 0 <= k <= eligible && |work| == |work0| && AllIn(work, own)
      invariant ViewAll(work) == Stage(job, a, k, eligible)
      invariant cost == WorkCost(job, a, k, eligible) && dropped == SizeUpTo(job, k)
      invariant StopDropping(job, a, 0) == StopDropping(job, a, k)
    {
      var size;
      work, cost, size := DropGroup(work, k, wire, job, a, own);
      dropped, k := dropped + size, k + 1;
    }
    assert StopDropping(job, a, k) == k;
  }

  /** The last resort: shortens the protected groups too, one by one, until the history fits. */
  method ShortenRecent(work0: seq<seq<ContentObj?>>, cost0: nat, eligible: nat, budget: nat, cap: nat, wire: Wire,
                       ghost job: Job, ghost a: nat, ghost k: nat, ghost own0: set<ContentObj?>)
    returns (work: seq<seq<ContentObj?>>, n: nat, ghost own: set<ContentObj?>)
    requires job.eligible == eligible && job.budget == budget && job.cap == cap && job.wire == wire && IsJob(job)
    requires |work0| == |job.groups| && a <= eligible && k <= eligible && AllIn(work0, own0)
    requires ViewAll(work0) == Stage(job, a, k, eligible) && cost0 == WorkCost(job, a, k, eligible)
    ensures var b := StopLast(job, a, k, eligible);
            |work| == |work0| && ViewAll(work) == Stage(job, a, k, b) && n == CountGroups(job, eligible, b)
    ensures own0 <= own && fresh(own - own0) && AllIn(work, own)
  {
    work, n, own := work0, 0, own0;
    var cost, i := cost0, eligible;
    while i < |work| && cost > budget
      invariant eligible <= i <= |work| == |work0|
      invariant ViewAll(work) == Stage(job, a, k, i)
      invariant cost == WorkCost(job, a, k, i) && n == CountGroups(job, eligible, i)
      invariant StopLast(job, a, k, eligible) == StopLast(job, a, k, i)
      invariant own0 <= own && fresh(own - own0) && AllIn(work, own)
    {
      var m;
      work, cost, m, own := StageStep(work, cost, i, cap, wire, job, a, i, a, i + 1, k, own);
      n := n + m;
      i := i + 1;
    }
  }

  /** The three stages, gentlest first. */
  method RunStages(work0: seq<seq<ContentObj?>>, cost0: nat, eligible: nat, budget: nat, cap: nat, wire: Wire,
                   ghost job: Job, ghost own0: set<ContentObj?>)
    returns (work: seq<seq<ContentObj?>>, dropped: nat, truncated: nat, ghost own: set<ContentObj?>)
    requires job.eligible == eligible && job.budget == budget && job.cap == cap && job.wire == wire && IsJob(job)
    requires |work0| == |job.groups| && AllIn(work0, own0)
    requires ViewAll(work0) == Stage(job, 0, 0, eligible) && cost0 == WorkCost(job, 0, 0, eligible)
    ensures var (a, k, b) := Plan(job);
            ViewAll(work) == Stage(job, a, k, b) && dropped == SizeUpTo(job, k)
            && truncated == CountGroups(job, 0, a) + CountGroups(job, eligible, b)
    ensures own0 <= own && fresh(own - own0) && AllIn(work, own)
  {
    var cost, n, m;
    work, cost, n, own := ShortenOld(work0, cost0, eligible, budget, cap, wire, job, own0);
    ghost var a := StopShortening(job, 0);
    work, cost, dropped := DropOld(work, cost, eligible, budget, wire, job, a, own);
    ghost var k := StopDropping(job, a, 0);
    work, m, own := ShortenRecent(work, cost, eligible, budget, cap, wire, job, a, k, own);
    truncated := n + m;
  }

  // ---- Compact ----

  lemma {:induction false} ViewConcat(cs: seq<ContentObj?>, ds: seq<ContentObj?>)
    ensures View(cs + ds) == View(cs) + View(ds)
  {
    if ds == [] {
      assert cs + ds == cs;
    } else {
      assert (cs + ds)[..|cs + ds| - 1] == cs + ds[..|ds| - 1];
      ViewConcat(cs, ds[..|ds| - 1]);
    }
  }

  method Concat(work: seq<seq<ContentObj?>>, ghost own: set<ContentObj?>) returns (out: seq<ContentObj?>)
    requires AllIn(work, own)
    ensures View(out) == Flat(old(ViewAll(work)))
    ensures forall c :: c in out ==> c in own
  {
    out := [];
    for i := 0 to |work|
      invariant View(out) == Flat(ViewAll(work[..i]))
      invariant forall c :: c in out ==> c in own
    {
      ViewConcat(out, work[i]);
      assert work[..i + 1] == work[..i] + [work[i]];
      ViewAllAppend(work[..i], work[i]);
      FlatAppend(ViewAll(work[..i]), View(work[i]));
      out := out + work[i];
    }
    assert work[..|work|] == work;
    SameViewAll(work);
  }

  method FillDefaults(policy: Policy) returns (p: Policy)
    ensures p == WithDefaults(policy)
  {
    p := policy;
    if p.maxTokens <= 0 { p := p.(maxTokens := DEFAULT_MAX_TOKENS); }
    if p.keepRecent <= 0 { p := p.(keepRecent := DEFAULT_KEEP_RECENT); }
    if p.toolResultTokens <= 0 { p := p.(toolResultTokens := DEFAULT_TOOL_RESULT_TOKENS); }
  }

  /** The groups as a slice of slices. */
  method ItemsOf(contents: seq<ContentObj?>, groups: seq<Group>) returns (work: seq<seq<ContentObj?>>)
    requires Tiles(contents, groups)
    ensures |work| == |groups| && forall g :: 0 <= g < |groups| ==> work[g] == groups[g].items
    ensures AllIn(work, SetOf(contents))
  {
    work := [];
    for i := 0 to |groups|
      invariant |work| == i && forall g :: 0 <= g < i ==> work[g] == groups[g].items
      invariant AllIn(work, SetOf(contents))
    {
      TilesAt(contents, groups, i);
      work := work + [groups[i].items];
    }
  }

  lemma StartsAsItWas(contents: seq<ContentObj?>, groups: seq<Group>, work: seq<seq<ContentObj?>>)
    requires Tiles(contents, groups) && EndsOf(groups) == Ends(View(contents), 0)
    requires |work| == |groups| && forall g :: 0 <= g < |groups| ==> work[g] == groups[g].items
    ensures ViewAll(work) == Groups(View(contents), 0)
  {
    EndsOfLength(groups);
    AsManyGroupsAsEnds(View(contents), 0);
    ViewAllLength(work);
    forall g | 0 <= g < |work| ensures ViewAll(work)[g] == Groups(View(contents), 0)[g] {
      ViewAllAt(work, g);
      BuiltGroups(contents, groups, g);
    }
  }

  /** The groups of `contents` as they are, and how many of them may be compacted. */
  method Prepare(contents: seq<ContentObj?>, keepRecent: nat) returns (work: seq<seq<ContentObj?>>, eligible: nat)
    ensures ViewAll(work) == Groups(old(View(contents)), 0)
    ensures eligible == Eligible(old(View(contents)), keepRecent)
    ensures AllIn(work, SetOf(contents))
  {
    ViewLength(contents);
    var groups := BuildGroups(contents);
    SameView(contents);
    eligible := ProtectedFrom(groups, |contents|, keepRecent);
    work := ItemsOf(contents, groups);
    SameView(contents);
    StartsAsItWas(contents, groups, work);
  }

  /** What is kept of a history that is over budget. */
  method Escalate(contents: seq<ContentObj?>, cost0: nat, policy: Policy, wire: Wire, ghost job: Job)
    returns (kept: seq<ContentObj?>, dropped: nat, truncated: nat)
    requires policy.maxTokens > 0 && policy.keepRecent > 0 && policy.toolResultTokens > 0
    requires job == JobOf(View(contents), policy, wire) && cost0 == TotalCost(View(contents), wire)
    ensures IsJob(job)
    ensures var (a, k, b) := Plan(job);
            && View(kept) == Work(job, a, k, b) && dropped == SizeUpTo(job, k)
            && truncated == CountGroups(job, 0, a) + CountGroups(job, job.eligible, b)
    ensures OwnOrNew(contents, kept)
  {
    JobIsJob(View(contents), policy, wire);
    NothingDone(View(contents), job);
    var work, eligible := Prepare(contents, policy.keepRecent);
    ViewAllLength(work);
    ghost var own;
    work, dropped, truncated, own :=
      RunStages(work, cost0, eligible, policy.maxTokens, policy.toolResultTokens, wire, job, SetOf(contents));
    ghost var (a, k, b) := Plan(job);
    StageIsWork(job, a, k, b);
    kept := Concat(work, own);
  }

  lemma OneText(note: ContentObj, part: PartObj)
    requires note.parts == [part]
    ensures View([note]) == [Some(Content(note.role, [Some(Part(part.call, part.response, part.text))]))]
  {
    assert [note][..0] == [] && [part][..0] == [];
    assert PartsView([part]) == [PartView(part)];
  }

  /** Puts the note that stands for the dropped contents in front, if any were. */
  method AddNote(kept: seq<ContentObj?>, dropped: nat, canRecall: bool, notice: Notice) returns (out: seq<ContentObj?>)
    ensures View(out) == WithNote(old(View(kept)), dropped, canRecall, notice)
    ensures forall c :: c in out ==> c in kept || fresh(c)
  {
    out := kept;
    if dropped > 0 {
      var part := new PartObj(None, None, notice(dropped, canRecall));
      var note := new ContentObj("user", [part]);
      SameView(kept);
      OneText(note, part);
      ViewConcat([note], kept);
      out := [note] + kept;
    }
  }

  /** Compacts a history already known to be over budget. */
  method CompactOver(contents: seq<ContentObj?>, before: nat, policy: Policy, wire: Wire, notice: Notice, ghost job: Job)
    returns (out: seq<ContentObj?>, report: Report)
    requires policy.maxTokens > 0 && policy.keepRecent > 0 && policy.toolResultTokens > 0
    requires job == JobOf(View(contents), policy, wire) && before == TotalCost(View(contents), wire)
    ensures IsJob(job) && View(out) == Reduced(job, before, policy.canRecall, notice).0
    ensures report == Reduced(job, before, policy.canRecall, notice).1
    ensures forall c :: c in out ==> c in contents || fresh(c)
  {
    var kept, dropped, truncated := Escalate(contents, before, policy, wire, job);
    out := AddNote(kept, dropped, policy.canRecall, notice);
    var after := CostOfContents(out, wire);
    report := Report(before, after, dropped, truncated);
  }

  /** Returns a history that fits the budget as far as it can, and a report; the caller's objects stay as they were. */
  method Compact(contents: seq<ContentObj?>, policy: Policy, wire: Wire, notice: Notice)
    returns (out: seq<ContentObj?>, report: Report)
    ensures View(out) == Compacted(old(View(contents)), WithDefaults(policy), wire, notice).0
    ensures report == Compacted(old(View(contents)), WithDefaults(policy), wire, notice).1
    ensures forall c :: c in out ==> c in contents || fresh(c)
  {
    ghost var v := View(contents);
    var pol := FillDefaults(policy);
    var before := CostOfContents(contents, wire);
    SameView(contents);
    ViewLength(contents);
    if before <= pol.maxTokens || |contents| == 0 {
      return contents, Report(before, before, 0, 0);
    }
    out, report := CompactOver(contents, before, pol, wire, notice, JobOf(v, pol, wire));
  }
}
