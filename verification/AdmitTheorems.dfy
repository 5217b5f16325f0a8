/** The guarantees a conversation gets, turn after turn. */
module AdmitTheorems {
  import opened Base
  import opened AdmitSpec

  // ---- Membership ----

  lemma {:induction false} LiveMembers(names: seq<Name>, cat: Catalogue, x: Name)
    ensures x in Live(names, cat) <==> x in names && x in cat
  {
    if names != [] {
      var n := |names| - 1;
      LiveMembers(names[..n], cat, x);
      assert names == names[..n] + [names[n]];
    }
  }

  /** Filtering keeps the order: a list is filtered piece by piece. */
  lemma {:induction false} LiveSplits(a: seq<Name>, b: seq<Name>, cat: Catalogue)
    ensures Live(a + b, cat) == Live(a, cat) + Live(b, cat)
  {
    if b == [] {
      assert a + b == a;
    } else {
      assert (a + b)[..|a + b| - 1] == a + b[..|b| - 1];
      LiveSplits(a, b[..|b| - 1], cat);
    }
  }

  lemma {:induction false} LiveAll(names: seq<Name>, cat: Catalogue)
    requires forall x :: x in names ==> x in cat
    ensures Live(names, cat) == names
  {
    if names != [] {
      var n := |names| - 1;
      LiveAll(names[..n], cat);
      assert names[n] in names;
    }
  }

  lemma {:induction false} LiveNoDup(names: seq<Name>, cat: Catalogue)
    requires NoDup(names)
    ensures NoDup(Live(names, cat))
  {
    if names != [] {
      var n := |names| - 1;
      LiveNoDup(names[..n], cat);
      LiveMembers(names[..n], cat, names[n]);
    }
  }

  lemma {:induction false} TakeKeeps(scored: seq<Name>, names: seq<Name>, baseline: seq<Name>, room: nat)
    ensures var r := Take(scored, names, baseline, room);
            && scored <= r && |r| <= Max(room, |scored|) && |r| <= |scored| + |names|
            && (NoDup(scored) ==> NoDup(r))
  {
    if names != [] { TakeKeeps(scored, names[..|names| - 1], baseline, room); }
  }

  lemma {:induction false} TakeMembers(scored: seq<Name>, names: seq<Name>, baseline: seq<Name>, room: nat, x: Name)
    ensures x in Take(scored, names, baseline, room) ==> x in scored || (x in names && x !in baseline)
    ensures x in scored ==> x in Take(scored, names, baseline, room)
  {
    if names != [] {
      var n := |names| - 1;
      TakeMembers(scored, names[..n], baseline, room, x);
      assert names == names[..n] + [names[n]];
    }
  }

  lemma {:induction false} RequiredMembers(names: seq<Name>, baseline: seq<Name>, x: Name)
    ensures x in TakeRequired(names, baseline) <==> x in names && x !in baseline
    ensures NoDup(TakeRequired(names, baseline)) && |TakeRequired(names, baseline)| <= |names|
  {
    if names != [] {
      var n := |names| - 1;
      RequiredMembers(names[..n], baseline, x);
      assert names == names[..n] + [names[n]];
    }
  }

  ghost function SetOf(names: seq<Name>): set<Name> { set x | x in names }

  lemma {:induction false} SizeOfSet(names: seq<Name>)
    requires NoDup(names)
    ensures |SetOf(names)| == |names|
  {
    if names != [] {
      var n := |names| - 1;
      SizeOfSet(names[..n]);
      assert names == names[..n] + [names[n]];
      assert SetOf(names) == SetOf(names[..n]) + {names[n]};
      assert names[n] !in names[..n];
    }
  }

  lemma SmallerSet(names: seq<Name>, bound: set<Name>)
    requires NoDup(names) && forall x :: x in names ==> x in bound
    ensures |names| <= |bound|
  {
    SizeOfSet(names);
    SubsetSize(SetOf(names), bound);
  }

  /** Everything of `names` gets a slot when all of it, with what has one already, is within a set that fits. */
  lemma {:induction false} TakeAllOf(scored: seq<Name>, names: seq<Name>, baseline: seq<Name>, room: nat, bound: set<Name>, x: Name)
    requires NoDup(scored) && |bound| <= room && x in names && x !in baseline
    requires (forall y :: y in scored ==> y in bound) && (forall y :: y in names ==> y in bound)
    ensures x in Take(scored, names, baseline, room)
  {
    var n := |names| - 1;
    assert names == names[..n] + [names[n]];
    var before := Take(scored, names[..n], baseline, room);
    TakeKeeps(scored, names[..n], baseline, room);
    if x in names[..n] {
      TakeAllOf(scored, names[..n], baseline, room, bound, x);
    } else if x !in before {
      forall y | y in before + [x] ensures y in bound { TakeMembers(scored, names[..n], baseline, room, y); }
      SmallerSet(before + [x], bound);
    }
  }

  // ---- Rendering ----

  lemma {:induction false} DedupeMembers(names: seq<Name>, x: Name)
    ensures (x in Dedupe(names) <==> x in names) && NoDup(Dedupe(names))
  {
    if names != [] {
      var n := |names| - 1;
      DedupeMembers(names[..n], x);
      assert names == names[..n] + [names[n]];
    }
  }

  lemma {:induction false} InsertIsPermutation(sorted: seq<Name>, x: Name, cat: Catalogue)
    ensures multiset(Insert(sorted, x, cat)) == multiset(sorted) + multiset{x}
  {
    if sorted != [] {
      var n := |sorted| - 1;
      assert sorted == sorted[..n] + [sorted[n]];
      InsertIsPermutation(sorted[..n], x, cat);
    }
  }

  lemma {:induction false} SortIsPermutation(names: seq<Name>, cat: Catalogue)
    ensures multiset(SortByCatalogue(names, cat)) == multiset(names)
  {
    if names != [] {
      var n := |names| - 1;
      assert names == names[..n] + [names[n]];
      SortIsPermutation(names[..n], cat);
      InsertIsPermutation(SortByCatalogue(names[..n], cat), names[n], cat);
    }
  }

  ghost predicate Sorted(names: seq<Name>, cat: Catalogue) {
    forall i, j :: 0 <= i < j < |names| ==> Position(names[i], cat) <= Position(names[j], cat)
  }

  lemma {:induction false} InsertSorts(sorted: seq<Name>, x: Name, cat: Catalogue)
    requires Sorted(sorted, cat)
    ensures Sorted(Insert(sorted, x, cat), cat)
    ensures forall y :: y in Insert(sorted, x, cat) ==> y == x || y in sorted
  {
    if sorted != [] && Position(sorted[|sorted| - 1], cat) > Position(x, cat) {
      var n := |sorted| - 1;
      InsertSorts(sorted[..n], x, cat);
      var front := Insert(sorted[..n], x, cat);
      forall i | 0 <= i < |front| ensures Position(front[i], cat) <= Position(sorted[n], cat) {
        assert front[i] in front;
        assert front[i] == x || front[i] in sorted[..n];
      }
    }
  }

  lemma {:induction false} SortSorts(names: seq<Name>, cat: Catalogue)
    ensures Sorted(SortByCatalogue(names, cat), cat)
  {
    if names != [] {
      SortSorts(names[..|names| - 1], cat);
      InsertSorts(SortByCatalogue(names[..|names| - 1], cat), names[|names| - 1], cat);
    }
  }

  lemma SortMembers(names: seq<Name>, cat: Catalogue, x: Name)
    ensures x in SortByCatalogue(names, cat) <==> x in names
  {
    SortIsPermutation(names, cat);
    assert x in SortByCatalogue(names, cat) <==> x in multiset(SortByCatalogue(names, cat));
    assert x in names <==> x in multiset(names);
  }

  lemma RenderedMembers(p: Pick, scored: seq<Name>, cat: Catalogue, x: Name)
    ensures x in Rendered(p, scored, cat) <==> x in p.baseline || x in scored
  {
    SortMembers(Dedupe(p.baseline + scored), cat, x);
    DedupeMembers(p.baseline + scored, x);
  }

  ghost predicate Injective(cat: Catalogue) {
    forall x, y :: x in cat && y in cat && cat[x] == cat[y] ==> x == y
  }

  lemma {:induction false} InsertNoDup(sorted: seq<Name>, x: Name, cat: Catalogue)
    requires NoDup(sorted) && x !in sorted
    ensures NoDup(Insert(sorted, x, cat))
    ensures forall y :: y in Insert(sorted, x, cat) <==> y == x || y in sorted
  {
    if sorted != [] && Position(sorted[|sorted| - 1], cat) > Position(x, cat) {
      var n := |sorted| - 1;
      assert sorted == sorted[..n] + [sorted[n]];
      InsertNoDup(sorted[..n], x, cat);
      InitMembers(sorted, sorted[n]);
    }
  }

  lemma {:induction false} NoDupSort(names: seq<Name>, cat: Catalogue)
    requires NoDup(names)
    ensures NoDup(SortByCatalogue(names, cat))
  {
    if names != [] {
      var n := |names| - 1;
      NoDupSort(names[..n], cat);
      SortMembers(names[..n], cat, names[n]);
      InsertNoDup(SortByCatalogue(names[..n], cat), names[n], cat);
    }
  }

  lemma InitMembers(names: seq<Name>, x: Name)
    requires NoDup(names) && names != []
    ensures x in names[..|names| - 1] <==> x in names && x != names[|names| - 1]
  {
    var n := |names| - 1;
    assert names == names[..n] + [names[n]];
  }

  /** The tool declared last stands last. */
  lemma SameLast(a: seq<Name>, b: seq<Name>, cat: Catalogue)
    requires Injective(cat) && Sorted(a, cat) && Sorted(b, cat) && a != []
    requires (forall x :: x in a <==> x in b) && (forall x :: x in a ==> x in cat)
    ensures b != [] && a[|a| - 1] == b[|b| - 1]
  {
    var n := |a| - 1;
    assert a[n] in b;
    var m := |b| - 1;
    assert b[m] in a;
    var i :| 0 <= i <= n && a[i] == b[m];
    var j :| 0 <= j <= m && b[j] == a[n];
    assert Position(a[i], cat) <= Position(a[n], cat) && Position(b[j], cat) <= Position(b[m], cat);
  }

  /** Two sorted lists of the same tools are the same list, for a catalogue that declares each tool once. */
  lemma {:induction false} SortedIsUnique(a: seq<Name>, b: seq<Name>, cat: Catalogue)
    requires Injective(cat) && NoDup(a) && NoDup(b) && Sorted(a, cat) && Sorted(b, cat)
    requires (forall x :: x in a <==> x in b) && (forall x :: x in a ==> x in cat)
    ensures a == b
  {
    var first := if b == [] then "" else b[0];
    assert b != [] ==> first in b;
    if a != [] {
      SameLast(a, b, cat);
      var n, m := |a| - 1, |b| - 1;
      forall x ensures x in a[..n] <==> x in b[..m] {
        InitMembers(a, x);
        InitMembers(b, x);
      }
      SortedIsUnique(a[..n], b[..m], cat);
    }
  }

  /** Equal tool sets are presented as equal sequences, whatever turn chose them. */
  lemma EqualSetsRenderEqually(p: Pick, scored: seq<Name>, p': Pick, scored': seq<Name>, cat: Catalogue)
    requires Injective(cat)
    requires forall x :: x in p.baseline || x in scored ==> x in cat
    requires forall x :: (x in p.baseline || x in scored) <==> (x in p'.baseline || x in scored')
    ensures Rendered(p, scored, cat) == Rendered(p', scored', cat)
  {
    var a, b := Rendered(p, scored, cat), Rendered(p', scored', cat);
    forall x ensures (x in a <==> x in b) && (x in a ==> x in cat) {
      RenderedMembers(p, scored, cat, x);
      RenderedMembers(p', scored', cat, x);
    }
    DedupeMembers(p.baseline + scored, "");
    DedupeMembers(p'.baseline + scored', "");
    NoDupSort(Dedupe(p.baseline + scored), cat);
    NoDupSort(Dedupe(p'.baseline + scored'), cat);
    SortSorts(Dedupe(p.baseline + scored), cat);
    SortSorts(Dedupe(p'.baseline + scored'), cat);
    SortedIsUnique(a, b, cat);
  }

  // ---- A turn ----

  lemma ScoredMembers(p: Pick, prev: seq<Name>, budget: int, x: Name)
    ensures x in Scored(p, prev, budget) ==>
      x !in p.baseline && (x in p.required || x in p.matched || x in prev || x in p.filler)
    ensures x in p.required && x !in p.baseline ==> x in Scored(p, prev, budget)
    ensures NoDup(Scored(p, prev, budget))
    ensures budget > 0 ==> |Scored(p, prev, budget)| <= Max(budget, |p.required|)
  {
    var room := Room(budget, p.required, p.matched, prev, p.filler);
    var required := TakeRequired(p.required, p.baseline);
    var matched := Take(required, p.matched, p.baseline, room);
    var kept := Take(matched, prev, p.baseline, room);
    RequiredMembers(p.required, p.baseline, x);
    TakeMembers(required, p.matched, p.baseline, room, x);
    TakeMembers(matched, prev, p.baseline, room, x);
    TakeMembers(kept, p.filler, p.baseline, room, x);
    TakeKeeps(required, p.matched, p.baseline, room);
    TakeKeeps(matched, prev, p.baseline, room);
    TakeKeeps(kept, p.filler, p.baseline, room);
  }

  /** A turn's tools: only what the catalogue has, and all of the baseline and the required tools that still exist. */
  lemma TurnIsComplete(m: Memory, session: Name, pick: Pick, cat: Catalogue, budget: int, x: Name)
    ensures x in Admit(m, session, pick, cat, budget).1 ==> x in cat
    ensures x in cat && (x in pick.baseline || x in pick.required) ==> x in Admit(m, session, pick, cat, budget).1
  {
    var p := LivePick(pick, cat);
    LiveMembers(pick.baseline, cat, x);
    LiveMembers(pick.required, cat, x);
    LiveMembers(pick.matched, cat, x);
    LiveMembers(pick.filler, cat, x);
    if session == "" {
      DedupeMembers(p.baseline + p.required + p.matched + p.filler, x);
      SortMembers(Dedupe(p.baseline + p.required + p.matched + p.filler), cat, x);
    } else {
      var prev := Live(Remembered(m, session), cat);
      LiveMembers(Remembered(m, session), cat, x);
      ScoredMembers(p, prev, budget, x);
      RenderedMembers(p, Scored(p, prev, budget), cat, x);
    }
  }

  /** Matched tools are never displaced by what is remembered or by filler: they get their slots when they fit beside the required ones. */
  lemma MatchedComeFirst(p: Pick, prev: seq<Name>, budget: int, x: Name)
    requires x in p.matched && x !in p.baseline
    requires budget <= 0 || |SetOf(p.required + p.matched)| <= budget
    ensures x in Scored(p, prev, budget)
  {
    var room := Room(budget, p.required, p.matched, prev, p.filler);
    var bound := SetOf(p.required + p.matched);
    var required := TakeRequired(p.required, p.baseline);
    SetIsSmall(p.required + p.matched);
    forall y | y in required ensures y in bound { RequiredMembers(p.required, p.baseline, y); assert y in p.required + p.matched; }
    forall y | y in p.matched ensures y in bound { assert y in p.required + p.matched; }
    RequiredMembers(p.required, p.baseline, x);
    TakeAllOf(required, p.matched, p.baseline, room, bound, x);
    var matched := Take(required, p.matched, p.baseline, room);
    TakeMembers(matched, prev, p.baseline, room, x);
    TakeMembers(Take(matched, prev, p.baseline, room), p.filler, p.baseline, room, x);
  }

  lemma {:induction false} SetIsSmall(names: seq<Name>)
    ensures |SetOf(names)| <= |names|
  {
    if names != [] {
      var n := |names| - 1;
      SetIsSmall(names[..n]);
      assert names == names[..n] + [names[n]];
      assert SetOf(names) == SetOf(names[..n]) + {names[n]};
    }
  }

  /** When the question needs nothing new, everything remembered stays: the prompt keeps its shape. */
  lemma NothingRememberedIsLost(p: Pick, prev: seq<Name>, budget: int, x: Name)
    requires NoDup(prev) && x in prev
    requires forall y :: y in p.required || y in p.matched ==> y in prev || y in p.baseline
    requires forall y :: y in prev ==> y !in p.baseline
    requires budget <= 0 || |prev| <= budget
    ensures x in Scored(p, prev, budget)
  {
    var room := Room(budget, p.required, p.matched, prev, p.filler);
    var bound := SetOf(prev);
    SizeOfSet(prev);
    var required := TakeRequired(p.required, p.baseline);
    var matched := Take(required, p.matched, p.baseline, room);
    RequiredMembers(p.required, p.baseline, x);
    TakeKeeps(required, p.matched, p.baseline, room);
    forall y | y in matched ensures y in bound {
      TakeMembers(required, p.matched, p.baseline, room, y);
      RequiredMembers(p.required, p.baseline, y);
    }
    TakeAllOf(matched, prev, p.baseline, room, bound, x);
    TakeMembers(Take(matched, prev, p.baseline, room), p.filler, p.baseline, room, x);
  }

  /** And when it filled the budget, nothing is added either. */
  lemma FullPromptStaysTheSame(p: Pick, prev: seq<Name>, budget: int, x: Name)
    requires NoDup(prev) && |prev| == budget > 0
    requires forall y :: y in p.required || y in p.matched ==> y in prev || y in p.baseline
    requires forall y :: y in prev ==> y !in p.baseline
    ensures x in Scored(p, prev, budget) <==> x in prev
  {
    var scored := Scored(p, prev, budget);
    forall y | y in prev ensures y in scored { NothingRememberedIsLost(p, prev, budget, y); }
    var required := TakeRequired(p.required, p.baseline);
    forall y | y in required ensures y in SetOf(prev) { RequiredMembers(p.required, p.baseline, y); }
    RequiredMembers(p.required, p.baseline, x);
    SmallerSet(required, SetOf(prev));
    SizeOfSet(prev);
    var room := Room(budget, p.required, p.matched, prev, p.filler);
    TakeKeeps(required, p.matched, p.baseline, room);
    TakeKeeps(Take(required, p.matched, p.baseline, room), prev, p.baseline, room);
    TakeKeeps(Take(Take(required, p.matched, p.baseline, room), prev, p.baseline, room), p.filler, p.baseline, room);
    assert |scored| <= budget;
    SizeOfSet(scored);
    SubsetSize(SetOf(prev), SetOf(scored));
    assert x in SetOf(scored) <==> x in SetOf(prev);
  }

  /** What a turn needs from the remembered prompt: it is all still there, and the question asks for nothing else. */
  ghost predicate NeedsNothingNew(p: Pick, prev: seq<Name>, cat: Catalogue) {
    && NoDup(prev) && (forall y :: y in prev ==> y in cat && y !in p.baseline)
    && forall y :: y in p.required || y in p.matched ==> y in prev || y in p.baseline
  }

  /** Turn by turn: nothing remembered is lost, and it is remembered again. */
  lemma TurnKeepsThePrompt(m: Memory, session: Name, pick: Pick, cat: Catalogue, budget: int, x: Name)
    requires session != "" && session in m.byId && x in m.byId[session]
    requires NeedsNothingNew(LivePick(pick, cat), m.byId[session], cat) && (budget <= 0 || |m.byId[session]| <= budget)
    ensures x in Admit(m, session, pick, cat, budget).1
    ensures session in Admit(m, session, pick, cat, budget).0.byId && x in Admit(m, session, pick, cat, budget).0.byId[session]
  {
    var p, prev := LivePick(pick, cat), m.byId[session];
    LiveAll(prev, cat);
    NothingRememberedIsLost(p, prev, budget, x);
    RenderedMembers(p, Scored(p, prev, budget), cat, x);
  }

  /** And when the remembered tools fill the budget, the next turn presents byte for byte the same list. */
  lemma TurnRendersTheSame(m: Memory, session: Name, pick: Pick, cat: Catalogue, budget: int)
    requires session != "" && session in m.byId && Injective(cat)
    requires NeedsNothingNew(LivePick(pick, cat), m.byId[session], cat) && |m.byId[session]| == budget > 0
    ensures Admit(m, session, pick, cat, budget).1 == Rendered(LivePick(pick, cat), m.byId[session], cat)
  {
    var p, prev := LivePick(pick, cat), m.byId[session];
    LiveAll(prev, cat);
    var scored := Scored(p, prev, budget);
    forall x ensures x in scored <==> x in prev { FullPromptStaysTheSame(p, prev, budget, x); }
    forall x ensures x in p.baseline ==> x in cat { LiveMembers(pick.baseline, cat, x); }
    EqualSetsRenderEqually(p, scored, p, prev, cat);
  }

  // ---- Who gets a slot, and who does not ----

  /** The only reason to go without a slot is that there are none left; and then nobody later in the list gets one. */
  lemma {:induction false} TakeInOrder(scored: seq<Name>, names: seq<Name>, baseline: seq<Name>, room: nat, i: nat)
    requires i < |names| && names[i] !in baseline && names[i] !in Take(scored, names, baseline, room)
    ensures |Take(scored, names, baseline, room)| >= room
    ensures Take(scored, names, baseline, room) == Take(scored, names[..i], baseline, room)
  {
    var n := |names| - 1;
    if i < n {
      TakeInOrder(scored, names[..n], baseline, room, i);
      assert names[..n][..i] == names[..i];
    }
  }

  /** Once there is no room, nobody else gets in. */
  lemma {:induction false} TakeNothing(scored: seq<Name>, names: seq<Name>, baseline: seq<Name>, room: nat)
    requires |scored| >= room
    ensures Take(scored, names, baseline, room) == scored
  {
    if names != [] { TakeNothing(scored, names[..|names| - 1], baseline, room); }
  }

  lemma FullAfter(scored: seq<Name>, names: seq<Name>, baseline: seq<Name>, room: nat, x: Name)
    requires x in names && x !in baseline && x !in Take(scored, names, baseline, room)
    ensures |Take(scored, names, baseline, room)| >= room
  {
    var i :| 0 <= i < |names| && names[i] == x;
    TakeInOrder(scored, names, baseline, room, i);
  }

  lemma {:induction false} TakeMisses(scored: seq<Name>, names: seq<Name>, baseline: seq<Name>, room: nat, x: Name)
    requires x in names && x !in Take(scored, names, baseline, room)
    ensures |Take(scored, names, baseline, room)| < |scored| + |names|
  {
    var n := |names| - 1;
    assert names == names[..n] + [names[n]];
    TakeKeeps(scored, names[..n], baseline, room);
    if x in names[..n] { TakeMisses(scored, names[..n], baseline, room, x); }
  }

  /** Without a budget there is room for everyone. */
  lemma RoomForAll(p: Pick, prev: seq<Name>, x: Name)
    requires x !in p.baseline && (x in p.required || x in p.matched || x in prev || x in p.filler)
    ensures forall budget: int :: budget <= 0 ==> x in Scored(p, prev, budget)
  {
    forall budget: int | budget <= 0 ensures x in Scored(p, prev, budget) {
      var room := Room(budget, p.required, p.matched, prev, p.filler);
      var required := TakeRequired(p.required, p.baseline);
      var matched := Take(required, p.matched, p.baseline, room);
      var kept := Take(matched, prev, p.baseline, room);
      RequiredMembers(p.required, p.baseline, x);
      TakeKeeps(required, p.matched, p.baseline, room);
      TakeKeeps(matched, prev, p.baseline, room);
      if x in p.required || x in p.matched { GetsSlot(required, p.matched, p.baseline, room, x); }
      if x in prev { GetsSlot(matched, prev, p.baseline, room, x); }
      if x in p.filler { GetsSlot(kept, p.filler, p.baseline, room, x); }
      TakeMembers(matched, prev, p.baseline, room, x);
      TakeMembers(kept, p.filler, p.baseline, room, x);
    }
  }

  lemma GetsSlot(scored: seq<Name>, names: seq<Name>, baseline: seq<Name>, room: nat, x: Name)
    requires |scored| + |names| <= room && x !in baseline && (x in scored || x in names)
    ensures x in Take(scored, names, baseline, room)
  {
    TakeMembers(scored, names, baseline, room, x);
    if x in names && x !in Take(scored, names, baseline, room) {
      TakeMisses(scored, names, baseline, room, x);
      FullAfter(scored, names, baseline, room, x);
    }
  }

  /** The claims on a slot, the strongest first. */
  predicate Claims(p: Pick, prev: seq<Name>, rank: nat, x: Name) {
    || (rank == 0 && x in p.required) || (rank == 1 && x in p.matched) || (rank == 2 && x in prev) || (rank == 3 && x in p.filler)
  }

  /**
   A tool with a claim goes without a slot only when the budget is used up, and then every slot went to a claim at
   least as strong. Without a budget every claim is met.
   */
  lemma StrongerClaimsFirst(p: Pick, prev: seq<Name>, budget: int, rank: nat, x: Name, y: Name)
    requires Claims(p, prev, rank, x) && x !in p.baseline && x !in Scored(p, prev, budget)
    ensures 0 < budget <= |Scored(p, prev, budget)|
    ensures y in Scored(p, prev, budget) ==> exists r: nat :: r <= rank && Claims(p, prev, r, y)
  {
    var room := Room(budget, p.required, p.matched, prev, p.filler);
    var required := TakeRequired(p.required, p.baseline);
    var matched := Take(required, p.matched, p.baseline, room);
    var kept := Take(matched, prev, p.baseline, room);
    RequiredMembers(p.required, p.baseline, x);
    RequiredMembers(p.required, p.baseline, y);
    TakeMembers(required, p.matched, p.baseline, room, x);
    TakeMembers(matched, prev, p.baseline, room, x);
    TakeMembers(kept, p.filler, p.baseline, room, x);
    TakeMembers(required, p.matched, p.baseline, room, y);
    TakeMembers(matched, prev, p.baseline, room, y);
    TakeMembers(kept, p.filler, p.baseline, room, y);
    if rank == 1 {
      FullAfter(required, p.matched, p.baseline, room, x);
      TakeNothing(matched, prev, p.baseline, room);
      TakeNothing(kept, p.filler, p.baseline, room);
    } else if rank == 2 {
      FullAfter(matched, prev, p.baseline, room, x);
      TakeNothing(kept, p.filler, p.baseline, room);
    } else {
      FullAfter(kept, p.filler, p.baseline, room, x);
    }
    RoomForAll(p, prev, x);
    if y in Scored(p, prev, budget) {
      if y in p.required { assert Claims(p, prev, 0, y); }
      else if y in p.matched { assert Claims(p, prev, 1, y); }
      else if y in prev { assert Claims(p, prev, 2, y); }
      else { assert Claims(p, prev, 3, y); }
    }
  }

  /** A turn without a session shows everything asked for that exists, and remembers nothing. */
  lemma TurnWithoutSession(m: Memory, pick: Pick, cat: Catalogue, budget: int, x: Name)
    ensures Admit(m, "", pick, cat, budget).0 == m
    ensures x in Admit(m, "", pick, cat, budget).1 <==>
              x in cat && (x in pick.baseline || x in pick.required || x in pick.matched || x in pick.filler)
  {
    var p := LivePick(pick, cat);
    LiveMembers(pick.baseline, cat, x);
    LiveMembers(pick.required, cat, x);
    LiveMembers(pick.matched, cat, x);
    LiveMembers(pick.filler, cat, x);
    DedupeMembers(p.baseline + p.required + p.matched + p.filler, x);
    SortMembers(Dedupe(p.baseline + p.required + p.matched + p.filler), cat, x);
  }

  /** What is shown beside the baseline is what the session remembers, and nothing else of it. */
  lemma ShownIsRemembered(m: Memory, session: Name, pick: Pick, cat: Catalogue, budget: int, x: Name)
    requires session != ""
    ensures var (after, tools) := Admit(m, session, pick, cat, budget);
            && session in after.byId
            && (x in tools <==> (x in cat && x in pick.baseline) || x in after.byId[session])
            && !(x in after.byId[session] && x in cat && x in pick.baseline)
  {
    var p, prev := LivePick(pick, cat), Live(Remembered(m, session), cat);
    LiveMembers(pick.baseline, cat, x);
    ScoredMembers(p, prev, budget, x);
    RenderedMembers(p, Scored(p, prev, budget), cat, x);
  }

  // ---- The bookkeeping ----

  /** A full memory of 512 sessions loses the oldest; a shorter one loses nothing. */
  lemma EvictIs(m: Memory)
    requires |m.order| <= 512
    ensures |m.order| < 512 ==> Evict(m) == m
    ensures |m.order| == 512 ==> Evict(m).order == m.order[1..] && Evict(m).byId == m.byId - {m.order[0]}
  {
    if |m.order| == 512 {
      var next := Memory(m.byId - {m.order[0]}, m.order[1..]);
      assert Evict(next) == next;
    }
  }

  /** Another session's memory is untouched by a turn, unless it is the oldest of 512 and a new session comes. */
  lemma OthersRemember(m: Memory, session: Name, pick: Pick, cat: Catalogue, budget: int, other: Name)
    requires Sound(m) && session != "" && other != session
    ensures
      var after := Admit(m, session, pick, cat, budget).0;
      var dropped := session !in m.byId && |m.order| == 512 && m.order[0] == other;
      && (other in after.byId <==> other in m.byId && !dropped)
      && (other in after.byId ==> after.byId[other] == m.byId[other])
      && (session in m.byId ==> after.order == m.order)
      && (session !in m.byId ==> after.order == (if |m.order| == 512 then m.order[1..] else m.order) + [session])
  {
    EvictIs(m);
  }

  /** Forgetting takes one session and leaves the others, and their turn to be dropped, as they were. */
  lemma ForgetIs(m: Memory, session: Name, other: Name)
    requires Sound(m)
    ensures session !in Forget(m, session).byId && session !in Forget(m, session).order
    ensures other != session ==> (other in Forget(m, session).byId <==> other in m.byId)
                                 && (other in Forget(m, session).order <==> other in m.order)
                                 && (other in m.byId ==> Forget(m, session).byId[other] == m.byId[other])
  {
    WithoutMembers(m.order, session, session);
    WithoutMembers(m.order, session, other);
  }

  lemma {:induction false} EvictKeepsSound(m: Memory)
    requires Sound(m)
    ensures Sound(Evict(m)) && forall s :: s in Evict(m).byId ==> s in m.byId && Evict(m).byId[s] == m.byId[s]
    decreases |m.order|
  {
    if |m.order| >= MAX_SESSIONS {
      var next := Memory(m.byId - {m.order[0]}, m.order[1..]);
      assert m.order == [m.order[0]] + m.order[1..];
      EvictKeepsSound(next);
    }
  }

  lemma AdmitKeepsSound(m: Memory, session: Name, pick: Pick, cat: Catalogue, budget: int)
    requires Sound(m)
    ensures Sound(Admit(m, session, pick, cat, budget).0)
  {
    if session != "" {
      var p := LivePick(pick, cat);
      ScoredMembers(p, Live(Remembered(m, session), cat), budget, "");
      EvictKeepsSound(m);
      var e := Evict(m);
      if session !in m.byId {
        assert forall s :: s in e.order + [session] <==> s in e.order || s == session;
      }
    }
  }

  lemma {:induction false} WithoutMembers(order: seq<Name>, session: Name, x: Name)
    requires NoDup(order)
    ensures (x in Without(order, session) <==> x in order && x != session) && NoDup(Without(order, session))
    ensures |Without(order, session)| <= |order|
  {
    if order != [] {
      var n := |order| - 1;
      WithoutMembers(order[..n], session, x);
      WithoutMembers(order[..n], session, order[n]);
      assert order == order[..n] + [order[n]];
      assert order[n] !in order[..n];
    }
  }

  lemma ForgetKeepsSound(m: Memory, session: Name)
    requires Sound(m)
    ensures Sound(Forget(m, session))
  {
    forall s ensures s in Forget(m, session).byId <==> s in Forget(m, session).order { WithoutMembers(m.order, session, s); }
    WithoutMembers(m.order, session, "");
  }
}
