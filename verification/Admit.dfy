/** The admissions of a process, session by session, as the turns update them. */
module Admit {
  import opened Base
  import AS = AdmitSpec
  import opened AdmitSpec
  import opened AdmitTheorems

  method KeepLive(names: seq<Name>, cat: Catalogue) returns (out: seq<Name>)
    ensures out == Live(names, cat)
  {
    out := [];
    for i := 0 to |names|
      invariant out == Live(names[..i], cat)
    {
      assert names[..i + 1][..i] == names[..i];
      if names[i] in cat { out := out + [names[i]]; }
    }
    assert names[..|names|] == names;
  }

  method TakeMore(scored0: seq<Name>, names: seq<Name>, baseline: seq<Name>, room: nat) returns (scored: seq<Name>)
    ensures scored == Take(scored0, names, baseline, room)
  {
    scored := scored0;
    for i := 0 to |names|
      invariant scored == Take(scored0, names[..i], baseline, room)
    {
      assert names[..i + 1][..i] == names[..i];
      if !(|scored| >= room || names[i] in scored || names[i] in baseline) { scored := scored + [names[i]]; }
    }
    assert names[..|names|] == names;
  }

  method TakeAll(names: seq<Name>, baseline: seq<Name>) returns (scored: seq<Name>)
    ensures scored == TakeRequired(names, baseline)
  {
    scored := [];
    for i := 0 to |names|
      invariant scored == TakeRequired(names[..i], baseline)
    {
      assert names[..i + 1][..i] == names[..i];
      if names[i] !in scored && names[i] !in baseline { scored := scored + [names[i]]; }
    }
    assert names[..|names|] == names;
  }

  method DropRepeats(names: seq<Name>) returns (out: seq<Name>)
    ensures out == Dedupe(names) && NoDup(out) && forall x :: x in out <==> x in names
  {
    out := [];
    for i := 0 to |names|
      invariant out == Dedupe(names[..i])
    {
      assert names[..i + 1][..i] == names[..i];
      if names[i] !in out { out := out + [names[i]]; }
    }
    assert names[..|names|] == names;
    forall x ensures x in out <==> x in names { DedupeMembers(names, x); }
    DedupeMembers(names, "");
  }

  method OnlyLive(pick: Pick, cat: Catalogue) returns (p: Pick)
    ensures p == LivePick(pick, cat)
  {
    var baseline := KeepLive(pick.baseline, cat);
    var required := KeepLive(pick.required, cat);
    var matched := KeepLive(pick.matched, cat);
    var filler := KeepLive(pick.filler, cat);
    p := Pick(baseline, required, matched, filler);
  }

  /** Required first, then this question's needs, then the prompt as it was, and only then padding. */
  method Score(p: Pick, prev: seq<Name>, budget: int) returns (scored: seq<Name>)
    ensures scored == Scored(p, prev, budget)
  {
    var room: nat := if budget <= 0 then |p.required| + |p.matched| + |prev| + |p.filler| else budget;
    scored := TakeAll(p.required, p.baseline);
    scored := TakeMore(scored, p.matched, p.baseline, room);
    scored := TakeMore(scored, prev, p.baseline, room);
    scored := TakeMore(scored, p.filler, p.baseline, room);
  }

  class Admissions {
    var byId: map<Name, seq<Name>>
    var order: seq<Name>

    function View(): Memory
      reads this
    {
      Memory(byId, order)
    }

    constructor ()
      ensures View() == Memory(map[], []) && Sound(View())
    {
      byId, order := map[], [];
    }

    method EvictIfFull()
      modifies this
      ensures View() == Evict(old(View()))
    {
      while |order| >= MAX_SESSIONS && |order| > 0
        invariant Evict(View()) == Evict(old(View()))
        decreases |order|
      {
        var oldest := order[0];
        order := order[1..];
        byId := byId - {oldest};
      }
    }

    /** Makes sure the session has an entry in the queue, and returns what it remembers. */
    method Reserve(session: Name) returns (remembered: seq<Name>)
      modifies this
      ensures remembered == Remembered(old(View()), session)
      ensures View() == if session in old(byId) then old(View()) else Memory(Evict(old(View())).byId, Evict(old(View())).order + [session])
    {
      remembered := if session in byId then byId[session] else [];
      if session !in byId {
        EvictIfFull();
        order := order + [session];
      }
    }

    /** Decides a turn's tool set and remembers what of it competed for slots. */
    method Admit(session: Name, pick: Pick, cat: Catalogue, budget: int) returns (tools: seq<Name>)
      requires Sound(View())
      modifies this
      ensures View() == AS.Admit(old(View()), session, pick, cat, budget).0 && Sound(View())
      ensures tools == AS.Admit(old(View()), session, pick, cat, budget).1
      ensures forall x :: x in tools ==> x in cat
      ensures forall x :: x in cat && (x in pick.baseline || x in pick.required) ==> x in tools
    {
      ghost var before := View();
      AdmitKeepsSound(before, session, pick, cat, budget);
      forall x
        ensures x in AS.Admit(before, session, pick, cat, budget).1 ==> x in cat
        ensures x in cat && (x in pick.baseline || x in pick.required) ==> x in AS.Admit(before, session, pick, cat, budget).1
      {
        TurnIsComplete(before, session, pick, cat, budget, x);
      }
      var p := OnlyLive(pick, cat);
      if session == "" {
        var all := DropRepeats(p.baseline + p.required + p.matched + p.filler);
        return SortByCatalogue(all, cat);
      }
      var remembered := Reserve(session);
      var prev := KeepLive(remembered, cat);
      var scored := Score(p, prev, budget);
      byId := byId[session := scored];
      var shown := DropRepeats(p.baseline + scored);
      tools := SortByCatalogue(shown, cat);
    }

    method Forget(session: Name)
      requires Sound(View())
      modifies this
      ensures View() == AS.Forget(old(View()), session) && Sound(View())
    {
      ForgetKeepsSound(View(), session);
      byId := byId - {session};
      var kept: seq<Name> := [];
      for i := 0 to |order|
        invariant kept == Without(order[..i], session) && order == old(order) && byId == old(byId) - {session}
      {
        assert order[..i + 1][..i] == order[..i];
        if order[i] != session { kept := kept + [order[i]]; }
      }
      assert order[..|order|] == order;
      order := kept;
    }
  }
}
