/** Which tools enter the prompt: the baseline always, then what is required, matched, remembered and filler, in that order. */
module AdmitSpec {
  import opened Base

  type Name = string

  /** A turn's selection, by the claim each tool has on a slot. */
  datatype Pick = Pick(baseline: seq<Name>, required: seq<Name>, matched: seq<Name>, filler: seq<Name>)

  /** The catalogue: where each tool that still exists is declared. */
  type Catalogue = map<Name, int>

  function Live(names: seq<Name>, cat: Catalogue): seq<Name> {
    if names == [] then []
    else
      var n := |names| - 1;
      if names[n] in cat then Live(names[..n], cat) + [names[n]] else Live(names[..n], cat)
  }

  /** Slots for `names` while there is room; nothing twice, and nothing that is there as baseline. */
  function Take(scored: seq<Name>, names: seq<Name>, baseline: seq<Name>, room: nat): seq<Name> {
    if names == [] then scored
    else
      var before := Take(scored, names[..|names| - 1], baseline, room);
      var x := names[|names| - 1];
      if |before| >= room || x in before || x in baseline then before else before + [x]
  }

  /** Slots for required tools, whatever the room. */
  function TakeRequired(names: seq<Name>, baseline: seq<Name>): seq<Name> {
    if names == [] then []
    else
      var before := TakeRequired(names[..|names| - 1], baseline);
      var x := names[|names| - 1];
      if x in before || x in baseline then before else before + [x]
  }

  function Room(budget: int, required: seq<Name>, matched: seq<Name>, prev: seq<Name>, filler: seq<Name>): nat {
    if budget <= 0 then |required| + |matched| + |prev| + |filler| else budget
  }

  /** The tools that compete for slots and get one; `p` and `prev` are live already. */
  function Scored(p: Pick, prev: seq<Name>, budget: int): seq<Name> {
    var room := Room(budget, p.required, p.matched, prev, p.filler);
    var required := TakeRequired(p.required, p.baseline);
    var matched := Take(required, p.matched, p.baseline, room);
    var kept := Take(matched, prev, p.baseline, room);
    Take(kept, p.filler, p.baseline, room)
  }

  function Dedupe(names: seq<Name>): seq<Name> {
    if names == [] then []
    else
      var before := Dedupe(names[..|names| - 1]);
      if names[|names| - 1] in before then before else before + [names[|names| - 1]]
  }

  function Position(x: Name, cat: Catalogue): int { if x in cat then cat[x] else 0 }

  /** After every element that is declared no later. */
  function Insert(sorted: seq<Name>, x: Name, cat: Catalogue): seq<Name> {
    if sorted == [] || Position(sorted[|sorted| - 1], cat) <= Position(x, cat) then sorted + [x]
    else Insert(sorted[..|sorted| - 1], x, cat) + [sorted[|sorted| - 1]]
  }

  /** A stable sort by declared position. */
  function SortByCatalogue(names: seq<Name>, cat: Catalogue): seq<Name> {
    if names == [] then [] else Insert(SortByCatalogue(names[..|names| - 1], cat), names[|names| - 1], cat)
  }

  function LivePick(p: Pick, cat: Catalogue): Pick {
    Pick(Live(p.baseline, cat), Live(p.required, cat), Live(p.matched, cat), Live(p.filler, cat))
  }

  function Rendered(p: Pick, scored: seq<Name>, cat: Catalogue): seq<Name> {
    SortByCatalogue(Dedupe(p.baseline + scored), cat)
  }

  // ---- The bookkeeping ----

  const MAX_SESSIONS: nat := 512

  datatype Memory = Memory(byId: map<Name, seq<Name>>, order: seq<Name>)

  ghost predicate Sound(m: Memory) {
    && |m.order| <= MAX_SESSIONS && NoDup(m.order)
    && (forall s :: s in m.byId <==> s in m.order)
    && forall s :: s in m.byId ==> NoDup(m.byId[s])
  }

  function Evict(m: Memory): (r: Memory)
    ensures |r.order| < MAX_SESSIONS
    decreases |m.order|
  {
    if |m.order| >= MAX_SESSIONS then Evict(Memory(m.byId - {m.order[0]}, m.order[1..])) else m
  }

  function Remembered(m: Memory, session: Name): seq<Name> { if session in m.byId then m.byId[session] else [] }

  /** The tool set of a turn, and what is remembered of it. */
  function Admit(m: Memory, session: Name, pick: Pick, cat: Catalogue, budget: int): (Memory, seq<Name>) {
    var p := LivePick(pick, cat);
    if session == "" then (m, SortByCatalogue(Dedupe(p.baseline + p.required + p.matched + p.filler), cat))
    else
      var scored := Scored(p, Live(Remembered(m, session), cat), budget);
      var room := if session in m.byId then m else Memory(Evict(m).byId, Evict(m).order + [session]);
      (Memory(room.byId[session := scored], room.order), Rendered(p, scored, cat))
  }

  function Without(order: seq<Name>, session: Name): seq<Name> {
    if order == [] then []
    else
      var n := |order| - 1;
      if order[n] == session then Without(order[..n], session) else Without(order[..n], session) + [order[n]]
  }

  function Forget(m: Memory, session: Name): Memory { Memory(m.byId - {session}, Without(m.order, session)) }
}
