/** How much room the tool results of one round still have: a ledger that parallel calls draw on. */
module Budget {
  import opened Base

  type Id = string

  const MAX_ROUNDS: nat := 256

  /** The allowance left by round, and the rounds in the order they were first seen. */
  datatype Ledger = Ledger(byId: map<Id, int>, order: seq<Id>)

  function ReplyTokens(window: nat, replyTokens: int): int {
    if replyTokens <= 0 then window * 15 / 100 else replyTokens
  }

  /** The allowance at the start of a round: what the prompt and the reply leave, within a quarter of the window. */
  function InitialRoom(window: nat, promptTokens: nat, replyTokens: int): (room: nat)
    ensures room <= window / 4
  {
    Max(0, Min(window - promptTokens - ReplyTokens(window, replyTokens), window / 4))
  }

  /** What is set aside for the reply: what is asked for, or 15 percent of the window. */
  lemma ReplyIs(window: nat, replyTokens: int)
    ensures replyTokens > 0 ==> ReplyTokens(window, replyTokens) == replyTokens
    ensures replyTokens <= 0 ==> 100 * ReplyTokens(window, replyTokens) <= 15 * window < 100 * (ReplyTokens(window, replyTokens) + 1)
  {
  }

  /** `room` more tokens fit beside the prompt and the reply, in a quarter of the window. */
  predicate HasRoom(window: nat, used: int, room: nat) { 4 * room <= window && used + room <= window }

  /** The room is the most that fits; when not even nothing does, it is nothing. */
  lemma RoomIsGreatest(window: nat, promptTokens: nat, replyTokens: int, room: nat)
    ensures
      var used := promptTokens + ReplyTokens(window, replyTokens);
      && (HasRoom(window, used, room) ==> room <= InitialRoom(window, promptTokens, replyTokens))
      && (HasRoom(window, used, InitialRoom(window, promptTokens, replyTokens))
          || (InitialRoom(window, promptTokens, replyTokens) == 0 && used > window))
  {
  }

  /** Drops the oldest rounds until there is space for one more. */
  function Evict(l: Ledger): (r: Ledger)
    ensures |r.order| < MAX_ROUNDS
    decreases |l.order|
  {
    if |l.order| >= MAX_ROUNDS then Evict(Ledger(l.byId - {l.order[0]}, l.order[1..])) else l
  }

  function Observed(l: Ledger, id: Id, promptTokens: nat, window: int, replyTokens: int): Ledger {
    if id == "" then l
    else if window <= 0 then l.(byId := l.byId - {id})
    else
      var room := InitialRoom(window, promptTokens, replyTokens);
      if id in l.byId then l.(byId := l.byId[id := room])
      else
        var e := Evict(l);
        Ledger(e.byId[id := room], e.order + [id])
  }

  /** A full queue of 256 loses its front, and the round there its allowance; a shorter one loses nothing. */
  lemma EvictIs(l: Ledger)
    requires |l.order| <= 256
    ensures |l.order| < 256 ==> Evict(l) == l
    ensures |l.order| == 256 ==> Evict(l).order == l.order[1..] && Evict(l).byId == l.byId - {l.order[0]}
  {
    if |l.order| == 256 {
      var next := Ledger(l.byId - {l.order[0]}, l.order[1..]);
      assert Evict(next) == next;
    }
  }

  /** A look at a round sets its allowance, or clears it without a window; every other round keeps its own or was oldest. */
  lemma ObservedIs(l: Ledger, id: Id, promptTokens: nat, window: int, replyTokens: int, other: Id)
    requires |l.order| <= 256
    ensures
      var seen := Observed(l, id, promptTokens, window, replyTokens);
      && (id == "" ==> seen == l)
      && (id != "" && window <= 0 ==> id !in seen.byId && seen.order == l.order)
      && (id != "" && window > 0 ==>
            && id in seen.byId && seen.byId[id] == InitialRoom(window, promptTokens, replyTokens)
            && (id in l.byId ==> seen.order == l.order)
            && (id !in l.byId ==> seen.order == (if |l.order| == 256 then l.order[1..] else l.order) + [id]))
      && (other != id ==>
            var dropped := id != "" && window > 0 && id !in l.byId && |l.order| == 256 && l.order[0] == other;
            && (other in seen.byId <==> other in l.byId && !dropped)
            && (other in seen.byId ==> seen.byId[other] == l.byId[other]))
  {
    EvictIs(l);
  }

  predicate Tracked(l: Ledger, id: Id) { id != "" && id in l.byId }

  predicate FitsIn(l: Ledger, id: Id, cost: nat) { Tracked(l, id) ==> cost <= l.byId[id] }

  function Spend(l: Ledger, id: Id, cost: nat): Ledger {
    if Tracked(l, id) then l.(byId := l.byId[id := l.byId[id] - cost]) else l
  }

  /** Every round with an allowance is in the queue, which stays bounded. The queue may hold rounds that have none. */
  ghost predicate Sound(l: Ledger) { |l.order| <= MAX_ROUNDS && forall id :: id in l.byId ==> id in l.order }

  lemma {:induction false} EvictKeepsSound(l: Ledger)
    requires Sound(l)
    ensures Sound(Evict(l)) && (forall id :: id in Evict(l).byId ==> id in l.byId && Evict(l).byId[id] == l.byId[id])
    decreases |l.order|
  {
    if |l.order| >= MAX_ROUNDS {
      var next := Ledger(l.byId - {l.order[0]}, l.order[1..]);
      assert l.order == [l.order[0]] + l.order[1..];
      EvictKeepsSound(next);
    }
  }

  lemma ObserveKeepsSound(l: Ledger, id: Id, promptTokens: nat, window: int, replyTokens: int)
    requires Sound(l)
    ensures Sound(Observed(l, id, promptTokens, window, replyTokens))
  {
    EvictKeepsSound(l);
    var e := Evict(l);
    assert forall k :: k in e.order ==> k in e.order + [id];
  }

  lemma SpendKeepsSound(l: Ledger, id: Id, cost: nat)
    requires Sound(l)
    ensures Sound(Spend(l, id, cost))
  {
  }

  /**
   Equality would be too much to ask: clearing a round leaves it queued, so seeing it again queues it twice,
   and the older entry can then take the newer allowance away before its turn.
   */
  lemma ClearedRoundIsEvictedEarly(l: Ledger, id: Id, other: Id, window: nat)
    requires |l.order| == MAX_ROUNDS - 1 && l.order[0] == id && id !in l.byId
    requires id != "" && other != "" && other != id && other !in l.byId && window > 0
    ensures
      var seen := Observed(l, id, 0, window, 1);
      && Tracked(seen, id) && seen.order[|seen.order| - 1] == id
      && !Tracked(Observed(seen, other, 0, window, 1), id)
  {
    var seen := Observed(l, id, 0, window, 1);
    assert Evict(l) == l;
    assert seen.order == l.order + [id];
    var e := Ledger(seen.byId - {seen.order[0]}, seen.order[1..]);
    assert Evict(seen) == Evict(e) == e;
  }

  // ---- The ledger as an object ----

  class ResultBudget {
    var byId: map<Id, int>
    var order: seq<Id>

    function View(): Ledger
      reads this
    {
      Ledger(byId, order)
    }

    constructor ()
      ensures View() == Ledger(map[], []) && Sound(View())
    {
      byId, order := map[], [];
    }

    method EvictIfFull()
      modifies this
      ensures View() == Evict(old(View()))
    {
      while |order| >= MAX_ROUNDS && |order| > 0
        invariant Evict(View()) == Evict(old(View()))
        decreases |order|
      {
        var oldest := order[0];
        order := order[1..];
        byId := byId - {oldest};
      }
    }

    method Observe(id: Id, promptTokens: nat, window: int, replyTokens: int)
      modifies this
      ensures View() == Observed(old(View()), id, promptTokens, window, replyTokens)
      ensures old(Sound(View())) ==> Sound(View())
    {
      if Sound(View()) { ObserveKeepsSound(View(), id, promptTokens, window, replyTokens); }
      if id == "" { return; }
      if window <= 0 {
        byId := byId - {id};
        return;
      }
      var reply := replyTokens;
      if reply <= 0 { reply := window * 15 / 100; }
      var room := window - promptTokens - reply;
      var cap := window / 4;
      if room > cap { room := cap; }
      if room < 0 { room := 0; }
      if id !in byId {
        EvictIfFull();
        order := order + [id];
      }
      byId := byId[id := room];
    }

    /** Whether a result of that cost may go; if so it is paid for at once. */
    method Fits(id: Id, cost: nat) returns (ok: bool)
      modifies this`byId
      ensures ok == (id == "" || id !in old(byId) || cost <= old(byId[id]))
      ensures byId == if ok && id != "" && id in old(byId) then old(byId)[id := old(byId[id]) - cost] else old(byId)
    {
      if id == "" { return true; }
      if id !in byId { return true; }
      var room := byId[id];
      if cost <= room {
        byId := byId[id := room - cost];
        return true;
      }
      ok := false;
    }

    /** Deducts what goes into the prompt whether it fits or not. */
    method Charge(id: Id, cost: nat)
      modifies this`byId
      ensures byId == if id != "" && id in old(byId) then old(byId)[id := old(byId[id]) - cost] else old(byId)
    {
      if id != "" && id in byId {
        byId := byId[id := byId[id] - cost];
      }
    }
  }

  predicate IsCheapest(costs: seq<nat>, k: nat) {
    k < |costs| && forall i :: 0 <= i < |costs| ==> costs[k] <= costs[i]
  }

  method Cheapest(costs: seq<nat>) returns (k: nat)
    requires costs != []
    ensures IsCheapest(costs, k)
  {
    k := 0;
    for i := 0 to |costs|
      invariant k < |costs| && forall j :: 0 <= j < i ==> costs[k] <= costs[j]
    {
      if costs[i] < costs[k] { k := i; }
    }
  }

  /** Sends the first shape that fits, or else the cheapest one, and pays for exactly what it sends. */
  method FitResponse(b: ResultBudget, id: Id, costs: seq<nat>) returns (sent: nat)
    requires costs != []
    modifies b`byId
    ensures sent < |costs|
    ensures b.View() == Spend(old(b.View()), id, costs[sent])
    ensures
      var l := old(b.View());
      if exists k :: 0 <= k < |costs| && FitsIn(l, id, costs[k])
      then FitsIn(l, id, costs[sent]) && forall k :: 0 <= k < sent ==> !FitsIn(l, id, costs[k])
      else IsCheapest(costs, sent)
  {
    for i := 0 to |costs|
      invariant b.View() == old(b.View())
      invariant forall k :: 0 <= k < i ==> !FitsIn(old(b.View()), id, costs[k])
    {
      var ok := b.Fits(id, costs[i]);
      if ok { return i; }
    }
    sent := Cheapest(costs);
    b.Charge(id, costs[sent]);
  }
}
