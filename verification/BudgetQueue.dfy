/** The queue of rounds against the rounds with an allowance, over every run of the ledger of `Budget`. */
module BudgetQueue {
  import opened Base
  import opened Budget
  import opened Decimals

  datatype Op = Look(id: Id, promptTokens: nat, window: int, replyTokens: int) | Pay(id: Id, cost: nat)

  function Apply(l: Ledger, op: Op): Ledger {
    match op
    case Look(id, promptTokens, window, replyTokens) => Observed(l, id, promptTokens, window, replyTokens)
    case Pay(id, cost) => Spend(l, id, cost)
  }

  ghost predicate IsRun(ls: seq<Ledger>, ops: seq<Op>) {
    && |ls| == |ops| + 1 && ls[0] == Ledger(map[], [])
    && forall i :: 0 <= i < |ops| ==> ls[i + 1] == Apply(ls[i], ops[i])
  }

  /** The queue holds every round with an allowance once, and nothing else. */
  ghost predicate QueueIsKeys(l: Ledger) { multiset(l.order) == multiset(l.byId.Keys) }

  /** Whether the operation queues a round, and so first makes room. */
  predicate Queues(l: Ledger, op: Op) { op.Look? && op.id != "" && op.window > 0 && op.id !in l.byId }

  /** The round is still queued once the operation has made room. */
  predicate Survives(l: Ledger, op: Op, id: Id) { id in if Queues(l, op) then Evict(l).order else l.order }

  /** The operation finds the round without a window and takes its allowance, but not its place in the queue. */
  predicate Clears(l: Ledger, op: Op, id: Id) { op.Look? && op.id == id != "" && op.window <= 0 && id in l.byId }

  /** A round was cleared and has been queued ever since. */
  ghost predicate ClearedAndQueued(ls: seq<Ledger>, ops: seq<Op>, n: nat, id: Id)
    requires IsRun(ls, ops) && n < |ls|
  {
    exists i :: 0 <= i < n && Clears(ls[i], ops[i], id) && forall j :: i < j < n ==> Survives(ls[j], ops[j], id)
  }

  lemma ClearedNext(ls: seq<Ledger>, ops: seq<Op>, n: nat, id: Id)
    requires IsRun(ls, ops) && n < |ops|
    ensures ClearedAndQueued(ls, ops, n + 1, id) <==>
              (ClearedAndQueued(ls, ops, n, id) && Survives(ls[n], ops[n], id)) || Clears(ls[n], ops[n], id)
  {
    if ClearedAndQueued(ls, ops, n, id) && Survives(ls[n], ops[n], id) {
      var i :| 0 <= i < n && Clears(ls[i], ops[i], id) && forall j :: i < j < n ==> Survives(ls[j], ops[j], id);
      assert forall j :: i < j < n + 1 ==> Survives(ls[j], ops[j], id);
    }
    if ClearedAndQueued(ls, ops, n + 1, id) {
      var i :| 0 <= i < n + 1 && Clears(ls[i], ops[i], id) && forall j :: i < j < n + 1 ==> Survives(ls[j], ops[j], id);
      if i < n { assert Survives(ls[n], ops[n], id); }
    }
  }

  /** The entries of one round: one and an allowance, or, once cleared, too many or one without. */
  predicate EntriesFit(l: Ledger, id: Id, cleared: bool) {
    var entries := multiset(l.order)[id];
    if cleared then entries >= 1 && (id in l.byId ==> entries >= 2) else entries == if id in l.byId then 1 else 0
  }

  lemma EvictKeepsEntries(l: Ledger, id: Id, cleared: bool)
    requires |l.order| <= MAX_ROUNDS && EntriesFit(l, id, cleared)
    ensures EntriesFit(Evict(l), id, cleared && id in Evict(l).order)
  {
    EvictIs(l);
    if |l.order| == MAX_ROUNDS { assert l.order == [l.order[0]] + l.order[1..]; }
  }

  /** A round that is queued comes behind whatever is left. */
  lemma QueuedEntries(l: Ledger, op: Op, id: Id, cleared: bool)
    requires |l.order| <= MAX_ROUNDS && EntriesFit(l, id, cleared) && Queues(l, op)
    ensures EntriesFit(Apply(l, op), id, cleared && Survives(l, op, id))
  {
    EvictKeepsEntries(l, id, cleared);
    EvictIs(l);
    assert multiset(Evict(l).order + [op.id])[id] == multiset(Evict(l).order)[id] + if op.id == id then 1 else 0;
  }

  lemma EntriesKept(l: Ledger, op: Op, id: Id, cleared: bool)
    requires |l.order| <= MAX_ROUNDS && EntriesFit(l, id, cleared)
    ensures EntriesFit(Apply(l, op), id, (cleared && Survives(l, op, id)) || Clears(l, op, id))
  {
    if Queues(l, op) { QueuedEntries(l, op, id, cleared); }
  }

  lemma {:induction false} EntriesReachable(ls: seq<Ledger>, ops: seq<Op>, n: nat, id: Id)
    requires IsRun(ls, ops) && n < |ls|
    ensures Sound(ls[n]) && EntriesFit(ls[n], id, ClearedAndQueued(ls, ops, n, id))
  {
    if n > 0 {
      EntriesReachable(ls, ops, n - 1, id);
      ClearedNext(ls, ops, n - 1, id);
      EntriesKept(ls[n - 1], ops[n - 1], id, ClearedAndQueued(ls, ops, n - 1, id));
      match ops[n - 1] {
        case Look(k, promptTokens, window, replyTokens) => ObserveKeepsSound(ls[n - 1], k, promptTokens, window, replyTokens);
        case Pay(k, cost) => SpendKeepsSound(ls[n - 1], k, cost);
      }
    }
  }

  /**
   In every run: the queue holds exactly the rounds with an allowance, each once, as long as no round that was
   found without a window while it had an allowance has been queued ever since; and not a moment longer.
   */
  lemma QueueIsKeysIff(ls: seq<Ledger>, ops: seq<Op>, n: nat)
    requires IsRun(ls, ops) && n < |ls|
    ensures QueueIsKeys(ls[n]) <==> forall id :: !ClearedAndQueued(ls, ops, n, id)
  {
    forall id
      ensures ClearedAndQueued(ls, ops, n, id) <==> multiset(ls[n].order)[id] != multiset(ls[n].byId.Keys)[id]
    {
      EntriesReachable(ls, ops, n, id);
    }
  }

  // ---- A run in which an allowance is lost before its turn ----

  function Names(n: nat): seq<Id> { if n == 0 then [] else Names(n - 1) + [Decimal(n - 1)] }

  lemma {:induction false} NamesAt(n: nat, id: Id)
    ensures |Names(n)| == n && (id in Names(n) ==> exists k: nat :: k < n && id == Decimal(k))
    ensures n > 0 ==> Names(n)[0] == Decimal(0)
  {
    if n > 0 {
      NamesAt(n - 1, id);
      if id in Names(n) && id !in Names(n - 1) { assert id == Decimal(n - 1); }
    }
  }

  lemma NewName(n: nat, m: nat)
    requires n <= m
    ensures Decimal(m) !in Names(n)
  {
    NamesAt(n, Decimal(m));
    if Decimal(m) in Names(n) {
      var k: nat :| k < n && Decimal(m) == Decimal(k);
      DecimalInjective(m, k);
    }
  }

  lemma Extend(ls: seq<Ledger>, ops: seq<Op>, op: Op) returns (ls': seq<Ledger>, ops': seq<Op>)
    requires IsRun(ls, ops)
    ensures IsRun(ls', ops') && ls <= ls' && ops <= ops' && |ops'| == |ops| + 1
    ensures ops'[|ops|] == op && ls'[|ops'|] == Apply(ls[|ops|], op)
  {
    ls', ops' := ls + [Apply(ls[|ops|], op)], ops + [op];
  }

  lemma {:induction false} Fill(n: nat) returns (ls: seq<Ledger>, ops: seq<Op>)
    requires n < MAX_ROUNDS
    ensures IsRun(ls, ops) && |ops| == n && ls[n].order == Names(n) && Sound(ls[n])
    ensures n > 0 ==> Decimal(0) in ls[n].byId
  {
    if n == 0 {
      ls, ops := [Ledger(map[], [])], [];
    } else {
      ls, ops := Fill(n - 1);
      var l := ls[n - 1];
      NewName(n - 1, n - 1);
      NamesAt(n - 1, "");
      EvictIs(l);
      ObserveKeepsSound(l, Decimal(n - 1), 0, 100, 1);
      ls, ops := Extend(ls, ops, Look(Decimal(n - 1), 0, 100, 1));
    }
  }

  /**
   The ledger that `ClearedRoundIsEvictedEarly` starts from is reached: the newest entry of the queue has an
   allowance, and loses it when the next round is seen.
   */
  lemma NewestCanLoseItsAllowance() returns (ls: seq<Ledger>, ops: seq<Op>, id: Id)
    ensures IsRun(ls, ops) && |ops| > 0
    ensures var n := |ops| - 1;
            && Tracked(ls[n], id) && ls[n].order != [] && ls[n].order[|ls[n].order| - 1] == id
            && ops[n].Look? && ops[n].id != id && !Tracked(ls[n + 1], id)
  {
    var m: nat := MAX_ROUNDS - 1;
    ls, ops := Fill(m);
    id := Decimal(0);
    var other := Decimal(m);
    NamesAt(m, id);
    NewName(m, m);
    NewName(0, 0);
    var l := ls[m];
    ls, ops := Extend(ls, ops, Look(id, 0, 0, 1));
    var cleared := ls[m + 1];
    assert cleared == l.(byId := l.byId - {id});
    assert id != other by { if id == other { DecimalInjective(0, m); } }
    ClearedRoundIsEvictedEarly(cleared, id, other, 100);
    ls, ops := Extend(ls, ops, Look(id, 0, 100, 1));
    ls, ops := Extend(ls, ops, Look(other, 0, 100, 1));
  }
}
