/** Parallel calls drawing on the ledger of `Budget`, one ledger operation at a time. */
module BudgetRounds {
  import opened Base
  import opened Budget

  datatype CallPc = Trying(k: nat) | Charging | Sent(shape: nat)

  /** One tool call: its round, and what each shape of its result would cost, the fullest first. */
  datatype Call = Call(round: Id, costs: seq<nat>, pc: CallPc)

  datatype World = World(ledger: Ledger, calls: map<nat, Call>)

  datatype Action =
    | ObserveRound(id: Id, promptTokens: nat, window: int, replyTokens: int)
    | StartCall(call: nat, round: Id, costs: seq<nat>)
    | StepCall(call: nat)

  predicate Busy(c: Call) { c.pc.Charging? || (c.pc.Trying? && c.pc.k < |c.costs|) }

  predicate Enabled(w: World, a: Action) {
    match a
    case ObserveRound(_, _, _, _) => true
    case StartCall(call, _, costs) => call !in w.calls && costs != []
    case StepCall(call) => call in w.calls && Busy(w.calls[call])
  }

  /** The first shape that costs least. */
  function CheapestOf(costs: seq<nat>): (k: nat)
    requires costs != []
    ensures IsCheapest(costs, k)
  {
    var n := |costs| - 1;
    if n == 0 then 0
    else
      var k := CheapestOf(costs[..n]);
      assert forall i :: 0 <= i < n ==> costs[..n][k] <= costs[..n][i];
      if costs[n] < costs[k] then n else k
  }

  /** The shape the step sends, if it sends one. */
  function Sends(w: World, call: nat): Option<nat>
    requires call in w.calls && Busy(w.calls[call])
  {
    var c := w.calls[call];
    match c.pc
    case Trying(k) => if FitsIn(w.ledger, c.round, c.costs[k]) then Some(k) else None
    case Charging => if c.costs == [] then None else Some(CheapestOf(c.costs))
    case Sent(_) => None
  }

  function Step(w: World, call: nat): World
    requires call in w.calls && Busy(w.calls[call])
  {
    var c := w.calls[call];
    match Sends(w, call)
    case Some(shape) =>
      World(if shape < |c.costs| then Spend(w.ledger, c.round, c.costs[shape]) else w.ledger, w.calls[call := c.(pc := Sent(shape))])
    case None =>
      var next := if c.pc.Trying? && c.pc.k + 1 < |c.costs| then Trying(c.pc.k + 1) else Charging;
      w.(calls := w.calls[call := c.(pc := next)])
  }

  function Apply(w: World, a: Action): World
    requires Enabled(w, a)
  {
    match a
    case ObserveRound(id, promptTokens, window, replyTokens) =>
      w.(ledger := Observed(w.ledger, id, promptTokens, window, replyTokens))
    case StartCall(call, round, costs) => w.(calls := w.calls[call := Call(round, costs, Trying(0))])
    case StepCall(call) => Step(w, call)
  }

  ghost predicate IsPath(ws: seq<World>, acts: seq<Action>) {
    && |ws| == |acts| + 1
    && forall i :: 0 <= i < |acts| ==> Enabled(ws[i], acts[i]) && ws[i + 1] == Apply(ws[i], acts[i])
  }

  /** What one action puts into the prompt of round `id`; `admitted` counts only what fitted. */
  function Cost(w: World, a: Action, id: Id, admitted: bool): nat
    requires Enabled(w, a)
  {
    if !a.StepCall? || w.calls[a.call].round != id then 0
    else
      var c := w.calls[a.call];
      match Sends(w, a.call)
      case None => 0
      case Some(shape) => if shape < |c.costs| && (!admitted || c.pc.Trying?) then c.costs[shape] else 0
  }

  /** The sum over the actions from `i` up to `j`. */
  ghost function Total(ws: seq<World>, acts: seq<Action>, i: nat, j: nat, id: Id, admitted: bool): nat
    requires IsPath(ws, acts) && i <= j <= |acts|
  {
    if i == j then 0 else Total(ws, acts, i, j - 1, id, admitted) + Cost(ws[j - 1], acts[j - 1], id, admitted)
  }

  predicate Observes(a: Action, id: Id) { a.ObserveRound? && a.id == id }

  lemma {:induction false} EvictedOrSame(l: Ledger, id: Id)
    ensures id in Evict(l).byId ==> id in l.byId && Evict(l).byId[id] == l.byId[id]
    decreases |l.order|
  {
    if |l.order| >= MAX_ROUNDS { EvictedOrSame(Ledger(l.byId - {l.order[0]}, l.order[1..]), id); }
  }

  lemma RoomAfter(w: World, a: Action, id: Id)
    requires Enabled(w, a) && !Observes(a, id) && Tracked(Apply(w, a).ledger, id)
    ensures Tracked(w.ledger, id)
    ensures Apply(w, a).ledger.byId[id] == w.ledger.byId[id] - Cost(w, a, id, false)
    ensures Cost(w, a, id, true) > 0 ==> Apply(w, a).ledger.byId[id] >= 0
    ensures Cost(w, a, id, true) <= Cost(w, a, id, false)
  {
    if a.ObserveRound? { EvictedOrSame(w.ledger, id); }
  }

  /**
   From one look at a round to the next, as long as it is tracked: the room left is the room there was less
   what was sent, whatever the calls' order; what went in because it fitted never exceeds the room there was.
   */
  lemma {:induction false} RoomIsConserved(ws: seq<World>, acts: seq<Action>, i: nat, j: nat, id: Id)
    requires IsPath(ws, acts) && i <= j <= |acts|
    requires forall k :: i <= k < j ==> !Observes(acts[k], id)
    requires Tracked(ws[j].ledger, id) && (Tracked(ws[i].ledger, id) ==> ws[i].ledger.byId[id] >= 0)
    ensures Tracked(ws[i].ledger, id)
    ensures ws[j].ledger.byId[id] == ws[i].ledger.byId[id] - Total(ws, acts, i, j, id, false)
    ensures Total(ws, acts, i, j, id, true) <= ws[i].ledger.byId[id]
    ensures Total(ws, acts, i, j, id, true) <= Total(ws, acts, i, j, id, false)
  {
    if i < j {
      RoomAfter(ws[j - 1], acts[j - 1], id);
      RoomIsConserved(ws, acts, i, j - 1, id);
    }
  }

  /** A round starts with between nothing and a quarter of the window. */
  lemma ObservedRoom(w: World, id: Id, promptTokens: nat, window: int, replyTokens: int)
    requires id != "" && window > 0
    ensures
      var l := Apply(w, ObserveRound(id, promptTokens, window, replyTokens)).ledger;
      Tracked(l, id) && 0 <= l.byId[id] <= window / 4
  {
  }

  // ---- One call ----

  /** A call that has sent something sent one of its shapes. */
  ghost predicate CallGood(w: World, call: nat) {
    call in w.calls ==>
      var c := w.calls[call];
      && c.costs != []
      && (c.pc.Trying? ==> c.pc.k < |c.costs|)
      && (c.pc.Sent? ==> c.pc.shape < |c.costs|)
  }

  ghost predicate AllGood(w: World) { forall call :: CallGood(w, call) }

  lemma {:induction false} CallsStayGood(ws: seq<World>, acts: seq<Action>, i: nat)
    requires IsPath(ws, acts) && AllGood(ws[0]) && i < |ws|
    ensures AllGood(ws[i])
  {
    if i > 0 {
      CallsStayGood(ws, acts, i - 1);
      forall call ensures CallGood(ws[i], call) { assert CallGood(ws[i - 1], call); }
    }
  }

  /**
   One step of a call: a shape that fits is sent and paid for, one that does not is passed over for the next, and after
   the last one the cheapest goes out. No other call is touched, and without a shape sent no allowance is.
   */
  lemma CallMoves(w: World, call: nat, other: nat)
    requires call in w.calls && CallGood(w, call) && Busy(w.calls[call])
    ensures
      var c, w' := w.calls[call], Step(w, call);
      && call in w'.calls && w'.calls[call].round == c.round && w'.calls[call].costs == c.costs
      && (if c.pc.Charging? then w'.calls[call].pc.Sent?
          else if FitsIn(w.ledger, c.round, c.costs[c.pc.k]) then w'.calls[call].pc == Sent(c.pc.k)
          else w'.calls[call].pc == if c.pc.k + 1 < |c.costs| then Trying(c.pc.k + 1) else Charging)
      && w'.ledger == (if w'.calls[call].pc.Sent? then Spend(w.ledger, c.round, c.costs[w'.calls[call].pc.shape]) else w.ledger)
      && (other != call ==> (other in w'.calls <==> other in w.calls) && (other in w.calls ==> w'.calls[other] == w.calls[other]))
  {
  }

  /** What a call has sent never changes, and its shapes stay what they were. */
  lemma {:induction false} SentOnce(ws: seq<World>, acts: seq<Action>, i: nat, j: nat, call: nat)
    requires IsPath(ws, acts) && i <= j < |ws| && call in ws[i].calls && ws[i].calls[call].pc.Sent?
    ensures call in ws[j].calls && ws[j].calls[call] == ws[i].calls[call]
  {
    if i < j { SentOnce(ws, acts, i, j - 1, call); }
  }

  /** A shape goes out untried only after every shape was refused in its turn, and then it is a cheapest one. */
  lemma ChargedIsCheapest(w: World, call: nat)
    requires call in w.calls && CallGood(w, call) && Busy(w.calls[call]) && w.calls[call].pc.Charging?
    ensures var c := Step(w, call).calls[call];
            && c.pc.Sent? && IsCheapest(c.costs, c.pc.shape)
            && Step(w, call).ledger == Spend(w.ledger, c.round, c.costs[c.pc.shape])
  {
  }

  predicate RefusedAt(w: World, call: nat, k: nat, costs: seq<nat>) {
    && call in w.calls && w.calls[call].pc == Trying(k) && w.calls[call].costs == costs && k < |costs|
    && !FitsIn(w.ledger, w.calls[call].round, costs[k])
  }

  /** The refusals a call has behind it: every shape before `k` was too big for the room at its own turn. */
  lemma {:induction false} TriedInOrder(ws: seq<World>, acts: seq<Action>, i: nat, j: nat, call: nat, k: nat)
    requires IsPath(ws, acts) && i <= j < |ws| && call !in ws[i].calls && AllGood(ws[0])
    requires call in ws[j].calls
    requires
      var c := ws[j].calls[call];
      k < |c.costs| && ((c.pc.Trying? && k < c.pc.k) || c.pc.Charging?)
    ensures exists n :: i <= n < j && acts[n] == StepCall(call) && RefusedAt(ws[n], call, k, ws[j].calls[call].costs)
  {
    assert i < j;
    var w := ws[j - 1];
    CallsStayGood(ws, acts, j - 1);
    assert CallGood(w, call);
    if call in w.calls && w.calls[call] != ws[j].calls[call] && w.calls[call].pc == Trying(k) {
      assert acts[j - 1] == StepCall(call);
    } else {
      TriedInOrder(ws, acts, i, j - 1, call, k);
    }
  }

  /** Shape `k` was tried and refused at one of the actions from `i` up to `n`. */
  ghost predicate RefusedBetween(ws: seq<World>, acts: seq<Action>, i: nat, n: nat, call: nat, costs: seq<nat>, k: nat)
    requires IsPath(ws, acts) && n <= |acts|
  {
    exists m :: i <= m < n && acts[m] == StepCall(call) && RefusedAt(ws[m], call, k, costs)
  }

  ghost predicate AllRefused(ws: seq<World>, acts: seq<Action>, i: nat, n: nat, call: nat, costs: seq<nat>, count: nat)
    requires IsPath(ws, acts) && n <= |acts|
  {
    forall k: nat :: k < count ==> RefusedBetween(ws, acts, i, n, call, costs, k)
  }

  predicate SendsAt(w: World, call: nat, c: Call) {
    && call in w.calls && c.pc.Sent? && c.pc.shape < |c.costs|
    && w.calls[call].round == c.round && w.calls[call].costs == c.costs
    && ((w.calls[call].pc == Trying(c.pc.shape) && FitsIn(w.ledger, c.round, c.costs[c.pc.shape]))
        || (w.calls[call].pc.Charging? && IsCheapest(c.costs, c.pc.shape)))
  }

  /** How many shapes had to be refused before: those before the one that fitted, or all of them. */
  function Refusals(w: World, call: nat, c: Call): nat
    requires SendsAt(w, call, c)
  {
    if w.calls[call].pc.Trying? then c.pc.shape else |c.costs|
  }

  /**
   A call that has sent a shape: it fitted at its turn, or it is a cheapest one; and every shape before it, or
   every shape, was refused at its own turn.
   */
  lemma {:induction false} SentInOrder(ws: seq<World>, acts: seq<Action>, i: nat, j: nat, call: nat) returns (n: nat)
    requires IsPath(ws, acts) && i <= j < |ws| && call !in ws[i].calls && AllGood(ws[0])
    requires call in ws[j].calls && ws[j].calls[call].pc.Sent?
    ensures i <= n < j && acts[n] == StepCall(call) && SendsAt(ws[n], call, ws[j].calls[call])
    ensures AllRefused(ws, acts, i, n, call, ws[j].calls[call].costs, Refusals(ws[n], call, ws[j].calls[call]))
  {
    assert i < j;
    n := j - 1;
    CallsStayGood(ws, acts, n);
    assert CallGood(ws[n], call);
    if call in ws[n].calls && ws[n].calls[call].pc.Sent? {
      SentOnce(ws, acts, n, j, call);
      n := SentInOrder(ws, acts, i, n, call);
    } else {
      SendingStep(ws[n], acts[n], call);
      forall k: nat | k < Refusals(ws[n], call, ws[j].calls[call])
        ensures RefusedBetween(ws, acts, i, n, call, ws[j].calls[call].costs, k)
      {
        TriedInOrder(ws, acts, i, n, call, k);
      }
    }
  }

  lemma SendingStep(w: World, a: Action, call: nat)
    requires Enabled(w, a) && CallGood(w, call) && !(call in w.calls && w.calls[call].pc.Sent?)
    requires call in Apply(w, a).calls && Apply(w, a).calls[call].pc.Sent?
    ensures a == StepCall(call) && SendsAt(w, call, Apply(w, a).calls[call])
  {
  }
}
