/**
 One tool-list fetch per server at a time, shared by every caller that asks meanwhile. The fetch runs on its
 own; a caller may leave whenever its own context says so.
 */
module Listing {
  import opened Base
  import opened Health

  type Id = nat

  /** The goroutine behind a fetch, step by step. */
  datatype FetchPc =
    | Fetching                             // the server has not answered
    | Answered(answer: Answer)             // it has; nothing is recorded
    | Judged(answer: Answer)               // the verdict is in the health record
    | Published(answer: Answer)            // the answer is readable by every waiter
    | Done(answer: Answer)                 // the slot is free

  datatype Fetch = Fetch(server: Server, pc: FetchPc)

  datatype WaiterPc = Waiting | Got(answer: Answer) | Gone

  datatype Waiter = Waiter(call: Id, cancelled: bool, pc: WaiterPc)

  datatype World = World(
    now: int,
    slots: map<Server, Id>,                // the in-flight fetches
    fetches: map<Id, Fetch>,
    waiters: map<Id, Waiter>,
    health: Record,
    verdicts: map<Server, (Answer, int)>)  // what the last completed fetch of each server said, and when

  datatype Action =
    | Tick(ms: nat)
    | Ask(caller: Id, server: Server, next: Id)
    | Answer(call: Id, answer: Health.Answer)
    | RecordVerdict(call: Id)
    | Publish(call: Id)
    | FreeSlot(call: Id)
    | Cancel(caller: Id)
    | Receive(caller: Id)
    | Leave(caller: Id)

  predicate Init(w: World) {
    w.slots == map[] && w.fetches == map[] && w.waiters == map[] && w.health == Record(map[], map[], map[]) && w.verdicts == map[]
  }

  predicate Readable(pc: FetchPc) { pc.Published? || pc.Done? }

  predicate Enabled(w: World, a: Action) {
    match a
    case Tick(_) => true
    case Ask(caller, _, next) => caller !in w.waiters && next !in w.fetches
    case Answer(call, _) => call in w.fetches && w.fetches[call].pc.Fetching?
    case RecordVerdict(call) => call in w.fetches && w.fetches[call].pc.Answered?
    case Publish(call) => call in w.fetches && w.fetches[call].pc.Judged?
    case FreeSlot(call) => call in w.fetches && w.fetches[call].pc.Published?
    case Cancel(caller) => caller in w.waiters
    case Receive(caller) =>
      caller in w.waiters && w.waiters[caller].pc.Waiting?
      && w.waiters[caller].call in w.fetches && Readable(w.fetches[w.waiters[caller].call].pc)
    case Leave(caller) => caller in w.waiters && w.waiters[caller].pc.Waiting? && w.waiters[caller].cancelled
  }

  function MoveTo(w: World, call: Id, pc: FetchPc): map<Id, Fetch>
    requires call in w.fetches
  {
    w.fetches[call := w.fetches[call].(pc := pc)]
  }

  function Apply(w: World, a: Action): World
    requires Enabled(w, a)
  {
    match a
    case Tick(ms) => w.(now := w.now + ms)
    case Ask(caller, server, next) =>
      if server in w.slots then w.(waiters := w.waiters[caller := Waiter(w.slots[server], false, Waiting)])
      else
        w.(slots := w.slots[server := next], fetches := w.fetches[next := Fetch(server, Fetching)],
           waiters := w.waiters[caller := Waiter(next, false, Waiting)])
    case Answer(call, answer) => w.(fetches := MoveTo(w, call, Answered(answer)))
    case RecordVerdict(call) =>
      var f := w.fetches[call];
      w.(fetches := MoveTo(w, call, Judged(f.pc.answer)),
         health := Judge(w.health, f.server, f.pc.answer, w.now),
         verdicts := w.verdicts[f.server := (f.pc.answer, w.now)])
    case Publish(call) => w.(fetches := MoveTo(w, call, Published(w.fetches[call].pc.answer)))
    case FreeSlot(call) =>
      w.(fetches := MoveTo(w, call, Done(w.fetches[call].pc.answer)), slots := w.slots - {w.fetches[call].server})
    case Cancel(caller) => w.(waiters := w.waiters[caller := w.waiters[caller].(cancelled := true)])
    case Receive(caller) =>
      var k := w.waiters[caller];
      w.(waiters := w.waiters[caller := k.(pc := Got(w.fetches[k.call].pc.answer))])
    case Leave(caller) => w.(waiters := w.waiters[caller := w.waiters[caller].(pc := Gone)])
  }

  ghost predicate IsRun(ws: seq<World>, acts: seq<Action>) {
    && |ws| == |acts| + 1 && Init(ws[0])
    && forall i :: 0 <= i < |acts| ==> Enabled(ws[i], acts[i]) && ws[i + 1] == Apply(ws[i], acts[i])
  }

  // ---- Invariant ----

  /** A slot names a fetch of its server that has not freed it, and every such fetch has its slot. */
  predicate SlotGood(w: World, s: Server) {
    s in w.slots ==> w.slots[s] in w.fetches && w.fetches[w.slots[s]].server == s && !w.fetches[w.slots[s]].pc.Done?
  }

  predicate FetchGood(w: World, f: Id) {
    f in w.fetches && !w.fetches[f].pc.Done? ==> w.fetches[f].server in w.slots && w.slots[w.fetches[f].server] == f
  }

  predicate WaiterGood(w: World, k: Id) {
    k in w.waiters ==>
      && w.waiters[k].call in w.fetches
      && (w.waiters[k].pc.Got? ==>
            Readable(w.fetches[w.waiters[k].call].pc) && w.fetches[w.waiters[k].call].pc.answer == w.waiters[k].pc.answer)
      && (w.waiters[k].pc.Gone? ==> w.waiters[k].cancelled)
  }

  /** The health record is always that of the last verdict, and a fetch past its verdict is that one. */
  predicate HealthGood(w: World, s: Server) {
    && (s in w.verdicts ==> Says(w.health, s, w.verdicts[s].0, w.verdicts[s].1))
    && (s !in w.verdicts ==> s !in w.health.seen && s !in w.health.down)
    && (s in w.slots && w.slots[s] in w.fetches ==>
          var pc := w.fetches[w.slots[s]].pc;
          pc.Judged? || pc.Published? ==> s in w.verdicts && w.verdicts[s].0 == pc.answer)
  }

  ghost predicate Good(w: World) {
    && (forall s :: SlotGood(w, s)) && (forall f :: FetchGood(w, f))
    && (forall k :: WaiterGood(w, k)) && (forall s :: HealthGood(w, s))
  }

  lemma KeepSlot(w: World, a: Action, s: Server)
    requires Good(w) && Enabled(w, a)
    ensures SlotGood(Apply(w, a), s)
  {
    assert SlotGood(w, s);
    if a.FreeSlot? { assert FetchGood(w, a.call); }
  }

  lemma KeepFetch(w: World, a: Action, f: Id)
    requires Good(w) && Enabled(w, a)
    ensures FetchGood(Apply(w, a), f)
  {
    assert FetchGood(w, f);
    if a.FreeSlot? { assert FetchGood(w, a.call); }
  }

  lemma KeepWaiter(w: World, a: Action, k: Id)
    requires Good(w) && Enabled(w, a)
    ensures WaiterGood(Apply(w, a), k)
  {
    assert WaiterGood(w, k);
    if a.Ask? { assert SlotGood(w, a.server); }
  }

  lemma KeepHealth(w: World, a: Action, s: Server)
    requires Good(w) && Enabled(w, a)
    ensures HealthGood(Apply(w, a), s)
  {
    assert HealthGood(w, s) && SlotGood(w, s);
    if a.RecordVerdict? || a.Publish? || a.FreeSlot? || a.Answer? { assert FetchGood(w, a.call); }
  }

  lemma {:induction false} GoodReachable(ws: seq<World>, acts: seq<Action>, i: nat)
    requires IsRun(ws, acts) && i < |ws|
    ensures Good(ws[i])
  {
    if i > 0 {
      GoodReachable(ws, acts, i - 1);
      var w, a := ws[i - 1], acts[i - 1];
      forall s ensures SlotGood(ws[i], s) { KeepSlot(w, a, s); }
      forall f ensures FetchGood(ws[i], f) { KeepFetch(w, a, f); }
      forall k ensures WaiterGood(ws[i], k) { KeepWaiter(w, a, k); }
      forall s ensures HealthGood(ws[i], s) { KeepHealth(w, a, s); }
    }
  }

  // ---- What follows ----

  /** However many turns ask, a server has at most one fetch on its way. */
  lemma OneFetchPerServer(ws: seq<World>, acts: seq<Action>, i: nat, f: Id, g: Id)
    requires IsRun(ws, acts) && i < |ws| && f in ws[i].fetches && g in ws[i].fetches
    requires !ws[i].fetches[f].pc.Done? && !ws[i].fetches[g].pc.Done? && ws[i].fetches[f].server == ws[i].fetches[g].server
    ensures f == g
  {
    GoodReachable(ws, acts, i);
    assert FetchGood(ws[i], f) && FetchGood(ws[i], g);
  }

  predicate HasAnswer(pc: FetchPc) { !pc.Fetching? }

  /** A fetch's answer, once it has one, never changes. */
  lemma {:induction false} AnswerIsFinal(ws: seq<World>, acts: seq<Action>, i: nat, j: nat, f: Id)
    requires IsRun(ws, acts) && i <= j < |ws| && f in ws[i].fetches && HasAnswer(ws[i].fetches[f].pc)
    ensures f in ws[j].fetches && HasAnswer(ws[j].fetches[f].pc)
    ensures ws[j].fetches[f].pc.answer == ws[i].fetches[f].pc.answer && ws[j].fetches[f].server == ws[i].fetches[f].server
  {
    if i < j { AnswerIsFinal(ws, acts, i, j - 1, f); }
  }

  /** Two callers that waited for the same fetch got the same answer, the one it published. */
  lemma EveryWaiterGetsTheAnswer(ws: seq<World>, acts: seq<Action>, i: nat, j: nat, k: Id, l: Id)
    requires IsRun(ws, acts) && i <= j < |ws| && k in ws[i].waiters && l in ws[j].waiters
    requires ws[i].waiters[k].pc.Got? && ws[j].waiters[l].pc.Got? && ws[i].waiters[k].call == ws[j].waiters[l].call
    ensures ws[i].waiters[k].pc.answer == ws[j].waiters[l].pc.answer
  {
    GoodReachable(ws, acts, i);
    GoodReachable(ws, acts, j);
    assert WaiterGood(ws[i], k) && WaiterGood(ws[j], l);
    AnswerIsFinal(ws, acts, i, j, ws[i].waiters[k].call);
  }

  /** A caller that has its answer, or has left, is done: it neither gets another answer nor loses the one it has. */
  lemma {:induction false} WaiterIsFinal(ws: seq<World>, acts: seq<Action>, i: nat, j: nat, k: Id)
    requires IsRun(ws, acts) && i <= j < |ws| && k in ws[i].waiters && !ws[i].waiters[k].pc.Waiting?
    ensures k in ws[j].waiters && ws[j].waiters[k].pc == ws[i].waiters[k].pc
  {
    if i < j { WaiterIsFinal(ws, acts, i, j - 1, k); }
  }

  /** Nobody is held up: a fetch can always take its next step, with any answer, and a caller can receive or leave. */
  lemma NobodyIsHeldUp(w: World, f: Id, k: Id, answer: Health.Answer, ms: nat)
    requires f in w.fetches && k in w.waiters && w.waiters[k].pc.Waiting? && w.waiters[k].call == f
    ensures
      match w.fetches[f].pc
      case Fetching => Enabled(w, Action.Answer(f, answer))
      case Answered(_) => Enabled(w, RecordVerdict(f))
      case Judged(_) => Enabled(w, Publish(f))
      case Published(_) => Enabled(w, FreeSlot(f)) && Enabled(w, Receive(k))
      case Done(_) => Enabled(w, Receive(k))
    ensures Enabled(w, Cancel(k)) && Enabled(Apply(w, Cancel(k)), Leave(k))
    ensures Enabled(w, Tick(ms)) && Apply(w, Tick(ms)).now == w.now + ms
  {
  }

  /** Only a caller's own cancellation makes it leave without the answer. */
  lemma GoneMeansCancelled(ws: seq<World>, acts: seq<Action>, i: nat, k: Id)
    requires IsRun(ws, acts) && i < |ws| && k in ws[i].waiters && ws[i].waiters[k].pc.Gone?
    ensures exists n :: 0 <= n < i && acts[n] == Cancel(k)
  {
    GoodReachable(ws, acts, i);
    assert WaiterGood(ws[i], k);
    CancelledByItself(ws, acts, i, k);
  }

  lemma {:induction false} CancelledByItself(ws: seq<World>, acts: seq<Action>, i: nat, k: Id)
    requires IsRun(ws, acts) && i < |ws| && k in ws[i].waiters && ws[i].waiters[k].cancelled
    ensures exists n :: 0 <= n < i && acts[n] == Cancel(k)
  {
    assert i > 0;
    if acts[i - 1] != Cancel(k) { CancelledByItself(ws, acts, i - 1, k); }
  }

  /** A cancellation and a departure touch nobody else: not the fetch, not the record, not another caller. */
  lemma CancellationIsPrivate(w: World, a: Action, k: Id)
    requires Enabled(w, a) && (a.Cancel? || a.Leave?) && k != a.caller
    ensures var w' := Apply(w, a);
            && w'.fetches == w.fetches && w'.slots == w.slots && w'.health == w.health && w'.verdicts == w.verdicts
            && (k in w'.waiters <==> k in w.waiters) && (k in w.waiters ==> w'.waiters[k] == w.waiters[k])
  {
  }

  /**
   The answer and the verdict become visible together: once a server was asked and has no fetch in flight, the
   record says what the last fetch said. So a caller either joins the fetch that failed or finds its failure on
   record; there is nothing in between.
   */
  lemma FreeSlotMeansJudged(ws: seq<World>, acts: seq<Action>, i: nat, f: Id)
    requires IsRun(ws, acts) && i < |ws| && f in ws[i].fetches && HasAnswer(ws[i].fetches[f].pc)
    requires ws[i].fetches[f].server !in ws[i].slots
    ensures
      var s := ws[i].fetches[f].server;
      s in ws[i].verdicts && Says(ws[i].health, s, ws[i].verdicts[s].0, ws[i].verdicts[s].1)
  {
    GoodReachable(ws, acts, i);
    var s := ws[i].fetches[f].server;
    assert HealthGood(ws[i], s) && FetchGood(ws[i], f);
    FinishedWasJudged(ws, acts, i, f);
  }

  lemma {:induction false} FinishedWasJudged(ws: seq<World>, acts: seq<Action>, i: nat, f: Id)
    requires IsRun(ws, acts) && i < |ws| && f in ws[i].fetches
    requires HasAnswer(ws[i].fetches[f].pc) && !ws[i].fetches[f].pc.Answered?
    ensures ws[i].fetches[f].server in ws[i].verdicts
  {
    assert i > 0;
    var w := ws[i - 1];
    if f in w.fetches && HasAnswer(w.fetches[f].pc) && !w.fetches[f].pc.Answered? { FinishedWasJudged(ws, acts, i - 1, f); }
  }

  /** The verdict kept for a server is the answer of the fetch that was judged last. */
  lemma {:induction false} VerdictIsLastAnswer(ws: seq<World>, acts: seq<Action>, i: nat, j: nat, f: Id)
    requires IsRun(ws, acts) && i < j < |ws| && acts[i] == RecordVerdict(f)
    requires forall n :: i < n < j ==>
      !(acts[n].RecordVerdict? && acts[n].call in ws[n].fetches && ws[n].fetches[acts[n].call].server == ws[i].fetches[f].server)
    ensures
      var s := ws[i].fetches[f].server;
      s in ws[j].verdicts && ws[j].verdicts[s] == (ws[i].fetches[f].pc.answer, ws[i].now)
      && Says(ws[j].health, s, ws[i].fetches[f].pc.answer, ws[i].now)
  {
    GoodReachable(ws, acts, j);
    assert HealthGood(ws[j], ws[i].fetches[f].server);
    if j > i + 1 {
      VerdictIsLastAnswer(ws, acts, i, j - 1, f);
      assert Enabled(ws[j - 1], acts[j - 1]);
    }
  }
}
