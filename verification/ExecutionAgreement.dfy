/**
 The outcome an approval shows against the state its run ended in.

 The two are written by different statements, by a worker or by a cleaner, in either order. They agree unless a
 worker reports a result of its own that the store never took: Finish errored or matched no row, and the read
 after it failed or did not show "unknown". From then on it matters who writes the outcome first.
 */
module ExecutionAgreement {
  import opened Base
  import opened ExecutionTables
  import opened ExecutionProtocol
  import opened ExecutionInvariant
  import opened ExecutionTheorems

  /** Success and ignorance are recorded as what they are; every other end is a failure. */
  lemma ImageIsExact(s: RunState)
    requires Terminal(s)
    ensures Image(s) == OutcomeSucceeded <==> s == Succeeded
    ensures Image(s) == OutcomeUnknown <==> s == Unknown
    ensures Image(s) == OutcomeFailed <==> s == Failed || s == TimedOut || s == Cancelled
  {
  }

  predicate Matches(w: World, e: Id, outcome: Outcome) {
    e in w.tables.runs ==> Terminal(w.tables.runs[e].state) && outcome == Image(w.tables.runs[e].state)
  }

  /** What approval `id` records for run `e` is what the run's row says. */
  predicate RecordAgrees(w: World, e: Id, id: Id) {
    id in w.tables.approvals && w.tables.approvals[id].execId == Some(e) ==>
      && e in w.execs
      && (w.tables.approvals[id].outcome.Some? ==> Matches(w, e, w.tables.approvals[id].outcome.value))
  }

  /** What the worker of run `e` is about to report is what the run's row says. */
  predicate ReportAgrees(w: World, e: Id) {
    e in w.workers && w.workers[e].pc.Reporting? ==> Matches(w, e, w.workers[e].pc.outcome)
  }

  /** The row holds a result somebody knows. */
  predicate KnownEnd(w: World, e: Id) {
    e in w.tables.runs && Terminal(w.tables.runs[e].state) && w.tables.runs[e].state != Unknown
  }

  /**
   The worker of run `e` settles for a result the row does not hold: after a Finish that errored or was refused,
   the read fails, or shows a row still in flight.
   */
  predicate Loses(w: World, a: Action, e: Id) {
    && a.Work? && a.exec == e && e in w.workers && w.workers[e].pc.Unconfirmed?
    && e in w.tables.runs && !KnownEnd(w, e)
    && (a.ws.ReadFails? || (a.ws.ReadVerdict? && w.tables.runs[e].state != Unknown))
  }

  lemma WorkKeepsReport(w: World, exec: Id, s: WorkerStep, e: Id)
    requires WorkEnabled(w, exec, s) && !Loses(w, Work(exec, s), e) && ReportAgrees(w, e) && WorkerSound(w, exec)
    ensures ReportAgrees(ApplyWork(w, exec, s), e)
  {
    WorkAdvancesRun(w, exec, s, e);
  }

  lemma ReportKeepsRecord(w: World, exec: Id, outcome: Outcome, e: Id, id: Id)
    requires WorkerAt(w, exec) && WorkerSound(w, exec) && RecordAgrees(w, e, id)
    requires exec == e && e in w.tables.runs ==> Matches(w, e, outcome)
    ensures RecordAgrees(DoReport(w, exec, outcome), e, id)
  {
  }

  lemma WorkKeepsRecord(w: World, exec: Id, s: WorkerStep, e: Id, id: Id)
    requires WorkEnabled(w, exec, s) && ReportAgrees(w, e) && RecordAgrees(w, e, id) && WorkerSound(w, exec)
    ensures RecordAgrees(ApplyWork(w, exec, s), e, id)
  {
    match s
    case ReportOutcome => ReportKeepsRecord(w, exec, w.workers[exec].pc.outcome, e, id);
    case ReportNative(outcome) => ReportKeepsRecord(w, exec, outcome, e, id);
    case _ =>
      OtherWorkLeavesApprovals(w, exec, s);
      WorkAdvancesRun(w, exec, s, e);
  }

  lemma CleanKeepsAgreement(w: World, c: Id, s: CleanerStep, e: Id, id: Id)
    requires CleanEnabled(w, c, s) && ReportAgrees(w, e) && RecordAgrees(w, e, id)
    requires CleanerSound(w, c) && RunSound(w, w.cleaners[c].exec)
    ensures ReportAgrees(ApplyClean(w, c, s), e) && RecordAgrees(ApplyClean(w, c, s), e, id)
  {
    CleanAdvancesRun(w, c, s, e);
  }

  lemma OtherKeepsReport(w: World, a: Action, e: Id)
    requires Enabled(w, a) && !a.Work? && !a.Clean? && ReportAgrees(w, e) && RunSound(w, e) && WorkerSound(w, e)
    ensures ReportAgrees(Apply(w, a), e)
  {
    OtherAdvancesRun(w, a, e);
  }

  lemma OtherKeepsRecord(w: World, a: Action, e: Id, id: Id)
    requires Enabled(w, a) && !a.Work? && !a.Clean? && RecordAgrees(w, e, id) && RunSound(w, e)
    requires id in w.tables.approvals ==> ApprovalFits(w.tables.approvals[id])
    ensures RecordAgrees(Apply(w, a), e, id)
  {
    OtherAdvancesRun(w, a, e);
  }

  /**
   Unless the worker of run `e` settles for a result the row does not hold, whatever outcome an approval records
   for `e` is the image of the terminal state `e` is in, whoever wrote which first.
   */
  lemma {:induction false} OutcomeIsImageOfState(ws: seq<World>, acts: seq<Action>, n: nat, e: Id, id: Id)
    requires IsRun(ws, acts) && n < |ws|
    requires forall i :: 0 <= i < n ==> !Loses(ws[i], acts[i], e)
    ensures RecordAgrees(ws[n], e, id) && ReportAgrees(ws[n], e)
  {
    if n > 0 {
      OutcomeIsImageOfState(ws, acts, n - 1, e, id);
      InvReachable(ws, acts, n - 1);
      var w := ws[n - 1];
      assert Sound(w, e) && Sound(w, id);
      var a := acts[n - 1];
      if a.Work? {
        assert Sound(w, a.exec);
        WorkKeepsReport(w, a.exec, a.ws, e);
        WorkKeepsRecord(w, a.exec, a.ws, e, id);
      } else if a.Clean? {
        assert Sound(w, a.claim) && Sound(w, w.cleaners[a.claim].exec);
        CleanKeepsAgreement(w, a.claim, a.cs, e, id);
      } else {
        OtherKeepsReport(w, a, e);
        OtherKeepsRecord(w, a, e, id);
      }
    }
  }

  // ---------- when the result is lost ----------

  /** No result of run `e` will ever be known: its worker is past Finish and its row is not in a known end state. */
  predicate ResultLost(w: World, e: Id) {
    && e in w.tables.runs && e in w.execs && !KnownEnd(w, e)
    && (e in w.workers ==> w.workers[e].pc.Reporting?)
  }

  lemma WorkKeepsLoss(w: World, exec: Id, s: WorkerStep, e: Id)
    requires WorkEnabled(w, exec, s) && ResultLost(w, e)
    ensures ResultLost(ApplyWork(w, exec, s), e)
    ensures e in w.workers && e in ApplyWork(w, exec, s).workers ==> ApplyWork(w, exec, s).workers[e] == w.workers[e]
    ensures e !in w.workers ==> e !in ApplyWork(w, exec, s).workers
  {
  }

  lemma CleanKeepsLoss(w: World, c: Id, s: CleanerStep, e: Id)
    requires CleanEnabled(w, c, s) && ResultLost(w, e)
    ensures ResultLost(ApplyClean(w, c, s), e) && ApplyClean(w, c, s).workers == w.workers
  {
  }

  lemma OtherKeepsLoss(w: World, a: Action, e: Id)
    requires Enabled(w, a) && !a.Work? && !a.Clean? && ResultLost(w, e)
    ensures ResultLost(Apply(w, a), e)
    ensures (e in Apply(w, a).workers <==> e in w.workers) && (e in w.workers ==> Apply(w, a).workers[e] == w.workers[e])
  {
  }

  lemma LossKept(w: World, a: Action, e: Id)
    requires Enabled(w, a) && ResultLost(w, e)
    ensures ResultLost(Apply(w, a), e)
    ensures e in Apply(w, a).workers ==> e in w.workers && Apply(w, a).workers[e] == w.workers[e]
  {
    if a.Work? { WorkKeepsLoss(w, a.exec, a.ws, e); }
    else if a.Clean? { CleanKeepsLoss(w, a.claim, a.cs, e); }
    else { OtherKeepsLoss(w, a, e); }
  }

  /** After such a report the row never gets a known end, and the worker has nothing else to say. */
  lemma {:induction false} LostForever(ws: seq<World>, acts: seq<Action>, i: nat, n: nat, e: Id)
    requires IsRun(ws, acts) && i < n < |ws| && Loses(ws[i], acts[i], e)
    ensures ResultLost(ws[n], e)
    ensures e in ws[n].workers ==> ws[n].workers[e].pc == Reporting(Image(ws[i].workers[e].pc.result))
    decreases n
  {
    if n == i + 1 {
      InvReachable(ws, acts, i);
      assert Sound(ws[i], e);
    } else {
      LostForever(ws, acts, i, n - 1, e);
      LossKept(ws[n - 1], acts[n - 1], e);
    }
  }

  lemma LostOnce(ws: seq<World>, acts: seq<Action>, i: nat, j: nat, e: Id)
    requires IsRun(ws, acts) && i < |acts| && j < i && Loses(ws[i], acts[i], e)
    ensures !Loses(ws[j], acts[j], e)
  {
    if Loses(ws[j], acts[j], e) { LostForever(ws, acts, j, i, e); }
  }

  // ---------- who writes the outcome ----------

  predicate Writes(w: World, w': World, id: Id) {
    && id in w'.tables.approvals && w'.tables.approvals[id].outcome.Some?
    && (id in w.tables.approvals ==> w.tables.approvals[id].outcome == None)
  }

  /** Among the first `n` actions a cleaner wrote the outcome of approval `id`. */
  ghost predicate CleanerWrote(ws: seq<World>, acts: seq<Action>, n: nat, id: Id)
    requires IsRun(ws, acts) && n < |ws|
  {
    exists m :: 0 <= m < n && acts[m].Clean? && Writes(ws[m], ws[m + 1], id)
  }

  lemma CleanerWroteNext(ws: seq<World>, acts: seq<Action>, n: nat, id: Id)
    requires IsRun(ws, acts) && n < |acts|
    ensures CleanerWrote(ws, acts, n + 1, id) <==>
              CleanerWrote(ws, acts, n, id) || (acts[n].Clean? && Writes(ws[n], ws[n + 1], id))
  {
    if CleanerWrote(ws, acts, n, id) {
      var m :| 0 <= m < n && acts[m].Clean? && Writes(ws[m], ws[m + 1], id);
    }
  }

  lemma WrittenStays(ws: seq<World>, acts: seq<Action>, n: nat, id: Id)
    requires IsRun(ws, acts) && n < |ws| && CleanerWrote(ws, acts, n, id)
    ensures id in ws[n].tables.approvals && ws[n].tables.approvals[id].outcome.Some?
  {
    var m :| 0 <= m < n && acts[m].Clean? && Writes(ws[m], ws[m + 1], id);
    RowsOnlyAdvance(ws, acts, m + 1, n, id);
  }

  lemma WorkWrites(w: World, exec: Id, s: WorkerStep, id: Id)
    requires WorkEnabled(w, exec, s) && Writes(w, ApplyWork(w, exec, s), id)
    ensures s.ReportOutcome? || s.ReportNative?
    ensures var w' := ApplyWork(w, exec, s);
            exec !in w'.workers && w'.tables.approvals[id].execId == Some(exec)
            && (s.ReportOutcome? ==> w'.tables.approvals[id].outcome == Some(w.workers[exec].pc.outcome))
  {
    if !s.ReportOutcome? && !s.ReportNative? { OtherWorkLeavesApprovals(w, exec, s); }
  }

  lemma CleanWrites(w: World, c: Id, s: CleanerStep, id: Id)
    requires CleanEnabled(w, c, s) && Writes(w, ApplyClean(w, c, s), id) && CleanerSound(w, c)
    ensures var w' := ApplyClean(w, c, s);
            var e := w.cleaners[c].exec;
            e in w.tables.runs && w'.tables.approvals[id].execId == Some(e)
            && w'.tables.approvals[id].outcome == Some(Image(w.tables.runs[e].state))
  {
  }

  lemma OthersNeverWrite(w: World, a: Action, id: Id)
    requires Enabled(w, a) && !a.Work? && !a.Clean?
    ensures !Writes(w, Apply(w, a), id)
  {
  }

  lemma WorkStaysUnreported(w: World, exec: Id, s: WorkerStep, e: Id)
    requires WorkEnabled(w, exec, s) && e in ApplyWork(w, exec, s).workers && !ApplyWork(w, exec, s).workers[e].pc.Reporting?
    ensures e in w.workers && !w.workers[e].pc.Reporting?
  {
  }

  lemma CleanLeavesWorkers(w: World, c: Id, s: CleanerStep)
    requires CleanEnabled(w, c, s)
    ensures ApplyClean(w, c, s).workers == w.workers
  {
  }

  lemma OtherLeavesWorker(w: World, a: Action, e: Id)
    requires Enabled(w, a) && !a.Work? && !a.Clean? && e in w.execs && e in Apply(w, a).workers
    ensures e in w.workers && Apply(w, a).workers[e] == w.workers[e]
  {
  }

  lemma StaysUnreported(w: World, a: Action, e: Id)
    requires Enabled(w, a) && e in w.execs && e in Apply(w, a).workers && !Apply(w, a).workers[e].pc.Reporting?
    ensures e in w.workers && !w.workers[e].pc.Reporting?
  {
    if a.Work? { WorkStaysUnreported(w, a.exec, a.ws, e); }
    else if a.Clean? { CleanLeavesWorkers(w, a.claim, a.cs); }
    else { OtherLeavesWorker(w, a, e); }
  }

  /** An outcome recorded for `e` while its worker has not reported was written by a cleaner. */
  lemma {:induction false} UnreportedMeansCleaner(ws: seq<World>, acts: seq<Action>, n: nat, e: Id, id: Id)
    requires IsRun(ws, acts) && n < |ws| && (forall j :: 0 <= j < n ==> !Loses(ws[j], acts[j], e))
    requires e in ws[n].workers && !ws[n].workers[e].pc.Reporting?
    requires id in ws[n].tables.approvals && ws[n].tables.approvals[id].execId == Some(e)
    requires ws[n].tables.approvals[id].outcome.Some?
    ensures CleanerWrote(ws, acts, n, id)
  {
    if n > 0 {
      var w, a := ws[n - 1], acts[n - 1];
      InvReachable(ws, acts, n - 1);
      assert Sound(w, id) && Sound(w, e);
      CleanerWroteNext(ws, acts, n - 1, id);
      if Writes(w, ws[n], id) {
        if a.Work? { WorkWrites(w, a.exec, a.ws, id); }
        else if !a.Clean? { OthersNeverWrite(w, a, id); }
      } else {
        StepAdvances(w, a, id);
        OutcomeIsImageOfState(ws, acts, n - 1, e, id);
        StaysUnreported(w, a, e);
        UnreportedMeansCleaner(ws, acts, n - 1, e, id);
      }
    }
  }

  /** What approval `id` records for `e` once the worker settled for `result`. */
  predicate Told(w: World, e: Id, id: Id, result: Ending, cleaner: bool) {
    id in w.tables.approvals && w.tables.approvals[id].execId == Some(e) && w.tables.approvals[id].outcome.Some? ==>
      w.tables.approvals[id].outcome == Some(if cleaner then OutcomeUnknown else Image(result))
  }

  lemma ToldNext(ws: seq<World>, acts: seq<Action>, n: nat, e: Id, id: Id, result: Ending)
    requires IsRun(ws, acts) && n < |acts| && ResultLost(ws[n], e) && Told(ws[n], e, id, result, CleanerWrote(ws, acts, n, id))
    requires e in ws[n].workers ==> ws[n].workers[e].pc == Reporting(Image(result))
    ensures Told(ws[n + 1], e, id, result, CleanerWrote(ws, acts, n + 1, id))
  {
    var w, a := ws[n], acts[n];
    InvReachable(ws, acts, n);
    assert Sound(w, id) && Sound(w, e);
    CleanerWroteNext(ws, acts, n, id);
    if CleanerWrote(ws, acts, n, id) { WrittenStays(ws, acts, n, id); }
    if Writes(w, ws[n + 1], id) {
      if a.Work? {
        WorkWrites(w, a.exec, a.ws, id);
      } else if a.Clean? {
        assert Sound(w, a.claim);
        CleanWrites(w, a.claim, a.cs, id);
      } else {
        OthersNeverWrite(w, a, id);
      }
    } else {
      StepAdvances(w, a, id);
    }
  }

  lemma ToldFirst(ws: seq<World>, acts: seq<Action>, i: nat, e: Id, id: Id)
    requires IsRun(ws, acts) && i < |acts| && Loses(ws[i], acts[i], e)
    ensures Told(ws[i], e, id, ws[i].workers[e].pc.result, CleanerWrote(ws, acts, i, id))
  {
    forall j | 0 <= j < i ensures !Loses(ws[j], acts[j], e) { LostOnce(ws, acts, i, j, e); }
    OutcomeIsImageOfState(ws, acts, i, e, id);
    if id in ws[i].tables.approvals && ws[i].tables.approvals[id].execId == Some(e) && ws[i].tables.approvals[id].outcome.Some? {
      UnreportedMeansCleaner(ws, acts, i, e, id);
    }
  }

  lemma LossLeavesTables(w: World, a: Action, e: Id)
    requires Enabled(w, a) && Loses(w, a, e)
    ensures Apply(w, a).tables == w.tables
  {
  }

  lemma {:induction false} ToldForever(ws: seq<World>, acts: seq<Action>, i: nat, n: nat, e: Id, id: Id)
    requires IsRun(ws, acts) && i < n < |ws| && Loses(ws[i], acts[i], e)
    ensures Told(ws[n], e, id, ws[i].workers[e].pc.result, CleanerWrote(ws, acts, n, id))
    decreases n
  {
    if n == i + 1 {
      ToldFirst(ws, acts, i, e, id);
      CleanerWroteNext(ws, acts, i, id);
      LossLeavesTables(ws[i], acts[i], e);
    } else {
      ToldForever(ws, acts, i, n - 1, e, id);
      LostForever(ws, acts, i, n - 1, e);
      ToldNext(ws, acts, n - 1, e, id, ws[i].workers[e].pc.result);
    }
  }

  /**
   After the worker settled for a result the row does not hold, the recorded outcome and the ended row agree in
   two cases only: the result was "unknown" itself, or a cleaner wrote the outcome before the worker did.
   */
  lemma LostResultAgreesIff(ws: seq<World>, acts: seq<Action>, i: nat, n: nat, e: Id, id: Id)
    requires IsRun(ws, acts) && i < n < |ws| && Loses(ws[i], acts[i], e)
    requires id in ws[n].tables.approvals && ws[n].tables.approvals[id].execId == Some(e)
    requires ws[n].tables.approvals[id].outcome.Some?
    ensures e in ws[n].tables.runs
    ensures RecordAgrees(ws[n], e, id) <==>
              Terminal(ws[n].tables.runs[e].state)
              && (ws[i].workers[e].pc.result == Unknown || CleanerWrote(ws, acts, n, id))
  {
    LostForever(ws, acts, i, n, e);
    ToldForever(ws, acts, i, n, e, id);
  }
}
