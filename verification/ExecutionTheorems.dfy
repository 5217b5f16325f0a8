/** What the execution protocol promises, over every run of the system. */
module ExecutionTheorems {
  import opened Base
  import opened ExecutionTables
  import opened ExecutionProtocol
  import opened ExecutionInvariant

  // ---------- rows only move forward ----------

  /** prepared, running, then one terminal state for good. */
  predicate StateAdvances(s: RunState, s': RunState) {
    s == s' || s == Prepared || (s == Running && Terminal(s'))
  }

  predicate RunAdvances(r: Run, r': Run) {
    && r'.session == r.session && r'.agent == r.agent && r'.profile == r.profile
    && r'.authority == r.authority && r'.owner == r.owner && r'.createdMs == r.createdMs
    && (r.containerId.Some? ==> r'.containerId == r.containerId)
    && StateAdvances(r.state, r'.state)
  }

  predicate ApprovalStateAdvances(s: ApprovalState, s': ApprovalState) {
    s == s' || (s == Pending && s' != Pending) || (s == Approved && (s' == Consumed || s' == Abandoned))
  }

  predicate ApprovalAdvances(a: Approval, a': Approval) {
    && a'.session == a.session && a'.agent == a.agent && a'.call == a.call && a'.request == a.request
    && a'.configHash == a.configHash && a'.createdMs == a.createdMs && a'.expiresMs == a.expiresMs
    && ApprovalStateAdvances(a.state, a'.state)
    && (a.execId.Some? ==> a'.execId == a.execId)
    && (a.outcome.Some? ==> a'.outcome == a.outcome)
  }

  predicate RunRowAdvances(t: Tables, t': Tables, k: Id) {
    k in t.runs ==> k in t'.runs && RunAdvances(t.runs[k], t'.runs[k])
  }

  predicate ApprovalRowAdvances(t: Tables, t': Tables, k: Id) {
    k in t.approvals ==> k in t'.approvals && ApprovalAdvances(t.approvals[k], t'.approvals[k])
  }

  predicate WritesRun(s: WorkerStep) { s.RecordContainer? || s.BeginStart? || s.FinishWork? || s.FinishErrs? }

  lemma WriteAdvancesRun(w: World, exec: Id, s: WorkerStep, k: Id)
    requires WorkEnabled(w, exec, s) && WritesRun(s)
    ensures RunRowAdvances(w.tables, ApplyWork(w, exec, s).tables, k)
  {
  }

  lemma OtherWorkLeavesRuns(w: World, exec: Id, s: WorkerStep)
    requires WorkEnabled(w, exec, s) && !WritesRun(s)
    ensures ApplyWork(w, exec, s).tables.runs == w.tables.runs
  {
  }

  lemma WorkAdvancesRun(w: World, exec: Id, s: WorkerStep, k: Id)
    requires WorkEnabled(w, exec, s)
    ensures RunRowAdvances(w.tables, ApplyWork(w, exec, s).tables, k)
  {
    if WritesRun(s) { WriteAdvancesRun(w, exec, s, k); } else { OtherWorkLeavesRuns(w, exec, s); }
  }

  lemma ReportAdvancesApproval(w: World, exec: Id, outcome: Outcome, k: Id)
    requires WorkerAt(w, exec)
    ensures ApprovalRowAdvances(w.tables, DoReport(w, exec, outcome).tables, k)
  {
  }

  lemma OtherWorkLeavesApprovals(w: World, exec: Id, s: WorkerStep)
    requires WorkEnabled(w, exec, s) && !s.ReportOutcome? && !s.ReportNative?
    ensures ApplyWork(w, exec, s).tables.approvals == w.tables.approvals
  {
  }

  lemma WorkAdvancesApproval(w: World, exec: Id, s: WorkerStep, k: Id)
    requires WorkEnabled(w, exec, s)
    ensures ApprovalRowAdvances(w.tables, ApplyWork(w, exec, s).tables, k)
  {
    match s
    case ReportOutcome => ReportAdvancesApproval(w, exec, w.workers[exec].pc.outcome, k);
    case ReportNative(outcome) => ReportAdvancesApproval(w, exec, outcome, k);
    case _ => OtherWorkLeavesApprovals(w, exec, s);
  }

  lemma CleanAdvancesRun(w: World, c: Id, s: CleanerStep, k: Id)
    requires CleanEnabled(w, c, s) && CleanerSound(w, c)
    ensures RunRowAdvances(w.tables, ApplyClean(w, c, s).tables, k)
  {
  }

  lemma EvidenceAdvancesApproval(w: World, c: Id, k: Id)
    requires CleanEnabled(w, c, RecordEvidence) && CleanerSound(w, c) && RunSound(w, w.cleaners[c].exec)
    ensures ApprovalRowAdvances(w.tables, DoRecordEvidence(w, c).tables, k)
  {
  }

  lemma CleanAdvancesApproval(w: World, c: Id, s: CleanerStep, k: Id)
    requires CleanEnabled(w, c, s) && CleanerSound(w, c) && RunSound(w, w.cleaners[c].exec)
    ensures ApprovalRowAdvances(w.tables, ApplyClean(w, c, s).tables, k)
  {
    if s.RecordEvidence? { EvidenceAdvancesApproval(w, c, k); }
    else { assert ApplyClean(w, c, s).tables.approvals == w.tables.approvals; }
  }

  lemma OtherAdvancesRun(w: World, a: Action, k: Id)
    requires Enabled(w, a) && !a.Work? && !a.Clean? && RunSound(w, k)
    ensures RunRowAdvances(w.tables, Apply(w, a).tables, k)
  {
  }

  lemma BeginAdvancesApproval(w: World, a: Action, k: Id)
    requires Enabled(w, a) && (a.BeginApproved? || a.BeginNative?)
    requires k in w.tables.approvals ==> ApprovalFits(w.tables.approvals[k])
    ensures ApprovalRowAdvances(w.tables, Apply(w, a).tables, k)
  {
  }

  lemma OtherAdvancesApproval(w: World, a: Action, k: Id)
    requires Enabled(w, a) && !a.Work? && !a.Clean? && !a.BeginApproved? && !a.BeginNative?
    requires k in w.tables.approvals ==> ApprovalFits(w.tables.approvals[k])
    ensures ApprovalRowAdvances(w.tables, Apply(w, a).tables, k)
  {
    if !a.CreateApproval? && !a.ResolveApproval? && !a.AbandonApproval? {
      assert Apply(w, a).tables.approvals == w.tables.approvals;
    }
  }

  /** No action takes anything back. */
  lemma StepAdvances(w: World, a: Action, k: Id)
    requires Inv(w) && Enabled(w, a)
    ensures RunRowAdvances(w.tables, Apply(w, a).tables, k)
    ensures ApprovalRowAdvances(w.tables, Apply(w, a).tables, k)
  {
    assert Sound(w, k);
    if a.Work? {
      WorkAdvancesRun(w, a.exec, a.ws, k);
      WorkAdvancesApproval(w, a.exec, a.ws, k);
    } else if a.Clean? {
      assert Sound(w, a.claim) && Sound(w, w.cleaners[a.claim].exec);
      CleanAdvancesRun(w, a.claim, a.cs, k);
      CleanAdvancesApproval(w, a.claim, a.cs, k);
    } else {
      OtherAdvancesRun(w, a, k);
      if a.BeginApproved? || a.BeginNative? { BeginAdvancesApproval(w, a, k); } else { OtherAdvancesApproval(w, a, k); }
    }
  }

  /**
   Over any run: a run row keeps its identity and its container, passes prepared, running and terminal in
   that order and never leaves a terminal state; an approval keeps its identity and terms, follows
   pending -> approved/rejected -> consumed/abandoned, and its run id and outcome are written at most once.
   */
  lemma {:induction false} RowsOnlyAdvance(ws: seq<World>, acts: seq<Action>, i: nat, j: nat, k: Id)
    requires IsRun(ws, acts) && i <= j < |ws|
    ensures RunRowAdvances(ws[i].tables, ws[j].tables, k)
    ensures ApprovalRowAdvances(ws[i].tables, ws[j].tables, k)
    decreases j
  {
    if i < j {
      RowsOnlyAdvance(ws, acts, i, j - 1, k);
      InvReachable(ws, acts, j - 1);
      StepAdvances(ws[j - 1], acts[j - 1], k);
    }
  }

  /** In a reachable world a row under cleanup, or cleaned, is terminal: no result is still to come. */
  lemma CleanupMeansTerminal(ws: seq<World>, acts: seq<Action>, i: nat, e: Id)
    requires IsRun(ws, acts) && i < |ws| && e in ws[i].tables.runs
    ensures ws[i].tables.runs[e].cleanup != CleanupPending ==> Terminal(ws[i].tables.runs[e].state)
  {
    InvReachable(ws, acts, i);
    assert Sound(ws[i], e);
  }

  // ---------- one approval, one command ----------

  predicate IsConsumed(w: World, id: Id) { id in w.tables.approvals && w.tables.approvals[id].state == Consumed }

  ghost predicate ConsumedBy(ws: seq<World>, acts: seq<Action>, i: nat, id: Id)
    requires IsRun(ws, acts) && i < |acts|
  {
    !IsConsumed(ws[i], id) && IsConsumed(ws[i + 1], id)
  }

  /** The caller a consuming action speaks for, and the clock value it read. */
  predicate ConsumesFor(a: Action, id: Id, who: Caller, at: int) {
    (a.BeginApproved? && a.id == id && a.who == who && a.at == at) || (a.BeginNative? && a.id == id && a.who == who && a.at == at)
  }

  lemma CleanNeverConsumes(w: World, c: Id, s: CleanerStep, id: Id)
    requires CleanEnabled(w, c, s) && IsConsumed(ApplyClean(w, c, s), id)
    ensures IsConsumed(w, id)
  {
  }

  lemma WorkNeverConsumes(w: World, exec: Id, s: WorkerStep, id: Id)
    requires WorkEnabled(w, exec, s) && IsConsumed(ApplyWork(w, exec, s), id)
    ensures IsConsumed(w, id)
  {
  }

  /** Consuming takes an approved, unexpired row, the exact caller, and the configuration it was created under. */
  lemma ConsumingNeedsConsent(w: World, a: Action, id: Id)
    requires Enabled(w, a) && !IsConsumed(w, id)
    ensures IsConsumed(Apply(w, a), id) ==>
              && (a.BeginApproved? || a.BeginNative?)
              && ConsumesFor(a, id, a.who, a.at) && CanConsume(w.tables, a.at, id, a.who) && a.at <= w.now
  {
    if IsConsumed(Apply(w, a), id) {
      if a.Work? { WorkNeverConsumes(w, a.exec, a.ws, id); }
      if a.Clean? { CleanNeverConsumes(w, a.claim, a.cs, id); }
    }
  }

  /** An approval is consumed at most once in any run, and then only by the caller it was given to. */
  lemma ApprovalConsumedOnce(ws: seq<World>, acts: seq<Action>, i: nat, j: nat, id: Id)
    requires IsRun(ws, acts) && i < |acts| && j < |acts|
    ensures ConsumedBy(ws, acts, i, id) && ConsumedBy(ws, acts, j, id) ==> i == j
    ensures ConsumedBy(ws, acts, i, id) ==>
              (acts[i].BeginApproved? || acts[i].BeginNative?) && CanConsume(ws[i].tables, acts[i].at, id, acts[i].who)
  {
    if ConsumedBy(ws, acts, i, id) {
      ConsumingNeedsConsent(ws[i], acts[i], id);
      if i < j { RowsOnlyAdvance(ws, acts, i + 1, j, id); }
      if j < i && ConsumedBy(ws, acts, j, id) { RowsOnlyAdvance(ws, acts, j + 1, i, id); }
    }
  }

  predicate PaidBy(w: World, e: Id, id: Id) { e in w.tables.runs && w.tables.runs[e].authority == Some(ApprovalRow(id)) }

  /** At most one run row ever names an approval, and the approval names it back. */
  lemma OneRunPerApproval(ws: seq<World>, acts: seq<Action>, i: nat, e: Id, e': Id, id: Id)
    requires IsRun(ws, acts) && i < |ws| && PaidBy(ws[i], e, id) && PaidBy(ws[i], e', id)
    ensures e == e'
    ensures IsConsumed(ws[i], id) && ws[i].tables.approvals[id].execId == Some(e)
  {
    InvReachable(ws, acts, i);
    assert Sound(ws[i], e) && Sound(ws[i], e');
  }

  /** Two entries of a history that one approval pays for. */
  predicate SameCommand(w: World, history: seq<Id>, i: nat, j: nat, id: Id) {
    i < |history| && j < |history| && PaidBy(w, history[i], id) && PaidBy(w, history[j], id)
  }

  /** The command an approval pays for passes Starting at most once, and the daemon starts it at most once. */
  lemma OneStartPerApproval(ws: seq<World>, acts: seq<Action>, n: nat, i: nat, j: nat, id: Id)
    requires IsRun(ws, acts) && n < |ws|
    ensures SameCommand(ws[n], ws[n].startings, i, j, id) ==> i == j
    ensures SameCommand(ws[n], ws[n].launches, i, j, id) ==> i == j
  {
    InvReachable(ws, acts, n);
    var w := ws[n];
    if SameCommand(w, w.startings, i, j, id) { OneRunPerApproval(ws, acts, n, w.startings[i], w.startings[j], id); }
    if SameCommand(w, w.launches, i, j, id) { OneRunPerApproval(ws, acts, n, w.launches[i], w.launches[j], id); }
  }

  /** A pending row is shown as pending exactly while a person could still approve it. */
  lemma ShownPendingIffApprovable(t: Tables, now: int, id: Id, hash: Hash)
    requires id in t.approvals
    ensures (EffectiveState(t.approvals[id], now, hash) == Stored(Pending))
              == CanResolve(t, now, id, t.approvals[id].session, true, hash)
  {
  }

  // ---------- nothing starts after cleanup ----------

  /** A run that is over: no start is possible and a container it once started is gone. */
  predicate Closed(w: World, e: Id) {
    && e in w.tables.runs
    && Terminal(w.tables.runs[e].state)
    && (Started(w, e) ==> w.tables.runs[e].containerId.Some? && ContainerGone(w, w.tables.runs[e]))
  }

  predicate SameStarts(w: World, w': World, e: Id) {
    && (e in w'.startings <==> e in w.startings)
    && (e in w'.launches <==> e in w.launches)
  }

  lemma WriteKeepsClosed(w: World, exec: Id, s: WorkerStep, e: Id)
    requires WorkEnabled(w, exec, s) && WritesRun(s) && RunSound(w, e) && Closed(w, e)
    ensures Closed(ApplyWork(w, exec, s), e) && SameStarts(w, ApplyWork(w, exec, s), e)
  {
  }

  lemma OtherWorkKeepsClosed(w: World, exec: Id, s: WorkerStep, e: Id)
    requires WorkEnabled(w, exec, s) && !WritesRun(s) && RunSound(w, e) && Closed(w, e)
    ensures Closed(ApplyWork(w, exec, s), e) && SameStarts(w, ApplyWork(w, exec, s), e)
  {
    OtherWorkLeavesRuns(w, exec, s);
  }

  lemma WorkKeepsClosed(w: World, exec: Id, s: WorkerStep, e: Id)
    requires WorkEnabled(w, exec, s) && RunSound(w, e) && Closed(w, e)
    ensures Closed(ApplyWork(w, exec, s), e) && SameStarts(w, ApplyWork(w, exec, s), e)
  {
    if WritesRun(s) { WriteKeepsClosed(w, exec, s, e); } else { OtherWorkKeepsClosed(w, exec, s, e); }
  }

  lemma CleanKeepsClosed(w: World, c: Id, s: CleanerStep, e: Id)
    requires CleanEnabled(w, c, s) && RunSound(w, e) && Closed(w, e)
    ensures Closed(ApplyClean(w, c, s), e) && SameStarts(w, ApplyClean(w, c, s), e)
  {
  }

  lemma OtherKeepsClosed(w: World, a: Action, e: Id)
    requires Enabled(w, a) && !a.Work? && !a.Clean? && RunSound(w, e) && Closed(w, e)
    ensures Closed(Apply(w, a), e) && SameStarts(w, Apply(w, a), e)
  {
  }

  lemma {:induction false} ClosedForever(ws: seq<World>, acts: seq<Action>, i: nat, j: nat, e: Id)
    requires IsRun(ws, acts) && i <= j < |ws| && Closed(ws[i], e)
    ensures Closed(ws[j], e) && SameStarts(ws[i], ws[j], e)
    decreases j
  {
    if i < j {
      ClosedForever(ws, acts, i, j - 1, e);
      InvReachable(ws, acts, j - 1);
      assert Sound(ws[j - 1], e);
      var a := acts[j - 1];
      if a.Work? { WorkKeepsClosed(ws[j - 1], a.exec, a.ws, e); }
      else if a.Clean? { CleanKeepsClosed(ws[j - 1], a.claim, a.cs, e); }
      else { OtherKeepsClosed(ws[j - 1], a, e); }
    }
  }

  /**
   Once a run is recorded cleaned, its command never starts: no Starting statement commits for it and the
   daemon starts no container of it, whatever create or start request is still on its way. A container it
   did start is gone, and stays gone.
   */
  lemma NoStartAfterCleaned(ws: seq<World>, acts: seq<Action>, i: nat, j: nat, e: Id)
    requires IsRun(ws, acts) && i <= j < |ws|
    requires e in ws[i].tables.runs && ws[i].tables.runs[e].cleanup == Cleaned
    ensures SameStarts(ws[i], ws[j], e)
    ensures e in ws[i].startings ==>
              && e in ws[j].tables.runs && ws[j].tables.runs[e].containerId.Some?
              && ws[j].tables.runs[e].containerId.value !in ws[j].live
  {
    InvReachable(ws, acts, i);
    assert Sound(ws[i], e);
    ClosedForever(ws, acts, i, j, e);
  }

  /** A container that the daemon started never outlives its private workspace. */
  lemma WorkspaceOutlivesContainer(ws: seq<World>, acts: seq<Action>, i: nat, e: Id)
    requires IsRun(ws, acts) && i < |ws| && e in ws[i].launches
    ensures e in ws[i].tables.runs && ws[i].tables.runs[e].containerId.Some?
    ensures ws[i].tables.runs[e].containerId.value in ws[i].live ==> e in ws[i].dirs
  {
    InvReachable(ws, acts, i);
    assert Sound(ws[i], e);
  }

  // ---------- claims and leases ----------

  /** At any clock value at most one cleaner of a run holds an unexpired claim, and the row names it. */
  lemma OneCleanerAtATime(ws: seq<World>, acts: seq<Action>, i: nat, c: Id, c': Id)
    requires IsRun(ws, acts) && i < |ws| && c in ws[i].cleaners && c' in ws[i].cleaners
    requires ws[i].cleaners[c].exec == ws[i].cleaners[c'].exec
    requires ws[i].now < ws[i].cleaners[c].untilMs && ws[i].now < ws[i].cleaners[c'].untilMs
    ensures c == c'
    ensures var e := ws[i].cleaners[c].exec;
            e in ws[i].tables.runs && ws[i].tables.runs[e].cleanupOwner == Some(c) && ws[i].tables.runs[e].cleanup == Cleaning
  {
    InvReachable(ws, acts, i);
    assert Sound(ws[i], c) && Sound(ws[i], c');
  }

  /** Who may change a cleanup state: a new claim on a claimable row, or the cleaner the row names. */
  predicate MayChangeCleanup(w: World, a: Action, e: Id) {
    && e in w.tables.runs
    && (|| (a.ClaimRun? && a.exec == e && Claimable(w.tables.runs[e], a.at))
        || (a.Clean? && a.cs.SettleClaim? && a.claim in w.cleaners && w.cleaners[a.claim].exec == e
            && w.tables.runs[e].cleanupOwner == Some(a.claim)))
  }

  predicate SameCleanup(t: Tables, t': Tables, e: Id) {
    e in t.runs && e in t'.runs ==> t'.runs[e].cleanup == t.runs[e].cleanup
  }

  lemma WorkLeavesCleanup(w: World, exec: Id, s: WorkerStep, e: Id)
    requires WorkEnabled(w, exec, s)
    ensures SameCleanup(w.tables, ApplyWork(w, exec, s).tables, e)
  {
  }

  lemma OnlySettlingChangesCleanup(w: World, c: Id, s: CleanerStep, e: Id)
    requires CleanEnabled(w, c, s)
    ensures SameCleanup(w.tables, ApplyClean(w, c, s).tables, e) || MayChangeCleanup(w, Clean(c, s), e)
  {
  }

  /** Cleaned and pending are written only by the current claimant; cleaning only over a free or lapsed claim. */
  lemma OnlyClaimantsChangeCleanup(w: World, a: Action, e: Id)
    requires Inv(w) && Enabled(w, a)
    ensures SameCleanup(w.tables, Apply(w, a).tables, e) || MayChangeCleanup(w, a, e)
  {
    assert Sound(w, e);
    if a.Work? { WorkLeavesCleanup(w, a.exec, a.ws, e); }
    else if a.Clean? { OnlySettlingChangesCleanup(w, a.claim, a.cs, e); }
  }
}
