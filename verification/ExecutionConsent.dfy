/** Who let a command run: what every run of the system says about consent, told by the actions themselves. */
module ExecutionConsent {
  import opened Base
  import opened ExecutionTables
  import opened ExecutionProtocol
  import opened ExecutionInvariant
  import opened ExecutionTheorems

  // ---------- decisions ----------

  /** A person says yes to a request that is pending, unexpired and was made under the configuration still loaded. */
  predicate Approves(w: World, a: Action, id: Id) {
    && a.ResolveApproval? && a.id == id && a.approve && id in w.tables.approvals
    && w.tables.approvals[id].state == Pending && w.tables.approvals[id].session == a.session
    && a.at < w.tables.approvals[id].expiresMs && w.tables.approvals[id].configHash == a.hash
  }

  /** A person says no to a request that is pending, expired or not. */
  predicate Refuses(w: World, a: Action, id: Id) {
    && a.ResolveApproval? && a.id == id && !a.approve && id in w.tables.approvals
    && w.tables.approvals[id].state == Pending && w.tables.approvals[id].session == a.session
  }

  /** A decision is written with its time and its author; any other one writes nothing. */
  lemma DecisionIsWritten(w: World, a: Action)
    requires Enabled(w, a) && a.ResolveApproval?
    ensures var w' := Apply(w, a);
            if Approves(w, a, a.id) || Refuses(w, a, a.id) then
              && w'.tables.approvals.Keys == w.tables.approvals.Keys
              && w'.tables.approvals[a.id].state == (if a.approve then ApprovalState.Approved else ApprovalState.Rejected)
              && w'.tables.approvals[a.id].resolvedMs == a.at && w'.tables.approvals[a.id].resolvedBy == a.actor
              && w'.tables.approvals[a.id].execId == w.tables.approvals[a.id].execId
              && w'.tables.approvals[a.id].outcome == w.tables.approvals[a.id].outcome
              && (forall k :: k in w.tables.approvals && k != a.id ==> w'.tables.approvals[k] == w.tables.approvals[k])
              && w'.tables.runs == w.tables.runs
            else w' == w
  {
  }

  /** What a person is shown: a pending row that is too old is expired, one under another configuration invalidated. */
  lemma ShownStateIs(row: Approval, now: int, hash: Hash)
    ensures EffectiveState(row, now, hash) == Expired <==> row.state == Pending && now >= row.expiresMs
    ensures EffectiveState(row, now, hash) == Invalidated <==> row.state == Pending && now < row.expiresMs && row.configHash != hash
    ensures EffectiveState(row, now, hash).Stored? ==> EffectiveState(row, now, hash).state == row.state
  {
  }

  /** What a caller has to match to spend an approval: every field of the request, at a time before its end. */
  predicate MaySpend(w: World, id: Id, who: Caller, at: int) {
    && id in w.tables.approvals && w.tables.approvals[id].state == Approved
    && w.tables.approvals[id].agent == who.agent && w.tables.approvals[id].session == who.session
    && w.tables.approvals[id].call == who.call && w.tables.approvals[id].request == who.request
    && w.tables.approvals[id].configHash == who.hash && at < w.tables.approvals[id].expiresMs
  }

  predicate Spends(w: World, a: Action, id: Id) {
    || (a.BeginApproved? && a.id == id && MaySpend(w, id, a.who, a.at) && a.exec !in w.tables.runs)
    || (a.BeginNative? && a.id == id && MaySpend(w, id, a.who, a.at))
  }

  /** The state of an approval after one action, from nothing but the action and the row it finds. */
  function NextState(w: World, a: Action, id: Id): ApprovalState
    requires id in w.tables.approvals
  {
    if Approves(w, a, id) then Approved
    else if Refuses(w, a, id) then ApprovalState.Rejected
    else if Spends(w, a, id) then Consumed
    else if a == AbandonApproval(id) && w.tables.approvals[id].state == Approved then Abandoned
    else w.tables.approvals[id].state
  }

  lemma WorkLeavesStates(w: World, exec: Id, s: WorkerStep, id: Id)
    requires WorkEnabled(w, exec, s) && id in w.tables.approvals
    ensures id in ApplyWork(w, exec, s).tables.approvals
    ensures ApplyWork(w, exec, s).tables.approvals[id].state == w.tables.approvals[id].state
  {
    if !s.ReportOutcome? && !s.ReportNative? { OtherWorkLeavesApprovals(w, exec, s); }
  }

  lemma CleanLeavesStates(w: World, c: Id, s: CleanerStep, id: Id)
    requires CleanEnabled(w, c, s) && id in w.tables.approvals
    ensures id in ApplyClean(w, c, s).tables.approvals
    ensures ApplyClean(w, c, s).tables.approvals[id].state == w.tables.approvals[id].state
  {
  }

  lemma DecisionState(w: World, a: Action, id: Id)
    requires Enabled(w, a) && (a.CreateApproval? || a.ResolveApproval? || a.AbandonApproval?) && id in w.tables.approvals
    ensures id in Apply(w, a).tables.approvals && Apply(w, a).tables.approvals[id].state == NextState(w, a, id)
  {
  }

  lemma SpendingState(w: World, a: Action, id: Id)
    requires Enabled(w, a) && (a.BeginApproved? || a.BeginNative?) && id in w.tables.approvals
    ensures id in Apply(w, a).tables.approvals && Apply(w, a).tables.approvals[id].state == NextState(w, a, id)
  {
  }

  lemma OtherState(w: World, a: Action, id: Id)
    requires Enabled(w, a) && id in w.tables.approvals
    requires a.Tick? || a.BeginDirect? || a.ContainerAppears? || a.ContainerStarts? || a.ClaimRun? || a.ScanAdopts?
    ensures id in Apply(w, a).tables.approvals && Apply(w, a).tables.approvals[id].state == NextState(w, a, id)
  {
  }

  /** Every change of an approval's state, and when it happens. */
  lemma StateIsNextState(w: World, a: Action, id: Id)
    requires Enabled(w, a) && id in w.tables.approvals
    ensures id in Apply(w, a).tables.approvals && Apply(w, a).tables.approvals[id].state == NextState(w, a, id)
  {
    if a.Work? { WorkLeavesStates(w, a.exec, a.ws, id); }
    else if a.Clean? { CleanLeavesStates(w, a.claim, a.cs, id); }
    else if a.CreateApproval? || a.ResolveApproval? || a.AbandonApproval? { DecisionState(w, a, id); }
    else if a.BeginApproved? || a.BeginNative? { SpendingState(w, a, id); }
    else { OtherState(w, a, id); }
  }

  /** A request starts out pending, with the terms of its caller and ten minutes to live. */
  lemma NewRowsArePending(w: World, a: Action, id: Id)
    requires Enabled(w, a) && id !in w.tables.approvals && id in Apply(w, a).tables.approvals
    ensures a.CreateApproval? && a.id == id
    ensures var row := Apply(w, a).tables.approvals[id];
            && row.state == Pending && row.execId == None && row.outcome == None && row.resolvedMs == 0 && row.resolvedBy == ""
            && row.agent == a.who.agent && row.session == a.who.session && row.call == a.who.call
            && row.request == a.who.request && row.configHash == a.who.hash
            && row.createdMs == a.at && row.expiresMs == a.at + 10 * 60 * 1000
  {
    if a.Work? { OldWorkRows(w, a.exec, a.ws); }
    else if a.Clean? { OldCleanRows(w, a.claim, a.cs); }
  }

  lemma OldWorkRows(w: World, exec: Id, s: WorkerStep)
    requires WorkEnabled(w, exec, s)
    ensures ApplyWork(w, exec, s).tables.approvals.Keys == w.tables.approvals.Keys
  {
    if !s.ReportOutcome? && !s.ReportNative? { OtherWorkLeavesApprovals(w, exec, s); }
  }

  lemma OldCleanRows(w: World, c: Id, s: CleanerStep)
    requires CleanEnabled(w, c, s)
    ensures ApplyClean(w, c, s).tables.approvals.Keys == w.tables.approvals.Keys
  {
  }

  // ---------- over every run ----------

  ghost predicate WasApproved(ws: seq<World>, acts: seq<Action>, n: nat, id: Id)
    requires IsRun(ws, acts) && n < |ws|
  {
    exists i :: 0 <= i < n && Approves(ws[i], acts[i], id)
  }

  ghost predicate WasRefused(ws: seq<World>, acts: seq<Action>, n: nat, id: Id)
    requires IsRun(ws, acts) && n < |ws|
  {
    exists i :: 0 <= i < n && Refuses(ws[i], acts[i], id)
  }

  predicate Granted(s: ApprovalState) { s == Approved || s == Consumed || s == Abandoned }

  /**
   An approval was granted, and may be spent, abandoned or unused by now, exactly when a person said yes while it was
   pending, unexpired and under its configuration. It is rejected exactly when a person said no while it was pending.
   */
  lemma {:induction false} DecidedByAPerson(ws: seq<World>, acts: seq<Action>, n: nat, id: Id)
    requires IsRun(ws, acts) && n < |ws| && id in ws[n].tables.approvals
    ensures Granted(ws[n].tables.approvals[id].state) <==> WasApproved(ws, acts, n, id)
    ensures ws[n].tables.approvals[id].state == ApprovalState.Rejected <==> WasRefused(ws, acts, n, id)
  {
    if n > 0 {
      var w, a := ws[n - 1], acts[n - 1];
      if id in w.tables.approvals {
        DecidedByAPerson(ws, acts, n - 1, id);
        StateIsNextState(w, a, id);
        DecidedNext(ws, acts, n - 1, id);
      } else {
        NewRowsArePending(w, a, id);
        NeverBefore(ws, acts, n, id);
      }
    }
  }

  lemma DecidedNext(ws: seq<World>, acts: seq<Action>, n: nat, id: Id)
    requires IsRun(ws, acts) && n < |acts|
    ensures WasApproved(ws, acts, n + 1, id) <==> WasApproved(ws, acts, n, id) || Approves(ws[n], acts[n], id)
    ensures WasRefused(ws, acts, n + 1, id) <==> WasRefused(ws, acts, n, id) || Refuses(ws[n], acts[n], id)
  {
    if WasApproved(ws, acts, n, id) { var i :| 0 <= i < n && Approves(ws[i], acts[i], id); }
    if WasRefused(ws, acts, n, id) { var i :| 0 <= i < n && Refuses(ws[i], acts[i], id); }
  }

  lemma NeverBefore(ws: seq<World>, acts: seq<Action>, n: nat, id: Id)
    requires IsRun(ws, acts) && 0 < n < |ws| && id !in ws[n - 1].tables.approvals
    ensures !WasApproved(ws, acts, n, id) && !WasRefused(ws, acts, n, id)
  {
    forall i | 0 <= i < n && id in ws[i].tables.approvals ensures false { RowsOnlyAdvance(ws, acts, i, n - 1, id); }
  }

  /** A refused request never lets anything run. */
  lemma RefusedIsNeverSpent(ws: seq<World>, acts: seq<Action>, i: nat, n: nat, id: Id)
    requires IsRun(ws, acts) && i < n < |acts| && Refuses(ws[i], acts[i], id)
    ensures !Spends(ws[n], acts[n], id) && !Approves(ws[n], acts[n], id)
    ensures id in ws[n].tables.approvals && ws[n].tables.approvals[id].state == ApprovalState.Rejected
  {
    RowsOnlyAdvance(ws, acts, i, n, id);
    DecidedByAPerson(ws, acts, n, id);
  }

  /**
   Every command that an approval pays for was asked for and allowed: before its run was begun a person had approved
   exactly this agent, session, call and request, under the configuration that was loaded when it was asked for,
   decided on and run, and the ten minutes were not over at either time.
   */
  lemma NoRunWithoutConsent(ws: seq<World>, acts: seq<Action>, n: nat, id: Id) returns (i: nat)
    requires IsRun(ws, acts) && n < |acts| && Spends(ws[n], acts[n], id)
    ensures i < n && Approves(ws[i], acts[i], id)
    ensures var asked := ws[i].tables.approvals[id];
            && asked.agent == acts[n].who.agent && asked.session == acts[n].who.session == acts[i].session
            && asked.call == acts[n].who.call && asked.request == acts[n].who.request
            && asked.configHash == acts[n].who.hash == acts[i].hash
            && acts[i].at < asked.expiresMs && acts[n].at < asked.expiresMs
  {
    DecidedByAPerson(ws, acts, n, id);
    i :| 0 <= i < n && Approves(ws[i], acts[i], id);
    RowsOnlyAdvance(ws, acts, i, n, id);
  }

  // ---------- what spending writes ----------

  /** The transaction takes a run only for its own approval and caller, and either writes both tables or neither. */
  lemma ConsumeIs(t: Tables, now: int, id: Id, c: Caller, exec: Id, run: Run)
    ensures
      var (after, ok) := Consume(t, now, id, c, exec, run);
      && (ok <==> CanConsume(t, now, id, c) && exec !in t.runs
                  && run.authority == Some(ApprovalRow(id)) && run.agent == c.agent && run.session == c.session
                  && run.profile == c.request.profile)
      && (ok ==> after.runs == t.runs[exec := run] && id in after.approvals && after.approvals[id].execId == Some(exec)
                 && after.approvals.Keys == t.approvals.Keys && forall k :: k in t.approvals && k != id ==> after.approvals[k] == t.approvals[k])
      && (!ok ==> after == t)
  {
  }

  /** One transaction: the approval is spent, and the run it pays for is there, prepared and linked to it. */
  lemma SpendingBeginsTheRun(w: World, a: Action)
    requires Enabled(w, a) && a.BeginApproved?
    ensures var w' := Apply(w, a);
            if Spends(w, a, a.id) then
              && w'.tables.approvals[a.id].state == Consumed && w'.tables.approvals[a.id].execId == Some(a.exec)
              && w'.tables.approvals[a.id].outcome == w.tables.approvals[a.id].outcome
              && a.exec in w'.tables.runs && w'.tables.runs[a.exec].authority == Some(ApprovalRow(a.id))
              && w'.tables.runs[a.exec].session == a.who.session && w'.tables.runs[a.exec].agent == a.who.agent
              && w'.tables.runs[a.exec].profile == a.who.request.profile && w'.tables.runs[a.exec].owner == a.owner
              && w'.tables.runs[a.exec].state == Prepared && w'.tables.runs[a.exec].cleanup == CleanupPending
              && w'.tables.runs[a.exec].containerId == None && w'.tables.runs[a.exec].endedMs == 0
              && w'.tables.runs[a.exec].cleanupOwner == None
              && w'.tables.runs[a.exec].deadlineMs == a.preparedAt + a.timeoutMs + 30 * 1000
              && a.exec in w'.workers && w'.workers[a.exec] == Worker(a.owner, Some(a.id), Ready)
            else w'.tables == w.tables && w'.workers == w.workers
  {
  }
}
