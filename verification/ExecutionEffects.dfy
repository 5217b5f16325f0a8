/**
 What each step does to each field, told from the step and what it finds, one field at a time: the row of a run, the
 evidence of an approval, the daemon, the directory and the processes themselves.
 */
module ExecutionEffects {
  import opened Base
  import opened ExecutionTables
  import opened ExecutionProtocol
  import opened ExecutionTheorems

  predicate UnderWay(r: Run) { r.state == Prepared || r.state == Running }

  // ---------- the row of a run ----------

  /** The row still is as its worker inserted it, but for a container, and its time is not over. */
  predicate Startable(w: World, e: Id, at: int) {
    && e in w.tables.runs && e in w.workers && w.tables.runs[e].owner == w.workers[e].owner
    && w.tables.runs[e].state == Prepared && w.tables.runs[e].cleanup == CleanupPending && at < w.tables.runs[e].deadlineMs
  }

  /** The container that the step records for run `e`: by its worker, by the cleaner that holds it, by a scan. */
  function NewContainer(w: World, a: Action, e: Id): Option<Id>
    requires e in w.tables.runs
  {
    var r := w.tables.runs[e];
    if r.containerId.Some? then None
    else
      match a
      case Work(x, RecordContainer(at)) =>
        if x == e && Startable(w, e, at) && w.workers[e].pc.HasContainer? then Some(w.workers[e].pc.cid) else None
      case Clean(c, AdoptFound) =>
        if && c in w.cleaners && w.cleaners[c].exec == e && w.cleaners[c].owner == r.owner && w.cleaners[c].pc.Found?
           && r.cleanupOwner == Some(c)
        then Some(w.cleaners[c].pc.cid) else None
      case ScanAdopts(x, cid, seenMs) => if x == e && (!UnderWay(r) || r.deadlineMs <= seenMs) then Some(cid) else None
      case _ => None
  }

  /** The step lets the command of run `e` through. */
  predicate Begins(w: World, a: Action, e: Id) {
    a.Work? && a.exec == e && a.ws.BeginStart? && Startable(w, e, a.ws.at) && w.tables.runs[e].containerId.Some?
  }

  /** The worker of run `e` writes how it ended, whether or not it is told so. */
  predicate Ends(w: World, a: Action, e: Id) {
    && a.Work? && a.exec == e && (a.ws.FinishWork? || (a.ws.FinishErrs? && a.ws.applied))
    && e in w.tables.runs && e in w.workers && w.tables.runs[e].owner == w.workers[e].owner
    && UnderWay(w.tables.runs[e]) && w.tables.runs[e].cleanup == CleanupPending
  }

  /** A cleaner takes run `e`, which is over or out of time and nobody's, or whose holder took too long. */
  predicate Takes(w: World, a: Action, e: Id) {
    && a.ClaimRun? && a.exec == e && e in w.tables.runs
    && (!UnderWay(w.tables.runs[e]) || w.tables.runs[e].deadlineMs <= a.at)
    && (w.tables.runs[e].cleanup == Cleaning ==> w.tables.runs[e].cleanupUntilMs <= a.at)
  }

  /** The cleaner that holds run `e` writes its verdict. */
  predicate Closes(w: World, a: Action, e: Id) {
    && a.Clean? && a.cs.SettleClaim? && a.claim in w.cleaners && w.cleaners[a.claim].exec == e && w.cleaners[a.claim].pc.Settling?
    && e in w.tables.runs && w.tables.runs[e].cleanupOwner == Some(a.claim)
  }

  /** Every field of a row after one step. Its session, agent, profile, authority, owner and time of creation never change. */
  predicate RowIsNext(w: World, a: Action, e: Id, r': Run)
    requires e in w.tables.runs
  {
    var r := w.tables.runs[e];
    && r'.session == r.session && r'.agent == r.agent && r'.profile == r.profile && r'.authority == r.authority
    && r'.owner == r.owner && r'.createdMs == r.createdMs
    && r'.containerId == (if NewContainer(w, a, e).Some? then NewContainer(w, a, e) else r.containerId)
    && r'.state == (if Begins(w, a, e) then Running
                    else if Ends(w, a, e) then a.ws.result
                    else if Takes(w, a, e) && UnderWay(r) then Unknown
                    else r.state)
    && r'.deadlineMs == (if Begins(w, a, e) then a.ws.at + a.ws.timeoutMs + 30 * 1000 else r.deadlineMs)
    && r'.endedMs == (if Ends(w, a, e) then a.ws.at else if Takes(w, a, e) && r.endedMs == 0 then a.at else r.endedMs)
    && CleanupIsNext(w, a, e, r')
  }

  predicate CleanupIsNext(w: World, a: Action, e: Id, r': Run)
    requires e in w.tables.runs
  {
    var r := w.tables.runs[e];
    if Takes(w, a, e) then
      && r'.cleanup == Cleaning && r'.cleanupOwner == Some(a.claim) && r'.cleanupUntilMs == a.at + 30 * 1000
      && r'.cleanupFailed == r.cleanupFailed
    else if Closes(w, a, e) then
      && r'.cleanup == (if w.cleaners[a.claim].pc.clean then Cleaned else CleanupPending)
      && r'.cleanupFailed == !w.cleaners[a.claim].pc.clean && r'.cleanupUntilMs == 0 && r'.cleanupOwner == r.cleanupOwner
    else
      && r'.cleanup == r.cleanup && r'.cleanupOwner == r.cleanupOwner && r'.cleanupUntilMs == r.cleanupUntilMs
      && r'.cleanupFailed == r.cleanupFailed
  }

  lemma RecordedRow(w: World, exec: Id, at: int, e: Id)
    requires WorkEnabled(w, exec, RecordContainer(at)) && e in w.tables.runs
    ensures var w' := DoRecordContainer(w, exec, at);
            e in w'.tables.runs && RowIsNext(w, Work(exec, RecordContainer(at)), e, w'.tables.runs[e])
  {
  }

  lemma BegunRow(w: World, exec: Id, at: int, timeoutMs: nat, e: Id)
    requires WorkEnabled(w, exec, BeginStart(at, timeoutMs)) && e in w.tables.runs
    ensures var w' := DoBeginStart(w, exec, at, timeoutMs);
            e in w'.tables.runs && RowIsNext(w, Work(exec, BeginStart(at, timeoutMs)), e, w'.tables.runs[e])
  {
  }

  lemma FinishedRow(w: World, exec: Id, at: int, result: Ending, e: Id)
    requires WorkEnabled(w, exec, FinishWork(at, result)) && e in w.tables.runs
    ensures var w' := DoFinishWork(w, exec, at, result);
            e in w'.tables.runs && RowIsNext(w, Work(exec, FinishWork(at, result)), e, w'.tables.runs[e])
  {
  }

  lemma ErredRow(w: World, exec: Id, at: int, result: Ending, applied: bool, e: Id)
    requires WorkEnabled(w, exec, FinishErrs(at, result, applied)) && e in w.tables.runs
    ensures var w' := DoFinishErrs(w, exec, at, result, applied);
            e in w'.tables.runs && RowIsNext(w, Work(exec, FinishErrs(at, result, applied)), e, w'.tables.runs[e])
  {
  }

  lemma UnwrittenRow(w: World, exec: Id, s: WorkerStep, e: Id)
    requires WorkEnabled(w, exec, s) && !WritesRun(s) && e in w.tables.runs
    ensures RowIsNext(w, Work(exec, s), e, w.tables.runs[e])
  {
  }

  lemma WorkRow(w: World, exec: Id, s: WorkerStep, e: Id)
    requires WorkEnabled(w, exec, s) && e in w.tables.runs
    ensures e in ApplyWork(w, exec, s).tables.runs && RowIsNext(w, Work(exec, s), e, ApplyWork(w, exec, s).tables.runs[e])
  {
    match s
    case RecordContainer(at) => RecordedRow(w, exec, at, e);
    case BeginStart(at, timeoutMs) => BegunRow(w, exec, at, timeoutMs, e);
    case FinishWork(at, result) => FinishedRow(w, exec, at, result, e);
    case FinishErrs(at, result, applied) => ErredRow(w, exec, at, result, applied, e);
    case _ =>
      UnwrittenRow(w, exec, s, e);
      OtherWorkLeavesRuns(w, exec, s);
  }

  lemma AdoptedRow(w: World, c: Id, e: Id)
    requires CleanEnabled(w, c, AdoptFound) && e in w.tables.runs
    ensures var w' := DoAdoptFound(w, c);
            e in w'.tables.runs && RowIsNext(w, Clean(c, AdoptFound), e, w'.tables.runs[e])
  {
  }

  lemma SettledRow(w: World, c: Id, e: Id)
    requires CleanEnabled(w, c, SettleClaim) && e in w.tables.runs
    ensures var w' := DoSettleClaim(w, c);
            e in w'.tables.runs && RowIsNext(w, Clean(c, SettleClaim), e, w'.tables.runs[e])
  {
  }

  lemma CleanRow(w: World, c: Id, s: CleanerStep, e: Id)
    requires CleanEnabled(w, c, s) && e in w.tables.runs
    ensures e in ApplyClean(w, c, s).tables.runs && RowIsNext(w, Clean(c, s), e, ApplyClean(w, c, s).tables.runs[e])
  {
    match s
    case AdoptFound => AdoptedRow(w, c, e);
    case SettleClaim => SettledRow(w, c, e);
    case _ => UncleanedRow(w, c, s, e);
  }

  lemma UncleanedRow(w: World, c: Id, s: CleanerStep, e: Id)
    requires CleanEnabled(w, c, s) && !s.AdoptFound? && !s.SettleClaim? && e in w.tables.runs
    ensures ApplyClean(w, c, s).tables.runs == w.tables.runs && RowIsNext(w, Clean(c, s), e, w.tables.runs[e])
  {
  }

  lemma ClaimedRow(w: World, a: Action, e: Id)
    requires Enabled(w, a) && a.ClaimRun? && e in w.tables.runs
    ensures e in Apply(w, a).tables.runs && RowIsNext(w, a, e, Apply(w, a).tables.runs[e])
  {
  }

  lemma ScannedRow(w: World, a: Action, e: Id)
    requires Enabled(w, a) && a.ScanAdopts? && e in w.tables.runs
    ensures e in Apply(w, a).tables.runs && RowIsNext(w, a, e, Apply(w, a).tables.runs[e])
  {
  }

  lemma OtherRow(w: World, a: Action, e: Id)
    requires Enabled(w, a) && !a.Work? && !a.Clean? && !a.ClaimRun? && !a.ScanAdopts? && e in w.tables.runs
    ensures e in Apply(w, a).tables.runs && RowIsNext(w, a, e, Apply(w, a).tables.runs[e])
  {
  }

  lemma RowIs(w: World, a: Action, e: Id)
    requires Enabled(w, a) && e in w.tables.runs
    ensures e in Apply(w, a).tables.runs && RowIsNext(w, a, e, Apply(w, a).tables.runs[e])
  {
    match a
    case Work(exec, s) => WorkRow(w, exec, s, e);
    case Clean(c, s) => CleanRow(w, c, s, e);
    case ClaimRun(_, _, _) => ClaimedRow(w, a, e);
    case ScanAdopts(_, _, _) => ScannedRow(w, a, e);
    case _ => OtherRow(w, a, e);
  }

  /** A row begins prepared and empty, for the caller that began it, with half a minute more than its timeout. */
  predicate RowBegins(r: Run, session: string, agent: string, profile: string, authority: Option<Authority>, owner: Id, at: int, timeoutMs: nat) {
    && r.session == session && r.agent == agent && r.profile == profile && r.authority == authority && r.owner == owner
    && r.createdMs == at && r.deadlineMs == at + timeoutMs + 30 * 1000 && r.state == Prepared && r.containerId == None
    && r.endedMs == 0 && r.cleanup == CleanupPending && r.cleanupOwner == None && r.cleanupUntilMs == 0 && !r.cleanupFailed
  }

  lemma WorkAddsNoRow(w: World, exec: Id, s: WorkerStep)
    requires WorkEnabled(w, exec, s)
    ensures ApplyWork(w, exec, s).tables.runs.Keys == w.tables.runs.Keys
  {
    if !WritesRun(s) { OtherWorkLeavesRuns(w, exec, s); }
  }

  lemma CleanAddsNoRow(w: World, c: Id, s: CleanerStep)
    requires CleanEnabled(w, c, s)
    ensures ApplyClean(w, c, s).tables.runs.Keys == w.tables.runs.Keys
  {
  }

  /** Rows come from an approval that is spent, or from a run that needs none. */
  lemma NewRowIs(w: World, a: Action, e: Id)
    requires Enabled(w, a) && e !in w.tables.runs && e in Apply(w, a).tables.runs
    ensures
      var r := Apply(w, a).tables.runs[e];
      || (a.BeginApproved? && a.exec == e
          && RowBegins(r, a.who.session, a.who.agent, a.who.request.profile, Some(ApprovalRow(a.id)), a.owner, a.preparedAt, a.timeoutMs))
      || (a.BeginDirect? && a.exec == e
          && RowBegins(r, a.session, a.agent, a.profile, if a.grant.Some? then Some(SessionGrant(a.grant.value)) else None, a.owner, a.at, a.timeoutMs))
  {
    if a.Work? { WorkAddsNoRow(w, a.exec, a.ws); }
    else if a.Clean? { CleanAddsNoRow(w, a.claim, a.cs); }
  }

  /** A run that needs no approval row begins unless its id is taken. */
  lemma DirectRunBegins(w: World, a: Action)
    requires Enabled(w, a) && a.BeginDirect?
    ensures a.exec in Apply(w, a).tables.runs && Apply(w, a).tables.approvals == w.tables.approvals
    ensures a.exec !in w.tables.runs ==> a.exec in Apply(w, a).workers && Apply(w, a).workers[a.exec] == Worker(a.owner, None, Ready)
    ensures a.exec in w.tables.runs ==> Apply(w, a).workers == w.workers
  {
  }

  // ---------- the evidence of an approval ----------

  /** An approval that was spent and has no outcome. */
  predicate Unanswered(w: World, id: Id) {
    id in w.tables.approvals && w.tables.approvals[id].state == Consumed && w.tables.approvals[id].outcome == None
  }

  /** The worker of run `e` answers for approval `id` with this outcome. */
  function Reports(w: World, a: Action, id: Id): Option<Outcome> {
    if && a.Work? && a.exec in w.workers && w.workers[a.exec].approval == Some(id) && Unanswered(w, id)
       && (w.tables.approvals[id].execId == None || w.tables.approvals[id].execId == Some(a.exec))
    then
      match a.ws
      case ReportOutcome => if w.workers[a.exec].pc.Reporting? then Some(w.workers[a.exec].pc.outcome) else None
      case ReportNative(outcome) => Some(outcome)
      case _ => None
    else None
  }

  /** A cleaner records for approval `id` how the run ended that it has read. */
  predicate Testifies(w: World, a: Action, id: Id) {
    && a.Clean? && a.cs.RecordEvidence? && a.claim in w.cleaners && Unanswered(w, id)
    && w.cleaners[a.claim].authority == Some(ApprovalRow(id))
  }

  lemma WorkEvidence(w: World, exec: Id, s: WorkerStep, id: Id)
    requires WorkEnabled(w, exec, s) && id in w.tables.approvals
    ensures id in ApplyWork(w, exec, s).tables.approvals && EvidenceIsNext(w, Work(exec, s), id, ApplyWork(w, exec, s).tables.approvals[id])
  {
    if !s.ReportOutcome? && !s.ReportNative? { OtherWorkLeavesApprovals(w, exec, s); }
  }

  predicate EvidenceIsNext(w: World, a: Action, id: Id, row': Approval)
    requires id in w.tables.approvals
  {
    var row := w.tables.approvals[id];
    if Reports(w, a, id).Some? then row'.outcome == Reports(w, a, id) && row'.execId == Some(a.exec)
    else if Testifies(w, a, id) then
      var k := w.cleaners[a.claim];
      row'.execId == Some(k.exec)
      && row'.outcome == Some(if k.state == Succeeded then OutcomeSucceeded
                              else if k.state == Failed || k.state == TimedOut || k.state == Cancelled then OutcomeFailed
                              else OutcomeUnknown)
    else row'.outcome == row.outcome
  }

  lemma CleanEvidence(w: World, c: Id, s: CleanerStep, id: Id)
    requires CleanEnabled(w, c, s) && id in w.tables.approvals
    ensures id in ApplyClean(w, c, s).tables.approvals && EvidenceIsNext(w, Clean(c, s), id, ApplyClean(w, c, s).tables.approvals[id])
  {
  }

  /** An outcome is written by the worker that the approval paid for, or by a cleaner of its run, and by nobody else. */
  lemma EvidenceIs(w: World, a: Action, id: Id)
    requires Enabled(w, a) && id in w.tables.approvals
    ensures id in Apply(w, a).tables.approvals && EvidenceIsNext(w, a, id, Apply(w, a).tables.approvals[id])
  {
    if a.Work? { WorkEvidence(w, a.exec, a.ws, id); }
    else if a.Clean? { CleanEvidence(w, a.claim, a.cs, id); }
  }

  // ---------- the daemon and the directory ----------

  predicate Destroys(w: World, a: Action, x: Id) {
    a.Clean? && a.cs.RemoveContainer? && a.claim in w.cleaners && w.cleaners[a.claim].pc == Removing(x)
  }

  /** Requests to the daemon for run `e`, the container `x`, and what the daemon did. */
  predicate DaemonIsNext(w: World, a: Action, w': World, e: Id, x: Id)
    requires Enabled(w, a)
  {
    && (e in w'.creating <==> a == Work(e, RequestContainer) || (e in w.creating && !(a.ContainerAppears? && a.exec == e)))
    && (x in w'.live <==> (a.ContainerAppears? && a.cid == x) || (x in w.live && !Destroys(w, a, x)))
    && (x in w'.born <==> x in w.born || (a.ContainerAppears? && a.cid == x))
    && (x in w'.born ==> w'.born[x] == if a.ContainerAppears? && a.cid == x then a.exec else w.born[x])
    && StartsAreNext(w, a, w', e)
  }

  predicate StartsAreNext(w: World, a: Action, w': World, e: Id)
    requires Enabled(w, a)
  {
    && (e in w'.toStart <==> a == Work(e, Launch) || (e in w.toStart && a != ContainerStarts(e)))
    && (e in w'.toStart ==> w'.toStart[e] == if a == Work(e, Launch) then w.workers[e].pc.cid else w.toStart[e])
    && w'.launches == (if a.ContainerStarts? && w.toStart[a.exec] in w.live then w.launches + [a.exec] else w.launches)
  }

  /** The commands let through, in order; the private workspaces; the clock. */
  predicate OutsideIsNext(w: World, a: Action, w': World, e: Id)
    requires Enabled(w, a)
  {
    && w'.startings == (if a.Work? && Begins(w, a, a.exec) then w.startings + [a.exec] else w.startings)
    && w'.now == (if a.Tick? then w.now + a.ms else w.now)
    && (e in w'.dirs <==>
          a == Work(e, MakeWorkspace)
          || (e in w.dirs && !(a.Clean? && a.cs.RemoveWorkspace? && w.cleaners[a.claim].exec == e)))
  }

  lemma WorkOutside(w: World, exec: Id, s: WorkerStep, e: Id, x: Id)
    requires WorkEnabled(w, exec, s)
    ensures DaemonIsNext(w, Work(exec, s), ApplyWork(w, exec, s), e, x)
    ensures OutsideIsNext(w, Work(exec, s), ApplyWork(w, exec, s), e)
  {
  }

  lemma CleanOutside(w: World, c: Id, s: CleanerStep, e: Id, x: Id)
    requires CleanEnabled(w, c, s)
    ensures DaemonIsNext(w, Clean(c, s), ApplyClean(w, c, s), e, x)
    ensures OutsideIsNext(w, Clean(c, s), ApplyClean(w, c, s), e)
  {
  }

  lemma OtherOutside(w: World, a: Action, e: Id, x: Id)
    requires Enabled(w, a) && !a.Work? && !a.Clean?
    ensures DaemonIsNext(w, a, Apply(w, a), e, x) && OutsideIsNext(w, a, Apply(w, a), e)
  {
  }

  lemma OutsideIs(w: World, a: Action, e: Id, x: Id)
    requires Enabled(w, a)
    ensures DaemonIsNext(w, a, Apply(w, a), e, x) && OutsideIsNext(w, a, Apply(w, a), e)
  {
    match a
    case Work(exec, s) => WorkOutside(w, exec, s, e, x);
    case Clean(c, s) => CleanOutside(w, c, s, e, x);
    case _ => OtherOutside(w, a, e, x);
  }

  // ---------- the processes ----------

  /** What a worker says of an ending it has seen. */
  function Said(result: Ending): Outcome {
    if result == Succeeded then OutcomeSucceeded else if result == Unknown then OutcomeUnknown else OutcomeFailed
  }

  /** Where the worker of run `e` stands after its step; None when it is done. */
  function NextPc(w: World, e: Id, s: WorkerStep): Option<WorkerPc>
    requires WorkEnabled(w, e, s)
  {
    var pc := w.workers[e].pc;
    match s
    case AdmitWorkspace(at) => Some(if Startable(w, e, at) then Admitted else Stopping)
    case MakeWorkspace => Some(Equipped)
    case RequestContainer => Some(Requested)
    case RequestAnswered(cid) => Some(HasContainer(cid))
    case RecordContainer(_) => Some(if e in w.tables.runs && NewContainer(w, Work(e, s), e).Some? then Recorded(pc.cid) else Stopping)
    case BeginStart(_, _) => Some(if Begins(w, Work(e, s), e) then Launching(pc.cid) else Stopping)
    case Launch => Some(Launched(pc.cid))
    case GiveUp => Some(Stopping)
    case FinishWork(_, result) => Some(if Ends(w, Work(e, s), e) then Reporting(Said(result)) else Unconfirmed(result))
    case FinishErrs(_, result, _) => Some(Unconfirmed(result))
    case ReadVerdict =>
      Some(Reporting(if e in w.tables.runs && w.tables.runs[e].state == Unknown then OutcomeUnknown else Said(pc.result)))
    case ReadFails => Some(Reporting(Said(pc.result)))
    case ReportOutcome | ReportNative(_) | StopWorker => None
  }

  lemma WorkerIs(w: World, e: Id, s: WorkerStep)
    requires WorkEnabled(w, e, s)
    ensures
      var w' := ApplyWork(w, e, s);
      && (e in w'.workers <==> NextPc(w, e, s).Some?)
      && (e in w'.workers ==> w'.workers[e] == w.workers[e].(pc := NextPc(w, e, s).value))
      && w'.cleaners == w.cleaners && w'.execs == w.execs && w'.claims == w.claims
  {
  }

  lemma OtherWorkersStay(w: World, e: Id, s: WorkerStep, other: Id)
    requires WorkEnabled(w, e, s) && other != e
    ensures other in ApplyWork(w, e, s).workers <==> other in w.workers
    ensures other in w.workers ==> ApplyWork(w, e, s).workers[other] == w.workers[other]
  {
  }

  /** Where cleaner `c` stands after its step; None when it is done. */
  function NextCleanerPc(w: World, c: Id, s: CleanerStep): Option<CleanerPc>
    requires CleanEnabled(w, c, s)
  {
    var k := w.cleaners[c];
    match s
    case ReadClaim => if Holds(w, c) then Some(Reread) else None
    case RecordEvidence => Some(Evidenced)
    case InspectContainer(found) =>
      Some(if found == None then Gone else if k.seen == None then Found(found.value) else Removing(found.value))
    case AdoptFound =>
      Some(if k.exec in w.tables.runs && NewContainer(w, Clean(c, s), k.exec).Some? then Removing(k.pc.cid) else Settling(false))
    case RemoveContainer => Some(Gone)
    case RemoveWorkspace => Some(Settling(true))
    case FailCleanup => Some(Settling(false))
    case SettleClaim | StopCleaner => None
  }

  predicate Holds(w: World, c: Id)
    requires c in w.cleaners
  {
    w.cleaners[c].exec in w.tables.runs && w.tables.runs[w.cleaners[c].exec].cleanupOwner == Some(c)
  }

  lemma CleanerIs(w: World, c: Id, s: CleanerStep)
    requires CleanEnabled(w, c, s)
    ensures
      var w' := ApplyClean(w, c, s);
      var k := w.cleaners[c];
      && (c in w'.cleaners <==> NextCleanerPc(w, c, s).Some?)
      && (c in w'.cleaners ==>
            var k' := w'.cleaners[c];
            && k'.pc == NextCleanerPc(w, c, s).value && k'.exec == k.exec && k'.owner == k.owner && k'.untilMs == k.untilMs
            && if s.ReadClaim? then
                 var r := w.tables.runs[k.exec];
                 k'.seen == r.containerId && k'.state == r.state && k'.authority == r.authority
               else k'.seen == k.seen && k'.state == k.state && k'.authority == k.authority)
      && w'.workers == w.workers && w'.execs == w.execs && w'.claims == w.claims
  {
  }

  lemma OtherCleanersStay(w: World, c: Id, s: CleanerStep, other: Id)
    requires CleanEnabled(w, c, s) && other != c
    ensures other in ApplyClean(w, c, s).cleaners <==> other in w.cleaners
    ensures other in w.cleaners ==> ApplyClean(w, c, s).cleaners[other] == w.cleaners[other]
  {
  }

  /** A claim that takes the row makes a cleaner with half a minute; any other one makes none. Either way its nonce is used up. */
  lemma ClaimIs(w: World, a: Action)
    requires Enabled(w, a) && a.ClaimRun?
    ensures
      var w' := Apply(w, a);
      && w'.claims == w.claims + {a.claim} && w'.workers == w.workers
      && if Takes(w, a, a.exec) then
           && a.claim in w'.cleaners && w'.cleaners[a.claim].exec == a.exec && w'.cleaners[a.claim].owner == w.tables.runs[a.exec].owner
           && w'.cleaners[a.claim].untilMs == a.at + 30 * 1000 && w'.cleaners[a.claim].pc == Claimed
           && w'.cleaners == w.cleaners[a.claim := w'.cleaners[a.claim]]
         else w'.cleaners == w.cleaners && w'.tables == w.tables
  {
  }

  /** An approval spent without a run row leaves a worker that has only its outcome to report. */
  lemma NativeBegins(w: World, a: Action)
    requires Enabled(w, a) && a.BeginNative?
    ensures
      var w' := Apply(w, a);
      && w'.execs == w.execs + {a.exec} && w'.tables.runs == w.tables.runs && w'.cleaners == w.cleaners
      && if IsConsumed(w', a.id) && !IsConsumed(w, a.id) then
           && a.exec in w'.workers && w'.workers[a.exec].approval == Some(a.id) && w'.workers[a.exec].pc == Native
           && w'.workers == w.workers[a.exec := w'.workers[a.exec]]
         else w'.tables == w.tables && w'.workers == w.workers
  {
  }

  /** No other step makes or moves a process; a begun run uses up its id. */
  lemma ProcessesStay(w: World, a: Action)
    requires Enabled(w, a) && !a.Work? && !a.Clean? && !a.ClaimRun? && !a.BeginNative?
    ensures Apply(w, a).cleaners == w.cleaners && Apply(w, a).claims == w.claims
    ensures Apply(w, a).execs == if a.BeginApproved? || a.BeginDirect? then w.execs + {a.exec} else w.execs
    ensures !a.BeginApproved? && !a.BeginDirect? ==> Apply(w, a).workers == w.workers
  {
  }

  // ---------- what a statement reports ----------

  /** A statement reports whether its guard matched a row; one that did not match changed nothing. */
  lemma ApprovalStatementsTell(t: Tables, now: int, id: Id, session: string, actor: string, approve: bool, hash: Hash, exec: Id, outcome: Outcome)
    ensures Resolve(t, now, id, session, actor, approve, hash).1 <==>
              && id in t.approvals && t.approvals[id].session == session && t.approvals[id].state == Pending
              && (approve ==> now < t.approvals[id].expiresMs && t.approvals[id].configHash == hash)
    ensures Abandon(t, id).1 <==> id in t.approvals && t.approvals[id].state == Approved
    ensures FinishApproval(t, id, exec, outcome).1 <==>
              && id in t.approvals && t.approvals[id].state == Consumed && t.approvals[id].outcome == None
              && (t.approvals[id].execId == None || t.approvals[id].execId == Some(exec))
    ensures !Resolve(t, now, id, session, actor, approve, hash).1 ==> Resolve(t, now, id, session, actor, approve, hash).0 == t
    ensures !Abandon(t, id).1 ==> Abandon(t, id).0 == t
    ensures !FinishApproval(t, id, exec, outcome).1 ==> FinishApproval(t, id, exec, outcome).0 == t
  {
  }

  lemma CleanupStatementsTell(t: Tables, exec: Id, owner: Id, cid: Id, claim: Id, seenMs: int, clean: bool, authority: Option<Authority>, state: RunState)
    ensures Settle(t, exec, claim, clean).1 <==> exec in t.runs && t.runs[exec].cleanupOwner == Some(claim)
    ensures AdoptByScan(t, seenMs, exec, owner, cid).1 <==>
              && exec in t.runs && t.runs[exec].owner == owner && t.runs[exec].containerId == None
              && (!UnderWay(t.runs[exec]) || t.runs[exec].deadlineMs <= seenMs)
    ensures AdoptByCleaner(t, exec, owner, cid, claim).1 <==>
              && exec in t.runs && t.runs[exec].owner == owner && t.runs[exec].containerId == None
              && t.runs[exec].cleanupOwner == Some(claim)
    ensures RecordOutcome(t, exec, authority, state).1 <==>
              exists id :: authority == Some(ApprovalRow(id)) && id in t.approvals && t.approvals[id].state == Consumed
                           && t.approvals[id].outcome == None
    ensures !Settle(t, exec, claim, clean).1 ==> Settle(t, exec, claim, clean).0 == t
    ensures !AdoptByScan(t, seenMs, exec, owner, cid).1 ==> AdoptByScan(t, seenMs, exec, owner, cid).0 == t
    ensures !AdoptByCleaner(t, exec, owner, cid, claim).1 ==> AdoptByCleaner(t, exec, owner, cid, claim).0 == t
    ensures !RecordOutcome(t, exec, authority, state).1 ==> RecordOutcome(t, exec, authority, state).0 == t
  {
  }
}
