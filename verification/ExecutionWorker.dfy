/**
 One approved or granted run as its worker goes through it, with every early exit: workspace, docker create,
 Created, Starting, docker start, and then, whatever happened, Finish, Cleanup and the approval's outcome.
 Each call is one step of the protocol.
 */
module ExecutionWorker {
  import opened Base
  import T = ExecutionTables
  import opened ExecutionTables
  import opened ExecutionProtocol
  import opened ExecutionHost

  /** Worker `exec` stands at `pc`. */
  ghost predicate At(h: Host, exec: Id, owner: Id, pc: WorkerPc)
    reads h, h.store
  {
    h.Valid() && exec in h.workers && h.workers[exec].owner == owner && h.workers[exec].pc == pc
  }

  method Wait(h: Host, ms: nat)
    requires h.Valid()
    modifies h
    ensures h.Continues(old(h.acts)) && h.View() == old(h.View()).(now := old(h.now) + ms)
  {
    ghost var w := h.View();
    h.now := h.now + ms;
    h.Log(Tick(ms), w.(now := w.now + ms));
  }

  /** The read guard in front of the workspace. */
  method Admit(h: Host, exec: Id, owner: Id) returns (ok: bool)
    requires At(h, exec, owner, Ready)
    modifies h
    ensures h.Continues(old(h.acts)) && h.View() == DoAdmitWorkspace(old(h.View()), exec, old(h.now))
    ensures ok == WorkspaceAllowed(h.store.View(), h.now, exec, owner)
    ensures At(h, exec, owner, if ok then Admitted else Stopping)
  {
    ghost var w := h.View();
    var r := if exec in h.store.runs then Some(h.store.runs[exec]) else None;
    ok := r.Some? && r.value.owner == owner && r.value.state == Prepared && r.value.cleanup == CleanupPending && h.now < r.value.deadlineMs;
    h.Log(Work(exec, AdmitWorkspace(h.now)), DoAdmitWorkspace(w, exec, h.now));
  }

  method MakeDir(h: Host, exec: Id, owner: Id)
    requires At(h, exec, owner, Admitted)
    modifies h
    ensures h.Continues(old(h.acts)) && At(h, exec, owner, Equipped)
    ensures h.View() == AtPc(old(h.View()).(dirs := old(h.dirs) + {exec}), exec, Equipped)
  {
    ghost var w := h.View();
    h.dirs := h.dirs + {exec};
    h.Log(Work(exec, MakeWorkspace), AtPc(w.(dirs := w.dirs + {exec}), exec, Equipped));
  }

  /** docker create is sent; the daemon may act on it at any later time. */
  method RequestCreate(h: Host, exec: Id, owner: Id)
    requires At(h, exec, owner, Equipped)
    modifies h
    ensures h.Continues(old(h.acts)) && At(h, exec, owner, Requested) && exec in h.creating
    ensures h.View() == AtPc(old(h.View()).(creating := old(h.creating) + {exec}), exec, Requested)
  {
    ghost var w := h.View();
    h.creating := h.creating + {exec};
    h.Log(Work(exec, RequestContainer), AtPc(w.(creating := w.creating + {exec}), exec, Requested));
  }

  /** The daemon makes the container. */
  method Appear(h: Host, exec: Id, cid: Id)
    requires h.Valid() && exec in h.creating && cid !in h.born
    modifies h
    ensures h.Continues(old(h.acts)) && h.View() == Apply(old(h.View()), ContainerAppears(exec, cid))
    ensures h.BelongsTo(cid, exec)
  {
    ghost var w := h.View();
    h.creating := h.creating - {exec};
    h.born := h.born[cid := exec];
    h.live := h.live + {cid};
    h.Log(ContainerAppears(exec, cid), Apply(w, ContainerAppears(exec, cid)));
  }

  ghost method Answered(h: Host, exec: Id, owner: Id, cid: Id)
    requires At(h, exec, owner, Requested) && h.BelongsTo(cid, exec)
    modifies h`workers, h`cleaners, h`execs, h`claims, h`startings, h`launches, h`ws, h`acts
    ensures h.Continues(old(h.acts)) && At(h, exec, owner, HasContainer(cid)) && h.View() == AtPc(old(h.View()), exec, HasContainer(cid))
  {
    h.Log(Work(exec, RequestAnswered(cid)), AtPc(h.View(), exec, HasContainer(cid)));
  }

  /** The callback after docker create: the row records the container, or the run stops. */
  method RecordCreated(h: Host, exec: Id, owner: Id, cid: Id) returns (ok: bool)
    requires At(h, exec, owner, HasContainer(cid))
    modifies h, h.store
    ensures h.Continues(old(h.acts)) && h.View() == DoRecordContainer(old(h.View()), exec, old(h.now))
    ensures ok == Created(old(h.store.View()), old(h.now), exec, owner, cid).1
    ensures At(h, exec, owner, if ok then Recorded(cid) else Stopping)
  {
    ghost var w := h.View();
    ok := h.store.Created(h.now, exec, owner, cid);
    h.Log(Work(exec, RecordContainer(h.now)), DoRecordContainer(w, exec, h.now));
  }

  /** The callback before docker start: the row says running, or the run stops. */
  method RecordStarting(h: Host, exec: Id, owner: Id, cid: Id, timeoutMs: nat) returns (ok: bool)
    requires At(h, exec, owner, Recorded(cid))
    modifies h, h.store
    ensures h.Continues(old(h.acts)) && h.View() == DoBeginStart(old(h.View()), exec, old(h.now), timeoutMs)
    ensures ok == Starting(old(h.store.View()), old(h.now), exec, owner, timeoutMs).1
    ensures At(h, exec, owner, if ok then Launching(cid) else Stopping)
    ensures h.startings == if ok then old(h.startings) + [exec] else old(h.startings)
  {
    ghost var w := h.View();
    ok := h.store.Starting(h.now, exec, owner, timeoutMs);
    h.Log(Work(exec, BeginStart(h.now, timeoutMs)), DoBeginStart(w, exec, h.now, timeoutMs));
  }

  method Start(h: Host, exec: Id, owner: Id, cid: Id)
    requires At(h, exec, owner, Launching(cid))
    modifies h
    ensures h.Continues(old(h.acts)) && At(h, exec, owner, Launched(cid)) && h.View() == DoLaunch(old(h.View()), exec)
  {
    ghost var w := h.View();
    h.toStart := h.toStart[exec := cid];
    h.Log(Work(exec, Launch), DoLaunch(w, exec));
  }

  /**
   How the outside world answers one attempt: `checked` says the checks before the workspace passed, `cid` is the
   container docker create makes, if it makes one.
   */
  datatype Attempt = Attempt(
    checked: bool, mkdir: bool, prepared: bool, cid: Option<Id>, answered: bool, createMs: nat, sameDaemon: bool,
    timeoutMs: nat, runMs: nat, cancelled: bool, verdict: Ending)

  /** A worker that still has an outcome to record. */
  ghost predicate Unfinished(h: Host, exec: Id, owner: Id, approval: Option<Id>)
    reads h, h.store
  {
    && h.Valid() && exec in h.workers && h.workers[exec].owner == owner && h.workers[exec].approval == approval
    && InFlight(h.workers[exec].pc)
  }

  /** A container recorded for the run carries its labels. */
  predicate TiedIn(w: World, exec: Id) {
    exec in w.tables.runs && w.tables.runs[exec].containerId.Some? ==>
      w.tables.runs[exec].containerId.value in w.born && w.born[w.tables.runs[exec].containerId.value] == exec
  }

  ghost predicate Tied(h: Host, exec: Id)
    reads h, h.store
  {
    TiedIn(h.View(), exec)
  }

  /** The row is still this worker's to finish. */
  ghost predicate Open(h: Host, exec: Id, owner: Id)
    reads h, h.store
  {
    && exec in h.store.runs && h.store.runs[exec].owner == owner
    && !Terminal(h.store.runs[exec].state) && h.store.runs[exec].cleanup == CleanupPending
  }

  /** The row as it was inserted: this owner's, prepared, unclaimed, without a container. */
  predicate Untouched(w: World, exec: Id, owner: Id) {
    && exec in w.tables.runs && w.tables.runs[exec].owner == owner && w.tables.runs[exec].state == Prepared
    && w.tables.runs[exec].cleanup == CleanupPending && w.tables.runs[exec].containerId == None
  }

  /** Every call of the attempt works, and docker create answers before the `leftMs` of the row are over. */
  predicate Works(a: Attempt, leftMs: int) {
    a.checked && a.mkdir && a.prepared && a.cid.Some? && a.answered && a.sameDaemon && a.createMs < leftMs
  }

  /** Exactly when the command is started. */
  predicate Starts(w: World, exec: Id, owner: Id, a: Attempt) {
    Untouched(w, exec, owner) && Works(a, w.tables.runs[exec].deadlineMs - w.now)
  }

  /** What the worker has to say at the end of its attempt. */
  function Verdict(starts: bool, a: Attempt): Ending {
    if starts then a.verdict else if a.cancelled then Cancelled else Failed
  }

  /** The row says running with container `cid`, from `at` for the timeout and half a minute more. */
  predicate RunsIn(w: World, exec: Id, owner: Id, cid: Id, at: int, timeoutMs: nat) {
    && exec in w.tables.runs && w.tables.runs[exec].owner == owner && w.tables.runs[exec].state == Running
    && w.tables.runs[exec].containerId == Some(cid) && w.tables.runs[exec].cleanup == CleanupPending
    && w.tables.runs[exec].deadlineMs == at + timeoutMs + 30 * 1000
  }

  ghost predicate RunsSince(h: Host, exec: Id, owner: Id, cid: Id, at: int, timeoutMs: nat)
    reads h, h.store
  {
    RunsIn(h.View(), exec, owner, cid, at, timeoutMs)
  }

  /** The workspace, and what goes into it. */
  method OpenWorkspace(h: Host, exec: Id, owner: Id, a: Attempt, ghost approval: Option<Id>) returns (ok: bool)
    requires At(h, exec, owner, Ready) && h.workers[exec].approval == approval
    modifies h
    ensures h.Continues(old(h.acts)) && Unfinished(h, exec, owner, approval) && (ok ==> At(h, exec, owner, Equipped))
    ensures h.store.View() == old(h.store.View()) && h.startings == old(h.startings) && h.claims == old(h.claims)
    ensures h.born == old(h.born) && h.now == old(h.now)
    ensures ok == (a.checked && WorkspaceAllowed(h.store.View(), h.now, exec, owner) && a.mkdir && a.prepared)
    ensures h.dirs == if a.checked && WorkspaceAllowed(h.store.View(), h.now, exec, owner) && a.mkdir then old(h.dirs) + {exec} else old(h.dirs)
  {
    if !a.checked { return false; }
    ok := Admit(h, exec, owner);
    if !ok || !a.mkdir { return false; }
    MakeDir(h, exec, owner);
    ok := a.prepared;
  }

  /** docker create, up to its answer. None says the run stops here; the container may exist all the same. */
  method CreateContainer(h: Host, exec: Id, owner: Id, a: Attempt, ghost approval: Option<Id>) returns (cid: Option<Id>)
    requires At(h, exec, owner, Equipped) && h.workers[exec].approval == approval
    requires (a.cid.Some? ==> a.cid.value !in h.born) && Tied(h, exec)
    modifies h
    ensures h.Continues(old(h.acts)) && Unfinished(h, exec, owner, approval) && Tied(h, exec)
    ensures h.store.View() == old(h.store.View()) && h.startings == old(h.startings) && h.claims == old(h.claims)
    ensures cid.Some? ==> At(h, exec, owner, HasContainer(cid.value)) && h.BelongsTo(cid.value, exec) && cid.value in h.live
    ensures cid == (if a.answered then a.cid else None) && h.now == old(h.now) + a.createMs && h.dirs == old(h.dirs)
    ensures h.live == if a.cid.Some? then old(h.live) + {a.cid.value} else old(h.live)
    ensures h.born == if a.cid.Some? then old(h.born)[a.cid.value := exec] else old(h.born)
  {
    cid := None;
    RequestCreate(h, exec, owner);
    Wait(h, a.createMs);
    if a.cid.Some? {
      Appear(h, exec, a.cid.value);
      if a.answered {
        Answered(h, exec, owner, a.cid.value);
        cid := a.cid;
      }
    }
  }

  /** From the answer to the row that says running. */
  method Commit(h: Host, exec: Id, owner: Id, cid: Id, a: Attempt, ghost approval: Option<Id>) returns (ok: bool)
    requires At(h, exec, owner, HasContainer(cid)) && h.workers[exec].approval == approval && h.BelongsTo(cid, exec) && Tied(h, exec)
    modifies h, h.store
    ensures h.Continues(old(h.acts)) && Unfinished(h, exec, owner, approval) && Tied(h, exec)
    ensures h.startings == (if ok then old(h.startings) + [exec] else old(h.startings)) && h.claims == old(h.claims)
    ensures ok ==> At(h, exec, owner, Launching(cid)) && RunsSince(h, exec, owner, cid, old(h.now), a.timeoutMs)
    ensures old(Open(h, exec, owner)) ==> Open(h, exec, owner)
    ensures ok == old(Untouched(h.View(), exec, owner) && h.now < h.store.runs[exec].deadlineMs && a.sameDaemon)
    ensures var (created, recorded) := Created(old(h.store.View()), h.now, exec, owner, cid);
            h.store.View() == if recorded && a.sameDaemon then Starting(created, h.now, exec, owner, a.timeoutMs).0 else created
    ensures h.now == old(h.now) && h.dirs == old(h.dirs) && h.live == old(h.live) && h.store.approvals == old(h.store.approvals)
  {
    ok := RecordCreated(h, exec, owner, cid);
    if !ok || !a.sameDaemon { return false; }
    ok := RecordStarting(h, exec, owner, cid, a.timeoutMs);
  }

  method RunStarted(h: Host, exec: Id, owner: Id, cid: Id, a: Attempt, ghost approval: Option<Id>)
    requires At(h, exec, owner, Launching(cid)) && h.workers[exec].approval == approval && Tied(h, exec)
    modifies h
    ensures h.Continues(old(h.acts)) && Unfinished(h, exec, owner, approval) && Tied(h, exec)
    ensures h.store.View() == old(h.store.View()) && h.startings == old(h.startings) && h.claims == old(h.claims)
    ensures h.toStart == old(h.toStart)[exec := cid] && h.live == old(h.live) && h.dirs == old(h.dirs) && h.now == old(h.now) + a.runMs
  {
    Start(h, exec, owner, cid);
    Wait(h, a.runMs);
  }

  /** The container exists and its start request is with the daemon. */
  ghost predicate Sent(h: Host, exec: Id, cid: Id)
    reads h
  {
    cid in h.live && exec in h.toStart && h.toStart[exec] == cid
  }

  /** From docker create to the end of the command; `started` says whether Starting committed. */
  method RunContainer(h: Host, exec: Id, owner: Id, a: Attempt, ghost approval: Option<Id>) returns (started: bool)
    requires At(h, exec, owner, Equipped) && h.workers[exec].approval == approval
    requires (a.cid.Some? ==> a.cid.value !in h.born) && Tied(h, exec)
    modifies h, h.store
    ensures h.Continues(old(h.acts)) && Unfinished(h, exec, owner, approval) && Tied(h, exec) && h.claims == old(h.claims)
    ensures h.startings == if started then old(h.startings) + [exec] else old(h.startings)
    ensures old(Open(h, exec, owner)) ==> Open(h, exec, owner)
    ensures started == old(Untouched(h.View(), exec, owner) && h.now + a.createMs < h.store.runs[exec].deadlineMs
                           && a.cid.Some? && a.answered && a.sameDaemon)
    ensures started ==> RunsSince(h, exec, owner, a.cid.value, old(h.now) + a.createMs, a.timeoutMs) && Sent(h, exec, a.cid.value)
    ensures h.dirs == old(h.dirs) && h.store.approvals == old(h.store.approvals)
  {
    started := false;
    var cid := CreateContainer(h, exec, owner, a, approval);
    if cid.Some? { started := Commit(h, exec, owner, cid.value, a, approval); }
    if started { RunStarted(h, exec, owner, cid.value, a, approval); }
  }

  /**
   The attempt itself. The command is started exactly when every call before it works and docker create answers before
   the row's deadline: then the row names the container and says running, the workspace is there, the start request is
   out and the result is what the container says. Otherwise the run is cancelled or failed.
   */
  method Drive(h: Host, exec: Id, owner: Id, a: Attempt, ghost approval: Option<Id>) returns (result: Ending)
    requires At(h, exec, owner, Ready) && h.workers[exec].approval == approval
    requires (a.cid.Some? ==> a.cid.value !in h.born) && Tied(h, exec)
    modifies h, h.store
    ensures h.Continues(old(h.acts)) && Unfinished(h, exec, owner, approval) && Tied(h, exec) && h.claims == old(h.claims)
    ensures h.startings == if old(Starts(h.View(), exec, owner, a)) then old(h.startings) + [exec] else old(h.startings)
    ensures result == Verdict(old(Starts(h.View(), exec, owner, a)), a)
    ensures old(Starts(h.View(), exec, owner, a)) ==>
              && RunsSince(h, exec, owner, a.cid.value, old(h.now) + a.createMs, a.timeoutMs)
              && Sent(h, exec, a.cid.value) && exec in h.dirs
    ensures old(Open(h, exec, owner)) ==> Open(h, exec, owner)
    ensures h.store.approvals == old(h.store.approvals)
  {
    result := if a.cancelled then Cancelled else Failed;
    var ok := OpenWorkspace(h, exec, owner, a, approval);
    if ok {
      ok := RunContainer(h, exec, owner, a, approval);
      if ok { result := a.verdict; }
    }
  }

  // ---- The deferred part ----

  /** Whether the Finish statement errors, whether it applied all the same, and whether the read after it fails. */
  datatype StoreFaults = StoreFaults(finish: bool, applied: bool, read: bool)

  /** The row takes the result, whether or not the worker is told. */
  predicate Taken(f: StoreFaults) { f.finish ==> f.applied }

  method FinishRow(h: Host, exec: Id, owner: Id, result: Ending) returns (ok: bool)
    requires h.Valid() && exec in h.workers && h.workers[exec].owner == owner && InFlight(h.workers[exec].pc)
    modifies h, h.store
    ensures h.Continues(old(h.acts)) && h.View() == DoFinishWork(old(h.View()), exec, old(h.now), result)
    ensures ok == FinishRun(old(h.store.View()), old(h.now), exec, owner, result).1
    ensures At(h, exec, owner, if ok then Reporting(Image(result)) else Unconfirmed(result))
  {
    ghost var w := h.View();
    ok := h.store.Finish(h.now, exec, owner, result);
    h.Log(Work(exec, FinishWork(h.now, result)), DoFinishWork(w, exec, h.now, result));
  }

  /** After a refusal the row is read: a run that a cleaner made unknown is reported as unknown. */
  method ReadAgain(h: Host, exec: Id, owner: Id, result: Ending) returns (outcome: Outcome)
    requires At(h, exec, owner, Unconfirmed(result))
    modifies h
    ensures h.Continues(old(h.acts)) && h.View() == DoReadVerdict(old(h.View()), exec)
    ensures At(h, exec, owner, Reporting(outcome))
    ensures outcome == if exec in h.store.runs && h.store.runs[exec].state == Unknown then OutcomeUnknown else Image(result)
  {
    ghost var w := h.View();
    outcome := if exec in h.store.runs && h.store.runs[exec].state == Unknown then OutcomeUnknown else Image(result);
    h.Log(Work(exec, ReadVerdict), DoReadVerdict(w, exec));
  }

  /** The statement errored; the worker cannot tell whether it applied. */
  method FinishErrs(h: Host, exec: Id, owner: Id, result: Ending, applied: bool)
    requires h.Valid() && exec in h.workers && h.workers[exec].owner == owner && InFlight(h.workers[exec].pc)
    modifies h, h.store
    ensures h.Continues(old(h.acts)) && h.View() == DoFinishErrs(old(h.View()), exec, old(h.now), result, applied)
    ensures At(h, exec, owner, Unconfirmed(result))
  {
    ghost var w := h.View();
    if applied { var _ := h.store.Finish(h.now, exec, owner, result); }
    h.Log(Work(exec, WorkerStep.FinishErrs(h.now, result, applied)), DoFinishErrs(w, exec, h.now, result, applied));
  }

  ghost method MissRead(h: Host, exec: Id, owner: Id, result: Ending)
    requires At(h, exec, owner, Unconfirmed(result))
    modifies h`workers, h`cleaners, h`execs, h`claims, h`startings, h`launches, h`ws, h`acts
    ensures h.Continues(old(h.acts)) && At(h, exec, owner, Reporting(Image(result))) && h.View() == AtPc(old(h.View()), exec, Reporting(Image(result)))
  {
    h.Log(Work(exec, ReadFails), AtPc(h.View(), exec, Reporting(Image(result))));
  }

  /** What the worker says of a Finish that it has no confirmation for. */
  method Reread(h: Host, exec: Id, owner: Id, result: Ending, fails: bool) returns (outcome: Outcome)
    requires At(h, exec, owner, Unconfirmed(result))
    modifies h
    ensures h.Continues(old(h.acts)) && At(h, exec, owner, Reporting(outcome)) && h.workers[exec].approval == old(h.workers[exec].approval)
    ensures h.store.View() == old(h.store.View()) && h.startings == old(h.startings) && h.claims == old(h.claims) && h.born == old(h.born)
    ensures outcome == if !fails && exec in h.store.runs && h.store.runs[exec].state == Unknown then OutcomeUnknown else Image(result)
  {
    if fails {
      MissRead(h, exec, owner, result);
      return Image(result);
    }
    outcome := ReadAgain(h, exec, owner, result);
  }

  /**
   Finish, and what the worker will say about the run afterwards: its own result, unless the statement is not
   confirmed and the row reads "unknown".
   */
  method Settle(h: Host, exec: Id, owner: Id, result: Ending, faults: StoreFaults, ghost approval: Option<Id>) returns (outcome: Outcome)
    requires Unfinished(h, exec, owner, approval) && Tied(h, exec)
    modifies h, h.store
    ensures h.Continues(old(h.acts)) && At(h, exec, owner, Reporting(outcome)) && h.workers[exec].approval == approval
    ensures Tied(h, exec) && h.startings == old(h.startings) && h.claims == old(h.claims) && h.store.approvals == old(h.store.approvals)
    ensures h.store.View() == if faults.finish && !faults.applied then old(h.store.View())
                              else FinishRun(old(h.store.View()), old(h.now), exec, owner, result).0
    ensures outcome == if (faults.finish || !FinishRun(old(h.store.View()), old(h.now), exec, owner, result).1)
                          && !faults.read && exec in h.store.runs && h.store.runs[exec].state == Unknown
                       then OutcomeUnknown else Image(result)
  {
    var ok := false;
    if faults.finish {
      FinishErrs(h, exec, owner, result, faults.applied);
    } else {
      ok := FinishRow(h, exec, owner, result);
    }
    if ok { return Image(result); }
    outcome := Reread(h, exec, owner, result, faults.read);
  }

  /** Someone wrote the outcome of an approval that was spent on this run. */
  ghost predicate Answers(h: Host, exec: Id, approval: Option<Id>)
    reads h, h.store
  {
    approval.Some? && approval.value in h.store.approvals && h.store.approvals[approval.value].state == Consumed
    && (h.store.approvals[approval.value].execId == None || h.store.approvals[approval.value].execId == Some(exec))
    ==> h.store.approvals[approval.value].outcome.Some?
  }

  /** The approval was spent, on this run or on none it knows of, and its outcome is not written. */
  predicate Awaits(approvals: map<Id, Approval>, exec: Id, approval: Option<Id>) {
    && approval.Some? && approval.value in approvals && approvals[approval.value].state == Consumed
    && approvals[approval.value].outcome == None
    && (approvals[approval.value].execId == None || approvals[approval.value].execId == Some(exec))
  }

  /** The outcome of the run is on record. */
  predicate OnRecord(approvals: map<Id, Approval>, exec: Id, id: Id, outcome: Outcome) {
    && id in approvals && approvals[id].state == Consumed && approvals[id].execId == Some(exec)
    && approvals[id].outcome == Some(outcome)
  }

  /** The approval's outcome, written at most once. */
  method Report(h: Host, exec: Id, owner: Id, approval: Option<Id>, outcome: Outcome)
    requires At(h, exec, owner, Reporting(outcome)) && h.workers[exec].approval == approval
    modifies h, h.store
    ensures h.Continues(old(h.acts)) && h.View() == DoReport(old(h.View()), exec, outcome) && exec !in h.workers
    ensures Answers(h, exec, approval) && h.store.runs == old(h.store.runs)
    ensures h.live == old(h.live) && h.dirs == old(h.dirs) && h.startings == old(h.startings)
    ensures old(Awaits(h.store.approvals, exec, approval)) ==> OnRecord(h.store.approvals, exec, approval.value, outcome)
    ensures !old(Awaits(h.store.approvals, exec, approval)) ==> h.store.approvals == old(h.store.approvals)
  {
    ghost var w := h.View();
    if approval.Some? {
      var _ := h.store.FinishApproval(approval.value, exec, outcome);
    }
    h.Log(Work(exec, ReportOutcome), DoReport(w, exec, outcome));
  }

  /** No call of a cleanup fails. */
  predicate Clear(f: CleanupFaults) { !f.inspect && !f.remove && !f.workspace }

  /** The run ended as `result`, was cleaned, and neither its recorded container nor its workspace is left. */
  predicate ClosedIn(w: World, exec: Id, result: RunState) {
    && exec in w.tables.runs && w.tables.runs[exec].state == result && w.tables.runs[exec].cleanup == Cleaned && exec !in w.dirs
    && (w.tables.runs[exec].containerId.Some? ==> w.tables.runs[exec].containerId.value !in w.live)
  }

  ghost predicate Closed(h: Host, exec: Id, result: RunState)
    reads h, h.store
  {
    ClosedIn(h.View(), exec, result)
  }

  /** The row ended as `result` and no cleaner has it. */
  ghost predicate Ended(h: Host, exec: Id, result: Ending)
    reads h, h.store
  {
    exec in h.store.runs && h.store.runs[exec].state == result && h.store.runs[exec].cleanup == CleanupPending
  }

  /** The cleanup by the worker itself: it closes an ended run, and writes how the run ended before that. */
  method CleanUp(h: Host, exec: Id, owner: Id, ghost approval: Option<Id>, ghost outcome: Outcome, claim: Id, cleanup: CleanupFaults)
    requires At(h, exec, owner, Reporting(outcome)) && h.workers[exec].approval == approval && Tied(h, exec) && claim !in h.claims
    modifies h, h.store
    ensures h.Continues(old(h.acts)) && At(h, exec, owner, Reporting(outcome)) && h.workers[exec].approval == approval
    ensures h.startings == old(h.startings)
    ensures old(exec in h.store.runs && Terminal(h.store.runs[exec].state) && Ended(h, exec, h.store.runs[exec].state)) ==>
              && exec in h.store.runs && h.store.runs[exec].state == old(h.store.runs[exec].state)
              && (Clear(cleanup) ==> Closed(h, exec, h.store.runs[exec].state))
              && Evidence(old(h.store.approvals), h.store.approvals, exec, old(h.store.runs[exec].authority), h.store.runs[exec].state)
  {
    var _ := h.Cleanup(exec, claim, h.now, cleanup);
  }

  /** The run's resources, then the approval's outcome: the cleaner writes it first if the row has an end. */
  method Dispose(h: Host, exec: Id, owner: Id, approval: Option<Id>, outcome: Outcome, claim: Id, cleanup: CleanupFaults)
    requires At(h, exec, owner, Reporting(outcome)) && h.workers[exec].approval == approval && Tied(h, exec) && claim !in h.claims
    modifies h, h.store
    ensures h.Continues(old(h.acts)) && exec !in h.workers && h.startings == old(h.startings)
    ensures Answers(h, exec, approval)
    ensures old(exec in h.store.runs && Terminal(h.store.runs[exec].state) && Ended(h, exec, h.store.runs[exec].state)) ==>
              && exec in h.store.runs && h.store.runs[exec].state == old(h.store.runs[exec].state)
              && (Clear(cleanup) ==> Closed(h, exec, h.store.runs[exec].state))
              && (outcome == Image(h.store.runs[exec].state) && old(Awaits(h.store.approvals, exec, approval)) ==>
                    OnRecord(h.store.approvals, exec, approval.value, outcome))
  {
    CleanUp(h, exec, owner, approval, outcome, claim, cleanup);
    Report(h, exec, owner, approval, outcome);
  }

  /** The deferred part as a whole, in its order: the run's end, its resources, the approval's outcome. */
  method Finish(h: Host, exec: Id, owner: Id, approval: Option<Id>, result: Ending, faults: StoreFaults, claim: Id, cleanup: CleanupFaults)
    returns (outcome: Outcome)
    requires Unfinished(h, exec, owner, approval) && Tied(h, exec) && claim !in h.claims
    modifies h, h.store
    ensures h.Continues(old(h.acts)) && exec !in h.workers && h.startings == old(h.startings)
    ensures Taken(faults) && old(Open(h, exec, owner)) ==> outcome == Image(result) && exec in h.store.runs && h.store.runs[exec].state == result
    ensures Taken(faults) && old(Open(h, exec, owner)) && Clear(cleanup) ==> Closed(h, exec, result)
    ensures outcome == Image(result) || (outcome == OutcomeUnknown && !faults.read && (faults.finish || !old(Open(h, exec, owner))))
    ensures Answers(h, exec, approval)
    ensures Taken(faults) && old(Open(h, exec, owner)) && old(Awaits(h.store.approvals, exec, approval)) ==>
              OnRecord(h.store.approvals, exec, approval.value, Image(result))
  {
    outcome := Settle(h, exec, owner, result, faults, approval);
    Dispose(h, exec, owner, approval, outcome, claim, cleanup);
  }

  /**
   A whole run by one uninterrupted worker: attempt, Finish, Cleanup under its own claim, the approval's
   outcome. All of it is a path of the protocol, so everything proved of every interleaving holds of it. The
   command passes Starting exactly when the attempt works, and then the row ends in what the container said. With a
   store and a daemon that answer, the run is closed, and its end is what is reported and what the approval records.
   */
  method Execute(h: Host, exec: Id, owner: Id, approval: Option<Id>, a: Attempt, faults: StoreFaults, claim: Id, cleanup: CleanupFaults)
    returns (outcome: Outcome)
    requires At(h, exec, owner, Ready) && h.workers[exec].approval == approval
    requires (a.cid.Some? ==> a.cid.value !in h.born) && Tied(h, exec) && claim !in h.claims
    modifies h, h.store
    ensures h.Continues(old(h.acts)) && exec !in h.workers && Answers(h, exec, approval)
    ensures h.startings == if old(Starts(h.View(), exec, owner, a)) then old(h.startings) + [exec] else old(h.startings)
    ensures Taken(faults) && old(Open(h, exec, owner)) ==>
      && exec in h.store.runs && h.store.runs[exec].state == Verdict(old(Starts(h.View(), exec, owner, a)), a)
      && outcome == Image(h.store.runs[exec].state)
      && (outcome == OutcomeSucceeded <==> old(Starts(h.View(), exec, owner, a)) && a.verdict == Succeeded)
    ensures Taken(faults) && old(Open(h, exec, owner)) && Clear(cleanup) ==> Closed(h, exec, h.store.runs[exec].state)
    ensures Taken(faults) && old(Open(h, exec, owner)) && old(Awaits(h.store.approvals, exec, approval)) ==>
              OnRecord(h.store.approvals, exec, approval.value, outcome)
  {
    var result := Drive(h, exec, owner, a, approval);
    outcome := Finish(h, exec, owner, approval, result, faults, claim, cleanup);
  }

  /** One transaction: the approval is spent and the run it pays for exists, or nothing happened. */
  method BeginApproved(h: Host, exec: Id, id: Id, who: Caller, owner: Id, timeoutMs: nat) returns (ok: bool)
    requires h.Valid() && exec !in h.execs
    modifies h, h.store
    ensures h.Continues(old(h.acts))
    ensures h.View() == DoBeginApproved(old(h.View()), exec, id, old(h.now), old(h.now), who, owner, timeoutMs)
    ensures ok == (CanConsume(old(h.store.View()), h.now, id, who) && exec !in old(h.store.runs))
    ensures h.startings == old(h.startings) && h.claims == old(h.claims) && h.born == old(h.born) && h.now == old(h.now)
    ensures ok ==>
      && At(h, exec, owner, Ready) && h.workers[exec].approval == Some(id)
      && Untouched(h.View(), exec, owner) && h.store.runs[exec].deadlineMs == h.now + timeoutMs + 30 * 1000
      && (old(h.store.approvals[id].outcome) == None ==> Awaits(h.store.approvals, exec, Some(id)))
    ensures !ok ==> h.store.View() == old(h.store.View())
  {
    ghost var w := h.View();
    var run := NewRun(h.now, who.session, who.agent, who.request.profile, Some(ApprovalRow(id)), owner, timeoutMs);
    ok := h.store.ConsumeIntent(h.now, id, who, exec, run);
    h.Log(Action.BeginApproved(exec, id, h.now, h.now, who, owner, timeoutMs), DoBeginApproved(w, exec, id, h.now, h.now, who, owner, timeoutMs));
  }

  /**
   A confirmed command from the approval to its outcome; `permitted` is what is checked before anything is
   written. Unless the approval is approved, unexpired and for this very call, no table changes and nothing
   starts. Otherwise the approval is spent on this run, and the command starts exactly when every call works and docker
   create answers within the timeout and half a minute. The outcome is recorded and returned: succeeded exactly when a
   started command succeeded; with a daemon that answers the run is closed.
   */
  method ExecuteApproved(h: Host, exec: Id, id: Id, who: Caller, owner: Id, timeoutMs: nat, permitted: bool,
                         a: Attempt, faults: StoreFaults, claim: Id, cleanup: CleanupFaults)
    returns (outcome: Option<Outcome>)
    requires h.Valid() && exec !in h.execs && (a.cid.Some? ==> a.cid.value !in h.born) && claim !in h.claims
    modifies h, h.store
    ensures h.Continues(old(h.acts))
    ensures outcome.Some? <==> permitted && CanConsume(old(h.store.View()), old(h.now), id, who) && exec !in old(h.store.runs)
    ensures outcome == None ==> h.store.View() == old(h.store.View()) && h.startings == old(h.startings)
    ensures outcome.Some? ==>
      h.startings == if Works(a, timeoutMs + 30 * 1000) then old(h.startings) + [exec] else old(h.startings)
    ensures outcome.Some? ==> Answers(h, exec, Some(id))
    ensures outcome.Some? && Taken(faults) ==>
      && exec in h.store.runs && h.store.runs[exec].state == Verdict(Works(a, timeoutMs + 30 * 1000), a)
      && outcome == Some(Image(h.store.runs[exec].state))
      && (outcome == Some(OutcomeSucceeded) <==> Works(a, timeoutMs + 30 * 1000) && a.verdict == Succeeded)
      && (old(h.store.approvals[id].outcome) == None ==> OnRecord(h.store.approvals, exec, id, outcome.value))
    ensures outcome.Some? && Taken(faults) && Clear(cleanup) ==> Closed(h, exec, h.store.runs[exec].state)
  {
    if !permitted { return None; }
    var ok := BeginApproved(h, exec, id, who, owner, timeoutMs);
    if !ok { return None; }
    var result := Execute(h, exec, owner, Some(id), a, faults, claim, cleanup);
    outcome := Some(result);
  }
}
