/**
 The two tables behind command execution, and the SQL statements that change them.

 `execution_approvals` holds one row per request for a person's consent, `execution_runs` one row per
 container-backed run. Every `UPDATE ... WHERE` is one function here: it applies to at most one row and
 reports whether it did, which is all the callers look at. Statements of one transaction are one function.
 */
module ExecutionTables {
  import opened Base

  /** A random 128-bit identifier: approval, grant, run, lease nonce or container id. */
  type Id = nat
  type Hash = nat

  const APPROVAL_TTL_MS := 600000
  const STARTUP_GRACE_MS := 30000
  const CLEANUP_LEASE_MS := 30000

  datatype ApprovalState = Pending | Approved | Rejected | Consumed | Abandoned

  datatype Outcome = OutcomeSucceeded | OutcomeFailed | OutcomeUnknown

  datatype Request = Request(command: string, purpose: string, profile: string, timeoutSec: int)

  datatype Approval = Approval(
    session: string,
    agent: string,
    call: string,
    request: Request,
    configHash: Hash,
    state: ApprovalState,
    createdMs: int,
    expiresMs: int,
    resolvedMs: int,
    resolvedBy: string,
    execId: Option<Id>,
    outcome: Option<Outcome>)

  datatype RunState = Prepared | Running | Succeeded | Failed | TimedOut | Cancelled | Unknown

  predicate Terminal(s: RunState) { s != Prepared && s != Running }

  /** What a worker can observe: `observationOutcome` never names an in-flight state. */
  type Ending = s: RunState | Terminal(s) witness Failed

  /** The approval outcome a terminal run state stands for. */
  function Image(s: RunState): Outcome {
    match s
    case Succeeded => OutcomeSucceeded
    case Failed | TimedOut | Cancelled => OutcomeFailed
    case Unknown | Prepared | Running => OutcomeUnknown
  }

  datatype CleanupState = CleanupPending | Cleaning | Cleaned

  /** What the approval_id column names. The two id spaces are disjoint ("approval_", "grant_"). */
  datatype Authority = ApprovalRow(id: Id) | SessionGrant(id: Id)

  datatype Run = Run(
    session: string,
    agent: string,
    profile: string,
    authority: Option<Authority>,
    owner: Id,
    containerId: Option<Id>,
    state: RunState,
    createdMs: int,
    deadlineMs: int,
    endedMs: int,
    cleanup: CleanupState,
    cleanupOwner: Option<Id>,
    cleanupUntilMs: int,
    cleanupFailed: bool)

  datatype Tables = Tables(approvals: map<Id, Approval>, runs: map<Id, Run>)

  // ---------- approvals ----------

  function NewApproval(now: int, session: string, agent: string, call: string, request: Request, hash: Hash): Approval {
    Approval(session, agent, call, request, hash, Pending, now, now + APPROVAL_TTL_MS, 0, "", None, None)
  }

  /** The state shown to a person: a pending row past its time or its configuration is already dead. */
  datatype ShownState = Stored(state: ApprovalState) | Expired | Invalidated

  function EffectiveState(a: Approval, now: int, hash: Hash): ShownState {
    if a.state != Pending then Stored(a.state)
    else if a.expiresMs <= now then Expired
    else if a.configHash != hash then Invalidated
    else Stored(Pending)
  }

  predicate CanResolve(t: Tables, now: int, id: Id, session: string, approve: bool, hash: Hash) {
    && id in t.approvals
    && t.approvals[id].session == session
    && t.approvals[id].state == Pending
    && (approve ==> now < t.approvals[id].expiresMs && t.approvals[id].configHash == hash)
  }

  function Resolve(t: Tables, now: int, id: Id, session: string, actor: string, approve: bool, hash: Hash): (Tables, bool) {
    if CanResolve(t, now, id, session, approve, hash) then
      var state := if approve then Approved else Rejected;
      (t.(approvals := t.approvals[id := t.approvals[id].(state := state, resolvedMs := now, resolvedBy := actor)]), true)
    else (t, false)
  }

  /** The caller of an approved command: who asks, for which call, with which configuration loaded. */
  datatype Caller = Caller(agent: string, session: string, call: string, request: Request, hash: Hash)

  predicate CanConsume(t: Tables, now: int, id: Id, c: Caller) {
    && id in t.approvals
    && t.approvals[id].agent == c.agent
    && t.approvals[id].session == c.session
    && t.approvals[id].call == c.call
    && t.approvals[id].request == c.request
    && t.approvals[id].state == Approved
    && t.approvals[id].configHash == c.hash
    && now < t.approvals[id].expiresMs
  }

  predicate IntentMatches(id: Id, c: Caller, run: Run) {
    && run.authority == Some(ApprovalRow(id))
    && run.agent == c.agent
    && run.session == c.session
    && run.profile == c.request.profile
  }

  /** One transaction: mark the approval consumed, insert the run it pays for, and link the two. */
  function Consume(t: Tables, now: int, id: Id, c: Caller, exec: Id, run: Run): (Tables, bool) {
    if CanConsume(t, now, id, c) && IntentMatches(id, c, run) && exec !in t.runs then
      (Tables(t.approvals[id := t.approvals[id].(state := Consumed, execId := Some(exec))], t.runs[exec := run]), true)
    else (t, false)
  }

  /** The same without a run row, for the backends that keep none. */
  function ConsumeNative(t: Tables, now: int, id: Id, c: Caller): (Tables, bool) {
    if CanConsume(t, now, id, c) then
      (t.(approvals := t.approvals[id := t.approvals[id].(state := Consumed)]), true)
    else (t, false)
  }

  function FinishApproval(t: Tables, id: Id, exec: Id, outcome: Outcome): (Tables, bool) {
    if && id in t.approvals && t.approvals[id].state == Consumed && t.approvals[id].outcome == None
       && (t.approvals[id].execId == None || t.approvals[id].execId == Some(exec))
    then (t.(approvals := t.approvals[id := t.approvals[id].(execId := Some(exec), outcome := Some(outcome))]), true)
    else (t, false)
  }

  function Abandon(t: Tables, id: Id): (Tables, bool) {
    if id in t.approvals && t.approvals[id].state == Approved then
      (t.(approvals := t.approvals[id := t.approvals[id].(state := Abandoned)]), true)
    else (t, false)
  }

  // ---------- runs ----------

  /** The row a worker prepares before anything else exists. */
  function NewRun(now: int, session: string, agent: string, profile: string, authority: Option<Authority>, owner: Id, timeoutMs: nat): Run {
    Run(session, agent, profile, authority, owner, None, Prepared, now, now + timeoutMs + STARTUP_GRACE_MS, 0,
        CleanupPending, None, 0, false)
  }

  function InsertRun(t: Tables, exec: Id, run: Run): (Tables, bool) {
    if exec in t.runs then (t, false) else (t.(runs := t.runs[exec := run]), true)
  }

  /** The read guard in front of creating the private workspace. */
  predicate WorkspaceAllowed(t: Tables, now: int, exec: Id, owner: Id) {
    && exec in t.runs
    && t.runs[exec].owner == owner
    && t.runs[exec].state == Prepared
    && t.runs[exec].cleanup == CleanupPending
    && now < t.runs[exec].deadlineMs
  }

  function Created(t: Tables, now: int, exec: Id, owner: Id, cid: Id): (Tables, bool) {
    if WorkspaceAllowed(t, now, exec, owner) && t.runs[exec].containerId == None then
      (t.(runs := t.runs[exec := t.runs[exec].(containerId := Some(cid))]), true)
    else (t, false)
  }

  function Starting(t: Tables, now: int, exec: Id, owner: Id, timeoutMs: nat): (Tables, bool) {
    if WorkspaceAllowed(t, now, exec, owner) && t.runs[exec].containerId != None then
      (t.(runs := t.runs[exec := t.runs[exec].(state := Running, deadlineMs := now + timeoutMs + STARTUP_GRACE_MS)]), true)
    else (t, false)
  }

  function FinishRun(t: Tables, now: int, exec: Id, owner: Id, result: Ending): (Tables, bool) {
    if && exec in t.runs && t.runs[exec].owner == owner
       && !Terminal(t.runs[exec].state) && t.runs[exec].cleanup == CleanupPending
    then (t.(runs := t.runs[exec := t.runs[exec].(state := result, endedMs := now)]), true)
    else (t, false)
  }

  predicate Claimable(r: Run, now: int) {
    && (Terminal(r.state) || r.deadlineMs <= now)
    && (r.cleanup != Cleaning || r.cleanupUntilMs <= now)
  }

  /** A cleaner takes the row. A run still in flight becomes unknown in the same statement. */
  function Claim(t: Tables, now: int, exec: Id, owner: Id, claim: Id): (Tables, bool) {
    if exec in t.runs && t.runs[exec].owner == owner && Claimable(t.runs[exec], now) then
      var r := t.runs[exec];
      (t.(runs := t.runs[exec := r.(
            cleanup := Cleaning, cleanupOwner := Some(claim), cleanupUntilMs := now + CLEANUP_LEASE_MS,
            state := if Terminal(r.state) then r.state else Unknown,
            endedMs := if r.endedMs == 0 then now else r.endedMs)]), true)
    else (t, false)
  }

  /** Approval evidence written by a cleaner before it touches any resource. */
  function RecordOutcome(t: Tables, exec: Id, authority: Option<Authority>, state: RunState): (Tables, bool) {
    if && authority.Some? && authority.value.ApprovalRow? && authority.value.id in t.approvals
       && t.approvals[authority.value.id].state == Consumed && t.approvals[authority.value.id].outcome == None
    then
      var id := authority.value.id;
      (t.(approvals := t.approvals[id := t.approvals[id].(execId := Some(exec), outcome := Some(Image(state)))]), true)
    else (t, false)
  }

  /** A cleaner that found a container under a run without one records it, if its claim is still current. */
  function AdoptByCleaner(t: Tables, exec: Id, owner: Id, cid: Id, claim: Id): (Tables, bool) {
    if && exec in t.runs && t.runs[exec].owner == owner && t.runs[exec].containerId == None
       && t.runs[exec].cleanupOwner == Some(claim)
    then (t.(runs := t.runs[exec := t.runs[exec].(containerId := Some(cid))]), true)
    else (t, false)
  }

  /** The recovery scan does the same without a claim, using the clock value it started with. */
  function AdoptByScan(t: Tables, seenMs: int, exec: Id, owner: Id, cid: Id): (Tables, bool) {
    if && exec in t.runs && t.runs[exec].owner == owner && t.runs[exec].containerId == None
       && (Terminal(t.runs[exec].state) || t.runs[exec].deadlineMs <= seenMs)
    then (t.(runs := t.runs[exec := t.runs[exec].(containerId := Some(cid))]), true)
    else (t, false)
  }

  function Settle(t: Tables, exec: Id, claim: Id, clean: bool): (Tables, bool) {
    if exec in t.runs && t.runs[exec].cleanupOwner == Some(claim) then
      (t.(runs := t.runs[exec := t.runs[exec].(
            cleanup := if clean then Cleaned else CleanupPending, cleanupFailed := !clean, cleanupUntilMs := 0)]), true)
    else (t, false)
  }
}
