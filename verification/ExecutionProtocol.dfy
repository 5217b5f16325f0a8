/**
 Everything that can happen to an execution, one atomic step at a time.

 Any number of servers, workers and cleaners share the tables of `ExecutionTables`, one container daemon
 and one directory of private workspaces. A step is one store statement, one daemon call or one directory
 call. Between two steps of one process any other process may run, the clock may advance, and a process
 may stop for good. A statement that carries a time carries the clock value its process read some time
 before (`at`), never a later one.
 */
module ExecutionProtocol {
  import opened Base
  import opened ExecutionTables

  /** Where a worker is, in the order of `ExecuteApproved`, `execute` and `runManagedDocker`. */
  datatype WorkerPc =
    | Ready                          // the run row is committed, nothing else exists
    | Admitted                       // the workspace guard passed, the directory is not made yet
    | Equipped                       // the workspace exists
    | Requested                      // docker create was sent
    | HasContainer(cid: Id)          // docker create answered
    | Recorded(cid: Id)              // Created committed
    | Launching(cid: Id)             // Starting committed, docker start not sent
    | Launched(cid: Id)              // docker start was sent
    | Stopping                       // some step failed; only the outcome is left to record
    | Unconfirmed(result: Ending)    // Finish matched no row or reported an error; the row must be read again
    | Reporting(outcome: Outcome)    // the approval's outcome is next
    | Native                         // no run row: any other backend

  datatype Worker = Worker(owner: Id, approval: Option<Id>, pc: WorkerPc)

  /** Where a cleaner is, in the order of `Cleanup` and `RemoveManaged`. */
  datatype CleanerPc =
    | Claimed                        // the claim committed, the row is not read again yet
    | Reread                         // the row was read under the claim
    | Evidenced                      // the approval's outcome is recorded
    | Found(cid: Id)                 // a container was found, the row had none
    | Removing(cid: Id)              // a container is to be removed
    | Gone                           // no container of this run was there
    | Settling(clean: bool)          // only the final statement is left

  datatype Cleaner = Cleaner(
    exec: Id, owner: Id, untilMs: int, pc: CleanerPc,
    seen: Option<Id>, state: RunState, authority: Option<Authority>)

  datatype World = World(
    now: int,
    tables: Tables,
    workers: map<Id, Worker>,        // by run id
    cleaners: map<Id, Cleaner>,      // by claim nonce
    execs: set<Id>,                  // run ids ever drawn
    claims: set<Id>,                 // claim nonces ever drawn
    creating: set<Id>,               // runs whose create request the daemon still has to act on
    toStart: map<Id, Id>,            // start requests it still has to act on: run and container
    born: map<Id, Id>,               // every container there ever was, and the run its labels name
    live: set<Id>,                   // the ones that still exist
    dirs: set<Id>,                   // runs whose workspace exists
    startings: seq<Id>,              // runs whose Starting statement committed, in order
    launches: seq<Id>)               // runs whose container the daemon really started, in order

  datatype WorkerStep =
    | AdmitWorkspace(at: int)
    | MakeWorkspace
    | RequestContainer
    | RequestAnswered(cid: Id)
    | RecordContainer(at: int)
    | BeginStart(at: int, timeoutMs: nat)
    | Launch
    | GiveUp
    | FinishWork(at: int, result: Ending)
    | FinishErrs(at: int, result: Ending, applied: bool)   // the store reported an error; the statement may have applied
    | ReadVerdict
    | ReadFails
    | ReportOutcome
    | ReportNative(outcome: Outcome)
    | StopWorker

  datatype CleanerStep =
    | ReadClaim
    | RecordEvidence
    | InspectContainer(found: Option<Id>)
    | AdoptFound
    | RemoveContainer
    | RemoveWorkspace
    | FailCleanup
    | SettleClaim
    | StopCleaner

  datatype Action =
    | Tick(ms: nat)
    | CreateApproval(id: Id, at: int, who: Caller)
    | ResolveApproval(id: Id, at: int, session: string, actor: string, approve: bool, hash: Hash)
    | AbandonApproval(id: Id)
    | BeginApproved(exec: Id, id: Id, at: int, preparedAt: int, who: Caller, owner: Id, timeoutMs: nat)
    | BeginNative(exec: Id, id: Id, at: int, who: Caller)
    | BeginDirect(exec: Id, at: int, session: string, agent: string, profile: string, grant: Option<Id>, owner: Id, timeoutMs: nat)
    | Work(exec: Id, ws: WorkerStep)
    | ContainerAppears(exec: Id, cid: Id)
    | ContainerStarts(exec: Id)
    | ClaimRun(claim: Id, exec: Id, at: int)
    | Clean(claim: Id, cs: CleanerStep)
    | ScanAdopts(exec: Id, cid: Id, seenMs: int)

  predicate Init(w: World) {
    && w.tables == Tables(map[], map[]) && w.workers == map[] && w.cleaners == map[]
    && w.execs == {} && w.claims == {} && w.creating == {} && w.toStart == map[] && w.born == map[] && w.live == {} && w.dirs == {}
    && w.startings == [] && w.launches == []
  }

  predicate WorkerAt(w: World, exec: Id) { exec in w.workers }

  predicate CleanerAt(w: World, claim: Id) { claim in w.cleaners }

  /** A worker that still has an outcome to record in its run row. */
  predicate InFlight(pc: WorkerPc) { !pc.Unconfirmed? && !pc.Reporting? && !pc.Native? }

  /** What docker inspect can answer: by the recorded id if the row has one, by the run's name otherwise. */
  predicate TruthfulInspection(w: World, k: Cleaner, found: Option<Id>) {
    match found
    case Some(x) => x in w.live && x in w.born && w.born[x] == k.exec && (k.seen == None || k.seen == Some(x))
    case None =>
      match k.seen
      case Some(x) => x !in w.live
      case None => forall x :: x in w.live && x in w.born ==> w.born[x] != k.exec
  }

  predicate WorkEnabled(w: World, exec: Id, s: WorkerStep) {
    && WorkerAt(w, exec)
    && var pc := w.workers[exec].pc;
    match s
    case AdmitWorkspace(at) => pc == Ready && at <= w.now
    case MakeWorkspace => pc == Admitted
    case RequestContainer => pc == Equipped
    case RequestAnswered(cid) => pc == Requested && cid in w.born && w.born[cid] == exec
    case RecordContainer(at) => pc.HasContainer? && at <= w.now
    case BeginStart(at, _) => pc.Recorded? && at <= w.now
    case Launch => pc.Launching?
    case GiveUp => InFlight(pc)
    case FinishWork(at, _) => InFlight(pc) && at <= w.now
    case FinishErrs(at, _, _) => InFlight(pc) && at <= w.now
    case ReadVerdict => pc.Unconfirmed?
    case ReadFails => pc.Unconfirmed?
    case ReportOutcome => pc.Reporting?
    case ReportNative(_) => pc == Native
    case StopWorker => true
  }

  predicate CleanEnabled(w: World, claim: Id, s: CleanerStep) {
    && CleanerAt(w, claim)
    && var pc := w.cleaners[claim].pc;
    match s
    case ReadClaim => pc == Claimed
    case RecordEvidence => pc == Reread
    case InspectContainer(found) => pc == Evidenced && TruthfulInspection(w, w.cleaners[claim], found)
    case AdoptFound => pc.Found?
    case RemoveContainer => pc.Removing?
    case RemoveWorkspace => pc == Gone
    case FailCleanup => pc == Evidenced || pc.Found? || pc.Removing? || pc == Gone
    case SettleClaim => pc.Settling?
    case StopCleaner => true
  }

  predicate Enabled(w: World, a: Action) {
    match a
    case Tick(_) => true
    case CreateApproval(id, at, _) => id !in w.tables.approvals && at <= w.now
    case ResolveApproval(_, at, _, _, _, _) => at <= w.now
    case AbandonApproval(_) => true
    case BeginApproved(exec, _, at, preparedAt, _, _, _) => exec !in w.execs && preparedAt <= at <= w.now
    case BeginNative(exec, _, at, _) => exec !in w.execs && at <= w.now
    case BeginDirect(exec, at, _, _, _, _, _, _) => exec !in w.execs && at <= w.now
    case Work(exec, s) => WorkEnabled(w, exec, s)
    case ContainerAppears(exec, cid) => exec in w.creating && cid !in w.born
    case ContainerStarts(exec) => exec in w.toStart
    case ClaimRun(claim, exec, at) => claim !in w.claims && exec in w.tables.runs && at <= w.now
    case Clean(claim, s) => CleanEnabled(w, claim, s)
    case ScanAdopts(exec, cid, seenMs) => exec in w.tables.runs && cid in w.born && w.born[cid] == exec && seenMs <= w.now
  }

  function AtPc(w: World, exec: Id, pc: WorkerPc): World
    requires WorkerAt(w, exec)
  {
    w.(workers := w.workers[exec := w.workers[exec].(pc := pc)])
  }

  function CleanerAtPc(w: World, claim: Id, pc: CleanerPc): World
    requires CleanerAt(w, claim)
  {
    w.(cleaners := w.cleaners[claim := w.cleaners[claim].(pc := pc)])
  }

  // ---------- steps of a worker ----------

  function DoBeginApproved(w: World, exec: Id, id: Id, at: int, preparedAt: int, who: Caller, owner: Id, timeoutMs: nat): World {
    var run := NewRun(preparedAt, who.session, who.agent, who.request.profile, Some(ApprovalRow(id)), owner, timeoutMs);
    var (tables, ok) := Consume(w.tables, at, id, who, exec, run);
    w.(tables := tables, execs := w.execs + {exec},
       workers := if ok then w.workers[exec := Worker(owner, Some(id), Ready)] else w.workers)
  }

  function DoBeginNative(w: World, exec: Id, id: Id, at: int, who: Caller): World {
    var (tables, ok) := ConsumeNative(w.tables, at, id, who);
    w.(tables := tables, execs := w.execs + {exec},
       workers := if ok then w.workers[exec := Worker(0, Some(id), Native)] else w.workers)
  }

  function DoBeginDirect(w: World, exec: Id, at: int, session: string, agent: string, profile: string,
                         grant: Option<Id>, owner: Id, timeoutMs: nat): World {
    var authority := if grant.Some? then Some(SessionGrant(grant.value)) else None;
    var (tables, ok) := InsertRun(w.tables, exec, NewRun(at, session, agent, profile, authority, owner, timeoutMs));
    w.(tables := tables, execs := w.execs + {exec},
       workers := if ok then w.workers[exec := Worker(owner, None, Ready)] else w.workers)
  }

  function DoAdmitWorkspace(w: World, exec: Id, at: int): World
    requires WorkerAt(w, exec)
  {
    AtPc(w, exec, if WorkspaceAllowed(w.tables, at, exec, w.workers[exec].owner) then Admitted else Stopping)
  }

  function DoRecordContainer(w: World, exec: Id, at: int): World
    requires WorkerAt(w, exec) && w.workers[exec].pc.HasContainer?
  {
    var cid := w.workers[exec].pc.cid;
    var (tables, ok) := Created(w.tables, at, exec, w.workers[exec].owner, cid);
    AtPc(w.(tables := tables), exec, if ok then Recorded(cid) else Stopping)
  }

  function DoBeginStart(w: World, exec: Id, at: int, timeoutMs: nat): World
    requires WorkerAt(w, exec) && w.workers[exec].pc.Recorded?
  {
    var (tables, ok) := Starting(w.tables, at, exec, w.workers[exec].owner, timeoutMs);
    AtPc(w.(tables := tables, startings := if ok then w.startings + [exec] else w.startings), exec,
         if ok then Launching(w.workers[exec].pc.cid) else Stopping)
  }

  /** docker start is sent; whether or when the daemon acts on it no longer depends on the worker. */
  function DoLaunch(w: World, exec: Id): World
    requires WorkerAt(w, exec) && w.workers[exec].pc.Launching?
  {
    var cid := w.workers[exec].pc.cid;
    AtPc(w.(toStart := w.toStart[exec := cid]), exec, Launched(cid))
  }

  /** The daemon acts on a start request: it works exactly when the container still exists. */
  function DoContainerStarts(w: World, exec: Id): World
    requires exec in w.toStart
  {
    w.(toStart := w.toStart - {exec}, launches := if w.toStart[exec] in w.live then w.launches + [exec] else w.launches)
  }

  function DoFinishWork(w: World, exec: Id, at: int, result: Ending): World
    requires WorkerAt(w, exec)
  {
    var (tables, ok) := FinishRun(w.tables, at, exec, w.workers[exec].owner, result);
    AtPc(w.(tables := tables), exec, if ok then Reporting(Image(result)) else Unconfirmed(result))
  }

  function DoFinishErrs(w: World, exec: Id, at: int, result: Ending, applied: bool): World
    requires WorkerAt(w, exec)
  {
    var tables := if applied then FinishRun(w.tables, at, exec, w.workers[exec].owner, result).0 else w.tables;
    AtPc(w.(tables := tables), exec, Unconfirmed(result))
  }

  /** The row is read: only "unknown" overrides what the worker saw itself. */
  function DoReadVerdict(w: World, exec: Id): World
    requires WorkerAt(w, exec) && w.workers[exec].pc.Unconfirmed?
  {
    var unknown := exec in w.tables.runs && w.tables.runs[exec].state == Unknown;
    AtPc(w, exec, Reporting(if unknown then OutcomeUnknown else Image(w.workers[exec].pc.result)))
  }

  function DoReport(w: World, exec: Id, outcome: Outcome): World
    requires WorkerAt(w, exec)
  {
    var tables := match w.workers[exec].approval
                  case Some(id) => FinishApproval(w.tables, id, exec, outcome).0
                  case None => w.tables;
    w.(tables := tables, workers := w.workers - {exec})
  }

  // ---------- steps of a cleaner ----------

  function DoClaimRun(w: World, claim: Id, exec: Id, at: int): World
    requires exec in w.tables.runs
  {
    var owner := w.tables.runs[exec].owner;
    var (tables, ok) := Claim(w.tables, at, exec, owner, claim);
    w.(tables := tables, claims := w.claims + {claim},
       cleaners := if ok then w.cleaners[claim := Cleaner(exec, owner, at + CLEANUP_LEASE_MS, Claimed, None, Unknown, None)]
                   else w.cleaners)
  }

  function DoReadClaim(w: World, claim: Id): World
    requires CleanerAt(w, claim)
  {
    var k := w.cleaners[claim];
    if k.exec in w.tables.runs && w.tables.runs[k.exec].cleanupOwner == Some(claim) then
      var r := w.tables.runs[k.exec];
      w.(cleaners := w.cleaners[claim := k.(pc := Reread, seen := r.containerId, state := r.state, authority := r.authority)])
    else w.(cleaners := w.cleaners - {claim})
  }

  function DoRecordEvidence(w: World, claim: Id): World
    requires CleanerAt(w, claim)
  {
    var k := w.cleaners[claim];
    CleanerAtPc(w.(tables := RecordOutcome(w.tables, k.exec, k.authority, k.state).0), claim, Evidenced)
  }

  function DoInspectContainer(w: World, claim: Id, found: Option<Id>): World
    requires CleanerAt(w, claim)
  {
    match found
    case None => CleanerAtPc(w, claim, Gone)
    case Some(x) => CleanerAtPc(w, claim, if w.cleaners[claim].seen == None then Found(x) else Removing(x))
  }

  function DoAdoptFound(w: World, claim: Id): World
    requires CleanerAt(w, claim) && w.cleaners[claim].pc.Found?
  {
    var k := w.cleaners[claim];
    var (tables, ok) := AdoptByCleaner(w.tables, k.exec, k.owner, k.pc.cid, claim);
    CleanerAtPc(w.(tables := tables), claim, if ok then Removing(k.pc.cid) else Settling(false))
  }

  function DoRemoveContainer(w: World, claim: Id): World
    requires CleanerAt(w, claim) && w.cleaners[claim].pc.Removing?
  {
    CleanerAtPc(w.(live := w.live - {w.cleaners[claim].pc.cid}), claim, Gone)
  }

  function DoRemoveWorkspace(w: World, claim: Id): World
    requires CleanerAt(w, claim)
  {
    CleanerAtPc(w.(dirs := w.dirs - {w.cleaners[claim].exec}), claim, Settling(true))
  }

  function DoSettleClaim(w: World, claim: Id): World
    requires CleanerAt(w, claim) && w.cleaners[claim].pc.Settling?
  {
    var k := w.cleaners[claim];
    w.(tables := Settle(w.tables, k.exec, claim, k.pc.clean).0, cleaners := w.cleaners - {claim})
  }

  function ApplyWork(w: World, exec: Id, s: WorkerStep): World
    requires WorkEnabled(w, exec, s)
  {
    match s
    case AdmitWorkspace(at) => DoAdmitWorkspace(w, exec, at)
    case MakeWorkspace => AtPc(w.(dirs := w.dirs + {exec}), exec, Equipped)
    case RequestContainer => AtPc(w.(creating := w.creating + {exec}), exec, Requested)
    case RequestAnswered(cid) => AtPc(w, exec, HasContainer(cid))
    case RecordContainer(at) => DoRecordContainer(w, exec, at)
    case BeginStart(at, timeoutMs) => DoBeginStart(w, exec, at, timeoutMs)
    case Launch => DoLaunch(w, exec)
    case GiveUp => AtPc(w, exec, Stopping)
    case FinishWork(at, result) => DoFinishWork(w, exec, at, result)
    case FinishErrs(at, result, applied) => DoFinishErrs(w, exec, at, result, applied)
    case ReadVerdict => DoReadVerdict(w, exec)
    case ReadFails => AtPc(w, exec, Reporting(Image(w.workers[exec].pc.result)))
    case ReportOutcome => DoReport(w, exec, w.workers[exec].pc.outcome)
    case ReportNative(outcome) => DoReport(w, exec, outcome)
    case StopWorker => w.(workers := w.workers - {exec})
  }

  function ApplyClean(w: World, claim: Id, s: CleanerStep): World
    requires CleanEnabled(w, claim, s)
  {
    match s
    case ReadClaim => DoReadClaim(w, claim)
    case RecordEvidence => DoRecordEvidence(w, claim)
    case InspectContainer(found) => DoInspectContainer(w, claim, found)
    case AdoptFound => DoAdoptFound(w, claim)
    case RemoveContainer => DoRemoveContainer(w, claim)
    case RemoveWorkspace => DoRemoveWorkspace(w, claim)
    case FailCleanup => CleanerAtPc(w, claim, Settling(false))
    case SettleClaim => DoSettleClaim(w, claim)
    case StopCleaner => w.(cleaners := w.cleaners - {claim})
  }

  /** The one next world of an enabled action. */
  function Apply(w: World, a: Action): World
    requires Enabled(w, a)
  {
    match a
    case Tick(ms) => w.(now := w.now + ms)
    case CreateApproval(id, at, who) =>
      w.(tables := w.tables.(approvals := w.tables.approvals[id :=
           NewApproval(at, who.session, who.agent, who.call, who.request, who.hash)]))
    case ResolveApproval(id, at, session, actor, approve, hash) =>
      w.(tables := Resolve(w.tables, at, id, session, actor, approve, hash).0)
    case AbandonApproval(id) => w.(tables := Abandon(w.tables, id).0)
    case BeginApproved(exec, id, at, preparedAt, who, owner, timeoutMs) =>
      DoBeginApproved(w, exec, id, at, preparedAt, who, owner, timeoutMs)
    case BeginNative(exec, id, at, who) => DoBeginNative(w, exec, id, at, who)
    case BeginDirect(exec, at, session, agent, profile, grant, owner, timeoutMs) =>
      DoBeginDirect(w, exec, at, session, agent, profile, grant, owner, timeoutMs)
    case Work(exec, s) => ApplyWork(w, exec, s)
    case ContainerAppears(exec, cid) =>
      w.(creating := w.creating - {exec}, born := w.born[cid := exec], live := w.live + {cid})
    case ContainerStarts(exec) => DoContainerStarts(w, exec)
    case ClaimRun(claim, exec, at) => DoClaimRun(w, claim, exec, at)
    case Clean(claim, s) => ApplyClean(w, claim, s)
    case ScanAdopts(exec, cid, seenMs) =>
      w.(tables := AdoptByScan(w.tables, seenMs, exec, w.tables.runs[exec].owner, cid).0)
  }

  /** Consecutive worlds, each following from the one before by an enabled action. */
  ghost predicate IsPath(ws: seq<World>, acts: seq<Action>) {
    && |ws| == |acts| + 1
    && forall i :: 0 <= i < |acts| ==> Enabled(ws[i], acts[i]) && ws[i + 1] == Apply(ws[i], acts[i])
  }

  /** One more enabled action at the end of a path. */
  lemma ExtendPath(ws: seq<World>, acts: seq<Action>, a: Action, w: World)
    requires IsPath(ws, acts) && Enabled(ws[|acts|], a) && Apply(ws[|acts|], a) == w
    ensures IsPath(ws + [w], acts + [a])
  {
  }

  /** A run of the system starts from empty tables. */
  ghost predicate IsRun(ws: seq<World>, acts: seq<Action>) {
    IsPath(ws, acts) && Init(ws[0])
  }
}
