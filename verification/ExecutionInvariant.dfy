/** What every reachable world satisfies, and the proof that every action keeps it. */
module ExecutionInvariant {
  import opened Base
  import opened ExecutionTables
  import opened ExecutionProtocol

  /** Starting committed for this run. */
  predicate Started(w: World, e: Id) { e in w.startings }

  /** The container the run row names, if any, no longer exists. */
  predicate ContainerGone(w: World, r: Run) { r.containerId.Some? ==> r.containerId.value !in w.live }

  predicate BornFor(w: World, cid: Id, e: Id) { cid in w.born && w.born[cid] == e }

  // ---------- one row, one process ----------

  predicate ApprovalFits(a: Approval) {
    && (a.execId.Some? ==> a.state == Consumed)
    && (a.outcome.Some? ==> a.execId.Some?)
  }

  predicate RunFits(r: Run, started: bool, gone: bool, dir: bool) {
    && (r.cleanup != CleanupPending ==> Terminal(r.state))
    && (r.state == Prepared ==> !started)
    && (started ==> r.containerId.Some?)
    && (started && r.cleanup == Cleaned ==> gone)
    && (started && !gone ==> dir)
  }

  /** A run that names an approval row is the only one that can, because the row names it back. */
  predicate LinkFits(t: Tables, e: Id, authority: Option<Authority>) {
    authority.Some? && authority.value.ApprovalRow? ==>
      && authority.value.id in t.approvals
      && t.approvals[authority.value.id].state == Consumed
      && t.approvals[authority.value.id].execId == Some(e)
  }

  predicate WorkerFits(k: Worker, r: Run, started: bool, launched: bool, dir: bool) {
    && k.pc != Native
    && k.owner == r.owner
    && (k.approval.Some? ==> r.authority == Some(ApprovalRow(k.approval.value)))
    && (InFlight(k.pc) ==> !Terminal(r.state) || r.state == Unknown)
    && (k.pc.Recorded? || k.pc.Launching? || k.pc.Launched? ==> r.containerId == Some(k.pc.cid))
    && (k.pc.Launching? ==> started && !launched)
    && (k.pc.Equipped? || k.pc.Requested? || k.pc.HasContainer? || k.pc.Recorded? ==> Terminal(r.state) || dir)
    && (k.pc.Unconfirmed? ==> !Terminal(r.state) || r.state == Unknown || r.state == k.pc.result)
  }

  predicate CleanerFits(c: Id, k: Cleaner, r: Run, started: bool, gone: bool, now: int) {
    && Terminal(r.state)
    && (now >= k.untilMs || (r.cleanup == Cleaning && r.cleanupOwner == Some(c) && r.cleanupUntilMs == k.untilMs))
    && (k.pc != Claimed ==>
          && k.state == r.state
          && k.authority == r.authority
          && (k.seen.Some? || started ==> k.seen == r.containerId))
    && (k.pc.Found? ==> !started)
    && (k.pc.Removing? ==> r.containerId == Some(k.pc.cid))
    && (k.pc == Gone || k.pc == Settling(true) ==> started ==> gone)
  }

  // ---------- all of them ----------

  /** Everything the world says about one identifier as a run. */
  predicate RunSound(w: World, e: Id) {
    && (e in w.startings ==> e in w.tables.runs)
    && (e in w.launches ==> e in w.startings)
    && (e in w.tables.runs ==>
          var r := w.tables.runs[e];
          && e in w.execs
          && RunFits(r, Started(w, e), ContainerGone(w, r), e in w.dirs)
          && LinkFits(w.tables, e, r.authority)
          && (r.containerId.Some? ==> BornFor(w, r.containerId.value, e)))
    && (e in w.toStart ==>
          && e in w.startings && e !in w.launches
          && e in w.tables.runs && w.tables.runs[e].containerId == Some(w.toStart[e]))
  }

  predicate WorkerSound(w: World, e: Id) {
    e in w.workers ==>
      var k := w.workers[e];
      && e in w.execs
      && (if e in w.tables.runs then
            WorkerFits(k, w.tables.runs[e], Started(w, e), e in w.launches || e in w.toStart, e in w.dirs)
          else k.pc == Native)
      && (k.pc.HasContainer? ==> BornFor(w, k.pc.cid, e))
  }

  predicate CleanerSound(w: World, c: Id) {
    c in w.cleaners ==>
      var k := w.cleaners[c];
      && c in w.claims
      && k.exec in w.tables.runs
      && CleanerFits(c, k, w.tables.runs[k.exec], Started(w, k.exec), ContainerGone(w, w.tables.runs[k.exec]), w.now)
      && (k.pc.Found? ==> BornFor(w, k.pc.cid, k.exec))
  }

  /** One identifier in whichever role it appears. */
  predicate Sound(w: World, k: Id) {
    && RunSound(w, k)
    && WorkerSound(w, k)
    && CleanerSound(w, k)
    && (k in w.tables.approvals ==> ApprovalFits(w.tables.approvals[k]))
    && (k in w.live ==> k in w.born)
  }

  ghost predicate Inv(w: World) {
    && (forall k: Id :: Sound(w, k))
    && NoDup(w.startings)
    && NoDup(w.launches)
  }

  /** What one identifier's facts can depend on: itself, and the run a cleaner works for. */
  ghost predicate SoundAround(w: World, k: Id) {
    Sound(w, k) && (k in w.cleaners ==> Sound(w, w.cleaners[k].exec))
  }

  // ---------- every action keeps the invariant ----------

  lemma KeepTick(w: World, ms: nat, k: Id)
    requires SoundAround(w, k)
    ensures Sound(w.(now := w.now + ms), k)
  {
  }

  lemma KeepCreateApproval(w: World, id: Id, a: Approval, k: Id)
    requires SoundAround(w, k) && id !in w.tables.approvals && a.execId == None && a.outcome == None
    ensures Sound(w.(tables := w.tables.(approvals := w.tables.approvals[id := a])), k)
  {
  }

  lemma KeepResolve(w: World, id: Id, at: int, session: string, actor: string, approve: bool, hash: Hash, k: Id)
    requires SoundAround(w, k)
    ensures Sound(w.(tables := Resolve(w.tables, at, id, session, actor, approve, hash).0), k)
  {
  }

  lemma KeepAbandon(w: World, id: Id, k: Id)
    requires SoundAround(w, k)
    ensures Sound(w.(tables := Abandon(w.tables, id).0), k)
  {
  }

  lemma KeepBeginApproved(w: World, exec: Id, id: Id, at: int, preparedAt: int, who: Caller, owner: Id, timeoutMs: nat, k: Id)
    requires SoundAround(w, k) && exec !in w.execs
    ensures Sound(DoBeginApproved(w, exec, id, at, preparedAt, who, owner, timeoutMs), k)
  {
  }

  lemma KeepBeginNative(w: World, exec: Id, id: Id, at: int, who: Caller, k: Id)
    requires SoundAround(w, k) && exec !in w.execs
    ensures Sound(DoBeginNative(w, exec, id, at, who), k)
  {
  }

  lemma KeepBeginDirect(w: World, exec: Id, at: int, session: string, agent: string, profile: string,
        grant: Option<Id>, owner: Id, timeoutMs: nat, k: Id)
    requires SoundAround(w, k) && exec !in w.execs
    ensures Sound(DoBeginDirect(w, exec, at, session, agent, profile, grant, owner, timeoutMs), k)
  {
  }

  lemma KeepAdmitWorkspace(w: World, exec: Id, at: int, k: Id)
    requires SoundAround(w, k) && Sound(w, exec) && WorkerAt(w, exec) && w.workers[exec].pc == Ready
    ensures Sound(DoAdmitWorkspace(w, exec, at), k)
  {
  }

  lemma KeepMakeWorkspace(w: World, exec: Id, k: Id)
    requires SoundAround(w, k) && Sound(w, exec) && WorkerAt(w, exec) && w.workers[exec].pc == Admitted
    ensures Sound(AtPc(w.(dirs := w.dirs + {exec}), exec, Equipped), k)
  {
  }

  lemma KeepRequest(w: World, exec: Id, k: Id)
    requires SoundAround(w, k) && Sound(w, exec) && WorkerAt(w, exec) && w.workers[exec].pc == Equipped
    ensures Sound(AtPc(w.(creating := w.creating + {exec}), exec, Requested), k)
  {
  }

  lemma KeepGiveUp(w: World, exec: Id, k: Id)
    requires SoundAround(w, k) && Sound(w, exec) && WorkerAt(w, exec) && InFlight(w.workers[exec].pc)
    ensures Sound(AtPc(w, exec, Stopping), k)
  {
  }

  lemma KeepAppears(w: World, exec: Id, cid: Id, k: Id)
    requires SoundAround(w, k) && cid !in w.born
    ensures Sound(w.(creating := w.creating - {exec}, born := w.born[cid := exec], live := w.live + {cid}), k)
  {
  }

  lemma KeepAnswered(w: World, exec: Id, cid: Id, k: Id)
    requires SoundAround(w, k) && Sound(w, exec) && WorkerAt(w, exec) && w.workers[exec].pc == Requested && cid in w.born && w.born[cid] == exec
    ensures Sound(AtPc(w, exec, HasContainer(cid)), k)
  {
  }

  lemma RecordContainerKeepsRun(w: World, exec: Id, at: int, k: Id)
    requires RunSound(w, k) && WorkerSound(w, exec) && RunSound(w, exec) && WorkerAt(w, exec) && w.workers[exec].pc.HasContainer?
    ensures RunSound(DoRecordContainer(w, exec, at), k)
  {
  }

  lemma RecordContainerKeepsWorker(w: World, exec: Id, at: int, k: Id)
    requires RunSound(w, k) && WorkerSound(w, k) && WorkerSound(w, exec) && RunSound(w, exec) && WorkerAt(w, exec) && w.workers[exec].pc.HasContainer?
    ensures WorkerSound(DoRecordContainer(w, exec, at), k)
  {
  }

  lemma RecordContainerKeepsCleaner(w: World, exec: Id, at: int, k: Id)
    requires CleanerSound(w, k) && WorkerSound(w, exec) && RunSound(w, exec) && WorkerAt(w, exec) && w.workers[exec].pc.HasContainer?
    ensures CleanerSound(DoRecordContainer(w, exec, at), k)
  {
  }

  lemma KeepRecordContainer(w: World, exec: Id, at: int, k: Id)
    requires SoundAround(w, k) && Sound(w, exec) && WorkerAt(w, exec) && w.workers[exec].pc.HasContainer?
    ensures Sound(DoRecordContainer(w, exec, at), k)
  {
    RecordContainerKeepsRun(w, exec, at, k);
    RecordContainerKeepsWorker(w, exec, at, k);
    RecordContainerKeepsCleaner(w, exec, at, k);
  }

  lemma BeginStartKeepsRun(w: World, exec: Id, at: int, timeoutMs: nat, k: Id)
    requires RunSound(w, k) && WorkerSound(w, exec) && RunSound(w, exec) && WorkerAt(w, exec) && w.workers[exec].pc.Recorded?
    ensures RunSound(DoBeginStart(w, exec, at, timeoutMs), k)
  {
  }

  lemma BeginStartKeepsWorker(w: World, exec: Id, at: int, timeoutMs: nat, k: Id)
    requires RunSound(w, k) && WorkerSound(w, k) && WorkerSound(w, exec) && RunSound(w, exec) && WorkerAt(w, exec) && w.workers[exec].pc.Recorded?
    ensures WorkerSound(DoBeginStart(w, exec, at, timeoutMs), k)
  {
  }

  lemma BeginStartKeepsCleaner(w: World, exec: Id, at: int, timeoutMs: nat, k: Id)
    requires CleanerSound(w, k) && WorkerSound(w, exec) && RunSound(w, exec) && WorkerAt(w, exec) && w.workers[exec].pc.Recorded?
    ensures CleanerSound(DoBeginStart(w, exec, at, timeoutMs), k)
  {
  }

  lemma KeepBeginStart(w: World, exec: Id, at: int, timeoutMs: nat, k: Id)
    requires SoundAround(w, k) && Sound(w, exec) && WorkerAt(w, exec) && w.workers[exec].pc.Recorded?
    ensures Sound(DoBeginStart(w, exec, at, timeoutMs), k)
  {
    BeginStartKeepsRun(w, exec, at, timeoutMs, k);
    BeginStartKeepsWorker(w, exec, at, timeoutMs, k);
    BeginStartKeepsCleaner(w, exec, at, timeoutMs, k);
  }

  lemma KeepLaunch(w: World, exec: Id, k: Id)
    requires SoundAround(w, k) && Sound(w, exec) && WorkerAt(w, exec) && w.workers[exec].pc.Launching?
    ensures Sound(DoLaunch(w, exec), k)
  {
  }

  lemma KeepContainerStarts(w: World, exec: Id, k: Id)
    requires SoundAround(w, k) && Sound(w, exec) && exec in w.toStart
    ensures Sound(DoContainerStarts(w, exec), k)
  {
  }

  lemma FinishWorkKeepsRun(w: World, exec: Id, at: int, result: Ending, k: Id)
    requires RunSound(w, k) && WorkerSound(w, exec) && RunSound(w, exec) && WorkerAt(w, exec) && InFlight(w.workers[exec].pc)
    ensures RunSound(DoFinishWork(w, exec, at, result), k)
  {
  }

  lemma FinishWorkKeepsWorker(w: World, exec: Id, at: int, result: Ending, k: Id)
    requires RunSound(w, k) && WorkerSound(w, k) && WorkerSound(w, exec) && RunSound(w, exec) && WorkerAt(w, exec) && InFlight(w.workers[exec].pc)
    ensures WorkerSound(DoFinishWork(w, exec, at, result), k)
  {
  }

  lemma FinishWorkKeepsCleaner(w: World, exec: Id, at: int, result: Ending, k: Id)
    requires CleanerSound(w, k) && WorkerSound(w, exec) && RunSound(w, exec) && WorkerAt(w, exec) && InFlight(w.workers[exec].pc)
    ensures CleanerSound(DoFinishWork(w, exec, at, result), k)
  {
  }

  lemma KeepFinishWork(w: World, exec: Id, at: int, result: Ending, k: Id)
    requires SoundAround(w, k) && Sound(w, exec) && WorkerAt(w, exec) && InFlight(w.workers[exec].pc)
    ensures Sound(DoFinishWork(w, exec, at, result), k)
  {
    FinishWorkKeepsRun(w, exec, at, result, k);
    FinishWorkKeepsWorker(w, exec, at, result, k);
    FinishWorkKeepsCleaner(w, exec, at, result, k);
  }

  lemma FinishErrsKeepsRun(w: World, exec: Id, at: int, result: Ending, applied: bool, k: Id)
    requires RunSound(w, k) && WorkerSound(w, exec) && RunSound(w, exec) && WorkerAt(w, exec) && InFlight(w.workers[exec].pc)
    ensures RunSound(DoFinishErrs(w, exec, at, result, applied), k)
  {
  }

  lemma FinishErrsKeepsWorker(w: World, exec: Id, at: int, result: Ending, applied: bool, k: Id)
    requires RunSound(w, k) && WorkerSound(w, k) && WorkerSound(w, exec) && RunSound(w, exec) && WorkerAt(w, exec) && InFlight(w.workers[exec].pc)
    ensures WorkerSound(DoFinishErrs(w, exec, at, result, applied), k)
  {
  }

  lemma FinishErrsKeepsCleaner(w: World, exec: Id, at: int, result: Ending, applied: bool, k: Id)
    requires CleanerSound(w, k) && WorkerSound(w, exec) && RunSound(w, exec) && WorkerAt(w, exec) && InFlight(w.workers[exec].pc)
    ensures CleanerSound(DoFinishErrs(w, exec, at, result, applied), k)
  {
  }

  lemma KeepFinishErrs(w: World, exec: Id, at: int, result: Ending, applied: bool, k: Id)
    requires SoundAround(w, k) && Sound(w, exec) && WorkerAt(w, exec) && InFlight(w.workers[exec].pc)
    ensures Sound(DoFinishErrs(w, exec, at, result, applied), k)
  {
    FinishErrsKeepsRun(w, exec, at, result, applied, k);
    FinishErrsKeepsWorker(w, exec, at, result, applied, k);
    FinishErrsKeepsCleaner(w, exec, at, result, applied, k);
  }

  lemma KeepVerdict(w: World, exec: Id, outcome: Outcome, k: Id)
    requires SoundAround(w, k) && Sound(w, exec) && WorkerAt(w, exec) && w.workers[exec].pc != Native
    ensures Sound(AtPc(w, exec, Reporting(outcome)), k)
  {
  }

  lemma KeepReport(w: World, exec: Id, outcome: Outcome, k: Id)
    requires SoundAround(w, k) && Sound(w, exec) && WorkerAt(w, exec)
    ensures Sound(DoReport(w, exec, outcome), k)
  {
  }

  lemma ClaimRunKeepsRun(w: World, claim: Id, exec: Id, at: int, k: Id)
    requires RunSound(w, k) && RunSound(w, exec) && claim !in w.claims && exec in w.tables.runs && at <= w.now
    ensures RunSound(DoClaimRun(w, claim, exec, at), k)
  {
  }

  lemma ClaimRunKeepsWorker(w: World, claim: Id, exec: Id, at: int, k: Id)
    requires RunSound(w, k) && WorkerSound(w, k) && RunSound(w, exec) && claim !in w.claims && exec in w.tables.runs && at <= w.now
    ensures WorkerSound(DoClaimRun(w, claim, exec, at), k)
  {
  }

  lemma ClaimRunKeepsCleaner(w: World, claim: Id, exec: Id, at: int, k: Id)
    requires CleanerSound(w, k) && RunSound(w, exec) && claim !in w.claims && exec in w.tables.runs && at <= w.now
    ensures CleanerSound(DoClaimRun(w, claim, exec, at), k)
  {
  }

  lemma KeepClaimRun(w: World, claim: Id, exec: Id, at: int, k: Id)
    requires SoundAround(w, k) && Sound(w, exec) && claim !in w.claims && exec in w.tables.runs && at <= w.now
    ensures Sound(DoClaimRun(w, claim, exec, at), k)
  {
    ClaimRunKeepsRun(w, claim, exec, at, k);
    ClaimRunKeepsWorker(w, claim, exec, at, k);
    ClaimRunKeepsCleaner(w, claim, exec, at, k);
  }

  lemma ReadClaimKeepsRun(w: World, claim: Id, k: Id)
    requires RunSound(w, k) && CleanerAt(w, claim) && CleanerSound(w, claim) && RunSound(w, w.cleaners[claim].exec) && w.cleaners[claim].pc == Claimed
    ensures RunSound(DoReadClaim(w, claim), k)
  {
  }

  lemma ReadClaimKeepsWorker(w: World, claim: Id, k: Id)
    requires RunSound(w, k) && WorkerSound(w, k) && CleanerAt(w, claim) && CleanerSound(w, claim) && RunSound(w, w.cleaners[claim].exec) && w.cleaners[claim].pc == Claimed
    ensures WorkerSound(DoReadClaim(w, claim), k)
  {
  }

  lemma ReadClaimKeepsCleaner(w: World, claim: Id, k: Id)
    requires CleanerSound(w, k) && CleanerAt(w, claim) && CleanerSound(w, claim) && RunSound(w, w.cleaners[claim].exec) && w.cleaners[claim].pc == Claimed
    ensures CleanerSound(DoReadClaim(w, claim), k)
  {
  }

  lemma KeepReadClaim(w: World, claim: Id, k: Id)
    requires SoundAround(w, k) && CleanerAt(w, claim) && Sound(w, claim) && Sound(w, w.cleaners[claim].exec) && w.cleaners[claim].pc == Claimed
    ensures Sound(DoReadClaim(w, claim), k)
  {
    ReadClaimKeepsRun(w, claim, k);
    ReadClaimKeepsWorker(w, claim, k);
    ReadClaimKeepsCleaner(w, claim, k);
  }

  lemma RecordEvidenceKeepsRun(w: World, claim: Id, k: Id)
    requires SoundAround(w, k) && CleanerAt(w, claim) && CleanerSound(w, claim) && RunSound(w, w.cleaners[claim].exec) && w.cleaners[claim].pc == Reread
    ensures RunSound(DoRecordEvidence(w, claim), k)
  {
  }

  lemma RecordEvidenceKeepsWorker(w: World, claim: Id, k: Id)
    requires RunSound(w, k) && WorkerSound(w, k) && CleanerAt(w, claim) && CleanerSound(w, claim) && RunSound(w, w.cleaners[claim].exec) && w.cleaners[claim].pc == Reread
    ensures WorkerSound(DoRecordEvidence(w, claim), k)
  {
  }

  lemma RecordEvidenceKeepsCleaner(w: World, claim: Id, k: Id)
    requires CleanerSound(w, k) && CleanerAt(w, claim) && CleanerSound(w, claim) && RunSound(w, w.cleaners[claim].exec) && w.cleaners[claim].pc == Reread
    ensures CleanerSound(DoRecordEvidence(w, claim), k)
  {
  }

  lemma KeepRecordEvidence(w: World, claim: Id, k: Id)
    requires SoundAround(w, k) && CleanerAt(w, claim) && Sound(w, claim) && Sound(w, w.cleaners[claim].exec) && w.cleaners[claim].pc == Reread
    ensures Sound(DoRecordEvidence(w, claim), k)
  {
    RecordEvidenceKeepsRun(w, claim, k);
    RecordEvidenceKeepsWorker(w, claim, k);
    RecordEvidenceKeepsCleaner(w, claim, k);
  }

  lemma KeepInspect(w: World, claim: Id, found: Option<Id>, k: Id)
    requires SoundAround(w, k) && CleanerAt(w, claim) && Sound(w, claim) && Sound(w, w.cleaners[claim].exec) && w.cleaners[claim].pc == Evidenced && TruthfulInspection(w, w.cleaners[claim], found)
    ensures Sound(DoInspectContainer(w, claim, found), k)
  {
  }

  lemma AdoptFoundKeepsRun(w: World, claim: Id, k: Id)
    requires RunSound(w, k) && CleanerAt(w, claim) && CleanerSound(w, claim) && RunSound(w, w.cleaners[claim].exec) && w.cleaners[claim].pc.Found?
    ensures RunSound(DoAdoptFound(w, claim), k)
  {
  }

  lemma AdoptFoundKeepsWorker(w: World, claim: Id, k: Id)
    requires RunSound(w, k) && WorkerSound(w, k) && CleanerAt(w, claim) && CleanerSound(w, claim) && RunSound(w, w.cleaners[claim].exec) && w.cleaners[claim].pc.Found?
    ensures WorkerSound(DoAdoptFound(w, claim), k)
  {
  }

  lemma AdoptFoundKeepsCleaner(w: World, claim: Id, k: Id)
    requires CleanerSound(w, k) && CleanerAt(w, claim) && CleanerSound(w, claim) && RunSound(w, w.cleaners[claim].exec) && w.cleaners[claim].pc.Found?
    ensures CleanerSound(DoAdoptFound(w, claim), k)
  {
  }

  lemma KeepAdoptFound(w: World, claim: Id, k: Id)
    requires SoundAround(w, k) && CleanerAt(w, claim) && Sound(w, claim) && Sound(w, w.cleaners[claim].exec) && w.cleaners[claim].pc.Found?
    ensures Sound(DoAdoptFound(w, claim), k)
  {
    AdoptFoundKeepsRun(w, claim, k);
    AdoptFoundKeepsWorker(w, claim, k);
    AdoptFoundKeepsCleaner(w, claim, k);
  }

  lemma KeepRemoveContainer(w: World, claim: Id, k: Id)
    requires SoundAround(w, k) && CleanerAt(w, claim) && Sound(w, claim) && Sound(w, w.cleaners[claim].exec) && w.cleaners[claim].pc.Removing?
    ensures Sound(DoRemoveContainer(w, claim), k)
  {
  }

  lemma KeepRemoveWorkspace(w: World, claim: Id, k: Id)
    requires SoundAround(w, k) && CleanerAt(w, claim) && Sound(w, claim) && Sound(w, w.cleaners[claim].exec) && w.cleaners[claim].pc == Gone
    ensures Sound(DoRemoveWorkspace(w, claim), k)
  {
  }

  lemma KeepCleanupFailure(w: World, claim: Id, k: Id)
    requires SoundAround(w, k) && CleanerAt(w, claim) && Sound(w, claim) && Sound(w, w.cleaners[claim].exec) && w.cleaners[claim].pc != Claimed
    ensures Sound(CleanerAtPc(w, claim, Settling(false)), k)
  {
  }

  lemma KeepSettle(w: World, claim: Id, k: Id)
    requires SoundAround(w, k) && CleanerAt(w, claim) && Sound(w, claim) && Sound(w, w.cleaners[claim].exec) && w.cleaners[claim].pc.Settling?
    ensures Sound(DoSettleClaim(w, claim), k)
  {
  }

  lemma KeepScanAdopts(w: World, exec: Id, cid: Id, seenMs: int, k: Id)
    requires SoundAround(w, k) && Sound(w, exec) && exec in w.tables.runs && cid in w.born && w.born[cid] == exec && seenMs <= w.now
    ensures Sound(w.(tables := AdoptByScan(w.tables, seenMs, exec, w.tables.runs[exec].owner, cid).0), k)
  {
  }

  lemma WorkKept(w: World, exec: Id, s: WorkerStep, k: Id)
    requires SoundAround(w, k) && Sound(w, exec) && WorkEnabled(w, exec, s)
    ensures Sound(ApplyWork(w, exec, s), k)
  {
    match s
    case AdmitWorkspace(at) => KeepAdmitWorkspace(w, exec, at, k);
    case MakeWorkspace => KeepMakeWorkspace(w, exec, k);
    case RequestContainer => KeepRequest(w, exec, k);
    case RequestAnswered(cid) => KeepAnswered(w, exec, cid, k);
    case RecordContainer(at) => KeepRecordContainer(w, exec, at, k);
    case BeginStart(at, timeoutMs) => KeepBeginStart(w, exec, at, timeoutMs, k);
    case Launch => KeepLaunch(w, exec, k);
    case GiveUp => KeepGiveUp(w, exec, k);
    case FinishWork(at, result) => KeepFinishWork(w, exec, at, result, k);
    case FinishErrs(at, result, applied) => KeepFinishErrs(w, exec, at, result, applied, k);
    case ReadVerdict => KeepVerdict(w, exec, DoReadVerdict(w, exec).workers[exec].pc.outcome, k);
    case ReadFails => KeepVerdict(w, exec, Image(w.workers[exec].pc.result), k);
    case ReportOutcome => KeepReport(w, exec, w.workers[exec].pc.outcome, k);
    case ReportNative(outcome) => KeepReport(w, exec, outcome, k);
    case StopWorker =>
  }

  lemma CleanKept(w: World, c: Id, s: CleanerStep, k: Id)
    requires SoundAround(w, k) && CleanEnabled(w, c, s) && Sound(w, c) && Sound(w, w.cleaners[c].exec)
    ensures Sound(ApplyClean(w, c, s), k)
  {
    match s
    case ReadClaim => KeepReadClaim(w, c, k);
    case RecordEvidence => KeepRecordEvidence(w, c, k);
    case InspectContainer(found) => KeepInspect(w, c, found, k);
    case AdoptFound => KeepAdoptFound(w, c, k);
    case RemoveContainer => KeepRemoveContainer(w, c, k);
    case RemoveWorkspace => KeepRemoveWorkspace(w, c, k);
    case FailCleanup => KeepCleanupFailure(w, c, k);
    case SettleClaim => KeepSettle(w, c, k);
    case StopCleaner =>
  }

  lemma OtherKept(w: World, a: Action, k: Id)
    requires SoundAround(w, k) && Enabled(w, a) && !a.Work? && !a.Clean?
    requires a.ContainerStarts? || a.ClaimRun? || a.ScanAdopts? ==> Sound(w, a.exec)
    ensures Sound(Apply(w, a), k)
  {
    match a
    case Tick(ms) => KeepTick(w, ms, k);
    case CreateApproval(id, at, who) =>
      KeepCreateApproval(w, id, NewApproval(at, who.session, who.agent, who.call, who.request, who.hash), k);
    case ResolveApproval(id, at, session, actor, approve, hash) => KeepResolve(w, id, at, session, actor, approve, hash, k);
    case AbandonApproval(id) => KeepAbandon(w, id, k);
    case BeginApproved(exec, id, at, preparedAt, who, owner, timeoutMs) =>
      KeepBeginApproved(w, exec, id, at, preparedAt, who, owner, timeoutMs, k);
    case BeginNative(exec, id, at, who) => KeepBeginNative(w, exec, id, at, who, k);
    case BeginDirect(exec, at, session, agent, profile, grant, owner, timeoutMs) =>
      KeepBeginDirect(w, exec, at, session, agent, profile, grant, owner, timeoutMs, k);
    case ContainerAppears(exec, cid) => KeepAppears(w, exec, cid, k);
    case ContainerStarts(exec) => KeepContainerStarts(w, exec, k);
    case ClaimRun(claim, exec, at) => KeepClaimRun(w, claim, exec, at, k);
    case ScanAdopts(exec, cid, seenMs) => KeepScanAdopts(w, exec, cid, seenMs, k);
  }

  /** Any action, seen from one identifier. */
  lemma SoundKept(w: World, a: Action, k: Id)
    requires Inv(w) && Enabled(w, a)
    ensures Sound(Apply(w, a), k)
  {
    assert Sound(w, k);
    if k in w.cleaners { assert Sound(w, w.cleaners[k].exec); }
    if a.Work? {
      assert Sound(w, a.exec);
      WorkKept(w, a.exec, a.ws, k);
    } else if a.Clean? {
      assert Sound(w, a.claim) && Sound(w, w.cleaners[a.claim].exec);
      CleanKept(w, a.claim, a.cs, k);
    } else {
      if a.ContainerStarts? || a.ClaimRun? || a.ScanAdopts? { assert Sound(w, a.exec); }
      OtherKept(w, a, k);
    }
  }

  lemma InvKept(w: World, a: Action)
    requires Inv(w) && Enabled(w, a)
    ensures Inv(Apply(w, a))
  {
    forall k: Id ensures Sound(Apply(w, a), k) { SoundKept(w, a, k); }
    if a.Work? || a.ContainerStarts? { assert Sound(w, a.exec); }
  }

  lemma {:induction false} InvReachable(ws: seq<World>, acts: seq<Action>, i: nat)
    requires IsRun(ws, acts) && i < |ws|
    ensures Inv(ws[i])
  {
    if i > 0 {
      InvReachable(ws, acts, i - 1);
      InvKept(ws[i - 1], acts[i - 1]);
    }
  }
}
