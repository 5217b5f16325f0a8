/**
 What a cleaned row says about the container it names. A cleanup that knew the container, or found it by name,
 removed it. A cleanup that knew none and found none has no say about a container that the scan records
 afterwards, whether the cleanup is still on its way or long finished.
 */
module ExecutionContainers {
  import opened Base
  import opened ExecutionTables
  import opened ExecutionProtocol
  import opened ExecutionInvariant
  import opened ExecutionTheorems

  // ---------- what the inspections answered ----------

  /** The claim whose inspection this action is, if the row had no container when it was read and none was found. */
  function Blank(w: World, a: Action): set<Id> {
    if a.Clean? && a.cs == InspectContainer(None) && a.claim in w.cleaners && w.cleaners[a.claim].seen == None then {a.claim} else {}
  }

  /** The claims whose inspection was such a one, among the first `n` actions. */
  ghost function Blanks(ws: seq<World>, acts: seq<Action>, n: nat): set<Id>
    requires IsRun(ws, acts) && n < |ws|
  {
    if n == 0 then {} else Blanks(ws, acts, n - 1) + Blank(ws[n - 1], acts[n - 1])
  }

  lemma {:induction false} BlankAt(ws: seq<World>, acts: seq<Action>, n: nat, c: Id) returns (i: nat)
    requires IsRun(ws, acts) && n < |ws| && c in Blanks(ws, acts, n)
    ensures i < n && c in Blank(ws[i], acts[i])
  {
    if c in Blank(ws[n - 1], acts[n - 1]) { i := n - 1; } else { i := BlankAt(ws, acts, n - 1, c); }
  }

  lemma {:induction false} BlankStays(ws: seq<World>, acts: seq<Action>, i: nat, n: nat, c: Id)
    requires IsRun(ws, acts) && i < n < |ws| && c in Blank(ws[i], acts[i])
    ensures c in Blanks(ws, acts, n)
    decreases n
  {
    if i < n - 1 { BlankStays(ws, acts, i, n - 1, c); }
  }

  // ---------- one row, one container, one claim ----------

  predicate Lives(w: World, e: Id)
    requires e in w.tables.runs
  {
    w.tables.runs[e].containerId.Some? ==> w.tables.runs[e].containerId.value in w.live
  }

  predicate Dead(w: World, e: Id)
    requires e in w.tables.runs
  {
    w.tables.runs[e].containerId.Some? && w.tables.runs[e].containerId.value !in w.live
  }

  predicate OwnerFits(w: World, e: Id) {
    e in w.tables.runs && w.tables.runs[e].cleanupOwner.Some? ==>
      var c := w.tables.runs[e].cleanupOwner.value;
      c in w.claims && Terminal(w.tables.runs[e].state) && (c in w.cleaners ==> w.cleaners[c].exec == e)
  }

  /** Only recorded containers are ever removed. */
  predicate ContainerFits(w: World, x: Id) {
    x in w.born && x !in w.live ==> w.born[x] in w.tables.runs && w.tables.runs[w.born[x]].containerId == Some(x)
  }

  predicate ClaimFits(w: World, blanks: set<Id>, c: Id) {
    && (c in blanks ==> c in w.claims && (c in w.cleaners ==> w.cleaners[c].pc == Gone || w.cleaners[c].pc.Settling?))
    && (c in w.cleaners ==>
          var k := w.cleaners[c];
          && (k.pc == Claimed ==> k.seen == None)
          && (c !in blanks && (k.pc == Gone || k.pc == Settling(true)) ==> k.exec in w.tables.runs && Dead(w, k.exec)))
  }

  predicate VerdictFits(w: World, blanks: set<Id>, e: Id) {
    e in w.tables.runs && w.tables.runs[e].cleanup == Cleaned ==>
      w.tables.runs[e].cleanupOwner.Some? && (w.tables.runs[e].cleanupOwner.value in blanks || Dead(w, e))
  }

  predicate Fits(w: World, blanks: set<Id>, k: Id) {
    OwnerFits(w, k) && ContainerFits(w, k) && ClaimFits(w, blanks, k) && VerdictFits(w, blanks, k)
  }

  /** The claim that holds the row read it without a container, and has found none. */
  predicate Blind(w: World, blanks: set<Id>, e: Id) {
    && e in w.tables.runs && w.tables.runs[e].cleanupOwner.Some?
    && var c := w.tables.runs[e].cleanupOwner.value;
       c in blanks || (c in w.cleaners && (w.cleaners[c].pc == Reread || w.cleaners[c].pc == Evidenced) && w.cleaners[c].seen == None)
  }

  /** Under a blind claim nobody is about to remove the run's container. */
  predicate PairFits(w: World, blanks: set<Id>, e: Id, c: Id) {
    Blind(w, blanks, e) ==>
      Lives(w, e) && (c in w.cleaners && w.cleaners[c].exec == e ==> w.cleaners[c].seen == None && !w.cleaners[c].pc.Removing?)
  }

  ghost predicate AllFit(w: World, blanks: set<Id>) {
    (forall k: Id :: Fits(w, blanks, k)) && (forall e: Id, c: Id :: PairFits(w, blanks, e, c))
  }

  // ---------- every action keeps it ----------

  lemma WorkKeepsFits(w: World, z: set<Id>, exec: Id, s: WorkerStep, k: Id)
    requires WorkEnabled(w, exec, s) && Fits(w, z, k) && Sound(w, k)
    requires k in w.cleaners ==> Sound(w, w.cleaners[k].exec)
    ensures Fits(ApplyWork(w, exec, s), z, k)
  {
    if WritesRun(s) { WriteKeepsFits(w, z, exec, s, k); } else { OtherWorkLeavesRuns(w, exec, s); }
  }

  lemma RecordKeepsFits(w: World, z: set<Id>, exec: Id, at: int, k: Id)
    requires WorkerAt(w, exec) && w.workers[exec].pc.HasContainer?
    requires Fits(w, z, k) && Sound(w, k) && (k in w.cleaners ==> Sound(w, w.cleaners[k].exec))
    ensures Fits(DoRecordContainer(w, exec, at), z, k)
  {
  }

  lemma StartKeepsFits(w: World, z: set<Id>, exec: Id, at: int, timeoutMs: nat, k: Id)
    requires WorkerAt(w, exec) && w.workers[exec].pc.Recorded?
    requires Fits(w, z, k) && Sound(w, k) && (k in w.cleaners ==> Sound(w, w.cleaners[k].exec))
    ensures Fits(DoBeginStart(w, exec, at, timeoutMs), z, k)
  {
  }

  lemma FinishKeepsFits(w: World, z: set<Id>, exec: Id, at: int, result: Ending, k: Id)
    requires WorkerAt(w, exec)
    requires Fits(w, z, k) && Sound(w, k) && (k in w.cleaners ==> Sound(w, w.cleaners[k].exec))
    ensures Fits(DoFinishWork(w, exec, at, result), z, k)
  {
  }

  lemma ErrsKeepsFits(w: World, z: set<Id>, exec: Id, at: int, result: Ending, applied: bool, k: Id)
    requires WorkerAt(w, exec)
    requires Fits(w, z, k) && Sound(w, k) && (k in w.cleaners ==> Sound(w, w.cleaners[k].exec))
    ensures Fits(DoFinishErrs(w, exec, at, result, applied), z, k)
  {
  }

  lemma WriteKeepsFits(w: World, z: set<Id>, exec: Id, s: WorkerStep, k: Id)
    requires WorkEnabled(w, exec, s) && WritesRun(s) && Fits(w, z, k) && Sound(w, k)
    requires k in w.cleaners ==> Sound(w, w.cleaners[k].exec)
    ensures Fits(ApplyWork(w, exec, s), z, k)
  {
    match s
    case RecordContainer(at) => RecordKeepsFits(w, z, exec, at, k);
    case BeginStart(at, timeoutMs) => StartKeepsFits(w, z, exec, at, timeoutMs, k);
    case FinishWork(at, result) => FinishKeepsFits(w, z, exec, at, result, k);
    case FinishErrs(at, result, applied) => ErrsKeepsFits(w, z, exec, at, result, applied, k);
  }

  lemma WorkKeepsPair(w: World, z: set<Id>, exec: Id, s: WorkerStep, e: Id, c: Id)
    requires WorkEnabled(w, exec, s) && PairFits(w, z, e, c) && OwnerFits(w, e)
    ensures PairFits(ApplyWork(w, exec, s), z, e, c)
  {
    if WritesRun(s) { WriteKeepsPair(w, z, exec, s, e, c); } else { OtherWorkLeavesRuns(w, exec, s); }
  }

  lemma WriteKeepsPair(w: World, z: set<Id>, exec: Id, s: WorkerStep, e: Id, c: Id)
    requires WorkEnabled(w, exec, s) && WritesRun(s) && PairFits(w, z, e, c) && OwnerFits(w, e)
    ensures PairFits(ApplyWork(w, exec, s), z, e, c)
  {
  }

  lemma ReadClaimKeepsFits(w: World, z: set<Id>, m: Id, k: Id)
    requires CleanerAt(w, m) && w.cleaners[m].pc == Claimed
    requires Fits(w, z, k) && Fits(w, z, m) && Sound(w, k) && Sound(w, m) && Sound(w, w.cleaners[m].exec)
    ensures Fits(DoReadClaim(w, m), z, k)
  {
  }

  lemma ReadClaimKeepsPair(w: World, z: set<Id>, m: Id, e: Id, c: Id)
    requires CleanerAt(w, m) && w.cleaners[m].pc == Claimed
    requires PairFits(w, z, e, c) && PairFits(w, z, e, m) && OwnerFits(w, e) && ClaimFits(w, z, m) && ClaimFits(w, z, c)
    requires Sound(w, e) && Sound(w, c) && Sound(w, m) && Sound(w, w.cleaners[m].exec)
    ensures PairFits(DoReadClaim(w, m), z, e, c)
  {
  }

  lemma RecordEvidenceKeepsFits(w: World, z: set<Id>, m: Id, k: Id)
    requires CleanerAt(w, m) && w.cleaners[m].pc == Reread
    requires Fits(w, z, k) && Fits(w, z, m) && Sound(w, k) && Sound(w, m) && Sound(w, w.cleaners[m].exec)
    ensures Fits(DoRecordEvidence(w, m), z, k)
  {
  }

  lemma RecordEvidenceKeepsPair(w: World, z: set<Id>, m: Id, e: Id, c: Id)
    requires CleanerAt(w, m) && w.cleaners[m].pc == Reread
    requires PairFits(w, z, e, c) && PairFits(w, z, e, m) && OwnerFits(w, e) && ClaimFits(w, z, m) && ClaimFits(w, z, c)
    requires Sound(w, e) && Sound(w, c) && Sound(w, m) && Sound(w, w.cleaners[m].exec)
    ensures PairFits(DoRecordEvidence(w, m), z, e, c)
  {
  }

  lemma InspectKeepsFits(w: World, z: set<Id>, m: Id, found: Option<Id>, k: Id)
    requires CleanerAt(w, m) && w.cleaners[m].pc == Evidenced && TruthfulInspection(w, w.cleaners[m], found)
    requires Fits(w, z, k) && Fits(w, z, m) && Sound(w, k) && Sound(w, m) && Sound(w, w.cleaners[m].exec)
    ensures Fits(DoInspectContainer(w, m, found), z + Blank(w, Clean(m, InspectContainer(found))), k)
  {
  }

  lemma InspectKeepsPair(w: World, z: set<Id>, m: Id, found: Option<Id>, e: Id, c: Id)
    requires CleanerAt(w, m) && w.cleaners[m].pc == Evidenced && TruthfulInspection(w, w.cleaners[m], found)
    requires PairFits(w, z, e, c) && PairFits(w, z, e, m) && OwnerFits(w, e) && ClaimFits(w, z, m) && ClaimFits(w, z, c)
    requires Sound(w, e) && Sound(w, c) && Sound(w, m) && Sound(w, w.cleaners[m].exec)
    ensures PairFits(DoInspectContainer(w, m, found), z + Blank(w, Clean(m, InspectContainer(found))), e, c)
  {
  }

  lemma AdoptKeepsFits(w: World, z: set<Id>, m: Id, k: Id)
    requires CleanerAt(w, m) && w.cleaners[m].pc.Found?
    requires Fits(w, z, k) && Fits(w, z, m) && Sound(w, k) && Sound(w, m) && Sound(w, w.cleaners[m].exec)
    ensures Fits(DoAdoptFound(w, m), z, k)
  {
  }

  lemma AdoptKeepsPair(w: World, z: set<Id>, m: Id, e: Id, c: Id)
    requires CleanerAt(w, m) && w.cleaners[m].pc.Found?
    requires PairFits(w, z, e, c) && PairFits(w, z, e, m) && OwnerFits(w, e) && ClaimFits(w, z, m) && ClaimFits(w, z, c)
    requires Sound(w, e) && Sound(w, c) && Sound(w, m) && Sound(w, w.cleaners[m].exec)
    ensures PairFits(DoAdoptFound(w, m), z, e, c)
  {
  }

  lemma RemoveKeepsFits(w: World, z: set<Id>, m: Id, k: Id)
    requires CleanerAt(w, m) && w.cleaners[m].pc.Removing?
    requires Fits(w, z, k) && Fits(w, z, m) && Sound(w, k) && Sound(w, m) && Sound(w, w.cleaners[m].exec)
    ensures Fits(DoRemoveContainer(w, m), z, k)
  {
  }

  lemma RemoveKeepsPair(w: World, z: set<Id>, m: Id, e: Id, c: Id)
    requires CleanerAt(w, m) && w.cleaners[m].pc.Removing?
    requires PairFits(w, z, e, c) && PairFits(w, z, e, m) && OwnerFits(w, e) && ClaimFits(w, z, m) && ClaimFits(w, z, c)
    requires Sound(w, e) && Sound(w, c) && Sound(w, m) && Sound(w, w.cleaners[m].exec)
    ensures PairFits(DoRemoveContainer(w, m), z, e, c)
  {
  }

  lemma SettleKeepsFits(w: World, z: set<Id>, m: Id, k: Id)
    requires CleanerAt(w, m) && w.cleaners[m].pc.Settling?
    requires Fits(w, z, k) && Fits(w, z, m) && Sound(w, k) && Sound(w, m) && Sound(w, w.cleaners[m].exec)
    ensures Fits(DoSettleClaim(w, m), z, k)
  {
  }

  lemma SettleKeepsPair(w: World, z: set<Id>, m: Id, e: Id, c: Id)
    requires CleanerAt(w, m) && w.cleaners[m].pc.Settling?
    requires PairFits(w, z, e, c) && PairFits(w, z, e, m) && OwnerFits(w, e) && ClaimFits(w, z, m) && ClaimFits(w, z, c)
    requires Sound(w, e) && Sound(w, c) && Sound(w, m) && Sound(w, w.cleaners[m].exec)
    ensures PairFits(DoSettleClaim(w, m), z, e, c)
  {
  }

  /** The steps that move a cleaner on and change nothing else that matters here. */
  lemma MoveKeepsFits(w: World, z: set<Id>, m: Id, s: CleanerStep, k: Id)
    requires CleanEnabled(w, m, s) && (s.RemoveWorkspace? || s.FailCleanup? || s.StopCleaner?)
    requires Fits(w, z, k) && Fits(w, z, m)
    ensures Fits(ApplyClean(w, m, s), z, k)
  {
  }

  lemma MoveKeepsPair(w: World, z: set<Id>, m: Id, s: CleanerStep, e: Id, c: Id)
    requires CleanEnabled(w, m, s) && (s.RemoveWorkspace? || s.FailCleanup? || s.StopCleaner?)
    requires PairFits(w, z, e, c)
    ensures PairFits(ApplyClean(w, m, s), z, e, c)
  {
  }

  lemma CleanKeepsFits(w: World, z: set<Id>, m: Id, s: CleanerStep, k: Id)
    requires CleanEnabled(w, m, s) && Fits(w, z, k) && Fits(w, z, m)
    requires Sound(w, k) && Sound(w, m) && Sound(w, w.cleaners[m].exec)
    ensures Fits(ApplyClean(w, m, s), z + Blank(w, Clean(m, s)), k)
  {
    match s
    case ReadClaim => ReadClaimKeepsFits(w, z, m, k);
    case RecordEvidence => RecordEvidenceKeepsFits(w, z, m, k);
    case InspectContainer(found) => InspectKeepsFits(w, z, m, found, k);
    case AdoptFound => AdoptKeepsFits(w, z, m, k);
    case RemoveContainer => RemoveKeepsFits(w, z, m, k);
    case SettleClaim => SettleKeepsFits(w, z, m, k);
    case _ => MoveKeepsFits(w, z, m, s, k);
  }

  lemma CleanKeepsPair(w: World, z: set<Id>, m: Id, s: CleanerStep, e: Id, c: Id)
    requires CleanEnabled(w, m, s)
    requires PairFits(w, z, e, c) && PairFits(w, z, e, m) && OwnerFits(w, e) && ClaimFits(w, z, m) && ClaimFits(w, z, c)
    requires Sound(w, e) && Sound(w, c) && Sound(w, m) && Sound(w, w.cleaners[m].exec)
    ensures PairFits(ApplyClean(w, m, s), z + Blank(w, Clean(m, s)), e, c)
  {
    match s
    case ReadClaim => ReadClaimKeepsPair(w, z, m, e, c);
    case RecordEvidence => RecordEvidenceKeepsPair(w, z, m, e, c);
    case InspectContainer(found) => InspectKeepsPair(w, z, m, found, e, c);
    case AdoptFound => AdoptKeepsPair(w, z, m, e, c);
    case RemoveContainer => RemoveKeepsPair(w, z, m, e, c);
    case SettleClaim => SettleKeepsPair(w, z, m, e, c);
    case _ => MoveKeepsPair(w, z, m, s, e, c);
  }

  lemma ClaimKeepsFits(w: World, z: set<Id>, claim: Id, exec: Id, at: int, k: Id)
    requires claim !in w.claims && exec in w.tables.runs && Fits(w, z, k) && ClaimFits(w, z, claim) && Sound(w, k)
    requires k in w.cleaners ==> Sound(w, w.cleaners[k].exec)
    ensures Fits(DoClaimRun(w, claim, exec, at), z, k)
  {
  }

  lemma ScanKeepsFits(w: World, z: set<Id>, exec: Id, cid: Id, seenMs: int, k: Id)
    requires exec in w.tables.runs && Fits(w, z, k) && Sound(w, k)
    requires k in w.cleaners ==> Sound(w, w.cleaners[k].exec)
    ensures Fits(w.(tables := AdoptByScan(w.tables, seenMs, exec, w.tables.runs[exec].owner, cid).0), z, k)
  {
  }

  lemma OtherKeepsFits(w: World, z: set<Id>, a: Action, k: Id)
    requires Enabled(w, a) && !a.Work? && !a.Clean? && Fits(w, z, k) && Sound(w, k)
    requires k in w.cleaners ==> Sound(w, w.cleaners[k].exec)
    requires a.ClaimRun? ==> ClaimFits(w, z, a.claim)
    ensures Fits(Apply(w, a), z, k)
  {
    match a
    case ClaimRun(claim, exec, at) => ClaimKeepsFits(w, z, claim, exec, at, k);
    case ScanAdopts(exec, cid, seenMs) => ScanKeepsFits(w, z, exec, cid, seenMs, k);
    case ContainerAppears(exec, cid) => AppearKeepsFits(w, z, exec, cid, k);
    case _ => RestKeepsFits(w, z, a, k);
  }

  lemma AppearKeepsFits(w: World, z: set<Id>, exec: Id, cid: Id, k: Id)
    requires cid !in w.born && Fits(w, z, k) && Sound(w, k)
    requires k in w.cleaners ==> Sound(w, w.cleaners[k].exec)
    ensures Fits(w.(creating := w.creating - {exec}, born := w.born[cid := exec], live := w.live + {cid}), z, k)
  {
  }

  lemma RestKeepsFits(w: World, z: set<Id>, a: Action, k: Id)
    requires Enabled(w, a) && !a.Work? && !a.Clean? && !a.ClaimRun? && !a.ScanAdopts? && !a.ContainerAppears?
    requires Fits(w, z, k) && Sound(w, k) && (k in w.cleaners ==> Sound(w, w.cleaners[k].exec))
    ensures Fits(Apply(w, a), z, k)
  {
  }

  lemma ClaimKeepsPair(w: World, z: set<Id>, claim: Id, exec: Id, at: int, e: Id, c: Id)
    requires claim !in w.claims && exec in w.tables.runs && ClaimFits(w, z, claim) && PairFits(w, z, e, c) && OwnerFits(w, e)
    ensures PairFits(DoClaimRun(w, claim, exec, at), z, e, c)
  {
  }

  lemma ScanKeepsPair(w: World, z: set<Id>, exec: Id, cid: Id, seenMs: int, e: Id, c: Id)
    requires exec in w.tables.runs && cid in w.born && w.born[cid] == exec && ContainerFits(w, cid) && PairFits(w, z, e, c)
    ensures PairFits(w.(tables := AdoptByScan(w.tables, seenMs, exec, w.tables.runs[exec].owner, cid).0), z, e, c)
  {
  }

  lemma RestKeepsPair(w: World, z: set<Id>, a: Action, e: Id, c: Id)
    requires Enabled(w, a) && !a.Work? && !a.Clean? && !a.ClaimRun? && !a.ScanAdopts?
    requires PairFits(w, z, e, c) && OwnerFits(w, e) && Sound(w, e)
    ensures PairFits(Apply(w, a), z, e, c)
  {
  }

  lemma OtherKeepsPair(w: World, z: set<Id>, a: Action, e: Id, c: Id)
    requires Enabled(w, a) && !a.Work? && !a.Clean? && PairFits(w, z, e, c) && OwnerFits(w, e) && Sound(w, e)
    requires a.ClaimRun? ==> ClaimFits(w, z, a.claim)
    requires a.ScanAdopts? ==> ContainerFits(w, a.cid)
    ensures PairFits(Apply(w, a), z, e, c)
  {
    match a
    case ClaimRun(claim, exec, at) => ClaimKeepsPair(w, z, claim, exec, at, e, c);
    case ScanAdopts(exec, cid, seenMs) => ScanKeepsPair(w, z, exec, cid, seenMs, e, c);
    case _ => RestKeepsPair(w, z, a, e, c);
  }

  lemma AllKept(w: World, z: set<Id>, a: Action)
    requires Inv(w) && AllFit(w, z) && Enabled(w, a)
    ensures AllFit(Apply(w, a), z + Blank(w, a))
  {
    forall k: Id ensures Fits(Apply(w, a), z + Blank(w, a), k) { FitsKept(w, z, a, k); }
    forall e: Id, c: Id ensures PairFits(Apply(w, a), z + Blank(w, a), e, c) { PairKept(w, z, a, e, c); }
  }

  lemma FitsKept(w: World, z: set<Id>, a: Action, k: Id)
    requires Inv(w) && AllFit(w, z) && Enabled(w, a)
    ensures Fits(Apply(w, a), z + Blank(w, a), k)
  {
    assert Sound(w, k) && Fits(w, z, k);
    if k in w.cleaners { assert Sound(w, w.cleaners[k].exec); }
    if a.Clean? {
      assert Sound(w, a.claim) && Sound(w, w.cleaners[a.claim].exec) && Fits(w, z, a.claim);
      CleanKeepsFits(w, z, a.claim, a.cs, k);
    } else {
      assert z + Blank(w, a) == z;
      if a.Work? {
        WorkKeepsFits(w, z, a.exec, a.ws, k);
      } else {
        if a.ClaimRun? { assert Fits(w, z, a.claim); }
        OtherKeepsFits(w, z, a, k);
      }
    }
  }

  lemma PairKept(w: World, z: set<Id>, a: Action, e: Id, c: Id)
    requires Inv(w) && AllFit(w, z) && Enabled(w, a)
    ensures PairFits(Apply(w, a), z + Blank(w, a), e, c)
  {
    assert Sound(w, e) && Sound(w, c) && Fits(w, z, e) && Fits(w, z, c) && PairFits(w, z, e, c);
    if a.Clean? {
      assert Sound(w, a.claim) && Sound(w, w.cleaners[a.claim].exec) && Fits(w, z, a.claim) && PairFits(w, z, e, a.claim);
      CleanKeepsPair(w, z, a.claim, a.cs, e, c);
    } else {
      assert z + Blank(w, a) == z;
      if a.Work? {
        WorkKeepsPair(w, z, a.exec, a.ws, e, c);
      } else {
        if a.ClaimRun? { assert Fits(w, z, a.claim); }
        if a.ScanAdopts? { assert Fits(w, z, a.cid); }
        OtherKeepsPair(w, z, a, e, c);
      }
    }
  }

  lemma {:induction false} AllFitReachable(ws: seq<World>, acts: seq<Action>, n: nat)
    requires IsRun(ws, acts) && n < |ws|
    ensures AllFit(ws[n], Blanks(ws, acts, n))
  {
    if n > 0 {
      AllFitReachable(ws, acts, n - 1);
      InvReachable(ws, acts, n - 1);
      AllKept(ws[n - 1], Blanks(ws, acts, n - 1), acts[n - 1]);
    }
  }

  // ---------- a claim that holds a row has held it since it was drawn ----------

  predicate OwnedBy(w: World, e: Id, c: Id) { e in w.tables.runs && w.tables.runs[e].cleanupOwner == Some(c) }

  lemma WorkKeepsOwner(w: World, exec: Id, s: WorkerStep, e: Id, c: Id)
    requires WorkEnabled(w, exec, s)
    ensures OwnedBy(ApplyWork(w, exec, s), e, c) <==> OwnedBy(w, e, c)
    ensures ApplyWork(w, exec, s).claims == w.claims
  {
    if !WritesRun(s) { OtherWorkLeavesRuns(w, exec, s); }
  }

  lemma CleanKeepsOwner(w: World, m: Id, s: CleanerStep, e: Id, c: Id)
    requires CleanEnabled(w, m, s)
    ensures OwnedBy(ApplyClean(w, m, s), e, c) <==> OwnedBy(w, e, c)
    ensures ApplyClean(w, m, s).claims == w.claims
  {
  }

  lemma OtherKeepsOwner(w: World, a: Action, e: Id, c: Id)
    requires Enabled(w, a) && !a.Work? && !a.Clean? && c in w.claims
    ensures OwnedBy(Apply(w, a), e, c) ==> OwnedBy(w, e, c)
    ensures w.claims <= Apply(w, a).claims
  {
  }

  lemma OwnerWasOwner(w: World, a: Action, e: Id, c: Id)
    requires Enabled(w, a) && c in w.claims
    ensures OwnedBy(Apply(w, a), e, c) ==> OwnedBy(w, e, c)
    ensures w.claims <= Apply(w, a).claims
  {
    if a.Work? { WorkKeepsOwner(w, a.exec, a.ws, e, c); }
    else if a.Clean? { CleanKeepsOwner(w, a.claim, a.cs, e, c); }
    else { OtherKeepsOwner(w, a, e, c); }
  }

  lemma {:induction false} OwnerSince(ws: seq<World>, acts: seq<Action>, i: nat, n: nat, e: Id, c: Id)
    requires IsRun(ws, acts) && i <= n < |ws| && c in ws[i].claims
    ensures c in ws[n].claims && (OwnedBy(ws[n], e, c) ==> OwnedBy(ws[i], e, c))
    decreases n
  {
    if i < n {
      OwnerSince(ws, acts, i, n - 1, e, c);
      OwnerWasOwner(ws[n - 1], acts[n - 1], e, c);
    }
  }

  // ---------- who recorded the container ----------

  /** The action is the scan's statement and it records container `x` for run `e`. */
  predicate Adopts(w: World, a: Action, e: Id, x: Id) {
    && a.ScanAdopts? && a.exec == e && a.cid == x
    && e in w.tables.runs && w.tables.runs[e].containerId == None
    && (Terminal(w.tables.runs[e].state) || w.tables.runs[e].deadlineMs <= a.seenMs)
  }

  predicate Records(w: World, w': World, e: Id) {
    && e in w.tables.runs && w.tables.runs[e].containerId == None
    && e in w'.tables.runs && w'.tables.runs[e].containerId.Some?
  }

  lemma WorkRecords(w: World, exec: Id, s: WorkerStep, e: Id)
    requires WorkEnabled(w, exec, s) && Records(w, ApplyWork(w, exec, s), e)
    ensures w.tables.runs[e].state == Prepared
  {
    if !WritesRun(s) { OtherWorkLeavesRuns(w, exec, s); }
  }

  lemma CleanRecords(w: World, m: Id, s: CleanerStep, e: Id)
    requires CleanEnabled(w, m, s) && Records(w, ApplyClean(w, m, s), e)
    ensures w.cleaners[m].pc.Found? && OwnedBy(w, e, m)
  {
  }

  lemma OtherRecords(w: World, a: Action, e: Id)
    requires Enabled(w, a) && !a.Work? && !a.Clean? && Records(w, Apply(w, a), e)
    ensures Adopts(w, a, e, Apply(w, a).tables.runs[e].containerId.value)
  {
  }

  /** Under a claim that inspected in vain, only the scan can record a container. */
  lemma BlankRecords(w: World, z: set<Id>, a: Action, e: Id, c: Id)
    requires Enabled(w, a) && OwnedBy(w, e, c) && OwnerFits(w, e) && ClaimFits(w, z, c) && c in z
    requires Records(w, Apply(w, a), e)
    ensures Adopts(w, a, e, Apply(w, a).tables.runs[e].containerId.value)
  {
    if a.Work? { WorkRecords(w, a.exec, a.ws, e); }
    else if a.Clean? { CleanRecords(w, a.claim, a.cs, e); }
    else { OtherRecords(w, a, e); }
  }

  /** At an inspection in vain by the claim that holds the row, the row has no container. */
  lemma BlankMeansNone(ws: seq<World>, acts: seq<Action>, i: nat, e: Id, c: Id)
    requires IsRun(ws, acts) && i < |acts| && c in Blank(ws[i], acts[i]) && OwnedBy(ws[i], e, c)
    ensures ws[i].tables.runs[e].containerId == None
  {
    var w, z := ws[i], Blanks(ws, acts, i);
    InvReachable(ws, acts, i);
    AllFitReachable(ws, acts, i);
    assert Sound(w, e) && Sound(w, c) && Fits(w, z, e) && PairFits(w, z, e, c);
  }

  lemma AdoptedNow(ws: seq<World>, acts: seq<Action>, i: nat, n: nat, e: Id, c: Id)
    requires IsRun(ws, acts) && i < n < |acts| && c in Blank(ws[i], acts[i]) && OwnedBy(ws[n], e, c)
    requires Records(ws[n], ws[n + 1], e)
    ensures Adopts(ws[n], acts[n], e, ws[n + 1].tables.runs[e].containerId.value)
  {
    BlankStays(ws, acts, i, n, c);
    AllFitReachable(ws, acts, n);
    assert Fits(ws[n], Blanks(ws, acts, n), e) && Fits(ws[n], Blanks(ws, acts, n), c);
    BlankRecords(ws[n], Blanks(ws, acts, n), acts[n], e, c);
  }

  lemma ContainerKept(ws: seq<World>, acts: seq<Action>, i: nat, n: nat, e: Id)
    requires IsRun(ws, acts) && i <= n < |ws| && e in ws[i].tables.runs && ws[i].tables.runs[e].containerId.Some?
    ensures e in ws[n].tables.runs && ws[n].tables.runs[e].containerId == ws[i].tables.runs[e].containerId
  {
    RowsOnlyAdvance(ws, acts, i, n, e);
  }

  lemma ClaimDrawn(ws: seq<World>, acts: seq<Action>, i: nat, c: Id)
    requires IsRun(ws, acts) && i < |acts| && c in Blank(ws[i], acts[i])
    ensures c in ws[i].claims && ws[i + 1].tables == ws[i].tables
  {
    InvReachable(ws, acts, i);
    assert Sound(ws[i], c);
  }

  lemma {:induction false} WhoAdopted(ws: seq<World>, acts: seq<Action>, i: nat, n: nat, e: Id, c: Id) returns (j: nat)
    requires IsRun(ws, acts) && i < n < |ws| && c in Blank(ws[i], acts[i])
    requires e in ws[i + 1].tables.runs && ws[i + 1].tables.runs[e].containerId == None
    requires OwnedBy(ws[n], e, c) && ws[n].tables.runs[e].containerId.Some?
    ensures i < j < n && Adopts(ws[j], acts[j], e, ws[n].tables.runs[e].containerId.value)
    decreases n
  {
    ClaimDrawn(ws, acts, i, c);
    j := n - 1;
    OwnerSince(ws, acts, i, j, e, c);
    OwnerWasOwner(ws[j], acts[j], e, c);
    if ws[j].tables.runs[e].containerId.Some? {
      ContainerKept(ws, acts, j, n, e);
      j := WhoAdopted(ws, acts, i, j, e, c);
    } else {
      AdoptedNow(ws, acts, i, j, e, c);
    }
  }

  // ---------- what a cleaned row says ----------

  /** The scan recorded `x` for `e` after claim `c` had read the row without a container and found none. */
  ghost predicate AdoptedTooLate(ws: seq<World>, acts: seq<Action>, n: nat, e: Id, c: Id, x: Id)
    requires IsRun(ws, acts) && n < |ws|
  {
    exists i, j :: 0 <= i < j < n && c in Blank(ws[i], acts[i]) && Adopts(ws[j], acts[j], e, x)
  }

  /**
   In every reachable world: the container that a cleaned row names still exists exactly when the scan recorded it
   after the inspection of the cleanup that holds the row had found the run without any. Nobody removes it as long
   as the row is not claimed again.
   */
  lemma CleanedContainerLivesIff(ws: seq<World>, acts: seq<Action>, n: nat, e: Id)
    requires IsRun(ws, acts) && n < |ws|
    requires e in ws[n].tables.runs && ws[n].tables.runs[e].cleanup == Cleaned && ws[n].tables.runs[e].containerId.Some?
    ensures ws[n].tables.runs[e].cleanupOwner.Some?
    ensures ws[n].tables.runs[e].containerId.value in ws[n].live <==>
              AdoptedTooLate(ws, acts, n, e, ws[n].tables.runs[e].cleanupOwner.value, ws[n].tables.runs[e].containerId.value)
  {
    var w, z := ws[n], Blanks(ws, acts, n);
    AllFitReachable(ws, acts, n);
    assert Fits(w, z, e) && PairFits(w, z, e, e);
    var c, x := w.tables.runs[e].cleanupOwner.value, w.tables.runs[e].containerId.value;
    if x in w.live {
      var i := BlankAt(ws, acts, n, c);
      ClaimDrawn(ws, acts, i, c);
      OwnerSince(ws, acts, i, n, e, c);
      BlankMeansNone(ws, acts, i, e, c);
      var j := WhoAdopted(ws, acts, i, n, e, c);
    }
    if AdoptedTooLate(ws, acts, n, e, c, x) {
      var i, j :| 0 <= i < j < n && c in Blank(ws[i], acts[i]) && Adopts(ws[j], acts[j], e, x);
      BlankStays(ws, acts, i, n, c);
    }
  }

  lemma {:induction false} GoneForever(ws: seq<World>, acts: seq<Action>, i: nat, n: nat, x: Id)
    requires IsRun(ws, acts) && i <= n < |ws| && x in ws[i].born && x !in ws[i].live
    ensures x in ws[n].born && x !in ws[n].live
    decreases n
  {
    if i < n {
      GoneForever(ws, acts, i, n - 1, x);
      GoneStays(ws[n - 1], acts[n - 1], x);
    }
  }

  lemma WorkNeverRevives(w: World, exec: Id, s: WorkerStep)
    requires WorkEnabled(w, exec, s)
    ensures ApplyWork(w, exec, s).born == w.born && ApplyWork(w, exec, s).live == w.live
  {
  }

  lemma GoneStays(w: World, a: Action, x: Id)
    requires Enabled(w, a) && x in w.born && x !in w.live
    ensures x in Apply(w, a).born && x !in Apply(w, a).live
  {
    if a.Work? { WorkNeverRevives(w, a.exec, a.ws); }
  }

  /** Any other container of a cleaned row is gone for good. */
  lemma CleanedMeansGone(ws: seq<World>, acts: seq<Action>, n: nat, m: nat, e: Id)
    requires IsRun(ws, acts) && n <= m < |ws|
    requires e in ws[n].tables.runs && ws[n].tables.runs[e].cleanup == Cleaned && ws[n].tables.runs[e].containerId.Some?
    requires ws[n].tables.runs[e].cleanupOwner.Some? ==>
      !AdoptedTooLate(ws, acts, n, e, ws[n].tables.runs[e].cleanupOwner.value, ws[n].tables.runs[e].containerId.value)
    ensures ws[n].tables.runs[e].containerId.value !in ws[m].live
  {
    CleanedContainerLivesIff(ws, acts, n, e);
    InvReachable(ws, acts, n);
    assert Sound(ws[n], e);
    GoneForever(ws, acts, n, m, ws[n].tables.runs[e].containerId.value);
  }

  /** So is one that the row named before the claim that holds it could inspect in vain. */
  lemma KnownInTimeIsGone(ws: seq<World>, acts: seq<Action>, k: nat, n: nat, m: nat, e: Id, c: Id)
    requires IsRun(ws, acts) && k <= n <= m < |ws| && c !in Blanks(ws, acts, k)
    requires e in ws[k].tables.runs && ws[k].tables.runs[e].containerId.Some?
    requires OwnedBy(ws[n], e, c) && ws[n].tables.runs[e].cleanup == Cleaned
    ensures ws[n].tables.runs[e].containerId == ws[k].tables.runs[e].containerId
    ensures ws[n].tables.runs[e].containerId.value !in ws[m].live
  {
    ContainerKept(ws, acts, k, n, e);
    var x := ws[n].tables.runs[e].containerId.value;
    if AdoptedTooLate(ws, acts, n, e, c, x) {
      var i, j :| 0 <= i < j < n && c in Blank(ws[i], acts[i]) && Adopts(ws[j], acts[j], e, x);
      if i < k { BlankStays(ws, acts, i, k, c); } else { ContainerKept(ws, acts, k, j, e); }
    }
    CleanedMeansGone(ws, acts, n, m, e);
  }

  /** In particular a container recorded before the cleanup claimed the row. */
  lemma RecordedBeforeClaimIsGone(ws: seq<World>, acts: seq<Action>, k: nat, n: nat, m: nat, e: Id, c: Id)
    requires IsRun(ws, acts) && k < n <= m < |ws| && acts[k].ClaimRun? && acts[k].claim == c
    requires e in ws[k].tables.runs && ws[k].tables.runs[e].containerId.Some?
    requires OwnedBy(ws[n], e, c) && ws[n].tables.runs[e].cleanup == Cleaned
    ensures ws[n].tables.runs[e].containerId == ws[k].tables.runs[e].containerId
    ensures ws[n].tables.runs[e].containerId.value !in ws[m].live
  {
    AllFitReachable(ws, acts, k);
    assert Fits(ws[k], Blanks(ws, acts, k), c);
    KnownInTimeIsGone(ws, acts, k, n, m, e, c);
  }

  lemma FinderIsNotBlank(ws: seq<World>, acts: seq<Action>, k: nat, c: Id)
    requires IsRun(ws, acts) && k < |acts| && acts[k] == Clean(c, AdoptFound)
    ensures c !in Blanks(ws, acts, k + 1)
  {
    AllFitReachable(ws, acts, k);
    assert Fits(ws[k], Blanks(ws, acts, k), c);
  }

  /** And a container that the cleanup itself found and recorded. */
  lemma FoundContainerIsGone(ws: seq<World>, acts: seq<Action>, k: nat, n: nat, m: nat, e: Id, c: Id)
    requires IsRun(ws, acts) && k < n <= m < |ws| && acts[k] == Clean(c, AdoptFound) && Records(ws[k], ws[k + 1], e)
    requires OwnedBy(ws[n], e, c) && ws[n].tables.runs[e].cleanup == Cleaned
    ensures ws[n].tables.runs[e].containerId == ws[k + 1].tables.runs[e].containerId
    ensures ws[n].tables.runs[e].containerId.value !in ws[m].live
  {
    FinderIsNotBlank(ws, acts, k, c);
    KnownInTimeIsGone(ws, acts, k + 1, n, m, e, c);
  }
}
