/** Concrete runs: what the theorems leave open does happen. */
module ExecutionWitnesses {
  import opened Base
  import opened ExecutionTables
  import opened ExecutionProtocol
  import opened ExecutionAgreement

  const START := World(0, Tables(map[], map[]), map[], map[], {}, {}, {}, map[], map[], {}, {}, [], [])
  const WHO := Caller("ops", "session", "call", Request("kubectl scale", "scale out", "ops", 0), 7)

  /** One more enabled action at the end of a run. */
  lemma Extend(ws: seq<World>, acts: seq<Action>, a: Action, w: World) returns (ws': seq<World>, acts': seq<Action>)
    requires IsRun(ws, acts) && Enabled(ws[|acts|], a) && Apply(ws[|acts|], a) == w
    ensures IsRun(ws', acts') && |acts'| == |acts| + 1 && ws'[|acts'|] == w && ws <= ws' && acts <= acts' && acts'[|acts|] == a
  {
    ExtendPath(ws, acts, a, w);
    ws', acts' := ws + [w], acts + [a];
  }

  // ---------- a lost result ----------

  const ASKED := NewApproval(0, "session", "ops", "call", WHO.request, 7)
  const GIVEN := ASKED.(state := Approved, resolvedMs := 0, resolvedBy := "admin")
  const SPENT := GIVEN.(state := Consumed, execId := Some(2))
  const PAID := NewRun(0, "session", "ops", "ops", Some(ApprovalRow(1)), 5, 0)

  const CONSENTED := START.(tables := Tables(map[1 := GIVEN], map[]))
  const WORKING := START.(tables := Tables(map[1 := SPENT], map[2 := PAID]), workers := map[2 := Worker(5, Some(1), Ready)], execs := {2})
  const REPORTED := WORKING.(tables := Tables(map[1 := SPENT.(outcome := Some(OutcomeSucceeded))], map[2 := PAID]), workers := map[])

  lemma Consent() returns (ws: seq<World>, acts: seq<Action>)
    ensures IsRun(ws, acts) && |acts| == 3 && ws[3] == WORKING
  {
    ws, acts := [START], [];
    ws, acts := Extend(ws, acts, CreateApproval(1, 0, WHO), START.(tables := Tables(map[1 := ASKED], map[])));
    ws, acts := Extend(ws, acts, ResolveApproval(1, 0, "session", "admin", true, 7), CONSENTED);
    ws, acts := Extend(ws, acts, BeginApproved(2, 1, 0, 0, WHO, 5, 0), WORKING);
  }

  lemma Report() returns (ws: seq<World>, acts: seq<Action>)
    ensures IsRun(ws, acts) && |acts| == 6 && ws[6] == REPORTED && Loses(ws[4], acts[4], 2) && acts[4] == Work(2, ReadVerdict)
  {
    ws, acts := Consent();
    ws, acts := Extend(ws, acts, Work(2, FinishErrs(0, Succeeded, false)), AtPc(WORKING, 2, Unconfirmed(Succeeded)));
    ws, acts := Extend(ws, acts, Work(2, ReadVerdict), AtPc(WORKING, 2, Reporting(OutcomeSucceeded)));
    ws, acts := Extend(ws, acts, Work(2, ReportOutcome), REPORTED);
  }

  /**
   Finish errs, the read after it works and shows a row in flight, and the deadline passes: the person is told
   "succeeded", the run is recorded unknown.
   */
  lemma LostResultCanDisagree() returns (ws: seq<World>, acts: seq<Action>)
    ensures IsRun(ws, acts) && |acts| == 8 && Loses(ws[4], acts[4], 2) && acts[4] == Work(2, ReadVerdict)
    ensures 1 in ws[8].tables.approvals && ws[8].tables.approvals[1].execId == Some(2)
    ensures ws[8].tables.approvals[1].outcome == Some(OutcomeSucceeded)
    ensures 2 in ws[8].tables.runs && ws[8].tables.runs[2].state == Unknown && !RecordAgrees(ws[8], 2, 1)
  {
    ws, acts := Report();
    ws, acts := Extend(ws, acts, Tick(30000), REPORTED.(now := 30000));
    ws, acts := Extend(ws, acts, ClaimRun(9, 2, 30000), DoClaimRun(REPORTED.(now := 30000), 9, 2, 30000));
  }

  // ---------- a container recorded too late ----------

  const DIRECT := NewRun(0, "session", "ops", "ops", None, 5, 0)
  const CLAIMED := DIRECT.(cleanup := Cleaning, cleanupOwner := Some(9), cleanupUntilMs := 60000, state := Unknown, endedMs := 30000)
  const CLEANER := Cleaner(2, 5, 60000, Gone, None, Unknown, None)

  const BEGUN := START.(tables := Tables(map[], map[2 := DIRECT]), workers := map[2 := Worker(5, None, Ready)], execs := {2})
  const ORPHANED := BEGUN.(now := 30000, workers := map[], creating := {2}, dirs := {2})
  const SEARCHED := ORPHANED.(tables := Tables(map[], map[2 := CLAIMED]), cleaners := map[9 := CLEANER], claims := {9})
  const LATE := SEARCHED.(tables := Tables(map[], map[2 := CLAIMED.(containerId := Some(3))]), creating := {}, born := map[3 := 2], live := {3})

  lemma Equip() returns (ws: seq<World>, acts: seq<Action>)
    ensures IsRun(ws, acts) && |acts| == 3 && ws[3] == AtPc(BEGUN.(dirs := {2}), 2, Equipped)
  {
    ws, acts := [START], [];
    ws, acts := Extend(ws, acts, BeginDirect(2, 0, "session", "ops", "ops", None, 5, 0), BEGUN);
    ws, acts := Extend(ws, acts, Work(2, AdmitWorkspace(0)), AtPc(BEGUN, 2, Admitted));
    ws, acts := Extend(ws, acts, Work(2, MakeWorkspace), AtPc(BEGUN.(dirs := {2}), 2, Equipped));
  }

  lemma Orphan() returns (ws: seq<World>, acts: seq<Action>)
    ensures IsRun(ws, acts) && |acts| == 6 && ws[6] == ORPHANED
  {
    ws, acts := Equip();
    ws, acts := Extend(ws, acts, Work(2, RequestContainer), AtPc(BEGUN.(dirs := {2}, creating := {2}), 2, Requested));
    ws, acts := Extend(ws, acts, Work(2, StopWorker), ORPHANED.(now := 0));
    ws, acts := Extend(ws, acts, Tick(30000), ORPHANED);
  }

  lemma Search() returns (ws: seq<World>, acts: seq<Action>)
    ensures IsRun(ws, acts) && |acts| == 10 && ws[10] == SEARCHED
  {
    ws, acts := Orphan();
    ws, acts := Extend(ws, acts, ClaimRun(9, 2, 30000), CleanerAtPc(SEARCHED, 9, Claimed));
    ws, acts := Extend(ws, acts, Clean(9, ReadClaim), CleanerAtPc(SEARCHED, 9, Reread));
    ws, acts := Extend(ws, acts, Clean(9, RecordEvidence), CleanerAtPc(SEARCHED, 9, Evidenced));
    ws, acts := Extend(ws, acts, Clean(9, InspectContainer(None)), SEARCHED);
  }

  /**
   A container that a recovery scan records during a cleanup survives it: the row says cleaned and names a
   container that still exists. It never ran (`NoStartAfterCleaned`), and the next scan finds it.
   `CleanedContainerLivesIff` says exactly when this happens.
   */
  lemma AdoptedContainerCanSurviveCleaned() returns (ws: seq<World>, acts: seq<Action>)
    ensures IsRun(ws, acts) && |acts| == 14
    ensures 2 in ws[14].tables.runs && ws[14].tables.runs[2].cleanup == Cleaned
    ensures ws[14].tables.runs[2].containerId == Some(3) && 3 in ws[14].live
  {
    ws, acts := Search();
    ws, acts := Extend(ws, acts, ContainerAppears(2, 3), SEARCHED.(creating := {}, born := map[3 := 2], live := {3}));
    ws, acts := Extend(ws, acts, ScanAdopts(2, 3, 30000), LATE);
    ws, acts := Extend(ws, acts, Clean(9, RemoveWorkspace), CleanerAtPc(LATE.(dirs := {}), 9, Settling(true)));
    ws, acts := Extend(ws, acts, Clean(9, SettleClaim), DoSettleClaim(CleanerAtPc(LATE.(dirs := {}), 9, Settling(true)), 9));
  }

  const SWEPT := DoSettleClaim(CleanerAtPc(SEARCHED.(dirs := {}), 9, Settling(true)), 9)

  lemma Sweep() returns (ws: seq<World>, acts: seq<Action>)
    ensures IsRun(ws, acts) && |acts| == 12 && ws[12] == SWEPT
  {
    ws, acts := Search();
    ws, acts := Extend(ws, acts, Clean(9, RemoveWorkspace), CleanerAtPc(SEARCHED.(dirs := {}), 9, Settling(true)));
    ws, acts := Extend(ws, acts, Clean(9, SettleClaim), SWEPT);
  }

  /** The same when the cleanup is long over: the scan's statement does not look at the cleanup state. */
  lemma AdoptedContainerCanComeAfterCleaned() returns (ws: seq<World>, acts: seq<Action>)
    ensures IsRun(ws, acts) && |acts| == 14
    ensures 2 in ws[12].tables.runs && ws[12].tables.runs[2].cleanup == Cleaned && ws[12].cleaners == map[]
    ensures 2 in ws[14].tables.runs && ws[14].tables.runs[2].cleanup == Cleaned
    ensures ws[14].tables.runs[2].containerId == Some(3) && 3 in ws[14].live
  {
    ws, acts := Sweep();
    var born := SWEPT.(creating := {}, born := map[3 := 2], live := {3});
    ws, acts := Extend(ws, acts, ContainerAppears(2, 3), born);
    ws, acts := Extend(ws, acts, ScanAdopts(2, 3, 30000), Apply(born, ScanAdopts(2, 3, 30000)));
  }
}
