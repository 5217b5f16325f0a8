/**
 The code that issues the statements: approvals and run journal as an object over the two tables, and one
 uninterrupted worker or cleaner as a method. Each method is proved to be a path of the protocol, so what
 `ExecutionTheorems` says of every interleaving holds of it as well.
 */
module ExecutionHost {
  import opened Base
  import T = ExecutionTables
  import opened ExecutionTables
  import opened ExecutionProtocol

  /** Approvals and Journal: one database handle. */
  class Store {
    var approvals: map<Id, Approval>
    var runs: map<Id, Run>

    function View(): Tables
      reads this
    {
      Tables(approvals, runs)
    }

    /** A request for consent, under an id never drawn before. */
    method Create(now: int, id: Id, who: Caller)
      requires id !in approvals
      modifies this
      ensures View() == old(View()).(approvals := old(approvals)[id := NewApproval(now, who.session, who.agent, who.call, who.request, who.hash)])
    {
      approvals := approvals[id := Approval(who.session, who.agent, who.call, who.request, who.hash, Pending,
                                            now, now + APPROVAL_TTL_MS, 0, "", None, None)];
    }

    method Resolve(now: int, id: Id, session: string, actor: string, approve: bool, hash: Hash) returns (ok: bool)
      modifies this
      ensures (View(), ok) == T.Resolve(old(View()), now, id, session, actor, approve, hash)
    {
      ok := false;
      if id in approvals {
        var a := approvals[id];
        if a.session == session && a.state == Pending && (!approve || (now < a.expiresMs && a.configHash == hash)) {
          approvals := approvals[id := a.(state := if approve then Approved else ApprovalState.Rejected, resolvedMs := now, resolvedBy := actor)];
          ok := true;
        }
      }
    }

    /** The read of the row, then one transaction; any mismatch leaves both tables as they were. */
    method ConsumeIntent(now: int, id: Id, who: Caller, exec: Id, run: Run) returns (ok: bool)
      modifies this
      ensures (View(), ok) == T.Consume(old(View()), now, id, who, exec, run)
    {
      ok := false;
      if id !in approvals { return; }
      var a := approvals[id];
      if a.agent != who.agent || a.session != who.session || a.call != who.call || a.request != who.request { return; }
      if a.state != Approved || a.configHash != who.hash || a.expiresMs <= now { return; }
      if run.authority != Some(ApprovalRow(id)) || run.agent != who.agent || run.session != who.session
         || run.profile != who.request.profile { return; }
      if exec in runs { return; }
      runs := runs[exec := run];
      approvals := approvals[id := a.(state := Consumed, execId := Some(exec))];
      ok := true;
    }

    /** For the backends without a run row: one guarded UPDATE. */
    method ConsumeNative(now: int, id: Id, who: Caller) returns (ok: bool)
      modifies this
      ensures (View(), ok) == T.ConsumeNative(old(View()), now, id, who)
    {
      ok := false;
      if id !in approvals { return; }
      var a := approvals[id];
      if a.agent != who.agent || a.session != who.session || a.call != who.call || a.request != who.request { return; }
      if a.state != Approved || a.configHash != who.hash || a.expiresMs <= now { return; }
      approvals := approvals[id := a.(state := Consumed)];
      ok := true;
    }

    /** A run without an approval row: the insert fails on an id that is taken. */
    method InsertRun(exec: Id, run: Run) returns (ok: bool)
      modifies this
      ensures (View(), ok) == T.InsertRun(old(View()), exec, run)
    {
      ok := exec !in runs;
      if ok { runs := runs[exec := run]; }
    }

    method FinishApproval(id: Id, exec: Id, outcome: Outcome) returns (ok: bool)
      modifies this
      ensures (View(), ok) == T.FinishApproval(old(View()), id, exec, outcome)
    {
      ok := false;
      if id in approvals {
        var a := approvals[id];
        if a.state == Consumed && a.outcome == None && (a.execId == None || a.execId == Some(exec)) {
          approvals := approvals[id := a.(execId := Some(exec), outcome := Some(outcome))];
          ok := true;
        }
      }
    }

    method Abandon(id: Id) returns (ok: bool)
      modifies this
      ensures (View(), ok) == T.Abandon(old(View()), id)
    {
      ok := false;
      if id in approvals && approvals[id].state == Approved {
        approvals := approvals[id := approvals[id].(state := Abandoned)];
        ok := true;
      }
    }

    method Created(now: int, exec: Id, owner: Id, cid: Id) returns (ok: bool)
      modifies this
      ensures (View(), ok) == T.Created(old(View()), now, exec, owner, cid)
    {
      ok := false;
      if exec in runs {
        var r := runs[exec];
        if r.owner == owner && r.state == Prepared && r.containerId == None && r.cleanup == CleanupPending && now < r.deadlineMs {
          runs := runs[exec := r.(containerId := Some(cid))];
          ok := true;
        }
      }
    }

    method Starting(now: int, exec: Id, owner: Id, timeoutMs: nat) returns (ok: bool)
      modifies this
      ensures (View(), ok) == T.Starting(old(View()), now, exec, owner, timeoutMs)
    {
      ok := false;
      if exec in runs {
        var r := runs[exec];
        if r.owner == owner && r.state == Prepared && r.containerId != None && r.cleanup == CleanupPending && now < r.deadlineMs {
          runs := runs[exec := r.(state := Running, deadlineMs := now + timeoutMs + STARTUP_GRACE_MS)];
          ok := true;
        }
      }
    }

    method Finish(now: int, exec: Id, owner: Id, result: Ending) returns (ok: bool)
      modifies this
      ensures (View(), ok) == T.FinishRun(old(View()), now, exec, owner, result)
    {
      ok := false;
      if exec in runs {
        var r := runs[exec];
        if r.owner == owner && (r.state == Prepared || r.state == Running) && r.cleanup == CleanupPending {
          runs := runs[exec := r.(state := result, endedMs := now)];
          ok := true;
        }
      }
    }

    method Claim(now: int, exec: Id, owner: Id, claim: Id) returns (ok: bool)
      modifies this
      ensures (View(), ok) == T.Claim(old(View()), now, exec, owner, claim)
    {
      ok := false;
      if exec in runs {
        var r := runs[exec];
        if r.owner == owner && (Terminal(r.state) || r.deadlineMs <= now) && (r.cleanup != Cleaning || r.cleanupUntilMs <= now) {
          runs := runs[exec := r.(
            cleanup := Cleaning, cleanupOwner := Some(claim), cleanupUntilMs := now + CLEANUP_LEASE_MS,
            state := if Terminal(r.state) then r.state else Unknown,
            endedMs := if r.endedMs == 0 then now else r.endedMs)];
          ok := true;
        }
      }
    }

    method RecordOutcome(exec: Id, authority: Option<Authority>, state: RunState) returns (ok: bool)
      modifies this
      ensures (View(), ok) == T.RecordOutcome(old(View()), exec, authority, state)
    {
      ok := false;
      match authority {
        case Some(ApprovalRow(id)) =>
          if id in approvals && approvals[id].state == Consumed && approvals[id].outcome == None {
            approvals := approvals[id := approvals[id].(execId := Some(exec), outcome := Some(Image(state)))];
            ok := true;
          }
        case _ =>
      }
    }

    method Adopt(exec: Id, owner: Id, cid: Id, claim: Id) returns (ok: bool)
      modifies this
      ensures (View(), ok) == T.AdoptByCleaner(old(View()), exec, owner, cid, claim)
    {
      ok := false;
      if exec in runs && runs[exec].owner == owner && runs[exec].containerId == None && runs[exec].cleanupOwner == Some(claim) {
        runs := runs[exec := runs[exec].(containerId := Some(cid))];
        ok := true;
      }
    }

    /** The recovery scan's statement: no claim, but the clock value the scan started with. */
    method AdoptByScan(seenMs: int, exec: Id, owner: Id, cid: Id) returns (ok: bool)
      modifies this
      ensures (View(), ok) == T.AdoptByScan(old(View()), seenMs, exec, owner, cid)
    {
      ok := false;
      if exec in runs {
        var r := runs[exec];
        if r.owner == owner && r.containerId == None && (Terminal(r.state) || r.deadlineMs <= seenMs) {
          runs := runs[exec := r.(containerId := Some(cid))];
          ok := true;
        }
      }
    }

    method Settle(exec: Id, claim: Id, clean: bool) returns (ok: bool)
      modifies this
      ensures (View(), ok) == T.Settle(old(View()), exec, claim, clean)
    {
      ok := false;
      if exec in runs && runs[exec].cleanupOwner == Some(claim) {
        var r := runs[exec];
        runs := runs[exec := r.(cleanup := if clean then Cleaned else CleanupPending, cleanupFailed := !clean, cleanupUntilMs := 0)];
        ok := true;
      }
    }
  }

  /** From `w` to `w'` nothing of another run changed, nothing was made, and no time passed. */
  ghost predicate Spares(w: World, w': World, exec: Id) {
    && (forall e :: e != exec ==> (e in w'.tables.runs <==> e in w.tables.runs))
    && (forall e :: e != exec && e in w.tables.runs ==> w'.tables.runs[e] == w.tables.runs[e])
    && w'.now == w.now && w'.born == w.born
    && w'.live <= w.live && (forall x :: x in w.live && x !in w'.live ==> x in w.born && w.born[x] == exec)
    && w'.dirs <= w.dirs <= w'.dirs + {exec}
  }

  /** A recorded container stays recorded, and a new one carries the run's labels. */
  predicate ContainerKept(w: World, w': World, exec: Id) {
    exec in w.tables.runs && exec in w'.tables.runs ==>
      var before, after := w.tables.runs[exec].containerId, w'.tables.runs[exec].containerId;
      if before.Some? then after == before else after.Some? ==> after.value in w'.born && w'.born[after.value] == exec
  }

  /** What a cleaner writes before it touches anything: how the run ended, into a spent approval without an outcome. */
  predicate Evidence(before: map<Id, Approval>, after: map<Id, Approval>, exec: Id, authority: Option<Authority>, state: RunState) {
    match authority
    case Some(ApprovalRow(id)) =>
      if id in before && before[id].state == Consumed && before[id].outcome == None
      then after == before[id := before[id].(execId := Some(exec), outcome := Some(Image(state)))]
      else after == before
    case _ => after == before
  }

  /** How the outside world answers one cleanup. */
  datatype CleanupFaults = CleanupFaults(inspect: bool, remove: bool, workspace: bool)

  /** One host: its store, its container daemon and its workspaces. The ghost part is the history of steps. */
  class Host {
    const store: Store
    var now: int
    var creating: set<Id>
    var toStart: map<Id, Id>
    var born: map<Id, Id>
    var live: set<Id>
    var dirs: set<Id>
    ghost var workers: map<Id, Worker>
    ghost var cleaners: map<Id, Cleaner>
    ghost var execs: set<Id>
    ghost var claims: set<Id>
    ghost var startings: seq<Id>
    ghost var launches: seq<Id>
    ghost var ws: seq<World>
    ghost var acts: seq<Action>

    constructor (store: Store, now: int)
      ensures this.store == store && this.now == now && Valid() && acts == []
      ensures store.View() == old(store.View()) && live == {} && dirs == {} && cleaners == map[] && workers == map[]
    {
      this.store, this.now := store, now;
      creating, toStart, born, live, dirs := {}, map[], map[], {}, {};
      workers, cleaners, execs, claims, startings, launches := map[], map[], {}, {}, [], [];
      acts := [];
      ws := [World(now, store.View(), map[], map[], {}, {}, {}, map[], map[], {}, {}, [], [])];
    }

    ghost function View(): World
      reads this, store
    {
      World(now, store.View(), workers, cleaners, execs, claims, creating, toStart, born, live, dirs, startings, launches)
    }

    /** The worlds this host went through are a path of the protocol that ends here. */
    ghost predicate Valid()
      reads this, store
    {
      IsPath(ws, acts) && ws[|acts|] == View()
    }

    /** Nothing but steps of the protocol happened since the history was `before`. */
    ghost predicate Continues(before: seq<Action>)
      reads this, store
    {
      Valid() && before <= acts
    }

    ghost method Remember(w: World)
      requires w.now == now && w.tables == store.View() && w.creating == creating && w.toStart == toStart
      requires w.born == born && w.live == live && w.dirs == dirs
      modifies this`workers, this`cleaners, this`execs, this`claims, this`startings, this`launches
      ensures View() == w
    {
      workers, cleaners, execs, claims := w.workers, w.cleaners, w.execs, w.claims;
      startings, launches := w.startings, w.launches;
    }

    ghost method Append(a: Action, w: World)
      requires IsPath(ws, acts) && Enabled(ws[|acts|], a) && Apply(ws[|acts|], a) == w
      modifies this`ws, this`acts
      ensures IsPath(ws, acts) && ws[|acts|] == w && acts == old(acts) + [a]
    {
      ExtendPath(ws, acts, a, w);
      ws, acts := ws + [w], acts + [a];
    }

    /** Takes the bookkeeping of a step over from the world it leads to. */
    ghost method Log(a: Action, w: World)
      requires IsPath(ws, acts) && Enabled(ws[|acts|], a) && Apply(ws[|acts|], a) == w
      requires w.now == now && w.tables == store.View() && w.creating == creating && w.toStart == toStart
      requires w.born == born && w.live == live && w.dirs == dirs
      modifies this`workers, this`cleaners, this`execs, this`claims, this`startings, this`launches, this`ws, this`acts
      ensures Continues(old(acts)) && View() == w && acts == old(acts) + [a]
    {
      Append(a, w);
      Remember(w);
    }

    // ---------- Approvals, and runs without one ----------

    method Ask(id: Id, who: Caller)
      requires Valid() && id !in store.approvals
      modifies this, store
      ensures Continues(old(acts)) && View() == Apply(old(View()), CreateApproval(id, old(now), who))
    {
      ghost var w := View();
      store.Create(now, id, who);
      Log(CreateApproval(id, now, who), Apply(w, CreateApproval(id, now, who)));
    }

    method Decide(id: Id, session: string, actor: string, approve: bool, hash: Hash) returns (ok: bool)
      requires Valid()
      modifies this, store
      ensures Continues(old(acts)) && View() == Apply(old(View()), ResolveApproval(id, old(now), session, actor, approve, hash))
      ensures ok == CanResolve(old(store.View()), old(now), id, session, approve, hash)
    {
      ghost var w := View();
      ok := store.Resolve(now, id, session, actor, approve, hash);
      Log(ResolveApproval(id, now, session, actor, approve, hash), Apply(w, ResolveApproval(id, now, session, actor, approve, hash)));
    }

    method Abandon(id: Id)
      requires Valid()
      modifies this, store
      ensures Continues(old(acts)) && View() == Apply(old(View()), AbandonApproval(id))
    {
      ghost var w := View();
      var _ := store.Abandon(id);
      Log(AbandonApproval(id), Apply(w, AbandonApproval(id)));
    }

    /** For a backend that keeps no run row. */
    method SpendNative(exec: Id, id: Id, who: Caller) returns (ok: bool)
      requires Valid() && exec !in execs
      modifies this, store
      ensures Continues(old(acts)) && View() == DoBeginNative(old(View()), exec, id, old(now), who)
      ensures ok == CanConsume(old(store.View()), old(now), id, who)
    {
      ghost var w := View();
      ok := store.ConsumeNative(now, id, who);
      Log(BeginNative(exec, id, now, who), DoBeginNative(w, exec, id, now, who));
    }

    /** A run that needs no approval row: none at all, or a grant given earlier. */
    method BeginRun(exec: Id, session: string, agent: string, profile: string, grant: Option<Id>, owner: Id, timeoutMs: nat) returns (ok: bool)
      requires Valid() && exec !in execs
      modifies this, store
      ensures Continues(old(acts)) && View() == DoBeginDirect(old(View()), exec, old(now), session, agent, profile, grant, owner, timeoutMs)
      ensures ok == (exec !in old(store.runs))
    {
      ghost var w := View();
      var authority := if grant.Some? then Some(SessionGrant(grant.value)) else None;
      ok := store.InsertRun(exec, NewRun(now, session, agent, profile, authority, owner, timeoutMs));
      Log(BeginDirect(exec, now, session, agent, profile, grant, owner, timeoutMs),
          DoBeginDirect(w, exec, now, session, agent, profile, grant, owner, timeoutMs));
    }

    // ---------- Cleanup, step by step ----------

    method ClaimRow(exec: Id, claim: Id, at: int) returns (ok: bool)
      requires Valid() && claim !in claims && exec in store.runs && at <= now
      modifies this, store
      ensures Continues(old(acts)) && View() == DoClaimRun(old(View()), claim, exec, at)
      ensures ok == Claimable(old(store.runs[exec]), at)
    {
      ghost var w := View();
      ok := store.Claim(at, exec, store.runs[exec].owner, claim);
      Log(ClaimRun(claim, exec, at), DoClaimRun(w, claim, exec, at));
    }

    method ReadBack(claim: Id, exec: Id) returns (r: Option<Run>)
      requires Valid() && CleanerAt(View(), claim) && cleaners[claim].pc == Claimed && cleaners[claim].exec == exec
      modifies this, store
      ensures Continues(old(acts)) && View() == DoReadClaim(old(View()), claim)
      ensures r == if exec in store.runs && store.runs[exec].cleanupOwner == Some(claim) then Some(store.runs[exec]) else None
    {
      ghost var w := View();
      r := None;
      if exec in store.runs && store.runs[exec].cleanupOwner == Some(claim) { r := Some(store.runs[exec]); }
      Log(Clean(claim, ReadClaim), DoReadClaim(w, claim));
    }

    method WriteEvidence(claim: Id, exec: Id, r: Run)
      requires Valid() && CleanerAt(View(), claim) && cleaners[claim].pc == Reread && cleaners[claim].exec == exec
      requires cleaners[claim].authority == r.authority && cleaners[claim].state == r.state
      modifies this, store
      ensures Continues(old(acts)) && View() == DoRecordEvidence(old(View()), claim)
    {
      ghost var w := View();
      var _ := store.RecordOutcome(exec, r.authority, r.state);
      Log(Clean(claim, RecordEvidence), DoRecordEvidence(w, claim));
    }

    method Inspect(claim: Id, exec: Id, recorded: Option<Id>) returns (found: Option<Id>)
      requires Valid() && CleanerAt(View(), claim) && cleaners[claim].pc == Evidenced && cleaners[claim].exec == exec
      requires cleaners[claim].seen == recorded && (recorded.Some? ==> BelongsTo(recorded.value, exec))
      modifies this, store
      ensures Continues(old(acts)) && View() == DoInspectContainer(old(View()), claim, found)
      ensures recorded.Some? ==> found == if recorded.value in live then recorded else None
      ensures found.Some? ==> BelongsTo(found.value, exec) && found.value in live
      ensures found == None ==> forall x :: x in live && x in born && (recorded.Some? ==> recorded.value == x) ==> born[x] != exec
    {
      ghost var w := View();
      if recorded.Some? {
        found := if recorded.value in live then recorded else None;
      } else if x :| x in live && x in born && born[x] == exec {
        found := Some(x);
      } else {
        found := None;
      }
      Log(Clean(claim, InspectContainer(found)), DoInspectContainer(w, claim, found));
    }

    predicate BelongsTo(cid: Id, exec: Id)
      reads this
    {
      cid in born && born[cid] == exec
    }

    method AdoptContainer(claim: Id, exec: Id, owner: Id, cid: Id) returns (ok: bool)
      requires Valid() && CleanerAt(View(), claim) && cleaners[claim].pc == Found(cid)
      requires cleaners[claim].exec == exec && cleaners[claim].owner == owner
      modifies this, store
      ensures Continues(old(acts)) && View() == DoAdoptFound(old(View()), claim)
      ensures ok == AdoptByCleaner(old(store.View()), exec, owner, cid, claim).1
    {
      ghost var w := View();
      ok := store.Adopt(exec, owner, cid, claim);
      Log(Clean(claim, AdoptFound), DoAdoptFound(w, claim));
    }

    method Remove(claim: Id, cid: Id)
      requires Valid() && CleanerAt(View(), claim) && cleaners[claim].pc == Removing(cid)
      modifies this
      ensures Continues(old(acts)) && View() == DoRemoveContainer(old(View()), claim)
    {
      ghost var w := View();
      live := live - {cid};
      Log(Clean(claim, RemoveContainer), DoRemoveContainer(w, claim));
    }

    method RemoveDir(claim: Id, exec: Id)
      requires Valid() && CleanerAt(View(), claim) && cleaners[claim].pc == Gone && cleaners[claim].exec == exec
      modifies this
      ensures Continues(old(acts)) && View() == DoRemoveWorkspace(old(View()), claim)
    {
      ghost var w := View();
      dirs := dirs - {exec};
      Log(Clean(claim, RemoveWorkspace), DoRemoveWorkspace(w, claim));
    }

    ghost method Fail(claim: Id)
      requires Valid() && CleanerAt(View(), claim)
      requires cleaners[claim].pc == Evidenced || cleaners[claim].pc.Found? || cleaners[claim].pc.Removing? || cleaners[claim].pc == Gone
      modifies this`workers, this`cleaners, this`execs, this`claims, this`startings, this`launches, this`ws, this`acts
      ensures Continues(old(acts)) && View() == CleanerAtPc(old(View()), claim, Settling(false))
    {
      Log(Clean(claim, FailCleanup), CleanerAtPc(View(), claim, Settling(false)));
    }

    method SettleRow(claim: Id, exec: Id, clean: bool)
      requires Valid() && CleanerAt(View(), claim) && cleaners[claim].pc == Settling(clean) && cleaners[claim].exec == exec
      modifies this, store
      ensures Continues(old(acts)) && View() == DoSettleClaim(old(View()), claim)
    {
      ghost var w := View();
      var _ := store.Settle(exec, claim, clean);
      Log(Clean(claim, SettleClaim), DoSettleClaim(w, claim));
    }

    /** Cleaner `claim` holds run `exec` and stands at `pc`; `r` is the row it works on. */
    ghost predicate Holds(claim: Id, exec: Id, pc: CleanerPc, r: Run)
      reads this, store
    {
      && Valid()
      && CleanerAt(View(), claim) && cleaners[claim].pc == pc
      && cleaners[claim].exec == exec && cleaners[claim].owner == r.owner
      && exec in store.runs && store.runs[exec] == r
      && r.cleanupOwner == Some(claim) && Terminal(r.state)
    }

    /** A cleanup under `claim` starts nothing and draws no other nonce. */
    twostate predicate Bystanders(claim: Id)
      reads this
    {
      workers == old(workers) && startings == old(startings) && claims <= old(claims) + {claim}
    }

    method EnterCleanup(exec: Id, claim: Id, at: int) returns (ok: bool, r: Run)
      requires Valid() && claim !in claims && exec in store.runs && at <= now
      modifies this, store
      ensures Continues(old(acts)) && Spares(old(View()), View(), exec) && live == old(live) && dirs == old(dirs) && Bystanders(claim)
      ensures ok == Claimable(old(store.runs[exec]), at)
      ensures !ok ==> store.View() == old(store.View())
      ensures ok ==>
                && Holds(claim, exec, Evidenced, r) && cleaners[claim].seen == r.containerId
                && r.containerId == old(store.runs[exec].containerId)
                && r.state == (if Terminal(old(store.runs[exec].state)) then old(store.runs[exec].state) else Unknown)
                && Evidence(old(store.approvals), store.approvals, exec, old(store.runs[exec].authority), r.state)
    {
      r := store.runs[exec];
      ok := ClaimRow(exec, claim, at);
      if ok {
        var read := ReadBack(claim, exec);
        r := read.value;
        WriteEvidence(claim, exec, r);
      }
    }

    /** The container of a run, recorded first if it was not. */
    method RemoveFound(exec: Id, claim: Id, r: Run, cid: Id, fails: bool) returns (ok: bool)
      requires Holds(claim, exec, if r.containerId == None then Found(cid) else Removing(cid), r)
      requires (r.containerId == None || r.containerId == Some(cid)) && BelongsTo(cid, exec)
      modifies this, store
      ensures Continues(old(acts)) && Spares(old(View()), View(), exec) && dirs == old(dirs) && Bystanders(claim)
      ensures exec in store.runs && Holds(claim, exec, if ok then Gone else Settling(false), store.runs[exec])
      ensures store.runs[exec].state == r.state && store.runs[exec].containerId == Some(cid)
      ensures ok ==> cid !in live
      ensures ok == !fails && store.approvals == old(store.approvals)
    {
      ok := true;
      if r.containerId == None { ok := AdoptContainer(claim, exec, r.owner, cid); }
      if ok {
        if fails {
          ok := false;
          Fail(claim);
        } else {
          Remove(claim, cid);
        }
      }
    }

    method ReleaseContainer(exec: Id, claim: Id, r: Run, faults: CleanupFaults) returns (ok: bool)
      requires Holds(claim, exec, Evidenced, r) && cleaners[claim].seen == r.containerId
      requires r.containerId.Some? ==> BelongsTo(r.containerId.value, exec)
      modifies this, store
      ensures Continues(old(acts)) && Spares(old(View()), View(), exec) && dirs == old(dirs) && Bystanders(claim)
      ensures exec in store.runs && Holds(claim, exec, if ok then Gone else Settling(false), store.runs[exec])
      ensures store.runs[exec].state == r.state && ContainerKept(old(View()), View(), exec)
      ensures ok && store.runs[exec].containerId.Some? ==> store.runs[exec].containerId.value !in live
      ensures (!faults.inspect && !faults.remove ==> ok) && (ok ==> !faults.inspect)
      ensures store.approvals == old(store.approvals)
    {
      if faults.inspect {
        Fail(claim);
        return false;
      }
      ok := true;
      var found := Inspect(claim, exec, r.containerId);
      if found.Some? { ok := RemoveFound(exec, claim, r, found.value, faults.remove); }
    }

    method Conclude(exec: Id, claim: Id, r: Run, released: bool, faults: CleanupFaults) returns (ok: bool)
      requires Holds(claim, exec, if released then Gone else Settling(false), r)
      modifies this, store
      ensures Continues(old(acts)) && Spares(old(View()), View(), exec) && live == old(live) && Bystanders(claim)
      ensures exec in store.runs && store.runs[exec].cleanup == (if ok then Cleaned else CleanupPending)
      ensures store.runs[exec].state == r.state && store.runs[exec].containerId == r.containerId
      ensures ok <==> released && !faults.workspace
      ensures ok ==> exec !in dirs
      ensures store.approvals == old(store.approvals)
    {
      ok := released && !faults.workspace;
      if ok {
        RemoveDir(claim, exec);
      } else if released {
        Fail(claim);
      }
      SettleRow(claim, exec, ok);
    }

    /** What a claimed cleanup does after its evidence: container, workspace, verdict. */
    method Reclaim(exec: Id, claim: Id, r: Run, faults: CleanupFaults) returns (ok: bool)
      requires Holds(claim, exec, Evidenced, r) && cleaners[claim].seen == r.containerId
      requires r.containerId.Some? ==> BelongsTo(r.containerId.value, exec)
      modifies this, store
      ensures Continues(old(acts)) && Spares(old(View()), View(), exec) && Bystanders(claim)
      ensures exec in store.runs && store.runs[exec].cleanup == (if ok then Cleaned else CleanupPending)
      ensures store.runs[exec].state == r.state && ContainerKept(old(View()), View(), exec)
      ensures ok ==> exec !in dirs && (store.runs[exec].containerId.Some? ==> store.runs[exec].containerId.value !in live)
      ensures (!faults.inspect && !faults.remove && !faults.workspace ==> ok) && (ok ==> !faults.inspect && !faults.workspace)
      ensures store.approvals == old(store.approvals)
    {
      var released := ReleaseContainer(exec, claim, r, faults);
      ok := Conclude(exec, claim, store.runs[exec], released, faults);
    }

    /**
     One whole Cleanup that nothing interrupts: claim, read back, evidence, container, workspace, verdict.
     Refused, it changes no row. Otherwise the run is terminal, and it ends cleaned exactly when every outside
     call worked: then its recorded container and its workspace are gone.
     */
    method Cleanup(exec: Id, claim: Id, at: int, faults: CleanupFaults) returns (ok: bool)
      requires Valid() && claim !in claims && at <= now
      requires exec in store.runs && store.runs[exec].containerId.Some? ==> BelongsTo(store.runs[exec].containerId.value, exec)
      modifies this, store
      ensures Continues(old(acts)) && Spares(old(View()), View(), exec) && Bystanders(claim)
      ensures exec !in old(store.runs) || !Claimable(old(store.runs[exec]), at) ==>
                !ok && store.View() == old(store.View()) && live == old(live) && dirs == old(dirs)
      ensures exec in old(store.runs) && Claimable(old(store.runs[exec]), at) ==>
                && exec in store.runs
                && store.runs[exec].state == (if Terminal(old(store.runs[exec].state)) then old(store.runs[exec].state) else Unknown)
                && store.runs[exec].cleanup == (if ok then Cleaned else CleanupPending)
                && ContainerKept(old(View()), View(), exec)
                && Evidence(old(store.approvals), store.approvals, exec, old(store.runs[exec].authority), store.runs[exec].state)
                && (ok ==> exec !in dirs && (store.runs[exec].containerId.Some? ==> store.runs[exec].containerId.value !in live))
                && (!faults.inspect && !faults.remove && !faults.workspace ==> ok) && (ok ==> !faults.inspect && !faults.workspace)
    {
      if exec !in store.runs { return false; }
      var r;
      ok, r := EnterCleanup(exec, claim, at);
      if ok { ok := Reclaim(exec, claim, r, faults); }
    }
  }
}
