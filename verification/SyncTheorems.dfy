/** What holds in every reachable state of `SyncProtocol`, disk faults and crashes included unless said otherwise. */
module SyncTheorems {
  import opened Base
  import opened SyncTables
  import opened SyncProtocol

  /** A stored snapshot is a complete directory holding exactly that revision of exactly that repository. */
  predicate SnapshotGood(s: State, id: Id) {
    id in s.projects ==>
      var p := s.projects[id];
      p.id == id && (p.snapshot.Some? ==> p.snapshot.value in s.dirs && s.dirs[p.snapshot.value] == Tree(p.url, p.branch, p.revision))
  }

  /** What a pull may rely on: the stored project still names the repository and the snapshot it started from. */
  predicate SameSource(p: Project, begun: Project) {
    p.id == begun.id && p.url == begun.url && p.branch == begun.branch && p.snapshot == begun.snapshot && p.revision == begun.revision
  }

  /** A reservation belongs to one pull that is still to publish, and the file says so. */
  predicate ReservationGood(w: World, id: Id) {
    id in w.s.busy ==>
      && w.up
      && Owns(w, w.s.busy[id])
      && w.workers[w.s.busy[id]].p.id == id
      && id in w.s.projects
      && InFlight(w.s.projects[id].phase)
      && w.s.projects[id].task == Some(w.s.busy[id])
      && SameSource(w.s.projects[id], w.workers[w.s.busy[id]].p)
  }

  /** The directory a pull checked out and has not published yet. */
  function Fresh(w: World, t: Id): Option<Name> {
    if t in w.workers && w.workers[t].pc.Fetched? then Discard(w.workers[t].p, w.workers[t].pc.result) else None
  }

  predicate WorkerGood(w: World, t: Id) {
    t in w.workers ==>
      var k := w.workers[t];
      && w.up
      && t in w.tasks
      && (k.pc != Published ==> k.p.id in w.s.busy && w.s.busy[k.p.id] == t)
      && (k.pc.Fetched? && k.pc.result.PulledTo? ==>
            && k.pc.result.name in w.s.dirs
            && w.s.dirs[k.pc.result.name] == Tree(k.p.url, k.p.branch, k.pc.result.revision))
  }

  /** The directory project `id` names. */
  function Stored(w: World, id: Id): Option<Name> {
    if id in w.s.projects then w.s.projects[id].snapshot else None
  }

  predicate Apart(a: Option<Name>, b: Option<Name>) { a.Some? ==> a != b }

  ghost predicate Good(w: World) {
    && (forall id :: SnapshotGood(w.s, id))
    && (forall id :: ReservationGood(w, id))
    && (forall t :: WorkerGood(w, t))
    && (forall i, j :: i != j ==> Apart(Stored(w, i), Stored(w, j)))
    && (forall i, t :: Apart(Stored(w, i), Fresh(w, t)))
    && (forall t, u :: t != u ==> Apart(Fresh(w, t), Fresh(w, u)))
  }

  lemma KeepSnapshot(w: World, a: Action, id: Id)
    requires Good(w) && Enabled(w, a)
    ensures SnapshotGood(Apply(w, a).s, id)
  {
    assert SnapshotGood(w.s, id) && ReservationGood(w, id);
    if a.PublishSync? {
      var k := w.workers[a.task];
      assert WorkerGood(w, a.task) && ReservationGood(w, k.p.id);
      assert Apart(Stored(w, id), Fresh(w, a.task));
      assert id != k.p.id ==> Apart(Stored(w, id), Stored(w, k.p.id));
    } else if a.SaveProject? {
      assert id != a.p.id ==> Apart(Stored(w, id), Stored(w, a.p.id));
    } else if a.DeleteProject? {
      assert id != a.id ==> Apart(Stored(w, id), Stored(w, a.id));
    }
  }

  lemma KeepReservation(w: World, a: Action, id: Id)
    requires Good(w) && Enabled(w, a)
    ensures ReservationGood(Apply(w, a), id)
  {
    assert ReservationGood(w, id);
    if a.BeginSync? {
      assert WorkerGood(w, a.task);
      assert SnapshotGood(w.s, id);
    } else if a.PublishSync? || a.ReleaseSync? {
      assert WorkerGood(w, a.task);
    }
  }

  /** The directory a pull is about to publish: its own fresh one, or the one its project still stores. */
  lemma PulledDirectory(w: World, t: Id)
    requires Good(w) && t in w.workers && w.workers[t].pc.Fetched? && w.workers[t].pc.result.PulledTo?
    ensures Some(w.workers[t].pc.result.name) in {Fresh(w, t), Stored(w, w.workers[t].p.id)}
  {
    assert WorkerGood(w, t) && ReservationGood(w, w.workers[t].p.id);
  }

  /** Nobody else's step touches that directory. */
  lemma KeepPulled(w: World, a: Action, t: Id)
    requires Good(w) && Enabled(w, a) && t in w.workers && w.workers[t].pc.Fetched? && w.workers[t].pc.result.PulledTo?
    requires !a.Crash? && !(a.PublishSync? && a.task == t)
    ensures w.workers[t].pc.result.name in w.s.dirs && w.workers[t].pc.result.name in Apply(w, a).s.dirs
    ensures Apply(w, a).s.dirs[w.workers[t].pc.result.name] == w.s.dirs[w.workers[t].pc.result.name]
  {
    PulledDirectory(w, t);
    assert WorkerGood(w, t);
    var mine := w.workers[t].p.id;
    if a.PublishSync? {
      var k := w.workers[a.task];
      assert WorkerGood(w, a.task) && ReservationGood(w, k.p.id);
      assert Apart(Fresh(w, t), Fresh(w, a.task)) && Apart(Stored(w, mine), Fresh(w, a.task));
      assert Apart(Stored(w, k.p.id), Fresh(w, t)) && Apart(Stored(w, k.p.id), Stored(w, mine));
    } else if a.SaveProject? {
      assert Apart(Stored(w, a.p.id), Fresh(w, t)) && (a.p.id != mine ==> Apart(Stored(w, a.p.id), Stored(w, mine)));
    } else if a.DeleteProject? {
      assert Apart(Stored(w, a.id), Fresh(w, t)) && (a.id != mine ==> Apart(Stored(w, a.id), Stored(w, mine)));
    }
  }

  lemma KeepWorker(w: World, a: Action, t: Id)
    requires Good(w) && Enabled(w, a)
    ensures WorkerGood(Apply(w, a), t)
  {
    assert WorkerGood(w, t);
    if t in w.workers && w.workers[t].pc.Fetched? && w.workers[t].pc.result.PulledTo? && !a.Crash? && !(a.PublishSync? && a.task == t) {
      KeepPulled(w, a, t);
    }
    if a.PublishSync? || a.ReleaseSync? {
      assert WorkerGood(w, a.task) && ReservationGood(w, w.workers[a.task].p.id);
    } else if a.Pull? {
      assert WorkerGood(w, a.task);
      assert ReservationGood(w, w.workers[a.task].p.id);
      assert SnapshotGood(w.s, w.workers[a.task].p.id);
    } else if a.BeginSync? {
      assert SnapshotGood(w.s, a.id);
      assert t in w.workers ==> ReservationGood(w, w.workers[t].p.id);
    }
  }

  lemma KeepStoredApart(w: World, a: Action, i: Id, j: Id)
    requires Good(w) && Enabled(w, a) && i != j
    ensures Apart(Stored(Apply(w, a), i), Stored(Apply(w, a), j))
  {
    assert Apart(Stored(w, i), Stored(w, j));
    if a.PublishSync? {
      var k := w.workers[a.task];
      assert WorkerGood(w, a.task) && ReservationGood(w, k.p.id);
      assert Apart(Stored(w, i), Fresh(w, a.task)) && Apart(Stored(w, j), Fresh(w, a.task));
    }
  }

  lemma KeepFreshUnstored(w: World, a: Action, i: Id, t: Id)
    requires Good(w) && Enabled(w, a)
    ensures Apart(Stored(Apply(w, a), i), Fresh(Apply(w, a), t))
  {
    assert Apart(Stored(w, i), Fresh(w, t));
    if a.PublishSync? {
      var k := w.workers[a.task];
      assert WorkerGood(w, a.task) && ReservationGood(w, k.p.id);
      assert a.task != t ==> Apart(Fresh(w, a.task), Fresh(w, t));
    } else if a.Pull? {
      assert SnapshotGood(w.s, i);
    }
  }

  lemma KeepFreshApart(w: World, a: Action, t: Id, u: Id)
    requires Good(w) && Enabled(w, a) && t != u
    ensures Apart(Fresh(Apply(w, a), t), Fresh(Apply(w, a), u))
  {
    assert Apart(Fresh(w, t), Fresh(w, u));
    if a.Pull? {
      assert WorkerGood(w, t) && WorkerGood(w, u);
    }
  }

  lemma GoodKept(w: World, a: Action)
    requires Good(w) && Enabled(w, a)
    ensures Good(Apply(w, a))
  {
    forall id ensures SnapshotGood(Apply(w, a).s, id) { KeepSnapshot(w, a, id); }
    forall id ensures ReservationGood(Apply(w, a), id) { KeepReservation(w, a, id); }
    forall t ensures WorkerGood(Apply(w, a), t) { KeepWorker(w, a, t); }
    forall i, j | i != j ensures Apart(Stored(Apply(w, a), i), Stored(Apply(w, a), j)) { KeepStoredApart(w, a, i, j); }
    forall i, t ensures Apart(Stored(Apply(w, a), i), Fresh(Apply(w, a), t)) { KeepFreshUnstored(w, a, i, t); }
    forall t, u | t != u ensures Apart(Fresh(Apply(w, a), t), Fresh(Apply(w, a), u)) { KeepFreshApart(w, a, t, u); }
  }

  lemma {:induction false} GoodReachable(ws: seq<World>, acts: seq<Action>, i: nat)
    requires IsRun(ws, acts) && i < |ws|
    ensures Good(ws[i])
  {
    if i > 0 {
      GoodReachable(ws, acts, i - 1);
      GoodKept(ws[i - 1], acts[i - 1]);
    }
  }

  /** One pull per project: two pulls that are still to publish are never for the same one. */
  lemma OneSyncPerProject(ws: seq<World>, acts: seq<Action>, i: nat, t: Id, u: Id)
    requires IsRun(ws, acts) && i < |ws|
    requires Owns(ws[i], t) && Owns(ws[i], u) && ws[i].workers[t].p.id == ws[i].workers[u].p.id
    ensures t == u
  {
    GoodReachable(ws, acts, i);
    assert WorkerGood(ws[i], t) && WorkerGood(ws[i], u);
  }

  /** Whatever happens to the disk: a stored snapshot is complete, of the stored revision and repository, and nobody else's. */
  lemma SnapshotsAreSound(ws: seq<World>, acts: seq<Action>, i: nat, id: Id)
    requires IsRun(ws, acts) && i < |ws| && id in ws[i].s.projects && ws[i].s.projects[id].snapshot.Some?
    ensures
      var p := ws[i].s.projects[id];
      p.snapshot.value in ws[i].s.dirs && ws[i].s.dirs[p.snapshot.value] == Tree(p.url, p.branch, p.revision)
    ensures forall other :: other in ws[i].s.projects && other != id ==> ws[i].s.projects[other].snapshot != ws[i].s.projects[id].snapshot
  {
    GoodReachable(ws, acts, i);
    assert SnapshotGood(ws[i].s, id);
    forall other | other in ws[i].s.projects && other != id
      ensures ws[i].s.projects[other].snapshot != ws[i].s.projects[id].snapshot
    {
      assert Apart(Stored(ws[i], id), Stored(ws[i], other));
    }
  }

  /** When a pull publishes, its project is still there, with the repository and the snapshot the pull began from. */
  lemma PublishFindsItsSource(ws: seq<World>, acts: seq<Action>, i: nat)
    requires IsRun(ws, acts) && i < |acts| && acts[i].PublishSync?
    ensures
      var begun := ws[i].workers[acts[i].task].p;
      begun.id in ws[i].s.projects && SameSource(ws[i].s.projects[begun.id], begun)
      && begun.id in ws[i].s.busy && ws[i].s.busy[begun.id] == acts[i].task
    ensures
      var begun := ws[i].workers[acts[i].task].p;
      var result := ws[i].workers[acts[i].task].pc.result;
      acts[i].disk && result.PulledTo? ==>
        && begun.id in ws[i + 1].s.projects
        && ws[i + 1].s.projects[begun.id].snapshot == Some(result.name)
        && result.name in ws[i + 1].s.dirs
        && ws[i + 1].s.dirs[result.name] == Tree(begun.url, begun.branch, result.revision)
  {
    GoodReachable(ws, acts, i);
    GoodReachable(ws, acts, i + 1);
    var begun := ws[i].workers[acts[i].task].p;
    assert WorkerGood(ws[i], acts[i].task) && ReservationGood(ws[i], begun.id);
    assert SnapshotGood(ws[i + 1].s, begun.id);
  }

  /** The deferred release after a pull changes nothing, so it cannot free the pull that came after it. */
  lemma StaleReleaseIsNoOp(ws: seq<World>, acts: seq<Action>, i: nat)
    requires IsRun(ws, acts) && i < |acts| && acts[i].ReleaseSync?
    ensures ws[i + 1].s == ws[i].s
  {
    GoodReachable(ws, acts, i);
    assert ReservationGood(ws[i], ws[i].workers[acts[i].task].p.id);
  }

  /** Shown as queued or running with no pull behind it. */
  predicate Stuck(w: World, id: Id) {
    w.up && id in w.s.projects && InFlight(w.s.projects[id].phase) && id !in w.s.busy
  }

  /** The two disk faults that can leave a project so: the outcome could not be written, or the restart could not mark it. */
  predicate Strands(w: World, a: Action, id: Id) {
    if a.PublishSync? then !a.disk && a.task in w.workers && w.workers[a.task].p.id == id
    else a.Boot? && !a.disk && id in w.s.projects && InFlight(w.s.projects[id].phase)
  }

  lemma StuckExactlyByFault(w: World, a: Action, id: Id)
    requires Good(w) && Enabled(w, a) && !Stuck(w, id)
    ensures Stuck(Apply(w, a), id) <==> Strands(w, a, id)
  {
    assert ReservationGood(w, id) && SnapshotGood(w.s, id);
    if a.PublishSync? || a.ReleaseSync? || a.ReportRunning? {
      assert WorkerGood(w, a.task) && ReservationGood(w, w.workers[a.task].p.id);
    }
  }

  /** The fault is possible: one failed write of an outcome leaves the project queued with nobody pulling. */
  lemma FailedWriteStrands(w: World, t: Id)
    requires Good(w) && w.up && t in w.workers && w.workers[t].pc.Fetched?
    ensures Enabled(w, PublishSync(t, false, true)) && Stuck(Apply(w, PublishSync(t, false, true)), w.workers[t].p.id)
  {
    assert WorkerGood(w, t) && ReservationGood(w, w.workers[t].p.id);
  }

  /** A reservation always shows on disk, under its task; without those two faults the converse holds as well. */
  lemma {:induction false} InFlightIffReserved(ws: seq<World>, acts: seq<Action>, i: nat, id: Id)
    requires IsRun(ws, acts) && i < |ws|
    ensures id in ws[i].s.busy ==>
      id in ws[i].s.projects && InFlight(ws[i].s.projects[id].phase) && ws[i].s.projects[id].task == Some(ws[i].s.busy[id])
    ensures (forall j :: 0 <= j < i ==> !Strands(ws[j], acts[j], id)) && ws[i].up && id in ws[i].s.projects ==>
      (InFlight(ws[i].s.projects[id].phase) <==> id in ws[i].s.busy)
  {
    GoodReachable(ws, acts, i);
    assert ReservationGood(ws[i], id);
    if (forall j :: 0 <= j < i ==> !Strands(ws[j], acts[j], id)) {
      NeverStuck(ws, acts, i, id);
    }
  }

  lemma {:induction false} NeverStuck(ws: seq<World>, acts: seq<Action>, i: nat, id: Id)
    requires IsRun(ws, acts) && i < |ws|
    requires forall j :: 0 <= j < i ==> !Strands(ws[j], acts[j], id)
    ensures !Stuck(ws[i], id)
  {
    if i > 0 {
      NeverStuck(ws, acts, i - 1, id);
      GoodReachable(ws, acts, i - 1);
      StuckExactlyByFault(ws[i - 1], acts[i - 1], id);
    }
  }

  /** A directory somebody still needs: a project names it, or a pull is about to publish it. */
  ghost predicate Needed(w: World, n: Name) {
    (exists id :: Stored(w, id) == Some(n)) || (exists t :: Fresh(w, t) == Some(n))
  }

  predicate Tidy(a: Action) {
    match a
    case Crash => false
    case PublishSync(_, _, removed) => removed
    case SaveProject(_, _, _, removed) => removed
    case DeleteProject(_, _, removed) => removed
    case _ => true
  }

  lemma StoredStaysNeeded(w: World, a: Action, n: Name, id: Id)
    requires Good(w) && Enabled(w, a) && Tidy(a) && n in Apply(w, a).s.dirs
    requires Stored(w, id) == Some(n)
    ensures Stored(Apply(w, a), id) == Some(n)
  {
    if a.PublishSync? {
      assert WorkerGood(w, a.task) && ReservationGood(w, w.workers[a.task].p.id);
    }
  }

  lemma FreshStaysNeeded(w: World, a: Action, n: Name, t: Id)
    requires Good(w) && Enabled(w, a) && Tidy(a) && n in Apply(w, a).s.dirs
    requires Fresh(w, t) == Some(n)
    ensures Fresh(Apply(w, a), t) == Some(n) || Stored(Apply(w, a), w.workers[t].p.id) == Some(n)
  {
    assert WorkerGood(w, t) && ReservationGood(w, w.workers[t].p.id);
  }

  lemma NeededKept(w: World, a: Action, n: Name)
    requires Good(w) && Enabled(w, a) && Tidy(a) && n in Apply(w, a).s.dirs && (n in w.s.dirs ==> Needed(w, n))
    ensures Needed(Apply(w, a), n)
  {
    if n !in w.s.dirs {
      assert a.Pull?;
      assert WorkerGood(w, a.task) && ReservationGood(w, w.workers[a.task].p.id) && SnapshotGood(w.s, w.workers[a.task].p.id);
      assert Fresh(Apply(w, a), a.task) == Some(n);
    } else if id :| Stored(w, id) == Some(n) {
      StoredStaysNeeded(w, a, n, id);
    } else {
      var t :| Fresh(w, t) == Some(n);
      FreshStaysNeeded(w, a, n, t);
    }
  }

  /** With no crash and no failed removal, no directory is ever left behind, not even by a write that failed. */
  lemma {:induction false} NoOrphans(ws: seq<World>, acts: seq<Action>, i: nat, n: Name)
    requires IsRun(ws, acts) && i < |ws| && ws[0].s.dirs == map[] && (forall j :: 0 <= j < i ==> Tidy(acts[j]))
    requires n in ws[i].s.dirs
    ensures Needed(ws[i], n)
  {
    if i > 0 {
      GoodReachable(ws, acts, i - 1);
      if n in ws[i - 1].s.dirs { NoOrphans(ws, acts, i - 1, n); }
      NeededKept(ws[i - 1], acts[i - 1], n);
    }
  }

  /** The steps that may change who a project is granted to. */
  predicate MayChangeGrants(a: Action, id: Id) {
    a.Revoke? || (a.GrantProject? && a.id == id) || (a.DeleteProject? && a.id == id)
  }

  lemma GrantsKept(w: World, a: Action, id: Id)
    requires Enabled(w, a) && !MayChangeGrants(a, id) && id in w.s.projects
    ensures id in Apply(w, a).s.projects && Apply(w, a).s.projects[id].grants == w.s.projects[id].grants
  {
  }

  /** Configuration edits and syncs never undo a grant update, however they interleave. */
  lemma {:induction false} GrantsSurviveEdits(ws: seq<World>, acts: seq<Action>, i: nat, j: nat, id: Id)
    requires IsRun(ws, acts) && i <= j < |ws| && id in ws[i].s.projects
    requires forall k :: i <= k < j ==> !MayChangeGrants(acts[k], id)
    ensures id in ws[j].s.projects && ws[j].s.projects[id].grants == ws[i].s.projects[id].grants
  {
    if i < j {
      GrantsSurviveEdits(ws, acts, i, j - 1, id);
      GrantsKept(ws[j - 1], acts[j - 1], id);
    }
  }

  /**
   A pull nobody interrupts ends with the project concluded, the reservation gone, every other project as it
   was, the new tree in place and the old one removed.
   */
  lemma WholeSync(s: State, id: Id, task: Id, name: Name, revision: string)
    requires id in s.projects && s.projects[id].id == id && id !in s.busy && name !in s.dirs
    ensures
      var p := s.projects[id];
      var (s', answer) := Sync(s, true, true, id, task, PulledTo(name, revision));
      && answer.Began?
      && s'.busy == s.busy
      && s'.projects == s.projects[id := p.(phase := Succeeded, task := None, error := "", requested := false,
                                             snapshot := Some(name), revision := revision)]
      && s'.dirs == Remove(s.dirs[name := Tree(p.url, p.branch, revision)], if p.snapshot == Some(name) then None else p.snapshot, true)
  {
    var (begun, answer) := Begin(s, true, id, task);
    assert begun.busy - {id} == s.busy;
  }
}
