/**
 What every step does to a project, told field by field from the step and the project it finds, and what a
 project's fields say about the steps before: a project shown as pulled was pulled, one shown as failed failed.
 */
module SyncHistory {
  import opened Base
  import opened SyncTables
  import opened SyncProtocol
  import opened SyncTheorems

  /** Step `a` writes down how the pull of project `id` ended. */
  predicate Publishes(w: World, a: Action, id: Id) {
    && a.PublishSync? && a.disk && a.task in w.workers && w.workers[a.task].pc.Fetched?
    && w.workers[a.task].p.id == id && id in w.s.projects
  }

  function Outcome(w: World, a: Action, id: Id): Pulled
    requires Publishes(w, a, id)
  {
    w.workers[a.task].pc.result
  }

  predicate PublishesTree(w: World, a: Action, id: Id) { Publishes(w, a, id) && Outcome(w, a, id).PulledTo? }

  /** A pull of `id` is reserved and queued. */
  predicate Queues(w: World, a: Action, id: Id) { a.BeginSync? && a.id == id && a.disk && id !in w.s.busy && id in w.s.projects }

  /** The project is saved over the one there was, or as a new one. */
  predicate Saves(w: World, a: Action, id: Id) { a.SaveProject? && a.p.id == id && a.valid && a.disk && id !in w.s.busy }

  /** It is saved with another repository, so nothing pulled before is its own any more. */
  predicate Moves(w: World, a: Action, id: Id) {
    Saves(w, a, id) && id in w.s.projects && (a.p.url != w.s.projects[id].url || a.p.branch != w.s.projects[id].branch)
  }

  predicate Deletes(w: World, a: Action, id: Id) { a.DeleteProject? && a.id == id && a.disk && id !in w.s.busy && id in w.s.projects }

  predicate Edits(w: World, a: Action, id: Id) { a.EditProject? && a.id == id && a.valid && a.disk && id in w.s.projects }

  /** A restart finds the project queued or running. */
  predicate Interrupts(w: World, a: Action, id: Id) {
    a.Boot? && a.disk && id in w.s.projects && (w.s.projects[id].phase == Queued || w.s.projects[id].phase == Running)
  }

  /** A step reaches the tables of projects only through its own project; the others are as they were. */
  predicate Names(w: World, a: Action, id: Id) {
    match a
    case BeginSync(i, _, _) => i == id
    case ReportRunning(task, _) => task in w.workers && w.workers[task].p.id == id
    case PublishSync(task, _, _) => task in w.workers && w.workers[task].p.id == id
    case SaveProject(p, _, _, _) => p.id == id
    case DeleteProject(i, _, _) => i == id
    case GrantProject(i, _, _, _) => i == id
    case EditProject(i, _, _, _, _) => i == id
    case Revoke(_, disk) => disk
    case Boot(disk) => disk
    case _ => false
  }

  lemma OthersStay(w: World, a: Action, id: Id)
    requires Enabled(w, a) && !Names(w, a, id)
    ensures id in Apply(w, a).s.projects <==> id in w.s.projects
    ensures id in w.s.projects ==> Apply(w, a).s.projects[id] == w.s.projects[id]
  {
  }

  /** Projects come by saving and go by deleting; a new one was never pulled and is granted to whom the card says. */
  lemma ProjectsAre(w: World, a: Action, id: Id)
    requires Enabled(w, a)
    ensures id in Apply(w, a).s.projects <==> (id in w.s.projects && !Deletes(w, a, id)) || Saves(w, a, id)
    ensures id !in w.s.projects && Saves(w, a, id) ==>
              var p := Apply(w, a).s.projects[id];
              && p.phase == Never && p.task == None && p.snapshot == None && p.revision == "" && p.error == ""
              && p.url == a.p.url && p.branch == a.p.branch && p.config == a.p.config && p.grants == a.p.grants
              && p.requested == a.p.requested
  {
  }

  function NextPhase(w: World, a: Action, id: Id): Phase
    requires id in w.s.projects
  {
    if Queues(w, a, id) then Queued
    else if a.ReportRunning? && a.disk && Names(w, a, id) && w.s.projects[id].task == Some(a.task) then Running
    else if Publishes(w, a, id) then (if Outcome(w, a, id).PulledTo? then Succeeded else Failed)
    else if Interrupts(w, a, id) then Interrupted
    else if Moves(w, a, id) then Never
    else w.s.projects[id].phase
  }

  function NextTask(w: World, a: Action, id: Id): Option<Id>
    requires id in w.s.projects
  {
    if Queues(w, a, id) then Some(a.task)
    else if Publishes(w, a, id) || Interrupts(w, a, id) || Moves(w, a, id) then None
    else w.s.projects[id].task
  }

  function NextError(w: World, a: Action, id: Id): string
    requires id in w.s.projects
  {
    if Queues(w, a, id) || Moves(w, a, id) || PublishesTree(w, a, id) then ""
    else if Publishes(w, a, id) then Outcome(w, a, id).error
    else if Interrupts(w, a, id) then "interrupted by a restart"
    else w.s.projects[id].error
  }

  /** Where a pull has got to. */
  lemma PhaseIs(w: World, a: Action, id: Id)
    requires Enabled(w, a) && id in w.s.projects && !Deletes(w, a, id)
    ensures id in Apply(w, a).s.projects && Apply(w, a).s.projects[id].phase == NextPhase(w, a, id)
  {
  }

  lemma TaskIs(w: World, a: Action, id: Id)
    requires Enabled(w, a) && id in w.s.projects && !Deletes(w, a, id)
    ensures id in Apply(w, a).s.projects && Apply(w, a).s.projects[id].task == NextTask(w, a, id)
  {
  }

  lemma ErrorIs(w: World, a: Action, id: Id)
    requires Enabled(w, a) && id in w.s.projects && !Deletes(w, a, id)
    ensures id in Apply(w, a).s.projects && Apply(w, a).s.projects[id].error == NextError(w, a, id)
  {
  }

  /** The snapshot and its revision change with a pull that worked and with another repository, and together. */
  lemma SnapshotIs(w: World, a: Action, id: Id)
    requires Enabled(w, a) && id in w.s.projects && !Deletes(w, a, id)
    ensures
      var p, p' := w.s.projects[id], Apply(w, a).s.projects[id];
      if PublishesTree(w, a, id) then p'.snapshot == Some(Outcome(w, a, id).name) && p'.revision == Outcome(w, a, id).revision
      else if Moves(w, a, id) then p'.snapshot == None && p'.revision == ""
      else p'.snapshot == p.snapshot && p'.revision == p.revision
  {
  }

  /** The repository is what was saved last. */
  lemma SourceIs(w: World, a: Action, id: Id)
    requires Enabled(w, a) && id in w.s.projects && !Deletes(w, a, id)
    ensures
      var p, p' := w.s.projects[id], Apply(w, a).s.projects[id];
      if Saves(w, a, id) then p'.id == id && p'.url == a.p.url && p'.branch == a.p.branch
      else p'.id == p.id && p'.url == p.url && p'.branch == p.branch
  {
  }

  /** So is the rest of the card, or what was edited since; a pull that worked answers the request for one. */
  lemma CardIs(w: World, a: Action, id: Id)
    requires Enabled(w, a) && id in w.s.projects && !Deletes(w, a, id)
    ensures
      var p, p' := w.s.projects[id], Apply(w, a).s.projects[id];
      if Saves(w, a, id) then p'.config == a.p.config && p'.requested == a.p.requested
      else if Edits(w, a, id) then p'.config == a.config && p'.requested == a.requested
      else p'.config == p.config && p'.requested == (p.requested && !PublishesTree(w, a, id))
  {
  }

  /** Cutting a list of grants in two changes nothing about who is left. */
  lemma {:induction false} WithoutSplits(a: seq<Grant>, b: seq<Grant>, agent: string)
    ensures Without(a + b, agent) == Without(a, agent) + Without(b, agent)
  {
    if b == [] {
      assert a + b == a;
    } else {
      var last := b[|b| - 1];
      assert (a + b)[..|a + b| - 1] == a + b[..|b| - 1];
      WithoutSplits(a, b[..|b| - 1], agent);
    }
  }

  /** Exactly the grants of other agents are left, as often as they were there. */
  lemma {:induction false} WithoutKeepsOthers(grants: seq<Grant>, agent: string, g: Grant)
    ensures multiset(Without(grants, agent))[g] == if g.agent == agent then 0 else multiset(grants)[g]
  {
    if grants != [] {
      var front, last := grants[..|grants| - 1], grants[|grants| - 1];
      assert grants == front + [last];
      WithoutKeepsOthers(front, agent, g);
    }
  }

  /** Grants: given for a project, or taken from an agent everywhere. */
  lemma GrantsAre(w: World, a: Action, id: Id)
    requires Enabled(w, a) && id in w.s.projects && !Deletes(w, a, id)
    ensures
      var p, p' := w.s.projects[id], Apply(w, a).s.projects[id];
      p'.grants == if a.GrantProject? && a.id == id && a.valid && a.disk then a.grants
                   else if a.Revoke? && a.disk then Without(p.grants, a.agent)
                   else p.grants
  {
  }

  /** Every field of a project after one step. */
  ghost predicate ProjectIsNext(w: World, a: Action, id: Id, p': Project)
    requires id in w.s.projects
  {
    var p := w.s.projects[id];
    && p'.phase == NextPhase(w, a, id) && p'.task == NextTask(w, a, id) && p'.error == NextError(w, a, id)
    && p'.snapshot == (if PublishesTree(w, a, id) then Some(Outcome(w, a, id).name) else if Moves(w, a, id) then None else p.snapshot)
    && p'.revision == (if PublishesTree(w, a, id) then Outcome(w, a, id).revision else if Moves(w, a, id) then "" else p.revision)
    && p'.url == (if Saves(w, a, id) then a.p.url else p.url)
    && p'.branch == (if Saves(w, a, id) then a.p.branch else p.branch)
    && p'.config == (if Saves(w, a, id) then a.p.config else if Edits(w, a, id) then a.config else p.config)
    && p'.requested == (if Saves(w, a, id) then a.p.requested else if Edits(w, a, id) then a.requested
                        else p.requested && !PublishesTree(w, a, id))
    && p'.grants == (if a.GrantProject? && a.id == id && a.valid && a.disk then a.grants
                     else if a.Revoke? && a.disk then Without(p.grants, a.agent)
                     else p.grants)
  }

  /** What every step writes into a project: a pull its progress and its tree, a person the card and the grants. */
  lemma ProjectIs(w: World, a: Action, id: Id)
    requires Enabled(w, a) && id in w.s.projects && !Deletes(w, a, id)
    ensures id in Apply(w, a).s.projects && ProjectIsNext(w, a, id, Apply(w, a).s.projects[id])
  {
    PhaseIs(w, a, id);
    TaskIs(w, a, id);
    ErrorIs(w, a, id);
    SnapshotIs(w, a, id);
    SourceIs(w, a, id);
    CardIs(w, a, id);
    GrantsAre(w, a, id);
  }

  /** Reservations: made when a pull is queued, gone when it publishes, written or not, or stops, and after a crash. */
  lemma ReservationIs(w: World, a: Action, id: Id)
    requires Enabled(w, a)
    ensures
      var busy := Apply(w, a).s.busy;
      if Queues(w, a, id) then id in busy && busy[id] == a.task
      else if a.Crash? || (a.PublishSync? && Names(w, a, id))
              || (a.ReleaseSync? && w.workers[a.task].p.id == id && id in w.s.busy && w.s.busy[id] == a.task)
        then id !in busy
      else (id in busy <==> id in w.s.busy) && (id in w.s.busy ==> busy[id] == w.s.busy[id])
  {
  }

  /** The step removes directory `n`. */
  predicate Drops(w: World, a: Action, n: Name) {
    match a
    case PublishSync(task, disk, removed) =>
      && removed && task in w.workers && w.workers[task].pc.Fetched? && w.workers[task].pc.result.PulledTo?
      && var begun, name := w.workers[task].p, w.workers[task].pc.result.name;
      if disk && begun.id in w.s.projects then w.s.projects[begun.id].snapshot == Some(n) && n != name
      else n == name && begun.snapshot != Some(n)
    case SaveProject(p, _, _, removed) => removed && Moves(w, a, p.id) && w.s.projects[p.id].snapshot == Some(n)
    case DeleteProject(id, _, removed) => removed && Deletes(w, a, id) && w.s.projects[id].snapshot == Some(n)
    case _ => false
  }

  /** The step makes directory `n`. */
  predicate Makes(w: World, a: Action, n: Name) { a.Pull? && a.result.PulledTo? && a.result.name == n && n !in w.s.dirs }

  /** Directories are made by pulls, and removed only when no project needs them: the replaced one, or the one in vain. */
  lemma DirectoriesAre(w: World, a: Action, n: Name)
    requires Enabled(w, a)
    ensures n in Apply(w, a).s.dirs <==> (n in w.s.dirs && !Drops(w, a, n)) || Makes(w, a, n)
    ensures n in Apply(w, a).s.dirs && n in w.s.dirs ==> Apply(w, a).s.dirs[n] == w.s.dirs[n]
    ensures Makes(w, a, n) ==>
              var p := w.workers[a.task].p;
              Apply(w, a).s.dirs[n] == Tree(p.url, p.branch, a.result.revision)
  {
  }

  // ---------- where a pull can go ----------

  /** A pull goes through its stages one by one and keeps the project it began with; only a crash takes it away early. */
  lemma PullMoves(w: World, a: Action, t: Id)
    requires Enabled(w, a) && t in w.workers
    ensures t in Apply(w, a).workers <==> !a.Crash? && a != ReleaseSync(t)
    ensures !a.Crash? && a != ReleaseSync(t) && (a.BeginSync? ==> a.task != t) ==>
              var k, k' := w.workers[t], Apply(w, a).workers[t];
              && k'.p == k.p
              && k'.pc == if a.ReportRunning? && a.task == t then Pulling
                          else if a.Pull? && a.task == t then Fetched(a.result)
                          else if a.PublishSync? && a.task == t then Published
                          else k.pc
  {
  }

  /** A pull begins with its reservation, from the project as it is stored then. */
  lemma PullBegins(w: World, a: Action, t: Id)
    requires Enabled(w, a) && t !in w.workers
    ensures t in Apply(w, a).workers <==> a.BeginSync? && a.task == t && Queues(w, a, a.id)
    ensures t in Apply(w, a).workers ==>
              Apply(w, a).workers[t] == Worker(Apply(w, a).s.projects[a.id], Started) && t in Apply(w, a).tasks
  {
  }

  /** The remote still has the stored revision, and its directory is there. */
  predicate Unchanged(w: World, p: Project, revision: string) {
    p.snapshot.Some? && p.snapshot.value in w.s.dirs && p.revision == revision
  }

  /**
   No pull is ever held up: while the server is up its next stage can come, whatever the disk does. Fetching can
   fail with any error and yield any revision, under a new name unless nothing changed; the process can stop at any
   time and start again.
   */
  lemma EveryPullCanMove(w: World, t: Id, disk: bool, removed: bool, error: string, name: Name, revision: string)
    requires w.up && t in w.workers
    ensures
      match w.workers[t].pc
      case Started => Enabled(w, ReportRunning(t, disk))
      case Pulling =>
        && Enabled(w, Pull(t, PullFailed(error)))
        && (Enabled(w, Pull(t, PulledTo(name, revision))) <==>
              if Unchanged(w, w.workers[t].p, revision) then w.workers[t].p.snapshot == Some(name) else name !in w.s.dirs)
      case Fetched(_) => Enabled(w, PublishSync(t, disk, removed))
      case Published => Enabled(w, ReleaseSync(t))
    ensures Enabled(w, Crash) && Enabled(Apply(w, Crash), Boot(disk)) && Apply(Apply(w, Crash), Boot(disk)).up
  {
  }

  // ---------- what a caller is told ----------

  /** A caller that was refused is told why, and nothing changed; one that began has the project as it is stored now. */
  lemma BeginTells(s: State, disk: bool, id: Id, task: Id)
    ensures
      var (s', told) := Begin(s, disk, id, task);
      && (told.AlreadyRunning? <==> id in s.busy)
      && (told.Began? <==> id !in s.busy && disk && id in s.projects)
      && (told.AlreadyRunning? ==> told.running == s.busy[id])
      && (told.Began? ==> told.task == task && id in s'.projects && told.p == s'.projects[id])
      && (!told.Began? ==> s' == s)
  {
  }

  lemma SaveTells(s: State, disk: bool, removed: bool, p: Project, valid: bool)
    ensures
      var (s', told) := Save(s, disk, removed, p, valid);
      && (told == Invalid <==> !valid) && (told == Busy <==> valid && p.id in s.busy)
      && (told == DiskError <==> valid && p.id !in s.busy && !disk) && told != Missing
      && (told != Done ==> s' == s)
  {
  }

  lemma DeleteTells(s: State, disk: bool, removed: bool, id: Id)
    ensures
      var (s', told) := Delete(s, disk, removed, id);
      && (told == Busy <==> id in s.busy) && (told == DiskError <==> id !in s.busy && !disk)
      && (told == Missing <==> id !in s.busy && disk && id !in s.projects) && told != Invalid
      && (told != Done ==> s' == s)
  {
  }

  lemma EditTells(s: State, disk: bool, id: Id, grants: seq<Grant>, config: nat, requested: bool, valid: bool)
    ensures
      var (s', told) := SetGrants(s, disk, id, grants, valid);
      && (told == DiskError <==> !disk) && (told == Missing <==> disk && id !in s.projects)
      && (told == Invalid <==> disk && id in s.projects && !valid) && told != Busy
      && (told != Done ==> s' == s)
    ensures Mutate(s, disk, id, config, requested, valid).1 == SetGrants(s, disk, id, grants, valid).1
    ensures Mutate(s, disk, id, config, requested, valid).1 != Done ==> Mutate(s, disk, id, config, requested, valid).0 == s
  {
  }

  // ---------- over every run ----------

  /**
   A pull that ends with the disk at work is always recorded, in one step. A failed one leaves the card, the grants,
   the snapshot and the directories alone and shows its error; one that worked shows its tree and no error.
   */
  lemma EndIsRecorded(ws: seq<World>, acts: seq<Action>, i: nat)
    requires IsRun(ws, acts) && i < |acts| && acts[i].PublishSync? && acts[i].disk
    ensures
      var id, result := ws[i].workers[acts[i].task].p.id, ws[i].workers[acts[i].task].pc.result;
      && Publishes(ws[i], acts[i], id) && id in ws[i + 1].s.projects && id !in ws[i + 1].s.busy
      && var p, p' := ws[i].s.projects[id], ws[i + 1].s.projects[id];
      && p'.task == None && p'.grants == p.grants && p'.url == p.url && p'.branch == p.branch && p'.config == p.config
      && match result
         case PullFailed(error) =>
           && p'.phase == Failed && p'.error == error && p'.snapshot == p.snapshot && p'.revision == p.revision
           && p'.requested == p.requested && ws[i + 1].s.dirs == ws[i].s.dirs
         case PulledTo(name, revision) =>
           && p'.phase == Succeeded && p'.error == "" && p'.snapshot == Some(name) && p'.revision == revision && !p'.requested
           && name in ws[i + 1].s.dirs && (acts[i].removed && p.snapshot.Some? && p.snapshot != Some(name) ==>
                                             p.snapshot.value !in ws[i + 1].s.dirs)
  {
    PublishFindsItsSource(ws, acts, i);
  }

  /** A failed pull from end to end: nothing but what it reports is different afterwards. */
  lemma WholeFailure(s: State, removed: bool, id: Id, task: Id, error: string)
    requires id in s.projects && s.projects[id].id == id && id !in s.busy
    ensures
      var (s', told) := Sync(s, true, removed, id, task, PullFailed(error));
      && told.Began? && s'.busy == s.busy && s'.dirs == s.dirs
      && s'.projects == s.projects[id := s.projects[id].(phase := Failed, task := None, error := error)]
  {
    var (begun, told) := Begin(s, true, id, task);
    assert begun.busy - {id} == s.busy;
  }

  /** What a project shows of the pull that ended as `result`. */
  predicate Shows(p: Project, result: Pulled) {
    match result
    case PullFailed(error) => p.phase == Failed && p.error == error
    case PulledTo(name, revision) => p.phase == Succeeded && p.snapshot == Some(name) && p.revision == revision && p.error == ""
  }

  /** Only the record of a pull makes a project shown as ended, and it shows that pull. */
  lemma EndedByRecord(w: World, a: Action, id: Id)
    requires Enabled(w, a) && id in Apply(w, a).s.projects
    requires Apply(w, a).s.projects[id].phase == Succeeded || Apply(w, a).s.projects[id].phase == Failed
    ensures id in w.s.projects
    ensures var p, p' := w.s.projects[id], Apply(w, a).s.projects[id];
            if Publishes(w, a, id) then Shows(p', Outcome(w, a, id))
            else p'.phase == p.phase && p'.error == p.error && p'.snapshot == p.snapshot && p'.revision == p.revision
  {
    ProjectsAre(w, a, id);
    PhaseIs(w, a, id);
    ErrorIs(w, a, id);
    SnapshotIs(w, a, id);
  }

  /** At step `j` the pull of `id` ended as the project still shows it at `n`, and no pull of it was recorded since. */
  ghost predicate LastEnded(ws: seq<World>, acts: seq<Action>, j: nat, n: nat, id: Id)
    requires j < n < |ws| == |acts| + 1 && id in ws[n].s.projects
  {
    && Publishes(ws[j], acts[j], id) && Shows(ws[n].s.projects[id], Outcome(ws[j], acts[j], id))
    && forall k :: j < k < n ==> !Publishes(ws[k], acts[k], id)
  }

  predicate Ended(phase: Phase) { phase == Succeeded || phase == Failed }

  lemma JustEnded(ws: seq<World>, acts: seq<Action>, n: nat, id: Id)
    requires |ws| == |acts| + 1 && n < |acts| && Enabled(ws[n], acts[n]) && ws[n + 1] == Apply(ws[n], acts[n])
    requires id in ws[n + 1].s.projects && Ended(ws[n + 1].s.projects[id].phase) && Publishes(ws[n], acts[n], id)
    ensures LastEnded(ws, acts, n, n + 1, id)
  {
    EndedByRecord(ws[n], acts[n], id);
  }

  lemma StillEnded(ws: seq<World>, acts: seq<Action>, j: nat, n: nat, id: Id)
    requires |ws| == |acts| + 1 && j < n < |acts| && Enabled(ws[n], acts[n]) && ws[n + 1] == Apply(ws[n], acts[n])
    requires id in ws[n + 1].s.projects && Ended(ws[n + 1].s.projects[id].phase) && !Publishes(ws[n], acts[n], id)
    requires id in ws[n].s.projects && LastEnded(ws, acts, j, n, id)
    ensures LastEnded(ws, acts, j, n + 1, id)
  {
    EndedByRecord(ws[n], acts[n], id);
  }

  /**
   A project shown as succeeded or failed is so because the last pull recorded for it ended that way: the revision and
   the directory are the ones that pull made, the error is the one it met.
   */
  lemma {:induction false} ShownAsPulled(ws: seq<World>, acts: seq<Action>, n: nat, id: Id) returns (j: nat)
    requires IsRun(ws, acts) && n < |ws| && id in ws[n].s.projects && Ended(ws[n].s.projects[id].phase)
    ensures j < n && LastEnded(ws, acts, j, n, id)
  {
    EndedByRecord(ws[n - 1], acts[n - 1], id);
    if Publishes(ws[n - 1], acts[n - 1], id) {
      j := n - 1;
      JustEnded(ws, acts, j, id);
    } else {
      j := ShownAsPulled(ws, acts, n - 1, id);
      StillEnded(ws, acts, j, n - 1, id);
    }
  }
}
