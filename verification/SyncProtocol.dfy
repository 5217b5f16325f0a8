/**
 Pulls running in the background while projects are saved, deleted and granted, with the process able to
 stop anywhere and start again. Only the sections of `SyncTables` are atomic.
 */
module SyncProtocol {
  import opened Base
  import opened SyncTables

  datatype SyncPc =
    | Started                        // reserved and queued
    | Pulling                        // reported running
    | Fetched(result: Pulled)        // the pull is over, nothing is published
    | Published                      // the outcome is recorded; the deferred release is left

  /** One pull; `p` is the project as begin returned it. */
  datatype Worker = Worker(p: Project, pc: SyncPc)

  datatype World = World(
    s: State,
    workers: map<Id, Worker>,        // by task
    tasks: set<Id>,                  // every task id ever drawn
    up: bool)                        // false from a crash until the interrupted pulls are marked

  datatype Action =
    | BeginSync(id: Id, task: Id, disk: bool)
    | ReportRunning(task: Id, disk: bool)
    | Pull(task: Id, result: Pulled)
    | PublishSync(task: Id, disk: bool, removed: bool)
    | ReleaseSync(task: Id)
    | SaveProject(p: Project, valid: bool, disk: bool, removed: bool)
    | DeleteProject(id: Id, disk: bool, removed: bool)
    | GrantProject(id: Id, grants: seq<Grant>, valid: bool, disk: bool)
    | Revoke(agent: string, disk: bool)
    | EditProject(id: Id, config: nat, requested: bool, valid: bool, disk: bool)
    | Crash
    | Boot(disk: bool)

  predicate Init(w: World) {
    w.s.projects == map[] && w.s.busy == map[] && w.workers == map[] && w.up
  }

  /** Whether a worker still owns its pull. */
  predicate Owns(w: World, t: Id) { t in w.workers && w.workers[t].pc != Published }

  /** The unchanged remote head reuses the directory it has; anything else is checked out under an unused name. */
  predicate PullPossible(w: World, p: Project, result: Pulled) {
    match result
    case PullFailed(_) => true
    case PulledTo(name, revision) =>
      if revision == p.revision && p.snapshot.Some? && p.snapshot.value in w.s.dirs
      then p.snapshot == Some(name)
      else name !in w.s.dirs
  }

  predicate Enabled(w: World, a: Action) {
    match a
    case Crash => true
    case Boot(_) => !w.up
    case BeginSync(_, task, _) => w.up && task !in w.tasks
    case ReportRunning(task, _) => w.up && task in w.workers && w.workers[task].pc == Started
    case Pull(task, result) =>
      w.up && task in w.workers && w.workers[task].pc == Pulling && PullPossible(w, w.workers[task].p, result)
    case PublishSync(task, _, _) => w.up && task in w.workers && w.workers[task].pc.Fetched?
    case ReleaseSync(task) => w.up && task in w.workers && w.workers[task].pc == Published
    case _ => w.up
  }

  function DoBegin(w: World, id: Id, task: Id, disk: bool): World {
    var (s, answer) := Begin(w.s, disk, id, task);
    match answer
    case Began(p, _) => w.(s := s, workers := w.workers[task := Worker(p, Started)], tasks := w.tasks + {task})
    case _ => w
  }

  function DoReport(w: World, task: Id, disk: bool): World
    requires task in w.workers
  {
    var k := w.workers[task];
    w.(s := SetPhase(w.s, disk, k.p.id, task, Running), workers := w.workers[task := k.(pc := Pulling)])
  }

  function DoPull(w: World, task: Id, result: Pulled): World
    requires task in w.workers
  {
    var k := w.workers[task];
    w.(s := w.s.(dirs := Checkout(w.s.dirs, k.p, result)), workers := w.workers[task := k.(pc := Fetched(result))])
  }

  function DoPublish(w: World, task: Id, disk: bool, removed: bool): World
    requires task in w.workers && w.workers[task].pc.Fetched?
  {
    var k := w.workers[task];
    w.(s := Publish(w.s, disk, removed, k.p, k.pc.result), workers := w.workers[task := k.(pc := Published)])
  }

  function DoRelease(w: World, task: Id): World
    requires task in w.workers
  {
    w.(s := Release(w.s, w.workers[task].p.id, task), workers := w.workers - {task})
  }

  function Apply(w: World, a: Action): World
    requires Enabled(w, a)
  {
    match a
    case BeginSync(id, task, disk) => DoBegin(w, id, task, disk)
    case ReportRunning(task, disk) => DoReport(w, task, disk)
    case Pull(task, result) => DoPull(w, task, result)
    case PublishSync(task, disk, removed) => DoPublish(w, task, disk, removed)
    case ReleaseSync(task) => DoRelease(w, task)
    case SaveProject(p, valid, disk, removed) => w.(s := Save(w.s, disk, removed, p, valid).0)
    case DeleteProject(id, disk, removed) => w.(s := Delete(w.s, disk, removed, id).0)
    case GrantProject(id, grants, valid, disk) => w.(s := SetGrants(w.s, disk, id, grants, valid).0)
    case Revoke(agent, disk) => w.(s := RevokeAgent(w.s, disk, agent))
    case EditProject(id, config, requested, valid, disk) => w.(s := Mutate(w.s, disk, id, config, requested, valid).0)
    case Crash => w.(s := w.s.(busy := map[]), workers := map[], up := false)
    case Boot(disk) => w.(s := MarkInterrupted(w.s, disk), up := true)
  }

  /** A run: consecutive worlds from an empty project list. */
  ghost predicate IsRun(ws: seq<World>, acts: seq<Action>) {
    && |ws| == |acts| + 1
    && Init(ws[0])
    && forall i :: 0 <= i < |acts| ==> Enabled(ws[i], acts[i]) && ws[i + 1] == Apply(ws[i], acts[i])
  }
}
