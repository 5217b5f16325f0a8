/**
 Code projects: what projects.json, the reservations and the snapshot directories hold, and what one locked
 section of the store does to them. A section reads the file, decides, writes the whole file and then may
 remove a directory; `disk` says whether its read and its write succeeded (the write renames a finished
 temporary file, so it either replaces the list or leaves it), and `removed` whether the removal was done.
 */
module SyncTables {
  import opened Base

  type Id = nat
  type Name = nat                    // a directory called snapshot-*

  datatype Phase = Never | Queued | Running | Succeeded | Failed | Interrupted

  predicate InFlight(phase: Phase) { phase == Queued || phase == Running }

  datatype Grant = Grant(agent: string, expires: Option<int>)

  /** `config` stands for the name, the directories and the credential variable. */
  datatype Project = Project(
    id: Id, url: string, branch: string, config: nat, grants: seq<Grant>,
    snapshot: Option<Name>, revision: string,
    phase: Phase, task: Option<Id>, error: string, requested: bool)

  /** What a complete checkout contains. */
  datatype Tree = Tree(url: string, branch: string, revision: string)

  datatype State = State(
    projects: map<Id, Project>,      // projects.json, by project
    busy: map<Id, Id>,               // the reservations: project and task
    dirs: map<Name, Tree>)           // the complete snapshot directories

  /** What fetching and checking out came to. */
  datatype Pulled = PullFailed(error: string) | PulledTo(name: Name, revision: string)

  datatype BeginAnswer = Began(p: Project, task: Id) | AlreadyRunning(running: Id) | CannotBegin
  datatype Answer = Done | Busy | Missing | Invalid | DiskError

  const INTERRUPTED_TEXT: string := "interrupted by a restart"

  function Remove(dirs: map<Name, Tree>, name: Option<Name>, removed: bool): map<Name, Tree> {
    if removed && name.Some? then dirs - {name.value} else dirs
  }

  function Begin(s: State, disk: bool, id: Id, task: Id): (State, BeginAnswer) {
    if id in s.busy then (s, AlreadyRunning(s.busy[id]))
    else if !disk || id !in s.projects then (s, CannotBegin)
    else
      var p := s.projects[id].(phase := Queued, task := Some(task), error := "");
      (s.(projects := s.projects[id := p], busy := s.busy[id := task]), Began(p, task))
  }

  function SetPhase(s: State, disk: bool, id: Id, task: Id, phase: Phase): State {
    if disk && id in s.projects && s.projects[id].task == Some(task)
    then s.(projects := s.projects[id := s.projects[id].(phase := phase)])
    else s
  }

  function Release(s: State, id: Id, task: Id): State {
    if id in s.busy && s.busy[id] == task then s.(busy := s.busy - {id}) else s
  }

  /** The project after its sync ended, for better or worse. */
  function Concluded(p: Project, result: Pulled): Project {
    match result
    case PullFailed(error) => p.(task := None, phase := Failed, error := error)
    case PulledTo(name, revision) =>
      p.(task := None, phase := Succeeded, snapshot := Some(name), revision := revision, error := "", requested := false)
  }

  /** The checkout a sync that cannot publish has to throw away: never the one the project already had. */
  function Discard(p: Project, result: Pulled): Option<Name> {
    if result.PulledTo? && p.snapshot != Some(result.name) then Some(result.name) else None
  }

  /** The locked section at the end of perform; `p` is the project as it was when the sync began. */
  function Publish(s: State, disk: bool, removed: bool, p: Project, result: Pulled): State {
    var freed := s.busy - {p.id};
    if !disk || p.id !in s.projects then
      State(s.projects, freed, Remove(s.dirs, Discard(p, result), removed))
    else
      var was := s.projects[p.id];
      var stale := if result.PulledTo? && was.snapshot != Some(result.name) then was.snapshot else None;
      State(s.projects[p.id := Concluded(was, result)], freed, Remove(s.dirs, stale, removed))
  }

  /** The directories once a pull of `p` is over. */
  function Checkout(dirs: map<Name, Tree>, p: Project, result: Pulled): map<Name, Tree> {
    if result.PulledTo? && result.name !in dirs
    then dirs[result.name := Tree(p.url, p.branch, result.revision)]
    else dirs
  }

  /** A whole pull with nothing else in between. */
  function Sync(s: State, disk: bool, removed: bool, id: Id, task: Id, result: Pulled): (State, BeginAnswer) {
    var (begun, answer) := Begin(s, disk, id, task);
    match answer
    case Began(p, _) =>
      var running := SetPhase(begun, disk, id, task, Running);
      var pulled := running.(dirs := Checkout(running.dirs, p, result));
      (Release(Publish(pulled, disk, removed, p, result), id, task), answer)
    case _ => (s, answer)
  }

  function Interrupt(p: Project): Project {
    if InFlight(p.phase) then p.(phase := Interrupted, task := None, error := INTERRUPTED_TEXT) else p
  }

  function InterruptTable(m: map<Id, Project>): map<Id, Project> { map id | id in m :: Interrupt(m[id]) }

  function MarkInterrupted(s: State, disk: bool): State {
    if disk then s.(projects := InterruptTable(s.projects)) else s
  }

  function Cleared(p: Project): Project {
    p.(snapshot := None, revision := "", phase := Never, task := None, error := "")
  }

  /** What Save stores over `was`: grants are never edited here, and only the same repository keeps its snapshot. */
  function Merged(was: Project, p: Project): Project {
    var kept := Cleared(p).(grants := was.grants);
    if was.url == p.url && was.branch == p.branch
    then kept.(revision := was.revision, snapshot := was.snapshot, error := was.error, phase := was.phase, task := was.task)
    else kept
  }

  function Save(s: State, disk: bool, removed: bool, p: Project, valid: bool): (State, Answer) {
    if !valid then (s, Invalid)
    else if p.id in s.busy then (s, Busy)
    else if !disk then (s, DiskError)
    else if p.id !in s.projects then (s.(projects := s.projects[p.id := Cleared(p)]), Done)
    else
      var was := s.projects[p.id];
      var now := Merged(was, p);
      var stale := if now.snapshot != was.snapshot then was.snapshot else None;
      (s.(projects := s.projects[p.id := now], dirs := Remove(s.dirs, stale, removed)), Done)
  }

  function Delete(s: State, disk: bool, removed: bool, id: Id): (State, Answer) {
    if id in s.busy then (s, Busy)
    else if !disk then (s, DiskError)
    else if id !in s.projects then (s, Missing)
    else (s.(projects := s.projects - {id}, dirs := Remove(s.dirs, s.projects[id].snapshot, removed)), Done)
  }

  function SetGrants(s: State, disk: bool, id: Id, grants: seq<Grant>, valid: bool): (State, Answer) {
    if !disk then (s, DiskError)
    else if id !in s.projects then (s, Missing)
    else if !valid then (s, Invalid)
    else (s.(projects := s.projects[id := s.projects[id].(grants := grants)]), Done)
  }

  function Without(grants: seq<Grant>, agent: string): seq<Grant> {
    if grants == [] then []
    else
      var rest := Without(grants[..|grants| - 1], agent);
      if grants[|grants| - 1].agent == agent then rest else rest + [grants[|grants| - 1]]
  }

  function RevokeIn(p: Project, agent: string): Project { p.(grants := Without(p.grants, agent)) }

  function RevokeTable(m: map<Id, Project>, agent: string): map<Id, Project> { map id | id in m :: RevokeIn(m[id], agent) }

  function RevokeAgent(s: State, disk: bool, agent: string): State {
    if disk then s.(projects := RevokeTable(s.projects, agent)) else s
  }

  /** The edits that go through mutate: they reach `config` and `requested` only. */
  function Mutate(s: State, disk: bool, id: Id, config: nat, requested: bool, valid: bool): (State, Answer) {
    if !disk then (s, DiskError)
    else if id !in s.projects then (s, Missing)
    else if !valid then (s, Invalid)
    else (s.(projects := s.projects[id := s.projects[id].(config := config, requested := requested)]), Done)
  }
}
