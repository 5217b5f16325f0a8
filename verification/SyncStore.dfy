/**
 The project store as it runs: the project list is a slice searched from the front, and each locked section is
 a method proved to be the section of `SyncTables` of the same name.
 */
module SyncStore {
  import opened Base
  import T = SyncTables
  import opened SyncTables

  ghost predicate Distinct(ps: seq<Project>) {
    forall i, j :: 0 <= i < j < |ps| ==> ps[i].id != ps[j].id
  }

  /** The list as a table. */
  ghost function ById(ps: seq<Project>): map<Id, Project>
    requires Distinct(ps)
  {
    map i | 0 <= i < |ps| :: ps[i].id := ps[i]
  }

  /** A list and a table with the same entries. */
  lemma SameEntries(ps: seq<Project>, m: map<Id, Project>)
    requires Distinct(ps)
    requires forall j :: 0 <= j < |ps| ==> ps[j].id in m && m[ps[j].id] == ps[j]
    requires forall k :: k in m ==> exists j :: 0 <= j < |ps| && ps[j].id == k
    ensures ById(ps) == m
  {
    assert ById(ps).Keys == m.Keys;
  }

  lemma ReplaceAt(ps: seq<Project>, i: nat, p: Project)
    requires Distinct(ps) && i < |ps| && p.id == ps[i].id
    ensures Distinct(ps[i := p]) && ById(ps[i := p]) == ById(ps)[p.id := p]
  {
    var qs, m := ps[i := p], ById(ps)[p.id := p];
    forall j | 0 <= j < |qs| ensures qs[j].id == ps[j].id && qs[j].id in m && m[qs[j].id] == qs[j] {}
    forall k | k in m ensures exists j :: 0 <= j < |qs| && qs[j].id == k {
      var j :| 0 <= j < |ps| && ps[j].id == k;
      assert qs[j].id == k;
    }
    SameEntries(qs, m);
  }

  lemma DropDistinct(ps: seq<Project>, qs: seq<Project>, i: nat)
    requires Distinct(ps) && i < |ps| && |qs| == |ps| - 1
    requires forall j :: 0 <= j < |qs| ==> qs[j] == ps[if j < i then j else j + 1]
    ensures Distinct(qs) && forall j :: 0 <= j < |qs| ==> qs[j].id != ps[i].id
  {
  }

  lemma DropEntry(ps: seq<Project>, qs: seq<Project>, i: nat)
    requires Distinct(ps) && i < |ps| && |qs| == |ps| - 1
    requires forall j :: 0 <= j < |qs| ==> qs[j] == ps[if j < i then j else j + 1]
    ensures Distinct(qs) && ById(qs) == ById(ps) - {ps[i].id}
  {
    DropDistinct(ps, qs, i);
    var m := ById(ps) - {ps[i].id};
    forall k | k in m ensures exists j :: 0 <= j < |qs| && qs[j].id == k {
      var j :| 0 <= j < |ps| && ps[j].id == k;
      var at := if j < i then j else j - 1;
      assert qs[at] == ps[j];
    }
    SameEntries(qs, m);
  }

  lemma AppendNew(ps: seq<Project>, p: Project)
    requires Distinct(ps) && forall j :: 0 <= j < |ps| ==> ps[j].id != p.id
    ensures Distinct(ps + [p]) && ById(ps + [p]) == ById(ps)[p.id := p]
  {
    var qs := ps + [p];
    assert qs[|ps|] == p;
    forall k | k in ById(ps) ensures k in ById(qs) {
      var j :| 0 <= j < |ps| && ps[j].id == k;
      assert qs[j].id == k;
    }
    assert ById(qs).Keys == ById(ps).Keys + {p.id};
  }

  lemma InterruptedTable(ps: seq<Project>, qs: seq<Project>)
    requires Distinct(ps) && |qs| == |ps| && forall j :: 0 <= j < |ps| ==> qs[j] == Interrupt(ps[j])
    ensures Distinct(qs) && ById(qs) == InterruptTable(ById(ps))
  {
    var m := InterruptTable(ById(ps));
    forall j | 0 <= j < |qs| ensures qs[j].id == ps[j].id && qs[j].id in m && m[qs[j].id] == qs[j] {}
    forall k | k in m ensures exists j :: 0 <= j < |qs| && qs[j].id == k {
      var j :| 0 <= j < |ps| && ps[j].id == k;
      assert qs[j].id == k;
    }
    SameEntries(qs, m);
  }

  lemma RevokedTable(ps: seq<Project>, qs: seq<Project>, agent: string)
    requires Distinct(ps) && |qs| == |ps| && forall j :: 0 <= j < |ps| ==> qs[j] == RevokeIn(ps[j], agent)
    ensures Distinct(qs) && ById(qs) == RevokeTable(ById(ps), agent)
  {
    var m := RevokeTable(ById(ps), agent);
    forall j | 0 <= j < |qs| ensures qs[j].id == ps[j].id && qs[j].id in m && m[qs[j].id] == qs[j] {}
    forall k | k in m ensures exists j :: 0 <= j < |qs| && qs[j].id == k {
      var j :| 0 <= j < |ps| && ps[j].id == k;
      assert qs[j].id == k;
    }
    SameEntries(qs, m);
  }

  method InterruptAll(ps: seq<Project>) returns (qs: seq<Project>, changed: bool)
    ensures |qs| == |ps| && forall j :: 0 <= j < |ps| ==> qs[j] == Interrupt(ps[j])
    ensures !changed ==> qs == ps
  {
    qs, changed := ps, false;
    for i := 0 to |ps|
      invariant |qs| == |ps|
      invariant forall j :: 0 <= j < |ps| ==> qs[j] == if j < i then Interrupt(ps[j]) else ps[j]
      invariant !changed ==> qs == ps
    {
      if qs[i].phase == Queued || qs[i].phase == Running {
        qs := qs[i := qs[i].(phase := Interrupted, task := None, error := INTERRUPTED_TEXT)];
        changed := true;
      }
    }
  }

  method Revoked(grants: seq<Grant>, agent: string) returns (kept: seq<Grant>)
    ensures kept == Without(grants, agent)
  {
    kept := [];
    for g := 0 to |grants|
      invariant kept == Without(grants[..g], agent)
    {
      assert grants[..g + 1][..g] == grants[..g];
      if grants[g].agent != agent { kept := kept + [grants[g]]; }
    }
    assert grants[..|grants|] == grants;
  }

  method RevokeAll(ps: seq<Project>, agent: string) returns (qs: seq<Project>)
    ensures |qs| == |ps| && forall j :: 0 <= j < |ps| ==> qs[j] == RevokeIn(ps[j], agent)
  {
    qs := ps;
    for i := 0 to |ps|
      invariant |qs| == |ps|
      invariant forall j :: 0 <= j < i ==> qs[j] == RevokeIn(ps[j], agent)
      invariant forall j :: i <= j < |ps| ==> qs[j] == ps[j]
    {
      var kept := Revoked(qs[i].grants, agent);
      qs := qs[i := qs[i].(grants := kept)];
    }
  }

  method Splice(ps: seq<Project>, i: nat) returns (remaining: seq<Project>)
    requires i < |ps|
    ensures |remaining| == |ps| - 1
    ensures forall j :: 0 <= j < |remaining| ==> remaining[j] == ps[if j < i then j else j + 1]
  {
    remaining := ps[..i] + ps[i + 1..];
  }

  /** What one ls-remote came to, compared with the revision stored at that time. */
  datatype Status = Status(local: string, remote: string, behind: bool)

  datatype Probe = Probe(answer: Result<Status, string>, at: int)

  const PROBE_ERROR_TTL_MS := 30_000

  predicate Behind(local: string, remote: string) { local != "" && local != remote }

  predicate Truthful(answer: Result<Status, string>) {
    answer.Ok? ==> (answer.value.behind <==> Behind(answer.value.local, answer.value.remote))
  }

  /** Whether a remembered answer still says something about a project whose stored revision is now `local`. */
  predicate Usable(e: Probe, now: int, maxAge: int, local: string) {
    if e.answer.Err? then now - e.at < Min(maxAge, PROBE_ERROR_TTL_MS)
    else now - e.at < maxAge && (local == e.answer.value.local || local == e.answer.value.remote)
  }

  /** A failure is remembered for half a minute at most, an answer while one of its two revisions is still the stored one. */
  lemma UsableIs(e: Probe, now: int, maxAge: int, local: string)
    ensures Usable(e, now, maxAge, local) <==>
      && now < e.at + maxAge
      && match e.answer
         case Err(_) => now < e.at + 30 * 1000
         case Ok(status) => local == status.local || local == status.remote
    ensures !Behind(local, local) && (forall remote: string :: local != remote ==> (Behind(local, remote) <==> local != ""))
  {
  }

  class Store {
    var projects: seq<Project>
    var busy: map<Id, Id>
    var dirs: map<Name, Tree>
    var probes: map<Id, Probe>

    ghost predicate Valid()
      reads this
    {
      Distinct(projects)
    }

    ghost function View(): State
      requires Valid()
      reads this
    {
      State(ById(projects), busy, dirs)
    }

    constructor ()
      ensures Valid() && View() == State(map[], map[], map[]) && probes == map[]
    {
      projects, busy, dirs, probes := [], map[], map[], map[];
    }

    /** The first project with that id, or the length of the list. */
    method Index(id: Id) returns (i: nat)
      requires Valid()
      ensures i <= |projects|
      ensures if i < |projects| then projects[i].id == id && id in ById(projects) && ById(projects)[id] == projects[i]
              else id !in ById(projects)
      ensures forall j :: 0 <= j < i ==> projects[j].id != id
    {
      i := 0;
      while i < |projects| && projects[i].id != id
        invariant i <= |projects|
        invariant forall j :: 0 <= j < i ==> projects[j].id != id
      {
        i := i + 1;
      }
    }

    method Put(i: nat, p: Project)
      requires Valid() && i < |projects| && projects[i].id == p.id
      modifies this`projects
      ensures Valid() && View() == old(View()).(projects := old(View()).projects[p.id := p])
    {
      ReplaceAt(projects, i, p);
      projects := projects[i := p];
    }

    method RemoveSnapshot(name: Option<Name>, removed: bool)
      modifies this`dirs
      ensures dirs == T.Remove(old(dirs), name, removed)
    {
      if removed && name.Some? {
        dirs := dirs - {name.value};
      }
    }

    method Begin(disk: bool, id: Id, task: Id) returns (answer: BeginAnswer)
      requires Valid()
      modifies this`projects, this`busy
      ensures Valid() && (View(), answer) == T.Begin(old(View()), disk, id, task)
    {
      if id in busy { return AlreadyRunning(busy[id]); }
      if !disk { return CannotBegin; }
      var i := Index(id);
      if i == |projects| { return CannotBegin; }
      var p := projects[i].(phase := Queued, task := Some(task), error := "");
      Put(i, p);
      busy := busy[id := task];
      answer := Began(p, task);
    }

    method SetPhase(disk: bool, id: Id, task: Id, phase: Phase)
      requires Valid()
      modifies this`projects
      ensures Valid() && View() == T.SetPhase(old(View()), disk, id, task, phase)
    {
      if disk {
        var i := Index(id);
        if i < |projects| && projects[i].task == Some(task) {
          Put(i, projects[i].(phase := phase));
        }
      }
    }

    method Release(id: Id, task: Id)
      requires Valid()
      modifies this`busy
      ensures Valid() && View() == T.Release(old(View()), id, task)
    {
      if id in busy && busy[id] == task {
        busy := busy - {id};
      }
    }

    method Publish(disk: bool, removed: bool, p: Project, result: Pulled)
      requires Valid()
      modifies this`projects, this`busy, this`dirs
      ensures Valid() && View() == T.Publish(old(View()), disk, removed, p, result)
    {
      busy := busy - {p.id};
      if disk {
        var i := Index(p.id);
        if i < |projects| {
          var stored := projects[i];
          var done := stored.(task := None);
          match result {
            case PullFailed(error) =>
              done := done.(phase := Failed, error := error);
            case PulledTo(name, revision) =>
              done := done.(phase := Succeeded, snapshot := Some(name), revision := revision, error := "", requested := false);
          }
          Put(i, done);
          if result.PulledTo? && stored.snapshot != Some(result.name) {
            RemoveSnapshot(stored.snapshot, removed);
          }
          return;
        }
      }
      if result.PulledTo? && p.snapshot != Some(result.name) {
        RemoveSnapshot(Some(result.name), removed);
      }
    }

    method MarkInterrupted(disk: bool)
      requires Valid()
      modifies this`projects
      ensures Valid() && View() == T.MarkInterrupted(old(View()), disk)
    {
      if !disk { return; }
      var ps, changed := InterruptAll(projects);
      InterruptedTable(projects, ps);
      if changed { projects := ps; }
    }

    method Save(disk: bool, removed: bool, form: Project, valid: bool) returns (answer: Answer)
      requires Valid()
      modifies this`projects, this`dirs
      ensures Valid() && (View(), answer) == T.Save(old(View()), disk, removed, form, valid)
    {
      if !valid { return Invalid; }
      if form.id in busy { return Busy; }
      if !disk { return DiskError; }
      var p := Cleared(form);
      var i := Index(p.id);
      if i == |projects| {
        AppendNew(projects, p);
        projects := projects + [p];
        return Done;
      }
      var stored := projects[i];
      p := p.(grants := stored.grants);
      if stored.url == p.url && stored.branch == p.branch {
        p := p.(revision := stored.revision, snapshot := stored.snapshot, error := stored.error,
                phase := stored.phase, task := stored.task);
      }
      Put(i, p);
      if p.snapshot != stored.snapshot {
        RemoveSnapshot(stored.snapshot, removed);
      }
      answer := Done;
    }

    method Delete(disk: bool, removed: bool, id: Id) returns (answer: Answer)
      requires Valid()
      modifies this`projects, this`dirs
      ensures Valid() && (View(), answer) == T.Delete(old(View()), disk, removed, id)
    {
      if id in busy { return Busy; }
      if !disk { return DiskError; }
      var i := Index(id);
      if i == |projects| { return Missing; }
      var snapshot := projects[i].snapshot;
      var remaining := Splice(projects, i);
      DropEntry(projects, remaining, i);
      projects := remaining;
      RemoveSnapshot(snapshot, removed);
      answer := Done;
    }

    method SetGrants(disk: bool, id: Id, grants: seq<Grant>, valid: bool) returns (answer: Answer)
      requires Valid()
      modifies this`projects
      ensures Valid() && (View(), answer) == T.SetGrants(old(View()), disk, id, grants, valid)
    {
      if !disk { return DiskError; }
      var i := Index(id);
      if i == |projects| { return Missing; }
      if !valid { return Invalid; }
      Put(i, projects[i].(grants := grants));
      answer := Done;
    }

    method RevokeAgent(disk: bool, agent: string)
      requires Valid()
      modifies this`projects
      ensures Valid() && View() == T.RevokeAgent(old(View()), disk, agent)
    {
      if !disk { return; }
      var ps := RevokeAll(projects, agent);
      RevokedTable(projects, ps, agent);
      projects := ps;
    }

    /** Sync from begin to release with nothing else in between, for a pull that came to `result`. */
    method Sync(disk: bool, removed: bool, id: Id, task: Id, result: Pulled) returns (answer: BeginAnswer)
      requires Valid()
      modifies this`projects, this`busy, this`dirs
      ensures Valid() && (View(), answer) == T.Sync(old(View()), disk, removed, id, task, result)
    {
      answer := Begin(disk, id, task);
      if answer.Began? {
        SetPhase(disk, id, task, Running);
        if result.PulledTo? && result.name !in dirs {
          dirs := dirs[result.name := Tree(answer.p.url, answer.p.branch, result.revision)];
        }
        Publish(disk, removed, answer.p, result);
        Release(id, task);
      }
    }

    /**
     The freshness answer: from the last probe when it is young enough and still comparable with the stored
     revision, otherwise from the remote (`head` is what asking it comes to). Either way the verdict is the one
     comparing the stored revision with the remote head last seen, so it never outlives the sync that fixed it.
     */
    method CheckRemoteCached(id: Id, now: int, maxAge: int, local: string, head: Result<Status, string>)
      returns (answer: Result<Status, string>, asked: bool)
      requires Truthful(head) && forall k :: k in probes ==> Truthful(probes[k].answer)
      modifies this`probes
      ensures forall k :: k in probes ==> Truthful(probes[k].answer)
      ensures asked <==> !(maxAge > 0 && id in old(probes) && Usable(old(probes)[id], now, maxAge, local))
      ensures asked ==> answer == head && probes == old(probes)[id := Probe(head, now)]
      ensures !asked ==> probes == old(probes) && answer.Ok? == probes[id].answer.Ok?
      ensures !asked && answer.Ok? ==>
        && answer.value.local == local && answer.value.remote == probes[id].answer.value.remote
        && (answer.value.behind <==> local != "" && local != probes[id].answer.value.remote)
    {
      asked := false;
      if maxAge > 0 && id in probes {
        var e := probes[id];
        var ttl := if e.answer.Err? then Min(maxAge, PROBE_ERROR_TTL_MS) else maxAge;
        if now - e.at < ttl {
          if e.answer.Err? { return e.answer, false; }
          if local == e.answer.value.local { return e.answer, false; }
          if local == e.answer.value.remote {
            return Ok(e.answer.value.(local := local, behind := false)), false;
          }
        }
      }
      answer, asked := head, true;
      probes := probes[id := Probe(head, now)];
    }
  }
}
