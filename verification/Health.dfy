/** Which tool servers are not answering: the record that every tool-list fetch leaves behind. */
module Health {
  import opened Base

  type Server = string

  const COOLDOWN_MS := 60_000

  /** What a fetch came to: some tools, or the server's failure. */
  type Answer = Result<seq<string>, string>

  datatype Record = Record(down: map<Server, int>, last: map<Server, string>, seen: map<Server, int>)

  function Fail(r: Record, name: Server, error: string, now: int): Record {
    Record(r.down[name := now + COOLDOWN_MS], r.last[name := error], r.seen[name := now])
  }

  function Succeed(r: Record, name: Server, now: int): Record {
    Record(r.down - {name}, r.last - {name}, r.seen[name := now])
  }

  function Judge(r: Record, name: Server, answer: Answer, now: int): Record {
    if answer.Err? then Fail(r, name, answer.error, now) else Succeed(r, name, now)
  }

  predicate Skips(r: Record, name: Server, now: int) { name in r.down && now < r.down[name] }

  /** The record says of a server exactly what the fetch answered at time `at` said. */
  predicate Says(r: Record, name: Server, answer: Answer, at: int) {
    && name in r.seen && r.seen[name] == at
    && (answer.Err? ==> name in r.down && r.down[name] == at + COOLDOWN_MS && name in r.last && r.last[name] == answer.error)
    && (answer.Ok? ==> name !in r.down && name !in r.last)
  }

  datatype ServerHealth = ServerHealth(name: Server, up: bool, error: string, retryAt: int, checkedAt: int)

  /** What the console shows for a server that was consulted. */
  function Shown(r: Record, name: Server): ServerHealth
    requires name in r.seen
  {
    if name in r.down then
      ServerHealth(name, false, if name in r.last then r.last[name] else "", r.down[name], r.seen[name])
    else ServerHealth(name, true, "", 0, r.seen[name])
  }

  /** A server is shown down from a failure until a fetch succeeds, however long ago its cooldown ran out. */
  lemma ShownAsJudged(r: Record, name: Server, answer: Answer, at: int)
    requires Says(r, name, answer, at)
    ensures Shown(r, name).up <==> answer.Ok?
    ensures answer.Err? ==> Shown(r, name).error == answer.error && Shown(r, name).retryAt == at + 60 * 1000
    ensures Shown(r, name).name == name && Shown(r, name).checkedAt == at
    ensures forall now :: Skips(r, name, now) <==> answer.Err? && now < at + 60 * 1000
  {
  }

  class ToolsetHealth {
    var down: map<Server, int>
    var last: map<Server, string>
    var seen: map<Server, int>

    function View(): Record
      reads this
    {
      Record(down, last, seen)
    }

    constructor ()
      ensures View() == Record(map[], map[], map[])
    {
      down, last, seen := map[], map[], map[];
    }

    method Skip(name: Server, now: int) returns (skip: bool)
      ensures skip == Skips(View(), name, now)
    {
      skip := name in down && now < down[name];
    }

    /** Starts or extends a cooldown, keeping why. */
    method MarkFailed(name: Server, error: string, now: int)
      modifies this
      ensures View() == Fail(old(View()), name, error, now) && Says(View(), name, Err(error), now)
      ensures forall other, answer, at :: other != name && Says(old(View()), other, answer, at) ==> Says(View(), other, answer, at)
    {
      down := down[name := now + COOLDOWN_MS];
      last := last[name := error];
      seen := seen[name := now];
    }

    method MarkUp(name: Server, now: int)
      modifies this
      ensures View() == Succeed(old(View()), name, now)
      ensures forall tools :: Says(View(), name, Ok(tools), now)
      ensures forall other, answer, at :: other != name && Says(old(View()), other, answer, at) ==> Says(View(), other, answer, at)
    {
      down := down - {name};
      last := last - {name};
      seen := seen[name := now];
    }

    /** Every server consulted so far, and nobody else. */
    method Snapshot() returns (out: map<Server, ServerHealth>)
      ensures out.Keys == seen.Keys && forall name :: name in out ==> out[name] == Shown(View(), name)
    {
      out := map[];
      var names := seen.Keys;
      while names != {}
        invariant names <= seen.Keys && out.Keys == seen.Keys - names
        invariant forall name :: name in out ==> out[name] == Shown(View(), name)
        decreases |names|
      {
        var name :| name in names;
        var e := ServerHealth(name, true, "", 0, seen[name]);
        if name in down {
          e := e.(up := false, retryAt := down[name], error := if name in last then last[name] else "");
        }
        out := out[name := e];
        names := names - {name};
      }
    }
  }
}
