/**
 Recovery: look at every row, record containers that appeared late, then clean whatever is over and nobody else
 is cleaning. A row that was cleaned long ago is still looked at, because a create request may be answered after
 a first cleanup found nothing.
 */
module ExecutionRecovery {
  import opened Base
  import opened ExecutionTables
  import opened ExecutionProtocol
  import opened ExecutionHost
  import opened ExecutionInvariant
  import W = ExecutionWorker

  predicate Over(r: Run, at: int) { Terminal(r.state) || r.deadlineMs <= at }

  /** Worth a cleanup by the look of its row: over and not leased, or cleaned with its workspace still there. */
  predicate Candidate(r: Run, at: int, dir: bool) {
    if r.cleanup == Cleaned then dir else Over(r, at) && (r.cleanup != Cleaning || r.cleanupUntilMs <= at)
  }

  /**
   How the outside world answers a recovery: the container list can be refused as a whole, lack some containers
   without a word, or hold some that cannot be verified; each cleanup has its own faults; and the caller may give
   up after some cleanups.
   */
  datatype Faults = Faults(discover: bool, hidden: set<Id>, unreadable: set<Id>, cleanup: Id -> CleanupFaults, patience: Option<nat>)

  ghost predicate AllTied(w: World) { forall e :: e in w.tables.runs ==> W.TiedIn(w, e) }

  // ---- The scan ----

  method Candidates(h: Host) returns (cs: seq<Id>)
    ensures forall e :: e in cs <==> e in h.store.runs && Candidate(h.store.runs[e], h.now, e in h.dirs)
  {
    cs := [];
    var rest := h.store.runs.Keys;
    while rest != {}
      invariant rest <= h.store.runs.Keys
      invariant forall e :: e in cs <==> e in h.store.runs && e !in rest && Candidate(h.store.runs[e], h.now, e in h.dirs)
      decreases |rest|
    {
      var e :| e in rest;
      if Candidate(h.store.runs[e], h.now, e in h.dirs) { cs := cs + [e]; }
      rest := rest - {e};
    }
  }

  method Record(h: Host, exec: Id, cid: Id) returns (ok: bool)
    requires h.Valid() && exec in h.store.runs && h.BelongsTo(cid, exec)
    modifies h, h.store
    ensures h.Continues(old(h.acts))
    ensures h.View() == old(h.View()).(tables := AdoptByScan(old(h.store.View()), old(h.now), exec, old(h.store.runs[exec]).owner, cid).0)
    ensures ok == AdoptByScan(old(h.store.View()), old(h.now), exec, old(h.store.runs[exec]).owner, cid).1
  {
    ghost var w := h.View();
    ok := h.store.AdoptByScan(h.now, exec, h.store.runs[exec].owner, cid);
    h.Log(ScanAdopts(exec, cid, h.now), w.(tables := AdoptByScan(w.tables, h.now, exec, w.tables.runs[exec].owner, cid).0));
  }

  /** The row as the scan may have left it: if the run is over and had no container, one with its labels. */
  predicate MayRecord(w: World, was: Run, row: Run, e: Id) {
    || row == was
    || (&& was.containerId == None && Over(was, w.now) && row.containerId.Some? && row == was.(containerId := row.containerId)
        && row.containerId.value in w.born && w.born[row.containerId.value] == e)
  }

  /** Since `all` was read, rows changed in that way only. */
  ghost predicate OnlyRecorded(w: World, all: map<Id, Run>) {
    && w.tables.runs.Keys == all.Keys
    && forall e :: e in all ==> MayRecord(w, all[e], w.tables.runs[e], e)
  }

  predicate SameOutside(w: World, w': World) {
    w'.now == w.now && w'.live == w.live && w'.dirs == w.dirs && w'.born == w.born && w'.claims == w.claims
  }

  /** The container is its run's recorded one. */
  predicate Known(w: World, cid: Id) {
    cid in w.born && w.born[cid] in w.tables.runs && w.tables.runs[w.born[cid]].containerId == Some(cid)
  }

  /** Without a problem, the container belongs to a row, and a row that is over records it and will be cleaned. */
  ghost predicate Settled(w: World, all: map<Id, Run>, cs: seq<Id>, x: Id) {
    x in w.born && w.born[x] in all && (Over(all[w.born[x]], w.now) ==> w.born[x] in cs && Known(w, x))
  }

  /** What is wrong with a container of the list: no row, a row that is over and records another one, or no answer. */
  predicate Troubled(w: World, all: map<Id, Run>, cid: Id, unreadable: bool)
    requires cid in w.born
  {
    var e := w.born[cid];
    e !in all
    || (Over(all[e], w.now)
        && (unreadable || (all[e].containerId.Some? && all[e].containerId != Some(cid))
            || (all[e].containerId == None && (e !in w.tables.runs || w.tables.runs[e].containerId.Some?))))
  }

  /** No row but that of run `e` changed. */
  predicate OnlyRow(before: map<Id, Run>, after: map<Id, Run>, e: Id) {
    after.Keys == before.Keys && forall k :: k in before && k != e ==> after[k] == before[k]
  }

  /** One container of the list, against the rows as the scan read them. */
  method Consider(h: Host, all: map<Id, Run>, cid: Id, unreadable: bool) returns (candidate: Option<Id>, problem: bool)
    requires h.Valid() && cid in h.born && OnlyRecorded(h.View(), all)
    modifies h, h.store
    ensures h.Continues(old(h.acts)) && SameOutside(old(h.View()), h.View()) && OnlyRecorded(h.View(), all)
    ensures forall x :: old(Known(h.View(), x)) ==> Known(h.View(), x)
    ensures candidate.Some? ==> candidate.value in all && Over(all[candidate.value], h.now)
    ensures !problem ==> h.born[cid] in all && (Over(all[h.born[cid]], h.now) ==> candidate == Some(h.born[cid]) && Known(h.View(), cid))
    ensures problem == old(Troubled(h.View(), all, cid, unreadable))
    ensures OnlyRow(old(h.store.runs), h.store.runs, h.born[cid])
  {
    var e := h.born[cid];
    if e !in all { return None, true; }
    var r := all[e];
    if !Over(r, h.now) { return None, false; }
    if (r.containerId.Some? && r.containerId != Some(cid)) || unreadable { return None, true; }
    if r.containerId == None {
      var ok := Record(h, e, cid);
      if !ok { return None, true; }
    }
    return Some(e), false;
  }

  /** A listed container that can be read and is its run's own: recorded, or the only one of a run that records none. */
  ghost predicate Sure(w: World, all: map<Id, Run>, unreadable: set<Id>, found: set<Id>, x: Id) {
    && x in found && x in w.born && x !in unreadable && w.born[x] in all
    && (all[w.born[x]].containerId == Some(x)
        || (all[w.born[x]].containerId == None && forall y :: y in found && y in w.born && w.born[y] == w.born[x] ==> y == x))
  }

  /** Whatever is wrong with others: every such container met so far is settled, and rows of no container met are as read. */
  ghost predicate SureSettled(w: World, all: map<Id, Run>, unreadable: set<Id>, found: set<Id>, met: set<Id>, cs: seq<Id>) {
    && (forall x :: x in met && Sure(w, all, unreadable, found, x) ==> Settled(w, all, cs, x))
    && forall e :: e in all && e in w.tables.runs && (forall y :: y in met && y in w.born ==> w.born[y] != e) ==>
         w.tables.runs[e] == all[e]
  }

  /** The containers the list shows. */
  function Listed(w: World, hidden: set<Id>): set<Id> { set x | x in w.live && x in w.born && x !in hidden }

  ghost predicate AllSettled(w: World, all: map<Id, Run>, cs: seq<Id>, xs: set<Id>) { forall x :: x in xs ==> Settled(w, all, cs, x) }

  predicate AllOver(all: map<Id, Run>, cs: seq<Id>, at: int) { forall e :: e in cs ==> e in all && Over(all[e], at) }

  /** One container of the list, and the runs to clean so far. */
  method Enlist(h: Host, all: map<Id, Run>, cs0: seq<Id>, cid: Id, unreadable: bool, ghost xs: set<Id>) returns (cs: seq<Id>, problem: bool)
    requires h.Valid() && cid in h.born && OnlyRecorded(h.View(), all) && AllOver(all, cs0, h.now)
    modifies h, h.store
    ensures h.Continues(old(h.acts)) && SameOutside(old(h.View()), h.View()) && OnlyRecorded(h.View(), all)
    ensures AllOver(all, cs, h.now)
    ensures !problem && old(AllSettled(h.View(), all, cs0, xs)) ==> AllSettled(h.View(), all, cs, xs + {cid})
    ensures problem == old(Troubled(h.View(), all, cid, unreadable)) && OnlyRow(old(h.store.runs), h.store.runs, h.born[cid])
    ensures (forall e :: e in cs0 ==> e in cs) && forall x :: old(Known(h.View(), x)) ==> Known(h.View(), x)
    ensures !problem ==> Settled(h.View(), all, cs, cid)
  {
    var candidate;
    candidate, problem := Consider(h, all, cid, unreadable);
    cs := if candidate.Some? then cs0 + [candidate.value] else cs0;
  }

  /** A listed container that explains a problem: of no row, or of a run that is over and not surely its own. */
  ghost predicate Explains(w: World, all: map<Id, Run>, unreadable: set<Id>, found: set<Id>, x: Id) {
    x in found && x in w.born && (w.born[x] !in all || (Over(all[w.born[x]], w.now) && !Sure(w, all, unreadable, found, x)))
  }

  lemma TroubleIsExplained(w: World, all: map<Id, Run>, unreadable: set<Id>, found: set<Id>, met: set<Id>, cs: seq<Id>, cid: Id)
    requires SureSettled(w, all, unreadable, found, met, cs) && OnlyRecorded(w, all) && met <= found
    requires cid in w.born && cid in found && cid !in met && Troubled(w, all, cid, cid in unreadable)
    ensures Explains(w, all, unreadable, found, cid)
  {
  }

  lemma SureNext(w: World, w': World, all: map<Id, Run>, unreadable: set<Id>, found: set<Id>, met: set<Id>, cs: seq<Id>, cs': seq<Id>, cid: Id)
    requires SureSettled(w, all, unreadable, found, met, cs) && cid in w.born && cid !in met && met <= found && OnlyRecorded(w, all)
    requires w'.born == w.born && w'.now == w.now && OnlyRow(w.tables.runs, w'.tables.runs, w.born[cid])
    requires (forall e :: e in cs ==> e in cs') && forall x :: Known(w, x) ==> Known(w', x)
    requires !Troubled(w, all, cid, cid in unreadable) ==> Settled(w', all, cs', cid)
    ensures SureSettled(w', all, unreadable, found, met + {cid}, cs')
  {
    forall x | x in met + {cid} && Sure(w', all, unreadable, found, x) ensures Settled(w', all, cs', x) {
      if x == cid {
        if all[w.born[cid]].containerId == None {
          forall y | y in met && y in w.born ensures w.born[y] != w.born[cid] {}
        }
      } else {
        assert Sure(w, all, unreadable, found, x);
        assert Settled(w, all, cs, x);
      }
    }
  }

  ghost predicate SomeExplains(w: World, all: map<Id, Run>, unreadable: set<Id>, found: set<Id>) {
    exists x :: Explains(w, all, unreadable, found, x)
  }

  /** The books of the scan when the containers `met` were considered. */
  ghost predicate Scanned(w: World, all: map<Id, Run>, unreadable: set<Id>, found: set<Id>, met: set<Id>, cs: seq<Id>, problems: nat) {
    && OnlyRecorded(w, all) && AllOver(all, cs, w.now) && SureSettled(w, all, unreadable, found, met, cs)
    && (problems == 0 ==> AllSettled(w, all, cs, met))
    && (problems > 0 ==> SomeExplains(w, all, unreadable, found))
  }

  method EnlistNext(h: Host, all: map<Id, Run>, cs0: seq<Id>, problems0: nat, cid: Id, unreadable: set<Id>, ghost found: set<Id>, ghost met: set<Id>)
    returns (cs: seq<Id>, problems: nat)
    requires h.Valid() && cid in h.born && cid in found && cid !in met && met <= found
    requires Scanned(h.View(), all, unreadable, found, met, cs0, problems0)
    modifies h, h.store
    ensures h.Continues(old(h.acts)) && SameOutside(old(h.View()), h.View())
    ensures Scanned(h.View(), all, unreadable, found, met + {cid}, cs, problems)
  {
    ghost var w := h.View();
    var problem;
    cs, problem := Enlist(h, all, cs0, cid, cid in unreadable, met);
    SureNext(w, h.View(), all, unreadable, found, met, cs0, cs, cid);
    problems := problems0;
    if problem {
      TroubleIsExplained(w, all, unreadable, found, met, cs0, cid);
      assert Explains(h.View(), all, unreadable, found, cid);
      problems := problems + 1;
    } else if problems0 > 0 {
      StillExplained(w, h.View(), all, unreadable, found);
    }
  }

  lemma StillExplained(w: World, w': World, all: map<Id, Run>, unreadable: set<Id>, found: set<Id>)
    requires SomeExplains(w, all, unreadable, found) && SameOutside(w, w')
    ensures SomeExplains(w', all, unreadable, found)
  {
    var x :| Explains(w, all, unreadable, found, x);
    assert Explains(w', all, unreadable, found, x);
  }

  /** Every listed container in turn. */
  method Discover(h: Host, all: map<Id, Run>, faults: Faults) returns (cs: seq<Id>, problems: nat)
    requires h.Valid() && all == h.store.runs
    modifies h, h.store
    ensures h.Continues(old(h.acts)) && SameOutside(old(h.View()), h.View()) && OnlyRecorded(h.View(), all)
    ensures AllOver(all, cs, h.now)
    ensures problems == 0 && all != map[] ==>
      AllSettled(h.View(), all, cs, Listed(h.View(), faults.hidden))
    ensures !faults.discover ==> SureSettled(h.View(), all, faults.unreadable, Listed(h.View(), faults.hidden), Listed(h.View(), faults.hidden), cs)
    ensures problems > 0 && !faults.discover ==> SomeExplains(h.View(), all, faults.unreadable, Listed(h.View(), faults.hidden))
  {
    cs, problems := [], 0;
    if all == map[] { return; }
    if faults.discover { return [], 1; }
    var found := set x | x in h.live && x in h.born && x !in faults.hidden;
    var rest := found;
    while rest != {}
      invariant rest <= found <= h.born.Keys
      invariant h.Continues(old(h.acts)) && SameOutside(old(h.View()), h.View())
      invariant Scanned(h.View(), all, faults.unreadable, found, found - rest, cs, problems)
      decreases |rest|
    {
      var x :| x in rest;
      cs, problems := EnlistNext(h, all, cs, problems, x, faults.unreadable, found, found - rest);
      assert found - rest + {x} == found - (rest - {x});
      rest := rest - {x};
    }
    assert found - {} == found == Listed(h.View(), faults.hidden);
  }

  // ---- The cleanups, from the world `b` on ----

  predicate Cleanable(b: World, seen: set<Id>, e: Id) { e in seen && e in b.tables.runs && Claimable(b.tables.runs[e], b.now) }

  predicate Swept(w: World, b: World, e: Id) {
    e in b.tables.runs && W.ClosedIn(w, e, if Terminal(b.tables.runs[e].state) then b.tables.runs[e].state else Unknown)
  }

  ghost predicate AllSwept(w: World, b: World, swept: set<Id>) { forall e :: e in swept ==> Swept(w, b, e) }

  ghost predicate RowsKept(w: World, b: World, seen: set<Id>) {
    && w.tables.runs.Keys == b.tables.runs.Keys
    && (forall e :: e in b.tables.runs && !Cleanable(b, seen, e) ==> w.tables.runs[e] == b.tables.runs[e])
    && (forall e :: e in b.tables.runs && b.tables.runs[e].containerId.Some? ==> w.tables.runs[e].containerId == b.tables.runs[e].containerId)
  }

  /** The cleanups of `seen` touched no other run: not its row, not its containers, not its workspace. */
  ghost predicate Kept(w: World, b: World, seen: set<Id>) {
    && w.now == b.now && w.born == b.born && RowsKept(w, b, seen) && AllTied(w)
    && w.live <= b.live && (forall x :: x in b.live && x !in w.live ==> x in b.born && Cleanable(b, seen, b.born[x]))
    && w.dirs <= b.dirs && (forall e :: e in b.dirs && e !in w.dirs ==> Cleanable(b, seen, e))
  }

  predicate LeftAlone(w: World, w': World) { w'.tables == w.tables && w'.live == w.live && w'.dirs == w.dirs }

  /** What a cleanup of `e` does to the world: its own run's part, if its row may be claimed at all. */
  ghost predicate CleanedOne(w: World, w': World, e: Id) {
    && Spares(w, w', e) && ContainerKept(w, w', e)
    && if e in w.tables.runs && Claimable(w.tables.runs[e], w.now) then e in w'.tables.runs else LeftAlone(w, w')
  }

  lemma RowsStayKept(w: World, w': World, b: World, seen: set<Id>, e: Id)
    requires Kept(w, b, seen) && e !in seen && CleanedOne(w, w', e)
    ensures RowsKept(w', b, seen + {e}) && AllTied(w')
  {
  }

  lemma StaysKept(w: World, w': World, b: World, seen: set<Id>, e: Id)
    requires Kept(w, b, seen) && e !in seen && CleanedOne(w, w', e)
    ensures Kept(w', b, seen + {e})
  {
    RowsStayKept(w, w', b, seen, e);
  }

  lemma StaysSwept(w: World, w': World, b: World, swept: set<Id>, e: Id)
    requires AllSwept(w, b, swept) && e !in swept && CleanedOne(w, w', e)
    ensures AllSwept(w', b, swept)
  {
  }

  /** One cleanup: refused unless the row may be claimed, and what was swept before stays so. */
  method CleanNext(h: Host, e: Id, faults: CleanupFaults, claim: Id, ghost b: World, ghost seen: set<Id>, ghost swept: set<Id>) returns (ok: bool)
    requires h.Valid() && Kept(h.View(), b, seen) && AllSwept(h.View(), b, swept) && swept <= seen && e !in seen && claim !in h.claims
    modifies h, h.store
    ensures h.Continues(old(h.acts)) && h.claims <= old(h.claims) + {claim}
    ensures Kept(h.View(), b, seen + {e}) && AllSwept(h.View(), b, if ok then swept + {e} else swept)
    ensures if ok then Cleanable(b, {e}, e) else !Cleanable(b, {e}, e) || !W.Clear(faults)
  {
    ghost var w := h.View();
    ok := h.Cleanup(e, claim, h.now, faults);
    StaysKept(w, h.View(), b, seen, e);
    StaysSwept(w, h.View(), b, swept, e);
  }

  /** A run whose cleanup was refused or met a fault. */
  ghost predicate SomeFails(b: World, faults: Faults, seen: set<Id>) {
    exists e :: e in seen && !(Cleanable(b, {e}, e) && W.Clear(faults.cleanup(e)))
  }

  /** The books of the cleanups so far: how many worked, and whether any did not. */
  ghost predicate Booked(w: World, b: World, faults: Faults, seen: set<Id>, swept: set<Id>, n: nat, problems: nat) {
    && Kept(w, b, seen) && AllSwept(w, b, swept) && swept <= seen && n == |swept|
    && (problems == 0 ==> swept == seen)
    && (problems > 0 ==> SomeFails(b, faults, seen))
    && forall e :: e in seen && Cleanable(b, {e}, e) && W.Clear(faults.cleanup(e)) ==> e in swept
  }

  method CleanOnce(h: Host, e: Id, faults: Faults, claim: Id, n0: nat, problems0: nat, ghost b: World, ghost seen: set<Id>, ghost swept0: set<Id>)
    returns (n: nat, problems: nat, ghost swept: set<Id>)
    requires h.Valid() && Booked(h.View(), b, faults, seen, swept0, n0, problems0) && e !in seen && claim !in h.claims
    modifies h, h.store
    ensures h.Continues(old(h.acts)) && h.claims <= old(h.claims) + {claim}
    ensures Booked(h.View(), b, faults, seen + {e}, swept, n, problems)
  {
    n, problems, swept := n0, problems0, swept0;
    var ok := CleanNext(h, e, faults.cleanup(e), claim, b, seen, swept0);
    if ok {
      n, swept := n + 1, swept + {e};
    } else {
      problems := problems + 1;
    }
  }

  /** The cleanups, one per run, until the caller's patience ends. `nonce` draws a fresh claim for each. */
  method CleanAll(h: Host, cs: seq<Id>, faults: Faults, nonce: Id -> Id, ghost b: World)
    returns (n: nat, problems: nat, ghost seen: set<Id>, ghost swept: set<Id>)
    requires h.Valid() && b == h.View() && AllTied(b)
    requires (forall e :: nonce(e) !in h.claims) && (forall d, e :: nonce(d) == nonce(e) ==> d == e)
    modifies h, h.store
    ensures h.Continues(old(h.acts)) && Booked(h.View(), b, faults, seen, swept, n, problems)
    ensures forall e :: e in seen ==> e in cs
    ensures faults.patience == None ==> forall e :: e in cs ==> e in seen
  {
    n, problems, seen, swept := 0, 0, {}, {};
    var done := {};
    var i := 0;
    while i < |cs| && (faults.patience == None || |done| < faults.patience.value)
      invariant i <= |cs| && seen == done
      invariant (forall e :: e in cs[..i] ==> e in seen) && (forall e :: e in seen ==> e in cs)
      invariant h.Continues(old(h.acts)) && Booked(h.View(), b, faults, seen, swept, n, problems)
      invariant forall e :: nonce(e) in h.claims ==> e in seen
    {
      var e := cs[i];
      i := i + 1;
      if e in done { continue; }
      n, problems, swept := CleanOnce(h, e, faults, nonce(e), n, problems, b, seen, swept);
      done, seen := done + {e}, seen + {e};
    }
  }

  // ---- The whole of it ----

  /** Work that may still be going on is not touched: not its row, not its workspace, not its containers. */
  ghost predicate RunningSpared(w: World, w': World) {
    && (forall e :: e in w.tables.runs && !Over(w.tables.runs[e], w.now) ==>
          e in w'.tables.runs && w'.tables.runs[e] == w.tables.runs[e] && (e in w.dirs ==> e in w'.dirs))
    && (forall x :: x in w.live && x in w.born && w.born[x] in w.tables.runs && !Over(w.tables.runs[w.born[x]], w.now) ==> x in w'.live)
  }

  /** Over, nobody's to clean, and something left to clean. */
  predicate Due(w: World, e: Id) {
    e in w.tables.runs && Claimable(w.tables.runs[e], w.now) && (w.tables.runs[e].cleanup == Cleaned ==> e in w.dirs)
  }

  /** Nothing is in the way: every row that is over is free, every listed container is its run's own, every call works. */
  ghost predicate Smooth(w: World, faults: Faults) {
    && !faults.discover && (forall e :: W.Clear(faults.cleanup(e)))
    && (forall e :: e in w.tables.runs && (Over(w.tables.runs[e], w.now) || Candidate(w.tables.runs[e], w.now, e in w.dirs)) ==>
          Claimable(w.tables.runs[e], w.now))
    && forall x :: !Explains(w, w.tables.runs, faults.unreadable, Listed(w, faults.hidden), x)
  }

  lemma SmoothCandidates(w: World, b: World, faults: Faults, e: Id)
    requires OnlyRecorded(b, w.tables.runs) && SameOutside(w, b) && Smooth(w, faults)
    requires e in w.tables.runs && (Over(w.tables.runs[e], w.now) || Candidate(w.tables.runs[e], w.now, e in w.dirs))
    ensures Cleanable(b, {e}, e)
  {
  }

  lemma SameExplanations(w: World, b: World, faults: Faults, x: Id)
    requires SameOutside(w, b) && Explains(b, w.tables.runs, faults.unreadable, Listed(b, faults.hidden), x)
    ensures Explains(w, w.tables.runs, faults.unreadable, Listed(w, faults.hidden), x)
  {
    assert Listed(b, faults.hidden) == Listed(w, faults.hidden);
  }

  /** Everything due is cleaned, and no listed container is left over, however late it appeared. */
  ghost predicate AllClean(w: World, w': World, hidden: set<Id>) {
    && (forall e :: Due(w, e) ==> Swept(w', w, e))
    && (w.tables.runs != map[] ==>
          forall x :: x in w.live && x in w.born && x !in hidden ==>
            w.born[x] in w.tables.runs && (Over(w.tables.runs[w.born[x]], w.now) ==> x !in w'.live))
  }

  lemma ScanSpares(w: World, b: World, w': World, seen: set<Id>)
    requires OnlyRecorded(b, w.tables.runs) && SameOutside(w, b) && Kept(w', b, seen)
    ensures RunningSpared(w, w')
  {
  }

  lemma ScanSweeps(w: World, b: World, w': World, e: Id)
    requires OnlyRecorded(b, w.tables.runs) && SameOutside(w, b)
    ensures Swept(w', b, e) ==> Swept(w', w, e)
    ensures Due(w, e) ==> Cleanable(b, {e}, e)
  {
  }

  lemma LateContainerGone(w: World, b: World, w': World, cs: seq<Id>, seen: set<Id>, x: Id)
    requires OnlyRecorded(b, w.tables.runs) && SameOutside(w, b) && Kept(w', b, seen)
    requires Settled(b, w.tables.runs, cs, x) && Over(w.tables.runs[w.born[x]], w.now) && Swept(w', b, w.born[x])
    ensures x !in w'.live
  {
  }

  /** What a listed container must be like to be gone for certain: sure, of a run that is over and nobody's to clean. */
  ghost predicate SureToGo(w: World, faults: Faults, x: Id) {
    && Sure(w, w.tables.runs, faults.unreadable, Listed(w, faults.hidden), x)
    && Claimable(w.tables.runs[w.born[x]], w.now) && W.Clear(faults.cleanup(w.born[x]))
  }

  lemma SureOnesGo(w: World, b: World, w': World, faults: Faults, cs: seq<Id>, seen: set<Id>, swept: set<Id>, n: nat, problems: nat, x: Id)
    requires OnlyRecorded(b, w.tables.runs) && SameOutside(w, b) && Booked(w', b, faults, seen, swept, n, problems)
    requires SureSettled(b, w.tables.runs, faults.unreadable, Listed(b, faults.hidden), Listed(b, faults.hidden), cs)
    requires (forall e :: e in cs ==> e in seen) && SureToGo(w, faults, x)
    ensures x !in w'.live
  {
    var e := w.born[x];
    assert Sure(b, w.tables.runs, faults.unreadable, Listed(b, faults.hidden), x);
    assert Settled(b, w.tables.runs, cs, x);
    assert MayRecord(b, w.tables.runs[e], b.tables.runs[e], e);
    assert Cleanable(b, {e}, e);
    LateContainerGone(w, b, w', cs, seen, x);
  }

  lemma TiedAfterScan(w: World, b: World)
    requires OnlyRecorded(b, w.tables.runs) && SameOutside(w, b) && AllTied(w)
    ensures AllTied(b)
  {
  }

  lemma EverythingIsClean(w: World, b: World, w': World, cs: seq<Id>, seen: set<Id>, hidden: set<Id>)
    requires OnlyRecorded(b, w.tables.runs) && SameOutside(w, b) && Kept(w', b, seen) && AllSwept(w', b, seen)
    requires forall e :: Due(w, e) ==> e in seen
    requires forall e :: e in cs ==> e in seen
    requires w.tables.runs != map[] ==> AllSettled(b, w.tables.runs, cs, Listed(w, hidden))
    ensures AllClean(w, w', hidden)
  {
    forall e | Due(w, e) ensures Swept(w', w, e) { ScanSweeps(w, b, w', e); }
    forall x | w.tables.runs != map[] && x in Listed(w, hidden)
      ensures w.born[x] in w.tables.runs && (Over(w.tables.runs[w.born[x]], w.now) ==> x !in w'.live)
    {
      assert Settled(b, w.tables.runs, cs, x);
      if Over(w.tables.runs[w.born[x]], w.now) { LateContainerGone(w, b, w', cs, seen, x); }
    }
  }

  lemma ClearedAreSwept(w: World, b: World, w': World, faults: Faults, seen: set<Id>, swept: set<Id>, n: nat, problems: nat, e: Id)
    requires OnlyRecorded(b, w.tables.runs) && SameOutside(w, b) && Booked(w', b, faults, seen, swept, n, problems)
    requires Due(w, e) && W.Clear(faults.cleanup(e)) && e in seen
    ensures Swept(w', w, e)
  {
    ScanSweeps(w, b, w', e);
  }

  /** What Recover relies on holds in every reachable world. */
  lemma RowsAreTied(ws: seq<World>, acts: seq<Action>, i: nat)
    requires IsRun(ws, acts) && i < |ws|
    ensures AllTied(ws[i])
  {
    InvReachable(ws, acts, i);
    forall e | e in ws[i].tables.runs ensures W.TiedIn(ws[i], e) { assert Sound(ws[i], e); }
  }

  /**
   Recover, uninterrupted. Running work is spared whatever fails; what is counted is clean; every container the list
   shows goes if it is its run's own and its cleanup works, whatever is wrong with others; and when no problem is
   reported, everything due is clean and no container that the list showed outlives its run.
   */
  method Recover(h: Host, faults: Faults, nonce: Id -> Id) returns (n: nat, problems: nat, ghost swept: set<Id>)
    requires h.Valid() && AllTied(h.View())
    requires (forall e :: nonce(e) !in h.claims) && (forall d, e :: nonce(d) == nonce(e) ==> d == e)
    modifies h, h.store
    ensures h.Continues(old(h.acts)) && RunningSpared(old(h.View()), h.View())
    ensures n == |swept| && AllSwept(h.View(), old(h.View()), swept)
    ensures faults.patience == None && problems == 0 ==> AllClean(old(h.View()), h.View(), faults.hidden)
    ensures faults.patience == None ==>
      forall e :: Due(old(h.View()), e) && W.Clear(faults.cleanup(e)) ==> Swept(h.View(), old(h.View()), e)
    ensures faults.patience == None && !faults.discover ==>
      forall x :: SureToGo(old(h.View()), faults, x) ==> x !in h.live
    ensures Smooth(old(h.View()), faults) ==> problems == 0
  {
    ghost var w := h.View();
    var own := Candidates(h);
    var late, trouble := Discover(h, h.store.runs, faults);
    ghost var b := h.View();
    TiedAfterScan(w, b);
    ghost var seen;
    n, problems, seen, swept := CleanAll(h, own + late, faults, nonce, b);
    ScanSpares(w, b, h.View(), seen);
    forall e | e in swept ensures Swept(h.View(), w, e) { ScanSweeps(w, b, h.View(), e); }
    if faults.patience == None {
      if problems == 0 && trouble == 0 { EverythingIsClean(w, b, h.View(), late, seen, faults.hidden); }
      forall e | Due(w, e) && W.Clear(faults.cleanup(e)) ensures Swept(h.View(), w, e) {
        ClearedAreSwept(w, b, h.View(), faults, seen, swept, n, problems, e);
      }
      forall x | !faults.discover && SureToGo(w, faults, x) ensures x !in h.live {
        SureOnesGo(w, b, h.View(), faults, late, seen, swept, n, problems, x);
      }
    }
    if Smooth(w, faults) {
      if trouble > 0 {
        var x :| Explains(b, w.tables.runs, faults.unreadable, Listed(b, faults.hidden), x);
        SameExplanations(w, b, faults, x);
      }
      forall e | e in seen ensures Cleanable(b, {e}, e) { SmoothCandidates(w, b, faults, e); }
    }
    problems := problems + trouble;
  }
}
