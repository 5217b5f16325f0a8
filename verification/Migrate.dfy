/** The copier: rows go to the target in batches, and every row it refuses is read back and compared. */
module Migrate {
  import opened Base
  import opened MigrateValues
  import opened MigrateSpec
  import opened MigrateTheorems

  const MAX_EXAMPLES: nat := 5

  /** The target table, as far as the copied columns go. */
  class Target {
    var rows: seq<Row>

    /** One INSERT ... ON CONFLICT DO NOTHING ... RETURNING: all of it happens, or none. */
    method Insert(h: Shape, batch: seq<Row>) returns (returned: seq<Row>)
      modifies this
      ensures returned == Added(h, old(rows), batch) && rows == old(rows) + returned
    {
      returned := [];
      ghost var before := rows;
      for i := 0 to |batch|
        invariant returned == Added(h, before, batch[..i]) && rows == before + returned
      {
        assert batch[..i + 1][..i] == batch[..i];
        var kept := h.keep(batch[i]);
        if !h.refuses(rows, kept) {
          assert rows + [kept] == before + (returned + [kept]);
          rows, returned := rows + [kept], returned + [kept];
        }
      }
      assert batch[..|batch|] == batch;
    }
  }

  /** Where the key columns are among the copied ones, or None when one of them is not copied or there is no key. */
  method KeyIndexes(cols: seq<string>, pk: seq<string>) returns (idx: Option<seq<nat>>)
    ensures idx.Some? <==> pk != [] && forall k :: k in pk ==> k in cols
    ensures idx.Some? ==> |idx.value| == |pk| && forall i :: 0 <= i < |pk| ==> idx.value[i] < |cols| && cols[idx.value[i]] == pk[i]
  {
    if |pk| == 0 { return None; }
    var at: map<string, nat> := map[];
    for i := 0 to |cols|
      invariant forall k :: k in at <==> k in cols[..i]
      invariant forall k :: k in at ==> at[k] < i && cols[at[k]] == k
    {
      assert cols[..i + 1] == cols[..i] + [cols[i]];
      at := at[cols[i] := i];
    }
    assert cols[..|cols|] == cols;
    var found: seq<nat> := [];
    for j := 0 to |pk|
      invariant |found| == j
      invariant forall i :: 0 <= i < j ==> found[i] < |cols| && pk[i] in cols && cols[found[i]] == pk[i]
    {
      if pk[j] !in at { return None; }
      found := found + [at[pk[j]]];
    }
    idx := Some(found);
  }

  lemma {:induction false} AddedAreFew(h: Shape, rows: seq<Row>, batch: seq<Row>)
    ensures |Added(h, rows, batch)| <= |batch|
  {
    if batch != [] { AddedAreFew(h, rows, batch[..|batch| - 1]); }
  }

  method AddedKeys(h: Shape, returned: seq<Row>) returns (added: set<string>)
    requires h.keyIdx.Some?
    ensures added == KeysOf(h, returned)
  {
    added := {};
    for i := 0 to |returned|
      invariant added == KeysOf(h, returned[..i])
    {
      assert returned[..i + 1][..i] == returned[..i];
      var key := KeyOf(returned[i], h.keyIdx.value, h.rendering);
      added := added + {key};
    }
    assert returned[..|returned|] == returned;
  }

  method NotAdded(h: Shape, batch: seq<Row>, added: set<string>) returns (missing: seq<Row>)
    requires h.keyIdx.Some?
    ensures missing == Missing(h, batch, added)
  {
    missing := [];
    for i := 0 to |batch|
      invariant missing == Missing(h, batch[..i], added)
    {
      assert batch[..i + 1][..i] == batch[..i];
      var key := KeyOf(batch[i], h.keyIdx.value, h.rendering);
      if key !in added { missing := missing + [batch[i]]; }
    }
    assert batch[..|batch|] == batch;
  }

  /** Writes one batch; says how many rows were new and which ones the target had already. */
  method InsertBatch(t: Target, h: Shape, batch: seq<Row>) returns (n: nat, missing: seq<Row>)
    modifies t
    ensures t.rows == old(t.rows) + Added(h, old(t.rows), batch)
    ensures h.keyIdx.None? ==> n == |Added(h, old(t.rows), batch)| && missing == []
    ensures h.keyIdx.Some? ==> n == |KeysOf(h, Added(h, old(t.rows), batch))|
    ensures h.keyIdx.Some? ==> missing == Missing(h, batch, KeysOf(h, Added(h, old(t.rows), batch)))
  {
    var returned := t.Insert(h, batch);
    if h.keyIdx.None? { return |returned|, []; }
    var added := AddedKeys(h, returned);
    missing := NotAdded(h, batch, added);
    n := |added|;
  }

  /** Reads the target rows under the keys of `missing` in one query. */
  method ReadBack(t: Target, h: Shape, missing: seq<Row>) returns (have: map<string, Row>)
    requires h.keyIdx.Some?
    ensures have == Have(h, t.rows, missing)
  {
    have := map[];
    for i := 0 to |t.rows|
      invariant have == Have(h, t.rows[..i], missing)
    {
      assert t.rows[..i + 1][..i] == t.rows[..i];
      if Asked(h, t.rows[i], missing) {
        var key := KeyOf(t.rows[i], h.keyIdx.value, h.rendering);
        have := have[key := t.rows[i]];
      }
    }
    assert t.rows[..|t.rows|] == t.rows;
  }

  method CompareRow(h: Shape, have: map<string, Row>, row: Row) returns (bad: Option<Conflict>)
    requires h.keyIdx.Some?
    ensures bad == ConflictOf(h, have, row)
  {
    var key := KeyOf(row, h.keyIdx.value, h.rendering);
    if key !in have { return Some(Conflict(row, None)); }
    var target := have[key];
    var c := 0;
    while c < |row| && c < |target| && Canon(row[c], h.rendering) == Canon(target[c], h.rendering)
      invariant 0 <= c <= |row| && c <= |target|
      invariant FirstDifference(row, target, 0, h.rendering) == FirstDifference(row, target, c, h.rendering)
    {
      c := c + 1;
    }
    bad := if c < |row| || c < |target| then Some(Conflict(row, Some(c))) else None;
  }

  /** Reports the refused rows whose content differs, with the first few as examples. */
  method CompareExisting(t: Target, h: Shape, missing: seq<Row>) returns (examples: seq<Conflict>, total: nat)
    requires h.keyIdx.Some?
    ensures var have := Have(h, t.rows, missing);
            && total == |Conflicts(h, have, missing)|
            && examples == Conflicts(h, have, missing)[..Min(total, MAX_EXAMPLES)]
  {
    var have := ReadBack(t, h, missing);
    examples, total := [], 0;
    for i := 0 to |missing|
      invariant total == |Conflicts(h, have, missing[..i])|
      invariant examples == Conflicts(h, have, missing[..i])[..Min(total, MAX_EXAMPLES)]
    {
      assert missing[..i + 1][..i] == missing[..i];
      var bad := CompareRow(h, have, missing[i]);
      if bad.Some? {
        if |examples| < MAX_EXAMPLES { examples := examples + [bad.value]; }
        total := total + 1;
      }
    }
    assert missing[..|missing|] == missing;
  }

  // ---- The whole table ----

  datatype CopyError = ReadFailed | WriteFailed | ConflictError(examples: seq<Conflict>, total: nat)

  /** What a copy that went through promises about `source`, given what the target enforces and keeps. */
  ghost predicate Copied(h: Shape, before: seq<Row>, after: seq<Row>, source: seq<Row>, copied: nat)
  {
    h.keyIdx.Some? && GoodRows(h, source) ==> AllPresent(h, after, source) && |before| + copied == |after|
  }

  /** What it does when everything is there already. */
  ghost predicate Settled(h: Shape, rows: seq<Row>, source: seq<Row>)
  {
    GoodRows(h, source) && EnforcesKey(h) && UniqueKeys(h, rows) && AllPresent(h, rows, source)
  }

  /** Nothing the target holds is in the way of the source. */
  ghost predicate Harmless(h: Shape, rows: seq<Row>, source: seq<Row>) {
    Regular(h, rows, source) && NoClash(h, rows, source)
  }

  /** Whose fault an error is: the source's, the connection's, or the target's content. */
  ghost predicate Blamed(error: Option<CopyError>, unreadable: bool, lost: bool, agreeing: bool) {
    match error
    case None => true
    case Some(ReadFailed) => unreadable
    case Some(WriteFailed) => lost
    case Some(ConflictError(_, total)) => !agreeing && total > 0
  }

  /** The flush: one batch inserted, the refused rows compared. */
  method Flush(t: Target, h: Shape, batch: seq<Row>, fails: bool) returns (n: nat, error: Option<CopyError>)
    modifies t
    ensures old(t.rows) <= t.rows && n <= |batch|
    ensures error == None ==> Copied(h, old(t.rows), t.rows, batch, n)
    ensures error == None && h.keyIdx.Some? ==> AllAccounted(h, old(t.rows), t.rows, batch)
    ensures error == None && h.keyIdx.None? ==> |old(t.rows)| + n == |t.rows|
    ensures Settled(h, old(t.rows), batch) ==> n == 0 && t.rows == old(t.rows)
    ensures Blamed(error, false, fails, h.keyIdx.Some? ==> Objections(h, old(t.rows), batch) == [])
    ensures h.keyIdx.Some? && EnforcesKey(h) && UniqueKeys(h, old(t.rows)) ==> UniqueKeys(h, t.rows)
    ensures error == None ==> t.rows == old(t.rows) + Added(h, old(t.rows), batch)
  {
    n, error := 0, None;
    if |batch| == 0 { return; }
    if fails { return 0, Some(WriteFailed); }
    ghost var before := t.rows;
    AddedAreFew(h, before, batch);
    var missing;
    n, missing := InsertBatch(t, h, batch);
    if h.keyIdx.Some? {
      ghost var added := Added(h, before, batch);
      KeysAreFew(h, added);
      if Settled(h, before, batch) {
        SecondTime(h, before, batch);
        assert before + added == before;
      }
      if EnforcesKey(h) && UniqueKeys(h, before) { UniqueStays(h, before, batch); }
      if GoodRows(h, batch) { CountIsExact(h, before, batch); }
      if |missing| > 0 {
        var examples, total := CompareExisting(t, h, missing);
        if total > 0 { return n, Some(ConflictError(examples, total)); }
      }
      forall p | 0 <= p < |batch| ensures Accounted(h, before, t.rows, batch[p]) { BatchIsAccounted(h, before, batch, p); }
      if GoodRows(h, batch) {
        forall p | 0 <= p < |batch| ensures Present(h, t.rows, batch[p]) { BatchIsPresent(h, before, batch, p); }
      }
    }
  }

  lemma {:induction false} KeysAreFew(h: Shape, rows: seq<Row>)
    requires h.keyIdx.Some?
    ensures |KeysOf(h, rows)| <= |rows|
  {
    if rows != [] { KeysAreFew(h, rows[..|rows| - 1]); }
  }

  function CoerceRow(row: Row, booleans: seq<bool>): Row
    requires |row| == |booleans|
  {
    if row == [] then [] else CoerceRow(row[..|row| - 1], booleans[..|row| - 1]) + [Coerce(row[|row| - 1], booleans[|row| - 1])]
  }

  ghost predicate SameWidth(rows: seq<Row>, booleans: seq<bool>) {
    forall i :: 0 <= i < |rows| ==> |rows[i]| == |booleans|
  }

  /** The source rows as the target's column types want them. */
  function CoerceAll(rows: seq<Row>, booleans: seq<bool>): seq<Row>
    requires SameWidth(rows, booleans)
  {
    if rows == [] then [] else CoerceAll(rows[..|rows| - 1], booleans) + [CoerceRow(rows[|rows| - 1], booleans)]
  }

  /** In a boolean column an integer becomes whether it is not zero; nothing else changes. */
  lemma {:induction false} CoerceRowAt(row: Row, booleans: seq<bool>, i: nat)
    requires |row| == |booleans|
    ensures |CoerceRow(row, booleans)| == |row|
    ensures i < |row| ==> CoerceRow(row, booleans)[i] == if booleans[i] && row[i].Int? then Bool(row[i].n != 0) else row[i]
  {
    if row != [] { CoerceRowAt(row[..|row| - 1], booleans[..|row| - 1], i); }
  }

  method Adapt(row: Row, booleans: seq<bool>) returns (vals: Row)
    requires |row| == |booleans|
    ensures vals == CoerceRow(row, booleans)
  {
    vals := [];
    for i := 0 to |row|
      invariant vals == CoerceRow(row[..i], booleans[..i])
    {
      assert row[..i + 1][..i] == row[..i] && booleans[..i + 1][..i] == booleans[..i];
      vals := vals + [Coerce(row[i], booleans[i])];
    }
    assert row[..|row|] == row && booleans[..|row|] == booleans;
  }

  lemma {:induction false} CoerceAllAt(rows: seq<Row>, booleans: seq<bool>, i: nat)
    requires SameWidth(rows, booleans) && i <= |rows|
    ensures |CoerceAll(rows, booleans)| == |rows| && CoerceAll(rows, booleans)[..i] == CoerceAll(rows[..i], booleans)
    ensures i < |rows| ==> CoerceAll(rows, booleans)[i] == CoerceRow(rows[i], booleans)
  {
    if rows != [] {
      var n := |rows| - 1;
      CoerceAllAt(rows[..n], booleans, if i < n then i else n);
      if i < n { assert rows[..n][..i] == rows[..i]; }
      assert rows[..n][..n] == rows[..n] && rows[..|rows|] == rows;
    }
  }

  lemma GoodSlice(h: Shape, all: seq<Row>, from: nat, to: nat)
    requires GoodRows(h, all) && from <= to <= |all|
    ensures GoodRows(h, all[from..to])
  {
    var part := all[from..to];
    forall i, j | 0 <= i < j < |part| ensures Key(part[i], h) != Key(part[j], h) {
      assert part[i] == all[from + i] && part[j] == all[from + j];
    }
  }

  lemma PresentParts(h: Shape, rows: seq<Row>, rows': seq<Row>, all: seq<Row>, from: nat, to: nat)
    requires h.keyIdx.Some? && from <= to <= |all|
    requires rows <= rows'
    requires AllPresent(h, rows, all[..from]) && AllPresent(h, rows', all[from..to])
    ensures AllPresent(h, rows', all[..to])
  {
    forall i | 0 <= i < to ensures Present(h, rows', all[..to][i]) {
      if i < from {
        assert all[..from][i] == all[i] && Present(h, rows, all[..from][i]);
        assert rows' == rows + rows'[|rows|..];
        PresentStays(h, rows, rows'[|rows|..], all[i]);
      } else {
        assert all[from..to][i - from] == all[i] && Present(h, rows', all[from..to][i - from]);
      }
    }
  }

  lemma AccountedParts(h: Shape, before: seq<Row>, now: seq<Row>, after: seq<Row>, all: seq<Row>, from: nat, to: nat)
    requires h.keyIdx.Some? && from <= to <= |all| && before <= now <= after
    requires AllAccounted(h, before, now, all[..from]) && AllAccounted(h, now, after, all[from..to])
    ensures AllAccounted(h, before, after, all[..to])
  {
    forall i | 0 <= i < to ensures Accounted(h, before, after, all[..to][i]) {
      if i < from {
        assert Accounted(h, before, now, all[..from][i]);
        AccountedStays(h, before, before, now, after, all[i]);
      } else {
        assert Accounted(h, now, after, all[from..to][i - from]);
        AccountedStays(h, before, now, after, after, all[i]);
      }
    }
  }

  /** What the loop has achieved when the first `done` rows are flushed. */
  ghost predicate Progress(h: Shape, before: seq<Row>, now: seq<Row>, all: seq<Row>, done: nat, copied: nat, skipped: nat, settled: bool)
    requires done <= |all|
  {
    && copied + skipped == done && FromSource(h, before, now, all, done)
    && Copied(h, before, now, all[..done], copied)
    && (h.keyIdx.Some? ==> AllAccounted(h, before, now, all[..done]))
    && (h.keyIdx.None? ==> |before| + copied == |now|)
    && (settled ==> now == before && copied == 0)
    && (h.keyIdx.Some? && EnforcesKey(h) && UniqueKeys(h, before) ==> UniqueKeys(h, now))
  }

  lemma SliceOfSlice(all: seq<Row>, from: nat, to: nat)
    requires from <= to <= |all|
    ensures all[..to][..from] == all[..from] && all[..to][from..] == all[from..to]
  {
  }

  lemma CopiedJoins(h: Shape, before: seq<Row>, now: seq<Row>, after: seq<Row>, all: seq<Row>, from: nat, to: nat, copied: nat, n: nat)
    requires from <= to <= |all|
    requires now <= after
    requires Copied(h, before, now, all[..from], copied) && Copied(h, now, after, all[from..to], n)
    ensures Copied(h, before, after, all[..to], copied + n)
  {
    if h.keyIdx.Some? && GoodRows(h, all[..to]) {
      SliceOfSlice(all, from, to);
      GoodSlice(h, all[..to], 0, from);
      GoodSlice(h, all[..to], from, to);
      assert all[..to][0..from] == all[..from] && all[..to][from..to] == all[from..to];
      PresentParts(h, now, after, all, from, to);
    }
  }

  lemma SettledSlice(h: Shape, rows: seq<Row>, all: seq<Row>, from: nat, to: nat)
    requires from <= to <= |all| && Settled(h, rows, all)
    ensures Settled(h, rows, all[from..to])
  {
    GoodSlice(h, all, from, to);
    forall i | 0 <= i < to - from ensures Present(h, rows, all[from..to][i]) {
      assert all[from..to][i] == all[from + i];
      assert Present(h, rows, all[from + i]);
    }
  }

  /** The rows of one flush raise no objection when nothing of the target is in the way of the source. */
  lemma NextIsAgreed(h: Shape, before: seq<Row>, now: seq<Row>, all: seq<Row>, done: nat, to: nat, settled: bool, harmless: bool)
    requires done <= to <= |all| && FromSource(h, before, now, all, done) && h.keyIdx.Some?
    requires settled ==> now == before && Settled(h, before, all)
    requires harmless ==> Harmless(h, before, all) && UniqueKeys(h, now)
    ensures settled || harmless ==> Objections(h, now, all[done..to]) == []
  {
    if settled {
      SettledSlice(h, before, all, done, to);
      SecondTime(h, before, all[done..to]);
      assert before + [] == before;
    } else if harmless {
      GoodSlice(h, all, done, to);
      StillNoClash(h, before, now, all, done, to);
      WithoutClashNoObjection(h, now, all[done..to]);
    }
  }

  lemma StartsEmpty(h: Shape, before: seq<Row>, all: seq<Row>, settled: bool)
    ensures Progress(h, before, before, all, 0, 0, 0, settled)
  {
  }

  /** One flush in the loop: rows `done` up to `to` go to the target. */
  method FlushNext(t: Target, h: Shape, batch: seq<Row>, fails: bool, copied0: nat, skipped0: nat,
                   ghost before: seq<Row>, ghost all: seq<Row>, ghost done: nat, ghost to: nat, ghost settled: bool, ghost harmless: bool)
    returns (copied: nat, skipped: nat, error: Option<CopyError>)
    requires done <= to <= |all| && batch == all[done..to]
    requires Progress(h, before, t.rows, all, done, copied0, skipped0, settled) && (settled ==> Settled(h, before, all)) && (harmless ==> Harmless(h, before, all))
    modifies t
    ensures before <= t.rows
    ensures error == None ==> Progress(h, before, t.rows, all, to, copied, skipped, settled)
    ensures Blamed(error, false, fails, settled || harmless)
  {
    ghost var now := t.rows;
    if settled { SettledSlice(h, before, all, done, to); }
    if h.keyIdx.Some? { NextIsAgreed(h, before, now, all, done, to, settled, harmless); }
    var n;
    n, error := Flush(t, h, batch, fails);
    if error != None { return copied0, skipped0, error; }
    copied, skipped := copied0 + n, skipped0 + (|batch| - n);
    CopiedJoins(h, before, now, t.rows, all, done, to, copied0, n);
    FromSourceGrows(h, before, now, all, done, to);
    if h.keyIdx.Some? { AccountedParts(h, before, now, t.rows, all, done, to); }
  }

  /** The loop of a dry run: rows are read and counted. */
  method CountRows(source: seq<Row>, unreadable: Option<nat>) returns (copied: nat, error: Option<CopyError>)
    ensures error == None ==> copied == |source|
    ensures if unreadable == None then error == None else error == Some(ReadFailed)
  {
    copied, error := 0, None;
    for i := 0 to |source|
      invariant copied == i
    {
      if unreadable == Some(i) { return copied, Some(ReadFailed); }
      copied := copied + 1;
    }
    error := if unreadable != None then Some(ReadFailed) else None;
  }

  method NextRow(source: seq<Row>, booleans: seq<bool>, i: nat, ghost all: seq<Row>) returns (vals: Row)
    requires SameWidth(source, booleans) && all == CoerceAll(source, booleans) && i < |source|
    ensures i < |all| && vals == all[i]
  {
    CoerceAllAt(source, booleans, i);
    vals := Adapt(source[i], booleans);
  }

  lemma SliceGrows<T>(all: seq<T>, from: nat, to: nat)
    requires from <= to < |all|
    ensures all[from..to + 1] == all[from..to] + [all[to]]
  {
  }

  /** What the loop holds: the counters, the rows not flushed yet, and how many inserts were sent. */
  datatype Pending = Pending(copied: nat, skipped: nat, batch: seq<Row>, flushes: nat)

  ghost predicate Holds(h: Shape, before: seq<Row>, now: seq<Row>, all: seq<Row>, i: nat, p: Pending, settled: bool)
    requires i <= |all|
  {
    && |p.batch| <= i && p.batch == all[i - |p.batch|..i]
    && Progress(h, before, now, all, i - |p.batch|, p.copied, p.skipped, settled)
  }

  lemma NothingHeld(h: Shape, before: seq<Row>, now: seq<Row>, all: seq<Row>, i: nat, copied: nat, skipped: nat, flushes: nat, settled: bool)
    requires i <= |all| && Progress(h, before, now, all, i, copied, skipped, settled)
    ensures Holds(h, before, now, all, i, Pending(copied, skipped, [], flushes), settled)
  {
    assert all[i..i] == [];
  }

  lemma OneMoreHeld(h: Shape, before: seq<Row>, now: seq<Row>, all: seq<Row>, i: nat, p: Pending, next: Pending, settled: bool)
    requires i < |all| && Holds(h, before, now, all, i, p, settled)
    requires next == p.(batch := p.batch + [all[i]])
    ensures before <= now && Holds(h, before, now, all, i + 1, next, settled)
  {
    SliceGrows(all, i - |p.batch|, i);
  }

  /** Sends what is held. */
  method Send(t: Target, h: Shape, p: Pending, fails: bool, ghost before: seq<Row>, ghost all: seq<Row>, ghost i: nat, ghost settled: bool, ghost harmless: bool)
    returns (next: Pending, error: Option<CopyError>)
    requires i <= |all|
    requires Holds(h, before, t.rows, all, i, p, settled) && (settled ==> Settled(h, before, all)) && (harmless ==> Harmless(h, before, all))
    modifies t
    ensures before <= t.rows
    ensures error == None ==> next.batch == [] && Holds(h, before, t.rows, all, i, next, settled)
    ensures Blamed(error, false, fails, settled || harmless)
  {
    var copied, skipped;
    copied, skipped, error := FlushNext(t, h, p.batch, fails, p.copied, p.skipped, before, all, i - |p.batch|, i, settled, harmless);
    next := Pending(copied, skipped, [], p.flushes + 1);
    if error == None { NothingHeld(h, before, t.rows, all, i, copied, skipped, p.flushes + 1, settled); }
  }

  /** Holds one row more, and sends a full batch. */
  method Take(t: Target, h: Shape, p: Pending, vals: Row, batchSize: int, lost: set<nat>,
              ghost before: seq<Row>, ghost all: seq<Row>, ghost i: nat, ghost settled: bool, ghost harmless: bool)
    returns (next: Pending, error: Option<CopyError>)
    requires i < |all| && vals == all[i]
    requires Holds(h, before, t.rows, all, i, p, settled) && (settled ==> Settled(h, before, all)) && (harmless ==> Harmless(h, before, all))
    modifies t
    ensures before <= t.rows
    ensures error == None ==> Holds(h, before, t.rows, all, i + 1, next, settled)
    ensures Blamed(error, false, lost != {}, settled || harmless)
  {
    next, error := p.(batch := p.batch + [vals]), None;
    OneMoreHeld(h, before, t.rows, all, i, p, next, settled);
    if |next.batch| >= batchSize {
      next, error := Send(t, h, next, p.flushes in lost, before, all, i + 1, settled, harmless);
    }
  }

  /** One turn of the loop: the next row, read and held. */
  method TakeNext(t: Target, h: Shape, p: Pending, source: seq<Row>, booleans: seq<bool>, i: nat, batchSize: int, lost: set<nat>,
                  ghost before: seq<Row>, ghost all: seq<Row>, ghost settled: bool, ghost harmless: bool)
    returns (next: Pending, error: Option<CopyError>)
    requires SameWidth(source, booleans) && all == CoerceAll(source, booleans) && i < |source| == |all|
    requires Holds(h, before, t.rows, all, i, p, settled) && (settled ==> Settled(h, before, all)) && (harmless ==> Harmless(h, before, all))
    modifies t
    ensures before <= t.rows
    ensures error == None ==> Holds(h, before, t.rows, all, i + 1, next, settled)
    ensures Blamed(error, false, lost != {}, settled || harmless)
  {
    var vals := NextRow(source, booleans, i, all);
    next, error := Take(t, h, p, vals, batchSize, lost, before, all, i, settled, harmless);
  }

  lemma HoldsNothingYet(h: Shape, before: seq<Row>, all: seq<Row>, settled: bool)
    ensures Holds(h, before, before, all, 0, Pending(0, 0, [], 0), settled)
  {
    StartsEmpty(h, before, all, settled);
    NothingHeld(h, before, before, all, 0, 0, 0, 0, settled);
  }

  /** The loop of a real run: rows are held until the batch is full. */
  method TakeAll(t: Target, h: Shape, source: seq<Row>, booleans: seq<bool>, batchSize: int,
                 unreadable: Option<nat>, lost: set<nat>, ghost all: seq<Row>, ghost settled: bool, ghost harmless: bool)
    returns (p: Pending, error: Option<CopyError>)
    requires SameWidth(source, booleans) && all == CoerceAll(source, booleans) && |all| == |source|
    requires (settled ==> Settled(h, t.rows, all)) && (harmless ==> Harmless(h, t.rows, all))
    modifies t
    ensures old(t.rows) <= t.rows && (unreadable != None ==> error != None)
    ensures error == None ==> Holds(h, old(t.rows), t.rows, all, |all|, p, settled)
    ensures Blamed(error, unreadable != None, lost != {}, settled || harmless)
  {
    ghost var before := t.rows;
    p, error := Pending(0, 0, [], 0), None;
    HoldsNothingYet(h, before, all, settled);
    for i := 0 to |source|
      invariant before <= t.rows && error == None && Holds(h, before, t.rows, all, i, p, settled)
    {
      if unreadable == Some(i) { return p, Some(ReadFailed); }
      p, error := TakeNext(t, h, p, source, booleans, i, batchSize, lost, before, all, settled, harmless);
      if error != None { return; }
    }
    if unreadable != None { error := Some(ReadFailed); }
  }

  /** A real run: a full batch is sent at once, the rest at the end. */
  method CopyRows(t: Target, h: Shape, source: seq<Row>, booleans: seq<bool>, batchSize: int,
                  unreadable: Option<nat>, lost: set<nat>, ghost all: seq<Row>, ghost settled: bool, ghost harmless: bool)
    returns (copied: nat, skipped: nat, error: Option<CopyError>)
    requires SameWidth(source, booleans)
    requires all == CoerceAll(source, booleans)
    requires (settled ==> Settled(h, t.rows, all)) && (harmless ==> Harmless(h, t.rows, all))
    modifies t
    ensures |all| == |source| && old(t.rows) <= t.rows && (unreadable != None ==> error != None)
    ensures error == None ==> Progress(h, old(t.rows), t.rows, all, |all|, copied, skipped, settled)
    ensures Blamed(error, unreadable != None, lost != {}, settled || harmless)
  {
    ghost var before := t.rows;
    CoerceAllAt(source, booleans, |source|);
    var p;
    p, error := TakeAll(t, h, source, booleans, batchSize, unreadable, lost, all, settled, harmless);
    if error == None {
      p, error := Send(t, h, p, p.flushes in lost, before, all, |all|, settled, harmless);
    }
    copied, skipped := p.copied, p.skipped;
  }

  /** What is in the target afterwards did not clash before. */
  lemma SucceedsWithoutClash(h: Shape, before: seq<Row>, after: seq<Row>, all: seq<Row>)
    requires Regular(h, before, all) && before <= after && AllPresent(h, after, all) && UniqueKeys(h, after)
    ensures NoClash(h, before, all)
  {
    forall p | 0 <= p < |all| ensures !Clash(h, before, all[p]) {
      assert Present(h, after, all[p]);
      if Clash(h, before, all[p]) { ClashStays(h, before, after, all[p]); }
    }
  }

  /**
   One table, row by row in batches. `unreadable` is where reading the source breaks off, if it does, and
   `lost` numbers the inserts the connection loses.
   */
  method CopyTable(t: Target, h: Shape, source: seq<Row>, booleans: seq<bool>, batchSize: int, dryRun: bool,
                   unreadable: Option<nat>, lost: set<nat>)
    returns (copied: nat, skipped: nat, error: Option<CopyError>)
    requires SameWidth(source, booleans)
    modifies t
    ensures old(t.rows) <= t.rows
    ensures dryRun ==> t.rows == old(t.rows) && (error == None ==> copied == |source|)
    ensures unreadable != None ==> error != None
    ensures error == None ==> copied + skipped == |source|
    ensures error == None && !dryRun ==> Copied(h, old(t.rows), t.rows, CoerceAll(source, booleans), copied)
    ensures error == None && !dryRun && h.keyIdx.Some? ==> AllAccounted(h, old(t.rows), t.rows, CoerceAll(source, booleans))
    ensures error == None && !dryRun && h.keyIdx.None? ==> |old(t.rows)| + copied == |t.rows|
    ensures Blamed(error, unreadable != None, lost != {},
                   Settled(h, old(t.rows), CoerceAll(source, booleans)) || Harmless(h, old(t.rows), CoerceAll(source, booleans)))
    ensures !dryRun && unreadable == None && lost == {} && Regular(h, old(t.rows), CoerceAll(source, booleans)) ==>
              (error == None <==> NoClash(h, old(t.rows), CoerceAll(source, booleans)))
    ensures Settled(h, old(t.rows), CoerceAll(source, booleans)) && !dryRun && error == None ==> copied == 0 && t.rows == old(t.rows)
    ensures h.keyIdx.Some? && EnforcesKey(h) && UniqueKeys(h, old(t.rows)) && error == None ==> UniqueKeys(h, t.rows)
  {
    if dryRun {
      copied, error := CountRows(source, unreadable);
      skipped := 0;
    } else {
      ghost var all := CoerceAll(source, booleans);
      ghost var before := t.rows;
      copied, skipped, error := CopyRows(t, h, source, booleans, batchSize, unreadable, lost, all, Settled(h, before, all), Harmless(h, before, all));
      assert all[..|all|] == all;
      if error == None && Regular(h, before, all) { SucceedsWithoutClash(h, before, t.rows, all); }
    }
  }

  /** Copies, and copies again: the second run adds nothing, skips every row and finds no conflict. */
  method CopyTwice(t: Target, h: Shape, source: seq<Row>, booleans: seq<bool>, batchSize: int)
    returns (first: Option<CopyError>, second: Option<CopyError>, copiedAgain: nat, skippedAgain: nat)
    requires SameWidth(source, booleans) && GoodRows(h, CoerceAll(source, booleans))
    requires EnforcesKey(h) && UniqueKeys(h, t.rows)
    modifies t
    ensures old(t.rows) <= t.rows
    ensures first == None ==> AllPresent(h, t.rows, CoerceAll(source, booleans))
    ensures first == None ==> second == None && copiedAgain == 0 && skippedAgain == |source|
  {
    var copied, skipped;
    copied, skipped, first := CopyTable(t, h, source, booleans, batchSize, false, None, {});
    copiedAgain, skippedAgain, second := 0, 0, None;
    if first == None {
      copiedAgain, skippedAgain, second := CopyTable(t, h, source, booleans, batchSize, false, None, {});
    }
  }
}
