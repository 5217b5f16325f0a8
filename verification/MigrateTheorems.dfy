/** What a batch that raised no conflict leaves behind, and what it does the second time. */
module MigrateTheorems {
  import opened Base
  import opened MigrateValues
  import opened MigrateSpec

  /** Rows that the target keeps faithfully and whose canonical keys are distinct. */
  ghost predicate GoodRows(h: Shape, rows: seq<Row>) {
    && h.keyIdx.Some?
    && (forall i :: 0 <= i < |rows| ==> Faithful(h, rows[i]))
    && DistinctKeys(h, rows)
  }

  lemma KeepsKey(h: Shape, row: Row)
    requires h.keyIdx.Some? && Faithful(h, row)
    ensures Key(h.keep(row), h) == Key(row, h)
  {
    SameKeyTexts(row, h.keep(row), h.keyIdx.value, h.rendering);
  }

  lemma SameKeySameRow(h: Shape, rows: seq<Row>, i: nat, j: nat)
    requires GoodRows(h, rows) && i < |rows| && j < |rows| && Key(rows[i], h) == Key(rows[j], h)
    ensures i == j
  {
    if i < j {} else if j < i {}
  }

  lemma GoodPrefix(h: Shape, rows: seq<Row>, n: nat)
    requires GoodRows(h, rows) && n <= |rows|
    ensures GoodRows(h, rows[..n])
  {
  }

  /** Every added row is what the target keeps of some row of the batch. */
  lemma {:induction false} AddedComesFrom(h: Shape, rows: seq<Row>, batch: seq<Row>, s: nat)
    requires s < |Added(h, rows, batch)|
    ensures exists p :: 0 <= p < |batch| && Added(h, rows, batch)[s] == h.keep(batch[p])
  {
    var n := |batch| - 1;
    if s < |Added(h, rows, batch[..n])| {
      AddedComesFrom(h, rows, batch[..n], s);
      var p :| 0 <= p < n && Added(h, rows, batch[..n])[s] == h.keep(batch[..n][p]);
      assert Added(h, rows, batch)[s] == h.keep(batch[p]);
    } else {
      assert Added(h, rows, batch)[s] == h.keep(batch[n]);
    }
  }

  lemma {:induction false} KeysMember(h: Shape, rows: seq<Row>, k: string)
    requires h.keyIdx.Some? && k in KeysOf(h, rows)
    ensures exists i :: 0 <= i < |rows| && Key(rows[i], h) == k
  {
    var n := |rows| - 1;
    if k in KeysOf(h, rows[..n]) {
      KeysMember(h, rows[..n], k);
      var i :| 0 <= i < n && Key(rows[..n][i], h) == k;
      assert Key(rows[i], h) == k;
    } else {
      assert Key(rows[n], h) == k;
    }
  }

  /** A key that came back belongs to the one row of the batch it identifies. */
  lemma KeyCameBack(h: Shape, rows: seq<Row>, batch: seq<Row>, p: nat)
    requires GoodRows(h, batch) && p < |batch|
    requires Key(batch[p], h) in KeysOf(h, Added(h, rows, batch))
    ensures exists s :: 0 <= s < |Added(h, rows, batch)| && Added(h, rows, batch)[s] == h.keep(batch[p])
  {
    var added := Added(h, rows, batch);
    KeysMember(h, added, Key(batch[p], h));
    var s :| 0 <= s < |added| && Key(added[s], h) == Key(batch[p], h);
    AddedComesFrom(h, rows, batch, s);
    var q :| 0 <= q < |batch| && added[s] == h.keep(batch[q]);
    KeepsKey(h, batch[q]);
    SameKeySameRow(h, batch, p, q);
  }

  /** So the number of keys that came back is the number of rows added. */
  lemma {:induction false} CountIsExact(h: Shape, rows: seq<Row>, batch: seq<Row>)
    requires GoodRows(h, batch)
    ensures |KeysOf(h, Added(h, rows, batch))| == |Added(h, rows, batch)|
  {
    if batch != [] {
      var n := |batch| - 1;
      GoodPrefix(h, batch, n);
      CountIsExact(h, rows, batch[..n]);
      var before, added := Added(h, rows, batch[..n]), Added(h, rows, batch);
      if added != before {
        assert added[..|added| - 1] == before;
        KeepsKey(h, batch[n]);
        if Key(batch[n], h) in KeysOf(h, before) {
          KeysMember(h, before, Key(batch[n], h));
          var s :| 0 <= s < |before| && Key(before[s], h) == Key(batch[n], h);
          AddedComesFrom(h, rows, batch[..n], s);
          var p :| 0 <= p < n && before[s] == h.keep(batch[..n][p]);
          KeepsKey(h, batch[p]);
        }
      }
    }
  }

  lemma {:induction false} MissingMember(h: Shape, batch: seq<Row>, keys: set<string>, p: nat)
    requires h.keyIdx.Some? && p < |batch| && Key(batch[p], h) !in keys
    ensures exists m :: 0 <= m < |Missing(h, batch, keys)| && Missing(h, batch, keys)[m] == batch[p]
  {
    var n := |batch| - 1;
    var before := Missing(h, batch[..n], keys);
    if p < n {
      MissingMember(h, batch[..n], keys, p);
      var m :| 0 <= m < |before| && before[m] == batch[..n][p];
      assert Missing(h, batch, keys)[m] == batch[p];
    } else {
      assert Missing(h, batch, keys)[|before|] == batch[n];
    }
  }

  lemma {:induction false} MissingComesFrom(h: Shape, batch: seq<Row>, keys: set<string>, m: nat)
    requires h.keyIdx.Some? && m < |Missing(h, batch, keys)|
    ensures exists p :: 0 <= p < |batch| && Missing(h, batch, keys)[m] == batch[p]
  {
    var n := |batch| - 1;
    var before := Missing(h, batch[..n], keys);
    if m < |before| {
      MissingComesFrom(h, batch[..n], keys, m);
      var p :| 0 <= p < n && before[m] == batch[..n][p];
      assert Missing(h, batch, keys)[m] == batch[p];
    } else {
      assert Missing(h, batch, keys)[m] == batch[n];
    }
  }

  /** What the read-back holds under a key is a target row with that key that was asked for. */
  lemma {:induction false} HaveMember(h: Shape, rows: seq<Row>, missing: seq<Row>, k: string)
    requires h.keyIdx.Some? && k in Have(h, rows, missing)
    ensures exists i :: 0 <= i < |rows| && rows[i] == Have(h, rows, missing)[k] && Key(rows[i], h) == k && Asked(h, rows[i], missing)
  {
    var n := |rows| - 1;
    if Asked(h, rows[n], missing) && Key(rows[n], h) == k {
      assert rows[n] == Have(h, rows, missing)[k];
    } else {
      HaveMember(h, rows[..n], missing, k);
      var i :| 0 <= i < n && rows[..n][i] == Have(h, rows[..n], missing)[k] && Key(rows[..n][i], h) == k && Asked(h, rows[..n][i], missing);
      assert rows[i] == Have(h, rows, missing)[k];
    }
  }

  lemma {:induction false} HaveAll(h: Shape, rows: seq<Row>, missing: seq<Row>, i: nat)
    requires h.keyIdx.Some?
    requires i < |rows| && Asked(h, rows[i], missing)
    ensures Key(rows[i], h) in Have(h, rows, missing)
  {
    var n := |rows| - 1;
    if i < n {
      HaveAll(h, rows[..n], missing, i);
    }
  }

  lemma {:induction false} NoConflictAt(h: Shape, have: map<string, Row>, missing: seq<Row>, m: nat)
    requires h.keyIdx.Some? && m < |missing|
    requires Conflicts(h, have, missing) == []
    ensures ConflictOf(h, have, missing[m]) == None
  {
    if m < |missing| - 1 { NoConflictAt(h, have, missing[..|missing| - 1], m); }
  }

  /** A read-back row under the key of a batch row was asked for by that row itself. */
  lemma ReadBackIsOwn(h: Shape, rows: seq<Row>, batch: seq<Row>, missing: seq<Row>, p: nat)
    requires GoodRows(h, batch) && p < |batch|
    requires forall m :: 0 <= m < |missing| ==> missing[m] in batch
    requires Key(batch[p], h) in Have(h, rows, missing)
    ensures exists i :: 0 <= i < |rows| && rows[i] == Have(h, rows, missing)[Key(batch[p], h)]
                        && SqlKey(rows[i], h.keyIdx.value) == SqlKey(h.keep(batch[p]), h.keyIdx.value)
  {
    var k := Key(batch[p], h);
    HaveMember(h, rows, missing, k);
    var i :| 0 <= i < |rows| && rows[i] == Have(h, rows, missing)[k] && Key(rows[i], h) == k && Asked(h, rows[i], missing);
    var m :| 0 <= m < |missing| && SqlKey(rows[i], h.keyIdx.value) == SqlKey(h.keep(missing[m]), h.keyIdx.value);
    var q :| 0 <= q < |batch| && batch[q] == missing[m];
    SqlKeyDecidesKey(rows[i], h.keep(missing[m]), h.keyIdx.value, h.rendering);
    KeepsKey(h, batch[q]);
    SameKeySameRow(h, batch, p, q);
  }

  /** What comparing the refused rows of a batch finds, after the batch went to a table of `rows`. */
  function Objections(h: Shape, rows: seq<Row>, batch: seq<Row>): seq<Conflict>
    requires h.keyIdx.Some?
  {
    var missing := Missing(h, batch, KeysOf(h, Added(h, rows, batch)));
    Conflicts(h, Have(h, rows + Added(h, rows, batch), missing), missing)
  }

  lemma AddedIsPresent(h: Shape, rows: seq<Row>, batch: seq<Row>, p: nat)
    requires GoodRows(h, batch) && p < |batch| && Key(batch[p], h) in KeysOf(h, Added(h, rows, batch))
    ensures Present(h, rows + Added(h, rows, batch), batch[p])
  {
    var added := Added(h, rows, batch);
    KeyCameBack(h, rows, batch, p);
    var s :| 0 <= s < |added| && added[s] == h.keep(batch[p]);
    assert (rows + added)[|rows| + s] == h.keep(batch[p]);
    assert Faithful(h, batch[p]);
  }

  /** A refused row that was read back and compared without an objection. */
  lemma ComparedIsPresent(h: Shape, after: seq<Row>, batch: seq<Row>, missing: seq<Row>, p: nat, m: nat)
    requires GoodRows(h, batch) && p < |batch| && m < |missing| && missing[m] == batch[p]
    requires forall q :: 0 <= q < |missing| ==> missing[q] in batch
    requires Conflicts(h, Have(h, after, missing), missing) == []
    ensures Present(h, after, batch[p])
  {
    NoConflictAt(h, Have(h, after, missing), missing, m);
    ReadBackIsOwn(h, after, batch, missing, p);
    NoDifference(batch[p], Have(h, after, missing)[Key(batch[p], h)], 0, h.rendering);
  }

  /** A batch that raised no conflict is in the target, row by row, under its key and with its content. */
  lemma BatchIsPresent(h: Shape, rows: seq<Row>, batch: seq<Row>, p: nat)
    requires GoodRows(h, batch) && p < |batch|
    requires Objections(h, rows, batch) == []
    ensures Present(h, rows + Added(h, rows, batch), batch[p])
  {
    var keys := KeysOf(h, Added(h, rows, batch));
    var missing := Missing(h, batch, keys);
    if Key(batch[p], h) in keys {
      AddedIsPresent(h, rows, batch, p);
    } else {
      MissingMember(h, batch, keys, p);
      var m :| 0 <= m < |missing| && missing[m] == batch[p];
      forall q | 0 <= q < |missing| ensures missing[q] in batch { MissingComesFrom(h, batch, keys, q); }
      ComparedIsPresent(h, rows + Added(h, rows, batch), batch, missing, p, m);
    }
  }

  // ---- Without anything known of what the target keeps ----

  /** Some target row has the row's content, and so its canonical key. */
  ghost predicate Matched(h: Shape, rows: seq<Row>, row: Row) {
    exists i :: 0 <= i < |rows| && SameContent(row, rows[i], h.rendering)
  }

  /** A row from position `from` on has the row's canonical key. */
  ghost predicate AddedUnder(h: Shape, rows: seq<Row>, from: nat, row: Row)
    requires h.keyIdx.Some?
  {
    exists i :: from <= i < |rows| && Key(rows[i], h) == Key(row, h)
  }

  /** The row was compared and found equal, or its key is that of a row this run added. */
  ghost predicate Accounted(h: Shape, before: seq<Row>, after: seq<Row>, row: Row)
    requires h.keyIdx.Some?
  {
    Matched(h, after, row) || AddedUnder(h, after, |before|, row)
  }

  ghost predicate AllAccounted(h: Shape, before: seq<Row>, after: seq<Row>, source: seq<Row>)
    requires h.keyIdx.Some?
  {
    forall i :: 0 <= i < |source| ==> Accounted(h, before, after, source[i])
  }

  lemma ComparedIsMatched(h: Shape, after: seq<Row>, missing: seq<Row>, m: nat)
    requires h.keyIdx.Some? && m < |missing| && Conflicts(h, Have(h, after, missing), missing) == []
    ensures Matched(h, after, missing[m])
  {
    var have, k := Have(h, after, missing), Key(missing[m], h);
    NoConflictAt(h, have, missing, m);
    NoDifference(missing[m], have[k], 0, h.rendering);
    HaveMember(h, after, missing, k);
  }

  /** Whatever the target makes of the rows it takes: no row of a batch without an objection is lost. */
  lemma BatchIsAccounted(h: Shape, rows: seq<Row>, batch: seq<Row>, p: nat)
    requires h.keyIdx.Some? && p < |batch| && Objections(h, rows, batch) == []
    ensures Accounted(h, rows, rows + Added(h, rows, batch), batch[p])
  {
    var added := Added(h, rows, batch);
    var keys := KeysOf(h, added);
    if Key(batch[p], h) in keys {
      KeysMember(h, added, Key(batch[p], h));
      var i :| 0 <= i < |added| && Key(added[i], h) == Key(batch[p], h);
      assert (rows + added)[|rows| + i] == added[i];
    } else {
      MissingMember(h, batch, keys, p);
      var m :| 0 <= m < |Missing(h, batch, keys)| && Missing(h, batch, keys)[m] == batch[p];
      ComparedIsMatched(h, rows + added, Missing(h, batch, keys), m);
    }
  }

  lemma AccountedStays(h: Shape, first: seq<Row>, before: seq<Row>, now: seq<Row>, after: seq<Row>, row: Row)
    requires h.keyIdx.Some? && first <= before && now <= after && Accounted(h, before, now, row)
    ensures Accounted(h, first, after, row)
  {
    if Matched(h, now, row) {
      var i :| 0 <= i < |now| && SameContent(row, now[i], h.rendering);
      assert after[i] == now[i];
    } else {
      var i :| |before| <= i < |now| && Key(now[i], h) == Key(row, h);
      assert after[i] == now[i];
    }
  }

  lemma PresentStays(h: Shape, rows: seq<Row>, more: seq<Row>, row: Row)
    requires h.keyIdx.Some? && Present(h, rows, row)
    ensures Present(h, rows + more, row)
  {
    var i :| 0 <= i < |rows| &&
      SqlKey(rows[i], h.keyIdx.value) == SqlKey(h.keep(row), h.keyIdx.value) && SameContent(row, rows[i], h.rendering);
    assert (rows + more)[i] == rows[i];
  }

  // ---- The second run ----

  lemma {:induction false} NothingAdded(h: Shape, rows: seq<Row>, batch: seq<Row>)
    requires h.keyIdx.Some?
    requires EnforcesKey(h) && AllPresent(h, rows, batch)
    ensures Added(h, rows, batch) == []
  {
    if batch != [] {
      var n := |batch| - 1;
      assert forall i :: 0 <= i < n ==> batch[..n][i] == batch[i];
      assert AllPresent(h, rows, batch[..n]);
      NothingAdded(h, rows, batch[..n]);
      assert Present(h, rows, batch[n]);
      assert rows + [] == rows;
      assert HoldsKey(h.keyIdx.value, rows, h.keep(batch[n]));
    }
  }

  lemma {:induction false} AllMissing(h: Shape, batch: seq<Row>)
    requires h.keyIdx.Some?
    ensures Missing(h, batch, {}) == batch
  {
    if batch != [] { AllMissing(h, batch[..|batch| - 1]); }
  }

  /** A compared row whose counterpart is there raises no objection. */
  lemma NoConflictWhenPresent(h: Shape, rows: seq<Row>, batch: seq<Row>, missing: seq<Row>, p: nat)
    requires GoodRows(h, batch) && UniqueKeys(h, rows) && p < |batch| && Present(h, rows, batch[p])
    requires batch[p] in missing && forall m :: 0 <= m < |missing| ==> missing[m] in batch
    ensures ConflictOf(h, Have(h, rows, missing), batch[p]) == None
  {
    var i :| 0 <= i < |rows| &&
      SqlKey(rows[i], h.keyIdx.value) == SqlKey(h.keep(batch[p]), h.keyIdx.value) && SameContent(batch[p], rows[i], h.rendering);
    SqlKeyDecidesKey(rows[i], h.keep(batch[p]), h.keyIdx.value, h.rendering);
    KeepsKey(h, batch[p]);
    assert Asked(h, rows[i], missing);
    HaveAll(h, rows, missing, i);
    ReadBackIsOwn(h, rows, batch, missing, p);
    var j :| 0 <= j < |rows| && rows[j] == Have(h, rows, missing)[Key(batch[p], h)]
             && SqlKey(rows[j], h.keyIdx.value) == SqlKey(h.keep(batch[p]), h.keyIdx.value);
    SameSqlKeySameRow(h, rows, i, j);
    NoDifference(batch[p], rows[i], 0, h.rendering);
  }

  lemma SameSqlKeySameRow(h: Shape, rows: seq<Row>, i: nat, j: nat)
    requires h.keyIdx.Some? && UniqueKeys(h, rows) && i < |rows| && j < |rows|
    requires SqlKey(rows[i], h.keyIdx.value) == SqlKey(rows[j], h.keyIdx.value)
    ensures i == j
  {
    if i < j {} else if j < i {}
  }

  lemma {:induction false} NoConflicts(h: Shape, have: map<string, Row>, missing: seq<Row>)
    requires h.keyIdx.Some?
    requires forall m :: 0 <= m < |missing| ==> ConflictOf(h, have, missing[m]) == None
    ensures Conflicts(h, have, missing) == []
  {
    if missing != [] { NoConflicts(h, have, missing[..|missing| - 1]); }
  }

  /** A batch that is there already adds nothing and raises no conflict. */
  lemma SecondTime(h: Shape, rows: seq<Row>, batch: seq<Row>)
    requires GoodRows(h, batch) && EnforcesKey(h) && UniqueKeys(h, rows) && AllPresent(h, rows, batch)
    ensures Added(h, rows, batch) == [] && Missing(h, batch, KeysOf(h, [])) == batch
    ensures Conflicts(h, Have(h, rows, batch), batch) == []
  {
    NothingAdded(h, rows, batch);
    AllMissing(h, batch);
    forall p | 0 <= p < |batch| ensures ConflictOf(h, Have(h, rows, batch), batch[p]) == None {
      assert Present(h, rows, batch[p]);
      NoConflictWhenPresent(h, rows, batch, batch, p);
    }
    NoConflicts(h, Have(h, rows, batch), batch);
  }

  /** The primary key stays one: the target accepts no second row under a key. */
  lemma {:induction false} UniqueStays(h: Shape, rows: seq<Row>, batch: seq<Row>)
    requires h.keyIdx.Some? && EnforcesKey(h) && UniqueKeys(h, rows)
    ensures UniqueKeys(h, rows + Added(h, rows, batch))
  {
    if batch == [] {
      assert rows + [] == rows;
    } else {
      var n := |batch| - 1;
      UniqueStays(h, rows, batch[..n]);
      var before, kept := rows + Added(h, rows, batch[..n]), h.keep(batch[n]);
      if !h.refuses(before, kept) {
        var after := rows + Added(h, rows, batch);
        assert after == before + [kept];
        assert !HoldsKey(h.keyIdx.value, before, kept);
        forall i | 0 <= i < |before| ensures SqlKey(before[i], h.keyIdx.value) != SqlKey(kept, h.keyIdx.value) {}
      }
    }
  }

  // ---- Exactly when a batch goes through ----

  /** The target refuses a row for its primary key and for nothing else. */
  ghost predicate OnlyKeyRefuses(h: Shape) {
    h.keyIdx.Some? && forall rows: seq<Row>, row: Row :: h.refuses(rows, row) <==> HoldsKey(h.keyIdx.value, rows, row)
  }

  /** The target has a row under the same key with another content. */
  ghost predicate Clash(h: Shape, rows: seq<Row>, row: Row)
    requires h.keyIdx.Some?
  {
    exists i :: 0 <= i < |rows| &&
      SqlKey(rows[i], h.keyIdx.value) == SqlKey(h.keep(row), h.keyIdx.value) && !SameContent(row, rows[i], h.rendering)
  }

  ghost predicate NoClash(h: Shape, rows: seq<Row>, source: seq<Row>)
    requires h.keyIdx.Some?
  {
    forall p :: 0 <= p < |source| ==> !Clash(h, rows, source[p])
  }

  /** What the source and the target must be like for the copy to be judged by their content alone. */
  ghost predicate Regular(h: Shape, rows: seq<Row>, source: seq<Row>) {
    OnlyKeyRefuses(h) && GoodRows(h, source) && UniqueKeys(h, rows)
  }

  lemma RegularEnforces(h: Shape)
    requires OnlyKeyRefuses(h)
    ensures EnforcesKey(h)
  {
  }

  /** Rows of the source do not stand in each other's way. */
  lemma KeptKeysDiffer(h: Shape, source: seq<Row>, p: nat, q: nat)
    requires GoodRows(h, source) && p < |source| && q < |source|
    requires SqlKey(h.keep(source[p]), h.keyIdx.value) == SqlKey(h.keep(source[q]), h.keyIdx.value)
    ensures p == q
  {
    SqlKeyDecidesKey(h.keep(source[p]), h.keep(source[q]), h.keyIdx.value, h.rendering);
    KeepsKey(h, source[p]);
    KeepsKey(h, source[q]);
    SameKeySameRow(h, source, p, q);
  }

  /** A refused row without a clash was there before. */
  lemma {:induction false} RefusedWasThere(h: Shape, rows: seq<Row>, batch: seq<Row>, n: nat)
    requires Regular(h, rows, batch) && n < |batch| && !Clash(h, rows, batch[n])
    requires h.refuses(rows + Added(h, rows, batch[..n]), h.keep(batch[n]))
    ensures Present(h, rows, batch[n])
  {
    var before := Added(h, rows, batch[..n]);
    var i :| 0 <= i < |rows + before| && SqlKey((rows + before)[i], h.keyIdx.value) == SqlKey(h.keep(batch[n]), h.keyIdx.value);
    if i >= |rows| { AddedKeysDiffer(h, rows, batch, n, i - |rows|); }
  }

  /** No added row has the key of a later row of the batch. */
  lemma {:induction false} AddedKeysDiffer(h: Shape, rows: seq<Row>, batch: seq<Row>, n: nat, k: nat)
    requires GoodRows(h, batch) && n < |batch| && k < |Added(h, rows, batch[..n])|
    ensures SqlKey(Added(h, rows, batch[..n])[k], h.keyIdx.value) != SqlKey(h.keep(batch[n]), h.keyIdx.value)
  {
    AddedComesFrom(h, rows, batch[..n], k);
    var q :| 0 <= q < n && Added(h, rows, batch[..n])[k] == h.keep(batch[..n][q]);
    if SqlKey(h.keep(batch[q]), h.keyIdx.value) == SqlKey(h.keep(batch[n]), h.keyIdx.value) { KeptKeysDiffer(h, batch, q, n); }
  }

  lemma {:induction false} WithoutClashAllPresent(h: Shape, rows: seq<Row>, batch: seq<Row>, p: nat)
    requires Regular(h, rows, batch) && NoClash(h, rows, batch) && p < |batch|
    ensures Present(h, rows + Added(h, rows, batch), batch[p])
  {
    var n := |batch| - 1;
    var before, after := Added(h, rows, batch[..n]), Added(h, rows, batch);
    GoodPrefix(h, batch, n);
    if p < n {
      assert NoClash(h, rows, batch[..n]) by { assert forall q :: 0 <= q < n ==> batch[..n][q] == batch[q]; }
      WithoutClashAllPresent(h, rows, batch[..n], p);
      assert rows + after == (rows + before) + after[|before|..];
      PresentStays(h, rows + before, after[|before|..], batch[p]);
    } else if h.refuses(rows + before, h.keep(batch[n])) {
      RefusedWasThere(h, rows, batch, n);
      PresentStays(h, rows, after, batch[n]);
    } else {
      assert (rows + after)[|rows| + |before|] == h.keep(batch[n]);
      assert Faithful(h, batch[n]);
    }
  }

  lemma WithoutClashNoObjection(h: Shape, rows: seq<Row>, batch: seq<Row>)
    requires Regular(h, rows, batch) && NoClash(h, rows, batch)
    ensures Objections(h, rows, batch) == []
  {
    var after := rows + Added(h, rows, batch);
    var keys := KeysOf(h, Added(h, rows, batch));
    var missing := Missing(h, batch, keys);
    RegularEnforces(h);
    UniqueStays(h, rows, batch);
    forall q | 0 <= q < |missing| ensures missing[q] in batch { MissingComesFrom(h, batch, keys, q); }
    forall m | 0 <= m < |missing| ensures ConflictOf(h, Have(h, after, missing), missing[m]) == None {
      var p :| 0 <= p < |batch| && batch[p] == missing[m];
      WithoutClashAllPresent(h, rows, batch, p);
      NoConflictWhenPresent(h, after, batch, missing, p);
    }
    NoConflicts(h, Have(h, after, missing), missing);
  }

  /** A row that clashes is never in the target afterwards: the other one keeps its place. */
  lemma ClashStays(h: Shape, rows: seq<Row>, after: seq<Row>, row: Row)
    requires h.keyIdx.Some? && rows <= after && UniqueKeys(h, after) && Clash(h, rows, row)
    ensures !Present(h, after, row)
  {
    var i :| 0 <= i < |rows| &&
      SqlKey(rows[i], h.keyIdx.value) == SqlKey(h.keep(row), h.keyIdx.value) && !SameContent(row, rows[i], h.rendering);
    assert after[i] == rows[i];
    forall j | 0 <= j < |after| && SqlKey(after[j], h.keyIdx.value) == SqlKey(h.keep(row), h.keyIdx.value)
      ensures !SameContent(row, after[j], h.rendering)
    {
      SameSqlKeySameRow(h, after, i, j);
    }
  }

  /** A batch raises a conflict exactly when one of its rows meets another content under its key. */
  lemma ObjectionIff(h: Shape, rows: seq<Row>, batch: seq<Row>)
    requires Regular(h, rows, batch)
    ensures Objections(h, rows, batch) == [] <==> NoClash(h, rows, batch)
  {
    if NoClash(h, rows, batch) {
      WithoutClashNoObjection(h, rows, batch);
    } else {
      var p :| 0 <= p < |batch| && Clash(h, rows, batch[p]);
      RegularEnforces(h);
      UniqueStays(h, rows, batch);
      ClashStays(h, rows, rows + Added(h, rows, batch), batch[p]);
      if Objections(h, rows, batch) == [] { BatchIsPresent(h, rows, batch, p); }
    }
  }

  /** What was added since `before` is what the target keeps of the first `done` rows. */
  ghost predicate FromSource(h: Shape, before: seq<Row>, now: seq<Row>, all: seq<Row>, done: nat)
    requires done <= |all|
  {
    before <= now && forall s :: |before| <= s < |now| ==> KeptOf(h, now[s], all, done)
  }

  ghost predicate KeptOf(h: Shape, row: Row, all: seq<Row>, done: nat)
    requires done <= |all|
  {
    exists q :: 0 <= q < done && row == h.keep(all[q])
  }

  lemma FromSourceGrows(h: Shape, before: seq<Row>, now: seq<Row>, all: seq<Row>, done: nat, to: nat)
    requires done <= to <= |all| && FromSource(h, before, now, all, done)
    ensures FromSource(h, before, now + Added(h, now, all[done..to]), all, to)
  {
    var batch := all[done..to];
    var after := now + Added(h, now, batch);
    forall s | |before| <= s < |after| ensures KeptOf(h, after[s], all, to) {
      if s < |now| {
        assert KeptOf(h, now[s], all, done);
      } else {
        AddedComesFrom(h, now, batch, s - |now|);
        var p :| 0 <= p < |batch| && Added(h, now, batch)[s - |now|] == h.keep(batch[p]);
        assert batch[p] == all[done + p];
      }
    }
  }

  lemma OneStillNoClash(h: Shape, before: seq<Row>, now: seq<Row>, all: seq<Row>, done: nat, p: nat)
    requires done <= p < |all| && FromSource(h, before, now, all, done) && GoodRows(h, all) && !Clash(h, before, all[p])
    ensures !Clash(h, now, all[p])
  {
    forall i | 0 <= i < |now| && SqlKey(now[i], h.keyIdx.value) == SqlKey(h.keep(all[p]), h.keyIdx.value)
      ensures SameContent(all[p], now[i], h.rendering)
    {
      if i < |before| {
        assert now[i] == before[i];
      } else {
        assert KeptOf(h, now[i], all, done);
        var q :| 0 <= q < done && now[i] == h.keep(all[q]);
        KeptKeysDiffer(h, all, q, p);
      }
    }
  }

  /** What this run added is in nobody's way: later rows clash with nothing new. */
  lemma StillNoClash(h: Shape, before: seq<Row>, now: seq<Row>, all: seq<Row>, done: nat, to: nat)
    requires done <= to <= |all| && FromSource(h, before, now, all, done)
    requires GoodRows(h, all) && NoClash(h, before, all)
    ensures NoClash(h, now, all[done..to])
  {
    forall p | 0 <= p < to - done ensures !Clash(h, now, all[done..to][p]) {
      assert all[done..to][p] == all[done + p] && !Clash(h, before, all[done + p]);
      OneStillNoClash(h, before, now, all, done, done + p);
    }
  }

  /** The pair the comparison is for: one number, two texts. */
  lemma TextClash(h: Shape, a: string, b: string)
    requires h.keyIdx == Some([0]) && h.keep([Int(1), Text(a)]) == [Int(1), Text(a)]
    ensures Clash(h, [[Int(1), Text(b)]], [Int(1), Text(a)]) <==> h.rendering.fold(a) != h.rendering.fold(b)
  {
    var target, row := [Int(1), Text(b)], [Int(1), Text(a)];
    assert SqlKey(target, [0]) == SqlKey(target, []) + [Int(1)] && SqlKey(row, [0]) == SqlKey(row, []) + [Int(1)];
    assert [target][0] == target;
    if h.rendering.fold(a) == h.rendering.fold(b) {
      assert SameContent(row, target, h.rendering);
    } else {
      assert Canon(row[1], h.rendering) != Canon(target[1], h.rendering);
    }
  }
}
