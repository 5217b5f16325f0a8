/** What copying a table means, on values: rows that a constraint refuses are left as they are and compared. */
module MigrateSpec {
  import opened Base
  import opened MigrateValues

  /**
   One table pair: where the primary key is among the copied columns (None when it is not usable), how values
   are rendered, what the target keeps of a row it accepts, and whether some constraint of the target refuses
   a row.
   */
  datatype Shape = Shape(
    keyIdx: Option<seq<nat>>, rendering: Rendering, keep: Row -> Row, refuses: (seq<Row>, Row) -> bool)

  /** What the database compares a primary key by: the stored values themselves. */
  function SqlKey(row: Row, keyIdx: seq<nat>): seq<Value> {
    if keyIdx == [] then [] else SqlKey(row, keyIdx[..|keyIdx| - 1]) + [Column(row, keyIdx[|keyIdx| - 1])]
  }

  predicate SameContent(a: Row, b: Row, r: Rendering) {
    |a| == |b| && forall i :: 0 <= i < |a| ==> Canon(a[i], r) == Canon(b[i], r)
  }

  /** The target keeps every column's canonical text. */
  predicate Faithful(h: Shape, row: Row) { SameContent(row, h.keep(row), h.rendering) }

  // ---- INSERT ... ON CONFLICT DO NOTHING ----

  /** The rows one statement adds to `rows`, in order. */
  function Added(h: Shape, rows: seq<Row>, batch: seq<Row>): seq<Row> {
    if batch == [] then []
    else
      var before := Added(h, rows, batch[..|batch| - 1]);
      var kept := h.keep(batch[|batch| - 1]);
      if h.refuses(rows + before, kept) then before else before + [kept]
  }

  function Key(row: Row, h: Shape): string
    requires h.keyIdx.Some?
  {
    Encode(KeyTexts(row, h.keyIdx.value, h.rendering))
  }

  lemma {:induction false} KeyTextsAt(row: Row, keyIdx: seq<nat>, r: Rendering, i: nat)
    requires i < |keyIdx|
    ensures |KeyTexts(row, keyIdx, r)| == |keyIdx| && KeyTexts(row, keyIdx, r)[i] == Canon(Column(row, keyIdx[i]), r)
  {
    var n := |keyIdx| - 1;
    KeyTextsLength(row, keyIdx[..n], r);
    if i < n { KeyTextsAt(row, keyIdx[..n], r, i); }
  }

  lemma {:induction false} KeyTextsLength(row: Row, keyIdx: seq<nat>, r: Rendering)
    ensures |KeyTexts(row, keyIdx, r)| == |keyIdx|
  {
    if keyIdx != [] { KeyTextsLength(row, keyIdx[..|keyIdx| - 1], r); }
  }

  /** Two rows have the same key exactly when their key columns have the same canonical texts, one by one. */
  lemma SameKeyIff(a: Row, b: Row, h: Shape)
    requires h.keyIdx.Some?
    ensures Key(a, h) == Key(b, h) <==>
      forall i :: 0 <= i < |h.keyIdx.value| ==>
        Canon(Column(a, h.keyIdx.value[i]), h.rendering) == Canon(Column(b, h.keyIdx.value[i]), h.rendering)
  {
    var idx, r := h.keyIdx.value, h.rendering;
    var x, y := KeyTexts(a, idx, r), KeyTexts(b, idx, r);
    KeyTextsLength(a, idx, r);
    KeyTextsLength(b, idx, r);
    forall i | 0 <= i < |idx| ensures x[i] == Canon(Column(a, idx[i]), r) && y[i] == Canon(Column(b, idx[i]), r) {
      KeyTextsAt(a, idx, r, i);
      KeyTextsAt(b, idx, r, i);
    }
    if Key(a, h) == Key(b, h) { EncodeInjective(x, y); }
    if forall i :: 0 <= i < |idx| ==> Canon(Column(a, idx[i]), r) == Canon(Column(b, idx[i]), r) { assert x == y; }
  }

  lemma {:induction false} SameKeyTexts(a: Row, b: Row, keyIdx: seq<nat>, r: Rendering)
    requires SameContent(a, b, r)
    ensures KeyTexts(a, keyIdx, r) == KeyTexts(b, keyIdx, r)
  {
    if keyIdx != [] { SameKeyTexts(a, b, keyIdx[..|keyIdx| - 1], r); }
  }

  lemma {:induction false} SqlKeyDecidesKey(a: Row, b: Row, keyIdx: seq<nat>, r: Rendering)
    requires SqlKey(a, keyIdx) == SqlKey(b, keyIdx)
    ensures KeyTexts(a, keyIdx, r) == KeyTexts(b, keyIdx, r)
  {
    if keyIdx != [] {
      var init := keyIdx[..|keyIdx| - 1];
      var x, y := SqlKey(a, keyIdx), SqlKey(b, keyIdx);
      assert x[..|x| - 1] == SqlKey(a, init) && y[..|y| - 1] == SqlKey(b, init);
      assert x[|x| - 1] == y[|y| - 1];
      SqlKeyDecidesKey(a, b, init, r);
    }
  }

  /** A row of the source has its counterpart in the target: same key for the database, same canonical content. */
  ghost predicate Present(h: Shape, rows: seq<Row>, row: Row)
    requires h.keyIdx.Some?
  {
    exists i :: 0 <= i < |rows| &&
      SqlKey(rows[i], h.keyIdx.value) == SqlKey(h.keep(row), h.keyIdx.value) && SameContent(row, rows[i], h.rendering)
  }

  ghost predicate AllPresent(h: Shape, rows: seq<Row>, source: seq<Row>)
    requires h.keyIdx.Some?
  {
    forall i :: 0 <= i < |source| ==> Present(h, rows, source[i])
  }

  /** No two source rows have the same canonical key. */
  ghost predicate DistinctKeys(h: Shape, source: seq<Row>)
    requires h.keyIdx.Some?
  {
    forall i, j :: 0 <= i < j < |source| ==> Key(source[i], h) != Key(source[j], h)
  }

  ghost predicate HoldsKey(keyIdx: seq<nat>, rows: seq<Row>, row: Row) {
    exists i :: 0 <= i < |rows| && SqlKey(rows[i], keyIdx) == SqlKey(row, keyIdx)
  }

  /** The database enforces its primary key. */
  ghost predicate EnforcesKey(h: Shape) {
    h.keyIdx.Some? ==> forall rows: seq<Row>, row: Row :: HoldsKey(h.keyIdx.value, rows, row) ==> h.refuses(rows, row)
  }

  ghost predicate UniqueKeys(h: Shape, rows: seq<Row>)
    requires h.keyIdx.Some?
  {
    forall i, j :: 0 <= i < j < |rows| ==> SqlKey(rows[i], h.keyIdx.value) != SqlKey(rows[j], h.keyIdx.value)
  }

  // ---- Which rows the target had already ----

  /** The keys that came back from an insert. */
  function KeysOf(h: Shape, rows: seq<Row>): set<string>
    requires h.keyIdx.Some?
  {
    if rows == [] then {} else KeysOf(h, rows[..|rows| - 1]) + {Key(rows[|rows| - 1], h)}
  }

  /** The rows of a batch whose key did not come back. */
  function Missing(h: Shape, batch: seq<Row>, keys: set<string>): (r: seq<Row>)
    requires h.keyIdx.Some?
    ensures |r| <= |batch|
  {
    if batch == [] then []
    else
      var n := |batch| - 1;
      var before := Missing(h, batch[..n], keys);
      if Key(batch[n], h) in keys then before else before + [batch[n]]
  }

  predicate Asked(h: Shape, row: Row, missing: seq<Row>)
    requires h.keyIdx.Some?
  {
    exists j :: 0 <= j < |missing| && SqlKey(row, h.keyIdx.value) == SqlKey(h.keep(missing[j]), h.keyIdx.value)
  }

  /** The target rows under the keys of `missing`, by canonical key. */
  function Have(h: Shape, rows: seq<Row>, missing: seq<Row>): map<string, Row>
    requires h.keyIdx.Some?
  {
    if rows == [] then map[]
    else
      var n := |rows| - 1;
      var before := Have(h, rows[..n], missing);
      if Asked(h, rows[n], missing) then before[Key(rows[n], h) := rows[n]] else before
  }

  datatype Conflict = Conflict(row: Row, column: Option<nat>)

  /** The first column from `i` on whose canonical texts differ. */
  function FirstDifference(a: Row, b: Row, i: nat, r: Rendering): Option<nat>
    requires i <= |a| && i <= |b|
    decreases |a| - i
  {
    if i == |a| == |b| then None
    else if i == |a| || i == |b| || Canon(a[i], r) != Canon(b[i], r) then Some(i)
    else FirstDifference(a, b, i + 1, r)
  }

  lemma {:induction false} NoDifference(a: Row, b: Row, i: nat, r: Rendering)
    requires i <= |a| && i <= |b|
    ensures FirstDifference(a, b, i, r).None? <==> |a| == |b| && forall k :: i <= k < |a| ==> Canon(a[k], r) == Canon(b[k], r)
    decreases |a| - i
  {
    if i < |a| && i < |b| { NoDifference(a, b, i + 1, r); }
  }

  /** None when the target holds the row; otherwise what is wrong with it. */
  function ConflictOf(h: Shape, have: map<string, Row>, row: Row): Option<Conflict>
    requires h.keyIdx.Some?
  {
    if Key(row, h) !in have then Some(Conflict(row, None))
    else
      var difference := FirstDifference(row, have[Key(row, h)], 0, h.rendering);
      if difference.Some? then Some(Conflict(row, difference)) else None
  }

  function Conflicts(h: Shape, have: map<string, Row>, missing: seq<Row>): seq<Conflict>
    requires h.keyIdx.Some?
  {
    if missing == [] then []
    else
      var n := |missing| - 1;
      var before := Conflicts(h, have, missing[..n]);
      var bad := ConflictOf(h, have, missing[n]);
      if bad.Some? then before + [bad.value] else before
  }
}
