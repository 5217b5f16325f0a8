/** The handles the model cites deliveries by: how the store numbers them, and how they are written. */
module Handles {
  import opened Base
  import opened StoredTimes
  import opened Decimals

  // ---- Labels ----

  const MAX_INT: nat := 0x7FFF_FFFF_FFFF_FFFF

  function Label(number: nat): string { "e" + Decimal(number) }

  predicate IsDigit(c: char) { '0' <= c <= '9' }

  /** The number a handle stands for; digits only, positive, and small enough for an integer. */
  function ParseLabel(handle: string): Option<nat> {
    if handle == "" || handle[0] != 'e' || handle == "e" then None
    else if exists i :: 0 < i < |handle| && !IsDigit(handle[i]) then None
    else if Numeral(handle[1..]) > MAX_INT || Numeral(handle[1..]) == 0 then None
    else Some(Numeral(handle[1..]))
  }

  method Parse(handle: string) returns (n: Option<nat>)
    ensures n == ParseLabel(handle)
  {
    if handle == "" || handle[0] != 'e' || |handle| == 1 { return None; }
    var value := 0;
    assert handle[1..1] == "";
    for i := 1 to |handle|
      invariant forall j :: 0 < j < i ==> IsDigit(handle[j])
      invariant value == Numeral(handle[1..i])
    {
      if !IsDigit(handle[i]) { return None; }
      assert handle[1..i + 1][..i - 1] == handle[1..i] && handle[1..i + 1][i - 1] == handle[i];
      value := 10 * value + DigitValue(handle[i]);
    }
    assert handle[1..|handle|] == handle[1..];
    n := if value == 0 || value > MAX_INT then None else Some(value);
  }

  lemma {:induction false} DecimalDigits(n: nat, i: nat)
    requires i < |Decimal(n)|
    ensures IsDigit(Decimal(n)[i]) && (n > 0 ==> Decimal(n)[0] != '0')
  {
    if n >= 10 {
      DecimalDigits(n / 10, if i < |Decimal(n / 10)| then i else 0);
    }
  }

  /** A handle that was issued always resolves to itself. */
  lemma ParseOfLabel(n: nat)
    requires 0 < n <= MAX_INT
    ensures ParseLabel(Label(n)) == Some(n)
  {
    NumeralOfDecimal(n);
    var handle := Label(n);
    assert handle[1..] == Decimal(n);
    forall i | 0 < i < |handle| ensures IsDigit(handle[i]) { DecimalDigits(n, i - 1); }
  }

  lemma {:induction false} NumeralOfZero(s: string)
    requires s != "" && (forall i :: 0 <= i < |s| ==> IsDigit(s[i])) && s[0] != '0'
    ensures Decimal(Numeral(s)) == s && Numeral(s) > 0
  {
    var n := |s| - 1;
    if n > 0 {
      NumeralOfZero(s[..n]);
      assert s == s[..n] + [s[n]];
      assert Numeral(s) / 10 == Numeral(s[..n]) && Numeral(s) % 10 == DigitValue(s[n]);
      assert Digit(DigitValue(s[n])) == s[n];
    } else {
      assert s[..0] == "";
      assert Digit(DigitValue(s[0])) == s[0];
      assert s == [s[0]];
    }
  }

  /** The other way round holds exactly for labels without a leading zero: a zero in front makes a second name. */
  lemma LabelOfParse(handle: string)
    requires ParseLabel(handle).Some?
    ensures Label(ParseLabel(handle).value) == handle <==> handle[1] != '0'
  {
    var n := ParseLabel(handle).value;
    assert handle == "e" + handle[1..];
    if handle[1] != '0' {
      forall i | 0 <= i < |handle[1..]| ensures IsDigit(handle[1..][i]) { assert handle[1..][i] == handle[i + 1]; }
      NumeralOfZero(handle[1..]);
    } else {
      DecimalDigits(n, 0);
      assert Label(n)[1] == Decimal(n)[0];
    }
  }

  lemma LeadingZeroIsASecondName()
    ensures ParseLabel("e01") == Some(1) && Label(1) == "e1" != "e01"
  {
    assert "e01"[1..] == "01" && "01"[..1] == "0" && "0"[..0] == "";
    assert Numeral("0") == 0;
    assert Numeral("01") == 1;
    assert forall i :: 0 < i < |"e01"| ==> IsDigit("e01"[i]);
  }

  // ---- Numbering ----

  /** A delivery's identity within a session: the invocation and the call. */
  datatype Call = Call(invocation: nat, id: int)

  /** `at` is the time of arrival in nanoseconds; the store keeps its text. */
  datatype Row = Row(number: nat, at: int, payload: string)

  /** One session's rows, and its counter. */
  datatype Scope = Scope(rows: map<Call, Row>, last: Option<nat>)

  predicate Taken(s: Scope, n: nat) { exists c :: c in s.rows && s.rows[c].number == n }

  function NextSeq(s: Scope): nat { if s.last.Some? then s.last.value + 1 else 1 }

  /** One transaction: the counter moves, then the row is written; a call seen before keeps its number. */
  function Delivered(s: Scope, call: Call, at: int, payload: string): (Scope, Option<nat>) {
    var next := NextSeq(s);
    if call in s.rows then
      var kept := s.rows[call].number;
      (Scope(s.rows[call := Row(kept, at, payload)], Some(next)), Some(kept))
    else if Taken(s, next) then (s, None)
    else (Scope(s.rows[call := Row(next, at, payload)], Some(next)), Some(next))
  }

  const EMPTY := Scope(map[], None)

  /** Whether row `d` is stored under a time no greater than row `c`, as texts, and for equal times by call id. */
  predicate NotAfter(rows: map<Call, Row>, d: Call, c: Call)
    requires d in rows && c in rows
  {
    StoredBefore(rows[d].at, rows[c].at) || (rows[d].at == rows[c].at && d.id <= c.id)
  }

  function Earlier(rows: map<Call, Row>, c: Call): set<Call>
    requires c in rows
  {
    set d | d in rows && NotAfter(rows, d, c)
  }

  /** Rows from before numbering existed get the rank of their stored time. */
  function Backfilled(rows: map<Call, Row>): map<Call, Row> {
    map c | c in rows :: if rows[c].number == 0 then rows[c].(number := |Earlier(rows, c)|) else rows[c]
  }

  ghost predicate UniqueSeqs(rows: map<Call, Row>) {
    forall c, d :: c in rows && d in rows && c != d ==> rows[c].number != rows[d].number
  }

  ghost predicate IsMaxSeq(rows: map<Call, Row>, m: nat) {
    (exists c :: c in rows && rows[c].number == m) && forall c :: c in rows ==> rows[c].number <= m
  }

  lemma {:induction false} HasMaxOn(rows: map<Call, Row>, some: set<Call>)
    requires some <= rows.Keys && some != {}
    ensures exists c :: c in some && forall d :: d in some ==> rows[d].number <= rows[c].number
  {
    var c :| c in some;
    var rest := some - {c};
    assert forall d :: d in some ==> d == c || d in rest;
    if rest != {} {
      HasMaxOn(rows, rest);
      var d :| d in rest && forall e :: e in rest ==> rows[e].number <= rows[d].number;
      assert rows[c].number <= rows[d].number || forall e :: e in some ==> rows[e].number <= rows[c].number;
    }
  }

  lemma HasMaxSeq(rows: map<Call, Row>)
    requires rows != map[]
    ensures exists m: nat :: IsMaxSeq(rows, m)
  {
    assert rows.Keys != {};
    HasMaxOn(rows, rows.Keys);
    var c :| c in rows.Keys && forall d :: d in rows.Keys ==> rows[d].number <= rows[c].number;
    assert IsMaxSeq(rows, rows[c].number);
  }

  /** The highest number in use. */
  ghost function MaxSeq(rows: map<Call, Row>): (m: nat)
    ensures rows != map[] ==> IsMaxSeq(rows, m)
  {
    if rows == map[] then 0
    else
      HasMaxSeq(rows);
      var m: nat :| IsMaxSeq(rows, m);
      m
  }

  /** Opening the store: number what has no number, make the numbers unique, seed the counter where there is none. */
  ghost function Migrate(s: Scope): (Scope, bool) {
    var rows := Backfilled(s.rows);
    if !UniqueSeqs(rows) then (s.(rows := rows), false)
    else (Scope(rows, if s.last.None? && rows != map[] then Some(MaxSeq(rows)) else s.last), true)
  }

  // ---- Runs ----

  ghost predicate Good(s: Scope) {
    && UniqueSeqs(s.rows)
    && (forall c :: c in s.rows ==> s.last.Some? && 0 < s.rows[c].number <= s.last.value)
  }

  /** While a session lives, a delivery never fails for want of a number, and a new one gets the highest yet. */
  lemma PutIsGood(s: Scope, call: Call, at: int, payload: string)
    requires Good(s)
    ensures Good(Delivered(s, call, at, payload).0) && Delivered(s, call, at, payload).1.Some?
    ensures call in s.rows ==> Delivered(s, call, at, payload).1 == Some(s.rows[call].number)
    ensures call !in s.rows ==>
      Delivered(s, call, at, payload).1.value == NextSeq(s) && forall c :: c in s.rows ==> s.rows[c].number < NextSeq(s)
  {
  }

  /** A delivery is stored as it came, under its number; nothing else of the session changes but the counter, by one. */
  lemma DeliveryIsStored(s: Scope, call: Call, at: int, payload: string)
    requires Good(s)
    ensures
      var (after, number) := Delivered(s, call, at, payload);
      && number.Some? && after.rows == s.rows[call := Row(number.value, at, payload)]
      && after.last == Some(if s.last == None then 1 else s.last.value + 1)
      && (call !in s.rows ==> number == after.last)
  {
  }

  lemma MigrateIsGood(s: Scope)
    requires Good(s)
    ensures Migrate(s) == (s, true)
  {
    assert Backfilled(s.rows) == s.rows;
  }

  datatype Op = Deliver(call: Call, at: int, payload: string) | Delete | Reopen

  ghost function Apply(s: Scope, op: Op): Scope {
    match op
    case Deliver(call, at, payload) => Delivered(s, call, at, payload).0
    case Delete => EMPTY
    case Reopen => Migrate(s).0
  }

  ghost predicate IsRun(ss: seq<Scope>, ops: seq<Op>) {
    && |ss| == |ops| + 1 && Good(ss[0])
    && forall i :: 0 <= i < |ops| ==> ss[i + 1] == Apply(ss[i], ops[i])
  }

  /** The handle the `i`th operation gave out. */
  function Issued(s: Scope, op: Op): Option<nat> {
    if op.Deliver? then Delivered(s, op.call, op.at, op.payload).1 else None
  }

  lemma {:induction false} GoodReachable(ss: seq<Scope>, ops: seq<Op>, i: nat)
    requires IsRun(ss, ops) && i < |ss|
    ensures Good(ss[i])
  {
    if i > 0 {
      GoodReachable(ss, ops, i - 1);
      var op := ops[i - 1];
      if op.Deliver? { PutIsGood(ss[i - 1], op.call, op.at, op.payload); }
      if op.Reopen? { MigrateIsGood(ss[i - 1]); }
    }
  }

  /** A row keeps its number as long as the session is not deleted, over reopenings and repeated deliveries. */
  lemma {:induction false} NumberStays(ss: seq<Scope>, ops: seq<Op>, i: nat, j: nat, call: Call)
    requires IsRun(ss, ops) && i <= j < |ss| && call in ss[i].rows
    requires forall k :: i <= k < j ==> !ops[k].Delete?
    ensures call in ss[j].rows && ss[j].rows[call].number == ss[i].rows[call].number
  {
    if i < j {
      NumberStays(ss, ops, i, j - 1, call);
      GoodReachable(ss, ops, j - 1);
      var op := ops[j - 1];
      if op.Deliver? { PutIsGood(ss[j - 1], op.call, op.at, op.payload); }
      if op.Reopen? { MigrateIsGood(ss[j - 1]); }
    }
  }

  /**
   Two deliveries of one session's life: the same call gets the same handle, another call another one, and a
   call that is new gets a handle greater than any given out before.
   */
  lemma HandlesIdentify(ss: seq<Scope>, ops: seq<Op>, i: nat, j: nat)
    requires IsRun(ss, ops) && i < j < |ops| && ops[i].Deliver? && ops[j].Deliver?
    requires forall k :: i < k < j ==> !ops[k].Delete?
    ensures Issued(ss[i], ops[i]).Some? && Issued(ss[j], ops[j]).Some?
    ensures Issued(ss[i], ops[i]) == Issued(ss[j], ops[j]) <==> ops[i].call == ops[j].call
    ensures ops[j].call !in ss[j].rows ==> Issued(ss[i], ops[i]).value < Issued(ss[j], ops[j]).value
  {
    GoodReachable(ss, ops, i);
    GoodReachable(ss, ops, j);
    PutIsGood(ss[i], ops[i].call, ops[i].at, ops[i].payload);
    PutIsGood(ss[j], ops[j].call, ops[j].at, ops[j].payload);
    assert ops[i].call in ss[i + 1].rows && ss[i + 1].rows[ops[i].call].number == Issued(ss[i], ops[i]).value;
    NumberStays(ss, ops, i + 1, j, ops[i].call);
  }

  // ---- Backfilling ----

  ghost predicate DistinctArrivals(rows: map<Call, Row>) {
    forall c, d :: c in rows && d in rows && c != d ==> rows[c].at != rows[d].at || c.id != d.id
  }

  lemma RankGrows(rows: map<Call, Row>, c: Call, d: Call)
    requires c in rows && d in rows && NotAfter(rows, c, d)
    ensures |Earlier(rows, c)| <= |Earlier(rows, d)|
    ensures |Earlier(rows, c)| == |Earlier(rows, d)| <==> NotAfter(rows, d, c)
  {
    forall x | x in Earlier(rows, c) ensures x in Earlier(rows, d) {
      StoredOrder(rows[x].at, rows[c].at, rows[d].at);
    }
    SubsetSize(Earlier(rows, c), Earlier(rows, d));
    assert d in Earlier(rows, d);
    StoredOrder(rows[c].at, rows[d].at, rows[c].at);
    if NotAfter(rows, d, c) {
      assert Earlier(rows, d) == Earlier(rows, c);
    } else {
      assert d !in Earlier(rows, c);
    }
  }

  ghost predicate Unnumbered(rows: map<Call, Row>) { forall c :: c in rows ==> rows[c].number == 0 }

  /** Numbering a session from before handles works exactly when no two of its rows arrived alike. */
  lemma BackfillIsUnique(rows: map<Call, Row>)
    requires Unnumbered(rows)
    ensures UniqueSeqs(Backfilled(rows)) <==> DistinctArrivals(rows)
  {
    var filled := Backfilled(rows);
    forall c, d | c in rows && d in rows && c != d
      ensures filled[c].number == filled[d].number <==> rows[c].at == rows[d].at && c.id == d.id
    {
      StoredOrder(rows[c].at, rows[d].at, rows[c].at);
      if NotAfter(rows, c, d) { RankGrows(rows, c, d); } else { RankGrows(rows, d, c); }
    }
    assert filled.Keys == rows.Keys;
    if UniqueSeqs(filled) {
      forall c, d | c in rows && d in rows && c != d ensures rows[c].at != rows[d].at || c.id != d.id {
        assert c in filled && d in filled;
      }
    }
  }

  /** The numbers from 1 to n. */
  function Span(n: nat): set<nat> { if n == 0 then {} else Span(n - 1) + {n} }

  lemma {:induction false} SpanSize(n: nat, k: nat)
    ensures |Span(n)| == n && (k in Span(n) <==> 1 <= k <= n)
  {
    if n > 0 {
      SpanSize(n - 1, k);
      SpanSize(n - 1, n);
    }
  }

  lemma {:induction false} DistinctNumbersCount(rows: map<Call, Row>, some: set<Call>)
    requires some <= rows.Keys && UniqueSeqs(rows)
    ensures |set c | c in some :: rows[c].number| == |some|
  {
    if some != {} {
      var c :| c in some;
      DistinctNumbersCount(rows, some - {c});
      var rest := set d | d in some - {c} :: rows[d].number;
      assert (set d | d in some :: rows[d].number) == rest + {rows[c].number};
    }
  }

  lemma RankInSpan(rows: map<Call, Row>, c: Call)
    requires Unnumbered(rows) && c in rows
    ensures 1 <= Backfilled(rows)[c].number <= |rows| && Backfilled(rows)[c].number in Span(|rows|)
  {
    assert c in Earlier(rows, c);
    SubsetSize({c}, Earlier(rows, c));
    SubsetSize(Earlier(rows, c), rows.Keys);
    SpanSize(|rows|, |Earlier(rows, c)|);
  }

  ghost function Numbers(rows: map<Call, Row>): set<nat> { set c | c in rows.Keys :: rows[c].number }

  /** And then the numbers are 1 to n. */
  lemma BackfillCounts(rows: map<Call, Row>, k: nat)
    requires Unnumbered(rows) && DistinctArrivals(rows) && 1 <= k <= |rows|
    ensures exists c :: c in rows && Backfilled(rows)[c].number == k
  {
    var filled := Backfilled(rows);
    BackfillIsUnique(rows);
    assert filled.Keys == rows.Keys;
    DistinctNumbersCount(filled, filled.Keys);
    forall n | n in Numbers(filled) ensures n in Span(|rows|) {
      var c :| c in filled.Keys && filled[c].number == n;
      RankInSpan(rows, c);
    }
    SpanSize(|rows|, k);
    SubsetSize(Numbers(filled), Span(|rows|));
    assert k in Numbers(filled);
  }

  /** A counter at the highest number is ahead of all of them. */
  lemma SeededIsGood(rows: map<Call, Row>)
    requires UniqueSeqs(rows) && forall c :: c in rows ==> rows[c].number >= 1
    ensures Good(Scope(rows, if rows != map[] then Some(MaxSeq(rows)) else None))
  {
    if rows != map[] { assert IsMaxSeq(rows, MaxSeq(rows)); }
  }

  /** So exactly then the store opens, with the counter ahead of every number it gave. */
  lemma BackfilledOpens(rows: map<Call, Row>)
    requires Unnumbered(rows)
    ensures Migrate(Scope(rows, None)).1 <==> DistinctArrivals(rows)
    ensures DistinctArrivals(rows) ==> Good(Migrate(Scope(rows, None)).0)
  {
    BackfillIsUnique(rows);
    if DistinctArrivals(rows) {
      forall c | c in rows ensures Backfilled(rows)[c].number >= 1 { RankInSpan(rows, c); }
      SeededIsGood(Backfilled(rows));
    }
  }

  /** Rows are numbered in the order of their stored times, and by call id within one time. */
  lemma BackfillKeepsOrder(rows: map<Call, Row>, c: Call, d: Call)
    requires Unnumbered(rows) && c in rows && d in rows && !NotAfter(rows, d, c)
    ensures Backfilled(rows)[c].number < Backfilled(rows)[d].number
  {
    StoredOrder(rows[c].at, rows[d].at, rows[c].at);
    RankGrows(rows, c, d);
  }

  /**
   That is the order of arrival for two rows exactly when the earlier time does not sink: within one second, the
   places of the earlier one must not go on in the later one.
   */
  lemma NumberedByArrivalIff(rows: map<Call, Row>, c: Call, d: Call)
    requires Unnumbered(rows) && c in rows && d in rows && rows[c].at < rows[d].at
    ensures Backfilled(rows)[c].number < Backfilled(rows)[d].number <==> !Sinks(rows[c].at, rows[d].at)
    ensures Backfilled(rows)[c].number > Backfilled(rows)[d].number <==> Sinks(rows[c].at, rows[d].at)
  {
    StoredInOrderIff(rows[c].at, rows[d].at);
    if Sinks(rows[c].at, rows[d].at) { BackfillKeepsOrder(rows, d, c); } else { BackfillKeepsOrder(rows, c, d); }
  }

  /** A row of the full second gets the greater number, although the other arrived a tenth of a second later. */
  lemma LaterRowCanGetSmallerNumber() returns (rows: map<Call, Row>, c: Call, d: Call)
    ensures Unnumbered(rows) && c in rows && d in rows && rows[c].at == 5_000_000_000 && rows[d].at == 5_100_000_000
    ensures Backfilled(rows)[c].number > Backfilled(rows)[d].number
  {
    c, d := Call(1, 1), Call(1, 2);
    rows := map[c := Row(0, 5_000_000_000, ""), d := Row(0, 5_100_000_000, "")];
    assert Nanos(5_000_000_000) == 0 && Nanos(5_100_000_000) == 100_000_000;
    NumberedByArrivalIff(rows, c, d);
  }

  // ---- The store ----

  type Session = string

  class Store {
    var rows: map<Session, map<Call, Row>>
    var last: map<Session, nat>

    function View(session: Session): Scope
      reads this
    {
      Scope(if session in rows then rows[session] else map[], if session in last then Some(last[session]) else None)
    }

    constructor ()
      ensures forall session :: View(session) == EMPTY
    {
      rows, last := map[], map[];
    }

    /** One transaction: the counter row is bumped or made, then the delivery is inserted or replaced; a clash undoes both. */
    method Put(session: Session, call: Call, at: int, payload: string) returns (number: Option<nat>)
      modifies this
      ensures View(session) == Delivered(old(View(session)), call, at, payload).0
      ensures number == Delivered(old(View(session)), call, at, payload).1
      ensures forall other :: other != session ==> View(other) == old(View(other))
    {
      var before := last;
      var next := if session in last then last[session] + 1 else 1;
      last := last[session := next];
      var table := if session in rows then rows[session] else map[];
      if call in table {
        var kept := table[call].number;
        rows := rows[session := table[call := Row(kept, at, payload)]];
        return Some(kept);
      }
      if exists c :: c in table && table[c].number == next {
        last := before;
        return None;
      }
      rows := rows[session := table[call := Row(next, at, payload)]];
      number := Some(next);
    }

    /** The rows and the counter go together. */
    method Delete(session: Session)
      modifies this
      ensures View(session) == EMPTY
      ensures forall other :: other != session ==> View(other) == old(View(other))
    {
      rows := rows - {session};
      last := last - {session};
    }
  }
}
