/** Column values, the canonical text two databases are compared by, and the text that stands for a row's key. */
module MigrateValues {
  import opened Base
  import opened Decimals

  /** A value as a driver hands it over. Instants and floats are only ever rendered, so they stay abstract. */
  datatype Value =
    | Null | Bytes(bytes: string) | Text(text: string) | Instant(at: int) | Bool(b: bool) | Int(n: int) | Float(bits: int)

  type Row = seq<Value>

  /** How instants, floats and texts are rendered; `fold` brings two spellings of a timestamp or a document together. */
  datatype Rendering = Rendering(instant: int -> string, float: int -> string, fold: string -> string)

  // ---- Canonical texts ----

  function FormatInt(n: int): string { if n < 0 then "-" + Decimal(-n) else Decimal(n) }

  const NULL_TEXT: string := ['\0', 'N', 'U', 'L', 'L']

  function Canon(v: Value, r: Rendering): string {
    match v
    case Null => NULL_TEXT
    case Bytes(s) => r.fold(s)
    case Text(s) => r.fold(s)
    case Instant(t) => r.instant(t)
    case Bool(b) => if b then "1" else "0"
    case Int(n) => FormatInt(n)
    case Float(x) => r.float(x)
  }

  /** Two values of the same family, or two that are rendered without help. */
  predicate Comparable(v: Value, w: Value) {
    || ((v.Text? || v.Bytes?) && (w.Text? || w.Bytes?)) || (v.Instant? && w.Instant?) || (v.Float? && w.Float?)
    || ((v.Null? || v.Bool? || v.Int?) && (w.Null? || w.Bool? || w.Int?))
  }

  function Number(v: Value): int
    requires v.Bool? || v.Int?
  {
    if v.Int? then v.n else if v.b then 1 else 0
  }

  function Characters(v: Value): string
    requires v.Text? || v.Bytes?
  {
    if v.Text? then v.text else v.bytes
  }

  lemma {:induction false} FormatBegins(n: int)
    ensures if n < 0 then FormatInt(n)[0] == '-' && FormatInt(n)[1..] == Decimal(-n)
            else FormatInt(n) == Decimal(n) && '-' !in FormatInt(n)
    ensures FormatInt(n)[0] != '\0'
  {
    if n < 0 { NumeralOfDecimal(-n); } else { NumeralOfDecimal(n); }
  }

  lemma {:induction false} FormatIsExact(m: int, n: int)
    ensures FormatInt(m) == FormatInt(n) <==> m == n
  {
    FormatBegins(m);
    FormatBegins(n);
    if FormatInt(m) == FormatInt(n) {
      if m < 0 { DecimalInjective(-m, -n); } else { DecimalInjective(m, n); }
    }
  }

  /**
   What the comparison tells apart: texts, whichever type a driver gives them, when folding them leaves a difference;
   instants and floats when they are rendered differently; numbers, with false as 0 and true as 1, always; and null
   from every number.
   */
  lemma SameCanonIff(v: Value, w: Value, r: Rendering)
    requires Comparable(v, w)
    ensures Canon(v, r) == Canon(w, r) <==>
      match v
      case Text(_) => r.fold(Characters(v)) == r.fold(Characters(w))
      case Bytes(_) => r.fold(Characters(v)) == r.fold(Characters(w))
      case Instant(t) => r.instant(t) == r.instant(w.at)
      case Float(x) => r.float(x) == r.float(w.bits)
      case Null => w.Null?
      case Bool(_) => !w.Null? && Number(v) == Number(w)
      case Int(_) => !w.Null? && Number(v) == Number(w)
  {
    if !v.Text? && !v.Bytes? && !v.Instant? && !v.Float? {
      NumberCanon(v, r);
      NumberCanon(w, r);
      if !v.Null? && !w.Null? { FormatIsExact(Number(v), Number(w)); }
    }
  }

  lemma NumberCanon(v: Value, r: Rendering)
    requires v.Null? || v.Bool? || v.Int?
    ensures if v.Null? then Canon(v, r)[0] == '\0' else Canon(v, r) == FormatInt(Number(v)) && Canon(v, r)[0] != '\0'
  {
    if !v.Null? { FormatBegins(Number(v)); }
    if v.Bool? { assert Decimal(1) == "1" && Decimal(0) == "0"; }
  }

  /** The one adaptation to the target's column type: integers become booleans. */
  function Coerce(v: Value, boolean: bool): Value {
    if boolean && v.Int? then Bool(v.n != 0) else v
  }

  /** The adaptation keeps the canonical text of every value but an integer other than 0 and 1 in a boolean column. */
  lemma CoerceKeepsCanon(v: Value, boolean: bool, r: Rendering)
    ensures Canon(Coerce(v, boolean), r) == Canon(v, r) <==> !(boolean && v.Int? && v.n != 0 && v.n != 1)
  {
    if boolean && v.Int? {
      if v.n < 0 {
        assert FormatInt(v.n)[0] == '-';
      } else {
        assert Decimal(1) == "1" && Decimal(0) == "0";
        NumeralOfDecimal(v.n);
      }
    }
  }

  // ---- Keys ----

  function Part(v: string): string { Decimal(|v|) + ":" + v }

  /** Each part preceded by its length. */
  function Encode(parts: seq<string>): string {
    if parts == [] then "" else Part(parts[0]) + Encode(parts[1..])
  }

  lemma {:induction false} EncodeAppend(parts: seq<string>, v: string)
    ensures Encode(parts + [v]) == Encode(parts) + Part(v)
  {
    if parts == [] {
      assert [v][1..] == [];
    } else {
      assert (parts + [v])[1..] == parts[1..] + [v];
      EncodeAppend(parts[1..], v);
    }
  }

  function ColonAt(s: string): nat {
    if s == "" || s[0] == ':' then 0 else 1 + ColonAt(s[1..])
  }

  lemma {:induction false} FirstColon(a: string, p: string)
    requires ':' !in a
    ensures ColonAt(a + ":" + p) == |a|
  {
    if a != "" {
      assert (a + ":" + p)[1..] == a[1..] + ":" + p;
      FirstColon(a[1..], p);
    }
  }

  lemma SplitAtColon(a: string, p: string, b: string, q: string)
    requires ':' !in a && ':' !in b && a + ":" + p == b + ":" + q
    ensures a == b && p == q
  {
    FirstColon(a, p);
    FirstColon(b, q);
    var s := a + ":" + p;
    assert a == s[..|a|] && b == s[..|b|];
    assert p == s[|a| + 1..] && q == s[|b| + 1..];
  }

  lemma PartIsPrefixFree(v: string, x: string, w: string, y: string)
    requires Part(v) + x == Part(w) + y
    ensures v == w && x == y
  {
    NumeralOfDecimal(|v|);
    NumeralOfDecimal(|w|);
    assert Part(v) + x == Decimal(|v|) + ":" + (v + x);
    assert Part(w) + y == Decimal(|w|) + ":" + (w + y);
    SplitAtColon(Decimal(|v|), v + x, Decimal(|w|), w + y);
    DecimalInjective(|v|, |w|);
    assert v == (v + x)[..|v|] && w == (w + y)[..|w|];
    assert x == (v + x)[|v|..] && y == (w + y)[|w|..];
  }

  lemma OnlyNothingIsEmpty(parts: seq<string>)
    ensures Encode(parts) == "" <==> parts == []
  {
  }

  /** No list of texts can produce another list's encoding. */
  lemma {:induction false} EncodeInjective(a: seq<string>, b: seq<string>)
    requires Encode(a) == Encode(b)
    ensures a == b
  {
    OnlyNothingIsEmpty(a);
    OnlyNothingIsEmpty(b);
    if a != [] {
      PartIsPrefixFree(a[0], Encode(a[1..]), b[0], Encode(b[1..]));
      EncodeInjective(a[1..], b[1..]);
      assert a == [a[0]] + a[1..] && b == [b[0]] + b[1..];
    }
  }

  /** Every row is as wide as the list of copied columns; beyond that there is nothing. */
  function Column(row: Row, k: nat): Value { if k < |row| then row[k] else Null }

  /** The canonical texts of a row's key columns. */
  function KeyTexts(row: Row, keyIdx: seq<nat>, r: Rendering): seq<string> {
    if keyIdx == [] then [] else KeyTexts(row, keyIdx[..|keyIdx| - 1], r) + [Canon(Column(row, keyIdx[|keyIdx| - 1]), r)]
  }

  method KeyOf(row: Row, keyIdx: seq<nat>, r: Rendering) returns (s: string)
    ensures s == Encode(KeyTexts(row, keyIdx, r))
  {
    s := "";
    for i := 0 to |keyIdx|
      invariant s == Encode(KeyTexts(row, keyIdx[..i], r))
    {
      var v := Canon(Column(row, keyIdx[i]), r);
      assert keyIdx[..i + 1][..i] == keyIdx[..i];
      EncodeAppend(KeyTexts(row, keyIdx[..i], r), v);
      s := s + Decimal(|v|) + ":" + v;
      assert s == Encode(KeyTexts(row, keyIdx[..i], r)) + Part(v);
    }
    assert keyIdx[..|keyIdx|] == keyIdx;
  }
}
