/**
 The request fingerprint. Hashing and printing are taken as injective, so the fingerprint of a body
 is its canonical form: object keys sorted by a comparison and listed as an object lists them, array
 order kept.
 */
module Fingerprint {
  import opened Sets

  datatype Field = Field(key: string, value: Json)
  datatype Json =
    | Null
    | Bool(b: bool)
    | Number(n: int)
    | Text(s: string)
    | Array(items: seq<Json>)
    | Object(fields: seq<Field>)

  /** localeCompare(a, b) <= 0 */
  type Comparison = (string, string) -> bool

  /** What any comparison function must be for a sort to make sense. Distinct strings may still tie. */
  ghost predicate TotalPreorder(leq: Comparison) {
    && (forall a, b :: leq(a, b) || leq(b, a))
    && (forall a, b, c :: leq(a, b) && leq(b, c) ==> leq(a, c))
  }

  /** Distinct keys that are not array indices never compare equal. */
  ghost predicate NamesNeverTie(leq: Comparison) {
    forall a, b :: !IsIndex(a) && !IsIndex(b) && leq(a, b) && leq(b, a) ==> a == b
  }

  // ---------- array indices ----------

  predicate IsDigit(c: char) {
    '0' <= c <= '9'
  }

  /** The number a string of digits writes. */
  function ValueOf(s: string): nat {
    if s == "" then 0
    else ValueOf(s[..|s| - 1]) * 10 + if IsDigit(s[|s| - 1]) then s[|s| - 1] as int - '0' as int else 0
  }

  predicate IsDecimal(s: string) {
    s != "" && (forall c | c in s :: IsDigit(c)) && (s[0] != '0' || |s| == 1)
  }

  /** The keys an object lists first, by number: canonical decimals below 2^32 - 1. */
  predicate IsIndex(key: string) {
    IsDecimal(key) && ValueOf(key) < 0xFFFF_FFFF
  }

  lemma {:induction false} DecimalSize(s: string)
    requires IsDecimal(s)
    ensures |s| >= 2 ==> ValueOf(s) >= 10
    ensures |s| == 1 ==> ValueOf(s) < 10
    ensures s[0] != '0' ==> ValueOf(s) >= 1
  {
    var n := |s| - 1;
    assert s[n] in s && s[0] in s;
    if n > 0 {
      assert IsDecimal(s[..n]) by {
        assert forall c | c in s[..n] :: c in s;
        assert s[..n][0] == s[0];
      }
      DecimalSize(s[..n]);
    } else {
      assert s[..n] == "";
    }
  }

  /** A number is written in one way. */
  lemma {:induction false} OneDecimal(a: string, b: string)
    requires IsDecimal(a) && IsDecimal(b) && ValueOf(a) == ValueOf(b)
    ensures a == b
  {
    var m, n := |a| - 1, |b| - 1;
    assert a[m] in a && b[n] in b;
    DecimalSize(a);
    DecimalSize(b);
    assert a == a[..m] + [a[m]] && b == b[..n] + [b[n]];
    LastDigit(ValueOf(a[..m]), ValueOf(b[..n]), a[m] as int - '0' as int, b[n] as int - '0' as int);
    if m == 0 {
      assert a[..m] == b[..n];
    } else {
      assert IsDecimal(a[..m]) && IsDecimal(b[..n]) by {
        assert forall c | c in a[..m] :: c in a;
        assert forall c | c in b[..n] :: c in b;
        assert a[..m][0] == a[0] && b[..n][0] == b[0];
      }
      OneDecimal(a[..m], b[..n]);
    }
  }

  lemma LastDigit(x: nat, y: nat, c: nat, d: nat)
    requires x * 10 + c == y * 10 + d && c < 10 && d < 10
    ensures x == y && c == d
  {
  }

  // ---------- sorting and listing ----------

  /** Array.prototype.sort is stable: a field goes before those that do not compare lower. */
  function InsertField(f: Field, fs: seq<Field>, leq: Comparison): seq<Field> {
    if fs == [] then [f]
    else if leq(f.key, fs[0].key) then [f] + fs
    else [fs[0]] + InsertField(f, fs[1..], leq)
  }

  function SortFields(fs: seq<Field>, leq: Comparison): seq<Field> {
    if fs == [] then [] else InsertField(fs[0], SortFields(fs[1..], leq), leq)
  }

  predicate ByNumber(a: string, b: string) {
    ValueOf(a) <= ValueOf(b)
  }

  function Indices(fs: seq<Field>): seq<Field> {
    if fs == [] then [] else (if IsIndex(fs[0].key) then [fs[0]] else []) + Indices(fs[1..])
  }

  function Names(fs: seq<Field>): seq<Field> {
    if fs == [] then [] else (if IsIndex(fs[0].key) then [] else [fs[0]]) + Names(fs[1..])
  }

  /** Object.fromEntries: an object lists its array indices first, by number, then the rest as they were added. */
  function FromEntries(fs: seq<Field>): seq<Field> {
    SortFields(Indices(fs), ByNumber) + Names(fs)
  }

  function Canonicalize(v: Json, leq: Comparison): Json
    decreases v, 1
  {
    match v
    case Array(items) => Array(CanonicalItems(items, leq))
    case Object(fields) => Object(FromEntries(SortFields(CanonicalFields(fields, leq), leq)))
    case _ => v
  }

  function CanonicalItems(items: seq<Json>, leq: Comparison): (r: seq<Json>)
    ensures |r| == |items|
    ensures forall i | 0 <= i < |items| :: r[i] == Canonicalize(items[i], leq)
    decreases items, 0
  {
    if items == [] then [] else [Canonicalize(items[0], leq)] + CanonicalItems(items[1..], leq)
  }

  function CanonicalFields(fs: seq<Field>, leq: Comparison): (r: seq<Field>)
    ensures |r| == |fs|
    ensures forall i | 0 <= i < |fs| :: r[i] == Field(fs[i].key, Canonicalize(fs[i].value, leq))
    decreases fs, 0
  {
    if fs == [] then []
    else [Field(fs[0].key, Canonicalize(fs[0].value, leq))] + CanonicalFields(fs[1..], leq)
  }

  /** A body as JSON.parse yields it: no object repeats a key. */
  predicate WellFormed(v: Json) {
    match v
    case Array(items) => forall i | 0 <= i < |items| :: WellFormed(items[i])
    case Object(fields) =>
      && DistinctKeys(fields)
      && forall i | 0 <= i < |fields| :: WellFormed(fields[i].value)
    case _ => true
  }

  predicate DistinctKeys(fs: seq<Field>) {
    forall i, j | 0 <= i < j < |fs| :: fs[i].key != fs[j].key
  }

  /** Equal up to the order of object keys, at every depth. */
  predicate Similar(a: Json, b: Json) {
    match a
    case Array(items) =>
      && b.Array? && |b.items| == |items|
      && forall i | 0 <= i < |items| :: Similar(items[i], b.items[i])
    case Object(fields) =>
      && b.Object? && |b.fields| == |fields|
      && forall i | 0 <= i < |fields| :: exists j | 0 <= j < |b.fields| :: SimilarField(fields[i], b.fields[j])
    case _ => a == b
  }

  predicate SimilarField(f: Field, g: Field) {
    f.key == g.key && Similar(f.value, g.value)
  }

  // ---------- what sorting and listing keep ----------

  function Elements(fs: seq<Field>): set<Field> {
    set i | 0 <= i < |fs| :: fs[i]
  }

  ghost predicate Ascending(fs: seq<Field>, leq: Comparison) {
    forall i, j | 0 <= i < j < |fs| :: leq(fs[i].key, fs[j].key)
  }

  lemma ElementsOne(f: Field)
    ensures Elements([f]) == {f} && Elements([]) == {}
  {
    assert [f][0] == f;
  }

  lemma ElementsConcat(a: seq<Field>, b: seq<Field>)
    ensures Elements(a + b) == Elements(a) + Elements(b)
  {
    forall f | f in Elements(a) + Elements(b)
      ensures f in Elements(a + b)
    {
      if f in Elements(a) {
        var i :| 0 <= i < |a| && a[i] == f;
        assert (a + b)[i] == f;
      } else {
        var i :| 0 <= i < |b| && b[i] == f;
        assert (a + b)[|a| + i] == f;
      }
    }
  }

  lemma ElementsCons(fs: seq<Field>)
    requires fs != []
    ensures Elements(fs) == {fs[0]} + Elements(fs[1..])
  {
    assert fs == [fs[0]] + fs[1..];
    ElementsConcat([fs[0]], fs[1..]);
    ElementsOne(fs[0]);
  }

  /** Whatever the comparison, sorting loses and adds nothing. */
  lemma {:induction false} InsertKeeps(f: Field, fs: seq<Field>, leq: Comparison)
    ensures |InsertField(f, fs, leq)| == |fs| + 1 && Elements(InsertField(f, fs, leq)) == {f} + Elements(fs)
  {
    if fs == [] || leq(f.key, fs[0].key) {
      ElementsConcat([f], fs);
      ElementsOne(f);
    } else {
      InsertKeeps(f, fs[1..], leq);
      ElementsConcat([fs[0]], InsertField(f, fs[1..], leq));
      ElementsCons(fs);
      ElementsOne(fs[0]);
    }
  }

  lemma {:induction false} SortKeeps(fs: seq<Field>, leq: Comparison)
    ensures |SortFields(fs, leq)| == |fs| && Elements(SortFields(fs, leq)) == Elements(fs)
  {
    if fs != [] {
      SortKeeps(fs[1..], leq);
      InsertKeeps(fs[0], SortFields(fs[1..], leq), leq);
      ElementsCons(fs);
    }
  }

  lemma {:induction false} InsertAscends(f: Field, fs: seq<Field>, leq: Comparison)
    requires TotalPreorder(leq) && Ascending(fs, leq)
    ensures Ascending(InsertField(f, fs, leq), leq)
  {
    if fs != [] && !leq(f.key, fs[0].key) {
      var rest := InsertField(f, fs[1..], leq);
      InsertAscends(f, fs[1..], leq);
      InsertKeeps(f, fs[1..], leq);
      forall j | 0 <= j < |rest|
        ensures leq(fs[0].key, rest[j].key)
      {
        assert rest[j] in Elements(rest);
      }
    }
  }

  lemma {:induction false} SortAscends(fs: seq<Field>, leq: Comparison)
    requires TotalPreorder(leq)
    ensures Ascending(SortFields(fs, leq), leq)
  {
    if fs != [] {
      SortAscends(fs[1..], leq);
      InsertAscends(fs[0], SortFields(fs[1..], leq), leq);
    }
  }

  lemma {:induction false} PartsKeep(fs: seq<Field>)
    ensures |Indices(fs)| + |Names(fs)| == |fs| && Elements(Indices(fs)) + Elements(Names(fs)) == Elements(fs)
    ensures (forall f | f in Elements(Indices(fs)) :: IsIndex(f.key))
            && (forall f | f in Elements(Names(fs)) :: !IsIndex(f.key))
  {
    if fs != [] {
      PartsKeep(fs[1..]);
      ElementsCons(fs);
      ElementsOne(fs[0]);
      ElementsConcat(if IsIndex(fs[0].key) then [fs[0]] else [], Indices(fs[1..]));
      ElementsConcat(if IsIndex(fs[0].key) then [] else [fs[0]], Names(fs[1..]));
    }
  }

  /** Whatever the comparison, an object's canonical form has its canonical fields, each once. */
  lemma ListingKeeps(fs: seq<Field>, leq: Comparison)
    ensures var r := FromEntries(SortFields(fs, leq)); |r| == |fs| && Elements(r) == Elements(fs)
  {
    var sorted := SortFields(fs, leq);
    SortKeeps(fs, leq);
    PartsKeep(sorted);
    SortKeeps(Indices(sorted), ByNumber);
    ElementsConcat(SortFields(Indices(sorted), ByNumber), Names(sorted));
  }

  /** The order in which a sorted object is listed, as one comparison. */
  function ListingOrder(leq: Comparison): Comparison {
    (a: string, b: string) =>
      if IsIndex(a) && IsIndex(b) then ByNumber(a, b) else IsIndex(a) || (!IsIndex(b) && leq(a, b))
  }

  lemma ListingOrderIsStrict(leq: Comparison)
    requires TotalPreorder(leq) && NamesNeverTie(leq)
    ensures TotalPreorder(ListingOrder(leq)) && NoTies(ListingOrder(leq))
  {
    forall a, b | IsIndex(a) && IsIndex(b) && ByNumber(a, b) && ByNumber(b, a)
      ensures a == b
    {
      OneDecimal(a, b);
    }
  }

  lemma {:induction false} NamesAscend(fs: seq<Field>, leq: Comparison)
    requires Ascending(fs, leq)
    ensures Ascending(Names(fs), leq)
  {
    if fs != [] {
      assert Ascending(fs[1..], leq);
      NamesAscend(fs[1..], leq);
      var rest := Names(fs[1..]);
      PartsKeep(fs[1..]);
      forall j | 0 <= j < |rest|
        ensures leq(fs[0].key, rest[j].key)
      {
        assert rest[j] in Elements(fs[1..]);
        var i :| 0 <= i < |fs[1..]| && fs[1..][i] == rest[j];
        assert fs[i + 1] == rest[j];
      }
    }
  }

  lemma ListingAscends(fs: seq<Field>, leq: Comparison)
    requires TotalPreorder(leq)
    ensures Ascending(FromEntries(SortFields(fs, leq)), ListingOrder(leq))
  {
    var sorted := SortFields(fs, leq);
    var first, rest := SortFields(Indices(sorted), ByNumber), Names(sorted);
    SortAscends(fs, leq);
    NamesAscend(sorted, leq);
    SortAscends(Indices(sorted), ByNumber);
    SortKeeps(Indices(sorted), ByNumber);
    PartsKeep(sorted);
    var all := first + rest;
    forall i, j | 0 <= i < j < |all|
      ensures ListingOrder(leq)(all[i].key, all[j].key)
    {
      assert i < |first| ==> first[i] in Elements(first);
      assert j < |first| ==> first[j] in Elements(first);
      assert i >= |first| ==> rest[i - |first|] in Elements(rest);
      assert j >= |first| ==> rest[j - |first|] in Elements(rest);
    }
  }

  ghost predicate DistinctElements(fs: seq<Field>) {
    forall i, j | 0 <= i < j < |fs| :: fs[i] != fs[j]
  }

  lemma {:induction false} ElementsSize(fs: seq<Field>)
    ensures |Elements(fs)| <= |fs|
    ensures |Elements(fs)| == |fs| <==> DistinctElements(fs)
  {
    if fs != [] {
      ElementsCons(fs);
      ElementsSize(fs[1..]);
      if fs[0] in Elements(fs[1..]) {
        var i :| 0 <= i < |fs[1..]| && fs[1..][i] == fs[0];
        assert fs[i + 1] == fs[0];
        assert Elements(fs) == Elements(fs[1..]);
      } else {
        assert forall j | 0 < j < |fs| :: fs[1..][j - 1] == fs[j] && fs[j] in Elements(fs[1..]);
        assert |Elements(fs)| == 1 + |Elements(fs[1..])|;
        if DistinctElements(fs[1..]) {
          forall i, j | 0 <= i < j < |fs|
            ensures fs[i] != fs[j]
          {
            assert fs[j] == fs[1..][j - 1];
            assert i > 0 ==> fs[i] == fs[1..][i - 1];
          }
        } else {
          var i, j :| 0 <= i < j < |fs[1..]| && fs[1..][i] == fs[1..][j];
          assert fs[i + 1] == fs[j + 1];
        }
      }
    }
  }

  ghost predicate NoTies(leq: Comparison) {
    forall a, b :: leq(a, b) && leq(b, a) ==> a == b
  }

  /** With no ties, an ascending sequence without repeats is determined by its elements. */
  lemma {:induction false} AscendingUnique(a: seq<Field>, b: seq<Field>, leq: Comparison)
    requires TotalPreorder(leq) && NoTies(leq)
    requires Ascending(a, leq) && Ascending(b, leq) && Elements(a) == Elements(b)
    requires |a| == |b| == |Elements(a)|
    requires forall f, g | f in Elements(a) && g in Elements(a) && f.key == g.key :: f == g
    ensures a == b
  {
    if a != [] {
      ElementsCons(a);
      ElementsCons(b);
      ElementsSize(a);
      ElementsSize(b);
      assert a[0] in Elements(b) && b[0] in Elements(a);
      assert leq(a[0].key, b[0].key) && leq(b[0].key, a[0].key) by {
        var i :| 0 <= i < |a| && a[i] == b[0];
        var j :| 0 <= j < |b| && b[j] == a[0];
        assert leq(a[0].key, a[0].key) && leq(b[0].key, b[0].key);
      }
      assert a[0] == b[0];
      HeadNotInTail(a);
      HeadNotInTail(b);
      assert Elements(a[1..]) == Elements(a) - {a[0]};
      assert Elements(b[1..]) == Elements(b) - {b[0]};
      assert Ascending(a[1..], leq) && Ascending(b[1..], leq);
      AscendingUnique(a[1..], b[1..], leq);
    }
  }

  lemma HeadNotInTail(a: seq<Field>)
    requires a != [] && DistinctElements(a)
    ensures a[0] !in Elements(a[1..])
  {
  }

  // ---------- what the fingerprint distinguishes ----------

  /** Sorting and listing forget exactly the order of distinct keys. */
  lemma ListingForgetsOrder(a: seq<Field>, b: seq<Field>, leq: Comparison)
    requires TotalPreorder(leq) && NamesNeverTie(leq) && DistinctKeys(a) && DistinctKeys(b) && |a| == |b|
    requires Elements(a) <= Elements(b)
    ensures FromEntries(SortFields(a, leq)) == FromEntries(SortFields(b, leq))
  {
    ElementsSize(a);
    ElementsSize(b);
    SameSizeSame(Elements(a), Elements(b));
    ListingKeeps(a, leq);
    ListingKeeps(b, leq);
    ListingAscends(a, leq);
    ListingAscends(b, leq);
    ListingOrderIsStrict(leq);
    AscendingUnique(FromEntries(SortFields(a, leq)), FromEntries(SortFields(b, leq)), ListingOrder(leq));
  }

  predicate SameForm(a: Json, b: Json, leq: Comparison) {
    Canonicalize(a, leq) == Canonicalize(b, leq)
  }

  /**
   Whatever the comparison, even one that ties or is no order at all: bodies with one fingerprint are
   equal up to the order of object keys.
   */
  lemma {:induction false} SameFormMeansSimilar(a: Json, b: Json, leq: Comparison)
    requires SameForm(a, b, leq)
    ensures Similar(a, b)
    decreases a
  {
    match a
    case Object(fields) =>
      var ca, cb := CanonicalFields(fields, leq), CanonicalFields(b.fields, leq);
      ListingKeeps(ca, leq);
      ListingKeeps(cb, leq);
      forall i | 0 <= i < |fields|
        ensures exists j | 0 <= j < |b.fields| :: SimilarField(fields[i], b.fields[j])
      {
        assert ca[i] in Elements(cb);
        var j :| 0 <= j < |cb| && cb[j] == ca[i];
        SameFormMeansSimilar(fields[i].value, b.fields[j].value, leq);
        assert SimilarField(fields[i], b.fields[j]);
      }
    case Array(items) =>
      var ca, cb := CanonicalItems(items, leq), CanonicalItems(b.items, leq);
      assert ca == cb;
      forall i | 0 <= i < |items|
        ensures Similar(items[i], b.items[i])
      {
        assert ca[i] == cb[i];
        SameFormMeansSimilar(items[i], b.items[i], leq);
      }
    case _ =>
  }

  /** If no two names tie, bodies equal up to the order of object keys have one fingerprint. */
  lemma {:induction false} SimilarMeansSameForm(a: Json, b: Json, leq: Comparison)
    requires TotalPreorder(leq) && NamesNeverTie(leq) && WellFormed(a) && WellFormed(b) && Similar(a, b)
    ensures SameForm(a, b, leq)
    decreases a
  {
    match a
    case Object(fields) =>
      var ca, cb := CanonicalFields(fields, leq), CanonicalFields(b.fields, leq);
      forall f | f in Elements(ca)
        ensures f in Elements(cb)
      {
        var i :| 0 <= i < |ca| && ca[i] == f;
        var j :| 0 <= j < |b.fields| && SimilarField(fields[i], b.fields[j]);
        SimilarMeansSameForm(fields[i].value, b.fields[j].value, leq);
        assert cb[j] == f;
      }
      ListingForgetsOrder(ca, cb, leq);
    case Array(items) =>
      forall i | 0 <= i < |items|
        ensures SameForm(items[i], b.items[i], leq)
      {
        SimilarMeansSameForm(items[i], b.items[i], leq);
      }
      assert CanonicalItems(items, leq) == CanonicalItems(b.items, leq);
    case _ =>
  }

  /** Bodies share a fingerprint exactly when they are equal up to key order. */
  ghost predicate Faithful(leq: Comparison) {
    forall a, b | WellFormed(a) && WellFormed(b) :: SameForm(a, b, leq) <==> Similar(a, b)
  }

  /**
   The fingerprint ignores key order if and only if the comparison never ties two distinct keys, array
   indices aside; one that ties, as localeCompare may, leaves the order of such keys in the fingerprint.
   */
  lemma FaithfulIffNamesNeverTie(leq: Comparison)
    requires TotalPreorder(leq)
    ensures Faithful(leq) <==> NamesNeverTie(leq)
  {
    if NamesNeverTie(leq) {
      forall a, b | WellFormed(a) && WellFormed(b)
        ensures SameForm(a, b, leq) <==> Similar(a, b)
      {
        if SameForm(a, b, leq) {
          SameFormMeansSimilar(a, b, leq);
        }
        if Similar(a, b) {
          SimilarMeansSameForm(a, b, leq);
        }
      }
    } else {
      var x, y :| !IsIndex(x) && !IsIndex(y) && leq(x, y) && leq(y, x) && x != y;
      TieShows(x, y, leq);
      var a, b := Object([Field(x, Null), Field(y, Null)]), Object([Field(y, Null), Field(x, Null)]);
      assert Similar(a, b) && !SameForm(a, b, leq);
    }
  }

  lemma SortOne(f: Field, leq: Comparison)
    ensures SortFields([f], leq) == [f]
  {
    assert [f][1..] == [];
    assert SortFields([], leq) == [];
  }

  lemma ListTwoNames(f: Field, g: Field)
    requires !IsIndex(f.key) && !IsIndex(g.key)
    ensures FromEntries([f, g]) == [f, g]
  {
    assert [f, g][1..] == [g] && [g][1..] == [];
    assert Names([g]) == [g] && Indices([g]) == [];
    assert Names([f, g]) == [f, g] && Indices([f, g]) == [];
  }

  /** Two names that tie stay in the order they came in. */
  lemma TwoTiedNames(f: Field, g: Field, leq: Comparison)
    requires !IsIndex(f.key) && !IsIndex(g.key) && leq(f.key, g.key)
    ensures FromEntries(SortFields([f, g], leq)) == [f, g]
  {
    assert [f, g][1..] == [g];
    SortOne(g, leq);
    ListTwoNames(f, g);
  }

  lemma TieShows(x: string, y: string, leq: Comparison)
    requires !IsIndex(x) && !IsIndex(y) && leq(x, y) && leq(y, x) && x != y
    ensures var a, b := Object([Field(x, Null), Field(y, Null)]), Object([Field(y, Null), Field(x, Null)]);
            WellFormed(a) && WellFormed(b) && Similar(a, b) && Canonicalize(a, leq) != Canonicalize(b, leq)
  {
    var fx, fy := Field(x, Null), Field(y, Null);
    assert CanonicalFields([fx, fy], leq) == [fx, fy] && CanonicalFields([fy, fx], leq) == [fy, fx];
    TwoTiedNames(fx, fy, leq);
    TwoTiedNames(fy, fx, leq);
    TwoAreSimilar(fx, fy);
  }

  lemma TwoAreSimilar(f: Field, g: Field)
    requires f.key != g.key && f.value == Null && g.value == Null
    ensures var a, b := Object([f, g]), Object([g, f]); WellFormed(a) && WellFormed(b) && Similar(a, b)
  {
    assert SimilarField(f, f) && SimilarField(g, g);
    assert [g, f][1] == f && [g, f][0] == g;
  }
}
