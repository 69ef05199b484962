/** The opaque page cursor: two strings joined by a bar, in an encoding that can be undone. */
module Cursors {
  import opened Wrappers

  datatype OrderCursor = OrderCursor(createdAt: string, id: string)
  datatype CursorError = InvalidCursor(cursor: string)

  /** Base64 of UTF-8 and the date parser are library code: any text encoding with an inverse will do. */
  datatype Library = Library(toBase64: string -> string, fromBase64: string -> string, isDate: string -> bool)

  ghost predicate Lossless(lib: Library) {
    forall s :: lib.fromBase64(lib.toBase64(s)) == s
  }

  function Join(c: OrderCursor): string {
    c.createdAt + "|" + c.id
  }

  /** String.split('|'). */
  function Split(s: string): (parts: seq<string>)
    ensures |parts| >= 1
  {
    if s == "" then [""]
    else
      var rest := Split(s[1..]);
      if s[0] == '|' then [""] + rest else [[s[0]] + rest[0]] + rest[1..]
  }

  function EncodeCursor(c: OrderCursor, lib: Library): string {
    lib.toBase64(Join(c))
  }

  function DecodeCursor(cursor: string, lib: Library): Result<OrderCursor, CursorError> {
    var parts := Split(lib.fromBase64(cursor));
    if |parts| != 2 then Err(InvalidCursor(cursor))
    else if !lib.isDate(parts[0]) then Err(InvalidCursor(cursor))
    else Ok(OrderCursor(parts[0], parts[1]))
  }

  function Bars(s: string): nat {
    if s == "" then 0 else (if s[0] == '|' then 1 else 0) + Bars(s[1..])
  }

  lemma {:induction false} BarsConcat(a: string, b: string)
    ensures Bars(a + b) == Bars(a) + Bars(b)
  {
    if a == "" {
      assert a + b == b;
    } else {
      assert (a + b)[1..] == a[1..] + b;
      BarsConcat(a[1..], b);
    }
  }

  lemma {:induction false} SplitCounts(s: string)
    ensures |Split(s)| == Bars(s) + 1
    ensures Bars(s) == 0 ==> Split(s) == [s]
  {
    if s != "" {
      SplitCounts(s[1..]);
      assert s == [s[0]] + s[1..];
    }
  }

  /** Splitting at the first bar. */
  lemma {:induction false} SplitJoined(a: string, b: string)
    requires Bars(a) == 0
    ensures Split(a + "|" + b) == [a] + Split(b)
  {
    if a == "" {
      assert a + "|" + b == "|" + b;
      assert ("|" + b)[1..] == b;
    } else {
      assert (a + "|" + b)[1..] == a[1..] + "|" + b;
      SplitJoined(a[1..], b);
      assert a == [a[0]] + a[1..];
    }
  }

  /** Two parts are the text cut at its one bar. */
  lemma {:induction false} TwoPartsRejoin(s: string)
    requires |Split(s)| == 2
    ensures s == Split(s)[0] + "|" + Split(s)[1] && Bars(Split(s)[0]) == 0 && Bars(Split(s)[1]) == 0
  {
    SplitCounts(s);
    assert s == [s[0]] + s[1..];
    SplitCounts(s[1..]);
    if s[0] != '|' {
      TwoPartsRejoin(s[1..]);
      var first := Split(s[1..])[0];
      assert ([s[0]] + first)[1..] == first;
    }
  }

  /** A cursor comes back as it went exactly when neither part holds a bar and the first is a date. */
  lemma RoundTripIff(c: OrderCursor, lib: Library)
    requires Lossless(lib)
    ensures DecodeCursor(EncodeCursor(c, lib), lib) == Ok(c) <==>
              Bars(c.createdAt) == 0 && Bars(c.id) == 0 && lib.isDate(c.createdAt)
  {
    assert lib.fromBase64(lib.toBase64(Join(c))) == Join(c);
    BarsConcat(c.createdAt + "|", c.id);
    BarsConcat(c.createdAt, "|");
    assert Bars("|") == 1;
    SplitCounts(Join(c));
    if Bars(c.createdAt) == 0 && Bars(c.id) == 0 {
      SplitJoined(c.createdAt, c.id);
      SplitCounts(c.id);
    }
  }

  /** Decoding succeeds on exactly the texts of one bar behind a date, and its parts rejoin to the text. */
  lemma DecodesExactly(cursor: string, lib: Library)
    ensures DecodeCursor(cursor, lib).Ok? <==>
      exists c: OrderCursor :: lib.fromBase64(cursor) == Join(c) && Bars(c.createdAt) == 0 && Bars(c.id) == 0
        && lib.isDate(c.createdAt)
    ensures DecodeCursor(cursor, lib).Ok? ==> Join(DecodeCursor(cursor, lib).value) == lib.fromBase64(cursor)
  {
    var text := lib.fromBase64(cursor);
    if |Split(text)| == 2 {
      TwoPartsRejoin(text);
    }
    forall c: OrderCursor | text == Join(c) && Bars(c.createdAt) == 0 && Bars(c.id) == 0
      ensures Split(text) == [c.createdAt, c.id]
    {
      SplitJoined(c.createdAt, c.id);
      SplitCounts(c.id);
    }
  }
}
