/** JSON values, the text `JSON.stringify` gives them, and the length of that text in UTF-8 bytes. */
module JsonBytes {
  import opened Utf8
  import opened Ascii
  import opened ObjectGraph
  import JsonText

  datatype Json =
    | JNull | JBool(b: bool) | JStr(s: Text) | JNum(text: NumberText)
    | JList(items: seq<Json>) | JObject(members: seq<(Text, Json)>)

  const COMMA: Unit := ',' as int
  const COLON: Unit := ':' as int

  // Stringify's text; the members of a list or object from index i on.
  function Show(j: Json): Text
    decreases j, 1
  {
    match j
    case JNull => Lit("null")
    case JBool(b) => if b then Lit("true") else Lit("false")
    case JStr(s) => JsonText.Quote(s)
    case JNum(text) => text
    case JList(items) => ['[' as int] + (ShowItems(items) + [']' as int])
    case JObject(members) => ['{' as int] + (ShowMembers(members) + ['}' as int])
  }

  function ShowItems(items: seq<Json>): Text
    decreases items, 0
  {
    if items == [] then []
    else if |items| == 1 then Show(items[0])
    else Show(items[0]) + ([COMMA] + ShowItems(items[1..]))
  }

  function ShowMember(m: (Text, Json)): Text
    decreases m, 2
  {
    JsonText.Quote(m.0) + ([COLON] + Show(m.1))
  }

  function ShowMembers(members: seq<(Text, Json)>): Text
    decreases members, 0
  {
    if members == [] then []
    else if |members| == 1 then ShowMember(members[0])
    else ShowMember(members[0]) + ([COMMA] + ShowMembers(members[1..]))
  }

  // ---- bytes ----

  function ByteLength(t: Text): nat { |Encode(t)| }

  lemma {:induction false} PointsConcat(a: Text, b: Text)
    requires WellFormed(a)
    ensures CodePoints(a + b) == CodePoints(a) + CodePoints(b)
  {
    if a == [] {
      assert a + b == b;
    } else {
      var n := FirstPoint(a).1;
      assert FirstPoint(a + b) == FirstPoint(a);
      assert (a + b)[n..] == a[n..] + b;
      PointsConcat(a[n..], b);
    }
  }

  lemma {:induction false} BytesOfPointsConcat(x: seq<int>, y: seq<int>)
    requires Scalars(x) && Scalars(y)
    ensures PointsBytes(x + y) == PointsBytes(x) + PointsBytes(y)
  {
    if x == [] {
      assert x + y == y;
    } else {
      assert (x + y)[1..] == x[1..] + y;
      BytesOfPointsConcat(x[1..], y);
    }
  }

  lemma ByteLengthConcat(a: Text, b: Text)
    requires WellFormed(a)
    ensures ByteLength(a + b) == ByteLength(a) + ByteLength(b)
  {
    PointsConcat(a, b);
    BytesOfPointsConcat(CodePoints(a), CodePoints(b));
  }

  lemma {:induction false} AsciiBytes(t: Text)
    requires forall i :: 0 <= i < |t| ==> t[i] < 0x80
    ensures WellFormed(t) && ByteLength(t) == |t|
  {
    if t != [] {
      AsciiBytes(t[1..]);
    }
  }

  // One ASCII unit before or after a text adds one byte.
  lemma UnitBefore(u: Unit, t: Text)
    requires u < 0x80 && WellFormed(t)
    ensures WellFormed([u] + t) && ByteLength([u] + t) == 1 + ByteLength(t)
  {
    AsciiBytes([u]);
    ByteLengthConcat([u], t);
    WellFormedConcat([u], t);
  }

  lemma UnitAfter(t: Text, u: Unit)
    requires u < 0x80 && WellFormed(t)
    ensures WellFormed(t + [u]) && ByteLength(t + [u]) == ByteLength(t) + 1
  {
    AsciiBytes([u]);
    ByteLengthConcat(t, [u]);
    WellFormedConcat(t, [u]);
  }

  lemma TwoTexts(a: Text, u: Unit, b: Text)
    requires u < 0x80 && WellFormed(a) && WellFormed(b)
    ensures WellFormed(a + ([u] + b)) && ByteLength(a + ([u] + b)) == ByteLength(a) + 1 + ByteLength(b)
  {
    UnitBefore(u, b);
    ByteLengthConcat(a, [u] + b);
    WellFormedConcat(a, [u] + b);
  }

  // ---- the size of a value, counted piece by piece ----

  function Max(a: int, b: int): int { if a < b then b else a }

  function Size(j: Json): nat
    decreases j, 1
  {
    match j
    case JNull => 4
    case JBool(b) => if b then 4 else 5
    case JStr(s) => ByteLength(JsonText.Quote(s))
    case JNum(text) => |text|
    case JList(items) => 2 + Max(0, |items| - 1) + ItemSizes(items)
    case JObject(members) => 2 + Max(0, |members| - 1) + |members| + MemberSizes(members)
  }

  function ItemSizes(items: seq<Json>): nat
    decreases items, 0
  {
    if items == [] then 0 else Size(items[0]) + ItemSizes(items[1..])
  }

  function MemberSize(m: (Text, Json)): nat
    decreases m, 2
  {
    ByteLength(JsonText.Quote(m.0)) + Size(m.1)
  }

  function MemberSizes(members: seq<(Text, Json)>): nat
    decreases members, 0
  {
    if members == [] then 0 else MemberSize(members[0]) + MemberSizes(members[1..])
  }

  /** Counting the pieces gives the exact length of the text. */
  lemma {:induction false} SizeIsByteLength(j: Json)
    ensures WellFormed(Show(j)) && ByteLength(Show(j)) == Size(j)
    decreases j, 1
  {
    hide ByteLength, JsonText.Quote;
    match j
    case JNull => AsciiBytes(Lit("null"));
    case JBool(b) => AsciiBytes(if b then Lit("true") else Lit("false"));
    case JStr(s) => JsonText.QuoteWellFormed(s);
    case JNum(text) => AsciiBytes(text);
    case JList(items) =>
      ItemSizesExact(items);
      UnitAfter(ShowItems(items), ']' as int);
      UnitBefore('[' as int, ShowItems(items) + [']' as int]);
    case JObject(members) =>
      MemberSizesExact(members);
      UnitAfter(ShowMembers(members), '}' as int);
      UnitBefore('{' as int, ShowMembers(members) + ['}' as int]);
  }

  lemma {:induction false} ItemSizesExact(items: seq<Json>)
    ensures WellFormed(ShowItems(items))
    ensures ByteLength(ShowItems(items)) == Max(0, |items| - 1) + ItemSizes(items)
    decreases items, 0
  {
    hide ByteLength, Show, Size;
    if items == [] {
      AsciiBytes([]);
    } else {
      SizeIsByteLength(items[0]);
      if |items| > 1 {
        ItemSizesExact(items[1..]);
        TwoTexts(Show(items[0]), COMMA, ShowItems(items[1..]));
      }
    }
  }

  lemma {:induction false} MemberSizesExact(members: seq<(Text, Json)>)
    ensures WellFormed(ShowMembers(members))
    ensures ByteLength(ShowMembers(members)) == Max(0, |members| - 1) + |members| + MemberSizes(members)
    decreases members, 0
  {
    hide ByteLength, Show, Size, JsonText.Quote;
    if members == [] {
      AsciiBytes([]);
    } else {
      var m := members[0];
      assert m.1 < members[0];
      SizeIsByteLength(m.1);
      JsonText.QuoteWellFormed(m.0);
      TwoTexts(JsonText.Quote(m.0), COLON, Show(m.1));
      if |members| > 1 {
        MemberSizesExact(members[1..]);
        TwoTexts(ShowMember(m), COMMA, ShowMembers(members[1..]));
      }
    }
  }
}
