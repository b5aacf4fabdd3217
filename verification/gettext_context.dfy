/** Message contexts: the route and unit id behind every translation unit. */
module GettextContext {
  import opened Common
  import opened Utf8
  import opened Ascii
  import Base64Url
  import JsonText

  type Text = seq<Unit>

  datatype Descriptor = Descriptor(route: Text, unitId: Text, isInline: bool)

  datatype RenderError =
    | EmptyCatalog | MixedLocales | SameLocales | MissingSide | ShapeChanged
    | OutsideLimits | ContextTooLong | DuplicateUnit

  const PREFIX: Text := Lit("np:content:")
  const MAX_CONTEXT_LENGTH: nat := 8192
  const MAX_ROUTE_LENGTH: nat := 1024
  const MAX_UNIT_ID_LENGTH: nat := 4096

  predicate WithinLimits(d: Descriptor) {
    1 <= |d.route| <= MAX_ROUTE_LENGTH && 1 <= |d.unitId| <= MAX_UNIT_ID_LENGTH
  }

  // The JSON text of a descriptor.
  function DescriptorText(d: Descriptor): Text {
    Lit("{\"route\":") + (JsonText.Quote(d.route) +
    (Lit(",\"unitId\":") + (JsonText.Quote(d.unitId) +
    (Lit(",\"inline\":") + Lit(if d.isInline then "true}" else "false}")))))
  }

  function RenderContext(d: Descriptor): Result<Text, RenderError> {
    if !WithinLimits(d) then Err(OutsideLimits)
    else
      var context := PREFIX + Base64Url.Encode(Encode(DescriptorText(d)));
      if |context| > MAX_CONTEXT_LENGTH then Err(ContextTooLong) else Ok(context)
  }

  // `read` stands for JSON parsing and the check of the three keys and their types.
  type Reader = Text -> Option<Descriptor>

  // JSON parsing gives back what JSON printing was given.
  ghost predicate Faithful(read: Reader) {
    forall d :: read(DescriptorText(d)) == Some(d)
  }

  function ParseContext(read: Reader, context: Text): Option<Descriptor> {
    if |context| < |PREFIX| || context[..|PREFIX|] != PREFIX || |context| > MAX_CONTEXT_LENGTH then None
    else
      var encoded := context[|PREFIX|..];
      var decoded := Decode(Base64Url.Decode(encoded));
      if Base64Url.Encode(Encode(decoded)) != encoded then None
      else
        match read(decoded)
        case None => None
        case Some(d) => if WithinLimits(d) then Some(d) else None
  }

  lemma DescriptorTextWellFormed(d: Descriptor)
    ensures WellFormed(DescriptorText(d))
  {
    var a, b, c := Lit("{\"route\":"), Lit(",\"unitId\":"), Lit(",\"inline\":");
    var e := Lit(if d.isInline then "true}" else "false}");
    PlainWellFormed(a);
    PlainWellFormed(b);
    PlainWellFormed(c);
    PlainWellFormed(e);
    JsonText.QuoteWellFormed(d.route);
    JsonText.QuoteWellFormed(d.unitId);
    WellFormedConcat(c, e);
    WellFormedConcat(JsonText.Quote(d.unitId), c + e);
    WellFormedConcat(b, JsonText.Quote(d.unitId) + (c + e));
    WellFormedConcat(JsonText.Quote(d.route), b + (JsonText.Quote(d.unitId) + (c + e)));
    WellFormedConcat(a, JsonText.Quote(d.route) + (b + (JsonText.Quote(d.unitId) + (c + e))));
  }

  // The text inside a rendered context comes out as it went in.
  lemma ContextCarriesText(text: Text)
    requires WellFormed(text)
    ensures Decode(Base64Url.Decode(Base64Url.Encode(Encode(text)))) == text
  {
    Base64Url.DecodeEncode(Encode(text));
    DecodeEncode(text);
  }

  /** A context that rendered parses back to its descriptor. */
  lemma ContextRoundTrip(read: Reader, d: Descriptor)
    requires Faithful(read) && RenderContext(d).Ok?
    ensures ParseContext(read, RenderContext(d).value) == Some(d)
  {
    DescriptorTextWellFormed(d);
    ContextCarriesText(DescriptorText(d));
    var encoded := Base64Url.Encode(Encode(DescriptorText(d)));
    assert (PREFIX + encoded)[..|PREFIX|] == PREFIX && (PREFIX + encoded)[|PREFIX|..] == encoded;
  }

  lemma DescriptorTextInjective(d: Descriptor, e: Descriptor)
    requires DescriptorText(d) == DescriptorText(e)
    ensures d == e
  {
    var a, b, c := Lit("{\"route\":"), Lit(",\"unitId\":"), Lit(",\"inline\":");
    var dEnd, eEnd := Lit(if d.isInline then "true}" else "false}"), Lit(if e.isInline then "true}" else "false}");
    var dTail, eTail := JsonText.Quote(d.unitId) + (c + dEnd), JsonText.Quote(e.unitId) + (c + eEnd);
    assert DescriptorText(d)[|a|..] == JsonText.Quote(d.route) + (b + dTail);
    assert DescriptorText(e)[|a|..] == JsonText.Quote(e.route) + (b + eTail);
    JsonText.QuoteInjective(d.route, e.route, b + dTail, b + eTail);
    assert (b + dTail)[|b|..] == dTail && (b + eTail)[|b|..] == eTail;
    JsonText.QuoteInjective(d.unitId, e.unitId, c + dEnd, c + eEnd);
    assert (c + dEnd)[|c|..] == dEnd && (c + eEnd)[|c|..] == eEnd;
    assert dEnd[0] == eEnd[0];
  }

  /** Different descriptors get different contexts. */
  lemma ContextsAreDistinct(d: Descriptor, e: Descriptor)
    requires RenderContext(d).Ok? && RenderContext(d) == RenderContext(e)
    ensures d == e
  {
    DescriptorTextWellFormed(d);
    DescriptorTextWellFormed(e);
    ContextCarriesText(DescriptorText(d));
    ContextCarriesText(DescriptorText(e));
    var x, y := Base64Url.Encode(Encode(DescriptorText(d))), Base64Url.Encode(Encode(DescriptorText(e)));
    assert (PREFIX + x)[|PREFIX|..] == x && (PREFIX + y)[|PREFIX|..] == y;
    DescriptorTextInjective(d, e);
  }
}
