/** Turning the base64 `HTML` field of the tax authority's answer into
    markup: PHP's `base64_decode` followed by `html_entity_decode`, and the
    `decodificarHtmlBase64` helper of `HtmlDecoderService` built on them. */
module Html {
  import opened Wrappers
  import opened Text
  import opened Base64
  import opened Json

  /** The foreign parts: what PHP's lenient `base64_decode` makes of text
      that is not well-formed base64 (`None` for `false`), and
      `html_entity_decode` with the HTML5 reference table. */
  datatype Decoders = Decoders(lenientBase64: string -> Option<seq<byte>>, entityDecode: seq<byte> -> string)

  /** `base64_decode`: the alphabet of section 4 of RFC 4648, read strictly
      when the text is well-formed and by the lenient primitive otherwise. */
  function PhpBase64Decode(s: string, d: Decoders): (r: Option<seq<byte>>)
    ensures Decode(s).Some? ==> r == Decode(s)
    ensures Decode(s).None? ==> r == d.lenientBase64(s)
  {
    if Decode(s).Some? then Decode(s) else d.lenientBase64(s)
  }

  /** `html_entity_decode` on decoded bytes: the empty string decodes to
      itself, anything else goes through the reference table. */
  function EntityDecode(b: seq<byte>, d: Decoders): string {
    if |b| == 0 then "" else d.entityDecode(b)
  }

  /** `html_entity_decode(base64_decode(s), ENT_QUOTES | ENT_HTML5, 'UTF-8')`;
      a `false` from the decoder reads as the empty string. */
  function DecodeHtml(s: string, d: Decoders): string {
    EntityDecode(PhpBase64Decode(s, d).GetOr([]), d)
  }

  /** Markup that was base64-encoded comes back through `DecodeHtml`. */
  lemma DecodeHtmlOfEncoded(b: seq<byte>, d: Decoders)
    ensures DecodeHtml(Encode(b), d) == EntityDecode(b, d)
  {
    DecodeEncode(b);
  }

  const DecodeErrorMessage: string := "Error: No se pudo decodificar el código base64."

  /** `decodificarHtmlBase64`: the decoded markup, or the fixed error text
      when it is empty (or `"0"`). An array argument is a `TypeError` that
      the helper's `catch (Exception)` does not catch: `None`. */
  function DecodificarHtmlBase64(codigo: Json, d: Decoders): (r: Option<string>)
    ensures r.None? <==> IsArray(codigo)
    ensures r.Some? ==> Truthy(r.value)
    ensures r.Some? && Truthy(DecodeHtml(StringCast(codigo).value, d)) ==>
      r.value == DecodeHtml(StringCast(codigo).value, d)
    ensures r.Some? && !Truthy(DecodeHtml(StringCast(codigo).value, d)) ==> r.value == DecodeErrorMessage
  {
    match StringCast(codigo)
    case None => None
    case Some(s) =>
      var h := DecodeHtml(s, d);
      if Truthy(h) then Some(h) else Some(DecodeErrorMessage)
  }

  /** Encoded markup that is not empty decodes to itself; the error text
      appears only when decoding produced nothing usable, in particular for
      empty markup. */
  lemma DecodificarEncoded(b: seq<byte>, d: Decoders)
    ensures Truthy(EntityDecode(b, d)) ==>
      DecodificarHtmlBase64(JStr(Encode(b)), d) == Some(EntityDecode(b, d))
    ensures |b| == 0 ==> DecodificarHtmlBase64(JStr(Encode(b)), d) == Some(DecodeErrorMessage)
    ensures !Truthy(EntityDecode(b, d)) ==>
      DecodificarHtmlBase64(JStr(Encode(b)), d) == Some(DecodeErrorMessage)
  {
    DecodeHtmlOfEncoded(b, d);
  }
}
