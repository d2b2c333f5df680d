/** `procesarRespuestaSat` and `buscarCampoFlexible`: reading the tax
    authority's decoded answer, either in the `Acuse` shape or as a flat
    object whose field names vary in case, spaces and underscores. */
module Normalizer {
  import opened Wrappers
  import opened Text
  import opened Base64
  import opened Json
  import opened Html

  // ------------------------------------------------------- key normalising

  /** `str_replace([' ', '_'], '', s)`. */
  function DropSpacesUnderscores(s: string): (r: string)
    ensures |r| <= |s|
    ensures forall i :: 0 <= i < |r| ==> r[i] != ' ' && r[i] != '_'
    ensures (forall i :: 0 <= i < |s| ==> s[i] != ' ' && s[i] != '_') ==> r == s
  {
    if |s| == 0 then ""
    else
      var rest := DropSpacesUnderscores(s[1..]);
      if s[0] == ' ' || s[0] == '_' then rest else [s[0]] + rest
  }

  /** The closure's `strtolower(str_replace([' ', '_'], '', s))`. */
  function NormalizeKey(s: string): (r: string)
    ensures forall i :: 0 <= i < |r| ==> r[i] != ' ' && r[i] != '_' && !('A' <= r[i] <= 'Z')
  {
    Lower(DropSpacesUnderscores(s))
  }

  /** A normalized key is its own normal form. */
  lemma NormalizeKeyIdempotent(s: string)
    ensures NormalizeKey(NormalizeKey(s)) == NormalizeKey(s)
  {
    var n := NormalizeKey(s);
    assert DropSpacesUnderscores(n) == n;
    assert Lower(n) == n;
  }

  /** The `$mapa` loop: normalized key to value; a later key that normalizes
      alike overwrites an earlier one. */
  function KeyMap(ms: seq<(string, Json)>): (m: map<string, Json>)
    ensures forall k :: k in m <==> exists i :: 0 <= i < |ms| && NormalizeKey(ms[i].0) == k
  {
    if |ms| == 0 then map[]
    else
      var init := ms[..|ms| - 1];
      var m := KeyMap(init)[NormalizeKey(ms[|ms| - 1].0) := ms[|ms| - 1].1];
      assert forall i :: 0 <= i < |init| ==> init[i] == ms[i];
      m
  }

  /** Among keys that normalize alike, the value of the last one is kept. */
  lemma {:induction false} KeyMapLastWins(ms: seq<(string, Json)>, i: nat)
    requires i < |ms|
    requires forall j :: i < j < |ms| ==> NormalizeKey(ms[j].0) != NormalizeKey(ms[i].0)
    ensures NormalizeKey(ms[i].0) in KeyMap(ms)
    ensures KeyMap(ms)[NormalizeKey(ms[i].0)] == ms[i].1
  {
    if i < |ms| - 1 {
      var init := ms[..|ms| - 1];
      assert init[i] == ms[i];
      KeyMapLastWins(init, i);
    }
  }

  /** The alias loop: the value of the first alias whose normal form is a key. */
  function FirstAlias(m: map<string, Json>, aliases: seq<string>): (r: Option<Json>)
    ensures r.None? <==> forall i :: 0 <= i < |aliases| ==> NormalizeKey(aliases[i]) !in m
    ensures r.Some? ==>
      exists i :: 0 <= i < |aliases| && NormalizeKey(aliases[i]) in m &&
        r.value == m[NormalizeKey(aliases[i])] &&
        (forall j :: 0 <= j < i ==> NormalizeKey(aliases[j]) !in m)
  {
    if |aliases| == 0 then None
    else if NormalizeKey(aliases[0]) in m then Some(m[NormalizeKey(aliases[0])])
    else
      var r := FirstAlias(m, aliases[1..]);
      assert forall i :: 1 <= i < |aliases| ==> aliases[i] == aliases[1..][i - 1];
      if r.Some? then
        var i :| 0 <= i < |aliases[1..]| && NormalizeKey(aliases[1..][i]) in m &&
          r.value == m[NormalizeKey(aliases[1..][i])] &&
          (forall j :: 0 <= j < i ==> NormalizeKey(aliases[1..][j]) !in m);
        assert NormalizeKey(aliases[i + 1]) in m;
        r
      else r
  }

  /** `buscarCampoFlexible($arr, $posiblesClaves)`; `null` when no alias matches. */
  function BuscarCampoFlexible(arr: Json, aliases: seq<string>): (r: Json)
    ensures FirstAlias(KeyMap(Members(arr)), aliases).None? ==> r == JNull
    ensures FirstAlias(KeyMap(Members(arr)), aliases).Some? ==> r == FirstAlias(KeyMap(Members(arr)), aliases).value
  {
    FirstAlias(KeyMap(Members(arr)), aliases).GetOr(JNull)
  }

  /** The lookup ignores spelling: when the first alias that matches anything
      is `aliases[a]` and the last key of that normal form is `ms[i]`, the
      result is `ms[i]`'s value. */
  lemma FlexibleFinds(ms: seq<(string, Json)>, aliases: seq<string>, a: nat, i: nat)
    requires a < |aliases| && i < |ms|
    requires NormalizeKey(aliases[a]) == NormalizeKey(ms[i].0)
    requires forall j :: i < j < |ms| ==> NormalizeKey(ms[j].0) != NormalizeKey(ms[i].0)
    requires forall b :: 0 <= b < a ==> forall j :: 0 <= j < |ms| ==> NormalizeKey(aliases[b]) != NormalizeKey(ms[j].0)
    ensures BuscarCampoFlexible(JObj(ms), aliases) == ms[i].1
  {
    var m := KeyMap(ms);
    KeyMapLastWins(ms, i);
    FirstAliasAt(m, aliases, a);
  }

  lemma {:induction false} FirstAliasAt(m: map<string, Json>, aliases: seq<string>, a: nat)
    requires a < |aliases| && NormalizeKey(aliases[a]) in m
    requires forall b :: 0 <= b < a ==> NormalizeKey(aliases[b]) !in m
    ensures FirstAlias(m, aliases) == Some(m[NormalizeKey(aliases[a])])
  {
    if a > 0 {
      FirstAliasAt(m, aliases[1..], a - 1);
    }
  }

  /** A flat object with no key of any alias's normal form gives `null`. */
  lemma FlexibleMisses(ms: seq<(string, Json)>, aliases: seq<string>)
    requires forall b, j :: 0 <= b < |aliases| && 0 <= j < |ms| ==> NormalizeKey(aliases[b]) != NormalizeKey(ms[j].0)
    ensures BuscarCampoFlexible(JObj(ms), aliases) == JNull
  {
  }

  // -------------------------------------------------------------- aliases

  const HtmlAliases: seq<string> := ["formatoHTML", "FormatoHTML", "htmlCodificado", "HTML"]
  const LineaAliases: seq<string> := ["linea Captura", "LineaCaptura", "lineaCaptura", "linea_captura"]
  const ImporteAliases: seq<string> := ["importe", "Importe", "monto", "Monto"]
  const VigenciaAliases: seq<string> := ["fechaVigencia", "FechaVigencia", "vigencia", "Vigencia"]

  // -------------------------------------------------------------- response

  /** The array `procesarRespuestaSat` returns. Entries a shape does not set
      read as `null`, which is how the caller reads every one of them. */
  datatype Processed = Processed(
    exito: bool,
    mensaje: string,
    jsonCompleto: Json,
    idDocumento: Json,
    tipoPago: Json,
    htmlCodificado: Json,
    htmlDecodificado: Option<string>,
    resultado: Json,
    lineaCaptura: Json,
    importeSat: Json,
    fechaVigenciaSat: Json,
    errores: Json,
    datosAdicionales: Json)

  const MensajeExito: string := "Respuesta del SAT procesada exitosamente"
  const MensajeSinHtml: string := "La respuesta del SAT no contiene el HTML codificado"

  /** The `errores` object recording missing markup. */
  function HtmlFaltante(detail: string): (j: Json)
    ensures Isset(j, "html_faltante")
  {
    GetMember([("html_faltante", JStr(detail))], 0);
    JObj([("html_faltante", JStr(detail))])
  }

  /** The decoded markup when the encoded value is truthy; an array there is
      a `TypeError` (outer `None`). */
  function DecodeIfPresent(h: Json, d: Decoders): (r: Option<Option<string>>)
    ensures r.None? <==> IsTruthy(h) && IsArray(h)
    ensures r == Some(None) <==> !IsTruthy(h)
  {
    if !IsTruthy(h) then Some(None)
    else match StringCast(h)
      case None => None
      case Some(s) => Some(Some(DecodeHtml(s, d)))
  }

  /** Case 1: `Acuse` is an array; its fields are read directly. */
  function FromAcuse(datos: Json, acuse: Json, d: Decoders): Option<Processed> {
    var h := Get(acuse, "HTML");
    match DecodeIfPresent(h, d)
    case None => None
    case Some(html) =>
      var ok := IsTruthy(h);
      Some(Processed(
        ok, if ok then MensajeExito else MensajeSinHtml, datos,
        Get(acuse, "IdDocumento"), Get(acuse, "TipoPago"), h, html,
        Get(acuse, "Resultado"), Get(acuse, "LineaCaptura"), Get(acuse, "Importe"),
        Get(acuse, "FechaVigencia"),
        if ok then Get(acuse, "Errores") else HtmlFaltante("No se encontró HTML en la respuesta"),
        JObj([("solicitud_id", Get(acuse, "Solicitud")), ("fecha_proceso", Get(acuse, "FechaProceso")),
              ("codigo_respuesta", Get(acuse, "CodigoRespuesta"))])))
  }

  /** Case 2: a flat object, read through the alias lists. */
  function FromFlat(datos: Json, d: Decoders): Option<Processed> {
    var h := BuscarCampoFlexible(datos, HtmlAliases);
    match DecodeIfPresent(h, d)
    case None => None
    case Some(html) =>
      var ok := IsTruthy(h);
      Some(Processed(
        ok, if ok then MensajeExito else MensajeSinHtml, datos,
        JNull, JNull, h, html, JNull,
        BuscarCampoFlexible(datos, LineaAliases), BuscarCampoFlexible(datos, ImporteAliases),
        BuscarCampoFlexible(datos, VigenciaAliases),
        if ok then JNull else HtmlFaltante("No se encontró HTML/formatoHTML en la respuesta"),
        JNull))
  }

  /** Where the encoded markup is read from: `Acuse.HTML` when `Acuse` is an
      array, the first flexible match of the aliases otherwise. */
  function HtmlField(datos: Json): Json {
    var acuse := Get(datos, "Acuse");
    if IsArray(acuse) then Get(acuse, "HTML") else BuscarCampoFlexible(datos, HtmlAliases)
  }

  /** An answer the normaliser can take without a `TypeError`. */
  predicate Processable(datos: Json) {
    IsArray(datos) && !(IsTruthy(HtmlField(datos)) && IsArray(HtmlField(datos)))
  }

  /** `procesarRespuestaSat($datos, ...)`. The parameter is typed `array`, so
      any other decoded value is a `TypeError`; so is an array in the HTML
      field. Neither is an `Exception`, so the `catch` does not apply: `None`. */
  function ProcesarRespuestaSat(datos: Json, d: Decoders): (r: Option<Processed>)
    ensures !IsArray(datos) ==> r.None?
    ensures r.Some? <==> Processable(datos)
    ensures r.Some? ==> r.value.jsonCompleto == datos
    ensures r.Some? ==> (r.value.exito <==> IsTruthy(r.value.htmlCodificado))
    ensures r.Some? ==> (r.value.htmlDecodificado.Some? <==> r.value.exito)
    ensures r.Some? && r.value.exito ==> !IsArray(r.value.htmlCodificado)
    ensures r.Some? && r.value.exito ==>
      r.value.htmlDecodificado == Some(DecodeHtml(StringCast(r.value.htmlCodificado).value, d))
    ensures r.Some? && !r.value.exito ==>
      r.value.mensaje == MensajeSinHtml && Isset(r.value.errores, "html_faltante")
    ensures IsArray(Get(datos, "Acuse")) && r.Some? ==>
      r.value.htmlCodificado == Get(Get(datos, "Acuse"), "HTML") &&
      r.value.lineaCaptura == Get(Get(datos, "Acuse"), "LineaCaptura")
    ensures IsArray(datos) && !IsArray(Get(datos, "Acuse")) && r.Some? ==>
      r.value.htmlCodificado == BuscarCampoFlexible(datos, HtmlAliases) &&
      r.value.lineaCaptura == BuscarCampoFlexible(datos, LineaAliases)
  {
    if !IsArray(datos) then None
    else
      var acuse := Get(datos, "Acuse");
      if IsArray(acuse) then FromAcuse(datos, acuse, d) else FromFlat(datos, d)
  }

  /** An `Acuse` answer whose `HTML` holds base64 of some markup is accepted
      and yields that markup, whatever else the answer holds. */
  lemma AcuseWithEncodedHtml(acuse: seq<(string, Json)>, rest: seq<(string, Json)>, b: seq<byte>, d: Decoders)
    requires Find(acuse, "HTML") == Some(JStr(Encode(b)))
    requires |b| > 0
    ensures var r := ProcesarRespuestaSat(JObj([("Acuse", JObj(acuse))] + rest), d);
      r.Some? && r.value.exito && r.value.htmlDecodificado == Some(EntityDecode(b, d))
  {
    var datos := JObj([("Acuse", JObj(acuse))] + rest);
    assert Get(datos, "Acuse") == JObj(acuse);
    DecodeHtmlOfEncoded(b, d);
    assert Encode(b) != "0" by {
      assert |Encode(b)| % 4 == 0;
    }
  }

  /** In the `Acuse` shape the flat field names play no part: two answers
      with the same `Acuse` give the same result apart from `json_completo`. */
  lemma AcuseIgnoresFlatFields(acuse: Json, rest1: seq<(string, Json)>, rest2: seq<(string, Json)>, d: Decoders)
    requires IsArray(acuse)
    ensures var r1 := ProcesarRespuestaSat(JObj([("Acuse", acuse)] + rest1), d);
      var r2 := ProcesarRespuestaSat(JObj([("Acuse", acuse)] + rest2), d);
      r1.Some? == r2.Some? && (r1.Some? ==> r1.value.(jsonCompleto := JNull) == r2.value.(jsonCompleto := JNull))
  {
    assert Get(JObj([("Acuse", acuse)] + rest1), "Acuse") == acuse;
    assert Get(JObj([("Acuse", acuse)] + rest2), "Acuse") == acuse;
  }
}
