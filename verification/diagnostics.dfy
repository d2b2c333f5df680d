/** The diagnostic helpers over a stored answer file: the controller's
    `validarYDecodificarJson` and `corregirJsonTruncado`, and
    `HtmlDecoderService::obtenerYDecodificarCodigo`. The file's content is an
    input (`None` when the file does not exist); each character stands for
    one byte, so `strlen` is the length. Writing the corrected file back is
    the caller's business: the correction returns the new content. */
module Diagnostics {
  import opened Wrappers
  import opened Text
  import opened Base64
  import opened Json
  import opened Html

  // -------------------------------------------------------------- substr

  function Min(a: nat, b: nat): nat {
    if a <= b then a else b
  }

  /** `substr($s, 0, $n)`. */
  function Head(s: string, n: nat): (r: string)
    ensures |r| == Min(n, |s|) && r <= s
  {
    s[..Min(n, |s|)]
  }

  /** `substr($s, -$n)` for `n > 0`: the last `n` characters, or all of them. */
  function Tail(s: string, n: nat): (r: string)
    ensures |r| == Min(n, |s|) && r == s[|s| - |r|..]
  {
    s[|s| - Min(n, |s|)..]
  }

  /** `substr($s, -1) !== '}'` after `trim`. */
  predicate EndsWithBrace(s: string) {
    LastChar(Trim(s)) == "}"
  }

  // ---------------------------------------------------- control characters

  /** Bytes below 32 other than tab, line feed and carriage return. */
  predicate IsProblemControl(c: char) {
    c as int < 32 && c as int != 9 && c as int != 10 && c as int != 13
  }

  function HexDigit(d: nat): char
    requires d < 16
  {
    if d < 10 then ('0' as int + d) as char else ('a' as int + (d - 10)) as char
  }

  /** `dechex`: lower-case hexadecimal without leading zeros. */
  function Hex(n: nat): (r: string)
    ensures |r| >= 1
    decreases n
  {
    if n < 16 then [HexDigit(n)] else Hex(n / 16) + [HexDigit(n % 16)]
  }

  datatype ControlChar = ControlChar(posicion: nat, ascii: nat, hex: string)

  /** The `caracteres_control` entries of `s`, in position order. */
  function ControlChars(s: string): (cs: seq<ControlChar>)
    ensures |cs| <= |s|
    ensures forall k :: 0 <= k < |cs| ==>
      cs[k].posicion < |s| && IsProblemControl(s[cs[k].posicion]) &&
      cs[k].ascii == s[cs[k].posicion] as int && cs[k].hex == Hex(cs[k].ascii)
    ensures forall k, l :: 0 <= k < l < |cs| ==> cs[k].posicion < cs[l].posicion
  {
    if |s| == 0 then []
    else
      var init := s[..|s| - 1];
      var rest := ControlChars(init);
      assert forall k :: 0 <= k < |rest| ==> s[rest[k].posicion] == init[rest[k].posicion];
      if IsProblemControl(s[|s| - 1]) then
        var c := s[|s| - 1] as int;
        rest + [ControlChar(|s| - 1, c, Hex(c))]
      else
        rest
  }

  /** Every problem character of `s` has its entry. */
  lemma {:induction false} ControlCharsComplete(s: string, i: nat)
    requires i < |s| && IsProblemControl(s[i])
    ensures exists k :: 0 <= k < |ControlChars(s)| && ControlChars(s)[k].posicion == i
  {
    var init := s[..|s| - 1];
    var rest := ControlChars(init);
    var cs := ControlChars(s);
    if i == |s| - 1 {
      assert cs[|cs| - 1].posicion == i;
    } else {
      assert init[i] == s[i];
      ControlCharsComplete(init, i);
      var k :| 0 <= k < |rest| && rest[k].posicion == i;
      assert cs[k] == rest[k];
    }
  }

  /** The scanning loop of `validarYDecodificarJson`. */
  method ScanControlChars(s: string) returns (cs: seq<ControlChar>)
    ensures cs == ControlChars(s)
  {
    cs := [];
    var i := 0;
    while i < |s|
      invariant 0 <= i <= |s|
      invariant cs == ControlChars(s[..i])
    {
      var ascii := s[i] as int;
      if ascii < 32 && ascii != 9 && ascii != 10 && ascii != 13 {
        cs := cs + [ControlChar(i, ascii, Hex(ascii))];
      }
      assert s[..i + 1][..i] == s[..i];
      i := i + 1;
    }
    assert s[..i] == s;
  }

  // ------------------------------------------------- validarYDecodificarJson

  datatype FileInfo = FileInfo(tamanoBytes: nat, primeros100: string, ultimos100: string)

  function InfoOf(c: string): FileInfo {
    FileInfo(|c|, Head(c, 100), Tail(c, 100))
  }

  /** The `estructura` flags. */
  datatype Estructura = Estructura(tieneDatosGenerales: bool, tieneAcuse: bool, tieneHtml: bool)

  /** `$datosJson['Acuse']['HTML']` as a string; `None` when it is an array. */
  function AcuseHtml(datos: Json): Option<string> {
    StringCast(Get(Get(datos, "Acuse"), "HTML"))
  }

  function EstructuraOf(datos: Json): Estructura {
    Estructura(Isset(datos, "DatosGenerales"), Isset(datos, "Acuse"), Isset(Get(datos, "Acuse"), "HTML"))
  }

  /** Brace counts of the raw content. */
  datatype Llaves = Llaves(abiertas: nat, cerradas: nat) {
    predicate Balanceado() {
      abiertas == cerradas
    }
  }

  /** The array `validarYDecodificarJson` returns, one variant per return
      statement; `Uncaught` is a `TypeError` the `catch (\Exception)` lets through. */
  datatype Validation =
    | FileMissing(ruta: string)
    | Incomplete(info: FileInfo, ultimoCaracter: string)
    | JsonInvalid(info: FileInfo, mensajeJson: string, codigoError: int, caracteresControl: seq<ControlChar>, llaves: Llaves)
    | HtmlMissing(info: FileInfo, estructura: Estructura, clavesDisponibles: seq<string>)
    | HtmlUndecodable(info: FileInfo, longitudBase64: nat, primeros50: string)
    | Valid(info: FileInfo, estructura: Estructura, datosJson: Json, htmlBase64: string, htmlDecodificado: string,
            controlEncontrados: nat, llaves: Llaves)
    | Uncaught
  {
    /** The `exito` flag. */
    predicate Exito() {
      Valid?
    }

    /** The `error` (or `mensaje`) text of each return statement. */
    function Mensaje(): string {
      match this
      case FileMissing(_) => "El archivo no existe en la ruta especificada"
      case Incomplete(_, _) => "El archivo JSON está incompleto - no termina con \"}\""
      case JsonInvalid(_, m, _, _, _) => "Error al decodificar JSON: " + m
      case HtmlMissing(_, _, _) => "No se encontró el campo HTML en la estructura JSON"
      case HtmlUndecodable(_, _, _) => "Error al decodificar el HTML base64"
      case Valid(_, _, _, _, _, _, _) => "JSON validado y HTML decodificado exitosamente"
      case Uncaught => ""
    }
  }

  /** `validarYDecodificarJson` over the file's content. The checks run in
      order: existence, trailing brace of the trimmed text, JSON decoding of
      the raw text, presence of `Acuse.HTML`, non-empty decoded markup. */
  function ValidarYDecodificarJson(ruta: string, contenido: Option<string>, decode: string -> Decoded, d: Decoders): (r: Validation)
    ensures r.FileMissing? <==> contenido.None?
    ensures r.Incomplete? <==> contenido.Some? && !EndsWithBrace(contenido.value)
    ensures r.JsonInvalid? <==> contenido.Some? && EndsWithBrace(contenido.value) && decode(contenido.value).ParseError?
    ensures r.JsonInvalid? ==>
      r.caracteresControl == ControlChars(contenido.value) &&
      r.llaves == Llaves(CountChar(contenido.value, '{'), CountChar(contenido.value, '}'))
    ensures r.Valid? ==>
      decode(contenido.value) == Parsed(r.datosJson) && r.estructura.tieneHtml &&
      Some(r.htmlBase64) == AcuseHtml(r.datosJson) &&
      r.htmlDecodificado == DecodeHtml(r.htmlBase64, d) && Truthy(r.htmlDecodificado) &&
      r.controlEncontrados == |ControlChars(contenido.value)|
    ensures r.HtmlUndecodable? ==>
      contenido.Some? && decode(contenido.value).Parsed? && AcuseHtml(decode(contenido.value).value).Some?
    ensures r.HtmlUndecodable? ==>
      !Truthy(DecodeHtml(AcuseHtml(decode(contenido.value).value).value, d))
  {
    match contenido
    case None => FileMissing(ruta)
    case Some(c) =>
      var info := InfoOf(c);
      var limpio := Trim(c);
      if LastChar(limpio) != "}" then Incomplete(info, LastChar(limpio))
      else
        var control := ControlChars(c);
        var llaves := Llaves(CountChar(c, '{'), CountChar(c, '}'));
        match decode(c)
        case ParseError(code, msg) => JsonInvalid(info, msg, code, control, llaves)
        case Parsed(datos) =>
          var estructura := EstructuraOf(datos);
          if !estructura.tieneHtml then
            if IsArray(datos) then HtmlMissing(info, estructura, Keys(datos)) else Uncaught
          else
            match AcuseHtml(datos)
            case None => Uncaught
            case Some(b64) =>
              var html := DecodeHtml(b64, d);
              if !Truthy(html) then HtmlUndecodable(info, |b64|, Head(b64, 50))
              else Valid(info, estructura, datos, b64, html, |control|, llaves)
  }

  /** A file whose `Acuse.HTML` is base64 of markup that decodes to
      something non-empty validates, and yields that markup. */
  lemma ValidAcuseFile(ruta: string, c: string, datos: Json, b: seq<byte>, decode: string -> Decoded, d: Decoders)
    requires EndsWithBrace(c)
    requires decode(c) == Parsed(datos)
    requires Get(Get(datos, "Acuse"), "HTML") == JStr(Encode(b))
    requires Truthy(EntityDecode(b, d))
    ensures var r := ValidarYDecodificarJson(ruta, Some(c), decode, d);
      r.Valid? && r.htmlBase64 == Encode(b) && r.htmlDecodificado == EntityDecode(b, d)
  {
    DecodeHtmlOfEncoded(b, d);
    assert AcuseHtml(datos) == Some(Encode(b));
    assert EstructuraOf(datos).tieneHtml;
    assert Truthy(DecodeHtml(Encode(b), d));
  }

  // --------------------------------------------------- corregirJsonTruncado

  predicate IsSpaceOrQuote(c: char) {
    c == ' ' || c == '"'
  }

  /** The result of `corregirJsonTruncado`; `Corregido` carries the content
      written back. */
  datatype Correccion =
    | ArchivoInexistente
    | SinCambios
    | Corregido(contenido: string, caracteresRemovidos: nat)
  {
    /** The `cambios_realizados` flag. */
    predicate CambiosRealizados() {
      Corregido?
    }
  }

  /** `rtrim($contenido, ' "')`, reported as unchanged when nothing was removed. */
  function CorregirJsonTruncado(contenido: Option<string>): (r: Correccion)
    ensures r.ArchivoInexistente? <==> contenido.None?
    ensures r.SinCambios? <==>
      contenido.Some? && (|contenido.value| == 0 || !IsSpaceOrQuote(contenido.value[|contenido.value| - 1]))
    ensures r.Corregido? ==>
      r.caracteresRemovidos > 0 &&
      |r.contenido| + r.caracteresRemovidos == |contenido.value| &&
      r.contenido == contenido.value[..|r.contenido|] &&
      (forall i :: |r.contenido| <= i < |contenido.value| ==> IsSpaceOrQuote(contenido.value[i])) &&
      (|r.contenido| > 0 ==> !IsSpaceOrQuote(r.contenido[|r.contenido| - 1]))
  {
    match contenido
    case None => ArchivoInexistente
    case Some(c) =>
      var t := RTrimBy(c, IsSpaceOrQuote);
      if t == c then SinCambios
      else
        assert |t| < |c|;
        Corregido(t, |c| - |t|)
  }

  /** A corrected file needs no second correction. */
  lemma CorregirIdempotent(c: string)
    ensures var r := CorregirJsonTruncado(Some(c));
      r.Corregido? ==> CorregirJsonTruncado(Some(r.contenido)) == SinCambios
  {
  }

  // ------------------------------------------- obtenerYDecodificarCodigo

  /** The array `obtenerYDecodificarCodigo` returns. */
  datatype Codigo =
    | CodigoInexistente
    | CodigoTruncado(tamanoArchivo: nat, ultimos50: string)
    | CodigoJsonInvalido(mensajeJson: string, codigoError: int, tamanoArchivo: nat, primeros100: string, ultimos100: string)
    | CodigoSinHtml(clavesDisponibles: seq<string>, estructuraAcuse: Option<seq<string>>)
    | CodigoDecodificado(datosOriginales: Json, codigoBase64: Json, htmlDecodificado: string)
    | CodigoUncaught
  {
    /** The `error` flag. */
    predicate Error() {
      !CodigoDecodificado?
    }

    /** The `mensaje` text of each error return. */
    function Mensaje(): string {
      match this
      case CodigoInexistente => "El archivo codigo.json no existe en la ruta especificada."
      case CodigoTruncado(_, _) => "El archivo JSON está incompleto o truncado. Debe terminar con \"}\"."
      case CodigoJsonInvalido(m, _, _, _, _) => "Error al decodificar el JSON: " + m
      case CodigoSinHtml(_, _) => "No se encontró el campo HTML en el JSON."
      case _ => ""
    }
  }

  /** `obtenerYDecodificarCodigo` over the content of `codigo.json`. Unlike
      the controller's validator it parses the trimmed text. */
  function ObtenerYDecodificarCodigo(contenido: Option<string>, decode: string -> Decoded, d: Decoders): (r: Codigo)
    ensures r.CodigoInexistente? <==> contenido.None?
    ensures r.CodigoTruncado? <==> contenido.Some? && !EndsWithBrace(contenido.value)
    ensures r.CodigoJsonInvalido? <==>
      contenido.Some? && EndsWithBrace(contenido.value) && decode(Trim(contenido.value)).ParseError?
    ensures r.CodigoDecodificado? ==>
      decode(Trim(contenido.value)) == Parsed(r.datosOriginales) &&
      r.codigoBase64 == Get(Get(r.datosOriginales, "Acuse"), "HTML") && r.codigoBase64 != JNull &&
      Some(r.htmlDecodificado) == DecodificarHtmlBase64(r.codigoBase64, d)
    ensures r.CodigoSinHtml? ==> r.clavesDisponibles == Keys(decode(Trim(contenido.value)).value)
  {
    match contenido
    case None => CodigoInexistente
    case Some(raw) =>
      var c := Trim(raw);
      if LastChar(c) != "}" then CodigoTruncado(|c|, Tail(c, 50))
      else match decode(c)
        case ParseError(code, msg) => CodigoJsonInvalido(msg, code, |c|, Head(c, 100), Tail(c, 100))
        case Parsed(datos) =>
          var acuse := Get(datos, "Acuse");
          if !Isset(acuse, "HTML") then
            if !IsArray(datos) then CodigoUncaught
            else if acuse == JNull then CodigoSinHtml(Keys(datos), None)
            else if IsArray(acuse) then CodigoSinHtml(Keys(datos), Some(Keys(acuse)))
            else CodigoUncaught
          else
            match DecodificarHtmlBase64(Get(acuse, "HTML"), d)
            case None => CodigoUncaught
            case Some(html) => CodigoDecodificado(datos, Get(acuse, "HTML"), html)
  }

  /** The service and the controller's validator agree on a good file: both
      accept it and produce the same markup, when its trimmed and raw text
      parse alike. */
  lemma ServiceAgreesWithValidator(ruta: string, c: string, decode: string -> Decoded, d: Decoders)
    requires decode(Trim(c)) == decode(c)
    ensures var v := ValidarYDecodificarJson(ruta, Some(c), decode, d);
      var o := ObtenerYDecodificarCodigo(Some(c), decode, d);
      v.Valid? ==> o.CodigoDecodificado? && o.htmlDecodificado == v.htmlDecodificado
  {
    var v := ValidarYDecodificarJson(ruta, Some(c), decode, d);
    if v.Valid? {
      var datos := v.datosJson;
      var codigo := Get(Get(datos, "Acuse"), "HTML");
      assert decode(Trim(c)) == Parsed(datos);
      assert Isset(Get(datos, "Acuse"), "HTML");
      assert StringCast(codigo) == Some(v.htmlBase64);
      assert DecodificarHtmlBase64(codigo, d) == Some(v.htmlDecodificado);
    }
  }
}
