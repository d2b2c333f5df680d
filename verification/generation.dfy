/** `generarLineaCaptura`: the last step of the flow. It reads the session,
    prices the selection through the cache, writes the record with its
    snapshot, builds the document, sends it to the tax authority, stores what
    came back, and closes the flow. The database row is a value here; the
    clock, the record's id, the HTTP exchange and the PHP primitives are
    inputs. */
module Generation {
  import opened Wrappers
  import opened Text
  import opened Json
  import opened Catalog
  import opened Cache
  import opened Persona
  import opened Flow
  import opened Fees
  import opened Snapshot
  import opened Document
  import opened Html
  import opened Client
  import opened Normalizer
  import opened Payload

  /** Everything the action reads besides the session. `lineaId` is the id
      the database assigns to the new row; the dates are the clock's readings,
      already formatted (`fechaVigencia` and `fechaVigenciaDocumento` are the
      same date, a month after generation, as the row's `Y-m-d` column and as
      the document's `d/m/Y` text); and `exchange` is the cURL call. */
  datatype Env = Env(
    db: Db,
    store: Store,
    md5: string -> string,
    lineaId: nat,
    year: nat,
    now: int,
    fechaGeneracion: string,
    fechaVigencia: string,
    fechaSolicitud: string,
    fechaVigenciaDocumento: string,
    fechaCausacion: string,
    cfg: Config,
    uuid1: string,
    uuid2: string,
    primitives: Primitives,
    exchange: Client.Request -> Transport,
    decode: string -> Decoded,
    decoders: Decoders)

  /** What the row holds about the tax authority's answer. */
  datatype SatColumns =
    | Procesado(jsonRecibido: Json, idDocumento: Json, tipoPago: Json, htmlCodificado: Json, resultado: Json,
                lineaCaptura: Json, importeSat: Json, fechaVigenciaSat: Json)
    | NoProcesado(erroresSat: string)
  {
    /** The `procesado_exitosamente` column. */
    predicate ProcesadoExitosamente() {
      Procesado?
    }
  }

  /** The `lineas_capturadas` row as the action leaves it. */
  datatype Record = Record(
    linea: Linea,
    dependenciaId: int,
    tramiteId: string,
    snapshot: Json,
    importeCuota: int,
    importeIva: int,
    fechaVigencia: string,
    solicitud: string,
    jsonGenerado: Json,
    sat: SatColumns)

  /** How the action ends. `Crashed` is an exception nothing catches: the
      not-found exception (a 404) that `findOrFail` throws for a dependency
      neither cached nor stored, before any row is created, or the `TypeError`
      of an answer the normaliser cannot take. */
  datatype Outcome =
    | SessionExpired
    | Generated(dependencia: Dependencia, lineas: seq<Line>, documento: Documento, request: Client.Request,
                respuesta: SatResponse, htmlDecodificado: Option<string>, record: Record, session: Session,
                store: Store)
    | Crashed

  const MensajeSesionExpirada: string := "Tu sesión ha expirado, por favor inicia de nuevo."

  /** The record's payer and amount columns. */
  function NewLinea(id: nat, p: PersonaData, totals: Totals): (l: Linea)
    ensures l.id == id && l.importeTotal == totals.importeTotal
    ensures l.tipoPersona == TipoPersonaCode(p)
    ensures l.curp == p.curp && l.rfc == p.rfc && l.razonSocial == p.razonSocial
    ensures l.nombres == p.nombres && l.apellidoPaterno == p.apellidoPaterno && l.apellidoMaterno == p.apellidoMaterno
  {
    Linea(id, TipoPersonaCode(p), p.curp, p.rfc, p.razonSocial, p.nombres, p.apellidoPaterno, p.apellidoMaterno,
          totals.importeTotal)
  }

  /** The update after the exchange: the normalised answer on success, the
      error text otherwise. `None` when the answer is not an array. */
  function SatUpdate(respuesta: SatResponse, d: Decoders): (r: Option<(SatColumns, Option<string>)>)
    ensures r.None? <==> respuesta.Received? && !Processable(respuesta.datos)
    ensures r.Some? ==> (r.value.0.ProcesadoExitosamente() <==> respuesta.Exito())
    ensures r.Some? && !respuesta.Received? ==> r.value.0 == NoProcesado(respuesta.error) && r.value.1.None?
    ensures r.Some? && respuesta.Received? ==>
      r.value.0.jsonRecibido == respuesta.datos &&
      r.value.1 == ProcesarRespuestaSat(respuesta.datos, d).value.htmlDecodificado
  {
    if !respuesta.Received? then Some((NoProcesado(respuesta.error), None))
    else
      var datos := respuesta.datos;
      match ProcesarRespuestaSat(datos, d)
      case None => None
      case Some(p) =>
        Some((Procesado(datos, p.idDocumento, p.tipoPago, p.htmlCodificado, p.resultado, p.lineaCaptura,
                        p.importeSat, p.fechaVigenciaSat), p.htmlDecodificado))
  }

  /** The dependency and the priced services, read through the cache, with
      the store the reads leave. */
  datatype Priced = Priced(dependencia: Dependencia, lineas: seq<Line>, store: Store)

  /** The cache reads of the action. `None` when the dependency is missing:
      `getDependencia`'s `findOrFail` throws, so nothing after it runs and no
      row is created. */
  function Price(s: Session, env: Env): Option<Priced>
    requires ReadyToPay(s)
  {
    var (depValue, store1) := GetDependencia(env.db, env.store, s.dependenciaId.value);
    var (tramsValue, store2) := GetTramites(env.db, store1, env.md5, SelectionIds(s.tramites.value));
    if depValue.None? || !depValue.value.Dep? || !tramsValue.Trams? then None
    else Some(Priced(depValue.value.dep, PriceLines(tramsValue.trams, s.tramites.value), store2))
  }

  /** Everything after pricing: the record, the document, the exchange, the
      update with the answer and the flush of the session. */
  function Complete(s: Session, env: Env, p: Priced): (r: Outcome)
    requires ReadyToPay(s)
    ensures r.Generated? || r.Crashed?
    ensures r.Generated? ==>
      r.dependencia == p.dependencia && r.lineas == p.lineas && r.store == p.store &&
      r.session == Finalize(s) && DeriveStep(r.session) == Inicio
    ensures r.Generated? ==>
      r.record.dependenciaId == s.dependenciaId.value &&
      r.record.tramiteId == TramiteIdString(s.tramites.value) &&
      r.record.linea.tipoPersona == TipoPersonaCode(s.persona.value)
    ensures r.Generated? ==>
      var t := ComputeTotals(r.lineas);
      r.record.importeCuota == t.importeCuota && r.record.importeIva == t.importeIva &&
      r.record.linea.importeTotal == t.importeTotal
    ensures r.Generated? ==>
      r.record.snapshot == BuildSnapshot(r.lineas, r.dependencia, env.fechaGeneracion) &&
      r.record.solicitud == Solicitud(r.dependencia, env.lineaId, env.year) &&
      r.documento.tramites == BuildTramites(r.lineas, r.record.linea.importeTotal, env.fechaCausacion)
    ensures r.Generated? ==>
      r.request == BuildRequest(env.cfg, DocumentoJson(r.documento), env.now, env.uuid1, env.uuid2, env.primitives) &&
      r.respuesta == Classify(env.exchange(r.request), env.decode, r.request.correlationId)
    ensures r.Generated? ==>
      r.record.jsonGenerado == DocumentoJson(r.documento) &&
      r.record.solicitud == r.documento.datosGenerales.solicitud &&
      r.documento.datosGenerales.datosLineaCaptura.importe == r.record.linea.importeTotal
    ensures r.Generated? ==> (r.record.sat.ProcesadoExitosamente() <==> r.respuesta.Exito())
    ensures r.Crashed? <==>
      var doc := BuildDocument(NewLinea(env.lineaId, s.persona.value, ComputeTotals(p.lineas)), p.dependencia, p.lineas,
                               env.year, env.fechaSolicitud, env.fechaVigenciaDocumento, env.fechaCausacion);
      var req := BuildRequest(env.cfg, DocumentoJson(doc), env.now, env.uuid1, env.uuid2, env.primitives);
      var resp := Classify(env.exchange(req), env.decode, req.correlationId);
      resp.Received? && !Processable(resp.datos)
  {
    var sel := s.tramites.value;
    var totals := ComputeTotals(p.lineas);
    var linea := NewLinea(env.lineaId, s.persona.value, totals);
    var documento := BuildDocument(linea, p.dependencia, p.lineas, env.year, env.fechaSolicitud,
                                   env.fechaVigenciaDocumento, env.fechaCausacion);
    var request := BuildRequest(env.cfg, DocumentoJson(documento), env.now, env.uuid1, env.uuid2, env.primitives);
    var respuesta := Classify(env.exchange(request), env.decode, request.correlationId);
    match SatUpdate(respuesta, env.decoders)
    case None => Crashed
    case Some((sat, html)) =>
      var record := Record(linea, s.dependenciaId.value, TramiteIdString(sel),
                           BuildSnapshot(p.lineas, p.dependencia, env.fechaGeneracion), totals.importeCuota,
                           totals.importeIva, env.fechaVigencia, documento.datosGenerales.solicitud,
                           DocumentoJson(documento), sat);
      Generated(p.dependencia, p.lineas, documento, request, respuesta, html, record, Finalize(s), p.store)
  }

  /** `generarLineaCaptura` on session `s`. */
  function GenerarLineaCaptura(s: Session, env: Env): (r: Outcome)
    ensures r.SessionExpired? <==> !ReadyToPay(s)
    ensures r.Generated? ==> ReadyToPay(s)
    ensures r.Generated? ==> r.session == Finalize(s) && DeriveStep(r.session) == Inicio
    ensures r.Generated? ==>
      r.record.dependenciaId == s.dependenciaId.value &&
      r.record.tramiteId == TramiteIdString(s.tramites.value) &&
      r.record.linea.tipoPersona == TipoPersonaCode(s.persona.value)
    ensures r.Generated? ==>
      var t := ComputeTotals(r.lineas);
      r.record.importeCuota == t.importeCuota && r.record.importeIva == t.importeIva &&
      r.record.linea.importeTotal == t.importeTotal
    ensures r.Generated? ==>
      r.record.snapshot == BuildSnapshot(r.lineas, r.dependencia, env.fechaGeneracion) &&
      r.record.solicitud == Solicitud(r.dependencia, env.lineaId, env.year) &&
      r.documento.tramites == BuildTramites(r.lineas, r.record.linea.importeTotal, env.fechaCausacion)
    ensures r.Generated? ==>
      r.request == BuildRequest(env.cfg, DocumentoJson(r.documento), env.now, env.uuid1, env.uuid2, env.primitives) &&
      r.respuesta == Classify(env.exchange(r.request), env.decode, r.request.correlationId)
    ensures r.Generated? ==>
      r.record.jsonGenerado == DocumentoJson(r.documento) &&
      r.record.solicitud == r.documento.datosGenerales.solicitud &&
      r.documento.datosGenerales.datosLineaCaptura.importe == r.record.linea.importeTotal
    ensures r.Generated? ==> (r.record.sat.ProcesadoExitosamente() <==> r.respuesta.Exito())
    ensures r.Generated? ==> Price(s, env) == Some(Priced(r.dependencia, r.lineas, r.store))
  {
    if !ReadyToPay(s) then SessionExpired
    else
      match Price(s, env)
      case None => Crashed
      case Some(p) => Complete(s, env, p)
  }

  // ------------------------------------------------------------ properties

  /** The record's three amounts reconcile: the rounded total is whole pesos
      within half a peso of fees plus tax, and with at least one service the
      document's per-service totals add up to it. */
  lemma GeneratedTotalsReconcile(s: Session, env: Env)
    requires GenerarLineaCaptura(s, env).Generated?
    ensures var r := GenerarLineaCaptura(s, env).record;
      r.linea.importeTotal % 100 == 0 &&
      -50 <= r.linea.importeTotal - (r.importeCuota + r.importeIva) <= 50
    ensures var o := GenerarLineaCaptura(s, env);
      |o.lineas| > 0 ==> SumTotalTramite(o.documento.tramites) == o.record.linea.importeTotal
  {
    var o := GenerarLineaCaptura(s, env);
    if |o.lineas| > 0 {
      TotalTramiteSumsToTotal(o.lineas, env.fechaCausacion);
    }
  }

  /** The body sent is the stored `json_generado`, and the authority reads in
      it the record's request id and its `importe_total` as a `decimal:2`
      string. */
  lemma GeneratedBodyCarriesRecord(s: Session, env: Env)
    requires GenerarLineaCaptura(s, env).Generated?
    ensures var o := GenerarLineaCaptura(s, env);
      o.request.body == env.primitives.jsonEncode(o.record.jsonGenerado)
    ensures var o := GenerarLineaCaptura(s, env);
      SolicitudOf(o.record.jsonGenerado) == JStr(o.record.solicitud) &&
      ImporteOf(o.record.jsonGenerado) == JStr(Decimal2(o.record.linea.importeTotal))
  {
    SolicitudAndImporteSent(GenerarLineaCaptura(s, env).documento);
  }

  /** The stored `tramite_id` reads back as the session's selection. */
  lemma GeneratedSelectionRecoverable(s: Session, env: Env)
    requires GenerarLineaCaptura(s, env).Generated?
    ensures ParseTramiteIdString(GenerarLineaCaptura(s, env).record.tramiteId) == s.tramites
  {
    TramiteIdStringRoundTrip(s.tramites.value);
  }

  /** The snapshot is valid exactly when some selected service still exists. */
  lemma GeneratedSnapshotValid(s: Session, env: Env)
    requires GenerarLineaCaptura(s, env).Generated?
    ensures var o := GenerarLineaCaptura(s, env);
      HasValidSnapshot(o.record.snapshot) <==> |o.lineas| > 0
  {
    var o := GenerarLineaCaptura(s, env);
    BuiltSnapshotValid(o.lineas, o.dependencia, env.fechaGeneracion);
  }

  /** On a cold cache the action prices exactly the database rows of the
      selected ids. */
  lemma ColdCachePricesDatabaseRows(s: Session, env: Env)
    requires ReadyToPay(s) && Price(s, env).Some?
    requires TramitesKey(env.md5, SelectionIds(s.tramites.value)) !in env.store
    ensures Price(s, env).value.lineas ==
      PriceLines(TramitesWhereIn(env.db, SelectionIds(s.tramites.value)), s.tramites.value)
  {
    var ids := SelectionIds(s.tramites.value);
    var id := s.dependenciaId.value;
    var store1 := GetDependencia(env.db, env.store, id).1;
    assert DependenciaKey(id)[0] == 'd' && TramitesKey(env.md5, ids)[0] == 't';
    assert TramitesKey(env.md5, ids) !in store1;
    assert GetTramites(env.db, store1, env.md5, ids).0 == Trams(TramitesWhereIn(env.db, ids));
  }

  /** With a well-formed cache the reads succeed whenever the dependency exists. */
  lemma PriceSucceeds(s: Session, env: Env)
    requires ReadyToPay(s)
    requires WellFormed(env.store)
    requires FindDependencia(env.db.dependencias, s.dependenciaId.value).Some?
    ensures Price(s, env).Some?
  {
    var (depValue, store1) := GetDependencia(env.db, env.store, s.dependenciaId.value);
    GetDependenciaWellFormed(env.db, env.store, s.dependenciaId.value);
    GetTramitesWellFormed(env.db, store1, env.md5, SelectionIds(s.tramites.value));
  }

  /** The action never crashes on a ready session when the cache is well
      formed, the dependency exists and any answer that arrives is one the
      normaliser can take. */
  lemma GenerationCompletes(s: Session, env: Env)
    requires ReadyToPay(s)
    requires WellFormed(env.store)
    requires FindDependencia(env.db.dependencias, s.dependenciaId.value).Some?
    requires forall body :: env.decode(body).Parsed? ==> Processable(env.decode(body).value)
    ensures GenerarLineaCaptura(s, env).Generated?
  {
    PriceSucceeds(s, env);
  }
}
