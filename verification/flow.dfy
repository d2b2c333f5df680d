/** The capture flow's step machine: the four session keys, the
    `EnsureValidStep` middleware that derives the one page a session may see,
    the controller actions that write those keys, the guards and cache reads
    each page handler applies on its own, and request sequences over the
    routes of `routes/web.php`. */
module Flow {
  import opened Wrappers
  import opened Persona
  import Catalog
  import Cache

  /** One entry of `tramites_seleccionados`: a service id and its quantity. */
  datatype Selected = Selected(id: int, cantidad: int)

  /** The flow's session keys; `None` is a key that `has()` reports absent. */
  datatype Session = Session(
    dependenciaId: Option<int>,
    tramites: Option<seq<Selected>>,
    persona: Option<PersonaData>,
    finalizada: Option<bool>)

  const Empty := Session(None, None, None, None)

  /** The named GET routes of the flow. Only the last three are guarded. */
  datatype Route = Inicio | TramiteShow | PersonaShow | PagoShow

  function RouteName(r: Route): string {
    match r
    case Inicio => "inicio"
    case TramiteShow => "tramite.show"
    case PersonaShow => "persona.show"
    case PagoShow => "pago.show"
  }

  predicate Guarded(r: Route) {
    r != Inicio
  }

  // ------------------------------------------------------- step derivation

  /** The flow's stages, in order; each names the data the session has
      gathered so far. */
  datatype Stage = Start | AuthorityChosen | ServicesChosen | PayerCaptured | Finalized

  /** Reference reading of the derivation as a precedence list: the finished
      flag beats the payer, the payer beats the selection, the selection beats
      the authority. */
  function StageOf(s: Session): Stage {
    if s.finalizada.Some? then Finalized
    else if s.persona.Some? then PayerCaptured
    else if s.tramites.Some? then ServicesChosen
    else if s.dependenciaId.Some? then AuthorityChosen
    else Start
  }

  function StageRoute(st: Stage): Route {
    match st
    case Start => Inicio
    case AuthorityChosen => TramiteShow
    case ServicesChosen => PersonaShow
    case PayerCaptured => PagoShow
    case Finalized => Inicio
  }

  /** `EnsureValidStep::handle`'s `$correctStepRoute`: four checks applied in
      order, each later one overriding the earlier. */
  function DeriveStep(s: Session): (r: Route)
    ensures r == StageRoute(StageOf(s))
  {
    var r0 := Inicio;
    var r1 := if s.dependenciaId.Some? && s.tramites.None? then TramiteShow else r0;
    var r2 := if s.tramites.Some? && s.persona.None? then PersonaShow else r1;
    var r3 := if s.persona.Some? then PagoShow else r2;
    if s.finalizada.Some? then Inicio else r3
  }

  /** The middleware's outcome: hand the request on, or redirect. */
  datatype Decision = Forward | RedirectTo(target: Route)

  /** `EnsureValidStep::handle`: forward exactly when the requested route is
      the derived one, otherwise redirect to the derived route. The session is
      only read. */
  function Handle(current: Route, s: Session): (d: Decision)
    ensures d == Forward <==> current == DeriveStep(s)
    ensures d.RedirectTo? ==> d.target == DeriveStep(s) && d.target != current
  {
    var correct := DeriveStep(s);
    if current != correct then RedirectTo(correct) else Forward
  }

  /** The derived route is one of the four flow pages. */
  lemma DeriveStepRange(s: Session)
    ensures DeriveStep(s) in {Inicio, TramiteShow, PersonaShow, PagoShow}
  {
  }

  /** The precedence rules of the derivation, one per session shape. */
  lemma DeriveStepCases(s: Session)
    ensures s == Empty ==> DeriveStep(s) == Inicio
    ensures s.finalizada.Some? ==> DeriveStep(s) == Inicio
    ensures s.finalizada.None? && s.persona.Some? ==> DeriveStep(s) == PagoShow
    ensures s.finalizada.None? && s.persona.None? && s.tramites.Some? ==> DeriveStep(s) == PersonaShow
    ensures s.finalizada.None? && s.persona.None? && s.tramites.None? && s.dependenciaId.Some?
      ==> DeriveStep(s) == TramiteShow
  {
  }

  /** Following the middleware's redirect on the same session is never
      redirected again: the session is unchanged and the target is the derived route. */
  lemma RedirectTargetIsForwarded(current: Route, s: Session)
    ensures Handle(current, s).RedirectTo? ==> Handle(Handle(current, s).target, s) == Forward
  {
  }

  // ------------------------------------------------------ session writers

  /** `index`: forgets all four keys. */
  function Index(s: Session): (t: Session)
    ensures t == Empty
    ensures DeriveStep(t) == Inicio
  {
    s.(dependenciaId := None, tramites := None, persona := None, finalizada := None)
  }

  /** `storeDependenciaSelection`: puts `dependenciaId`. */
  function StoreDependencia(s: Session, id: int): (t: Session)
    ensures t.dependenciaId == Some(id)
    ensures t.tramites == s.tramites && t.persona == s.persona && t.finalizada == s.finalizada
  {
    s.(dependenciaId := Some(id))
  }

  /** `storeTramiteSelection`'s pairing: the i-th id with the i-th quantity,
      or 1 when there is no i-th quantity. */
  function PairSelection(ids: seq<int>, cantidades: seq<int>): (sel: seq<Selected>)
    ensures |sel| == |ids|
    ensures forall i :: 0 <= i < |ids| ==> sel[i].id == ids[i]
    ensures forall i :: 0 <= i < |ids| ==>
      sel[i].cantidad == (if i < |cantidades| then cantidades[i] else 1)
  {
    seq(|ids|, i requires 0 <= i < |ids| => Selected(ids[i], if i < |cantidades| then cantidades[i] else 1))
  }

  /** `storeTramiteSelection`: puts `tramites_seleccionados`. */
  function StoreTramites(s: Session, ids: seq<int>, cantidades: seq<int>): (t: Session)
    ensures t.tramites == Some(PairSelection(ids, cantidades))
    ensures t.dependenciaId == s.dependenciaId && t.persona == s.persona && t.finalizada == s.finalizada
  {
    s.(tramites := Some(PairSelection(ids, cantidades)))
  }

  /** `storePersonaData`: puts `persona_data`. */
  function StorePersonaData(s: Session, form: PersonaForm): (t: Session)
    ensures t.persona == Some(StorePersona(form))
    ensures t.dependenciaId == s.dependenciaId && t.tramites == s.tramites && t.finalizada == s.finalizada
  {
    s.(persona := Some(StorePersona(form)))
  }

  /** The end of generation: `flush()` then put `linea_capturada_finalizada`. */
  function Finalize(s: Session): (t: Session)
    ensures t == Empty.(finalizada := Some(true))
    ensures DeriveStep(t) == Inicio
  {
    Empty.(finalizada := Some(true))
  }

  /** `regresar`: forgets the key owned by the step being left and names the
      page to redirect to; an unknown or missing step forgets nothing. */
  function Regresar(s: Session, pasoActual: Option<string>): (res: (Session, Route))
    ensures pasoActual == Some("tramite") ==> res == (s.(dependenciaId := None), Inicio)
    ensures pasoActual == Some("persona") ==> res == (s.(tramites := None), TramiteShow)
    ensures pasoActual == Some("pago") ==> res == (s.(persona := None), PersonaShow)
    ensures pasoActual !in {Some("tramite"), Some("persona"), Some("pago")} ==> res == (s, Inicio)
  {
    match pasoActual
    case Some(p) =>
      if p == "tramite" then (s.(dependenciaId := None), Inicio)
      else if p == "persona" then (s.(tramites := None), TramiteShow)
      else if p == "pago" then (s.(persona := None), PersonaShow)
      else (s, Inicio)
    case None => (s, Inicio)
  }

  // ------------------------------------------------------- handler guards

  /** PHP truthiness of the stored dependency id. */
  predicate DependenciaTruthy(s: Session) {
    s.dependenciaId.Some? && s.dependenciaId.value != 0
  }

  /** `!empty($tramiteIds)`. */
  predicate TramitesNonEmpty(s: Session) {
    s.tramites.Some? && |s.tramites.value| > 0
  }

  datatype Page = InicioPage | TramitePage | PersonaPage | PagoPage

  /** What a handler answers: a rendered view, a redirect, or the 404 that
      `findOrFail` raises for a dependency that is neither cached nor stored. */
  datatype Response = Render(page: Page) | Redirect(to: Route) | NotFound

  /** What the pages read besides the session: the catalog tables and the
      digest used for id-list cache keys. */
  datatype Backend = Backend(db: Catalog.Db, md5: string -> string)

  /** The ids of a selection, in order (`array_column($tramiteIds, 'id')`). */
  function SelectionIds(sel: seq<Selected>): (ids: seq<int>)
    ensures |ids| == |sel|
    ensures forall i :: 0 <= i < |sel| ==> ids[i] == sel[i].id
  {
    seq(|sel|, i requires 0 <= i < |sel| => sel[i].id)
  }

  /** `showTramite`: needs a truthy dependency id, else back to inicio; then
      reads the dependency and its services through the cache, either of
      which can fail with a 404. */
  function ShowTramite(db: Catalog.Db, store: Cache.Store, s: Session): (r: (Response, Cache.Store))
    ensures r.0 == Redirect(Inicio) <==> !DependenciaTruthy(s)
    ensures r.0 in {Render(TramitePage), Redirect(Inicio), NotFound}
    ensures !DependenciaTruthy(s) ==> r.1 == store
    ensures DependenciaTruthy(s) && Catalog.FindDependencia(db.dependencias, s.dependenciaId.value).Some?
      ==> r.0 == Render(TramitePage)
    ensures DependenciaTruthy(s) && Cache.DependenciaKey(s.dependenciaId.value) !in store &&
      Catalog.FindDependencia(db.dependencias, s.dependenciaId.value).None?
      ==> r == (NotFound, store)
    ensures forall k :: k in store ==> k in r.1 && r.1[k] == store[k]
  {
    if !DependenciaTruthy(s) then (Redirect(Inicio), store)
    else
      var id := s.dependenciaId.value;
      var (dep, store1) := Cache.GetDependencia(db, store, id);
      if dep.None? then (NotFound, store1)
      else
        var (trams, store2) := Cache.GetTramitesByDependencia(db, store1, id);
        if trams.None? then (NotFound, store2) else (Render(TramitePage), store2)
  }

  /** `showPersonaForm`: needs both a dependency and a selection, else to tramite.show. */
  function ShowPersonaForm(s: Session): (r: Response)
    ensures r == Render(PersonaPage) <==> s.dependenciaId.Some? && s.tramites.Some?
    ensures r != Render(PersonaPage) ==> r == Redirect(TramiteShow)
  {
    if s.dependenciaId.None? || s.tramites.None? then Redirect(TramiteShow) else Render(PersonaPage)
  }

  /** The guard shared by `showPagoPage` and `generarLineaCaptura`. */
  predicate ReadyToPay(s: Session) {
    DependenciaTruthy(s) && TramitesNonEmpty(s) && s.persona.Some?
  }

  /** `showPagoPage`: needs a truthy dependency, a non-empty selection and
      payer data, else back to inicio; then reads the dependency (a 404 when
      it is missing) and the selected services through the cache. */
  function ShowPagoPage(b: Backend, store: Cache.Store, s: Session): (r: (Response, Cache.Store))
    ensures r.0 == Redirect(Inicio) <==> !ReadyToPay(s)
    ensures r.0 in {Render(PagoPage), Redirect(Inicio), NotFound}
    ensures !ReadyToPay(s) ==> r.1 == store
    ensures ReadyToPay(s) && Catalog.FindDependencia(b.db.dependencias, s.dependenciaId.value).Some?
      ==> r.0 == Render(PagoPage)
    ensures ReadyToPay(s) && Cache.DependenciaKey(s.dependenciaId.value) !in store &&
      Catalog.FindDependencia(b.db.dependencias, s.dependenciaId.value).None?
      ==> r == (NotFound, store)
    ensures forall k :: k in store ==> k in r.1 && r.1[k] == store[k]
  {
    if !ReadyToPay(s) then (Redirect(Inicio), store)
    else
      var (dep, store1) := Cache.GetDependencia(b.db, store, s.dependenciaId.value);
      if dep.None? then (NotFound, store1)
      else (Render(PagoPage), Cache.GetTramites(b.db, store1, b.md5, SelectionIds(s.tramites.value)).1)
  }

  /** The middleware and a page handler disagree on a session holding only a
      selection: the middleware lets `persona.show` through and the handler
      sends it to `tramite.show`. */
  lemma GuardDisagreement(sel: seq<Selected>)
    ensures var s := Empty.(tramites := Some(sel));
      DeriveStep(s) == PersonaShow && ShowPersonaForm(s) == Redirect(TramiteShow)
  {
  }

  // --------------------------------------------------- serving GET requests

  /** Which step derivation the guarded routes use: the code's, or one aligned
      with the handlers' own guards. */
  datatype Policy = AsWritten | Aligned

  /** A derivation that asks for what the handlers check: the selection page
      needs a truthy dependency, the payer page that and a selection, the
      payment page that, a non-empty selection and payer data. */
  function DeriveStepAligned(s: Session): (r: Route)
    ensures r == TramiteShow ==> DependenciaTruthy(s)
    ensures r == PersonaShow ==> s.dependenciaId.Some? && s.tramites.Some?
    ensures r == PagoShow <==> s.finalizada.None? && ReadyToPay(s)
    ensures s.finalizada.Some? || !DependenciaTruthy(s) ==> r == Inicio
  {
    if s.finalizada.Some? then Inicio
    else if ReadyToPay(s) then PagoShow
    else if DependenciaTruthy(s) && s.tramites.Some? then PersonaShow
    else if DependenciaTruthy(s) then TramiteShow
    else Inicio
  }

  function Derive(p: Policy, s: Session): Route {
    match p
    case AsWritten => DeriveStep(s)
    case Aligned => DeriveStepAligned(s)
  }

  /** A GET on a flow route: `inicio` clears the flow and loads the dependency
      list through the cache; the guarded routes pass the middleware and then
      their handler's own guard. No GET changes the session otherwise, and the
      cache is only ever filled. */
  function Serve(p: Policy, b: Backend, store: Cache.Store, s: Session, route: Route)
    : (res: (Session, Cache.Store, Response))
    ensures route == Inicio ==> res.0 == Index(s) && res.2 == Render(InicioPage)
    ensures route != Inicio ==> res.0 == s
    ensures route != Inicio && route != Derive(p, s) ==> res.1 == store && res.2 == Redirect(Derive(p, s))
    ensures forall k :: k in store ==> k in res.1 && res.1[k] == store[k]
  {
    match route
    case Inicio => (Index(s), Cache.GetDependencias(b.db, store).1, Render(InicioPage))
    case _ =>
      var correct := Derive(p, s);
      if route != correct then (s, store, Redirect(correct))
      else
        match route
        case TramiteShow =>
          var (r, st) := ShowTramite(b.db, store, s);
          (s, st, r)
        case PersonaShow => (s, store, ShowPersonaForm(s))
        case PagoShow =>
          var (r, st) := ShowPagoPage(b, store, s);
          (s, st, r)
  }

  /** A browser following redirects for at most `fuel` requests; the answer
      it ends on (a rendered page or a 404), if any. */
  function Follow(p: Policy, b: Backend, store: Cache.Store, s: Session, route: Route, fuel: nat)
    : (r: Option<Response>)
    ensures r.Some? ==> !r.value.Redirect?
    decreases fuel
  {
    if fuel == 0 then None
    else
      var (t, st, resp) := Serve(p, b, store, s, route);
      match resp
      case Redirect(next) => Follow(p, b, st, t, next, fuel - 1)
      case _ => Some(resp)
  }

  /** As written, a session holding only a selection never lands on a page
      from `persona.show`: it bounces between `persona.show` and `tramite.show`
      however many redirects the browser follows. */
  lemma {:induction false} RedirectLoop(b: Backend, store: Cache.Store, sel: seq<Selected>, fuel: nat)
    ensures Follow(AsWritten, b, store, Empty.(tramites := Some(sel)), PersonaShow, fuel).None?
    ensures Follow(AsWritten, b, store, Empty.(tramites := Some(sel)), TramiteShow, fuel).None?
  {
    var s := Empty.(tramites := Some(sel));
    assert Serve(AsWritten, b, store, s, PersonaShow) == (s, store, Redirect(TramiteShow));
    assert Serve(AsWritten, b, store, s, TramiteShow) == (s, store, Redirect(PersonaShow));
    if fuel > 0 {
      RedirectLoop(b, store, sel, fuel - 1);
    }
  }

  /** With the aligned derivation the route it derives is never redirected by
      its own handler: the visitor gets the page or, for a vanished
      dependency, the 404. */
  lemma AlignedHandlerAdmits(b: Backend, store: Cache.Store, s: Session)
    ensures !Serve(Aligned, b, store, s, DeriveStepAligned(s)).2.Redirect?
  {
  }

  /** With the aligned derivation every GET on a flow route lands within two
      requests, whatever the session and the cache hold. */
  lemma AlignedAlwaysLands(b: Backend, store: Cache.Store, s: Session, route: Route)
    ensures Follow(Aligned, b, store, s, route, 2).Some?
  {
    var (t, st, resp) := Serve(Aligned, b, store, s, route);
    if resp.Redirect? {
      AlignedHandlerAdmits(b, st, t);
    }
  }

  // ------------------------------------------------------------- traces

  /** A request to one of the flow's routes in `routes/web.php`, without
      following the redirect it gets: the four GET pages, `tramite.store`
      (POST /tramite, carrying the chosen `dependenciaId`), `persona.store`
      (POST /persona), `pago.store` (POST /pago) and `regresar` (GET or POST). */
  datatype Request =
    | Get(route: Route)
    | TramiteStore(dependenciaId: int)
    | PersonaStore(ids: seq<int>, cantidades: seq<int>)
    | PagoStore(form: PersonaForm)
    | Back(pasoActual: Option<string>)

  /** The handler behind `tramite.store`: `showTramite`, as the route file
      binds it, or `storeDependenciaSelection`, which that route's name and the
      handler's redirect to `tramite.show` point to. */
  datatype RouteTable = WebAsWritten | WebIntended

  /** A visitor's session together with the shared cache. */
  datatype Visit = Visit(session: Session, store: Cache.Store)

  /** One request under route table `t`. */
  function Step(t: RouteTable, b: Backend, v: Visit, req: Request): (w: Visit)
    ensures req.Get? ==> w.session == (if req.route == Inicio then Empty else v.session)
    ensures req.TramiteStore? ==>
      w.session == (if t == WebAsWritten then v.session else StoreDependencia(v.session, req.dependenciaId))
    ensures req.PersonaStore? ==> w.session == StoreTramites(v.session, req.ids, req.cantidades)
    ensures req.PagoStore? ==> w.session == StorePersonaData(v.session, req.form)
    ensures req.Back? ==> w.session == Regresar(v.session, req.pasoActual).0
    ensures t == WebAsWritten ==> w.session.dependenciaId in {None, v.session.dependenciaId}
    ensures forall k :: k in v.store ==> k in w.store && w.store[k] == v.store[k]
  {
    match req
    case Get(route) =>
      var (s, st, _) := Serve(AsWritten, b, v.store, v.session, route);
      Visit(s, st)
    case TramiteStore(id) =>
      if t == WebAsWritten then Visit(v.session, ShowTramite(b.db, v.store, v.session).1)
      else Visit(StoreDependencia(v.session, id), v.store)
    case PersonaStore(ids, cants) => Visit(StoreTramites(v.session, ids, cants), v.store)
    case PagoStore(form) => Visit(StorePersonaData(v.session, form), v.store)
    case Back(paso) => Visit(Regresar(v.session, paso).0, v.store)
  }

  /** The requests in order, each on the visit the previous one left. The
      cache only ever gains entries along the way. */
  function Run(t: RouteTable, b: Backend, v: Visit, reqs: seq<Request>): (w: Visit)
    ensures |reqs| == 0 ==> w == v
    ensures forall k :: k in v.store ==> k in w.store && w.store[k] == v.store[k]
    decreases |reqs|
  {
    if |reqs| == 0 then v else Run(t, b, Step(t, b, v, reqs[0]), reqs[1..])
  }

  lemma RunCons(t: RouteTable, b: Backend, v: Visit, req: Request, rest: seq<Request>)
    ensures Run(t, b, v, [req] + rest) == Run(t, b, Step(t, b, v, req), rest)
  {
    assert ([req] + rest)[0] == req && ([req] + rest)[1..] == rest;
  }

  /** As the routes are written no request ever stores a dependency: a
      session that starts without one keeps none, so `tramite.show` always
      sends it back to `inicio`. */
  lemma {:induction false} DependencyNeverStored(b: Backend, v: Visit, reqs: seq<Request>)
    requires v.session.dependenciaId.None?
    ensures var w := Run(WebAsWritten, b, v, reqs);
      w.session.dependenciaId.None? && ShowTramite(b.db, w.store, w.session).0 == Redirect(Inicio)
    decreases |reqs|
  {
    if |reqs| > 0 {
      DependencyNeverStored(b, Step(WebAsWritten, b, v, reqs[0]), reqs[1..]);
    }
  }

  /** With `tramite.store` bound to `storeDependenciaSelection`, choosing an
      existing dependency from `inicio` stores it and the next GET on
      `tramite.show` renders the service page. */
  lemma ChosenDependencyReachesServices(b: Backend, store: Cache.Store, s: Session, dep: int)
    requires dep > 0 && Catalog.FindDependencia(b.db.dependencias, dep).Some?
    ensures var w := Run(WebIntended, b, Visit(s, store), [Get(Inicio), TramiteStore(dep)]);
      w.session == Empty.(dependenciaId := Some(dep)) &&
      Follow(AsWritten, b, w.store, w.session, TramiteShow, 1) == Some(Render(TramitePage))
  {
    var v1 := Step(WebIntended, b, Visit(s, store), Get(Inicio));
    var v2 := Step(WebIntended, b, v1, TramiteStore(dep));
    RunCons(WebIntended, b, Visit(s, store), Get(Inicio), [TramiteStore(dep)]);
    RunCons(WebIntended, b, v1, TramiteStore(dep), []);
    assert Run(WebIntended, b, Visit(s, store), [Get(Inicio), TramiteStore(dep)]) == v2;
  }

  /** The looping session is reached by posting a selection on a fresh
      session (the `persona.store` route has no step guard) and, once a
      dependency can be chosen, by going back from the payer step with
      `paso_actual=tramite`. */
  lemma LoopSessionReachable(b: Backend, store: Cache.Store, dep: int, ids: seq<int>, cants: seq<int>)
    requires 1 <= |ids| <= 10 && 1 <= |cants| <= 10
    ensures Run(WebAsWritten, b, Visit(Empty, store), [PersonaStore(ids, cants)]).session
         == Empty.(tramites := Some(PairSelection(ids, cants)))
    ensures Run(WebIntended, b, Visit(Empty, store),
                [Get(Inicio), TramiteStore(dep), Get(TramiteShow), PersonaStore(ids, cants),
                 Get(PersonaShow), Back(Some("tramite"))]).session
         == Empty.(tramites := Some(PairSelection(ids, cants)))
  {
    RunCons(WebAsWritten, b, Visit(Empty, store), PersonaStore(ids, cants), []);
    var t := WebIntended;
    var r5 := [Back(Some("tramite"))];
    var r4 := [Get(PersonaShow)] + r5;
    var r3 := [PersonaStore(ids, cants)] + r4;
    var r2 := [Get(TramiteShow)] + r3;
    var r1 := [TramiteStore(dep)] + r2;
    var r0 := [Get(Inicio)] + r1;
    assert r0 == [Get(Inicio), TramiteStore(dep), Get(TramiteShow), PersonaStore(ids, cants),
                  Get(PersonaShow), Back(Some("tramite"))];
    var v0 := Visit(Empty, store);
    var v1 := Step(t, b, v0, Get(Inicio));
    var v2 := Step(t, b, v1, TramiteStore(dep));
    var v3 := Step(t, b, v2, Get(TramiteShow));
    var v4 := Step(t, b, v3, PersonaStore(ids, cants));
    var v5 := Step(t, b, v4, Get(PersonaShow));
    var v6 := Step(t, b, v5, Back(Some("tramite")));
    RunCons(t, b, v0, Get(Inicio), r1);
    RunCons(t, b, v1, TramiteStore(dep), r2);
    RunCons(t, b, v2, Get(TramiteShow), r3);
    RunCons(t, b, v3, PersonaStore(ids, cants), r4);
    RunCons(t, b, v4, Get(PersonaShow), r5);
    RunCons(t, b, v5, Back(Some("tramite")), []);
    assert v6.session == Empty.(tramites := Some(PairSelection(ids, cants)));
  }
}
