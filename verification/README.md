# lineacaptura_imt — a Dafny model of the payment-line flow

`lineacaptura_imt` is a Laravel application that issues a *línea de captura*. This is a payment reference the Mexican tax authority (SAT) generates for one or more government services (*trámites*) of one dependency. A visitor goes through four steps:

1. chooses the dependency;
2. picks up to ten services with quantities;
3. enters the payer's data;
4. generates the line.

At the last step the application prices the selection, stores a row with a snapshot of what was charged, builds the SAT document, sends it with the configured headers and credentials, and normalises the answer.

The project models that core as pure Dafny functions over immutable values and proves properties of it. Each module below corresponds to one part of the program:

| module | what it models |
|---|---|
| `Flow` | the session's four keys, the step middleware, the controller's session actions and guards, and request sequences |
| `Catalog`, `Cache`, `Sorting` | catalog queries and the read-through catalog cache, with its keys, invalidation and statistics |
| `Fees`, `Persona` | item pricing in integer centavos, 16 % tax, whole-peso rounding, the stored `tramite_id` string, and payer data |
| `Document`, `Snapshot` | the SAT document (`DatosGenerales`, `Tramites`, `Conceptos`) and the JSON snapshot stored with the row, with its accessors |
| `Payload` | the array `buildFullJsonForMultiple` returns, which is stored as `json_generado` and sent, with the `decimal:2` string of the amount |
| `Client`, `Base64` | header assembly, the HS256 JWT, the subscription-key query parameter, and the classification of the transport result |
| `Normalizer`, `Html`, `Json` | the normalisation of the SAT answer, flexible key lookup, and base64-plus-entity decoding of the receipt markup |
| `Diagnostics` | the file-content checks of the JSON validator, the truncation fixer and the decoder service |
| `Generation` | `generarLineaCaptura` end to end |
| `Selection` | the browser-side service list of the selection page |
| `Fonts` | the URL logic of the browser's resource-error handler |

## Conventions

- **Money.** Amounts are integer centavos. PHP's `round(x, 2)` rounds half away from zero; on centavos, the tax `round(0.16·x, 2)` is `Fees.Iva` and rounding to whole pesos is `Fees.RoundToPeso`.
- **PHP truthiness.** Truthiness (`""` and `"0"` are falsy) is written out in `Text.Truthy` and `Json.IsTruthy`.
- **Uncaught errors.** A PHP `TypeError` is an `Error`, not an `Exception`, so the controller's `catch (\Exception)` does not catch it. It appears as an explicit outcome: `None`, `Uncaught` or `Crashed`. The not-found exception of `findOrFail` is thrown outside any `try`: Laravel answers it with a 404, which is `Flow.NotFound` on the pages and `Crashed` in the generation action. A precondition never excludes either.
- **Foreign primitives.** The following are function-valued parameters:
  - the serialisation of a JSON value to text and its parsing (the document array itself is built by `Payload.DocumentoJson`);
  - HMAC-SHA-256 and md5;
  - `urlencode` and `html_entity_decode`;
  - PHP's lenient `base64_decode` on malformed text;
  - UUIDs, the clock and the HTTP exchange.
- **Two-decimal floats.** The document's float members (`TotalTramite`, `TotalConcepto`, `ValorTransaccion`) are `round(…, 2)` values, written as `Json.JDec` holding exact hundredths.
- **Concrete base64.** Strict base64 (section 4 of RFC 4648) and base64url (section 5 of RFC 4648) are written out, with round-trip lemmas.

Where the code and its documentation differ, the model follows the code. The residual from whole-peso rounding goes to the last service's `TotalTramite` and to its tax concepto when it is taxed. The fee concepto (`'P'`) of an untaxed last service is never adjusted, so that service's conceptos then do not add up to its `TotalTramite` (`Document.ConceptsMatchTramite`).

## Model

| member | source | states |
|---|---|---|
| Flow.DeriveStepCases | lineacaptura_imt/app/Http/Middleware/EnsureValidStep.php:28-43 | no key gives `inicio`; the finalised flag gives `inicio` whatever else is set; payer data without the flag gives `pago.show`; a selection without payer data gives `persona.show` even without a dependency; only a dependency gives `tramite.show` |
| Flow.DeriveStepRange | lineacaptura_imt/app/Http/Middleware/EnsureValidStep.php:28-43 | the derived route is always one of the four flow routes |
| Flow.Handle | lineacaptura_imt/app/Http/Middleware/EnsureValidStep.php:46-67 | the request is forwarded exactly when the current route is the derived one; otherwise it is redirected to the derived route, which differs from the current one |
| Flow.RedirectTargetIsForwarded | lineacaptura_imt/app/Http/Middleware/EnsureValidStep.php:24-67 | the middleware leaves the session alone, so the route it redirects to is forwarded on the next request |
| Flow.Serve | lineacaptura_imt/routes/web.php:12-19 | `inicio` is not guarded, empties the session and loads the dependency list through the cache; the three flow routes keep the session and redirect to the derived route when they are not it; no GET removes or changes a cache entry |
| Flow.Index | lineacaptura_imt/app/Http/Controllers/LineaCapturaController.php:45-50 | all four keys are forgotten, and the flow starts again at `inicio` |
| Flow.StoreDependencia | lineacaptura_imt/app/Http/Controllers/LineaCapturaController.php:62-79 | the dependency key is set to the chosen id; no other key changes |
| Flow.PairSelection | lineacaptura_imt/app/Http/Controllers/LineaCapturaController.php:130-136 | one entry per id, in order, each with the quantity at the same index, or 1 when there is none |
| Flow.StoreTramites | lineacaptura_imt/app/Http/Controllers/LineaCapturaController.php:112-150 | the selection key holds the paired selection; no other key changes |
| Flow.StorePersonaData | lineacaptura_imt/app/Http/Controllers/LineaCapturaController.php:185-238 | the payer key holds the reshaped form; no other key changes |
| Flow.Finalize | lineacaptura_imt/app/Http/Controllers/LineaCapturaController.php:547-548 | after the flush only the finalised flag is set, and the flow derives `inicio` |
| Flow.Regresar | lineacaptura_imt/app/Http/Controllers/LineaCapturaController.php:695-715 | `tramite`, `persona` and `pago` remove exactly the dependency, the selection and the payer data respectively and go back one step; any other value removes nothing and goes to `inicio` |
| Flow.ShowTramite | lineacaptura_imt/app/Http/Controllers/LineaCapturaController.php:84-107 | redirects to `inicio` exactly when the dependency id is falsy; a truthy id of a dependency in the database renders the page; an id neither cached nor in the database is the 404 of `findOrFail`, with the cache unchanged; no cache entry is removed or changed |
| Flow.ShowPersonaForm | lineacaptura_imt/app/Http/Controllers/LineaCapturaController.php:157-163 | the form renders exactly when both the dependency and the selection are present; otherwise the request is redirected to `tramite.show` |
| Flow.ShowPagoPage | lineacaptura_imt/app/Http/Controllers/LineaCapturaController.php:243-277 | redirects to `inicio` exactly when the dependency is falsy, the selection empty or the payer data missing; otherwise a dependency in the database renders the page, and one neither cached nor in the database is the 404 of `findOrFail`, with the cache unchanged |
| Flow.GuardDisagreement | lineacaptura_imt/app/Http/Controllers/LineaCapturaController.php:157-163 | with only a selection in the session, the middleware sends the visitor to `persona.show`, whose handler sends them back to `tramite.show` |
| Flow.RedirectLoop | lineacaptura_imt/app/Http/Middleware/EnsureValidStep.php:33-35 | on that session, whatever the cache holds, following redirects from `persona.show` or `tramite.show` never lands on a page, however many hops are allowed |
| Flow.LoopSessionReachable | lineacaptura_imt/routes/web.php:23 | posting one to ten ids on a fresh session (`persona.store` has no step guard) leaves exactly that selection and nothing else; with `tramite.store` bound as intended, choosing a dependency and services and going back with `paso_actual=tramite` leaves the same session |
| Flow.DeriveStepAligned | lineacaptura_imt/app/Http/Middleware/EnsureValidStep.php:28-43 | a derivation that only names a step its handler admits: `tramite.show` needs a truthy dependency, `persona.show` both keys, and `pago.show` is derived exactly when the unfinished session is ready to pay; a finished flow or a falsy dependency derives `inicio` |
| Flow.AlignedHandlerAdmits | lineacaptura_imt/app/Http/Middleware/EnsureValidStep.php:46-67 | with the aligned derivation, the handler of the derived route never redirects: it renders its page, or answers 404 for a vanished dependency |
| Flow.AlignedAlwaysLands | lineacaptura_imt/app/Http/Middleware/EnsureValidStep.php:46-67 | with the aligned derivation, every session, cache and route ends on a page or a 404 within two requests |
| Flow.Step | lineacaptura_imt/routes/web.php:12-36 | one request per route: a GET of `inicio` empties the session and the other GETs keep it; `tramite.store` keeps the session as written (it runs `showTramite`) and stores the chosen dependency as intended; `persona.store`, `pago.store` and `regresar` apply their handlers; as written no request sets a dependency; no request removes or changes a cache entry |
| Flow.Run | lineacaptura_imt/routes/web.php:12-36 | a sequence of requests applies them in order, and the cache only gains entries along it |
| Flow.DependencyNeverStored | lineacaptura_imt/routes/web.php:22 | as the routes are written, a session without a dependency never gets one, whatever requests follow, so `tramite.show` always sends it back to `inicio` |
| Flow.ChosenDependencyReachesServices | lineacaptura_imt/app/Http/Controllers/LineaCapturaController.php:62-79 | with `tramite.store` bound to `storeDependenciaSelection`, choosing an existing dependency from `inicio` leaves exactly that dependency in the session, and the next GET of `tramite.show` renders |
| Catalog.FindDependencia | lineacaptura_imt/app/Services/CacheService.php:58 | the first dependency with the id, and none exactly when no row has it |
| Catalog.TramitesFor | lineacaptura_imt/app/Services/CacheService.php:42-45 | the services kept are exactly the rows with grouping `'P'` whose service key contains the dependency's key, each as often as it is in the table |
| Catalog.TramitesWhereIn | lineacaptura_imt/app/Services/CacheService.php:74 | exactly the rows whose id is among the requested ids, each as often as it is in the table |
| Catalog.TramitesForTableOrder | lineacaptura_imt/app/Services/CacheService.php:42-45 | the listed services come in table order: the result for a split table is the result for its first part followed by that for its second, and a single row is kept exactly when it is listed |
| Catalog.TramitesWhereInTableOrder | lineacaptura_imt/app/Services/CacheService.php:74 | the fetched rows come in table order whatever the order of the ids: a split table splits the result, and a single row is kept exactly when its id is requested |
| Catalog.WhereInOrderBlind | lineacaptura_imt/app/Services/CacheService.php:74 | the query's answer does not depend on the order or repetition pattern of the ids, only on their multiset |
| Sorting.Sort | lineacaptura_imt/app/Services/CacheService.php:68-69 | the sorted copy is ascending and a permutation of the ids |
| Sorting.SortPermutationInvariant | lineacaptura_imt/app/Services/CacheService.php:67-70 | two id lists sort alike exactly when they are permutations of each other |
| Cache.TramitesKeyOrderBlind | lineacaptura_imt/app/Services/CacheService.php:67-70 | any permutation of the same ids yields the same `tramites_` key |
| Cache.KeyNamespacesDisjoint | lineacaptura_imt/app/Services/CacheService.php:18-19 | `dependencias_all`, `tramites_dependencia_<id>`, `dependencia_<id>` and `tramites_<md5>` never collide |
| Cache.Remember | lineacaptura_imt/app/Services/CacheService.php:26-29 | a hit returns the stored value and leaves the store alone; a miss runs the loader and stores its result under the key with a one-hour lifetime, touching nothing else; a failing loader stores nothing |
| Cache.GetDependencias | lineacaptura_imt/app/Services/CacheService.php:24-30 | after the call the key holds the returned list: the cached one on a hit, the database's on a miss |
| Cache.GetTramitesByDependencia | lineacaptura_imt/app/Services/CacheService.php:35-47 | a hit is returned as stored; a miss stores the dependency's services, or fails without storing when the dependency does not exist |
| Cache.GetDependencia | lineacaptura_imt/app/Services/CacheService.php:52-60 | a hit is returned as stored; a miss stores the row, or fails without storing when there is none |
| Cache.GetTramites | lineacaptura_imt/app/Services/CacheService.php:65-76 | after the call the sorted-ids key holds the returned services; on a miss they are exactly the database rows with those ids |
| Cache.Forget | lineacaptura_imt/app/Services/CacheService.php:83 | the key is gone and every other entry is untouched |
| Cache.ClearDependencias | lineacaptura_imt/app/Services/CacheService.php:81-85 | only `dependencias_all` is forgotten |
| Cache.ClearTramites | lineacaptura_imt/app/Services/CacheService.php:90-105 | with an id, exactly that dependency's services key is forgotten; without one, the dependency list is read through the cache and every listed dependency's key is forgotten |
| Cache.ClearOneTramitesKey | lineacaptura_imt/app/Services/CacheService.php:92-95 | clearing one dependency leaves every other key as it was |
| Cache.ClearAllTramitesKeys | lineacaptura_imt/app/Services/CacheService.php:97-103 | clearing without an id removes the key of every listed dependency |
| Cache.ClearAll | lineacaptura_imt/app/Services/CacheService.php:110-115 | afterwards the dependency list is freshly cached from the database and no dependency's services key remains |
| Cache.ClearAllKeepsOtherFamilies | lineacaptura_imt/app/Services/CacheService.php:110-115 | `dependencia_<id>` and `tramites_<md5>` entries survive a full clear unchanged |
| Cache.CountCached | lineacaptura_imt/app/Services/CacheService.php:129-135 | the count is at most the number of dependencies; it equals it exactly when all are cached, and it is zero exactly when none is |
| Cache.CountCachedExact | lineacaptura_imt/app/Services/CacheService.php:129-135 | the count is the number of dependencies, repeats included, whose service key is in the store |
| Cache.GetStats | lineacaptura_imt/app/Services/CacheService.php:120-141 | reports whether the list is cached, `ttl_minutes = 60`, and cached services keys never exceeding the dependencies; the list may be loaded into the cache |
| Cache.PutKeepsWellFormed | lineacaptura_imt/app/Services/CacheService.php:17-19 | storing a value of its key family's kind keeps every family holding its own kind |
| Cache.GetDependenciaWellFormed | lineacaptura_imt/app/Services/CacheService.php:52-60 | on a well-formed store, `getDependencia` keeps it well formed and returns a dependency row |
| Cache.GetTramitesWellFormed | lineacaptura_imt/app/Services/CacheService.php:65-76 | on a well-formed store, `getTramites` keeps it well formed and returns a service list |
| Cache.ClearKeepsWellFormed | lineacaptura_imt/app/Services/CacheService.php:81-115 | the three clear operations keep the store well formed |
| Fees.RoundDiv100 | lineacaptura_imt/app/Http/Controllers/LineaCapturaController.php:395 | division by 100 rounding half away from zero, as `round(…, 2)` does |
| Fees.Iva | lineacaptura_imt/app/Http/Controllers/LineaCapturaController.php:395 | the tax is within half a centavo of 16 % of the amount, and never negative for a non-negative amount |
| Fees.RoundToPeso | lineacaptura_imt/app/Http/Controllers/LineaCapturaController.php:401 | whole pesos within half a peso of the amount, with halves going away from zero |
| Fees.RoundToPesoIdempotent | lineacaptura_imt/app/Http/Controllers/LineaCapturaController.php:401 | rounding a rounded total changes nothing |
| Fees.QuantityFor | lineacaptura_imt/app/Http/Controllers/LineaCapturaController.php:382-385 | the quantity of the first selection entry with the id, or 1 when none has it |
| Fees.PriceLines | lineacaptura_imt/app/Http/Controllers/LineaCapturaController.php:381-385 | one priced line per service row, each with the quantity selected for its id |
| Fees.IvaOf | lineacaptura_imt/app/Http/Controllers/LineaCapturaController.php:390-396 | an untaxed service carries no tax; a taxed one carries 16 % of fee times quantity, rounded to the centavo |
| Fees.ComputeTotals | lineacaptura_imt/app/Http/Controllers/LineaCapturaController.php:387-401 | `importe_cuota` is the sum of fee times quantity over all lines and `importe_iva` the sum of the taxed lines' rounded 16 %; fees plus tax is the sum of the line totals; the grand total is that sum rounded to whole pesos, halves away from zero |
| Fees.SumCuotasAppend | lineacaptura_imt/app/Http/Controllers/LineaCapturaController.php:390-393 | one more line adds exactly its fee times quantity to the fee total |
| Fees.SumIvaAppend | lineacaptura_imt/app/Http/Controllers/LineaCapturaController.php:390-396 | one more line adds its rounded 16 % to the tax total when it is taxed, and nothing otherwise |
| Fees.AccumulateTotals | lineacaptura_imt/app/Http/Controllers/LineaCapturaController.php:387-401 | the controller's running-sum loop yields exactly the totals of `Fees.ComputeTotals` |
| Fees.HalfPesoRoundsUp | lineacaptura_imt/app/Http/Controllers/LineaCapturaController.php:400-401 | one untaxed service of 1.50 pesos is charged 2 pesos: the half goes up |
| Fees.Residual | lineacaptura_imt/app/Http/Controllers/LineaCapturaController.php:628-649 | the adjustment is at most half a peso each way and takes the sum of line totals to the grand total |
| Payload.Decimal2RoundTrip | lineacaptura_imt/app/Models/LineasCapturadas.php:58 | the `decimal:2` string of any amount, negative included, reads back as exactly that amount |
| Payload.UnsignedRoundTrip | lineacaptura_imt/app/Models/LineasCapturadas.php:58 | an unsigned amount's `pesos.cc` string starts with a digit and reads back as the amount |
| Payload.DocumentoReadBack | lineacaptura_imt/app/Http/Controllers/LineaCapturaController.php:577-585 | the array has `DatosGenerales` built from the document's header and `Tramites.Tramite` with one entry per service, in order |
| Payload.DatosGeneralesFixedReadBack | lineacaptura_imt/app/Http/Controllers/LineaCapturaController.php:587-595 | `Solicitud`, `CveDependencia`, `UnidadAdministrativa`, `TipoPersona` and `RFC` read back as the header's values |
| Payload.PayerReadBack | lineacaptura_imt/app/Http/Controllers/LineaCapturaController.php:597-604 | `CURP` is present exactly for an individual (`F`) and `RazonSocial` exactly otherwise |
| Payload.LineaReadBack | lineacaptura_imt/app/Http/Controllers/LineaCapturaController.php:606-610 | `DatosLineaCaptura` reads back as the line's array; its `Importe` is the `decimal:2` string of the total and its two dates are the header's |
| Payload.TramiteReadBack | lineacaptura_imt/app/Http/Controllers/LineaCapturaController.php:651-656 | a `Tramite` entry carries its number, homoclave, concept count and two-decimal total |
| Payload.ConceptosReadBack | lineacaptura_imt/app/Http/Controllers/LineaCapturaController.php:651-657 | `Conceptos.Concepto` lists one entry per concept line, in order |
| Payload.ConceptoReadBack | lineacaptura_imt/app/Http/Controllers/LineaCapturaController.php:664-690 | a `Concepto` carries its sequence number and its two-decimal total |
| Payload.SolicitudAndImporteSent | lineacaptura_imt/app/Http/Controllers/LineaCapturaController.php:505-514 | `$jsonArray['DatosGenerales']['Solicitud']` is the header's request id and `['DatosLineaCaptura']['Importe']` the `decimal:2` string of its amount |
| Fees.TramiteIdStringRoundTrip | lineacaptura_imt/app/Http/Controllers/LineaCapturaController.php:404-406 | the stored `id:cantidad,…` string parses back to exactly the selection |
| Persona.StorePersona | lineacaptura_imt/app/Http/Controllers/LineaCapturaController.php:216-223 | a legal person's `rfc_moral` becomes `rfc`; a natural person's empty maternal surname becomes null and any other is kept |
| Persona.TipoPersonaCode | lineacaptura_imt/app/Http/Controllers/LineaCapturaController.php:489 | the stored code is `F` exactly for a natural person and `M` otherwise |
| Persona.TipoPersonaOfForm | lineacaptura_imt/app/Http/Controllers/LineaCapturaController.php:489 | the code follows the kind of form submitted |
| Document.BuildConcepto | lineacaptura_imt/app/Http/Controllers/LineaCapturaController.php:664-690 | three transactions with codes 4011, 4243 and 4423 in that order, all carrying the concept's amount, which is also its contributions and concept total |
| Document.BuildTramite | lineacaptura_imt/app/Http/Controllers/LineaCapturaController.php:615-662 | the service number is the index plus one; there are two conceptos exactly when the service is taxed; the fee concepto is `'P'` with the plain fee, and the tax concepto is `'S'` with key `130009` and the tax plus the adjustment; the total is the line total plus the adjustment |
| Document.BuildTramites | lineacaptura_imt/app/Http/Controllers/LineaCapturaController.php:615-662 | one entry per service; sequence numbers continue across services; only the last service gets the residual |
| Document.DocumentSequenceNumbers | lineacaptura_imt/app/Http/Controllers/LineaCapturaController.php:618-658 | the concepto sequence numbers of the whole document run 1, 2, … without gaps or resets |
| Document.TotalTramiteSumsToTotal | lineacaptura_imt/app/Http/Controllers/LineaCapturaController.php:628-649 | with at least one service, the `TotalTramite` values add up to the rounded grand total |
| Document.ConceptsMatchTramite | lineacaptura_imt/app/Http/Controllers/LineaCapturaController.php:637-649 | a service's conceptos add up to its `TotalTramite` exactly when it is taxed or carries no adjustment |
| Document.TwoDigitYear | lineacaptura_imt/app/Http/Controllers/LineaCapturaController.php:579 | two digits whose value is the year modulo 100 |
| Document.PaddedId | lineacaptura_imt/app/Http/Controllers/LineaCapturaController.php:579 | the id left-padded with zeros to width 10 and never truncated: all digits, same value |
| Document.Solicitud | lineacaptura_imt/app/Http/Controllers/LineaCapturaController.php:579 | the request id's total length is `|clave|+|ua|+2+max(10, digits(id))` |
| Document.SolicitudFields | lineacaptura_imt/app/Http/Controllers/LineaCapturaController.php:579 | the request id starts with the dependency key and the administrative unit, followed by two digits reading back as the year modulo 100 and then digits reading back as the record id |
| Document.BuildDatosGenerales | lineacaptura_imt/app/Http/Controllers/LineaCapturaController.php:587-613 | a natural person (`F`) carries CURP and names, any other payer carries the legal name; the amount is the row's grand total |
| Document.BuildDocument | lineacaptura_imt/app/Http/Controllers/LineaCapturaController.php:577-585 | the document's request id is the `Solicitud` of the row, its amount the grand total, and its services the built list |
| Snapshot.SnapshotItem | lineacaptura_imt/app/Http/Controllers/LineaCapturaController.php:429-483 | each snapshot item repeats its line's quantity, fee, tax and total |
| Snapshot.Resumen | lineacaptura_imt/app/Http/Controllers/LineaCapturaController.php:413-418 | the summary repeats the count, the fee sum, the tax sum and the grand total |
| Snapshot.BuildSnapshot | lineacaptura_imt/app/Http/Controllers/LineaCapturaController.php:411-483 | the snapshot holds the item list, the summary and the dependency under their keys |
| Snapshot.GetTramitesSnapshot | lineacaptura_imt/app/Models/LineasCapturadas.php:81-84 | the `tramites` member, or null exactly when it is absent or null |
| Snapshot.GetResumenSnapshot | lineacaptura_imt/app/Models/LineasCapturadas.php:89-92 | the `resumen` member, or null exactly when it is absent or null |
| Snapshot.GetDependenciaSnapshot | lineacaptura_imt/app/Models/LineasCapturadas.php:97-100 | the `dependencia` member, or null exactly when it is absent or null |
| Snapshot.ValidSnapshotHasTramites | lineacaptura_imt/app/Models/LineasCapturadas.php:105-111 | a valid snapshot has a non-null, non-empty array of services |
| Snapshot.BuiltSnapshotValid | lineacaptura_imt/app/Models/LineasCapturadas.php:105-111 | a built snapshot is valid exactly when it lists at least one service |
| Snapshot.BuiltSnapshotRepeatsTotals | lineacaptura_imt/app/Http/Controllers/LineaCapturaController.php:411-418 | reading the summary back gives the totals stored in the row's columns |
| Snapshot.NonArraySnapshot | lineacaptura_imt/app/Models/LineasCapturadas.php:81-111 | a scalar snapshot reads as null and is never valid |
| Client.CorrelationId | lineacaptura_imt/app/Http/Controllers/LineaCapturaController.php:958 | the configured id when it is truthy, else a fresh UUID |
| Client.JwtClaims | lineacaptura_imt/app/Http/Controllers/LineaCapturaController.php:966-975 | `exp − iat` is the larger of 60 and the configured lifetime; `iss` and `sub` appear exactly when configured non-empty; `jti` is the correlation rule applied to its own UUID |
| Client.CorrelationAndJti | lineacaptura_imt/app/Http/Controllers/LineaCapturaController.php:958-975 | the correlation id and the `jti` agree exactly when an explicit id is configured or the two UUIDs happen to coincide |
| Client.JwtRoundTrip | lineacaptura_imt/app/Http/Controllers/LineaCapturaController.php:1197-1207 | a generated token is a compact JWS (section 7.1 of RFC 7515) that parses back into the encoded header and claims, and verifies under the signing secret with HS256 (section 3.2 of RFC 7518) |
| Client.SplitToken | lineacaptura_imt/app/Http/Controllers/LineaCapturaController.php:1200-1206 | the token splits at its dots into exactly its three segments |
| Client.AuthorizationToken | lineacaptura_imt/app/Http/Controllers/LineaCapturaController.php:964-980 | a JWT that verifies under the secret when JWT is enabled and a secret is set; otherwise the static token when set; otherwise nothing |
| Client.AuthorizationValue | lineacaptura_imt/app/Http/Controllers/LineaCapturaController.php:982-988 | scheme `PLAIN`, compared after upper-casing the configured scheme, sends the token raw; any other sends `Bearer ` and the token |
| Client.BuildHeaders | lineacaptura_imt/app/Http/Controllers/LineaCapturaController.php:940-1004 | the three base headers come first; a configured subscription key is the last header |
| Client.AcceptLanguageHeader | lineacaptura_imt/app/Http/Controllers/LineaCapturaController.php:948-950 | `Accept-Language` is present exactly when configured, with that value |
| Client.CorrelationHeader | lineacaptura_imt/app/Http/Controllers/LineaCapturaController.php:953-961 | `x-correlation-id` is present exactly when enabled, and carries the correlation id |
| Client.AuthorizationHeader | lineacaptura_imt/app/Http/Controllers/LineaCapturaController.php:964-988 | `Authorization` is present exactly when there is a token, written according to the scheme |
| Client.ApiKeyHeader | lineacaptura_imt/app/Http/Controllers/LineaCapturaController.php:991-993 | `X-API-Key` is present exactly when set |
| Client.SubscriptionKeyHeader | lineacaptura_imt/app/Http/Controllers/LineaCapturaController.php:996-997 | the subscription key header is present exactly when a key is set |
| Client.WithSubscriptionKey | lineacaptura_imt/app/Http/Controllers/LineaCapturaController.php:1000-1003 | the URL is extended exactly when it lacks `subscription-key=` in any case; the extension uses `&` after a `?` and `?` otherwise, followed by the encoded key; afterwards the parameter is always present |
| Client.SubscriptionKeyIdempotent | lineacaptura_imt/app/Http/Controllers/LineaCapturaController.php:1000-1003 | adding the parameter twice adds it once |
| Client.BuildRequest | lineacaptura_imt/app/Http/Controllers/LineaCapturaController.php:940-1004 | the body is the encoded payload; the URL is extended only when a subscription key is set; `Authorization` is present exactly under the token rule; the correlation header carries the request's id |
| Client.Classify | lineacaptura_imt/app/Http/Controllers/LineaCapturaController.php:1067-1107 | success exactly when there is no cURL error, the status is in [200, 300) and the body decodes; a cURL error reports code 0; HTTP and decode failures carry the raw body |
| Base64.DecodeEncode | lineacaptura_imt/app/Services/HtmlDecoderService.php:17 | strict base64 decoding (section 4 of RFC 4648) inverts encoding |
| Base64.UrlEncodeIsUnpadded | lineacaptura_imt/app/Http/Controllers/LineaCapturaController.php:1209-1212 | base64url is the unpadded encoding with `+` and `/` mapped to `-` and `_` (section 5 of RFC 4648) |
| Base64.UrlEncodeAlphabet | lineacaptura_imt/app/Http/Controllers/LineaCapturaController.php:1209-1212 | the encoding uses only the URL-safe alphabet, so it holds no dot |
| Base64.UrlDecodeEncode | lineacaptura_imt/app/Http/Controllers/LineaCapturaController.php:1209-1212 | the unpadded URL-safe encoding decodes back to the bytes |
| Html.PhpBase64Decode | lineacaptura_imt/app/Services/HtmlDecoderService.php:17 | well-formed base64 decodes strictly; anything else goes to PHP's lenient decoder |
| Html.DecodeHtmlOfEncoded | lineacaptura_imt/app/Services/HtmlDecoderService.php:17 | decoding the base64 of some markup gives that markup entity-decoded |
| Html.DecodificarHtmlBase64 | lineacaptura_imt/app/Services/HtmlDecoderService.php:13-29 | the decoded markup when it is non-empty, the fixed error text otherwise; an array argument is an uncaught `TypeError`; the result is never empty |
| Html.DecodificarEncoded | lineacaptura_imt/app/Services/HtmlDecoderService.php:17-24 | the base64 of markup yields the entity-decoded markup, or the error text when that is empty; empty markup always yields the error text |
| Normalizer.NormalizeKey | lineacaptura_imt/app/Http/Controllers/LineaCapturaController.php:1219-1221 | normalised keys have no spaces, underscores or capitals |
| Normalizer.NormalizeKeyIdempotent | lineacaptura_imt/app/Http/Controllers/LineaCapturaController.php:1219-1221 | normalising twice is normalising once |
| Normalizer.KeyMap | lineacaptura_imt/app/Http/Controllers/LineaCapturaController.php:1222-1225 | the map's keys are exactly the normalised input keys |
| Normalizer.KeyMapLastWins | lineacaptura_imt/app/Http/Controllers/LineaCapturaController.php:1222-1225 | among input keys that normalise alike, the last one's value is kept |
| Normalizer.FirstAlias | lineacaptura_imt/app/Http/Controllers/LineaCapturaController.php:1226-1232 | the value of the first alias, in list order, that is present; none exactly when no alias is |
| Normalizer.FlexibleFinds | lineacaptura_imt/app/Http/Controllers/LineaCapturaController.php:1217-1233 | when the first matching alias matches an input key that no later key shadows, that key's value is returned |
| Normalizer.FlexibleMisses | lineacaptura_imt/app/Http/Controllers/LineaCapturaController.php:1217-1233 | when no alias matches any key, the result is null |
| Normalizer.DecodeIfPresent | lineacaptura_imt/app/Http/Controllers/LineaCapturaController.php:1125-1126 | falsy markup is not decoded, and an array of markup is an uncaught `TypeError` |
| Normalizer.ProcesarRespuestaSat | lineacaptura_imt/app/Http/Controllers/LineaCapturaController.php:1113-1192 | a non-array answer and array markup are uncaught `TypeError`s; otherwise success follows the markup's truthiness; missing markup gives the `html_faltante` error; `json_completo` is the input; an `Acuse` array is read directly and otherwise the flat aliases are used |
| Normalizer.AcuseWithEncodedHtml | lineacaptura_imt/app/Http/Controllers/LineaCapturaController.php:1123-1152 | an `Acuse` carrying base64 markup is processed successfully and yields the decoded markup |
| Normalizer.AcuseIgnoresFlatFields | lineacaptura_imt/app/Http/Controllers/LineaCapturaController.php:1123-1152 | when `Acuse` is an array, the rest of the answer changes nothing but `json_completo` |
| Diagnostics.ControlChars | lineacaptura_imt/app/Http/Controllers/LineaCapturaController.php:758-771 | every entry is a control character other than tab, line feed and carriage return, at its position, with its code and hexadecimal; positions increase |
| Diagnostics.ControlCharsComplete | lineacaptura_imt/app/Http/Controllers/LineaCapturaController.php:758-771 | every such character of the content is reported |
| Diagnostics.ScanControlChars | lineacaptura_imt/app/Http/Controllers/LineaCapturaController.php:758-771 | the scanning loop reports exactly the characters the definition selects |
| Diagnostics.ValidarYDecodificarJson | lineacaptura_imt/app/Http/Controllers/LineaCapturaController.php:720-854 | checks in order: a missing file, trimmed content not ending in `}`, then a parse failure (carrying the control characters and brace counts), each exactly under its condition; success carries the decoded markup, which is non-empty |
| Diagnostics.ValidAcuseFile | lineacaptura_imt/app/Http/Controllers/LineaCapturaController.php:796-854 | a complete file whose `Acuse.HTML` is base64 of non-empty markup validates, and yields that markup |
| Diagnostics.CorregirJsonTruncado | lineacaptura_imt/app/Http/Controllers/LineaCapturaController.php:859-892 | a missing file is reported; content is unchanged exactly when it does not end in a space or `"`; otherwise the trailing run of those is removed and its length reported |
| Diagnostics.CorregirIdempotent | lineacaptura_imt/app/Http/Controllers/LineaCapturaController.php:873-882 | a corrected file needs no second correction |
| Diagnostics.ObtenerYDecodificarCodigo | lineacaptura_imt/app/Services/HtmlDecoderService.php:33-105 | a missing file, trimmed content not ending in `}`, and a parse failure are errors exactly under their conditions; missing markup lists the top-level keys; success carries `Acuse.HTML` and its decoding |
| Diagnostics.ServiceAgreesWithValidator | lineacaptura_imt/app/Services/HtmlDecoderService.php:33-105 | when trimming does not change what the content parses to, a file the controller's validator accepts is decoded by the service to the same markup |
| Generation.SatUpdate | lineacaptura_imt/app/Http/Controllers/LineaCapturaController.php:514-544 | `procesado_exitosamente` follows the transport outcome, not the normaliser's; on failure only the error is stored; on success the answer and its normalised fields are stored; an answer the normaliser cannot take is an uncaught error |
| Generation.Complete | lineacaptura_imt/app/Http/Controllers/LineaCapturaController.php:404-548 | the row's totals, `tramite_id`, snapshot and `solicitud`, the document, `json_generado` as the document's array with the row's total as its amount, the request and the classified answer are tied together; only the flag remains in the session; the action crashes exactly on an answer the normaliser cannot take |
| Generation.GenerarLineaCaptura | lineacaptura_imt/app/Http/Controllers/LineaCapturaController.php:334-573 | the session expires exactly when one of the three keys is missing; a generated line satisfies every tie of `Complete` and was priced through the cache |
| Generation.GeneratedTotalsReconcile | lineacaptura_imt/app/Http/Controllers/LineaCapturaController.php:387-401 | the row's grand total is whole pesos within half a peso of fees plus tax, and the document's per-service totals add up to it |
| Generation.GeneratedBodyCarriesRecord | lineacaptura_imt/app/Http/Controllers/LineaCapturaController.php:505-514 | the body sent is the encoding of the stored `json_generado`, whose `Solicitud` is the row's `solicitud` and whose `Importe` is the `decimal:2` string of the row's total |
| Generation.GeneratedSelectionRecoverable | lineacaptura_imt/app/Http/Controllers/LineaCapturaController.php:404-406 | the stored `tramite_id` reads back as the session's selection |
| Generation.GeneratedSnapshotValid | lineacaptura_imt/app/Http/Controllers/LineaCapturaController.php:411-483 | the stored snapshot is valid exactly when some selected service still exists |
| Generation.ColdCachePricesDatabaseRows | lineacaptura_imt/app/Http/Controllers/LineaCapturaController.php:374-385 | on a cold cache the action prices exactly the database rows of the selected ids |
| Generation.PriceSucceeds | lineacaptura_imt/app/Http/Controllers/LineaCapturaController.php:374-379 | on a well-formed cache, the reads succeed whenever the dependency exists |
| Generation.GenerationCompletes | lineacaptura_imt/app/Http/Controllers/LineaCapturaController.php:334-573 | given a ready session, a well-formed cache, an existing dependency, and (a premise of the lemma) a transport whose every parsed answer is `Normalizer.Processable`, the action always yields a generated line |
| Selection.Add | lineacaptura_imt/resources/views/forms/tramite.blade.php:289-322 | an empty option is ignored; a full list (ten) and an id already listed are rejected, leaving the list unchanged; otherwise the service is appended with quantity 1 |
| Selection.Remove | lineacaptura_imt/resources/views/forms/tramite.blade.php:324-330 | `splice(i, 1)` with JavaScript's reading of negative and `NaN` starts |
| Selection.RemoveAt | lineacaptura_imt/resources/views/forms/tramite.blade.php:324-330 | removing a button's index deletes exactly that entry and keeps the others in order |
| Selection.Clamp | lineacaptura_imt/resources/views/forms/tramite.blade.php:336-345 | `NaN` and values below 1 become 1, values above 999 become 999, the rest are kept |
| Selection.ClampIdempotent | lineacaptura_imt/resources/views/forms/tramite.blade.php:336-345 | clamping a clamped quantity changes nothing |
| Selection.SetCantidad | lineacaptura_imt/resources/views/forms/tramite.blade.php:333-353 | only the entry at the input's index changes, and only its quantity |
| Selection.ReplayKeepsValid | lineacaptura_imt/resources/views/forms/tramite.blade.php:289-353 | across any sequence of adds, removals and quantity edits the list keeps at most ten entries with distinct ids and quantities within 1..999 |
| Selection.DisplayPesos | lineacaptura_imt/resources/views/forms/tramite.blade.php:239-277 | the shown total is the unrounded sum of fees and tax, rounded to whole pesos with halves going up |
| Selection.DisplayMatchesServerUntaxed | lineacaptura_imt/resources/views/forms/tramite.blade.php:239-277 | without taxed services the page shows exactly what the server will charge |
| Selection.DisplayCanDifferFromServer | lineacaptura_imt/resources/views/forms/tramite.blade.php:239-277 | with a taxed service the two can differ: 43 centavos shows 0 pesos while the server charges 1 peso |
| Selection.Submit | lineacaptura_imt/resources/views/forms/tramite.blade.php:355-390 | blocked exactly on an empty list; otherwise one id and one quantity per entry, in list order |
| Selection.SubmittedSelection | lineacaptura_imt/resources/views/forms/tramite.blade.php:355-390 | the server pairs each submitted id with its own entry's quantity |
| Fonts.UpgradeGoogleFontsToHttps | lineacaptura_imt/public/js/resource-error-handler.js:14-22 | the first `http://fonts.googleapis.com` becomes HTTPS; only when there is none does the first `http://fonts.gstatic.com`; the URL is unchanged exactly when neither occurs |
| Fonts.UpgradedHasHttpsHost | lineacaptura_imt/public/js/resource-error-handler.js:14-22 | the upgraded URL carries the HTTPS host in place of the one found |
| Fonts.GetFallbackUrl | lineacaptura_imt/public/js/resource-error-handler.js:76-83 | the local path of the first pattern, in map order, that occurs in the URL; null exactly when none does |
| Fonts.FallbackIsLocal | lineacaptura_imt/public/js/resource-error-handler.js:6-11 | a fallback is always one of the four local files |
| Fonts.PlusSpaces | lineacaptura_imt/public/js/resource-error-handler.js:43 | no whitespace survives the rewriting |
| Fonts.PlusSpacesOfWords | lineacaptura_imt/public/js/resource-error-handler.js:43 | words separated by spaces come out separated by `+` |
| Fonts.PlusSpacesIdempotent | lineacaptura_imt/public/js/resource-error-handler.js:43 | rewriting twice is rewriting once |
| Fonts.FontUrl | lineacaptura_imt/public/js/resource-error-handler.js:43-44 | the stylesheet link starts with the Google Fonts CSS base; what follows is given by `Fonts.FontUrlOfPlainFamilies` and `Fonts.FontUrlOfSpacedFamilies` |
| Fonts.FontUrlOfPlainFamilies | lineacaptura_imt/public/js/resource-error-handler.js:43-44 | families without spaces are listed as given, separated by `\|` |
| Fonts.FontUrlOfSpacedFamilies | lineacaptura_imt/public/js/resource-error-handler.js:43-44 | families whose names are words separated by single spaces are listed with `+` between the words and `\|` between the families |

## Left out

- Floating point: PHP and JavaScript compute money in doubles. The model uses exact integer centavos, and the selection page's total is idealised to hundredths of a centavo. The document's float members are exact hundredths, so the binary rounding of a double and `json_encode`'s `serialize_precision` are not modelled.
- Foreign primitives are parameters without a definition: HMAC-SHA-256, md5, JSON encoding and decoding, `urlencode`, `html_entity_decode` (the HTML5 named-reference table), UUIDs, the clock and Carbon's date formatting, and PHP's lenient `base64_decode` on malformed text.
- The cURL transport, TLS options, timeouts and reading of configuration are left out. The transport result is an input value and the configuration is a record.
- File reads and writes of the diagnostic helpers are left out. The model starts from the file's content, with `None` for a missing file.
- Laravel's validation rules are not modelled. The payer form arrives already validated, and a rejected post (which would redirect back without touching the session) is not a request of the trace model.
- Logging, views, Eloquent persistence and the row updates are left out. The row is a returned value.
- `catch (\Exception)` branches are not modelled. The only `Exception` the model meets is `findOrFail`'s, thrown where no `try` surrounds it; the `TypeError`s that do occur are uncaught and modelled.
- Cache entries are not modelled as expiring. The lifetime is recorded, but expiry needs a clock and the application never observes it.
- The SQL `LIKE` filter is modelled as a case-sensitive substring test; database collation is not modelled. The dependency key is concatenated into the pattern unescaped (CacheService.php:43), so a `%` or `_` inside `clave_dependencia` acts as a wildcard; the substring model is exact only for keys without those characters.
- The snapshot items omit the service row's reserved-use, legal, validity, characteristic and timestamp columns (`tramite_usoreservado`, `fundamento_legal` through `tipo_vigencia`, `obligatorio` through `saldo_favor`, `created_at_original`, `updated_at_original`; LineaCapturaController.php:446, 456-460, 470-481), because the service row here carries only the columns the flow computes with. The columns that are built (identifiers, names, keys, the dependency's columns) and the JSON member order are not constrained.
- The reload routes `showPersonaReload`/`showPagoReload` and `showLineaCapturada` are not modelled. They read the database's latest row and render views.
- The `is_array` redirects of `showPagoPage` and `generarLineaCaptura` are not modelled: the session's selection is always a list of pairs here, so a non-array selection cannot be written down.
- Flow.ShowPagoPage: the selected services it reads through the cache are not inspected further; the page never fails on them, since `whereIn` does not throw.
- Flow.Step: `GET /` and `GET /generar-linea` only redirect to `/inicio` and are not requests of the trace model; `POST /generar-linea` is `Generation.GenerarLineaCaptura`, whose session effect is `Flow.Finalize`. Validation of the posted forms (`exists`, sizes, the payer rules) is not modelled, so a posted request always stores what it carries.
- Generation.GenerarLineaCaptura: a dependency neither cached nor stored is `Crashed`, as the not-found exception is thrown before any row is created; the model does not separate that 404 from the `TypeError` crash of an answer the normaliser cannot take.
- DOM updates, history handling, the `WebFont` interception and the other browser-side plumbing are left out. Only list and string logic is modelled.
- The security-header and rate-limiting middleware, the migration, and the route throttles are not modelled. They add no logic to the flow.

## Findings

| source | as written | input that shows it | evidently intended | confidence | as-written member | corrected member |
|---|---|---|---|---|---|---|
| lineacaptura_imt/app/Http/Middleware/EnsureValidStep.php:33-35 | a selection without payer data derives `persona.show` even when no dependency is set, but `showPersonaForm` (LineaCapturaController.php:157-163) redirects such a session to `tramite.show`, whose derived step is again `persona.show` | a fresh session that posts one to ten ids to `POST /persona` (`persona.store`, web.php:23, no step guard) and then requests `GET /persona`: the session holds only `tramites_seleccionados`, the middleware derives `persona.show`, the handler redirects to `tramite.show`, and that derives `persona.show` again | derive a step only when its handler's guard admits the session, so every request lands on a page | not executed | Flow.RedirectLoop | Flow.AlignedAlwaysLands |
| lineacaptura_imt/routes/web.php:22 | `tramite.store` (`POST /tramite`) runs `showTramite`, which only reads the session; `storeDependenciaSelection` (LineaCapturaController.php:62-79), the only action that writes `dependenciaId`, has no route, so no request can set the dependency and `tramite.show` always redirects to `inicio` | a fresh session that posts `dependenciaId=5` to `POST /tramite` and then requests `GET /tramite`: the session still holds no dependency and the visitor is sent back to `inicio` | `tramite.store` runs `storeDependenciaSelection`, which stores the choice and redirects to `tramite.show` (its name and that redirect point there) | not executed; the start page that posts the choice is not part of this model | Flow.DependencyNeverStored | Flow.ChosenDependencyReachesServices |
