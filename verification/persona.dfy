/** Payer identity as the controller captures it (`storePersonaData`) and
    the payer columns of the generated record. */
module Persona {
  import opened Wrappers
  import opened Text

  /** The validated form of `storePersonaData`: an individual ("fisica") with
      CURP, 13-character RFC and names, or an organisation ("moral") with a
      12-character RFC and legal name. Field validation itself is not modelled. */
  datatype PersonaForm =
    | Fisica(curp: string, rfc: string, nombres: string, apellidoPaterno: string,
             apellidoMaterno: Option<string>)
    | Moral(rfcMoral: string, razonSocial: string)

  /** The array kept in the session under `persona_data`; `None` is a key that
      is absent or null. */
  datatype PersonaData = PersonaData(
    tipoPersona: string,
    curp: Option<string>,
    rfc: Option<string>,
    nombres: Option<string>,
    apellidoPaterno: Option<string>,
    apellidoMaterno: Option<string>,
    razonSocial: Option<string>)

  /** `storePersonaData`: a moral person's `rfc_moral` is moved to `rfc`, and an
      individual's second surname is nulled when PHP's `empty()` holds of it
      (absent, "" or "0"). */
  function StorePersona(form: PersonaForm): (p: PersonaData)
    ensures form.Fisica? ==>
      p.tipoPersona == "fisica" && p.curp == Some(form.curp) && p.rfc == Some(form.rfc) &&
      p.nombres == Some(form.nombres) && p.apellidoPaterno == Some(form.apellidoPaterno) &&
      p.razonSocial.None?
    ensures form.Fisica? ==>
      (p.apellidoMaterno.None? <==> !TruthyOpt(form.apellidoMaterno)) &&
      (p.apellidoMaterno.Some? ==> p.apellidoMaterno == form.apellidoMaterno)
    ensures form.Moral? ==>
      p.tipoPersona == "moral" && p.rfc == Some(form.rfcMoral) &&
      p.razonSocial == Some(form.razonSocial) &&
      p.curp.None? && p.nombres.None? && p.apellidoPaterno.None? && p.apellidoMaterno.None?
  {
    match form
    case Fisica(curp, rfc, nombres, paterno, materno) =>
      PersonaData("fisica", Some(curp), Some(rfc), Some(nombres), Some(paterno),
                  if TruthyOpt(materno) then materno else None, None)
    case Moral(rfcMoral, razon) =>
      PersonaData("moral", None, Some(rfcMoral), None, None, None, Some(razon))
  }

  /** The record's `tipo_persona`: 'F' for "fisica", 'M' for anything else. */
  function TipoPersonaCode(p: PersonaData): (c: string)
    ensures c == "F" || c == "M"
    ensures c == "F" <==> p.tipoPersona == "fisica"
  {
    if p.tipoPersona == "fisica" then "F" else "M"
  }

  /** Every captured payer is recorded as 'F' exactly when the form was an individual's. */
  lemma TipoPersonaOfForm(form: PersonaForm)
    ensures TipoPersonaCode(StorePersona(form)) == (if form.Fisica? then "F" else "M")
  {
  }
}
