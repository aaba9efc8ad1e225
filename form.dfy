/** One pass of the survey script: the follow-up variables the script binds
    from the widgets' answers, and the record it assembles on submit. */
module Form {
  import opened Wrappers
  import opened Catalog

  /** The script's variables after its top-to-bottom run. A variable that
      only a skipped branch assigns is unbound (None); reading it would raise
      NameError. */
  datatype Env = Env(
    tipoNegocio: string, otroNegocio: string, ubicacion: string, manejaEfectivo: string,
    victimaAsalto: string,
    movilizacion: Option<string>, usoArmas: Option<string>, tipoArma: Option<string>,
    horaAsalto: Option<string>, principalesRobado: Option<string>,
    otrasPertenencias: Option<string>, denuncia: Option<string>, razonNoDenuncia: Option<string>,
    roboVehiculos: string, tipoRoboVehiculo: Option<string>, facilitaRobos: Option<string>,
    problematicaExtra: string,
    seguridadLocal: int, frecuenciaPatrullas: string, tiempoRespuesta: string,
    presenciaPreviene: string, razonParcial: string,
    medidasSeguridad: string, sugerenciaJefePolicia: string)

  /** The variables the record literal reads are bound whenever it reads them:
      the assault variables once the shopkeeper was a victim, the vehicle
      variables once vehicles were stolen nearby. */
  predicate Defined(e: Env)
  {
    && (e.victimaAsalto == "Sí" ==>
          && e.movilizacion.Some? && e.usoArmas.Some? && e.tipoArma.Some?
          && e.horaAsalto.Some? && e.principalesRobado.Some?
          && e.otrasPertenencias.Some? && e.denuncia.Some? && e.razonNoDenuncia.Some?)
    && (e.roboVehiculos == "Sí" ==> e.tipoRoboVehiculo.Some? && e.facilitaRobos.Some?)
  }

  /** Whether the script renders a question's widget: the conditions of all
      the `if`s that enclose it. */
  predicate Shown(q: Question, a: Answers)
  {
    match q
    case OtroNegocioEspecificado => a.tipoNegocio == "Otro"
    case MovilizacionDelincuentes | UsoArmas | HoraAsalto | PrincipalesRobado | DenunciaPresentada =>
      a.victimaAsalto == "Sí"
    case TipoArmaEspecificado => a.victimaAsalto == "Sí" && a.usoArmas == "Sí"
    case OtrasPertenenciasEspecificadas =>
      a.victimaAsalto == "Sí" && a.principalesRobado == "Otras pertenencias de clientes"
    case RazonNoDenuncia => a.victimaAsalto == "Sí" && a.denuncia == "No"
    case TipoRoboVehiculo | FacilitaRobos => a.roboVehiculos == "Sí"
    case RazonParcial => a.presenciaPreviene == "Parcialmente"
    case _ => true
  }

  /** The question section of the script: each widget that is rendered binds
      its variable; a follow-up text defaults to "" where the script gives it
      a default before or instead of the text box. */
  function Run(a: Answers): (e: Env)
    ensures Defined(e)
  {
    var victima := a.victimaAsalto == "Sí";
    var robo := a.roboVehiculos == "Sí";
    Env(
      tipoNegocio := a.tipoNegocio,
      otroNegocio := if a.tipoNegocio == "Otro" then a.otroNegocio else "",
      ubicacion := a.ubicacion,
      manejaEfectivo := a.manejaEfectivo,
      victimaAsalto := a.victimaAsalto,
      movilizacion := if victima then Some(a.movilizacion) else None,
      usoArmas := if victima then Some(a.usoArmas) else None,
      tipoArma := if victima then Some(if a.usoArmas == "Sí" then a.tipoArma else "") else None,
      horaAsalto := if victima then Some(a.horaAsalto) else None,
      principalesRobado := if victima then Some(a.principalesRobado) else None,
      otrasPertenencias :=
        if victima then
          Some(if a.principalesRobado == "Otras pertenencias de clientes" then a.otrasPertenencias else "")
        else None,
      denuncia := if victima then Some(a.denuncia) else None,
      razonNoDenuncia := if victima then Some(if a.denuncia == "No" then a.razonNoDenuncia else "") else None,
      roboVehiculos := a.roboVehiculos,
      tipoRoboVehiculo := if robo then Some(a.tipoRoboVehiculo) else None,
      facilitaRobos := if robo then Some(a.facilitaRobos) else None,
      problematicaExtra := a.problematicaExtra,
      seguridadLocal := a.seguridadLocal,
      frecuenciaPatrullas := a.frecuenciaPatrullas,
      tiempoRespuesta := a.tiempoRespuesta,
      presenciaPreviene := a.presenciaPreviene,
      razonParcial := if a.presenciaPreviene == "Parcialmente" then a.razonParcial else "",
      medidasSeguridad := a.medidasSeguridad,
      sugerenciaJefePolicia := a.sugerenciaJefePolicia)
  }

  // ---------------------------------------------------------------------
  // The submitted record
  // ---------------------------------------------------------------------

  /** The record built on submit, one field per key of the record literal and
      in its order. None is "not applicable". */
  datatype Record = Record(
    timestamp: Timestamp,
    tipoNegocio: string, otroNegocioEspecificado: string,
    ubicacion: string, manejaEfectivo: string, victimaAsalto: string,
    movilizacionDelincuentes: Option<string>, usoArmas: Option<string>,
    tipoArmaEspecificado: Option<string>, horaAsalto: Option<string>,
    principalesRobado: Option<string>, otrasPertenenciasEspecificadas: Option<string>,
    denunciaPresentada: Option<string>, razonNoDenuncia: Option<string>,
    roboVehiculosCerca: string, tipoRoboVehiculo: Option<string>, facilitaRobos: Option<string>,
    problematicaExtra: string, sentimientoSeguridad: int,
    frecuenciaPatrullas: string, tiempoRespuesta: string, presenciaPreviene: string,
    razonParcial: Option<string>, medidasSeguridad: string, sugerenciaJefePolicia: string)

  /** The record literal built when the survey is sent. A follow-up answer is
      read only under the condition that guards it, so an unbound variable is
      never read. */
  function Assemble(e: Env, now: Timestamp): Record
    requires Defined(e)
  {
    var victima := e.victimaAsalto == "Sí";
    var robo := e.roboVehiculos == "Sí";
    Record(
      timestamp := now,
      tipoNegocio := e.tipoNegocio,
      otroNegocioEspecificado := e.otroNegocio,
      ubicacion := e.ubicacion,
      manejaEfectivo := e.manejaEfectivo,
      victimaAsalto := e.victimaAsalto,
      movilizacionDelincuentes := if victima then Some(e.movilizacion.value) else None,
      usoArmas := if victima then Some(e.usoArmas.value) else None,
      tipoArmaEspecificado :=
        if victima && e.usoArmas.value == "Sí" then Some(e.tipoArma.value) else None,
      horaAsalto := if victima then Some(e.horaAsalto.value) else None,
      principalesRobado := if victima then Some(e.principalesRobado.value) else None,
      otrasPertenenciasEspecificadas :=
        if victima && e.principalesRobado.value == "Otras pertenencias de clientes"
        then Some(e.otrasPertenencias.value) else None,
      denunciaPresentada := if victima then Some(e.denuncia.value) else None,
      razonNoDenuncia :=
        if victima && e.denuncia.value == "No" then Some(e.razonNoDenuncia.value) else None,
      roboVehiculosCerca := e.roboVehiculos,
      tipoRoboVehiculo := if robo then Some(e.tipoRoboVehiculo.value) else None,
      facilitaRobos := if robo then Some(e.facilitaRobos.value) else None,
      problematicaExtra := e.problematicaExtra,
      sentimientoSeguridad := e.seguridadLocal,
      frecuenciaPatrullas := e.frecuenciaPatrullas,
      tiempoRespuesta := e.tiempoRespuesta,
      presenciaPreviene := e.presenciaPreviene,
      razonParcial := if e.presenciaPreviene == "Parcialmente" then Some(e.razonParcial) else None,
      medidasSeguridad := e.medidasSeguridad,
      sugerenciaJefePolicia := e.sugerenciaJefePolicia)
  }

  /** Pressing "Enviar Encuesta": run the questions, then build the record.
      Every question's entry is the catalog's reference value `Stored`: its
      answer when its chain of reveal conditions holds, the hidden marker
      otherwise. */
  function Submit(a: Answers, now: Timestamp): (r: Record)
    ensures r.timestamp == now
    ensures forall q :: Column(r, q) == Stored(q, a)
  {
    var r := Assemble(Run(a), now);
    assert forall q :: Column(r, q) == Stored(q, a) by {
      forall q ensures Column(r, q) == Stored(q, a) {
        ScriptRecord(a, now, q);
        ShownIsActive(q, a);
      }
    }
    r
  }

  /** The record the script builds holds, for every question, its answer
      when the script renders its widget and the hidden marker when not. */
  lemma ScriptRecord(a: Answers, now: Timestamp, q: Question)
    ensures Column(Assemble(Run(a), now), q) == if Shown(q, a) then Some(Answer(q, a)) else Hidden(q)
  {
  }

  /** The script's nested conditions and the catalog's chain of reveal
      conditions show the same questions. */
  lemma ShownIsActive(q: Question, a: Answers)
    ensures Shown(q, a) == Active(q, a)
  {
  }

  // ---------------------------------------------------------------------
  // The record as a flat row of (key, value) pairs
  // ---------------------------------------------------------------------

  function Text(v: Option<string>): Option<Value>
  {
    match v
    case None => None
    case Some(s) => Some(Str(s))
  }

  /** The value the record holds under a question's key. */
  function Column(r: Record, q: Question): Option<Value>
  {
    match q
    case TipoNegocio => Some(Str(r.tipoNegocio))
    case OtroNegocioEspecificado => Some(Str(r.otroNegocioEspecificado))
    case Ubicacion => Some(Str(r.ubicacion))
    case ManejaEfectivo => Some(Str(r.manejaEfectivo))
    case VictimaAsalto => Some(Str(r.victimaAsalto))
    case MovilizacionDelincuentes => Text(r.movilizacionDelincuentes)
    case UsoArmas => Text(r.usoArmas)
    case TipoArmaEspecificado => Text(r.tipoArmaEspecificado)
    case HoraAsalto => Text(r.horaAsalto)
    case PrincipalesRobado => Text(r.principalesRobado)
    case OtrasPertenenciasEspecificadas => Text(r.otrasPertenenciasEspecificadas)
    case DenunciaPresentada => Text(r.denunciaPresentada)
    case RazonNoDenuncia => Text(r.razonNoDenuncia)
    case RoboVehiculosCerca => Some(Str(r.roboVehiculosCerca))
    case TipoRoboVehiculo => Text(r.tipoRoboVehiculo)
    case FacilitaRobos => Text(r.facilitaRobos)
    case ProblematicaExtra => Some(Str(r.problematicaExtra))
    case SentimientoSeguridad => Some(Int(r.sentimientoSeguridad))
    case FrecuenciaPatrullas => Some(Str(r.frecuenciaPatrullas))
    case TiempoRespuesta => Some(Str(r.tiempoRespuesta))
    case PresenciaPreviene => Some(Str(r.presenciaPreviene))
    case RazonParcial => Text(r.razonParcial)
    case MedidasSeguridad => Some(Str(r.medidasSeguridad))
    case SugerenciaJefePolicia => Some(Str(r.sugerenciaJefePolicia))
  }

  type Row = seq<(string, Option<Value>)>

  /** The row written out: the submission time, then each question's key and
      value in the order of the record literal. */
  function ToRow(r: Record): (row: Row)
    ensures |row| == 1 + |Questions|
    ensures row[0] == ("timestamp", Some(Time(r.timestamp)))
    ensures Keys(row) == Schema
    ensures forall q :: row[IndexOf(q) + 1] == (KeyOf(q), Column(r, q))
  {
    [("timestamp", Some(Time(r.timestamp)))]
      + seq(|Questions|, i requires 0 <= i < |Questions| => (Schema[i + 1], Column(r, Questions[i])))
  }

  /** A row's keys, in order. */
  function Keys(row: Row): seq<string>
  {
    seq(|row|, i requires 0 <= i < |row| => row[i].0)
  }

  /** The value stored under key `k` (its first occurrence). */
  function Get(row: Row, k: string): Option<Value>
    requires k in Keys(row)
  {
    if row[0].0 == k then row[0].1
    else
      assert k in Keys(row[1..]) by {
        var i :| 0 <= i < |row| && Keys(row)[i] == k;
        assert Keys(row[1..])[i - 1] == k;
      }
      Get(row[1..], k)
  }
}
