/** The question catalog of the shopkeepers' security survey: the closed
    option sets, one constructor per question, the parent answer that reveals
    each follow-up, and the visibility rule that follows from them. */
module Catalog {
  import opened Wrappers

  // ---------------------------------------------------------------------
  // Closed option sets (radio buttons)
  // ---------------------------------------------------------------------

  const OpcionesTipoNegocio: seq<string> := [
    "Pulpería/Minisúper", "Farmacia", "Restaurante/Soda",
    "Salón de Belleza/Barbería", "Taller mecánico", "Tienda", "Otro"
  ]
  const OpcionesUbicacion: seq<string> := ["Circuito 1", "Circuito 2", "Circuito 3", "Circuito 4"]
  const OpcionesSiNoAVeces: seq<string> := ["Sí", "No", "A veces"]
  const OpcionesSiNo: seq<string> := ["Sí", "No"]
  const OpcionesMovilizacion: seq<string> := ["A pie", "Motocicleta", "Carro"]
  const OpcionesPrincipalmenteRobado: seq<string> := ["Efectivo", "Celulares", "Otras pertenencias de clientes"]
  const OpcionesTipoRoboVehiculo: seq<string> := ["Robo de vehículo", "Tacha"]
  const OpcionesFrecuenciaPatrullas: seq<string> := [
    "Varias veces al día", "Una vez al día",
    "Algunas veces por semana", "Casi nunca"
  ]
  const OpcionesCalificacionRespuesta: seq<string> := [
    "Excelente", "Bueno", "Regular", "Malo",
    "Nunca han llegado", "No he necesitado de la Fuerza Pública"
  ]
  const OpcionesPresenciaPolicial: seq<string> := ["Sí", "No", "Parcialmente"]

  /** The security scale: the radio offers the keys, in insertion order, and
      shows each one through its label. */
  const EscalaSeguridad: map<int, string> := map[
    1 := "1 - Muy Inseguro", 2 := "2 - Inseguro", 3 := "3 - Neutral",
    4 := "4 - Seguro", 5 := "5 - Muy Seguro"
  ]
  const EscalaClaves: seq<int> := [1, 2, 3, 4, 5]

  /** The text the scale radio displays for option `k` (its format function). */
  function EtiquetaEscala(k: int): (text: string)
    requires k in EscalaSeguridad
    ensures |text| > 4 && text[1..4] == " - "
    ensures text[0] as int - '0' as int == k
  {
    assert k in {1, 2, 3, 4, 5};
    EscalaSeguridad[k]
  }

  // ---------------------------------------------------------------------
  // Questions
  // ---------------------------------------------------------------------

  /** One constructor per stored answer, named after its record key. */
  datatype Question =
    | TipoNegocio | OtroNegocioEspecificado | Ubicacion | ManejaEfectivo
    | VictimaAsalto | MovilizacionDelincuentes | UsoArmas | TipoArmaEspecificado
    | HoraAsalto | PrincipalesRobado | OtrasPertenenciasEspecificadas
    | DenunciaPresentada | RazonNoDenuncia
    | RoboVehiculosCerca | TipoRoboVehiculo | FacilitaRobos | ProblematicaExtra
    | SentimientoSeguridad | FrecuenciaPatrullas | TiempoRespuesta
    | PresenciaPreviene | RazonParcial | MedidasSeguridad | SugerenciaJefePolicia

  /** The questions in the order the form asks them, which is also the order
      of their keys in the submitted record. */
  const Questions: seq<Question> := [
    TipoNegocio, OtroNegocioEspecificado, Ubicacion, ManejaEfectivo,
    VictimaAsalto, MovilizacionDelincuentes, UsoArmas, TipoArmaEspecificado,
    HoraAsalto, PrincipalesRobado, OtrasPertenenciasEspecificadas,
    DenunciaPresentada, RazonNoDenuncia,
    RoboVehiculosCerca, TipoRoboVehiculo, FacilitaRobos, ProblematicaExtra,
    SentimientoSeguridad, FrecuenciaPatrullas, TiempoRespuesta,
    PresenciaPreviene, RazonParcial, MedidasSeguridad, SugerenciaJefePolicia
  ]

  /** Position of a question in `Questions`. */
  function IndexOf(q: Question): (i: nat)
    ensures i < |Questions| && Questions[i] == q
  {
    match q
    case TipoNegocio => 0
    case OtroNegocioEspecificado => 1
    case Ubicacion => 2
    case ManejaEfectivo => 3
    case VictimaAsalto => 4
    case MovilizacionDelincuentes => 5
    case UsoArmas => 6
    case TipoArmaEspecificado => 7
    case HoraAsalto => 8
    case PrincipalesRobado => 9
    case OtrasPertenenciasEspecificadas => 10
    case DenunciaPresentada => 11
    case RazonNoDenuncia => 12
    case RoboVehiculosCerca => 13
    case TipoRoboVehiculo => 14
    case FacilitaRobos => 15
    case ProblematicaExtra => 16
    case SentimientoSeguridad => 17
    case FrecuenciaPatrullas => 18
    case TiempoRespuesta => 19
    case PresenciaPreviene => 20
    case RazonParcial => 21
    case MedidasSeguridad => 22
    case SugerenciaJefePolicia => 23
  }

  /** The fixed schema of every submitted record: the submission time, then
      one key per question, in the order the form asks them. */
  const Schema: seq<string> := [
    "timestamp",
    "tipo_negocio", "otro_negocio_especificado", "ubicacion", "maneja_efectivo",
    "victima_asalto", "movilizacion_delincuentes", "uso_armas", "tipo_arma_especificado",
    "hora_asalto", "principales_robado", "otras_pertenencias_especificadas",
    "denuncia_presentada", "razon_no_denuncia",
    "robo_vehiculos_cerca", "tipo_robo_vehiculo", "facilita_robos", "problematica_extra",
    "sentimiento_seguridad", "frecuencia_patrullas", "tiempo_respuesta",
    "presencia_previene", "razon_parcial", "medidas_seguridad", "sugerencia_jefe_policia"
  ]

  /** The record key under which a question's answer is stored. */
  function KeyOf(q: Question): string
  {
    Schema[IndexOf(q) + 1]
  }

  /** How a question is answered. */
  datatype Kind = Choice(options: seq<string>) | FreeText | Scale(keys: seq<int>)

  function KindOf(q: Question): Kind
  {
    match q
    case TipoNegocio => Choice(OpcionesTipoNegocio)
    case Ubicacion => Choice(OpcionesUbicacion)
    case ManejaEfectivo => Choice(OpcionesSiNoAVeces)
    case VictimaAsalto => Choice(OpcionesSiNo)
    case MovilizacionDelincuentes => Choice(OpcionesMovilizacion)
    case UsoArmas => Choice(OpcionesSiNo)
    case PrincipalesRobado => Choice(OpcionesPrincipalmenteRobado)
    case DenunciaPresentada => Choice(OpcionesSiNo)
    case RoboVehiculosCerca => Choice(OpcionesSiNo)
    case TipoRoboVehiculo => Choice(OpcionesTipoRoboVehiculo)
    case SentimientoSeguridad => Scale(EscalaClaves)
    case FrecuenciaPatrullas => Choice(OpcionesFrecuenciaPatrullas)
    case TiempoRespuesta => Choice(OpcionesCalificacionRespuesta)
    case PresenciaPreviene => Choice(OpcionesPresenciaPolicial)
    case _ => FreeText
  }

  /** When a question is shown: always, or when its parent's answer is a
      particular option. */
  datatype Guard = Always | When(parent: Question, answer: string)

  function GuardOf(q: Question): Guard
  {
    match q
    case OtroNegocioEspecificado => When(TipoNegocio, "Otro")
    case MovilizacionDelincuentes => When(VictimaAsalto, "Sí")
    case UsoArmas => When(VictimaAsalto, "Sí")
    case TipoArmaEspecificado => When(UsoArmas, "Sí")
    case HoraAsalto => When(VictimaAsalto, "Sí")
    case PrincipalesRobado => When(VictimaAsalto, "Sí")
    case OtrasPertenenciasEspecificadas => When(PrincipalesRobado, "Otras pertenencias de clientes")
    case DenunciaPresentada => When(VictimaAsalto, "Sí")
    case RazonNoDenuncia => When(DenunciaPresentada, "No")
    case TipoRoboVehiculo => When(RoboVehiculosCerca, "Sí")
    case FacilitaRobos => When(RoboVehiculosCerca, "Sí")
    case RazonParcial => When(PresenciaPreviene, "Parcialmente")
    case _ => Always
  }

  /** Nesting depth: 0 for a top-level question. */
  function Depth(q: Question): nat
  {
    match q
    case TipoArmaEspecificado | OtrasPertenenciasEspecificadas | RazonNoDenuncia => 2
    case _ => if GuardOf(q).Always? then 0 else 1
  }

  /** A follow-up sits one level below its parent. */
  lemma ParentIsShallower(q: Question)
    ensures GuardOf(q).When? ==> Depth(GuardOf(q).parent) + 1 == Depth(q)
  {
  }

  // ---------------------------------------------------------------------
  // Answers
  // ---------------------------------------------------------------------

  /** What each widget returns when it is rendered. A radio always holds one
      of its options (the first by default); a text box holds any string. For
      a widget the script does not render the field is meaningless, and the
      record never depends on it. */
  datatype Answers = Answers(
    tipoNegocio: string, otroNegocio: string, ubicacion: string, manejaEfectivo: string,
    victimaAsalto: string, movilizacion: string, usoArmas: string, tipoArma: string,
    horaAsalto: string, principalesRobado: string, otrasPertenencias: string,
    denuncia: string, razonNoDenuncia: string,
    roboVehiculos: string, tipoRoboVehiculo: string, facilitaRobos: string,
    problematicaExtra: string,
    seguridadLocal: int, frecuenciaPatrullas: string, tiempoRespuesta: string,
    presenciaPreviene: string, razonParcial: string,
    medidasSeguridad: string, sugerenciaJefePolicia: string)

  /** The submission time; the clock is a parameter of the model. */
  datatype Timestamp = Timestamp(ticks: int)

  /** A value as it is stored in the record. */
  datatype Value = Str(s: string) | Int(n: int) | Time(t: Timestamp)

  /** The answer a question's widget holds. */
  function Answer(q: Question, a: Answers): Value
  {
    match q
    case TipoNegocio => Str(a.tipoNegocio)
    case OtroNegocioEspecificado => Str(a.otroNegocio)
    case Ubicacion => Str(a.ubicacion)
    case ManejaEfectivo => Str(a.manejaEfectivo)
    case VictimaAsalto => Str(a.victimaAsalto)
    case MovilizacionDelincuentes => Str(a.movilizacion)
    case UsoArmas => Str(a.usoArmas)
    case TipoArmaEspecificado => Str(a.tipoArma)
    case HoraAsalto => Str(a.horaAsalto)
    case PrincipalesRobado => Str(a.principalesRobado)
    case OtrasPertenenciasEspecificadas => Str(a.otrasPertenencias)
    case DenunciaPresentada => Str(a.denuncia)
    case RazonNoDenuncia => Str(a.razonNoDenuncia)
    case RoboVehiculosCerca => Str(a.roboVehiculos)
    case TipoRoboVehiculo => Str(a.tipoRoboVehiculo)
    case FacilitaRobos => Str(a.facilitaRobos)
    case ProblematicaExtra => Str(a.problematicaExtra)
    case SentimientoSeguridad => Int(a.seguridadLocal)
    case FrecuenciaPatrullas => Str(a.frecuenciaPatrullas)
    case TiempoRespuesta => Str(a.tiempoRespuesta)
    case PresenciaPreviene => Str(a.presenciaPreviene)
    case RazonParcial => Str(a.razonParcial)
    case MedidasSeguridad => Str(a.medidasSeguridad)
    case SugerenciaJefePolicia => Str(a.sugerenciaJefePolicia)
  }

  // ---------------------------------------------------------------------
  // Visibility
  // ---------------------------------------------------------------------

  /** A question is shown when it is top-level, or when its parent is shown
      and the parent's answer is the revealing option. */
  predicate Active(q: Question, a: Answers)
    decreases Depth(q)
  {
    match GuardOf(q)
    case Always => true
    case When(p, v) => ParentIsShallower(q); Active(p, a) && Answer(p, a) == Str(v)
  }

  /** The question's own reveal condition, ignoring its ancestors. */
  predicate Revealed(q: Question, a: Answers)
  {
    match GuardOf(q)
    case Always => true
    case When(p, v) => Answer(p, a) == Str(v)
  }

  /** The question followed by its ancestors, innermost first. */
  function Chain(q: Question): (c: seq<Question>)
    decreases Depth(q)
  {
    match GuardOf(q)
    case Always => [q]
    case When(p, _) => ParentIsShallower(q); [q] + Chain(p)
  }

  /** Every shown radio holds one of its options, and the scale one of its
      keys: what the widgets guarantee. */
  predicate WellFormed(a: Answers)
  {
    forall q :: Active(q, a) ==> Fits(q, a)
  }

  predicate Fits(q: Question, a: Answers)
  {
    match KindOf(q)
    case Choice(opts) => Answer(q, a).Str? && Answer(q, a).s in opts
    case FreeText => Answer(q, a).Str?
    case Scale(keys) => Answer(q, a).Int? && Answer(q, a).n in keys
  }

  /** What the record holds for a question that is not shown: the empty
      string for the "other business type" text, "not applicable" (None) for
      every other follow-up. */
  function Hidden(q: Question): Option<Value>
  {
    if q == OtroNegocioEspecificado then Some(Str("")) else None
  }

  /** What the record holds for a question: its answer when it is shown, the
      hidden marker otherwise. */
  function Stored(q: Question, a: Answers): Option<Value>
  {
    if Active(q, a) then Some(Answer(q, a)) else Hidden(q)
  }
}
