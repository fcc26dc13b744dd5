/** The match-feedback screen: pick a player, type four increments, and save
    the player with the increments added to its statistics. */
module FeedbackJugador {
  import opened Tipos
  import opened Almacen
  import JugadorService
  import Editor

  /** The four statistics a feedback form adds (`estadisticasAdicionales`). */
  datatype Estadisticas = Estadisticas(goles: int, asistencias: int, partidosGanados: int, partidosPerdidos: int)

  const SinEstadisticas := Estadisticas(0, 0, 0, 0)

  /** The keys of `estadisticasAdicionales`. */
  datatype CampoEstadistica = Goles | Asistencias | PartidosGanados | PartidosPerdidos

  function Valor(d: Estadisticas, c: CampoEstadistica): int {
    match c
    case Goles => d.goles
    case Asistencias => d.asistencias
    case PartidosGanados => d.partidosGanados
    case PartidosPerdidos => d.partidosPerdidos
  }

  /** `{ ...prev, [campo]: valor }`: the named statistic takes the value, the
      three others keep theirs. */
  function ConCampo(d: Estadisticas, campo: CampoEstadistica, valor: int): (r: Estadisticas)
    ensures Valor(r, campo) == valor
    ensures forall c :: c != campo ==> Valor(r, c) == Valor(d, c)
  {
    match campo
    case Goles => d.(goles := valor)
    case Asistencias => d.(asistencias := valor)
    case PartidosGanados => d.(partidosGanados := valor)
    case PartidosPerdidos => d.(partidosPerdidos := valor)
  }

  function Sumar(a: Estadisticas, b: Estadisticas): Estadisticas {
    Estadisticas(a.goles + b.goles, a.asistencias + b.asistencias,
                 a.partidosGanados + b.partidosGanados, a.partidosPerdidos + b.partidosPerdidos)
  }

  function Opuesto(d: Estadisticas): Estadisticas {
    Estadisticas(-d.goles, -d.asistencias, -d.partidosGanados, -d.partidosPerdidos)
  }

  /** The record `handleSubmit` sends: each of the four statistics is the
      current value plus its increment; every other field is copied. */
  function AplicarDelta(j: Jugador, d: Estadisticas): (r: Jugador)
    ensures r.goles == j.goles + d.goles
    ensures r.asistencias == j.asistencias + d.asistencias
    ensures r.partidosGanados == j.partidosGanados + d.partidosGanados
    ensures r.partidosPerdidos == j.partidosPerdidos + d.partidosPerdidos
    ensures r.(goles := j.goles, asistencias := j.asistencias,
               partidosGanados := j.partidosGanados, partidosPerdidos := j.partidosPerdidos) == j
  {
    j.(goles := j.goles + d.goles,
       asistencias := j.asistencias + d.asistencias,
       partidosGanados := j.partidosGanados + d.partidosGanados,
       partidosPerdidos := j.partidosPerdidos + d.partidosPerdidos)
  }

  /** All-zero increments give back the record unchanged. */
  lemma AplicarCeroEsIdentidad(j: Jugador)
    ensures AplicarDelta(j, SinEstadisticas) == j
  {
  }

  /** Two feedbacks applied in sequence are one feedback of their sum. */
  lemma AplicarDeltaAditivo(j: Jugador, d1: Estadisticas, d2: Estadisticas)
    ensures AplicarDelta(AplicarDelta(j, d1), d2) == AplicarDelta(j, Sumar(d1, d2))
  {
  }

  /** A feedback is undone by the opposite increments. */
  lemma AplicarDeltaReversible(j: Jugador, d: Estadisticas)
    ensures AplicarDelta(AplicarDelta(j, d), Opuesto(d)) == j
  {
  }

  /** Matches played grow by exactly the won and lost increments. */
  lemma PartidosJugadosTrasDelta(j: Jugador, d: Estadisticas)
    ensures AplicarDelta(j, d).PartidosJugados() == j.PartidosJugados() + d.partidosGanados + d.partidosPerdidos
  {
  }

  const MensajeActualizadas := "Estadísticas actualizadas exitosamente"
  const MensajeErrorEstadisticas := "Error al actualizar las estadísticas"

  /** The component's React state. */
  datatype Estado = Estado(
    jugadores: seq<Jugador>,
    jugadorActual: Option<Jugador>,
    estadisticasAdicionales: Estadisticas,
    mensaje: string,
    modalAbierto: bool)

  /** The state after a save that reset the form and refreshed the list. */
  function Reiniciado(antes: Estado, mensaje: string, refresco: Axios<seq<Jugador>>): Estado {
    var r := Editor.Refrescar(antes.jugadores, mensaje, refresco);
    Estado(r.jugadores, None, SinEstadisticas, r.mensaje, false)
  }

  class FeedbackJugador {
    var jugadores: seq<Jugador>
    var jugadorActual: Option<Jugador>
    var estadisticasAdicionales: Estadisticas
    var mensaje: string
    var modalAbierto: bool
    /** The write requests this screen has sent, oldest first. */
    ghost var enviadas: seq<JugadorService.Solicitud>
    /** How many list refreshes this screen has run. */
    ghost var refrescos: nat
    const almacen: Almacenamiento

    function EstadoActual(): Estado
      reads this
    {
      Estado(jugadores, jugadorActual, estadisticasAdicionales, mensaje, modalAbierto)
    }

    constructor (almacen: Almacenamiento)
      ensures this.almacen == almacen
      ensures EstadoActual() == Estado([], None, SinEstadisticas, "", false)
      ensures enviadas == [] && refrescos == 0
    {
      this.almacen := almacen;
      jugadores, jugadorActual, estadisticasAdicionales := [], None, SinEstadisticas;
      mensaje, modalAbierto := "", false;
      enviadas, refrescos := [], 0;
    }

    /** `refreshJugadores` */
    method RefreshJugadores(respuesta: Axios<seq<Jugador>>)
      modifies this
      ensures var r := Editor.Refrescar(old(jugadores), old(mensaje), respuesta);
              EstadoActual() == old(EstadoActual()).(jugadores := r.jugadores, mensaje := r.mensaje)
      ensures enviadas == old(enviadas) && refrescos == old(refrescos) + 1
    {
      var r := Editor.Refrescar(jugadores, mensaje, respuesta);
      jugadores, mensaje := r.jugadores, r.mensaje;
      refrescos := refrescos + 1;
    }

    /** The effect on `usuario`: a refresh once a session exists. */
    method AlCambiarUsuario(usuario: Option<DecodedToken>, respuesta: Axios<seq<Jugador>>)
      modifies this
      ensures usuario.None? ==> EstadoActual() == old(EstadoActual()) && refrescos == old(refrescos)
      ensures usuario.Some? ==> var r := Editor.Refrescar(old(jugadores), old(mensaje), respuesta);
              EstadoActual() == old(EstadoActual()).(jugadores := r.jugadores, mensaje := r.mensaje)
              && refrescos == old(refrescos) + 1
      ensures enviadas == old(enviadas)
    {
      if usuario.Some? {
        RefreshJugadores(respuesta);
      }
    }

    /** `handleSubmit`, given the outcome of the PUT and of the refresh GET.
        - No truthy token: only the unauthorised message is set; nothing is sent.
        - No selected player with an `_id`: nothing is sent, yet the form is
          reset, the modal closed and the list refreshed.
        - Otherwise the player with the increments applied is sent; on success
          the form is reset, the modal closed and the list refreshed; on
          failure only the error message is set. */
    method HandleSubmit(respuesta: Axios<Jugador>, refresco: Axios<seq<Jugador>>)
      modifies this
      ensures var antes := old(EstadoActual()); var token := almacen.Token();
        if !Truthy(token) then
          EstadoActual() == antes.(mensaje := Editor.MensajeNoAutorizado)
          && enviadas == old(enviadas) && refrescos == old(refrescos)
        else if !Editor.TieneId(antes.jugadorActual) then
          EstadoActual() == Reiniciado(antes, antes.mensaje, refresco)
          && enviadas == old(enviadas) && refrescos == old(refrescos) + 1
        else
          var j := antes.jugadorActual.value;
          enviadas == old(enviadas) + [JugadorService.SolicitudActualizar(token, j.id.value, AplicarDelta(j, antes.estadisticasAdicionales)).value]
          && (respuesta.Exito? ==>
                EstadoActual() == Reiniciado(antes, MensajeActualizadas, refresco) && refrescos == old(refrescos) + 1)
          && (respuesta.Falla? ==>
                EstadoActual() == antes.(mensaje := MensajeErrorEstadisticas) && refrescos == old(refrescos))
    {
      var token := almacen.GetItem(ClaveToken);
      if !Truthy(token) {
        mensaje := Editor.MensajeNoAutorizado;
        return;
      }
      if Editor.TieneId(jugadorActual) {
        var j := jugadorActual.value;
        var actualizadas := AplicarDelta(j, estadisticasAdicionales);
        var solicitud := JugadorService.SolicitudActualizar(almacen.Token(), j.id.value, actualizadas);
        if solicitud.Some? {
          enviadas := enviadas + [solicitud.value];
        }
        var p := JugadorService.ActualizarJugador(almacen.Token(), j.id.value, actualizadas, respuesta);
        if p.Rechaza? {
          mensaje := MensajeErrorEstadisticas;
          return;
        }
        mensaje := MensajeActualizadas;
      }
      jugadorActual := None;
      estadisticasAdicionales := SinEstadisticas;
      modalAbierto := false;
      RefreshJugadores(refresco);
    }

    /** `handleInputChange`: only the named increment changes. */
    method HandleInputChange(campo: CampoEstadistica, valor: int)
      modifies this
      ensures EstadoActual() == old(EstadoActual()).(estadisticasAdicionales := ConCampo(old(estadisticasAdicionales), campo, valor))
      ensures enviadas == old(enviadas) && refrescos == old(refrescos)
    {
      estadisticasAdicionales := ConCampo(estadisticasAdicionales, campo, valor);
    }

    /** `abrirModal`: selects the player and opens the modal. The increments
        are NOT reset, so those typed for an earlier player carry over. */
    method AbrirModal(jugador: Jugador)
      modifies this
      ensures EstadoActual() == old(EstadoActual()).(jugadorActual := Some(jugador), modalAbierto := true)
      ensures estadisticasAdicionales == old(estadisticasAdicionales)
      ensures enviadas == old(enviadas) && refrescos == old(refrescos)
    {
      jugadorActual := Some(jugador);
      modalAbierto := true;
    }

    /** `cerrarModal`: only the modal flag; the selection and increments stay. */
    method CerrarModal()
      modifies this
      ensures EstadoActual() == old(EstadoActual()).(modalAbierto := false)
      ensures enviadas == old(enviadas) && refrescos == old(refrescos)
    {
      modalAbierto := false;
    }
  }
}
