/** What the two editor screens (feedback and player management) share word
    for word: the unauthorised message, the `jugadorActual?._id` test, and
    `refreshJugadores`, which replaces the list on a successful fetch and
    otherwise sets an error message, leaving the list as it was. */
module Editor {
  import opened Tipos
  import Api

  const MensajeNoAutorizado := "No estás autorizado para realizar esta acción"
  const MensajeErrorObtener := "Error al obtener los jugadores"

  /** A selected player with a truthy `_id`: the case in which both screens
      send an update rather than a create or nothing. */
  predicate TieneId(actual: Option<Jugador>) {
    actual.Some? && Truthy(actual.value.id)
  }

  /** The list and message after `refreshJugadores`, given the GET's outcome. */
  datatype TrasRefresco = TrasRefresco(jugadores: seq<Jugador>, mensaje: string)

  function Refrescar(jugadores: seq<Jugador>, mensaje: string, respuesta: Axios<seq<Jugador>>): (r: TrasRefresco)
    ensures respuesta.Exito? ==> r == TrasRefresco(respuesta.data, mensaje)
    ensures respuesta.Falla? ==> r == TrasRefresco(jugadores, MensajeErrorObtener)
  {
    match Api.ObtenerJugadores(respuesta)
    case Resuelve(data) => TrasRefresco(data, mensaje)
    case Rechaza(_) => TrasRefresco(jugadores, MensajeErrorObtener)
  }
}
