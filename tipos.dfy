/** Value types shared by the whole client: the player record, the decoded
    session identity, and abstractions of the JavaScript values the handlers
    branch on (optional values, promises, axios outcomes). */
module Tipos {

  /** `T | null | undefined` in the source. */
  datatype Option<+T> = None | Some(value: T) {
    function GetOr(default: T): T {
      match this
      case Some(v) => v
      case None => default
    }
  }

  /** JavaScript truthiness of an optional string: `null`, `undefined` and ""
      are falsy, every other string is truthy. */
  predicate Truthy(s: Option<string>) {
    s.Some? && s.value != ""
  }

  /** A player record. Optional properties of the source interface are
      `Option`s; statistics are unbounded integers (no sign is enforced). */
  datatype Jugador = Jugador(
    id: Option<string>,
    nombre: string,
    apellidos: Option<string>,
    apodo: Option<string>,
    nacionalidad: Option<string>,
    posicion: Option<string>,
    goles: int,
    asistencias: int,
    partidosGanados: int,
    partidosPerdidos: int,
    fecha: string)
  {
    /** The derived "matches played" column; it is never stored. With
        non-negative counts it is at least each of them. */
    function PartidosJugados(): (n: int)
      ensures partidosGanados >= 0 && partidosPerdidos >= 0 ==> n >= partidosGanados && n >= partidosPerdidos
    {
      partidosGanados + partidosPerdidos
    }
  }

  /** The record a form edit starts from when no player is selected. */
  const JugadorVacio := Jugador(None, "", None, None, None, None, 0, 0, 0, 0, "")

  /** The identity carried by a session token. */
  datatype DecodedToken = DecodedToken(id: string, rol: string)

  /** An error value a promise rejects with: either one built by this client,
      with its message, or one raised inside a foreign library (axios,
      jwt-decode) whose text the model does not fix. */
  datatype Error = ErrorConMensaje(mensaje: string) | ErrorExterno

  /** The settled state of a promise. */
  datatype Promesa<+T> = Resuelve(valor: T) | Rechaza(error: Error)

  /** What axios puts in `error.response.data`: only its `message` property
      is consulted. */
  datatype DatosError = DatosError(message: Option<string>)

  /** The three shapes of an axios error the client distinguishes. */
  datatype ErrorAxios =
    | ConRespuesta(data: DatosError, statusText: string)  // `error.response` is set
    | SinRespuesta                                         // only `error.request` is set
    | Otro(message: string)                                // the request was never made

  /** The outcome of one HTTP exchange, as axios settles it. */
  datatype Axios<+T> = Exito(data: T) | Falla(error: ErrorAxios)
}
