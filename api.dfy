/** The read endpoint: `obtenerJugadores` fetches every player and turns each
    kind of axios failure into an `Error` with a user-facing message. The GET
    itself is the `Axios` outcome passed in. */
module Api {
  import opened Tipos

  const PrefijoServidor := "Error al obtener jugadores: "
  const MensajeRed := "Error al intentar conectar con el servidor."
  const PrefijoInesperado := "Error inesperado: "

  /** The three failure classes the handler tells apart. */
  datatype ClaseError = Servidor | Red | Inesperado

  function ClaseDe(e: ErrorAxios): ClaseError {
    match e
    case ConRespuesta(_, _) => Servidor
    case SinRespuesta => Red
    case Otro(_) => Inesperado
  }

  /** The detail a server-response error reports: the payload's `message`
      when it is truthy, `statusText` otherwise (the `||` fallback). */
  function DetalleServidor(data: DatosError, statusText: string): string {
    if Truthy(data.message) then data.message.value else statusText
  }

  /** The text of the `Error` thrown for an axios failure. */
  function MensajeDeError(e: ErrorAxios): string {
    match e
    case ConRespuesta(data, statusText) => PrefijoServidor + DetalleServidor(data, statusText)
    case SinRespuesta => MensajeRed
    case Otro(message) => PrefijoInesperado + message
  }

  /** Reads the failure class back off a message. */
  function Clasificar(m: string): ClaseError {
    if PrefijoServidor <= m then Servidor
    else if m == MensajeRed then Red
    else Inesperado
  }

  /** `obtenerJugadores`: the response data unchanged on success; on every
      failure a rejection (never a value) carrying the message built for
      that failure, from which the class of the failure reads back. */
  function ObtenerJugadores(r: Axios<seq<Jugador>>): (p: Promesa<seq<Jugador>>)
    ensures p.Resuelve? <==> r.Exito?
    ensures p.Resuelve? ==> p.valor == r.data
    ensures p.Rechaza? ==> p.error == ErrorConMensaje(MensajeDeError(r.error))
    ensures p.Rechaza? ==> Clasificar(p.error.mensaje) == ClaseDe(r.error)
  {
    match r
    case Exito(data) => Resuelve(data)
    case Falla(e) =>
      ClasificarMensaje(e);
      Rechaza(ErrorConMensaje(MensajeDeError(e)))
  }

  /** The three message shapes never collide: the class of a failure can be
      read back from its message. */
  lemma ClasificarMensaje(e: ErrorAxios)
    ensures Clasificar(MensajeDeError(e)) == ClaseDe(e)
  {
    match e
    case ConRespuesta(data, statusText) =>
      assert PrefijoServidor <= PrefijoServidor + DetalleServidor(data, statusText);
    case SinRespuesta =>
      assert MensajeRed[9] != PrefijoServidor[9];
    case Otro(message) =>
      var m := PrefijoInesperado + message;
      assert m[6] == 'i' && PrefijoServidor[6] == 'a' && MensajeRed[6] == 'a';
  }

  /** A server-response message is the fixed prefix followed by the server's
      own text; `statusText` is used exactly when `message` is missing or empty. */
  lemma DetalleRecuperable(data: DatosError, statusText: string)
    ensures MensajeDeError(ConRespuesta(data, statusText))[..|PrefijoServidor|] == PrefijoServidor
    ensures MensajeDeError(ConRespuesta(data, statusText))[|PrefijoServidor|..]
            == (if Truthy(data.message) then data.message.value else statusText)
  {
    var d := DetalleServidor(data, statusText);
    assert (PrefijoServidor + d)[..|PrefijoServidor|] == PrefijoServidor;
    assert (PrefijoServidor + d)[|PrefijoServidor|..] == d;
  }

  /** An unexpected failure reports "Error inesperado: " followed by the
      error's own message. */
  lemma MensajeInesperadoRecuperable(message: string)
    ensures MensajeDeError(Otro(message))[..|PrefijoInesperado|] == PrefijoInesperado
    ensures MensajeDeError(Otro(message))[|PrefijoInesperado|..] == message
  {
    assert (PrefijoInesperado + message)[..|PrefijoInesperado|] == PrefijoInesperado;
    assert (PrefijoInesperado + message)[|PrefijoInesperado|..] == message;
  }
}
