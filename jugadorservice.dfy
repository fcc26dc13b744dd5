/** The admin write calls `crearJugador`, `actualizarJugador` and
    `eliminarJugador`. Each reads the stored token, may build one HTTP
    request, and settles a promise from the server's answer. A call is
    modelled by two functions: `Solicitud…`, the request it sends (None when
    it sends none), and the call itself, the promise it settles given the
    `Axios` outcome of that request (ignored when no request is sent). */
module JugadorService {
  import opened Tipos

  datatype Metodo = Post | Put | Delete

  datatype Cabecera = Cabecera(nombre: string, valor: string)

  /** A request descriptor: verb, URL, headers and JSON body. */
  datatype Solicitud = Solicitud(metodo: Metodo, url: string, cabeceras: seq<Cabecera>, cuerpo: Option<Jugador>)

  const UrlAdmin := "http://localhost:5000/api/admin"
  const PrefijoBearer := "Bearer "
  const CabeceraJson := Cabecera("Content-Type", "application/json")

  const MensajeSinToken := "No se ha encontrado un token válido."
  const MensajeErrorActualizar := "Error al actualizar el jugador"
  const MensajeErrorEliminar := "Error al eliminar el jugador"

  function Autorizacion(token: string): Cabecera {
    Cabecera("Authorization", PrefijoBearer + token)
  }

  /** `${UrlAdmin}/${id}` */
  function UrlJugador(id: string): string {
    UrlAdmin + "/" + id
  }

  /** The validation `crearJugador` runs before posting: both `nombre` and
      `apellidos` must be truthy. */
  predicate DatosCompletos(datos: Jugador) {
    datos.nombre != "" && Truthy(datos.apellidos)
  }

  // ---------------------------------------------------------------- create

  /** The POST `crearJugador` sends: none without a truthy token or with
      incomplete data; otherwise the whole draft to the admin endpoint. */
  function SolicitudCrear(token: Option<string>, datos: Jugador): (r: Option<Solicitud>)
    ensures r.Some? <==> Truthy(token) && DatosCompletos(datos)
    ensures r.Some? ==> r.value.metodo == Post && r.value.url == UrlAdmin && r.value.cuerpo == Some(datos)
    ensures r.Some? ==> r.value.cabeceras == [Autorizacion(token.value), CabeceraJson]
  {
    if !Truthy(token) then None
    else if !DatosCompletos(datos) then None
    else Some(Solicitud(Post, UrlAdmin, [Autorizacion(token.value), CabeceraJson], Some(datos)))
  }

  /** `crearJugador`: it never rejects. A missing token, incomplete data and a
      failed POST all resolve to `undefined` (the last two after an alert);
      only a successful POST yields the server's data. */
  function CrearJugador<T>(token: Option<string>, datos: Jugador, respuesta: Axios<T>): (p: Promesa<Option<T>>)
    ensures p.Resuelve?
    ensures p.valor.Some? <==> SolicitudCrear(token, datos).Some? && respuesta.Exito?
    ensures p.valor.Some? ==> p.valor.value == respuesta.data
  {
    if !Truthy(token) then Resuelve(None)
    else if !DatosCompletos(datos) then Resuelve(None)
    else match respuesta
      case Exito(data) => Resuelve(Some(data))
      case Falla(_) => Resuelve(None)
  }

  // ---------------------------------------------------------------- update

  /** The PUT `actualizarJugador` sends: the whole record, to the player's URL. */
  function SolicitudActualizar(token: Option<string>, id: string, jugador: Jugador): (r: Option<Solicitud>)
    ensures r.Some? <==> Truthy(token)
    ensures r.Some? ==> r.value.metodo == Put && r.value.url == UrlJugador(id) && r.value.cuerpo == Some(jugador)
    ensures r.Some? ==> r.value.cabeceras == [Autorizacion(token.value), CabeceraJson]
  {
    if Truthy(token) then Some(Solicitud(Put, UrlJugador(id), [Autorizacion(token.value), CabeceraJson], Some(jugador)))
    else None
  }

  /** `actualizarJugador`: throws before any request without a token; any
      failure of the PUT is rethrown under one fixed message. */
  function ActualizarJugador<T>(token: Option<string>, id: string, jugador: Jugador, respuesta: Axios<T>): (p: Promesa<T>)
    ensures !Truthy(token) ==> p == Rechaza(ErrorConMensaje(MensajeSinToken))
    ensures Truthy(token) ==> (p.Resuelve? <==> respuesta.Exito?)
    ensures Truthy(token) && p.Resuelve? ==> p.valor == respuesta.data
    ensures Truthy(token) && p.Rechaza? ==> p.error == ErrorConMensaje(MensajeErrorActualizar)
  {
    if !Truthy(token) then Rechaza(ErrorConMensaje(MensajeSinToken))
    else match respuesta
      case Exito(data) => Resuelve(data)
      case Falla(_) => Rechaza(ErrorConMensaje(MensajeErrorActualizar))
  }

  // ---------------------------------------------------------------- delete

  /** The DELETE `eliminarJugador` sends: no body, and only the
      Authorization header. */
  function SolicitudEliminar(token: Option<string>, id: string): (r: Option<Solicitud>)
    ensures r.Some? <==> Truthy(token)
    ensures r.Some? ==> r.value.metodo == Delete && r.value.url == UrlJugador(id) && r.value.cuerpo == None
    ensures r.Some? ==> r.value.cabeceras == [Autorizacion(token.value)]
  {
    if Truthy(token) then Some(Solicitud(Delete, UrlJugador(id), [Autorizacion(token.value)], None))
    else None
  }

  /** `eliminarJugador`: throws before any request without a token; any
      failure of the DELETE is rethrown under one fixed message. */
  function EliminarJugador<T>(token: Option<string>, id: string, respuesta: Axios<T>): (p: Promesa<T>)
    ensures !Truthy(token) ==> p == Rechaza(ErrorConMensaje(MensajeSinToken))
    ensures Truthy(token) ==> (p.Resuelve? <==> respuesta.Exito?)
    ensures Truthy(token) && p.Resuelve? ==> p.valor == respuesta.data
    ensures Truthy(token) && p.Rechaza? ==> p.error == ErrorConMensaje(MensajeErrorEliminar)
  {
    if !Truthy(token) then Rechaza(ErrorConMensaje(MensajeSinToken))
    else match respuesta
      case Exito(data) => Resuelve(data)
      case Falla(_) => Rechaza(ErrorConMensaje(MensajeErrorEliminar))
  }

  // ---------------------------------------------------------------- properties

  /** The token a Bearer header carries. */
  function TokenDeAutorizacion(c: Cabecera): Option<string> {
    if c.nombre == "Authorization" && PrefijoBearer <= c.valor then Some(c.valor[|PrefijoBearer|..]) else None
  }

  /** The player id a player URL targets. */
  function IdDeUrl(url: string): Option<string> {
    if UrlAdmin + "/" <= url then Some(url[|UrlAdmin + "/"|..]) else None
  }

  /** Every request any of the three calls sends authorises itself with
      exactly the stored token: its first header is the Bearer header, and
      the token can be read back from it. */
  lemma SolicitudesAutorizadas(token: Option<string>, id: string, j: Jugador)
    ensures forall s :: s in [SolicitudCrear(token, j), SolicitudActualizar(token, id, j), SolicitudEliminar(token, id)] && s.Some? ==>
      |s.value.cabeceras| >= 1 && TokenDeAutorizacion(s.value.cabeceras[0]) == token
  {
    if Truthy(token) {
      var c := Autorizacion(token.value);
      assert PrefijoBearer <= c.valor;
      assert c.valor[|PrefijoBearer|..] == token.value;
    }
  }

  /** Update and delete target the admin URL of exactly the given id. */
  lemma UrlsPorId(token: Option<string>, id: string, j: Jugador)
    ensures SolicitudActualizar(token, id, j).Some? ==> IdDeUrl(SolicitudActualizar(token, id, j).value.url) == Some(id)
    ensures SolicitudEliminar(token, id).Some? ==> IdDeUrl(SolicitudEliminar(token, id).value.url) == Some(id)
  {
    var u := UrlJugador(id);
    assert u == (UrlAdmin + "/") + id;
    assert UrlAdmin + "/" <= u;
    assert u[|UrlAdmin + "/"|..] == id;
  }

  /** Without a truthy token no call sends anything, whatever its other inputs. */
  lemma SinTokenNingunaSolicitud(token: Option<string>, id: string, j: Jugador)
    requires !Truthy(token)
    ensures SolicitudCrear(token, j) == None
    ensures SolicitudActualizar(token, id, j) == None
    ensures SolicitudEliminar(token, id) == None
  {
  }

  /** `crearJugador` does not throw on a missing token, while the other two do. */
  lemma SinTokenCrearResuelveLosDemasLanzan<T>(token: Option<string>, id: string, j: Jugador, respuesta: Axios<T>)
    requires !Truthy(token)
    ensures CrearJugador(token, j, respuesta) == Resuelve(None)
    ensures ActualizarJugador(token, id, j, respuesta).Rechaza?
    ensures EliminarJugador(token, id, respuesta).Rechaza?
  {
  }
}
