/** `iniciarSesion` and `cerrarSesion`: log in against the auth endpoint,
    keep the returned token in storage, and hand back its decoding. The
    decoder (jwt-decode) is the parameter `decode`, None meaning that it
    throws. */
module AuthService {
  import opened Tipos
  import opened Almacen

  const UrlLogin := "http://localhost:5000/api/auth/login"

  /** The login POST: its URL and JSON body. */
  datatype SolicitudLogin = SolicitudLogin(url: string, correo: string, contrasena: string)

  /** The body of a successful login response. */
  datatype LoginRespuesta = LoginRespuesta(token: string)

  /** The promise `iniciarSesion` settles once the POST has answered and the
      token has been stored: the decoding of that token, or the decoder's
      exception. */
  function Decodificar(decode: string -> Option<DecodedToken>, token: string): (p: Promesa<DecodedToken>)
    ensures p.Resuelve? <==> decode(token).Some?
    ensures p.Resuelve? ==> p.valor == decode(token).value
  {
    match decode(token)
    case Some(d) => Resuelve(d)
    case None => Rechaza(ErrorExterno)
  }

  /** `iniciarSesion(correo, contrasena)`. It sends the credentials
      unchanged; a failed POST rejects with storage untouched; a successful
      one stores its token under "token" BEFORE decoding it, so a token that
      does not decode stays stored while the promise rejects. */
  method IniciarSesion(almacen: Almacenamiento, correo: string, contrasena: string,
                       respuesta: Axios<LoginRespuesta>, decode: string -> Option<DecodedToken>)
    returns (enviada: SolicitudLogin, p: Promesa<DecodedToken>)
    modifies almacen
    ensures enviada == SolicitudLogin(UrlLogin, correo, contrasena)
    ensures respuesta.Falla? ==> p == Rechaza(ErrorExterno) && almacen.items == old(almacen.items)
    ensures respuesta.Exito? ==> almacen.items == old(almacen.items)[ClaveToken := respuesta.data.token]
    ensures respuesta.Exito? ==> p == Decodificar(decode, almacen.Token().value)
  {
    enviada := SolicitudLogin(UrlLogin, correo, contrasena);
    match respuesta {
      case Falla(_) =>
        p := Rechaza(ErrorExterno);
      case Exito(data) =>
        almacen.SetItem(ClaveToken, data.token);
        p := Decodificar(decode, data.token);
    }
  }

  /** `cerrarSesion`: removes the "token" key and nothing else. */
  method CerrarSesion(almacen: Almacenamiento)
    modifies almacen
    ensures almacen.items == old(almacen.items) - {ClaveToken}
  {
    almacen.RemoveItem(ClaveToken);
  }
}
