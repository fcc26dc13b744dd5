/** The page header: the login modal, the two-step logout confirmation, the
    mobile menu, and which links and buttons a session may see. It holds its
    own `useAuth` instance. */
module Header {
  import opened Tipos
  import opened Almacen
  import AuthService
  import UseAuth

  const MensajeExito := "Inicio de sesión exitoso"
  const MensajeCredenciales := "Correo o contraseña incorrectos"

  /** The header renders its links and its session button twice: in the
      mobile menu and in the desktop bar. */
  datatype Vista = Movil | Escritorio

  /** A navigation link: its text, its target, and whether a click on it
      also closes the mobile menu (`setMenuOpen(false)`). */
  datatype Enlace = Enlace(texto: string, ruta: string, cierraMenu: bool)

  const RutaGestionar := "/gestionar-jugadores"
  const RutaFeedback := "/feedback-jugador"

  /** The links every visitor sees. */
  function EnlacesPublicos(v: Vista): seq<Enlace> {
    [Enlace("Temporadas", "#", v == Movil), Enlace("Nosotros", "#", v == Movil)]
  }

  /** The links behind `usuario?.rol === "admin"`. */
  function EnlacesAdmin(v: Vista): seq<Enlace> {
    [Enlace("Gestionar Jugadores", RutaGestionar, v == Movil),
     Enlace("Feedback Jugador", RutaFeedback, v == Movil)]
  }

  predicate EsAdmin(usuario: Option<DecodedToken>) {
    usuario.Some? && usuario.value.rol == "admin"
  }

  /** The links one layout renders for a session: the public ones always and
      first, the two management pages exactly for an admin, and in the mobile
      menu only, a click closes the menu. */
  function Enlaces(v: Vista, usuario: Option<DecodedToken>): (s: seq<Enlace>)
    ensures |s| >= 2 && s[..2] == EnlacesPublicos(v)
    ensures forall e :: e in s ==> (e.cierraMenu <==> v == Movil)
    ensures (exists e :: e in s && e.ruta == RutaGestionar) <==> EsAdmin(usuario)
    ensures (exists e :: e in s && e.ruta == RutaFeedback) <==> EsAdmin(usuario)
  {
    var s := EnlacesPublicos(v) + (if EsAdmin(usuario) then EnlacesAdmin(v) else []);
    assert EsAdmin(usuario) ==> s[2].ruta == RutaGestionar && s[3].ruta == RutaFeedback;
    s
  }

  /** The session button: "Iniciar Sesión" opens the login modal
      (`toggleModal`), "Cerrar Sesión" asks to confirm the logout
      (`handleLogout`). */
  datatype Boton = IniciarSesion | CerrarSesion

  /** The session button of one layout. The mobile menu tests `usuario`, the
      desktop bar tests `!usuario`; either way the logout button is shown
      exactly when there is a session. */
  function BotonSesion(v: Vista, usuario: Option<DecodedToken>): (b: Boton)
    ensures b == CerrarSesion <==> usuario.Some?
    ensures b == IniciarSesion <==> usuario.None?
  {
    match v
    case Movil => if usuario.Some? then CerrarSesion else IniciarSesion
    case Escritorio => if usuario.None? then IniciarSesion else CerrarSesion
  }

  /** Both layouts show the same links, in the same order, and the same
      session button. */
  lemma VistasCoinciden(usuario: Option<DecodedToken>)
    ensures |Enlaces(Movil, usuario)| == |Enlaces(Escritorio, usuario)|
    ensures forall i :: 0 <= i < |Enlaces(Movil, usuario)| ==>
              Enlaces(Movil, usuario)[i].texto == Enlaces(Escritorio, usuario)[i].texto
              && Enlaces(Movil, usuario)[i].ruta == Enlaces(Escritorio, usuario)[i].ruta
    ensures BotonSesion(Movil, usuario) == BotonSesion(Escritorio, usuario)
  {
    var m, d := Enlaces(Movil, usuario), Enlaces(Escritorio, usuario);
    if EsAdmin(usuario) {
      assert m == EnlacesPublicos(Movil) + EnlacesAdmin(Movil);
      assert d == EnlacesPublicos(Escritorio) + EnlacesAdmin(Escritorio);
    } else {
      assert m == EnlacesPublicos(Movil) && d == EnlacesPublicos(Escritorio);
    }
  }

  /** A management link is only ever rendered beside the logout button. */
  lemma EnlacesAdminConSesion(v: Vista, usuario: Option<DecodedToken>, e: Enlace)
    requires e in Enlaces(v, usuario) && (e.ruta == RutaGestionar || e.ruta == RutaFeedback)
    ensures BotonSesion(v, usuario) == CerrarSesion
  {
  }

  class Header {
    var menuOpen: bool
    var correo: string
    var contrasena: string
    var error: string
    var successMessage: string
    var modalOpen: bool
    var confirmLogout: bool
    const auth: UseAuth.Hook

    constructor (auth: UseAuth.Hook)
      ensures this.auth == auth
      ensures !menuOpen && correo == "" && contrasena == "" && error == "" && successMessage == ""
      ensures !modalOpen && !confirmLogout
    {
      this.auth := auth;
      menuOpen, correo, contrasena, error, successMessage := false, "", "", "", "";
      modalOpen, confirmLogout := false, false;
    }

    /** `handleLogin`. The error is cleared first. On success the identity
        becomes the session, the success message is set and the modal closes.
        On failure the fixed error message is set, the modal and the session
        stay as they were; storage changes only if the POST succeeded (its
        token was stored before decoding failed). */
    method HandleLogin(respuesta: Axios<AuthService.LoginRespuesta>, decode: string -> Option<DecodedToken>)
      returns (enviada: AuthService.SolicitudLogin)
      modifies this, auth, auth.almacen
      ensures enviada == AuthService.SolicitudLogin(AuthService.UrlLogin, old(correo), old(contrasena))
      ensures respuesta.Falla? ==> auth.almacen.items == old(auth.almacen.items)
      ensures respuesta.Exito? ==> auth.almacen.items == old(auth.almacen.items)[ClaveToken := respuesta.data.token]
      ensures respuesta.Exito? && decode(respuesta.data.token).Some? ==>
                auth.usuario == decode(respuesta.data.token) && successMessage == MensajeExito
                && error == "" && !modalOpen
      ensures !(respuesta.Exito? && decode(respuesta.data.token).Some?) ==>
                auth.usuario == old(auth.usuario) && error == MensajeCredenciales
                && modalOpen == old(modalOpen) && successMessage == old(successMessage)
      ensures correo == old(correo) && contrasena == old(contrasena)
      ensures menuOpen == old(menuOpen) && confirmLogout == old(confirmLogout)
    {
      error := "";
      var p;
      enviada, p := AuthService.IniciarSesion(auth.almacen, correo, contrasena, respuesta, decode);
      match p {
        case Resuelve(decodedUser) =>
          auth.Login(decodedUser);
          successMessage := MensajeExito;
          modalOpen := false;
        case Rechaza(_) =>
          error := MensajeCredenciales;
      }
    }

    /** `handleLogout`: only asks for confirmation. */
    method HandleLogout()
      modifies this
      ensures confirmLogout
      ensures menuOpen == old(menuOpen) && correo == old(correo) && contrasena == old(contrasena)
      ensures error == old(error) && successMessage == old(successMessage) && modalOpen == old(modalOpen)
      ensures auth.usuario == old(auth.usuario) && auth.almacen.items == old(auth.almacen.items)
    {
      confirmLogout := true;
    }

    /** `confirmLogoutAction`: drops the stored token (twice: through the
        service and through the hook), clears the identity and the login
        form, and closes the confirmation. No admin link remains. */
    method ConfirmLogoutAction()
      modifies this, auth, auth.almacen
      ensures auth.almacen.items == old(auth.almacen.items) - {ClaveToken}
      ensures auth.usuario == None
      ensures forall v :: Enlaces(v, auth.usuario) == EnlacesPublicos(v) && BotonSesion(v, auth.usuario) == IniciarSesion
      ensures correo == "" && contrasena == "" && !confirmLogout
      ensures menuOpen == old(menuOpen) && error == old(error)
      ensures successMessage == old(successMessage) && modalOpen == old(modalOpen)
    {
      AuthService.CerrarSesion(auth.almacen);
      auth.Logout();
      correo := "";
      contrasena := "";
      confirmLogout := false;
    }

    /** `cancelLogoutAction`: only closes the confirmation. */
    method CancelLogoutAction()
      modifies this
      ensures !confirmLogout
      ensures menuOpen == old(menuOpen) && correo == old(correo) && contrasena == old(contrasena)
      ensures error == old(error) && successMessage == old(successMessage) && modalOpen == old(modalOpen)
      ensures auth.usuario == old(auth.usuario) && auth.almacen.items == old(auth.almacen.items)
    {
      confirmLogout := false;
    }

    /** `toggleModal` */
    method ToggleModal()
      modifies this`modalOpen
      ensures modalOpen == !old(modalOpen)
    {
      modalOpen := !modalOpen;
    }

    /** `toggleMenu` */
    method ToggleMenu()
      modifies this`menuOpen
      ensures menuOpen == !old(menuOpen)
    {
      menuOpen := !menuOpen;
    }

    /** The login inputs' `onChange`: `setCorreo` and `setContrasena`. */
    method SetCorreo(valor: string)
      modifies this`correo
      ensures correo == valor
    {
      correo := valor;
    }

    method SetContrasena(valor: string)
      modifies this`contrasena
      ensures contrasena == valor
    {
      contrasena := valor;
    }

    /** A click on a mobile-menu link: `setMenuOpen(false)`. */
    method CerrarMenu()
      modifies this`menuOpen
      ensures !menuOpen
    {
      menuOpen := false;
    }

    /** Both toggles are involutions: applying one twice restores its flag. */
    method ToggleDosVeces()
      modifies this`modalOpen, this`menuOpen
      ensures modalOpen == old(modalOpen) && menuOpen == old(menuOpen)
    {
      ToggleModal();
      ToggleModal();
      ToggleMenu();
      ToggleMenu();
    }
  }
}
