/** The player-management screen: a create/edit form in a modal, a delete
    button per row, and the list itself. */
module GestionarJugadores {
  import opened Tipos
  import opened Almacen
  import JugadorService
  import Editor

  // ------------------------------------------------------------ field edits

  /** The nine form fields, in form order: five text inputs and four number
      inputs. */
  datatype CampoTexto = Nombre | Apellidos | Apodo | Nacionalidad | Posicion
  datatype CampoNumero = Goles | Asistencias | PartidosGanados | PartidosPerdidos
  datatype Campo = DeTexto(texto: CampoTexto) | DeNumero(numero: CampoNumero)

  /** A field's value as the form sees it. */
  datatype Valor = Texto(texto: Option<string>) | Numero(numero: int)

  function Lee(j: Jugador, c: Campo): Valor {
    match c
    case DeTexto(Nombre) => Texto(Some(j.nombre))
    case DeTexto(Apellidos) => Texto(j.apellidos)
    case DeTexto(Apodo) => Texto(j.apodo)
    case DeTexto(Nacionalidad) => Texto(j.nacionalidad)
    case DeTexto(Posicion) => Texto(j.posicion)
    case DeNumero(Goles) => Numero(j.goles)
    case DeNumero(Asistencias) => Numero(j.asistencias)
    case DeNumero(PartidosGanados) => Numero(j.partidosGanados)
    case DeNumero(PartidosPerdidos) => Numero(j.partidosPerdidos)
  }

  /** One `onChange` of the form: text inputs deliver their string, number
      inputs their numeric value. */
  datatype Edicion =
    | EditarTexto(campoTexto: CampoTexto, texto: string)
    | EditarNumero(campoNumero: CampoNumero, numero: int)

  function CampoDe(e: Edicion): Campo {
    match e
    case EditarTexto(c, _) => DeTexto(c)
    case EditarNumero(c, _) => DeNumero(c)
  }

  function ValorDe(e: Edicion): Valor {
    match e
    case EditarTexto(_, t) => Texto(Some(t))
    case EditarNumero(_, n) => Numero(n)
  }

  /** `{ ...prev, [field]: value }`: the edited field reads back the new
      value; every other field, `_id` and `fecha` included, is kept. */
  function AplicarEdicion(j: Jugador, e: Edicion): (r: Jugador)
    ensures Lee(r, CampoDe(e)) == ValorDe(e)
    ensures forall c :: c != CampoDe(e) ==> Lee(r, c) == Lee(j, c)
    ensures r.id == j.id && r.fecha == j.fecha
  {
    match e
    case EditarTexto(c, t) =>
      (match c
       case Nombre => j.(nombre := t)
       case Apellidos => j.(apellidos := Some(t))
       case Apodo => j.(apodo := Some(t))
       case Nacionalidad => j.(nacionalidad := Some(t))
       case Posicion => j.(posicion := Some(t)))
    case EditarNumero(c, n) =>
      (match c
       case Goles => j.(goles := n)
       case Asistencias => j.(asistencias := n)
       case PartidosGanados => j.(partidosGanados := n)
       case PartidosPerdidos => j.(partidosPerdidos := n))
  }

  // ------------------------------------------------------------ delete filter

  /** `jugadores.filter((j) => j._id !== id)`: a record without `_id` is kept. */
  function EliminarPorId(jugadores: seq<Jugador>, id: string): (r: seq<Jugador>)
    ensures |r| <= |jugadores|
    ensures forall j :: j in r <==> j in jugadores && j.id != Some(id)
  {
    if jugadores == [] then []
    else if jugadores[0].id == Some(id) then EliminarPorId(jugadores[1..], id)
    else [jugadores[0]] + EliminarPorId(jugadores[1..], id)
  }

  /** Deleting from a concatenation deletes from each part and keeps them in
      that order: together with the one-element case this says the kept
      records are exactly those without the id, in their original order. */
  lemma {:induction false} EliminarConcatenacion(a: seq<Jugador>, b: seq<Jugador>, id: string)
    ensures EliminarPorId(a + b, id) == EliminarPorId(a, id) + EliminarPorId(b, id)
    decreases |a|
  {
    if a == [] {
      assert a + b == b;
    } else {
      assert (a + b)[0] == a[0];
      assert (a + b)[1..] == a[1..] + b;
      EliminarConcatenacion(a[1..], b, id);
    }
  }

  lemma EliminarUno(x: Jugador, id: string)
    ensures EliminarPorId([x], id) == if x.id == Some(id) then [] else [x]
  {
    assert [x][1..] == [];
  }

  /** Deleting an id no record carries changes nothing. */
  lemma {:induction false} EliminarIdAusente(jugadores: seq<Jugador>, id: string)
    requires forall j :: j in jugadores ==> j.id != Some(id)
    ensures EliminarPorId(jugadores, id) == jugadores
    decreases |jugadores|
  {
    if jugadores != [] {
      assert jugadores[0] in jugadores;
      assert forall j :: j in jugadores[1..] ==> j in jugadores;
      EliminarIdAusente(jugadores[1..], id);
      assert [jugadores[0]] + jugadores[1..] == jugadores;
    }
  }

  /** Deleting the same id twice is deleting it once. */
  lemma EliminarIdempotente(jugadores: seq<Jugador>, id: string)
    ensures EliminarPorId(EliminarPorId(jugadores, id), id) == EliminarPorId(jugadores, id)
  {
    EliminarIdAusente(EliminarPorId(jugadores, id), id);
  }

  /** Exactly the records carrying the id are removed: the length drops by
      their number. */
  function ConId(jugadores: seq<Jugador>, id: string): nat {
    if jugadores == [] then 0
    else (if jugadores[0].id == Some(id) then 1 else 0) + ConId(jugadores[1..], id)
  }

  lemma {:induction false} EliminarLongitud(jugadores: seq<Jugador>, id: string)
    ensures |EliminarPorId(jugadores, id)| == |jugadores| - ConId(jugadores, id)
    decreases |jugadores|
  {
    if jugadores != [] {
      EliminarLongitud(jugadores[1..], id);
    }
  }

  // ------------------------------------------------------------ the table

  /** One row of "Lista de Jugadores": the player whose text columns it
      shows, its goals, its matches played, and the `_id` that keys the row
      and that its delete button passes on. */
  datatype FilaGestion = FilaGestion(jugador: Jugador, goles: int, jugados: int, clave: Option<string>)

  /** The management table: a row per player, in list order. */
  function TablaGestion(l: seq<Jugador>): (t: seq<FilaGestion>)
    ensures |t| == |l|
    ensures forall i :: 0 <= i < |l| ==> t[i].jugador == l[i] && t[i].clave == l[i].id
    ensures forall i :: 0 <= i < |l| ==>
              t[i].goles == l[i].goles && t[i].jugados == l[i].partidosGanados + l[i].partidosPerdidos
  {
    seq(|l|, i requires 0 <= i < |l| => FilaGestion(l[i], l[i].goles, l[i].PartidosJugados(), l[i].id))
  }

  /** After a delete the table has no row for the deleted id. */
  lemma TablaTrasEliminar(l: seq<Jugador>, id: string)
    ensures forall f :: f in TablaGestion(EliminarPorId(l, id)) ==> f.clave != Some(id)
  {
    var r := EliminarPorId(l, id);
    forall f | f in TablaGestion(r)
      ensures f.clave != Some(id)
    {
      var i :| 0 <= i < |r| && TablaGestion(r)[i] == f;
      assert r[i] in r;
    }
  }

  // ------------------------------------------------------------ the screen

  const MensajeActualizado := "Jugador actualizado exitosamente"
  const MensajeCreado := "Jugador creado exitosamente"
  const MensajeErrorGuardar := "Error al guardar el jugador"
  const MensajeEliminado := "Jugador eliminado exitosamente"
  const MensajeErrorEliminar := "Error al eliminar el jugador"

  /** The component's React state. */
  datatype Estado = Estado(
    jugadores: seq<Jugador>,
    jugadorActual: Option<Jugador>,
    mensaje: string,
    cargando: bool,
    modalAbierto: bool)

  /** The state after a save that cleared the form and refreshed the list. */
  function Guardado(antes: Estado, mensaje: string, refresco: Axios<seq<Jugador>>): Estado {
    var r := Editor.Refrescar(antes.jugadores, mensaje, refresco);
    Estado(r.jugadores, None, r.mensaje, false, false)
  }

  /** What `crearJugador` receives: `{ ...jugadorActual, _id: undefined }`. */
  function Borrador(actual: Option<Jugador>): (r: Jugador)
    ensures r.id == None
    ensures actual.Some? ==> r.(id := actual.value.id) == actual.value
  {
    actual.GetOr(JugadorVacio).(id := None)
  }

  /** The request list as a sequence of the at most one request sent. */
  function Enviada(s: Option<JugadorService.Solicitud>): seq<JugadorService.Solicitud> {
    if s.Some? then [s.value] else []
  }

  class GestionarJugadores {
    var jugadores: seq<Jugador>
    var jugadorActual: Option<Jugador>
    var mensaje: string
    var cargando: bool
    var modalAbierto: bool
    /** The write requests this screen has sent, oldest first. */
    ghost var enviadas: seq<JugadorService.Solicitud>
    /** How many list refreshes this screen has run. */
    ghost var refrescos: nat
    const almacen: Almacenamiento

    function EstadoActual(): Estado
      reads this
    {
      Estado(jugadores, jugadorActual, mensaje, cargando, modalAbierto)
    }

    constructor (almacen: Almacenamiento)
      ensures this.almacen == almacen
      ensures EstadoActual() == Estado([], None, "", false, false)
      ensures enviadas == [] && refrescos == 0
    {
      this.almacen := almacen;
      jugadores, jugadorActual, mensaje, cargando, modalAbierto := [], None, "", false, false;
      enviadas, refrescos := [], 0;
    }

    /** `refreshJugadores` */
    method RefreshJugadores(respuesta: Axios<seq<Jugador>>)
      modifies this
      ensures var r := Editor.Refrescar(old(jugadores), old(mensaje), respuesta);
              EstadoActual() == old(EstadoActual()).(jugadores := r.jugadores, mensaje := r.mensaje)
      ensures enviadas == old(enviadas) && refrescos == old(refrescos) + 1
    {
      var r := Editor.Refrescar(jugadores, mensaje, respuesta);
      jugadores, mensaje := r.jugadores, r.mensaje;
      refrescos := refrescos + 1;
    }

    /** The effect on `usuario`: a refresh once a session exists. */
    method AlCambiarUsuario(usuario: Option<DecodedToken>, respuesta: Axios<seq<Jugador>>)
      modifies this
      ensures usuario.None? ==> EstadoActual() == old(EstadoActual()) && refrescos == old(refrescos)
      ensures usuario.Some? ==> var r := Editor.Refrescar(old(jugadores), old(mensaje), respuesta);
              EstadoActual() == old(EstadoActual()).(jugadores := r.jugadores, mensaje := r.mensaje)
              && refrescos == old(refrescos) + 1
      ensures enviadas == old(enviadas)
    {
      if usuario.Some? {
        RefreshJugadores(respuesta);
      }
    }

    /** `handleSubmit`, given the outcome of the write and of the refresh GET.
        - No truthy token: only the unauthorised message; nothing is sent.
        - A selected record with an `_id`: the whole record is sent as an
          update; success clears the form, closes the modal and refreshes,
          failure only sets the error message.
        - Otherwise the record without `_id` goes to `crearJugador`, which
          never rejects: the screen reports success and clears the form even
          when nothing was sent or the server refused it.
        Past the token guard `cargando` ends false. */
    method HandleSubmit(respuesta: Axios<Jugador>, refresco: Axios<seq<Jugador>>)
      modifies this
      ensures var antes := old(EstadoActual()); var token := almacen.Token();
        if !Truthy(token) then
          EstadoActual() == antes.(mensaje := Editor.MensajeNoAutorizado)
          && enviadas == old(enviadas) && refrescos == old(refrescos)
        else if Editor.TieneId(antes.jugadorActual) then
          var j := antes.jugadorActual.value;
          enviadas == old(enviadas) + [JugadorService.SolicitudActualizar(token, j.id.value, j).value]
          && (respuesta.Exito? ==>
                EstadoActual() == Guardado(antes, MensajeActualizado, refresco) && refrescos == old(refrescos) + 1)
          && (respuesta.Falla? ==>
                EstadoActual() == antes.(mensaje := MensajeErrorGuardar, cargando := false) && refrescos == old(refrescos))
        else
          enviadas == old(enviadas) + Enviada(JugadorService.SolicitudCrear(token, Borrador(antes.jugadorActual)))
          && EstadoActual() == Guardado(antes, MensajeCreado, refresco) && refrescos == old(refrescos) + 1
    {
      var token := almacen.GetItem(ClaveToken);
      if !Truthy(token) {
        mensaje := Editor.MensajeNoAutorizado;
        return;
      }
      cargando := true;
      if Editor.TieneId(jugadorActual) {
        var j := jugadorActual.value;
        var solicitud := JugadorService.SolicitudActualizar(almacen.Token(), j.id.value, j);
        enviadas := enviadas + Enviada(solicitud);
        var p := JugadorService.ActualizarJugador(almacen.Token(), j.id.value, j, respuesta);
        if p.Rechaza? {
          mensaje := MensajeErrorGuardar;
          cargando := false;
          return;
        }
        mensaje := MensajeActualizado;
      } else {
        var datos := Borrador(jugadorActual);
        var solicitud := JugadorService.SolicitudCrear(almacen.Token(), datos);
        enviadas := enviadas + Enviada(solicitud);
        var p := JugadorService.CrearJugador(almacen.Token(), datos, respuesta);
        assert p.Resuelve?;
        mensaje := MensajeCreado;
      }
      jugadorActual := None;
      modalAbierto := false;
      RefreshJugadores(refresco);
      cargando := false;
    }

    /** `handleEliminar(id)`, given the outcome of the DELETE. No truthy
        token: only the unauthorised message. Otherwise the DELETE is sent;
        on success the list loses every record with that `_id` and keeps the
        rest in order, on failure the list is untouched; `cargando` ends
        false either way. */
    method HandleEliminar(id: string, respuesta: Axios<()>)
      modifies this
      ensures var antes := old(EstadoActual()); var token := almacen.Token();
        if !Truthy(token) then
          EstadoActual() == antes.(mensaje := Editor.MensajeNoAutorizado) && enviadas == old(enviadas)
        else
          enviadas == old(enviadas) + [JugadorService.SolicitudEliminar(token, id).value]
          && (respuesta.Exito? ==>
                EstadoActual() == antes.(jugadores := EliminarPorId(antes.jugadores, id), mensaje := MensajeEliminado, cargando := false))
          && (respuesta.Falla? ==>
                EstadoActual() == antes.(mensaje := MensajeErrorEliminar, cargando := false))
      ensures refrescos == old(refrescos)
    {
      var token := almacen.GetItem(ClaveToken);
      if !Truthy(token) {
        mensaje := Editor.MensajeNoAutorizado;
        return;
      }
      cargando := true;
      enviadas := enviadas + Enviada(JugadorService.SolicitudEliminar(almacen.Token(), id));
      var p := JugadorService.EliminarJugador(almacen.Token(), id, respuesta);
      if p.Resuelve? {
        mensaje := MensajeEliminado;
        jugadores := EliminarPorId(jugadores, id);
      } else {
        mensaje := MensajeErrorEliminar;
      }
      cargando := false;
    }

    /** `handleInputChange`: only the edited field of the current record
        changes. With no record selected the edit starts from an empty one. */
    method HandleInputChange(e: Edicion)
      modifies this
      ensures EstadoActual() == old(EstadoActual()).(jugadorActual := Some(AplicarEdicion(old(jugadorActual).GetOr(JugadorVacio), e)))
      ensures enviadas == old(enviadas) && refrescos == old(refrescos)
    {
      jugadorActual := Some(AplicarEdicion(jugadorActual.GetOr(JugadorVacio), e));
    }

    /** `abrirModal` ("create"): clears the selection and opens the modal. */
    method AbrirModal()
      modifies this
      ensures EstadoActual() == old(EstadoActual()).(jugadorActual := None, modalAbierto := true)
      ensures enviadas == old(enviadas) && refrescos == old(refrescos)
    {
      jugadorActual := None;
      modalAbierto := true;
    }

    /** The row's "edit" button: selects the player and opens the modal. */
    method Editar(jugador: Jugador)
      modifies this
      ensures EstadoActual() == old(EstadoActual()).(jugadorActual := Some(jugador), modalAbierto := true)
      ensures enviadas == old(enviadas) && refrescos == old(refrescos)
    {
      jugadorActual := Some(jugador);
      modalAbierto := true;
    }

    /** `cerrarModal`: only closes the modal. */
    method CerrarModal()
      modifies this
      ensures EstadoActual() == old(EstadoActual()).(modalAbierto := false)
      ensures enviadas == old(enviadas) && refrescos == old(refrescos)
    {
      modalAbierto := false;
    }
  }
}
