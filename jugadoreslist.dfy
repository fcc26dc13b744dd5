/** The public directory: fetch every player once, sort by goals in place,
    and render three tables from the one sorted list. */
module JugadoresList {
  import opened Tipos
  import Api

  // ------------------------------------------------------------ the sort

  /** Non-increasing goals: the order `(a, b) => b.goles - a.goles` asks for. */
  predicate OrdenadoPorGoles(s: seq<Jugador>) {
    forall i, j :: 0 <= i < j < |s| ==> s[i].goles >= s[j].goles
  }

  /** The players of `s` with exactly `g` goals, in the order of `s`. */
  function ConGoles(s: seq<Jugador>, g: int): seq<Jugador> {
    if s == [] then []
    else (if s[0].goles == g then [s[0]] else []) + ConGoles(s[1..], g)
  }

  /** Inserts `x` after every element with at least as many goals: the step
      of a stable insertion sort. */
  function Insertar(t: seq<Jugador>, x: Jugador): seq<Jugador>
    decreases |t|
  {
    if |t| == 0 then [x]
    else if t[|t| - 1].goles >= x.goles then t + [x]
    else Insertar(t[..|t| - 1], x) + [t[|t| - 1]]
  }

  /** The specification of `data.sort((a, b) => b.goles - a.goles)`: a
      stable sort (ECMAScript 2019 and later) by goals, descending. */
  function OrdenarPorGoles(s: seq<Jugador>): seq<Jugador>
    decreases |s|
  {
    if |s| == 0 then [] else Insertar(OrdenarPorGoles(s[..|s| - 1]), s[|s| - 1])
  }

  lemma {:induction false} InsertarPermuta(t: seq<Jugador>, x: Jugador)
    ensures multiset(Insertar(t, x)) == multiset(t) + multiset{x}
    decreases |t|
  {
    if |t| > 0 && t[|t| - 1].goles < x.goles {
      var n := |t| - 1;
      InsertarPermuta(t[..n], x);
      assert t == t[..n] + [t[n]];
    }
  }

  lemma {:induction false} InsertarOrdenado(t: seq<Jugador>, x: Jugador)
    requires OrdenadoPorGoles(t)
    ensures OrdenadoPorGoles(Insertar(t, x))
    decreases |t|
  {
    if |t| > 0 && t[|t| - 1].goles < x.goles {
      var n := |t| - 1;
      var u := Insertar(t[..n], x);
      InsertarOrdenado(t[..n], x);
      InsertarPermuta(t[..n], x);
      forall k | 0 <= k < |u|
        ensures u[k].goles >= t[n].goles
      {
        assert u[k] in multiset(u);
        assert u[k] in multiset(t[..n]) || u[k] == x;
        if u[k] != x {
          assert u[k] in t[..n];
        }
      }
    }
  }

  lemma {:induction false} ConGolesConcatenacion(a: seq<Jugador>, b: seq<Jugador>, g: int)
    ensures ConGoles(a + b, g) == ConGoles(a, g) + ConGoles(b, g)
    decreases |a|
  {
    if a == [] {
      assert a + b == b;
    } else {
      assert (a + b)[0] == a[0];
      assert (a + b)[1..] == a[1..] + b;
      ConGolesConcatenacion(a[1..], b, g);
    }
  }

  lemma ConGolesUno(x: Jugador, g: int)
    ensures ConGoles([x], g) == if x.goles == g then [x] else []
  {
    assert [x][1..] == [];
  }

  /** Inserting `x` appends it to its own goals group and leaves every other
      group as it was. */
  lemma {:induction false} InsertarEstable(t: seq<Jugador>, x: Jugador, g: int)
    ensures ConGoles(Insertar(t, x), g) == ConGoles(t, g) + (if x.goles == g then [x] else [])
    decreases |t|
  {
    ConGolesUno(x, g);
    if |t| == 0 {
    } else if t[|t| - 1].goles >= x.goles {
      ConGolesConcatenacion(t, [x], g);
    } else {
      var n := |t| - 1;
      InsertarEstable(t[..n], x, g);
      ConGolesConcatenacion(Insertar(t[..n], x), [t[n]], g);
      ConGolesConcatenacion(t[..n], [t[n]], g);
      ConGolesUno(t[n], g);
      assert t == t[..n] + [t[n]];
    }
  }

  /** The sorted list holds exactly the fetched players. */
  lemma {:induction false} OrdenarPermuta(s: seq<Jugador>)
    ensures multiset(OrdenarPorGoles(s)) == multiset(s)
    ensures |OrdenarPorGoles(s)| == |s|
    decreases |s|
  {
    if |s| > 0 {
      var n := |s| - 1;
      OrdenarPermuta(s[..n]);
      InsertarPermuta(OrdenarPorGoles(s[..n]), s[n]);
      assert s == s[..n] + [s[n]];
    }
  }

  /** The sorted list is non-increasing in goals. */
  lemma {:induction false} OrdenarOrdena(s: seq<Jugador>)
    ensures OrdenadoPorGoles(OrdenarPorGoles(s))
    decreases |s|
  {
    if |s| > 0 {
      OrdenarOrdena(s[..|s| - 1]);
      InsertarOrdenado(OrdenarPorGoles(s[..|s| - 1]), s[|s| - 1]);
    }
  }

  /** Stability: players with equal goals keep their fetch order. */
  lemma {:induction false} OrdenarEstable(s: seq<Jugador>, g: int)
    ensures ConGoles(OrdenarPorGoles(s), g) == ConGoles(s, g)
    decreases |s|
  {
    if |s| > 0 {
      var n := |s| - 1;
      OrdenarEstable(s[..n], g);
      InsertarEstable(OrdenarPorGoles(s[..n]), s[n], g);
      ConGolesConcatenacion(s[..n], [s[n]], g);
      ConGolesUno(s[n], g);
      assert s == s[..n] + [s[n]];
    }
  }

  /** Inserting by shifting right: when every element from `j` on has fewer
      goals than `x` and the one before `j` (if any) has at least as many,
      `x` lands at `j`. */
  lemma {:induction false} InsertarEn(t: seq<Jugador>, x: Jugador, j: nat)
    requires j <= |t|
    requires forall k :: j <= k < |t| ==> t[k].goles < x.goles
    requires j > 0 ==> t[j - 1].goles >= x.goles
    ensures Insertar(t, x) == t[..j] + [x] + t[j..]
    decreases |t|
  {
    if |t| == j {
      assert t[..j] == t && t[j..] == [];
    } else {
      var n := |t| - 1;
      InsertarEn(t[..n], x, j);
      assert t[..n][..j] == t[..j];
      assert t[j..] == t[..n][j..] + [t[n]];
    }
  }

  /** One pass of the insertion sort: moves `a[i]` left past every element
      of the prefix with fewer goals. */
  method InsertarEnSitio(a: array<Jugador>, i: nat)
    requires i < a.Length
    modifies a
    ensures a[..i + 1] == Insertar(old(a[..i]), old(a[i]))
    ensures a[i + 1..] == old(a[i + 1..])
  {
    var x := a[i];
    ghost var t := a[..i];
    ghost var resto := a[i + 1..];
    var j := i;
    while j > 0 && a[j - 1].goles < x.goles
      invariant 0 <= j <= i
      invariant forall k :: 0 <= k < j ==> a[k] == t[k]
      invariant forall k :: j < k <= i ==> a[k] == t[k - 1]
      invariant forall k :: j <= k < i ==> t[k].goles < x.goles
      invariant a[i + 1..] == resto
    {
      a[j] := a[j - 1];
      j := j - 1;
    }
    a[j] := x;
    InsertarEn(t, x, j);
    ghost var r := t[..j] + [x] + t[j..];
    assert |r| == i + 1;
    forall k | 0 <= k <= i
      ensures a[k] == r[k]
    {
      if k < j {
        assert r[k] == t[k];
      } else if k > j {
        assert r[k] == t[k - 1];
      }
    }
    assert a[..i + 1] == r;
    assert a[i + 1..] == old(a[i + 1..]);
  }

  /** `data.sort((a, b) => b.goles - a.goles)` on the fetched array: an
      in-place stable insertion sort. */
  method OrdenarEnSitio(a: array<Jugador>)
    modifies a
    ensures a[..] == OrdenarPorGoles(old(a[..]))
  {
    ghost var original := a[..];
    var i := 0;
    while i < a.Length
      invariant 0 <= i <= a.Length
      invariant a[..i] == OrdenarPorGoles(original[..i])
      invariant a[i..] == original[i..]
    {
      assert original[..i + 1][..i] == original[..i];
      assert original[..i + 1][i] == a[i];
      InsertarEnSitio(a, i);
      i := i + 1;
    }
    assert original[..a.Length] == original;
  }

  // ------------------------------------------------------------ rendering

  const ColorOro := "text-yellow-400 font-bold"
  const ColorPlata := "text-gray-500 font-bold"
  const ColorBronce := "text-orange-500 font-bold"
  const ColorResto := "text-gray-200"

  /** `getRankColor(rank)`: a podium class for ranks 1 to 3, a plain one
      for every other rank. */
  function RankColor(rank: int): (c: string)
    ensures rank == 1 <==> c == ColorOro
    ensures rank == 2 <==> c == ColorPlata
    ensures rank == 3 <==> c == ColorBronce
    ensures c == ColorResto <==> !(1 <= rank <= 3)
  {
    if rank == 1 then ColorOro
    else if rank == 2 then ColorPlata
    else if rank == 3 then ColorBronce
    else ColorResto
  }

  /** One row of a leaderboard: shown rank, its colour class, the player,
      the statistic column and the matches-played column. */
  datatype FilaRanking = FilaRanking(rank: int, color: string, jugador: Jugador, valor: int, jugados: int)

  /** One row of the full table. */
  datatype FilaLista = FilaLista(jugador: Jugador, goles: int, asistencias: int,
                                 ganados: int, perdidos: int, jugados: int)

  /** "Top goleadores": a row per player of the list, in list order. */
  function TablaGoleadores(l: seq<Jugador>): (t: seq<FilaRanking>)
    ensures |t| == |l|
    ensures forall i :: 0 <= i < |l| ==> t[i].jugador == l[i] && t[i].valor == l[i].goles
    ensures forall i :: 0 <= i < |l| ==> t[i].rank == i + 1 && t[i].color == RankColor(i + 1)
    ensures forall i :: 0 <= i < |l| ==> t[i].jugados == l[i].partidosGanados + l[i].partidosPerdidos
  {
    seq(|l|, i requires 0 <= i < |l| => FilaRanking(i + 1, RankColor(i + 1), l[i], l[i].goles, l[i].PartidosJugados()))
  }

  /** "Top Asistidores": the SAME list order, showing assists. */
  function TablaAsistidores(l: seq<Jugador>): (t: seq<FilaRanking>)
    ensures |t| == |l|
    ensures forall i :: 0 <= i < |l| ==> t[i].jugador == l[i] && t[i].valor == l[i].asistencias
    ensures forall i :: 0 <= i < |l| ==> t[i].rank == i + 1 && t[i].color == RankColor(i + 1)
    ensures forall i :: 0 <= i < |l| ==> t[i].jugados == l[i].partidosGanados + l[i].partidosPerdidos
  {
    seq(|l|, i requires 0 <= i < |l| => FilaRanking(i + 1, RankColor(i + 1), l[i], l[i].asistencias, l[i].PartidosJugados()))
  }

  /** "Lista de Jugadores": every statistic and the derived total. */
  function TablaJugadores(l: seq<Jugador>): (t: seq<FilaLista>)
    ensures |t| == |l|
    ensures forall i :: 0 <= i < |l| ==> t[i].jugador == l[i] && t[i].jugados == t[i].ganados + t[i].perdidos
    ensures forall i :: 0 <= i < |l| ==> t[i].goles == l[i].goles && t[i].asistencias == l[i].asistencias
    ensures forall i :: 0 <= i < |l| ==> t[i].ganados == l[i].partidosGanados && t[i].perdidos == l[i].partidosPerdidos
  {
    seq(|l|, i requires 0 <= i < |l| =>
      FilaLista(l[i], l[i].goles, l[i].asistencias, l[i].partidosGanados, l[i].partidosPerdidos, l[i].PartidosJugados()))
  }

  /** The assists table is not re-sorted: it lists the players, and shows
      the ranks, of the goals table row for row. */
  lemma AsistidoresEnOrdenDeGoles(l: seq<Jugador>)
    ensures forall i :: 0 <= i < |l| ==>
      TablaAsistidores(l)[i].jugador == TablaGoleadores(l)[i].jugador
      && TablaAsistidores(l)[i].rank == TablaGoleadores(l)[i].rank
  {
  }

  /** So a player with more assists can be ranked below one with fewer:
      fetched [A: 2 goals, 0 assists; B: 1 goal, 5 assists], the assists
      table shows A (0) at rank 1 above B (5). */
  lemma AsistidoresNoOrdenados()
    ensures var a := Jugador(Some("a"), "A", None, None, None, None, 2, 0, 0, 0, "");
            var b := Jugador(Some("b"), "B", None, None, None, None, 1, 5, 0, 0, "");
            var t := TablaAsistidores(OrdenarPorGoles([a, b]));
            |t| == 2 && t[0].rank == 1 && t[0].valor == 0 && t[1].valor == 5
  {
    var a := Jugador(Some("a"), "A", None, None, None, None, 2, 0, 0, 0, "");
    var b := Jugador(Some("b"), "B", None, None, None, None, 1, 5, 0, 0, "");
    assert [a, b][..1] == [a];
    assert [a][..0] == [];
    assert OrdenarPorGoles([a]) == [a];
    assert OrdenarPorGoles([a, b]) == [a, b];
  }

  /** Fetched [Ana: 5 goals, Beto: 9 goals], the goals table shows Beto first. */
  lemma GoleadoresEjemplo()
    ensures var ana := Jugador(Some("1"), "Ana", None, None, None, None, 5, 0, 0, 0, "");
            var beto := Jugador(Some("2"), "Beto", None, None, None, None, 9, 0, 0, 0, "");
            OrdenarPorGoles([ana, beto]) == [beto, ana]
  {
    var ana := Jugador(Some("1"), "Ana", None, None, None, None, 5, 0, 0, 0, "");
    var beto := Jugador(Some("2"), "Beto", None, None, None, None, 9, 0, 0, 0, "");
    assert [ana, beto][..1] == [ana];
    assert [ana][..0] == [];
    assert OrdenarPorGoles([ana]) == [ana];
    assert [ana][..0] == [];
    assert Insertar([ana], beto) == Insertar([], beto) + [ana];
  }

  // ------------------------------------------------------------ the screen

  const MensajeErrorCargar := "Error al cargar los jugadores"

  /** What the component renders: the loading notice, the error, or the
      three tables. */
  datatype Pantalla =
    | Cargando
    | MuestraError(error: string)
    | Tablas(goleadores: seq<FilaRanking>, asistidores: seq<FilaRanking>, lista: seq<FilaLista>)

  class JugadoresList {
    var jugadores: seq<Jugador>
    var loading: bool
    var error: string

    constructor ()
      ensures jugadores == [] && loading && error == ""
    {
      jugadores, loading, error := [], true, "";
    }

    /** `fetchJugadores`, given the GET's outcome. On success the stored list
        is the fetched data sorted by goals; on failure the error is set and
        the list is left as it was. Loading ends either way. */
    method FetchJugadores(respuesta: Axios<seq<Jugador>>)
      modifies this
      ensures !loading
      ensures respuesta.Exito? ==> jugadores == OrdenarPorGoles(respuesta.data) && error == old(error)
      ensures respuesta.Falla? ==> jugadores == old(jugadores) && error == MensajeErrorCargar
    {
      match Api.ObtenerJugadores(respuesta) {
        case Resuelve(data) =>
          var a := new Jugador[|data|](i requires 0 <= i < |data| => data[i]);
          assert a[..] == data;
          OrdenarEnSitio(a);
          jugadores := a[..];
        case Rechaza(_) =>
          error := MensajeErrorCargar;
      }
      loading := false;
    }

    /** The rendered screen. */
    function Pantalla(): (p: Pantalla)
      reads this
      ensures loading ==> p == Cargando
      ensures !loading && error != "" ==> p == MuestraError(error)
      ensures !loading && error == "" ==>
                p == Tablas(TablaGoleadores(jugadores), TablaAsistidores(jugadores), TablaJugadores(jugadores))
    {
      if loading then Cargando
      else if error != "" then MuestraError(error)
      else Tablas(TablaGoleadores(jugadores), TablaAsistidores(jugadores), TablaJugadores(jugadores))
    }
  }

  /** A fresh screen whose fetch succeeds shows the tables; the goals table
      has one row per fetched player, in non-increasing goals. */
  method MontarConExito(data: seq<Jugador>) returns (pantalla: Pantalla)
    ensures pantalla.Tablas?
    ensures |pantalla.goleadores| == |data|
    ensures forall i, j :: 0 <= i < j < |pantalla.goleadores| ==> pantalla.goleadores[i].valor >= pantalla.goleadores[j].valor
    ensures multiset(seq(|pantalla.goleadores|, i requires 0 <= i < |pantalla.goleadores| => pantalla.goleadores[i].jugador)) == multiset(data)
  {
    var c := new JugadoresList();
    c.FetchJugadores(Exito(data));
    OrdenarOrdena(data);
    OrdenarPermuta(data);
    pantalla := c.Pantalla();
    var l := OrdenarPorGoles(data);
    assert seq(|pantalla.goleadores|, i requires 0 <= i < |pantalla.goleadores| => pantalla.goleadores[i].jugador) == l;
  }
}
