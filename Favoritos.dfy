/**
 * `FavoritosViewModel`: the favourites list, the catalogue, and the feedback
 * state (`showMessage`, `lastAction`) that the screens read after each call.
 */
module Favoritos {
  import opened Wrappers
  import opened Listas
  import opened IgnoreCase
  import opened Equipos

  /** `FavoritosViewModel.Action`: the kind of the last change to the favourites. */
  datatype Action = AGREGAR | ELIMINAR

  /**
   * The filter of `searchTeams`:
   * `equipos.filter { it.nombre.contains(query, ignoreCase = true) }`.
   */
  function FiltrarPorNombre(equipos: seq<Equipo>, query: string): (r: seq<Equipo>)
    ensures |r| <= |equipos|
    ensures forall e :: e in r ==> e in equipos && ContainsIgnoreCase(e.nombre, query)
  {
    if equipos == [] then []
    else
      var resto := FiltrarPorNombre(equipos[1..], query);
      if ContainsIgnoreCase(equipos[0].nombre, query) then [equipos[0]] + resto else resto
  }

  /** Completeness: every team whose name contains the query is kept. */
  lemma {:induction false} FiltrarCompleto(equipos: seq<Equipo>, query: string, e: Equipo)
    requires e in equipos && ContainsIgnoreCase(e.nombre, query)
    ensures e in FiltrarPorNombre(equipos, query)
  {
    if e != equipos[0] {
      FiltrarCompleto(equipos[1..], query, e);
    }
  }

  /** The kept teams appear in the order of the input. */
  lemma {:induction false} FiltrarConservaOrden(equipos: seq<Equipo>, query: string)
    ensures IsSubsequence(FiltrarPorNombre(equipos, query), equipos)
  {
    if equipos != [] {
      FiltrarConservaOrden(equipos[1..], query);
      var r := FiltrarPorNombre(equipos, query);
      if ContainsIgnoreCase(equipos[0].nombre, query) {
        assert r[0] == equipos[0] && r[1..] == FiltrarPorNombre(equipos[1..], query);
      }
    }
  }

  /**
   * The result holds each matching team as often as the input does and no
   * other team: together with the order lemma, exactly the matching teams.
   */
  lemma {:induction false} FiltrarCuenta(equipos: seq<Equipo>, query: string, e: Equipo)
    ensures multiset(FiltrarPorNombre(equipos, query))[e]
            == if ContainsIgnoreCase(e.nombre, query) then multiset(equipos)[e] else 0
  {
    if equipos != [] {
      FiltrarCuenta(equipos[1..], query, e);
      assert equipos == [equipos[0]] + equipos[1..];
    }
  }

  /** The empty query keeps every team: `searchTeams("")` shows the whole input. */
  lemma {:induction false} FiltrarVacio(equipos: seq<Equipo>)
    ensures FiltrarPorNombre(equipos, "") == equipos
  {
    if equipos != [] {
      FiltrarVacio(equipos[1..]);
    }
  }

  /** Queries that differ only in letter case select the same teams. */
  lemma {:induction false} FiltrarIgnoraMayusculas(equipos: seq<Equipo>, query: string, otra: string)
    requires SameIgnoringCase(query, otra)
    ensures FiltrarPorNombre(equipos, query) == FiltrarPorNombre(equipos, otra)
  {
    if equipos != [] {
      ContainsRespectsCase(equipos[0].nombre, query, otra);
      FiltrarIgnoraMayusculas(equipos[1..], query, otra);
    }
  }

  /** "red" occurs, ignoring case, in "Boston Red Sox" and in "Cincinnati Reds". */
  lemma ContieneRed()
    ensures ContainsIgnoreCase("Boston Red Sox", "red")
    ensures ContainsIgnoreCase("Cincinnati Reds", "red")
  {
    assert RegionMatches("Boston Red Sox", 7, "red");
    assert RegionMatches("Cincinnati Reds", 11, "red");
  }

  /** Searching the catalogue for "red" finds both the Boston Red Sox and the Cincinnati Reds. */
  lemma BuscarRed()
    ensures TodosLosEquipos()[2] in FiltrarPorNombre(TodosLosEquipos(), "red")
    ensures TodosLosEquipos()[21] in FiltrarPorNombre(TodosLosEquipos(), "red")
  {
    assert TodosLosEquipos()[2].nombre == Nombres()[2] == "Boston Red Sox";
    assert TodosLosEquipos()[21].nombre == Nombres()[21] == "Cincinnati Reds";
    ContieneRed();
    FiltrarCompleto(TodosLosEquipos(), "red", TodosLosEquipos()[2]);
    FiltrarCompleto(TodosLosEquipos(), "red", TodosLosEquipos()[21]);
  }

  /** Searching for "RED" selects the same teams as searching for "red". */
  lemma BuscarRedMayusculas(equipos: seq<Equipo>)
    ensures FiltrarPorNombre(equipos, "RED") == FiltrarPorNombre(equipos, "red")
  {
    assert SameIgnoringCase("RED", "red");
    FiltrarIgnoraMayusculas(equipos, "RED", "red");
  }

  /**
   * The view model.  `Valid` is the invariant every call keeps: the catalogue
   * is the initialiser's, and the favourites list holds no record twice.  It
   * may hold two records with the same name: the league screens pass their
   * own records, which are never equal to the catalogue's.
   */
  class FavoritosViewModel {
    /** `_equiposFavoritos.value`. */
    var equiposFavoritos: seq<Equipo>
    /** `_todosLosEquipos.value`. */
    var todosLosEquipos: seq<Equipo>
    /** `_showMessage.value`: whether the confirmation message is shown. */
    var showMessage: bool
    /** `lastAction`, `null` until the first change. */
    var lastAction: Option<Action>

    ghost predicate Valid()
      reads this
    {
      todosLosEquipos == TodosLosEquipos() && Distinct(equiposFavoritos)
    }

    /** The initialiser: no favourites, the 30-team catalogue, no message and no action yet. */
    constructor ()
      ensures Valid()
      ensures equiposFavoritos == [] && todosLosEquipos == TodosLosEquipos()
      ensures !showMessage && lastAction == None
    {
      CatalogoBienFormado();
      equiposFavoritos := [];
      todosLosEquipos := TodosLosEquipos();
      showMessage := false;
      lastAction := None;
    }

    /** `setTodosLosEquipos`: its body is empty, so nothing changes. */
    method SetTodosLosEquipos(equipos: seq<Equipo>)
      ensures unchanged(this)
    {
    }

    /**
     * `agregarEquipoFavorito`: a team not yet in the list is appended at the
     * end and the message and `AGREGAR` are set; a team already in the list
     * changes nothing at all.
     */
    method AgregarEquipoFavorito(equipo: Equipo)
      requires Valid()
      modifies this`equiposFavoritos, this`showMessage, this`lastAction
      ensures Valid()
      ensures equipo in old(equiposFavoritos) ==>
                equiposFavoritos == old(equiposFavoritos)
                && showMessage == old(showMessage) && lastAction == old(lastAction)
      ensures equipo !in old(equiposFavoritos) ==>
                equiposFavoritos == old(equiposFavoritos) + [equipo]
                && showMessage && lastAction == Some(AGREGAR)
    {
      var listaActual := equiposFavoritos;
      if equipo !in listaActual {
        AppendKeepsDistinct(listaActual, equipo);
        var nuevaLista := listaActual + [equipo];
        equiposFavoritos := nuevaLista;
        showMessage := true;
        lastAction := Some(AGREGAR);
      }
    }

    /**
     * `eliminarEquipoFavorito`: the first occurrence of the team is removed,
     * if any, and the message and `ELIMINAR` are set in every case.
     */
    method EliminarEquipoFavorito(equipo: Equipo)
      requires Valid()
      modifies this`equiposFavoritos, this`showMessage, this`lastAction
      ensures Valid()
      ensures equiposFavoritos == RemoveFirst(old(equiposFavoritos), equipo)
      ensures equipo !in equiposFavoritos
      ensures showMessage && lastAction == Some(ELIMINAR)
    {
      var listaActual := equiposFavoritos;
      if equipo in listaActual {
        RemoveFirstPresent(listaActual, equipo);
      }
      var nuevaLista := RemoveFirst(listaActual, equipo);
      equiposFavoritos := nuevaLista;
      showMessage := true;
      lastAction := Some(ELIMINAR);
    }

    /** `mostrarMensajeDeConfirmacion(mostrar)`: sets the message flag and nothing else. */
    method MostrarMensajeDeConfirmacion(mostrar: bool)
      modifies this`showMessage
      ensures showMessage == mostrar
    {
      showMessage := mostrar;
    }

    /**
     * `searchTeams(query)`: the favourites list becomes the catalogue teams
     * whose name contains the query ignoring case, in catalogue order; the
     * catalogue and the feedback state stay as they were.
     */
    method SearchTeams(query: string)
      requires Valid()
      modifies this`equiposFavoritos
      ensures Valid()
      ensures equiposFavoritos == FiltrarPorNombre(todosLosEquipos, query)
      ensures IsSubsequence(equiposFavoritos, todosLosEquipos)
      ensures forall e :: e in equiposFavoritos <==> e in todosLosEquipos && ContainsIgnoreCase(e.nombre, query)
      ensures query == "" ==> equiposFavoritos == todosLosEquipos
    {
      var filteredTeams := FiltrarPorNombre(todosLosEquipos, query);
      FiltrarConservaOrden(todosLosEquipos, query);
      SubsequenceKeepsDistinct(filteredTeams, todosLosEquipos);
      forall e | e in todosLosEquipos && ContainsIgnoreCase(e.nombre, query)
        ensures e in filteredTeams
      {
        FiltrarCompleto(todosLosEquipos, query, e);
      }
      if query == "" {
        FiltrarVacio(todosLosEquipos);
      }
      equiposFavoritos := filteredTeams;
    }
  }

  /**
   * A client of the view model: adding a team, then adding it again, checked
   * against the method contracts alone.
   */
  method EscenarioAgregar() {
    var vm := new FavoritosViewModel();
    var boston := vm.todosLosEquipos[2];

    vm.AgregarEquipoFavorito(boston);
    assert vm.equiposFavoritos == [boston] && vm.lastAction == Some(AGREGAR);

    vm.MostrarMensajeDeConfirmacion(false);
    vm.AgregarEquipoFavorito(boston);
    assert vm.equiposFavoritos == [boston] && !vm.showMessage && vm.lastAction == Some(AGREGAR);
  }

  /**
   * A client of the view model: removing a listed team, then removing it
   * again, checked against the method contracts alone.
   */
  method EscenarioEliminar() {
    var vm := new FavoritosViewModel();
    var boston, yankees := vm.todosLosEquipos[2], vm.todosLosEquipos[1];
    assert boston != yankees;

    vm.AgregarEquipoFavorito(boston);
    vm.AgregarEquipoFavorito(yankees);
    assert vm.equiposFavoritos == [boston, yankees];
    vm.EliminarEquipoFavorito(yankees);
    assert vm.equiposFavoritos == [boston] && vm.lastAction == Some(ELIMINAR);

    vm.MostrarMensajeDeConfirmacion(false);
    vm.EliminarEquipoFavorito(yankees);
    assert vm.equiposFavoritos == [boston] && vm.showMessage;
  }

  /**
   * A client of the view model: the American League screen builds its own
   * team records, with their own blurbs, no details and fresh state objects.
   * It builds them anew when it is composed again, as when the user leaves
   * the screen and comes back.  Tapping the Boston heart, leaving the screen
   * and coming back, and tapping it again thus passes two different records,
   * and the favourites list then holds the name "Boston Red Sox" twice.
   */
  method EscenarioNombreRepetido() {
    var vm := new FavoritosViewModel();
    var primera := Equipo("Boston Red Sox", ResumenDeLiga(2), Drawable("boston"), SinDetalles, StateCell(NumeroDeEquipos));
    var segunda := Equipo("Boston Red Sox", ResumenDeLiga(2), Drawable("boston"), SinDetalles, StateCell(NumeroDeEquipos + 1));

    vm.AgregarEquipoFavorito(primera);
    vm.AgregarEquipoFavorito(segunda);
    assert vm.equiposFavoritos == [primera, segunda];
    assert vm.equiposFavoritos[0].nombre == vm.equiposFavoritos[1].nombre;
    assert !NombresDistintos(vm.equiposFavoritos);
  }
}
