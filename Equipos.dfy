/**
 * The team record and the fixed catalogue the view model is initialised with,
 * together with the detail route's lookup of a catalogue team by name.
 */
module Equipos {
  import opened Wrappers
  import opened Listas

  /** An `R.drawable` image resource, identified by its resource name. */
  datatype Drawable = Drawable(name: string)

  /**
   * A descriptive text of a team, kept opaque.  `Resumen(i)` and `Detalle(i)`
   * are the `informacion` blurb and the long `detalles` text of the `i`-th
   * catalogue team; `ResumenDeLiga(i)` is the differently line-broken blurb the
   * league screens give the `i`-th team; `SinDetalles` is the default empty
   * `detalles`.  Handles are keyed by team, so two teams whose source blurbs
   * happen to be the same string (the White Sox and the Twins, the Astros and
   * the Mets) get different handles; records are still compared correctly,
   * because those teams' names differ anyway.
   */
  datatype Texto = Resumen(equipo: nat) | Detalle(equipo: nat) | ResumenDeLiga(equipo: nat) | SinDetalles

  /**
   * The `MutableState<Boolean>` object a team holds in `esFavorito`.  Kotlin
   * compares it by identity, so it is modelled by the identity of the object.
   */
  datatype StateCell = StateCell(id: nat)

  /**
   * The data class `Equipo`.  Its equality, used by `contains` and `remove`,
   * compares every field, including the identity of the `esFavorito` object,
   * exactly as Dafny's structural equality does here.
   */
  datatype Equipo = Equipo(
    nombre: string,
    informacion: Texto,
    imagen: Drawable,
    detalles: Texto,
    esFavorito: StateCell)

  /** The number of teams in the catalogue. */
  const NumeroDeEquipos := 30

  /**
   * The catalogue built by the view model's initialiser, in its order: the
   * fifteen American League teams followed by the fifteen National League
   * teams.  Entry `i` takes the `i`-th name and image of the columns
   * below, the `i`-th blurb and detail text and a state object of its own.
   */
  function TodosLosEquipos(): (r: seq<Equipo>)
    ensures |r| == NumeroDeEquipos
    ensures forall i :: 0 <= i < |r| ==> r[i].esFavorito == StateCell(i)
    ensures Distinct(r)
  {
    seq(NumeroDeEquipos, i requires 0 <= i < NumeroDeEquipos =>
      Equipo(Nombres()[i], Resumen(i), Drawable(Imagenes()[i]), Detalle(i), StateCell(i)))
  }

  /** The `nombre` of each catalogue team, in catalogue order. */
  function Nombres(): (r: seq<string>)
    ensures |r| == NumeroDeEquipos
  {
    [
      "Baltimore Orioles",
      "New York Yankees",
      "Boston Red Sox",
      "Tampa Bay Rays",
      "Toronto Blue Jays",
      "Chicago White Sox",
      "Cleveland Guardians",
      "Detroit Tigers",
      "Kansas City Royals",
      "Minnesota Twins",
      "Los Ángeles Angels",
      "Seattle Mariners",
      "Houston Astros",
      "Oakland Athletics",
      "Texas Rangers",
      "Atlanta Braves",
      "Miami Marlins",
      "New York Mets",
      "Philadelphia Phillies",
      "Washington Nationals",
      "Chicago Cubs",
      "Cincinnati Reds",
      "Milwaukee Brewers",
      "Pittsburgh Pirates",
      "St. Louis Cardinals",
      "Arizona Diamondbacks",
      "Colorado Rockies",
      "Los Angeles Dodgers",
      "San Diego Padres",
      "San Francisco Giants"
    ]
  }

  /** The `R.drawable` resource name of each catalogue team, in catalogue order. */
  function Imagenes(): (r: seq<string>)
    ensures |r| == NumeroDeEquipos
  {
    [
      "orioles", "yankees", "boston", "rays", "toronto", "whitesox", "cleveland",
      "detroit", "kansascity", "twins", "angels", "mariners", "astros", "athletics",
      "rangers", "braves", "marlins", "mets", "phillies", "nationals", "cubs", "reds",
      "brewers", "pirates", "cardinals", "arizona", "rockies", "dodgers", "padres",
      "giants"
    ]
  }

  /** No two teams of `s` share a name. */
  ghost predicate NombresDistintos(s: seq<Equipo>) {
    forall i, j :: 0 <= i < j < |s| ==> s[i].nombre != s[j].nombre
  }

  lemma NombresDistintosPrimeros()
    ensures forall i, j :: 0 <= i < j < 15 ==> Nombres()[i] != Nombres()[j]
  {
  }

  lemma NombresDistintosCruzados()
    ensures forall i, j :: 0 <= i < 15 <= j < NumeroDeEquipos ==> Nombres()[i] != Nombres()[j]
  {
  }

  lemma NombresDistintosUltimos()
    ensures forall i, j :: 15 <= i < j < NumeroDeEquipos ==> Nombres()[i] != Nombres()[j]
  {
  }

  /** The catalogue holds 30 teams, no two with the same name, so no team twice. */
  lemma CatalogoBienFormado()
    ensures |TodosLosEquipos()| == 30
    ensures NombresDistintos(TodosLosEquipos())
    ensures Distinct(TodosLosEquipos())
  {
    NombresDistintosPrimeros();
    NombresDistintosCruzados();
    NombresDistintosUltimos();
  }

  /**
   * The detail route's `todosLosEquipos.find { it.nombre == equipoNombre }`:
   * the first team carrying the route argument as its name.  The argument is
   * `String?`; a missing argument (`None`) equals no name.
   */
  function FindEquipo(equipos: seq<Equipo>, equipoNombre: Option<string>): (r: Option<Equipo>)
    ensures r.None? <==> forall k :: 0 <= k < |equipos| ==> Some(equipos[k].nombre) != equipoNombre
    ensures r.Some? ==> r.value in equipos && Some(r.value.nombre) == equipoNombre
    ensures r.Some? ==> forall k :: 0 <= k < IndexOf(equipos, r.value) ==> Some(equipos[k].nombre) != equipoNombre
  {
    if equipos == [] then None
    else if Some(equipos[0].nombre) == equipoNombre then Some(equipos[0])
    else
      var r := FindEquipo(equipos[1..], equipoNombre);
      assert forall k :: 0 < k < |equipos| ==> equipos[k] == equipos[1..][k - 1];
      r
  }

  /** When names are unique, looking a team up by its own name returns that very team. */
  lemma FindEquipoPorSuNombre(equipos: seq<Equipo>, i: nat)
    requires NombresDistintos(equipos) && i < |equipos|
    ensures FindEquipo(equipos, Some(equipos[i].nombre)) == Some(equipos[i])
  {
  }

  /** Every catalogue team is found by its name. */
  lemma FindEquipoCatalogo(t: Equipo)
    requires t in TodosLosEquipos()
    ensures FindEquipo(TodosLosEquipos(), Some(t.nombre)) == Some(t)
  {
    CatalogoBienFormado();
    var i :| 0 <= i < |TodosLosEquipos()| && TodosLosEquipos()[i] == t;
    FindEquipoPorSuNombre(TodosLosEquipos(), i);
  }

  /** The lookup finds the Yankees under their exact name, and nothing when the route has no argument. */
  lemma FindEquipoYankees()
    ensures FindEquipo(TodosLosEquipos(), Some("New York Yankees")) == Some(TodosLosEquipos()[1])
    ensures FindEquipo(TodosLosEquipos(), None).None?
  {
    assert TodosLosEquipos()[1].nombre == Nombres()[1] == "New York Yankees";
    FindEquipoCatalogo(TodosLosEquipos()[1]);
  }

  /** A misspelt name matches no catalogue team. */
  lemma FindEquipoMalEscrito()
    ensures FindEquipo(TodosLosEquipos(), Some("New York Yanqueees")).None?
  {
    assert forall k :: 0 <= k < 15 ==> Nombres()[k] != "New York Yanqueees";
    assert forall k :: 15 <= k < NumeroDeEquipos ==> Nombres()[k] != "New York Yanqueees";
  }
}
