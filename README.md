# MLB The Show favourites, modelled in Dafny

The app shows a fixed catalogue of the 30 Major League Baseball teams. Users
can mark teams as favourites, open a team's detail page and search teams by
name. All of its logic sits in one state holder, `FavoritosViewModel`. It
holds the favourites list, the catalogue, a "show confirmation message" flag
and the kind of the last change (`AGREGAR` = added, `ELIMINAR` = removed).
The detail route looks up a catalogue team by the name it receives. This
project models the view model and that lookup, and proves what each call does
to the state.

Files:

- `Wrappers.dfy`: `Option`, used for Kotlin's nullable values.
- `Listas.dfy`: the Kotlin list operations the view model relies on. The
  main one is `MutableList.remove`, which removes the first element equal to
  its argument; `IndexOf` models that first-match search. `contains` is
  sequence membership (`in`). The file also has the lemmas about duplicates
  and order.
- `IgnoreCase.dfy`: `String.contains(query, ignoreCase = true)`. Like Kotlin's
  library, it tries each position in order and compares per character with
  `Char.equals(ignoreCase = true)`.
- `Equipos.dfy`: the `Equipo` data class, the 30-team catalogue and the
  detail route's lookup by name.
- `Favoritos.dfy`: the search filter and the class `FavoritosViewModel` with
  its five operations. It ends with three client methods (`EscenarioAgregar`,
  `EscenarioEliminar`, `EscenarioNombreRepetido`). Each makes a sequence of
  calls, verified against the method contracts alone.

Modelling choices:

- `Equipo` equality is Kotlin data-class equality over all fields.
  `esFavorito` is a `MutableState` object, which Kotlin compares by identity.
  The model gives it an identity, `StateCell(id)`. Each catalogue entry has its
  own identity, so two records are equal only if they are the same record.
- The `informacion` blurbs and the `detalles` texts are opaque handles
  (`Texto`), keyed by team. Two teams whose blurbs are the same string (the
  White Sox and the Twins, the Astros and the Mets) get different handles.
  Record equality is unaffected, because their names differ. The image
  resources are kept by their `R.drawable` names.
- The catalogue is kept as columns: the names and image names in catalogue
  order. Entry `i` is built from the `i`-th value of each column.
- The object invariant `Valid` says the catalogue is the initialiser's 30
  teams and the favourites list holds no record twice. The constructor starts
  from the empty list and establishes `Valid`. Every operation keeps it. So no
  sequence of add, remove and search calls that starts from the initial state
  can put the same record in the list twice.
- "No record twice" is not "no name twice". The league screens build their
  own `Equipo` records, and these are what add receives. They differ from the
  catalogue records: a differently line-broken blurb, the default empty
  `detalles`, and a state object of their own. A tap on a heart recomposes
  only that card, so a second tap on it passes the same record, and add then
  does nothing. A league screen builds its records anew when it is composed
  again: after the user leaves the route and comes back
  (MainActivity.kt:154-160), or after a configuration change. So one team
  name can appear twice in the favourites list: after `searchTeams("")` plus
  a heart tap, or after a heart tap, leaving the screen and coming back, and
  a second tap. `EscenarioNombreRepetido` shows the second case.
- Every update takes effect at once. The model does not distinguish
  `postValue` from `.value`.
- `?: emptyList()` in add and `?: return` in remove cover a null favourites
  value; `?.filter … ?: emptyList()` in `searchTeams` (MainActivity.kt:467,
  470) and `value?.find` in the detail route (MainActivity.kt:167) cover a null
  catalogue. The model leaves these branches out: the initialisers store
  non-null lists, every later write to the favourites stores a non-null list,
  and `_todosLosEquipos` is never written after its initialiser.

The model follows the code where it departs from the obvious design:

- Remove always sets `showMessage` and `lastAction = ELIMINAR`, even when
  the team was not in the list. That call leaves the list unchanged.
- `contains` and `remove` compare whole records, not names.
- `searchTeams` filters the whole catalogue and overwrites the favourites
  list. So `searchTeams("")` (the search field's clear button) makes the
  favourites list equal to the entire catalogue.

## Model

| member | source | states |
|---|---|---|
| Listas.IndexOf | app/src/main/java/com/example/mlbtheshow/MainActivity.kt:451 | -1 exactly when the element is absent; otherwise an index holding it with no earlier occurrence |
| Listas.RemoveFirst | app/src/main/java/com/example/mlbtheshow/MainActivity.kt:449-452 | an absent element leaves the list unchanged; a present one shortens it by exactly one |
| Listas.RemoveFirstPresent | app/src/main/java/com/example/mlbtheshow/MainActivity.kt:450-452 | removing a present team deletes its first occurrence only: one copy fewer (multiset), the others kept in order; a duplicate-free list stays duplicate-free and no longer holds the team |
| Listas.AppendKeepsDistinct | app/src/main/java/com/example/mlbtheshow/MainActivity.kt:435-438 | appending a team that is absent keeps a duplicate-free list duplicate-free |
| Listas.SubsequenceKeepsDistinct | app/src/main/java/com/example/mlbtheshow/MainActivity.kt:466-470 | any order-preserving selection from a duplicate-free list is duplicate-free, so a search result has no duplicates |
| IgnoreCase.UppercaseChar | app/src/main/java/com/example/mlbtheshow/MainActivity.kt:468 | a lower-case letter becomes an upper-case letter; every other character is kept |
| IgnoreCase.LowercaseChar | app/src/main/java/com/example/mlbtheshow/MainActivity.kt:468 | an upper-case letter becomes the lower-case letter whose upper-case form it is; every other character is kept |
| IgnoreCase.CharEqualsIgnoreCase | app/src/main/java/com/example/mlbtheshow/MainActivity.kt:468 | two characters are equal ignoring case exactly when their lower-cased upper-case forms agree, so this equality is an equivalence |
| IgnoreCase.RegionMatches | app/src/main/java/com/example/mlbtheshow/MainActivity.kt:468 | the query matches at a position exactly when it fits there and every character folds like the character of the name at that distance |
| IgnoreCase.IndexOfIgnoreCase | app/src/main/java/com/example/mlbtheshow/MainActivity.kt:468 | the scan returns the first position where the query matches ignoring case, or -1 exactly when it matches nowhere |
| IgnoreCase.ContainsIgnoreCase | app/src/main/java/com/example/mlbtheshow/MainActivity.kt:468 | a name contains the query ignoring case exactly when the query matches at some position that fits inside the name; every name contains the empty query |
| IgnoreCase.RegionMatchesRespectsCase | app/src/main/java/com/example/mlbtheshow/MainActivity.kt:468 | at a fixed position, queries that agree letter by letter ignoring case match equally |
| IgnoreCase.ContainsRespectsCase | app/src/main/java/com/example/mlbtheshow/MainActivity.kt:468 | whether a name contains the query does not depend on the letter case of the query |
| Equipos.TodosLosEquipos | app/src/main/java/com/example/mlbtheshow/MainActivity.kt:205-419 | the catalogue has 30 records, each with a state object of its own, so no record occurs twice |
| Equipos.CatalogoBienFormado | app/src/main/java/com/example/mlbtheshow/MainActivity.kt:205-419 | the catalogue has 30 teams with pairwise distinct names and no record twice |
| Equipos.FindEquipo | app/src/main/java/com/example/mlbtheshow/MainActivity.kt:167 | a result is a team of the list carrying exactly the requested name, with no earlier team carrying it; there is no result exactly when no team has that name (always when the route has no argument) |
| Equipos.FindEquipoPorSuNombre | app/src/main/java/com/example/mlbtheshow/MainActivity.kt:167 | when names are unique, looking a team up by its own name returns that team |
| Equipos.FindEquipoCatalogo | app/src/main/java/com/example/mlbtheshow/MainActivity.kt:167 | every catalogue team is found by its name |
| Equipos.FindEquipoYankees | app/src/main/java/com/example/mlbtheshow/MainActivity.kt:167 | "New York Yankees" finds the Yankees record; a route without an argument finds nothing |
| Equipos.FindEquipoMalEscrito | app/src/main/java/com/example/mlbtheshow/MainActivity.kt:167 | the misspelling "New York Yanqueees" finds nothing |
| Favoritos.FiltrarPorNombre | app/src/main/java/com/example/mlbtheshow/MainActivity.kt:467-469 | the filter is no longer than its input, and every team it keeps is from the input and has a name containing the query ignoring case (soundness) |
| Favoritos.FiltrarCompleto | app/src/main/java/com/example/mlbtheshow/MainActivity.kt:467-469 | every input team whose name contains the query is kept (completeness) |
| Favoritos.FiltrarConservaOrden | app/src/main/java/com/example/mlbtheshow/MainActivity.kt:467-469 | the kept teams appear in input order |
| Favoritos.FiltrarCuenta | app/src/main/java/com/example/mlbtheshow/MainActivity.kt:467-469 | each matching team is kept as many times as it occurs in the input, and no other team is kept |
| Favoritos.FiltrarVacio | app/src/main/java/com/example/mlbtheshow/MainActivity.kt:467-470 | the empty query keeps the whole input |
| Favoritos.FiltrarIgnoraMayusculas | app/src/main/java/com/example/mlbtheshow/MainActivity.kt:468 | queries differing only in letter case give the same result |
| Favoritos.ContieneRed | app/src/main/java/com/example/mlbtheshow/MainActivity.kt:468 | "red" occurs ignoring case in "Boston Red Sox" and in "Cincinnati Reds" |
| Favoritos.BuscarRed | app/src/main/java/com/example/mlbtheshow/MainActivity.kt:466-470 | searching the catalogue for "red" returns both the Boston Red Sox and the Cincinnati Reds |
| Favoritos.BuscarRedMayusculas | app/src/main/java/com/example/mlbtheshow/MainActivity.kt:468 | searching for "RED" gives the same list as searching for "red" |
| Favoritos.FavoritosViewModel.constructor | app/src/main/java/com/example/mlbtheshow/MainActivity.kt:184-419 | the view model starts with no favourites, the 30-team catalogue, no message and no last action, and satisfies the invariant |
| Favoritos.FavoritosViewModel.SetTodosLosEquipos | app/src/main/java/com/example/mlbtheshow/MainActivity.kt:423-426 | changes nothing |
| Favoritos.FavoritosViewModel.AgregarEquipoFavorito | app/src/main/java/com/example/mlbtheshow/MainActivity.kt:432-442 | a team not yet listed is appended at the end, earlier entries stay in place, and the message and AGREGAR are set; a listed team changes neither the list, the message nor the last action; only those three fields may change; no record appears twice |
| Favoritos.FavoritosViewModel.EliminarEquipoFavorito | app/src/main/java/com/example/mlbtheshow/MainActivity.kt:448-455 | the list becomes the old list with the team's first occurrence removed (unchanged if absent), the record is no longer listed, and the message and ELIMINAR are set in every case; the catalogue is untouched |
| Favoritos.FavoritosViewModel.MostrarMensajeDeConfirmacion | app/src/main/java/com/example/mlbtheshow/MainActivity.kt:461-463 | the message flag becomes the argument and nothing else changes |
| Favoritos.FavoritosViewModel.SearchTeams | app/src/main/java/com/example/mlbtheshow/MainActivity.kt:466-471 | the favourites list becomes exactly the catalogue teams whose name contains the query ignoring case, in catalogue order and without duplicates; the empty query gives the whole catalogue; the catalogue, the message flag and the last action are unchanged |

## Left out

- The Compose screens, cards, dialogs and bars, the navigation graph and its
  route strings, and the `Activity` and system-UI calls. These are
  presentation and platform code. Only the name lookup of the detail route is
  modelled.
- LiveData and StateFlow observer notification, including `postValue`
  deferral in add versus the immediate `.value` in remove. This is framework
  scheduling, so every update is modelled as committed at once.
- The 3-second timer that hides the message, and the share `Intent`. These
  are coroutine timing and Android I/O.
- The per-card `esFavorito` toggling and the message text of `EquipoCard`.
  This is UI-local state. Inside `Equipo`, `esFavorito` only gives the record
  its identity.
- The league screens' own team lists are not modelled as data. Their records
  are what add receives. The model accepts any `Equipo` as the argument, and
  `EscenarioNombreRepetido` builds one such record.
- IgnoreCase.UppercaseChar: it folds only ASCII and Latin-1 letters, not all
  of Kotlin's Unicode case tables. Even within Latin-1, `ÿ` (U+00FF, upper
  case U+0178) and `µ` (U+00B5, upper case U+039C) are left unfolded, so
  `"ÿ".contains("Ÿ", ignoreCase = true)` holds in Kotlin but not in the model.
- IgnoreCase.LowercaseChar: the same Latin-1 limit.
- The text of the `informacion` blurbs and `detalles` descriptions. They
  are opaque handles, so their wording is not modelled.
