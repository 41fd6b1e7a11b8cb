# Tianguis map: filtering, options, legend and popups

A Dafny model of the data-to-view pipeline of a client-side map of street
markets ("tianguis") in Querétaro. The page loads a list of market records and
then does the following:

- It colours each record by its federación from a fixed table.
- It draws one polygon per record, each with a popup.
- It fills four filter selects (day, type, district, federación) from the data.
- It builds a colour legend.
- It redraws the subset meeting the selected criteria whenever a control changes.

The reset button and the Escape key clear the controls and redraw everything.

Modules:

- `Cadenas`: the JavaScript string behaviour the code relies on. This covers
  `includes`, `trim` and the default `sort` order. It also covers
  `[...new Set(xs)].sort()`, which gives the distinct values in increasing order.
- `Datos`: the record. `dias` and `tipo` may each be a string, a list or
  missing (`Campo`). Optional fields are `Option`s. The code's truthiness tests
  are written out: `""`, a missing value and `0` are falsy, and an empty array is
  truthy.
- `Mapa` (from `assets/js/app.js`): the `COLORS` table and its lookup. The popup
  is modelled as a list of sections instead of HTML. Also the polygon built for
  one record.
- `Filtros` (from `assets/js/filters.js`): the filter predicate and `filter`,
  the three option lists (`llenarFiltros`) and the legend (`crearLeyenda`).
- `Aplicacion`: the page's global state as the class `Estado`. It holds
  `allTianguis`, the select values, the polygon layer (a sequence of polygons),
  the legend items and the counter. Its methods are the imperative operations:
  load, initialise, render, build legend, filter, reset and update counter.

Behaviour of the code worth noting:

- Colours come only from the six-entry table, with the grey `default` for any
  other federación.
- Every record given to `renderizarTianguis` is drawn, with its `coordenadas`
  passed through unchanged, including a record whose coordinate list is empty.
- `antiguedad` and `agremiados` are shown when truthy: only `0` or absence hides
  the section, so a negative number is shown.
- A list-valued `tipo` is printed by `Array.prototype.toString`, which joins the
  tags with `","` (no space). An empty list is truthy and prints as the empty
  string.

## Model

| member | source | states |
|---|---|---|
| `Cadenas.Incluye` | assets/js/filters.js:56-59 | `s.includes(sub)` holds iff `sub` occurs as a contiguous piece of `s` at some position |
| `Cadenas.Recortar` | assets/js/filters.js:13 | `f.trim()` is empty iff every character of `f` is ECMAScript whitespace or a line terminator |
| `Cadenas.InsertarOrdenado` | assets/js/filters.js:8 | adding a value to a strictly increasing list keeps it strictly increasing, and the elements become the old ones plus the value |
| `Cadenas.OrdenarUnicos` | assets/js/filters.js:8 | `[...new Set(xs)].sort()` is strictly increasing, so it is sorted and has no duplicates, and holds exactly the values of `xs` |
| `Cadenas.OrdenadaUnica` | assets/js/filters.js:25 | two strictly increasing lists with the same elements are equal, so the sorted options do not depend on collection order |
| `Cadenas.OrdenarUnicosMismosElementos` | assets/js/filters.js:17-25 | sorting the distinct values of two lists with the same elements gives the same list |
| `Cadenas.MenorTransitivo` | assets/js/filters.js:8 | the string order used by `sort` is transitive |
| `Cadenas.MenorTotal` | assets/js/filters.js:8 | any two different strings are ordered one way or the other |
| `Cadenas.MenorIrreflexivo` | assets/js/filters.js:8 | no string is below itself |
| `Cadenas.Unir` | assets/js/app.js:136 | `Array.prototype.toString`: an empty list gives `""`, one element gives itself, two give both with the separator between |
| `Cadenas.UnirAgregar` | assets/js/app.js:136 | appending an element appends the separator and the element to the joined text, so the separator sits between every pair of neighbours |
| `Cadenas.UnirLongitud` | assets/js/app.js:136 | the joined text is as long as all elements together plus one separator per pair of neighbours |
| `Cadenas.OrdenadaSinRepetidos` | assets/js/filters.js:8 | a strictly increasing list has no duplicates |
| `Mapa.ColorDe` | assets/js/app.js:64 | the colour is `COLORS[federacion]` when the federación is a key of the table, otherwise `#B8B8B8`; it is always one of the table's values |
| `Mapa.ColorGrisSiiSinColorPropio` | assets/js/app.js:15-23 | a record is grey iff its federación is not one of the six named ones (UCTEQ, FENAME, UNAT, FETAM, INDEPENDIENTE, SINAFED) |
| `Mapa.ColoresPropios` | assets/js/app.js:15-21 | each of the six named federaciones gets its own colour from the table: UCTEQ `#FF6B6B`, FENAME `#4ECDC4`, UNAT `#FFD166`, FETAM `#95E1D3`, INDEPENDIENTE `#A8DADC`, SINAFED `#FFA8B6` |
| `Mapa.CrearPopupContent` | assets/js/app.js:88-170 | the popup opens with the name and ends with the image block; its length is 8 plus one for each shown optional section |
| `Mapa.PopupDias` | assets/js/app.js:89-91 | exactly one days section; a list gives one tag per element in order; anything else gives one tag, the string or `No especificado` when it is empty or missing |
| `Mapa.PopupSeccionesFijas` | assets/js/app.js:114-142 | ubicación falls back to `No especificada`, horario and tipo to `No especificado`; federación (in the polygon colour) and delegación are always shown; a list-valued tipo, even an empty one, prints as its tags joined with `","`, so `[]` prints `""` and two tags print `a,b` |
| `Mapa.PopupContacto` | assets/js/app.js:144-150 | the contact block appears iff `contacto` and `contacto.nombre` are truthy, and then directly after the seven fixed sections |
| `Mapa.PopupTelefono` | assets/js/app.js:148 | a shown contact block carries the phone iff `telefono` is truthy |
| `Mapa.PopupAntiguedad` | assets/js/app.js:152-157 | the antigüedad section appears iff the field is truthy, so `0` is left out, and shows the value; it follows the contact block when that is shown |
| `Mapa.PopupAgremiados` | assets/js/app.js:159-164 | the agremiados section appears iff the field is truthy, so `0` is left out, and shows the value; it is the section just before the image block |
| `Mapa.PopupImagenes` | assets/js/app.js:93-107 | the image strip appears iff `imagenes` exists and is non-empty, with the URLs in order; otherwise the "Sin imágenes disponibles" placeholder; exactly one of the two, last |
| `Mapa.PoligonoDe` | assets/js/app.js:63-83 | a record's polygon has its coordinates unchanged, the table colour, and the popup built with that colour |
| `Filtros.Filtrar` | assets/js/filters.js:54-74 | a record is in the result iff it is in the dataset and passes the day, type, district and federación checks; the result is no longer than the dataset |
| `Filtros.FiltrarEsSubsecuencia` | assets/js/filters.js:54 | the result is an order-preserving subsequence of `allTianguis` |
| `Filtros.FiltrarMultiplicidad` | assets/js/filters.js:54-74 | each matching record appears as often as in the dataset and a non-matching one never does, so nothing is duplicated |
| `Filtros.FiltrarSinCriterios` | assets/js/filters.js:56-71 | with all four criteria empty the result is exactly `allTianguis` |
| `Filtros.ReglaDia` | assets/js/filters.js:56-59 | with a day chosen, a record passes iff `dias` is a list with an element containing the day, or a string containing it; a missing `dias` fails |
| `Filtros.ReglaTipo` | assets/js/filters.js:62-65 | with a type chosen, a list-valued `tipo` passes iff it holds the type exactly, a string-valued one iff it contains it; a missing `tipo` fails |
| `Filtros.CumpleRefinado` | assets/js/filters.js:68-73 | a record meeting more (or equal) criteria meets fewer: the checks are a conjunction and an empty criterion passes |
| `Filtros.FiltrarRefinado` | assets/js/filters.js:54-74 | filtering with added criteria equals filtering the coarser result again |
| `Filtros.FiltrarRefinadoSubsecuencia` | assets/js/filters.js:54-74 | adding criteria never enlarges the result: it is a subsequence of the coarser one |
| `Filtros.NoEnBlancoSii` | assets/js/filters.js:13 | `f && f.trim() !== ''` holds iff `f` is present and has a non-whitespace character |
| `Filtros.Delegaciones` | assets/js/filters.js:8 | the district options are strictly increasing and hold exactly the districts of the records |
| `Filtros.Federaciones` | assets/js/filters.js:11-14 | the federación options are strictly increasing and hold exactly the non-blank federaciones of the records |
| `Filtros.Etiquetas` | assets/js/filters.js:18-24 | a value is among the collected tags iff it is an element of some list-valued `tipo` or equals some truthy string-valued `tipo` |
| `Filtros.Tipos` | assets/js/filters.js:16-25 | the type options are strictly increasing and hold exactly every tag of every record, list- or string-valued |
| `Filtros.Agregar` | assets/js/filters.js:22 | `Set.add` keeps the set duplicate-free and adds exactly the value |
| `Filtros.AgregarTodas` | assets/js/filters.js:20 | adding a list's tags keeps the set duplicate-free and adds exactly the list's elements |
| `Filtros.AgregarEtiquetas` | assets/js/filters.js:19-23 | one record's step adds exactly its tags (each element of a list, or the string when truthy) and keeps the set duplicate-free |
| `Filtros.ColectarEtiquetas` | assets/js/filters.js:17-24 | walking all records leaves a duplicate-free set holding exactly the tags of all records |
| `Filtros.LlenarFiltros` | assets/js/filters.js:4-25 | nothing is produced iff the dataset is empty; otherwise the three lists are the district, federación and type options above |
| `Filtros.Leyenda` | assets/js/filters.js:89-95 | the legend has one entry per distinct non-blank federación, strictly increasing by federación, each coloured by the table with the grey fallback |
| `Aplicacion.EjemploDelegaciones` | assets/js/filters.js:8 | any two records in districts `X` and `Y` give the district options `["X", "Y"]` |
| `Aplicacion.EjemploFederaciones` | assets/js/filters.js:11-14 | a record with federación `UCTEQ` and one with the empty federación give the single option `["UCTEQ"]` |
| `Aplicacion.EjemploLeyenda` | assets/js/filters.js:89-95 | for the same records the legend is the single entry `UCTEQ` in `#FF6B6B` |
| `Aplicacion.EjemploTipos` | assets/js/filters.js:16-25 | a `tipo` list `["ropa", "comida"]` and a `tipo` string `comida` give the type options `["comida", "ropa"]` |
| `Aplicacion.EjemploFiltrar` | assets/js/filters.js:62-65 | filtering by type `ropa` keeps only the list-valued record; filtering by `comida` keeps both, the string one by substring |
| `Aplicacion.EjemploCapa` | assets/js/app.js:62-84 | both records are drawn, including the one with empty coordinates; the UCTEQ one is `#FF6B6B`, the blank federación grey |
| `Aplicacion.Estado.constructor` | assets/js/app.js:11-12 | the dataset, layer and legend start empty, the controls cleared |
| `Aplicacion.Estado.CargarDatos` | assets/js/app.js:28-35 | the loaded list becomes `allTianguis`, and the page is then initialised from it |
| `Aplicacion.Estado.InicializarAplicacion` | assets/js/app.js:43-55 | options filled (unless the dataset is empty), every record drawn, legend built, count equal to the number of records and of polygons |
| `Aplicacion.Estado.RenderizarTianguis` | assets/js/app.js:58-85 | the layer's old contents are replaced by exactly one polygon per input record, in input order |
| `Aplicacion.Estado.CrearLeyenda` | assets/js/filters.js:84-104 | the legend is cleared and rebuilt to `Leyenda(allTianguis)`, independent of its old contents, so rebuilding is idempotent |
| `Aplicacion.Estado.FiltrarTianguis` | assets/js/filters.js:48-81 | the layer shows exactly the filtered records and the count equals their number |
| `Aplicacion.Estado.ReiniciarFiltros` | assets/js/filters.js:107-115 | the controls are cleared, every record is drawn, which equals filtering with cleared controls, and the count is the dataset's length |
| `Aplicacion.Estado.ActualizarContador` | assets/js/app.js:192-194 | the counter shows the given number |

## Left out

- Fetching and parsing `data/tianguis.json` (asynchronous network I/O). `CargarDatos` takes the resulting list as a parameter.
- The failure path of loading, with its error overlay and reload button. This is DOM/UI. A JSON document without a `tianguis` key is not modelled either. In the code it makes `allTianguis` undefined, and reading its `length` for the console message (`assets/js/app.js:34`) throws inside the `try`, before `inicializarAplicacion` runs.
- The Leaflet map, the tile layer, the polygon style options and the `bindPopup` options. These belong to a foreign library. The layer is the sequence `capa`.
- Writing the option elements into the selects (`innerHTML +=`), including the capitalised labels of type options. Also the counter's DOM write, the event-listener wiring and the Escape key. These are DOM/UI. `LlenarFiltros` returns the three lists instead, and the state keeps them in `opciones`.
- The exact HTML markup and escaping of the popup. Sections are modelled structurally, and the alt text of images is the record's name.
- `Cadenas.Menor` orders strings by Unicode scalar value, while JavaScript's `sort` compares UTF-16 code units. The two differ only for characters above U+FFFF.
- The order of `undefined` values in `.sort()`. A district is always a string here.
- Filter criteria and list elements of `dias` are strings. Non-string values in the JSON are not modelled.
- `federacion` collapses `null` and missing into `None`. The popup shows `None` as `undefined`, whereas JavaScript would print `null` for a `null`.
- ColorDe: does not model keys that every JavaScript object inherits. A federación named after such a key (for example `constructor`) would receive an inherited function from `COLORS`, not a colour.
- A missing `coordenadas` is modelled as an empty list. The code then hands `undefined` to the map library's polygon constructor, and what that library does with it is not modelled.
- `antiguedad` and `agremiados` are integers. JSON numbers may be fractional (for example `1.5`), and the code would print such a value as it is.
- `nombre` is a required string. A missing `nombre` would print `undefined` in the popup title and in the images' alt text.
