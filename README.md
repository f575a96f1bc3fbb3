# Salzburg City Explorer: selection and route lifecycle

This project models the logic of `salzburg-map-script.js`, the script behind a
one-city tourist map of Salzburg. Two parts of it are modelled.

The first part is the page's mutable state and the handlers that change it.
The state is the list of selected attraction ids (`selectedAttractions`), the
loaded catalog (`currentCityData`), the rendered attraction markers
(`attractionMarkers`), the routing control (`routeControl`) and the texts of
the route summary panel. The handlers load a city, clear the map, toggle an
attraction, request a route, export, and read the search box. All of this is
the class `MapSession.MapSession`. Its invariant `Valid()` says five things:
the city database is well formed, the selection has no duplicates, a loaded
catalog is well formed, every selected id belongs to the loaded catalog, and
any markers are exactly the catalog's.

The second part is pure. It covers the point-of-interest lookups with
fallbacks (the icon choice in `pointToLayer` and the popup's type and
description lines) and the search-key normalisation (`trim().toLowerCase()`,
with an empty key refused). It also covers `stylePois`, which computes a circle
style from the same table. The script never calls `stylePois`: `poisLayer`
passes only `pointToLayer` and `onEachFeature` to `L.geoJson`, so each point
feature is drawn as the `pointToLayer` marker alone.

Every `alert(...)` the script raises, except the routing-error one, is
returned as a value of `MapSession.Alert`. Leaflet, the DOM and the routing library are not modelled.

Modules, in dependency order:

- `Wrappers`: `Option`, the model's `undefined`.
- `Lists`: the array primitives behind the selection: `indexOf`, `splice(i, 1)`, and no-duplicates.
- `Catalog`: `iconProperties`, `cityDatabase`, the Salzburg record, and `find` by id.
- `Selection`: what a toggle does to the selection list, and what a series of toggles does.
- `Route`: the waypoints handed to the routing control.
- `SearchKey`: normalising the search box.
- `PoiStyle`: the point-of-interest fallbacks.
- `MapSession`: the stateful session.

Three facts about the script shape the model:

- An unknown city key is not a no-op. `loadCityData` clears the markers, the
  route and the selection before the lookup, so an unknown key wipes the state
  and leaves no catalog loaded.
- The inputs to the route request are the selected ids in the order they were
  picked.
- `stylePois` is dead code. Its colour matters only in that it agrees with
  the marker colour `pointToLayer` computes.

## Model

| member | source | states |
|---|---|---|
| `Lists.IndexOf` | salzburg-map-script.js:313 | `indexOf` gives -1 exactly when the id is absent; otherwise a position holding the id with no earlier occurrence |
| `Lists.RemoveAt` | salzburg-map-script.js:322 | `splice(index, 1)` shortens the list by one; elements before the index keep their position and later ones shift down by one |
| `Lists.RemoveAtIsWithout` | salzburg-map-script.js:322 | on a duplicate-free list, splicing out the id's position is the same as filtering that id out, so every other id keeps its relative order |
| `Selection.ToggleAbsentAppends` | salzburg-map-script.js:316-317 | toggling an id that is not selected appends it at the end |
| `Selection.TogglePresentRemovesFirst` | salzburg-map-script.js:313-322 | toggling a selected id removes its first occurrence by position and nothing else |
| `Selection.TogglePresentIsWithout` | salzburg-map-script.js:321-322 | on a duplicate-free selection, toggling a selected id drops exactly that id; the others keep their order |
| `Selection.ToggleKeepsNoDup` | salzburg-map-script.js:313-322 | a toggle never introduces a duplicate, because an id is pushed only when `indexOf` returns -1 |
| `Selection.ToggleMembership` | salzburg-map-script.js:313-322 | a toggle flips the membership of the toggled id and leaves every other id's membership alone |
| `Selection.ToggleTwiceAbsent` | salzburg-map-script.js:313-322 | toggling an unselected id twice restores the original list |
| `Selection.ToggleTwicePresent` | salzburg-map-script.js:313-322 | toggling a selected id twice keeps the same ids but moves that id to the end |
| `Selection.ToggleTwiceReorders` | salzburg-map-script.js:313-322 | concrete case: deselecting and reselecting 1 in [1, 2] gives [2, 1] |
| `Selection.ToggleAllKeepsNoDup` | salzburg-map-script.js:300-302 | any series of clicks on attraction items keeps the selection duplicate-free |
| `Selection.ToggleAllParity` | salzburg-map-script.js:300-302 | after a series of clicks, an id is selected iff its former membership differs from "clicked an odd number of times" |
| `Selection.SelectedCountIsOddClicks` | salzburg-map-script.js:332 | starting empty, the displayed stop count equals the number of ids clicked an odd number of times |
| `Catalog.LookupCity` | salzburg-map-script.js:262-263 | the intended lookup: a city record exactly for the database's own keys, and the not-found branch for every other key; in a well-formed database the record is well formed |
| `Catalog.CityDatabaseFacts` | salzburg-map-script.js:40-54 | among the database's own keys only "salzburg" resolves, to the six-attraction Salzburg record, whose ids are unique and whose icon keys all exist in `iconProperties` |
| `Catalog.LookupAsWritten` | salzburg-map-script.js:262-263 | property access on the object literal: an own city record exactly for the database's keys, an inherited value exactly for the `Object.prototype` names that are not keys, undefined otherwise |
| `Catalog.LookupAgreesOffPrototype` | salzburg-map-script.js:262-266 | for every key that is not an inherited name, the lookup as written takes the not-found branch exactly when the intended lookup finds nothing, and finds the same record otherwise |
| `Catalog.InheritedKeySkipsNotFound` | salzburg-map-script.js:262-272 | "constructor" has no city record, yet neither it nor "__proto__" takes the not-found branch as written |
| `Catalog.SalzburgIds` | salzburg-map-script.js:45-52 | the Salzburg catalog lists ids 1 to 6 in order |
| `Catalog.FindById` | salzburg-map-script.js:377 | `find(a => a.id === id)` is undefined exactly when no attraction has the id; otherwise it returns a catalog attraction with that id |
| `Catalog.FindByIdUnique` | salzburg-map-script.js:377 | in a catalog with unique ids, `find` returns the one attraction with that id |
| `Route.Waypoints` | salzburg-map-script.js:376-379 | one waypoint per selected id, in selection order; the k-th one is the position of the attraction found for the k-th id |
| `Route.WaypointAt` | salzburg-map-script.js:376-379 | with unique ids, the k-th waypoint is the position of the catalog attraction whose id was selected k-th |
| `Route.WaypointsAppend` | salzburg-map-script.js:376-379 | a newly selected stop becomes the last waypoint; the earlier waypoints are unchanged |
| `SearchKey.LowerChar` | salzburg-map-script.js:426 | a capital A-Z becomes the letter 32 code points later, its lower-case form; every other character is unchanged; no capital and no change of whitespace status results |
| `SearchKey.TrimStart` | salzburg-map-script.js:426 | the result is a suffix of the input, does not start with a space, and everything dropped is a space |
| `SearchKey.TrimEnd` | salzburg-map-script.js:426 | the result is a prefix of the input, does not end with a space, and everything dropped is a space |
| `SearchKey.ToLower` | salzburg-map-script.js:426 | lower-casing keeps the length and maps each character independently |
| `SearchKey.TrimEmptyIffAllSpace` | salzburg-map-script.js:426 | trimming leaves nothing exactly when the input consists of spaces only |
| `SearchKey.NormalizeKey` | salzburg-map-script.js:426-431 | the key is refused exactly when the input is all spaces; otherwise it is non-empty, has no spaces at either end, and has no capitals |
| `SearchKey.NormalizePaddedKey` | salzburg-map-script.js:426-428 | whatever spaces surround a non-blank key, the handler looks up the key lower-cased letter by letter |
| `SearchKey.CapitalisedSearchFindsKey` | salzburg-map-script.js:426-428 | typing "  Salzburg " looks up "salzburg" |
| `SearchKey.CapitalisedConstructorKey` | salzburg-map-script.js:426-428 | typing "Constructor" looks up "constructor" |
| `SearchKey.NormalizeIdempotent` | salzburg-map-script.js:426 | normalising an already normalised key gives it back |
| `SearchKey.PaddingIgnored` | salzburg-map-script.js:426 | trimming strips any surrounding spaces and nothing of the key inside |
| `SearchKey.NormalizeIgnoresPadding` | salzburg-map-script.js:426 | surrounding spaces never change which key is searched for |
| `PoiStyle.MissingTypeIsInfo` | salzburg-map-script.js:140-141 | a missing or empty type is styled as 'info' by both lookups: colour "#777777", icon "info-circle" |
| `PoiStyle.UnknownTypeFallbacks` | salzburg-map-script.js:186-188 | an unknown type gets the info colour from `stylePois`, and the literal fallbacks "info-circle" and "#777" from `pointToLayer` |
| `PoiStyle.KnownTypeUsesTable` | salzburg-map-script.js:186-188 | a known type gets its `iconProperties` entry in both lookups |
| `PoiStyle.StyleAndIconColorsAgree` | salzburg-map-script.js:139-150 | for every feature, the colour `stylePois` computes and the colour `pointToLayer` puts in the marker denote the same CSS colour, although the two fallbacks are written "#777777" and "#777" |
| `PoiStyle.TableColorsCanonical` | salzburg-map-script.js:21-30 | every `iconProperties` colour is already a six-digit CSS colour, and the marker fallback "#777" of :188 denotes the table's info colour "#777777" |
| `PoiStyle.UpperChar` | salzburg-map-script.js:204 | a lower-case a-z becomes the capital 32 code points earlier; every other character is unchanged |
| `PoiStyle.TypeLabelShape` | salzburg-map-script.js:204 | the popup type line turns a lower-case first letter into its capital, keeps any other first character, and keeps the rest; an absent or empty type reads 'General Point' |
| `PoiStyle.DescriptionDefault` | salzburg-map-script.js:205 | the popup description line shows the description, or 'No description available.' when it is absent or empty |
| `MapSession.MarkersFor` | salzburg-map-script.js:272-287 | one marker per catalog attraction, in catalog order, each carrying that attraction's data and position |
| `MapSession.MapSession.constructor` | salzburg-map-script.js:34-37 | the globals start empty, then the page-ready handler loads Salzburg, rendering its six markers with nothing selected and no route |
| `MapSession.MapSession.UpdateRouteInfo` | salzburg-map-script.js:331-335 | the stop count shows the selection's length, and distance and time read "0 km" and "0 mins" |
| `MapSession.MapSession.ClearMapAttractions` | salzburg-map-script.js:337-361 | markers and route are removed and the panel is zeroed; the selection is untouched |
| `MapSession.MapSession.LoadCityData` | salzburg-map-script.js:256-310 | always empties the selection, markers and route first; an unknown key then leaves no catalog, no markers and raises the not-found alert; a known key loads its catalog and renders its markers |
| `MapSession.MapSession.RenderCity` | salzburg-map-script.js:272-307 | the `forEach` pushes one marker per attraction in catalog order and sets the panel title to "<city> Highlights" |
| `MapSession.MapSession.ToggleAttractionSelection` | salzburg-map-script.js:312-329 | the selection becomes its toggled value, stays duplicate-free and inside the catalog; the panel shows the new count and zero distance and time |
| `MapSession.MapSession.ShowOptimizedRoute` | salzburg-map-script.js:363-381 | fewer than two selected ids raises the alert and changes nothing; otherwise the route is rebuilt from the selection's waypoints, in selection order |
| `MapSession.MapSession.Export` | salzburg-map-script.js:442-448 | export is simulated iff a route is set, otherwise the user is told to optimise first |
| `MapSession.MapSession.Search` | salzburg-map-script.js:425-432 | an all-space input raises "enter a city name" and changes nothing; otherwise the whole state and alert are those `loadCityData` leaves for the normalised key |
| `MapSession.MapSession.OnCityInputKey` | salzburg-map-script.js:434-438 | Enter acts as the search button, with the same alert and the same new state; any other key changes nothing |
| `MapSession.UnknownCityScenario` | salzburg-map-script.js:256-266 | with a route in place export succeeds; loading an unknown city then empties the selection, markers, route and catalog, and export is refused |
| `MapSession.SearchReachesInheritedName` | salzburg-map-script.js:426-428 | the search box reaches the inherited name: "Constructor" becomes the key "constructor", which has no city record and yet skips the not-found branch as written |

## Left out

- `Catalog.LookupCity`: the session uses the intended own-key lookup. As written, `cityDatabase[cityKey]` on a plain object also answers for the names inherited from `Object.prototype`; "constructor" and "__proto__" are reachable from the search box, skip the not-found alert, and then make `map.setView` or `attractions.forEach` (:269-272) fail with no alert and with `currentCityData` left holding a non-city value. That path is stated by `Catalog.LookupAsWritten` (see Findings) but its thrown error is not modelled in the session.
- The `routingerror` alert (:408) has no `Alert` value, since its callback is not modelled.
- Leaflet is not modelled: the map, tile layers, layer control and `setView` are library calls. The same goes for the `divIcon` HTML, the rendering of the GeoJSON overlays, and the hover style swaps on the river-walk and old-town layers.
- The `L.Routing.control` request, its `routesfound` and `routingerror` callbacks, and the 1000 ms `setTimeout` are not modelled. They are an external service and asynchronous timing. Once the guard passes, the route is set at once to the waypoints built from the current selection. So the model does not capture a selection or city change during the one-second delay.
- The distance and time texts a found route would show (`toFixed(1)` km and `Math.round(totalTime / 60)` mins) are not modelled. They are floating-point formatting of library output. Only the "0 km" / "0 mins" resets are modelled.
- DOM work is not modelled: the list items and their `fa-plus` / `fa-check` / `selected` classes, `innerHTML`, the loading overlay, `console.error`, and marker popups. Each alert other than the routing-error one is returned as an `Alert` value instead of being shown.
- The static GeoJSON data is not modelled. Only the POI lookup functions over a feature's `properties` are.
- The page's initial HTML texts of the summary panel are not part of this model. The constructor starts them empty, and the initial Salzburg load sets them.
- The route-walk popup (`length_km || 'N/A'`) and the old-town popup (`designation || 'N/A'`) are not modelled. They belong to the overlay rendering.
- `MapSession.MapSession.ToggleAttractionSelection` requires the id to belong to the loaded catalog. Its only caller is the click handler of a list item created for that catalog, and loading a city clears the old items.
- `SearchKey.ToLower`: only the ASCII letters A-Z are lower-cased. Full Unicode case mapping is not modelled.
- `SearchKey.IsJsSpace` and `SearchKey.TrimStart`/`TrimEnd` work on Unicode scalar values. JavaScript strings are UTF-16 code units. This makes no difference for the characters `trim` strips, all of which lie in the Basic Multilingual Plane.
- `PoiStyle.TypeLabelShape`: `toUpperCase` on the first character is modelled for ASCII letters only. JavaScript can turn one character into two (for example 'ß' becomes "SS"), and that case is not modelled.
- `PoiStyle.StylePois` and `PoiStyle.PoiIcon` treat `iconProperties[type]` as present only for the table's nine own keys. JavaScript property lookup would also find inherited names such as "constructor", making the lookup truthy with an undefined colour. The model does not capture this.
- A feature's `type` and `description` are modelled as optional strings. Other JavaScript values in those fields are not modelled.

## Findings

| source | as written | input that shows it | evidently intended | confidence | as-written member | corrected member |
|---|---|---|---|---|---|---|
| salzburg-map-script.js:262-263 | `currentCityData = cityDatabase[cityKey]; if (!currentCityData)` on a plain object literal, so inherited names such as "constructor" and "__proto__" give truthy non-city values | the search input "Constructor" (key "constructor") | every key without its own city record raises "City not found" | not executed | `Catalog.InheritedKeySkipsNotFound` | `Catalog.LookupCity` |
