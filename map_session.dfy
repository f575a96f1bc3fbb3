/**
 The page's mutable state and the handlers that change it: loading a city,
 clearing the map, toggling an attraction, requesting a route, exporting, and
 the search box. The module-level variables of the script become the fields
 of one `MapSession`; map, DOM and routing-library calls are left out, and
 every `alert` the script raises, except the routing-error one, is returned as
 an `Alert`.
 */
module MapSession {
  import opened Wrappers
  import opened Lists
  import opened Catalog
  import opened Selection
  import opened Route
  import opened SearchKey

  /** A rendered attraction marker: where it stands, the attraction it
      carries as `attractionData`, and the icon entry its template uses. */
  datatype Marker = Marker(position: LatLng, data: Attraction, style: IconStyle)

  function MarkerFor(a: Attraction): Marker
    requires a.icon in IconTable
  {
    Marker(a.position, a, IconTable[a.icon])
  }

  /** One marker per attraction, in catalog order. */
  function MarkersFor(atts: seq<Attraction>): (ms: seq<Marker>)
    requires IconsKnown(atts)
    ensures |ms| == |atts|
    ensures forall k :: 0 <= k < |atts| ==> ms[k].data == atts[k] && ms[k].position == atts[k].position
  {
    seq(|atts|, k requires 0 <= k < |atts| => MarkerFor(atts[k]))
  }

  /** The user-visible messages of the script. */
  datatype Alert =
    | CityNotFound        // "City not found in our database. ..."
    | EnterCityName       // "Please enter a city name."
    | SelectTwoStops      // "Please select at least 2 attractions ..."
    | ExportSimulated     // "Map export simulated. ..."
    | OptimizeFirst       // "Please optimize a route first ..."

  const ZeroDistance: string := "0 km"
  const ZeroTime: string := "0 mins"
  const DefaultTitle: string := "Selected Highlights"

  class MapSession {
    /** `selectedAttractions`: the selected ids, in the order they were picked. */
    var selected: seq<int>
    /** `currentCityData`. */
    var currentCity: Option<City>
    /** `attractionMarkers`. */
    var markers: seq<Marker>
    /** `routeControl`: None for null, otherwise the waypoints it was built from. */
    var route: Option<seq<LatLng>>
    /** The texts of the route summary panel. */
    var stopsShown: nat
    var distanceShown: string
    var timeShown: string
    var routeTitle: string
    /** `cityDatabase`. */
    const cityDatabase: map<string, City>

    /** The selection never repeats an id and only names attractions of the
        loaded catalog; the markers, when there are any, are the catalog's. */
    ghost predicate Valid()
      reads this
    {
      && DatabaseWellFormed(cityDatabase)
      && NoDup(selected)
      && (currentCity.Some? ==> WellFormed(currentCity.value))
      && (selected != [] ==> currentCity.Some? && AllListed(selected, currentCity.value.attractions))
      && (markers != [] ==> currentCity.Some? && markers == MarkersFor(currentCity.value.attractions))
    }

    /** The state `loadCityData(key)` leaves behind, with the alert it raised:
        selection, route and panel are reset whatever the key; an unknown key
        leaves no catalog and no markers, a known one its catalog's markers. */
    ghost predicate LoadedFrom(key: string, alert: Option<Alert>)
      reads this
    {
      && DatabaseWellFormed(cityDatabase)
      && selected == [] && route == None
      && stopsShown == 0 && distanceShown == ZeroDistance && timeShown == ZeroTime
      && currentCity == LookupCity(cityDatabase, key)
      && (currentCity.None? ==> alert == Some(CityNotFound) && markers == [] && routeTitle == DefaultTitle)
      && (currentCity.Some? ==> alert == None && markers == MarkersFor(currentCity.value.attractions)
                                && routeTitle == currentCity.value.name + " Highlights")
    }

    /** Script start: the globals' initial values, then the
        `DOMContentLoaded` handler's `loadCityData('salzburg')`. */
    constructor ()
      ensures Valid() && cityDatabase == CityDatabase
      ensures currentCity == Some(Salzburg) && markers == MarkersFor(Salzburg.attractions)
      ensures selected == [] && route == None
      ensures stopsShown == 0 && distanceShown == ZeroDistance && timeShown == ZeroTime
      ensures routeTitle == Salzburg.name + " Highlights"
    {
      selected := [];
      currentCity := None;
      markers := [];
      route := None;
      stopsShown := 0;
      distanceShown := "";
      timeShown := "";
      routeTitle := "";
      cityDatabase := CityDatabase;
      CityDatabaseFacts("salzburg");
      new;
      var _ := LoadCityData("salzburg");
    }

    /** `updateRouteInfo`: the stop count follows the selection and the
        distance and time read zero. */
    method UpdateRouteInfo()
      modifies this`stopsShown, this`distanceShown, this`timeShown
      ensures stopsShown == |selected| && distanceShown == ZeroDistance && timeShown == ZeroTime
    {
      stopsShown := |selected|;
      distanceShown := ZeroDistance;
      timeShown := ZeroTime;
    }

    /** `clearMapAttractions`: markers and route gone, summary panel zeroed.
        The selection itself is NOT cleared here. */
    method ClearMapAttractions()
      requires Valid()
      modifies this`markers, this`route, this`stopsShown, this`distanceShown, this`timeShown, this`routeTitle
      ensures Valid()
      ensures markers == [] && route == None
      ensures stopsShown == 0 && distanceShown == ZeroDistance && timeShown == ZeroTime && routeTitle == DefaultTitle
    {
      markers := [];
      if route.Some? {
        route := None;
      }
      distanceShown := ZeroDistance;
      timeShown := ZeroTime;
      stopsShown := 0;
      routeTitle := DefaultTitle;
    }

    /** `loadCityData`: everything is reset BEFORE the lookup, so an unknown
        key also wipes the selection, the markers and the route, and leaves no
        catalog loaded. A known key renders one marker per attraction. */
    method LoadCityData(key: string) returns (alert: Option<Alert>)
      requires Valid()
      modifies this
      ensures Valid() && LoadedFrom(key, alert)
    {
      ClearMapAttractions();
      selected := [];
      UpdateRouteInfo();
      currentCity := LookupCity(cityDatabase, key);
      if currentCity.None? {
        return Some(CityNotFound);
      }
      RenderCity(currentCity.value);
      alert := None;
    }

    /** The rendering half of `loadCityData` for a found city: the `forEach`
        that pushes one marker per attraction, then the panel title. */
    method RenderCity(city: City)
      requires IconsKnown(city.attractions) && markers == []
      modifies this`markers, this`routeTitle
      ensures markers == MarkersFor(city.attractions)
      ensures routeTitle == city.name + " Highlights"
    {
      var atts := city.attractions;
      for i := 0 to |atts|
        invariant |markers| == i
        invariant forall k :: 0 <= k < i ==> markers[k] == MarkerFor(atts[k])
      {
        markers := markers + [MarkerFor(atts[i])];
      }
      assert markers == MarkersFor(atts);
      routeTitle := city.name + " Highlights";
    }

    /** `toggleAttractionSelection`, called from the list item of a rendered
        attraction: push the id when `indexOf` finds none, else splice it out. */
    method ToggleAttractionSelection(id: int)
      requires Valid()
      requires currentCity.Some? && id in Ids(currentCity.value.attractions)
      modifies this`selected, this`stopsShown, this`distanceShown, this`timeShown
      ensures Valid()
      ensures selected == Toggled(old(selected), id)
      ensures stopsShown == |selected| && distanceShown == ZeroDistance && timeShown == ZeroTime
    {
      ghost var before := selected;
      var index := IndexOf(selected, id);
      if index == -1 {
        selected := selected + [id];
      } else {
        selected := RemoveAt(selected, index);
      }
      ToggleKeepsNoDup(before, id);
      forall k | 0 <= k < |selected| ensures selected[k] in Ids(currentCity.value.attractions) {
        ToggleMembership(before, id, selected[k]);
      }
      UpdateRouteInfo();
    }

    /** `showOptimizedRoute`: fewer than two stops is refused with no change;
        otherwise the routing control is (re)built from the waypoints of the
        selection, in selection order. */
    method ShowOptimizedRoute() returns (alert: Option<Alert>)
      requires Valid()
      modifies this`route
      ensures Valid()
      ensures |selected| < MinStops ==> alert == Some(SelectTwoStops) && route == old(route)
      ensures |selected| >= MinStops ==>
                && alert == None && currentCity.Some?
                && route == Some(Waypoints(selected, currentCity.value.attractions))
    {
      if |selected| < MinStops {
        return Some(SelectTwoStops);
      }
      var waypoints := Waypoints(selected, currentCity.value.attractions);
      route := Some(waypoints);
      alert := None;
    }

    /** The export button: simulated exactly when a route exists. */
    method Export() returns (alert: Alert)
      ensures alert == ExportSimulated <==> route.Some?
      ensures alert == OptimizeFirst <==> route.None?
    {
      if route.Some? {
        alert := ExportSimulated;
      } else {
        alert := OptimizeFirst;
      }
    }

    /** The search button: an input that trims to nothing is refused and
        changes nothing; any other input loads the normalised key. */
    method Search(input: string) returns (alert: Option<Alert>)
      requires Valid()
      modifies this
      ensures Valid()
      ensures NormalizeKey(input).None? ==> alert == Some(EnterCityName) && unchanged(this)
      ensures NormalizeKey(input).Some? ==> LoadedFrom(NormalizeKey(input).value, alert)
    {
      var key := NormalizeKey(input);
      if key.Some? {
        alert := LoadCityData(key.value);
      } else {
        alert := Some(EnterCityName);
      }
    }

    /** The city input's key handler: Enter clicks the search button, any
        other key does nothing. */
    method OnCityInputKey(key: string, input: string) returns (alert: Option<Alert>)
      requires Valid()
      modifies this
      ensures Valid()
      ensures key != "Enter" ==> alert == None && unchanged(this)
      ensures key == "Enter" && NormalizeKey(input).None? ==> alert == Some(EnterCityName) && unchanged(this)
      ensures key == "Enter" && NormalizeKey(input).Some? ==> LoadedFrom(NormalizeKey(input).value, alert)
    {
      alert := None;
      if key == "Enter" {
        alert := Search(input);
      }
    }
  }

  /** With a route in place export succeeds; loading a city that is not in
      the database then wipes the session, and export is refused. */
  method UnknownCityScenario(m: MapSession)
    requires m.Valid() && m.route.Some? && "paris" !in m.cityDatabase
    modifies m
    ensures m.Valid() && m.selected == [] && m.route == None && m.currentCity == None && m.markers == []
  {
    var e := m.Export();
    assert e == ExportSimulated;
    var a := m.LoadCityData("paris");
    assert a == Some(CityNotFound);
    assert m.selected == [] && m.route == None && m.currentCity == None && m.markers == [];
    e := m.Export();
    assert e == OptimizeFirst;
  }

  /** The search box reaches an inherited name of the city database: typing
      "Constructor" gives the key "constructor", which has no city record but
      which the lookup as written does not treat as missing. */
  lemma SearchReachesInheritedName()
    ensures NormalizeKey("Constructor") == Some("constructor")
    ensures LookupCity(CityDatabase, "constructor").None?
    ensures !TakesNotFoundBranch(LookupAsWritten(CityDatabase, "constructor"))
  {
    CapitalisedConstructorKey();
    InheritedKeySkipsNotFound();
  }
}
