/**
 The static data of the map page: the `iconProperties` table and the
 `cityDatabase` with its single Salzburg record, plus the by-id lookup
 (`Array.prototype.find`) used to turn selected ids back into attractions.
 */
module Catalog {
  import opened Wrappers
  import opened Lists

  /** A latitude/longitude pair in degrees. */
  datatype LatLng = LatLng(lat: real, lng: real)

  /** One entry of a city's `attractions` list. */
  datatype Attraction = Attraction(id: int, name: string, position: LatLng, category: string, icon: string)

  /** A `cityDatabase` record. */
  datatype City = City(name: string, center: LatLng, zoom: nat, attractions: seq<Attraction>)

  /** A value of the `iconProperties` table: a Font Awesome icon name and a colour. */
  datatype IconStyle = IconStyle(icon: string, color: string)

  /** The `iconProperties` object, key by key. */
  const IconTable: map<string, IconStyle> := map[
    "landmark" := IconStyle("landmark", "#005A9C"),
    "museum" := IconStyle("university", "#6A057F"),
    "historic" := IconStyle("building", "#8B4513"),
    "park" := IconStyle("tree", "#2E8B57"),
    "cafe" := IconStyle("coffee", "#A0522D"),
    "restaurant" := IconStyle("utensils", "#D2691E"),
    "shop" := IconStyle("shopping-bag", "#800080"),
    "religious" := IconStyle("place-of-worship", "#B8860B"),
    "info" := IconStyle("info-circle", "#777777")
  ]

  const Salzburg: City := City(
    "Salzburg, Austria", LatLng(47.8095, 13.0550), 13,
    [ Attraction(1, "Hohensalzburg Fortress", LatLng(47.7975, 13.0475), "Landmark", "landmark"),
      Attraction(2, "Mirabell Palace and Gardens", LatLng(47.8090, 13.0450), "Historic Site", "historic"),
      Attraction(3, "Mozart's Birthplace", LatLng(47.8009, 13.0468), "Museum", "museum"),
      Attraction(4, "Salzburg Cathedral", LatLng(47.7997, 13.0478), "Religious Site", "religious"),
      Attraction(5, "Mönchsberg", LatLng(47.7990, 13.0400), "Park", "park"),
      Attraction(6, "Getreidegasse", LatLng(47.8006, 13.0457), "Shopping Street", "shop") ])

  /** The `cityDatabase` object: one key, "salzburg". */
  const CityDatabase: map<string, City> := map["salzburg" := Salzburg]

  /** The ids of a catalog, in catalog order. */
  function Ids(atts: seq<Attraction>): (r: seq<int>)
    ensures |r| == |atts|
    ensures forall k :: 0 <= k < |atts| ==> r[k] == atts[k].id
  {
    if atts == [] then [] else [atts[0].id] + Ids(atts[1..])
  }

  /** No two attractions of the catalog share an id. */
  predicate UniqueIds(atts: seq<Attraction>)
  {
    NoDup(Ids(atts))
  }

  /** Every attraction names an icon key that `iconProperties` defines, so
      the marker and list-item templates never read a missing entry. */
  predicate IconsKnown(atts: seq<Attraction>)
  {
    forall k :: 0 <= k < |atts| ==> atts[k].icon in IconTable
  }

  /** A catalog the page can render and route over. */
  predicate WellFormed(c: City)
  {
    UniqueIds(c.attractions) && IconsKnown(c.attractions)
  }

  /** The Salzburg catalog lists the ids 1 to 6 in order. */
  lemma SalzburgIds()
    ensures Ids(Salzburg.attractions) == [1, 2, 3, 4, 5, 6]
  {
  }

  lemma SalzburgWellFormed()
    ensures WellFormed(Salzburg)
  {
    SalzburgIds();
    var ids := [1, 2, 3, 4, 5, 6];
    assert forall i :: 0 <= i < |ids| ==> ids[i] == i + 1;
  }

  /** Every record of a city database is well formed. */
  predicate DatabaseWellFormed(db: map<string, City>)
  {
    forall key :: key in db ==> WellFormed(db[key])
  }

  /** `cityDatabase[cityKey]` as the loader is meant to read it: the key's own
      city record, or undefined (the not-found alert) for any other key. */
  function LookupCity(db: map<string, City>, key: string): (r: Option<City>)
    ensures r.Some? <==> key in db
    ensures r.Some? ==> r.value == db[key]
    ensures DatabaseWellFormed(db) && r.Some? ==> WellFormed(r.value)
  {
    if key in db then Some(db[key]) else None
  }

  /** The shipped database resolves "salzburg", and only it, to a
      well-formed catalog of six attractions. */
  lemma CityDatabaseFacts(key: string)
    ensures DatabaseWellFormed(CityDatabase)
    ensures LookupCity(CityDatabase, key).Some? <==> key == "salzburg"
    ensures key == "salzburg" ==> LookupCity(CityDatabase, key) == Some(Salzburg) && |Salzburg.attractions| == 6
  {
    SalzburgWellFormed();
  }

  /** The names every plain object literal inherits from `Object.prototype`. */
  const ObjectPrototypeNames: set<string> :=
    {"constructor", "__proto__", "hasOwnProperty", "isPrototypeOf", "propertyIsEnumerable",
     "toLocaleString", "toString", "valueOf",
     "__defineGetter__", "__defineSetter__", "__lookupGetter__", "__lookupSetter__"}

  /** What property access on the object literal `cityDatabase` yields. */
  datatype JsLookup =
    | OwnCity(city: City)     // an own property: a city record
    | Inherited(name: string) // a function or `Object.prototype` itself, both truthy
    | Undefined

  /** `cityDatabase[cityKey]` as written: a plain object also answers for the
      names it inherits. */
  function LookupAsWritten(db: map<string, City>, key: string): (r: JsLookup)
    ensures r.OwnCity? <==> key in db
    ensures r.OwnCity? ==> r.city == db[key]
    ensures r.Inherited? <==> key !in db && key in ObjectPrototypeNames
    ensures r.Undefined? <==> LookupCity(db, key).None? && key !in ObjectPrototypeNames
  {
    if key in db then OwnCity(db[key])
    else if key in ObjectPrototypeNames then Inherited(key)
    else Undefined
  }

  /** `!currentCityData` is true only for undefined: the not-found branch. */
  predicate TakesNotFoundBranch(r: JsLookup)
  {
    r.Undefined?
  }

  /** Apart from the inherited names, the lookup as written and the intended
      one agree on which keys raise the not-found alert and on the record found. */
  lemma LookupAgreesOffPrototype(db: map<string, City>, key: string)
    requires key !in ObjectPrototypeNames
    ensures TakesNotFoundBranch(LookupAsWritten(db, key)) <==> LookupCity(db, key).None?
    ensures LookupAsWritten(db, key).OwnCity? ==> LookupCity(db, key) == Some(LookupAsWritten(db, key).city)
  {
  }

  /** The discrepancy: "constructor" has no city record, yet the lookup as
      written skips the not-found branch and goes on to use `Object` as a city. */
  lemma InheritedKeySkipsNotFound()
    ensures LookupCity(CityDatabase, "constructor").None?
    ensures !TakesNotFoundBranch(LookupAsWritten(CityDatabase, "constructor"))
    ensures !TakesNotFoundBranch(LookupAsWritten(CityDatabase, "__proto__"))
  {
    CityDatabaseFacts("constructor");
    CityDatabaseFacts("__proto__");
  }

  /** `attractions.find(a => a.id === id)`: an attraction with that id, when
      the catalog has one. */
  function FindById(atts: seq<Attraction>, id: int): (r: Option<Attraction>)
    ensures r.None? <==> id !in Ids(atts)
    ensures r.Some? ==> r.value in atts && r.value.id == id
  {
    if atts == [] then None
    else if atts[0].id == id then Some(atts[0])
    else
      assert Ids(atts) == [atts[0].id] + Ids(atts[1..]);
      FindById(atts[1..], id)
  }

  /** In a catalog with unique ids, the lookup returns THE attraction with that id. */
  lemma {:induction false} FindByIdUnique(atts: seq<Attraction>, j: nat)
    requires UniqueIds(atts) && j < |atts|
    ensures FindById(atts, atts[j].id) == Some(atts[j])
  {
    var ids := Ids(atts);
    if j > 0 {
      assert ids[0] != ids[j];
      var tail := atts[1..];
      assert Ids(tail) == ids[1..];
      NoDupTail(ids);
      assert tail[j - 1] == atts[j];
      FindByIdUnique(tail, j - 1);
    }
  }
}
