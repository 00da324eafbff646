/** The detail-page lookup of src/lib/data.ts: `getPlaceById` over the
    `placeDetails` record, the `hiddenGems` list and the `explorePlaces` list. */
module PlaceLookup {
  import opened Js
  import opened Places

  /** `placeDetails`: the detail records, keyed by id. */
  const PlaceDetails: map<string, Place> := map[
    "chitrakote-falls" := Place("chitrakote-falls", "Chitrakote Waterfalls", Nature, 48, None)
  ]

  /** `hiddenGems` */
  const HiddenGems: seq<Place> := [
    Place("chitrakote-falls", "Chitrakote Falls", Waterfalls, 48, None),
    Place("mungeli-bada", "Mungeli Bada", Food, 45, None),
    Place("kutumsar-caves", "Kutumsar Caves", Caves, 46, None),
    Place("kondagaon-arts", "Kondagaon Arts", Tribal, 44, None)
  ]

  /** `explorePlaces` */
  const ExplorePlaces: seq<Place> := [
    Place("chitrakote-falls", "Chitrakote Falls", Nature, 48, Some("2.1 km away")),
    Place("bhoramdeo-temple", "Bhoramdeo Temple", Temple, 46, Some("4.5 km away")),
    Place("bastar-dussehra-explore", "Bastar Dussehra", Festival, 49, Some("12 km")),
    Place("kanger-valley", "Kanger Valley", Nature, 47, Some("18 km away"))
  ]

  /** `places.find(p => p.id === id)`: the first place with that id. */
  function FindById(places: seq<Place>, id: string): (r: Option<Place>)
    ensures r.None? <==> forall i :: 0 <= i < |places| ==> places[i].id != id
    ensures r.Some? ==> r.value.id == id && r.value in places
  {
    if places == [] then None
    else if places[0].id == id then Some(places[0])
    else FindById(places[1..], id)
  }

  /** `find` answers the earliest match, whatever comes after it. */
  lemma {:induction false} FindFirst(places: seq<Place>, id: string, i: nat)
    requires i < |places| && places[i].id == id
    requires forall j :: 0 <= j < i ==> places[j].id != id
    ensures FindById(places, id) == Some(places[i])
    decreases i
  {
    if i > 0 {
      FindFirst(places[1..], id, i - 1);
    }
  }

  /** The value `placeDetails[id]` reads in JavaScript: an own entry, a member
      every object inherits from `Object.prototype`, or undefined. */
  datatype RecordRead = OwnEntry(place: Place) | Inherited(name: string) | Undefined

  /** The members of `Object.prototype` (section 20.1.3 of ECMAScript 2024,
      with the legacy accessors of its annex B.2.2). All are functions or
      objects, so all are truthy. */
  const ObjectPrototypeMembers: set<string> := {
    "constructor", "hasOwnProperty", "isPrototypeOf", "propertyIsEnumerable",
    "toLocaleString", "toString", "valueOf", "__proto__",
    "__defineGetter__", "__defineSetter__", "__lookupGetter__", "__lookupSetter__"
  }

  /** `placeDetails[id]` as JavaScript evaluates it. */
  function ReadDetails(id: string): RecordRead {
    if id in PlaceDetails then OwnEntry(PlaceDetails[id])
    else if id in ObjectPrototypeMembers then Inherited(id)
    else Undefined
  }

  /** The answer of `getPlaceById` as written: the `||` chain takes the
      record read whenever it is truthy, inherited members included. */
  function GetPlaceByIdAsWritten(id: string): (r: RecordRead)
    ensures r.Inherited? <==> id !in PlaceDetails && id in ObjectPrototypeMembers
  {
    match ReadDetails(id)
    case OwnEntry(p) => OwnEntry(p)
    case Inherited(name) => Inherited(name)
    case Undefined =>
      var found := FindById(HiddenGems, id);
      if found.Some? then OwnEntry(found.value)
      else
        var explored := FindById(ExplorePlaces, id);
        if explored.Some? then OwnEntry(explored.value) else Undefined
  }

  /** No source holds a place with the id "constructor", yet the lookup as
      written answers something other than undefined for it: the function
      object `Object`, which callers then treat as a place. */
  lemma ConstructorIsFound()
    ensures "constructor" !in PlaceDetails
    ensures forall i :: 0 <= i < |HiddenGems| ==> HiddenGems[i].id != "constructor"
    ensures forall i :: 0 <= i < |ExplorePlaces| ==> ExplorePlaces[i].id != "constructor"
    ensures GetPlaceByIdAsWritten("constructor") == Inherited("constructor")
  {
  }

  /** The id a place was filed under in `placeDetails` is its own id. */
  lemma DetailsKeysMatch()
    ensures forall k :: k in PlaceDetails ==> PlaceDetails[k].id == k
  {
  }

  /** `getPlaceById` with `placeDetails` read as a record of its own keys
      only: the detail record first, then the first hidden gem, then the
      first explore place with that id. */
  function GetPlaceById(id: string): (r: Option<Place>)
    ensures r.Some? ==> r.value.id == id
    ensures r.None? <==>
      id !in PlaceDetails
      && (forall i :: 0 <= i < |HiddenGems| ==> HiddenGems[i].id != id)
      && (forall i :: 0 <= i < |ExplorePlaces| ==> ExplorePlaces[i].id != id)
  {
    DetailsKeysMatch();
    if id in PlaceDetails then Some(PlaceDetails[id])
    else
      var found := FindById(HiddenGems, id);
      if found.Some? then found else FindById(ExplorePlaces, id)
  }

  /** Sources are consulted in order: a detail record wins over both lists,
      and a hidden gem over an explore place. */
  lemma LookupPrecedence(id: string)
    ensures id in PlaceDetails ==> GetPlaceById(id) == Some(PlaceDetails[id])
    ensures id !in PlaceDetails && FindById(HiddenGems, id).Some? ==> GetPlaceById(id) == FindById(HiddenGems, id)
  {
  }

  /** "chitrakote-falls" is in all three sources, and the detail record,
      titled "Chitrakote Waterfalls", is the one returned. */
  lemma ChitrakoteFromDetails()
    ensures HiddenGems[0].id == "chitrakote-falls" && ExplorePlaces[0].id == "chitrakote-falls"
    ensures HiddenGems[0].title == "Chitrakote Falls"
    ensures GetPlaceById("chitrakote-falls").Some?
    ensures GetPlaceById("chitrakote-falls").value.title == "Chitrakote Waterfalls"
  {
  }

  /** Wherever the lookup as written gives a place, the corrected lookup gives
      the same place; they differ only on inherited member names. */
  lemma AsWrittenAgreesOnPlaces(id: string)
    ensures GetPlaceByIdAsWritten(id).OwnEntry? ==> GetPlaceById(id) == Some(GetPlaceByIdAsWritten(id).place)
    ensures GetPlaceByIdAsWritten(id).Undefined? ==> GetPlaceById(id).None?
    ensures id !in ObjectPrototypeMembers ==> !GetPlaceByIdAsWritten(id).Inherited?
  {
  }
}
