/**
 * The fixed table of coastal locations (`CONFIG.locations`) and the demo
 * readings shown for each of them when no live data is available.
 */
module Registry {
  import opened Optional

  /** The six registry ids. */
  datatype LocationId = Nord | Sud | Morlaix | Brest | Quiberon | Finistere

  /** A named coastal point. */
  datatype Location = Location(name: string, lat: real, lng: real)

  /** The key under which `CONFIG.locations` lists the location. */
  function Key(id: LocationId): string {
    match id
    case Nord => "nord"
    case Sud => "sud"
    case Morlaix => "morlaix"
    case Brest => "brest"
    case Quiberon => "quiberon"
    case Finistere => "finistere"
  }

  /** The registry entry of each id. */
  function LocationOf(id: LocationId): Location {
    match id
    case Nord => Location("Côte Nord Bretagne", 48.7333, -3.4667)
    case Sud => Location("Côte Sud Bretagne", 47.4833, -2.4833)
    case Morlaix => Location("Baie de Morlaix", 48.6833, -3.8333)
    case Brest => Location("Rade de Brest", 48.3833, -4.4833)
    case Quiberon => Location("Presqu'île de Quiberon", 47.4833, -3.1167)
    case Finistere => Location("Pointe du Finistère", 48.3833, -4.7667)
  }

  /** The location the dashboard starts on. */
  const DefaultLocation := Nord

  /**
   * The registry guard as intended: the id whose key is exactly `key`, if
   * there is one (an own-property lookup in `CONFIG.locations`).
   */
  function FindLocation(key: string): (r: Option<LocationId>)
    ensures r.Some? ==> Key(r.value) == key
    ensures r.None? ==> forall id: LocationId :: Key(id) != key
  {
    if key == "nord" then Some(Nord)
    else if key == "sud" then Some(Sud)
    else if key == "morlaix" then Some(Morlaix)
    else if key == "brest" then Some(Brest)
    else if key == "quiberon" then Some(Quiberon)
    else if key == "finistere" then Some(Finistere)
    else None
  }

  /** Each id's key finds that id again, so distinct ids have distinct keys. */
  lemma {:induction false} FindLocationOfKey(id: LocationId)
    ensures FindLocation(Key(id)) == Some(id)
  {
  }

  /** The own property names of the object literal `CONFIG.locations`. */
  const LocationKeys: set<string> := {"nord", "sud", "morlaix", "brest", "quiberon", "finistere"}

  /** The properties every plain JavaScript object inherits from `Object.prototype`. */
  const InheritedNames: set<string> := {
    "constructor", "hasOwnProperty", "isPrototypeOf", "propertyIsEnumerable",
    "toLocaleString", "toString", "valueOf", "__proto__",
    "__defineGetter__", "__defineSetter__", "__lookupGetter__", "__lookupSetter__"
  }

  /**
   * The registry guard as written, `if (CONFIG.locations[locationId])`: the
   * property lookup finds an own property or an inherited one, and every
   * value it can find (a location object, a function, the prototype) is
   * truthy. It admits every registry key, and more.
   */
  function GuardAsWritten(key: string): (admits: bool)
    ensures admits <==> FindLocation(key).Some? || key in InheritedNames
  {
    key in LocationKeys || key in InheritedNames
  }

  /**
   * The guard as written and the guard as intended disagree exactly on the
   * inherited names: those, and only those, pass the written guard without
   * naming a location.
   */
  lemma {:induction false} GuardDiffersOnInheritedNames(key: string)
    ensures (GuardAsWritten(key) && FindLocation(key).None?) <==> key in InheritedNames
    ensures FindLocation(key).Some? ==> GuardAsWritten(key)
  {
    if key in InheritedNames {
      assert key !in LocationKeys;
    }
  }

  /** The guard as written lets 'toString' through although it is no registry key. */
  lemma GuardAdmitsInheritedName()
    ensures GuardAsWritten("toString") && FindLocation("toString").None?
  {
  }

  /** A demo reading: the values demo mode displays for one site. */
  datatype DemoReading = DemoReading(
    temp: real, sea: real, wind: real, waves: real,
    pressure: real, visibility: real, dir: string)

  /** The demo figures of each registry id. */
  function DemoOf(id: LocationId): DemoReading {
    match id
    case Nord => DemoReading(16.0, 15.0, 14.0, 1.8, 1015.0, 12.0, "NO")
    case Sud => DemoReading(19.0, 17.0, 8.0, 0.8, 1020.0, 20.0, "SE")
    case Morlaix => DemoReading(15.0, 14.0, 22.0, 2.5, 1010.0, 8.0, "O")
    case Brest => DemoReading(17.0, 16.0, 16.0, 1.5, 1013.0, 15.0, "SO")
    case Quiberon => DemoReading(20.0, 18.0, 10.0, 1.0, 1018.0, 18.0, "E")
    case Finistere => DemoReading(14.0, 13.0, 28.0, 3.5, 1008.0, 6.0, "ONO")
  }

  /** `demoSites` of `afficherModeDemo`, keyed by location key as in the page. */
  const DemoSites: map<string, DemoReading> := map[
    "nord" := DemoReading(16.0, 15.0, 14.0, 1.8, 1015.0, 12.0, "NO"),
    "sud" := DemoReading(19.0, 17.0, 8.0, 0.8, 1020.0, 20.0, "SE"),
    "morlaix" := DemoReading(15.0, 14.0, 22.0, 2.5, 1010.0, 8.0, "O"),
    "brest" := DemoReading(17.0, 16.0, 16.0, 1.5, 1013.0, 15.0, "SO"),
    "quiberon" := DemoReading(20.0, 18.0, 10.0, 1.0, 1018.0, 18.0, "E"),
    "finistere" := DemoReading(14.0, 13.0, 28.0, 3.5, 1008.0, 6.0, "ONO")
  ]

  /**
   * `demoSites[location] || demoSites.nord`: a registry key gets the demo
   * figures of its own location, and any other key those of `nord`.
   */
  function DemoFor(key: string): (r: DemoReading)
    ensures FindLocation(key).Some? ==> r == DemoOf(FindLocation(key).value)
    ensures FindLocation(key).None? ==> r == DemoOf(Nord)
  {
    if key in DemoSites then DemoSites[key] else DemoSites["nord"]
  }

  /** The demo lookup of a location's own key never falls back. */
  lemma {:induction false} DemoForKey(id: LocationId)
    ensures DemoFor(Key(id)) == DemoOf(id)
  {
    FindLocationOfKey(id);
  }

  /** Every demo figure shown on the card is nonzero, so no card default replaces it. */
  lemma {:induction false} DemoFiguresNonzero(id: LocationId)
    ensures var d := DemoOf(id); d.temp != 0.0 && d.sea != 0.0 && d.wind != 0.0 && d.waves != 0.0
  {
  }
}
