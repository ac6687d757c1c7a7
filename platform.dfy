/** The shapes shared by the screens and the collaborators they talk to:
    the device's key-value store (AsyncStorage), the remote hotspot list
    (fetch) and JSON text (JSON.stringify / JSON.parse). */
module Platform {

  datatype Option<T> = None | Some(value: T)

  /** A point on the map. The app never computes with coordinates: it only
      stores, copies and compares them. */
  datatype Coordinates = Coordinates(latitude: real, longitude: real)

  /** One entry of the remote catalog; its identity is `id`. Inventory
      entries have the same shape. */
  datatype Hotspot = Hotspot(id: string, name: string, description: string, coordinates: Coordinates)

  /** The storage keys the app uses. */
  const HotspotsCacheKey := "hotspots-cache"
  const InventoryKey := "inventory-cache"
  const ThemeKey := "theme-preference"

  /** How a promise returned by an async handler settles: `Rejected` when an
      exception escapes the handler. */
  datatype Settlement = Resolved | Rejected

  /** JavaScript truthiness of what `getItem` resolves to: `null` (no entry)
      and the empty string are falsy, every other string is truthy. */
  predicate Truthy(v: Option<string>)
  {
    v.Some? && v.value != ""
  }

  function Lookup(m: map<string, string>, key: string): (v: Option<string>)
    ensures v.Some? <==> key in m
    ensures v.Some? ==> m[key] == v.value
  {
    if key in m then Some(m[key]) else None
  }

  /** JSON.stringify and JSON.parse, restricted to lists of hotspots.
      `parse` yields None where JSON.parse throws, and also for JSON text
      whose value is not a list of hotspots. */
  datatype Codec = Codec(stringify: seq<Hotspot> -> string, parse: string -> Option<seq<Hotspot>>)

  /** What JSON guarantees for a list the app writes: parsing the text of
      the list gives the list back, and that text (it starts with '[') is
      never the empty string. */
  ghost predicate RoundTrips(json: Codec, xs: seq<Hotspot>)
  {
    json.parse(json.stringify(xs)) == Some(xs) && json.stringify(xs) != ""
  }

  /** A response from the hotspot endpoint: its `ok` status and what
      `response.json()` gives (None when the body is not JSON, or is JSON
      but not a list of hotspots). */
  datatype Response = Response(ok: bool, body: Option<seq<Hotspot>>)

  /** The outcome of one `fetch` of the hotspot URL. */
  datatype Fetch = Received(response: Response) | NetworkFailure

  /** The outcome of `if (stored) JSON.parse(stored)` on a value read from
      the store; `Unparseable` also stands for JSON that is not a list of
      hotspots. */
  datatype StoredList = Missing | Parsed(items: seq<Hotspot>) | Unparseable

  function ReadList(json: Codec, stored: Option<string>): (r: StoredList)
    ensures r.Missing? <==> !Truthy(stored)
    ensures r.Parsed? ==> json.parse(stored.value) == Some(r.items)
    ensures r.Unparseable? ==> json.parse(stored.value) == None
  {
    if !Truthy(stored) then Missing
    else match json.parse(stored.value)
      case Some(items) => Parsed(items)
      case None => Unparseable
  }

  /** A list written with JSON.stringify reads back as the same list. */
  lemma ReadWrittenList(json: Codec, xs: seq<Hotspot>)
    requires RoundTrips(json, xs)
    ensures ReadList(json, Some(json.stringify(xs))) == Parsed(xs)
  {
  }

  /** AsyncStorage: string keys to string values, shared by every screen. */
  class KeyValueStore {
    var entries: map<string, string>

    constructor (initial: map<string, string>)
      ensures entries == initial
    {
      entries := initial;
    }

    method GetItem(key: string) returns (v: Option<string>)
      ensures v == Lookup(entries, key)
    {
      v := Lookup(entries, key);
    }

    method SetItem(key: string, value: string)
      modifies this
      ensures entries == old(entries)[key := value]
    {
      entries := entries[key := value];
    }
  }
}
