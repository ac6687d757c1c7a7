# Hotspot companion app: state rules, modelled in Dafny

The app lists real-world hotspots fetched from a remote JSON file, lets the
user collect some of them into a persistent inventory, shows hotspots and the
user's position on a map, and keeps a light/dark display preference. This
project models the state-update rules inside its components, with the
collaborators abstracted:

- **AsyncStorage** is `Platform.KeyValueStore`, one object holding a
  `map<string, string>` that every screen shares. The app's keys are
  `hotspots-cache`, `inventory-cache` and `theme-preference`.
- **JSON** is `Platform.Codec`, a pair of functions standing for
  `JSON.stringify` and `JSON.parse` on hotspot lists. `parse` gives `None`
  where JSON.parse throws, and also for JSON whose value is not a list of
  hotspots (see "Left out"). That a written list reads back unchanged is
  the per-list hypothesis `RoundTrips(json, xs)`. Only the lemmas and
  scenarios that read back what was written require it, and only for the
  lists they write; the operations themselves do not.
- **fetch** is an input `Fetch`: either `NetworkFailure`, or a `Response`
  with its `ok` flag and the body that `response.json()` parses, if any.
- **Appearance** and **expo-location** are inputs: the system colour scheme
  and the permission status are parameters, and each location sample is a
  call to `OnSample`.

Each async handler is one atomic step. A handler that lets an exception
escape returns `Rejected`, meaning its promise rejects. JavaScript
truthiness of stored values is modelled (`Platform.Truthy`): a missing
entry and the empty string are both falsy.

Modules, one per source file:

- `Home` (`components/screens/HomeScreen.jsx`). The catalog load tries the
  network. Only an ok response whose body parses counts as success. On
  success it replaces `data` and the stored copy. On failure it shows the
  stored copy if there is one and writes nothing. `loading` always ends
  false. The inventory is stored as a whole list. Add refuses an id that is
  already present. Remove filters out the id. Both keep ids unique.
- `Theme` (`components/ThemeContext.jsx`). The theme starts as `'light'`.
  On load, a truthy stored value wins as it is; otherwise the theme comes
  from the system scheme and nothing is written. Toggle moves `'light'` to
  `'dark'` and anything else to `'light'`, then writes the new value.
- `LocationMap` (`components/screens/Map.js`). A permission gate, samples
  that move the position and extend the trail, and the `text` value the
  component computes. The JSX never uses `text`: nothing on screen shows
  'Waiting...', the location or an error. The
  component destructures `errorMsg` and `setErrorMsg` from the `useState`
  function itself, so both are undefined. This is modelled as written: a
  denied permission throws, nothing is subscribed, and `text` can never
  hold an error.
- `HotspotMap` (`components/screens/MapScreen.jsx`). A potion given by the
  route is the only hotspot shown, and no request is made. Otherwise the
  parsed body is shown without any `ok` check and with no stored fallback.
  The initial region is centred on the potion or on a fixed default. Live
  tracking is commented out in the source, so position and trail never
  change.

The model follows the code, also where it departs from the intended
offline-first design:

- A failed write is not rolled back. State is set before the write.
- A stored theme is not checked against light/dark.
- The catalog load reports no fresh/cached/empty flag. A corrupt stored
  copy makes `JSON.parse` throw inside the catch block, so the load rejects
  with `data` unchanged.
- A denied location permission shows no message in `Map.js`.
- There is no unsubscribe.
- `Map.js` is not routed from App.js; it is modelled as written all the same.

## Model

| member | source | states |
|---|---|---|
| `Platform.ReadList` | components/screens/HomeScreen.jsx:40-42 | reading a stored list: missing exactly when the value is falsy; otherwise the parse result, or unparseable when JSON.parse would throw |
| `Platform.ReadWrittenList` | components/screens/HomeScreen.jsx:37 | a list whose JSON text round-trips reads back, through the truthiness test and the parse, as the same list |
| `Home.FindById` | components/screens/HomeScreen.jsx:63 | `find` by id succeeds exactly when some entry has that id, and what it finds is the first entry of the list with that id |
| `Home.WithoutId` | components/screens/HomeScreen.jsx:74 | `filter` by id: an entry is kept exactly when it was in the list and its id differs; the list never grows |
| `Home.WithoutIdKeepsOrder` | components/screens/HomeScreen.jsx:74 | the entries left after a removal are a subsequence of the old list, in their original relative order |
| `Home.WithoutIdOfConcat` | components/screens/HomeScreen.jsx:74 | removal works entry by entry: it distributes over concatenation |
| `Home.WithoutAbsentId` | components/screens/HomeScreen.jsx:74 | when no entry has the id, removal returns the list unchanged |
| `Home.AddThenRemove` | components/screens/HomeScreen.jsx:68-74 | removing an item just appended under a new id restores the previous list |
| `Home.RemoveIsIdempotent` | components/screens/HomeScreen.jsx:74 | removing the same id twice is the same as removing it once |
| `Home.UniqueIdsAppend` | components/screens/HomeScreen.jsx:63-68 | appending an item whose id is absent keeps ids unique |
| `Home.UniqueIdsWithoutId` | components/screens/HomeScreen.jsx:74 | removal keeps ids unique |
| `Home.OkBody` | components/screens/HomeScreen.jsx:33-35 | the catalog counts as fetched only from an ok response whose body parses, and then it is that body |
| `Home.NotOkIsNetworkFailure` | components/screens/HomeScreen.jsx:34 | a response that is not ok is handled exactly like a network failure |
| `Home.HomeScreen.constructor` | components/screens/HomeScreen.jsx:22-24 | the catalog and the inventory start empty and `loading` starts true |
| `Home.HomeScreen.FetchData` | components/screens/HomeScreen.jsx:30-49 | on success, `data` is the fetched list and the cache entry is replaced by exactly its text; on failure nothing is written and `data` is the parsed cache, unchanged when there is no cache, unchanged with a rejection when the cache does not parse; `loading` is false afterwards on every path |
| `Home.HomeScreen.LoadInventory` | components/screens/HomeScreen.jsx:51-56 | a stored inventory replaces the one in memory; with nothing stored it is unchanged; an unparseable one rejects; the store is outside the frame |
| `Home.HomeScreen.AddToInventory` | components/screens/HomeScreen.jsx:62-71 | added exactly when the id is absent; then the item is appended after the untouched earlier entries and the store holds the new list; otherwise inventory and store are unchanged; either way the id is present afterwards; unique ids are preserved, and when the new list's JSON round-trips the stored list reads back as the inventory |
| `Home.HomeScreen.RemoveFromInventory` | components/screens/HomeScreen.jsx:73-77 | no entry with the id remains, the rest keep their order, the store holds the new list even when nothing was removed, unique ids are preserved, and when the new list's JSON round-trips the stored list reads back as the inventory |
| `Home.CatalogFallback` | components/screens/HomeScreen.jsx:30-49 | for a catalog whose JSON round-trips: a successful load, then a failed load on a new screen over the same store, then a failed load over an empty store give the fetched list, the same list from the cache, and the empty list |
| `Home.InventorySurvivesRestart` | components/screens/HomeScreen.jsx:51-71 | for a start list whose JSON round-trips, and for the list with the item appended when its id is new: after load and add, a new screen over the same store reloads the inventory with the item exactly once: the old list plus the item, or the old list when the id was already there |
| `Theme.SystemTheme` | components/ThemeContext.jsx:16-17 | the derived theme is dark exactly when the system scheme is dark, and light otherwise, including a null scheme |
| `Theme.LoadedTheme` | components/ThemeContext.jsx:12-18 | a truthy stored value becomes the theme as it is; otherwise the theme is the system-derived one; the result is never empty |
| `Theme.NextTheme` | components/ThemeContext.jsx:24 | the next theme is dark exactly when the current one is light, and light for every other value |
| `Theme.ToggleTwice` | components/ThemeContext.jsx:24 | toggling twice restores the theme exactly when it was light or dark |
| `Theme.ToggledThemeIsReloaded` | components/ThemeContext.jsx:12-14 | a value written by toggle is what a later load yields, whatever the system scheme |
| `Theme.ThemeProvider.constructor` | components/ThemeContext.jsx:8 | the theme starts as light |
| `Theme.ThemeProvider.LoadTheme` | components/ThemeContext.jsx:10-21 | the theme becomes the loaded theme of the stored preference and the system scheme; the store is outside the frame, so load never writes |
| `Theme.ThemeProvider.ToggleTheme` | components/ThemeContext.jsx:23-27 | the theme becomes the next theme and the store maps the preference key to exactly that value, with nothing else changed |
| `Theme.ThemeSurvivesRestart` | components/ThemeContext.jsx:7-27 | after load and toggle, a new provider over the same store loads the toggled theme even under another system scheme |
| `LocationMap.StatusText` | components/screens/Map.js:46-51 | `text` holds the error message exactly when it is truthy, otherwise the location exactly when there is one, otherwise 'Waiting...' |
| `LocationMap.PositionTracker.constructor` | components/screens/Map.js:8-9 | no position and an empty trail before anything is subscribed |
| `LocationMap.PositionTracker.GetCurrentLocation` | components/screens/Map.js:18-24 | a subscription is made exactly when the status is 'granted'; any other status rejects (the call to the undefined setter throws) and leaves position and trail as they were |
| `LocationMap.PositionTracker.OnSample` | components/screens/Map.js:32-37 | the position becomes the sample and the trail gains exactly that point at its end, earlier points unchanged; the position stays the trail's last point |
| `LocationMap.PositionTracker.Text` | components/screens/Map.js:10 | with `errorMsg` undefined `text` never holds an error; it holds the location exactly when there is one |
| `LocationMap.DeniedStaysWaiting` | components/screens/Map.js:20-24 | after a denial there is no trail and `text` keeps holding 'Waiting...' |
| `LocationMap.TwoSamples` | components/screens/Map.js:32-36 | two samples after a grant leave both in the trail in order, and `text` holds the second |
| `HotspotMap.PotionOf` | components/screens/MapScreen.jsx:17 | a potion is taken exactly when the route, its parameters and a potion are all present, and it is that potion |
| `HotspotMap.ParsedBody` | components/screens/MapScreen.jsx:21-22 | the list is the parsed body of any response, whatever its status, and nothing after a network failure |
| `HotspotMap.InitialRegion` | components/screens/MapScreen.jsx:63-75 | centred on the potion's coordinates with span 0.01, or on the fixed default centre with span 0.1, both spans equal |
| `HotspotMap.MapScreen.constructor` | components/screens/MapScreen.jsx:11-17 | no hotspots, loading, no position, empty trail, no error, and the potion taken from the route |
| `HotspotMap.MapScreen.SelectHotspots` | components/screens/MapScreen.jsx:19-35 | a request is made exactly when there is no potion; with a potion the hotspots are exactly that potion; otherwise the parsed body, or unchanged after a failure; loading is false afterwards; position and trail are outside the frame |
| `HotspotMap.OpenForPotion` | components/screens/MapScreen.jsx:17-35 | opened for a potion, the map shows exactly that potion, makes no request and is centred on it |
| `HotspotMap.OpenWithoutPotion` | components/screens/MapScreen.jsx:19-35 | opened without a potion, the map shows the parsed body even of a response that is not ok, nothing after a failure, and centres on the default |
| `HotspotMap.MapAcceptsWhatHomeAccepts` | components/screens/MapScreen.jsx:21-26 | the map shows every list the home screen accepts from the same answer, and besides those exactly the parsed bodies of responses that are not ok |

## Left out

- Rendering and styling: JSX trees, `StyleSheet` blocks, the dark map style table, `Alert` and `console` output.
- Navigation in App.js and the settings switch in SettingsScreen.jsx. They only render, and the switch only calls `toggleTheme`.
- Real I/O: HTTP, JSON parsing itself, the storage engine, the appearance query and the location service are inputs or the abstract `Codec`.
- Failures of `getItem` and `setItem`. Each handler is one atomic step, so a failed write after `setData` does not fall into the catch block.
- Async interleavings, for example two `addToInventory` calls that read the same stale inventory. They are out of scope.
- The location library's `timeInterval` and `distanceInterval` filtering. Which samples arrive is the caller's choice of `OnSample` calls.
- The `region` constant in Map.js and the `watchPositionAsync` subscription handle. The first is used only for rendering; the second is never kept.
- JSON values other than hotspot lists (`null`, an object, a number) are treated as parse failures. In the source such a value is truthy and parses: an ok response with such a body is set as `data` and overwrites the cache, a stored `"null"` is set as `data` or `inventory` and the handler resolves, and the map screen shows it. The model's state holds only hotspot lists, so `FetchData`, `LoadInventory` and `SelectHotspots` take their failure paths instead.
- Floating point. Coordinates and spans are reals that are only copied and compared.
- Hotspot ids are strings. The endpoint may send numbers, and the model compares ids with equality in both cases.
- MapScreen's commented-out tracking effect. It is not code, so the screen's position and trail never change.
