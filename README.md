# Météo Marine Bretagne: dashboard state and offline cache policy

A Dafny model of the decision logic in a browser dashboard for marine weather
along the Brittany coast. It covers two parts.

**The dashboard (`app.js`).** The page keeps a selected location (one of six
fixed coastal points) and an API key for the Stormglass weather service.
Every trigger ends on one of two sources:
- with no key, it shows demo figures;
- with a key, it sends one request to the weather API and shows the live
  figures from the first hourly record if the answer is a 2xx with a readable
  body;
- on any failure it falls back to the demo figures.

The selected location is one of the six registry entries (`Registry.LocationId`).
A key coming from the page, such as a menu item's `data-location`, is looked
up with `Registry.FindLocation`. That lookup is the corrected form of the
guard in `selectLocation` (see Findings).

The model is the class `Dashboard.Dashboard`. Its fields are the selected
location, the key in use, the stored key, the requests sent, and what the page
shows: the location name, the conditions panel, the banner, the selected-zone
card and the forecast strip. Page load, location selection, refresh, saving a
key and the outcome of a request are methods on it. The network's answer is a
parameter (`FetchOutcome`). Beside the class are pure functions with their
lemmas:
- the demo table with its fallback to `nord`;
- reading the first hourly record, where absent values read as 0;
- the card defaults, which replace 0 or a missing value;
- the zero-padded hour label of the forecast strip, with its parser as
  partner;
- JavaScript's `trim`, which decides whether a key is saved.

The live path rewrites the six figures and the banner. The location name and
the selected-zone card keep what they showed before: the last demo view's
text, or the page's own text (`None`) if no demo view has run yet, as on a
page load with a stored key. `Load` and every method that calls it state
this as part of their contracts.

**The service worker (`service-worker.js`).** The browser's cache storage is
the class `CacheStorage.Storage`: cache names in creation order, and a map
from each name to its entries (URL to response). `caches.match` looks
through every cache in that order. `ServiceWorker.Install` precaches the
seven files all-or-nothing. `ServiceWorker.Activate` deletes every cache
except `meteo-marine-v2`. `ServiceWorker.Fetch` does the cache-first routing:
- weather-API URLs are left alone;
- a cache hit is served without asking the network;
- a network answer is stored only if its status is 200;
- when the network fails, only HTML requests get the cached offline page.

`ServiceWorker.Decide` states that routing as a pure case analysis, and
`Fetch` is proved against it. Each handler is one atomic step. The network is
a parameter: a map from URL to response for install, and an optional response
for fetch.

Two Cache API rules the handlers depend on are modelled:
- only GET requests match or are stored (`cache.put` rejects any other
  method, so nothing is stored for them);
- `addAll` stores nothing unless every fetch gave an ok, non-206 response.

`OFFLINE_URL` (`'offline.html'`) is taken as resolved against a worker at the
site root, that is `/offline.html`.

## Model

| member | source | states |
|---|---|---|
| `JsString.TrimStart` | app.js:232-234 | the result is a suffix of the input, everything cut off is whitespace, and it does not start with whitespace |
| `JsString.TrimEnd` | app.js:232-234 | the result is a prefix of the input, everything cut off is whitespace, and it does not end with whitespace |
| `JsString.TrimIsInnerPart` | app.js:232-234 | `trim` keeps a contiguous middle part `s[a..b]`, with only whitespace outside it and no whitespace at either end of the result |
| `JsString.TrimEmptyIffBlank` | app.js:232 | the trimmed input is empty exactly when the input is all whitespace, so only such inputs are refused |
| `JsString.TrimIdempotent` | app.js:233-234 | trimming twice is trimming once, so saving the key again from the settings field, which shows the key in use, leaves the key unchanged |
| `JsString.IncludesIffOccurs` | service-worker.js:41 | `includes` is true exactly when the substring occurs at some index (used for the API-URL test and the Accept header) |
| `Registry.FindLocation` | app.js:12-19 | a key is found exactly when it is the key of a registry location, and then it names that location; any other key is refused |
| `Registry.FindLocationOfKey` | app.js:12-19 | each of the six registry keys is found and names its own location, so distinct locations have distinct keys |
| `Registry.GuardAsWritten` | app.js:189 | the guard `CONFIG.locations[locationId]`, an own-or-inherited property lookup, admits a key exactly when it names a registry location or is a name inherited from `Object.prototype` |
| `Registry.GuardDiffersOnInheritedNames` | app.js:189 | the written guard admits every key the intended guard admits, and the keys it admits besides are exactly the inherited names |
| `Registry.GuardAdmitsInheritedName` | app.js:189 | the guard admits `'toString'`, which is not a registry key |
| `Registry.DemoFor` | app.js:102-111 | the lookup of `demoSites[location]`, or else `demoSites.nord`, in the page's string-keyed demo table gives each registry key the demo figures of its own location, and any other key those of `nord` |
| `Registry.DemoForKey` | app.js:111 | the demo lookup of a location's own key never falls back to `nord` |
| `Registry.DemoFiguresNonzero` | app.js:102-109 | no demo entry has a temperature, sea temperature, wind or wave figure of 0 |
| `Readings.ReadField` | app.js:153-158 | `field?.sg` or 0: a nonzero reading is the provider's value, and the reading is 0 exactly when the value is absent or 0 |
| `Readings.ReadCurrent` | app.js:151-158 | each figure is read from its own field of the first hourly record (air temperature, water temperature, wind speed, wave height, pressure, visibility); with no `hours` or an empty list, every figure reads 0 |
| `Readings.ReadCurrentUsesFirstHourOnly` | app.js:151-158 | records after the first never change the live reading, and each figure shows its field of the first record: a nonzero figure is the value that field holds, and a figure is 0 exactly when that field holds no nonzero value |
| `Readings.CardFor` | app.js:179-185 | a registry location shows its registry name and no location shows 'Côte Nord'; each nonzero data figure is shown as it is, and a 0 figure or missing data shows exactly its default 16, 15, 14 or 1.8, so no card figure is ever 0 |
| `Readings.DemoCardShowsDemoFigures` | app.js:111-126 | for every registry location, the demo card shows the registry name and exactly the demo figures, with no default taking over |
| `Forecast.Digits` | app.js:82 | the decimal text of a natural number is all digits and has 1 digit below 10 and 2 digits from 10 to 99 |
| `Forecast.HourLabel` | app.js:82-83 | every label ends in 'h' and has at least two characters, and an hour below 10 starts with '0' |
| `Forecast.HourLabelRoundTrip` | app.js:82-83 | every non-negative hour parses back from its label (so distinct hours get distinct labels), and an hour below 100 gets a three-character label; the labels agree with the page's for hours below 10^21 |
| `Forecast.Render` | app.js:79-95 | one card per forecast entry, in order, each with the entry's hour label, icon and figures |
| `Forecast.DemoForecastLabels` | app.js:68-83 | the strip's eight labels are 14h, 17h, 20h, 23h, 02h, 05h, 08h, 11h |
| `Dashboard.Resolve` | app.js:130-166 | an empty key, a transport failure or a non-2xx status all give Demo; Live exactly when there is a key, a 2xx status and a readable body, and then the figures are those of the first hourly record |
| `Dashboard.Dashboard.constructor` | app.js:8-30 | the key in use is the stored key or '', the location starts on `nord`, nothing is shown and no request has been sent |
| `Dashboard.Dashboard.ShowDemo` | app.js:99-127 | shows the registry name, the demo reading, the demo banner and the demo card of the current location, and changes nothing else |
| `Dashboard.Dashboard.Load` | app.js:130-167 | with no key: the demo view and no request; otherwise exactly one request with the location's coordinates and the key, then the source `Resolve` gives; the live path keeps the old name and card |
| `Dashboard.Dashboard.OnLoad` | app.js:33-58 | the forecast strip is rendered, then the page shows the source `Resolve` gives, a request is sent only when there is a key, and on the live path the shown name and card are kept |
| `Dashboard.Dashboard.SelectLocation` | app.js:188-200 | a key that names no registry location changes nothing at all; a registry key makes that location current, and the page shows the source `Resolve` gives; on the live path the previous location's name and card stay on screen |
| `Dashboard.Dashboard.Refresh` | app.js:208-214 | reloads the current location: the page shows the source `Resolve` gives, a request is sent only when there is a key, and on the live path the shown name and card are kept |
| `Dashboard.Dashboard.SaveApiKey` | app.js:230-239 | with a missing field or a blank input nothing changes and nothing is sent; otherwise the key in use and the stored key both become the trimmed input, then one request is sent, the page shows the source `Resolve` gives, and on the live path the shown name and card are kept |
| `Dashboard.Dashboard.UseKey` | app.js:233-237 | the key in use and the stored key become the given key, the location and forecast strip are kept, one request per nonempty key is sent, the page shows the source `Resolve` gives for that key, and on the live path the shown name and card are kept |
| `CacheStorage.LookupFindsEarliest` | service-worker.js:46-50 | a match finds nothing exactly when no cache holds the URL; otherwise it returns the entry of the earliest cache that holds it |
| `CacheStorage.Storage.Match` | service-worker.js:46 | the loop over the caches returns what `Lookup` specifies, without changing anything |
| `CacheStorage.Storage.Open` | service-worker.js:17 | an existing cache is left as it is; a missing one is created empty and listed last |
| `CacheStorage.Storage.Put` | service-worker.js:59-60 | only the entry for that URL in that cache changes |
| `CacheStorage.Storage.PutAll` | service-worker.js:18 | the batch is added to that one cache, and nothing else changes |
| `CacheStorage.Storage.Delete` | service-worker.js:30 | the cache and its name are gone, every other cache is kept, and the result tells whether it existed |
| `ServiceWorker.Fetched` | service-worker.js:4-18 | the precached entries are exactly the seven `CACHE_FILES` URLs, each with its fetched, usable response |
| `ServiceWorker.Install` | service-worker.js:15-21 | `CACHE_NAME` exists afterwards; installation succeeds exactly when every file came back ok and not partial, and then every `CACHE_FILES` URL is stored; other caches are untouched |
| `ServiceWorker.PurgeDrops` | service-worker.js:29-31 | deleting a visited name other than `CACHE_NAME` leaves the kept prefix followed by the unvisited names |
| `ServiceWorker.PurgeKeeps` | service-worker.js:29-31 | visiting `CACHE_NAME` keeps it, in front of the unvisited names |
| `ServiceWorker.ActivateStep` | service-worker.js:28-32 | each turn of the purge loop keeps the list of names equal to the kept visited names followed by the unvisited ones |
| `ServiceWorker.PurgeOne` | service-worker.js:28-32 | one turn of the purge deletes the visited name unless it is `CACHE_NAME`, and the remaining caches keep their entries |
| `ServiceWorker.Activate` | service-worker.js:24-36 | afterwards `CACHE_NAME`, if it existed, is the only cache left, with its entries unchanged; every other cache is deleted |
| `ServiceWorker.Decide` | service-worker.js:39-71 | API URLs are skipped; a hit is served from the cache; on a miss the network answer is returned and stored exactly when its status is 200 and the request is a GET; when the network fails only HTML requests get the offline page |
| `ServiceWorker.Fetch` | service-worker.js:39-71 | the response is the one `Decide` picks, and the network is asked only on a miss; every status-200 network answer opens `CACHE_NAME`, creating it when missing, and a GET answer is put there under its URL; every other case leaves the storage unchanged |
| `ServiceWorker.Sync` | service-worker.js:74-78 | the sync handler starts `syncWeatherData` for the tag 'sync-weather' and for no other tag, and leaves the cache storage unchanged |

## Left out

- DOM writes other than the state listed above are not modelled: text of individual elements, icons, class toggles (dark mode, menu, modals), the active-class `forEach` loops over menu items and map zones, `alert`, and the settings modal. They are presentation only.
- `selectLocationFromMap` is not modelled separately. It calls `selectLocation` and then toggles map-zone classes, so its effect on the state is that of `SelectLocation`.
- The request URL, its query parameters, the `fetch` call and JSON parsing are not modelled. The request is recorded as coordinates plus key, and its result is an input. A body that cannot be read as a payload is `body == None`.
- `Math.round` and `toFixed` are not modelled. Figures are unbounded reals. JavaScript's NaN (also falsy) is not modelled.
- Field values of the wrong JSON type are not modelled, and neither is a null entry inside `hours`.
- `Forecast.HourLabel` covers integral hours only, and agrees with the page only below 10^21. The table holds integers; JavaScript's conversion of non-integral numbers, and the exponent form it uses from 10^21 on, are not modelled.
- The clock display and `setInterval` are not modelled. They are timers and locale formatting.
- `state.isOnline`, `weatherData`, `forecastData` and `lastUpdate` are not modelled: nothing in these files reads them or ever assigns them after start-up. `CONFIG.units` is never read, and `CONFIG.darkMode` is read only for styling.
- The PWA install prompt (`beforeinstallprompt`, `installFromMenu`) is not modelled. It is install UX plumbing. It assigns through optional chaining (app.js:256-257, 269-270), which is an early SyntaxError: as written, app.js is rejected before any of it runs, so none of the dashboard behaviour modelled here would happen. The model takes those lines as if they were valid assignments.
- Concurrency is not modelled. Each handler and each load is one atomic step, so overlapping loads, promise ordering, `waitUntil`, and the floating `cache.put` promise are absent.
- `skipWaiting` and `clients.claim` are not modelled. They are worker lifecycle, not cache state.
- `syncWeatherData` is not modelled. It is an empty function; only the tag test that starts it is modelled.
- The Cache API's other refusals are not modelled: a non-HTTP(S) scheme in `cache.put` and `Vary` headers. URLs are plain strings compared exactly.
- What the page does after the as-written guard admits an inherited name is not modelled. The current location is always a registry entry. `Registry.DemoFor` looks keys up as own keys of the demo table, so an inherited name, which the page would find there as a truthy inherited function, falls back to `nord` in the model.
- Relative URLs are not modelled: `OFFLINE_URL` is fixed as `/offline.html`.

## Findings

| source | as written | input that shows it | evidently intended | confidence | as-written member | corrected member |
|---|---|---|---|---|---|---|
| app.js:189 | `if (CONFIG.locations[locationId])` reads a property of an object literal, so it is truthy for names inherited from `Object.prototype` as well as for the six registry keys | `selectLocation('toString')` passes the guard and sets the current location to `'toString'`, whose registry entry and demo entry are both the inherited `Object.prototype.toString` function: it is truthy, so the `|| demoSites.nord` fallback does not apply either, and the page would show `undefined°C` under the name 'toString' | only the six registry keys select a location (an own-property test) | medium, not executed | `Registry.GuardAsWritten`, `Registry.GuardDiffersOnInheritedNames`, `Registry.GuardAdmitsInheritedName` | `Registry.FindLocation`, used by `Dashboard.Dashboard.SelectLocation` |
