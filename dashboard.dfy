/**
 * The dashboard's view state (`state`, `CONFIG.apiKey`) and the events that
 * change it: page load, location selection, refresh, saving an API key, and
 * the outcome of a weather-API request.
 */
module Dashboard {
  import opened Optional
  import opened JsString
  import opened Registry
  import opened Readings
  import Forecast

  /** What the network answered to the weather-API request. */
  datatype FetchOutcome =
    | Response(status: int, body: Option<Payload>)  // body None: not parseable as a payload
    | Transport                                     // the request itself failed

  /** `response.ok`: a 2xx status. */
  predicate IsOk(status: int) {
    200 <= status <= 299
  }

  /** Where a load takes its figures from. */
  datatype Source = Demo | Live(reading: LiveReading)

  /** The request sent to the weather API: the location's coordinates and the key as Authorization header. */
  datatype ApiRequest = ApiRequest(lat: real, lng: real, key: string)

  /** The warning banner's state. */
  datatype Banner = Untouched | DemoBanner | LiveBanner

  /** The current-conditions panel. */
  datatype Panel = Blank | DemoPanel(demo: DemoReading) | LivePanel(live: LiveReading)

  /**
   * The source a load ends on (`chargerDonneesMeteo`, and the `!CONFIG.apiKey`
   * tests before it): live figures only with a key, a 2xx answer and a body
   * that reads as a payload; demo data in every other case.
   */
  function Resolve(apiKey: string, outcome: FetchOutcome): (s: Source)
    ensures apiKey == "" ==> s == Demo
    ensures outcome.Transport? ==> s == Demo
    ensures outcome.Response? && !IsOk(outcome.status) ==> s == Demo
    ensures s.Live? <==> apiKey != "" && outcome.Response? && IsOk(outcome.status) && outcome.body.Some?
    ensures s.Live? ==> s.reading == ReadCurrent(outcome.body.value)
  {
    if apiKey == "" then Demo
    else match outcome
      case Response(status, body) =>
        if IsOk(status) && body.Some? then Live(ReadCurrent(body.value)) else Demo
      case Transport => Demo
  }

  class Dashboard {
    /** `state.currentLocation`, as the registry id it names */
    var currentLocation: LocationId
    /** `CONFIG.apiKey` */
    var apiKey: string
    /** the 'stormglass_api_key' entry of local storage */
    var storedKey: Option<string>
    /** requests sent to the weather API, oldest first */
    var requests: seq<ApiRequest>
    /** the location name shown above the panel; None while the page's own text stands */
    var shownName: Option<string>
    var panel: Panel
    var banner: Banner
    /** the selected-zone card; None while the page's own text stands */
    var card: Option<ZoneCard>
    var forecast: seq<Forecast.ForecastCard>

    /** The page shows the demo view of the current location: its name, its demo figures, its card. */
    predicate ShowsDemo()
      reads this
    {
      var d := DemoOf(currentLocation);
      && shownName == Some(LocationOf(currentLocation).name)
      && panel == DemoPanel(d)
      && banner == DemoBanner
      && card == Some(CardFor(Some(currentLocation), Some(d)))
    }

    /** The page shows the source `s`: demo as above, live in the panel with the live banner. */
    predicate Shows(s: Source)
      reads this
    {
      match s
      case Demo => ShowsDemo()
      case Live(r) => panel == LivePanel(r) && banner == LiveBanner
    }

    /** The requests a load of the current location sends with `key`: none without a key. */
    function RequestsFor(key: string): seq<ApiRequest>
      reads this
    {
      if key == "" then [] else [ApiRequest(LocationOf(currentLocation).lat, LocationOf(currentLocation).lng, key)]
    }

    /** Loading `CONFIG` from local storage (an absent key reads as ''); the location starts on `nord`. */
    constructor (stored: Option<string>)
      ensures currentLocation == DefaultLocation
      ensures apiKey == (if stored.Some? then stored.value else "") && storedKey == stored
      ensures requests == [] && forecast == []
      ensures shownName == None && panel == Blank && banner == Untouched && card == None
    {
      currentLocation := DefaultLocation;
      apiKey := if stored.Some? then stored.value else "";
      storedKey := stored;
      requests := [];
      shownName := None;
      panel := Blank;
      banner := Untouched;
      card := None;
      forecast := [];
    }

    /** `afficherModeDemo`: the demo view of the current location. */
    method ShowDemo()
      modifies this`shownName, this`panel, this`banner, this`card
      ensures ShowsDemo()
    {
      var d := DemoFor(Key(currentLocation));
      DemoForKey(currentLocation);
      shownName := Some(LocationOf(currentLocation).name);
      panel := DemoPanel(d);
      banner := DemoBanner;
      card := Some(CardFor(Some(currentLocation), Some(d)));
    }

    /**
     * `chargerDonneesMeteo`: with no key, the demo view and no request;
     * otherwise one request, then the live panel on success and the demo
     * view on any failure. The live path leaves the shown name and the card
     * as they were.
     */
    method Load(outcome: FetchOutcome)
      modifies this`requests, this`shownName, this`panel, this`banner, this`card
      ensures Shows(Resolve(apiKey, outcome))
      ensures requests == old(requests) + RequestsFor(apiKey)
      ensures Resolve(apiKey, outcome).Live? ==> shownName == old(shownName) && card == old(card)
    {
      if apiKey == "" {
        ShowDemo();
        return;
      }
      requests := requests + RequestsFor(apiKey);
      match outcome
      case Response(status, body) =>
        if IsOk(status) && body.Some? {
          panel := LivePanel(ReadCurrent(body.value));
          banner := LiveBanner;
        } else {
          ShowDemo();
        }
      case Transport =>
        ShowDemo();
    }

    /** The DOMContentLoaded handler: the forecast strip, then demo or a load. */
    method OnLoad(outcome: FetchOutcome)
      modifies this
      ensures currentLocation == old(currentLocation) && apiKey == old(apiKey) && storedKey == old(storedKey)
      ensures |forecast| == |Forecast.DemoForecast|
      ensures forall i :: 0 <= i < |forecast| ==> forecast[i] == Forecast.CardOf(Forecast.DemoForecast[i])
      ensures Shows(Resolve(apiKey, outcome))
      ensures requests == old(requests) + RequestsFor(apiKey)
      ensures Resolve(apiKey, outcome).Live? ==> shownName == old(shownName) && card == old(card)
    {
      forecast := Forecast.Render(Forecast.DemoForecast);
      if apiKey == "" {
        ShowDemo();
      } else {
        Load(outcome);
      }
    }

    /**
     * `selectLocation`, with the registry guard as intended: a registry key
     * becomes the current location and the view is reloaded; any other key
     * changes nothing.
     */
    method SelectLocation(key: string, outcome: FetchOutcome)
      modifies this
      ensures FindLocation(key).None? ==> unchanged(this)
      ensures FindLocation(key).Some? ==>
                && Key(currentLocation) == key
                && apiKey == old(apiKey) && storedKey == old(storedKey) && forecast == old(forecast)
                && Shows(Resolve(apiKey, outcome))
                && requests == old(requests) + RequestsFor(apiKey)
                && (Resolve(apiKey, outcome).Live? ==> shownName == old(shownName) && card == old(card))
    {
      var found := FindLocation(key);
      if found.Some? {
        currentLocation := found.value;
        if apiKey == "" {
          ShowDemo();
        } else {
          Load(outcome);
        }
      }
    }

    /** `refreshData`: reload the current location. */
    method Refresh(outcome: FetchOutcome)
      modifies this
      ensures currentLocation == old(currentLocation) && apiKey == old(apiKey)
      ensures storedKey == old(storedKey) && forecast == old(forecast)
      ensures Shows(Resolve(apiKey, outcome))
      ensures requests == old(requests) + RequestsFor(apiKey)
      ensures Resolve(apiKey, outcome).Live? ==> shownName == old(shownName) && card == old(card)
    {
      if apiKey == "" {
        ShowDemo();
      } else {
        Load(outcome);
      }
    }

    /**
     * `saveApiKey`: the trimmed input becomes both the key in use and the
     * stored key, then the view is reloaded; a missing input field or a
     * blank input changes nothing and sends nothing.
     */
    method SaveApiKey(input: Option<string>, outcome: FetchOutcome)
      modifies this
      ensures (input.None? || Trim(input.value) == "") ==> unchanged(this)
      ensures input.Some? && Trim(input.value) != "" ==>
                && apiKey == Trim(input.value)
                && storedKey == Some(apiKey)
                && currentLocation == old(currentLocation) && forecast == old(forecast)
                && Shows(Resolve(apiKey, outcome))
                && requests == old(requests) + RequestsFor(apiKey)
                && (Resolve(apiKey, outcome).Live? ==> shownName == old(shownName) && card == old(card))
    {
      if input.Some? {
        var key := Trim(input.value);
        if key != "" {
          UseKey(key, outcome);
        }
      }
    }

    /** The effect of saving `key`: it is used and stored, then the view is reloaded. */
    method UseKey(key: string, outcome: FetchOutcome)
      modifies this
      ensures apiKey == key && storedKey == Some(key)
      ensures currentLocation == old(currentLocation) && forecast == old(forecast)
      ensures Shows(Resolve(key, outcome))
      ensures requests == old(requests) + RequestsFor(key)
      ensures Resolve(key, outcome).Live? ==> shownName == old(shownName) && card == old(card)
    {
      apiKey := key;
      storedKey := Some(key);
      Load(outcome);
    }
  }
}
