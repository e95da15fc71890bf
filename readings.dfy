/**
 * What the dashboard reads out of a weather-API payload on the live path, and
 * the default values of the selected-zone card.
 */
module Readings {
  import opened Optional
  import opened Registry

  /** A provider field as the API returns it: an object whose `sg` member may be absent. */
  datatype Sourced = Sourced(sg: Option<real>)

  /** One hourly record; every field may be absent. */
  datatype HourRecord = HourRecord(
    airTemperature: Option<Sourced>,
    waterTemperature: Option<Sourced>,
    windSpeed: Option<Sourced>,
    waveHeight: Option<Sourced>,
    pressure: Option<Sourced>,
    visibility: Option<Sourced>)

  /** The parsed JSON body; `hours` may be absent. */
  datatype Payload = Payload(hours: Option<seq<HourRecord>>)

  /** The `{}` the live path falls back to. */
  const EmptyRecord := HourRecord(None, None, None, None, None, None)

  /** The six values the live path writes into the page. */
  datatype LiveReading = LiveReading(
    temp: real, sea: real, wind: real, waves: real, pressure: real, visibility: real)

  /** True when the field holds a number, i.e. `field?.sg` is defined. */
  predicate Holds(f: Option<Sourced>, v: real) {
    f.Some? && f.value.sg == Some(v)
  }

  /** `field?.sg || 0`: the provider's value, with 0 when absent. */
  function ReadField(f: Option<Sourced>): (v: real)
    ensures v != 0.0 ==> Holds(f, v)
    ensures v == 0.0 <==> (forall x :: Holds(f, x) ==> x == 0.0)
  {
    match f
    case Some(Sourced(Some(x))) => assert Holds(f, x); x
    case _ => 0.0
  }

  /** `data.hours?.[0] || {}`: the first hourly record, or an empty record. */
  function FirstRecord(p: Payload): HourRecord {
    if p.hours.Some? && p.hours.value != [] then p.hours.value[0] else EmptyRecord
  }

  /**
   * The reading of the live path: each figure is read from its own field of
   * the first hourly record, and with no record every figure reads 0.
   */
  function ReadCurrent(p: Payload): (r: LiveReading)
    ensures (p.hours.None? || p.hours.value == []) ==> r == LiveReading(0.0, 0.0, 0.0, 0.0, 0.0, 0.0)
    ensures p.hours.Some? && p.hours.value != [] ==>
              var h := p.hours.value[0];
              && r.temp == ReadField(h.airTemperature) && r.sea == ReadField(h.waterTemperature)
              && r.wind == ReadField(h.windSpeed) && r.waves == ReadField(h.waveHeight)
              && r.pressure == ReadField(h.pressure) && r.visibility == ReadField(h.visibility)
  {
    var h := FirstRecord(p);
    LiveReading(
      ReadField(h.airTemperature), ReadField(h.waterTemperature), ReadField(h.windSpeed),
      ReadField(h.waveHeight), ReadField(h.pressure), ReadField(h.visibility))
  }

  /**
   * `v` is what `f?.sg || 0` shows: a nonzero `v` is the value `f` holds,
   * and `v` is 0 exactly when `f` holds no nonzero value.
   */
  ghost predicate ShownFrom(f: Option<Sourced>, v: real) {
    && (v != 0.0 ==> Holds(f, v))
    && (v == 0.0 <==> (forall x :: Holds(f, x) ==> x == 0.0))
  }

  /**
   * Only the first hourly record matters: records after it never change the
   * reading, whatever hour of the day it is, and each figure shows the value
   * of its own field of that record.
   */
  lemma {:induction false} ReadCurrentUsesFirstHourOnly(h: HourRecord, later: seq<HourRecord>)
    ensures ReadCurrent(Payload(Some([h] + later))) == ReadCurrent(Payload(Some([h])))
    ensures var r := ReadCurrent(Payload(Some([h] + later)));
            && ShownFrom(h.airTemperature, r.temp) && ShownFrom(h.waterTemperature, r.sea)
            && ShownFrom(h.windSpeed, r.wind) && ShownFrom(h.waveHeight, r.waves)
            && ShownFrom(h.pressure, r.pressure) && ShownFrom(h.visibility, r.visibility)
  {
  }

  /** The selected-zone card: a zone name and four figures. */
  datatype ZoneCard = ZoneCard(zone: string, temp: real, sea: real, wind: real, waves: real)

  /** `value || fallback` for an optional number: absent or 0 gives the fallback. */
  function OrDefault(v: Option<real>, fallback: real): real
  {
    if v.Some? && v.value != 0.0 then v.value else fallback
  }

  /**
   * `mettreAJourCarte(location, data)` with its defaults 16, 15, 14 and 1.8;
   * `location` is given as the registry id it names, or None.
   */
  function CardFor(location: Option<LocationId>, data: Option<DemoReading>): (c: ZoneCard)
    ensures c.temp != 0.0 && c.sea != 0.0 && c.wind != 0.0 && c.waves != 0.0
    ensures data.None? ==> c.temp == 16.0 && c.sea == 15.0 && c.wind == 14.0 && c.waves == 1.8
    ensures data.Some? ==>
              var d := data.value;
              && c.temp == (if d.temp != 0.0 then d.temp else 16.0)
              && c.sea == (if d.sea != 0.0 then d.sea else 15.0)
              && c.wind == (if d.wind != 0.0 then d.wind else 14.0)
              && c.waves == (if d.waves != 0.0 then d.waves else 1.8)
    ensures location.Some? ==> c.zone == LocationOf(location.value).name
    ensures location.None? ==> c.zone == "Côte Nord"
  {
    var name :=
      if location.Some? && LocationOf(location.value).name != "" then LocationOf(location.value).name
      else "Côte Nord";
    match data
    case None => ZoneCard(name, 16.0, 15.0, 14.0, 1.8)
    case Some(d) =>
      ZoneCard(name,
        OrDefault(Some(d.temp), 16.0), OrDefault(Some(d.sea), 15.0),
        OrDefault(Some(d.wind), 14.0), OrDefault(Some(d.waves), 1.8))
  }

  /**
   * For every registry location the demo card shows the registry name and
   * exactly the demo figures: none of them is 0, so no default takes over.
   */
  lemma {:induction false} DemoCardShowsDemoFigures(id: LocationId)
    ensures var d := DemoFor(Key(id));
            CardFor(Some(id), Some(d)) == ZoneCard(LocationOf(id).name, d.temp, d.sea, d.wind, d.waves)
  {
    DemoForKey(id);
    DemoFiguresNonzero(id);
  }
}
