/**
 * A posted location ("message"): its fields, its two constructors and
 * setters, the conversion of its posting time to epoch milliseconds, and its
 * projection to a JSON object.
 *
 * Every field is a Java reference and may be null, so every field is an
 * Option. A JSON object is a map from key to value; org.json's `put` with a
 * null value leaves the key absent, which decides which keys appear.
 */
module Messages {
  import opened JavaLang

  /** Latitude, longitude and weather are Java `Double`s; only null versus non-null matters here. */
  type Double = real

  datatype JsonValue = JInt(i: int) | JText(s: string) | JNumber(x: Double)

  type JsonObject = map<JsonKey, JsonValue>

  /** `JSONObject.put(key, value)`: stores a non-null value, removes the key for a null one. */
  function Put(json: JsonObject, key: JsonKey, value: Option<JsonValue>): JsonObject
  {
    match value
    case None => json - {key}
    case Some(v) => json[key := v]
  }

  /** The fields of a Message, as one value. */
  datatype MessageData = MessageData(
    id: Option<Int32>,
    locationName: Option<string>,
    locationDescription: Option<string>,
    locationCity: Option<string>,
    locationCountry: Option<string>,
    locationStreetAddress: Option<string>,
    originalPoster: Option<string>,
    originalPostingTime: Option<string>,
    latitude: Option<Double>,
    longitude: Option<Double>,
    weather: Option<Double>,
    timesVisited: Option<Int32>)

  function IntValue(x: Option<Int32>): Option<JsonValue> {
    match x
    case None => None
    case Some(v) => Some(JInt(v))
  }

  function TextValue(x: Option<string>): Option<JsonValue> {
    match x
    case None => None
    case Some(v) => Some(JText(v))
  }

  function NumberValue(x: Option<Double>): Option<JsonValue> {
    match x
    case None => None
    case Some(v) => Some(JNumber(v))
  }

  /** The keys toJSONObject may write; `Name` gives each key's text. */
  datatype JsonKey =
    | LocationID | LocationName | LocationDescription | LocationCity | LocationCountry
    | LocationStreetAddress | OriginalPoster | OriginalPostingTime | TimesVisited
    | Latitude | Longitude | Weather
  {
    function Name(): string {
      match this
      case LocationID => "locationID"
      case LocationName => "locationName"
      case LocationDescription => "locationDescription"
      case LocationCity => "locationCity"
      case LocationCountry => "locationCountry"
      case LocationStreetAddress => "locationStreetAddress"
      case OriginalPoster => "originalPoster"
      case OriginalPostingTime => "originalPostingTime"
      case TimesVisited => "timesVisited"
      case Latitude => "latitude"
      case Longitude => "longitude"
      case Weather => "weather"
    }

    /** The position of the key's put in toJSONObject. */
    function PutOrder(): (n: nat)
      ensures n < 12
    {
      match this
      case LocationID => 0
      case LocationName => 1
      case LocationDescription => 2
      case LocationCity => 3
      case LocationCountry => 4
      case LocationStreetAddress => 5
      case OriginalPoster => 6
      case OriginalPostingTime => 7
      case TimesVisited => 8
      case Latitude => 9
      case Longitude => 10
      case Weather => 11
    }
  }

  /** Distinct keys have distinct texts, so the enumeration stands for the text keys faithfully. */
  lemma KeyNamesDistinct(a: JsonKey, b: JsonKey)
    requires a != b
    ensures a.Name() != b.Name()
  {
  }

  /**
   * What the JSON projection of `d` holds under `key`, None when the key is absent:
   * each key carries its own field; latitude and longitude are written only
   * when latitude is non-null; any other key is absent.
   */
  function JsonField(d: MessageData, key: JsonKey): Option<JsonValue>
  {
    match key
    case LocationID => IntValue(d.id)
    case LocationName => TextValue(d.locationName)
    case LocationDescription => TextValue(d.locationDescription)
    case LocationCity => TextValue(d.locationCity)
    case LocationCountry => TextValue(d.locationCountry)
    case LocationStreetAddress => TextValue(d.locationStreetAddress)
    case OriginalPoster => TextValue(d.originalPoster)
    case OriginalPostingTime => TextValue(d.originalPostingTime)
    case TimesVisited => IntValue(d.timesVisited)
    case Latitude => NumberValue(d.latitude)
    case Longitude => if d.latitude.Some? then NumberValue(d.longitude) else None
    case Weather => NumberValue(d.weather)
  }

  /** The JSON projection of `d`, key by key. */
  function MessageJson(d: MessageData): (json: JsonObject)
    ensures forall k :: k in json <==> JsonField(d, k).Some?
    ensures forall k :: k in json ==> json[k] == JsonField(d, k).value
  {
    map k: JsonKey | JsonField(d, k).Some? :: JsonField(d, k).value
  }

  /**
   * The JSON projection's key set: the nine plain keys are present exactly when
   * their field is non-null, latitude when latitude is, longitude only when
   * both coordinates are, and weather when weather is.
   */
  lemma MessageJsonKeys(d: MessageData)
    ensures (LocationID in MessageJson(d)) == d.id.Some?
    ensures (LocationName in MessageJson(d)) == d.locationName.Some?
    ensures (LocationDescription in MessageJson(d)) == d.locationDescription.Some?
    ensures (LocationCity in MessageJson(d)) == d.locationCity.Some?
    ensures (LocationCountry in MessageJson(d)) == d.locationCountry.Some?
    ensures (LocationStreetAddress in MessageJson(d)) == d.locationStreetAddress.Some?
    ensures (OriginalPoster in MessageJson(d)) == d.originalPoster.Some?
    ensures (OriginalPostingTime in MessageJson(d)) == d.originalPostingTime.Some?
    ensures (TimesVisited in MessageJson(d)) == d.timesVisited.Some?
    ensures (Latitude in MessageJson(d)) == d.latitude.Some?
    ensures (Longitude in MessageJson(d)) == (d.latitude.Some? && d.longitude.Some?)
    ensures (Weather in MessageJson(d)) == d.weather.Some?
  {
  }

  /**
   * A message whose nine plain fields are all non-null projects to an object
   * holding those nine keys, each with its field's value.
   */
  lemma NineKeysPresent(d: MessageData)
    requires d.id.Some? && d.timesVisited.Some?
    requires d.locationName.Some? && d.locationDescription.Some? && d.locationCity.Some?
    requires d.locationCountry.Some? && d.locationStreetAddress.Some?
    requires d.originalPoster.Some? && d.originalPostingTime.Some?
    ensures MessageJson(d)[LocationID] == JInt(d.id.value)
    ensures MessageJson(d)[LocationName] == JText(d.locationName.value)
    ensures MessageJson(d)[LocationDescription] == JText(d.locationDescription.value)
    ensures MessageJson(d)[LocationCity] == JText(d.locationCity.value)
    ensures MessageJson(d)[LocationCountry] == JText(d.locationCountry.value)
    ensures MessageJson(d)[LocationStreetAddress] == JText(d.locationStreetAddress.value)
    ensures MessageJson(d)[OriginalPoster] == JText(d.originalPoster.value)
    ensures MessageJson(d)[OriginalPostingTime] == JText(d.originalPostingTime.value)
    ensures MessageJson(d)[TimesVisited] == JInt(d.timesVisited.value)
  {
    MessageJsonKeys(d);
  }

  /**
   * `getUnixDate`: the posting time's epoch milliseconds when `parse` (the
   * date-time library's parse with pattern yyyy-MM-dd'T'HH:mm:ss.SSSX) accepts
   * it, and 0 when it fails.
   */
  function UnixDate(time: string, parse: string -> Option<int>): (unix: int)
    ensures parse(time).Some? ==> unix == parse(time).value
    ensures parse(time).None? ==> unix == 0
  {
    match parse(time)
    case Some(ms) => ms
    case None => 0
  }

  /** `json` holds the projection of `d` on the first `written` keys in put order, and no other key. */
  ghost predicate AgreesOn(json: JsonObject, d: MessageData, written: nat)
  {
    && (forall k :: k in json ==> k.PutOrder() < written && JsonField(d, k) == Some(json[k]))
    && (forall k: JsonKey :: k.PutOrder() < written && JsonField(d, k).Some? ==> k in json)
  }

  lemma PutAgrees(json: JsonObject, d: MessageData, n: nat, key: JsonKey, value: Option<JsonValue>)
    requires AgreesOn(json, d, n) && key.PutOrder() == n && value == JsonField(d, key)
    ensures AgreesOn(Put(json, key, value), d, n + 1)
  {
  }

  /** The keys in the order toJSONObject puts them. */
  const PutSequence: seq<JsonKey> := [LocationID, LocationName, LocationDescription, LocationCity,
    LocationCountry, LocationStreetAddress, OriginalPoster, OriginalPostingTime, TimesVisited,
    Latitude, Longitude, Weather]

  /**
   * The object after the first `n` puts of toJSONObject, each key written with
   * its JsonField value (a null value leaves the key out).
   */
  function Puts(d: MessageData, n: nat): JsonObject
    requires n <= 12
  {
    if n == 0 then map[]
    else Put(Puts(d, n - 1), PutSequence[n - 1], JsonField(d, PutSequence[n - 1]))
  }

  /** The put of `key` turns the first `n` puts into the first `n + 1`. */
  lemma PutStep(d: MessageData, n: nat, key: JsonKey)
    requires n < 12 && key.PutOrder() == n
    ensures Put(Puts(d, n), key, JsonField(d, key)) == Puts(d, n + 1)
  {
  }

  /** A key whose value is null can be skipped: it is absent already. */
  lemma SkipStep(d: MessageData, n: nat, key: JsonKey)
    requires n < 12 && key.PutOrder() == n && JsonField(d, key).None?
    ensures Puts(d, n + 1) == Puts(d, n)
  {
    assert PutSequence[n] == key;
    PutsAgree(d, n);
  }

  lemma {:induction false} PutsAgree(d: MessageData, n: nat)
    requires n <= 12
    ensures AgreesOn(Puts(d, n), d, n)
  {
    if n > 0 {
      PutsAgree(d, n - 1);
      var k := PutSequence[n - 1];
      assert k.PutOrder() == n - 1;
      PutAgrees(Puts(d, n - 1), d, n - 1, k, JsonField(d, k));
    }
  }

  /** The twelve puts build exactly the key-by-key projection. */
  lemma PutsIsMessageJson(d: MessageData)
    ensures Puts(d, 12) == MessageJson(d)
  {
    PutsAgree(d, 12);
    AgreesOnAllKeys(Puts(d, 12), d);
  }

  /**
   * The puts of toJSONObject as the code issues them: the nine plain keys
   * unconditionally, latitude and longitude when latitude is non-null,
   * weather when weather is non-null.
   */
  function ToJsonPuts(d: MessageData): JsonObject {
    var json := PlainPuts(d);
    var json := if d.latitude.Some? then
      Put(Put(json, Latitude, NumberValue(d.latitude)), Longitude, NumberValue(d.longitude))
    else json;
    if d.weather.Some? then Put(json, Weather, NumberValue(d.weather)) else json
  }

  /** The first nine puts of toJSONObject, which it issues whatever the fields hold. */
  function PlainPuts(d: MessageData): JsonObject {
    var json := Put(map[], LocationID, IntValue(d.id));
    var json := Put(json, LocationName, TextValue(d.locationName));
    var json := Put(json, LocationDescription, TextValue(d.locationDescription));
    var json := Put(json, LocationCity, TextValue(d.locationCity));
    var json := Put(json, LocationCountry, TextValue(d.locationCountry));
    var json := Put(json, LocationStreetAddress, TextValue(d.locationStreetAddress));
    var json := Put(json, OriginalPoster, TextValue(d.originalPoster));
    var json := Put(json, OriginalPostingTime, TextValue(d.originalPostingTime));
    Put(json, TimesVisited, IntValue(d.timesVisited))
  }

  /** Issuing the puts in the code's order builds exactly the key-by-key projection. */
  lemma ToJsonPutsIsMessageJson(d: MessageData)
    ensures ToJsonPuts(d) == MessageJson(d)
  {
    PlainPutsArePuts(d);
    if d.latitude.Some? {
      PutStep(d, 9, Latitude);
      PutStep(d, 10, Longitude);
    } else {
      SkipStep(d, 9, Latitude);
      SkipStep(d, 10, Longitude);
    }
    if d.weather.Some? {
      PutStep(d, 11, Weather);
    } else {
      SkipStep(d, 11, Weather);
    }
    PutsIsMessageJson(d);
  }

  lemma PlainPutsArePuts(d: MessageData)
    ensures PlainPuts(d) == Puts(d, 9)
  {
    PutStep(d, 0, LocationID);
    PutStep(d, 1, LocationName);
    PutStep(d, 2, LocationDescription);
    PutStep(d, 3, LocationCity);
    PutStep(d, 4, LocationCountry);
    PutStep(d, 5, LocationStreetAddress);
    PutStep(d, 6, OriginalPoster);
    PutStep(d, 7, OriginalPostingTime);
    PutStep(d, 8, TimesVisited);
  }

  lemma AgreesOnAllKeys(json: JsonObject, d: MessageData)
    requires AgreesOn(json, d, 12)
    ensures json == MessageJson(d)
  {
  }

  class Message {
    var id: Option<Int32>
    var locationName: Option<string>
    var locationDescription: Option<string>
    var locationCity: Option<string>
    var locationCountry: Option<string>
    var locationStreetAddress: Option<string>
    var originalPoster: Option<string>
    var originalPostingTime: Option<string>
    var latitude: Option<Double>
    var longitude: Option<Double>
    var weather: Option<Double>
    var timesVisited: Option<Int32>

    function Data(): MessageData
      reads this
    {
      MessageData(id, locationName, locationDescription, locationCity, locationCountry,
        locationStreetAddress, originalPoster, originalPostingTime, latitude, longitude,
        weather, timesVisited)
    }

    /** A message posted with a textual time: the time is kept verbatim and the id stays null. */
    constructor (locationName: Option<string>, locationDescription: Option<string>,
                 locationCity: Option<string>, locationCountry: Option<string>,
                 locationStreetAddress: Option<string>, originalPostingTime: Option<string>,
                 originalPoster: Option<string>, latitude: Option<Double>,
                 longitude: Option<Double>, weather: Option<Double>, timesVisited: Option<Int32>)
      ensures Data() == MessageData(None, locationName, locationDescription, locationCity,
        locationCountry, locationStreetAddress, originalPoster, originalPostingTime,
        latitude, longitude, weather, timesVisited)
    {
      this.id := None;
      this.locationName := locationName;
      this.locationDescription := locationDescription;
      this.locationCity := locationCity;
      this.locationCountry := locationCountry;
      this.locationStreetAddress := locationStreetAddress;
      this.originalPostingTime := originalPostingTime;
      this.originalPoster := originalPoster;
      this.latitude := latitude;
      this.longitude := longitude;
      this.weather := weather;
      this.timesVisited := timesVisited;
    }

    /**
     * A message read back with an id and an epoch-millisecond time, which
     * `unixToDate` (the date-time library's formatter, in UTC) turns into text.
     */
    constructor FromUnixTime(id: Option<Int32>, locationName: Option<string>,
                             locationDescription: Option<string>, locationCity: Option<string>,
                             locationCountry: Option<string>, locationStreetAddress: Option<string>,
                             unixTime: int, originalPoster: Option<string>,
                             latitude: Option<Double>, longitude: Option<Double>,
                             weather: Option<Double>, timesVisited: Option<Int32>,
                             unixToDate: int -> string)
      ensures Data() == MessageData(id, locationName, locationDescription, locationCity,
        locationCountry, locationStreetAddress, originalPoster, Some(unixToDate(unixTime)),
        latitude, longitude, weather, timesVisited)
    {
      this.id := id;
      this.locationName := locationName;
      this.locationDescription := locationDescription;
      this.locationCity := locationCity;
      this.locationCountry := locationCountry;
      this.locationStreetAddress := locationStreetAddress;
      this.originalPostingTime := Some(unixToDate(unixTime));
      this.originalPoster := originalPoster;
      this.latitude := latitude;
      this.longitude := longitude;
      this.weather := weather;
      this.timesVisited := timesVisited;
    }

    method SetId(id: Option<Int32>)
      modifies this
      ensures Data() == old(Data()).(id := id)
    {
      this.id := id;
    }

    method SetLocationName(locationName: Option<string>)
      modifies this
      ensures Data() == old(Data()).(locationName := locationName)
    {
      this.locationName := locationName;
    }

    method SetLocationDescription(locationDescription: Option<string>)
      modifies this
      ensures Data() == old(Data()).(locationDescription := locationDescription)
    {
      this.locationDescription := locationDescription;
    }

    method SetLocationCity(locationCity: Option<string>)
      modifies this
      ensures Data() == old(Data()).(locationCity := locationCity)
    {
      this.locationCity := locationCity;
    }

    method SetLocationCountry(locationCountry: Option<string>)
      modifies this
      ensures Data() == old(Data()).(locationCountry := locationCountry)
    {
      this.locationCountry := locationCountry;
    }

    method SetLocationStreetAddress(locationStreetAddress: Option<string>)
      modifies this
      ensures Data() == old(Data()).(locationStreetAddress := locationStreetAddress)
    {
      this.locationStreetAddress := locationStreetAddress;
    }

    method SetOriginalPostingTime(originalPostingTime: Option<string>)
      modifies this
      ensures Data() == old(Data()).(originalPostingTime := originalPostingTime)
    {
      this.originalPostingTime := originalPostingTime;
    }

    method SetOriginalPoster(originalPoster: Option<string>)
      modifies this
      ensures Data() == old(Data()).(originalPoster := originalPoster)
    {
      this.originalPoster := originalPoster;
    }

    method SetLatitude(latitude: Option<Double>)
      modifies this
      ensures Data() == old(Data()).(latitude := latitude)
    {
      this.latitude := latitude;
    }

    method SetLongitude(longitude: Option<Double>)
      modifies this
      ensures Data() == old(Data()).(longitude := longitude)
    {
      this.longitude := longitude;
    }

    method SetWeather(weather: Option<Double>)
      modifies this
      ensures Data() == old(Data()).(weather := weather)
    {
      this.weather := weather;
    }

    method SetTimesVisited(timesVisited: Option<Int32>)
      modifies this
      ensures Data() == old(Data()).(timesVisited := timesVisited)
    {
      this.timesVisited := timesVisited;
    }

    /**
     * `getUnixDate`: never fails on an unparsable time, it yields 0 instead.
     * A null time makes the date-time library throw, so it must be non-null.
     */
    method GetUnixDate(parse: string -> Option<int>) returns (unix: int)
      requires originalPostingTime.Some?
      ensures unix == UnixDate(originalPostingTime.value, parse)
      ensures parse(originalPostingTime.value).None? ==> unix == 0
    {
      unix := 0;
      var parsed := parse(originalPostingTime.value);
      if parsed.Some? {
        unix := parsed.value;
      }
    }

    /** `toJSONObject`: a fresh object filled by successive puts, one per field. */
    method ToJSONObject() returns (json: JsonObject)
      ensures json == MessageJson(Data())
    {
      json := map[];
      json := Put(json, LocationID, IntValue(id));
      json := Put(json, LocationName, TextValue(locationName));
      json := Put(json, LocationDescription, TextValue(locationDescription));
      json := Put(json, LocationCity, TextValue(locationCity));
      json := Put(json, LocationCountry, TextValue(locationCountry));
      json := Put(json, LocationStreetAddress, TextValue(locationStreetAddress));
      json := Put(json, OriginalPoster, TextValue(originalPoster));
      json := Put(json, OriginalPostingTime, TextValue(originalPostingTime));
      json := Put(json, TimesVisited, IntValue(timesVisited));
      if latitude.Some? {
        json := Put(json, Latitude, NumberValue(latitude));
        json := Put(json, Longitude, NumberValue(longitude));
      }
      if weather.Some? {
        json := Put(json, Weather, NumberValue(weather));
      }
      ToJsonPutsIsMessageJson(Data());
    }
  }
}
