/**
 * The display record filled in by `update_info`: eight labelled fields
 * taken from the current-conditions payload. Values are kept as decoded;
 * the one-decimal rendering of the temperatures is a display concern that
 * is not modelled, but its demand that they be numbers is.
 */
module Display {
  import opened Json
  import opened Text

  datatype Info = Info(
    name: Json,          // data['name']
    country: Json,       // data['sys']['country']
    temperature: Json,   // data['main']['temp'], a number
    feelsLike: Json,     // data['main']['feels_like'], a number
    humidity: Json,      // data['main']['humidity']
    pressure: Json,      // data['main']['pressure']
    windSpeed: Json,     // data['wind']['speed']
    weather: Json,       // data['weather'][0]['main'], shown verbatim
    description: string  // data['weather'][0]['description'].title()
  )

  /** `data['weather'][0]`. */
  function FirstWeather(data: Json): Option<Json>
  {
    match Get(data, "weather")
    case None => None
    case Some(w) => First(w)
  }

  function WeatherField(data: Json, key: string): Option<Json>
  {
    match FirstWeather(data)
    case None => None
    case Some(entry) => Get(entry, key)
  }

  /** What `update_info` needs of the payload to run to the end: every field
      it reads is present, both temperatures can be formatted with `:.1f`,
      and the description is a string (only strings have `title`). */
  predicate IsComplete(data: Json)
  {
    && Path(data, ["name"]).Some?
    && Path(data, ["sys", "country"]).Some?
    && Path(data, ["main", "temp"]).Some? && IsNumber(Path(data, ["main", "temp"]).value)
    && Path(data, ["main", "feels_like"]).Some? && IsNumber(Path(data, ["main", "feels_like"]).value)
    && Path(data, ["main", "humidity"]).Some?
    && Path(data, ["main", "pressure"]).Some?
    && Path(data, ["wind", "speed"]).Some?
    && WeatherField(data, "main").Some?
    && WeatherField(data, "description").Some? && WeatherField(data, "description").value.Str?
  }

  /** `update_info`: the record is built exactly when the payload is
      complete, every field is copied unchanged from its place in the
      payload (no rounding), and the description is title-cased. */
  function Normalize(data: Json): (r: Option<Info>)
    ensures r.Some? <==> IsComplete(data)
    ensures r.Some? ==>
      && r.value.name == Path(data, ["name"]).value
      && r.value.country == Path(data, ["sys", "country"]).value
      && r.value.temperature == Path(data, ["main", "temp"]).value
      && r.value.feelsLike == Path(data, ["main", "feels_like"]).value
      && r.value.humidity == Path(data, ["main", "humidity"]).value
      && r.value.pressure == Path(data, ["main", "pressure"]).value
      && r.value.windSpeed == Path(data, ["wind", "speed"]).value
      && r.value.weather == WeatherField(data, "main").value
      && r.value.description == Title(WeatherField(data, "description").value.s)
  {
    match Get(data, "name")
    case None => None
    case Some(name) =>
      match Get(data, "sys")
      case None => None
      case Some(sys) =>
        match Get(sys, "country")
        case None => None
        case Some(country) =>
          match Get(data, "main")
          case None => None
          case Some(main) =>
            match (Get(main, "temp"), Get(main, "feels_like"), Get(main, "humidity"), Get(main, "pressure"))
            case (Some(temp), Some(feels), Some(humidity), Some(pressure)) =>
              if !IsNumber(temp) || !IsNumber(feels) then None
              else (
                match Get(data, "wind")
                case None => None
                case Some(wind) =>
                  match Get(wind, "speed")
                  case None => None
                  case Some(speed) =>
                    match FirstWeather(data)
                    case None => None
                    case Some(entry) =>
                      (match (Get(entry, "main"), Get(entry, "description"))
                       case (Some(category), Some(Str(text))) =>
                         Some(Info(name, country, temp, feels, humidity, pressure, speed,
                                      category, Title(text)))
                       case _ => None))
            case _ => None
  }

  /** Python's `str()` of a decoded value where it is exact here: strings,
      ints, booleans and None. Floats, lists and dicts are rendered by
      Python's repr, which the model does not spell out. */
  function PyText(j: Json): Option<string>
  {
    match j
    case Str(s) => Some(s)
    case Int(i) => Some(IntToString(i))
    case Bool(b) => Some(if b then "True" else "False")
    case Null => Some("None")
    case _ => None
  }

  /** The "City" label, `f"{name}, {country}"`: the name's text, a comma
      and a space, then the country's text, each of which can be cut back
      out of it. */
  function CityLabel(d: Info): (r: Option<string>)
    ensures r.Some? <==> PyText(d.name).Some? && PyText(d.country).Some?
    ensures r.Some? ==>
      var n, c := PyText(d.name).value, PyText(d.country).value;
      && |r.value| == |n| + 2 + |c|
      && r.value[..|n|] == n && r.value[|n|..|n| + 2] == ", " && r.value[|n| + 2..] == c
  {
    match (PyText(d.name), PyText(d.country))
    case (Some(n), Some(c)) => Some(n + ", " + c)
    case _ => None
  }

  /** For string fields the label is the name, a comma and a space, and the
      country code, and the name can be read back from it. */
  lemma CityLabelOfStrings(d: Info)
    requires d.name.Str? && d.country.Str?
    ensures CityLabel(d) == Some(d.name.s + ", " + d.country.s)
    ensures |CityLabel(d).value| == |d.name.s| + 2 + |d.country.s|
    ensures CityLabel(d).value[..|d.name.s|] == d.name.s
  {
  }

  /** The description shown is the payload's description in title case:
      same length, same letters up to case, each word capitalised. */
  lemma DescriptionIsTitled(data: Json, i: nat)
    requires Normalize(data).Some?
    requires i < |WeatherField(data, "description").value.s|
    ensures var raw := WeatherField(data, "description").value.s;
      var shown := Normalize(data).value.description;
      |shown| == |raw|
      && ToLower(shown[i]) == ToLower(raw[i])
      && shown[i] == if StartsWord(raw, i) then ToUpper(raw[i]) else ToLower(raw[i])
  {
    var raw := WeatherField(data, "description").value.s;
    TitleAt(raw, i);
    TitleSameLetters(raw, i);
  }
}
