/**
 * `getWeather(location)`: search the weather service for the trimmed
 * location and describe the first hit's forecast, or apologise when the
 * search finds nothing.
 */
module Weather {
  import opened Js

  /** The fields of the location-detail response that the reply reads. */
  datatype Forecast = Forecast(locationType: string, title: string, weatherStateNames: seq<string>)

  /**
   * The weather service as the bot sees it: the search by query (`None` when
   * the request or its JSON fails) and the location detail by id.
   */
  datatype WeatherService = WeatherService(search: string -> Option<seq<int>>, detail: int -> Option<Forecast>)

  /** The apology's fixed text; written in two pieces, so that the verifier can read its characters. */
  const NotSmartEnough: string := "I'm not smart enough " + "to know weather data for "

  /**
   * The forecast sentence: it starts with "The ", and it ends with the first
   * day's weather state name followed by " today.".
   */
  function Report(f: Forecast): (r: string)
    requires |f.weatherStateNames| > 0
    ensures var name := f.weatherStateNames[0];
      && |r| >= 4 + |name| + 7
      && r[..4] == "The "
      && r[|r| - 7..] == " today."
      && r[|r| - 7 - |name|..|r| - 7] == name
  {
    "The " + f.locationType + " of " + f.title + " is expecting " + f.weatherStateNames[0] + " today."
  }

  /** `getWeather(location)` */
  function WeatherMessage(location: string, service: WeatherService): (r: Promise<string>)
    ensures var hits := service.search(Trim(location));
      && (r.Resolved? <==>
            hits.Some? &&
            (|hits.value| == 0 ||
             (service.detail(hits.value[0]).Some? && |service.detail(hits.value[0]).value.weatherStateNames| > 0)))
      && (r.Resolved? && |hits.value| == 0 ==> r.value == NotSmartEnough + location)
      && (r.Resolved? && |hits.value| > 0 ==> r.value == Report(service.detail(hits.value[0]).value))
  {
    var hits := service.search(Trim(location));
    if hits.None? then Rejected
    else if |hits.value| > 0 then
      var forecast := service.detail(hits.value[0]);
      if forecast.None? || |forecast.value.weatherStateNames| == 0 then Rejected
      else Resolved(Report(forecast.value))
    else Resolved(NotSmartEnough + location)
  }

  /** The two templates never produce the same text: a forecast is never mistaken for the apology. */
  lemma ReportIsNotApology(f: Forecast, location: string)
    requires |f.weatherStateNames| > 0
    ensures Report(f) != NotSmartEnough + location
  {
    assert Report(f)[0] == 'T';
    assert NotSmartEnough[0] == 'I';
    assert (NotSmartEnough + location)[0] == 'I';
  }

  /**
   * The lookup is keyed on the trimmed location: locations with the same
   * trim get the same forecast, and only the apology repeats the untrimmed text.
   */
  lemma SearchUsesTrimmedLocation(a: string, b: string, service: WeatherService)
    requires Trim(a) == Trim(b)
    ensures WeatherMessage(a, service).Resolved? <==> WeatherMessage(b, service).Resolved?
    ensures var hits := service.search(Trim(a));
      hits.Some? && |hits.value| > 0 ==> WeatherMessage(a, service) == WeatherMessage(b, service)
  {
  }
}
