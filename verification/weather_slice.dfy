/**
 * The weather slice: one entry per tracked city (data, loading flag, error) and a
 * list of weather alerts. Fetch phases are keyed by the city name; a city the slice
 * does not track is ignored, so the set of cities never changes.
 */
module WeatherSlice {
  import opened Wrappers

  /** The fields of a current-weather response the dashboard reads. */
  datatype WeatherData = WeatherData(temp: real, humidity: real, windSpeed: real, description: string)

  datatype CityWeather = CityWeather(data: Option<WeatherData>, loading: bool, error: Option<string>)

  /** The payload of `addWeatherAlert`; no caller fixes its shape, so it is kept opaque. */
  datatype WeatherAlert = WeatherAlert(city: string, message: string)

  function TrackedCities(): set<string> {
    {"New York", "London", "Tokyo"}
  }

  const EmptyCity: CityWeather := CityWeather(None, false, None)

  class WeatherStore {
    var cities: map<string, CityWeather>
    var alerts: seq<WeatherAlert>

    /** The tracked cities are fixed at creation. */
    ghost predicate Valid()
      reads this
    {
      cities.Keys == TrackedCities()
    }

    constructor()
      ensures Valid()
      ensures forall c :: c in cities ==> cities[c] == EmptyCity
      ensures alerts == []
    {
      cities := map["New York" := EmptyCity, "London" := EmptyCity, "Tokyo" := EmptyCity];
      alerts := [];
    }

    /** `addWeatherAlert`: append at the end. */
    method AddWeatherAlert(alert: WeatherAlert)
      requires Valid()
      modifies this
      ensures Valid()
      ensures alerts == old(alerts) + [alert] && cities == old(cities)
    {
      alerts := alerts + [alert];
    }

    /** `clearWeatherAlerts`. */
    method ClearWeatherAlerts()
      requires Valid()
      modifies this
      ensures Valid()
      ensures alerts == [] && cities == old(cities)
    {
      alerts := [];
    }

    /** `fetchWeatherData.pending`: start loading and clear the error, keeping the data. */
    method FetchPending(city: string)
      requires Valid()
      modifies this
      ensures Valid() && alerts == old(alerts)
      ensures city !in old(cities) ==> cities == old(cities)
      ensures city in old(cities) ==>
        cities == old(cities)[city := CityWeather(old(cities)[city].data, true, None)]
    {
      if city in cities {
        var entry := cities[city];
        cities := cities[city := entry.(loading := true, error := None)];
      }
    }

    /** `fetchWeatherData.fulfilled`: store the data, stop loading, clear the error. */
    method FetchFulfilled(city: string, data: WeatherData)
      requires Valid()
      modifies this
      ensures Valid() && alerts == old(alerts)
      ensures city !in old(cities) ==> cities == old(cities)
      ensures city in old(cities) ==> cities == old(cities)[city := CityWeather(Some(data), false, None)]
    {
      if city in cities {
        var entry := cities[city];
        cities := cities[city := entry.(loading := false, data := Some(data), error := None)];
      }
    }

    /** `fetchWeatherData.rejected`: stop loading and record the error, keeping the stale data. */
    method FetchRejected(city: string, message: string)
      requires Valid()
      modifies this
      ensures Valid() && alerts == old(alerts)
      ensures city !in old(cities) ==> cities == old(cities)
      ensures city in old(cities) ==>
        cities == old(cities)[city := CityWeather(old(cities)[city].data, false, Some(message))]
    {
      if city in cities {
        var entry := cities[city];
        cities := cities[city := entry.(loading := false, error := Some(message))];
      }
    }
  }
}
