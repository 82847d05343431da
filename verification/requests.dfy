/**
 * The per-city records that flow through one daily run: the configured
 * cities, the request fanned out for each, the request with its fetched
 * payload, and that item once its raw file path is known.
 */
module Requests {
  import opened Wrappers
  import opened Paths

  /** The run's logical date `ds` as the scheduler renders it (YYYY-MM-DD). */
  type Date = string

  /** A latitude or longitude. Carried from the configuration to the table, never computed with. */
  type Coordinate = real

  /** The weather API's response document, kept as it was received. */
  datatype Json =
    | JNull
    | JBool(b: bool)
    | JNumber(n: real)
    | JString(s: string)
    | JArray(elems: seq<Json>)
    | JObject(fields: seq<(string, Json)>)

  /** One entry of the configured city list. */
  datatype City = City(name: string, lat: Coordinate, lon: Coordinate)

  /** `{"city_name", "lat", "lon", "ds"}`: what the fetch of one city needs. */
  datatype Request = Request(cityName: string, lat: Coordinate, lon: Coordinate, ds: Date)

  /** A request merged with its response: `{**req, "payload": payload}`. */
  datatype FetchedItem = FetchedItem(cityName: string, lat: Coordinate, lon: Coordinate, ds: Date, payload: Json)
  {
    /** The request fields of the merged record. */
    function AsRequest(): Request {
      Request(cityName, lat, lon, ds)
    }
  }

  /** A fetched item merged with its file location: `{**item, "raw_path": str(fp)}`. */
  datatype WrittenItem = WrittenItem(cityName: string, lat: Coordinate, lon: Coordinate, ds: Date, payload: Json, rawPath: string)
  {
    /** The fetched item the record was built from. */
    function WithoutRawPath(): FetchedItem {
      FetchedItem(cityName, lat, lon, ds, payload)
    }
  }

  /** `build_requests`: one request per configured city, in list order, all for day `ds`. */
  function BuildRequests(cities: seq<City>, ds: Date): (reqs: seq<Request>)
    ensures |reqs| == |cities|
    ensures forall i :: 0 <= i < |cities| ==>
              && reqs[i].cityName == cities[i].name
              && reqs[i].lat == cities[i].lat
              && reqs[i].lon == cities[i].lon
              && reqs[i].ds == ds
  {
    if cities == [] then []
    else [Request(cities[0].name, cities[0].lat, cities[0].lon, ds)] + BuildRequests(cities[1..], ds)
  }

  /** Fanning out a concatenated city list is the concatenation of the fan-outs. */
  lemma {:induction false} BuildRequestsAppend(a: seq<City>, b: seq<City>, ds: Date)
    ensures BuildRequests(a + b, ds) == BuildRequests(a, ds) + BuildRequests(b, ds)
  {
    if a != [] {
      assert (a + b)[1..] == a[1..] + b;
      BuildRequestsAppend(a[1..], b, ds);
    }
  }

  /** The record `fetch_weather` returns: the request plus the payload the API sent. */
  function FetchWeather(req: Request, payload: Json): (item: FetchedItem)
    ensures item.AsRequest() == req
    ensures item.payload == payload
  {
    FetchedItem(req.cityName, req.lat, req.lon, req.ds, payload)
  }

  /** The `cfg` a `write_raw_file` instance receives: the dict `get_config`
      returns, or, when the task is mapped over that dict, one of its
      `(key, value)` pairs. */
  datatype ConfigArg =
    | ConfigDict(cities: seq<City>, rawBase: string)
    | CitiesPair(pairCities: seq<City>)
    | RawBasePair(pairRawBase: string)

  /** `cfg["raw_base"]` on a `(key, value)` pair raises `TypeError`. */
  datatype WriteError = PairIndexedByKey(cfg: ConfigArg)

  /** `cfg["raw_base"]`. */
  function RawBaseOf(cfg: ConfigArg): Result<string, WriteError> {
    if cfg.ConfigDict? then Success(cfg.rawBase) else Failure(PairIndexedByKey(cfg))
  }

  /** `write_raw_file`: given the config dict, the item plus the text of the
      file path its payload is written to; given a config pair, a failure at
      the `raw_base` lookup, before any filesystem change. */
  function WriteRawFile(item: FetchedItem, cfg: ConfigArg): (r: Result<WrittenItem, WriteError>)
    ensures r.Success? <==> cfg.ConfigDict?
    ensures r.Success? ==> r.value.WithoutRawPath() == item
    ensures r.Success? ==>
              r.value.rawPath == cfg.rawBase + "/" + "load_date=" + item.ds + "/" + "city=" + CitySegment(item.cityName) + ".json"
    ensures r.Failure? ==> r.error == PairIndexedByKey(cfg)
  {
    match RawBaseOf(cfg)
    case Failure(e) => Failure(e)
    case Success(rawBase) =>
      RawFileLocation(rawBase, item.ds, item.cityName);
      Success(WrittenItem(item.cityName, item.lat, item.lon, item.ds, item.payload,
                          Render(RawFilePath(rawBase, item.ds, item.cityName))))
  }
}
