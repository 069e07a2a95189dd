/** The three request handlers and `lambda_handler`'s dispatch. Each handler
    turns its request into one call of the atmospheric model (the options
    vector given to `init_msis` plus the arguments of `run_msis`) and shapes
    the model's output into the response. The model, the JSON decoder, the
    date parser and `float` are collaborators passed in as functions. */
module Handlers {
  import opened Outcomes
  import opened JsonValues
  import Validation
  import ModelOptions
  import Grids
  import Routing
  import Species

  /** A date parsed with the format `%Y-%m-%dT%H:%M`. */
  datatype Date = Date(year: int, month: int, day: int, hour: int, minute: int)

  /** The model's output, indexed [date][lon][lat][alt][column]. */
  type Output = seq<seq<seq<seq<seq<real>>>>>

  /** One use of the model: `init_msis(options)` followed by
      `run_msis(dates, lons, lats, alts, f107s, f107as, aps)`. */
  datatype ModelCall = ModelCall(
    options: Value, dates: seq<Date>, lons: Value, lats: Value, alts: Value,
    f107s: Value, f107as: Value, aps: Value)

  /** The collaborators: `json.loads`, `datetime.strptime` with the fixed
      format, `float` on a string, and the model (`init_msis` then
      `run_msis`); each is `None` where it raises. */
  datatype Externals = Externals(
    decodeJson: string -> Option<Value>,
    parseDate: string -> Option<Date>,
    parseFloat: string -> Option<real>,
    run: ModelCall -> Option<Output>)

  /** The fields of the gateway event the handlers read. `body` is `None`
      when the request has no body, `query` when it has no query string. */
  datatype ApiEvent = ApiEvent(path: string, body: Option<string>, query: Option<map<string, string>>)

  /** The response body: the model output serialised as a nested list, or
      the altitude endpoint's dictionary of records. */
  datatype Body = Serialized(output: Output) | Profile(features: Species.Dict<int, Species.Record>)

  datatype Response = Response(statusCode: int, body: Body, headers: seq<(string, string)>)

  /** Every response allows any origin. */
  const CorsHeaders: seq<(string, string)> := [("Access-Control-Allow-Origin", "*")]

  /** Number of grid points of a call: dates x lons x lats x alts. */
  function CallPoints(c: ModelCall): Option<int> {
    match (Len(c.lons), Len(c.lats), Len(c.alts))
    case (Some(a), Some(b), Some(d)) => Some(|c.dates| * a * b * d)
    case _ => None
  }

  /** The output has the shape `run_msis` promises for a grid of the given
      dimensions, with eleven columns per point. */
  ghost predicate HasShape(out: Output, nd: nat, nlon: nat, nlat: nat, nalt: nat) {
    && |out| == nd
    && (forall a :: 0 <= a < nd ==> |out[a]| == nlon)
    && (forall a, b :: 0 <= a < nd && 0 <= b < nlon ==> |out[a][b]| == nlat)
    && (forall a, b, c :: 0 <= a < nd && 0 <= b < nlon && 0 <= c < nlat ==> |out[a][b][c]| == nalt)
    && (forall a, b, c, e :: 0 <= a < nd && 0 <= b < nlon && 0 <= c < nlat && 0 <= e < nalt ==>
          |out[a][b][c][e]| == Species.ColumnCount)
  }

  // ----- bulk endpoint -----

  /** `[datetime.strptime(x, ...) for x in dates]` over the items of a list:
      the first item that is not a string raises `TypeError`, the first string
      the parser rejects is reported, and otherwise every item is parsed in
      order. */
  function ParseDates(items: seq<Value>, parse: string -> Option<Date>): (r: Result<seq<Date>>)
    ensures r.Ok? <==> forall i :: 0 <= i < |items| ==> items[i].Str? && parse(items[i].s).Some?
    ensures r.Ok? ==> |r.value| == |items|
    ensures r.Ok? ==> forall i :: 0 <= i < |items| ==> Some(r.value[i]) == parse(items[i].s)
    ensures forall i :: (0 <= i < |items| && items[i].Str? && parse(items[i].s).None?
                         && forall j :: 0 <= j < i ==> items[j].Str? && parse(items[j].s).Some?) ==>
              r == Err(BadDate(items[i].s))
    ensures forall i :: (0 <= i < |items| && !items[i].Str?
                         && forall j :: 0 <= j < i ==> items[j].Str? && parse(items[j].s).Some?) ==>
              r.Err? && r.error.TypeError?
  {
    if items == [] then Ok([])
    else if !items[0].Str? then Err(TypeError("strptime() argument 1 must be str"))
    else
      match parse(items[0].s)
      case None => Err(BadDate(items[0].s))
      case Some(d) =>
        var rest := ParseDates(items[1..], parse);
        assert forall i :: 1 <= i < |items| ==> items[i] == items[1..][i - 1];
        if rest.Err? then Err(rest.error) else Ok([d] + rest.value)
  }

  /** The body's `options`, if present. */
  function BodyOptions(data: Validation.Event): Option<Value> {
    if "options" in data then Some(data["options"]) else None
  }

  /** The call carries the body's grid and per-date fields unchanged. */
  predicate CarriesBody(c: ModelCall, data: Validation.Event) {
    && "lons" in data && "lats" in data && "alts" in data
    && "f107s" in data && "f107as" in data && "aps" in data
    && c.lons == data["lons"] && c.lats == data["lats"] && c.alts == data["alts"]
    && c.f107s == data["f107s"] && c.f107as == data["f107as"] && c.aps == data["aps"]
  }

  /** `[datetime.strptime(x, ...) for x in data['dates']]`. */
  function BodyDates(data: Validation.Event, ext: Externals): Result<seq<Date>> {
    if "dates" !in data then Err(KeyError("dates"))
    else
      match Elements(data["dates"])
      case None => Err(Unsupported("dates given as a JSON object"))
      case Some(items) => ParseDates(items, ext.parseDate)
  }

  /** The bulk endpoint after validation: parse the dates, then check the
      options vector. The call holds the parsed dates in order, the body's
      options (or the default), and the body's other fields unchanged. */
  function AcceptedCall(data: Validation.Event, ext: Externals): (r: Result<ModelCall>)
    requires Validation.Acceptable(data)
    ensures r.Ok? <==> BodyDates(data, ext).Ok? && ModelOptions.BulkOptions(BodyOptions(data)).Ok?
    ensures BodyDates(data, ext).Err? ==> r == Err(BodyDates(data, ext).error)
    ensures BodyDates(data, ext).Ok? && ModelOptions.BulkOptions(BodyOptions(data)).Err? ==>
              r == Err(ModelOptions.BulkOptions(BodyOptions(data)).error)
    ensures r.Ok? ==> BodyDates(data, ext) == Ok(r.value.dates)
    ensures r.Ok? ==> ModelOptions.BulkOptions(BodyOptions(data)) == Ok(r.value.options)
    ensures r.Ok? ==> CarriesBody(r.value, data)
    ensures r.Ok? ==> Len(r.value.options) == Some(ModelOptions.OptionCount)
    ensures r.Ok? ==> Len(data["dates"]) == Some(|r.value.dates|)
    ensures r.Ok? ==> CallPoints(r.value).Some? && CallPoints(r.value).value <= Validation.MaxSize
  {
    Validation.AcceptedFields(data);
    assert "dates" in Validation.RequiredFields && "lons" in Validation.RequiredFields
        && "lats" in Validation.RequiredFields && "alts" in Validation.RequiredFields
        && "f107s" in Validation.RequiredFields && "f107as" in Validation.RequiredFields
        && "aps" in Validation.RequiredFields;
    var dates :- BodyDates(data, ext);
    var options :- ModelOptions.BulkOptions(BodyOptions(data));
    Ok(ModelCall(options, dates, data["lons"], data["lats"], data["alts"],
                 data["f107s"], data["f107as"], data["aps"]))
  }

  /** The bulk endpoint after decoding: validate the body, then build the
      model call. A model call is made only for an acceptable body. */
  function BulkCall(data: Validation.Event, ext: Externals): (r: Result<ModelCall>)
    ensures Validation.Validate(data).Fail? ==> r == Err(Validation.Validate(data).error)
    ensures Validation.Validate(data).Pass? ==> r == AcceptedCall(data, ext)
    ensures r.Ok? ==> Validation.Acceptable(data) && CarriesBody(r.value, data)
    ensures r.Ok? ==> ModelOptions.BulkOptions(BodyOptions(data)) == Ok(r.value.options)
    ensures r.Ok? ==> BodyDates(data, ext) == Ok(r.value.dates)
  {
    match Validation.Validate(data)
    case Fail(e) => Err(e)
    case Pass => AcceptedCall(data, ext)
  }

  /** The bulk endpoint up to the model call: `json.loads` on the body, whose
      result must be a JSON object. */
  function BulkRequest(body: Option<string>, ext: Externals): (r: Result<ModelCall>)
    ensures body.None? ==> r.Err? && r.error.TypeError?
    ensures body.Some? && ext.decodeJson(body.value).None? ==> r == Err(BadJson(body.value))
    ensures body.Some? && ext.decodeJson(body.value).Some? && !ext.decodeJson(body.value).value.Obj? ==> r.Err?
    ensures body.Some? && ext.decodeJson(body.value).Some? && ext.decodeJson(body.value).value.Obj? ==>
              r == BulkCall(ext.decodeJson(body.value).value.fields, ext)
  {
    var text :- Need(body, TypeError("the JSON object must be str, bytes or bytearray, not NoneType"));
    var decoded :- Need(ext.decodeJson(text), BadJson(text));
    if !decoded.Obj? then Err(Unsupported("request body that is not a JSON object"))
    else BulkCall(decoded.fields, ext)
  }

  /** Validation comes first: a body that fails validation is reported with
      the validation error even if its options vector is also wrong; one that
      passes validation and has good dates but a wrong-length vector is
      refused for the vector, before the model is touched. */
  lemma BulkOptionsCheckedAfterValidation(data: Validation.Event, ext: Externals)
    requires Validation.Acceptable(data) && "dates" in data && data["dates"].Arr?
    requires ParseDates(data["dates"].items, ext.parseDate).Ok?
    requires "options" in data && Len(data["options"]).Some?
    requires Len(data["options"]).value != ModelOptions.OptionCount
    ensures BulkCall(data, ext) == Err(ValueError(ModelOptions.LengthMessage))
    ensures AcceptedCall(data, ext) == Err(ValueError(ModelOptions.LengthMessage))
  {
  }

  /** The bulk body decodes to an object that passes validation and yields a
      model call. */
  predicate BulkAccepts(body: Option<string>, ext: Externals) {
    && body.Some? && ext.decodeJson(body.value).Some? && ext.decodeJson(body.value).value.Obj?
    && Validation.Acceptable(ext.decodeJson(body.value).value.fields)
    && AcceptedCall(ext.decodeJson(body.value).value.fields, ext).Ok?
  }

  /** The call the bulk endpoint makes for an accepted body. */
  function BulkCallFor(body: Option<string>, ext: Externals): ModelCall
    requires BulkAccepts(body, ext)
  {
    AcceptedCall(ext.decodeJson(body.value).value.fields, ext).value
  }

  /** The bulk handler: the response is the model's output for the call built
      from the decoded body (its dates parsed, its options, its grid and
      per-date fields), with status 200 and the CORS header; it fails when
      the body is refused or the model raises. */
  function BulkHandler(event: ApiEvent, ext: Externals): (r: Result<Response>)
    ensures r.Ok? <==> BulkAccepts(event.body, ext) && ext.run(BulkCallFor(event.body, ext)).Some?
    ensures BulkRequest(event.body, ext).Err? ==> r == Err(BulkRequest(event.body, ext).error)
    ensures r.Ok? ==> r.value == Response(200, Serialized(ext.run(BulkCallFor(event.body, ext)).value), CorsHeaders)
    ensures BulkAccepts(event.body, ext) && ext.run(BulkCallFor(event.body, ext)).None? ==> r == Err(ModelFailure)
  {
    var call :- BulkRequest(event.body, ext);
    var output :- Need(ext.run(call), ModelFailure);
    Ok(Response(200, Serialized(output), CorsHeaders))
  }

  // ----- query-string parameters -----

  /** `event['queryStringParameters']`: subscripting a missing query string
      raises `TypeError`. */
  function QueryParams(query: Option<map<string, string>>): (r: Result<map<string, string>>)
    ensures r.Ok? <==> query.Some?
    ensures query.None? ==> r.Err? && r.error.TypeError?
    ensures r.Ok? ==> r.value == query.value
  {
    Need(query, TypeError("'NoneType' object is not subscriptable"))
  }

  /** `datetime.strptime(params[key], ...)`. */
  function DateParam(params: map<string, string>, key: string, ext: Externals): (r: Result<Date>)
    ensures key !in params ==> r == Err(KeyError(key))
    ensures key in params ==> (r.Ok? <==> ext.parseDate(params[key]).Some?)
    ensures r.Ok? ==> key in params && ext.parseDate(params[key]) == Some(r.value)
    ensures key in params && r.Err? ==> r.error == BadDate(params[key])
  {
    var text :- Need(if key in params then Some(params[key]) else None, KeyError(key));
    Need(ext.parseDate(text), BadDate(text))
  }

  /** `float(params[key])`. */
  function FloatParam(params: map<string, string>, key: string, ext: Externals): (r: Result<real>)
    ensures key !in params ==> r == Err(KeyError(key))
    ensures key in params ==> (r.Ok? <==> ext.parseFloat(params[key]).Some?)
    ensures r.Ok? ==> key in params && ext.parseFloat(params[key]) == Some(r.value)
    ensures key in params && r.Err? ==> r.error == BadFloat(params[key])
  {
    var text :- Need(if key in params then Some(params[key]) else None, KeyError(key));
    Need(ext.parseFloat(text), BadFloat(text))
  }

  /** The date parameter is present and parses. */
  predicate DateGiven(params: map<string, string>, ext: Externals) {
    "date" in params && ext.parseDate(params["date"]).Some?
  }

  function DateValue(params: map<string, string>, ext: Externals): Date
    requires DateGiven(params, ext)
  {
    ext.parseDate(params["date"]).value
  }

  /** The parameter is present and `float` accepts it. */
  predicate FloatGiven(params: map<string, string>, key: string, ext: Externals) {
    key in params && ext.parseFloat(params[key]).Some?
  }

  function FloatValue(params: map<string, string>, key: string, ext: Externals): real
    requires FloatGiven(params, key, ext)
  {
    ext.parseFloat(params[key]).value
  }

  /** `params.get('options', ...)`: query values are strings. */
  function QueryOptionsParam(params: map<string, string>): Option<Value> {
    if "options" in params then Some(Str(params["options"])) else None
  }

  /** The options vector a query asks for, decoded and length-checked. */
  function QueryOptionsOf(params: map<string, string>, ext: Externals): Result<Value> {
    ModelOptions.QueryOptions(QueryOptionsParam(params), ext.decodeJson)
  }

  // ----- surface endpoint -----

  /** The surface endpoint's model call: the options, one date, the 72
      longitude and 36 latitude tile centres in that argument order, one
      altitude, and one value each of f107, f107a and ap. */
  function SurfaceCall(options: Value, date: Date, altitude: real, f107: real, f107a: real, ap: real): (c: ModelCall)
    ensures c.options == options && c.dates == [date] && c.alts == Numbers([altitude])
    ensures c.f107s == Numbers([f107]) && c.f107as == Numbers([f107a]) && c.aps == Numbers([ap])
    ensures c.lons == Numbers(Grids.SurfaceLongitudes()) && c.lats == Numbers(Grids.SurfaceLatitudes())
    ensures c.lons.Arr? && |c.lons.items| == 72 && c.lats.Arr? && |c.lats.items| == 36
    ensures forall i :: 0 <= i < 72 ==> c.lons.items[i] == Num(-177.5 + 5.0 * i as real)
    ensures forall i :: 0 <= i < 36 ==> c.lats.items[i] == Num(-87.5 + 5.0 * i as real)
    ensures CallPoints(c) == Some(2592)
  {
    ModelCall(options, [date], Numbers(Grids.SurfaceLongitudes()), Numbers(Grids.SurfaceLatitudes()),
              Numbers([altitude]), Numbers([f107]), Numbers([f107a]), Numbers([ap]))
  }

  /** Every parameter the surface endpoint reads parses, and its options
      vector is accepted. */
  predicate SurfaceAccepts(query: Option<map<string, string>>, ext: Externals) {
    && query.Some? && DateGiven(query.value, ext)
    && FloatGiven(query.value, "altitude", ext) && FloatGiven(query.value, "f107", ext)
    && FloatGiven(query.value, "f107a", ext) && FloatGiven(query.value, "ap", ext)
    && QueryOptionsOf(query.value, ext).Ok?
  }

  /** The call the surface endpoint makes for an accepted query, read
      straight from its parameters. */
  function SurfaceCallFor(query: Option<map<string, string>>, ext: Externals): ModelCall
    requires SurfaceAccepts(query, ext)
  {
    var p := query.value;
    SurfaceCall(QueryOptionsOf(p, ext).value, DateValue(p, ext), FloatValue(p, "altitude", ext),
                FloatValue(p, "f107", ext), FloatValue(p, "f107a", ext), FloatValue(p, "ap", ext))
  }

  /** The surface endpoint up to the model call: the parameters are read in
      the order date, altitude, f107, f107a, ap, then the options. */
  function SurfaceRequest(query: Option<map<string, string>>, ext: Externals): (r: Result<ModelCall>)
    ensures query.None? ==> r.Err? && r.error.TypeError?
    ensures query.Some? && "date" !in query.value ==> r == Err(KeyError("date"))
    ensures query.Some? && !DateGiven(query.value, ext) ==> r == Err(DateParam(query.value, "date", ext).error)
    ensures (query.Some? && DateGiven(query.value, ext) && !FloatGiven(query.value, "altitude", ext)) ==>
              r == Err(FloatParam(query.value, "altitude", ext).error)
    ensures (query.Some? && DateGiven(query.value, ext) && FloatGiven(query.value, "altitude", ext)
             && !FloatGiven(query.value, "f107", ext)) ==>
              r == Err(FloatParam(query.value, "f107", ext).error)
    ensures (query.Some? && DateGiven(query.value, ext) && FloatGiven(query.value, "altitude", ext)
             && FloatGiven(query.value, "f107", ext) && !FloatGiven(query.value, "f107a", ext)) ==>
              r == Err(FloatParam(query.value, "f107a", ext).error)
    ensures (query.Some? && DateGiven(query.value, ext) && FloatGiven(query.value, "altitude", ext)
             && FloatGiven(query.value, "f107", ext) && FloatGiven(query.value, "f107a", ext)
             && !FloatGiven(query.value, "ap", ext)) ==>
              r == Err(FloatParam(query.value, "ap", ext).error)
    ensures r.Ok? <==> SurfaceAccepts(query, ext)
    ensures r.Ok? ==> r.value == SurfaceCallFor(query, ext)
    ensures (query.Some? && DateGiven(query.value, ext)
             && FloatGiven(query.value, "altitude", ext) && FloatGiven(query.value, "f107", ext)
             && FloatGiven(query.value, "f107a", ext) && FloatGiven(query.value, "ap", ext)
             && QueryOptionsOf(query.value, ext).Err?) ==>
              r == Err(QueryOptionsOf(query.value, ext).error)
  {
    var params :- QueryParams(query);
    var date :- DateParam(params, "date", ext);
    var altitude :- FloatParam(params, "altitude", ext);
    var f107 :- FloatParam(params, "f107", ext);
    var f107a :- FloatParam(params, "f107a", ext);
    var ap :- FloatParam(params, "ap", ext);
    var options :- ModelOptions.QueryOptions(QueryOptionsParam(params), ext.decodeJson);
    Ok(SurfaceCall(options, date, altitude, f107, f107a, ap))
  }

  /** Parameters that all parse, with an options string decoding to the wrong
      length, are refused for the options before the model is touched. */
  lemma SurfaceOptionsCheckedLast(params: map<string, string>, ext: Externals, v: Value)
    requires DateGiven(params, ext) && FloatGiven(params, "altitude", ext) && FloatGiven(params, "f107", ext)
             && FloatGiven(params, "f107a", ext) && FloatGiven(params, "ap", ext)
    requires "options" in params && ext.decodeJson(params["options"]) == Some(v)
    requires Len(v).Some? && Len(v).value != ModelOptions.OptionCount
    ensures SurfaceRequest(Some(params), ext) == Err(ValueError(ModelOptions.LengthMessage))
  {
  }

  /** `surface_handler`: the response is the model's output for the surface
      grid with the query's date, altitude, indices and options, with status
      200 and the CORS header; it fails when the query is refused or the
      model raises. */
  function SurfaceHandler(event: ApiEvent, ext: Externals): (r: Result<Response>)
    ensures r.Ok? <==> SurfaceAccepts(event.query, ext) && ext.run(SurfaceCallFor(event.query, ext)).Some?
    ensures SurfaceRequest(event.query, ext).Err? ==> r == Err(SurfaceRequest(event.query, ext).error)
    ensures r.Ok? ==> r.value == Response(200, Serialized(ext.run(SurfaceCallFor(event.query, ext)).value), CorsHeaders)
    ensures SurfaceAccepts(event.query, ext) && ext.run(SurfaceCallFor(event.query, ext)).None? ==> r == Err(ModelFailure)
  {
    var call :- SurfaceRequest(event.query, ext);
    var output :- Need(ext.run(call), ModelFailure);
    Ok(Response(200, Serialized(output), CorsHeaders))
  }

  // ----- altitude endpoint -----

  /** The altitude endpoint's model call: the options, one date, one
      position, the 181 profile altitudes, and one value each of f107, f107a
      and ap. */
  function AltitudeCall(options: Value, date: Date, longitude: real, latitude: real,
                        f107: real, f107a: real, ap: real): (c: ModelCall)
    ensures c.options == options && c.dates == [date]
    ensures c.lons == Numbers([longitude]) && c.lats == Numbers([latitude])
    ensures c.f107s == Numbers([f107]) && c.f107as == Numbers([f107a]) && c.aps == Numbers([ap])
    ensures c.alts.Arr? && |c.alts.items| == 181
    ensures forall i :: 0 <= i < 181 ==> c.alts.items[i] == Num((100 + 5 * i) as real)
    ensures CallPoints(c) == Some(181)
  {
    var alts := Grids.AltitudeProfile();
    ModelCall(options, [date], Numbers([longitude]), Numbers([latitude]),
              Numbers(seq(|alts|, i requires 0 <= i < |alts| => alts[i] as real)),
              Numbers([f107]), Numbers([f107a]), Numbers([ap]))
  }

  /** Every parameter the altitude endpoint reads parses, and its options
      vector is accepted. */
  predicate AltitudeAccepts(query: Option<map<string, string>>, ext: Externals) {
    && query.Some? && DateGiven(query.value, ext)
    && FloatGiven(query.value, "longitude", ext) && FloatGiven(query.value, "f107", ext)
    && FloatGiven(query.value, "f107a", ext) && FloatGiven(query.value, "ap", ext)
    && QueryOptionsOf(query.value, ext).Ok?
  }

  /** The call the altitude endpoint makes for an accepted query, read
      straight from its parameters; as written, the latitude is the value of
      the `longitude` parameter. */
  function AltitudeCallFor(query: Option<map<string, string>>, ext: Externals): ModelCall
    requires AltitudeAccepts(query, ext)
  {
    var p := query.value;
    AltitudeCall(QueryOptionsOf(p, ext).value, DateValue(p, ext), FloatValue(p, "longitude", ext),
                 FloatValue(p, "longitude", ext), FloatValue(p, "f107", ext), FloatValue(p, "f107a", ext),
                 FloatValue(p, "ap", ext))
  }

  /** The altitude endpoint up to the model call (the later of the two
      definitions of `altitude_handler`). As written, the latitude is read
      from the `longitude` parameter. */
  function AltitudeRequest(query: Option<map<string, string>>, ext: Externals): (r: Result<ModelCall>)
    ensures query.None? ==> r.Err? && r.error.TypeError?
    ensures query.Some? && "date" !in query.value ==> r == Err(KeyError("date"))
    ensures query.Some? && !DateGiven(query.value, ext) ==> r == Err(DateParam(query.value, "date", ext).error)
    ensures (query.Some? && DateGiven(query.value, ext) && !FloatGiven(query.value, "longitude", ext)) ==>
              r == Err(FloatParam(query.value, "longitude", ext).error)
    ensures (query.Some? && DateGiven(query.value, ext) && FloatGiven(query.value, "longitude", ext)
             && !FloatGiven(query.value, "f107", ext)) ==>
              r == Err(FloatParam(query.value, "f107", ext).error)
    ensures (query.Some? && DateGiven(query.value, ext) && FloatGiven(query.value, "longitude", ext)
             && FloatGiven(query.value, "f107", ext) && !FloatGiven(query.value, "f107a", ext)) ==>
              r == Err(FloatParam(query.value, "f107a", ext).error)
    ensures (query.Some? && DateGiven(query.value, ext) && FloatGiven(query.value, "longitude", ext)
             && FloatGiven(query.value, "f107", ext) && FloatGiven(query.value, "f107a", ext)
             && !FloatGiven(query.value, "ap", ext)) ==>
              r == Err(FloatParam(query.value, "ap", ext).error)
    ensures r.Ok? <==> AltitudeAccepts(query, ext)
    ensures r.Ok? ==> r.value == AltitudeCallFor(query, ext)
    ensures r.Ok? ==> r.value.lats == r.value.lons
    ensures (query.Some? && DateGiven(query.value, ext)
             && FloatGiven(query.value, "longitude", ext) && FloatGiven(query.value, "f107", ext)
             && FloatGiven(query.value, "f107a", ext) && FloatGiven(query.value, "ap", ext)
             && QueryOptionsOf(query.value, ext).Err?) ==>
              r == Err(QueryOptionsOf(query.value, ext).error)
  {
    var params :- QueryParams(query);
    var date :- DateParam(params, "date", ext);
    var longitude :- FloatParam(params, "longitude", ext);
    // the latitude is parsed again from the `longitude` parameter, as
    // written; that parse gives the same value as the one just made
    var latitude := FloatParam(params, "longitude", ext).value;
    var f107 :- FloatParam(params, "f107", ext);
    var f107a :- FloatParam(params, "f107a", ext);
    var ap :- FloatParam(params, "ap", ext);
    var options :- ModelOptions.QueryOptions(QueryOptionsParam(params), ext.decodeJson);
    Ok(AltitudeCall(options, date, longitude, latitude, f107, f107a, ap))
  }

  /** Parameters that all parse, with an options string decoding to the wrong
      length, are refused for the options before the model is touched. */
  lemma AltitudeOptionsCheckedLast(params: map<string, string>, ext: Externals, v: Value)
    requires DateGiven(params, ext) && FloatGiven(params, "longitude", ext) && FloatGiven(params, "f107", ext)
             && FloatGiven(params, "f107a", ext) && FloatGiven(params, "ap", ext)
    requires "options" in params && ext.decodeJson(params["options"]) == Some(v)
    requires Len(v).Some? && Len(v).value != ModelOptions.OptionCount
    ensures AltitudeRequest(Some(params), ext) == Err(ValueError(ModelOptions.LengthMessage))
  {
  }

  /** The query parameters the altitude endpoint reads. */
  const AltitudeKeys: set<string> := {"date", "longitude", "f107", "f107a", "ap", "options"}

  /** Two parameter maps that agree on the keys the altitude endpoint reads. */
  predicate AgreeOn(p: map<string, string>, q: map<string, string>, keys: set<string>) {
    forall k :: k in keys ==> (k in p <==> k in q) && (k in p ==> p[k] == q[k])
  }

  /** The altitude endpoint's model call and errors depend only on the
      parameters it reads. */
  lemma AltitudeRequestReads(p: map<string, string>, q: map<string, string>, ext: Externals)
    requires AgreeOn(p, q, AltitudeKeys)
    ensures AltitudeRequest(Some(p), ext) == AltitudeRequest(Some(q), ext)
  {
  }

  /** The `latitude` parameter is never read: changing or dropping it does
      not change the model call or the error. */
  lemma AltitudeIgnoresLatitude(params: map<string, string>, text: string, ext: Externals)
    ensures AltitudeRequest(Some(params["latitude" := text]), ext) == AltitudeRequest(Some(params), ext)
    ensures AltitudeRequest(Some(params - {"latitude"}), ext) == AltitudeRequest(Some(params), ext)
  {
    assert "latitude" !in AltitudeKeys;
    AltitudeRequestReads(params["latitude" := text], params, ext);
    AltitudeRequestReads(params - {"latitude"}, params, ext);
  }

  /** `output[0, 0, 0, :, :]`, which needs the first three axes non-empty. */
  function ProfileRows(out: Output): (r: Result<seq<seq<real>>>)
    ensures r.Ok? <==> |out| > 0 && |out[0]| > 0 && |out[0][0]| > 0
    ensures r.Ok? ==> r.value == out[0][0][0]
    ensures r.Err? ==> r.error == IndexError
  {
    if |out| > 0 && |out[0]| > 0 && |out[0][0]| > 0 then Ok(out[0][0][0]) else Err(IndexError)
  }

  /** The rows hold an eleven-column row for each of the first `n` altitudes. */
  predicate RowsCover(rows: seq<seq<real>>, n: nat) {
    n <= |rows| && forall i :: 0 <= i < n ==> |rows[i]| >= Species.ColumnCount
  }

  /** The output holds an eleven-column row for each profile altitude at
      `output[0, 0, 0]`. */
  predicate ProfileAvailable(out: Output) {
    |out| > 0 && |out[0]| > 0 && |out[0][0]| > 0 && RowsCover(out[0][0][0], 181)
  }

  /** The loop of `altitude_handler`: each profile altitude, in order, becomes
      a key mapping to the record read from that altitude's row; a row that is
      missing or short raises `IndexError`. */
  function ProfileFeatures(rows: seq<seq<real>>): (r: Result<Species.Dict<int, Species.Record>>)
    ensures r.Ok? <==> RowsCover(rows, 181)
    ensures r.Err? ==> r.error == IndexError
    ensures r.Ok? ==> Species.Keys(r.value) == Grids.AltitudeProfile()
    ensures r.Ok? ==> forall i :: 0 <= i < 181 ==>
              Species.Lookup(r.value, 100 + 5 * i) == Some(Species.FromRow(rows[i]))
  {
    var alts := Grids.AltitudeProfile();
    if !RowsCover(rows, |alts|) then Err(IndexError)
    else
      assert alts[..|alts|] == alts;
      assert forall i, j :: 0 <= i < j < |alts| ==> alts[i] != alts[j];
      var d := Species.Features(alts, rows, |alts|);
      assert forall i :: 0 <= i < 181 ==> Species.Lookup(d, alts[i]) == Some(Species.FromRow(rows[i]));
      Ok(d)
  }

  /** `altitude_handler`: answers exactly when the query is accepted, the
      model runs and its output has a row per altitude. The response's keys
      are, in order, the altitudes sent to the model, and the i-th key maps to
      the record of the model's i-th output row. */
  function AltitudeHandler(event: ApiEvent, ext: Externals): (r: Result<Response>)
    ensures r.Ok? <==> AltitudeAccepts(event.query, ext) && ext.run(AltitudeCallFor(event.query, ext)).Some?
                       && ProfileAvailable(ext.run(AltitudeCallFor(event.query, ext)).value)
    ensures AltitudeRequest(event.query, ext).Err? ==> r == Err(AltitudeRequest(event.query, ext).error)
    ensures AltitudeAccepts(event.query, ext) && ext.run(AltitudeCallFor(event.query, ext)).None? ==>
              r == Err(ModelFailure)
    ensures (AltitudeAccepts(event.query, ext) && ext.run(AltitudeCallFor(event.query, ext)).Some?
             && !ProfileAvailable(ext.run(AltitudeCallFor(event.query, ext)).value)) ==>
              r == Err(IndexError)
    ensures r.Ok? ==> r.value.statusCode == 200 && r.value.headers == CorsHeaders && r.value.body.Profile?
    ensures r.Ok? ==>
              var call := AltitudeCallFor(event.query, ext);
              var out := ext.run(call).value;
              var keys := Species.Keys(r.value.body.features);
              && call.alts.Arr? && |keys| == |call.alts.items|
              && forall i :: 0 <= i < |keys| ==>
                   && call.alts.items[i] == Num(keys[i] as real)
                   && Species.Lookup(r.value.body.features, keys[i]) == Some(Species.FromRow(out[0][0][0][i]))
  {
    var call :- AltitudeRequest(event.query, ext);
    var output :- Need(ext.run(call), ModelFailure);
    var rows :- ProfileRows(output);
    var features :- ProfileFeatures(rows);
    ProfileKeysAreCallAltitudes(call, rows, features);
    Ok(Response(200, Profile(features), CorsHeaders))
  }

  /** The profile's keys are the altitudes of the call, position by position,
      each mapping to the record of the row at its position. */
  lemma ProfileKeysAreCallAltitudes(call: ModelCall, rows: seq<seq<real>>, features: Species.Dict<int, Species.Record>)
    requires call.alts.Arr? && |call.alts.items| == 181
    requires forall i :: 0 <= i < 181 ==> call.alts.items[i] == Num((100 + 5 * i) as real)
    requires RowsCover(rows, 181) && |Species.Keys(features)| == 181
    requires forall i :: 0 <= i < 181 ==> Species.Keys(features)[i] == 100 + 5 * i
    requires forall i :: 0 <= i < 181 ==> Species.Lookup(features, 100 + 5 * i) == Some(Species.FromRow(rows[i]))
    ensures |Species.Keys(features)| == |call.alts.items|
    ensures forall i :: 0 <= i < |Species.Keys(features)| ==>
              && call.alts.items[i] == Num(Species.Keys(features)[i] as real)
              && Species.Lookup(features, Species.Keys(features)[i]) == Some(Species.FromRow(rows[i]))
  {
    var keys := Species.Keys(features);
    forall i | 0 <= i < |keys|
      ensures call.alts.items[i] == Num(keys[i] as real)
      ensures Species.Lookup(features, keys[i]) == Some(Species.FromRow(rows[i]))
    {
      assert keys[i] == 100 + 5 * i;
    }
  }

  /** When the model runs and returns the output shape it promises, the
      altitude endpoint answers for every profile altitude. */
  lemma AltitudeHandlerAnswersShapedOutput(event: ApiEvent, ext: Externals)
    requires AltitudeAccepts(event.query, ext) && ext.run(AltitudeCallFor(event.query, ext)).Some?
    requires HasShape(ext.run(AltitudeCallFor(event.query, ext)).value, 1, 1, 1, 181)
    ensures AltitudeHandler(event, ext).Ok?
    ensures Species.Keys(AltitudeHandler(event, ext).value.body.features) == Grids.AltitudeProfile()
  {
  }

  // ----- dispatch -----

  /** `lambda_handler`: a path mentioning `surface` goes to the surface
      handler, else one mentioning `altitude` to the altitude handler, else
      the request is a bulk request. */
  function LambdaHandler(event: ApiEvent, ext: Externals): (r: Result<Response>)
    ensures (exists i :: Routing.OccursAt("surface", event.path, i)) ==> r == SurfaceHandler(event, ext)
    ensures ((!exists i :: Routing.OccursAt("surface", event.path, i))
             && (exists i :: Routing.OccursAt("altitude", event.path, i))) ==> r == AltitudeHandler(event, ext)
    ensures ((!exists i :: Routing.OccursAt("surface", event.path, i))
             && (!exists i :: Routing.OccursAt("altitude", event.path, i))) ==> r == BulkHandler(event, ext)
  {
    match Routing.Route(event.path)
    case Surface => SurfaceHandler(event, ext)
    case Altitude => AltitudeHandler(event, ext)
    case Bulk => BulkHandler(event, ext)
  }
}
