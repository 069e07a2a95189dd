# MSIS2 API request layer, modelled in Dafny

The MSIS2 API is a serverless HTTP front end to the NRLMSIS 2.0 atmospheric
model. The handler module `msis2/app.py` does everything except the physics:
it routes a gateway event to one of three endpoints (bulk, surface grid,
altitude profile), validates the request, builds the grid of points the model
is asked about, checks the model's 25-entry options vector, calls the model
once, and shapes its output into the response.

This project models that layer as pure functions over immutable values:

- `outcomes.dfy` (`Outcomes`): `Option`, `Result` (usable with `:-`) and the
  exceptions a handler can raise (`KeyError`, `ValueError` with the program's
  own message, parser rejections, `TypeError`, `IndexError`, an exception
  inside the model).
- `json_values.dfy` (`JsonValues`): decoded JSON values and the Python
  built-ins applied to them: `len`, `np.iterable`, iteration order.
- `validation.dfy` (`Validation`): `validate_event`, with the three checks in
  their fixed order and the exact error messages.
- `model_options.dfy` (`ModelOptions`): the options vector. It defaults to 25
  ones. The query-string endpoints decode a string with `json.loads` first.
  Any length other than 25 is refused.
- `grids.dfy` (`Grids`): Python `range`, the 36 x 72 surface tile centres and
  the 181-point altitude profile, as exact reals and integers.
- `routing.dfy` (`Routing`): the substring dispatch on the request path.
- `species.dfy` (`Species`): the 11-field record of model outputs, and a
  Python dictionary as an insertion-ordered list of items.
- `handlers.dfy` (`Handlers`): the bulk, surface and altitude handlers and
  `lambda_handler`. Each handler is split into the request step, which builds
  the one model call (`ModelCall`: options plus `run_msis` arguments), and the
  response step.

The collaborators whose code is not part of this model are given to the
handlers as functions in an `Externals` record:

- `json.loads`, and `datetime.strptime` with format `%Y-%m-%dT%H:%M`;
- `float` on a string, each returning `None` where it raises;
- the model itself (`init_msis` followed by `run_msis`), a function from the
  call to a five-dimensional array of reals, or to `None` where the model
  raises. Which inputs make it raise is not known here, since its code is not
  part of this model.

Each handler's contract states its response in terms of the request: the
call it builds is pinned field by field to reference definitions read from
the request (`BulkCallFor`, `SurfaceCallFor`, `AltitudeCallFor`), and the
response is the model's answer to exactly that call.

Values are immutable, so `validate_event` cannot modify the event. The model
states that by construction rather than as a contract.

Behaviour kept as written in `msis2/app.py`:

- `altitude_handler` is defined twice. The later definition (line 175)
  replaces the empty one (line 136), and it is the one modelled and dispatched to.
- The altitude endpoint reads its latitude from the `longitude` parameter
  (line 181). The model call therefore always has latitude equal to longitude,
  and a `latitude` parameter is never read (`AltitudeRequest`,
  `AltitudeIgnoresLatitude`).
- `validate_event` does not look at `options`. The bulk endpoint checks the
  options length only after validation and date parsing, and never decodes a
  string there. A string of 25 characters passes as an options vector
  (`BulkOptions`).
- `np.iterable` accepts strings and dictionaries. A string field therefore
  passes the iterability check, and its length is its character count.

## Model

| member | source | states |
|---|---|---|
| JsonValues.Len | msis2/app.py:86-93 | `len` is defined exactly on the iterable values (strings, lists, dictionaries); for a string it counts characters, for a list items, for a dictionary keys |
| JsonValues.Elements | msis2/app.py:117 | iterating a list visits its items in order, iterating a string visits its characters; the number of items visited equals `len` |
| Validation.CheckFields | msis2/app.py:79-83 | passes exactly when every listed field is present and iterable; otherwise reports the first field in list order that is absent ("… is required as input.") or not iterable ("… must be an iterable.") |
| Validation.Validate | msis2/app.py:78-95 | passes exactly the acceptable events (all seven fields present and iterable, f107s/f107as/aps as long as dates, grid points at most 10000); otherwise the error is that of the first failing check in the order fields, lengths, size |
| Validation.AcceptedFields | msis2/app.py:79-95 | an accepted event holds all seven fields with a length, the three per-date lengths equal the date count, and the grid product is at most 10000 |
| Validation.SizeCapExamples | msis2/app.py:91-95 | 3 x 10 x 10 x 34 = 10200 points is refused with the size message; exactly 10000 points is accepted |
| Validation.LengthMismatchExample | msis2/app.py:86-89 | two dates with three F10.7 values is refused with the length message |
| Validation.MissingDatesReported | msis2/app.py:79-81 | without `dates`, the error names `dates` whatever the other fields hold |
| ModelOptions.DefaultOptions | msis2/app.py:120 | the default vector `[1]*25` (also at lines 150 and 186): 25 entries, each the number 1 |
| ModelOptions.DefaultOptionsAccepted | msis2/app.py:120-122 | the default vector passes the length check unchanged, so a bulk body without options gets the 25 ones |
| ModelOptions.CheckLength | msis2/app.py:121-122 | a value is accepted, unchanged, exactly when its length is 25; a wrong length raises the options `ValueError`, a value without length raises `TypeError` |
| ModelOptions.BulkOptions | msis2/app.py:120-122 | absent options become the 25 ones; given options go through the length check unchanged, with no JSON decoding: accepted exactly when their `len` is 25, otherwise the options `ValueError`, or `TypeError` for a value without a length |
| ModelOptions.QueryOptions | msis2/app.py:150-156 | absent options become the 25 ones; a string is decoded and the decoded value goes through the length check, so it is accepted exactly when it decodes to a value of length 25 and the accepted vector is the decoded value; undecodable text is refused; a non-string is length-checked directly |
| ModelOptions.DecodedStringActsAsValue | msis2/app.py:151-156 | a string decoding to a non-string value gives the same outcome as that value given already decoded |
| Grids.Range | msis2/app.py:160-161 | `range(start, stop, step)` yields start + i*step for each index, all below stop, and stops at the first value that would reach stop |
| Grids.TileCentres | msis2/app.py:160-161 | the i-th centre is lo + 2.5 + 5i, and the last tile is the first whose far edge reaches hi |
| Grids.SurfaceLatitudes | msis2/app.py:160 | 36 latitude centres, the i-th being -87.5 + 5i |
| Grids.SurfaceLongitudes | msis2/app.py:161 | 72 longitude centres, the i-th being -177.5 + 5i |
| Grids.SurfaceGridTiles | msis2/app.py:159-161 | the centres are strictly increasing, 5 degrees apart and strictly inside ±90 / ±180; the outer tiles touch the bounds; 36 x 72 = 2592 cells |
| Grids.AltitudeProfile | msis2/app.py:196 | 181 altitudes, the i-th being 100 + 5i km |
| Grids.AltitudeProfileCovers | msis2/app.py:196 | the profile starts at 100, ends at 1000, is strictly increasing, and holds exactly the multiples of 5 from 100 to 1000 |
| Grids.FiveStepsCover | msis2/app.py:196 | any 181 values 100 + 5i hold exactly the multiples of 5 from 100 to 1000, the set the profile range is meant to produce |
| Routing.Contains | msis2/app.py:102-105 | Python's substring test: true exactly when the pattern occurs at some position of the path |
| Routing.Route | msis2/app.py:102-106 | surface exactly when the path contains "surface"; altitude exactly when it contains "altitude" but not "surface"; bulk otherwise |
| Routing.SurfaceTakesPrecedence | msis2/app.py:102-106 | every path containing both "surface" and "altitude", in either order, is routed to the surface handler and never to the altitude handler |
| Routing.PrecedenceExample | msis2/app.py:102-106 | "/altitude/surface" routes to the surface handler |
| Routing.RouteExamples | msis2/app.py:102-106 | "/altitude" routes to the altitude handler and "/msis" to the bulk handler |
| Species.FromRow | msis2/app.py:209-219 | key Names[k] of the record (Mass, N2, O2, O, He, H, Ar, N, AnomO, NO, Temperature) holds column k of the row, for k = 0..10 |
| Species.ToRow | msis2/app.py:209-219 | the record's eleven values in column order: key Names[k] is entry k |
| Species.RowRoundTrip | msis2/app.py:209-219 | record to row and back is the identity; row to record and back keeps the first eleven columns |
| Species.AssignSpec | msis2/app.py:220 | dictionary assignment: the key afterwards maps to the new value, an existing key keeps its position, a new key is appended, other keys are untouched |
| Species.Features | msis2/app.py:206-220 | after the loop over distinct altitudes the keys are the altitudes in order, each mapping to the record of its own row |
| Handlers.ParseDates | msis2/app.py:117 | succeeds exactly when every item is a string the parser accepts, giving the parsed dates in order; otherwise the first bad item decides: a rejected string is reported with its text, a non-string raises `TypeError` |
| Handlers.BulkCall | msis2/app.py:114-128 | a validation failure is returned unchanged; an acceptable body gives exactly the accepted call; any call comes from an acceptable body and carries its parsed dates, its options and its six other fields as given |
| Handlers.AcceptedCall | msis2/app.py:116-128 | an accepted body yields a call exactly when its dates all parse and its options pass the length check; a date error is reported before any options error; the call then holds the parsed dates in order, the body's options (or the 25 ones), and lons, lats, alts, f107s, f107as, aps exactly as the body gives them, with at most 10000 points |
| Handlers.BulkRequest | msis2/app.py:112-114 | a missing (`null`) body raises `TypeError`; undecodable body text is refused; a decoded object goes on to validation |
| Handlers.BulkOptionsCheckedAfterValidation | msis2/app.py:114-122 | a body that passes validation and date parsing but has a wrong-length options vector is refused with the options message, before the model is called |
| Handlers.BulkHandler | msis2/app.py:112-133 | answers exactly when the body decodes to an accepted object and the model runs on the call built from it; the response is status 200, the CORS header and the model's output for that call; a refused body gets the request's own error (decoding, validation, date or options), and a model exception is reported as such |
| Handlers.QueryParams | msis2/app.py:143 | a request without a query string raises `TypeError`; otherwise the parameters are used as given |
| Handlers.DateParam | msis2/app.py:144 | a missing key raises `KeyError`; a present value gives the date exactly when the parser accepts it |
| Handlers.FloatParam | msis2/app.py:145-148 | a missing key raises `KeyError`; a present value gives the number exactly when `float` accepts it |
| Handlers.SurfaceCall | msis2/app.py:159-164 | the call holds the given options and date, the 72 longitude centres -177.5 + 5i as longitudes and the 36 latitude centres -87.5 + 5i as latitudes in that argument order, and one-element lists of the altitude, f107, f107a and ap: 2592 grid points |
| Handlers.SurfaceRequest | msis2/app.py:143-164 | no query string raises `TypeError`; the parameters are read in the order date, altitude, f107, f107a, ap, options, and the first one missing or unparsable gives its `KeyError` or parse error; a call is made exactly when all parse and the options are accepted, and it is the surface call built from those parsed values and the decoded options |
| Handlers.SurfaceOptionsCheckedLast | msis2/app.py:143-157 | a query whose date, altitude, f107, f107a and ap all parse but whose options string decodes to a wrong-length value is refused with the options message |
| Handlers.SurfaceHandler | msis2/app.py:140-172 | answers exactly when the query is accepted and the model runs on the surface call built from its parameters; the response is status 200, the CORS header and the model's output for that call; a refused query gets the request's own error, and a model exception is reported as such |
| Handlers.AltitudeCall | msis2/app.py:196-200 | the call holds the given options and date, one-element lists of the longitude and latitude, the 181 profile altitudes 100 + 5i in order, and one-element lists of f107, f107a and ap: 181 grid points |
| Handlers.AltitudeRequest | msis2/app.py:178-200 | no query string raises `TypeError`; the parameters are read in the order date, longitude, f107, f107a, ap, options, and the first one missing or unparsable gives its `KeyError` or parse error; a call is made exactly when all parse and the options are accepted, and it is the altitude call built from those parsed values, with the latitude equal to the parsed longitude |
| Handlers.AltitudeOptionsCheckedLast | msis2/app.py:178-193 | a query whose date, longitude, f107, f107a and ap all parse but whose options string decodes to a wrong-length value is refused with the options message |
| Handlers.AltitudeRequestReads | msis2/app.py:178-193 | the altitude request depends only on the date, longitude, f107, f107a, ap and options parameters |
| Handlers.AltitudeIgnoresLatitude | msis2/app.py:180-181 | setting or removing the `latitude` parameter does not change the call or the error |
| Handlers.ProfileRows | msis2/app.py:204 | `output[0, 0, 0]` is available exactly when the first three axes are non-empty, else `IndexError` |
| Handlers.ProfileFeatures | msis2/app.py:204-220 | succeeds exactly when there is an eleven-column row for each of the 181 altitudes, and otherwise raises `IndexError`; the keys are then the profile altitudes in order, and altitude 100 + 5i maps to the record of row i |
| Handlers.ProfileKeysAreCallAltitudes | msis2/app.py:196-220 | the feature keys correspond position by position to the altitudes of the call, and key i maps to the record of row i |
| Handlers.AltitudeHandler | msis2/app.py:175-226 | answers exactly when the query is accepted, the model runs on the altitude call built from it, and its output holds an eleven-column row per altitude at `[0, 0, 0]`; the response is status 200 with the CORS header, and its i-th key is the i-th altitude sent to the model, mapping to the record of the i-th output row; a refused query gets the request's own error, a model exception is reported as such, and a short output raises `IndexError` |
| Handlers.AltitudeHandlerAnswersShapedOutput | msis2/app.py:199-220 | when the model output has shape (1, 1, 1, 181, 11), the altitude endpoint answers with a key for every profile altitude |
| Handlers.LambdaHandler | msis2/app.py:98-106 | a path containing "surface" is served by the surface handler; else one containing "altitude" by the altitude handler; else by the bulk handler |

## Left out

- `init_msis` / `run_msis` (msis2/app.py:75): the external Fortran model. It is a function parameter (`Externals.run`) with no promised behaviour, returning `None` where it raises; the kind and message of such an exception are not modelled (`ModelFailure`). Its output shape (dates x lons x lats x alts x 11) is an assumption stated only where it is used (`HasShape`).
- Grid flattening and reshaping inside `run_msis`: `run_msis` is imported from the `msis2` package placed on `lib/` (msis2/app.py:72-75), whose code is not part of this model.
- `json.loads`, `json.dumps`, `datetime.strptime` and `float`: library parsers and serialisers, given as function parameters. Serialisation of the output (`.tolist()`, float coercion) is represented by the `Serialized` body.
- `print` logging (msis2/app.py:109-110): output only.
- The status code and CORS header are modelled as constants. The HTTP runtime's translation of raised errors into error responses is not modelled.
- Gateway events without a `path` or `body` key, or with a non-string `path`, are not modelled: `ApiEvent` always has both fields. A `null` body is modelled (`BulkRequest` raises `TypeError`).
- Handlers.BulkRequest: a JSON body that decodes to something other than an object is reported as `Unsupported`. In the source, the membership test and indexing then act on a list or string.
- Handlers.BulkCall: `dates` given as a JSON object (iterated by its keys) is reported as `Unsupported`. A `map` keeps no key order.
- Handlers.ParseDates: the `TypeError` raised for an item that is not a string carries a simplified message.
- Handlers.QueryParams: exception messages are kept only where the program writes them itself (`validate_event`, the options check). Library exceptions carry their kind and offending text.
- Grids.Range: only positive steps are modelled, the only kind the source uses.
- `surface_geojson`, `altitude_json`, `test`, `test2` (msis2/app.py:229-340): dead or broken code. `geojson` is never imported, and `range` is applied to lists. `test` and `test2` use random data.
- The empty first `altitude_handler` (msis2/app.py:136-137): it is replaced by the later definition before any call.
- The cross-request race on the model's process-global options: concurrency with no logic to model. Here the options travel with each `ModelCall`.
- Numeric values of the species densities and temperature: produced by the opaque model.
- NaN and the infinities: `float` accepts "nan" and "inf", and `json.loads` accepts `NaN` and `Infinity`, but a `Num` holds an exact real. Those inputs are modelled only as text the parser rejects.
