# TomTom API client core, in Dafny

This project models the shared core of the Python TomTom API client. The
client comes in two generations: the `tomtom_api` package and its
successor, `tomtom_apis`. The model covers:

- **Query-parameter encoding.** `LegacyParams` models the first
  generation's `BaseParams.to_dict` / `from_dict`. `CurrentParams` models
  the second generation's serialization strategy, `__post_serialize__`
  filter and the `serialize_bool` / `serialize_list` /
  `serialize_list_brackets` helpers. `Values` holds the Python values a
  field can hold and their `str()` rendering. `Common` holds the string
  helpers: join, split, decimal rendering and lowercasing.
- **The base client** (`Client`). This covers the default parameters and
  headers set up by `BaseApi.__init__`, and how `_request` assembles the
  parameters, headers and body. It also covers the decision table that
  maps a raised exception and an HTTP status to the client's five error
  kinds, the `get` / `delete` / `post` / `put` wrappers, and the session's
  lifetime under `close` and `__aexit__`.
- **The tile-grid helpers** (`Tiles`). `lat_lon_to_tile_zxy` and
  `tile_zxy_to_lat_lon` are the same code in `tomtom_api/utils.py` and
  `tomtom_apis/utils.py`. The model covers their range checks, the order
  of those checks and the linear longitude/column formulas, over the reals.
- **The connector hook** (`Places`). `Connector.__post_deserialize__`
  reconciles `type` with `connectorType` in place.

The first generation's `from_dict`, the client object and the connector
hook update state in place. They are classes with `modifies` clauses:
`LegacyParams.Params`, `Client.BaseApi`, `Client.Session` and
`Places.Connector`. The encoders, the classifier and the tile functions
are pure functions.

## Model

| member | source | states |
|---|---|---|
| Values.BoolWire | src/tomtom_api/api.py:60-61 | `str(b).lower()` is exactly "true" or "false" |
| LegacyParams.Encode | src/tomtom_api/api.py:66-68 | a field is kept if and only if it is neither None nor an empty list; each kept field is formatted by `format_value` |
| LegacyParams.ToDictAllFieldsSet | tests/test_models.py:20-31 | `to_dict` of the test record with every field set is exactly the expected map: "123", "test", "true", "45.67", "a,b,c", "1,2,3", and no `key` |
| LegacyParams.ToDictSomeFieldsNone | tests/test_models.py:34-38 | `to_dict` of the test record with some fields None is exactly {"field1": "123", "field3": "false", "field5": "x,y"} |
| LegacyParams.FormatSingletonList | src/tomtom_api/api.py:62-63 | a one-element list is sent as that element's `str()`, with no separator |
| LegacyParams.FormatListRoundTrip | src/tomtom_api/api.py:62-63 | an n-element list whose renderings hold no comma is sent with n-1 commas, and splitting at the commas gives back the renderings in order |
| LegacyParams.EnumListSentAsClassNames | src/tomtom_api/api.py:62-63 | as written, a list of enum members is sent as "Class.NAME" and not as the member's value (see Findings) |
| LegacyParams.FalsyValuesKept | src/tomtom_api/api.py:66-68 | False, 0 and "" are still sent, as "false", "0" and "" |
| LegacyParams.AllAbsentIsEmpty | src/tomtom_api/api.py:66-68 | a record whose fields are all None or empty lists encodes to the empty map |
| LegacyParams.Params.constructor | src/tomtom_api/api.py:28-32 | only declared fields may be given, every field declared without a default must be given, and every other declared field (`key` among them) defaults to None |
| LegacyParams.Params.AsDict | src/tomtom_api/api.py:66 | `asdict` has exactly the declared fields, with their current values |
| LegacyParams.Params.ToDict | src/tomtom_api/api.py:50-70 | a declared field is sent if and only if its current value is neither None nor an empty list, and it is sent as `format_value` of that value |
| LegacyParams.Params.FromDict | src/tomtom_api/api.py:34-48 | each key of the dictionary becomes an attribute, extra keys included; every other attribute is unchanged; the same object is returned |
| CurrentParams.SerializeBool | src/tomtom_apis/utils.py:88-90 | True gives "true" and False gives "false" |
| CurrentParams.RenderItems | src/tomtom_apis/utils.py:97 | one rendering per element, in order |
| CurrentParams.SerializeList | src/tomtom_apis/utils.py:93-97 | None if and only if the list is empty |
| CurrentParams.SerializeListBrackets | src/tomtom_apis/utils.py:100-103 | None exactly when `serialize_list` is None; otherwise that string between "[" and "]" |
| CurrentParams.SerializeListRoundTrip | src/tomtom_apis/utils.py:97 | with no comma inside a rendering, splitting the result at the commas gives back the renderings in order, and there are n-1 commas |
| CurrentParams.SerializeListEnumIntBool | tests/test_utils.py:104 | `[Color.RED, 1, True]` is sent as "red,1,true", and as "[red,1,true]" by the bracket variant (tests/test_utils.py:121) |
| CurrentParams.SerializeListStrAndBool | tests/test_utils.py:101 | `["True", False]` is sent as "True,false": only the bool is lowercased |
| CurrentParams.SerializeListInts | tests/test_utils.py:95 | `[1, 2, 3]` is sent as "1,2,3" |
| CurrentParams.PostSerialize | src/tomtom_apis/api.py:34-35 | drops exactly the None entries and keeps every other entry unchanged |
| CurrentParams.SerializeFieldPresent | src/tomtom_apis/api.py:37-57 | the per-type strategy gives None exactly for None and for an empty list |
| CurrentParams.ToDict | src/tomtom_apis/api.py:29-57 | a field is sent if and only if it is neither None nor an empty list; each is sent as its strategy's string |
| CurrentParams.SameKeysAsLegacy | src/tomtom_apis/api.py:34-57 | both generations send exactly the same parameter names for the same record |
| CurrentParams.ScalarsAgreeWithLegacy | src/tomtom_apis/api.py:44-57 | on single values, both generations send the same string |
| CurrentParams.EnumListSentByValue | src/tomtom_apis/utils.py:97 | a list of enum members is sent as the members' values, in order (the corrected rendering, see Findings) |
| Client.EncodeParams | src/tomtom_apis/api.py:174 | the encoded caller parameters hold exactly the fields that are neither None nor empty lists, in either generation |
| Client.Body | src/tomtom_apis/api.py:176 | the body is the data's dictionary when data is given, and None otherwise |
| Client.Classify | src/tomtom_api/api.py:219-239 | an exception no clause names escapes; a timeout always becomes RequestTimeout; ConnectionError exactly for a connection error, or for a non-response client error or gaierror |
| Client.ResponseStatusTable | src/tomtom_api/api.py:225-233 | a response error gives ClientError exactly for 400-499, ServerError exactly for 500 and up, and the generic error otherwise |
| Client.SpecificBeforeGeneric | src/tomtom_apis/api.py:206-226 | a response error is never reported as a connection error, although it is also a ClientError |
| Client.Handle | src/tomtom_apis/api.py:204-228 | a response succeeds if and only if its status is below 400; a 4xx status gives ClientError and 5xx gives ServerError |
| Client.NothingSwallowed | src/tomtom_api/api.py:219-239 | every raised exception fails the call: a caught one as a client error, an uncaught one unchanged |
| Client.Session.constructor | src/tomtom_api/api.py:166 | a session opened by the client is bound to the given base URL and has not been closed |
| Client.BaseApi.constructor | src/tomtom_api/api.py:160-175 | the default headers are Content-Type and User-Agent, the default parameters `key`; when no session is given, a new one is opened on the configured base URL |
| Client.BaseApi.Assemble | src/tomtom_api/api.py:187-196 | the caller's parameters override the default `key`; the caller's headers override the defaults; gzip and tracking headers are added last and exactly when enabled |
| Client.BaseApi.Request | src/tomtom_apis/api.py:164-228 | the assembled request, and the result of handling the session's answer; without a session, an uncaught AttributeError |
| Client.BaseApi.Get | src/tomtom_api/api.py:258-271 | a GET with the assembled parameters and headers and no body |
| Client.BaseApi.Delete | src/tomtom_api/api.py:243-256 | a DELETE with the assembled parameters and headers and no body |
| Client.BaseApi.Post | src/tomtom_api/api.py:273-288 | a POST whose body is `data.to_dict()` when data is given and None otherwise |
| Client.BaseApi.Put | src/tomtom_api/api.py:290-305 | a PUT whose body is `data.to_dict()` when data is given and None otherwise |
| Client.BaseApi.Close | src/tomtom_apis/api.py:302-307 | the session ends as None; an existing session is closed exactly once |
| Client.BaseApi.Exit | src/tomtom_apis/api.py:297-300 | the same effect as `close()` |
| Client.CloseTwice | src/tomtom_api/api.py:315-320 | a second close makes no further call to the session's close |
| Client.KeyAlwaysSent | src/tomtom_api/api.py:173-175 | `key` is always sent; it is the caller's `key` when that is set, and the API key otherwise |
| Client.NoOptionalHeaders | src/tomtom_api/api.py:188-196 | with both flags off, exactly the caller's headers and the two defaults are sent, and the caller's values win |
| Tiles.LatLonToTileZxy | src/tomtom_apis/utils.py:17-48 | checks zoom, then latitude, then longitude, and reports the first violation; on success the zoom is kept, the column lies in [0, 2^z] and is 2^z exactly at 180, and is `floor((lon + 180) / 360 * 2^z)`; the row is the projection |
| Tiles.LonToTileXBounds | src/tomtom_api/utils.py:42-47 | over the reals, the column lies in [0, 2^z] and equals 2^z exactly at longitude 180 |
| Tiles.TileZxyToLatLon | src/tomtom_apis/utils.py:51-85 | checks zoom, then x, then y against [0, 2^z-1]; on success the longitude is `x / 2^z * 360 - 180`, the western edge of column x, and lies in [-180, 180) |
| Tiles.TileXToLonRange | src/tomtom_apis/utils.py:80 | every accepted column starts at a longitude in [-180, 180) |
| Tiles.TileXToLonMonotone | src/tomtom_api/utils.py:79 | the western edge moves east as the column grows, and is -180 at column 0 |
| Tiles.ColumnRoundTrip | src/tomtom_api/utils.py:44 | the column of a column's western edge is that column |
| Tiles.LonWithinColumn | src/tomtom_apis/utils.py:45 | a longitude west of 180 lies between its column's edge and the next column's edge |
| Tiles.ReferenceColumns | tests/test_utils.py:14-26 | -122.4194 falls in column 163 at zoom 10; 180 falls in column 1024; column 163 starts at -122.6953125 |
| Places.Reconcile | src/tomtom_api/places/models.py:330-336 | a set field is never overwritten; when exactly one is set, both end up holding it; a field stays None only when both were None |
| Places.ReconcileIdempotent | src/tomtom_api/places/models.py:332-335 | running the hook twice gives the result of running it once |
| Places.ConflictKept | src/tomtom_api/places/models.py:332-336 | two different kinds are both kept |
| Places.Connector.constructor | src/tomtom_api/places/models.py:321-327 | a connector holds the given field values |
| Places.Connector.PostDeserialize | src/tomtom_api/places/models.py:329-336 | the kind fields are reconciled in place and then agree unless both started set; no other field changes; the same object is returned |
| Places.PostDeserializeTwice | src/tomtom_api/places/models.py:332-336 | a second run leaves the kind fields as the first run left them |

## Left out

- Transport: `ClientSession.request`, the aiohttp timeout and async scheduling are not modelled. What the session answers is the input `outcome`: either a response, or an exception described by its classes and status.
- `Response.deserialize`, `dict`, `text` and `bytes` are left out. They are thin wrappers over aiohttp reads and JSON decoding.
- `BasePostData.to_dict` is library serialization. A body object is carried together with its resulting dictionary (`Client.PostData`).
- In the second generation, mashumaro applies the strategy table. The model applies the table directly. An Enum sends its value and a str itself, which is mashumaro's default for those types.
- Python float formatting is not modelled. A float, or any other value without special handling, is carried with its `str()` rendering (`Values.Other`). Floats are otherwise modelled as reals, with no rounding and no NaN or infinities.
- Tiles.LatLonToTileZxy: the latitude-to-row formula (log, tan, cos) is passed in as the function `mercatorY`. Nothing is proved about the row.
- Tiles.TileZxyToLatLon: the row-to-latitude formula (exp, atan) is passed in as the function `mercatorLat`. Nothing is proved about the latitude.
- The fresh `uuid.uuid4()` tracking value and the package version are inputs. Logging, including the loop over response headers, is left out.
- The value of the tracking header's name is taken as "Tracking-ID"; `const.py` is not part of this model.
- aiohttp compares header names case-insensitively. The model uses plain string keys.
- The first generation converts a post body in `post`/`put`, and the second does it in `_request`. Both send the same body, so one `Body` function serves both.
- The endpoint modules (search, geocoding, routing, traffic and the others) are left out. They only build a URL and call `get`/`post`.
- The not-implemented stubs are left out.
- The dataclass and Enum declarations other than `Connector` are left out. Enum members are described by class, member name and value (`Values.Enum`).
- Client.Handle: only what happens after the session answers is modelled. The `asyncio.timeout` wrapper is represented by a raised TimeoutError.

## Findings

| source | as written | input that shows it | evidently intended | confidence | as-written member | corrected member |
|---|---|---|---|---|---|---|
| src/tomtom_api/api.py:62-63 | the elements of a list parameter are rendered with `str()`, so an Enum element is sent as "Class.NAME" | a `CategorySearchParams` (src/tomtom_api/places/models.py:265) with `connectorSet=[ConnectorType.IEC62196_TYPE1]` sends "ConnectorType.IEC62196_TYPE1" | the member's value "IEC62196Type1", as a single Enum is sent and as the second generation's `serialize_list` does | high (not executed) | LegacyParams.EnumListSentAsClassNames | CurrentParams.EnumListSentByValue |
