# geosearchclass: validated geolocated-search parameters

A Dafny model of `GeoSearchClass` from geotweets, the parameter object behind a
geolocated tweet search, and of the plain-text rendering of its results.

The object keeps five validated search parameters, the search term, a cached
geo string and the last search results. Each property setter follows the same
steps. The latitude, longitude and radius setters refuse the empty string,
then convert any value with `float()`. The count setter converts only strings
with `float()`, so an empty string raises `float()`'s own error. The result
type setter converts nothing. Then each checks an open interval, the whole
numbers 1 to 100, or a set of literals.
It raises before its single assignment, so a refused value leaves the object
as it was. Reading `geo_string` rebuilds `"lat,lon,radiusmi"` from the current
fields on every read and caches the result. Writing the results builds one text
block per tweet, in order.

Files:

- `python.dfy` (module `PyRuntime`): the values a caller can assign (`Int`,
  `Float`, `Str`, any other `Object`), Python's `float()` (`ToFloat`) and
  `int()` truncation (`Trunc`), and the errors a setter raises.
- `params.dfy` (module `SearchParams`): each setter's check, and what an
  assignment stores or raises (`LatitudeUpdate`, `CountUpdate`, ...). Also the
  defaults and the test vectors from the commented `att_test` calls.
- `geostring.dfy` (module `GeoString`): the geo string and its reading back
  into the three rendered numbers, with round trips in both directions.
- `render.dfy` (module `ResultText`): the text block of one tweet and the text
  of a result list.
- `geosearch.dfy` (module `GeoSearch`): the class `GeoSearchClass` with its
  fields, the defaults, the five setters, the geo string read, the local part
  of `search`, and `write_search_results` as a loop.

The interpreter's `float()` on strings, `str()` on numbers and `repr()` on
floats are parameters (`parse`, `show`, `repr`). The model does not fix
Python's number parsing or printing. A property getter is a read of the public
field of the same name (`count`, `resultType`, `latitude`, `longitude`,
`radius`), so it has no member of its own.

Where the system's specification and the code disagree, the model follows
the code:

- Count: the specification says a count is always a whole number from 1 to 100.
  The code stores any value that is neither a string nor a number without
  checking it, because the setter has no `else` branch. `CountHolds` admits such
  values.
- Geo string: the specification calls the encoding a pure read. The code also
  writes it into `_geo_string`. `ReadGeoString` modifies `geoString`.
- Writing results: the specification says unset results are not an error. The
  code iterates `search_results`, which is `None` until a search has run, so it
  raises a TypeError. `WriteSearchResults` returns `Failure(ResultsNotSet)`.
- Boundary values are refused, as both say.

## Model

| member | source | states |
|---|---|---|
| `PyRuntime.NumberOf` | geosearchclass.py:224 | A value is a number, for the `isinstance(value, (float, int))` test, exactly when it is an int or a float. |
| `PyRuntime.ToFloat` | geosearchclass.py:251-253 | `float(v)` succeeds exactly on numbers and on strings the interpreter can read. Its value is the number itself or the parsed value. A failure is a ValueError for strings and a TypeError for everything else. Overflow of very large integers is not modelled (see Left out). |
| `PyRuntime.Trunc` | geosearchclass.py:225 | `int(x)` truncates toward zero: the result lies within 1 of `x`, on the side of zero. |
| `PyRuntime.TruncFixesWholeNumbers` | geosearchclass.py:225 | `x == int(x)` holds exactly when `x` is a whole number, for negative `x` too. |
| `SearchParams.IsCount` | geosearchclass.py:225 | The count check `0 < x < 101 and x == int(x)` accepts exactly the whole numbers 1 to 100. |
| `SearchParams.IsResultType` | geosearchclass.py:238 | The result type check accepts exactly the strings "mixed", "popular" and "recent". The match is case-sensitive and nothing is trimmed. |
| `SearchParams.RequiredFloat` | geosearchclass.py:249-256 | The shared setter shape. The empty string raises "You must put in a value". A failed `float()` raises its own error. Otherwise the value is stored as a float iff it passes the check, and raises OutOfBounds if not. |
| `SearchParams.LatitudeUpdate` | geosearchclass.py:249-256 | What `latitude = v` stores is always a float strictly between -90 and 90. |
| `SearchParams.LongitudeUpdate` | geosearchclass.py:263-271 | What `longitude = v` stores is always a float strictly between -180 and 180. |
| `SearchParams.RadiusUpdate` | geosearchclass.py:278-285 | What `radius = v` stores is always a strictly positive float. |
| `SearchParams.CountHolds` | geosearchclass.py:220-229 | The count invariant: a stored int is from 1 to 100, a stored float is whole and from 1 to 100, a string is never stored, and any other object may be. |
| `SearchParams.CountUpdate` | geosearchclass.py:220-229 | What `count = v` stores always satisfies the count invariant `CountHolds`. |
| `SearchParams.ResultTypeUpdate` | geosearchclass.py:236-242 | `result_type = v` stores `v` unchanged iff it is one of the three literals. Any other value raises. |
| `SearchParams.CountStoredIff` | geosearchclass.py:220-229 | An int is accepted iff it is from 1 to 100. A float is accepted iff it is whole and from 1 to 100. A string is accepted iff `float()` reads it as such a number, and it is stored as that float. Any other object is stored unchecked. Accepted numbers are stored as given. |
| `SearchParams.DefaultsAreAccepted` | geosearchclass.py:56-64 | Every default passes its setter's check, and assigning it again stores it unchanged. The one exception is the int radius 3, which is stored back as the float 3.0. |
| `SearchParams.CountTestVector` | geosearchclass.py:316 | Counts 1 and 35 are stored. 101, -1 and 3.5 are out of bounds. "hello" is not a number. "15" is stored as 15.0. |
| `SearchParams.ResultTypeTestVector` | geosearchclass.py:317 | The three literals are stored. "other", 15, " mIxEd" and "MIXED" are refused. |
| `SearchParams.LatitudeTestVector` | geosearchclass.py:318 | Latitudes 0, "-50" and 1.3 are stored as floats. -90, 90 and 300 are out of bounds. "hello" is not a number. "" is the empty-value error. |
| `SearchParams.LongitudeTestVector` | geosearchclass.py:319 | Longitudes 0, "-100" and 1.3 are stored as floats. -180, 180 and 300 are out of bounds. "hello" is not a number. |
| `SearchParams.RadiusTestVector` | geosearchclass.py:320 | Radii 0 and -1 are refused. 10, 100 and 1000 are stored as floats. |
| `GeoString.Encode` | geosearchclass.py:290-291 | The geo string is the latitude text, a comma, the longitude text, a comma, the radius text and "mi": it is four characters longer than the three texts, starts with the latitude and its comma, and ends with "mi". |
| `GeoString.SplitAfterPiece` | geosearchclass.py:290-291 | A comma-free piece followed by a comma splits off as one whole piece. |
| `GeoString.SplitJoin` | geosearchclass.py:290-291 | Cutting at commas loses nothing: the pieces are comma-free and join back to the string. |
| `GeoString.DecodeEncode` | geosearchclass.py:287-292 | Round trip: the three rendered numbers can be read back out of the geo string, as long as none of them contains a comma. |
| `GeoString.EncodeDecode` | geosearchclass.py:287-292 | The converse: a string that reads back as three numbers is exactly their geo string, and the numbers are comma-free. |
| `ResultText.CoordinatesText` | geosearchclass.py:147 | `str()` of the coordinates list is the latitude's `repr` and the longitude's `repr` inside brackets, with ", " between them: four characters more than the two renderings. |
| `ResultText.Annotation` | geosearchclass.py:145-147 | The coordinates annotation is empty iff the tweet has no `geo`. |
| `ResultText.Block` | geosearchclass.py:148 | A block starts with three newlines and an at-sign, followed by the screen name. |
| `ResultText.Render` | geosearchclass.py:143-150 | The text of a result list is empty exactly when the list is empty. |
| `ResultText.RenderAppend` | geosearchclass.py:143-150 | The text of `a + b` is the text of `a` followed by the text of `b`. So the text of an empty list is empty and no block is lost or reordered. |
| `ResultText.BlockFromParts` | geosearchclass.py:145-148 | The block the loop assembles, with the annotation picked by testing `geo`, is the tweet's `Block`. |
| `ResultText.RenderSnoc` | geosearchclass.py:143-150 | Appending one tweet appends exactly its block to the text, as one loop step does. |
| `ResultText.RenderStep` | geosearchclass.py:143-150 | After the first `i + 1` tweets, the text is the text after the first `i` followed by the block of tweet `i`: the loop's invariant step. |
| `ResultText.RenderPrefix` | geosearchclass.py:143-150 | The text of the first `k` tweets is a prefix of the whole text, and the remaining tweets' text follows it. |
| `ResultText.BlockShape` | geosearchclass.py:148 | A block starts with three newlines, an at-sign and the screen name, ends with the tweet's text, and is eight characters longer than the screen name, the annotation and the text together. |
| `GeoSearch.GeoSearchClass.Valid` | geosearchclass.py:220-285 | The object invariant is the five setters' checks together. A valid object holds numbers as latitude, longitude and radius, never a string as count, and a string as result type. |
| `GeoSearch.GeoSearchClass.constructor` | geosearchclass.py:40-46 | Built with `params_file` None or `''`, the object holds the defaults and satisfies the invariant. The search term, geo string and results are unset. |
| `GeoSearch.GeoSearchClass.UseDefaultParams` | geosearchclass.py:56-64 | Every field is set to its default, and the invariant holds afterwards. |
| `GeoSearch.GeoSearchClass.SetCount` | geosearchclass.py:220-229 | Raises iff `CountUpdate` does, with the same error. The count becomes the stored value on success and is unchanged on failure. No other field can change. The invariant is kept. |
| `GeoSearch.GeoSearchClass.SetResultType` | geosearchclass.py:236-242 | Succeeds iff the value is one of the three literals. The result type is replaced only then. No other field can change. The invariant is kept. |
| `GeoSearch.GeoSearchClass.SetLatitude` | geosearchclass.py:249-256 | Raises iff `LatitudeUpdate` does, with the same error. The latitude becomes `float(v)` on success and is unchanged on failure. No other field can change. The invariant is kept. |
| `GeoSearch.GeoSearchClass.SetLongitude` | geosearchclass.py:263-271 | As `SetLatitude`, with the interval (-180, 180). |
| `GeoSearch.GeoSearchClass.SetRadius` | geosearchclass.py:278-285 | As `SetLatitude`, with the check radius > 0. |
| `GeoSearch.GeoSearchClass.ReadGeoString` | geosearchclass.py:287-292 | The geo string is built from the current latitude, longitude and radius, so it is never stale. It is cached, so the cache is set afterwards. When the object is valid and `str()` renders no number with a comma, the geo string reads back to those three renderings. |
| `GeoSearch.GeoSearchClass.Search` | geosearchclass.py:94-102 | The request carries the search term, the current geo string, the result type and the count. The "initialize geo string" error can never be raised. The service's answer becomes the stored results and is returned. |
| `GeoSearch.GeoSearchClass.WriteSearchResults` | geosearchclass.py:129-150 | With results stored, the loop's text equals `Render` of them: every tweet's block in order. With no results, it raises. |

## Left out

- `set_params_from_file` (geosearchclass.py:66-78): file reading and `ast.literal_eval`. It assigns the underscore fields directly and skips every check, so an object loaded that way need not satisfy `Valid()`. The constructor is modelled only for `params_file` None or `''`, the `use_default_params` branch (geosearchclass.py:43-46). The default `params_file='params.txt'` (geosearchclass.py:40) goes to the file loader, which raises IOError when the file is missing.
- `__init__`'s keys file, `api` and `credits_retrieved` fields, and the lazy credential loading in `search` (geosearchclass.py:47-54, 91-93): credentials and the client library are outside the model.
- `GeoSearch.GeoSearchClass.Search`: the remote API call is not modelled. Its answer is the `response` parameter, and transport errors are not modelled.
- `write_search_results`'s file handling (geosearchclass.py:154-161): the filesystem encoding, the output path and the write. `WriteSearchResults` returns the text that would be written.
- `json_search_results` (geosearchclass.py:164-189): `json.dumps` of the library's raw payload, plus file output.
- `print_search_results`, `_print_SRO_info`, `att_test` and `main` (geosearchclass.py:104-127, 191-213, 295-322): console output. Their test vectors are stated as lemmas.
- Python's number semantics: `float()` on strings, `str()` and `repr()` on floats are parameters. Infinities and NaN cannot be represented as `real`. So `float("inf")`, which Python accepts as a radius, is not modelled, and neither is IEEE rounding. Python 2's `float()` raises OverflowError for an integer beyond the double range, such as `radius = 2**1024`; the model converts every integer and would store it.
- Error messages: each error is one of four `SetError` kinds. The message texts are not modelled.
- `SearchParams.CountUpdate`: Python 2's `long` integers fail `isinstance(value, (float, int))`, so the code stores them unchecked. The model treats every integer as an `int`, and so checks it.
- `PyRuntime.ToFloat`: objects with a `__float__` method, which `float()` converts, count as non-numbers that raise TypeError.
- The search term: the class has no `search_term` property. `g.search_term = "#SF"`, as written in the class documentation (geosearchclass.py:20), creates an attribute that `search` never reads. The model keeps only `_search_term` (`searchTerm`), which only the defaults set. The `tweet_text` attribute, which only the file loader sets, is not modelled.
