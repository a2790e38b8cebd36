/** The geolocated search object: five validated search parameters, the
    search term, the cached geo string and the last results, together with
    the steps of a search and of writing the results that involve no I/O. */
module GeoSearch {
  import opened PyRuntime
  import opened SearchParams
  import GeoString
  import opened ResultText

  /** The arguments `search` hands to the service: query, geocode, result
      type and count. */
  datatype SearchRequest = SearchRequest(q: Option<string>, geocode: string, resultType: Value, count: Value)

  /** Why writing the results raised: iterating `search_results` while it is
      still None is a TypeError. */
  datatype WriteError = ResultsNotSet

  /** `show` renders no int and no float with a comma. */
  ghost predicate NumbersWithoutCommas(show: Value -> string)
  {
    forall v :: NumberOf(v).Some? ==> ',' !in show(v)
  }

  class GeoSearchClass {
    var searchTerm: Option<string>
    var resultType: Value
    var count: Value
    var latitude: Value
    var longitude: Value
    var radius: Value
    var geoString: Option<string>
    var searchResults: Option<seq<Tweet>>

    /** What the defaults establish and every setter keeps. */
    ghost predicate Valid(): (b: bool)
      reads this
      ensures b ==> NumberOf(latitude).Some? && NumberOf(longitude).Some? && NumberOf(radius).Some?
      ensures b ==> !count.Str? && resultType.Str?
    {
      LatitudeHolds(latitude) && LongitudeHolds(longitude) && RadiusHolds(radius) &&
      CountHolds(count) && IsResultType(resultType)
    }

    /** The current latitude, longitude and radius, rendered by `show`
        (the interpreter's `str()`). */
    function GeoFieldsOf(show: Value -> string): GeoString.GeoFields
      reads this
    {
      GeoString.GeoFields(show(latitude), show(longitude), show(radius))
    }

    /** `GeoSearchClass(params_file=None)` (or `''`): with no parameter file
        to read, the object takes the defaults. */
    constructor ()
      ensures Valid()
      ensures searchTerm == None && resultType == DefaultResultType && count == DefaultCount
      ensures latitude == DefaultLatitude && longitude == DefaultLongitude && radius == DefaultRadius
      ensures geoString == None && searchResults == None
    {
      new;
      UseDefaultParams();
    }

    /** Resets every parameter to its default and forgets the geo string and
        the results. */
    method UseDefaultParams()
      modifies this
      ensures Valid()
      ensures searchTerm == None && resultType == DefaultResultType && count == DefaultCount
      ensures latitude == DefaultLatitude && longitude == DefaultLongitude && radius == DefaultRadius
      ensures geoString == None && searchResults == None
    {
      searchTerm := None;
      resultType := Str("mixed");
      count := Int(15);
      latitude := Float(37.7821);
      longitude := Float(-122.4093);
      radius := Int(3);
      geoString := None;
      searchResults := None;
    }

    /** `count = v`. Stores what `CountUpdate` gives, or raises before any
        assignment and leaves the count as it was. */
    method SetCount(v: Value, parse: string -> Option<real>) returns (r: Outcome<SetError>)
      modifies this`count
      ensures var u := CountUpdate(v, parse);
        (r.Pass? <==> u.Success?) && (r.Fail? ==> r.error == u.error) &&
        count == (if u.Success? then u.value else old(count))
      ensures old(Valid()) ==> Valid()
    {
      var value := v;
      if value.Str? {
        var f := ToFloat(value, parse);
        if f.Failure? {
          return Fail(f.error);
        }
        value := Float(f.value);
      }
      if value.Int? || value.Float? {
        var n := NumberOf(value).value;
        if !(n > 0.0 && n < 101.0 && n == Trunc(n) as real) {
          return Fail(OutOfBounds);
        }
      }
      count := value;
      return Pass;
    }

    /** `result_type = v`. Stores `v` iff it is "mixed", "popular" or "recent";
        otherwise raises and leaves the result type as it was. */
    method SetResultType(v: Value) returns (r: Outcome<SetError>)
      modifies this`resultType
      ensures r.Pass? <==> IsResultType(v)
      ensures r.Fail? ==> r.error == OutOfBounds
      ensures resultType == (if r.Pass? then v else old(resultType))
      ensures old(Valid()) ==> Valid()
    {
      if !(v == Str("mixed") || v == Str("popular") || v == Str("recent")) {
        return Fail(OutOfBounds);
      }
      resultType := v;
      return Pass;
    }

    /** `latitude = v`. Stores `float(v)` iff it lies strictly between -90 and
        90; otherwise raises and leaves the latitude as it was. */
    method SetLatitude(v: Value, parse: string -> Option<real>) returns (r: Outcome<SetError>)
      modifies this`latitude
      ensures var u := LatitudeUpdate(v, parse);
        (r.Pass? <==> u.Success?) && (r.Fail? ==> r.error == u.error) &&
        latitude == (if u.Success? then u.value else old(latitude))
      ensures old(Valid()) ==> Valid()
    {
      if v == Str("") {
        return Fail(EmptyValue);
      }
      var f := ToFloat(v, parse);
      if f.Failure? {
        return Fail(f.error);
      }
      if !(f.value > -90.0 && f.value < 90.0) {
        return Fail(OutOfBounds);
      }
      latitude := Float(f.value);
      return Pass;
    }

    /** `longitude = v`. Stores `float(v)` iff it lies strictly between -180
        and 180; otherwise raises and leaves the longitude as it was. */
    method SetLongitude(v: Value, parse: string -> Option<real>) returns (r: Outcome<SetError>)
      modifies this`longitude
      ensures var u := LongitudeUpdate(v, parse);
        (r.Pass? <==> u.Success?) && (r.Fail? ==> r.error == u.error) &&
        longitude == (if u.Success? then u.value else old(longitude))
      ensures old(Valid()) ==> Valid()
    {
      if v == Str("") {
        return Fail(EmptyValue);
      }
      var f := ToFloat(v, parse);
      if f.Failure? {
        return Fail(f.error);
      }
      if !(f.value > -180.0 && f.value < 180.0) {
        return Fail(OutOfBounds);
      }
      longitude := Float(f.value);
      return Pass;
    }

    /** `radius = v`. Stores `float(v)` iff it is strictly positive; otherwise
        raises and leaves the radius as it was. */
    method SetRadius(v: Value, parse: string -> Option<real>) returns (r: Outcome<SetError>)
      modifies this`radius
      ensures var u := RadiusUpdate(v, parse);
        (r.Pass? <==> u.Success?) && (r.Fail? ==> r.error == u.error) &&
        radius == (if u.Success? then u.value else old(radius))
      ensures old(Valid()) ==> Valid()
    {
      if v == Str("") {
        return Fail(EmptyValue);
      }
      var f := ToFloat(v, parse);
      if f.Failure? {
        return Fail(f.error);
      }
      if !(f.value > 0.0) {
        return Fail(OutOfBounds);
      }
      radius := Float(f.value);
      return Pass;
    }

    /** Reading `geo_string`: rebuilt from the current latitude, longitude and
        radius on every read, so it is never stale, and cached in `geoString`.
        When the object is valid (so the three fields are numbers) and `show`
        renders no number with a comma, as Python's `str()` does not, the
        service reads the three numbers back out of it unchanged. */
    method ReadGeoString(show: Value -> string) returns (g: string)
      modifies this`geoString
      ensures g == GeoString.Encode(GeoFieldsOf(show))
      ensures geoString == Some(g)
      ensures Valid() && NumbersWithoutCommas(show) ==> GeoString.Decode(g) == Some(GeoFieldsOf(show))
    {
      g := show(latitude) + "," + show(longitude) + "," + show(radius) + "mi";
      geoString := Some(g);
      if Valid() && NumbersWithoutCommas(show) {
        GeoString.DecodeEncode(GeoFieldsOf(show));
      }
    }

    /** The local part of `search`: read the geo string, build the request,
        and store the service's answer `response` as the results. The
        "initialize geo string" error cannot be raised, because reading the
        geo string has just set the cache. */
    method Search(response: seq<Tweet>, show: Value -> string) returns (request: SearchRequest, results: seq<Tweet>)
      modifies this`geoString, this`searchResults
      ensures request == SearchRequest(searchTerm, GeoString.Encode(GeoFieldsOf(show)), resultType, count)
      ensures geoString == Some(request.geocode)
      ensures searchResults == Some(response) && results == response
    {
      var geo := ReadGeoString(show);
      assert geoString.Some?;
      request := SearchRequest(searchTerm, geo, resultType, count);
      searchResults := Some(response);
      results := response;
    }

    /** The text `write_search_results` writes: the blocks of the stored
        results, in order. Raises when no search has stored results yet. */
    method WriteSearchResults(repr: real -> string) returns (r: Result<string, WriteError>)
      ensures searchResults.None? ==> r == Failure(ResultsNotSet)
      ensures searchResults.Some? ==> r == Success(Render(searchResults.value, repr))
    {
      if searchResults.None? {
        return Failure(ResultsNotSet);
      }
      var results := searchResults.value;
      var text := "";
      var i := 0;
      while i < |results|
        invariant 0 <= i <= |results|
        invariant text == Render(results[..i], repr)
      {
        var sr := results[i];
        var coords := "";
        if sr.geo.Geo? {
          coords := CoordinatesLabel + CoordinatesText(sr.geo.coordinates, repr);
        }
        var s := BlockStart + sr.screenName + coords + TextSeparator + sr.text;
        BlockFromParts(sr, coords, repr);
        RenderStep(results, i, repr);
        text := text + s;
        i := i + 1;
      }
      assert results[..i] == results;
      return Success(text);
    }
  }

  /** A client of the contracts: an object built with no parameter file, a
      refused latitude, then a new radius. The refused value leaves the
      latitude alone, and the next geo string read shows the new radius. */
  method UsageExample(parse: string -> Option<real>, show: Value -> string)
  {
    var g := new GeoSearchClass();
    var ok := g.SetLatitude(Int(90), parse);
    assert ok == Fail(OutOfBounds) && g.latitude == DefaultLatitude;
    ok := g.SetRadius(Int(10), parse);
    assert ok.Pass? && g.radius == Float(10.0);
    var geo := g.ReadGeoString(show);
    assert geo == GeoString.Encode(GeoString.GeoFields(show(DefaultLatitude), show(DefaultLongitude), show(Float(10.0))));
    assert g.Valid();
  }
}
