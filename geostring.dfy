/** The geo string `"lat,lon,radiusmi"` that the search service reads as a
    circle around a point, and its reading back into the three rendered
    numbers. */
module GeoString {
  import opened PyRuntime

  /** The three numbers of a geo string, each already rendered as text. */
  datatype GeoFields = GeoFields(latitude: string, longitude: string, radius: string)

  /** The geo string built from the three rendered numbers, radius in miles. */
  function Encode(f: GeoFields): (g: string)
    ensures |g| == |f.latitude| + |f.longitude| + |f.radius| + 4
    ensures g[..|f.latitude|] == f.latitude && g[|f.latitude|] == ','
    ensures g[|g| - 2..] == "mi"
  {
    f.latitude + "," + f.longitude + "," + f.radius + "mi"
  }

  /** The pieces of `s` between its commas, in order. */
  function Split(s: string): (parts: seq<string>)
    ensures |parts| >= 1
  {
    if s == [] then [""]
    else if s[0] == ',' then [""] + Split(s[1..])
    else
      var rest := Split(s[1..]);
      [[s[0]] + rest[0]] + rest[1..]
  }

  /** The pieces joined back with commas. */
  function Join(parts: seq<string>): string
    requires |parts| >= 1
  {
    if |parts| == 1 then parts[0] else parts[0] + "," + Join(parts[1..])
  }

  /** Reads a geo string back: the text before the trailing "mi", cut at its
      two commas. None when the string does not have that shape. */
  function Decode(g: string): Option<GeoFields>
  {
    if |g| < 2 || g[|g| - 2..] != "mi" then None
    else
      var parts := Split(g[..|g| - 2]);
      if |parts| == 3 then Some(GeoFields(parts[0], parts[1], parts[2])) else None
  }

  /** A piece without a comma is a whole piece: splitting `a + "," + s` yields
      `a` followed by the pieces of `s`. */
  lemma {:induction false} SplitAfterPiece(a: string, s: string)
    requires ',' !in a
    ensures Split(a + "," + s) == [a] + Split(s)
    decreases |a|
  {
    if a == [] {
      assert a + "," + s == [','] + s;
      assert ([','] + s)[1..] == s;
    } else {
      assert (a + "," + s)[1..] == a[1..] + "," + s;
      SplitAfterPiece(a[1..], s);
      assert [a[0]] + a[1..] == a;
    }
  }

  /** A string without a comma is its own only piece. */
  lemma {:induction false} SplitWithoutComma(a: string)
    requires ',' !in a
    ensures Split(a) == [a]
    decreases |a|
  {
    if a != [] {
      SplitWithoutComma(a[1..]);
      assert [a[0]] + a[1..] == a;
    }
  }

  /** Splitting loses nothing: the pieces are comma-free and join back to `s`. */
  lemma {:induction false} SplitJoin(s: string)
    ensures Join(Split(s)) == s
    ensures forall i :: 0 <= i < |Split(s)| ==> ',' !in Split(s)[i]
    decreases |s|
  {
    if s != [] {
      SplitJoin(s[1..]);
      var rest := Split(s[1..]);
      if s[0] == ',' {
        assert Split(s)[1..] == rest;
        assert s == [','] + s[1..];
      } else {
        var parts := Split(s);
        assert parts[0] == [s[0]] + rest[0];
        assert parts[1..] == rest[1..];
        forall i | 0 <= i < |parts|
          ensures ',' !in parts[i]
        {
          if i > 0 { assert parts[i] == rest[i]; }
        }
        if |rest| == 1 {
          assert s == [s[0]] + rest[0];
        } else {
          assert Join(rest) == rest[0] + "," + Join(rest[1..]);
          assert s == [s[0]] + s[1..];
        }
      }
    }
  }

  /** Round trip: the three numbers come back out of the geo string, provided
      none of their renderings holds a comma. */
  lemma DecodeEncode(f: GeoFields)
    requires ',' !in f.latitude && ',' !in f.longitude && ',' !in f.radius
    ensures Decode(Encode(f)) == Some(f)
  {
    var body := f.latitude + "," + f.longitude + "," + f.radius;
    assert Encode(f) == body + "mi";
    assert (body + "mi")[..|body + "mi"| - 2] == body;
    assert (body + "mi")[|body + "mi"| - 2..] == "mi";
    SplitAfterPiece(f.latitude, f.longitude + "," + f.radius);
    assert body == f.latitude + "," + (f.longitude + "," + f.radius);
    SplitAfterPiece(f.longitude, f.radius);
    SplitWithoutComma(f.radius);
  }

  /** The other direction: a string that decodes is exactly the geo string of
      what it decodes to, and each decoded number is comma-free. */
  lemma EncodeDecode(g: string)
    requires Decode(g).Some?
    ensures Encode(Decode(g).value) == g
    ensures var f := Decode(g).value; ',' !in f.latitude && ',' !in f.longitude && ',' !in f.radius
  {
    var body := g[..|g| - 2];
    var parts := Split(body);
    SplitJoin(body);
    assert ',' !in parts[0] && ',' !in parts[1] && ',' !in parts[2];
    assert Join(parts[2..]) == parts[2];
    assert Join(parts[1..]) == parts[1] + "," + parts[2] by {
      assert parts[1..][1..] == parts[2..];
    }
    assert g == body + g[|g| - 2..];
  }
}
