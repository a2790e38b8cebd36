/** The plain-text rendering of search results that `write_search_results`
    writes to its output file: one block per tweet, in order. */
module ResultText {

  /** The fixed text around each block's parts. */
  const BlockStart: string := "\n\n\n@"
  const CoordinatesLabel: string := "     coordinates = "
  const TextSeparator: string := " : \n"

  /** The `coordinates` pair of a tweet's `geo` field: latitude, then longitude. */
  datatype Coordinates = Coordinates(latitude: real, longitude: real)

  /** The parts of a search result the text rendering reads: the author's
      screen name, the `geo` field when it is set, and the tweet's text. */
  datatype Tweet = Tweet(screenName: string, geo: GeoField, text: string)

  /** A tweet's `geo` field: unset (None or empty, which is falsy), or set. */
  datatype GeoField = NoGeo | Geo(coordinates: Coordinates)

  /** Python's `str()` of the two-element coordinates list, where `repr` is
      the interpreter's rendering of one float. */
  function CoordinatesText(c: Coordinates, repr: real -> string): (s: string)
    ensures |s| == |repr(c.latitude)| + |repr(c.longitude)| + 4
    ensures s[0] == '[' && s[|s| - 1] == ']'
    ensures s[1..1 + |repr(c.latitude)|] == repr(c.latitude)
  {
    "[" + repr(c.latitude) + ", " + repr(c.longitude) + "]"
  }

  /** The annotation after the screen name: present only when `geo` is set. */
  function Annotation(t: Tweet, repr: real -> string): (a: string)
    ensures t.geo.NoGeo? <==> a == ""
  {
    match t.geo
    case NoGeo => ""
    case Geo(c) => CoordinatesLabel + CoordinatesText(c, repr)
  }

  /** The block written for one tweet: three newlines and an at-sign, then
      the screen name, the annotation, " : " with a newline, and the text. */
  function Block(t: Tweet, repr: real -> string): (b: string)
    ensures BlockStart <= b && t.screenName <= b[|BlockStart|..]
  {
    BlockStart + t.screenName + Annotation(t, repr) + TextSeparator + t.text
  }

  /** The whole text: the blocks of all tweets, in order. It is empty exactly
      when there are no tweets. */
  function Render(tweets: seq<Tweet>, repr: real -> string): (text: string)
    ensures text == "" <==> tweets == []
  {
    if tweets == [] then "" else Block(tweets[0], repr) + Render(tweets[1..], repr)
  }

  /** Rendering distributes over concatenation: the text of `a + b` is the
      text of `a` followed by the text of `b`. */
  lemma {:induction false} RenderAppend(a: seq<Tweet>, b: seq<Tweet>, repr: real -> string)
    ensures Render(a + b, repr) == Render(a, repr) + Render(b, repr)
    decreases |a|
  {
    if a == [] {
      assert a + b == b;
    } else {
      assert (a + b)[1..] == a[1..] + b;
      RenderAppend(a[1..], b, repr);
    }
  }

  /** The block written from a tweet's parts, with the annotation computed
      by a test of its `geo` field, is the tweet's block. */
  lemma BlockFromParts(t: Tweet, coords: string, repr: real -> string)
    requires coords == if t.geo.Geo? then CoordinatesLabel + CoordinatesText(t.geo.coordinates, repr) else ""
    ensures BlockStart + t.screenName + coords + TextSeparator + t.text == Block(t, repr)
  {
    assert coords == Annotation(t, repr);
  }

  /** Adding one tweet at the end adds its block at the end of the text. */
  lemma {:induction false} RenderSnoc(tweets: seq<Tweet>, t: Tweet, repr: real -> string)
    ensures Render(tweets + [t], repr) == Render(tweets, repr) + Block(t, repr)
  {
    RenderAppend(tweets, [t], repr);
    assert Render([t], repr) == Block(t, repr) + Render([], repr) by {
      assert [t][1..] == [];
    }
  }

  /** One step of a left-to-right pass: the text of the first `i + 1` tweets
      is the text of the first `i` followed by the block of tweet `i`. */
  lemma {:induction false} RenderStep(tweets: seq<Tweet>, i: nat, repr: real -> string)
    requires i < |tweets|
    ensures Render(tweets[..i + 1], repr) == Render(tweets[..i], repr) + Block(tweets[i], repr)
  {
    assert tweets[..i + 1] == tweets[..i] + [tweets[i]];
    RenderSnoc(tweets[..i], tweets[i], repr);
  }

  /** Each block starts with three newlines and an at-sign before the screen
      name, ends with the tweet's text, and adds eight characters of fixed
      text to its parts. */
  lemma BlockShape(t: Tweet, repr: real -> string)
    ensures var b := Block(t, repr);
      b[..4 + |t.screenName|] == "\n\n\n@" + t.screenName &&
      b[|b| - |t.text|..] == t.text &&
      |b| == 8 + |t.screenName| + |Annotation(t, repr)| + |t.text|
  {
  }

  /** The text of the first `k` tweets is a prefix of the text of all of them,
      and the rest of the text is the text of the remaining tweets. */
  lemma {:induction false} RenderPrefix(tweets: seq<Tweet>, k: nat, repr: real -> string)
    requires k <= |tweets|
    ensures Render(tweets, repr) == Render(tweets[..k], repr) + Render(tweets[k..], repr)
  {
    var front, back := tweets[..k], tweets[k..];
    assert tweets == front + back;
    RenderAppend(front, back, repr);
  }
}
