/** `parseCoordinates` of the KMZ import: a KML `<coordinates>` text to (lon, lat) pairs. */
module Coordinates {
  import opened Wrappers
  import opened Text
  import opened JsNumber
  import opened Seqs

  /** A parsed (longitude, latitude) pair. `parseFloat` never yields NaN here, but
      it may yield an infinity ("Infinity,5" is accepted). */
  datatype Coord = Coord(lon: Num, lat: Num)

  /** The pair one whitespace-free token contributes: it needs at least two
      comma-separated fields whose first two parse as numbers; a third field
      (the altitude) is ignored. */
  function TupleOf(part: string): (c: Option<Coord>)
    ensures c.Some? ==> c.value.lon != NaN && c.value.lat != NaN
  {
    var values := Split(part, ',');
    if |values| >= 2 then
      var lon := ParseFloat(values[0]);
      var lat := ParseFloat(values[1]);
      if lon != NaN && lat != NaN then Some(Coord(lon, lat)) else None
    else None
  }

  /** The pairs of a list of tokens, in token order, skipping the tokens that do
      not give one. */
  function Collect(parts: seq<string>): (r: seq<Coord>)
    ensures |r| <= |parts|
  {
    Keep(parts, TupleOf)
  }

  /** The result of `parseCoordinates(s)`. */
  function CoordinatesOf(s: string): seq<Coord>
  {
    Collect(SplitWs(Trim(s)))
  }

  /** The body of `parseCoordinates`' loop for one token: split on commas and
      parse the first two fields. */
  method ReadPair(part: string) returns (c: Option<Coord>)
    ensures c == TupleOf(part)
  {
    var values := Split(part, ',');
    if |values| < 2 {
      return None;
    }
    var lon := ParseFloat(values[0]);
    var lat := ParseFloat(values[1]);
    if lon != NaN && lat != NaN {
      return Some(Coord(lon, lat));
    }
    return None;
  }

  /** `parseCoordinates`: trims, splits on white-space runs, and pushes the pair of
      every token that has one. */
  method ParseCoordinates(coordString: string) returns (coords: seq<Coord>)
    ensures coords == CoordinatesOf(coordString)
  {
    var parts := SplitWs(Trim(coordString));
    coords := [];
    for i := 0 to |parts|
      invariant coords == Collect(parts[..i])
    {
      var pair := ReadPair(parts[i]);
      KeepStep(parts, i, TupleOf);
      if pair.Some? {
        coords := coords + [pair.value];
      }
    }
    assert parts[..|parts|] == parts;
  }

  /** Token lists concatenate: the pairs of `a + b` are those of `a` followed by
      those of `b`, so every valid token contributes exactly one pair, in order. */
  lemma CollectAppend(a: seq<string>, b: seq<string>)
    ensures Collect(a + b) == Collect(a) + Collect(b)
  {
    KeepAppend(a, b, TupleOf);
  }

  /** A single token contributes its pair when it has one and nothing otherwise. */
  lemma CollectOne(t: string)
    ensures Collect([t]) == if TupleOf(t).Some? then [TupleOf(t).value] else []
  {
    KeepOne(t, TupleOf);
  }

  /** A token without a comma never gives a pair. */
  lemma NoCommaNoPair(t: string)
    requires ',' !in t
    ensures TupleOf(t).None?
  {
    assert Split(t, ',') == [t];
  }

  /** Only the first two fields decide the pair. */
  lemma TupleOfFields(s1: string, s2: string)
    requires |Split(s1, ',')| >= 2 && |Split(s2, ',')| >= 2
    requires Split(s1, ',')[0] == Split(s2, ',')[0] && Split(s1, ',')[1] == Split(s2, ',')[1]
    ensures TupleOf(s1) == TupleOf(s2)
  {
  }

  lemma SplitWithAltitude(lon: string, lat: string, alt: string)
    requires ',' !in lon && ',' !in lat
    ensures Split(lon + "," + lat + "," + alt, ',') == [lon, lat] + Split(alt, ',')
  {
    assert lon + "," + lat + "," + alt == lon + [','] + (lat + [','] + alt);
    SplitAtSeparator(lon, ',', lat + [','] + alt);
    SplitAtSeparator(lat, ',', alt);
  }

  lemma SplitWithoutAltitude(lon: string, lat: string)
    requires ',' !in lon && ',' !in lat
    ensures Split(lon + "," + lat, ',') == [lon, lat]
  {
    assert lon + "," + lat == lon + [','] + lat;
    SplitAtSeparator(lon, ',', lat);
    assert Split(lat, ',') == [lat];
  }

  /** The altitude field does not change the pair. */
  lemma AltitudeIgnored(lon: string, lat: string, alt: string)
    requires ',' !in lon && ',' !in lat
    ensures TupleOf(lon + "," + lat + "," + alt) == TupleOf(lon + "," + lat)
  {
    SplitWithAltitude(lon, lat, alt);
    SplitWithoutAltitude(lon, lat);
    TupleOfFields(lon + "," + lat + "," + alt, lon + "," + lat);
  }

  /** Tokens separated by single spaces: one pair per token that has one, in order. */
  lemma CoordinatesOfWords(tokens: seq<string>)
    requires |tokens| >= 1 && IsWordList(tokens)
    ensures CoordinatesOf(Join(tokens, " ")) == Collect(tokens)
  {
    JoinTrimmed(tokens);
    SplitWsJoin(tokens);
  }

  lemma PairOfDigits(lon: string, lat: string)
    requires IsDigits(lon) && IsDigits(lat)
    ensures TupleOf(lon + "," + lat) == Some(Coord(Finite(DigitsValue(lon) as real), Finite(DigitsValue(lat) as real)))
  {
    assert ',' !in lon && ',' !in lat;
    assert lon + "," + lat == lon + [','] + lat;
    SplitAtSeparator(lon, ',', lat);
    assert Split(lat, ',') == [lat];
    ParseFloatDigits(lon);
    ParseFloatDigits(lat);
  }

  lemma ExampleTokens(s: string, tokens: seq<string>)
    requires s == "10,20 bad 30,40" && tokens == ["10,20", "bad", "30,40"]
    ensures Join(tokens, " ") == s && IsWordList(tokens)
  {
    assert Join(tokens[2..], " ") == "30,40";
    assert Join(tokens[1..], " ") == "bad 30,40";
    assert NoSpace(tokens[0]) && NoSpace(tokens[1]) && NoSpace(tokens[2]);
  }

  lemma ExamplePair(token: string, lon: string, lat: string, x: nat, y: nat)
    requires token == lon + "," + lat
    requires IsDigits(lon) && IsDigits(lat) && DigitsValue(lon) == x && DigitsValue(lat) == y
    ensures TupleOf(token) == Some(Coord(Finite(x as real), Finite(y as real)))
  {
    PairOfDigits(lon, lat);
  }

  lemma TwoDigits(d: string, x: nat)
    requires |d| == 2 && IsDigit(d[0]) && IsDigit(d[1]) && x == 10 * DigitValue(d[0]) + DigitValue(d[1])
    ensures IsDigits(d) && DigitsValue(d) == x
  {
    assert d[..1][..0] == [];
    assert d[..1] == [d[0]];
    assert d[..|d| - 1] == d[..1];
    assert DigitsValue(d[..1]) == 10 * DigitsValue(d[..1][..0]) + DigitValue(d[0]);
    assert DigitsValue(d) == 10 * DigitsValue(d[..1]) + DigitValue(d[1]);
  }

  /** A token of two two-digit fields gives their values. */
  lemma ExampleTuple(t: string, x: nat, y: nat)
    requires |t| == 5 && t[2] == ','
    requires IsDigit(t[0]) && IsDigit(t[1]) && IsDigit(t[3]) && IsDigit(t[4])
    requires x == 10 * DigitValue(t[0]) + DigitValue(t[1]) && y == 10 * DigitValue(t[3]) + DigitValue(t[4])
    ensures TupleOf(t) == Some(Coord(Finite(x as real), Finite(y as real)))
  {
    var lon, lat := t[..2], t[3..];
    TwoDigits(lon, x);
    TwoDigits(lat, y);
    assert t == lon + "," + lat;
    ExamplePair(t, lon, lat, x, y);
  }

  /** Three tokens of which the middle one gives no pair. */
  lemma CollectSkipsMiddle(t0: string, t1: string, t2: string, c0: Coord, c2: Coord)
    requires TupleOf(t0) == Some(c0) && TupleOf(t1).None? && TupleOf(t2) == Some(c2)
    ensures Collect([t0, t1, t2]) == [c0, c2]
  {
    KeepThree(t0, t1, t2, TupleOf);
    assert Kept(t0, TupleOf) == [c0];
    assert Kept(t1, TupleOf) == [];
    assert Kept(t2, TupleOf) == [c2];
  }

  lemma ExampleFirstToken(t: string)
    requires t == "10,20"
    ensures TupleOf(t) == Some(Coord(Finite(10.0), Finite(20.0)))
  {
    ExampleTuple(t, 10, 20);
  }

  lemma ExampleMiddleToken(t: string)
    requires t == "bad"
    ensures TupleOf(t).None?
  {
    assert ',' !in t by {
      assert t[0] != ',' && t[1] != ',' && t[2] != ',';
    }
    NoCommaNoPair(t);
  }

  lemma ExampleLastToken(t: string)
    requires t == "30,40"
    ensures TupleOf(t) == Some(Coord(Finite(30.0), Finite(40.0)))
  {
    ExampleTuple(t, 30, 40);
  }

  lemma ExampleCollect(tokens: seq<string>)
    requires tokens == ["10,20", "bad", "30,40"]
    ensures Collect(tokens) == [Coord(Finite(10.0), Finite(20.0)), Coord(Finite(30.0), Finite(40.0))]
  {
    var t0, t1, t2 := tokens[0], tokens[1], tokens[2];
    ExampleFirstToken(t0);
    ExampleMiddleToken(t1);
    ExampleLastToken(t2);
    assert tokens == [t0, t1, t2];
    CollectSkipsMiddle(t0, t1, t2, Coord(Finite(10.0), Finite(20.0)), Coord(Finite(30.0), Finite(40.0)));
  }

  /** The worked example: the malformed middle token is dropped silently. */
  lemma ParseExample(s: string)
    requires s == "10,20 bad 30,40"
    ensures CoordinatesOf(s) == [Coord(Finite(10.0), Finite(20.0)), Coord(Finite(30.0), Finite(40.0))]
  {
    var tokens := ["10,20", "bad", "30,40"];
    ExampleTokens(s, tokens);
    CoordinatesOfWords(tokens);
    ExampleCollect(tokens);
  }

  /** Trimming before parsing (as both callers do) changes nothing. */
  lemma CoordinatesOfTrimmed(s: string)
    ensures CoordinatesOf(Trim(s)) == CoordinatesOf(s)
  {
    TrimIdempotent(s);
  }
}
