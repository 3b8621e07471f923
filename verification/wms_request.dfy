/**
 * The two request URLs the WMS tile layer builds: GetCapabilities
 * (section 7.2 of the OGC Web Map Service 1.1.1 specification) and GetMap
 * (section 7.3 of the same specification). A request is the server's base
 * URL, a `?` added only when the base URL does not already end with one, and
 * a query of `KEY=value` fields joined by `&`, in a fixed order.
 *
 * The URLs are built by plain concatenation, as in the source. `Query` and
 * `ParseQuery` are the independent description of a query string as a list
 * of parameters; the lemmas say that each built URL is the base URL, one
 * `?`, and a query that reads back as the intended parameter list.
 */
module WmsRequest {
  import opened Text

  /** One `KEY=value` field of a query string. */
  datatype Param = Param(key: string, value: string)

  /** A non-empty list of parameters, in the order they appear in the query. */
  datatype Params = Last(p: Param) | More(p: Param, rest: Params)

  /** The four corners of a GetMap bounding box, each as the text of its number. */
  datatype BBox = BBox(minLon: string, minLat: string, maxLon: string, maxLat: string)

  /** The base URL followed by the `?` that introduces the query, added only when missing. */
  function QueryPrefix(base: string): (p: string)
    ensures EndsWithChar(p, '?')
    ensures |base| <= |p| <= |base| + 1 && p[..|base|] == base
    ensures |p| == |base| <==> EndsWithChar(base, '?')
  {
    base + (if EndsWithChar(base, '?') then "" else "?")
  }

  function Field(p: Param): string
  {
    p.key + "=" + p.value
  }

  /** The query string of a parameter list: fields in order, joined by `&`. */
  function Query(ps: Params): string
  {
    match ps
    case Last(p) => Field(p)
    case More(p, rest) => Field(p) + "&" + Query(rest)
  }

  /** A field read back: the key up to the first `=`, the value after it. */
  function ParseField(f: string): Param
  {
    if '=' in f then
      var i := IndexOf(f, '=');
      Param(f[..i], f[i + 1..])
    else Param(f, "")
  }

  function ParseFields(fs: seq<string>): Params
    requires |fs| >= 1
  {
    if |fs| == 1 then Last(ParseField(fs[0]))
    else More(ParseField(fs[0]), ParseFields(fs[1..]))
  }

  /** A query string read back as its list of parameters. */
  function ParseQuery(q: string): Params
  {
    ParseFields(Split(q, '&'))
  }

  /** A parameter whose key and value survive the round trip through a query string. */
  predicate ReadableParam(p: Param)
  {
    '&' !in p.key && '=' !in p.key && '&' !in p.value
  }

  predicate Readable(ps: Params)
  {
    ReadableParam(ps.p) && (ps.More? ==> Readable(ps.rest))
  }

  /** No key and no value holds `c`, and `c` is not one of the delimiters. */
  predicate Avoids(ps: Params, c: char)
  {
    c != '=' && c != '&' && c !in ps.p.key && c !in ps.p.value && (ps.More? ==> Avoids(ps.rest, c))
  }

  lemma ParseFieldOfField(p: Param)
    requires '=' !in p.key
    ensures ParseField(Field(p)) == p
  {
    var f := Field(p);
    IndexOfAfterPrefix(p.key, '=', p.value);
    assert f == p.key + ['='] + p.value;
    assert f[..|p.key|] == p.key;
    assert f[|p.key| + 1..] == p.value;
  }

  /** Reading back a query string gives the parameter list it was built from. */
  lemma {:induction false} QueryRoundTrip(ps: Params)
    requires Readable(ps)
    ensures ParseQuery(Query(ps)) == ps
  {
    var head := Field(ps.p);
    ParseFieldOfField(ps.p);
    assert '&' !in head;
    match ps
    case Last(p) =>
      assert Split(head, '&') == [head];
    case More(p, rest) =>
      var tail := Query(rest);
      assert Query(ps) == head + ['&'] + tail;
      SplitAfterPiece(head, '&', tail);
      QueryRoundTrip(rest);
      var fs := Split(tail, '&');
      assert ([head] + fs)[1..] == fs;
  }

  lemma {:induction false} QueryAvoids(ps: Params, c: char)
    requires Avoids(ps, c)
    ensures c !in Query(ps)
  {
    assert c !in Field(ps.p);
    if ps.More? {
      QueryAvoids(ps.rest, c);
    }
  }

  /** A base URL free of `??` stays free of it once a query without `?` is appended. */
  lemma NoDoubledQuestionMark(base: string, q: string)
    requires !HasDoubledQuestionMark(base) && '?' !in q
    ensures !HasDoubledQuestionMark(QueryPrefix(base) + q)
  {
    var p := QueryPrefix(base);
    var s := p + q;
    if HasDoubledQuestionMark(s) {
      var i :| 0 <= i < |s| - 1 && s[i] == '?' && s[i + 1] == '?';
      if i + 1 < |base| {
        assert false;
      } else if i + 1 < |p| {
        assert false;
      } else {
        assert false;
      }
    }
  }

  // Building blocks for matching a query, field by field, against the text
  // the source concatenates.

  lemma FirstField(p: Param, rest: Params, piece: string, restText: string)
    requires piece == p.key + "=" + p.value
    requires "&" + Query(rest) == restText
    ensures Query(More(p, rest)) == piece + restText
  {
  }

  lemma NextField(p: Param, rest: Params, piece: string, restText: string)
    requires piece == "&" + p.key + "=" + p.value
    requires "&" + Query(rest) == restText
    ensures "&" + Query(More(p, rest)) == piece + restText
  {
  }

  lemma LastField(p: Param, piece: string)
    requires piece == "&" + p.key + "=" + p.value
    ensures "&" + Query(Last(p)) == piece
  {
  }

  lemma Piece(lit: string, key: string, value: string)
    requires lit == "&" + key + "="
    ensures lit + value == "&" + key + "=" + value
  {
  }

  /** The GetCapabilities parameters, in the order the source emits them. */
  function CapabilitiesParameters(): Params
  {
    More(Param("SERVICE", "WMS"), More(Param("REQUEST", "GetCapabilities"), Last(Param("VERSION", "1.1.1"))))
  }

  /** The GetCapabilities request on `base`. */
  function CapabilitiesUrl(base: string): (url: string)
    ensures url == QueryPrefix(base) + Query(CapabilitiesParameters())
  {
    var ps := CapabilitiesParameters();
    LastField(Param("VERSION", "1.1.1"), "&VERSION=1.1.1");
    NextField(ps.rest.p, ps.rest.rest, "&REQUEST=GetCapabilities", "&VERSION=1.1.1");
    FirstField(ps.p, ps.rest, "SERVICE=WMS", "&REQUEST=GetCapabilities" + "&VERSION=1.1.1");
    // the source's literal text, split at each `&`
    QueryPrefix(base) + ("SERVICE=WMS" + ("&REQUEST=GetCapabilities" + "&VERSION=1.1.1"))
  }

  /** The GetCapabilities URL starts with the base URL and its query reads back as SERVICE, REQUEST, VERSION. */
  lemma CapabilitiesUrlReadsBack(base: string)
    ensures CapabilitiesUrl(base)[..|base|] == base
    ensures ParseQuery(CapabilitiesUrl(base)[|QueryPrefix(base)|..]) == CapabilitiesParameters()
  {
    var url := CapabilitiesUrl(base);
    assert url[|QueryPrefix(base)|..] == Query(CapabilitiesParameters());
    FixedParamsPlain();
    QueryRoundTrip(CapabilitiesParameters());
  }

  /** The GetCapabilities URL never introduces a `??`. */
  lemma CapabilitiesUrlNoDoubledQuestionMark(base: string)
    requires !HasDoubledQuestionMark(base)
    ensures !HasDoubledQuestionMark(CapabilitiesUrl(base))
  {
    FixedParamsPlain();
    QueryAvoids(CapabilitiesParameters(), '?');
    NoDoubledQuestionMark(base, Query(CapabilitiesParameters()));
  }

  /** The BBOX value: the four corners joined by commas, minimum corner first. */
  function BBoxValue(b: BBox): string
  {
    b.minLon + "," + (b.minLat + "," + (b.maxLon + "," + b.maxLat))
  }

  /** The BBOX value reads back as its four numbers, in the order minLon, minLat, maxLon, maxLat. */
  lemma BBoxRoundTrip(b: BBox)
    requires ',' !in b.minLon && ',' !in b.minLat && ',' !in b.maxLon && ',' !in b.maxLat
    ensures Split(BBoxValue(b), ',') == [b.minLon, b.minLat, b.maxLon, b.maxLat]
  {
    assert "," == [','];
    SplitFour(b.minLon, b.minLat, b.maxLon, b.maxLat, ',');
  }

  lemma SplitFour(a: string, b: string, c: string, d: string, sep: char)
    requires sep !in a && sep !in b && sep !in c && sep !in d
    ensures Split(a + [sep] + (b + [sep] + (c + [sep] + d)), sep) == [a, b, c, d]
  {
    SplitThree(b, c, d, sep);
    SplitAfterPiece(a, sep, b + [sep] + (c + [sep] + d));
  }

  lemma SplitThree(b: string, c: string, d: string, sep: char)
    requires sep !in b && sep !in c && sep !in d
    ensures Split(b + [sep] + (c + [sep] + d), sep) == [b, c, d]
  {
    SplitTwo(c, d, sep);
    SplitAfterPiece(b, sep, c + [sep] + d);
  }

  lemma SplitTwo(c: string, d: string, sep: char)
    requires sep !in c && sep !in d
    ensures Split(c + [sep] + d, sep) == [c, d]
  {
    SplitAfterPiece(c, sep, d);
  }

  /**
   * The GetMap parameters, in the order the source emits them: both WIDTH and
   * HEIGHT are the tile resolution, STYLES is empty, SRS is the layer's
   * coordinate system name.
   */
  function GetMapParameters(layers: string, srsName: string, bbox: BBox, resolution: nat, format: string): Params
  {
    More(Param("SERVICE", "WMS"), More(Param("REQUEST", "GetMap"), More(Param("VERSION", "1.1.1"),
      GetMapMiddle(layers, srsName, GetMapTail(BBoxValue(bbox), DecimalString(resolution), format)))))
  }

  /** The parameters from LAYERS to SRS, then `tail`. */
  function GetMapMiddle(layers: string, srsName: string, tail: Params): Params
  {
    More(Param("LAYERS", layers), More(Param("STYLES", ""), More(Param("SRS", srsName), tail)))
  }

  /** The parameters from BBOX on. */
  function GetMapTail(bbox: string, width: string, format: string): Params
  {
    More(Param("BBOX", bbox), More(Param("WIDTH", width), More(Param("HEIGHT", width), Last(Param("FORMAT", format)))))
  }

  /** The GetMap request on `base` for one tile. */
  function GetMapUrl(base: string, layers: string, srsName: string, bbox: BBox, resolution: nat, format: string): (url: string)
    ensures url == QueryPrefix(base) + Query(GetMapParameters(layers, srsName, bbox, resolution, format))
  {
    var b := BBoxValue(bbox);
    var w := DecimalString(resolution);
    GetMapQuery(layers, srsName, b, w, format);
    Regroup(QueryPrefix(base), "SERVICE=WMS", "&REQUEST=GetMap", "&VERSION=1.1.1", "&LAYERS=", layers,
      "&STYLES=", "&SRS=", srsName, "&BBOX=", b, "&WIDTH=", w, "&HEIGHT=", "&FORMAT=", format);
    // the source's literal text, split at each `&`
    QueryPrefix(base) + "SERVICE=WMS" + "&REQUEST=GetMap" + "&VERSION=1.1.1" + "&LAYERS=" + layers
      + "&STYLES=" + "&SRS=" + srsName + "&BBOX=" + b
      + "&WIDTH=" + w + "&HEIGHT=" + w + "&FORMAT=" + format
  }

  function GetMapTailText(bbox: string, width: string, format: string): string
  {
    ("&BBOX=" + bbox) + (("&WIDTH=" + width) + (("&HEIGHT=" + width) + ("&FORMAT=" + format)))
  }

  function GetMapMiddleText(layers: string, srsName: string, tailText: string): string
  {
    ("&LAYERS=" + layers) + ("&STYLES=" + (("&SRS=" + srsName) + tailText))
  }

  lemma GetMapTailQuery(bbox: string, width: string, format: string)
    ensures "&" + Query(GetMapTail(bbox, width, format)) == GetMapTailText(bbox, width, format)
  {
    var t := GetMapTail(bbox, width, format);
    Piece("&FORMAT=", "FORMAT", format);
    LastField(Param("FORMAT", format), "&FORMAT=" + format);
    var r := "&FORMAT=" + format;
    Piece("&HEIGHT=", "HEIGHT", width);
    NextField(Param("HEIGHT", width), t.rest.rest.rest, "&HEIGHT=" + width, r);
    r := ("&HEIGHT=" + width) + r;
    Piece("&WIDTH=", "WIDTH", width);
    NextField(Param("WIDTH", width), t.rest.rest, "&WIDTH=" + width, r);
    r := ("&WIDTH=" + width) + r;
    Piece("&BBOX=", "BBOX", bbox);
    NextField(Param("BBOX", bbox), t.rest, "&BBOX=" + bbox, r);
  }

  lemma GetMapMiddleQuery(layers: string, srsName: string, tail: Params, tailText: string)
    requires "&" + Query(tail) == tailText
    ensures "&" + Query(GetMapMiddle(layers, srsName, tail)) == GetMapMiddleText(layers, srsName, tailText)
  {
    var m := GetMapMiddle(layers, srsName, tail);
    Piece("&SRS=", "SRS", srsName);
    NextField(Param("SRS", srsName), tail, "&SRS=" + srsName, tailText);
    var r := ("&SRS=" + srsName) + tailText;
    NextField(Param("STYLES", ""), m.rest.rest, "&STYLES=", r);
    r := "&STYLES=" + r;
    Piece("&LAYERS=", "LAYERS", layers);
    NextField(Param("LAYERS", layers), m.rest, "&LAYERS=" + layers, r);
  }

  lemma GetMapHead(mid: Params, midText: string)
    requires "&" + Query(mid) == midText
    ensures Query(More(Param("SERVICE", "WMS"), More(Param("REQUEST", "GetMap"), More(Param("VERSION", "1.1.1"), mid))))
      == "SERVICE=WMS" + ("&REQUEST=GetMap" + ("&VERSION=1.1.1" + midText))
  {
    var v := More(Param("VERSION", "1.1.1"), mid);
    NextField(Param("VERSION", "1.1.1"), mid, "&VERSION=1.1.1", midText);
    NextField(Param("REQUEST", "GetMap"), v, "&REQUEST=GetMap", "&VERSION=1.1.1" + midText);
    FirstField(Param("SERVICE", "WMS"), More(Param("REQUEST", "GetMap"), v), "SERVICE=WMS",
      "&REQUEST=GetMap" + ("&VERSION=1.1.1" + midText));
  }

  /** The GetMap query, field by field, is the text the source concatenates. */
  lemma GetMapQuery(layers: string, srsName: string, b: string, w: string, format: string)
    ensures Query(More(Param("SERVICE", "WMS"), More(Param("REQUEST", "GetMap"), More(Param("VERSION", "1.1.1"),
        GetMapMiddle(layers, srsName, GetMapTail(b, w, format))))))
      == "SERVICE=WMS" + ("&REQUEST=GetMap" + ("&VERSION=1.1.1" + GetMapMiddleText(layers, srsName, GetMapTailText(b, w, format))))
  {
    GetMapTailQuery(b, w, format);
    GetMapMiddleQuery(layers, srsName, GetMapTail(b, w, format), GetMapTailText(b, w, format));
    GetMapHead(GetMapMiddle(layers, srsName, GetMapTail(b, w, format)), GetMapMiddleText(layers, srsName, GetMapTailText(b, w, format)));
  }

  /** Concatenation regrouped from the left, as the source writes it, to the right, as the fields nest. */
  lemma Regroup(p: string, s0: string, s1: string, s2: string, l3: string, layers: string, s4: string,
                l5: string, srs: string, l6: string, b: string, l7: string, w: string, l8: string, l9: string, format: string)
    ensures p + s0 + s1 + s2 + l3 + layers + s4 + l5 + srs + l6 + b + l7 + w + l8 + w + l9 + format
      == p + (s0 + (s1 + (s2 + ((l3 + layers) + (s4 + ((l5 + srs) + ((l6 + b) + ((l7 + w) + ((l8 + w) + (l9 + format))))))))))
  {
  }

  /**
   * When no caller-supplied value holds a `&`, the GetMap URL starts with the
   * base URL and its query reads back as SERVICE, REQUEST, VERSION, LAYERS,
   * STYLES, SRS, BBOX, WIDTH, HEIGHT, FORMAT with the given values.
   */
  lemma GetMapUrlReadsBack(base: string, layers: string, srsName: string, bbox: BBox, resolution: nat, format: string)
    requires '&' !in layers && '&' !in srsName && '&' !in BBoxValue(bbox) && '&' !in format
    ensures GetMapUrl(base, layers, srsName, bbox, resolution, format)[..|base|] == base
    ensures ParseQuery(GetMapUrl(base, layers, srsName, bbox, resolution, format)[|QueryPrefix(base)|..])
      == GetMapParameters(layers, srsName, bbox, resolution, format)
  {
    var ps := GetMapParameters(layers, srsName, bbox, resolution, format);
    var url := GetMapUrl(base, layers, srsName, bbox, resolution, format);
    assert url[|QueryPrefix(base)|..] == Query(ps);
    GetMapReadable(layers, srsName, bbox, resolution, format);
    QueryRoundTrip(ps);
  }

  /** The GetMap URL never introduces a `??` when no caller-supplied value holds a `?`. */
  lemma GetMapUrlNoDoubledQuestionMark(base: string, layers: string, srsName: string, bbox: BBox, resolution: nat, format: string)
    requires !HasDoubledQuestionMark(base)
    requires '?' !in layers && '?' !in srsName && '?' !in BBoxValue(bbox) && '?' !in format
    ensures !HasDoubledQuestionMark(GetMapUrl(base, layers, srsName, bbox, resolution, format))
  {
    var ps := GetMapParameters(layers, srsName, bbox, resolution, format);
    GetMapAvoidsQuestionMark(layers, srsName, bbox, resolution, format);
    QueryAvoids(ps, '?');
    NoDoubledQuestionMark(base, Query(ps));
  }

  /** The decimal text of a number holds neither `&` nor `?`. */
  lemma DecimalAvoidsDelimiters(n: nat)
    ensures '&' !in DecimalString(n) && '?' !in DecimalString(n)
  {
    var w := DecimalString(n);
    assert forall k :: 0 <= k < |w| ==> w[k] != '&' && w[k] != '?';
  }

  /** The fixed keys and values of both requests hold neither `&`, `=` nor `?`. */
  lemma FixedParamsPlain()
    ensures Plain(Param("SERVICE", "WMS")) && Plain(Param("REQUEST", "GetMap")) && Plain(Param("REQUEST", "GetCapabilities"))
    ensures Plain(Param("VERSION", "1.1.1")) && Plain(Param("STYLES", ""))
    ensures PlainKey("LAYERS") && PlainKey("SRS") && PlainKey("BBOX") && PlainKey("WIDTH") && PlainKey("HEIGHT") && PlainKey("FORMAT")
  {
    PlainLiteral("SERVICE"); PlainLiteral("WMS"); PlainLiteral("REQUEST"); PlainLiteral("GetMap");
    PlainLiteral("GetCapabilities"); PlainLiteral("VERSION"); PlainLiteral("1.1.1"); PlainLiteral("STYLES");
    PlainLiteral("LAYERS"); PlainLiteral("SRS"); PlainLiteral("BBOX"); PlainLiteral("WIDTH");
    PlainLiteral("HEIGHT"); PlainLiteral("FORMAT");
  }

  /** A string of letters, digits and dots is plain. */
  lemma PlainLiteral(s: string)
    requires forall k :: 0 <= k < |s| ==> 'A' <= s[k] <= 'Z' || 'a' <= s[k] <= 'z' || '0' <= s[k] <= '9' || s[k] == '.'
    ensures PlainKey(s)
  {
  }

  predicate PlainKey(s: string)
  {
    '&' !in s && '=' !in s && '?' !in s
  }

  predicate Plain(p: Param)
  {
    PlainKey(p.key) && '&' !in p.value && '?' !in p.value
  }

  lemma GetMapReadable(layers: string, srsName: string, bbox: BBox, resolution: nat, format: string)
    requires '&' !in layers && '&' !in srsName && '&' !in BBoxValue(bbox) && '&' !in format
    ensures Readable(GetMapParameters(layers, srsName, bbox, resolution, format))
  {
    FixedParamsPlain();
    DecimalAvoidsDelimiters(resolution);
    var t := GetMapTail(BBoxValue(bbox), DecimalString(resolution), format);
    assert Readable(t.rest.rest);
    assert Readable(t);
    var m := GetMapMiddle(layers, srsName, t);
    assert Readable(m.rest);
    assert Readable(m);
  }

  lemma GetMapAvoidsQuestionMark(layers: string, srsName: string, bbox: BBox, resolution: nat, format: string)
    requires '?' !in layers && '?' !in srsName && '?' !in BBoxValue(bbox) && '?' !in format
    ensures Avoids(GetMapParameters(layers, srsName, bbox, resolution, format), '?')
  {
    FixedParamsPlain();
    DecimalAvoidsDelimiters(resolution);
    var t := GetMapTail(BBoxValue(bbox), DecimalString(resolution), format);
    assert Avoids(t.rest.rest, '?');
    assert Avoids(t, '?');
    var m := GetMapMiddle(layers, srsName, t);
    assert Avoids(m.rest, '?');
    assert Avoids(m, '?');
  }
}
