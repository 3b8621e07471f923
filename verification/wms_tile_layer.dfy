/**
 * The WMS tile layer object: its configuration (base URL, layers, coordinate
 * system, image format) and the fields of its GetCapabilities state machine,
 * updated in place by the property setters, by the per-frame `Update`, and by
 * the hand-back of the background parse. Each state-changing method is proved
 * to follow the matching transition of `CapabilityFetch`, so the invariant
 * and the lemmas about event sequences proved there hold for the object.
 */
module WmsLayer {
  import opened Wrappers
  import Text
  import WmsRequest
  import CapabilityFetch

  /** A spatial reference system, as far as the layer uses it: who defines it and under which code. */
  datatype CoordinateSystem = CoordinateSystem(authority: string, authorityCode: string)

  /** WGS 84 geographic coordinates, the default coordinate system. */
  const Wgs84: CoordinateSystem := CoordinateSystem("EPSG", "4326")

  /** The name a coordinate system goes by in a WMS request, `AUTHORITY:CODE`. */
  function SrsNameOf(srs: CoordinateSystem): (name: string)
    ensures |name| == |srs.authority| + 1 + |srs.authorityCode|
    ensures name[..|srs.authority|] == srs.authority && name[|srs.authority|] == ':'
    ensures name[|srs.authority| + 1..] == srs.authorityCode
  {
    srs.authority + ":" + srs.authorityCode
  }

  /** The name of the default coordinate system is `EPSG:4326`. */
  lemma DefaultSrsName()
    ensures SrsNameOf(Wgs84) == "EPSG:4326"
  {
  }

  /** The name determines the coordinate system whenever the authority holds no `:`. */
  lemma SrsNameDeterminesSrs(a: CoordinateSystem, b: CoordinateSystem)
    requires ':' !in a.authority && ':' !in b.authority
    requires SrsNameOf(a) == SrsNameOf(b)
    ensures a == b
  {
    Text.IndexOfAfterPrefix(a.authority, ':', a.authorityCode);
    Text.IndexOfAfterPrefix(b.authority, ':', b.authorityCode);
    assert SrsNameOf(a) == a.authority + [':'] + a.authorityCode;
    assert SrsNameOf(b) == b.authority + [':'] + b.authorityCode;
  }

  /**
   * A string that may be null, read as text: null is the empty string. The
   * `Layers` setter stores a null list of layers this way, and string
   * concatenation writes a null format this way into a tile URL.
   */
  function OrEmpty(value: Option<string>): (text: string)
    ensures value.Some? ==> text == value.value
    ensures value.None? ==> text == ""
  {
    match value
    case None => ""
    case Some(s) => s
  }

  class WmsTileLayer {
    // configuration
    var baseURL: Option<string>
    var layers: string
    var srs: CoordinateSystem
    var srsName: string
    var format: Option<string>

    // the GetCapabilities state machine
    var baseURLChanged: bool
    var loader: CapabilityFetch.Loader
    var isParsingGetCapabilities: bool
    var isReadyToBeQueried: bool
    var needsToBeUpdatedWhenReady: bool
    /** How many times `UpdateContent` has run. */
    var contentUpdates: nat
    /** The URLs of the GetCapabilities requests handed to the transport, in order. */
    ghost var requests: seq<string>
    /** How many of those requests have had their loader cleared. */
    ghost var dropped: nat

    /** The state machine's fields, as one value. */
    ghost function Fetch(): CapabilityFetch.Fetch
      reads this
    {
      CapabilityFetch.Fetch(baseURL, baseURLChanged, loader, isParsingGetCapabilities, isReadyToBeQueried,
        needsToBeUpdatedWhenReady, contentUpdates, requests, dropped)
    }

    /** The invariant of the state machine, and the coordinate system name kept in step with the coordinate system. */
    ghost predicate Valid()
      reads this
    {
      CapabilityFetch.Inv(Fetch()) && srsName == SrsNameOf(srs)
    }

    /** The layer as created: no base URL, no layers, WGS 84, PNG images, no request, not ready. */
    constructor()
      ensures Valid()
      ensures Fetch() == CapabilityFetch.Initial
      ensures layers == "" && srs == Wgs84 && srsName == "EPSG:4326" && format == Some("image/png")
    {
      baseURL := None;
      layers := "";
      srs := Wgs84;
      srsName := "EPSG:4326";
      format := Some("image/png");
      baseURLChanged := false;
      loader := CapabilityFetch.NoLoader;
      isParsingGetCapabilities := false;
      isReadyToBeQueried := false;
      needsToBeUpdatedWhenReady := false;
      contentUpdates := 0;
      requests := [];
      dropped := 0;
      DefaultSrsName();
    }

    /** The `BaseURL` setter. */
    method SetBaseURL(value: Option<string>)
      modifies this
      ensures Fetch() == CapabilityFetch.SetBaseURL(old(Fetch()), value)
      ensures layers == old(layers) && srs == old(srs) && srsName == old(srsName) && format == old(format)
      ensures old(Valid()) ==> Valid()
    {
      baseURLChanged := true;
      baseURL := value;
    }

    /** The `Layers` setter: a null value is stored as the empty string. */
    method SetLayers(value: Option<string>)
      modifies this
      ensures layers == OrEmpty(value)
      ensures Fetch() == old(Fetch()) && srs == old(srs) && srsName == old(srsName) && format == old(format)
      ensures old(Valid()) ==> Valid()
    {
      match value {
        case None => layers := "";
        case Some(s) => layers := s;
      }
    }

    /** The `SRS` setter: the name follows the new coordinate system. */
    method SetSRS(value: CoordinateSystem)
      modifies this
      ensures srs == value && srsName == SrsNameOf(value)
      ensures Fetch() == old(Fetch()) && layers == old(layers) && format == old(format)
      ensures old(Valid()) ==> Valid()
    {
      srs := value;
      srsName := srs.authority + ":" + srs.authorityCode;
    }

    /** The `Format` setter: any value, null included, is stored as it is. */
    method SetFormat(value: Option<string>)
      modifies this
      ensures format == value
      ensures Fetch() == old(Fetch()) && layers == old(layers) && srs == old(srs) && srsName == old(srsName)
      ensures old(Valid()) ==> Valid()
    {
      format := value;
    }

    /**
     * One frame. `arrival` is what the transport delivered for the request in
     * flight, if it completed by this frame; starting the background parse is
     * marking it pending, the parse itself is not modelled.
     */
    method Update(arrival: Option<CapabilityFetch.Response>)
      modifies this
      ensures Fetch() == CapabilityFetch.Update(old(Fetch()), arrival)
      ensures layers == old(layers) && srs == old(srs) && srsName == old(srsName) && format == old(format)
      ensures old(Valid()) ==> Valid()
    {
      ghost var before := Fetch();
      if loader.Loading? && arrival.Some? {
        loader := CapabilityFetch.Done(loader.url, arrival.value);
      }
      if baseURLChanged && loader.NoLoader? {
        LaunchGetCapabilities();
      } else if loader.Done? {
        CheckResponse();
      }
      CapabilityFetch.UpdateKeepsInvIf(before, arrival);
    }

    /** The launch step of `Update`: request the capabilities of a non-empty base URL. */
    method LaunchGetCapabilities()
      modifies this
      ensures Fetch() == CapabilityFetch.Launch(old(Fetch()))
      ensures layers == old(layers) && srs == old(srs) && srsName == old(srsName) && format == old(format)
    {
      if baseURL.Some? && baseURL.value != "" {
        var url := WmsRequest.CapabilitiesUrl(baseURL.value);
        loader := CapabilityFetch.Loading(url);
        requests := requests + [url];
      } else {
        loader := CapabilityFetch.NoLoader;
      }
      baseURLChanged := false;
      isReadyToBeQueried := false;
    }

    /** The step of `Update` that looks at a done request. */
    method CheckResponse()
      requires loader.Done?
      modifies this
      ensures Fetch() == CapabilityFetch.CheckResponse(old(Fetch()))
      ensures layers == old(layers) && srs == old(srs) && srsName == old(srsName) && format == old(format)
    {
      if CapabilityFetch.Failed(loader.response) {
        loader := CapabilityFetch.NoLoader;
        dropped := dropped + 1;
        return;
      } else if !isParsingGetCapabilities {
        isParsingGetCapabilities := true;
      }
    }

    /** The hand-back of the background parse on the main thread. */
    method ParseCompleted()
      modifies this
      ensures Fetch() == CapabilityFetch.ParseCompleted(old(Fetch()))
      ensures layers == old(layers) && srs == old(srs) && srsName == old(srsName) && format == old(format)
      ensures old(Valid()) ==> Valid()
    {
      ghost var before := Fetch();
      isReadyToBeQueried := true;
      if !loader.NoLoader? {
        dropped := dropped + 1;
      }
      loader := CapabilityFetch.NoLoader;
      isParsingGetCapabilities := false;
      if needsToBeUpdatedWhenReady {
        contentUpdates := contentUpdates + 1;
        needsToBeUpdatedWhenReady := false;
      }
      CapabilityFetch.ParseCompletedKeepsInv(before);
    }

    /**
     * The GetMap URL of one tile, for the four bounding-box numbers and the
     * tile resolution the map supplies, with a null format written as
     * nothing; no URL (the source dereferences a null base URL) when no base
     * URL is set.
     */
    function TileURL(bbox: WmsRequest.BBox, tileResolution: nat): (url: Option<string>)
      reads this
      ensures url.None? <==> baseURL.None?
      ensures url.Some? ==> url.value == WmsRequest.GetMapUrl(baseURL.value, layers, srsName, bbox, tileResolution, OrEmpty(format))
      ensures url.Some? ==> |baseURL.value| <= |url.value| && url.value[..|baseURL.value|] == baseURL.value
    {
      match baseURL
      case None => None
      case Some(base) => Some(WmsRequest.GetMapUrl(base, layers, srsName, bbox, tileResolution, OrEmpty(format)))
    }
  }

  /**
   * A tile URL names the layer's current layers, coordinate system name and
   * format (empty for a null format): its query reads back as the GetMap
   * parameters built from them, with the coordinate system written
   * `AUTHORITY:CODE`.
   */
  lemma TileURLReadsBack(layer: WmsTileLayer, bbox: WmsRequest.BBox, tileResolution: nat)
    requires layer.Valid() && layer.baseURL.Some?
    requires '&' !in layer.layers && '&' !in layer.srs.authority && '&' !in layer.srs.authorityCode
    requires '&' !in WmsRequest.BBoxValue(bbox) && '&' !in OrEmpty(layer.format)
    ensures var url := layer.TileURL(bbox, tileResolution).value;
      var base := layer.baseURL.value;
      WmsRequest.ParseQuery(url[|WmsRequest.QueryPrefix(base)|..])
        == WmsRequest.GetMapParameters(layer.layers, SrsNameOf(layer.srs), bbox, tileResolution, OrEmpty(layer.format))
  {
    var s := layer.srsName;
    assert s == layer.srs.authority + ":" + layer.srs.authorityCode;
    assert '&' !in s;
    WmsRequest.GetMapUrlReadsBack(layer.baseURL.value, layer.layers, s, bbox, tileResolution, OrEmpty(layer.format));
  }
}
