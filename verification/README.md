# WMS tile layer of UnitySlippyMap, modelled in Dafny

UnitySlippyMap draws slippy maps in Unity. Its `WMSTileLayer` gets tiles
from an OGC Web Map Service (WMS 1.1.1). This project models that layer's
core:

- **Configuration.** The layer is configured with a base URL, a
  comma-separated list of layers, a coordinate system and an image format.
  The name of the coordinate system (`AUTHORITY:CODE`) is kept in step with
  the coordinate system itself.
- **GetCapabilities state machine.** Setting the base URL marks it changed.
  At the next frame, with no request in flight, the layer sends one
  GetCapabilities request (section 7.2 of the WMS 1.1.1 specification), but
  only if the base URL is neither null nor empty. In every case that frame
  also revokes readiness. A done request is dropped if it failed: a transport
  error, or a body holding `404 Not Found`. A successful response starts a
  single background parse. The parse hands back on the main thread. That
  hand-back makes the layer ready to be queried, clears the request, and
  replays once any content update that was deferred until the layer was ready.
- **Tile grid.** At a rounded zoom level `z`, each axis has `2^z` tiles.
  While filling the view, the layer steps from a tile to its neighbour to the
  north, south, east or west. Each step is bounds-checked against the grid.
  It also moves the tile's scene offset by one `RoundedHalfMapScale` on the
  same axis.
- **Request URLs.** There are two: the GetCapabilities request, and the
  GetMap request for one tile (section 7.3 of the WMS 1.1.1 specification).
  Each is the base URL, then `?` only when the base URL does not already end
  with `?`, then a fixed sequence of `KEY=value` fields joined by `&`.

The files:

- `wrappers.dfy`: `Option`, which stands for a C# reference that may be null.
- `text.dfy`: ordinal `EndsWith` and `Contains`, splitting at a separator,
  and the decimal rendering of a non-negative integer.
- `wms_request.dfy`: the two request URLs, and a reading of query strings
  back into parameter lists, which the URLs are proved against.
- `tile_grid.dfy`: the tile count per axis, and the neighbour step.
- `capability_fetch.dfy`: the state machine's transitions on a snapshot of
  its fields. It holds the invariant, and lemmas about any sequence of
  events: setting the base URL, frames, hand-backs, deferred updates.
- `wms_tile_layer.dfy`: the layer as a class whose setters, `Update` and
  parse hand-back change its fields in place. Each method is proved to follow
  the matching transition of `capability_fetch.dfy`, and to keep the
  invariant and the `SRSName` rule.

## Model

| member | source | states |
|---|---|---|
| WmsRequest.QueryPrefix | Assets/UnitySlippyMap/Layer/WMSTileLayer.cs:78 | The prefix is the base URL followed by exactly one `?`. The `?` is added exactly when the base URL does not already end with `?`. |
| WmsRequest.CapabilitiesUrl | Assets/UnitySlippyMap/Layer/WMSTileLayer.cs:77-78 | The GetCapabilities URL is the query prefix followed by the query string of the parameter list SERVICE=WMS, REQUEST=GetCapabilities, VERSION=1.1.1, in that order. |
| WmsRequest.CapabilitiesUrlReadsBack | Assets/UnitySlippyMap/Layer/WMSTileLayer.cs:78 | The GetCapabilities URL starts with the base URL. Its query, split at `&` and `=`, reads back as exactly those three parameters. |
| WmsRequest.CapabilitiesUrlNoDoubledQuestionMark | Assets/UnitySlippyMap/Layer/WMSTileLayer.cs:78 | A base URL without `??` yields a GetCapabilities URL without `??`. |
| WmsRequest.QueryRoundTrip | Assets/UnitySlippyMap/Layer/WMSTileLayer.cs:253 | Take any parameter list whose keys hold no `&` or `=` and whose values hold no `&`. Reading back its query string gives the same list. |
| WmsRequest.GetMapUrl | Assets/UnitySlippyMap/Layer/WMSTileLayer.cs:253 | The GetMap URL is the query prefix followed by the query string of SERVICE, REQUEST=GetMap, VERSION, LAYERS, STYLES, SRS, BBOX, WIDTH, HEIGHT and FORMAT, in that order. |
| WmsRequest.GetMapUrlReadsBack | Assets/UnitySlippyMap/Layer/WMSTileLayer.cs:253 | Suppose no supplied value holds `&`. Then the GetMap URL starts with the base URL, and its query reads back as the GetMap parameter list. STYLES is empty, SRS is the given coordinate system name, and WIDTH and HEIGHT are both the tile resolution. |
| WmsRequest.GetMapUrlNoDoubledQuestionMark | Assets/UnitySlippyMap/Layer/WMSTileLayer.cs:253 | Suppose the base URL has no `??` and no supplied value holds `?`. Then the GetMap URL has no `??`. |
| WmsRequest.BBoxRoundTrip | Assets/UnitySlippyMap/Layer/WMSTileLayer.cs:253 | Take four corner numbers without commas. The BBOX value splits at `,` back into minLon, minLat, maxLon, maxLat, in that order. |
| Text.DecimalRoundTrip | Assets/UnitySlippyMap/Layer/WMSTileLayer.cs:253 | The decimal text written for the tile resolution reads back as that resolution. |
| TileGrid.TileCountPerAxis | Assets/UnitySlippyMap/Layer/WMSTileLayer.cs:170-173 | Both axes get the same count. For a zoom of 0 or more, the count is `2^zoom`. For a negative zoom, the count is 0. Every count fits the zoom-30 grid. |
| TileGrid.TileCountDoubles | Assets/UnitySlippyMap/Layer/WMSTileLayer.cs:172 | One zoom level further in, each axis has twice as many tiles. |
| TileGrid.TileCountFitsInt32 | Assets/UnitySlippyMap/Layer/WMSTileLayer.cs:172 | At any zoom the model admits, the count plus one is at most `2^31 - 1`. So index arithmetic on in-grid tiles never wraps a 32-bit integer. |
| TileGrid.NeighbourTile | Assets/UnitySlippyMap/Layer/WMSTileLayer.cs:187-244 | With no neighbour, the zeroed tile comes back. With a neighbour, exactly one index moves by the direction's step. The offset moves with it, so the tile's anchor (its offset minus index times scale) is unchanged. For an in-grid tile, a neighbour exists exactly when the moved index stays inside `[0, count)`. |
| TileGrid.NeighbourAtEdges | Assets/UnitySlippyMap/Layer/WMSTileLayer.cs:198-231 | There is no neighbour West at column 0, East at the last column, North at row 0, or South at the last row. Each of these returns the zeroed tile. |
| TileGrid.NeighbourStaysInGrid | Assets/UnitySlippyMap/Layer/WMSTileLayer.cs:187-244 | The neighbour of an in-grid tile is in the grid. |
| TileGrid.NeighbourInverse | Assets/UnitySlippyMap/Layer/WMSTileLayer.cs:197-239 | From an in-grid tile, a step followed by the opposite step restores the indices and the offsets exactly. |
| TileGrid.WalkReachesEveryTile | Assets/UnitySlippyMap/Layer/WMSTileLayer.cs:187-244 | Take an in-grid tile and `n` repeated steps in one direction. They succeed exactly when the tile `n` away is in the grid, and they land there with the same anchor. |
| CapabilityFetch.InitialInv | Assets/UnitySlippyMap/Layer/WMSTileLayer.cs:60-63 | A fresh layer satisfies the state machine's invariant. |
| CapabilityFetch.SetBaseURL | Assets/UnitySlippyMap/Layer/WMSTileLayer.cs:47 | Setting the base URL stores it and marks it changed. It leaves the loader, the request log, the parse and readiness alone, and keeps the invariant. |
| CapabilityFetch.Failed | Assets/UnitySlippyMap/Layer/WMSTileLayer.cs:87 | A done request failed when the transport reports an error, or when its text contains `404 Not Found`. |
| CapabilityFetch.Observe | Assets/UnitySlippyMap/Layer/WMSTileLayer.cs:85 | Once the transport has delivered a response, a request in flight is done with that URL and exactly that response. Otherwise the loader is unchanged, so a done request keeps its response. |
| CapabilityFetch.Update | Assets/UnitySlippyMap/Layer/WMSTileLayer.cs:68-107 | One frame: the loader is observed, then the launch step or the response check runs. Its behaviour is stated by `Launch`, `CheckResponse` and the `Update*` lemmas below. |
| CapabilityFetch.Launch | Assets/UnitySlippyMap/Layer/WMSTileLayer.cs:70-83 | The change mark is cleared and readiness revoked. A non-null, non-empty base URL gets its GetCapabilities URL in flight and appended to the request log. Any other base URL leaves no loader and logs nothing. The base URL, the parse, the drop count and the deferred update are unchanged. |
| CapabilityFetch.CheckResponse | Assets/UnitySlippyMap/Layer/WMSTileLayer.cs:85-107 | A failed done request is dropped and nothing else changes. After a successful one a parse is pending: it starts now unless one already runs. Nothing else changes. |
| CapabilityFetch.UpdateLaunches | Assets/UnitySlippyMap/Layer/WMSTileLayer.cs:71-84 | With the base URL changed and no loader, a frame clears the change mark and revokes readiness. It requests the GetCapabilities URL of the base URL exactly when that URL is non-null and non-empty. |
| CapabilityFetch.UpdateSingleFlight | Assets/UnitySlippyMap/Layer/WMSTileLayer.cs:71-85 | Outside the launch step, a frame issues no request and keeps the change mark. |
| CapabilityFetch.UpdateDropsFailure | Assets/UnitySlippyMap/Layer/WMSTileLayer.cs:87-94 | A done request with an error, or with `404 Not Found` in its text, is dropped. Nothing else changes. |
| CapabilityFetch.UpdateParseGuard | Assets/UnitySlippyMap/Layer/WMSTileLayer.cs:95-107 | A parse starts only on a done, successful response while no parse runs. Starting it changes only the parse flag and the loader's status. While a parse runs, a frame changes nothing. |
| CapabilityFetch.UpdateNeverGrantsReadiness | Assets/UnitySlippyMap/Layer/WMSTileLayer.cs:69-164 | A frame never makes the layer ready. It never touches the base URL, the deferred-update flag or the `UpdateContent` count. |
| CapabilityFetch.UpdateKeepsInv | Assets/UnitySlippyMap/Layer/WMSTileLayer.cs:69-164 | A frame keeps the invariant. At most one request is outstanding, and it is the latest. The layer is not ready while a request is in flight. A parse runs only on a successful response. Every request is the GetCapabilities URL of a non-empty base URL. |
| CapabilityFetch.ParseCompleted | Assets/UnitySlippyMap/Layer/WMSTileLayer.cs:136-159 | After the hand-back, the layer is ready, the loader is cleared and no parse runs. If the deferred-update flag was set, `UpdateContent` ran exactly once and the flag is cleared; otherwise the count is unchanged. |
| CapabilityFetch.ParseCompletedKeepsInv | Assets/UnitySlippyMap/Layer/WMSTileLayer.cs:136-159 | The hand-back keeps the invariant: the request it clears is the one that was outstanding. |
| CapabilityFetch.Step | Assets/UnitySlippyMap/Layer/WMSTileLayer.cs:47-159 | Every event keeps the invariant: a base URL set, a frame, a hand-back, or a deferred update. |
| CapabilityFetch.RunKeepsInv | Assets/UnitySlippyMap/Layer/WMSTileLayer.cs:47-159 | The invariant holds after any sequence of events. |
| CapabilityFetch.ReadyOnlyThroughHandBack | Assets/UnitySlippyMap/Layer/WMSTileLayer.cs:148 | A layer that is not ready becomes ready only if the events include a parse hand-back. |
| CapabilityFetch.ReadyAfterSuccessfulParse | Assets/UnitySlippyMap/Layer/WMSTileLayer.cs:97-148 | From a state that keeps the invariant and is not ready, one event makes the layer ready only if it is the hand-back. A parse of a done, successful response must then be pending. |
| CapabilityFetch.ReadyOnlyAfterSuccessfulParse | Assets/UnitySlippyMap/Layer/WMSTileLayer.cs:97-148 | Over any sequence of events from a state that keeps the invariant and is not ready, a ready layer at the end means that some event was a hand-back. A parse of a done, successful response was pending just before it. |
| CapabilityFetch.ParseBlocksRequests | Assets/UnitySlippyMap/Layer/WMSTileLayer.cs:97-105 | While a parse is pending and until its hand-back, no sequence of base URL changes and frames issues a request, touches the loader, ends the parse or makes the layer ready. |
| CapabilityFetch.StepContentUpdates | Assets/UnitySlippyMap/Layer/WMSTileLayer.cs:154-158 | An event runs `UpdateContent` at most once, and only when it clears a loader. |
| CapabilityFetch.ContentUpdatesPerRequest | Assets/UnitySlippyMap/Layer/WMSTileLayer.cs:150-158 | Over any sequence of events, `UpdateContent` runs no more often than requests are cleared. No more requests are cleared than were issued. |
| CapabilityFetch.FetchFromFreshLayer | Assets/UnitySlippyMap/Layer/WMSTileLayer.cs:69-159 | Start from a fresh layer with an update deferred. Set a non-empty base URL, then run a frame, a frame with a successful response, and two hand-back attempts. The layer ends ready, having made exactly one request, and `UpdateContent` ran exactly once. |
| CapabilityFetch.EmptyBaseRevokesReadiness | Assets/UnitySlippyMap/Layer/WMSTileLayer.cs:77-83 | Suppose no request is in flight and the base URL is set to null or empty. The next frame revokes readiness, issues no request and clears the change mark. |
| WmsLayer.SrsNameOf | Assets/UnitySlippyMap/Layer/WMSTileLayer.cs:53 | The name is the authority, then `:`, then the authority code. |
| WmsLayer.DefaultSrsName | Assets/UnitySlippyMap/Layer/WMSTileLayer.cs:52-54 | The default coordinate system, WGS 84, is named `EPSG:4326`. |
| WmsLayer.SrsNameDeterminesSrs | Assets/UnitySlippyMap/Layer/WMSTileLayer.cs:53 | For authorities without `:`, two coordinate systems with the same name are the same. |
| WmsLayer.OrEmpty | Assets/UnitySlippyMap/Layer/WMSTileLayer.cs:50 | A null string reads as the empty string, and any other as itself. The `Layers` setter stores a value this way, and a null format is written this way into a tile URL (line 253). |
| WmsLayer.WmsTileLayer.constructor | Assets/UnitySlippyMap/Layer/WMSTileLayer.cs:47-63 | A new layer has no base URL and empty layers. Its coordinate system is WGS 84, named `EPSG:4326`, and its format is `image/png`. It has no request and no parse, and is not ready. The invariant holds. |
| WmsLayer.WmsTileLayer.SetBaseURL | Assets/UnitySlippyMap/Layer/WMSTileLayer.cs:47 | The fields change as the `BaseURL` setter transition says. The configuration is untouched and the invariant is kept. |
| WmsLayer.WmsTileLayer.SetLayers | Assets/UnitySlippyMap/Layer/WMSTileLayer.cs:50 | The stored layers are the value, or the empty string for null. Nothing else changes. |
| WmsLayer.WmsTileLayer.SetSRS | Assets/UnitySlippyMap/Layer/WMSTileLayer.cs:53 | The coordinate system is the value, and its name is `Authority:AuthorityCode`. Nothing else changes. |
| WmsLayer.WmsTileLayer.SetFormat | Assets/UnitySlippyMap/Layer/WMSTileLayer.cs:58 | The format is the value as given, null included. Nothing else changes. |
| WmsLayer.WmsTileLayer.Update | Assets/UnitySlippyMap/Layer/WMSTileLayer.cs:69-164 | The fields change as one frame of the state machine says. The configuration is untouched and the invariant is kept. |
| WmsLayer.WmsTileLayer.LaunchGetCapabilities | Assets/UnitySlippyMap/Layer/WMSTileLayer.cs:71-84 | The fields change as the launch step says. |
| WmsLayer.WmsTileLayer.CheckResponse | Assets/UnitySlippyMap/Layer/WMSTileLayer.cs:85-107 | The fields change as the failure step or the parse start says. |
| WmsLayer.WmsTileLayer.ParseCompleted | Assets/UnitySlippyMap/Layer/WMSTileLayer.cs:136-159 | The fields change as the hand-back says. The configuration is untouched and the invariant is kept. |
| WmsLayer.WmsTileLayer.TileURL | Assets/UnitySlippyMap/Layer/WMSTileLayer.cs:246-254 | With no base URL there is no URL, standing for the null dereference. Otherwise the URL is the GetMap URL of the current layers, coordinate system name and format, with a null format written as nothing. It starts with the base URL. |
| WmsLayer.TileURLReadsBack | Assets/UnitySlippyMap/Layer/WMSTileLayer.cs:253 | A valid layer's tile URL reads back as the GetMap parameters of its current layers and format, with FORMAT empty for a null format. Its SRS is `Authority:AuthorityCode` of its current coordinate system. |

## Left out

- `GetCenterTile` (lines 175-185) is not modelled. Nor are the bounding-box numbers of `GetTileURL` (lines 248-252). Both are floating-point projections through `GeoHelpers` and the map's ProjNet transforms, which are not part of this model. The four BBOX numbers are opaque strings supplied by the caller. How a `double` is printed (culture, digits) is not modelled.
- `WmsLayer.WmsTileLayer.TileURL` ignores the tile column, row and zoom. In the source they only feed the bounding-box computation left out above. The tile resolution `Map.TileResolution` is modelled as a `nat`. A negative or non-integral resolution, and how it would be printed, is not modelled.
- The HTTP transport (`WWW`) is not modelled. What it has delivered by a given frame is the `arrival` argument of `Update`. Issuing a request is recorded by appending its URL to a log.
- XML deserialisation of the capabilities document, and the two thread dispatches, are not modelled. A parse is the pending flag, and its completion is the hand-back `ParseCompleted`. A document that fails to deserialise never hands back: the layer then stays parsing, and no event of the model leaves that state.
- `UpdateContent` and the other members inherited from `TileLayer` are not modelled; `UpdateContent` is a call counter. `TileLayer` is not part of this model. It is what sets `needsToBeUpdatedWhenReady`, which is the `Defer` event here.
- Debug logging, the commented-out block and the Unity `MonoBehaviour` lifecycle are not modelled.
- `WmsLayer.WmsTileLayer.SetSRS` takes a non-null coordinate system. In the source, a null `SRS` stores null and then throws while building the name; that case is not modelled.
- `TileGrid.TileCountPerAxis` requires a zoom of at most 30. From zoom 31 on, `(int)Mathf.Pow(2, zoom)` overflows a 32-bit integer, and that conversion is not modelled.
- `TileGrid.NeighbourTile` uses unbounded integers for indices and `real` for offsets and scale. It does not model the 32-bit wrap of `tileY + 1` at `2^31 - 1`, which `TileGrid.TileCountFitsInt32` shows an in-grid tile never reaches. It does not model `float` rounding either, so the inverse property holds exactly only for the model's offsets.
- `EndsWith("?")` and `Contains("404 Not Found")` are compared ordinally. Culture-sensitive comparison is not modelled.
