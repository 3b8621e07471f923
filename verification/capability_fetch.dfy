/**
 * The GetCapabilities state machine of the WMS tile layer, as transitions on
 * a snapshot of the fields it touches. Setting the base URL marks it changed.
 * Each frame's `Update` either launches one GetCapabilities request, or looks
 * at the request in flight. A failed request is dropped. A successful one
 * starts a single background parse. The parse hands back on the main thread
 * (`ParseCompleted`), which makes the layer ready to be queried and replays a
 * deferred content update.
 *
 * The class `WmsLayer.WmsTileLayer` updates its fields in place and is proved
 * to follow these transitions; the invariants and the lemmas about sequences
 * of events are stated here.
 */
module CapabilityFetch {
  import opened Wrappers
  import opened Text
  import WmsRequest

  /** What the transport reports once a request is done: an error message, if any, and the body text. */
  datatype Response = Response(error: Option<string>, text: string)

  /** A response the layer treats as a failure: a transport error, or a body holding `404 Not Found`. */
  predicate Failed(r: Response)
  {
    r.error.Some? || Contains(r.text, "404 Not Found")
  }

  /** The GetCapabilities request: none, in flight, or done with a response. */
  datatype Loader = NoLoader | Loading(url: string) | Done(url: string, response: Response)

  /**
   * The fields the state machine reads and writes. `contentUpdates` counts
   * the calls of `UpdateContent`. `requests` lists, in order, the URLs of the
   * requests handed to the transport, and `dropped` counts the requests
   * whose loader has since been cleared.
   */
  datatype Fetch = Fetch(
    baseURL: Option<string>,
    baseURLChanged: bool,
    loader: Loader,
    parsing: bool,
    ready: bool,
    needsUpdate: bool,
    contentUpdates: nat,
    requests: seq<string>,
    dropped: nat)

  /** A freshly created layer: no base URL, no request, not ready. */
  const Initial: Fetch := Fetch(None, false, NoLoader, false, false, false, 0, [], 0)

  /** A base URL a request is launched for: not null and not empty. */
  predicate Launchable(base: Option<string>)
  {
    base.Some? && base.value != ""
  }

  /** `url` is the GetCapabilities request on some non-empty base URL. */
  ghost predicate IsCapabilitiesRequest(url: string)
  {
    exists base :: base != "" && url == WmsRequest.CapabilitiesUrl(base)
  }

  /**
   * The invariant of the state machine:
   * - every request but the one in flight has been dropped, so at most one
   *   is ever outstanding;
   * - the loader in flight is the latest request, and the layer is not
   *   ready while it is;
   * - a parse runs only on a done, successful response;
   * - every request is the GetCapabilities request on a non-empty base URL.
   */
  ghost predicate Inv(f: Fetch)
  {
    && |f.requests| == f.dropped + (if f.loader.NoLoader? then 0 else 1)
    && (!f.loader.NoLoader? ==> f.loader.url == f.requests[|f.requests| - 1] && !f.ready)
    && (f.parsing ==> f.loader.Done? && !Failed(f.loader.response))
    && (forall i :: 0 <= i < |f.requests| ==> IsCapabilitiesRequest(f.requests[i]))
  }

  lemma InitialInv()
    ensures Inv(Initial)
  {
  }

  /** The `BaseURL` setter: store the value and mark it changed, whatever is in flight. */
  function SetBaseURL(f: Fetch, value: Option<string>): (r: Fetch)
    ensures r.baseURL == value && r.baseURLChanged
    ensures r.loader == f.loader && r.requests == f.requests && r.dropped == f.dropped
    ensures r.parsing == f.parsing && r.ready == f.ready
    ensures r.needsUpdate == f.needsUpdate && r.contentUpdates == f.contentUpdates
    ensures Inv(f) ==> Inv(r)
  {
    f.(baseURL := value, baseURLChanged := true)
  }

  /**
   * The loader as `Update` sees it: a request in flight is done, holding the
   * response the transport delivered, once `arrival` is there; otherwise the
   * loader is as it was, so a done request stays done with its response.
   */
  function Observe(l: Loader, arrival: Option<Response>): (o: Loader)
    ensures l.Loading? && arrival.Some? ==> o == Done(l.url, arrival.value)
    ensures !(l.Loading? && arrival.Some?) ==> o == l
  {
    if l.Loading? && arrival.Some? then Done(l.url, arrival.value) else l
  }

  /** The launch step: taken when the base URL has changed and no request is in flight. */
  predicate LaunchStep(f: Fetch)
  {
    f.baseURLChanged && f.loader.NoLoader?
  }

  /**
   * One frame of `Update`. `arrival` is the transport's report for the
   * request in flight, if it has completed by this frame. What each step
   * does is stated by the lemmas below.
   */
  function Update(f: Fetch, arrival: Option<Response>): Fetch
  {
    var f := f.(loader := Observe(f.loader, arrival));
    if f.baseURLChanged && f.loader.NoLoader? then Launch(f)
    else if f.loader.Done? then CheckResponse(f)
    else f
  }

  /**
   * The launch step of `Update`: the change mark is cleared and readiness
   * revoked; a non-null, non-empty base URL gets its GetCapabilities request
   * in flight and logged, any other leaves no loader and logs nothing.
   */
  function Launch(f: Fetch): (r: Fetch)
    ensures !r.baseURLChanged && !r.ready
    ensures Launchable(f.baseURL) ==>
      var url := WmsRequest.CapabilitiesUrl(f.baseURL.value);
      r.loader == Loading(url) && r.requests == f.requests + [url]
    ensures !Launchable(f.baseURL) ==> r.loader.NoLoader? && r.requests == f.requests
    ensures r.baseURL == f.baseURL && r.parsing == f.parsing && r.dropped == f.dropped
    ensures r.needsUpdate == f.needsUpdate && r.contentUpdates == f.contentUpdates
  {
    if Launchable(f.baseURL) then
      var url := WmsRequest.CapabilitiesUrl(f.baseURL.value);
      f.(loader := Loading(url), requests := f.requests + [url], baseURLChanged := false, ready := false)
    else
      f.(loader := NoLoader, baseURLChanged := false, ready := false)
  }

  /**
   * The step of `Update` that looks at a done request: a failed one is
   * dropped and nothing else changes; after a successful one a parse is
   * pending, started now unless one already runs, and nothing else changes.
   */
  function CheckResponse(f: Fetch): (r: Fetch)
    requires f.loader.Done?
    ensures Failed(f.loader.response) ==> r == f.(loader := NoLoader, dropped := f.dropped + 1)
    ensures !Failed(f.loader.response) ==> r == f.(parsing := true)
  {
    if Failed(f.loader.response) then
      f.(loader := NoLoader, dropped := f.dropped + 1)
    else if !f.parsing then
      f.(parsing := true)
    else f
  }

  /**
   * The launch step clears the change mark and revokes readiness; it
   * requests the GetCapabilities URL of the base URL when that is neither
   * null nor empty, and requests nothing otherwise.
   */
  lemma UpdateLaunches(f: Fetch, arrival: Option<Response>)
    requires LaunchStep(f)
    ensures var r := Update(f, arrival);
      && !r.baseURLChanged && !r.ready
      && r.baseURL == f.baseURL && r.parsing == f.parsing && r.dropped == f.dropped
      && (Launchable(f.baseURL) ==>
           r.loader == Loading(WmsRequest.CapabilitiesUrl(f.baseURL.value)) && r.requests == f.requests + [r.loader.url])
      && (!Launchable(f.baseURL) ==> r.loader.NoLoader? && r.requests == f.requests)
  {
  }

  /** Single flight: outside the launch step, `Update` issues no request and keeps the change mark. */
  lemma UpdateSingleFlight(f: Fetch, arrival: Option<Response>)
    requires !LaunchStep(f)
    ensures var r := Update(f, arrival);
      r.requests == f.requests && r.baseURLChanged == f.baseURLChanged && r.baseURL == f.baseURL
  {
  }

  /** The failure step drops a failed loader and changes nothing else: no parse starts, readiness stays as it was. */
  lemma UpdateDropsFailure(f: Fetch, arrival: Option<Response>)
    requires !LaunchStep(f)
    requires Observe(f.loader, arrival).Done? && Failed(Observe(f.loader, arrival).response)
    ensures Update(f, arrival) == f.(loader := NoLoader, dropped := f.dropped + 1)
  {
  }

  /**
   * The parse guard: a parse starts only on a done, successful response
   * while none runs, and starting it changes nothing but the loader's
   * status and the parse flag; while a parse runs, `Update` changes nothing.
   */
  lemma UpdateParseGuard(f: Fetch, arrival: Option<Response>)
    ensures var r := Update(f, arrival);
      r.parsing != f.parsing ==>
        && !f.parsing && !LaunchStep(f)
        && Observe(f.loader, arrival).Done? && !Failed(Observe(f.loader, arrival).response)
        && r == f.(loader := Observe(f.loader, arrival), parsing := true)
    ensures Inv(f) && f.parsing ==> Update(f, arrival) == f
  {
  }

  /** `Update` never makes the layer ready, and never touches the base URL, the deferred update or the content update count. */
  lemma UpdateNeverGrantsReadiness(f: Fetch, arrival: Option<Response>)
    ensures var r := Update(f, arrival);
      && (r.ready ==> f.ready)
      && r.baseURL == f.baseURL && r.needsUpdate == f.needsUpdate && r.contentUpdates == f.contentUpdates
  {
  }

  /** `Update` keeps the invariant. */
  lemma UpdateKeepsInv(f: Fetch, arrival: Option<Response>)
    requires Inv(f)
    ensures Inv(Update(f, arrival))
  {
    var r := Update(f, arrival);
    if LaunchStep(f) && Launchable(f.baseURL) {
      var url := WmsRequest.CapabilitiesUrl(f.baseURL.value);
      assert IsCapabilitiesRequest(url);
      assert r.requests == f.requests + [url];
    }
  }

  /**
   * The hand-back of a finished parse, on the main thread: the layer becomes
   * ready, the loader is cleared, the parse is over, and a deferred content
   * update runs once.
   */
  function ParseCompleted(f: Fetch): (r: Fetch)
    ensures r.ready && r.loader.NoLoader? && !r.parsing && !r.needsUpdate
    ensures r.contentUpdates == f.contentUpdates + (if f.needsUpdate then 1 else 0)
    ensures r.dropped == f.dropped + (if f.loader.NoLoader? then 0 else 1)
    ensures r.baseURL == f.baseURL && r.baseURLChanged == f.baseURLChanged && r.requests == f.requests
  {
    var r := f.(ready := true, loader := NoLoader, parsing := false,
      dropped := if f.loader.NoLoader? then f.dropped else f.dropped + 1);
    if r.needsUpdate then r.(contentUpdates := r.contentUpdates + 1, needsUpdate := false) else r
  }

  /** The hand-back keeps the invariant: the one request in flight is the one it drops. */
  lemma ParseCompletedKeepsInv(f: Fetch)
    ensures Inv(f) ==> Inv(ParseCompleted(f))
  {
  }

  /**
   * What can happen to the layer between two looks at its state: a base URL
   * is set, a frame runs `Update` (with what the transport delivered), the
   * background parse hands back, or the tile layer this one extends asks for
   * a content update to be replayed once the layer is ready.
   */
  datatype Event = SetBase(value: Option<string>) | Frame(arrival: Option<Response>) | HandBack | Defer

  lemma UpdateKeepsInvIf(f: Fetch, arrival: Option<Response>)
    ensures Inv(f) ==> Inv(Update(f, arrival))
  {
    if Inv(f) {
      UpdateKeepsInv(f, arrival);
    }
  }

  /** One event. A hand-back happens only while a parse is pending; otherwise there is nothing to hand back. */
  function Step(f: Fetch, e: Event): (r: Fetch)
    ensures Inv(f) ==> Inv(r)
  {
    match e
    case SetBase(value) => SetBaseURL(f, value)
    case Frame(arrival) => UpdateKeepsInvIf(f, arrival); Update(f, arrival)
    case HandBack => ParseCompletedKeepsInv(f); if f.parsing then ParseCompleted(f) else f
    case Defer => f.(needsUpdate := true)
  }

  /** The state after a sequence of events, in order. */
  function Run(f: Fetch, evs: seq<Event>): Fetch
    decreases |evs|
  {
    if evs == [] then f else Run(Step(f, evs[0]), evs[1..])
  }

  /** The invariant holds after any sequence of events from a state where it holds. */
  lemma {:induction false} RunKeepsInv(f: Fetch, evs: seq<Event>)
    requires Inv(f)
    ensures Inv(Run(f, evs))
    decreases |evs|
  {
    if evs != [] {
      RunKeepsInv(Step(f, evs[0]), evs[1..]);
    }
  }

  /** A layer that is not ready becomes ready only through the hand-back of a parse. */
  lemma {:induction false} ReadyOnlyThroughHandBack(f: Fetch, evs: seq<Event>)
    requires !f.ready && Run(f, evs).ready
    ensures HandBack in evs
    decreases |evs|
  {
    assert evs != [];
    if evs[0] != HandBack {
      assert !Step(f, evs[0]).ready;
      ReadyOnlyThroughHandBack(Step(f, evs[0]), evs[1..]);
      assert evs == [evs[0]] + evs[1..];
    }
  }

  /** A parse of a done, successful response is pending. */
  predicate SuccessfulParsePending(f: Fetch)
  {
    f.parsing && f.loader.Done? && !Failed(f.loader.response)
  }

  /**
   * One event makes a layer ready only when it is the hand-back of a
   * pending parse of a done, successful response.
   */
  lemma ReadyAfterSuccessfulParse(f: Fetch, e: Event)
    requires Inv(f) && !f.ready && Step(f, e).ready
    ensures e == HandBack && SuccessfulParsePending(f)
  {
    if e.Frame? {
      UpdateNeverGrantsReadiness(f, e.arrival);
    }
  }

  /**
   * Over any sequence of events, a layer that was not ready is ready at the
   * end only if some event was a hand-back made while a parse of a done,
   * successful response was pending.
   */
  lemma {:induction false} ReadyOnlyAfterSuccessfulParse(f: Fetch, evs: seq<Event>)
    requires Inv(f) && !f.ready && Run(f, evs).ready
    ensures exists i :: 0 <= i < |evs| && evs[i] == HandBack && SuccessfulParsePending(Run(f, evs[..i]))
    decreases |evs|
  {
    assert evs != [];
    var g := Step(f, evs[0]);
    assert Run(f, evs[..0]) == f;
    if g.ready {
      ReadyAfterSuccessfulParse(f, evs[0]);
    } else {
      ReadyOnlyAfterSuccessfulParse(g, evs[1..]);
      var j :| 0 <= j < |evs[1..]| && evs[1..][j] == HandBack && SuccessfulParsePending(Run(g, evs[1..][..j]));
      assert evs[..j + 1][0] == evs[0] && evs[..j + 1][1..] == evs[1..][..j];
      assert Run(f, evs[..j + 1]) == Run(g, evs[1..][..j]);
      assert evs[j + 1] == HandBack;
    }
  }

  /**
   * While a parse is pending, nothing the layer does before the hand-back
   * issues a request, touches the loader or starts a second parse, whatever
   * base URLs are set meanwhile.
   */
  lemma {:induction false} ParseBlocksRequests(f: Fetch, evs: seq<Event>)
    requires Inv(f) && f.parsing && HandBack !in evs
    ensures Run(f, evs).parsing && Run(f, evs).loader == f.loader && Run(f, evs).requests == f.requests
    ensures !Run(f, evs).ready
    decreases |evs|
  {
    if evs != [] {
      assert evs == [evs[0]] + evs[1..];
      ParseBlocksRequests(Step(f, evs[0]), evs[1..]);
    }
  }

  /**
   * The deferred content update is replayed at most once per request whose
   * loader was cleared: `UpdateContent` never runs more often than the layer
   * finishes with a GetCapabilities request.
   */
  lemma {:induction false} ContentUpdatesPerRequest(f: Fetch, evs: seq<Event>)
    requires Inv(f)
    ensures Run(f, evs).contentUpdates - f.contentUpdates <= Run(f, evs).dropped - f.dropped
    ensures Run(f, evs).dropped <= |Run(f, evs).requests|
    decreases |evs|
  {
    if evs != [] {
      var g := Step(f, evs[0]);
      StepContentUpdates(f, evs[0]);
      ContentUpdatesPerRequest(g, evs[1..]);
    }
  }

  /** One event runs `UpdateContent` at most once, and only when it clears a loader. */
  lemma StepContentUpdates(f: Fetch, e: Event)
    requires Inv(f)
    ensures f.contentUpdates <= Step(f, e).contentUpdates <= f.contentUpdates + 1
    ensures Step(f, e).contentUpdates - f.contentUpdates <= Step(f, e).dropped - f.dropped
    ensures f.dropped <= Step(f, e).dropped
  {
    if e.Frame? {
      UpdateNeverGrantsReadiness(f, e.arrival);
    }
  }

  /**
   * A whole fetch from a fresh layer: after a content update is deferred,
   * setting a non-empty base URL, a frame that launches the request, a frame
   * that sees a successful response, and the hand-back, the layer is ready,
   * has made exactly the one GetCapabilities request, and has replayed the
   * deferred update once, even if a second hand-back is attempted.
   */
  lemma FetchFromFreshLayer(base: string, response: Response)
    requires base != "" && !Failed(response)
    ensures var f := Run(Initial, [Defer, SetBase(Some(base)), Frame(None), Frame(Some(response)), HandBack, HandBack]);
      f.ready && f.loader.NoLoader? && f.requests == [WmsRequest.CapabilitiesUrl(base)] && f.contentUpdates == 1
  {
    var url := WmsRequest.CapabilitiesUrl(base);
    var f1 := Step(Initial, Defer);
    var f2 := Step(f1, SetBase(Some(base)));
    var f3 := Step(f2, Frame(None));
    assert f3.loader == Loading(url) && f3.requests == [url];
    var f4 := Step(f3, Frame(Some(response)));
    assert f4.parsing && f4.loader == Done(url, response);
    var f5 := Step(f4, HandBack);
    assert f5.ready && f5.contentUpdates == 1 && !f5.parsing;
    var evs := [Defer, SetBase(Some(base)), Frame(None), Frame(Some(response)), HandBack, HandBack];
    assert Run(f5, evs[5..]) == Step(f5, HandBack);
    assert Run(f4, evs[4..]) == Run(f5, evs[5..]);
    assert Run(f3, evs[3..]) == Run(f4, evs[4..]);
    assert Run(f2, evs[2..]) == Run(f3, evs[3..]);
    assert Run(f1, evs[1..]) == Run(f2, evs[2..]);
  }

  /**
   * Setting a null or empty base URL while no request is in flight revokes
   * readiness at the next frame and launches nothing.
   */
  lemma EmptyBaseRevokesReadiness(f: Fetch, value: Option<string>, arrival: Option<Response>)
    requires f.loader.NoLoader? && !Launchable(value)
    ensures var r := Update(SetBaseURL(f, value), arrival);
      !r.ready && r.loader.NoLoader? && r.requests == f.requests && !r.baseURLChanged
  {
  }
}
