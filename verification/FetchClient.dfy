/** The same fetch as it runs: a request object changed in place along the redirects. */
module FetchClient {
  import opened Chunks
  import opened Wrappers
  import opened Utf8
  import opened Redirects
  import opened RedirectHops

  class RequestObject {
    var url: Url
    var locations: seq<Url>
    var verb: Verb
    var body: Option<Body>
    var policy: string
    const mode: Mode
    const redirect: RedirectMode
    const onlyIfCached: bool
    const clientWindow: bool

    constructor (url: Url, verb: Verb, body: Option<Body>, mode: Mode, redirect: RedirectMode,
                 onlyIfCached: bool, clientWindow: bool)
      ensures View() == Request(url, [url], verb, body, mode, redirect, "", onlyIfCached, clientWindow)
    {
      this.url, this.locations := url, [url];
      this.verb, this.body, this.policy := verb, body, "";
      this.mode, this.redirect := mode, redirect;
      this.onlyIfCached, this.clientWindow := onlyIfCached, clientWindow;
    }

    function View(): Request
      reads this
    {
      Request(url, locations, verb, body, mode, redirect, policy, onlyIfCached, clientWindow)
    }

    /** A copy starts over at the last location. */
    constructor Clone(other: RequestObject)
      requires other.locations != []
      ensures var last := other.locations[|other.locations| - 1];
              View() == other.View().(url := last, locations := [last])
    {
      var last := other.locations[|other.locations| - 1];
      url, locations := last, [last];
      verb, body, policy := other.verb, other.body, other.policy;
      mode, redirect := other.mode, other.redirect;
      onlyIfCached, clientWindow := other.onlyIfCached, other.clientWindow;
    }

    /** The request goes on to another location; some redirects make a GET of it. */
    method MoveTo(status: Option<nat>, location: Url)
      modifies this
      ensures View() == Redirected(old(View()), status, location)
      ensures status.Some? ==> (verb, body) == FormAfter(status.value, old(verb), old(body))
    {
      if (((status == Some(301) || status == Some(302)) && verb == POST)
          || (status == Some(303) && verb != GET && verb != HEAD)) {
        verb := GET;
        body := None;
      }
      locations := locations + [location];
      url := location;
    }

    predicate HasStreamBody()
      reads this
    {
      body == Some(Streamed)
    }
  }

  /** The client and the network behind it; `sent` and `calls` record what the fetch did. */
  class Client {
    const world: World
    var sent: seq<Sent>
    var calls: nat

    constructor (world: World)
      ensures this.world == world && sent == [] && calls == 0
    {
      this.world := world;
      sent, calls := [], 0;
    }

    function View(request: RequestObject): Fetch
      reads this, request
    {
      Fetch(request.View(), sent, calls)
    }

    method HttpNetworkFetch(request: RequestObject, hop: nat, again: bool) returns (outcome: Outcome)
      modifies `sent
      ensures (outcome, View(request)) == Redirects.HttpNetworkFetch(world, old(View(request)), hop, again)
      decreases !again
    {
      if request.onlyIfCached {
        return Failure();
      }
      var req := Sent(hop, request.url, request.verb, request.body, request.policy, again);
      var reply := world.network(|sent|, req);
      sent := sent + [req];
      var response;
      match reply {
        case None => return Failure();
        case Some(r) =>
          if r.reason.Some? && FromUtf8(r.reason.value) == None {
            return Panics(StatusText);
          }
          response := Response(DefaultKind, Some(request.url), false, Some(r.status), true, r.headers);
      }
      if response.status == Some(407) && !request.clientWindow {
        return Failure();
      }
      if response.status == Some(421) && !again && !request.HasStreamBody() {
        outcome := HttpNetworkFetch(request, hop, true);
        return;
      }
      outcome := Responds(response);
    }

    /** The last policy header that names a policy, if no other text is in the way. */
    method SearchPolicy(headers: seq<seq<byte>>) returns (search: Search)
      ensures search == FindPolicy(headers)
    {
      hide FromUtf8;
      var n := |headers|;
      assert headers[..n] == headers;
      while n > 0
        invariant 0 <= n <= |headers|
        invariant FindPolicy(headers) == FindPolicy(headers[..n])
      {
        n := n - 1;
        var value := headers[n];
        assert headers[..n + 1][..n] == headers[..n];
        if value != [] {
          match FromUtf8(value) {
            case None => return Malformed;
            case Some(text) => if text in POLICIES { return Found(text); }
          }
        }
      }
      search := Nothing;
    }

    method HttpRedirectFetch(request: RequestObject, response: Response, taint: Kind, redirections: nat)
      returns (final: Outcome)
      requires redirections <= MAX_REDIRECTIONS && response.url.Some?
      modifies this, request
      ensures (final, View(request)) ==
              Redirects.HttpRedirectFetch(world, old(View(request)), response, taint, redirections)
      decreases MAX_REDIRECTIONS - redirections, 0
    {
      hide Redirects.MoveOn, FromUtf8;
      var headers := response.headers.location;
      if headers == [] {
        return Responds(response);
      }
      if |headers| > 1 {
        return Failure();
      }
      var text := FromUtf8(headers[0]);
      if text == None {
        return Panics(LocationText);
      }
      var parsed := world.parse(response.url.value, text.value);
      if parsed == None {
        return Failure();
      }
      var location := parsed.value;
      if location.fragment == None {
        location := location.(fragment := response.url.value.fragment);
      }
      if !(location.scheme == "https" || location.scheme == "http") {
        return Failure();
      }
      if redirections >= MAX_REDIRECTIONS {
        return Failure();
      }
      if taint == CorsKind && location.credentials {
        return Failure();
      }
      if response.status != Some(303) && request.HasStreamBody() {
        return Failure();
      }
      final := MoveOn(request, response, location, redirections);
    }

    method MoveOn(request: RequestObject, response: Response, location: Url, redirections: nat)
      returns (final: Outcome)
      requires redirections < MAX_REDIRECTIONS
      modifies this, request
      ensures (final, View(request)) == Redirects.MoveOn(world, old(View(request)), response, location, redirections)
      decreases MAX_REDIRECTIONS - redirections - 1, 3
    {
      hide Redirects.MainFetch, Redirected, FindPolicy;
      request.MoveTo(response.status, location);
      var policy := SearchPolicy(response.headers.policy);
      match policy {
        case Malformed => return Panics(PolicyText);
        case Found(name) => request.policy := name;
        case Nothing =>
      }
      final := MainFetch(request, redirections + 1);
    }

    method HttpFetch(request: RequestObject, taint: Kind, redirections: nat)
      returns (outcome: Outcome, isOpaque: bool)
      requires redirections <= MAX_REDIRECTIONS
      modifies this, request
      ensures ((outcome, isOpaque), View(request)) ==
              Redirects.HttpFetch(world, old(View(request)), taint, redirections)
      decreases MAX_REDIRECTIONS - redirections, 1
    {
      hide Redirects.MainFetch, Redirects.HttpRedirectFetch, Redirects.HttpNetworkFetch;
      outcome := HttpNetworkFetch(request, redirections, false);
      isOpaque := false;
      if outcome.Responds? && IsRedirection(outcome.response.status) {
        match request.redirect {
          case Follow => outcome := HttpRedirectFetch(request, outcome.response, taint, redirections);
          case RefuseRedirect => outcome := Failure();
          case Manual => isOpaque := true;
        }
      }
    }

    method MainFetch(request: RequestObject, redirections: nat) returns (outcome: Outcome)
      requires redirections <= MAX_REDIRECTIONS
      modifies this, request
      ensures (outcome, View(request)) == Redirects.MainFetch(world, old(View(request)), redirections)
      decreases MAX_REDIRECTIONS - redirections, 2
    {
      hide Redirects.HttpFetch, Redirects.HttpRedirectFetch, Redirects.HttpNetworkFetch, Filtered;
      calls := calls + 1;
      var taint, isOpaque := Basic, false;
      if request.mode == SameOrigin {
        outcome := Failure();
      } else if request.url.scheme in LOCAL_SCHEMES {
        var status := world.local(request.View());
        match status {
          case Some(code) =>
            outcome := Responds(Response(Basic, Some(request.url), false, Some(code), true, NO_HEADERS));
          case None => outcome := Failure();
        }
      } else if request.url.scheme == "https" || request.url.scheme == "http" {
        if request.url.port.Some? && request.url.port.value in BAD_PORTS {
          return Failure();
        }
        if request.mode == NoCors {
          if request.redirect != Follow {
            return Failure();
          }
        } else {
          taint := CorsKind;
        }
        outcome, isOpaque := HttpFetch(request, taint, redirections);
        if outcome.Panics? {
          return;
        }
      } else {
        outcome := Failure();
      }

      var response := outcome.response;
      var redirected := redirections > 0;
      if redirected || response.kind == NetworkFailure {
        return Responds(response.(redirected := redirected));
      }
      outcome := Responds(Filtered(response, isOpaque, taint, request.View()));
    }

    /** The fetch of a new request: what the lemmas of Redirects say of it, for this client's network. */
    method FetchInternal(request: RequestObject) returns (outcome: Outcome)
      requires request.locations == [request.url]
      modifies this, request
      ensures 1 <= |request.locations| == calls - old(calls) + Short(outcome) <= 21
      ensures request.url == request.locations[|request.locations| - 1]
      ensures outcome.Responds? ==>
                (outcome.response.redirected <==> !IsError(outcome.response) && |request.locations| > 1)
    {
      hide Redirects.MainFetch;
      MainFetchTravels(world, View(request), 0);
      outcome := MainFetch(request, 0);
    }
  }
}
