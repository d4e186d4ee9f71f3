/** Fetching with redirects, against any network. */
module Redirects {
  import opened Chunks
  import opened Wrappers
  import opened Utf8

  datatype Url = Url(scheme: string, port: Option<nat>, credentials: bool, fragment: Option<string>, rest: string)

  datatype Verb = GET | HEAD | POST | PUT | CONNECT | OtherVerb(name: string)

  datatype Body = Bytes(bytes: seq<byte>) | Streamed

  datatype Mode = SameOrigin | Cors | NoCors | Navigate

  datatype RedirectMode = Follow | RefuseRedirect | Manual

  datatype Request = Request(
    url: Url,
    locations: seq<Url>,
    verb: Verb,
    body: Option<Body>,
    mode: Mode,
    redirect: RedirectMode,
    policy: string,
    onlyIfCached: bool,
    clientWindow: bool)

  datatype Kind = DefaultKind | Basic | CorsKind | OpaqueRedirect | NetworkFailure

  datatype Response = Response(
    kind: Kind,
    url: Option<Url>,
    redirected: bool,
    status: Option<nat>,
    hasBody: bool,
    headers: Headers)

  /** The values of the Location and Referrer-Policy headers, as they come from the network. */
  datatype Headers = Headers(location: seq<seq<byte>>, policy: seq<seq<byte>>)

  const NO_HEADERS := Headers([], [])

  /** Where a panic comes from: a text from the network that is not UTF-8. */
  datatype Cause = StatusText | LocationText | PolicyText

  datatype Outcome = Responds(response: Response) | Panics(cause: Cause)

  /** One request put on the network, for the location numbered `hop`; `again` marks a second try. */
  datatype Sent = Sent(hop: nat, url: Url, verb: Verb, body: Option<Body>, policy: string, again: bool)

  /** `reason` is the status text, if it is not the usual one. */
  datatype Reply = Reply(status: nat, reason: Option<seq<byte>>, headers: Headers)

  /**
   What the program cannot choose: how the network answers request number k, how URLs parse against a
   base, and what the schemes without a network hold.
   */
  datatype World = World(
    network: (nat, Sent) -> Option<Reply>,
    parse: (Url, string) -> Option<Url>,
    local: Request -> Option<nat>)

  /** A fetch under way: its request, what has been sent, and how often MainFetch was entered. */
  datatype Fetch = Fetch(request: Request, sent: seq<Sent>, calls: nat)

  const BAD_PORTS: set<nat> := {
    1, 7, 9, 11, 13, 15, 17, 19, 20, 21, 22, 23, 25, 37, 42, 43, 53, 69, 77, 79, 87, 95, 101, 102, 103, 104,
    109, 110, 111, 113, 115, 117, 119, 123, 135, 137, 139, 143, 161, 179, 389, 427, 465, 512, 513, 514, 515,
    526, 530, 531, 532, 540, 548, 554, 556, 563, 587, 601, 636, 989, 990, 993, 995, 1719, 1720, 1723, 2049,
    3659, 4045, 5060, 5061, 6000, 6566, 6665, 6666, 6667, 6668, 6669, 6697, 10080
  }

  const LOCAL_SCHEMES := {"about", "blob", "data", "file"}

  const NULL_BODY_STATUSES: set<nat> := {101, 103, 204, 205, 304}

  const MAX_REDIRECTIONS: nat := 20

  predicate IsHttp(url: Url) {
    url.scheme == "https" || url.scheme == "http"
  }

  predicate IsRedirection(status: Option<nat>) {
    status.Some? && 300 <= status.value < 400
  }

  function NetworkError(): Response {
    Response(NetworkFailure, None, false, None, false, NO_HEADERS)
  }

  function Failure(): Outcome {
    Responds(NetworkError())
  }

  predicate HasStream(request: Request) {
    request.body == Some(Streamed)
  }

  // ---- The four functions ------------------------------------------------------------------------

  function HttpNetworkFetch(w: World, f: Fetch, hop: nat, again: bool): (r: (Outcome, Fetch))
    ensures r.0.Responds? && r.0.response.status.Some? ==> r.0.response.url.Some?
    decreases !again
  {
    if f.request.onlyIfCached then (Failure(), f)
    else
      var sent := Sent(hop, f.request.url, f.request.verb, f.request.body, f.request.policy, again);
      var g := f.(sent := f.sent + [sent]);
      match w.network(|f.sent|, sent)
      case None => (Failure(), g)
      case Some(reply) =>
        if BadReason(reply) then (Panics(StatusText), g)
        else if reply.status == 407 && !f.request.clientWindow then (Failure(), g)
        else if reply.status == 421 && !again && !HasStream(f.request) then HttpNetworkFetch(w, g, hop, true)
        else
          (Responds(Response(DefaultKind, Some(f.request.url), false, Some(reply.status), true, reply.headers)), g)
  }

  predicate BadReason(reply: Reply) {
    reply.reason.Some? && FromUtf8(reply.reason.value) == None
  }

  /** The redirect's target, with the fragment of the current URL unless it has its own. */
  function Target(w: World, base: Url, header: string): Option<Url> {
    match w.parse(base, header)
    case None => None
    case Some(url) => Some(if url.fragment == None then url.(fragment := base.fragment) else url)
  }

  predicate BecomesGet(request: Request, status: Option<nat>) {
    || ((status == Some(301) || status == Some(302)) && request.verb == POST)
    || (status == Some(303) && request.verb != GET && request.verb != HEAD)
  }

  function Redirected(request: Request, status: Option<nat>, target: Url): Request {
    var r := if BecomesGet(request, status) then request.(verb := GET, body := None) else request;
    r.(url := target, locations := request.locations + [target])
  }

  const POLICIES := {
    "", "no-referrer", "no-referrer-when-downgrade", "origin", "origin-when-cross-origin", "same-origin",
    "strict-origin", "strict-origin-when-cross-origin", "unsafe-url"
  }

  datatype Search = Nothing | Found(policy: string) | Malformed

  /** The last header that names a policy; a header that is not UTF-8 is met before it, or is passed by. */
  function FindPolicy(headers: seq<seq<byte>>): Search {
    if headers == [] then Nothing
    else
      var value, others := headers[|headers| - 1], headers[..|headers| - 1];
      if value == [] then FindPolicy(others)
      else
        match FromUtf8(value)
        case None => Malformed
        case Some(text) => if text in POLICIES then Found(text) else FindPolicy(others)
  }

  function HttpRedirectFetch(w: World, f: Fetch, response: Response, taint: Kind, redirections: nat): (Outcome, Fetch)
    requires redirections <= MAX_REDIRECTIONS && response.url.Some?
    decreases MAX_REDIRECTIONS - redirections, 0
  {
    var location := response.headers.location;
    if location == [] then (Responds(response), f)
    else if |location| > 1 then (Failure(), f)
    else
      match FromUtf8(location[0])
      case None => (Panics(LocationText), f)
      case Some(text) =>
        match Target(w, response.url.value, text)
        case None => (Failure(), f)
        case Some(target) =>
          if !IsHttp(target) then (Failure(), f)
          else if redirections >= MAX_REDIRECTIONS then (Failure(), f)
          else if taint == CorsKind && target.credentials then (Failure(), f)
          else if response.status != Some(303) && HasStream(f.request) then (Failure(), f)
          else MoveOn(w, f, response, target, redirections)
  }

  /** The request moves on to the target, under the policy that the redirect names. */
  function MoveOn(w: World, f: Fetch, response: Response, target: Url, redirections: nat): (Outcome, Fetch)
    requires redirections < MAX_REDIRECTIONS
    decreases MAX_REDIRECTIONS - redirections - 1, 3
  {
    var request := Redirected(f.request, response.status, target);
    match FindPolicy(response.headers.policy)
    case Malformed => (Panics(PolicyText), f.(request := request))
    case Found(policy) => MainFetch(w, f.(request := request.(policy := policy)), redirections + 1)
    case Nothing => MainFetch(w, f.(request := request), redirections + 1)
  }

  /** With whether the response is an opaque redirect. */
  function HttpFetch(w: World, f: Fetch, taint: Kind, redirections: nat): ((Outcome, bool), Fetch)
    requires redirections <= MAX_REDIRECTIONS
    decreases MAX_REDIRECTIONS - redirections, 1
  {
    var (outcome, g) := HttpNetworkFetch(w, f, redirections, false);
    if outcome.Responds? && IsRedirection(outcome.response.status) then
      match f.request.redirect
      case Follow =>
        var (final, h) := HttpRedirectFetch(w, g, outcome.response, taint, redirections);
        ((final, false), h)
      case RefuseRedirect => ((Failure(), false), g)
      case Manual => ((outcome, true), g)
    else ((outcome, false), g)
  }

  /** What the outermost call makes of a response that is not an error. */
  function Filtered(response: Response, isOpaque: bool, taint: Kind, request: Request): Response {
    if isOpaque then response.(kind := OpaqueRedirect, url := None, status := None, hasBody := false)
    else
      response.(
        kind := taint,
        url := if response.url == None then Some(request.url) else response.url,
        hasBody := response.hasBody && request.verb != HEAD && request.verb != CONNECT
                   && !(response.status.Some? && response.status.value in NULL_BODY_STATUSES))
  }

  function Concluded(outcome: Outcome, isOpaque: bool, taint: Kind, request: Request, redirections: nat): Outcome {
    match outcome
    case Panics(_) => outcome
    case Responds(response) =>
      if redirections > 0 || response.kind == NetworkFailure then
        Responds(response.(redirected := redirections > 0))
      else Responds(Filtered(response, isOpaque, taint, request))
  }

  function MainFetch(w: World, f: Fetch, redirections: nat): (Outcome, Fetch)
    requires redirections <= MAX_REDIRECTIONS
    decreases MAX_REDIRECTIONS - redirections, 2
  {
    var g := f.(calls := f.calls + 1);
    var request := f.request;
    if request.mode == SameOrigin then
      (Concluded(Failure(), false, Basic, request, redirections), g)
    else if request.url.scheme in LOCAL_SCHEMES then
      var response :=
        match w.local(request)
        case Some(status) => Response(Basic, Some(request.url), false, Some(status), true, NO_HEADERS)
        case None => NetworkError();
      (Concluded(Responds(response), false, Basic, request, redirections), g)
    else if IsHttp(request.url) then
      if request.url.port.Some? && request.url.port.value in BAD_PORTS then (Failure(), g)
      else if request.mode == NoCors && request.redirect != Follow then (Failure(), g)
      else
        var taint := if request.mode == NoCors then Basic else CorsKind;
        var ((outcome, isOpaque), h) := HttpFetch(w, g, taint, redirections);
        (Concluded(outcome, isOpaque, taint, h.request, redirections), h)
    else (Concluded(Failure(), false, Basic, request, redirections), g)
  }

  // ---- What holds after each of them -------------------------------------------------------------

  /** The request is at hop number `hop`: it is for the last of its locations. */
  predicate AtHop(request: Request, hop: nat) {
    |request.locations| == hop + 1 && request.url == request.locations[hop]
  }

  /** The verb and body are the original ones, or a redirect has made a GET of another verb than HEAD. */
  predicate SameForm(original: Request, verb: Verb, body: Option<Body>) {
    || (verb == original.verb && body == original.body)
    || (verb == GET && body == None && original.verb != GET && original.verb != HEAD)
  }

  /** New requests, for the hops from `first` to `last`, in order and at most two for each. */
  ghost predicate Sends(before: Fetch, after: Fetch, first: nat, last: nat) {
    && before.sent <= after.sent
    && |after.sent| - |before.sent| <= 2 * (last + 1 - first)
    && last < |after.request.locations|
    && (forall i :: |before.sent| <= i < |after.sent| ==>
          && first <= after.sent[i].hop <= last
          && after.sent[i].url == after.request.locations[after.sent[i].hop]
          && SameForm(before.request, after.sent[i].verb, after.sent[i].body))
    && (forall i, j :: |before.sent| <= i && i + 2 <= j < |after.sent| ==> after.sent[i].hop < after.sent[j].hop)
  }

  /** From hop `r` to the hop reached, entering MainFetch once for each further hop. */
  ghost predicate Travels(before: Fetch, after: Fetch, r: nat, entries: int) {
    var last := |after.request.locations| - 1;
    && r <= last <= MAX_REDIRECTIONS
    && AtHop(before.request, r) && AtHop(after.request, last)
    && before.request.locations <= after.request.locations
    && (forall i :: r < i <= last ==> IsHttp(after.request.locations[i]))
    && after.calls == before.calls + entries + (last - r)
    && SameForm(before.request, after.request.verb, after.request.body)
    && after.request.redirect == before.request.redirect
  }

  predicate IsError(response: Response) { response.kind == NetworkFailure }

  /** A panic over the policy comes after the request has moved on, and before MainFetch is entered again. */
  function Short(outcome: Outcome): int {
    if outcome == Panics(PolicyText) then 1 else 0
  }

  /** A journey from hop `r`, with what it sends from hop `first` on. */
  ghost predicate Journey(before: Fetch, outcome: Outcome, after: Fetch, r: nat, first: nat, entries: int) {
    && Travels(before, after, r, entries - Short(outcome))
    && Sends(before, after, first, |after.request.locations| - 1)
  }

  predicate MovedOn(after: Fetch, r: nat) {
    |after.request.locations| > r + 1
  }

  lemma {:induction false} NetworkFetchSends(w: World, f: Fetch, hop: nat, again: bool)
    requires AtHop(f.request, hop)
    ensures var (outcome, g) := HttpNetworkFetch(w, f, hop, again);
            && g.request == f.request && g.calls == f.calls
            && f.sent <= g.sent && |g.sent| - |f.sent| <= (if again then 1 else 2)
            && (forall i :: |f.sent| <= i < |g.sent| ==>
                  && g.sent[i].hop == hop && g.sent[i].url == f.request.url
                  && g.sent[i].verb == f.request.verb && g.sent[i].body == f.request.body)
    ensures var outcome := HttpNetworkFetch(w, f, hop, again).0;
            || outcome == Panics(StatusText)
            || outcome == Failure()
            || (outcome.Responds? && outcome.response.kind == DefaultKind
                && outcome.response.url == Some(f.request.url)
                && !outcome.response.redirected && outcome.response.status.Some?)
    decreases !again
  {
    if !f.request.onlyIfCached {
      var sent := Sent(hop, f.request.url, f.request.verb, f.request.body, f.request.policy, again);
      var g := f.(sent := f.sent + [sent]);
      var reply := w.network(|f.sent|, sent);
      if reply.Some? && !BadReason(reply.value) && !(reply.value.status == 407 && !f.request.clientWindow)
         && reply.value.status == 421 && !again && !HasStream(f.request) {
        NetworkFetchSends(w, g, hop, true);
      }
    }
  }

  lemma RedirectThenMain(
      f: Fetch, status: Option<nat>, target: Url, policy: string, h: Fetch, r: nat, entries: int)
    requires AtHop(f.request, r) && IsHttp(target)
    requires var g := f.(request := Redirected(f.request, status, target).(policy := policy));
             Travels(g, h, r + 1, entries) && Sends(g, h, r + 1, |h.request.locations| - 1)
    ensures Travels(f, h, r, entries - 1) && Sends(f, h, r + 1, |h.request.locations| - 1)
  {
    var locations := f.request.locations + [target];
    assert locations[r + 1] == target == h.request.locations[r + 1];
  }

  lemma SendsThenSends(f: Fetch, g: Fetch, h: Fetch, r: nat)
    requires AtHop(f.request, r) && g.request == f.request
    requires f.sent <= g.sent && |g.sent| - |f.sent| <= 2
    requires forall i :: |f.sent| <= i < |g.sent| ==>
               && g.sent[i].hop == r && g.sent[i].url == f.request.url
               && g.sent[i].verb == f.request.verb && g.sent[i].body == f.request.body
    requires f.request.locations <= h.request.locations
    requires r < |h.request.locations| && Sends(g, h, r + 1, |h.request.locations| - 1)
    ensures Sends(f, h, r, |h.request.locations| - 1)
  {
    assert forall i :: 0 <= i < |g.sent| ==> h.sent[i] == g.sent[i];
  }

  /** A result is an error, or says rightly whether it was redirected, and comes from the last location. */
  predicate Honest(outcome: Outcome, after: Fetch, redirected: bool) {
    outcome.Responds? ==>
      var response := outcome.response;
      || IsError(response)
      || (response.redirected == redirected
          && (response.kind != OpaqueRedirect ==> response.url == Some(after.request.url)))
  }

  predicate IsOpaque(outcome: Outcome) {
    outcome.Responds? && outcome.response.kind == OpaqueRedirect
  }

  lemma RedirectFetchTravels(w: World, f: Fetch, response: Response, taint: Kind, r: nat)
    requires r <= MAX_REDIRECTIONS && AtHop(f.request, r)
    requires response.url == Some(f.request.url) && response.kind == DefaultKind && !response.redirected
    ensures var (final, h) := HttpRedirectFetch(w, f, response, taint, r);
            Journey(f, final, h, r, r + 1, 0) && Honest(final, h, MovedOn(h, r)) && !IsOpaque(final)
    decreases MAX_REDIRECTIONS - r, 0
  {
    hide Journey, MoveOn, FromUtf8, Target;
    NoJourney(f, Responds(response), r);
    NoJourney(f, Failure(), r);
    NoJourney(f, Panics(LocationText), r);
    if |response.headers.location| == 1 && FromUtf8(response.headers.location[0]).Some? {
      var target := Target(w, response.url.value, FromUtf8(response.headers.location[0]).value);
      if target.Some? && IsHttp(target.value) && r < MAX_REDIRECTIONS
         && !(taint == CorsKind && target.value.credentials)
         && !(response.status != Some(303) && HasStream(f.request)) {
        MoveOnTravels(w, f, response, target.value, r);
      }
    }
  }

  lemma MoveOnTravels(w: World, f: Fetch, response: Response, target: Url, r: nat)
    requires r < MAX_REDIRECTIONS && AtHop(f.request, r) && IsHttp(target)
    ensures var (final, h) := MoveOn(w, f, response, target, r);
            Journey(f, final, h, r, r + 1, 0) && Honest(final, h, MovedOn(h, r)) && !IsOpaque(final)
    decreases MAX_REDIRECTIONS - r - 1, 3
  {
    hide Travels, Sends, MainFetch, FindPolicy;
    var request := Redirected(f.request, response.status, target);
    var search := FindPolicy(response.headers.policy);
    var policy := if search.Found? then search.policy else request.policy;
    var g := f.(request := request.(policy := policy));
    if search == Malformed {
      StaysPut(g, r + 1);
      RedirectThenMain(f, response.status, target, policy, g, r, 0);
    } else {
      MainFetchTravels(w, g, r + 1);
      var (final, h) := MainFetch(w, g, r + 1);
      LastHop(g, h, r + 1, 1 - Short(final));
      RedirectThenMain(f, response.status, target, policy, h, r, 1 - Short(final));
    }
  }

  lemma NoJourney(f: Fetch, outcome: Outcome, r: nat)
    requires r <= MAX_REDIRECTIONS && AtHop(f.request, r) && outcome != Panics(PolicyText)
    ensures Journey(f, outcome, f, r, r + 1, 0)
  {
    StaysPut(f, r);
  }

  lemma StaysPut(f: Fetch, r: nat)
    requires r <= MAX_REDIRECTIONS && AtHop(f.request, r)
    ensures Travels(f, f, r, 0) && Sends(f, f, r + 1, r)
  {
  }

  lemma LastHop(f: Fetch, g: Fetch, r: nat, entries: int)
    requires Travels(f, g, r, entries)
    ensures r + 1 <= |g.request.locations| <= MAX_REDIRECTIONS + 1
    ensures AtHop(g.request, |g.request.locations| - 1) && f.request.locations <= g.request.locations
    ensures g.request.redirect == f.request.redirect
  {
  }

  lemma HttpFetchTravels(w: World, f: Fetch, taint: Kind, r: nat)
    requires r <= MAX_REDIRECTIONS && AtHop(f.request, r)
    ensures var ((outcome, isOpaque), h) := HttpFetch(w, f, taint, r);
            && Journey(f, outcome, h, r, r, 0) && Honest(outcome, h, MovedOn(h, r)) && !IsOpaque(outcome)
            && (isOpaque ==>
                  !MovedOn(h, r) && f.request.redirect == Manual
                  && outcome.Responds? && !IsError(outcome.response))
    decreases MAX_REDIRECTIONS - r, 1
  {
    hide Travels, Sends, HttpNetworkFetch, HttpRedirectFetch;
    var (outcome, g) := HttpNetworkFetch(w, f, r, false);
    NetworkFetchSends(w, f, r, false);
    StaysPut(g, r);
    SendsThenSends(f, g, g, r);
    FromNetwork(f, g, g, r, 0);
    if outcome.Responds? && IsRedirection(outcome.response.status) && f.request.redirect == Follow {
      RedirectFetchTravels(w, g, outcome.response, taint, r);
      var (final, h) := HttpRedirectFetch(w, g, outcome.response, taint, r);
      LastHop(g, h, r, -Short(final));
      SendsThenSends(f, g, h, r);
      FromNetwork(f, g, h, r, -Short(final));
    }
  }

  /** The network stage and the call counter are all that can differ before the journey. */
  lemma FromNetwork(f: Fetch, g: Fetch, h: Fetch, r: nat, entries: int)
    requires g.request == f.request && Travels(g, h, r, entries)
    requires g.calls == f.calls
    ensures Travels(f, h, r, entries)
  {
  }

  lemma FromEntry(f: Fetch, h: Fetch, r: nat, entries: int)
    requires var g := f.(calls := f.calls + 1);
             Travels(g, h, r, entries) && Sends(g, h, r, |h.request.locations| - 1)
    ensures Travels(f, h, r, entries + 1) && Sends(f, h, r, |h.request.locations| - 1)
  {
  }

  lemma MainFetchTravels(w: World, f: Fetch, r: nat)
    requires r <= MAX_REDIRECTIONS && AtHop(f.request, r)
    ensures var (outcome, h) := MainFetch(w, f, r);
            && Journey(f, outcome, h, r, r, 1) && Honest(outcome, h, MovedOn(h, 0))
            && (r == 0 && outcome.Responds? ==>
                  (IsError(outcome.response) ==> !outcome.response.redirected)
                  && outcome.response.kind != DefaultKind)
            && (IsOpaque(outcome) ==> r == 0 && !MovedOn(h, 0) && f.request.redirect == Manual)
    decreases MAX_REDIRECTIONS - r, 2
  {
    hide Travels, Sends, HttpFetch;
    var g := f.(calls := f.calls + 1);
    StaysPut(g, r);
    SendsThenSends(g, g, g, r);
    FromEntry(f, g, r, 0);
    if f.request.mode != SameOrigin && f.request.url.scheme !in LOCAL_SCHEMES && IsHttp(f.request.url)
       && !(f.request.url.port.Some? && f.request.url.port.value in BAD_PORTS)
       && !(f.request.mode == NoCors && f.request.redirect != Follow) {
      var taint := if f.request.mode == NoCors then Basic else CorsKind;
      HttpFetchTravels(w, g, taint, r);
      var ((outcome, isOpaque), h) := HttpFetch(w, g, taint, r);
      LastHop(g, h, r, -Short(outcome));
      FromEntry(f, h, r, -Short(outcome));
    }
  }

  // ---- The whole fetch ---------------------------------------------------------------------------

  /** A fetch that has yet to enter MainFetch, at its only location. */
  predicate AtStart(f: Fetch, redirections: nat) {
    redirections == 0 && f.request.locations == [f.request.url] && f.sent == [] && f.calls == 0
  }

  /** What a journey that starts at the first location amounts to. */
  ghost predicate Bounded(first: Url, outcome: Outcome, h: Fetch) {
    var locations := h.request.locations;
    && 1 <= |locations| == h.calls + Short(outcome) <= 21
    && |h.sent| <= 2 * |locations| <= 42
    && locations[0] == first && h.request.url == locations[|locations| - 1]
    && (forall i :: 1 <= i < |locations| ==> IsHttp(locations[i]))
  }

  ghost predicate InOrderOfHops(h: Fetch) {
    && (forall i :: 0 <= i < |h.sent| ==>
          h.sent[i].hop < |h.request.locations| && h.sent[i].url == h.request.locations[h.sent[i].hop])
    && (forall i, j :: 0 <= i && i + 2 <= j < |h.sent| ==> h.sent[i].hop < h.sent[j].hop)
  }

  lemma WholeJourney(f: Fetch, outcome: Outcome, h: Fetch)
    requires AtStart(f, 0) && Journey(f, outcome, h, 0, 0, 1)
    ensures Bounded(f.request.url, outcome, h) && InOrderOfHops(h)
  {
  }

  /**
   Against any network, a fetch enters MainFetch at most 21 times, once for each location, and sends
   at most 42 requests, at most two for each location and in their order. The request ends at the last
   of its locations; every location after the first is http(s). Only a panic over the policy of the
   last redirect leaves MainFetch to be entered for it.
   */
  lemma EveryFetchEnds(w: World, f: Fetch, redirections: nat)
    requires AtStart(f, redirections)
    ensures var (outcome, h) := MainFetch(w, f, redirections);
            Bounded(f.request.url, outcome, h) && InOrderOfHops(h)
  {
    hide MainFetch, Journey, Bounded, InOrderOfHops;
    MainFetchTravels(w, f, redirections);
    var (outcome, h) := MainFetch(w, f, redirections);
    WholeJourney(f, outcome, h);
  }

  /** Only a redirected answer says so, and it is for the last location; an error never says so. */
  lemma RedirectedIsHonest(w: World, f: Fetch, redirections: nat)
    requires AtStart(f, redirections)
    ensures var (outcome, h) := MainFetch(w, f, redirections);
            outcome.Responds? ==>
              var response := outcome.response;
              && (response.redirected <==> !IsError(response) && |h.request.locations| > 1)
              && (!IsError(response) && response.kind != OpaqueRedirect ==> response.url == Some(h.request.url))
              && (response.kind == OpaqueRedirect ==>
                    f.request.redirect == Manual && h.request.locations == [f.request.url])
  {
    hide MainFetch;
    MainFetchTravels(w, f, redirections);
  }

  /**
   Every request sent has the verb and body of the first, or is a GET without a body; a GET or HEAD
   keeps its verb and body throughout.
   */
  lemma FormsAreKept(w: World, f: Fetch, redirections: nat)
    requires AtStart(f, redirections)
    ensures var h := MainFetch(w, f, redirections).1;
            forall i :: 0 <= i < |h.sent| ==> SameForm(f.request, h.sent[i].verb, h.sent[i].body)
  {
    hide MainFetch;
    MainFetchTravels(w, f, redirections);
  }

  // ---- Exactly when a fetch panics ---------------------------------------------------------------

  /** How the network answered the last request sent. */
  function LastReply(w: World, h: Fetch): Option<Reply> {
    if h.sent == [] then None else w.network(|h.sent| - 1, h.sent[|h.sent| - 1])
  }

  predicate BadStatusText(w: World, h: Fetch) {
    LastReply(w, h).Some? && BadReason(LastReply(w, h).value)
  }

  /** The last reply is a redirect to be followed, to one location that is not UTF-8. */
  predicate BadLocation(w: World, h: Fetch) {
    && LastReply(w, h).Some?
    && var reply := LastReply(w, h).value;
       && !BadReason(reply) && IsRedirection(Some(reply.status)) && h.request.redirect == Follow
       && |reply.headers.location| == 1 && FromUtf8(reply.headers.location[0]) == None
  }

  predicate BadPolicy(w: World, h: Fetch) {
    LastReply(w, h).Some? && FindPolicy(LastReply(w, h).value.headers.policy) == Malformed
  }

  /** What the outcome says of the last reply. */
  predicate Explained(w: World, outcome: Outcome, h: Fetch) {
    && (outcome == Panics(StatusText) <==> BadStatusText(w, h))
    && (outcome == Panics(LocationText) <==> BadLocation(w, h))
    && (outcome == Panics(PolicyText) ==> BadPolicy(w, h))
  }

  lemma {:induction false} NetworkFetchExplained(w: World, f: Fetch, hop: nat, again: bool)
    requires !BadStatusText(w, f) && !BadLocation(w, f)
    ensures var (outcome, g) := HttpNetworkFetch(w, f, hop, again);
            && g.request == f.request
            && (outcome == Panics(StatusText) <==> BadStatusText(w, g))
            && (outcome.Panics? ==> outcome.cause == StatusText)
            && (outcome.Responds? ==>
                  if outcome.response.status == None then !BadLocation(w, g)
                  else LastReply(w, g).Some?
                       && outcome.response.status == Some(LastReply(w, g).value.status)
                       && outcome.response.headers == LastReply(w, g).value.headers)
    decreases !again
  {
    hide FromUtf8;
    if !f.request.onlyIfCached {
      var sent := Sent(hop, f.request.url, f.request.verb, f.request.body, f.request.policy, again);
      var g := f.(sent := f.sent + [sent]);
      var reply := w.network(|f.sent|, sent);
      if reply.Some? && !BadReason(reply.value) && !(reply.value.status == 407 && !f.request.clientWindow)
         && reply.value.status == 421 && !again && !HasStream(f.request) {
        NetworkFetchExplained(w, g, hop, true);
      }
    }
  }

  lemma RedirectFetchExplained(w: World, f: Fetch, response: Response, taint: Kind, r: nat)
    requires r <= MAX_REDIRECTIONS && response.url.Some? && f.request.redirect == Follow
    requires !BadStatusText(w, f) && LastReply(w, f).Some? && IsRedirection(response.status)
    requires response.status == Some(LastReply(w, f).value.status)
    requires response.headers == LastReply(w, f).value.headers
    ensures var (final, h) := HttpRedirectFetch(w, f, response, taint, r); Explained(w, final, h)
    decreases MAX_REDIRECTIONS - r, 0
  {
    hide FromUtf8, FindPolicy, MoveOn;
    if |response.headers.location| == 1 && FromUtf8(response.headers.location[0]).Some? {
      var target := Target(w, response.url.value, FromUtf8(response.headers.location[0]).value);
      if target.Some? && IsHttp(target.value) && r < MAX_REDIRECTIONS {
        MoveOnExplained(w, f, response, target.value, r);
      }
    }
  }

  lemma MoveOnExplained(w: World, f: Fetch, response: Response, target: Url, r: nat)
    requires r < MAX_REDIRECTIONS && !BadStatusText(w, f) && !BadLocation(w, f) && LastReply(w, f).Some?
    requires response.headers == LastReply(w, f).value.headers
    ensures var (final, h) := MoveOn(w, f, response, target, r); Explained(w, final, h)
    decreases MAX_REDIRECTIONS - r - 1, 3
  {
    hide FromUtf8, FindPolicy, MainFetch;
    var request := Redirected(f.request, response.status, target);
    match FindPolicy(response.headers.policy)
    case Malformed =>
    case Found(policy) => MainFetchExplained(w, f.(request := request.(policy := policy)), r + 1);
    case Nothing => MainFetchExplained(w, f.(request := request), r + 1);
  }

  lemma HttpFetchExplained(w: World, f: Fetch, taint: Kind, r: nat)
    requires r <= MAX_REDIRECTIONS && !BadStatusText(w, f) && !BadLocation(w, f)
    ensures var ((outcome, isOpaque), h) := HttpFetch(w, f, taint, r); Explained(w, outcome, h)
    decreases MAX_REDIRECTIONS - r, 1
  {
    hide HttpNetworkFetch, HttpRedirectFetch, FromUtf8, BadReason, FindPolicy;
    var (outcome, g) := HttpNetworkFetch(w, f, r, false);
    NetworkFetchExplained(w, f, r, false);
    if outcome.Responds? && IsRedirection(outcome.response.status) && f.request.redirect == Follow {
      RedirectFetchExplained(w, g, outcome.response, taint, r);
    }
  }

  lemma MainFetchExplained(w: World, f: Fetch, r: nat)
    requires r <= MAX_REDIRECTIONS && !BadStatusText(w, f) && !BadLocation(w, f)
    ensures var (outcome, h) := MainFetch(w, f, r); Explained(w, outcome, h)
    decreases MAX_REDIRECTIONS - r, 2
  {
    hide HttpFetch, BadStatusText, BadLocation, BadPolicy, Filtered;
    var g := f.(calls := f.calls + 1);
    CallsExplainNothing(w, f, g);
    var taint := if f.request.mode == NoCors then Basic else CorsKind;
    HttpFetchExplained(w, g, taint, r);
  }

  lemma CallsExplainNothing(w: World, f: Fetch, g: Fetch)
    requires g == f.(calls := g.calls)
    ensures BadStatusText(w, g) == BadStatusText(w, f) && BadLocation(w, g) == BadLocation(w, f)
  {
  }

  /**
   A fetch panics if and only if the reply that came last has a status text, or a location to be
   followed, that is not UTF-8, or the request has moved on and the policy found for it is not.
   */
  lemma FetchPanicsIff(w: World, f: Fetch, redirections: nat)
    requires AtStart(f, redirections)
    ensures var (outcome, h) := MainFetch(w, f, redirections);
            outcome.Panics? <==>
              BadStatusText(w, h) || BadLocation(w, h) || |h.request.locations| > h.calls
    ensures var (outcome, h) := MainFetch(w, f, redirections);
            |h.request.locations| > h.calls ==> outcome == Panics(PolicyText) && BadPolicy(w, h)
  {
    hide MainFetch, BadStatusText, BadLocation, BadPolicy, InOrderOfHops;
    NothingSent(w, f);
    MainFetchExplained(w, f, redirections);
    EveryFetchEnds(w, f, redirections);
    var (outcome, h) := MainFetch(w, f, redirections);
    ThreeCauses(outcome);
    assert |h.request.locations| == h.calls + Short(outcome);
  }

  lemma ThreeCauses(outcome: Outcome)
    ensures outcome.Panics? <==>
            outcome == Panics(StatusText) || outcome == Panics(LocationText) || outcome == Panics(PolicyText)
  {
    match outcome
    case Responds(_) =>
    case Panics(cause) => assert cause.StatusText? || cause.LocationText? || cause.PolicyText?;
  }

  lemma NothingSent(w: World, f: Fetch)
    requires f.sent == []
    ensures !BadStatusText(w, f) && !BadLocation(w, f)
  {
  }

  ghost predicate AllUtf8(values: seq<seq<byte>>) {
    forall i :: 0 <= i < |values| ==> FromUtf8(values[i]).Some?
  }

  /** Every text that the network sends is UTF-8. */
  ghost predicate WellFormed(w: World) {
    forall k, s :: w.network(k, s).Some? ==>
      var reply := w.network(k, s).value;
      !BadReason(reply) && AllUtf8(reply.headers.location) && AllUtf8(reply.headers.policy)
  }

  lemma {:induction false} PolicyIsFound(headers: seq<seq<byte>>)
    requires AllUtf8(headers)
    ensures FindPolicy(headers) != Malformed
  {
    hide FromUtf8;
    if headers != [] { PolicyIsFound(headers[..|headers| - 1]); }
  }

  /** Against a network that sends UTF-8 no fetch panics. */
  lemma WellFormedNeverPanics(w: World, f: Fetch, redirections: nat)
    requires AtStart(f, redirections) && WellFormed(w)
    ensures MainFetch(w, f, redirections).0.Responds?
  {
    hide MainFetch, FindPolicy, FromUtf8, BadReason;
    FetchPanicsIff(w, f, redirections);
    var h := MainFetch(w, f, redirections).1;
    if LastReply(w, h).Some? { PolicyIsFound(LastReply(w, h).value.headers.policy); }
  }

  // ---- The limits are reached --------------------------------------------------------------------

  /** A redirect to the text "next". */
  function Onwards(): Reply {
    Reply(302, None, Headers([Encode("next")], []))
  }

  /** A network that misdirects every first try, and redirects every second one. */
  ghost predicate Endless(w: World, target: Url) {
    && IsHttp(target) && target.port == None && !target.credentials && target.scheme !in LOCAL_SCHEMES
    && (forall k, s :: w.network(k, s) == Some(if s.again then Onwards() else Reply(421, None, NO_HEADERS)))
    && (forall base :: w.parse(base, "next") == Some(target))
  }

  predicate GoesAnywhere(request: Request) {
    && IsHttp(request.url) && request.url.port == None && request.url.scheme !in LOCAL_SCHEMES
    && request.verb == GET && !HasStream(request)
    && request.mode == Cors && request.redirect == Follow && !request.onlyIfCached
  }

  lemma TriesTwice(w: World, f: Fetch, target: Url, hop: nat)
    requires Endless(w, target) && GoesAnywhere(f.request)
    ensures var (outcome, g) := HttpNetworkFetch(w, f, hop, false);
            && |g.sent| == |f.sent| + 2 && g.calls == f.calls && g.request == f.request
            && outcome.Responds? && outcome.response.status == Some(302)
            && outcome.response.headers == Onwards().headers && outcome.response.url == Some(f.request.url)
  {
    hide Encode, FromUtf8;
    var first := Sent(hop, f.request.url, f.request.verb, f.request.body, f.request.policy, false);
    var g := f.(sent := f.sent + [first]);
    assert HttpNetworkFetch(w, f, hop, false) == HttpNetworkFetch(w, g, hop, true);
  }

  lemma {:induction false} EndlessRedirects(w: World, f: Fetch, target: Url, r: nat)
    requires r <= MAX_REDIRECTIONS && Endless(w, target) && GoesAnywhere(f.request)
    ensures var (outcome, h) := MainFetch(w, f, r);
            && h.calls == f.calls + 21 - r && |h.sent| == |f.sent| + 2 * (21 - r)
            && outcome.Responds? && IsError(outcome.response)
    decreases MAX_REDIRECTIONS - r
  {
    hide HttpNetworkFetch, Encode, FromUtf8;
    var g := f.(calls := f.calls + 1);
    TriesTwice(w, g, target, r);
    FromUtf8Iff(Encode("next"), "next");
    var (outcome, h) := HttpNetworkFetch(w, g, r, false);
    assert HttpFetch(w, g, CorsKind, r).1 == HttpRedirectFetch(w, h, outcome.response, CorsKind, r).1;
    if r < MAX_REDIRECTIONS {
      var next := Target(w, f.request.url, "next").value;
      assert next == if target.fragment == None then target.(fragment := f.request.url.fragment) else target;
      EndlessRedirects(w, h.(request := Redirected(h.request, Some(302), next)), target, r + 1);
    }
  }

  /** Both limits are reached. */
  lemma LimitsAreReached(url: Url, request: Request)
    requires url == Url("https", None, false, None, "")
    requires request == Request(url, [url], GET, None, Cors, Follow, "", false, true)
    ensures exists w :: var h := MainFetch(w, Fetch(request, [], 0), 0).1;
                        h.calls == 21 && |h.sent| == 42
  {
    hide MainFetch, Encode;
    var w := World(
      (k, s: Sent) => Some(if s.again then Onwards() else Reply(421, None, NO_HEADERS)),
      (base, text) => Some(url),
      r => None);
    EndlessRedirects(w, Fetch(request, [], 0), url, 0);
  }
}
