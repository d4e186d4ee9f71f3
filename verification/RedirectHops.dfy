/** What a fetch sends, request after request, and what it answers: told from the network's replies. */
module RedirectHops {
  import opened Chunks
  import opened Wrappers
  import opened Utf8
  import opened Redirects

  // ---- From one request to the next --------------------------------------------------------------

  /**
   The verb and body after a redirect: 303 makes a GET without a body of everything but GET and HEAD; 301
   and 302 make one of a POST; every other status keeps both.
   */
  function FormAfter(status: nat, verb: Verb, body: Option<Body>): (Verb, Option<Body>) {
    if status == 303 then
      if verb == GET || verb == HEAD then (verb, body) else (GET, None)
    else if status == 301 || status == 302 then
      if verb == POST then (GET, None) else (verb, body)
    else (verb, body)
  }

  /** The value is empty, or is a text that names no policy. */
  predicate Passed(value: seq<byte>) {
    value == [] || (FromUtf8(value).Some? && FromUtf8(value).value !in POLICIES)
  }

  /** The last value that is not passed by is this text, or none if it is not UTF-8. */
  ghost predicate LastIs(values: seq<seq<byte>>, text: Option<string>) {
    exists i :: 0 <= i < |values| && values[i] != [] && FromUtf8(values[i]) == text
                && (forall j :: i < j < |values| ==> Passed(values[j]))
  }

  /** The policy is the one that the last value to name any names; it stays if none does, or at a panic. */
  ghost predicate PolicyAfter(values: seq<seq<byte>>, before: string, after: string) {
    || (after == before && (LastIs(values, None) || forall i :: 0 <= i < |values| ==> Passed(values[i])))
    || (after in POLICIES && LastIs(values, Some(after)))
  }

  /** The search finds the last value that names a policy, and panics at one that is not UTF-8 and comes later. */
  lemma {:induction false} FindPolicyIs(values: seq<seq<byte>>)
    ensures match FindPolicy(values)
            case Found(policy) => policy in POLICIES && LastIs(values, Some(policy))
            case Malformed => LastIs(values, None)
            case Nothing => forall i :: 0 <= i < |values| ==> Passed(values[i])
  {
    hide FromUtf8, LastIs;
    if values != [] {
      var n := |values| - 1;
      FindPolicyIs(values[..n]);
      if Passed(values[n]) {
        match FindPolicy(values[..n])
        case Found(policy) => OneMorePassed(values, Some(policy));
        case Malformed => OneMorePassed(values, None);
        case Nothing =>
      } else {
        LastOfAll(values);
      }
    }
  }

  lemma OneMorePassed(values: seq<seq<byte>>, text: Option<string>)
    requires values != [] && Passed(values[|values| - 1]) && LastIs(values[..|values| - 1], text)
    ensures LastIs(values, text)
  {
    hide FromUtf8;
    var init := values[..|values| - 1];
    var i :| 0 <= i < |init| && init[i] != [] && FromUtf8(init[i]) == text
             && (forall j :: i < j < |init| ==> Passed(init[j]));
    forall j | i < j < |values| ensures Passed(values[j]) {
      assert j < |init| ==> values[j] == init[j];
    }
    assert values[i] == init[i];
  }

  lemma LastOfAll(values: seq<seq<byte>>)
    requires values != [] && values[|values| - 1] != []
    ensures LastIs(values, FromUtf8(values[|values| - 1]))
  {
    hide FromUtf8, Passed;
  }

  /** The reply sends the fetch from `base` to `url`: it is a redirect to one location, read against the base. */
  predicate LeadsTo(w: World, reply: Reply, base: Url, url: Url) {
    && 300 <= reply.status < 400 && |reply.headers.location| == 1
    && var text := FromUtf8(reply.headers.location[0]);
       && text.Some? && w.parse(base, text.value).Some?
       && var parsed := w.parse(base, text.value).value;
          url == if parsed.fragment == None then parsed.(fragment := base.fragment) else parsed
  }

  /** The request after this one: the same again after a 421, or the one that the redirect makes of it. */
  ghost predicate Next(w: World, mode: RedirectMode, i: nat, sent: Sent, next: Sent) {
    && w.network(i, sent).Some?
    && var reply := w.network(i, sent).value;
       if next.hop == sent.hop then
         !sent.again && reply.status == 421 && next == sent.(again := true)
       else
         mode == Follow && next.hop == sent.hop + 1 && !next.again
         && LeadsTo(w, reply, sent.url, next.url)
         && (next.verb, next.body) == FormAfter(reply.status, sent.verb, sent.body)
         && PolicyAfter(reply.headers.policy, sent.policy, next.policy)
  }

  /** From request number `n` on, each follows from the one before. */
  ghost predicate Chain(w: World, h: Fetch, n: nat) {
    forall i :: n <= i && i + 1 < |h.sent| ==> Next(w, h.request.redirect, i, h.sent[i], h.sent[i + 1])
  }

  /** The request as it would be sent for this hop. */
  function AsSent(request: Request, hop: nat, again: bool): Sent {
    Sent(hop, request.url, request.verb, request.body, request.policy, again)
  }

  /** The request is as it was sent last, or as the last reply has made it. */
  ghost predicate EndsAt(w: World, h: Fetch) {
    h.sent != [] ==>
      var i := |h.sent| - 1;
      var last := h.sent[i];
      || AsSent(h.request, last.hop, last.again) == last
      || Next(w, h.request.redirect, i, last, AsSent(h.request, last.hop + 1, false))
  }

  /** What the requests sent since `f` are: the first is the request of `f`, and each follows from the one before. */
  ghost predicate Extends(w: World, f: Fetch, h: Fetch, hop: nat, again: bool) {
    && f.sent <= h.sent && h.request.redirect == f.request.redirect
    && Chain(w, h, |f.sent|)
    && (|h.sent| > |f.sent| ==> h.sent[|f.sent|] == AsSent(f.request, hop, again) && EndsAt(w, h))
    && (|h.sent| == |f.sent| ==> h.request == f.request)
  }

  lemma {:induction false} NetworkFetchExtends(w: World, f: Fetch, hop: nat, again: bool)
    ensures var (outcome, g) := HttpNetworkFetch(w, f, hop, again);
            && Extends(w, f, g, hop, again) && g.request == f.request
            && (|g.sent| > |f.sent| <==> !f.request.onlyIfCached)
            && (g.sent != f.sent ==>
                  AsSent(f.request, hop, g.sent[|g.sent| - 1].again) == g.sent[|g.sent| - 1])
            && (outcome.Responds? && outcome.response.status.Some? ==>
                  && g.sent != f.sent && LastReply(w, g).Some?
                  && outcome.response.status == Some(LastReply(w, g).value.status)
                  && outcome.response.headers == LastReply(w, g).value.headers
                  && outcome.response.url == Some(f.request.url))
    decreases !again
  {
    hide FromUtf8, LeadsTo;
    if !f.request.onlyIfCached {
      var sent := AsSent(f.request, hop, again);
      var g := f.(sent := f.sent + [sent]);
      var reply := w.network(|f.sent|, sent);
      if reply.Some? && !BadReason(reply.value) && !(reply.value.status == 407 && !f.request.clientWindow)
         && reply.value.status == 421 && !again && !HasStream(f.request) {
        NetworkFetchExtends(w, g, hop, true);
        assert HttpNetworkFetch(w, f, hop, again) == HttpNetworkFetch(w, g, hop, true);
        OneBefore(w, f, g, HttpNetworkFetch(w, g, hop, true).1, hop);
      }
    }
  }

  /** A first try before what follows from the second. */
  lemma OneBefore(w: World, f: Fetch, g: Fetch, h: Fetch, hop: nat)
    requires var sent := AsSent(f.request, hop, false);
             && g == f.(sent := f.sent + [sent]) && w.network(|f.sent|, sent).Some?
             && w.network(|f.sent|, sent).value.status == 421
    requires Extends(w, g, h, hop, true) && |h.sent| > |g.sent|
    ensures Extends(w, f, h, hop, false)
  {
    hide LeadsTo;
  }

  /** A fetch whose last request, sent for this hop, has been answered with a response that may lead on. */
  ghost predicate Answered(w: World, f: Fetch, response: Response, hop: nat) {
    && f.sent != [] && AsSent(f.request, hop, f.sent[|f.sent| - 1].again) == f.sent[|f.sent| - 1]
    && LastReply(w, f).Some? && response.url == Some(f.request.url)
    && response.status == Some(LastReply(w, f).value.status)
    && response.headers == LastReply(w, f).value.headers
  }

  /** What comes after an answer: the request has not moved on, or has as the answer says. */
  ghost predicate Continues(w: World, f: Fetch, h: Fetch) {
    && f.sent <= h.sent && h.request.redirect == f.request.redirect
    && f.sent != [] && Chain(w, h, |f.sent| - 1) && EndsAt(w, h)
  }

  lemma RedirectFetchContinues(w: World, f: Fetch, response: Response, taint: Kind, r: nat)
    requires r <= MAX_REDIRECTIONS && Answered(w, f, response, r) && IsRedirection(response.status)
    requires f.request.redirect == Follow
    ensures Continues(w, f, HttpRedirectFetch(w, f, response, taint, r).1)
    decreases MAX_REDIRECTIONS - r, 0
  {
    hide MoveOn, FromUtf8;
    StaysAnswered(w, f, response, r);
    if |response.headers.location| == 1 && FromUtf8(response.headers.location[0]).Some? {
      var target := Target(w, f.request.url, FromUtf8(response.headers.location[0]).value);
      if target.Some? && IsHttp(target.value) && r < MAX_REDIRECTIONS
         && !(taint == CorsKind && target.value.credentials)
         && !(response.status != Some(303) && HasStream(f.request)) {
        MoveOnContinues(w, f, response, target.value, r);
      }
    }
  }

  lemma StaysAnswered(w: World, f: Fetch, response: Response, r: nat)
    requires Answered(w, f, response, r)
    ensures Continues(w, f, f)
  {
    hide LeadsTo, FromUtf8;
  }

  lemma MoveOnContinues(w: World, f: Fetch, response: Response, target: Url, r: nat)
    requires r < MAX_REDIRECTIONS && Answered(w, f, response, r) && f.request.redirect == Follow
    requires LeadsTo(w, LastReply(w, f).value, f.request.url, target)
    ensures Continues(w, f, MoveOn(w, f, response, target, r).1)
    decreases MAX_REDIRECTIONS - r - 1, 3
  {
    hide LeadsTo, FromUtf8, MainFetch, FindPolicy;
    var request := Redirected(f.request, response.status, target);
    MovesAsTold(w, f, response, target, r);
    var search := FindPolicy(response.headers.policy);
    var g := f.(request := request.(policy := if search.Found? then search.policy else request.policy));
    if search != Malformed { MainFetchExtends(w, g, r + 1); }
    MovedContinues(w, f, g, if search == Malformed then g else MainFetch(w, g, r + 1).1, r);
  }

  /** The request made for the target is the one that the last reply leads to. */
  lemma MovesAsTold(w: World, f: Fetch, response: Response, target: Url, r: nat)
    requires Answered(w, f, response, r) && f.request.redirect == Follow
    requires LeadsTo(w, LastReply(w, f).value, f.request.url, target)
    ensures var request, search := Redirected(f.request, response.status, target), FindPolicy(response.headers.policy);
            var moved := request.(policy := if search.Found? then search.policy else request.policy);
            && Next(w, Follow, |f.sent| - 1, f.sent[|f.sent| - 1], AsSent(moved, r + 1, false))
            && moved.redirect == Follow && f.sent[|f.sent| - 1].hop == r
  {
    hide LeadsTo, FromUtf8, FindPolicy, LastIs, Passed;
    FindPolicyIs(response.headers.policy);
  }

  lemma MovedContinues(w: World, f: Fetch, g: Fetch, h: Fetch, r: nat)
    requires f.sent != [] && g.sent == f.sent && g.request.redirect == f.request.redirect == Follow
    requires f.sent[|f.sent| - 1].hop == r
    requires Next(w, Follow, |f.sent| - 1, f.sent[|f.sent| - 1], AsSent(g.request, r + 1, false))
    requires h == g || Extends(w, g, h, r + 1, false)
    ensures Continues(w, f, h)
  {
    hide Next;
  }

  lemma HttpFetchExtends(w: World, f: Fetch, taint: Kind, r: nat)
    requires r <= MAX_REDIRECTIONS
    ensures var (_, h) := HttpFetch(w, f, taint, r);
            Extends(w, f, h, r, false) && (|h.sent| > |f.sent| <==> !f.request.onlyIfCached)
    decreases MAX_REDIRECTIONS - r, 1
  {
    hide HttpNetworkFetch, HttpRedirectFetch, Next, LastReply;
    var (outcome, g) := HttpNetworkFetch(w, f, r, false);
    NetworkFetchExtends(w, f, r, false);
    if outcome.Responds? && IsRedirection(outcome.response.status) && f.request.redirect == Follow {
      RedirectFetchContinues(w, g, outcome.response, taint, r);
      ExtendsThenContinues(w, f, g, HttpRedirectFetch(w, g, outcome.response, taint, r).1, r);
    }
  }

  lemma ExtendsThenContinues(w: World, f: Fetch, g: Fetch, h: Fetch, r: nat)
    requires Extends(w, f, g, r, false) && g.sent != f.sent && Continues(w, g, h)
    ensures Extends(w, f, h, r, false)
  {
    hide Next, EndsAt;
    forall i | |f.sent| <= i && i + 1 < |h.sent| ensures Next(w, h.request.redirect, i, h.sent[i], h.sent[i + 1]) {
      if i + 1 < |g.sent| {
        assert g.sent[i] == h.sent[i] && g.sent[i + 1] == h.sent[i + 1];
      }
    }
  }

  /** The request is one that MainFetch sends over the network. */
  predicate Admissible(request: Request) {
    && request.mode != SameOrigin && request.url.scheme !in {"about", "blob", "data", "file"}
    && request.url.scheme in {"http", "https"} && !request.onlyIfCached
    && !(request.url.port.Some? && request.url.port.value in BAD_PORTS)
    && (request.mode == NoCors ==> request.redirect == Follow)
  }

  lemma MainFetchExtends(w: World, f: Fetch, r: nat)
    requires r <= MAX_REDIRECTIONS
    ensures var (_, h) := MainFetch(w, f, r);
            Extends(w, f, h, r, false) && (|h.sent| > |f.sent| <==> Admissible(f.request))
    decreases MAX_REDIRECTIONS - r, 2
  {
    hide HttpFetch, Next, Filtered;
    var taint := if f.request.mode == NoCors then Basic else CorsKind;
    var g := f.(calls := f.calls + 1);
    HttpFetchExtends(w, g, taint, r);
  }

  /**
   The first request sent is the one made, and is sent if and only if it is admissible; each further one is
   the same again after a 421, or is what the redirect that came last makes of the one before: the target, the
   verb and the body. The request ends as it was sent last, or as the last reply has made it.
   */
  lemma EveryRequestFollows(w: World, f: Fetch, redirections: nat)
    requires AtStart(f, redirections)
    ensures var h := MainFetch(w, f, redirections).1;
            && (h.sent != [] <==> Admissible(f.request))
            && (h.sent != [] ==> h.sent[0] == AsSent(f.request, 0, false))
            && (forall i :: 0 <= i && i + 1 < |h.sent| ==>
                  Next(w, f.request.redirect, i, h.sent[i], h.sent[i + 1]))
            && EndsAt(w, h)
  {
    hide MainFetch, Next;
    MainFetchExtends(w, f, redirections);
  }

  // ---- When a redirect is followed ---------------------------------------------------------------

  /**
   A redirect is followed if and only if it names one location, in UTF-8, that parses to an http(s) URL, the
   limit is not reached, no credentials go across origins, and no streamed body would have to be sent again.
   One without a location is the answer itself; any other fails the fetch, unless its text makes it panic.
   */
  lemma FollowedIff(w: World, f: Fetch, response: Response, taint: Kind, r: nat)
    requires r <= MAX_REDIRECTIONS && AtHop(f.request, r) && response.kind == DefaultKind && !response.redirected
    requires response.url == Some(f.request.url)
    ensures var (final, h) := HttpRedirectFetch(w, f, response, taint, r);
            var values := response.headers.location;
            var text := if |values| == 1 then FromUtf8(values[0]) else None;
            var parsed := if text.Some? then w.parse(f.request.url, text.value) else None;
            && (MovedOn(h, r) <==>
                  && parsed.Some? && parsed.value.scheme in {"http", "https"} && r < 20
                  && (taint == CorsKind ==> !parsed.value.credentials)
                  && (f.request.body == Some(Streamed) ==> response.status == Some(303)))
            && (!MovedOn(h, r) ==>
                  && h == f
                  && final == if values == [] then Responds(response)
                              else if |values| == 1 && text == None then Panics(LocationText)
                              else Failure())
  {
    hide MoveOn, FromUtf8;
    if |response.headers.location| == 1 && FromUtf8(response.headers.location[0]).Some? {
      var target := Target(w, f.request.url, FromUtf8(response.headers.location[0]).value);
      if target.Some? && IsHttp(target.value) && r < MAX_REDIRECTIONS {
        MoveOnMoves(w, f, response, target.value, r);
      }
    }
  }

  lemma MoveOnMoves(w: World, f: Fetch, response: Response, target: Url, r: nat)
    requires r < MAX_REDIRECTIONS && AtHop(f.request, r) && IsHttp(target)
    ensures MovedOn(MoveOn(w, f, response, target, r).1, r)
  {
    hide MainFetch, FindPolicy, Travels, Sends;
    var request := Redirected(f.request, response.status, target);
    var search := FindPolicy(response.headers.policy);
    var g := f.(request := request.(policy := if search.Found? then search.policy else request.policy));
    MainFetchTravels(w, g, r + 1);
    var (outcome, h) := MainFetch(w, g, r + 1);
    LastHop(g, h, r + 1, 1 - Short(outcome));
  }

  // ---- What a fetch answers ----------------------------------------------------------------------

  /** A response to this verb with this status has a body. */
  predicate HasBody(verb: Verb, status: nat) {
    verb != HEAD && verb != CONNECT && status !in {101, 103, 204, 205, 304}
  }

  /** How a response came about: from the last reply, from a redirect left to the caller, or as an error. */
  predicate ComesFrom(w: World, h: Fetch, response: Response) {
    || IsError(response)
    || (LastReply(w, h).Some? && response.status == Some(LastReply(w, h).value.status) && response.hasBody
        && response.headers == LastReply(w, h).value.headers)
  }

  /** A redirect is an answer only if it is left to the caller, or is followed to nowhere for want of a location. */
  predicate Settled(response: Response, mode: RedirectMode) {
    !IsError(response) && IsRedirection(response.status) ==>
      mode == Manual || (mode == Follow && response.headers.location == [])
  }

  lemma {:induction false} NetworkAnswers(w: World, f: Fetch, hop: nat, again: bool)
    ensures var (outcome, g) := HttpNetworkFetch(w, f, hop, again);
            g.request == f.request && (outcome.Responds? ==> ComesFrom(w, g, outcome.response))
    decreases !again
  {
    hide FromUtf8;
    if !f.request.onlyIfCached {
      var sent := AsSent(f.request, hop, again);
      var g := f.(sent := f.sent + [sent]);
      var reply := w.network(|f.sent|, sent);
      if reply.Some? && !BadReason(reply.value) && !(reply.value.status == 407 && !f.request.clientWindow)
         && reply.value.status == 421 && !again && !HasStream(f.request) {
        NetworkAnswers(w, g, hop, true);
        assert HttpNetworkFetch(w, f, hop, again) == HttpNetworkFetch(w, g, hop, true);
      }
    }
  }

  lemma RedirectAnswers(w: World, f: Fetch, response: Response, taint: Kind, r: nat)
    requires r <= MAX_REDIRECTIONS && response.url.Some? && ComesFrom(w, f, response) && f.request.redirect == Follow
    ensures var (final, h) := HttpRedirectFetch(w, f, response, taint, r);
            final.Responds? ==> ComesFrom(w, h, final.response) && Settled(final.response, Follow)
    decreases MAX_REDIRECTIONS - r, 0
  {
    hide MainFetch, FromUtf8, FindPolicy, ComesFrom, LastReply;
    FailureIsError(w, f);
    if |response.headers.location| == 1 && FromUtf8(response.headers.location[0]).Some? {
      var target := Target(w, response.url.value, FromUtf8(response.headers.location[0]).value);
      if target.Some? && r < MAX_REDIRECTIONS {
        var request := Redirected(f.request, response.status, target.value);
        match FindPolicy(response.headers.policy)
        case Malformed =>
        case Found(policy) => MainAnswers(w, f.(request := request.(policy := policy)), r + 1);
        case Nothing => MainAnswers(w, f.(request := request), r + 1);
      }
    }
  }

  lemma FailureIsError(w: World, f: Fetch)
    ensures ComesFrom(w, f, NetworkError())
  {
  }

  lemma HttpAnswers(w: World, f: Fetch, taint: Kind, r: nat)
    requires r <= MAX_REDIRECTIONS
    ensures var ((outcome, isOpaque), h) := HttpFetch(w, f, taint, r);
            outcome.Responds? ==> ComesFrom(w, h, outcome.response) && Settled(outcome.response, f.request.redirect)
    decreases MAX_REDIRECTIONS - r, 1
  {
    hide HttpNetworkFetch, HttpRedirectFetch, ComesFrom;
    var (outcome, g) := HttpNetworkFetch(w, f, r, false);
    NetworkAnswers(w, f, r, false);
    FailureIsError(w, g);
    if outcome.Responds? && IsRedirection(outcome.response.status) && f.request.redirect == Follow {
      RedirectAnswers(w, g, outcome.response, taint, r);
    }
  }

  /** After a redirect: what came last is answered as it is, unless a URL with a scheme of its own is local. */
  lemma MainAnswers(w: World, f: Fetch, r: nat)
    requires 0 < r <= MAX_REDIRECTIONS
    ensures var (outcome, h) := MainFetch(w, f, r);
            outcome.Responds? && f.request.url.scheme in {"http", "https"} ==>
              ComesFrom(w, h, outcome.response) && Settled(outcome.response, f.request.redirect)
    decreases MAX_REDIRECTIONS - r, 2
  {
    hide HttpFetch, Filtered;
    var taint := if f.request.mode == NoCors then Basic else CorsKind;
    HttpAnswers(w, f.(calls := f.calls + 1), taint, r);
    MarkedComesFrom(w, HttpFetch(w, f.(calls := f.calls + 1), taint, r).1);
  }

  lemma MarkedComesFrom(w: World, h: Fetch)
    ensures forall response, flag :: ComesFrom(w, h, response) ==> ComesFrom(w, h, response.(redirected := flag))
  {
  }

  /** An opaque redirect is the answer exactly when a redirect is left to the caller. */
  lemma OpaqueIff(w: World, f: Fetch, taint: Kind)
    ensures var ((outcome, isOpaque), h) := HttpFetch(w, f, taint, 0);
            outcome.Responds? && !IsError(outcome.response) ==>
              (isOpaque <==> f.request.redirect == Manual && IsRedirection(outcome.response.status))
  {
    hide HttpNetworkFetch, HttpRedirectFetch;
  }

  /**
   What a fetch answers, if it neither fails nor panics: the status of the last reply, as a response of the
   kind that the request's mode asks for, with a body unless the verb or the status has none; or an opaque
   redirect, without any of it. From a scheme without a network it is what is found there.
   */
  lemma AnswerIs(w: World, f: Fetch, redirections: nat)
    requires AtStart(f, redirections)
    ensures var (outcome, h) := MainFetch(w, f, redirections);
            outcome.Responds? && !IsError(outcome.response) ==>
              var response, verb := outcome.response, h.request.verb;
              if f.request.url.scheme in {"about", "blob", "data", "file"} then
                && w.local(f.request).Some? && response.status == w.local(f.request)
                && response.kind == Basic && response.hasBody == HasBody(verb, w.local(f.request).value)
              else
                && LastReply(w, h).Some?
                && var status := LastReply(w, h).value.status;
                   if f.request.redirect == Manual && 300 <= status < 400 then
                     response.kind == OpaqueRedirect && response.status == None && !response.hasBody
                   else
                     && (300 <= status < 400 ==>
                           f.request.redirect == Follow && LastReply(w, h).value.headers.location == [])
                     && response.status == Some(status) && response.hasBody == HasBody(verb, status)
                     && response.kind == (if f.request.mode == NoCors then Basic else CorsKind)
  {
    hide HttpFetch;
    var taint := if f.request.mode == NoCors then Basic else CorsKind;
    var g := f.(calls := f.calls + 1);
    HttpAnswers(w, g, taint, 0);
    OpaqueIff(w, g, taint);
  }

  // ---- One stage of the network ------------------------------------------------------------------

  /** The reply is one that the request is sent again for: misdirected, and its body can be had again. */
  predicate Misdirected(f: Fetch, reply: Option<Reply>) {
    reply.Some? && !BadReason(reply.value) && reply.value.status == 421 && f.request.body != Some(Streamed)
  }

  /** The first reply to this request. */
  function FirstReply(w: World, f: Fetch, hop: nat): Option<Reply> {
    w.network(|f.sent|, AsSent(f.request, hop, false))
  }

  /**
   A request is sent once, and once more if the first reply misdirects it. It fails if it may only come from a
   cache, if nothing answers, or if a proxy asks for credentials and no window can; else it is answered.
   */
  lemma NetworkAnswerIs(w: World, f: Fetch, hop: nat)
    ensures var (outcome, g) := HttpNetworkFetch(w, f, hop, false);
            var times := if f.request.onlyIfCached then 0 else if Misdirected(f, FirstReply(w, f, hop)) then 2 else 1;
            && |g.sent| == |f.sent| + times
            && if times == 0 || LastReply(w, g) == None then outcome == Failure()
               else
                 var reply := LastReply(w, g).value;
                 if BadReason(reply) then outcome == Panics(StatusText)
                 else if reply.status == 407 && !f.request.clientWindow then outcome == Failure()
                 else
                   && outcome.Responds? && outcome.response.kind == DefaultKind
                   && outcome.response.status == Some(reply.status) && outcome.response.headers == reply.headers
  {
    hide FromUtf8;
    var sent := AsSent(f.request, hop, false);
    var g := f.(sent := f.sent + [sent]);
    if !f.request.onlyIfCached && Misdirected(f, FirstReply(w, f, hop)) {
      assert HttpNetworkFetch(w, f, hop, false) == HttpNetworkFetch(w, g, hop, true);
      SecondTry(w, g, hop);
    }
  }

  lemma SecondTry(w: World, f: Fetch, hop: nat)
    requires !f.request.onlyIfCached
    ensures var (outcome, g) := HttpNetworkFetch(w, f, hop, true);
            && |g.sent| == |f.sent| + 1
            && if LastReply(w, g) == None then outcome == Failure()
               else
                 var reply := LastReply(w, g).value;
                 if BadReason(reply) then outcome == Panics(StatusText)
                 else if reply.status == 407 && !f.request.clientWindow then outcome == Failure()
                 else
                   && outcome.Responds? && outcome.response.kind == DefaultKind
                   && outcome.response.status == Some(reply.status) && outcome.response.headers == reply.headers
  {
    hide FromUtf8;
  }

  /** A reply that is neither a redirect nor asks for anything more. */
  predicate Plain(request: Request, reply: Option<Reply>) {
    && reply.Some? && !BadReason(reply.value) && !(300 <= reply.value.status < 400)
    && reply.value.status != 421 && (reply.value.status == 407 ==> request.clientWindow)
  }

  /** A plain reply to an admissible request is passed on, from any redirect count, and nothing more is sent. */
  lemma PlainReplyIsAnswered(w: World, f: Fetch, r: nat)
    requires r <= MAX_REDIRECTIONS && Admissible(f.request) && Plain(f.request, FirstReply(w, f, r))
    ensures var (outcome, h) := MainFetch(w, f, r);
            && h.sent == f.sent + [AsSent(f.request, r, false)]
            && outcome.Responds? && !IsError(outcome.response)
            && outcome.response.status == Some(FirstReply(w, f, r).value.status)
  {
    hide FromUtf8;
    var g := f.(calls := f.calls + 1);
    NetworkAnswerIs(w, g, r);
  }

  /** What is found under a scheme without a network is answered. */
  lemma LocalIsAnswered(w: World, f: Fetch)
    requires f.request.mode != SameOrigin && f.request.url.scheme in {"about", "blob", "data", "file"}
    ensures var (outcome, h) := MainFetch(w, f, 0);
            && h.sent == f.sent && outcome.Responds?
            && (IsError(outcome.response) <==> w.local(f.request) == None)
  {
  }
}
