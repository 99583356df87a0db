/** Probing one domain over HTTP (server.js:1118-1257): a request that
    follows at most five 301/302 redirects, rebuilding relative `Location`
    values against the current host, and the HTTPS-then-HTTP fallback.
    The network is a parameter: `net` gives the reply to each request, with
    the body already decompressed; a failed connection, a timeout or a
    broken stream is a `Failed` reply. */
module HttpProbe {
  import opened Wrappers
  import opened Strings
  import Scorer

  /** One request as issued: the URL, whether the `https` client is used,
      and the number of redirects followed to reach it. */
  datatype Request = Request(url: string, secure: bool, redirectCount: nat)

  /** What the server sends back, header names in lower case as Node gives them. */
  datatype Reply =
    | Failed(error: string)
    | Answered(statusCode: int, headers: map<string, string>, body: string)

  /** How the promise of `makeHTTPRequest` settles. */
  datatype Outcome = Rejected(message: string) | Resolved(verdict: Scorer.Verdict)

  /** Where a chain of requests ends, before the body is classified: a
      rejection, a reply whose status is not 200, or a 200 page. */
  datatype Final =
    | Failure(message: string)
    | NotOk(statusCode: int)
    | Page(url: string, headers: map<string, string>, body: string)

  /** The end of a chain together with every request sent on the way. */
  datatype Exchange = Exchange(final: Final, sent: seq<Request>)

  const MaxRedirects: nat := 5
  const TooManyRedirects: string := "Too many redirects (max 5)"
  const InvalidUrl: string := "Invalid URL"

  function SchemeOf(secure: bool): string {
    if secure then "https://" else "http://"
  }

  /** The characters that end the authority of an http or https URL; the
      parser reads a backslash as `/` in these schemes. */
  predicate PathStart(c: char) {
    c == '/' || c == '\\' || c == '?' || c == '#'
  }

  /** The characters that end the host part of a URL: the end of the
      authority, or the `:` before a port. */
  predicate HostDelimiter(c: char) {
    PathStart(c) || c == ':'
  }

  /** The characters a host may not hold: the forbidden domain code points of
      the WHATWG URL Standard (control characters, space, `%`, `<`, `>`, `@`,
      `[`, `]`, `^`, `|`, DEL) and the white space that IDNA mapping turns
      into a space or refuses. */
  predicate ForbiddenHostChar(c: char) {
    || c < ' ' || c == '\U{007F}' || IsWhitespace(c)
    || c == '%' || c == '<' || c == '>' || c == '@'
    || c == '[' || c == ']' || c == '^' || c == '|'
  }

  /** Where the authority that starts at i ends: at the first character
      that starts the path, query or fragment, or at the end of the URL. */
  function AuthorityEnd(url: string, i: nat): (e: nat)
    requires i <= |url|
    ensures i <= e <= |url|
    ensures forall k :: i <= k < e ==> !PathStart(url[k])
    ensures e < |url| ==> PathStart(url[e])
    decreases |url| - i
  {
    if i == |url| || PathStart(url[i]) then i else AuthorityEnd(url, i + 1)
  }

  /** Where the host part that starts at i ends: at the first delimiter
      from i on, or at the end of the URL. */
  function HostEnd(url: string, i: nat): (e: nat)
    requires i <= |url|
    ensures i <= e <= |url|
    ensures forall k :: i <= k < e ==> !HostDelimiter(url[k])
    ensures e < |url| ==> HostDelimiter(url[e])
    decreases |url| - i
  {
    if i == |url| || HostDelimiter(url[i]) then i else HostEnd(url, i + 1)
  }

  /** No character of h is a delimiter or forbidden in a host. */
  predicate HostChars(h: string) {
    forall k :: 0 <= k < |h| ==> !HostDelimiter(h[k]) && !ForbiddenHostChar(h[k])
  }

  /** A host name as `URL.hostname` gives it: non-empty, lower case, with no
      delimiter and no forbidden character in it. */
  predicate ValidHost(h: string) {
    |h| > 0 && Lower(h) == h && HostChars(h)
  }

  /** The length of a leading `https://` or `http://`, or 0 without one. */
  function SchemeLength(url: string): (n: nat)
    ensures n == 0 || n == 7 || n == 8
    ensures n <= |url|
  {
    if |url| >= 8 && url[..8] == "https://" then 8
    else if |url| >= 7 && url[..7] == "http://" then 7
    else 0
  }

  /** `new URL(url).hostname`, for absolute http and https URLs: the host is
      the text after the scheme up to the first delimiter, lower-cased. A URL
      without such a scheme, with an empty host, with a forbidden character in
      its host or with user information (an `@` before the path) does not
      parse. */
  function HostName(url: string): (r: Option<string>)
    ensures r.Some? ==> ValidHost(r.value)
  {
    var n := SchemeLength(url);
    if n == 0 then None
    else
      var e := HostEnd(url, n);
      var h := Lower(url[n..e]);
      if e == n || '@' in url[n..AuthorityEnd(url, n)] || !HostChars(h) then None
      else
        LowerIdempotent(url[n..e]);
        Some(h)
  }

  /** `if (location)`: a `location` header with a non-empty value. */
  predicate HasLocation(headers: map<string, string>) {
    "location" in headers && headers["location"] != ""
  }

  /** The URL a redirect leads to: a `Location` starting with `/` is put after
      the current scheme and host, one that does not start with `http` is put
      after them and a `/`, any other is taken as it is. */
  function RedirectTarget(location: string, secure: bool, host: string): string {
    if |location| > 0 && location[0] == '/' then SchemeOf(secure) + host + location
    else if !(|location| >= 4 && location[..4] == "http") then SchemeOf(secure) + host + "/" + location
    else location
  }

  /** `redirectUrl.startsWith('https://')`: the test that picks the client
      for the next request. */
  predicate IsHttpsUrl(url: string) {
    |url| >= 8 && url[..8] == "https://"
  }

  /** The prefix tests above are `startsWith` on their literals. */
  lemma PrefixTests(url: string)
    ensures IsHttpsUrl(url) <==> StartsWith(url, "https://")
    ensures (|url| > 0 && url[0] == '/') <==> StartsWith(url, "/")
    ensures (|url| >= 4 && url[..4] == "http") <==> StartsWith(url, "http")
  {
    StartsWithPrefix(url, "https://");
    StartsWithPrefix(url, "/");
    StartsWithPrefix(url, "http");
    if |url| > 0 {
      assert url[..1] == [url[0]];
    }
  }

  /** What one call of `makeHTTPRequest` does before it recurses: a URL
      that does not parse is rejected before anything is sent; otherwise the
      request goes out and its reply either ends the chain or names the URL
      to follow. */
  datatype Step = Unsent(final: Final) | Settled(final: Final) | Follow(next: string)

  /** One request: a failure rejects, a 301 or 302 with a `Location` is
      followed, and any other reply ends the chain. */
  function Respond(net: Request -> Reply, url: string, secure: bool, redirectCount: nat): Step {
    match HostName(url)
    case None => Unsent(Failure(InvalidUrl))
    case Some(host) =>
      match net(Request(url, secure, redirectCount))
      case Failed(e) => Settled(Failure(e))
      case Answered(status, headers, body) =>
        if (status == 301 || status == 302) && HasLocation(headers) then
          Follow(RedirectTarget(headers["location"], secure, host))
        else if status != 200 then Settled(NotOk(status))
        else Settled(Page(url, headers, body))
  }

  /** The redirect recursion of `makeHTTPRequest`, for any behaviour `step`
      of a single call: past five redirects the promise is rejected, and a
      followed URL is requested with the `https` client exactly when it
      starts with `https://`. */
  function Chain(step: (string, bool, nat) -> Step, url: string, secure: bool, redirectCount: nat): Exchange
    decreases MaxRedirects + 1 - redirectCount
  {
    if redirectCount > MaxRedirects then Exchange(Failure(TooManyRedirects), [])
    else
      match step(url, secure, redirectCount)
      case Unsent(f) => Exchange(f, [])
      case Settled(f) => Exchange(f, [Request(url, secure, redirectCount)])
      case Follow(next) =>
        var rest := Chain(step, next, IsHttpsUrl(next), redirectCount + 1);
        Exchange(rest.final, [Request(url, secure, redirectCount)] + rest.sent)
  }

  /** A single call's behaviour against the network `net`. */
  function Responder(net: Request -> Reply): (string, bool, nat) -> Step {
    (u: string, s: bool, c: nat) => Respond(net, u, s, c)
  }

  /** `makeHTTPRequest(url, isHTTPS, redirectCount)` against the network
      `net`, up to the classification of the page. */
  function Fetch(net: Request -> Reply, url: string, secure: bool, redirectCount: nat): Exchange {
    Chain(Responder(net), url, secure, redirectCount)
  }

  /** How the promise settles once the chain has ended: a rejection with its
      message, a negative verdict with the status line, or the verdict of the
      scorer on the page. */
  function Settle(f: Final): Outcome {
    match f
    case Failure(m) => Rejected(m)
    case NotOk(status) => Resolved(Scorer.Verdict(false, [Scorer.StatusLine(status)]))
    case Page(url, headers, body) => Resolved(Scorer.Classify(body, headers, 200, url))
  }

  /** A resolved promise always carries at least one evidence line. */
  lemma SettleEvidence(f: Final)
    ensures Settle(f).Resolved? ==> |Settle(f).verdict.evidence| >= 1
  {
  }

  /** A chain sends at most one request per allowed depth, the k-th of them
      after exactly k further redirects. */
  lemma {:induction false} ChainBounded(step: (string, bool, nat) -> Step, url: string, secure: bool, redirectCount: nat)
    requires redirectCount <= MaxRedirects + 1
    ensures var x := Chain(step, url, secure, redirectCount);
            |x.sent| <= MaxRedirects + 1 - redirectCount
            && forall k :: 0 <= k < |x.sent| ==> x.sent[k].redirectCount == redirectCount + k
    decreases MaxRedirects + 1 - redirectCount
  {
    if redirectCount <= MaxRedirects {
      var st := step(url, secure, redirectCount);
      if st.Follow? {
        ChainBounded(step, st.next, IsHttpsUrl(st.next), redirectCount + 1);
      }
    }
  }

  /** Below the depth `depth`, every call on a URL in `valid` follows a
      redirect to another URL in `valid`. */
  ghost predicate RedirectsBelow(step: (string, bool, nat) -> Step, valid: string -> bool, depth: nat) {
    forall u: string, s: bool, c: nat :: c < depth && valid(u) ==> step(u, s, c).Follow? && valid(step(u, s, c).next)
  }

  /** Endless redirects: six requests go out, and the call is then rejected
      with the redirect limit. */
  lemma {:induction false} ChainEndless(step: (string, bool, nat) -> Step, valid: string -> bool,
                                        url: string, secure: bool, redirectCount: nat)
    requires redirectCount <= MaxRedirects + 1 && valid(url)
    requires RedirectsBelow(step, valid, MaxRedirects + 1)
    ensures Chain(step, url, secure, redirectCount).final == Failure(TooManyRedirects)
    ensures |Chain(step, url, secure, redirectCount).sent| == MaxRedirects + 1 - redirectCount
    decreases MaxRedirects + 1 - redirectCount
  {
    if redirectCount <= MaxRedirects {
      var st := step(url, secure, redirectCount);
      ChainEndless(step, valid, st.next, IsHttpsUrl(st.next), redirectCount + 1);
    }
  }

  /** Redirects followed up to depth five, then a call that settles: the
      chain ends with what the call at depth five settled to. */
  lemma {:induction false} ChainFifth(step: (string, bool, nat) -> Step, valid: string -> bool,
                                      url: string, secure: bool, redirectCount: nat)
      returns (last: Request)
    requires redirectCount <= MaxRedirects && valid(url)
    requires RedirectsBelow(step, valid, MaxRedirects)
    requires forall u: string, s: bool :: valid(u) ==> step(u, s, MaxRedirects).Settled?
    ensures var x := Chain(step, url, secure, redirectCount);
            |x.sent| == MaxRedirects + 1 - redirectCount && x.sent[|x.sent| - 1] == last
            && last.redirectCount == MaxRedirects && valid(last.url)
            && x.final == step(last.url, last.secure, MaxRedirects).final
    decreases MaxRedirects - redirectCount
  {
    var st := step(url, secure, redirectCount);
    if redirectCount < MaxRedirects {
      last := ChainFifth(step, valid, st.next, IsHttpsUrl(st.next), redirectCount + 1);
    } else {
      last := Request(url, secure, redirectCount);
    }
  }

  /** Every call of `makeHTTPRequest` sends at most six requests, the k-th
      after k redirects. */
  lemma FetchBounded(net: Request -> Reply, url: string, secure: bool)
    ensures var x := Fetch(net, url, secure, 0);
            |x.sent| <= MaxRedirects + 1 && forall k :: 0 <= k < |x.sent| ==> x.sent[k].redirectCount == k
  {
    ChainBounded(Responder(net), url, secure, 0);
  }

  /** The host part ends at the first delimiter. */
  lemma {:induction false} HostEndAt(url: string, i: nat, e: nat)
    requires i <= e <= |url|
    requires forall k :: i <= k < e ==> !HostDelimiter(url[k])
    requires e == |url| || HostDelimiter(url[e])
    ensures HostEnd(url, i) == e
    decreases e - i
  {
    if i < e {
      HostEndAt(url, i + 1, e);
    }
  }

  /** Building a URL from a scheme, a host and a path parses back to the host. */
  lemma HostNameOf(secure: bool, h: string, path: string)
    requires ValidHost(h) && |path| > 0 && path[0] == '/'
    ensures HostName(SchemeOf(secure) + h + path) == Some(h)
  {
    var url := SchemeOf(secure) + h + path;
    var n := |SchemeOf(secure)|;
    assert url[..n] == SchemeOf(secure);
    if !secure {
      assert url[4] == ':';
    }
    assert SchemeLength(url) == n;
    forall k | n <= k < n + |h|
      ensures !HostDelimiter(url[k])
    {
      assert url[k] == h[k - n];
    }
    assert url[n + |h|] == '/';
    HostEndAt(url, n, n + |h|);
    AuthorityEndAt(url, n, n + |h|);
    assert url[n..n + |h|] == h;
  }

  /** The authority ends at the first character that starts the path. */
  lemma {:induction false} AuthorityEndAt(url: string, i: nat, e: nat)
    requires i <= e <= |url|
    requires forall k :: i <= k < e ==> !PathStart(url[k])
    requires e == |url| || PathStart(url[e])
    ensures AuthorityEnd(url, i) == e
    decreases e - i
  {
    if i < e {
      AuthorityEndAt(url, i + 1, e);
    }
  }

  /** A character that may not stand in a host, with no delimiter before it,
      makes the URL fail to parse. */
  lemma ForbiddenInHost(url: string, k: nat)
    requires SchemeLength(url) <= k < |url| && SchemeLength(url) > 0
    requires ForbiddenHostChar(url[k])
    requires forall j :: SchemeLength(url) <= j < k ==> !HostDelimiter(url[j])
    ensures HostName(url) == None
  {
    var n := SchemeLength(url);
    var e := HostEnd(url, n);
    assert !HostDelimiter(url[k]);
    assert k < e;
    var h := Lower(url[n..e]);
    assert h[k - n] == LowerChar(url[k]) == url[k];
  }

  /** A relative redirect stays on the same host and keeps the scheme:
      `Location` values that do not start with `http` never leave the site. */
  lemma RelativeRedirectStays(location: string, secure: bool, h: string)
    requires ValidHost(h) && !StartsWith(location, "http")
    ensures var next := RedirectTarget(location, secure, h);
            HostName(next) == Some(h) && IsHttpsUrl(next) == secure
  {
    var next := RedirectTarget(location, secure, h);
    var path := if StartsWith(location, "/") then location else "/" + location;
    if StartsWith(location, "/") {
      StartsWithPrefix(location, "/");
    } else {
      assert SchemeOf(secure) + h + "/" + location == SchemeOf(secure) + h + path;
    }
    assert next == SchemeOf(secure) + h + path;
    HostNameOf(secure, h, path);
    if secure {
      assert next[..8] == "https://";
    } else {
      assert next[4] == ':';
    }
  }

  /** A reply that redirects to a relative `Location`. */
  predicate RelativeRedirect(r: Reply) {
    && r.Answered? && (r.statusCode == 301 || r.statusCode == 302)
    && HasLocation(r.headers) && !StartsWith(r.headers["location"], "http")
  }

  /** `new URL(url)` succeeds. */
  predicate Parses(url: string) {
    HostName(url).Some?
  }

  /** A 200 reply to a URL that parses ends the chain with its page. */
  lemma RespondPage(net: Request -> Reply, u: string, s: bool, c: nat)
    requires Parses(u) && net(Request(u, s, c)).Answered? && net(Request(u, s, c)).statusCode == 200
    ensures var r := net(Request(u, s, c));
            Respond(net, u, s, c) == Settled(Page(u, r.headers, r.body))
  {
  }

  /** A relative redirect from a URL that parses is followed to a URL that
      parses. */
  lemma RespondRelative(net: Request -> Reply, u: string, s: bool, c: nat)
    requires HostName(u).Some? && RelativeRedirect(net(Request(u, s, c)))
    ensures Respond(net, u, s, c).Follow? && HostName(Respond(net, u, s, c).next).Some?
  {
    var r := net(Request(u, s, c));
    RelativeRedirectStays(r.headers["location"], s, HostName(u).value);
  }

  /** A server that answers every request with a relative redirect gets six
      requests, the first and five redirected ones, and the call is then
      rejected with the redirect limit. */
  lemma EndlessRedirects(net: Request -> Reply, url: string, secure: bool)
    requires HostName(url).Some?
    requires forall req :: RelativeRedirect(net(req))
    ensures Settle(Fetch(net, url, secure, 0).final) == Rejected(TooManyRedirects)
    ensures |Fetch(net, url, secure, 0).sent| == MaxRedirects + 1
  {
    var step, valid := Responder(net), Parses;
    forall u: string, s: bool, c: nat | c < MaxRedirects + 1 && valid(u)
      ensures step(u, s, c).Follow? && valid(step(u, s, c).next)
    {
      RespondRelative(net, u, s, c);
    }
    ChainEndless(step, valid, url, secure, 0);
  }

  /** The fifth redirect is still followed: when the requests below depth
      five are answered with relative redirects and the one at depth five
      with a 200, six requests go out and the sixth one's body is classified. */
  lemma FifthRedirectFollowed(net: Request -> Reply, url: string, secure: bool)
    requires HostName(url).Some?
    requires forall req: Request :: req.redirectCount < MaxRedirects ==> RelativeRedirect(net(req))
    requires forall req: Request :: req.redirectCount == MaxRedirects ==> net(req).Answered? && net(req).statusCode == 200
    ensures var x := Fetch(net, url, secure, 0);
            |x.sent| == MaxRedirects + 1
            && var last := x.sent[MaxRedirects];
               last.redirectCount == MaxRedirects
               && x.final == Page(last.url, net(last).headers, net(last).body)
  {
    var step, valid := Responder(net), Parses;
    forall u: string, s: bool, c: nat | c < MaxRedirects && valid(u)
      ensures step(u, s, c).Follow? && valid(step(u, s, c).next)
    {
      RespondRelative(net, u, s, c);
    }
    forall u: string, s: bool | valid(u)
      ensures step(u, s, MaxRedirects).Settled?
    {
      RespondPage(net, u, s, MaxRedirects);
    }
    var last := ChainFifth(step, valid, url, secure, 0);
    RespondPage(net, last.url, last.secure, MaxRedirects);
  }

  /** A 301 or 302 without a `Location` is not followed: the call resolves
      to the negative verdict with the status line after one request. */
  lemma RedirectWithoutLocation(net: Request -> Reply, url: string, secure: bool)
    requires HostName(url).Some?
    requires var r := net(Request(url, secure, 0));
             r.Answered? && (r.statusCode == 301 || r.statusCode == 302) && !HasLocation(r.headers)
    ensures var x := Fetch(net, url, secure, 0);
            var r := net(Request(url, secure, 0));
            Settle(x.final) == Resolved(Scorer.Verdict(false, [Scorer.StatusLine(r.statusCode)]))
            && x.sent == [Request(url, secure, 0)]
  {
    var r := net(Request(url, secure, 0));
    assert Respond(net, url, secure, 0) == Settled(NotOk(r.statusCode));
  }

  /** One request of `makeHTTPRequest`. */
  method Send(net: Request -> Reply, url: string, secure: bool, redirectCount: nat) returns (st: Step)
    ensures st == Respond(net, url, secure, redirectCount)
  {
    var host := HostName(url);
    if host.None? {
      return Unsent(Failure(InvalidUrl));
    }
    var reply := net(Request(url, secure, redirectCount));
    if reply.Failed? {
      return Settled(Failure(reply.error));
    }
    var status := reply.statusCode;
    if (status == 301 || status == 302) && HasLocation(reply.headers) {
      return Follow(RedirectTarget(reply.headers["location"], secure, host.value));
    } else if status != 200 {
      return Settled(NotOk(status));
    }
    return Settled(Page(url, reply.headers, reply.body));
  }

  /** A call at an allowed depth whose request ends the chain ends it with
      what that request settled to. */
  lemma FetchStops(net: Request -> Reply, url: string, secure: bool, redirectCount: nat)
    requires redirectCount <= MaxRedirects && !Respond(net, url, secure, redirectCount).Follow?
    ensures Fetch(net, url, secure, redirectCount).final == Respond(net, url, secure, redirectCount).final
  {
  }

  /** A call at an allowed depth whose request is redirected ends as the
      call on the redirect target, one level deeper. */
  lemma FetchFollows(net: Request -> Reply, url: string, secure: bool, redirectCount: nat)
    requires redirectCount <= MaxRedirects && Respond(net, url, secure, redirectCount).Follow?
    ensures var next := Respond(net, url, secure, redirectCount).next;
            Fetch(net, url, secure, redirectCount).final
            == Fetch(net, next, IsHttpsUrl(next), redirectCount + 1).final
  {
  }

  /** The redirect loop of `makeHTTPRequest`, with the recursion on the
      redirect target written as an iteration. */
  method FollowRedirects(net: Request -> Reply, url: string, isHttps: bool) returns (f: Final)
    ensures f == Fetch(net, url, isHttps, 0).final
  {
    var u, secure, redirectCount := url, isHttps, 0;
    while true
      invariant redirectCount <= MaxRedirects + 1
      invariant Fetch(net, url, isHttps, 0).final == Fetch(net, u, secure, redirectCount).final
      decreases MaxRedirects + 1 - redirectCount
    {
      if redirectCount > MaxRedirects {
        return Failure(TooManyRedirects);
      }
      var st := Send(net, u, secure, redirectCount);
      if st.Follow? {
        FetchFollows(net, u, secure, redirectCount);
        u, secure, redirectCount := st.next, IsHttpsUrl(st.next), redirectCount + 1;
      } else {
        FetchStops(net, u, secure, redirectCount);
        return st.final;
      }
    }
  }

  /** `makeHTTPRequest(url, isHTTPS)`: the redirect loop, then the status
      line or the scorer's verdict on the page. */
  method MakeHTTPRequest(net: Request -> Reply, url: string, isHttps: bool) returns (r: Outcome)
    ensures r == Settle(Fetch(net, url, isHttps, 0).final)
  {
    var f := FollowRedirects(net, url, isHttps);
    match f
    case Failure(m) =>
      r := Rejected(m);
    case NotOk(status) =>
      r := Resolved(Scorer.Verdict(false, [Scorer.StatusLine(status)]));
    case Page(pageUrl, headers, body) =>
      var v := Scorer.AnalyzeResponseForUmbraco(body, headers, 200, pageUrl);
      r := Resolved(v);
  }

  /** A probe outcome that settles the domain at once: a positive verdict. */
  predicate Positive(o: Outcome) {
    o.Resolved? && o.verdict.isUmbraco
  }

  /** The scheme fallback of `checkDomainWithHTTP`: a positive HTTPS verdict
      is final; otherwise a resolved HTTP probe replaces the HTTPS result, a
      resolved HTTPS probe is kept, and with both rejected the domain is
      negative with no evidence. */
  function Fallback(first: Outcome, second: Outcome): (v: Scorer.Verdict)
    ensures v.isUmbraco <==> Positive(first) || Positive(second)
    ensures v == (if Positive(first) || second.Rejected? then
                    (if first.Resolved? then first.verdict else Scorer.Verdict(false, []))
                  else second.verdict)
  {
    if Positive(first) then first.verdict
    else if second.Resolved? then second.verdict
    else if first.Resolved? then first.verdict
    else Scorer.Verdict(false, [])
  }

  /** The verdict on a domain and the requests sent for it. */
  datatype Probed = Probed(verdict: Scorer.Verdict, sent: seq<Request>)

  function HttpsUrl(domain: string): string { "https://" + domain + "/umbraco/" }
  function HttpUrl(domain: string): string { "http://" + domain + "/umbraco/" }

  /** `checkDomainWithHTTP(domain)`: HTTPS first, then, unless that was
      positive, HTTP. */
  function Probe(net: Request -> Reply, domain: string): Probed {
    var first := Fetch(net, HttpsUrl(domain), true, 0);
    var second := Fetch(net, HttpUrl(domain), false, 0);
    Probed(Fallback(Settle(first.final), Settle(second.final)),
           first.sent + if Positive(Settle(first.final)) then [] else second.sent)
  }

  /** A positive HTTPS probe sends no HTTP request: every request after the
      first is a redirect of the HTTPS chain. */
  lemma PositiveHttpsAlone(net: Request -> Reply, domain: string)
    requires Positive(Settle(Fetch(net, HttpsUrl(domain), true, 0).final))
    ensures var p := Probe(net, domain);
            p.verdict == Settle(Fetch(net, HttpsUrl(domain), true, 0).final).verdict
            && forall k :: 0 <= k < |p.sent| ==> p.sent[k].redirectCount == k
    ensures Probe(net, domain).sent == Fetch(net, HttpsUrl(domain), true, 0).sent
  {
    FetchBounded(net, HttpsUrl(domain), true);
  }

  /** The domain's evidence is empty exactly when both probes were rejected. */
  lemma EvidenceEmptyOnlyIfBothRejected(net: Request -> Reply, domain: string)
    ensures var first := Settle(Fetch(net, HttpsUrl(domain), true, 0).final);
            var second := Settle(Fetch(net, HttpUrl(domain), false, 0).final);
            Probe(net, domain).verdict.evidence == [] <==> first.Rejected? && second.Rejected?
  {
    SettleEvidence(Fetch(net, HttpsUrl(domain), true, 0).final);
    SettleEvidence(Fetch(net, HttpUrl(domain), false, 0).final);
  }

  /** A probe URL whose domain holds a character a host may not hold, with
      no delimiter before it, does not parse. */
  lemma ProbeUrlUnparsable(secure: bool, domain: string, k: nat)
    requires k < |domain| && ForbiddenHostChar(domain[k])
    requires forall j :: 0 <= j < k ==> !HostDelimiter(domain[j])
    ensures HostName(SchemeOf(secure) + domain + "/umbraco/") == None
  {
    var url, n := SchemeOf(secure) + domain + "/umbraco/", |SchemeOf(secure)|;
    assert url[..n] == SchemeOf(secure);
    if !secure {
      assert url[4] == ':';
    }
    assert SchemeLength(url) == n;
    assert url[n + k] == domain[k];
    forall j | n <= j < n + k
      ensures !HostDelimiter(url[j])
    {
      assert url[j] == domain[j - n];
    }
    ForbiddenInHost(url, n + k);
  }

  /** A URL that does not parse is rejected before anything is sent. */
  lemma UnsentFetch(net: Request -> Reply, url: string, secure: bool)
    requires HostName(url) == None
    ensures Fetch(net, url, secure, 0) == Exchange(Failure(InvalidUrl), [])
  {
  }

  /** A domain with white space (or another character a host may not hold)
      in its host part fails `new URL` on both schemes: nothing is sent, and
      the verdict is negative with no evidence. */
  lemma UnparsableDomain(net: Request -> Reply, domain: string, k: nat)
    requires k < |domain| && ForbiddenHostChar(domain[k])
    requires forall j :: 0 <= j < k ==> !HostDelimiter(domain[j])
    ensures Probe(net, domain) == Probed(Scorer.Verdict(false, []), [])
  {
    ProbeUrlUnparsable(true, domain, k);
    ProbeUrlUnparsable(false, domain, k);
    UnsentFetch(net, HttpsUrl(domain), true);
    UnsentFetch(net, HttpUrl(domain), false);
  }

  /** `checkDomainWithHTTP`: the two attempts with their `try` blocks. */
  method CheckDomainWithHTTP(net: Request -> Reply, domain: string) returns (v: Scorer.Verdict)
    ensures v == Probe(net, domain).verdict
  {
    var isUmbraco := false;
    var evidence: seq<string> := [];
    var httpsResult := MakeHTTPRequest(net, HttpsUrl(domain), true);
    if httpsResult.Resolved? {
      isUmbraco := httpsResult.verdict.isUmbraco;
      evidence := httpsResult.verdict.evidence;
      if isUmbraco {
        return Scorer.Verdict(isUmbraco, evidence);
      }
    }
    var httpResult := MakeHTTPRequest(net, HttpUrl(domain), false);
    if httpResult.Resolved? {
      isUmbraco := httpResult.verdict.isUmbraco;
      evidence := httpResult.verdict.evidence;
    }
    return Scorer.Verdict(isUmbraco, evidence);
  }
}
