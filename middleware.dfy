/** The request middleware (src/middleware.ts). A request whose query holds the
    `__clerk_handshake` parameter is redirected to the same URL without it, and a
    counter cookie allows at most three such redirects before the visitor is sent
    to "/". A request without the parameter clears the counter and asks for
    authentication on the protected routes. The authentication itself
    (`auth.protect`) is an outcome flag; cookie attributes are not modelled. */
module Middleware {
  import opened Records
  import opened Text

  const HandshakeParam: string := "__clerk_handshake"
  const MaxRedirects: int := 3

  /** A request URL; the query is the ordered list of `searchParams`. */
  datatype Url = Url(origin: string, path: string, query: seq<(string, string)>)

  /** A request: its URL and the value of the `__clerk_redirect_count` cookie, if sent. */
  datatype Request = Request(url: Url, counter: Option<string>)

  /** What a response does to the counter cookie. */
  datatype CookieOp = SetCounter(value: string) | DeleteCounter

  /** A redirect, or `NextResponse.next()` (also what returning nothing means), with the
      cookie operations the response carries and whether `auth.protect()` was called. */
  datatype Outcome =
    | Redirect(location: Url, cookieOps: seq<CookieOp>)
    | Continue(cookieOps: seq<CookieOp>, protect: bool)

  // ---------------------------------------------------------------------
  // URLs and cookies
  // ---------------------------------------------------------------------

  /** `searchParams.has(name)` */
  predicate HasParam(query: seq<(string, string)>, name: string) {
    exists i :: 0 <= i < |query| && query[i].0 == name
  }

  /** `searchParams.delete(name)`: every entry with that name goes, the others stay in order. */
  function WithoutParam(query: seq<(string, string)>, name: string): (r: seq<(string, string)>)
    ensures !HasParam(r, name)
    ensures forall p :: p in query && p.0 != name ==> p in r
    ensures forall p :: p in r ==> p in query
    ensures !HasParam(query, name) ==> r == query
    ensures |r| <= |query|
  {
    if query == [] then []
    else
      var rest := WithoutParam(query[1..], name);
      assert !HasParam(query[1..], name) ==> rest == query[1..];
      assert !HasParam(query, name) ==> query == [query[0]] + query[1..] && query[0].0 != name;
      if query[0].0 == name then rest else [query[0]] + rest
  }

  /** The cloned URL with the handshake parameter deleted. */
  function StripHandshake(u: Url): (r: Url)
    ensures r.origin == u.origin && r.path == u.path
    ensures !HasParam(r.query, HandshakeParam)
    ensures forall p :: p in u.query && p.0 != HandshakeParam ==> p in r.query
    ensures forall p :: p in r.query ==> p in u.query
  {
    u.(query := WithoutParam(u.query, HandshakeParam))
  }

  /** `new URL("/", req.url)` */
  function RootOf(u: Url): (r: Url)
    ensures r.origin == u.origin && r.path == "/" && r.query == []
  {
    Url(u.origin, "/", [])
  }

  /** `createRouteMatcher(["/admin(.*)", "/access(.*)"])`, a prefix match on the path. */
  predicate IsProtected(path: string) {
    StartsWith(path, "/admin") || StartsWith(path, "/access")
  }

  /** `parseInt(cookie?.value || "0", 10)`; none is NaN. */
  function CounterValue(counter: Option<string>): (c: Option<int>)
    ensures counter.None? || counter == Some("") ==> c == Some(0)
  {
    if counter.None? || counter.value == [] then
      IntToStringRoundTrip(0);
      ParseInt("0")
    else ParseInt(counter.value)
  }

  /** A counter written with `String(n)` reads back as `n`. */
  lemma CounterRoundTrip(n: int)
    ensures CounterValue(Some(IntToString(n))) == Some(n)
  {
    IntToStringRoundTrip(n);
    assert IntToString(n) != [];
  }

  /** The counter cookie a browser holds after a response's cookie operations. */
  function ApplyCookies(counter: Option<string>, ops: seq<CookieOp>): (r: Option<string>)
    ensures ops != [] && ops[|ops| - 1] == DeleteCounter ==> r.None?
    ensures ops != [] && ops[|ops| - 1].SetCounter? ==> r == Some(ops[|ops| - 1].value)
    ensures ops == [] ==> r == counter
    decreases |ops|
  {
    if ops == [] then counter
    else
      var next := match ops[0] case SetCounter(v) => Some(v) case DeleteCounter => None;
      ApplyCookies(next, ops[1..])
  }

  // ---------------------------------------------------------------------
  // The middleware as written and as intended
  // ---------------------------------------------------------------------

  /** The middleware as written: in the too-many-redirects branch the counter is deleted on
      the discarded response, so the redirect to "/" carries no cookie operation. */
  function HandleAsWritten(req: Request): (o: Outcome)
    ensures HasParam(req.url.query, HandshakeParam) ==> o.Redirect? && !HasParam(o.location.query, HandshakeParam)
    ensures HasParam(req.url.query, HandshakeParam) && BelowLimit(req.counter) ==>
      o.location == StripHandshake(req.url) && IsRetry(o)
    ensures HasParam(req.url.query, HandshakeParam) && !BelowLimit(req.counter) ==>
      o.location == RootOf(req.url) && !IsRetry(o) && ApplyCookies(req.counter, o.cookieOps) == req.counter
    ensures !HasParam(req.url.query, HandshakeParam) ==>
      o.Continue? && ApplyCookies(req.counter, o.cookieOps).None? && (o.protect <==> IsProtected(req.url.path))
  {
    if HasParam(req.url.query, HandshakeParam) then
      var c := CounterValue(req.counter);
      if c.Some? && c.value < MaxRedirects then Redirect(StripHandshake(req.url), [SetCounter(IntToString(c.value + 1))])
      else Redirect(RootOf(req.url), [])
    else Continue(if req.counter.Some? then [DeleteCounter] else [], IsProtected(req.url.path))
  }

  /** The counter reads a number below the limit, so a handshake request may be retried. */
  predicate BelowLimit(counter: Option<string>) {
    CounterValue(counter).Some? && CounterValue(counter).value < MaxRedirects
  }

  /** As written, a handshake request whose counter reads below three is redirected to the
      same URL without the parameter, and the counter it leaves reads one more. */
  lemma HandleAsWrittenRetry(req: Request, c: int)
    requires HasParam(req.url.query, HandshakeParam)
    requires CounterValue(req.counter) == Some(c) && c < MaxRedirects
    ensures var o := HandleAsWritten(req);
      && o == Redirect(StripHandshake(req.url), [SetCounter(IntToString(c + 1))])
      && CounterValue(ApplyCookies(req.counter, o.cookieOps)) == Some(c + 1)
  {
    var o := HandleAsWritten(req);
    assert ApplyCookies(req.counter, o.cookieOps) == Some(IntToString(c + 1));
    CounterRoundTrip(c + 1);
  }

  /** The middleware as intended: the redirect to "/" also clears the counter. */
  function Handle(req: Request): (o: Outcome)
    ensures HasParam(req.url.query, HandshakeParam) ==> o.Redirect? && !HasParam(o.location.query, HandshakeParam)
    ensures HasParam(req.url.query, HandshakeParam) ==> (IsRetry(o) <==> BelowLimit(req.counter))
    ensures !HasParam(req.url.query, HandshakeParam) ==> o.Continue?
  {
    if HasParam(req.url.query, HandshakeParam) then
      var c := CounterValue(req.counter);
      if c.Some? && c.value < MaxRedirects then Redirect(StripHandshake(req.url), [SetCounter(IntToString(c.value + 1))])
      else Redirect(RootOf(req.url), [DeleteCounter])
    else Continue(if req.counter.Some? then [DeleteCounter] else [], IsProtected(req.url.path))
  }

  /** A handshake request whose counter reads below three is redirected to the same URL
      without the parameter, and the counter it leaves reads one more. */
  lemma HandleRetry(req: Request, c: int)
    requires HasParam(req.url.query, HandshakeParam)
    requires CounterValue(req.counter) == Some(c) && c < MaxRedirects
    ensures var o := Handle(req);
      && o == Redirect(StripHandshake(req.url), [SetCounter(IntToString(c + 1))])
      && !HasParam(o.location.query, HandshakeParam)
      && CounterValue(ApplyCookies(req.counter, o.cookieOps)) == Some(c + 1)
  {
    var o := Handle(req);
    var v := IntToString(c + 1);
    assert o == Redirect(StripHandshake(req.url), [SetCounter(v)]);
    assert ApplyCookies(req.counter, o.cookieOps) == Some(v);
    CounterRoundTrip(c + 1);
  }

  /** A handshake request whose counter reads three or more, or not a number, is redirected
      to "/" of its origin, and the counter is cleared. */
  lemma HandleRoot(req: Request)
    requires HasParam(req.url.query, HandshakeParam)
    requires CounterValue(req.counter).None? || CounterValue(req.counter).value >= MaxRedirects
    ensures var o := Handle(req);
      && o.Redirect? && o.location == RootOf(req.url)
      && ApplyCookies(req.counter, o.cookieOps).None?
  {
  }

  /** Any other request is passed on with the counter cleared, and protected exactly on the
      protected routes. */
  lemma HandlePass(req: Request)
    requires !HasParam(req.url.query, HandshakeParam)
    ensures var o := Handle(req);
      o.Continue? && ApplyCookies(req.counter, o.cookieOps).None? && (o.protect <==> IsProtected(req.url.path))
  {
  }

  /** As written, a visitor sent to "/" keeps a counter of three, so every further handshake
      request while the cookie lives goes straight to "/" without a retry; as intended, the
      counter is gone and the next handshake request is retried. */
  lemma {:induction false} AsWrittenKeepsCounter(url: Url)
    requires HasParam(url.query, HandshakeParam)
    ensures var o := HandleAsWritten(Request(url, Some("3")));
      o == Redirect(RootOf(url), []) && ApplyCookies(Some("3"), o.cookieOps) == Some("3")
    ensures var o := Handle(Request(url, Some("3")));
      o == Redirect(RootOf(url), [DeleteCounter]) && ApplyCookies(Some("3"), o.cookieOps).None?
    ensures IsRetry(Handle(Request(url, None)))
  {
    assert "3" == NatToString(3);
    IntToStringRoundTrip(3);
    assert IntToString(3) == "3";
  }

  /** Following the redirect leaves the handshake branch: the stripped URL, asked for again
      with whatever counter, is passed on. */
  lemma {:induction false} StrippedUrlPasses(url: Url, counter: Option<string>)
    ensures Handle(Request(StripHandshake(url), counter)).Continue?
  {
    HandlePass(Request(StripHandshake(url), counter));
  }

  // ---------------------------------------------------------------------
  // The redirect bound over a browsing session
  // ---------------------------------------------------------------------

  /** A redirect that strips the parameter and raises the counter. */
  predicate IsRetry(o: Outcome) {
    o.Redirect? && o.cookieOps != [] && o.cookieOps[0].SetCounter?
  }

  /** The counter reads between 0 and the limit; true of a browser without the cookie. */
  predicate CounterInRange(counter: Option<string>) {
    InRange(CounterValue(counter))
  }

  /** The middleware as a step of a browsing session: the response to `url` sent with `counter`. */
  function HandleStep(counter: Option<string>, url: Url): Outcome {
    Handle(Request(url, counter))
  }

  /** A browser sends the requests in order, keeping the counter cookie between them; `step`
      answers each request. */
  function Run(step: (Option<string>, Url) -> Outcome, counter: Option<string>, urls: seq<Url>): (r: seq<Outcome>)
    ensures |r| == |urls|
    decreases |urls|
  {
    if urls == [] then []
    else
      var o := step(counter, urls[0]);
      [o] + Run(step, ApplyCookies(counter, o.cookieOps), urls[1..])
  }

  /** A counter reading between 0 and the limit. */
  predicate InRange(v: Option<int>) {
    v.Some? && 0 <= v.value <= MaxRedirects
  }

  /** Read through `level`, a step keeps the counter in range, and each retry raises it by one. */
  ghost predicate KeepsRange(step: (Option<string>, Url) -> Outcome, level: Option<string> -> Option<int>) {
    forall c, u :: InRange(level(c)) ==>
      && InRange(level(ApplyCookies(c, step(c, u).cookieOps)))
      && (IsRetry(step(c, u)) ==> level(ApplyCookies(c, step(c, u).cookieOps)) == Some(level(c).value + 1))
  }

  /** One request to the middleware keeps the counter in range, and a retry raises it by one. */
  lemma {:induction false} StepKeepsRange(counter: Option<string>, url: Url)
    requires CounterInRange(counter)
    ensures var o := HandleStep(counter, url);
      && CounterInRange(ApplyCookies(counter, o.cookieOps))
      && (IsRetry(o) ==> CounterValue(ApplyCookies(counter, o.cookieOps)) == Some(CounterValue(counter).value + 1))
  {
    var req := Request(url, counter);
    var c := CounterValue(counter).value;
    var o := Handle(req);
    if !HasParam(url.query, HandshakeParam) {
      HandlePass(req);
      assert ApplyCookies(counter, o.cookieOps) == None;
      assert !IsRetry(o);
    } else if c < MaxRedirects {
      HandleRetry(req, c);
    } else {
      HandleRoot(req);
      assert ApplyCookies(counter, o.cookieOps) == None;
      assert o.cookieOps == [DeleteCounter];
    }
  }

  lemma HandleKeepsRange()
    ensures KeepsRange(HandleStep, CounterValue)
  {
    forall c, u | InRange(CounterValue(c))
      ensures InRange(CounterValue(ApplyCookies(c, HandleStep(c, u).cookieOps)))
      ensures IsRetry(HandleStep(c, u)) ==>
        CounterValue(ApplyCookies(c, HandleStep(c, u).cookieOps)) == Some(CounterValue(c).value + 1)
    {
      StepKeepsRange(c, u);
    }
  }

  /** The middleware as written, as a step of a browsing session. */
  function HandleStepAsWritten(counter: Option<string>, url: Url): Outcome {
    HandleAsWritten(Request(url, counter))
  }

  /** As written, one request still keeps the counter in range: the redirect to "/" is only
      taken in range when the counter reads three, and it leaves the counter at three. */
  lemma {:induction false} StepKeepsRangeAsWritten(counter: Option<string>, url: Url)
    requires CounterInRange(counter)
    ensures var o := HandleStepAsWritten(counter, url);
      && CounterInRange(ApplyCookies(counter, o.cookieOps))
      && (IsRetry(o) ==> CounterValue(ApplyCookies(counter, o.cookieOps)) == Some(CounterValue(counter).value + 1))
  {
    var req := Request(url, counter);
    var o := HandleAsWritten(req);
    if !HasParam(url.query, HandshakeParam) {
      assert ApplyCookies(counter, o.cookieOps) == None;
    } else if BelowLimit(counter) {
      HandleAsWrittenRetry(req, CounterValue(counter).value);
    } else {
      assert ApplyCookies(counter, o.cookieOps) == counter;
    }
  }

  lemma HandleAsWrittenKeepsRange()
    ensures KeepsRange(HandleStepAsWritten, CounterValue)
  {
    forall c, u | InRange(CounterValue(c))
      ensures InRange(CounterValue(ApplyCookies(c, HandleStepAsWritten(c, u).cookieOps)))
      ensures IsRetry(HandleStepAsWritten(c, u)) ==>
        CounterValue(ApplyCookies(c, HandleStepAsWritten(c, u).cookieOps)) == Some(CounterValue(c).value + 1)
    {
      StepKeepsRangeAsWritten(c, u);
    }
  }

  /** From a counter reading `c`, a run of consecutive retries is at most `3 - c` long. */
  lemma {:induction false} RetryRunBound(step: (Option<string>, Url) -> Outcome, level: Option<string> -> Option<int>,
                                         counter: Option<string>, urls: seq<Url>, k: int)
    requires KeepsRange(step, level) && InRange(level(counter))
    requires 0 <= k <= |urls|
    requires forall i :: 0 <= i < k ==> IsRetry(Run(step, counter, urls)[i])
    ensures k <= MaxRedirects - level(counter).value
    decreases k
  {
    if k > 0 {
      var o := step(counter, urls[0]);
      var next := ApplyCookies(counter, o.cookieOps);
      var r := Run(step, counter, urls);
      var rest := Run(step, next, urls[1..]);
      assert r == [o] + rest;
      assert IsRetry(r[0]);
      forall i | 0 <= i < k - 1
        ensures IsRetry(rest[i])
      {
        assert r[i + 1] == rest[i];
      }
      RetryRunBound(step, level, next, urls[1..], k - 1);
    }
  }

  /** The counter left after the first `n` requests. */
  function CounterAfter(step: (Option<string>, Url) -> Outcome, counter: Option<string>, urls: seq<Url>, n: nat): Option<string>
    requires n <= |urls|
    decreases n
  {
    if n == 0 then counter
    else CounterAfter(step, ApplyCookies(counter, step(counter, urls[0]).cookieOps), urls[1..], n - 1)
  }

  /** The responses after the first `n` are those of a session starting from the counter left
      by then, which is still in range. */
  lemma {:induction false} RunDrop(step: (Option<string>, Url) -> Outcome, level: Option<string> -> Option<int>,
                                   counter: Option<string>, urls: seq<Url>, n: nat)
    requires KeepsRange(step, level) && InRange(level(counter)) && n <= |urls|
    ensures InRange(level(CounterAfter(step, counter, urls, n)))
    ensures Run(step, counter, urls)[n..] == Run(step, CounterAfter(step, counter, urls, n), urls[n..])
    decreases n
  {
    if n > 0 {
      var next := ApplyCookies(counter, step(counter, urls[0]).cookieOps);
      var tail := urls[1..];
      RunDrop(step, level, next, tail, n - 1);
      assert tail[n - 1..] == urls[n..];
      var r := Run(step, counter, urls);
      assert r == [step(counter, urls[0])] + Run(step, next, tail);
      assert r[n..] == Run(step, next, tail)[n - 1..];
    }
  }

  /** No four consecutive responses of a session that starts in range are all retries. */
  lemma {:induction false} NoFourRetriesRun(step: (Option<string>, Url) -> Outcome, level: Option<string> -> Option<int>,
                                            counter: Option<string>, urls: seq<Url>, i: nat)
    requires KeepsRange(step, level) && InRange(level(counter))
    requires i + MaxRedirects < |urls|
    ensures exists j :: i <= j <= i + MaxRedirects && !IsRetry(Run(step, counter, urls)[j])
  {
    var r := Run(step, counter, urls);
    var mid := CounterAfter(step, counter, urls, i);
    RunDrop(step, level, counter, urls, i);
    var rest := Run(step, mid, urls[i..]);
    assert forall j :: 0 <= j < |rest| ==> rest[j] == r[i + j];
    if forall j :: 0 <= j <= MaxRedirects ==> IsRetry(rest[j]) {
      RetryRunBound(step, level, mid, urls[i..], MaxRedirects + 1);
      assert false;
    }
    var j :| 0 <= j <= MaxRedirects && !IsRetry(rest[j]);
    assert !IsRetry(r[i + j]);
  }

  /** A browser whose counter reads between 0 and 3 (one without the cookie, or one the
      middleware wrote) never receives four handshake retries in a row. */
  lemma NoFourRetries(counter: Option<string>, urls: seq<Url>, i: nat)
    requires CounterInRange(counter)
    requires i + MaxRedirects < |urls|
    ensures exists j :: i <= j <= i + MaxRedirects && !IsRetry(Run(HandleStep, counter, urls)[j])
  {
    HandleKeepsRange();
    NoFourRetriesRun(HandleStep, CounterValue, counter, urls, i);
  }

  /** The middleware as written keeps the same bound: its defect does not add retries. */
  lemma NoFourRetriesAsWritten(counter: Option<string>, urls: seq<Url>, i: nat)
    requires CounterInRange(counter)
    requires i + MaxRedirects < |urls|
    ensures exists j :: i <= j <= i + MaxRedirects && !IsRetry(Run(HandleStepAsWritten, counter, urls)[j])
  {
    HandleAsWrittenKeepsRange();
    NoFourRetriesRun(HandleStepAsWritten, CounterValue, counter, urls, i);
  }

  // ---------------------------------------------------------------------
  // The response objects
  // ---------------------------------------------------------------------

  /** A `NextResponse`: a redirect location (none for `next()`) and its cookie changes. */
  class Response {
    const location: Option<Url>
    var cookieOps: seq<CookieOp>

    constructor (location: Option<Url>)
      ensures this.location == location && cookieOps == []
    {
      this.location := location;
      cookieOps := [];
    }

    /** `response.cookies.set("__clerk_redirect_count", value, ...)` */
    method SetCounter(value: string)
      modifies this`cookieOps
      ensures cookieOps == old(cookieOps) + [CookieOp.SetCounter(value)]
    {
      cookieOps := cookieOps + [CookieOp.SetCounter(value)];
    }

    /** `response.cookies.delete("__clerk_redirect_count")` */
    method DeleteCounter()
      modifies this`cookieOps
      ensures cookieOps == old(cookieOps) + [CookieOp.DeleteCounter]
    {
      cookieOps := cookieOps + [CookieOp.DeleteCounter];
    }
  }

  /** The outcome a returned response stands for. */
  function Snapshot(res: Response, protect: bool): Outcome
    reads res
  {
    if res.location.Some? then Redirect(res.location.value, res.cookieOps) else Continue(res.cookieOps, protect)
  }

  /** The handler step by step as written: the deletion lands on a response that is then
      dropped in favour of a fresh redirect to "/". */
  method MiddlewareAsWritten(req: Request) returns (res: Response, protect: bool)
    ensures Snapshot(res, protect) == HandleAsWritten(req)
  {
    if HasParam(req.url.query, HandshakeParam) {
      var url := StripHandshake(req.url);
      var response := new Response(Some(url));
      var count := CounterValue(req.counter);
      if count.Some? && count.value < MaxRedirects {
        response.SetCounter(IntToString(count.value + 1));
        return response, false;
      } else {
        response.DeleteCounter();
        var root := new Response(Some(RootOf(req.url)));
        return root, false;
      }
    }
    protect := IsProtected(req.url.path);
    res := new Response(None);
    if req.counter.Some? {
      res.DeleteCounter();
    }
  }

  /** The handler step by step as intended: the redirect to "/" carries the deletion. */
  method Middleware(req: Request) returns (res: Response, protect: bool)
    ensures Snapshot(res, protect) == Handle(req)
  {
    if HasParam(req.url.query, HandshakeParam) {
      var url := StripHandshake(req.url);
      var count := CounterValue(req.counter);
      if count.Some? && count.value < MaxRedirects {
        res := new Response(Some(url));
        res.SetCounter(IntToString(count.value + 1));
      } else {
        res := new Response(Some(RootOf(req.url)));
        res.DeleteCounter();
      }
      return res, false;
    }
    protect := IsProtected(req.url.path);
    res := new Response(None);
    if req.counter.Some? {
      res.DeleteCounter();
    }
  }
}
