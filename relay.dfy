/**
 * The edge relay of worker.js: a chain of early-return guards over
 * (method, target, path, qs), followed by one upstream fetch whose answer is
 * passed through with CORS headers added.
 *
 * The request's query parameters are taken already decoded; the upstream
 * fetch is a parameter of `Handle` (a function from the upstream URL to what
 * the fetch produced), so the model says exactly which URL is fetched.
 */
module Relay {
  import opened Wrappers

  const BinanceBase: string := "https://fapi.binance.com"
  const OkxBase: string := "https://www.okx.com"

  /** ALLOW: the upstream origin of each permitted target (own keys only). */
  const Allow: map<string, string> := map["binance" := BinanceBase, "okx" := OkxBase]

  /** BINANCE_PATHS and OKX_PATHS. Each regular expression is anchored at both
      ends and has no metacharacter, so it accepts exactly one string. */
  const BinancePaths: seq<string> :=
    ["/fapi/v1/openInterest", "/futures/data/topLongShortAccountRatio", "/futures/data/openInterestHist"]
  const OkxPaths: seq<string> := ["/api/v5/public/open-interest"]

  /** The whitelist written out once more as one set of (target, path) pairs:
      the reference the gate is proved against. */
  const Whitelist: set<(string, string)> := {
    ("binance", "/fapi/v1/openInterest"),
    ("binance", "/futures/data/topLongShortAccountRatio"),
    ("binance", "/futures/data/openInterestHist"),
    ("okx", "/api/v5/public/open-interest")
  }

  /** An incoming request: its HTTP method (`verb`) and the query parameters `target`,
      `path` and `qs` (None when the parameter is absent). */
  datatype Request = Request(verb: string, target: Option<string>, path: Option<string>, qs: Option<string>)

  /** A response body: none (the preflight), the JSON object `{error: ...}`
      that `json` serialises, or the upstream text passed through. */
  datatype Body = NoBody | ErrorJson(error: string) | Text(text: string)

  datatype Response = Response(status: int, headers: map<string, string>, body: Body)

  /** What the awaited upstream fetch produced: an answer, or a thrown error. */
  datatype Upstream = Answered(status: int, contentType: Option<string>, text: string) | Threw(message: string)

  /** The outcome of the guards: answer the preflight, reject, or forward. */
  datatype Decision = Preflight | Reject(reason: string) | Forward(url: string)

  function CorsHeaders(): map<string, string>
  {
    map[
      "Access-Control-Allow-Origin" := "*",
      "Access-Control-Allow-Methods" := "GET,OPTIONS",
      "Access-Control-Allow-Headers" := "Content-Type,Authorization"
    ]
  }

  /** `json(obj, status)`: a JSON error body with the CORS headers and a JSON content type. */
  function Json(error: string, status: int): (r: Response)
    ensures r.status == status && r.body == ErrorJson(error)
    ensures r.headers.Keys == CorsHeaders().Keys + {"content-type"}
    ensures r.headers["Access-Control-Allow-Origin"] == "*" && r.headers["content-type"] == "application/json"
  {
    Response(status, CorsHeaders()["content-type" := "application/json"], ErrorJson(error))
  }

  /** `searchParams.get(name) || fallback`: an absent or empty parameter takes the fallback. */
  function ParamOr(p: Option<string>, fallback: string): (s: string)
    ensures s == fallback <==> p.None? || p.value == "" || p.value == fallback
    ensures s != fallback ==> p == Some(s)
  {
    if p.Some? && p.value != "" then p.value else fallback
  }

  /** The upstream URL: base, then path, then `?qs` only when qs is non-empty. */
  function UpstreamUrl(base: string, path: string, qs: string): string
  {
    base + path + (if qs != "" then "?" + qs else "")
  }

  /** The request is one the relay forwards: not a preflight, and its target
      and (defaulted) path form a whitelisted pair. */
  predicate Accepted(req: Request)
  {
    req.verb != "OPTIONS" && req.target.Some? && (req.target.value, ParamOr(req.path, "/")) in Whitelist
  }

  /** The guards of the fetch handler, in the handler's order. */
  function Route(req: Request): (d: Decision)
    ensures d.Preflight? <==> req.verb == "OPTIONS"
    ensures (req.verb != "OPTIONS" && (req.target.None? || req.target.value !in {"binance", "okx"}))
            ==> d == Reject("target not allowed")
    ensures (req.verb != "OPTIONS" && req.target == Some("binance"))
            ==> d.Forward? || d == Reject("binance path not allowed")
    ensures (req.verb != "OPTIONS" && req.target == Some("okx"))
            ==> d.Forward? || d == Reject("okx path not allowed")
    ensures d.Forward? <==> Accepted(req)
    ensures d.Forward? ==> Allow[req.target.value] <= d.url
    ensures d.Forward? ==>
              d.url == Allow[req.target.value] + ParamOr(req.path, "/")
                       + (if ParamOr(req.qs, "") != "" then "?" + ParamOr(req.qs, "") else "")
  {
    if req.verb == "OPTIONS" then Preflight
    else
      var path := ParamOr(req.path, "/");
      var qs := ParamOr(req.qs, "");
      if req.target.None? || req.target.value == "" || req.target.value !in Allow then
        Reject("target not allowed")
      else
        var target := req.target.value;
        if target == "binance" && path !in BinancePaths then Reject("binance path not allowed")
        else if target == "okx" && path !in OkxPaths then Reject("okx path not allowed")
        else Forward(UpstreamUrl(Allow[target], path, qs))
  }

  /** The statuses whose responses must have no body. Building a response
      with a body and one of these statuses throws a TypeError. */
  const NullBodyStatuses: set<int> := {101, 204, 205, 304}

  /** The whole fetch handler: every response carries the CORS origin header;
      a forwarded request keeps the upstream status and body, and a thrown
      fetch becomes a 502 with the error's message. Re-wrapping an upstream
      answer that has a null-body status throws inside the same `try`, so
      that answer also becomes a 502; `bodyError` is the message of the
      TypeError the Response constructor throws. */
  function Handle(req: Request, fetch: string -> Upstream, bodyError: string): (r: Response)
    ensures "Access-Control-Allow-Origin" in r.headers && r.headers["Access-Control-Allow-Origin"] == "*"
    ensures req.verb == "OPTIONS" ==> r == Response(200, CorsHeaders(), NoBody)
    ensures Route(req).Reject? ==> r.status == 400 && r.body == ErrorJson(Route(req).reason)
    ensures (Route(req).Forward? && fetch(Route(req).url).Answered?
             && fetch(Route(req).url).status !in NullBodyStatuses)
            ==> r.status == fetch(Route(req).url).status && r.body == Text(fetch(Route(req).url).text)
    ensures (Route(req).Forward? && fetch(Route(req).url).Answered?
             && fetch(Route(req).url).status !in NullBodyStatuses)
            ==> "content-type" in r.headers && r.headers["content-type"] == ParamOr(fetch(Route(req).url).contentType, "application/json")
    ensures (Route(req).Forward? && fetch(Route(req).url).Answered?
             && fetch(Route(req).url).status in NullBodyStatuses)
            ==> r.status == 502 && r.body == ErrorJson(bodyError)
    ensures (Route(req).Forward? && fetch(Route(req).url).Threw?)
            ==> r.status == 502 && r.body == ErrorJson(fetch(Route(req).url).message)
  {
    match Route(req)
    case Preflight => Response(200, CorsHeaders(), NoBody)
    case Reject(reason) => Json(reason, 400)
    case Forward(url) =>
      match fetch(url)
      case Answered(status, contentType, text) =>
        if status in NullBodyStatuses then Json(bodyError, 502)
        else Response(status, CorsHeaders()["content-type" := ParamOr(contentType, "application/json")], Text(text))
      case Threw(message) => Json(message, 502)
  }

  /** A valid target with no path (or an empty one) is always rejected: the
      default "/" is on neither allow-list. */
  lemma MissingPathRejected(req: Request, fetch: string -> Upstream, bodyError: string)
    requires req.verb != "OPTIONS" && (req.path.None? || req.path == Some(""))
    ensures Route(req).Reject? && Handle(req, fetch, bodyError).status == 400
  {
  }

  // ---------------------------------------------------------------------
  // The target guard as written: `target in ALLOW` also finds the keys every
  // object inherits, so the guard is weaker than the allow-list it stands for.

  /** Names every plain object answers `in` for through its prototype. */
  const InheritedKeys: set<string> :=
    {"constructor", "hasOwnProperty", "isPrototypeOf", "propertyIsEnumerable",
     "toLocaleString", "toString", "valueOf", "__proto__", "__defineGetter__",
     "__defineSetter__", "__lookupGetter__", "__lookupSetter__"}

  /** `!target || !(target in ALLOW)` negated: the request passes the
      target guard of the handler as written. */
  predicate TargetPassesAsWritten(target: Option<string>)
  {
    target.Some? && target.value != "" && (target.value in Allow || target.value in InheritedKeys)
  }

  /** A request naming an inherited key passes the guard as written although
      it names no upstream, and neither path check applies to it; `Route`,
      which checks own keys only, rejects it. */
  lemma InheritedTargetPassesGuard(req: Request)
    requires req.verb != "OPTIONS" && req.target == Some("toString")
    ensures TargetPassesAsWritten(req.target)
    ensures req.target.value !in Allow && req.target.value != "binance" && req.target.value != "okx"
    ensures Route(req) == Reject("target not allowed")
  {
  }

  /** The corrected guard lets through exactly the allowed targets: a
      request Route does not reject for its target names an own key of ALLOW. */
  lemma OwnKeyGuard(req: Request)
    requires req.verb != "OPTIONS"
    ensures Route(req) != Reject("target not allowed") <==> req.target.Some? && req.target.value in Allow
  {
  }

  // ---------------------------------------------------------------------
  // The upstream URL is unambiguous: it parses back into its parts.

  /** Splits at the first '?': the part before it, and the part after it
      (empty when there is no '?'). */
  function SplitQuery(s: string): (string, string)
  {
    if s == [] then ("", "")
    else if s[0] == '?' then ("", s[1..])
    else
      var (p, q) := SplitQuery(s[1..]);
      ([s[0]] + p, q)
  }

  lemma {:induction false} SplitQueryJoin(path: string, qs: string)
    requires '?' !in path
    ensures SplitQuery(path + (if qs != "" then "?" + qs else "")) == (path, qs)
  {
    var tail := if qs != "" then "?" + qs else "";
    if path == [] {
      assert path + tail == tail;
    } else {
      assert (path + tail)[0] == path[0] && (path + tail)[1..] == path[1..] + tail;
      SplitQueryJoin(path[1..], qs);
      assert [path[0]] + path[1..] == path;
    }
  }

  /** Reads an upstream URL back into (target, path, qs). */
  function ParseUpstream(url: string): Option<(string, string, string)>
  {
    if BinanceBase <= url then
      var (p, q) := SplitQuery(url[|BinanceBase|..]);
      Some(("binance", p, q))
    else if OkxBase <= url then
      var (p, q) := SplitQuery(url[|OkxBase|..]);
      Some(("okx", p, q))
    else None
  }

  /** Parsing an upstream URL built on an allowed base and an allowed path
      gives the parts back. */
  lemma ParseBuiltUrl(target: string, path: string, qs: string)
    requires target in Allow && '?' !in path
    ensures ParseUpstream(UpstreamUrl(Allow[target], path, qs)) == Some((target, path, qs))
  {
    var base := Allow[target];
    var tail := if qs != "" then "?" + qs else "";
    var url := UpstreamUrl(base, path, qs);
    assert url == base + (path + tail);
    assert url[|base|..] == path + tail;
    SplitQueryJoin(path, qs);
    if target == "okx" {
      assert url[8] == base[8] == 'w';
      assert BinanceBase[8] == 'f';
    }
  }

  /** Every forwarded URL names its target, its path and its query string
      exactly, so no two accepted requests share an upstream URL unless they
      agree on all three. */
  lemma ForwardedUrlRoundTrip(req: Request)
    requires Route(req).Forward?
    ensures ParseUpstream(Route(req).url)
              == Some((req.target.value, ParamOr(req.path, "/"), ParamOr(req.qs, "")))
  {
    var path := ParamOr(req.path, "/");
    assert path in BinancePaths || path in OkxPaths;
    ParseBuiltUrl(req.target.value, path, ParamOr(req.qs, ""));
  }
}
