/**
  The worker's `fetch` handler (src/index.js lines 1-64) as a decision over
  its inputs: the request's pathname, method and query, the configured
  `WEBHOOK_TOKEN`, the outcome of `request.json()` and the outcome of the
  Telegram call. `/healthz` is answered first and needs no token; every other
  path is behind the token gate; behind it only `POST /kvfx/webhook` formats
  and sends, everything else is 404.
 */
module Gateway {
  import opened JsValue
  import opened Strings
  import Formatter

  datatype Option<T> = None | Some(value: T)

  /**
    The parts of the request the handler reads: `url.pathname`,
    `request.method` (as the runtime normalises it) and the query as
    URLSearchParams decodes it, name/value pairs in order.
   */
  datatype Request = Request(pathname: string, httpMethod: string, query: seq<(string, string)>)

  const HealthPath: string := "/healthz"
  const WebhookPath: string := "/kvfx/webhook"

  /** `url.searchParams.get(name)`: the value of the first pair named `name`, or null. */
  function QueryGet(query: seq<(string, string)>, name: string): (r: Option<string>)
    ensures r.None? <==> forall i :: 0 <= i < |query| ==> query[i].0 != name
    ensures r.Some? ==> exists i :: 0 <= i < |query| && query[i] == (name, r.value)
                                    && forall j :: 0 <= j < i ==> query[j].0 != name
  {
    if query == [] then None
    else if query[0].0 == name then Some(query[0].1)
    else
      var r := QueryGet(query[1..], name);
      if r.Some? then
        ghost var i :| 0 <= i < |query[1..]| && query[1..][i] == (name, r.value)
                       && forall j :: 0 <= j < i ==> query[1..][j].0 != name;
        assert query[i + 1] == (name, r.value);
        assert forall j :: 0 <= j < i + 1 ==> query[j].0 != name by {
          forall j | 0 <= j < i + 1 ensures query[j].0 != name {
            if j > 0 { assert query[j] == query[1..][j - 1]; }
          }
        }
        r
      else
        assert forall i :: 1 <= i < |query| ==> query[i] == query[1..][i - 1];
        r
  }

  /** `url.searchParams.get("token") || ""`: a missing token reads as the empty string. */
  function SuppliedToken(req: Request): string {
    match QueryGet(req.query, "token")
    case None => ""
    case Some(t) => t
  }

  /** `env.WEBHOOK_TOKEN || ""` */
  function SecretText(secret: Option<string>): string {
    match secret
    case None => ""
    case Some(s) => s
  }

  /** The gate of lines 18-19 lets a request through: a non-empty secret, matched exactly. */
  predicate Authorized(secret: Option<string>, token: string) {
    secret.Some? && secret.value != "" && token == secret.value
  }

  /** What the handler does with a request, before the outcome of the Telegram call is known. */
  datatype Decision =
    | Health(hasSecret: bool, secretLen: nat)  // lines 6-15
    | BadToken(receivedLen: nat, envLen: nat)  // lines 19-25, with the lengths it logs
    | NotFound                                 // line 63
    | Send(text: string)                       // lines 31-55: the text handed to Telegram
    | Throw(fault: Fault)                      // an exception escapes the handler

  /**
    The handler up to the Telegram call. `body` is the outcome of
    `request.json()`, which is only awaited on the webhook route.
   */
  function Decide(nt: NumberText, req: Request, secret: Option<string>, body: Result<JsVal>): (d: Decision)
    ensures d.Health? <==> req.pathname == HealthPath
    ensures d.BadToken? <==> req.pathname != HealthPath && !Authorized(secret, SuppliedToken(req))
    ensures d.Send? ==> body.Ok? && Formatter.Format(nt, body.value) == Ok(d.text)
    ensures d.Throw? ==> body == Err(d.fault) || (body.Ok? && Formatter.Format(nt, body.value) == Err(d.fault))
  {
    if req.pathname == HealthPath then
      Health(SecretText(secret) != "", Utf16Length(SecretText(secret)))
    else
      var token := SuppliedToken(req);
      if !Authorized(secret, token) then
        BadToken(Utf16Length(token), Utf16Length(SecretText(secret)))
      else if req.pathname == WebhookPath && req.httpMethod == "POST" then
        match body
        case Err(e) => Throw(e)
        case Ok(payload) =>
          match Formatter.Format(nt, payload)
          case Err(e) => Throw(e)
          case Ok(text) => Send(text)
      else NotFound
  }

  /** What `await fetch(...)` to Telegram gives: a response with its status, or a rejection. */
  datatype TelegramResult = TelegramReply(status: nat) | FetchRejected

  /** `Response.ok`: a status in the range 200-299. */
  predicate IsOk(status: nat) {
    200 <= status <= 299
  }

  /** The status, content type and body of a `Response` the handler builds. */
  datatype Response = Response(status: nat, contentType: string, body: string)

  const Json: string := "application/json"
  const PlainText: string := "text/plain;charset=UTF-8"  // what a string body gets by default

  /** `JSON.stringify({ ok: true, hasSecret, secretLen })` */
  function HealthBody(hasSecret: bool, secretLen: nat): string {
    HealthPrefix(hasSecret) + NatToDecimal(secretLen) + "}"
  }

  /** The body up to the digits of `secretLen`. */
  function HealthPrefix(hasSecret: bool): string {
    "{\"ok\":true,\"hasSecret\":" + (if hasSecret then "true" else "false") + ",\"secretLen\":"
  }

  /** Lines 57-60: the answer once Telegram has been called. A rejected fetch is a TypeError. */
  function AfterSend(tg: TelegramResult): (r: Result<Response>)
    ensures r.Err? <==> tg == FetchRejected
    ensures r.Ok? ==> r.value.status in {200, 500} && (r.value.status == 200 <==> IsOk(tg.status))
  {
    match tg
    case FetchRejected => Err(TypeError)
    case TelegramReply(status) =>
      if !IsOk(status) then Ok(Response(500, PlainText, "Telegram error"))
      else Ok(Response(200, Json, "{\"ok\":true}"))
  }

  /** The answer for a decision; the Telegram outcome matters only after a send. */
  function Respond(d: Decision, tg: TelegramResult): (r: Result<Response>)
    ensures r.Err? <==> d.Throw? || (d.Send? && tg == FetchRejected)
    ensures r.Ok? ==> (r.value.status == 401 <==> d.BadToken?) && (r.value.status == 404 <==> d.NotFound?)
    ensures r.Ok? && r.value.status == 500 ==> d.Send? && tg.TelegramReply? && !IsOk(tg.status)
  {
    match d
    case Health(hasSecret, secretLen) => Ok(Response(200, Json, HealthBody(hasSecret, secretLen)))
    case BadToken(_, _) => Ok(Response(401, PlainText, "Bad token"))
    case NotFound => Ok(Response(404, PlainText, "Not found"))
    case Send(_) => AfterSend(tg)
    case Throw(e) => Err(e)
  }

  /** The whole handler: the response it returns, or the exception that escapes it. */
  function Handle(nt: NumberText, req: Request, secret: Option<string>, body: Result<JsVal>,
                  tg: TelegramResult): Result<Response>
  {
    Respond(Decide(nt, req, secret, body), tg)
  }

  // ---------------------------------------------------------------------------
  // Properties

  /**
    `/healthz` is answered before any token check, whatever the method, query,
    body and secret: 200 with `ok: true`, whether a non-empty secret is set,
    and its length (0 when unset).
   */
  lemma HealthBeforeToken(nt: NumberText, req: Request, secret: Option<string>, body: Result<JsVal>,
                          tg: TelegramResult)
    requires req.pathname == HealthPath
    ensures var hasSecret := secret.Some? && secret.value != "";
            var secretLen := if secret.None? then 0 else Utf16Length(secret.value);
            Handle(nt, req, secret, body, tg) == Ok(Response(200, Json, HealthBody(hasSecret, secretLen)))
    ensures var len := Decide(nt, req, secret, body).secretLen;
            len == 0 <==> !Decide(nt, req, secret, body).hasSecret
  {
  }

  /**
    Every other path is behind the gate: it answers 401 "Bad token" exactly
    when the secret is unset or empty or the supplied token differs from it,
    and that answer is the same whatever the body and the Telegram outcome,
    so nothing is parsed, formatted or sent.
   */
  lemma TokenGate(nt: NumberText, req: Request, secret: Option<string>, body: Result<JsVal>,
                  tg: TelegramResult, body': Result<JsVal>, tg': TelegramResult)
    requires req.pathname != HealthPath
    ensures Decide(nt, req, secret, body).BadToken? <==>
              secret.None? || secret.value == "" || SuppliedToken(req) != secret.value
    ensures Decide(nt, req, secret, body).BadToken? ==>
              Handle(nt, req, secret, body, tg) == Handle(nt, req, secret, body', tg')
                == Ok(Response(401, PlainText, "Bad token"))
  {
  }

  /** A request without a `token` parameter, or with an empty one, is never let through. */
  lemma MissingTokenNeverAuthorizes(req: Request, secret: Option<string>)
    requires QueryGet(req.query, "token") == None || QueryGet(req.query, "token") == Some("")
    ensures !Authorized(secret, SuppliedToken(req))
  {
  }

  /** An unset or empty secret rejects every token, rather than accepting every one. */
  lemma EmptySecretRejectsAll(nt: NumberText, req: Request, secret: Option<string>, body: Result<JsVal>,
                              tg: TelegramResult)
    requires secret == None || secret == Some("")
    requires req.pathname != HealthPath
    ensures Handle(nt, req, secret, body, tg) == Ok(Response(401, PlainText, "Bad token"))
  {
  }

  /** Only the first `token` parameter is compared: a later one cannot unlock the gate. */
  lemma FirstTokenCounts(req: Request, secret: Option<string>, i: nat)
    requires i < |req.query| && req.query[i].0 == "token"
    requires forall j :: 0 <= j < i ==> req.query[j].0 != "token"
    ensures Authorized(secret, SuppliedToken(req)) <==> Authorized(secret, req.query[i].1)
  {
    var r := QueryGet(req.query, "token");
    var k :| 0 <= k < |req.query| && req.query[k] == ("token", r.value)
             && forall j :: 0 <= j < k ==> req.query[j].0 != "token";
    assert k == i;
  }

  /** Past the gate, everything but `POST /kvfx/webhook` is 404. */
  lemma OtherRoutesNotFound(nt: NumberText, req: Request, secret: Option<string>, body: Result<JsVal>,
                            tg: TelegramResult)
    requires req.pathname != HealthPath && Authorized(secret, SuppliedToken(req))
    requires !(req.pathname == WebhookPath && req.httpMethod == "POST")
    ensures Handle(nt, req, secret, body, tg) == Ok(Response(404, PlainText, "Not found"))
  {
  }

  /**
    A text is sent exactly for an authorised `POST /kvfx/webhook` whose body
    parses and formats, and the text sent is the formatter's.
   */
  lemma SendIff(nt: NumberText, req: Request, secret: Option<string>, body: Result<JsVal>, text: string)
    ensures Decide(nt, req, secret, body) == Send(text) <==>
              && req.pathname == WebhookPath && req.httpMethod == "POST"
              && Authorized(secret, SuppliedToken(req))
              && body.Ok? && Formatter.Format(nt, body.value) == Ok(text)
  {
  }

  /** After the send: 500 "Telegram error" when Telegram's status is not 2xx, otherwise 200 `{"ok":true}`. */
  lemma SendOutcome(nt: NumberText, req: Request, secret: Option<string>, body: Result<JsVal>,
                    status: nat)
    requires Decide(nt, req, secret, body).Send?
    ensures Handle(nt, req, secret, body, TelegramReply(status))
              == if IsOk(status) then Ok(Response(200, Json, "{\"ok\":true}"))
                 else Ok(Response(500, PlainText, "Telegram error"))
  {
  }

  /**
    An exception escapes the handler only on the authorised webhook route: a
    body that is not JSON, a payload the formatter throws on, or a rejected
    Telegram call.
   */
  lemma Escapes(nt: NumberText, req: Request, secret: Option<string>, body: Result<JsVal>,
                tg: TelegramResult)
    ensures Handle(nt, req, secret, body, tg).Err? <==>
              && req.pathname == WebhookPath && req.httpMethod == "POST"
              && Authorized(secret, SuppliedToken(req))
              && (body.Err? || Formatter.Format(nt, body.value).Err? || tg == FetchRejected)
  {
  }

  /**
    The health body gives both fields back: different `hasSecret` or
    `secretLen` values never produce the same JSON text.
   */
  lemma HealthBodyFields(h1: bool, n1: nat, h2: bool, n2: nat)
    requires HealthBody(h1, n1) == HealthBody(h2, n2)
    ensures h1 == h2 && n1 == n2
  {
    var s := HealthBody(h1, n1);
    assert s[23] == HealthBody(h2, n2)[23];
    assert h1 == h2;
    var pre := HealthPrefix(h1);
    assert s == pre + (NatToDecimal(n1) + "}");
    assert HealthBody(h2, n2) == pre + (NatToDecimal(n2) + "}");
    assert s[|pre|..] == NatToDecimal(n1) + "}";
    assert HealthBody(h2, n2)[|pre|..] == NatToDecimal(n2) + "}";
    assert NatToDecimal(n1) == (NatToDecimal(n1) + "}")[..|NatToDecimal(n1) + "}"| - 1];
    assert NatToDecimal(n2) == (NatToDecimal(n2) + "}")[..|NatToDecimal(n2) + "}"| - 1];
  }

  /** Every answer the handler returns is 200, 401, 404 or 500. */
  lemma StatusCodes(nt: NumberText, req: Request, secret: Option<string>, body: Result<JsVal>,
                    tg: TelegramResult)
    requires Handle(nt, req, secret, body, tg).Ok?
    ensures Handle(nt, req, secret, body, tg).value.status in {200, 401, 404, 500}
  {
  }
}
