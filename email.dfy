/** The serverless handler that receives a submitted reservation, checks
    it, and mails a notice to the business and a confirmation to the
    customer over SMTP. */
module ReservationEmail {
  import opened Common
  import opened ReservationReference
  import Decimal

  // ---------------------------------------------------------------------
  // Requests, configuration and responses

  /** The parsed JSON body. Every field may be absent; the handler demands
      only four of them. The HTML bodies are the only readers of the rest. */
  datatype Payload = Payload(
    clientName: Option<string>,
    clientEmail: Option<string>,
    clientPhone: Option<string>,
    startDate: Option<string>,
    startTime: Option<string>,
    endDate: Option<string>,
    endTime: Option<string>,
    vehicleName: Option<string>,
    vehicleDescription: Option<string>,
    duration: Option<string>,
    options: Option<string>,
    totalPrice: Option<string>,
    weekdayCount: Option<int>,
    weekendCount: Option<int>,
    vehicleTotal: Option<string>,
    optionsTotal: Option<string>)

  /** A value caught by the handler's `catch`: an `Error` carries its
      message, anything else thrown does not. */
  datatype Thrown = ErrorObject(message: string) | OtherValue

  /** What `await req.json()` yields: the payload, or a thrown error (a body
      that is not JSON, or JSON whose field access throws, such as `null`). */
  datatype Body = Readable(payload: Payload) | Unreadable(thrown: Thrown)

  datatype Request = Request(httpMethod: string, body: Body)

  /** The four environment variables the handler reads. */
  datatype Env = Env(
    smtpHost: Option<string>,
    smtpPort: Option<string>,
    smtpUser: Option<string>,
    smtpPass: Option<string>)

  /** A response body: `null` for the preflight, otherwise JSON. */
  datatype ResponseBody = NullBody | ErrorJson(error: string) | SuccessJson(message: string)

  datatype Response = Response(status: nat, headers: map<string, string>, body: ResponseBody)

  const CorsHeaders: map<string, string> := map[
    "Access-Control-Allow-Origin" := "*",
    "Access-Control-Allow-Headers" :=
      "authorization, x-client-info, apikey, content-type, x-supabase-client-platform, x-supabase-client-platform-version, x-supabase-client-runtime, x-supabase-client-runtime-version"
  ]

  const JsonHeaders: map<string, string> := CorsHeaders["Content-Type" := "application/json"]

  const MissingFieldsError: string := "Missing required fields"
  const ConfigurationError: string := "Server configuration error"
  const FallbackError: string := "Failed to send email"
  const SentMessage: string := "Emails sent successfully"

  const SenderName: string := "LogIQ Transport"
  /** Declared beside the sender name; neither message uses it. */
  const SenderEmail: string := "contact@logiq-transport.ch"

  const PreflightResponse: Response := Response(200, CorsHeaders, NullBody)

  function JsonResponse(status: nat, body: ResponseBody): Response
  {
    Response(status, JsonHeaders, body)
  }

  /** The catch clause: the error's message, or the fallback text. */
  function ErrorMessage(t: Thrown): (m: string)
    ensures t.ErrorObject? ==> m == t.message
    ensures t.OtherValue? ==> m == FallbackError
  {
    match t
    case ErrorObject(message) => message
    case OtherValue => FallbackError
  }

  function FailureResponse(t: Thrown): Response
  {
    JsonResponse(500, ErrorJson(ErrorMessage(t)))
  }

  /** The validation: client name, client email, start date and vehicle
      name must be truthy; nothing else is checked. */
  predicate HasRequiredFields(p: Payload)
  {
    Present(p.clientName) && Present(p.clientEmail) && Present(p.startDate) && Present(p.vehicleName)
  }

  /** Host, user and password must be truthy; the port may be unset. */
  predicate HasSmtpConfig(env: Env)
  {
    Present(env.smtpHost) && Present(env.smtpUser) && Present(env.smtpPass)
  }

  /** `Deno.env.get("SMTP_PORT") || "465"`. */
  function PortSetting(env: Env): string
  {
    if Present(env.smtpPort) then env.smtpPort.value else "465"
  }

  /** The run of decimal digits at the front of `s`. */
  function LeadingDigits(s: string): (d: string)
    ensures |d| <= |s| && Decimal.AllDigits(d) && d == s[..|d|]
    ensures |d| < |s| ==> !Decimal.IsDigit(s[|d|])
  {
    if s != [] && Decimal.IsDigit(s[0]) then [s[0]] + LeadingDigits(s[1..]) else []
  }

  /** `parseInt` on a string that starts with its digits: the number those
      digits denote, or `None` (NaN) when there is no leading digit. */
  function ParseInt(s: string): (r: Option<nat>)
    ensures r.None? <==> (s == [] || !Decimal.IsDigit(s[0]))
  {
    var d := LeadingDigits(s);
    if d == [] then None else Some(Decimal.Value(d))
  }

  /** `parseInt(Deno.env.get("SMTP_PORT") || "465")`. */
  function Port(env: Env): Option<nat>
  {
    ParseInt(PortSetting(env))
  }

  /** The digits at the front of a digit string followed by a non-digit
      are that digit string. */
  lemma {:induction false} LeadingDigitsOfConcat(d: string, rest: string)
    requires Decimal.AllDigits(d)
    requires rest == [] || !Decimal.IsDigit(rest[0])
    ensures LeadingDigits(d + rest) == d
    decreases |d|
  {
    if d == [] {
      assert d + rest == rest;
    } else {
      assert (d + rest)[1..] == d[1..] + rest;
      LeadingDigitsOfConcat(d[1..], rest);
      assert d == [d[0]] + d[1..];
    }
  }

  /** `parseInt` reads back the decimal form of a number, whatever
      non-digit text follows it. */
  lemma ParseIntOfShow(n: nat, rest: string)
    requires rest == [] || !Decimal.IsDigit(rest[0])
    ensures ParseInt(Decimal.Show(n) + rest) == Some(n)
  {
    LeadingDigitsOfConcat(Decimal.Show(n), rest);
    Decimal.ValueOfShow(n);
  }

  /** A port set in the environment, such as `"587"`, is the port used. */
  lemma ConfiguredPort(env: Env, n: nat)
    requires env.smtpPort == Some(Decimal.Show(n))
    ensures Port(env) == Some(n)
  {
    ParseIntOfShow(n, []);
    assert Decimal.Show(n) + [] == Decimal.Show(n);
  }

  // ---------------------------------------------------------------------
  // Outbound mail

  /** The connection options given to the SMTP client. */
  datatype Connection = Connection(hostname: string, port: Option<nat>, tls: bool, username: string, password: string)

  datatype Template = BusinessNotice | ClientConfirmation

  /** An HTML body: the fixed template with the reference and the payload
      substituted into it. */
  datatype Html = Html(template: Template, reference: string, data: Payload)

  /** One `client.send` call; the source passes the same HTML as `content`
      and as `html`. */
  datatype Message = Message(from: string, to: string, subject: string, html: Html)

  function FromAddress(user: string): string
  {
    SenderName + " <" + user + ">"
  }

  /** The notice to the business, sent to the SMTP account itself. */
  function BusinessMessage(reference: string, user: string, data: Payload): (m: Message)
    requires HasRequiredFields(data)
    ensures m.to == user && m.from == FromAddress(user) && m.html.reference == reference
  {
    Message(FromAddress(user), user,
      "[" + reference + "] Nouvelle réservation: " + data.vehicleName.value + " - " + data.startDate.value,
      Html(BusinessNotice, reference, data))
  }

  /** The confirmation to the customer. */
  function ClientMessage(reference: string, user: string, data: Payload): (m: Message)
    requires HasRequiredFields(data)
    ensures m.to == data.clientEmail.value && m.from == FromAddress(user) && m.html.reference == reference
  {
    Message(FromAddress(user), data.clientEmail.value,
      "[" + reference + "] Confirmation de votre demande de réservation",
      Html(ClientConfirmation, reference, data))
  }

  // ---------------------------------------------------------------------
  // The decision and its effects

  /** Where a request ends up before any mail is sent. */
  datatype Decision =
    | Preflight
    | BodyFailed(thrown: Thrown)
    | MissingFields
    | ConfigMissing
    | Dispatch(connection: Connection, business: Message, confirmation: Message)

  /** The handler's early returns, in the source's order: the preflight,
      then reading the body, then validation, then the reference, then the
      SMTP configuration. */
  function Decide(req: Request, env: Env, now: Clock, random: nat): (d: Decision)
    ensures d.Preflight? <==> req.httpMethod == "OPTIONS"
    ensures d.Dispatch? ==> d.business.html.reference == d.confirmation.html.reference == Generate(now, random)
  {
    if req.httpMethod == "OPTIONS" then Preflight
    else match req.body
      case Unreadable(t) => BodyFailed(t)
      case Readable(data) =>
        if !HasRequiredFields(data) then MissingFields
        else
          var reference := Generate(now, random);
          if !HasSmtpConfig(env) then ConfigMissing
          else
            var user := env.smtpUser.value;
            Dispatch(Connection(env.smtpHost.value, Port(env), true, user, env.smtpPass.value),
              BusinessMessage(reference, user, data), ClientMessage(reference, user, data))
  }

  /** How the mail server answers one client operation. */
  datatype Step = Completes | Throws(thrown: Thrown)

  /** The answers the server gives: to the i-th send and to the close. */
  datatype Network = Network(sendReplies: seq<Step>, closeReply: Step) {
    function SendReply(i: nat): Step
    {
      if i < |sendReplies| then sendReplies[i] else Completes
    }
  }

  /** What the handler does to the SMTP client, in order, each send and
      the close with the way it ended. */
  datatype Event = Opened(connection: Connection) | Sent(message: Message, outcome: Step) | Closed(outcome: Step)

  /** The client operations a decision leads to: none before dispatch; on
      dispatch, open, then each send until one throws, then close. */
  function Transcript(d: Decision, net: Network): (t: seq<Event>)
    ensures t == [] <==> !d.Dispatch?
    ensures d.Dispatch? ==> |t| <= 4 && t[0] == Opened(d.connection)
  {
    match d
    case Dispatch(c, business, confirmation) =>
      var first, second := Sent(business, net.SendReply(0)), Sent(confirmation, net.SendReply(1));
      if net.SendReply(0).Throws? then [Opened(c), first]
      else if net.SendReply(1).Throws? then [Opened(c), first, second]
      else [Opened(c), first, second, Closed(net.closeReply)]
    case _ => []
  }

  /** The response a decision leads to, given the server's answers. */
  function Respond(d: Decision, net: Network): (r: Response)
    ensures r.status in {200, 400, 500}
    ensures r.body.SuccessJson? <==>
      d.Dispatch? && net.SendReply(0).Completes? && net.SendReply(1).Completes? && net.closeReply.Completes?
  {
    match d
    case Preflight => PreflightResponse
    case BodyFailed(t) => FailureResponse(t)
    case MissingFields => JsonResponse(400, ErrorJson(MissingFieldsError))
    case ConfigMissing => JsonResponse(500, ErrorJson(ConfigurationError))
    case Dispatch(_, _, _) =>
      if net.SendReply(0).Throws? then FailureResponse(net.SendReply(0).thrown)
      else if net.SendReply(1).Throws? then FailureResponse(net.SendReply(1).thrown)
      else if net.closeReply.Throws? then FailureResponse(net.closeReply.thrown)
      else JsonResponse(200, SuccessJson(SentMessage))
  }

  // ---------------------------------------------------------------------
  // The handler

  /** The SMTP client: it records every operation in `trace`, and the
      network decides how each one ends. */
  class SmtpClient {
    const connection: Connection
    const network: Network
    var trace: seq<Event>
    var sends: nat

    constructor (connection: Connection, network: Network)
      ensures this.connection == connection && this.network == network
      ensures trace == [Opened(connection)] && sends == 0
    {
      this.connection := connection;
      this.network := network;
      trace := [Opened(connection)];
      sends := 0;
    }

    method Send(m: Message) returns (step: Step)
      modifies this
      ensures step == network.SendReply(old(sends))
      ensures trace == old(trace) + [Sent(m, step)] && sends == old(sends) + 1
    {
      step := network.SendReply(sends);
      trace := trace + [Sent(m, step)];
      sends := sends + 1;
    }

    method Close() returns (step: Step)
      modifies this
      ensures step == network.closeReply
      ensures trace == old(trace) + [Closed(step)] && sends == old(sends)
    {
      step := network.closeReply;
      trace := trace + [Closed(step)];
    }
  }

  /** One invocation of the handler, step by step with its early returns.
      `now` and `random` stand for `new Date()` and the suffix drawn from
      `Math.random()`; `network` for the mail server's answers. It returns
      the response and everything done to the SMTP client. */
  method Handle(req: Request, env: Env, now: Clock, random: nat, network: Network)
    returns (resp: Response, trace: seq<Event>)
    ensures resp == Respond(Decide(req, env, now, random), network)
    ensures trace == Transcript(Decide(req, env, now, random), network)
  {
    if req.httpMethod == "OPTIONS" {
      return PreflightResponse, [];
    }
    if req.body.Unreadable? {
      return FailureResponse(req.body.thrown), [];
    }
    var data := req.body.payload;
    if !Present(data.clientName) || !Present(data.clientEmail) || !Present(data.startDate) || !Present(data.vehicleName) {
      return JsonResponse(400, ErrorJson(MissingFieldsError)), [];
    }
    var reservationRef := Generate(now, random);
    var smtpHost := env.smtpHost;
    var smtpPort := ParseInt(PortSetting(env));
    var smtpUser := env.smtpUser;
    var smtpPass := env.smtpPass;
    if !Present(smtpHost) || !Present(smtpUser) || !Present(smtpPass) {
      return JsonResponse(500, ErrorJson(ConfigurationError)), [];
    }
    var connection := Connection(smtpHost.value, smtpPort, true, smtpUser.value, smtpPass.value);
    var business := BusinessMessage(reservationRef, smtpUser.value, data);
    var confirmation := ClientMessage(reservationRef, smtpUser.value, data);
    assert Decide(req, env, now, random) == Dispatch(connection, business, confirmation);
    resp, trace := SendBoth(connection, business, confirmation, network);
  }

  /** The send sequence of the handler's `try` block: open the client,
      send the notice, send the confirmation, close; the first step that
      throws ends it with a 500. */
  method SendBoth(connection: Connection, business: Message, confirmation: Message, network: Network)
    returns (resp: Response, trace: seq<Event>)
    ensures resp == Respond(Dispatch(connection, business, confirmation), network)
    ensures trace == Transcript(Dispatch(connection, business, confirmation), network)
  {
    var client := new SmtpClient(connection, network);
    var step := client.Send(business);
    if step.Throws? {
      return FailureResponse(step.thrown), client.trace;
    }
    step := client.Send(confirmation);
    if step.Throws? {
      return FailureResponse(step.thrown), client.trace;
    }
    step := client.Close();
    if step.Throws? {
      return FailureResponse(step.thrown), client.trace;
    }
    return JsonResponse(200, SuccessJson(SentMessage)), client.trace;
  }

  // ---------------------------------------------------------------------
  // Properties

  /** The messages a transcript hands to `send`, in order, whether or not
      the send completed. */
  function Attempted(t: seq<Event>): (ms: seq<Message>)
    ensures |ms| <= |t|
  {
    if t == [] then []
    else (if t[0].Sent? then [t[0].message] else []) + Attempted(t[1..])
  }

  /** The messages whose `send` completed, in order: the ones the server
      accepted. */
  function Delivered(t: seq<Event>): (ms: seq<Message>)
    ensures |ms| <= |Attempted(t)|
  {
    if t == [] then []
    else (if t[0].Sent? && t[0].outcome.Completes? then [t[0].message] else []) + Delivered(t[1..])
  }

  /** Whether the client was closed. */
  predicate WasClosed(t: seq<Event>)
  {
    exists i :: 0 <= i < |t| && t[i].Closed?
  }

  lemma MessagesCons(e: Event, t: seq<Event>)
    ensures Attempted([e] + t) == (if e.Sent? then [e.message] else []) + Attempted(t)
    ensures Delivered([e] + t) == (if e.Sent? && e.outcome.Completes? then [e.message] else []) + Delivered(t)
  {
    assert ([e] + t)[1..] == t;
  }

  /** The messages of the traces a dispatch can produce, computed one event
      at a time. */
  lemma {:induction false} DispatchMessages(c: Connection, b: Message, m: Message, s0: Step, s1: Step, sc: Step)
    ensures Attempted([Opened(c), Sent(b, s0)]) == [b]
    ensures Delivered([Opened(c), Sent(b, s0)]) == if s0.Completes? then [b] else []
    ensures Attempted([Opened(c), Sent(b, s0), Sent(m, s1)]) == [b, m]
    ensures Delivered([Opened(c), Sent(b, s0), Sent(m, s1)])
      == (if s0.Completes? then [b] else []) + (if s1.Completes? then [m] else [])
    ensures Attempted([Opened(c), Sent(b, s0), Sent(m, s1), Closed(sc)]) == [b, m]
    ensures Delivered([Opened(c), Sent(b, s0), Sent(m, s1), Closed(sc)])
      == (if s0.Completes? then [b] else []) + (if s1.Completes? then [m] else [])
  {
    var o, x, y, z := Opened(c), Sent(b, s0), Sent(m, s1), Closed(sc);
    MessagesCons(z, []);
    MessagesCons(y, []);
    MessagesCons(y, [z]);
    MessagesCons(x, [y]);
    MessagesCons(x, [y, z]);
    MessagesCons(x, []);
    MessagesCons(o, [x]);
    MessagesCons(o, [x, y]);
    MessagesCons(o, [x, y, z]);
    assert [o] + [x] == [o, x];
    assert [x] + [y] == [x, y] && [o] + [x, y] == [o, x, y];
    assert [y] + [z] == [y, z] && [x] + [y, z] == [x, y, z] && [o] + [x, y, z] == [o, x, y, z];
  }

  /** Which messages are handed to the server and which are accepted, for
      each decision and each pattern of server replies: none before
      dispatch; when the first send throws, the notice was attempted and
      nothing delivered; when the second throws, both were attempted and
      only the notice delivered; otherwise both were delivered. */
  lemma TranscriptSends(d: Decision, net: Network)
    ensures var t := Transcript(d, net);
      && (!d.Dispatch? ==> Attempted(t) == [] && Delivered(t) == [])
      && (d.Dispatch? && net.SendReply(0).Throws? ==>
            Attempted(t) == [d.business] && Delivered(t) == [])
      && (d.Dispatch? && net.SendReply(0).Completes? && net.SendReply(1).Throws? ==>
            Attempted(t) == [d.business, d.confirmation] && Delivered(t) == [d.business])
      && (d.Dispatch? && net.SendReply(0).Completes? && net.SendReply(1).Completes? ==>
            Attempted(t) == [d.business, d.confirmation] && Delivered(t) == [d.business, d.confirmation])
  {
    if d.Dispatch? {
      DispatchMessages(d.connection, d.business, d.confirmation, net.SendReply(0), net.SendReply(1), net.closeReply);
      assert [d.business] + [] == [d.business];
      assert [] + [d.business] == [d.business];
      assert [d.business] + [d.confirmation] == [d.business, d.confirmation];
    }
  }

  /** The handler's early returns in order: each outcome is reached exactly
      under the conditions checked before it. */
  lemma DecideCases(req: Request, env: Env, now: Clock, random: nat)
    ensures var d := Decide(req, env, now, random);
      && (d.Preflight? <==> req.httpMethod == "OPTIONS")
      && (d.BodyFailed? <==> req.httpMethod != "OPTIONS" && req.body.Unreadable?)
      && (d.BodyFailed? ==> d.thrown == req.body.thrown)
      && (d.MissingFields? <==>
            req.httpMethod != "OPTIONS" && req.body.Readable? && !HasRequiredFields(req.body.payload))
      && (d.ConfigMissing? <==>
            req.httpMethod != "OPTIONS" && req.body.Readable? && HasRequiredFields(req.body.payload)
            && !HasSmtpConfig(env))
      && (d.Dispatch? <==>
            req.httpMethod != "OPTIONS" && req.body.Readable? && HasRequiredFields(req.body.payload)
            && HasSmtpConfig(env))
  {
  }

  /** What a dispatch carries: the configured connection (TLS on), the
      notice to the SMTP account and the confirmation to the customer,
      both from `LogIQ Transport <user>` and tagged with the same
      reference. */
  lemma DispatchContents(req: Request, env: Env, now: Clock, random: nat)
    requires Decide(req, env, now, random).Dispatch?
    ensures var d, data, user := Decide(req, env, now, random), req.body.payload, env.smtpUser.value;
      var reference := Generate(now, random);
      && d.connection == Connection(env.smtpHost.value, Port(env), true, user, env.smtpPass.value)
      && d.business.to == user
      && d.business.subject == "[" + reference + "] Nouvelle réservation: " + data.vehicleName.value + " - " + data.startDate.value
      && d.confirmation.to == data.clientEmail.value
      && d.confirmation.subject == "[" + reference + "] Confirmation de votre demande de réservation"
      && d.business.from == d.confirmation.from == "LogIQ Transport <" + user + ">"
      && d.business.html == Html(BusinessNotice, reference, data)
      && d.confirmation.html == Html(ClientConfirmation, reference, data)
  {
    DecideCases(req, env, now, random);
  }

  /** A preflight answers with the CORS headers and a null body, whatever
      the body and the environment, and touches no client. */
  lemma PreflightShortCircuits(req: Request, env: Env, now: Clock, random: nat, net: Network)
    requires req.httpMethod == "OPTIONS"
    ensures Respond(Decide(req, env, now, random), net) == Response(200, CorsHeaders, NullBody)
    ensures Transcript(Decide(req, env, now, random), net) == []
  {
    DecideCases(req, env, now, random);
  }

  /** A body that cannot be read ends in a 500 carrying the thrown message,
      with no client. */
  lemma UnreadableBodyFails(req: Request, env: Env, now: Clock, random: nat, net: Network)
    requires req.httpMethod != "OPTIONS" && req.body.Unreadable?
    ensures Respond(Decide(req, env, now, random), net) == JsonResponse(500, ErrorJson(ErrorMessage(req.body.thrown)))
    ensures Transcript(Decide(req, env, now, random), net) == []
  {
    DecideCases(req, env, now, random);
  }

  /** A payload missing a required field is refused with 400 and nothing is
      sent, whatever the SMTP configuration: validation comes first. */
  lemma MissingFieldsRejected(req: Request, env: Env, now: Clock, random: nat, net: Network)
    requires req.httpMethod != "OPTIONS" && req.body.Readable? && !HasRequiredFields(req.body.payload)
    ensures Respond(Decide(req, env, now, random), net) == JsonResponse(400, ErrorJson(MissingFieldsError))
    ensures Transcript(Decide(req, env, now, random), net) == []
  {
    DecideCases(req, env, now, random);
  }

  /** Only the four required fields matter to validation: phone, end date,
      times and the rest may be absent. */
  lemma OptionalFieldsIgnored(p: Payload, q: Payload)
    requires p.clientName == q.clientName && p.clientEmail == q.clientEmail
    requires p.startDate == q.startDate && p.vehicleName == q.vehicleName
    ensures HasRequiredFields(p) <==> HasRequiredFields(q)
  {
  }

  /** What each decision answers: 400 exactly for the validation failure,
      the CORS headers on every response, the JSON content type on every
      response with a body, and no status but 200, 400 and 500. */
  lemma RespondCases(d: Decision, net: Network)
    ensures var r := Respond(d, net);
      && (r.status == 400 <==> d.MissingFields?)
      && (r.status == 200 <==> (d.Preflight? || r.body.SuccessJson?))
      && (forall k :: k in CorsHeaders ==> k in r.headers && r.headers[k] == CorsHeaders[k])
      && (r.body != NullBody ==> "Content-Type" in r.headers && r.headers["Content-Type"] == "application/json")
      && r.status in {200, 400, 500}
  {
    assert forall k :: k in CorsHeaders ==> k in JsonHeaders && JsonHeaders[k] == CorsHeaders[k];
  }

  /** A 400 is given exactly for a non-preflight request whose readable
      payload misses a required field. */
  lemma BadRequestExactly(req: Request, env: Env, now: Clock, random: nat, net: Network)
    ensures Respond(Decide(req, env, now, random), net).status == 400
      <==> req.httpMethod != "OPTIONS" && req.body.Readable? && !HasRequiredFields(req.body.payload)
  {
    DecideCases(req, env, now, random);
    RespondCases(Decide(req, env, now, random), net);
  }

  /** Every response of the handler carries the CORS headers. */
  lemma CorsOnEveryResponse(req: Request, env: Env, now: Clock, random: nat, net: Network)
    ensures var r := Respond(Decide(req, env, now, random), net);
      forall k :: k in CorsHeaders ==> k in r.headers && r.headers[k] == CorsHeaders[k]
  {
    RespondCases(Decide(req, env, now, random), net);
  }

  /** A valid payload with host, user or password missing gets the
      configuration error and nothing is sent. */
  lemma ConfigErrorSendsNothing(req: Request, env: Env, now: Clock, random: nat, net: Network)
    requires req.httpMethod != "OPTIONS" && req.body.Readable? && HasRequiredFields(req.body.payload)
    requires !HasSmtpConfig(env)
    ensures Respond(Decide(req, env, now, random), net) == JsonResponse(500, ErrorJson(ConfigurationError))
    ensures Transcript(Decide(req, env, now, random), net) == []
  {
    DecideCases(req, env, now, random);
  }

  /** An unset or empty `SMTP_PORT` means port 465. */
  lemma DefaultPort(env: Env)
    requires !Present(env.smtpPort)
    ensures Port(env) == Some(465)
  {
    assert LeadingDigits("465") == "465";
    assert Decimal.Value("465") == 465 by {
      assert "465"[..2] == "46" && "46"[..1] == "4";
    }
  }

  /** The client is touched only after the payload is validated and the
      configuration found: any client operation implies both. */
  lemma NoClientWithoutChecks(req: Request, env: Env, now: Clock, random: nat, net: Network)
    requires Transcript(Decide(req, env, now, random), net) != []
    ensures req.httpMethod != "OPTIONS" && req.body.Readable?
    ensures HasRequiredFields(req.body.payload) && HasSmtpConfig(env)
  {
    DecideCases(req, env, now, random);
  }

  /** When every server reply completes, the client is opened, sends
      exactly the notice and then the confirmation, both accepted, and is
      closed; the answer is 200 with success. */
  lemma SuccessfulDispatch(req: Request, env: Env, now: Clock, random: nat, net: Network)
    requires req.httpMethod != "OPTIONS" && req.body.Readable? && HasRequiredFields(req.body.payload)
    requires HasSmtpConfig(env)
    requires net.SendReply(0) == Completes && net.SendReply(1) == Completes && net.closeReply == Completes
    ensures var d := Decide(req, env, now, random);
      && d.Dispatch?
      && Transcript(d, net)
           == [Opened(d.connection), Sent(d.business, Completes), Sent(d.confirmation, Completes), Closed(Completes)]
      && Delivered(Transcript(d, net)) == [d.business, d.confirmation]
      && Respond(d, net) == JsonResponse(200, SuccessJson(SentMessage))
  {
    DecideCases(req, env, now, random);
    TranscriptSends(Decide(req, env, now, random), net);
  }

  /** Success is reported only when both sends and the close completed:
      then exactly the two messages were delivered. */
  lemma SuccessOnlyAfterBothSends(req: Request, env: Env, now: Clock, random: nat, net: Network)
    requires Respond(Decide(req, env, now, random), net).body.SuccessJson?
    ensures Decide(req, env, now, random).Dispatch?
    ensures net.SendReply(0) == Completes && net.SendReply(1) == Completes && net.closeReply == Completes
    ensures var d := Decide(req, env, now, random);
      Delivered(Transcript(d, net)) == [d.business, d.confirmation]
  {
    TranscriptSends(Decide(req, env, now, random), net);
  }

  /** A thrown send or close ends in a 500 carrying the first thrown
      message. A throwing first send delivers nothing; a throwing second
      send has already delivered the business notice; a throwing close
      comes after both were delivered. The client is closed exactly when
      both sends completed. */
  lemma FailedStepGives500(d: Decision, net: Network)
    requires d.Dispatch?
    requires net.SendReply(0).Throws? || net.SendReply(1).Throws? || net.closeReply.Throws?
    ensures var first := if net.SendReply(0).Throws? then net.SendReply(0)
                         else if net.SendReply(1).Throws? then net.SendReply(1) else net.closeReply;
      Respond(d, net) == JsonResponse(500, ErrorJson(ErrorMessage(first.thrown)))
    ensures net.SendReply(0).Throws? ==> Delivered(Transcript(d, net)) == []
    ensures net.SendReply(0).Completes? && net.SendReply(1).Throws? ==>
      Delivered(Transcript(d, net)) == [d.business]
    ensures net.SendReply(0).Completes? && net.SendReply(1).Completes? ==>
      Delivered(Transcript(d, net)) == [d.business, d.confirmation]
    ensures WasClosed(Transcript(d, net)) <==> (net.SendReply(0).Completes? && net.SendReply(1).Completes?)
  {
    TranscriptSends(d, net);
    var t := Transcript(d, net);
    if net.SendReply(0).Completes? && net.SendReply(1).Completes? {
      assert t[3].Closed?;
    }
  }

  /** The caller cannot tell the two failures apart: a first send and a
      second send that throw the same value give the same response, though
      the first delivered nothing and the second had already delivered the
      business notice. */
  lemma PartialSendIndistinguishable(d: Decision, t: Thrown)
    requires d.Dispatch?
    ensures Respond(d, Network([Throws(t)], Completes)) == Respond(d, Network([Completes, Throws(t)], Completes))
    ensures Delivered(Transcript(d, Network([Throws(t)], Completes))) == []
    ensures Delivered(Transcript(d, Network([Completes, Throws(t)], Completes))) == [d.business]
  {
    TranscriptSends(d, Network([Throws(t)], Completes));
    TranscriptSends(d, Network([Completes, Throws(t)], Completes));
  }
}
