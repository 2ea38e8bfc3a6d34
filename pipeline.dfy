/** What one run of `collectAndNotify` does after its guard: the IP lookup,
    the geolocation lookup, the record, the message, the delivery request and
    the callbacks, all inside one `try`/`catch`. The outside world of a run
    (what each remote call answers or throws, what the user-agent parser and
    the page report, whether the caller's success callback throws) is an
    Environment value; each step either produces its value or throws, and a
    throw skips every later step and reaches the error callback. */
module Pipeline {
  import opened JsValues
  import opened Visitor
  import Formatter

  /** The error a failing step throws. */
  datatype Error = Error(message: string)

  /** The component's props. The bodies of the caller's callbacks are not
      part of the model: only whether each is supplied, and what a custom
      formatter returns or throws for a record. */
  datatype Props = Props(
    botToken: string,
    chatId: string,
    fields: Option<seq<string>>,
    customMessage: Option<VisitorRecord -> Result<string, Error>>,
    hasOnSuccess: bool,
    hasOnError: bool,
    disabled: Option<bool>)

  /** The field list used when the caller gives none. */
  const DefaultFields: seq<string> := ["page", "country", "flag", "city", "device", "time"]

  /** `fields` after its default. */
  function EffectiveFields(p: Props): (fs: seq<string>)
    ensures p.fields.Some? ==> fs == p.fields.value
    ensures p.fields.None? ==> fs == DefaultFields
  {
    p.fields.GetOr(DefaultFields)
  }

  /** `disabled` after its default, false. */
  predicate Disabled(p: Props) {
    p.disabled == Some(true)
  }

  /** What the outside world answers during one run. */
  datatype Environment = Environment(
    ipReply: Result<Option<string>, Error>,   // ipify: the `ip` member of its JSON, or a throw
    geoReply: Result<GeoReply, Error>,        // ipwho.is: its JSON, or a throw
    agent: AgentInfo,                         // the user-agent parser's result
    page: PageContext,                        // location, referrer, clock and navigator
    sendFailure: Option<Error>,               // whether the delivery request throws
    successThrows: Option<Error>)             // whether the caller's onSuccess throws

  /** The three remote requests. */
  datatype Request =
    | GetIp(url: string)
    | GetGeo(url: string)
    | PostMessage(url: string, chatId: string, text: string, parseMode: string)

  const IpLookupUrl: string := "https://api.ipify.org?format=json"
  const GeoLookupBase: string := "https://ipwho.is/"
  const HtmlParseMode: string := "HTML"

  /** The geolocation URL: the IP as a template literal renders it, so a
      reply without `ip` asks for ".../undefined". */
  function GeoLookupUrl(ip: Option<string>): (url: string)
    ensures ip.Some? ==> url == GeoLookupBase + ip.value
    ensures ip.None? ==> url == GeoLookupBase + "undefined"
  {
    GeoLookupBase + Interpolate(ip)
  }

  function SendUrl(botToken: string): string {
    "https://api.telegram.org/bot" + botToken + "/sendMessage"
  }

  /** The message text: the caller's formatter when given, otherwise the
      built-in one over the effective field list. */
  function MessageOf(p: Props, record: VisitorRecord): (r: Result<string, Error>)
    ensures p.customMessage.None? ==> r == Success(Formatter.DefaultMessage(record, EffectiveFields(p)))
    ensures p.customMessage.Some? ==> r == p.customMessage.value(record)
  {
    match p.customMessage
    case Some(format) => format(record)
    case None => Success(Formatter.DefaultMessage(record, EffectiveFields(p)))
  }

  /** How the `try` block ends: every step completed with this record, or a
      step threw this error. */
  datatype Outcome = Delivered(record: VisitorRecord) | Aborted(error: Error)

  /** The requests one run makes, in order, and how its `try` block ends. */
  datatype Attempt = Attempt(requests: seq<Request>, outcome: Outcome)

  function Run(p: Props, env: Environment): Attempt {
    var ipRequest := GetIp(IpLookupUrl);
    match env.ipReply
    case Failure(e) => Attempt([ipRequest], Aborted(e))
    case Success(ip) =>
      var geoRequest := GetGeo(GeoLookupUrl(ip));
      match env.geoReply
      case Failure(e) => Attempt([ipRequest, geoRequest], Aborted(e))
      case Success(geo) =>
        var record := Merge(geo, env.agent, env.page);
        match MessageOf(p, record)
        case Failure(e) => Attempt([ipRequest, geoRequest], Aborted(e))
        case Success(text) =>
          var post := PostMessage(SendUrl(p.botToken), p.chatId, text, HtmlParseMode);
          match env.sendFailure
          case Some(e) => Attempt([ipRequest, geoRequest, post], Aborted(e))
          case None => Attempt([ipRequest, geoRequest, post], Delivered(record))
  }

  /** What a run does that the outside can observe. */
  datatype Effect = Sent(request: Request) | SuccessCalled(record: VisitorRecord) | ErrorCalled(error: Error)

  /** `onError?.(err)` in the `catch` block. */
  function ReportError(p: Props, e: Error): seq<Effect> {
    if p.hasOnError then [ErrorCalled(e)] else []
  }

  /** The callbacks at the end of a run: `onSuccess?.(record)` after a
      completed `try` block; the `catch` block's `onError?.(err)` after a
      throw, including a throw from onSuccess itself. */
  function Callbacks(p: Props, outcome: Outcome, successThrows: Option<Error>): seq<Effect> {
    match outcome
    case Aborted(e) => ReportError(p, e)
    case Delivered(record) =>
      if !p.hasOnSuccess then []
      else if successThrows.Some? then [SuccessCalled(record)] + ReportError(p, successThrows.value)
      else [SuccessCalled(record)]
  }

  function SentAll(requests: seq<Request>): (effects: seq<Effect>)
    ensures |effects| == |requests|
    ensures forall i :: 0 <= i < |requests| ==> effects[i] == Sent(requests[i])
    ensures forall e :: e in effects ==> e.Sent?
  {
    if requests == [] then [] else [Sent(requests[0])] + SentAll(requests[1..])
  }

  /** Everything one run does after the guard, in order. */
  function Effects(p: Props, env: Environment): seq<Effect> {
    var attempt := Run(p, env);
    SentAll(attempt.requests) + Callbacks(p, attempt.outcome, env.successThrows)
  }

  // ----- properties of a run -----

  /** The try block completes exactly when every remote call and the message
      formatter succeed; it then carries the merged record, and the requests
      are the IP lookup, the lookup of that IP and the delivery of the message
      in HTML parse mode. */
  lemma DeliveredIff(p: Props, env: Environment)
    ensures Run(p, env).outcome.Delivered? <==>
      env.ipReply.Success? && env.geoReply.Success?
      && MessageOf(p, Merge(env.geoReply.value, env.agent, env.page)).Success?
      && env.sendFailure.None?
    ensures Run(p, env).outcome.Delivered? ==>
      var record := Merge(env.geoReply.value, env.agent, env.page);
      Run(p, env).outcome.record == record
      && Run(p, env).requests == [
           GetIp(IpLookupUrl),
           GetGeo(GeoLookupUrl(env.ipReply.value)),
           PostMessage(SendUrl(p.botToken), p.chatId, MessageOf(p, record).value, HtmlParseMode)]
  {
  }

  /** A run that throws reports the error of the first failing step and makes
      no request after it. */
  lemma AbortedAtFirstFailure(p: Props, env: Environment)
    ensures env.ipReply.Failure? ==>
      Run(p, env) == Attempt([GetIp(IpLookupUrl)], Aborted(env.ipReply.error))
    ensures env.ipReply.Success? && env.geoReply.Failure? ==>
      Run(p, env) == Attempt([GetIp(IpLookupUrl), GetGeo(GeoLookupUrl(env.ipReply.value))],
                             Aborted(env.geoReply.error))
    ensures (env.ipReply.Success? && env.geoReply.Success?
             && MessageOf(p, Merge(env.geoReply.value, env.agent, env.page)).Failure?) ==>
      Run(p, env).outcome ==
        Aborted(MessageOf(p, Merge(env.geoReply.value, env.agent, env.page)).error)
      && |Run(p, env).requests| == 2
    ensures Run(p, env).outcome.Aborted? && |Run(p, env).requests| == 3 ==>
      env.sendFailure == Some(Run(p, env).outcome.error)
  {
  }

  /** The requests always come first, in the order IP, geolocation, delivery,
      and at most one of each. */
  lemma RequestsInOrder(p: Props, env: Environment)
    ensures var rs := Run(p, env).requests;
      1 <= |rs| <= 3 && rs[0].GetIp? && (|rs| >= 2 ==> rs[1].GetGeo?) && (|rs| == 3 ==> rs[2].PostMessage?)
  {
  }

  /** The number of callback invocations in a sequence of effects. */
  function SuccessCount(effects: seq<Effect>): nat {
    if effects == [] then 0 else (if effects[0].SuccessCalled? then 1 else 0) + SuccessCount(effects[1..])
  }

  function ErrorCount(effects: seq<Effect>): nat {
    if effects == [] then 0 else (if effects[0].ErrorCalled? then 1 else 0) + ErrorCount(effects[1..])
  }

  lemma {:induction false} CountsAppend(a: seq<Effect>, b: seq<Effect>)
    ensures SuccessCount(a + b) == SuccessCount(a) + SuccessCount(b)
    ensures ErrorCount(a + b) == ErrorCount(a) + ErrorCount(b)
  {
    if a == [] {
      assert a + b == b;
    } else {
      assert (a + b)[0] == a[0];
      assert (a + b)[1..] == a[1..] + b;
      CountsAppend(a[1..], b);
    }
  }

  lemma {:induction false} SentAllNoCallbacks(requests: seq<Request>)
    ensures SuccessCount(SentAll(requests)) == 0 && ErrorCount(SentAll(requests)) == 0
  {
    if requests != [] {
      SentAllNoCallbacks(requests[1..]);
    }
  }

  /** Each callback is invoked at most once per run; onSuccess only for a
      completed try block and with its record, onError only with a thrown
      error. */
  lemma CallbacksOfRun(p: Props, env: Environment)
    ensures SuccessCount(Effects(p, env)) <= 1 && ErrorCount(Effects(p, env)) <= 1
    ensures SuccessCount(Effects(p, env)) == 1 <==> p.hasOnSuccess && Run(p, env).outcome.Delivered?
    ensures forall e :: e in Effects(p, env) && e.SuccessCalled? ==>
      Run(p, env).outcome.Delivered? && e.record == Run(p, env).outcome.record
    ensures forall e :: e in Effects(p, env) && e.ErrorCalled? ==>
      CaughtError(Run(p, env).outcome, env.successThrows, e.error)
  {
    var attempt := Run(p, env);
    CountsAppend(SentAll(attempt.requests), Callbacks(p, attempt.outcome, env.successThrows));
    SentAllNoCallbacks(attempt.requests);
    CallbackCounts(p, attempt.outcome, env.successThrows);
  }

  /** The errors the `catch` block can receive: the throw that ended the try
      block, or after a completed try block the throw of onSuccess. */
  predicate CaughtError(outcome: Outcome, successThrows: Option<Error>, e: Error) {
    (outcome.Aborted? && e == outcome.error) || (outcome.Delivered? && successThrows == Some(e))
  }

  lemma CallbackCounts(p: Props, outcome: Outcome, successThrows: Option<Error>)
    ensures SuccessCount(Callbacks(p, outcome, successThrows)) == if p.hasOnSuccess && outcome.Delivered? then 1 else 0
    ensures ErrorCount(Callbacks(p, outcome, successThrows)) ==
      if p.hasOnError && (outcome.Aborted? || (p.hasOnSuccess && successThrows.Some?)) then 1 else 0
    ensures forall e :: e in Callbacks(p, outcome, successThrows) && e.SuccessCalled? ==>
      outcome.Delivered? && e.record == outcome.record
    ensures forall e :: e in Callbacks(p, outcome, successThrows) && e.ErrorCalled? ==>
      CaughtError(outcome, successThrows, e.error)
  {
    if outcome.Delivered? && p.hasOnSuccess && successThrows.Some? {
      CountsAppend([SuccessCalled(outcome.record)], ReportError(p, successThrows.value));
    }
  }

  /** With both callbacks supplied and an onSuccess that returns normally,
      each run invokes exactly one of them. */
  lemma ExactlyOneCallback(p: Props, env: Environment)
    requires p.hasOnSuccess && p.hasOnError && env.successThrows.None?
    ensures SuccessCount(Effects(p, env)) + ErrorCount(Effects(p, env)) == 1
  {
    var attempt := Run(p, env);
    CountsAppend(SentAll(attempt.requests), Callbacks(p, attempt.outcome, env.successThrows));
    SentAllNoCallbacks(attempt.requests);
    CallbackCounts(p, attempt.outcome, env.successThrows);
  }

  /** onSuccess runs inside the try block, so an onSuccess that throws is
      followed by onError with its error: both callbacks run. */
  lemma ThrowingSuccessCallbackReachesOnError(p: Props, env: Environment, e: Error)
    requires p.hasOnSuccess && p.hasOnError && env.successThrows == Some(e)
    requires Run(p, env).outcome.Delivered?
    ensures Effects(p, env) == SentAll(Run(p, env).requests)
                               + [SuccessCalled(Run(p, env).outcome.record), ErrorCalled(e)]
  {
  }

  /** A failed geolocation lookup never reaches onSuccess and reports that
      lookup's error. */
  lemma GeoFailureReported(p: Props, env: Environment)
    requires env.ipReply.Success? && env.geoReply.Failure?
    ensures SuccessCount(Effects(p, env)) == 0
    ensures p.hasOnError ==> ErrorCalled(env.geoReply.error) in Effects(p, env)
  {
    CallbacksOfRun(p, env);
    AbortedAtFirstFailure(p, env);
  }

  /** Without a custom formatter the delivered text is the built-in message
      over the effective field list, sent in HTML parse mode, which matches
      the formatter's HTML escaping. */
  lemma DefaultMessageDelivered(p: Props, env: Environment)
    requires p.customMessage.None?
    requires |Run(p, env).requests| == 3
    ensures var post := Run(p, env).requests[2];
      post.PostMessage? && post.parseMode == HtmlParseMode && post.chatId == p.chatId
      && post.text == Formatter.DefaultMessage(Merge(env.geoReply.value, env.agent, env.page), EffectiveFields(p))
  {
  }
}
