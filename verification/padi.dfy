/** The Padi context broker (src/brokers/padi.js): `getContext(code)` obtains
    an onboarding context for a device, either by polling the Padi API over
    HTTP or (not yet implemented) over MQTT.

    The network is replaced by its answers. The i-th entry of `polls` is the
    answer to the i-th `GET /onboarding/<code>`; when the list runs out, the
    last GET issued is still waiting for its answer. `status` is the answer to
    the status POST. What the broker does is recorded as a trace of events in
    the order it does them: the requests it issues and the calls it makes to
    the promise's `resolve` and `reject`. */
module Padi {
  import opened Js

  datatype Option<T> = None | Some(value: T)

  const DefaultApi := "https://api.padi.io"
  const DefaultMode := "http"
  const StatusPath := "/thing/client/padi.node/status"
  const OnlineBody := "\"online\""
  const BearerPrefix := "Bearer "

  /** The settings read from the environment when the module is loaded. The
      MQTT URL and the poll interval are not part of the model: the MQTT
      client is never reached, and the delay only separates one GET from the
      next. */
  datatype Config = Config(api: string, mode: string)

  /** A JavaScript `Error`, known by its message. */
  datatype Error = Error(message: string)

  const ModeNotValid := Error("Mode not valid")
  const NotYetImplemented := Error("Not yet implemented")
  const NoApiServer := Error("No Padi API server specified")

  /** The value `getContext` resolves with. */
  datatype Context = Context(context: string, token: string)

  /** A request sent through an axios instance created with `baseURL`. */
  datatype Request =
    | Get(baseURL: string, path: string)
    | Post(baseURL: string, path: string, authorization: string, body: string)

  /** One observable step of the broker: a request, or a call to the
      promise's `resolve` or `reject`. */
  datatype Event = Call(request: Request) | Resolve(value: Context) | Reject(reason: Error)

  /** The answer to one onboarding GET: a transport failure or non-2xx
      status, or a 2xx reply with its body. */
  datatype PollOutcome = NetFail | Reply(data: Body)

  /** The answer to the status POST; on failure, the error axios rejects with. */
  datatype StatusOutcome = StatusOk | StatusErr(error: Error)

  /** The state of the promise `getContext` returns. */
  datatype Outcome = Pending | Resolved(value: Context) | Rejected(reason: Error)

  /** How the `.then` handler of one GET ends: it throws (and the `.catch`
      schedules the next GET), or it returns after doing `effects`. */
  datatype Handling = Threw | Returned(effects: seq<Event>)

  predicate IsGet(e: Event)
  {
    e.Call? && e.request.Get?
  }

  predicate IsPost(e: Event)
  {
    e.Call? && e.request.Post?
  }

  /** `process.env.X || fallback`: an unset or empty variable gives the
      fallback. */
  function Setting(env: Option<string>, fallback: string): (r: string)
    ensures r == fallback || (env == Some(r) && r != "")
    ensures env.Some? && env.value != "" ==> r == env.value
    ensures fallback != "" ==> r != ""
  {
    if env.Some? && env.value != "" then env.value else fallback
  }

  /** PADI_API and PADI_MODE from CNS_PADI_API and CNS_PADI_MODE. The base
      URL is never empty, so the `PADI_API === ''` guards cannot fire. */
  function ConfigFrom(apiEnv: Option<string>, modeEnv: Option<string>): (c: Config)
    ensures c.api != "" && c.mode != ""
    ensures apiEnv.None? || apiEnv == Some("") ==> c.api == DefaultApi
    ensures modeEnv.None? || modeEnv == Some("") ==> c.mode == DefaultMode
    ensures apiEnv.Some? && apiEnv.value != "" ==> c.api == apiEnv.value
    ensures modeEnv.Some? && modeEnv.value != "" ==> c.mode == modeEnv.value
  {
    Config(Setting(apiEnv, DefaultApi), Setting(modeEnv, DefaultMode))
  }

  function OnboardingPath(code: string): (p: string)
    ensures |p| == 12 + |code| && p[..12] == "/onboarding/" && p[12..] == code
  {
    "/onboarding/" + code
  }

  /** `setStatus(thingId, token)`: the one POST announcing the device online,
      authorised with the token it was handed. */
  function SetStatus(api: string, token: Field): (r: Request)
    ensures r.Post? && r.baseURL == api && r.path == StatusPath && r.body == OnlineBody
    ensures |r.authorization| >= 7 && r.authorization[..7] == "Bearer "
    ensures token.Str? ==> r.authorization[7..] == token.s
    ensures token.Null? ==> r.authorization == "Bearer null"
  {
    Post(api, StatusPath, Concat(BearerPrefix, token), OnlineBody)
  }

  /** `toContext(data)`: each field through `|| ''`. */
  function ToContext(data: Body): (c: Context)
    requires data.Obj?
    ensures data.padiThing.Str? ==> c.context == data.padiThing.s
    ensures !data.padiThing.Str? ==> c.context == ""
    ensures data.padiToken.Str? ==> c.token == data.padiToken.s
    ensures !data.padiToken.Str? ==> c.token == ""
  {
    Context(OrEmpty(data.padiThing), OrEmpty(data.padiToken))
  }

  /** The check in `response`: both fields are present (`null` passes). */
  predicate ValidResponse(data: Body)
  {
    data.Obj? && !data.padiThing.Undefined? && !data.padiToken.Undefined?
  }

  /** `response(data, resolve, reject)`. A `null` body throws on the first
      property read. A body missing either field is logged and dropped: the
      handler returns without settling. Otherwise exactly one status POST is
      sent, and its answer decides between `resolve(toContext(data))` and
      `reject` with the POST's own error. */
  function Response(api: string, data: Body, status: StatusOutcome): (h: Handling)
    ensures h.Threw? <==> data.Nullish?
    ensures data.Obj? ==> (h == Returned([]) <==> !ValidResponse(data))
    ensures h.Returned? && h.effects != [] ==>
      data.Obj? && |h.effects| == 2 && h.effects[0] == Call(SetStatus(api, data.padiToken)) &&
      (h.effects[1] == Resolve(ToContext(data)) <==> status.StatusOk?) &&
      (status.StatusErr? ==> h.effects[1] == Reject(status.error))
  {
    match data
    case Nullish => Threw
    case Obj(thing, token) =>
      if thing.Undefined? || token.Undefined? then
        Returned([])
      else
        var settle := match status
          case StatusOk => Resolve(ToContext(data))
          case StatusErr(e) => Reject(e);
        Returned([Call(SetStatus(api, token)), settle])
  }

  /** A GET whose handling ends in the `.catch` handler. */
  predicate Fails(p: PollOutcome)
  {
    p.NetFail? || p.data.Nullish?
  }

  /** `api.get(...).then(response).catch(retry)` for one answer. */
  function PollAttempt(api: string, p: PollOutcome, status: StatusOutcome): (h: Handling)
    ensures h.Threw? <==> Fails(p)
  {
    match p
    case NetFail => Threw
    case Reply(data) => Response(api, data, status)
  }

  /** `pollTimer` as the recursion the source writes through `setTimeout`:
      issue the GET; when its handling throws, poll again with the remaining
      answers. */
  function Poll(api: string, code: string, polls: seq<PollOutcome>, status: StatusOutcome): (t: seq<Event>)
    ensures |t| >= 1 && t[0] == Call(Get(api, OnboardingPath(code)))
    decreases |polls|
  {
    [Call(Get(api, OnboardingPath(code)))] +
    if polls == [] then
      []
    else
      match PollAttempt(api, polls[0], status)
      case Threw => Poll(api, code, polls[1..], status)
      case Returned(effects) => effects
  }

  /** `getContext(code)` as a trace: dispatch on the mode. The throws in
      `pollContext` (no API server) and `mqttContext` happen inside the
      promise executor and so become rejections. */
  function Run(cfg: Config, code: string, polls: seq<PollOutcome>, status: StatusOutcome): (t: seq<Event>)
    ensures t != []
    ensures cfg.mode != "http" || cfg.api == "" ==> |t| == 1 && t[0].Reject?
    ensures cfg.mode == "http" && cfg.api != "" ==> t[0].Call?
  {
    if cfg.mode == "http" then
      if cfg.api == "" then [Reject(NoApiServer)] else Poll(cfg.api, code, polls, status)
    else if cfg.mode == "mqtt" then [Reject(NotYetImplemented)]
    else [Reject(ModeNotValid)]
  }

  function SettledBy(e: Event): Outcome
  {
    match e
    case Call(_) => Pending
    case Resolve(v) => Resolved(v)
    case Reject(err) => Rejected(err)
  }

  /** The promise after the events of `trace`: the first `resolve` or
      `reject` settles it and every later one is ignored. */
  function Settlement(trace: seq<Event>): (o: Outcome)
    ensures o.Pending? <==> forall i | 0 <= i < |trace| :: trace[i].Call?
    ensures o.Resolved? ==> Resolve(o.value) in trace
    ensures o.Rejected? ==> Reject(o.reason) in trace
    ensures !o.Pending? ==>
      exists i | 0 <= i < |trace| :: (forall j | 0 <= j < i :: trace[j].Call?) && SettledBy(trace[i]) == o
  {
    if trace == [] then Pending
    else if trace[0].Call? then Settlement(trace[1..])
    else SettledBy(trace[0])
  }

  /** `pollTimer` as a loop: each failed attempt leads to the next GET; the
      loop stops at the first answer whose handling returns, or when the
      answers run out with a GET still outstanding. */
  method PollTimer(api: string, code: string, polls: seq<PollOutcome>, status: StatusOutcome)
    returns (trace: seq<Event>)
    ensures trace == Poll(api, code, polls, status)
  {
    trace := [];
    var i := 0;
    while true
      invariant 0 <= i <= |polls|
      invariant trace + Poll(api, code, polls[i..], status) == Poll(api, code, polls, status)
      decreases |polls| - i
    {
      var get := Call(Get(api, OnboardingPath(code)));
      ghost var before := trace;
      trace := trace + [get];
      if i == |polls| {
        assert polls[i..] == [];
        return;
      }
      PollUnfold(api, code, polls, i, status);
      var h := PollAttempt(api, polls[i], status);
      if h.Threw? {
        // `.catch`: a new pollTimer after PADI_POLL milliseconds
        SeqAssoc(before, [get], Poll(api, code, polls[i + 1..], status));
        i := i + 1;
      } else {
        SeqAssoc(before, [get], h.effects);
        trace := trace + h.effects;
        return;
      }
    }
  }

  lemma SeqAssoc<T>(a: seq<T>, b: seq<T>, c: seq<T>)
    ensures a + (b + c) == (a + b) + c
  {
  }

  /** One step of `Poll` from the i-th answer on. */
  lemma PollUnfold(api: string, code: string, polls: seq<PollOutcome>, i: nat, status: StatusOutcome)
    requires i < |polls|
    ensures var h := PollAttempt(api, polls[i], status);
      Poll(api, code, polls[i..], status) == [Call(Get(api, OnboardingPath(code)))] +
        (if h.Threw? then Poll(api, code, polls[i + 1..], status) else h.effects)
  {
    assert polls[i..][0] == polls[i] && polls[i..][1..] == polls[i + 1..];
  }

  /** `getContext(code)`: the trace of what the broker does with the given
      answers and the state its promise is left in. */
  method GetContext(cfg: Config, code: string, polls: seq<PollOutcome>, status: StatusOutcome)
    returns (outcome: Outcome, trace: seq<Event>)
    ensures trace == Run(cfg, code, polls, status)
    ensures outcome == Settlement(trace)
  {
    if cfg.mode == "http" {
      if cfg.api == "" {
        // `pollContext` throws inside the promise executor
        trace := [Reject(NoApiServer)];
      } else {
        trace := PollTimer(cfg.api, code, polls, status);
      }
    } else if cfg.mode == "mqtt" {
      trace := [Reject(NotYetImplemented)];
    } else {
      trace := [Reject(ModeNotValid)];
    }
    outcome := Settlement(trace);
  }
}
