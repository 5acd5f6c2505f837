/** What `getContext` in src/brokers/padi.js promises, stated over the trace
    model of module Padi and proved for every sequence of network answers. */
module PadiProperties {
  import opened Js
  import opened Padi

  /** The index of the first answer whose handling does not throw, or
      `|polls|` when every answer fails. */
  function FirstHandled(polls: seq<PollOutcome>): (k: nat)
    ensures k <= |polls|
    ensures forall j | 0 <= j < k :: Fails(polls[j])
    ensures k < |polls| ==> !Fails(polls[k])
  {
    if polls == [] || !Fails(polls[0]) then 0 else 1 + FirstHandled(polls[1..])
  }

  /** `n` onboarding GETs in a row. */
  function Gets(api: string, code: string, n: nat): (r: seq<Event>)
    ensures |r| == n
    ensures forall i | 0 <= i < n :: r[i] == Call(Get(api, OnboardingPath(code)))
  {
    if n == 0 then [] else Gets(api, code, n - 1) + [Call(Get(api, OnboardingPath(code)))]
  }

  /** The shape of every polling trace: one GET per failed answer, one more
      GET, and then whatever the first handled reply does. */
  lemma {:induction false} PollShape(api: string, code: string, polls: seq<PollOutcome>, status: StatusOutcome)
    ensures var k := FirstHandled(polls);
      Poll(api, code, polls, status) ==
        Gets(api, code, k + 1) + (if k < |polls| then PollAttempt(api, polls[k], status).effects else [])
  {
    var get := Call(Get(api, OnboardingPath(code)));
    if polls == [] || !Fails(polls[0]) {
      assert Gets(api, code, 1) == [get];
    } else {
      var k' := FirstHandled(polls[1..]);
      PollShape(api, code, polls[1..], status);
      var tail := if k' < |polls[1..]| then PollAttempt(api, polls[1..][k'], status).effects else [];
      assert Poll(api, code, polls, status) == [get] + (Gets(api, code, k' + 1) + tail);
      assert [get] + Gets(api, code, k' + 1) == Gets(api, code, k' + 2);
      assert k' < |polls[1..]| ==> polls[1..][k'] == polls[k' + 1];
    }
  }

  /** Mode dispatch: 'http' starts polling with the onboarding GET (or,
      with no API server, rejects with "No Padi API server specified"),
      'mqtt' rejects with "Not yet implemented", and any other mode rejects
      with "Mode not valid"; no rejection here sends a request. */
  lemma ModeDispatch(cfg: Config, code: string, polls: seq<PollOutcome>, status: StatusOutcome)
    ensures var t := Run(cfg, code, polls, status);
      && (cfg.mode == "http" && cfg.api != "" ==> t[0] == Call(Get(cfg.api, OnboardingPath(code))))
      && (cfg.mode == "http" && cfg.api == "" ==>
            t == [Reject(NoApiServer)] && Settlement(t) == Rejected(Error("No Padi API server specified")))
      && (cfg.mode == "mqtt" ==> t == [Reject(NotYetImplemented)] && Settlement(t) == Rejected(Error("Not yet implemented")))
      && (cfg.mode != "http" && cfg.mode != "mqtt" ==>
            t == [Reject(ModeNotValid)] && Settlement(t) == Rejected(Error("Mode not valid")))
  {
  }

  /** Failed GETs never settle the promise and are followed by another GET to
      the same path, however many there are: polling has no ceiling. */
  lemma RetryWithoutCeiling(cfg: Config, code: string, polls: seq<PollOutcome>, status: StatusOutcome)
    requires cfg.mode == "http" && cfg.api != ""
    requires forall j | 0 <= j < |polls| :: Fails(polls[j])
    ensures Run(cfg, code, polls, status) == Gets(cfg.api, code, |polls| + 1)
    ensures Settlement(Run(cfg, code, polls, status)) == Pending
  {
    PollShape(cfg.api, code, polls, status);
  }

  /** Polling is sequential and stops at the first handled reply: every GET
      goes to the same path, every GET after the first follows a failed
      answer, and once anything other than a GET happens no GET follows. */
  lemma SequentialPolling(cfg: Config, code: string, polls: seq<PollOutcome>, status: StatusOutcome)
    requires cfg.mode == "http" && cfg.api != ""
    ensures var t := Run(cfg, code, polls, status);
      && (forall i | 0 <= i < |t| && IsGet(t[i]) :: t[i] == Call(Get(cfg.api, OnboardingPath(code))))
      && (forall i | 1 <= i < |t| && IsGet(t[i]) :: i - 1 < |polls| && Fails(polls[i - 1]))
      && (forall i, j | 0 <= i < j < |t| && !IsGet(t[i]) :: !IsGet(t[j]))
  {
    var t := Run(cfg, code, polls, status);
    var k := FirstHandled(polls);
    PollShape(cfg.api, code, polls, status);
    var n := k + 1;
    assert forall i | 0 <= i < |t| :: i < n ==> t[i] == Call(Get(cfg.api, OnboardingPath(code)));
    assert forall i | n <= i < |t| :: !IsGet(t[i]) by {
      if k < |polls| {
        var h := PollAttempt(cfg.api, polls[k], status);
        assert t == Gets(cfg.api, code, n) + h.effects;
        forall i | n <= i < |t| ensures !IsGet(t[i]) {
          assert t[i] == h.effects[i - n];
        }
      }
    }
  }

  /** An invalid payload (either field `undefined`) at the first handled
      reply sends no status POST, stops polling and leaves the promise
      pending: it is neither resolved nor rejected. */
  lemma InvalidPayloadStaysPending(cfg: Config, code: string, polls: seq<PollOutcome>, status: StatusOutcome, k: nat)
    requires cfg.mode == "http" && cfg.api != ""
    requires k < |polls| && (forall j | 0 <= j < k :: Fails(polls[j]))
    requires polls[k].Reply? && polls[k].data.Obj? && !ValidResponse(polls[k].data)
    ensures Run(cfg, code, polls, status) == Gets(cfg.api, code, k + 1)
    ensures forall e | e in Run(cfg, code, polls, status) :: !IsPost(e)
    ensures Settlement(Run(cfg, code, polls, status)) == Pending
  {
    assert FirstHandled(polls) == k;
    PollShape(cfg.api, code, polls, status);
  }

  /** A valid payload at the first handled reply leads to exactly one POST,
      to the status path, with body '"online"' and the header
      'Bearer ' + padiToken, right after the last GET, and then to exactly
      one settlement: resolve with toContext(data) when the POST succeeds,
      reject with the POST's own error when it fails. */
  lemma ValidPayloadPostsOnce(cfg: Config, code: string, polls: seq<PollOutcome>, status: StatusOutcome, k: nat)
    requires cfg.mode == "http" && cfg.api != ""
    requires k < |polls| && (forall j | 0 <= j < k :: Fails(polls[j]))
    requires polls[k].Reply? && ValidResponse(polls[k].data)
    ensures var t := Run(cfg, code, polls, status);
      && |t| == k + 3
      && t[k + 1] == Call(SetStatus(cfg.api, polls[k].data.padiToken))
      && t[k + 1].request.path == "/thing/client/padi.node/status"
      && t[k + 1].request.body == "\"online\""
      && (polls[k].data.padiToken.Str? ==> t[k + 1].request.authorization == "Bearer " + polls[k].data.padiToken.s)
      && (forall i | 0 <= i < |t| && IsPost(t[i]) :: i == k + 1)
      && Settlement(t) == (if status.StatusOk? then Resolved(ToContext(polls[k].data)) else Rejected(status.error))
  {
    var t := Run(cfg, code, polls, status);
    var settle := ValidPayloadTrace(cfg, code, polls, status, k);
    var post := SetStatus(cfg.api, polls[k].data.padiToken);
    assert t[k + 1] == Call(post) && t[k + 2] == settle;
    var auth := post.authorization;
    assert auth == auth[..7] + auth[7..];
    SettlementSkipsCalls(t, k + 2);
    assert t[k + 2..] == [settle];
  }

  /** The whole trace for a valid payload at the first handled reply; the
      settling event is returned in `settle`. */
  lemma ValidPayloadTrace(cfg: Config, code: string, polls: seq<PollOutcome>, status: StatusOutcome, k: nat)
    returns (settle: Event)
    requires cfg.mode == "http" && cfg.api != ""
    requires k < |polls| && (forall j | 0 <= j < k :: Fails(polls[j]))
    requires polls[k].Reply? && ValidResponse(polls[k].data)
    ensures settle == if status.StatusOk? then Resolve(ToContext(polls[k].data)) else Reject(status.error)
    ensures Run(cfg, code, polls, status) ==
      Gets(cfg.api, code, k + 1) + [Call(SetStatus(cfg.api, polls[k].data.padiToken)), settle]
  {
    assert FirstHandled(polls) == k;
    PollShape(cfg.api, code, polls, status);
    settle := if status.StatusOk? then Resolve(ToContext(polls[k].data)) else Reject(status.error);
  }

  /** The promise's state depends only on the first settling event. */
  lemma {:induction false} SettlementSkipsCalls(t: seq<Event>, n: nat)
    requires n <= |t|
    requires forall i | 0 <= i < n :: t[i].Call?
    ensures Settlement(t) == Settlement(t[n..])
  {
    if n > 0 {
      assert t[1..][n - 1..] == t[n..];
      SettlementSkipsCalls(t[1..], n - 1);
    }
  }

  /** `getContext` resolves exactly when polling reaches a valid payload and
      the status POST succeeds, and then with toContext of that payload. */
  lemma ResolvesOnlyAfterStatusOk(cfg: Config, code: string, polls: seq<PollOutcome>, status: StatusOutcome, c: Context)
    ensures var k := FirstHandled(polls);
      Settlement(Run(cfg, code, polls, status)) == Resolved(c) <==>
        cfg.mode == "http" && cfg.api != "" && k < |polls| && polls[k].Reply? && ValidResponse(polls[k].data) &&
        status == StatusOk && c == ToContext(polls[k].data)
  {
    Classify(cfg, code, polls, status);
  }

  /** `getContext` rejects with `e` exactly when the mode is 'mqtt' and `e` is
      "Not yet implemented", or the mode is unknown and `e` is "Mode not
      valid", or the mode is 'http' with no API server and `e` is "No Padi
      API server specified", or polling reaches a valid payload and the status POST fails
      with `e`. A failed POST is not retried. */
  lemma RejectsOnlyOnModeOrStatusError(cfg: Config, code: string, polls: seq<PollOutcome>, status: StatusOutcome, e: Error)
    ensures var k := FirstHandled(polls);
      Settlement(Run(cfg, code, polls, status)) == Rejected(e) <==>
        (cfg.mode == "mqtt" && e == NotYetImplemented) ||
        (cfg.mode != "http" && cfg.mode != "mqtt" && e == ModeNotValid) ||
        (cfg.mode == "http" && cfg.api == "" && e == NoApiServer) ||
        (cfg.mode == "http" && cfg.api != "" && k < |polls| && polls[k].Reply? && ValidResponse(polls[k].data) &&
         status == StatusErr(e))
  {
    Classify(cfg, code, polls, status);
  }

  /** The three ways polling can end. */
  lemma Classify(cfg: Config, code: string, polls: seq<PollOutcome>, status: StatusOutcome)
    ensures var k := FirstHandled(polls);
      cfg.mode == "http" && cfg.api != "" ==>
        if k < |polls| && polls[k].Reply? && ValidResponse(polls[k].data) then
          Settlement(Run(cfg, code, polls, status)) ==
            (if status.StatusOk? then Resolved(ToContext(polls[k].data)) else Rejected(status.error))
        else
          Settlement(Run(cfg, code, polls, status)) == Pending
  {
    if cfg.mode == "http" && cfg.api != "" {
      var k := FirstHandled(polls);
      if k < |polls| && polls[k].Reply? && ValidResponse(polls[k].data) {
        ValidPayloadPostsOnce(cfg, code, polls, status, k);
      } else if k < |polls| {
        InvalidPayloadStaysPending(cfg, code, polls, status, k);
      } else {
        RetryWithoutCeiling(cfg, code, polls, status);
      }
    }
  }

  /** The promise is settled at most once: at most one event of any trace is
      a `resolve` or `reject`, and it is the last thing the broker does. */
  lemma SettlesAtMostOnce(cfg: Config, code: string, polls: seq<PollOutcome>, status: StatusOutcome)
    ensures var t := Run(cfg, code, polls, status);
      && (forall i | 0 <= i < |t| && !t[i].Call? :: i == |t| - 1)
      && (forall i, j | 0 <= i < j < |t| :: t[i].Call? || t[j].Call?)
  {
    if cfg.mode == "http" && cfg.api != "" {
      var t := Run(cfg, code, polls, status);
      var k := FirstHandled(polls);
      PollShape(cfg.api, code, polls, status);
      if k < |polls| {
        var h := PollAttempt(cfg.api, polls[k], status);
        assert t == Gets(cfg.api, code, k + 1) + h.effects;
        forall i | 0 <= i < |t| && !t[i].Call? ensures i == |t| - 1 {
          if i > k {
            assert t[i] == h.effects[i - k - 1];
          }
        }
      }
    }
  }

  /** Example: code "ABC123", a network failure, then a reply with both
      fields, then a successful status POST. */
  lemma NetFailThenValidReply()
    ensures var cfg := Config(DefaultApi, "http");
      var polls := [NetFail, Reply(Obj(Str("thing-1"), Str("tok-1")))];
      var t := Run(cfg, "ABC123", polls, StatusOk);
      && t == [Call(Get(DefaultApi, "/onboarding/ABC123")), Call(Get(DefaultApi, "/onboarding/ABC123")),
               Call(Post(DefaultApi, "/thing/client/padi.node/status", "Bearer tok-1", "\"online\"")),
               Resolve(Context("thing-1", "tok-1"))]
      && Settlement(t) == Resolved(Context("thing-1", "tok-1"))
  {
    var cfg := Config(DefaultApi, "http");
    var polls := [NetFail, Reply(Obj(Str("thing-1"), Str("tok-1")))];
    var settle := ValidPayloadTrace(cfg, "ABC123", polls, StatusOk, 1);
    assert Concat(BearerPrefix, Str("tok-1")) == "Bearer tok-1";
    assert OnboardingPath("ABC123") == "/onboarding/ABC123";
    assert Gets(DefaultApi, "ABC123", 2) == [Call(Get(DefaultApi, "/onboarding/ABC123")), Call(Get(DefaultApi, "/onboarding/ABC123"))];
    SettlementSkipsCalls(Run(cfg, "ABC123", polls, StatusOk), 3);
  }

  /** Example: a first reply without `padiThing` leaves the promise pending
      with no status POST and no further GET. */
  lemma UndefinedThingStaysPending(token: Field, later: seq<PollOutcome>, status: StatusOutcome)
    ensures var t := Run(Config(DefaultApi, "http"), "ABC123", [Reply(Obj(Undefined, token))] + later, status);
      t == [Call(Get(DefaultApi, "/onboarding/ABC123"))] && Settlement(t) == Pending
  {
    InvalidPayloadStaysPending(Config(DefaultApi, "http"), "ABC123", [Reply(Obj(Undefined, token))] + later, status, 0);
    assert OnboardingPath("ABC123") == "/onboarding/ABC123";
    assert Gets(DefaultApi, "ABC123", 1) == [Call(Get(DefaultApi, "/onboarding/ABC123"))];
  }

  /** A null (or empty) field passes validation but comes back as '', and
      the POST is sent with 'Bearer null' for a null token. */
  lemma NullFieldsBecomeEmpty(cfg: Config, code: string, later: seq<PollOutcome>)
    requires cfg.mode == "http" && cfg.api != ""
    ensures var t := Run(cfg, code, [Reply(Obj(Null, Null))] + later, StatusOk);
      && t[1] == Call(Post(cfg.api, StatusPath, "Bearer null", OnlineBody))
      && Settlement(t) == Resolved(Context("", ""))
  {
    ValidPayloadPostsOnce(cfg, code, [Reply(Obj(Null, Null))] + later, StatusOk, 0);
  }
}
