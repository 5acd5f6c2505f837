# Padi onboarding broker — a Dafny model

This project models the context-acquisition logic of the CNS onboarding
tool's Padi broker (`src/brokers/padi.js`). `getContext(code)` returns a
promise for the device's onboarding context `{context, token}`. It works in
one of two ways:

- In mode `http` it polls `GET /onboarding/<code>` on the Padi API and
  retries after every failure.
- In mode `mqtt` it throws "Not yet implemented", and the promise rejects.

Once a reply is handled, the broker checks that `padiThing` and `padiToken`
are present. It then announces the device online with one
`POST /thing/client/padi.node/status` (body `"online"`, header
`Authorization: Bearer <token>`). Only when that POST succeeds does it
resolve with `toContext(data)`.

The network is replaced by its answers:

- a sequence of poll outcomes (`NetFail`, or `Reply(body)`), where the i-th
  entry answers the i-th GET;
- one status outcome (`StatusOk`, or `StatusErr(e)`).

What the broker does is a trace of `Event`s in order: each request it sends
(`Call(Get …)`, `Call(Post …)`) and each call to the promise's `resolve` or
`reject`. `Settlement(trace)` is the state of the promise. The first
`resolve` or `reject` settles it, as a JavaScript promise does.

A reply body is `Nullish` (reading `.padiThing` throws) or
`Obj(padiThing, padiToken)`. Each field is `Undefined`, `Null` or
`Str(s)`. This keeps the difference between the `=== undefined` check and
the truthiness test of `|| ''`.

Files:

- `js.dfy` (module `Js`): the JavaScript value semantics used: fields,
  bodies, `|| ''` and string `+`.
- `padi.dfy` (module `Padi`): configuration, `toContext`, `setStatus`,
  `response`, the polling recursion `Poll`, the polling loop `PollTimer` and
  `GetContext`.
- `padi_properties.dfy` (module `PadiProperties`): the properties of the
  broker, proved for every sequence of answers.

Three behaviours of `src/brokers/padi.js` that are easy to misread:

- A reply missing `padiThing` or `padiToken` is not rejected. `response`
  logs it and returns (src/brokers/padi.js:139-142). The promise stays
  pending, no status POST is sent, and polling stops.
- A `null` (or empty-string) field passes the check, because only
  `undefined` is refused (src/brokers/padi.js:139). It then yields `''` in
  the context (src/brokers/padi.js:188-189), and a `null` token is sent as
  `Bearer null` (src/brokers/padi.js:171).
- A reply whose body is `null` is retried like a failed GET. The property
  read throws inside the `.then` handler (src/brokers/padi.js:64-66); the
  `.catch` handler (src/brokers/padi.js:69-76) catches it and schedules
  another GET.

## Model

| member | source | states |
|---|---|---|
| Js.OrEmpty | src/brokers/padi.js:188-189 | the fallback to `''` by logical or returns every string field unchanged (the empty string included) and turns `null`/`undefined` into `''` |
| Js.Concat | src/brokers/padi.js:171 | `prefix + f` starts with the prefix and continues with the string field itself, or with `null` for a null field |
| Padi.Setting | src/brokers/padi.js:13-16 | an environment setting with a fallback is the set value when that is non-empty and the fallback otherwise, and never empty when the fallback is not |
| Padi.ConfigFrom | src/brokers/padi.js:13-15 | the API base URL and mode are the non-empty environment values, default to `https://api.padi.io` and `http` when unset or empty, and so are never empty: the `PADI_API === ''` guards cannot fire in a loaded module |
| Padi.OnboardingPath | src/brokers/padi.js:62 | the poll path is `/onboarding/` followed by the code itself |
| Padi.SetStatus | src/brokers/padi.js:161-176 | the status request is a POST to the base URL at `/thing/client/padi.node/status` with body `"online"` and an Authorization header `Bearer ` followed by the token (`Bearer null` for a null token) |
| Padi.ToContext | src/brokers/padi.js:185-191 | each context field is the payload's string when it is a string and `''` otherwise |
| Padi.Response | src/brokers/padi.js:134-158 | a null body throws; a body missing either field returns with no effect at all; otherwise exactly two effects: the status POST with the payload's token, then `resolve(toContext(data))` if and only if the POST succeeded, or `reject` with the POST's own error |
| Padi.PollAttempt | src/brokers/padi.js:62-76 | one GET's handling ends in the `.catch` (a retry) exactly when the GET failed or its body was null |
| Padi.Poll | src/brokers/padi.js:58-77 | every polling trace begins with the GET `/onboarding/<code>` on the configured base URL |
| Padi.Run | src/brokers/padi.js:19-43 | `getContext` always does something; any mode other than `http`, and `http` with an empty API server, produces exactly one event, a rejection; `http` with a server starts with a request |
| Padi.Settlement | src/brokers/padi.js:21-36 | the promise is pending exactly when the trace holds no `resolve`/`reject`; a settled promise holds the value of the first `resolve`/`reject` in the trace, every event before it being a request |
| Padi.PollTimer | src/brokers/padi.js:58-77 | the polling loop produces exactly the trace of the recursive polling specification `Poll` |
| Padi.GetContext | src/brokers/padi.js:19-37 | the method's trace is `Run`'s and its promise state is the settlement of that trace |
| PadiProperties.PollShape | src/brokers/padi.js:58-77 | every polling trace is one GET per failed answer plus one more, followed only by what the first handled reply does |
| PadiProperties.ModeDispatch | src/brokers/padi.js:23-43 | `http` starts with the onboarding GET, or rejects with "No Padi API server specified" when the server is empty; `mqtt` rejects with "Not yet implemented"; any other mode rejects with "Mode not valid"; neither rejection sends a request |
| PadiProperties.RetryWithoutCeiling | src/brokers/padi.js:62-76 | any number of failed GETs (transport error, non-2xx, null body) leaves the promise pending and is followed by one more GET to the same path: no retry ceiling |
| PadiProperties.SequentialPolling | src/brokers/padi.js:64-75 | all GETs go to the same path; each GET after the first follows a failed answer; after the first handled reply no further GET is sent |
| PadiProperties.InvalidPayloadStaysPending | src/brokers/padi.js:136-142 | a first handled reply with an `undefined` field sends no POST and no further GET, and the promise is neither resolved nor rejected |
| PadiProperties.ValidPayloadPostsOnce | src/brokers/padi.js:145-176 | a valid payload leads to exactly one POST, to the status path with body `"online"` and `Bearer <padiToken>`; the promise then resolves with `toContext(data)` if the POST succeeds and rejects with its error if it fails |
| PadiProperties.ValidPayloadTrace | src/brokers/padi.js:134-158 | the complete trace for a valid payload: the GETs, the status POST, then one settling event chosen by the POST's outcome |
| PadiProperties.ResolvesOnlyAfterStatusOk | src/brokers/padi.js:145-150 | the promise resolves with `c` if and only if polling reached a valid payload, the status POST succeeded and `c` is `toContext` of that payload |
| PadiProperties.RejectsOnlyOnModeOrStatusError | src/brokers/padi.js:145-157 | the promise rejects with `e` if and only if the mode is `mqtt` and `e` is "Not yet implemented", the mode is unknown and `e` is "Mode not valid", the mode is `http` with an empty server and `e` is "No Padi API server specified", or a valid payload's status POST failed with `e`; a failed POST is not retried |
| PadiProperties.Classify | src/brokers/padi.js:134-158 | in `http` mode the promise ends resolved, rejected with the POST's error, or pending, according to the first handled reply and the status outcome |
| PadiProperties.SettlesAtMostOnce | src/brokers/padi.js:21-36 | at most one event of any trace is a `resolve` or `reject`, and it is the last one, so no answers lead to both a resolve and a reject or to two resolves |
| PadiProperties.SettlementSkipsCalls | src/brokers/padi.js:21-36 | requests made before the first `resolve`/`reject` do not change the promise's state |
| PadiProperties.NetFailThenValidReply | src/brokers/padi.js:58-77 | for code `ABC123`, a failed GET followed by a reply `{padiThing: "thing-1", padiToken: "tok-1"}` and a successful POST gives two GETs, the POST with `Bearer tok-1`, and resolution with `{context: "thing-1", token: "tok-1"}` |
| PadiProperties.UndefinedThingStaysPending | src/brokers/padi.js:139-142 | a first reply without `padiThing` gives a trace of one GET and a pending promise, whatever follows |
| PadiProperties.NullFieldsBecomeEmpty | src/brokers/padi.js:185-191 | a reply with null fields is accepted, the POST carries `Bearer null`, and the context is `{context: '', token: ''}` |

## Left out

- The MQTT subscription code (src/brokers/padi.js:83-130) is inside a block comment and never runs. The model covers only the live throw in `mqttContext`.
- axios and mqtt internals, HTTP/TLS and the `Content-Type: application/json` header are not modelled. Requests are recorded by base URL, path, Authorization header and body.
- The poll interval `PADI_POLL` and the real `setTimeout` delay are not modelled. A retry is the next GET in the trace, and the delay's length plays no part.
- The `PADI_API === ''` guard in `setStatus` (src/brokers/padi.js:163-164) is not modelled. The base URL is fixed for the whole call and `pollContext` has already rejected an empty one (src/brokers/padi.js:42-43), so it cannot fire; `Padi.ConfigFrom` shows that a loaded module never has an empty base URL anyway.
- `PADI_MQTT` is not modelled, because nothing live reads it.
- `console.log`/`console.error` output is not modelled.
- Reply fields are `undefined`, `null` or strings. Numbers, booleans and objects in `padiThing`/`padiToken` are not modelled. A body that is a bare string or number behaves like an object whose two fields are `undefined`.
- A status POST that never answers is not modelled. The status outcome is always a success or an error.
- index.js (the command-line shell: environment lookup, dynamic broker loading, `process.exit`) is not part of this model.
