# ws-test-task, modelled in Dafny

This project models the two sequential state machines of a small WebSocket-style
protocol client and the mock server it talks to. The original repository is written in Go.

- **Client** (`client/client.go`) has the following parts:
  - a registry of pending calls, a map from request id to reply channel;
  - the `send` path that registers an id, hands the request to the transport and rolls the registration back if the transport refuses;
  - `Auth` and `Subscribe`, built on `send`;
  - the per-call waiter `handleStatusResponse`;
  - the `Listen` dispatch loop. It classifies each inbound message by whether its raw text contains `"method":`. It then routes the message to one of three places: the response handler, a re-authentication, or the status handler. It reports decode failures and keeps going. When the input ends it returns `ErrConnClosed`.
- **Mock server** (`server/server_mock.go`) has the following parts:
  - the `Writer`, which answers each request with at most one status on its outbound queue;
  - the set of subscribed symbols;
  - the authorization cell, which records whether the session is authorized and since when;
  - a cancellation flag;
  - `authCheck`;
  - one tick of `Run`'s expiry timer. If the authorization is older than a minute, the tick disconnects. If it is older than 20 seconds, the tick pushes an "auth expiring" notice.

Concurrency is replaced by explicit inputs, as follows:
- A call's fresh uuid and the transport's answer together make an `Attempt`.
- The end of a waiter's wait is a `WaitOutcome`: either a status is received or the deadline passes.
- The current time is an integer number of milliseconds.
- The handler callbacks are recorded in call order as a trace of `Event`s.
- JSON decoding is abstracted: each message carries its raw text and its decoded form as either record, or a decode error.

Files:
- `wrappers.dfy`: `Option`, `Result`.
- `entity.dfy`: the three message records (`entity/*.go`) and the method-name constants.
- `client.dfy`: the `Client` class and the pure specification it is proved against (`AfterAdd`, `AfterRemove`, `AfterSend`, `AfterAuth`, `AfterSubscribe`, `AfterWait`, `AfterListen`, `ListenEvents`).
- `client_properties.dfy`: lemmas about the dispatch loop's specification.
- `server.dfy`: the `Writer` class, `AuthCheck` and the tick decision `Decide`.
- `session.dfy`: the client wired to the mock server as `main.go` does it. Each client call first hands its request to the writer's `Send`, and the writer's answer becomes the outcome of the client's `send`. The file has `main.go`'s run up to `Listen` and two further scenarios.

The model follows the code where the code and the design prose differ:
- `Listen` passes a status message straight to the status handler (client/client.go:110). It never looks it up in the registry, and nothing ever writes to a reply channel.
- The waiter never removes its slot, on the reply path or the timeout path. `Listen` never removes a slot either. `ListenRegistry` states that the registry only grows.
- If the waiter finds no slot, it reports `ErrChannelNotFound` and then waits on a nil channel. Only the deadline can end that wait, so the model reports the timeout next.
- `Subscribe` starts no waiter; only `Auth` does.
- Nothing ever writes to a waiter's reply channel, and no waiter's channel is closed while it waits. So in the program every waiter that `Auth` starts ends on its deadline with the "context end" error (client/client.go:139-140), even after a successful login. `AfterWait` states what a `Deadline` outcome does; the model leaves the choice of outcome as an input and does not force it.
- The client keeps no authorization state. The authorized/unauthorized state machine lives in the mock server's `auth` cell.

## Model

| member | source | states |
|---|---|---|
| Client.Contains | client/client.go:81 | the `bytes.Contains` test holds exactly when the marker occurs somewhere in the raw text |
| Client.Classify | client/client.go:81-110 | a message is push-shaped iff its text contains `"method":`; an expiry notice is a decoded push whose method is the expiring one; other decoded pushes, statuses and decode failures carry exactly what unmarshalling gave |
| Client.AfterAdd | client/client.go:53-58 | after `addChannel(id, slot)` looking up `id` gives `slot`, every other id gives what it gave before, the key set gains exactly `id`, nothing else changes |
| Client.AfterRemove | client/client.go:60-68 | after `removeChannel(id)` the id is not found and other ids are unaffected; an absent id leaves the state unchanged; a present id loses exactly its key and its channel is closed |
| Client.RemoveIdempotent | client/client.go:60-68 | removing the same id twice is the same as removing it once |
| Client.AfterSend | client/client.go:148-165 | `send` always hands `{id, method, args}` to the transport; on a transport error it returns `""` and that error and, for a fresh id, leaves the registry as it was; on success it returns the id it put in `ReqID`, which is now registered, and other ids are unaffected |
| Client.AfterAuth | client/client.go:116-128 | `Auth` transmits the login method with args exactly `{login, password}`; it fails iff the transport refused; on success the new id is registered and exactly one waiter is started for it; for a fresh id earlier slots are untouched |
| Client.AfterSubscribe | client/client.go:167-178 | `Subscribe(symbol)` transmits the subscribe method with args exactly `{symbol}` and starts no waiter; it fails iff the transport refused; on success it returns the id, now registered, and other ids are unaffected; on failure it returns `""` with the transport's error and, for a fresh id, the registry as it was |
| Client.AfterWait | client/client.go:130-146 | a waiter changes nothing but the handler trace; it ends with exactly one terminal event: the received status if its slot exists and a status arrives, otherwise a "context end" error; a missing slot is first reported as `ErrChannelNotFound`; the slot is never removed |
| Client.Client.constructor | client/client.go:33-35 | `NewClient` starts with an empty registry, nothing sent and the given credentials |
| Client.Client.AddChannel | client/client.go:53-58 | the object's new state is `AfterAdd` of the old |
| Client.Client.RemoveChannel | client/client.go:60-68 | the object's new state is `AfterRemove` of the old |
| Client.Client.GetChannel | client/client.go:70-77 | returns the slot iff the id is registered, and `ErrChannelNotFound` with no slot otherwise |
| Client.Client.Send | client/client.go:148-165 | the object's new state and results are those of `AfterSend`, for an id not yet registered |
| Client.Client.Auth | client/client.go:116-128 | the object's new state and error are those of `AfterAuth` |
| Client.Client.Subscribe | client/client.go:167-178 | the object's new state and results are those of `AfterSubscribe` |
| Client.Client.HandleStatusResponse | client/client.go:130-146 | the object's new state is `AfterWait` of the old |
| Client.Client.Listen | client/client.go:79-114 | the loop returns `ErrConnClosed` once the input is exhausted, and the object's new state is `AfterListen` of the old |
| ClientProperties.ListenTrace | client/client.go:79-114 | the handler calls `Listen` makes are `ListenEvents` of the input, whatever the registry holds |
| ClientProperties.ListenResponses | client/client.go:90-99 | the response handler receives exactly the decoded non-expiry pushes, each once, in input order |
| ClientProperties.ListenStatuses | client/client.go:102-110 | the status handler receives exactly the decoded status-shaped messages, each once, in input order |
| ClientProperties.ListenErrors | client/client.go:84-107 | the error handler receives exactly one error per message that does not decode (a response error if it carries the method key, a status error otherwise) and one per re-authentication the transport refused, in input order, and nothing else |
| ClientProperties.ExpiryNeverReachesResponseHandler | client/client.go:90-96 | no response-handler call carries the "auth expiring" method |
| ClientProperties.ListenContinues | client/client.go:84-88 | processing the input in two parts gives the events of the first part followed by those of the rest, so a malformed message never stops the loop |
| ClientProperties.ListenTransmits | client/client.go:90-95 | each expiry notice causes exactly one login request with the configured credentials, in order, and nothing else is transmitted |
| ClientProperties.ListenRegistry | client/client.go:90-95 | with fresh ids, the registry after `Listen` holds every earlier slot unchanged plus one slot per accepted re-authentication, and nothing else |
| Server.AuthCheck | server/server_mock.go:178-188 | passes iff the method is the login method and login is "foo" and password is "bar"; a wrong method yields the "incorrect method" error; every error has a non-empty text |
| Server.Decide | server/server_mock.go:207-220 | an unauthorized tick does nothing; more than 60 s since authorization disconnects; more than 20 s and at most 60 s warns; otherwise nothing |
| Server.DecideMonotone | server/server_mock.go:211-220 | with the same authorization, a later tick is never milder than an earlier one |
| Server.Writer.constructor | server/server_mock.go:34-43 | `NewWriter` starts empty, unauthorized and not cancelled |
| Server.Writer.Send | server/server_mock.go:68-151 | after cancellation it returns `ErrDisconnected` and changes nothing; otherwise it appends at most one status, carrying the request's `ReqID`. Subscribe: an already-subscribed symbol gets "already subscribed" whatever the auth state; a new symbol while unauthorized gets the authorization error; a new symbol while authorized is added, gets `Status=true` and starts one stream. Auth: correct credentials set `authorized` at `now` and get `Status=true`; wrong ones get the check's error and leave `auth` alone. An unknown method changes nothing and returns nil. The stream invariant `Valid` is kept |
| Server.Writer.Stop | server/server_mock.go:190-194 | sets the cancellation flag and changes nothing else |
| Server.Writer.Tick | server/server_mock.go:202-221 | follows `Decide`: when idle, nothing changes; when warning, exactly one "auth expiring" push is appended; when disconnecting, it cancels and returns `ErrDisconnected`; subscriptions and auth are never touched |
| Session.LoginAccepted | main.go:20-26 | the login request the client builds passes the server's check exactly when the client was configured with "foo"/"bar" |
| Session.CallAuth | client/client.go:148-165 | with the writer's `Send` as the transport, the server receives exactly the login request the client records as transmitted; the call fails iff the writer was cancelled; otherwise the writer answers it as `authCheck` decides, and the client registers the id exactly on success |
| Session.CallSubscribe | client/client.go:148-165 | with the writer's `Send` as the transport, the subscribe request the client transmits is the one the writer answers; the client's call fails iff the writer was cancelled; the writer's answer follows its subscribe branch |
| Session.RunUntilListen | main.go:20-35 | the client configured with "foo"/"bar" transmits exactly the login and one subscribe to "BTC/USDT"; the server accepts both with `Status=true` and starts exactly one stream; `Subscribe` returns its request id |
| Session.SubscribeTwice | server/server_mock.go:77-119 | after login, a second subscribe to the same symbol succeeds on the client side but gets "already subscribed" from the server and starts no second stream |
| Session.SubscribeBeforeLogin | server/server_mock.go:84-98 | a subscribe before any login succeeds on the client side but gets the authorization error from the server and starts no stream |

## Left out

- Goroutines, channels, `sync.RWMutex` and `context.WithTimeout` are left out. Each method body is one atomic step. A waiter's wait is one `WaitOutcome` event, and the timeout duration passed to `NewClient` is not modelled. Interleavings of `Writer.Send` with `Run`'s ticks, and of the waiters with `Listen`, are not modelled.
- Receiving from a channel that `removeChannel` closed yields a zero status. It is one more `Received` event and not a separate case.
- `uuid.New()` is left out. The id is part of the `Attempt` parameter. `Client.Client.Send`, `Auth`, `Subscribe` and `Listen` require that it is not yet registered, and `Listen` requires that its ids are pairwise distinct, as the uuid's uniqueness provides.
- The transport's send function is left out. Its answer is part of the `Attempt`, and the requests handed to it are recorded in `transmitted`.
- JSON marshalling and unmarshalling are left out. They are library codecs, so each message carries its decoded form or a decode error.
- `Writer.Read`, which marshals the out queue onto a byte channel, is left out.
- `streamSymbol`'s ticker and price generation are left out. They are timer-driven I/O; the model only records that a stream starts, in `streams`.
- `Run`'s ticker loop is left out. Only one tick is modelled; `Some(Disconnected)` from `Tick` is where `Run` returns.
- The `Set*Func` setters, `main.go`'s zerolog handlers and logging are left out. The handlers are the `events` trace.
- The file that declares `MethodAuth`, `MethodExecutions` and `MethodAuthExpiring` is not part of this model. Their values here are placeholders that are pairwise distinct.
- In the wired-up session, a transport error reaches the client as the text "disconnected". That is the text of `ErrDisconnected`, the only error the server's `Send` returns.
