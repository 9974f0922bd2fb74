/**
 * The client of client/client.go: a registry of pending calls keyed by request id,
 * the shared `send` path behind `Auth` and `Subscribe`, the per-call waiter
 * (`handleStatusResponse`) and the `Listen` dispatch loop.
 *
 * Concurrency is replaced by explicit inputs: the fresh uuid and the answer of the
 * transport's `sendFunc` arrive together as an `Attempt`; the end of a waiter's wait is a
 * `WaitOutcome`; the three handler callbacks are recorded, in call order, as `events`.
 *
 * The class `Client` holds the mutable state and is proved against the pure functions
 * `AfterAdd`, `AfterRemove`, `AfterSend`, `AfterAuth`, `AfterSubscribe`, `AfterWait` and
 * `AfterListen` over a `ClientState` value; the lemmas are stated about those functions.
 */
module Client {
  import opened Wrappers
  import opened Entity

  /** The text `"method":` whose presence makes `Listen` treat a raw message as a push. */
  const MethodKey: string := "\"method\":"

  datatype ClientError =
    | ChannelNotFound                   // ErrChannelNotFound
    | ConnClosed                        // ErrConnClosed
    | TransmitFailed(reason: string)    // the error the transport's send function returned
    | ResponseUnmarshal(reason: string) // "method response unmarshal error"
    | StatusUnmarshal(reason: string)   // "status response unmarshal error"
    | AuthFailed(cause: ClientError)    // "auth error", wrapping the cause
    | ContextEnd(id: string)            // "request <id> context end": the waiter's deadline passed

  /** A reply channel; each `make(chan ...)` gives a new one, told apart by its serial number. */
  datatype Slot = Slot(serial: nat)

  /** What the transport's send function answered. */
  datatype Transmit = TransmitOk | TransmitErr(reason: string)

  /** The environment of one `send`: the uuid it draws and the transport's answer. */
  datatype Attempt = Attempt(id: string, outcome: Transmit)

  datatype Credentials = Credentials(login: string, password: string)

  /** One inbound unit: its raw text and what unmarshalling it as either record gives. */
  datatype Message = Message(
    raw: string,
    asResponse: Result<MethodResponse, string>,
    asStatus: Result<StatusResponse, string>)

  /** One invocation of a handler callback. */
  datatype Event =
    | OnResponse(res: MethodResponse)
    | OnStatus(st: StatusResponse)
    | OnError(err: ClientError)

  /** How a waiter's `select` ends: a value arrives on its channel, or the deadline passes. */
  datatype WaitOutcome = Received(st: StatusResponse) | Deadline

  /** The client's state as a value. `closed` holds the channels `removeChannel` closed,
      `transmitted` every request handed to the transport, `waiters` the ids for which a
      waiter task was started, `events` the handler calls. */
  datatype ClientState = ClientState(
    c: map<string, Slot>,
    closed: set<Slot>,
    nextSerial: nat,
    transmitted: seq<MethodRequest>,
    waiters: seq<string>,
    events: seq<Event>)

  datatype SendResult = SendResult(state: ClientState, reqId: string, err: Option<ClientError>)

  // ---------------------------------------------------------------- classification

  /** `p` occurs in `s` starting at index `i`. */
  ghost predicate OccursAt(p: string, s: string, i: int)
  {
    0 <= i <= |s| - |p| && s[i..i + |p|] == p
  }

  /** `p` occurs in `s` as a contiguous piece. */
  ghost predicate Occurs(p: string, s: string)
  {
    exists i :: OccursAt(p, s, i)
  }

  lemma OccursStep(p: string, s: string)
    requires |s| >= |p| && s[..|p|] != p
    ensures Occurs(p, s) <==> Occurs(p, s[1..])
  {
    if Occurs(p, s) {
      var i :| OccursAt(p, s, i);
      assert i != 0;
      assert s[1..][i - 1..i - 1 + |p|] == s[i..i + |p|];
      assert OccursAt(p, s[1..], i - 1);
    }
    if Occurs(p, s[1..]) {
      var j :| OccursAt(p, s[1..], j);
      assert s[j + 1..j + 1 + |p|] == s[1..][j..j + |p|];
      assert OccursAt(p, s, j + 1);
    }
  }

  /** `bytes.Contains(s, p)`. */
  function Contains(s: string, p: string): (r: bool)
    ensures r <==> Occurs(p, s)
    decreases |s|
  {
    if |s| < |p| then false
    else if s[..|p|] == p then assert OccursAt(p, s, 0); true
    else OccursStep(p, s); Contains(s[1..], p)
  }

  /** How `Listen` reads one message. */
  datatype Kind =
    | MalformedPush(reason: string)
    | ExpiryNotice
    | Push(res: MethodResponse)
    | MalformedStatus(reason: string)
    | Ack(st: StatusResponse)

  function Classify(m: Message): (k: Kind)
    ensures (k.MalformedPush? || k.ExpiryNotice? || k.Push?) <==> Occurs(MethodKey, m.raw)
    ensures k.ExpiryNotice? <==>
      Occurs(MethodKey, m.raw) && m.asResponse.Success? && m.asResponse.value.methodName == MethodAuthExpiring
    ensures k.Push? ==> m.asResponse == Success(k.res) && k.res.methodName != MethodAuthExpiring
    ensures k.MalformedPush? ==> m.asResponse == Failure(k.reason)
    ensures k.Ack? ==> m.asStatus == Success(k.st)
    ensures k.MalformedStatus? ==> m.asStatus == Failure(k.reason)
  {
    if Contains(m.raw, MethodKey) then
      match m.asResponse
      case Failure(e) => MalformedPush(e)
      case Success(res) => if res.methodName == MethodAuthExpiring then ExpiryNotice else Push(res)
    else
      match m.asStatus
      case Failure(e) => MalformedStatus(e)
      case Success(st) => Ack(st)
  }

  // ---------------------------------------------------------------- registry

  /** `getChannel`. */
  function Lookup(c: map<string, Slot>, id: string): Result<Slot, ClientError>
  {
    if id in c then Success(c[id]) else Failure(ChannelNotFound)
  }

  /** `addChannel(id, slot)`: afterwards `id` finds `slot` and every other id finds what it found before. */
  function AfterAdd(s: ClientState, id: string, slot: Slot): (r: ClientState)
    ensures Lookup(r.c, id) == Success(slot)
    ensures forall k :: k != id ==> Lookup(r.c, k) == Lookup(s.c, k)
    ensures r.c.Keys == s.c.Keys + {id}
    ensures r.(c := s.c) == s
  {
    s.(c := s.c[id := slot])
  }

  /** `removeChannel(id)`: closes and forgets the slot of a present id; an absent id changes nothing. */
  function AfterRemove(s: ClientState, id: string): (r: ClientState)
    ensures Lookup(r.c, id) == Failure(ChannelNotFound)
    ensures forall k :: k != id ==> Lookup(r.c, k) == Lookup(s.c, k)
    ensures id !in s.c ==> r == s
    ensures id in s.c ==> r.c.Keys == s.c.Keys - {id} && r.closed == s.closed + {s.c[id]}
    ensures r.(c := s.c, closed := s.closed) == s
  {
    if id in s.c then s.(c := s.c - {id}, closed := s.closed + {s.c[id]}) else s
  }

  lemma RemoveIdempotent(s: ClientState, id: string)
    ensures AfterRemove(AfterRemove(s, id), id) == AfterRemove(s, id)
  {
  }

  // ---------------------------------------------------------------- issuing calls

  /** `send`: register a new slot under the attempt's id, hand the request to the transport,
      and on a transport error take the registration back and return `""` with that error. */
  function AfterSend(s: ClientState, name: string, args: map<string, string>, a: Attempt): (r: SendResult)
    ensures r.state.transmitted == s.transmitted + [MethodRequest(a.id, name, args)]
    ensures r.state.events == s.events && r.state.waiters == s.waiters
    ensures r.state.c.Keys <= s.c.Keys + {a.id}
    ensures a.outcome.TransmitErr? ==> r.reqId == "" && r.err == Some(TransmitFailed(a.outcome.reason))
    ensures a.outcome.TransmitErr? && a.id !in s.c ==> r.state.c == s.c
    ensures a.outcome.TransmitOk? ==> r.reqId == a.id && r.err == None && a.id in r.state.c
    ensures a.outcome.TransmitOk? ==> r.state.transmitted[|s.transmitted|].reqId == r.reqId
    ensures a.outcome.TransmitOk? ==> forall k :: k != a.id ==> Lookup(r.state.c, k) == Lookup(s.c, k)
  {
    var registered := AfterAdd(s.(nextSerial := s.nextSerial + 1), a.id, Slot(s.nextSerial));
    var attempted := registered.(transmitted := registered.transmitted + [MethodRequest(a.id, name, args)]);
    match a.outcome
    case TransmitErr(e) =>
      var undone := AfterRemove(attempted, a.id);
      assert a.id !in s.c ==> undone.c == s.c;
      SendResult(undone, "", Some(TransmitFailed(e)))
    case TransmitOk =>
      SendResult(attempted, a.id, None)
  }

  function AuthArgs(creds: Credentials): map<string, string>
  {
    map["login" := creds.login, "password" := creds.password]
  }

  function SubscribeArgs(symbol: string): map<string, string>
  {
    map["symbol" := symbol]
  }

  /** `Auth`: send the login call with the configured credentials; on success start a waiter for it. */
  function AfterAuth(s: ClientState, creds: Credentials, a: Attempt): (r: (ClientState, Option<ClientError>))
    ensures r.0.transmitted ==
      s.transmitted + [MethodRequest(a.id, MethodAuth, map["login" := creds.login, "password" := creds.password])]
    ensures r.0.events == s.events
    ensures r.0.c.Keys <= s.c.Keys + {a.id}
    ensures r.1 == None <==> a.outcome.TransmitOk?
    ensures r.1 == None ==> r.0.waiters == s.waiters + [a.id] && a.id in r.0.c
    ensures r.1 != None ==> r.0.waiters == s.waiters && r.1 == Some(TransmitFailed(a.outcome.reason))
    ensures a.id !in s.c ==> r.0.c.Keys == s.c.Keys + (if r.1 == None then {a.id} else {})
    ensures a.id !in s.c ==> forall k :: k in s.c ==> r.0.c[k] == s.c[k]
  {
    var sent := AfterSend(s, MethodAuth, AuthArgs(creds), a);
    if sent.err.Some? then (sent.state, sent.err)
    else (sent.state.(waiters := sent.state.waiters + [sent.reqId]), None)
  }

  /** `Subscribe`: send the subscribe call for `symbol`; no waiter is started for it. */
  function AfterSubscribe(s: ClientState, symbol: string, a: Attempt): (r: SendResult)
    ensures r.state.transmitted == s.transmitted + [MethodRequest(a.id, MethodExecutions, map["symbol" := symbol])]
    ensures r.state.waiters == s.waiters && r.state.events == s.events
    ensures r.err == None <==> a.outcome.TransmitOk?
    ensures r.err == None ==> r.reqId == a.id && a.id in r.state.c
    ensures r.err != None ==> r.reqId == "" && r.err == Some(TransmitFailed(a.outcome.reason))
    ensures r.err != None && a.id !in s.c ==> r.state.c == s.c
    ensures r.err == None ==> forall k :: k != a.id ==> Lookup(r.state.c, k) == Lookup(s.c, k)
  {
    var sent := AfterSend(s, MethodExecutions, SubscribeArgs(symbol), a);
    if sent.err.Some? then SendResult(sent.state, "", sent.err) else SendResult(sent.state, sent.reqId, None)
  }

  // ---------------------------------------------------------------- the per-call waiter

  /** `handleStatusResponse(id)` once its wait ends with `w`. A missing slot is reported, and
      since a receive on a nil channel never completes, only the deadline can end that wait.
      The slot is never removed, on either path. */
  function AfterWait(s: ClientState, id: string, w: WaitOutcome): (r: ClientState)
    ensures r.(events := s.events) == s
    ensures |r.events| > |s.events| && r.events[..|s.events|] == s.events
    ensures r.events[|r.events| - 1] ==
      if id in s.c && w.Received? then OnStatus(w.st) else OnError(ContextEnd(id))
    ensures id in s.c ==> |r.events| == |s.events| + 1
    ensures id !in s.c ==> r.events == s.events + [OnError(ChannelNotFound), OnError(ContextEnd(id))]
  {
    match Lookup(s.c, id)
    case Failure(e) => s.(events := s.events + [OnError(e), OnError(ContextEnd(id))])
    case Success(_) =>
      s.(events := s.events + [match w case Received(st) => OnStatus(st) case Deadline => OnError(ContextEnd(id))])
  }

  // ---------------------------------------------------------------- the dispatch loop

  /** Number of messages `Listen` answers by re-authenticating; each one uses one `Attempt`. */
  function ExpiringCount(inbound: seq<Message>): nat
  {
    if inbound == [] then 0
    else (if Classify(inbound[0]).ExpiryNotice? then 1 else 0) + ExpiringCount(inbound[1..])
  }

  /** The handler call `Listen` makes for a message that is not an expiry notice. */
  function HandlerEvent(k: Kind): Event
    requires !k.ExpiryNotice?
  {
    match k
    case MalformedPush(e) => OnError(ResponseUnmarshal(e))
    case Push(res) => OnResponse(res)
    case MalformedStatus(e) => OnError(StatusUnmarshal(e))
    case Ack(st) => OnStatus(st)
  }

  /** The handler calls a re-authentication makes: none, or one error if the transport refused it. */
  function ReauthEvents(a: Attempt): seq<Event>
  {
    match a.outcome
    case TransmitOk => []
    case TransmitErr(e) => [OnError(AuthFailed(TransmitFailed(e)))]
  }

  /** The handler calls of `Listen`, message by message, independent of the registry. */
  function ListenEvents(inbound: seq<Message>, attempts: seq<Attempt>): seq<Event>
    requires ExpiringCount(inbound) <= |attempts|
    decreases |inbound|
  {
    if inbound == [] then []
    else
      var k := Classify(inbound[0]);
      if k.ExpiryNotice? then ReauthEvents(attempts[0]) + ListenEvents(inbound[1..], attempts[1..])
      else [HandlerEvent(k)] + ListenEvents(inbound[1..], attempts)
  }

  /** An expiry notice: call `Auth` and report its error, if any. */
  function AfterReauth(s: ClientState, creds: Credentials, a: Attempt): ClientState
  {
    var (t, err) := AfterAuth(s, creds, a);
    if err.Some? then t.(events := t.events + [OnError(AuthFailed(err.value))]) else t
  }

  /** `Listen` over the whole inbound sequence. */
  function AfterListen(s: ClientState, creds: Credentials, inbound: seq<Message>, attempts: seq<Attempt>): ClientState
    requires ExpiringCount(inbound) <= |attempts|
    decreases |inbound|
  {
    if inbound == [] then s
    else
      var k := Classify(inbound[0]);
      if k.ExpiryNotice? then AfterListen(AfterReauth(s, creds, attempts[0]), creds, inbound[1..], attempts[1..])
      else AfterListen(s.(events := s.events + [HandlerEvent(k)]), creds, inbound[1..], attempts)
  }

  /** The uuids drawn are pairwise distinct and unused. */
  ghost predicate FreshIds(attempts: seq<Attempt>, used: set<string>)
  {
    && (forall i :: 0 <= i < |attempts| ==> attempts[i].id !in used)
    && (forall i, j :: 0 <= i < j < |attempts| ==> attempts[i].id != attempts[j].id)
  }

  lemma FreshIdsRest(attempts: seq<Attempt>, used: set<string>, used': set<string>)
    requires |attempts| > 0 && FreshIds(attempts, used)
    requires used' <= used + {attempts[0].id}
    ensures FreshIds(attempts[1..], used')
  {
  }

  // ---------------------------------------------------------------- the client object

  class Client {
    const login: string
    const password: string
    var c: map<string, Slot>
    var closed: set<Slot>
    var nextSerial: nat
    var transmitted: seq<MethodRequest>
    var waiters: seq<string>
    var events: seq<Event>

    /** `NewClient`: an empty registry and nothing sent yet. */
    constructor (login: string, password: string)
      ensures this.login == login && this.password == password
      ensures State() == ClientState(map[], {}, 0, [], [], [])
    {
      this.login := login;
      this.password := password;
      c := map[];
      closed := {};
      nextSerial := 0;
      transmitted := [];
      waiters := [];
      events := [];
    }

    function Creds(): Credentials
    {
      Credentials(login, password)
    }

    ghost function State(): ClientState
      reads this
    {
      ClientState(c, closed, nextSerial, transmitted, waiters, events)
    }

    method AddChannel(id: string, slot: Slot)
      modifies this
      ensures State() == AfterAdd(old(State()), id, slot)
    {
      c := c[id := slot];
    }

    method RemoveChannel(id: string)
      modifies this
      ensures State() == AfterRemove(old(State()), id)
    {
      if id in c {
        closed := closed + {c[id]};
        c := c - {id};
      }
    }

    method GetChannel(id: string) returns (r: Result<Slot, ClientError>)
      ensures r.Success? <==> id in c
      ensures r.Success? ==> r.value == c[id]
      ensures r.Failure? ==> r.error == ChannelNotFound
    {
      if id in c {
        return Success(c[id]);
      }
      return Failure(ChannelNotFound);
    }

    method Send(name: string, args: map<string, string>, a: Attempt) returns (reqId: string, err: Option<ClientError>)
      requires a.id !in c
      modifies this
      ensures var r := AfterSend(old(State()), name, args, a);
        State() == r.state && reqId == r.reqId && err == r.err
    {
      var slot := Slot(nextSerial);
      nextSerial := nextSerial + 1;
      AddChannel(a.id, slot);
      transmitted := transmitted + [MethodRequest(a.id, name, args)];
      match a.outcome
      case TransmitErr(e) =>
        RemoveChannel(a.id);
        return "", Some(TransmitFailed(e));
      case TransmitOk =>
        return a.id, None;
    }

    method Auth(a: Attempt) returns (err: Option<ClientError>)
      requires a.id !in c
      modifies this
      ensures (State(), err) == AfterAuth(old(State()), Creds(), a)
    {
      var reqId, e := Send(MethodAuth, AuthArgs(Creds()), a);
      if e.Some? {
        return e;
      }
      waiters := waiters + [reqId];
      return None;
    }

    method Subscribe(symbol: string, a: Attempt) returns (reqId: string, err: Option<ClientError>)
      requires a.id !in c
      modifies this
      ensures var r := AfterSubscribe(old(State()), symbol, a);
        State() == r.state && reqId == r.reqId && err == r.err
    {
      reqId, err := Send(MethodExecutions, SubscribeArgs(symbol), a);
      if err.Some? {
        return "", err;
      }
    }

    method HandleStatusResponse(id: string, w: WaitOutcome)
      modifies this
      ensures State() == AfterWait(old(State()), id, w)
    {
      var r := GetChannel(id);
      if r.Failure? {
        events := events + [OnError(r.error)];
        events := events + [OnError(ContextEnd(id))];
        return;
      }
      match w
      case Deadline => events := events + [OnError(ContextEnd(id))];
      case Received(st) => events := events + [OnStatus(st)];
    }

    method Listen(inbound: seq<Message>, attempts: seq<Attempt>) returns (err: ClientError)
      requires ExpiringCount(inbound) <= |attempts|
      requires FreshIds(attempts, c.Keys)
      modifies this
      ensures err == ConnClosed
      ensures State() == AfterListen(old(State()), Creds(), inbound, attempts)
    {
      var i, k := 0, 0;
      while i < |inbound|
        invariant 0 <= i <= |inbound| && 0 <= k <= |attempts|
        invariant ExpiringCount(inbound[i..]) <= |attempts| - k
        invariant FreshIds(attempts[k..], c.Keys)
        invariant AfterListen(State(), Creds(), inbound[i..], attempts[k..])
               == AfterListen(old(State()), Creds(), inbound, attempts)
      {
        var m := inbound[i];
        assert inbound[i..][0] == m && inbound[i..][1..] == inbound[i + 1..];
        if Contains(m.raw, MethodKey) {
          match m.asResponse
          case Failure(e) =>
            events := events + [OnError(ResponseUnmarshal(e))];
          case Success(res) =>
            if res.methodName == MethodAuthExpiring {
              assert attempts[k..][0] == attempts[k] && attempts[k..][1..] == attempts[k + 1..];
              ghost var keys := c.Keys;
              var authErr := Auth(attempts[k]);
              if authErr.Some? {
                events := events + [OnError(AuthFailed(authErr.value))];
              }
              FreshIdsRest(attempts[k..], keys, c.Keys);
              k := k + 1;
            } else {
              events := events + [OnResponse(res)];
            }
        } else {
          match m.asStatus
          case Failure(e) =>
            events := events + [OnError(StatusUnmarshal(e))];
          case Success(st) =>
            events := events + [OnStatus(st)];
        }
        i := i + 1;
      }
      return ConnClosed;
    }
  }
}
