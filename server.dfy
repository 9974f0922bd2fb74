/**
 * The mock server of server/server_mock.go: a `Writer` that answers each request with at
 * most one status on its outbound queue, keeps the set of subscribed symbols and the
 * authorization cell, can be cancelled, and on each tick of its expiry timer either does
 * nothing, warns that the authorization is about to expire, or disconnects.
 *
 * Time is an integer number of milliseconds passed in by the caller. The outbound channel
 * is the sequence `out`; the price-streaming task a subscription starts is recorded in
 * `streams` (its ticks are not modelled).
 */
module Server {
  import opened Wrappers
  import opened Entity

  /** `time.Second * 20`: older authorizations get an expiry warning. */
  const ExpiringAfterMs: int := 20000
  /** `time.Minute`: older authorizations are disconnected. */
  const DisconnectAfterMs: int := 60000

  const NoAuthError: string := "this method isn't accesible without authorization"
  const AlreadySubscribedError: string := "already subscribed"

  datatype ServerError = Disconnected

  /** The errors `authCheck` returns, with their texts. */
  datatype CheckError = IncorrectMethod(name: string) | WrongCreds
  {
    function Text(): string
    {
      match this
      case IncorrectMethod(name) => "incorrect method: " + name
      case WrongCreds => "wrong creds"
    }
  }

  /** The `auth` cell; `at` only means something when `authorized` holds. */
  datatype AuthState = AuthState(authorized: bool, at: int)

  /** What the server queues for the client: a status or a push. */
  datatype OutMsg = OutStatus(status: StatusResponse) | OutPush(push: MethodResponse)

  /** `authCheck`: only a login call with login "foo" and password "bar" passes. */
  function AuthCheck(a: MethodRequest): (r: Option<CheckError>)
    ensures r == None <==>
      a.methodName == MethodAuth && Arg(a.args, "login") == "foo" && Arg(a.args, "password") == "bar"
    ensures a.methodName != MethodAuth ==> r == Some(IncorrectMethod(a.methodName))
    ensures r != None ==> r.value.Text() != ""
  {
    if a.methodName != MethodAuth then Some(IncorrectMethod(a.methodName))
    else if Arg(a.args, "login") != "foo" || Arg(a.args, "password") != "bar" then Some(WrongCreds)
    else None
  }

  /** What one tick of `Run` does. */
  datatype TickAction = Idle | WarnExpiring | Disconnect

  function Decide(auth: AuthState, now: int): (d: TickAction)
    ensures d == Disconnect <==> auth.authorized && now - auth.at > DisconnectAfterMs
    ensures d == WarnExpiring <==> auth.authorized && ExpiringAfterMs < now - auth.at <= DisconnectAfterMs
    ensures !auth.authorized ==> d == Idle
  {
    if !auth.authorized then Idle
    else if now - auth.at > DisconnectAfterMs then Disconnect
    else if now - auth.at > ExpiringAfterMs then WarnExpiring
    else Idle
  }

  function Severity(d: TickAction): nat
  {
    match d
    case Idle => 0
    case WarnExpiring => 1
    case Disconnect => 2
  }

  /** With the same authorization, a later tick is never milder than an earlier one:
      once a session would be disconnected it stays so. */
  lemma DecideMonotone(auth: AuthState, earlier: int, later: int)
    requires earlier <= later
    ensures Severity(Decide(auth, earlier)) <= Severity(Decide(auth, later))
  {
  }

  class Writer {
    var out: seq<OutMsg>
    var subscribed: set<string>
    var cancelled: bool
    var auth: AuthState
    var streams: seq<string>

    /** Every subscribed symbol has exactly one streaming task, and every task streams a subscribed symbol. */
    ghost predicate Valid()
      reads this
    {
      && (forall i, j :: 0 <= i < j < |streams| ==> streams[i] != streams[j])
      && (forall sym :: sym in subscribed <==> sym in streams)
    }

    /** `NewWriter`. */
    constructor ()
      ensures Valid()
      ensures out == [] && subscribed == {} && !cancelled && auth == AuthState(false, 0) && streams == []
    {
      out := [];
      subscribed := {};
      cancelled := false;
      auth := AuthState(false, 0);
      streams := [];
    }

    /** `Send`: answer one request at time `now`. */
    method Send(m: MethodRequest, now: int) returns (err: Option<ServerError>)
      requires Valid()
      modifies this
      ensures Valid()
      ensures cancelled == old(cancelled)
      ensures old(cancelled) ==> err == Some(Disconnected) && unchanged(this)
      ensures !old(cancelled) ==> err == None
      ensures |old(out)| <= |out| <= |old(out)| + 1 && out[..|old(out)|] == old(out)
      ensures forall i :: |old(out)| <= i < |out| ==> out[i].OutStatus? && out[i].status.reqId == m.reqId
      ensures !old(cancelled) && m.methodName == MethodExecutions ==>
        var sym := Arg(m.args, "symbol");
        && auth == old(auth)
        && if sym in old(subscribed) then
             && out == old(out) + [OutStatus(StatusResponse(m.reqId, false, AlreadySubscribedError))]
             && subscribed == old(subscribed) && streams == old(streams)
           else if !old(auth.authorized) then
             && out == old(out) + [OutStatus(StatusResponse(m.reqId, false, NoAuthError))]
             && subscribed == old(subscribed) && streams == old(streams)
           else
             && out == old(out) + [OutStatus(StatusResponse(m.reqId, true, ""))]
             && subscribed == old(subscribed) + {sym} && streams == old(streams) + [sym]
      ensures !old(cancelled) && m.methodName == MethodAuth ==>
        && subscribed == old(subscribed) && streams == old(streams)
        && match AuthCheck(m)
           case None =>
             auth == AuthState(true, now) && out == old(out) + [OutStatus(StatusResponse(m.reqId, true, ""))]
           case Some(e) =>
             auth == old(auth) && out == old(out) + [OutStatus(StatusResponse(m.reqId, false, e.Text()))]
      ensures m.methodName != MethodExecutions && m.methodName != MethodAuth ==> unchanged(this)
    {
      if cancelled {
        return Some(Disconnected);
      }
      if m.methodName == MethodExecutions {
        var symbol := Arg(m.args, "symbol");
        if symbol !in subscribed {
          if !auth.authorized {
            out := out + [OutStatus(StatusResponse(m.reqId, false, NoAuthError))];
            return None;
          }
          subscribed := subscribed + {symbol};
          out := out + [OutStatus(StatusResponse(m.reqId, true, ""))];
          streams := streams + [symbol];
          return None;
        }
        out := out + [OutStatus(StatusResponse(m.reqId, false, AlreadySubscribedError))];
      } else if m.methodName == MethodAuth {
        var check := AuthCheck(m);
        if check.None? {
          auth := AuthState(true, now);
          out := out + [OutStatus(StatusResponse(m.reqId, true, ""))];
        } else {
          out := out + [OutStatus(StatusResponse(m.reqId, false, check.value.Text()))];
        }
      } else {
        return None;
      }
      return None;
    }

    /** `Stop`: cancel the writer's context. */
    method Stop()
      requires Valid()
      modifies this
      ensures Valid()
      ensures cancelled
      ensures out == old(out) && subscribed == old(subscribed) && auth == old(auth) && streams == old(streams)
    {
      cancelled := true;
    }

    /** One tick of `Run`'s expiry timer at time `now`; `Some(Disconnected)` means `Run` returns. */
    method Tick(now: int) returns (err: Option<ServerError>)
      requires Valid()
      modifies this
      ensures Valid()
      ensures subscribed == old(subscribed) && auth == old(auth) && streams == old(streams)
      ensures match Decide(old(auth), now)
        case Idle => err == None && out == old(out) && cancelled == old(cancelled)
        case WarnExpiring =>
          && err == None && cancelled == old(cancelled)
          && out == old(out) + [OutPush(MethodResponse(MethodAuthExpiring, map[]))]
        case Disconnect => err == Some(Disconnected) && out == old(out) && cancelled
    {
      var current := auth;
      if !current.authorized {
        return None;
      }
      var elapsed := now - current.at;
      if elapsed > DisconnectAfterMs {
        Stop();
        return Some(Disconnected);
      }
      if elapsed > ExpiringAfterMs {
        out := out + [OutPush(MethodResponse(MethodAuthExpiring, map[]))];
      }
      return None;
    }
  }
}
