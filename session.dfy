/**
 * The client wired to the mock server as main.go does it: the client's transport is the
 * writer's `Send`, whose answer becomes the outcome of the client's `send`, and the client
 * is configured with login "foo" and password "bar". The request ids stand for the uuids.
 */
module Session {
  import opened Wrappers
  import opened Entity
  import Client
  import Server

  /** The login request the client builds passes the server's check exactly when the
      client was configured with the server's credentials. */
  lemma LoginAccepted(id: string, creds: Client.Credentials)
    ensures Server.AuthCheck(MethodRequest(id, MethodAuth, Client.AuthArgs(creds))) == None
        <==> creds == Client.Credentials("foo", "bar")
  {
  }

  /** What the client's send function reports for the writer's answer: `ErrDisconnected`
      reaches the client as a transport error carrying its text. */
  function Outcome(err: Option<Server.ServerError>): Client.Transmit
  {
    if err == None then Client.TransmitOk else Client.TransmitErr("disconnected")
  }

  /** One call through the wire: the writer answers the request the client is about to
      hand over, and the client's `Auth` is given the writer's answer as its transport's. */
  method CallAuth(cl: Client.Client, w: Server.Writer, id: string, now: int) returns (err: Option<Client.ClientError>)
    requires id !in cl.c && w.Valid()
    modifies cl, w
    ensures w.Valid()
    ensures var req := MethodRequest(id, MethodAuth, Client.AuthArgs(cl.Creds()));
      && cl.transmitted == old(cl.transmitted) + [req]
      && (err == None <==> !old(w.cancelled))
      && (!old(w.cancelled) ==> match Server.AuthCheck(req)
          case None => w.auth == Server.AuthState(true, now) && w.out == old(w.out) + [Server.OutStatus(StatusResponse(id, true, ""))]
          case Some(e) => w.auth == old(w.auth) && w.out == old(w.out) + [Server.OutStatus(StatusResponse(id, false, e.Text()))])
    ensures w.subscribed == old(w.subscribed) && w.streams == old(w.streams) && w.cancelled == old(w.cancelled)
    ensures old(w.cancelled) ==> w.out == old(w.out) && w.auth == old(w.auth)
    ensures cl.c.Keys == old(cl.c.Keys) + (if err == None then {id} else {})
  {
    var req := MethodRequest(id, MethodAuth, Client.AuthArgs(cl.Creds()));
    var e := w.Send(req, now);
    err := cl.Auth(Client.Attempt(id, Outcome(e)));
  }

  /** `Subscribe(symbol)` through the wire. */
  method CallSubscribe(cl: Client.Client, w: Server.Writer, symbol: string, id: string, now: int)
    returns (reqId: string, err: Option<Client.ClientError>)
    requires id !in cl.c && w.Valid()
    modifies cl, w
    ensures w.Valid()
    ensures cl.transmitted == old(cl.transmitted) + [MethodRequest(id, MethodExecutions, Client.SubscribeArgs(symbol))]
    ensures err == None <==> !old(w.cancelled)
    ensures err == None ==> reqId == id
    ensures w.auth == old(w.auth) && w.cancelled == old(w.cancelled)
    ensures old(w.cancelled) ==> w.out == old(w.out) && w.subscribed == old(w.subscribed) && w.streams == old(w.streams)
    ensures !old(w.cancelled) ==>
      if symbol in old(w.subscribed) then
        && w.out == old(w.out) + [Server.OutStatus(StatusResponse(id, false, Server.AlreadySubscribedError))]
        && w.subscribed == old(w.subscribed) && w.streams == old(w.streams)
      else if !old(w.auth.authorized) then
        && w.out == old(w.out) + [Server.OutStatus(StatusResponse(id, false, Server.NoAuthError))]
        && w.subscribed == old(w.subscribed) && w.streams == old(w.streams)
      else
        && w.out == old(w.out) + [Server.OutStatus(StatusResponse(id, true, ""))]
        && w.subscribed == old(w.subscribed) + {symbol} && w.streams == old(w.streams) + [symbol]
    ensures cl.c.Keys == old(cl.c.Keys) + (if err == None then {id} else {})
  {
    var req := MethodRequest(id, MethodExecutions, Client.SubscribeArgs(symbol));
    assert Arg(req.args, "symbol") == symbol;
    var e := w.Send(req, now);
    reqId, err := cl.Subscribe(symbol, Client.Attempt(id, Outcome(e)));
  }

  /** main.go up to `Listen`: log in, then subscribe to "BTC/USDT". Both calls succeed, the
      server receives exactly what the client transmitted, accepts both and starts one stream. */
  method RunUntilListen(now: int)
    returns (sent: seq<MethodRequest>, out: seq<Server.OutMsg>, streams: seq<string>, subId: string)
    ensures sent == [
      MethodRequest("req-1", MethodAuth, map["login" := "foo", "password" := "bar"]),
      MethodRequest("req-2", MethodExecutions, map["symbol" := "BTC/USDT"])]
    ensures out == [
      Server.OutStatus(StatusResponse("req-1", true, "")),
      Server.OutStatus(StatusResponse("req-2", true, ""))]
    ensures streams == ["BTC/USDT"]
    ensures subId == "req-2"
  {
    var w := new Server.Writer();
    var cl := new Client.Client("foo", "bar");
    LoginAccepted("req-1", cl.Creds());
    var authErr := CallAuth(cl, w, "req-1", now);
    var subErr;
    subId, subErr := CallSubscribe(cl, w, "BTC/USDT", "req-2", now);
    sent, out, streams := cl.transmitted, w.out, w.streams;
  }

  /** A second subscribe to the same symbol: the client's call still succeeds, since the
      transport accepted it, but the server answers "already subscribed" and starts no
      second stream. */
  method SubscribeTwice(now: int)
    returns (out: seq<Server.OutMsg>, streams: seq<string>, firstErr: Option<Client.ClientError>, againErr: Option<Client.ClientError>)
    ensures firstErr == None && againErr == None
    ensures out == [
      Server.OutStatus(StatusResponse("req-1", true, "")),
      Server.OutStatus(StatusResponse("req-2", true, "")),
      Server.OutStatus(StatusResponse("req-3", false, Server.AlreadySubscribedError))]
    ensures streams == ["BTC/USDT"]
  {
    var w := new Server.Writer();
    var cl := new Client.Client("foo", "bar");
    LoginAccepted("req-1", cl.Creds());
    var authErr := CallAuth(cl, w, "req-1", now);
    var id;
    id, firstErr := CallSubscribe(cl, w, "BTC/USDT", "req-2", now);
    id, againErr := CallSubscribe(cl, w, "BTC/USDT", "req-3", now);
    out, streams := w.out, w.streams;
  }

  /** A subscribe before any login: the transport accepts it, so the client reports no
      error, but the server refuses it with the authorization error and starts no stream. */
  method SubscribeBeforeLogin(now: int) returns (out: seq<Server.OutMsg>, streams: seq<string>, err: Option<Client.ClientError>)
    ensures err == None
    ensures out == [Server.OutStatus(StatusResponse("req-1", false, Server.NoAuthError))]
    ensures streams == []
  {
    var w := new Server.Writer();
    var cl := new Client.Client("foo", "bar");
    var id;
    id, err := CallSubscribe(cl, w, "BTC/USDT", "req-1", now);
    out, streams := w.out, w.streams;
  }
}
