/**
 * What the dispatch loop of client/client.go guarantees, stated about the pure
 * specification `AfterListen` / `ListenEvents` that the `Client.Listen` method is proved against.
 */
module ClientProperties {
  import opened Wrappers
  import opened Entity
  import opened Client

  /** The payloads handed to the response handler, in order. */
  function Responses(evs: seq<Event>): seq<MethodResponse>
  {
    if evs == [] then [] else (if evs[0].OnResponse? then [evs[0].res] else []) + Responses(evs[1..])
  }

  /** The statuses handed to the status handler, in order. */
  function Statuses(evs: seq<Event>): seq<StatusResponse>
  {
    if evs == [] then [] else (if evs[0].OnStatus? then [evs[0].st] else []) + Statuses(evs[1..])
  }

  /** The errors handed to the error handler, in order. */
  function Errors(evs: seq<Event>): seq<ClientError>
  {
    if evs == [] then [] else (if evs[0].OnError? then [evs[0].err] else []) + Errors(evs[1..])
  }

  /** The errors an inbound sequence should raise, in order: one per message that does not
      decode (as a push if it carries the method key, as a status otherwise) and one per
      expiry notice whose re-authentication the transport refused. */
  function Failures(inbound: seq<Message>, attempts: seq<Attempt>): seq<ClientError>
    requires ExpiringCount(inbound) <= |attempts|
    decreases |inbound|
  {
    if inbound == [] then []
    else
      var m := inbound[0];
      if Contains(m.raw, MethodKey) then
        match m.asResponse
        case Failure(e) => [ResponseUnmarshal(e)] + Failures(inbound[1..], attempts)
        case Success(res) =>
          if res.methodName != MethodAuthExpiring then Failures(inbound[1..], attempts)
          else
            (match attempts[0].outcome
             case TransmitErr(e) => [AuthFailed(TransmitFailed(e))]
             case TransmitOk => [])
            + Failures(inbound[1..], attempts[1..])
      else
        match m.asStatus
        case Failure(e) => [StatusUnmarshal(e)] + Failures(inbound[1..], attempts)
        case Success(_) => Failures(inbound[1..], attempts)
  }

  /** The decoded pushes of an inbound sequence that are not expiry notices, in order. */
  function Pushes(inbound: seq<Message>): (r: seq<MethodResponse>)
    ensures forall i :: 0 <= i < |r| ==> r[i].methodName != MethodAuthExpiring
  {
    if inbound == [] then []
    else (match Classify(inbound[0]) case Push(res) => [res] case _ => []) + Pushes(inbound[1..])
  }

  /** The decoded statuses of an inbound sequence, in order. */
  function Acks(inbound: seq<Message>): seq<StatusResponse>
  {
    if inbound == [] then []
    else (match Classify(inbound[0]) case Ack(st) => [st] case _ => []) + Acks(inbound[1..])
  }

  /** The login requests a run of re-authentications hands to the transport. */
  function AuthRequests(creds: Credentials, attempts: seq<Attempt>): seq<MethodRequest>
  {
    if attempts == [] then []
    else [MethodRequest(attempts[0].id, MethodAuth, AuthArgs(creds))] + AuthRequests(creds, attempts[1..])
  }

  /** The ids of the attempts the transport accepted. */
  function OkIds(attempts: seq<Attempt>): set<string>
  {
    if attempts == [] then {}
    else (if attempts[0].outcome.TransmitOk? then {attempts[0].id} else {}) + OkIds(attempts[1..])
  }

  lemma {:induction false} ResponsesAppend(a: seq<Event>, b: seq<Event>)
    ensures Responses(a + b) == Responses(a) + Responses(b)
  {
    if a == [] {
      assert a + b == b;
    } else {
      assert (a + b)[0] == a[0] && (a + b)[1..] == a[1..] + b;
      ResponsesAppend(a[1..], b);
    }
  }

  lemma {:induction false} StatusesAppend(a: seq<Event>, b: seq<Event>)
    ensures Statuses(a + b) == Statuses(a) + Statuses(b)
  {
    if a == [] {
      assert a + b == b;
    } else {
      assert (a + b)[0] == a[0] && (a + b)[1..] == a[1..] + b;
      StatusesAppend(a[1..], b);
    }
  }

  /** The handler calls of `Listen` do not depend on the registry: they are `ListenEvents`. */
  lemma {:induction false} ListenTrace(s: ClientState, creds: Credentials, inbound: seq<Message>, attempts: seq<Attempt>)
    requires ExpiringCount(inbound) <= |attempts|
    ensures AfterListen(s, creds, inbound, attempts).events == s.events + ListenEvents(inbound, attempts)
    decreases |inbound|
  {
    if inbound != [] {
      var k := Classify(inbound[0]);
      if k.ExpiryNotice? {
        var t := AfterReauth(s, creds, attempts[0]);
        assert t.events == s.events + ReauthEvents(attempts[0]);
        ListenTrace(t, creds, inbound[1..], attempts[1..]);
      } else {
        ListenTrace(s.(events := s.events + [HandlerEvent(k)]), creds, inbound[1..], attempts);
      }
    }
  }

  /** Every push other than an expiry notice reaches the response handler exactly once, in input order. */
  lemma {:induction false} ListenResponses(inbound: seq<Message>, attempts: seq<Attempt>)
    requires ExpiringCount(inbound) <= |attempts|
    ensures Responses(ListenEvents(inbound, attempts)) == Pushes(inbound)
    decreases |inbound|
  {
    if inbound != [] {
      var k := Classify(inbound[0]);
      if k.ExpiryNotice? {
        ResponsesAppend(ReauthEvents(attempts[0]), ListenEvents(inbound[1..], attempts[1..]));
        ListenResponses(inbound[1..], attempts[1..]);
      } else {
        ResponsesAppend([HandlerEvent(k)], ListenEvents(inbound[1..], attempts));
        ListenResponses(inbound[1..], attempts);
      }
    }
  }

  /** Every message without the method key that decodes as a status reaches the status
      handler exactly once, in input order; nothing else does. */
  lemma {:induction false} ListenStatuses(inbound: seq<Message>, attempts: seq<Attempt>)
    requires ExpiringCount(inbound) <= |attempts|
    ensures Statuses(ListenEvents(inbound, attempts)) == Acks(inbound)
    decreases |inbound|
  {
    if inbound != [] {
      var k := Classify(inbound[0]);
      if k.ExpiryNotice? {
        StatusesAppend(ReauthEvents(attempts[0]), ListenEvents(inbound[1..], attempts[1..]));
        ListenStatuses(inbound[1..], attempts[1..]);
      } else {
        StatusesAppend([HandlerEvent(k)], ListenEvents(inbound[1..], attempts));
        ListenStatuses(inbound[1..], attempts);
      }
    }
  }

  lemma {:induction false} ErrorsAppend(a: seq<Event>, b: seq<Event>)
    ensures Errors(a + b) == Errors(a) + Errors(b)
  {
    if a == [] {
      assert a + b == b;
    } else {
      assert (a + b)[0] == a[0] && (a + b)[1..] == a[1..] + b;
      ErrorsAppend(a[1..], b);
    }
  }

  /** The error handler receives exactly one error per undecodable message and one per
      refused re-authentication, in input order, and nothing else. */
  lemma {:induction false} ListenErrors(inbound: seq<Message>, attempts: seq<Attempt>)
    requires ExpiringCount(inbound) <= |attempts|
    ensures Errors(ListenEvents(inbound, attempts)) == Failures(inbound, attempts)
    decreases |inbound|
  {
    if inbound != [] {
      var k := Classify(inbound[0]);
      if k.ExpiryNotice? {
        ErrorsAppend(ReauthEvents(attempts[0]), ListenEvents(inbound[1..], attempts[1..]));
        ListenErrors(inbound[1..], attempts[1..]);
      } else {
        ErrorsAppend([HandlerEvent(k)], ListenEvents(inbound[1..], attempts));
        ListenErrors(inbound[1..], attempts);
      }
    }
  }

  /** An expiry notice never reaches the response handler. */
  lemma {:induction false} ExpiryNeverReachesResponseHandler(inbound: seq<Message>, attempts: seq<Attempt>)
    requires ExpiringCount(inbound) <= |attempts|
    ensures forall e :: e in ListenEvents(inbound, attempts) && e.OnResponse? ==> e.res.methodName != MethodAuthExpiring
    decreases |inbound|
  {
    if inbound != [] {
      var k := Classify(inbound[0]);
      if k.ExpiryNotice? {
        ExpiryNeverReachesResponseHandler(inbound[1..], attempts[1..]);
      } else {
        ExpiryNeverReachesResponseHandler(inbound[1..], attempts);
      }
    }
  }

  lemma {:induction false} ExpiringCountAppend(a: seq<Message>, b: seq<Message>)
    ensures ExpiringCount(a + b) == ExpiringCount(a) + ExpiringCount(b)
  {
    if a == [] {
      assert a + b == b;
    } else {
      assert (a + b)[0] == a[0] && (a + b)[1..] == a[1..] + b;
      ExpiringCountAppend(a[1..], b);
    }
  }

  // `Used`, `HeadEvents` and `ListenEventsHead` restate the one-message step of
  // `ExpiringCount` and `ListenEvents`; they only keep the proof of `ListenContinues` small.

  /** How many attempts `Listen` uses up on one message. */
  function Used(m: Message): nat
  {
    if Classify(m).ExpiryNotice? then 1 else 0
  }

  /** The handler calls `Listen` makes for one message. */
  function HeadEvents(m: Message, attempts: seq<Attempt>): seq<Event>
    requires Used(m) <= |attempts|
  {
    var k := Classify(m);
    if k.ExpiryNotice? then ReauthEvents(attempts[0]) else [HandlerEvent(k)]
  }

  lemma ListenEventsHead(inbound: seq<Message>, attempts: seq<Attempt>)
    requires inbound != [] && ExpiringCount(inbound) <= |attempts|
    ensures ExpiringCount(inbound) == Used(inbound[0]) + ExpiringCount(inbound[1..])
    ensures ListenEvents(inbound, attempts)
         == HeadEvents(inbound[0], attempts) + ListenEvents(inbound[1..], attempts[Used(inbound[0])..])
  {
    assert attempts[0..] == attempts;
  }

  /** No message stops the loop: what `Listen` does with a later part of the input is
      what it would do with that part alone, a malformed message included. */
  lemma {:induction false} ListenContinues(first: seq<Message>, rest: seq<Message>, attempts: seq<Attempt>)
    requires ExpiringCount(first + rest) <= |attempts|
    ensures ExpiringCount(first + rest) == ExpiringCount(first) + ExpiringCount(rest)
    ensures ListenEvents(first + rest, attempts)
         == ListenEvents(first, attempts) + ListenEvents(rest, attempts[ExpiringCount(first)..])
    decreases |first|
  {
    ExpiringCountAppend(first, rest);
    var whole := first + rest;
    if first == [] {
      assert whole == rest;
    } else {
      assert whole[0] == first[0] && whole[1..] == first[1..] + rest;
      var u := Used(first[0]);
      ListenEventsHead(whole, attempts);
      ListenEventsHead(first, attempts);
      ListenContinues(first[1..], rest, attempts[u..]);
      assert attempts[u..][ExpiringCount(first[1..])..] == attempts[ExpiringCount(first)..];
    }
  }

  /** Each expiry notice makes `Listen` hand exactly one login request, with the configured
      credentials, to the transport; nothing else is transmitted. */
  lemma {:induction false} ListenTransmits(s: ClientState, creds: Credentials, inbound: seq<Message>, attempts: seq<Attempt>)
    requires ExpiringCount(inbound) <= |attempts|
    ensures AfterListen(s, creds, inbound, attempts).transmitted
         == s.transmitted + AuthRequests(creds, attempts[..ExpiringCount(inbound)])
    decreases |inbound|
  {
    var n := ExpiringCount(inbound);
    if inbound == [] {
      assert attempts[..n] == [];
    } else {
      var k := Classify(inbound[0]);
      if k.ExpiryNotice? {
        var t := AfterReauth(s, creds, attempts[0]);
        ListenTransmits(t, creds, inbound[1..], attempts[1..]);
        assert attempts[..n][0] == attempts[0] && attempts[..n][1..] == attempts[1..][..n - 1];
      } else {
        ListenTransmits(s.(events := s.events + [HandlerEvent(k)]), creds, inbound[1..], attempts);
      }
    }
  }

  /** `Listen` never removes a slot: the registry afterwards holds every slot it held before,
      plus one slot for each re-authentication the transport accepted. */
  lemma {:induction false} ListenRegistry(s: ClientState, creds: Credentials, inbound: seq<Message>, attempts: seq<Attempt>)
    requires ExpiringCount(inbound) <= |attempts|
    requires FreshIds(attempts, s.c.Keys)
    ensures AfterListen(s, creds, inbound, attempts).c.Keys == s.c.Keys + OkIds(attempts[..ExpiringCount(inbound)])
    ensures forall id :: id in s.c ==> AfterListen(s, creds, inbound, attempts).c[id] == s.c[id]
    decreases |inbound|
  {
    var n := ExpiringCount(inbound);
    if inbound == [] {
      assert attempts[..n] == [];
    } else {
      var k := Classify(inbound[0]);
      if k.ExpiryNotice? {
        var t := AfterReauth(s, creds, attempts[0]);
        FreshIdsRest(attempts, s.c.Keys, t.c.Keys);
        ListenRegistry(t, creds, inbound[1..], attempts[1..]);
        assert attempts[..n][0] == attempts[0] && attempts[..n][1..] == attempts[1..][..n - 1];
      } else {
        ListenRegistry(s.(events := s.events + [HandlerEvent(k)]), creds, inbound[1..], attempts);
      }
    }
  }
}
