/** The HttpsClient object (src/HttpsClient.cpp), method by method, refining HttpsModel. */
module HttpsClient {
  import opened Notification
  import opened HttpsModel

  class Client {
    /** The SslClient below, as far as this client can see it. */
    var ssl: Phase
    var requestQueue: seq<Request>
    var response: string
    ghost var submitted: seq<Request>
    ghost var retired: seq<Retirement>

    ghost function State(): Https
      reads this
    {
      Https(ssl, requestQueue, response, submitted, retired)
    }

    ghost predicate Valid()
      reads this
    {
      Conserved(State())
    }

    constructor ()
      ensures State() == INITIAL && Valid()
    {
      ssl, requestQueue, response := Idle, [], "";
      submitted, retired := [], [];
    }

    method SendRequest(request: Request)
      modifies this
      ensures State() == HttpsModel.SendRequest(old(State()), request)
    {
      requestQueue := requestQueue + [request];
      submitted := submitted + [request];
    }

    /** The requests a handler submits from inside one callback. */
    method SendAll(requests: seq<Request>)
      modifies this
      ensures State() == HttpsModel.SendAll(old(State()), requests)
    {
      for i := 0 to |requests|
        invariant State() == HttpsModel.SendAll(old(State()), requests[..i])
      {
        SendRequest(requests[i]);
        assert requests[..i + 1] == requests[..i] + [requests[i]];
      }
      assert requests[..|requests|] == requests;
    }

    method PopFront(ghost how: Retirement)
      requires requestQueue != []
      modifies this
      ensures State() == Retire(old(State()), how)
    {
      requestQueue := requestQueue[1..];
      response := "";
      retired := retired + [how];
    }

    /** The data of the front request goes to the SslClient, if there is one; returned for the caller to send. */
    method HandleTcpClientConnect() returns (sends: seq<Data>)
      modifies this
      ensures State() == OnOpened(old(State()))
      ensures sends == if requestQueue == [] then [] else [requestQueue[0].text]
    {
      response := "";
      sends := if requestQueue != [] then [requestQueue[0].text] else [];
    }

    /** Handing the response to the handler may submit further requests before the front is popped. */
    method HandleTcpClientDisconnect(byUser: bool, reaction: seq<Request>)
      requires requestQueue != []
      modifies this
      ensures State() == OnClosed(old(State()), byUser, reaction)
    {
      ghost var how := if byUser then Preempted(requestQueue[0]) else Answered(requestQueue[0], response);
      if !byUser {
        SendAll(reaction);
      }
      PopFront(how);
    }

    method HandleTcpClientError(error: Error)
      requires requestQueue != []
      modifies this
      ensures State() == OnFailed(old(State()), error)
    {
      response := "";
      if error == Aborted {
        PopFront(Preempted(requestQueue[0]));
      }
    }

    method HandleTcpClientReceivedData(data: Data)
      modifies this
      ensures State() == OnNote(old(State()), Received(data), [])
    {
      response := response + data;
    }

    /** A live connection always has a front request to look at. */
    method HandleTimerEvent(ready: bool, idle: seq<Request>)
      requires Valid()
      modifies this
      ensures State() == OnTimer(old(State()), ready, idle)
    {
      if ssl.Live? && ssl.mode != Normal {
        return;
      }
      if ssl.Live? {
        if requestQueue[0].longPoll && |response| == 0 {
          ssl := Live(ssl.up, UserClosing);
        }
        return;
      }
      if requestQueue == [] {
        SendAll(idle);
      } else if ready {
        ssl := Live(false, Normal);
      }
    }

    method Dispatch(e: Event)
      requires Valid() && Enabled(State(), e)
      modifies this
      ensures State() == Step(old(State()), e) && Valid()
    {
      StepKeeps(State(), e);
      match e {
        case Submit(r) => SendRequest(r);
        case Timer(ready, idle) => HandleTimerEvent(ready, idle);
        case FromSsl(act, reaction) =>
          var next := Next(false, ssl, act).value;
          if act.Notify? {
            match act.note {
              case Opened => var _ := HandleTcpClientConnect();
              case Closed(byUser) => HandleTcpClientDisconnect(byUser, reaction);
              case Failed(error) => HandleTcpClientError(error);
              case Received(data) => HandleTcpClientReceivedData(data);
            }
          }
          ssl := next;
      }
    }
  }
}
