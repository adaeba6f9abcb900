/** The TelegramBot object (src/TelegramBot.cpp), method by method, refining TelegramModel. */
module TelegramBot {
  import opened Notification
  import opened TelegramModel
  import M = HttpsModel
  import H = HttpsClient

  class Client {
    const client: H.Client
    const configured: bool
    const wire: int -> string
    var enabled: bool
    var lastUpdateId: int
    ghost var handled: seq<int>
    ghost var log: seq<int>

    ghost function State(): Bot
      reads this, client
    {
      Bot(client.State(), enabled, configured, wire, lastUpdateId, handled, log)
    }

    ghost predicate Valid()
      reads this, client
    {
      M.Conserved(State().https)
    }

    constructor (configured: bool, wire: int -> string)
      ensures State() == Initial(configured, wire) && Valid() && Exact(State()) && fresh(client)
    {
      client := new H.Client();
      this.configured, this.wire := configured, wire;
      enabled, lastUpdateId := false, 0;
      handled, log := [], [];
    }

    method MakeRequest(request: M.Request)
      modifies client
      ensures State() == old(State()).(https := M.SendAll(old(State()).https, Allowed(old(State()), [request])))
    {
      if enabled && configured {
        client.SendRequest(request);
      }
    }

    method HandleHttpClientIdle()
      modifies client
      ensures State() ==
                old(State()).(https := M.SendAll(old(State()).https, Allowed(old(State()), [Poll(old(State()))])))
    {
      if !enabled {
        return;
      }
      MakeRequest(M.Request(TAG_GET_UPDATES, true, lastUpdateId, wire(lastUpdateId)));
    }

    /** The loop over the updates of one response. */
    method HandleHttpClientResponse(request: M.Request, response: string, answer: Answer)
      modifies this
      ensures State() == HandleResponse(old(State()), request, response, answer)
    {
      if !enabled || response == "" || answer.Garbage? {
        return;
      }
      if request.tag == TAG_GET_UPDATES {
        for i := 0 to |answer.ids|
          invariant State() == HandleUpdates(old(State()), answer.ids[..i])
        {
          assert answer.ids[..i + 1][..i] == answer.ids[..i];
          if answer.ids[i] >= lastUpdateId {
            lastUpdateId := answer.ids[i] + 1;
          }
          handled := handled + [answer.ids[i]];
        }
        assert answer.ids[..|answer.ids|] == answer.ids;
      }
    }

    /** What comes up from the SslClient; a response is handled before its request leaves the queue. */
    method HandleSsl(act: Act, answer: Answer, sends: seq<M.Request>)
      requires Valid() && Enabled(State(), FromSsl(act, answer, sends))
      modifies this, client
      ensures State() == Step(old(State()), FromSsl(act, answer, sends))
    {
      var parsed := enabled && client.response != "" && answer.Updates?;
      var reaction := if parsed && enabled && configured then sends else [];
      if act == Notify(Closed(false)) {
        HandleHttpClientResponse(client.requestQueue[0], client.response, answer);
      }
      client.Dispatch(M.FromSsl(act, reaction));
    }

    /** One event; a tidy bot stays tidy unless start() finds a poll that can still be answered. */
    method Dispatch(e: Event)
      requires Valid() && Enabled(State(), e)
      modifies this, client
      ensures State() == Step(old(State()), e) && Valid()
      ensures old(Tidy(State()) && CleanStart(State(), e)) ==> Tidy(State())
      ensures old(Exact(State()) && SoleStart(State(), e)) ==> Exact(State())
    {
      StepKeeps(State(), e);
      match e {
        case Start =>
          enabled := true;
          HandleHttpClientIdle();
        case Stop =>
          enabled := false;
        case Send(request) =>
          MakeRequest(request);
        case Tick(ready) =>
          var idle := if enabled && configured then [M.Request(TAG_GET_UPDATES, true, lastUpdateId, wire(lastUpdateId))] else [];
          client.Dispatch(M.Timer(ready, idle));
        case FromSsl(act, answer, sends) =>
          HandleSsl(act, answer, sends);
        case Publish(id) =>
          log := log + [id];
      }
    }
  }
}
