/** The relay and the agent put together: what an HTTP client sees of the
    local service once a request has made the trip through the tunnel. */
module Tunnel {
  import opened Http
  import opened Wire
  import opened Relay
  import opened Agent

  /** A request relayed to the agent reaches the local service, when
      http.NewRequest accepts the rewritten request (`newRequestOk`), with the
      same method, path, query, header and body; only the host and scheme now
      point at the local service. */
  method RequestRoundTrip(r: HttpRequest, id: Uuid, localServer: string, scheme: string, newRequestOk: bool)
    returns (local: Result<HttpRequest>)
    ensures local.Ok? <==> r.body.Intact? && newRequestOk
    ensures local.Ok? ==>
              && local.value.verb == (if r.verb == "" then "GET" else r.verb)
              && local.value.url.host == localServer && local.value.url.scheme == scheme
              && local.value.url.path == r.url.path && local.value.url.rawQuery == r.url.rawQuery
              && local.value.header == r.header
              && local.value.body == r.body
  {
    var forwarded := Server.PrepareRequest(r, id);
    if forwarded.Err? {
      return Err(forwarded.msg);
    }
    var received := Transmit(forwarded.value);
    var agent := new Client("", localServer, scheme);
    local := agent.PrepareRequest(received, newRequestOk);
  }

  /** A request relayed over an established tunnel and answered by the local
      service reaches its client with the local status, every local header
      value and the local body, and leaves no entry pending. The relay's
      handler blocks on its channel while the agent answers and the receive
      loop delivers the answer to it. */
  method ResponseRoundTrip(r: HttpRequest, id: Uuid, answer: HttpResponse)
    returns (status: Option<int>, header: Header, body: seq<byte>, pending: nat)
    requires r.body.Intact? && answer.body.Intact?
    ensures status == Some(answer.statusCode)
    ensures forall k :: Values(header, k) == Values(answer.header, k)
    ensures body == answer.body.bytes
    ensures pending == 0
  {
    var relay := new Server(8080);
    var conn := new Conn();
    relay.WebsocketHandler(Ok(conn));
    var w := new ResponseWriter();
    var wait, forwarded := relay.MainHandler(w, r, id, true);
    var ch := wait.value;
    assert forwarded.value.id == id && relay.pendingRequests[id] == ch;
    assert ch in relay.waiting && w.status.None? && w.body == [] && w.header == map[];
    // the agent answers the record it received
    var received := Transmit(forwarded.value);
    var agent := new Client("", "localhost:80", "http");
    var out := agent.DoWebRequest(received, true, Ok(answer));
    assert out.response.id == id;
    Answer(relay, w, ch, out.response);
    status, header, body, pending := w.status, w.header, w.body, |relay.pendingRequests|;
  }

  /** The receive loop reads `answer`, whose id is registered with the
      channel `ch` a handler waits on; that handler then resumes and writes
      the answer to its client. Only the answer's own entry goes. */
  method Answer(relay: Server, w: ResponseWriter, ch: ResponseChan, answer: Response)
    requires relay.Valid() && relay.websocket != null && !relay.readerBlocked
    requires answer.id in relay.pendingRequests && relay.pendingRequests[answer.id] == ch
    requires ch in relay.waiting && w.status.None?
    modifies relay, w
    ensures relay.Valid() && relay.websocket == old(relay.websocket) && !relay.readerBlocked
    ensures relay.owner == old(relay.owner)
    ensures relay.pendingRequests == old(relay.pendingRequests) - {answer.id}
    ensures relay.waiting == old(relay.waiting) - {ch} && relay.handed == old(relay.handed)
    ensures w.status == Some(answer.status) && w.body == old(w.body) + answer.body
    ensures Merged(w.header, old(w.header), answer.headers)
  {
    var d := relay.HandleWebsocketResponse(Ok(answer));
    relay.MainHandlerResume(w, answer.id, ch);
  }

  /** A request with a readable body, sent over an established tunnel: its
      handler registers a fresh channel under `id`, sends the record carrying
      `id` and waits on the channel, having written nothing yet. */
  method Forward(relay: Server, w: ResponseWriter, r: HttpRequest, id: Uuid) returns (ch: ResponseChan)
    requires relay.Valid() && relay.websocket != null && r.body.Intact? && w.status.None?
    modifies relay, w
    ensures relay.Valid() && relay.websocket == old(relay.websocket)
    ensures relay.readerBlocked == old(relay.readerBlocked) && relay.handed == old(relay.handed)
    ensures fresh(ch) && relay.pendingRequests == old(relay.pendingRequests)[id := ch]
    ensures relay.waiting == old(relay.waiting) + {ch}
    ensures w.status == old(w.status) && w.body == old(w.body) && w.header == old(w.header)
  {
    var wait, forwarded := relay.MainHandler(w, r, id, true);
    ch := wait.value;
  }

  /** Two requests in flight at once, answered in the opposite order: each
      answer reaches the handler of its own request, whatever the order. */
  method CrossedAnswersScenario(r1: HttpRequest, r2: HttpRequest, id1: Uuid, id2: Uuid,
                                a1: Response, a2: Response)
    returns (status1: Option<int>, body1: seq<byte>, status2: Option<int>, body2: seq<byte>, pending: nat)
    requires r1.body.Intact? && r2.body.Intact? && id1 != id2
    requires a1.id == id1 && a2.id == id2
    ensures status1 == Some(a1.status) && body1 == a1.body
    ensures status2 == Some(a2.status) && body2 == a2.body
    ensures pending == 0
  {
    var relay := new Server(8080);
    var conn := new Conn();
    relay.WebsocketHandler(Ok(conn));
    var w1 := new ResponseWriter();
    var ch1 := Forward(relay, w1, r1, id1);
    var w2 := new ResponseWriter();
    var ch2 := Forward(relay, w2, r2, id2);
    assert ch1 != ch2 && relay.pendingRequests[id1] == ch1;
    // the second request's answer comes first
    Answer(relay, w2, ch2, a2);
    status2, body2 := w2.status, w2.body;
    Answer(relay, w1, ch1, a1);
    status1, body1 := w1.status, w1.body;
    assert relay.pendingRequests.Keys == {};
    pending := |relay.pendingRequests|;
  }

  /** With no agent connected, every request is answered 502 and nothing is
      registered. */
  method NoTunnelScenario(r: HttpRequest, id: Uuid) returns (status: Option<int>, pending: nat)
    ensures status == Some(502) && pending == 0
  {
    var relay := new Server(0);
    var w := new ResponseWriter();
    var wait, forwarded := relay.MainHandler(w, r, id, true);
    status, pending := w.status, |relay.pendingRequests|;
  }

  /** "my body is over the ocean", as bytes. */
  const oceanBody: seq<byte> :=
    [109, 121, 32, 98, 111, 100, 121, 32, 105, 115, 32, 111, 118, 101, 114, 32,
     116, 104, 101, 32, 111, 99, 101, 97, 110]

  /** The agent's prepareRequest on a GET of http://google.com/mypath with
      local server "local" and scheme "https": the result targets
      https://local/mypath and keeps the method, header and body. */
  method PrepareRequestExample() returns (local: Result<HttpRequest>)
    ensures local.Ok?
    ensures local.value.verb == "GET"
    ensures local.value.url.scheme == "https" && local.value.url.host == "local"
    ensures local.value.url.path == "/mypath" && local.value.url.rawQuery == ""
    ensures local.value.header == map["key" := ["value"]]
    ensures local.value.body == Intact(oceanBody)
  {
    var uri := new Url("http", "google.com", "/mypath", "");
    var forwarded := ForwardRequest(Uuid([]), map["key" := ["value"]], uri, oceanBody, "GET", "");
    var agent := new Client("", "local", "https");
    local := agent.PrepareRequest(forwarded, true);
  }

  /** The agent's prepareResponse on a 500 response with header
      {"key": ["value"]} and body "my body is over the ocean", for the id whose
      first byte is 1: the record echoes all of them. */
  method PrepareResponseExample() returns (r: Result<Response>)
    ensures r == Ok(Response(firstId, map["key" := ["value"]], 500, oceanBody))
  {
    r := Client.PrepareResponse(HttpResponse(500, map["key" := ["value"]], Intact(oceanBody)), firstId);
  }

  /** uuid.UUID{0x01}: sixteen bytes, the first of them 1. */
  const firstId: Uuid := Uuid([1, 0, 0, 0, 0, 0, 0, 0, 0, 0, 0, 0, 0, 0, 0, 0])

  /** A request whose send failed leaves its entry behind, with no handler
      receiving on its channel. A response that then arrives with its id is
      sent on that channel and blocks the receive loop for good, exactly as a
      response with an unknown id does. */
  method LeftoverEntryScenario(r: HttpRequest, id: Uuid, answer: Response)
    returns (status: Option<int>, mine: Delivery, blocked: bool)
    requires r.body.Intact? && answer.id == id
    ensures status == Some(502)
    ensures mine == Stuck(answer) && blocked
  {
    var relay := new Server(0);
    var conn := new Conn();
    relay.WebsocketHandler(Ok(conn));
    var w := new ResponseWriter();
    var wait, forwarded := relay.MainHandler(w, r, id, false);
    mine := relay.HandleWebsocketResponse(Ok(answer));
    status, blocked := w.status, relay.readerBlocked;
  }
}
