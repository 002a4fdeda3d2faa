/** The public side of the tunnel (pkg/server): the server that accepts the
    agent's connection, forwards each inbound HTTP request down it and
    correlates the answers by id. */
module Relay {
  import opened Http
  import opened Wire

  /** What one call of handleWebsocketResponse does with one incoming message. */
  datatype Delivery =
    | ReadFailed(msg: string)
      // the response went to the handler blocked receiving on the channel
      // registered for its id
    | Delivered(ch: ResponseChan, response: Response)
      // no handler receives on the channel for the id (none is registered, so
      // the channel is nil, or its handler has already returned): the send
      // blocks the receive loop for good
    | Stuck(response: Response)

  /** `m` is what adding every value of `src` to `dst` gives: each key keeps
      its old values and gains those of `src` after them, in their order. A
      key of `src` with no values adds nothing, not even the key. */
  ghost predicate Merged(m: Header, dst: Header, src: Header)
  {
    && (forall k :: Values(m, k) == Values(dst, k) + Values(src, k))
    && (forall k :: k in m <==> k in dst || Values(src, k) != [])
  }

  /** The inner loop of copyHeader: Add each of `vv` under `k`, in order. */
  method AddValues(h: Header, k: string, vv: seq<string>) returns (out: Header)
    ensures Values(out, k) == Values(h, k) + vv
    ensures forall x | x != k :: Values(out, x) == Values(h, x)
    ensures forall x :: x in out <==> x in h || (x == k && vv != [])
  {
    out := h;
    var i := 0;
    while i < |vv|
      invariant 0 <= i <= |vv|
      invariant Values(out, k) == Values(h, k) + vv[..i]
      invariant forall x | x != k :: Values(out, x) == Values(h, x)
      invariant forall x :: x in out <==> x in h || (x == k && i > 0)
    {
      assert vv[..i + 1] == vv[..i] + [vv[i]];
      out := Add(out, k, vv[i]);
      i := i + 1;
    }
    assert vv[..i] == vv;
  }

  /** copyHeader: for each key of `src`, in whatever order the map yields
      them, Add each of its values to `dst`. The outcome does not depend on
      that order. */
  method CopyHeader(dst: Header, src: Header) returns (out: Header)
    ensures Merged(out, dst, src)
  {
    out := dst;
    var todo := src.Keys;
    while todo != {}
      invariant todo <= src.Keys
      invariant forall x :: Values(out, x) == Values(dst, x) + (if x in todo then [] else Values(src, x))
      invariant forall x :: x in out <==> x in dst || (x !in todo && Values(src, x) != [])
      decreases todo
    {
      var k :| k in todo;
      assert Values(out, k) == Values(dst, k);
      out := AddValues(out, k, src[k]);
      assert Values(out, k) == Values(dst, k) + Values(src, k);
      todo := todo - {k};
    }
  }

  /** Server: the relay's state. `websocket` is the agent's connection, null
      until one has been accepted; `pendingRequests` maps the id of every
      registered request to the channel made for it.

      The rest is the state of those channels and of the goroutines using
      them. A handler suspends at its receive (server.go line 142), so a
      request is handled in two steps, MainHandler and MainHandlerResume,
      between which the receive loop may run. `waiting` holds the channels a
      handler is blocked receiving on; `handed` the response a completed send
      passed to such a handler; `readerBlocked` records that the receive
      loop started by the latest upgrade is stuck in a send that nobody
      takes. Each turn of a loop reads the stored connection, whichever it is
      by then. `owner` records, for every channel ever made, the id of the
      request whose handler made it, and so the id that handler deletes. */
  class Server {
    var port: int
    var websocket: Conn?
    var pendingRequests: map<Uuid, ResponseChan>
    var waiting: set<ResponseChan>
    var handed: map<ResponseChan, Response>
    var readerBlocked: bool
    ghost var owner: map<ResponseChan, Uuid>

    /** Every channel registered under an id was made by that id's request,
        so it belongs to that id only; a handler is either still waiting or
        has been handed its response. */
    ghost predicate Valid()
      reads this
    {
      && (forall id | id in pendingRequests ::
            pendingRequests[id] in owner && owner[pendingRequests[id]] == id)
      && waiting !! handed.Keys
    }

    /** No two ids share a channel. */
    lemma ChannelsExclusive(a: Uuid, b: Uuid)
      requires Valid() && a in pendingRequests && b in pendingRequests && a != b
      ensures pendingRequests[a] != pendingRequests[b]
    {
    }

    /** NewServer: no connection yet and nothing pending. */
    constructor (port: int)
      ensures Valid()
      ensures this.port == port && websocket == null && pendingRequests == map[]
      ensures waiting == {} && handed == map[] && !readerBlocked && owner == map[]
    {
      this.port := port;
      websocket := null;
      pendingRequests := map[];
      waiting := {};
      handed := map[];
      readerBlocked := false;
      owner := map[];
    }

    /** websocketHandler up to the point where it starts reading responses:
        a successful upgrade replaces the stored connection and starts a new
        receive loop; the pending requests are left as they are. */
    method WebsocketHandler(upgrade: Result<Conn>)
      requires Valid()
      modifies this
      ensures Valid()
      ensures websocket == if upgrade.Ok? then upgrade.value else old(websocket)
      ensures readerBlocked == if upgrade.Ok? then false else old(readerBlocked)
      ensures pendingRequests == old(pendingRequests) && port == old(port)
      ensures waiting == old(waiting) && handed == old(handed) && owner == old(owner)
    {
      if upgrade.Err? {
        return;
      }
      websocket := upgrade.value;
      readerBlocked := false;
    }

    /** handleWebsocketResponse, given what ReadJSON on the stored connection
        produced (a receive loop exists only once a connection has been
        stored): send the
        response on the channel registered for its id. The send completes
        only when that channel's handler is blocked receiving on it; then the
        handler has the response. Otherwise the loop is stuck. Only the
        response's own id is looked up, and the map is never changed. */
    method HandleWebsocketResponse(received: Result<Response>) returns (d: Delivery)
      requires Valid() && websocket != null && !readerBlocked
      modifies this
      ensures Valid()
      ensures pendingRequests == old(pendingRequests) && owner == old(owner)
      ensures port == old(port) && websocket == old(websocket)
      ensures received.Err? ==> d == ReadFailed(received.msg)
      ensures received.Ok? && received.value.id in pendingRequests
                && pendingRequests[received.value.id] in old(waiting) ==>
                d == Delivered(pendingRequests[received.value.id], received.value)
      ensures received.Ok? && (received.value.id !in pendingRequests
                || pendingRequests[received.value.id] !in old(waiting)) ==>
                d == Stuck(received.value)
      ensures d.Delivered? ==>
                && waiting == old(waiting) - {d.ch}
                && handed == old(handed)[d.ch := d.response]
                && !readerBlocked
                && forall id | id in pendingRequests && pendingRequests[id] == d.ch :: id == d.response.id
      ensures !d.Delivered? ==> waiting == old(waiting) && handed == old(handed)
      ensures readerBlocked <==> d.Stuck?
    {
      if received.Err? {
        return ReadFailed(received.msg);
      }
      var response := received.value;
      if response.id !in pendingRequests || pendingRequests[response.id] !in waiting {
        readerBlocked := true;
        return Stuck(response);
      }
      var originalRequest := pendingRequests[response.id];
      waiting := waiting - {originalRequest};
      handed := handed[originalRequest := response];
      d := Delivered(originalRequest, response);
    }

    /** mainHandler for one inbound request `r`, up to its wait. `newId` is
        the fresh id uuid.New draws and `sendOk` whether WriteJSON
        succeeded. `forwarded` is the record WriteJSON was given, whether or
        not the send then failed. When the request has been sent, the handler
        is left blocked on the returned channel, and MainHandlerResume
        carries on. */
    method MainHandler(w: ResponseWriter, r: HttpRequest, newId: Uuid, sendOk: bool)
      returns (wait: Option<ResponseChan>, forwarded: Option<ForwardRequest>)
      requires Valid() && w.status.None?
      modifies this, w
      ensures Valid()
      ensures port == old(port) && websocket == old(websocket) && readerBlocked == old(readerBlocked)
      ensures handed == old(handed)
      ensures wait.None? ==> waiting == old(waiting)
      // the record sent down the tunnel is prepareRequest's, carrying newId,
      // the id its channel is registered under
      ensures forwarded.Some? <==> old(websocket) != null && r.body.Intact?
      ensures forwarded.Some? ==>
                && forwarded.value == Server.PrepareRequest(r, newId).value
                && forwarded.value.id == newId
                && newId in pendingRequests && fresh(pendingRequests[newId])
                && owner == old(owner)[pendingRequests[newId] := newId]
      ensures forwarded.None? ==> owner == old(owner)
      // no connection: 502, nothing read, nothing registered
      ensures old(websocket) == null ==>
                && wait.None?
                && w.status == Some(502) && w.header == old(w.header) && w.body == old(w.body)
                && pendingRequests == old(pendingRequests)
      // the body cannot be read: 500, nothing registered
      ensures old(websocket) != null && r.body.Broken? ==>
                && wait.None?
                && w.status == Some(500) && w.header == old(w.header) && w.body == old(w.body)
                && pendingRequests == old(pendingRequests)
      // the send fails: 502, and the entry registered for newId stays behind
      // with no handler receiving on its channel
      ensures old(websocket) != null && r.body.Intact? && !sendOk ==>
                && wait.None?
                && w.status == Some(502) && w.header == old(w.header) && w.body == old(w.body)
                && newId in pendingRequests && fresh(pendingRequests[newId])
                && pendingRequests == old(pendingRequests)[newId := pendingRequests[newId]]
      // the request is sent: its fresh channel is registered and waited on,
      // and nothing has been written to the client yet
      ensures old(websocket) != null && r.body.Intact? && sendOk ==>
                && wait.Some? && fresh(wait.value)
                && pendingRequests == old(pendingRequests)[newId := wait.value]
                && waiting == old(waiting) + {wait.value}
                && w.status == old(w.status) && w.header == old(w.header) && w.body == old(w.body)
    {
      if websocket == null {
        w.WriteHeader(502);
        return None, None;
      }
      var forwardRequest := PrepareRequest(r, newId);
      if forwardRequest.Err? {
        w.WriteHeader(500);
        return None, None;
      }
      var responseChan := new ResponseChan();
      pendingRequests := pendingRequests[forwardRequest.value.id := responseChan];
      owner := owner[responseChan := forwardRequest.value.id];
      forwarded := Some(forwardRequest.value);
      if !sendOk {
        w.WriteHeader(502);
        return None, forwarded;
      }
      waiting := waiting + {responseChan};
      wait := Some(responseChan);
    }

    /** mainHandler from its wait on: once a response has been handed to the
        handler on `responseChan`, render its status, headers and body to the
        client, then delete the entry of the request whose handler made the
        channel. */
    method MainHandlerResume(w: ResponseWriter, forwardId: Uuid, responseChan: ResponseChan)
      requires Valid() && responseChan in handed && w.status.None?
      requires responseChan in owner && owner[responseChan] == forwardId
      modifies this, w
      ensures Valid() && owner == old(owner)
      ensures port == old(port) && websocket == old(websocket) && readerBlocked == old(readerBlocked)
      ensures waiting == old(waiting) && handed == old(handed) - {responseChan}
      ensures w.status == Some(old(handed)[responseChan].status)
      ensures Merged(w.header, old(w.header), old(handed)[responseChan].headers)
      ensures w.body == old(w.body) + old(handed)[responseChan].body
      ensures pendingRequests == old(pendingRequests) - {forwardId}
    {
      var response := handed[responseChan];
      handed := handed - {responseChan};
      w.header := CopyHeader(w.header, response.headers);
      w.WriteHeader(response.status);
      w.Write(response.body);
      pendingRequests := pendingRequests - {forwardId};
    }

    /** prepareRequest: read the whole body and build the record to forward.
        The record shares the request's URL object and copies its header. */
    static function PrepareRequest(r: HttpRequest, newId: Uuid): (res: Result<ForwardRequest>)
      ensures res.Ok? <==> r.body.Intact?
      ensures res.Ok? ==>
                && res.value.id == newId
                && res.value.verb == r.verb
                && res.value.uri == r.url
                && res.value.header == r.header
                && res.value.body == r.body.bytes
                && res.value.proto == ""
    {
      var body := ReadAll(r.body);
      if body.Err? then Err("failed to read body from request: " + body.msg)
      else Ok(ForwardRequest(newId, r.header, r.url, body.value, r.verb, ""))
    }
  }
}
