/** The private side of the tunnel (pkg/client): the agent that receives
    forwarded requests, replays them against the local service and sends the
    answers back. */
module Agent {
  import opened Http
  import opened Wire

  /** What doWebRequest comes back with. */
  datatype WebOutcome =
    | Answered(response: Response)
    | Failed(msg: string)
      // prepareRequest failed; its error is dropped and the nil request it
      // returned reaches the HTTP client, which dereferences it
    | NilRequestPanic

  /** One turn of Run's loop, as the outcomes of the calls it makes: ReadJSON
      (an error, or the record the relay sent, which the turn decodes into a
      copy of its own), whether http.NewRequest accepts the rewritten request,
      the local HTTP call, and WriteJSON. */
  datatype Iteration = Iteration(
    received: Result<ForwardRequest>,
    newRequestOk: bool,
    local: Result<HttpResponse>,
    sendOk: bool)

  /** The turn ends the agent: the request reached the HTTP client as nil. */
  predicate Panics(it: Iteration)
  {
    it.received.Ok? && !it.newRequestOk
  }

  /** The turn produces a response to send. */
  predicate Answers(it: Iteration)
  {
    && it.received.Ok? && it.newRequestOk
    && it.local.Ok? && it.local.value.body.Intact?
  }

  /** The turn's response is sent back down the tunnel. */
  predicate Delivers(it: Iteration)
  {
    Answers(it) && it.sendOk
  }

  /** `sent` holds the responses of the turns before `n` that deliver, in
      turn order: the k-th answers turn `served[k]`, with that turn's
      request id and the local response's content. */
  ghost predicate SentFor(iterations: seq<Iteration>, n: nat, sent: seq<Response>, served: seq<nat>)
    requires n <= |iterations|
  {
    && |sent| == |served|
    && (forall k | 0 <= k < |served| ::
          && served[k] < n
          && Delivers(iterations[served[k]])
          && sent[k].id == iterations[served[k]].received.value.id
          && sent[k] == Client.PrepareResponse(iterations[served[k]].local.value,
                                               iterations[served[k]].received.value.id).value)
    && (forall k, l | 0 <= k < l < |served| :: served[k] < served[l])
    && (forall j | 0 <= j < n && Delivers(iterations[j]) :: j in served)
  }

  /** A turn that does not deliver adds nothing to what has been sent. */
  lemma SkipTurn(iterations: seq<Iteration>, n: nat, sent: seq<Response>, served: seq<nat>)
    requires n < |iterations| && !Delivers(iterations[n])
    requires SentFor(iterations, n, sent, served)
    ensures SentFor(iterations, n + 1, sent, served)
  {
  }

  /** A turn that delivers appends its own response. */
  lemma DeliverTurn(iterations: seq<Iteration>, n: nat, sent: seq<Response>, served: seq<nat>)
    requires n < |iterations| && Delivers(iterations[n])
    requires SentFor(iterations, n, sent, served)
    ensures SentFor(iterations, n + 1,
                    sent + [Client.PrepareResponse(iterations[n].local.value, iterations[n].received.value.id).value],
                    served + [n])
  {
  }

  /** Client: where the tunnel is and which local service to call. */
  class Client {
    const remoteUrl: string
    const localServer: string
    const scheme: string

    constructor (remoteUrl: string, localServer: string, scheme: string)
      ensures this.remoteUrl == remoteUrl && this.localServer == localServer && this.scheme == scheme
    {
      this.remoteUrl := remoteUrl;
      this.localServer := localServer;
      this.scheme := scheme;
    }

    /** prepareRequest: point the forwarded record's URL at the local service
        (in place) and build the local request from it. `newRequestOk` is
        whether http.NewRequest accepts the method and the URL. */
    method PrepareRequest(request: ForwardRequest, newRequestOk: bool) returns (r: Result<HttpRequest>)
      modifies request.uri
      ensures request.uri.host == localServer && request.uri.scheme == scheme
      ensures request.uri.path == old(request.uri.path) && request.uri.rawQuery == old(request.uri.rawQuery)
      ensures r.Ok? <==> newRequestOk
      ensures r.Ok? ==>
                && fresh(r.value.url)
                && r.value.url.host == localServer && r.value.url.scheme == scheme
                && r.value.url.path == old(request.uri.path)
                && r.value.url.rawQuery == old(request.uri.rawQuery)
                && r.value.verb == (if request.verb == "" then "GET" else request.verb)
                && r.value.header == request.header
                && r.value.body == Intact(request.body)
    {
      request.uri.host := localServer;
      request.uri.scheme := scheme;
      if !newRequestOk {
        return Err("creating http.Request from server.ForwardRequest");
      }
      // http.NewRequest parses the URL's string form into a URL of its own
      // and reads an empty method as GET
      var url := new Url(request.uri.scheme, request.uri.host, request.uri.path, request.uri.rawQuery);
      var verb := if request.verb == "" then "GET" else request.verb;
      r := Ok(HttpRequest(verb, url, request.header, Intact(request.body)));
    }

    /** prepareResponse: read the local response's whole body and build the
        record that answers request `id`. */
    static function PrepareResponse(response: HttpResponse, id: Uuid): (r: Result<Response>)
      ensures r.Ok? <==> response.body.Intact?
      ensures r.Ok? ==>
                && r.value.id == id
                && r.value.status == response.statusCode
                && r.value.headers == response.header
                && r.value.body == response.body.bytes
    {
      var body := ReadAll(response.body);
      if body.Err? then Err("failed read body from response: " + body.msg)
      else Ok(Response(id, response.header, response.statusCode, body.value))
    }

    /** doWebRequest: prepare the local request, call the local service
        (whose outcome is `local`) and turn its answer into a response that
        carries the forwarded request's id. */
    method DoWebRequest(forwardRequest: ForwardRequest, newRequestOk: bool, local: Result<HttpResponse>)
      returns (out: WebOutcome)
      modifies forwardRequest.uri
      ensures forwardRequest.uri.host == localServer && forwardRequest.uri.scheme == scheme
      ensures forwardRequest.uri.path == old(forwardRequest.uri.path)
      ensures forwardRequest.uri.rawQuery == old(forwardRequest.uri.rawQuery)
      ensures out.NilRequestPanic? <==> !newRequestOk
      ensures newRequestOk && local.Err? ==> out.Failed?
      ensures newRequestOk && local.Ok? ==> (out.Answered? <==> local.value.body.Intact?)
      ensures out.Answered? ==>
                && local.Ok?
                && out.response == Response(forwardRequest.id, local.value.header,
                                            local.value.statusCode, local.value.body.bytes)
    {
      var request := PrepareRequest(forwardRequest, newRequestOk);
      if request.Err? {
        return NilRequestPanic;
      }
      if local.Err? {
        return Failed("failed to do request: " + local.msg);
      }
      var response := PrepareResponse(local.value, forwardRequest.id);
      if response.Err? {
        return Failed(response.msg);
      }
      out := Answered(response.value);
    }

    /** The loop of Run over the turns `iterations`: a turn whose read, call
        or send fails is skipped, and a turn that panics ends the agent after
        `processed` turns. Each turn decodes the record the relay sent into a
        fresh local of its own, so nothing the caller holds is changed. `sent`
        holds the responses written to the tunnel; the k-th of them answers
        turn `served[k]`. */
    method Run(iterations: seq<Iteration>) returns (sent: seq<Response>, ghost served: seq<nat>, processed: nat)
      ensures processed <= |iterations|
      ensures processed < |iterations| ==> Panics(iterations[processed])
      ensures forall i | 0 <= i < processed :: !Panics(iterations[i])
      ensures SentFor(iterations, processed, sent, served)
    {
      sent, served := [], [];
      var i := 0;
      while i < |iterations|
        invariant 0 <= i <= |iterations|
        invariant forall j | 0 <= j < i :: !Panics(iterations[j])
        invariant SentFor(iterations, i, sent, served)
      {
        var it := iterations[i];
        // a failed read, call or send only skips the turn
        if it.received.Ok? {
          var request := Transmit(it.received.value);
          var response := DoWebRequest(request, it.newRequestOk, it.local);
          if response.NilRequestPanic? {
            processed := i;
            return;
          }
          if response.Answered? && it.sendOk {
            DeliverTurn(iterations, i, sent, served);
            sent, served := sent + [response.response], served + [i];
          } else {
            SkipTurn(iterations, i, sent, served);
          }
        } else {
          SkipTurn(iterations, i, sent, served);
        }
        i := i + 1;
      }
      processed := i;
    }
  }
}
