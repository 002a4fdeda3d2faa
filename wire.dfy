/** The records exchanged over the tunnel (declared in pkg/server and shared
    with the agent) and the handles the relay keeps for them. */
module Wire {
  import opened Http

  /** uuid.UUID: the correlation id of one relayed request. */
  datatype Uuid = Uuid(bytes: seq<byte>)

  /** ForwardRequest: what the relay sends down the tunnel for one inbound
      request (its Method field is `verb` here). `proto` exists in the record
      but is never filled in. */
  datatype ForwardRequest = ForwardRequest(
    id: Uuid,
    header: Header,
    uri: Url,
    body: seq<byte>,
    verb: string,
    proto: string)

  /** Response: what the agent sends back, echoing the request's id. */
  datatype Response = Response(id: Uuid, headers: Header, status: int, body: seq<byte>)

  /** A *websocket.Conn: only its identity and presence matter here. */
  class Conn {
    constructor () {}
  }

  /** A `chan *Response` made for one waiting request. */
  class ResponseChan {
    constructor () {}
  }

  /** WriteJSON on one side followed by ReadJSON on the other: the receiver
      gets a deep copy of the record, with a URL object of its own. */
  method Transmit(fr: ForwardRequest) returns (copy: ForwardRequest)
    ensures fresh(copy.uri)
    ensures copy.uri.scheme == fr.uri.scheme && copy.uri.host == fr.uri.host
    ensures copy.uri.path == fr.uri.path && copy.uri.rawQuery == fr.uri.rawQuery
    ensures copy == fr.(uri := copy.uri)
  {
    var uri := new Url(fr.uri.scheme, fr.uri.host, fr.uri.path, fr.uri.rawQuery);
    copy := fr.(uri := uri);
  }
}
