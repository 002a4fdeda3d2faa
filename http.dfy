/** The parts of Go's net/http and net/url that the tunnel relies on, reduced
    to the behaviour the tunnel observes. */
module Http {

  newtype byte = x: int | 0 <= x < 256

  datatype Option<T> = None | Some(value: T)

  /** A Go `(value, error)` pair: either a value or an error message. */
  datatype Result<T> = Ok(value: T) | Err(msg: string)

  /** http.Header: a key (already in canonical form) mapped to its values, in
      the order they were added. */
  type Header = map<string, seq<string>>

  /** The values stored under `key`; a missing key has none (Header.Values). */
  function Values(h: Header, key: string): seq<string>
  {
    if key in h then h[key] else []
  }

  /** Header.Add: appends one value under `key`, creating the key if needed. */
  function Add(h: Header, key: string, value: string): (r: Header)
    ensures r.Keys == h.Keys + {key}
    ensures Values(r, key) == Values(h, key) + [value]
    ensures forall k | k != key :: Values(r, k) == Values(h, k)
  {
    h[key := Values(h, key) + [value]]
  }

  /** A request or response body as a reader: reading it to the end either
      yields all its bytes or fails. */
  datatype Body = Intact(bytes: seq<byte>) | Broken(reason: string)

  /** ioutil.ReadAll on a body. */
  function ReadAll(b: Body): Result<seq<byte>>
  {
    match b
    case Intact(bytes) => Ok(bytes)
    case Broken(reason) => Err("failed to read body: " + reason)
  }

  /** url.URL, reduced to the fields the tunnel reads or writes. It is an
      object: the relay shares it between the inbound request and the record
      it forwards, and the agent rewrites it in place. */
  class Url {
    var scheme: string
    var host: string
    var path: string
    var rawQuery: string

    constructor (scheme: string, host: string, path: string, rawQuery: string)
      ensures this.scheme == scheme && this.host == host
      ensures this.path == path && this.rawQuery == rawQuery
    {
      this.scheme := scheme;
      this.host := host;
      this.path := path;
      this.rawQuery := rawQuery;
    }
  }

  /** http.Request: method (`verb`), target, header and a body still to be read. */
  datatype HttpRequest = HttpRequest(verb: string, url: Url, header: Header, body: Body)

  /** http.Response as returned by an HTTP client call. */
  datatype HttpResponse = HttpResponse(statusCode: int, header: Header, body: Body)

  /** http.ResponseWriter: the header map handed out by Header(), the status
      fixed by the first WriteHeader, and the body written so far. */
  class ResponseWriter {
    var header: Header
    var status: Option<int>
    var body: seq<byte>

    constructor ()
      ensures header == map[] && status == None && body == []
    {
      header := map[];
      status := None;
      body := [];
    }

    /** Only the first call sets the status; later calls are ignored. */
    method WriteHeader(code: int)
      modifies this
      ensures status == if old(status).None? then Some(code) else old(status)
      ensures header == old(header) && body == old(body)
    {
      if status.None? {
        status := Some(code);
      }
    }

    /** Writing a body without a status first implies status 200. */
    method Write(data: seq<byte>)
      modifies this
      ensures status == if old(status).None? then Some(200) else old(status)
      ensures body == old(body) + data && header == old(header)
    {
      if status.None? {
        status := Some(200);
      }
      body := body + data;
    }
  }
}
