# web-expose tunnel: relay and agent model

web-expose makes a local HTTP service reachable from the internet. A public
**relay** (`pkg/server`) accepts HTTP requests. It also accepts one websocket
connection from an **agent** (`pkg/client`) that runs next to the local
service. For each inbound request, the relay:

1. builds a `ForwardRequest` record under a fresh correlation id;
2. stores a response channel for that id in `pendingRequests`;
3. sends the record down the websocket;
4. waits on the channel.

A receive loop reads `Response` records from the websocket and hands each one
to the channel stored under its id. The handler then renders the response to
its client and deletes the entry.

The agent reads `ForwardRequest` records. It points their URL at the local
service (host and scheme), replays them with an HTTP client and sends back a
`Response` with the same id.

The model is written in Dafny, in five modules:

- `Http` stands in for the parts of `net/http` and `net/url` that the tunnel uses.
  - A header is a map from a key to its ordered values.
  - A body either reads completely or fails.
  - `Url` is an object, because the code shares it and rewrites it in place.
  - `ResponseWriter` records the first status written, the header map and the body.
- `Wire` holds the two tunnel records, the connection and channel handles, and `Transmit`. `Transmit` is the JSON trip over the websocket, which hands the receiver a deep copy, for UTF-8 strings.
- `Relay` models `pkg/server/server.go`. `Server` is a class whose methods update its `websocket` and `pendingRequests` fields.
  - A request handler blocks at its receive on line 142. The model therefore runs it as two steps: `MainHandler` up to the wait and `MainHandlerResume` after it. The receive loop may run in between.
  - Three more fields stand for the channels' runtime state. `waiting` is the set of channels a handler is blocked on. `handed` holds the response a completed send passed to such a handler. `readerBlocked` says that the receive loop is stuck in a send nobody takes. A ghost map `owner` records which request's handler made each channel, so which id that handler deletes.
- `Agent` models `pkg/client/client.go`. The `Client` class holds `PrepareRequest`, `PrepareResponse`, `DoWebRequest` and the loop of `Run`.
- `Tunnel` composes the two sides:
  - a request and its response relayed end to end;
  - two requests in flight whose answers arrive in the opposite order;
  - the three unit tests of the repository;
  - the fate of an entry that is left behind.

What the code obtains from outside becomes an input of the model:

- the fresh id from `uuid.New`;
- the result of reading a body;
- whether `WriteJSON` succeeded;
- the message `ReadJSON` returned;
- the response received at the wait on line 142;
- whether `http.NewRequest` accepted the rewritten request;
- the outcome of `http.DefaultClient.Do`.

The model follows the code where it departs from the intended protocol:

- Nothing checks whether an id is already registered. Registering overwrites.
- When the send fails, the handler answers 502 and leaves its entry in `pendingRequests`.
- The handler waits without a timeout.
- A new tunnel connection replaces the old one. The pending entries are kept and nothing cancels them.
- A response with an unknown id is logged. The code then sends it on the nil channel, which blocks the receive loop for good. The model reports this as `Stuck`, not as a clean drop.
- A response whose id belongs to an entry left behind by a failed send blocks the loop in the same way: the channel is registered, but its handler has returned and nobody receives. This is also `Stuck`.
- `doWebRequest` discards the error of `prepareRequest`. The nil request then reaches `http.DefaultClient.Do`, which dereferences it. The model reports this as `NilRequestPanic`, and `Run` stops there. Every other failure only skips its own turn of the loop.
- `copyHeader` never creates a key whose source value list is empty. `Relay.Merged` states this.

## Model

| member | source | states |
|---|---|---|
| `Relay.Server.constructor` | pkg/server/server.go:50-55 | NewServer keeps the port, has no websocket and has an empty `pendingRequests` map; no handler waits and the receive loop is not blocked; the channel-per-id invariant holds |
| `Relay.Server.WebsocketHandler` | pkg/server/server.go:66-77 | a failed upgrade changes nothing; a successful one replaces the stored connection, starts a receive loop that is not blocked and leaves every pending entry and waiting handler in place |
| `Relay.Server.HandleWebsocketResponse` | pkg/server/server.go:85-104 | a read error yields ReadFailed and changes nothing; a response goes to the channel stored under exactly its own id, and that channel belongs to no other id; the send completes only when that channel's handler is waiting, which then holds the response; with no entry (nil channel) or no waiting handler the loop is stuck for good; the map is never changed |
| `Relay.Server.MainHandler` | pkg/server/server.go:107-141 | no websocket: 502 with nothing registered and nothing sent; unreadable body: 500 with nothing registered and nothing sent; when both checks pass, a fresh channel is registered under the id and the record handed to WriteJSON is prepareRequest's record, carrying that id; if the send fails: 502, and the entry stays behind with no handler waiting on it and every other entry unchanged; if it succeeds, the handler waits on the channel, with nothing written to the client yet; the channel-per-id invariant is kept |
| `Relay.Server.MainHandlerResume` | pkg/server/server.go:142-155 | once the response has been handed over, the reply's status, its headers appended after the writer's own, and its body are written, then the entry of the id whose handler made the channel is deleted and every other entry is unchanged |
| `Relay.Server.ChannelsExclusive` | pkg/server/server.go:129-131 | no two registered ids share a channel, since each handler makes its own |
| `Relay.Server.PrepareRequest` | pkg/server/server.go:158-171 | fails exactly when the body cannot be read; otherwise the record carries the given id, the request's method, its own URL object, its header and the whole body |
| `Relay.CopyHeader` | pkg/server/server.go:173-179 | whatever order the source keys come in, every key keeps its old values with the source's values appended in their order, and a key is added only when the source has values for it |
| `Relay.AddValues` | pkg/server/server.go:175-177 | adding the values of one key appends all of them under that key, in order; every other key is unchanged, and the key appears only when there is a value |
| `Agent.Client.constructor` | pkg/client/client.go:16-21 | a client holds the tunnel address, the local server and the local scheme |
| `Agent.Client.PrepareRequest` | pkg/client/client.go:66-76 | rewrites the forwarded record's URL host and scheme in place and keeps its path and query; the built request (when http.NewRequest accepts it) targets a new URL with the local host and scheme and the same path and query, and keeps the method (empty reads as GET), the header and the body |
| `Agent.Client.PrepareResponse` | pkg/client/client.go:78-92 | fails exactly when the body cannot be read; otherwise the record echoes the given id with the status code, the header and the whole body |
| `Agent.Client.DoWebRequest` | pkg/client/client.go:53-63 | a rejected request panics (its nil request reaches the HTTP client); a failed local call or body read is an error; otherwise the response carries the forwarded request's id, with the local status, header and body |
| `Agent.SkipTurn` | pkg/client/client.go:34-49 | a turn whose read, call or send fails sends nothing, and what was sent still answers exactly the delivering turns so far |
| `Agent.DeliverTurn` | pkg/client/client.go:45-49 | a turn that is answered and sent appends its own response, with its request's id, after those of the earlier turns |
| `Agent.Client.Run` | pkg/client/client.go:31-50 | the agent processes turns until one panics; the responses sent are those of the turns that were read, answered and sent, in turn order, each with its own request's id and content; every such turn before the panic is among them; each turn rewrites only a fresh decoded copy of its record, so nothing the caller holds changes |
| `Tunnel.RequestRoundTrip` | pkg/client/client.go:67-74 | a request the relay forwards yields a local request exactly when its body reads and http.NewRequest accepts the rewritten request; that request has the same method, path, query, header and body, with only host and scheme changed |
| `Tunnel.ResponseRoundTrip` | pkg/server/server.go:142-154 | the record the relay's handler sends is the one the agent answers; an answered request reaches its client with the local status, every local header value and the local body, and no pending entry remains |
| `Tunnel.Forward` | pkg/server/server.go:129-142 | a request with a readable body sent over an established tunnel registers a fresh channel under its id, which its handler then waits on, with nothing written to the client yet |
| `Tunnel.Answer` | pkg/server/server.go:98-102 | a response whose id is registered for a waiting handler is delivered, and that handler writes its status and body and removes only that id's entry |
| `Tunnel.CrossedAnswersScenario` | pkg/server/server.go:98-102 | two requests answered in the opposite order each get their own answer's status and body, and no entry remains |
| `Tunnel.NoTunnelScenario` | pkg/server/server_test.go:31-35 | with no agent connected a request gets 502 and nothing is registered |
| `Tunnel.PrepareRequestExample` | pkg/client/client_test.go:41-64 | a GET of http://google.com/mypath becomes a GET of https://local/mypath with the same header and body |
| `Tunnel.PrepareResponseExample` | pkg/client/client_test.go:110-124 | a 500 response with one header and the ocean body becomes the record with id 0x01, the same status, header and body |
| `Tunnel.LeftoverEntryScenario` | pkg/server/server.go:131-139 | after a failed send the client gets 502, and a response that then arrives with the request's id finds no waiting handler and blocks the receive loop for good |

## Left out

- The websocket plumbing is not modelled. This covers `Upgrade`, `Dial`, `ReadJSON`, `WriteJSON`, `Close`, `RemoteAddr` and the JSON encoding. Only their success or failure is modelled, and `Transmit` stands for the deep copy the JSON trip produces for UTF-8 strings.
- `http.ListenAndServe`, the handler registration in `Server.Run` and the `cmd/` entry points are not modelled. They are process bootstrap.
- `http.DefaultClient.Do` is a call into the local service. Its outcome is an input.
- `uuid.New` is replaced by an id passed in.
- Logging is left out.
- `newRequest` (pkg/server/server.go:42-48) is never called, so it is not modelled.
- The endless receive loop of `websocketHandler` (pkg/server/server.go:80-82) is not modelled as a loop. `HandleWebsocketResponse` models one turn of it.
- `Relay.Server.HandleWebsocketResponse` does not model a read error that repeats. With gorilla/websocket the 1000th read after a failure panics. net/http recovers that panic, the deferred `Close` runs, and `websocket` is left pointing at a closed connection. None of that is modelled.
- `Agent.Client.Run` does not model the dial that opens the connection or the fatal exit when the dial fails. Its endless loop becomes a loop over a finite sequence of turns.
- `Agent.Client.Run` does not model a read error that repeats. With gorilla/websocket the 1000th read after a failure panics, and nothing recovers it, so the agent crashes. In the model each failed read only skips its turn.
- Goroutine-per-request concurrency is modelled only as interleaving of whole steps: each handler step and each turn of the receive loop runs atomically. Data races on the unsynchronised shared map are not modelled.
- Channel blocking is modelled only for the unbuffered response channels, through `waiting`, `handed` and `readerBlocked`.
- `Relay.Server.WebsocketHandler` tracks only the receive loop started by the latest successful upgrade. In the code every loop turn reads from the stored `websocket` (server.go line 87), not from the connection its loop was started with. So after a replacement, any older loop that is still alive also reads the new connection, and once the old connection's pending read returns nothing reads it again. Older loops, blocked or not, are not modelled.
- `Relay.CopyHeader` assumes header keys are already canonical. It does not model the key canonicalisation of `http.Header.Add`.
- `Agent.Client.PrepareRequest` takes http.NewRequest's acceptance as an input. The rules by which it rejects a method or URL are not modelled. The model assumes that formatting and reparsing the URL gives back its scheme, host, path and query.
- Status codes that `WriteHeader` would reject are not modelled, and neither are errors from `ResponseWriter.Write` (the code only logs them).
- `Wire.Transmit` models strings as Unicode text. encoding/json replaces each byte of invalid UTF-8 in a string with U+FFFD. So a header value with bytes 0x80-0xFF, a path decoded from `%FF`, or raw bytes in the query reach the other side changed, and the same holds for the local response's header values on the way back. That is not captured, so `Tunnel.RequestRoundTrip` and `Tunnel.ResponseRoundTrip` hold only for UTF-8 header values, paths and queries.
- `Header.Clone` is modelled as the same header value, since header maps are values in the model.
- Timeouts, cancellation of all entries on reconnect, and the duplicate-id check are not modelled. The code does not implement any of them.
