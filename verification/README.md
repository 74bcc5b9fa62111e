# Verified model of the attested tunnel and of its quote verifier

The repository lets a client talk to a server inside a trusted execution environment over one
attested, encrypted control WebSocket that multiplexes HTTP requests and many tunneled WebSockets
(`packages/tunnel`), and it verifies the attestation quotes that this rests on (`packages/qvl`).
Two companions keep state under interleaving: the cache of SEV-SNP certificates
(`packages/kettle/src/quote.ts`) and a fixed-window rate limiter (`packages/kettle-sgx`).

## What is proved

**The tunnel, over every run of client and server.** `Tunnel` puts one client and the server around
their control socket as a step machine: reconnects, lost transports, key sweeps, application code
that acts at any time and inside every callback, other control sockets, and messages in flight in
both directions. `TunnelTheorems` proves from the initial state, for all runs:

- a key that the server holds for the socket is the one that the client generated for it and its
  current key if it has one; it was sealed to the announced public key and handed over only after
  every configured check passed (`KeyAgreement`); every envelope then opens on the other side to what
  was sent (`EnvelopesOpen`); and the client has its key in every state if and only if no close event
  of a replaced socket comes late (`AlwaysKeyedIff`);
- what the server application receives on a tunneled socket, over the control socket it was
  connected over, is a prefix of what the client passed to `send`, queued or not, and the rest is in
  flight or queued, in order (`FifoUp`); the same from server to client (`FifoDown`). Other sockets
  may send anything, also payloads for this client's connections; all that is received is the
  client's if and only if none of those gets through (`FifoUpAllIff`).

`TunnelProgress` shows that this is not empty: whenever the checks pass, eleven steps from the initial
state complete the handshake and take a payload from the queue of a connecting socket to the server
application. `TunnelDrains` states progress from every reachable state: where both ends hold a
connection, handling what is in flight is possible and leaves everything sent delivered
(`DrainDelivers`). The same holds for closing: once the client has read what is in flight, a socket
that the server has closed is closed at the client (`TunnelCloses.CloseArrives`). HTTP requests reach
the server application each once and in order (`TunnelRequests.RequestsInOrder`). The laws that all
this assumes of the primitives and codecs can be met (`Consistency.LawsCanBeMet`). `Attested` puts the
tunnel on top of the quote verifier: an installed key implies one certificate path from a pinned root,
a signed region, and report data in it that commits to the announced key (`InstalledKeyIsAttested`).

`ServerTheorems` proves registry consistency, exact cleanup, gating and key stability for the server
alone, whatever arrives. `PendingRequests` and `Heartbeat` do the same for the request table and for
liveness.

**The quote verifier.** Which buffers are quotes, and every field at its offset (`QuoteFields`); round
trips for three quote layouts and for certificate revocation lists; the exact conditions under which
the two loops without a bound of their own end; certificate path construction in any order; path
acceptance against section 4.2.1.9 of RFC 5280; revocation as equality of unsigned integers; and the
chain of trust of `verifyTdx` and `verifySgx` as one if-and-only-if (`Trust.AcceptedIff`).

**Where the code does not meet the expected property**, the model keeps the code, shows an input, and
proves the exact condition: the CRL walk can loop for ever (`CrlTheorems.LoopingNeverStops`,
`WalkStopsIff`), so can the certificate walk (`PckTheorems.CrossIssuedNeverStops`, `WalkStopsIff`), a
304 response with a body strands its fetch (`PendingRequests.NotModifiedStrands`,
`UnsettledAreInTableIff`), two cache keys can lead to two fetches for one key
(`VcekCache.TwoKeysCanOverlap`, `OverlapIff`), one connect envelope handled twice takes a client out
of the registry (`Duplicates.RepeatedConnectDisplaces`, `AlwaysInsideIff`), the late close event of a
replaced control socket drops the key of the new one, after which every send throws
(`TunnelProgress.LateCloseDropsKey`, `TunnelTheorems.AlwaysKeyedIff`), a keyed socket can deliver to
or close a connection of another one, since ids are never compared with the control socket
(`Ownership.StrangerDelivers`, `StrangerCloses`, `HomeOnlyIff`, `RobbedIff`), and a close callback
that opens a tunneled socket with the same callback keeps the loop of `onclose` going for ever
(`ClientHandlers.ReopeningNeverEnds`, `LoopEndsIff`).

Where code and comments disagree, the model follows the code: the sealed box derives its key with
HSalsa20, not with BLAKE2b (`packages/tunnel/src/crypto.ts:78-91`); the path-length loop counts all
certificate authorities below an issuer, which `PckChain.CountAgrees` proves to be the count of
non-self-issued intermediates on a built path; and in-flight fetches are deduplicated only while
the single slot holds their key.

## How it is built

Code that changes fields step by step is a class or a method with loops (`ServerHandlers`,
`ClientHandlers`, `PendingRequests`, `Heartbeat`, `VcekCache`, `RateLimiter`, `Crl`, `PckChain`,
`Signatures`); each is proved against a function on values, and the theorems are about those
functions. The handlers of the server carry the registry as their invariant, those of the request
table its consistency. Cryptographic primitives, codecs and foreign checks are function-valued
parameters; their laws (`Crypto.Lawful`, `Messages.LawfulEnv`) are hypotheses where they are needed.

The tunnel is modelled under these hypotheses, which the code relies on without enforcing them: each
handler is one atomic step; the client may connect again whenever its socket is not open, also while
the old one is still closing, but the server is then done with the old socket, and all that the old
one still delivers to the client is its close event, at any later time; there is one `server_kx` for a
socket, and it is handled to its end; quote fetches do not overlap; request and connection ids are
fresh, so that nobody else connects them; application callbacks do not throw.

| files | about |
|---|---|
| `Bytes`, `Iteration`, `Layout`, `Hex` | bytes and numbers, loops without a bound, field layouts, hexadecimal text |
| `Quotes`, `QuoteFields`, `Crl`, `CrlTheorems`, `PckChain`, `PckTheorems`, `Trust`, `Signatures`, `Sev` | `packages/qvl/src` |
| `Crypto`, `Messages`, `Consistency` | primitives and codecs with their laws, which can be met, and what travels |
| `ServerSide`, `ServerHandlers`, `ServerTheorems`, `Ownership`, `Duplicates`, `Heartbeat` | the server |
| `ClientSide`, `ClientHandlers`, `PendingRequests` | the client |
| `Steady` | what server activity about other things leaves as it is for one connection |
| `Tunnel`, `TunnelKeys`, `TunnelOrder`, `TunnelServes`, `TunnelTheorems`, `TunnelProgress`, `TunnelDrains`, `TunnelRequests`, `CloseNews`, `TunnelCloses` | client and server together |
| `Attested` | the tunnel on top of the quote verifier |
| `VcekCache`, `RateLimiter` | the companions |

## Model

| member | source | states |
|---|---|---|
| `TunnelTheorems.KeyAgreement` | packages/tunnel/src/client.ts:337-573 | in every reachable state, also after reconnects in any state of the old socket: a key installed for the control socket equals the one the client generated for it, and its current key if it has one; it was handed over only after the early checks, measurement checks and key binding passed on the announced quote and key; every sealed key in the channel opens at the server to it |
| `TunnelTheorems.AlwaysKeyedIff` | packages/tunnel/src/client.ts:192-267 | over every run: an open control socket that has finished its handshake has its key in every state if and only if no close event of a replaced socket is handled while it is open and keyed |
| `TunnelProgress.LateCloseDropsKey` | packages/tunnel/src/client.ts:192-267 | the input: a run from the initial state that reconnects while the old socket is closing and handles its close event after the new handshake; the socket is open, the server holds the key, the client has none, and every send throws |
| `TunnelTheorems.EnvelopesOpen` | packages/tunnel/src/server.ts:960-993 | in every reachable state with a key installed, every envelope that the client sent since it generated the key opens under the server's key, and every envelope of the server under the client's current key, to the plaintext that was encrypted |
| `TunnelTheorems.FifoUp` | packages/tunnel/src/ClientRAWebSocket.ts:122-234 | in every reachable state, whatever other sockets send: payloads delivered to the server application over the control socket of the connection are a prefix of those passed to `send`; while the connection is held on both ends, delivered + in flight + queued is exactly what was sent, across the connecting/open boundary |
| `TunnelTheorems.FifoUpAllIff` | packages/tunnel/src/server.ts:925-940 | over every run: all payloads received on a connection came over its own control socket if and only if no other socket, one of another client or the one that replaced it, presents one that opens while the mock is open; and then all of them are a prefix of what was sent |
| `TunnelTheorems.FifoDown` | packages/tunnel/src/ServerRAWebSocket.ts:43-63 | in every reachable state: payloads the client received are a prefix of those the server application sent; while the socket is registered and was connected over the current control socket, which is open, received + in flight is exactly what was sent |
| `TunnelProgress.HandshakeCompletes` | packages/tunnel/src/server.ts:480-577 | if the checks pass, five steps from the initial state are possible and lead to the same key on both sides with every message handled |
| `TunnelProgress.PayloadArrives` | packages/tunnel/src/ClientRAWebSocket.ts:122-234 | if the checks pass, eleven steps from the initial state are possible in which a payload is queued on a connecting socket, flushed when it opens, and delivered: what was delivered is what was sent |
| `TunnelDrains.DrainDelivers` | packages/tunnel/src/server.ts:925-940 | from every reachable state in which both ends hold a connection, handling all messages in flight is possible, and then what was delivered is exactly what was sent |
| `TunnelCloses.CloseArrives` | packages/tunnel/src/ClientRAWebSocket.ts:216-229 | from every reachable state in which the client has a connection registered that was made on its current socket: reading all that is in flight is possible, and its tunneled socket is CLOSED and unregistered then if and only if the news of the close were in flight; and they are whenever the server has closed the mock, still holds its entry and can send |
| `CloseNews.StepHeralds` | packages/tunnel/src/server.ts:833-923 | every step of the server, whatever the application and other sockets do: if it closes a mock whose entry stays, the `close` event for that connection is among the messages it adds to the mock's socket |
| `TunnelRequests.RequestsInOrder` | packages/tunnel/src/server.ts:579-615 | over every run, whatever other sockets do: the HTTP requests that the server application received over the client's control socket are, each once and in order, a prefix of those sent since the key was generated, and once the server has the key the rest is in flight; before the session there are none |
| `TunnelRequests.FetchAsks` | packages/tunnel/src/client.ts:828-850 | on an open, keyed control socket a fetch adds its own request, with its id, to those sent |
| `Attested.InstalledKeyIsAttested` | packages/tunnel/src/client.ts:369-520 | over every run with quotes judged by the modelled verifier, each at a time of its own: a key at the server implies that the announced quote meets the whole chain of trust, and that its bytes of report data, by offset, are the digest of the public key of the server |
| `Attested.RegionFixesReportData` | packages/qvl/src/structs.ts:282-303 | quotes with equal signed regions have equal report data, for SGX and TDX |
| `Attested.ReportDataAt` | packages/qvl/src/structs.ts:10-150 | the report data of a parsed quote are bytes 368 to 432 of an SGX quote and bytes 520 to 584 of a TDX body |
| `TunnelTheorems.StepKeeps` | packages/tunnel/src/client.ts:192-573 | every step of either side, whatever the application does, keeps key agreement, the registry, and the order of every connection |
| `TunnelKeys.AnnouncementKeys` | packages/tunnel/src/client.ts:337-573 | reading the announcement keeps key agreement, whether the checks pass, fail before the key is generated, or fail after it |
| `TunnelKeys.InstallKeys` | packages/tunnel/src/server.ts:540-577 | what the server opens and installs is the key the client sealed; a message that does not open changes nothing else |
| `TunnelOrder.FlushMore` | packages/tunnel/src/ClientRAWebSocket.ts:197-209 | the flush puts exactly the queue, in order, into the channel, or nothing when sending fails, and nothing for any other connection |
| `TunnelOrder.SendLink` | packages/tunnel/src/ClientRAWebSocket.ts:122-169 | sending in any ready state keeps the order and connection invariants of that socket |
| `TunnelOrder.EventReadLink` | packages/tunnel/src/ClientRAWebSocket.ts:197-234 | open, close and error events keep the order invariants of their socket |
| `TunnelOrder.PayloadReadLink` | packages/tunnel/src/client.ts:696-701 | a payload from the server is appended to what was received, in order, or dropped if the socket is no longer registered |
| `TunnelServes.MessageLink` | packages/tunnel/src/server.ts:925-940 | handling a payload delivers the next undelivered one of its connection, or drops it when the mock is closed, and keeps the order whatever the application does in the callback |
| `TunnelServes.ConnectLink` | packages/tunnel/src/server.ts:833-923 | connecting keeps the order invariants, including for payloads that the application sends before the open event goes out |
| `Steady.AppRunSteady` | packages/tunnel/src/ServerRAWebSocket.ts:43-111 | application code that sends, closes or shuts down any mocks delivers nothing, makes no mock hear again, and everything it sends on a connection goes out on that connection's socket in order while that is open |
| `Steady.DispatchSteady` | packages/tunnel/src/server.ts:579-615 | the same for any control message that is not a connect or a payload for the connection in question |
| `Steady.ClosesSteady` | packages/tunnel/src/server.ts:412-434 | the same for closing any control socket, with its callbacks |
| `ServerTheorems.RegistryConsistent` | packages/tunnel/src/server.ts:833-958 | in every reachable state `wss.clients` is contained in the mocks that `sockets` holds, and every mock is open and registered or has emitted `close` exactly once |
| `ServerTheorems.ControlClosedExact` | packages/tunnel/src/server.ts:412-434 | closing a control socket removes exactly its own entries and key, leaves other entries alone, and every mock made on it has emitted `close` exactly once, whatever the callbacks do and whatever was closed before |
| `Duplicates.AlwaysInsideIff` | packages/tunnel/src/server.ts:833-923 | over every run with any connection ids, fresh or not: the client set stays inside `sockets` in every state if and only if no accepted connect displaces a mock that is a client, with a callback that does not close the whole mock server |
| `Duplicates.RepeatedConnectDisplaces` | packages/tunnel/src/server.ts:521-615 | the input: from the initial state, a socket that completes the handshake and whose one connect envelope is handled twice; the run is possible and takes a client out of `sockets` |
| `ServerTheorems.UnopenedLeavesNoTrace` | packages/tunnel/src/server.ts:521-615 | over every run, a socket that never presents an openable envelope reaches neither the application nor the registry |
| `ServerTheorems.KeyNeverChanges` | packages/tunnel/src/server.ts:540-557 | over every run, the key of a socket that is still open is the one installed first |
| `Ownership.HomeOnlyIff` | packages/tunnel/src/server.ts:925-940 | over every server run: all payloads that reached the application on a connection came over the socket it was connected over, if and only if no socket presents a payload for it that opens while its mock is open and belongs to another socket |
| `Ownership.RobbedIff` | packages/tunnel/src/server.ts:942-958 | over every server run: no message takes an entry of another control socket out of the registry, if and only if no socket presents a `ws_close` for such an entry that opens |
| `Ownership.StrangerDelivers` | packages/tunnel/src/server.ts:925-940 | the input: an envelope under the socket's own installed key, through the control handler, with a payload for a connection of another socket, is delivered to it |
| `Ownership.StrangerCloses` | packages/tunnel/src/server.ts:942-958 | the input: an envelope under the socket's own installed key, through the control handler, with a `ws_close` for a connection of another socket, removes its entry and closes its mock once |
| `ServerHandlers.TunnelServer.HandleControlMessage` | packages/tunnel/src/server.ts:521-615 | keeps the registry for every message, given that a connect is for a fresh id; a message that does not open under an installed key changes nothing but, at most, the keys; an installed key stays |
| `ServerHandlers.TunnelServer.HandleTunnelWebSocketConnect` | packages/tunnel/src/server.ts:833-923 | keeps the registry for a fresh id and, whatever the callback does, adds exactly the entry of the new mock; the connection event is logged and the last message is its `open` event; without a context no entry is added and exactly one `error` event goes out |
| `ServerHandlers.TunnelServer.HandleTunnelWebSocketMessage` | packages/tunnel/src/server.ts:925-940 | keeps the registry and every entry; the payload is the next event of the application if and only if the mock takes messages, and otherwise nothing changes |
| `ServerHandlers.TunnelServer.HandleTunnelWebSocketClose` | packages/tunnel/src/server.ts:942-958 | keeps the registry and removes exactly the entry of the id; the close event of its open mock is the next one logged, its mock has emitted `close` exactly once and is no client; an unknown id changes nothing |
| `ServerHandlers.TunnelServer.OnControlClose` | packages/tunnel/src/server.ts:331-354 | the cleanup loop in any order, with re-entrant callbacks, keeps the registry; exactly the entries and the key of the socket are gone, and every mock made on it has emitted `close` exactly once |
| `ServerHandlers.TunnelServer.OnControlConnection` | packages/tunnel/src/server.ts:480-518 | keeps the registry; a socket that is open afterwards has been sent exactly the announcement of the current key and quote; an announced key pair and its quote are never replaced |
| `TunnelKeys.AttachIdentity` | packages/tunnel/src/server.ts:453-518 | a new control socket never changes an announced key pair, and a quote is always announced with the pair that it was fetched for |
| `Steady.SendResult` | packages/tunnel/src/server.ts:960-1006 | a send on a keyed open socket adds one message, which opens to what was sent, and changes nothing else; any other send changes nothing |
| `ServerHandlers.TunnelServer.CloseMock` | packages/tunnel/src/ServerRAWebSocket.ts:48-57 | the mock has emitted `close` exactly once however often it is closed; the first close logs one close event and sends one `ws_event` that opens to the close of its connection on its own socket, a later one does nothing |
| `ServerHandlers.TunnelServer.SendOnMock` | packages/tunnel/src/ServerRAWebSocket.ts:43-63 | an open mock logs the payload and sends exactly one `ws_message` for its connection on its own socket; a closed one does nothing |
| `ServerHandlers.TunnelServer.Perform` | packages/tunnel/src/server.ts:647-830 | a response goes out once, with the id of its request, on the socket that the request came over |
| `ServerHandlers.TunnelServer.EmitClose` | packages/tunnel/src/ServerRAWebSocket.ts:65-69 | the count grows by one and the event is logged if and only if the mock was not closed; no other mock changes |
| `ServerHandlers.TunnelServer.CloseAllClients` | packages/tunnel/src/ServerRAWebSocket.ts:100-111 | the loop keeps the registry, every client has emitted `close` exactly once, and the set is empty |
| `ClientHandlers.KeyHandedOverIff` | packages/tunnel/src/client.ts:369-573 | the key is handed over if and only if the socket is open and every configured check passed, spelled out for TDX, SGX and SEV-SNP down to the bytes that are hashed |
| `ClientHandlers.TunnelClient.OnServerKx` | packages/tunnel/src/client.ts:337-573 | the key is handed over if and only if the socket is open and the early and late checks pass; otherwise nothing is sent, although a key may be stored |
| `TunnelKeys.SendSpec` | packages/tunnel/src/client.ts:598-636 | on an open socket with a session a send adds one message, which opens under the session key to what was sent; otherwise nothing is sent |
| `TunnelOrder.CloseLink` | packages/tunnel/src/ClientRAWebSocket.ts:171-194 | closing a tunneled socket in any state keeps its order and connection invariants |
| `ClientHandlers.TunnelClient.FlushQueue` | packages/tunnel/src/ClientRAWebSocket.ts:202-206 | the shifting loop sends exactly the queued payloads, in order, each in an envelope that opens to it |
| `ClientHandlers.TunnelClient.HandleTunnelEvent` | packages/tunnel/src/ClientRAWebSocket.ts:197-234 | `close` makes exactly this socket CLOSED and unregisters it; `open` makes it OPEN and sends exactly its queue, in order; `error` changes nothing; no other socket changes |
| `ClientHandlers.TunnelClient.SendOnSocket` | packages/tunnel/src/ClientRAWebSocket.ts:122-169 | a payload is queued while connecting, goes out as one `ws_message` that opens to it when open, and is refused otherwise |
| `ClientHandlers.TunnelClient.CloseSocket` | packages/tunnel/src/ClientRAWebSocket.ts:171-194 | a connecting or open socket becomes CLOSING and is unregistered, and one `ws_close` for it goes out; otherwise nothing happens |
| `ClientHandlers.TunnelClient.ConnectSocket` | packages/tunnel/src/ClientRAWebSocket.ts:79-120 | one `ws_connect` goes out, and none if the port does not match |
| `ClientHandlers.TunnelClient.OnOpen` | packages/tunnel/src/client.ts:205-217 | opening sends the hello, once |
| `ClientHandlers.TunnelClient.CloseEverySocket` | packages/tunnel/src/client.ts:227-240 | the loop over the live map, in any order and with callbacks that open sockets meanwhile: it closes every registered socket and every socket that is opened during it, changes no other, and leaves none registered |
| `ClientHandlers.TunnelClient.OnClose` | packages/tunnel/src/client.ts:219-267 | the close event of any socket, current or replaced, closes every registered tunneled socket and every one opened meanwhile, and drops the key |
| `ClientHandlers.LoopEndsIff` | packages/tunnel/src/client.ts:227-240 | that loop ends if and only if its callbacks open a bounded number of sockets in all |
| `ClientHandlers.ReopeningNeverEnds` | packages/tunnel/src/client.ts:227-240 | a close callback that opens one socket with the same callback keeps it going for ever |
| `PendingRequests.UnsettledAreInTableIff` | packages/tunnel/src/client.ts:652-687 | over all runs: a request is unsettled and out of the table if and only if a response the `Response` constructor refuses arrived while it waited; in the service worker the table holds only unsettled requests |
| `PendingRequests.AcceptedResponsesSettle` | packages/tunnel/src/sw.ts:129-192 | when every response is acceptable: the unsettled requests are in the table, in the service worker exactly they are, and a disconnect leaves none |
| `PendingRequests.DisconnectSettlesAll` | packages/tunnel/src/client.ts:248-254 | after a disconnect exactly the stranded requests are unsettled |
| `PendingRequests.ResponseSettlesIff` | packages/tunnel/src/client.ts:652-687 | a response settles exactly its own waiting request, and exactly when it is an error or constructible |
| `PendingRequests.SettledOnce` | packages/tunnel/src/client.ts:839-864 | over all later steps a settled promise keeps its outcome |
| `PendingRequests.OutcomeIff` | packages/tunnel/src/client.ts:652-687 | over every run: a promise has an outcome, with its status and body or its reason, if and only if some step gave it that outcome while the request waited: its own response or error, its timeout, a disconnect, a socket error in the service worker, or the close of the page's client |
| `PendingRequests.NotModifiedStrands` | packages/tunnel/src/client.ts:656-686 | a 304 response with a body leaves its request pending for ever |
| `PendingRequests.Requests.Fetch` | packages/tunnel/src/sw.ts:251-271 | keeps the table consistent for a fresh id; the request is unsettled if and only if sending worked, although a failed one stays in the table of the page |
| `PendingRequests.Requests.HandleTunnelResponse` | packages/tunnel/src/client.ts:652-687 | keeps the table consistent; a waiting request is rejected with the error, or resolved with the status and the body (none for 204), or, if the constructor refuses the response, stays unsettled; nothing else changes |
| `PendingRequests.Requests.Timeout` | packages/tunnel/src/client.ts:853-859 | keeps the table consistent; exactly the waiting request of the timer is rejected, with this reason |
| `PendingRequests.Requests.RejectAll` | packages/tunnel/src/sw.ts:172-190 | the loop in any order keeps the table consistent and rejects exactly what waits, with the reason |
| `PendingRequests.Requests.Close` | packages/tunnel/src/client.ts:1015-1025 | keeps the table consistent; the first close rejects what waits, a second does nothing |
| `Heartbeat.AnsweringIsNeverTerminated` | packages/tunnel/src/server.ts:1059-1086 | over every run, a socket that pongs between every two consecutive sweeps no more than the timeout apart is never terminated |
| `Heartbeat.SilentIsTerminated` | packages/tunnel/src/server.ts:1059-1086 | a socket that does not pong between two consecutive sweeps is terminated by the second at the latest |
| `Heartbeat.TerminatedIff` | packages/tunnel/src/server.ts:1059-1086 | over every run: a sweep is the first to terminate a socket if and only if the sweep before it got no pong, or the socket was last heard longer ago than the timeout |
| `Heartbeat.HeartbeatState.HeartbeatSweep` | packages/tunnel/src/server.ts:1059-1099 | both loops, in any order: terminated are exactly the tracked sockets on record that missed a pong or were last heard before now minus the timeout; what is on record afterwards; and the remaining keys are exactly the old ones of tracked sockets that are not CLOSED |
| `Crypto.SealOpens` | packages/tunnel/src/crypto.ts:81-127 | the recipient opens what was sealed to it, for every message and ephemeral key, from commuting Diffie-Hellman |
| `Crypto.SealedForm` | packages/tunnel/src/crypto.ts:81-107 | what is sealed: the ephemeral public key, and the message under the HSalsa20 key of the shared secret with a nonce from both public keys, in this order |
| `Crypto.LengthsAreChecked` | packages/tunnel/src/crypto.ts:47-127 | which lengths of nonces, keys and sealed messages are refused |
| `Consistency.LawsCanBeMet` | packages/tunnel/src/crypto.ts:47-127 | there are primitives and codecs that meet all the laws that the theorems assume |
| `Crypto.WordsRoundTrip` | packages/tunnel/src/crypto.ts:11-23 | bytes made of words give these words back |
| `Crypto.BytesRoundTrip` | packages/tunnel/src/crypto.ts:11-23 | words made of whole words of bytes give these bytes back |
| `Crypto.U8ToU32LE` | packages/tunnel/src/crypto.ts:11-16 | word i is the little-endian number of bytes 4i to 4i + 4 |
| `Crypto.U32ToU8LE` | packages/tunnel/src/crypto.ts:18-23 | bytes 4i to 4i + 4 are the little-endian bytes of word i |
| `Trust.AcceptedIff` | packages/qvl/src/verifyTdx.ts:517-662 | a quote is accepted if and only if one path ends in a pinned root, is inside every window at the configured or the current time, has its signatures, roles and path lengths in order and no listed serial, and its leaf signed the QE report; bytes 320 to 352 of that are the digest of attestation key and auth data; that key signed exactly header and body; the header says ECDSA and the right TEE; and the evaluators accept what the offsets show; `false` is returned if and only if only the TCB evaluator refuses; for TDX and SGX |
| `QuoteFields.QeReportData` | packages/qvl/src/verifyTdx.ts:452-460 | the bytes that are compared lie in the field `report_data` of the QE report, its last 64 bytes |
| `Trust.DatedIsUsed` | packages/qvl/src/verifySgx.ts:292-346 | with or without the fallback to the extra certificates, the dated result is about the path of the bag that is used |
| `Trust.UndatedIsUsed` | packages/qvl/src/verifyTdx.ts:356-421 | the path recomputed without date and lists for the QE report is that same path |
| `PckTheorems.OrderIndependence` | packages/qvl/src/verifyTdx.ts:190-221 | any rearrangement of a well-formed path with distinct subjects gives the same leaf, exactly that path, and the same result |
| `PckTheorems.WalkStopsIff` | packages/qvl/src/verifyTdx.ts:200-207 | the walk ends if and only if it reaches no certificate twice, and always when first-match issuers form no cycle |
| `PckTheorems.CrossIssuedNeverStops` | packages/qvl/src/verifyTdx.ts:200-207 | two certificates that issue each other make the walk endless |
| `PckTheorems.PathLengthBoundsPosition` | packages/qvl/src/verifyTdx.ts:293-324 | on a built path the path length at position i bounds i - 1 |
| `PckTheorems.ValidWithoutDate` | packages/qvl/src/verifyTdx.ts:165-349 | a path that is valid with date and lists is valid and the same without |
| `PckTheorems.RevokedIff` | packages/qvl/src/verifyTdx.ts:330-345 | an otherwise valid path is `revoked` if and only if some serial on it equals a listed one as an unsigned integer |
| `PckChain.PathFacts` | packages/qvl/src/verifyTdx.ts:200-221 | linked issuer to subject, no certificate twice, no longer than the input, self-issued only in last place |
| `PckChain.PathGoesOn` | packages/qvl/src/verifyTdx.ts:200-207 | each step goes to the first certificate with the issuer's name, and the path ends only where there is none or where that is the certificate itself |
| `PckChain.CountAgrees` | packages/qvl/src/verifyTdx.ts:308-323 | the nested counting loop agrees with the count of section 4.2.1.9 of RFC 5280 |
| `PckChain.FindLeaf` | packages/qvl/src/verifyTdx.ts:189-198 | the first certificate that is the issuer of none of the given ones, itself included, and the first certificate if there is no such one |
| `PckChain.FindParent` | packages/qvl/src/verifyTdx.ts:203-205 | the first certificate with the issuer's name |
| `PckChain.BuildChain` | packages/qvl/src/verifyTdx.ts:200-207 | the pushing loop builds the trail of the first-match rule |
| `PckChain.CheckIssuers` | packages/qvl/src/verifyTdx.ts:274-324 | the basic-constraints loop accepts exactly paths whose issuers are certificate authorities with a path length, if any, of at least i - 1 at position i; these are the path lengths of RFC 5280 |
| `PckChain.CheckWindows` | packages/qvl/src/verifyTdx.ts:223-236 | accepts if and only if there is no date or every certificate has notBefore <= date <= notAfter |
| `PckChain.CheckSignatures` | packages/qvl/src/verifyTdx.ts:238-267 | accepts if and only if each certificate verifies under the next, and the last under itself when its issuer is its subject |
| `PckChain.CheckRevocation` | packages/qvl/src/verifyTdx.ts:336-344 | some normalized serial is in the set |
| `PckChain.CollectRevoked` | packages/qvl/src/verifyTdx.ts:330-335 | the union of all lists |
| `PckChain.VerifyPckChain` | packages/qvl/src/verifyTdx.ts:165-349 | the whole method: `expired` if and only if some certificate on the path is outside its window at the date, `invalid` if and only if not expired and a signature, role or path length fails, `revoked` if and only if all that holds and a serial is listed, `valid` otherwise; root, chain and leaf data that come with each |
| `CrlTheorems.CrlRoundTrip` | packages/qvl/src/utils.ts:79-183 | for every list laid out as in section 5.1 of RFC 5280 with decodable lengths, any optional fields and any trailing bytes, the walk ends and returns exactly the listed serials in order |
| `CrlTheorems.SerialsOfWalk` | packages/qvl/src/utils.ts:157-183 | on arbitrary bytes: what is returned are the serials of the entries visited, each an INTEGER at the head of a SEQUENCE; an entry without one adds nothing; a read that throws makes the result empty, any other end keeps it |
| `CrlTheorems.ListNeedsTags` | packages/qvl/src/utils.ts:105-157 | serials are returned only from behind the tags that a list must have, and none where the parser finds no list |
| `CrlTheorems.TlvBounds` | packages/qvl/src/utils.ts:82-103 | on arbitrary bytes a read stays inside, advances by the written length when that is below 2^31, and does not go back if and only if the low 32 bits are below 2^31 |
| `CrlTheorems.LengthExactIff` | packages/qvl/src/utils.ts:88-98 | the 32-bit shifts are exact if and only if the length is below 2^31, so always for three octets |
| `CrlTheorems.WalkStopsIff` | packages/qvl/src/utils.ts:157-177 | the entry loop ends if and only if it reads no entry twice; it is enough that the low 32 bits of every reached entry length are below 2^31 |
| `CrlTheorems.LoopingNeverStops` | packages/qvl/src/utils.ts:157-177 | with four octets there is a list on which it does not end |
| `Crl.ReadTlv` | packages/qvl/src/utils.ts:82-103 | the reader equals the tag, offset and 32-bit length at every offset, or throws |
| `Crl.ReadLength` | packages/qvl/src/utils.ts:93-95 | the shift-and-or loop computes the big-endian number in 32-bit signed arithmetic |
| `Crl.ParseCrlRevokedSerials` | packages/qvl/src/utils.ts:79-183 | the cursor code equals the walk; any thrown error gives the empty list |
| `Crl.CollectSerials` | packages/qvl/src/utils.ts:160-175 | the loop collects the serials of the walk, or stops at a throw |
| `Hex.SerialsAgreeIff` | packages/qvl/src/utils.ts:66-70 | normal forms are equal if and only if the serials are equal as unsigned integers |
| `Hex.EncodeInjective` | packages/qvl/src/utils.ts:9 | hexadecimal text determines the bytes |
| `Hex.NormalFormOfText` | packages/qvl/src/utils.ts:66-70 | the normal form does not depend on the case of the digits nor on separators |
| `QuoteTheorems.SgxRoundTrip` | packages/qvl/src/parse.ts:70-84 | parsing a serialized SGX quote returns header, body and signature block, whatever trails, and its signed region is exactly header and body |
| `QuoteFields.SgxFields` | packages/qvl/src/parse.ts:70-84 | for every buffer: it is parsed if and only if it is a version 3 quote with a complete signature section, and every field of header, body and signature then holds the bytes at the offsets of the format |
| `QuoteFields.TdxFields` | packages/qvl/src/parse.ts:23-61 | the same for TDX versions 4 and 5, with the body that the descriptor of version 5 cuts out |
| `QuoteFields.HeaderNumbers` | packages/qvl/src/structs.ts:13-21 | version, att_key_type, tee_type, qe_svn and pce_svn are the numbers at 0, 2, 4, 8 and 10 |
| `QuoteFields.SgxNamedFields` | packages/qvl/src/structs.ts:38-51 | cpu_svn, attributes, mr_enclave, mr_signer and report_data by their offsets in the quote |
| `QuoteFields.TdxNamedFields` | packages/qvl/src/structs.ts:72-128 | tee_tcb_svn, td_attributes, xfam, mr_td, the four rtmr and report_data by their offsets in the body |
| `QuoteFields.SgxSignature` | packages/qvl/src/structs.ts:152-207 | for every signature section: it is parsed if and only if it reaches to its certificate data, and each part holds the bytes at its offset |
| `QuoteFields.TdxSignature` | packages/qvl/src/structs.ts:209-280 | the same for TDX |
| `QuoteTheorems.Tdx4RoundTrip` | packages/qvl/src/parse.ts:23-61 | the same for TDX version 4 |
| `QuoteTheorems.Tdx5RoundTrip` | packages/qvl/src/parse.ts:23-61 | the same for TDX version 5 with either body, also one longer than its layout |
| `QuoteTheorems.SgxSigRoundTrip` | packages/qvl/src/structs.ts:152-207 | the SGX signature block with variable auth data and certificate data |
| `QuoteTheorems.TdxSigRoundTrip` | packages/qvl/src/structs.ts:209-280 | the TDX signature block |
| `QuoteTheorems.SgxSignedRegionDetermines` | packages/qvl/src/structs.ts:282-287 | quotes with equal signed regions parse to equal header and body |
| `QuoteTheorems.TdxSignedRegionDetermines` | packages/qvl/src/structs.ts:289-303 | the same for TDX, where the version inside the region selects the region |
| `Layout.RoundTrip` | packages/qvl/src/structs.ts:10-150 | decoding a layout undoes encoding, whatever bytes follow |
| `Layout.FieldAt` | packages/qvl/src/structs.ts:140-150 | in every buffer, also a short one, a decoded field holds the bytes between its offset and the next |
| `Layout.DecodesIff` | packages/qvl/src/structs.ts:10-150 | a buffer decodes if and only if every integer field lies inside it |
| `Signatures.ConvertSignatureComponent` | packages/qvl/src/parseSev.ts:120-144 | 48 bytes whose big-endian value is the little-endian value of the input, of any length, modulo 2^384 |
| `Signatures.DerRoundTrip` | packages/qvl/src/utils.ts:18-42 | for every 64-byte signature, DER encoding followed by the padding is the identity, and the encoding is one SEQUENCE of two INTEGERs and nothing else |
| `Signatures.ContentValue` | packages/qvl/src/utils.ts:28-36 | the encoded integer is positive, shortest, and the same number |
| `Signatures.EncodeInteger` | packages/qvl/src/utils.ts:28-36 | the loop and the sign byte give the DER integer |
| `Signatures.EncodeEcdsaSignatureToDer` | packages/qvl/src/utils.ts:18-42 | the two integers in a sequence; any other length is an error |
| `Signatures.Pad` | packages/qvl/src/x509.ts:270-278 | the result has the curve's length and is the same number modulo its range |
| `Sev.GetSevSnpRawSignature` | packages/qvl/src/parseSev.ts:173-181 | 96 bytes that denote r and s modulo 2^384 |
| `Sev.ChipFields` | packages/qvl/src/structsSev.ts:91-124 | the parsed `chip_id` and `reported_tcb` are the bytes at their offsets |
| `Sev.ReportFields` | packages/qvl/src/parseSev.ts:37-75 | a report is parsed if and only if it has 1184 bytes and a version of at least two; every field holds the bytes between its offsets, r those from 672, s those from 744 |
| `VcekCache.CacheKeyInjective` | packages/kettle/src/quote.ts:221-228 | keys are equal if and only if chip id and TCB bytes are |
| `VcekCache.CacheKeyIsParsed` | packages/kettle/src/quote.ts:221-228 | the key is the hexadecimal text of the parsed fields |
| `VcekCache.CallersGetTheirOwn` | packages/kettle/src/quote.ts:235-268 | under every interleaving a successful caller receives certificates of its own key |
| `VcekCache.OneKeyOneFetch` | packages/kettle/src/quote.ts:235-268 | with one key at most one fetch is running |
| `VcekCache.TwoKeysCanOverlap` | packages/kettle/src/quote.ts:248-268 | with two keys there is a run with two running fetches for one key |
| `VcekCache.OverlapIff` | packages/kettle/src/quote.ts:241-268 | over every run with any number of callers and keys: two fetches for a key are running at some point if and only if some call for it comes while one is running, is not answered from the cache, and does not find it in the slot |
| `VcekCache.FetchResultIff` | packages/kettle/src/quote.ts:273-359 | success if and only if one of at most five attempts succeeds after retryable errors only |
| `VcekCache.QuoteBinding.FetchVcekWithRetry` | packages/kettle/src/quote.ts:235-260 | answered at once if and only if the key is cached; otherwise the slot holds the caller's key and the promise the caller waits on |
| `VcekCache.QuoteBinding.DoVcekFetchWithRetry` | packages/kettle/src/quote.ts:273-359 | the retry loop computes that result and caches it on success only |
| `RateLimiter.CleanupsAreInvisible` | packages/kettle-sgx/sgx-entrypoint.go:78-113 | interleaved cleanups change no later decision |
| `RateLimiter.AtMostTenPerWindow` | packages/kettle-sgx/sgx-entrypoint.go:78-101 | the window on record has had exactly `count` admissions, at most 10 |
| `RateLimiter.AtMostTwentyPerSpan` | packages/kettle-sgx/sgx-entrypoint.go:78-101 | at most 20 admissions in any 60,000 ms |
| `RateLimiter.RefusalMeansTen` | packages/kettle-sgx/sgx-entrypoint.go:78-101 | a refusal implies ten admissions in the preceding 60,000 ms |
| `RateLimiter.RefusedIff` | packages/kettle-sgx/sgx-entrypoint.go:78-101 | over every run: a request is refused if and only if the window on record is at most 60,000 ms old and has had ten admissions |
| `RateLimiter.QuoteService.IsRateLimited` | packages/kettle-sgx/sgx-entrypoint.go:78-101 | refused exactly when the live window has ten admissions; a missing or expired entry opens a window with count one, any other request adds one |
| `RateLimiter.QuoteService.CleanupRateLimitEntries` | packages/kettle-sgx/sgx-entrypoint.go:103-113 | the loop in any order removes exactly the expired entries |

## Left out

- Cryptographic primitives, CBOR, `asn1js`/`pkijs`, WebCrypto and `restructure`: function-valued parameters with stated laws, or byte-slice readers; secrecy and authenticity are not claimed.
- Crl.ParseCrlRevokedSerials: stated where the entry loop ends; `CrlTheorems.WalkStopsIff` says exactly when that is.
- Crl.CollectSerials: the same.
- PckChain.VerifyPckChain: stated where the issuer walk and the list walks end; `PckTheorems.WalkStopsIff` says exactly when. Certificates without a parsable date, whose comparisons are all false, are not modelled.
- PckChain.BuildChain: the same.
- PckTheorems.RevokedIff: serials have at least one octet, as DER demands.
- Trust.AcceptedIff: stated where these walks end; measurement matchers, `getTcbStatus` and the QE identity check are opaque predicates of the configuration.
- TunnelTheorems.KeyAgreement: under the hypotheses listed above. Outside them: a reconnect while the server still holds the old socket open, a replaced socket that delivers more than its close event, and messages that arrive after `close()`.
- The channel of a control socket neither repeats nor reorders messages, as WebSocket promises; the code has no sequence numbers of its own. What one repeated envelope does is `Duplicates.RepeatedConnectDisplaces`.
- TunnelCloses.CloseArrives: a `ws_close` of another control socket removes the entry without a word to the client (`Ownership.StrangerCloses`), whose socket then stays open; the client side of an `http_response` is `PendingRequests`.
- TunnelTheorems.FifoUp: a payload counts as passed to `send` when `send` does not throw. `Blob` payloads, whose bytes `send` reads asynchronously, are not modelled.
- TunnelTheorems.FifoDown: a payload counts as received when its handler is called on a registered socket.
- TunnelTheorems.FifoUpAllIff: other clients do not connect ids of this client, which are fresh; they may send payloads and closes for them.
- Mock sockets are values in a sequence or map known by number or id, so aliasing between them is not captured.
- Callbacks on the client side are separate steps of the tunnel and not part of the handler that calls them, except in the loop of `ClientHandlers.TunnelClient.CloseEverySocket`; on the server they run inside it.
- `onclose` and `close` of the client: the socket loop and the request table are modelled apart (`ClientHandlers`, `PendingRequests`); the reconnect timer is a step of the tunnel.
- Close codes, reasons, subprotocols, URLs, `bufferedAmount` and DOM event dispatch.
- Express and Hono request synthesis, header conversion and streaming: an HTTP request is an opaque payload with an id.
- Liveness times are modelled apart from the rest of the server (`Heartbeat`); the tunnel sees only that keys of sockets that are not open may be swept.
- Quotes are buffers that own their bytes; a view into a larger buffer is not modelled.
- Backoff delays and jitter, the directory behind the VCEK cache, child processes and the quote HTTP service.
- Report formatters, policy bits, launcher, bundling, worker, demo application and user interface: they would add only easy members.
