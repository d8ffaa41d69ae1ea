# TCP hole punching: a Dafny model of the rendezvous and the dial race

This project models the logic of a TCP hole-punching proof of concept in
Dafny, and proves properties of that model. The model has three parts.

- **Endpoint parsing** (`endpoint.dfy`, module `Endpoint`) models
  `ipPortToBytes`. It turns `"ip:port"` text into four address bytes and an
  integer port. Otherwise it fails with one of four errors, checked in a
  fixed order: format, address, IPv4 form, port. The Go library calls it
  relies on are written out as functions: `SplitHostPort` splits on the
  last colon and handles brackets; `ParseIP` accepts a dotted quad without
  leading zeros, or IPv6 text; `To4` gives the IPv4 form; `Atoi` reads a
  signed decimal in Go's 64-bit `int` range.
- **The rendezvous server** (`relay.dfy`, module `Relay`) models
  `RelayServer.handleConn`. It is a state machine over the pairing table
  `connMappings` plus an outbox. The outbox records which response was
  written on which connection. `Step` specifies one step of a handler. The
  class `RelayServer` performs the same steps on its fields.
  `MirroredHandlersPair` proves the matching rule for two mirrored handlers
  under every interleaving of their steps.
- **The dialing peer** (`dialer.dfy`, module `Dialer`) models `Dial` and
  `newReusableSocket`. Every syscall is answered by an oracle and recorded
  in a trace. The public and private attempt loops share the one-slot result
  channel and the `dialed` flag. A schedule of turns interleaves three
  kinds of step: a loop's `dialed` check, the rest of that loop's
  iteration, and `Dial`'s own receive and `dialed.Store`. A loop reads the
  flag only in its check, and it touches the slot only in its final
  `select`. So these turns show every outcome the goroutines can produce,
  including a `dialed.Store` that falls between a loop's check and its
  connect. Pure functions (`SocketCalls`, `Attempt`, `LoopRun`,
  `RunTurns`, `DialSpec`) specify the behaviour. The class `DialRace` and
  the method `Dial` are proved to do exactly that.

The request and response records (`DialReq`, `DialResp`) are datatypes in
`messages.dfy`. `wrappers.dfy` holds `Option`.

## Model

| member | source | states |
|---|---|---|
| `Endpoint.IpPortToBytes` | util.go:9-34 | On every error the bytes are all zero and the port is 0. A success returns a port in Go's `int` range. The error is "invalid IP:port format" exactly when the text cannot be split into host and port. |
| `Endpoint.RoundTrip` | util.go:10-33 | `"a.b.c.d:p"` built from any four bytes and any Go `int` port parses back to exactly those bytes and that port. Zero, negative ports and ports above 65535 are included, so there is no range check. |
| `Endpoint.SuccessIsCanonical` | util.go:10-33 | Conversely, text that parses is the canonical dotted quad of the returned bytes, optionally bracketed, then a colon and port text that `Atoi` reads as the returned port. |
| `Endpoint.NoColonRejected` | util.go:10-13 | Text without a colon fails with "invalid IP:port format". |
| `Endpoint.UnbracketedV6Rejected` | util.go:10-13 | An unbracketed IPv6 host followed by a port fails with "invalid IP:port format". |
| `Endpoint.NonAddressHostRejected` | util.go:15-18 | A host that is not an IP literal fails with "invalid IP address", whatever the port text: the address is checked before the port. |
| `Endpoint.EmptyHostRejected` | util.go:15-18 | An empty host fails with "invalid IP address". |
| `Endpoint.BracketedV6Rejected` | util.go:20-23 | A bracketed IPv6 host is a valid IP with no IPv4 form. It fails with "not an IPv4 address", whatever the port text. |
| `Endpoint.BadPortRejected` | util.go:25-28 | A valid IPv4 host with port text that `Atoi` refuses fails with "invalid port number". |
| `Endpoint.EmptyOrHugePortRejected` | util.go:25-28 | Empty port text fails with "invalid port number". So does a port beyond Go's `int`. |
| `Relay.Register` | server.go:52-63 | After registration, `MyID` maps to the new entry, overwriting any earlier one. Every other key keeps its entry and nothing is written. |
| `Relay.Evict` | server.go:101-103 | Only the given key leaves the table. The other entries and the outbox are unchanged. |
| `Relay.Step` | server.go:42-106 | A decode failure returns with nothing changed. Registration stores {remote address, `MyPrivateAddr`, this connection} under `MyID`. The wait ends exactly when `PeerID` is present, using the entry found. The first write goes to the own connection and describes the peer. The second goes to the peer's connection and describes this handler's entry. A failed write ends the handler with no further write and no eviction. The last step evicts `PeerID` only. A returned handler takes no step. |
| `Relay.RelayServer.constructor` | main.go:41-43 | The server starts with an empty table and nothing written. |
| `Relay.RelayServer.Accept` | server.go:43-63 | Decoding and registering update the fields as `Step` specifies. |
| `Relay.RelayServer.Poll` | server.go:66-78 | One pass of the wait loop. It pairs with the table's entry for `PeerID` as `Step` specifies, and keeps waiting while there is none. |
| `Relay.RelayServer.AnswerSelf` | server.go:80-88 | The write on the own connection, or the failure, updates the fields as `Step` specifies. |
| `Relay.RelayServer.AnswerPeer` | server.go:90-99 | The write on the peer's connection, or the failure, updates the fields as `Step` specifies. |
| `Relay.RelayServer.EvictPeer` | server.go:101-105 | Removes `PeerID` from the table, as `Step` specifies. |
| `Relay.PairProgress` | server.go:66-78 | Two mirrored handlers cannot deadlock: until both have finished, one of them has a step. |
| `Relay.MirroredHandlersPair` | server.go:62-102 | Take handlers for A→B and B→A on a table holding neither id. Every interleaving of their steps has at most ten steps. Every interleaving that cannot be extended ends with both finished and the table exactly as before. Each connection then has received two identical responses describing the other side. |
| `Dialer.SocketCalls` | dial.go:225-256 | The calls follow socket → SO_REUSEADDR → SO_REUSEPORT → parse → bind and stop at the first failure. The descriptor is returned only when all succeed, and it is then bound to the local address. A failure returns 0 and closes nothing. |
| `Dialer.DialRace.NewReusableSocket` | dial.go:225-256 | Issues the calls and returns the descriptor `SocketCalls` specifies. It consumes a descriptor only when socket creation succeeds. |
| `Dialer.Attempt` | dial.go:122-163 | Socket, address-parse and FileConn failures retry, and so does any connect error other than "address already in use". That error exits without publishing. An established connection always exits: it is published if the slot was empty and dropped otherwise. Every bind is at the local address and every connect at the loop's target. |
| `Dialer.AttemptCloses` | dial.go:128-155 | An iteration closes its socket exactly when setup succeeded and a later step failed, and the close is its last syscall. A socket whose setup failed is never closed. Neither is a dropped connection. |
| `Dialer.LoopRun` | dial.go:116-165 | The `dialed` check comes first: a set flag returns at once with nothing done. A loop never changes the flag. It publishes at most one connection, only into an empty slot, and then returns. Its events are aimed at the local address and its own target. |
| `Dialer.TransientFailuresNeverExit` | dial.go:122-155 | Under any run of transient failures a loop never returns. |
| `Dialer.LoopExitsAtFirstDecisive` | dial.go:139-163 | A loop returns at the first iteration whose answers are not transient. It returns with "address already in use" exactly when that was the connect error. |
| `Dialer.DialRace.constructor` | dial.go:15-16 | An empty slot, `dialed` false, no syscalls issued. |
| `Dialer.DialRace.Iteration` | dial.go:122-163 | One iteration does exactly what `Attempt` specifies. |
| `Dialer.DialRace.AttemptLoop` | dial.go:116-217 | The public or the private loop, running with nothing interleaved, does exactly what `LoopRun` specifies. |
| `Dialer.BurstIsLoopRun` | dial.go:116-165 | A loop's check and iteration turns, run one after another with nothing in between, change the race exactly as `LoopRun` does. The loop ends returned with `LoopRun`'s exit, or inside an iteration if the answers run out. Nothing else changes. |
| `Dialer.DialRace.Take` | dial.go:219 | The receive takes the connection out of the slot and changes nothing else. |
| `Dialer.DialRace.Store` | dial.go:220 | Sets `dialed` and changes nothing else. |
| `Dialer.DialHandshake` | dial.go:18-108 | The request is sent exactly when the control connection is set up. Only `MyPrivateAddr` is rewritten, to the connection's local address. The loops start only after the send and the read both succeed. The first failing call decides the error. |
| `Dialer.RaceOutcome` | dial.go:15-222 | At most two connections are ever published, one per side. `Dial` returns the first one published. `dialed` is set exactly when `Dial` has returned it. Every attempt is bound to the local address and connects to its own side's target. |
| `Dialer.StoreEndsLoops` | dial.go:116-220 | After `dialed.Store`, no loop begins a new iteration: a loop at its check returns. A loop already past its check finishes that one iteration, creating at most one socket and publishing at most once. Once no loop is inside an iteration, the race no longer changes. |
| `Dialer.LatePublishStaysInSlot` | dial.go:157-222 | Schedule: the public loop connects, `Dial` receives, the private loop connects, `Dial` stores. Both connections are published. `Dial` returns the first, and the second stays in the slot, never taken and never closed. |
| `Dialer.PublishAfterStore` | dial.go:116-220 | Schedule: both loops pass their check, the private loop connects, `Dial` receives and stores. Only then does the public loop's iteration run: it connects and publishes a second connection into the emptied slot, after `dialed` is set. |
| `Dialer.Dial` | dial.go:14-223 | Returns the outcome and sends the request that `DialSpec` specifies, and leaves the race in the state it specifies. |

## Left out

- JSON encoding and decoding: a message either arrives as a record or fails to decode (`Option`). An encode either succeeds or fails (a boolean answer).
- Sockets and syscalls (`net.Dial`, `SyscallConn`, `Control`, `setsockopt`, `socket`, `bind`, `connect`, `FileConn`): each is answered by an oracle. Whether TCP simultaneous open succeeds is network behaviour, not code.
- Descriptor numbers: they come from a counter that starts at 3. The kernel's reuse of closed numbers is not modelled.
- Goroutines, `atomic.Bool` and the `sync.RWMutex`: interleavings are sequential steps. On the server they are handler steps; on the client they are a loop's `dialed` check, the rest of its iteration, and `Dial`'s two steps. The syscalls within one iteration are therefore never interleaved with another goroutine's steps. This changes only the order of events in the trace, not any outcome: after its check an iteration reads nothing shared until its final `select`. A schedule that ends while `Dial` waits gives `Blocked`; a real run keeps going.
- `time.Sleep` in the server's wait loop: waiting is a step enabled only when `PeerID` is present.
- `Serve`'s accept loop and its close-on-error (server.go:23-40), the command-line handling and the chat in main.go, and all logging.
- The commented-out listener goroutine (dial.go:53-92): it is dead code.
- Relay.MirroredHandlersPair: every write succeeds in the interleavings it covers. Write failures are covered one step at a time by `Step`.
- Endpoint.IpPortToBytes: Go's full IPv6 grammar is reduced to "contains a colon and only hex digits and colons", and every IPv6 text is taken to have no IPv4 form. The model therefore rejects IPv4-mapped IPv6 text, which Go's `To4` would accept, and it ignores zones and embedded dotted quads.
- The port in a socket address is passed on as parsed. A range check in the syscall layer shows up only as a failing bind or connect answer.

## Where the code and its intended behaviour differ

The model follows the code in each of these cases.

- The loop that loses the race is meant to close its connection. The code returns without closing it (dial.go:161-162). `Dialer.Attempt` and `Dialer.AttemptCloses` show no close on that path.
- Only one publish is meant to be accepted. The code receives from the slot (dial.go:219) before it sets `dialed` (dial.go:220). A loop that connects in between publishes a second connection, which is never read (`Dialer.LatePublishStaysInSlot`). A loop that passed its `dialed` check before the store also goes on to connect and can publish afterwards (`Dialer.PublishAfterStore`).
- Ports are meant to be TCP ports. The code takes any integer `Atoi` accepts (`Endpoint.RoundTrip`).
- Each side is meant to receive the other side's description once. Both handlers of a pair write to both connections (server.go:80-99), so each connection receives the description twice (`Relay.MirroredHandlersPair`).
- A failed write is meant to still remove the pairing entry. The code returns before the eviction (server.go:86-88, server.go:97-99), so the table keeps its entries (`Relay.Step`).
