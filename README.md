# Signalling server participant registry

A Dafny model of the signalling server of a two-party video-call app
(`backend/server.js`). The server keeps one shared dictionary, `users`, of
participant ids. It pairs a joining socket with an earlier participant and
relays WebRTC negotiation messages (`offer`, `answer`, `ice-candidate`)
between sockets. A built-in simulator adds a synthetic participant every ten
seconds and removes it thirty seconds later.

Node runs every socket.io handler to completion on one event loop, so each
handler is modelled as one atomic method of the class `Server.SignalServer`.
The class has three fields:

- `users: seq<string>`: the keys of `users` in `Object.keys` order. A new
  key goes to the end. Assigning to a key that is already present keeps its
  place. Deleting a key and adding it again moves it to the end.
- `connected: set<string>`: the ids of the live sockets, which are the ones
  `io.to(id)` and `io.emit` reach. This set is not the same as `users`.
- `outbox: seq<Emission>`: every `emit` call that reached at least one
  socket. Each record holds the recipients, the event name and the payload.
  `Messages.Inbox(outbox, id)` gives what socket `id` received, in order.

The object invariant `Valid()` says four things:
- keys are distinct and non-empty;
- every key is a live socket or a `simulated-…` id;
- no live socket has a simulated-looking id;
- as a consequence, a synthetic id in `users` is never reachable.

Modules:
- `Registry` (registry.dfy): the key-sequence operations (assignment,
  `delete`, and the `find` scan) and their order properties.
- `Messages` (messages.dfy): events, payloads, emissions, per-socket inboxes,
  and the `simulated-<Date.now()>` id format.
- `Server` (server.dfy): the class and its handlers. It also holds four client
  methods (`ThreeJoinersShareOnePartner`, `RepeatedJoinKeepsOrder`,
  `SimulatedPartnerIsUnreachable`, `RelayToDepartedIsDropped`) that replay
  concrete scenarios against the method contracts alone.

Points where the code is looser than a strict two-party design, and where
the model follows the code:
- The code enforces no two-party pairing. A third joiner is paired with the
  earliest key, even though that key is already paired
  (`Registry.EarliestPartnersEveryone`, `ThreeJoinersShareOnePartner`).
- The code does not keep simulated participants out of matchmaking. A
  synthetic id can be handed out as a partner, and then nobody receives the
  `user joined` addressed to it.
- The order of the keys decides who becomes the partner, so the registry is a
  sequence, not a set.
- The relay does not look up the target in `users`. It addresses the socket
  room `payload.target` through `io.to`. So a relay reaches any live socket,
  registered or not, and reaches no synthetic id.

## Model

| member | source | states |
|---|---|---|
| `Registry.Put` | backend/server.js:15 | `users[k] = k`: `k` becomes a key and no other key is added; existing keys keep their positions; a new key goes last; a key already present leaves the sequence identical; duplicate-freedom is kept |
| `Registry.Remove` | backend/server.js:36 | `delete users[k]`: exactly `k` disappears and every other key stays; deleting an absent key changes nothing; duplicate-freedom is kept |
| `Registry.FirstOther` | backend/server.js:16 | the `find` scan returns no key exactly when every key equals the joiner; any key it returns is a key other than the joiner |
| `Registry.FirstOtherIsEarliest` | backend/server.js:16 | the returned key is the one at the first position whose key is not the joiner, so it is the earliest-inserted other key |
| `Registry.RemoveKeepsOrder` | backend/server.js:47 | deleting one key of a duplicate-free sequence `before + [k] + after` gives exactly `before + after`, so the other keys keep their order; for the simulator's delete the ids added by later ticks sit in `after`, and the same holds for the disconnect delete |
| `Registry.RemoveUndoesPut` | backend/server.js:35-36 | a socket whose `join room` added it as a new key, and which disconnects before any other key changes, leaves the key sequence exactly as it was before its join |
| `Registry.RejoinMovesToEnd` | backend/server.js:15 | a key that was deleted and assigned again sits at the end of the enumeration |
| `Registry.AbsentNeverPartner` | backend/server.js:16 | a key not in `users` is never chosen as partner by the next `join room`, whoever sends it |
| `Registry.EarliestPartnersEveryone` | backend/server.js:16-19 | no two-party invariant: the earliest key is the partner of every other id that joins after it |
| `Messages.InboxAppend` | backend/server.js:18-19 | what a socket receives over two consecutive stretches of emissions is the first stretch's notices followed by the second's |
| `Messages.Emit` | backend/server.js:24 | an `emit` to a set of sockets logs at most one record, and logs nothing exactly when the set is empty |
| `Messages.EmitInbox` | backend/server.js:24 | after an `emit`, a socket's inbox gains that notice exactly when the socket is a recipient, and is unchanged otherwise |
| `Messages.Decimal` | backend/server.js:43 | a clock reading renders as a non-empty string of decimal digits with no leading zero |
| `Messages.DecimalRoundTrip` | backend/server.js:43 | reading the rendered digits back gives the original clock reading |
| `Messages.SimulatedId` | backend/server.js:43 | a generated id starts with `simulated-` and is non-empty |
| `Messages.SimulatedIdInjective` | backend/server.js:43 | different clock readings give different simulated ids |
| `Server.SignalServer.constructor` | backend/server.js:9 | the server starts with no keys, no live sockets and nothing sent |
| `Server.SignalServer.Connect` | backend/server.js:11-12 | a fresh socket goes live; `users` and the outbox are unchanged, and the new id is not yet a key |
| `Server.SignalServer.Join` | backend/server.js:14-21 | `p` becomes a key, and a repeated join leaves the keys and their order unchanged. The partner is the earliest other key, or none exactly when there is no other key. With a partner `O`, the outbox gains `other user(O)` to `p`, then `user joined(p)` to `O` only if `O` is live. No partner means nothing is sent. A simulated partner is never live. Each socket's inbox changes accordingly and no other socket's inbox changes |
| `Server.SignalServer.Relay` | backend/server.js:23-33 | the same event and the identical payload go to `payload.target` if it is live and to nobody otherwise; the inbox of every other socket is unchanged; `users` and `connected` are untouched |
| `Server.SignalServer.Disconnect` | backend/server.js:35-38 | the socket goes away and its key is deleted (no-op if absent); nothing is sent; afterwards no join can choose it as partner |
| `Server.SignalServer.SimAdd` | backend/server.js:42-45 | `simulated-<stamp>` becomes a key (appended when fresh) and is not a live socket; every live socket, and only those, receives `user joined` for it |
| `Server.SignalServer.SimRemove` | backend/server.js:46-49 | `simulated-<stamp>` is deleted with nothing else removed; every live socket, and only those, receives `user left` for it |

## Left out

- The client `src/App.js` is not part of this model. That covers the React
  state and rendering, media capture, the `RTCPeerConnection` promise chains
  over opaque SDP and candidate objects, and the floating-point speaking
  detector.
- Express, HTTP and socket.io setup and `server.listen` (backend/server.js:1-7,
  52) are foreign transport code. `io.to`, `socket.to`, `socket.emit` and
  `io.emit` are modelled only as records appended to the outbox, with the
  set of live sockets they reach at the time of the call.
- Timers: `setInterval`, `setTimeout` and `Date.now()` are not modelled.
  `SimAdd` and `SimRemove` are explicit steps. The clock reading is their
  `stamp` parameter. Nothing forces a `SimRemove` to follow its `SimAdd`
  thirty seconds later.
- `console.log` output (backend/server.js:12, 37) is I/O.
- Concurrency is not modelled: the event loop serialises handlers.
- Socket ids are environment input, so `Connect` requires a fresh,
  non-empty id that does not start with `simulated-`. socket.io's ids are
  random, so they meet this with overwhelming probability, not by
  construction.
- Array-index keys are not modelled. `Object.keys` lists such keys first,
  but socket ids (20 characters) and `simulated-…` ids are never array
  indices, so insertion order is assumed throughout.
- Relay: in the model the target is always a string, and the payload's
  other fields are one opaque `body` string. Two cases fall outside it. A
  missing or `null` payload makes `payload.target` throw a TypeError out of
  the handler (backend/server.js:24, 28, 32), and nothing catches it. A
  payload whose `target` is `undefined` is also outside the model. The
  client's `ice-candidate` sends exactly that, because it reads `otherUser`
  from the first render's closure (src/App.js:150).
- Relay: which socket sends the message is not modelled, because the
  handlers never read it.
- The handlers of the three negotiation events are identical, so one `Relay`
  method with a `SignalKind` parameter stands for all three.
