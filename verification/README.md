# NullKey in Dafny

NullKey is an end-to-end encrypted chat. Browsers meet in a room of a relay, run a key
handshake with every other browser in it, and send each message encrypted separately for each
peer. This project models the parts of it that are stateful or exact, and proves what they are
there for. `dafny verify dfyconfig.toml` checks the whole project.

## What is modelled

**The handshake over the relay.** `PeerSession` and `Page` are what a browser tab does with the
events it gets: classes that change the session table in place, each method tied to a function on
tables. `Handshake` is the step system of one room: any number of browsers, a first-in first-out
uplink and downlink for every connection, and a relay that takes one frame at a time. Browsers
connect, reconnect, reload, enter, leave and lose connections at any moment; the relay notices
lost connections late, closes clients for violations, still takes what they had under way, and
reaps the room, which may come back. `HandshakeInvariant` and `HandshakeProof` hold the inductive
invariant over sessions and frames in flight and show that a quiet room agrees.
`HandshakeProgress` shows, for every possible run, that whatever is pending is handled in boundedly
many steps and the room becomes quiet. `HandshakeOutcome` tells after every possible run in which
the members have settled whether the room will agree once it is quiet. `HandshakeLimits` derives
from that exactly when the premises matter, and `HandshakeRuns` has complete runs in which they do.
`Delivery` follows a text from the sender's loop through the forwarder to the plaintext at every
other member, and `DeliveryRelay` through the relay's guards to the members' sockets.

**The relay.** `Rooms` is the room manager with its room objects, tokens and sockets, `Relay` the
handler of client events, both as classes whose methods are tied to functions on values.
`RelayLaws` tells table by table what each event does to it, from the tables alone: who is refused,
lists, tokens, records, sockets, what is written and what the guards remember; and counts a client's
violations over its whole connection. `RelayStructure`, `RelayTokens`, `RelayExpiry`, `RelayStreams`
and `RelayGuards` prove properties of all runs. `HandshakeRelay` shows that the relay does with every frame and connection of a room
what the step system does, `OtherRooms` that the clients of other rooms leave the room alone, and
`JointRuns` that every run of the browsers of a room over a relay with any number of rooms is a run
of the step system: agreement holds against the relay's own member list, and what is written to a
socket is what its browser has taken and still has queued.

**Time-windowed guards.** `RateLimit` and `ReplayGuard`, each against a specification by history.

**Codecs.** `Hex`, `Base64`, `FileEnvelope` (with the frame budget) and `InviteLink`.

**The browser's outbox.** `Outbox`: the bounded queue, the reconnect timer, the connect timeout.

## What the code relies on

These premises of the theorems are not enforced by the code.

- Agreement has four premises, each about a moment at which the relay acts. It announces that a
  connection has left or ended only while no other connection of the same browser has settled in the
  room (otherwise `DepartureHarmlessExactly` and the run `OverlapBreaksAgreement`). When it takes the
  last request to enter of a browser that is still there, the connection is not a member already
  (otherwise `RefusalHarmlessExactly` and `EnteringTwiceExactly`), and neither tab nor downlink holds
  a key of anybody who is not in the room (otherwise `EntryHarmlessExactly` and the run
  `LeftoverBreaksAgreement`). A key that a connection of a reaped room had under way is forwarded into
  a room of that id that has come back only if the browser is in it (otherwise
  `IntrusionHarmlessExactly` and the run `IntrusionBreaksAgreement`). Browsers that enter only on fresh
  or drained connections always meet the middle two (`CautiousBrowsersAgree`). The first also covers a
  connection whose room was reaped: its record keeps the room, so that its end is announced in a room
  of that id that has come back. Termination needs none of these premises.
- A text reaches every other member only if each window of the sender's message limit has room for
  the copies that fall into it, each of which counts, and the replay guard refuses none of their
  nonces: `TextReachesAllExactly`.
- Keys on the wire have 32 bytes. Otherwise `BackedUnlessMalformed`: the derivation runs in an async
  function that is not awaited, so its failure is not caught and the session is marked ready.
- No expected fingerprint is pinned. A pin makes readiness one-sided in rooms of three or more.
- Record and list of a connection agree as long as no client that is on the list of its room is
  accepted into another, and if rooms have a capacity of at least one: `StepKeepsRecords` is exact,
  `SecondRoomStaysInBoth` and `NoCapacityParts` show both failures.
- The clock does not run backwards. `AnyClockExactly` and `ForgottenExactly` say what the replay guard
  does with any clock; `BackwardClockLiftsTheBound` and `BackwardClockOutlives` are runs that defeat
  the rate bound and the age bound.

Where code and documentation differ, the model follows the code. docs/protocol.md calls invite
tokens one-time (lines 30, 93 and 236), but room:create checks a token and leaves it unused, so
one token can admit any number of identities that way; `OneTimeUseExactly` and
`LaterAdmissionsExactly` say when.

## Model

| member | source | states |
|---|---|---|
| PeerSession.PeerSessionManager.BroadcastKeyExchange | frontend/services/peer-session.service.ts:35-40 | The session counts as sent even when no callback is installed; the callback runs at most once |
| PeerSession.PeerSessionManager.OnRoomJoined | frontend/services/peer-session.service.ts:46-52 | Every session, and no other, is back at ROOM_JOINED without key or secret |
| PeerSession.PeerSessionManager.OnPeerJoined | frontend/services/peer-session.service.ts:58-76 | The peer's session starts over whatever it was, and our key goes out once |
| PeerSession.PeerSessionManager.OnKeyReceived | frontend/services/peer-session.service.ts:84-118 | Undecodable keys change nothing; otherwise READY with that key, and our key goes out exactly if it had not in this handshake |
| PeerSession.PeerSessionManager.MarkSharedSecretReady | frontend/services/peer-session.service.ts:124-129 | Only a READY session is marked, and the result says whether it was |
| PeerSession.PeerSessionManager.OnPeerLeft | frontend/services/peer-session.service.ts:135-137 | The session is gone, the others stay |
| PeerSession.PeerSessionManager.OnDisconnected | frontend/services/peer-session.service.ts:142-148 | Every session is at DISCONNECTED without key or secret |
| PeerSession.PeerSessionManager.OnLeaveRoom | frontend/services/peer-session.service.ts:153-155 | No session is left |
| PeerSession.PeerSessionManager.GetReadyPeers | frontend/services/peer-session.service.ts:168-174 | Exactly the peers whose session is READY, each once |
| Page.HomePage.OnMessage | frontend/app/page.tsx:283-352 | Sessions, peer list, secrets and active room after each relay event, and whether our key is announced in answer |
| Page.HomePage.OnKeyExchange | frontend/app/page.tsx:469-508 | Own and undecodable keys are ignored; any other key makes session, secret and peer list change together |
| Page.HomePage.EstablishSharedSecret | frontend/src/crypto/session.ts:99-102 | The secret of a peer is replaced, or left alone when the derivation throws |
| Page.HomePage.EnterRoom | frontend/app/page.tsx:383-391 | Entering resets all sessions; create and join also empty the peer list (lines 584-718) |
| Page.HomePage.ResetRoomLocal | frontend/app/page.tsx:722-737 | No session, peer or active room is left; shared secrets stay |
| Page.SessionsFollow | frontend/app/page.tsx:283-352 | The session with each peer after each event: new with an arrival, gone with a departure or the room, READY with a key of somebody else |
| Page.PeersFollow | frontend/app/page.tsx:296-325 | Who is on the peer list after each event: it gains arrivals and senders of keys at its end, loses who leaves, is emptied with the room, and lists nobody twice |
| Page.SecretsFollow | frontend/app/page.tsx:469-508 | A secret comes from a key of the right length of somebody else and from nothing else, and only a closed room ends the active one |
| Page.BackedUnlessMalformed | frontend/app/page.tsx:495-505 | READY sessions stay backed by a secret derived from the recorded key if and only if the event is not a malformed key |
| HandshakeInvariant.InitialInv | frontend/services/peer-session.service.ts:28 | The invariant holds before anybody connects |
| HandshakeInvariant.QuiescentAgreement | frontend/services/peer-session.service.ts:160-174 | The invariant makes a quiet room agree: ready peers are exactly the other members, with their real keys and usable secrets |
| HandshakeInvariant.InFlight | frontend/services/peer-session.service.ts:58-118 | For two seated members: a key that counts as sent is in the sender's uplink, in the other's downlink or recorded there, unless an arrival that will be answered, the later one's or the sender's own on a second connection, is still to be handled; an earlier member that has not sent still has that arrival to handle |
| HandshakeProof.ConnectKeeps | frontend/app/page.tsx:354-392 | A new connection, with or without automatic re-entry, keeps the invariant |
| HandshakeProof.EnterKeeps | frontend/app/page.tsx:584-718 | Creating or joining, at any moment and with anything in flight, keeps the invariant |
| HandshakeProof.LeaveKeeps | frontend/app/page.tsx:739-742 | Leaving keeps the invariant |
| HandshakeProof.DropKeeps | frontend/app/page.tsx:393-397 | Losing a connection, with any part of the uplink, keeps the invariant |
| HandshakeProof.LossExactly | frontend/app/page.tsx:393-397 | After a close event every session is DISCONNECTED, without key and not ready; a silent teardown leaves all sessions as they were |
| HandshakeProof.OfflineIsReadyForNobody | frontend/services/peer-session.service.ts:142-174 | From a close event until it connects again, a browser is ready for nobody, whatever the rest of the system does |
| HandshakeProof.ReceiveKeeps | frontend/app/page.tsx:296-325 | Handling the next event, and answering it, keeps the invariant |
| HandshakeProof.AnnounceKeeps | backend/src/ws/handler.ts:256-265 | Broadcasting a key keeps the invariant |
| HandshakeProof.AdmitKeeps | backend/src/ws/handler.ts:223-234 | Admitting and announcing a newcomer without leftovers of absent peers keeps the invariant; leftovers of members do no harm |
| HandshakeProof.DepartKeeps | backend/src/ws/handler.ts:384-407 | A departure, announced to the others, keeps the invariant |
| HandshakeProof.CloseKeeps | backend/src/ws/handler.ts:399-413 | The late notice of a closed connection, of a member or of somebody whose room was reaped, keeps the invariant |
| HandshakeProof.KickKeeps | backend/src/ws/handler.ts:419-428 | So does a connection that the relay closes for its violations |
| HandshakeProof.ReapKeeps | backend/src/rooms/manager.ts:208-225 | So does a sweep that takes the room |
| HandshakeProof.StepKeeps | frontend/services/peer-session.service.ts:46-174 | Every step keeps the invariant, whatever the browsers do, as long as the relay's entries and departures meet the premises |
| HandshakeProof.AlwaysLocal | frontend/services/peer-session.service.ts:28-174 | After every possible run, whatever premises it broke, links, lists and records fit together, every READY session has the peer's real key and a secret, and an engaged browser has announced its key since it last asked to enter if it counts anybody as told |
| HandshakeProof.HandshakeAgreement | frontend/services/peer-session.service.ts:46-174 | After every disciplined run, a quiet room agrees on who is ready and with which keys |
| HandshakeProgress.ReceiveLowers | frontend/services/peer-session.service.ts:108-115 | Handling an event lowers the measure although it may put a key announcement on the uplink |
| HandshakeProgress.ServeLowers | backend/src/rooms/manager.ts:91-106 | Taking any frame, a key, an entry or a leave, lowers the measure although it fans out to the whole room |
| HandshakeProgress.CloseLowers | backend/src/ws/handler.ts:399-413 | So does noticing the end of a connection |
| HandshakeProgress.SettlingIsBounded | frontend/services/peer-session.service.ts:35-40 | While no browser acts by itself, at most as many steps as the measure are possible, in any order and whatever premises they break |
| HandshakeProgress.SettlingReachesStuck | frontend/services/peer-session.service.ts:35-40 | Some such run handles everything that is pending |
| HandshakeProgress.DeliveriesAreBounded | frontend/services/peer-session.service.ts:35-40 | Deliveries alone leave the members as they are and are bounded too, so keys never ping-pong, whether or not a premise was broken before |
| HandshakeProgress.StuckIsQuiescent | frontend/app/page.tsx:283-352 | When nothing is pending, every member is a browser that is there, in the room and done |
| HandshakeProgress.HandshakeConverges | frontend/services/peer-session.service.ts:46-118 | After every possible run, with entries, leaves, keys, abandoned and closed connections pending, all settling runs are bounded, and when nothing is pending the room is quiet; if the premises were kept, it agrees |
| HandshakeProgress.QuietIsReached | frontend/services/peer-session.service.ts:46-118 | From every state that a run can reach, a room of seated members has a run of deliveries after which it is quiet |
| HandshakeProgress.AgreementIsReached | frontend/services/peer-session.service.ts:46-118 | If the premises were kept, that run reaches agreement with the same members |
| HandshakeOutcome.SettledOutcome | frontend/services/peer-session.service.ts:84-118 | What a settled room will come to is decided: it agrees once it is quiet if and only if every member has every other's key for good or its owner will still announce it, and nobody else's |
| HandshakeOutcome.PremisesSuffice | frontend/services/peer-session.service.ts:84-118 | Where the premises were kept, that is so |
| HandshakeOutcome.OutcomeExactly | frontend/services/peer-session.service.ts:84-118 | After every possible run in which the members have settled: with nobody coming or going the room becomes quiet within the measure, and then agrees if and only if that is so |
| HandshakeOutcome.KeyKeepsOutcome | backend/src/ws/handler.ts:256-265 | Forwarding a key changes nothing about who will hold whom, although it makes others announce theirs |
| HandshakeLimits.DepartureHarmlessExactly | frontend/app/page.tsx:318-325 | A departure is announced while another connection of the browser has settled: the room agrees once it is quiet if and only if that one is alone, or its browser was still to announce its key, by itself or in answer to a member that it does not count as told |
| HandshakeLimits.EntryHarmlessExactly | frontend/app/page.tsx:689-706 | Once an admitted newcomer's room is quiet and nobody else came or went, it agrees if and only if at the admission neither tab nor downlink held a key of anybody absent |
| HandshakeLimits.IntrusionHarmlessExactly | backend/src/ws/handler.ts:256-265 | A key from a connection whose room was reaped is forwarded into the room that has come back: once that is quiet it agrees if and only if it is empty or the browser is in it |
| HandshakeLimits.RefusalHarmlessExactly | frontend/app/page.tsx:595-615 | A member asks to enter again and is refused: the room agrees once it is quiet if and only if its browser holds or will get every other member's key and nobody else's, and every other member holds or will get its key |
| HandshakeLimits.EnteringTwiceExactly | frontend/app/page.tsx:706 | In a quiet room that agrees, the room is quiet again three steps after that and agrees if and only if the member was alone |
| HandshakeLimits.CautiousBrowsersAgree | frontend/app/page.tsx:354-392 | Browsers that enter only on fresh or drained connections never have leftovers and agree in a quiet room |
| HandshakeRuns.LeftoverBreaksAgreement | frontend/app/page.tsx:739-742 | A run that keeps every premise until an admission with a leftover key of an absent browser, after which the quiet room disagrees |
| HandshakeRuns.OverlapBreaksAgreement | frontend/services/peer-session.service.ts:135-137 | A complete run after which the room is quiet and does not agree: reconnecting before the old connection is noticed |
| HandshakeRuns.IntrusionBreaksAgreement | backend/src/rooms/manager.ts:208-225 | A run that keeps every premise until a reaped room has come back and the relay forwards a key from before, after which the quiet room disagrees |
| HandshakeRelay.EnterFollows | backend/src/ws/handler.ts:161-238 | room:create and room:join at the relay are the served entry of the step system: same members, same news to every connection |
| HandshakeRelay.AnnounceFollows | backend/src/ws/handler.ts:240-266 | So is key:exchange |
| HandshakeRelay.LeaveFollows | backend/src/ws/handler.ts:384-397 | So is room:leave |
| HandshakeRelay.CloseFollows | backend/src/ws/handler.ts:399-413 | So is the end of a connection, also of one whose room was reaped |
| OtherRooms.StrangersAreAloof | backend/src/ws/handler.ts:161-413 | Whatever a client of another room does, entering others included, the room, its list, its tokens, and its clients' records and sockets stay as they are, and nothing is written to them |
| OtherRooms.SweepIsAloof | backend/src/rooms/manager.ts:199-226 | So does a sweep that spares the room |
| JointRuns.KickFollows | backend/src/ws/handler.ts:419-428 | So is a client closed for its violations |
| HandshakeRelay.ReapFollows | backend/src/rooms/manager.ts:199-226 | So is a sweep that finds the room expired |
| JointRuns.ServeFollows | backend/src/ws/handler.ts:130-159 | Every frame served by the relay is served alike by the step system |
| JointRuns.JointRunIsARun | backend/src/ws/handler.ts:96-128 | Every joint run of the browsers of a room and a relay with any number of rooms, with sweeps, closes for violations and frames from closed sockets, is a run of the step system of that room, and member lists, sockets and records match at its end |
| JointRuns.WritesAreReceivedOrQueued | backend/src/rooms/manager.ts:99-105 | In every joint run, what the relay writes to the socket of a browser of the room says, event for event and in order, what that has taken and still has queued; only texts, typing and replies come in between |
| JointRuns.SocketsTellDownlinks | backend/src/rooms/manager.ts:99-105 | So from a fresh start |
| JointRuns.BrowsersAgreeWithRelay | backend/src/rooms/room.ts:35-59 | In a quiet room, the peers a listed connection's browser is ready for are exactly the identities the relay has for the others on its list |
| JointRuns.CopyReachesOnly | backend/src/relay/forwarder.ts:37-54 | A copy that passes the guards is written to its recipient's socket only, and nothing else about rooms, tokens or clients changes |
| Delivery.SendMessage | frontend/app/page.tsx:744-782 | The frames that leave are one encrypted copy for each ready peer with a secret, in peer order; none if the room id is not of even length |
| Delivery.RecipientsInOrder | frontend/app/page.tsx:754-782 | Recipients stand in the order of the peer list |
| Delivery.CopiesExactly | frontend/app/page.tsx:754-782 | A copy is made for exactly the recipients with a secret, with the nonce of their place |
| Delivery.ReadExactly | frontend/app/page.tsx:511-577 | Only a copy for this browser from somebody else with a secret is read, and as the decryption has it |
| Delivery.CopyIsRead | frontend/app/page.tsx:511-577 | In an agreeing room the receiver of a copy decrypts it to the text |
| Delivery.ForwardToOther | backend/src/relay/forwarder.ts:37-54 | The relay finds the one other member that bears the recipient's fingerprint |
| Delivery.EndToEnd | frontend/app/page.tsx:754-782 | After any disciplined run to a quiet room, the forwarder has exactly one copy for each other member, which decrypts from it the text that was sent |
| DeliveryRelay.AllPassExactly | backend/src/ws/handler.ts:297-323 | All messages of a client, taken at times that do not decrease, pass the guards if and only if each window of its limit has room for those that fall into it, their files are in order, no nonce is remembered and none comes twice too soon |
| DeliveryRelay.RoomAtOnce | backend/src/ws/handler.ts:80-94 | At one time that is: the live bucket, or a new one, has room for all |
| DeliveryRelay.ManyMessages | backend/src/ws/handler.ts:343-347 | In a run in which a client sends to single recipients, and anything calm happens in between, a socket gets from it exactly the messages that pass and are for it, in order |
| DeliveryRelay.OthersAreCalm | backend/src/ws/handler.ts:268-413 | Calm is what other members say, what clients of other rooms do and every sweep that spares the room, unless it speaks in the client's name |
| DeliveryRelay.ChatterIsUndisturbed | backend/src/ws/handler.ts:268-413 | So whole joint runs of such events may lie between the messages |
| DeliveryRelay.TextReachesAllExactly | frontend/app/page.tsx:754-782 | In a quiet room after any joint run, and with the copies taken at any times and any calm events in between, every other member gets exactly its own copy on its socket and reads the text from it, if and only if each window of the sender's limit has room for its copies and their nonces are new |
| DeliveryRelay.CopiesAtOnce | frontend/app/page.tsx:754-782 | Copies taken at one time with nothing in between are such a run, and have room if and only if the live bucket, or a new one, has |
| Rooms.RoomModel.AddClient | backend/src/rooms/room.ts:35-47 | The client is appended and activity noted if and only if fewer clients than the maximum are listed and it is not one of them |
| Rooms.RoomModel.RemoveClient | backend/src/rooms/room.ts:49-59 | The client is taken off, order kept; activity is noted only if it was listed |
| Rooms.RoomModel.UpdateLastActivity | backend/src/rooms/room.ts:69-71 | Only the activity time changes |
| Rooms.RoomManager.AddRoom | backend/src/rooms/manager.ts:29-40 | A new empty room with its token unused, or nothing if the id is taken |
| Rooms.RoomManager.AddClientToRoom | backend/src/rooms/manager.ts:48-55 | Only the list of that room changes, and only if it admits the client |
| Rooms.RoomManager.RemoveClientFromRoom | backend/src/rooms/manager.ts:63-71 | Only the list of that room changes, and only if the client was on it |
| Rooms.RoomManager.BroadcastToRoom | backend/src/rooms/manager.ts:91-106 | Activity is noted and every open listed socket but the sender's is written to |
| Rooms.SpreadReaches | backend/src/rooms/manager.ts:99-105 | A broadcast adds exactly one frame to each open listed socket but the sender's, and nothing to any other |
| Rooms.RoomManager.VerifyInviteToken | backend/src/rooms/manager.ts:135-140 | Valid exactly if known and unused or bound to the presented fingerprint |
| Rooms.RoomManager.BindInviteToken | backend/src/rooms/manager.ts:151-157 | Only an unused token changes, and takes the given fingerprint |
| Rooms.RoomManager.AddInviteToken | backend/src/rooms/manager.ts:179-193 | A live room gets the new token unused; a known token keeps its binding |
| Rooms.RoomManager.CloseEach | backend/src/rooms/manager.ts:212-221 | Each open socket of the list gets one notice and is closed |
| Rooms.RoomManager.CleanupExpiredRooms | backend/src/rooms/manager.ts:199-226 | All expired rooms and their tokens go at once, each open socket in them is notified once and closed |
| Relay.WebSocketHandler.SendError | backend/src/ws/handler.ts:419-428 | A violation is counted if violations are; the one that reaches the maximum closes the connection instead of being answered |
| Relay.WebSocketHandler.HandleRoomCreate | backend/src/ws/handler.ts:161-196 | Whole new state for a new room, a rejoin and every refusal |
| Relay.WebSocketHandler.HandleRoomJoin | backend/src/ws/handler.ts:198-238 | Whole new state for an admission, which binds the token, and every refusal |
| Relay.WebSocketHandler.HandleKeyExchange | backend/src/ws/handler.ts:240-266 | The announced identity is taken over, and broadcast only by a client in the room |
| Relay.WebSocketHandler.CheckMessage | backend/src/ws/handler.ts:297-323 | Limiter, file checks and replay guard are asked in this order, with what each of them counts or marks even if the message is refused |
| Relay.WebSocketHandler.HandleSendMessage | backend/src/ws/handler.ts:268-348 | Refused outside the room or by a guard, else to one recipient or to the room, with the guards' whole new state |
| Relay.WebSocketHandler.ForwardMessageToClient | backend/src/relay/forwarder.ts:37-54 | The first listed client with the fingerprint, connected or not, is found and no activity is noted; true if and only if there is one and its socket is open |
| Relay.WebSocketHandler.HandleInviteCreate | backend/src/ws/handler.ts:355-373 | A client in the room adds an unused token; everyone else is refused |
| Relay.WebSocketHandler.HandleTypingEvent | backend/src/ws/handler.ts:375-382 | Broadcast to the room of the client, if it has one |
| Relay.WebSocketHandler.HandleRoomLeave | backend/src/ws/handler.ts:384-397 | Announced, taken off the list, record cleared, replay data purged, confirmed |
| Relay.WebSocketHandler.HandleClientDisconnect | backend/src/ws/handler.ts:399-413 | Taken off the list, then announced to those who remain; replay data and message count are forgotten |
| RelayLaws.PassesExactly | backend/src/ws/handler.ts:297-323 | A message passes if and only if it is within the rate of its client, has no file or one of a size that is a number, not zero and at most the maximum, and a nonce not remembered from within the time to live |
| RelayLaws.RecordsFollow | backend/src/ws/handler.ts:96-428 | A record is made at acceptance and goes at the end; in between only entering, leaving, announcing a key and refusals of its own client change it, and how |
| RelayLaws.SocketsFollow | backend/src/ws/handler.ts:419-428 | A socket is open from its acceptance to its end, to the refusal that uses up the violations of its client or to the sweep of a room that lists it |
| RelayLaws.ListsFollow | backend/src/rooms/room.ts:35-59 | A list gains whoever enters, at the end, and loses whoever leaves or is disconnected; no other event touches it |
| RelayLaws.CapacityExactly | backend/src/ws/handler.ts:213-223 | An unlisted client with a token that the live room has for it is turned away if and only if the maximum is reached, and without one always |
| RelayLaws.TokensFollow | backend/src/rooms/manager.ts:135-193 | What becomes of every token in every event: unused from the opening or an invitation, bound by room:join alone, gone with the room |
| RelayLaws.NewTokensAreMinted | backend/src/ws/handler.ts:355-373 | While a room lives, a new token of it is unused and comes from invite:create by a client whose record names the room; nobody else changes which tokens it has |
| RelayLaws.EveryTokenHasAnAuthor | backend/src/ws/handler.ts:355-373 | Over every run, whatever token a room has gained was brought by the room:create that opened it or by such an invite:create |
| RelayLaws.WritesExactly | backend/src/rooms/manager.ts:91-106 | What each event writes to each socket: the answer to its client, one broadcast to each other open listed client, one message to the first that goes by the name, or the closing notice |
| RelayLaws.CountsFollow | backend/src/ws/handler.ts:80-94 | Every message from inside a room counts against its name, taken or refused, and only a disconnect forgets the count |
| RelayLaws.NoncesFollow | backend/src/ws/handler.ts:42-66 | A nonce is noted if and only if limiter and file checks let its message through and it is new, and forgotten with age or when a client of the name goes |
| RelayLaws.RefusedFiles | backend/src/ws/handler.ts:304-313 | In every reachable state, a file message without size, of size zero or above the maximum goes to nobody, counts against the limiter and leaves the replay table alone |
| RelayLaws.ViolationsCount | backend/src/ws/handler.ts:419-428 | As long as a client is connected, its record counts exactly the refusals of its events |
| RelayLaws.ClosedExactly | backend/src/ws/handler.ts:419-428 | Over every run, the relay has closed a connected client if and only if its refusals have reached the maximum or a sweep has found it in a room over age |
| RelayStructure.StepKeepsLists | backend/src/rooms/manager.ts:29-71 | Every event keeps capacities, distinct sockets and tokens only for live rooms |
| RelayStructure.ListsAlwaysOk | backend/src/rooms/room.ts:35-59 | So does every run |
| RelayStructure.StepKeepsRecords | backend/src/ws/handler.ts:161-238 | Lists and records agree after an event if and only if it does not put a client that is on the list of its room on the list of another |
| RelayStructure.RecordsAlwaysOk | backend/src/ws/handler.ts:384-413 | In every run from the empty relay without such a step, a listed client's record names exactly that room, so no connection is in two, and an open client with a record is on the list of a live room |
| RelayStructure.SecondRoomStaysInBoth | backend/src/ws/handler.ts:172-224 | A client that is created into, rejoins or joins another room without leaving is on both lists |
| RelayStructure.NoCapacityParts | backend/src/ws/handler.ts:172-175 | Without capacity, the creator of a room is recorded in it and not listed |
| RelayTokens.AdmissionExactly | backend/src/ws/handler.ts:177-227 | A live room admits if and only if the token is unused or bound to the presented identity and there is a place |
| RelayTokens.OnlyEntriesAdmit | backend/src/ws/handler.ts:184-223 | Nothing but the client's own room:create or room:join puts it on the list of a live room |
| RelayTokens.StepKeepsBinding | backend/src/rooms/manager.ts:151-157 | A bound token keeps its binding through every event that leaves the room alive |
| RelayTokens.RunKeepsBinding | backend/src/rooms/manager.ts:142-157 | And through every run, until the room is reaped |
| RelayTokens.BoundTokenAdmitsItsOwner | backend/src/rooms/manager.ts:135-140 | Whoever enters through a bound token presents its fingerprint and is known by it afterwards |
| RelayTokens.AdmissionBinds | backend/src/ws/handler.ts:225-227 | After an admission the token is unused if and only if it was and the newcomer came by room:create or without a fingerprint |
| RelayTokens.OneIdentityPerToken | backend/src/ws/handler.ts:213-227 | Once room:join has admitted an identity through a token, every later admission through it in that incarnation of the room is of the same identity |
| RelayTokens.OneTimeUseExactly | backend/src/ws/handler.ts:177-186 | Right after an admission another identity gets in through the token if and only if it was unused and not consumed by room:join with a fingerprint |
| RelayTokens.TokenAfterRun | backend/src/rooms/manager.ts:142-157 | While the room lives, an unused token is bound after a run exactly to the first identity that room:join admitted through it with a fingerprint, and unused if and only if there is none |
| RelayTokens.LaterAdmissionsExactly | backend/src/ws/handler.ts:177-227 | While the room lives and has a place, a later entry through the token is admitted if and only if nobody has used it up since, or it is that identity |
| RelayExpiry.SweepExactly | backend/src/rooms/manager.ts:199-226 | Rooms and tokens go if and only if expired; each open member of an expired room gets exactly one notice, however many of its rooms expire, and is closed; all else stays |
| RelayExpiry.StepMovesActivity | backend/src/relay/forwarder.ts:37-54 | A room's creation time never changes, and its activity time moves exactly on admissions, broadcasts and departures, not on messages to one recipient |
| RelayExpiry.NoRoomOutlivesItsLimits | backend/src/ttl/cleanup.ts:25-34 | With sweeps at most a gap apart, no room is ever older than lifetime plus gap or idle longer than idle time plus gap |
| RelayExpiry.OnlySweepsRemove | backend/src/rooms/manager.ts:202-225 | An event removes a room if and only if it is a sweep that finds it expired |
| RelayExpiry.LivesExactly | backend/src/rooms/room.ts:77-84 | A room lives through a run if and only if at every sweep it is within its lifetime and was active recently enough |
| RelayExpiry.BackwardClockOutlives | backend/src/rooms/room.ts:78-83 | With a clock that falls back after a sweep, a room outlives the bound |
| RelayStreams.StepSeen | backend/src/ws/handler.ts:161-413 | Every event adds to what a connection has seen of a room exactly the broadcast others made while it listens |
| RelayStreams.ForwardSeen | backend/src/relay/forwarder.ts:37-54 | Messages to one recipient are not part of any broadcast stream |
| RelayStreams.OrderedStreams | backend/src/rooms/manager.ts:91-106 | In every run a connection sees of each room exactly the others' broadcasts while it is listed and open, in order, each once |
| RelayStreams.MembersHearTheLog | backend/src/rooms/manager.ts:99-105 | A member that stays hears the whole log of the room but its own part |
| RelayStreams.PlacesAreHeard | backend/src/rooms/manager.ts:99-105 | What a connection hears is the log of the room at increasing places |
| RelayStreams.MembersAgreeOnOrder | backend/src/rooms/manager.ts:91-106 | Whenever two connections, whatever their histories of membership, both hear two broadcasts, they hear them in the same order |
| RelayStreams.HeardByBoth | backend/src/rooms/manager.ts:99-105 | A broadcast is in both streams if and only if both listened and neither made it |
| RelayGuards.RelayRefusesReplays | backend/src/ws/handler.ts:315-323 | In every run of the relay it takes, of the messages that get that far, exactly those whose nonce it has not taken from that sender within the time to live, since a client of that name last went |
| RelayGuards.RelayBoundsMessages | backend/src/ws/handler.ts:297-301 | In every run of the relay a closed interval as long as the window holds at most 2 * max(1, limit) - 1 taken messages of a name, and max(1, limit) more for each client of it disconnected in that interval |
| RateLimit.RateLimiter.Check | backend/src/server.ts:65-80 | Verdict and counters of one request |
| RateLimit.RateLimiter.CheckMessage | backend/src/ws/handler.ts:80-94 | The same per fingerprint, and always a pass without one |
| RateLimit.RateLimiter.Delete | backend/src/ws/handler.ts:408-411 | A disconnect forgets the bucket of that fingerprint only |
| RateLimit.RateLimiter.Sweep | backend/src/server.ts:199-206 | A bucket stays if and only if its window started at most two windows ago, as it is |
| RateLimit.SweepTransparency | backend/src/server.ts:199-206 | Sweeps at any times leave every verdict of every run as it is without them |
| RateLimit.FixedWindowBound | backend/src/server.ts:65-80 | A closed interval as long as the window holds at most 2 * max(1, limit) - 1 accepted requests of a key, and max(1, limit) more for each deletion of its bucket in that interval |
| RateLimit.BoundReached | backend/src/server.ts:69-76 | For every limit and window of at least one, and every number of deletions, there is a run that reaches that bound |
| RateLimit.AnyClockBound | backend/src/server.ts:69-76 | With any clock, sweeps and deletions, at most max(1, limit) requests are accepted for each window opened |
| RateLimit.DeletionsLiftTheBound | backend/src/ws/handler.ts:410 | With the bucket deleted on each disconnect any number of requests passes at one instant |
| RateLimit.BackwardClockLiftsTheBound | backend/src/server.ts:69-76 | So does a clock that jumps and comes back, for any limit of at least two |
| ReplayGuard.Guard.CheckAndMark | backend/src/ws/handler.ts:42-61 | With a clock that has not run backwards, accepted exactly if the log since the last purge has no such nonce within the time to live; with any clock, as the pruned table says; always when switched off |
| ReplayGuard.Guard.Prune | backend/src/ws/handler.ts:51-55 | Exactly the entries older than the cutoff go |
| ReplayGuard.Guard.Purge | backend/src/ws/handler.ts:64-66 | One fingerprint is forgotten, the others stay |
| ReplayGuard.CheckRefines | backend/src/ws/handler.ts:42-61 | The lazily pruned table keeps standing for the log, and decides as the log does |
| ReplayGuard.ReplayRefinement | backend/src/ws/handler.ts:42-66 | So over every run of checks and purges with a clock that does not run backwards |
| ReplayGuard.RepeatsAreSpaced | backend/src/ws/handler.ts:35-61 | Between purges, accepted repeats of a nonce are more than the time to live apart |
| ReplayGuard.AnyClockExactly | backend/src/ws/handler.ts:42-61 | In every run, with any clock, a nonce is refused if and only if an acceptance of it is recent and no check since found it too old |
| ReplayGuard.ForgottenExactly | backend/src/ws/handler.ts:51-57 | Guard and log differ about a recent nonce if and only if each of its recent acceptances was followed by a check more than the time to live later, which lies after now |
| ReplayGuard.BackwardClockForgets | backend/src/ws/handler.ts:52-55 | This does happen with a clock that runs backwards |
| Hex.ToHex | frontend/utils/encoding.ts:10-16 | The loop spells every byte with two digits |
| Hex.FromHex | frontend/utils/encoding.ts:18-27 | Throws on odd length, otherwise reads each pair as parseInt does, stray characters included |
| Hex.EncodeExactly | frontend/utils/encoding.ts:10-16 | Every byte is its two digits, the high one first |
| Hex.DecodeExactly | frontend/utils/encoding.ts:18-27 | Something is returned if and only if the length is even, and every byte is the value of its pair, with stray digits, signs and spaces as parseInt has them |
| Hex.HexRoundTrip | frontend/src/socket/client.ts:40-60 | Reading back written bytes gives the same bytes |
| Hex.HexNormalForm | frontend/src/socket/client.ts:51-60 | Text of even length comes back in lower case if and only if it is all hexadecimal |
| Base64.ToBase64 | frontend/utils/encoding.ts:29-33 | The loop and btoa give the padded text of section 4 of RFC 4648 |
| Base64.DecodeBase64 | frontend/utils/encoding.ts:35-40 | Fails exactly where atob throws, otherwise holds the decoded bytes |
| Base64.DecodeBase64Url | frontend/utils/encoding.ts:46-50 | The padding loop ends, and the result is that of decoding the padded text |
| Base64.Base64RoundTrip | frontend/utils/encoding.ts:29-40 | Decoding what was encoded gives the same bytes |
| Base64.UrlText | frontend/utils/encoding.ts:42-44 | URL-safe text has only the characters of section 5 of RFC 4648 and no padding |
| Base64.Base64UrlRoundTrip | frontend/utils/encoding.ts:42-50 | Decoding URL-safe text gives the same bytes |
| Base64.EncodedLength | frontend/utils/encoding.ts:29-33 | n bytes take 4 * ceil(n / 3) characters |
| Base64.AlphabetExactly | frontend/utils/encoding.ts:29-40 | The letters are those of table 1 of RFC 4648 |
| Base64.SextetBits | frontend/utils/encoding.ts:29-33 | Four letters carry the bits of three bytes in order |
| Base64.LastSextets | frontend/utils/encoding.ts:29-33 | One or two bytes at the end are filled up with zero bits |
| Base64.EncodeExactly | frontend/utils/encoding.ts:29-33 | The text is the letters and then only padding |
| Base64.SpaceIgnored | frontend/utils/encoding.ts:35-40 | White space anywhere in the text changes nothing |
| Base64.AcceptedExactly | frontend/utils/encoding.ts:35-40 | Text without white space is accepted if and only if it is letters with at most two padding characters that complete a group, and says what the letters say |
| Base64.OctetBits | frontend/utils/encoding.ts:35-40 | Three bytes have the bits of four letters in order |
| Base64.LastOctets | frontend/utils/encoding.ts:35-40 | Of two or three letters at the end the bits left over are dropped |
| Base64.UrlAcceptedExactly | frontend/utils/encoding.ts:46-50 | URL-safe text without padding is accepted if and only if its letters and its length are possible |
| FileEnvelope.Build | frontend/app/page.tsx:846-849 | The filled buffer is length field, header and content |
| FileEnvelope.EnvelopeRoundTrip | frontend/app/page.tsx:906-912 | Parsing a built envelope gives back both parts if and only if the header is shorter than 2^32 bytes |
| FileEnvelope.AcceptedRebuilds | frontend/app/page.tsx:906-912 | Every accepted envelope is the envelope of what was parsed from it |
| FileEnvelope.BigEndian | frontend/app/page.tsx:846-849 | The length field has the high byte first, modulo 2^32 |
| FileEnvelope.RejectedExactly | frontend/app/page.tsx:906-912 | The parser fails if and only if the length field is missing or says more than there is, and says which |
| FileEnvelope.BudgetExactly | backend/src/config.ts:76-79 | A frame size is within the budget if and only if it is within the message limit or the encoded file limit plus 8192 |
| FileEnvelope.FrameSizeIsTextSize | backend/src/config.ts:72-75 | The size the budget counts is that of the base64 text plus the rest of the frame |
| FileEnvelope.FrameBudget | backend/src/config.ts:76-79 | Every permitted file fits its frame under all limits if and only if header overhead and other text are within 8192 bytes |
| FileEnvelope.FrameBudgetSuffices | backend/src/config.ts:76-79 | In particular when other text and ceil((4h + 24) / 3) are |
| InviteLink.KeysFound | frontend/app/page.tsx:64-66 | In a printed fragment the leftmost match of each key is its own field |
| InviteLink.InviteRoundTrip | frontend/services/room.service.ts:13-30 | Parsing a printed link gives back secret, token and fingerprint |
| InviteLink.ParsedFieldsAreHex | frontend/services/room.service.ts:18-30 | Whatever is parsed stands in the hash behind the leftmost match of its key |
| InviteLink.ParsedExactly | frontend/services/room.service.ts:18-30 | An invite is read if and only if a secret and a token stand in the hash, with a fingerprint if one does |
| InviteLink.SearchExactly | frontend/app/page.tsx:64-66 | A search finds the leftmost match, and none if and only if there is none |
| InviteLink.HashExactly | frontend/app/page.tsx:64-66 | The hash begins at the first number sign of the page address |
| Outbox.WebSocketClient.Connect | frontend/src/socket/client.ts:101-118 | Nothing if open; otherwise a new socket, the old one and its timer gone, its timeout still armed |
| Outbox.WebSocketClient.Teardown | frontend/src/socket/client.ts:181-200 | No socket and no timer are left |
| Outbox.WebSocketClient.SendMessage | frontend/src/socket/client.ts:215-225 | On the wire if open; otherwise at the end of the queue while it has fewer than 100 frames; otherwise dropped |
| Outbox.WebSocketClient.FlushQueue | frontend/src/socket/client.ts:202-209 | The queue goes out in order if the socket is open |
| Outbox.WebSocketClient.OnOpen | frontend/src/socket/client.ts:120-129 | An active or stored room is re-entered first (frontend/app/page.tsx:354-392), then the queue goes out |
| Outbox.WebSocketClient.OnClose | frontend/src/socket/client.ts:140-150 | An unintended close leaves no socket and arms the reconnect timer |
| Outbox.WebSocketClient.Resume | frontend/src/socket/client.ts:89-99 | A socket that is still connecting is left alone, any other is replaced |
| Outbox.WebSocketClient.EnterOrLeave | frontend/src/socket/client.ts:260-273 | The queue is cleared before the frame is submitted |
| Outbox.WebSocketClient.Disconnect | frontend/src/socket/client.ts:175-179 | Queue, socket and timer are gone and the close is marked as intended |
| Outbox.StepKeeps | frontend/src/socket/client.ts:101-225 | Every event keeps the invariant of the outbox |
| Outbox.OutboxDiscipline | frontend/src/socket/client.ts:101-273 | In every run frames go out in order and once, each is sent, queued or counted as dropped, the queue keeps its bound, socket and reconnect timer exclude each other, and every opening with a room starts with room:create |
| Outbox.OpeningExactly | frontend/src/socket/client.ts:120-129 | An opening puts room:create on the wire if a room is active or stored, and otherwise the whole queue |
| Outbox.DropsExactly | frontend/src/socket/client.ts:211-225 | A frame is dropped only by clearing the queue or by sending when nothing is open and 100 frames are queued |
| Outbox.SubmissionIsQueued | frontend/src/socket/client.ts:215-225 | What is sent while nothing is open and the queue has room stands at its end, and nothing goes out |
| Outbox.RoomFollows | frontend/app/page.tsx:354-392 | The room to come back to is set by entering or by what was stored at an opening, and ended by leaving alone |
| Outbox.QueuedIsSentExactly | frontend/src/socket/client.ts:202-225 | In every run that does not clear the queue, a queued frame is on the wire at the end if and only if a socket has opened, and still queued otherwise |
| Outbox.DisconnectedStays | frontend/src/socket/client.ts:175-179 | After an asked-for close nothing but a call to connect or resume brings a socket back |
| Outbox.CloseIsRepaired | frontend/src/socket/client.ts:140-150 | An unasked close is followed by an attempt of its own, with room and queue as they were |
| Outbox.PlainOnOpenExactly | frontend/src/socket/client.ts:126-127 | A listener that sent a plain frame on open would keep the order if and only if the queue is empty |
| Outbox.StrandedExactly | frontend/src/socket/client.ts:114-118 | A step leaves the client without socket and reconnect timer, unasked, if and only if it is a connect timeout, of the current or an abandoned attempt |
| Outbox.RescuedExactly | frontend/src/socket/client.ts:89-111 | Only connecting, resuming or disconnecting ends that |
| Outbox.StrandedAfterExactly | frontend/src/socket/client.ts:101-179 | Over every run, stranded at the end if and only if the last of those calls and timeouts was a timeout without an asked-for close |
| Outbox.StaleTimeoutHappens | frontend/src/socket/client.ts:108-118 | Two overlapping connects are enough to strand an open connection |

## Left out

- X25519, HKDF, AES-GCM and SHA-256: foreign calls. Delivery takes them as functions and assumes commutative key agreement (section 6.1 of RFC 7748) and decryption of what was encrypted.
- The fingerprint pin (frontend/app/page.tsx:476-482): it makes readiness one-sided on purpose.
- JointRuns.JointRunIsARun: a browser uses one room, which may be reaped and come back, throughout a run; what a tab keeps from another room is not part of the step system. Relay has clients that change rooms.
- Delivery.EndToEnd: the relay's guards are not part of it, because DeliveryRelay has them.
- Messages of type file are not in EndToEnd; their envelope, text form and frame size are in FileEnvelope and Base64.
- JSON and the field checks of backend/src/ws/validation.ts: events carry well-formed fields, and a payload that fails is the event Malformed. backend/src/ws/handler.ts:100-116 answers an unparsable frame without counting a violation; that reply is not a separate event.
- Display names, addresses and log output are not kept.
- A client connection is a value in a table, not an object shared by handler and room; sockets are numbers with a set of open ones and a log of what was written. Writing to a closing socket is writing to a closed one.
- A shared secret is kept as the key it was derived from, since the private key of a tab never changes. Fingerprints are numbers in the handshake and strings at the relay; HandshakeRelay connects them.
- PeerSession.PeerSessionManager.GetReadyPeers: says which peers and that each comes once, not the order of the Map, because nothing depends on it.
- React components, storage, routes, headers, metrics, origin check and connection counts per address: plumbing without a hard invariant.
- InviteLink.InviteRoundTrip: page address without '#', as origin and path are.
- Characters are Unicode scalar values, not UTF-16 code units; every text that round-trips here is ASCII.
- The older parallel code under frontend/hooks, and crypto.service and file.service.
