# E2EAnon, verified

A Dafny model of the anonymous end-to-end encrypted chat: the Go relay under
`server/internal` and the TypeScript browser client under `web/src`, with proofs of
what they promise together. `dafny verify dfyconfig.toml` checks everything.

## The parts

**Key rotation** (`RotationClient`, `RotationNet`, `RotationConfinement`,
`RotationAgreement`, `RotationSettles`, `RotationOverlap`, `BrowserSession`, `Sums`). Browser clients, the relay's room and one
first-in-first-out queue per client and direction. Room keys are atoms, and a sealed
value opens exactly with the secret it was sealed under. The handlers are functions on
a client value; the class `Session` updates its fields in place as the program does,
and each method is proved to do what its function says. Confinement holds in every
interleaving and with any lost frames. Agreement holds for changes that do not overlap
and lose nothing, and such a change always comes to rest; a run with two overlapping
joins shows that it fails otherwise.

**The relay** (`RelaySystem`, `RelayInvariants`, `RelayTheorems`, `RelayHistory`,
`RelayProgress`). Every lock-held
section is one step of one connection, so between the check and the act of a handler
all others may run. A connection is a program counter through the session, the creator
or joiner path, the handshake loop, the member loop and the deferred cleanup; a `Close`
past its locked section is a thread of its own. The invariant is kept step by step: the
acting connection re-establishes its own part, and all others are shown to be at most
bystanders. `RelayProgress` says what the relay does for those it serves: exactly who is
let in, and what each request comes to.

**The relay's objects and what members hear** (`RoomLog`, `BroadcastOrder`,
`RelayObjects`, `RelayLink`). Client, room and hub as mutable objects, with their loops over maps in
any order. Each room method is proved against a function on the room's value, and the
runs of those functions keep the log, the queues and the rosters together. `RelayLink`
shows that the rooms of the step system and of the rotation network change alike.

**Bytes in flight** (`Inflight`, `FileRelay`). The shared counter as a machine whose
steps are the single atomic adds, and the server's handler run alone.

**Handshake** (`Bytes`, `Spake2`, `Handshake`, `HandshakePair`, `HandshakeLink`). SPAKE2 over the integers
modulo a prime, with the real byte loops; the session object; and two of them joined by
two queues up to `enter`. The last is what the one step `Shake` of `RotationNet` stands
for; its clients are shown to treat the key frames as the rotation model's do.

**Envelopes and files** (`Base64`, `Envelope`, `FileTransfer`, `FileObjects`, `KeyRing`,
`FileJourney`). Encodings on real bytes and characters, sealing over an ideal cipher,
chunking and reassembly, the ring of kept keys that wipes what it drops under whoever
captured it, the exact size a file takes at the relay, and its whole way from the
sending loop to the receiver.

**Rate limiter** (`RateLimit`).

## Assumptions

- Member ids, room ids, handshake ids, tokens and keys drawn at random are new.
- The curve library: the identity has no encoding, so turning it into bytes throws, and
  decoding never yields it; scalars from one up to the order multiply. The library
  itself is not part of this model.
- The cipher adds a 16-byte tag and decrypts what it encrypted, and where a wiped key
  matters, not what was encrypted under that key or under zeros in place of the other
  (`Envelope.Apart`, and for derived keys `Envelope.Separates`; stand-ins meet all of
  these); key agreement commutes;
  text coding is the identity on ASCII. Hash, key derivation and MAC are arbitrary
  functions; where different codes meet, either the colliding confirmations are named or
  none are assumed to exist (`Spake2.CollisionFree`).
- Room size is at least one (`server/internal/config/config.go:69-71` enforces it).
- The rate limiter's clock does not go back. The program reads it before taking the
  lock, so two racing requests could be counted in the other order.
- No array has 2^64 bytes or more.

## Where the code says less than its comments

- `server/internal/ratelimit/ratelimit.go:10` promises at most the limit per window. A
  fixed window does that per bucket only; over an arbitrary interval of that length up
  to twice the limit less one get through, and no more. The promise holds exactly for a
  limit of one or an empty window.
- `server/internal/relay/client.go:24-27` says that a queue is closed exactly once. If a
  room is closed between its creation and its founder's `Add`, the founder's queue is
  never closed; `server/internal/httpapi/server.go:169` takes that `Add` to be infallible.
  That is the only exception, and a run shows it.
- `server/internal/httpapi/server.go:135-138` gives back what a connection still held. A
  `file_start` for a transfer that is open and has bytes forgets them, and they stay
  counted for good. Bytes leak exactly then.
- `web/src/main.ts:694-695` says that the whole transfer uses the key captured at its
  start. The captured array is wiped when five more keys are pushed while the file is
  being read or sent (`web/src/main.ts:531-535`), and the rest is then sealed under zeros;
  a teardown wipes it too, which matters only if a new session exists when the loop goes
  on. While the session lasts the promise holds exactly if fewer than five keys are pushed
  before the last chunk. The same goes for the key a receiver captured, from its place.

## Model

| member | source | states |
|---|---|---|
| RotationAgreement.RotationAgreement | web/src/main.ts:397-535 | After any number and order of joins, leaves, kicks and transfers that do not overlap and lose no frame, at every moment with nothing in flight: the members of an open room have one newest key, the owner knows exactly the members, everybody names the owner and has every other member's true public key. Frames within a change arrive in any order the queues allow. |
| RotationAgreement.AnyMemberCanRekey | web/src/main.ts:525-529 | In such a state, whatever any member seals to any other member as owner, that member can open. |
| RotationAgreement.RunPhase | web/src/main.ts:397-535 | Every state of a serialized run is in one of the named phases of a change (settled, waiting for the owner's presence, asked, handed over, three phases of a join). |
| RotationAgreement.PresenceForgets | web/src/main.ts:506-522 | An owner that stays owner keeps the public key of someone it knew if and only if the presence lists it; if not, it rotates the room key and sends it nothing. |
| RotationOverlap.OverlapDisagrees | web/src/main.ts:397-523 | Why agreement needs changes that do not overlap: a run from a created room with two overlapping joins and no lost frame that ends with everything delivered and the room open, in which the second joiner is a member with a key that nobody else uses and the owner does not have its public key. |
| RotationSettles.FewStepsLeft | web/src/main.ts:397-535 | In every run, from every state, with or without overlaps and losses: until somebody asks for another change, only a bounded number of steps is left, and the bound is given. |
| RotationSettles.StepSpends | web/src/main.ts:234-301 | Every frame served or handled uses up some of that bound, whatever it causes to be sent. |
| RotationSettles.ComesToRest | web/src/main.ts:397-535 | Every serialized run, from wherever it stands, comes to rest by serving and delivering alone, and the room is then agreed or closed: what agreement promises is reached after every change. |
| RotationConfinement.KeyConfinement | web/src/main.ts:417-429 | In every interleaving, with any losses: whoever holds a room key either drew it, or was in the drawing client's member view (with the joiner being admitted) at that very step. |
| RotationConfinement.JoinerHoldsNothingOlder | web/src/main.ts:417-456 | Whoever is not the founder and holds keys was admitted by a rotation, and every key it holds was drawn no earlier than that one. |
| RotationConfinement.DepartedIsShutOut | web/src/main.ts:495-523 | When two presences in a row name a client owner and the second drops an id, the client installs a fresh key on handling the second, all it then sends in that step tells the dropped id nothing, and the dropped id never holds that key, in the whole run. |
| RotationConfinement.RunKeeps | web/src/main.ts:397-535 | The invariant behind both: sealed keys in queues, tables and clients are meant for whoever can open them. |
| RotationNet.ServeKeepsClients | server/internal/httpapi/server.go:287-321 | No step of the relay changes a client or who was meant to hold a key. |
| RotationNet.DeliverLive | web/src/main.ts:234-301 | What one delivery does to all queues and clients, point by point. |
| RotationClient.PushKey | web/src/main.ts:531-535 | The new key is first, at most five are kept, and the others move down one place. |
| RotationClient.DecryptAny | web/src/main.ts:320-330 | A roster opens exactly if its key is among those held. |
| BrowserSession.Session.OnMessage | web/src/main.ts:234-301 | The session object, updated in place, ends in the state, sends the frames and draws the keys that the value-level handler computes; it ends the session exactly when that does. |
| BrowserSession.Session.Presented | web/src/main.ts:495-523 | `onPresence` on the object is the value-level handler, with its loops over removed and remaining members. |
| BrowserSession.Session.Rotate | web/src/main.ts:417-429 | `rotateForJoin` on the object is the value-level one. |
| BrowserSession.Session.GotMemberKey | web/src/main.ts:397-415 | `onMemberKey` on the object is the value-level one, for both roles. |
| BrowserSession.Session.GotKeyDeliver | web/src/main.ts:431-440 | `onKeyDeliver` on the object is the value-level one, including a delivery that comes before the owner's public key. |
| BrowserSession.Session.Finish | web/src/main.ts:442-456 | `finishJoin` on the object is the value-level one; a key that does not open ends the session. |
| BrowserSession.Session.GotRekey | web/src/main.ts:459-468 | `onRekey` on the object is the value-level one. |
| BrowserSession.Session.GotRoster | web/src/main.ts:473-483 | `applyRoster` on the object is the value-level one. |
| BrowserSession.Session.SendRoster | web/src/main.ts:486-491 | `broadcastRoster` on the object is the value-level one. |
| BrowserSession.Session.Welcomed | web/src/main.ts:303-318 | `onWelcome` on the object is the value-level one. |
| RelayInvariants.StepKeeps | server/internal/httpapi/server.go:116-321 | Every step of every connection, of a `Close` in progress, of the janitor and of time keeps the invariant, takes nothing back and brings no invite token back. |
| RelayInvariants.RunsKeep | server/internal/httpapi/server.go:116-321 | So the invariant holds in every reachable state, for every room size of at least one. |
| RelayInvariants.ClaimKeeps | server/internal/relay/hub.go:81-92 | Claiming a session, or being refused, keeps the invariant. |
| RelayInvariants.RedeemKeeps | server/internal/relay/invites.go:28-41 | Redeeming keeps the invariant, for unknown, expired and good tokens. |
| RelayInvariants.AddKeeps | server/internal/relay/room.go:76-95 | Admitting the founder or a joiner that was let through keeps the invariant. |
| RelayInvariants.KickKeeps | server/internal/relay/room.go:136-151 | A kick after its owner check keeps the invariant. |
| RelayInvariants.DepartKeeps | server/internal/relay/room.go:199-225 | A departing member that is not the owner leaves a room that is not empty, and the invariant. |
| RelayInvariants.MarksKeeps | server/internal/relay/room.go:229-239 | The locked section of `Close`, run by whoever, keeps the invariant. |
| RelayInvariants.CloseKeeps | server/internal/relay/room.go:241-253 | So does each later step of a `Close`, with every other connection running in between. |
| RelayInvariants.ReleaseKeeps | server/internal/relay/hub.go:109-118 | Compare-and-delete of a session claim keeps the invariant even when a later connection holds the id. |
| RelayTheorems.OneRoomPerSession | server/internal/relay/hub.go:81-133 | In every interleaving, two connections with one session id are never both members, of one room or of two, and every member holds the claim of its session. |
| RelayTheorems.OneClaimPerClient | server/internal/relay/hub.go:120-133 | A connection holds at most one claim, which is what the scan in `ClearSessionByClient` relies on. |
| RelayTheorems.OwnerIsMember | server/internal/relay/room.go:76-95 | An open room past its founder's `Add` has its owner among its members, at least one member and never more than allowed. |
| RelayTheorems.OnlyOwnerTransfers | server/internal/httpapi/server.go:403-411 | A step that changes an open room's owner is the old owner's own transfer, to a member. |
| RelayTheorems.CheckStillHolds | server/internal/httpapi/server.go:396-433 | Between a passed owner check and the action the requester is still owner and member, or the room is closed; then transfer, kick, rekey and roster do nothing. |
| RelayTheorems.QueueLifecycle | server/internal/relay/client.go:24-31 | A queue is closed at most once; a member's queue is open; past its room a connection's queue has been closed exactly once, unless a `Close` in progress is about to, or the founder's own `Add` failed. |
| RelayHistory.ClosedOnceIff | server/internal/relay/client.go:24-31 | A connection past its room, with no `Close` still to reach it, has had its queue closed exactly once if and only if it did not find its own new room closed at its founding `Add`; otherwise never. |
| RelayHistory.FailedIff | server/internal/httpapi/server.go:168-170 | A connection counts as failed exactly if, at some earlier step, it took its own founding `Add` in a room that was closed. |
| RelayHistory.NeverClosed | server/internal/httpapi/server.go:168-170 | A concrete run in which a room is closed before its founder enters, everything ends, and the queue of the founder was never closed. |
| RelayTheorems.NoSendAfterClose | server/internal/relay/room.go:287-298 | No send made inside a room method ever reaches a closed queue. |
| RelayTheorems.AdmissionByInvite | server/internal/httpapi/server.go:189-283 | Admissions other than the founder's map one to one to minted tokens, each redeemed by that connection, for that room, no later than its expiry. |
| RelayTheorems.TakenOnce | server/internal/relay/invites.go:28-41 | A token that left the table, redeemed, expired or dropped, never comes back, so it is taken at most once. |
| RelayHistory.RefusalSparesInvites | server/internal/httpapi/server.go:196-205 | A joiner refused by the limiter or by the session claim leaves the invites as they were, and in the whole rest of the run no invite is ever redeemed by it. |
| RelayProgress.LetIn | server/internal/httpapi/server.go:189-283 | A joiner with a free session and a good invite, for a room that can be found, is open, has a place and has its owner inside, is led by its own steps to a handshake with that owner, and by entering into the room. |
| RelayProgress.ClaimIff | server/internal/httpapi/server.go:189-205 | The limiter and the session claim let a connection pass exactly if it is not limited and its session, if it has one, is free, which is then claimed; otherwise it is turned away. |
| RelayProgress.RedeemIff | server/internal/relay/invites.go:28-41 | The invite lets it pass exactly if it is there and not past its expiry; it is gone either way. |
| RelayProgress.LookupIff | server/internal/httpapi/server.go:211-216 | The room lets it pass exactly if the hub still has it. |
| RelayProgress.CapacityIff | server/internal/httpapi/server.go:216-226 | The place: passed exactly if the room is open and has fewer members than allowed. |
| RelayProgress.OwnerIff | server/internal/relay/room.go:62-72 | The owner: passed exactly if the room is open and has its owner among its members. |
| RelayProgress.EnterIff | server/internal/relay/room.go:76-95 | Entering admits exactly if the room is open and still has a place, and changes nothing else in it. |
| RelayProgress.CheckIff | server/internal/httpapi/server.go:396-433 | An owner check is passed exactly by the owner, inside its open room, and leads to the action asked for. |
| RelayProgress.TransferMoves | server/internal/relay/room.go:119-131 | Past the check, a transfer to a member of the open room makes it the owner; anything else changes no room. |
| RelayProgress.KickRemoves | server/internal/relay/room.go:136-151 | Past the check, a kick takes a member that is not the owner out and closes its queue; anything else changes no room and no queue. |
| RelayProgress.InviteMinted | server/internal/relay/invites.go:17-25 | A minted invite is for this room, under a new token, and expires after the configured time. |
| RelayProgress.LeaveDeparts | server/internal/relay/room.go:199-225 | A leaving member that is not the owner is taken out and its queue closed; if nobody is left the room is closed next. |
| RelayProgress.CloseStarts | server/internal/relay/room.go:229-239 | Closing empties and closes the room and sets out to dismiss exactly who was inside. |
| RelayProgress.CloseForgets | server/internal/relay/room.go:241-245 | Then the hub forgets the room, and then exactly its invites. |
| RelayProgress.CloseDismisses | server/internal/relay/room.go:246-253 | Then each former member has a claim released and its queue closed, one by one, until nobody is left. |
| RelayProgress.CleanupIs | server/internal/httpapi/server.go:128-141 | The deferred cleanup takes out exactly the handshakes of the connection, and its claim if it still holds it. |
| RelayTheorems.CompleteTeardown | server/internal/httpapi/server.go:116-246 | When every connection has ended and no `Close` is midway, rooms, sessions and handshakes are empty and every room ever made is closed. |
| BroadcastOrder.MembersHearTheLog | server/internal/relay/room.go:154-195 | A member's queue accepted exactly the room's log on its stay, without what it said itself; a part of it, in order, if its buffer ever overflowed; and what still waits is the end of what was accepted. |
| BroadcastOrder.DepartedHeardTheLog | server/internal/relay/room.go:199-255 | The same for everyone who left, was kicked or was in the room when it closed, on the whole stay. |
| BroadcastOrder.EveryPresenceNamesOneOwner | server/internal/relay/room.go:275-285 | Every presence ever sent has exactly one owner entry. |
| BroadcastOrder.LastRosterIsTrue | server/internal/httpapi/server.go:259-276 | With no enter and no transfer between its state change and its broadcast, the last presence or welcome in the queue of each member whose buffer never dropped a message lists exactly the members under the right owner. |
| BroadcastOrder.LastPresenceIsTrue | server/internal/relay/room.go:105-115 | At such a moment the last presence that the room sent, to every member and whether or not a buffer took it, lists exactly the members under the right owner. |
| BroadcastOrder.StepKeeps | server/internal/relay/room.go:105-255 | Every room operation, welcome, direct send and drained message keeps the invariant behind these. |
| RelayObjects.Client.TrySend | server/internal/relay/client.go:81-88 | A send is queued if fewer than 32 wait, and dropped and reported otherwise; it needs an open queue. |
| RelayObjects.Client.WritePump | server/internal/relay/client.go:94-113 | After the close everything queued goes out in order before the connection is closed. |
| RelayObjects.Room.Add | server/internal/relay/room.go:76-95 | The room becomes what the value-level `Add` says; a role is returned exactly if the room was open and had a place, and it says whether the client is the owner. |
| RelayObjects.Room.MembersInfo | server/internal/relay/room.go:275-285 | The list has every member once, with its nick and role. |
| RelayObjects.Room.BroadcastLocked | server/internal/relay/room.go:287-298 | Every member but the excepted one is sent the message, and exactly those whose buffer is full are cut; nobody else is touched. |
| RelayObjects.Room.BroadcastPresence | server/internal/relay/room.go:105-115 | An open room sends its true list to all; a closed one does nothing. |
| RelayObjects.Room.BroadcastExcept | server/internal/relay/room.go:154-161 | The value-level broadcast, or nothing in a closed room. |
| RelayObjects.Room.SendTo | server/internal/relay/room.go:165-174 | Only the addressed member is sent the message, if it is there and the room open. |
| RelayObjects.Room.Relay | server/internal/relay/room.go:177-195 | The object does what the value-level relay says, and `RoomLog.RelayQueues` says what that is. |
| RoomLog.RelayQueues | server/internal/relay/room.go:177-195 | Every other member of an open room finds one more message in its queue, if that had space: from the sender, under its nick, with the body and time given. Whose buffer was full is cut. The queue of the sender stays, and a stranger or a closed room changes none. |
| RoomLog.BroadcastQueues | server/internal/relay/room.go:154-161 | A frame, as given, goes to every member but one, in the same way. |
| RoomLog.SendQueues | server/internal/relay/room.go:165-174 | A frame, as given, goes to the one member addressed and nobody else. |
| RoomLog.RemoveQueues | server/internal/relay/room.go:136-151 | Who is removed finds the reason given last in its queue, if that had space; the rest find the new list. |
| RoomLog.DepartQueues | server/internal/relay/room.go:199-225 | Who leaves is told nothing more; the rest find the new list. |
| RoomLog.CloseQueues | server/internal/relay/room.go:229-255 | Everyone in a closed room finds the reason given last, unless it is closed silently. |
| RelayObjects.Room.RemoveMember | server/internal/relay/room.go:136-151 | Exactly a member that is not the owner of an open room is removed: told, its queue closed, its claim released, and the rest sent the list without it. |
| RelayObjects.Room.Leave | server/internal/relay/room.go:199-225 | Afterwards the member is gone; the owner's leaving closes the room for all, anybody else's sends the rest the list without it, and leaving twice does nothing. |
| RelayObjects.Room.Close | server/internal/relay/room.go:229-255 | The room is emptied and closed; every former member is told (unless silently), its queue closed and its claim released, other claims staying; the hub forgets the room and its invites, and only those. Closing twice does nothing. |
| RelayObjects.Hub.ClearSessionByClient | server/internal/relay/hub.go:124-133 | One claim of the client goes, if it has any, and no other. |
| RelayObjects.DroppedAll | server/internal/relay/hub.go:120-133 | With at most one claim per client, afterwards it has none and nobody else lost one. |
| RelayObjects.Hub.CreateRoom | server/internal/relay/hub.go:145-159 | A fresh empty room is registered under a new id. |
| RelayObjects.Hub.RedeemInvite | server/internal/relay/invites.go:28-41 | The token is gone in every case, and the room is returned exactly if it was known and not expired. |
| RelayObjects.Hub.DropInvitesForRoom | server/internal/relay/invites.go:44-52 | Exactly the room's tokens are gone. |
| RelayObjects.Hub.GcInvites | server/internal/relay/invites.go:55-63 | Exactly the expired tokens are gone. |
| RelayObjects.Hub.EndHandshakesFor | server/internal/relay/invites.go:100-113 | Exactly the handshakes with the client for a party are gone. |
| RelayObjects.PeerOfPeer | server/internal/relay/invites.go:116-124 | Exactly the two parties of a handshake have a peer, and each is the other's. |
| RelayObjects.Hub.JanitorScan | server/internal/relay/hub.go:216-226 | One scan closes exactly the open rooms that have no member and were idle too long, and drops them, their invites and the expired invites; members' rooms and sessions are untouched. |
| Inflight.CounterIsExact | server/internal/httpapi/server.go:327-381 | In every interleaving of adds, rollbacks and releases, the counter is the bytes let through, plus those about to be taken back, plus those leaked by restarts; what was let through never exceeds the total cap, and no transfer exceeds the file cap. |
| Inflight.OnlyRestartsLeak | server/internal/httpapi/server.go:333 | Bytes leak exactly when a `file_start` hits a transfer that is open and has bytes. |
| Inflight.ZeroAtTheEnd | server/internal/httpapi/server.go:132-139 | Once all sessions have ended the counter is zero if and only if no such restart ever happened, and it is never negative. |
| Inflight.RestartLeaks | server/internal/httpapi/server.go:333 | A concrete run that ends with five bytes counted and nobody connected. |
| FileRelay.Sender.HandleFile | server/internal/httpapi/server.go:327-365 | Run without interleaving, each frame changes the table and the counter as the machine does, and is relayed, ignored or rejected in the order of the two caps. |
| FileRelay.Sender.FinishFile | server/internal/httpapi/server.go:376-381 | The transfer's bytes are given back once, and its entry goes. |
| FileRelay.Sender.ReleaseAll | server/internal/httpapi/server.go:132-139 | The cleanup gives back the sum of all entries. |
| FileTransfer.JoinInvertsSplit | web/src/main.ts:702-712 | The chunks in order are the file, for every length including zero. |
| FileTransfer.AtMostOneFile | web/src/main.ts:747-781 | Whatever arrives: the counter is the number of filled slots and below their number while the transfer is open, and it ends with one file or one failure. |
| FileTransfer.AnyOrderRebuilds | web/src/main.ts:747-763 | Authentic chunks in any order and repetition, with undecryptable ones and wrong indices in between, yield exactly the file, once, as soon as the last chunk is there and not before. |
| FileTransfer.EndTooSoon | web/src/main.ts:765-772 | An end before the last chunk yields no file, whatever comes later. |
| FileTransfer.SealedSizeBound | web/src/main.ts:702-713 | A file of at most 10 MiB seals to at most 13,989,760 bytes in at most 160 chunks, below the default cap, and the largest one to exactly that. |
| FileTransfer.NeverTooLarge | server/internal/httpapi/server.go:343-347 | In every run of the relay, with other transfers and other connections interleaved: once a connection has started a transfer and sends the sealed chunks of one such file, no chunk is ever judged to make it too large. |
| FileTransfer.FileCounts | server/internal/httpapi/server.go:327-360 | At any point of such a run the relay has counted for the transfer at most the sealed length of the chunks sent so far. |
| FileObjects.SendFile | web/src/main.ts:696-724 | The sending loop on a key captured as a reference, with any pushes, teardowns and new sessions at each await: what goes on the wire, each part sealed under what the captured array holds at that moment, and the loop left as soon as there is no session. |
| FileObjects.ChunkKeyIff | web/src/main.ts:694-718 | A chunk is sealed under the captured key, if that is not all zeros, if and only if fewer than five keys were pushed before it in the session and it was not a teardown that ended that. |
| FileObjects.ChunkKeyByPushes | web/src/main.ts:531-535 | While the session lasts: if and only if fewer than five keys were pushed before it. |
| FileObjects.ChunkOpensIff | web/src/main.ts:710-713 | A chunk opens under the key whose id was announced if and only if the captured array still held it, and under zeros otherwise; its length is what the size bound counts. |
| FileObjects.AllOpenIff | web/src/main.ts:694-718 | All chunks open under the announced key if and only if the captured array is intact at the last one. |
| FileObjects.AllOpenByPushes | web/src/main.ts:694-718 | While the session lasts: if and only if fewer than five keys were pushed before the last chunk. |
| FileObjects.FivePushesSpoil | web/src/main.ts:694-718 | A concrete run: five keys are pushed between the two chunks of a file, and the second chunk opens under zeros and not under the announced key. |
| FileObjects.FourPushesSpare | web/src/main.ts:531-535 | With four pushed keys instead, both chunks open under the announced key. |
| FileObjects.StartOpens | web/src/main.ts:706-709 | The start frame carries the id of the captured key, and metadata that opens under that key and says what was put in, if the key is intact once the file is read. |
| FileObjects.FileInbox.OnFileStart | web/src/main.ts:726-744 | The newest held key with the announced id is captured as a reference, with its place; metadata that opens and names 1 to 100,000 chunks gives a transfer with empty slots, anything else nothing. Other transfers are untouched. |
| FileObjects.FileInbox.OnFileChunk | web/src/main.ts:747-763 | The chunk is opened with what the captured array holds by then, and the slot filled in place as the value-level reassembly says, for this transfer only. |
| FileObjects.FileInbox.FinishIncoming | web/src/main.ts:774-781 | The transfer leaves the table and its parts become one file. |
| FileObjects.FileInbox.OnFileEnd | web/src/main.ts:765-772 | An open transfer is given up; a finished one is not affected. |
| FileJourney.RelayPassesAll | server/internal/httpapi/server.go:337-358 | In every run of the relay in which the total cap is not hit, with any other traffic interleaved, exactly the chunks sent are passed on, in order. |
| FileJourney.OpensIff | web/src/main.ts:751-757 | A chunk opens for a receiver if and only if the arrays that both ends captured were both intact or both wiped. |
| FileJourney.FileArrivesIff | web/src/main.ts:696-781 | The whole way, while both sessions last: sealed in the loop, over the relay, to an inbox that captured the key at some place of its ring. The file is rebuilt, once, if and only if at every chunk both ends had pushed fewer keys than places were left, or neither had; otherwise it fails. |
| KeyRing.Keys.PushKey | web/src/main.ts:531-535 | The new key is in front, five are kept with their bytes intact, and exactly those pushed out are zeroed in place. |
| KeyRing.Keys.FindKeyById | web/src/main.ts:688-692 | The newest held key with that id, or none if there is none. |
| KeyRing.Keys.WipeKey | web/src/crypto.ts:31-33 | Every byte is zero. |
| KeyRing.Tab.Happen | web/src/main.ts:583-590 | A push, a teardown or a new session does to a captured key what the watch over it says: it stays where it moves to, or is zeroed. |
| KeyRing.WipedIff | web/src/main.ts:531-535 | Whatever happens, in whatever order: a captured key is zeroed if and only if its session was pushed as many keys as places were left, or was ended by a teardown. |
| KeyRing.WipedByPushes | web/src/main.ts:531-535 | While the session lasts: if and only if as many keys were pushed as places were left. |
| KeyRing.CapturedIff | web/src/main.ts:697-698 | A captured key is still held, and so not wiped, if and only if fewer keys were pushed than places were left below it. |
| Spake2.Agreement | web/src/spake2.ts:70-144 | For all password scalars (zero included), secret scalars, identities and additional data for which both start: both finish, with the same transcript and keys, and each accepts the other's confirmation (sections 3.3 and 4 of RFC 9382). |
| Spake2.SharedIs | web/src/spake2.ts:95-98 | The element either side computes is the product of both secret scalars and the base point. |
| Spake2.StartFailsIff | web/src/spake2.ts:79-82 | `start` throws if and only if the blinded point is the identity. |
| Spake2.TranscriptInjective | web/src/spake2.ts:104-114 | Equal transcripts have equal identities, points, element and password scalar. |
| Spake2.AcceptsIff | web/src/spake2.ts:116-136 | One side accepts the other's confirmation exactly if the sender's confirmation of its transcript is the receiver's of its own, each under the confirmation key derived from that very transcript. |
| Spake2.MismatchDiffers | web/src/spake2.ts:104-114 | Different password scalars give different transcripts, whatever messages arrive. |
| Spake2.MismatchCollides | web/src/spake2.ts:116-136 | So with different password scalars a side accepts exactly if the confirmations of these two different transcripts collide. |
| Spake2.MismatchRejected | web/src/spake2.ts:130-136 | And with a hash, key derivation and MAC that together do not collide, neither side accepts, whatever messages reached them. |
| Spake2.BuildTranscript | web/src/spake2.ts:106-114 | The byte loops build that transcript. |
| Spake2.DeriveW | web/src/spake2.ts:153-159 | The scalar is the hash output reduced modulo the order. |
| Spake2.RandomScalar | web/src/spake2.ts:169-176 | The secret scalar is the random bytes reduced modulo the order, and one instead of zero. |
| Spake2.StartIs | web/src/spake2.ts:74-88 | Role A blinds its point with the one seed and role B with the other, and the point sent encodes that seed times the password scalar plus the base point times the secret scalar. |
| Spake2.FinishFailsIff | web/src/spake2.ts:94-113 | `finish` throws if and only if the message decodes to no point or the element is the identity. |
| Spake2.TranscriptReads | web/src/spake2.ts:100-114 | Read through its 8-byte lengths, the transcript is exactly, in this order: the two identities, the points of A and of B, the element, and the password scalar in 32 bytes. |
| Spake2.KeySchedule | web/src/spake2.ts:116-129 | The hash of the transcript is the secret and the confirmation secret, 16 bytes each; that derives both confirmation keys, 16 bytes each, under the label and the additional data; the confirmations are the MACs of the transcript under these (section 4 of RFC 9382). |
| Spake2.SecretsDiffer | web/src/spake2.ts:116-119 | Parties with different password scalars share a secret if and only if the hashes of their different transcripts collide in their first halves. |
| Bytes.BytesToBigBE | web/src/spake2.ts:205-209 | The loop computes the big-endian value. |
| Bytes.BigToBytesBE | web/src/spake2.ts:211-218 | The loop writes the big-endian bytes, from the last to the first. |
| Bytes.FromToBE | web/src/spake2.ts:205-218 | In range, reading inverts writing. |
| Bytes.ToFromBE | web/src/spake2.ts:205-218 | Writing inverts reading, for every byte string. |
| Bytes.Lv | web/src/spake2.ts:179-187 | The loop puts the 8-byte little-endian length in front. |
| Bytes.LVSplits | web/src/spake2.ts:179-187 | A prefixed string can be told from what follows it. |
| Bytes.Concat | web/src/spake2.ts:189-199 | The two passes concatenate all parts in order. |
| Bytes.TimingSafeEqual | web/src/spake2.ts:220-225 | The xor-and-or loop decides equality. |
| Handshake.AtMostOneCall | web/src/handshake.ts:43-93 | Whatever arrives, a session calls back at most once, exactly when it is done. |
| Handshake.ConfirmedMeansVerified | web/src/handshake.ts:71-87 | It reports success only if the expected confirmation was among the frames. |
| Handshake.PointIs | web/src/handshake.ts:55-69 | A point that cannot be used fails the session; the first that can be is answered with the own confirmation, and a confirmation that came first is judged; later points change nothing. |
| Handshake.AnyOrderDecides | web/src/handshake.ts:43-87 | A peer's two frames, in any order and repetition: decided once, exactly when both were heard, with success exactly if the confirmation is the expected one, and the own confirmation sent once, exactly when the point was heard. |
| Handshake.BothConfirm | web/src/handshake.ts:43-87 | Two sessions with equal codes are then both confirmed on the same secret. |
| Handshake.ConfirmedMeansCollision | web/src/handshake.ts:43-87 | With different codes, and whatever points, repetitions and junk reach two sessions in whatever order: a session that confirms on its peer's confirmation has found two different transcripts whose confirmations collide. |
| Handshake.MismatchNeverConfirms | web/src/handshake.ts:43-93 | So without collisions it never reports success, and if it is done it has failed once. |
| Handshake.MismatchFails | web/src/handshake.ts:79-93 | Over an honest relay it has failed exactly when both frames of the peer were heard. |
| Handshake.HandshakeSession.OnData | web/src/handshake.ts:43-53 | The object's handler is the value-level one. |
| Handshake.HandshakeSession.HandlePoint | web/src/handshake.ts:55-69 | So is its handling of a point, with a confirmation that came first. |
| Handshake.HandshakeSession.HandleConfirm | web/src/handshake.ts:71-77 | So is its handling of a confirmation. |
| Handshake.HandshakeSession.Verify | web/src/handshake.ts:79-87 | So is its verification. |
| HandshakePair.NothingArrivesEarly | web/src/main.ts:344-456 | Over first-in-first-out relays, in every interleaving of the two queues: no `member_key` or `key_deliver` arrives before it can be used, nobody fails, the secrets agree, and `enter` is sent at most once, with the delivered key in hand. |
| HandshakePair.SixFramesShake | web/src/main.ts:344-395 | Every exchange passes through the state that the rotation model starts a join from: both sides confirmed on one secret, each `member_key` in flight, and nothing else. |
| HandshakePair.DrainedMeansEntered | web/src/main.ts:344-456 | When both queues have drained the joiner has entered exactly once, with the key, and both have each other's public key. |
| HandshakePair.RunsAreShort | web/src/main.ts:344-456 | The queues do drain: at most nine frames are ever delivered. |
| HandshakeLink.OwnersAlike | web/src/main.ts:397-429 | The owner of this exchange and of the rotation model accept the same `member_key`, close the handshake alike and deliver the same key. |
| HandshakeLink.JoinersAlike | web/src/main.ts:397-415 | The joiners take the owner's public key alike, with a delivery that came before it. |
| HandshakeLink.DeliveriesAlike | web/src/main.ts:431-456 | The joiners take a delivered key alike: kept for later, opened with one `enter`, or the session is torn down. |
| Base64.RoundTrip | web/src/crypto.ts:148-159 | Decoding an encoding gives the bytes back, whatever their number. |
| Base64.UrlRoundTrip | web/src/crypto.ts:126-132 | The same without padding and with the link alphabet. |
| Base64.UrlText | web/src/crypto.ts:161-169 | Stripping the padding and putting it back by the length modulo four agree, for all lengths. |
| Base64.Alphabets | web/src/crypto.ts:148-169 | Characters of every kind, in both alphabets. |
| Base64.Endings | web/src/crypto.ts:148-169 | The three kinds of padding, and their absence in the link alphabet (section 10 of RFC 4648). |
| Base64.BytesToB64 | web/src/crypto.ts:148-152 | The loop and `btoa` compute the encoding of section 4 of RFC 4648. |
| Base64.B64ToBytes | web/src/crypto.ts:154-159 | `atob` and the loop compute the forgiving decoding, failing where it throws. |
| Envelope.OpenInvertsSeal | web/src/crypto.ts:38-58 | Opening a sealed envelope gives the plaintext, and the envelope's length is the stated function of the plaintext's. |
| Envelope.Seal | web/src/crypto.ts:38-47 | The buffer filled part by part is version, nonce and ciphertext. |
| Envelope.OpenUnderKeInverts | web/src/crypto.ts:103-109 | A public key sealed under the handshake secret opens under it. |
| Envelope.OpenRoomKeyInverts | web/src/crypto.ts:118-144 | A room key sealed by the owner to a member opens with the member's private and the owner's public key; exactly strings of another length than 32 are refused. |
| Envelope.RoomKeyOpensIff | web/src/crypto.ts:111-144 | A sealed room key opens for exactly those who agree on the secret that it was sealed under, if different secrets derive keys that are apart, and is not authentic for everybody else. |
| Envelope.UnderKeOpensIff | web/src/crypto.ts:103-109 | What was sealed under a handshake secret opens under exactly that secret. |
| Envelope.KindsDoNotMix | web/src/crypto.ts:94-101 | The two labels differ, and what was sealed as the one kind does not open as the other. |
| Envelope.OpensExactly | web/src/crypto.ts:51-58 | An envelope opens exactly if it is base64 of at least 41 bytes, the first of which is one, and the 24 after it are a nonce that decrypts the rest; each failure has its own cause. |
| Envelope.Layout | web/src/crypto.ts:38-47 | A sealed envelope is base64 of a one, the nonce and the ciphertext. |
| RateLimit.AtMostTwiceLessOne | server/internal/ratelimit/ratelimit.go:37-54 | Over any monotone trace, in any closed interval as long as the window, at most twice the limit less one are let through per key. |
| RateLimit.BoundIsReached | server/internal/ratelimit/ratelimit.go:37-54 | That bound is reached, for every limit and every window but the empty one. |
| RateLimit.LimitHoldsIff | server/internal/ratelimit/ratelimit.go:10-10 | The limit as the comments promise it, over every trace, key and interval of the window's length, holds if and only if the limit is one or the window is empty. |
| RateLimit.OnlyStraddlingExceeds | server/internal/ratelimit/ratelimit.go:44-53 | In any one interval it holds unless a request is let through and a later one in the interval opens a new bucket. |
| RateLimit.OwnTraceDecides | server/internal/ratelimit/ratelimit.go:37-66 | Cleanups anywhere and requests of other keys change no answer. |
| RateLimit.WindowHolds | server/internal/ratelimit/ratelimit.go:44-53 | Each bucket counts at most the limit. |
| RateLimit.NoLimitAllowsAll | server/internal/ratelimit/ratelimit.go:37-40 | A limit that is not positive lets everything through. |
| RateLimit.RefusedIff | server/internal/ratelimit/ratelimit.go:37-54 | A request is refused if and only if the limit is positive, the last request of its key that opened a bucket is at most a window ago, and exactly as many as the limit were let through since; told on the trace. |
| RateLimit.LateIsAllowed | server/internal/ratelimit/ratelimit.go:43-47 | Whoever was let through nothing for more than a window is let through, however often it was refused meanwhile. |
| RateLimit.Limiter.Allow | server/internal/ratelimit/ratelimit.go:37-54 | The object's table and answer are the value-level ones. |
| RateLimit.Limiter.Cleanup | server/internal/ratelimit/ratelimit.go:57-66 | No expired bucket is left, every other stays as it was, and none is new. |

## Left out

- RotationAgreement.RotationAgreement: is stated for changes that do not overlap, because the code need not keep it otherwise: the relay drops a rekey for a joiner that has not entered, and a presence that does not list the joiner makes the owner forget its key. Module RotationOverlap has a run in which both happen; which overlapping changes do end in agreement is not characterised.
- RotationConfinement.KeyConfinement: speaks of honest clients and an honest relay; a keypair is named by its connection's id, so substituted public keys are out.
- RotationSettles.ComesToRest: says that a change can always be brought to its end, and FewStepsLeft that no run goes on for ever; that the scheduler does run the next step is the runtime's business.
- RotationNet.DeliverLive: one frame is served or handled at a time; within the relay only the welcome and the presence of an enter, and the presence of a transfer, are separate steps.
- RelayTheorems.NoSendAfterClose: is about sends inside room methods; sends by a connection's own thread, such as relayed handshake frames, may race a close.
- RelayTheorems.AdmissionByInvite: the janitor's clock is the one that redeeming reads; the invite a closed room's owner mints after the close stays in the table until it expires.
- RelayObjects.Room.Close: the object's methods run alone; how they interleave is the step system's subject. The hub's shutdown loop is one `Stop` step per room there.
- RelayObjects.Hub.JanitorScan: ticker and interval are left out.
- Inflight.CounterIsExact: counts in unbounded integers; the program's 64-bit counter does not wrap at the sizes the frame limit allows.
- HandshakePair.NothingArrivesEarly: no connection ends and no buffer overflows during the exchange, and no other handshake runs on either side.
- Handshake.AnyOrderDecides: a payload whose JSON or base64 does not parse changes nothing and is a junk frame.
- FileObjects.FileInbox.OnFileStart: parsing the metadata is a function passed in; only its number of chunks is used.
- FileObjects.SendFile: a session's socket counts as open for as long as there is a session; the sender's own copy and progress are left out.
- FileJourney.FileArrivesIff: the receiver's buffer at the relay does not overflow, and the total cap is not hit.
- Envelope.OpenInvertsSeal: nothing is assumed, and so nothing proved, about envelopes that were tampered with.
- WebSocket reads and writes, heartbeats, contexts and timeouts: a connection may end at any read, and that is all.
- User interface, progress bars, object URLs, lobby statistics, clipboard and logging: they decide nothing modelled here.
- JSON, Unicode normalisation, P-256, scrypt, SHA-256, HKDF, HMAC, X25519 and XChaCha20-Poly1305 internals: libraries.
- Timing of the comparison loop: only its answer is modelled.
