/**
The key-rotation half of the browser client (web/src/main.ts).

The handlers are given twice: as functions on a `Client` value, which the
network model and its proofs use, and as methods of the class `BrowserSession`,
whose fields they update in place as the source does. Every method is proved to
compute its function.

Cryptography is symbolic. A room key is an atom, the static keypair of a
connection is named by the connection's member id, and a sealed value can be
opened exactly with the secret it was sealed under.
*/
module RotationClient {
  import opened Options

  type Id = nat
  type Key = nat
  type HsId = nat
  type Ke = nat

  const MAX_KEPT_KEYS := 5

  /** The public half of the static keypair of connection `of`. */
  datatype Pub = Pub(of: Id)

  /** `sealUnderKe`: a public key under the shared secret of one handshake. */
  datatype SealedPub = SealedPub(ke: Ke, pub: Pub)

  /** `sealRoomKey`: a room key under the pairwise secret of two keypairs. */
  datatype SealedKey = SealedKey(pair: set<Id>, key: Key)

  /** The roster, sealed under a room key. */
  datatype SealedRoster = SealedRoster(key: Key, pubs: map<Id, Pub>)

  function SealKey(me: Id, them: Pub, k: Key): SealedKey {
    SealedKey({me, them.of}, k)
  }

  function OpenKey(me: Id, them: Pub, env: SealedKey): Option<Key> {
    if env.pair == {me, them.of} then Some(env.key) else None
  }

  datatype MemberInfo = MemberInfo(id: Id, owner: bool)

  /** Frames a client sends to the relay. */
  datatype Up =
    | UpMemberKey(hs: HsId, pub: SealedPub)
    | UpKeyDeliver(hs: HsId, sealed: SealedKey)
    | UpEnter(hs: HsId)
    | UpRekey(target: Id, sealed: SealedKey)
    | UpRoster(roster: SealedRoster)
    | UpTransfer(target: Id)
    | UpKick(target: Id)
    | UpLeave

  /** Frames the relay sends to a client. */
  datatype Down =
    | Welcome(me: Id, members: seq<MemberInfo>)
    | Presence(members: seq<MemberInfo>)
    | MemberKey(hs: HsId, pub: SealedPub)
    | KeyDeliver(hs: HsId, sealed: SealedKey)
    | Rekey(sealed: SealedKey)
    | Roster(roster: SealedRoster)
    | RoomClosed

  /** One entry of the handshake table, which JavaScript keeps in insertion order. */
  datatype HsEntry = HsEntry(hs: HsId, joiner: Option<Id>, ke: Option<Ke>, pending: Option<SealedKey>)

  datatype Client = Client(
    id: Id,
    inRoom: bool,                // session.room is set
    owner: Option<Id>,           // ownerId; None is the empty string
    isOwner: bool,               // role === "owner"
    keys: seq<Key>,              // newest first
    pubs: map<Id, Pub>,          // memberPubs
    known: seq<Id>,              // knownMembers, a Set in insertion order
    firstOwnerPub: Option<Pub>,
    handshakes: seq<HsEntry>)

  /** What a handler did: the new state, the frames it sent and whether it drew a
      fresh room key; or the session was torn down. */
  datatype Handled =
    | Live(client: Client, sent: seq<Up>, made: bool)
    | TornDown

  // ----- small pieces

  function Ids(members: seq<MemberInfo>): seq<Id> {
    if members == [] then [] else [members[0].id] + Ids(members[1..])
  }

  function OwnerIdOf(members: seq<MemberInfo>): Option<Id> {
    if members == [] then None
    else if members[0].owner then Some(members[0].id)
    else OwnerIdOf(members[1..])
  }

  function SetAdd(s: seq<Id>, x: Id): seq<Id> {
    if x in s then s else s + [x]
  }

  /** `new Set(ids)`: first occurrences, in order. */
  function SetOf(ids: seq<Id>): (r: seq<Id>)
    ensures forall x :: x in r <==> x in ids
  {
    if ids == [] then []
    else
      assert ids == ids[..|ids| - 1] + [ids[|ids| - 1]];
      SetAdd(SetOf(ids[..|ids| - 1]), ids[|ids| - 1])
  }

  function SetFrom(s: seq<Id>): set<Id> {
    set x | x in s
  }

  function Missing(known: seq<Id>, current: seq<Id>): (r: seq<Id>)
    ensures forall x :: x in r <==> x in known && x !in current
  {
    if known == [] then []
    else
      assert forall x :: x in known <==> x == known[0] || x in known[1..];
      (if known[0] in current then [] else [known[0]]) + Missing(known[1..], current)
  }

  function PushKey(keys: seq<Key>, k: Key): (r: seq<Key>)
    ensures |r| == (if |keys| < MAX_KEPT_KEYS then |keys| + 1 else MAX_KEPT_KEYS) && r[0] == k
    ensures forall i :: 0 < i < |r| ==> r[i] == keys[i - 1]
  {
    var pushed := [k] + keys;
    if |pushed| <= MAX_KEPT_KEYS then pushed else pushed[..MAX_KEPT_KEYS]
  }

  function RekeyMember(c: Client, target: Id, k: Key): seq<Up> {
    if target in c.pubs then [UpRekey(target, SealKey(c.id, c.pubs[target], k))] else []
  }

  /** The rekeys sent by a loop over `ids` that passes over the ids in `skip`. */
  function Rekeys(c: Client, ids: seq<Id>, skip: set<Id>, k: Key): seq<Up> {
    if ids == [] then []
    else
      Rekeys(c, ids[..|ids| - 1], skip, k)
      + (if ids[|ids| - 1] in skip then [] else RekeyMember(c, ids[|ids| - 1], k))
  }

  function DecryptAny(keys: seq<Key>, env: SealedRoster): (r: Option<map<Id, Pub>>)
    ensures r == if env.key in keys then Some(env.pubs) else None
  {
    if keys == [] then None
    else if keys[0] == env.key then Some(env.pubs)
    else DecryptAny(keys[1..], env)
  }

  function GetHs(hss: seq<HsEntry>, hs: HsId): Option<HsEntry> {
    if hss == [] then None else if hss[0].hs == hs then Some(hss[0]) else GetHs(hss[1..], hs)
  }

  function DeleteHs(hss: seq<HsEntry>, hs: HsId): seq<HsEntry> {
    if hss == [] then [] else (if hss[0].hs == hs then [] else [hss[0]]) + DeleteHs(hss[1..], hs)
  }

  /** The first handshake whose joiner is `joiner`. */
  function FindJoiner(hss: seq<HsEntry>, joiner: Id): Option<HsId> {
    if hss == [] then None
    else if hss[0].joiner == Some(joiner) then Some(hss[0].hs)
    else FindJoiner(hss[1..], joiner)
  }

  function SetPending(hss: seq<HsEntry>, hs: HsId, env: SealedKey): seq<HsEntry> {
    if hss == [] then []
    else if hss[0].hs == hs then [hss[0].(pending := Some(env))] + hss[1..]
    else [hss[0]] + SetPending(hss[1..], hs, env)
  }

  // ----- handlers

  function OnWelcome(c: Client, me: Id, members: seq<MemberInfo>): Client {
    var owner := OwnerIdOf(members);
    var isOwner := owner == Some(me);
    c.(id := me,
       inRoom := true,
       owner := owner,
       isOwner := isOwner,
       known := if isOwner then SetOf(Ids(members)) else c.known,
       pubs := if c.firstOwnerPub.Some? && owner.Some?
               then c.pubs[owner.value := c.firstOwnerPub.value] else c.pubs)
  }

  function BroadcastRoster(c: Client): seq<Up> {
    if !c.isOwner || c.keys == [] then []
    else [UpRoster(SealedRoster(c.keys[0], map[c.id := Pub(c.id)] + c.pubs))]
  }

  function OnPresence(c: Client, members: seq<MemberInfo>, next: Key): Handled {
    var owner := OwnerIdOf(members);
    var isOwner := owner == Some(c.id);
    var c1 := c.(owner := owner, isOwner := isOwner);
    if !isOwner then Live(c1, [], false)
    else
      var current := SetOf(Ids(members));
      var known := if c.isOwner then c.known else current;
      var removed := Missing(known, current);
      if removed == [] then
        var c2 := c1.(known := current);
        Live(c2, BroadcastRoster(c2), false)
      else
        var c2 := c1.(known := current,
                      pubs := c1.pubs - SetFrom(removed),
                      keys := PushKey(c1.keys, next));
        Live(c2, Rekeys(c2, current, {c2.id}, next) + BroadcastRoster(c2), true)
  }

  function RotateForJoin(c: Client, joiner: Id, joinerPub: Pub, next: Key): Handled {
    var c1 := c.(keys := PushKey(c.keys, next));
    var deliver := match FindJoiner(c.handshakes, joiner)
      case Some(hs) => [UpKeyDeliver(hs, SealKey(c.id, joinerPub, next))]
      case None => [];
    Live(c1.(known := SetAdd(c.known, joiner)),
         deliver + Rekeys(c1, c.known, {c.id, joiner}, next), true)
  }

  function FinishJoin(c: Client, e: HsEntry, env: SealedKey): Handled {
    if c.firstOwnerPub.None? then Live(c, [], false)
    else match OpenKey(c.id, c.firstOwnerPub.value, env)
      case None => TornDown
      case Some(k) =>
        Live(c.(keys := PushKey(c.keys, k), handshakes := DeleteHs(c.handshakes, e.hs)),
             [UpEnter(e.hs)], false)
  }

  function OnMemberKey(c: Client, hs: HsId, env: SealedPub, next: Key): Handled {
    match GetHs(c.handshakes, hs)
    case None => Live(c, [], false)
    case Some(e) =>
      if e.ke != Some(env.ke) then Live(c, [], false)
      else match e.joiner
        case Some(joiner) =>
          var r := RotateForJoin(c.(pubs := c.pubs[joiner := env.pub]), joiner, env.pub, next);
          r.(client := r.client.(handshakes := DeleteHs(c.handshakes, hs)))
        case None =>
          var c1 := c.(firstOwnerPub := Some(env.pub));
          if e.pending.Some? then FinishJoin(c1, e, e.pending.value) else Live(c1, [], false)
  }

  function OnKeyDeliver(c: Client, hs: HsId, env: SealedKey): Handled {
    match GetHs(c.handshakes, hs)
    case None => Live(c, [], false)
    case Some(e) =>
      if c.firstOwnerPub.None? then Live(c.(handshakes := SetPending(c.handshakes, hs, env)), [], false)
      else FinishJoin(c, e, env)
  }

  function OnRekey(c: Client, env: SealedKey): Client {
    if c.owner.None? || c.owner.value !in c.pubs then c
    else match OpenKey(c.id, c.pubs[c.owner.value], env)
      case None => c
      case Some(k) => c.(keys := PushKey(c.keys, k))
  }

  function ApplyRoster(c: Client, env: SealedRoster): Client {
    match DecryptAny(c.keys, env)
    case None => c
    case Some(pubs) => c.(pubs := c.pubs + pubs)
  }

  /** `onMessage`, for the frames of the rotation protocol. */
  function Handle(c: Client, m: Down, next: Key): Handled {
    match m
    case Welcome(me, members) => Live(OnWelcome(c, me, members), [], false)
    case Presence(members) => OnPresence(c, members, next)
    case MemberKey(hs, pub) => OnMemberKey(c, hs, pub, next)
    case KeyDeliver(hs, sealed) => OnKeyDeliver(c, hs, sealed)
    case Rekey(sealed) => Live(OnRekey(c, sealed), [], false)
    case Roster(roster) => Live(ApplyRoster(c, roster), [], false)
    case RoomClosed => TornDown
  }
}
