/**
Browser clients, the relay's room and one FIFO queue per client and direction.

A step is one client handling one frame, one locked section of the relay, or a
user action. `Shake` stands for a SPAKE2 exchange that has just confirmed at both
ends: module HandshakePair shows that at that point the `member_key` frame of
each side is on its way and nothing else is.
*/
module RotationNet {
  import opened Options
  import opened RotationClient

  datatype Handshake = Handshake(joiner: Id, owner: Id)

  datatype Room = Room(members: set<Id>, owner: Id, open: bool)

  /** What a relay connection still has to do for the frame it took last. */
  datatype Job = SendWelcome | SendPresence

  /** History that no handler reads: who was meant to hold each key, the key of
      each connection's join rotation, and every handshake ever started. */
  datatype History = History(
    nextKey: Key,
    audience: map<Key, set<Id>>,
    joinKey: map<Id, Key>,
    shakes: map<HsId, Handshake>,
    ids: set<Id>)

  datatype Net = Net(
    room: Room,
    maxSize: nat,
    clients: map<Id, Client>,
    down: map<Id, seq<Down>>,
    up: map<Id, seq<Up>>,
    agenda: map<Id, seq<Job>>,
    handshakes: map<HsId, Handshake>,
    joining: map<Id, HsId>,
    h: History)

  datatype Step =
    | Shake(owner: Id, joiner: Id, hs: HsId, ke: Ke)
    | AskTransfer(who: Id, target: Id)
    | AskKick(who: Id, target: Id)
    | AskLeave(who: Id)
    | Cut(who: Id)    // the relay finds a gone client's connection ended: what it had not read is lost
    | Serve(conn: Id, list: seq<MemberInfo>, lost: set<Id>)
    | Deliver(to: Id)

  function Q<T>(queues: map<Id, seq<T>>, id: Id): seq<T> {
    if id in queues then queues[id] else []
  }

  /** Queue `m` for every id in `to` but those in `lost`, whose buffer is full. */
  function Send(down: map<Id, seq<Down>>, to: set<Id>, lost: set<Id>, m: Down): (r: map<Id, seq<Down>>)
    ensures forall i :: Q(r, i) == if i in to && i !in lost then Q(down, i) + [m] else Q(down, i)
  {
    map i | i in down.Keys + to :: if i in to && i !in lost then Q(down, i) + [m] else Q(down, i)
  }

  function Append(up: map<Id, seq<Up>>, id: Id, ms: seq<Up>): (r: map<Id, seq<Up>>)
    ensures forall i :: Q(r, i) == if i == id then Q(up, i) + ms else Q(up, i)
  {
    up[id := Q(up, id) + ms]
  }

  /** A member list as `membersInfoLocked` produces it: in any order. */
  ghost predicate Lists(list: seq<MemberInfo>, room: Room) {
    && (forall i, j :: 0 <= i < j < |list| ==> list[i].id != list[j].id)
    && (forall i :: 0 <= i < |list| ==> list[i].id in room.members && list[i].owner == (list[i].id == room.owner))
    && (forall x <- room.members :: exists i :: 0 <= i < |list| && list[i].id == x)
  }

  function NewClient(id: Id): Client {
    Client(id, false, None, false, [], map[], [], None, [])
  }

  // ----- relay

  function Broadcast(n: Net, list: seq<MemberInfo>, lost: set<Id>): Net {
    if !n.room.open then n else n.(down := Send(n.down, n.room.members, lost, Presence(list)))
  }

  function DropHandshakes(hss: map<HsId, Handshake>, id: Id): map<HsId, Handshake> {
    map h | h in hss && hss[h].joiner != id && hss[h].owner != id :: hss[h]
  }

  function RelayHandshake(n: Net, from: Id, hs: HsId, lost: set<Id>, m: Down): Net {
    if hs !in n.handshakes then n
    else if n.handshakes[hs].joiner == from then n.(down := Send(n.down, {n.handshakes[hs].owner}, lost, m))
    else if n.handshakes[hs].owner == from then n.(down := Send(n.down, {n.handshakes[hs].joiner}, lost, m))
    else n
  }

  /** `enter`: admit the joiner, or tear its session down when `Add` refuses. */
  function Enter(n: Net, from: Id, hs: HsId, lost: set<Id>): Net {
    if from !in n.joining || n.joining[from] != hs then n
    else
      var n1 := n.(joining := n.joining - {from}, handshakes := n.handshakes - {hs});
      if !n.room.open || |n.room.members| >= n.maxSize then n1.(down := Send(n.down, {from}, lost, RoomClosed))
      else
        n1.(room := n.room.(members := n.room.members + {from},
                            owner := if n.room.members == {} then from else n.room.owner),
            agenda := n.agenda[from := Q(n.agenda, from) + [SendWelcome, SendPresence]])
  }

  function Leave(n: Net, from: Id, list: seq<MemberInfo>, lost: set<Id>): Net {
    var n1 := n.(handshakes := DropHandshakes(n.handshakes, from), joining := n.joining - {from});
    if !n.room.open || from !in n.room.members then n1
    else if from == n.room.owner then
      n1.(room := n.room.(members := {}, open := false),
          down := Send(n.down, n.room.members, lost, RoomClosed))
    else
      Broadcast(n1.(room := n.room.(members := n.room.members - {from})), list, lost)
  }

  function Process(n: Net, from: Id, m: Up, list: seq<MemberInfo>, lost: set<Id>): Net {
    var owns := n.room.open && n.room.owner == from && from in n.room.members;
    match m
    case UpMemberKey(hs, pub) => RelayHandshake(n, from, hs, lost, MemberKey(hs, pub))
    case UpKeyDeliver(hs, sealed) =>
      if from in n.joining then n else RelayHandshake(n, from, hs, lost, KeyDeliver(hs, sealed))
    case UpEnter(hs) => Enter(n, from, hs, lost)
    case UpRekey(target, sealed) =>
      if owns && target in n.room.members then n.(down := Send(n.down, {target}, lost, Rekey(sealed))) else n
    case UpRoster(roster) =>
      if owns then n.(down := Send(n.down, n.room.members - {from}, lost, Roster(roster))) else n
    case UpTransfer(target) =>
      if owns && target in n.room.members then
        n.(room := n.room.(owner := target), agenda := n.agenda[from := Q(n.agenda, from) + [SendPresence]])
      else n
    case UpKick(target) =>
      if owns && target in n.room.members && target != n.room.owner then
        Broadcast(n.(room := n.room.(members := n.room.members - {target}),
                     down := Send(n.down, {target}, lost, RoomClosed)), list, lost)
      else n
    case UpLeave => Leave(n, from, list, lost)
  }

  /** Serve connection `conn`: finish its last frame, or take its next one. */
  function ServeStep(n: Net, conn: Id, list: seq<MemberInfo>, lost: set<Id>): Net
    requires Q(n.agenda, conn) != [] || Q(n.up, conn) != []
  {
    if Q(n.agenda, conn) != [] then
      var n1 := n.(agenda := n.agenda[conn := n.agenda[conn][1..]]);
      match n.agenda[conn][0]
      case SendWelcome => n1.(down := Send(n.down, {conn}, lost, Welcome(conn, list)))
      case SendPresence => Broadcast(n1, list, lost)
    else
      Process(n.(up := n.up[conn := n.up[conn][1..]]), conn, n.up[conn][0], list, lost)
  }

  // ----- clients

  /** Record that client `c` has just drawn the next key while handling `m`. */
  function Record(h: History, before: Client, m: Down, c: Client): History {
    var h1 := h.(nextKey := h.nextKey + 1, audience := h.audience[h.nextKey := SetFrom(c.known) + {c.id}]);
    if m.MemberKey? then
      match GetHs(before.handshakes, m.hs)
      case Some(e) =>
        if e.joiner.Some? && e.joiner.value !in h.joinKey
        then h1.(joinKey := h.joinKey[e.joiner.value := h.nextKey]) else h1
      case None => h1
    else h1
  }

  function DeliverStep(n: Net, id: Id): Net
    requires Q(n.down, id) != []
  {
    var m := n.down[id][0];
    var n1 := n.(down := n.down[id := n.down[id][1..]]);
    if id !in n.clients then n1  // the session is gone: onMessage ignores the frame
    else match Handle(n.clients[id], m, n.h.nextKey)
      case TornDown => n1.(clients := n.clients - {id})
      case Live(c, sent, made) =>
        n1.(clients := n.clients[id := c], up := Append(n.up, id, sent),
            h := if made then Record(n.h, n.clients[id], m, c) else n.h)
  }

  function ShakeStep(n: Net, o: Id, j: Id, hs: HsId, ke: Ke): Net
    requires o in n.clients
  {
    var owner := n.clients[o];
    var joiner := NewClient(j).(handshakes := [HsEntry(hs, None, Some(ke), None)]);
    n.(clients := n.clients[o := owner.(handshakes := owner.handshakes + [HsEntry(hs, Some(j), Some(ke), None)])]
                           [j := joiner],
       up := Append(Append(n.up, o, [UpMemberKey(hs, SealedPub(ke, Pub(o)))]),
                    j, [UpMemberKey(hs, SealedPub(ke, Pub(j)))]),
       handshakes := n.handshakes[hs := Handshake(j, o)],
       joining := n.joining[j := hs],
       h := n.h.(shakes := n.h.shakes[hs := Handshake(j, o)], ids := n.h.ids + {j}))
  }

  // ----- steps

  ghost predicate Enabled(n: Net, s: Step) {
    match s
    case Shake(o, j, hs, ke) =>
      o in n.clients && n.clients[o].inRoom && j !in n.h.ids && hs !in n.h.shakes
    case AskTransfer(who, target) => who in n.clients && n.clients[who].isOwner
    case AskKick(who, target) => who in n.clients && n.clients[who].isOwner && target != who
    case AskLeave(who) => who in n.clients
    case Cut(who) => who in n.h.ids && who !in n.clients
    case Serve(conn, list, lost) =>
      && (Q(n.agenda, conn) != [] || Q(n.up, conn) != [])
      && Lists(list, ServeStep(n, conn, list, lost).room)
    case Deliver(to) => Q(n.down, to) != []
  }

  function Apply(n: Net, s: Step): Net
    requires s.Shake? ==> s.owner in n.clients
    requires s.Serve? ==> Q(n.agenda, s.conn) != [] || Q(n.up, s.conn) != []
    requires s.Deliver? ==> Q(n.down, s.to) != []
  {
    match s
    case Shake(o, j, hs, ke) => ShakeStep(n, o, j, hs, ke)
    case AskTransfer(who, target) => n.(up := Append(n.up, who, [UpTransfer(target)]))
    case AskKick(who, target) => n.(up := Append(n.up, who, [UpKick(target)]))
    case AskLeave(who) => n.(clients := n.clients - {who}, up := Append(n.up, who, [UpLeave]))
    case Cut(who) => n.(up := n.up[who := [UpLeave]])
    case Serve(conn, list, lost) => ServeStep(n, conn, list, lost)
    case Deliver(to) => DeliverStep(n, to)
  }

  /** A room whose creator `o`, holding key 0, has handled its `welcome`. */
  function Created(o: Id, maxSize: nat): Net {
    var founder := OnWelcome(NewClient(o).(keys := [0]), o, [MemberInfo(o, true)]);
    Net(Room({o}, o, true), maxSize, map[o := founder], map[], map[], map[], map[], map[],
        History(1, map[0 := {o}], map[o := 0], map[], {o}))
  }

  // ----- what a step does to the queues, point by point

  /** Client `x` has handled its next frame, becoming `c` and sending `sent`. */
  ghost predicate Delivered(n: Net, n': Net, x: Id, c: Client, sent: seq<Up>) {
    && n'.room == n.room && n'.joining == n.joining && n'.agenda == n.agenda && n'.maxSize == n.maxSize
    && n'.handshakes == n.handshakes && n'.h.ids == n.h.ids
    && Q(n.down, x) != [] && Q(n'.down, x) == Q(n.down, x)[1..] && Q(n'.up, x) == Q(n.up, x) + sent
    && (forall y :: y != x ==> Q(n'.down, y) == Q(n.down, y) && Q(n'.up, y) == Q(n.up, y))
    && x in n.clients && n'.clients == n.clients[x := c]
  }

  lemma DeliverLive(n: Net, x: Id, c: Client, sent: seq<Up>, made: bool)
    requires x in n.clients && Q(n.down, x) != [] && Handle(n.clients[x], Q(n.down, x)[0], n.h.nextKey) == Live(c, sent, made)
    ensures Delivered(n, DeliverStep(n, x), x, c, sent)
  {
    hide Handle;
  }

  lemma ProcessKeepsClients(n: Net, from: Id, m: Up, list: seq<MemberInfo>, lost: set<Id>)
    ensures var n' := Process(n, from, m, list, lost); n'.clients == n.clients && n'.h == n.h
  {
    hide Send, DropHandshakes;
    match m
    case UpMemberKey(_, _) =>
    case UpKeyDeliver(_, _) =>
    case UpEnter(_) =>
    case UpRekey(_, _) =>
    case UpRoster(_) =>
    case UpTransfer(_) =>
    case UpKick(_) =>
    case UpLeave =>
  }

  lemma ServeKeepsClients(n: Net, conn: Id, list: seq<MemberInfo>, lost: set<Id>)
    requires Q(n.agenda, conn) != [] || Q(n.up, conn) != []
    ensures var n' := ServeStep(n, conn, list, lost); n'.clients == n.clients && n'.h == n.h
  {
    hide Send, Process;
    if Q(n.agenda, conn) == [] {
      ProcessKeepsClients(n.(up := n.up[conn := n.up[conn][1..]]), conn, n.up[conn][0], list, lost);
    }
  }

  /** A run: states `ns` linked by steps `ss`. */
  ghost predicate Run(ns: seq<Net>, ss: seq<Step>) {
    && |ns| == |ss| + 1
    && forall i :: 0 <= i < |ss| ==> Enabled(ns[i], ss[i]) && ns[i + 1] == Apply(ns[i], ss[i])
  }

  /** Step `j` is a client drawing key `k`. */
  ghost predicate Draws(ns: seq<Net>, ss: seq<Step>, j: nat, k: Key) {
    && j < |ss| < |ns| && ss[j].Deliver? && ss[j].to in ns[j + 1].clients
    && ns[j].h.nextKey == k && ns[j + 1].h.nextKey == k + 1
  }

  /** Step `j` is a client rotating the room key to admit `joiner`. */
  ghost predicate JoinRotation(ns: seq<Net>, ss: seq<Step>, j: nat, joiner: Id, k: Key) {
    && Draws(ns, ss, j, k)
    && ss[j].to in ns[j].clients
    && Q(ns[j].down, ss[j].to) != []
    && var m := Q(ns[j].down, ss[j].to)[0];
    && m.MemberKey?
    && var e := GetHs(ns[j].clients[ss[j].to].handshakes, m.hs);
    && e.Some? && e.value.joiner == Some(joiner)
  }
}
