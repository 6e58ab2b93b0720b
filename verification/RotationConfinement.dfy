/**
Key confinement: in every interleaving of every run, with joins, departures,
kicks, transfers, lost frames and ended sessions overlapping in any way, a room
key is held only by the client that drew it and by the members that client then
knew of. A joiner never holds a key older than the one drawn for its own join.
*/
module RotationConfinement {
  import opened Options
  import opened RotationClient
  import opened RotationNet

  // ----- the invariant

  /** `id` was in the view of the client that drew `k`. */
  ghost predicate Meant(h: History, k: Key, id: Id) {
    k in h.audience && id in h.audience[k]
  }

  ghost predicate SealedOk(h: History, x: Id, env: SealedKey) {
    x in env.pair ==> Meant(h, env.key, x)
  }

  ghost predicate ListOk(h: History, list: seq<MemberInfo>) {
    forall m <- list :: m.id in h.joinKey
  }

  ghost predicate DownOk(h: History, x: Id, m: Down) {
    match m
    case Welcome(me, list) => me == x && x in h.joinKey && ListOk(h, list)
    case Presence(list) => ListOk(h, list)
    case KeyDeliver(_, env) => x in h.joinKey && SealedOk(h, x, env)
    case Rekey(env) => SealedOk(h, x, env)
    case _ => true
  }

  ghost predicate UpOk(h: History, x: Id, m: Up) {
    match m
    case UpKeyDeliver(hs, env) =>
      hs in h.shakes && h.shakes[hs].joiner != x && h.shakes[hs].joiner in h.joinKey && SealedOk(h, h.shakes[hs].joiner, env)
    case UpRekey(target, env) => SealedOk(h, target, env)
    case UpEnter(_) => x in h.joinKey
    case _ => true
  }

  ghost predicate EntryOk(h: History, c: Client, e: HsEntry) {
    && e.hs in h.shakes
    && (e.joiner.Some? ==> c.inRoom && h.shakes[e.hs].joiner == e.joiner.value != c.id)
    && (e.pending.Some? ==> c.id in h.joinKey && SealedOk(h, c.id, e.pending.value))
  }

  ghost predicate ClientOk(h: History, c: Client) {
    && (forall k <- c.keys :: Meant(h, k, c.id))
    && (forall i <- c.known :: i in h.joinKey)
    && (c.inRoom ==> c.id in h.joinKey)
    && (forall e <- c.handshakes :: EntryOk(h, c, e))
  }

  ghost predicate Sound(h: History) {
    && (forall k <- h.audience :: k < h.nextKey)
    && (forall i <- h.joinKey :: h.joinKey[i] < h.nextKey)
    && (forall k <- h.audience, i <- h.audience[k] :: i in h.joinKey && h.joinKey[i] <= k)
  }

  ghost predicate ClientsOk(h: History, clients: map<Id, Client>) {
    forall id <- clients :: clients[id].id == id && ClientOk(h, clients[id])
  }

  ghost predicate DownsOk(h: History, down: map<Id, seq<Down>>) {
    forall x, m :: m in Q(down, x) ==> DownOk(h, x, m)
  }

  ghost predicate UpsOk(h: History, up: map<Id, seq<Up>>) {
    forall x, m :: m in Q(up, x) ==> UpOk(h, x, m)
  }

  ghost predicate AgendaOk(h: History, agenda: map<Id, seq<Job>>) {
    forall x :: SendWelcome in Q(agenda, x) ==> x in h.joinKey
  }

  ghost predicate ShakesOk(h: History, shakes: map<HsId, Handshake>) {
    forall hs <- shakes :: hs in h.shakes && h.shakes[hs] == shakes[hs]
  }

  ghost predicate Confined(n: Net) {
    && Sound(n.h)
    && n.clients.Keys <= n.h.ids
    && n.room.members <= n.h.joinKey.Keys
    && ClientsOk(n.h, n.clients)
    && ShakesOk(n.h, n.handshakes)
    && DownsOk(n.h, n.down)
    && UpsOk(n.h, n.up)
    && AgendaOk(n.h, n.agenda)
  }

  // ----- history only grows

  ghost predicate Extends(h: History, h': History) {
    && h.ids <= h'.ids
    && h.nextKey <= h'.nextKey
    && (forall k <- h.audience :: k in h'.audience && h'.audience[k] == h.audience[k])
    && (forall i <- h.joinKey :: i in h'.joinKey && h'.joinKey[i] == h.joinKey[i])
    && (forall s <- h.shakes :: s in h'.shakes && h'.shakes[s] == h.shakes[s])
  }

  lemma ClientOkGrows(h: History, h': History, c: Client)
    requires Extends(h, h') && ClientOk(h, c)
    ensures ClientOk(h', c)
  {
    forall e <- c.handshakes ensures EntryOk(h', c, e) {
      assert EntryOk(h, c, e);
    }
  }

  lemma OthersOk(n: Net, h': History)
    requires Confined(n) && Extends(n.h, h')
    ensures ClientsOk(h', n.clients) && ShakesOk(h', n.handshakes) && DownsOk(h', n.down) && UpsOk(h', n.up)
    ensures AgendaOk(h', n.agenda) && n.room.members <= h'.joinKey.Keys
  {
    forall id <- n.clients ensures ClientOk(h', n.clients[id]) {
      ClientOkGrows(n.h, h', n.clients[id]);
    }
    forall x, m | m in Q(n.down, x) ensures DownOk(h', x, m) {
      assert DownOk(n.h, x, m);
    }
    forall x, m | m in Q(n.up, x) ensures UpOk(h', x, m) {
      assert UpOk(n.h, x, m);
    }
  }

  // ----- queues

  lemma SendOk(h: History, down: map<Id, seq<Down>>, to: set<Id>, lost: set<Id>, m: Down)
    requires DownsOk(h, down) && forall x <- to :: DownOk(h, x, m)
    ensures DownsOk(h, Send(down, to, lost, m))
  {
    var r := Send(down, to, lost, m);
    forall x, k | k in Q(r, x) ensures DownOk(h, x, k) {
      assert Q(r, x) == Q(down, x) || (x in to && Q(r, x) == Q(down, x) + [m]);
    }
  }

  lemma AppendOk(h: History, up: map<Id, seq<Up>>, id: Id, ms: seq<Up>)
    requires UpsOk(h, up) && forall m <- ms :: UpOk(h, id, m)
    ensures UpsOk(h, Append(up, id, ms))
  {
    var r := Append(up, id, ms);
    forall x, k | k in Q(r, x) ensures UpOk(h, x, k) {
      assert Q(r, x) == if x == id then Q(up, x) + ms else Q(up, x);
    }
  }

  // ----- one handler

  lemma {:induction false} RekeysOk(h: History, c: Client, ids: seq<Id>, skip: set<Id>, k: Key)
    requires forall i <- ids :: Meant(h, k, i)
    ensures forall u <- Rekeys(c, ids, skip, k) :: UpOk(h, c.id, u)
  {
    if ids != [] {
      RekeysOk(h, c, ids[..|ids| - 1], skip, k);
      assert ids[|ids| - 1] in ids;
    }
  }

  lemma {:induction false} OwnerIsListed(list: seq<MemberInfo>)
    ensures OwnerIdOf(list).Some? ==> OwnerIdOf(list).value in Ids(list)
    ensures forall i <- Ids(list) :: exists m <- list :: m.id == i
  {
    if list != [] {
      OwnerIsListed(list[1..]);
      forall i <- Ids(list) ensures exists m <- list :: m.id == i {
        if i == list[0].id {
          assert list[0] in list;
        } else {
          var m :| m in list[1..] && m.id == i;
          assert m in list;
        }
      }
    }
  }

  lemma {:induction false} TableFacts(hss: seq<HsEntry>, hs: HsId, joiner: Id, env: SealedKey)
    ensures GetHs(hss, hs).Some? ==> GetHs(hss, hs).value in hss && GetHs(hss, hs).value.hs == hs
    ensures forall e <- DeleteHs(hss, hs) :: e in hss
    ensures FindJoiner(hss, joiner).Some? ==>
              exists e <- hss :: e.hs == FindJoiner(hss, joiner).value && e.joiner == Some(joiner)
    ensures forall e <- SetPending(hss, hs, env) :: e in hss || exists f <- hss :: e == f.(pending := Some(env))
  {
    if hss != [] {
      TableFacts(hss[1..], hs, joiner, env);
      assert hss[0] in hss;
      assert forall e <- hss[1..] :: e in hss;
    }
  }

  /** A handler that draws no key only keeps or receives keys meant for it. */
  lemma FinishJoinOk(h: History, c: Client, e: HsEntry, env: SealedKey)
    requires ClientOk(h, c) && c.id in h.joinKey && SealedOk(h, c.id, env)
    ensures var r := FinishJoin(c, e, env);
            r.Live? ==> !r.made && r.client.id == c.id && ClientOk(h, r.client) && forall u <- r.sent :: UpOk(h, c.id, u)
  {
    TableFacts(c.handshakes, e.hs, 0, env);
    var r := FinishJoin(c, e, env);
    if r.Live? {
      forall f <- r.client.handshakes ensures EntryOk(h, r.client, f) {
        assert EntryOk(h, c, f);
      }
    }
  }

  /** Handling `m` keeps everything confined. */
  ghost predicate HandledOk(h: History, c: Client, m: Down) {
    var r := Handle(c, m, h.nextKey);
    r.Live? ==>
      var h' := if r.made then Record(h, c, m, r.client) else h;
      && Sound(h') && Extends(h, h')
      && r.client.id == c.id && ClientOk(h', r.client)
      && forall u <- r.sent :: UpOk(h', c.id, u)
  }

  lemma DrawnKeyOk(h: History, c: Client, m: Down, c': Client)
    requires Sound(h) && ClientOk(h, c) && c'.id == c.id && c.id in h.joinKey
    requires var h' := Record(h, c, m, c'); forall i <- c'.known :: i in h'.joinKey
    ensures var h' := Record(h, c, m, c');
            Sound(h') && Extends(h, h') && forall i :: i in c'.known || i == c'.id ==> Meant(h', h.nextKey, i)
  {
    var h' := Record(h, c, m, c');
    assert h'.audience[h.nextKey] == SetFrom(c'.known) + {c'.id};
    forall k <- h'.audience, i <- h'.audience[k] ensures i in h'.joinKey && h'.joinKey[i] <= k {
      if k == h.nextKey {
        assert i in c'.known || i == c'.id;
      }
    }
  }

  lemma PresenceOk(h: History, c: Client, list: seq<MemberInfo>)
    requires Sound(h) && ClientOk(h, c) && ListOk(h, list)
    ensures HandledOk(h, c, Presence(list))
  {
    OwnerIsListed(list);
    var r := OnPresence(c, list, h.nextKey);
    EntriesOk(h, c, r.client);
    if r.made {
      TakeOverOk(h, c, r.client, list);
    } else {
      assert ClientOk(h, r.client);
    }
  }

  lemma TakeOverOk(h: History, c: Client, c': Client, list: seq<MemberInfo>)
    requires Sound(h) && ClientOk(h, c) && c.id in h.joinKey
    requires c'.id == c.id && c'.known == SetOf(Ids(list)) && c'.keys == PushKey(c.keys, h.nextKey)
    requires forall i <- c'.known :: i in h.joinKey
    requires forall e <- c'.handshakes :: EntryOk(h, c', e)
    ensures var h' := Record(h, c, Presence(list), c');
            Sound(h') && Extends(h, h') && ClientOk(h', c')
            && forall u <- Rekeys(c', c'.known, {c.id}, h.nextKey) :: UpOk(h', c.id, u)
  {
    DrawnKeyOk(h, c, Presence(list), c');
    var h' := Record(h, c, Presence(list), c');
    RekeysOk(h', c', c'.known, {c.id}, h.nextKey);
    forall k <- c'.keys ensures Meant(h', k, c'.id) {
      assert k == h.nextKey || k in c.keys;
    }
    forall e <- c'.handshakes ensures EntryOk(h', c', e) {
      assert EntryOk(h, c', e);
    }
  }

  lemma EntriesOk(h: History, c: Client, c': Client)
    requires ClientOk(h, c) && c'.id == c.id && (c.inRoom ==> c'.inRoom)
    requires forall e <- c'.handshakes :: e in c.handshakes
    ensures forall e <- c'.handshakes :: EntryOk(h, c', e)
  {
    forall e <- c'.handshakes ensures EntryOk(h, c', e) {
      assert EntryOk(h, c, e);
    }
  }

  lemma JoinRotationOk(h: History, c: Client, hs: HsId, pub: SealedPub)
    requires Sound(h) && ClientOk(h, c)
    requires GetHs(c.handshakes, hs).Some? && GetHs(c.handshakes, hs).value.ke == Some(pub.ke)
    requires GetHs(c.handshakes, hs).value.joiner.Some?
    ensures HandledOk(h, c, MemberKey(hs, pub))
  {
    var e := GetHs(c.handshakes, hs).value;
    var joiner := e.joiner.value;
    TableFacts(c.handshakes, hs, joiner, SealedKey({}, 0));
    assert EntryOk(h, c, e);
    var r := OnMemberKey(c, hs, pub, h.nextKey);
    DrawnKeyOk(h, c, MemberKey(hs, pub), r.client);
    var h' := Record(h, c, MemberKey(hs, pub), r.client);
    ClientOkGrows(h, h', c);
    EntriesOk(h', c, r.client);
    var c1 := c.(pubs := c.pubs[joiner := pub.pub], keys := PushKey(c.keys, h.nextKey));
    RekeysOk(h', c1, c.known, {c.id, joiner}, h.nextKey);
    if FindJoiner(c.handshakes, joiner).Some? {
      var f :| f in c.handshakes && f.hs == FindJoiner(c.handshakes, joiner).value && f.joiner == Some(joiner);
      assert EntryOk(h', c, f);
    }
  }

  lemma HandleOk(h: History, c: Client, m: Down)
    requires Sound(h) && ClientOk(h, c) && DownOk(h, c.id, m)
    ensures HandledOk(h, c, m)
  {
    match m
    case Welcome(me, list) =>
      OwnerIsListed(list);
      forall e <- c.handshakes ensures EntryOk(h, OnWelcome(c, me, list), e) {
        assert EntryOk(h, c, e);
      }
    case Presence(list) => PresenceOk(h, c, list);
    case MemberKey(hs, pub) =>
      TableFacts(c.handshakes, hs, 0, SealedKey({}, 0));
      var got := GetHs(c.handshakes, hs);
      if got.Some? && got.value.ke == Some(pub.ke) {
        if got.value.joiner.Some? {
          JoinRotationOk(h, c, hs, pub);
        } else {
          var c1 := c.(firstOwnerPub := Some(pub.pub));
          forall e <- c1.handshakes ensures EntryOk(h, c1, e) {
            assert EntryOk(h, c, e);
          }
          if got.value.pending.Some? {
            assert EntryOk(h, c, got.value);
            FinishJoinOk(h, c1, got.value, got.value.pending.value);
          }
        }
      }
    case KeyDeliver(hs, env) =>
      TableFacts(c.handshakes, hs, 0, env);
      var got := GetHs(c.handshakes, hs);
      if got.Some? {
        if c.firstOwnerPub.Some? {
          FinishJoinOk(h, c, got.value, env);
        } else {
          var c1 := c.(handshakes := SetPending(c.handshakes, hs, env));
          forall e <- c1.handshakes ensures EntryOk(h, c1, e) {
            assert forall f <- c.handshakes :: EntryOk(h, c, f);
          }
        }
      }
    case Rekey(env) =>
      forall e <- c.handshakes ensures EntryOk(h, OnRekey(c, env), e) {
        assert EntryOk(h, c, e);
      }
    case Roster(roster) =>
      forall e <- c.handshakes ensures EntryOk(h, ApplyRoster(c, roster), e) {
        assert EntryOk(h, c, e);
      }
    case RoomClosed =>
  }

  // ----- one step

  lemma ListedOk(n: Net, list: seq<MemberInfo>, room: Room)
    requires Lists(list, room) && room.members <= n.h.joinKey.Keys
    ensures ListOk(n.h, list)
  {
  }

  lemma BroadcastKeeps(n: Net, list: seq<MemberInfo>, lost: set<Id>)
    requires Confined(n) && Lists(list, n.room)
    ensures Confined(Broadcast(n, list, lost))
  {
    ListedOk(n, list, n.room);
    SendOk(n.h, n.down, n.room.members, lost, Presence(list));
  }

  lemma LeaveKeeps(n: Net, from: Id, list: seq<MemberInfo>, lost: set<Id>)
    requires Confined(n) && Lists(list, Leave(n, from, list, lost).room)
    ensures Confined(Leave(n, from, list, lost))
  {
    SendOk(n.h, n.down, n.room.members, lost, RoomClosed);
    var n1 := n.(handshakes := DropHandshakes(n.handshakes, from), joining := n.joining - {from});
    var n2 := n1.(room := n.room.(members := n.room.members - {from}));
    if n.room.open && from in n.room.members && from != n.room.owner {
      BroadcastKeeps(n2, list, lost);
    }
  }

  lemma RelayKeeps(n: Net, from: Id, hs: HsId, lost: set<Id>, m: Down)
    requires Confined(n)
    requires m.MemberKey? || (m.KeyDeliver? && hs in n.h.shakes && DownOk(n.h, n.h.shakes[hs].joiner, m) && n.h.shakes[hs].joiner != from)
    ensures Confined(RelayHandshake(n, from, hs, lost, m))
  {
    if hs in n.handshakes {
      var p := n.handshakes[hs];
      if p.joiner == from {
        SendOk(n.h, n.down, {p.owner}, lost, m);
      } else {
        SendOk(n.h, n.down, {p.joiner}, lost, m);
      }
    }
  }

  lemma ProcessKeeps(n: Net, from: Id, m: Up, list: seq<MemberInfo>, lost: set<Id>)
    requires Confined(n) && UpOk(n.h, from, m) && Lists(list, Process(n, from, m, list, lost).room)
    ensures Confined(Process(n, from, m, list, lost))
  {
    match m
    case UpMemberKey(hs, pub) => RelayKeeps(n, from, hs, lost, MemberKey(hs, pub));
    case UpKeyDeliver(hs, sealed) =>
      if from !in n.joining {
        RelayKeeps(n, from, hs, lost, KeyDeliver(hs, sealed));
      }
    case UpEnter(hs) => EnterKeeps(n, from, hs, lost);
    case UpRekey(target, sealed) => SendOk(n.h, n.down, {target}, lost, Rekey(sealed));
    case UpRoster(roster) => SendOk(n.h, n.down, n.room.members - {from}, lost, Roster(roster));
    case UpTransfer(target) => AgendaGrows(n.h, n.agenda, from, [SendPresence]);
    case UpKick(target) =>
      var n1 := n.(room := n.room.(members := n.room.members - {target}),
                   down := Send(n.down, {target}, lost, RoomClosed));
      SendOk(n.h, n.down, {target}, lost, RoomClosed);
      if Process(n, from, m, list, lost) != n {
        BroadcastKeeps(n1, list, lost);
      }
    case UpLeave => LeaveKeeps(n, from, list, lost);
  }

  lemma AgendaGrows(h: History, agenda: map<Id, seq<Job>>, id: Id, jobs: seq<Job>)
    requires AgendaOk(h, agenda) && (SendWelcome in jobs ==> id in h.joinKey)
    ensures AgendaOk(h, agenda[id := Q(agenda, id) + jobs])
  {
    var a := agenda[id := Q(agenda, id) + jobs];
    assert forall x :: Q(a, x) == if x == id then Q(agenda, x) + jobs else Q(agenda, x);
  }

  lemma EnterKeeps(n: Net, from: Id, hs: HsId, lost: set<Id>)
    requires Confined(n) && from in n.h.joinKey
    ensures Confined(Enter(n, from, hs, lost))
  {
    SendOk(n.h, n.down, {from}, lost, RoomClosed);
    AgendaGrows(n.h, n.agenda, from, [SendWelcome, SendPresence]);
  }

  lemma ServeKeeps(n: Net, conn: Id, list: seq<MemberInfo>, lost: set<Id>)
    requires Confined(n) && Enabled(n, Serve(conn, list, lost))
    ensures Confined(ServeStep(n, conn, list, lost))
  {
    if Q(n.agenda, conn) != [] {
      var a := n.agenda[conn := n.agenda[conn][1..]];
      var n1 := n.(agenda := a);
      forall x | SendWelcome in Q(a, x) ensures x in n.h.joinKey {
        assert SendWelcome in Q(n.agenda, x);
      }
      ListedOk(n, list, n.room);
      if n.agenda[conn][0] == SendWelcome {
        assert SendWelcome in Q(n.agenda, conn);
        SendOk(n.h, n.down, {conn}, lost, Welcome(conn, list));
      } else {
        BroadcastKeeps(n1, list, lost);
      }
    } else {
      var n1 := n.(up := n.up[conn := n.up[conn][1..]]);
      forall x, m | m in Q(n1.up, x) ensures UpOk(n.h, x, m) {
        assert m in Q(n.up, x);
      }
      assert n.up[conn][0] in Q(n.up, conn);
      ProcessKeeps(n1, conn, n.up[conn][0], list, lost);
    }
  }

  /** A client may change, send and draw a key, if each of these is confined. */
  lemma ClientKeeps(n: Net, h': History, id: Id, c: Client, sent: seq<Up>)
    requires Confined(n) && Sound(h') && Extends(n.h, h')
    requires id in h'.ids && c.id == id && ClientOk(h', c) && forall u <- sent :: UpOk(h', id, u)
    ensures Confined(n.(clients := n.clients[id := c], up := Append(n.up, id, sent), h := h'))
  {
    OthersOk(n, h');
    AppendOk(h', n.up, id, sent);
  }

  lemma DeliverKeeps(n: Net, id: Id)
    requires Confined(n) && Q(n.down, id) != []
    ensures Confined(DeliverStep(n, id))
    ensures Extends(n.h, DeliverStep(n, id).h)
  {
    var m := n.down[id][0];
    var n1 := n.(down := n.down[id := n.down[id][1..]]);
    assert m in Q(n.down, id);
    forall x, k | k in Q(n1.down, x) ensures DownOk(n.h, x, k) {
      assert k in Q(n.down, x);
    }
    if id in n.clients {
      var c := n.clients[id];
      HandleOk(n.h, c, m);
      var r := Handle(c, m, n.h.nextKey);
      if r.Live? {
        ClientKeeps(n1, if r.made then Record(n.h, c, m, r.client) else n.h, id, r.client, r.sent);
      }
    }
  }

  lemma ShakeKeeps(n: Net, o: Id, j: Id, hs: HsId, ke: Ke)
    requires Confined(n) && Enabled(n, Shake(o, j, hs, ke))
    ensures Confined(ShakeStep(n, o, j, hs, ke))
    ensures Extends(n.h, ShakeStep(n, o, j, hs, ke).h)
  {
    var h' := n.h.(shakes := n.h.shakes[hs := Handshake(j, o)], ids := n.h.ids + {j});
    var entry := HsEntry(hs, Some(j), Some(ke), None);
    var owner := n.clients[o].(handshakes := n.clients[o].handshakes + [entry]);
    ClientOkGrows(n.h, h', n.clients[o]);
    OwnerEntryOk(h', n.clients[o], entry);
    ClientKeeps(n, h', o, owner, [UpMemberKey(hs, SealedPub(ke, Pub(o)))]);
    var n1 := n.(clients := n.clients[o := owner], up := Append(n.up, o, [UpMemberKey(hs, SealedPub(ke, Pub(o)))]), h := h');
    var joiner := NewClient(j).(handshakes := [HsEntry(hs, None, Some(ke), None)]);
    JoinerKeeps(n1, h', j, joiner, hs, ke);
  }

  lemma JoinerKeeps(n: Net, h: History, j: Id, joiner: Client, hs: HsId, ke: Ke)
    requires Confined(n) && n.h == h && hs in h.shakes && j in h.ids
    requires joiner == NewClient(j).(handshakes := [HsEntry(hs, None, Some(ke), None)])
    ensures Confined(n.(clients := n.clients[j := joiner],
                        up := Append(n.up, j, [UpMemberKey(hs, SealedPub(ke, Pub(j)))]),
                        handshakes := n.handshakes[hs := h.shakes[hs]],
                        joining := n.joining[j := hs]))
  {
    assert EntryOk(h, joiner, joiner.handshakes[0]);
    ClientKeeps(n, h, j, joiner, [UpMemberKey(hs, SealedPub(ke, Pub(j)))]);
  }

  lemma OwnerEntryOk(h: History, c: Client, e: HsEntry)
    requires ClientOk(h, c) && EntryOk(h, c, e)
    ensures ClientOk(h, c.(handshakes := c.handshakes + [e]))
  {
    var c' := c.(handshakes := c.handshakes + [e]);
    forall f <- c'.handshakes ensures EntryOk(h, c', f) {
      assert f in c.handshakes || f == e;
      assert EntryOk(h, c, f);
    }
  }

  lemma AskKeeps(n: Net, who: Id, m: Up)
    requires Confined(n) && (m.UpTransfer? || m.UpKick? || m.UpLeave?)
    ensures Confined(n.(up := Append(n.up, who, [m])))
    ensures Confined(n.(clients := n.clients - {who}, up := Append(n.up, who, [m])))
  {
    AppendOk(n.h, n.up, who, [m]);
  }

  lemma CutKeeps(n: Net, who: Id)
    requires Confined(n)
    ensures Confined(n.(up := n.up[who := [UpLeave]]))
  {
  }

  lemma {:induction false} StepKeeps(n: Net, s: Step)
    requires Confined(n) && Enabled(n, s)
    ensures Confined(Apply(n, s)) && Extends(n.h, Apply(n, s).h)
  {
    hide Confined, Extends, ShakeStep, ServeStep, DeliverStep, Lists;
    ExtendsSelf(n.h);
    if s.Shake? {
      ShakeKeeps(n, s.owner, s.joiner, s.hs, s.ke);
    } else if s.Serve? {
      ServeKeeps(n, s.conn, s.list, s.lost);
      ServeKeepsClients(n, s.conn, s.list, s.lost);
    } else if s.Deliver? {
      DeliverKeeps(n, s.to);
    } else if s.AskTransfer? {
      AskKeeps(n, s.who, UpTransfer(s.target));
    } else if s.AskKick? {
      AskKeeps(n, s.who, UpKick(s.target));
    } else if s.AskLeave? {
      AskKeeps(n, s.who, UpLeave);
    } else {
      CutKeeps(n, s.who);
    }
  }

  // ----- whole runs

  ghost predicate FromCreated(ns: seq<Net>, ss: seq<Step>, o: Id) {
    Run(ns, ss) && exists size: nat :: ns[0] == Created(o, size)
  }

  lemma CreatedOk(o: Id, size: nat)
    ensures Confined(Created(o, size))
  {
    assert Ids([MemberInfo(o, true)]) == [o];
  }

  lemma {:induction false} RunKeeps(ns: seq<Net>, ss: seq<Step>, o: Id, i: nat)
    requires FromCreated(ns, ss, o) && i < |ns|
    ensures Confined(ns[i])
  {
    if i == 0 {
      var size: nat :| ns[0] == Created(o, size);
      CreatedOk(o, size);
    } else {
      RunKeeps(ns, ss, o, i - 1);
      StepKeeps(ns[i - 1], ss[i - 1]);
    }
  }

  lemma ExtendsSelf(h: History)
    ensures Extends(h, h)
  {
  }

  lemma ExtendsOn(h: History, h': History, h'': History)
    requires Extends(h, h') && Extends(h', h'')
    ensures Extends(h, h'')
  {
  }

  lemma StepExtends(ns: seq<Net>, ss: seq<Step>, o: Id, j: nat)
    requires FromCreated(ns, ss, o) && j + 1 < |ns|
    ensures Extends(ns[j].h, ns[j + 1].h)
  {
    RunKeeps(ns, ss, o, j);
    StepKeeps(ns[j], ss[j]);
  }

  lemma {:induction false} HistoryGrows(ns: seq<Net>, ss: seq<Step>, o: Id, i: nat, j: nat)
    requires FromCreated(ns, ss, o) && i <= j < |ns|
    ensures Extends(ns[i].h, ns[j].h)
  {
    hide FromCreated, Extends;
    if i < j {
      HistoryGrows(ns, ss, o, i, j - 1);
      StepExtends(ns, ss, o, j - 1);
      ExtendsOn(ns[i].h, ns[j - 1].h, ns[j].h);
    } else {
      ExtendsSelf(ns[i].h);
    }
  }

  /** What one step adds to the history: nothing, or one key meant for the view
      of the client that drew it. */
  ghost predicate HistoryStep(n: Net, s: Step, n': Net) {
    || (n'.h.audience == n.h.audience && n'.h.joinKey == n.h.joinKey)
    || (&& s.Deliver? && s.to in n.clients && s.to in n'.clients && Q(n.down, s.to) != []
        && n.h.nextKey !in n.h.audience && n'.clients[s.to].id == s.to
        && n'.h == Record(n.h, n.clients[s.to], Q(n.down, s.to)[0], n'.clients[s.to]))
  }

  lemma StepHistory(n: Net, s: Step)
    requires Confined(n) && Enabled(n, s)
    ensures HistoryStep(n, s, Apply(n, s))
  {
    if s.Deliver? && s.to in n.clients {
      var m := n.down[s.to][0];
      assert m in Q(n.down, s.to);
      HandleOk(n.h, n.clients[s.to], m);
      hide Handle, Record;
    }
    hide Handle;
    if s.Serve? {
      ServeKeepsClients(n, s.conn, s.list, s.lost);
      hide ServeStep;
    }
  }

  ghost predicate Traced(ns: seq<Net>, ss: seq<Step>, o: Id) {
    && |ns| == |ss| + 1
    && ns[0].h.audience == map[0 := {o}] && ns[0].h.joinKey == map[o := 0]
    && forall i :: 0 <= i < |ss| ==> HistoryStep(ns[i], ss[i], ns[i + 1])
  }

  lemma RunIsTraced(ns: seq<Net>, ss: seq<Step>, o: Id)
    requires FromCreated(ns, ss, o)
    ensures Traced(ns, ss, o)
  {
    forall i | 0 <= i < |ss| ensures HistoryStep(ns[i], ss[i], ns[i + 1]) {
      RunKeeps(ns, ss, o, i);
      StepHistory(ns[i], ss[i]);
    }
  }

  /** Every key but the first was drawn at some step, for the view its drawer then had. */
  lemma {:induction false} AudienceIsTheView(ns: seq<Net>, ss: seq<Step>, o: Id, i: nat, k: Key) returns (j: nat)
    requires Traced(ns, ss, o) && i < |ns|
    requires k in ns[i].h.audience && k != 0
    ensures j < i && Draws(ns, ss, j, k)
    ensures var g := ss[j].to; ns[i].h.audience[k] == SetFrom(ns[j + 1].clients[g].known) + {g}
  {
    if i == 0 {
      assert false;
    } else {
      assert HistoryStep(ns[i - 1], ss[i - 1], ns[i]);
      if k in ns[i - 1].h.audience {
        j := AudienceIsTheView(ns, ss, o, i - 1, k);
      } else {
        j := i - 1;
      }
    }
  }

  lemma {:induction false} JoinKeyIsTheRotation(ns: seq<Net>, ss: seq<Step>, o: Id, i: nat, id: Id) returns (j: nat)
    requires Traced(ns, ss, o) && i < |ns|
    requires id in ns[i].h.joinKey && id != o
    ensures j < i && JoinRotation(ns, ss, j, id, ns[i].h.joinKey[id])
  {
    if i == 0 {
      assert false;
    } else {
      assert HistoryStep(ns[i - 1], ss[i - 1], ns[i]);
      if id in ns[i - 1].h.joinKey {
        j := JoinKeyIsTheRotation(ns, ss, o, i - 1, id);
      } else {
        j := i - 1;
      }
    }
  }

  /** In any run, whoever holds a key drew it or was known to the client that drew
      it, the joiner being admitted included; the first key never leaves the founder. */
  lemma KeyConfinement(ns: seq<Net>, ss: seq<Step>, o: Id, i: nat, id: Id, k: Key)
    requires FromCreated(ns, ss, o) && i < |ns|
    requires id in ns[i].clients && k in ns[i].clients[id].keys
    ensures if k == 0 then id == o
            else exists j: nat :: j < i && Draws(ns, ss, j, k)
                                  && (id == ss[j].to || id in ns[j + 1].clients[ss[j].to].known)
  {
    RunKeeps(ns, ss, o, i);
    assert Meant(ns[i].h, k, id);
    if k == 0 {
      HistoryGrows(ns, ss, o, 0, i);
      assert 0 in ns[0].h.audience;
    } else {
      RunIsTraced(ns, ss, o);
      var j := AudienceIsTheView(ns, ss, o, i, k);
    }
  }

  /** A member other than the founder was admitted by a rotation, and holds no key
      older than the one drawn for it. */
  lemma JoinerHoldsNothingOlder(ns: seq<Net>, ss: seq<Step>, o: Id, i: nat, id: Id)
    requires FromCreated(ns, ss, o) && i < |ns|
    requires id in ns[i].clients && ns[i].clients[id].keys != [] && id != o
    ensures exists j: nat, first: Key :: j < i && JoinRotation(ns, ss, j, id, first)
                                         && forall k <- ns[i].clients[id].keys :: first <= k
  {
    RunKeeps(ns, ss, o, i);
    assert ns[i].clients[id].keys[0] in ns[i].clients[id].keys;
    assert Meant(ns[i].h, ns[i].clients[id].keys[0], id);
    RunIsTraced(ns, ss, o);
    var j := JoinKeyIsTheRotation(ns, ss, o, i, id);
  }

  // ----- shutting out a member who is gone

  /** Step `t` hands `g` the presence `list`. */
  ghost predicate HandsPresence(ns: seq<Net>, ss: seq<Step>, t: nat, g: Id, list: seq<MemberInfo>) {
    t < |ss| < |ns| && ss[t] == Deliver(g) && g in ns[t].clients && Q(ns[t].down, g) != []
    && Q(ns[t].down, g)[0] == Presence(list)
  }

  /** `g` sees itself as owner and knows of `d`. */
  ghost predicate Watches(n: Net, g: Id, d: Id) {
    g in n.clients && n.clients[g].isOwner && d in n.clients[g].known && n.clients[g].id == g
  }

  lemma FrameKeepsWatch(c: Client, m: Down, next: Key, d: Id)
    requires c.isOwner && d in c.known && !m.Presence? && !m.Welcome?
    ensures var r := Handle(c, m, next); r.Live? ==> r.client.isOwner && d in r.client.known
  {
  }

  lemma DeliveryKeepsWatch(n: Net, to: Id, g: Id, d: Id)
    requires Confined(n) && Q(n.down, to) != [] && Watches(n, g, d) && g in DeliverStep(n, to).clients
    requires to == g ==> !Q(n.down, g)[0].Presence? && !Q(n.down, g)[0].Welcome?
    ensures Watches(DeliverStep(n, to), g, d)
  {
    if to == g {
      var m := Q(n.down, g)[0];
      assert m in Q(n.down, g);
      FrameKeepsWatch(n.clients[g], m, n.h.nextKey, d);
      HandleOk(n.h, n.clients[g], m);
    }
  }

  lemma StepKeepsWatch(n: Net, s: Step, n': Net, g: Id, d: Id)
    requires Confined(n) && Enabled(n, s) && n' == Apply(n, s) && Watches(n, g, d) && g in n'.clients
    requires s == Deliver(g) ==> !Q(n.down, g)[0].Presence? && !Q(n.down, g)[0].Welcome?
    ensures Watches(n', g, d)
  {
    if s.Deliver? {
      DeliveryKeepsWatch(n, s.to, g, d);
    } else if s.Serve? {
      ServeKeepsClients(n, s.conn, s.list, s.lost);
    }
  }

  lemma WatchStep(ns: seq<Net>, ss: seq<Step>, o: Id, t: nat, g: Id, d: Id)
    requires FromCreated(ns, ss, o) && t < |ss| && Watches(ns[t], g, d) && g in ns[t + 1].clients
    requires ss[t] == Deliver(g) ==> !Q(ns[t].down, g)[0].Presence? && !Q(ns[t].down, g)[0].Welcome?
    ensures Watches(ns[t + 1], g, d)
  {
    RunKeeps(ns, ss, o, t);
    StepKeepsWatch(ns[t], ss[t], ns[t + 1], g, d);
  }

  lemma {:induction false} WatchLasts(ns: seq<Net>, i: nat, j: nat, g: Id, d: Id)
    requires i <= j < |ns| && Watches(ns[i], g, d)
    requires forall t :: i <= t < j && Watches(ns[t], g, d) ==> Watches(ns[t + 1], g, d)
    ensures Watches(ns[j], g, d)
  {
    if i < j {
      WatchLasts(ns, i, j - 1, g, d);
    }
  }

  /** No frame in `sent` tells `d` anything: each is a rekey with `k` to somebody
      else, or a roster under `k`. */
  ghost predicate Silent(sent: seq<Up>, k: Key, d: Id) {
    forall u <- sent ::
      || (u.UpRekey? && u.target != d && u.sealed.key == k)
      || (u.UpRoster? && u.roster.key == k)
  }

  lemma {:induction false} RekeysAreSilent(c: Client, ids: seq<Id>, skip: set<Id>, k: Key, d: Id)
    requires d !in ids
    ensures Silent(Rekeys(c, ids, skip, k), k, d)
  {
    if ids != [] {
      RekeysAreSilent(c, ids[..|ids| - 1], skip, k, d);
    }
  }

  /** An owner that learns that a member it knew of is gone draws a key at once. */
  lemma PresenceShutsOut(c: Client, list: seq<MemberInfo>, next: Key, d: Id)
    requires c.isOwner && d in c.known && OwnerIdOf(list) == Some(c.id) && d !in Ids(list)
    ensures var r := OnPresence(c, list, next);
            && r.Live? && r.made && r.client.keys != [] && r.client.keys[0] == next && d !in r.client.known && r.client.id == c.id && d != c.id
            && Silent(r.sent, next, d)
  {
    OwnerIsListed(list);
    var current := SetOf(Ids(list));
    assert d in Missing(c.known, current);
    RekeysAreSilent(OnPresence(c, list, next).client, current, {c.id}, next, d);
  }

  /** At step `j` client `g` draws a key, installs it, and what it sends tells `d` nothing. */
  ghost predicate ShutsOut(ns: seq<Net>, ss: seq<Step>, j: nat, g: Id, d: Id) {
    && j + 1 < |ns| && j < |ss| && ss[j] == Deliver(g) && Draws(ns, ss, j, ns[j].h.nextKey)
    && var k := ns[j].h.nextKey;
    && ns[j + 1].clients[g].keys != [] && ns[j + 1].clients[g].keys[0] == k
    && |Q(ns[j].up, g)| <= |Q(ns[j + 1].up, g)| && Silent(Q(ns[j + 1].up, g)[|Q(ns[j].up, g)|..], k, d)
  }

  /** When two presences in a row name `g` the owner and the second lacks `d`, then
      on handling the second `g` draws a key, sends nothing but rekeys and a roster
      that use it, and in the whole run `d` never holds it. */
  lemma DepartedIsShutOut(ns: seq<Net>, ss: seq<Step>, o: Id, i: nat, j: nat, g: Id, d: Id,
                          first: seq<MemberInfo>, second: seq<MemberInfo>)
    requires FromCreated(ns, ss, o) && i < j
    requires HandsPresence(ns, ss, i, g, first) && OwnerIdOf(first) == Some(g) && d in Ids(first)
    requires HandsPresence(ns, ss, j, g, second) && OwnerIdOf(second) == Some(g) && d !in Ids(second)
    requires forall t :: i < t <= j ==> g in ns[t].clients
    requires forall t :: i < t < j && ss[t] == Deliver(g) ==> !Q(ns[t].down, g)[0].Presence? && !Q(ns[t].down, g)[0].Welcome?
    ensures ShutsOut(ns, ss, j, g, d)
    ensures forall t :: 0 <= t < |ns| && d in ns[t].clients ==> ns[j].h.nextKey !in ns[t].clients[d].keys
  {
    RunKeeps(ns, ss, o, i);
    LearnsAt(ns, ss, i, g, first, d);
    forall t | i < t < j && Watches(ns[t], g, d) ensures Watches(ns[t + 1], g, d) {
      WatchStep(ns, ss, o, t, g, d);
    }
    WatchLasts(ns, i + 1, j, g, d);
    ShutsOutAt(ns, ss, j, g, d, second);
    hide Run, ShutsOut, Watches, OwnerIdOf, Ids, Confined;
    forall t | 0 <= t < |ns| && d in ns[t].clients ensures ns[j].h.nextKey !in ns[t].clients[d].keys {
      NeverHeld(ns, ss, o, j, t, d);
    }
  }

  lemma ShutsOutAt(ns: seq<Net>, ss: seq<Step>, j: nat, g: Id, d: Id, list: seq<MemberInfo>)
    requires Run(ns, ss) && HandsPresence(ns, ss, j, g, list) && Watches(ns[j], g, d)
    requires OwnerIdOf(list) == Some(g) && d !in Ids(list)
    ensures ShutsOut(ns, ss, j, g, d)
    ensures ns[j].h.nextKey in ns[j + 1].h.audience && d !in ns[j + 1].h.audience[ns[j].h.nextKey]
  {
    hide OnPresence, Run, Apply, OwnerIdOf, Ids, Silent, HandsPresence;
    Handed(ns, ss, j, g, list);
    var r := OnPresence(ns[j].clients[g], list, ns[j].h.nextKey);
    PresenceShutsOut(ns[j].clients[g], list, ns[j].h.nextKey, d);
    DrawsAt(ns, ss, j, g, list);
    var before, sent := Q(ns[j].up, g), r.sent;
    assert (before + sent)[|before|..] == sent;
    hide Watches;
  }

  lemma Handed(ns: seq<Net>, ss: seq<Step>, j: nat, g: Id, list: seq<MemberInfo>)
    requires HandsPresence(ns, ss, j, g, list)
    ensures j < |ss| < |ns| && ss[j] == Deliver(g) && g in ns[j].clients
  {
  }

  lemma LearnsAt(ns: seq<Net>, ss: seq<Step>, i: nat, g: Id, list: seq<MemberInfo>, d: Id)
    requires Run(ns, ss) && HandsPresence(ns, ss, i, g, list) && ns[i].clients[g].id == g
    requires OwnerIdOf(list) == Some(g) && d in Ids(list)
    ensures Watches(ns[i + 1], g, d)
  {
  }

  lemma DrawsAt(ns: seq<Net>, ss: seq<Step>, j: nat, g: Id, list: seq<MemberInfo>)
    requires Run(ns, ss) && HandsPresence(ns, ss, j, g, list)
    requires var r := OnPresence(ns[j].clients[g], list, ns[j].h.nextKey); r.Live? && r.made
    ensures var r := OnPresence(ns[j].clients[g], list, ns[j].h.nextKey);
            && Draws(ns, ss, j, ns[j].h.nextKey) && ns[j + 1].clients[g] == r.client
            && Q(ns[j + 1].up, g) == Q(ns[j].up, g) + r.sent
            && ns[j + 1].h.audience == ns[j].h.audience[ns[j].h.nextKey := SetFrom(r.client.known) + {r.client.id}]
  {
  }

  lemma NeverHeld(ns: seq<Net>, ss: seq<Step>, o: Id, j: nat, t: nat, d: Id)
    requires FromCreated(ns, ss, o) && j + 1 < |ns| && t < |ns| && d in ns[t].clients
    requires ns[j].h.nextKey in ns[j + 1].h.audience && d !in ns[j + 1].h.audience[ns[j].h.nextKey]
    ensures ns[j].h.nextKey !in ns[t].clients[d].keys
  {
    var k := ns[j].h.nextKey;
    RunKeeps(ns, ss, o, t);
    if k in ns[t].clients[d].keys {
      assert Meant(ns[t].h, k, d);
      if t <= j {
        HistoryGrows(ns, ss, o, t, j);
        assert false;
      } else {
        HistoryGrows(ns, ss, o, j + 1, t);
        assert false;
      }
    }
  }
}
