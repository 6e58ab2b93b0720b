/**
Rotation agreement: when membership changes do not overlap and no frame is lost,
every member of an open room ends each change with the same newest key, the
owner's view of the membership is exact, and everybody knows everybody's true
public key. Within a change, frames are delivered in any order the queues allow.

The proof follows a change through its phases. While the owner's frames are
under way, a member counts as settled when the frames still due to it, its own
queue followed by what the relay will route to it, would settle it (`Drain`).
*/
module RotationAgreement {
  import opened Options
  import opened RotationClient
  import opened RotationNet

  // ----- what is promised

  ghost predicate Quiet(n: Net) {
    && (forall x :: Q(n.down, x) == [] && Q(n.up, x) == [] && Q(n.agenda, x) == [])
    && n.joining == map[]
  }

  ghost predicate True(pubs: map<Id, Pub>) {
    forall x <- pubs :: pubs[x] == Pub(x)
  }

  ghost predicate Knows(c: Client, members: set<Id>) {
    True(c.pubs) && forall x <- members :: x != c.id ==> x in c.pubs
  }

  ghost predicate Agreed(n: Net) {
    && n.room.owner in n.room.members && n.room.members <= n.clients.Keys
    && SetFrom(n.clients[n.room.owner].known) == n.room.members
    && (forall x <- n.room.members ::
          && n.clients[x].id == x
          && n.clients[x].owner == Some(n.room.owner)
          && n.clients[x].isOwner == (x == n.room.owner)
          && Knows(n.clients[x], n.room.members))
    && (forall x <- n.room.members, y <- n.room.members ::
          && n.clients[x].keys != [] && n.clients[y].keys != []
          && n.clients[x].keys[0] == n.clients[y].keys[0])
  }

  /** A step of a serialized run: a change starts only when the last one is fully
      delivered, joins respect the capacity check, and no buffer overflows. */
  ghost predicate Serial(n: Net, s: Step) {
    && Enabled(n, s) && !s.Cut?
    && (s.Serve? ==> s.lost == {})
    && (s.Shake? || s.AskTransfer? || s.AskKick? || s.AskLeave? ==> Quiet(n))
    && (s.Shake? ==> n.room.open && s.owner == n.room.owner && |n.room.members| < n.maxSize)
  }

  // ----- frames still due

  /** What the relay will queue for `x` when it serves `u` from owner `w`; `j` is
      the joiner whose handshake is open. */
  function RouteOne(u: Up, x: Id, w: Id, j: Option<Id>): seq<Down> {
    match u
    case UpRekey(target, sealed) => if target == x then [Rekey(sealed)] else []
    case UpRoster(roster) => if x != w then [Roster(roster)] else []
    case UpMemberKey(hs, pub) => if Some(x) == j then [MemberKey(hs, pub)] else []
    case UpKeyDeliver(hs, sealed) => if Some(x) == j then [KeyDeliver(hs, sealed)] else []
    case _ => []
  }

  function Route(us: seq<Up>, x: Id, w: Id, j: Option<Id>): seq<Down> {
    if us == [] then [] else RouteOne(us[0], x, w, j) + Route(us[1..], x, w, j)
  }

  lemma {:induction false} RouteSplits(us: seq<Up>, vs: seq<Up>, x: Id, w: Id, j: Option<Id>)
    ensures Route(us + vs, x, w, j) == Route(us, x, w, j) + Route(vs, x, w, j)
  {
    if us == [] {
      assert us + vs == vs;
    } else {
      var one := RouteOne(us[0], x, w, j);
      hide RouteOne;
      assert (us + vs)[1..] == us[1..] + vs;
      calc {
        Route(us + vs, x, w, j);
        one + Route(us[1..] + vs, x, w, j);
        { RouteSplits(us[1..], vs, x, w, j); }
        one + (Route(us[1..], x, w, j) + Route(vs, x, w, j));
        (one + Route(us[1..], x, w, j)) + Route(vs, x, w, j);
      }
    }
  }

  /** A frame that only changes the state of a client that is not to be owner. */
  predicate Passive(m: Down, x: Id) {
    match m
    case Presence(list) => OwnerIdOf(list) != Some(x)
    case Welcome(me, list) => me == x && OwnerIdOf(list) != Some(x)
    case Rekey(_) => true
    case Roster(_) => true
    case _ => false
  }

  ghost predicate AllPassive(ms: seq<Down>, x: Id) {
    forall m <- ms :: Passive(m, x)
  }

  function Absorb(c: Client, m: Down): Client {
    match m
    case Presence(list) => c.(owner := OwnerIdOf(list), isOwner := false)
    case Welcome(me, list) => OnWelcome(c, me, list)
    case Rekey(sealed) => OnRekey(c, sealed)
    case Roster(roster) => ApplyRoster(c, roster)
    case _ => c
  }

  lemma PassiveIsAbsorbed(c: Client, m: Down, next: Key)
    requires Passive(m, c.id)
    ensures Handle(c, m, next) == Live(Absorb(c, m), [], false)
  {
  }

  function Drain(c: Client, ms: seq<Down>): Client
    decreases ms
  {
    if ms == [] then c else Drain(Absorb(c, ms[0]), ms[1..])
  }

  lemma {:induction false} DrainSplits(c: Client, ms: seq<Down>, ns: seq<Down>)
    ensures Drain(c, ms + ns) == Drain(Drain(c, ms), ns)
    decreases ms
  {
    if ms == [] {
      assert ms + ns == ns;
    } else {
      DrainSplits(Absorb(c, ms[0]), ms[1..], ns);
      assert (ms + ns)[1..] == ms[1..] + ns;
    }
  }

  /** A presence changes nothing for a member that already follows its owner. */
  lemma PresenceIsNeutral(c: Client, ms: seq<Down>, list: seq<MemberInfo>, ns: seq<Down>)
    requires Drain(c, ms).owner == OwnerIdOf(list) && !Drain(c, ms).isOwner
    ensures Drain(c, ms + [Presence(list)] + ns) == Drain(c, ms + ns)
  {
    DrainSplits(c, ms + [Presence(list)], ns);
    DrainSplits(c, ms, [Presence(list)]);
    DrainSplits(c, ms, ns);
  }

  // ----- member lists

  lemma {:induction false} ListOwner(list: seq<MemberInfo>, room: Room)
    requires Lists(list, room) && room.owner in room.members
    ensures OwnerIdOf(list) == Some(room.owner)
    ensures forall x :: x in Ids(list) <==> x in room.members
  {
    IdsAre(list);
    var i :| 0 <= i < |list| && list[i].id == room.owner;
    OwnerAt(list, i);
    forall x ensures x in Ids(list) <==> x in room.members {
      if x in room.members {
        var j :| 0 <= j < |list| && list[j].id == x;
        assert list[j] in list;
      }
    }
  }

  lemma {:induction false} IdsAre(list: seq<MemberInfo>)
    ensures forall x :: x in Ids(list) <==> exists m <- list :: m.id == x
  {
    if list != [] {
      IdsAre(list[1..]);
      assert list == [list[0]] + list[1..];
    }
  }

  lemma {:induction false} OwnerAt(list: seq<MemberInfo>, i: nat)
    requires i < |list| && forall j :: 0 <= j < |list| ==> list[j].owner == (list[j].id == list[i].id)
    ensures OwnerIdOf(list) == Some(list[i].id)
  {
    if i > 0 && !list[0].owner {
      OwnerAt(list[1..], i - 1);
    }
  }

  // ----- phases

  /** A settled member that follows owner `w` and holds newest key `k`. */
  ghost predicate Ready(c: Client, x: Id, k: Key, w: Id) {
    && c.id == x && x != w && c.inRoom && c.owner == Some(w) && !c.isOwner && c.handshakes == []
    && c.keys != [] && c.keys[0] == k && w in c.pubs && True(c.pubs)
  }

  ghost predicate OwnerReady(c: Client, w: Id, k: Key, members: set<Id>) {
    && c.id == w && c.isOwner && c.inRoom && c.owner == Some(w)
    && c.keys != [] && c.keys[0] == k && Knows(c, members) && SetFrom(c.known) == members
  }

  /** The owner-to-be before it handles the presence that is on its way. */
  ghost predicate OwnerWaits(c: Client, w: Id, k: Key, members: set<Id>) {
    && c.id == w && c.inRoom && c.handshakes == []
    && c.keys != [] && c.keys[0] == k && Knows(c, members) && (c.isOwner ==> members <= SetFrom(c.known))
  }

  ghost predicate UpOnlyFrom(n: Net, x: Id) {
    forall y :: y != x ==> Q(n.up, y) == []
  }

  ghost predicate NoAgenda(n: Net) {
    forall y :: Q(n.agenda, y) == []
  }

  /** Whoever is neither member nor joiner is gone, or about to learn that it is. */
  ghost predicate Strangers(n: Net, j: Option<Id>) {
    forall x :: x !in n.room.members && Some(x) != j ==>
      (Q(n.down, x) == [] && x !in n.clients) || Q(n.down, x) == [RoomClosed]
  }

  ghost predicate OpenRoom(n: Net, j: Option<Id>) {
    && n.room.open && n.room.owner in n.room.members && n.room.members <= n.clients.Keys
    && Strangers(n, j)
  }

  /** All that is still due to `x`. */
  function Due(n: Net, x: Id, j: Option<Id>): seq<Down> {
    Q(n.down, x) + Route(Q(n.up, n.room.owner), x, n.room.owner, j)
  }

  /** Member `x` will be settled, with key `k`; if `all`, knowing everybody. */
  ghost predicate WillBe(n: Net, x: Id, k: Key, all: bool, j: Option<Id>)
    requires x in n.clients
  {
    var d := Drain(n.clients[x], Due(n, x, j));
    n.clients[x].id == x && AllPassive(Q(n.down, x), x) && Ready(d, x, k, n.room.owner) && (all ==> Knows(d, n.room.members))
  }

  ghost predicate OthersWillBe(n: Net, k: Key, all: bool, j: Option<Id>)
    requires n.room.members <= n.clients.Keys
  {
    forall x <- n.room.members :: x != n.room.owner && Some(x) != j ==> WillBe(n, x, k, all, j)
  }

  ghost predicate Announces(us: seq<Up>, n: Net) {
    forall u <- us :: u.UpRoster? || (u.UpRekey? && u.target in n.room.members && u.target != n.room.owner)
  }

  /** The owner has done its part; what it sent settles everybody. */
  ghost predicate Settling(n: Net, k: Key) {
    var w := n.room.owner;
    && OpenRoom(n, None) && n.joining == map[] && NoAgenda(n)
    && UpOnlyFrom(n, w) && Announces(Q(n.up, w), n) && Q(n.down, w) == []
    && OwnerReady(n.clients[w], w, k, n.room.members) && n.clients[w].handshakes == []
    && OthersWillBe(n, k, true, None)
  }

  /** A presence for the owner-to-be is queued, and nothing else it must handle. */
  ghost predicate Await(n: Net, k: Key) {
    var w := n.room.owner;
    && OpenRoom(n, None) && n.joining == map[] && NoAgenda(n)
    && UpOnlyFrom(n, w) && Announces(Q(n.up, w), n)
    && (exists list :: Q(n.down, w) == [Presence(list)] && Lists(list, n.room))
    && OwnerWaits(n.clients[w], w, k, n.room.members)
    && OthersWillBe(n, k, false, None)
  }

  // ----- settling

  lemma DueAfterServe(n: Net, n': Net, x: Id, j: Option<Id>)
    requires var w := n.room.owner;
             && n'.room.owner == w && Q(n.up, w) != [] && Q(n'.up, w) == Q(n.up, w)[1..]
             && Q(n'.down, x) == Q(n.down, x) + RouteOne(Q(n.up, w)[0], x, w, j)
    ensures Due(n', x, j) == Due(n, x, j)
  {
  }

  lemma DueAfterDelivery(n: Net, n': Net, x: Id, j: Option<Id>, m: Down)
    requires n'.room.owner == n.room.owner && Q(n.up, n.room.owner) == Q(n'.up, n.room.owner)
    requires Q(n.down, x) == [m] + Q(n'.down, x) && x in n.clients && x in n'.clients && n'.clients[x] == Absorb(n.clients[x], m)
    ensures Drain(n'.clients[x], Due(n', x, j)) == Drain(n.clients[x], Due(n, x, j))
  {
    assert Due(n, x, j) == [m] + Due(n', x, j);
  }

  /** The relay has taken the owner's next frame and passed it on. */
  ghost predicate Forwarded(n: Net, n': Net, j: Option<Id>) {
    var w := n.room.owner;
    && n'.room == n.room && n'.clients == n.clients && n'.joining == n.joining && n'.h == n.h && n'.maxSize == n.maxSize
    && n'.handshakes == n.handshakes
    && (forall y :: Q(n'.agenda, y) == Q(n.agenda, y))
    && Q(n.up, w) != [] && Q(n'.up, w) == Q(n.up, w)[1..]
    && (forall y :: y != w ==> Q(n'.up, y) == Q(n.up, y))
    && (forall x :: Q(n'.down, x) ==
          if x != w && (x in n.room.members || Some(x) == j) then Q(n.down, x) + RouteOne(Q(n.up, w)[0], x, w, j)
          else Q(n.down, x))
  }

  lemma AnnouncementIsPassedOn(n: Net, u: Up, list: seq<MemberInfo>)
    requires n.room.open && n.room.owner in n.room.members && Announces([u], n)
    ensures Process(n, n.room.owner, u, list, {}) ==
            n.(down := Send(n.down, if u.UpRekey? then {u.target} else n.room.members - {n.room.owner}, {},
                            if u.UpRekey? then Rekey(u.sealed) else Roster(u.roster)))
  {
    assert u in [u];
  }

  lemma ServeForwards(n: Net, list: seq<MemberInfo>)
    requires n.room.open && n.room.owner in n.room.members && Q(n.agenda, n.room.owner) == []
    requires Announces(Q(n.up, n.room.owner), n) && Q(n.up, n.room.owner) != []
    ensures Forwarded(n, ServeStep(n, n.room.owner, list, {}), None)
  {
    hide Process;
    var u := Q(n.up, n.room.owner)[0];
    assert u in Q(n.up, n.room.owner);
    AnnouncementIsPassedOn(n.(up := n.up[n.room.owner := n.up[n.room.owner][1..]]), u, list);
  }

  lemma ForwardedWillBe(n: Net, n': Net, x: Id, k: Key, all: bool, j: Option<Id>)
    requires Forwarded(n, n', j) && x in n.room.members && x != n.room.owner && x in n.clients
    requires Announces(Q(n.up, n.room.owner), n) || Some(x) != j
    requires WillBe(n, x, k, all, j)
    ensures WillBe(n', x, k, all, j)
  {
    DueAfterServe(n, n', x, j);
    var one := RouteOne(Q(n.up, n.room.owner)[0], x, n.room.owner, j);
    assert Q(n.up, n.room.owner)[0] in Q(n.up, n.room.owner);
    assert AllPassive(one, x);
  }

  lemma ForwardedOthers(n: Net, n': Net, k: Key, all: bool)
    requires Forwarded(n, n', None) && OpenRoom(n, None) && Announces(Q(n.up, n.room.owner), n)
    requires OthersWillBe(n, k, all, None)
    ensures OpenRoom(n', None) && OthersWillBe(n', k, all, None) && Announces(Q(n'.up, n.room.owner), n')
  {
    forall x <- n.room.members | x != n.room.owner ensures WillBe(n', x, k, all, None) {
      ForwardedWillBe(n, n', x, k, all, None);
    }
  }

  /** Client `x`, not the owner, has taken its next frame and only changed its state. */
  ghost predicate Absorbed(n: Net, n': Net, x: Id) {
    Q(n.down, x) != [] && x in n.clients && Delivered(n, n', x, Absorb(n.clients[x], Q(n.down, x)[0]), [])
  }

  lemma DeliverAbsorbs(n: Net, x: Id)
    requires x in n.clients && n.clients[x].id == x && AllPassive(Q(n.down, x), x) && Q(n.down, x) != []
    ensures Absorbed(n, DeliverStep(n, x), x)
  {
    assert Q(n.down, x)[0] in Q(n.down, x);
    PassiveIsAbsorbed(n.clients[x], Q(n.down, x)[0], n.h.nextKey);
    hide Handle, DeliverStep;
    DeliverLive(n, x, Absorb(n.clients[x], Q(n.down, x)[0]), [], false);
  }

  lemma AbsorbedWillBe(n: Net, n': Net, x: Id, y: Id, k: Key, all: bool, j: Option<Id>)
    requires Absorbed(n, n', x) && x != n.room.owner && y in n.clients
    requires WillBe(n, y, k, all, j)
    ensures WillBe(n', y, k, all, j)
  {
    if y == x {
      assert Q(n.down, x)[0] in Q(n.down, x);
      DueAfterDelivery(n, n', x, j, Q(n.down, x)[0]);
    } else {
      assert Due(n', y, j) == Due(n, y, j);
    }
  }

  lemma AbsorbedOthers(n: Net, n': Net, x: Id, k: Key, all: bool)
    requires Absorbed(n, n', x) && OpenRoom(n, None) && x in n.room.members && x != n.room.owner
    requires OthersWillBe(n, k, all, None)
    ensures OpenRoom(n', None) && OthersWillBe(n', k, all, None)
  {
    forall y <- n.room.members | y != n.room.owner ensures WillBe(n', y, k, all, None) {
      AbsorbedWillBe(n, n', x, y, k, all, None);
    }
  }

  /** A client outside the room has taken its notice and is gone. */
  ghost predicate Dismissed(n: Net, n': Net, x: Id) {
    && n'.room == n.room && n'.joining == n.joining && n'.h == n.h && n'.maxSize == n.maxSize
    && n'.handshakes == n.handshakes && n'.agenda == n.agenda && n'.up == n.up
    && Q(n'.down, x) == [] && (forall y :: y != x ==> Q(n'.down, y) == Q(n.down, y))
    && n'.clients == n.clients - {x}
  }

  lemma DeliverDismisses(n: Net, x: Id)
    requires Q(n.down, x) == [RoomClosed]
    ensures Dismissed(n, DeliverStep(n, x), x)
  {
  }

  lemma DismissedOthers(n: Net, n': Net, x: Id, k: Key, all: bool)
    requires Dismissed(n, n', x) && OpenRoom(n, None) && x !in n.room.members
    requires OthersWillBe(n, k, all, None)
    ensures OpenRoom(n', None) && OthersWillBe(n', k, all, None)
  {
    forall y <- n.room.members | y != n.room.owner ensures WillBe(n', y, k, all, None) {
      assert WillBe(n, y, k, all, None);
      assert Due(n', y, None) == Due(n, y, None);
    }
  }

  lemma SettlingStep(n: Net, s: Step, k: Key)
    requires Settling(n, k) && Serial(n, s) && (s.Serve? || s.Deliver?)
    ensures Settling(Apply(n, s), k)
  {
    var n' := Apply(n, s);
    if s.Serve? {
      ServeForwards(n, s.list);
      ForwardedOthers(n, n', k, true);
    } else if s.to in n.room.members {
      DeliverAbsorbs(n, s.to);
      AbsorbedOthers(n, n', s.to, k, true);
    } else {
      DeliverDismisses(n, s.to);
      DismissedOthers(n, n', s.to, k, true);
    }
  }

  // ----- the owner takes over

  lemma RouteRekey(c: Client, t: Id, k: Key, x: Id, w: Id, j: Option<Id>)
    requires x in c.pubs
    ensures Route(RekeyMember(c, t, k), x, w, j) == if t == x then [Rekey(SealKey(c.id, c.pubs[x], k))] else []
  {
    var us := RekeyMember(c, t, k);
    if us != [] {
      assert us[1..] == [];
      assert Route(us, x, w, j) == RouteOne(us[0], x, w, j) + [];
    }
  }

  lemma {:induction false} RekeysRoute(c: Client, ids: seq<Id>, skip: set<Id>, k: Key, x: Id, w: Id, j: Option<Id>)
    requires x in c.pubs
    ensures var r := Route(Rekeys(c, ids, skip, k), x, w, j);
            && (forall m <- r :: m == Rekey(SealKey(c.id, c.pubs[x], k)))
            && (x in ids && x !in skip ==> r != [])
  {
    if ids != [] {
      var init := ids[..|ids| - 1];
      RekeysRoute(c, init, skip, k, x, w, j);
      var t := ids[|ids| - 1];
      var last := if t in skip then [] else RekeyMember(c, t, k);
      RouteSplits(Rekeys(c, init, skip, k), last, x, w, j);
      RouteRekey(c, t, k, x, w, j);
      assert Rekeys(c, ids, skip, k) == Rekeys(c, init, skip, k) + last;
    }
  }

  lemma {:induction false} DrainRekeys(c: Client, ms: seq<Down>, x: Id, k0: Key, k: Key, w: Id)
    requires Ready(c, x, k0, w) && forall m <- ms :: m == Rekey(SealKey(w, Pub(x), k))
    ensures var d := Drain(c, ms); Ready(d, x, if ms == [] then k0 else k, w) && d.pubs == c.pubs
    decreases ms
  {
    if ms != [] {
      assert ms[0] in ms && forall m <- ms[1..] :: m in ms;
      assert {w, x} == {x, w};
      DrainRekeys(Absorb(c, ms[0]), ms[1..], x, k, k, w);
    }
  }

  /** The owner's frames settle a member: a rekey, unless the key stays, and the roster. */
  lemma FramesSettle(c: Client, ms: seq<Down>, x: Id, k0: Key, k: Key, w: Id, pubs: map<Id, Pub>, members: set<Id>)
    requires Ready(c, x, k0, w) && (forall m <- ms :: m == Rekey(SealKey(w, Pub(x), k))) && (k != k0 ==> ms != [])
    requires True(pubs) && members <= pubs.Keys
    ensures var d := Drain(c, ms + [Roster(SealedRoster(k, pubs))]);
            Ready(d, x, k, w) && Knows(d, members)
  {
    DrainRekeys(c, ms, x, k0, k, w);
    DrainSplits(c, ms, [Roster(SealedRoster(k, pubs))]);
    var d := Drain(c, ms);
    assert d.keys[0] in d.keys;
    assert Drain(d, [Roster(SealedRoster(k, pubs))]) == ApplyRoster(d, SealedRoster(k, pubs));
  }

  /** What the owner-to-be does on the presence: it settles, and announces. */
  lemma TakeOver(c: Client, list: seq<MemberInfo>, next: Key, room: Room, k: Key)
    requires room.owner in room.members && Lists(list, room) && OwnerWaits(c, room.owner, k, room.members)
    ensures var r := OnPresence(c, list, next);
            && r.Live?
            && var k' := if r.made then next else k;
            && OwnerReady(r.client, room.owner, k', room.members) && r.client.handshakes == []
            && r.sent == Announcement(r.client, SetOf(Ids(list)), r.made, k')
  {
    ListOwner(list, room);
    var current := SetOf(Ids(list));
    var removed := Missing(if c.isOwner then c.known else current, current);
    TookOver(c, list, next, room.members, current, removed);
    hide OnPresence, Announcement, SetOf, Ids, Missing, Lists;
    var c' := OnPresence(c, list, next).client;
    assert SetFrom(c'.known) == room.members;
  }

  lemma TookOver(c: Client, list: seq<MemberInfo>, next: Key, members: set<Id>, current: seq<Id>, removed: seq<Id>)
    requires current == SetOf(Ids(list)) && removed == Missing(if c.isOwner then c.known else current, current)
    requires OwnerIdOf(list) == Some(c.id) && Knows(c, members) && c.keys != []
    requires forall x :: x in current <==> x in members
    ensures var r := OnPresence(c, list, next);
            && r.Live? && r.made == (removed != [])
            && r.client == c.(owner := Some(c.id), isOwner := true, known := current,
                              pubs := c.pubs - SetFrom(removed),
                              keys := if r.made then PushKey(c.keys, next) else c.keys)
            && Knows(r.client, members)
            && r.sent == Announcement(r.client, current, r.made, if r.made then next else c.keys[0])
  {
    hide SetOf, Ids, OwnerIdOf, Rekeys, Missing, PushKey;
    if removed == [] {
      assert SetFrom(removed) == {} && c.pubs - {} == c.pubs;
    }
  }

  function RosterOf(c: Client): map<Id, Pub> {
    map[c.id := Pub(c.id)] + c.pubs
  }

  /** The frames of an owner that has just drawn key `k`, or keeps it. */
  function Announcement(c: Client, ids: seq<Id>, made: bool, k: Key): seq<Up> {
    (if made then Rekeys(c, ids, {c.id}, k) else []) + [UpRoster(SealedRoster(k, RosterOf(c)))]
  }

  lemma SentSettles(d: Client, x: Id, k: Key, c: Client, ids: seq<Id>, made: bool, k': Key, members: set<Id>)
    requires Ready(d, x, k, c.id) && Knows(c, members) && x in members && x in ids && (!made ==> k' == k)
    ensures var d' := Drain(d, Route(Announcement(c, ids, made, k'), x, c.id, None));
            Ready(d', x, k', c.id) && Knows(d', members)
  {
    var rekeys := if made then Rekeys(c, ids, {c.id}, k') else [];
    var roster := [UpRoster(SealedRoster(k', RosterOf(c)))];
    RouteSplits(rekeys, roster, x, c.id, None);
    var ms := Route(rekeys, x, c.id, None);
    assert roster[1..] == [];
    assert Route(roster, x, c.id, None) == [Roster(SealedRoster(k', RosterOf(c)))];
    assert Route(rekeys + roster, x, c.id, None) == ms + [Roster(SealedRoster(k', RosterOf(c)))];
    if made {
      RekeysRoute(c, ids, {c.id}, k', x, c.id, None);
    }
    FramesSettle(d, ms, x, k, k', c.id, RosterOf(c), members);
  }

  lemma AnnouncementSettles(n: Net, n': Net, x: Id, k: Key, c: Client, ids: seq<Id>, made: bool, k': Key)
    requires x in n.clients && x in n'.clients && n'.clients[x] == n.clients[x] && WillBe(n, x, k, false, None)
    requires n'.room == n.room && Q(n'.down, x) == Q(n.down, x) && x in n.room.members && x in ids
    requires Q(n'.up, n.room.owner) == Q(n.up, n.room.owner) + Announcement(c, ids, made, k')
    requires c.id == n.room.owner && Knows(c, n.room.members) && (!made ==> k' == k)
    ensures WillBe(n', x, k', true, None)
  {
    var w := n.room.owner;
    var sent := Announcement(c, ids, made, k');
    DueGrows(n, n', x, sent, None);
    DrainSplits(n.clients[x], Due(n, x, None), Route(sent, x, w, None));
    SentSettles(Drain(n.clients[x], Due(n, x, None)), x, k, c, ids, made, k', n.room.members);
  }

  /** The owner has sent more. */
  lemma DueGrows(n: Net, n': Net, x: Id, sent: seq<Up>, j: Option<Id>)
    requires n'.room.owner == n.room.owner && Q(n'.down, x) == Q(n.down, x)
    requires Q(n'.up, n.room.owner) == Q(n.up, n.room.owner) + sent
    ensures Due(n', x, j) == Due(n, x, j) + Route(sent, x, n.room.owner, j)
  {
    RouteSplits(Q(n.up, n.room.owner), sent, x, n.room.owner, j);
  }

  lemma AwaitOwnerStep(n: Net, k: Key)
    requires Await(n, k)
    ensures exists k' :: Settling(DeliverStep(n, n.room.owner), k')
  {
    var w := n.room.owner;
    var list :| Q(n.down, w) == [Presence(list)] && Lists(list, n.room);
    var r := OnPresence(n.clients[w], list, n.h.nextKey);
    TakeOver(n.clients[w], list, n.h.nextKey, n.room, k);
    DeliverLive(n, w, r.client, r.sent, r.made);
    hide Handle, OnPresence, DeliverStep;
    TakeOverSettles(n, DeliverStep(n, w), list, r.client, r.made, k, if r.made then n.h.nextKey else k);
  }

  lemma TakeOverSettles(n: Net, n': Net, list: seq<MemberInfo>, c: Client, made: bool, k: Key, k': Key)
    requires Await(n, k) && Lists(list, n.room) && (!made ==> k' == k)
    requires Delivered(n, n', n.room.owner, c, Announcement(c, SetOf(Ids(list)), made, k'))
    requires OwnerReady(c, n.room.owner, k', n.room.members) && c.handshakes == []
    ensures Settling(n', k')
  {
    var ids := SetOf(Ids(list));
    ListOwner(list, n.room);
    hide SetOf, Ids, Rekeys, OwnerIdOf, Lists;
    OthersSettle(n, n', ids, c, made, k, k');
    TakeOverAnnounces(n, n', ids, c, made, k');
    hide Announcement, OwnerWaits, Ready, OthersWillBe, Route, Drain;
  }

  lemma OthersSettle(n: Net, n': Net, ids: seq<Id>, c: Client, made: bool, k: Key, k': Key)
    requires n.room.members <= n.clients.Keys && OthersWillBe(n, k, false, None) && (!made ==> k' == k)
    requires Delivered(n, n', n.room.owner, c, Announcement(c, ids, made, k'))
    requires c.id == n.room.owner && Knows(c, n.room.members) && forall x :: x in ids <==> x in n.room.members
    ensures OthersWillBe(n', k', true, None)
  {
    hide Announcement, Knows, Ready;
    forall x <- n.room.members | x != n.room.owner ensures WillBe(n', x, k', true, None) {
      assert WillBe(n, x, k, false, None);
      AnnouncementSettles(n, n', x, k, c, ids, made, k');
    }
  }

  lemma TakeOverAnnounces(n: Net, n': Net, ids: seq<Id>, c: Client, made: bool, k: Key)
    requires n'.room == n.room && c.id == n.room.owner && Announces(Q(n.up, n.room.owner), n)
    requires Q(n'.up, n.room.owner) == Q(n.up, n.room.owner) + Announcement(c, ids, made, k)
    requires forall i <- ids :: i in n.room.members
    ensures Announces(Q(n'.up, n.room.owner), n')
  {
    RekeysTargets(c, ids, {c.id}, k);
  }

  lemma {:induction false} RekeysTargets(c: Client, ids: seq<Id>, skip: set<Id>, k: Key)
    ensures forall u <- Rekeys(c, ids, skip, k) :: u.UpRekey? && u.target in ids && u.target !in skip
  {
    if ids != [] {
      RekeysTargets(c, ids[..|ids| - 1], skip, k);
      assert forall i <- ids[..|ids| - 1] :: i in ids;
    }
  }

  lemma AwaitStep(n: Net, s: Step, k: Key)
    requires Await(n, k) && Serial(n, s) && (s.Serve? || s.Deliver?) && s != Deliver(n.room.owner)
    ensures Await(Apply(n, s), k)
  {
    var n' := Apply(n, s);
    if s.Serve? {
      ServeForwards(n, s.list);
      AwaitForwards(n, n', k);
    } else if s.to in n.room.members {
      assert WillBe(n, s.to, k, false, None);
      DeliverAbsorbs(n, s.to);
      AwaitAbsorbs(n, n', s.to, k);
    } else {
      DeliverDismisses(n, s.to);
      AwaitDismisses(n, n', s.to, k);
    }
    hide OwnerWaits, ServeStep, DeliverStep, Announces, Lists;
  }

  lemma AwaitForwards(n: Net, n': Net, k: Key)
    requires Await(n, k) && Forwarded(n, n', None)
    ensures Await(n', k)
  {
    ForwardedOthers(n, n', k, false);
    hide OwnerWaits, Drain, Route, Ready, Knows;
  }

  lemma AwaitAbsorbs(n: Net, n': Net, x: Id, k: Key)
    requires Await(n, k) && Absorbed(n, n', x) && x in n.room.members && x != n.room.owner
    ensures Await(n', k)
  {
    AbsorbedOthers(n, n', x, k, false);
    hide OwnerWaits, Drain, Route, Ready, Knows;
  }

  lemma AwaitDismisses(n: Net, n': Net, x: Id, k: Key)
    requires Await(n, k) && Dismissed(n, n', x) && x !in n.room.members
    ensures Await(n', k)
  {
    DismissedOthers(n, n', x, k, false);
    hide OwnerWaits, Drain, Route, Ready, Knows;
  }

  // ----- departures and transfers

  ghost predicate Gone(n: Net, j: Option<Id>) {
    forall x :: x !in n.room.members && Some(x) != j ==> Q(n.down, x) == [] && x !in n.clients
  }

  /** Everybody but `out` is settled and has nothing more to handle. */
  ghost predicate AtRest(n: Net, k: Key, out: set<Id>) {
    var w := n.room.owner;
    && n.room.open && w in n.room.members && n.clients.Keys == n.room.members - out
    && n.joining == map[] && NoAgenda(n) && (forall x :: Q(n.down, x) == [])
    && (w !in out ==> OwnerReady(n.clients[w], w, k, n.room.members) && n.clients[w].handshakes == [])
    && forall x <- n.room.members - out :: x != w ==>
         Ready(n.clients[x], x, k, w) && Knows(n.clients[x], n.room.members)
  }

  /** `x` has asked for a change, and nothing else is under way. */
  ghost predicate Asked(n: Net, k: Key, x: Id, u: Up) {
    && AtRest(n, k, if u.UpLeave? then {x} else {}) && x in n.room.members
    && UpOnlyFrom(n, x) && Q(n.up, x) == [u]
    && (u.UpLeave? || (x == n.room.owner && (u.UpTransfer? || u.UpKick?)))
  }

  /** Ownership has moved; the presence that says so is still to be sent. */
  ghost predicate Handover(n: Net, k: Key, x: Id) {
    var w := n.room.owner;
    && n.room.open && w in n.room.members && n.clients.Keys == n.room.members && n.joining == map[]
    && (forall y :: Q(n.down, y) == [] && Q(n.up, y) == [])
    && Q(n.agenda, x) == [SendPresence] && (forall y :: y != x ==> Q(n.agenda, y) == [])
    && OwnerWaits(n.clients[w], w, k, n.room.members)
    && forall y <- n.room.members :: y != w ==>
         var c := n.clients[y];
         && c.id == y && c.inRoom && c.handshakes == [] && c.keys != [] && c.keys[0] == k
         && w in c.pubs && True(c.pubs)
  }

  lemma QuietIsAtRest(n: Net, k: Key)
    requires Quiet(n) && Settling(n, k)
    ensures AtRest(n, k, {})
  {
    forall x <- n.room.members | x != n.room.owner ensures Ready(n.clients[x], x, k, n.room.owner) && Knows(n.clients[x], n.room.members) {
      assert WillBe(n, x, k, true, None);
      assert Due(n, x, None) == [];
    }
  }

  lemma AtRestSettles(n: Net, k: Key)
    requires AtRest(n, k, {}) && forall x :: Q(n.up, x) == []
    ensures Settling(n, k)
  {
    forall x <- n.room.members | x != n.room.owner ensures WillBe(n, x, k, true, None) {
      assert Due(n, x, None) == [];
    }
  }

  lemma OwnerAsks(n: Net, k: Key, who: Id, u: Up)
    requires Quiet(n) && AtRest(n, k, {}) && who in n.clients && n.clients[who].isOwner && (u.UpTransfer? || u.UpKick?)
    ensures Asked(n.(up := Append(n.up, who, [u])), k, who, u)
  {
  }

  lemma MemberLeaves(n: Net, k: Key, who: Id)
    requires Quiet(n) && AtRest(n, k, {}) && who in n.clients
    ensures Asked(n.(clients := n.clients - {who}, up := Append(n.up, who, [UpLeave])), k, who, UpLeave)
  {
  }

  lemma AskStep(n: Net, s: Step, k: Key)
    requires Quiet(n) && Settling(n, k) && Serial(n, s) && (s.AskTransfer? || s.AskKick? || s.AskLeave?)
    ensures exists x, u :: Asked(Apply(n, s), k, x, u)
  {
    QuietIsAtRest(n, k);
    if s.AskTransfer? {
      OwnerAsks(n, k, s.who, UpTransfer(s.target));
      assert Asked(Apply(n, s), k, s.who, UpTransfer(s.target));
    } else if s.AskKick? {
      OwnerAsks(n, k, s.who, UpKick(s.target));
      assert Asked(Apply(n, s), k, s.who, UpKick(s.target));
    } else {
      MemberLeaves(n, k, s.who);
      assert Asked(Apply(n, s), k, s.who, UpLeave);
    }
  }

  /** `gone` left an open room at rest and the presence has been broadcast. */
  lemma DepartureAwaits(n: Net, n': Net, k: Key, gone: Id, list: seq<MemberInfo>)
    requires AtRest(n, k, {}) || AtRest(n, k, {gone})
    requires gone in n.room.members && gone != n.room.owner
    requires n'.room == n.room.(members := n.room.members - {gone}) && Lists(list, n'.room)
    requires n'.clients == n.clients && n'.joining == map[] && NoAgenda(n') && forall x :: Q(n'.up, x) == []
    requires forall x :: x != gone ==> Q(n'.down, x) == if x in n'.room.members then [Presence(list)] else []
    requires if gone in n.clients then Q(n'.down, gone) == [RoomClosed] else Q(n'.down, gone) == []
    ensures Await(n', k)
  {
    var w := n.room.owner;
    ListOwner(list, n'.room);
    assert n'.room.members <= n.room.members;
    forall x <- n'.room.members | x != w ensures WillBe(n', x, k, false, None) {
      var c := n.clients[x];
      assert Due(n', x, None) == [Presence(list)];
      assert Drain(c, [Presence(list)]) == Drain(Absorb(c, Presence(list)), []);
    }
  }

  lemma ServeTransfer(n: Net, k: Key, x: Id, t: Id, n1: Net, list: seq<MemberInfo>)
    requires Asked(n, k, x, UpTransfer(t)) && n1 == n.(up := n1.up) && forall y :: Q(n1.up, y) == []
    ensures var n' := Process(n1, x, UpTransfer(t), list, {}); Settling(n', k) || Handover(n', k, x)
  {
    if t in n.room.members {
      var n' := Process(n1, x, UpTransfer(t), list, {});
      assert forall y :: y != x ==> Q(n'.agenda, y) == Q(n.agenda, y);
      assert Q(n.agenda, x) == [];
      assert Handover(n', k, x);
    } else {
      AtRestSettles(n1, k);
    }
  }

  lemma ServeKick(n: Net, k: Key, x: Id, t: Id, n1: Net, list: seq<MemberInfo>)
    requires Asked(n, k, x, UpKick(t)) && n1 == n.(up := n1.up) && forall y :: Q(n1.up, y) == []
    requires Lists(list, Process(n1, x, UpKick(t), list, {}).room)
    ensures var n' := Process(n1, x, UpKick(t), list, {}); Settling(n', k) || Await(n', k)
  {
    if t in n.room.members && t != n.room.owner {
      DepartureAwaits(n, Process(n1, x, UpKick(t), list, {}), k, t, list);
    } else {
      AtRestSettles(n1, k);
    }
  }

  lemma ServeLeave(n: Net, k: Key, x: Id, n1: Net, list: seq<MemberInfo>)
    requires Asked(n, k, x, UpLeave) && n1 == n.(up := n1.up) && forall y :: Q(n1.up, y) == []
    requires Lists(list, Process(n1, x, UpLeave, list, {}).room)
    ensures var n' := Process(n1, x, UpLeave, list, {}); !n'.room.open || Await(n', k)
  {
    if x != n.room.owner {
      DepartureAwaits(n, Process(n1, x, UpLeave, list, {}), k, x, list);
    }
  }

  lemma AskedStep(n: Net, s: Step, k: Key, x: Id, u: Up)
    requires Asked(n, k, x, u) && Serial(n, s) && (s.Serve? || s.Deliver?)
    ensures var n' := Apply(n, s);
            !n'.room.open || Settling(n', k) || Await(n', k) || Handover(n', k, x)
  {
    hide Process;
    assert s.conn == x;
    var n1 := n.(up := n.up[x := n.up[x][1..]]);
    assert Apply(n, s) == Process(n1, x, u, s.list, {});
    assert forall y :: y != x ==> Q(n1.up, y) == Q(n.up, y);
    if u.UpTransfer? {
      ServeTransfer(n, k, x, u.target, n1, s.list);
    } else if u.UpKick? {
      ServeKick(n, k, x, u.target, n1, s.list);
    } else {
      ServeLeave(n, k, x, n1, s.list);
    }
  }

  lemma HandoverStep(n: Net, s: Step, k: Key, x: Id)
    requires Handover(n, k, x) && Serial(n, s) && (s.Serve? || s.Deliver?)
    ensures Await(Apply(n, s), k)
  {
    hide Process;
    assert s.conn == x;
    var n' := n.(agenda := n.agenda[x := n.agenda[x][1..]], down := Send(n.down, n.room.members, {}, Presence(s.list)));
    assert Apply(n, s) == n';
    assert forall y :: y != x ==> Q(n'.agenda, y) == Q(n.agenda, y);
    PresenceSent(n, n', k, x, s.list);
  }

  lemma PresenceSent(n: Net, n': Net, k: Key, x: Id, list: seq<MemberInfo>)
    requires Handover(n, k, x) && Lists(list, n.room) && n'.room == n.room && n'.clients == n.clients
    requires n'.joining == map[] && n'.up == n.up && NoAgenda(n')
    requires forall y :: Q(n'.down, y) == if y in n.room.members then [Presence(list)] else []
    ensures Await(n', k)
  {
    var w := n.room.owner;
    ListOwner(list, n.room);
    forall y <- n.room.members | y != w ensures WillBe(n', y, k, false, None) {
      var c := n.clients[y];
      assert Due(n', y, None) == [Presence(list)];
      assert Drain(c, [Presence(list)]) == Drain(Absorb(c, Presence(list)), []);
    }
  }

  // ----- joins

  function JoinEntry(hs: HsId, j: Option<Id>, ke: Ke): HsEntry {
    HsEntry(hs, j, Some(ke), None)
  }

  function JoinerAt(j: Id, hs: HsId, ke: Ke, pub: Option<Pub>): Client {
    NewClient(j).(handshakes := [JoinEntry(hs, None, ke)], firstOwnerPub := pub)
  }

  function Admitted(j: Id, w: Id, k: Key): Client {
    NewClient(j).(keys := [k], firstOwnerPub := Some(Pub(w)))
  }

  /** A join is under way and `j` is not a member yet. */
  ghost predicate Joining(n: Net, j: Id, hs: HsId) {
    var w := n.room.owner;
    && n.room.open && w in n.room.members && n.clients.Keys == n.room.members + {j} && j !in n.room.members
    && |n.room.members| < n.maxSize && n.joining == map[j := hs]
    && hs in n.handshakes && n.handshakes[hs] == Handshake(j, w)
    && NoAgenda(n) && Gone(n, Some(j)) && forall y :: y != w && y != j ==> Q(n.up, y) == []
  }

  /** What the owner's public key does on its way to the joiner. */
  ghost predicate KeyOfOwnerOnItsWay(n: Net, j: Id, hs: HsId, ke: Ke)
    requires j in n.clients
  {
    var w := n.room.owner;
    var m := SealedPub(ke, Pub(w));
    || (n.clients[j] == JoinerAt(j, hs, ke, None) && Q(n.down, j) == [] && Q(n.up, w) == [UpMemberKey(hs, m)])
    || (n.clients[j] == JoinerAt(j, hs, ke, None) && Q(n.down, j) == [MemberKey(hs, m)] && Q(n.up, w) == [])
    || (n.clients[j] == JoinerAt(j, hs, ke, Some(Pub(w))) && Q(n.down, j) == [] && Q(n.up, w) == [])
  }

  /** First half of a join: the owner has not yet rotated. */
  ghost predicate JoinA(n: Net, k: Key, j: Id, hs: HsId, ke: Ke) {
    var w := n.room.owner;
    var m := SealedPub(ke, Pub(j));
    && Joining(n, j, hs)
    && OwnerReady(n.clients[w], w, k, n.room.members) && n.clients[w].handshakes == [JoinEntry(hs, Some(j), ke)]
    && (forall y <- n.room.members :: y != w ==>
          Q(n.down, y) == [] && Ready(n.clients[y], y, k, w) && Knows(n.clients[y], n.room.members))
    && ((Q(n.up, j) == [UpMemberKey(hs, m)] && Q(n.down, w) == []) || (Q(n.up, j) == [] && Q(n.down, w) == [MemberKey(hs, m)]))
    && KeyOfOwnerOnItsWay(n, j, hs, ke)
  }

  /** A member that follows the owner now and will hold key `k`. */
  ghost predicate Follower(n: Net, y: Id, k: Key)
    requires y in n.clients
  {
    var d := Drain(n.clients[y], Q(n.down, y));
    WillBe(n, y, k, false, None) && d.owner == Some(n.room.owner) && !d.isOwner
  }

  ghost predicate Followers(n: Net, k: Key, j: Id)
    requires n.room.members <= n.clients.Keys
  {
    forall y <- n.room.members :: y != n.room.owner && y != j ==> Follower(n, y, k)
  }

  /** The joiner will end up holding exactly key `k` and ask to enter. */
  ghost predicate JoinerB(n: Net, k: Key, j: Id, hs: HsId, ke: Ke)
    requires j in n.clients
  {
    var w := n.room.owner;
    var due := Due(n, j, Some(j));
    var mk := MemberKey(hs, SealedPub(ke, Pub(w)));
    var kd := KeyDeliver(hs, SealKey(w, Pub(j), k));
    || (due == [mk, kd] && n.clients[j] == JoinerAt(j, hs, ke, None) && Q(n.up, j) == [])
    || (due == [kd] && n.clients[j] == JoinerAt(j, hs, ke, Some(Pub(w))) && Q(n.up, j) == [])
    || (due == [] && n.clients[j] == Admitted(j, w, k) && Q(n.up, j) == [UpEnter(hs)])
  }

  ghost predicate JoinFrames(us: seq<Up>, n: Net, j: Id, hs: HsId) {
    forall u <- us ::
      || (u.UpMemberKey? && u.hs == hs)
      || (u.UpKeyDeliver? && u.hs == hs)
      || (u.UpRekey? && u.target in n.room.members && u.target != n.room.owner && u.target != j)
  }

  /** Second half of a join: the owner has rotated, the joiner has not entered. */
  ghost predicate JoinB(n: Net, k: Key, j: Id, hs: HsId, ke: Ke) {
    var w := n.room.owner;
    && Joining(n, j, hs) && Q(n.down, w) == [] && JoinFrames(Q(n.up, w), n, j, hs)
    && OwnerReady(n.clients[w], w, k, n.room.members + {j}) && n.clients[w].handshakes == []
    && Followers(n, k, j) && JoinerB(n, k, j, hs, ke)
  }

  ghost predicate RekeysOnly(us: seq<Up>, n: Net, j: Id) {
    forall u <- us :: u.UpRekey? && u.target in n.room.members && u.target != n.room.owner && u.target != j
  }

  /** The joiner is a member; its welcome, then the presence, are still to be sent. */
  ghost predicate JoinC(n: Net, k: Key, j: Id, welcomed: bool) {
    var w := n.room.owner;
    && n.room.open && w in n.room.members && j in n.room.members && j != w && n.clients.Keys == n.room.members
    && n.joining == map[] && Gone(n, None) && UpOnlyFrom(n, w) && RekeysOnly(Q(n.up, w), n, j) && Q(n.down, w) == []
    && Q(n.agenda, j) == (if welcomed then [SendPresence] else [SendWelcome, SendPresence])
    && (forall y :: y != j ==> Q(n.agenda, y) == [])
    && OwnerWaits(n.clients[w], w, k, n.room.members)
    && Followers(n, k, j)
    && if welcomed then Follower(n, j, k)
       else n.clients[j] == Admitted(j, w, k) && Q(n.down, j) == []
  }

  /** The relay has moved frame `m`, the next one of `from`, to the queue of `to`. */
  ghost predicate Moved(n: Net, n': Net, from: Id, to: Id, m: Down) {
    && n'.room == n.room && n'.clients == n.clients && n'.joining == n.joining && n'.h == n.h && n'.maxSize == n.maxSize
    && n'.handshakes == n.handshakes && n'.agenda == n.agenda
    && Q(n.up, from) != [] && Q(n'.up, from) == Q(n.up, from)[1..]
    && (forall y :: y != from ==> Q(n'.up, y) == Q(n.up, y))
    && Q(n'.down, to) == Q(n.down, to) + [m] && (forall y :: y != to ==> Q(n'.down, y) == Q(n.down, y))
  }

  lemma ShakeStarts(n: Net, o: Id, j: Id, hs: HsId, ke: Ke, k: Key)
    requires Quiet(n) && AtRest(n, k, {}) && Enabled(n, Shake(o, j, hs, ke)) && n.clients.Keys <= n.h.ids
    requires o == n.room.owner && |n.room.members| < n.maxSize
    ensures JoinA(ShakeStep(n, o, j, hs, ke), k, j, hs, ke)
  {
    var n' := ShakeStep(n, o, j, hs, ke);
    assert j !in n.clients;
    assert forall y :: Q(n'.up, y) == if y == j then [UpMemberKey(hs, SealedPub(ke, Pub(j)))]
                                      else if y == o then [UpMemberKey(hs, SealedPub(ke, Pub(o)))] else [];
    assert n.clients[o].handshakes == [];
    assert n'.clients[o] == n.clients[o].(handshakes := [JoinEntry(hs, Some(j), ke)]);
    hide ShakeStep;
    ShakenJoins(n, n', j, hs, ke, k);
  }

  lemma ShakenJoins(n: Net, n': Net, j: Id, hs: HsId, ke: Ke, k: Key)
    requires AtRest(n, k, {}) && j !in n.clients && |n.room.members| < n.maxSize
    requires var o := n.room.owner;
             && n'.room == n.room && n'.maxSize == n.maxSize && n'.down == n.down && n'.agenda == n.agenda
             && n'.clients == n.clients[o := n.clients[o].(handshakes := [JoinEntry(hs, Some(j), ke)])][j := JoinerAt(j, hs, ke, None)]
             && (forall y :: Q(n'.up, y) == if y == j then [UpMemberKey(hs, SealedPub(ke, Pub(j)))]
                                            else if y == o then [UpMemberKey(hs, SealedPub(ke, Pub(o)))] else [])
             && n'.joining == map[j := hs] && hs in n'.handshakes && n'.handshakes[hs] == Handshake(j, o)
    ensures JoinA(n', k, j, hs, ke)
  {
  }

  // First half.

  lemma HandshakeMoves(n: Net, from: Id, list: seq<MemberInfo>, j: Id, hs: HsId, pub: SealedPub)
    requires Joining(n, j, hs) && (from == j || from == n.room.owner) && Q(n.up, from) != [] && Q(n.up, from)[0] == UpMemberKey(hs, pub)
    ensures Moved(n, ServeStep(n, from, list, {}), from, if from == j then n.room.owner else j, MemberKey(hs, pub))
  {
    assert Q(n.agenda, from) == [];
  }

  lemma JoinAServe(n: Net, n': Net, from: Id, k: Key, j: Id, hs: HsId, ke: Ke)
    requires JoinA(n, k, j, hs, ke) && (from == j || from == n.room.owner) && Q(n.up, from) != []
    requires Moved(n, n', from, if from == j then n.room.owner else j, MemberKey(hs, SealedPub(ke, Pub(from))))
    ensures JoinA(n', k, j, hs, ke)
  {
  }

  lemma JoinAJoiner(n: Net, k: Key, j: Id, hs: HsId, ke: Ke)
    requires JoinA(n, k, j, hs, ke) && Q(n.down, j) != []
    ensures JoinA(DeliverStep(n, j), k, j, hs, ke)
  {
    var c' := JoinerAt(j, hs, ke, Some(Pub(n.room.owner)));
    OwnerKeyArrives(j, hs, ke, n.room.owner, n.h.nextKey);
    hide Handle, DeliverStep;
    DeliverLive(n, j, c', [], false);
    JoinAAdvances(n, DeliverStep(n, j), k, j, hs, ke);
  }

  lemma OwnerKeyArrives(j: Id, hs: HsId, ke: Ke, w: Id, next: Key)
    ensures Handle(JoinerAt(j, hs, ke, None), MemberKey(hs, SealedPub(ke, Pub(w))), next)
         == Live(JoinerAt(j, hs, ke, Some(Pub(w))), [], false)
  {
    var c := JoinerAt(j, hs, ke, None);
    assert GetHs(c.handshakes, hs) == Some(c.handshakes[0]);
  }

  lemma JoinAAdvances(n: Net, n': Net, k: Key, j: Id, hs: HsId, ke: Ke)
    requires JoinA(n, k, j, hs, ke) && Q(n.down, j) != []
    requires Delivered(n, n', j, JoinerAt(j, hs, ke, Some(Pub(n.room.owner))), [])
    ensures JoinA(n', k, j, hs, ke)
  {
  }

  lemma {:induction false} RouteNone(us: seq<Up>, x: Id, w: Id, j: Option<Id>)
    requires forall u <- us :: u.UpRekey? && u.target != x
    ensures Route(us, x, w, j) == []
  {
    if us != [] {
      assert us[0] in us && forall u <- us[1..] :: u in us;
      RouteNone(us[1..], x, w, j);
    }
  }

  /** The owner as it is when it sends the rekeys of a join. */
  function Rotated(c: Client, j: Id, next: Key): Client {
    c.(pubs := c.pubs[j := Pub(j)], keys := PushKey(c.keys, next))
  }

  function JoinAnnouncement(c: Client, j: Id, hs: HsId, next: Key): seq<Up> {
    [UpKeyDeliver(hs, SealKey(c.id, Pub(j), next))] + Rekeys(Rotated(c, j, next), c.known, {c.id, j}, next)
  }

  /** The rotation for a join, as the owner performs it. */
  lemma OwnerRotates(c: Client, w: Id, k: Key, members: set<Id>, j: Id, hs: HsId, ke: Ke, next: Key)
    requires OwnerReady(c, w, k, members) && c.handshakes == [JoinEntry(hs, Some(j), ke)] && j !in members && j != w
    ensures var r := OnMemberKey(c, hs, SealedPub(ke, Pub(j)), next);
            && r.Live? && r.made && r.client.handshakes == [] && OwnerReady(r.client, w, next, members + {j})
            && Knows(Rotated(c, j, next), members)
            && r.sent == JoinAnnouncement(c, j, hs, next)
  {
    var e := c.handshakes[0];
    assert GetHs(c.handshakes, hs) == Some(e) && FindJoiner(c.handshakes, j) == Some(hs) && DeleteHs(c.handshakes, hs) == [];
    var r := OnMemberKey(c, hs, SealedPub(ke, Pub(j)), next);
    assert SetFrom(r.client.known) == members + {j};
  }

  lemma JoinRouted(us: seq<Up>, hs: HsId, c: Client, j: Id, next: Key, x: Id)
    requires forall u <- us :: u.UpMemberKey? && |us| == 1
    requires x != j && x != c.id && x in c.known && x in c.pubs
    ensures var r := Route(us + JoinAnnouncement(c, j, hs, next), x, c.id, None);
            r != [] && forall m <- r :: m == Rekey(SealKey(c.id, c.pubs[x], next))
  {
    var kd := [UpKeyDeliver(hs, SealKey(c.id, Pub(j), next))];
    var rekeys := Rekeys(Rotated(c, j, next), c.known, {c.id, j}, next);
    RouteSplits(us, kd + rekeys, x, c.id, None);
    RouteSplits(kd, rekeys, x, c.id, None);
    RekeysRoute(Rotated(c, j, next), c.known, {c.id, j}, next, x, c.id, None);
    if us != [] {
      assert us[0] in us && us[1..] == [];
    }
    assert Route(us, x, c.id, None) == [];
    assert kd[1..] == [];
    assert Route(kd, x, c.id, None) == [];
  }

  lemma JoinerRouted(c: Client, j: Id, hs: HsId, next: Key)
    ensures Route(JoinAnnouncement(c, j, hs, next), j, c.id, Some(j)) == [KeyDeliver(hs, SealKey(c.id, Pub(j), next))]
    ensures forall u <- JoinAnnouncement(c, j, hs, next) ::
              (u.UpKeyDeliver? && u.hs == hs) || (u.UpRekey? && u.target in c.known && u.target != c.id && u.target != j)
  {
    var kd := [UpKeyDeliver(hs, SealKey(c.id, Pub(j), next))];
    var rekeys := Rekeys(Rotated(c, j, next), c.known, {c.id, j}, next);
    RouteSplits(kd, rekeys, j, c.id, Some(j));
    RekeysTargets(Rotated(c, j, next), c.known, {c.id, j}, next);
    RouteNone(rekeys, j, c.id, Some(j));
    assert kd[1..] == [];
  }

  lemma JoinAOwner(n: Net, k: Key, j: Id, hs: HsId, ke: Ke)
    requires JoinA(n, k, j, hs, ke) && Q(n.down, n.room.owner) != []
    ensures JoinB(DeliverStep(n, n.room.owner), n.h.nextKey, j, hs, ke)
  {
    var w := n.room.owner;
    var c := n.clients[w];
    OwnerRotates(c, w, k, n.room.members, j, hs, ke, n.h.nextKey);
    var r := OnMemberKey(c, hs, SealedPub(ke, Pub(j)), n.h.nextKey);
    assert Handle(c, Q(n.down, w)[0], n.h.nextKey) == r;
    hide Handle, OnMemberKey, DeliverStep;
    DeliverLive(n, w, r.client, r.sent, r.made);
    RotationStartsB(n, DeliverStep(n, w), k, j, hs, ke, r.client, n.h.nextKey);
  }

  lemma RotationStartsB(n: Net, n': Net, k: Key, j: Id, hs: HsId, ke: Ke, c': Client, next: Key)
    requires JoinA(n, k, j, hs, ke) && Q(n.down, n.room.owner) != []
    requires Delivered(n, n', n.room.owner, c', JoinAnnouncement(n.clients[n.room.owner], j, hs, next))
    requires OwnerReady(c', n.room.owner, next, n.room.members + {j}) && c'.handshakes == []
    ensures JoinB(n', next, j, hs, ke)
  {
    RotationFrames(n, n', k, j, hs, ke, c', next);
    JoinerStartsB(n, n', n.clients[n.room.owner], j, hs, ke, next);
    MembersReached(n, n', k, j, hs, ke, next);
    hide Follower, JoinerB, Joining, JoinFrames, OwnerReady, KeyOfOwnerOnItsWay, Ready, Knows;
  }

  lemma RotationFrames(n: Net, n': Net, k: Key, j: Id, hs: HsId, ke: Ke, c': Client, next: Key)
    requires JoinA(n, k, j, hs, ke) && Q(n.down, n.room.owner) != []
    requires Delivered(n, n', n.room.owner, c', JoinAnnouncement(n.clients[n.room.owner], j, hs, next))
    ensures Joining(n', j, hs) && Q(n'.down, n.room.owner) == [] && JoinFrames(Q(n'.up, n.room.owner), n', j, hs)
  {
    JoinerRouted(n.clients[n.room.owner], j, hs, next);
  }

  lemma MembersReached(n: Net, n': Net, k: Key, j: Id, hs: HsId, ke: Ke, next: Key)
    requires JoinA(n, k, j, hs, ke) && n'.room == n.room && n'.clients.Keys == n.clients.Keys
    requires forall y <- n.room.members :: y != n.room.owner ==> n'.clients[y] == n.clients[y] && Q(n'.down, y) == Q(n.down, y)
    requires Q(n'.up, n.room.owner) == Q(n.up, n.room.owner) + JoinAnnouncement(n.clients[n.room.owner], j, hs, next)
    ensures Followers(n', next, j)
  {
    forall y <- n.room.members | y != n.room.owner ensures Follower(n', y, next) {
      RotationReaches(n, n', k, y, n.clients[n.room.owner], j, hs, next);
    }
  }

  lemma JoinerStartsB(n: Net, n': Net, c: Client, j: Id, hs: HsId, ke: Ke, next: Key)
    requires j in n.clients && j in n'.clients && n'.clients[j] == n.clients[j] && c.id == n.room.owner != j
    requires KeyOfOwnerOnItsWay(n, j, hs, ke) && Q(n'.up, j) == []
    requires n'.room == n.room && Q(n'.down, j) == Q(n.down, j)
    requires Q(n'.up, c.id) == Q(n.up, c.id) + JoinAnnouncement(c, j, hs, next)
    ensures JoinerB(n', next, j, hs, ke)
  {
    JoinerRouted(c, j, hs, next);
    DueGrows(n, n', j, JoinAnnouncement(c, j, hs, next), Some(j));
    if Q(n.up, c.id) != [] {
      assert Q(n.up, c.id)[1..] == [] && Route(Q(n.up, c.id), j, c.id, Some(j)) == [MemberKey(hs, SealedPub(ke, Pub(c.id)))];
    }
  }

  lemma RotationReaches(n: Net, n': Net, k: Key, y: Id, c: Client, j: Id, hs: HsId, next: Key)
    requires var w := n.room.owner;
             && y in n.room.members && y != w && y in n'.clients && n'.room.owner == w && c.id == w && y != j
             && Ready(n'.clients[y], y, k, w) && Q(n'.down, y) == [] && y in c.known && y in c.pubs && c.pubs[y] == Pub(y)
             && (forall u <- Q(n.up, w) :: u.UpMemberKey? && |Q(n.up, w)| == 1)
             && Q(n'.up, w) == Q(n.up, w) + JoinAnnouncement(c, j, hs, next)
    ensures Follower(n', y, next)
  {
    var w := n.room.owner;
    JoinRouted(Q(n.up, w), hs, c, j, next, y);
    var ms := Route(Q(n'.up, w), y, w, None);
    assert Due(n', y, None) == ms;
    DrainRekeys(n'.clients[y], ms, y, k, next, w);
  }

  // Second half.

  /** What the relay makes of a join frame: who gets it, and as what. */
  function JoinTarget(u: Up, j: Id): Id {
    if u.UpRekey? then u.target else j
  }

  function JoinFrame(u: Up, hs: HsId): Down
    requires u.UpRekey? || u.UpMemberKey? || u.UpKeyDeliver?
  {
    match u
    case UpRekey(_, sealed) => Rekey(sealed)
    case UpMemberKey(_, pub) => MemberKey(hs, pub)
    case UpKeyDeliver(_, sealed) => KeyDeliver(hs, sealed)
  }

  lemma JoinFrameIsPassedOn(n: Net, u: Up, list: seq<MemberInfo>, j: Id, hs: HsId)
    requires n.room.open && n.room.owner in n.room.members && n.room.owner !in n.joining && j != n.room.owner
    requires hs in n.handshakes && n.handshakes[hs] == Handshake(j, n.room.owner) && JoinFrames([u], n, j, hs)
    requires u.UpRekey? || u.UpMemberKey? || u.UpKeyDeliver?
    ensures Process(n, n.room.owner, u, list, {}) == n.(down := Send(n.down, {JoinTarget(u, j)}, {}, JoinFrame(u, hs)))
  {
    assert u in [u];
  }

  lemma JoinBForwards(n: Net, list: seq<MemberInfo>, j: Id, hs: HsId)
    requires Joining(n, j, hs) && JoinFrames(Q(n.up, n.room.owner), n, j, hs) && Q(n.up, n.room.owner) != []
    ensures Forwarded(n, ServeStep(n, n.room.owner, list, {}), Some(j))
  {
    hide Process;
    var w := n.room.owner;
    var u := n.up[w][0];
    assert u in Q(n.up, w) && Q(n.agenda, w) == [];
    JoinFrameIsPassedOn(n.(up := n.up[w := n.up[w][1..]]), u, list, j, hs);
    ForwardedTo(n, ServeStep(n, w, list, {}), j, JoinTarget(u, j), JoinFrame(u, hs));
  }

  lemma ForwardedTo(n: Net, n': Net, j: Id, to: Id, m: Down)
    requires Q(n.up, n.room.owner) != [] && to != n.room.owner && (to in n.room.members || to == j)
    requires n' == n.(up := n.up[n.room.owner := n.up[n.room.owner][1..]], down := Send(n.down, {to}, {}, m))
    requires forall x :: x != n.room.owner ==> RouteOne(Q(n.up, n.room.owner)[0], x, n.room.owner, Some(j)) == if x == to then [m] else []
    ensures Forwarded(n, n', Some(j))
  {
    hide RouteOne, Send;
  }

  /** Forwarding a rekey, or a frame for somebody else, leaves a follower following. */
  lemma ForwardedFollower(n: Net, n': Net, y: Id, k: Key, j: Option<Id>)
    requires Forwarded(n, n', j) && y in n.clients && y in n.room.members && y != n.room.owner && Some(y) != j
    requires !Q(n.up, n.room.owner)[0].UpRoster? && Follower(n, y, k)
    ensures Follower(n', y, k)
  {
    var one := RouteOne(Q(n.up, n.room.owner)[0], y, n.room.owner, None);
    assert RouteOne(Q(n.up, n.room.owner)[0], y, n.room.owner, j) == one;
    DueAfterServe(n, n', y, None);
    DrainSplits(n.clients[y], Q(n.down, y), one);
    AbsorbsOne(Drain(n.clients[y], Q(n.down, y)), one);
    hide Route, Drain;
  }

  lemma AbsorbsOne(c: Client, one: seq<Down>)
    requires |one| <= 1
    ensures Drain(c, one) == if one == [] then c else Absorb(c, one[0])
  {
    if one != [] {
      assert one[1..] == [];
    }
  }

  lemma SameFollower(n: Net, n': Net, y: Id, k: Key)
    requires y in n.clients && y in n'.clients && n'.clients[y] == n.clients[y] && n'.room.owner == n.room.owner
    requires Q(n'.down, y) == Q(n.down, y) && Q(n'.up, n.room.owner) == Q(n.up, n.room.owner) && Follower(n, y, k)
    ensures Follower(n', y, k)
  {
  }

  lemma AbsorbedFollower(n: Net, n': Net, x: Id, y: Id, k: Key)
    requires Absorbed(n, n', x) && x != n.room.owner && y in n.clients && Follower(n, y, k)
    ensures Follower(n', y, k)
  {
    AbsorbedWillBe(n, n', x, y, k, false, None);
    assert Q(n.down, x) == [Q(n.down, x)[0]] + Q(n'.down, x);
  }

  lemma JoinBServeOwner(n: Net, n': Net, k: Key, j: Id, hs: HsId, ke: Ke)
    requires JoinB(n, k, j, hs, ke) && Forwarded(n, n', Some(j))
    ensures JoinB(n', k, j, hs, ke)
  {
    assert Q(n.up, n.room.owner)[0] in Q(n.up, n.room.owner);
    DueAfterServe(n, n', j, Some(j));
    forall y <- n.room.members | y != n.room.owner ensures Follower(n', y, k) {
      ForwardedFollower(n, n', y, k, Some(j));
    }
  }

  lemma JoinBMember(n: Net, n': Net, x: Id, k: Key, j: Id, hs: HsId, ke: Ke)
    requires JoinB(n, k, j, hs, ke) && x in n.room.members && x != n.room.owner && Absorbed(n, n', x)
    ensures JoinB(n', k, j, hs, ke)
  {
    forall y <- n.room.members | y != n.room.owner ensures Follower(n', y, k) {
      AbsorbedFollower(n, n', x, y, k);
    }
    assert Due(n', j, Some(j)) == Due(n, j, Some(j));
  }

  /** The joiner handles the owner's public key, then the room key. */
  lemma JoinBJoiner(n: Net, k: Key, j: Id, hs: HsId, ke: Ke)
    requires JoinB(n, k, j, hs, ke) && Q(n.down, j) != []
    ensures JoinB(DeliverStep(n, j), k, j, hs, ke)
  {
    var w := n.room.owner;
    var m := Q(n.down, j)[0];
    assert Due(n, j, Some(j))[0] == m;
    var c' := if m.MemberKey? then JoinerAt(j, hs, ke, Some(Pub(w))) else Admitted(j, w, k);
    var sent := if m.MemberKey? then [] else [UpEnter(hs)];
    OwnerKeyArrives(j, hs, ke, w, n.h.nextKey);
    RoomKeyArrives(j, hs, ke, w, k, n.h.nextKey);
    hide Handle, DeliverStep;
    DeliverLive(n, j, c', sent, false);
    JoinerMovesOn(n, DeliverStep(n, j), k, j, hs, ke, c', sent);
  }

  lemma RoomKeyArrives(j: Id, hs: HsId, ke: Ke, w: Id, k: Key, next: Key)
    ensures Handle(JoinerAt(j, hs, ke, Some(Pub(w))), KeyDeliver(hs, SealKey(w, Pub(j), k)), next)
         == Live(Admitted(j, w, k), [UpEnter(hs)], false)
  {
    var c := JoinerAt(j, hs, ke, Some(Pub(w)));
    assert GetHs(c.handshakes, hs) == Some(c.handshakes[0]) && DeleteHs(c.handshakes, hs) == [];
    assert {w, j} == {j, w};
    assert PushKey([], k) == [k];
  }

  lemma JoinerAdvances(n: Net, n': Net, k: Key, j: Id, hs: HsId, ke: Ke, c': Client, sent: seq<Up>)
    requires j in n.clients && j in n'.clients && JoinerB(n, k, j, hs, ke) && Q(n.down, j) != [] && j != n.room.owner
    requires n'.room == n.room && Q(n'.up, n.room.owner) == Q(n.up, n.room.owner)
    requires Q(n'.down, j) == Q(n.down, j)[1..] && Q(n'.up, j) == Q(n.up, j) + sent && n'.clients[j] == c'
    requires var m := Q(n.down, j)[0];
             if m.MemberKey? then c' == JoinerAt(j, hs, ke, Some(Pub(n.room.owner))) && sent == []
             else c' == Admitted(j, n.room.owner, k) && sent == [UpEnter(hs)]
    ensures JoinerB(n', k, j, hs, ke)
  {
    var due := Due(n, j, Some(j));
    assert due == [Q(n.down, j)[0]] + Due(n', j, Some(j));
    assert due[0] == Q(n.down, j)[0];
    assert Due(n', j, Some(j)) == if |due| == 2 then [due[1]] else [];
  }

  lemma JoinerMovesOn(n: Net, n': Net, k: Key, j: Id, hs: HsId, ke: Ke, c': Client, sent: seq<Up>)
    requires JoinB(n, k, j, hs, ke) && Q(n.down, j) != [] && j != n.room.owner
    requires Delivered(n, n', j, c', sent)
    requires var m := Q(n.down, j)[0];
             if m.MemberKey? then c' == JoinerAt(j, hs, ke, Some(Pub(n.room.owner))) && sent == []
             else c' == Admitted(j, n.room.owner, k) && sent == [UpEnter(hs)]
    ensures JoinB(n', k, j, hs, ke)
  {
    JoinerAdvances(n, n', k, j, hs, ke, c', sent);
    forall y <- n.room.members | y != n.room.owner ensures Follower(n', y, k) {
      SameFollower(n, n', y, k);
    }
  }

  lemma {:induction false} NothingForJoiner(us: seq<Up>, n: Net, j: Id, hs: HsId, w: Id)
    requires JoinFrames(us, n, j, hs) && Route(us, j, w, Some(j)) == []
    ensures RekeysOnly(us, n, j)
  {
    if us != [] {
      assert us[0] in us && forall u <- us[1..] :: u in us;
      NothingForJoiner(us[1..], n, j, hs, w);
      assert forall u <- us :: u == us[0] || u in us[1..];
    }
  }

  lemma JoinBEnters(n: Net, list: seq<MemberInfo>, k: Key, j: Id, hs: HsId, ke: Ke)
    requires JoinB(n, k, j, hs, ke) && Q(n.up, j) != []
    ensures JoinC(ServeStep(n, j, list, {}), k, j, false)
  {
    var w := n.room.owner;
    assert Q(n.agenda, j) == [] && Q(n.up, j) == [UpEnter(hs)];
    NothingForJoiner(Q(n.up, w), n, j, hs, w);
    var n' := ServeStep(n, j, list, {});
    assert n' == n.(up := n.up[j := n.up[j][1..]], joining := n.joining - {j}, handshakes := n.handshakes - {hs},
                    room := n.room.(members := n.room.members + {j}),
                    agenda := n.agenda[j := Q(n.agenda, j) + [SendWelcome, SendPresence]]);
    assert forall y :: y != j ==> Q(n'.agenda, y) == Q(n.agenda, y) && Q(n'.up, y) == Q(n.up, y);
    EnteredC(n, n', k, j, hs, ke);
  }

  lemma EnteredC(n: Net, n': Net, k: Key, j: Id, hs: HsId, ke: Ke)
    requires JoinB(n, k, j, hs, ke) && Q(n.up, j) == [UpEnter(hs)] && RekeysOnly(Q(n.up, n.room.owner), n, j)
    requires n'.room == n.room.(members := n.room.members + {j}) && n'.joining == map[] && n'.clients == n.clients && n'.down == n.down
    requires Q(n'.up, j) == [] && forall y :: y != j ==> Q(n'.up, y) == Q(n.up, y)
    requires forall y :: Q(n'.agenda, y) == if y == j then [SendWelcome, SendPresence] else []
    ensures JoinC(n', k, j, false)
  {
    forall y <- n'.room.members | y != n.room.owner && y != j ensures Follower(n', y, k) {
      SameFollower(n, n', y, k);
    }
  }

  // The joiner is in.

  lemma JoinCWelcomes(n: Net, list: seq<MemberInfo>, k: Key, j: Id)
    requires JoinC(n, k, j, false) && Lists(list, n.room)
    ensures JoinC(ServeStep(n, j, list, {}), k, j, true)
  {
    var w := n.room.owner;
    hide Process;
    var n' := n.(agenda := n.agenda[j := n.agenda[j][1..]], down := Send(n.down, {j}, {}, Welcome(j, list)));
    assert ServeStep(n, j, list, {}) == n';
    assert forall y :: y != j ==> Q(n'.agenda, y) == Q(n.agenda, y);
    WelcomedFollows(n, n', list, k, j);
  }

  lemma WelcomedFollows(n: Net, n': Net, list: seq<MemberInfo>, k: Key, j: Id)
    requires JoinC(n, k, j, false) && Lists(list, n.room)
    requires n'.room == n.room && n'.clients == n.clients && n'.joining == n.joining && n'.up == n.up
    requires Q(n'.agenda, j) == [SendPresence] && forall y :: y != j ==> Q(n'.agenda, y) == []
    requires forall y :: Q(n'.down, y) == if y == j then [Welcome(j, list)] else Q(n.down, y)
    ensures JoinC(n', k, j, true)
  {
    var w := n.room.owner;
    ListOwner(list, n.room);
    RouteNone(Q(n.up, w), j, w, None);
    WelcomeSettles(n', list, k, j);
    forall y <- n.room.members | y != w && y != j ensures Follower(n', y, k) {
      SameFollower(n, n', y, k);
    }
  }

  lemma WelcomeSettles(n: Net, list: seq<MemberInfo>, k: Key, j: Id)
    requires j in n.clients && n.clients[j] == Admitted(j, n.room.owner, k) && j != n.room.owner
    requires Q(n.down, j) == [Welcome(j, list)] && OwnerIdOf(list) == Some(n.room.owner)
    requires Route(Q(n.up, n.room.owner), j, n.room.owner, None) == []
    ensures Follower(n, j, k)
  {
    var c := Admitted(j, n.room.owner, k);
    assert Due(n, j, None) == [Welcome(j, list)];
    assert Drain(c, [Welcome(j, list)]) == Drain(Absorb(c, Welcome(j, list)), []);
  }

  lemma JoinCAwaits(n: Net, list: seq<MemberInfo>, k: Key, j: Id)
    requires JoinC(n, k, j, true) && Lists(list, n.room)
    ensures Await(ServeStep(n, j, list, {}), k)
  {
    ShowServed(n, list, j);
    JoinPresenceSent(n, ServeStep(n, j, list, {}), list, k, j);
    hide OwnerWaits, Follower, Lists, ServeStep;
  }

  /** A joiner's connection sends the presence that its agenda ends with. */
  lemma ShowServed(n: Net, list: seq<MemberInfo>, j: Id)
    requires Q(n.agenda, j) == [SendPresence] && (forall y :: y != j ==> Q(n.agenda, y) == []) && n.room.open
    ensures
      var n' := ServeStep(n, j, list, {});
      && n'.room == n.room && n'.clients == n.clients && n'.joining == n.joining && n'.up == n.up && NoAgenda(n')
      && forall y :: Q(n'.down, y) == if y in n.room.members then Q(n.down, y) + [Presence(list)] else Q(n.down, y)
  {
    hide Process;
    var n' := n.(agenda := n.agenda[j := n.agenda[j][1..]], down := Send(n.down, n.room.members, {}, Presence(list)));
    assert ServeStep(n, j, list, {}) == n';
    forall y ensures Q(n'.agenda, y) == [] {
      assert y != j ==> Q(n.agenda, y) == [];
    }
  }

  lemma JoinPresenceSent(n: Net, n': Net, list: seq<MemberInfo>, k: Key, j: Id)
    requires JoinC(n, k, j, true) && Lists(list, n.room)
    requires n'.room == n.room && n'.clients == n.clients && n'.joining == n.joining && n'.up == n.up && NoAgenda(n')
    requires forall y :: Q(n'.down, y) == if y in n.room.members then Q(n.down, y) + [Presence(list)] else Q(n.down, y)
    ensures Await(n', k)
  {
    ListOwner(list, n.room);
    forall y <- n.room.members | y != n.room.owner ensures WillBe(n', y, k, false, None) {
      PresenceReaches(n, n', list, y, k);
    }
  }

  lemma PresenceReaches(n: Net, n': Net, list: seq<MemberInfo>, y: Id, k: Key)
    requires y in n.clients && y in n'.clients && n'.clients[y] == n.clients[y] && n'.room.owner == n.room.owner != y
    requires Follower(n, y, k) && OwnerIdOf(list) == Some(n.room.owner)
    requires Q(n'.down, y) == Q(n.down, y) + [Presence(list)] && Q(n'.up, n.room.owner) == Q(n.up, n.room.owner)
    ensures WillBe(n', y, k, false, None)
  {
    PresenceIsNeutral(n.clients[y], Q(n.down, y), list, Route(Q(n.up, n.room.owner), y, n.room.owner, None));
  }

  lemma ForwardedRekeysOnly(n: Net, n': Net, j: Id)
    requires Forwarded(n, n', None) && RekeysOnly(Q(n.up, n.room.owner), n, j)
    ensures RekeysOnly(Q(n'.up, n.room.owner), n', j) && !Q(n.up, n.room.owner)[0].UpRoster?
    ensures Q(n'.down, j) == Q(n.down, j)
  {
    assert Q(n.up, n.room.owner)[0] in Q(n.up, n.room.owner);
  }

  lemma JoinCServeOwner(n: Net, n': Net, k: Key, j: Id, welcomed: bool)
    requires JoinC(n, k, j, welcomed) && Forwarded(n, n', None)
    ensures JoinC(n', k, j, welcomed)
  {
    assert Q(n.up, n.room.owner)[0] in Q(n.up, n.room.owner);
    ForwardedRekeysOnly(n, n', j);
    hide Follower, OwnerWaits, RouteOne, RekeysOnly, Admitted;
    forall y <- n.room.members | y != n.room.owner && (y != j || welcomed) ensures Follower(n', y, k) {
      ForwardedFollower(n, n', y, k, None);
    }
  }

  lemma JoinCMember(n: Net, n': Net, x: Id, k: Key, j: Id, welcomed: bool)
    requires JoinC(n, k, j, welcomed) && x in n.room.members && x != n.room.owner && Absorbed(n, n', x)
    ensures JoinC(n', k, j, welcomed)
  {
    forall y <- n.room.members | y != n.room.owner && (y != j || welcomed) ensures Follower(n', y, k) {
      AbsorbedFollower(n, n', x, y, k);
    }
  }

  // ----- whole runs

  datatype Phase =
    | Closed
    | Settled(k: Key)
    | Waiting(k: Key)
    | Asking(k: Key, x: Id, u: Up)
    | Handing(k: Key, x: Id)
    | First(k: Key, j: Id, hs: HsId, ke: Ke)
    | Second(k: Key, j: Id, hs: HsId, ke: Ke)
    | Entered(k: Key, j: Id, welcomed: bool)

  ghost predicate In(n: Net, p: Phase) {
    match p
    case Closed => !n.room.open
    case Settled(k) => Settling(n, k)
    case Waiting(k) => Await(n, k)
    case Asking(k, x, u) => Asked(n, k, x, u)
    case Handing(k, x) => Handover(n, k, x)
    case First(k, j, hs, ke) => JoinA(n, k, j, hs, ke)
    case Second(k, j, hs, ke) => JoinB(n, k, j, hs, ke)
    case Entered(k, j, welcomed) => JoinC(n, k, j, welcomed)
  }

  lemma FirstStep(n: Net, s: Step, k: Key, j: Id, hs: HsId, ke: Ke) returns (p: Phase)
    requires JoinA(n, k, j, hs, ke) && Serial(n, s) && (s.Serve? || s.Deliver?)
    ensures In(Apply(n, s), p)
  {
    p := First(k, j, hs, ke);
    if s.Serve? {
      HandshakeMoves(n, s.conn, s.list, j, hs, SealedPub(ke, Pub(s.conn)));
      JoinAServe(n, Apply(n, s), s.conn, k, j, hs, ke);
    } else if s.to == j {
      JoinAJoiner(n, k, j, hs, ke);
    } else {
      p := Second(n.h.nextKey, j, hs, ke);
      JoinAOwner(n, k, j, hs, ke);
    }
  }

  lemma SecondStep(n: Net, s: Step, k: Key, j: Id, hs: HsId, ke: Ke) returns (p: Phase)
    requires JoinB(n, k, j, hs, ke) && Serial(n, s) && (s.Serve? || s.Deliver?)
    ensures In(Apply(n, s), p)
  {
    p := Second(k, j, hs, ke);
    if s.Serve? && s.conn == j {
      p := Entered(k, j, false);
      JoinBEnters(n, s.list, k, j, hs, ke);
    } else if s.Serve? {
      JoinBForwards(n, s.list, j, hs);
      JoinBServeOwner(n, Apply(n, s), k, j, hs, ke);
    } else if s.to == j {
      JoinBJoiner(n, k, j, hs, ke);
    } else {
      assert Follower(n, s.to, k);
      DeliverAbsorbs(n, s.to);
      JoinBMember(n, Apply(n, s), s.to, k, j, hs, ke);
    }
  }

  lemma EnteredStep(n: Net, s: Step, k: Key, j: Id, welcomed: bool) returns (p: Phase)
    requires JoinC(n, k, j, welcomed) && Serial(n, s) && (s.Serve? || s.Deliver?)
    ensures In(Apply(n, s), p)
  {
    p := Entered(k, j, welcomed);
    if s.Serve? && s.conn == j {
      if welcomed {
        p := Waiting(k);
        JoinCAwaits(n, s.list, k, j);
      } else {
        p := Entered(k, j, true);
        JoinCWelcomes(n, s.list, k, j);
      }
    } else if s.Serve? {
      ServeForwards(n, s.list);
      JoinCServeOwner(n, Apply(n, s), k, j, welcomed);
    } else {
      assert Follower(n, s.to, k);
      DeliverAbsorbs(n, s.to);
      JoinCMember(n, Apply(n, s), s.to, k, j, welcomed);
    }
  }

  lemma SettledStep(n: Net, s: Step, k: Key) returns (p: Phase)
    requires Settling(n, k) && Serial(n, s) && n.clients.Keys <= n.h.ids
    ensures In(Apply(n, s), p)
  {
    if s.Shake? {
      QuietIsAtRest(n, k);
      ShakeStarts(n, s.owner, s.joiner, s.hs, s.ke, k);
      p := First(k, s.joiner, s.hs, s.ke);
    } else if s.Serve? || s.Deliver? {
      SettlingStep(n, s, k);
      p := Settled(k);
    } else {
      AskStep(n, s, k);
      var x, u :| Asked(Apply(n, s), k, x, u);
      p := Asking(k, x, u);
    }
  }

  lemma WaitingStep(n: Net, s: Step, k: Key) returns (p: Phase)
    requires Await(n, k) && Serial(n, s) && (s.Serve? || s.Deliver?)
    ensures In(Apply(n, s), p)
  {
    if s == Deliver(n.room.owner) {
      AwaitOwnerStep(n, k);
      var k' :| Settling(DeliverStep(n, n.room.owner), k');
      p := Settled(k');
    } else {
      AwaitStep(n, s, k);
      p := Waiting(k);
    }
  }

  lemma AskingStep(n: Net, s: Step, k: Key, x: Id, u: Up) returns (p: Phase)
    requires Asked(n, k, x, u) && Serial(n, s) && (s.Serve? || s.Deliver?)
    ensures In(Apply(n, s), p)
  {
    AskedStep(n, s, k, x, u);
    var n' := Apply(n, s);
    p := if !n'.room.open then Closed else if Settling(n', k) then Settled(k) else if Await(n', k) then Waiting(k) else Handing(k, x);
  }

  lemma ClosedStays(n: Net, s: Step)
    requires !n.room.open && Enabled(n, s)
    ensures !Apply(n, s).room.open
  {
  }

  /** A change starts only when the last one is over. */
  lemma BusyIsNotQuiet(n: Net, p: Phase)
    requires In(n, p) && !p.Closed? && !p.Settled?
    ensures !Quiet(n)
  {
  }

  lemma SerialStep(n: Net, s: Step, p: Phase) returns (p': Phase)
    requires In(n, p) && Serial(n, s) && n.clients.Keys <= n.h.ids
    ensures In(Apply(n, s), p')
  {
    if !p.Closed? && !p.Settled? {
      BusyIsNotQuiet(n, p);
    }
    match p
    case Closed => ClosedStays(n, s); p' := Closed;
    case Settled(k) => p' := SettledStep(n, s, k);
    case Waiting(k) => p' := WaitingStep(n, s, k);
    case Asking(k, x, u) => p' := AskingStep(n, s, k, x, u);
    case Handing(k, x) => HandoverStep(n, s, k, x); p' := Waiting(k);
    case First(k, j, hs, ke) => p' := FirstStep(n, s, k, j, hs, ke);
    case Second(k, j, hs, ke) => p' := SecondStep(n, s, k, j, hs, ke);
    case Entered(k, j, welcomed) => p' := EnteredStep(n, s, k, j, welcomed);
  }

  /** A run of non-overlapping, fully delivered changes. */
  ghost predicate SerialRun(ns: seq<Net>, ss: seq<Step>, o: Id, size: nat) {
    && |ns| == |ss| + 1 && ns[0] == Created(o, size)
    && forall i :: 0 <= i < |ss| ==> Serial(ns[i], ss[i]) && ns[i + 1] == Apply(ns[i], ss[i])
  }

  lemma CreatedSettled(o: Id, size: nat)
    ensures Settling(Created(o, size), 0)
  {
    var list := [MemberInfo(o, true)];
    assert list[1..] == [] && Ids(list) == [o];
    assert SetOf([o]) == SetAdd(SetOf([o][..0]), o);
  }

  lemma StepKeepsIds(n: Net, s: Step)
    requires Enabled(n, s) && n.clients.Keys <= n.h.ids
    ensures Apply(n, s).clients.Keys <= Apply(n, s).h.ids
  {
    if s.Serve? {
      ServeKeepsClients(n, s.conn, s.list, s.lost);
    }
    hide Handle, ServeStep;
  }

  lemma {:induction false} RunPhase(ns: seq<Net>, ss: seq<Step>, o: Id, size: nat, i: nat) returns (p: Phase)
    requires SerialRun(ns, ss, o, size) && i < |ns|
    ensures In(ns[i], p) && ns[i].clients.Keys <= ns[i].h.ids
  {
    if i == 0 {
      CreatedSettled(o, size);
      p := Settled(0);
    } else {
      var q := RunPhase(ns, ss, o, size, i - 1);
      StepKeepsIds(ns[i - 1], ss[i - 1]);
      p := SerialStep(ns[i - 1], ss[i - 1], q);
    }
  }

  /** After any number of completed joins, departures, kicks and transfers, in any
      order and with any delivery order inside each, the room agrees. */
  lemma RotationAgreement(ns: seq<Net>, ss: seq<Step>, o: Id, size: nat, i: nat)
    requires SerialRun(ns, ss, o, size) && i < |ns| && Quiet(ns[i]) && ns[i].room.open
    ensures Agreed(ns[i])
  {
    var p := RunPhase(ns, ss, o, size, i);
    if !p.Settled? {
      BusyIsNotQuiet(ns[i], p);
    } else {
      QuietIsAtRest(ns[i], p.k);
    }
  }

  /** So any member could be made owner: what it then seals, every other member opens. */
  lemma AnyMemberCanRekey(n: Net, a: Id, b: Id, k: Key)
    requires Agreed(n) && a in n.room.members && b in n.room.members && a != b
    ensures a in n.clients[b].pubs && b in n.clients[a].pubs
    ensures OpenKey(b, n.clients[b].pubs[a], SealKey(a, n.clients[a].pubs[b], k)) == Some(k)
  {
    assert {a, b} == {b, a};
  }

  // ----- why changes must not overlap

  /** An owner that stays owner keeps the public key of someone it knew exactly if the
      presence lists it; if not, it rotates the room key and sends it nothing. Module
      RotationOverlap has a run in which that someone is about to enter. */
  lemma PresenceForgets(c: Client, list: seq<MemberInfo>, next: Key, x: Id)
    requires c.isOwner && OwnerIdOf(list) == Some(c.id) && x in c.known && x in c.pubs
    ensures
      var r := OnPresence(c, list, next);
      && r.Live? && (x in r.client.pubs <==> x in Ids(list))
      && (x !in Ids(list) ==> r.made && r.client.keys[0] == next && x !in r.client.known
                              && forall u <- r.sent :: u.UpRekey? ==> u.target != x)
  {
    var current := SetOf(Ids(list));
    if x !in Ids(list) {
      assert x in Missing(c.known, current);
      RekeysAvoid(OnPresence(c, list, next).client, current, {c.id}, next, x);
    }
  }

  lemma {:induction false} RekeysAvoid(c: Client, ids: seq<Id>, skip: set<Id>, k: Key, j: Id)
    requires j !in ids
    ensures forall u <- Rekeys(c, ids, skip, k) :: u.UpRekey? && u.target != j
  {
    if ids != [] {
      RekeysAvoid(c, ids[..|ids| - 1], skip, k, j);
    }
  }
}
