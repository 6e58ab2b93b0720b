/**
What a room's members hear, over every run of its operations: each queue accepted
exactly the room's log on the member's stay, without what the member said itself
(a part of it, in order, if the buffer ever overflowed); each presence names one
owner; and when no enter or transfer is midway, the last roster each member was
sent is the true one.
*/
module BroadcastOrder {
  import opened Options
  import opened RoomLog

  // ----- the runs

  /** `arriving` and `moving` are the connections between `Add`, or `SetOwner`, and
      the presence they broadcast next; `dirty` says that the room changed since its
      roster was last sent to all. `ready` says that the creator was welcomed. */
  datatype World = World(room: Room, arriving: set<MemberId>, moving: set<MemberId>, dirty: bool, ready: bool)

  datatype Op =
    | Found(id: MemberId, seat: Seat)
    | Greet(id: MemberId, list: seq<Info>)      // the creator's welcome
    | Enter(id: MemberId, seat: Seat)
    | Greeted(id: MemberId, list: seq<Info>)    // a joiner's welcome, from an earlier snapshot
    | Show(id: MemberId, list: seq<Info>)
    | Transfer(id: MemberId, target: MemberId)
    | Kick(target: MemberId, reason: string, list: seq<Info>)
    | Leave(id: MemberId, list: seq<Info>)
    | Shut(reason: string)
    | Say(id: MemberId, body: string, ts: int)
    | Cast(id: MemberId, data: string)
    | Hand(target: MemberId, data: string)
    | Tell(id: MemberId, data: string)
    | Drain(id: MemberId)

  function Sent(w: World, id: MemberId, m: Msg): World
    requires id in w.room.seats
  {
    w.(room := w.room.(seats := w.room.seats[id := Queued(w.room.seats[id], m)]))
  }

  predicate Newcomer(r: Room, id: MemberId, s: Seat) {
    && id !in r.seats && id !in r.gone && SeatOk(s)
    && forall m <- s.accepted :: m.Direct?
  }

  ghost predicate ListsAll(list: seq<Info>, r: Room) {
    Lists(list, r.seats, r.owner)
  }

  ghost predicate Enabled(w: World, op: Op) {
    var r := w.room;
    match op
    case Found(id, s) => Newcomer(r, id, s) && r.seats == map[] && r.gone == map[] && !w.ready && w.arriving == {}
    case Greet(id, list) => !w.ready && w.arriving == {id} && (r.closed || (id in r.seats && ListsAll(list, r)))
    case Enter(id, s) => Newcomer(r, id, s) && w.ready && id !in w.arriving
    case Greeted(id, list) => w.ready && id in w.arriving && id in r.seats
    case Show(id, list) => w.ready && (id in w.arriving || id in w.moving) && (r.closed || r.seats == map[] || ListsAll(list, r))
    case Transfer(id, t) => w.ready && id !in w.arriving && id !in w.moving
    case Kick(t, reason, list) => w.ready && (CanRemove(r, t) ==> Lists(list, r.seats - {t}, r.owner))
    case Leave(id, list) => w.ready && (CanRemove(r, id) ==> Lists(list, r.seats - {id}, r.owner))
    case Shut(reason) => true
    case Say(id, body, ts) => true
    case Cast(id, data) => true
    case Hand(t, data) => true
    case Tell(id, data) => id in r.seats
    case Drain(id) => id in r.seats && r.seats[id].waiting != []
  }

  ghost function Apply(w: World, op: Op): World
    requires Enabled(w, op)
  {
    var r := w.room;
    match op
    case Found(id, s) => if Admits(r) then w.(room := Add(r, id, s), arriving := {id}, dirty := true) else w
    case Greet(id, list) => (if r.closed then w else Sent(w, id, Welcome(list))).(arriving := {}, dirty := false, ready := true)
    case Enter(id, s) => if Admits(r) then w.(room := Add(r, id, s), arriving := w.arriving + {id}, dirty := true) else w
    case Greeted(id, list) => Sent(w, id, Welcome(list))
    case Show(id, list) =>
      World(ShowPresence(r, list), w.arriving - {id}, w.moving - {id}, false, true)
    case Transfer(id, t) =>
      if r.closed || t !in r.seats then w else w.(room := SetOwner(r, t), moving := w.moving + {id}, dirty := true)
    case Kick(t, reason, list) => if CanRemove(r, t) then w.(room := Remove(r, t, reason, list), dirty := false) else w
    case Leave(id, list) => if CanRemove(r, id) then w.(room := Depart(r, id, list), dirty := false) else w
    case Shut(reason) => w.(room := Close(r, reason))
    case Say(id, body, ts) => w.(room := Relay(r, id, body, ts))
    case Cast(id, data) => w.(room := BroadcastExcept(r, id, data))
    case Hand(t, data) => w.(room := SendTo(r, t, data))
    case Tell(id, data) => Sent(w, id, Direct(data))
    case Drain(id) => w.(room := r.(seats := r.seats[id := r.seats[id].(waiting := r.seats[id].waiting[1..])]))
  }

  ghost predicate Runs(ws: seq<World>, ops: seq<Op>, maxSize: nat) {
    && |ws| == |ops| + 1
    && ws[0] == World(Room(maxSize, map[], None, false, [], map[]), {}, {}, false, false)
    && forall i :: 0 <= i < |ops| ==> Enabled(ws[i], ops[i]) && ws[i + 1] == Apply(ws[i], ops[i])
  }

  // ----- what a member should have heard

  predicate Hears(e: Entry, id: MemberId) {
    if e.only.Some? then e.only == Some(id) else e.except != Some(id)
  }

  /** The log from `from` on, as `id` is meant to hear it. */
  function Received(log: seq<Entry>, from: nat, id: MemberId): seq<Msg> {
    if |log| <= from then []
    else Received(log[..|log| - 1], from, id) + if Hears(log[|log| - 1], id) then [log[|log| - 1].msg] else []
  }

  /** What room methods put into a queue. */
  function RoomPart(ms: seq<Msg>): seq<Msg> {
    if ms == [] then []
    else
      var m := ms[|ms| - 1];
      RoomPart(ms[..|ms| - 1]) + if m.Direct? || m.Welcome? then [] else [m]
  }

  /** `a` is `b` with some elements left out. */
  predicate Part(a: seq<Msg>, b: seq<Msg>)
    decreases b
  {
    if b == [] then a == []
    else
      var rest := b[..|b| - 1];
      (a != [] && a[|a| - 1] == b[|b| - 1] && Part(a[..|a| - 1], rest)) || Part(a, rest)
  }

  predicate Projection(accepted: seq<Msg>, lost: bool, log: seq<Entry>, joined: nat, id: MemberId) {
    if lost then Part(RoomPart(accepted), Received(log, joined, id)) else RoomPart(accepted) == Received(log, joined, id)
  }

  /** The last roster in a queue's history. */
  function LastRoster(ms: seq<Msg>): Option<seq<Info>> {
    if ms == [] then None
    else
      var m := ms[|ms| - 1];
      if m.Presence? || m.Welcome? then Some(m.list) else LastRoster(ms[..|ms| - 1])
  }

  predicate OneOwner(list: seq<Info>) {
    && (exists i :: 0 <= i < |list| && list[i].role == Owner)
    && forall i, j :: 0 <= i < |list| && 0 <= j < |list| && list[i].role == Owner && list[j].role == Owner ==> i == j
  }

  // ----- lemmas on single sends

  lemma {:induction false} PartSelf(a: seq<Msg>)
    ensures Part(a, a)
  {
    if a != [] {
      PartSelf(a[..|a| - 1]);
    }
  }

  lemma ReceivedSnoc(log: seq<Entry>, e: Entry, from: nat, id: MemberId)
    requires from <= |log|
    ensures Received(log + [e], from, id) == if Hears(e, id) then Received(log, from, id) + [e.msg] else Received(log, from, id)
  {
    assert (log + [e])[..|log|] == log;
  }

  lemma RoomPartSnoc(ms: seq<Msg>, m: Msg)
    ensures RoomPart(ms + [m]) == if m.Direct? || m.Welcome? then RoomPart(ms) else RoomPart(ms) + [m]
  {
    assert (ms + [m])[..|ms|] == ms;
  }

  lemma PartSnoc(a: seq<Msg>, b: seq<Msg>, m: Msg)
    requires Part(a, b)
    ensures Part(a + [m], b + [m]) && Part(a, b + [m])
  {
    assert (b + [m])[..|b|] == b;
    assert (a + [m])[..|a|] == a;
  }

  lemma LastRosterSnoc(ms: seq<Msg>, m: Msg)
    ensures LastRoster(ms + [m]) == if m.Presence? || m.Welcome? then Some(m.list) else LastRoster(ms)
  {
    assert (ms + [m])[..|ms|] == ms;
  }

  /** A room's send to someone who hears it. */
  lemma HeardKeeps(s: Seat, m: Msg, log: seq<Entry>, e: Entry, id: MemberId)
    requires Projection(s.accepted, s.lost, log, s.joined, id) && s.joined <= |log| && SeatOk(s)
    requires e.msg == m && Hears(e, id) && !m.Direct? && !m.Welcome?
    ensures var t := Queued(s, m); Projection(t.accepted, t.lost, log + [e], t.joined, id) && SeatOk(t)
  {
    hide Part, RoomPart, Received;
    ReceivedSnoc(log, e, s.joined, id);
    RoomPartSnoc(s.accepted, m);
    var a, b := RoomPart(s.accepted), Received(log, s.joined, id);
    assert Part(a, b) by {
      PartSelf(a);
    }
    PartSnoc(a, b, m);
  }

  /** A room's send to others. */
  lemma UnheardKeeps(accepted: seq<Msg>, lost: bool, joined: nat, log: seq<Entry>, e: Entry, id: MemberId)
    requires Projection(accepted, lost, log, joined, id) && joined <= |log| && !Hears(e, id)
    ensures Projection(accepted, lost, log + [e], joined, id)
  {
    ReceivedSnoc(log, e, joined, id);
  }

  /** A send by a thread itself. */
  lemma DirectKeeps(s: Seat, m: Msg, log: seq<Entry>, id: MemberId)
    requires Projection(s.accepted, s.lost, log, s.joined, id) && SeatOk(s) && (m.Direct? || m.Welcome?)
    ensures var t := Queued(s, m); Projection(t.accepted, t.lost, log, t.joined, id) && SeatOk(t)
  {
    hide Part, RoomPart, Received;
    RoomPartSnoc(s.accepted, m);
    PartSelf(RoomPart(s.accepted));
  }

  // ----- the invariant of a room

  predicate SeatHeard(r: Room, id: MemberId)
    requires id in r.seats
  {
    var s := r.seats[id];
    id !in r.gone && SeatOk(s) && s.joined <= |r.log| && Projection(s.accepted, s.lost, r.log, s.joined, id)
  }

  predicate GoneHeard(r: Room, id: MemberId)
    requires id in r.gone
  {
    var g := r.gone[id];
    g.joined <= g.left <= |r.log| && Projection(g.accepted, g.lost, r.log[..g.left], g.joined, id)
  }

  predicate SeatsHeard(r: Room) {
    forall id <- r.seats {:trigger SeatHeard(r, id)} :: SeatHeard(r, id)
  }

  predicate AllGoneHeard(r: Room) {
    forall id <- r.gone {:trigger GoneHeard(r, id)} :: GoneHeard(r, id)
  }

  predicate OwnerSits(r: Room) {
    && |r.seats| <= r.maxSize
    && (r.closed ==> r.seats == map[])
    && (r.seats != map[] ==> r.owner.Some? && r.owner.value in r.seats)
  }

  predicate PresencesOwned(r: Room) {
    forall k :: 0 <= k < |r.log| && r.log[k].msg.Presence? ==> OneOwner(r.log[k].msg.list)
  }

  predicate RoomInv(r: Room) {
    SeatsHeard(r) && AllGoneHeard(r) && OwnerSits(r) && PresencesOwned(r)
  }

  lemma ListedOwner(list: seq<Info>, seats: map<MemberId, Seat>, owner: Option<MemberId>)
    requires Lists(list, seats, owner) && owner.Some? && owner.value in seats
    ensures OneOwner(list)
  {
    var i :| 0 <= i < |list| && list[i].id == owner.value;
    assert Named(list, i, seats, owner);
    forall a, b | 0 <= a < |list| && 0 <= b < |list| && list[a].role == Owner && list[b].role == Owner ensures a == b {
      assert Named(list, a, seats, owner) && Named(list, b, seats, owner);
    }
  }

  /** The log grew by one entry that those who left did not hear. */
  lemma GrownGone(r: Room, r': Room)
    requires AllGoneHeard(r) && r'.gone == r.gone && |r'.log| >= |r.log| && r'.log[..|r.log|] == r.log
    ensures AllGoneHeard(r')
  {
    forall id <- r'.gone ensures GoneHeard(r', id) {
      assert GoneHeard(r, id);
      var left := r.gone[id].left;
      assert r'.log[..left] == r'.log[..|r.log|][..left];
    }
  }

  lemma BroadcastSits(r: Room, m: Msg, except: Option<MemberId>)
    requires OwnerSits(r) && PresencesOwned(r) && (m.Presence? && r.seats != map[] ==> OneOwner(m.list))
    ensures OwnerSits(Broadcast(r, m, except)) && PresencesOwned(Broadcast(r, m, except))
  {
    var r' := Broadcast(r, m, except);
    assert r'.seats.Keys == r.seats.Keys;
    assert |r'.seats| == |r'.seats.Keys| == |r.seats.Keys|;
  }

  lemma BroadcastKeeps(r: Room, m: Msg, except: Option<MemberId>)
    requires RoomInv(r) && !m.Direct? && !m.Welcome? && (m.Presence? && r.seats != map[] ==> OneOwner(m.list))
    ensures RoomInv(Broadcast(r, m, except))
  {
    BroadcastSits(r, m, except);
    if r.seats == map[] {
      return;
    }
    hide OwnerSits, PresencesOwned;
    forall id <- Broadcast(r, m, except).seats ensures SeatHeard(Broadcast(r, m, except), id) {
      BroadcastHeard(r, m, except, id);
    }
    GrownGone(r, Broadcast(r, m, except));
  }

  lemma BroadcastHeard(r: Room, m: Msg, except: Option<MemberId>, id: MemberId)
    requires SeatsHeard(r) && id in r.seats && !m.Direct? && !m.Welcome?
    ensures SeatHeard(Broadcast(r, m, except), id)
  {
    assert SeatHeard(r, id);
    hide Part, RoomPart, Received, Projection, SeatOk;
    var s, e := r.seats[id], Entry(m, except, None);
    if except == Some(id) {
      UnheardKeeps(s.accepted, s.lost, s.joined, r.log, e, id);
    } else {
      HeardKeeps(s, m, r.log, e, id);
    }
  }

  lemma ShowKeeps(r: Room, list: seq<Info>)
    requires RoomInv(r) && (r.closed || r.seats == map[] || ListsAll(list, r))
    ensures RoomInv(ShowPresence(r, list))
  {
    hide SeatsHeard, AllGoneHeard, PresencesOwned;
    if !r.closed {
      if r.seats != map[] {
        ListedOwner(list, r.seats, r.owner);
      }
      BroadcastKeeps(r, Presence(list), None);
    }
  }

  /** A send to one member. */
  lemma OneKeeps(r: Room, id: MemberId, m: Msg)
    requires RoomInv(r) && id in r.seats && !m.Direct? && !m.Welcome? && !m.Presence?
    ensures RoomInv(r.(seats := r.seats[id := Queued(r.seats[id], m)], log := r.log + [Entry(m, None, Some(id))]))
  {
    var e := Entry(m, None, Some(id));
    var r' := r.(seats := r.seats[id := Queued(r.seats[id], m)], log := r.log + [e]);
    assert r'.seats.Keys == r.seats.Keys;
    assert |r'.seats| == |r'.seats.Keys| == |r.seats.Keys|;
    forall d <- r'.seats ensures SeatHeard(r', d) {
      assert SeatHeard(r, d);
      hide Part, RoomPart, Received, Projection, SeatOk;
      var s := r.seats[d];
      if d == id {
        HeardKeeps(s, m, r.log, e, id);
      } else {
        UnheardKeeps(s.accepted, s.lost, s.joined, r.log, e, d);
      }
    }
    GrownGone(r, r');
  }

  lemma WithoutKeeps(r: Room, id: MemberId)
    requires RoomInv(r) && id in r.seats && r.owner != Some(id)
    ensures RoomInv(Without(r, id, r.seats[id]))
  {
    var r' := Without(r, id, r.seats[id]);
    assert |r'.seats| <= |r.seats| by {
      assert r'.seats.Keys == r.seats.Keys - {id};
      assert |r'.seats| == |r'.seats.Keys| && |r.seats| == |r.seats.Keys|;
    }
    forall d <- r'.seats ensures SeatHeard(r', d) {
      assert SeatHeard(r, d);
    }
    forall d <- r'.gone ensures GoneHeard(r', d) {
      assert r.log[..|r.log|] == r.log;
      if d == id {
        assert SeatHeard(r, id);
      } else {
        assert GoneHeard(r, d);
      }
    }
  }

  lemma AddSits(r: Room, id: MemberId, s: Seat)
    requires OwnerSits(r) && id !in r.seats
    ensures OwnerSits(Add(r, id, s))
  {
    var r' := Add(r, id, s);
    if Admits(r) {
      assert r'.seats.Keys == r.seats.Keys + {id};
      assert |r'.seats| == |r'.seats.Keys| && |r.seats| == |r.seats.Keys|;
    }
  }

  lemma AddKeeps(r: Room, id: MemberId, s: Seat)
    requires RoomInv(r) && Newcomer(r, id, s)
    ensures RoomInv(Add(r, id, s))
  {
    AddSits(r, id, s);
    hide OwnerSits;
    if Admits(r) {
      var r' := Add(r, id, s);
      forall d <- r'.seats ensures SeatHeard(r', d) {
        if d == id {
          AllDirect(s.accepted);
        } else {
          assert SeatHeard(r, d);
        }
      }
      forall d <- r'.gone ensures GoneHeard(r', d) {
        assert GoneHeard(r, d);
      }
    }
  }

  lemma {:induction false} AllDirect(ms: seq<Msg>)
    requires forall m <- ms :: m.Direct?
    ensures RoomPart(ms) == []
  {
    if ms != [] {
      AllDirect(ms[..|ms| - 1]);
    }
  }

  lemma CloseKeeps(r: Room, reason: string)
    requires RoomInv(r)
    ensures RoomInv(Close(r, reason))
  {
    if !r.closed {
      var r' := Close(r, reason);
      forall id <- r'.gone ensures GoneHeard(r', id) {
        if id in r.seats {
          assert SeatHeard(r, id);
          ToldKeeps(r, reason, id);
        } else {
          assert GoneHeard(r, id);
          assert r'.log[..r.gone[id].left] == r.log[..r.gone[id].left];
        }
      }
    }
  }

  lemma ToldKeeps(r: Room, reason: string, id: MemberId)
    requires !r.closed && id in r.seats && SeatHeard(r, id)
    ensures id in Close(r, reason).gone && GoneHeard(Close(r, reason), id)
  {
    hide Part, RoomPart, Received, Projection, SeatOk;
    var r', m := Close(r, reason), RoomClosed(reason);
    assert r'.log[..|r'.log|] == r'.log;
    if reason != "" {
      HeardKeeps(r.seats[id], m, r.log, Entry(m, None, None), id);
    }
  }

  /** A send by a thread itself, or a message taken out by the write pump. */
  lemma SeatKeeps(r: Room, id: MemberId, s: Seat)
    requires RoomInv(r) && id in r.seats && SeatOk(s) && s.joined <= |r.log| && Projection(s.accepted, s.lost, r.log, s.joined, id)
    ensures RoomInv(r.(seats := r.seats[id := s]))
  {
    var r' := r.(seats := r.seats[id := s]);
    assert r'.seats.Keys == r.seats.Keys;
    assert |r'.seats| == |r'.seats.Keys| == |r.seats.Keys|;
    forall d <- r'.seats ensures SeatHeard(r', d) {
      assert SeatHeard(r, d);
    }
    forall d <- r'.gone ensures GoneHeard(r', d) {
      assert GoneHeard(r, d);
    }
  }

  lemma OwnerKeeps(r: Room, id: MemberId)
    requires RoomInv(r)
    ensures RoomInv(SetOwner(r, id))
  {
    var r' := SetOwner(r, id);
    forall d <- r'.seats ensures SeatHeard(r', d) {
      assert SeatHeard(r, d);
    }
    forall d <- r'.gone ensures GoneHeard(r', d) {
      assert GoneHeard(r, d);
    }
  }

  // ----- the invariant of a run

  /** The last roster sent to `id` is the room's. */
  ghost predicate Current(r: Room, id: MemberId)
    requires id in r.seats
  {
    var last := LastRoster(r.seats[id].accepted);
    last.Some? && ListsAll(last.value, r)
  }

  ghost predicate Fresh(w: World) {
    if w.dirty then w.arriving + w.moving != {}
    else forall id <- w.room.seats :: id !in w.arriving && !w.room.seats[id].lost ==> Current(w.room, id)
  }

  /** Until its creator is welcomed, a room holds nobody else. */
  predicate Opening(w: World) {
    !w.ready ==> w.moving == {} && (w.room.seats == map[] || w.arriving == w.room.seats.Keys)
  }

  ghost predicate Inv(w: World) {
    RoomInv(w.room) && Fresh(w) && Opening(w)
  }

  /** Messages were sent, but no roster and to the same members. */
  predicate Chatter(r: Room, r': Room) {
    && r'.seats.Keys == r.seats.Keys && r'.owner == r.owner
    && forall id <- r.seats :: && r'.seats[id].nick == r.seats[id].nick && (r.seats[id].lost ==> r'.seats[id].lost)
                               && LastRoster(r'.seats[id].accepted) == LastRoster(r.seats[id].accepted)
  }

  lemma ListsSame(list: seq<Info>, seats: map<MemberId, Seat>, seats': map<MemberId, Seat>, owner: Option<MemberId>)
    requires Lists(list, seats, owner) && seats'.Keys == seats.Keys && forall id <- seats :: seats'[id].nick == seats[id].nick
    ensures Lists(list, seats', owner)
  {
    forall i | 0 <= i < |list| ensures Named(list, i, seats', owner) {
      assert Named(list, i, seats, owner);
    }
  }

  lemma ChatterKeeps(w: World, r: Room)
    requires Fresh(w) && Opening(w) && Chatter(w.room, r)
    ensures Fresh(w.(room := r)) && Opening(w.(room := r))
  {
    hide Lists, LastRoster;
    if !w.dirty {
      forall id <- r.seats | id !in w.arriving && !r.seats[id].lost ensures Current(r, id) {
        assert id in w.room.seats && Current(w.room, id);
        ListsSame(LastRoster(r.seats[id].accepted).value, w.room.seats, r.seats, r.owner);
      }
    }
  }

  lemma BroadcastChatters(r: Room, m: Msg, except: Option<MemberId>)
    requires !m.Presence? && !m.Welcome?
    ensures Chatter(r, Broadcast(r, m, except))
  {
    var r' := Broadcast(r, m, except);
    forall id <- r.seats ensures LastRoster(r'.seats[id].accepted) == LastRoster(r.seats[id].accepted) {
      LastRosterSnoc(r.seats[id].accepted, m);
    }
  }

  lemma QueuedChatters(r: Room, r': Room, id: MemberId, m: Msg)
    requires id in r.seats && !m.Presence? && !m.Welcome? && r'.seats == r.seats[id := Queued(r.seats[id], m)] && r'.owner == r.owner
    ensures Chatter(r, r')
  {
    LastRosterSnoc(r.seats[id].accepted, m);
  }

  /** A roster sent to all is everybody's last. */
  lemma ShownFresh(r: Room, list: seq<Info>)
    requires !r.closed && ListsAll(list, r)
    ensures var r' := ShowPresence(r, list);
            r'.seats.Keys == r.seats.Keys && r'.owner == r.owner && forall id <- r'.seats :: !r'.seats[id].lost ==> Current(r', id)
  {
    var r' := ShowPresence(r, list);
    hide Lists;
    forall id <- r'.seats | !r'.seats[id].lost ensures Current(r', id) {
      LastRosterSnoc(r.seats[id].accepted, Presence(list));
      ListsSame(list, r.seats, r'.seats, r.owner);
    }
  }

  lemma GreetKeeps(w: World, id: MemberId, list: seq<Info>)
    requires Inv(w) && Enabled(w, Greet(id, list))
    ensures Inv(Apply(w, Greet(id, list)))
  {
    hide SeatsHeard, AllGoneHeard, PresencesOwned, Lists;
    var w' := Apply(w, Greet(id, list));
    if !w.room.closed {
      var s, m := w.room.seats[id], Welcome(list);
      TellKeeps(w.room, id, m);
      LastRosterSnoc(s.accepted, m);
      ListsSame(list, w.room.seats, w'.room.seats, w.room.owner);
    }
  }

  lemma TellKeeps(r: Room, id: MemberId, m: Msg)
    requires RoomInv(r) && id in r.seats && (m.Direct? || m.Welcome?)
    ensures RoomInv(r.(seats := r.seats[id := Queued(r.seats[id], m)]))
  {
    assert SeatHeard(r, id);
    hide Part, RoomPart, Received, Projection, SeatOk;
    DirectKeeps(r.seats[id], m, r.log, id);
    SeatKeeps(r, id, Queued(r.seats[id], m));
  }

  lemma GreetedKeeps(w: World, id: MemberId, list: seq<Info>)
    requires Inv(w) && Enabled(w, Greeted(id, list))
    ensures Inv(Apply(w, Greeted(id, list)))
  {
    hide SeatsHeard, AllGoneHeard, PresencesOwned, Lists, LastRoster;
    var w' := Apply(w, Greeted(id, list));
    TellKeeps(w.room, id, Welcome(list));
    if !w.dirty {
      forall d <- w'.room.seats | d !in w.arriving && !w'.room.seats[d].lost ensures Current(w'.room, d) {
        assert Current(w.room, d);
        ListsSame(LastRoster(w.room.seats[d].accepted).value, w.room.seats, w'.room.seats, w.room.owner);
      }
    }
  }

  lemma EnterKeeps(w: World, op: Op)
    requires Inv(w) && Enabled(w, op) && (op.Found? || op.Enter?)
    ensures Inv(Apply(w, op))
  {
    AddKeeps(w.room, op.id, op.seat);
    hide RoomInv;
  }

  lemma ShowsKeeps(w: World, id: MemberId, list: seq<Info>)
    requires Inv(w) && Enabled(w, Show(id, list))
    ensures Inv(Apply(w, Show(id, list)))
  {
    ShowKeeps(w.room, list);
    assert w.room.closed ==> w.room.seats == map[];
    if !w.room.closed && w.room.seats != map[] {
      ShownFresh(w.room, list);
    }
    hide RoomInv, Current;
  }

  lemma KickKeeps(w: World, t: MemberId, reason: string, list: seq<Info>)
    requires Inv(w) && Enabled(w, Kick(t, reason, list))
    ensures Inv(Apply(w, Kick(t, reason, list)))
  {
    if CanRemove(w.room, t) {
      var r1 := Notified(w.room, t, reason);
      OneKeeps(w.room, t, RoomClosed(reason));
      hide SeatsHeard, AllGoneHeard, PresencesOwned, Lists;
      assert r1.seats - {t} == w.room.seats - {t};
      RestKeeps(w, r1, t, list);
    }
  }

  /** `t` leaves `r1`, which differs from the room at most by a last word to `t`. */
  lemma RestKeeps(w: World, r1: Room, t: MemberId, list: seq<Info>)
    requires Inv(w) && w.ready && RoomInv(r1) && t in r1.seats && r1.owner != Some(t) && !r1.closed
    requires Lists(list, r1.seats - {t}, r1.owner)
    ensures Inv(w.(room := ShowPresence(Without(r1, t, r1.seats[t]), list), dirty := false))
  {
    hide SeatsHeard, AllGoneHeard, PresencesOwned, Lists;
    var r2 := Without(r1, t, r1.seats[t]);
    WithoutKeeps(r1, t);
    assert ListsAll(list, r2);
    ShowKeeps(r2, list);
    ShownFresh(r2, list);
    hide RoomInv, Current, ShowPresence, Without;
  }

  lemma LeaveKeeps(w: World, id: MemberId, list: seq<Info>)
    requires Inv(w) && Enabled(w, Leave(id, list))
    ensures Inv(Apply(w, Leave(id, list)))
  {
    if CanRemove(w.room, id) {
      hide RoomInv;
      RestKeeps(w, w.room, id, list);
    }
  }

  lemma TransferKeeps(w: World, id: MemberId, t: MemberId)
    requires Inv(w) && Enabled(w, Transfer(id, t))
    ensures Inv(Apply(w, Transfer(id, t)))
  {
    OwnerKeeps(w.room, t);
    hide RoomInv;
  }

  lemma TalkKeeps(w: World, op: Op)
    requires Inv(w) && Enabled(w, op) && (op.Say? || op.Cast? || op.Hand? || op.Tell? || op.Drain?)
    ensures Inv(Apply(w, op))
  {
    hide SeatsHeard, AllGoneHeard, PresencesOwned, Fresh, Opening, LastRoster, Part, RoomPart, Received;
    var r, r' := w.room, Apply(w, op).room;
    assert Chatter(r, r') && RoomInv(r') by {
      match op
      case Say(id, body, ts) =>
        if !r.closed && id in r.seats {
          BroadcastKeeps(r, Chat(id, r.seats[id].nick, body, ts), Some(id));
          BroadcastChatters(r, Chat(id, r.seats[id].nick, body, ts), Some(id));
        }
      case Cast(id, data) =>
        if !r.closed {
          BroadcastKeeps(r, Frame(data), Some(id));
          BroadcastChatters(r, Frame(data), Some(id));
        }
      case Hand(t, data) =>
        if !r.closed && t in r.seats {
          OneKeeps(r, t, Frame(data));
          QueuedChatters(r, r', t, Frame(data));
        }
      case Tell(id, data) =>
        TellKeeps(r, id, Direct(data));
        QueuedChatters(r, r', id, Direct(data));
      case Drain(id) =>
        DrainKeeps(r, id);
    }
    hide RoomInv, Chatter;
    ChatterKeeps(w, r');
  }

  lemma DrainKeeps(r: Room, id: MemberId)
    requires RoomInv(r) && id in r.seats && r.seats[id].waiting != []
    ensures RoomInv(r.(seats := r.seats[id := r.seats[id].(waiting := r.seats[id].waiting[1..])]))
  {
    assert SeatHeard(r, id);
    var s := r.seats[id];
    assert s.accepted[|s.accepted| - |s.waiting| + 1..] == s.waiting[1..];
    SeatKeeps(r, id, s.(waiting := s.waiting[1..]));
  }

  lemma ShutKeeps(w: World, reason: string)
    requires Inv(w)
    ensures Inv(w.(room := Close(w.room, reason)))
  {
    CloseKeeps(w.room, reason);
    hide SeatsHeard, AllGoneHeard, PresencesOwned;
    assert Close(w.room, reason).seats == map[];
    assert w.room.closed ==> Close(w.room, reason) == w.room;
  }

  lemma StepKeeps(w: World, op: Op)
    requires Inv(w) && Enabled(w, op)
    ensures Inv(Apply(w, op))
  {
    hide Inv;
    match op
    case Found(id, s) => EnterKeeps(w, op);
    case Greet(id, list) => GreetKeeps(w, id, list);
    case Enter(id, s) => EnterKeeps(w, op);
    case Greeted(id, list) => GreetedKeeps(w, id, list);
    case Show(id, list) => ShowsKeeps(w, id, list);
    case Transfer(id, t) => TransferKeeps(w, id, t);
    case Kick(t, reason, list) => KickKeeps(w, t, reason, list);
    case Leave(id, list) => LeaveKeeps(w, id, list);
    case Shut(reason) => ShutKeeps(w, reason);
    case Say(id, body, ts) => TalkKeeps(w, op);
    case Cast(id, data) => TalkKeeps(w, op);
    case Hand(t, data) => TalkKeeps(w, op);
    case Tell(id, data) => TalkKeeps(w, op);
    case Drain(id) => TalkKeeps(w, op);
  }

  lemma {:induction false} RunsKeep(ws: seq<World>, ops: seq<Op>, maxSize: nat, i: nat)
    requires Runs(ws, ops, maxSize) && i < |ws|
    ensures Inv(ws[i])
    decreases i
  {
    hide Apply, Enabled;
    if i > 0 {
      RunsKeep(ws, ops, maxSize, i - 1);
      hide Inv;
      assert Enabled(ws[i - 1], ops[i - 1]) && ws[i - 1 + 1] == Apply(ws[i - 1], ops[i - 1]);
      StepKeeps(ws[i - 1], ops[i - 1]);
    }
  }

  // ----- the theorems

  /** A member's queue accepted the log on its stay so far, as meant for it. */
  lemma MembersHearTheLog(ws: seq<World>, ops: seq<Op>, maxSize: nat, i: nat, id: MemberId)
    requires Runs(ws, ops, maxSize) && i < |ws| && id in ws[i].room.seats
    ensures
      var r := ws[i].room; var s := r.seats[id];
      && s.joined <= |r.log|
      && (!s.lost ==> RoomPart(s.accepted) == Received(r.log, s.joined, id))
      && (s.lost ==> Part(RoomPart(s.accepted), Received(r.log, s.joined, id)))
      && |s.waiting| <= OUTBOUND_BUFFER && |s.waiting| <= |s.accepted| && s.waiting == s.accepted[|s.accepted| - |s.waiting|..]
  {
    RunsKeep(ws, ops, maxSize, i);
    assert SeatHeard(ws[i].room, id);
  }

  /** So did the queue of one that is gone, on its whole stay. */
  lemma DepartedHeardTheLog(ws: seq<World>, ops: seq<Op>, maxSize: nat, i: nat, id: MemberId)
    requires Runs(ws, ops, maxSize) && i < |ws| && id in ws[i].room.gone
    ensures
      var r := ws[i].room; var g := r.gone[id];
      && id !in r.seats && g.joined <= g.left <= |r.log|
      && (!g.lost ==> RoomPart(g.accepted) == Received(r.log[..g.left], g.joined, id))
      && (g.lost ==> Part(RoomPart(g.accepted), Received(r.log[..g.left], g.joined, id)))
  {
    RunsKeep(ws, ops, maxSize, i);
    assert GoneHeard(ws[i].room, id);
    assert id in ws[i].room.seats ==> SeatHeard(ws[i].room, id);
  }

  lemma EveryPresenceNamesOneOwner(ws: seq<World>, ops: seq<Op>, maxSize: nat, i: nat, k: nat)
    requires Runs(ws, ops, maxSize) && i < |ws| && k < |ws[i].room.log| && ws[i].room.log[k].msg.Presence?
    ensures OneOwner(ws[i].room.log[k].msg.list)
  {
    RunsKeep(ws, ops, maxSize, i);
  }

  /** With no enter and no transfer midway, the last roster each member was sent lists
      exactly the members, under the owner's name. */
  lemma LastRosterIsTrue(ws: seq<World>, ops: seq<Op>, maxSize: nat, i: nat, id: MemberId)
    requires Runs(ws, ops, maxSize) && i < |ws| && ws[i].arriving == {} && ws[i].moving == {}
    requires id in ws[i].room.seats && !ws[i].room.seats[id].lost
    ensures Current(ws[i].room, id) && OneOwner(LastRoster(ws[i].room.seats[id].accepted).value)
  {
    RunsKeep(ws, ops, maxSize, i);
    var r := ws[i].room;
    assert Current(r, id);
    ListedOwner(LastRoster(r.seats[id].accepted).value, r.seats, r.owner);
  }

  // ----- the last presence sent, heard or dropped

  function LastPresence(log: seq<Entry>): Option<Entry> {
    if log == [] then None
    else if log[|log| - 1].msg.Presence? then Some(log[|log| - 1])
    else LastPresence(log[..|log| - 1])
  }

  lemma LastPresenceSnoc(log: seq<Entry>, e: Entry)
    ensures LastPresence(log + [e]) == if e.msg.Presence? then Some(e) else LastPresence(log)
  {
    assert (log + [e])[..|log|] == log;
  }

  /** The last presence of the log went to everybody and lists the room as it is. */
  ghost predicate Shown(r: Room) {
    match LastPresence(r.log)
    case None => true
    case Some(e) => e.msg.Presence? && e.except.None? && e.only.None? && ListsAll(e.msg.list, r)
  }

  ghost predicate LogFresh(w: World) {
    && (!w.ready ==> LastPresence(w.room.log).None?)
    && (!w.dirty && w.room.seats != map[] ==> Shown(w.room))
  }

  lemma ShownAlike(r: Room, r': Room)
    requires Shown(r) && LastPresence(r'.log) == LastPresence(r.log) && r'.owner == r.owner
    requires r'.seats.Keys == r.seats.Keys && forall id <- r.seats :: r'.seats[id].nick == r.seats[id].nick
    ensures Shown(r')
  {
    match LastPresence(r.log)
    case None =>
    case Some(e) => ListsSame(e.msg.list, r.seats, r'.seats, r.owner);
  }

  lemma ShowsLast(r: Room, list: seq<Info>)
    requires !r.closed && r.seats != map[] && ListsAll(list, r)
    ensures Shown(ShowPresence(r, list))
  {
    var r' := ShowPresence(r, list);
    LastPresenceSnoc(r.log, Entry(Presence(list), None, None));
    ListsSame(list, r.seats, r'.seats, r.owner);
  }

  /** Messages that are no presences, to the members of before. */
  ghost predicate Talk(r: Room, r': Room) {
    && Chatter(r, r')
    && (r'.log == r.log || (|r'.log| == |r.log| + 1 && r'.log[..|r.log|] == r.log && !r'.log[|r.log|].msg.Presence?))
  }

  lemma TalkFresh(w: World, w': World)
    requires LogFresh(w) && Talk(w.room, w'.room) && w'.ready == w.ready && w'.dirty == w.dirty
    ensures LogFresh(w')
  {
    var r, r' := w.room, w'.room;
    if r'.log != r.log {
      LastPresenceSnoc(r.log, r'.log[|r.log|]);
      assert r'.log == r.log + [r'.log[|r.log|]];
    }
    if !w.dirty && r'.seats != map[] {
      assert r.seats != map[];
      ShownAlike(r, r');
    }
    hide Lists;
  }

  lemma TalkIs(w: World, op: Op)
    requires Enabled(w, op) && (op.Say? || op.Cast? || op.Hand? || op.Tell? || op.Drain?)
    ensures Talk(w.room, Apply(w, op).room)
  {
    hide LastRoster;
    var r, r' := w.room, Apply(w, op).room;
    match op
    case Say(id, body, ts) => if id in r.seats { BroadcastChatters(r, Chat(id, r.seats[id].nick, body, ts), Some(id)); }
    case Cast(id, data) => BroadcastChatters(r, Frame(data), Some(id));
    case Hand(t, data) => if !r.closed && t in r.seats { QueuedChatters(r, r', t, Frame(data)); }
    case Tell(id, data) => QueuedChatters(r, r', id, Direct(data));
    case Drain(id) =>
  }

  lemma GreetsFresh(w: World, op: Op)
    requires Inv(w) && LogFresh(w) && Enabled(w, op) && (op.Greet? || op.Greeted?)
    ensures LogFresh(Apply(w, op))
  {
    hide Lists, LastRoster, SeatsHeard, AllGoneHeard, PresencesOwned, Fresh, Opening;
    if op.Greeted? && !w.dirty {
      ShownAlike(w.room, Apply(w, op).room);
    }
  }

  lemma DepartsFresh(w: World, op: Op)
    requires Inv(w) && LogFresh(w) && Enabled(w, op) && (op.Show? || op.Kick? || op.Leave?)
    ensures LogFresh(Apply(w, op))
  {
    hide Lists, LastRoster, SeatsHeard, AllGoneHeard, PresencesOwned, Fresh, Opening;
    var r := w.room;
    match op
    case Show(id, list) => if !r.closed && r.seats != map[] { ShowsLast(r, list); }
    case Kick(t, reason, list) =>
      if CanRemove(r, t) {
        var r1 := Notified(r, t, reason);
        assert r1.seats - {t} == r.seats - {t};
        RestShows(Without(r1, t, r1.seats[t]), list);
      }
    case Leave(id, list) => if CanRemove(r, id) { RestShows(Without(r, id, r.seats[id]), list); }
  }

  lemma RestShows(r: Room, list: seq<Info>)
    requires !r.closed && ListsAll(list, r)
    ensures ShowPresence(r, list).seats != map[] ==> Shown(ShowPresence(r, list))
  {
    if r.seats != map[] {
      ShowsLast(r, list);
    }
    hide Shown;
  }

  lemma StepLogFresh(w: World, op: Op)
    requires Inv(w) && LogFresh(w) && Enabled(w, op)
    ensures LogFresh(Apply(w, op))
  {
    hide Shown, LastPresence, Lists, RoomInv, Fresh, Opening;
    match op
    case Found(_, _) =>
    case Enter(_, _) =>
    case Transfer(_, _) =>
    case Greet(_, _) => GreetsFresh(w, op);
    case Greeted(_, _) => GreetsFresh(w, op);
    case Show(_, _) => DepartsFresh(w, op);
    case Kick(_, _, _) => DepartsFresh(w, op);
    case Leave(_, _) => DepartsFresh(w, op);
    case Shut(reason) => ShutFresh(w, reason);
    case _ => TalkIs(w, op); TalkFresh(w, Apply(w, op));
  }

  lemma ShutFresh(w: World, reason: string)
    requires Inv(w) && LogFresh(w)
    ensures LogFresh(w.(room := Close(w.room, reason)))
  {
    hide SeatsHeard, AllGoneHeard, PresencesOwned, Fresh, Opening;
    if reason != "" {
      LastPresenceSnoc(w.room.log, Entry(RoomClosed(reason), None, None));
    }
  }

  lemma {:induction false} RunLogFresh(ws: seq<World>, ops: seq<Op>, maxSize: nat, i: nat)
    requires Runs(ws, ops, maxSize) && i < |ws|
    ensures LogFresh(ws[i])
    decreases i
  {
    hide Apply, Enabled;
    if i > 0 {
      RunLogFresh(ws, ops, maxSize, i - 1);
      RunsKeep(ws, ops, maxSize, i - 1);
      hide Inv, LogFresh;
      assert Enabled(ws[i - 1], ops[i - 1]) && ws[i - 1 + 1] == Apply(ws[i - 1], ops[i - 1]);
      StepLogFresh(ws[i - 1], ops[i - 1]);
    }
  }

  /** With no enter and no transfer midway, the last presence that the room sent, to every
      member and whether or not a member's buffer took it, lists exactly the members and
      the owner. */
  lemma LastPresenceIsTrue(ws: seq<World>, ops: seq<Op>, maxSize: nat, i: nat)
    requires Runs(ws, ops, maxSize) && i < |ws| && ws[i].arriving == {} && ws[i].moving == {}
    requires ws[i].room.seats != map[] && LastPresence(ws[i].room.log).Some?
    ensures
      var e := LastPresence(ws[i].room.log).value;
      && e.msg.Presence? && ListsAll(e.msg.list, ws[i].room)
      && forall id <- ws[i].room.seats :: Hears(e, id)
  {
    RunLogFresh(ws, ops, maxSize, i);
    RunsKeep(ws, ops, maxSize, i);
    hide RoomInv, Opening, Lists;
  }
}
