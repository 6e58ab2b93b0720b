/**
What a room says to its members, as values (server/internal/relay/room.go and
client.go): each member's bounded queue, the log of everything the room sent, and
the operations that extend both. The classes of module RelayObjects are proved
against these functions; module BroadcastOrder proves what they promise.
*/
module RoomLog {
  import opened Options

  type MemberId = nat

  const OUTBOUND_BUFFER := 32

  datatype Role = Owner | Plain

  datatype Info = Info(id: MemberId, nick: string, role: Role)

  /** `Direct` and `Welcome` are sent by a connection's own thread, outside the room
      lock; the others are sent by room methods. */
  datatype Msg =
    | Presence(list: seq<Info>)
    | Chat(from: MemberId, nick: string, body: string, ts: int)
    | RoomClosed(reason: string)
    | Frame(data: string)
    | Welcome(list: seq<Info>)
    | Direct(data: string)

  /** One send of a room method: to all but `except`, or to `only`. */
  datatype Entry = Entry(msg: Msg, except: Option<MemberId>, only: Option<MemberId>)

  /** A connection: its queue, whether the queue was closed, whether the connection was
      cut for slowness; and, as history, everything its queue ever accepted, whether it
      lost a message to a full buffer, and where in the log it joined. */
  datatype Seat = Seat(nick: string, waiting: seq<Msg>, shut: bool, cut: bool,
                       accepted: seq<Msg>, lost: bool, joined: nat)

  datatype Departed = Departed(accepted: seq<Msg>, lost: bool, joined: nat, left: nat)

  datatype Room = Room(maxSize: nat, seats: map<MemberId, Seat>, owner: Option<MemberId>, closed: bool,
                       log: seq<Entry>, gone: map<MemberId, Departed>)

  // ----- one queue

  /** `trySend`: a full buffer drops the message. */
  function Queued(s: Seat, m: Msg): Seat {
    if |s.waiting| < OUTBOUND_BUFFER then s.(waiting := s.waiting + [m], accepted := s.accepted + [m]) else s.(lost := true)
  }

  /** `trySend` in a broadcast: a slow consumer is disconnected as well. */
  function Pressed(s: Seat, m: Msg): Seat {
    if |s.waiting| < OUTBOUND_BUFFER then Queued(s, m) else Queued(s, m).(cut := true)
  }

  predicate SeatOk(s: Seat) {
    && !s.shut && |s.waiting| <= OUTBOUND_BUFFER && |s.waiting| <= |s.accepted|
    && s.accepted[|s.accepted| - |s.waiting|..] == s.waiting
  }

  // ----- the room's operations

  predicate Named(list: seq<Info>, i: int, seats: map<MemberId, Seat>, owner: Option<MemberId>)
    requires 0 <= i < |list|
  {
    && list[i].id in seats && list[i].nick == seats[list[i].id].nick
    && list[i].role == (if owner == Some(list[i].id) then Owner else Plain)
  }

  /** `membersInfoLocked`: each member once, in any order. */
  ghost predicate Lists(list: seq<Info>, seats: map<MemberId, Seat>, owner: Option<MemberId>) {
    && (forall i :: 0 <= i < |list| ==> Named(list, i, seats, owner))
    && (forall i, j :: 0 <= i < j < |list| ==> list[i].id != list[j].id)
    && (forall id <- seats :: exists i :: 0 <= i < |list| && list[i].id == id)
  }

  /** `broadcastLocked`; what nobody is there to hear is not logged. */
  function Broadcast(r: Room, m: Msg, except: Option<MemberId>): Room {
    if r.seats == map[] then r
    else r.(seats := map id | id in r.seats :: if except == Some(id) then r.seats[id] else Pressed(r.seats[id], m),
       log := r.log + [Entry(m, except, None)])
  }

  predicate Admits(r: Room) {
    !r.closed && |r.seats| < r.maxSize
  }

  function Add(r: Room, id: MemberId, s: Seat): Room {
    if !Admits(r) then r
    else r.(owner := if r.seats == map[] then Some(id) else r.owner, seats := r.seats[id := s.(joined := |r.log|)])
  }

  function SetOwner(r: Room, id: MemberId): Room {
    if r.closed || id !in r.seats then r else r.(owner := Some(id))
  }

  function ShowPresence(r: Room, list: seq<Info>): Room {
    if r.closed then r else Broadcast(r, Presence(list), None)
  }

  function Relay(r: Room, from: MemberId, body: string, ts: int): Room {
    if r.closed || from !in r.seats then r else Broadcast(r, Chat(from, r.seats[from].nick, body, ts), Some(from))
  }

  function BroadcastExcept(r: Room, except: MemberId, data: string): Room {
    if r.closed then r else Broadcast(r, Frame(data), Some(except))
  }

  function SendTo(r: Room, id: MemberId, data: string): Room {
    if r.closed || id !in r.seats then r
    else r.(seats := r.seats[id := Queued(r.seats[id], Frame(data))], log := r.log + [Entry(Frame(data), None, Some(id))])
  }

  /** A member's place is taken away after `s` is all its queue will ever accept. */
  function Without(r: Room, id: MemberId, s: Seat): Room {
    r.(seats := r.seats - {id}, gone := r.gone[id := Departed(s.accepted, s.lost, s.joined, |r.log|)])
  }

  /** `RemoveMember` on a member that is not the owner: notice, close, presence. */
  predicate CanRemove(r: Room, id: MemberId) {
    !r.closed && id in r.seats && r.owner != Some(id)
  }

  function Notified(r: Room, id: MemberId, reason: string): Room
    requires id in r.seats
  {
    r.(seats := r.seats[id := Queued(r.seats[id], RoomClosed(reason))], log := r.log + [Entry(RoomClosed(reason), None, Some(id))])
  }

  function Remove(r: Room, id: MemberId, reason: string, list: seq<Info>): Room
    requires CanRemove(r, id)
  {
    var r1 := Notified(r, id, reason);
    ShowPresence(Without(r1, id, r1.seats[id]), list)
  }

  /** `Leave` of a member that is not the owner. */
  function Depart(r: Room, id: MemberId, list: seq<Info>): Room
    requires CanRemove(r, id)
  {
    ShowPresence(Without(r, id, r.seats[id]), list)
  }

  /** `Close`: everyone is told, unless silently, and everyone is gone. */
  function Close(r: Room, reason: string): Room {
    if r.closed then r
    else
      var told := map id | id in r.seats :: if reason == "" then r.seats[id] else Queued(r.seats[id], RoomClosed(reason));
      var log := if reason == "" then r.log else r.log + [Entry(RoomClosed(reason), None, None)];
      r.(seats := map[], owner := None, closed := true, log := log,
         gone := r.gone + map id | id in told :: Departed(told[id].accepted, told[id].lost, told[id].joined, |log|))
  }

  // ----- what each member finds in its queue

  /** One more message, `m`, at the end of a queue that had space, and otherwise nothing. */
  predicate GetsOne(before: seq<Msg>, after: seq<Msg>, m: Msg) {
    if |before| < 32 then |after| == |before| + 1 && after[..|before|] == before && after[|before|] == m else after == before
  }

  /** A chat goes to all others, under the sender's nick; a stranger's goes nowhere. Whose
      buffer is full is cut. */
  lemma RelayQueues(r: Room, from: MemberId, body: string, ts: int, id: MemberId)
    requires id in r.seats
    ensures
      var r' := Relay(r, from, body, ts);
      && id in r'.seats
      && (if r.closed || from !in r.seats || id == from then r'.seats[id].waiting == r.seats[id].waiting
          else GetsOne(r.seats[id].waiting, r'.seats[id].waiting, Chat(from := from, nick := r.seats[from].nick, body := body, ts := ts)))
      && (r'.seats[id].cut <==> r.seats[id].cut || (!r.closed && from in r.seats && id != from && |r.seats[id].waiting| >= 32))
  {
  }

  /** A frame goes to all but the sender, who need not be a member any more. */
  lemma BroadcastQueues(r: Room, except: MemberId, data: string, id: MemberId)
    requires id in r.seats
    ensures
      var r' := BroadcastExcept(r, except, data);
      && id in r'.seats
      && (if r.closed || id == except then r'.seats[id].waiting == r.seats[id].waiting
          else GetsOne(r.seats[id].waiting, r'.seats[id].waiting, Frame(data)))
      && (r'.seats[id].cut <==> r.seats[id].cut || (!r.closed && id != except && |r.seats[id].waiting| >= 32))
  {
  }

  /** A frame for one member goes to that one. */
  lemma SendQueues(r: Room, target: MemberId, data: string, id: MemberId)
    requires id in r.seats
    ensures
      var r' := SendTo(r, target, data);
      && id in r'.seats
      && if r.closed || id != target then r'.seats[id].waiting == r.seats[id].waiting
         else GetsOne(r.seats[id].waiting, r'.seats[id].waiting, Frame(data))
  {
  }

  lemma PresenceQueues(r: Room, list: seq<Info>, id: MemberId)
    requires id in r.seats
    ensures
      var r' := ShowPresence(r, list);
      && id in r'.seats
      && if r.closed then r'.seats[id].waiting == r.seats[id].waiting
         else GetsOne(r.seats[id].waiting, r'.seats[id].waiting, Presence(list))
  {
  }

  /** Who is removed is told why, last; the rest are shown who is left. */
  lemma RemoveQueues(r: Room, target: MemberId, reason: string, list: seq<Info>, id: MemberId)
    requires CanRemove(r, target) && id in r.seats
    ensures
      var r' := Remove(r, target, reason, list);
      && target !in r'.seats && target in r'.gone
      && GetsLast(r.seats[target], r'.gone[target].accepted, RoomClosed(reason), true)
      && (id != target ==> id in r'.seats && GetsOne(r.seats[id].waiting, r'.seats[id].waiting, Presence(list)))
  {
    var r1 := Notified(r, target, reason);
    var r2 := Without(r1, target, r1.seats[target]);
    assert target !in r2.seats && target in r2.gone;
    if id != target {
      assert id in r2.seats && r2.seats[id] == r.seats[id];
      PresenceQueues(r2, list, id);
    }
    hide GetsOne;
  }

  /** All that a departed member's queue accepted, with a last word if there was one and
      space for it. */
  predicate GetsLast(s: Seat, accepted: seq<Msg>, m: Msg, told: bool) {
    accepted == s.accepted + if told && |s.waiting| < 32 then [m] else []
  }

  /** Who leaves is told nothing; the rest are shown who is left. */
  lemma DepartQueues(r: Room, x: MemberId, list: seq<Info>, id: MemberId)
    requires CanRemove(r, x) && id in r.seats
    ensures
      var r' := Depart(r, x, list);
      && x !in r'.seats && x in r'.gone && r'.gone[x].accepted == r.seats[x].accepted
      && (id != x ==> id in r'.seats && GetsOne(r.seats[id].waiting, r'.seats[id].waiting, Presence(list)))
  {
    var r2 := Without(r, x, r.seats[x]);
    assert x !in r2.seats && x in r2.gone;
    if id != x {
      assert id in r2.seats && r2.seats[id] == r.seats[id];
      PresenceQueues(r2, list, id);
    }
    hide GetsOne;
  }

  /** Closing tells everyone why, unless silently. */
  lemma CloseQueues(r: Room, reason: string, id: MemberId)
    requires !r.closed && id in r.seats
    ensures
      var r' := Close(r, reason);
      r'.seats == map[] && r'.closed && r'.owner.None? && id in r'.gone && GetsLast(r.seats[id], r'.gone[id].accepted, RoomClosed(reason), reason != "")
  {
  }
}
