/**
The relay's objects as the server holds them (server/internal/relay): a client with
its bounded queue, a room, and the hub with its tables. Each room method is proved
to do to the room's value what the function of the same name in module RoomLog says.
A method body is what one lock-held section, or one whole call made alone, does. How
such sections interleave is the subject of module RelaySystem; module RelayLink shows
that the values here and the rooms there change alike.
*/
module RelayObjects {
  import opened Options
  import L = RoomLog

  type MemberId = L.MemberId
  type RoomId = nat
  type Token = string
  type HsId = nat

  lemma PressedOk(s: L.Seat, m: L.Msg)
    requires L.SeatOk(s)
    ensures L.SeatOk(L.Queued(s, m)) && L.SeatOk(L.Pressed(s, m))
  {
  }

  lemma JoinedOk(s: L.Seat, joined: nat)
    requires L.SeatOk(s)
    ensures L.SeatOk(s.(joined := joined))
  {
  }

  lemma AddIs(r: L.Room, id: MemberId, s: L.Seat, v: L.Room)
    requires L.Admits(r) && v.owner == if r.seats == map[] then Some(id) else r.owner
    requires v == r.(owner := v.owner, seats := r.seats[id := s.(joined := |r.log|)])
    ensures v == L.Add(r, id, s)
  {
  }

  lemma BroadcastIs(r: L.Room, m: L.Msg, except: Option<MemberId>, v: L.Room)
    requires v == r.(seats := v.seats, log := v.log) && v.seats.Keys == r.seats.Keys
    requires v.log == if r.seats == map[] then r.log else r.log + [L.Entry(m, except, None)]
    requires forall i <- r.seats :: v.seats[i] == if except == Some(i) then r.seats[i] else L.Pressed(r.seats[i], m)
    ensures v == L.Broadcast(r, m, except)
  {
    hide L.Pressed;
  }

  /** Every seat outside `todo` is listed, once, and no others. */
  ghost predicate ListedBut(list: seq<L.Info>, seats: map<MemberId, L.Seat>, owner: Option<MemberId>, todo: set<MemberId>) {
    && (forall k :: 0 <= k < |list| ==> list[k].id !in todo && L.Named(list, k, seats, owner))
    && (forall j, k :: 0 <= j < k < |list| ==> list[j].id != list[k].id)
    && forall i <- seats :: i in todo || exists k :: 0 <= k < |list| && list[k].id == i
  }

  lemma ListedMore(list: seq<L.Info>, seats: map<MemberId, L.Seat>, owner: Option<MemberId>, todo: set<MemberId>, info: L.Info)
    requires ListedBut(list, seats, owner, todo) && info.id in todo && info.id in seats
    requires info.nick == seats[info.id].nick && info.role == if owner == Some(info.id) then L.Owner else L.Plain
    ensures ListedBut(list + [info], seats, owner, todo - {info.id})
  {
    var more := list + [info];
    forall k | 0 <= k < |more| ensures more[k].id !in todo - {info.id} && L.Named(more, k, seats, owner) {
      assert k < |list| ==> L.Named(list, k, seats, owner);
    }
    assert more[|list|].id == info.id;
    forall i <- seats | i !in todo - {info.id} ensures exists k :: 0 <= k < |more| && more[k].id == i {
      if i != info.id {
        var k :| 0 <= k < |list| && list[k].id == i;
        assert more[k].id == i;
      }
    }
  }

  class Client {
    const id: MemberId
    const nick: string
    var out: seq<L.Msg>   // the buffered channel
    var shut: bool        // the channel is closed
    var cut: bool         // the connection is closed
    ghost var accepted: seq<L.Msg>
    ghost var lost: bool
    ghost var joined: nat

    ghost function Seat(): L.Seat
      reads this
    {
      L.Seat(nick, out, shut, cut, accepted, lost, joined)
    }

    constructor (id: MemberId, nick: string)
      ensures this.id == id && Seat() == L.Seat(nick, [], false, false, [], false, 0)
    {
      this.id, this.nick := id, nick;
      out, shut, cut := [], false, false;
      accepted, lost, joined := [], false, 0;
    }

    /** A send never blocks; on a closed channel it would panic. */
    method TrySend(m: L.Msg) returns (ok: bool)
      requires !shut
      modifies `out, `accepted, `lost
      ensures Seat() == L.Queued(old(Seat()), m)
      ensures ok == (|old(out)| < 32)
    {
      ok := |out| < L.OUTBOUND_BUFFER;
      if ok {
        out, accepted := out + [m], accepted + [m];
      } else {
        lost := true;
      }
    }

    /** A send in a broadcast: a slow consumer is disconnected. */
    method Press(m: L.Msg)
      requires !shut
      modifies `out, `accepted, `lost, `cut
      ensures Seat() == L.Pressed(old(Seat()), m)
    {
      var ok := TrySend(m);
      if !ok {
        cut := true;
      }
    }

    /** Closing a closed channel would panic. */
    method CloseOut()
      requires !shut
      modifies `shut
      ensures Seat() == old(Seat()).(shut := true)
    {
      shut := true;
    }

    /** A last word, unless silently, and the end. */
    method Dismiss(reason: string)
      requires !shut
      modifies `out, `accepted, `lost, `shut
      ensures Seat() == Told(old(Seat()), reason).(shut := true)
    {
      if reason != "" {
        var _ := TrySend(L.RoomClosed(reason));
      }
      CloseOut();
    }

    /** What the write pump still does once the channel is closed and as long as writes
        succeed: everything queued goes out, in order, then the connection is closed. */
    method WritePump() returns (written: seq<L.Msg>)
      requires shut
      modifies `out, `cut
      ensures written == old(out) && out == [] && cut
    {
      written := [];
      while out != []
        invariant written + out == old(out)
        decreases |out|
      {
        written, out := written + [out[0]], out[1..];
      }
      cut := true;
    }
  }

  ghost function SeatsOf(ms: map<MemberId, Client>): map<MemberId, L.Seat>
    reads ms.Values
  {
    map i | i in ms :: ms[i].Seat()
  }

  /** Every seat outside `todo` was pressed. */
  ghost predicate PressedBut(was: map<MemberId, L.Seat>, seats: map<MemberId, L.Seat>, todo: set<MemberId>, m: L.Msg, except: Option<MemberId>) {
    && seats.Keys == was.Keys && (forall i <- was :: !was[i].shut)
    && forall i <- was :: seats[i] == if i in todo || except == Some(i) then was[i] else L.Pressed(was[i], m)
  }

  lemma PressedMore(was: map<MemberId, L.Seat>, seats: map<MemberId, L.Seat>, todo: set<MemberId>, m: L.Msg, except: Option<MemberId>, i: MemberId)
    requires PressedBut(was, seats, todo, m, except) && i in todo && i in was
    ensures i in seats && seats[i] == was[i] && !was[i].shut
    ensures PressedBut(was, if except == Some(i) then seats else seats[i := L.Pressed(was[i], m)], todo - {i}, m, except)
  {
    hide L.Pressed;
  }

  /** Every seat outside `todo` was told and shut. */
  ghost predicate ShutBut(was: map<MemberId, L.Seat>, seats: map<MemberId, L.Seat>, todo: set<MemberId>, reason: string) {
    && seats.Keys == was.Keys && (forall i <- was :: !was[i].shut)
    && forall i <- was :: seats[i] == if i in todo then was[i] else Told(was[i], reason).(shut := true)
  }

  lemma ShutMore(was: map<MemberId, L.Seat>, seats: map<MemberId, L.Seat>, todo: set<MemberId>, reason: string, i: MemberId)
    requires ShutBut(was, seats, todo, reason) && i in todo && i in was
    ensures i in seats && seats[i] == was[i] && !was[i].shut
    ensures ShutBut(was, seats[i := Told(was[i], reason).(shut := true)], todo - {i}, reason)
  {
    hide Told;
  }

  lemma SeatsAre(ms: map<MemberId, Client>, seats: map<MemberId, L.Seat>)
    requires seats.Keys == ms.Keys && forall i <- ms :: ms[i].Seat() == seats[i]
    ensures SeatsOf(ms) == seats
  {
  }

  /** What the janitor looks at. */
  datatype Usage = Usage(members: map<MemberId, Client>, closed: bool, lastActivity: int)

  class Room {
    const id: RoomId
    const maxSize: nat
    const hub: Hub
    var members: map<MemberId, Client>
    var ownerId: Option<MemberId>
    var closed: bool
    var lastActivity: int
    ghost var log: seq<L.Entry>
    ghost var gone: map<MemberId, L.Departed>

    ghost predicate Valid()
      reads this, members.Values
    {
      forall i <- members :: members[i].id == i && L.SeatOk(members[i].Seat())
    }

    ghost function View(): L.Room
      reads this, members.Values
    {
      L.Room(maxSize, SeatsOf(members), ownerId, closed, log, gone)
    }

    constructor (id: RoomId, maxSize: nat, hub: Hub, now: int)
      ensures this.id == id && this.hub == hub && members == map[] && Valid() && lastActivity == now
      ensures View() == L.Room(maxSize, map[], None, false, [], map[])
    {
      this.id, this.maxSize, this.hub := id, maxSize, hub;
      members, ownerId, closed, lastActivity := map[], None, false, now;
      log, gone := [], map[];
    }

    /** The first member becomes the owner. */
    method Add(c: Client, now: int) returns (role: Option<L.Role>)
      requires Valid() && c.id !in members && L.SeatOk(c.Seat())
      modifies this`members, this`ownerId, this`lastActivity, c`joined
      ensures Valid() && View() == L.Add(old(View()), c.id, old(c.Seat()))
      ensures role.Some? == (!old(closed) && |old(members)| < maxSize)
      ensures role.Some? ==> members == old(members)[c.id := c] && lastActivity == now
      ensures role.Some? ==> role == Some(if ownerId == Some(c.id) then L.Owner else L.Plain)
      ensures role.None? ==> members == old(members) && c.Seat() == old(c.Seat())
    {
      hide L.SeatOk, Client.Seat;
      Seated();
      if closed || |members| >= maxSize {
        return None;
      }
      ghost var before, seat := View(), c.Seat();
      role := Insert(c, now);
      AddIs(before, c.id, seat, View());
      hide L.Add, L.Admits;
    }

    method Insert(c: Client, now: int) returns (role: Option<L.Role>)
      requires Valid() && c.id !in members && L.SeatOk(c.Seat())
      modifies this`members, this`ownerId, this`lastActivity, c`joined
      ensures Valid() && members == old(members)[c.id := c] && lastActivity == now
      ensures View() == old(View()).(owner := ownerId, seats := old(View()).seats[c.id := old(c.Seat()).(joined := |log|)])
      ensures ownerId == if |old(members)| == 0 then Some(c.id) else old(ownerId)
      ensures role == Some(if ownerId == Some(c.id) then L.Owner else L.Plain)
    {
      ghost var was, seat := View().seats, c.Seat();
      JoinedOk(seat, |log|);
      assert was.Keys == members.Keys;
      hide L.SeatOk, Client.Seat, L.Admits, L.Add;
      role := Place(c, now);
      SeatsAre(members, was[c.id := c.Seat()]);
      hide SeatsOf, Valid;
      SeatsValid(was[c.id := c.Seat()]);
    }

    lemma SeatsValid(seats: map<MemberId, L.Seat>)
      requires seats.Keys == members.Keys && forall i <- members :: members[i].id == i && members[i].Seat() == seats[i] && L.SeatOk(seats[i])
      ensures Valid()
    {
    }

    method Place(c: Client, now: int) returns (role: Option<L.Role>)
      requires c.id !in members && forall i <- members :: members[i].id == i
      modifies this`members, this`ownerId, this`lastActivity, c`joined
      ensures members == old(members)[c.id := c] && lastActivity == now && c.Seat() == old(c.Seat()).(joined := |log|)
      ensures forall i <- old(members) :: i in members && members[i] == old(members)[i] && members[i].Seat() == old(members[i].Seat())
      ensures ownerId == if |old(members)| == 0 then Some(c.id) else old(ownerId)
      ensures role == Some(if ownerId == Some(c.id) then L.Owner else L.Plain)
    {
      assert forall i <- members :: members[i] != c && i != c.id;
      if |members| == 0 {
        ownerId := Some(c.id);
      }
      members := members[c.id := c];
      c.joined := |log|;
      lastActivity := now;
      role := Some(if ownerId == Some(c.id) then L.Owner else L.Plain);
    }

    ghost function Facts(): Usage
      reads this
    {
      Usage(members, closed, lastActivity)
    }

    /** The value has a seat for every member. */
    lemma Seated()
      ensures |View().seats| == |members| && (View().seats == map[] <==> |members| == 0)
    {
      assert View().seats.Keys == members.Keys;
      assert |View().seats| == |View().seats.Keys| && |members| == |members.Keys|;
    }

    method SetOwner(target: MemberId, now: int) returns (ok: bool)
      requires Valid()
      modifies this`ownerId, this`lastActivity
      ensures Valid() && View() == L.SetOwner(old(View()), target)
      ensures ok == (!closed && target in members)
      ensures ownerId == if ok then Some(target) else old(ownerId)
    {
      if closed || target !in members {
        return false;
      }
      ownerId, lastActivity := Some(target), now;
      return true;
    }

    /** Every member once, with its role. */
    method MembersInfo() returns (list: seq<L.Info>)
      requires Valid()
      ensures L.Lists(list, View().seats, ownerId)
      ensures forall k :: 0 <= k < |list| ==>
        && list[k].id in members && list[k].nick == members[list[k].id].nick
        && list[k].role == if ownerId == Some(list[k].id) then L.Owner else L.Plain
    {
      list := [];
      ghost var seats := View().seats;
      var todo := members.Keys;
      while todo != {}
        invariant todo <= members.Keys && ListedBut(list, seats, ownerId, todo)
        decreases todo
      {
        hide ListedBut;
        var i :| i in todo;
        var c := members[i];
        list := list + [L.Info(c.id, c.nick, if ownerId == Some(c.id) then L.Owner else L.Plain)];
        ListedMore(list[..|list| - 1], seats, ownerId, todo, list[|list| - 1]);
        assert list[..|list| - 1] + [list[|list| - 1]] == list;
        todo := todo - {i};
      }
    }

    /** To every member but `except`; whoever cannot take it is disconnected. */
    method PressAll(m: L.Msg, except: Option<MemberId>)
      requires Valid()
      modifies this`log, members.Values
      ensures log == if |members| == 0 then old(log) else old(log) + [L.Entry(m, except, None)]
      ensures forall i <- members ::
          members[i].Seat() == if except == Some(i) then old(members[i].Seat()) else L.Pressed(old(members[i].Seat()), m)
    {
      hide L.SeatOk, L.Pressed;
      AllOpen();
      if |members| > 0 {
        log := log + [L.Entry(m, except, None)];
      }
      var ms := members;
      PressEach(ms, m, except);
    }

    method PressEach(ms: map<MemberId, Client>, m: L.Msg, except: Option<MemberId>)
      requires forall i <- ms :: ms[i].id == i && !ms[i].shut
      modifies ms.Values
      ensures forall i <- ms ::
          ms[i].Seat() == if except == Some(i) then old(ms[i].Seat()) else L.Pressed(old(ms[i].Seat()), m)
    {
      ghost var was, seats := SeatsOf(ms), SeatsOf(ms);
      var todo := ms.Keys;
      while todo != {}
        invariant todo <= ms.Keys == was.Keys && seats == SeatsOf(ms) && PressedBut(was, seats, todo, m, except)
        decreases todo
      {
        hide L.Pressed, SeatsOf, PressedBut;
        var i :| i in todo;
        PressedMore(was, seats, todo, m, except, i);
        if except != Some(i) {
          PressOne(ms, i, m);
          seats := seats[i := L.Pressed(was[i], m)];
        }
        todo := todo - {i};
      }
    }

    method PressOne(ms: map<MemberId, Client>, i: MemberId, m: L.Msg)
      requires i in ms && (forall j <- ms :: ms[j].id == j) && !SeatsOf(ms)[i].shut
      modifies ms[i]
      ensures SeatsOf(ms) == old(SeatsOf(ms))[i := L.Pressed(old(SeatsOf(ms))[i], m)]
    {
      ms[i].Press(m);
    }

    method BroadcastLocked(m: L.Msg, except: Option<MemberId>)
      requires Valid()
      modifies this`log, members.Values
      ensures Valid() && View() == L.Broadcast(old(View()), m, except)
    {
      hide L.SeatOk, L.Pressed, L.Broadcast;
      ghost var before := View();
      Seated();
      PressAll(m, except);
      forall i <- members ensures L.SeatOk(members[i].Seat()) {
        PressedOk(before.seats[i], m);
      }
      BroadcastIs(before, m, except, View());
    }

    /** The presence part shared by several methods. */
    method PresenceLocked() returns (list: seq<L.Info>)
      requires Valid() && !closed
      modifies this`log, members.Values
      ensures Valid() && L.Lists(list, old(View()).seats, ownerId) && View() == L.ShowPresence(old(View()), list)
    {
      list := MembersInfo();
      ghost var before := View();
      hide L.Broadcast, L.Lists;
      BroadcastLocked(L.Presence(list), None);
      assert View() == L.ShowPresence(before, list);
    }

    method BroadcastPresence()
      requires Valid()
      modifies this`log, members.Values
      ensures Valid()
      ensures if closed then View() == old(View())
              else exists list :: L.Lists(list, old(View()).seats, ownerId) && View() == L.ShowPresence(old(View()), list)
    {
      if !closed {
        var list := PresenceLocked();
      }
    }

    method BroadcastExcept(except: MemberId, data: string)
      requires Valid()
      modifies this`log, members.Values
      ensures Valid() && View() == L.BroadcastExcept(old(View()), except, data)
    {
      if !closed {
        BroadcastLocked(L.Frame(data), Some(except));
      }
    }

    method SendTo(target: MemberId, data: string)
      requires Valid()
      modifies this`log, members.Values
      ensures Valid() && View() == L.SendTo(old(View()), target, data)
    {
      if !closed && target in members {
        hide L.SeatOk, L.Queued, Client.Seat;
        TellOne(target, L.Frame(data));
        log := log + [L.Entry(L.Frame(data), None, Some(target))];
      }
    }

    method TellOne(target: MemberId, m: L.Msg)
      requires Valid() && target in members
      modifies members[target]
      ensures Valid() && SeatsOf(members) == old(SeatsOf(members))[target := L.Queued(old(SeatsOf(members))[target], m)]
    {
      hide L.SeatOk, L.Queued;
      AllOpen();
      PressedOk(members[target].Seat(), m);
      var _ := members[target].TrySend(m);
    }

    method Relay(from: MemberId, body: string, ts: int, now: int)
      requires Valid()
      modifies this`log, this`lastActivity, members.Values
      ensures Valid() && View() == L.Relay(old(View()), from, body, ts)
    {
      if !closed && from in members {
        ghost var before := View();
        hide L.SeatOk, L.Broadcast;
        lastActivity := now;
        assert View() == before && Valid();
        BroadcastLocked(L.Chat(from, members[from].nick, body, ts), Some(from));
        assert View() == L.Relay(before, from, body, ts);
      }
    }

    /** Takes `target` out, telling it `notice` first, and closes its queue. */
    method Unseat(target: MemberId, notice: Option<string>)
      requires Valid() && target in members
      modifies this`members, this`log, this`gone, members[target]
      ensures Valid() && members == old(members) - {target}
      ensures
        var r := old(View());
        var r1 := if notice.Some? then L.Notified(r, target, notice.value) else r;
        View() == L.Without(r1, target, r1.seats[target]) && old(members)[target].Seat() == r1.seats[target].(shut := true)
    {
      hide L.SeatOk, L.Queued, Client.Seat;
      AllOpen();
      ghost var r := View();
      var c := members[target];
      if notice.Some? {
        TellOne(target, L.RoomClosed(notice.value));
        log := log + [L.Entry(L.RoomClosed(notice.value), None, Some(target))];
      }
      ShutOut(target);
    }

    method ShutOut(target: MemberId)
      requires Valid() && target in members
      modifies this`members, this`gone, members[target]
      ensures Valid() && members == old(members) - {target}
      ensures View() == L.Without(old(View()), target, old(View()).seats[target])
      ensures old(members)[target].Seat() == old(View()).seats[target].(shut := true)
    {
      hide L.SeatOk, Client.Seat;
      AllOpen();
      ghost var seats: map<MemberId, L.Seat> := View().seats;
      var c := members[target];
      members := members - {target};
      SeatsAre(members, seats - {target});
      gone := gone[target := L.Departed(seats[target].accepted, seats[target].lost, seats[target].joined, |log|)];
      c.CloseOut();
      hide SeatsOf;
    }

    /** A member that is not the owner is told, shut out and released; the rest see it go. */
    method RemoveMember(target: MemberId, reason: string, now: int) returns (ok: bool)
      requires Valid()
      modifies this`members, this`lastActivity, this`log, this`gone, members.Values, hub`sessions
      ensures Valid() && ok == (!old(closed) && target in old(members) && old(ownerId) != Some(target))
      ensures !ok ==> View() == old(View()) && hub.sessions == old(hub.sessions)
      ensures ok ==>
        && members == old(members) - {target} && lastActivity == now
        && old(members)[target].Seat() == L.Queued(old(members[target].Seat()), L.RoomClosed(reason)).(shut := true)
        && Dropped(old(hub.sessions), hub.sessions, old(members)[target])
        && exists list :: L.Lists(list, old(View()).seats - {target}, ownerId) && View() == L.Remove(old(View()), target, reason, list)
    {
      if target !in members || closed || ownerId == Some(target) {
        return false;
      }
      hide L.SeatOk, L.Queued, L.Lists, L.Remove;
      ghost var r := View();
      var c := members[target];
      var list := RemoveLocked(target, reason, now);
      hub.ClearSessionByClient(c);
      assert View() == L.Remove(r, target, reason, list);
      ok := true;
    }

    /** The locked section of `RemoveMember`. */
    method RemoveLocked(target: MemberId, reason: string, now: int) returns (list: seq<L.Info>)
      requires Valid() && L.CanRemove(View(), target)
      modifies this`members, this`lastActivity, this`log, this`gone, members.Values
      ensures Valid() && members == old(members) - {target} && lastActivity == now
      ensures L.Lists(list, old(View()).seats - {target}, ownerId) && View() == L.Remove(old(View()), target, reason, list)
      ensures old(members)[target].Seat() == L.Queued(old(members[target].Seat()), L.RoomClosed(reason)).(shut := true)
    {
      hide L.SeatOk, L.Queued, L.ShowPresence, L.Lists;
      ghost var r, r1 := View(), L.Notified(View(), target, reason);
      ghost var c := members[target];
      Unseat(target, Some(reason));
      lastActivity := now;
      assert View() == L.Without(r1, target, r1.seats[target]);
      assert View().seats == r.seats - {target};
      assert c !in members.Values && c.Seat() == r1.seats[target].(shut := true);
      list := PresenceLocked();
    }

    /** The part of `Close` after the lock: every former member is released, told and shut. */
    method ShutAll(ms: map<MemberId, Client>, reason: string)
      requires forall i <- ms :: ms[i].id == i && !ms[i].shut
      modifies ms.Values, hub`sessions
      ensures forall i <- ms :: ms[i].Seat() == Told(old(ms[i].Seat()), reason).(shut := true)
      ensures Cleared(old(hub.sessions), hub.sessions, ms, {})
    {
      ghost var claims, was, seats := hub.sessions, SeatsOf(ms), SeatsOf(ms);
      var todo := ms.Keys;
      while todo != {}
        invariant todo <= ms.Keys == was.Keys && seats == SeatsOf(ms) && ShutBut(was, seats, todo, reason)
        invariant Cleared(claims, hub.sessions, ms, todo)
        decreases todo
      {
        hide Told, Dropped, Cleared, SeatsOf, ShutBut;
        var i :| i in todo;
        ghost var before := hub.sessions;
        ShutMore(was, seats, todo, reason, i);
        ShutOne(ms, i, reason);
        seats := seats[i := Told(was[i], reason).(shut := true)];
        ClearedMore(claims, before, hub.sessions, ms, todo, i);
        todo := todo - {i};
      }
    }

    method ShutOne(ms: map<MemberId, Client>, i: MemberId, reason: string)
      requires i in ms && (forall j <- ms :: ms[j].id == j) && !SeatsOf(ms)[i].shut
      modifies ms[i], hub`sessions
      ensures SeatsOf(ms) == old(SeatsOf(ms))[i := Told(old(SeatsOf(ms))[i], reason).(shut := true)]
      ensures Dropped(old(hub.sessions), hub.sessions, ms[i])
    {
      hub.ClearSessionByClient(ms[i]);
      ms[i].Dismiss(reason);
    }

    method Close(reason: string)
      requires Valid()
      modifies this`members, this`ownerId, this`closed, this`log, this`gone, members.Values
      modifies hub`rooms, hub`invites, hub`sessions
      ensures Valid() && View() == L.Close(old(View()), reason)
      ensures old(closed) ==> members == old(members) && hub.rooms == old(hub.rooms) && hub.invites == old(hub.invites) && hub.sessions == old(hub.sessions)
      ensures !old(closed) ==>
        && members == map[] && hub.rooms == old(hub.rooms) - {id}
        && hub.invites == (map t | t in old(hub.invites) && old(hub.invites)[t].room != id :: old(hub.invites)[t])
        && Cleared(old(hub.sessions), hub.sessions, old(members), {})
        && forall i <- old(members) :: old(members)[i].Seat() == Told(old(members[i].Seat()), reason).(shut := true)
    {
      if closed {
        return;
      }
      Destroy(reason);
    }

    method Destroy(reason: string)
      requires Valid() && !closed
      modifies this`members, this`ownerId, this`closed, this`log, this`gone, members.Values
      modifies hub`rooms, hub`invites, hub`sessions
      ensures Valid() && View() == L.Close(old(View()), reason)
      ensures members == map[] && hub.rooms == old(hub.rooms) - {id}
      ensures hub.invites == map t | t in old(hub.invites) && old(hub.invites)[t].room != id :: old(hub.invites)[t]
      ensures Cleared(old(hub.sessions), hub.sessions, old(members), {})
      ensures forall i <- old(members) :: old(members)[i].Seat() == Told(old(members[i].Seat()), reason).(shut := true)
    {
      hide L.SeatOk, L.Queued, L.Close, Told, Cleared, Client.Seat;
      ghost var r := View();
      AllOpen();
      var ms := Vacate();
      hub.Forget(id);
      ShutAll(ms, reason);
      Record(r, ms, reason);
    }

    /** The locked section of `Close`. */
    method Vacate() returns (ms: map<MemberId, Client>)
      modifies this`members, this`ownerId, this`closed
      ensures ms == old(members) && members == map[] && ownerId.None? && closed
    {
      ms := members;
      members, ownerId, closed := map[], None, true;
    }

    /** The history of a room whose former members `ms` were just dismissed. */
    ghost method Record(r: L.Room, ms: map<MemberId, Client>, reason: string)
      requires members == map[] && ownerId.None? && closed
      requires r.maxSize == maxSize && !r.closed && r.log == log && r.gone == gone && r.seats.Keys == ms.Keys
      requires forall i <- ms :: ms[i].Seat() == Told(r.seats[i], reason).(shut := true)
      modifies this`log, this`gone
      ensures Valid() && View() == L.Close(r, reason)
    {
      hide L.SeatOk, L.Queued, L.Close, Told;
      log := LastWord(log, reason);
      ghost var after := map i | i in ms :: ms[i].Seat();
      gone := gone + map i | i in after :: L.Departed(after[i].accepted, after[i].lost, after[i].joined, |log|);
      ClosedIs(r, reason, after, View());
    }

    lemma AllOpen()
      requires Valid()
      ensures forall i <- members :: !members[i].shut && members[i].id == i
    {
      forall i <- members ensures !members[i].shut {
        assert L.SeatOk(members[i].Seat());
      }
    }

    /** The locked section of `Leave` for a member that is not the owner. */
    method DepartLocked(memberId: MemberId, now: int) returns (list: seq<L.Info>)
      requires Valid() && L.CanRemove(View(), memberId)
      modifies this`members, this`lastActivity, this`log, this`gone, members.Values
      ensures Valid() && members == old(members) - {memberId}
      ensures L.Lists(list, old(View()).seats - {memberId}, ownerId) && View() == L.Depart(old(View()), memberId, list)
    {
      hide L.SeatOk, L.Lists, L.ShowPresence;
      ghost var r := View();
      Unseat(memberId, None);
      lastActivity := now;
      assert View() == L.Without(r, memberId, r.seats[memberId]);
      assert View().seats == r.seats - {memberId};
      list := PresenceLocked();
    }

    /** The owner's leaving destroys the room; leaving twice does nothing. */
    method Leave(memberId: MemberId, now: int)
      requires Valid()
      modifies this`members, this`ownerId, this`closed, this`lastActivity, this`log, this`gone, members.Values
      modifies hub`rooms, hub`invites, hub`sessions
      ensures Valid() && (closed || memberId !in members)
      ensures
        var r := old(View());
        if r.closed || memberId !in r.seats then View() == r
        else if r.owner == Some(memberId) then View() == L.Close(r, OWNER_LEFT)
        else exists list :: L.Lists(list, r.seats - {memberId}, r.owner) && View() == Emptied(L.Depart(r, memberId, list))
    {
      if memberId !in members || closed {
        return;
      }
      hide L.SeatOk, L.Lists, L.Close, L.Depart, Told, Cleared;
      if ownerId == Some(memberId) {
        Close(OWNER_LEFT);
        return;
      }
      ghost var r := View();
      var list := DepartLocked(memberId, now);
      ghost var r1 := View();
      Seated();
      if |members| == 0 {
        Close("");
      }
      assert View() == Emptied(L.Depart(r, memberId, list));
    }
  }

  /** A room that nobody is left in is closed silently. */
  function Emptied(r: L.Room): L.Room {
    if r.seats == map[] then L.Close(r, "") else r
  }

  function LastWord(log: seq<L.Entry>, reason: string): seq<L.Entry> {
    if reason == "" then log else log + [L.Entry(L.RoomClosed(reason), None, None)]
  }

  /** A closed room's value, read off the dismissed clients. */
  lemma ClosedIs(r: L.Room, reason: string, after: map<MemberId, L.Seat>, v: L.Room)
    requires !r.closed && after.Keys == r.seats.Keys && forall i <- after :: after[i] == Told(r.seats[i], reason).(shut := true)
    requires v.maxSize == r.maxSize && v.seats == map[] && v.owner.None? && v.closed && v.log == LastWord(r.log, reason)
    requires v.gone == r.gone + map i | i in after :: L.Departed(after[i].accepted, after[i].lost, after[i].joined, |v.log|)
    ensures v == L.Close(r, reason)
  {
    hide L.Queued;
    var c := L.Close(r, reason);
    assert c.gone.Keys == v.gone.Keys;
    forall i <- c.gone ensures c.gone[i] == v.gone[i] {
      if i in after {
        assert after[i] == Told(r.seats[i], reason).(shut := true);
      }
    }
  }

  const OWNER_LEFT := "owner_left"

  function Told(s: L.Seat, reason: string): L.Seat {
    if reason == "" then s else L.Queued(s, L.RoomClosed(reason))
  }

  // ----- the hub's tables

  /** One claim of `c`, if it has any, is gone. */
  ghost predicate Dropped(t: map<string, Client>, t': map<string, Client>, c: Client) {
    if exists s :: s in t && t[s] == c then exists s :: s in t && t[s] == c && t' == t - {s} else t' == t
  }

  ghost predicate OneEach(t: map<string, Client>) {
    forall r, s :: r in t && s in t && t[r] == t[s] ==> r == s
  }

  /** With one claim per client nothing of `c` is left, and nothing else is lost. */
  lemma DroppedAll(t: map<string, Client>, t': map<string, Client>, c: Client)
    requires OneEach(t) && Dropped(t, t', c)
    ensures OneEach(t') && forall s :: s in t' <==> s in t && t[s] != c
    ensures forall s <- t' :: t'[s] == t[s]
  {
  }

  predicate In(ms: map<MemberId, Client>, c: Client) {
    c.id in ms && ms[c.id] == c
  }

  /** With one claim per client, the claims of all clients of `ms` but those of `todo`
      are gone, and no others. */
  ghost predicate Cleared(t: map<string, Client>, t': map<string, Client>, ms: map<MemberId, Client>, todo: set<MemberId>) {
    OneEach(t) ==>
      && OneEach(t')
      && (forall s :: s in t' <==> s in t && (In(ms, t[s]) ==> t[s].id in todo))
      && forall s <- t' :: t'[s] == t[s]
  }

  lemma ClearedMore(t: map<string, Client>, t1: map<string, Client>, t2: map<string, Client>, ms: map<MemberId, Client>, todo: set<MemberId>, i: MemberId)
    requires Cleared(t, t1, ms, todo) && i in todo && i in ms && ms[i].id == i && Dropped(t1, t2, ms[i])
    ensures Cleared(t, t2, ms, todo - {i})
  {
    if OneEach(t) {
      DroppedAll(t1, t2, ms[i]);
    }
  }

  lemma ClearedNone(t: map<string, Client>, t': map<string, Client>)
    requires OneEach(t) && Cleared(t, t', map[], {})
    ensures t' == t
  {
  }

  datatype Invite = Invite(room: RoomId, expires: int)

  datatype Handshake = Handshake(room: RoomId, joiner: Client, owner: Client)

  /** The other party. */
  function Peer(h: Handshake, c: Client): Option<Client> {
    if h.joiner == c then Some(h.owner) else if h.owner == c then Some(h.joiner) else None
  }

  /** Exactly the two parties have a peer, and each is the other's. */
  lemma PeerOfPeer(h: Handshake, c: Client)
    requires h.joiner != h.owner
    ensures Peer(h, c).Some? <==> c == h.joiner || c == h.owner
    ensures Peer(h, c).Some? ==> Peer(h, c).value != c && Peer(h, Peer(h, c).value) == Some(c)
  {
  }

  function InvitesWithout(invites: map<Token, Invite>, rooms: set<RoomId>): map<Token, Invite> {
    map t | t in invites && invites[t].room !in rooms :: invites[t]
  }

  lemma WithoutTwice(invites: map<Token, Invite>, a: set<RoomId>, b: set<RoomId>)
    ensures InvitesWithout(InvitesWithout(invites, a), b) == InvitesWithout(invites, a + b)
  {
  }

  lemma MinusTwice(rooms: map<RoomId, Room>, a: set<RoomId>, b: set<RoomId>)
    ensures rooms - a - b == rooms - (a + b)
  {
  }

  class Hub {
    const maxSize: nat
    const ttl: int
    const idleTimeout: int
    var rooms: map<RoomId, Room>
    var invites: map<Token, Invite>
    var handshakes: map<HsId, Handshake>
    var sessions: map<string, Client>

    constructor (maxSize: nat, ttl: int, idleTimeout: int)
      ensures rooms == map[] && invites == map[] && handshakes == map[] && sessions == map[]
      ensures this.maxSize == maxSize && this.ttl == ttl && this.idleTimeout == idleTimeout
    {
      this.maxSize, this.ttl, this.idleTimeout := maxSize, ttl, idleTimeout;
      rooms, invites, handshakes, sessions := map[], map[], map[], map[];
    }

    /** An empty session id claims nothing and is never refused. */
    method TryClaimSession(session: string, c: Client) returns (ok: bool)
      modifies `sessions
      ensures ok == (session == "" || session !in old(sessions))
      ensures sessions == if session != "" && ok then old(sessions)[session := c] else old(sessions)
    {
      if session == "" {
        return true;
      }
      if session in sessions {
        return false;
      }
      sessions := sessions[session := c];
      return true;
    }

    /** Compare and delete. */
    method ClearSession(session: string, c: Client)
      modifies `sessions
      ensures sessions == if session != "" && session in old(sessions) && old(sessions)[session] == c then old(sessions) - {session} else old(sessions)
    {
      if session != "" && session in sessions && sessions[session] == c {
        sessions := sessions - {session};
      }
    }

    method ClearSessionByClient(c: Client)
      modifies `sessions
      ensures Dropped(old(sessions), sessions, c)
    {
      var todo := sessions.Keys;
      while todo != {}
        invariant todo <= sessions.Keys && sessions == old(sessions)
        invariant forall s <- sessions :: s in todo || sessions[s] != c
        decreases todo
      {
        var s :| s in todo;
        if sessions[s] == c {
          sessions := sessions - {s};
          return;
        }
        todo := todo - {s};
      }
    }

    method RemoveRoom(id: RoomId)
      modifies `rooms
      ensures rooms == old(rooms) - {id}
    {
      rooms := rooms - {id};
    }

    /** The room can be found no more, and neither can its invites. */
    method Forget(id: RoomId)
      modifies `rooms, `invites
      ensures rooms == old(rooms) - {id}
      ensures invites == map t | t in old(invites) && old(invites)[t].room != id :: old(invites)[t]
    {
      RemoveRoom(id);
      DropInvitesForRoom(id);
    }

    /** Registers a room under an id that the hub does not have. */
    method CreateRoom(id: RoomId, now: int) returns (r: Room)
      requires id !in rooms
      modifies `rooms
      ensures fresh(r) && rooms == old(rooms)[id := r] && r.id == id && r.hub == this
      ensures r.Valid() && r.View() == L.Room(maxSize, map[], None, false, [], map[])
    {
      r := new Room(id, maxSize, this, now);
      rooms := rooms[id := r];
    }

    method CreateInvite(token: Token, room: RoomId, now: int) returns (expires: int)
      modifies `invites
      ensures expires == now + ttl && invites == old(invites)[token := Invite(room, expires)]
    {
      expires := now + ttl;
      invites := invites[token := Invite(room, expires)];
    }

    /** A known token is consumed even when it has expired. */
    method RedeemInvite(token: Token, now: int) returns (room: Option<RoomId>)
      modifies `invites
      ensures invites == old(invites) - {token}
      ensures room == if token in old(invites) && now <= old(invites)[token].expires then Some(old(invites)[token].room) else None
    {
      if token !in invites {
        assert invites - {token} == invites;
        return None;
      }
      var i := invites[token];
      invites := invites - {token};
      if now > i.expires {
        return None;
      }
      return Some(i.room);
    }

    method DropInvitesForRoom(room: RoomId)
      modifies `invites
      ensures invites == map t | t in old(invites) && old(invites)[t].room != room :: old(invites)[t]
    {
      var todo := invites.Keys;
      while todo != {}
        invariant todo <= old(invites).Keys
        invariant invites == map t | t in old(invites) && (t in todo || old(invites)[t].room != room) :: old(invites)[t]
        decreases todo
      {
        var t :| t in todo;
        if invites[t].room == room {
          invites := invites - {t};
        }
        todo := todo - {t};
      }
    }

    method GcInvites(now: int)
      modifies `invites
      ensures invites == map t | t in old(invites) && now <= old(invites)[t].expires :: old(invites)[t]
    {
      var todo := invites.Keys;
      while todo != {}
        invariant todo <= old(invites).Keys
        invariant invites == map t | t in old(invites) && (t in todo || now <= old(invites)[t].expires) :: old(invites)[t]
        decreases todo
      {
        var t :| t in todo;
        if now > invites[t].expires {
          invites := invites - {t};
        }
        todo := todo - {t};
      }
    }

    method NewHandshake(id: HsId, room: RoomId, joiner: Client, owner: Client)
      requires id !in handshakes
      modifies `handshakes
      ensures handshakes == old(handshakes)[id := Handshake(room, joiner, owner)]
    {
      handshakes := handshakes[id := Handshake(room, joiner, owner)];
    }

    method EndHandshake(id: HsId)
      modifies `handshakes
      ensures handshakes == old(handshakes) - {id}
    {
      handshakes := handshakes - {id};
    }

    /** No handshake with `c` for a party remains, and all others do. */
    method EndHandshakesFor(c: Client)
      modifies `handshakes
      ensures handshakes == map h | h in old(handshakes) && Peer(old(handshakes)[h], c).None? :: old(handshakes)[h]
    {
      var todo := handshakes.Keys;
      while todo != {}
        invariant todo <= old(handshakes).Keys
        invariant handshakes == map h | h in old(handshakes) && (h in todo || Peer(old(handshakes)[h], c).None?) :: old(handshakes)[h]
        decreases todo
      {
        var h :| h in todo;
        if handshakes[h].joiner == c || handshakes[h].owner == c {
          handshakes := handshakes - {h};
        }
        todo := todo - {h};
      }
    }

    ghost predicate Registered()
      reads this, rooms.Values
    {
      forall i <- rooms :: rooms[i].id == i && rooms[i].hub == this
    }

    /** What the janitor reaps: a room without members that has been idle too long. */
    predicate Idle(f: Usage, now: int) {
      !f.closed && f.members == map[] && now - f.lastActivity >= idleTimeout
    }

    /** Reaps `r` if it is idle. */
    method Reap(r: Room, now: int)
      requires r.hub == this && OneEach(sessions)
      modifies `rooms, `invites, `sessions, r
      ensures sessions == old(sessions)
      ensures
        var f := old(r.Facts());
        if Idle(f, now) then r.Facts() == f.(closed := true) && rooms == old(rooms) - {r.id} && invites == InvitesWithout(old(invites), {r.id})
        else r.Facts() == f && rooms == old(rooms) && invites == old(invites)
    {
      if |r.members| == 0 && now - r.lastActivity >= idleTimeout {
        hide L.Close, Cleared;
        ghost var before := sessions;
        assert r.members == map[];
        r.Close("idle");
        if sessions != before {
          ClearedNone(before, sessions);
        }
      }
    }

    /** The loop over a snapshot of the rooms, whose usage is `before`. */
    method ReapIdle(now: int, ghost before: map<RoomId, Usage>, ghost idle: set<RoomId>)
      requires Registered() && OneEach(sessions)
      requires before.Keys == rooms.Keys && forall i <- before :: rooms[i].Facts() == before[i]
      requires idle <= rooms.Keys && forall i <- before :: i in idle <==> Idle(before[i], now)
      modifies `rooms, `invites, `sessions, rooms.Values
      ensures rooms == old(rooms) - idle && sessions == old(sessions) && invites == InvitesWithout(old(invites), idle)
      ensures forall i <- before :: old(rooms)[i].Facts() == if i in idle then before[i].(closed := true) else before[i]
    {
      ghost var kept, claims := invites, sessions;
      ghost var done: set<RoomId> := {};
      var snapshot := rooms;
      var todo := rooms.Keys;
      assert InvitesWithout(invites, done) == invites;
      while todo != {}
        invariant todo <= snapshot.Keys && sessions == claims
        invariant forall i <- snapshot :: snapshot[i].id == i && snapshot[i].hub == this
        invariant forall i :: i in done <==> i in idle && i !in todo
        invariant rooms == snapshot - done && invites == InvitesWithout(kept, done)
        invariant forall i <- snapshot :: snapshot[i].Facts() == if i in done then before[i].(closed := true) else before[i]
        decreases todo
      {
        hide InvitesWithout, OneEach, Idle, Room.Facts, Registered;
        var i :| i in todo;
        var r := snapshot[i];
        assert r.Facts() == before[i];
        if i in idle {
          WithoutTwice(kept, done, {i});
          MinusTwice(snapshot, done, {i});
          done := done + {i};
        }
        Reap(r, now);
        todo := todo - {i};
      }
      assert done == idle;
    }

    /** One scan: idle rooms are closed and dropped with their invites, rooms with a
        member are left alone however silent, and expired invites go. */
    method JanitorScan(now: int)
      requires Registered() && OneEach(sessions)
      modifies `rooms, `invites, `sessions, rooms.Values
      ensures
        var before := old(map i | i in rooms :: rooms[i].Facts());
        var idle := set i | i in before && before[i].members == map[] && !before[i].closed && now - before[i].lastActivity >= idleTimeout;
        && rooms == old(rooms) - idle && sessions == old(sessions)
        && invites == (map t | t in old(invites) && now <= old(invites)[t].expires && old(invites)[t].room !in idle :: old(invites)[t])
        && forall i <- before :: old(rooms)[i].Facts() == if i in idle then before[i].(closed := true) else before[i]
    {
      ghost var before := map i | i in rooms :: rooms[i].Facts();
      ghost var idle := set i | i in before && before[i].members == map[] && !before[i].closed && now - before[i].lastActivity >= idleTimeout;
      ReapIdle(now, before, idle);
      GcInvites(now);
    }
  }
}
