/**
The rooms of the step system (module RelaySystem) and of the rotation network (module
RotationNet) are the room of the objects (module RoomLog, which the class Room is
proved against) seen through its members, owner and openness: every operation does the
same to all of them.
*/
module RelayLink {
  import opened Options
  import L = RoomLog
  import S = RelaySystem
  import N = RotationNet
  import C = RotationClient

  /** What the step system sees of a room. */
  function Seen(r: L.Room, founder: S.ConnId): S.Room {
    S.Room(r.seats.Keys, r.owner, r.closed, founder)
  }

  predicate Matches(w: S.World, q: S.RoomId, r: L.Room) {
    q in w.obj && w.maxSize == r.maxSize && w.obj[q] == Seen(r, w.obj[q].founder)
  }

  lemma SameSize(r: L.Room)
    ensures |r.seats.Keys| == |r.seats|
  {
  }

  lemma AddMatches(w: S.World, q: S.RoomId, r: L.Room, c: S.ConnId, s: L.Seat, next: S.Pc)
    requires Matches(w, q, r) && c in w.conns
    ensures S.Admits(w, q) <==> L.Admits(r)
    ensures L.Admits(r) ==> Matches(S.Add(w, q, c, next), q, L.Add(r, c, s))
  {
    SameSize(r);
    assert r.seats[c := s.(joined := |r.log|)].Keys == r.seats.Keys + {c};
  }

  lemma TransferMatches(w: S.World, q: S.RoomId, r: L.Room, t: S.ConnId)
    requires Matches(w, q, r)
    ensures
      var o := w.obj[q];
      Matches(if o.closed || t !in o.members then w else w.(obj := w.obj[q := o.(owner := Some(t))]), q, L.SetOwner(r, t))
  {
  }

  lemma BroadcastMatches(w: S.World, q: S.RoomId, r: L.Room, m: L.Msg, except: Option<L.MemberId>)
    requires Matches(w, q, r)
    ensures Matches(w, q, L.Broadcast(r, m, except))
  {
    assert L.Broadcast(r, m, except).seats.Keys == r.seats.Keys;
  }

  lemma WithoutMatches(w: S.World, w': S.World, q: S.RoomId, r: L.Room, t: S.ConnId, s: L.Seat)
    requires Matches(w, q, r)
    requires w'.maxSize == w.maxSize && w'.obj == w.obj[q := w.obj[q].(members := w.obj[q].members - {t})]
    ensures Matches(w', q, L.Without(r, t, s))
  {
    assert L.Without(r, t, s).seats.Keys == r.seats.Keys - {t};
  }

  /** A kick: allowed alike, and the same member is gone. */
  lemma KickMatches(w: S.World, q: S.RoomId, r: L.Room, t: S.ConnId, reason: string, list: seq<L.Info>)
    requires Matches(w, q, r) && t in w.conns
    ensures L.CanRemove(r, t) <==> !w.obj[q].closed && t in w.obj[q].members && w.obj[q].owner != Some(t)
    ensures L.CanRemove(r, t) ==> Matches(S.Kick(w, q, t), q, L.Remove(r, t, reason, list))
  {
    if L.CanRemove(r, t) {
      var r1 := L.Notified(r, t, reason);
      assert r1.seats.Keys == r.seats.Keys;
      WithoutMatches(w, S.Kick(w, q, t), q, r1, t, r1.seats[t]);
      BroadcastMatches(S.Kick(w, q, t), q, L.Without(r1, t, r1.seats[t]), L.Presence(list), None);
    }
  }

  lemma DepartMatches(w: S.World, q: S.RoomId, r: L.Room, c: S.ConnId, list: seq<L.Info>)
    requires Matches(w, q, r) && c in w.conns && L.CanRemove(r, c)
    ensures Matches(S.Depart(w, q, c), q, L.Depart(r, c, list))
  {
    WithoutMatches(w, S.Depart(w, q, c), q, r, c, r.seats[c]);
    BroadcastMatches(S.Depart(w, q, c), q, L.Without(r, c, r.seats[c]), L.Presence(list), None);
  }

  /** The locked section of a close empties both; whoever was seated is what the rest of
      the close still has to dismiss. */
  lemma CloseMatches(w: S.World, q: S.RoomId, r: L.Room, reason: string)
    requires Matches(w, q, r)
    ensures Matches(S.MarkClosed(w, q), q, L.Close(r, reason))
    ensures !r.closed ==> q in S.MarkClosed(w, q).closers && S.MarkClosed(w, q).closers[q].todo == r.seats.Keys
  {
    assert r.closed || L.Close(r, reason).seats.Keys == {};
  }

  // ----- the rotation network's room

  predicate NetMatches(n: N.Net, r: L.Room) {
    && n.maxSize == r.maxSize && n.room.open == !r.closed && n.room.members == r.seats.Keys
    && (!r.closed ==> r.owner == Some(n.room.owner))
  }

  lemma EnterMatches(n: N.Net, r: L.Room, x: C.Id, hs: C.HsId, s: L.Seat, lost: set<C.Id>)
    requires NetMatches(n, r) && x in n.joining && n.joining[x] == hs
    ensures NetMatches(N.Enter(n, x, hs, lost), L.Add(r, x, s))
  {
    SameSize(r);
    assert r.seats[x := s.(joined := |r.log|)].Keys == r.seats.Keys + {x};
  }

  /** The owner's transfer and kick. */
  lemma OwnerActsAlike(n: N.Net, r: L.Room, x: C.Id, t: C.Id, list: seq<C.MemberInfo>, infos: seq<L.Info>, reason: string, lost: set<C.Id>)
    requires NetMatches(n, r) && n.room.open && n.room.owner == x && x in n.room.members
    ensures NetMatches(N.Process(n, x, C.UpTransfer(t), list, lost), L.SetOwner(r, t))
    ensures NetMatches(N.Process(n, x, C.UpKick(t), list, lost), if L.CanRemove(r, t) then L.Remove(r, t, reason, infos) else r)
  {
    if L.CanRemove(r, t) {
      var r1 := L.Notified(r, t, reason);
      assert r1.seats.Keys == r.seats.Keys;
      var r2 := L.Without(r1, t, r1.seats[t]);
      assert r2.seats.Keys == r.seats.Keys - {t};
      assert L.Broadcast(r2, L.Presence(infos), None).seats.Keys == r2.seats.Keys;
    }
  }

  lemma LeaveMatches(n: N.Net, r: L.Room, x: C.Id, list: seq<C.MemberInfo>, infos: seq<L.Info>, reason: string, lost: set<C.Id>)
    requires NetMatches(n, r)
    ensures NetMatches(N.Leave(n, x, list, lost),
                       if r.closed || x !in r.seats then r else if r.owner == Some(x) then L.Close(r, reason) else L.Depart(r, x, infos))
  {
    if L.CanRemove(r, x) {
      var r1 := L.Without(r, x, r.seats[x]);
      assert r1.seats.Keys == r.seats.Keys - {x};
      assert L.Broadcast(r1, L.Presence(infos), None).seats.Keys == r1.seats.Keys;
    }
  }
}
