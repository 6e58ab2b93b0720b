/**
What the relay does for those it serves, told on its tables alone: who is let in and who
is turned away, what an owner's transfer, kick and invite come to, and what leaving and
closing take out of the tables.
*/
module RelayProgress {
  import opened Options
  import opened RelaySystem

  function Now(w: World, c: ConnId): Pc
    requires c in w.conns
  {
    w.conns[c].pc
  }

  predicate SessionFree(w: World, c: ConnId)
    requires c in w.conns
  {
    w.conns[c].session.None? || w.conns[c].session.value !in w.sessions
  }

  predicate InviteGood(w: World, c: ConnId)
    requires c in w.conns
  {
    w.conns[c].token in w.invites && w.now <= w.invites[w.conns[c].token].expires
  }

  predicate HasPlace(w: World, r: RoomId) {
    r in w.obj && !w.obj[r].closed && |w.obj[r].members| < w.maxSize
  }

  predicate OwnerSits(w: World, r: RoomId) {
    r in w.obj && !w.obj[r].closed && w.obj[r].owner.Some? && w.obj[r].owner.value in w.obj[r].members
  }

  // ----- a joiner, step by step, whatever the others do in between

  /** The claim: passed exactly if the limiter allows it and the session is free. */
  lemma ClaimIff(w: World, c: ConnId, ch: Choice)
    requires Enabled(w, Run(c, ch)) && (Now(w, c).JoinerClaim? || Now(w, c).OwnerClaim?)
    ensures
      var w', k := Apply(w, Run(c, ch)), w.conns[c];
      && c in w'.conns
      && Now(w', c) == (if !ch.Limited? && SessionFree(w, c) then (if k.pc.JoinerClaim? then Redeem else Create) else CloseOut)
      && w'.sessions == (if !ch.Limited? && k.session.Some? && SessionFree(w, c) then w.sessions[k.session.value := c] else w.sessions)
  {
  }

  /** The invite: passed exactly if it is there and in time; it is gone in any case. */
  lemma RedeemIff(w: World, c: ConnId, ch: Choice)
    requires Enabled(w, Run(c, ch)) && Now(w, c).Redeem?
    ensures
      var w', t := Apply(w, Run(c, ch)), w.conns[c].token;
      && c in w'.conns && w'.invites == w.invites - {t}
      && Now(w', c) == if InviteGood(w, c) then Lookup(w.invites[t].room) else CloseOut
  {
  }

  /** The room: passed exactly if the hub still has it. */
  lemma LookupIff(w: World, c: ConnId, ch: Choice)
    requires Enabled(w, Run(c, ch)) && Now(w, c).Lookup?
    ensures
      var w', r := Apply(w, Run(c, ch)), Now(w, c).room;
      c in w'.conns && Now(w', c) == if r in w.rooms then Capacity(r) else CloseOut
  {
  }

  /** The place: passed exactly if the room is open and has one. */
  lemma CapacityIff(w: World, c: ConnId, ch: Choice)
    requires Enabled(w, Run(c, ch)) && Now(w, c).Capacity?
    ensures
      var w', r := Apply(w, Run(c, ch)), Now(w, c).room;
      c in w'.conns && Now(w', c) == if HasPlace(w, r) then FindOwner(r) else CloseOut
  {
  }

  /** The owner: passed exactly if the room is open and has its owner among its members. */
  lemma OwnerIff(w: World, c: ConnId, ch: Choice)
    requires Enabled(w, Run(c, ch)) && Now(w, c).FindOwner?
    ensures
      var w', r := Apply(w, Run(c, ch)), Now(w, c).room;
      c in w'.conns && Now(w', c) == if OwnerSits(w, r) then OpenHs(r, w.obj[r].owner.value) else CloseOut
  {
  }

  /** The handshake with that owner is opened under a new id. */
  lemma HandshakeOpens(w: World, c: ConnId, ch: Choice)
    requires Enabled(w, Run(c, ch)) && Now(w, c).OpenHs?
    ensures
      var w', r, o := Apply(w, Run(c, ch)), Now(w, c).room, Now(w, c).owner;
      && ch.Fresh? && c in w'.conns && Now(w', c) == HsLoop(r, ch.id)
      && w'.handshakes == w.handshakes[ch.id := Handshake(r, c, o)]
  {
  }

  /** What `Add` does to the rooms and to the one it admits. */
  lemma AddIs(w: World, c: ConnId, r: RoomId, next: Pc)
    requires HasPlace(w, r) && c in w.conns
    ensures Admits(w, r)
    ensures
      var w' := Add(w, r, c, next);
      && w'.obj == w.obj[r := w.obj[r].(members := w.obj[r].members + {c}, owner := if w.obj[r].members == {} then Some(c) else w.obj[r].owner)]
      && c in w'.conns && Now(w', c) == next && w'.conns[c].home == Some(r)
  {
  }

  lemma AtIs(w: World, c: ConnId, next: Pc)
    requires c in w.conns
    ensures
      var w' := At(w, c, next);
      w'.obj == w.obj && w'.sessions == w.sessions && w'.invites == w.invites && w'.handshakes == w.handshakes && c in w'.conns && Now(w', c) == next
    ensures forall d <- w.conns :: d in At(w, c, next).conns && At(w, c, next).conns[d].closes == w.conns[d].closes
  {
  }

  /** Entering: admitted exactly if the room is open and still has a place; and then a
      member, in a room that has changed in nothing else. */
  lemma EnterIff(w: World, c: ConnId)
    requires Enabled(w, Run(c, AskEnter)) && Now(w, c).HsLoop?
    ensures
      var w', r, h := Apply(w, Run(c, AskEnter)), Now(w, c).room, Now(w, c).hs;
      && c in w'.conns
      && if HasPlace(w, r) then
           && Now(w', c) == Entered(r, h) && w'.conns[c].home == Some(r)
           && w'.obj == w.obj[r := w.obj[r].(members := w.obj[r].members + {c}, owner := if w.obj[r].members == {} then Some(c) else w.obj[r].owner)]
         else Now(w', c) == NotEntered(h) && w'.obj == w.obj
  {
    var r, h := Now(w, c).room, Now(w, c).hs;
    AtIs(w, c, NotEntered(h));
    if HasPlace(w, r) {
      AddIs(w, c, r, Entered(r, h));
    }
    hide At, Add;
  }

  /** After entering, or failing to, the handshake is over. */
  lemma HandshakeEnds(w: World, c: ConnId, ch: Choice)
    requires Enabled(w, Run(c, ch)) && (Now(w, c).Entered? || Now(w, c).NotEntered?)
    ensures
      var w' := Apply(w, Run(c, ch));
      && c in w'.conns && w'.handshakes == w.handshakes - {Now(w, c).hs}
      && Now(w', c) == if Now(w, c).Entered? then Announce(Now(w, c).room) else CloseOut
  {
  }

  /** The creator's room is new, empty, open and can be found; and its first member becomes
      its owner. */
  lemma RoomMade(w: World, c: ConnId, ch: Choice)
    requires Enabled(w, Run(c, ch)) && Now(w, c).Create?
    ensures
      var w' := Apply(w, Run(c, ch));
      && ch.Fresh? && ch.id !in w.obj && c in w'.conns && Now(w', c) == FirstAdd(ch.id)
      && w'.obj == w.obj[ch.id := Room({}, None, false, c)] && w'.rooms == w.rooms + {ch.id}
  {
  }

  lemma FounderEnters(w: World, c: ConnId, ch: Choice)
    requires Enabled(w, Run(c, ch)) && Now(w, c).FirstAdd?
    ensures
      var w', r := Apply(w, Run(c, ch)), Now(w, c).room;
      && c in w'.conns && Now(w', c) == Loop(r)
      && w'.obj == if HasPlace(w, r) then w.obj[r := w.obj[r].(members := w.obj[r].members + {c}, owner := if w.obj[r].members == {} then Some(c) else w.obj[r].owner)]
                   else w.obj
  {
    var r := Now(w, c).room;
    var w1 := w.(conns := w.conns[c := w.conns[c].(failed := true)]);
    AtIs(w1, c, Loop(r));
    if HasPlace(w, r) {
      AddIs(w, c, r, Loop(r));
    }
    hide At, Add;
  }

  // ----- a joiner, from its claim into the room

  /** Everything that a joiner needs. */
  predicate Welcome(w: World, c: ConnId) {
    && c in w.conns && Now(w, c).JoinerClaim? && SessionFree(w, c) && InviteGood(w, c)
    && var r := w.invites[w.conns[c].token].room;
       r in w.rooms && HasPlace(w, r) && OwnerSits(w, r)
  }

  /** The tables that decide about `c` have not changed. */
  ghost predicate SameRooms(w: World, w': World) {
    w'.obj == w.obj && w'.rooms == w.rooms && w'.maxSize == w.maxSize && w'.usedHs == w.usedHs
  }

  lemma Claims(w: World, c: ConnId)
    requires Welcome(w, c)
    ensures
      var w' := Apply(w, Run(c, Go));
      && Enabled(w, Run(c, Go)) && SameRooms(w, w') && w'.invites == w.invites && w'.now == w.now
      && w'.conns == w.conns[c := w.conns[c].(pc := Redeem)]
  {
  }

  lemma Redeems(w: World, c: ConnId)
    requires c in w.conns && Now(w, c).Redeem? && InviteGood(w, c)
    ensures
      var w' := Apply(w, Run(c, Go));
      Enabled(w, Run(c, Go)) && SameRooms(w, w') && c in w'.conns && Now(w', c) == Lookup(w.invites[w.conns[c].token].room)
  {
  }

  lemma Finds(w: World, c: ConnId, r: RoomId)
    requires c in w.conns && Now(w, c) == Lookup(r) && r in w.rooms
    ensures var w' := Apply(w, Run(c, Go)); Enabled(w, Run(c, Go)) && SameRooms(w, w') && c in w'.conns && Now(w', c) == Capacity(r)
  {
  }

  lemma Fits(w: World, c: ConnId, r: RoomId)
    requires c in w.conns && Now(w, c) == Capacity(r) && HasPlace(w, r)
    ensures var w' := Apply(w, Run(c, Go)); Enabled(w, Run(c, Go)) && SameRooms(w, w') && c in w'.conns && Now(w', c) == FindOwner(r)
  {
  }

  lemma Meets(w: World, c: ConnId, r: RoomId)
    requires c in w.conns && Now(w, c) == FindOwner(r) && OwnerSits(w, r)
    ensures
      var w' := Apply(w, Run(c, Go));
      Enabled(w, Run(c, Go)) && SameRooms(w, w') && c in w'.conns && Now(w', c) == OpenHs(r, w.obj[r].owner.value)
  {
  }

  lemma Opens(w: World, c: ConnId, r: RoomId, o: ConnId, h: HsId)
    requires c in w.conns && Now(w, c) == OpenHs(r, o) && h !in w.usedHs
    ensures
      var w' := Apply(w, Run(c, Fresh(h)));
      && Enabled(w, Run(c, Fresh(h))) && w'.obj == w.obj && w'.maxSize == w.maxSize
      && c in w'.conns && Now(w', c) == HsLoop(r, h) && h in w'.handshakes && w'.handshakes[h] == Handshake(r, c, o)
  {
  }

  lemma Enters(w: World, c: ConnId, r: RoomId, h: HsId)
    requires c in w.conns && Now(w, c) == HsLoop(r, h) && HasPlace(w, r)
    ensures
      var w' := Apply(w, Run(c, AskEnter));
      && Enabled(w, Run(c, AskEnter)) && r in w'.obj && w'.obj[r].members == w.obj[r].members + {c}
      && c in w'.conns && w'.conns[c].home == Some(r)
  {
  }

  function Choices(h: HsId): seq<Choice> {
    [Go, Go, Go, Go, Go, Fresh(h), AskEnter]
  }

  /** `ws` is what `c`'s own steps make of the first of them. */
  ghost predicate OwnSteps(ws: seq<World>, c: ConnId, chs: seq<Choice>) {
    && |ws| == |chs| + 1
    && forall i :: 0 <= i < |chs| ==> Goes(ws[i], Run(c, chs[i]), ws[i + 1])
  }

  ghost predicate Goes(w: World, s: Step, w': World) {
    Enabled(w, s) && w' == Apply(w, s)
  }

  /** A joiner with a free session and a good invite for a room that is open, can be found,
      has a place and has its owner inside is led by its own steps to a handshake with that
      owner, and by entering into the room. */
  lemma LetIn(w: World, c: ConnId, h: HsId) returns (ws: seq<World>)
    requires Welcome(w, c) && h !in w.usedHs
    ensures OwnSteps(ws, c, Choices(h)) && ws[0] == w
    ensures
      var r := w.invites[w.conns[c].token].room;
      && c in ws[6].conns && Now(ws[6], c) == HsLoop(r, h)
      && h in ws[6].handshakes && ws[6].handshakes[h] == Handshake(r, c, w.obj[r].owner.value)
      && r in ws[7].obj && c in ws[7].obj[r].members
  {
    var r := w.invites[w.conns[c].token].room;
    hide Apply, Enabled;
    var w5, first := ToOwner(w, c);
    hide OwnSteps;
    var o := w.obj[r].owner.value;
    Opens(w5, c, r, o, h);
    var w6 := Apply(w5, Run(c, Fresh(h)));
    Enters(w6, c, r, h);
    var w7 := Apply(w6, Run(c, AskEnter));
    ws := first + [w6, w7];
    SevenSteps(first, w5, w6, w7, c, h);
  }

  lemma SevenSteps(first: seq<World>, w5: World, w6: World, w7: World, c: ConnId, h: HsId)
    requires OwnSteps(first, c, [Go, Go, Go, Go, Go]) && first[5] == w5
    requires Goes(w5, Run(c, Fresh(h)), w6) && Goes(w6, Run(c, AskEnter), w7)
    ensures OwnSteps(first + [w6, w7], c, Choices(h))
  {
    hide Goes;
    var ws := first + [w6, w7];
    forall i | 0 <= i < 7 ensures Goes(ws[i], Run(c, Choices(h)[i]), ws[i + 1]) {
      if i < 5 {
        assert Goes(first[i], Run(c, [Go, Go, Go, Go, Go][i]), first[i + 1]);
      }
    }
  }

  lemma ToOwner(w: World, c: ConnId) returns (w5: World, ws: seq<World>)
    requires Welcome(w, c)
    ensures OwnSteps(ws, c, [Go, Go, Go, Go, Go]) && ws[0] == w && ws[5] == w5
    ensures
      var r := w.invites[w.conns[c].token].room;
      SameRooms(w, w5) && c in w5.conns && Now(w5, c) == OpenHs(r, w.obj[r].owner.value)
  {
    var r := w.invites[w.conns[c].token].room;
    hide Apply, Enabled;
    Claims(w, c);
    var w1 := Apply(w, Run(c, Go));
    Redeems(w1, c);
    var w2 := Apply(w1, Run(c, Go));
    var w3, w4;
    w3, w4, w5 := FromRedeemed(w2, c, r);
    ws := [w, w1, w2, w3, w4, w5];
  }

  lemma FromRedeemed(w2: World, c: ConnId, r: RoomId) returns (w3: World, w4: World, w5: World)
    requires c in w2.conns && Now(w2, c) == Lookup(r) && r in w2.rooms && HasPlace(w2, r) && OwnerSits(w2, r)
    ensures Goes(w2, Run(c, Go), w3) && Goes(w3, Run(c, Go), w4) && Goes(w4, Run(c, Go), w5)
    ensures SameRooms(w2, w5) && c in w5.conns && Now(w5, c) == OpenHs(r, w2.obj[r].owner.value)
  {
    hide Apply, Enabled;
    Finds(w2, c, r);
    w3 := Apply(w2, Run(c, Go));
    Fits(w3, c, r);
    w4 := Apply(w3, Run(c, Go));
    Meets(w4, c, r);
    w5 := Apply(w4, Run(c, Go));
  }

  // ----- an owner's requests

  /** What the loop goes on to for a request that only the owner may make. */
  function Asked(ch: Choice, r: RoomId): Option<Pc> {
    match ch
    case WantInvite => Some(InviteOk(r))
    case WantTransfer(t) => Some(TransferOk(r, t))
    case WantKick(t) => Some(KickOk(r, t))
    case WantRekey(t) => Some(RekeyOk(r, t))
    case WantRoster => Some(RosterOk(r))
    case _ => None
  }

  /** The check: passed exactly by the owner, inside its open room. */
  lemma CheckIff(w: World, c: ConnId, r: RoomId, ch: Choice)
    requires c in w.conns && Now(w, c) == Loop(r) && Asked(ch, r).Some?
    ensures Enabled(w, Run(c, ch))
    ensures
      var w' := Apply(w, Run(c, ch));
      c in w'.conns && Now(w', c) == if OwnerSits(w, r) && w.obj[r].owner == Some(c) then Asked(ch, r).value else Loop(r)
  {
    AtIs(w, c, Asked(ch, r).value);
    hide At, Sends;
  }

  /** Ending the loop means leaving. */
  lemma QuitLeaves(w: World, c: ConnId, r: RoomId)
    requires c in w.conns && Now(w, c) == Loop(r)
    ensures Enabled(w, Run(c, Quit))
    ensures c in Apply(w, Run(c, Quit)).conns && Now(Apply(w, Run(c, Quit)), c) == Leave(r)
  {
  }

  /** Past the check, a transfer to a member of the open room makes it the owner; anything
      else changes no room. */
  lemma TransferMoves(w: World, c: ConnId, ch: Choice)
    requires Enabled(w, Run(c, ch)) && Now(w, c).TransferOk?
    ensures
      var w', r, t := Apply(w, Run(c, ch)), Now(w, c).room, Now(w, c).target;
      if r in w.obj && !w.obj[r].closed && t in w.obj[r].members then
        w'.obj == w.obj[r := w.obj[r].(owner := Some(t))] && c in w'.conns && Now(w', c) == Announce(r)
      else w'.obj == w.obj && c in w'.conns && Now(w', c) == Loop(r)
  {
  }

  lemma KickIs(w: World, r: RoomId, t: ConnId)
    requires r in w.obj && t in w.conns
    ensures
      var w' := Kick(w, r, t);
      && w'.obj == w.obj[r := w.obj[r].(members := w.obj[r].members - {t})] && w'.conns.Keys == w.conns.Keys
      && w'.conns[t].closes == w.conns[t].closes + 1
  {
  }

  /** Past the check, a kick takes a member that is not the owner out of the open room and
      closes its queue; anything else changes no room and no queue. */
  lemma KickRemoves(w: World, c: ConnId, ch: Choice)
    requires Enabled(w, Run(c, ch)) && Now(w, c).KickOk? && Now(w, c).target in w.conns
    ensures
      var w', r, t := Apply(w, Run(c, ch)), Now(w, c).room, Now(w, c).target;
      && t in w'.conns && c in w'.conns
      && if r in w.obj && !w.obj[r].closed && t in w.obj[r].members && w.obj[r].owner != Some(t) then
           && w'.obj == w.obj[r := w.obj[r].(members := w.obj[r].members - {t})]
           && w'.conns[t].closes == w.conns[t].closes + 1 && Now(w', c) == Kicked(r, t)
         else w'.obj == w.obj && w'.conns[t].closes == w.conns[t].closes && Now(w', c) == Loop(r)
  {
    var r, t := Now(w, c).room, Now(w, c).target;
    KickStep(w, c, ch, r, t);
    if r in w.obj {
      KickIs(w, r, t);
      if c in Kick(w, r, t).conns {
        AtIs(Kick(w, r, t), c, Kicked(r, t));
      }
    }
    AtIs(w, c, Loop(r));
    hide At, Kick, Apply, Enabled;
  }

  lemma KickStep(w: World, c: ConnId, ch: Choice, r: RoomId, t: ConnId)
    requires Enabled(w, Run(c, ch)) && Now(w, c) == KickOk(r, t) && t in w.conns
    ensures r in w.obj ==> c in Kick(w, r, t).conns
    ensures Apply(w, Run(c, ch)) == if r in w.obj && !w.obj[r].closed && t in w.obj[r].members && w.obj[r].owner != Some(t) then At(Kick(w, r, t), c, Kicked(r, t))
                                    else At(w, c, Loop(r))
  {
    if r in w.obj {
      KickIs(w, r, t);
    }
    hide At, Kick, Sends;
  }

  /** And then releases a session claim of it, if it has one. */
  lemma KickReleases(w: World, c: ConnId, ch: Choice)
    requires Enabled(w, Run(c, ch)) && Now(w, c).Kicked?
    ensures
      var w', t := Apply(w, Run(c, ch)), Now(w, c).target;
      if exists s :: s in w.sessions && w.sessions[s] == t
      then exists s :: s in w.sessions && w.sessions[s] == t && w'.sessions == w.sessions - {s}
      else w'.sessions == w.sessions
  {
  }

  /** An invite is minted under a new token, for this room, until now plus the lifetime. */
  lemma InviteMinted(w: World, c: ConnId, ch: Choice)
    requires Enabled(w, Run(c, ch)) && Now(w, c).InviteOk?
    ensures
      var w', r := Apply(w, Run(c, ch)), Now(w, c).room;
      && ch.Fresh? && ch.id !in w.minted && w'.invites == w.invites[ch.id := Invite(r, w.now + w.ttl)]
      && c in w'.conns && Now(w', c) == Loop(r)
  {
  }

  // ----- leaving

  predicate Inside(w: World, r: RoomId, c: ConnId) {
    r in w.obj && !w.obj[r].closed && c in w.obj[r].members
  }

  /** Leaving: the owner goes on to close the room, and who is no member any more changes
      nothing ... */
  lemma LeaveStays(w: World, c: ConnId, ch: Choice)
    requires Enabled(w, Run(c, ch)) && Now(w, c).Leave?
    requires var r := Now(w, c).room; !Inside(w, r, c) || w.obj[r].owner == Some(c)
    ensures
      var w', r := Apply(w, Run(c, ch)), Now(w, c).room;
      c in w'.conns && w'.obj == w.obj && Now(w', c) == if Inside(w, r, c) then StartClose(r) else Left
  {
    var r := Now(w, c).room;
    LeaveStep(w, c, ch, r);
    AtIs(w, c, Left);
    AtIs(w, c, StartClose(r));
    hide At, Depart, Apply, Enabled;
  }

  /** ... any other member is taken out, and its queue closed. */
  lemma LeaveDeparts(w: World, c: ConnId, ch: Choice)
    requires Enabled(w, Run(c, ch)) && Now(w, c).Leave?
    requires var r := Now(w, c).room; Inside(w, r, c) && w.obj[r].owner != Some(c)
    ensures
      var w', r := Apply(w, Run(c, ch)), Now(w, c).room;
      && c in w'.conns && w'.obj == w.obj[r := w.obj[r].(members := w.obj[r].members - {c})]
      && w'.conns[c].closes == w.conns[c].closes + 1
      && Now(w', c) == if w.obj[r].members == {c} then StartClose(r) else Left
  {
    var r := Now(w, c).room;
    LeaveStep(w, c, ch, r);
    DepartIs(w, r, c);
    assert w.obj[r].members - {c} == {} <==> w.obj[r].members == {c};
    AtIs(Depart(w, r, c), c, if w.obj[r].members - {c} == {} then StartClose(r) else Left);
    hide At, Depart, Apply, Enabled;
  }

  lemma LeaveStep(w: World, c: ConnId, ch: Choice, r: RoomId)
    requires Enabled(w, Run(c, ch)) && Now(w, c) == Leave(r)
    ensures r in w.obj ==> c in Depart(w, r, c).conns
    ensures
      Apply(w, Run(c, ch)) ==
        if r !in w.obj || w.obj[r].closed || c !in w.obj[r].members then At(w, c, Left)
        else if w.obj[r].owner == Some(c) then At(w, c, StartClose(r))
        else At(Depart(w, r, c), c, if w.obj[r].members - {c} == {} then StartClose(r) else Left)
  {
    if r in w.obj {
      DepartIs(w, r, c);
    }
    hide At, Depart, Sends;
  }

  lemma DepartIs(w: World, r: RoomId, c: ConnId)
    requires r in w.obj && c in w.conns
    ensures
      var w' := Depart(w, r, c);
      && w'.obj == w.obj[r := w.obj[r].(members := w.obj[r].members - {c})] && w'.conns.Keys == w.conns.Keys
      && w'.conns[c].closes == w.conns[c].closes + 1
  {
  }

  /** Closing empties and closes the room, and sets out to dismiss whoever was inside. */
  lemma CloseStarts(w: World, c: ConnId, ch: Choice)
    requires Enabled(w, Run(c, ch)) && Now(w, c).StartClose?
    ensures
      var w', r := Apply(w, Run(c, ch)), Now(w, c).room;
      if r in w.obj && !w.obj[r].closed then
        && w'.obj == w.obj[r := w.obj[r].(members := {}, owner := None, closed := true)]
        && w'.closers == w.closers[r := Closer(Unregister, w.obj[r].members, {})]
      else w'.obj == w.obj && w'.closers == w.closers
  {
  }

  /** The rest of a close: the hub forgets the room, and then its invites ... */
  lemma CloseForgets(w: World, r: RoomId, x: ConnId)
    requires Enabled(w, Close(r, x)) && w.closers[r].stage != Drain
    ensures
      var w', k := Apply(w, Close(r, x)), w.closers[r];
      if k.stage == Unregister then w'.rooms == w.rooms - {r} && w'.closers == w.closers[r := k.(stage := DropInvites)]
      else
        && w'.closers == w.closers[r := k.(stage := Drain)]
        && (forall t :: t in w'.invites <==> t in w.invites && w.invites[t].room != r)
        && forall t <- w'.invites :: w'.invites[t] == w.invites[t]
  {
    hide CloseQueue, Sends, ClearByClient;
  }

  /** ... and each former member is released, then its queue closed, one by one, until
      nobody is left. */
  lemma CloseDismisses(w: World, r: RoomId, x: ConnId)
    requires Enabled(w, Close(r, x)) && w.closers[r].stage == Drain
    ensures
      var w', k := Apply(w, Close(r, x)), w.closers[r];
      && (k.todo == {} ==> w'.closers == w.closers - {r})
      && (k.todo != {} && x !in k.cleared ==>
            && w'.closers == w.closers[r := k.(cleared := k.cleared + {x})]
            && (w'.sessions == w.sessions || exists s :: s in w.sessions && w.sessions[s] == x && w'.sessions == w.sessions - {s}))
      && (k.todo != {} && x in k.cleared ==>
            && w'.closers == w.closers[r := k.(todo := k.todo - {x})]
            && x in w.conns && x in w'.conns && w'.conns[x].closes == w.conns[x].closes + 1)
  {
    if w.closers[r].todo != {} {
      DrainStep(w, r, x);
      ReleaseIs(w, x);
      ShutIs(w, x);
      hide Apply, Enabled, CloseQueue, Sends, ClearByClient;
    }
  }

  lemma DrainStep(w: World, r: RoomId, x: ConnId)
    requires Enabled(w, Close(r, x)) && w.closers[r].stage == Drain && w.closers[r].todo != {}
    ensures x in w.conns
    ensures
      var k := w.closers[r];
      Apply(w, Close(r, x)) ==
        if x !in k.cleared then ClearByClient(w, x).(closers := w.closers[r := k.(cleared := k.cleared + {x})])
        else CloseQueue(Sends(w, {x}), x).(closers := w.closers[r := k.(todo := k.todo - {x})])
  {
    hide CloseQueue, Sends, ClearByClient;
  }

  lemma ShutIs(w: World, x: ConnId)
    requires x in w.conns
    ensures
      var w' := CloseQueue(Sends(w, {x}), x);
      x in w'.conns && w'.conns[x].closes == w.conns[x].closes + 1 && w'.closers == w.closers
  {
  }

  lemma ReleaseIs(w: World, x: ConnId)
    ensures
      var w' := ClearByClient(w, x);
      && w'.closers == w.closers
      && (w'.sessions == w.sessions || exists s :: s in w.sessions && w.sessions[s] == x && w'.sessions == w.sessions - {s})
  {
  }

  /** The deferred cleanup: every handshake with the connection for a party goes, and only
      those; then its claim, if it still holds it. */
  lemma CleanupIs(w: World, c: ConnId, ch: Choice)
    requires Enabled(w, Run(c, ch)) && (Now(w, c).DropHs? || Now(w, c).DropClaim?)
    ensures
      var w', s := Apply(w, Run(c, ch)), w.conns[c].session;
      && (Now(w, c).DropHs? ==>
            && (forall h :: h in w'.handshakes <==> h in w.handshakes && w.handshakes[h].joiner != c && w.handshakes[h].owner != c)
            && forall h <- w'.handshakes :: w'.handshakes[h] == w.handshakes[h])
      && (Now(w, c).DropClaim? ==>
            w'.sessions == if s.Some? && s.value in w.sessions && w.sessions[s.value] == c then w.sessions - {s.value} else w.sessions)
  {
  }

  function HomeOf(pc: Pc): RoomId
    requires pc.Announce? || pc.Kicked? || pc.RekeyOk? || pc.RosterOk?
  {
    match pc
    case Announce(r) => r
    case Kicked(r, _) => r
    case RekeyOk(r, _) => r
    case RosterOk(r) => r
  }

  /** Whatever was sent or released, the connection goes back to its loop ... */
  lemma BackToLoop(w: World, c: ConnId, ch: Choice)
    requires Enabled(w, Run(c, ch)) && (Now(w, c).Announce? || Now(w, c).Kicked? || Now(w, c).RekeyOk? || Now(w, c).RosterOk?)
    ensures c in Apply(w, Run(c, ch)).conns && Now(Apply(w, Run(c, ch)), c) == Loop(HomeOf(Now(w, c)))
  {
    hide Sends, ClearByClient;
    ReleaseIs(w, if Now(w, c).Kicked? then Now(w, c).target else c);
    ReleasedConns(w, if Now(w, c).Kicked? then Now(w, c).target else c);
    SentConns(w);
  }

  lemma ReleasedConns(w: World, x: ConnId)
    ensures ClearByClient(w, x).conns == w.conns
  {
  }

  lemma SentConns(w: World)
    ensures forall to :: Sends(w, to).conns == w.conns
  {
  }

  /** ... whoever was turned away has its queue closed ... */
  lemma TurnedAwayCloses(w: World, c: ConnId, ch: Choice)
    requires Enabled(w, Run(c, ch)) && Now(w, c).CloseOut?
    ensures
      var w' := Apply(w, Run(c, ch));
      c in w'.conns && Now(w', c) == Waiting && w'.conns[c].closes == w.conns[c].closes + 1
  {
  }

  /** ... whoever is done with its room goes to the cleanup ... */
  lemma GoesOut(w: World, c: ConnId, ch: Choice)
    requires Enabled(w, Run(c, ch)) && (Now(w, c).Closing? || Now(w, c).Left?)
    ensures
      var w' := Apply(w, Run(c, ch));
      c in w'.conns && Now(w', c) == if Now(w, c).Left? then Waiting else Left
  {
  }

  /** ... and the cleanup gets to the end. */
  lemma GetsToTheEnd(w: World, c: ConnId, ch: Choice)
    requires Enabled(w, Run(c, ch)) && (Now(w, c).Waiting? || Now(w, c).DropHs? || Now(w, c).DropClaim?)
    ensures
      var w' := Apply(w, Run(c, ch));
      c in w'.conns && Now(w', c) == if Now(w, c).Waiting? then DropHs else if Now(w, c).DropHs? then DropClaim else Ended
  {
  }

  /** The janitor's sweep takes out exactly the expired invites, and time passes. */
  lemma JanitorIs(w: World)
    ensures
      var w' := Apply(w, Gc);
      && (forall t :: t in w'.invites <==> t in w.invites && w.now <= w.invites[t].expires)
      && forall t <- w'.invites :: w'.invites[t] == w.invites[t]
    ensures Apply(w, Tick) == w.(now := w.now + 1)
  {
  }
}
