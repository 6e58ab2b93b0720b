/**
What every step of the relay keeps, in every interleaving, and what follows:
one room per session, a stable owner, queues closed exactly once, admission only
by a redeemed invite, and complete teardown.
*/
module RelayInvariants {
  import opened Options
  import opened RelaySystem

  // ----- the invariant

  /** Past the claim and not yet in a room. */
  predicate Claimed(pc: Pc) {
    IsJoining(pc) && !pc.OwnerClaim? && !pc.JoinerClaim? && !pc.NotEntered? && !pc.CloseOut?
  }

  /** The room a connection has redeemed an invite for. */
  function Redeeming(pc: Pc): Option<RoomId> {
    match pc
    case Lookup(r) => Some(r)
    case Capacity(r) => Some(r)
    case FindOwner(r) => Some(r)
    case OpenHs(r, _) => Some(r)
    case HsLoop(r, _) => Some(r)
    case _ => None
  }

  /** The room whose owner check has passed, and whose action is still to come. */
  function Checked(pc: Pc): Option<RoomId> {
    match pc
    case InviteOk(r) => Some(r)
    case TransferOk(r, _) => Some(r)
    case KickOk(r, _) => Some(r)
    case RekeyOk(r, _) => Some(r)
    case RosterOk(r) => Some(r)
    case _ => None
  }

  predicate IsOver(pc: Pc) {
    !IsJoining(pc) && Inside(pc).None?
  }

  predicate Member(w: World, r: RoomId, c: ConnId) {
    r in w.obj && c in w.obj[r].members
  }

  predicate ToClose(w: World, r: RoomId, c: ConnId) {
    r in w.closers && c in w.closers[r].todo
  }

  predicate Founded(w: World, r: RoomId) {
    r in w.obj && w.obj[r].founder in w.conns && w.conns[w.obj[r].founder].pc != FirstAdd(r)
  }

  predicate RedeemedFor(w: World, c: ConnId, r: RoomId)
    requires c in w.conns
  {
    var t := w.conns[c].token;
    && t in w.redeemed && t in w.minted && w.redeemed[t].0 == c
    && w.minted[t].room == r && w.redeemed[t].1 <= w.minted[t].expires
  }

  /** The queue of an admitted connection is open while it is a member or is about
      to be closed by a `Close`, and has been closed once otherwise. */
  predicate Balanced(w: World, r: RoomId, c: ConnId)
    requires c in w.conns
  {
    var n := w.conns[c].closes;
    || (Member(w, r, c) && !ToClose(w, r, c) && n == 0)
    || (!Member(w, r, c) && ToClose(w, r, c) && n == 0)
    || (!Member(w, r, c) && !ToClose(w, r, c) && n == 1)
  }

  ghost predicate ConnOk(w: World, c: ConnId)
    requires c in w.conns
  {
    var k := w.conns[c];
    && (IsJoining(k.pc) ==> k.home.None? && k.closes == 0 && !k.failed)
    && (Inside(k.pc).Some? ==> if k.failed then k.home.None? && k.closes == 0 else k.home == Inside(k.pc))
    && (Inside(k.pc).Some? ==> Founded(w, Inside(k.pc).value))
    && (k.home.Some? ==> k.home.value in w.obj && !k.failed && Balanced(w, k.home.value, c))
    && (IsOver(k.pc) ==> if k.home.Some? then !Member(w, k.home.value, c) else k.closes == (if k.failed then 0 else 1))
  }

  ghost predicate PcOk(w: World, c: ConnId)
    requires c in w.conns
  {
    var k := w.conns[c];
    && (Claimed(k.pc) && k.session.Some? ==> k.session.value in w.sessions && w.sessions[k.session.value] == c)
    && (k.pc.FirstAdd? ==> k.pc.room in w.obj && w.obj[k.pc.room].founder == c && w.obj[k.pc.room].members == {})
    && (Checked(k.pc).Some? ==>
          var r := Checked(k.pc).value; r in w.obj && (w.obj[r].closed || (w.obj[r].owner == Some(c) && Member(w, r, c))))
    && (k.pc.Kicked? ==> var t := k.pc.target; t in w.conns && w.conns[t].home == Some(k.pc.room) && w.conns[t].closes == 1)
    && (k.pc.OwnerClaim? || k.pc.Create? || k.pc.FirstAdd? ==> k.founds)
    && (k.pc.JoinerClaim? || k.pc.Redeem? || Redeeming(k.pc).Some? ==> !k.founds)
    && (Redeeming(k.pc).Some? ==> RedeemedFor(w, c, Redeeming(k.pc).value))
    && (k.home.Some? && !k.founds ==> RedeemedFor(w, c, k.home.value))
  }

  ghost predicate RoomOk(w: World, r: RoomId)
    requires r in w.obj
  {
    var o := w.obj[r];
    && |o.members| <= w.maxSize
    && o.founder in w.conns
    && (o.closed ==> o.members == {} && o.owner.None?)
    && (!o.closed ==> r !in w.closers)
    && (!o.closed && o.members != {} ==> o.owner.Some? && o.owner.value in o.members)
    && (!o.closed && o.members == {} ==> w.conns[o.founder].pc == FirstAdd(r))
    && (forall c <- o.members ::
          && c in w.conns && w.conns[c].home == Some(r) && Inside(w.conns[c].pc).Some?
          && (w.conns[c].session.Some? ==> w.conns[c].session.value in w.sessions && w.sessions[w.conns[c].session.value] == c))
  }

  ghost predicate CloserOk(w: World, r: RoomId)
    requires r in w.closers
  {
    var k := w.closers[r];
    && r in w.obj && w.obj[r].closed
    && (k.stage != Unregister ==> r !in w.rooms)
    && forall x <- k.todo :: x in w.conns && w.conns[x].home == Some(r) && w.conns[x].closes == 0
  }

  ghost predicate ClaimOk(w: World, s: Sid)
    requires s in w.sessions
  {
    var c := w.sessions[s];
    && c in w.conns && w.conns[c].session == Some(s)
    && !w.conns[c].pc.OwnerClaim? && !w.conns[c].pc.JoinerClaim? && !w.conns[c].pc.Ended?
  }

  ghost predicate HandshakeOk(w: World, h: HsId)
    requires h in w.handshakes
  {
    var j := w.handshakes[h].joiner;
    && h in w.usedHs && j in w.conns
    && match w.conns[j].pc
       case HsLoop(_, g) => g == h
       case Entered(_, g) => g == h
       case NotEntered(g) => g == h
       case _ => false
  }

  ghost predicate InvitesOk(w: World) {
    && (forall t <- w.invites :: t in w.minted && w.minted[t] == w.invites[t] && t !in w.redeemed)
    && (forall t <- w.redeemed :: t in w.minted)
    && (forall t <- w.minted :: Founded(w, w.minted[t].room))
  }

  ghost predicate ConnsOk(w: World) {
    forall c <- w.conns {:trigger ConnOk(w, c)} {:trigger PcOk(w, c)} :: ConnOk(w, c) && PcOk(w, c)
  }

  ghost predicate ObjsOk(w: World) {
    forall r <- w.obj {:trigger RoomOk(w, r)} :: RoomOk(w, r)
  }

  ghost predicate TablesOk(w: World) {
    && (forall r <- w.closers {:trigger CloserOk(w, r)} :: CloserOk(w, r))
    && (forall r <- w.rooms :: r in w.obj && (w.obj[r].closed ==> r in w.closers && w.closers[r].stage == Unregister))
    && (forall s <- w.sessions {:trigger ClaimOk(w, s)} :: ClaimOk(w, s))
    && (forall h <- w.handshakes {:trigger HandshakeOk(w, h)} :: HandshakeOk(w, h))
  }

  ghost predicate Inv(w: World) {
    w.maxSize >= 1 && !w.sentToClosed && ConnsOk(w) && ObjsOk(w) && TablesOk(w) && InvitesOk(w)
  }

  // ----- what a step may do to the others

  /** What no step takes back. */
  ghost predicate Grows(w: World, w': World) {
    && w'.maxSize == w.maxSize
    && (forall c <- w.conns :: c in w'.conns && Same(w.conns[c], w'.conns[c]))
    && (forall r <- w.obj :: r in w'.obj && w'.obj[r].founder == w.obj[r].founder && (w.obj[r].closed ==> w'.obj[r].closed))
    && (forall t <- w.minted :: t in w'.minted && w'.minted[t] == w.minted[t])
    && (forall t <- w.redeemed :: t in w'.redeemed && w'.redeemed[t] == w.redeemed[t])
    && (forall r <- w.obj :: Founded(w, r) ==> Founded(w', r))
  }

  predicate Same(k: Conn, k': Conn) {
    && k'.session == k.session && k'.token == k.token && k'.founds == k.founds
    && (k.home.Some? ==> k'.home == k.home && (k.closes == 1 ==> k'.closes == 1))
  }

  predicate HoldsClaim(w: World, c: ConnId)
    requires c in w.conns
  {
    w.conns[c].session.Some? ==> w.conns[c].session.value in w.sessions && w.sessions[w.conns[c].session.value] == c
  }

  /** Bystander `d` may lose its membership or see its queue closed; nothing else
      of it changes, and while it needs its claim it keeps it. */
  ghost predicate Bystander(w: World, w': World, d: ConnId)
    requires d in w.conns && d in w'.conns
  {
    var k := w.conns[d];
    && w'.conns[d] == k.(closes := w'.conns[d].closes)
    && (if k.home.Some? then k.home.value in w'.obj && Balanced(w', k.home.value, d) && (Member(w', k.home.value, d) ==> Member(w, k.home.value, d))
        else w'.conns[d].closes == k.closes)
    && (Claimed(k.pc) && HoldsClaim(w, d) ==> HoldsClaim(w', d))
    && (k.pc.FirstAdd? && k.pc.room in w.obj ==> k.pc.room in w'.obj && w'.obj[k.pc.room].members == w.obj[k.pc.room].members)
    && (Checked(k.pc).Some? ==>
          var r := Checked(k.pc).value; r in w.obj && r in w'.obj && !w'.obj[r].closed && w.obj[r].owner == Some(d) && Member(w, r, d) ==>
            w'.obj[r].owner == Some(d) && Member(w', r, d))
  }

  lemma BystanderOk(w: World, w': World, d: ConnId)
    requires d in w.conns && d in w'.conns && ConnOk(w, d) && PcOk(w, d) && Grows(w, w') && Bystander(w, w', d)
    ensures ConnOk(w', d) && PcOk(w', d)
  {
  }

  ghost predicate OthersBystand(w: World, w': World, c: ConnId) {
    forall d <- w'.conns :: d != c ==> d in w.conns && Bystander(w, w', d)
  }

  lemma ConnsKeep(w: World, w': World, c: ConnId)
    requires ConnsOk(w) && Grows(w, w') && OthersBystand(w, w', c)
    requires c in w'.conns ==> ConnOk(w', c) && PcOk(w', c)
    ensures ConnsOk(w')
  {
    forall d <- w'.conns | d != c ensures ConnOk(w', d) && PcOk(w', d) {
      BystanderOk(w, w', d);
    }
  }

  /** A room whose members, founder and tables a step leaves as it needs them. */
  ghost predicate RoomKept(w: World, w': World, r: RoomId)
    requires r in w.obj
  {
    && r in w'.obj && w'.obj[r] == w.obj[r] && (r in w'.closers ==> r in w.closers)
    && w.obj[r].founder in w.conns && w.obj[r].founder in w'.conns
    && (!w.obj[r].closed && w.obj[r].members == {} && w.conns[w.obj[r].founder].pc == FirstAdd(r) ==> w'.conns[w.obj[r].founder].pc == FirstAdd(r))
    && (forall c <- w.obj[r].members :: c in w'.conns && w'.conns[c].home == Some(r) && Inside(w'.conns[c].pc).Some? && HoldsClaim(w', c))
  }

  lemma RoomKeeps(w: World, w': World, r: RoomId)
    requires r in w.obj && w'.maxSize == w.maxSize && w.obj[r].founder in w.conns && RoomOk(w, r) && RoomKept(w, w', r)
    ensures RoomOk(w', r)
  {
  }

  lemma RoomsKeep(w: World, w': World, touched: set<RoomId>)
    requires ObjsOk(w) && w'.maxSize == w.maxSize
    requires forall r <- w'.obj :: if r in touched then RoomOk(w', r) else r in w.obj && RoomKept(w, w', r)
    ensures ObjsOk(w')
  {
    forall r <- w'.obj | r !in touched ensures RoomOk(w', r) {
      RoomKeeps(w, w', r);
    }
  }

  /** An admitted connection that is no longer a member does not need its claim. */
  predicate Spent(w: World, d: ConnId) {
    d in w.conns && w.conns[d].home.Some? && !Member(w, w.conns[d].home.value, d)
  }

  /** `c` moves to `pc`; rooms and closers stay, and nobody else loses a claim it needs. */
  ghost predicate Moves(w: World, w': World, c: ConnId, pc: Pc)
    requires c in w.conns
  {
    && w'.maxSize == w.maxSize && w'.obj == w.obj && w'.closers == w.closers && w'.rooms == w.rooms
    && c in w'.conns && w'.conns == w.conns[c := w.conns[c].(pc := pc, closes := w'.conns[c].closes)]
    && (w.conns[c].home.Some? ==> w'.conns[c].closes == w.conns[c].closes)
    && (forall s <- w.sessions :: (s in w'.sessions && w'.sessions[s] == w.sessions[s]) || w.sessions[s] == c || Spent(w, w.sessions[s]))
    && (forall t <- w.minted :: t in w'.minted && w'.minted[t] == w.minted[t])
    && (forall t <- w.redeemed :: t in w'.redeemed && w'.redeemed[t] == w.redeemed[t])
  }

  /** What `c` may become without its room noticing. */
  ghost predicate StaysMember(w: World, w': World, c: ConnId, pc: Pc)
    requires c in w'.conns
  {
    forall r <- w.obj :: c in w.obj[r].members ==> Inside(pc).Some? && HoldsClaim(w', c)
  }

  function HandshakeOf(pc: Pc): Option<HsId> {
    match pc
    case HsLoop(_, h) => Some(h)
    case Entered(_, h) => Some(h)
    case NotEntered(h) => Some(h)
    case _ => None
  }

  /** A move may drop claims and handshakes, and add some of `c`'s own. */
  ghost predicate TablesMove(w: World, w': World, c: ConnId, pc: Pc)
    requires c in w.conns
  {
    && w.usedHs <= w'.usedHs
    && (forall s <- w'.sessions :: (s in w.sessions && w'.sessions[s] == w.sessions[s]) || (w'.sessions[s] == c && w.conns[c].session == Some(s)))
    && (forall s <- w'.sessions :: w'.sessions[s] == c ==> !pc.OwnerClaim? && !pc.JoinerClaim? && !pc.Ended?)
    && (forall h <- w'.handshakes :: h in w'.usedHs && ((h in w.handshakes && w'.handshakes[h] == w.handshakes[h]) || w'.handshakes[h].joiner == c))
    && (forall h <- w'.handshakes :: w'.handshakes[h].joiner == c ==> HandshakeOf(pc) == Some(h))
  }

  /** Tokens appear with a fresh minting and disappear by redemption, expiry or closing. */
  ghost predicate InvitesMove(w: World, w': World) {
    && (forall t <- w'.minted :: (t in w.minted && w'.minted[t] == w.minted[t]) || (t !in w.minted && t !in w'.redeemed && Founded(w, w'.minted[t].room)))
    && (forall t <- w'.redeemed :: t in w.redeemed || t in w.minted)
    && (forall t <- w'.invites :: t !in w'.redeemed &&
          ((t in w.invites && w'.invites[t] == w.invites[t]) || (t !in w.minted && t in w'.minted && w'.invites[t] == w'.minted[t])))
  }

  /** The owner's own connection has taken its transfer step, to a member. */
  predicate HandedOver(w: World, w': World, r: RoomId)
    requires r in w.obj && r in w'.obj
  {
    && w.obj[r].owner.Some?
    && var c := w.obj[r].owner.value;
    && c in w.conns && c in w'.conns && w.conns[c].pc.TransferOk? && w.conns[c].pc.room == r && w'.conns[c].pc == Announce(r)
    && w'.obj[r].owner == Some(w.conns[c].pc.target) && w.conns[c].pc.target in w.obj[r].members
  }

  predicate OwnerKept(w: World, w': World, r: RoomId)
    requires r in w.obj
  {
    !w.obj[r].closed && w.obj[r].members != {} ==>
      r in w'.obj && (w'.obj[r].closed || w'.obj[r].owner == w.obj[r].owner || HandedOver(w, w', r))
  }

  ghost predicate OwnersKept(w: World, w': World) {
    forall r <- w.obj {:trigger OwnerKept(w, w', r)} :: OwnerKept(w, w', r)
  }

  lemma SameOwners(w: World, w': World)
    requires w'.obj == w.obj
    ensures OwnersKept(w, w')
  {
  }

  /** What every step does: it keeps the invariant, takes nothing back, brings no token
      back, and moves no ownership but by its owner's transfer. */
  ghost predicate Kept(w: World, w': World) {
    Inv(w') && Grows(w, w') && InvitesMove(w, w') && OwnersKept(w, w')
  }

  lemma Stutters(w: World)
    requires Inv(w)
    ensures Kept(w, w)
  {
    SameInvites(w, w);
    SameOwners(w, w);
  }

  lemma MoveGrows(w: World, w': World, c: ConnId, pc: Pc)
    requires ConnsOk(w) && c in w.conns && Moves(w, w', c, pc) && !w.conns[c].pc.FirstAdd? && !pc.FirstAdd?
    ensures Grows(w, w')
  {
    assert ConnOk(w, c);
    hide ConnOk, PcOk;
  }

  lemma MoveBystand(w: World, w': World, c: ConnId, pc: Pc)
    requires ConnsOk(w) && c in w.conns && Moves(w, w', c, pc)
    ensures OthersBystand(w, w', c)
  {
    forall d <- w'.conns | d != c ensures d in w.conns && Bystander(w, w', d) {
      assert ConnOk(w, d);
      hide ConnsOk;
    }
  }

  lemma MoveRooms(w: World, w': World, c: ConnId, pc: Pc)
    requires ObjsOk(w) && c in w.conns && Moves(w, w', c, pc) && StaysMember(w, w', c, pc)
    requires !w.conns[c].pc.FirstAdd?
    ensures ObjsOk(w')
  {
    forall r <- w'.obj ensures RoomKept(w, w', r) {
      assert RoomOk(w, r);
      hide ObjsOk;
    }
    RoomsKeep(w, w', {});
  }

  lemma MoveTables(w: World, w': World, c: ConnId, pc: Pc)
    requires TablesOk(w) && c in w.conns && Moves(w, w', c, pc) && TablesMove(w, w', c, pc)
    ensures TablesOk(w')
  {
    forall r <- w'.closers ensures CloserOk(w', r) {
      assert CloserOk(w, r);
    }
    forall s <- w'.sessions ensures ClaimOk(w', s) {
      assert s in w.sessions ==> ClaimOk(w, s);
    }
    forall h <- w'.handshakes ensures HandshakeOk(w', h) {
      assert h in w.handshakes ==> HandshakeOk(w, h);
    }
  }

  lemma InvitesKeep(w: World, w': World)
    requires InvitesOk(w) && Grows(w, w') && InvitesMove(w, w')
    ensures InvitesOk(w')
  {
  }

  lemma MoveKeeps(w: World, w': World, c: ConnId, pc: Pc)
    requires Inv(w) && c in w.conns && Moves(w, w', c, pc) && !w.conns[c].pc.FirstAdd? && !pc.FirstAdd?
    requires StaysMember(w, w', c, pc) && ConnOk(w', c) && PcOk(w', c)
    requires TablesMove(w, w', c, pc) && InvitesMove(w, w') && !w'.sentToClosed
    ensures Kept(w, w')
  {
    MoveGrows(w, w', c, pc);
    MoveBystand(w, w', c, pc);
    MoveRooms(w, w', c, pc);
    ConnsKeep(w, w', c);
    MoveTables(w, w', c, pc);
    InvitesKeep(w, w');
    SameOwners(w, w');
  }

  lemma OwnTables(w: World, c: ConnId)
    requires TablesOk(w) && c in w.conns
    ensures forall h <- w.handshakes :: h in w.usedHs && (w.handshakes[h].joiner == c ==> HandshakeOf(w.conns[c].pc) == Some(h))
    ensures forall s <- w.sessions :: w.sessions[s] == c ==> w.conns[c].session == Some(s)
  {
    forall h <- w.handshakes ensures h in w.usedHs && (w.handshakes[h].joiner == c ==> HandshakeOf(w.conns[c].pc) == Some(h)) {
      assert HandshakeOk(w, h);
    }
    forall s <- w.sessions ensures w.sessions[s] == c ==> w.conns[c].session == Some(s) {
      assert ClaimOk(w, s);
    }
  }

  lemma InRoom(w: World, c: ConnId)
    requires ObjsOk(w) && c in w.conns
    ensures forall r <- w.obj :: c in w.obj[r].members ==> Inside(w.conns[c].pc).Some? && HoldsClaim(w, c) && w.conns[c].home == Some(r)
  {
    forall r <- w.obj ensures c in w.obj[r].members ==> Inside(w.conns[c].pc).Some? && HoldsClaim(w, c) && w.conns[c].home == Some(r) {
      assert RoomOk(w, r);
    }
  }

  lemma SameInvites(w: World, w': World)
    requires InvitesOk(w) && w'.minted == w.minted && w'.redeemed == w.redeemed
    requires forall t <- w'.invites :: t in w.invites && w'.invites[t] == w.invites[t]
    ensures InvitesMove(w, w')
  {
  }

  /** Releasing a client's claim leaves every other claim alone. */
  ghost predicate Released(w: World, w': World, c: ConnId) {
    && w' == w.(sessions := w'.sessions)
    && (forall s <- w'.sessions :: s in w.sessions && w'.sessions[s] == w.sessions[s])
    && (forall s <- w.sessions :: w.sessions[s] != c ==> s in w'.sessions)
  }

  lemma ClearReleases(w: World, c: ConnId)
    requires c in w.conns
    ensures Released(w, ClearByClient(w, c), c) && Released(w, ClearSession(w, c), c)
  {
  }

  /** The plainest step: only the program counter changes. */
  lemma AtKeeps(w: World, c: ConnId, pc: Pc)
    requires c in w.conns && !w.conns[c].pc.FirstAdd? && !pc.FirstAdd?
    requires ConnOk(At(w, c, pc), c) && PcOk(At(w, c, pc), c) && Inv(w)
    requires Inside(pc).Some? || forall r <- w.obj :: c !in w.obj[r].members
    requires !pc.OwnerClaim? && !pc.JoinerClaim? && !pc.Ended?
    requires HandshakeOf(pc) == HandshakeOf(w.conns[c].pc)
    ensures Kept(w, At(w, c, pc))
  {
    hide InvitesOk, InvitesMove;
    var w' := At(w, c, pc);
    InRoom(w, c);
    OwnTables(w, c);
    hide ConnsOk, ObjsOk, TablesOk, ConnOk, PcOk;
    SameInvites(w, w');
    MoveKeeps(w, w', c, pc);
  }

  // ----- joining

  lemma RefuseKeeps(w: World, c: ConnId)
    requires Inv(w) && c in w.conns && IsJoining(w.conns[c].pc) && !w.conns[c].pc.FirstAdd? && HandshakeOf(w.conns[c].pc).None?
    ensures Kept(w, At(w, c, CloseOut))
  {
    InRoom(w, c);
    assert ConnOk(w, c) && PcOk(w, c);
    var w' := At(w, c, CloseOut);
    assert ConnOk(w', c) && PcOk(w', c);
    hide Kept, Inv, ConnOk, PcOk;
    AtKeeps(w, c, CloseOut);
  }

  lemma ClaimKeeps(w: World, c: ConnId, next: Pc)
    requires Inv(w) && c in w.conns
    requires (w.conns[c].pc.OwnerClaim? && next == Create) || (w.conns[c].pc.JoinerClaim? && next == Redeem)
    ensures Kept(w, Claim(w, c, next))
  {
    if w.conns[c].session.None? {
      InRoom(w, c);
      assert ConnOk(w, c) && PcOk(w, c);
      var w' := At(w, c, next);
      assert ConnOk(w', c) && PcOk(w', c);
      hide Kept, Inv, ConnOk, PcOk;
      AtKeeps(w, c, next);
    } else if w.conns[c].session.value in w.sessions {
      RefuseKeeps(w, c);
    } else {
      ClaimTaken(w, Claim(w, c, next), c, next);
    }
  }

  lemma ClaimTaken(w: World, w': World, c: ConnId, next: Pc)
    requires Inv(w) && c in w.conns && w.conns[c].session.Some? && w.conns[c].session.value !in w.sessions
    requires (w.conns[c].pc.OwnerClaim? && next == Create) || (w.conns[c].pc.JoinerClaim? && next == Redeem)
    requires w' == At(w.(sessions := w.sessions[w.conns[c].session.value := c]), c, next)
    ensures Kept(w, w')
  {
    hide InvitesOk, InvitesMove, ObjsOk, TablesOk;
    InRoom(w, c);
    OwnTables(w, c);
    assert ConnOk(w, c) && PcOk(w, c);
    assert ConnOk(w', c) && PcOk(w', c);
    hide ConnsOk, ObjsOk, TablesOk, ConnOk, PcOk;
    SameInvites(w, w');
    MoveKeeps(w, w', c, next);
  }

  lemma RedeemInvites(w: World, w': World, c: ConnId, t: Token)
    requires InvitesOk(w) && t in w.invites && w'.minted == w.minted && w'.invites == w.invites - {t}
    requires w'.redeemed == w.redeemed || w'.redeemed == w.redeemed[t := (c, w.now)]
    ensures InvitesMove(w, w') && t in w.minted && w.minted[t] == w.invites[t] && forall u <- w.redeemed :: u in w'.redeemed && w'.redeemed[u] == w.redeemed[u]
  {
  }

  lemma RedeemKeeps(w: World, c: ConnId)
    requires Inv(w) && c in w.conns && w.conns[c].pc.Redeem?
    ensures Kept(w, RedeemStep(w, c))
  {
    hide Kept, Inv;
    var t := w.conns[c].token;
    if t !in w.invites {
      RefuseKeeps(w, c);
      assert RedeemStep(w, c) == At(w, c, CloseOut);
    } else {
      SpendKeeps(w, RedeemStep(w, c), c, RedeemStep(w, c).conns[c].pc);
    }
  }

  lemma SpendKeeps(w: World, w': World, c: ConnId, next: Pc)
    requires Inv(w) && c in w.conns && w.conns[c].pc.Redeem? && w.conns[c].token in w.invites
    requires var t := w.conns[c].token;
             var w1 := w.(invites := w.invites - {t});
             if w.now > w.invites[t].expires then next == CloseOut && w' == At(w1, c, next)
             else next == Lookup(w.invites[t].room) && w' == At(w1.(redeemed := w.redeemed[t := (c, w.now)]), c, next)
    ensures Kept(w, w')
  {
    hide InvitesOk, InvitesMove, ObjsOk, TablesOk;
    InRoom(w, c);
    OwnTables(w, c);
    RedeemInvites(w, w', c, w.conns[c].token);
    assert ConnOk(w, c) && PcOk(w, c);
    assert ConnOk(w', c) && PcOk(w', c);
    hide ConnsOk, ObjsOk, TablesOk, ConnOk, PcOk;
    MoveKeeps(w, w', c, next);
  }

  lemma SearchKeeps(w: World, c: ConnId, next: Pc)
    requires Inv(w) && c in w.conns
    requires match w.conns[c].pc
             case Lookup(r) => next == Capacity(r)
             case Capacity(r) => next == FindOwner(r)
             case FindOwner(r) => next.OpenHs? && next.room == r
             case HsLoop(r, h) => next == NotEntered(h) || next == HsLoop(r, h)
             case _ => false
    ensures Kept(w, At(w, c, next))
  {
    InRoom(w, c);
    assert ConnOk(w, c) && PcOk(w, c);
    var w' := At(w, c, next);
    assert ConnOk(w', c) && PcOk(w', c);
    hide Kept, Inv, ConnOk, PcOk;
    AtKeeps(w, c, next);
  }

  lemma OpenKeeps(w: World, w': World, c: ConnId, h: HsId)
    requires Inv(w) && c in w.conns && w.conns[c].pc.OpenHs? && h !in w.usedHs
    requires var r, o := w.conns[c].pc.room, w.conns[c].pc.owner;
             w' == At(w.(handshakes := w.handshakes[h := Handshake(r, c, o)], usedHs := w.usedHs + {h}), c, HsLoop(r, h))
    ensures Kept(w, w')
  {
    hide InvitesOk, InvitesMove, ObjsOk, TablesOk;
    InRoom(w, c);
    OwnTables(w, c);
    assert ConnOk(w, c) && PcOk(w, c);
    assert ConnOk(w', c) && PcOk(w', c);
    hide ConnsOk, ObjsOk, TablesOk, ConnOk, PcOk;
    SameInvites(w, w');
    MoveKeeps(w, w', c, HsLoop(w.conns[c].pc.room, h));
  }

  /** The joiner's handshake ends, as it enters or gives up. */
  lemma EndHsKeeps(w: World, w': World, c: ConnId, h: HsId, next: Pc)
    requires Inv(w) && c in w.conns && w' == At(w.(handshakes := w.handshakes - {h}), c, next)
    requires match w.conns[c].pc
             case Entered(r, g) => g == h && next == Announce(r)
             case NotEntered(g) => g == h && next == CloseOut
             case _ => false
    ensures Kept(w, w')
  {
    hide InvitesOk, InvitesMove, ObjsOk, TablesOk;
    InRoom(w, c);
    OwnTables(w, c);
    assert ConnOk(w, c) && PcOk(w, c);
    assert ConnOk(w', c) && PcOk(w', c);
    hide ConnsOk, ObjsOk, TablesOk, ConnOk, PcOk;
    SameInvites(w, w');
    MoveKeeps(w, w', c, next);
  }

  // ----- serving

  /** Back to the loop, or on to an action whose owner check has passed. */
  lemma ActActor(w: World, c: ConnId, r: RoomId, next: Pc)
    requires c in w.conns && Inside(w.conns[c].pc) == Some(r) && HandshakeOf(w.conns[c].pc).None?
    requires next == Loop(r) || next == Announce(r) || next == Leave(r) || (Checked(next) == Some(r) && IsOwner(w, r, c)) || next == StartClose(r)
    requires ConnOk(w, c) && PcOk(w, c)
    ensures Inside(next) == Some(r) && ConnOk(At(w, c, next), c) && PcOk(At(w, c, next), c)
  {
  }

  lemma ActKeeps(w: World, c: ConnId, r: RoomId, next: Pc)
    requires Inv(w) && c in w.conns && Inside(w.conns[c].pc) == Some(r) && HandshakeOf(w.conns[c].pc).None?
    requires next == Loop(r) || next == Announce(r) || next == Leave(r) || (Checked(next) == Some(r) && IsOwner(w, r, c)) || next == StartClose(r)
    ensures Kept(w, At(w, c, next))
  {
    assert ConnOk(w, c) && PcOk(w, c);
    ActActor(w, c, r, next);
    hide Kept, Inv, ConnOk, PcOk;
    AtKeeps(w, c, next);
  }

  lemma MintInvites(w: World, w': World, t: Token, i: Invite)
    requires InvitesOk(w) && t !in w.minted && Founded(w, i.room)
    requires w'.minted == w.minted[t := i] && w'.invites == w.invites[t := i] && w'.redeemed == w.redeemed
    ensures InvitesMove(w, w') && t !in w.redeemed
  {
  }

  lemma MintKeeps(w: World, w': World, c: ConnId, t: Token)
    requires Inv(w) && c in w.conns && w.conns[c].pc.InviteOk? && t !in w.minted
    requires var i := Invite(w.conns[c].pc.room, w.now + w.ttl);
             w' == At(w.(invites := w.invites[t := i], minted := w.minted[t := i]), c, Loop(i.room))
    ensures Kept(w, w')
  {
    hide InvitesOk, InvitesMove, ObjsOk, TablesOk;
    InRoom(w, c);
    OwnTables(w, c);
    assert ConnOk(w, c) && PcOk(w, c);
    MintInvites(w, w', t, w'.minted[t]);
    assert ConnOk(w', c) && PcOk(w', c);
    hide ConnsOk, ObjsOk, TablesOk, ConnOk, PcOk;
    MoveKeeps(w, w', c, Loop(w.conns[c].pc.room));
  }

  lemma KickedKeeps(w: World, w1: World, c: ConnId)
    requires Inv(w) && c in w.conns && w.conns[c].pc.Kicked? && Released(w, w1, w.conns[c].pc.target)
    ensures Kept(w, At(w1, c, Loop(w.conns[c].pc.room)))
  {
    hide InvitesOk, InvitesMove, ObjsOk, TablesOk;
    var w' := At(w1, c, Loop(w.conns[c].pc.room));
    var t := w.conns[c].pc.target;
    InRoom(w, c);
    OwnTables(w, c);
    assert ConnOk(w, c) && PcOk(w, c);
    assert ConnOk(w, t);
    assert ConnOk(w', c) && PcOk(w', c);
    assert Spent(w, t);
    hide ConnsOk, ObjsOk, TablesOk, ConnOk, PcOk;
    SameInvites(w, w');
    MoveKeeps(w, w', c, Loop(w.conns[c].pc.room));
  }

  // ----- ending

  /** A connection that is no longer a member goes on with its cleanup. */
  lemma OverKeeps(w: World, c: ConnId, next: Pc)
    requires Inv(w) && c in w.conns && HandshakeOf(w.conns[c].pc).None? && !w.conns[c].pc.FirstAdd?
    requires IsOver(next) && !next.Ended? && (IsOver(w.conns[c].pc) || Inside(w.conns[c].pc).Some?)
    requires forall r <- w.obj :: c !in w.obj[r].members
    requires Inside(w.conns[c].pc).Some? && w.conns[c].home.None? ==> w.conns[c].failed
    ensures Kept(w, At(w, c, next))
  {
    assert ConnOk(w, c) && PcOk(w, c);
    var w' := At(w, c, next);
    assert ConnOk(w', c) && PcOk(w', c);
    hide Kept, Inv, ConnOk, PcOk;
    AtKeeps(w, c, next);
  }

  lemma ReleaseActor(w: World, w1: World, c: ConnId, next: Pc)
    requires ConnsOk(w) && c in w.conns && Released(w, w1, c)
    requires (w.conns[c].pc.Left? && next == Waiting) || (w.conns[c].pc.DropClaim? && next == Ended)
    ensures c in w1.conns && ConnOk(At(w1, c, next), c) && PcOk(At(w1, c, next), c)
  {
    assert ConnOk(w, c) && PcOk(w, c);
  }

  lemma ReleaseFree(w: World, c: ConnId)
    requires ConnsOk(w) && ObjsOk(w) && c in w.conns && (w.conns[c].pc.Left? || w.conns[c].pc.DropClaim?)
    ensures forall r <- w.obj :: c !in w.obj[r].members
  {
    InRoom(w, c);
  }

  lemma ReleaseKeeps(w: World, w1: World, c: ConnId, next: Pc)
    requires Inv(w) && c in w.conns && Released(w, w1, c) && (next.Ended? ==> forall s <- w1.sessions :: w1.sessions[s] != c)
    requires (w.conns[c].pc.Left? && next == Waiting) || (w.conns[c].pc.DropClaim? && next == Ended)
    ensures Kept(w, At(w1, c, next))
  {
    hide ConnsOk, ObjsOk, TablesOk, InvitesOk, InvitesMove, ConnOk, PcOk;
    var w' := At(w1, c, next);
    ReleaseFree(w, c);
    OwnTables(w, c);
    ReleaseActor(w, w1, c, next);
    SameInvites(w, w');
    MoveKeeps(w, w', c, next);
  }

  lemma DropHsKeeps(w: World, w': World, c: ConnId)
    requires Inv(w) && c in w.conns && w.conns[c].pc.DropHs? && w'.handshakes.Keys <= w.handshakes.Keys
    requires forall h <- w'.handshakes :: w'.handshakes[h] == w.handshakes[h]
    requires w' == At(w.(handshakes := w'.handshakes), c, DropClaim)
    ensures Kept(w, w')
  {
    hide InvitesOk, InvitesMove, ObjsOk, TablesOk;
    InRoom(w, c);
    OwnTables(w, c);
    assert ConnOk(w, c) && PcOk(w, c);
    assert ConnOk(w', c) && PcOk(w', c);
    hide ConnsOk, ObjsOk, TablesOk, ConnOk, PcOk;
    SameInvites(w, w');
    MoveKeeps(w, w', c, DropClaim);
  }

  // ----- steps that change one room

  /** Only room `r`, its closer, its members' queues and the connections `who` change;
      claims go only from connections that no longer need one. */
  ghost predicate Touch(w: World, w': World, who: set<ConnId>, r: RoomId) {
    && w'.maxSize == w.maxSize && w'.usedHs == w.usedHs && w'.handshakes == w.handshakes
    && w'.minted == w.minted && w'.redeemed == w.redeemed && !w'.sentToClosed
    && w'.conns.Keys == w.conns.Keys && who <= w.conns.Keys
    && (forall d <- w.conns :: d !in who ==>
          && w'.conns[d] == w.conns[d].(closes := w'.conns[d].closes) && w'.conns[d].closes >= w.conns[d].closes
          && (w.conns[d].home != Some(r) ==> w'.conns[d] == w.conns[d]))
    && r in w'.obj && w'.obj.Keys == w.obj.Keys + {r}
    && (forall q <- w.obj :: q != r ==> w'.obj[q] == w.obj[q])
    && (r in w.obj ==> w'.obj[r].founder == w.obj[r].founder && (w.obj[r].closed ==> w'.obj[r].closed))
    && (forall q :: q != r ==> (q in w'.closers <==> q in w.closers) && (q in w.closers ==> w'.closers[q] == w.closers[q]))
    && w'.rooms <= w.rooms + {r}
    && (forall s <- w'.sessions :: s in w.sessions && w'.sessions[s] == w.sessions[s])
    && (forall s <- w.sessions :: s in w'.sessions || Spent(w, w.sessions[s]))
    && (forall t <- w'.invites :: t in w.invites && w'.invites[t] == w.invites[t])
  }

  /** What a connection of `who` has to keep besides its own invariant. */
  ghost predicate ActorOk(w: World, w': World, c: ConnId, r: RoomId)
    requires c in w.conns && c in w'.conns
  {
    var pc, pc' := w.conns[c].pc, w'.conns[c].pc;
    && Same(w.conns[c], w'.conns[c])
    && HandshakeOf(pc') == HandshakeOf(pc) && !pc'.OwnerClaim? && !pc'.JoinerClaim? && !pc'.Ended?
    && (pc.FirstAdd? ==> pc.room == r) && (pc'.FirstAdd? ==> pc'.room == r && r !in w.obj)
    && (w.conns[c].home.Some? ==> w.conns[c].home == Some(r))
  }

  /** What the room's other connections see. */
  ghost predicate Seen(w: World, w': World, r: RoomId, d: ConnId)
    requires d in w.conns && d in w'.conns
  {
    var k := w.conns[d];
    && (k.home == Some(r) ==> Balanced(w', r, d) && (Member(w', r, d) ==> Member(w, r, d)))
    && (k.pc == FirstAdd(r) && r in w.obj ==> r in w'.obj && w'.obj[r].members == w.obj[r].members)
    && (Checked(k.pc) == Some(r) && r in w.obj && r in w'.obj && !w'.obj[r].closed && w.obj[r].owner == Some(d) && Member(w, r, d) ==>
          w'.obj[r].owner == Some(d) && Member(w', r, d))
  }

  ghost predicate AllSeen(w: World, w': World, who: set<ConnId>, r: RoomId) {
    forall d <- w.conns :: d !in who ==> d in w'.conns && Seen(w, w', r, d)
  }

  ghost predicate AllActorsOk(w: World, w': World, who: set<ConnId>, r: RoomId) {
    forall c <- who :: c in w.conns && c in w'.conns && ActorOk(w, w', c, r)
  }

  lemma TouchGrows(w: World, w': World, who: set<ConnId>, r: RoomId)
    requires Touch(w, w', who, r) && AllActorsOk(w, w', who, r) && AllSeen(w, w', who, r)
    ensures Grows(w, w')
  {
  }

  lemma TouchBystands(w: World, w': World, who: set<ConnId>, r: RoomId, d: ConnId)
    requires Touch(w, w', who, r) && d in w.conns && d !in who && Seen(w, w', r, d) && ConnOk(w, d) && PcOk(w, d)
    ensures Bystander(w, w', d)
  {
  }

  lemma TouchConns(w: World, w': World, who: set<ConnId>, r: RoomId)
    requires Touch(w, w', who, r) && AllActorsOk(w, w', who, r) && AllSeen(w, w', who, r) && ConnsOk(w)
    requires forall c <- who :: ConnOk(w', c) && PcOk(w', c)
    ensures ConnsOk(w')
  {
    TouchGrows(w, w', who, r);
    forall d <- w'.conns ensures ConnOk(w', d) && PcOk(w', d) {
      if d !in who {
        assert Seen(w, w', r, d);
        assert ConnOk(w, d);
        hide Touch, AllSeen, AllActorsOk, ConnOk, PcOk, Seen;
        TouchBystands(w, w', who, r, d);
        BystanderOk(w, w', d);
      }
    }
  }

  lemma TouchRoom(w: World, w': World, who: set<ConnId>, r: RoomId, q: RoomId)
    requires Touch(w, w', who, r) && AllActorsOk(w, w', who, r) && q in w.obj && q != r && RoomOk(w, q)
    ensures RoomKept(w, w', q)
  {
    var f := w.obj[q].founder;
    assert w'.conns[f].pc == w.conns[f].pc || f in who;
    forall d <- w.obj[q].members ensures d in w'.conns && w'.conns[d].home == Some(q) && Inside(w'.conns[d].pc).Some? && HoldsClaim(w', d) {
    }
  }

  lemma TouchRooms(w: World, w': World, who: set<ConnId>, r: RoomId)
    requires Touch(w, w', who, r) && AllActorsOk(w, w', who, r) && ObjsOk(w) && RoomOk(w', r)
    ensures ObjsOk(w')
  {
    forall q <- w'.obj ensures RoomOk(w', q) {
      if q != r {
        assert RoomOk(w, q);
        hide RoomOk, RoomKept, Touch, AllActorsOk;
        FounderIn(w, q);
        TouchRoom(w, w', who, r, q);
        RoomKeeps(w, w', q);
      }
    }
  }

  lemma FounderIn(w: World, q: RoomId)
    requires q in w.obj && RoomOk(w, q)
    ensures w.obj[q].founder in w.conns
  {
  }

  lemma TouchTables(w: World, w': World, who: set<ConnId>, r: RoomId)
    requires Touch(w, w', who, r) && AllActorsOk(w, w', who, r) && TablesOk(w)
    requires r in w'.closers ==> CloserOk(w', r)
    requires r in w'.rooms && w'.obj[r].closed ==> r in w'.closers && w'.closers[r].stage == Unregister
    ensures TablesOk(w')
  {
    forall q <- w'.closers ensures CloserOk(w', q) {
      assert q != r ==> CloserOk(w, q);
    }
    forall s <- w'.sessions ensures ClaimOk(w', s) {
      assert ClaimOk(w, s);
    }
    forall h <- w'.handshakes ensures HandshakeOk(w', h) {
      assert HandshakeOk(w, h);
    }
  }

  lemma TouchOwners(w: World, w': World, who: set<ConnId>, r: RoomId)
    requires Touch(w, w', who, r) && (r in w.obj ==> OwnerKept(w, w', r))
    ensures OwnersKept(w, w')
  {
    forall q <- w.obj ensures OwnerKept(w, w', q) {
    }
  }

  lemma TouchKeeps(w: World, w': World, who: set<ConnId>, r: RoomId)
    requires Inv(w) && Touch(w, w', who, r) && AllActorsOk(w, w', who, r) && AllSeen(w, w', who, r)
    requires forall c <- who :: ConnOk(w', c) && PcOk(w', c)
    requires RoomOk(w', r) && (r in w'.closers ==> CloserOk(w', r))
    requires r in w'.rooms && w'.obj[r].closed ==> r in w'.closers && w'.closers[r].stage == Unregister
    requires r in w.obj ==> OwnerKept(w, w', r)
    ensures Kept(w, w')
  {
    TouchGrows(w, w', who, r);
    TouchConns(w, w', who, r);
    TouchRooms(w, w', who, r);
    TouchTables(w, w', who, r);
    assert w'.maxSize == w.maxSize && !w'.sentToClosed;
    SameInvites(w, w');
    InvitesKeep(w, w');
    TouchOwners(w, w', who, r);
  }

  lemma OpenRoom(w: World, r: RoomId)
    requires ObjsOk(w) && r in w.obj && !w.obj[r].closed
    ensures r !in w.closers
  {
    assert RoomOk(w, r);
  }

  /** Everyone else sees a room that only gained `c`. */
  lemma CreateKeeps(w: World, w': World, c: ConnId, r: RoomId)
    requires Inv(w) && c in w.conns && w.conns[c].pc.Create? && r !in w.obj
    requires w' == At(w.(obj := w.obj[r := Room({}, None, false, c)], rooms := w.rooms + {r}), c, FirstAdd(r))
    ensures Kept(w, w')
  {
    hide InvitesOk;
    assert ConnOk(w, c) && PcOk(w, c);
    assert ConnOk(w', c) && PcOk(w', c);
    assert r in w.closers ==> CloserOk(w, r);
    assert RoomOk(w', r);
    forall d <- w.conns | d != c ensures Seen(w, w', r, d) {
      assert ConnOk(w, d);
    }
    hide ConnsOk, ObjsOk, TablesOk, ConnOk, PcOk, RoomOk;
    TouchKeeps(w, w', {c}, r);
  }

  /** Where a connection stands just before its `Add`, and where that takes it. */
  ghost predicate AtTheDoor(w: World, c: ConnId, r: RoomId, next: Pc)
    requires c in w.conns
  {
    match w.conns[c].pc
    case FirstAdd(q) => q == r && next == Loop(r)
    case HsLoop(q, h) => q == r && next == Entered(r, h)
    case _ => false
  }

  lemma OneConn(w: World, c: ConnId)
    requires ConnsOk(w) && c in w.conns
    ensures ConnOk(w, c) && PcOk(w, c)
  {
  }

  lemma JoinerFounded(w: World, c: ConnId, r: RoomId)
    requires ConnsOk(w) && InvitesOk(w) && c in w.conns && w.conns[c].pc.HsLoop? && w.conns[c].pc.room == r
    ensures Founded(w, r)
  {
    OneConn(w, c);
    hide ConnsOk, InvitesOk, ConnOk;
    RedeemedFounded(w, c, r);
  }

  lemma AddTouch(w: World, w': World, c: ConnId, r: RoomId, next: Pc)
    requires c in w.conns && AtTheDoor(w, c, r, next) && Admits(w, r) && w' == Add(w, r, c, next) && !w.sentToClosed
    requires ConnOk(w, c)
    ensures Touch(w, w', {c}, r) && ActorOk(w, w', c, r) && OwnerKept(w, w', r)
  {
  }

  lemma AddActor(w: World, w': World, c: ConnId, r: RoomId, next: Pc)
    requires ConnsOk(w) && ObjsOk(w) && c in w.conns && AtTheDoor(w, c, r, next) && Admits(w, r) && w' == Add(w, r, c, next)
    requires w.conns[c].pc.HsLoop? ==> Founded(w, r)
    ensures ConnOk(w', c) && PcOk(w', c)
  {
    assert ConnOk(w, c) && PcOk(w, c);
    OpenRoom(w, r);
  }

  lemma AddKeeps(w: World, w': World, c: ConnId, r: RoomId, next: Pc)
    requires Inv(w) && c in w.conns && AtTheDoor(w, c, r, next) && Admits(w, r) && w' == Add(w, r, c, next)
    ensures Kept(w, w')
  {
    hide ConnsOk, ObjsOk, TablesOk, InvitesOk, RoomOk, Touch, ActorOk, AllSeen;
    if w.conns[c].pc.HsLoop? {
      JoinerFounded(w, c, r);
    }
    assert ConnOk(w, c) by { OneConn(w, c); }
    hide ConnOk, PcOk;
    AddRoom(w, w', c, r, next);
    AddSeen(w, w', c, r, next);
    AddTouch(w, w', c, r, next);
    AddActor(w, w', c, r, next);
    assert w'.rooms == w.rooms && w'.closers == w.closers && !w'.obj[r].closed;
    TouchKeeps(w, w', {c}, r);
  }

  lemma AddRoom(w: World, w': World, c: ConnId, r: RoomId, next: Pc)
    requires ConnsOk(w) && ObjsOk(w) && c in w.conns && AtTheDoor(w, c, r, next) && Admits(w, r) && w' == Add(w, r, c, next)
    ensures RoomOk(w', r) && r !in w'.closers
  {
    assert ConnOk(w, c) && PcOk(w, c) && RoomOk(w, r);
    hide ConnsOk, ObjsOk, ConnOk, PcOk;
    forall d <- w'.obj[r].members ensures
      && d in w'.conns && w'.conns[d].home == Some(r) && Inside(w'.conns[d].pc).Some?
      && (w'.conns[d].session.Some? ==> w'.conns[d].session.value in w'.sessions && w'.sessions[w'.conns[d].session.value] == d)
    {
    }
  }

  lemma RedeemedFounded(w: World, c: ConnId, r: RoomId)
    requires InvitesOk(w) && c in w.conns && RedeemedFor(w, c, r)
    ensures Founded(w, r)
  {
  }

  lemma AddSeen(w: World, w': World, c: ConnId, r: RoomId, next: Pc)
    requires ConnsOk(w) && ObjsOk(w) && c in w.conns && AtTheDoor(w, c, r, next) && Admits(w, r) && w' == Add(w, r, c, next)
    requires w.conns[c].pc.HsLoop? ==> Founded(w, r)
    ensures AllSeen(w, w', {c}, r)
  {
    assert PcOk(w, c) && RoomOk(w, r);
    forall d <- w.conns | d != c ensures Seen(w, w', r, d) {
      assert ConnOk(w, d) && PcOk(w, d);
      hide ConnsOk, ObjsOk;
    }
  }

  /** A creator whose room was closed before its `Add`: it goes on outside any room. */
  lemma FailKeeps(w: World, w': World, c: ConnId, r: RoomId)
    requires Inv(w) && c in w.conns && w.conns[c].pc == FirstAdd(r) && !Admits(w, r)
    requires w' == At(w.(conns := w.conns[c := w.conns[c].(failed := true)]), c, Loop(r))
    ensures Kept(w, w')
  {
    hide InvitesOk;
    assert ConnOk(w, c) && PcOk(w, c) && RoomOk(w, r);
    assert r in w.closers ==> CloserOk(w, r);
    assert ConnOk(w', c) && PcOk(w', c);
    forall d <- w.conns | d != c ensures Seen(w, w', r, d) {
      assert ConnOk(w, d);
    }
    assert RoomOk(w', r);
    hide ConnsOk, ObjsOk, ConnOk, PcOk, RoomOk;
    TouchKeeps(w, w', {c}, r);
  }

  lemma CloseOutKeeps(w: World, w': World, c: ConnId)
    requires Inv(w) && c in w.conns && w.conns[c].pc.CloseOut? && w' == At(CloseQueue(w, c), c, Waiting)
    ensures Kept(w, w')
  {
    hide InvitesOk, InvitesMove, ObjsOk, TablesOk;
    InRoom(w, c);
    OwnTables(w, c);
    assert ConnOk(w, c) && PcOk(w, c);
    assert ConnOk(w', c) && PcOk(w', c);
    hide ConnsOk, ObjsOk, TablesOk, ConnOk, PcOk;
    SameInvites(w, w');
    MoveKeeps(w, w', c, Waiting);
  }

  // ----- transfer, kick and leave

  lemma TransferRoom(w: World, w': World, c: ConnId, r: RoomId, t: ConnId)
    requires ConnsOk(w) && ObjsOk(w) && c in w.conns && w.conns[c].pc == TransferOk(r, t) && r in w.obj && !w.obj[r].closed && t in w.obj[r].members
    requires w' == At(w.(obj := w.obj[r := w.obj[r].(owner := Some(t))]), c, Announce(r))
    ensures OwnerKept(w, w', r) && RoomOk(w', r) && r !in w'.closers && ConnOk(w', c) && PcOk(w', c)
  {
    assert ConnOk(w, c) && PcOk(w, c) && RoomOk(w, r);
  }

  lemma TransferTouch(w: World, w': World, c: ConnId, r: RoomId, t: ConnId)
    requires ConnsOk(w) && c in w.conns && w.conns[c].pc == TransferOk(r, t) && r in w.obj && !w.sentToClosed
    requires w' == At(w.(obj := w.obj[r := w.obj[r].(owner := Some(t))]), c, Announce(r))
    ensures Touch(w, w', {c}, r) && ActorOk(w, w', c, r)
  {
    assert ConnOk(w, c);
  }

  lemma TransferSeen(w: World, w': World, c: ConnId, r: RoomId, t: ConnId)
    requires ConnsOk(w) && ObjsOk(w) && c in w.conns && w.conns[c].pc == TransferOk(r, t) && r in w.obj && !w.obj[r].closed
    requires w' == At(w.(obj := w.obj[r := w.obj[r].(owner := Some(t))]), c, Announce(r))
    ensures AllSeen(w, w', {c}, r)
  {
    assert PcOk(w, c);
    forall d <- w.conns | d != c ensures Seen(w, w', r, d) {
      assert ConnOk(w, d) && PcOk(w, d);
    }
  }

  lemma TransferKeeps(w: World, w': World, c: ConnId, r: RoomId, t: ConnId)
    requires Inv(w) && c in w.conns && w.conns[c].pc == TransferOk(r, t) && r in w.obj && !w.obj[r].closed && t in w.obj[r].members
    requires w' == At(w.(obj := w.obj[r := w.obj[r].(owner := Some(t))]), c, Announce(r))
    ensures Kept(w, w')
  {
    hide InvitesOk, TablesOk, RoomOk, ConnOk, PcOk, Touch, ActorOk, AllSeen;
    TransferRoom(w, w', c, r, t);
    TransferTouch(w, w', c, r, t);
    TransferSeen(w, w', c, r, t);
    hide ConnsOk, ObjsOk;
    assert w'.rooms == w.rooms && w'.closers == w.closers && !w'.obj[r].closed;
    TouchKeeps(w, w', {c}, r);
  }

  /** Nobody in an open room has a closed queue. */
  lemma MembersOpen(w: World, r: RoomId)
    requires ConnsOk(w) && ObjsOk(w) && r in w.obj
    ensures forall d <- w.obj[r].members :: d in w.conns && w.conns[d].home == Some(r) && w.conns[d].closes == 0
  {
    assert RoomOk(w, r);
    forall d <- w.obj[r].members ensures d in w.conns && w.conns[d].home == Some(r) && w.conns[d].closes == 0 {
      assert ConnOk(w, d);
    }
  }

  /** Room `r` loses the member `t`, whose queue is closed. */
  ghost predicate Loses(w: World, w': World, c: ConnId, r: RoomId, t: ConnId, next: Pc) {
    && r in w.obj && !w.obj[r].closed && t in w.obj[r].members && w.obj[r].owner != Some(t) && c in w.conns && t in w.conns
    && w' == At(CloseQueue(w, t), c, next).(obj := w.obj[r := w.obj[r].(members := w.obj[r].members - {t})])
  }

  lemma LosesRoom(w: World, w': World, c: ConnId, r: RoomId, t: ConnId, next: Pc)
    requires ConnsOk(w) && ObjsOk(w) && Loses(w, w', c, r, t, next) && (c == t || Inside(next).Some?)
    ensures RoomOk(w', r) && r !in w'.closers && w'.obj[r].members != {}
  {
    assert RoomOk(w, r);
    assert w.obj[r].owner.value in w'.obj[r].members;
    assert |w'.obj[r].members| <= |w.obj[r].members| by {
      assert w.obj[r].members == w'.obj[r].members + {t};
    }
  }

  lemma LosesSeen(w: World, w': World, c: ConnId, r: RoomId, t: ConnId, next: Pc)
    requires ConnsOk(w) && ObjsOk(w) && Loses(w, w', c, r, t, next)
    ensures AllSeen(w, w', {c}, r)
  {
    assert RoomOk(w, r);
    forall d <- w.conns | d != c ensures Seen(w, w', r, d) {
      assert ConnOk(w, d) && PcOk(w, d);
      hide ConnsOk, ObjsOk;
    }
  }

  lemma LosesActorOk(w: World, w': World, c: ConnId, r: RoomId, t: ConnId, next: Pc)
    requires Loses(w, w', c, r, t, next) && ConnOk(w, c) && w.conns[t].home == Some(r)
    requires (w.conns[c].pc == KickOk(r, t) && c != t && next == Kicked(r, t)) || (w.conns[c].pc == Leave(r) && c == t && next == Left)
    requires w.conns[t].closes == 0
    ensures ActorOk(w, w', c, r)
  {
  }

  lemma LosesActor(w: World, w': World, c: ConnId, r: RoomId, t: ConnId, next: Pc)
    requires ConnsOk(w) && ObjsOk(w) && Loses(w, w', c, r, t, next)
    requires (w.conns[c].pc == KickOk(r, t) && c != t && next == Kicked(r, t)) || (w.conns[c].pc == Leave(r) && c == t && next == Left)
    ensures ConnOk(w', c) && PcOk(w', c) && ActorOk(w, w', c, r)
  {
    OpenRoom(w, r);
    MembersOpen(w, r);
    OneConn(w, c);
    hide ConnsOk, ObjsOk, ActorOk;
    LosesActorOk(w, w', c, r, t, next);
  }

  lemma LosesTouch(w: World, w': World, c: ConnId, r: RoomId, t: ConnId, next: Pc)
    requires ConnsOk(w) && ObjsOk(w) && !w.sentToClosed && Loses(w, w', c, r, t, next)
    ensures Touch(w, w', {c}, r) && OwnerKept(w, w', r)
  {
    MembersOpen(w, r);
  }

  lemma LosesKeeps(w: World, w': World, c: ConnId, r: RoomId, t: ConnId, next: Pc)
    requires Inv(w) && Loses(w, w', c, r, t, next)
    requires (w.conns[c].pc == KickOk(r, t) && c != t && next == Kicked(r, t)) || (w.conns[c].pc == Leave(r) && c == t && next == Left)
    ensures Kept(w, w') && w'.obj[r].members != {}
  {
    hide ConnsOk, ObjsOk, TablesOk, InvitesOk, RoomOk, ConnOk, PcOk, ActorOk, AllSeen, Touch;
    LosesRoom(w, w', c, r, t, next);
    LosesSeen(w, w', c, r, t, next);
    LosesTouch(w, w', c, r, t, next);
    LosesActor(w, w', c, r, t, next);
    assert w'.rooms == w.rooms && w'.closers == w.closers && !w'.obj[r].closed;
    TouchKeeps(w, w', {c}, r);
  }

  lemma KickKeeps(w: World, c: ConnId, r: RoomId, t: ConnId)
    requires Inv(w) && c in w.conns && w.conns[c].pc == KickOk(r, t) && t in w.conns
    requires r in w.obj && !w.obj[r].closed && t in w.obj[r].members && w.obj[r].owner != Some(t)
    ensures Kept(w, At(Kick(w, r, t), c, Kicked(r, t)))
  {
    var w' := At(Kick(w, r, t), c, Kicked(r, t));
    MembersOpen(w, r);
    assert PcOk(w, c);
    hide ConnsOk, ObjsOk, TablesOk, InvitesOk;
    assert c != t;
    assert !w'.sentToClosed;
    LosesKeeps(w, w', c, r, t, Kicked(r, t));
  }

  lemma DepartKeeps(w: World, c: ConnId, r: RoomId)
    requires Inv(w) && c in w.conns && w.conns[c].pc == Leave(r)
    requires r in w.obj && !w.obj[r].closed && c in w.obj[r].members && w.obj[r].owner != Some(c)
    ensures Depart(w, r, c).obj[r].members != {} && Kept(w, At(Depart(w, r, c), c, Left))
  {
    var w' := At(Depart(w, r, c), c, Left);
    MembersOpen(w, r);
    hide ConnsOk, ObjsOk, TablesOk, InvitesOk;
    assert !w'.sentToClosed;
    LosesKeeps(w, w', c, r, c, Left);
  }

  // ----- close

  /** The locked section of a `Close`, run by `who`'s thread or by nobody's. */
  ghost predicate Marks(w: World, w': World, who: set<ConnId>, r: RoomId) {
    && r in w.obj && !w.obj[r].closed && who <= w.conns.Keys && w'.conns.Keys == w.conns.Keys
    && w' == MarkClosed(w, r).(conns := w'.conns)
    && (forall d <- w.conns :: w'.conns[d] == if d in who then w.conns[d].(pc := Closing(r)) else w.conns[d])
    && (forall c <- who :: w.conns[c].pc == StartClose(r))
  }

  lemma MarksLocal(w: World, w': World, who: set<ConnId>, r: RoomId)
    requires ConnsOk(w) && ObjsOk(w) && Marks(w, w', who, r)
    ensures OwnerKept(w, w', r) && RoomOk(w', r) && r in w'.closers && CloserOk(w', r)
  {
    assert RoomOk(w, r);
    MembersOpen(w, r);
  }

  lemma MarksSeen(w: World, w': World, who: set<ConnId>, r: RoomId, d: ConnId)
    requires ConnsOk(w) && ObjsOk(w) && Marks(w, w', who, r) && d in w.conns
    ensures Seen(w, w', r, d)
  {
    OpenRoom(w, r);
    MembersOpen(w, r);
    assert ConnOk(w, d) && PcOk(w, d);
  }

  lemma MarksActor(w: World, w': World, who: set<ConnId>, r: RoomId, c: ConnId)
    requires ConnsOk(w) && ObjsOk(w) && Marks(w, w', who, r) && c in who
    ensures ConnOk(w', c) && PcOk(w', c) && ActorOk(w, w', c, r)
  {
    MarksSeen(w, w', who, r, c);
    assert ConnOk(w, c) && PcOk(w, c);
  }

  lemma MarksKeeps(w: World, w': World, who: set<ConnId>, r: RoomId)
    requires Inv(w) && Marks(w, w', who, r)
    ensures Kept(w, w')
  {
    hide InvitesOk;
    MarksLocal(w, w', who, r);
    forall d <- w.conns ensures d in w'.conns && Seen(w, w', r, d) {
      MarksSeen(w, w', who, r, d);
    }
    forall c <- who ensures ConnOk(w', c) && PcOk(w', c) && ActorOk(w, w', c, r) {
      MarksActor(w, w', who, r, c);
    }
    hide ConnsOk, ObjsOk, TablesOk, ConnOk, PcOk, RoomOk, ActorOk, Seen, CloserOk;
    TouchKeeps(w, w', who, r);
  }

  /** One step of the rest of a `Close`: the room itself no longer changes. */
  lemma CloserKeeps(w: World, w': World, r: RoomId)
    requires Inv(w) && r in w.closers && r in w.obj && w'.obj == w.obj && Touch(w, w', {}, r)
    requires r in w'.closers ==> CloserOk(w', r)
    requires r in w'.rooms ==> r in w'.closers && w'.closers[r].stage == Unregister
    requires forall d <- w.conns :: d in w'.conns && (w.conns[d].home == Some(r) ==> Balanced(w', r, d))
    ensures Kept(w, w')
  {
    assert CloserOk(w, r) && RoomOk(w, r);
    hide ConnsOk, TablesOk, InvitesOk, ObjsOk;
    TouchKeeps(w, w', {}, r);
  }

  lemma StageKeeps(w: World, r: RoomId, x: ConnId)
    requires Inv(w) && CanClose(w, r, x) && (w.closers[r].stage == Drain ==> w.closers[r].todo == {})
    ensures Kept(w, CloseStep(w, r, x))
  {
    var w' := CloseStep(w, r, x);
    hide InvitesOk;
    assert CloserOk(w, r);
    assert r in w.rooms ==> w.closers[r].stage == Unregister;
    forall d <- w.conns | w.conns[d].home == Some(r) ensures Balanced(w', r, d) {
      assert ConnOk(w, d);
    }
    hide ConnsOk, TablesOk, ObjsOk;
    CloserKeeps(w, w', r);
  }

  lemma ClearKeeps(w: World, w1: World, r: RoomId, x: ConnId)
    requires Inv(w) && r in w.closers && w.closers[r].stage == Drain && x in w.closers[r].todo && x in w.conns && Released(w, w1, x)
    ensures Kept(w, w1.(closers := w.closers[r := w.closers[r].(cleared := w.closers[r].cleared + {x})]))
  {
    var w' := w1.(closers := w.closers[r := w.closers[r].(cleared := w.closers[r].cleared + {x})]);
    hide InvitesOk;
    assert CloserOk(w, r) && ConnOk(w, x);
    assert r !in w.rooms;
    forall d <- w.conns | w.conns[d].home == Some(r) ensures Balanced(w', r, d) {
      assert ConnOk(w, d);
    }
    hide ConnsOk, TablesOk, ObjsOk;
    assert Spent(w, x);
    CloserKeeps(w, w', r);
  }

  lemma ShutKeeps(w: World, r: RoomId, x: ConnId)
    requires Inv(w) && r in w.closers && w.closers[r].stage == Drain && x in w.closers[r].todo && x in w.conns
    ensures Kept(w, CloseQueue(Sends(w, {x}), x).(closers := w.closers[r := w.closers[r].(todo := w.closers[r].todo - {x})]))
  {
    var w' := CloseQueue(Sends(w, {x}), x).(closers := w.closers[r := w.closers[r].(todo := w.closers[r].todo - {x})]);
    hide InvitesOk;
    assert CloserOk(w, r);
    assert r !in w.rooms;
    forall d <- w.conns | w.conns[d].home == Some(r) ensures Balanced(w', r, d) {
      assert ConnOk(w, d);
    }
    hide ConnsOk, TablesOk, ObjsOk;
    assert CloserOk(w', r);
    CloserKeeps(w, w', r);
  }

  lemma CloseKeeps(w: World, r: RoomId, x: ConnId)
    requires Inv(w) && CanClose(w, r, x)
    ensures Kept(w, CloseStep(w, r, x))
  {
    hide Kept, Inv;
    var k := w.closers[r];
    if k.stage == Drain && k.todo != {} {
      if x !in k.cleared {
        ClearReleases(w, x);
        hide ClearByClient;
        ClearKeeps(w, ClearByClient(w, x), r, x);
      } else {
        ShutKeeps(w, r, x);
      }
    } else {
      StageKeeps(w, r, x);
    }
  }

  // ----- the rest

  lemma ConnectRooms(w: World, w': World, c: ConnId)
    requires ObjsOk(w) && c !in w.conns && c in w'.conns && w' == w.(conns := w.conns[c := w'.conns[c]])
    ensures ObjsOk(w')
  {
    forall r <- w'.obj ensures RoomOk(w', r) {
      assert RoomOk(w, r);
    }
  }

  lemma ConnectConns(w: World, w': World, c: ConnId)
    requires ConnsOk(w) && c !in w.conns && c in w'.conns && w' == w.(conns := w.conns[c := w'.conns[c]])
    requires var k := w'.conns[c]; (k.pc == CloseOut || k.pc == (if k.founds then OwnerClaim else JoinerClaim)) && k.closes == 0 && k.home.None? && !k.failed
    ensures ConnsOk(w')
  {
    forall d <- w'.conns ensures ConnOk(w', d) && PcOk(w', d) {
      if d != c {
        assert ConnOk(w, d) && PcOk(w, d);
      }
    }
  }

  lemma ConnectKeeps(w: World, w': World, c: ConnId)
    requires Inv(w) && c !in w.conns && c in w'.conns && w' == w.(conns := w.conns[c := w'.conns[c]])
    requires var k := w'.conns[c]; (k.pc == CloseOut || k.pc == (if k.founds then OwnerClaim else JoinerClaim)) && k.closes == 0 && k.home.None? && !k.failed
    ensures Kept(w, w')
  {
    hide ConnsOk, ObjsOk, TablesOk, InvitesOk, InvitesMove;
    ConnectRooms(w, w', c);
    ConnectConns(w, w', c);
    ConnectTables(w, w', c);
    SameInvites(w, w');
    InvitesKeep(w, w');
    SameOwners(w, w');
  }

  lemma ConnectTables(w: World, w': World, c: ConnId)
    requires TablesOk(w) && c !in w.conns && c in w'.conns && w' == w.(conns := w.conns[c := w'.conns[c]])
    ensures TablesOk(w')
  {
    forall r <- w'.closers ensures CloserOk(w', r) {
      assert CloserOk(w, r);
    }
    forall s <- w'.sessions ensures ClaimOk(w', s) {
      assert ClaimOk(w, s);
    }
    forall h <- w'.handshakes ensures HandshakeOk(w', h) {
      assert HandshakeOk(w, h);
    }
  }

  lemma SameTables(w: World, w': World)
    requires TablesOk(w) && w' == w.(now := w'.now, invites := w'.invites)
    ensures TablesOk(w')
  {
    forall r <- w'.closers ensures CloserOk(w', r) {
      assert CloserOk(w, r);
    }
    forall s <- w'.sessions ensures ClaimOk(w', s) {
      assert ClaimOk(w, s);
    }
    forall h <- w'.handshakes ensures HandshakeOk(w', h) {
      assert HandshakeOk(w, h);
    }
  }

  lemma SameConns(w: World, w': World)
    requires ConnsOk(w) && w' == w.(now := w'.now, invites := w'.invites)
    ensures ConnsOk(w')
  {
    forall d <- w'.conns ensures ConnOk(w', d) && PcOk(w', d) {
      assert ConnOk(w, d) && PcOk(w, d);
    }
  }

  lemma SameRooms(w: World, w': World)
    requires ObjsOk(w) && w' == w.(now := w'.now, invites := w'.invites)
    ensures ObjsOk(w')
  {
    forall r <- w'.obj ensures RoomOk(w', r) {
      assert RoomOk(w, r);
    }
  }

  lemma SameKeeps(w: World, w': World)
    requires Inv(w) && w' == w.(now := w'.now, invites := w'.invites) && forall t <- w'.invites :: t in w.invites && w'.invites[t] == w.invites[t]
    ensures Kept(w, w')
  {
    hide ConnsOk, ObjsOk, TablesOk, InvitesOk, InvitesMove;
    SameConns(w, w');
    SameRooms(w, w');
    SameTables(w, w');
    SameInvites(w, w');
    InvitesKeep(w, w');
    SameOwners(w, w');
  }

  /** Sending to members of a room reaches open queues only. */
  lemma SendsOpen(w: World, r: RoomId, to: set<ConnId>)
    requires Inv(w) && r in w.obj && to <= w.obj[r].members
    ensures Sends(w, to) == w
  {
    MembersOpen(w, r);
  }

  // ----- every step

  lemma ArrivingKeeps(w: World, c: ConnId, ch: Choice)
    requires Inv(w) && CanRun(w, c, ch) && IsArriving(w.conns[c].pc)
    ensures Kept(w, Arriving(w, c, ch))
  {
    hide Kept, Inv, Claim, RedeemStep, Add, Admits;
    var w' := Arriving(w, c, ch);
    match w.conns[c].pc
    case OwnerClaim => if ch.Limited? { RefuseKeeps(w, c); } else { ClaimKeeps(w, c, Create); }
    case JoinerClaim => if ch.Limited? { RefuseKeeps(w, c); } else { ClaimKeeps(w, c, Redeem); }
    case Create => CreateKeeps(w, w', c, ch.id);
    case FirstAdd(r) => if Admits(w, r) { AddKeeps(w, w', c, r, Loop(r)); } else { FailKeeps(w, w', c, r); }
    case Redeem => RedeemKeeps(w, c);
  }

  lemma ShakingKeeps(w: World, c: ConnId, ch: Choice)
    requires Inv(w) && CanRun(w, c, ch) && IsJoining(w.conns[c].pc) && !IsArriving(w.conns[c].pc)
    ensures Kept(w, Shaking(w, c, ch))
  {
    hide Kept, Inv, Add, Admits, CloseQueue, At;
    var w' := Shaking(w, c, ch);
    match w.conns[c].pc
    case Lookup(r) => if r in w.rooms { SearchKeeps(w, c, Capacity(r)); } else { RefuseKeeps(w, c); }
    case Capacity(r) => if Admits(w, r) { SearchKeeps(w, c, FindOwner(r)); } else { RefuseKeeps(w, c); }
    case FindOwner(r) =>
      if r in w.obj && !w.obj[r].closed && w.obj[r].owner.Some? && w.obj[r].owner.value in w.obj[r].members {
        SearchKeeps(w, c, OpenHs(r, w.obj[r].owner.value));
      } else {
        RefuseKeeps(w, c);
      }
    case OpenHs(r, o) => OpenKeeps(w, w', c, ch.id);
    case HsLoop(r, h) =>
      if ch.AskEnter? && Admits(w, r) {
        AddKeeps(w, w', c, r, Entered(r, h));
      } else if ch.AskEnter? || ch.Quit? {
        SearchKeeps(w, c, NotEntered(h));
      } else {
        SearchKeeps(w, c, HsLoop(r, h));
      }
    case NotEntered(h) => EndHsKeeps(w, w', c, h, CloseOut);
    case CloseOut => CloseOutKeeps(w, w', c);
  }

  lemma InLoopKeeps(w: World, c: ConnId, r: RoomId, ch: Choice)
    requires Inv(w) && c in w.conns && w.conns[c].pc == Loop(r)
    ensures Kept(w, InLoop(w, c, r, ch))
  {
    hide Kept, Inv;
    Stutters(w);
    var w' := InLoop(w, c, r, ch);
    match ch
    case Say => if r in w.obj { SendsOpen(w, r, w.obj[r].members - {c}); }
    case Cast => if r in w.obj { SendsOpen(w, r, w.obj[r].members - {c}); }
    case WantInvite => if IsOwner(w, r, c) { ActKeeps(w, c, r, InviteOk(r)); }
    case WantTransfer(t) => if IsOwner(w, r, c) { ActKeeps(w, c, r, TransferOk(r, t)); }
    case WantKick(t) => if IsOwner(w, r, c) { ActKeeps(w, c, r, KickOk(r, t)); }
    case WantRekey(t) => if IsOwner(w, r, c) { ActKeeps(w, c, r, RekeyOk(r, t)); }
    case WantRoster => if IsOwner(w, r, c) { ActKeeps(w, c, r, RosterOk(r)); }
    case Quit => ActKeeps(w, c, r, Leave(r));
    case _ =>
  }

  lemma ServingKeeps(w: World, c: ConnId, ch: Choice)
    requires Inv(w) && CanRun(w, c, ch)
    ensures Kept(w, Serving(w, c, ch))
  {
    hide Kept, Inv, InLoop, ClearByClient, Kick, IsOwner, Sends, At;
    Stutters(w);
    var w' := Serving(w, c, ch);
    match w.conns[c].pc
    case Entered(r, h) => EndHsKeeps(w, w', c, h, Announce(r));
    case Announce(r) =>
      ActKeeps(w, c, r, Loop(r));
      if r in w.obj { SendsOpen(w, r, w.obj[r].members); }
    case Loop(r) => InLoopKeeps(w, c, r, ch);
    case InviteOk(r) => MintKeeps(w, w', c, ch.id);
    case TransferOk(r, t) =>
      if r in w.obj && !w.obj[r].closed && t in w.obj[r].members { TransferKeeps(w, w', c, r, t); } else { ActKeeps(w, c, r, Loop(r)); }
    case KickOk(r, t) =>
      if r in w.obj && !w.obj[r].closed && t in w.obj[r].members && w.obj[r].owner != Some(t) && t in w.conns {
        KickKeeps(w, c, r, t);
      } else {
        ActKeeps(w, c, r, Loop(r));
      }
    case Kicked(r, t) =>
      KickedReleases(w, c);
      KickedKeeps(w, ClearByClient(w, t), c);
    case RekeyOk(r, t) =>
      ActKeeps(w, c, r, Loop(r));
      if r in w.obj && t in w.obj[r].members { SendsOpen(w, r, {t}); }
    case RosterOk(r) =>
      ActKeeps(w, c, r, Loop(r));
      if r in w.obj { SendsOpen(w, r, w.obj[r].members - {c}); }
    case _ =>
  }

  lemma KickedReleases(w: World, c: ConnId)
    requires Inv(w) && c in w.conns && w.conns[c].pc.Kicked?
    ensures Released(w, ClearByClient(w, w.conns[c].pc.target), w.conns[c].pc.target)
  {
    assert PcOk(w, c);
    ClearReleases(w, w.conns[c].pc.target);
  }

  lemma LeavingKeeps(w: World, c: ConnId, r: RoomId)
    requires Inv(w) && c in w.conns && w.conns[c].pc == Leave(r)
    ensures Kept(w, Leaving(w, c, r))
  {
    assert ConnOk(w, c);
    InRoom(w, c);
    hide Kept, Inv, Depart;
    if r !in w.obj || w.obj[r].closed || c !in w.obj[r].members {
      assert r in w.obj && w.obj[r].closed ==> w.obj[r].members == {} by {
        ClosedEmpty(w, r);
      }
      OverKeeps(w, c, Left);
    } else if w.obj[r].owner == Some(c) {
      ActKeeps(w, c, r, StartClose(r));
    } else {
      DepartKeeps(w, c, r);
    }
  }

  lemma ClosedEmpty(w: World, r: RoomId)
    requires Inv(w)
    ensures r in w.obj && w.obj[r].closed ==> w.obj[r].members == {}
  {
    assert r in w.obj ==> RoomOk(w, r);
  }

  lemma DroppedKeeps(w: World, c: ConnId)
    requires Inv(w) && c in w.conns && w.conns[c].pc.DropHs?
    ensures Kept(w, At(w.(handshakes := map h | h in w.handshakes && w.handshakes[h].joiner != c && w.handshakes[h].owner != c :: w.handshakes[h]), c, DropClaim))
  {
    hide Kept, Inv;
    DropHsKeeps(w, At(w.(handshakes := map h | h in w.handshakes && w.handshakes[h].joiner != c && w.handshakes[h].owner != c :: w.handshakes[h]), c, DropClaim), c);
  }

  lemma EndingKeeps(w: World, c: ConnId, ch: Choice)
    requires Inv(w) && CanRun(w, c, ch)
    ensures Kept(w, Ending(w, c, ch))
  {
    hide Kept, Inv, Leaving, ClearSession, MarkClosed, At;
    Stutters(w);
    var w' := Ending(w, c, ch);
    match w.conns[c].pc
    case Leave(r) => LeavingKeeps(w, c, r);
    case StartClose(r) =>
      if r !in w.obj || w.obj[r].closed { GoneKeeps(w, c, r); } else { MarkedKeeps(w, c, r); }
    case Closing(r) => OverOut(w, c); OverKeeps(w, c, Left);
    case Left => ClearReleases(w, c); ReleaseKeeps(w, ClearSession(w, c), c, Waiting);
    case Waiting => OverOut(w, c); OverKeeps(w, c, DropHs);
    case DropHs => DroppedKeeps(w, c);
    case DropClaim => ClearReleases(w, c); ClearsAll(w, c); ReleaseKeeps(w, ClearSession(w, c), c, Ended);
    case _ =>
  }

  lemma MarkedKeeps(w: World, c: ConnId, r: RoomId)
    requires Inv(w) && c in w.conns && w.conns[c].pc == StartClose(r) && r in w.obj && !w.obj[r].closed
    ensures Kept(w, At(MarkClosed(w, r), c, Closing(r)))
  {
    hide Kept, Inv;
    MarksKeeps(w, At(MarkClosed(w, r), c, Closing(r)), {c}, r);
  }

  lemma OverOut(w: World, c: ConnId)
    requires Inv(w) && c in w.conns && IsOver(w.conns[c].pc)
    ensures forall r <- w.obj :: c !in w.obj[r].members
  {
    InRoom(w, c);
  }

  lemma GoneKeeps(w: World, c: ConnId, r: RoomId)
    requires Inv(w) && c in w.conns && w.conns[c].pc == StartClose(r) && (r !in w.obj || w.obj[r].closed)
    ensures Kept(w, At(w, c, Left))
  {
    assert ConnOk(w, c);
    ClosedEmpty(w, r);
    InRoom(w, c);
    hide Kept, Inv;
    OverKeeps(w, c, Left);
  }

  lemma ClearsAll(w: World, c: ConnId)
    requires Inv(w) && c in w.conns
    ensures forall s <- ClearSession(w, c).sessions :: w.sessions[s] != c
  {
    OwnTables(w, c);
  }

  lemma StepKeeps(w: World, s: Step)
    requires Inv(w) && Enabled(w, s)
    ensures Kept(w, Apply(w, s))
  {
    hide Kept, Inv, Arriving, Shaking, Serving, Ending, CloseStep, CanClose;
    Stutters(w);
    match s
    case Connect(c, session, token, founds) => ConnectKeeps(w, Apply(w, s), c);
    case Run(c, ch) =>
      var pc := w.conns[c].pc;
      if IsArriving(pc) { ArrivingKeeps(w, c, ch); }
      else if IsJoining(pc) { ShakingKeeps(w, c, ch); }
      else if Inside(pc).Some? && !pc.Leave? && !pc.StartClose? { ServingKeeps(w, c, ch); }
      else { EndingKeeps(w, c, ch); }
    case Stop(r) => if !w.obj[r].closed { MarksKeeps(w, Apply(w, s), {}, r); }
    case Close(r, x) => CloseKeeps(w, r, x);
    case Gc => SameKeeps(w, Apply(w, s));
    case Tick => SameKeeps(w, Apply(w, s));
  }

  lemma {:induction false} RunsKeep(ws: seq<World>, ss: seq<Step>, maxSize: nat, ttl: int, i: nat)
    requires Runs(ws, ss, maxSize, ttl) && maxSize >= 1 && i < |ws|
    ensures Inv(ws[i])
    decreases i
  {
    hide Apply, Enabled;
    if i > 0 {
      RunsKeep(ws, ss, maxSize, ttl, i - 1);
      hide Inv;
      assert Enabled(ws[i - 1], ss[i - 1]) && ws[i - 1 + 1] == Apply(ws[i - 1], ss[i - 1]);
      StepKeeps(ws[i - 1], ss[i - 1]);
    }
  }
}
