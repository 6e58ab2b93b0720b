/**
What the history of a run says about one connection: why its queue may never be
closed, and that a joiner who was turned away never takes an invite.
*/
module RelayHistory {
  import opened Options
  import opened RelaySystem
  import opened RelayInvariants

  /** On the way out without ever having been in a room. */
  predicate TurnedAway(pc: Pc) {
    match pc
    case CloseOut => true
    case Waiting => true
    case DropHs => true
    case DropClaim => true
    case Ended => true
    case _ => false
  }

  /** The founder's own `Add`, about to be refused. */
  predicate Unwelcome(w: World, c: ConnId)
    requires c in w.conns
  {
    w.conns[c].pc.FirstAdd? && !Admits(w, w.conns[c].pc.room)
  }

  /** Only closings of its queue reach a connection from outside. */
  ghost predicate OthersStay(w: World, w': World, c: ConnId) {
    && w'.conns.Keys == w.conns.Keys
    && forall d <- w.conns :: d != c ==> w'.conns[d] == w.conns[d].(closes := w'.conns[d].closes)
  }

  ghost predicate AllStay(w: World, w': World) {
    && w'.conns.Keys == w.conns.Keys
    && forall d <- w.conns :: w'.conns[d] == w.conns[d].(closes := w'.conns[d].closes)
  }

  predicate Moved(w: World, w': World, c: ConnId)
    requires c in w.conns && c in w'.conns
  {
    && w'.conns[c].failed == (w.conns[c].failed || Unwelcome(w, c))
    && (TurnedAway(w.conns[c].pc) ==> TurnedAway(w'.conns[c].pc))
    && (w'.conns[c].pc.JoinerClaim? ==> w.conns[c].pc.JoinerClaim?)
  }

  ghost predicate RedeemedBy(w: World, w': World, c: ConnId)
    requires c in w.conns
  {
    if w.conns[c].pc.Redeem? then forall t <- w'.redeemed :: (t in w.redeemed && w'.redeemed[t] == w.redeemed[t]) || w'.redeemed[t].0 == c
    else w'.redeemed == w.redeemed
  }

  /** What `c`'s own step does to these histories. */
  ghost predicate OwnStep(w: World, w': World, c: ConnId)
    requires c in w.conns
  {
    OthersStay(w, w', c) && c in w'.conns && Moved(w, w', c) && RedeemedBy(w, w', c)
  }

  /** Apart from closed queues, nothing that these histories speak of. */
  ghost predicate Quietly(w: World, w': World) {
    AllStay(w, w') && w'.redeemed == w.redeemed
  }

  lemma SendsQuietly(w: World, to: set<ConnId>)
    ensures Quietly(w, Sends(w, to))
  {
  }

  lemma CloseQuietly(w: World, c: ConnId)
    requires c in w.conns
    ensures Quietly(w, CloseQueue(w, c))
  {
  }

  lemma SessionQuietly(w: World, c: ConnId)
    requires c in w.conns
    ensures Quietly(w, ClearSession(w, c))
  {
  }

  lemma MarkQuietly(w: World, r: RoomId)
    requires r in w.obj
    ensures Quietly(w, MarkClosed(w, r))
  {
  }

  lemma ClearQuietly(w: World, c: ConnId)
    ensures Quietly(w, ClearByClient(w, c))
  {
  }

  lemma ThenSame(w: World, w1: World, w2: World)
    requires Quietly(w, w1) && w2.conns == w1.conns && w2.redeemed == w1.redeemed
    ensures Quietly(w, w2)
  {
  }

  lemma SameQuietly(w: World, w': World)
    requires w'.conns == w.conns && w'.redeemed == w.redeemed
    ensures Quietly(w, w')
  {
  }

  /** A step that ends with `c` at `pc`. */
  lemma MoveIs(w: World, w1: World, c: ConnId, pc: Pc)
    requires c in w.conns && Quietly(w, w1)
    requires !w.conns[c].pc.FirstAdd? && (TurnedAway(w.conns[c].pc) ==> TurnedAway(pc)) && !pc.JoinerClaim?
    ensures c in w1.conns && OwnStep(w, At(w1, c, pc), c)
  {
  }

  lemma StayIs(w: World, w': World, c: ConnId)
    requires c in w.conns && Quietly(w, w') && !w.conns[c].pc.FirstAdd?
    ensures OwnStep(w, w', c)
  {
  }

  lemma ClaimIs(w: World, c: ConnId, next: Pc)
    requires c in w.conns && IsJoining(w.conns[c].pc) && !TurnedAway(w.conns[c].pc) && !w.conns[c].pc.FirstAdd? && !next.JoinerClaim?
    ensures OwnStep(w, Claim(w, c, next), c)
  {
  }

  lemma AddIs(w: World, r: RoomId, c: ConnId, next: Pc)
    requires c in w.conns && Admits(w, r) && !TurnedAway(w.conns[c].pc) && !Unwelcome(w, c) && !next.JoinerClaim?
    ensures r in w.obj && OwnStep(w, Add(w, r, c, next), c)
  {
  }

  lemma FailIs(w: World, c: ConnId, r: RoomId)
    requires c in w.conns && w.conns[c].pc == FirstAdd(r) && !Admits(w, r)
    ensures OwnStep(w, At(w.(conns := w.conns[c := w.conns[c].(failed := true)]), c, Loop(r)), c)
  {
  }

  lemma RedeemIs(w: World, c: ConnId)
    requires c in w.conns && w.conns[c].pc.Redeem?
    ensures OwnStep(w, RedeemStep(w, c), c)
  {
  }

  lemma ArrivingIs(w: World, c: ConnId, ch: Choice)
    requires CanRun(w, c, ch) && IsArriving(w.conns[c].pc)
    ensures OwnStep(w, Arriving(w, c, ch), c)
  {
    hide OwnStep, Quietly, At, Claim, Add, RedeemStep, Admits;
    SameQuietly(w, w);
    match w.conns[c].pc
    case OwnerClaim => if ch.Limited? { MoveIs(w, w, c, CloseOut); } else { ClaimIs(w, c, Create); }
    case JoinerClaim => if ch.Limited? { MoveIs(w, w, c, CloseOut); } else { ClaimIs(w, c, Redeem); }
    case Create =>
      var w1 := w.(obj := w.obj[ch.id := Room({}, None, false, c)], rooms := w.rooms + {ch.id});
      SameQuietly(w, w1);
      MoveIs(w, w1, c, FirstAdd(ch.id));
    case FirstAdd(r) => if Admits(w, r) { AddIs(w, r, c, Loop(r)); } else { FailIs(w, c, r); }
    case Redeem => RedeemIs(w, c);
  }

  lemma ShakingIs(w: World, c: ConnId, ch: Choice)
    requires CanRun(w, c, ch) && IsJoining(w.conns[c].pc) && !IsArriving(w.conns[c].pc)
    ensures OwnStep(w, Shaking(w, c, ch), c)
  {
    hide OwnStep, Quietly, At, Add, Admits, CloseQueue;
    SameQuietly(w, w);
    match w.conns[c].pc
    case Lookup(r) => MoveIs(w, w, c, if r in w.rooms then Capacity(r) else CloseOut);
    case Capacity(r) => MoveIs(w, w, c, if Admits(w, r) then FindOwner(r) else CloseOut);
    case FindOwner(r) =>
      MoveIs(w, w, c, if r in w.obj && !w.obj[r].closed && w.obj[r].owner.Some? && w.obj[r].owner.value in w.obj[r].members
                      then OpenHs(r, w.obj[r].owner.value) else CloseOut);
    case OpenHs(r, o) => HandshakesIs(w, c, w.handshakes[ch.id := Handshake(r, c, o)], w.usedHs + {ch.id}, HsLoop(r, ch.id));
    case HsLoop(r, h) =>
      if ch.AskEnter? && Admits(w, r) {
        AddIs(w, r, c, Entered(r, h));
      } else {
        MoveIs(w, w, c, if ch.AskEnter? || ch.Quit? then NotEntered(h) else HsLoop(r, h));
      }
    case NotEntered(h) =>
      HandshakesIs(w, c, w.handshakes - {h}, w.usedHs, CloseOut);
      assert w.(handshakes := w.handshakes - {h}, usedHs := w.usedHs) == w.(handshakes := w.handshakes - {h});
    case CloseOut => CloseQuietly(w, c); MoveIs(w, CloseQueue(w, c), c, Waiting);
  }

  lemma HandshakesIs(w: World, c: ConnId, hs: map<HsId, Handshake>, used: set<HsId>, pc: Pc)
    requires c in w.conns && !w.conns[c].pc.FirstAdd? && (TurnedAway(w.conns[c].pc) ==> TurnedAway(pc)) && !pc.JoinerClaim?
    ensures OwnStep(w, At(w.(handshakes := hs, usedHs := used), c, pc), c)
  {
    SameQuietly(w, w.(handshakes := hs, usedHs := used));
    MoveIs(w, w.(handshakes := hs, usedHs := used), c, pc);
    hide OwnStep, At;
  }

  lemma InvitesIs(w: World, c: ConnId, invites: map<Token, Invite>, minted: map<Token, Invite>, pc: Pc)
    requires c in w.conns && !w.conns[c].pc.FirstAdd? && !TurnedAway(w.conns[c].pc) && !pc.JoinerClaim?
    ensures OwnStep(w, At(w.(invites := invites, minted := minted), c, pc), c)
  {
    SameQuietly(w, w.(invites := invites, minted := minted));
    MoveIs(w, w.(invites := invites, minted := minted), c, pc);
    hide OwnStep, At;
  }

  lemma InLoopIs(w: World, c: ConnId, r: RoomId, ch: Choice)
    requires CanRun(w, c, ch) && w.conns[c].pc == Loop(r)
    ensures OwnStep(w, InLoop(w, c, r, ch), c)
  {
  }

  lemma KickQuietly(w: World, r: RoomId, t: ConnId)
    requires r in w.obj && t in w.conns
    ensures Quietly(w, Kick(w, r, t)) && Quietly(w, Depart(w, r, t))
  {
  }

  lemma ServingIs(w: World, c: ConnId, ch: Choice)
    requires CanRun(w, c, ch) && Inside(w.conns[c].pc).Some? && !w.conns[c].pc.Leave? && !w.conns[c].pc.StartClose?
    ensures OwnStep(w, Serving(w, c, ch), c)
  {
    hide OwnStep, InLoop, Kick, Sends, ClearByClient, At, Quietly, IsOwner;
    SameQuietly(w, w);
    match w.conns[c].pc
    case Entered(r, h) =>
      HandshakesIs(w, c, w.handshakes - {h}, w.usedHs, Announce(r));
      assert w.(handshakes := w.handshakes - {h}, usedHs := w.usedHs) == w.(handshakes := w.handshakes - {h});
    case Announce(r) => TellsIs(w, c, r, if r in w.obj then w.obj[r].members else {}, r in w.obj && !w.obj[r].closed);
    case Loop(r) => InLoopIs(w, c, r, ch);
    case InviteOk(r) =>
      var i := Invite(r, w.now + w.ttl);
      InvitesIs(w, c, w.invites[ch.id := i], w.minted[ch.id := i], Loop(r));
    case TransferOk(r, t) => TransferIs(w, c, r, t);
    case KickOk(r, t) => KickIs(w, c, r, t);
    case Kicked(r, t) =>
      ClearQuietly(w, t);
      MoveIs(w, ClearByClient(w, t), c, Loop(r));
    case RekeyOk(r, t) => TellsIs(w, c, r, {t}, r in w.obj && !w.obj[r].closed && t in w.obj[r].members);
    case RosterOk(r) => TellsIs(w, c, r, if r in w.obj then w.obj[r].members - {c} else {}, r in w.obj && !w.obj[r].closed);
  }

  /** A send inside a room method, or none, on the way back to the loop. */
  lemma TellsIs(w: World, c: ConnId, r: RoomId, to: set<ConnId>, open: bool)
    requires c in w.conns && !w.conns[c].pc.FirstAdd? && !TurnedAway(w.conns[c].pc)
    ensures OwnStep(w, At(if open then Sends(w, to) else w, c, Loop(r)), c)
  {
    SendsQuietly(w, to);
    SameQuietly(w, w);
    MoveIs(w, if open then Sends(w, to) else w, c, Loop(r));
    hide OwnStep, At, Sends, Quietly;
  }

  lemma TransferIs(w: World, c: ConnId, r: RoomId, t: ConnId)
    requires c in w.conns && w.conns[c].pc == TransferOk(r, t)
    ensures OwnStep(w, Serving(w, c, Go), c)
  {
    hide OwnStep, At, Quietly;
    if r in w.obj && !w.obj[r].closed && t in w.obj[r].members {
      var w1 := w.(obj := w.obj[r := w.obj[r].(owner := Some(t))]);
      SameQuietly(w, w1);
      MoveIs(w, w1, c, Announce(r));
    } else {
      SameQuietly(w, w);
      MoveIs(w, w, c, Loop(r));
    }
  }

  lemma KickIs(w: World, c: ConnId, r: RoomId, t: ConnId)
    requires c in w.conns && w.conns[c].pc == KickOk(r, t)
    ensures OwnStep(w, Serving(w, c, Go), c)
  {
    hide OwnStep, At, Quietly, Kick;
    if r in w.obj && !w.obj[r].closed && t in w.obj[r].members && w.obj[r].owner != Some(t) && t in w.conns {
      KickQuietly(w, r, t);
      MoveIs(w, Kick(w, r, t), c, Kicked(r, t));
    } else {
      SameQuietly(w, w);
      MoveIs(w, w, c, Loop(r));
    }
  }

  lemma LeavingIs(w: World, c: ConnId, r: RoomId)
    requires c in w.conns && w.conns[c].pc == Leave(r)
    ensures OwnStep(w, Leaving(w, c, r), c)
  {
    hide OwnStep, Quietly, At;
    SameQuietly(w, w);
    if r !in w.obj || w.obj[r].closed || c !in w.obj[r].members {
      MoveIs(w, w, c, Left);
    } else if w.obj[r].owner == Some(c) {
      MoveIs(w, w, c, StartClose(r));
    } else {
      KickQuietly(w, r, c);
      var w1 := Depart(w, r, c);
      MoveIs(w, w1, c, if w1.obj[r].members == {} then StartClose(r) else Left);
      hide Depart;
    }
  }

  lemma EndingIs(w: World, c: ConnId, ch: Choice)
    requires CanRun(w, c, ch) && (IsOver(w.conns[c].pc) || w.conns[c].pc.Leave? || w.conns[c].pc.StartClose?)
    ensures OwnStep(w, Ending(w, c, ch), c)
  {
    hide OwnStep, Quietly, At, Leaving, MarkClosed, ClearSession;
    SameQuietly(w, w);
    match w.conns[c].pc
    case Leave(r) => LeavingIs(w, c, r);
    case StartClose(r) =>
      if r !in w.obj || w.obj[r].closed { MoveIs(w, w, c, Left); } else { MarkQuietly(w, r); MoveIs(w, MarkClosed(w, r), c, Closing(r)); }
    case Closing(r) => MoveIs(w, w, c, Left);
    case Left => SessionQuietly(w, c); MoveIs(w, ClearSession(w, c), c, Waiting);
    case Waiting => MoveIs(w, w, c, DropHs);
    case DropHs =>
      var w1 := w.(handshakes := map h | h in w.handshakes && w.handshakes[h].joiner != c && w.handshakes[h].owner != c :: w.handshakes[h]);
      SameQuietly(w, w1);
      MoveIs(w, w1, c, DropClaim);
    case DropClaim => SessionQuietly(w, c); MoveIs(w, ClearSession(w, c), c, Ended);
  }

  lemma RunStepIs(w: World, c: ConnId, ch: Choice)
    requires CanRun(w, c, ch)
    ensures OwnStep(w, RunStep(w, c, ch), c)
  {
    hide OwnStep, Arriving, Shaking, Serving, Ending;
    var pc := w.conns[c].pc;
    if IsArriving(pc) { ArrivingIs(w, c, ch); }
    else if IsJoining(pc) { ShakingIs(w, c, ch); }
    else if Inside(pc).Some? && !pc.Leave? && !pc.StartClose? { ServingIs(w, c, ch); }
    else { EndingIs(w, c, ch); }
  }

  lemma CloseStepIs(w: World, r: RoomId, x: ConnId)
    requires CanClose(w, r, x)
    ensures Quietly(w, CloseStep(w, r, x))
  {
    hide Quietly;
    if w.closers[r].stage == Drain {
      DrainQuietly(w, r, x);
    } else {
      SameQuietly(w, CloseStep(w, r, x));
    }
  }

  lemma DrainQuietly(w: World, r: RoomId, x: ConnId)
    requires CanClose(w, r, x) && w.closers[r].stage == Drain
    ensures Quietly(w, CloseStep(w, r, x))
  {
    hide Quietly, CloseQueue, Sends, ClearByClient;
    ClearQuietly(w, x);
    var k := w.closers[r];
    if k.todo == {} {
      SameQuietly(w, CloseStep(w, r, x));
    } else if x !in k.cleared {
      ThenSame(w, ClearByClient(w, x), CloseStep(w, r, x));
    } else {
      ShutQuietly(w, x, CloseStep(w, r, x), w.closers[r := k.(todo := k.todo - {x})]);
    }
  }

  lemma ShutQuietly(w: World, x: ConnId, w': World, closers: map<RoomId, Closer>)
    requires x in w.conns && w' == CloseQueue(Sends(w, {x}), x).(closers := closers)
    ensures Quietly(w, w')
  {
  }

  ghost predicate Connected(w: World, w': World, s: Step)
    requires s.Connect?
  {
    && w'.redeemed == w.redeemed
    && w'.conns == w.conns[s.c := Conn(s.session, s.token, s.hello.Creates?, FirstPc(s.hello), 0, None, false)]
  }

  /** What any step of the system does to these histories. */
  lemma StepIs(w: World, s: Step)
    requires Enabled(w, s)
    ensures
      var w' := Apply(w, s);
      if s.Run? then s.c in w.conns && OwnStep(w, w', s.c) else if s.Connect? then s.c !in w.conns && Connected(w, w', s) else Quietly(w, w')
  {
    hide RunStep, CloseStep, CanClose, OwnStep;
    match s
    case Run(c, ch) => RunStepIs(w, c, ch);
    case Close(r, x) => CloseStepIs(w, r, x);
    case Connect(_, _, _, _) =>
    case Stop(r) => MarkQuietly(w, r);
    case Gc =>
    case Tick =>
  }

  // ----- a queue that is never closed

  /** Step `s` is the founder `c` taking its own `Add` in a room that was closed meanwhile. */
  predicate RefusedAt(w: World, s: Step, c: ConnId) {
    && s.Run? && s.c == c && c in w.conns && w.conns[c].pc.FirstAdd?
    && w.conns[c].pc.room in w.obj && w.obj[w.conns[c].pc.room].closed
  }

  lemma UnwelcomeMeansClosed(w: World, c: ConnId)
    requires Inv(w) && c in w.conns && w.conns[c].pc.FirstAdd?
    ensures w.conns[c].pc.room in w.obj && (Unwelcome(w, c) <==> w.obj[w.conns[c].pc.room].closed)
  {
    assert PcOk(w, c);
  }

  lemma StepFails(w: World, s: Step, c: ConnId)
    requires Inv(w) && Enabled(w, s) && c in Apply(w, s).conns
    ensures Apply(w, s).conns[c].failed <==> (c in w.conns && w.conns[c].failed) || RefusedAt(w, s, c)
  {
    StepIs(w, s);
    if c in w.conns && w.conns[c].pc.FirstAdd? {
      UnwelcomeMeansClosed(w, c);
    }
    hide Inv, Apply, Enabled, Unwelcome, RedeemedBy;
  }

  /** A connection failed exactly if its room was closed before its own first `Add`. */
  lemma {:induction false} FailedIff(ws: seq<World>, ss: seq<Step>, maxSize: nat, ttl: int, i: nat, c: ConnId)
    requires Runs(ws, ss, maxSize, ttl) && maxSize >= 1 && i < |ws| && c in ws[i].conns
    ensures ws[i].conns[c].failed <==> exists j :: 0 <= j < i && RefusedAt(ws[j], ss[j], c)
    decreases i
  {
    hide Apply, Enabled, RefusedAt;
    if i > 0 {
      RunsKeep(ws, ss, maxSize, ttl, i - 1);
      hide Inv;
      assert Enabled(ws[i - 1], ss[i - 1]) && ws[i - 1 + 1] == Apply(ws[i - 1], ss[i - 1]);
      StepFails(ws[i - 1], ss[i - 1], c);
      if c in ws[i - 1].conns {
        FailedIff(ws, ss, maxSize, ttl, i - 1, c);
      } else {
        NotThere(ws, ss, maxSize, ttl, i - 1, c);
      }
    }
  }

  /** A connection that is not there yet has taken no step. */
  lemma {:induction false} NotThere(ws: seq<World>, ss: seq<Step>, maxSize: nat, ttl: int, i: nat, c: ConnId)
    requires Runs(ws, ss, maxSize, ttl) && i < |ws| && c !in ws[i].conns
    ensures forall j :: 0 <= j < i ==> !RefusedAt(ws[j], ss[j], c)
    decreases i
  {
    hide Apply, Enabled;
    if i > 0 {
      assert Enabled(ws[i - 1], ss[i - 1]) && ws[i - 1 + 1] == Apply(ws[i - 1], ss[i - 1]);
      if c in ws[i - 1].conns {
        StillThere(ws[i - 1], ss[i - 1], c);
      }
      NotThere(ws, ss, maxSize, ttl, i - 1, c);
    }
  }

  lemma StillThere(w: World, s: Step, c: ConnId)
    requires Enabled(w, s) && c in w.conns
    ensures c in Apply(w, s).conns
  {
    StepIs(w, s);
    hide Apply, Enabled;
  }

  /** A connection past its room, with no `Close` still to reach it, has had its queue
      closed exactly once if and only if it did not found a room that was closed before
      its own `Add`; and otherwise never. */
  lemma ClosedOnceIff(ws: seq<World>, ss: seq<Step>, maxSize: nat, ttl: int, i: nat, c: ConnId)
    requires Runs(ws, ss, maxSize, ttl) && maxSize >= 1 && i < |ws| && c in ws[i].conns
    requires IsOver(ws[i].conns[c].pc) && forall r <- ws[i].closers :: c !in ws[i].closers[r].todo
    ensures ws[i].conns[c].closes == if exists j :: 0 <= j < i && RefusedAt(ws[j], ss[j], c) then 0 else 1
  {
    FailedIff(ws, ss, maxSize, ttl, i, c);
    RunsKeep(ws, ss, maxSize, ttl, i);
    assert ConnOk(ws[i], c);
    hide Runs, RefusedAt;
  }

  // ----- and a run in which one is not

  ghost predicate Goes(w: World, s: Step, w': World) {
    Enabled(w, s) && Apply(w, s) == w'
  }

  function Founder(pc: Pc, failed: bool): Conn {
    Conn(None, 0, true, pc, 0, None, failed)
  }

  /** A relay with the one room 7, and its founder. */
  function WithRoom(rooms: set<RoomId>, closed: bool, closers: map<RoomId, Closer>, founder: Conn): World {
    Start(1, 0).(rooms := rooms, obj := map[7 := Room({}, None, closed, 0)], closers := closers, conns := map[0 := founder])
  }

  lemma RoomIsMade()
    ensures
      var w := Start(1, 0).(conns := map[0 := Founder(OwnerClaim, false)]);
      var w' := Start(1, 0).(conns := map[0 := Founder(Create, false)]);
      && Goes(Start(1, 0), Connect(0, None, 0, Creates), w)
      && Goes(w, Run(0, Go), w')
      && Goes(w', Run(0, Fresh(7)), WithRoom({7}, false, map[], Founder(FirstAdd(7), false)))
  {
  }

  lemma RoomIsStopped()
    ensures
      var k := Founder(FirstAdd(7), false);
      && Goes(WithRoom({7}, false, map[], k), Stop(7), WithRoom({7}, true, map[7 := Closer(Unregister, {}, {})], k))
      && Goes(WithRoom({7}, true, map[7 := Closer(Unregister, {}, {})], k), Close(7, 0), WithRoom({}, true, map[7 := Closer(DropInvites, {}, {})], k))
      && Goes(WithRoom({}, true, map[7 := Closer(DropInvites, {}, {})], k), Close(7, 0), WithRoom({}, true, map[7 := Closer(Drain, {}, {})], k))
      && Goes(WithRoom({}, true, map[7 := Closer(Drain, {}, {})], k), Close(7, 0), WithRoom({}, true, map[], k))
  {
    RoomIsDropped(Founder(FirstAdd(7), false));
  }

  lemma NoInvites(invites: map<Token, Invite>, r: RoomId)
    requires forall t <- invites :: invites[t].room != r
    ensures (map t | t in invites && invites[t].room != r :: invites[t]) == invites
  {
  }

  lemma RoomIsDropped(k: Conn)
    ensures Goes(WithRoom({}, true, map[7 := Closer(DropInvites, {}, {})], k), Close(7, 0), WithRoom({}, true, map[7 := Closer(Drain, {}, {})], k))
    ensures Goes(WithRoom({}, true, map[7 := Closer(Drain, {}, {})], k), Close(7, 0), WithRoom({}, true, map[], k))
  {
    var w := WithRoom({}, true, map[7 := Closer(DropInvites, {}, {})], k);
    NoInvites(w.invites, 7);
    assert map[7 := Closer(DropInvites, {}, {})][7 := Closer(Drain, {}, {})] == map[7 := Closer(Drain, {}, {})];
  }

  function Shut(founder: Conn): World {
    WithRoom({}, true, map[], founder)
  }

  lemma AtShut(pc: Pc, next: Pc)
    ensures At(Shut(Founder(pc, true)), 0, next) == Shut(Founder(next, true))
  {
    assert map[0 := Founder(pc, true)][0 := Founder(next, true)] == map[0 := Founder(next, true)];
  }

  lemma FounderIsRefused()
    ensures Goes(Shut(Founder(FirstAdd(7), false)), Run(0, Go), Shut(Founder(Loop(7), true)))
  {
    AtShut(FirstAdd(7), Loop(7));
    hide At;
    var w := Shut(Founder(FirstAdd(7), false));
    assert w.(conns := w.conns[0 := w.conns[0].(failed := true)]) == Shut(Founder(FirstAdd(7), true));
  }

  lemma FounderQuits()
    ensures Goes(Shut(Founder(Loop(7), true)), Run(0, Quit), Shut(Founder(Leave(7), true)))
  {
    AtShut(Loop(7), Leave(7));
    hide At, Shaking, Arriving, Ending;
  }

  lemma FounderLeaves()
    ensures Goes(Shut(Founder(Leave(7), true)), Run(0, Go), Shut(Founder(Left, true)))
  {
    AtShut(Leave(7), Left);
    hide At, Shaking, Arriving, Serving;
  }

  lemma FounderReleases()
    ensures Goes(Shut(Founder(Left, true)), Run(0, Go), Shut(Founder(Waiting, true)))
  {
    AtShut(Left, Waiting);
    hide At, Shaking, Arriving, Serving;
  }

  lemma FounderCleansUp()
    ensures Goes(Shut(Founder(Waiting, true)), Run(0, Go), Shut(Founder(DropHs, true)))
  {
    AtShut(Waiting, DropHs);
    hide At, Shaking, Arriving, Serving;
  }

  lemma NoneDropped(w: World, c: ConnId)
    requires forall h <- w.handshakes :: w.handshakes[h].joiner != c && w.handshakes[h].owner != c
    ensures w.(handshakes := map h | h in w.handshakes && w.handshakes[h].joiner != c && w.handshakes[h].owner != c :: w.handshakes[h]) == w
  {
  }

  lemma FounderDropsHandshakes()
    ensures Goes(Shut(Founder(DropHs, true)), Run(0, Go), Shut(Founder(DropClaim, true)))
  {
    AtShut(DropHs, DropClaim);
    NoneDropped(Shut(Founder(DropHs, true)), 0);
    hide At, Shaking, Arriving, Serving;
  }

  lemma FounderEnds()
    ensures Goes(Shut(Founder(DropClaim, true)), Run(0, Go), Shut(Founder(Ended, true)))
  {
    AtShut(DropClaim, Ended);
    hide At, Shaking, Arriving, Serving;
  }

  /** The run, state by state ... */
  function Stage(i: nat): World {
    var k := Founder(FirstAdd(7), false);
    match i
    case 0 => Start(1, 0)
    case 1 => Start(1, 0).(conns := map[0 := Founder(OwnerClaim, false)])
    case 2 => Start(1, 0).(conns := map[0 := Founder(Create, false)])
    case 3 => WithRoom({7}, false, map[], k)
    case 4 => WithRoom({7}, true, map[7 := Closer(Unregister, {}, {})], k)
    case 5 => WithRoom({}, true, map[7 := Closer(DropInvites, {}, {})], k)
    case 6 => WithRoom({}, true, map[7 := Closer(Drain, {}, {})], k)
    case 7 => Shut(k)
    case _ => Shut(Founder(match i case 8 => Loop(7) case 9 => Leave(7) case 10 => Left case 11 => Waiting case 12 => DropHs case 13 => DropClaim case _ => Ended, true))
  }

  /** ... and step by step. */
  function StepNo(i: nat): Step {
    match i
    case 0 => Connect(0, None, 0, Creates)
    case 2 => Run(0, Fresh(7))
    case 3 => Stop(7)
    case 8 => Run(0, Quit)
    case _ => if 4 <= i <= 6 then Close(7, 0) else Run(0, Go)
  }

  lemma StageGoes(i: nat)
    requires i < 14
    ensures Goes(Stage(i), StepNo(i), Stage(i + 1))
  {
    hide Goes, Founder, WithRoom, Start;
    if i < 3 { RoomIsMade(); }
    else if i < 7 { RoomIsStopped(); }
    else if i < 8 { FounderIsRefused(); }
    else if i < 9 { FounderQuits(); }
    else if i < 10 { FounderLeaves(); }
    else if i < 11 { FounderReleases(); }
    else if i < 12 { FounderCleansUp(); }
    else if i < 13 { FounderDropsHandshakes(); }
    else { FounderEnds(); }
  }

  /** A room is closed before its founder's `Add`; the founder's connection runs to its
      end, nothing is midway any more, and its queue was never closed. */
  lemma NeverClosed() returns (ws: seq<World>, ss: seq<Step>)
    ensures Runs(ws, ss, 1, 0)
    ensures var w := ws[|ss|]; w.closers == map[] && 0 in w.conns && w.conns[0].pc.Ended? && w.conns[0].closes == 0
  {
    ws, ss := seq(15, (i: nat) => Stage(i)), seq(14, (i: nat) => StepNo(i));
    assert ws[0] == Start(1, 0) && ws[14] == Shut(Founder(Ended, true));
    hide Stage, StepNo, Enabled, Apply;
    forall i | 0 <= i < 14 ensures Enabled(ws[i], ss[i]) && ws[i + 1] == Apply(ws[i], ss[i]) {
      StageGoes(i);
    }
  }

  // ----- a joiner that was turned away

  /** The limiter and the session claim decide before any invite is touched. */
  lemma ClaimComesFirst(w: World, c: ConnId, ch: Choice)
    requires c in w.conns && w.conns[c].pc.JoinerClaim? && CanRun(w, c, ch)
    ensures
      var w', k := RunStep(w, c, ch), w.conns[c];
      && w'.invites == w.invites && w'.redeemed == w.redeemed
      && c in w'.conns && w'.conns[c].pc == (if ch.Limited? || (k.session.Some? && k.session.value in w.sessions) then CloseOut else Redeem)
  {
  }

  ghost predicate TookNothing(w: World, c: ConnId) {
    forall t <- w.redeemed :: w.redeemed[t].0 != c
  }

  lemma StepTakesNothing(w: World, s: Step, c: ConnId)
    requires Enabled(w, s) && TookNothing(w, c)
    requires s.Run? && s.c == c && c in w.conns ==> !w.conns[c].pc.Redeem?
    ensures TookNothing(Apply(w, s), c)
  {
    StepIs(w, s);
    hide Apply, Enabled, CanRun;
  }

  /** Nobody has taken an invite before its session claim. */
  lemma {:induction false} NothingBefore(ws: seq<World>, ss: seq<Step>, maxSize: nat, ttl: int, i: nat, c: ConnId)
    requires Runs(ws, ss, maxSize, ttl) && i < |ws| && (c in ws[i].conns ==> ws[i].conns[c].pc.JoinerClaim?)
    ensures TookNothing(ws[i], c)
    decreases i
  {
    hide Apply, Enabled;
    if i > 0 {
      var w, s := ws[i - 1], ss[i - 1];
      assert Enabled(w, s) && ws[i - 1 + 1] == Apply(w, s);
      BackToClaim(w, s, c);
      NothingBefore(ws, ss, maxSize, ttl, i - 1, c);
      StepTakesNothing(w, s, c);
    }
  }

  lemma BackToClaim(w: World, s: Step, c: ConnId)
    requires Enabled(w, s) && (c in Apply(w, s).conns ==> Apply(w, s).conns[c].pc.JoinerClaim?)
    ensures c in w.conns ==> w.conns[c].pc.JoinerClaim?
  {
    StepIs(w, s);
    hide Apply, Enabled;
  }

  lemma {:induction false} StaysAway(ws: seq<World>, ss: seq<Step>, maxSize: nat, ttl: int, i: nat, k: nat, c: ConnId)
    requires Runs(ws, ss, maxSize, ttl) && i <= k < |ws|
    requires c in ws[i].conns && TurnedAway(ws[i].conns[c].pc) && TookNothing(ws[i], c)
    ensures c in ws[k].conns && TurnedAway(ws[k].conns[c].pc) && TookNothing(ws[k], c)
    decreases k
  {
    hide Apply, Enabled, TookNothing;
    if i < k {
      var w, s := ws[k - 1], ss[k - 1];
      StaysAway(ws, ss, maxSize, ttl, i, k - 1, c);
      assert Enabled(w, s) && ws[k - 1 + 1] == Apply(w, s);
      StepTakesNothing(w, s, c);
      StepIs(w, s);
    }
  }

  /** A joiner refused by the limiter or by the session claim has touched no invite, and
      never redeems one in the whole rest of the run. */
  lemma RefusalSparesInvites(ws: seq<World>, ss: seq<Step>, maxSize: nat, ttl: int, i: nat, k: nat, c: ConnId)
    requires Runs(ws, ss, maxSize, ttl) && i < k < |ws| && ss[i].Run? && ss[i].c == c
    requires c in ws[i].conns && ws[i].conns[c].pc.JoinerClaim?
    requires var s := ws[i].conns[c].session; ss[i].choice.Limited? || (s.Some? && s.value in ws[i].sessions)
    ensures ws[i + 1].invites == ws[i].invites && ws[i + 1].redeemed == ws[i].redeemed
    ensures forall t <- ws[k].redeemed :: ws[k].redeemed[t].0 != c
  {
    assert Enabled(ws[i], ss[i]) && ws[i + 1] == Apply(ws[i], ss[i]);
    NothingBefore(ws, ss, maxSize, ttl, i, c);
    ClaimComesFirst(ws[i], c, ss[i].choice);
    hide RunStep;
    StaysAway(ws, ss, maxSize, ttl, i + 1, k, c);
  }
}
