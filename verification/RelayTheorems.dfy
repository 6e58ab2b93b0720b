/**
What the relay promises over every run of its step system: one room per session,
a stable owner, queues closed exactly once, admission only by a redeemed invite,
and complete teardown.
*/
module RelayTheorems {
  import opened Options
  import opened RelaySystem
  import opened RelayInvariants

  // ----- one room per session

  /** Two connections with one session id are never members at the same time, of
      one room or of two, and every member holds the claim of its session. */
  lemma OneRoomPerSession(ws: seq<World>, ss: seq<Step>, maxSize: nat, ttl: int, i: nat, r: RoomId, q: RoomId, c: ConnId, d: ConnId)
    requires Runs(ws, ss, maxSize, ttl) && maxSize >= 1 && i < |ws|
    requires Member(ws[i], r, c) && Member(ws[i], q, d) && c in ws[i].conns && d in ws[i].conns
    requires ws[i].conns[c].session.Some? && ws[i].conns[c].session == ws[i].conns[d].session
    ensures c == d && r == q
    ensures ws[i].conns[c].session.value in ws[i].sessions && ws[i].sessions[ws[i].conns[c].session.value] == c
  {
    RunsKeep(ws, ss, maxSize, ttl, i);
    InRoom(ws[i], c);
    InRoom(ws[i], d);
  }

  lemma OneClaimPerClient(ws: seq<World>, ss: seq<Step>, maxSize: nat, ttl: int, i: nat, s: Sid, t: Sid)
    requires Runs(ws, ss, maxSize, ttl) && maxSize >= 1 && i < |ws|
    requires s in ws[i].sessions && t in ws[i].sessions && ws[i].sessions[s] == ws[i].sessions[t]
    ensures s == t
  {
    RunsKeep(ws, ss, maxSize, ttl, i);
    assert ClaimOk(ws[i], s) && ClaimOk(ws[i], t);
  }

  // ----- the owner

  /** An open room past its creator's `Add` has its owner among its members, and
      never more members than allowed. */
  lemma OwnerIsMember(ws: seq<World>, ss: seq<Step>, maxSize: nat, ttl: int, i: nat, r: RoomId)
    requires Runs(ws, ss, maxSize, ttl) && maxSize >= 1 && i < |ws|
    requires r in ws[i].obj && !ws[i].obj[r].closed && Founded(ws[i], r)
    ensures var o := ws[i].obj[r]; o.owner.Some? && o.owner.value in o.members && 1 <= |o.members| <= ws[i].maxSize
  {
    RunsKeep(ws, ss, maxSize, ttl, i);
    assert RoomOk(ws[i], r);
  }

  /** An open room changes its owner only when its owner's own connection, past its
      owner check, takes its transfer step; and then to a member. */
  lemma OnlyOwnerTransfers(ws: seq<World>, ss: seq<Step>, maxSize: nat, ttl: int, i: nat, r: RoomId)
    requires Runs(ws, ss, maxSize, ttl) && maxSize >= 1 && i < |ss|
    requires r in ws[i].obj && !ws[i].obj[r].closed && Founded(ws[i], r)
    ensures r in ws[i + 1].obj
    ensures ws[i + 1].obj[r].closed || ws[i + 1].obj[r].owner == ws[i].obj[r].owner || HandedOver(ws[i], ws[i + 1], r)
  {
    RunsKeep(ws, ss, maxSize, ttl, i);
    OwnerIsMember(ws, ss, maxSize, ttl, i, r);
    hide Enabled, Apply, Inv, Grows, InvitesMove, Founded;
    StepKeeps(ws[i], ss[i]);
    assert OwnerKept(ws[i], ws[i + 1], r);
  }

  /** Between a passed owner check and the action, the requester is still the owner,
      or the room is closed and the action does nothing but return to the loop. */
  lemma CheckStillHolds(ws: seq<World>, ss: seq<Step>, maxSize: nat, ttl: int, i: nat, c: ConnId, ch: Choice)
    requires Runs(ws, ss, maxSize, ttl) && maxSize >= 1 && i < |ws|
    requires c in ws[i].conns && Checked(ws[i].conns[c].pc).Some? && CanRun(ws[i], c, ch)
    ensures
      var w, r := ws[i], Checked(ws[i].conns[c].pc).value;
      && r in w.obj
      && if w.obj[r].closed then w.conns[c].pc.InviteOk? || RunStep(w, c, ch) == At(w, c, Loop(r))
         else w.obj[r].owner == Some(c) && c in w.obj[r].members
  {
    RunsKeep(ws, ss, maxSize, ttl, i);
    assert PcOk(ws[i], c);
  }

  // ----- the queues

  /** What a connection's queue has gone through so far. */
  lemma QueueLifecycle(ws: seq<World>, ss: seq<Step>, maxSize: nat, ttl: int, i: nat, c: ConnId)
    requires Runs(ws, ss, maxSize, ttl) && maxSize >= 1 && i < |ws| && c in ws[i].conns
    ensures ws[i].conns[c].closes <= 1
    ensures forall r :: Member(ws[i], r, c) ==> ws[i].conns[c].closes == 0
    ensures
      var k := ws[i].conns[c];
      IsOver(k.pc) ==> k.closes == if k.failed || (k.home.Some? && ToClose(ws[i], k.home.value, c)) then 0 else 1
  {
    RunsKeep(ws, ss, maxSize, ttl, i);
    InRoom(ws[i], c);
    assert ConnOk(ws[i], c);
  }

  /** No send made inside a room method ever reaches a closed queue. */
  lemma NoSendAfterClose(ws: seq<World>, ss: seq<Step>, maxSize: nat, ttl: int, i: nat)
    requires Runs(ws, ss, maxSize, ttl) && maxSize >= 1 && i < |ws|
    ensures !ws[i].sentToClosed
  {
    RunsKeep(ws, ss, maxSize, ttl, i);
  }

  // ----- admission

  /** Admissions map one to one to minted tokens: each admitted connection that did
      not found its room redeemed its own token, for that room and in time. */
  lemma AdmissionByInvite(ws: seq<World>, ss: seq<Step>, maxSize: nat, ttl: int, i: nat, c: ConnId, d: ConnId)
    requires Runs(ws, ss, maxSize, ttl) && maxSize >= 1 && i < |ws|
    requires c in ws[i].conns && ws[i].conns[c].home.Some? && !ws[i].conns[c].founds
    requires d in ws[i].conns && ws[i].conns[d].home.Some? && !ws[i].conns[d].founds
    ensures RedeemedFor(ws[i], c, ws[i].conns[c].home.value)
    ensures ws[i].conns[c].token == ws[i].conns[d].token ==> c == d
  {
    RunsKeep(ws, ss, maxSize, ttl, i);
    assert PcOk(ws[i], c) && PcOk(ws[i], d);
  }

  predicate Gone(w: World, t: Token) {
    t in w.minted && t !in w.invites
  }

  lemma StaysGone(w: World, w': World, t: Token)
    requires Kept(w, w') && Gone(w, t)
    ensures Gone(w', t)
  {
  }

  /** A token is taken at most once: nothing that left the table comes back to it. */
  lemma {:induction false} TakenOnce(ws: seq<World>, ss: seq<Step>, maxSize: nat, ttl: int, i: nat, j: nat, t: Token)
    requires Runs(ws, ss, maxSize, ttl) && maxSize >= 1 && i <= j < |ws| && Gone(ws[i], t)
    ensures Gone(ws[j], t)
    decreases j
  {
    hide Apply, Enabled, Gone, Kept;
    if i < j {
      TakenOnce(ws, ss, maxSize, ttl, i, j - 1, t);
      RunsKeep(ws, ss, maxSize, ttl, j - 1);
      assert Enabled(ws[j - 1], ss[j - 1]) && ws[j - 1 + 1] == Apply(ws[j - 1], ss[j - 1]);
      StepKeeps(ws[j - 1], ss[j - 1]);
      StaysGone(ws[j - 1], ws[j], t);
    }
  }

  // ----- teardown

  /** When every connection has ended and no `Close` is midway, the rooms, sessions
      and handshakes tables are empty, and every room is closed. */
  lemma CompleteTeardown(ws: seq<World>, ss: seq<Step>, maxSize: nat, ttl: int, i: nat)
    requires Runs(ws, ss, maxSize, ttl) && maxSize >= 1 && i < |ws|
    requires ws[i].closers == map[] && forall c <- ws[i].conns :: ws[i].conns[c].pc.Ended?
    ensures ws[i].rooms == {} && ws[i].sessions == map[] && ws[i].handshakes == map[]
    ensures forall r <- ws[i].obj :: ws[i].obj[r].closed
  {
    var w := ws[i];
    RunsKeep(ws, ss, maxSize, ttl, i);
    forall r <- w.obj ensures w.obj[r].closed {
      assert RoomOk(w, r);
    }
    assert forall s <- w.sessions :: ClaimOk(w, s);
    assert forall h <- w.handshakes :: HandshakeOk(w, h);
  }
}
