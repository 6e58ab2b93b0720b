/**
The owner's and the joiner's side of a join over the relay (web/src/main.ts): two
handshake sessions, the exchange of public keys under the agreed secret, and the
delivery of the room key, over one first-in-first-out queue each way. This is what
one step of module RotationNet, `Shake`, stands for: both sides confirmed, both
`member_key` frames in flight.
*/
module HandshakePair {
  import opened Options
  import opened Bytes
  import S = Spake2
  import H = Handshake

  type Pub = nat
  type Key = nat

  /** `MemberKey` is sealed under the secret `ke`; `KeyDeliver` under the pair of the
      owner's and the joiner's keys. The first two tell each side to open its session. */
  datatype Msg = InviteRedeemed | RedeemOk | Pake(f: H.Frame) | MemberKey(ke: Bytes, pub: Pub) | KeyDeliver(owner: Pub, joiner: Pub, key: Key)

  /** What both sides start from. `fresh` is the key the owner will generate. */
  datatype Setup = Setup(g: S.Group, su: S.Suite, a: S.State, b: S.State, ownerPub: Pub, joinerPub: Pub, newKey: Key)

  /** `open` is the handshake's entry in the table; `dropped` counts `member_key` and
      `key_deliver` frames that found no entry, no secret, or did not open. */
  datatype Owner = Owner(hs: Option<H.Session>, ke: Option<Bytes>, open: bool, memberPub: Option<Pub>, dropped: nat, failed: bool)

  datatype Joiner = Joiner(hs: Option<H.Session>, ke: Option<Bytes>, open: bool, ownerPub: Option<Pub>,
                           pending: Option<Msg>, key: Option<Key>, entered: nat, dropped: nat, failed: bool)

  datatype World = World(owner: Owner, joiner: Joiner, toOwner: seq<Msg>, toJoiner: seq<Msg>)

  predicate SetupOk(u: Setup) {
    S.StateOk(u.g, u.a) && S.StateOk(u.g, u.b)
  }

  // ----- what a session's calls make of a frame

  function Pakes(fs: seq<H.Frame>): seq<Msg> {
    seq(|fs|, i requires 0 <= i < |fs| => Pake(fs[i]))
  }

  /** Frames sent by the step from `s` to `t`. */
  function NewFrames(s: H.Session, t: H.Session): seq<Msg> {
    if |s.sent| <= |t.sent| then Pakes(t.sent[|s.sent|..]) else []
  }

  /** The callback of the step, if any. */
  function NewEvent(s: H.Session, t: H.Session): Option<H.Event> {
    if |s.events| < |t.events| then Some(t.events[|t.events| - 1]) else None
  }

  // ----- the owner

  function OwnerHears(u: Setup, o: Owner, m: Msg): (Owner, seq<Msg>)
    requires SetupOk(u) && (o.hs.Some? ==> o.hs.value.state == u.a)
  {
    match m
    case InviteRedeemed =>
      var s := H.Open(u.a);
      (o.(hs := Some(s), open := true), Pakes(s.sent))
    case Pake(f) =>
      if !o.open || o.hs.None? then (o, [])
      else
        var s := o.hs.value;
        var t := H.Hear(u.g, u.su, s, f);
        (match NewEvent(s, t)
         case None => (o.(hs := Some(t)), NewFrames(s, t))
         case Some(Confirmed(ke)) => (o.(hs := Some(t), ke := Some(ke)), NewFrames(s, t) + [MemberKey(ke, u.ownerPub)])
         case Some(Failed) => (o.(hs := Some(t), open := false, failed := true), NewFrames(s, t)))
    case MemberKey(ke, pub) =>
      if !o.open || o.ke != Some(ke) then (o.(dropped := o.dropped + 1), [])
      else (o.(memberPub := Some(pub), open := false), [KeyDeliver(u.ownerPub, pub, u.newKey)])
    case _ => (o, [])
  }

  // ----- the joiner

  function FinishJoin(u: Setup, j: Joiner, m: Msg): Joiner
    requires m.KeyDeliver? && j.ownerPub.Some?
  {
    if m.owner == j.ownerPub.value && m.joiner == u.joinerPub then j.(key := Some(m.key), open := false, entered := j.entered + 1)
    else j.(failed := true, dropped := j.dropped + 1)
  }

  function JoinerHears(u: Setup, j: Joiner, m: Msg): (Joiner, seq<Msg>)
    requires SetupOk(u) && (j.hs.Some? ==> j.hs.value.state == u.b) && (j.pending.Some? ==> j.pending.value.KeyDeliver?)
  {
    match m
    case RedeemOk =>
      var s := H.Open(u.b);
      (j.(hs := Some(s), open := true), Pakes(s.sent))
    case Pake(f) =>
      if !j.open || j.hs.None? then (j, [])
      else
        var s := j.hs.value;
        var t := H.Hear(u.g, u.su, s, f);
        (match NewEvent(s, t)
         case None => (j.(hs := Some(t)), NewFrames(s, t))
         case Some(Confirmed(ke)) => (j.(hs := Some(t), ke := Some(ke)), NewFrames(s, t) + [MemberKey(ke, u.joinerPub)])
         case Some(Failed) => (j.(hs := Some(t), open := false, failed := true), NewFrames(s, t)))
    case MemberKey(ke, pub) =>
      if !j.open || j.ke != Some(ke) then (j.(dropped := j.dropped + 1), [])
      else
        var j1 := j.(ownerPub := Some(pub));
        (if j1.pending.Some? then FinishJoin(u, j1, j1.pending.value) else j1, [])
    case KeyDeliver(_, _, _) =>
      if !j.open then (j.(dropped := j.dropped + 1), [])
      else if j.ownerPub.None? then (j.(pending := Some(m)), [])
      else (FinishJoin(u, j, m), [])
    case _ => (j, [])
  }

  // ----- the runs

  function Start(): World {
    World(Owner(None, None, false, None, 0, false), Joiner(None, None, false, None, None, None, 0, 0, false), [InviteRedeemed], [RedeemOk])
  }

  predicate Ready(u: Setup, w: World) {
    && (w.owner.hs.Some? ==> w.owner.hs.value.state == u.a)
    && (w.joiner.hs.Some? ==> w.joiner.hs.value.state == u.b)
    && (w.joiner.pending.Some? ==> w.joiner.pending.value.KeyDeliver?)
  }

  /** One frame arrives, at the owner or at the joiner. */
  ghost predicate Next(u: Setup, w: World, w': World)
    requires SetupOk(u)
  {
    && Ready(u, w)
    && (|| (w.toOwner != [] && var r := OwnerHears(u, w.owner, w.toOwner[0]);
            w' == w.(owner := r.0, toOwner := w.toOwner[1..], toJoiner := w.toJoiner + r.1))
        || (w.toJoiner != [] && var r := JoinerHears(u, w.joiner, w.toJoiner[0]);
            w' == w.(joiner := r.0, toJoiner := w.toJoiner[1..], toOwner := w.toOwner + r.1)))
  }

  ghost predicate Runs(u: Setup, ws: seq<World>)
    requires SetupOk(u)
  {
    ws != [] && ws[0] == Start() && forall i :: 0 <= i < |ws| - 1 ==> Next(u, ws[i], ws[i + 1])
  }

  // ----- what happens when the codes are equal

  /** Equal codes: `Spake2.Agreement` gives this for all scalars and identities. */
  ghost predicate Agree(u: Setup, ra: S.Result, rb: S.Result) {
    && SetupOk(u)
    && S.Finish(u.g, u.su, u.a, u.b.own) == Some(ra) && S.Finish(u.g, u.su, u.b, u.a.own) == Some(rb)
    && ra.ke == rb.ke && S.VerifyPeer(ra, rb.confirm) && S.VerifyPeer(rb, ra.confirm)
  }

  function OwnerOut(u: Setup, ra: S.Result): seq<Msg> {
    [Pake(H.Point(u.a.own)), Pake(H.Confirm(ra.confirm)), MemberKey(ra.ke, u.ownerPub), KeyDeliver(u.ownerPub, u.joinerPub, u.newKey)]
  }

  function JoinerOut(u: Setup, rb: S.Result): seq<Msg> {
    [Pake(H.Point(u.b.own)), Pake(H.Confirm(rb.confirm)), MemberKey(rb.ke, u.joinerPub)]
  }

  function Heard(state: S.State, r: S.Result, n: nat): H.Session {
    if n == 0 then H.Open(state)
    else if n == 1 then H.Session(state, Some(r), None, false, [H.Point(state.own), H.Confirm(r.confirm)], [])
    else H.Session(state, Some(r), None, true, [H.Point(state.own), H.Confirm(r.confirm)], [H.Confirmed(r.ke)])
  }

  /** The owner after `n` frames. */
  function OwnerAfter(u: Setup, ra: S.Result, n: nat): Owner {
    if n == 0 then Start().owner
    else if n <= 2 then Owner(Some(Heard(u.a, ra, n - 1)), None, true, None, 0, false)
    else if n == 3 then Owner(Some(Heard(u.a, ra, 2)), Some(ra.ke), true, None, 0, false)
    else Owner(Some(Heard(u.a, ra, 2)), Some(ra.ke), false, Some(u.joinerPub), 0, false)
  }

  /** The joiner after `n` frames. */
  function JoinerAfter(u: Setup, rb: S.Result, n: nat): Joiner {
    if n == 0 then Start().joiner
    else if n <= 2 then Joiner(Some(Heard(u.b, rb, n - 1)), None, true, None, None, None, 0, 0, false)
    else if n == 3 then Joiner(Some(Heard(u.b, rb, 2)), Some(rb.ke), true, None, None, None, 0, 0, false)
    else if n == 4 then Joiner(Some(Heard(u.b, rb, 2)), Some(rb.ke), true, Some(u.ownerPub), None, None, 0, 0, false)
    else Joiner(Some(Heard(u.b, rb, 2)), Some(rb.ke), false, Some(u.ownerPub), None, Some(u.newKey), 1, 0, false)
  }

  /** How a session takes the two authentic frames in their order. */
  lemma HearSteps(g: S.Group, su: S.Suite, state: S.State, r: S.Result, point: Bytes)
    requires S.StateOk(g, state) && S.Finish(g, su, state, point) == Some(r)
    ensures H.Hear(g, su, Heard(state, r, 0), H.Point(point)) == Heard(state, r, 1)
    ensures H.Hear(g, su, Heard(state, r, 1), H.Confirm(r.expectedPeer)) == Heard(state, r, 2)
  {
    hide S.Finish;
  }

  lemma FrameSteps(state: S.State, r: S.Result)
    ensures Pakes(Heard(state, r, 0).sent) == [Pake(H.Point(state.own))]
    ensures NewFrames(Heard(state, r, 0), Heard(state, r, 1)) == [Pake(H.Confirm(r.confirm))] && NewEvent(Heard(state, r, 0), Heard(state, r, 1)).None?
    ensures NewFrames(Heard(state, r, 1), Heard(state, r, 2)) == [] && NewEvent(Heard(state, r, 1), Heard(state, r, 2)) == Some(H.Confirmed(r.ke))
  {
  }

  lemma HeardState(state: S.State, r: S.Result, n: nat)
    ensures Heard(state, r, n).state == state
  {
  }

  lemma NothingBefore(m: Msg)
    ensures [] + [m] == [m]
  {
  }

  lemma OwnerOpens(u: Setup, ra: S.Result)
    requires SetupOk(u)
    ensures OwnerHears(u, OwnerAfter(u, ra, 0), InviteRedeemed) == (OwnerAfter(u, ra, 1), [Pake(H.Point(u.a.own))])
  {
    FrameSteps(u.a, ra);
  }

  lemma OwnerPoint(u: Setup, ra: S.Result)
    requires SetupOk(u) && S.Finish(u.g, u.su, u.a, u.b.own) == Some(ra)
    ensures OwnerAfter(u, ra, 1).hs.value.state == u.a
    ensures OwnerHears(u, OwnerAfter(u, ra, 1), Pake(H.Point(u.b.own))) == (OwnerAfter(u, ra, 2), [Pake(H.Confirm(ra.confirm))])
  {
    HeardState(u.a, ra, 0);
    HearSteps(u.g, u.su, u.a, ra, u.b.own);
    FrameSteps(u.a, ra);
    hide S.Finish, H.Hear, NewFrames, NewEvent, Pakes, Heard;
  }

  lemma OwnerConfirm(u: Setup, ra: S.Result)
    requires SetupOk(u) && S.Finish(u.g, u.su, u.a, u.b.own) == Some(ra)
    ensures OwnerAfter(u, ra, 2).hs.value.state == u.a
    ensures OwnerHears(u, OwnerAfter(u, ra, 2), Pake(H.Confirm(ra.expectedPeer))) == (OwnerAfter(u, ra, 3), [MemberKey(ra.ke, u.ownerPub)])
  {
    HeardState(u.a, ra, 1);
    HearSteps(u.g, u.su, u.a, ra, u.b.own);
    FrameSteps(u.a, ra);
    hide S.Finish, H.Hear, NewFrames, NewEvent, Pakes, Heard;
    NothingBefore(MemberKey(ra.ke, u.ownerPub));
  }

  lemma OwnerKeyed(u: Setup, ra: S.Result)
    requires SetupOk(u)
    ensures OwnerAfter(u, ra, 3).hs.value.state == u.a
    ensures OwnerHears(u, OwnerAfter(u, ra, 3), MemberKey(ra.ke, u.joinerPub)) == (OwnerAfter(u, ra, 4), [KeyDeliver(u.ownerPub, u.joinerPub, u.newKey)])
  {
  }

  /** The owner's `n`-th answer to the joiner's frames. */
  lemma OwnerSteps(u: Setup, ra: S.Result, rb: S.Result, n: nat)
    requires Agree(u, ra, rb) && n < 4
    ensures var o := OwnerAfter(u, ra, n); o.hs.Some? ==> o.hs.value.state == u.a
    ensures OwnerHears(u, OwnerAfter(u, ra, n), ([InviteRedeemed] + JoinerOut(u, rb))[n]) == (OwnerAfter(u, ra, n + 1), [OwnerOut(u, ra)[n]])
  {
    OwnerOpens(u, ra);
    OwnerPoint(u, ra);
    OwnerConfirm(u, ra);
    OwnerKeyed(u, ra);
    assert OwnerAfter(u, ra, 0).hs.None?;
    hide S.Finish, OwnerHears, OwnerAfter;
  }

  lemma JoinerOpens(u: Setup, rb: S.Result)
    requires SetupOk(u)
    ensures JoinerHears(u, JoinerAfter(u, rb, 0), RedeemOk) == (JoinerAfter(u, rb, 1), [Pake(H.Point(u.b.own))])
  {
    FrameSteps(u.b, rb);
  }

  lemma JoinerPoint(u: Setup, rb: S.Result)
    requires SetupOk(u) && S.Finish(u.g, u.su, u.b, u.a.own) == Some(rb)
    ensures JoinerAfter(u, rb, 1).hs.value.state == u.b && JoinerAfter(u, rb, 1).pending.None?
    ensures JoinerHears(u, JoinerAfter(u, rb, 1), Pake(H.Point(u.a.own))) == (JoinerAfter(u, rb, 2), [Pake(H.Confirm(rb.confirm))])
  {
    HeardState(u.b, rb, 0);
    HearSteps(u.g, u.su, u.b, rb, u.a.own);
    FrameSteps(u.b, rb);
    hide S.Finish, H.Hear, NewFrames, NewEvent, Pakes, Heard;
  }

  lemma JoinerConfirm(u: Setup, rb: S.Result)
    requires SetupOk(u) && S.Finish(u.g, u.su, u.b, u.a.own) == Some(rb)
    ensures JoinerAfter(u, rb, 2).hs.value.state == u.b && JoinerAfter(u, rb, 2).pending.None?
    ensures JoinerHears(u, JoinerAfter(u, rb, 2), Pake(H.Confirm(rb.expectedPeer))) == (JoinerAfter(u, rb, 3), [MemberKey(rb.ke, u.joinerPub)])
  {
    HeardState(u.b, rb, 1);
    HearSteps(u.g, u.su, u.b, rb, u.a.own);
    FrameSteps(u.b, rb);
    hide S.Finish, H.Hear, NewFrames, NewEvent, Pakes, Heard;
    NothingBefore(MemberKey(rb.ke, u.joinerPub));
  }

  lemma JoinerKeyed(u: Setup, rb: S.Result)
    requires SetupOk(u)
    ensures JoinerAfter(u, rb, 3).hs.value.state == u.b && JoinerAfter(u, rb, 3).pending.None?
    ensures JoinerAfter(u, rb, 4).hs.value.state == u.b && JoinerAfter(u, rb, 4).pending.None?
    ensures JoinerHears(u, JoinerAfter(u, rb, 3), MemberKey(rb.ke, u.ownerPub)) == (JoinerAfter(u, rb, 4), [])
    ensures JoinerHears(u, JoinerAfter(u, rb, 4), KeyDeliver(u.ownerPub, u.joinerPub, u.newKey)) == (JoinerAfter(u, rb, 5), [])
  {
  }

  lemma JoinerSteps(u: Setup, ra: S.Result, rb: S.Result, n: nat)
    requires Agree(u, ra, rb) && n < 5
    ensures var j := JoinerAfter(u, rb, n); (j.hs.Some? ==> j.hs.value.state == u.b) && j.pending.None?
    ensures JoinerHears(u, JoinerAfter(u, rb, n), ([RedeemOk] + OwnerOut(u, ra))[n])
         == (JoinerAfter(u, rb, n + 1), if n < 3 then [JoinerOut(u, rb)[n]] else [])
  {
    hide S.Finish;
    JoinerOpens(u, rb);
    JoinerPoint(u, rb);
    JoinerConfirm(u, rb);
    JoinerKeyed(u, rb);
    assert JoinerAfter(u, rb, 0).hs.None? && JoinerAfter(u, rb, 0).pending.None?;
    hide JoinerHears, JoinerAfter;
  }

  function Min(a: nat, b: nat): nat {
    if a < b then a else b
  }

  /** The owner has heard `i` frames and the joiner `j`; the rest is in the queues. */
  predicate At(u: Setup, ra: S.Result, rb: S.Result, w: World, i: nat, j: nat) {
    && i <= 1 + Min(j, 3) && j <= 1 + i && i <= 4
    && w.owner == OwnerAfter(u, ra, i) && w.joiner == JoinerAfter(u, rb, j)
    && w.toOwner == ([InviteRedeemed] + JoinerOut(u, rb))[i..1 + Min(j, 3)]
    && w.toJoiner == ([RedeemOk] + OwnerOut(u, ra))[j..1 + i]
  }

  ghost predicate OnTrack(u: Setup, ra: S.Result, rb: S.Result, w: World, n: nat) {
    exists i: nat, j: nat :: At(u, ra, rb, w, i, j) && i + j == n
  }

  lemma OwnerMoves(u: Setup, ra: S.Result, rb: S.Result, w: World, w': World, i: nat, j: nat)
    requires Agree(u, ra, rb) && At(u, ra, rb, w, i, j) && w.toOwner != [] && (w.owner.hs.Some? ==> w.owner.hs.value.state == u.a)
    requires var r := OwnerHears(u, w.owner, w.toOwner[0]); w' == w.(owner := r.0, toOwner := w.toOwner[1..], toJoiner := w.toJoiner + r.1)
    ensures At(u, ra, rb, w', i + 1, j)
  {
    hide Agree, OwnerHears, OwnerAfter, JoinerAfter, JoinerOut, OwnerOut;
    var ins, outs := [InviteRedeemed] + JoinerOut(u, rb), [RedeemOk] + OwnerOut(u, ra);
    assert |ins| == 4 && |outs| == 5 && forall k :: 0 <= k < 4 ==> outs[k + 1] == OwnerOut(u, ra)[k] by {
      Lengths(u, ra, rb);
    }
    OwnerSteps(u, ra, rb, i);
    assert outs[j..1 + i] + [outs[1 + i]] == outs[j..1 + (i + 1)];
  }

  lemma Lengths(u: Setup, ra: S.Result, rb: S.Result)
    ensures |OwnerOut(u, ra)| == 4 && |JoinerOut(u, rb)| == 3
  {
  }

  lemma JoinerMoves(u: Setup, ra: S.Result, rb: S.Result, w: World, w': World, i: nat, j: nat)
    requires Agree(u, ra, rb) && At(u, ra, rb, w, i, j) && w.toJoiner != [] && (w.joiner.hs.Some? ==> w.joiner.hs.value.state == u.b)
    requires w.joiner.pending.Some? ==> w.joiner.pending.value.KeyDeliver?
    requires var r := JoinerHears(u, w.joiner, w.toJoiner[0]); w' == w.(joiner := r.0, toJoiner := w.toJoiner[1..], toOwner := w.toOwner + r.1)
    ensures At(u, ra, rb, w', i, j + 1)
  {
    hide Agree, JoinerHears, OwnerAfter, JoinerAfter, JoinerOut, OwnerOut;
    var ins, outs := [InviteRedeemed] + JoinerOut(u, rb), [RedeemOk] + OwnerOut(u, ra);
    assert |ins| == 4 && |outs| == 5 && forall k :: 0 <= k < 3 ==> ins[k + 1] == JoinerOut(u, rb)[k] by {
      Lengths(u, ra, rb);
    }
    JoinerSteps(u, ra, rb, j);
    if j < 3 {
      assert ins[i..1 + j] + [ins[1 + j]] == ins[i..1 + (j + 1)];
    }
  }

  lemma {:induction false} StaysOnTrack(u: Setup, ra: S.Result, rb: S.Result, ws: seq<World>, n: nat)
    requires Agree(u, ra, rb) && Runs(u, ws) && n < |ws|
    ensures OnTrack(u, ra, rb, ws[n], n)
    decreases n
  {
    if n == 0 {
      Lengths(u, ra, rb);
      assert At(u, ra, rb, ws[0], 0, 0);
    } else {
      StaysOnTrack(u, ra, rb, ws, n - 1);
      var w, w' := ws[n - 1], ws[n];
      assert Next(u, ws[n - 1], ws[n - 1 + 1]);
      var i: nat, j: nat :| At(u, ra, rb, w, i, j) && i + j == n - 1;
      hide At, Agree, OwnerHears, JoinerHears;
      if w.toOwner != [] && w' == w.(owner := OwnerHears(u, w.owner, w.toOwner[0]).0, toOwner := w.toOwner[1..], toJoiner := w.toJoiner + OwnerHears(u, w.owner, w.toOwner[0]).1) {
        OwnerMoves(u, ra, rb, w, w', i, j);
        assert At(u, ra, rb, w', i + 1, j);
      } else {
        JoinerMoves(u, ra, rb, w, w', i, j);
        assert At(u, ra, rb, w', i, j + 1);
      }
    }
  }

  // ----- the theorems

  /** Both sides derived the same password scalar, whatever the secret scalars. */
  ghost predicate EqualCodes(u: Setup, idA: Bytes, idB: Bytes, aad: Bytes, w: nat, x: nat, y: nat) {
    S.GroupOk(u.g) && S.Started(u.g, u.a, S.A, w, idA, idB, aad, x) && S.Started(u.g, u.b, S.B, w, idA, idB, aad, y)
  }

  lemma EqualCodesAgree(u: Setup, idA: Bytes, idB: Bytes, aad: Bytes, w: nat, x: nat, y: nat) returns (ra: S.Result, rb: S.Result)
    requires EqualCodes(u, idA, idB, aad, w, x, y)
    ensures Agree(u, ra, rb)
  {
    S.Agreement(u.g, u.su, u.a, u.b, idA, idB, aad, w, x, y);
    ra, rb := S.Finish(u.g, u.su, u.a, u.b.own).value, S.Finish(u.g, u.su, u.b, u.a.own).value;
  }

  /** Nothing was dropped, nobody failed, the secrets agree, and `enter` was sent at most
      once and only with the delivered key in hand. */
  predicate Good(u: Setup, o: Owner, j: Joiner) {
    && o.dropped == 0 && j.dropped == 0 && !o.failed && !j.failed
    && (o.ke.Some? && j.ke.Some? ==> o.ke == j.ke)
    && j.entered <= 1 && (j.entered == 1 <==> j.key == Some(u.newKey))
    && (j.entered == 1 ==> o.memberPub == Some(u.joinerPub) && j.ownerPub == Some(u.ownerPub))
    && (o.hs.Some? ==> |o.hs.value.events| <= 1) && (j.hs.Some? ==> |j.hs.value.events| <= 1)
  }

  lemma AfterIsGood(u: Setup, ra: S.Result, rb: S.Result, i: nat, j: nat)
    requires ra.ke == rb.ke && j <= 1 + i
    ensures Good(u, OwnerAfter(u, ra, i), JoinerAfter(u, rb, j))
  {
  }

  /** No `member_key` or `key_deliver` ever arrives before it can be used. */
  lemma NothingArrivesEarly(u: Setup, idA: Bytes, idB: Bytes, aad: Bytes, w: nat, x: nat, y: nat, ws: seq<World>, n: nat)
    requires EqualCodes(u, idA, idB, aad, w, x, y) && SetupOk(u) && Runs(u, ws) && n < |ws|
    ensures Good(u, ws[n].owner, ws[n].joiner)
  {
    var ra, rb := EqualCodesAgree(u, idA, idB, aad, w, x, y);
    StaysOnTrack(u, ra, rb, ws, n);
    var i: nat, k: nat :| At(u, ra, rb, ws[n], i, k) && i + k == n;
    hide Good, OwnerAfter, JoinerAfter, Runs, EqualCodes, S.Finish;
    AfterIsGood(u, ra, rb, i, k);
  }

  /** Every exchange passes, after its sixth frame, through the state that `Shake` of
      module RotationNet starts from: both sides confirmed on one secret, each side's
      `member_key` in flight, and nothing else. */
  lemma SixFramesShake(u: Setup, idA: Bytes, idB: Bytes, aad: Bytes, w: nat, x: nat, y: nat, ws: seq<World>)
    requires EqualCodes(u, idA, idB, aad, w, x, y) && SetupOk(u) && Runs(u, ws) && |ws| > 6
    ensures
      var o, j := ws[6].owner, ws[6].joiner;
      && o.ke.Some? && o.ke == j.ke && o.open && j.open && o.memberPub.None? && j.ownerPub.None? && j.pending.None? && j.entered == 0
      && ws[6].toOwner == [MemberKey(o.ke.value, u.joinerPub)] && ws[6].toJoiner == [MemberKey(o.ke.value, u.ownerPub)]
  {
    var ra, rb := EqualCodesAgree(u, idA, idB, aad, w, x, y);
    StaysOnTrack(u, ra, rb, ws, 6);
    var i: nat, k: nat :| At(u, ra, rb, ws[6], i, k) && i + k == 6;
    hide Runs, EqualCodes, S.Finish;
    ShakeState(u, ra, rb, ws[6]);
  }

  lemma ShakeState(u: Setup, ra: S.Result, rb: S.Result, w: World)
    requires At(u, ra, rb, w, 3, 3) && ra.ke == rb.ke
    ensures w.owner.ke == w.joiner.ke == Some(ra.ke) && w.owner.open && w.joiner.open
    ensures w.owner.memberPub.None? && w.joiner.ownerPub.None? && w.joiner.pending.None? && w.joiner.entered == 0
    ensures w.toOwner == [MemberKey(ra.ke, u.joinerPub)] && w.toJoiner == [MemberKey(ra.ke, u.ownerPub)]
  {
    var ins, outs := [InviteRedeemed] + JoinerOut(u, rb), [RedeemOk] + OwnerOut(u, ra);
    assert ins[3..4] == [ins[3]] && outs[3..4] == [outs[3]];
  }

  /** When both queues have drained, the joiner has entered, once, with the key, and each
      side has the other's public key and the same secret. */
  lemma DrainedMeansEntered(u: Setup, idA: Bytes, idB: Bytes, aad: Bytes, w: nat, x: nat, y: nat, ws: seq<World>, n: nat)
    requires EqualCodes(u, idA, idB, aad, w, x, y) && SetupOk(u) && Runs(u, ws) && n < |ws| && ws[n].toOwner == [] && ws[n].toJoiner == []
    ensures
      var o, j := ws[n].owner, ws[n].joiner;
      && j.entered == 1 && j.key == Some(u.newKey) && j.ownerPub == Some(u.ownerPub) && o.memberPub == Some(u.joinerPub)
      && o.ke.Some? && o.ke == j.ke
  {
    var ra, rb := EqualCodesAgree(u, idA, idB, aad, w, x, y);
    StaysOnTrack(u, ra, rb, ws, n);
    var i: nat, k: nat :| At(u, ra, rb, ws[n], i, k) && i + k == n;
    hide Runs, EqualCodes, S.Finish;
    AllHeard(u, ra, rb, ws[n], i, k);
  }

  lemma AllHeard(u: Setup, ra: S.Result, rb: S.Result, w: World, i: nat, j: nat)
    requires At(u, ra, rb, w, i, j) && w.toOwner == [] && w.toJoiner == []
    ensures i == 4 && j == 5
  {
    hide OwnerAfter, JoinerAfter;
    Lengths(u, ra, rb);
    var ins, outs := [InviteRedeemed] + JoinerOut(u, rb), [RedeemOk] + OwnerOut(u, ra);
    hide OwnerOut, JoinerOut;
    assert |ins[i..1 + Min(j, 3)]| == 1 + Min(j, 3) - i && |outs[j..1 + i]| == 1 + i - j;
  }

  /** At most nine frames are ever delivered, so the queues do drain. */
  lemma RunsAreShort(u: Setup, idA: Bytes, idB: Bytes, aad: Bytes, w: nat, x: nat, y: nat, ws: seq<World>)
    requires EqualCodes(u, idA, idB, aad, w, x, y) && SetupOk(u) && Runs(u, ws)
    ensures |ws| <= 10
  {
    var ra, rb := EqualCodesAgree(u, idA, idB, aad, w, x, y);
    StaysOnTrack(u, ra, rb, ws, |ws| - 1);
    hide Agree, EqualCodes;
  }
}
