/**
One side of the key exchange (web/src/handshake.ts): the session object, and the
value its methods compute. A payload that does not parse, or whose base64 does not
decode, changes nothing; it is `Junk` here.
*/
module Handshake {
  import opened Options
  import opened Bytes
  import S = Spake2

  datatype Frame = Point(d: Bytes) | Confirm(d: Bytes) | Junk

  /** The calls of `onConfirmed` and `onFail`. */
  datatype Event = Confirmed(ke: Bytes) | Failed

  datatype Session = Session(state: S.State, result: Option<S.Result>, pending: Option<Bytes>, done: bool,
                             sent: seq<Frame>, events: seq<Event>)

  /** The constructor sends the point at once. */
  function Open(state: S.State): Session {
    Session(state, None, None, false, [Point(state.own)], [])
  }

  function GiveUp(s: Session): Session {
    if s.done then s else s.(done := true, events := s.events + [Failed])
  }

  function Check(s: Session, c: Bytes): Session {
    match s.result
    case None => s
    case Some(r) => if !S.VerifyPeer(r, c) then GiveUp(s) else s.(done := true, events := s.events + [Confirmed(r.ke)])
  }

  function HearPoint(g: S.Group, su: S.Suite, s: Session, p: Bytes): Session
    requires S.StateOk(g, s.state)
  {
    if s.result.Some? then s
    else
      match S.Finish(g, su, s.state, p)
      case None => GiveUp(s)
      case Some(r) =>
        var s1 := s.(result := Some(r), sent := s.sent + [Confirm(r.confirm)]);
        if s1.pending.None? then s1 else Check(s1.(pending := None), s1.pending.value)
  }

  function HearConfirm(s: Session, c: Bytes): Session {
    if s.result.None? then s.(pending := Some(c)) else Check(s, c)
  }

  function Hear(g: S.Group, su: S.Suite, s: Session, f: Frame): Session
    requires S.StateOk(g, s.state)
  {
    if s.done then s
    else
      match f
      case Point(d) => HearPoint(g, su, s, d)
      case Confirm(d) => HearConfirm(s, d)
      case Junk => s
  }

  lemma StateStays(g: S.Group, su: S.Suite, s: Session, f: Frame)
    requires S.StateOk(g, s.state)
    ensures Hear(g, su, s, f).state == s.state
  {
  }

  function Fed(g: S.Group, su: S.Suite, s: Session, fs: seq<Frame>): (t: Session)
    requires S.StateOk(g, s.state)
    ensures t.state == s.state
    decreases |fs|
  {
    if fs == [] then s
    else
      var t := Fed(g, su, s, fs[..|fs| - 1]);
      StateStays(g, su, t, fs[|fs| - 1]);
      Hear(g, su, t, fs[|fs| - 1])
  }

  // ----- whatever arrives

  /** A session calls back at most once, exactly when it is done. */
  lemma {:induction false} AtMostOneCall(g: S.Group, su: S.Suite, state: S.State, fs: seq<Frame>)
    requires S.StateOk(g, state)
    ensures var s := Fed(g, su, Open(state), fs); |s.events| == (if s.done then 1 else 0)
    decreases |fs|
  {
    if fs != [] {
      AtMostOneCall(g, su, state, fs[..|fs| - 1]);
    }
  }

  /** What a session knows comes from the frames it heard. */
  predicate Grounded(s: Session, fs: seq<Frame>) {
    && (s.pending.Some? ==> Confirm(s.pending.value) in fs)
    && |s.events| == (if s.done then 1 else 0)
    && (s.events != [] && s.events[0].Confirmed? ==>
          s.result.Some? && s.events[0].ke == s.result.value.ke && Confirm(s.result.value.expectedPeer) in fs)
  }

  lemma HearGrounded(g: S.Group, su: S.Suite, s: Session, fs: seq<Frame>, f: Frame)
    requires S.StateOk(g, s.state) && Grounded(s, fs)
    ensures Grounded(Hear(g, su, s, f), fs + [f])
  {
    hide S.Finish;
    assert f in fs + [f] && forall x <- fs :: x in fs + [f];
    match f
    case Point(_) =>
    case Confirm(_) =>
    case Junk =>
  }

  /** A success means that the expected confirmation arrived. */
  lemma {:induction false} ConfirmedMeansVerified(g: S.Group, su: S.Suite, state: S.State, fs: seq<Frame>)
    requires S.StateOk(g, state)
    ensures Grounded(Fed(g, su, Open(state), fs), fs)
    decreases |fs|
  {
    if fs != [] {
      var init, f := fs[..|fs| - 1], fs[|fs| - 1];
      ConfirmedMeansVerified(g, su, state, init);
      assert fs == init + [f];
      hide Grounded, Hear;
      HearGrounded(g, su, Fed(g, su, Open(state), init), init, f);
    }
  }

  /** A point that cannot be used fails the session, once and for all; the first that can
      be is answered with the own confirmation, and later points change nothing. */
  lemma PointIs(g: S.Group, su: S.Suite, s: Session, d: Bytes)
    requires S.StateOk(g, s.state) && !s.done
    ensures
      var t := Hear(g, su, s, Point(d));
      && (s.result.Some? ==> t == s)
      && (s.result.None? && S.Finish(g, su, s.state, d).None? ==> t == s.(done := true, events := s.events + [Failed]))
      && (s.result.None? && S.Finish(g, su, s.state, d).Some? ==>
            && t.result == S.Finish(g, su, s.state, d) && t.sent == s.sent + [Confirm(t.result.value.confirm)]
            && (t.done <==> s.pending.Some?)
            && t.events == s.events + if s.pending.None? then []
                                      else if s.pending.value == t.result.value.expectedPeer then [Confirmed(t.result.value.ke)] else [Failed])
  {
    hide S.Finish;
  }

  /** Points that do not decode are such. */
  lemma BadPointFails(g: S.Group, su: S.Suite, state: S.State, d: Bytes)
    requires S.StateOk(g, state) && g.decode(d).None?
    ensures Fed(g, su, Open(state), [Point(d)]).events == [Failed]
  {
    assert [Point(d)][..0] == [];
    assert Fed(g, su, Open(state), []) == Open(state);
  }

  // ----- an honest peer

  /** Frames that an honest peer `t` sends, in any order, any number of times, with junk
      in between. */
  predicate Authentic(fs: seq<Frame>, point: Bytes, confirm: Bytes) {
    forall f <- fs :: f == Point(point) || f == Confirm(confirm) || f == Junk
  }

  function Then<T>(b: bool, x: T): seq<T> {
    if b then [x] else []
  }

  /** What a session must look like after hearing authentic frames of a peer whose
      confirmation is `c`. */
  predicate Expected(s: Session, state: S.State, r: S.Result, c: Bytes, point: bool, confirm: bool) {
    && s.state == state
    && s.result == (if point then Some(r) else None)
    && (!point ==> s.pending == if confirm then Some(c) else None)
    && (point && !s.done ==> s.pending.None?)
    && s.done == (point && confirm)
    && s.sent == [Point(state.own)] + Then(point, Confirm(r.confirm))
    && s.events == Then(point && confirm, if S.VerifyPeer(r, c) then Confirmed(r.ke) else Failed)
  }

  lemma HearExpected(g: S.Group, su: S.Suite, s: Session, state: S.State, r: S.Result, c: Bytes, d: Bytes, point: bool, confirm: bool, f: Frame)
    requires S.StateOk(g, state) && S.Finish(g, su, state, d) == Some(r) && Expected(s, state, r, c, point, confirm)
    requires f == Point(d) || f == Confirm(c) || f == Junk
    ensures Expected(Hear(g, su, s, f), state, r, c, point || f.Point?, confirm || f.Confirm?)
  {
    hide S.Finish;
    match f
    case Point(_) =>
    case Confirm(_) =>
    case Junk =>
  }

  /** The session has decided, once, exactly when it has heard both frames: confirmed if
      the peer's confirmation is the expected one, and failed if not. It has sent its own
      confirmation, once, exactly when it has heard the point. */
  lemma {:induction false} AnyOrderDecides(g: S.Group, su: S.Suite, state: S.State, r: S.Result, c: Bytes, point: Bytes, fs: seq<Frame>)
    requires S.StateOk(g, state) && S.Finish(g, su, state, point) == Some(r) && Authentic(fs, point, c)
    ensures Expected(Fed(g, su, Open(state), fs), state, r, c, Point(point) in fs, Confirm(c) in fs)
    decreases |fs|
  {
    hide S.Finish;
    if fs != [] {
      var init, f := fs[..|fs| - 1], fs[|fs| - 1];
      assert fs == init + [f];
      assert f in fs && forall e <- init :: e in fs;
      AnyOrderDecides(g, su, state, r, c, point, init);
      hide Expected, Hear;
      HearExpected(g, su, Fed(g, su, Open(state), init), state, r, c, point, Point(point) in init, Confirm(c) in init, f);
      assert Point(point) in fs <==> Point(point) in init || f.Point?;
      assert Confirm(c) in fs <==> Confirm(c) in init || f.Confirm?;
    }
  }

  /** Two sessions with equal codes, each hearing the other's two frames in any order and
      with any repetition, are both confirmed on one secret. */
  lemma BothConfirm(g: S.Group, su: S.Suite, a: S.State, b: S.State, idA: Bytes, idB: Bytes, aad: Bytes, w: nat, x: nat, y: nat,
                    toA: seq<Frame>, toB: seq<Frame>)
    requires S.GroupOk(g) && S.Started(g, a, S.A, w, idA, idB, aad, x) && S.Started(g, b, S.B, w, idA, idB, aad, y)
    requires S.StateOk(g, a) && S.StateOk(g, b) && S.Finish(g, su, a, b.own).Some? && S.Finish(g, su, b, a.own).Some?
    requires var ra, rb := S.Finish(g, su, a, b.own).value, S.Finish(g, su, b, a.own).value;
             && Authentic(toA, b.own, rb.confirm) && Authentic(toB, a.own, ra.confirm)
             && Point(b.own) in toA && Confirm(rb.confirm) in toA && Point(a.own) in toB && Confirm(ra.confirm) in toB
    ensures exists ke :: Fed(g, su, Open(a), toA).events == [Confirmed(ke)] && Fed(g, su, Open(b), toB).events == [Confirmed(ke)]
  {
    var ra, rb := S.Finish(g, su, a, b.own).value, S.Finish(g, su, b, a.own).value;
    S.Agreement(g, su, a, b, idA, idB, aad, w, x, y);
    AnyOrderDecides(g, su, a, ra, rb.confirm, b.own, toA);
    AnyOrderDecides(g, su, b, rb, ra.confirm, a.own, toB);
    hide S.Finish, S.GroupOk, S.Started, Fed;
    assert Fed(g, su, Open(a), toA).events == [Confirmed(ra.ke)];
    assert Fed(g, su, Open(b), toB).events == [Confirmed(ra.ke)];
  }

  // ----- different codes

  /** What a session holds and sent comes from a point it heard. */
  ghost predicate Derived(g: S.Group, su: S.Suite, s: Session, fs: seq<Frame>)
    requires S.StateOk(g, s.state)
  {
    && (s.result.Some? ==> exists p :: Point(p) in fs && S.Finish(g, su, s.state, p) == s.result)
    && forall f <- s.sent :: f.Confirm? ==> s.result.Some? && f.d == s.result.value.confirm
  }

  lemma HearDerived(g: S.Group, su: S.Suite, s: Session, fs: seq<Frame>, f: Frame)
    requires S.StateOk(g, s.state) && Derived(g, su, s, fs)
    ensures Hear(g, su, s, f).state == s.state && Derived(g, su, Hear(g, su, s, f), fs + [f])
  {
    hide S.Finish;
    assert f in fs + [f] && forall x <- fs :: x in fs + [f];
    match f
    case Point(_) =>
    case Confirm(_) =>
    case Junk =>
  }

  lemma {:induction false} AllDerived(g: S.Group, su: S.Suite, state: S.State, fs: seq<Frame>)
    requires S.StateOk(g, state)
    ensures Derived(g, su, Fed(g, su, Open(state), fs), fs)
    decreases |fs|
  {
    if fs != [] {
      var init, f := fs[..|fs| - 1], fs[|fs| - 1];
      AllDerived(g, su, state, init);
      assert fs == init + [f];
      hide Derived, Hear;
      HearDerived(g, su, Fed(g, su, Open(state), init), init, f);
    }
  }

  /** Frames that reach a session whose peer sent `sent`: the relay may alter, drop,
      repeat and invent points, but the confirmations are the peer's. */
  ghost predicate ConfirmsOf(fs: seq<Frame>, sent: seq<Frame>) {
    PointsSized(fs) && forall f <- fs :: f.Confirm? ==> f in sent
  }

  predicate PointsSized(fs: seq<Frame>) {
    forall f <- fs :: f.Point? ==> Sized(f.d)
  }

  ghost predicate Opponents(g: S.Group, s: S.State, t: S.State) {
    && S.GroupOk(g) && S.StateOk(g, s) && S.StateOk(g, t) && s.w != t.w && s.role != t.role
    && S.Fits(g, s) && S.Fits(g, t)
  }

  /** With different codes, and whatever points and junk reach the two sessions in
      whatever order, a session confirms on its peer's confirmation only if the
      confirmations of the two different transcripts they built collide. */
  lemma ConfirmedMeansCollision(g: S.Group, su: S.Suite, s: S.State, t: S.State, toS: seq<Frame>, toT: seq<Frame>)
    requires Opponents(g, s, t)
    requires ConfirmsOf(toS, Fed(g, su, Open(t), toT).sent) && PointsSized(toT)
    ensures
      var a, b := Fed(g, su, Open(s), toS), Fed(g, su, Open(t), toT);
      a.events != [] && a.events[0].Confirmed? ==>
        && a.result.Some? && b.result.Some?
        && S.Collide(su, t.role, t.aad, b.result.value.transcript, s.aad, a.result.value.transcript)
  {
    var a, b := Fed(g, su, Open(s), toS), Fed(g, su, Open(t), toT);
    ConfirmedMeansVerified(g, su, s, toS);
    AllDerived(g, su, s, toS);
    AllDerived(g, su, t, toT);
    if a.events != [] && a.events[0].Confirmed? {
      var f := Confirm(a.result.value.expectedPeer);
      assert f in toS && f in b.sent;
      var p :| Point(p) in toS && S.Finish(g, su, s, p) == a.result;
      var q :| Point(q) in toT && S.Finish(g, su, t, q) == b.result;
      assert Sized(Point(p).d) && Sized(Point(q).d);
      hide S.Finish, S.GroupOk, S.Fits, Fed, S.Collide;
      S.MismatchCollides(g, su, s, t, p, q);
    }
  }

  /** Without collisions: no order, repetition or alteration makes a session report
      success to a code that its peer does not have. */
  lemma MismatchNeverConfirms(g: S.Group, su: S.Suite, s: S.State, t: S.State, toS: seq<Frame>, toT: seq<Frame>)
    requires Opponents(g, s, t) && S.CollisionFree(su)
    requires ConfirmsOf(toS, Fed(g, su, Open(t), toT).sent) && PointsSized(toT)
    ensures var a := Fed(g, su, Open(s), toS); a.events == Then(a.done, Failed)
  {
    AtMostOneCall(g, su, s, toS);
    NoSuccess(g, su, s, t, toS, toT);
  }

  lemma NoSuccess(g: S.Group, su: S.Suite, s: S.State, t: S.State, toS: seq<Frame>, toT: seq<Frame>)
    requires Opponents(g, s, t) && S.CollisionFree(su)
    requires ConfirmsOf(toS, Fed(g, su, Open(t), toT).sent) && PointsSized(toT)
    ensures var a := Fed(g, su, Open(s), toS); a.events == [] || a.events[0] == Failed
  {
    var a, b := Fed(g, su, Open(s), toS), Fed(g, su, Open(t), toT);
    hide S.GroupOk, S.Fits, S.Collide, S.CollisionFree, S.Tag, S.Finish, Fed, Sized, ConfirmsOf, PointsSized, Open;
    if a.events != [] && a.events[0].Confirmed? {
      ConfirmedMeansCollision(g, su, s, t, toS, toT);
      S.NeverCollides(su, t.role, t.aad, b.result.value.transcript, s.aad, a.result.value.transcript);
    }
  }

  /** And over an honest relay, once both frames of the peer are there, it has failed. */
  lemma MismatchFails(g: S.Group, su: S.Suite, s: S.State, t: S.State, toS: seq<Frame>)
    requires Opponents(g, s, t) && S.CollisionFree(su)
    requires S.Finish(g, su, s, t.own).Some? && S.Finish(g, su, t, s.own).Some?
    requires Authentic(toS, t.own, S.Finish(g, su, t, s.own).value.confirm)
    ensures
      var c := S.Finish(g, su, t, s.own).value.confirm;
      Fed(g, su, Open(s), toS).events == if Point(t.own) in toS && Confirm(c) in toS then [Failed] else []
  {
    var r, c := S.Finish(g, su, s, t.own).value, S.Finish(g, su, t, s.own).value.confirm;
    S.MismatchRejected(g, su, s, t, t.own, s.own);
    AnyOrderDecides(g, su, s, r, c, t.own, toS);
    hide S.Finish, S.GroupOk, Fed;
  }

  // ----- the object

  class HandshakeSession {
    const g: S.Group
    const su: S.Suite
    const state: S.State
    var result: Option<S.Result>
    var pendingPeerConfirm: Option<Bytes>
    var done: bool
    var sent: seq<Frame>      // calls of sendPake
    var events: seq<Event>    // calls of onConfirmed and onFail

    ghost function View(): Session
      reads this
    {
      Session(state, result, pendingPeerConfirm, done, sent, events)
    }

    constructor (g: S.Group, su: S.Suite, state: S.State)
      ensures this.g == g && this.su == su && View() == Open(state)
    {
      this.g, this.su, this.state := g, su, state;
      result, pendingPeerConfirm, done := None, None, false;
      sent, events := [Point(state.own)], [];
    }

    method OnData(f: Frame)
      requires S.StateOk(g, state)
      modifies this
      ensures View() == Hear(g, su, old(View()), f)
    {
      if done {
        return;
      }
      match f
      case Point(d) => HandlePoint(d);
      case Confirm(d) => HandleConfirm(d);
      case Junk =>
    }

    method HandlePoint(p: Bytes)
      requires S.StateOk(g, state)
      modifies this
      ensures View() == HearPoint(g, su, old(View()), p)
    {
      if result.Some? {
        return;
      }
      var r := S.Finish(g, su, state, p);
      if r.None? {
        Fail();
        return;
      }
      result := r;
      sent := sent + [Confirm(r.value.confirm)];
      if pendingPeerConfirm.Some? {
        var pc := pendingPeerConfirm.value;
        pendingPeerConfirm := None;
        Verify(pc);
      }
    }

    method HandleConfirm(c: Bytes)
      modifies this
      ensures View() == HearConfirm(old(View()), c)
    {
      if result.None? {
        pendingPeerConfirm := Some(c);
        return;
      }
      Verify(c);
    }

    method Verify(c: Bytes)
      modifies this
      ensures View() == Check(old(View()), c)
    {
      if result.None? {
        return;
      }
      var ok := TimingSafeEqual(c, result.value.expectedPeer);
      if !ok {
        Fail();
        return;
      }
      done := true;
      events := events + [Confirmed(result.value.ke)];
    }

    method Fail()
      modifies this
      ensures View() == GiveUp(old(View()))
    {
      if done {
        return;
      }
      done := true;
      events := events + [Failed];
    }
  }
}
