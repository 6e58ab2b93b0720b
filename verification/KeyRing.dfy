/**
The keys a client holds, newest first (web/src/main.ts). A key that is pushed out, or
held when the session is torn down, is wiped in place, so whoever still has a reference
to it sees zeros.
*/
module KeyRing {
  import opened Options
  import opened Bytes
  import R = RotationClient

  const MAX_KEPT_KEYS := R.MAX_KEPT_KEYS

  /** `unshift`, then `splice` from the sixth place on. */
  function Pushed<T>(ring: seq<T>, k: T): seq<T> {
    var all := [k] + ring;
    if |all| > MAX_KEPT_KEYS then all[..MAX_KEPT_KEYS] else all
  }

  /** On key atoms it is what the rotation model's clients do. */
  lemma PushedIsPushKey(ring: seq<R.Key>, k: R.Key)
    ensures Pushed(ring, k) == R.PushKey(ring, k)
  {
  }

  function PushedAll<T>(ring: seq<T>, ks: seq<T>): seq<T> {
    if ks == [] then ring else Pushed(PushedAll(ring, ks[..|ks| - 1]), ks[|ks| - 1])
  }

  /** A key captured at place `p` is still held, `n` places further down, after `n` pushes,
      exactly as long as that place exists. */
  lemma {:induction false} CapturedStays<T>(ring: seq<T>, p: nat, ks: seq<T>)
    requires p < |ring| <= MAX_KEPT_KEYS && (forall i :: 0 <= i < |ring| && i != p ==> ring[i] != ring[p]) && ring[p] !in ks
    ensures |PushedAll(ring, ks)| <= MAX_KEPT_KEYS
    ensures p + |ks| < MAX_KEPT_KEYS ==> p + |ks| < |PushedAll(ring, ks)| && PushedAll(ring, ks)[p + |ks|] == ring[p]
    ensures forall i :: 0 <= i < |PushedAll(ring, ks)| && PushedAll(ring, ks)[i] == ring[p] ==> i == p + |ks|
    decreases |ks|
  {
    if ks != [] {
      CapturedStays(ring, p, ks[..|ks| - 1]);
    }
  }

  /** So it is held if and only if fewer keys were pushed than places were left below it. */
  lemma CapturedIff<T>(ring: seq<T>, p: nat, ks: seq<T>)
    requires p < |ring| <= MAX_KEPT_KEYS && (forall i :: 0 <= i < |ring| && i != p ==> ring[i] != ring[p]) && ring[p] !in ks
    ensures ring[p] in PushedAll(ring, ks) <==> p + |ks| < MAX_KEPT_KEYS
  {
    CapturedStays(ring, p, ks);
  }

  predicate IsWiped(a: array<byte>)
    reads a
  {
    forall i :: 0 <= i < a.Length ==> a[i] == 0
  }

  class Keys {
    var keys: seq<array<byte>>

    constructor ()
      ensures keys == []
    {
      keys := [];
    }

    predicate Distinct()
      reads this
    {
      forall i, j :: 0 <= i < j < |keys| ==> keys[i] != keys[j]
    }

    /** Keys still held keep their bytes; keys pushed out are zeroed. */
    method PushKey(k: array<byte>)
      requires Distinct() && k !in keys
      modifies this, set a | a in keys
      ensures Distinct() && keys == Pushed(old(keys), k)
      ensures forall a <- keys :: a[..] == old(a[..])
      ensures forall a <- old(keys) :: a !in keys ==> IsWiped(a)
    {
      var all := [k] + keys;
      var cut := if |all| > MAX_KEPT_KEYS then MAX_KEPT_KEYS else |all|;
      keys := all[..cut];
      var dropped := all[cut..];
      for i := 0 to |dropped|
        invariant keys == all[..cut]
        invariant forall a <- keys :: a[..] == old(a[..])
        invariant forall j :: 0 <= j < i ==> IsWiped(dropped[j])
      {
        WipeKey(dropped[i]);
      }
      forall a <- old(keys) | a !in keys ensures IsWiped(a) {
        var j :| 0 <= j < |old(keys)| && old(keys)[j] == a;
        assert all[j + 1] == a;
        assert forall i :: 0 <= i < cut ==> all[i] in keys;
        assert dropped[j + 1 - cut] == a;
      }
    }

    static method WipeKey(key: array<byte>)
      modifies key
      ensures IsWiped(key)
    {
      for i := 0 to key.Length
        invariant forall j :: 0 <= j < i ==> key[j] == 0
      {
        key[i] := 0;
      }
    }

    /** The newest held key with this id, and its place. */
    method FindKeyById(keyId: Bytes -> string, id: string) returns (r: Option<array<byte>>, ghost place: nat)
      ensures r.None? ==> forall k <- keys :: keyId(k[..]) != id
      ensures r.Some? ==>
        && place < |keys| && keys[place] == r.value && keyId(keys[place][..]) == id
        && forall j :: 0 <= j < place ==> keyId(keys[j][..]) != id
    {
      for i := 0 to |keys|
        invariant forall j :: 0 <= j < i ==> keyId(keys[j][..]) != id
      {
        if keyId(keys[i][..]) == id {
          return Some(keys[i]), i;
        }
      }
      return None, 0;
    }
  }

  // ----- what happens to a key that somebody holds a reference to

  /** What the event loop may run while a function awaits: `pushKey`, `teardown`, or a
      new session in place of the old, with or without a first key. */
  datatype Happening = Push(key: Bytes) | Teardown | Connect(first: Option<Bytes>)

  /** How a captured key stands: whether there is a session, whether it is the one the key
      was captured in, how many keys that one was pushed since, and whether the key was
      wiped. */
  datatype Watch = Watch(live: bool, here: bool, pushed: nat, wiped: bool)

  const Captured := Watch(true, true, 0, false)

  /** The key was captured at place `p` of its ring. */
  function Next(w: Watch, p: nat, h: Happening): Watch {
    match h
    case Push(_) => if w.here then w.(pushed := w.pushed + 1, wiped := w.wiped || p + w.pushed + 1 >= MAX_KEPT_KEYS) else w
    case Teardown => Watch(false, false, w.pushed, w.wiped || w.here)
    case Connect(_) => w.(live := true, here := false)
  }

  function After(w: Watch, p: nat, hs: seq<Happening>): Watch {
    if hs == [] then w else Next(After(w, p, hs[..|hs| - 1]), p, hs[|hs| - 1])
  }

  lemma {:induction false} AfterSplit(w: Watch, p: nat, a: seq<Happening>, b: seq<Happening>)
    ensures After(w, p, a + b) == After(After(w, p, a), p, b)
    decreases |b|
  {
    if b == [] {
      assert a + b == a;
    } else {
      var init := b[..|b| - 1];
      AfterSplit(w, p, a, init);
      assert (a + b)[..|a + b| - 1] == a + init;
    }
  }

  /** The keys pushed before anything else happened. */
  function FirstPushes(hs: seq<Happening>): nat {
    if hs == [] || !hs[0].Push? then 0 else 1 + FirstPushes(hs[1..])
  }

  lemma {:induction false} FirstPushesArePushes(hs: seq<Happening>)
    ensures FirstPushes(hs) <= |hs|
    ensures forall i :: 0 <= i < FirstPushes(hs) ==> hs[i].Push?
    ensures FirstPushes(hs) < |hs| ==> !hs[FirstPushes(hs)].Push?
  {
    if hs != [] && hs[0].Push? {
      FirstPushesArePushes(hs[1..]);
      assert forall i :: 1 <= i < |hs| ==> hs[i] == hs[1..][i - 1];
    }
  }

  lemma {:induction false} FirstPushesSnoc(hs: seq<Happening>, h: Happening)
    ensures FirstPushes(hs + [h]) == if FirstPushes(hs) == |hs| && h.Push? then |hs| + 1 else FirstPushes(hs)
  {
    if hs == [] {
      assert [h][1..] == [];
      assert hs + [h] == [h];
    } else {
      assert (hs + [h])[1..] == hs[1..] + [h];
      FirstPushesArePushes(hs);
      FirstPushesSnoc(hs[1..], h);
    }
  }

  /** The captured session is left by whatever comes after the first pushes; the key is
      wiped exactly if that many pushes reached the end of the ring, or if it was a
      teardown that ended the session. */
  lemma {:induction false} WipedIff(p: nat, hs: seq<Happening>)
    requires p < MAX_KEPT_KEYS
    ensures
      var w, n := After(Captured, p, hs), FirstPushes(hs);
      && n <= |hs| && (w.here <==> n == |hs|) && (w.here ==> w.live) && w.pushed == n
      && (w.wiped <==> p + n >= MAX_KEPT_KEYS || (n < |hs| && hs[n].Teardown?))
    decreases |hs|
  {
    if hs != [] {
      var init, h := hs[..|hs| - 1], hs[|hs| - 1];
      assert hs == init + [h];
      WipedIff(p, init);
      FirstPushesSnoc(init, h);
      FirstPushesArePushes(init);
    }
  }

  /** As long as the session lasts: exactly if as many keys were pushed as places are left. */
  lemma WipedByPushes(p: nat, hs: seq<Happening>)
    requires p < MAX_KEPT_KEYS && forall h <- hs :: h.Push?
    ensures After(Captured, p, hs).here && (After(Captured, p, hs).wiped <==> p + |hs| >= MAX_KEPT_KEYS)
  {
    WipedIff(p, hs);
    FirstPushesArePushes(hs);
  }

  /** Nothing brings a wiped key back. */
  lemma {:induction false} WipedStays(w: Watch, p: nat, hs: seq<Happening>)
    requires w.wiped
    ensures After(w, p, hs).wiped
  {
    if hs != [] {
      WipedStays(w, p, hs[..|hs| - 1]);
    }
  }

  function Zeros(n: nat): Bytes {
    seq(n, i => 0)
  }

  function KeyNow(was: Bytes, w: Watch): Bytes {
    if w.wiped then Zeros(|was|) else was
  }

  /** A browser tab: the one session it may have, as far as keys go. */
  class Tab {
    var session: Keys?

    ghost function Arrays(): set<array<byte>>
      reads this, session
    {
      if session == null then {} else set a | a in session.keys
    }

    ghost predicate Valid()
      reads this, session
    {
      session != null ==> session.Distinct() && |session.keys| <= MAX_KEPT_KEYS
    }

    /** `key`, captured at place `p` of the ring `home` when its bytes were `was`, stands as
        `w` says. */
    ghost predicate Stands(home: Keys, key: array<byte>, was: Bytes, p: nat, w: Watch)
      reads this, session, home, key
    {
      && (w.live <==> session != null) && (w.here <==> session == home) && (w.here ==> w.live)
      && key[..] == KeyNow(was, w)
      && (if w.here && !w.wiped then p + w.pushed < |home.keys| && home.keys[p + w.pushed] == key
          else session != null ==> key !in session.keys)
    }

    constructor ()
      ensures session == null && Valid()
    {
      session := null;
    }

    /** `pushKey` of a key just drawn or opened. */
    method PushFresh(b: Bytes)
      requires Valid()
      modifies session, Arrays()
      ensures Valid() && fresh(Arrays() - old(Arrays()))
      ensures session != null ==>
        && |session.keys| > 0 && fresh(session.keys[0]) && session.keys[0][..] == b
        && session.keys == Pushed(old(session.keys), session.keys[0])
        && (forall a <- old(session.keys) :: if a in session.keys then a[..] == old(a[..]) else IsWiped(a))
    {
      if session != null {
        var k := new byte[|b|](i requires 0 <= i < |b| => b[i]);
        assert k[..] == b;
        session.PushKey(k);
      }
    }

    /** Every key held is wiped, and the session is gone. */
    method TearDown()
      requires Valid()
      modifies this, Arrays()
      ensures session == null && forall a <- old(Arrays()) :: IsWiped(a)
    {
      if session != null {
        var ks := session.keys;
        for i := 0 to |ks|
          invariant session == old(session) && forall j :: 0 <= j < i ==> IsWiped(ks[j])
        {
          Keys.WipeKey(ks[i]);
        }
      }
      session := null;
    }

    method NewSession(first: Option<Bytes>)
      modifies this
      ensures session != null && fresh(session) && fresh(Arrays()) && Valid()
      ensures session.keys == [] || (|session.keys| == 1 && first == Some(session.keys[0][..]))
    {
      var s := new Keys();
      if first.Some? {
        var b := first.value;
        var k := new byte[|b|](i requires 0 <= i < |b| => b[i]);
        assert k[..] == b;
        s.keys := [k];
      }
      session := s;
    }

    method Happen(h: Happening, ghost home: Keys, ghost key: array<byte>, ghost was: Bytes, ghost p: nat, ghost w: Watch)
      requires Valid() && Stands(home, key, was, p, w)
      modifies this, session, Arrays()
      ensures Valid() && Stands(home, key, was, p, Next(w, p, h))
      ensures session == null || session == old(session) || fresh(session)
      ensures fresh(Arrays() - old(Arrays()))
    {
      match h
      case Push(b) =>
        ghost var ring := if session == null then [] else session.keys;
        PushFresh(b);
        assert session != null ==> session.keys[0] != key && session.keys[0] in session.keys;
        if w.here && !w.wiped {
          assert ring[p + w.pushed] == key;
          if p + w.pushed + 1 < MAX_KEPT_KEYS {
            assert session.keys[p + w.pushed + 1] == key;
          } else {
            assert key !in session.keys;
            assert key[..] == Zeros(key.Length);
          }
        }
      case Teardown =>
        ghost var held := Arrays();
        TearDown();
        assert key in held ==> key[..] == Zeros(key.Length);
      case Connect(first) =>
        NewSession(first);
        assert key !in Arrays();
    }

    /** Everything that runs while a function awaits. */
    method Await(hs: seq<Happening>, ghost home: Keys, ghost key: array<byte>, ghost was: Bytes, ghost p: nat, ghost w: Watch)
      requires Valid() && Stands(home, key, was, p, w)
      modifies this, session, Arrays()
      ensures Valid() && Stands(home, key, was, p, After(w, p, hs))
      ensures session == null || session == old(session) || fresh(session)
      ensures fresh(Arrays() - old(Arrays()))
    {
      assert hs[..0] == [];
      for i := 0 to |hs|
        invariant Valid() && Stands(home, key, was, p, After(w, p, hs[..i]))
        invariant session == null || session == old(session) || fresh(session)
        invariant fresh(Arrays() - old(Arrays()))
      {
        hide *;
        Happen(hs[i], home, key, was, p, After(w, p, hs[..i]));
        AfterSnoc(w, p, hs[..i], hs[i]);
        assert hs[..i + 1] == hs[..i] + [hs[i]];
      }
      assert hs[..|hs|] == hs;
    }
  }

  lemma AfterSnoc(w: Watch, p: nat, hs: seq<Happening>, h: Happening)
    ensures After(w, p, hs + [h]) == Next(After(w, p, hs), p, h)
  {
    assert (hs + [h])[..|hs|] == hs;
  }
}
