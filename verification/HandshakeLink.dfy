/**
The exchange of module HandshakePair and the clients of module RotationClient take a
`member_key` and a `key_deliver` alike: what one drops the other drops, and what one
accepts the other accepts with the same outcome. Secrets are bytes there and atoms
here; `name` maps them, different secrets to different atoms.
*/
module HandshakeLink {
  import opened Options
  import opened Bytes
  import P = HandshakePair
  import C = RotationClient

  ghost predicate Names(name: Bytes -> C.Ke) {
    forall a, b :: name(a) == name(b) ==> a == b
  }

  function Named(name: Bytes -> C.Ke, ke: Option<Bytes>): Option<C.Ke> {
    match ke case None => None case Some(b) => Some(name(b))
  }

  /** The owner `c`, whose only pending handshake, if it is still open, is `o`'s. */
  predicate OwnerIs(c: C.Client, o: P.Owner, hs: C.HsId, joiner: C.Id, name: Bytes -> C.Ke) {
    c.handshakes == if o.open then [C.HsEntry(hs, Some(joiner), Named(name, o.ke), None)] else []
  }

  /** The owner accepts the same public keys, closes the handshake alike, and delivers its
      next key first, sealed to that public key. */
  lemma OwnersAlike(u: P.Setup, o: P.Owner, ke: Bytes, pub: P.Pub, c: C.Client, hs: C.HsId, joiner: C.Id, name: Bytes -> C.Ke)
    requires P.SetupOk(u) && (o.hs.Some? ==> o.hs.value.state == u.a) && Names(name) && OwnerIs(c, o, hs, joiner, name)
    ensures
      var o' := P.OwnerHears(u, o, P.MemberKey(ke, pub)).0;
      var sent := P.OwnerHears(u, o, P.MemberKey(ke, pub)).1;
      var r := C.OnMemberKey(c, hs, C.SealedPub(name(ke), C.Pub(pub)), u.newKey);
      && r.Live? && OwnerIs(r.client, o', hs, joiner, name)
      && (o'.dropped != o.dropped <==> !r.made) && (r.made <==> o.open && o.ke == Some(ke))
      && if !r.made then sent == [] && r == C.Live(c, [], false)
         else && sent == [P.KeyDeliver(u.ownerPub, pub, u.newKey)]
              && r.sent != [] && r.sent[0] == C.UpKeyDeliver(hs, C.SealKey(c.id, C.Pub(pub), u.newKey))
              && o'.memberPub == Some(pub) && joiner in r.client.pubs && r.client.pubs[joiner] == C.Pub(pub)
  {
    if o.open {
      var e := c.handshakes[0];
      assert c.handshakes[1..] == [] && C.DeleteHs(c.handshakes, hs) == [];
      assert o.ke.Some? ==> (name(o.ke.value) == name(ke) ==> o.ke.value == ke);
    }
  }

  function Delivered(m: P.Msg): C.SealedKey
    requires m.KeyDeliver?
  {
    C.SealedKey({m.owner, m.joiner}, m.key)
  }

  /** The joiner `c`, known by its public key, at the same point as `j`. */
  predicate JoinerIs(u: P.Setup, c: C.Client, j: P.Joiner, hs: C.HsId, name: Bytes -> C.Ke) {
    && c.id == u.joinerPub && !c.isOwner
    && c.firstOwnerPub == (match j.ownerPub case None => None case Some(p) => Some(C.Pub(p)))
    && (j.pending.Some? ==> j.pending.value.KeyDeliver?)
    && c.handshakes == (if j.open then [C.HsEntry(hs, None, Named(name, j.ke), Waiting(j))] else [])
    && c.keys == (match j.key case None => [] case Some(k) => [k])
  }

  function Waiting(j: P.Joiner): Option<C.SealedKey> {
    if j.pending.Some? && j.pending.value.KeyDeliver? then Some(Delivered(j.pending.value)) else None
  }

  /** The same reaction: the session is torn down where the other fails, `enter` is sent
      where the other enters, and they stay alike. */
  predicate ReactsAs(u: P.Setup, r: C.Handled, j: P.Joiner, j': P.Joiner, hs: C.HsId, name: Bytes -> C.Ke) {
    if j'.failed then r == C.TornDown
    else r.Live? && JoinerIs(u, r.client, j', hs, name) && r.sent == (if j'.entered > j.entered then [C.UpEnter(hs)] else [])
  }

  /** Key deliveries sealed by the joiner's own keypair to somebody else do not occur. */
  predicate Incoming(u: P.Setup, m: P.Msg)
    requires m.KeyDeliver?
  {
    m.owner == u.joinerPub ==> m.joiner == u.joinerPub
  }

  predicate JoinerReady(u: P.Setup, j: P.Joiner) {
    && P.SetupOk(u) && (j.hs.Some? ==> j.hs.value.state == u.b)
    && (j.pending.Some? ==> j.pending.value.KeyDeliver? && Incoming(u, j.pending.value))
    && !j.failed && (j.open ==> j.key.None?)
  }

  lemma FinishAlike(u: P.Setup, j: P.Joiner, m: P.Msg, c: C.Client, hs: C.HsId, name: Bytes -> C.Ke)
    requires JoinerReady(u, j) && m.KeyDeliver? && Incoming(u, m) && JoinerIs(u, c, j, hs, name) && j.open && j.ownerPub.Some?
    ensures ReactsAs(u, C.FinishJoin(c, c.handshakes[0], Delivered(m)), j, P.FinishJoin(u, j, m), hs, name)
  {
    var p := j.ownerPub.value;
    assert {m.owner, m.joiner} == {u.joinerPub, p} <==> m.owner == p && m.joiner == u.joinerPub by {
      if {m.owner, m.joiner} == {u.joinerPub, p} {
        assert m.owner in {u.joinerPub, p} && m.joiner in {u.joinerPub, p} && p in {m.owner, m.joiner} && u.joinerPub in {m.owner, m.joiner};
      }
    }
    assert c.handshakes[1..] == [] && C.DeleteHs(c.handshakes, hs) == [];
  }

  /** The joiner takes a delivered key, or keeps it for later, alike. */
  lemma DeliveriesAlike(u: P.Setup, j: P.Joiner, m: P.Msg, c: C.Client, hs: C.HsId, name: Bytes -> C.Ke)
    requires JoinerReady(u, j) && m.KeyDeliver? && Incoming(u, m) && JoinerIs(u, c, j, hs, name)
    ensures ReactsAs(u, C.OnKeyDeliver(c, hs, Delivered(m)), j, P.JoinerHears(u, j, m).0, hs, name)
  {
    if j.open {
      assert c.handshakes[1..] == [];
      if j.ownerPub.Some? {
        FinishAlike(u, j, m, c, hs, name);
      }
    }
  }

  /** The joiner takes the owner's public key alike, and then the delivery it kept. */
  lemma JoinersAlike(u: P.Setup, j: P.Joiner, ke: Bytes, pub: P.Pub, next: C.Key, c: C.Client, hs: C.HsId, name: Bytes -> C.Ke)
    requires JoinerReady(u, j) && Names(name) && JoinerIs(u, c, j, hs, name)
    ensures ReactsAs(u, C.OnMemberKey(c, hs, C.SealedPub(name(ke), C.Pub(pub)), next), j, P.JoinerHears(u, j, P.MemberKey(ke, pub)).0, hs, name)
  {
    if j.open {
      assert c.handshakes[1..] == [];
      assert j.ke.Some? ==> (name(j.ke.value) == name(ke) ==> j.ke.value == ke);
      if j.ke == Some(ke) && j.pending.Some? {
        var c1, j1 := c.(firstOwnerPub := Some(C.Pub(pub))), j.(ownerPub := Some(pub));
        FinishAlike(u, j1, j.pending.value, c1, hs, name);
      }
    }
  }
}
