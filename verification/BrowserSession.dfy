/**
The session object of web/src/main.ts and its handlers, in the source's own form:
fields updated in place, loops over the known and the listed members. Each
method is proved to do what its function in RotationClient says.
*/
module BrowserSession {
  import opened Options
  import opened RotationClient

  class Session {
    var live: bool               // session !== null
    var memberId: Id
    var inRoom: bool
    var ownerId: Option<Id>
    var isOwner: bool
    var keys: seq<Key>
    var memberPubs: map<Id, Pub>
    var knownMembers: seq<Id>
    var firstOwnerPub: Option<Pub>
    var handshakes: seq<HsEntry>
    var sent: seq<Up>            // frames handed to the socket
    var nextKey: Key             // the supply of fresh room keys

    function State(): Client
      reads this
    {
      Client(memberId, inRoom, ownerId, isOwner, keys, memberPubs, knownMembers, firstOwnerPub, handshakes)
    }

    /** The session has become what `r` says, and has sent what `r` says. */
    ghost predicate Did(r: Handled, before: seq<Up>, supply: Key)
      reads this
    {
      match r
      case Live(c, out, made) =>
        live && State() == c && sent == before + out && nextKey == (if made then supply + 1 else supply)
      case TornDown => !live
    }

    constructor (id: Id)
      ensures live && State() == Client(id, false, None, false, [], map[], [], None, []) && sent == [] && nextKey == 0
    {
      live, memberId, inRoom, ownerId, isOwner := true, id, false, None, false;
      keys, memberPubs, knownMembers, firstOwnerPub, handshakes := [], map[], [], None, [];
      sent, nextKey := [], 0;
    }

    method Draw() returns (k: Key)
      modifies this`nextKey
      ensures k == old(nextKey) && nextKey == k + 1
    {
      k := nextKey;
      nextKey := nextKey + 1;
    }

    method Push(k: Key)
      modifies this`keys
      ensures keys == PushKey(old(keys), k)
    {
      keys := [k] + keys;
      if |keys| > MAX_KEPT_KEYS {
        keys := keys[..MAX_KEPT_KEYS];
      }
    }

    method Rekey(target: Id, k: Key)
      modifies this`sent
      ensures sent == old(sent) + RekeyMember(State(), target, k)
    {
      if target in memberPubs {
        sent := sent + [UpRekey(target, SealKey(memberId, memberPubs[target], k))];
      }
    }

    method RekeyAll(ids: seq<Id>, skip: set<Id>, k: Key)
      modifies this`sent
      ensures sent == old(sent) + Rekeys(State(), ids, skip, k)
    {
      for i := 0 to |ids|
        invariant sent == old(sent) + Rekeys(State(), ids[..i], skip, k)
      {
        assert ids[..i + 1][..i] == ids[..i];
        if ids[i] !in skip {
          Rekey(ids[i], k);
        }
      }
      assert ids[..|ids|] == ids;
    }

    method SendRoster()
      modifies this`sent
      ensures sent == old(sent) + BroadcastRoster(State())
    {
      if isOwner && keys != [] {
        sent := sent + [UpRoster(SealedRoster(keys[0], map[memberId := Pub(memberId)] + memberPubs))];
      }
    }

    method MemberSet(members: seq<MemberInfo>) returns (current: seq<Id>)
      ensures current == SetOf(Ids(members))
    {
      current := [];
      for i := 0 to |members|
        invariant current == SetOf(Ids(members[..i]))
      {
        IdsSnoc(members[..i], members[i]);
        assert members[..i + 1] == members[..i] + [members[i]];
        var ids := Ids(members[..i + 1]);
        assert ids[..|ids| - 1] == Ids(members[..i]);
        if members[i].id !in current {
          current := current + [members[i].id];
        }
      }
      assert members[..|members|] == members;
    }

    method Welcomed(me: Id, members: seq<MemberInfo>)
      requires live
      modifies this
      ensures Did(Live(OnWelcome(old(State()), me, members), [], false), old(sent), old(nextKey))
    {
      inRoom := true;
      memberId := me;
      ownerId := OwnerIdOf(members);
      isOwner := ownerId == Some(memberId);
      if isOwner {
        knownMembers := MemberSet(members);
      }
      if firstOwnerPub.Some? && ownerId.Some? {
        memberPubs := memberPubs[ownerId.value := firstOwnerPub.value];
      }
    }

    method Removed(current: seq<Id>) returns (removed: seq<Id>)
      ensures removed == Missing(knownMembers, current)
    {
      removed := [];
      for i := 0 to |knownMembers|
        invariant removed == Missing(knownMembers[..i], current)
      {
        MissingSnoc(knownMembers[..i], knownMembers[i], current);
        assert knownMembers[..i + 1] == knownMembers[..i] + [knownMembers[i]];
        if knownMembers[i] !in current {
          removed := removed + [knownMembers[i]];
        }
      }
      assert knownMembers[..|knownMembers|] == knownMembers;
    }

    method Forget(removed: seq<Id>)
      modifies this`knownMembers, this`memberPubs
      ensures memberPubs == old(memberPubs) - SetFrom(removed)
    {
      for i := 0 to |removed|
        invariant memberPubs == old(memberPubs) - SetFrom(removed[..i])
      {
        assert SetFrom(removed[..i + 1]) == SetFrom(removed[..i]) + {removed[i]};
        knownMembers := Missing(knownMembers, [removed[i]]);
        memberPubs := memberPubs - {removed[i]};
      }
      assert removed[..|removed|] == removed;
    }

    /** Draw a key, install it and rekey `ids`, passing over `skip`. */
    method Rekeyed(ids: seq<Id>, skip: set<Id>) returns (k: Key)
      modifies this`nextKey, this`keys, this`sent
      ensures k == old(nextKey) && nextKey == k + 1 && keys == PushKey(old(keys), k)
      ensures sent == old(sent) + Rekeys(old(State()), ids, skip, k)
    {
      RekeysSee(State(), State().(keys := PushKey(keys, nextKey)), ids, skip, nextKey);
      k := Draw();
      Push(k);
      RekeyAll(ids, skip, k);
    }

    method Presented(members: seq<MemberInfo>)
      requires live
      modifies this
      ensures Did(OnPresence(old(State()), members, old(nextKey)), old(sent), old(nextKey))
    {
      hide SetOf, Ids, OwnerIdOf, Rekeys, Missing, PushKey, SetFrom, BroadcastRoster;
      var newOwner := OwnerIdOf(members);
      var becameOwner := newOwner == Some(memberId) && !isOwner;
      ownerId := newOwner;
      isOwner := newOwner == Some(memberId);
      if isOwner {
        var current := MemberSet(members);
        if becameOwner {
          knownMembers := current;
        }
        var removed := Removed(current);
        if removed != [] {
          Forget(removed);
          ghost var c := State();
          var newKey := Rekeyed(current, {memberId});
          RekeysSee(c, c.(known := current, keys := keys), current, {memberId}, newKey);
        }
        knownMembers := current;
        ghost var before := sent;
        SendRoster();
        assert sent == before + BroadcastRoster(State());
      }
    }

    method Rotate(joiner: Id, joinerPub: Pub)
      requires live
      modifies this
      ensures Did(RotateForJoin(old(State()), joiner, joinerPub, old(nextKey)), old(sent), old(nextKey))
      ensures handshakes == old(handshakes)
    {
      hide Rekeys, FindJoiner, PushKey, SealKey;
      var newKey := Draw();
      Push(newKey);
      ghost var c := State();
      var hs := FindJoiner(handshakes, joiner);
      if hs.Some? {
        sent := sent + [UpKeyDeliver(hs.value, SealKey(memberId, joinerPub, newKey))];
      }
      ghost var deliver := sent[|old(sent)|..];
      assert sent == old(sent) + deliver;
      RekeyAll(knownMembers, {memberId, joiner}, newKey);
      assert sent == old(sent) + (deliver + Rekeys(c, knownMembers, {memberId, joiner}, newKey));
      if joiner !in knownMembers {
        knownMembers := knownMembers + [joiner];
      }
    }

    method Finish(e: HsEntry, env: SealedKey)
      requires live
      modifies this
      ensures Did(FinishJoin(old(State()), e, env), old(sent), old(nextKey))
    {
      if firstOwnerPub.None? {
        return;
      }
      var roomKey := OpenKey(memberId, firstOwnerPub.value, env);
      if roomKey.None? {
        live := false;
        return;
      }
      Push(roomKey.value);
      handshakes := DeleteHs(handshakes, e.hs);
      sent := sent + [UpEnter(e.hs)];
    }

    method GotMemberKey(hs: HsId, env: SealedPub)
      requires live
      modifies this
      ensures Did(OnMemberKey(old(State()), hs, env, old(nextKey)), old(sent), old(nextKey))
    {
      var got := GetHs(handshakes, hs);
      if got.None? || got.value.ke != Some(env.ke) {
        return;
      }
      var e := got.value;
      if e.joiner.Some? {
        memberPubs := memberPubs[e.joiner.value := env.pub];
        Rotate(e.joiner.value, env.pub);
        handshakes := DeleteHs(handshakes, hs);
      } else {
        firstOwnerPub := Some(env.pub);
        if e.pending.Some? {
          Finish(e, e.pending.value);
        }
      }
    }

    method GotKeyDeliver(hs: HsId, env: SealedKey)
      requires live
      modifies this
      ensures Did(OnKeyDeliver(old(State()), hs, env), old(sent), old(nextKey))
    {
      var got := GetHs(handshakes, hs);
      if got.None? {
        return;
      }
      if firstOwnerPub.None? {
        handshakes := SetPending(handshakes, hs, env);
        return;
      }
      Finish(got.value, env);
    }

    method GotRekey(env: SealedKey)
      requires live
      modifies this
      ensures Did(Live(OnRekey(old(State()), env), [], false), old(sent), old(nextKey))
    {
      if ownerId.None? || ownerId.value !in memberPubs {
        return;
      }
      var k := OpenKey(memberId, memberPubs[ownerId.value], env);
      if k.Some? {
        Push(k.value);
      }
    }

    method GotRoster(env: SealedRoster)
      requires live
      modifies this
      ensures Did(Live(ApplyRoster(old(State()), env), [], false), old(sent), old(nextKey))
    {
      // decryptAny: try the kept keys, newest first
      for i := 0 to |keys|
        invariant State() == old(State()) && live && sent == old(sent) && nextKey == old(nextKey)
        invariant env.key !in keys[..i]
      {
        if keys[i] == env.key {
          memberPubs := memberPubs + env.pubs;
          return;
        }
      }
      assert keys[..|keys|] == keys;
    }

    /** The dispatch of `onMessage`: a torn-down session ignores every frame. */
    method OnMessage(m: Down)
      modifies this
      ensures if old(live) then Did(Handle(old(State()), m, old(nextKey)), old(sent), old(nextKey))
              else !live && State() == old(State()) && sent == old(sent)
    {
      if !live {
        return;
      }
      match m
      case Welcome(me, members) => Welcomed(me, members);
      case Presence(members) => Presented(members);
      case MemberKey(hs, pub) => GotMemberKey(hs, pub);
      case KeyDeliver(hs, sealed) => GotKeyDeliver(hs, sealed);
      case Rekey(sealed) => GotRekey(sealed);
      case Roster(roster) => GotRoster(roster);
      case RoomClosed => live := false;
    }
  }

  lemma {:induction false} IdsSnoc(members: seq<MemberInfo>, m: MemberInfo)
    ensures Ids(members + [m]) == Ids(members) + [m.id]
  {
    if members != [] {
      IdsSnoc(members[1..], m);
      assert (members + [m])[1..] == members[1..] + [m];
    }
  }

  /** Rekeying reads only the sender's id and public-key map. */
  lemma {:induction false} RekeysSee(c: Client, d: Client, ids: seq<Id>, skip: set<Id>, k: Key)
    requires c.id == d.id && c.pubs == d.pubs
    ensures Rekeys(c, ids, skip, k) == Rekeys(d, ids, skip, k)
  {
    if ids != [] {
      RekeysSee(c, d, ids[..|ids| - 1], skip, k);
    }
  }

  lemma {:induction false} MissingSnoc(known: seq<Id>, x: Id, current: seq<Id>)
    ensures Missing(known + [x], current) == Missing(known, current) + (if x in current then [] else [x])
  {
    if known != [] {
      MissingSnoc(known[1..], x, current);
      assert (known + [x])[1..] == known[1..] + [x];
    }
  }
}
