/**
Changes come to rest: in every run, with or without overlaps and losses, the relay and
the clients can only take so many steps before everything is delivered, and in a
serialized run they are never stuck before that. So the moment that rotation agreement
speaks of is reached after every change.
*/
module RotationSettles {
  import opened Options
  import opened Sums
  import opened RotationClient
  import opened RotationNet
  import opened A = RotationAgreement

  // ----- what a frame can still cause

  /** Showing a presence to everyone, with all that the owner then sends; `b` bounds the
      number of ids. */
  function ShowCost(b: nat): nat {
    Times(b, 3 * b + 2)
  }

  function EnterCost(b: nat): nat {
    4 + ShowCost(b)
  }

  function DownCost(m: Down, b: nat): nat {
    match m
    case Presence(_) => 3 * b + 2
    case KeyDeliver(_, _) => 1 + EnterCost(b)
    case MemberKey(_, _) => 3 + EnterCost(b) + 2 * b
    case _ => 1
  }

  function UpCost(u: Up, b: nat): nat {
    match u
    case UpMemberKey(_, _) => 4 + EnterCost(b) + 2 * b
    case UpKeyDeliver(_, _) => 2 + EnterCost(b)
    case UpEnter(_) => EnterCost(b)
    case UpRekey(_, _) => 2
    case UpRoster(_) => 1 + b
    case UpTransfer(_) => 2 + ShowCost(b)
    case UpKick(_) => 2 + ShowCost(b)
    case UpLeave => 1 + b + ShowCost(b)
  }

  function JobCost(j: Job, b: nat): nat {
    if j == SendWelcome then 2 else 1 + ShowCost(b)
  }

  function DownsCost(ms: seq<Down>, b: nat): nat {
    if ms == [] then 0 else DownCost(ms[0], b) + DownsCost(ms[1..], b)
  }

  function UpsCost(us: seq<Up>, b: nat): nat {
    if us == [] then 0 else UpCost(us[0], b) + UpsCost(us[1..], b)
  }

  function JobsCost(js: seq<Job>, b: nat): nat {
    if js == [] then 0 else JobCost(js[0], b) + JobsCost(js[1..], b)
  }

  lemma {:induction false} DownsSplit(a: seq<Down>, c: seq<Down>, b: nat)
    ensures DownsCost(a + c, b) == DownsCost(a, b) + DownsCost(c, b)
  {
    if a == [] {
      assert a + c == c;
    } else {
      assert (a + c)[1..] == a[1..] + c;
      DownsSplit(a[1..], c, b);
    }
  }

  lemma {:induction false} UpsSplit(a: seq<Up>, c: seq<Up>, b: nat)
    ensures UpsCost(a + c, b) == UpsCost(a, b) + UpsCost(c, b)
  {
    if a == [] {
      assert a + c == c;
    } else {
      assert (a + c)[1..] == a[1..] + c;
      UpsSplit(a[1..], c, b);
    }
  }

  lemma {:induction false} JobsSplit(a: seq<Job>, c: seq<Job>, b: nat)
    ensures JobsCost(a + c, b) == JobsCost(a, b) + JobsCost(c, b)
  {
    if a == [] {
      assert a + c == c;
    } else {
      assert (a + c)[1..] == a[1..] + c;
      JobsSplit(a[1..], c, b);
    }
  }

  // ----- all frames together

  function DownCosts(v: set<Id>, down: map<Id, seq<Down>>): map<Id, nat> {
    map x | x in v :: DownsCost(Q(down, x), |v|)
  }

  ghost function DownLoad(v: set<Id>, down: map<Id, seq<Down>>): nat {
    Sum(DownCosts(v, down))
  }

  ghost function UpLoad(v: set<Id>, up: map<Id, seq<Up>>): nat {
    Sum(map x | x in v :: UpsCost(Q(up, x), |v|))
  }

  ghost function JobLoad(v: set<Id>, agenda: map<Id, seq<Job>>): nat {
    Sum(map x | x in v :: JobsCost(Q(agenda, x), |v|))
  }

  /** An upper bound on the steps still to come. */
  ghost function Load(n: Net): nat {
    DownLoad(n.h.ids, n.down) + UpLoad(n.h.ids, n.up) + JobLoad(n.h.ids, n.agenda)
  }

  lemma OneChanges(m: map<Id, nat>, m': map<Id, nat>, x: Id)
    requires x in m && m'.Keys == m.Keys && forall y <- m :: y != x ==> m'[y] == m[y]
    ensures Sum(m') + m[x] == Sum(m) + m'[x]
  {
    assert m' == m[x := m'[x]];
    SumPut(m, x, m'[x]);
  }

  lemma DownTaken(v: set<Id>, down: map<Id, seq<Down>>, x: Id)
    requires x in v && Q(down, x) != []
    ensures DownLoad(v, down[x := down[x][1..]]) + DownCost(down[x][0], |v|) == DownLoad(v, down)
  {
    OneChanges(DownCosts(v, down), DownCosts(v, down[x := down[x][1..]]), x);
  }

  lemma UpTaken(v: set<Id>, up: map<Id, seq<Up>>, x: Id)
    requires x in v && Q(up, x) != []
    ensures UpLoad(v, up[x := up[x][1..]]) + UpCost(up[x][0], |v|) == UpLoad(v, up)
  {
    var m, m' := map y | y in v :: UpsCost(Q(up, y), |v|), map y | y in v :: UpsCost(Q(up[x := up[x][1..]], y), |v|);
    OneChanges(m, m', x);
  }

  lemma JobTaken(v: set<Id>, agenda: map<Id, seq<Job>>, x: Id)
    requires x in v && Q(agenda, x) != []
    ensures JobLoad(v, agenda[x := agenda[x][1..]]) + JobCost(agenda[x][0], |v|) == JobLoad(v, agenda)
  {
    var m, m' := map y | y in v :: JobsCost(Q(agenda, y), |v|), map y | y in v :: JobsCost(Q(agenda[x := agenda[x][1..]], y), |v|);
    OneChanges(m, m', x);
  }

  lemma UpAdded(v: set<Id>, up: map<Id, seq<Up>>, x: Id, us: seq<Up>)
    requires x in v
    ensures UpLoad(v, Append(up, x, us)) == UpLoad(v, up) + UpsCost(us, |v|)
  {
    var m, m' := map y | y in v :: UpsCost(Q(up, y), |v|), map y | y in v :: UpsCost(Q(Append(up, x, us), y), |v|);
    UpsSplit(Q(up, x), us, |v|);
    OneChanges(m, m', x);
  }

  lemma JobAdded(v: set<Id>, agenda: map<Id, seq<Job>>, x: Id, js: seq<Job>)
    requires x in v
    ensures JobLoad(v, agenda[x := Q(agenda, x) + js]) == JobLoad(v, agenda) + JobsCost(js, |v|)
  {
    var m, m' := map y | y in v :: JobsCost(Q(agenda, y), |v|), map y | y in v :: JobsCost(Q(agenda[x := Q(agenda, x) + js], y), |v|);
    JobsSplit(Q(agenda, x), js, |v|);
    OneChanges(m, m', x);
  }

  lemma TimesMonotone(k: nat, n: nat, c: nat)
    requires k <= n
    ensures Times(k, c) <= Times(n, c)
  {
    assert n * c == k * c + (n - k) * c;
  }

  lemma SmallerSet<T>(a: set<T>, b: set<T>)
    requires a <= b
    ensures |a| <= |b|
  {
    assert b == a + (b - a);
  }

  lemma DownSent(v: set<Id>, down: map<Id, seq<Down>>, to: set<Id>, lost: set<Id>, m: Down)
    ensures DownLoad(v, Send(down, to, lost, m)) <= DownLoad(v, down) + Times(|to|, DownCost(m, |v|))
  {
    var a, a' := DownCosts(v, down), DownCosts(v, Send(down, to, lost, m));
    forall y <- a ensures a'[y] <= a[y] + if y in to then DownCost(m, |v|) else 0 {
      OneSent(|v|, down, to, lost, m, y);
    }
    assert a'.Keys == v == a.Keys;
    hide DownCosts, Sum, Times, Send, DownCost;
    SumGrows(a, a', to, DownCost(m, |v|));
  }

  lemma OneSent(b: nat, down: map<Id, seq<Down>>, to: set<Id>, lost: set<Id>, m: Down, y: Id)
    ensures DownsCost(Q(Send(down, to, lost, m), y), b) <= DownsCost(Q(down, y), b) + if y in to then DownCost(m, b) else 0
  {
    OneCost(m, b);
    DownsSplit(Q(down, y), [m], b);
    hide DownCost, DownsCost, Send;
  }

  lemma OneCost(m: Down, b: nat)
    ensures DownsCost([m], b) == DownCost(m, b)
  {
    assert [m][1..] == [];
  }

  /** To at most all ids. */
  lemma DownShown(v: set<Id>, down: map<Id, seq<Down>>, to: set<Id>, lost: set<Id>, m: Down)
    requires to <= v
    ensures DownLoad(v, Send(down, to, lost, m)) <= DownLoad(v, down) + Times(|v|, DownCost(m, |v|))
  {
    DownSent(v, down, to, lost, m);
    SmallerSet(to, v);
    TimesMonotone(|to|, |v|, DownCost(m, |v|));
    hide DownLoad, Send, DownCost, Times;
  }

  lemma DownSentOne(v: set<Id>, down: map<Id, seq<Down>>, y: Id, lost: set<Id>, m: Down)
    ensures DownLoad(v, Send(down, {y}, lost, m)) <= DownLoad(v, down) + DownCost(m, |v|)
  {
    hide DownLoad, Send, DownCost, Times;
    DownSent(v, down, {y}, lost, m);
    TimesOne(DownCost(m, |v|));
    assert |{y}| == 1;
  }

  lemma TimesOne(c: nat)
    ensures Times(1, c) == c
  {
  }

  // ----- the ids of a run

  predicate NoDup(s: seq<Id>) {
    forall i, j :: 0 <= i < j < |s| ==> s[i] != s[j]
  }

  predicate ClientTame(v: set<Id>, c: Client) {
    && NoDup(c.known) && (forall k <- c.known :: k in v)
    && forall e <- c.handshakes :: e.joiner.Some? ==> e.joiner.value in v
  }

  predicate ListTame(v: set<Id>, list: seq<MemberInfo>) {
    |list| <= |v| && forall i <- Ids(list) :: i in v
  }

  predicate DownTame(v: set<Id>, m: Down) {
    (m.Presence? || m.Welcome?) ==> ListTame(v, m.members)
  }

  ghost predicate QueueTame(v: set<Id>, x: Id, ms: seq<Down>) {
    (ms != [] ==> x in v) && forall m <- ms :: DownTame(v, m)
  }

  ghost predicate DownsTame(v: set<Id>, down: map<Id, seq<Down>>) {
    forall x {:trigger QueueTame(v, x, Q(down, x))} :: QueueTame(v, x, Q(down, x))
  }

  ghost predicate ClientsTame(v: set<Id>, clients: map<Id, Client>) {
    forall x <- clients :: x in v && ClientTame(v, clients[x])
  }

  ghost predicate QueuesTame(v: set<Id>, up: map<Id, seq<Up>>, agenda: map<Id, seq<Job>>) {
    forall x :: x !in v ==> Q(up, x) == [] && Q(agenda, x) == []
  }

  predicate RoomTame(v: set<Id>, room: Room, joining: map<Id, HsId>, handshakes: map<HsId, Handshake>) {
    && room.members <= v && joining.Keys <= v
    && forall h <- handshakes :: handshakes[h].joiner in v && handshakes[h].owner in v
  }

  ghost predicate Tame(n: Net) {
    var v := n.h.ids;
    && RoomTame(v, n.room, n.joining, n.handshakes) && QueuesTame(v, n.up, n.agenda)
    && ClientsTame(v, n.clients) && DownsTame(v, n.down)
  }

  // ----- a handler sends less than what it was sent

  lemma {:induction false} NoDupSize(s: seq<Id>)
    requires NoDup(s)
    ensures |SetFrom(s)| == |s|
  {
    if s != [] {
      var init, last := s[..|s| - 1], s[|s| - 1];
      NoDupSize(init);
      assert s == init + [last];
      assert SetFrom(s) == SetFrom(init) + {last};
      assert last !in init;
    } else {
      assert SetFrom(s) == {};
    }
  }

  lemma KnownSize(v: set<Id>, s: seq<Id>)
    requires NoDup(s) && forall k <- s :: k in v
    ensures |s| <= |v|
  {
    NoDupSize(s);
    SmallerSet(SetFrom(s), v);
  }

  lemma {:induction false} SetOfSize(ids: seq<Id>)
    ensures |SetOf(ids)| <= |ids| && NoDup(SetOf(ids))
  {
    if ids != [] {
      SetOfSize(ids[..|ids| - 1]);
    }
  }

  lemma {:induction false} IdsSize(list: seq<MemberInfo>)
    ensures |Ids(list)| == |list|
  {
    if list != [] {
      IdsSize(list[1..]);
    }
  }

  lemma {:induction false} RekeysCost(c: Client, ids: seq<Id>, skip: set<Id>, k: Key, b: nat)
    ensures UpsCost(Rekeys(c, ids, skip, k), b) <= 2 * |ids|
  {
    if ids != [] {
      RekeysCost(c, ids[..|ids| - 1], skip, k, b);
      var one := if ids[|ids| - 1] in skip then [] else RekeyMember(c, ids[|ids| - 1], k);
      UpsSplit(Rekeys(c, ids[..|ids| - 1], skip, k), one, b);
      assert one != [] ==> one[1..] == [];
    }
  }

  lemma RosterCost(c: Client, b: nat)
    ensures UpsCost(BroadcastRoster(c), b) <= 1 + b
  {
    if c.isOwner && c.keys != [] {
      assert BroadcastRoster(c)[1..] == [];
    }
  }

  lemma PresenceSpends(v: set<Id>, c: Client, list: seq<MemberInfo>, next: Key)
    requires ClientTame(v, c) && ListTame(v, list)
    ensures
      var r := OnPresence(c, list, next);
      r.Live? && UpsCost(r.sent, |v|) < 3 * |v| + 2 && ClientTame(v, r.client)
  {
    var current := SetOf(Ids(list));
    SetOfSize(Ids(list));
    IdsSize(list);
    var r := OnPresence(c, list, next);
    var parts := Rekeys(r.client, current, {r.client.id}, next);
    RekeysCost(r.client, current, {r.client.id}, next, |v|);
    RosterCost(r.client, |v|);
    UpsSplit(parts, BroadcastRoster(r.client), |v|);
    PresenceSends(c, list, next);
    hide Rekeys, BroadcastRoster, SetOf, Ids, OnPresence, UpsCost;
    assert UpsCost([], |v|) == 0 by { NothingCosts(|v|); }
  }

  lemma NothingCosts(b: nat)
    ensures UpsCost([], b) == 0
  {
  }

  lemma PresenceSends(c: Client, list: seq<MemberInfo>, next: Key)
    ensures
      var r := OnPresence(c, list, next);
      && r.Live? && r.client.handshakes == c.handshakes && (r.client.known == c.known || r.client.known == SetOf(Ids(list)))
      && (r.sent == [] || r.sent == BroadcastRoster(r.client)
          || r.sent == Rekeys(r.client, SetOf(Ids(list)), {r.client.id}, next) + BroadcastRoster(r.client))
  {
    hide Rekeys, BroadcastRoster, SetOf, Ids, Missing;
  }

  lemma {:induction false} EntriesTame(v: set<Id>, hss: seq<HsEntry>, hs: HsId, env: SealedKey)
    requires forall e <- hss :: e.joiner.Some? ==> e.joiner.value in v
    ensures forall e <- DeleteHs(hss, hs) :: e.joiner.Some? ==> e.joiner.value in v
    ensures forall e <- SetPending(hss, hs, env) :: e.joiner.Some? ==> e.joiner.value in v
    ensures GetHs(hss, hs).Some? ==> GetHs(hss, hs).value in hss
  {
    if hss != [] {
      assert forall e <- hss[1..] :: e in hss;
      EntriesTame(v, hss[1..], hs, env);
    }
  }

  lemma FinishSpends(v: set<Id>, c: Client, e: HsEntry, env: SealedKey)
    requires ClientTame(v, c)
    ensures
      var r := FinishJoin(c, e, env);
      r.Live? ==> UpsCost(r.sent, |v|) <= EnterCost(|v|) && ClientTame(v, r.client)
  {
    EntriesTame(v, c.handshakes, e.hs, env);
    hide DeleteHs;
    assert [UpEnter(e.hs)][1..] == [];
  }

  lemma RotateTame(v: set<Id>, c: Client, joiner: Id, pub: Pub, next: Key)
    requires ClientTame(v, c) && joiner in v
    ensures var r := RotateForJoin(c, joiner, pub, next); r.Live? && ClientTame(v, r.client)
  {
    hide Rekeys, PushKey, FindJoiner;
  }

  lemma RotateSpends(v: set<Id>, c: Client, joiner: Id, pub: Pub, next: Key)
    requires ClientTame(v, c) && joiner in v
    ensures
      var r := RotateForJoin(c, joiner, pub, next);
      r.Live? && UpsCost(r.sent, |v|) <= 2 + EnterCost(|v|) + 2 * |v| && ClientTame(v, r.client)
  {
    KnownSize(v, c.known);
    RotateTame(v, c, joiner, pub, next);
    var c1 := c.(keys := PushKey(c.keys, next));
    RekeysCost(c1, c.known, {c.id, joiner}, next, |v|);
    var deliver := match FindJoiner(c.handshakes, joiner)
      case Some(hs) => [UpKeyDeliver(hs, SealKey(c.id, pub, next))]
      case None => [];
    assert deliver != [] ==> deliver[1..] == [];
    UpsSplit(deliver, Rekeys(c1, c.known, {c.id, joiner}, next), |v|);
    hide ClientTame, Rekeys, PushKey, FindJoiner, ShowCost, SealKey, SetAdd;
  }

  lemma MemberKeySpends(v: set<Id>, c: Client, hs: HsId, env: SealedPub, next: Key)
    requires ClientTame(v, c)
    ensures
      var r := OnMemberKey(c, hs, env, next);
      r.Live? ==> UpsCost(r.sent, |v|) <= 2 + EnterCost(|v|) + 2 * |v| && ClientTame(v, r.client)
  {
    EntriesTame(v, c.handshakes, hs, SealedKey({}, 0));
    match GetHs(c.handshakes, hs)
    case None =>
    case Some(e) =>
      var c1 := c.(firstOwnerPub := Some(env.pub));
      if e.joiner.Some? {
        RotateSpends(v, c.(pubs := c.pubs[e.joiner.value := env.pub]), e.joiner.value, env.pub, next);
      } else if e.pending.Some? {
        FinishSpends(v, c1, e, e.pending.value);
      }
      hide RotateForJoin, FinishJoin, GetHs, DeleteHs, EnterCost;
  }

  lemma KeyDeliverSpends(v: set<Id>, c: Client, hs: HsId, env: SealedKey)
    requires ClientTame(v, c)
    ensures
      var r := OnKeyDeliver(c, hs, env);
      r.Live? ==> UpsCost(r.sent, |v|) <= EnterCost(|v|) && ClientTame(v, r.client)
  {
    EntriesTame(v, c.handshakes, hs, env);
    if GetHs(c.handshakes, hs).Some? {
      FinishSpends(v, c, GetHs(c.handshakes, hs).value, env);
    }
    hide FinishJoin, GetHs, SetPending, EnterCost;
  }

  lemma WelcomeTame(v: set<Id>, c: Client, me: Id, list: seq<MemberInfo>)
    requires ClientTame(v, c) && ListTame(v, list)
    ensures ClientTame(v, OnWelcome(c, me, list))
  {
    SetOfSize(Ids(list));
    hide SetOf, Ids, OwnerIdOf;
  }

  lemma HandleSpends(v: set<Id>, c: Client, m: Down, next: Key)
    requires ClientTame(v, c) && DownTame(v, m)
    ensures
      var r := Handle(c, m, next);
      r.Live? ==> UpsCost(r.sent, |v|) < DownCost(m, |v|) && ClientTame(v, r.client)
  {
    match m
    case Welcome(me, list) => WelcomeTame(v, c, me, list); hide OnWelcome;
    case Presence(list) => PresenceSpends(v, c, list, next); hide OnPresence;
    case MemberKey(hs, pub) => MemberKeySpends(v, c, hs, pub, next); hide OnMemberKey, EnterCost;
    case KeyDeliver(hs, sealed) => KeyDeliverSpends(v, c, hs, sealed); hide OnKeyDeliver, EnterCost;
    case Rekey(sealed) =>
    case Roster(roster) =>
    case RoomClosed =>
  }

  // ----- every step of the relay and the clients spends

  lemma DeliverSpends(n: Net, x: Id)
    requires Tame(n) && Q(n.down, x) != []
    ensures Tame(DeliverStep(n, x)) && Load(DeliverStep(n, x)) < Load(n) && DeliverStep(n, x).h.ids == n.h.ids
  {
    var v, m := n.h.ids, n.down[x][0];
    assert QueueTame(v, x, Q(n.down, x));
    assert m in Q(n.down, x);
    var n1 := n.(down := n.down[x := n.down[x][1..]]);
    DownTaken(v, n.down, x);
    TakeTame(n, x);
    CostsSomething(m, |v|);
    hide DownLoad, UpLoad, JobLoad, Handle, UpsCost, DownCost;
    if x in n.clients {
      HandleSpends(v, n.clients[x], m, n.h.nextKey);
      var r := Handle(n.clients[x], m, n.h.nextKey);
      hide ClientTame, DownTame, QueueTame, DownsTame, Record;
      if r.Live? {
        UpAdded(v, n.up, x, r.sent);
        SameIds(n.h, n.clients[x], m, r.client);
        AppendTame(n1, x, r.client, r.sent, DeliverStep(n, x));
      } else {
        LoseTame(n1, x);
      }
    }
  }

  lemma SameIds(h: History, before: Client, m: Down, c: Client)
    ensures Record(h, before, m, c).ids == h.ids
  {
  }

  lemma CostsSomething(m: Down, b: nat)
    ensures DownCost(m, b) >= 1
  {
  }

  lemma TakeTame(n: Net, x: Id)
    requires Tame(n) && Q(n.down, x) != []
    ensures Tame(n.(down := n.down[x := n.down[x][1..]]))
  {
    var v, down := n.h.ids, n.down[x := n.down[x][1..]];
    forall y ensures QueueTame(v, y, Q(down, y)) {
      assert QueueTame(v, y, Q(n.down, y));
    }
  }

  lemma LoseTame(n: Net, x: Id)
    requires Tame(n)
    ensures Tame(n.(clients := n.clients - {x}))
  {
    hide DownsTame;
  }

  lemma AppendTame(n: Net, x: Id, c: Client, sent: seq<Up>, n': Net)
    requires Tame(n) && x in n.h.ids && ClientTame(n.h.ids, c) && n'.h.ids == n.h.ids
    requires n' == n.(clients := n.clients[x := c], up := Append(n.up, x, sent), h := n'.h)
    ensures Tame(n')
  {
    hide DownsTame;
  }

  // ----- the relay

  lemma {:induction false} ListSize(list: seq<MemberInfo>, members: set<Id>)
    requires forall i, j :: 0 <= i < j < |list| ==> list[i].id != list[j].id
    requires forall i :: 0 <= i < |list| ==> list[i].id in members
    ensures |list| <= |members| && forall x <- Ids(list) :: x in members
  {
    if list != [] {
      var rest := list[1..];
      assert forall i :: 0 <= i < |rest| ==> rest[i].id != list[0].id;
      ListSize(rest, members - {list[0].id});
      assert |members - {list[0].id}| == |members| - 1;
    }
  }

  lemma ListsTame(v: set<Id>, list: seq<MemberInfo>, room: Room)
    requires Lists(list, room) && room.members <= v
    ensures ListTame(v, list)
  {
    ListSize(list, room.members);
    SmallerSet(room.members, v);
  }

  lemma SendTame(v: set<Id>, down: map<Id, seq<Down>>, to: set<Id>, lost: set<Id>, m: Down)
    requires DownsTame(v, down) && to <= v && DownTame(v, m)
    ensures DownsTame(v, Send(down, to, lost, m))
  {
    var down' := Send(down, to, lost, m);
    forall y ensures QueueTame(v, y, Q(down', y)) {
      assert QueueTame(v, y, Q(down, y));
    }
  }

  /** A step that sends one message, at a cost that what it served has paid for. */
  ghost predicate Spends(n: Net, n': Net, paid: nat) {
    Tame(n') && n'.h == n.h && Load(n') <= Load(n) + paid
  }

  lemma SendSpends(n: Net, to: set<Id>, lost: set<Id>, m: Down)
    requires Tame(n) && to <= n.h.ids && DownTame(n.h.ids, m)
    ensures Spends(n, n.(down := Send(n.down, to, lost, m)), Times(|n.h.ids|, DownCost(m, |n.h.ids|)))
  {
    SendTame(n.h.ids, n.down, to, lost, m);
    DownShown(n.h.ids, n.down, to, lost, m);
    hide DownLoad, UpLoad, JobLoad, Send, DownsTame, DownCost, Times;
  }

  lemma SendOneSpends(n: Net, y: Id, lost: set<Id>, m: Down)
    requires Tame(n) && y in n.h.ids && DownTame(n.h.ids, m)
    ensures Spends(n, n.(down := Send(n.down, {y}, lost, m)), DownCost(m, |n.h.ids|))
  {
    SendTame(n.h.ids, n.down, {y}, lost, m);
    DownSentOne(n.h.ids, n.down, y, lost, m);
    hide DownLoad, UpLoad, JobLoad, Send, DownsTame, DownCost;
  }

  lemma PlainSpends(n: Net, n': Net)
    requires Tame(n) && n'.h == n.h && n'.down == n.down && n'.up == n.up && n'.agenda == n.agenda && n'.clients == n.clients
    requires n'.room.members <= n.room.members && n'.joining.Keys <= n.joining.Keys && forall h <- n'.handshakes :: h in n.handshakes && n'.handshakes[h] == n.handshakes[h]
    ensures Spends(n, n', 0)
  {
    hide DownsTame, ClientsTame, QueuesTame, DownLoad, UpLoad, JobLoad;
  }

  lemma SpendsMore(n: Net, n1: Net, n2: Net, a: nat, b: nat)
    requires Spends(n, n1, a) && Spends(n1, n2, b)
    ensures Spends(n, n2, a + b)
  {
    hide Tame, Load;
  }

  lemma RelaySpends(n: Net, from: Id, hs: HsId, lost: set<Id>, m: Down)
    requires Tame(n) && !m.Presence? && !m.Welcome?
    ensures Spends(n, RelayHandshake(n, from, hs, lost, m), DownCost(m, |n.h.ids|))
  {
    hide DownCost, Load, Send;
    PlainSpends(n, n);
    if hs in n.handshakes {
      if n.handshakes[hs].joiner == from {
        SendOneSpends(n, n.handshakes[hs].owner, lost, m);
      } else if n.handshakes[hs].owner == from {
        SendOneSpends(n, n.handshakes[hs].joiner, lost, m);
      }
    }
  }

  lemma BroadcastSpends(n: Net, list: seq<MemberInfo>, lost: set<Id>)
    requires Tame(n) && Lists(list, n.room)
    ensures Spends(n, Broadcast(n, list, lost), ShowCost(|n.h.ids|))
  {
    hide Load, Send, DownsTame, ClientsTame, QueuesTame, Lists, Times;
    PlainSpends(n, n);
    ListsTame(n.h.ids, list, n.room);
    if n.room.open {
      SendSpends(n, n.room.members, lost, Presence(list));
    }
  }

  lemma JobsSpend(n: Net, x: Id, room: Room, joining: map<Id, HsId>, handshakes: map<HsId, Handshake>, js: seq<Job>)
    requires Tame(n) && x in n.h.ids && RoomTame(n.h.ids, room, joining, handshakes)
    ensures Spends(n, n.(room := room, joining := joining, handshakes := handshakes, agenda := n.agenda[x := Q(n.agenda, x) + js]), JobsCost(js, |n.h.ids|))
  {
    JobAdded(n.h.ids, n.agenda, x, js);
    AgendaTame(n.h.ids, n.up, n.agenda, x, js);
    hide DownsTame, ClientsTame, QueuesTame, RoomTame, DownLoad, UpLoad, JobLoad;
  }

  lemma AgendaTame(v: set<Id>, up: map<Id, seq<Up>>, agenda: map<Id, seq<Job>>, x: Id, js: seq<Job>)
    requires QueuesTame(v, up, agenda) && x in v
    ensures QueuesTame(v, up, agenda[x := Q(agenda, x) + js])
  {
  }

  lemma JobsCosts(b: nat)
    ensures JobsCost([SendPresence], b) == 1 + ShowCost(b) && JobsCost([SendWelcome, SendPresence], b) == 3 + ShowCost(b)
  {
    assert [SendPresence][1..] == [] && [SendWelcome, SendPresence][1..] == [SendPresence];
    assert JobsCost([SendPresence], b) == JobCost(SendPresence, b);
  }

  lemma EnterSpends(n: Net, x: Id, hs: HsId, lost: set<Id>)
    requires Tame(n)
    ensures Spends(n, Enter(n, x, hs, lost), 3 + ShowCost(|n.h.ids|))
  {
    hide DownsTame, ClientsTame, QueuesTame, Load, Send, ShowCost;
    PlainSpends(n, n);
    if x in n.joining && n.joining[x] == hs {
      var n1 := n.(joining := n.joining - {x}, handshakes := n.handshakes - {hs});
      if !n.room.open || |n.room.members| >= n.maxSize {
        PlainSpends(n, n1);
        SendOneSpends(n1, x, lost, RoomClosed);
      } else {
        JobsCosts(|n.h.ids|);
        JobsSpend(n, x, n.room.(members := n.room.members + {x}, owner := if n.room.members == {} then x else n.room.owner),
                  n.joining - {x}, n.handshakes - {hs}, [SendWelcome, SendPresence]);
      }
    }
  }

  lemma ClosingCosts(b: nat)
    ensures Times(b, DownCost(RoomClosed, b)) == b
  {
  }

  lemma LeaveSpends(n: Net, x: Id, list: seq<MemberInfo>, lost: set<Id>)
    requires Tame(n) && Lists(list, Leave(n, x, list, lost).room)
    ensures Spends(n, Leave(n, x, list, lost), |n.h.ids| + ShowCost(|n.h.ids|))
  {
    hide DownsTame, ClientsTame, QueuesTame, Load, Send, Lists, ShowCost, Times, DownCost;
    var n1 := n.(handshakes := DropHandshakes(n.handshakes, x), joining := n.joining - {x});
    PlainSpends(n, n1);
    if n.room.open && x in n.room.members {
      if x == n.room.owner {
        var n2 := n1.(room := n.room.(members := {}, open := false));
        PlainSpends(n, n2);
        SendSpends(n2, n.room.members, lost, RoomClosed);
        ClosingCosts(|n.h.ids|);
      } else {
        var n2 := n1.(room := n.room.(members := n.room.members - {x}));
        PlainSpends(n, n2);
        BroadcastSpends(n2, list, lost);
      }
    }
  }

  lemma KickSpends(n: Net, t: Id, list: seq<MemberInfo>, lost: set<Id>)
    requires Tame(n) && t in n.room.members && Lists(list, n.room.(members := n.room.members - {t}))
    ensures Spends(n, Broadcast(n.(room := n.room.(members := n.room.members - {t}), down := Send(n.down, {t}, lost, RoomClosed)), list, lost),
                   1 + ShowCost(|n.h.ids|))
  {
    hide DownsTame, ClientsTame, QueuesTame, Load, Send, Lists, ShowCost;
    var n1 := n.(room := n.room.(members := n.room.members - {t}));
    PlainSpends(n, n1);
    SendOneSpends(n1, t, lost, RoomClosed);
    var n2 := n1.(down := Send(n.down, {t}, lost, RoomClosed));
    BroadcastSpends(n2, list, lost);
  }

  lemma OwnerFrameSpends(n: Net, x: Id, m: Up, list: seq<MemberInfo>, lost: set<Id>)
    requires Tame(n) && x in n.h.ids && (m.UpRekey? || m.UpRoster?)
    ensures Spends(n, Process(n, x, m, list, lost), UpCost(m, |n.h.ids|) - 1)
  {
    hide Load, Send, Times, DownsTame, ClientsTame, QueuesTame;
    PlainSpends(n, n);
    if m.UpRekey? {
      if m.target in n.room.members {
        SendOneSpends(n, m.target, lost, Rekey(m.sealed));
      }
    } else {
      SendSpends(n, n.room.members - {x}, lost, Roster(m.roster));
      RosterShown(m.roster, |n.h.ids|);
    }
  }

  lemma RosterShown(r: SealedRoster, b: nat)
    ensures Times(b, DownCost(Roster(r), b)) == b
  {
  }

  lemma SpendsLess(n: Net, n': Net, a: nat, b: nat)
    requires Spends(n, n', a) && a <= b
    ensures Spends(n, n', b)
  {
    hide Tame, Load;
  }

  lemma OwnerChangeSpends(n: Net, x: Id, m: Up, list: seq<MemberInfo>, lost: set<Id>)
    requires Tame(n) && x in n.h.ids && (m.UpTransfer? || m.UpKick?) && Lists(list, Process(n, x, m, list, lost).room)
    ensures Spends(n, Process(n, x, m, list, lost), UpCost(m, |n.h.ids|) - 1)
  {
    hide DownsTame, ClientsTame, QueuesTame, Load, Send, Lists, ShowCost, Broadcast, Spends;
    PlainSpends(n, n);
    SpendsLess(n, n, 0, UpCost(m, |n.h.ids|) - 1);
    if n.room.open && n.room.owner == x && x in n.room.members && m.target in n.room.members {
      if m.UpTransfer? {
        JobsCosts(|n.h.ids|);
        JobsSpend(n, x, n.room.(owner := m.target), n.joining, n.handshakes, [SendPresence]);
      } else if m.target != n.room.owner {
        BroadcastKeepsRoom(n.(room := n.room.(members := n.room.members - {m.target}), down := Send(n.down, {m.target}, lost, RoomClosed)), list, lost);
        KickSpends(n, m.target, list, lost);
      }
    }
  }

  lemma BroadcastKeepsRoom(n: Net, list: seq<MemberInfo>, lost: set<Id>)
    ensures Broadcast(n, list, lost).room == n.room
  {
  }

  lemma ProcessSpends(n: Net, x: Id, m: Up, list: seq<MemberInfo>, lost: set<Id>)
    requires Tame(n) && x in n.h.ids && Lists(list, Process(n, x, m, list, lost).room)
    ensures Spends(n, Process(n, x, m, list, lost), UpCost(m, |n.h.ids|) - 1)
  {
    hide Tame, Spends, Lists, RelayHandshake, Enter, Leave, Send, Broadcast, ShowCost;
    match m
    case UpMemberKey(hs, pub) => RelaySpends(n, x, hs, lost, MemberKey(hs, pub));
    case UpKeyDeliver(hs, sealed) =>
      PlainSpends(n, n);
      SpendsLess(n, n, 0, UpCost(m, |n.h.ids|) - 1);
      RelaySpends(n, x, hs, lost, KeyDeliver(hs, sealed));
    case UpEnter(hs) => EnterSpends(n, x, hs, lost);
    case UpRekey(_, _) => OwnerFrameSpends(n, x, m, list, lost);
    case UpRoster(_) => OwnerFrameSpends(n, x, m, list, lost);
    case UpTransfer(_) => OwnerChangeSpends(n, x, m, list, lost);
    case UpKick(_) => OwnerChangeSpends(n, x, m, list, lost);
    case UpLeave => LeaveSpends(n, x, list, lost);
  }

  lemma PopTame(n: Net, x: Id)
    requires Tame(n) && x in n.up && n.up[x] != []
    ensures Tame(n.(up := n.up[x := n.up[x][1..]])) && x in n.h.ids
  {
    hide DownsTame, ClientsTame;
    assert Q(n.up, x) != [];
  }

  lemma JobTame(n: Net, x: Id)
    requires Tame(n) && x in n.agenda && n.agenda[x] != []
    ensures Tame(n.(agenda := n.agenda[x := n.agenda[x][1..]])) && x in n.h.ids
  {
    hide DownsTame, ClientsTame;
    assert Q(n.agenda, x) != [];
  }

  lemma ServeSpends(n: Net, x: Id, list: seq<MemberInfo>, lost: set<Id>)
    requires Tame(n) && (Q(n.agenda, x) != [] || Q(n.up, x) != []) && Lists(list, ServeStep(n, x, list, lost).room)
    ensures Tame(ServeStep(n, x, list, lost)) && ServeStep(n, x, list, lost).h == n.h && Load(ServeStep(n, x, list, lost)) < Load(n)
  {
    hide Lists, Process, Send, Broadcast, DownLoad, UpLoad, JobLoad, Tame;
    var v := n.h.ids;
    if Q(n.agenda, x) != [] {
      JobTame(n, x);
      JobTaken(v, n.agenda, x);
      AnnounceSpends(n, n.(agenda := n.agenda[x := n.agenda[x][1..]]), x, list, lost);
    } else {
      PopTame(n, x);
      UpTaken(v, n.up, x);
      CostsUp(n.up[x][0], |v|);
      ProcessSpends(n.(up := n.up[x := n.up[x][1..]]), x, n.up[x][0], list, lost);
      hide UpCost;
    }
  }

  lemma CostsUp(u: Up, b: nat)
    ensures UpCost(u, b) >= 1
  {
  }

  lemma AnnounceSpends(n: Net, n1: Net, x: Id, list: seq<MemberInfo>, lost: set<Id>)
    requires Tame(n1) && x in n.h.ids && Q(n.agenda, x) != [] && n1 == n.(agenda := n.agenda[x := n.agenda[x][1..]])
    requires Lists(list, ServeStep(n, x, list, lost).room)
    ensures Spends(n1, ServeStep(n, x, list, lost), JobCost(Q(n.agenda, x)[0], |n.h.ids|) - 1)
  {
    hide Lists, Process, Send, Load, DownsTame, ClientsTame, QueuesTame, ShowCost, Spends;
    BroadcastKeepsRoom(n1, list, lost);
    ListsTame(n.h.ids, list, n.room);
    if n.agenda[x][0] == SendWelcome {
      SendOneSpends(n1, x, lost, Welcome(x, list));
    } else {
      BroadcastSpends(n1, list, lost);
    }
    hide Broadcast;
  }

  // ----- tame runs

  lemma ShakeTame(n: Net, o: Id, j: Id, hs: HsId, ke: Ke)
    requires Tame(n) && o in n.clients
    ensures Tame(ShakeStep(n, o, j, hs, ke))
  {
    var v, v' := n.h.ids, n.h.ids + {j};
    SmallerSet(v, v');
    var n' := ShakeStep(n, o, j, hs, ke);
    forall y ensures QueueTame(v', y, Q(n'.down, y)) {
      assert QueueTame(v, y, Q(n.down, y));
    }
    forall x <- n'.clients ensures x in v' && ClientTame(v', n'.clients[x]) {
      assert x in n.clients ==> ClientTame(v, n.clients[x]);
    }
  }

  lemma AskTame(n: Net, who: Id, us: seq<Up>)
    requires Tame(n) && who in n.h.ids
    ensures Tame(n.(up := n.up[who := us])) && Tame(n.(clients := n.clients - {who}, up := n.up[who := us]))
  {
    hide DownsTame;
  }

  lemma StepTame(n: Net, s: Step)
    requires Tame(n) && Enabled(n, s)
    ensures Tame(Apply(n, s))
  {
    assert forall x <- n.clients :: x in n.h.ids;
    hide Tame, ShakeStep, ServeStep, DeliverStep, Lists, Load;
    match s
    case Shake(o, j, hs, ke) => ShakeTame(n, o, j, hs, ke);
    case AskTransfer(who, t) => AskTame(n, who, Q(n.up, who) + [UpTransfer(t)]);
    case AskKick(who, t) => AskTame(n, who, Q(n.up, who) + [UpKick(t)]);
    case AskLeave(who) => AskTame(n, who, Q(n.up, who) + [UpLeave]);
    case Cut(who) => AskTame(n, who, [UpLeave]);
    case Serve(conn, list, lost) => ServeSpends(n, conn, list, lost);
    case Deliver(x) => DeliverSpends(n, x);
  }

  lemma CreatedTame(o: Id, size: nat)
    ensures Tame(Created(o, size))
  {
    assert Ids([MemberInfo(o, true)]) == [o];
    SetOfSize([o]);
    assert forall k <- SetOf([o]) :: k in [o];
  }

  lemma {:induction false} RunTame(ns: seq<Net>, ss: seq<Step>, o: Id, size: nat, i: nat)
    requires Run(ns, ss) && ns[0] == Created(o, size) && i < |ns|
    ensures Tame(ns[i])
    decreases i
  {
    hide Tame, Apply, Created, Lists;
    if i == 0 {
      CreatedTame(o, size);
    } else {
      RunTame(ns, ss, o, size, i - 1);
      assert Enabled(ns[i - 1], ss[i - 1]) && ns[i - 1 + 1] == Apply(ns[i - 1], ss[i - 1]);
      StepTame(ns[i - 1], ss[i - 1]);
    }
  }

  lemma StepSpends(n: Net, s: Step)
    requires Tame(n) && Enabled(n, s) && (s.Serve? || s.Deliver?)
    ensures Load(Apply(n, s)) < Load(n)
  {
    hide Tame, ServeStep, DeliverStep, Lists, Load;
    if s.Serve? {
      ServeSpends(n, s.conn, s.list, s.lost);
    } else {
      DeliverSpends(n, s.to);
    }
  }

  /** In every run, from every state, with or without overlaps and losses: as long as
      nobody asks for another change, at most `Load` steps are left. */
  lemma {:induction false} FewStepsLeft(ns: seq<Net>, ss: seq<Step>, o: Id, size: nat, i: nat, j: nat)
    requires Run(ns, ss) && ns[0] == Created(o, size) && i <= j < |ns| && forall t :: i <= t < j ==> ss[t].Serve? || ss[t].Deliver?
    ensures j - i + Load(ns[j]) <= Load(ns[i])
    decreases j
  {
    hide Tame, Apply, Created, Load, Lists;
    if i < j {
      FewStepsLeft(ns, ss, o, size, i, j - 1);
      RunTame(ns, ss, o, size, j - 1);
      assert Enabled(ns[j - 1], ss[j - 1]) && ns[j - 1 + 1] == Apply(ns[j - 1], ss[j - 1]);
      StepSpends(ns[j - 1], ss[j - 1]);
    }
  }

  // ----- never stuck before everything is delivered

  ghost predicate AllDelivered(n: Net) {
    forall x :: Q(n.down, x) == [] && Q(n.up, x) == [] && Q(n.agenda, x) == []
  }

  lemma {:induction false} ListOf(members: set<Id>, room: Room) returns (list: seq<MemberInfo>)
    requires members <= room.members
    ensures forall i, j :: 0 <= i < j < |list| ==> list[i].id != list[j].id
    ensures forall i :: 0 <= i < |list| ==> list[i].id in members && list[i].owner == (list[i].id == room.owner)
    ensures forall x <- members :: exists i :: 0 <= i < |list| && list[i].id == x
    decreases members
  {
    list := [];
    if members != {} {
      var x :| x in members;
      var rest := ListOf(members - {x}, room);
      list := [MemberInfo(x, x == room.owner)] + rest;
      forall y <- members ensures exists i :: 0 <= i < |list| && list[i].id == y {
        if y == x {
          assert list[0].id == y;
        } else {
          assert y in members - {x};
          var i :| 0 <= i < |rest| && rest[i].id == y;
          assert list[i + 1].id == y;
        }
      }
    }
  }

  /** The room a step leads to does not depend on the order of the list it sends. */
  lemma RoomWithoutList(n: Net, x: Id, list: seq<MemberInfo>)
    requires Q(n.agenda, x) != [] || Q(n.up, x) != []
    ensures ServeStep(n, x, list, {}).room == ServeStep(n, x, [], {}).room
  {
    hide Send;
  }

  lemma BusyStep(n: Net) returns (s: Step)
    requires !AllDelivered(n)
    ensures Serial(n, s) && (s.Serve? || s.Deliver?)
  {
    var x :| Q(n.down, x) != [] || Q(n.up, x) != [] || Q(n.agenda, x) != [];
    if Q(n.down, x) != [] {
      s := Deliver(x);
    } else {
      var room := ServeStep(n, x, [], {}).room;
      var list := ListOf(room.members, room);
      RoomWithoutList(n, x, list);
      hide ServeStep;
      s := Serve(x, list, {});
    }
  }

  lemma SerialIsRun(ns: seq<Net>, ss: seq<Step>, o: Id, size: nat)
    requires SerialRun(ns, ss, o, size)
    ensures Run(ns, ss) && ns[0] == Created(o, size)
  {
    hide Enabled, Apply, Created;
  }

  lemma SerialSnoc(ns: seq<Net>, ss: seq<Step>, o: Id, size: nat, s: Step, n': Net)
    requires SerialRun(ns, ss, o, size) && Serial(ns[|ss|], s) && n' == Apply(ns[|ss|], s)
    ensures SerialRun(ns + [n'], ss + [s], o, size)
  {
    hide Apply, Created, Lists, Quiet;
  }

  /** `ss'` continues `ss` without another request. */
  predicate Continues(ss: seq<Step>, ss': seq<Step>) {
    ss <= ss' && forall t :: |ss| <= t < |ss'| ==> ss'[t].Serve? || ss'[t].Deliver?
  }

  lemma OneMore(ns: seq<Net>, ss: seq<Step>, o: Id, size: nat) returns (s: Step, n': Net)
    requires SerialRun(ns, ss, o, size) && !AllDelivered(ns[|ss|])
    ensures SerialRun(ns + [n'], ss + [s], o, size) && (s.Serve? || s.Deliver?) && Load(n') < Load(ns[|ss|])
  {
    SerialIsRun(ns, ss, o, size);
    RunTame(ns, ss, o, size, |ss|);
    s := BusyStep(ns[|ss|]);
    StepSpends(ns[|ss|], s);
    n' := Apply(ns[|ss|], s);
    SerialSnoc(ns, ss, o, size, s, n');
    hide Apply, Serial, AllDelivered, Tame, SerialRun, Load;
  }

  lemma MoreContinues(ss: seq<Step>, s: Step, ss': seq<Step>)
    requires (s.Serve? || s.Deliver?) && Continues(ss + [s], ss')
    ensures Continues(ss, ss')
  {
    assert ss'[|ss|] == (ss + [s])[|ss|];
  }

  lemma {:induction false} Settle(ns: seq<Net>, ss: seq<Step>, o: Id, size: nat) returns (ns': seq<Net>, ss': seq<Step>)
    requires SerialRun(ns, ss, o, size)
    ensures SerialRun(ns', ss', o, size) && ns <= ns' && Continues(ss, ss') && AllDelivered(ns'[|ss'|])
    decreases Load(ns[|ss|])
  {
    if AllDelivered(ns[|ss|]) {
      return ns, ss;
    }
    var s, n' := OneMore(ns, ss, o, size);
    hide Serial, Apply, AllDelivered, Load, Continues, Created;
    assert (ns + [n'])[|ss + [s]|] == n';
    ns', ss' := Settle(ns + [n'], ss + [s], o, size);
    MoreContinues(ss, s, ss');
  }

  /** Between changes nobody waits for a join that is not under way. */
  lemma DeliveredIsQuiet(n: Net, p: Phase)
    requires In(n, p) && n.room.open && AllDelivered(n)
    ensures Quiet(n)
  {
  }

  /** Every serialized run, from wherever it stands, comes to rest by serving and
      delivering alone; and if the room is still open, it is then agreed. */
  lemma ComesToRest(ns: seq<Net>, ss: seq<Step>, o: Id, size: nat) returns (ns': seq<Net>, ss': seq<Step>)
    requires SerialRun(ns, ss, o, size)
    ensures SerialRun(ns', ss', o, size) && ns <= ns' && Continues(ss, ss') && AllDelivered(ns'[|ss'|])
    ensures ns'[|ss'|].room.open ==> Quiet(ns'[|ss'|]) && Agreed(ns'[|ss'|])
  {
    ns', ss' := Settle(ns, ss, o, size);
    var n := ns'[|ss'|];
    if n.room.open {
      var p := RunPhase(ns', ss', o, size, |ss'|);
      DeliveredIsQuiet(n, p);
      A.RotationAgreement(ns', ss', o, size, |ss'|);
    }
    hide In, Agreed, Quiet, Continues;
  }
}
