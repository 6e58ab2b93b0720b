/**
Why rotation agreement is stated for changes that do not overlap: a run, without a
lost frame, in which two joins overlap and the room ends quiet, open and disagreed.
The owner handles both joiners' public keys before the first enters; the presence of
the first then makes it forget the second, which enters with a key nobody uses.
*/
module RotationOverlap {
  import opened Options
  import opened RotationClient
  import opened RotationNet
  import opened RotationAgreement

  // ----- a network of the owner 0 and two joiners, seen queue by queue

  datatype Person = Person(client: Option<Client>, down: seq<Down>, up: seq<Up>, agenda: seq<Job>)

  datatype Snap = Snap(members: set<Id>, p0: Person, p1: Person, p2: Person,
                       handshakes: map<HsId, Handshake>, joining: map<Id, HsId>, next: Key)

  function Who(s: Snap, x: Id): Person {
    if x == 0 then s.p0 else if x == 1 then s.p1 else if x == 2 then s.p2 else Person(None, [], [], [])
  }

  function Put(s: Snap, x: Id, p: Person): Snap {
    if x == 0 then s.(p0 := p) else if x == 1 then s.(p1 := p) else s.(p2 := p)
  }

  function Got(p: Person, yes: bool, m: Down): Person {
    if yes then p.(down := p.down + [m]) else p
  }

  function Sent(s: Snap, to: set<Id>, m: Down): Snap {
    s.(p0 := Got(s.p0, 0 in to, m), p1 := Got(s.p1, 1 in to, m), p2 := Got(s.p2, 2 in to, m))
  }

  predicate ShowsOne(n: Net, p: Person, x: Id) {
    && (x in n.clients <==> p.client.Some?)
    && (x in n.clients ==> n.clients[x] == p.client.value)
    && Q(n.down, x) == p.down && Q(n.up, x) == p.up && Q(n.agenda, x) == p.agenda
  }

  ghost predicate ShowsAll(n: Net, s: Snap) {
    forall x {:trigger ShowsOne(n, Who(s, x), x)} :: ShowsOne(n, Who(s, x), x)
  }

  predicate ShowsRest(n: Net, s: Snap) {
    && n.maxSize == 3 && n.room == Room(s.members, 0, true)
    && n.handshakes == s.handshakes && n.joining == s.joining && n.h.nextKey == s.next
  }

  ghost predicate Shows(n: Net, s: Snap) {
    ShowsRest(n, s) && ShowsAll(n, s)
  }

  lemma WhoPut(s: Snap, x: Id, p: Person, y: Id)
    requires x < 3
    ensures Who(Put(s, x, p), y) == if y == x then p else Who(s, y)
  {
  }

  lemma WhoSent(s: Snap, to: set<Id>, m: Down, y: Id)
    requires to <= {0, 1, 2}
    ensures Who(Sent(s, to, m), y) == Got(Who(s, y), y in to, m)
  {
  }

  // ----- steps, as they show

  function Delivered(s: Snap, x: Id, c: Client, sent: seq<Up>, made: bool): Snap
    requires Who(s, x).down != []
  {
    var p := Who(s, x);
    Put(s.(next := if made then s.next + 1 else s.next), x, p.(client := Some(c), down := p.down[1..], up := p.up + sent))
  }

  predicate Does(s: Snap, x: Id, c: Client, sent: seq<Up>, made: bool) {
    var p := Who(s, x);
    p.client.Some? && p.down != [] && Handle(p.client.value, p.down[0], s.next) == Live(c, sent, made)
  }

  lemma DeliverShows(n: Net, s: Snap, x: Id, c: Client, sent: seq<Up>, made: bool)
    requires Shows(n, s) && x < 3 && Does(s, x, c, sent, made)
    ensures Enabled(n, Deliver(x)) && Shows(DeliverStep(n, x), Delivered(s, x, c, sent, made))
  {
    hide Handle;
    assert ShowsOne(n, Who(s, x), x);
    DeliverLive(n, x, c, sent, made);
    var n', s' := DeliverStep(n, x), Delivered(s, x, c, sent, made);
    var p := Who(s, x).(client := Some(c), down := Who(s, x).down[1..], up := Who(s, x).up + sent);
    var k := if made then s.next + 1 else s.next;
    assert ShowsRest(n', s');
    hide DeliverStep, ShowsRest;
    forall y ensures ShowsOne(n', Who(s', y), y) {
      assert ShowsOne(n, Who(s, y), y);
      WhoPut(s.(next := k), x, p, y);
      assert Who(s.(next := k), y) == Who(s, y);
      hide Who, Put;
    }
  }

  function Popped(s: Snap, x: Id): Snap
    requires Who(s, x).up != []
  {
    Put(s, x, Who(s, x).(up := Who(s, x).up[1..]))
  }

  /** Whom the relay passes the next frame of `x` on to, and as what. */
  predicate PassedOn(s: Snap, x: Id, u: Up, to: set<Id>, m: Down) {
    var owns := x == 0 && 0 in s.members;
    match u
    case UpMemberKey(hs, pub) => hs in s.handshakes && m == MemberKey(hs, pub) && Facing(s.handshakes[hs], x, to)
    case UpKeyDeliver(hs, sealed) => x !in s.joining && hs in s.handshakes && m == KeyDeliver(hs, sealed) && Facing(s.handshakes[hs], x, to)
    case UpRekey(target, sealed) => owns && m == Rekey(sealed) && target in s.members && to == {target}
    case UpRoster(roster) => owns && m == Roster(roster) && to == s.members - {x}
    case _ => false
  }

  predicate Facing(h: Handshake, x: Id, to: set<Id>) {
    if h.joiner == x then to == {h.owner} else h.owner == x && to == {h.joiner}
  }

  lemma SendShows(n: Net, s: Snap, to: set<Id>, m: Down)
    requires Shows(n, s) && to <= {0, 1, 2}
    ensures Shows(n.(down := Send(n.down, to, {}, m)), Sent(s, to, m))
  {
    var n', s' := n.(down := Send(n.down, to, {}, m)), Sent(s, to, m);
    forall y ensures ShowsOne(n', Who(s', y), y) {
      assert ShowsOne(n, Who(s, y), y);
      WhoSent(s, to, m, y);
      hide Who, Sent, Send;
    }
  }

  lemma PopShows(n: Net, s: Snap, x: Id)
    requires Shows(n, s) && x < 3 && Who(s, x).up != []
    ensures x in n.up && n.up[x] == Who(s, x).up && Q(n.agenda, x) == Who(s, x).agenda
    ensures Shows(n.(up := n.up[x := n.up[x][1..]]), Popped(s, x))
  {
    assert ShowsOne(n, Who(s, x), x);
    var n', s' := n.(up := n.up[x := n.up[x][1..]]), Popped(s, x);
    forall y ensures ShowsOne(n', Who(s', y), y) {
      assert ShowsOne(n, Who(s, y), y);
      WhoPut(s, x, Who(s, x).(up := Who(s, x).up[1..]), y);
      hide Who, Put;
    }
  }

  lemma ProcessPasses(n: Net, s: Snap, x: Id, u: Up, list: seq<MemberInfo>, to: set<Id>, m: Down)
    requires Shows(n, s) && PassedOn(s, x, u, to, m)
    ensures Process(n, x, u, list, {}) == n.(down := Send(n.down, to, {}, m))
  {
    hide Send, ShowsAll;
  }

  ghost predicate ListsThem(list: seq<MemberInfo>, members: set<Id>) {
    Lists(list, Room(members, 0, true))
  }

  lemma ServeShows(n: Net, s: Snap, x: Id, list: seq<MemberInfo>, to: set<Id>, m: Down)
    requires Shows(n, s) && x < 3 && Who(s, x).up != [] && Who(s, x).agenda == []
    requires PassedOn(Popped(s, x), x, Who(s, x).up[0], to, m) && to <= {0, 1, 2} && ListsThem(list, s.members)
    ensures Enabled(n, Serve(x, list, {})) && Shows(ServeStep(n, x, list, {}), Sent(Popped(s, x), to, m))
  {
    PopShows(n, s, x);
    var n1 := n.(up := n.up[x := n.up[x][1..]]);
    ProcessPasses(n1, Popped(s, x), x, n.up[x][0], list, to, m);
    SendShows(n1, Popped(s, x), to, m);
    hide Process, Sent, PassedOn, Lists, Who, ShowsAll, Put;
  }

  /** A rekey for someone who has not entered is dropped. */
  lemma ServeDrops(n: Net, s: Snap, x: Id, list: seq<MemberInfo>)
    requires Shows(n, s) && x < 3 && Who(s, x).up != [] && Who(s, x).agenda == []
    requires Who(s, x).up[0].UpRekey? && Who(s, x).up[0].target !in s.members && ListsThem(list, s.members)
    ensures Enabled(n, Serve(x, list, {})) && Shows(ServeStep(n, x, list, {}), Popped(s, x))
  {
    PopShows(n, s, x);
    hide Lists, Who, ShowsAll, Put;
  }

  function Joined(s: Snap, x: Id, hs: HsId): Snap
    requires Who(s, x).up != []
  {
    Put(s.(members := s.members + {x}, joining := s.joining - {x}, handshakes := s.handshakes - {hs}), x,
        Who(s, x).(up := Who(s, x).up[1..], agenda := [SendWelcome, SendPresence]))
  }

  lemma ServeEnters(n: Net, s: Snap, x: Id, hs: HsId, list: seq<MemberInfo>)
    requires Shows(n, s) && x < 3 && Who(s, x).up != [] && Who(s, x).agenda == []
    requires Who(s, x).up[0] == UpEnter(hs) && x in s.joining && s.joining[x] == hs
    requires 0 < |s.members| < 3 && s.members != {} && ListsThem(list, s.members + {x})
    ensures Enabled(n, Serve(x, list, {})) && Shows(ServeStep(n, x, list, {}), Joined(s, x, hs))
  {
    PopShows(n, s, x);
    assert ShowsOne(n, Who(s, x), x);
    var n', s' := ServeStep(n, x, list, {}), Joined(s, x, hs);
    var s1 := s.(members := s.members + {x}, joining := s.joining - {x}, handshakes := s.handshakes - {hs});
    var p := Who(s, x).(up := Who(s, x).up[1..], agenda := [SendWelcome, SendPresence]);
    assert n'.room == Room(s.members + {x}, 0, true);
    hide Lists;
    forall y ensures ShowsOne(n', Who(s', y), y) {
      assert ShowsOne(n, Who(s, y), y);
      WhoPut(s1, x, p, y);
      assert Who(s1, y) == Who(s, y);
      hide Who, Put;
    }
  }

  /** What the agenda of `x` says next is sent. */
  function Announced(s: Snap, x: Id, list: seq<MemberInfo>): Snap
    requires Who(s, x).agenda != []
  {
    var s1 := Put(s, x, Who(s, x).(agenda := Who(s, x).agenda[1..]));
    if Who(s, x).agenda[0] == SendWelcome then Sent(s1, {x}, Welcome(x, list)) else Sent(s1, s.members, Presence(list))
  }

  lemma AgendaShows(n: Net, s: Snap, x: Id)
    requires Shows(n, s) && x < 3 && Who(s, x).agenda != []
    ensures x in n.agenda && n.agenda[x] == Who(s, x).agenda
    ensures Shows(n.(agenda := n.agenda[x := n.agenda[x][1..]]), Put(s, x, Who(s, x).(agenda := Who(s, x).agenda[1..])))
  {
    assert ShowsOne(n, Who(s, x), x);
    var p := Who(s, x).(agenda := Who(s, x).agenda[1..]);
    var n', s' := n.(agenda := n.agenda[x := n.agenda[x][1..]]), Put(s, x, p);
    forall y ensures ShowsOne(n', Who(s', y), y) {
      assert ShowsOne(n, Who(s, y), y);
      WhoPut(s, x, p, y);
      hide Who, Put;
    }
  }

  lemma ServeAnnounces(n: Net, s: Snap, x: Id, list: seq<MemberInfo>)
    requires Shows(n, s) && x < 3 && Who(s, x).agenda != [] && s.members <= {0, 1, 2} && ListsThem(list, s.members)
    ensures Enabled(n, Serve(x, list, {})) && Shows(ServeStep(n, x, list, {}), Announced(s, x, list))
  {
    AgendaShows(n, s, x);
    var n1, s1 := n.(agenda := n.agenda[x := n.agenda[x][1..]]), Put(s, x, Who(s, x).(agenda := Who(s, x).agenda[1..]));
    hide Who, Put, Process, Lists;
    if n.agenda[x][0] == SendWelcome {
      SendShows(n1, s1, {x}, Welcome(x, list));
    } else {
      SendShows(n1, s1, s.members, Presence(list));
    }
    hide Sent, Send, ShowsAll;
  }

  // ----- states that a run without losses reaches

  predicate Lossless(ss: seq<Step>) {
    forall s <- ss :: !s.Cut? && (s.Serve? ==> s.lost == {})
  }

  ghost predicate RunTo(ns: seq<Net>, ss: seq<Step>, s: Snap) {
    Run(ns, ss) && Lossless(ss) && ns[0] == Created(0, 3) && Shows(ns[|ss|], s)
  }

  ghost predicate Reached(s: Snap) {
    exists ns, ss :: RunTo(ns, ss, s)
  }

  lemma Extend(ns: seq<Net>, ss: seq<Step>, s: Snap, t: Step, s': Snap)
    requires RunTo(ns, ss, s) && Enabled(ns[|ss|], t) && !t.Cut? && (t.Serve? ==> t.lost == {}) && Shows(Apply(ns[|ss|], t), s')
    ensures Reached(s')
  {
    var n' := Apply(ns[|ss|], t);
    RunSnoc(ns, ss, t, n');
    hide Enabled, Apply, Shows, Created, Run;
    var ns', ss' := ns + [n'], ss + [t];
    assert ns'[|ss'|] == n' && ns'[0] == ns[0] by { hide Lossless; RunStarts(ns, ss); }
    assert RunTo(ns', ss', s');
  }

  lemma RunStarts(ns: seq<Net>, ss: seq<Step>)
    requires Run(ns, ss)
    ensures |ns| == |ss| + 1
  {
  }

  lemma RunSnoc(ns: seq<Net>, ss: seq<Step>, t: Step, n': Net)
    requires Run(ns, ss) && Enabled(ns[|ss|], t) && n' == Apply(ns[|ss|], t)
    ensures Run(ns + [n'], ss + [t])
  {
    hide Enabled, Apply;
  }

  lemma Hears(s: Snap, x: Id, c: Client, sent: seq<Up>, made: bool, s': Snap)
    requires Reached(s) && x < 3 && Does(s, x, c, sent, made) && s' == Delivered(s, x, c, sent, made)
    ensures Reached(s')
  {
    hide Does, Delivered, Shows, DeliverStep;
    var ns, ss :| RunTo(ns, ss, s);
    DeliverShows(ns[|ss|], s, x, c, sent, made);
    Extend(ns, ss, s, Deliver(x), s');
  }

  lemma Passes(s: Snap, x: Id, list: seq<MemberInfo>, to: set<Id>, m: Down, s': Snap)
    requires Reached(s) && x < 3 && Who(s, x).up != [] && Who(s, x).agenda == [] && s' == Sent(Popped(s, x), to, m)
    requires PassedOn(Popped(s, x), x, Who(s, x).up[0], to, m) && to <= {0, 1, 2} && ListsThem(list, s.members)
    ensures Reached(s')
  {
    hide PassedOn, Sent, Popped, Shows, ServeStep;
    var ns, ss :| RunTo(ns, ss, s);
    ServeShows(ns[|ss|], s, x, list, to, m);
    Extend(ns, ss, s, Serve(x, list, {}), s');
  }

  lemma Drops(s: Snap, x: Id, list: seq<MemberInfo>, s': Snap)
    requires Reached(s) && x < 3 && Who(s, x).up != [] && Who(s, x).agenda == [] && s' == Popped(s, x)
    requires Who(s, x).up[0].UpRekey? && Who(s, x).up[0].target !in s.members && ListsThem(list, s.members)
    ensures Reached(s')
  {
    hide Popped, Shows, ServeStep;
    var ns, ss :| RunTo(ns, ss, s);
    ServeDrops(ns[|ss|], s, x, list);
    Extend(ns, ss, s, Serve(x, list, {}), s');
  }

  lemma Enters(s: Snap, x: Id, hs: HsId, list: seq<MemberInfo>, s': Snap)
    requires Reached(s) && x < 3 && Who(s, x).up != [] && Who(s, x).agenda == [] && s' == Joined(s, x, hs)
    requires Who(s, x).up[0] == UpEnter(hs) && x in s.joining && s.joining[x] == hs
    requires 0 < |s.members| < 3 && s.members != {} && ListsThem(list, s.members + {x})
    ensures Reached(s')
  {
    hide Joined, Shows, ServeStep;
    var ns, ss :| RunTo(ns, ss, s);
    ServeEnters(ns[|ss|], s, x, hs, list);
    Extend(ns, ss, s, Serve(x, list, {}), s');
  }

  lemma Announces(s: Snap, x: Id, list: seq<MemberInfo>, s': Snap)
    requires Reached(s) && x < 3 && Who(s, x).agenda != [] && s.members <= {0, 1, 2} && ListsThem(list, s.members)
    requires s' == Announced(s, x, list)
    ensures Reached(s')
  {
    hide Announced, Shows, ServeStep;
    var ns, ss :| RunTo(ns, ss, s);
    ServeAnnounces(ns[|ss|], s, x, list);
    Extend(ns, ss, s, Serve(x, list, {}), s');
  }

  // ----- the clients on the way

  function Owner(keys: seq<Key>, pubs: map<Id, Pub>, known: seq<Id>, hss: seq<HsEntry>): Client {
    Client(0, true, Some(0), true, keys, pubs, known, None, hss)
  }

  function Entry(j: Id): HsEntry {
    HsEntry(10 + j, Some(j), Some(100 + j), None)
  }

  function Waiting(j: Id, first: Option<Pub>): Client {
    NewClient(j).(firstOwnerPub := first, handshakes := [HsEntry(10 + j, None, Some(100 + j), None)])
  }

  function Holding(j: Id, k: Key): Client {
    NewClient(j).(firstOwnerPub := Some(Pub(0)), keys := [k])
  }

  function Member(j: Id, keys: seq<Key>, pubs: map<Id, Pub>): Client {
    Client(j, true, Some(0), false, keys, pubs, [], Some(Pub(0)), [])
  }

  function Still(c: Client): Person {
    Person(Some(c), [], [], [])
  }

  function Roll(n: nat): seq<MemberInfo> {
    [MemberInfo(0, true)] + (if n > 0 then [MemberInfo(1, false)] else []) + (if n > 1 then [MemberInfo(2, false)] else [])
  }

  function Upto(n: nat): set<Id> {
    if n == 0 then {0} else if n == 1 then {0, 1} else {0, 1, 2}
  }

  lemma RollLists(n: nat)
    requires n < 3
    ensures ListsThem(Roll(n), Upto(n)) && SetOf(Ids(Roll(n))) == if n == 0 then [0] else if n == 1 then [0, 1] else [0, 1, 2]
    ensures OwnerIdOf(Roll(n)) == Some(0)
  {
    var r := Roll(n);
    assert Ids(r) == if n == 0 then [0] else if n == 1 then [0, 1] else [0, 1, 2] by { RollIds(n); }
    SetOfThree();
    forall x <- Upto(n) ensures exists i :: 0 <= i < |r| && r[i].id == x {
      assert r[x].id == x;
    }
  }

  lemma RollIds(n: nat)
    requires n < 3
    ensures Ids(Roll(n)) == if n == 0 then [0] else if n == 1 then [0, 1] else [0, 1, 2]
  {
    var a, b, c := MemberInfo(0, true), MemberInfo(1, false), MemberInfo(2, false);
    assert [a, b, c][1..] == [b, c] && [b, c][1..] == [c] && [a, b][1..] == [b] && [a][1..] == [] && [b][1..] == [] && [c][1..] == [];
    assert Ids([c]) == [2] && Ids([b]) == [1] && Ids([b, c]) == [1, 2];
  }

  lemma SetOfThree()
    ensures SetOf([0]) == [0] && SetOf([0, 1]) == [0, 1] && SetOf([0, 1, 2]) == [0, 1, 2]
  {
    var e: seq<Id> := [];
    assert SetOf(e) == e && [0][..0] == e && [0, 1][..1] == [0] && [0, 1, 2][..2] == [0, 1];
    assert SetOf([0]) == SetAdd(SetOf(e), 0) == [0];
  }

  // ----- the run

  const Handshakes := map[11 := Handshake(1, 0), 12 := Handshake(2, 0)]

  function MkUp(j: Id, of: Id): Up {
    UpMemberKey(10 + j, SealedPub(100 + j, Pub(of)))
  }

  function MkDown(j: Id, of: Id): Down {
    MemberKey(10 + j, SealedPub(100 + j, Pub(of)))
  }

  /** Both handshakes have confirmed, and every public key is on its way. */
  function Shaken(): Snap {
    Snap({0}, Person(Some(Owner([0], map[], [0], [Entry(1), Entry(2)])), [], [MkUp(1, 0), MkUp(2, 0)], []),
         Person(Some(Waiting(1, None)), [], [MkUp(1, 1)], []), Person(Some(Waiting(2, None)), [], [MkUp(2, 2)], []),
         Handshakes, map[1 := 11, 2 := 12], 1)
  }

  /** A handshake of the owner and `j` confirms. */
  function WithHandshake(s: Snap, j: Id, owner: Client): Snap {
    var p0 := s.p0.(client := Some(owner.(handshakes := owner.handshakes + [Entry(j)])), up := s.p0.up + [MkUp(j, 0)]);
    var p := Person(Some(Waiting(j, None)), [], [MkUp(j, j)], []);
    Put(s.(p0 := p0, handshakes := s.handshakes[10 + j := Handshake(j, 0)], joining := s.joining[j := 10 + j]), j, p)
  }

  lemma ShakeShows(n: Net, s: Snap, j: Id, owner: Client)
    requires Shows(n, s) && 0 < j < 3 && s.p0.client == Some(owner) && Who(s, j) == Person(None, [], [], [])
    ensures 0 in n.clients && n.clients[0] == owner && Shows(ShakeStep(n, 0, j, 10 + j, 100 + j), WithHandshake(s, j, owner))
  {
    assert ShowsOne(n, Who(s, 0), 0) && ShowsOne(n, Who(s, j), j);
    var n', s' := ShakeStep(n, 0, j, 10 + j, 100 + j), WithHandshake(s, j, owner);
    forall y ensures ShowsOne(n', Who(s', y), y) {
      assert ShowsOne(n, Who(s, y), y);
    }
  }

  lemma CreatedShows()
    ensures Shows(Created(0, 3), Snap({0}, Person(Some(Owner([0], map[], [0], [])), [], [], []), Person(None, [], [], []), Person(None, [], [], []), map[], map[], 1))
  {
    RollLists(0);
    var n := Created(0, 3);
    assert Roll(0) == [MemberInfo(0, true)];
    assert n.clients == map[0 := Owner([0], map[], [0], [])];
  }

  lemma ShakesEnabled()
    ensures
      var n0 := Created(0, 3);
      Enabled(n0, Shake(0, 1, 11, 101)) && Enabled(ShakeStep(n0, 0, 1, 11, 101), Shake(0, 2, 12, 102))
  {
  }

  lemma TwoSteps(n0: Net, s: Step, n1: Net, t: Step, n2: Net, z: Snap)
    requires n0 == Created(0, 3) && Enabled(n0, s) && s.Shake? && n1 == Apply(n0, s) && Enabled(n1, t) && t.Shake? && n2 == Apply(n1, t)
    requires Shows(n2, z)
    ensures Reached(z)
  {
    hide Enabled, Apply, Shows, Created;
    assert RunTo([n0, n1, n2], [s, t], z);
  }

  lemma ShakenReached()
    ensures Reached(Shaken())
  {
    var none := Person(None, [], [], []);
    var o := Owner([0], map[], [0], []);
    var o1 := o.(handshakes := [Entry(1)]);
    assert o.handshakes + [Entry(1)] == [Entry(1)];
    var s0 := Snap({0}, Person(Some(o), [], [], []), none, none, map[], map[], 1);
    var n0 := Created(0, 3);
    var n1 := ShakeStep(n0, 0, 1, 11, 101);
    hide Shows, ShakeStep, Created, Reached;
    CreatedShows();
    ShakeShows(n0, s0, 1, o);
    ShakeShows(n1, WithHandshake(s0, 1, o), 2, o1);
    ShakesEnabled();
    WithBoth(s0, o, o1);
    TwoSteps(n0, Shake(0, 1, 11, 101), n1, Shake(0, 2, 12, 102), ShakeStep(n1, 0, 2, 12, 102), Shaken());
  }

  lemma WithBoth(s0: Snap, o: Client, o1: Client)
    requires o == Owner([0], map[], [0], []) && o1 == o.(handshakes := [Entry(1)])
    requires s0 == Snap({0}, Person(Some(o), [], [], []), Person(None, [], [], []), Person(None, [], [], []), map[], map[], 1)
    ensures WithHandshake(WithHandshake(s0, 1, o), 2, o1) == Shaken()
  {
    assert [Entry(1)] + [Entry(2)] == [Entry(1), Entry(2)];
    assert o.handshakes + [Entry(1)] == [Entry(1)];
    assert map[11 := Handshake(1, 0)][12 := Handshake(2, 0)] == Handshakes;
    assert map[1 := 11][2 := 12] == map[1 := 11, 2 := 12];
  }

  /** The owner is about to handle both joiners' public keys. */
  function KeysMeet(): Snap {
    Snap({0}, Person(Some(Owner([0], map[], [0], [Entry(1), Entry(2)])), [MkDown(1, 1), MkDown(2, 2)], [], []),
         Still(Waiting(1, Some(Pub(0)))), Still(Waiting(2, Some(Pub(0)))), Handshakes, map[1 := 11, 2 := 12], 1)
  }

  lemma OwnKeysArrive() returns (s: Snap)
    ensures s == Shaken().(p0 := Shaken().p0.(up := []), p1 := Shaken().p1.(down := [MkDown(1, 0)]), p2 := Shaken().p2.(down := [MkDown(2, 0)]))
    ensures Reached(s)
  {
    ShakenReached();
    RollLists(0);
    hide Reached, ListsThem, Roll;
    var s0 := Shaken();
    var s1 := s0.(p0 := s0.p0.(up := [MkUp(2, 0)]), p1 := s0.p1.(down := [MkDown(1, 0)]));
    Passes(s0, 0, Roll(0), {1}, MkDown(1, 0), s1);
    s := s1.(p0 := s1.p0.(up := []), p2 := s1.p2.(down := [MkDown(2, 0)]));
    Passes(s1, 0, Roll(0), {2}, MkDown(2, 0), s);
  }

  lemma TheirKeysArrive() returns (s: Snap)
    ensures s == KeysMeet().(p1 := Person(Some(Waiting(1, None)), [MkDown(1, 0)], [], []), p2 := Person(Some(Waiting(2, None)), [MkDown(2, 0)], [], []))
    ensures Reached(s)
  {
    var s2 := OwnKeysArrive();
    RollLists(0);
    hide Reached, ListsThem, Roll;
    var s3 := s2.(p1 := s2.p1.(up := []), p0 := s2.p0.(down := [MkDown(1, 1)]));
    Passes(s2, 1, Roll(0), {0}, MkDown(1, 1), s3);
    s := s3.(p2 := s3.p2.(up := []), p0 := s3.p0.(down := [MkDown(1, 1), MkDown(2, 2)]));
    Passes(s3, 2, Roll(0), {0}, MkDown(2, 2), s);
  }

  lemma KeysMeetReached()
    ensures Reached(KeysMeet())
  {
    var s4 := TheirKeysArrive();
    hide Reached;
    var s5 := s4.(p1 := Still(Waiting(1, Some(Pub(0)))));
    Hears(s4, 1, Waiting(1, Some(Pub(0))), [], false, s5);
    Hears(s5, 2, Waiting(2, Some(Pub(0))), [], false, KeysMeet());
  }

  // ----- the owner rotates for both; the rekey for the first is too early

  function Key(j: Id, k: nat): SealedKey {
    SealKey(0, Pub(j), k)
  }

  function Rotated(up: seq<Up>): Snap {
    KeysMeet().(p0 := Person(Some(Owner([2, 1, 0], map[1 := Pub(1), 2 := Pub(2)], [0, 1, 2], [])), [], up, []), next := 3)
  }

  lemma FirstRotation()
    ensures OnMemberKey(Owner([0], map[], [0], [Entry(1), Entry(2)]), 11, SealedPub(101, Pub(1)), 1)
         == Live(Owner([1, 0], map[1 := Pub(1)], [0, 1], [Entry(2)]), [UpKeyDeliver(11, Key(1, 1))], true)
  {
    assert [Entry(1), Entry(2)][1..] == [Entry(2)] && [Entry(2)][1..] == [];
    assert DeleteHs([Entry(2)], 11) == [Entry(2)];
    var c := Owner([1, 0], map[1 := Pub(1)], [0], [Entry(1), Entry(2)]);
    assert [0][..0] == [];
    assert Rekeys(c, [0], {0, 1}, 1) == [];
    assert map[][1 := Pub(1)] == map[1 := Pub(1)];
  }

  lemma SecondRotation()
    ensures OnMemberKey(Owner([1, 0], map[1 := Pub(1)], [0, 1], [Entry(2)]), 12, SealedPub(102, Pub(2)), 2)
         == Live(Owner([2, 1, 0], map[1 := Pub(1), 2 := Pub(2)], [0, 1, 2], []), [UpKeyDeliver(12, Key(2, 2)), UpRekey(1, Key(1, 2))], true)
  {
    assert [Entry(2)][1..] == [];
    assert DeleteHs([Entry(2)], 12) == [];
    var c := Owner([2, 1, 0], map[1 := Pub(1), 2 := Pub(2)], [0, 1], [Entry(2)]);
    assert [0, 1][..1] == [0] && [0][..0] == [];
    assert Rekeys(c, [0], {0, 2}, 2) == [];
    assert Rekeys(c, [0, 1], {0, 2}, 2) == [UpRekey(1, Key(1, 2))];
    assert map[1 := Pub(1)][2 := Pub(2)] == map[1 := Pub(1), 2 := Pub(2)];
  }

  lemma RotatedReached()
    ensures Reached(Rotated([UpKeyDeliver(11, Key(1, 1)), UpKeyDeliver(12, Key(2, 2)), UpRekey(1, Key(1, 2))]))
  {
    KeysMeetReached();
    FirstRotation();
    SecondRotation();
    hide Reached, OnMemberKey;
    var s0 := KeysMeet();
    var c := Owner([1, 0], map[1 := Pub(1)], [0, 1], [Entry(2)]);
    var s1 := s0.(p0 := Person(Some(c), [MkDown(2, 2)], [UpKeyDeliver(11, Key(1, 1))], []), next := 2);
    Hears(s0, 0, c, [UpKeyDeliver(11, Key(1, 1))], true, s1);
    var up := [UpKeyDeliver(12, Key(2, 2)), UpRekey(1, Key(1, 2))];
    assert [UpKeyDeliver(11, Key(1, 1))] + up == [UpKeyDeliver(11, Key(1, 1)), UpKeyDeliver(12, Key(2, 2)), UpRekey(1, Key(1, 2))];
    Hears(s1, 0, Owner([2, 1, 0], map[1 := Pub(1), 2 := Pub(2)], [0, 1, 2], []), up, true, Rotated([UpKeyDeliver(11, Key(1, 1))] + up));
  }

  /** Both keys are delivered, and the rekey for the first joiner is dropped. */
  function Sealed(): Snap {
    Rotated([]).(p1 := Person(Some(Waiting(1, Some(Pub(0)))), [KeyDeliver(11, Key(1, 1))], [], []),
                 p2 := Person(Some(Waiting(2, Some(Pub(0)))), [KeyDeliver(12, Key(2, 2))], [], []))
  }

  lemma SealedReached()
    ensures Reached(Sealed())
  {
    RotatedReached();
    RollLists(0);
    hide Reached, ListsThem, Roll;
    var s0 := Rotated([UpKeyDeliver(11, Key(1, 1)), UpKeyDeliver(12, Key(2, 2)), UpRekey(1, Key(1, 2))]);
    var s1 := Rotated([UpKeyDeliver(12, Key(2, 2)), UpRekey(1, Key(1, 2))]).(p1 := Sealed().p1);
    Passes(s0, 0, Roll(0), {1}, KeyDeliver(11, Key(1, 1)), s1);
    var s2 := Rotated([UpRekey(1, Key(1, 2))]).(p1 := Sealed().p1, p2 := Sealed().p2);
    Passes(s1, 0, Roll(0), {2}, KeyDeliver(12, Key(2, 2)), s2);
    Drops(s2, 0, Roll(0), Sealed());
  }

  // ----- the first joiner enters, and its presence makes the owner forget the second

  lemma KeyOpens(j: Id, k: nat)
    requires 0 < j < 3
    ensures OnKeyDeliver(Waiting(j, Some(Pub(0))), 10 + j, Key(j, k)) == Live(Holding(j, k), [UpEnter(10 + j)], false)
  {
    var hss := Waiting(j, Some(Pub(0))).handshakes;
    assert hss[1..] == [] && DeleteHs(hss, 10 + j) == [];
    assert {0, j} == {j, 0};
  }

  lemma WelcomeIs(j: Id, k: nat, n: nat)
    requires 0 < j < 3 && n < 3
    ensures OnWelcome(Holding(j, k), j, Roll(n)) == Member(j, [k], map[0 := Pub(0)])
  {
    RollLists(n);
    assert map[][0 := Pub(0)] == map[0 := Pub(0)];
  }

  lemma PresenceIgnored(j: Id, keys: seq<Key>, pubs: map<Id, Pub>, n: nat, next: nat)
    requires 0 < j < 3 && n < 3
    ensures OnPresence(Member(j, keys, pubs), Roll(n), next) == Live(Member(j, keys, pubs), [], false)
  {
    RollLists(n);
  }

  function Forgetting(down: seq<Down>, d1: seq<Down>, a1: seq<Job>): Snap {
    Snap({0, 1}, Sealed().p0.(down := down), Person(Some(Holding(1, 1)), d1, [], a1), Sealed().p2, map[12 := Handshake(2, 0)], map[2 := 12], 3)
  }

  lemma FirstJoined(s: Snap)
    requires s == Sealed().(p1 := Person(Some(Holding(1, 1)), [], [UpEnter(11)], []))
    ensures Joined(s, 1, 11) == Forgetting([], [], [SendWelcome, SendPresence])
    ensures s.members + {1} == {0, 1} && 1 in s.joining && s.joining[1] == 11 && |s.members| == 1
  {
    assert {0} + {1} == {0, 1} && s.joining - {1} == map[2 := 12] && s.handshakes - {11} == map[12 := Handshake(2, 0)];
  }

  lemma FirstEnters()
    ensures Reached(Forgetting([], [], [SendWelcome, SendPresence]))
  {
    SealedReached();
    KeyOpens(1, 1);
    RollLists(1);
    hide Reached, ListsThem, Roll, OnKeyDeliver, Joined;
    var s0 := Sealed();
    var s1 := s0.(p1 := Person(Some(Holding(1, 1)), [], [UpEnter(11)], []));
    Hears(s0, 1, Holding(1, 1), [UpEnter(11)], false, s1);
    FirstJoined(s1);
    Enters(s1, 1, 11, Roll(1), Forgetting([], [], [SendWelcome, SendPresence]));
  }

  lemma FirstIsAnnounced()
    ensures Reached(Forgetting([Presence(Roll(1))], [Welcome(1, Roll(1)), Presence(Roll(1))], []))
  {
    FirstEnters();
    RollLists(1);
    hide Reached, ListsThem, Roll;
    var s0 := Forgetting([], [], [SendWelcome, SendPresence]);
    var s1 := Forgetting([], [Welcome(1, Roll(1))], [SendPresence]);
    Announces(s0, 1, Roll(1), s1);
    Announces(s1, 1, Roll(1), Forgetting([Presence(Roll(1))], [Welcome(1, Roll(1)), Presence(Roll(1))], []));
  }

  const Both := map[0 := Pub(0), 1 := Pub(1)]

  lemma MissingSecond()
    ensures Missing([0, 1, 2], [0, 1]) == [2] && Missing([0, 1], [0, 1, 2]) == []
  {
    assert [0, 1, 2][1..] == [1, 2] && [1, 2][1..] == [2] && [2][1..] == [] && [0, 1][1..] == [1] && [1][1..] == [];
    assert Missing([2], [0, 1]) == [2] && Missing([1, 2], [0, 1]) == [2];
    assert Missing([1], [0, 1, 2]) == [];
  }

  lemma RekeysFirst(c: Client)
    requires c == Owner([3, 2, 1, 0], map[1 := Pub(1)], [0, 1], [])
    ensures Rekeys(c, [0, 1], {0}, 3) == [UpRekey(1, Key(1, 3))]
  {
    assert [0, 1][..1] == [0] && [0][..0] == [];
    assert Rekeys(c, [0], {0}, 3) == [];
  }

  /** `onPresence` of an owner that stays owner. */
  lemma OwnerHears(c: Client, list: seq<MemberInfo>, current: seq<Id>, removed: seq<Id>, next: nat)
    requires c.isOwner && c.owner == Some(c.id) == OwnerIdOf(list) && SetOf(Ids(list)) == current && Missing(c.known, current) == removed
    ensures removed == [] ==>
              OnPresence(c, list, next) == Live(c.(known := current), BroadcastRoster(c.(known := current)), false)
    ensures removed != [] ==>
              var c2 := c.(known := current, pubs := c.pubs - SetFrom(removed), keys := PushKey(c.keys, next));
              OnPresence(c, list, next) == Live(c2, Rekeys(c2, current, {c2.id}, next) + BroadcastRoster(c2), true)
  {
  }

  lemma RosterIs(c: Client)
    requires c.isOwner && c.id == 0 && c.keys == [3, 2, 1, 0] && c.pubs == map[1 := Pub(1)]
    ensures BroadcastRoster(c) == [UpRoster(SealedRoster(3, Both))]
  {
    assert map[0 := Pub(0)] + map[1 := Pub(1)] == Both;
  }

  lemma SecondIsDropped()
    ensures map[1 := Pub(1), 2 := Pub(2)] - SetFrom([2]) == map[1 := Pub(1)] && PushKey([2, 1, 0], 3) == [3, 2, 1, 0]
  {
  }

  /** The owner drops the second joiner's public key and rotates again. */
  lemma OwnerForgets()
    ensures OnPresence(Owner([2, 1, 0], map[1 := Pub(1), 2 := Pub(2)], [0, 1, 2], []), Roll(1), 3)
         == Live(Owner([3, 2, 1, 0], map[1 := Pub(1)], [0, 1], []), [UpRekey(1, Key(1, 3)), UpRoster(SealedRoster(3, Both))], true)
  {
    hide OnPresence, Missing, Rekeys, SetOf, Ids, Roll, ListsThem, OwnerIdOf, SetFrom, BroadcastRoster, PushKey, SealKey;
    RollLists(1);
    MissingSecond();
    SecondIsDropped();
    var b, c := Owner([2, 1, 0], map[1 := Pub(1), 2 := Pub(2)], [0, 1, 2], []), Owner([3, 2, 1, 0], map[1 := Pub(1)], [0, 1], []);
    assert b.(known := [0, 1], pubs := b.pubs - SetFrom([2]), keys := PushKey(b.keys, 3)) == c;
    RekeysFirst(c);
    RosterIs(c);
    assert [UpRekey(1, Key(1, 3))] + [UpRoster(SealedRoster(3, Both))] == [UpRekey(1, Key(1, 3)), UpRoster(SealedRoster(3, Both))];
    OwnerHears(b, Roll(1), [0, 1], [2], 3);
  }

  function Forgot(up: seq<Up>, p1: Person): Snap {
    Snap({0, 1}, Person(Some(Owner([3, 2, 1, 0], map[1 := Pub(1)], [0, 1], [])), [], up, []), p1, Sealed().p2, map[12 := Handshake(2, 0)], map[2 := 12], 4)
  }

  lemma OwnerRotatesAgain() returns (s: Snap)
    ensures Reached(s)
    ensures s == Forgot([UpRekey(1, Key(1, 3)), UpRoster(SealedRoster(3, Both))], Person(Some(Holding(1, 1)), [Welcome(1, Roll(1)), Presence(Roll(1))], [], []))
  {
    FirstIsAnnounced();
    OwnerForgets();
    hide Reached, Roll, OnPresence, SealKey;
    var s0 := Forgetting([Presence(Roll(1))], [Welcome(1, Roll(1)), Presence(Roll(1))], []);
    s := Forgot([UpRekey(1, Key(1, 3)), UpRoster(SealedRoster(3, Both))], s0.p1);
    Hears(s0, 0, s.p0.client.value, s.p0.up, true, s);
  }

  lemma FirstIsRekeyed() returns (s: Snap)
    ensures Reached(s)
    ensures s == Forgot([UpRoster(SealedRoster(3, Both))], Person(Some(Holding(1, 1)), [Welcome(1, Roll(1)), Presence(Roll(1)), Rekey(Key(1, 3))], [], []))
  {
    var s1 := OwnerRotatesAgain();
    RollLists(1);
    hide Reached, ListsThem, Roll, SealKey;
    s := Forgot([UpRoster(SealedRoster(3, Both))], s1.p1.(down := [Welcome(1, Roll(1)), Presence(Roll(1)), Rekey(Key(1, 3))]));
    Passes(s1, 0, Roll(1), {1}, Rekey(Key(1, 3)), s);
  }

  lemma ForgotReached()
    ensures Reached(Forgot([], Person(Some(Holding(1, 1)), [Welcome(1, Roll(1)), Presence(Roll(1)), Rekey(Key(1, 3)), Roster(SealedRoster(3, Both))], [], [])))
  {
    var s2 := FirstIsRekeyed();
    RollLists(1);
    hide Reached, ListsThem, Roll, SealKey;
    assert {0, 1} - {0} == {1};
    Passes(s2, 0, Roll(1), {1}, Roster(SealedRoster(3, Both)),
           Forgot([], s2.p1.(down := [Welcome(1, Roll(1)), Presence(Roll(1)), Rekey(Key(1, 3)), Roster(SealedRoster(3, Both))])));
  }

  lemma FirstIsWelcomed() returns (s: Snap)
    ensures Reached(s) && s == Forgot([], Person(Some(Member(1, [1], map[0 := Pub(0)])), [Rekey(Key(1, 3)), Roster(SealedRoster(3, Both))], [], []))
  {
    ForgotReached();
    WelcomeIs(1, 1, 1);
    PresenceIgnored(1, [1], map[0 := Pub(0)], 1, 4);
    hide Reached, Roll, OnPresence, OnWelcome;
    var tail := [Rekey(Key(1, 3)), Roster(SealedRoster(3, Both))];
    var s0 := Forgot([], Person(Some(Holding(1, 1)), [Welcome(1, Roll(1)), Presence(Roll(1)), Rekey(Key(1, 3)), Roster(SealedRoster(3, Both))], [], []));
    var c := Member(1, [1], map[0 := Pub(0)]);
    var s1 := Forgot([], Person(Some(c), [Presence(Roll(1))] + tail, [], []));
    Hears(s0, 1, c, [], false, s1);
    s := Forgot([], Person(Some(c), tail, [], []));
    Hears(s1, 1, c, [], false, s);
  }

  lemma FirstSettles() returns (s: Snap)
    ensures Reached(s) && s == Forgot([], Still(Member(1, [3, 1], Both)))
  {
    var s2 := FirstIsWelcomed();
    FirstOpens();
    hide Reached, OnRekey, ApplyRoster;
    var s3 := Forgot([], Person(Some(Member(1, [3, 1], map[0 := Pub(0)])), [Roster(SealedRoster(3, Both))], [], []));
    Hears(s2, 1, Member(1, [3, 1], map[0 := Pub(0)]), [], false, s3);
    s := Forgot([], Still(Member(1, [3, 1], Both)));
    Hears(s3, 1, Member(1, [3, 1], Both), [], false, s);
  }

  lemma FirstOpens()
    ensures OnRekey(Member(1, [1], map[0 := Pub(0)]), Key(1, 3)) == Member(1, [3, 1], map[0 := Pub(0)])
    ensures ApplyRoster(Member(1, [3, 1], map[0 := Pub(0)]), SealedRoster(3, Both)) == Member(1, [3, 1], Both)
    ensures ApplyRoster(Member(1, [3, 1], Both), SealedRoster(3, Both)) == Member(1, [3, 1], Both)
    ensures ApplyRoster(Member(2, [2], map[0 := Pub(0)]), SealedRoster(3, Both)) == Member(2, [2], map[0 := Pub(0)])
  {
    assert {0, 1} == {1, 0};
    assert map[0 := Pub(0)] + Both == Both && Both + Both == Both;
    assert [2][1..] == [] && DecryptAny([2], SealedRoster(3, Both)) == None;
  }

  // ----- the second joiner enters with a key that nobody uses

  function Last(keys: seq<Id>, down0: seq<Down>, up0: seq<Up>, d1: seq<Down>, p2: Person): Snap {
    Snap({0, 1, 2}, Person(Some(Owner([3, 2, 1, 0], map[1 := Pub(1)], keys, [])), down0, up0, []),
         Person(Some(Member(1, [3, 1], Both)), d1, [], []), p2, map[], map[], 4)
  }

  lemma SecondJoined(s: Snap)
    requires s == Forgot([], Still(Member(1, [3, 1], Both))).(p2 := Person(Some(Holding(2, 2)), [], [UpEnter(12)], []))
    ensures Joined(s, 2, 12) == Last([0, 1], [], [], [], Person(Some(Holding(2, 2)), [], [], [SendWelcome, SendPresence]))
    ensures s.members + {2} == {0, 1, 2} && 2 in s.joining && s.joining[2] == 12 && |s.members| == 2
  {
    assert {0, 1} + {2} == {0, 1, 2} && s.joining - {2} == map[] && s.handshakes - {12} == map[];
    assert |{0, 1}| == 2;
  }

  lemma SecondOpens() returns (s: Snap)
    ensures Reached(s) && s == Forgot([], Still(Member(1, [3, 1], Both))).(p2 := Person(Some(Holding(2, 2)), [], [UpEnter(12)], []))
  {
    var s0 := FirstSettles();
    KeyOpens(2, 2);
    hide Reached, OnKeyDeliver, SealKey, Holding;
    s := s0.(p2 := Person(Some(Holding(2, 2)), [], [UpEnter(12)], []));
    Hears(s0, 2, Holding(2, 2), [UpEnter(12)], false, s);
  }

  lemma SecondEnters()
    ensures Reached(Last([0, 1], [], [], [], Person(Some(Holding(2, 2)), [], [], [SendWelcome, SendPresence])))
  {
    var s1 := SecondOpens();
    RollLists(2);
    SecondJoined(s1);
    hide Reached, ListsThem, Roll, Joined, Holding;
    Enters(s1, 2, 12, Roll(2), Last([0, 1], [], [], [], Person(Some(Holding(2, 2)), [], [], [SendWelcome, SendPresence])));
  }

  lemma SecondIsAnnounced()
    ensures Reached(Last([0, 1], [Presence(Roll(2))], [], [Presence(Roll(2))], Person(Some(Holding(2, 2)), [Welcome(2, Roll(2)), Presence(Roll(2))], [], [])))
  {
    SecondEnters();
    RollLists(2);
    hide Reached, ListsThem, Roll;
    var s0 := Last([0, 1], [], [], [], Person(Some(Holding(2, 2)), [], [], [SendWelcome, SendPresence]));
    var s1 := Last([0, 1], [], [], [], Person(Some(Holding(2, 2)), [Welcome(2, Roll(2))], [], [SendPresence]));
    Announces(s0, 2, Roll(2), s1);
    Announces(s1, 2, Roll(2), Last([0, 1], [Presence(Roll(2))], [], [Presence(Roll(2))], Person(Some(Holding(2, 2)), [Welcome(2, Roll(2)), Presence(Roll(2))], [], [])));
  }

  lemma OwnerSeesNobodyGone()
    ensures OnPresence(Owner([3, 2, 1, 0], map[1 := Pub(1)], [0, 1], []), Roll(2), 4)
         == Live(Owner([3, 2, 1, 0], map[1 := Pub(1)], [0, 1, 2], []), [UpRoster(SealedRoster(3, Both))], false)
  {
    RollLists(2);
    MissingSecond();
    RosterIs(Owner([3, 2, 1, 0], map[1 := Pub(1)], [0, 1, 2], []));
    hide Missing, SetOf, Ids, Roll, ListsThem, OwnerIdOf, OnPresence, BroadcastRoster;
    OwnerHears(Owner([3, 2, 1, 0], map[1 := Pub(1)], [0, 1], []), Roll(2), [0, 1, 2], [], 4);
  }

  lemma OwnerShares() returns (s: Snap)
    ensures Reached(s)
    ensures s == Last([0, 1, 2], [], [UpRoster(SealedRoster(3, Both))], [Presence(Roll(2))],
                      Person(Some(Holding(2, 2)), [Welcome(2, Roll(2)), Presence(Roll(2))], [], []))
  {
    SecondIsAnnounced();
    OwnerSeesNobodyGone();
    hide Reached, Roll, OnPresence;
    var p := Person(Some(Holding(2, 2)), [Welcome(2, Roll(2)), Presence(Roll(2))], [], []);
    var s0 := Last([0, 1], [Presence(Roll(2))], [], [Presence(Roll(2))], p);
    s := Last([0, 1, 2], [], [UpRoster(SealedRoster(3, Both))], [Presence(Roll(2))], p);
    Hears(s0, 0, s.p0.client.value, s.p0.up, false, s);
  }

  lemma LastRoster() returns (s: Snap)
    ensures Reached(s)
    ensures s == Last([0, 1, 2], [], [], [Presence(Roll(2)), Roster(SealedRoster(3, Both))],
                      Person(Some(Holding(2, 2)), [Welcome(2, Roll(2)), Presence(Roll(2)), Roster(SealedRoster(3, Both))], [], []))
  {
    var s1 := OwnerShares();
    RollLists(2);
    hide Reached, ListsThem, Roll;
    assert {0, 1, 2} - {0} == {1, 2};
    s := Last([0, 1, 2], [], [], [Presence(Roll(2)), Roster(SealedRoster(3, Both))],
              Person(Some(Holding(2, 2)), [Welcome(2, Roll(2)), Presence(Roll(2)), Roster(SealedRoster(3, Both))], [], []));
    Passes(s1, 0, Roll(2), {1, 2}, Roster(SealedRoster(3, Both)), s);
  }

  lemma FirstCatchesUp() returns (s: Snap)
    ensures Reached(s)
    ensures s == Last([0, 1, 2], [], [], [], Person(Some(Holding(2, 2)), [Welcome(2, Roll(2)), Presence(Roll(2)), Roster(SealedRoster(3, Both))], [], []))
  {
    var s0 := LastRoster();
    PresenceIgnored(1, [3, 1], Both, 2, 4);
    FirstOpens();
    hide Reached, Roll, OnPresence, ApplyRoster;
    var s1 := s0.(p1 := s0.p1.(down := [Roster(SealedRoster(3, Both))]));
    Hears(s0, 1, Member(1, [3, 1], Both), [], false, s1);
    s := s1.(p1 := s1.p1.(down := []));
    Hears(s1, 1, Member(1, [3, 1], Both), [], false, s);
  }

  /** Everything is delivered: the second joiner is a member with a key of its own. */
  function Disagreed(): Snap {
    Last([0, 1, 2], [], [], [], Still(Member(2, [2], map[0 := Pub(0)])))
  }

  lemma DisagreedReached()
    ensures Reached(Disagreed())
  {
    var s0 := FirstCatchesUp();
    WelcomeIs(2, 2, 2);
    PresenceIgnored(2, [2], map[0 := Pub(0)], 2, 4);
    FirstOpens();
    hide Reached, Roll, OnPresence, ApplyRoster, OnWelcome;
    var c := Member(2, [2], map[0 := Pub(0)]);
    var r := Roster(SealedRoster(3, Both));
    var s1 := s0.(p2 := Person(Some(c), [Presence(Roll(2)), r], [], []));
    Hears(s0, 2, c, [], false, s1);
    var s2 := s0.(p2 := Person(Some(c), [r], [], []));
    Hears(s1, 2, c, [], false, s2);
    Hears(s2, 2, c, [], false, Disagreed());
  }

  /** Two overlapping joins, no frame lost, everything delivered: the room is quiet and
      open, the last joiner is a member, and yet it shares no newest key with the owner,
      which does not have its public key and so will never send it another one. */
  lemma OverlapDisagrees() returns (ns: seq<Net>, ss: seq<Step>)
    ensures Run(ns, ss) && Lossless(ss) && ns[0] == Created(0, 3)
    ensures
      var n := ns[|ss|];
      && Quiet(n) && n.room == Room({0, 1, 2}, 0, true) && !Agreed(n)
      && 0 in n.clients && 2 in n.clients && n.clients[0].keys == [3, 2, 1, 0] && n.clients[2].keys == [2]
      && 2 !in n.clients[0].pubs
  {
    DisagreedReached();
    ns, ss :| RunTo(ns, ss, Disagreed());
    var n := ns[|ss|];
    hide Run, Created, Lossless;
    DisagreedIs(n);
  }

  lemma DisagreedIs(n: Net)
    requires Shows(n, Disagreed())
    ensures Quiet(n) && n.room == Room({0, 1, 2}, 0, true) && !Agreed(n)
    ensures 0 in n.clients && 2 in n.clients && n.clients[0].keys == [3, 2, 1, 0] && n.clients[2].keys == [2] && 2 !in n.clients[0].pubs
  {
    forall x ensures Q(n.down, x) == [] && Q(n.up, x) == [] && Q(n.agenda, x) == [] {
      assert ShowsOne(n, Who(Disagreed(), x), x);
    }
    assert ShowsOne(n, Who(Disagreed(), 0), 0) && ShowsOne(n, Who(Disagreed(), 2), 2);
  }
}
