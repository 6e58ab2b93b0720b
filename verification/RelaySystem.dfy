/**
The relay as a concurrent step system (server/internal/httpapi/server.go and
server/internal/relay). Every section that holds a lock is one step, so between
any two sections of one connection all other connections may run. A connection
is a program counter through `session`, `runOwner` or `runJoiner`,
`handshakeLoop`, `memberLoop` and the deferred cleanup. A `Close` in progress is
a thread of its own, because any connection, the janitor or a shutdown may run it.
*/
module RelaySystem {
  import opened Options

  type ConnId = nat
  type RoomId = nat
  type Sid = nat
  type Token = nat
  type HsId = nat

  datatype Room = Room(members: set<ConnId>, owner: Option<ConnId>, closed: bool, founder: ConnId)

  datatype Invite = Invite(room: RoomId, expires: int)

  datatype Handshake = Handshake(room: RoomId, joiner: ConnId, owner: ConnId)

  /** A `Close` past its locked section. */
  datatype Stage = Unregister | DropInvites | Drain

  datatype Closer = Closer(stage: Stage, todo: set<ConnId>, cleared: set<ConnId>)

  datatype Pc =
    | OwnerClaim | JoinerClaim
    | Create | FirstAdd(room: RoomId)
    | Redeem | Lookup(room: RoomId) | Capacity(room: RoomId) | FindOwner(room: RoomId)
    | OpenHs(room: RoomId, owner: ConnId) | HsLoop(room: RoomId, hs: HsId)
    | Entered(room: RoomId, hs: HsId) | NotEntered(hs: HsId)
    | Announce(room: RoomId) | Loop(room: RoomId)
    | InviteOk(room: RoomId) | TransferOk(room: RoomId, target: ConnId) | KickOk(room: RoomId, target: ConnId)
    | RekeyOk(room: RoomId, target: ConnId) | RosterOk(room: RoomId)
    | Kicked(room: RoomId, target: ConnId)
    | Leave(room: RoomId) | StartClose(room: RoomId) | Closing(room: RoomId)
    | Left | CloseOut | Waiting | DropHs | DropClaim | Ended

  /** One connection. `closes` counts how often its queue was closed, `home` is the
      room that admitted it, and `failed` says that a creator's own `Add` was refused. */
  datatype Conn = Conn(session: Option<Sid>, token: Token, founds: bool, pc: Pc,
                       closes: nat, home: Option<RoomId>, failed: bool)

  datatype World = World(
    maxSize: nat,
    ttl: int,
    now: int,
    rooms: set<RoomId>,
    obj: map<RoomId, Room>,
    sessions: map<Sid, ConnId>,
    invites: map<Token, Invite>,
    handshakes: map<HsId, Handshake>,
    conns: map<ConnId, Conn>,
    closers: map<RoomId, Closer>,
    // history
    usedHs: set<HsId>,
    minted: map<Token, Invite>,
    redeemed: map<Token, (ConnId, int)>,
    sentToClosed: bool)

  /** What a connection's thread meets next: a frame, a random id, a limiter's answer. */
  datatype Choice =
    | Go
    | Limited
    | Fresh(id: nat)
    | Say | Cast | WantInvite | WantTransfer(target: ConnId) | WantKick(target: ConnId) | WantRekey(target: ConnId) | WantRoster
    | AskEnter
    | Quit

  /** What a connection's first frame asks for. */
  datatype Hello = Creates | Redeems | Neither

  datatype Step =
    | Connect(c: ConnId, session: Option<Sid>, token: Token, hello: Hello)
    | Run(c: ConnId, choice: Choice)
    | Stop(room: RoomId)                  // janitor or shutdown: the locked section of Close
    | Close(room: RoomId, member: ConnId) // the rest of a Close
    | Gc
    | Tick

  // ----- pieces

  function At(w: World, c: ConnId, pc: Pc): World
    requires c in w.conns
  {
    w.(conns := w.conns[c := w.conns[c].(pc := pc)])
  }

  /** A room method sends to `to`. */
  function Sends(w: World, to: set<ConnId>): World {
    w.(sentToClosed := w.sentToClosed || exists x <- to :: x in w.conns && w.conns[x].closes > 0)
  }

  function CloseQueue(w: World, c: ConnId): World
    requires c in w.conns
  {
    w.(conns := w.conns[c := w.conns[c].(closes := w.conns[c].closes + 1)])
  }

  /** `TryClaimSession`: an empty session id claims nothing and is never refused. */
  function Claim(w: World, c: ConnId, next: Pc): World
    requires c in w.conns
  {
    var session := w.conns[c].session;
    var taken := session.Some? && session.value in w.sessions;
    w.(sessions := if session.Some? && !taken then w.sessions[session.value := c] else w.sessions,
       conns := w.conns[c := w.conns[c].(pc := if taken then CloseOut else next)])
  }

  /** `ClearSession`: compare and delete. */
  function ClearSession(w: World, c: ConnId): World
    requires c in w.conns
  {
    match w.conns[c].session
    case None => w
    case Some(s) => if s in w.sessions && w.sessions[s] == c then w.(sessions := w.sessions - {s}) else w
  }

  /** `ClearSessionByClient`: the first claim of `c` that the scan meets. */
  ghost function ClearByClient(w: World, c: ConnId): World {
    if s :| s in w.sessions && w.sessions[s] == c then w.(sessions := w.sessions - {s}) else w
  }

  /** `Room.Add`, which makes the first member the owner. */
  predicate Admits(w: World, r: RoomId) {
    r in w.obj && !w.obj[r].closed && |w.obj[r].members| < w.maxSize
  }

  function Add(w: World, r: RoomId, c: ConnId, next: Pc): World
    requires r in w.obj && c in w.conns
  {
    var o := w.obj[r];
    w.(obj := w.obj[r := o.(members := o.members + {c}, owner := if o.members == {} then Some(c) else o.owner)],
       conns := w.conns[c := w.conns[c].(pc := next, home := Some(r))])
  }

  predicate IsOwner(w: World, r: RoomId, c: ConnId) {
    r in w.obj && !w.obj[r].closed && w.obj[r].owner == Some(c) && c in w.obj[r].members
  }

  /** The locked section of `Close`; the caller goes on to `next`. */
  function MarkClosed(w: World, r: RoomId): World
    requires r in w.obj
  {
    if w.obj[r].closed then w
    else
      w.(obj := w.obj[r := w.obj[r].(members := {}, owner := None, closed := true)],
         closers := w.closers[r := Closer(Unregister, w.obj[r].members, {})])
  }

  /** `RemoveMember`: notice, close, presence to the rest. */
  function Kick(w: World, r: RoomId, t: ConnId): World
    requires r in w.obj && t in w.conns
  {
    var o := w.obj[r];
    var w1 := CloseQueue(Sends(w, {t}), t);
    Sends(w1.(obj := w.obj[r := o.(members := o.members - {t})]), o.members - {t})
  }

  /** The part of `Leave` for a member that is not the owner. */
  function Depart(w: World, r: RoomId, c: ConnId): World
    requires r in w.obj && c in w.conns
  {
    var o := w.obj[r];
    var w1 := CloseQueue(w, c);
    Sends(w1.(obj := w.obj[r := o.(members := o.members - {c})]), o.members - {c})
  }

  // ----- one connection's next step

  ghost predicate CanRun(w: World, c: ConnId, ch: Choice) {
    && c in w.conns
    && match w.conns[c].pc
       case Create => ch.Fresh? && ch.id !in w.obj
       case OpenHs(_, _) => ch.Fresh? && ch.id !in w.usedHs
       case InviteOk(_) => ch.Fresh? && ch.id !in w.minted
       case Closing(r) => r !in w.closers
       case Ended => false
       case _ => true
  }

  ghost function InLoop(w: World, c: ConnId, r: RoomId, ch: Choice): World
    requires c in w.conns
  {
    var inside := r in w.obj && !w.obj[r].closed;
    match ch
    case Say => if inside && c in w.obj[r].members then Sends(w, w.obj[r].members - {c}) else w
    case Cast => if inside then Sends(w, w.obj[r].members - {c}) else w
    case WantInvite => if IsOwner(w, r, c) then At(w, c, InviteOk(r)) else w
    case WantTransfer(t) => if IsOwner(w, r, c) then At(w, c, TransferOk(r, t)) else w
    case WantKick(t) => if IsOwner(w, r, c) then At(w, c, KickOk(r, t)) else w
    case WantRekey(t) => if IsOwner(w, r, c) then At(w, c, RekeyOk(r, t)) else w
    case WantRoster => if IsOwner(w, r, c) then At(w, c, RosterOk(r)) else w
    case Quit => At(w, c, Leave(r))
    case _ => w
  }

  ghost function Leaving(w: World, c: ConnId, r: RoomId): World
    requires c in w.conns
  {
    if r !in w.obj || w.obj[r].closed || c !in w.obj[r].members then At(w, c, Left)
    else if w.obj[r].owner == Some(c) then At(w, c, StartClose(r))
    else
      var w1 := Depart(w, r, c);
      At(w1, c, if w1.obj[r].members == {} then StartClose(r) else Left)
  }

  /** Up to a redeemed invite, or to the creator's own room. */
  ghost function Arriving(w: World, c: ConnId, ch: Choice): World
    requires CanRun(w, c, ch)
  {
    match w.conns[c].pc
    case OwnerClaim => if ch.Limited? then At(w, c, CloseOut) else Claim(w, c, Create)
    case JoinerClaim => if ch.Limited? then At(w, c, CloseOut) else Claim(w, c, Redeem)
    case Create =>
      At(w.(obj := w.obj[ch.id := Room({}, None, false, c)], rooms := w.rooms + {ch.id}), c, FirstAdd(ch.id))
    case FirstAdd(r) =>
      if Admits(w, r) then Add(w, r, c, Loop(r))
      else At(w.(conns := w.conns[c := w.conns[c].(failed := true)]), c, Loop(r))
    case Redeem => RedeemStep(w, c)
    case _ => w
  }

  /** `RedeemInvite`: the token is gone even when it turns out to be expired. */
  function RedeemStep(w: World, c: ConnId): World
    requires c in w.conns
  {
    var t := w.conns[c].token;
    var good := t in w.invites && w.now <= w.invites[t].expires;
    w.(invites := w.invites - {t},
       redeemed := if good then w.redeemed[t := (c, w.now)] else w.redeemed,
       conns := w.conns[c := w.conns[c].(pc := if good then Lookup(w.invites[t].room) else CloseOut)])
  }

  /** From a redeemed invite to the room, or to the refusal. */
  ghost function Shaking(w: World, c: ConnId, ch: Choice): World
    requires CanRun(w, c, ch)
  {
    match w.conns[c].pc
    case Lookup(r) => At(w, c, if r in w.rooms then Capacity(r) else CloseOut)
    case Capacity(r) => At(w, c, if Admits(w, r) then FindOwner(r) else CloseOut)
    case FindOwner(r) =>
      At(w, c, if r in w.obj && !w.obj[r].closed && w.obj[r].owner.Some? && w.obj[r].owner.value in w.obj[r].members
               then OpenHs(r, w.obj[r].owner.value) else CloseOut)
    case OpenHs(r, o) =>
      At(w.(handshakes := w.handshakes[ch.id := Handshake(r, c, o)], usedHs := w.usedHs + {ch.id}), c, HsLoop(r, ch.id))
    case HsLoop(r, h) =>
      if ch.AskEnter? && Admits(w, r) then Add(w, r, c, Entered(r, h))
      else At(w, c, if ch.AskEnter? || ch.Quit? then NotEntered(h) else HsLoop(r, h))
    case NotEntered(h) => At(w.(handshakes := w.handshakes - {h}), c, CloseOut)
    case CloseOut => At(CloseQueue(w, c), c, Waiting)
    case _ => w
  }

  /** A member's own steps while it is in its room. */
  ghost function Serving(w: World, c: ConnId, ch: Choice): World
    requires CanRun(w, c, ch)
  {
    match w.conns[c].pc
    case Entered(r, h) => At(w.(handshakes := w.handshakes - {h}), c, Announce(r))
    case Announce(r) =>
      At(if r in w.obj && !w.obj[r].closed then Sends(w, w.obj[r].members) else w, c, Loop(r))
    case Loop(r) => InLoop(w, c, r, ch)
    case InviteOk(r) =>
      var i := Invite(r, w.now + w.ttl);
      At(w.(invites := w.invites[ch.id := i], minted := w.minted[ch.id := i]), c, Loop(r))
    case TransferOk(r, t) =>
      if r in w.obj && !w.obj[r].closed && t in w.obj[r].members
      then At(w.(obj := w.obj[r := w.obj[r].(owner := Some(t))]), c, Announce(r)) else At(w, c, Loop(r))
    case KickOk(r, t) =>
      if r in w.obj && !w.obj[r].closed && t in w.obj[r].members && w.obj[r].owner != Some(t) && t in w.conns
      then At(Kick(w, r, t), c, Kicked(r, t)) else At(w, c, Loop(r))
    case Kicked(r, t) => At(ClearByClient(w, t), c, Loop(r))
    case RekeyOk(r, t) =>
      At(if r in w.obj && !w.obj[r].closed && t in w.obj[r].members then Sends(w, {t}) else w, c, Loop(r))
    case RosterOk(r) =>
      At(if r in w.obj && !w.obj[r].closed then Sends(w, w.obj[r].members - {c}) else w, c, Loop(r))
    case _ => w
  }

  /** `Leave`, `Close` as far as this thread runs it, and the deferred cleanup. */
  ghost function Ending(w: World, c: ConnId, ch: Choice): World
    requires CanRun(w, c, ch)
  {
    match w.conns[c].pc
    case Leave(r) => Leaving(w, c, r)
    case StartClose(r) =>
      if r !in w.obj || w.obj[r].closed then At(w, c, Left) else At(MarkClosed(w, r), c, Closing(r))
    case Closing(r) => At(w, c, Left)
    case Left => At(ClearSession(w, c), c, Waiting)
    case Waiting => At(w, c, DropHs)
    case DropHs =>
      At(w.(handshakes := map h | h in w.handshakes && w.handshakes[h].joiner != c && w.handshakes[h].owner != c :: w.handshakes[h]),
         c, DropClaim)
    case DropClaim => At(ClearSession(w, c), c, Ended)
    case _ => w
  }

  predicate IsArriving(pc: Pc) {
    pc.OwnerClaim? || pc.JoinerClaim? || pc.Create? || pc.FirstAdd? || pc.Redeem?
  }

  predicate IsJoining(pc: Pc) {
    match pc
    case OwnerClaim => true
    case JoinerClaim => true
    case Create => true
    case FirstAdd(_) => true
    case Redeem => true
    case Lookup(_) => true
    case Capacity(_) => true
    case FindOwner(_) => true
    case OpenHs(_, _) => true
    case HsLoop(_, _) => true
    case NotEntered(_) => true
    case CloseOut => true
    case _ => false
  }

  /** In its room, as far as this thread knows: the room whose member it may be. */
  function Inside(pc: Pc): Option<RoomId> {
    match pc
    case Entered(r, _) => Some(r)
    case Announce(r) => Some(r)
    case Loop(r) => Some(r)
    case InviteOk(r) => Some(r)
    case TransferOk(r, _) => Some(r)
    case KickOk(r, _) => Some(r)
    case RekeyOk(r, _) => Some(r)
    case RosterOk(r) => Some(r)
    case Kicked(r, _) => Some(r)
    case Leave(r) => Some(r)
    case StartClose(r) => Some(r)
    case _ => None
  }

  ghost function RunStep(w: World, c: ConnId, ch: Choice): World
    requires CanRun(w, c, ch)
  {
    var pc := w.conns[c].pc;
    if IsArriving(pc) then Arriving(w, c, ch)
    else if IsJoining(pc) then Shaking(w, c, ch)
    else if Inside(pc).Some? && !pc.Leave? && !pc.StartClose? then Serving(w, c, ch)
    else Ending(w, c, ch)
  }

  // ----- the rest of a Close

  ghost predicate CanClose(w: World, r: RoomId, x: ConnId) {
    && r in w.closers
    && (w.closers[r].stage == Drain && w.closers[r].todo != {} ==> x in w.closers[r].todo && x in w.conns)
  }

  ghost function CloseStep(w: World, r: RoomId, x: ConnId): World
    requires CanClose(w, r, x)
  {
    var k := w.closers[r];
    match k.stage
    case Unregister => w.(rooms := w.rooms - {r}, closers := w.closers[r := k.(stage := DropInvites)])
    case DropInvites =>
      w.(invites := map t | t in w.invites && w.invites[t].room != r :: w.invites[t],
         closers := w.closers[r := k.(stage := Drain)])
    case Drain =>
      if k.todo == {} then w.(closers := w.closers - {r})
      else if x !in k.cleared then
        ClearByClient(w, x).(closers := w.closers[r := k.(cleared := k.cleared + {x})])
      else
        CloseQueue(Sends(w, {x}), x).(closers := w.closers[r := k.(todo := k.todo - {x})])
  }

  // ----- steps

  ghost predicate Enabled(w: World, s: Step) {
    match s
    case Connect(c, _, _, _) => c !in w.conns
    case Run(c, ch) => CanRun(w, c, ch)
    case Stop(r) => r in w.obj
    case Close(r, x) => CanClose(w, r, x)
    case Gc => true
    case Tick => true
  }

  ghost function Apply(w: World, s: Step): World
    requires Enabled(w, s)
  {
    match s
    case Connect(c, session, token, hello) =>
      w.(conns := w.conns[c := Conn(session, token, hello.Creates?, FirstPc(hello), 0, None, false)])
    case Run(c, ch) => RunStep(w, c, ch)
    case Stop(r) => MarkClosed(w, r)
    case Close(r, x) => CloseStep(w, r, x)
    case Gc => w.(invites := map t | t in w.invites && w.now <= w.invites[t].expires :: w.invites[t])
    case Tick => w.(now := w.now + 1)
  }

  /** A hello that is neither is answered with an error, and the queue is closed. */
  function FirstPc(hello: Hello): Pc {
    match hello
    case Creates => OwnerClaim
    case Redeems => JoinerClaim
    case Neither => CloseOut
  }

  function Start(maxSize: nat, ttl: int): World {
    World(maxSize, ttl, 0, {}, map[], map[], map[], map[], map[], map[], {}, map[], map[], false)
  }

  ghost predicate Runs(ws: seq<World>, ss: seq<Step>, maxSize: nat, ttl: int) {
    && |ws| == |ss| + 1 && ws[0] == Start(maxSize, ttl)
    && forall i :: 0 <= i < |ss| ==> Enabled(ws[i], ss[i]) && ws[i + 1] == Apply(ws[i], ss[i])
  }
}
