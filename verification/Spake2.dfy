/**
SPAKE2 as web/src/spake2.ts runs it (sections 3.3 and 4 of RFC 9382). The prime-order
group is the integers modulo its order; point encoding, hash, key derivation and MAC
are functions passed in. As in the curve library the program uses, the identity has
no encoding: turning it into bytes throws, and so does decoding it.
*/
module Spake2 {
  import opened Options
  import opened Bytes

  // ----- the group

  predicate Prime(q: nat) {
    q >= 2 && forall d :: 1 < d < q ==> q % d != 0
  }

  /** `base` generates; `seedM` and `seedN` are the fixed seeds of the two roles. */
  datatype Group = Group(q: nat, base: nat, seedM: nat, seedN: nat, encode: nat -> Bytes, decode: Bytes -> Option<nat>)

  const SCALAR_BYTES := 32

  ghost predicate GroupOk(g: Group) {
    && Prime(g.q) && g.q <= Pow256(SCALAR_BYTES)
    && 0 < g.base < g.q && 0 < g.seedM < g.q && 0 < g.seedN < g.q
    && (forall p :: 0 < p < g.q ==> g.decode(g.encode(p)) == Some(p))
    && (forall b :: g.decode(b).Some? ==> 0 < g.decode(b).value < g.q)
  }

  function PlainPoint(q: nat, b: Bytes): Option<nat> {
    if 0 < FromBE(b) < q then Some(FromBE(b)) else None
  }

  /** Every prime order of at most 32 bytes has such a group, with plain numbers for points. */
  lemma GroupExists(q: nat)
    requires Prime(q) && q <= Pow256(SCALAR_BYTES)
    ensures exists g :: GroupOk(g) && g.q == q
  {
    assert q >= 2;
    forall p | 0 < p < q ensures PlainPoint(q, ToBE(p, SCALAR_BYTES)) == Some(p) {
      FromToBE(p, SCALAR_BYTES);
    }
    hide Prime, Pow256, ToBE, FromBE;
    var g := Group(q, 1, 1, 1, p => ToBE(p, SCALAR_BYTES), b => PlainPoint(q, b));
    assert GroupOk(g);
  }

  function Add(g: Group, a: int, b: int): nat
    requires g.q > 0
  {
    (a + b) % g.q
  }

  function Subtract(g: Group, a: int, b: int): nat
    requires g.q > 0
  {
    (a - b) % g.q
  }

  /** The library's `multiply`, which takes scalars from one up to the order. */
  function Multiply(g: Group, p: int, k: int): nat
    requires 0 < k < g.q
  {
    (p * k) % g.q
  }

  function Mul(g: Group, p: int, k: int): nat
    requires 0 <= k < g.q
  {
    if k == 0 then 0 else Multiply(g, p, k)
  }

  function ToBytes(g: Group, p: nat): Option<Bytes> {
    if p == 0 then None else Some(g.encode(p))
  }

  // ----- the protocol

  datatype Role = A | B

  datatype State = State(role: Role, scalar: nat, w: nat, own: Bytes, idA: Bytes, idB: Bytes, aad: Bytes)

  /** Hash, key derivation with an empty salt, and MAC. */
  datatype Suite = Suite(hash: Bytes -> Bytes, hkdf: (Bytes, Bytes, nat) -> Bytes, mac: (Bytes, Bytes) -> Bytes)

  datatype Result = Result(ke: Bytes, confirm: Bytes, expectedPeer: Bytes, transcript: Bytes,
                           ka: Bytes, kcA: Bytes, kcB: Bytes, cA: Bytes, cB: Bytes)

  predicate StateOk(g: Group, s: State) {
    0 < s.scalar < g.q && s.w < g.q
  }

  function Seed(g: Group, r: Role): nat {
    if r == A then g.seedM else g.seedN
  }

  function Other(r: Role): Role {
    if r == A then B else A
  }

  /** The first flow; the state's `own` is the message to send. */
  function Start(g: Group, role: Role, w: nat, idA: Bytes, idB: Bytes, aad: Bytes, scalar: nat): Option<State>
    requires 0 < scalar < g.q && w < g.q
  {
    var p := Add(g, Mul(g, Seed(g, role), w), Multiply(g, g.base, scalar));
    match ToBytes(g, p)
    case None => None
    case Some(own) => Some(State(role, scalar, w, own, idA, idB, aad))
  }

  function Shared(g: Group, s: State, peer: nat): nat
    requires StateOk(g, s)
  {
    Multiply(g, Subtract(g, peer, Mul(g, Seed(g, Other(s.role)), s.w)), s.scalar)
  }

  function Transcript(idA: Bytes, idB: Bytes, pA: Bytes, pB: Bytes, k: Bytes, w: nat): Bytes {
    Flatten([LV(idA), LV(idB), LV(pA), LV(pB), LV(k), LV(ToBE(w, SCALAR_BYTES))])
  }

  function Slice(b: Bytes, i: nat, j: nat): Bytes
    requires i <= j
  {
    if |b| <= i then [] else if |b| < j then b[i..] else b[i..j]
  }

  function Ascii(s: string): Bytes
    requires forall i :: 0 <= i < |s| ==> s[i] < 128 as char
  {
    seq<byte>(|s|, i requires 0 <= i < |s| && s[i] < 128 as char => s[i] as byte)
  }

  function Keys(su: Suite, role: Role, aad: Bytes, tt: Bytes): Result {
    var h := su.hash(tt);
    var ka := Slice(h, 16, 32);
    var kc := su.hkdf(ka, Ascii("ConfirmationKeys") + aad, 32);
    var kcA, kcB := Slice(kc, 0, 16), Slice(kc, 16, 32);
    var cA, cB := su.mac(kcA, tt), su.mac(kcB, tt);
    Result(Slice(h, 0, 16), if role == A then cA else cB, if role == A then cB else cA, tt, ka, kcA, kcB, cA, cB)
  }

  /** The second flow; `None` where the program throws. */
  function Finish(g: Group, su: Suite, s: State, peerMessage: Bytes): Option<Result>
    requires StateOk(g, s)
  {
    match g.decode(peerMessage)
    case None => None
    case Some(peer) =>
      match ToBytes(g, Shared(g, s, peer))
      case None => None
      case Some(k) =>
        var pA, pB := if s.role == A then s.own else peerMessage, if s.role == A then peerMessage else s.own;
        Some(Keys(su, s.role, s.aad, Transcript(s.idA, s.idB, pA, pB, k, s.w)))
  }

  predicate VerifyPeer(r: Result, confirm: Bytes) {
    confirm == r.expectedPeer
  }

  /** The transcript as the program builds it, byte loop by byte loop. */
  method BuildTranscript(idA: Bytes, idB: Bytes, pA: Bytes, pB: Bytes, k: Bytes, w: nat) returns (tt: Bytes)
    ensures tt == Transcript(idA, idB, pA, pB, k, w)
  {
    var wBytes := BigToBytesBE(w, SCALAR_BYTES);
    var a := Lv(idA);
    var b := Lv(idB);
    var c := Lv(pA);
    var d := Lv(pB);
    var e := Lv(k);
    var f := Lv(wBytes[..]);
    tt := Concat([a, b, c, d, e, f]);
  }

  /** `deriveW`: the password hash's output, reduced. */
  function DeriveW(g: Group, out: Bytes): (w: nat)
    requires g.q > 0
    ensures w < g.q && exists k: int :: FromBE(out) == k * g.q + w
  {
    var w := FromBE(out) % g.q;
    assert FromBE(out) == (FromBE(out) / g.q) * g.q + w;
    w
  }

  /** `randomScalar`: random bytes, reduced, and never zero. */
  function RandomScalar(g: Group, random: Bytes): (s: nat)
    requires g.q > 1
    ensures 0 < s < g.q
    ensures exists k: int :: FromBE(random) == k * g.q + s || (FromBE(random) == k * g.q && s == 1)
  {
    var s := FromBE(random) % g.q;
    assert FromBE(random) == (FromBE(random) / g.q) * g.q + s;
    if s == 0 then 1 else s
  }

  // ----- modular arithmetic

  lemma ModOf(a: int, k: int, q: nat)
    requires q > 0
    ensures (a + k * q) % q == a % q
  {
    var x, y := a / q, (a + k * q) / q;
    assert a == x * q + a % q;
    assert a + k * q == y * q + (a + k * q) % q;
    assert (x + k - y) * q == (a + k * q) % q - a % q;
    Multiple(x + k - y, q, (a + k * q) % q - a % q);
  }

  lemma MulAtLeast(n: int, q: int)
    requires q > 0
    ensures n >= 1 ==> n * q >= q
    ensures n <= -1 ==> n * q <= 0 - q
  {
  }

  /** Only zero is a multiple of `q` between `-q` and `q`. */
  lemma Multiple(n: int, q: nat, d: int)
    requires q > 0 && n * q == d && -(q as int) < d < q
    ensures d == 0
  {
    MulAtLeast(n, q);
  }

  lemma ModMul(a: int, b: int, q: nat)
    requires q > 0
    ensures ((a % q) * b) % q == (a * b) % q
  {
    var k := a / q;
    assert a == k * q + a % q;
    assert a * b == (a % q) * b + (k * b) * q;
    ModOf((a % q) * b, k * b, q);
  }

  lemma ModAdd(a: int, b: int, q: nat)
    requires q > 0
    ensures (a % q + b) % q == (a + b) % q && (b + a % q) % q == (a + b) % q && (b - a % q) % q == (b - a) % q
  {
    var k, m := a / q, a % q;
    assert a == k * q + m;
    ModOf(m + b, k, q);
    assert b - a == b - m + (-k) * q;
    ModOf(b - m, -k, q);
  }

  /** A prime that divides a product divides a factor. */
  lemma {:induction false} Euclid(q: nat, a: nat, b: nat)
    requires Prime(q) && 0 < a < q && 0 < b < q
    ensures (a * b) % q != 0
    decreases a
  {
    if a == 1 {
    } else if (a * b) % q == 0 {
      var r, k := q % a, q / a;
      assert q == k * a + r;
      var m := (a * b) / q;
      assert a * b == m * q;
      calc {
        r * b;
        (q - k * a) * b;
        q * b - k * (a * b);
        { assert k * (a * b) == (k * m) * q; }
        (b - k * m) * q;
      }
      ModOf(0, b - k * m, q);
      Euclid(q, r, b);
    }
  }

  // ----- agreement

  /** What a party's scalar contributes survives when the password part is removed. */
  lemma Unblind(q: nat, seed: int, w: int, base: int, x: int, y: int)
    requires q > 0
    ensures ((((seed * w) % q + (base * y) % q) % q - (seed * w) % q) % q * x) % q == (base * y * x) % q
  {
    var s, p := seed * w, base * y;
    ModAdd(p, s % q, q);
    assert (s % q + p % q) % q == (s % q + p) % q;
    ModAdd(s % q + p, -(s % q), q);
    assert ((s % q + p) % q - s % q) % q == (s % q + p - s % q) % q == p % q;
    ModMul(p, x, q);
  }

  lemma MulIs(g: Group, p: nat, k: nat)
    requires k < g.q
    ensures Mul(g, p, k) == (p * k) % g.q
  {
  }

  /** The shared element that `s` computes from an honest peer's point. */
  lemma SharedIs(g: Group, s: State, y: nat)
    requires GroupOk(g) && StateOk(g, s) && 0 < y < g.q
    ensures
      var peer := Add(g, Mul(g, Seed(g, Other(s.role)), s.w), Multiply(g, g.base, y));
      Shared(g, s, peer) == (g.base * y * s.scalar) % g.q
  {
    var seed := Seed(g, Other(s.role));
    MulIs(g, seed, s.w);
    Unblind(g.q, seed, s.w, g.base, s.scalar, y);
    hide GroupOk;
  }

  lemma SharedNonzero(q: nat, base: nat, x: nat, y: nat)
    requires Prime(q) && 0 < base < q && 0 < x < q && 0 < y < q
    ensures (base * y * x) % q != 0 && (base * y * x) % q == (base * x * y) % q
  {
    Euclid(q, base, y);
    ModMul(base * y, x, q);
    Euclid(q, (base * y) % q, x);
    assert base * y * x == base * x * y;
  }

  /** `start` throws exactly when the blinded point is the identity. */
  lemma StartFailsIff(g: Group, role: Role, w: nat, idA: Bytes, idB: Bytes, aad: Bytes, x: nat)
    requires GroupOk(g) && 0 < x < g.q && w < g.q
    ensures Start(g, role, w, idA, idB, aad, x).None? <==> (Seed(g, role) * w + g.base * x) % g.q == 0
  {
    var s, p := Seed(g, role) * w, g.base * x;
    MulIs(g, Seed(g, role), w);
    ModAdd(s, p % g.q, g.q);
    ModAdd(p, s, g.q);
  }

  ghost predicate Started(g: Group, s: State, role: Role, w: nat, idA: Bytes, idB: Bytes, aad: Bytes, x: nat) {
    0 < x < g.q && w < g.q && Start(g, role, w, idA, idB, aad, x) == Some(s)
  }

  /** What each party makes of the other's message. */
  lemma FinishIs(g: Group, su: Suite, s: State, t: State, idA: Bytes, idB: Bytes, aad: Bytes, w: nat, x: nat, y: nat)
    requires GroupOk(g) && Started(g, s, s.role, w, idA, idB, aad, x) && Started(g, t, Other(s.role), w, idA, idB, aad, y)
    ensures StateOk(g, s)
    ensures
      var k := (g.base * y * x) % g.q;
      var pA, pB := if s.role == A then s.own else t.own, if s.role == A then t.own else s.own;
      Finish(g, su, s, t.own) == Some(Keys(su, s.role, aad, Transcript(idA, idB, pA, pB, g.encode(k), w)))
  {
    SharedIs(g, s, y);
    SharedNonzero(g.q, g.base, x, y);
    hide Prime, Keys, Transcript, Shared;
  }

  /** With the same password scalar, identities and additional data, and whatever the
      secret scalars, both parties finish, with the same element, transcript and keys,
      and each accepts the other's confirmation. */
  lemma Agreement(g: Group, su: Suite, s: State, t: State, idA: Bytes, idB: Bytes, aad: Bytes, w: nat, x: nat, y: nat)
    requires GroupOk(g) && Started(g, s, A, w, idA, idB, aad, x) && Started(g, t, B, w, idA, idB, aad, y)
    ensures StateOk(g, s) && StateOk(g, t)
    ensures
      var ra, rb := Finish(g, su, s, t.own), Finish(g, su, t, s.own);
      && ra.Some? && rb.Some?
      && ra.value.transcript == rb.value.transcript && ra.value.ke == rb.value.ke
      && ra.value.kcA == rb.value.kcA && ra.value.kcB == rb.value.kcB
      && VerifyPeer(ra.value, rb.value.confirm) && VerifyPeer(rb.value, ra.value.confirm)
  {
    assert s.role == A && t.role == B;
    SharedNonzero(g.q, g.base, x, y);
    hide GroupOk, Finish, Transcript, Start;
    FinishIs(g, su, s, t, idA, idB, aad, w, x, y);
    FinishIs(g, su, t, s, idA, idB, aad, w, y, x);
  }

  // ----- the transcript

  lemma TranscriptIs(idA: Bytes, idB: Bytes, pA: Bytes, pB: Bytes, k: Bytes, w: nat)
    ensures Transcript(idA, idB, pA, pB, k, w) == LV(idA) + (LV(idB) + (LV(pA) + (LV(pB) + (LV(k) + LV(ToBE(w, SCALAR_BYTES))))))
  {
    hide LV;
    var parts := [LV(idA), LV(idB), LV(pA), LV(pB), LV(k), LV(ToBE(w, SCALAR_BYTES))];
    assert Flatten(parts) == parts[0] + Flatten(parts[1..]);
    assert Flatten(parts[1..]) == parts[1] + Flatten(parts[2..]) by { assert parts[1..][1..] == parts[2..]; }
    assert Flatten(parts[2..]) == parts[2] + Flatten(parts[3..]) by { assert parts[2..][1..] == parts[3..]; }
    assert Flatten(parts[3..]) == parts[3] + Flatten(parts[4..]) by { assert parts[3..][1..] == parts[4..]; }
    assert Flatten(parts[4..]) == parts[4] + parts[5] by { FlattenTwo(parts[4], parts[5]); assert parts[4..] == [parts[4], parts[5]]; }
  }

  predicate AllSized(idA: Bytes, idB: Bytes, pA: Bytes, pB: Bytes, k: Bytes) {
    Sized(idA) && Sized(idB) && Sized(pA) && Sized(pB) && Sized(k)
  }

  function Behind(a: Bytes, b: Bytes, rest: Bytes): Bytes {
    LV(a) + (LV(b) + rest)
  }

  lemma TwoFields(a: Bytes, b: Bytes, rest: Bytes, a': Bytes, b': Bytes, rest': Bytes)
    requires Sized(a) && Sized(b) && Sized(a') && Sized(b') && Behind(a, b, rest) == Behind(a', b', rest')
    ensures a == a' && b == b' && rest == rest'
  {
    hide LV, Sized;
    LVSplits(a, a', LV(b) + rest, LV(b') + rest');
    LVSplits(b, b', rest, rest');
  }

  lemma FieldsAgree(idA: Bytes, idB: Bytes, pA: Bytes, pB: Bytes, k: Bytes, b: Bytes,
                    idA': Bytes, idB': Bytes, pA': Bytes, pB': Bytes, k': Bytes, b': Bytes)
    requires AllSized(idA, idB, pA, pB, k) && AllSized(idA', idB', pA', pB', k') && Sized(b) && Sized(b')
    requires LV(idA) + (LV(idB) + (LV(pA) + (LV(pB) + (LV(k) + LV(b))))) == LV(idA') + (LV(idB') + (LV(pA') + (LV(pB') + (LV(k') + LV(b')))))
    ensures idA == idA' && idB == idB' && pA == pA' && pB == pB' && k == k' && b == b'
  {
    hide LV, Sized;
    var last, last' := LV(k) + LV(b), LV(k') + LV(b');
    assert last == Behind(k, b, []) && last' == Behind(k', b', []);
    var mid, mid' := Behind(pA, pB, last), Behind(pA', pB', last');
    assert Behind(idA, idB, mid) == Behind(idA', idB', mid');
    hide Behind;
    TwoFields(idA, idB, mid, idA', idB', mid');
    TwoFields(pA, pB, last, pA', pB', last');
    TwoFields(k, b, [], k', b', []);
  }

  /** The transcript says unambiguously what went into it. */
  lemma TranscriptInjective(idA: Bytes, idB: Bytes, pA: Bytes, pB: Bytes, k: Bytes, w: nat,
                            idA': Bytes, idB': Bytes, pA': Bytes, pB': Bytes, k': Bytes, w': nat)
    requires AllSized(idA, idB, pA, pB, k) && AllSized(idA', idB', pA', pB', k')
    requires w < Pow256(SCALAR_BYTES) && w' < Pow256(SCALAR_BYTES)
    requires Transcript(idA, idB, pA, pB, k, w) == Transcript(idA', idB', pA', pB', k', w')
    ensures idA == idA' && idB == idB' && pA == pA' && pB == pB' && k == k' && w == w'
  {
    hide LV, Transcript, ToBE, Pow256, Sized, Flatten;
    TranscriptIs(idA, idB, pA, pB, k, w);
    TranscriptIs(idA', idB', pA', pB', k', w');
    var b, b' := ToBE(w, SCALAR_BYTES), ToBE(w', SCALAR_BYTES);
    SizedScalar(w);
    SizedScalar(w');
    FieldsAgree(idA, idB, pA, pB, k, b, idA', idB', pA', pB', k', b');
    ToBEInjective(w, w', SCALAR_BYTES);
  }

  lemma SizedScalar(w: nat)
    ensures Sized(ToBE(w, SCALAR_BYTES))
  {
    ToBELength(w, SCALAR_BYTES);
    assert Pow256(8) == 256 * Pow256(7) && Pow256(7) >= 1;
  }

  // ----- different codes

  /** Sizes that hold of every array the program can build. */
  ghost predicate Fits(g: Group, s: State) {
    Sized(s.idA) && Sized(s.idB) && Sized(s.own) && forall p :: 0 < p < g.q ==> Sized(g.encode(p))
  }

  /** The confirmation that role `r` derives from a transcript: the MAC of the transcript
      under that role's confirmation key, which is itself derived from the transcript. */
  function Tag(su: Suite, r: Role, aad: Bytes, tt: Bytes): Bytes {
    var keys := Keys(su, r, aad, tt);
    su.mac(if r == A then keys.kcA else keys.kcB, tt)
  }

  /** Two different transcripts with one confirmation. */
  predicate Collide(su: Suite, r: Role, aad: Bytes, tt: Bytes, aad': Bytes, tt': Bytes) {
    tt != tt' && Tag(su, r, aad, tt) == Tag(su, r, aad', tt')
  }

  /** The hash, the key derivation and the MAC together never collide. */
  ghost predicate CollisionFree(su: Suite) {
    forall r, aad, aad', tt, tt' :: !Collide(su, r, aad, tt, aad', tt')
  }

  lemma NeverCollides(su: Suite, r: Role, aad: Bytes, tt: Bytes, aad': Bytes, tt': Bytes)
    requires CollisionFree(su)
    ensures !Collide(su, r, aad, tt, aad', tt')
  {
  }

  /** Parties with different password scalars build different transcripts, whatever
      messages reach them. */
  lemma MismatchDiffers(g: Group, su: Suite, s: State, t: State, toS: Bytes, toT: Bytes)
    requires GroupOk(g) && StateOk(g, s) && StateOk(g, t) && s.w != t.w
    requires Fits(g, s) && Fits(g, t) && Sized(toS) && Sized(toT)
    requires Finish(g, su, s, toS).Some? && Finish(g, su, t, toT).Some?
    ensures Finish(g, su, s, toS).value.transcript != Finish(g, su, t, toT).value.transcript
  {
    var rs, rt := Finish(g, su, s, toS).value, Finish(g, su, t, toT).value;
    var ks, kt := ToBytes(g, Shared(g, s, g.decode(toS).value)).value, ToBytes(g, Shared(g, t, g.decode(toT).value)).value;
    var sA, sB := if s.role == A then s.own else toS, if s.role == A then toS else s.own;
    var tA, tB := if t.role == A then t.own else toT, if t.role == A then toT else t.own;
    assert rs.transcript == Transcript(s.idA, s.idB, sA, sB, ks, s.w);
    assert rt.transcript == Transcript(t.idA, t.idB, tA, tB, kt, t.w);
    assert 0 < Shared(g, s, g.decode(toS).value) < g.q && 0 < Shared(g, t, g.decode(toT).value) < g.q;
    if rs.transcript == rt.transcript {
      TranscriptInjective(s.idA, s.idB, sA, sB, ks, s.w, t.idA, t.idB, tA, tB, kt, t.w);
    }
  }

  /** One side accepts the other's confirmation exactly if the sender's confirmation of
      its own transcript is the one the receiver computes of its own, each under the keys
      derived from that transcript. */
  lemma AcceptsIff(g: Group, su: Suite, s: State, t: State, toS: Bytes, toT: Bytes)
    requires StateOk(g, s) && StateOk(g, t) && s.role != t.role
    requires Finish(g, su, s, toS).Some? && Finish(g, su, t, toT).Some?
    ensures
      var rs, rt := Finish(g, su, s, toS).value, Finish(g, su, t, toT).value;
      VerifyPeer(rs, rt.confirm) <==> Tag(su, t.role, t.aad, rt.transcript) == Tag(su, t.role, s.aad, rs.transcript)
  {
    hide Transcript, Shared, Slice, Ascii;
  }

  /** So with different password scalars, and whatever messages reach them, one side
      accepts the other's confirmation exactly if the confirmations of these two
      different transcripts collide. */
  lemma MismatchCollides(g: Group, su: Suite, s: State, t: State, toS: Bytes, toT: Bytes)
    requires GroupOk(g) && StateOk(g, s) && StateOk(g, t) && s.w != t.w && s.role != t.role
    requires Fits(g, s) && Fits(g, t) && Sized(toS) && Sized(toT)
    requires Finish(g, su, s, toS).Some? && Finish(g, su, t, toT).Some?
    ensures
      var rs, rt := Finish(g, su, s, toS).value, Finish(g, su, t, toT).value;
      && (VerifyPeer(rs, rt.confirm) <==> Collide(su, t.role, t.aad, rt.transcript, s.aad, rs.transcript))
      && (VerifyPeer(rt, rs.confirm) <==> Collide(su, s.role, s.aad, rs.transcript, t.aad, rt.transcript))
  {
    MismatchDiffers(g, su, s, t, toS, toT);
    AcceptsIff(g, su, s, t, toS, toT);
    AcceptsIff(g, su, t, s, toT, toS);
    hide Finish, Tag, VerifyPeer, GroupOk, Fits;
  }

  /** Without collisions neither side accepts. */
  lemma MismatchRejected(g: Group, su: Suite, s: State, t: State, toS: Bytes, toT: Bytes)
    requires GroupOk(g) && StateOk(g, s) && StateOk(g, t) && s.w != t.w && s.role != t.role
    requires Fits(g, s) && Fits(g, t) && Sized(toS) && Sized(toT)
    requires Finish(g, su, s, toS).Some? && Finish(g, su, t, toT).Some? && CollisionFree(su)
    ensures !VerifyPeer(Finish(g, su, s, toS).value, Finish(g, su, t, toT).value.confirm)
    ensures !VerifyPeer(Finish(g, su, t, toT).value, Finish(g, su, s, toS).value.confirm)
  {
    MismatchCollides(g, su, s, t, toS, toT);
    hide Finish, Collide, VerifyPeer, GroupOk, Fits;
  }

  /** The assumption can be met. */
  lemma CollisionFreeExists()
    ensures exists su :: CollisionFree(su)
  {
    var su := Suite(b => b, (k: Bytes, info: Bytes, n: nat) => k, (k: Bytes, m: Bytes) => m);
    assert CollisionFree(su);
  }

  // ----- what the two flows compute, told from outside

  /** The owner's side blinds with the one seed, the joiner's with the other; the state keeps
      what went in. */
  lemma StartIs(g: Group, role: Role, w: nat, idA: Bytes, idB: Bytes, aad: Bytes, x: nat)
    requires GroupOk(g) && 0 < x < g.q && w < g.q
    ensures
      var p := ((if role == A then g.seedM else g.seedN) * w + g.base * x) % g.q;
      Start(g, role, w, idA, idB, aad, x) == if p == 0 then None else Some(State(role, x, w, g.encode(p), idA, idB, aad))
  {
    var s, p := Seed(g, role) * w, g.base * x;
    MulIs(g, Seed(g, role), w);
    ModAdd(s, p % g.q, g.q);
    ModAdd(p, s, g.q);
  }

  /** The element that a party computes: its own scalar times the other's point without the
      other's blinding. */
  function Element(g: Group, s: State, peer: nat): int
    requires g.q > 0
  {
    ((peer - (if s.role == A then g.seedN else g.seedM) * s.w) * s.scalar) % g.q
  }

  lemma SharedIsElement(g: Group, s: State, peer: nat)
    requires GroupOk(g) && StateOk(g, s)
    ensures Shared(g, s, peer) == Element(g, s, peer)
  {
    var seed := Seed(g, Other(s.role));
    MulIs(g, seed, s.w);
    ModAdd(seed * s.w, peer, g.q);
    ModMul(peer - seed * s.w, s.scalar, g.q);
    hide GroupOk;
  }

  /** `finish` throws exactly if the message decodes to no point or the element is the
      identity. */
  lemma FinishFailsIff(g: Group, su: Suite, s: State, toS: Bytes)
    requires GroupOk(g) && StateOk(g, s)
    ensures Finish(g, su, s, toS).None? <==> g.decode(toS).None? || Element(g, s, g.decode(toS).value) == 0
  {
    if g.decode(toS).Some? {
      SharedIsElement(g, s, g.decode(toS).value);
    }
    hide Shared, Element, GroupOk, Keys, Transcript;
  }

  lemma ReadsSix(idA: Bytes, idB: Bytes, pA: Bytes, pB: Bytes, k: Bytes, b: Bytes)
    requires AllSized(idA, idB, pA, pB, k) && Sized(b)
    ensures ReadFields(LV(idA) + (LV(idB) + (LV(pA) + (LV(pB) + (LV(k) + LV(b))))), 6) == Some([idA, idB, pA, pB, k, b])
  {
    hide LV, Sized, ReadField;
    var none: Bytes := [];
    assert LV(b) + none == LV(b);
    ReadsLV(b, none);
    ReadsOne(b, none, 0, []);
    assert [b] + [] == [b];
    ReadsLV(k, LV(b));
    ReadsOne(k, LV(b), 1, [b]);
    assert [k] + [b] == [k, b];
    ReadsLV(pB, LV(k) + LV(b));
    ReadsOne(pB, LV(k) + LV(b), 2, [k, b]);
    assert [pB] + [k, b] == [pB, k, b];
    ReadsLV(pA, LV(pB) + (LV(k) + LV(b)));
    ReadsOne(pA, LV(pB) + (LV(k) + LV(b)), 3, [pB, k, b]);
    assert [pA] + [pB, k, b] == [pA, pB, k, b];
    ReadsLV(idB, LV(pA) + (LV(pB) + (LV(k) + LV(b))));
    ReadsOne(idB, LV(pA) + (LV(pB) + (LV(k) + LV(b))), 4, [pA, pB, k, b]);
    assert [idB] + [pA, pB, k, b] == [idB, pA, pB, k, b];
    ReadsLV(idA, LV(idB) + (LV(pA) + (LV(pB) + (LV(k) + LV(b)))));
    ReadsOne(idA, LV(idB) + (LV(pA) + (LV(pB) + (LV(k) + LV(b)))), 5, [idB, pA, pB, k, b]);
    assert [idA] + [idB, pA, pB, k, b] == [idA, idB, pA, pB, k, b];
  }

  lemma ReadsOne(a: Bytes, rest: Bytes, n: nat, fs: seq<Bytes>)
    requires ReadField(LV(a) + rest) == Some((a, rest)) && ReadFields(rest, n) == Some(fs)
    ensures ReadFields(LV(a) + rest, n + 1) == Some([a] + fs)
  {
    hide LV, ReadField;
  }

  /** Read through its lengths, the transcript of a finished exchange is, in this order: the
      two identities, A's point, B's point, the element, and the password scalar. */
  lemma TranscriptReads(g: Group, su: Suite, s: State, toS: Bytes)
    requires GroupOk(g) && StateOk(g, s) && Fits(g, s) && Sized(toS) && Finish(g, su, s, toS).Some?
    ensures g.decode(toS).Some?
    ensures
      var k := Element(g, s, g.decode(toS).value);
      && 0 < k < g.q
      && exists w: Bytes :: |w| == 32 && FromBE(w) == s.w
           && ReadFields(Finish(g, su, s, toS).value.transcript, 6)
                == Some([s.idA, s.idB, if s.role == A then s.own else toS, if s.role == A then toS else s.own, g.encode(k), w])
  {
    var peer := g.decode(toS).value;
    SharedIsElement(g, s, peer);
    var k, w := Shared(g, s, peer), ToBE(s.w, SCALAR_BYTES);
    var pA, pB := if s.role == A then s.own else toS, if s.role == A then toS else s.own;
    assert 0 < k < g.q;
    assert Finish(g, su, s, toS).value.transcript == Transcript(s.idA, s.idB, pA, pB, g.encode(k), s.w);
    hide Shared, Element, Transcript, Keys, ToBE, Pow256, Finish;
    SizedScalar(s.w);
    ToBELength(s.w, SCALAR_BYTES);
    FromToBE(s.w, SCALAR_BYTES);
    TranscriptIs(s.idA, s.idB, pA, pB, g.encode(k), s.w);
    ReadsSix(s.idA, s.idB, pA, pB, g.encode(k), w);
  }

  /** The ASCII bytes of "ConfirmationKeys". */
  const ConfirmationKeys: Bytes := [67, 111, 110, 102, 105, 114, 109, 97, 116, 105, 111, 110, 75, 101, 121, 115]

  /** The key schedule: the hash of the transcript is the secret and the confirmation secret,
      half each; the latter derives both confirmation keys, half each; and the confirmations
      are the MACs of the transcript under these. */
  lemma KeySchedule(g: Group, su: Suite, s: State, toS: Bytes)
    requires StateOk(g, s) && Finish(g, su, s, toS).Some? && |su.hash(Finish(g, su, s, toS).value.transcript)| == 32
    ensures
      var r := Finish(g, su, s, toS).value;
      && |r.ke| == |r.ka| == 16 && r.ke + r.ka == su.hash(r.transcript)
      && (|su.hkdf(r.ka, ConfirmationKeys + s.aad, 32)| == 32 ==>
            |r.kcA| == |r.kcB| == 16 && r.kcA + r.kcB == su.hkdf(r.ka, ConfirmationKeys + s.aad, 32))
      && r.cA == su.mac(r.kcA, r.transcript) && r.cB == su.mac(r.kcB, r.transcript)
      && r.confirm == (if s.role == A then r.cA else r.cB) && r.expectedPeer == (if s.role == A then r.cB else r.cA)
  {
    var tt := Finish(g, su, s, toS).value.transcript;
    assert Finish(g, su, s, toS).value == Keys(su, s.role, s.aad, tt);
    hide Finish, Keys;
    KeysAre(su, s.role, s.aad, tt);
    ConfirmationKeysAre(su, s.role, s.aad, tt);
  }

  lemma KeysAre(su: Suite, role: Role, aad: Bytes, tt: Bytes)
    requires |su.hash(tt)| == 32
    ensures
      var r := Keys(su, role, aad, tt);
      && |r.ke| == |r.ka| == 16 && r.ke + r.ka == su.hash(tt) && r.cA == su.mac(r.kcA, tt) && r.cB == su.mac(r.kcB, tt)
      && r.confirm == (if role == A then r.cA else r.cB) && r.expectedPeer == (if role == A then r.cB else r.cA)
  {
    Halves(su.hash(tt));
    hide Slice, Ascii;
  }

  lemma ConfirmationKeysAre(su: Suite, role: Role, aad: Bytes, tt: Bytes)
    ensures
      var r := Keys(su, role, aad, tt);
      |su.hkdf(r.ka, ConfirmationKeys + aad, 32)| == 32 ==>
        |r.kcA| == |r.kcB| == 16 && r.kcA + r.kcB == su.hkdf(r.ka, ConfirmationKeys + aad, 32)
  {
    assert Ascii("ConfirmationKeys") == ConfirmationKeys;
    var kc := su.hkdf(Keys(su, role, aad, tt).ka, ConfirmationKeys + aad, 32);
    if |kc| == 32 {
      Halves(kc);
    }
    hide Slice, Ascii;
  }

  lemma Halves(b: Bytes)
    requires |b| == 32
    ensures |Slice(b, 0, 16)| == |Slice(b, 16, 32)| == 16 && Slice(b, 0, 16) + Slice(b, 16, 32) == b
  {
  }

  /** Two different transcripts whose hashes begin alike. */
  predicate HalvesCollide(su: Suite, tt: Bytes, tt': Bytes) {
    tt != tt' && |su.hash(tt)| >= 16 && |su.hash(tt')| >= 16 && su.hash(tt)[..16] == su.hash(tt')[..16]
  }

  /** Parties with different password scalars share a secret exactly if the hashes of their
      different transcripts collide in their first halves. */
  lemma SecretsDiffer(g: Group, su: Suite, s: State, t: State, toS: Bytes, toT: Bytes)
    requires GroupOk(g) && StateOk(g, s) && StateOk(g, t) && s.w != t.w
    requires Fits(g, s) && Fits(g, t) && Sized(toS) && Sized(toT)
    requires Finish(g, su, s, toS).Some? && Finish(g, su, t, toT).Some? && forall b :: |su.hash(b)| == 32
    ensures
      var rs, rt := Finish(g, su, s, toS).value, Finish(g, su, t, toT).value;
      rs.ke == rt.ke <==> HalvesCollide(su, rs.transcript, rt.transcript)
  {
    MismatchDiffers(g, su, s, t, toS, toT);
    KeySchedule(g, su, s, toS);
    KeySchedule(g, su, t, toT);
    var rs, rt := Finish(g, su, s, toS).value, Finish(g, su, t, toT).value;
    assert su.hash(rs.transcript)[..16] == rs.ke && su.hash(rt.transcript)[..16] == rt.ke;
    hide Finish, GroupOk, Fits;
  }
}
