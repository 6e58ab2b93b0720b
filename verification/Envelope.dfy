/**
Sealing and opening in web/src/crypto.ts: the message envelope, public keys under
the handshake secret, and room keys under a pairwise secret. The cipher, the key
derivation, the Diffie-Hellman function and the text coder are passed in; what is
assumed of them is in `PrimsOk`.
*/
module Envelope {
  import opened Options
  import opened Bytes
  import opened Base64

  const VERSION: byte := 1
  const KEY_LEN := 32
  const NONCE_LEN := 24
  const TAG_LEN := 16

  datatype Prims = Prims(
    encrypt: (Bytes, Bytes, Bytes) -> Bytes,          // key, nonce, plaintext
    decrypt: (Bytes, Bytes, Bytes) -> Option<Bytes>,  // key, nonce, ciphertext
    hkdf: (Bytes, Bytes, nat) -> Bytes,               // secret, info, length
    publicKey: Bytes -> Bytes,
    shared: (Bytes, Bytes) -> Bytes,                  // own private, other's public
    textBytes: string -> Bytes,
    bytesText: Bytes -> string)

  predicate IsAscii(s: string) {
    forall i :: 0 <= i < |s| ==> s[i] as int < 128
  }

  /** An ideal cipher that adds a tag, a commuting key agreement, and a text coder that
      is the identity on ASCII. */
  ghost predicate PrimsOk(p: Prims) {
    && (forall k, n, m :: |p.encrypt(k, n, m)| == |m| + TAG_LEN && p.decrypt(k, n, p.encrypt(k, n, m)) == Some(m))
    && (forall a, b :: p.shared(a, p.publicKey(b)) == p.shared(b, p.publicKey(a)))
    && (forall s :: IsAscii(s) ==> p.bytesText(p.textBytes(s)) == s)
  }

  /** What was encrypted under one of two keys does not decrypt under the other. */
  ghost predicate Apart(p: Prims, k: Bytes, l: Bytes) {
    forall n, m :: p.decrypt(l, n, p.encrypt(k, n, m)) == None && p.decrypt(k, n, p.encrypt(l, n, m)) == None
  }

  function Mark(z: Bytes, k: Bytes): Bytes {
    seq(TAG_LEN, i => if k == z then 1 else 0)
  }

  function Unmarked(z: Bytes, k: Bytes, c: Bytes): Option<Bytes> {
    if |c| >= TAG_LEN && c[|c| - TAG_LEN..] == Mark(z, k) then Some(c[..|c| - TAG_LEN]) else None
  }

  /** Texts and bytes as the same codes. */
  function Codes(s: string): Bytes {
    seq(|s|, i requires 0 <= i < |s| => if s[i] as int < 256 then s[i] as int else 0)
  }

  function Letters(b: Bytes): string {
    seq(|b|, i requires 0 <= i < |b| => b[i] as char)
  }

  lemma UnmarkedMark(z: Bytes, k: Bytes, l: Bytes, m: Bytes)
    ensures Unmarked(z, l, m + Mark(z, k)) == if (k == z) == (l == z) then Some(m) else None
  {
    assert (m + Mark(z, k))[|m|..] == Mark(z, k) && (m + Mark(z, k))[..|m|] == m;
    assert (k == z) != (l == z) ==> Mark(z, k)[0] != Mark(z, l)[0];
  }

  /** The assumptions can be met, for any key `z` that is to be apart from all others. */
  lemma PrimsExist(z: Bytes)
    ensures exists p :: PrimsOk(p) && forall k :: k != z ==> Apart(p, k, z)
  {
    var p := Prims((k: Bytes, n: Bytes, m: Bytes) => m + Mark(z, k), (k: Bytes, n: Bytes, c: Bytes) => Unmarked(z, k, c),
                   (s: Bytes, info: Bytes, n: nat) => s, k => k, (a: Bytes, b: Bytes) => [], Codes, Letters);
    forall k, l, m ensures Unmarked(z, l, m + Mark(z, k)) == if (k == z) == (l == z) then Some(m) else None {
      UnmarkedMark(z, k, l, m);
    }
    forall s | IsAscii(s) ensures Letters(Codes(s)) == s {
      assert forall i :: 0 <= i < |s| ==> Codes(s)[i] as char == s[i];
    }
    hide Mark, Unmarked, Codes, Letters, IsAscii;
    forall k, m ensures |m + Mark(z, k)| == |m| + TAG_LEN {
      MarkSize(z, k);
    }
    assert PrimsOk(p);
  }

  lemma MarkSize(z: Bytes, k: Bytes)
    ensures |Mark(z, k)| == TAG_LEN
  {
  }

  // ----- the envelope

  datatype Error = BadBase64 | TooShort | BadVersion | NotAuthentic | BadKeyLength

  datatype Outcome<T> = Ok(value: T) | Err(error: Error)

  /** version, nonce, ciphertext and tag. */
  function SealBytes(p: Prims, key: Bytes, nonce: Bytes, pt: Bytes): string {
    Encode([VERSION] + nonce + p.encrypt(key, nonce, pt))
  }

  function OpenBytes(p: Prims, key: Bytes, envelope: string): Outcome<Bytes> {
    match Decode(envelope)
    case None => Err(BadBase64)
    case Some(buf) =>
      if |buf| < 1 + NONCE_LEN + TAG_LEN then Err(TooShort)
      else if buf[0] != VERSION then Err(BadVersion)
      else
        match p.decrypt(key, buf[1..1 + NONCE_LEN], buf[1 + NONCE_LEN..])
        case None => Err(NotAuthentic)
        case Some(pt) => Ok(pt)
  }

  /** `sealBytes` as the program runs it: one buffer filled part by part. */
  method Seal(p: Prims, key: Bytes, nonce: Bytes, pt: Bytes) returns (envelope: string)
    requires |nonce| == NONCE_LEN
    ensures envelope == SealBytes(p, key, nonce, pt)
  {
    var ct := p.encrypt(key, nonce, pt);
    var out := new byte[1 + NONCE_LEN + |ct|];
    out[0] := VERSION;
    forall i | 0 <= i < NONCE_LEN {
      out[1 + i] := nonce[i];
    }
    forall i | 0 <= i < |ct| {
      out[1 + NONCE_LEN + i] := ct[i];
    }
    assert out[..] == [VERSION] + nonce + ct;
    envelope := BytesToB64(out[..]);
  }

  /** Opening what was sealed gives the plaintext, and the envelope's length is known
      in advance. */
  lemma OpenInvertsSeal(p: Prims, key: Bytes, nonce: Bytes, pt: Bytes)
    requires PrimsOk(p) && |nonce| == NONCE_LEN
    ensures OpenBytes(p, key, SealBytes(p, key, nonce, pt)) == Ok(pt)
    ensures |SealBytes(p, key, nonce, pt)| == 4 * ((|pt| + 43) / 3)
  {
    var ct := p.encrypt(key, nonce, pt);
    var buf := [VERSION] + nonce + ct;
    RoundTrip(buf);
    EncodeLength(buf);
    assert buf[1..1 + NONCE_LEN] == nonce && buf[1 + NONCE_LEN..] == ct;
    hide Encode, Decode;
  }

  /** The bytes of an envelope, and exactly what opens: the version byte, 24 bytes of nonce,
      and the ciphertext with its 16-byte tag. */
  lemma Layout(p: Prims, key: Bytes, nonce: Bytes, pt: Bytes)
    ensures Decode(SealBytes(p, key, nonce, pt)) == Some([1] + nonce + p.encrypt(key, nonce, pt))
  {
    RoundTrip([1] + nonce + p.encrypt(key, nonce, pt));
    hide Decode, Encode;
  }

  lemma OpensExactly(p: Prims, key: Bytes, envelope: string)
    ensures
      var buf, r := Decode(envelope), OpenBytes(p, key, envelope);
      && (r == Err(BadBase64) <==> buf.None?)
      && (r == Err(TooShort) <==> buf.Some? && |buf.value| < 41)
      && (r == Err(BadVersion) <==> buf.Some? && |buf.value| >= 41 && buf.value[0] != 1)
      && (r.Ok? <==> buf.Some? && |buf.value| >= 41 && buf.value[0] == 1 && p.decrypt(key, buf.value[1..25], buf.value[25..]).Some?)
      && (r.Ok? ==> p.decrypt(key, buf.value[1..25], buf.value[25..]) == Some(r.value))
      && r != Err(BadKeyLength)
  {
    hide Decode;
  }

  /** Under a key that is apart, it does not open. */
  lemma OtherKeyFails(p: Prims, key: Bytes, other: Bytes, nonce: Bytes, pt: Bytes)
    requires PrimsOk(p) && Apart(p, key, other) && |nonce| == NONCE_LEN
    ensures OpenBytes(p, other, SealBytes(p, key, nonce, pt)) == Err(NotAuthentic)
    ensures OpenBytes(p, key, SealBytes(p, other, nonce, pt)) == Err(NotAuthentic)
  {
    var ct, dt := p.encrypt(key, nonce, pt), p.encrypt(other, nonce, pt);
    var buf, duf := [VERSION] + nonce + ct, [VERSION] + nonce + dt;
    RoundTrip(buf);
    RoundTrip(duf);
    assert buf[1..1 + NONCE_LEN] == nonce && buf[1 + NONCE_LEN..] == ct;
    assert duf[1..1 + NONCE_LEN] == nonce && duf[1 + NONCE_LEN..] == dt;
    hide Encode, Decode;
  }

  function EncryptMessage(p: Prims, key: Bytes, nonce: Bytes, text: string): string {
    SealBytes(p, key, nonce, p.textBytes(text))
  }

  function DecryptMessage(p: Prims, key: Bytes, envelope: string): Outcome<string> {
    match OpenBytes(p, key, envelope)
    case Ok(pt) => Ok(p.bytesText(pt))
    case Err(e) => Err(e)
  }

  lemma DecryptInvertsEncrypt(p: Prims, key: Bytes, nonce: Bytes, text: string)
    requires PrimsOk(p) && |nonce| == NONCE_LEN && IsAscii(text)
    ensures DecryptMessage(p, key, EncryptMessage(p, key, nonce, text)) == Ok(text)
  {
    OpenInvertsSeal(p, key, nonce, p.textBytes(text));
    hide SealBytes, OpenBytes;
  }

  // ----- keys in envelopes

  function Info(s: string): Bytes
    requires IsAscii(s)
  {
    seq<byte>(|s|, i requires 0 <= i < |s| && IsAscii(s) => s[i] as int)
  }

  function ExchangeKey(p: Prims, ke: Bytes): Bytes {
    p.hkdf(ke, Info("anonchat-keyx-v1"), KEY_LEN)
  }

  /** A public key on its way through the relay. */
  function SealUnderKe(p: Prims, ke: Bytes, nonce: Bytes, b: Bytes): string {
    EncryptMessage(p, ExchangeKey(p, ke), nonce, EncodeUrl(b))
  }

  function OpenUnderKe(p: Prims, ke: Bytes, envelope: string): Outcome<Bytes> {
    match DecryptMessage(p, ExchangeKey(p, ke), envelope)
    case Err(e) => Err(e)
    case Ok(text) => match DecodeUrl(text) case None => Err(BadBase64) case Some(b) => Ok(b)
  }

  lemma UrlIsAscii(b: Bytes)
    ensures IsAscii(EncodeUrl(b))
  {
    UrlCharacters(b);
    forall i | 0 <= i < |EncodeUrl(b)| ensures EncodeUrl(b)[i] as int < 128 {
      assert UrlSafe(EncodeUrl(b)[i]);
    }
  }

  lemma OpenUnderKeInverts(p: Prims, ke: Bytes, nonce: Bytes, b: Bytes)
    requires PrimsOk(p) && |nonce| == NONCE_LEN
    ensures OpenUnderKe(p, ke, SealUnderKe(p, ke, nonce, b)) == Ok(b)
  {
    UrlIsAscii(b);
    UrlRoundTrip(b);
    DecryptInvertsEncrypt(p, ExchangeKey(p, ke), nonce, EncodeUrl(b));
    hide PrimsOk, EncryptMessage, DecryptMessage, EncodeUrl, DecodeUrl, IsAscii, ExchangeKey;
  }

  function PairKey(p: Prims, myPriv: Bytes, theirPub: Bytes): Bytes {
    p.hkdf(p.shared(myPriv, theirPub), Info("anonchat-rekey-v1"), KEY_LEN)
  }

  function KeyFromString(s: string): Outcome<Bytes> {
    match DecodeUrl(s)
    case None => Err(BadBase64)
    case Some(k) => if |k| != KEY_LEN then Err(BadKeyLength) else Ok(k)
  }

  function SealRoomKey(p: Prims, myPriv: Bytes, theirPub: Bytes, nonce: Bytes, roomKey: Bytes): string {
    EncryptMessage(p, PairKey(p, myPriv, theirPub), nonce, EncodeUrl(roomKey))
  }

  function OpenRoomKey(p: Prims, myPriv: Bytes, theirPub: Bytes, envelope: string): Outcome<Bytes> {
    match DecryptMessage(p, PairKey(p, myPriv, theirPub), envelope)
    case Err(e) => Err(e)
    case Ok(text) => KeyFromString(text)
  }

  /** What the owner seals to a member's public key, the member opens with the owner's;
      and exactly the strings of another length are refused as keys. */
  lemma OpenRoomKeyInverts(p: Prims, owner: Bytes, member: Bytes, nonce: Bytes, roomKey: Bytes)
    requires PrimsOk(p) && |nonce| == NONCE_LEN
    ensures OpenRoomKey(p, member, p.publicKey(owner), SealRoomKey(p, owner, p.publicKey(member), nonce, roomKey))
         == if |roomKey| == KEY_LEN then Ok(roomKey) else Err(BadKeyLength)
  {
    UrlIsAscii(roomKey);
    UrlRoundTrip(roomKey);
    assert PairKey(p, owner, p.publicKey(member)) == PairKey(p, member, p.publicKey(owner));
    DecryptInvertsEncrypt(p, PairKey(p, owner, p.publicKey(member)), nonce, EncodeUrl(roomKey));
    hide PrimsOk, EncryptMessage, DecryptMessage, EncodeUrl, DecodeUrl, IsAscii, PairKey;
  }

  // ----- who can open what

  /** Different secrets derive keys of this kind that are apart. */
  ghost predicate Separates(p: Prims, s: Bytes, t: Bytes, kind: Bytes) {
    s != t ==> Apart(p, p.hkdf(s, kind, 32), p.hkdf(t, kind, 32))
  }

  lemma OpensUnderSame(p: Prims, k: Bytes, l: Bytes, nonce: Bytes, text: string)
    requires PrimsOk(p) && |nonce| == NONCE_LEN && IsAscii(text) && (k == l || Apart(p, k, l))
    ensures DecryptMessage(p, l, EncryptMessage(p, k, nonce, text)) == if k == l then Ok(text) else Err(NotAuthentic)
  {
    if k == l {
      DecryptInvertsEncrypt(p, k, nonce, text);
    } else {
      OtherKeyFails(p, k, l, nonce, p.textBytes(text));
    }
    hide SealBytes, OpenBytes, PrimsOk, Apart;
  }

  /** A room key opens exactly for whoever agrees on the secret that it was sealed under. */
  lemma RoomKeyOpensIff(p: Prims, o: Bytes, m: Bytes, e: Bytes, d: Bytes, nonce: Bytes, roomKey: Bytes)
    requires PrimsOk(p) && |nonce| == NONCE_LEN && |roomKey| == KEY_LEN
    requires Separates(p, p.shared(o, p.publicKey(m)), p.shared(e, p.publicKey(d)), Info("anonchat-rekey-v1"))
    ensures
      OpenRoomKey(p, e, p.publicKey(d), SealRoomKey(p, o, p.publicKey(m), nonce, roomKey))
        == if p.shared(e, p.publicKey(d)) == p.shared(o, p.publicKey(m)) then Ok(roomKey) else Err(NotAuthentic)
  {
    UrlIsAscii(roomKey);
    UrlRoundTrip(roomKey);
    var s, t := p.shared(o, p.publicKey(m)), p.shared(e, p.publicKey(d));
    var k, l := PairKey(p, o, p.publicKey(m)), PairKey(p, e, p.publicKey(d));
    assert k == p.hkdf(s, Info("anonchat-rekey-v1"), 32) && l == p.hkdf(t, Info("anonchat-rekey-v1"), 32);
    SameOrApart(p, k, l, nonce, EncodeUrl(roomKey), s == t);
    hide PrimsOk, Apart, EncryptMessage, DecryptMessage, EncodeUrl, DecodeUrl, IsAscii, PairKey, Info;
  }

  lemma SameOrApart(p: Prims, k: Bytes, l: Bytes, nonce: Bytes, text: string, same: bool)
    requires PrimsOk(p) && |nonce| == NONCE_LEN && IsAscii(text) && if same then k == l else Apart(p, k, l)
    ensures DecryptMessage(p, l, EncryptMessage(p, k, nonce, text)) == if same then Ok(text) else Err(NotAuthentic)
  {
    NotFromItself(p, k);
    OpensUnderSame(p, k, l, nonce, text);
    hide EncryptMessage, DecryptMessage, PrimsOk, Apart;
  }

  lemma NotFromItself(p: Prims, k: Bytes)
    requires PrimsOk(p)
    ensures !Apart(p, k, k)
  {
    assert p.decrypt(k, [], p.encrypt(k, [], [])) == Some([]);
  }

  /** A public key sealed under a handshake secret opens exactly under that secret. */
  lemma UnderKeOpensIff(p: Prims, ke: Bytes, other: Bytes, nonce: Bytes, b: Bytes)
    requires PrimsOk(p) && |nonce| == NONCE_LEN && Separates(p, ke, other, Info("anonchat-keyx-v1"))
    ensures OpenUnderKe(p, other, SealUnderKe(p, ke, nonce, b)) == if other == ke then Ok(b) else Err(NotAuthentic)
  {
    var k, l := p.hkdf(ke, Info("anonchat-keyx-v1"), 32), p.hkdf(other, Info("anonchat-keyx-v1"), 32);
    UrlIsAscii(b);
    UrlRoundTrip(b);
    assert ExchangeKey(p, ke) == k && ExchangeKey(p, other) == l;
    assert ke == other || Apart(p, k, l);
    hide PrimsOk, Apart, EncryptMessage, DecryptMessage, EncodeUrl, DecodeUrl, IsAscii, ExchangeKey, Info, Separates;
    SameOrApart(p, k, l, nonce, EncodeUrl(b), ke == other);
  }

  /** One secret used for both kinds: what was sealed as the one does not open as the other,
      if the two labels, which differ, derive keys that are apart. */
  lemma KindsDoNotMix(p: Prims, o: Bytes, m: Bytes, nonce: Bytes, b: Bytes)
    requires PrimsOk(p) && |nonce| == NONCE_LEN
    requires var s := p.shared(o, p.publicKey(m)); Apart(p, p.hkdf(s, Info("anonchat-rekey-v1"), 32), p.hkdf(s, Info("anonchat-keyx-v1"), 32))
    ensures Info("anonchat-rekey-v1") != Info("anonchat-keyx-v1")
    ensures OpenUnderKe(p, p.shared(o, p.publicKey(m)), SealRoomKey(p, o, p.publicKey(m), nonce, b)) == Err(NotAuthentic)
    ensures OpenRoomKey(p, o, p.publicKey(m), SealUnderKe(p, p.shared(o, p.publicKey(m)), nonce, b)) == Err(NotAuthentic)
  {
    LabelsDiffer();
    RekeyIsNotKeyx(p, o, m, nonce, b);
    KeyxIsNotRekey(p, o, m, nonce, b);
    hide *;
  }

  lemma RekeyIsNotKeyx(p: Prims, o: Bytes, m: Bytes, nonce: Bytes, b: Bytes)
    requires PrimsOk(p) && |nonce| == NONCE_LEN
    requires var s := p.shared(o, p.publicKey(m)); Apart(p, p.hkdf(s, Info("anonchat-rekey-v1"), 32), p.hkdf(s, Info("anonchat-keyx-v1"), 32))
    ensures OpenUnderKe(p, p.shared(o, p.publicKey(m)), SealRoomKey(p, o, p.publicKey(m), nonce, b)) == Err(NotAuthentic)
  {
    var s := p.shared(o, p.publicKey(m));
    var k, l := p.hkdf(s, Info("anonchat-rekey-v1"), 32), p.hkdf(s, Info("anonchat-keyx-v1"), 32);
    UrlIsAscii(b);
    assert PairKey(p, o, p.publicKey(m)) == k && ExchangeKey(p, s) == l;
    hide PrimsOk, Apart, EncryptMessage, DecryptMessage, EncodeUrl, DecodeUrl, IsAscii, PairKey, ExchangeKey, Info;
    SameOrApart(p, k, l, nonce, EncodeUrl(b), false);
  }

  lemma KeyxIsNotRekey(p: Prims, o: Bytes, m: Bytes, nonce: Bytes, b: Bytes)
    requires PrimsOk(p) && |nonce| == NONCE_LEN
    requires var s := p.shared(o, p.publicKey(m)); Apart(p, p.hkdf(s, Info("anonchat-rekey-v1"), 32), p.hkdf(s, Info("anonchat-keyx-v1"), 32))
    ensures OpenRoomKey(p, o, p.publicKey(m), SealUnderKe(p, p.shared(o, p.publicKey(m)), nonce, b)) == Err(NotAuthentic)
  {
    var s := p.shared(o, p.publicKey(m));
    var k, l := p.hkdf(s, Info("anonchat-rekey-v1"), 32), p.hkdf(s, Info("anonchat-keyx-v1"), 32);
    UrlIsAscii(b);
    assert PairKey(p, o, p.publicKey(m)) == k && ExchangeKey(p, s) == l;
    ApartBothWays(p, k, l);
    hide PrimsOk, Apart, EncryptMessage, DecryptMessage, EncodeUrl, DecodeUrl, IsAscii, PairKey, ExchangeKey, Info;
    SameOrApart(p, l, k, nonce, EncodeUrl(b), false);
  }

  lemma ApartBothWays(p: Prims, k: Bytes, l: Bytes)
    requires Apart(p, k, l)
    ensures Apart(p, l, k)
  {
  }

  lemma LabelsDiffer()
    ensures Info("anonchat-rekey-v1") != Info("anonchat-keyx-v1")
  {
    assert Info("anonchat-rekey-v1")[9] == 'r' as int && Info("anonchat-keyx-v1")[9] == 'k' as int;
  }

  // ----- these assumptions can be met

  /** A stand-in for the derivation: it tells kinds and short secrets apart. */
  function Derived(s: Bytes, kind: Bytes): Bytes {
    [|kind| % 256, |s| % 256] + s
  }

  function Stamp(k: Bytes): Bytes {
    k[..if |k| < TAG_LEN then |k| else TAG_LEN] + seq(if |k| < TAG_LEN then TAG_LEN - |k| else 0, i => 0)
  }

  function Unstamped(k: Bytes, c: Bytes): Option<Bytes> {
    if |c| >= TAG_LEN && c[|c| - TAG_LEN..] == Stamp(k) then Some(c[..|c| - TAG_LEN]) else None
  }

  lemma UnstampedStamp(k: Bytes, l: Bytes, m: Bytes)
    ensures |Stamp(k)| == TAG_LEN
    ensures Unstamped(l, m + Stamp(k)) == if Stamp(k) == Stamp(l) then Some(m) else None
  {
    assert (m + Stamp(k))[|m|..] == Stamp(k) && (m + Stamp(k))[..|m|] == m;
  }

  lemma StampsTell(s: Bytes, t: Bytes, a: Bytes, b: Bytes)
    requires |s| <= 14 && |t| <= 14 && |a| < 256 && |b| < 256
    ensures Stamp(Derived(s, a)) == Stamp(Derived(t, b)) ==> s == t && |a| == |b|
  {
    var x, y := Stamp(Derived(s, a)), Stamp(Derived(t, b));
    assert x[0] == |a| && x[1] == |s| && y[0] == |b| && y[1] == |t|;
    if x == y {
      assert x[2..2 + |s|] == s && y[2..2 + |t|] == t;
    }
  }

  /** A key agreement that is not constant: numbers added up modulo 256. */
  function Agreed(a: Bytes, b: Bytes): Bytes {
    if |a| == 1 && |b| == 1 then
      var sum: int := a[0];
      [(sum + b[0]) % 256]
    else []
  }

  function StandIn(): Prims {
    Prims((k: Bytes, n: Bytes, m: Bytes) => m + Stamp(k), (k: Bytes, n: Bytes, c: Bytes) => Unstamped(k, c),
          (s: Bytes, info: Bytes, n: nat) => Derived(s, info), (k: Bytes) => k, (a: Bytes, b: Bytes) => Agreed(a, b), Codes, Letters)
  }

  lemma StandInOk()
    ensures PrimsOk(StandIn())
  {
    forall k, m ensures |m + Stamp(k)| == |m| + TAG_LEN && Unstamped(k, m + Stamp(k)) == Some(m) {
      UnstampedStamp(k, k, m);
    }
    forall s | IsAscii(s) ensures Letters(Codes(s)) == s {
      assert forall i :: 0 <= i < |s| ==> Codes(s)[i] as char == s[i];
    }
    hide Stamp, Unstamped, Codes, Letters, IsAscii;
  }

  /** All short secrets are told apart, for either kind, and so are the two kinds. */
  lemma StandInSeparates(s: Bytes, t: Bytes, a: Bytes, b: Bytes)
    requires |s| <= 14 && |t| <= 14 && |a| < 256 && |b| < 256
    ensures Separates(StandIn(), s, t, a)
    ensures |a| != |b| ==> Apart(StandIn(), StandIn().hkdf(s, a, 32), StandIn().hkdf(s, b, 32))
  {
    StampsTell(s, t, a, a);
    StampsTell(s, s, a, b);
    forall k: Bytes, l: Bytes, m: Bytes ensures Unstamped(l, m + Stamp(k)) == if Stamp(k) == Stamp(l) then Some(m) else None {
      UnstampedStamp(k, l, m);
    }
    hide Stamp, Unstamped, Derived, Codes, Letters;
  }

  /** And not everybody agrees on one secret: here a third party does not open the key. */
  lemma ThirdPartyFails(nonce: Bytes, roomKey: Bytes)
    requires |nonce| == NONCE_LEN && |roomKey| == KEY_LEN
    ensures
      var p := StandIn();
      && OpenRoomKey(p, [2], p.publicKey([1]), SealRoomKey(p, [1], p.publicKey([2]), nonce, roomKey)) == Ok(roomKey)
      && OpenRoomKey(p, [3], p.publicKey([1]), SealRoomKey(p, [1], p.publicKey([2]), nonce, roomKey)) == Err(NotAuthentic)
  {
    var p := StandIn();
    StandInOk();
    assert p.shared([1], p.publicKey([2])) == [3] == p.shared([2], p.publicKey([1])) && p.shared([3], p.publicKey([1])) == [4];
    StandInSeparates([3], [3], Info("anonchat-rekey-v1"), []);
    StandInSeparates([3], [4], Info("anonchat-rekey-v1"), []);
    hide OpenRoomKey, SealRoomKey, PrimsOk, Separates;
    RoomKeyOpensIff(p, [1], [2], [2], [1], nonce, roomKey);
    RoomKeyOpensIff(p, [1], [2], [3], [1], nonce, roomKey);
  }
}
