/**
The base64 and base64url conversions of web/src/crypto.ts (sections 4 and 5 of
RFC 4648), with the forgiving decoder that browsers call `atob`.
*/
module Base64 {
  import opened Options
  import opened Bytes

  type Sextet = x: int | 0 <= x < 64

  /** Table 1 of RFC 4648. */
  function Digit(v: Sextet): char {
    if v < 26 then ('A' as int + v) as char
    else if v < 52 then ('a' as int + v - 26) as char
    else if v < 62 then ('0' as int + v - 52) as char
    else if v == 62 then '+'
    else '/'
  }

  function Value(c: char): Option<Sextet> {
    if 'A' <= c <= 'Z' then Some(c as int - 'A' as int)
    else if 'a' <= c <= 'z' then Some(c as int - 'a' as int + 26)
    else if '0' <= c <= '9' then Some(c as int - '0' as int + 52)
    else if c == '+' then Some(62)
    else if c == '/' then Some(63)
    else None
  }

  predicate IsSpace(c: char) {
    c == ' ' || c == '\t' || c == '\n' || c == '\r' || c as int == 12
  }

  lemma DigitValue(v: Sextet)
    ensures Value(Digit(v)) == Some(v) && Digit(v) != '=' && Digit(v) != '-' && Digit(v) != '_' && !IsSpace(Digit(v))
  {
  }

  // ----- groups of bits

  /** Three bytes are four sextets; the last group is filled up with zero bits. */
  function Sextets(b: Bytes): seq<Sextet> {
    if |b| == 0 then []
    else if |b| == 1 then [b[0] / 4, b[0] % 4 * 16]
    else if |b| == 2 then [b[0] / 4, b[0] % 4 * 16 + b[1] / 16, b[1] % 16 * 4]
    else [b[0] / 4, b[0] % 4 * 16 + b[1] / 16, b[1] % 16 * 4 + b[2] / 64, b[2] % 64] + Sextets(b[3..])
  }

  function Octet0(s0: int, s1: int): byte
    requires 0 <= s0 < 64 && 0 <= s1 < 64
  {
    s0 * 4 + s1 / 16
  }

  function Octet1(s1: int, s2: int): byte
    requires 0 <= s1 < 64 && 0 <= s2 < 64
  {
    s1 % 16 * 16 + s2 / 4
  }

  function Octet2(s2: int, s3: int): byte
    requires 0 <= s2 < 64 && 0 <= s3 < 64
  {
    s2 % 4 * 64 + s3
  }

  /** Bits left over at the end are dropped. */
  function Octets(v: seq<Sextet>): Bytes {
    if |v| < 2 then []
    else if |v| == 2 then [Octet0(v[0], v[1])]
    else if |v| == 3 then [Octet0(v[0], v[1]), Octet1(v[1], v[2])]
    else [Octet0(v[0], v[1]), Octet1(v[1], v[2]), Octet2(v[2], v[3])] + Octets(v[4..])
  }

  lemma Regroup(b0: byte, b1: byte, b2: byte)
    ensures var s0, s1, s2, s3 := b0 / 4, b0 % 4 * 16 + b1 / 16, b1 % 16 * 4 + b2 / 64, b2 % 64;
            Octet0(s0, s1) == b0 && Octet1(s1, s2) == b1 && Octet2(s2, s3) == b2
  {
  }

  lemma {:induction false} OctetsOfSextets(b: Bytes)
    ensures Octets(Sextets(b)) == b && |Sextets(b)| == (4 * |b| + 2) / 3
  {
    if |b| == 1 {
      Regroup(b[0], 0, 0);
    } else if |b| == 2 {
      Regroup(b[0], b[1], 0);
    } else if |b| >= 3 {
      Regroup(b[0], b[1], b[2]);
      OctetsOfSextets(b[3..]);
      var v := Sextets(b);
      assert v[4..] == Sextets(b[3..]);
      assert Octets(v) == [b[0], b[1], b[2]] + b[3..];
    }
  }

  // ----- text

  function Text(v: seq<Sextet>): string {
    seq(|v|, i requires 0 <= i < |v| => Digit(v[i]))
  }

  predicate AllDigits(s: string) {
    forall i :: 0 <= i < |s| ==> Value(s[i]).Some?
  }

  function Values(s: string): seq<Sextet>
    requires AllDigits(s)
  {
    seq(|s|, i requires 0 <= i < |s| => Value(s[i]).value)
  }

  function Padding(n: nat): string {
    if n % 3 == 0 then "" else if n % 3 == 1 then "==" else "="
  }

  function Encode(b: Bytes): string {
    Text(Sextets(b)) + Padding(|b|)
  }

  /** Four characters for every three bytes begun. */
  lemma EncodeLength(b: Bytes)
    ensures |Encode(b)| == 4 * ((|b| + 2) / 3)
  {
    OctetsOfSextets(b);
    hide Sextets, Octets;
  }

  function NoSpace(s: string): string {
    if s == "" then "" else if IsSpace(s[0]) then NoSpace(s[1..]) else [s[0]] + NoSpace(s[1..])
  }

  /** Padding is looked at only in texts of full length, and at most two are taken. */
  function Unpadded(s: string): string {
    if |s| % 4 != 0 || s == "" || s[|s| - 1] != '=' then s
    else if s[|s| - 2] != '=' then s[..|s| - 1]
    else s[..|s| - 2]
  }

  function Decode(s: string): Option<Bytes> {
    var t := Unpadded(NoSpace(s));
    if |t| % 4 == 1 || !AllDigits(t) then None else Some(Octets(Values(t)))
  }

  lemma {:induction false} SpacelessIsItself(s: string)
    requires forall i :: 0 <= i < |s| ==> !IsSpace(s[i])
    ensures NoSpace(s) == s
  {
    if s != "" {
      SpacelessIsItself(s[1..]);
    }
  }

  lemma TextDigits(v: seq<Sextet>)
    ensures AllDigits(Text(v)) && Values(Text(v)) == v
    ensures forall i :: 0 <= i < |v| ==> var c := Text(v)[i]; c != '=' && c != '-' && c != '_' && !IsSpace(c)
  {
    forall i | 0 <= i < |v| ensures Value(Text(v)[i]) == Some(v[i]) && var c := Text(v)[i]; c != '=' && c != '-' && c != '_' && !IsSpace(c) {
      DigitValue(v[i]);
    }
  }

  lemma UnpadText(t: string, n: nat)
    requires |t| == (4 * n + 2) / 3 && forall i :: 0 <= i < |t| ==> t[i] != '='
    ensures Unpadded(t + Padding(n)) == t && |t + Padding(n)| % 4 == 0
  {
    var s := t + Padding(n);
    assert s[..|t|] == t;
  }

  lemma UnpaddedEncoding(b: Bytes)
    ensures Unpadded(NoSpace(Encode(b))) == Text(Sextets(b))
  {
    var t := Text(Sextets(b));
    TextDigits(Sextets(b));
    OctetsOfSextets(b);
    hide Octets, Sextets, Text, Unpadded;
    SpacelessIsItself(Encode(b));
    UnpadText(t, |b|);
  }

  /** Decoding an encoding gives the bytes back, whatever their number. */
  lemma RoundTrip(b: Bytes)
    ensures Decode(Encode(b)) == Some(b)
  {
    UnpaddedEncoding(b);
    TextDigits(Sextets(b));
    OctetsOfSextets(b);
    hide Octets, Sextets, Text, Encode, NoSpace, Unpadded;
  }

  // ----- the browser's functions and the program's loops

  /** Bytes as a string of character codes, and back. */
  function Latin1(b: Bytes): string {
    seq(|b|, i requires 0 <= i < |b| => b[i] as char)
  }

  predicate IsLatin1(s: string) {
    forall i :: 0 <= i < |s| ==> s[i] as int < 256
  }

  function Codes(s: string): Bytes
    requires IsLatin1(s)
  {
    seq<byte>(|s|, i requires 0 <= i < |s| && IsLatin1(s) => s[i] as int)
  }

  function Btoa(s: string): string
    requires IsLatin1(s)
  {
    Encode(Codes(s))
  }

  function Atob(s: string): (bin: Option<string>)
    ensures bin.Some? ==> IsLatin1(bin.value)
  {
    match Decode(s)
    case None => None
    case Some(b) => Some(Latin1(b))
  }

  lemma CodesOfLatin1(b: Bytes)
    ensures IsLatin1(Latin1(b)) && Codes(Latin1(b)) == b
  {
  }

  method BytesToB64(b: Bytes) returns (s: string)
    ensures s == Encode(b)
  {
    var bin := "";
    for i := 0 to |b|
      invariant bin == Latin1(b[..i])
    {
      assert b[..i + 1] == b[..i] + [b[i]];
      bin := bin + [b[i] as char];
    }
    assert b[..|b|] == b;
    CodesOfLatin1(b);
    s := Btoa(bin);
  }

  /** `None` where `atob` throws. */
  method B64ToBytes(s: string) returns (r: Option<Bytes>)
    ensures r == Decode(s)
  {
    var bin := Atob(s);
    if bin.None? {
      return None;
    }
    var out := new byte[|bin.value|];
    for i := 0 to |bin.value|
      invariant out[..i] == Codes(bin.value)[..i]
    {
      out[i] := bin.value[i] as int;
      assert out[..i + 1] == out[..i] + [out[i]];
    }
    CodesOfLatin1(Decode(s).value);
    assert out[..] == out[..|bin.value|] == Codes(bin.value);
    return Some(out[..]);
  }

  // ----- base64url

  function Replaced(s: string, from: char, to: char): string {
    seq(|s|, i requires 0 <= i < |s| => if s[i] == from then to else s[i])
  }

  function Stripped(s: string): string {
    if s != "" && s[|s| - 1] == '=' then Stripped(s[..|s| - 1]) else s
  }

  function Repeat(c: char, n: nat): string {
    seq(n, i => c)
  }

  function Swap(s: string): string {
    Replaced(Replaced(s, '+', '-'), '/', '_')
  }

  function ToUrl(s: string): string {
    Stripped(Swap(s))
  }

  function Padded(t: string): string {
    t + if |t| % 4 == 0 then "" else Repeat('=', 4 - |t| % 4)
  }

  function FromUrl(s: string): string {
    Padded(Replaced(Replaced(s, '-', '+'), '_', '/'))
  }

  function EncodeUrl(b: Bytes): string {
    ToUrl(Encode(b))
  }

  function DecodeUrl(s: string): Option<Bytes> {
    Decode(FromUrl(s))
  }

  lemma StrippedIs(t: string, n: nat)
    requires forall i :: 0 <= i < |t| ==> t[i] != '='
    ensures Stripped(t + Padding(n)) == t
  {
    assert t + "" == t;
    assert (t + "=")[..|t|] == t && (t + "==")[..|t| + 1] == t + "=";
    assert Stripped(t) == t;
    assert Stripped(t + "=") == t;
  }

  lemma PaddedIs(t: string, n: nat)
    requires |t| == (4 * n + 2) / 3
    ensures Padded(t) == t + Padding(n)
  {
    assert Repeat('=', 1) == "=" && Repeat('=', 2) == "==";
  }

  lemma SwapBack(t: string)
    requires forall i :: 0 <= i < |t| ==> t[i] != '-' && t[i] != '_'
    ensures Replaced(Replaced(Swap(t), '-', '+'), '_', '/') == t
  {
  }

  /** Stripping the padding and putting it back by the length mod four agree. */
  lemma UrlText(b: Bytes)
    ensures EncodeUrl(b) == Swap(Text(Sextets(b))) && FromUrl(EncodeUrl(b)) == Encode(b)
  {
    var t := Text(Sextets(b));
    TextDigits(Sextets(b));
    OctetsOfSextets(b);
    hide Octets, Sextets, Text, Padded, Stripped;
    assert Swap(t + Padding(|b|)) == Swap(t) + Padding(|b|);
    StrippedIs(Swap(t), |b|);
    SwapBack(t);
    PaddedIs(t, |b|);
  }

  /** For every byte string, of any length. */
  lemma UrlRoundTrip(b: Bytes)
    ensures DecodeUrl(EncodeUrl(b)) == Some(b)
  {
    UrlText(b);
    RoundTrip(b);
  }

  /** What goes into a link: letters, digits, `-` and `_`, all below 128. */
  predicate UrlSafe(c: char) {
    'A' <= c <= 'Z' || 'a' <= c <= 'z' || '0' <= c <= '9' || c == '-' || c == '_'
  }

  lemma UrlCharacters(b: Bytes)
    ensures |EncodeUrl(b)| == (4 * |b| + 2) / 3 && forall i :: 0 <= i < |EncodeUrl(b)| ==> UrlSafe(EncodeUrl(b)[i])
  {
    UrlText(b);
    OctetsOfSextets(b);
    var v := Sextets(b);
    forall i | 0 <= i < |v| ensures UrlSafe(Swap(Text(v))[i]) {
      assert Text(v)[i] == Digit(v[i]);
    }
  }

  // ----- examples

  lemma OneGroup(a: byte, b: byte, c: byte)
    ensures Encode([a, b, c]) == [Digit(a / 4), Digit(a % 4 * 16 + b / 16), Digit(b % 16 * 4 + c / 64), Digit(c % 64)]
  {
    assert [a, b, c][3..] == [];
    var v := [a / 4, a % 4 * 16 + b / 16, b % 16 * 4 + c / 64, c % 64];
    assert Sextets([a, b, c]) == v + Sextets([]) == v;
    assert Text(v) == [Digit(v[0]), Digit(v[1]), Digit(v[2]), Digit(v[3])];
    hide Digit;
  }

  /** Characters of every kind, in both alphabets. */
  lemma Alphabets()
    ensures Encode([0, 16, 131]) == "ABCD" && Encode([105, 183, 29]) == "abcd" && Encode([211, 93, 183]) == "0123"
    ensures Encode([251, 239, 190]) == "++++" && Encode([255, 255, 255]) == "////"
    ensures EncodeUrl([251, 239, 190]) == "----" && EncodeUrl([255, 255, 255]) == "____"
  {
    OneGroup(0, 16, 131);
    OneGroup(105, 183, 29);
    OneGroup(211, 93, 183);
    OneGroup(251, 239, 190);
    OneGroup(255, 255, 255);
    hide Encode, Digit;
    SwapsBoth();
  }

  lemma SwapsBoth()
    ensures ToUrl("++++") == "----" && ToUrl("////") == "____"
  {
    assert Replaced("++++", '+', '-') == "----" && Replaced("----", '/', '_') == "----";
    assert Replaced("////", '+', '-') == "////" && Replaced("////", '/', '_') == "____";
  }

  /** The padding of the three kinds of ends, and the same without it (section 10 of RFC 4648). */
  lemma Endings()
    ensures Encode([102]) == "Zg==" && Encode([102, 111]) == "Zm8=" && Encode([102, 111, 111]) == "Zm9v"
    ensures EncodeUrl([102]) == "Zg" && EncodeUrl([102, 111]) == "Zm8"
  {
    OneGroup(102, 111, 111);
    assert Encode([102]) == [Digit(25), Digit(32)] + "==" && Encode([102, 111]) == [Digit(25), Digit(38), Digit(60)] + "=";
    assert Swap("Zg==") == "Zg==" && Swap("Zm8=") == "Zm8=";
    assert "Zg=="[..3] == "Zg=" && "Zg="[..2] == "Zg" && "Zm8="[..3] == "Zm8";
    assert Stripped("Zg=") == "Zg" && Stripped("Zg==") == "Zg" && Stripped("Zm8=") == "Zm8";
  }
}
