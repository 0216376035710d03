/** UTF-8 over scalar values (section 3 of RFC 3629): encoding, strict decoding,
    and where the character boundaries of an encoded text are. */
module Utf8 {
  import opened Wrappers

  type Byte = x: int | 0 <= x < 256

  type Bytes = seq<Byte>

  predicate Scalar(n: int) {
    0 <= n < 0xD800 || 0xE000 <= n < 0x11_0000
  }

  function EncodeScalar(n: int): (b: Bytes)
    requires Scalar(n)
    ensures 1 <= |b| <= 4
  {
    if n < 0x80 then [n]
    else if n < 0x800 then [0xC0 + n / 64, 0x80 + n % 64]
    else if n < 0x1_0000 then [0xE0 + n / 4096, 0x80 + n / 64 % 64, 0x80 + n % 64]
    else [0xF0 + n / 262144, 0x80 + n / 4096 % 64, 0x80 + n / 64 % 64, 0x80 + n % 64]
  }

  function EncodeChar(c: char): (b: Bytes)
    ensures 1 <= |b| <= 4
  {
    EncodeScalar(c as int)
  }

  function Encode(s: string): Bytes {
    if s == [] then [] else EncodeChar(s[0]) + Encode(s[1..])
  }

  predicate Continuation(b: Byte) {
    0x80 <= b < 0xC0
  }

  /** Six payload bits of a continuation byte. */
  function Payload(b: Byte): (n: int)
    requires Continuation(b)
    ensures 0 <= n < 64
  {
    b - 0x80
  }

  /** The scalar value at the front of `b` and the bytes it takes. Overlong
      forms, surrogates and values past the last scalar are refused. */
  function DecodeScalar(b: Bytes): Option<(int, nat)>
    requires b != []
  {
    var lead: int := b[0];
    if lead < 0x80 then
      Some((lead, 1))
    else if 0xC2 <= lead < 0xE0 && |b| >= 2 && Continuation(b[1]) then
      Some(((lead - 0xC0) * 64 + Payload(b[1]), 2))
    else if 0xE0 <= lead < 0xF0 && |b| >= 3 && Continuation(b[1]) && Continuation(b[2]) then
      var n := (lead - 0xE0) * 4096 + Payload(b[1]) * 64 + Payload(b[2]);
      if n >= 0x800 && Scalar(n) then Some((n, 3)) else None
    else if 0xF0 <= lead < 0xF5 && |b| >= 4 && Continuation(b[1]) && Continuation(b[2]) && Continuation(b[3]) then
      var n := (lead - 0xF0) * 262144 + Payload(b[1]) * 4096 + Payload(b[2]) * 64 + Payload(b[3]);
      if n >= 0x1_0000 && Scalar(n) then Some((n, 4)) else None
    else
      None
  }

  lemma Digits2(hi: int, lo: int)
    requires 0 <= hi && 0 <= lo < 64
    ensures (hi * 64 + lo) / 64 == hi && (hi * 64 + lo) % 64 == lo
  {
  }

  lemma Digits3(hi: int, mid: int, lo: int)
    requires 0 <= hi && 0 <= mid < 64 && 0 <= lo < 64
    ensures var n := hi * 4096 + mid * 64 + lo; n / 4096 == hi && n / 64 % 64 == mid && n % 64 == lo
  {
  }

  lemma Digits4(hi: int, upper: int, mid: int, lo: int)
    requires 0 <= hi && 0 <= upper < 64 && 0 <= mid < 64 && 0 <= lo < 64
    ensures var n := hi * 262144 + upper * 4096 + mid * 64 + lo;
      n / 262144 == hi && n / 4096 % 64 == upper && n / 64 % 64 == mid && n % 64 == lo
  {
    Digits3(hi, upper, mid);
    Digits2(hi * 4096 + upper * 64 + mid, lo);
    var n := hi * 262144 + upper * 4096 + mid * 64 + lo;
    assert n / 262144 == n / 64 / 4096 && n / 4096 == n / 64 / 64;
  }

  lemma DecodedScalar(b: Bytes)
    requires b != [] && DecodeScalar(b).Some?
    ensures var (n, k) := DecodeScalar(b).value; Scalar(n) && 1 <= k <= |b| && EncodeScalar(n) == b[..k]
  {
    var lead: int := b[0];
    if 0xC2 <= lead < 0xE0 {
      Digits2(lead - 0xC0, Payload(b[1]));
    } else if 0xE0 <= lead < 0xF0 {
      Digits3(lead - 0xE0, Payload(b[1]), Payload(b[2]));
    } else if 0xF0 <= lead {
      Digits4(lead - 0xF0, Payload(b[1]), Payload(b[2]), Payload(b[3]));
    }
  }

  lemma EncodedScalar(n: int, rest: Bytes)
    requires Scalar(n)
    ensures DecodeScalar(EncodeScalar(n) + rest) == Some((n, |EncodeScalar(n)|))
  {
    var e := EncodeScalar(n);
    var b := e + rest;
    assert forall i :: 0 <= i < |e| ==> b[i] == e[i];
    var hi, mid := n / 4096, n / 64;
    assert n == mid * 64 + n % 64 && mid == hi * 64 + mid % 64 && hi == n / 262144 * 64 + hi % 64;
  }

  /** The character at the front of `b` and the bytes it takes. */
  function DecodeOne(b: Bytes): Option<(char, nat)>
    requires b != []
  {
    match DecodeScalar(b)
    case None => None
    case Some((n, k)) => if Scalar(n) then Some((n as char, k)) else None
  }

  function Decode(b: Bytes): Option<string>
    decreases |b|
  {
    if b == [] then Some([])
    else
      match DecodeOne(b)
      case None => None
      case Some((c, n)) =>
        if n > |b| || n == 0 then None
        else
          match Decode(b[n..])
          case None => None
          case Some(rest) => Some([c] + rest)
  }

  lemma DecodeOneOfEncoded(c: char, rest: Bytes)
    ensures DecodeOne(EncodeChar(c) + rest) == Some((c, |EncodeChar(c)|))
  {
    EncodedScalar(c as int, rest);
  }

  lemma EncodeDecodedOne(b: Bytes)
    requires b != [] && DecodeOne(b).Some?
    ensures var (c, n) := DecodeOne(b).value; 1 <= n <= |b| && EncodeChar(c) == b[..n]
  {
    DecodedScalar(b);
  }

  /** Decoding recovers every encoded text. */
  lemma {:induction false} DecodeEncode(s: string)
    ensures Decode(Encode(s)) == Some(s)
  {
    if s == [] {
    } else {
      var b, n := Encode(s), |EncodeChar(s[0])|;
      DecodeOneOfEncoded(s[0], Encode(s[1..]));
      assert b[n..] == Encode(s[1..]);
      DecodeEncode(s[1..]);
      assert s == [s[0]] + s[1..];
    }
  }

  /** Decoding accepts nothing but encoded texts. */
  lemma {:induction false} EncodeDecode(b: Bytes)
    requires Decode(b).Some?
    ensures Encode(Decode(b).value) == b
    decreases |b|
  {
    if b == [] {
    } else {
      var (c, n) := DecodeOne(b).value;
      EncodeDecodedOne(b);
      EncodeDecode(b[n..]);
      var rest := Decode(b[n..]).value;
      assert ([c] + rest)[1..] == rest;
      assert b == b[..n] + b[n..];
    }
  }

  lemma {:induction false} EncodeConcat(a: string, b: string)
    ensures Encode(a + b) == Encode(a) + Encode(b)
  {
    if a == [] {
      assert a + b == b;
    } else {
      EncodeConcat(a[1..], b);
      assert (a + b)[1..] == a[1..] + b;
      ConcatAssociative(EncodeChar(a[0]), Encode(a[1..]), Encode(b));
    }
  }

  // ------------------------------------------------------------ boundaries

  /** The test a byte-indexed string makes before it is cut at `i`. */
  predicate IsBoundary(b: Bytes, i: nat) {
    i == 0 || i == |b| || (i < |b| && !Continuation(b[i]))
  }

  /** The encoded length of the first `k` characters. */
  function Offset(s: string, k: nat): nat
    requires k <= |s|
  {
    |Encode(s[..k])|
  }

  lemma EncodedCharShape(c: char)
    ensures !Continuation(EncodeChar(c)[0])
    ensures forall i :: 1 <= i < |EncodeChar(c)| ==> Continuation(EncodeChar(c)[i])
  {
  }

  lemma OffsetStep(s: string, k: nat)
    requires 0 < k <= |s|
    ensures Offset(s, k) == |EncodeChar(s[0])| + Offset(s[1..], k - 1)
  {
    assert s[..k][1..] == s[1..][..k - 1];
  }

  /** A boundary past the first character is one of the text after it. */
  lemma PastFirst(s: string, i: nat)
    requires s != [] && 0 < i && IsBoundary(Encode(s), i)
    ensures var n := |EncodeChar(s[0])|; n <= i && IsBoundary(Encode(s[1..]), i - n)
  {
  }

  lemma OffsetCuts(s: string, k: nat)
    requires k <= |s|
    ensures var b, i := Encode(s), Offset(s, k);
      i <= |b| && b[..i] == Encode(s[..k]) && b[i..] == Encode(s[k..])
  {
    var u, v := s[..k], s[k..];
    assert s == u + v;
    EncodeConcat(u, v);
    assert (Encode(u) + Encode(v))[..|Encode(u)|] == Encode(u);
    assert (Encode(u) + Encode(v))[|Encode(u)|..] == Encode(v);
  }

  /** A cut position is a boundary exactly when it is the offset of a character,
      and cutting there cuts the text. */
  lemma {:induction false} BoundaryIsOffset(s: string, i: nat) returns (k: nat)
    requires IsBoundary(Encode(s), i)
    ensures k <= |s| && i == Offset(s, k)
    ensures i <= |Encode(s)| && Encode(s)[..i] == Encode(s[..k]) && Encode(s)[i..] == Encode(s[k..])
  {
    k := 0;
    if 0 < i && s != [] {
      PastFirst(s, i);
      k := BoundaryIsOffset(s[1..], i - |EncodeChar(s[0])|);
      k := k + 1;
      OffsetStep(s, k);
    }
    OffsetCuts(s, k);
  }

  lemma {:induction false} OffsetIsBoundary(s: string, k: nat)
    requires k <= |s|
    ensures IsBoundary(Encode(s), Offset(s, k))
    ensures k < |s| ==> Offset(s, k) < |Encode(s)| && Offset(s, k + 1) == Offset(s, k) + |EncodeChar(s[k])|
  {
    EncodeConcat(s[..k], s[k..]);
    assert s == s[..k] + s[k..];
    if k < |s| {
      assert Encode(s[k..]) == EncodeChar(s[k]) + Encode(s[k..][1..]);
      EncodedCharShape(s[k]);
      assert Encode(s)[Offset(s, k)] == EncodeChar(s[k])[0];
      EncodeConcat(s[..k], [s[k]]);
      assert s[..k + 1] == s[..k] + [s[k]] && [s[k]][1..] == [];
      assert Encode([s[k]]) == EncodeChar(s[k]) + [];
    } else {
      assert s[..k] == s;
    }
  }

  lemma OffsetMonotone(s: string, j: nat, k: nat)
    requires j <= k <= |s|
    ensures Offset(s, k) >= Offset(s, j) + (k - j)
    decreases k - j
  {
    if j < k {
      OffsetMonotone(s, j, k - 1);
      OffsetIsBoundary(s, k - 1);
    }
  }

  /** A piece that decodes on its own and ends a text that decodes is the end
      of the decoded text. */
  lemma DecodeEnd(s: string, i: nat, t: string) returns (k: nat)
    requires i <= |Encode(s)| && Decode(Encode(s)[i..]) == Some(t)
    ensures k <= |s| && i == Offset(s, k) && t == s[k..]
  {
    var b := Encode(s);
    EncodeDecode(b[i..]);
    if i < |b| {
      assert Encode(t) == b[i..] && t != [];
      EncodedCharShape(t[0]);
      assert b[i] == EncodeChar(t[0])[0];
    }
    k := BoundaryIsOffset(s, i);
    DecodeEncode(t);
    DecodeEncode(s[k..]);
  }

  /** A text whose bytes begin another's begins it. */
  lemma {:induction false} EncodePrefix(u: string, s: string)
    requires Encode(u) <= Encode(s)
    ensures u <= s
  {
    if u == [] {
    } else {
      var n := |EncodeChar(u[0])|;
      assert Encode(s) == EncodeChar(u[0]) + Encode(s)[n..];
      DecodeOneOfEncoded(u[0], Encode(s)[n..]);
      assert s != [];
      DecodeOneOfEncoded(s[0], Encode(s[1..]));
      assert Encode(u)[n..] == Encode(u[1..]) && Encode(s)[n..] == Encode(s[1..]);
      EncodePrefix(u[1..], s[1..]);
      assert u == [u[0]] + u[1..] && s == [s[0]] + s[1..];
    }
  }

  /** A piece that starts inside a character does not decode. */
  lemma MidCharacterFails(b: Bytes)
    requires b != [] && Continuation(b[0])
    ensures Decode(b) == None
  {
  }

  const NEWLINE: Byte := 10

  lemma NewlineByte(c: char)
    ensures forall i :: 0 <= i < |EncodeChar(c)| && EncodeChar(c)[i] == NEWLINE ==> c == '\n' && |EncodeChar(c)| == 1
    ensures c == '\n' ==> EncodeChar(c) == [NEWLINE]
  {
  }

  /** After a newline byte a character starts. */
  lemma AfterNewline(s: string, i: nat) returns (k: nat)
    requires 0 < i <= |Encode(s)| && Encode(s)[i - 1] == NEWLINE
    ensures 0 < k <= |s| && i == Offset(s, k) && s[k - 1] == '\n'
  {
    k := BoundaryIsOffset(s, i - 1);
    OffsetIsBoundary(s, k);
    assert s[..|s|] == s;
    assert k < |s|;
    EncodeConcat(s[..k], s[k..]);
    assert s == s[..k] + s[k..] && Encode(s[k..]) == EncodeChar(s[k]) + Encode(s[k..][1..]);
    assert Encode(s)[i - 1] == EncodeChar(s[k])[0];
    NewlineByte(s[k]);
    k := k + 1;
  }
}
