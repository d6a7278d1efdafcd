/** Base64 with the standard alphabet (RFC 4648, section 4) in its canonical form (section 3.5). */
module Base64 {
  import opened Base

  const PAD: char := '='

  function Digit(n: nat): (c: char)
    requires n < 64
    ensures c != PAD && Value(c) == Some(n)
  {
    if n < 26 then 'A' + n as char
    else if n < 52 then 'a' + (n - 26) as char
    else if n < 62 then '0' + (n - 52) as char
    else if n == 62 then '+' else '/'
  }

  function Value(c: char): (r: Option<nat>)
    ensures r.Some? ==> r.value < 64
  {
    if 'A' <= c <= 'Z' then Some((c - 'A') as nat)
    else if 'a' <= c <= 'z' then Some((c - 'a') as nat + 26)
    else if '0' <= c <= '9' then Some((c - '0') as nat + 52)
    else if c == '+' then Some(62)
    else if c == '/' then Some(63)
    else None
  }

  function One(a: nat): string
    requires a < 256
  {
    [Digit(a / 4), Digit(a % 4 * 16), PAD, PAD]
  }

  function Two(a: nat, b: nat): string
    requires a < 256 && b < 256
  {
    [Digit(a / 4), Digit(a % 4 * 16 + b / 16), Digit(b % 16 * 4), PAD]
  }

  function Three(a: nat, b: nat, c: nat): string
    requires a < 256 && b < 256 && c < 256
  {
    [Digit(a / 4), Digit(a % 4 * 16 + b / 16), Digit(b % 16 * 4 + c / 64), Digit(c % 64)]
  }

  function Encode(data: Bytes): string {
    match |data|
    case 0 => ""
    case 1 => One(data[0] as nat)
    case 2 => Two(data[0] as nat, data[1] as nat)
    case _ => Three(data[0] as nat, data[1] as nat, data[2] as nat) + Encode(data[3..])
  }

  function Quartet(s: string): Option<Bytes>
    requires |s| == 4
  {
    match (Value(s[0]), Value(s[1]), Value(s[2]), Value(s[3]))
    case (Some(a), Some(b), Some(c), Some(d)) =>
      Some([(a * 4 + b / 16) as byte, (b % 16 * 16 + c / 4) as byte, (c % 4 * 64 + d) as byte])
    case _ => None
  }

  /** The closing group, with or without padding; bits beyond the last byte are ignored here. */
  function LastQuartet(s: string): Option<Bytes>
    requires |s| == 4
  {
    match (Value(s[0]), Value(s[1]), Value(s[2]))
    case (Some(a), Some(b), None) =>
      if s[2..] == [PAD, PAD] then Some([(a * 4 + b / 16) as byte]) else None
    case (Some(a), Some(b), Some(c)) =>
      if s[3] == PAD then Some([(a * 4 + b / 16) as byte, (b % 16 * 16 + c / 4) as byte]) else Quartet(s)
    case _ => None
  }

  function Decode(s: string): Option<Bytes> {
    if s == "" then Some([])
    else if |s| < 4 then None
    else if |s| == 4 then LastQuartet(s)
    else
      match (Quartet(s[..4]), Decode(s[4..]))
      case (Some(head), Some(tail)) => Some(head + tail)
      case _ => None
  }

  /** The decoder of the content field: decode, encode again, compare. */
  function DecodeCanonical(s: string): Option<Bytes> {
    match Decode(s)
    case Some(data) => if Encode(data) == s then Some(data) else None
    case None => None
  }

  lemma Bits(a: nat, b: nat, c: nat)
    requires a < 256 && b < 256 && c < 256
    ensures a / 4 * 4 + (a % 4 * 16 + b / 16) / 16 == a
    ensures (a % 4 * 16 + b / 16) % 16 * 16 + (b % 16 * 4 + c / 64) / 4 == b
    ensures (b % 16 * 4 + c / 64) % 4 * 64 + c % 64 == c
  {
  }

  lemma QuartetOf(s: string, a: nat, b: nat, c: nat, d: nat)
    requires |s| == 4 && a < 64 && b < 64 && c < 64 && d < 64
    requires s[0] == Digit(a) && s[1] == Digit(b) && s[2] == Digit(c) && s[3] == Digit(d)
    ensures Quartet(s) == Some([(a * 4 + b / 16) as byte, (b % 16 * 16 + c / 4) as byte, (c % 4 * 64 + d) as byte])
    ensures LastQuartet(s) == Quartet(s)
  {
  }

  lemma ThreeBack(a: nat, b: nat, c: nat)
    requires a < 256 && b < 256 && c < 256
    ensures Quartet(Three(a, b, c)) == Some([a as byte, b as byte, c as byte])
    ensures LastQuartet(Three(a, b, c)) == Some([a as byte, b as byte, c as byte])
  {
    Bits(a, b, c);
    QuartetOf(Three(a, b, c), a / 4, a % 4 * 16 + b / 16, b % 16 * 4 + c / 64, c % 64);
  }

  lemma OneTwoBack(a: nat, b: nat)
    requires a < 256 && b < 256
    ensures LastQuartet(One(a)) == Some([a as byte])
    ensures LastQuartet(Two(a, b)) == Some([a as byte, b as byte])
  {
    Bits(a, b, 0);
    assert One(a)[2..] == [PAD, PAD];
  }

  lemma EncodeSome(data: Bytes)
    requires data != []
    ensures |Encode(data)| >= 4
  {
  }

  lemma DecodeGroup(group: string, rest: string)
    requires |group| == 4 && rest != "" && Quartet(group).Some? && Decode(rest).Some?
    ensures Decode(group + rest) == Some(Quartet(group).value + Decode(rest).value)
  {
    assert (group + rest)[..4] == group && (group + rest)[4..] == rest;
  }

  lemma DecodeFour(s: string)
    requires |s| == 4
    ensures Decode(s) == LastQuartet(s)
  {
  }

  lemma EncodeThree(data: Bytes)
    requires |data| == 3
    ensures Encode(data) == Three(data[0] as nat, data[1] as nat, data[2] as nat)
  {
    assert data[3..] == [] && Encode([]) == "";
  }

  lemma EncodeOne(data: Bytes)
    requires |data| == 1
    ensures Encode(data) == One(data[0] as nat)
  {
  }

  lemma EncodeTwo(data: Bytes)
    requires |data| == 2
    ensures Encode(data) == Two(data[0] as nat, data[1] as nat)
  {
  }

  lemma OneShort(data: Bytes)
    requires |data| == 1
    ensures |Encode(data)| == 4 && LastQuartet(Encode(data)) == Some(data)
  {
    EncodeOne(data);
    OneTwoBack(data[0] as nat, 0);
    assert data == [data[0]];
  }

  lemma TwoShort(data: Bytes)
    requires |data| == 2
    ensures |Encode(data)| == 4 && LastQuartet(Encode(data)) == Some(data)
  {
    EncodeTwo(data);
    OneTwoBack(data[0] as nat, data[1] as nat);
    assert data == [data[0], data[1]];
  }

  lemma ThreeShort(data: Bytes)
    requires |data| == 3
    ensures |Encode(data)| == 4 && LastQuartet(Encode(data)) == Some(data)
  {
    EncodeThree(data);
    ThreeBack(data[0] as nat, data[1] as nat, data[2] as nat);
    assert data == [data[0], data[1], data[2]];
  }

  lemma EncodeShort(data: Bytes)
    requires 1 <= |data| <= 3
    ensures |Encode(data)| == 4 && LastQuartet(Encode(data)) == Some(data)
  {
    if |data| == 1 {
      OneShort(data);
    } else if |data| == 2 {
      TwoShort(data);
    } else {
      ThreeShort(data);
    }
  }

  /** Decoding undoes encoding. */
  lemma {:induction false} DecodeEncode(data: Bytes)
    ensures Decode(Encode(data)) == Some(data)
    decreases |data|
  {
    if 1 <= |data| <= 3 {
      EncodeShort(data);
      DecodeFour(Encode(data));
    } else if |data| > 3 {
      ThreeBack(data[0] as nat, data[1] as nat, data[2] as nat);
      DecodeEncode(data[3..]);
      EncodeSome(data[3..]);
      DecodeGroup(Three(data[0] as nat, data[1] as nat, data[2] as nat), Encode(data[3..]));
      assert data == [data[0], data[1], data[2]] + data[3..];
    }
  }

  /** Bytes and accepted strings correspond one to one: every byte string has exactly one accepted
      spelling, and a string is accepted exactly when it is such a spelling. */
  lemma CanonicalBijection(data: Bytes, s: string)
    ensures DecodeCanonical(s) == Some(data) <==> s == Encode(data)
  {
    DecodeEncode(data);
  }

  /** The alphabet of section 4: the letters, upper case first, then the figures, plus and slash, by their codes. */
  lemma AlphabetOrder(n: nat)
    requires n < 64
    ensures var code := Digit(n) as int;
      if n < 26 then code == 65 + n else if n < 52 then code == 71 + n else if n < 62 then code == n - 4
      else if n == 62 then code == 43 else code == 47
  {
  }

  lemma ThreeBits(x: nat, y: nat, z: nat)
    requires x < 256 && y < 256 && z < 256
    ensures 262144 * (x / 4) + 4096 * (x % 4 * 16 + y / 16) + 64 * (y % 16 * 4 + z / 64) + z % 64 == 65536 * x + 256 * y + z
  {
  }

  /** The values of the first `n` digits of a string. */
  predicate HasDigits(s: string, n: nat) {
    n <= |s| && forall i :: 0 <= i < n ==> Value(s[i]).Some?
  }

  function At(s: string, i: nat): nat
    requires i < |s| && Value(s[i]).Some?
  {
    Value(s[i]).value
  }

  lemma FourBits(x: nat, y: nat, z: nat)
    requires x < 256 && y < 256 && z < 256
    ensures var s := Three(x, y, z);
      HasDigits(s, 4) && 262144 * At(s, 0) + 4096 * At(s, 1) + 64 * At(s, 2) + At(s, 3) == 65536 * x + 256 * y + z
  {
    ThreeBits(x, y, z);
  }

  /** The four digits of a group are the 24 bits of its three bytes, and the rest is encoded behind them. */
  lemma GroupBits(data: Bytes)
    requires |data| >= 3
    ensures var s := Encode(data);
      && HasDigits(s, 4) && s[4..] == Encode(data[3..])
      && 262144 * At(s, 0) + 4096 * At(s, 1) + 64 * At(s, 2) + At(s, 3)
         == 65536 * (data[0] as int) + 256 * (data[1] as int) + (data[2] as int)
  {
    var four := Three(data[0] as nat, data[1] as nat, data[2] as nat);
    FourBits(data[0] as nat, data[1] as nat, data[2] as nat);
    assert Encode(data) == four + Encode(data[3..]);
    assert forall i :: 0 <= i < 4 ==> Encode(data)[i] == four[i];
  }

  /** One or two closing bytes: their bits, then zeros up to a whole digit, then padding. */
  lemma ClosingBits(data: Bytes)
    requires 1 <= |data| <= 2
    ensures var s := Encode(data);
      && |s| == 4 && s[3] == PAD && HasDigits(s, 2)
      && if |data| == 1 then s[2] == PAD && 64 * At(s, 0) + At(s, 1) == 16 * (data[0] as int)
         else HasDigits(s, 3) && 4096 * At(s, 0) + 64 * At(s, 1) + At(s, 2) == 1024 * (data[0] as int) + 4 * (data[1] as int)
  {
  }

  /** Leftover bits must be zero: "QQ==" is the only accepted spelling of the byte 65, although "QR==" decodes to it. */
  lemma LooseBitsRejected()
    ensures Decode("QR==") == Decode("QQ==") == Some([65])
    ensures DecodeCanonical("QQ==") == Some([65]) && DecodeCanonical("QR==") == None
  {
    assert "QR=="[2..] == [PAD, PAD] && "QQ=="[2..] == [PAD, PAD];
    assert Encode([65]) == One(65);
    assert Digit(16) == 'Q';
    assert Encode([65]) == "QQ==";
  }
}
