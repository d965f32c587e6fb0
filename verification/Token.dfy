/** Access tokens with a checksum, in padded base 62 (gitdot-core/src/client/token.rs:23-25, 120-123, 165-218). */
module Token {
  import opened Wrappers
  import opened Positional

  const BODY_HALF_LEN: nat := 22
  const BODY_LEN: nat := 44
  const CHECKSUM_LEN: nat := 6
  const U128: nat := 0x1_0000_0000_0000_0000_0000_0000_0000_0000
  const U32: nat := 0x1_0000_0000

  /** A Rust string of ASCII characters, which has as many bytes as characters. */
  type AsciiString = s: string | forall i | 0 <= i < |s| :: s[i] as int < 128

  datatype TokenType = Personal | Runner {
    function Prefix(): AsciiString {
      match this
      case Personal => "gdp_"
      case Runner => "gdr_"
    }
  }

  // ---------- Base 62 ----------

  function Char(digit: nat): (c: char)
    requires digit < 62
    ensures c as int < 128
  {
    if digit < 10 then '0' + digit as char
    else if digit < 36 then 'A' + (digit - 10) as char
    else 'a' + (digit - 36) as char
  }

  function DigitOf(c: char): (r: Option<nat>)
    ensures r.Some? ==> r.value < 62 && Char(r.value) == c
  {
    if '0' <= c <= '9' then Some(c as nat - '0' as nat)
    else if 'A' <= c <= 'Z' then Some(c as nat - 'A' as nat + 10)
    else if 'a' <= c <= 'z' then Some(c as nat - 'a' as nat + 36)
    else None
  }

  predicate IsBase62(s: string) {
    forall i | 0 <= i < |s| :: DigitOf(s[i]).Some?
  }

  function Chars(digits: seq<nat>): (s: AsciiString)
    requires AreDigits(62, digits)
    ensures |s| == |digits| && forall i | 0 <= i < |s| :: s[i] == Char(digits[i])
  {
    seq(|digits|, i requires 0 <= i < |digits| => Char(digits[i]))
  }

  function DigitsOf(s: string): (digits: seq<nat>)
    requires IsBase62(s)
    ensures |digits| == |s| && AreDigits(62, digits) && Chars(digits) == s
  {
    seq(|s|, i requires 0 <= i < |s| => DigitOf(s[i]).value)
  }

  lemma DigitOfChar(digit: nat)
    requires digit < 62
    ensures DigitOf(Char(digit)) == Some(digit)
  {}

  /** `base62::encode`: no leading zeros. */
  function Encode(value: nat): AsciiString {
    if value < 62 then [Char(value)] else Encode(value / 62) + [Char(value % 62)]
  }

  function Zeros(n: nat): (s: AsciiString)
    ensures |s| == n && forall i | 0 <= i < n :: s[i] == '0'
  {
    seq(n, _ => '0')
  }

  function EncodePadded(value: nat, width: nat): AsciiString {
    var encoded := Encode(value);
    Zeros(if |encoded| < width then width - |encoded| else 0) + encoded
  }

  /** `base62::decode`: empty input, foreign characters and values beyond 128 bits are errors. */
  function Decode(s: AsciiString): Option<nat> {
    if s == "" || !IsBase62(s) then None
    else
      var value := Value(62, DigitsOf(s), |s|);
      if value < U128 then Some(value) else None
  }

  lemma {:induction false} DigitsOfZero(width: nat)
    ensures Digits(62, width, 0) == seq(width, _ => 0)
  {
    if width > 0 {
      DigitsOfZero(width - 1);
      assert seq(width, _ => 0) == seq(width - 1, _ => 0) + [0];
    }
  }

  /** Padding with the digit for zero writes the value with all its leading zeros. */
  lemma {:induction false} PaddedIsDigits(value: nat, width: nat)
    requires width > 0 && value < Power(62, width)
    ensures EncodePadded(value, width) == Chars(Digits(62, width, value))
  {
    if value < 62 {
      assert value / 62 == 0 && value % 62 == value;
      DigitsOfZero(width - 1);
    } else {
      assert width > 1 by {
        assert Power(62, 1) == 62;
      }
      DivideBound(62, value, Power(62, width - 1));
      PaddedIsDigits(value / 62, width - 1);
    }
  }

  lemma DecodePadded(value: nat, width: nat)
    requires width > 0 && value < Power(62, width) && value < U128
    ensures Decode(EncodePadded(value, width)) == Some(value)
  {
    PaddedIsDigits(value, width);
    var digits := Digits(62, width, value);
    forall i | 0 <= i < width ensures DigitOf(Chars(digits)[i]) == Some(digits[i]) {
      DigitOfChar(digits[i]);
    }
    assert DigitsOf(Chars(digits)) == digits;
    ValueOfDigits(62, width, value);
  }

  lemma PaddedDecode(s: AsciiString)
    requires Decode(s).Some?
    ensures Decode(s).value < Power(62, |s|) && EncodePadded(Decode(s).value, |s|) == s
  {
    var digits := DigitsOf(s);
    DigitsOfValue(62, digits, |s|);
    assert digits[..|s|] == digits;
    PaddedIsDigits(Decode(s).value, |s|);
  }

  // ---------- Widths ----------

  lemma WidthsSuffice()
    ensures U128 <= Power(62, BODY_HALF_LEN) && U32 <= Power(62, CHECKSUM_LEN)
    ensures Power(256, 16) == U128 && U32 < U128
  {
    assert Power(62, 11) == 52036560683837093888 by {
      assert Power(62, 5) == 916132832;
      PowerAdd(62, 5, 5);
    }
    PowerAdd(62, 11, 11);
    assert Power(256, 8) == 18446744073709551616 by {
      assert Power(256, 4) == 4294967296;
      PowerAdd(256, 4, 4);
    }
    PowerAdd(256, 8, 8);
    assert Power(62, 6) == 62 * Power(62, 5);
  }

  // ---------- Tokens ----------

  predicate IsSeed(seed: seq<nat>) {
    |seed| == 32 && AreDigits(256, seed)
  }

  /** `u128::from_be_bytes` of one half of the random bytes. */
  function Half(seed: seq<nat>, from: nat): (v: nat)
    requires IsSeed(seed) && from <= 16
    ensures v < U128
  {
    DigitsOfValue(256, seed[from..from + 16], 16);
    WidthsSuffice();
    Value(256, seed[from..from + 16], 16)
  }

  ghost predicate IsChecksum(crc: seq<nat> -> nat) {
    forall bytes :: crc(bytes) < U32
  }

  /** The token made from 32 random bytes; `crc` stands for the CRC32 of the bytes. */
  function Generate(crc: seq<nat> -> nat, tokenType: TokenType, seed: seq<nat>): AsciiString
    requires IsSeed(seed)
  {
    PrefixAndBody(tokenType, seed) + EncodePadded(crc(seed), CHECKSUM_LEN)
  }

  function PrefixAndBody(tokenType: TokenType, seed: seq<nat>): AsciiString
    requires IsSeed(seed)
  {
    tokenType.Prefix() + EncodePadded(Half(seed, 0), BODY_HALF_LEN) + EncodePadded(Half(seed, 16), BODY_HALF_LEN)
  }

  /** The token was made from some bytes. */
  ghost predicate IsGenuine(crc: seq<nat> -> nat, token: AsciiString) {
    exists tokenType, seed :: IsSeed(seed) && token == Generate(crc, tokenType, seed)
  }

  lemma CutJoined(a: string, b: string, c: string, d: string)
    requires |a| == 4 && |b| == BODY_HALF_LEN && |c| == BODY_HALF_LEN
    ensures var s := a + b + c + d; s[..4] == a && s[4..26] == b && s[26..48] == c && s[48..] == d
  {}

  lemma JoinCut(s: string)
    requires |s| == 4 + BODY_LEN + CHECKSUM_LEN
    ensures s == s[..4] + s[4..26] + s[26..48] + s[48..]
    ensures s[4..][..BODY_LEN][..BODY_HALF_LEN] == s[4..26] && s[4..][..BODY_LEN][BODY_HALF_LEN..] == s[26..48]
    ensures s[4..][BODY_LEN..] == s[48..]
  {}

  lemma PartsOf(tokenType: TokenType, seed: seq<nat>, checksum: AsciiString)
    requires IsSeed(seed)
    ensures var token := PrefixAndBody(tokenType, seed) + checksum;
            && |token| == 4 + BODY_LEN + |checksum| && token[..4] == tokenType.Prefix() && token[48..] == checksum
            && Decode(token[4..26]) == Some(Half(seed, 0)) && Decode(token[26..48]) == Some(Half(seed, 16))
  {
    WidthsSuffice();
    var hi, lo := Half(seed, 0), Half(seed, 16);
    DecodePadded(hi, BODY_HALF_LEN);
    DecodePadded(lo, BODY_HALF_LEN);
    PaddedIsDigits(hi, BODY_HALF_LEN);
    PaddedIsDigits(lo, BODY_HALF_LEN);
    CutJoined(tokenType.Prefix(), EncodePadded(hi, BODY_HALF_LEN), EncodePadded(lo, BODY_HALF_LEN), checksum);
  }

  lemma ChecksumPart(sum: nat)
    requires sum < U32
    ensures |EncodePadded(sum, CHECKSUM_LEN)| == CHECKSUM_LEN && Decode(EncodePadded(sum, CHECKSUM_LEN)) == Some(sum)
  {
    WidthsSuffice();
    DecodePadded(sum, CHECKSUM_LEN);
    PaddedIsDigits(sum, CHECKSUM_LEN);
  }

  /** Seeds are known by their halves. */
  lemma HalvesDetermineSeed(seed: seq<nat>)
    requires IsSeed(seed)
    ensures Digits(256, 16, Half(seed, 0)) + Digits(256, 16, Half(seed, 16)) == seed
  {
    DigitsOfValue(256, seed[0..16], 16);
    DigitsOfValue(256, seed[16..32], 16);
    assert seed[0..16] + seed[16..32] == seed;
  }

  lemma SeedOfHalves(hi: nat, lo: nat)
    requires hi < U128 && lo < U128
    ensures var seed := Digits(256, 16, hi) + Digits(256, 16, lo);
            IsSeed(seed) && Half(seed, 0) == hi && Half(seed, 16) == lo
  {
    WidthsSuffice();
    var seed := Digits(256, 16, hi) + Digits(256, 16, lo);
    ValueOfDigits(256, 16, hi);
    ValueOfDigits(256, 16, lo);
    assert seed[0..16] == Digits(256, 16, hi) && seed[16..32] == Digits(256, 16, lo);
  }

  /** A token with a known prefix whose parts decode and whose checksum fits was made from the bytes they decode to. */
  lemma PartsMakeToken(crc: seq<nat> -> nat, tokenType: TokenType, token: AsciiString)
    requires |token| == 4 + BODY_LEN + CHECKSUM_LEN && token[..4] == tokenType.Prefix()
    requires Decode(token[4..26]).Some? && Decode(token[26..48]).Some?
    requires var seed := Digits(256, 16, Decode(token[4..26]).value) + Digits(256, 16, Decode(token[26..48]).value);
             Decode(token[48..]) == Some(crc(seed))
    ensures IsGenuine(crc, token)
  {
    var hi, lo := Decode(token[4..26]).value, Decode(token[26..48]).value;
    var seed := Digits(256, 16, hi) + Digits(256, 16, lo);
    SeedOfHalves(hi, lo);
    PaddedDecode(token[4..26]);
    PaddedDecode(token[26..48]);
    PaddedDecode(token[48..]);
    JoinCut(token);
    assert token == Generate(crc, tokenType, seed);
  }

  /** What a token decodes to when its checksum fits. */
  function Parse(crc: seq<nat> -> nat, token: AsciiString): Option<seq<nat>> {
    if |token| != 4 + BODY_LEN + CHECKSUM_LEN || token[..4] !in {Personal.Prefix(), Runner.Prefix()} then None
    else
      match (Decode(token[4..26]), Decode(token[26..48]), Decode(token[48..]))
      case (Some(hi), Some(lo), Some(sum)) =>
        var seed := Digits(256, 16, hi) + Digits(256, 16, lo);
        if crc(seed) == sum then Some(seed) else None
      case _ => None
  }

  /** Exactly the strings that `Generate` makes parse, each to the bytes it was made from. */
  lemma ParseInvertsGenerate(crc: seq<nat> -> nat, token: AsciiString)
    requires IsChecksum(crc)
    ensures Parse(crc, token).Some? <==> IsGenuine(crc, token)
    ensures forall tokenType, seed | IsSeed(seed) && token == Generate(crc, tokenType, seed) ::
      Parse(crc, token) == Some(seed)
  {
    forall tokenType, seed | IsSeed(seed) && token == Generate(crc, tokenType, seed)
      ensures Parse(crc, token) == Some(seed)
    {
      PartsOf(tokenType, seed, EncodePadded(crc(seed), CHECKSUM_LEN));
      ChecksumPart(crc(seed));
      HalvesDetermineSeed(seed);
    }
    if Parse(crc, token).Some? {
      PartsMakeToken(crc, if token[..4] == Personal.Prefix() then Personal else Runner, token);
    }
  }

  /** With any other checksum the same body is refused. */
  lemma OtherChecksumIsRefused(crc: seq<nat> -> nat, tokenType: TokenType, seed: seq<nat>, checksum: AsciiString)
    requires IsChecksum(crc) && IsSeed(seed) && checksum != EncodePadded(crc(seed), CHECKSUM_LEN)
    ensures !IsGenuine(crc, PrefixAndBody(tokenType, seed) + checksum)
  {
    PartsOf(tokenType, seed, checksum);
    HalvesDetermineSeed(seed);
    ParseInvertsGenerate(crc, PrefixAndBody(tokenType, seed) + checksum);
    if Decode(checksum).Some? {
      PaddedDecode(checksum);
    }
  }

  lemma PrefixIs(s: string, prefix: string)
    requires |prefix| <= |s|
    ensures prefix <= s <==> s[..|prefix|] == prefix
  {
    if s[..|prefix|] == prefix {
      assert s == prefix + s[|prefix|..];
    }
  }

  /** Accepts exactly the strings that `Generate` makes. */
  method ValidateTokenFormat(crc: seq<nat> -> nat, token: AsciiString) returns (ok: bool)
    requires IsChecksum(crc)
    ensures ok <==> IsGenuine(crc, token)
  {
    ParseInvertsGenerate(crc, token);
    if |token| >= 4 {
      PrefixIs(token, Personal.Prefix());
      PrefixIs(token, Runner.Prefix());
    }
    if !(Personal.Prefix() <= token) && !(Runner.Prefix() <= token) {
      return false;
    }
    var rest: AsciiString := token[4..];
    if |rest| != BODY_LEN + CHECKSUM_LEN {
      return false;
    }
    var body: AsciiString, checksumStr: AsciiString := rest[..BODY_LEN], rest[BODY_LEN..];
    var hiStr: AsciiString, loStr: AsciiString := body[..BODY_HALF_LEN], body[BODY_HALF_LEN..];
    JoinCut(token);
    var hi, lo, sum := Decode(hiStr), Decode(loStr), Decode(checksumStr);
    if hi.None? || lo.None? || sum.None? {
      return false;
    }
    var bodyBytes := FillBody(Digits(256, 16, hi.value), Digits(256, 16, lo.value));
    ok := crc(bodyBytes[..]) == sum.value;
  }

  /** The two halves copied into one array. */
  method FillBody(hiBytes: seq<nat>, loBytes: seq<nat>) returns (bodyBytes: array<nat>)
    requires |hiBytes| == 16 && |loBytes| == 16
    ensures fresh(bodyBytes) && bodyBytes[..] == hiBytes + loBytes
  {
    bodyBytes := new nat[32](_ => 0);
    for i := 0 to 16
      invariant bodyBytes[..i] == hiBytes[..i]
    {
      bodyBytes[i] := hiBytes[i];
    }
    for i := 0 to 16
      invariant bodyBytes[..16 + i] == hiBytes + loBytes[..i]
    {
      bodyBytes[16 + i] := loBytes[i];
    }
  }
}
