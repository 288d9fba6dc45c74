/** The challenge scanner and the streaming base64url decoder of verify/webauthn.rs, against the
    bit-level reading of section 5 of RFC 4648. */
module WebAuthn {
  import opened Prelude

  type byte = bv8
  type sextet = bv6

  const QUOTE: byte := 0x22
  const PAD: byte := 0x3d
  const BACKSLASH: byte := 0x5c

  /** The bytes of `"challenge":"`. */
  const KEY: seq<byte> := [0x22, 0x63, 0x68, 0x61, 0x6c, 0x6c, 0x65, 0x6e, 0x67, 0x65, 0x22, 0x3a, 0x22]

  const KEY_TEXT := "\"challenge\":\""

  lemma KeyIsItsText()
    ensures |KEY| == |KEY_TEXT| && forall i :: 0 <= i < |KEY| ==> KEY[i] as int == KEY_TEXT[i] as int
  {
  }

  // ---- Bits ----------------------------------------------------------------------------------

  predicate On6(v: sextet, mask: sextet) { v & mask != 0 }

  predicate On8(v: byte, mask: byte) { v & mask != 0 }

  function Bits6(v: sextet): (b: seq<bool>)
    ensures |b| == 6
  {
    [On6(v, 0x20), On6(v, 0x10), On6(v, 0x08), On6(v, 0x04), On6(v, 0x02), On6(v, 0x01)]
  }

  function Bits8(v: byte): (b: seq<bool>)
    ensures |b| == 8
  {
    [On8(v, 0x80), On8(v, 0x40), On8(v, 0x20), On8(v, 0x10), On8(v, 0x08), On8(v, 0x04), On8(v, 0x02), On8(v, 0x01)]
  }

  lemma Bits6At(v: sextet)
    ensures var b := Bits6(v);
      && b[0] == On6(v, 0x20)
      && b[1] == On6(v, 0x10)
      && b[2] == On6(v, 0x08)
      && b[3] == On6(v, 0x04)
      && b[4] == On6(v, 0x02)
      && b[5] == On6(v, 0x01)
  {
    hide On6;
  }

  lemma Bits8At(v: byte)
    ensures var b := Bits8(v);
      && b[0] == On8(v, 0x80)
      && b[1] == On8(v, 0x40)
      && b[2] == On8(v, 0x20)
      && b[3] == On8(v, 0x10)
      && b[4] == On8(v, 0x08)
      && b[5] == On8(v, 0x04)
      && b[6] == On8(v, 0x02)
      && b[7] == On8(v, 0x01)
  {
    hide On8;
  }

  /** The big-endian bit string of a sequence of sextets. */
  function SextetBits(s: seq<sextet>): (b: seq<bool>)
    ensures |b| == 6 * |s|
  {
    if s == [] then [] else SextetBits(s[..|s| - 1]) + Bits6(s[|s| - 1])
  }

  function ByteBits(s: seq<byte>): (b: seq<bool>)
    ensures |b| == 8 * |s|
  {
    if s == [] then [] else ByteBits(s[..|s| - 1]) + Bits8(s[|s| - 1])
  }

  function Zeros(n: nat): seq<bool> { seq(n, _ => false) }

  // ---- The alphabet --------------------------------------------------------------------------

  datatype Symbol = Digit(v: sextet) | Padding | Foreign

  function Classify(b: byte): Symbol {
    if 0x41 <= b <= 0x5a then Digit((b - 0x41) as bv6)
    else if 0x61 <= b <= 0x7a then Digit((b - 0x61 + 26) as bv6)
    else if 0x30 <= b <= 0x39 then Digit((b - 0x30 + 52) as bv6)
    else if b == 0x2d then Digit(62)
    else if b == 0x5f then Digit(63)
    else if b == PAD then Padding
    else Foreign
  }

  function Letter(v: sextet): byte {
    if v < 26 then 0x41 + v as bv8
    else if v < 52 then 0x61 + (v as bv8 - 26)
    else if v < 62 then 0x30 + (v as bv8 - 52)
    else if v == 62 then 0x2d
    else 0x5f
  }

  lemma LetterClassified(v: sextet)
    ensures Classify(Letter(v)) == Digit(v)
    ensures Letter(v) != QUOTE
  {
  }

  /** Table 2 of RFC 4648: A to Z, a to z, 0 to 9, the minus sign and the underscore, by their ASCII codes. */
  const ALPHABET: seq<byte> := [
    0x41, 0x42, 0x43, 0x44, 0x45, 0x46, 0x47, 0x48, 0x49, 0x4a, 0x4b, 0x4c, 0x4d, 0x4e, 0x4f, 0x50,
    0x51, 0x52, 0x53, 0x54, 0x55, 0x56, 0x57, 0x58, 0x59, 0x5a, 0x61, 0x62, 0x63, 0x64, 0x65, 0x66,
    0x67, 0x68, 0x69, 0x6a, 0x6b, 0x6c, 0x6d, 0x6e, 0x6f, 0x70, 0x71, 0x72, 0x73, 0x74, 0x75, 0x76,
    0x77, 0x78, 0x79, 0x7a, 0x30, 0x31, 0x32, 0x33, 0x34, 0x35, 0x36, 0x37, 0x38, 0x39, 0x2d, 0x5f]

  /** The encoder's 64 letters are those of the table, in its order. */
  lemma LettersAreTheTable()
    ensures ALPHABET == [
         Letter(0), Letter(1), Letter(2), Letter(3), Letter(4), Letter(5), Letter(6), Letter(7),
         Letter(8), Letter(9), Letter(10), Letter(11), Letter(12), Letter(13), Letter(14), Letter(15),
         Letter(16), Letter(17), Letter(18), Letter(19), Letter(20), Letter(21), Letter(22), Letter(23),
         Letter(24), Letter(25), Letter(26), Letter(27), Letter(28), Letter(29), Letter(30), Letter(31),
         Letter(32), Letter(33), Letter(34), Letter(35), Letter(36), Letter(37), Letter(38), Letter(39),
         Letter(40), Letter(41), Letter(42), Letter(43), Letter(44), Letter(45), Letter(46), Letter(47),
         Letter(48), Letter(49), Letter(50), Letter(51), Letter(52), Letter(53), Letter(54), Letter(55),
         Letter(56), Letter(57), Letter(58), Letter(59), Letter(60), Letter(61), Letter(62), Letter(63)]
  {
  }

  /** The decoder reads exactly the encoder's letters, each as the digit it stands for, and of all other characters
      only the equals sign is padding. */
  lemma DigitsAreTheLetters(b: byte)
    ensures forall v: sextet :: Classify(b) == Digit(v) <==> b == Letter(v)
    ensures Classify(b) == Padding <==> b == 0x3d
  {
    forall v: sextet
      ensures Classify(b) == Digit(v) <==> b == Letter(v)
    {
      LetterClassified(v);
      ClassifiedIsLetter(b, v);
    }
  }

  lemma ClassifiedIsLetter(b: byte, v: sextet)
    ensures Classify(b) == Digit(v) ==> b == Letter(v)
  {
  }

  /** The digits read so far, put before those still to come. */
  function Before(seen: seq<sextet>, rest: Option<seq<sextet>>): Option<seq<sextet>> {
    match rest
    case None => None
    case Some(s) => Some(seen + s)
  }

  /** The digits before the first padding character, unless a foreign character comes first. */
  function Digits(input: seq<byte>): Option<seq<sextet>> {
    if input == [] then Some([])
    else match Classify(input[0])
      case Foreign => None
      case Padding => Some([])
      case Digit(v) => Before([v], Digits(input[1..]))
  }

  ghost predicate ForeignAt(input: seq<byte>, i: int) {
    && 0 <= i < |input|
    && Classify(input[i]) == Foreign
    && forall j :: 0 <= j < i ==> Classify(input[j]).Digit?
  }

  /** Reading digits fails exactly when a character outside the alphabet precedes any padding character. */
  lemma {:induction false} ForeignFirst(input: seq<byte>)
    ensures Digits(input).None? <==> exists i :: ForeignAt(input, i)
  {
    hide Classify;
    if input == [] {
    } else if Classify(input[0]).Digit? {
      var rest := input[1..];
      ForeignFirst(rest);
      assert forall i | ForeignAt(rest, i) :: ForeignAt(input, i + 1);
      assert forall i | ForeignAt(input, i) :: ForeignAt(rest, i - 1);
    } else if Classify(input[0]) == Foreign {
      assert ForeignAt(input, 0);
    }
  }

  // ---- The decoder ---------------------------------------------------------------------------

  /** The decoded bytes are as many whole bytes as the digits' bit string holds, in order. */
  ghost predicate FirstBytes(out: seq<byte>, digits: seq<sextet>) {
    && |out| == 6 * |digits| / 8
    && ByteBits(out) == SextetBits(digits)[..8 * |out|]
  }

  ghost predicate Decodes(input: seq<byte>, r: Result<seq<byte>>) {
    match Digits(input)
    case None => r == Err(PasskeyVerificationFailed)
    case Some(digits) => r.Ok? && FirstBytes(r.value, digits)
  }

  /** What the loop keeps: the emitted bytes followed by the last `bits` bits of the last digit make up
      the bit string so far, and the buffer's six low bits are that digit. Its higher bits are stale. */
  ghost predicate Streaming(digits: seq<sextet>, out: seq<byte>, buf: bv32, bits: nat) {
    && bits == 6 * |digits| % 8
    && |out| == 6 * |digits| / 8
    && (digits != [] ==> LowDigit(buf) == digits[|digits| - 1])
    && ByteBits(out) + Tail(digits, bits) == SextetBits(digits)
  }

  function Tail(digits: seq<sextet>, bits: nat): seq<bool> {
    if digits == [] || bits > 6 then [] else Bits6(digits[|digits| - 1])[6 - bits..]
  }

  function LowDigit(buf: bv32): sextet { (buf & 0x3f) as bv6 }

  function ShiftIn(buf: bv32, v: sextet): bv32 { (buf << 6) | (v as bv32) }

  function LowByte(buf: bv32, bits: nat): byte
    requires bits <= 32
  {
    ((buf >> bits) & 0xff) as bv8
  }

  lemma ShiftKeepsDigit(buf: bv32, v: sextet)
    ensures LowDigit(ShiftIn(buf, v)) == v
  {
  }

  lemma TwoPendingMasks(buf: bv32, v: sextet)
    ensures var r := LowByte(ShiftIn(buf, v), 0);
      && On8(r, 0x80) == On6(LowDigit(buf), 0x02)
      && On8(r, 0x40) == On6(LowDigit(buf), 0x01)
      && On8(r, 0x20) == On6(v, 0x20)
      && On8(r, 0x10) == On6(v, 0x10)
      && On8(r, 0x08) == On6(v, 0x08)
      && On8(r, 0x04) == On6(v, 0x04)
      && On8(r, 0x02) == On6(v, 0x02)
      && On8(r, 0x01) == On6(v, 0x01)
  {
  }

  lemma TwoPendingIndexed(buf: bv32, v: sextet)
    ensures var r := Bits8(LowByte(ShiftIn(buf, v), 0));
      && r[0] == Bits6(LowDigit(buf))[4]
      && r[1] == Bits6(LowDigit(buf))[5]
      && r[2] == Bits6(v)[0]
      && r[3] == Bits6(v)[1]
      && r[4] == Bits6(v)[2]
      && r[5] == Bits6(v)[3]
      && r[6] == Bits6(v)[4]
      && r[7] == Bits6(v)[5]
  {
    hide LowByte, ShiftIn, LowDigit, On6, On8, Bits6, Bits8;
    TwoPendingMasks(buf, v);
    Bits8At(LowByte(ShiftIn(buf, v), 0));
    Bits6At(LowDigit(buf));
    Bits6At(v);
  }

  lemma TwoPendingBits(buf: bv32, v: sextet)
    ensures Bits8(LowByte(ShiftIn(buf, v), 0)) == Bits6(LowDigit(buf))[4..] + Bits6(v)
  {
    hide LowByte, ShiftIn, LowDigit, Bits6, Bits8;
    TwoPendingIndexed(buf, v);
  }

  lemma FourPendingMasks(buf: bv32, v: sextet)
    ensures var r := LowByte(ShiftIn(buf, v), 2);
      && On8(r, 0x80) == On6(LowDigit(buf), 0x08)
      && On8(r, 0x40) == On6(LowDigit(buf), 0x04)
      && On8(r, 0x20) == On6(LowDigit(buf), 0x02)
      && On8(r, 0x10) == On6(LowDigit(buf), 0x01)
      && On8(r, 0x08) == On6(v, 0x20)
      && On8(r, 0x04) == On6(v, 0x10)
      && On8(r, 0x02) == On6(v, 0x08)
      && On8(r, 0x01) == On6(v, 0x04)
  {
  }

  lemma FourPendingIndexed(buf: bv32, v: sextet)
    ensures var r := Bits8(LowByte(ShiftIn(buf, v), 2));
      && r[0] == Bits6(LowDigit(buf))[2]
      && r[1] == Bits6(LowDigit(buf))[3]
      && r[2] == Bits6(LowDigit(buf))[4]
      && r[3] == Bits6(LowDigit(buf))[5]
      && r[4] == Bits6(v)[0]
      && r[5] == Bits6(v)[1]
      && r[6] == Bits6(v)[2]
      && r[7] == Bits6(v)[3]
  {
    hide LowByte, ShiftIn, LowDigit, On6, On8, Bits6, Bits8;
    FourPendingMasks(buf, v);
    Bits8At(LowByte(ShiftIn(buf, v), 2));
    Bits6At(LowDigit(buf));
    Bits6At(v);
  }

  lemma FourPendingBits(buf: bv32, v: sextet)
    ensures Bits8(LowByte(ShiftIn(buf, v), 2)) == Bits6(LowDigit(buf))[2..] + Bits6(v)[..4]
  {
    hide LowByte, ShiftIn, LowDigit, Bits6, Bits8;
    FourPendingIndexed(buf, v);
  }

  lemma SixPendingMasks(buf: bv32, v: sextet)
    ensures var r := LowByte(ShiftIn(buf, v), 4);
      && On8(r, 0x80) == On6(LowDigit(buf), 0x20)
      && On8(r, 0x40) == On6(LowDigit(buf), 0x10)
      && On8(r, 0x20) == On6(LowDigit(buf), 0x08)
      && On8(r, 0x10) == On6(LowDigit(buf), 0x04)
      && On8(r, 0x08) == On6(LowDigit(buf), 0x02)
      && On8(r, 0x04) == On6(LowDigit(buf), 0x01)
      && On8(r, 0x02) == On6(v, 0x20)
      && On8(r, 0x01) == On6(v, 0x10)
  {
  }

  lemma SixPendingIndexed(buf: bv32, v: sextet)
    ensures var r := Bits8(LowByte(ShiftIn(buf, v), 4));
      && r[0] == Bits6(LowDigit(buf))[0]
      && r[1] == Bits6(LowDigit(buf))[1]
      && r[2] == Bits6(LowDigit(buf))[2]
      && r[3] == Bits6(LowDigit(buf))[3]
      && r[4] == Bits6(LowDigit(buf))[4]
      && r[5] == Bits6(LowDigit(buf))[5]
      && r[6] == Bits6(v)[0]
      && r[7] == Bits6(v)[1]
  {
    hide LowByte, ShiftIn, LowDigit, On6, On8, Bits6, Bits8;
    SixPendingMasks(buf, v);
    Bits8At(LowByte(ShiftIn(buf, v), 4));
    Bits6At(LowDigit(buf));
    Bits6At(v);
  }

  lemma SixPendingBits(buf: bv32, v: sextet)
    ensures Bits8(LowByte(ShiftIn(buf, v), 4)) == Bits6(LowDigit(buf)) + Bits6(v)[..2]
  {
    hide LowByte, ShiftIn, LowDigit, Bits6, Bits8;
    SixPendingIndexed(buf, v);
  }

  /** The eight bits that leave the buffer are the pending bits and the leading bits of the new digit. */
  lemma ByteLeaving(buf: bv32, v: sextet, bits: nat)
    requires bits == 2 || bits == 4 || bits == 6
    ensures Bits8(LowByte(ShiftIn(buf, v), bits - 2)) == Bits6(LowDigit(buf))[6 - bits..] + Bits6(v)[..8 - bits]
  {
    hide *;
    if bits == 2 {
      TwoPendingBits(buf, v);
      assert Bits6(v)[..6] == Bits6(v);
    } else if bits == 4 {
      FourPendingBits(buf, v);
    } else {
      SixPendingBits(buf, v);
      assert Bits6(LowDigit(buf))[0..] == Bits6(LowDigit(buf));
    }
  }

  lemma SextetBitsSnoc(s: seq<sextet>, v: sextet)
    ensures SextetBits(s + [v]) == SextetBits(s) + Bits6(v)
  {
    assert (s + [v])[..|s|] == s;
  }

  lemma ByteBitsSnoc(s: seq<byte>, v: byte)
    ensures ByteBits(s + [v]) == ByteBits(s) + Bits8(v)
  {
    assert (s + [v])[..|s|] == s;
  }

  /** Moving the boundary between the emitted bits and the pending ones. */
  lemma Regroup(emitted: seq<bool>, pending: seq<bool>, all: seq<bool>, b: seq<bool>, digit6: seq<bool>, k: nat)
    requires emitted + pending == all
    requires k <= |digit6| && b == pending + digit6[..k]
    ensures (emitted + b) + digit6[k..] == all + digit6
  {
    calc {
      (emitted + b) + digit6[k..];
      (emitted + pending) + (digit6[..k] + digit6[k..]);
      { assert digit6[..k] + digit6[k..] == digit6; }
      all + digit6;
    }
  }

  lemma DivideByEight(x: int, q: int, r: int)
    requires x == 8 * q + r && 0 <= r < 8
    ensures x / 8 == q && x % 8 == r
  {
  }

  /** Six bits more complete no byte when none were pending. */
  lemma PendsExactly(n: nat)
    requires 6 * n % 8 < 2
    ensures 6 * n % 8 == 0 && 6 * (n + 1) % 8 == 6 && 6 * (n + 1) / 8 == 6 * n / 8
  {
    var q, r := 6 * n / 8, 6 * n % 8;
    assert 2 * (3 * n - 4 * q) == r;
    DivideByEight(6 * (n + 1), q, 6);
  }

  /** A digit that completes no byte stays pending. */
  lemma StreamPends(digits: seq<sextet>, out: seq<byte>, buf: bv32, bits: nat, v: sextet)
    requires Streaming(digits, out, buf, bits) && bits < 2
    ensures Streaming(digits + [v], out, ShiftIn(buf, v), bits + 6)
  {
    hide ByteBits, SextetBits, Bits6, ShiftIn, LowDigit, Tail;
    PendsExactly(|digits|);
    SextetBitsSnoc(digits, v);
    ShiftKeepsDigit(buf, v);
    PendingBits(digits, bits);
    PendingBits(digits + [v], bits + 6);
    assert ByteBits(out) == SextetBits(digits) by {
      assert ByteBits(out) + [] == ByteBits(out);
    }
    assert Tail(digits + [v], bits + 6) == Bits6(v) by {
      assert Bits6(v)[0..] == Bits6(v);
    }
  }

  /** Otherwise the pending bits and the new digit's leading bits leave as one byte. */
  lemma StreamEmits(digits: seq<sextet>, out: seq<byte>, buf: bv32, bits: nat, v: sextet)
    requires Streaming(digits, out, buf, bits) && 2 <= bits
    ensures bits < 8 && Streaming(digits + [v], out + [LowByte(ShiftIn(buf, v), bits - 2)], ShiftIn(buf, v), bits - 2)
  {
    hide ByteBits, SextetBits, Bits6, Bits8, LowByte, ShiftIn, LowDigit, Tail;
    SextetBitsSnoc(digits, v);
    ShiftKeepsDigit(buf, v);
    PendingBits(digits, bits);
    var b := LowByte(ShiftIn(buf, v), bits - 2);
    ByteLeaving(buf, v, bits);
    ByteBitsSnoc(out, b);
    PendingBits(digits + [v], bits - 2);
    Regroup(ByteBits(out), Tail(digits, bits), SextetBits(digits), Bits8(b), Bits6(v), 8 - bits);
  }

  lemma PendingBits(digits: seq<sextet>, bits: nat)
    requires bits == 6 * |digits| % 8
    ensures bits in {0, 2, 4, 6}
    ensures bits == 0 ==> Tail(digits, bits) == []
    ensures bits > 0 ==> digits != [] && Tail(digits, bits) == Bits6(digits[|digits| - 1])[6 - bits..]
  {
  }

  lemma StreamEnds(digits: seq<sextet>, out: seq<byte>, buf: bv32, bits: nat)
    requires Streaming(digits, out, buf, bits)
    ensures FirstBytes(out, digits)
  {
    hide ByteBits, SextetBits;
  }

  lemma BeforeNothing(rest: Option<seq<sextet>>)
    ensures Before([], rest) == rest
  {
    if rest.Some? {
      assert [] + rest.value == rest.value;
    }
  }

  lemma BeforeDigit(seen: seq<sextet>, v: sextet, rest: Option<seq<sextet>>)
    ensures Before(seen, Before([v], rest)) == Before(seen + [v], rest)
  {
    if rest.Some? {
      assert seen + ([v] + rest.value) == (seen + [v]) + rest.value;
    }
  }

  method Base64UrlDecode(input: seq<byte>) returns (r: Result<seq<byte>>)
    ensures Decodes(input, r)
  {
    hide Classify, Streaming, FirstBytes, LowByte, ShiftIn;
    var buf: bv32 := 0;
    var bits: nat := 0;
    var out: seq<byte> := [];
    ghost var seen: seq<sextet> := [];
    StreamStarts();
    BeforeNothing(Digits(input));
    assert input[0..] == input;
    var i := 0;
    while i < |input|
      invariant 0 <= i <= |input|
      invariant Streaming(seen, out, buf, bits) && bits < 8
      invariant Digits(input) == Before(seen, Digits(input[i..]))
    {
      assert input[i..][0] == input[i] && input[i..][1..] == input[i + 1..];
      match Classify(input[i]) {
        case Digit(v) =>
          if bits < 2 {
            StreamPends(seen, out, buf, bits, v);
          } else {
            StreamEmits(seen, out, buf, bits, v);
          }
          BeforeDigit(seen, v, Digits(input[i + 1..]));
          buf := ShiftIn(buf, v);
          bits := bits + 6;
          if bits >= 8 {
            bits := bits - 8;
            out := out + [LowByte(buf, bits)];
          }
          seen := seen + [v];
        case Padding =>
          assert seen + [] == seen;
          StreamEnds(seen, out, buf, bits);
          return Ok(out);
        case Foreign =>
          return Err(PasskeyVerificationFailed);
      }
      i := i + 1;
    }
    assert seen + [] == seen;
    StreamEnds(seen, out, buf, bits);
    return Ok(out);
  }

  lemma StreamStarts()
    ensures Streaming([], [], 0, 0)
  {
  }

  // ---- Decoding inverts encoding -------------------------------------------------------------

  lemma Bits8Injective(a: byte, b: byte)
    requires Bits8(a) == Bits8(b)
    ensures a == b
  {
    assert forall k :: 0 <= k < 8 ==> Bits8(a)[k] == Bits8(b)[k];
  }

  lemma {:induction false} ByteBitsInjective(a: seq<byte>, b: seq<byte>)
    requires ByteBits(a) == ByteBits(b)
    ensures a == b
  {
    assert |a| == |b|;
    if a != [] {
      var n := |a| - 1;
      assert ByteBits(a)[..8 * n] == ByteBits(a[..n]) && ByteBits(a)[8 * n..] == Bits8(a[n]);
      assert ByteBits(b)[..8 * n] == ByteBits(b[..n]) && ByteBits(b)[8 * n..] == Bits8(b[n]);
      ByteBitsInjective(a[..n], b[..n]);
      Bits8Injective(a[n], b[n]);
    }
  }

  /** The encoder of section 4 of RFC 4648: three bytes make four digits, and a final group of one or two
      bytes is filled with zero bits. */
  function Sextets(d: seq<byte>): seq<sextet> {
    if |d| == 0 then []
    else if |d| == 1 then OneByte(d[0])
    else if |d| == 2 then TwoBytes(d[0], d[1])
    else ThreeBytes(d[0], d[1], d[2]) + Sextets(d[3..])
  }

  function OneByte(a: byte): seq<sextet> { [First(a), Second(a, 0)] }

  function TwoBytes(a: byte, b: byte): seq<sextet> { [First(a), Second(a, b), Third(b, 0)] }

  function ThreeBytes(a: byte, b: byte, c: byte): seq<sextet> { [First(a), Second(a, b), Third(b, c), Fourth(c)] }

  function First(a: byte): sextet { (a >> 2) as bv6 }

  function Second(a: byte, b: byte): sextet { (((a & 0x03) << 4) | (b >> 4)) as bv6 }

  function Third(b: byte, c: byte): sextet { (((b & 0x0f) << 2) | (c >> 6)) as bv6 }

  function Fourth(c: byte): sextet { (c & 0x3f) as bv6 }

  /** The base64url text of section 5 of RFC 4648, without padding. */
  function Text(d: seq<byte>): seq<byte> { Letters(Sextets(d)) }

  function Letters(s: seq<sextet>): (t: seq<byte>)
    ensures |t| == |s|
    ensures forall i :: 0 <= i < |s| ==> t[i] == Letter(s[i])
  {
    if s == [] then [] else [Letter(s[0])] + Letters(s[1..])
  }

  lemma GroupBits(a: byte, b: byte, c: byte)
    ensures Bits6(First(a)) + Bits6(Second(a, b)) + Bits6(Third(b, c)) + Bits6(Fourth(c))
      == Bits8(a) + Bits8(b) + Bits8(c)
  {
    hide Bits6, Bits8, First, Second, Third, Fourth;
    FirstBits(a);
    SecondBits(a, b);
    ThirdBits(b, c);
    FourthBits(c);
  }

  lemma FirstBits(a: byte)
    ensures Bits6(First(a)) == Bits8(a)[..6]
  {
  }

  lemma SecondMasks(a: byte, b: byte)
    ensures var r := Second(a, b);
      && On6(r, 0x20) == On8(a, 0x02)
      && On6(r, 0x10) == On8(a, 0x01)
      && On6(r, 0x08) == On8(b, 0x80)
      && On6(r, 0x04) == On8(b, 0x40)
      && On6(r, 0x02) == On8(b, 0x20)
      && On6(r, 0x01) == On8(b, 0x10)
  {
  }

  lemma SecondIndexed(a: byte, b: byte)
    ensures var r := Bits6(Second(a, b));
      && r[0] == Bits8(a)[6]
      && r[1] == Bits8(a)[7]
      && r[2] == Bits8(b)[0]
      && r[3] == Bits8(b)[1]
      && r[4] == Bits8(b)[2]
      && r[5] == Bits8(b)[3]
  {
    hide Second, On6, On8, Bits6, Bits8;
    SecondMasks(a, b);
    Bits6At(Second(a, b));
    Bits8At(a);
    Bits8At(b);
  }

  lemma SecondBits(a: byte, b: byte)
    ensures Bits6(Second(a, b)) == Bits8(a)[6..] + Bits8(b)[..4]
  {
    hide Second, Bits6, Bits8;
    SecondIndexed(a, b);
  }

  lemma ThirdMasks(b: byte, c: byte)
    ensures var r := Third(b, c);
      && On6(r, 0x20) == On8(b, 0x08)
      && On6(r, 0x10) == On8(b, 0x04)
      && On6(r, 0x08) == On8(b, 0x02)
      && On6(r, 0x04) == On8(b, 0x01)
      && On6(r, 0x02) == On8(c, 0x80)
      && On6(r, 0x01) == On8(c, 0x40)
  {
  }

  lemma ThirdIndexed(b: byte, c: byte)
    ensures var r := Bits6(Third(b, c));
      && r[0] == Bits8(b)[4]
      && r[1] == Bits8(b)[5]
      && r[2] == Bits8(b)[6]
      && r[3] == Bits8(b)[7]
      && r[4] == Bits8(c)[0]
      && r[5] == Bits8(c)[1]
  {
    hide Third, On6, On8, Bits6, Bits8;
    ThirdMasks(b, c);
    Bits6At(Third(b, c));
    Bits8At(b);
    Bits8At(c);
  }

  lemma ThirdBits(b: byte, c: byte)
    ensures Bits6(Third(b, c)) == Bits8(b)[4..] + Bits8(c)[..2]
  {
    hide Third, Bits6, Bits8;
    ThirdIndexed(b, c);
  }

  lemma FourthBits(c: byte)
    ensures Bits6(Fourth(c)) == Bits8(c)[2..]
  {
  }

  lemma ZeroBits()
    ensures Bits8(0) == Zeros(8)
  {
    Bits8At(0);
  }

  /** The number of zero bits that fill the last digit. */
  function Fill(n: nat): nat {
    if n % 3 == 0 then 0 else if n % 3 == 1 then 4 else 2
  }

  lemma {:induction false} EncodedLength(d: seq<byte>)
    ensures 6 * |Sextets(d)| == 8 * |d| + Fill(|d|)
  {
    hide First, Second, Third, Fourth;
    if |d| >= 3 {
      EncodedLength(d[3..]);
    }
  }

  lemma {:induction false} SextetBitsAppend(s: seq<sextet>, t: seq<sextet>)
    ensures SextetBits(s + t) == SextetBits(s) + SextetBits(t)
  {
    hide Bits6;
    if t == [] {
      assert s + t == s;
    } else {
      var n := |t| - 1;
      SextetBitsAppend(s, t[..n]);
      assert (s + t)[..|s| + n] == s + t[..n];
    }
  }

  lemma {:induction false} ByteBitsAppend(s: seq<byte>, t: seq<byte>)
    ensures ByteBits(s + t) == ByteBits(s) + ByteBits(t)
  {
    hide Bits8;
    if t == [] {
      assert s + t == s;
    } else {
      var n := |t| - 1;
      ByteBitsAppend(s, t[..n]);
      assert (s + t)[..|s| + n] == s + t[..n];
    }
  }

  lemma NoBits()
    ensures SextetBits([]) == [] && ByteBits([]) == []
  {
  }

  lemma OneByteBits(a: byte)
    ensures SextetBits(OneByte(a)) == ByteBits([a]) + Zeros(4)
  {
    hide SextetBits, ByteBits, Bits6, Bits8, First, Second;
    NoBits();
    SextetBitsSnoc([], First(a));
    SextetBitsSnoc([] + [First(a)], Second(a, 0));
    assert OneByte(a) == [] + [First(a)] + [Second(a, 0)];
    ByteBitsSnoc([], a);
    assert [a] == [] + [a];
    FirstBits(a);
    SecondBits(a, 0);
    ZeroBits();
  }

  lemma TwoByteBits(a: byte, b: byte)
    ensures SextetBits(TwoBytes(a, b)) == ByteBits([a, b]) + Zeros(2)
  {
    hide SextetBits, ByteBits, Bits6, Bits8, First, Second, Third;
    NoBits();
    SextetBitsSnoc([], First(a));
    SextetBitsSnoc([] + [First(a)], Second(a, b));
    SextetBitsSnoc([] + [First(a)] + [Second(a, b)], Third(b, 0));
    assert TwoBytes(a, b) == [] + [First(a)] + [Second(a, b)] + [Third(b, 0)];
    ByteBitsSnoc([], a);
    ByteBitsSnoc([] + [a], b);
    assert [a, b] == [] + [a] + [b];
    FirstBits(a);
    SecondBits(a, b);
    ThirdBits(b, 0);
    ZeroBits();
  }

  lemma ThreeByteBits(a: byte, b: byte, c: byte)
    ensures SextetBits(ThreeBytes(a, b, c)) == ByteBits([a, b, c])
  {
    hide SextetBits, ByteBits, Bits6, Bits8, First, Second, Third, Fourth;
    NoBits();
    SextetBitsSnoc([], First(a));
    SextetBitsSnoc([] + [First(a)], Second(a, b));
    SextetBitsSnoc([] + [First(a)] + [Second(a, b)], Third(b, c));
    SextetBitsSnoc([] + [First(a)] + [Second(a, b)] + [Third(b, c)], Fourth(c));
    assert ThreeBytes(a, b, c) == [] + [First(a)] + [Second(a, b)] + [Third(b, c)] + [Fourth(c)];
    ByteBitsSnoc([], a);
    ByteBitsSnoc([] + [a], b);
    ByteBitsSnoc([] + [a] + [b], c);
    assert [a, b, c] == [] + [a] + [b] + [c];
    GroupBits(a, b, c);
    calc {
      SextetBits(ThreeBytes(a, b, c));
      [] + Bits6(First(a)) + Bits6(Second(a, b)) + Bits6(Third(b, c)) + Bits6(Fourth(c));
      { assert [] + Bits6(First(a)) == Bits6(First(a)); }
      Bits6(First(a)) + Bits6(Second(a, b)) + Bits6(Third(b, c)) + Bits6(Fourth(c));
      Bits8(a) + Bits8(b) + Bits8(c);
      { assert [] + Bits8(a) == Bits8(a); }
      ByteBits([a, b, c]);
    }
  }

  lemma NoZeros()
    ensures Zeros(0) == []
  {
  }

  lemma FillRepeats(n: nat)
    ensures Fill(n + 3) == Fill(n)
  {
  }

  lemma GroupThenRest(group6: seq<bool>, rest6: seq<bool>, group8: seq<bool>, rest8: seq<bool>, fill: seq<bool>)
    requires group6 == group8 && rest6 == rest8 + fill
    ensures group6 + rest6 == (group8 + rest8) + fill
  {
  }

  /** One group of three bytes in front. */
  lemma GroupKeepsBits(a: byte, b: byte, c: byte, rest: seq<byte>)
    requires SextetBits(Sextets(rest)) == ByteBits(rest) + Zeros(Fill(|rest|))
    ensures SextetBits(ThreeBytes(a, b, c) + Sextets(rest)) == ByteBits([a, b, c] + rest) + Zeros(Fill(|rest|))
  {
    hide SextetBits, ByteBits, ThreeBytes, Sextets, Zeros, Fill;
    ThreeByteBits(a, b, c);
    SextetBitsAppend(ThreeBytes(a, b, c), Sextets(rest));
    ByteBitsAppend([a, b, c], rest);
    GroupThenRest(SextetBits(ThreeBytes(a, b, c)), SextetBits(Sextets(rest)), ByteBits([a, b, c]), ByteBits(rest),
                  Zeros(Fill(|rest|)));
  }

  /** The digits' bit string is the bytes' bit string, filled with zero bits. */
  lemma {:induction false} EncodingKeepsBits(d: seq<byte>)
    ensures SextetBits(Sextets(d)) == ByteBits(d) + Zeros(Fill(|d|))
  {
    hide SextetBits, ByteBits, OneByte, TwoBytes, ThreeBytes, Zeros;
    if |d| == 0 {
      NoBits();
      NoZeros();
    } else if |d| == 1 {
      OneByteBits(d[0]);
      assert d == [d[0]];
    } else if |d| == 2 {
      TwoByteBits(d[0], d[1]);
      assert d == [d[0], d[1]];
    } else {
      var rest := d[3..];
      EncodingKeepsBits(rest);
      GroupKeepsBits(d[0], d[1], d[2], rest);
      assert Sextets(d) == ThreeBytes(d[0], d[1], d[2]) + Sextets(rest);
      hide Sextets;
      FillRepeats(|rest|);
      hide Fill;
      assert d == [d[0], d[1], d[2]] + rest;
    }
  }

  /** What may follow the text: nothing, or a padding character and then anything at all. */
  predicate PadsOff(tail: seq<byte>) { tail == [] || tail[0] == PAD }

  lemma DigitsOfPads(tail: seq<byte>)
    requires PadsOff(tail)
    ensures Digits(tail) == Some([])
  {
    hide Classify;
    PadIsPadding();
  }

  lemma DigitsStep(t: seq<byte>, v: sextet, rest: seq<sextet>)
    requires t != [] && Classify(t[0]) == Digit(v) && Digits(t[1..]) == Some(rest)
    ensures Digits(t) == Some([v] + rest)
  {
    hide Classify;
  }

  lemma FirstThenRest<T>(x: T, rest: seq<T>, tail: seq<T>)
    ensures var t := ([x] + rest) + tail; t[0] == x && t[1..] == rest + tail
  {
  }

  lemma LettersHead(s: seq<sextet>, tail: seq<byte>)
    requires s != []
    ensures var t := Letters(s) + tail; t[0] == Letter(s[0]) && t[1..] == Letters(s[1..]) + tail
  {
    hide Letter;
    assert Letters(s) == [Letter(s[0])] + Letters(s[1..]);
    hide Letters;
    FirstThenRest(Letter(s[0]), Letters(s[1..]), tail);
  }

  lemma {:induction false} DigitsOfText(s: seq<sextet>, tail: seq<byte>)
    requires PadsOff(tail)
    ensures Digits(Letters(s) + tail) == Some(s)
  {
    hide Classify, Letter, Digits;
    if s == [] {
      assert Letters(s) + tail == tail;
      DigitsOfPads(tail);
    } else {
      hide Letters;
      LettersHead(s, tail);
      LetterClassified(s[0]);
      DigitsOfText(s[1..], tail);
      DigitsStep(Letters(s) + tail, s[0], s[1..]);
      assert [s[0]] + s[1..] == s;
    }
  }

  lemma PadIsPadding()
    ensures Classify(PAD) == Padding
  {
  }

  /** Decoding the base64url text of any byte string, padded or not, gives back exactly that byte string. */
  lemma DecodeInvertsEncode(d: seq<byte>, tail: seq<byte>, r: Result<seq<byte>>)
    requires PadsOff(tail)
    ensures Decodes(Text(d) + tail, r) <==> r == Ok(d)
  {
    hide SextetBits, ByteBits, Classify, Letters, Sextets, Digits;
    var s := Sextets(d);
    DigitsOfText(s, tail);
    EncodedLength(d);
    EncodingKeepsBits(d);
    assert 6 * |s| / 8 == |d|;
    assert SextetBits(s)[..8 * |d|] == ByteBits(d);
    if r.Ok? && FirstBytes(r.value, s) {
      ByteBitsInjective(r.value, d);
    }
  }

  // ---- The challenge scanner -----------------------------------------------------------------

  ghost predicate KeyAt(json: seq<byte>, i: int) {
    0 <= i && i + |KEY| <= |json| && json[i..i + |KEY|] == KEY
  }

  ghost predicate FirstKey(json: seq<byte>, i: int) {
    KeyAt(json, i) && forall k :: 0 <= k < i ==> !KeyAt(json, k)
  }

  /** `j` is the first quote at or after `start`. */
  ghost predicate FirstQuote(json: seq<byte>, start: nat, j: int) {
    start <= j < |json| && json[j] == QUOTE && forall k :: start <= k < j ==> json[k] != QUOTE
  }

  /** The challenge value: what lies between the first key and the first quote after it. */
  ghost predicate ValueSpan(json: seq<byte>, i: int, j: int) {
    FirstKey(json, i) && FirstQuote(json, i + |KEY|, j)
  }

  /** The value is decoded; a document without a key, or without a quote after it, has none. */
  ghost predicate Extracts(json: seq<byte>, r: Result<seq<byte>>) {
    && (forall i, j | ValueSpan(json, i, j) :: Decodes(json[i + |KEY|..j], r))
    && ((forall i, j :: !ValueSpan(json, i, j)) ==> r == Err(PasskeyVerificationFailed))
  }

  lemma OneSpan(json: seq<byte>, i: int, j: int)
    requires ValueSpan(json, i, j)
    ensures forall k, q | ValueSpan(json, k, q) :: k == i && q == j
  {
  }

  method ExtractChallenge(json: seq<byte>) returns (r: Result<seq<byte>>)
    ensures Extracts(json, r)
  {
    hide Decodes;
    var i := 0;
    var end := |json|;
    while true
      invariant 0 <= i
      invariant forall k :: 0 <= k < i ==> !KeyAt(json, k)
      decreases end - i
    {
      if i + |KEY| > end {
        return Err(PasskeyVerificationFailed);
      }
      if json[i..i + |KEY|] == KEY {
        break;
      }
      i := i + 1;
    }
    assert FirstKey(json, i);
    var keyPos := i + |KEY|;
    var j := keyPos;
    while j < end && json[j] != QUOTE
      invariant keyPos <= j <= end
      invariant forall k :: keyPos <= k < j ==> json[k] != QUOTE
    {
      j := j + 1;
    }
    if j >= end {
      return Err(PasskeyVerificationFailed);
    }
    assert ValueSpan(json, i, j);
    OneSpan(json, i, j);
    r := Base64UrlDecode(json[keyPos..j]);
  }

  /** A document whose first key is followed by the text of `d`, padded or not, and a quote yields exactly `d`. */
  lemma ChallengeRecovered(json: seq<byte>, i: nat, d: seq<byte>, pads: nat, r: Result<seq<byte>>)
    requires FirstKey(json, i)
    requires Text(d) + seq(pads, _ => PAD) + [QUOTE] <= json[i + |KEY|..]
    ensures Extracts(json, r) <==> r == Ok(d)
  {
    hide Decodes, Text;
    var tail := seq(pads, _ => PAD);
    var value := Text(d) + tail;
    var start := i + |KEY|;
    var j := start + |value|;
    TextHasNoQuote(d);
    assert json[start..][..|value| + 1] == value + [QUOTE];
    assert forall k :: 0 <= k < |value| ==> json[start + k] == value[k];
    assert json[j] == json[start..][|value|] == QUOTE;
    forall k | start <= k < j
      ensures json[k] != QUOTE
    {
      assert json[k] == value[k - start];
    }
    assert FirstQuote(json, start, j);
    assert json[start..j] == value;
    DecodeInvertsEncode(d, tail, r);
    assert ValueSpan(json, i, j);
    OneSpan(json, i, j);
  }

  lemma TextHasNoQuote(d: seq<byte>)
    ensures forall k :: 0 <= k < |Text(d)| ==> Text(d)[k] != QUOTE
  {
    hide Letter, Sextets, Classify;
    forall k | 0 <= k < |Text(d)|
      ensures Text(d)[k] != QUOTE
    {
      LetterClassified(Sextets(d)[k]);
    }
  }

  // ---- The next unescaped quote --------------------------------------------------------------

  /** How many backslashes stand directly before `j`, none before `start`. */
  ghost function SlashesBefore(json: seq<byte>, start: nat, j: nat): nat
    requires start <= j <= |json|
  {
    if start < j && json[j - 1] == BACKSLASH then 1 + SlashesBefore(json, start, j - 1) else 0
  }

  /** A quote is escaped by an odd run of backslashes before it. */
  ghost predicate Unescaped(json: seq<byte>, start: nat, q: int) {
    start <= q < |json| && json[q] == QUOTE && SlashesBefore(json, start, q) % 2 == 0
  }

  ghost predicate FirstUnescaped(json: seq<byte>, start: nat, q: int) {
    Unescaped(json, start, q) && forall k :: start <= k < q ==> !Unescaped(json, start, k)
  }

  ghost predicate UnescapedSpan(json: seq<byte>, i: int, q: int) {
    FirstKey(json, i) && FirstUnescaped(json, i + |KEY|, q)
  }

  /** The scanner as its own comment describes it: the value ends at the next unescaped quote. */
  ghost predicate ExtractsUnescaped(json: seq<byte>, r: Result<seq<byte>>) {
    && (forall i, q | UnescapedSpan(json, i, q) :: Decodes(json[i + |KEY|..q], r))
    && ((forall i, q :: !UnescapedSpan(json, i, q)) ==> r == Err(PasskeyVerificationFailed))
  }

  ghost predicate PadAt(input: seq<byte>, p: int) {
    && 0 <= p < |input|
    && input[p] == PAD
    && forall k :: 0 <= k < p ==> Classify(input[k]).Digit?
  }

  /** A padding character comes before anything else that is not a digit. */
  ghost predicate PadLeads(input: seq<byte>) {
    exists p :: PadAt(input, p)
  }

  ghost predicate NoneUnescaped(json: seq<byte>, start: nat) {
    forall q :: !Unescaped(json, start, q)
  }

  /** Digits, then a padding character, then at some point an escaped quote, and no unescaped quote at all. */
  ghost predicate PaddedThenEscaped(json: seq<byte>, i: int, j: int) {
    ValueSpan(json, i, j) && PadLeads(json[i + |KEY|..j]) && NoneUnescaped(json, i + |KEY|)
  }

  /** Nothing after the first character outside the digits is read. */
  lemma {:induction false} DigitsStop(a: seq<byte>, b: seq<byte>, k: nat)
    requires k < |a| && !Classify(a[k]).Digit?
    ensures Digits(a + b) == Digits(a)
  {
    hide Classify;
    assert (a + b)[0] == a[0];
    if Classify(a[0]).Digit? {
      assert (a + b)[1..] == a[1..] + b;
      DigitsStop(a[1..], b, k - 1);
    }
  }

  lemma {:induction false} PadFirst(input: seq<byte>, k: nat)
    requires k < |input| && !Classify(input[k]).Digit?
    ensures Digits(input).Some? <==> PadLeads(input)
  {
    PadIsPadding();
    OnlyPadPads(input[0]);
    hide Classify;
    if Classify(input[0]).Digit? {
      var rest := input[1..];
      PadFirst(rest, k - 1);
      assert forall p | PadAt(rest, p) :: PadAt(input, p + 1);
      assert forall p | PadAt(input, p) :: PadAt(rest, p - 1);
    } else if input[0] == PAD {
      assert PadAt(input, 0);
    }
  }

  lemma OnlyPadPads(b: byte)
    ensures Classify(b).Padding? <==> b == PAD
  {
  }

  lemma SlashIsForeign()
    ensures Classify(BACKSLASH) == Foreign
  {
  }

  lemma FirstOfUnescaped(json: seq<byte>, start: nat, q: int) returns (first: int)
    requires Unescaped(json, start, q)
    ensures FirstUnescaped(json, start, first)
    decreases q
  {
    hide Unescaped;
    if k :| start <= k < q && Unescaped(json, start, k) {
      first := FirstOfUnescaped(json, start, k);
    } else {
      first := q;
    }
  }

  lemma FirstOfQuotes(json: seq<byte>, start: nat, q: int) returns (first: int)
    requires start <= q < |json| && json[q] == QUOTE
    ensures FirstQuote(json, start, first)
    decreases q
  {
    if k :| start <= k < q && json[k] == QUOTE {
      first := FirstOfQuotes(json, start, k);
    } else {
      first := q;
    }
  }

  lemma OneUnescapedSpan(json: seq<byte>, i: int, q: int)
    requires UnescapedSpan(json, i, q)
    ensures forall k, h | UnescapedSpan(json, k, h) :: k == i && h == q
  {
    hide SlashesBefore;
  }

  /** Where the first quote is escaped the two spans still decode alike, if there is an unescaped quote at all: the
      backslash already ends the shorter one. */
  lemma EscapedSpansAgree(json: seq<byte>, start: nat, j: int, q: int, r: Result<seq<byte>>)
    requires start < j <= q < |json| && json[j - 1] == BACKSLASH
    ensures Decodes(json[start..q], r) <==> Decodes(json[start..j], r)
  {
    hide FirstBytes, Digits, Classify;
    SlashIsForeign();
    var a, b := json[start..j], json[j..q];
    assert json[start..q] == a + b;
    assert a[j - 1 - start] == BACKSLASH;
    DigitsStop(a, b, j - 1 - start);
  }

  lemma EscapedFollowsSlash(json: seq<byte>, start: nat, j: int)
    requires FirstQuote(json, start, j) && !Unescaped(json, start, j)
    ensures start < j && json[j - 1] == BACKSLASH
  {
  }

  /** The two readings agree on a document whose first quote is unescaped, or that has an unescaped one later. */
  lemma AgreeWithUnescaped(json: seq<byte>, i: int, j: int, q: int, r: Result<seq<byte>>)
    requires ValueSpan(json, i, j) && UnescapedSpan(json, i, q)
    ensures Extracts(json, r) <==> ExtractsUnescaped(json, r)
  {
    hide Decodes;
    OneSpan(json, i, j);
    OneUnescapedSpan(json, i, q);
    var start := i + |KEY|;
    assert j <= q;
    if !Unescaped(json, start, j) {
      EscapedFollowsSlash(json, start, j);
      EscapedSpansAgree(json, start, j, q, r);
    }
  }

  /** Without an unescaped quote the comment's reading fails, the code's fails unless padding hides the backslash. */
  lemma AgreeWithoutUnescaped(json: seq<byte>, i: int, j: int)
    requires ValueSpan(json, i, j) && NoneUnescaped(json, i + |KEY|)
    ensures (forall r :: Extracts(json, r) <==> ExtractsUnescaped(json, r))
      <==> !PadLeads(json[i + |KEY|..j])
  {
    hide FirstBytes, Digits, Unescaped, Classify, PadLeads;
    var start := i + |KEY|;
    var value := json[start..j];
    var err: Result<seq<byte>> := Err(PasskeyVerificationFailed);
    OneSpan(json, i, j);
    NoUnescapedSpan(json, i);
    SlashIsForeign();
    EscapedFollowsSlash(json, start, j);
    assert value[j - 1 - start] == BACKSLASH;
    PadFirst(value, j - 1 - start);
    assert ExtractsUnescaped(json, err);
    forall r
      ensures ExtractsUnescaped(json, r) <==> r == err
      ensures Extracts(json, r) <==> Decodes(value, r)
    {
    }
  }

  lemma NoUnescapedSpan(json: seq<byte>, i: int)
    requires FirstKey(json, i) && NoneUnescaped(json, i + |KEY|)
    ensures forall k, q :: !UnescapedSpan(json, k, q)
  {
    hide Unescaped;
  }

  lemma NoSpans(json: seq<byte>)
    requires forall i, j :: !ValueSpan(json, i, j)
    ensures forall i, q :: !UnescapedSpan(json, i, q)
  {
    if i, q :| UnescapedSpan(json, i, q) {
      var j := FirstOfQuotes(json, i + |KEY|, q);
      assert ValueSpan(json, i, j);
    }
  }

  /** Exactly when the code's reading, which stops at the first quote, is the comment's, which stops at the first
      unescaped one: on every document but those with padding before an escaped quote and no unescaped quote. */
  lemma ReadingsAgree(json: seq<byte>)
    ensures (forall r :: Extracts(json, r) <==> ExtractsUnescaped(json, r))
      <==> !exists i, j :: PaddedThenEscaped(json, i, j)
  {
    hide Decodes, Unescaped, PadLeads;
    if i: int, j: int :| ValueSpan(json, i, j) {
      OneSpan(json, i, j);
      var start := i + |KEY|;
      if q: int :| Unescaped(json, start, q) {
        var first := FirstOfUnescaped(json, start, q);
        forall r ensures Extracts(json, r) <==> ExtractsUnescaped(json, r) {
          AgreeWithUnescaped(json, i, j, first, r);
        }
      } else {
        AgreeWithoutUnescaped(json, i, j);
        assert PadLeads(json[i + |KEY|..j]) ==> PaddedThenEscaped(json, i, j);
      }
    } else {
      NoSpans(json);
    }
  }

  /** Such a document: the key, a padding character, a backslash and a quote. The code reads an empty challenge, the
      comment's reading refuses it. */
  lemma PaddedEscapedQuote(r: Result<seq<byte>>)
    ensures var json := KEY + [PAD, BACKSLASH, QUOTE];
            && (Extracts(json, r) <==> r == Ok([]))
            && (ExtractsUnescaped(json, r) <==> r == Err(PasskeyVerificationFailed))
  {
    hide Classify, SextetBits, ByteBits;
    var json := KEY + [PAD, BACKSLASH, QUOTE];
    var start := |KEY|;
    assert json[0..0 + start] == KEY;
    assert FirstKey(json, 0);
    assert FirstQuote(json, start, start + 2);
    assert json[start..start + 2] == [PAD, BACKSLASH];
    PadIsPadding();
    assert ValueSpan(json, 0, start + 2);
    OneSpan(json, 0, start + 2);
    assert SlashesBefore(json, start, start + 1) == 0;
    assert SlashesBefore(json, start, start + 2) == 1;
    NoUnescapedSpan(json, 0);
    assert Digits([PAD, BACKSLASH]) == Some([]);
    EmptyIsDecoded(r);
  }

  lemma EmptyIsDecoded(r: Result<seq<byte>>)
    ensures r.Ok? && FirstBytes(r.value, []) <==> r == Ok([])
  {
  }
}
