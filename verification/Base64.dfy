/** The standard base 64 encoding of section 4 of RFC 4648, as the invoke codec uses it for bodies. */
module Base64 {
  import opened Wrappers

  type Byte = b: int | 0 <= b < 256

  type Digit = d: int | 0 <= d < 64

  const PAD := '='

  function FromChar(c: char): Option<Digit> {
    if 'A' <= c <= 'Z' then Some(c as int - 'A' as int)
    else if 'a' <= c <= 'z' then Some(c as int - 'a' as int + 26)
    else if '0' <= c <= '9' then Some(c as int - '0' as int + 52)
    else if c == '+' then Some(62)
    else if c == '/' then Some(63)
    else None
  }

  /** Table 1 of RFC 4648. */
  function ToChar(d: Digit): (c: char)
    ensures FromChar(c) == Some(d) && c != PAD && c != '\n' && c != '\r'
  {
    if d < 26 then 'A' + d as char
    else if d < 52 then 'a' + (d - 26) as char
    else if d < 62 then '0' + (d - 52) as char
    else if d == 62 then '+'
    else '/'
  }

  // ---------- encoding ----------

  /** The digits of one group of three bytes; missing bytes count as zero. */
  function Digits(a: Byte, b: Byte, c: Byte): (Digit, Digit, Digit, Digit) {
    (a / 4, a % 4 * 16 + b / 16, b % 16 * 4 + c / 64, c % 64)
  }

  function Encode(bytes: seq<Byte>): string {
    if |bytes| == 0 then ""
    else if |bytes| == 1 then
      var d := Digits(bytes[0], 0, 0);
      [ToChar(d.0), ToChar(d.1), PAD, PAD]
    else if |bytes| == 2 then
      var d := Digits(bytes[0], bytes[1], 0);
      [ToChar(d.0), ToChar(d.1), ToChar(d.2), PAD]
    else
      var d := Digits(bytes[0], bytes[1], bytes[2]);
      [ToChar(d.0), ToChar(d.1), ToChar(d.2), ToChar(d.3)] + Encode(bytes[3..])
  }

  function Group(a: Byte, b: Byte, c: Byte): (s: string)
    ensures |s| == 4
  {
    var d := Digits(a, b, c);
    [ToChar(d.0), ToChar(d.1), ToChar(d.2), ToChar(d.3)]
  }

  lemma EncodeSplits(bytes: seq<Byte>)
    requires |bytes| >= 3
    ensures Encode(bytes) == Group(bytes[0], bytes[1], bytes[2]) + Encode(bytes[3..])
  {
  }

  lemma ShortLength(bytes: seq<Byte>)
    requires |bytes| <= 2
    ensures |Encode(bytes)| == 4 * ((|bytes| + 2) / 3)
  {
  }

  lemma OneGroupMore(n: nat)
    requires n >= 3
    ensures 4 * ((n + 2) / 3) == 4 + 4 * ((n - 3 + 2) / 3)
  {
  }

  /** Four characters for every three bytes, rounded up. */
  lemma {:induction false} EncodedLength(bytes: seq<Byte>)
    ensures |Encode(bytes)| == 4 * ((|bytes| + 2) / 3)
  {
    hide *;
    if |bytes| <= 2 {
      ShortLength(bytes);
    } else {
      EncodedLength(bytes[3..]);
      EncodeSplits(bytes);
      OneGroupMore(|bytes|);
    }
  }

  // ---------- decoding ----------

  /** Line breaks are skipped wherever they occur. */
  function SkipLineBreaks(s: string): (r: string)
    ensures |r| <= |s|
  {
    if s == "" then ""
    else if s[0] == '\n' || s[0] == '\r' then SkipLineBreaks(s[1..])
    else [s[0]] + SkipLineBreaks(s[1..])
  }

  /** The three bytes that four digits stand for. */
  function First(p: Digit, q: Digit): Byte {
    p * 4 + q / 16
  }

  function Second(q: Digit, r: Digit): Byte {
    q % 16 * 16 + r / 4
  }

  function Third(r: Digit, t: Digit): Byte {
    r % 4 * 64 + t
  }

  /** `None` stands for corrupt input: an illegal character, misplaced padding or a partial group. */
  function DecodeGroups(s: string): Option<seq<Byte>> {
    if s == "" then Some([])
    else if |s| < 4 || FromChar(s[0]).None? || FromChar(s[1]).None? then None
    else
      var p, q := FromChar(s[0]).value, FromChar(s[1]).value;
      if s[2] == PAD then
        if s[3] == PAD && |s| == 4 then Some([First(p, q)]) else None
      else if FromChar(s[2]).None? then None
      else
        var r := FromChar(s[2]).value;
        if s[3] == PAD then
          if |s| == 4 then Some([First(p, q), Second(q, r)]) else None
        else if FromChar(s[3]).None? || DecodeGroups(s[4..]).None? then None
        else
          Some([First(p, q), Second(q, r), Third(r, FromChar(s[3]).value)] + DecodeGroups(s[4..]).value)
  }

  function Decode(s: string): Option<seq<Byte>> {
    DecodeGroups(SkipLineBreaks(s))
  }

  // ---------- round trip ----------

  lemma {:induction false} NothingToSkip(s: string)
    requires forall i :: 0 <= i < |s| ==> s[i] != '\n' && s[i] != '\r'
    ensures SkipLineBreaks(s) == s
  {
    if s == "" {
    } else {
      NothingToSkip(s[1..]);
    }
  }

  lemma {:induction false} EncodedHasNoLineBreaks(bytes: seq<Byte>)
    ensures forall i :: 0 <= i < |Encode(bytes)| ==> Encode(bytes)[i] != '\n' && Encode(bytes)[i] != '\r'
  {
    if |bytes| <= 2 {
    } else {
      EncodedHasNoLineBreaks(bytes[3..]);
    }
  }

  lemma GroupInverse(a: Byte, b: Byte, c: Byte)
    ensures var d := Digits(a, b, c);
            First(d.0, d.1) == a && Second(d.1, d.2) == b && Third(d.2, d.3) == c
  {
  }

  /** A whole group is decoded to its three bytes, before whatever follows. */
  lemma DecodeGroup(a: Byte, b: Byte, c: Byte, rest: string)
    requires DecodeGroups(rest).Some?
    ensures DecodeGroups(Group(a, b, c) + rest) == Some([a, b, c] + DecodeGroups(rest).value)
  {
    GroupInverse(a, b, c);
    hide Digits, ToChar, FromChar, First, Second, Third;
    assert (Group(a, b, c) + rest)[4..] == rest;
  }

  lemma DecodeTwoDigits(p: Digit, q: Digit)
    ensures DecodeGroups([ToChar(p), ToChar(q), PAD, PAD]) == Some([First(p, q)])
  {
    hide ToChar, FromChar, First, Second, Third;
  }

  lemma DecodeThreeDigits(p: Digit, q: Digit, r: Digit)
    ensures DecodeGroups([ToChar(p), ToChar(q), ToChar(r), PAD]) == Some([First(p, q), Second(q, r)])
  {
    hide ToChar, FromChar, First, Second, Third;
  }

  lemma DecodeTail(bytes: seq<Byte>)
    requires |bytes| <= 2
    ensures DecodeGroups(Encode(bytes)) == Some(bytes)
  {
    hide Digits, ToChar, FromChar, First, Second, Third;
    if |bytes| == 2 {
      hide DecodeGroups;
      var d := Digits(bytes[0], bytes[1], 0);
      GroupInverse(bytes[0], bytes[1], 0);
      DecodeThreeDigits(d.0, d.1, d.2);
      assert bytes == [bytes[0], bytes[1]];
    } else if |bytes| == 1 {
      hide DecodeGroups;
      var d := Digits(bytes[0], 0, 0);
      GroupInverse(bytes[0], 0, 0);
      DecodeTwoDigits(d.0, d.1);
      assert bytes == [bytes[0]];
    }
  }

  lemma {:induction false} GroupsRoundTrip(bytes: seq<Byte>)
    ensures DecodeGroups(Encode(bytes)) == Some(bytes)
  {
    hide *;
    if |bytes| >= 3 {
      GroupsRoundTrip(bytes[3..]);
      EncodeSplits(bytes);
      DecodeGroup(bytes[0], bytes[1], bytes[2], Encode(bytes[3..]));
      assert bytes == [bytes[0], bytes[1], bytes[2]] + bytes[3..];
    } else {
      DecodeTail(bytes);
    }
  }

  /** Decoding undoes encoding, for every byte sequence. */
  lemma RoundTrip(bytes: seq<Byte>)
    ensures Decode(Encode(bytes)) == Some(bytes)
  {
    EncodedHasNoLineBreaks(bytes);
    NothingToSkip(Encode(bytes));
    GroupsRoundTrip(bytes);
  }

  // ---------- the encoding is the one of the standard ----------

  /** The `n` low bits of `x`, most significant first. */
  function Bits(x: nat, n: nat): seq<bool> {
    if n == 0 then [] else Bits(x / 2, n - 1) + [x % 2 == 1]
  }

  function ByteBits(bytes: seq<Byte>): seq<bool> {
    if bytes == [] then [] else Bits(bytes[0], 8) + ByteBits(bytes[1..])
  }

  /** The bits that the characters of an encoding stand for; padding stands for none. */
  function CharBits(s: string): seq<bool> {
    if s == "" then []
    else (match FromChar(s[0]) case Some(d) => Bits(d, 6) case None => []) + CharBits(s[1..])
  }

  function Pow2(n: nat): (r: nat)
    ensures r > 0
  {
    if n == 0 then 1 else 2 * Pow2(n - 1)
  }

  lemma HalveShifted(hi: nat, lo: nat, p: nat)
    requires p > 0
    ensures (hi * (2 * p) + lo) / 2 == hi * p + lo / 2
    ensures (hi * (2 * p) + lo) % 2 == lo % 2
  {
    assert hi * (2 * p) == 2 * (hi * p);
  }

  /** Bits concatenate as numbers do. */
  lemma {:induction false} BitsConcat(hi: nat, m: nat, lo: nat, n: nat)
    requires lo < Pow2(n)
    ensures Bits(hi * Pow2(n) + lo, m + n) == Bits(hi, m) + Bits(lo, n)
  {
    if n == 0 {
    } else {
      HalveShifted(hi, lo, Pow2(n - 1));
      BitsConcat(hi, m, lo / 2, n - 1);
    }
  }

  lemma Powers()
    ensures Pow2(2) == 4 && Pow2(4) == 16 && Pow2(6) == 64
  {
    assert Pow2(2) == 4;
    assert Pow2(4) == 16;
  }

  function Zeros(n: nat): (r: seq<bool>)
    ensures |r| == n
  {
    seq(n, _ => false)
  }

  lemma ZeroBits(n: nat)
    ensures Bits(0, n) == Zeros(n)
  {
    if n != 0 {
      ZeroBits(n - 1);
    }
  }

  lemma Regroup(u: seq<bool>, v: seq<bool>, w: seq<bool>, x: seq<bool>, y: seq<bool>, z: seq<bool>)
    ensures u + (v + w) + (x + y) + z == (u + v) + (w + x) + (y + z)
  {
  }

  lemma RegroupTail(u: seq<bool>, v: seq<bool>, w: seq<bool>, x: seq<bool>, y: seq<bool>)
    ensures u + (v + w) + (x + y) == (u + v) + (w + x) + y
  {
  }

  /** The three ways a byte is cut. */
  lemma ByteCuts(b: Byte)
    ensures Bits(b, 8) == Bits(b / 4, 6) + Bits(b % 4, 2)
    ensures Bits(b, 8) == Bits(b / 16, 4) + Bits(b % 16, 4)
    ensures Bits(b, 8) == Bits(b / 64, 2) + Bits(b % 64, 6)
  {
    Powers();
    hide Bits, Pow2;
    BitsConcat(b / 4, 6, b % 4, 2);
    BitsConcat(b / 16, 4, b % 16, 4);
    BitsConcat(b / 64, 2, b % 64, 6);
  }

  /** The digits of a group, each put together from parts of its bytes. */
  lemma DigitBits(a: Byte, b: Byte, c: Byte)
    ensures var d := Digits(a, b, c);
            && Bits(d.0, 6) == Bits(a / 4, 6)
            && Bits(d.1, 6) == Bits(a % 4, 2) + Bits(b / 16, 4)
            && Bits(d.2, 6) == Bits(b % 16, 4) + Bits(c / 64, 2)
            && Bits(d.3, 6) == Bits(c % 64, 6)
  {
    Powers();
    hide Bits, Pow2;
    BitsConcat(a % 4, 2, b / 16, 4);
    BitsConcat(b % 16, 4, c / 64, 2);
  }

  /** The four digits of a group carry exactly the bits of its three bytes. */
  lemma GroupBits(a: Byte, b: Byte, c: Byte)
    ensures var d := Digits(a, b, c);
            Bits(d.0, 6) + Bits(d.1, 6) + Bits(d.2, 6) + Bits(d.3, 6) == Bits(a, 8) + Bits(b, 8) + Bits(c, 8)
  {
    hide *;
    ByteCuts(a);
    ByteCuts(b);
    ByteCuts(c);
    DigitBits(a, b, c);
    Regroup(Bits(a / 4, 6), Bits(a % 4, 2), Bits(b / 16, 4), Bits(b % 16, 4), Bits(c / 64, 2), Bits(c % 64, 6));
  }

  /** A lone byte fills two digits, with four zero bits at the end. */
  lemma OneByteBits(a: Byte)
    ensures var d := Digits(a, 0, 0);
            Bits(d.0, 6) + Bits(d.1, 6) == Bits(a, 8) + Zeros(4)
  {
    ZeroBits(4);
    hide *;
    ByteCuts(a);
    DigitBits(a, 0, 0);
  }

  /** Two bytes fill three digits, with two zero bits at the end. */
  lemma TwoByteBits(a: Byte, b: Byte)
    ensures var d := Digits(a, b, 0);
            Bits(d.0, 6) + Bits(d.1, 6) + Bits(d.2, 6) == Bits(a, 8) + Bits(b, 8) + Zeros(2)
  {
    ZeroBits(2);
    hide *;
    ByteCuts(a);
    ByteCuts(b);
    DigitBits(a, b, 0);
    RegroupTail(Bits(a / 4, 6), Bits(a % 4, 2), Bits(b / 16, 4), Bits(b % 16, 4), Bits(0, 2));
  }

  /** The bits appended to complete the last digit: none, four or two. */
  function FillBits(n: nat): nat {
    if n % 3 == 0 then 0 else if n % 3 == 1 then 4 else 2
  }

  /** The padding characters appended to complete the last group: none, two or one. */
  function FillChars(n: nat): nat {
    (3 - n % 3) % 3
  }

  lemma {:induction false} CharBitsConcat(s: string, t: string)
    ensures CharBits(s + t) == CharBits(s) + CharBits(t)
  {
    if s == "" {
      assert s + t == t;
    } else {
      assert (s + t)[1..] == s[1..] + t;
      CharBitsConcat(s[1..], t);
    }
  }

  lemma FourDigits(d: (Digit, Digit, Digit, Digit))
    ensures CharBits([ToChar(d.0), ToChar(d.1)]) == Bits(d.0, 6) + Bits(d.1, 6)
    ensures CharBits([ToChar(d.0), ToChar(d.1), ToChar(d.2)]) == Bits(d.0, 6) + Bits(d.1, 6) + Bits(d.2, 6)
    ensures CharBits([ToChar(d.0), ToChar(d.1), ToChar(d.2), ToChar(d.3)])
            == Bits(d.0, 6) + Bits(d.1, 6) + Bits(d.2, 6) + Bits(d.3, 6)
  {
    hide Bits, FromChar;
    var s := [ToChar(d.0), ToChar(d.1), ToChar(d.2), ToChar(d.3)];
    assert CharBits(s[..1]) == Bits(d.0, 6);
    assert s[..2] == s[..1] + [s[1]] && s[..3] == s[..2] + [s[2]] && s == s[..3] + [s[3]];
    CharBitsConcat(s[..1], [s[1]]);
    CharBitsConcat(s[..2], [s[2]]);
    CharBitsConcat(s[..3], [s[3]]);
    assert CharBits([s[1]]) == Bits(d.1, 6) && CharBits([s[2]]) == Bits(d.2, 6) && CharBits([s[3]]) == Bits(d.3, 6);
    assert s[..2] == [s[0], s[1]] && s[..3] == [s[0], s[1], s[2]];
  }

  lemma PadBits(s: string, n: nat)
    requires n <= 2
    ensures CharBits(s + [PAD, PAD][..n]) == CharBits(s)
  {
    CharBitsConcat(s, [PAD, PAD][..n]);
    assert CharBits([PAD]) == [] && CharBits([PAD, PAD]) == [];
    assert [PAD, PAD][..0] == [] && [PAD, PAD][..1] == [PAD] && [PAD, PAD][..2] == [PAD, PAD];
  }

  lemma {:induction false} ByteBitsOfGroup(bytes: seq<Byte>)
    requires bytes != []
    ensures |bytes| == 1 ==> ByteBits(bytes) == Bits(bytes[0], 8)
    ensures |bytes| == 2 ==> ByteBits(bytes) == Bits(bytes[0], 8) + Bits(bytes[1], 8)
    ensures |bytes| >= 3 ==>
              ByteBits(bytes) == Bits(bytes[0], 8) + Bits(bytes[1], 8) + Bits(bytes[2], 8) + ByteBits(bytes[3..])
  {
    hide Bits;
    if |bytes| == 1 {
      assert bytes[1..] == [];
    } else if |bytes| == 2 {
      assert ByteBits(bytes[1..]) == Bits(bytes[1], 8) + ByteBits(bytes[1..][1..]);
      assert bytes[1..][1..] == [];
    } else {
      assert bytes[1..][1..][1..] == bytes[3..];
      assert ByteBits(bytes[1..]) == Bits(bytes[1], 8) + ByteBits(bytes[1..][1..]);
    }
  }

  lemma GroupChars(a: Byte, b: Byte, c: Byte)
    ensures CharBits(Group(a, b, c)) == Bits(a, 8) + Bits(b, 8) + Bits(c, 8)
  {
    hide Bits, ToChar, CharBits, Digits;
    FourDigits(Digits(a, b, c));
    GroupBits(a, b, c);
  }

  lemma ShortEncodings(bytes: seq<Byte>)
    ensures |bytes| == 1 ==>
              var d := Digits(bytes[0], 0, 0);
              Encode(bytes) == [ToChar(d.0), ToChar(d.1)] + [PAD, PAD][..2]
    ensures |bytes| == 2 ==>
              var d := Digits(bytes[0], bytes[1], 0);
              Encode(bytes) == [ToChar(d.0), ToChar(d.1), ToChar(d.2)] + [PAD, PAD][..1]
  {
    hide Digits, ToChar;
  }

  lemma TailBits(bytes: seq<Byte>)
    requires 1 <= |bytes| <= 2
    ensures CharBits(Encode(bytes)) == ByteBits(bytes) + Zeros(FillBits(|bytes|))
  {
    assert FillBits(1) == 4 && FillBits(2) == 2;
    hide *;
    ByteBitsOfGroup(bytes);
    ShortEncodings(bytes);
    if |bytes| == 1 {
      var d := Digits(bytes[0], 0, 0);
      FourDigits(d);
      OneByteBits(bytes[0]);
      PadBits([ToChar(d.0), ToChar(d.1)], 2);
    } else {
      var d := Digits(bytes[0], bytes[1], 0);
      FourDigits(d);
      TwoByteBits(bytes[0], bytes[1]);
      PadBits([ToChar(d.0), ToChar(d.1), ToChar(d.2)], 1);
    }
  }

  /** A whole group does not change how the end of the input is completed. */
  lemma FillAfterGroup(n: nat)
    requires n >= 3
    ensures FillBits(n) == FillBits(n - 3) && FillChars(n) == FillChars(n - 3)
  {
    assert n % 3 == (n - 3) % 3;
  }

  /**
   The encoding is the one of RFC 4648: the bits of the input, read as one string and completed with
   zero bits to whole digits, are the bits of the digits in the output.
   */
  lemma {:induction false} EncodesTheBits(bytes: seq<Byte>)
    ensures CharBits(Encode(bytes)) == ByteBits(bytes) + Zeros(FillBits(|bytes|))
  {
    if |bytes| >= 3 {
      hide *;
      EncodesTheBits(bytes[3..]);
      EncodeSplits(bytes);
      GroupChars(bytes[0], bytes[1], bytes[2]);
      ByteBitsOfGroup(bytes);
      CharBitsConcat(Group(bytes[0], bytes[1], bytes[2]), Encode(bytes[3..]));
      FillAfterGroup(|bytes|);
    } else if bytes != [] {
      TailBits(bytes);
    }
  }

  lemma FillFits(bytes: seq<Byte>)
    ensures FillChars(|bytes|) <= |Encode(bytes)|
  {
    EncodedLength(bytes);
    hide Encode;
  }

  lemma GroupInAlphabet(a: Byte, b: Byte, c: Byte)
    ensures forall i :: 0 <= i < 4 ==> FromChar(Group(a, b, c)[i]).Some?
  {
    hide FromChar, ToChar, Digits;
  }

  lemma ShortPadding(bytes: seq<Byte>)
    requires |bytes| <= 2
    ensures var s := Encode(bytes);
            && (forall i :: 0 <= i < |s| - FillChars(|bytes|) ==> FromChar(s[i]).Some?)
            && (forall i :: |s| - FillChars(|bytes|) <= i < |s| ==> s[i] == PAD)
  {
    hide FromChar, ToChar, Digits;
  }

  /** Padding completes the last group, and every other character is a digit of the alphabet. */
  lemma {:induction false} PaddingIsAtTheEnd(bytes: seq<Byte>)
    ensures var s := Encode(bytes);
            && (forall i :: 0 <= i < |s| - FillChars(|bytes|) ==> FromChar(s[i]).Some?)
            && (forall i :: |s| - FillChars(|bytes|) <= i < |s| ==> s[i] == PAD)
  {
    hide *;
    if |bytes| <= 2 {
      ShortPadding(bytes);
    } else {
      PaddingIsAtTheEnd(bytes[3..]);
      EncodeSplits(bytes);
      FillAfterGroup(|bytes|);
      GroupInAlphabet(bytes[0], bytes[1], bytes[2]);
      assert FillChars(|bytes|) <= |Encode(bytes[3..])| by { FillFits(bytes[3..]); }
    }
  }

  // ---------- the alphabet ----------

  /**
   Table 1 of RFC 4648: upper-case letters, lower-case letters and decimal digits in their order, then
   plus and slash; and the same table is read backwards.
   */
  lemma AlphabetIsTheTable(d: Digit, c: char)
    ensures ToChar(0) == 'A' && ToChar(25) == 'Z' && ToChar(26) == 'a' && ToChar(51) == 'z'
    ensures ToChar(52) == '0' && ToChar(61) == '9' && ToChar(62) == '+' && ToChar(63) == '/'
    ensures d < 61 && d != 25 && d != 51 ==> ToChar(d + 1) as int == ToChar(d) as int + 1
    ensures FromChar(c) == Some(d) <==> c == ToChar(d)
  {
  }

  // ---------- what is decoded ----------

  lemma {:induction false} BitsLength(x: nat, n: nat)
    ensures |Bits(x, n)| == n
  {
    if n == 0 {
    } else {
      BitsLength(x / 2, n - 1);
    }
  }

  /** Only line breaks are skipped, wherever they are. */
  lemma {:induction false} OnlyLineBreaksAreSkipped(x: string, y: string, c: char)
    ensures SkipLineBreaks(x + y) == SkipLineBreaks(x) + SkipLineBreaks(y)
    ensures SkipLineBreaks([c]) == if c == '\n' || c == '\r' then "" else [c]
  {
    if x == "" {
      assert x + y == y;
      assert [c][1..] == "";
    } else {
      assert (x + y)[1..] == x[1..] + y;
      OnlyLineBreaksAreSkipped(x[1..], y, c);
    }
  }

  /** Whole groups of characters, of which the last `k` are padding and all others in the alphabet. */
  predicate PaddedBy(t: string, k: nat) {
    && |t| % 4 == 0 && k <= 2 && k <= |t|
    && (forall i :: 0 <= i < |t| - k ==> FromChar(t[i]).Some?)
    && (forall i :: |t| - k <= i < |t| ==> t[i] == PAD)
  }

  lemma FirstSplits(p: Digit, q: Digit)
    ensures First(p, q) / 4 == p && First(p, q) % 4 == q / 16
  {
  }

  lemma SecondSplits(q: Digit, r: Digit)
    ensures Second(q, r) / 16 == q % 16 && Second(q, r) % 16 == r / 4
  {
  }

  lemma ThirdSplits(r: Digit, u: Digit)
    ensures Third(r, u) / 64 == r % 4 && Third(r, u) % 64 == u
  {
  }

  lemma DigitsOfDecoded(p: Digit, q: Digit, r: Digit, u: Digit)
    ensures Digits(First(p, q), Second(q, r), Third(r, u)) == (p, q, r, u)
  {
    FirstSplits(p, q);
    SecondSplits(q, r);
    ThirdSplits(r, u);
    hide First, Second, Third;
  }

  lemma DecodedBits(p: Digit, q: Digit, r: Digit, u: Digit)
    ensures Bits(First(p, q), 8) + Bits(Second(q, r), 8) + Bits(Third(r, u), 8)
            == Bits(p, 6) + Bits(q, 6) + Bits(r, 6) + Bits(u, 6)
  {
    hide *;
    DigitsOfDecoded(p, q, r, u);
    GroupBits(First(p, q), Second(q, r), Third(r, u));
  }

  lemma Cut(a: seq<bool>, b: seq<bool>, c: seq<bool>, p: seq<bool>, q: seq<bool>, r: seq<bool>, u: seq<bool>)
    requires |a| == |b| == 8 && |p| == |q| == |r| == 6 && a + b + c == p + q + r + u
    ensures a == (p + q)[..8] && a + b == (p + q + r)[..16]
  {
    assert a == (a + b + c)[..8] && a + b == (a + b + c)[..16];
    assert (p + q)[..8] == (p + q + r + u)[..8] && (p + q + r)[..16] == (p + q + r + u)[..16];
  }

  /** The first byte of a group lies in its first two digits, and the first two bytes in its first three. */
  lemma TailDecodedBits(p: Digit, q: Digit, r: Digit)
    ensures |Bits(p, 6)| == |Bits(q, 6)| == |Bits(r, 6)| == 6
    ensures Bits(First(p, q), 8) == (Bits(p, 6) + Bits(q, 6))[..8]
    ensures Bits(First(p, q), 8) + Bits(Second(q, r), 8) == (Bits(p, 6) + Bits(q, 6) + Bits(r, 6))[..16]
  {
    DecodedBits(p, q, r, 0);
    hide Bits;
    BitsLength(p, 6);
    BitsLength(q, 6);
    BitsLength(r, 6);
    BitsLength(First(p, q), 8);
    BitsLength(Second(q, r), 8);
    hide First, Second, Third;
    Cut(Bits(First(p, q), 8), Bits(Second(q, r), 8), Bits(Third(r, 0), 8), Bits(p, 6), Bits(q, 6), Bits(r, 6), Bits(0, 6));
  }

  /** `bytes` is what the digits of `t` stand for: as many whole bytes as they have bits for, and no others. */
  ghost predicate StandsFor(t: string, bytes: seq<Byte>) {
    |CharBits(t)| / 8 == |bytes| && ByteBits(bytes) == CharBits(t)[..8 * |bytes|]
  }

  /** The digit of a character, or any digit. */
  function DigitAt(c: char): Digit {
    match FromChar(c)
    case Some(d) => d
    case None => 0
  }

  /** What the digits at the start of a group carry. */
  lemma LeadingBits(t: string)
    requires |t| >= 4 && FromChar(t[0]).Some? && FromChar(t[1]).Some?
    ensures var p, q := FromChar(t[0]).value, FromChar(t[1]).value;
            && CharBits(t[..2]) == Bits(p, 6) + Bits(q, 6)
            && (FromChar(t[2]).Some? ==>
                  var r := FromChar(t[2]).value;
                  && CharBits(t[..3]) == Bits(p, 6) + Bits(q, 6) + Bits(r, 6)
                  && (FromChar(t[3]).Some? ==>
                        CharBits(t[..4]) == Bits(p, 6) + Bits(q, 6) + Bits(r, 6) + Bits(FromChar(t[3]).value, 6)))
  {
    hide CharBits, Bits, FromChar, ToChar;
    var d := (DigitAt(t[0]), DigitAt(t[1]), DigitAt(t[2]), DigitAt(t[3]));
    AlphabetIsTheTable(d.0, t[0]);
    AlphabetIsTheTable(d.1, t[1]);
    AlphabetIsTheTable(d.2, t[2]);
    AlphabetIsTheTable(d.3, t[3]);
    FourDigits(d);
    assert t[..2] == [t[0], t[1]] && t[..3] == [t[0], t[1], t[2]] && t[..4] == [t[0], t[1], t[2], t[3]];
  }

  /** The bytes of a group by its padding; `k` characters of padding stand for as many missing bytes. */
  function GroupBytes(t: string, k: nat): seq<Byte>
    requires |t| == 4 && PaddedBy(t, k)
  {
    var p, q, r, u := DigitAt(t[0]), DigitAt(t[1]), DigitAt(t[2]), DigitAt(t[3]);
    [First(p, q), Second(q, r), Third(r, u)][..3 - k]
  }

  lemma NoBytes()
    ensures ByteBits([]) == [] && CharBits("") == []
  {
  }

  lemma GroupStandsFor(t: string, k: nat)
    requires |t| == 4 && PaddedBy(t, k)
    ensures StandsFor(t, GroupBytes(t, k)) && |GroupBytes(t, k)| == 3 - k
    ensures k == 0 ==> CharBits(t) == ByteBits(GroupBytes(t, k)) && |CharBits(t)| == 24
  {
    var p, q, r, u := DigitAt(t[0]), DigitAt(t[1]), DigitAt(t[2]), DigitAt(t[3]);
    assert t == t[..4 - k] + [PAD, PAD][..k];
    assert t[..4] == t;
    hide Bits, FromChar, CharBits, ByteBits, First, Second, Third;
    LeadingBits(t);
    PadBits(t[..4 - k], k);
    DecodedBits(p, q, r, u);
    TailDecodedBits(p, q, r);
    BitsLength(u, 6);
    ByteBitsOfGroup(GroupBytes(t, k));
    assert ByteBits([]) == [] by { NoBytes(); }
  }

  /** Decoding one group. */
  lemma OneGroupDecodes(t: string, k: nat)
    requires |t| == 4 && PaddedBy(t, k)
    ensures DecodeGroups(t) == Some(GroupBytes(t, k))
  {
    assert FromChar(PAD).None?;
    assert t[4..] == "" && DecodeGroups("") == Some([]);
    hide FromChar, First, Second, Third;
    var p, q, r, u := DigitAt(t[0]), DigitAt(t[1]), DigitAt(t[2]), DigitAt(t[3]);
    var bytes := [First(p, q), Second(q, r), Third(r, u)];
    assert bytes[..1] == [bytes[0]] && bytes[..2] == [bytes[0], bytes[1]] && bytes[..3] == bytes;
    if k == 2 {
      assert t[2] == PAD && t[3] == PAD;
    } else if k == 1 {
      assert FromChar(t[2]).Some? && t[3] == PAD;
      assert DecodeGroups(t) == Some(bytes[..2]);
    } else {
      assert FromChar(t[2]).Some? && FromChar(t[3]).Some?;
      assert bytes + [] == bytes == bytes[..3 - k];
      assert DecodeGroups(t) == Some(bytes + []);
    }
  }

  lemma DecodedGroupIsPadded(t: string)
    requires |t| == 4 && DecodeGroups(t).Some?
    ensures PaddedBy(t, if t[2] == PAD then 2 else if t[3] == PAD then 1 else 0)
  {
    hide FromChar, First, Second, Third;
  }

  lemma FirstGroupIsWhole(t: string, k: nat)
    requires |t| > 4 && PaddedBy(t, k)
    ensures PaddedBy(t[..4], 0) && PaddedBy(t[4..], k)
  {
    hide FromChar;
    assert |t[4..]| >= 4;
    assert forall i :: 0 <= i < |t[4..]| ==> t[4..][i] == t[i + 4];
  }

  lemma GroupBeforeGroups(t: string, k: nat)
    requires |t| > 4 && PaddedBy(t[..4], 0) && PaddedBy(t[4..], k)
    ensures PaddedBy(t, k)
  {
    hide FromChar;
    forall i | 0 <= i < |t| - k
      ensures FromChar(t[i]).Some?
    {
      assert t[i] == if i < 4 then t[..4][i] else t[4..][i - 4];
    }
    forall i | |t| - k <= i < |t|
      ensures t[i] == PAD
    {
      assert t[i] == t[4..][i - 4];
    }
  }

  /** The first group of several is whole, and only the rest can be padded. */
  lemma FirstOfMoreGroups(t: string, k: nat)
    requires |t| > 4
    ensures PaddedBy(t, k) <==> PaddedBy(t[..4], 0) && PaddedBy(t[4..], k)
  {
    hide PaddedBy;
    if PaddedBy(t, k) {
      FirstGroupIsWhole(t, k);
    }
    if PaddedBy(t[..4], 0) && PaddedBy(t[4..], k) {
      GroupBeforeGroups(t, k);
    }
  }

  predicate FourInAlphabet(t: string)
    requires |t| >= 4
  {
    FromChar(t[0]).Some? && FromChar(t[1]).Some? && FromChar(t[2]).Some? && FromChar(t[3]).Some?
  }

  lemma UnfoldGroups(t: string)
    requires |t| > 4
    ensures DecodeGroups(t).Some? <==> FourInAlphabet(t) && DecodeGroups(t[4..]).Some?
    ensures DecodeGroups(t).Some? ==>
              DecodeGroups(t).value
              == [First(DigitAt(t[0]), DigitAt(t[1])), Second(DigitAt(t[1]), DigitAt(t[2])), Third(DigitAt(t[2]), DigitAt(t[3]))]
                 + DecodeGroups(t[4..]).value
  {
    assert FromChar(PAD).None?;
    hide FromChar, First, Second, Third;
  }

  lemma WholeGroup(t: string)
    requires |t| == 4
    ensures PaddedBy(t, 0) <==> FourInAlphabet(t)
  {
    hide FromChar;
  }

  lemma BytesOfWholeGroup(t: string)
    requires |t| == 4 && PaddedBy(t, 0)
    ensures GroupBytes(t, 0)
            == [First(DigitAt(t[0]), DigitAt(t[1])), Second(DigitAt(t[1]), DigitAt(t[2])), Third(DigitAt(t[2]), DigitAt(t[3]))]
  {
    hide FromChar, DigitAt, First, Second, Third;
  }

  lemma DecodeMoreGroups(t: string)
    requires |t| > 4
    ensures DecodeGroups(t).Some? <==> PaddedBy(t[..4], 0) && DecodeGroups(t[4..]).Some?
    ensures DecodeGroups(t).Some? ==>
              DecodeGroups(t).value == GroupBytes(t[..4], 0) + DecodeGroups(t[4..]).value
  {
    var g := t[..4];
    assert g[0] == t[0] && g[1] == t[1] && g[2] == t[2] && g[3] == t[3];
    assert FourInAlphabet(t) <==> FourInAlphabet(g);
    hide *;
    UnfoldGroups(t);
    WholeGroup(g);
    if PaddedBy(g, 0) {
      BytesOfWholeGroup(g);
    }
  }

  lemma {:induction false} ByteBitsConcat(xs: seq<Byte>, ys: seq<Byte>)
    ensures ByteBits(xs + ys) == ByteBits(xs) + ByteBits(ys)
    ensures |ByteBits(xs)| == 8 * |xs|
  {
    hide Bits;
    if xs == [] {
      assert xs + ys == ys;
    } else {
      BitsLength(xs[0], 8);
      assert (xs + ys)[1..] == xs[1..] + ys;
      ByteBitsConcat(xs[1..], ys);
    }
  }

  lemma StandsForConcat(x: string, xs: seq<Byte>, y: string, ys: seq<Byte>)
    requires CharBits(x) == ByteBits(xs) && |CharBits(x)| == 8 * |xs| && StandsFor(y, ys)
    ensures StandsFor(x + y, xs + ys)
  {
    CharBitsConcat(x, y);
    ByteBitsConcat(xs, ys);
    hide CharBits, ByteBits;
    assert (CharBits(x) + CharBits(y))[..8 * |xs + ys|] == CharBits(x) + CharBits(y)[..8 * |ys|];
  }

  lemma NothingDecodes()
    ensures DecodeGroups("") == Some([]) && PaddedBy("", 0) && StandsFor("", [])
  {
  }

  lemma TooShort(t: string)
    requires 0 < |t| < 4
    ensures DecodeGroups(t).None? && !exists k :: PaddedBy(t, k)
  {
  }

  lemma {:induction false} GroupsDecodeExactly(t: string)
    ensures DecodeGroups(t).Some? <==> exists k :: PaddedBy(t, k)
    ensures DecodeGroups(t).Some? ==> StandsFor(t, DecodeGroups(t).value)
  {
    hide *;
    if t == "" {
      NothingDecodes();
    } else if |t| < 4 {
      TooShort(t);
    } else if |t| == 4 {
      if DecodeGroups(t).Some? {
        DecodedGroupIsPadded(t);
      }
      forall k | PaddedBy(t, k)
        ensures DecodeGroups(t) == Some(GroupBytes(t, k)) && StandsFor(t, GroupBytes(t, k))
      {
        OneGroupDecodes(t, k);
        GroupStandsFor(t, k);
      }
    } else {
      GroupsDecodeExactly(t[4..]);
      DecodeMoreGroups(t);
      forall k
        ensures PaddedBy(t, k) <==> PaddedBy(t[..4], 0) && PaddedBy(t[4..], k)
      {
        FirstOfMoreGroups(t, k);
      }
      if DecodeGroups(t).Some? {
        GroupStandsFor(t[..4], 0);
        StandsForConcat(t[..4], GroupBytes(t[..4], 0), t[4..], DecodeGroups(t[4..]).value);
        assert t == t[..4] + t[4..];
      }
    }
  }

  /**
   Decoding, exactly: a body is corrupt if and only if, without its line breaks, it is not a number of
   whole groups of the alphabet with at most two padding characters at the very end; and otherwise the bytes
   are what its digits stand for.
   */
  lemma DecodesExactly(s: string)
    ensures Decode(s).Some? <==> exists k :: PaddedBy(SkipLineBreaks(s), k)
    ensures Decode(s).Some? ==> StandsFor(SkipLineBreaks(s), Decode(s).value)
  {
    hide DecodeGroups, SkipLineBreaks, PaddedBy, StandsFor;
    GroupsDecodeExactly(SkipLineBreaks(s));
  }
}
