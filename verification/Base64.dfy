/**
 * Streaming base64, as in section 4 of RFC 4648: an encoder with a three-way
 * state and the last byte, a decoder that fills its output in place, and the
 * buffer sizes their callers allocate.
 */
module Base64 {

  type byte = bv8

  const PAD: byte := 61       // '='
  const BAD: byte := 255      // the decoding table's mark for other characters

  /** The encoding alphabet: A-Z, a-z, 0-9, + and /. */
  function En(x: byte): byte
  {
    if x < 26 then 65 + x
    else if x < 52 then 97 + (x - 26)
    else if x < 62 then 48 + (x - 52)
    else if x == 62 then 43
    else 47
  }

  /** The decoding table. */
  function De(c: byte): byte {
    if 65 <= c <= 90 then c - 65
    else if 97 <= c <= 122 then c - 97 + 26
    else if 48 <= c <= 57 then c - 48 + 52
    else if c == 43 then 62
    else if c == 47 then 63
    else BAD
  }

  lemma Alphabet(x: byte)
    requires x < 64
    ensures De(En(x)) == x && En(x) != PAD
  {
  }

  /** The characters of table 1 of RFC 4648, by their codes: A to Z, a to z, 0 to 9, + and /. */
  lemma TableOfRfc()
    ensures [En(0), En(1), En(2), En(3), En(4), En(5), En(6), En(7)]
         == [65, 66, 67, 68, 69, 70, 71, 72]
    ensures [En(8), En(9), En(10), En(11), En(12), En(13), En(14), En(15)]
         == [73, 74, 75, 76, 77, 78, 79, 80]
    ensures [En(16), En(17), En(18), En(19), En(20), En(21), En(22), En(23)]
         == [81, 82, 83, 84, 85, 86, 87, 88]
    ensures [En(24), En(25), En(26), En(27), En(28), En(29), En(30), En(31)]
         == [89, 90, 97, 98, 99, 100, 101, 102]
    ensures [En(32), En(33), En(34), En(35), En(36), En(37), En(38), En(39)]
         == [103, 104, 105, 106, 107, 108, 109, 110]
    ensures [En(40), En(41), En(42), En(43), En(44), En(45), En(46), En(47)]
         == [111, 112, 113, 114, 115, 116, 117, 118]
    ensures [En(48), En(49), En(50), En(51), En(52), En(53), En(54), En(55)]
         == [119, 120, 121, 122, 48, 49, 50, 51]
    ensures [En(56), En(57), En(58), En(59), En(60), En(61), En(62), En(63)]
         == [52, 53, 54, 55, 56, 57, 43, 47]
  {
  }

  /** The decoding table knows exactly these characters, each as the digit it stands for. */
  lemma DeKnowsAlphabet(c: byte)
    ensures De(c) == BAD || (De(c) < 64 && En(De(c)) == c)
  {
  }

  // ----- four digits for three bytes

  function Digit(a: byte, b: byte, c: byte, k: nat): byte
    requires k < 4
  {
    if k == 0 then (a >> 2) & 0x3F
    else if k == 1 then ((a & 0x3) << 4) | ((b >> 4) & 0xF)
    else if k == 2 then ((b & 0xF) << 2) | ((c >> 6) & 0x3)
    else c & 0x3F
  }

  // The byte made of two neighbouring digits.
  function Join(x: byte, y: byte, k: nat): byte {
    if k == 0 then ((x << 2) & 0xFF) | ((y >> 4) & 0x3)
    else if k == 1 then ((x & 0xF) << 4) | ((y >> 2) & 0xF)
    else ((x & 0x3) << 6) | y
  }

  lemma JoinUndoesDigit(a: byte, b: byte, c: byte)
    ensures forall k :: 0 <= k < 4 ==> Digit(a, b, c, k) < 64
    ensures Join(Digit(a, b, c, 0), Digit(a, b, c, 1), 0) == a
    ensures Join(Digit(a, b, c, 1), Digit(a, b, c, 2), 1) == b
    ensures Join(Digit(a, b, c, 2), Digit(a, b, c, 3), 2) == c
  {
  }

  lemma JoinAt(a: byte, b: byte, c: byte, k: nat)
    requires k < 3
    ensures Join(Digit(a, b, c, k), Digit(a, b, c, k + 1), k) == if k == 0 then a else if k == 1 then b else c
  {
    JoinUndoesDigit(a, b, c);
  }

  /** The digits of a group spell, six bits each, the same 24 bits as its bytes. */
  lemma DigitsSpellGroup(a: byte, b: byte, c: byte)
    ensures ((Digit(a, b, c, 0) as bv24) << 18) | ((Digit(a, b, c, 1) as bv24) << 12)
            | ((Digit(a, b, c, 2) as bv24) << 6) | (Digit(a, b, c, 3) as bv24)
         == ((a as bv24) << 16) | ((b as bv24) << 8) | (c as bv24)
  {
  }

  // ----- the encoding, character by character

  // A missing byte counts as zero.
  function At(s: seq<byte>, i: nat): byte { if i < |s| then s[i] else 0 }

  function DigitOf(s: seq<byte>, g: nat, k: nat): byte
    requires k < 4
  {
    Digit(At(s, g * 3), At(s, g * 3 + 1), At(s, g * 3 + 2), k)
  }

  // Character k of group g; a group short of bytes is padded.
  function CharIn(s: seq<byte>, g: nat, k: nat): byte
    requires k < 4
  {
    if k >= 2 && g * 3 + k > |s| then PAD else En(DigitOf(s, g, k))
  }

  function CharAt(s: seq<byte>, p: nat): byte { CharIn(s, p / 4, p % 4) }

  lemma CharOfGroup(s: seq<byte>, g: nat, k: nat)
    requires k < 4
    ensures CharAt(s, g * 4 + k) == CharIn(s, g, k)
  {
    assert (g * 4 + k) / 4 == g && (g * 4 + k) % 4 == k;
  }

  function EncodedLength(n: nat): nat { (n + 2) / 3 * 4 }

  function Encode(s: seq<byte>): seq<byte> {
    seq(EncodedLength(|s|), p requires p >= 0 => CharAt(s, p))
  }

  ghost predicate EncodedUpTo(out: array<byte>, j: nat, s: seq<byte>)
    reads out
  {
    j <= out.Length && forall p :: 0 <= p < j ==> out[p] == CharAt(s, p)
  }

  lemma LengthOfGroups(n: nat, g: nat, st: nat)
    requires n == g * 3 + st && st < 3
    ensures EncodedLength(n) == g * 4 + (if st == 0 then 0 else 4)
  {
  }

  // What one byte adds in each of the three states.
  lemma StateDigits(s: seq<byte>, g: nat, st: nat, l: byte, c: byte)
    requires st < 3 && g * 3 + st < |s| && s[g * 3 + st] == c && (st > 0 ==> s[g * 3 + st - 1] == l)
    ensures st == 0 ==> CharIn(s, g, 0) == En((c >> 2) & 0x3F)
    ensures st == 1 ==> CharIn(s, g, 1) == En(((l & 0x3) << 4) | ((c >> 4) & 0xF))
    ensures st == 2 ==> CharIn(s, g, 2) == En(((l & 0xF) << 2) | ((c >> 6) & 0x3)) && CharIn(s, g, 3) == En(c & 0x3F)
  {
  }

  // What is added after the last byte.
  lemma TailDigits(s: seq<byte>, g: nat, st: nat, l: byte)
    requires 0 < st < 3 && g * 3 + st == |s| && s[g * 3 + st - 1] == l
    ensures st == 1 ==> CharIn(s, g, 1) == En((l & 0x3) << 4) && CharIn(s, g, 2) == PAD
    ensures st == 2 ==> CharIn(s, g, 2) == En((l & 0xF) << 2)
    ensures CharIn(s, g, 3) == PAD
  {
    var zero: byte := 0;
    assert ((l & 0x3) << 4) | ((zero >> 4) & 0xF) == (l & 0x3) << 4;
    assert ((l & 0xF) << 2) | ((zero >> 6) & 0x3) == (l & 0xF) << 2;
  }

  method Put(out: array<byte>, j: nat, ch: byte, ghost s: seq<byte>, ghost g: nat, ghost k: nat)
    requires j < out.Length && EncodedUpTo(out, j, s) && k < 4 && j == g * 4 + k && ch == CharIn(s, g, k)
    modifies out
    ensures EncodedUpTo(out, j + 1, s)
  {
    CharOfGroup(s, g, k);
    out[j] := ch;
  }

  /** The loop writes the encoding and a final NUL, inside the allocated size. */
  method Base64Encode(input: seq<byte>, out: array<byte>) returns (j: nat)
    requires out.Length >= EncodedLength(|input|) + 1
    modifies out
    ensures j == EncodedLength(|input|) && out[..j] == Encode(input) && out[j] == 0
  {
    var st: nat, l: byte := 0, 0;
    ghost var g: nat := 0;   // complete groups
    j := 0;
    for i := 0 to |input|
      invariant st < 3 && i == g * 3 + st && j == g * 4 + st
      invariant i > 0 ==> l == input[i - 1]
      invariant EncodedUpTo(out, j, input)
    {
      var c := input[i];
      StateDigits(input, g, st, l, c);
      if st == 0 {
        Put(out, j, En((c >> 2) & 0x3F), input, g, 0);
        j, st := j + 1, 1;
      } else if st == 1 {
        Put(out, j, En(((l & 0x3) << 4) | ((c >> 4) & 0xF)), input, g, 1);
        j, st := j + 1, 2;
      } else {
        Put(out, j, En(((l & 0xF) << 2) | ((c >> 6) & 0x3)), input, g, 2);
        Put(out, j + 1, En(c & 0x3F), input, g, 3);
        j, st := j + 2, 0;
        g := g + 1;
      }
      l := c;
    }
    LengthOfGroups(|input|, g, st);
    if st == 1 {
      TailDigits(input, g, st, l);
      Put(out, j, En((l & 0x3) << 4), input, g, 1);
      Put(out, j + 1, PAD, input, g, 2);
      Put(out, j + 2, PAD, input, g, 3);
      j := j + 3;
    } else if st == 2 {
      TailDigits(input, g, st, l);
      Put(out, j, En((l & 0xF) << 2), input, g, 2);
      Put(out, j + 1, PAD, input, g, 3);
      j := j + 2;
    }
    out[j] := 0;
    assert EncodedUpTo(out, j, input);
  }

  // ----- the decoder

  // The position of the first padding character, or the end.
  function Stop(t: seq<byte>, i: nat): (n: nat)
    requires i <= |t|
    ensures i <= n <= |t| && (n < |t| ==> t[n] == PAD)
    ensures forall p :: i <= p < n ==> t[p] != PAD
    decreases |t| - i
  {
    if i == |t| || t[i] == PAD then i else Stop(t, i + 1)
  }

  predicate Readable(t: seq<byte>, n: nat)
    requires n <= |t|
  {
    forall p :: 0 <= p < n ==> De(t[p]) != BAD
  }

  // Bytes completed by n characters.
  function Completed(n: nat): nat { n / 4 * 3 + (if n % 4 == 0 then 0 else n % 4 - 1) }

  lemma CompletedIn(n: nat, g: nat, k: nat)
    requires n == g * 4 + k && k < 4
    ensures Completed(n) == g * 3 + (if k == 0 then 0 else k - 1)
  {
  }

  // Byte k of group g.
  function ByteIn(t: seq<byte>, g: nat, k: nat): byte
    requires g * 4 + k + 1 < |t|
  {
    Join(De(t[g * 4 + k]), De(t[g * 4 + k + 1]), k)
  }

  function ByteAt(t: seq<byte>, i: nat): byte
    requires i / 3 * 4 + i % 3 + 1 < |t|
  {
    ByteIn(t, i / 3, i % 3)
  }

  /** What a caller gets: nothing for a bad length or a bad character before the padding. */
  function Decode(t: seq<byte>): seq<byte> {
    var n := Stop(t, 0);
    if |t| % 4 != 0 || !Readable(t, n) then []
    else seq(Completed(n), i requires 0 <= i < Completed(n) => ByteAt(t, i))
  }

  ghost predicate DecodedUpTo(out: array<byte>, j: nat, t: seq<byte>)
    reads out
  {
    && j <= out.Length
    && forall p :: 0 <= p < j ==> p / 3 * 4 + p % 3 + 1 < |t| && out[p] == ByteAt(t, p)
  }

  // The byte under construction after digit c at position k - 1.
  function Half(c: byte, k: nat): byte {
    if k == 1 then (c << 2) & 0xFF else if k == 2 then (c & 0xF) << 4 else (c & 0x3) << 6
  }

  method Finish(out: array<byte>, j: nat, low: byte, ghost t: seq<byte>, ghost g: nat, ghost k: nat)
    requires j < out.Length && DecodedUpTo(out, j, t) && k < 3 && g * 4 + k + 1 < |t| && j == g * 3 + k
    requires out[j] | low == ByteIn(t, g, k)
    modifies out
    ensures DecodedUpTo(out, j + 1, t)
  {
    assert (g * 3 + k) / 3 == g && (g * 3 + k) % 3 == k;
    out[j] := out[j] | low;
  }

  method Begin(out: array<byte>, j: nat, v: byte, ghost t: seq<byte>)
    requires j < out.Length && DecodedUpTo(out, j, t)
    modifies out
    ensures DecodedUpTo(out, j, t) && out[j] == v
  {
    out[j] := v;
  }

  lemma DeIsSmall(c: byte)
    ensures De(c) != BAD ==> De(c) < 64 && 43 <= c <= 122
  {
  }

  // The second digit of a group completes its first byte.
  method SecondDigit(out: array<byte>, j: nat, c: byte, ghost t: seq<byte>, ghost g: nat)
    requires j == g * 3 && g * 4 + 1 < |t| && c == De(t[g * 4 + 1]) && j + 1 < out.Length
    requires DecodedUpTo(out, j, t) && out[j] == Half(De(t[g * 4]), 1)
    modifies out
    ensures DecodedUpTo(out, j + 1, t) && out[j + 1] == Half(c, 2)
  {
    Finish(out, j, (c >> 4) & 0x3, t, g, 0);
    Begin(out, j + 1, (c & 0xF) << 4, t);
  }

  method ThirdDigit(out: array<byte>, j: nat, c: byte, ghost t: seq<byte>, ghost g: nat)
    requires j == g * 3 + 1 && g * 4 + 2 < |t| && c == De(t[g * 4 + 2]) && j + 1 < out.Length
    requires DecodedUpTo(out, j, t) && out[j] == Half(De(t[g * 4 + 1]), 2)
    modifies out
    ensures DecodedUpTo(out, j + 1, t) && out[j + 1] == Half(c, 3)
  {
    Finish(out, j, (c >> 2) & 0xF, t, g, 1);
    Begin(out, j + 1, (c & 0x3) << 6, t);
  }

  method FourthDigit(out: array<byte>, j: nat, c: byte, ghost t: seq<byte>, ghost g: nat)
    requires j == g * 3 + 2 && g * 4 + 3 < |t| && c == De(t[g * 4 + 3]) && j < out.Length
    requires DecodedUpTo(out, j, t) && out[j] == Half(De(t[g * 4 + 2]), 3)
    modifies out
    ensures DecodedUpTo(out, j + 1, t)
  {
    Finish(out, j, c, t, g, 2);
  }

  // The k-th digit of group g goes in: it completes one byte and starts the next.
  method TakeDigit(out: array<byte>, j: nat, k: nat, c: byte, ghost t: seq<byte>, ghost g: nat) returns (j': nat)
    requires k < 4 && g * 4 + k < |t| && c == De(t[g * 4 + k]) && g * 3 + 3 <= out.Length
    requires j == g * 3 + (if k == 0 then 0 else k - 1) && DecodedUpTo(out, j, t)
    requires k != 0 ==> out[j] == Half(De(t[g * 4 + k - 1]), k)
    modifies out
    ensures j' == g * 3 + k && DecodedUpTo(out, j', t)
    ensures k < 3 ==> out[j'] == Half(c, k + 1)
  {
    j' := j;
    if k == 0 {
      Begin(out, j, (c << 2) & 0xFF, t);
      return;
    }
    if k == 1 {
      SecondDigit(out, j, c, t, g);
    } else if k == 2 {
      ThirdDigit(out, j, c, t, g);
    } else {
      FourthDigit(out, j, c, t, g);
    }
    j' := j + 1;
  }

  lemma GroupFits(n: nat, g: nat, k: nat)
    requires n % 4 == 0 && g * 4 + k < n
    ensures g * 3 + 3 <= n / 4 * 3
  {
    assert g < n / 4;
  }

  lemma DecodedIs(out: array<byte>, j: nat, t: seq<byte>, n: nat)
    requires DecodedUpTo(out, j, t) && |t| % 4 == 0 && n == Stop(t, 0) && Readable(t, n) && j == Completed(n)
    ensures out[..j] == Decode(t) && |Decode(t)| == j
  {
    DecodeGives(t, n, out[..j]);
  }

  lemma BadCharacter(t: seq<byte>, i: nat)
    requires i < Stop(t, 0) && De(t[i]) == BAD
    ensures Decode(t) == []
  {
  }

  // The loop: digits go in up to the padding, the end or a bad character.
  method DecodeLoop(input: seq<byte>, out: array<byte>) returns (ok: bool, i: nat, j: nat)
    requires out.Length >= |input| / 4 * 3 && |input| % 4 == 0
    modifies out
    ensures i <= |input| && if ok then i == Stop(input, 0) else i < Stop(input, 0) && De(input[i]) == BAD
    ensures ok ==> Readable(input, i) && j == Completed(i) && DecodedUpTo(out, j, input)
  {
    i, j := 0, 0;
    ghost var stop := Stop(input, 0);
    ghost var g: nat := 0;   // complete groups
    var k: nat := 0;         // i & 3
    while i < |input|
      invariant i == g * 4 + k && k < 4 && i <= stop && Readable(input, i)
      invariant j == g * 3 + (if k == 0 then 0 else k - 1)
      invariant DecodedUpTo(out, j, input)
      invariant k != 0 ==> j < out.Length && out[j] == Half(De(input[i - 1]), k)
    {
      if input[i] == PAD {
        break;
      }
      DeIsSmall(input[i]);
      if input[i] < 43 || input[i] > 122 {
        return false, i, 0;
      }
      var c := De(input[i]);
      if c == BAD {
        return false, i, 0;
      }
      GroupFits(|input|, g, k);
      j := TakeDigit(out, j, k, c, input, g);
      i := i + 1;
      if k == 3 { g, k := g + 1, 0; } else { k := k + 1; }
    }
    CompletedIn(i, g, k);
    ok := true;
  }

  /** The decoder stays inside its buffer on every input, and computes Decode. */
  method Base64Decode(input: seq<byte>, out: array<byte>) returns (j: nat)
    requires out.Length >= |input| / 4 * 3
    modifies out
    ensures j == |Decode(input)| <= out.Length && out[..j] == Decode(input)
  {
    if |input| % 4 != 0 {
      return 0;
    }
    var ok, i;
    ok, i, j := DecodeLoop(input, out);
    if ok {
      DecodedIs(out, j, input, i);
    } else {
      BadCharacter(input, i);
      j := 0;
    }
  }

  /**
   * Every input: a length that is no multiple of four, or a character outside
   * the alphabet before the first padding, decodes to nothing; else n
   * characters before the padding give the whole bytes among their 6 n bits.
   */
  lemma DecodeLength(t: seq<byte>)
    ensures |Decode(t)| == if |t| % 4 != 0 || exists p :: 0 <= p < Stop(t, 0) && De(t[p]) == BAD then 0
                           else 6 * Stop(t, 0) / 8
  {
  }

  ghost predicate Spells(t: seq<byte>, s: seq<byte>) {
    forall p :: 0 <= p < |s| ==> p / 3 * 4 + p % 3 + 1 < |t| && s[p] == ByteAt(t, p)
  }

  lemma DecodeGives(t: seq<byte>, n: nat, s: seq<byte>)
    requires |t| % 4 == 0 && n == Stop(t, 0) && Readable(t, n) && |s| == Completed(n) && Spells(t, s)
    ensures Decode(t) == s
  {
  }

  // ----- the round trip

  // The encoding has one character more than bytes in the last group, then padding.
  function Shown(n: nat): nat { n / 3 * 4 + (if n % 3 == 0 then 0 else n % 3 + 1) }

  lemma DigitOfEncode(s: seq<byte>, g: nat, k: nat)
    requires k < 4 && g * 4 + k < |Encode(s)| && (k >= 2 ==> g * 3 + k <= |s|)
    ensures var ch := Encode(s)[g * 4 + k]; ch != PAD && De(ch) == DigitOf(s, g, k) < 64
  {
    CharOfGroup(s, g, k);
    JoinUndoesDigit(At(s, g * 3), At(s, g * 3 + 1), At(s, g * 3 + 2));
    Alphabet(DigitOf(s, g, k));
  }

  lemma EncodeStops(s: seq<byte>, n: nat)
    requires n == Shown(|s|)
    ensures n <= |Encode(s)| && Stop(Encode(s), 0) == n && Readable(Encode(s), n) && Completed(n) == |s|
  {
    var t := Encode(s);
    forall p | 0 <= p < n ensures t[p] != PAD && De(t[p]) != BAD {
      DigitOfEncode(s, p / 4, p % 4);
    }
    assert n < |t| ==> t[n] == PAD;
  }

  lemma ByteOfDigits(t: seq<byte>, s: seq<byte>, g: nat, k: nat)
    requires k < 3 && g * 3 + k < |s| && g * 4 + k + 1 < |t|
    requires De(t[g * 4 + k]) == DigitOf(s, g, k) && De(t[g * 4 + k + 1]) == DigitOf(s, g, k + 1)
    ensures ByteIn(t, g, k) == s[g * 3 + k]
  {
    JoinAt(At(s, g * 3), At(s, g * 3 + 1), At(s, g * 3 + 2), k);
  }

  lemma SpellsAt(s: seq<byte>, t: seq<byte>, g: nat, k: nat)
    requires t == Encode(s) && k < 3 && g * 3 + k < |s|
    ensures g * 4 + k + 1 < |t| && ByteIn(t, g, k) == s[g * 3 + k]
  {
    assert g + 1 <= (|s| + 2) / 3;
    DigitOfEncode(s, g, k);
    DigitOfEncode(s, g, k + 1);
    ByteOfDigits(t, s, g, k);
  }

  lemma EncodeSpells(s: seq<byte>, t: seq<byte>)
    requires t == Encode(s)
    ensures |t| % 4 == 0 && Spells(t, s)
  {
    forall p | 0 <= p < |s| ensures p / 3 * 4 + p % 3 + 1 < |t| && s[p] == ByteAt(t, p) {
      SpellsAt(s, t, p / 3, p % 3);
    }
  }

  /** Decoding an encoding gives back every byte string. */
  lemma RoundTrip(s: seq<byte>)
    ensures Decode(Encode(s)) == s
  {
    EncodeStops(s, Shown(|s|));
    EncodeSpells(s, Encode(s));
    DecodeGives(Encode(s), Shown(|s|), s);
  }
}
