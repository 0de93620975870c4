/** Address digits packed two to an octet. */
module IsupNumber {
  import opened Octets

  function Char2Digit(c: char): (d: Octet)
    ensures d <= 0xf
  {
    match c
    case '0' => 0x0
    case '1' => 0x1
    case '2' => 0x2
    case '3' => 0x3
    case '4' => 0x4
    case '5' => 0x5
    case '6' => 0x6
    case '7' => 0x7
    case '8' => 0x8
    case '9' => 0x9
    case 'a' | 'A' => 0xa
    case 'b' | 'B' => 0xb
    case 'c' | 'C' => 0xc
    case 'd' | 'D' => 0xd
    case 'e' | 'E' | '*' => 0xe
    case 'f' | 'F' | '#' => 0xf
    case _ => 0x0
  }

  function Digit2Char(digit: Octet): char {
    match digit & 0xf
    case 0x0 => '0'
    case 0x1 => '1'
    case 0x2 => '2'
    case 0x3 => '3'
    case 0x4 => '4'
    case 0x5 => '5'
    case 0x6 => '6'
    case 0x7 => '7'
    case 0x8 => '8'
    case 0x9 => '9'
    case 0xa => 'A'
    case 0xb => 'B'
    case 0xc => 'C'
    case 0xd => 'D'
    case 0xe => '*'
    case _ => '#'
  }

  /** The characters a digit is read back as. */
  predicate Canonical(c: char) { '0' <= c <= '9' || 'A' <= c <= 'D' || c == '*' || c == '#' }

  /** Lower case is raised, E and F are written as star and hash, anything else counts as zero. */
  function Canon(c: char): char {
    if Canonical(c) then c
    else if c == 'a' then 'A'
    else if c == 'b' then 'B'
    else if c == 'c' then 'C'
    else if c == 'd' then 'D'
    else if c == 'e' || c == 'E' then '*'
    else if c == 'f' || c == 'F' then '#'
    else '0'
  }

  lemma DigitIsRead(c: char)
    ensures Digit2Char(Char2Digit(c)) == Canon(c)
    ensures Canon(c) == c <==> Canonical(c)
  {
  }

  lemma CharIsWritten(d: Octet)
    ensures Char2Digit(Digit2Char(d)) == d & 0xf
  {
  }

  // ----- packing

  function Nibble(s: string, i: nat): (d: Octet)
    ensures d <= 0xf
  {
    if i < |s| then Char2Digit(s[i]) else 0
  }

  /** The even digit in the low half, the odd digit in the high half. */
  function Pair(low: Octet, high: Octet): Octet { (low & 0xf) | ((high << 4) & 0xf0) }

  /** The octets of the digits, the last half zero when their number is odd. */
  function Packed(s: string): (os: seq<Octet>)
    ensures |os| == (|s| + 1) / 2
  {
    seq((|s| + 1) / 2, k requires 0 <= k < (|s| + 1) / 2 => Pair(Nibble(s, 2 * k), Nibble(s, 2 * k + 1)))
  }

  /** The number of characters isup_get_number writes. */
  function Digits(len: nat, oddeven: nat): nat {
    if oddeven >= 2 then len
    else if 2 * len >= oddeven then 2 * len - oddeven else 0
  }

  function Half(o: Octet, i: nat): Octet { if i % 2 == 0 then o else o >> 4 }

  /** oddeven of 2 or more means IA5 characters. */
  function Unpacked(os: seq<Octet>, oddeven: nat): (s: string)
    ensures |s| == Digits(|os|, oddeven)
  {
    seq(Digits(|os|, oddeven), i requires 0 <= i < Digits(|os|, oddeven) =>
      if oddeven >= 2 then Value(os[i]) as char else Digit2Char(Half(os[i / 2], i)))
  }

  lemma PairIsRead(low: Octet, high: Octet)
    requires low <= 0xf && high <= 0xf
    ensures Pair(low, high) & 0xf == low && (Pair(low, high) >> 4) & 0xf == high
  {
  }

  lemma HalvesArePaired(o: Octet)
    ensures Pair(o & 0xf, (o >> 4) & 0xf) == o
  {
  }

  lemma DigitIgnoresHigh(o: Octet)
    ensures Digit2Char(o) == Digit2Char(o & 0xf)
  {
  }

  function Canons(s: string): (r: string)
    ensures |r| == |s|
  {
    seq(|s|, i requires 0 <= i < |s| => Canon(s[i]))
  }

  /** Unpacking gives the digits back in canonical form, so exactly canonical digits survive. */
  lemma PackedIsRead(s: string)
    ensures Unpacked(Packed(s), |s| % 2) == Canons(s)
    ensures Unpacked(Packed(s), |s| % 2) == s <==> forall i :: 0 <= i < |s| ==> Canonical(s[i])
  {
    hide Digit2Char, Char2Digit, Unpacked, Packed, Canon, Canonical;
    var r := Unpacked(Packed(s), |s| % 2);
    assert |r| == |s|;
    forall i | 0 <= i < |s| ensures r[i] == Canon(s[i]) && (Canon(s[i]) == s[i] <==> Canonical(s[i])) {
      DigitAt(s, i);
      DigitIsRead(s[i]);
    }
    assert r == Canons(s);
  }

  lemma DigitAt(s: string, i: nat)
    requires i < |s|
    ensures Unpacked(Packed(s), |s| % 2)[i] == Digit2Char(Char2Digit(s[i]))
  {
    hide Digit2Char, Char2Digit, Pair, Unpacked, Packed;
    var k := i / 2;
    var low, high := Nibble(s, 2 * k), Nibble(s, 2 * k + 1);
    PackedAt(s, k);
    UnpackedAt(Packed(s), |s| % 2, k);
    PairIsRead(low, high);
    DigitIgnoresHigh(Pair(low, high));
    DigitIgnoresHigh(Pair(low, high) >> 4);
  }

  /** Packing what was unpacked gives the octets back, when the half left over is zero. */
  lemma ReadIsPacked(os: seq<Octet>, oddeven: nat)
    requires oddeven < 2 && (oddeven == 1 ==> os != [])
    ensures Packed(Unpacked(os, oddeven)) == os <==> (oddeven == 1 ==> os[|os| - 1] & 0xf0 == 0)
  {
    hide Packed, Unpacked;
    var r := Packed(Unpacked(os, oddeven));
    forall k | 0 <= k < |os| ensures k < |os| - 1 || oddeven == 0 ==> r[k] == os[k] {
      OctetBack(os, oddeven, k);
    }
    if oddeven == 1 {
      OctetBack(os, oddeven, |os| - 1);
    } else {
      assert r == os;
    }
  }

  lemma OctetBack(os: seq<Octet>, oddeven: nat, k: nat)
    requires oddeven < 2 && k < |os|
    ensures var r := Packed(Unpacked(os, oddeven));
      && |r| == |os|
      && (if k < |os| - 1 || oddeven == 0 then r[k] == os[k] else r[k] == os[k] <==> os[k] & 0xf0 == 0)
  {
    hide Digit2Char, Char2Digit, Pair, Unpacked, Packed;
    var s := Unpacked(os, oddeven);
    CharIsWritten(os[k]);
    CharIsWritten(os[k] >> 4);
    HalvesArePaired(os[k]);
    LowHalf(os[k]);
    UnpackedAt(os, oddeven, k);
    PackedAt(s, k);
  }

  lemma UnpackedAt(os: seq<Octet>, oddeven: nat, k: nat)
    requires oddeven < 2 && k < |os|
    ensures var s := Unpacked(os, oddeven);
      s[2 * k] == Digit2Char(os[k]) && (2 * k + 1 < |s| ==> s[2 * k + 1] == Digit2Char(os[k] >> 4))
  {
    hide Digit2Char, Value, Half;
    Halves(os[k], k);
    assert (2 * k) / 2 == k && (2 * k + 1) / 2 == k;
  }

  lemma Halves(o: Octet, k: nat)
    ensures Half(o, 2 * k) == o && Half(o, 2 * k + 1) == o >> 4
  {
  }

  lemma PackedAt(s: string, k: nat)
    requires k < (|s| + 1) / 2
    ensures Packed(s)[k] == Pair(Nibble(s, 2 * k), Nibble(s, 2 * k + 1))
  {
    hide Pair, Nibble;
  }

  lemma LowHalf(o: Octet)
    ensures Pair(o & 0xf, 0) == o <==> o & 0xf0 == 0
  {
  }

  // ----- the loops

  /** The digit of position i ORed into its half. */
  function WithDigit(o: Octet, i: nat, d: Octet): Octet {
    if i % 2 == 0 then o | (d & 0xf) else o | ((d << 4) & 0xf0)
  }

  lemma StartsPair(d: Octet)
    ensures WithDigit(0, 0, d) == Pair(d, 0)
  {
  }

  lemma EndsPair(low: Octet, high: Octet)
    ensures WithDigit(Pair(low, 0), 1, high) == Pair(low, high)
  {
  }

  /** One digit more starts an octet or completes the last one. */
  lemma PackedMore(s: string, i: nat)
    requires i < |s|
    ensures var before, after := Packed(s[..i]), Packed(s[..i + 1]);
      && (i % 2 == 0 ==> after == before + [WithDigit(0, i, Char2Digit(s[i]))])
      && (i % 2 == 1 ==> after == before[i / 2 := WithDigit(before[i / 2], i, Char2Digit(s[i]))])
  {
    hide Char2Digit, Pair, Packed, Nibble, WithDigit;
    var k := i / 2;
    var before, after := s[..i], s[..i + 1];
    forall n: nat | n < k ensures Packed(before)[n] == Packed(after)[n] {
      PackedAt(before, n);
      PackedAt(after, n);
      NibbleOfPrefix(s, i, 2 * n);
      NibbleOfPrefix(s, i, 2 * n + 1);
    }
    PackedAt(after, k);
    NibbleOfPrefix(s, i, i);
    NibbleOfPrefix(s, i, i + 1);
    if i % 2 == 0 {
      StartsPair(Char2Digit(s[i]));
      SameDigit(i, Char2Digit(s[i]));
    } else {
      PackedAt(before, k);
      NibbleOfPrefix(s, i, i - 1);
      EndsPair(Nibble(before, i - 1), Char2Digit(s[i]));
      SameDigit(i, Char2Digit(s[i]));
    }
  }

  lemma SameDigit(i: nat, d: Octet)
    ensures forall o :: WithDigit(o, i, d) == WithDigit(o, i % 2, d)
  {
  }

  lemma NibbleOfPrefix(s: string, i: nat, n: nat)
    requires i < |s|
    ensures n < i ==> Nibble(s[..i], n) == Nibble(s[..i + 1], n)
    ensures n >= i ==> Nibble(s[..i], n) == 0
    ensures Nibble(s[..i + 1], i) == Char2Digit(s[i])
    ensures n > i ==> Nibble(s[..i + 1], n) == 0
  {
    hide Char2Digit;
  }

  method AddDigit(dest: array<Octet>, at: nat, i: nat, d: Octet)
    requires at + i / 2 < dest.Length
    modifies dest
    ensures dest[..] == old(dest[..])[at + i / 2 := WithDigit(old(dest[at + i / 2]), i, d)]
  {
    if i % 2 == 0 {
      dest[at + i / 2] := dest[at + i / 2] | (d & 0xf);
    } else {
      dest[at + i / 2] := dest[at + i / 2] | ((d << 4) & 0xf0);
    }
  }

  /** The first i digits are in place and the room for the others is still zero. */
  ghost predicate Put(orig: seq<Octet>, now: seq<Octet>, at: nat, s: string, i: nat, len: nat) {
    && |now| == |orig| && i <= |s| && len == (|s| + 1) / 2 && at + len <= |now|
    && now[at..at + (i + 1) / 2] == Packed(s[..i])
    && (forall k :: at + (i + 1) / 2 <= k < at + len ==> now[k] == 0)
    && now[..at] == orig[..at] && now[at + len..] == orig[at + len..]
  }

  lemma PutMore(orig: seq<Octet>, now: seq<Octet>, at: nat, s: string, i: nat, len: nat)
    requires Put(orig, now, at, s, i, len) && i < |s|
    ensures at + i / 2 < |now|
    ensures Put(orig, now[at + i / 2 := WithDigit(now[at + i / 2], i, Char2Digit(s[i]))], at, s, i + 1, len)
  {
    hide Packed, WithDigit, Char2Digit;
    PackedMore(s, i);
    var o := WithDigit(now[at + i / 2], i, Char2Digit(s[i]));
    var n := (i + 1) / 2;
    var next := now[at + i / 2 := o];
    if i % 2 == 0 {
      assert next[at..at + n + 1] == now[at..at + n] + [o];
    } else {
      assert now[at + i / 2] == now[at..at + n][i / 2];
      assert next[at..at + n] == now[at..at + n][i / 2 := o];
    }
  }

  method PutNumber(dest: array<Octet>, at: nat, src: string) returns (len: nat, oddeven: nat)
    requires at + (|src| + 1) / 2 <= dest.Length
    requires forall k :: at <= k < at + (|src| + 1) / 2 ==> dest[k] == 0
    modifies dest
    ensures len == (|src| + 1) / 2 && oddeven == |src| % 2
    ensures dest[at..at + len] == Packed(src)
    ensures dest[..at] == old(dest[..at]) && dest[at + len..] == old(dest[at + len..])
  {
    hide Packed, WithDigit, Char2Digit;
    if |src| % 2 != 0 {
      oddeven, len := 1, |src| / 2 + 1;
    } else {
      oddeven, len := 0, |src| / 2;
    }
    ghost var orig := dest[..];
    var i := 0;
    assert Put(orig, dest[..], at, src, 0, len);
    while i < |src|
      invariant 0 <= i <= |src|
      invariant Put(orig, dest[..], at, src, i, len)
    {
      PutMore(orig, dest[..], at, src, i, len);
      AddDigit(dest, at, i, Char2Digit(src[i]));
      i := i + 1;
    }
    assert src[..|src|] == src;
  }

  method GetNumber(dest: array<char>, src: seq<Octet>, oddeven: nat)
    requires Digits(|src|, oddeven) < dest.Length
    modifies dest
    ensures var n := Digits(|src|, oddeven);
      && dest[..n] == Unpacked(src, oddeven) && dest[n] == '\0'
      && dest[n + 1..] == old(dest[n + 1..])
  {
    hide Digit2Char, Half, Unpacked, Value;
    ghost var text := Unpacked(src, oddeven);
    var i := 0;
    if oddeven < 2 {
      while i < |src| * 2 - oddeven
        invariant 0 <= i <= Digits(|src|, oddeven)
        invariant dest[..i] == text[..i] && dest[i..] == old(dest[i..])
      {
        CharAt(src, oddeven, i);
        dest[i] := Digit2Char(if i % 2 != 0 then src[i / 2] >> 4 else src[i / 2]);
        assert text[..i + 1] == text[..i] + [text[i]];
        i := i + 1;
      }
    } else {
      while i < |src|
        invariant 0 <= i <= |src|
        invariant dest[..i] == text[..i] && dest[i..] == old(dest[i..])
      {
        CharAt(src, oddeven, i);
        dest[i] := Value(src[i]) as char;
        assert text[..i + 1] == text[..i] + [text[i]];
        i := i + 1;
      }
    }
    dest[i] := '\0';
    assert text[..i] == text;
  }

  lemma CharAt(src: seq<Octet>, oddeven: nat, i: nat)
    requires i < Digits(|src|, oddeven)
    ensures Unpacked(src, oddeven)[i]
      == if oddeven >= 2 then Value(src[i]) as char else Digit2Char(if i % 2 != 0 then src[i / 2] >> 4 else src[i / 2])
  {
    hide Digit2Char, Value;
  }
}
