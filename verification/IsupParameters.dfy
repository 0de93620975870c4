/** Parameters outside the ITU initial address message: what their receivers read from the octets
    their transmit functions write, and exactly when nothing is lost. */
module IsupParameters {
  import opened Octets
  import opened IsupNumber
  import opened IsupFraming
  import opened IsupIam
  import opened IsupMessages
  import opened Switches

  // ----- numbers

  /** The connected number, charge number and generic address share the digits and the odd
      indicator with the numbers of the initial address message. */
  lemma PlainNumberIsRead(n: Number, plan: Octet)
    requires n.nai < 0x80 && n.presentation < 4 && n.screening < 4 && (plan == 0 || plan == 0x10)
    ensures NumberRead([Odd(n.digits) | n.nai, Indicators(plan, n)] + Packed(n.digits)) == IsupIam.Heard(n)
  {
    hide Odd, OddRead, Indicators, Unpacked, Packed, Canons;
    OddBit(n.nai, n.digits);
    IndicatorsAreRead(plan, n);
    DigitsAreRead(Odd(n.digits) | n.nai, Indicators(plan, n), n);
  }

  lemma IndicatorsWithoutPlan(n: Number)
    ensures Indicators(0, n) == ((n.presentation & 0x3) << 2) | (n.screening & 0x3)
  {
    NoPlan(n.presentation, n.screening);
  }

  lemma NoPlan(presentation: Octet, screening: Octet)
    ensures 0 | ((presentation & 0x3) << 2) | (screening & 0x3) == ((presentation & 0x3) << 2) | (screening & 0x3)
  {
  }

  /** Nothing is sent unless the number was asked for; then it comes back in canonical digits with
      its indicators, or, when there are none, declared not available. */
  lemma ConnectedIsRead(asked: bool, n: Number)
    requires n.nai < 0x80 && n.presentation < 4 && n.screening < 4
    ensures ConnectedOut(asked, n) == [] <==> !asked
    ensures asked && n.digits != "" ==> NumberRead(ConnectedOut(asked, n)) == IsupIam.Heard(n)
    ensures asked && n.digits == "" ==>
      NumberRead(ConnectedOut(asked, n)) == Number("", n.nai, NOT_AVAILABLE, n.screening)
  {
    hide Odd, Indicators, Unpacked, Packed, Canons, OddRead;
    if asked && n.digits != "" {
      PlainNumberIsRead(n, 0);
      IndicatorsWithoutPlan(n);
    } else if asked {
      var out := ConnectedOut(asked, n);
      BlankOctets(n.nai, n.screening);
      assert out[2..] == [];
      EvenWhenSmall(n.nai);
      NothingUnpacked(OddRead(n.nai));
    }
  }

  lemma BlankOctets(nai: Octet, screening: Octet)
    requires nai < 0x80 && screening < 4
    ensures nai & 0x7f == nai
    ensures var o := (NOT_AVAILABLE << 2) | (screening & 0x3); (o >> 2) & 0x3 == NOT_AVAILABLE && o & 0x3 == screening
  {
  }

  lemma EvenWhenSmall(nai: Octet)
    requires nai < 0x80
    ensures OddRead(nai) == 0
  {
  }

  lemma NothingUnpacked(odd: nat)
    requires odd == 0
    ensures Unpacked([], odd) == ""
  {
  }

  lemma ConnectedSurvives(n: Number)
    requires n.nai < 0x80 && n.presentation < 4 && n.screening < 4
    ensures NumberRead(ConnectedOut(true, n)) == n <==>
      if n.digits == "" then n.presentation == NOT_AVAILABLE else AllCanonical(n.digits)
  {
    hide ConnectedOut, NumberRead, Canons, AllCanonical;
    ConnectedIsRead(true, n);
    CanonsAreSame(n.digits);
  }

  lemma ChargeIsRead(n: Number)
    requires n.nai < 0x80 && n.digits != ""
    ensures var r := NumberRead(ChargeOut(n)); r.digits == Canons(n.digits) && r.nai == n.nai
  {
    hide Odd, OddRead, Unpacked, Packed, Canons;
    OddBit(n.nai, n.digits);
    DigitsAreRead(Odd(n.digits) | n.nai, 0x10, n);
  }

  /** The digits of a subsequent address message. */
  lemma SubsequentIsRead(n: Number)
    ensures var s := SubsequentOut(n); Unpacked(s[1..], OddRead(s[0])) == Canons(n.digits)
  {
    hide Unpacked, Packed, Canons;
    PackedIsRead(n.digits);
    assert SubsequentOut(n)[1..] == Packed(n.digits);
    OddOctetAlone();
  }

  lemma OddOctetAlone()
    ensures OddRead(0x80) == 1 && OddRead(0) == 0
  {
  }

  function AddressRead(s: seq<Octet>): GenericAddress
    requires |s| >= 3
  {
    GenericAddress(s[0], SevenBits(s[1]), PlanRead(s[2]), PresentationRead(s[2]), Unpacked(s[3..], OddRead(s[1])))
  }

  function SevenBits(o: Octet): Octet { o & 0x7f }
  function PlanRead(o: Octet): Octet { (o >> 4) & 0x7 }
  function PresentationRead(o: Octet): Octet { (o >> 2) & 0x3 }

  lemma AddressBits(plan: Octet, presentation: Octet)
    ensures var o := PlanOctet(plan, presentation);
      (PlanRead(o) == plan <==> plan < 8) && (PresentationRead(o) == presentation <==> presentation < 4)
  {
  }

  lemma NatureOfAddress(a: GenericAddress)
    requires a.digits != "" && a.nai < 0x80
    ensures SevenBits(AddressOut(a)[1]) == a.nai && OddRead(AddressOut(a)[1]) == |a.digits| % 2
  {
    hide Odd, OddRead, Packed, PlanOctet;
    OddBit(a.nai, a.digits);
  }

  /** A generic address survives exactly when its digits are canonical and its fields fit. */
  lemma AddressSurvives(a: GenericAddress)
    requires a.digits != "" && a.nai < 0x80
    ensures AddressRead(AddressOut(a)) == a <==> AllCanonical(a.digits) && a.plan < 8 && a.presentation < 4
  {
    hide Odd, OddRead, Unpacked, Packed, Canons, AllCanonical, SevenBits, PlanRead, PresentationRead, PlanOctet;
    NatureOfAddress(a);
    AddressBits(a.plan, a.presentation);
    assert AddressOut(a)[3..] == Packed(a.digits);
    PackedIsRead(a.digits);
    CanonsAreSame(a.digits);
  }

  // ----- names, references, causes

  function NameRead(s: seq<Octet>): GenericName
    requires |s| >= 1
  {
    GenericName((s[0] >> 5) & 0x7, (s[0] >> 4) & 0x1, s[0] & 0x3, Characters(s[1..]))
  }

  function Characters(s: seq<Octet>): (r: string)
    ensures |r| == |s|
  {
    seq(|s|, i requires 0 <= i < |s| => Value(s[i]) as char)
  }

  /** Eight-bit characters. */
  predicate Narrow(s: string) { forall i :: 0 <= i < |s| ==> s[i] as int < 256 }

  lemma TextIsRead(s: string)
    ensures Characters(Text(s)) == s <==> Narrow(s)
  {
    hide ToOctet, Value;
    forall i | 0 <= i < |s| ensures Characters(Text(s))[i] == s[i] <==> s[i] as int < 256 {
      CharacterIsRead(s[i]);
    }
  }

  lemma CharacterIsRead(c: char)
    ensures Value(ToOctet(c as int)) as char == c <==> c as int < 256
  {
    if c as int < 256 { ValueOf(c as int); }
  }

  lemma NameBits(kind: Octet, available: Octet, presentation: Octet)
    ensures var o := (kind << 5) | ((available & 0x1) << 4) | (presentation & 0x3);
      && ((o >> 5) & 0x7 == kind <==> kind < 8) && ((o >> 4) & 0x1 == available <==> available < 2)
      && (o & 0x3 == presentation <==> presentation < 4)
  {
  }

  /** A generic name survives exactly when its characters have eight bits and its fields fit. */
  lemma NameSurvives(n: GenericName)
    requires n.text != ""
    ensures NameRead(NameOut(n)) == n <==> Narrow(n.text) && n.kind < 8 && n.available < 2 && n.presentation < 4
  {
    hide Text, Characters, Narrow;
    NameBits(n.kind, n.available, n.presentation);
    assert NameOut(n)[1..] == Text(n.text);
    TextIsRead(n.text);
  }

  function Wide(low: Octet, middle: Octet, high: Octet): bv32 {
    (low as bv32) | ((middle as bv32) << 8) | ((high as bv32) << 16)
  }

  /** Identity and point code. */
  function CallRefRead(sw: Switch, s: seq<Octet>): (bv32, bv32)
    requires |s| >= if sw == ANSI then 6 else 5
  {
    (Wide(s[0], s[1], s[2]), if sw == ANSI then Wide(s[3], s[4], s[5]) else Wide(s[3], s[4] & 0x3f, 0))
  }

  lemma WideIsRead(x: bv32)
    ensures Wide(Low(x), Low(x >> 8), Low(x >> 16)) == x <==> x < 0x100_0000
  {
  }

  lemma NarrowIsRead(x: bv32)
    ensures Wide(Low(x), (Low(x >> 8) & 0x3f) & 0x3f, 0) == x <==> x < 0x4000
  {
  }

  /** A call reference survives exactly when its identity has 24 bits and its point code 24 bits
      (ANSI) or 14 bits (ITU). */
  lemma CallRefSurvives(sw: Switch, ident: bv32, pc: bv32)
    requires ident != 0
    ensures CallRefRead(sw, CallRefOut(sw, ident, pc)) == (ident, pc) <==>
      ident < 0x100_0000 && pc < if sw == ANSI then 0x100_0000 else 0x4000
  {
    hide Wide, Low;
    WideIsRead(ident);
    WideIsRead(pc);
    NarrowIsRead(pc);
  }

  /** Code, location and value. */
  function CauseRead(s: seq<Octet>): (Octet, Octet, Octet)
    requires |s| >= 2
  {
    (CauseCode(s[0]), CauseLocation(s[0]), SevenBits(s[1]))
  }

  function CauseCode(o: Octet): Octet { (o & 0x60) >> 5 }
  function CauseLocation(o: Octet): Octet { o & 0xf }

  lemma CauseSurvives(code: Octet, loc: Octet, cause: Octet)
    ensures CauseRead(CauseOut(code, loc, cause)) == (code, loc, cause) <==> code < 4 && loc < 0x10 && cause < 0x80
  {
    hide CauseCode, CauseLocation, SevenBits;
    CauseBits(code, loc);
    CauseValue(cause);
  }

  lemma CauseBits(code: Octet, loc: Octet)
    ensures var o := 0x80 | (code << 5) | loc;
      CauseCode(o) == code && CauseLocation(o) == loc <==> code < 4 && loc < 0x10
  {
  }

  lemma CauseValue(cause: Octet)
    ensures SevenBits(0x80 | cause) == cause <==> cause < 0x80
  {
  }
}
