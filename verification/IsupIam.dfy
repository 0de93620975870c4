/** The parameters of an ITU initial address message, and the way from a call through the message
    into a fresh call. */
module IsupIam {
  import opened Octets
  import opened IsupNumber
  import opened IsupFraming
  import opened Options

  datatype Number = Number(digits: string, nai: Octet, presentation: Octet, screening: Octet)

  datatype Redirection = Redirection(given: bool, ind: Octet, originalReason: Octet, counter: Octet, reason: Octet)

  /** Closed user group: ni is the four-digit network identity. */
  datatype Cug = Cug(indicator: Octet, colReq: bool, ni: string, code: bv16)

  /** The part of struct isup_call an IAM carries. localEcho is sent, echo is received. */
  datatype Call = Call(
    continuityRequired: bool, continuityPerformed: bool, localEcho: bool, echo: bool,
    interworking: bool, pmBits: Octet, category: Octet, transcap: Octet,
    called: Number, calling: Number, redirecting: Number, redirection: Redirection, redirectCounter: Octet,
    original: Number, cug: Cug)

  const NONE := Number("", 0, 0, 0)

  /** A call as calloc leaves it. */
  const FRESH :=
    Call(false, false, false, false, false, 0, 0, 0, NONE, NONE, NONE, Redirection(false, 0, 0, 0, 0), 0, NONE, Cug(0, false, "", 0))

  const NATURE_OF_CONNECTION: Octet := 0x06
  const FORWARD_CALL: Octet := 0x07
  const CALLING_CATEGORY: Octet := 0x09
  const MEDIUM_REQUIREMENTS: Octet := 0x02
  const CALLED_NUMBER: Octet := 0x04
  const CALLING_NUMBER: Octet := 0x0a
  const REDIRECTING_NUMBER: Octet := 0x0b
  const REDIRECTION_INFO: Octet := 0x13
  const REDIRECT_COUNTER: Octet := 0x77
  const ORIGINAL_CALLED: Octet := 0x28
  const OPT_FORWARD_CALL: Octet := 0x08
  const CUG_INTERLOCK: Octet := 0x1a

  const NOT_AVAILABLE: Octet := 0x02

  /** What the receivers in the parameter table return. */
  function Receivers(code: Octet): Receiver {
    match code
    case 0x02 | 0x06 | 0x08 | 0x09 | 0x10 | 0x15 | 0x18 | 0x22 | 0x24 | 0x29 | 0x3d | 0x77 | 0xea => Takes(1)
    case 0x07 | 0x0e | 0x0f | 0x11 | 0x13 => Takes(2)
    case 0x1a => Takes(4)
    case 0x01 | 0x03 | 0x04 | 0x05 | 0x0a | 0x0b | 0x12 | 0x16 | 0x1d | 0x21 | 0x23 | 0x28 | 0x2c
       | 0xc0 | 0xc1 | 0xc4 | 0xc5 | 0xc7 | 0xe4 | 0xeb => TakesAll
    case _ => Missing
  }

  // ----- transmit functions

  function Bit(b: bool, mask: Octet): Octet { if b then mask else 0 }

  function NatureOut(c: Call): seq<Octet> {
    [Bit(c.continuityRequired, 0x04) | Bit(c.continuityPerformed, 0x08) | Bit(c.localEcho, 0x10)]
  }

  function ForwardOut(c: Call, isdn: bool): seq<Octet> {
    [0x60 | Bit(c.interworking, 0x08), Bit(isdn, 0x01) | (c.pmBits & 0xf0)]
  }

  function Odd(digits: string): Octet { if |digits| % 2 == 1 then 0x80 else 0 }

  function CalledOut(n: Number): seq<Octet> {
    [(n.nai & 0x7f) | Odd(n.digits), 0x10] + Packed(n.digits)
  }

  function Indicators(plan: Octet, n: Number): Octet {
    plan | ((n.presentation & 0x3) << 2) | (n.screening & 0x3)
  }

  /** Without digits nothing is sent, unless the address is declared not available. */
  function CallingOut(n: Number): seq<Octet> {
    if n.presentation == NOT_AVAILABLE then [0, Indicators(0, n)]
    else if n.digits == "" then []
    else [Odd(n.digits) | n.nai, Indicators(0x10, n)] + Packed(n.digits)
  }

  /** The redirecting and the original called number. */
  function NumberOut(n: Number): seq<Octet> {
    if n.digits == "" then [] else [Odd(n.digits) | n.nai, Indicators(0x10, n)] + Packed(n.digits)
  }

  function RedirectionOut(r: Redirection): seq<Octet> {
    if !r.given then [] else [Reason(r.ind, r.originalReason), Reason(r.counter, r.reason)]
  }

  function Reason(low: Octet, high: Octet): Octet { (low & 0x7) | ((high << 4) & 0xf0) }

  function CounterOut(counter: Octet): seq<Octet> { if counter == 0 then [] else [counter & 0x1f] }

  function OptForwardOut(c: Cug): seq<Octet> {
    if c.colReq || c.indicator != 0 then [(c.indicator & 0x3) | Bit(c.colReq, 0x80)] else []
  }

  predicate Interlocked(c: Cug) { c.indicator == 2 || c.indicator == 3 }

  function InterlockOut(c: Cug): seq<Octet>
    requires Interlocked(c) ==> |c.ni| == 4
  {
    if Interlocked(c) then
      [(Char2Digit(c.ni[0]) << 4) | Char2Digit(c.ni[1]), (Char2Digit(c.ni[2]) << 4) | Char2Digit(c.ni[3]),
       (c.code >> 8) as bv8, (c.code & 0xff) as bv8]
    else []
  }

  // ----- receive functions

  /** At least the octets the receiver looks at are there. */
  predicate LongEnough(p: Piece) {
    |p.content| >= match Receivers(p.code) case Takes(n) => n case TakesAll => 2 case Missing => 0
  }

  /** The odd indicator. */
  function OddRead(o: Octet): nat { if o & 0x80 != 0 then 1 else 0 }

  function NumberRead(s: seq<Octet>): Number
    requires |s| >= 2
  {
    Number(Unpacked(s[2..], OddRead(s[0])), s[0] & 0x7f, (s[1] >> 2) & 0x3, s[1] & 0x3)
  }

  function Receive(c: Call, p: Piece): Call
    requires LongEnough(p)
  {
    var s := p.content;
    if p.code == NATURE_OF_CONNECTION then
      c.(continuityRequired := (s[0] >> 2) & 0x1 != 0, continuityPerformed := (s[0] >> 2) & 0x2 != 0, echo := s[0] & 0x10 != 0)
    else if p.code == CALLING_CATEGORY then c.(category := s[0])
    else if p.code == MEDIUM_REQUIREMENTS then c.(transcap := s[0] & 0x7f)
    else if p.code == CALLED_NUMBER then
      c.(called := c.called.(digits := NumberRead(s).digits, nai := NumberRead(s).nai))
    else if p.code == CALLING_NUMBER then c.(calling := NumberRead(s))
    else if p.code == REDIRECTING_NUMBER then c.(redirecting := NumberRead(s))
    else if p.code == REDIRECTION_INFO then
      c.(redirection := RedirectionRead(s[0], s[1]))
    else if p.code == REDIRECT_COUNTER then c.(redirectCounter := s[0] & 0x1f)
    else if p.code == ORIGINAL_CALLED then c.(original := NumberRead(s))
    else if p.code == OPT_FORWARD_CALL then
      c.(cug := c.cug.(indicator := s[0] & 0x3, colReq := s[0] >> 7 != 0))
    else if p.code == CUG_INTERLOCK then c.(cug := c.cug.(ni := NiRead(s), code := CodeRead(s[2], s[3])))
    else c
  }

  function RedirectionRead(o: Octet, p: Octet): Redirection {
    Redirection(true, o & 0x7, (o >> 4) & 0xf, p & 0x7, (p >> 4) & 0xf)
  }

  function NiRead(s: seq<Octet>): string
    requires |s| >= 2
  {
    [Digit2Char(s[0] >> 4), Digit2Char(s[0] & 0x0f), Digit2Char(s[1] >> 4), Digit2Char(s[1] & 0x0f)]
  }

  function CodeRead(high: Octet, low: Octet): bv16 { ((high as bv16) << 8) | (low as bv16) }

  function ReceiveAll(c: Call, ps: seq<Piece>): Call
    requires forall p :: p in ps ==> LongEnough(p)
    decreases |ps|
  {
    if ps == [] then c else ReceiveAll(Receive(c, ps[0]), ps[1..])
  }

  // ----- one parameter at a time

  predicate NumberInRange(n: Number) {
    |n.digits| < 64 && n.nai < 0x80 && n.presentation < 4 && n.screening < 4
  }

  lemma OddBit(nai: Octet, digits: string)
    requires nai < 0x80
    ensures var o := Odd(digits) | nai; OddRead(o) == |digits| % 2 && o & 0x7f == nai
    ensures (nai & 0x7f) | Odd(digits) == Odd(digits) | nai
  {
    OddOctet(nai);
  }

  lemma OddOctet(nai: Octet)
    requires nai < 0x80
    ensures (0x80 | nai) & 0x80 != 0 && (0x80 | nai) & 0x7f == nai && (0 | nai) & 0x80 == 0 && (0 | nai) & 0x7f == nai
    ensures (nai & 0x7f) | 0x80 == 0x80 | nai && (nai & 0x7f) | 0 == 0 | nai
  {
  }

  lemma IndicatorsAreRead(plan: Octet, n: Number)
    requires n.presentation < 4 && n.screening < 4 && (plan == 0 || plan == 0x10)
    ensures (Indicators(plan, n) >> 2) & 0x3 == n.presentation && Indicators(plan, n) & 0x3 == n.screening
  {
    IndicatorBits(plan, n.presentation, n.screening);
  }

  lemma IndicatorBits(plan: Octet, presentation: Octet, screening: Octet)
    requires presentation < 4 && screening < 4 && (plan == 0 || plan == 0x10)
    ensures var o := plan | ((presentation & 0x3) << 2) | (screening & 0x3);
      (o >> 2) & 0x3 == presentation && o & 0x3 == screening
  {
  }

  function Heard(n: Number): Number { n.(digits := Canons(n.digits)) }

  lemma DigitsAreRead(first: Octet, second: Octet, n: Number)
    requires OddRead(first) == |n.digits| % 2
    ensures NumberRead([first, second] + Packed(n.digits)).digits == Canons(n.digits)
  {
    hide OddRead, Unpacked, Packed, Canons;
    var s := [first, second] + Packed(n.digits);
    assert s[2..] == Packed(n.digits);
    PackedIsRead(n.digits);
  }

  lemma NumberIsRead(n: Number)
    requires NumberInRange(n)
    ensures NumberRead([Odd(n.digits) | n.nai, Indicators(0x10, n)] + Packed(n.digits)) == Heard(n)
  {
    hide Odd, OddRead, Indicators, Unpacked, Packed, Canons;
    OddBit(n.nai, n.digits);
    IndicatorsAreRead(0x10, n);
    DigitsAreRead(Odd(n.digits) | n.nai, Indicators(0x10, n), n);
  }

  lemma CalledIsRead(n: Number)
    requires NumberInRange(n)
    ensures NumberRead(CalledOut(n)).digits == Canons(n.digits) && NumberRead(CalledOut(n)).nai == n.nai
  {
    hide Odd, OddRead, Unpacked, Packed, Canons;
    OddBit(n.nai, n.digits);
    DigitsAreRead((n.nai & 0x7f) | Odd(n.digits), 0x10, n);
  }

  lemma NotAvailableIsRead(n: Number)
    requires n.presentation == NOT_AVAILABLE && n.screening < 4
    ensures NumberRead([0, Indicators(0, n)]) == Number("", 0, NOT_AVAILABLE, n.screening)
  {
    hide Indicators;
    IndicatorsAreRead(0, n);
    assert [0, Indicators(0, n)][2..] == [];
    assert Unpacked([], 0) == "";
  }

  lemma ReasonBits(ind: Octet, original: Octet)
    requires ind < 0x8 && original < 0x10
    ensures var o := Reason(ind, original); o & 0x7 == ind && (o >> 4) & 0xf == original
  {
  }

  lemma RedirectionIsRead(i: Redirection)
    requires i.given && i.ind < 0x8 && i.originalReason < 0x10 && i.counter < 0x8 && i.reason < 0x10
    ensures RedirectionRead(Reason(i.ind, i.originalReason), Reason(i.counter, i.reason)) == i
  {
    hide Reason;
    ReasonBits(i.ind, i.originalReason);
    ReasonBits(i.counter, i.reason);
  }

  lemma InterlockBits(a: Octet, b: Octet)
    requires a <= 0xf && b <= 0xf
    ensures ((a << 4) | b) >> 4 == a && ((a << 4) | b) & 0x0f == b
  {
  }

  lemma CodeIsRead(code: bv16)
    ensures CodeRead((code >> 8) as bv8, (code & 0xff) as bv8) == code
  {
  }

  lemma NiIsRead(ni: string)
    requires |ni| == 4
    ensures NiRead([(Char2Digit(ni[0]) << 4) | Char2Digit(ni[1]), (Char2Digit(ni[2]) << 4) | Char2Digit(ni[3])]) == Canons(ni)
  {
    hide Char2Digit, Digit2Char, Canon;
    InterlockBits(Char2Digit(ni[0]), Char2Digit(ni[1]));
    InterlockBits(Char2Digit(ni[2]), Char2Digit(ni[3]));
    DigitIsRead(ni[0]);
    DigitIsRead(ni[1]);
    DigitIsRead(ni[2]);
    DigitIsRead(ni[3]);
  }

  // ----- the whole message

  const FIXED_CODES: seq<Octet> := [NATURE_OF_CONNECTION, FORWARD_CALL, CALLING_CATEGORY, MEDIUM_REQUIREMENTS]
  const VARIABLE_CODES: seq<Octet> := [CALLED_NUMBER]

  function FixedOut(c: Call, isdn: bool): seq<seq<Octet>> {
    [NatureOut(c), ForwardOut(c, isdn), [c.category], [c.transcap]]
  }

  function OptionalOut(c: Call): (ps: seq<Piece>)
    requires Interlocked(c.cug) ==> |c.cug.ni| == 4
    ensures |ps| == 7
  {
    [Piece(CALLING_NUMBER, CallingOut(c.calling)), Piece(REDIRECTING_NUMBER, NumberOut(c.redirecting)),
     Piece(REDIRECTION_INFO, RedirectionOut(c.redirection)), Piece(REDIRECT_COUNTER, CounterOut(c.redirectCounter)),
     Piece(ORIGINAL_CALLED, NumberOut(c.original)), Piece(OPT_FORWARD_CALL, OptForwardOut(c.cug)),
     Piece(CUG_INTERLOCK, InterlockOut(c.cug))]
  }

  /** The parameter part of an ITU IAM; isdn is the access indicator of the stack. */
  function Iam(c: Call, isdn: bool): seq<Octet>
    requires Interlocked(c.cug) ==> |c.cug.ni| == 4
  {
    Assembled(FixedOut(c, isdn), [CalledOut(c.called)], true, OptionalOut(c))
  }

  predicate InRange(c: Call) {
    && NumberInRange(c.called) && NumberInRange(c.calling) && NumberInRange(c.redirecting) && NumberInRange(c.original)
    && c.transcap < 0x80 && c.redirectCounter < 0x20
    && c.redirection.ind < 0x8 && c.redirection.originalReason < 0x10
    && c.redirection.counter < 0x8 && c.redirection.reason < 0x10
    && c.cug.indicator < 0x4 && (Interlocked(c.cug) ==> |c.cug.ni| == 4)
  }

  /** What a fresh call knows after the message. */
  function HeardCall(c: Call): Call
    requires Interlocked(c.cug) ==> |c.cug.ni| == 4
  {
    Call(c.continuityRequired, c.continuityPerformed, false, c.localEcho, false, 0, c.category, c.transcap,
         Number(Canons(c.called.digits), c.called.nai, 0, 0), HeardCalling(c.calling), HeardNumber(c.redirecting),
         HeardRedirection(c.redirection), c.redirectCounter, HeardNumber(c.original), HeardCug(c.cug))
  }

  function HeardRedirection(i: Redirection): Redirection { if i.given then i else FRESH.redirection }

  /** The interlock code is only sent with a closed user group indication. */
  function HeardCug(g: Cug): Cug {
    if Interlocked(g) then g.(ni := Canons(g.ni)) else g.(ni := "", code := 0)
  }

  function HeardCalling(n: Number): Number {
    if n.presentation == NOT_AVAILABLE then Number("", 0, NOT_AVAILABLE, n.screening)
    else if n.digits == "" then NONE else Heard(n)
  }

  function HeardNumber(n: Number): Number { if n.digits == "" then NONE else Heard(n) }

  lemma NumberSizes(c: Call)
    requires InRange(c)
    ensures 2 <= |CalledOut(c.called)| <= 34 && |CallingOut(c.calling)| <= 34
    ensures |NumberOut(c.redirecting)| <= 34 && |NumberOut(c.original)| <= 34
    ensures CallingOut(c.calling) != [] ==> |CallingOut(c.calling)| >= 2
    ensures NumberOut(c.redirecting) != [] ==> |NumberOut(c.redirecting)| >= 2
    ensures NumberOut(c.original) != [] ==> |NumberOut(c.original)| >= 2
  {
    hide Odd, Indicators, Packed;
  }

  /** The optional parameters fit their length octets and are consumed whole. */
  lemma OptionalsFit(c: Call, i: nat)
    requires InRange(c) && i < 7 && OptionalOut(c)[i].content != []
    ensures var p := OptionalOut(c)[i];
      p.code != 0 && |p.content| < 256 && Consumes(Receivers, p) && LongEnough(p)
  {
    hide CallingOut, NumberOut, RedirectionOut, CounterOut, OptForwardOut, InterlockOut, NumberInRange;
    NumberSizes(c);
    SmallSizes(c);
  }

  // ----- into a call, one parameter after the other

  predicate Ready(p: Piece) { p.content != [] ==> LongEnough(p) }

  /** A parameter that transmitted nothing is not received. */
  function Step(c: Call, p: Piece): Call
    requires Ready(p)
  {
    if p.content == [] then c else Receive(c, p)
  }

  function Steps(c: Call, ps: seq<Piece>): Call
    requires forall i :: 0 <= i < |ps| ==> Ready(ps[i])
    decreases |ps|
  {
    if ps == [] then c else Steps(Step(c, ps[0]), ps[1..])
  }

  lemma {:induction false} NonEmptyAreLong(ps: seq<Piece>)
    requires forall i :: 0 <= i < |ps| ==> Ready(ps[i])
    ensures forall p :: p in NonEmpty(ps) ==> LongEnough(p)
    decreases |ps|
  {
    hide LongEnough;
    if ps != [] {
      NonEmptyAreLong(ps[1..]);
    }
  }

  lemma {:induction false} StepsAreReceived(c: Call, ps: seq<Piece>)
    requires forall i :: 0 <= i < |ps| ==> Ready(ps[i])
    ensures (forall p :: p in NonEmpty(ps) ==> LongEnough(p)) && ReceiveAll(c, NonEmpty(ps)) == Steps(c, ps)
    decreases |ps|
  {
    hide LongEnough, Receive;
    NonEmptyAreLong(ps);
    if ps != [] {
      StepsAreReceived(Step(c, ps[0]), ps[1..]);
      if ps[0].content == [] {
        assert NonEmpty(ps) == NonEmpty(ps[1..]);
      } else {
        assert NonEmpty(ps)[1..] == NonEmpty(ps[1..]);
      }
    }
  }

  lemma {:induction false} ReceiveAppend(c: Call, a: seq<Piece>, b: seq<Piece>)
    requires (forall p :: p in a ==> LongEnough(p)) && (forall p :: p in b ==> LongEnough(p))
    ensures (forall p :: p in a + b ==> LongEnough(p)) && ReceiveAll(c, a + b) == ReceiveAll(ReceiveAll(c, a), b)
    decreases |a|
  {
    hide LongEnough, Receive;
    if a == [] {
      assert a + b == b;
    } else {
      ReceiveAppend(Receive(c, a[0]), a[1..], b);
      assert (a + b)[1..] == a[1..] + b;
    }
  }

  lemma StepsFirst(c: Call, ps: seq<Piece>, p: Piece, rest: seq<Piece>)
    requires ps == [p] + rest
    requires forall i :: 0 <= i < |ps| ==> Ready(ps[i])
    ensures forall i :: 0 <= i < |rest| ==> Ready(rest[i])
    ensures Steps(c, ps) == Steps(Step(c, p), rest)
  {
    hide LongEnough, Step;
    assert ps[1..] == rest;
    assert forall i :: 0 <= i < |rest| ==> rest[i] == ps[i + 1];
  }

  lemma StepsUnrolled(c: Call, ps: seq<Piece>)
    requires |ps| == 7 && forall i :: 0 <= i < |ps| ==> Ready(ps[i])
    ensures Steps(c, ps) == Step(Step(Step(Step(Step(Step(Step(c, ps[0]), ps[1]), ps[2]), ps[3]), ps[4]), ps[5]), ps[6])
  {
    hide Ready, Step;
    assert ps[7..] == [];
    assert ps[0..] == ps;
    var c0 := c;
    StepsFirst(c0, ps[0..], ps[0], ps[1..]);
    var c1 := Step(c0, ps[0]);
    StepsFirst(c1, ps[1..], ps[1], ps[2..]);
    var c2 := Step(c1, ps[1]);
    StepsFirst(c2, ps[2..], ps[2], ps[3..]);
    var c3 := Step(c2, ps[2]);
    StepsFirst(c3, ps[3..], ps[3], ps[4..]);
    var c4 := Step(c3, ps[3]);
    StepsFirst(c4, ps[4..], ps[4], ps[5..]);
    var c5 := Step(c4, ps[4]);
    StepsFirst(c5, ps[5..], ps[5], ps[6..]);
    var c6 := Step(c5, ps[5]);
    StepsFirst(c6, ps[6..], ps[6], ps[7..]);
    var c7 := Step(c6, ps[6]);
  }

  lemma CallingStep(r: Call, n: Number)
    requires NumberInRange(n) && r.calling == NONE
    ensures var p := Piece(CALLING_NUMBER, CallingOut(n));
      && Ready(p) && Step(r, p) == r.(calling := HeardCalling(n))
  {
    hide NumberRead, Indicators, Odd, Packed, Canons;
    if n.presentation == NOT_AVAILABLE { NotAvailableIsRead(n); } else { NumberIsRead(n); }
  }

  lemma RedirectingStep(r: Call, n: Number)
    requires NumberInRange(n) && r.redirecting == NONE
    ensures var p := Piece(REDIRECTING_NUMBER, NumberOut(n));
      && Ready(p) && Step(r, p) == r.(redirecting := HeardNumber(n))
  {
    hide NumberRead, Indicators, Odd, Packed, Canons;
    NumberIsRead(n);
  }

  lemma OriginalStep(r: Call, n: Number)
    requires NumberInRange(n) && r.original == NONE
    ensures var p := Piece(ORIGINAL_CALLED, NumberOut(n));
      && Ready(p) && Step(r, p) == r.(original := HeardNumber(n))
  {
    hide NumberRead, Indicators, Odd, Packed, Canons;
    NumberIsRead(n);
  }

  lemma RedirectionStep(r: Call, i: Redirection)
    requires i.ind < 0x8 && i.originalReason < 0x10 && i.counter < 0x8 && i.reason < 0x10
    requires r.redirection == FRESH.redirection
    ensures var p := Piece(REDIRECTION_INFO, RedirectionOut(i));
      && Ready(p)
      && Step(r, p) == r.(redirection := HeardRedirection(i))
  {
    hide Reason, RedirectionRead;
    if i.given { RedirectionIsRead(i); }
  }

  lemma CounterStep(r: Call, counter: Octet)
    requires counter < 0x20 && r.redirectCounter == 0
    ensures var p := Piece(REDIRECT_COUNTER, CounterOut(counter));
      && Ready(p) && Step(r, p) == r.(redirectCounter := counter)
  {
    CounterBits(counter);
  }

  lemma CounterBits(counter: Octet)
    requires counter < 0x20
    ensures (counter & 0x1f) & 0x1f == counter
  {
  }

  lemma OptForwardStep(r: Call, g: Cug)
    requires g.indicator < 0x4 && r.cug == FRESH.cug
    ensures var p := Piece(OPT_FORWARD_CALL, OptForwardOut(g));
      && Ready(p)
      && Step(r, p) == r.(cug := r.cug.(indicator := g.indicator, colReq := g.colReq))
  {
    OptForwardBits(g.indicator);
  }

  lemma OptForwardBits(i: Octet)
    requires i < 0x4
    ensures ((i & 0x3) | 0x80) & 0x3 == i && ((i & 0x3) | 0x80) >> 7 != 0
    ensures ((i & 0x3) | 0) & 0x3 == i && ((i & 0x3) | 0) >> 7 == 0
  {
  }

  lemma InterlockStep(r: Call, g: Cug)
    requires (Interlocked(g) ==> |g.ni| == 4) && r.cug.ni == "" && r.cug.code == 0
    ensures var p := Piece(CUG_INTERLOCK, InterlockOut(g));
      && Ready(p)
      && Step(r, p) == if Interlocked(g) then r.(cug := r.cug.(ni := Canons(g.ni), code := g.code)) else r
  {
    hide InterlockOut, Canons, CodeRead, NiRead;
    InterlockIsRead(g);
  }

  lemma InterlockIsRead(g: Cug)
    requires Interlocked(g) ==> |g.ni| == 4
    ensures var s := InterlockOut(g);
      if Interlocked(g) then |s| == 4 && NiRead(s) == Canons(g.ni) && CodeRead(s[2], s[3]) == g.code else s == []
  {
    hide Char2Digit, Digit2Char, Canons, CodeRead, NiRead;
    if Interlocked(g) {
      NiIsRead(g.ni);
      CodeIsRead(g.code);
      NiOfPrefix(InterlockOut(g));
    }
  }

  lemma NiOfPrefix(s: seq<Octet>)
    requires |s| >= 2
    ensures NiRead(s) == NiRead([s[0], s[1]])
  {
  }

  /** The five mandatory parameters. */
  function Mandatory(c: Call, isdn: bool): seq<Piece> {
    [Piece(NATURE_OF_CONNECTION, NatureOut(c)), Piece(FORWARD_CALL, ForwardOut(c, isdn)), Piece(CALLING_CATEGORY, [c.category]),
     Piece(MEDIUM_REQUIREMENTS, [c.transcap]), Piece(CALLED_NUMBER, CalledOut(c.called))]
  }

  function AfterMandatory(c: Call): Call {
    FRESH.(continuityRequired := c.continuityRequired, continuityPerformed := c.continuityPerformed, echo := c.localEcho,
           category := c.category, transcap := c.transcap,
           called := Number(Canons(c.called.digits), c.called.nai, 0, 0))
  }

  lemma NatureBits(required: bool, performed: bool, echo: bool)
    ensures var o := Bit(required, 0x04) | Bit(performed, 0x08) | Bit(echo, 0x10);
      && ((o >> 2) & 0x1 != 0 <==> required) && ((o >> 2) & 0x2 != 0 <==> performed) && (o & 0x10 != 0 <==> echo)
  {
  }

  lemma TranscapBits(transcap: Octet)
    requires transcap < 0x80
    ensures transcap & 0x7f == transcap
  {
  }

  lemma MandatoryIsLong(c: Call, isdn: bool)
    requires InRange(c)
    ensures forall p :: p in Mandatory(c, isdn) ==> LongEnough(p)
  {
    hide CalledOut, ForwardOut, NatureOut;
    NumberSizes(c);
    ForwardSize(c, isdn);
    NatureSize(c);
  }

  lemma NatureSize(c: Call)
    ensures |NatureOut(c)| == 1
  {
  }

  lemma NatureIsReceived(r: Call, c: Call)
    ensures Receive(r, Piece(NATURE_OF_CONNECTION, NatureOut(c)))
      == r.(continuityRequired := c.continuityRequired, continuityPerformed := c.continuityPerformed, echo := c.localEcho)
  {
    hide Bit;
    NatureBits(c.continuityRequired, c.continuityPerformed, c.localEcho);
  }

  lemma CalledIsReceived(r: Call, c: Call)
    requires NumberInRange(c.called)
    ensures |CalledOut(c.called)| >= 2
    ensures Receive(r, Piece(CALLED_NUMBER, CalledOut(c.called)))
      == r.(called := r.called.(digits := Canons(c.called.digits), nai := c.called.nai))
  {
    hide NumberRead, Canons;
    CalledIsRead(c.called);
  }

  lemma MandatoryIsReceived(c: Call, isdn: bool)
    requires InRange(c)
    ensures forall p :: p in Mandatory(c, isdn) ==> LongEnough(p)
    ensures ReceiveAll(FRESH, Mandatory(c, isdn)) == AfterMandatory(c)
  {
    hide CalledOut, Canons, ForwardOut, NatureOut, ReceiveAll, LongEnough, Receive;
    var ps := Mandatory(c, isdn);
    MandatoryIsLong(c, isdn);
    assert forall i :: 0 <= i < |ps| ==> ps[i] in ps;
    FiveReceived(FRESH, ps);
    NatureIsReceived(FRESH, c);
    var c1 := Receive(FRESH, ps[0]);
    MiddleIsReceived(c1, c, isdn);
    CalledIsReceived(c1.(category := c.category, transcap := c.transcap), c);
  }

  lemma MiddleIsReceived(r: Call, c: Call, isdn: bool)
    requires InRange(c)
    ensures var ps := Mandatory(c, isdn);
      && LongEnough(ps[1]) && LongEnough(ps[2]) && LongEnough(ps[3])
      && Receive(Receive(Receive(r, ps[1]), ps[2]), ps[3]) == r.(category := c.category, transcap := c.transcap)
  {
    hide CalledOut, NatureOut, ForwardOut;
    ForwardSize(c, isdn);
    TranscapBits(c.transcap);
  }

  lemma ForwardSize(c: Call, isdn: bool)
    ensures |ForwardOut(c, isdn)| == 2
  {
  }

  lemma FiveReceived(c: Call, ps: seq<Piece>)
    requires |ps| == 5 && forall p :: p in ps ==> LongEnough(p)
    ensures ReceiveAll(c, ps) == Receive(Receive(Receive(Receive(Receive(c, ps[0]), ps[1]), ps[2]), ps[3]), ps[4])
  {
    hide LongEnough, Receive;
    assert ps[1..][0] == ps[1] && ps[1..][1..] == ps[2..];
    assert ps[2..][0] == ps[2] && ps[2..][1..] == ps[3..];
    assert ps[3..][0] == ps[3] && ps[3..][1..] == ps[4..];
    assert ps[4..][0] == ps[4] && ps[4..][1..] == [];
    var c1 := Receive(c, ps[0]);
    var c2 := Receive(c1, ps[1]);
    var c3 := Receive(c2, ps[2]);
    var c4 := Receive(c3, ps[3]);
    assert ReceiveAll(c4, ps[4..]) == Receive(c4, ps[4]);
    assert ReceiveAll(c3, ps[3..]) == ReceiveAll(c4, ps[4..]);
    assert ReceiveAll(c2, ps[2..]) == ReceiveAll(c3, ps[3..]);
    assert ReceiveAll(c1, ps[1..]) == ReceiveAll(c2, ps[2..]);
  }

  /** calling, redirecting, redirection info, redirect counter. */
  lemma FirstOptionals(r: Call, c: Call)
    requires InRange(c) && r.calling == NONE && r.redirecting == NONE && r.redirection == FRESH.redirection
    requires r.redirectCounter == 0
    ensures var p0 := Piece(CALLING_NUMBER, CallingOut(c.calling));
      var p1 := Piece(REDIRECTING_NUMBER, NumberOut(c.redirecting));
      var p2 := Piece(REDIRECTION_INFO, RedirectionOut(c.redirection));
      var p3 := Piece(REDIRECT_COUNTER, CounterOut(c.redirectCounter));
      && Ready(p0) && Ready(p1) && Ready(p2) && Ready(p3)
      && Step(Step(Step(Step(r, p0), p1), p2), p3)
         == r.(calling := HeardCalling(c.calling), redirecting := HeardNumber(c.redirecting),
               redirection := HeardRedirection(c.redirection), redirectCounter := c.redirectCounter)
  {
    hide Step, LongEnough, CallingOut, NumberOut, RedirectionOut, CounterOut;
    hide HeardCalling, HeardNumber, HeardRedirection, NumberInRange;
    CallingStep(r, c.calling);
    var r1 := r.(calling := HeardCalling(c.calling));
    RedirectingStep(r1, c.redirecting);
    var r2 := r1.(redirecting := HeardNumber(c.redirecting));
    RedirectionStep(r2, c.redirection);
    CounterStep(r2.(redirection := HeardRedirection(c.redirection)), c.redirectCounter);
  }

  /** original called number, optional forward call indicators, CUG interlock code. */
  lemma LastOptionals(r: Call, c: Call)
    requires InRange(c) && r.original == NONE && r.cug == FRESH.cug
    ensures var p4 := Piece(ORIGINAL_CALLED, NumberOut(c.original));
      var p5 := Piece(OPT_FORWARD_CALL, OptForwardOut(c.cug));
      var p6 := Piece(CUG_INTERLOCK, InterlockOut(c.cug));
      && Ready(p4) && Ready(p5) && Ready(p6)
      && Step(Step(Step(r, p4), p5), p6) == r.(original := HeardNumber(c.original), cug := HeardCug(c.cug))
  {
    hide Step, LongEnough, NumberOut, OptForwardOut, InterlockOut, HeardNumber, NumberInRange, Canons, Interlocked;
    OriginalStep(r, c.original);
    var r1 := r.(original := HeardNumber(c.original));
    OptForwardStep(r1, c.cug);
    InterlockStep(r1.(cug := r.cug.(indicator := c.cug.indicator, colReq := c.cug.colReq)), c.cug);
  }

  lemma OptionalIsReceived(c: Call)
    requires InRange(c)
    ensures var ps := OptionalOut(c);
      && (forall i :: 0 <= i < |ps| ==> Ready(ps[i]))
      && Steps(AfterMandatory(c), ps) == HeardCall(c)
  {
    hide Step, LongEnough, CallingOut, NumberOut, RedirectionOut, CounterOut, OptForwardOut, InterlockOut;
    hide HeardCalling, HeardNumber, HeardRedirection, HeardCug, Canons, Interlocked, NumberInRange, Steps;
    var ps := OptionalOut(c);
    var r := AfterMandatory(c);
    FirstOptionals(r, c);
    LastOptionals(Step(Step(Step(Step(r, ps[0]), ps[1]), ps[2]), ps[3]), c);
    assert forall i :: 0 <= i < 7 ==> Ready(ps[i]);
    StepsUnrolled(r, ps);
  }

  /** An initial address message, parsed into a fresh call, gives back the called, calling,
      redirecting and original called numbers with their indicators, the category, the medium
      requirement, the redirection data and the closed user group. */
  lemma IamIsHeard(c: Call, isdn: bool, m: Memory)
    requires InRange(c) && Holds(m, 0, Iam(c, isdn))
    ensures var r := Parse(m, Receivers, FIXED_CODES, VARIABLE_CODES, true, |Iam(c, isdn)|);
      && r.Some? && (forall p :: p in r.value ==> LongEnough(p))
      && ReceiveAll(FRESH, r.value) == HeardCall(c)
  {
    hide Holds, Parse, LongEnough, ReceiveAll, AfterMandatory, HeardCall, NatureOut, CalledOut, ForwardOut, OptionalOut;
    IamIsParsed(c, isdn, m);
    MandatoryIsReceived(c, isdn);
    OptionalIsReceived(c);
    NonEmptyAreLong(OptionalOut(c));
    StepsAreReceived(AfterMandatory(c), OptionalOut(c));
    ReceiveAppend(FRESH, Mandatory(c, isdn), NonEmpty(OptionalOut(c)));
  }

  lemma IamIsParsed(c: Call, isdn: bool, m: Memory)
    requires InRange(c) && Holds(m, 0, Iam(c, isdn))
    ensures Parse(m, Receivers, FIXED_CODES, VARIABLE_CODES, true, |Iam(c, isdn)|)
      == Some(Mandatory(c, isdn) + NonEmpty(OptionalOut(c)))
  {
    hide Holds, Parse, Consumes, LongEnough, OptionalOut, CalledOut, Assembled, NonEmpty;
    NumberSizes(c);
    FixedSizes(c, isdn);
    assert |[CalledOut(c.called)]| + 1 + |Bodies([CalledOut(c.called)])| < 256 by { OneBody(CalledOut(c.called)); }
    forall i | 0 <= i < 7 && OptionalOut(c)[i].content != []
      ensures OptionalOut(c)[i].code != 0 && |OptionalOut(c)[i].content| < 256 && Consumes(Receivers, OptionalOut(c)[i])
    {
      OptionalsFit(c, i);
    }
    ParsedAsAssembled(m, Receivers, FIXED_CODES, VARIABLE_CODES, true, FixedOut(c, isdn), [CalledOut(c.called)], OptionalOut(c));
    MandatoryPieces(c, isdn);
  }

  lemma OneBody(content: seq<Octet>)
    ensures |Bodies([content])| <= |content| + 1
  {
    hide ToOctet;
    assert [content][1..] == [];
  }

  lemma FixedSizes(c: Call, isdn: bool)
    ensures |FIXED_CODES| == |FixedOut(c, isdn)| == 4
    ensures forall i :: 0 <= i < 4 ==> Receivers(FIXED_CODES[i]) == Takes(|FixedOut(c, isdn)[i]|)
  {
  }

  lemma MandatoryPieces(c: Call, isdn: bool)
    ensures Pieces(FIXED_CODES, FixedOut(c, isdn)) + Pieces(VARIABLE_CODES, [CalledOut(c.called)]) == Mandatory(c, isdn)
  {
    hide CalledOut, NatureOut, ForwardOut;
    var f := FixedOut(c, isdn);
    assert FIXED_CODES[1..] == [FORWARD_CALL, CALLING_CATEGORY, MEDIUM_REQUIREMENTS];
    assert f[1..] == [ForwardOut(c, isdn), [c.category], [c.transcap]];
    PiecesFirst(FIXED_CODES, f);
    PiecesFirst(FIXED_CODES[1..], f[1..]);
    PiecesFirst(FIXED_CODES[1..][1..], f[1..][1..]);
    PiecesFirst(FIXED_CODES[1..][1..][1..], f[1..][1..][1..]);
    PiecesFirst(VARIABLE_CODES, [CalledOut(c.called)]);
  }

  lemma PiecesFirst(codes: seq<Octet>, contents: seq<seq<Octet>>)
    requires |codes| == |contents| && codes != []
    ensures Pieces(codes, contents) == [Piece(codes[0], contents[0])] + Pieces(codes[1..], contents[1..])
    ensures |codes| == 1 ==> Pieces(codes, contents) == [Piece(codes[0], contents[0])]
  {
  }

  // ----- when nothing is lost

  predicate AllCanonical(s: string) { forall i :: 0 <= i < |s| ==> Canonical(s[i]) }

  lemma CanonsAreSame(s: string)
    ensures Canons(s) == s <==> AllCanonical(s)
  {
    hide Canonical, Canon;
    forall i | 0 <= i < |s| ensures Canon(s[i]) == s[i] <==> Canonical(s[i]) {
      DigitIsRead(s[i]);
    }
  }

  /** The calling number with its indicators survives when it has canonical digits and is
      available, when it is declared not available and blank, or when there is none. */
  lemma CallingSurvives(n: Number)
    ensures HeardCalling(n) == n <==>
      (n.presentation == NOT_AVAILABLE && n.digits == "" && n.nai == 0)
      || (n.presentation != NOT_AVAILABLE && n.digits != "" && AllCanonical(n.digits)) || n == NONE
  {
    hide Canons, AllCanonical;
    CanonsAreSame(n.digits);
  }

  lemma NumberSurvives(n: Number)
    ensures HeardNumber(n) == n <==> n == NONE || (n.digits != "" && AllCanonical(n.digits))
  {
    hide Canons, AllCanonical;
    CanonsAreSame(n.digits);
  }

  lemma CugSurvives(g: Cug)
    ensures HeardCug(g) == g <==>
      if g.indicator == 2 || g.indicator == 3 then AllCanonical(g.ni) else g.ni == "" && g.code == 0
  {
    hide Canons, AllCanonical;
    CanonsAreSame(g.ni);
  }

  /** Everything an IAM carries survives exactly when each part does. */
  lemma CallSurvives(c: Call)
    requires InRange(c)
    ensures HeardCall(c) == c.(localEcho := false, echo := c.localEcho, interworking := false, pmBits := 0,
                               called := c.called.(presentation := 0, screening := 0))
      <==> AllCanonical(c.called.digits) && HeardCalling(c.calling) == c.calling
           && HeardNumber(c.redirecting) == c.redirecting && HeardNumber(c.original) == c.original
           && (c.redirection.given || c.redirection == FRESH.redirection) && HeardCug(c.cug) == c.cug
  {
    hide Canons, AllCanonical, HeardCalling, HeardNumber, HeardCug, InRange;
    CanonsAreSame(c.called.digits);
  }

  // ----- the size of the small parameters

  lemma SmallSizes(c: Call)
    requires Interlocked(c.cug) ==> |c.cug.ni| == 4
    ensures RedirectionOut(c.redirection) == [] || |RedirectionOut(c.redirection)| == 2
    ensures |CounterOut(c.redirectCounter)| <= 1 && |OptForwardOut(c.cug)| <= 1
    ensures InterlockOut(c.cug) == [] || |InterlockOut(c.cug)| == 4
  {
    hide Bit, Char2Digit, Reason;
  }
}
