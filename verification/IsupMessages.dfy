/** Every message of the message table on both switch types: what each parameter transmits, how
    long the message can get, and that the receiving side takes it apart again. */
module IsupMessages {
  import opened Octets
  import opened IsupNumber
  import opened IsupFraming
  import opened IsupIam
  import IsupGroup
  import opened Options
  import opened Switches

  datatype GenericAddress = GenericAddress(kind: Octet, nai: Octet, plan: Octet, presentation: Octet, digits: string)
  datatype GenericDigits = GenericDigits(kind: Octet, scheme: Octet, digits: string)
  datatype GenericName = GenericName(kind: Octet, available: Octet, presentation: Octet, text: string)

  /** What the transmit functions read of the stack and of struct isup_call, beside the part the
      ITU IAM carries. */
  datatype Sender = Sender(
    call: Call, isdn: bool, charge: Number, connected: Number, address: GenericAddress, digits: GenericDigits,
    name: GenericName, jip: string, lspiScheme: Octet, lspiKind: Octet, oli: int, refIdent: bv32, refPc: bv32,
    causeCode: Octet, causeLoc: Octet, cause: Octet, range: nat, status: seq<Octet>, groupKind: Octet,
    continuityPassed: bool, event: Octet, inr0: Octet, inr1: Octet, inf0: Octet, inf1: Octet, networkIsdn: Octet)

  /** Strings leave room for their final NUL, and a group has at most 32 circuits. */
  predicate Fits(s: Sender) {
    && |s.call.called.digits| <= 63 && |s.call.calling.digits| <= 63
    && |s.call.redirecting.digits| <= 63 && |s.call.original.digits| <= 63
    && (Interlocked(s.call.cug) ==> |s.call.cug.ni| == 4)
    && |s.charge.digits| <= 63 && |s.connected.digits| <= 63
    && |s.address.digits| <= 63 && |s.digits.digits| <= 63 && |s.jip| <= 63 && |s.name.text| <= 15
    && s.range <= 31 && |s.status| == IsupGroup.STATUS_SIZE
  }

  // ----- the parameters that are not in an ITU IAM

  const CALL_REF: Octet := 0x01
  const SUBSEQUENT_NUMBER: Octet := 0x05
  const INR_IND: Octet := 0x0e
  const INF_IND: Octet := 0x0f
  const CONTINUITY_IND: Octet := 0x10
  const BACKWARD_CALL: Octet := 0x11
  const CAUSE: Octet := 0x12
  const GROUP_SUPERVISION: Octet := 0x15
  const RANGE_AND_STATUS: Octet := 0x16
  const FACILITY_IND: Octet := 0x18
  const USER_SERVICE_INFO: Octet := 0x1d
  const CONNECTED_NUMBER: Octet := 0x21
  const SUSPEND_RESUME: Octet := 0x22
  const EVENT_INFO: Octet := 0x24
  const CIRCUIT_STATE: Octet := 0x26
  const GENERIC_ADDRESS: Octet := 0xc0
  const GENERIC_DIGITS: Octet := 0xc1
  const JIP: Octet := 0xc4
  const GENERIC_NAME: Octet := 0xc7
  const LOCAL_PROVIDER: Octet := 0xe4
  const LINE_INFO: Octet := 0xea
  const CHARGE_NUMBER: Octet := 0xeb

  const IAM: Octet := 0x01
  const GRS: Octet := 0x17
  const CQM: Octet := 0x2a
  const CQR: Octet := 0x2b
  const GRA: Octet := 0x29
  const RLC: Octet := 0x10

  function ChargeOut(n: Number): seq<Octet> {
    if n.digits == "" then [] else [Odd(n.digits) | n.nai, 0x10] + Packed(n.digits)
  }

  function LineInfoOut(oli: int): seq<Octet> {
    if oli < 0 then [] else if oli < 99 then [ToOctet(oli)] else [0]
  }

  function AddressOut(a: GenericAddress): seq<Octet> {
    if a.digits == "" then []
    else [a.kind, Odd(a.digits) | a.nai, PlanOctet(a.plan, a.presentation)] + Packed(a.digits)
  }

  function PlanOctet(plan: Octet, presentation: Octet): Octet { (plan << 4) | ((presentation & 0x3) << 2) }

  function Text(s: string): (os: seq<Octet>)
    ensures |os| == |s|
  {
    seq(|s|, i requires 0 <= i < |s| => ToOctet(s[i] as int))
  }

  /** A business group identity goes out as characters, anything else as packed digits. */
  function GenericDigitsOut(d: GenericDigits): seq<Octet> {
    if d.digits == "" then []
    else if d.kind == 3 then [(d.scheme << 5) | d.kind] + Text(d.digits)
    else [(Odd(d.digits) >> 2) | d.kind] + Packed(d.digits)
  }

  function NameOut(n: GenericName): seq<Octet> {
    if n.text == "" then [] else [(n.kind << 5) | ((n.available & 0x1) << 4) | (n.presentation & 0x3)] + Text(n.text)
  }

  function ProviderOut(scheme: Octet, kind: Octet): seq<Octet> {
    if scheme != 0 then [(scheme << 5) | kind] else []
  }

  function BackwardOut(echo: bool): seq<Octet> { [0x40, 0x14 | Bit(echo, 0x20)] }

  function CauseOut(code: Octet, loc: Octet, cause: Octet): seq<Octet> { [0x80 | (code << 5) | loc, 0x80 | cause] }

  /** A group query, its answer and a group reset carry the range only. */
  function RangeOut(kind: Octet, range: nat, status: seq<Octet>): seq<Octet> {
    [ToOctet(range)] + if kind == CQR || kind == CQM || kind == GRS then [] else IsupGroup.Bitmap(status, range)
  }

  function CircuitStates(status: seq<Octet>, range: nat): seq<Octet> {
    if range < |status| then status[..range + 1] else status
  }

  function Low(x: bv32): Octet { (x & 0xff) as bv8 }

  function CallRefOut(sw: Switch, ident: bv32, pc: bv32): seq<Octet> {
    if ident == 0 then []
    else if sw == ANSI then [Low(ident), Low(ident >> 8), Low(ident >> 16), Low(pc), Low(pc >> 8), Low(pc >> 16)]
    else [Low(ident), Low(ident >> 8), Low(ident >> 16), Low(pc), Low(pc >> 8) & 0x3f]
  }

  /** Nothing is told about the connected number unless it was asked for. */
  function ConnectedOut(asked: bool, n: Number): seq<Octet> {
    if !asked then []
    else if n.digits == "" then [n.nai, (NOT_AVAILABLE << 2) | (n.screening & 0x3)]
    else [Odd(n.digits) | n.nai, ((n.presentation & 0x3) << 2) | (n.screening & 0x3)] + Packed(n.digits)
  }

  function SubsequentOut(n: Number): seq<Octet> { [Odd(n.digits)] + Packed(n.digits) }

  // ----- the transmit functions by code

  /** Parameters of the initial address message. */
  function CallOut(sw: Switch, code: Octet, s: Sender): Option<seq<Octet>>
    requires Fits(s)
  {
    if code == NATURE_OF_CONNECTION then Some(NatureOut(s.call))
    else if code == FORWARD_CALL then Some(ForwardOut(s.call, s.isdn))
    else if code == CALLING_CATEGORY then Some([s.call.category])
    else if code == MEDIUM_REQUIREMENTS then Some(if sw == ITU then [s.call.transcap] else [])
    else if code == CALLED_NUMBER then Some(CalledOut(s.call.called))
    else if code == CALLING_NUMBER then Some(CallingOut(s.call.calling))
    else if code == REDIRECTING_NUMBER then Some(NumberOut(s.call.redirecting))
    else if code == REDIRECTION_INFO then Some(RedirectionOut(s.call.redirection))
    else if code == REDIRECT_COUNTER then Some(CounterOut(s.call.redirectCounter))
    else if code == ORIGINAL_CALLED then Some(NumberOut(s.call.original))
    else if code == OPT_FORWARD_CALL then Some(OptForwardOut(s.call.cug))
    else if code == CUG_INTERLOCK then Some(InterlockOut(s.call.cug))
    else None
  }

  /** Those that only an ANSI initial address message adds. */
  function AnsiOut(code: Octet, s: Sender): Option<seq<Octet>> {
    if code == USER_SERVICE_INFO then Some([0x90, 0x90, 0xa2])
    else if code == CHARGE_NUMBER then Some(ChargeOut(s.charge))
    else if code == LINE_INFO then Some(LineInfoOut(s.oli))
    else if code == GENERIC_ADDRESS then Some(AddressOut(s.address))
    else if code == GENERIC_DIGITS then Some(GenericDigitsOut(s.digits))
    else if code == GENERIC_NAME then Some(NameOut(s.name))
    else if code == JIP then Some(Packed(s.jip))
    else if code == LOCAL_PROVIDER then Some(ProviderOut(s.lspiScheme, s.lspiKind))
    else None
  }

  /** Those of the group messages. */
  function GroupOut(kind: Octet, code: Octet, s: Sender): Option<seq<Octet>> {
    if code == RANGE_AND_STATUS then Some(RangeOut(kind, s.range, s.status))
    else if code == GROUP_SUPERVISION then Some([s.groupKind & 0x3])
    else if code == CIRCUIT_STATE then Some(CircuitStates(s.status, s.range))
    else None
  }

  /** Those of the other messages. */
  function OtherOut(sw: Switch, code: Octet, s: Sender): Option<seq<Octet>> {
    if code == BACKWARD_CALL then Some(BackwardOut(s.call.localEcho))
    else if code == CAUSE then Some(CauseOut(s.causeCode, s.causeLoc, s.cause))
    else if code == CONTINUITY_IND then Some([if s.continuityPassed then 1 else 0])
    else if code == EVENT_INFO then Some([s.event])
    else if code == SUSPEND_RESUME then Some([s.networkIsdn & 0x1])
    else if code == INR_IND then Some([s.inr0, s.inr1])
    else if code == INF_IND then Some([s.inf0, s.inf1])
    else if code == SUBSEQUENT_NUMBER then Some(SubsequentOut(s.call.called))
    else if code == FACILITY_IND then Some([0x10])
    else if code == CALL_REF then Some(CallRefOut(sw, s.refIdent, s.refPc))
    else if code == CONNECTED_NUMBER then Some(ConnectedOut(s.call.cug.colReq, s.connected))
    else None
  }

  /** None: none of the message lists has the code. */
  function Transmitted(sw: Switch, kind: Octet, code: Octet, s: Sender): Option<seq<Octet>>
    requires Fits(s)
  {
    if CallOut(sw, code, s).Some? then CallOut(sw, code, s)
    else if AnsiOut(code, s).Some? then AnsiOut(code, s)
    else if GroupOut(kind, code, s).Some? then GroupOut(kind, code, s)
    else OtherOut(sw, code, s)
  }

  predicate Known(code: Octet) {
    match code
    case 0x06 | 0x07 | 0x09 | 0x02 | 0x04 | 0x0a | 0x0b | 0x13 | 0x77 | 0x28 | 0x08 | 0x1a
       | 0x1d | 0xeb | 0xea | 0xc0 | 0xc1 | 0xc7 | 0xc4 | 0xe4 | 0x16 | 0x15 | 0x26
       | 0x11 | 0x12 | 0x10 | 0x24 | 0x22 | 0x0e | 0x0f | 0x05 | 0x18 | 0x01 | 0x21 => true
    case _ => false
  }

  lemma KnownIsTransmitted(sw: Switch, kind: Octet, code: Octet, s: Sender)
    requires Fits(s)
    ensures Transmitted(sw, kind, code, s).Some? <==> Known(code)
  {
    hide NatureOut, ForwardOut, CalledOut, CallingOut, NumberOut, RedirectionOut, CounterOut, OptForwardOut, InterlockOut;
    hide ChargeOut, LineInfoOut, AddressOut, GenericDigitsOut, NameOut, ProviderOut, RangeOut, CircuitStates, BackwardOut;
    hide CauseOut, SubsequentOut, CallRefOut, ConnectedOut, Packed;
  }

  /** What the transmit function of a parameter writes. */
  function Out(sw: Switch, kind: Octet, code: Octet, s: Sender): seq<Octet>
    requires Fits(s) && Known(code)
  {
    KnownIsTransmitted(sw, kind, code, s);
    Transmitted(sw, kind, code, s).value
  }

  /** The most a parameter transmits. */
  function MaxOut(code: Octet): nat {
    match code
    case 0x04 | 0x0a | 0x0b | 0x28 | 0xeb | 0x21 => 34
    case 0xc0 => 35
    case 0xc1 => 64
    case 0xc4 => 32
    case 0x26 => 32
    case 0x05 => 33
    case 0xc7 => 16
    case 0x01 => 6
    case 0x16 => 5
    case 0x1a => 4
    case 0x1d => 3
    case 0x07 | 0x0e | 0x0f | 0x11 | 0x12 | 0x13 => 2
    case _ => 1
  }

  lemma CallOutBound(sw: Switch, code: Octet, s: Sender)
    requires Fits(s) && CallOut(sw, code, s).Some?
    ensures |CallOut(sw, code, s).value| <= MaxOut(code)
  {
    hide Odd, Indicators, Packed, Char2Digit, Bit, Reason;
  }

  lemma AnsiOutBound(code: Octet, s: Sender)
    requires Fits(s) && AnsiOut(code, s).Some?
    ensures |AnsiOut(code, s).value| <= MaxOut(code)
  {
    hide Odd, Packed, Text, ToOctet;
  }

  lemma GroupOutBound(kind: Octet, code: Octet, s: Sender)
    requires Fits(s) && GroupOut(kind, code, s).Some?
    ensures |GroupOut(kind, code, s).value| <= MaxOut(code)
  {
    hide ToOctet, IsupGroup.Bitmap;
  }

  lemma OtherOutBound(sw: Switch, code: Octet, s: Sender)
    requires Fits(s) && OtherOut(sw, code, s).Some?
    ensures |OtherOut(sw, code, s).value| <= MaxOut(code)
  {
    hide BackwardOut, CauseOut, SubsequentOut, CallRefOut, ConnectedOut, Fits;
    OtherSizes(sw, s);
  }

  lemma OtherSizes(sw: Switch, s: Sender)
    requires Fits(s)
    ensures |BackwardOut(s.call.localEcho)| == 2 && |CauseOut(s.causeCode, s.causeLoc, s.cause)| == 2
    ensures |SubsequentOut(s.call.called)| <= 33 && |CallRefOut(sw, s.refIdent, s.refPc)| <= 6
    ensures |ConnectedOut(s.call.cug.colReq, s.connected)| <= 34
  {
    hide Odd, Packed, Low, Bit, ToOctet;
  }

  lemma OutBound(sw: Switch, kind: Octet, code: Octet, s: Sender)
    requires Fits(s) && Known(code)
    ensures |Out(sw, kind, code, s)| <= MaxOut(code)
  {
    hide CallOut, AnsiOut, GroupOut, OtherOut, Known, Fits, MaxOut;
    KnownIsTransmitted(sw, kind, code, s);
    if CallOut(sw, code, s).Some? {
      CallOutBound(sw, code, s);
    } else if AnsiOut(code, s).Some? {
      AnsiOutBound(code, s);
    } else if GroupOut(kind, code, s).Some? {
      GroupOutBound(kind, code, s);
    } else {
      OtherOutBound(sw, code, s);
    }
  }

  // ----- when nothing is written

  /** The sender has nothing to say in a parameter. */
  predicate Silent(sw: Switch, code: Octet, s: Sender) {
    if code == MEDIUM_REQUIREMENTS then sw != ITU
    else if code == CALLING_NUMBER then s.call.calling.presentation != NOT_AVAILABLE && s.call.calling.digits == ""
    else if code == REDIRECTING_NUMBER then s.call.redirecting.digits == ""
    else if code == REDIRECTION_INFO then !s.call.redirection.given
    else if code == REDIRECT_COUNTER then s.call.redirectCounter == 0
    else if code == ORIGINAL_CALLED then s.call.original.digits == ""
    else if code == OPT_FORWARD_CALL then !s.call.cug.colReq && s.call.cug.indicator == 0
    else if code == CUG_INTERLOCK then s.call.cug.indicator != 2 && s.call.cug.indicator != 3
    else SilentElsewhere(code, s)
  }

  predicate SilentElsewhere(code: Octet, s: Sender) {
    if code == CHARGE_NUMBER then s.charge.digits == ""
    else if code == LINE_INFO then s.oli < 0
    else if code == GENERIC_ADDRESS then s.address.digits == ""
    else if code == GENERIC_DIGITS then s.digits.digits == ""
    else if code == GENERIC_NAME then s.name.text == ""
    else if code == JIP then s.jip == ""
    else if code == LOCAL_PROVIDER then s.lspiScheme == 0
    else if code == CALL_REF then s.refIdent == 0
    else code == CONNECTED_NUMBER && !s.call.cug.colReq
  }

  /** A parameter is empty, and so left out of an optional part, exactly when there is nothing to say in it. */
  lemma SilentExactly(sw: Switch, kind: Octet, code: Octet, s: Sender)
    requires Fits(s) && Known(code)
    ensures Out(sw, kind, code, s) == [] <==> Silent(sw, code, s)
  {
    hide CallOut, AnsiOut, GroupOut, OtherOut, Known, Fits, Silent;
    KnownIsTransmitted(sw, kind, code, s);
    if CallOut(sw, code, s).Some? {
      CallSilent(sw, code, s);
    } else if AnsiOut(code, s).Some? {
      AnsiSilent(sw, code, s);
    } else if GroupOut(kind, code, s).Some? {
      GroupSpeaks(sw, kind, code, s);
    } else {
      OtherSilent(sw, code, s);
    }
  }

  lemma CallSilent(sw: Switch, code: Octet, s: Sender)
    requires Fits(s) && CallOut(sw, code, s).Some?
    ensures CallOut(sw, code, s).value == [] <==> Silent(sw, code, s)
  {
    hide Odd, Indicators, Packed, Char2Digit, Bit, Reason;
  }

  lemma AnsiSilent(sw: Switch, code: Octet, s: Sender)
    requires AnsiOut(code, s).Some?
    ensures AnsiOut(code, s).value == [] <==> Silent(sw, code, s)
  {
    hide Odd, Text, ToOctet;
  }

  lemma GroupSpeaks(sw: Switch, kind: Octet, code: Octet, s: Sender)
    requires Fits(s) && GroupOut(kind, code, s).Some?
    ensures GroupOut(kind, code, s).value != [] && !Silent(sw, code, s)
  {
    hide ToOctet, IsupGroup.Bitmap;
  }

  lemma OtherSilent(sw: Switch, code: Octet, s: Sender)
    requires OtherOut(sw, code, s).Some?
    ensures OtherOut(sw, code, s).value == [] <==> Silent(sw, code, s)
  {
    hide Odd, Packed, Low, Bit, ToOctet;
  }

  /** A group message other than a query, its response and a reset has one bit a circuit behind its range. */
  lemma RangeStandsAlone(kind: Octet, range: nat, status: seq<Octet>)
    requires range < 256
    ensures var out := RangeOut(kind, range, status);
      && out != [] && Value(out[0]) == range
      && (|out| == 1 <==> kind == CQR || kind == CQM || kind == GRS)
      && (|out| > 1 ==> out[1..] == IsupGroup.Bitmap(status, range))
  {
    hide IsupGroup.Bitmap;
    ValueOf(range);
  }

  /** Generic digits take one octet a character as a business group identity, and half an octet each otherwise;
      line information is its number below 99. */
  lemma DigitsTake(d: GenericDigits, oli: int)
    ensures d.digits != "" ==> |GenericDigitsOut(d)| == 1 + if d.kind == 3 then |d.digits| else (|d.digits| + 1) / 2
    ensures oli >= 0 ==> |LineInfoOut(oli)| == 1 && Value(LineInfoOut(oli)[0]) == if oli < 99 then oli else 0
  {
    hide Text, ToOctet, Value;
    ValueOf(0);
    if 0 <= oli < 99 { ValueOf(oli); }
    ZeroOctet();
  }

  lemma ZeroOctet()
    ensures Value(0) == 0
  {
  }

  // ----- the message table

  /** The counts of fixed, variable and optional parameters, and the list they cut. */
  datatype Row = Row(fixed: nat, variable: nat, optional: nat, codes: seq<Octet>)

  const ITU_IAM_CODES: seq<Octet> :=
    [0x06, 0x07, 0x09, 0x02, 0x04, 0x0a, 0x0b, 0x13, 0x77, 0x28, 0x08, 0x1a]
  const ANSI_IAM_CODES: seq<Octet> :=
    [0x06, 0x07, 0x09, 0x1d, 0x04, 0x0a, 0xeb, 0xea, 0xc0, 0xc1, 0xc7, 0xc4, 0xe4, 0x13, 0x0b, 0x77, 0x28, 0x08, 0x1a]

  function Table(kind: Octet): Option<Row> {
    match kind
    case 0x01 => Some(Row(4, 1, 1, ITU_IAM_CODES))
    case 0x06 => Some(Row(1, 0, 1, [BACKWARD_CALL]))
    case 0x09 => Some(Row(0, 0, 1, [CONNECTED_NUMBER]))
    case 0x07 => Some(Row(1, 0, 1, [BACKWARD_CALL, CONNECTED_NUMBER]))
    case 0x0c => Some(Row(0, 1, 1, [CAUSE]))
    case 0x10 => Some(Row(0, 0, 1, []))
    case 0x17 | 0x29 => Some(Row(0, 1, 0, [RANGE_AND_STATUS]))
    case 0x18 | 0x19 | 0x1a | 0x1b => Some(Row(1, 1, 0, [GROUP_SUPERVISION, RANGE_AND_STATUS]))
    case 0x05 => Some(Row(1, 0, 0, [CONTINUITY_IND]))
    case 0x11 | 0x13 | 0x24 | 0x14 | 0x15 | 0x16 | 0x12 | 0xeb | 0xec | 0x2e => Some(Row(0, 0, 0, []))
    case 0x2c => Some(Row(1, 0, 1, [EVENT_INFO, CONNECTED_NUMBER]))
    case 0x2a => Some(Row(0, 1, 0, [RANGE_AND_STATUS]))
    case 0x2b => Some(Row(0, 2, 0, [RANGE_AND_STATUS, CIRCUIT_STATE]))
    case 0x21 | 0x20 | 0x1f => Some(Row(1, 0, 1, [FACILITY_IND, CALL_REF]))
    case 0x2f => Some(Row(0, 1, 1, [CAUSE]))
    case 0x0d | 0x0e => Some(Row(1, 0, 1, [SUSPEND_RESUME, CALL_REF]))
    case 0x03 => Some(Row(1, 0, 0, [INR_IND]))
    case 0x04 => Some(Row(1, 0, 2, [INF_IND, CALLING_NUMBER, CALLING_CATEGORY]))
    case 0x02 => Some(Row(0, 1, 1, [SUBSEQUENT_NUMBER]))
    case _ => None
  }

  /** The exceptions both isup_send_message and isup_receive make for ANSI. */
  function RowFor(sw: Switch, kind: Octet): Option<Row> {
    if Table(kind).None? || sw == ITU then Table(kind)
    else if kind == IAM then Some(Row(3, 2, 1, ANSI_IAM_CODES))
    else if kind == RLC then Some(Table(kind).value.(optional := 0))
    else if kind == GRS || kind == GRA then Some(Table(kind).value.(optional := 1))
    else Table(kind)
  }

  /** ANSI changes four rows: its own IAM, a release complete without an optional part, and a group reset and
      its acknowledgement with one. */
  lemma AnsiExceptions(kind: Octet)
    ensures RowFor(ITU, kind) == Table(kind) && (RowFor(ANSI, kind).Some? <==> Table(kind).Some?)
    ensures RowFor(ANSI, kind) == RowFor(ITU, kind) <==> kind != IAM && kind != RLC && kind != GRS && kind != GRA
    ensures Table(kind).Some? && kind != IAM ==>
      var ansi, itu := RowFor(ANSI, kind).value, Table(kind).value;
      ansi.fixed == itu.fixed && ansi.variable == itu.variable && ansi.codes == itu.codes
      && (ansi.optional > 0 <==> kind == GRS || kind == GRA || (itu.optional > 0 && kind != RLC))
  {
  }

  /** No message lists optional parameters without having an optional part. */
  lemma OptionalCodesHaveAPart(sw: Switch, kind: Octet)
    requires RowFor(sw, kind).Some?
    ensures var r := RowFor(sw, kind).value;
      r.fixed + r.variable <= |r.codes| && (r.fixed + r.variable < |r.codes| ==> r.optional > 0)
  {
  }

  predicate Cut(r: Row) { r.fixed + r.variable <= |r.codes| && forall c :: c in r.codes ==> Known(c) }

  function FixedCodes(r: Row): seq<Octet>
    requires Cut(r)
  {
    r.codes[..r.fixed]
  }

  function VariableCodes(r: Row): seq<Octet>
    requires Cut(r)
  {
    r.codes[r.fixed..r.fixed + r.variable]
  }

  function OptionalCodes(r: Row): seq<Octet>
    requires Cut(r)
  {
    r.codes[r.fixed + r.variable..]
  }

  predicate AllKnown(codes: seq<Octet>) { forall i :: 0 <= i < |codes| ==> Known(codes[i]) }

  function Outs(sw: Switch, kind: Octet, codes: seq<Octet>, s: Sender): (r: seq<seq<Octet>>)
    requires Fits(s) && AllKnown(codes)
    ensures |r| == |codes|
  {
    if codes == [] then [] else [Out(sw, kind, codes[0], s)] + Outs(sw, kind, codes[1..], s)
  }

  lemma {:induction false} OutsAt(sw: Switch, kind: Octet, codes: seq<Octet>, s: Sender, i: nat)
    requires Fits(s) && AllKnown(codes) && i < |codes|
    ensures Outs(sw, kind, codes, s)[i] == Out(sw, kind, codes[i], s)
    decreases i
  {
    hide Out, Fits, Known;
    if i > 0 {
      OutsAt(sw, kind, codes[1..], s, i - 1);
    }
  }

  /** The parameter part of a message. */
  function Message(sw: Switch, kind: Octet, r: Row, s: Sender): seq<Octet>
    requires Fits(s) && Cut(r)
  {
    Assembled(Outs(sw, kind, FixedCodes(r), s), Outs(sw, kind, VariableCodes(r), s), r.optional != 0,
              Optionals(sw, kind, r, s))
  }

  function Optionals(sw: Switch, kind: Octet, r: Row, s: Sender): seq<Piece>
    requires Fits(s) && Cut(r)
  {
    Pieces(OptionalCodes(r), Outs(sw, kind, OptionalCodes(r), s))
  }

  // ----- bounds of the parts of a message

  function FixedMax(codes: seq<Octet>): nat {
    if codes == [] then 0 else MaxOut(codes[0]) + FixedMax(codes[1..])
  }

  function BodyMax(codes: seq<Octet>): nat {
    if codes == [] then 0 else 1 + MaxOut(codes[0]) + BodyMax(codes[1..])
  }

  function OptionalMax(codes: seq<Octet>): nat {
    if codes == [] then 0 else 2 + MaxOut(codes[0]) + OptionalMax(codes[1..])
  }

  lemma {:induction false} ConcatBound(sw: Switch, kind: Octet, codes: seq<Octet>, s: Sender)
    requires Fits(s) && AllKnown(codes)
    ensures |Concat(Outs(sw, kind, codes, s))| <= FixedMax(codes)
    decreases |codes|
  {
    hide Out, MaxOut, Known, Fits;
    if codes != [] {
      OutBound(sw, kind, codes[0], s);
      ConcatBound(sw, kind, codes[1..], s);
      assert Outs(sw, kind, codes, s)[1..] == Outs(sw, kind, codes[1..], s);
    }
  }

  lemma {:induction false} BodiesBound(sw: Switch, kind: Octet, codes: seq<Octet>, s: Sender)
    requires Fits(s) && AllKnown(codes)
    ensures |Bodies(Outs(sw, kind, codes, s))| <= BodyMax(codes)
    decreases |codes|
  {
    hide Out, MaxOut, Known, Fits, ToOctet;
    if codes != [] {
      OutBound(sw, kind, codes[0], s);
      BodiesBound(sw, kind, codes[1..], s);
      assert Outs(sw, kind, codes, s)[1..] == Outs(sw, kind, codes[1..], s);
    }
  }

  lemma {:induction false} TlvsBound(sw: Switch, kind: Octet, codes: seq<Octet>, s: Sender)
    requires Fits(s) && AllKnown(codes)
    ensures |Tlvs(Pieces(codes, Outs(sw, kind, codes, s)))| <= OptionalMax(codes)
    decreases |codes|
  {
    hide Out, MaxOut, Known, Fits, ToOctet;
    if codes != [] {
      OutBound(sw, kind, codes[0], s);
      TlvsBound(sw, kind, codes[1..], s);
      var outs := Outs(sw, kind, codes, s);
      assert outs[1..] == Outs(sw, kind, codes[1..], s);
      assert Pieces(codes, outs)[1..] == Pieces(codes[1..], outs[1..]);
    }
  }

  function Bound(r: Row): nat
    requires Cut(r)
  {
    FixedMax(FixedCodes(r)) + |VariableCodes(r)| + BodyMax(VariableCodes(r)) + 2 + OptionalMax(OptionalCodes(r))
  }

  lemma MessageBound(sw: Switch, kind: Octet, r: Row, s: Sender)
    requires Fits(s) && Cut(r)
    ensures |Message(sw, kind, r, s)| <= Bound(r)
  {
    hide Fits, Known, Outs, Concat, Bodies, Tlvs, Pieces, Pointers, FixedMax, BodyMax, OptionalMax, Assembled;
    ConcatBound(sw, kind, FixedCodes(r), s);
    BodiesBound(sw, kind, VariableCodes(r), s);
    TlvsBound(sw, kind, OptionalCodes(r), s);
    AssembledSize(Outs(sw, kind, FixedCodes(r), s), Outs(sw, kind, VariableCodes(r), s), r.optional != 0,
                  Optionals(sw, kind, r, s));
  }

  // ----- the rows of the table

  lemma CutAt(r: Row, f: seq<Octet>, v: seq<Octet>, o: seq<Octet>)
    requires r.codes == f + v + o && |f| == r.fixed && |v| == r.variable
    requires AllKnown(f) && AllKnown(v) && AllKnown(o)
    ensures Cut(r) && FixedCodes(r) == f && VariableCodes(r) == v && OptionalCodes(r) == o
  {
    hide Known;
  }

  const ITU_OPTIONALS: seq<Octet> := [0x0a, 0x0b, 0x13, 0x77, 0x28, 0x08, 0x1a]
  const ANSI_FIRST: seq<Octet> := [0x0a, 0xeb, 0xea, 0xc0, 0xc1, 0xc7, 0xc4]
  const ANSI_LAST: seq<Octet> := [0xe4, 0x13, 0x0b, 0x77, 0x28, 0x08, 0x1a]

  /** The three parts of each row. */
  function PartsOf(sw: Switch, kind: Octet): (seq<Octet>, seq<Octet>, seq<Octet>) {
    match kind
    case 0x01 =>
      if sw == ITU then ([0x06, 0x07, 0x09, 0x02], [0x04], ITU_OPTIONALS)
      else ([0x06, 0x07, 0x09], [0x1d, 0x04], ANSI_FIRST + ANSI_LAST)
    case 0x06 => ([BACKWARD_CALL], [], [])
    case 0x09 => ([], [], [CONNECTED_NUMBER])
    case 0x07 => ([BACKWARD_CALL], [], [CONNECTED_NUMBER])
    case 0x0c | 0x2f => ([], [CAUSE], [])
    case 0x17 | 0x29 | 0x2a => ([], [RANGE_AND_STATUS], [])
    case 0x18 | 0x19 | 0x1a | 0x1b => ([GROUP_SUPERVISION], [RANGE_AND_STATUS], [])
    case 0x05 => ([CONTINUITY_IND], [], [])
    case 0x2c => ([EVENT_INFO], [], [CONNECTED_NUMBER])
    case 0x2b => ([], [RANGE_AND_STATUS, CIRCUIT_STATE], [])
    case 0x21 | 0x20 | 0x1f => ([FACILITY_IND], [], [CALL_REF])
    case 0x0d | 0x0e => ([SUSPEND_RESUME], [], [CALL_REF])
    case 0x03 => ([INR_IND], [], [])
    case 0x04 => ([INF_IND], [], [CALLING_NUMBER, CALLING_CATEGORY])
    case 0x02 => ([], [SUBSEQUENT_NUMBER], [])
    case _ => ([], [], [])
  }

  lemma PartsAreRow(sw: Switch, kind: Octet)
    requires RowFor(sw, kind).Some?
    ensures var (f, v, o) := PartsOf(sw, kind); var r := RowFor(sw, kind).value;
      r.codes == f + v + o && |f| == r.fixed && |v| == r.variable
  {
    hide Known;
    if kind == IAM {
      IamParts(sw);
    } else {
      OtherParts(sw, kind);
    }
  }

  lemma IamParts(sw: Switch)
    ensures var (f, v, o) := PartsOf(sw, IAM); var r := RowFor(sw, IAM);
      r.Some? && r.value.codes == f + v + o && |f| == r.value.fixed && |v| == r.value.variable && r.value.optional == 1
  {
    hide Known, PartsOf, RowFor;
    if sw == ITU { ItuIamParts(); } else { AnsiIamParts(); }
  }

  lemma ItuIamParts()
    ensures var (f, v, o) := PartsOf(ITU, IAM); var r := RowFor(ITU, IAM);
      r.Some? && r.value.codes == f + v + o && |f| == r.value.fixed && |v| == r.value.variable && r.value.optional == 1
  {
    hide Known;
  }

  lemma AnsiIamParts()
    ensures var (f, v, o) := PartsOf(ANSI, IAM); var r := RowFor(ANSI, IAM);
      r.Some? && r.value.codes == f + v + o && |f| == r.value.fixed && |v| == r.value.variable && r.value.optional == 1
  {
    hide Known;
  }

  lemma OtherParts(sw: Switch, kind: Octet)
    requires RowFor(sw, kind).Some? && kind != IAM
    ensures var (f, v, o) := PartsOf(sw, kind); var r := RowFor(sw, kind).value;
      && r.codes == f + v + o && |f| == r.fixed && |v| == r.variable
      && |f| <= 1 && |v| <= 2 && |o| <= 2
  {
    hide Known, RowFor, PartsOf;
    if kind < 0x0d { EarlyParts(sw, kind); } else { LateParts(sw, kind); }
  }

  lemma EarlyParts(sw: Switch, kind: Octet)
    requires RowFor(sw, kind).Some? && kind != IAM && kind < 0x0d
    ensures var (f, v, o) := PartsOf(sw, kind); var r := RowFor(sw, kind).value;
      && r.codes == f + v + o && |f| == r.fixed && |v| == r.variable
      && |f| <= 1 && |v| <= 2 && |o| <= 2
  {
    hide Known;
  }

  lemma LateParts(sw: Switch, kind: Octet)
    requires RowFor(sw, kind).Some? && kind >= 0x0d
    ensures var (f, v, o) := PartsOf(sw, kind); var r := RowFor(sw, kind).value;
      && r.codes == f + v + o && |f| == r.fixed && |v| == r.variable
      && |f| <= 1 && |v| <= 2 && |o| <= 2
  {
    hide Known;
  }

  lemma AllKnownAppend(a: seq<Octet>, b: seq<Octet>)
    requires AllKnown(a) && AllKnown(b)
    ensures AllKnown(a + b)
  {
    hide Known;
  }

  lemma PartsAreKnown(sw: Switch, kind: Octet)
    ensures var (f, v, o) := PartsOf(sw, kind); AllKnown(f) && AllKnown(v) && AllKnown(o)
  {
    if kind == IAM {
      IamIsKnown(sw);
    }
  }

  lemma IamIsKnown(sw: Switch)
    ensures var (f, v, o) := PartsOf(sw, IAM); AllKnown(f) && AllKnown(v) && AllKnown(o)
  {
    if sw == ITU {
      assert AllKnown(ITU_OPTIONALS);
    } else {
      assert AllKnown(ANSI_FIRST) && AllKnown(ANSI_LAST);
      AllKnownAppend(ANSI_FIRST, ANSI_LAST);
    }
  }

  lemma {:induction false} OptionalMaxAppend(a: seq<Octet>, b: seq<Octet>)
    ensures OptionalMax(a + b) == OptionalMax(a) + OptionalMax(b)
  {
    hide MaxOut;
    if a == [] {
      assert a + b == b;
    } else {
      assert (a + b)[1..] == a[1..] + b;
      OptionalMaxAppend(a[1..], b);
    }
  }

  lemma FirstOptionals()
    ensures OptionalMax(ANSI_FIRST) == 230
  {
  }

  lemma LastOptionals()
    ensures OptionalMax(ANSI_LAST) == 91
  {
  }

  lemma IamOptionals(sw: Switch)
    ensures OptionalMax(PartsOf(sw, IAM).2) <= 321
  {
    if sw == ITU {
      assert OptionalMax(ITU_OPTIONALS) == 124;
    } else {
      hide OptionalMax, MaxOut;
      OptionalMaxAppend(ANSI_FIRST, ANSI_LAST);
      FirstOptionals();
      LastOptionals();
    }
  }

  lemma IamMandatory(sw: Switch)
    ensures var (f, v, _) := PartsOf(sw, IAM);
      FixedMax(f) + |v| + BodyMax(v) <= 45 && |v| <= 2
  {
  }

  lemma MaxOutIsSmall(code: Octet)
    ensures MaxOut(code) <= 64
  {
  }

  lemma {:induction false} SumsAreSmall(codes: seq<Octet>)
    ensures FixedMax(codes) <= 64 * |codes| && BodyMax(codes) <= 65 * |codes| && OptionalMax(codes) <= 66 * |codes|
  {
    hide MaxOut;
    if codes != [] {
      MaxOutIsSmall(codes[0]);
      SumsAreSmall(codes[1..]);
    }
  }

  lemma PartBounds(sw: Switch, kind: Octet)
    requires RowFor(sw, kind).Some?
    ensures var (f, v, o) := PartsOf(sw, kind);
      && FixedMax(f) + |v| + BodyMax(v) + 2 + OptionalMax(o) <= 368
      && |v| <= 2 && |v| + BodyMax(v) <= 132
  {
    hide RowFor, PartsOf, MaxOut, FixedMax, BodyMax, OptionalMax;
    if kind == IAM {
      IamMandatory(sw);
      IamOptionals(sw);
    } else {
      var (f, v, o) := PartsOf(sw, kind);
      OtherParts(sw, kind);
      SumsAreSmall(f);
      SumsAreSmall(v);
      SumsAreSmall(o);
    }
  }

  lemma RowIsCut(sw: Switch, kind: Octet)
    requires RowFor(sw, kind).Some?
    ensures var (f, v, o) := PartsOf(sw, kind); var r := RowFor(sw, kind).value;
      && Cut(r) && FixedCodes(r) == f && VariableCodes(r) == v && OptionalCodes(r) == o
  {
    hide RowFor, PartsOf, AllKnown, Known;
    var (f, v, o) := PartsOf(sw, kind);
    PartsAreRow(sw, kind);
    PartsAreKnown(sw, kind);
    CutAt(RowFor(sw, kind).value, f, v, o);
  }

  function RowOf(sw: Switch, kind: Octet): (r: Row)
    requires RowFor(sw, kind).Some?
    ensures Cut(r)
  {
    RowIsCut(sw, kind);
    RowFor(sw, kind).value
  }

  /** What isup_send_message puts behind the message type. */
  function Parameters(sw: Switch, kind: Octet, s: Sender): seq<Octet>
    requires Fits(s) && RowFor(sw, kind).Some?
  {
    Message(sw, kind, RowOf(sw, kind), s)
  }

  // ----- the size of every message

  /** The octets of struct ss7_msg. */
  const BUFFER_SIZE := 512

  /** Octets of the routing label. */
  function LabelSize(sw: Switch): nat { if sw == ITU then 4 else 7 }

  /** MTP2 header, service octet, label, circuit code, message type, parameters, CRC. */
  function BufferSize(sw: Switch, parameters: nat): nat { 3 + 1 + LabelSize(sw) + 2 + 1 + parameters + 2 }

  /** Every message of the table, on both switch types, fits the buffer of a message. */
  lemma EveryMessageFits(sw: Switch, kind: Octet, s: Sender)
    requires Fits(s) && RowFor(sw, kind).Some?
    ensures BufferSize(sw, |Parameters(sw, kind, s)|) <= 384 < BUFFER_SIZE
  {
    hide RowFor, PartsOf, Cut, Message, FixedMax, BodyMax, OptionalMax, Fits, FixedCodes, VariableCodes, OptionalCodes;
    RowIsCut(sw, kind);
    PartBounds(sw, kind);
    MessageBound(sw, kind, RowFor(sw, kind).value, s);
  }

  /** The distance from pointer i to its body. */
  function Distance(contents: seq<seq<Octet>>, gap: int, i: nat): int
    requires i < |contents|
  {
    gap - i + |Bodies(contents[..i])|
  }

  lemma {:induction false} PointerValue(contents: seq<seq<Octet>>, gap: nat, i: nat)
    requires i < |contents| <= gap && gap + |Bodies(contents)| < 256
    ensures Value(Pointers(contents, gap)[i]) == Distance(contents, gap, i)
    decreases i
  {
    hide ToOctet, Value, Body, Pointers, Bodies;
    FirstPointer(contents, gap);
    if i == 0 {
      ValueOf(gap);
      NoneBefore(contents);
    } else {
      var gap' := gap - 1 + |Body(contents[0])|;
      PointerValue(contents[1..], gap', i - 1);
      assert contents[..i][1..] == contents[1..][..i - 1] && contents[..i][0] == contents[0];
      FirstPointer(contents[..i], gap);
    }
  }

  lemma NoneBefore(contents: seq<seq<Octet>>)
    ensures contents[..0] == [] && Bodies([]) == []
  {
  }

  /** Each length octet, each pointer to a variable parameter and the pointer to the optional part
      holds the full number. */
  ghost predicate NothingCut(variable: seq<seq<Octet>>, optional: bool, ps: seq<Piece>) {
    var cells := Cells(variable, optional);
    && (forall i :: 0 <= i < |variable| ==>
          |variable[i]| < 256 && Value(ToOctet(|variable[i]|)) == |variable[i]|)
    && (forall i :: 0 <= i < |ps| ==> |ps[i].content| < 256 && Value(ToOctet(|ps[i].content|)) == |ps[i].content|)
    && (forall i :: 0 <= i < |variable| ==>
          Value(Pointers(variable, cells)[i]) == Distance(variable, cells, i) < 256)
    && Value(ToOctet(1 + |Bodies(variable)|)) == 1 + |Bodies(variable)| < 256
  }

  lemma OutIsSmall(sw: Switch, kind: Octet, codes: seq<Octet>, s: Sender, i: nat)
    requires Fits(s) && AllKnown(codes) && i < |codes|
    ensures |Outs(sw, kind, codes, s)[i]| < 256
  {
    hide Out, MaxOut, Fits, Known;
    OutsAt(sw, kind, codes, s, i);
    OutBound(sw, kind, codes[i], s);
    MaxOutIsSmall(codes[i]);
  }

  lemma {:induction false} PiecesAt(codes: seq<Octet>, contents: seq<seq<Octet>>, i: nat)
    requires |codes| == |contents| && i < |codes|
    ensures |Pieces(codes, contents)| == |codes| && Pieces(codes, contents)[i] == Piece(codes[i], contents[i])
    decreases i
  {
    PiecesAre(codes, contents);
    if i > 0 {
      PiecesAt(codes[1..], contents[1..], i - 1);
    }
  }

  lemma {:induction false} PiecesAre(codes: seq<Octet>, contents: seq<seq<Octet>>)
    requires |codes| == |contents|
    ensures |Pieces(codes, contents)| == |codes|
    decreases |codes|
  {
    if codes != [] { PiecesAre(codes[1..], contents[1..]); }
  }

  lemma VariableLengths(sw: Switch, kind: Octet, v: seq<Octet>, optional: bool, s: Sender)
    requires Fits(s) && AllKnown(v) && |v| <= 2 && |v| + BodyMax(v) <= 132
    ensures var variable := Outs(sw, kind, v, s); var cells := Cells(variable, optional);
      && (forall i :: 0 <= i < |variable| ==> |variable[i]| < 256 && Value(ToOctet(|variable[i]|)) == |variable[i]|)
      && (forall i :: 0 <= i < |variable| ==>
            Value(Pointers(variable, cells)[i]) == Distance(variable, cells, i) < 256)
      && Value(ToOctet(1 + |Bodies(variable)|)) == 1 + |Bodies(variable)| < 256
  {
    hide Fits, Outs, Out, BodyMax, ToOctet, Value, Bodies, Pointers, Distance, AllKnown;
    var variable := Outs(sw, kind, v, s);
    BodiesBound(sw, kind, v, s);
    ValueOf(1 + |Bodies(variable)|);
    forall i | 0 <= i < |variable|
      ensures |variable[i]| < 256 && Value(ToOctet(|variable[i]|)) == |variable[i]|
      ensures var cells := Cells(variable, optional);
        Value(Pointers(variable, cells)[i]) == Distance(variable, cells, i) < 256
    {
      OutIsSmall(sw, kind, v, s, i);
      ValueOf(|variable[i]|);
      PointerValue(variable, Cells(variable, optional), i);
    }
  }

  lemma OptionalLengths(sw: Switch, kind: Octet, o: seq<Octet>, s: Sender)
    requires Fits(s) && AllKnown(o)
    ensures var ps := Pieces(o, Outs(sw, kind, o, s));
      forall i :: 0 <= i < |ps| ==> |ps[i].content| < 256 && Value(ToOctet(|ps[i].content|)) == |ps[i].content|
  {
    hide Fits, Outs, Out, ToOctet, Value, Pieces, AllKnown;
    var outs := Outs(sw, kind, o, s);
    var ps := Pieces(o, outs);
    PiecesAre(o, outs);
    forall i | 0 <= i < |ps|
      ensures |ps[i].content| < 256 && Value(ToOctet(|ps[i].content|)) == |ps[i].content|
    {
      OutIsSmall(sw, kind, o, s, i);
      PiecesAt(o, outs, i);
      ValueOf(|ps[i].content|);
    }
  }

  /** No length and no pointer of any message is cut to eight bits. */
  lemma LengthsAndPointersFit(sw: Switch, kind: Octet, s: Sender)
    requires Fits(s) && RowFor(sw, kind).Some?
    ensures var r := RowOf(sw, kind);
      NothingCut(Outs(sw, kind, VariableCodes(r), s), r.optional != 0, Optionals(sw, kind, r, s))
  {
    hide RowFor, PartsOf, Fits, Outs, Out, FixedMax, BodyMax, OptionalMax, ToOctet, Value, Bodies, Pointers, Pieces, Distance;
    hide Known, AllKnown, FixedCodes, VariableCodes, OptionalCodes;
    RowIsCut(sw, kind);
    PartBounds(sw, kind);
    PartsAreKnown(sw, kind);
    var (_, v, o) := PartsOf(sw, kind);
    VariableLengths(sw, kind, v, RowFor(sw, kind).value.optional != 0, s);
    OptionalLengths(sw, kind, o, s);
    var r := RowFor(sw, kind).value;
    assert Optionals(sw, kind, r, s) == Pieces(o, Outs(sw, kind, o, s));
    assert NothingCut(Outs(sw, kind, v, s), r.optional != 0, Pieces(o, Outs(sw, kind, o, s)));
  }

  // ----- the way back

  /** Fixed parameters always transmit as many octets as their receivers take. */
  predicate Plain(sw: Switch, code: Octet) {
    match code
    case 0x06 | 0x07 | 0x09 | 0x11 | 0x15 | 0x10 | 0x24 | 0x18 | 0x22 | 0x0e | 0x0f => true
    case 0x02 => sw == ITU
    case _ => false
  }

  lemma PlainIsTaken(sw: Switch, kind: Octet, code: Octet, s: Sender)
    requires Fits(s) && Plain(sw, code)
    ensures Known(code) && Receivers(code) == Takes(|Out(sw, kind, code, s)|)
  {
    hide CalledOut, CallingOut, NumberOut, RedirectionOut, CounterOut, OptForwardOut, InterlockOut, Bit;
    hide ChargeOut, LineInfoOut, AddressOut, GenericDigitsOut, NameOut, ProviderOut, RangeOut, CircuitStates;
    hide CauseOut, SubsequentOut, CallRefOut, ConnectedOut, Packed, Fits;
    KnownIsTransmitted(sw, kind, code, s);
  }

  /** Variable parameters always transmit something. All but the circuit state are received. */
  predicate Spelled(code: Octet) {
    match code
    case 0x04 | 0x1d | 0x12 | 0x16 | 0x05 => true
    case _ => false
  }

  lemma SpelledIsThere(sw: Switch, kind: Octet, code: Octet, s: Sender)
    requires Fits(s) && Spelled(code)
    ensures Known(code) && Out(sw, kind, code, s) != [] && Receivers(code) == TakesAll
  {
    hide NatureOut, ForwardOut, CallingOut, NumberOut, RedirectionOut, CounterOut, OptForwardOut, InterlockOut, Bit, Odd;
    hide ChargeOut, LineInfoOut, AddressOut, GenericDigitsOut, NameOut, ProviderOut, CircuitStates, BackwardOut;
    hide CallRefOut, ConnectedOut, Packed, Fits, ToOctet, IsupGroup.Bitmap;
    KnownIsTransmitted(sw, kind, code, s);
  }

  /** The receiver of an optional parameter consumes what is transmitted, if anything is. */
  predicate Consumed(code: Octet, content: seq<Octet>) {
    content != [] ==> code != 0 && Consumes(Receivers, Piece(code, content))
  }

  predicate Optionable(code: Octet) {
    match code
    case 0x0a | 0x0b | 0x13 | 0x77 | 0x28 | 0x08 | 0x1a | 0x09 | 0xeb | 0xea | 0xc0 | 0xc1 | 0xc7 | 0xc4 | 0xe4
       | 0x01 | 0x21 => true
    case _ => false
  }

  lemma CallIsConsumed(sw: Switch, code: Octet, s: Sender)
    requires Fits(s) && Optionable(code) && CallOut(sw, code, s).Some?
    ensures Consumed(code, CallOut(sw, code, s).value)
  {
    hide CalledOut, CallingOut, NumberOut, NatureOut, ForwardOut, RedirectionOut, CounterOut, OptForwardOut, InterlockOut;
    hide Consumed;
    SmallSizes(s.call);
    CallCodeIsConsumed(code, CallOut(sw, code, s).value);
  }

  lemma CallCodeIsConsumed(code: Octet, content: seq<Octet>)
    requires code in {CALLING_NUMBER, REDIRECTING_NUMBER, ORIGINAL_CALLED}
      || (code in {REDIRECT_COUNTER, OPT_FORWARD_CALL, CALLING_CATEGORY} && |content| <= 1)
      || (code == REDIRECTION_INFO && (content == [] || |content| == 2))
      || (code == CUG_INTERLOCK && (content == [] || |content| == 4))
    ensures Consumed(code, content)
  {
  }

  lemma OthersAreConsumed(code: Octet, content: seq<Octet>)
    requires code in {CHARGE_NUMBER, GENERIC_ADDRESS, GENERIC_DIGITS, GENERIC_NAME, JIP, LOCAL_PROVIDER, CALL_REF, CONNECTED_NUMBER}
      || (code == LINE_INFO && |content| == 1)
    ensures Consumed(code, content)
  {
  }

  lemma OptionalIsConsumed(sw: Switch, kind: Octet, code: Octet, s: Sender)
    requires Fits(s) && Optionable(code)
    ensures Known(code) && Consumed(code, Out(sw, kind, code, s))
  {
    hide CallOut, AnsiOut, GroupOut, OtherOut, Fits, Consumed;
    KnownIsTransmitted(sw, kind, code, s);
    var content := Out(sw, kind, code, s);
    if CallOut(sw, code, s).Some? {
      CallIsConsumed(sw, code, s);
    } else {
      CallCodes(sw, code, s);
      LineInfoIsOne(sw, kind, s);
      if content == [] {
        NothingIsConsumed(code);
      } else {
        OthersAreConsumed(code, content);
      }
    }
  }

  lemma NothingIsConsumed(code: Octet)
    ensures Consumed(code, [])
  {
  }

  lemma CallCodes(sw: Switch, code: Octet, s: Sender)
    requires Fits(s)
    ensures CallOut(sw, code, s).Some? <==>
      code in {NATURE_OF_CONNECTION, FORWARD_CALL, CALLING_CATEGORY, MEDIUM_REQUIREMENTS, CALLED_NUMBER, CALLING_NUMBER}
      || code in {REDIRECTING_NUMBER, REDIRECTION_INFO, REDIRECT_COUNTER, ORIGINAL_CALLED, OPT_FORWARD_CALL, CUG_INTERLOCK}
  {
    hide NatureOut, ForwardOut, CalledOut, CallingOut, NumberOut, RedirectionOut, CounterOut, OptForwardOut, InterlockOut;
  }

  lemma LineInfoIsOne(sw: Switch, kind: Octet, s: Sender)
    requires Fits(s)
    ensures Known(LINE_INFO) && |Out(sw, kind, LINE_INFO, s)| <= 1
  {
    hide Fits, ToOctet;
    KnownIsTransmitted(sw, kind, LINE_INFO, s);
  }

  ghost predicate AllPlain(sw: Switch, codes: seq<Octet>) { forall i :: 0 <= i < |codes| ==> Plain(sw, codes[i]) }
  ghost predicate AllSpelled(codes: seq<Octet>) { forall i :: 0 <= i < |codes| ==> Spelled(codes[i]) }
  ghost predicate AllOptionable(codes: seq<Octet>) { forall i :: 0 <= i < |codes| ==> Optionable(codes[i]) }

  lemma PartsAreRead(sw: Switch, kind: Octet)
    ensures var (f, v, o) := PartsOf(sw, kind);
      AllPlain(sw, f) && (kind != CQR ==> AllSpelled(v)) && AllOptionable(o)
  {
    if kind == IAM {
      IamIsRead(sw);
    }
  }

  lemma AllOptionableAppend(a: seq<Octet>, b: seq<Octet>)
    requires AllOptionable(a) && AllOptionable(b)
    ensures AllOptionable(a + b)
  {
    hide Optionable;
  }

  lemma IamIsRead(sw: Switch)
    ensures var (f, v, o) := PartsOf(sw, IAM); AllPlain(sw, f) && AllSpelled(v) && AllOptionable(o)
  {
    if sw == ITU {
      assert AllOptionable(ITU_OPTIONALS);
    } else {
      assert AllOptionable(ANSI_FIRST) && AllOptionable(ANSI_LAST);
      AllOptionableAppend(ANSI_FIRST, ANSI_LAST);
    }
  }

  /** What a message is taken apart into. */
  function Delivered(sw: Switch, kind: Octet, r: Row, s: Sender): seq<Piece>
    requires Fits(s) && Cut(r)
  {
    Pieces(FixedCodes(r), Outs(sw, kind, FixedCodes(r), s)) + Pieces(VariableCodes(r), Outs(sw, kind, VariableCodes(r), s))
      + if r.optional != 0 then NonEmpty(Optionals(sw, kind, r, s)) else []
  }

  lemma PartsAreParsed(sw: Switch, kind: Octet, f: seq<Octet>, v: seq<Octet>, o: seq<Octet>, optional: bool, s: Sender, m: Memory)
    requires Fits(s) && AllKnown(f) && AllKnown(v) && AllKnown(o)
    requires AllPlain(sw, f) && AllSpelled(v) && AllOptionable(o) && |v| + BodyMax(v) <= 132
    requires Holds(m, 0, Assembled(Outs(sw, kind, f, s), Outs(sw, kind, v, s), optional, Pieces(o, Outs(sw, kind, o, s))))
    ensures var ps := Pieces(o, Outs(sw, kind, o, s));
      Parse(m, Receivers, f, v, optional, |Assembled(Outs(sw, kind, f, s), Outs(sw, kind, v, s), optional, ps)|)
      == Some(Pieces(f, Outs(sw, kind, f, s)) + Pieces(v, Outs(sw, kind, v, s)) + if optional then NonEmpty(ps) else [])
  {
    hide Fits, Known, Out, Outs, Plain, Spelled, Optionable, BodyMax, Holds, Assembled, Parse, Pieces, NonEmpty, Bodies;
    var fs, vs, os := Outs(sw, kind, f, s), Outs(sw, kind, v, s), Outs(sw, kind, o, s);
    var ps := Pieces(o, os);
    forall i | 0 <= i < |f| ensures Receivers(f[i]) == Takes(|fs[i]|) {
      OutsAt(sw, kind, f, s, i);
      PlainIsTaken(sw, kind, f[i], s);
    }
    forall i | 0 <= i < |v| ensures 0 < |vs[i]| < 256 && !Receivers(v[i]).Missing? {
      OutsAt(sw, kind, v, s, i);
      OutIsSmall(sw, kind, v, s, i);
      SpelledIsThere(sw, kind, v[i], s);
    }
    PiecesAre(o, os);
    forall i | 0 <= i < |ps| && ps[i].content != []
      ensures ps[i].code != 0 && |ps[i].content| < 256 && Consumes(Receivers, ps[i])
    {
      OutsAt(sw, kind, o, s, i);
      OutIsSmall(sw, kind, o, s, i);
      PiecesAt(o, os, i);
      OptionalIsConsumed(sw, kind, o[i], s);
    }
    BodiesBound(sw, kind, v, s);
    ParsedAsAssembled(m, Receivers, f, v, optional, fs, vs, ps);
  }

  /** isup_receive with the row of the message. */
  function ParseRow(m: Memory, r: Row, len: nat): Option<seq<Piece>>
    requires Cut(r)
  {
    Parse(m, Receivers, FixedCodes(r), VariableCodes(r), r.optional != 0, len)
  }

  /** Two variable parameters of which the second has no receiver. */
  lemma SecondIsMissing(m: Memory, codes: seq<Octet>, vs: seq<seq<Octet>>)
    requires |codes| == |vs| == 2 && Receivers(codes[0]) == TakesAll && Receivers(codes[1]).Missing?
    requires 0 < |vs[0]| < 250 && Holds(m, 0, Assembled([], vs, false, []))
    ensures Parse(m, Receivers, [], codes, false, |Assembled([], vs, false, [])|) == None
  {
    hide Holds, ToOctet, Value, Receivers, Slice, Bodies, Pointers, Variable;
    var message := Assembled([], vs, false, []);
    AssembledSize([], vs, false, []);
    assert message == Pointers(vs, 2) + Bodies(vs);
    HoldsParts(m, 0, Pointers(vs, 2), Bodies(vs));
    FirstPointer(vs, 2);
    var gap := 1 + |Body(vs[0])|;
    FirstIsHeld(m, 0, 2, vs[0], Pointers(vs[1..], gap), Bodies(vs[1..]));
    FirstPointer(vs[1..], gap);
    HoldsParts(m, 1, [ToOctet(gap)], Pointers(vs[1..][1..], gap - 1 + |Body(vs[1])|));
    HoldsOne(m, 1, ToOctet(gap));
    NonZero(gap);
    SecondIsLooked(m, codes, |message|, |vs[0]|);
  }

  lemma SecondIsLooked(m: Memory, codes: seq<Octet>, len: int, n: nat)
    requires |codes| == 2 && Receivers(codes[0]) == TakesAll && Receivers(codes[1]).Missing?
    requires m(0) != 0 && Value(m(0)) == 2 && Value(m(2)) == n && m(1) != 0 && len > n + 2
    ensures Parse(m, Receivers, [], codes, false, len) == None
  {
    hide Receivers, Slice, Value;
    assert codes[1..] == [codes[1]];
    assert Variable(m, Receivers, codes[1..], 1, len - (n + 2)).Dropped?;
  }

  lemma QueryResponseIsDropped(sw: Switch, s: Sender, m: Memory)
    requires Fits(s) && RowFor(sw, CQR) == Some(Row(0, 2, 0, [RANGE_AND_STATUS, CIRCUIT_STATE]))
    requires Cut(RowFor(sw, CQR).value) && Holds(m, 0, Message(sw, CQR, RowFor(sw, CQR).value, s))
    ensures var r := RowFor(sw, CQR).value; ParseRow(m, r, |Message(sw, CQR, r, s)|) == None
  {
    hide Fits, Holds, Out, Assembled, Parse, Known, Pieces;
    var r := RowFor(sw, CQR).value;
    var v := VariableCodes(r);
    assert FixedCodes(r) == [] && v == r.codes && OptionalCodes(r) == [];
    var vs := Outs(sw, CQR, v, s);
    OutsAt(sw, CQR, v, s, 0);
    OutIsSmall(sw, CQR, v, s, 0);
    SpelledIsThere(sw, CQR, v[0], s);
    OutBound(sw, CQR, v[0], s);
    NoPieces();
    SecondIsMissing(m, v, vs);
  }

  lemma QueryRow(sw: Switch)
    ensures RowFor(sw, CQR) == Some(Row(0, 2, 0, [RANGE_AND_STATUS, CIRCUIT_STATE]))
  {
  }

  lemma NoPieces()
    ensures Pieces([], []) == []
  {
  }

  /** Every message of the table, on both switch types, is taken apart by isup_receive into the
      parameters it was put together from, except a group query response: that one it drops,
      because the circuit state has no receiver. */
  lemma EveryMessageIsParsed(sw: Switch, kind: Octet, s: Sender, m: Memory)
    requires Fits(s) && RowFor(sw, kind).Some?
    requires Holds(m, 0, Parameters(sw, kind, s))
    ensures var r := RowOf(sw, kind);
      ParseRow(m, r, |Parameters(sw, kind, s)|) == if kind == CQR then None else Some(Delivered(sw, kind, r, s))
  {
    hide RowFor, PartsOf, Fits, Outs, Pieces, NonEmpty, Assembled, Parse, Holds, BodyMax, FixedMax, OptionalMax;
    hide AllKnown, Known, AllPlain, AllSpelled, AllOptionable, FixedCodes, VariableCodes, OptionalCodes;
    RowIsCut(sw, kind);
    var r := RowFor(sw, kind).value;
    if kind == CQR {
      QueryRow(sw);
      QueryResponseIsDropped(sw, s, m);
    } else {
      PartBounds(sw, kind);
      PartsAreKnown(sw, kind);
      PartsAreRead(sw, kind);
      var (f, v, o) := PartsOf(sw, kind);
      PartsAreParsed(sw, kind, f, v, o, r.optional != 0, s, m);
    }
  }

  /** The ITU initial address message of this table is the one whose contents are read back. */
  lemma IamIsInTable(s: Sender)
    requires Fits(s)
    ensures RowFor(ITU, IAM).Some? && Parameters(ITU, IAM, s) == Iam(s.call, s.isdn)
  {
    hide RowFor, Assembled, Out, Known, Fits, FixedCodes, VariableCodes, OptionalCodes, Outs, Pieces, FixedOut, OptionalOut, CalledOut;
    IamParts(ITU);
    RowIsCut(ITU, IAM);
    FixedIsSame(s);
    OptionalIsSame(s);
    CalledIsSame(s);
  }

  lemma FixedIsSame(s: Sender)
    requires Fits(s)
    ensures var f := PartsOf(ITU, IAM).0; AllKnown(f) && Outs(ITU, IAM, f, s) == FixedOut(s.call, s.isdn)
  {
    hide Out, NatureOut, ForwardOut, Outs;
    var f := PartsOf(ITU, IAM).0;
    forall i | 0 <= i < 4 ensures Outs(ITU, IAM, f, s)[i] == FixedOut(s.call, s.isdn)[i] {
      OutsAt(ITU, IAM, f, s, i);
      OutOfCall(f[i], s);
    }
  }

  lemma OutOfCall(code: Octet, s: Sender)
    requires Fits(s) && CallOut(ITU, code, s).Some?
    ensures Known(code) && Out(ITU, IAM, code, s) == CallOut(ITU, code, s).value
  {
    hide CallOut, AnsiOut, GroupOut, OtherOut, Known;
    KnownIsTransmitted(ITU, IAM, code, s);
  }

  lemma CalledIsSame(s: Sender)
    requires Fits(s)
    ensures var v := PartsOf(ITU, IAM).1; AllKnown(v) && Outs(ITU, IAM, v, s) == [CalledOut(s.call.called)]
  {
    hide Out, CalledOut, Outs;
    var v := PartsOf(ITU, IAM).1;
    OutsAt(ITU, IAM, v, s, 0);
    OutOfCall(v[0], s);
  }

  lemma OptionalIsSame(s: Sender)
    requires Fits(s)
    ensures var o := PartsOf(ITU, IAM).2; AllKnown(o) && Pieces(o, Outs(ITU, IAM, o, s)) == OptionalOut(s.call)
  {
    hide Out, CallOut, Outs, Pieces, OptionalOut, PartsOf, AllKnown, Known;
    var o := PartsOf(ITU, IAM).2;
    IamIsKnown(ITU);
    PiecesAre(o, Outs(ITU, IAM, o, s));
    SevenOptionals(s);
    forall i | 0 <= i < 7 ensures Pieces(o, Outs(ITU, IAM, o, s))[i] == OptionalOut(s.call)[i] {
      OutsAt(ITU, IAM, o, s, i);
      PiecesAt(o, Outs(ITU, IAM, o, s), i);
      OptionalOfCall(i, s);
      OutOfCall(o[i], s);
    }
  }

  lemma SevenOptionals(s: Sender)
    requires Fits(s)
    ensures PartsOf(ITU, IAM).2 == ITU_OPTIONALS && |ITU_OPTIONALS| == |OptionalOut(s.call)| == 7
  {
    hide CallingOut, NumberOut, RedirectionOut, CounterOut, OptForwardOut, InterlockOut;
  }

  lemma OptionalOfCall(i: nat, s: Sender)
    requires Fits(s) && i < 7
    ensures |ITU_OPTIONALS| == |OptionalOut(s.call)| == 7
    ensures CallOut(ITU, ITU_OPTIONALS[i], s).Some?
    ensures OptionalOut(s.call)[i] == Piece(ITU_OPTIONALS[i], CallOut(ITU, ITU_OPTIONALS[i], s).value)
  {
    hide CallingOut, NumberOut, RedirectionOut, CounterOut, OptForwardOut, InterlockOut, NatureOut, ForwardOut, CalledOut;
  }
}
