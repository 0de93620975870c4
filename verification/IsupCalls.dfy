/** The ISUP operations: requests of the application, received messages and timer expiries,
    each as the decision it takes about its call, and what holds over every run of them. */
module IsupCalls {
  import opened Scheduler
  import opened IsupSpec
  import opened Options

  /** What ss7_hangup reports about the circuit of an unexpected message. */
  datatype Cic = NotExists | Used | IsIdle

  /** Message- and configuration-dependent tests. */
  datatype Test =
    | Itu | RangeTooLong | AllGuardsConfigured | Controlling | WantsInr | CotRequired | CotPerformed
    | CotFailed | NumberComplete | Unsolicited | AnswerMatches | NetworkIndicator | HasReference

  /** What an operation finds around it: the clock, whether mtp3 took the message, whether the
      event ring had room, what ss7_hangup reported, and the tests that hold. */
  datatype World = World(env: Env, sent: bool, ring: bool, cic: Cic, holds: set<Test>)

  datatype Request =
    | IAM | ACM | ANM | CON | CPG | REL | RSC | BLO | UBL | CGB | CGU | GRS | INR | FAR
    | EventIam
    | Plain
    | DigitTimeout
    | ClearFlags(flags: set<Flag>)
    | FreeIfClear
    | Free

  datatype Message =
    | GotIAM | GotSAM | GotINF | GotINR | GotACM | GotCON | GotANM | GotREL | GotRLC | GotRSC | GotCOT | GotCCR
    | GotBLA | GotUBA | GotCGBA | GotCGUA | GotGRA | GotCPG | GotSUS | GotRES
    | Reported
    | OtherMessage
    | Unparsed

  // ----- decisions

  const NOTHING: Decision := Changes([])

  function Do(stop: set<nat>, start: seq<nat>, add: set<Flag>, drop: set<Flag>): Decision {
    Changes([Change(stop, start, add, drop)])
  }

  function After(ch: Change, d: Decision): Decision {
    if d.Forget? then Forget else Changes([ch] + d.changes)
  }

  function IfSent(w: World, d: Decision): Decision { if w.sent then d else Forget }

  function IfRoom(w: World, d: Decision): Decision { if w.ring then d else Forget }

  const ON_RELEASE: set<nat> := {T7, T8, T27, T2, T6, T35, T10}

  const RELEASE: Change := Change(ON_RELEASE, [T1, T5], {SENT_REL}, CALL_PENDING + CALL_CONNECTED)

  function DecideRel(w: World): Decision { IfSent(w, Changes([RELEASE])) }

  function DecideRsc(w: World): Decision {
    IfSent(w, Do(ALL_TIMERS, [T17], {SENT_RSC}, {}))
  }

  function DecideInr(w: World): Decision {
    IfSent(w, Do({}, [T33], {SENT_INR}, {}))
  }

  function DecideClear(flags: set<Flag>): Decision {
    Do((if SENT_IAM in flags then {T7} else {}) + (if SENT_CGB in flags then {T18, T19} else {})
         + (if SENT_CGU in flags then {T20, T21} else {}), [], {}, flags)
  }

  /** Flags whose guard timers isup_clear_callflags leaves running. */
  const KEEP_THEIR_TIMERS: set<Flag> := {SENT_REL, SENT_RSC, SENT_BLO, SENT_UBL}

  function DecideRequest(r: Request, call: Call, w: World): Decision {
    match r
    case IAM => IfSent(w, Do({}, [T7], {SENT_IAM}, {PENDING_IAM}))
    case ACM => IfSent(w, Do({T35, T10}, [], {SENT_ACM}, {}))
    case ANM => IfSent(w, Do({T35, T10}, [], {SENT_ANM}, {}))
    case CON => IfSent(w, Do({T35, T10}, [], {SENT_CON}, {}))
    case CPG => IfSent(w, Do({T35, T10}, [], {}, {}))
    case REL => DecideRel(w)
    case RSC => DecideRsc(w)
    case BLO => IfSent(w, Do({}, [T12, T13], {SENT_BLO}, {}))
    case UBL => IfSent(w, Do({}, [T14, T15], {SENT_UBL}, {}))
    case CGB =>
      if RangeTooLong in w.holds then NOTHING else IfSent(w, Do({}, [T18, T19], {SENT_CGB}, {}))
    case CGU =>
      if RangeTooLong in w.holds then NOTHING else IfSent(w, Do({}, [T20, T21, T20, T21], {SENT_CGU}, {}))
    case GRS =>
      if RangeTooLong in w.holds then NOTHING
      else IfSent(w, Do(ALL_TIMERS, [T22, T23], {SENT_GRS} + (if Itu in w.holds then {} else {SENT_GRS2}), {}))
    case INR => DecideInr(w)
    case FAR => if HasReference in w.holds then IfSent(w, Do({}, [], {SENT_FAR}, {})) else NOTHING
    case EventIam => DecideIam(call.flags, w)
    case Plain => if RangeTooLong in w.holds then NOTHING else IfSent(w, NOTHING)
    case DigitTimeout => Do({}, [T10], {}, {})
    case ClearFlags(flags) => if flags !! KEEP_THEIR_TIMERS then DecideClear(flags) else NOTHING
    case FreeIfClear => FreedIfClear(call)
    case Free => Forget
  }

  function FreedIfClear(call: Call): Decision {
    if call.flags == {} && (forall t :: 0 <= t < |call.timer| ==> call.timer[t] == -1) then Forget else NOTHING
  }

  /** isup_handle_unexpected */
  function Unexpected(flags: set<Flag>, w: World): Decision {
    if !(flags !! CALL_CONNECTED) || (!(flags !! {SENT_REL, SENT_RSC}) && AllGuardsConfigured in w.holds) then NOTHING
    else
      match w.cic
      case IsIdle => DecideRsc(w)
      case NotExists => Forget
      case Used => NOTHING
  }

  function DecideIam(flags: set<Flag>, w: World): Decision {
    if SENT_IAM in flags || PENDING_IAM in flags then
      if Controlling in w.holds then NOTHING else Do({}, [], {GOT_IAM}, {})
    else if WantsInr in w.holds then
      IfSent(w, Do({}, [T33], {GOT_IAM, SENT_INR}, {}))
    else
      IfRoom(w, Do({},
        (if NumberComplete in w.holds then [] else [T35])
          + (if CotRequired in w.holds || CotPerformed in w.holds then [T8] else []),
        {GOT_IAM} + (if CotRequired in w.holds then {GOT_CCR} else {}), {}))
  }

  /** An acknowledgement nobody waits for is unexpected. */
  function Expected(f: Flag, flags: set<Flag>, w: World, d: Decision): Decision {
    if f in flags then d else Unexpected(flags, w)
  }

  function DecideMessage(m: Message, call: Call, w: World): Decision {
    var flags := call.flags;
    match m
    case Unparsed => Forget
    case GotIAM => DecideIam(flags, w)
    case GotSAM => Expected(GOT_IAM, flags, w, IfRoom(w, Do({}, [T35], {}, {})))
    case GotINF =>
      if SENT_INR !in flags && Unsolicited !in w.holds then Unexpected(flags, w)
      else if WantsInr in w.holds then DecideRel(w)
      else if Unsolicited in w.holds then FreedIfClear(call)
      else
        After(Change({T33}, [], {}, {SENT_INR}), DecideIam(flags - {SENT_INR}, w))
    case GotINR => Expected(SENT_IAM, flags, w, IfSent(w, FreedIfClear(call)))
    case GotACM => Expected(SENT_IAM, flags, w, IfRoom(w, Do({T7}, [], {GOT_ACM}, {})))
    case GotCON => Expected(SENT_IAM, flags, w, IfRoom(w, Do({T7}, [], {GOT_CON}, {})))
    case GotANM => Expected(SENT_IAM, flags, w, IfRoom(w, Do({}, [], {GOT_ANM}, {})))
    case GotCPG => Expected(SENT_IAM, flags, w, IfRoom(w, NOTHING))
    case GotREL => IfRoom(w, Do({T7, T2, T6, T35, T10}, [], {}, CALL_CONNECTED + CALL_PENDING))
    case GotRLC =>
      if SENT_REL !in flags && SENT_RSC !in flags then Unexpected(flags, w)
      else IfRoom(w, Do({T1, T2, T5, T6, T16, T17}, [], {},
             {SENT_REL, SENT_RSC} + (if SENT_RSC in flags then CALL_CONNECTED + CALL_PENDING else {})))
    case GotRSC => if SENT_RSC in flags then NOTHING else IfRoom(w, Do(ALL_TIMERS, [], {}, flags))
    case GotCOT =>
      if GOT_CCR !in flags && CotPerformed !in w.holds then Unexpected(flags, w)
      else IfRoom(w, Do({T8}, if CotFailed in w.holds then [T27] else [], {},
             {GOT_CCR} + (if CotFailed in w.holds then {GOT_IAM} else {})))
    case GotCCR => IfRoom(w, Do({T27}, [], {GOT_CCR}, {}))
    case GotBLA => Expected(SENT_BLO, flags, w, IfRoom(w, Do({T12, T13}, [], {}, {SENT_BLO})))
    case GotUBA => Expected(SENT_UBL, flags, w, IfRoom(w, Do({T14, T15}, [], {}, {SENT_UBL})))
    case GotCGBA =>
      Expected(SENT_CGB, flags, w,
        if AnswerMatches !in w.holds then NOTHING else IfRoom(w, DecideClear({SENT_CGB})))
    case GotCGUA =>
      Expected(SENT_CGU, flags, w,
        if AnswerMatches !in w.holds then NOTHING else IfRoom(w, DecideClear({SENT_CGU})))
    case GotGRA =>
      Expected(SENT_GRS, flags, w,
        if AnswerMatches !in w.holds then NOTHING
        else IfRoom(w, Do({T22, T23}, [], {}, if SENT_GRS2 in flags then {SENT_GRS2} else {SENT_GRS})))
    case GotSUS =>
      if !(flags !! {SENT_RSC, SENT_REL}) then NOTHING
      else if flags !! {GOT_IAM, SENT_IAM} then Unexpected(flags, w)
      else IfRoom(w, Do({}, [if NetworkIndicator in w.holds then T6 else T2], {}, {}))
    case GotRES =>
      if flags !! {GOT_IAM, SENT_IAM} then Unexpected(flags, w)
      else IfRoom(w, Do({if NetworkIndicator in w.holds then T6 else T2}, [], {}, {}))
    case Reported => IfRoom(w, NOTHING)
    case OtherMessage => FreedIfClear(call)
  }

  /** isup_timer_expiry, after the timer's own field was reset. */
  function DecideExpiry(t: nat, w: World): Decision {
    if t == T1 then Do({}, [T1], {}, {})
    else if t == T16 then Do({}, [T16], {SENT_RSC}, {})
    else if t == T8 || t == T35 then DecideRel(w)
    else if t == T5 || t == T17 then Do(ALL_TIMERS, [T17], {SENT_RSC}, {})
    else if t == T10 then IfRoom(w, NOTHING)
    else if t == T12 then Do({}, [T12], {}, {})
    else if t == T13 then Do({T12}, [T13], {}, {})
    else if t == T14 then Do({}, [T14], {}, {})
    else if t == T15 then Do({T14}, [T15], {}, {})
    else if t == T19 then Do({T18}, [T19], {}, {})
    else if t == T18 then Do({}, [T18], {}, {})
    else if t == T21 then Changes([Change({T20}, [T21], {}, {}), Change({T22}, [T23, T22], {}, {})])
    else if t == T20 then Changes([Change({}, [T20], {}, {}), Change({T22}, [T23, T22], {}, {})])
    else if t == T23 then Do({T22}, [T23], {}, {})
    else if t == T22 then Do({}, [T22], {}, {})
    else if t == T27 then DecideRsc(w)
    else if t == T33 then
      After(Change({}, [], {}, {SENT_INR}), DecideRel(w))
    else NOTHING
  }

  // ----- every decision is safe

  /** The requests that guard timers repeat. */
  const REPEATED: set<Flag> := {SENT_REL, SENT_RSC, SENT_BLO, SENT_UBL, SENT_CGB, SENT_CGU}

  /** A change that clears none of the repeated requests is safe when it starts only timers whose
      request is set and stays set. */
  lemma RaisingIsSafe(ch: Change, flags: set<Flag>)
    requires InRange(ch) && ch.drop !! REPEATED
    requires forall i :: 0 <= i < |ch.start| ==> GuardedBy(flags + ch.add, ch.start[i])
    ensures SafeAll([ch], flags)
  {
    OneIsSafe(ch, flags);
  }

  lemma OneIsSafe(ch: Change, flags: set<Flag>)
    requires Safe(ch, flags)
    ensures SafeAll([ch], flags)
  {
    hide Safe;
    assert [ch][1..] == [];
  }

  lemma RaisesItself(r: Request, call: Call, w: World)
    requires r in {BLO, UBL, CGB, CGU, GRS, RSC}
    ensures SafeDecision(DecideRequest(r, call, w), call.flags)
  {
    hide SafeAll, DecideIam, FreedIfClear, DecideClear;
    var d := DecideRequest(r, call, w);
    if d.Changes? && d != NOTHING { RaisingIsSafe(d.changes[0], call.flags); } else { NothingIsSafe(call.flags); }
  }

  lemma NothingIsSafe(flags: set<Flag>)
    ensures SafeDecision(NOTHING, flags) && SafeDecision(Forget, flags)
  {
  }

  lemma RelIsSafe(flags: set<Flag>, w: World)
    ensures SafeDecision(DecideRel(w), flags)
  {
    OneIsSafe(RELEASE, flags);
  }

  lemma ClearIsSafe(cleared: set<Flag>, flags: set<Flag>)
    requires cleared !! KEEP_THEIR_TIMERS
    ensures SafeDecision(DecideClear(cleared), flags)
  {
    OneIsSafe(DecideClear(cleared).changes[0], flags);
  }

  lemma CallRequestIsSafe(r: Request, call: Call, w: World)
    requires r !in {BLO, UBL, CGB, CGU, GRS, RSC, REL, EventIam} && !r.ClearFlags?
    ensures SafeDecision(DecideRequest(r, call, w), call.flags)
  {
    hide SafeAll, DecideIam, DecideRel, DecideClear, FreedIfClear;
    NothingIsSafe(call.flags);
    FreedIsSafe(call, call.flags);
    var d := DecideRequest(r, call, w);
    if d.Changes? && |d.changes| == 1 { RaisingIsSafe(d.changes[0], call.flags); }
  }

  lemma FreedIsSafe(call: Call, flags: set<Flag>)
    ensures SafeDecision(FreedIfClear(call), flags)
    ensures var d := FreedIfClear(call); d.Forget? || d == NOTHING
  {
  }

  lemma RequestIsSafe(r: Request, call: Call, w: World)
    ensures SafeDecision(DecideRequest(r, call, w), call.flags)
  {
    hide SafeDecision, DecideRel, DecideClear, DecideIam, FreedIfClear;
    match r
    case BLO | UBL | CGB | CGU | GRS | RSC => RaisesItself(r, call, w);
    case REL => RelIsSafe(call.flags, w);
    case EventIam => IamIsSafe(call.flags, w);
    case ClearFlags(flags) =>
      NothingIsSafe(call.flags);
      if flags !! KEEP_THEIR_TIMERS { ClearIsSafe(flags, call.flags); }
    case _ => CallRequestIsSafe(r, call, w);
  }

  lemma RscIsSafe(flags: set<Flag>, w: World)
    ensures SafeDecision(DecideRsc(w), flags)
  {
    RaisingIsSafe(Change(ALL_TIMERS, [T17], {SENT_RSC}, {}), flags);
  }

  lemma UnexpectedIsSafe(flags: set<Flag>, w: World)
    ensures SafeDecision(Unexpected(flags, w), flags)
  {
    hide SafeAll, DecideRsc;
    NothingIsSafe(flags);
    RscIsSafe(flags, w);
  }

  lemma IamIsSafe(flags: set<Flag>, w: World)
    ensures SafeDecision(DecideIam(flags, w), flags)
  {
    hide SafeAll;
    var d := DecideIam(flags, w);
    if d.Changes? && d != NOTHING { RaisingIsSafe(d.changes[0], flags); } else { NothingIsSafe(flags); }
  }

  /** A safe change before a safe decision is safe. */
  lemma AfterIsSafe(ch: Change, d: Decision, flags: set<Flag>)
    requires Safe(ch, flags) && SafeDecision(d, Flags(flags, ch))
    ensures SafeDecision(After(ch, d), flags)
  {
    hide Safe;
    if d.Changes? {
      assert ([ch] + d.changes)[1..] == d.changes;
    }
  }

  lemma InfIsSafe(call: Call, w: World)
    ensures SafeDecision(DecideMessage(GotINF, call, w), call.flags)
  {
    hide SafeDecision, DecideIam, Unexpected, DecideRel, FreedIfClear, After;
    var ch := Change({T33}, [], {}, {SENT_INR});
    assert Flags(call.flags, ch) == call.flags - {SENT_INR};
    UnexpectedIsSafe(call.flags, w);
    RelIsSafe(call.flags, w);
    FreedIsSafe(call, call.flags);
    IamIsSafe(call.flags - {SENT_INR}, w);
    AfterIsSafe(ch, DecideIam(call.flags - {SENT_INR}, w), call.flags);
  }

  lemma ClearingIsSafe(m: Message, call: Call, w: World)
    requires m in {GotREL, GotRLC, GotRSC, GotCOT}
    ensures SafeDecision(DecideMessage(m, call, w), call.flags)
  {
    hide SafeDecision, Unexpected, DecideIam, FreedIfClear, DecideRel, DecideClear, NOTHING;
    UnexpectedIsSafe(call.flags, w);
    NothingIsSafe(call.flags);
    match m
    case GotREL => ReleasedIsSafe(call.flags);
    case GotRLC => CompleteIsSafe(call.flags, CALL_CONNECTED + CALL_PENDING);
    case GotRSC => ResetIsSafe(call.flags);
    case GotCOT => ContinuityIsSafe(call.flags, CotFailed in w.holds);
  }

  lemma ReleasedIsSafe(flags: set<Flag>)
    ensures SafeDecision(Do({T7, T2, T6, T35, T10}, [], {}, CALL_CONNECTED + CALL_PENDING), flags)
  {
    RaisingIsSafe(Change({T7, T2, T6, T35, T10}, [], {}, CALL_CONNECTED + CALL_PENDING), flags);
  }

  /** A release complete stops the timers of both requests it answers. */
  lemma CompleteIsSafe(flags: set<Flag>, more: set<Flag>)
    requires more !! REPEATED
    ensures SafeDecision(Do({T1, T2, T5, T6, T16, T17}, [], {}, {SENT_REL, SENT_RSC} + more), flags)
    ensures SafeDecision(Do({T1, T2, T5, T6, T16, T17}, [], {}, {SENT_REL, SENT_RSC} + {}), flags)
  {
    OneIsSafe(Change({T1, T2, T5, T6, T16, T17}, [], {}, {SENT_REL, SENT_RSC} + more), flags);
    OneIsSafe(Change({T1, T2, T5, T6, T16, T17}, [], {}, {SENT_REL, SENT_RSC} + {}), flags);
  }

  lemma ResetIsSafe(flags: set<Flag>)
    ensures SafeDecision(Do(ALL_TIMERS, [], {}, flags), flags)
  {
    OneIsSafe(Change(ALL_TIMERS, [], {}, flags), flags);
  }

  lemma ContinuityIsSafe(flags: set<Flag>, failed: bool)
    ensures SafeDecision(
      Do({T8}, if failed then [T27] else [], {}, {GOT_CCR} + (if failed then {GOT_IAM} else {})), flags)
  {
    RaisingIsSafe(
      Change({T8}, if failed then [T27] else [], {}, {GOT_CCR} + (if failed then {GOT_IAM} else {})), flags);
  }

  /** The acknowledgements of the guarded requests. */
  lemma AnswerIsSafe(m: Message, call: Call, w: World)
    requires m in {GotBLA, GotUBA, GotCGBA, GotCGUA}
    ensures SafeDecision(DecideMessage(m, call, w), call.flags)
  {
    hide SafeAll, Unexpected, DecideClear;
    UnexpectedIsSafe(call.flags, w);
    NothingIsSafe(call.flags);
    ClearIsSafe({SENT_CGB}, call.flags);
    ClearIsSafe({SENT_CGU}, call.flags);
    OneIsSafe(Change({T12, T13}, [], {}, {SENT_BLO}), call.flags);
    OneIsSafe(Change({T14, T15}, [], {}, {SENT_UBL}), call.flags);
  }

  lemma OthersAreSafe(m: Message, call: Call, w: World)
    requires m !in {GotINF, GotIAM, GotREL, GotRLC, GotRSC, GotCOT, GotBLA, GotUBA, GotCGBA, GotCGUA}
    ensures SafeDecision(DecideMessage(m, call, w), call.flags)
  {
    hide SafeAll, Unexpected, DecideIam, FreedIfClear, DecideRel, DecideClear;
    UnexpectedIsSafe(call.flags, w);
    FreedIsSafe(call, call.flags);
    NothingIsSafe(call.flags);
    var d := DecideMessage(m, call, w);
    if d != Unexpected(call.flags, w) && d.Changes? && d != NOTHING { RaisingIsSafe(d.changes[0], call.flags); }
  }

  lemma MessageIsSafe(m: Message, call: Call, w: World)
    ensures SafeDecision(DecideMessage(m, call, w), call.flags)
  {
    hide SafeDecision, DecideIam, Unexpected, DecideRel, DecideClear, FreedIfClear;
    match m
    case GotINF => InfIsSafe(call, w);
    case GotIAM => IamIsSafe(call.flags, w);
    case GotREL | GotRLC | GotRSC | GotCOT => ClearingIsSafe(m, call, w);
    case GotBLA | GotUBA | GotCGBA | GotCGUA => AnswerIsSafe(m, call, w);
    case _ => OthersAreSafe(m, call, w);
  }

  /** The expiries that go on to a release or a reset. */
  lemma EndingExpiryIsSafe(t: nat, flags: set<Flag>, w: World)
    requires t in {T5, T8, T16, T17, T27, T33, T35}
    ensures SafeDecision(DecideExpiry(t, w), flags)
  {
    hide SafeAll, DecideRel, DecideRsc;
    RelIsSafe(flags, w);
    RscIsSafe(flags, w);
    if t == T33 {
      var ch := Change({}, [], {}, {SENT_INR});
      RelIsSafe(Flags(flags, ch), w);
      AfterIsSafe(ch, DecideRel(w), flags);
    } else if t in {T5, T16, T17} {
      RaisingIsSafe(DecideExpiry(t, w).changes[0], flags);
    }
  }

  /** The expiries that repeat a request. */
  lemma RepeatingExpiryIsSafe(t: nat, flags: set<Flag>, w: World)
    requires GuardedBy(flags, t) && t !in {T5, T8, T16, T17, T20, T21, T27, T33, T35}
    ensures SafeDecision(DecideExpiry(t, w), flags)
  {
    hide SafeAll;
    NothingIsSafe(flags);
    var d := DecideExpiry(t, w);
    if d.Changes? && d != NOTHING { RaisingIsSafe(d.changes[0], flags); }
  }

  /** The two that fall through to the expiry of T22. */
  lemma FallThroughIsSafe(t: nat, flags: set<Flag>, w: World)
    requires GuardedBy(flags, t) && (t == T20 || t == T21)
    ensures SafeDecision(DecideExpiry(t, w), flags)
  {
    hide SafeAll;
    var ch, ch' := if t == T21 then Change({T20}, [T21], {}, {}) else Change({}, [T20], {}, {}),
                   Change({T22}, [T23, T22], {}, {});
    RaisingIsSafe(ch', Flags(flags, ch));
    AfterIsSafe(ch, Changes([ch']), flags);
    assert [ch] + [ch'] == [ch, ch'];
  }

  lemma ExpiryIsSafe(t: nat, flags: set<Flag>, w: World)
    requires GuardedBy(flags, t)
    ensures SafeDecision(DecideExpiry(t, w), flags)
  {
    hide SafeDecision, DecideExpiry, GuardedBy;
    if t in {T5, T8, T16, T17, T27, T33, T35} { EndingExpiryIsSafe(t, flags, w); }
    else if t == T20 || t == T21 { FallThroughIsSafe(t, flags, w); }
    else { RepeatingExpiryIsSafe(t, flags, w); }
  }

  // ----- runs

  datatype Op =
    | New(c: nat, outgoing: bool)
    | Ask(c: nat, request: Request, w: World)
    | Receive(c: nat, message: Message, w: World)
    | Expire(slot: nat, w: World)
    | ArmOther(now: Time, ms: nat)
    | EndOther(slot: nat)

  predicate GoodOp(op: Op) {
    match op
    case New(_, _) => true
    case ArmOther(now, _) => Clock(now)
    case EndOther(_) => true
    case _ => GoodEnv(op.w.env)
  }

  /** Another layer arms a slot of the table, if one is free. */
  function OtherArmed(st: St, now: Time, ms: nat): (r: St)
    requires Valid(st) && Clock(now)
    ensures Valid(r) && r.calls == st.calls
    ensures forall x :: 0 <= x < MAX_SCHED && st.slots[x].Armed? ==> r.slots[x] == st.slots[x]
  {
    DeadlineIsExact(now, ms);
    var r := St(Schedule(st.slots, now, ms, Other).0, st.calls);
    OthersAreApart(st, r);
    r
  }

  /** Another layer's slot fires or is cancelled. */
  function OtherEnded(st: St, x: nat): (r: St)
    requires Valid(st)
    ensures Valid(r) && r.calls == st.calls
    ensures forall y :: 0 <= y < MAX_SCHED && st.slots[y].Armed? && st.slots[y].data.IsupTimer? ==> r.slots[y] == st.slots[y]
  {
    if x < MAX_SCHED && st.slots[x].Armed? && st.slots[x].data.Other? then
      var r := St(st.slots[x := Slot.Free], st.calls);
      OthersAreApart(st, r);
      r
    else st
  }

  /** Slots of other layers may come and go. */
  lemma OthersAreApart(st: St, r: St)
    requires Valid(st) && Usable(r.slots) && r.calls == st.calls
    requires forall x :: 0 <= x < MAX_SCHED ==>
      r.slots[x] == st.slots[x]
      || ((st.slots[x].Free? || st.slots[x].data.Other?) && (r.slots[x].Free? || r.slots[x].data.Other?))
    ensures Valid(r)
  {
    forall c | c in r.calls ensures CallAgrees(r.slots, c, r.calls[c]) {
      assert CallAgrees(st.slots, c, st.calls[c]);
    }
  }

  function Fresh(st: St, c: nat, flags: set<Flag>): (r: St)
    requires Valid(st) && c !in st.calls
    ensures Valid(r) && c in r.calls && r.calls[c].flags == flags
    ensures forall d :: d != c ==> (d in r.calls <==> d in st.calls) && (d in st.calls ==> r.calls[d] == st.calls[d])
  {
    st.(calls := st.calls[c := Call(flags, NewTimers())])
  }

  /** The slot is freed and the timer's field reset before the callback decides. */
  function Fire(st: St, x: nat, w: World): (r: St)
    requires Valid(st) && GoodEnv(w.env) && x < MAX_SCHED
    requires st.slots[x].Armed? && st.slots[x].data.IsupTimer?
    ensures Valid(r)
    ensures var c := st.slots[x].data.call;
      && (forall d :: d != c ==> (d in r.calls <==> d in st.calls) && (d in st.calls ==> r.calls[d] == st.calls[d]))
      && (c in r.calls ==>
            && DecideExpiry(st.slots[x].data.timer, w).Changes?
            && r.calls[c].flags == FlagsAfter(st.calls[c].flags, DecideExpiry(st.slots[x].data.timer, w).changes))
  {
    var o := st.slots[x].data;
    var s := Stop(st, o.call, {o.timer});
    assert GuardedBy(s.calls[o.call].flags, o.timer);
    ExpiryIsSafe(o.timer, s.calls[o.call].flags, w);
    KeepsIsValid(st, s, o.call);
    Carry(s, w.env, o.call, DecideExpiry(o.timer, w))
  }

  function Step(st: St, op: Op): (r: St)
    requires Valid(st) && GoodOp(op)
    ensures Valid(r)
  {
    match op
    case New(c, outgoing) =>
      if c in st.calls then st else Fresh(st, c, if outgoing then {PENDING_IAM} else {})
    case Ask(c, request, w) =>
      if c !in st.calls then st
      else
        RequestIsSafe(request, st.calls[c], w);
        Carry(st, w.env, c, DecideRequest(request, st.calls[c], w))
    case Receive(c, message, w) =>
      var s := if c in st.calls then st else Fresh(st, c, {});
      MessageIsSafe(message, s.calls[c], w);
      Carry(s, w.env, c, DecideMessage(message, s.calls[c], w))
    case Expire(x, w) =>
      if x < MAX_SCHED && st.slots[x].Armed? && st.slots[x].data.IsupTimer? then Fire(st, x, w) else st
    case ArmOther(now, ms) => OtherArmed(st, now, ms)
    case EndOther(x) => OtherEnded(st, x)
  }

  function Boot(): (r: St)
    ensures Valid(r)
  {
    St(seq(MAX_SCHED, _ => Slot.Free), map[])
  }

  /** The states of one run, from the empty table and no calls. */
  ghost predicate IsRun(sts: seq<St>, ops: seq<Op>) {
    && |sts| == |ops| + 1 && sts[0] == Boot()
    && (forall i :: 0 <= i < |ops| ==> GoodOp(ops[i]))
    && (forall i :: 0 <= i < |ops| && Valid(sts[i]) ==> sts[i+1] == Step(sts[i], ops[i]))
  }

  lemma {:induction false} RunsAreValid(sts: seq<St>, ops: seq<Op>, n: nat)
    requires IsRun(sts, ops) && n <= |ops|
    ensures Valid(sts[n])
  {
    if n > 0 {
      RunsAreValid(sts, ops, n - 1);
      assert sts[n-1+1] == Step(sts[n-1], ops[n-1]);
    }
  }

  // ----- what holds in every state of every run

  ghost predicate ArmedFor(st: St, x: int, c: nat, t: nat) {
    0 <= x < |st.slots| && st.slots[x].Armed? && st.slots[x].data == IsupTimer(c, t)
  }

  /** The slot timer t of call c holds, or -1. */
  function SlotOf(st: St, c: nat, t: nat): int {
    if c in st.calls && t < |st.calls[c].timer| then st.calls[c].timer[t] else -1
  }

  lemma ValidMeansAgreement(st: St, c: nat, t: nat, x: int)
    requires Valid(st) && t < ISUP_MAX_TIMERS
    ensures ArmedFor(st, x, c, t) <==> SlotOf(st, c, t) == x && x > -1
    ensures ArmedFor(st, x, c, t) ==> c in st.calls && GuardedBy(st.calls[c].flags, t)
  {
    if c in st.calls {
      assert CallAgrees(st.slots, c, st.calls[c]);
      assert Guarded(st.calls[c]);
    }
  }

  /** A timer field of a call holds a slot exactly when one slot is armed with that call and
      timer, that slot is the one in the field, and no slot belongs to a freed call. */
  lemma TimersAndTableAgree(sts: seq<St>, ops: seq<Op>, n: nat, c: nat, t: nat, x: int)
    requires IsRun(sts, ops) && n <= |ops| && t < ISUP_MAX_TIMERS
    ensures ArmedFor(sts[n], x, c, t) <==> SlotOf(sts[n], c, t) == x && x > -1
  {
    RunsAreValid(sts, ops, n);
    ValidMeansAgreement(sts[n], c, t, x);
  }

  /** A guard timer is armed only while the request it guards is outstanding. */
  lemma GuardTimersAreGuarded(sts: seq<St>, ops: seq<Op>, n: nat, c: nat, t: nat, x: int)
    requires IsRun(sts, ops) && n <= |ops| && t < ISUP_MAX_TIMERS
    requires ArmedFor(sts[n], x, c, t) && Guards(t).Some?
    ensures Outstanding(sts[n], c, Guards(t).value)
  {
    RunsAreValid(sts, ops, n);
    ValidMeansAgreement(sts[n], c, t, x);
  }

  // ----- nothing is resent after its acknowledgement

  predicate Outstanding(st: St, c: nat, f: Flag) { c in st.calls && f in st.calls[c].flags }

  /** The requests that are repeated until acknowledged, and what acknowledges them. */
  function RequestOf(f: Flag): Option<Request> {
    match f
    case SENT_BLO => Some(BLO)
    case SENT_UBL => Some(UBL)
    case SENT_CGB => Some(CGB)
    case SENT_CGU => Some(CGU)
    case _ => None
  }

  function AnswerOf(f: Flag): Message {
    match f
    case SENT_BLO => GotBLA
    case SENT_UBL => GotUBA
    case SENT_CGB => GotCGBA
    case _ => GotCGUA
  }

  ghost predicate Raises(f: Flag, flags: set<Flag>, d: Decision) {
    d.Changes? && f !in flags && f in FlagsAfter(flags, d.changes)
  }

  lemma {:induction false} FlagsComeFromAdds(flags: set<Flag>, chs: seq<Change>, f: Flag)
    requires f !in flags && forall i :: 0 <= i < |chs| ==> f !in chs[i].add
    ensures f !in FlagsAfter(flags, chs)
    decreases |chs|
  {
    if chs != [] {
      FlagsComeFromAdds(Flags(flags, chs[0]), chs[1..], f);
    }
  }

  /** Only the request itself raises its flag. */
  lemma RequestRaises(f: Flag, r: Request, call: Call, w: World)
    requires RequestOf(f).Some? && Raises(f, call.flags, DecideRequest(r, call, w))
    ensures r == RequestOf(f).value && w.sent
  {
    hide DecideRequest, FlagsAfter;
    if r != RequestOf(f).value || !w.sent {
      RequestAddsNot(f, r, call, w);
      FlagsComeFromAdds(call.flags, DecideRequest(r, call, w).changes, f);
    }
  }

  lemma RequestAddsNot(f: Flag, r: Request, call: Call, w: World)
    requires RequestOf(f).Some? && (r != RequestOf(f).value || !w.sent)
    ensures AddsNot(f, DecideRequest(r, call, w))
  {
    hide DecideIam;
    IamAddsNot(f, call.flags, w);
  }

  lemma IamAddsNot(f: Flag, flags: set<Flag>, w: World)
    requires RequestOf(f).Some?
    ensures AddsNot(f, DecideIam(flags, w))
  {
  }

  lemma UnexpectedAddsNot(f: Flag, flags: set<Flag>, w: World)
    requires RequestOf(f).Some?
    ensures AddsNot(f, Unexpected(flags, w))
  {
  }

  ghost predicate AddsNot(f: Flag, d: Decision) {
    d.Changes? ==> forall i :: 0 <= i < |d.changes| ==> f !in d.changes[i].add
  }

  lemma MessageAddsNot(f: Flag, m: Message, call: Call, w: World)
    requires RequestOf(f).Some? && m != GotINF
    ensures AddsNot(f, DecideMessage(m, call, w))
  {
    hide Unexpected, DecideIam;
    IamAddsNot(f, call.flags, w);
    UnexpectedAddsNot(f, call.flags, w);
  }

  lemma InfAddsNot(f: Flag, call: Call, w: World)
    requires RequestOf(f).Some?
    ensures AddsNot(f, DecideMessage(GotINF, call, w))
  {
  }

  lemma MessageRaisesNothing(f: Flag, m: Message, call: Call, w: World)
    requires RequestOf(f).Some?
    ensures !Raises(f, call.flags, DecideMessage(m, call, w))
  {
    var d := DecideMessage(m, call, w);
    if m == GotINF { InfAddsNot(f, call, w); } else { MessageAddsNot(f, m, call, w); }
    if Raises(f, call.flags, d) {
      FlagsComeFromAdds(call.flags, d.changes, f);
    }
  }

  lemma ExpiryRaisesNothing(f: Flag, t: nat, flags: set<Flag>, w: World)
    requires RequestOf(f).Some?
    ensures !Raises(f, flags, DecideExpiry(t, w))
  {
    var d := DecideExpiry(t, w);
    if Raises(f, flags, d) {
      FlagsComeFromAdds(flags, d.changes, f);
    }
  }

  /** An operation that makes a request outstanding is that request on that call, accepted by mtp3. */
  lemma RaisedByRequest(st: St, op: Op, c: nat, f: Flag)
    requires Valid(st) && GoodOp(op) && RequestOf(f).Some?
    requires Outstanding(Step(st, op), c, f) && !Outstanding(st, c, f)
    ensures op.Ask? && op.c == c && op.request == RequestOf(f).value && op.w.sent
  {
    match op
    case New(_, _) =>
    case Ask(d, r, w) =>
      if d == c && d in st.calls { RequestRaises(f, r, st.calls[d], w); }
    case Receive(d, m, w) =>
      var s := if d in st.calls then st else Fresh(st, d, {});
      MessageRaisesNothing(f, m, s.calls[d], w);
    case Expire(x, w) =>
      if x < MAX_SCHED && st.slots[x].Armed? && st.slots[x].data.IsupTimer? && st.slots[x].data.call == c {
        ExpiryRaisesNothing(f, st.slots[x].data.timer, st.calls[c].flags, w);
      }
    case ArmOther(_, _) =>
    case EndOther(_) =>
  }

  lemma RaisedAt(sts: seq<St>, ops: seq<Op>, n: nat, c: nat, f: Flag)
    requires IsRun(sts, ops) && n < |ops| && RequestOf(f).Some?
    requires Outstanding(sts[n+1], c, f) && !Outstanding(sts[n], c, f)
    ensures ops[n].Ask? && ops[n].c == c && ops[n].request == RequestOf(f).value && ops[n].w.sent
  {
    RunsAreValid(sts, ops, n);
    RaisedByRequest(sts[n], ops[n], c, f);
  }

  /** A request that is outstanding was made, and has been outstanding ever since. */
  lemma {:induction false} OutstandingSinceRequest(sts: seq<St>, ops: seq<Op>, n: nat, c: nat, f: Flag) returns (m: nat)
    requires IsRun(sts, ops) && n <= |ops| && RequestOf(f).Some? && Outstanding(sts[n], c, f)
    ensures m < n && ops[m].Ask? && ops[m].c == c && ops[m].request == RequestOf(f).value && ops[m].w.sent
    ensures forall k :: m < k <= n ==> Outstanding(sts[k], c, f)
  {
    if Outstanding(sts[n-1], c, f) {
      m := OutstandingSinceRequest(sts, ops, n - 1, c, f);
    } else {
      RaisedAt(sts, ops, n - 1, c, f);
      m := n - 1;
    }
  }

  /** An acknowledgement is accepted when there is room for its event; a group answer is compared
      with the request first. */
  predicate Accepted(f: Flag, w: World) {
    w.ring && (f == SENT_CGB || f == SENT_CGU ==> AnswerMatches in w.holds)
  }

  lemma AnswerDrops(f: Flag, call: Call, w: World)
    requires RequestOf(f).Some? && f in call.flags && Accepted(f, w)
    ensures var d := DecideMessage(AnswerOf(f), call, w);
      d.Changes? && f !in FlagsAfter(call.flags, d.changes)
  {
  }

  /** Accepting the acknowledgement ends the request and disarms its timers. */
  lemma AcceptedAnswerEnds(st: St, c: nat, f: Flag, w: World, t: nat, x: int)
    requires Valid(st) && GoodEnv(w.env) && RequestOf(f).Some? && Outstanding(st, c, f)
    requires Accepted(f, w) && t < ISUP_MAX_TIMERS
    ensures var r := Step(st, Receive(c, AnswerOf(f), w));
      c in r.calls && !Outstanding(r, c, f) && (ArmedFor(r, x, c, t) ==> Guards(t) != Some(f))
  {
    AnswerDrops(f, st.calls[c], w);
    ValidMeansAgreement(Step(st, Receive(c, AnswerOf(f), w)), c, t, x);
  }

  /** When a timer that repeats a BLO, UBL, CGB or CGU is about to fire, the request was made
      and no acknowledgement of it has been accepted since. */
  lemma NothingResentAfterAnswer(sts: seq<St>, ops: seq<Op>, n: nat, c: nat, t: nat, x: int) returns (m: nat)
    requires IsRun(sts, ops) && n <= |ops| && t < ISUP_MAX_TIMERS && ArmedFor(sts[n], x, c, t)
    requires Guards(t).Some? && RequestOf(Guards(t).value).Some?
    ensures var f := Guards(t).value;
      && m < n && ops[m].Ask? && ops[m].c == c && ops[m].request == RequestOf(f).value && ops[m].w.sent
      && forall k :: m < k < n && ops[k].Receive? && ops[k].c == c && ops[k].message == AnswerOf(f) ==>
           !Accepted(f, ops[k].w)
  {
    var f := Guards(t).value;
    GuardTimersAreGuarded(sts, ops, n, c, t, x);
    m := OutstandingSinceRequest(sts, ops, n, c, f);
    forall k | m < k < n && ops[k].Receive? && ops[k].c == c && ops[k].message == AnswerOf(f)
      ensures !Accepted(f, ops[k].w)
    {
      RunsAreValid(sts, ops, k);
      if Accepted(f, ops[k].w) {
        assert Outstanding(sts[k+1], c, f) && sts[k+1] == Step(sts[k], ops[k]);
        AcceptedAnswerEnds(sts[k], c, f, ops[k].w, t, x);
      }
    }
  }

  function AfterClear(call: Call, flags: set<Flag>): Call {
    Call(call.flags - flags, Cleared(call.timer, DecideClear(flags).changes[0].stop))
  }

  lemma ClearKeepsGuarded(call: Call, flags: set<Flag>)
    requires Guarded(call) && flags !! KEEP_THEIR_TIMERS
    ensures Guarded(AfterClear(call, flags))
  {
  }

  /** A timer of one of these flags goes on without it. */
  lemma ClearLosesGuard(f: Flag, flags: set<Flag>) returns (call: Call)
    requires f in flags && f in KEEP_THEIR_TIMERS
    ensures |call.timer| == ISUP_MAX_TIMERS && Guarded(call) && !Guarded(AfterClear(call, flags))
  {
    var t := if f == SENT_REL then T1 else if f == SENT_RSC then T17 else if f == SENT_BLO then T12 else T14;
    call := Call({f}, NewTimers()[t := 1]);
    assert AfterClear(call, flags).timer[t] == 1 && !GuardedBy(AfterClear(call, flags).flags, t);
  }

  /** isup_clear_callflags stops the timers of some flags only: clearing a set of flags keeps
      every call guarded exactly when the set has none of the others. */
  lemma ClearingFlagsIsSafe(flags: set<Flag>)
    ensures (forall call: Call :: |call.timer| == ISUP_MAX_TIMERS && Guarded(call) ==> Guarded(AfterClear(call, flags)))
      <==> flags !! KEEP_THEIR_TIMERS
  {
    hide Guarded, AfterClear;
    if flags !! KEEP_THEIR_TIMERS {
      forall call: Call | |call.timer| == ISUP_MAX_TIMERS && Guarded(call) ensures Guarded(AfterClear(call, flags)) {
        ClearKeepsGuarded(call, flags);
      }
    } else {
      var f :| f in flags && f in KEEP_THEIR_TIMERS;
      var call := ClearLosesGuard(f, flags);
    }
  }

  lemma OneChange(st: St, env: Env, c: nat, ch: Change)
    requires Valid(st) && GoodEnv(env) && c in st.calls && SafeAll([ch], st.calls[c].flags)
    ensures Carry(st, env, c, Changes([ch])) == Apply(st, env, c, ch)
  {
    hide Agrees, Guarded, GuardedBy, Flagged, FlagsAfter;
    ApplyKeeps(st, env, c, ch);
    var r := Apply(st, env, c, ch);
    assert [ch][1..] == [];
    assert ApplyAll(r, env, c, []) == r;
  }

  /** isup_rel, carried out. */
  lemma ReleaseIsOneChange(st: St, c: nat, w: World)
    requires Valid(st) && GoodEnv(w.env) && c in st.calls
    ensures w.sent ==> InRange(RELEASE) && Step(st, Ask(c, REL, w)) == Apply(st, w.env, c, RELEASE)
    ensures !w.sent ==> Step(st, Ask(c, REL, w)) == FreeCall(st, c)
  {
    hide Agrees, Guarded, Apply, ApplyAll, FreeCall, FlagsAfter, Safe, SafeAll, Only;
    RequestIsSafe(REL, st.calls[c], w);
    if w.sent {
      OneChange(st, w.env, c, RELEASE);
    }
  }
}
