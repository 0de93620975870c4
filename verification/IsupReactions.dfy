/** What each received message does to its call: which flags it sets and clears, which timers it stops
    and starts, when the call is freed, and that nothing else changes. */
module IsupReactions {
  import opened Scheduler
  import opened IsupSpec
  import opened IsupCalls
  import opened IsupEffects
  import opened Options

  // ----- outcomes

  /** The call is gone with its slots; other calls and slots are as they were. */
  ghost predicate Freed(st: St, r: St, c: nat) {
    && r.calls == st.calls - {c} && Spares(st, r, c, ALL_TIMERS)
    && forall x, t :: !ArmedFor(r, x, c, t)
  }

  /** isup_handle_unexpected: a connected call, and one being hung up under guard, are left alone. An idle
      circuit is reset if mtp3 takes the message; a call without a circuit is freed. */
  ghost predicate NotExpected(st: St, r: St, c: nat, w: World)
    requires GoodEnv(w.env) && c in st.calls
  {
    var flags := st.calls[c].flags;
    if !(flags !! CALL_CONNECTED) || ((SENT_REL in flags || SENT_RSC in flags) && AllGuardsConfigured in w.holds) then r == st
    else if w.cic.Used? then r == st
    else if w.cic.IsIdle? && w.sent then Became(st, r, w.env, c, ALL_TIMERS, {T17}, flags + {SENT_RSC})
    else Freed(st, r, c)
  }

  /** One change when there is room for the event; else the call is freed. */
  ghost predicate Taken(st: St, r: St, c: nat, w: World, stop: set<nat>, start: set<nat>, flags: set<Flag>)
    requires GoodEnv(w.env)
  {
    if w.ring then Became(st, r, w.env, c, stop, start, flags) else Freed(st, r, c)
  }

  function Received(st: St, c: nat, m: Message, w: World): (r: St)
    requires Valid(st) && GoodEnv(w.env) && c in st.calls
    ensures Valid(r)
  {
    Step(st, Receive(c, m, w))
  }

  // ----- carrying out a decision

  lemma ReceivedIsCarried(st: St, c: nat, m: Message, w: World)
    requires Valid(st) && GoodEnv(w.env) && c in st.calls
    ensures var d := DecideMessage(m, st.calls[c], w);
      SafeDecision(d, st.calls[c].flags) && Received(st, c, m, w) == Carry(st, w.env, c, d)
  {
    hide Valid, SafeDecision, DecideMessage, Carry;
    MessageIsSafe(m, st.calls[c], w);
  }

  lemma CarriedOne(st: St, env: Env, c: nat, ch: Change)
    requires Valid(st) && GoodEnv(env) && c in st.calls && SafeDecision(Changes([ch]), st.calls[c].flags)
    ensures Became(st, Carry(st, env, c, Changes([ch])), env, c, ch.stop, Elements(ch.start),
                   st.calls[c].flags + ch.add - ch.drop)
  {
    hide Agrees, Guarded, Apply, Became, GuardedBy;
    OneChange(st, env, c, ch);
    ChangeIsExact(st, env, c, ch);
  }

  /** A decision that makes a single change. */
  lemma Carried(st: St, env: Env, c: nat, d: Decision, stop: set<nat>, start: seq<nat>, add: set<Flag>, drop: set<Flag>)
    requires Valid(st) && GoodEnv(env) && c in st.calls && SafeDecision(d, st.calls[c].flags)
    requires d == Do(stop, start, add, drop)
    ensures Became(st, Carry(st, env, c, d), env, c, stop, Elements(start), st.calls[c].flags + add - drop)
  {
    hide Valid, SafeDecision, Became, Carry;
    CarriedOne(st, env, c, Change(stop, start, add, drop));
  }

  lemma CarriedNothing(st: St, env: Env, c: nat)
    requires Valid(st) && GoodEnv(env) && c in st.calls
    ensures SafeDecision(NOTHING, st.calls[c].flags) && Carry(st, env, c, NOTHING) == st
  {
    hide Valid;
  }

  lemma CarriedForget(st: St, env: Env, c: nat)
    requires Valid(st) && GoodEnv(env) && c in st.calls
    ensures SafeDecision(Forget, st.calls[c].flags) && Freed(st, Carry(st, env, c, Forget), c)
  {
    hide Guarded;
    var s := Stop(st, c, ALL_TIMERS);
    StopIsExact(st, c, ALL_TIMERS);
    var r := Carry(st, env, c, Forget);
    forall x, t ensures !ArmedFor(r, x, c, t) {
    }
  }

  lemma NoneStarted()
    ensures Elements([]) == {}
  {
  }

  lemma OneStarted(t: nat)
    ensures Elements([t]) == {t}
  {
  }

  lemma UnexpectedIsExact(st: St, c: nat, w: World)
    requires Valid(st) && GoodEnv(w.env) && c in st.calls
    ensures var d := Unexpected(st.calls[c].flags, w);
      SafeDecision(d, st.calls[c].flags) && NotExpected(st, Carry(st, w.env, c, d), c, w)
  {
    hide Valid, SafeDecision, Carry, Became, Freed;
    UnexpectedIsSafe(st.calls[c].flags, w);
    CarriedNothing(st, w.env, c);
    CarriedForget(st, w.env, c);
    OneStarted(T17);
    var d := Unexpected(st.calls[c].flags, w);
    if d.Changes? && d != NOTHING {
      Carried(st, w.env, c, d, ALL_TIMERS, [T17], {SENT_RSC}, {});
      assert st.calls[c].flags + {SENT_RSC} - {} == st.calls[c].flags + {SENT_RSC};
    }
  }

  /** A decision that needs room for an event. */
  lemma RoomIsExact(st: St, c: nat, w: World, d: Decision, stop: set<nat>, start: seq<nat>, add: set<Flag>,
                    drop: set<Flag>)
    requires Valid(st) && GoodEnv(w.env) && c in st.calls && SafeDecision(d, st.calls[c].flags)
    requires d == IfRoom(w, Do(stop, start, add, drop))
    ensures Taken(st, Carry(st, w.env, c, d), c, w, stop, Elements(start), st.calls[c].flags + add - drop)
  {
    hide Valid, SafeDecision, Carry, Became, Freed, Do;
    CarriedForget(st, w.env, c);
    if w.ring { Carried(st, w.env, c, d, stop, start, add, drop); }
  }

  /** An expected message that makes one change when its event has room, and is unexpected otherwise. */
  lemma TakenByRule(st: St, c: nat, m: Message, w: World, expected: bool, stop: set<nat>, start: seq<nat>,
                    add: set<Flag>, drop: set<Flag>, flags: set<Flag>)
    requires Valid(st) && GoodEnv(w.env) && c in st.calls
    requires DecideMessage(m, st.calls[c], w)
      == if expected then IfRoom(w, Do(stop, start, add, drop)) else Unexpected(st.calls[c].flags, w)
    requires flags == st.calls[c].flags + add - drop
    ensures var r := Received(st, c, m, w);
      if expected then Taken(st, r, c, w, stop, Elements(start), flags) else NotExpected(st, r, c, w)
  {
    hide Valid, SafeDecision, Carry, Taken, NotExpected, Unexpected, Received, Do, IfRoom, DecideMessage;
    ReceivedIsCarried(st, c, m, w);
    if expected {
      RoomIsExact(st, c, w, DecideMessage(m, st.calls[c], w), stop, start, add, drop);
    } else {
      UnexpectedIsExact(st, c, w);
    }
  }

  /** A message whose decision is to do nothing, or to free the call. */
  lemma IgnoredByRule(st: St, c: nat, m: Message, w: World)
    requires Valid(st) && GoodEnv(w.env) && c in st.calls
    ensures DecideMessage(m, st.calls[c], w) == NOTHING ==> Received(st, c, m, w) == st
    ensures DecideMessage(m, st.calls[c], w) == Forget ==> Freed(st, Received(st, c, m, w), c)
  {
    hide Valid, SafeDecision, Carry, Freed, Received, DecideMessage;
    ReceivedIsCarried(st, c, m, w);
    CarriedNothing(st, w.env, c);
    CarriedForget(st, w.env, c);
  }

  /** An address complete or a connect of an outgoing call stops T7 and is remembered. */
  lemma CompleteIsTaken(st: St, c: nat, m: Message, w: World)
    requires Valid(st) && GoodEnv(w.env) && c in st.calls && (m == GotACM || m == GotCON)
    ensures var flags, r := st.calls[c].flags, Received(st, c, m, w);
      if SENT_IAM in flags then Taken(st, r, c, w, {T7}, {}, flags + {if m == GotACM then GOT_ACM else GOT_CON})
      else NotExpected(st, r, c, w)
  {
    hide Valid, Taken, NotExpected, Unexpected, Received, FreedIfClear, DecideIam, DecideRel;
    NoneStarted();
    var flags := st.calls[c].flags;
    TakenByRule(st, c, m, w, SENT_IAM in flags, {T7}, [], {if m == GotACM then GOT_ACM else GOT_CON}, {},
                flags + {if m == GotACM then GOT_ACM else GOT_CON});
  }

  /** An answer is remembered and touches no timer. */
  lemma AnswerIsTaken(st: St, c: nat, w: World)
    requires Valid(st) && GoodEnv(w.env) && c in st.calls
    ensures var flags, r := st.calls[c].flags, Received(st, c, GotANM, w);
      if SENT_IAM in flags then Taken(st, r, c, w, {}, {}, flags + {GOT_ANM}) else NotExpected(st, r, c, w)
  {
    hide Valid, Taken, NotExpected, Unexpected, Received, FreedIfClear, DecideIam, DecideRel;
    NoneStarted();
    var flags := st.calls[c].flags;
    TakenByRule(st, c, GotANM, w, SENT_IAM in flags, {}, [], {GOT_ANM}, {}, flags + {GOT_ANM});
  }

  /** More digits of an incoming call start T35 again. */
  lemma DigitsAreTaken(st: St, c: nat, w: World)
    requires Valid(st) && GoodEnv(w.env) && c in st.calls
    ensures var flags, r := st.calls[c].flags, Received(st, c, GotSAM, w);
      if GOT_IAM in flags then Taken(st, r, c, w, {}, {T35}, flags) else NotExpected(st, r, c, w)
  {
    hide Valid, Taken, NotExpected, Unexpected, Received, FreedIfClear, DecideIam, DecideRel;
    NoneStarted();
    var flags := st.calls[c].flags;
    TakenByRule(st, c, GotSAM, w, GOT_IAM in flags, {}, [T35], {}, {}, flags);
    OneStarted(T35);
  }

  /** The timers of a call being set up or suspended. */
  const PHASE_TIMERS: set<nat> := {T7, T2, T6, T35, T10}

  /** A release stops the timers of the call's phases and clears what the call had reached, whatever it was. */
  lemma ReleaseIsTaken(st: St, c: nat, w: World)
    requires Valid(st) && GoodEnv(w.env) && c in st.calls
    ensures var flags, r := st.calls[c].flags, Received(st, c, GotREL, w);
      Taken(st, r, c, w, PHASE_TIMERS, {}, flags * MAINTENANCE)
  {
    hide Valid, Taken, NotExpected, Unexpected, Received, FreedIfClear, DecideIam, DecideRel;
    NoneStarted();
    var flags := st.calls[c].flags;
    FlagsAreSplit(flags, {});
    TakenByRule(st, c, GotREL, w, true, PHASE_TIMERS, [], {}, CALL_CONNECTED + CALL_PENDING,
                flags * MAINTENANCE);
  }

  /** A continuity report ends the check: T8 stops, and if the check failed the incoming call is forgotten
      and T27 waits for a new check. */
  lemma ContinuityIsTaken(st: St, c: nat, w: World)
    requires Valid(st) && GoodEnv(w.env) && c in st.calls
    ensures var flags, r := st.calls[c].flags, Received(st, c, GotCOT, w);
      if GOT_CCR in flags || CotPerformed in w.holds then
        if CotFailed in w.holds then Taken(st, r, c, w, {T8}, {T27}, flags - {GOT_CCR, GOT_IAM})
        else Taken(st, r, c, w, {T8}, {}, flags - {GOT_CCR})
      else NotExpected(st, r, c, w)
  {
    hide Valid, Taken, NotExpected, Unexpected, Received, FreedIfClear, DecideIam, DecideRel;
    NoneStarted();
    var flags := st.calls[c].flags;
    var failed := CotFailed in w.holds;
    TakenByRule(st, c, GotCOT, w, GOT_CCR in flags || CotPerformed in w.holds, {T8}, if failed then [T27] else [], {},
                {GOT_CCR} + (if failed then {GOT_IAM} else {}), flags - (if failed then {GOT_CCR, GOT_IAM} else {GOT_CCR}));
    OneStarted(T27);
  }

  /** A continuity check request is remembered and stops T27. */
  lemma CheckIsTaken(st: St, c: nat, w: World)
    requires Valid(st) && GoodEnv(w.env) && c in st.calls
    ensures var flags, r := st.calls[c].flags, Received(st, c, GotCCR, w);
      Taken(st, r, c, w, {T27}, {}, flags + {GOT_CCR})
  {
    hide Valid, Taken, NotExpected, Unexpected, Received, FreedIfClear, DecideIam, DecideRel;
    NoneStarted();
    var flags := st.calls[c].flags;
    TakenByRule(st, c, GotCCR, w, true, {T27}, [], {GOT_CCR}, {}, flags + {GOT_CCR});
  }

  /** An acknowledged blocking or unblocking is outstanding no more, and its timers stop. */
  lemma BlockingIsAcknowledged(st: St, c: nat, m: Message, w: World)
    requires Valid(st) && GoodEnv(w.env) && c in st.calls && (m == GotBLA || m == GotUBA)
    ensures var flags, r := st.calls[c].flags, Received(st, c, m, w);
      var f := if m == GotBLA then SENT_BLO else SENT_UBL;
      if f in flags then Taken(st, r, c, w, if m == GotBLA then {T12, T13} else {T14, T15}, {}, flags - {f})
      else NotExpected(st, r, c, w)
  {
    hide Valid, Taken, NotExpected, Unexpected, Received, FreedIfClear, DecideIam, DecideRel;
    NoneStarted();
    var flags := st.calls[c].flags;
    var f := if m == GotBLA then SENT_BLO else SENT_UBL;
    TakenByRule(st, c, m, w, f in flags, if m == GotBLA then {T12, T13} else {T14, T15}, [], {}, {f}, flags - {f});
  }

  // ----- hanging up

  /** The timers of a release, a reset and a suspended call. */
  const HANGUP_TIMERS: set<nat> := {T1, T2, T5, T6, T16, T17}

  /** What outlives the end of a call: requests about its circuit and their answers. */
  const MAINTENANCE: set<Flag> :=
    {SENT_GRS, SENT_GRS2, SENT_CGB, SENT_CGU, GOT_CGB, GOT_CGU, SENT_RSC, SENT_REL, SENT_BLO, SENT_UBL}

  /** Every flag is either about the circuit or about how far the call got. */
  lemma FlagsAreSplit(flags: set<Flag>, add: set<Flag>)
    requires add <= MAINTENANCE
    ensures flags + add - (CALL_CONNECTED + CALL_PENDING) == flags + add - (CALL_PENDING + CALL_CONNECTED)
      == flags * MAINTENANCE + add
    ensures flags - CALL_CONNECTED - CALL_PENDING == flags * MAINTENANCE
  {
    forall f: Flag ensures f in MAINTENANCE <==> f !in CALL_CONNECTED && f !in CALL_PENDING {
      match f
      case SENT_GRS | SENT_GRS2 | SENT_CGB | SENT_CGU | GOT_CGB | GOT_CGU | SENT_RSC | SENT_REL | SENT_BLO | SENT_UBL =>
      case GOT_ACM | GOT_ANM | GOT_CON | SENT_CON | SENT_ACM | SENT_ANM =>
      case GOT_IAM | SENT_IAM | PENDING_IAM | GOT_CCR | SENT_INR | SENT_FAR =>
    }
  }

  /** What a release complete leaves outstanding. */
  function AfterComplete(flags: set<Flag>): set<Flag> {
    (if SENT_RSC in flags then flags * MAINTENANCE else flags) - {SENT_REL, SENT_RSC}
  }

  /** A release complete answers a release or a reset: both are outstanding no more and their timers and
      those of a suspended call stop; after a reset the call has reached nothing either. */
  lemma ReleaseCompleteIsTaken(st: St, c: nat, w: World)
    requires Valid(st) && GoodEnv(w.env) && c in st.calls
    ensures var flags, r := st.calls[c].flags, Received(st, c, GotRLC, w);
      if SENT_REL in flags || SENT_RSC in flags then
        && Taken(st, r, c, w, HANGUP_TIMERS, {}, AfterComplete(flags))
        && forall x, t :: t in HANGUP_TIMERS ==> !ArmedFor(r, x, c, t)
      else NotExpected(st, r, c, w)
  {
    hide Valid, Taken, NotExpected, Unexpected, Received, ArmedFor, DecideMessage, HANGUP_TIMERS;
    NoneStarted();
    ReleaseCompleteDecides(st.calls[c], w);
    var flags := st.calls[c].flags;
    var after := AfterComplete(flags);
    var asked := SENT_REL in flags || SENT_RSC in flags;
    var reached := if SENT_RSC in flags then CALL_CONNECTED + CALL_PENDING else {};
    FlagsAreSplit(flags, {});
    TakenByRule(st, c, GotRLC, w, asked, HANGUP_TIMERS, [], {}, {SENT_REL, SENT_RSC} + reached, after);
    if asked { StoppedIsUnarmed(st, Received(st, c, GotRLC, w), c, w, HANGUP_TIMERS, {}, after); }
  }

  lemma ReleaseCompleteDecides(call: Call, w: World)
    ensures DecideMessage(GotRLC, call, w) ==
      if SENT_REL in call.flags || SENT_RSC in call.flags then
        IfRoom(w, Do(HANGUP_TIMERS, [], {},
          {SENT_REL, SENT_RSC} + (if SENT_RSC in call.flags then CALL_CONNECTED + CALL_PENDING else {})))
      else Unexpected(call.flags, w)
    ensures forall t :: t in HANGUP_TIMERS ==> t < ISUP_MAX_TIMERS
  {
    hide Unexpected;
  }

  /** No slot is armed for a timer that was stopped. */
  lemma StoppedIsUnarmed(st: St, r: St, c: nat, w: World, stop: set<nat>, start: set<nat>, flags: set<Flag>)
    requires GoodEnv(w.env) && Valid(r) && Taken(st, r, c, w, stop, start, flags)
    ensures forall x, t :: t in stop && t !in start && t < ISUP_MAX_TIMERS ==> !ArmedFor(r, x, c, t)
  {
    hide Valid;
    forall x, t | t in stop && t !in start && t < ISUP_MAX_TIMERS ensures !ArmedFor(r, x, c, t) {
      ValidMeansAgreement(r, c, t, x);
    }
  }

  /** A reset from the peer: nothing is done about it while one's own is outstanding; else all timers
      stop and nothing is outstanding any more. */
  lemma ResetIsTaken(st: St, c: nat, w: World)
    requires Valid(st) && GoodEnv(w.env) && c in st.calls
    ensures var flags, r := st.calls[c].flags, Received(st, c, GotRSC, w);
      if SENT_RSC in flags then r == st else Taken(st, r, c, w, ALL_TIMERS, {}, {})
  {
    hide Valid, Taken, NotExpected, Unexpected, Received;
    NoneStarted();
    IgnoredByRule(st, c, GotRSC, w);
    var flags := st.calls[c].flags;
    if SENT_RSC !in flags { TakenByRule(st, c, GotRSC, w, true, ALL_TIMERS, [], {}, flags, {}); }
  }

  // ----- suspending

  /** A suspend starts T6 or T2, unless the call is being hung up. */
  lemma SuspendIsTaken(st: St, c: nat, w: World)
    requires Valid(st) && GoodEnv(w.env) && c in st.calls
    ensures var flags, r := st.calls[c].flags, Received(st, c, GotSUS, w);
      if SENT_RSC in flags || SENT_REL in flags then r == st
      else if GOT_IAM in flags || SENT_IAM in flags then
        Taken(st, r, c, w, {}, {if NetworkIndicator in w.holds then T6 else T2}, flags)
      else NotExpected(st, r, c, w)
  {
    hide Valid, Taken, NotExpected, Unexpected, Received;
    var flags := st.calls[c].flags;
    var t := if NetworkIndicator in w.holds then T6 else T2;
    IgnoredByRule(st, c, GotSUS, w);
    OneStarted(t);
    if flags !! {SENT_RSC, SENT_REL} {
      TakenByRule(st, c, GotSUS, w, GOT_IAM in flags || SENT_IAM in flags, {}, [t], {}, {}, flags);
    }
  }

  /** A resume stops the timer the suspend started. */
  lemma ResumeIsTaken(st: St, c: nat, w: World)
    requires Valid(st) && GoodEnv(w.env) && c in st.calls
    ensures var flags, r := st.calls[c].flags, Received(st, c, GotRES, w);
      if GOT_IAM in flags || SENT_IAM in flags then
        Taken(st, r, c, w, {if NetworkIndicator in w.holds then T6 else T2}, {}, flags)
      else NotExpected(st, r, c, w)
  {
    hide Valid, Taken, NotExpected, Unexpected, Received;
    NoneStarted();
    var flags := st.calls[c].flags;
    var t := if NetworkIndicator in w.holds then T6 else T2;
    TakenByRule(st, c, GotRES, w, GOT_IAM in flags || SENT_IAM in flags, {t}, [], {}, {}, flags);
  }

  // ----- groups

  /** An answer to a group blocking or unblocking that matches ends the request and its timers; one that
      does not match changes nothing. */
  lemma GroupIsAcknowledged(st: St, c: nat, m: Message, w: World)
    requires Valid(st) && GoodEnv(w.env) && c in st.calls && (m == GotCGBA || m == GotCGUA)
    ensures var flags, r := st.calls[c].flags, Received(st, c, m, w); var f := if m == GotCGBA then SENT_CGB else SENT_CGU;
      if f in flags && AnswerMatches !in w.holds then r == st
      else if f in flags then Taken(st, r, c, w, if m == GotCGBA then {T18, T19} else {T20, T21}, {}, flags - {f})
      else NotExpected(st, r, c, w)
  {
    hide Valid, Taken, NotExpected, Unexpected, Received;
    NoneStarted();
    IgnoredByRule(st, c, m, w);
    var flags := st.calls[c].flags;
    var f := if m == GotCGBA then SENT_CGB else SENT_CGU;
    var stop := if m == GotCGBA then {T18, T19} else {T20, T21};
    if !(f in flags && AnswerMatches !in w.holds) {
      ClearOne(f);
      TakenByRule(st, c, m, w, f in flags, stop, [], {}, {f}, flags - {f});
    }
  }

  lemma ClearOne(f: Flag)
    requires f == SENT_CGB || f == SENT_CGU
    ensures DecideClear({f}) == Do(if f == SENT_CGB then {T18, T19} else {T20, T21}, [], {}, {f})
  {
    assert DecideClear({f}).changes[0].stop == if f == SENT_CGB then {T18, T19} else {T20, T21};
  }

  /** An answer to a group reset: the second one still expected is counted off first. */
  lemma GroupResetIsAcknowledged(st: St, c: nat, w: World)
    requires Valid(st) && GoodEnv(w.env) && c in st.calls
    ensures var flags, r := st.calls[c].flags, Received(st, c, GotGRA, w);
      if SENT_GRS in flags && AnswerMatches !in w.holds then r == st
      else if SENT_GRS in flags then
        Taken(st, r, c, w, {T22, T23}, {}, flags - {if SENT_GRS2 in flags then SENT_GRS2 else SENT_GRS})
      else NotExpected(st, r, c, w)
  {
    hide Valid, Taken, NotExpected, Unexpected, Received;
    NoneStarted();
    IgnoredByRule(st, c, GotGRA, w);
    var flags := st.calls[c].flags;
    var f := if SENT_GRS2 in flags then SENT_GRS2 else SENT_GRS;
    if !(SENT_GRS in flags && AnswerMatches !in w.holds) {
      TakenByRule(st, c, GotGRA, w, SENT_GRS in flags, {T22, T23}, [], {}, {f}, flags - {f});
    }
  }

  // ----- messages that only report, or end an empty call

  /** Progress is reported and changes nothing. */
  lemma ProgressIsReported(st: St, c: nat, w: World)
    requires Valid(st) && GoodEnv(w.env) && c in st.calls
    ensures var r := Received(st, c, GotCPG, w);
      if SENT_IAM !in st.calls[c].flags then NotExpected(st, r, c, w) else if w.ring then r == st else Freed(st, r, c)
  {
    hide Valid, NotExpected, Unexpected, Received, Freed, Carry, SafeDecision;
    IgnoredByRule(st, c, GotCPG, w);
    ReceivedIsCarried(st, c, GotCPG, w);
    UnexpectedIsExact(st, c, w);
  }

  /** Messages that are passed up, and messages that could not be parsed. */
  lemma ReportsAreTaken(st: St, c: nat, w: World)
    requires Valid(st) && GoodEnv(w.env) && c in st.calls
    ensures var r := Received(st, c, Reported, w); if w.ring then r == st else Freed(st, r, c)
    ensures Freed(st, Received(st, c, Unparsed, w), c)
  {
    hide Valid, Received, Freed;
    IgnoredByRule(st, c, Reported, w);
    IgnoredByRule(st, c, Unparsed, w);
  }

  /** A call without flags and timers, which exists for one message only. */
  predicate Clear(call: Call) {
    call.flags == {} && forall t :: 0 <= t < |call.timer| ==> call.timer[t] == -1
  }

  /** Other messages free the call exactly when it is clear. */
  lemma OthersEndClearCalls(st: St, c: nat, w: World)
    requires Valid(st) && GoodEnv(w.env) && c in st.calls
    ensures var r := Received(st, c, OtherMessage, w); if Clear(st.calls[c]) then Freed(st, r, c) else r == st
  {
    hide Valid, Received, Freed;
    IgnoredByRule(st, c, OtherMessage, w);
  }

  /** A request for information is answered, which needs mtp3 to take the answer. */
  lemma InformationIsGiven(st: St, c: nat, w: World)
    requires Valid(st) && GoodEnv(w.env) && c in st.calls
    ensures var r := Received(st, c, GotINR, w);
      if SENT_IAM !in st.calls[c].flags then NotExpected(st, r, c, w) else if w.sent then r == st else Freed(st, r, c)
  {
    hide Valid, NotExpected, Unexpected, Received, Freed, Carry, SafeDecision;
    IgnoredByRule(st, c, GotINR, w);
    ReceivedIsCarried(st, c, GotINR, w);
    UnexpectedIsExact(st, c, w);
  }
}
