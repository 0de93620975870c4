/** What each request of the application, each initial address and each timer expiry does to its call:
    flags, timers with their deadlines, and when the call is freed. A timer that repeats a request is
    armed again whenever it expires, however full the table is. */
module IsupRequests {
  import opened Scheduler
  import opened IsupSpec
  import opened IsupCalls
  import opened IsupEffects
  import opened IsupReactions
  import opened Options

  function Asked(st: St, c: nat, r: Request, w: World): (s: St)
    requires Valid(st) && GoodEnv(w.env) && c in st.calls
    ensures Valid(s)
  {
    Step(st, Ask(c, r, w))
  }

  /** One change when mtp3 takes the message; else the call is freed. */
  ghost predicate Sent(st: St, r: St, c: nat, w: World, stop: set<nat>, start: set<nat>, flags: set<Flag>)
    requires GoodEnv(w.env)
  {
    if w.sent then Became(st, r, w.env, c, stop, start, flags) else Freed(st, r, c)
  }

  lemma AskedIsCarried(st: St, c: nat, r: Request, w: World)
    requires Valid(st) && GoodEnv(w.env) && c in st.calls
    ensures var d := DecideRequest(r, st.calls[c], w);
      SafeDecision(d, st.calls[c].flags) && Asked(st, c, r, w) == Carry(st, w.env, c, d)
  {
    hide Valid, SafeDecision, DecideRequest, Carry;
    RequestIsSafe(r, st.calls[c], w);
  }

  /** A decision that needs mtp3. */
  lemma SentIsExact(st: St, c: nat, w: World, d: Decision, stop: set<nat>, start: seq<nat>, add: set<Flag>, drop: set<Flag>,
                    flags: set<Flag>)
    requires Valid(st) && GoodEnv(w.env) && c in st.calls && SafeDecision(d, st.calls[c].flags)
    requires d == IfSent(w, Do(stop, start, add, drop)) && flags == st.calls[c].flags + add - drop
    ensures Sent(st, Carry(st, w.env, c, d), c, w, stop, Elements(start), flags)
  {
    hide Valid, SafeDecision, Carry, Became, Freed, Do;
    CarriedForget(st, w.env, c);
    if w.sent { Carried(st, w.env, c, d, stop, start, add, drop); }
  }

  lemma SentByRule(st: St, c: nat, r: Request, w: World, stop: set<nat>, start: seq<nat>, add: set<Flag>, drop: set<Flag>,
                   flags: set<Flag>)
    requires Valid(st) && GoodEnv(w.env) && c in st.calls
    requires DecideRequest(r, st.calls[c], w) == IfSent(w, Do(stop, start, add, drop))
    requires flags == st.calls[c].flags + add - drop
    ensures Sent(st, Asked(st, c, r, w), c, w, stop, Elements(start), flags)
  {
    hide Valid, SafeDecision, Carry, Sent, Asked, Do, IfSent, DecideRequest;
    AskedIsCarried(st, c, r, w);
    SentIsExact(st, c, w, DecideRequest(r, st.calls[c], w), stop, start, add, drop, flags);
  }

  lemma PlainByRule(st: St, c: nat, r: Request, w: World)
    requires Valid(st) && GoodEnv(w.env) && c in st.calls
    ensures DecideRequest(r, st.calls[c], w) == NOTHING ==> Asked(st, c, r, w) == st
    ensures DecideRequest(r, st.calls[c], w) == Forget ==> Freed(st, Asked(st, c, r, w), c)
  {
    hide Valid, SafeDecision, Carry, Freed, Asked, DecideRequest;
    AskedIsCarried(st, c, r, w);
    CarriedNothing(st, w.env, c);
    CarriedForget(st, w.env, c);
  }

  lemma TwoStarted(t: nat, u: nat)
    ensures Elements([t, u]) == {t, u} == Elements([t, u, t, u])
  {
  }

  // ----- requests

  /** An initial address that mtp3 takes starts T7. */
  lemma InitialAddressIsSent(st: St, c: nat, w: World)
    requires Valid(st) && GoodEnv(w.env) && c in st.calls
    ensures var flags, s := st.calls[c].flags, Asked(st, c, IAM, w);
      Sent(st, s, c, w, {}, {T7}, flags + {SENT_IAM} - {PENDING_IAM})
  {
    hide Valid, Sent, Asked, Freed, DecideIam, DecideClear, FreedIfClear;
    NoneStarted();
    var flags := st.calls[c].flags;
    OneStarted(T7);
    SentByRule(st, c, IAM, w, {}, [T7], {SENT_IAM}, {PENDING_IAM}, flags + {SENT_IAM} - {PENDING_IAM});
  }

  /** What a call signals backwards ends the wait for digits. */
  lemma PhaseIsSent(st: St, c: nat, r: Request, w: World)
    requires Valid(st) && GoodEnv(w.env) && c in st.calls && (r == ACM || r == ANM || r == CON || r == CPG)
    ensures var flags, s := st.calls[c].flags, Asked(st, c, r, w);
      Sent(st, s, c, w, {T10, T35}, {},
           flags + match r case ACM => {SENT_ACM} case ANM => {SENT_ANM} case CON => {SENT_CON} case _ => {})
  {
    hide Valid, Sent, Asked, Freed, DecideIam, DecideClear, FreedIfClear;
    NoneStarted();
    var flags := st.calls[c].flags;
    var sent: set<Flag> := match r case ACM => {SENT_ACM} case ANM => {SENT_ANM} case CON => {SENT_CON} case _ => {};
    assert {T35, T10} == {T10, T35};
    SentByRule(st, c, r, w, {T10, T35}, [], sent, {}, flags + sent);
  }

  /** Every timer that belongs to the call itself, and not to its release, reset or maintenance. */
  const CALL_TIMERS: set<nat> := {T2, T6, T7, T8, T10, T27, T35}

  /** A release starts T1 and T5 and ends every other phase of the call. */
  lemma ReleaseIsSent(st: St, c: nat, w: World)
    requires Valid(st) && GoodEnv(w.env) && c in st.calls
    ensures var flags, s := st.calls[c].flags, Asked(st, c, REL, w);
      Sent(st, s, c, w, CALL_TIMERS, {T1, T5}, flags * MAINTENANCE + {SENT_REL})
  {
    hide Valid, Sent, Asked, Freed, DecideIam, DecideClear, FreedIfClear;
    NoneStarted();
    var flags := st.calls[c].flags;
    TwoStarted(T1, T5);
    FlagsAreSplit(flags, {SENT_REL});
    assert CALL_TIMERS == ON_RELEASE;
    SentByRule(st, c, REL, w, ON_RELEASE, [T1, T5], {SENT_REL}, CALL_PENDING + CALL_CONNECTED, flags * MAINTENANCE + {SENT_REL});
  }

  /** A reset stops every timer and starts T17. */
  lemma ResetIsSent(st: St, c: nat, w: World)
    requires Valid(st) && GoodEnv(w.env) && c in st.calls
    ensures var flags, s := st.calls[c].flags, Asked(st, c, RSC, w);
      Sent(st, s, c, w, ALL_TIMERS, {T17}, flags + {SENT_RSC})
  {
    hide Valid, Sent, Asked, Freed, DecideIam, DecideClear, FreedIfClear;
    NoneStarted();
    var flags := st.calls[c].flags;
    OneStarted(T17);
    SentByRule(st, c, RSC, w, ALL_TIMERS, [T17], {SENT_RSC}, {}, flags + {SENT_RSC});
  }

  /** A blocking or unblocking is guarded by two timers. */
  lemma BlockingIsSent(st: St, c: nat, r: Request, w: World)
    requires Valid(st) && GoodEnv(w.env) && c in st.calls && (r == BLO || r == UBL)
    ensures var flags, s := st.calls[c].flags, Asked(st, c, r, w);
      Sent(st, s, c, w, {}, if r == BLO then {T12, T13} else {T14, T15}, flags + {if r == BLO then SENT_BLO else SENT_UBL})
  {
    hide Valid, Sent, Asked, Freed, DecideIam, DecideClear, FreedIfClear;
    NoneStarted();
    var flags := st.calls[c].flags;
    TwoStarted(T12, T13);
    TwoStarted(T14, T15);
    var f := if r == BLO then SENT_BLO else SENT_UBL;
    SentByRule(st, c, r, w, {}, if r == BLO then [T12, T13] else [T14, T15], {f}, {}, flags + {f});
  }

  /** So is a group blocking or unblocking; for too many circuits nothing is done. */
  lemma GroupRequestIsSent(st: St, c: nat, r: Request, w: World)
    requires Valid(st) && GoodEnv(w.env) && c in st.calls && (r == CGB || r == CGU)
    ensures var flags, s := st.calls[c].flags, Asked(st, c, r, w);
      if RangeTooLong in w.holds then s == st
      else Sent(st, s, c, w, {}, if r == CGB then {T18, T19} else {T20, T21}, flags + {if r == CGB then SENT_CGB else SENT_CGU})
  {
    hide Valid, Sent, Asked, Freed, DecideIam, DecideClear, FreedIfClear;
    NoneStarted();
    var flags := st.calls[c].flags;
    TwoStarted(T18, T19);
    TwoStarted(T20, T21);
    PlainByRule(st, c, r, w);
    var f := if r == CGB then SENT_CGB else SENT_CGU;
    if RangeTooLong !in w.holds {
      SentByRule(st, c, r, w, {}, if r == CGB then [T18, T19] else [T20, T21, T20, T21], {f}, {}, flags + {f});
    }
  }

  /** A group reset stops every timer of its call; ANSI expects two answers. */
  lemma GroupResetIsSent(st: St, c: nat, w: World)
    requires Valid(st) && GoodEnv(w.env) && c in st.calls
    ensures var flags, s := st.calls[c].flags, Asked(st, c, GRS, w);
      if RangeTooLong in w.holds then s == st
      else Sent(st, s, c, w, ALL_TIMERS, {T22, T23}, flags + if Itu in w.holds then {SENT_GRS} else {SENT_GRS, SENT_GRS2})
  {
    hide Valid, Sent, Asked, Freed, DecideIam, DecideClear, FreedIfClear;
    NoneStarted();
    var flags := st.calls[c].flags;
    TwoStarted(T22, T23);
    PlainByRule(st, c, GRS, w);
    if RangeTooLong !in w.holds {
      SentByRule(st, c, GRS, w, ALL_TIMERS, [T22, T23], {SENT_GRS} + (if Itu in w.holds then {} else {SENT_GRS2}), {},
                 flags + if Itu in w.holds then {SENT_GRS} else {SENT_GRS, SENT_GRS2});
    }
  }

  /** A request for information starts T33. */
  lemma InformationIsAsked(st: St, c: nat, w: World)
    requires Valid(st) && GoodEnv(w.env) && c in st.calls
    ensures var flags, s := st.calls[c].flags, Asked(st, c, INR, w);
      Sent(st, s, c, w, {}, {T33}, flags + {SENT_INR})
  {
    hide Valid, Sent, Asked, Freed, DecideIam, DecideClear, FreedIfClear;
    NoneStarted();
    var flags := st.calls[c].flags;
    OneStarted(T33);
    SentByRule(st, c, INR, w, {}, [T33], {SENT_INR}, {}, flags + {SENT_INR});
  }

  /** A facility request needs a call reference. */
  lemma FacilityIsSent(st: St, c: nat, w: World)
    requires Valid(st) && GoodEnv(w.env) && c in st.calls
    ensures var flags, s := st.calls[c].flags, Asked(st, c, FAR, w);
      if HasReference in w.holds then Sent(st, s, c, w, {}, {}, flags + {SENT_FAR}) else s == st
  {
    hide Valid, Sent, Asked, Freed, DecideIam, DecideClear, FreedIfClear;
    NoneStarted();
    var flags := st.calls[c].flags;
    PlainByRule(st, c, FAR, w);
    if HasReference in w.holds { SentByRule(st, c, FAR, w, {}, [], {SENT_FAR}, {}, flags + {SENT_FAR}); }
  }

  /** Messages without flags or timers: nothing changes unless mtp3 refuses them. */
  lemma PlainIsSent(st: St, c: nat, w: World)
    requires Valid(st) && GoodEnv(w.env) && c in st.calls
    ensures var flags, s := st.calls[c].flags, Asked(st, c, Plain, w);
      if RangeTooLong in w.holds || w.sent then s == st else Freed(st, s, c)
  {
    hide Valid, Sent, Asked, Freed, DecideIam, DecideClear, FreedIfClear;
    NoneStarted();
    var flags := st.calls[c].flags;
    PlainByRule(st, c, Plain, w);
  }

  /** Freeing a call, always or when it is clear. */
  lemma FreeingIsExact(st: St, c: nat, r: Request, w: World)
    requires Valid(st) && GoodEnv(w.env) && c in st.calls && (r == Request.Free || r == FreeIfClear)
    ensures var flags, s := st.calls[c].flags, Asked(st, c, r, w);
      if r == Request.Free || Clear(st.calls[c]) then Freed(st, s, c) else s == st
  {
    hide Valid, Sent, Asked, Freed, DecideIam, DecideClear;
    NoneStarted();
    var flags := st.calls[c].flags;
    PlainByRule(st, c, r, w);
  }

  /** Waiting for digits starts T10, with no message sent. */
  lemma DigitsAreAwaited(st: St, c: nat, w: World)
    requires Valid(st) && GoodEnv(w.env) && c in st.calls
    ensures Became(st, Asked(st, c, DigitTimeout, w), w.env, c, {}, {T10}, st.calls[c].flags)
  {
    hide Valid, Asked, Carry, SafeDecision, Became;
    OneStarted(T10);
    AskedIsCarried(st, c, DigitTimeout, w);
    Carried(st, w.env, c, DecideRequest(DigitTimeout, st.calls[c], w), {}, [T10], {}, {});
    assert st.calls[c].flags + {} - {} == st.calls[c].flags;
  }

  function TimersOfFlags(flags: set<Flag>): set<nat> {
    (if SENT_IAM in flags then {T7} else {}) + (if SENT_CGB in flags then {T18, T19} else {})
      + if SENT_CGU in flags then {T20, T21} else {}
  }

  /** Clearing flags stops T7 with SENT_IAM, T18 and T19 with SENT_CGB, T20 and T21 with SENT_CGU. */
  lemma FlagsAreCleared(st: St, c: nat, cleared: set<Flag>, w: World)
    requires Valid(st) && GoodEnv(w.env) && c in st.calls && cleared !! KEEP_THEIR_TIMERS
    ensures Became(st, Asked(st, c, ClearFlags(cleared), w), w.env, c,
                   TimersOfFlags(cleared), {}, st.calls[c].flags - cleared)
  {
    hide Valid, Asked, Carry, SafeDecision, Became;
    NoneStarted();
    AskedIsCarried(st, c, ClearFlags(cleared), w);
    Carried(st, w.env, c, DecideClear(cleared), TimersOfFlags(cleared), [], {}, cleared);
    assert st.calls[c].flags + {} - cleared == st.calls[c].flags - cleared;
  }
}
