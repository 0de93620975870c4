/** What an incoming initial address and each timer expiry do to their call. A timer that guards a
    request is armed again whenever it expires, however full the table is. */
module IsupExpiries {
  import opened Scheduler
  import opened IsupSpec
  import opened IsupCalls
  import opened IsupEffects
  import opened IsupReactions
  import opened IsupRequests
  import opened Options

  // ----- two changes in a row

  lemma CarriedTwo(st: St, env: Env, c: nat, d: Decision, one: Change, two: Change)
    requires Valid(st) && GoodEnv(env) && c in st.calls && SafeDecision(d, st.calls[c].flags)
    requires d == Changes([one, two]) && Elements(one.start) !! two.stop && Elements(one.start) !! Elements(two.start)
    ensures Became(st, Carry(st, env, c, d), env, c, one.stop + two.stop, Elements(one.start) + Elements(two.start),
                   st.calls[c].flags + one.add - one.drop + two.add - two.drop)
    ensures |st.slots| == MAX_SCHED && (|FreeSlots(st.slots)| >= |Elements(one.start)| ==>
      forall t :: t in Elements(one.start) && t < ISUP_MAX_TIMERS && env.ms[t] > 0 ==> Runs(Carry(st, env, c, d), env, c, t))
  {
    hide Agrees, Guarded, Apply, Became, GuardedBy, Safe, FlagsAfter, FreeSlots, Runs;
    assert [one, two][1..] == [two] && [two][1..] == [];
    var flags := st.calls[c].flags;
    ChangeIsInRange(one, flags);
    ApplyKeeps(st, env, c, one);
    var s := Apply(st, env, c, one);
    assert s.calls[c].flags == Flags(flags, one);
    assert SafeAll([two], Flags(flags, one));
    ChangeIsInRange(two, Flags(flags, one));
    ChangeIsExact(st, env, c, one);
    OneChange(s, env, c, two);
    var r := Apply(s, env, c, two);
    assert ApplyAll(st, env, c, [one, two]) == ApplyAll(s, env, c, [two]) == r;
    ChangeIsExact(s, env, c, two);
    BecameTwice(st, s, r, env, c, one.stop, Elements(one.start), flags + one.add - one.drop,
                two.stop, Elements(two.start), flags + one.add - one.drop + two.add - two.drop);
    FirstRunsOn(st, s, r, env, c, one.stop, Elements(one.start), flags + one.add - one.drop, two.stop, Elements(two.start),
                flags + one.add - one.drop + two.add - two.drop);
  }

  /** What the first change started runs on through the second. */
  lemma FirstRunsOn(st: St, s: St, r: St, env: Env, c: nat, stop1: set<nat>, start1: set<nat>, flags1: set<Flag>,
                    stop2: set<nat>, start2: set<nat>, flags2: set<Flag>)
    requires GoodEnv(env) && start1 !! stop2 && start1 !! start2
    requires Became(st, s, env, c, stop1, start1, flags1) && Became(s, r, env, c, stop2, start2, flags2)
    ensures |st.slots| == MAX_SCHED && (|FreeSlots(st.slots)| >= |start1| ==>
      forall t :: t in start1 && t < ISUP_MAX_TIMERS && env.ms[t] > 0 ==> Runs(r, env, c, t))
  {
    hide Runs, FreeSlots, Spares;
    forall t | t in start1 && t < ISUP_MAX_TIMERS && Runs(s, env, c, t) ensures Runs(r, env, c, t) {
      RunsOn(s, r, env, c, stop2, start2, flags2, t);
    }
  }

  lemma ChangeIsInRange(ch: Change, flags: set<Flag>)
    requires Safe(ch, flags)
    ensures InRange(ch)
  {
  }

  // ----- an initial address

  function AddressTimers(w: World): set<nat> {
    (if NumberComplete in w.holds then {} else {T35})
      + if CotRequired in w.holds || CotPerformed in w.holds then {T8} else {}
  }

  /** isup_event_iam, for a call with these flags and after these timers were stopped: of two calls that
      seize the circuit at once the controlling side keeps its own; without a calling number it is asked
      for; else the call is reported, and waits for more digits or the end of a continuity check. */
  ghost predicate Offered(st: St, r: St, c: nat, w: World, stop: set<nat>, flags: set<Flag>)
    requires GoodEnv(w.env)
  {
    if SENT_IAM in flags || PENDING_IAM in flags then
      Became(st, r, w.env, c, stop, {}, if Controlling in w.holds then flags else flags + {GOT_IAM})
    else if WantsInr in w.holds then
      if w.sent then Became(st, r, w.env, c, stop, {T33}, flags + {GOT_IAM, SENT_INR}) else Freed(st, r, c)
    else if !w.ring then Freed(st, r, c)
    else
      Became(st, r, w.env, c, stop, AddressTimers(w), flags + if CotRequired in w.holds then {GOT_IAM, GOT_CCR} else {GOT_IAM})
  }

  /** What DecideIam comes to: nothing, to free the call, or one change. */
  lemma AddressDecides(flags: set<Flag>, w: World)
    ensures var d := DecideIam(flags, w);
      if SENT_IAM in flags || PENDING_IAM in flags then
        d == if Controlling in w.holds then NOTHING else Do({}, [], {GOT_IAM}, {})
      else if WantsInr in w.holds then d == if w.sent then Do({}, [T33], {GOT_IAM, SENT_INR}, {}) else Forget
      else if !w.ring then d == Forget
      else (
        && d.Changes? && |d.changes| == 1 && d.changes[0].stop == {} && d.changes[0].drop == {}
        && Elements(d.changes[0].start) == AddressTimers(w)
        && d.changes[0].add == if CotRequired in w.holds then {GOT_IAM, GOT_CCR} else {GOT_IAM})
  {
    hide Elements;
    NoneStarted();
    OneStarted(T35);
    OneStarted(T8);
    var digits: seq<nat> := if NumberComplete in w.holds then [] else [T35];
    var check: seq<nat> := if CotRequired in w.holds || CotPerformed in w.holds then [T8] else [];
    ElementsAppend(digits, check);
    assert {GOT_IAM} + {GOT_CCR} == {GOT_IAM, GOT_CCR} && {GOT_IAM} + {} == {GOT_IAM};
  }

  lemma ElementsAppend(a: seq<nat>, b: seq<nat>)
    ensures Elements(a + b) == Elements(a) + Elements(b)
  {
  }

  lemma NothingBecame(st: St, env: Env, c: nat)
    requires Valid(st) && GoodEnv(env) && c in st.calls
    ensures Became(st, st, env, c, {}, {}, st.calls[c].flags)
  {
    hide FreeSlots;
    TimersOf(st, c);
  }

  lemma AddressIsExact(st: St, c: nat, w: World)
    requires Valid(st) && GoodEnv(w.env) && c in st.calls
    ensures var flags := st.calls[c].flags; var d := DecideIam(flags, w);
      SafeDecision(d, flags) && Offered(st, Carry(st, w.env, c, d), c, w, {}, flags)
  {
    hide Valid, SafeDecision, Carry, Became, Freed, DecideIam, Elements, AddressTimers;
    var flags := st.calls[c].flags;
    var d := DecideIam(flags, w);
    IamIsSafe(flags, w);
    AddressDecides(flags, w);
    CarriedForget(st, w.env, c);
    CarriedNothing(st, w.env, c);
    NothingBecame(st, w.env, c);
    NoneStarted();
    OneStarted(T33);
    if d.Changes? && d != NOTHING {
      var ch := d.changes[0];
      assert d == Do(ch.stop, ch.start, ch.add, ch.drop);
      Carried(st, w.env, c, d, ch.stop, ch.start, ch.add, ch.drop);
      assert flags + ch.add - {} == flags + ch.add;
    }
  }

  /** An initial address, received or continued by the application. */
  lemma AddressIsTaken(st: St, c: nat, w: World)
    requires Valid(st) && GoodEnv(w.env) && c in st.calls
    ensures Offered(st, Received(st, c, GotIAM, w), c, w, {}, st.calls[c].flags)
    ensures Offered(st, Asked(st, c, EventIam, w), c, w, {}, st.calls[c].flags)
  {
    hide Valid, SafeDecision, Carry, Offered, Received, Asked, DecideIam;
    ReceivedIsCarried(st, c, GotIAM, w);
    AskedIsCarried(st, c, EventIam, w);
    AddressIsExact(st, c, w);
  }

  /** Information is unexpected unless it was asked for or is unsolicited. Without a calling number still
      the call is released. What was asked for stops T33 and the initial address is taken up again. */
  lemma InformationIsTaken(st: St, c: nat, w: World)
    requires Valid(st) && GoodEnv(w.env) && c in st.calls
    ensures var flags, r := st.calls[c].flags, Received(st, c, GotINF, w);
      if SENT_INR !in flags && Unsolicited !in w.holds then NotExpected(st, r, c, w)
      else if WantsInr in w.holds then Sent(st, r, c, w, CALL_TIMERS, {T1, T5}, flags * MAINTENANCE + {SENT_REL})
      else if Unsolicited in w.holds then if Clear(st.calls[c]) then Freed(st, r, c) else r == st
      else Offered(st, r, c, w, {T33}, flags - {SENT_INR})
  {
    hide Valid, SafeDecision, Carry, Offered, Received, NotExpected, Unexpected, Sent, Freed, DecideIam, DecideRel, FreedIfClear, After;
    var flags := st.calls[c].flags;
    ReceivedIsCarried(st, c, GotINF, w);
    UnexpectedIsExact(st, c, w);
    RelIsExact(st, c, w);
    ClearIsExact(st, c, w);
    ResumedIsExact(st, c, w);
  }

  lemma RelIsExact(st: St, c: nat, w: World)
    requires Valid(st) && GoodEnv(w.env) && c in st.calls
    ensures var d := DecideRel(w); var flags := st.calls[c].flags;
      && SafeDecision(d, flags)
      && Sent(st, Carry(st, w.env, c, d), c, w, CALL_TIMERS, {T1, T5}, flags * MAINTENANCE + {SENT_REL})
  {
    hide Valid, SafeDecision, Carry, Sent;
    var flags := st.calls[c].flags;
    RelIsSafe(flags, w);
    TwoStarted(T1, T5);
    FlagsAreSplit(flags, {SENT_REL});
    assert CALL_TIMERS == ON_RELEASE;
    SentIsExact(st, c, w, DecideRel(w), ON_RELEASE, [T1, T5], {SENT_REL}, CALL_PENDING + CALL_CONNECTED,
                flags * MAINTENANCE + {SENT_REL});
  }

  lemma ClearIsExact(st: St, c: nat, w: World)
    requires Valid(st) && GoodEnv(w.env) && c in st.calls
    ensures var d := FreedIfClear(st.calls[c]); var r := Carry(st, w.env, c, d);
      if Clear(st.calls[c]) then Freed(st, r, c) else r == st
  {
    hide Valid, SafeDecision, Carry, Freed;
    CarriedForget(st, w.env, c);
    CarriedNothing(st, w.env, c);
  }

  /** T33 is stopped, SENT_INR cleared, and then the initial address is taken up. */
  lemma ResumedIsExact(st: St, c: nat, w: World)
    requires Valid(st) && GoodEnv(w.env) && c in st.calls
    ensures var flags := st.calls[c].flags;
      var d := After(Change({T33}, [], {}, {SENT_INR}), DecideIam(flags - {SENT_INR}, w));
      SafeDecision(d, flags) && Offered(st, Carry(st, w.env, c, d), c, w, {T33}, flags - {SENT_INR})
  {
    hide Valid, Carry, Became, Freed, DecideIam, Elements, AddressTimers, SafeDecision;
    var flags := st.calls[c].flags;
    var ch := Change({T33}, [], {}, {SENT_INR});
    assert Flags(flags, ch) == flags - {SENT_INR};
    var d := DecideIam(flags - {SENT_INR}, w);
    ResumingIsSafe(st.calls[c], w);
    AddressDecides(flags - {SENT_INR}, w);
    NoneStarted();
    OneStarted(T33);
    CarriedForget(st, w.env, c);
    if d == NOTHING {
      assert [ch] + [] == [ch];
      CarriedOne(st, w.env, c, ch);
    } else if d.Changes? {
      var two := d.changes[0];
      assert [ch] + d.changes == [ch, two];
      CarriedTwo(st, w.env, c, After(ch, d), ch, two);
      assert flags + {} - {SENT_INR} + two.add - {} == flags - {SENT_INR} + two.add;
      assert {T33} + {} == {T33} && {} + Elements(two.start) == Elements(two.start);
    }
  }

  lemma ResumingIsSafe(call: Call, w: World)
    ensures SafeDecision(After(Change({T33}, [], {}, {SENT_INR}), DecideIam(call.flags - {SENT_INR}, w)), call.flags)
  {
    hide SafeDecision, DecideIam, After;
    var ch := Change({T33}, [], {}, {SENT_INR});
    assert Flags(call.flags, ch) == call.flags - {SENT_INR};
    IamIsSafe(call.flags - {SENT_INR}, w);
    AfterIsSafe(ch, DecideIam(call.flags - {SENT_INR}, w), call.flags);
  }

  // ----- expiries

  /** Timer t of call c holds slot x and expires. */
  predicate Expires(st: St, x: nat, c: nat, t: nat) {
    |st.slots| == MAX_SCHED && x < MAX_SCHED && st.slots[x].Armed? && st.slots[x].data == IsupTimer(c, t)
  }

  function Expired(st: St, x: nat, w: World): (r: St)
    requires Valid(st) && GoodEnv(w.env)
    ensures Valid(r)
  {
    Step(st, Expire(x, w))
  }

  /** The timers that repeat a message by themselves. */
  predicate Repeats(t: nat) { t == T1 || t == T12 || t == T14 || t == T16 || t == T18 || t == T22 }

  /** The long timers of the pairs. */
  predicate Long(t: nat) { t == T13 || t == T15 || t == T19 || t == T23 }

  /** T2, T6 and T7 leave the rest to the application, and no other timer is ever started. */
  predicate Reports(t: nat) {
    !Repeats(t) && !Long(t) && t !in {T5, T8, T10, T17, T20, T21, T27, T33, T35}
  }

  lemma RepeatDecides(t: nat, w: World)
    ensures Repeats(t) ==> DecideExpiry(t, w) == Do({}, [t], if t == T16 then {SENT_RSC} else {}, {})
    ensures Long(t) ==> t > 0 && DecideExpiry(t, w) == Do({t - 1}, [t], {}, {})
  {
    hide ALL_TIMERS, DecideRel, DecideRsc;
  }

  lemma ExpiryDecides(t: nat, w: World)
    ensures t == T5 || t == T17 ==> DecideExpiry(t, w) == Do(ALL_TIMERS, [T17], {SENT_RSC}, {})
    ensures t == T20 || t == T21 ==> (
      var one := Change(if t == T20 then {} else {T20}, [t], {}, {});
      DecideExpiry(t, w) == Changes([one, Change({T22}, [T23, T22], {}, {})]))
    ensures Reports(t) ==> DecideExpiry(t, w) == NOTHING
  {
    hide ALL_TIMERS, DecideRel, DecideRsc;
  }

  lemma ReleasingDecides(t: nat, w: World)
    ensures t == T10 ==> DecideExpiry(t, w) == if w.ring then NOTHING else Forget
    ensures t == T27 ==> DecideExpiry(t, w) == if w.sent then Do(ALL_TIMERS, [T17], {SENT_RSC}, {}) else Forget
    ensures t == T8 || t == T35 ==>
      DecideExpiry(t, w) == if w.sent then Do(ON_RELEASE, [T1, T5], {SENT_REL}, CALL_PENDING + CALL_CONNECTED) else Forget
    ensures t == T33 ==>
      DecideExpiry(t, w) == if w.sent then Changes([Change({}, [], {}, {SENT_INR}), RELEASE]) else Forget
  {
    hide ALL_TIMERS, ON_RELEASE, CALL_PENDING, CALL_CONNECTED;
    assert [Change({}, [], {}, {SENT_INR})] + [RELEASE] == [Change({}, [], {}, {SENT_INR}), RELEASE];
  }

  /** The call whose timer expires is there, the timer is its own, and its slot becomes free. */
  lemma ExpiredIsCarried(st: St, x: nat, c: nat, t: nat, w: World) returns (s: St)
    requires Valid(st) && GoodEnv(w.env) && Expires(st, x, c, t)
    ensures c in st.calls && t < ISUP_MAX_TIMERS && Valid(s) && c in s.calls && s.calls[c].flags == st.calls[c].flags
    ensures GuardedBy(st.calls[c].flags, t)
    ensures Became(st, s, w.env, c, {t}, {}, st.calls[c].flags) && 1 <= x < MAX_SCHED == |s.slots| && s.slots[x].Free?
    ensures var d := DecideExpiry(t, w); SafeDecision(d, s.calls[c].flags) && Expired(st, x, w) == Carry(s, w.env, c, d)
  {
    hide Became, DecideExpiry, SafeDecision, Carry;
    ValidMeansAgreement(st, c, t, x);
    s := Stop(st, c, {t});
    StoppedBecame(st, w.env, c, {t});
    KeepsIsValid(st, s, c);
    ExpiryIsSafe(t, s.calls[c].flags, w);
  }

  /** One change of the call on top of the freed slot. */
  lemma ExpiryByRule(st: St, x: nat, c: nat, t: nat, w: World, stop: set<nat>, start: seq<nat>, add: set<Flag>, drop: set<Flag>,
                     flags: set<Flag>)
    requires Valid(st) && GoodEnv(w.env) && Expires(st, x, c, t) && c in st.calls
    requires DecideExpiry(t, w) == Do(stop, start, add, drop) && flags == st.calls[c].flags + add - drop
    ensures Became(st, Expired(st, x, w), w.env, c, {t} + stop, Elements(start), flags)
  {
    hide Valid, Became, DecideExpiry, SafeDecision, Carry, Expires, Expired, Do;
    var s := ExpiredIsCarried(st, x, c, t, w);
    Carried(s, w.env, c, DecideExpiry(t, w), stop, start, add, drop);
    BecameTwice(st, s, Expired(st, x, w), w.env, c, {t}, {}, st.calls[c].flags, stop, Elements(start), flags);
    assert {} + Elements(start) == Elements(start);
  }

  /** T1, T12, T14, T16, T18 and T22 repeat their message and start themselves anew. */
  lemma RepeatingExpires(st: St, x: nat, c: nat, t: nat, w: World)
    requires Valid(st) && GoodEnv(w.env) && Expires(st, x, c, t) && Repeats(t)
    ensures c in st.calls
    ensures Became(st, Expired(st, x, w), w.env, c, {t}, {t}, st.calls[c].flags + if t == T16 then {SENT_RSC} else {})
  {
    hide Valid, Became, Expires, Expired, DecideExpiry, SafeDecision, Carry, Repeats, Long, Elements, GuardedBy, Do;
    var s := ExpiredIsCarried(st, x, c, t, w);
    RepeatDecides(t, w);
    OneStarted(t);
    var add: set<Flag> := if t == T16 then {SENT_RSC} else {};
    ExpiryByRule(st, x, c, t, w, {}, [t], add, {}, st.calls[c].flags + add);
    assert {t} + {} == {t};
  }

  /** The long timer of a pair also stops the short one. */
  lemma LongTimerExpires(st: St, x: nat, c: nat, t: nat, w: World)
    requires Valid(st) && GoodEnv(w.env) && Expires(st, x, c, t) && Long(t)
    ensures c in st.calls && Became(st, Expired(st, x, w), w.env, c, {t} + {t - 1}, {t}, st.calls[c].flags)
  {
    hide Valid, Became, Expires, Expired, DecideExpiry, Long, Elements, GuardedBy;
    var s := ExpiredIsCarried(st, x, c, t, w);
    RepeatDecides(t, w);
    OneStarted(t);
    ExpiryByRule(st, x, c, t, w, {t - 1}, [t], {}, {}, st.calls[c].flags);
  }

  /** Two changes of the call on top of the freed slot. */
  lemma ExpiryByTwo(st: St, x: nat, c: nat, t: nat, w: World, one: Change, two: Change, stop: set<nat>, start: set<nat>,
                    flags: set<Flag>)
    requires Valid(st) && GoodEnv(w.env) && Expires(st, x, c, t) && c in st.calls
    requires DecideExpiry(t, w) == Changes([one, two])
    requires flags == st.calls[c].flags + one.add - one.drop + two.add - two.drop
    requires Elements(one.start) !! two.stop && Elements(one.start) !! Elements(two.start)
    requires stop == one.stop + two.stop && start == Elements(one.start) + Elements(two.start)
    ensures Became(st, Expired(st, x, w), w.env, c, {t} + stop, start, flags)
  {
    hide Valid, Became, Expires, Expired, SafeDecision, Carry, DecideExpiry, GuardedBy, Elements;
    var s := ExpiredIsCarried(st, x, c, t, w);
    CarriedTwo(s, w.env, c, DecideExpiry(t, w), one, two);
    BecameTwice(st, s, Expired(st, x, w), w.env, c, {t}, {}, st.calls[c].flags, stop, start, flags);
    assert {} + start == start;
  }

  lemma GroupTimers(t: nat, stop: set<nat>, started: set<nat>, more: set<nat>, reset: set<nat>)
    requires t == T20 || t == T21
    requires stop == (if t == T20 then {} else {T20}) && started == {t} && more == {T23, T22} && reset == {T22}
    ensures {t} + (stop + reset) == {t} + {T20} + {T22} && started + more == {t} + {T22} + {T23}
    ensures started !! reset && started !! more
  {
  }

  /** T20 and T21 run on into the branches of T23 and T22: a group reset is repeated as well. */
  lemma GroupUnblockingExpires(st: St, x: nat, c: nat, t: nat, w: World)
    requires Valid(st) && GoodEnv(w.env) && Expires(st, x, c, t) && (t == T20 || t == T21)
    ensures c in st.calls
    ensures Became(st, Expired(st, x, w), w.env, c, {t} + {T20} + {T22}, {t} + {T22} + {T23}, st.calls[c].flags)
  {
    hide Valid, Became, Expires, Expired, SafeDecision, Carry, DecideExpiry, GuardedBy, Elements;
    var s := ExpiredIsCarried(st, x, c, t, w);
    ExpiryDecides(t, w);
    OneStarted(t);
    TwoStarted(T23, T22);
    var one := Change(if t == T20 then {} else {T20}, [t], {}, {});
    var two := Change({T22}, [T23, T22], {}, {});
    var stop, start := one.stop + two.stop, Elements(one.start) + Elements(two.start);
    GroupTimers(t, one.stop, Elements(one.start), Elements(two.start), two.stop);
    var flags := st.calls[c].flags;
    assert flags + {} - {} + {} - {} == flags;
    ExpiryByTwo(st, x, c, t, w, one, two, stop, start, flags);
  }

  /** T5 and T17 give up on the release or reset: every timer stops, and a reset is sent under T17. */
  lemma GivenUpExpires(st: St, x: nat, c: nat, t: nat, w: World)
    requires Valid(st) && GoodEnv(w.env) && Expires(st, x, c, t) && (t == T5 || t == T17)
    ensures c in st.calls && Became(st, Expired(st, x, w), w.env, c, ALL_TIMERS, {T17}, st.calls[c].flags + {SENT_RSC})
  {
    hide Valid, Became, Expires, Expired, DecideExpiry, SafeDecision, Carry, ALL_TIMERS, Elements, GuardedBy, Do, Reports;
    var s := ExpiredIsCarried(st, x, c, t, w);
    ExpiryDecides(t, w);
    OneStarted(T17);
    ExpiryByRule(st, x, c, t, w, ALL_TIMERS, [T17], {SENT_RSC}, {}, st.calls[c].flags + {SENT_RSC});
    AllAreTimers(t);
  }

  lemma AllAreTimers(t: nat)
    requires t < ISUP_MAX_TIMERS
    ensures {t} + ALL_TIMERS == ALL_TIMERS
  {
  }

  /** T10 reports that no more digits came, or frees the call when the event has no room. */
  lemma DigitTimerExpires(st: St, x: nat, c: nat, w: World)
    requires Valid(st) && GoodEnv(w.env) && Expires(st, x, c, T10)
    ensures c in st.calls
    ensures if w.ring then Became(st, Expired(st, x, w), w.env, c, {T10}, {}, st.calls[c].flags)
            else Freed(st, Expired(st, x, w), c)
  {
    hide Valid, Became, Expires, Expired, SafeDecision, Carry, Freed, DecideExpiry;
    var s := ExpiredIsCarried(st, x, c, T10, w);
    ReleasingDecides(T10, w);
    CarriedNothing(s, w.env, c);
    CarriedForget(s, w.env, c);
    if !w.ring { FreedAfterStop(st, s, Expired(st, x, w), w, c, T10); }
  }

  lemma FreedAfterStop(st: St, s: St, r: St, w: World, c: nat, t: nat)
    requires GoodEnv(w.env) && c in st.calls && t < ISUP_MAX_TIMERS
    requires Became(st, s, w.env, c, {t}, {}, st.calls[c].flags) && Freed(s, r, c)
    ensures Freed(st, r, c)
  {
    hide Runs, FreeSlots, ArmedFor, Spares;
    SparedTwice(st, s, r, c, {t} + {}, ALL_TIMERS);
    assert {t} + {} + ALL_TIMERS == ALL_TIMERS;
    assert s.calls - {c} == st.calls - {c};
  }

  /** T8, T35 and T33 release the call, T33 after forgetting the request for information; T27 resets it. */
  lemma PhaseExpires(st: St, x: nat, c: nat, t: nat, w: World)
    requires Valid(st) && GoodEnv(w.env) && Expires(st, x, c, t) && t in {T8, T27, T33, T35}
    ensures c in st.calls
    ensures var flags, r := st.calls[c].flags, Expired(st, x, w);
      if !w.sent then Freed(st, r, c)
      else if t == T27 then Became(st, r, w.env, c, ALL_TIMERS, {T17}, flags + {SENT_RSC})
      else Became(st, r, w.env, c, CALL_TIMERS + {t}, {T1, T5}, flags * MAINTENANCE + {SENT_REL})
  {
    hide Valid, Became, Expires, Expired, SafeDecision, Carry, Freed, DecideExpiry, ALL_TIMERS;
    var s := ExpiredIsCarried(st, x, c, t, w);
    ReleasingDecides(t, w);
    var flags := st.calls[c].flags;
    CarriedForget(s, w.env, c);
    TwoStarted(T1, T5);
    OneStarted(T17);
    FlagsAreSplit(flags, {SENT_REL});
    assert CALL_TIMERS == ON_RELEASE;
    if !w.sent {
      FreedAfterStop(st, s, Expired(st, x, w), w, c, t);
    } else if t == T27 {
      ExpiryByRule(st, x, c, t, w, ALL_TIMERS, [T17], {SENT_RSC}, {}, flags + {SENT_RSC});
      AllAreTimers(t);
    } else if t == T33 {
      ForgettingExpires(st, x, c, w);
    } else {
      ExpiryByRule(st, x, c, t, w, ON_RELEASE, [T1, T5], {SENT_REL}, CALL_PENDING + CALL_CONNECTED, flags * MAINTENANCE + {SENT_REL});
      assert {t} + ON_RELEASE == CALL_TIMERS + {t};
    }
  }

  lemma ForgettingExpires(st: St, x: nat, c: nat, w: World)
    requires Valid(st) && GoodEnv(w.env) && Expires(st, x, c, T33) && w.sent
    ensures c in st.calls
    ensures Became(st, Expired(st, x, w), w.env, c, CALL_TIMERS + {T33}, {T1, T5}, st.calls[c].flags * MAINTENANCE + {SENT_REL})
  {
    hide Valid, Became, Expires, Expired, SafeDecision, Carry, DecideExpiry, GuardedBy, Elements;
    var s := ExpiredIsCarried(st, x, c, T33, w);
    ReleasingDecides(T33, w);
    NoneStarted();
    TwoStarted(T1, T5);
    var one := Change({}, [], {}, {SENT_INR});
    var flags := st.calls[c].flags;
    ForgettingTimers(Elements(one.start), Elements(RELEASE.start));
    ForgettingFlags(flags);
    ExpiryByTwo(st, x, c, T33, w, one, RELEASE, ON_RELEASE, {T1, T5}, flags * MAINTENANCE + {SENT_REL});
  }

  lemma ForgettingTimers(started: set<nat>, more: set<nat>)
    requires started == {} && more == {T1, T5}
    ensures ON_RELEASE == {} + ON_RELEASE && {T1, T5} == started + more && {T33} + ON_RELEASE == CALL_TIMERS + {T33}
    ensures started !! ON_RELEASE && started !! more
  {
  }

  lemma ForgettingFlags(flags: set<Flag>)
    ensures flags * MAINTENANCE + {SENT_REL}
      == flags + {} - {SENT_INR} + {SENT_REL} - (CALL_PENDING + CALL_CONNECTED)
  {
    assert flags + {} - {SENT_INR} == flags - {SENT_INR};
    FlagsAreSplit(flags - {SENT_INR}, {SENT_REL});
    InrIsNotKept(flags);
  }

  lemma InrIsNotKept(flags: set<Flag>)
    ensures (flags - {SENT_INR}) * MAINTENANCE == flags * MAINTENANCE
  {
  }

  /** The other timers only lose their slot. */
  lemma HangupExpires(st: St, x: nat, c: nat, t: nat, w: World)
    requires Valid(st) && GoodEnv(w.env) && Expires(st, x, c, t) && Reports(t)
    ensures c in st.calls && Became(st, Expired(st, x, w), w.env, c, {t}, {}, st.calls[c].flags)
  {
    hide Valid, Became, Expires, Expired, SafeDecision, Carry, DecideExpiry, Reports;
    var s := ExpiredIsCarried(st, x, c, t, w);
    ExpiryDecides(t, w);
    CarriedNothing(s, w.env, c);
  }

  // ----- a guard never goes out by itself

  /** The timer that guards the request after timer t expired: T17 takes over from T5. */
  function Successor(t: nat): nat { if t == T5 then T17 else t }

  /** The expiry of a timer that guards a request leaves its successor running, due the configured time
      from now, however full the table is: the slot just freed can always be armed again. */
  lemma GuardIsRearmed(st: St, x: nat, c: nat, t: nat, w: World)
    requires Valid(st) && GoodEnv(w.env) && Expires(st, x, c, t) && Guards(t).Some?
    requires w.env.ms[Successor(t)] > 0
    ensures Runs(Expired(st, x, w), w.env, c, Successor(t))
  {
    hide Valid, Became, Expires, Expired, SafeDecision, Carry, DecideExpiry, Runs, FreeSlots, Elements, ALL_TIMERS;
    var s := ExpiredIsCarried(st, x, c, t, w);
    OneIsFree(s.slots, x);
    RepeatDecides(t, w);
    ExpiryDecides(t, w);
    OneStarted(t);
    OneStarted(T17);
    if t == T20 || t == T21 {
      TwoStarted(T23, T22);
      CarriedTwo(s, w.env, c, DecideExpiry(t, w), Change(if t == T20 then {} else {T20}, [t], {}, {}),
                 Change({T22}, [T23, T22], {}, {}));
    } else {
      var d := DecideExpiry(t, w);
      var ch := if d.Changes? && |d.changes| == 1 then d.changes[0] else Change({}, [], {}, {});
      Carried(s, w.env, c, d, ch.stop, ch.start, ch.add, ch.drop);
      BecameRuns(s, Expired(st, x, w), w.env, c, ch.stop, ch.start, s.calls[c].flags + ch.add - ch.drop, Successor(t));
    }
  }

  lemma OneIsFree(slots: seq<Slot<Owner>>, x: nat)
    requires |slots| == MAX_SCHED && 1 <= x < MAX_SCHED && slots[x].Free?
    ensures |FreeSlots(slots)| >= 1
  {
    assert x as int in FreeSlots(slots);
  }

  lemma BecameRuns(st: St, r: St, env: Env, c: nat, stop: set<nat>, start: seq<nat>, flags: set<Flag>, t: nat)
    requires GoodEnv(env) && Became(st, r, env, c, stop, Elements(start), flags)
    requires start == [t] && t < ISUP_MAX_TIMERS && env.ms[t] > 0 && |st.slots| == MAX_SCHED && |FreeSlots(st.slots)| >= 1
    ensures Runs(r, env, c, t)
  {
    hide Runs, FreeSlots, Spares;
    OneStarted(t);
  }

  /** Over every run: when a guard timer expires, the request goes on being guarded, as long as its timers
      are switched on. */
  lemma GuardOutlivesExpiry(sts: seq<St>, ops: seq<IsupCalls.Op>, n: nat, c: nat, t: nat, x: nat)
    requires IsRun(sts, ops) && n < |ops| && ops[n].Expire? && ops[n].slot == x
    requires t < ISUP_MAX_TIMERS && ArmedFor(sts[n], x, c, t) && Guards(t).Some? && |sts[n].slots| == MAX_SCHED
    requires ops[n].w.env.ms[Successor(t)] > 0
    ensures Runs(sts[n+1], ops[n].w.env, c, Successor(t))
  {
    hide Valid, Runs, Guards, Successor, Step;
    RunsAreValid(sts, ops, n);
    GuardIsRearmed(sts[n], x, c, t, ops[n].w);
  }
}
