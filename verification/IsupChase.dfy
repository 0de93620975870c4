/** A request that is repeated until it is answered is never left without a timer, as long as no reset takes
    its place; and what a reset leaves behind. */
module IsupChase {
  import opened Scheduler
  import opened IsupSpec
  import opened IsupCalls
  import opened IsupEffects
  import opened IsupReactions
  import opened IsupRequests
  import opened Options

  /** The longer of the two timers that repeat a request. */
  function LongTimer(f: Flag): nat {
    match f
    case SENT_REL => T5
    case SENT_RSC => T17
    case SENT_BLO => T13
    case SENT_UBL => T15
    case SENT_CGB => T19
    case _ => T21
  }

  /** A reset of the circuit, or of its group, takes the place of other requests. */
  predicate Overtaken(f: Flag, flags: set<Flag>) {
    SENT_GRS in flags || (f != SENT_RSC && SENT_RSC in flags)
  }

  // ----- decisions

  /** Whether the long timer runs after a change. */
  predicate RunsAfter(f: Flag, runs: bool, ch: Change) {
    LongTimer(f) in ch.start || (runs && LongTimer(f) !in ch.stop)
  }

  /** After all changes the request is over, overtaken, or chased. */
  predicate Chases(f: Flag, flags: set<Flag>, runs: bool, chs: seq<Change>)
    decreases |chs|
  {
    if chs == [] then f !in flags || Overtaken(f, flags) || runs
    else Chases(f, Flags(flags, chs[0]), RunsAfter(f, runs, chs[0]), chs[1..])
  }

  /** How many timers a decision starts, at most. */
  function Starts(chs: seq<Change>): nat
    decreases |chs|
  {
    if chs == [] then 0 else |chs[0].start| + Starts(chs[1..])
  }

  /** A decision starts four timers at most, and chases the request. */
  predicate DecisionChases(f: Flag, flags: set<Flag>, runs: bool, d: Decision) {
    d.Changes? ==> Starts(d.changes) <= 4 && Chases(f, flags, runs, d.changes)
  }

  lemma OneChases(f: Flag, flags: set<Flag>, runs: bool, ch: Change)
    requires f in Flags(flags, ch) && !Overtaken(f, Flags(flags, ch)) ==> RunsAfter(f, runs, ch)
    ensures Chases(f, flags, runs, [ch]) && Starts([ch]) == |ch.start|
  {
    assert [ch][1..] == [];
  }

  lemma NothingChases(f: Flag, flags: set<Flag>, runs: bool)
    requires f in flags ==> runs
    ensures DecisionChases(f, flags, runs, NOTHING) && DecisionChases(f, flags, runs, Forget)
  {
  }

  lemma RelChases(f: Flag, flags: set<Flag>, runs: bool, w: World)
    requires f in REPEATED && (f in flags ==> runs)
    ensures DecisionChases(f, flags, runs, DecideRel(w))
  {
    OneChases(f, flags, runs, RELEASE);
  }

  lemma RscChases(f: Flag, flags: set<Flag>, runs: bool, w: World)
    requires f in REPEATED
    ensures DecisionChases(f, flags, runs, DecideRsc(w))
  {
    OneChases(f, flags, runs, Change(ALL_TIMERS, [T17], {SENT_RSC}, {}));
  }

  lemma UnexpectedChases(f: Flag, flags: set<Flag>, runs: bool, w: World)
    requires f in REPEATED && (f in flags ==> runs)
    ensures DecisionChases(f, flags, runs, Unexpected(flags, w))
  {
    hide DecisionChases, DecideRsc;
    NothingChases(f, flags, runs);
    RscChases(f, flags, runs, w);
  }

  lemma IamChases(f: Flag, flags: set<Flag>, runs: bool, w: World)
    requires f in REPEATED && (f in flags ==> runs)
    ensures DecisionChases(f, flags, runs, DecideIam(flags, w))
  {
    NothingChases(f, flags, runs);
    var d := DecideIam(flags, w);
    if d.Changes? && d != NOTHING { OneChases(f, flags, runs, d.changes[0]); }
  }

  lemma FreedChases(f: Flag, call: Call, runs: bool)
    requires f in call.flags ==> runs
    ensures DecisionChases(f, call.flags, runs, FreedIfClear(call))
  {
    NothingChases(f, call.flags, runs);
  }

  lemma ClearChases(f: Flag, flags: set<Flag>, runs: bool, cleared: set<Flag>)
    requires f in REPEATED && (f in flags ==> runs) && cleared !! KEEP_THEIR_TIMERS
    ensures DecisionChases(f, flags, runs, DecideClear(cleared))
  {
    OneChases(f, flags, runs, DecideClear(cleared).changes[0]);
  }

  lemma CallRequestChases(f: Flag, r: Request, call: Call, w: World, runs: bool)
    requires f in REPEATED && (f in call.flags ==> runs)
    requires r in {IAM, ACM, ANM, CON, CPG, INR, FAR, Plain, DigitTimeout, Request.Free}
    ensures DecisionChases(f, call.flags, runs, DecideRequest(r, call, w))
  {
    hide Chases, Starts, LongTimer;
    LongTimerIs(f);
    var d := DecideRequest(r, call, w);
    NothingChases(f, call.flags, runs);
    if d.Changes? && d != NOTHING { OneChases(f, call.flags, runs, d.changes[0]); }
  }

  lemma RepeatedRequestChases(f: Flag, r: Request, call: Call, w: World, runs: bool)
    requires f in REPEATED && (f in call.flags ==> runs) && r in {BLO, UBL, CGB, CGU, GRS}
    ensures DecisionChases(f, call.flags, runs, DecideRequest(r, call, w))
  {
    hide Chases, Starts, LongTimer;
    LongTimerIs(f);
    var d := DecideRequest(r, call, w);
    NothingChases(f, call.flags, runs);
    if d.Changes? && d != NOTHING { OneChases(f, call.flags, runs, d.changes[0]); }
  }

  lemma RequestChases(f: Flag, r: Request, call: Call, w: World, runs: bool)
    requires f in REPEATED && (f in call.flags ==> runs)
    ensures DecisionChases(f, call.flags, runs, DecideRequest(r, call, w))
  {
    hide DecisionChases, DecideRel, DecideRsc, DecideIam, DecideClear, FreedIfClear;
    match r
    case REL => RelChases(f, call.flags, runs, w);
    case RSC => RscChases(f, call.flags, runs, w);
    case EventIam => IamChases(f, call.flags, runs, w);
    case FreeIfClear => FreedChases(f, call, runs);
    case ClearFlags(flags) =>
      NothingChases(f, call.flags, runs);
      if flags !! KEEP_THEIR_TIMERS { ClearChases(f, call.flags, runs, flags); }
    case BLO | UBL | CGB | CGU | GRS => RepeatedRequestChases(f, r, call, w, runs);
    case IAM | ACM | ANM | CON | CPG | INR | FAR | Plain | DigitTimeout | Free => CallRequestChases(f, r, call, w, runs);
  }

  lemma MessageChases(f: Flag, m: Message, call: Call, w: World, runs: bool)
    requires f in REPEATED && (f in call.flags ==> runs)
    ensures DecisionChases(f, call.flags, runs, DecideMessage(m, call, w))
  {
    hide Chases, Starts, DecideRel, DecideIam, Unexpected, DecideClear, FreedIfClear, After;
    var flags := call.flags;
    NothingChases(f, flags, runs);
    UnexpectedChases(f, flags, runs, w);
    FreedChases(f, call, runs);
    if m == GotIAM {
      IamChases(f, flags, runs, w);
    } else if m == GotINF {
      RelChases(f, flags, runs, w);
      InfChases(f, flags, runs, w);
    } else if m == GotCGBA {
      ClearChases(f, flags, runs, {SENT_CGB});
    } else if m == GotCGUA {
      ClearChases(f, flags, runs, {SENT_CGU});
    } else if m in {GotREL, GotRLC, GotRSC, GotBLA, GotUBA, GotGRA} {
      AnswerChases(f, m, call, w, runs);
    } else {
      OtherMessageChases(f, m, call, w, runs);
    }
  }

  lemma InfChases(f: Flag, flags: set<Flag>, runs: bool, w: World)
    requires f in REPEATED && (f in flags ==> runs)
    ensures DecisionChases(f, flags, runs, After(Change({T33}, [], {}, {SENT_INR}), DecideIam(flags - {SENT_INR}, w)))
  {
    hide DecideIam;
    var ch := Change({T33}, [], {}, {SENT_INR});
    var d := DecideIam(flags - {SENT_INR}, w);
    assert Flags(flags, ch) == flags - {SENT_INR};
    IamChases(f, flags - {SENT_INR}, runs, w);
    if d.Changes? { assert ([ch] + d.changes)[1..] == d.changes; }
  }

  /** Acknowledgements, and the messages that end requests. */
  lemma AnswerChases(f: Flag, m: Message, call: Call, w: World, runs: bool)
    requires f in REPEATED && (f in call.flags ==> runs) && m in {GotREL, GotRLC, GotRSC, GotBLA, GotUBA, GotGRA}
    ensures DecisionChases(f, call.flags, runs, DecideMessage(m, call, w))
  {
    hide Chases, Starts, Unexpected, LongTimer;
    var flags := call.flags;
    var d := DecideMessage(m, call, w);
    NothingChases(f, flags, runs);
    UnexpectedChases(f, flags, runs, w);
    LongTimerIs(f);
    if d.Changes? && |d.changes| == 1 && d != Unexpected(flags, w) { OneChases(f, flags, runs, d.changes[0]); }
  }

  lemma OtherMessageChases(f: Flag, m: Message, call: Call, w: World, runs: bool)
    requires f in REPEATED && (f in call.flags ==> runs)
    requires m !in {GotIAM, GotINF, GotCGBA, GotCGUA, GotREL, GotRLC, GotRSC, GotBLA, GotUBA, GotGRA}
    ensures DecisionChases(f, call.flags, runs, DecideMessage(m, call, w))
  {
    hide Chases, Starts, Unexpected, FreedIfClear, LongTimer;
    var flags := call.flags;
    var d := DecideMessage(m, call, w);
    NothingChases(f, flags, runs);
    UnexpectedChases(f, flags, runs, w);
    FreedChases(f, call, runs);
    LongTimerIs(f);
    if d.Changes? && |d.changes| == 1 && d != Unexpected(flags, w) && d != FreedIfClear(call) {
      OneChases(f, flags, runs, d.changes[0]);
    }
  }

  lemma LongTimerIs(f: Flag)
    requires f in REPEATED
    ensures LongTimer(f) == T5 <==> f == SENT_REL
    ensures LongTimer(f) == T17 <==> f == SENT_RSC
    ensures LongTimer(f) == T13 <==> f == SENT_BLO
    ensures LongTimer(f) == T15 <==> f == SENT_UBL
    ensures LongTimer(f) == T19 <==> f == SENT_CGB
    ensures LongTimer(f) == T21 <==> f == SENT_CGU
    ensures LongTimer(f) in {T5, T17, T13, T15, T19, T21}
  {
  }

  /** The field of the timer that expired is reset before the callback decides. */
  lemma ExpiryChases(f: Flag, t: nat, flags: set<Flag>, w: World, runs: bool)
    requires f in REPEATED && (f in flags ==> runs) && (t == T16 ==> SENT_RSC in flags)
    ensures DecisionChases(f, flags, runs && t != LongTimer(f), DecideExpiry(t, w))
  {
    hide Chases, Starts, DecideRel, DecideRsc, After, LongTimer;
    LongTimerIs(f);
    var now := runs && t != LongTimer(f);
    var d := DecideExpiry(t, w);
    if t == T8 || t == T35 {
      RelChases(f, flags, now, w);
    } else if t == T27 {
      RscChases(f, flags, now, w);
    } else if t == T33 {
      InrChases(f, flags, now, w);
    } else if t == T20 || t == T21 {
      GroupChases(f, t, flags, w, runs);
    } else if d.Changes? && d != NOTHING {
      OneChases(f, flags, now, d.changes[0]);
    } else {
      NothingChases(f, flags, now);
    }
  }

  lemma InrChases(f: Flag, flags: set<Flag>, runs: bool, w: World)
    requires f in REPEATED && (f in flags ==> runs)
    ensures DecisionChases(f, flags, runs, After(Change({}, [], {}, {SENT_INR}), DecideRel(w)))
  {
    hide DecideRel;
    var ch := Change({}, [], {}, {SENT_INR});
    var d := DecideRel(w);
    RelChases(f, Flags(flags, ch), runs, w);
    if d.Changes? { assert ([ch] + d.changes)[1..] == d.changes; }
  }

  lemma GroupChases(f: Flag, t: nat, flags: set<Flag>, w: World, runs: bool)
    requires f in REPEATED && (f in flags ==> runs) && (t == T20 || t == T21)
    ensures DecisionChases(f, flags, runs && t != LongTimer(f), DecideExpiry(t, w))
  {
    hide LongTimer;
    LongTimerIs(f);
    var one := Change(if t == T20 then {} else {T20}, [t], {}, {});
    var two := Change({T22}, [T23, T22], {}, {});
    var now := runs && t != LongTimer(f);
    OneChases(f, Flags(flags, one), RunsAfter(f, now, one), two);
    assert [one, two][1..] == [two];
  }

  // ----- states

  /** Timer t of call c runs. */
  predicate Running(st: St, c: nat, t: nat) { c in st.calls && t < |st.calls[c].timer| && st.calls[c].timer[t] > -1 }

  /** The request is over, overtaken by a reset, or chased by its long timer. */
  predicate Chased(st: St, c: nat, f: Flag) {
    c !in st.calls || f !in st.calls[c].flags || Overtaken(f, st.calls[c].flags) || Running(st, c, LongTimer(f))
  }

  /** Room for every timer that one operation can start. */
  ghost predicate Roomy(st: St) { |st.slots| == MAX_SCHED && |FreeSlots(st.slots)| >= 4 }

  lemma {:induction false} FewElements(ts: seq<nat>)
    ensures |Elements(ts)| <= |ts|
    decreases |ts|
  {
    if ts != [] {
      FewElements(ts[1..]);
      assert Elements(ts) == {ts[0]} + Elements(ts[1..]);
    }
  }

  /** One change, with room for what it starts. */
  lemma ChangeRuns(st: St, env: Env, c: nat, ch: Change, f: Flag)
    requires Valid(st) && GoodEnv(env) && c in st.calls && Safe(ch, st.calls[c].flags)
    requires f in REPEATED && env.ms[LongTimer(f)] > 0
    requires |st.slots| == MAX_SCHED && |FreeSlots(st.slots)| >= |ch.start|
    ensures var r := Apply(st, env, c, ch);
      && Valid(r) && r.calls[c].flags == Flags(st.calls[c].flags, ch) && |r.slots| == MAX_SCHED
      && |FreeSlots(r.slots)| >= |FreeSlots(st.slots)| - |ch.start|
      && (RunsAfter(f, Running(st, c, LongTimer(f)), ch) ==> Running(r, c, LongTimer(f)))
  {
    hide Agrees, Guarded, Apply, FreeSlots, Spares, REPEATED, GuardedBy;
    LongTimerIs(f);
    FewElements(ch.start);
    ApplyKeeps(st, env, c, ch);
    ChangeIsExact(st, env, c, ch);
    var r := Apply(st, env, c, ch);
    if LongTimer(f) in ch.start { assert Runs(r, env, c, LongTimer(f)); }
  }

  /** All changes of a decision. */
  lemma {:induction false} AllRun(st: St, env: Env, c: nat, chs: seq<Change>, f: Flag, runs: bool)
    requires Valid(st) && GoodEnv(env) && c in st.calls && SafeAll(chs, st.calls[c].flags)
    requires f in REPEATED && env.ms[LongTimer(f)] > 0
    requires |st.slots| == MAX_SCHED && |FreeSlots(st.slots)| >= Starts(chs)
    requires Chases(f, st.calls[c].flags, runs, chs) && (runs ==> Running(st, c, LongTimer(f)))
    ensures Chased(ApplyAll(st, env, c, chs), c, f)
    decreases |chs|
  {
    hide Agrees, Guarded, GuardedBy, Apply, FreeSlots, REPEATED, LongTimer;
    if chs != [] {
      ApplyKeeps(st, env, c, chs[0]);
      ChangeRuns(st, env, c, chs[0], f);
      AllRun(Apply(st, env, c, chs[0]), env, c, chs[1..], f, RunsAfter(f, runs, chs[0]));
    }
  }

  lemma CarryChases(st: St, env: Env, c: nat, d: Decision, f: Flag, runs: bool)
    requires Valid(st) && GoodEnv(env) && c in st.calls && SafeDecision(d, st.calls[c].flags)
    requires f in REPEATED && env.ms[LongTimer(f)] > 0 && Roomy(st)
    requires DecisionChases(f, st.calls[c].flags, runs, d) && (runs ==> Running(st, c, LongTimer(f)))
    ensures Chased(Carry(st, env, c, d), c, f)
  {
    hide Valid, FreeSlots, REPEATED, LongTimer, Chases;
    if d.Changes? { AllRun(st, env, c, d.changes, f, runs); }
  }

  // ----- steps and runs

  /** The timer that chases the request is configured, wherever the operation looks at the clock. */
  predicate Configured(op: IsupCalls.Op, f: Flag)
    requires GoodOp(op) && f in REPEATED
  {
    LongTimerIs(f);
    op.Ask? || op.Receive? || op.Expire? ==> op.w.env.ms[LongTimer(f)] > 0
  }

  lemma SameCallChased(st: St, r: St, c: nat, f: Flag)
    requires (c in r.calls <==> c in st.calls) && (c in st.calls ==> r.calls[c] == st.calls[c])
    requires Outstanding(st, c, f) ==> Running(st, c, LongTimer(f))
    ensures Chased(r, c, f)
  {
  }

  lemma AskChases(st: St, c: nat, r: Request, w: World, f: Flag)
    requires Valid(st) && GoodEnv(w.env) && c in st.calls && f in REPEATED && Roomy(st) && w.env.ms[LongTimer(f)] > 0
    requires Outstanding(st, c, f) ==> Running(st, c, LongTimer(f))
    ensures Chased(Step(st, Ask(c, r, w)), c, f)
  {
    hide Valid, DecideRequest, SafeDecision, DecisionChases, Carry, Chased, Roomy, REPEATED, LongTimer, Running;
    var runs := Running(st, c, LongTimer(f));
    RequestIsSafe(r, st.calls[c], w);
    RequestChases(f, r, st.calls[c], w, runs);
    CarryChases(st, w.env, c, DecideRequest(r, st.calls[c], w), f, runs);
  }

  lemma ReceiveChases(st: St, c: nat, m: Message, w: World, f: Flag)
    requires Valid(st) && GoodEnv(w.env) && f in REPEATED && Roomy(st) && w.env.ms[LongTimer(f)] > 0
    requires Outstanding(st, c, f) ==> Running(st, c, LongTimer(f))
    ensures Chased(Step(st, Receive(c, m, w)), c, f)
  {
    hide Valid, DecideMessage, SafeDecision, DecisionChases, Carry, Chased, FreeSlots, REPEATED, LongTimer, Running;
    var s := if c in st.calls then st else Fresh(st, c, {});
    var runs := Running(s, c, LongTimer(f));
    MessageIsSafe(m, s.calls[c], w);
    MessageChases(f, m, s.calls[c], w, runs);
    CarryChases(s, w.env, c, DecideMessage(m, s.calls[c], w), f, runs);
  }

  lemma FireChases(st: St, x: nat, w: World, c: nat, t: nat, f: Flag)
    requires Valid(st) && GoodEnv(w.env) && x < MAX_SCHED == |st.slots| && ArmedFor(st, x, c, t)
    requires f in REPEATED && Roomy(st) && w.env.ms[LongTimer(f)] > 0
    requires Outstanding(st, c, f) ==> Running(st, c, LongTimer(f))
    ensures Chased(Step(st, Expire(x, w)), c, f)
  {
    hide Valid, DecideExpiry, SafeDecision, DecisionChases, Carry, Chased, REPEATED, LongTimer, FreeSlots, Stop, Agrees;
    SlotOwner(st, x, c, t);
    var runs := Running(st, c, LongTimer(f));
    var s := Stop(st, c, {t});
    StopIsExact(st, c, {t});
    SubsetIsSmaller(FreeSlots(st.slots), FreeSlots(s.slots));
    StoppedIsValid(st, c, t);
    ExpiryIsSafe(t, s.calls[c].flags, w);
    ExpiryChases(f, t, st.calls[c].flags, w, runs);
    CarryChases(s, w.env, c, DecideExpiry(t, w), f, runs && t != LongTimer(f));
  }

  lemma SlotOwner(st: St, x: nat, c: nat, t: nat)
    requires Valid(st) && x < MAX_SCHED == |st.slots| && ArmedFor(st, x, c, t)
    ensures Agrees(st) && t < ISUP_MAX_TIMERS && c in st.calls && |st.calls[c].timer| == ISUP_MAX_TIMERS
    ensures GuardedBy(st.calls[c].flags, t)
  {
    ValidMeansAgreement(st, c, t, x);
    TimersOf(st, c);
  }

  lemma StoppedIsValid(st: St, c: nat, t: nat)
    requires Valid(st) && c in st.calls
    ensures Valid(Stop(st, c, {t})) && |Stop(st, c, {t}).slots| == MAX_SCHED
    ensures GuardedBy(st.calls[c].flags, t) ==> GuardedBy(Stop(st, c, {t}).calls[c].flags, t)
  {
    KeepsIsValid(st, Stop(st, c, {t}), c);
  }

  /** One operation of the run: a request that was chased is over, overtaken by a reset, or still chased; and
      one that has just been sent is chased. */
  lemma StepChases(st: St, op: IsupCalls.Op, c: nat, f: Flag)
    requires Valid(st) && GoodOp(op) && f in REPEATED && Roomy(st) && Configured(op, f)
    requires Outstanding(st, c, f) ==> Running(st, c, LongTimer(f))
    ensures Chased(Step(st, op), c, f)
  {
    hide Valid, DecideRequest, DecideMessage, DecideExpiry, SafeDecision, Carry, Chased, REPEATED, LongTimer, FreeSlots;
    if op.Ask? && op.c == c && c in st.calls {
      AskChases(st, c, op.request, op.w, f);
    } else if op.Receive? && op.c == c {
      ReceiveChases(st, c, op.message, op.w, f);
    } else if op.Expire? && op.slot < MAX_SCHED && exists t :: ArmedFor(st, op.slot, c, t) {
      var t :| ArmedFor(st, op.slot, c, t);
      FireChases(st, op.slot, op.w, c, t, f);
    } else if op.New? && op.c == c && c !in st.calls {
      NewChases(st, c, op.outgoing, f);
    } else {
      ElsewhereStays(st, op, c);
      SameCallChased(st, Step(st, op), c, f);
    }
  }

  lemma NewChases(st: St, c: nat, outgoing: bool, f: Flag)
    requires Valid(st) && c !in st.calls && f in REPEATED
    ensures Chased(Step(st, New(c, outgoing)), c, f)
  {
  }

  lemma ElsewhereStays(st: St, op: IsupCalls.Op, c: nat)
    requires Valid(st) && GoodOp(op)
    requires (op.Ask? ==> op.c != c || c !in st.calls) && (op.Receive? ==> op.c != c)
    requires op.Expire? ==> op.slot >= MAX_SCHED || forall t :: !ArmedFor(st, op.slot, c, t)
    requires op.New? ==> op.c != c || c in st.calls
    ensures var r := Step(st, op); (c in r.calls <==> c in st.calls) && (c in st.calls ==> r.calls[c] == st.calls[c])
  {
    hide Valid, DecideRequest, DecideMessage, DecideExpiry, Carry, SafeDecision;
    if op.Expire? && op.slot < MAX_SCHED == |st.slots| && st.slots[op.slot].Armed? && st.slots[op.slot].data.IsupTimer? {
      assert ArmedFor(st, op.slot, st.slots[op.slot].data.call, st.slots[op.slot].data.timer);
    }
  }

  /** Over every run with room in the table and the timer configured, and in which no reset has overtaken the
      request: whenever it is outstanding, its long timer runs, so it will be repeated. */
  lemma {:induction false} NeverAbandoned(sts: seq<St>, ops: seq<IsupCalls.Op>, n: nat, c: nat, f: Flag)
    requires IsRun(sts, ops) && n <= |ops| && f in REPEATED
    requires forall k :: 0 <= k < n ==> Roomy(sts[k]) && Configured(ops[k], f)
    requires forall k :: 0 <= k <= n && c in sts[k].calls ==> !Overtaken(f, sts[k].calls[c].flags)
    ensures Outstanding(sts[n], c, f) ==> exists x :: ArmedFor(sts[n], x, c, LongTimer(f))
  {
    LongTimerIs(f);
    ChasedThroughout(sts, ops, n, c, f);
    RunsAreValid(sts, ops, n);
    if Outstanding(sts[n], c, f) {
      ValidMeansAgreement(sts[n], c, LongTimer(f), sts[n].calls[c].timer[LongTimer(f)]);
    }
  }

  lemma {:induction false} ChasedThroughout(sts: seq<St>, ops: seq<IsupCalls.Op>, n: nat, c: nat, f: Flag)
    requires IsRun(sts, ops) && n <= |ops| && f in REPEATED
    requires forall k :: 0 <= k < n ==> Roomy(sts[k]) && Configured(ops[k], f)
    requires forall k :: 0 <= k <= n && c in sts[k].calls ==> !Overtaken(f, sts[k].calls[c].flags)
    ensures Outstanding(sts[n], c, f) ==> Running(sts[n], c, LongTimer(f))
  {
    hide Valid, Step, Roomy, Configured, REPEATED, LongTimer, Overtaken;
    if n > 0 {
      ChasedThroughout(sts, ops, n - 1, c, f);
      RunsAreValid(sts, ops, n - 1);
      StepChases(sts[n-1], ops[n-1], c, f);
      assert sts[n-1+1] == Step(sts[n-1], ops[n-1]);
    }
  }

  // ----- what a reset leaves behind

  /** After the reset is answered, a blocking or unblocking still outstanding is chased exactly if its long
      timer has run all along. */
  lemma ResetAnswered(st: St, c: nat, w: World, f: Flag)
    requires Valid(st) && GoodEnv(w.env) && w.ring && RequestOf(f).Some? && Outstanding(st, c, f)
    requires Outstanding(st, c, SENT_RSC) && !Outstanding(st, c, SENT_GRS)
    ensures var r := Received(st, c, GotRLC, w);
      Outstanding(r, c, f) && (Chased(r, c, f) <==> Running(st, c, LongTimer(f)))
  {
    hide Valid, Received, Spares, FreeSlots;
    ReleaseCompleteIsTaken(st, c, w);
  }

  /** The two changes of a reset and its answer, on the fields of the call. */
  lemma ResetClears(st: St, c: nat, w: World, f: Flag)
    requires Valid(st) && GoodEnv(w.env) && w.sent && w.ring && RequestOf(f).Some? && Outstanding(st, c, f)
    ensures c in Asked(st, c, RSC, w).calls
    ensures var r := Received(Asked(st, c, RSC, w), c, GotRLC, w);
      && Outstanding(r, c, f) && |r.calls[c].timer| == ISUP_MAX_TIMERS
      && forall t :: 0 <= t < ISUP_MAX_TIMERS ==> r.calls[c].timer[t] == -1
  {
    hide Valid, Asked, Received, Spares, FreeSlots, Runs;
    ResetIsSent(st, c, w);
    var a := Asked(st, c, RSC, w);
    ReleaseCompleteIsTaken(a, c, w);
    assert f in AfterComplete(a.calls[c].flags);
  }

  /** So a reset of the circuit abandons them: once it is answered they are still outstanding, and no timer of
      the call is left to repeat anything. */
  lemma ResetAbandons(st: St, c: nat, w: World, f: Flag)
    requires Valid(st) && GoodEnv(w.env) && w.sent && w.ring && RequestOf(f).Some? && Outstanding(st, c, f)
    ensures c in Asked(st, c, RSC, w).calls
    ensures var r := Received(Asked(st, c, RSC, w), c, GotRLC, w);
      Outstanding(r, c, f) && forall t, x :: !ArmedFor(r, x, c, t)
  {
    hide Valid, Asked, Received, ArmedFor;
    ResetClears(st, c, w, f);
    var r := Received(Asked(st, c, RSC, w), c, GotRLC, w);
    forall t, x ensures !ArmedFor(r, x, c, t) {
      IdleIsNotArmed(r, c, t, x);
    }
  }

  lemma IdleIsNotArmed(st: St, c: nat, t: nat, x: int)
    requires Valid(st) && c in st.calls && |st.calls[c].timer| == ISUP_MAX_TIMERS
    requires forall u :: 0 <= u < ISUP_MAX_TIMERS ==> st.calls[c].timer[u] == -1
    ensures !ArmedFor(st, x, c, t)
  {
    if t < ISUP_MAX_TIMERS { ValidMeansAgreement(st, c, t, x); }
  }
}
