/** The timers of a group reset run only while one is outstanding, except after an unanswered group
    unblocking, whose branches run on into theirs, and after its flag was cleared by hand. */
module IsupGroupReset {
  import opened Scheduler
  import opened IsupSpec
  import opened IsupCalls
  import opened IsupEffects
  import opened IsupReactions
  import opened IsupRequests
  import opened IsupExpiries
  import opened IsupChase
  import opened Options

  // ----- decisions

  /** Whether T22 or T23 can run after a change. */
  predicate ResetRuns(runs: bool, ch: Change) {
    T22 in ch.start || T23 in ch.start || (runs && !(T22 in ch.stop && T23 in ch.stop))
  }

  /** After all changes T22 and T23 run only while a group reset is outstanding. */
  predicate Kept(flags: set<Flag>, runs: bool, chs: seq<Change>)
    decreases |chs|
  {
    if chs == [] then runs ==> SENT_GRS in flags
    else Kept(Flags(flags, chs[0]), ResetRuns(runs, chs[0]), chs[1..])
  }

  predicate DecisionKept(flags: set<Flag>, runs: bool, d: Decision) { d.Changes? ==> Kept(flags, runs, d.changes) }

  lemma OneKept(flags: set<Flag>, runs: bool, ch: Change)
    requires ResetRuns(runs, ch) ==> SENT_GRS in Flags(flags, ch)
    ensures Kept(flags, runs, [ch])
  {
    assert [ch][1..] == [];
  }

  lemma NothingKept(flags: set<Flag>, runs: bool)
    requires runs ==> SENT_GRS in flags
    ensures DecisionKept(flags, runs, NOTHING) && DecisionKept(flags, runs, Forget)
  {
  }

  lemma HangupKept(flags: set<Flag>, runs: bool, w: World)
    requires runs ==> SENT_GRS in flags
    ensures DecisionKept(flags, runs, DecideRel(w)) && DecisionKept(flags, runs, DecideRsc(w))
    ensures DecisionKept(flags, runs, Unexpected(flags, w))
  {
    NothingKept(flags, runs);
    OneKept(flags, runs, RELEASE);
    OneKept(flags, runs, Change(ALL_TIMERS, [T17], {SENT_RSC}, {}));
  }

  lemma AddressKept(flags: set<Flag>, runs: bool, w: World)
    requires runs ==> SENT_GRS in flags
    ensures DecisionKept(flags, runs, DecideIam(flags, w))
  {
    NothingKept(flags, runs);
    var d := DecideIam(flags, w);
    if d.Changes? && d != NOTHING { OneKept(flags, runs, d.changes[0]); }
  }

  lemma ClearKept(flags: set<Flag>, runs: bool, cleared: set<Flag>)
    requires (runs ==> SENT_GRS in flags) && SENT_GRS !in cleared
    ensures DecisionKept(flags, runs, DecideClear(cleared))
  {
    OneKept(flags, runs, DecideClear(cleared).changes[0]);
  }

  predicate ClearsReset(r: Request) { r.ClearFlags? && SENT_GRS in r.flags }

  lemma RequestKept(r: Request, call: Call, w: World, runs: bool)
    requires (runs ==> SENT_GRS in call.flags) && !ClearsReset(r)
    ensures DecisionKept(call.flags, runs, DecideRequest(r, call, w))
  {
    hide Kept, DecideRel, DecideRsc, DecideIam, DecideClear;
    NothingKept(call.flags, runs);
    HangupKept(call.flags, runs, w);
    AddressKept(call.flags, runs, w);
    if r.ClearFlags? {
      ClearKept(call.flags, runs, r.flags);
    } else if r != REL && r != RSC && r != EventIam {
      OtherRequestKept(r, call, w, runs);
    }
  }

  lemma OtherRequestKept(r: Request, call: Call, w: World, runs: bool)
    requires (runs ==> SENT_GRS in call.flags) && !r.ClearFlags? && r != REL && r != RSC && r != EventIam
    ensures DecisionKept(call.flags, runs, DecideRequest(r, call, w))
  {
    hide Kept, FreedIfClear;
    NothingKept(call.flags, runs);
    var d := DecideRequest(r, call, w);
    if r == FreeIfClear {
      FreedIsNothing(call);
    } else if d.Changes? && d != NOTHING {
      OneKept(call.flags, runs, d.changes[0]);
    }
  }

  lemma FreedIsNothing(call: Call)
    ensures FreedIfClear(call) == NOTHING || FreedIfClear(call) == Forget
  {
  }

  lemma MessageKept(m: Message, call: Call, w: World, runs: bool)
    requires runs ==> SENT_GRS in call.flags
    ensures DecisionKept(call.flags, runs, DecideMessage(m, call, w))
  {
    hide DecisionKept, DecideRel, DecideIam, Unexpected, DecideClear, FreedIfClear, After;
    var flags := call.flags;
    NothingKept(flags, runs);
    HangupKept(flags, runs, w);
    AddressKept(flags, runs, w);
    FreedIsNothing(call);
    if m == GotINF {
      ResumedKept(flags, runs, w);
    } else if m == GotCGBA || m == GotCGUA {
      ClearKept(flags, runs, if m == GotCGBA then {SENT_CGB} else {SENT_CGU});
    } else if m in {GotREL, GotRLC, GotRSC, GotBLA, GotUBA, GotGRA} {
      AnswerKept(m, call, w, runs);
    } else if m != GotIAM {
      OtherMessageKept(m, call, w, runs);
    }
  }

  lemma ResumedKept(flags: set<Flag>, runs: bool, w: World)
    requires runs ==> SENT_GRS in flags
    ensures DecisionKept(flags, runs, After(Change({T33}, [], {}, {SENT_INR}), DecideIam(flags - {SENT_INR}, w)))
    ensures DecisionKept(flags, runs, After(Change({}, [], {}, {SENT_INR}), DecideRel(w)))
  {
    hide DecideIam, DecideRel;
    var ch, none := Change({T33}, [], {}, {SENT_INR}), Change({}, [], {}, {SENT_INR});
    var d, e := DecideIam(flags - {SENT_INR}, w), DecideRel(w);
    assert Flags(flags, ch) == Flags(flags, none) == flags - {SENT_INR};
    AddressKept(flags - {SENT_INR}, runs, w);
    HangupKept(flags - {SENT_INR}, runs, w);
    if d.Changes? { assert ([ch] + d.changes)[1..] == d.changes; }
    if e.Changes? { assert ([none] + e.changes)[1..] == e.changes; }
  }

  lemma AnswerKept(m: Message, call: Call, w: World, runs: bool)
    requires (runs ==> SENT_GRS in call.flags) && m in {GotREL, GotRLC, GotRSC, GotBLA, GotUBA, GotGRA}
    ensures DecisionKept(call.flags, runs, DecideMessage(m, call, w))
  {
    hide Kept, Unexpected;
    var flags := call.flags;
    var d := DecideMessage(m, call, w);
    NothingKept(flags, runs);
    HangupKept(flags, runs, w);
    if d.Changes? && |d.changes| == 1 && d != Unexpected(flags, w) { OneKept(flags, runs, d.changes[0]); }
  }

  lemma OtherMessageKept(m: Message, call: Call, w: World, runs: bool)
    requires runs ==> SENT_GRS in call.flags
    requires m !in {GotIAM, GotINF, GotCGBA, GotCGUA, GotREL, GotRLC, GotRSC, GotBLA, GotUBA, GotGRA}
    ensures DecisionKept(call.flags, runs, DecideMessage(m, call, w))
  {
    hide Kept, Unexpected, FreedIfClear;
    var flags := call.flags;
    var d := DecideMessage(m, call, w);
    NothingKept(flags, runs);
    HangupKept(flags, runs, w);
    FreedIsNothing(call);
    if d.Changes? && |d.changes| == 1 && d != Unexpected(flags, w) && d != FreedIfClear(call) {
      OneKept(flags, runs, d.changes[0]);
    }
  }

  lemma ExpiryKept(t: nat, flags: set<Flag>, w: World, runs: bool)
    requires (runs ==> SENT_GRS in flags) && t != T20 && t != T21 && (t == T22 || t == T23 ==> SENT_GRS in flags)
    ensures DecisionKept(flags, runs, DecideExpiry(t, w))
  {
    hide Kept, DecideRel, DecideRsc, After;
    var d := DecideExpiry(t, w);
    NothingKept(flags, runs);
    HangupKept(flags, runs, w);
    ResumedKept(flags, runs, w);
    if t !in {T8, T35, T27, T33} && d.Changes? && d != NOTHING {
      OneKept(flags, runs, d.changes[0]);
    }
  }

  // ----- states

  predicate ResetRunning(st: St, c: nat) { Running(st, c, T22) || Running(st, c, T23) }

  /** T22 and T23 of call c run only while a group reset is outstanding. */
  predicate ResetGuarded(st: St, c: nat) { ResetRunning(st, c) ==> Outstanding(st, c, SENT_GRS) }

  lemma {:induction false} AllKept(st: St, env: Env, c: nat, chs: seq<Change>, runs: bool)
    requires Valid(st) && GoodEnv(env) && c in st.calls && SafeAll(chs, st.calls[c].flags)
    requires Kept(st.calls[c].flags, runs, chs) && (ResetRunning(st, c) ==> runs)
    ensures ResetGuarded(ApplyAll(st, env, c, chs), c)
    decreases |chs|
  {
    hide Agrees, Guarded, GuardedBy;
    if chs != [] {
      ApplyKeeps(st, env, c, chs[0]);
      var s := Apply(st, env, c, chs[0]);
      ApplyRuns(st, env, c, chs[0]);
      AllKept(s, env, c, chs[1..], ResetRuns(runs, chs[0]));
    }
  }

  lemma ApplyRuns(st: St, env: Env, c: nat, ch: Change)
    requires Agrees(st) && GoodEnv(env) && c in st.calls && InRange(ch)
    ensures var s := Apply(st, env, c, ch);
      ResetRunning(s, c) ==> ResetRuns(ResetRunning(st, c), ch)
  {
    hide Agrees, Apply;
    TimersOf(st, c);
    TimersOf(Apply(st, env, c, ch), c);
  }

  lemma CarryKeeps(st: St, env: Env, c: nat, d: Decision, runs: bool)
    requires Valid(st) && GoodEnv(env) && c in st.calls && SafeDecision(d, st.calls[c].flags)
    requires DecisionKept(st.calls[c].flags, runs, d) && (ResetRunning(st, c) ==> runs)
    ensures ResetGuarded(Carry(st, env, c, d), c)
  {
    hide Valid, Kept;
    if d.Changes? { AllKept(st, env, c, d.changes, runs); }
  }

  // ----- steps and runs

  /** What can leave T22 and T23 running with no group reset outstanding. */
  ghost predicate Unguards(st: St, op: IsupCalls.Op, c: nat) {
    || (op.Ask? && op.c == c && ClearsReset(op.request))
    || (op.Expire? && (ArmedFor(st, op.slot, c, T20) || ArmedFor(st, op.slot, c, T21)))
  }

  lemma ResetStep(st: St, op: IsupCalls.Op, c: nat)
    requires Valid(st) && GoodOp(op) && ResetGuarded(st, c) && !Unguards(st, op, c)
    ensures ResetGuarded(Step(st, op), c)
  {
    hide Valid, DecideRequest, DecideMessage, DecideExpiry, SafeDecision, Carry, DecisionKept;
    if op.Ask? && op.c == c && c in st.calls {
      RequestIsSafe(op.request, st.calls[c], op.w);
      RequestKept(op.request, st.calls[c], op.w, ResetRunning(st, c));
      CarryKeeps(st, op.w.env, c, DecideRequest(op.request, st.calls[c], op.w), ResetRunning(st, c));
    } else if op.Receive? && op.c == c {
      ReceiveKeepsReset(st, c, op.message, op.w);
    } else if op.Expire? && op.slot < MAX_SCHED && exists t :: ArmedFor(st, op.slot, c, t) {
      var t :| ArmedFor(st, op.slot, c, t);
      TableIsThere(st);
      FireKeepsReset(st, op.slot, op.w, c, t);
    } else if op.New? && op.c == c && c !in st.calls {
      assert forall t :: !Running(Step(st, op), c, t);
    } else {
      ElsewhereStays(st, op, c);
    }
  }

  lemma TableIsThere(st: St)
    requires Valid(st)
    ensures |st.slots| == MAX_SCHED
  {
  }

  lemma ReceiveKeepsReset(st: St, c: nat, m: Message, w: World)
    requires Valid(st) && GoodEnv(w.env) && ResetGuarded(st, c)
    ensures ResetGuarded(Step(st, Receive(c, m, w)), c)
  {
    hide Valid, DecideMessage, SafeDecision, Carry, DecisionKept;
    var s := if c in st.calls then st else Fresh(st, c, {});
    var runs := ResetRunning(s, c);
    MessageIsSafe(m, s.calls[c], w);
    MessageKept(m, s.calls[c], w, runs);
    CarryKeeps(s, w.env, c, DecideMessage(m, s.calls[c], w), runs);
  }

  lemma FireKeepsReset(st: St, x: nat, w: World, c: nat, t: nat)
    requires Valid(st) && GoodEnv(w.env) && x < MAX_SCHED == |st.slots| && ArmedFor(st, x, c, t)
    requires ResetGuarded(st, c) && t != T20 && t != T21
    ensures ResetGuarded(Step(st, Expire(x, w)), c)
  {
    hide Valid, DecideExpiry, SafeDecision, DecisionKept, Carry, Stop, Agrees;
    SlotOwner(st, x, c, t);
    ValidMeansAgreement(st, c, t, x);
    var runs := ResetRunning(st, c);
    var s := Stop(st, c, {t});
    StopIsExact(st, c, {t});
    StoppedIsValid(st, c, t);
    ExpiryIsSafe(t, s.calls[c].flags, w);
    ExpiryKept(t, st.calls[c].flags, w, runs);
    CarryKeeps(s, w.env, c, DecideExpiry(t, w), runs);
  }

  /** Over every run in which no unanswered group unblocking of the call expired and its group reset was not
      cleared by hand, T22 and T23 run only while a group reset is outstanding. */
  lemma {:induction false} ResetTimersAreGuarded(sts: seq<St>, ops: seq<IsupCalls.Op>, n: nat, c: nat)
    requires IsRun(sts, ops) && n <= |ops| && forall k :: 0 <= k < n ==> !Unguards(sts[k], ops[k], c)
    ensures ResetGuarded(sts[n], c)
  {
    hide Valid, Step, Unguards;
    if n > 0 {
      ResetTimersAreGuarded(sts, ops, n - 1, c);
      RunsAreValid(sts, ops, n - 1);
      ResetStep(sts[n-1], ops[n-1], c);
      assert sts[n-1+1] == Step(sts[n-1], ops[n-1]);
    }
  }

  // ----- the exception

  /** An unanswered group unblocking, when it expires, starts the timers of a group reset: they then run with
      none outstanding exactly when none was. */
  lemma UnblockingStartsReset(st: St, x: nat, c: nat, t: nat, w: World)
    requires Valid(st) && GoodEnv(w.env) && Expires(st, x, c, t) && (t == T20 || t == T21)
    requires |FreeSlots(st.slots)| >= 3 && w.env.ms[T22] > 0 && w.env.ms[T23] > 0
    ensures var r := Expired(st, x, w);
      && Running(r, c, T22) && Running(r, c, T23)
      && (ResetGuarded(r, c) <==> Outstanding(st, c, SENT_GRS))
  {
    hide Valid, Expired, Expires, Spares, FreeSlots;
    GroupUnblockingExpires(st, x, c, t, w);
    var r := Expired(st, x, w);
    var started := {t} + {T22} + {T23};
    assert |started| <= 3;
    assert Runs(r, w.env, c, T22) && Runs(r, w.env, c, T23);
  }

  /** The acknowledgement of the unblocking does not stop them: T22 goes on and resets the group again. */
  lemma UnblockedStaysReset(st: St, c: nat, w: World)
    requires Valid(st) && GoodEnv(w.env) && w.ring && AnswerMatches in w.holds && Outstanding(st, c, SENT_CGU)
    requires Running(st, c, T22)
    ensures var r := Received(st, c, GotCGUA, w);
      Running(r, c, T22) && !Outstanding(r, c, SENT_CGU) && (Outstanding(r, c, SENT_GRS) <==> Outstanding(st, c, SENT_GRS))
  {
    hide Valid, Received, Spares, FreeSlots;
    GroupIsAcknowledged(st, c, GotCGUA, w);
  }
}
