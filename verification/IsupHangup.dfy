/** Hanging up over whole runs: a release or reset is repeated only since it was sent, and never after a
    release complete was accepted. */
module IsupHangup {
  import opened Scheduler
  import opened IsupSpec
  import opened IsupCalls
  import opened Options

  /** Both are answered by a release complete. */
  predicate HangupFlag(f: Flag) { f == SENT_REL || f == SENT_RSC }

  /** The decisions that send a release or a reset of call c: the request itself, the phase timers and the
      information that still lacks a calling number; for a reset, a message nobody expects on an idle circuit. */
  ghost predicate HangsUp(f: Flag, st: St, op: IsupCalls.Op, c: nat) {
    match op
    case Ask(d, r, w) => d == c && w.sent && r == (if f == SENT_REL then REL else RSC)
    case Receive(d, m, w) =>
      d == c && w.sent && if f == SENT_REL then m == GotINF && WantsInr in w.holds else w.cic.IsIdle?
    case Expire(x, w) =>
      exists t :: ArmedFor(st, x, c, t) &&
        if f == SENT_REL then w.sent && t in {T8, T33, T35} else t in {T5, T16, T17} || (t == T27 && w.sent)
    case _ => false
  }

  // ----- which decisions raise the flags

  lemma RequestRaisesHangup(f: Flag, r: Request, call: Call, w: World)
    requires HangupFlag(f) && !(w.sent && r == (if f == SENT_REL then REL else RSC))
    ensures AddsNot(f, DecideRequest(r, call, w))
  {
    hide DecideIam;
    IamAddsNoHangup(f, call.flags, w);
  }

  lemma IamAddsNoHangup(f: Flag, flags: set<Flag>, w: World)
    requires HangupFlag(f)
    ensures AddsNot(f, DecideIam(flags, w))
  {
  }

  lemma UnexpectedRaisesReset(f: Flag, flags: set<Flag>, w: World)
    requires HangupFlag(f) && !(f == SENT_RSC && w.sent && w.cic.IsIdle?)
    ensures AddsNot(f, Unexpected(flags, w))
  {
  }

  lemma AfterAddsNot(f: Flag, ch: Change, d: Decision)
    requires AddsNot(f, d) && f !in ch.add
    ensures AddsNot(f, After(ch, d))
  {
  }

  lemma MessageRaisesHangup(f: Flag, m: Message, call: Call, w: World)
    requires HangupFlag(f)
    requires !(w.sent && if f == SENT_REL then m == GotINF && WantsInr in w.holds else w.cic.IsIdle?)
    ensures AddsNot(f, DecideMessage(m, call, w))
  {
    hide Unexpected, DecideIam, After;
    IamAddsNoHangup(f, call.flags, w);
    UnexpectedRaisesReset(f, call.flags, w);
    if m == GotINF {
      var ch := Change({T33}, [], {}, {SENT_INR});
      var d := DecideIam(call.flags - {SENT_INR}, w);
      IamAddsNoHangup(f, call.flags - {SENT_INR}, w);
      AfterAddsNot(f, ch, d);
    }
  }

  lemma ExpiryRaisesHangup(f: Flag, t: nat, w: World)
    requires HangupFlag(f)
    requires !(if f == SENT_REL then w.sent && t in {T8, T33, T35} else t in {T5, T16, T17} || (t == T27 && w.sent))
    ensures AddsNot(f, DecideExpiry(t, w))
  {
  }

  lemma NotRaised(f: Flag, flags: set<Flag>, d: Decision)
    requires AddsNot(f, d)
    ensures !Raises(f, flags, d)
  {
    if Raises(f, flags, d) {
      FlagsComeFromAdds(flags, d.changes, f);
    }
  }

  lemma AskedHangup(st: St, c: nat, r: Request, w: World, f: Flag)
    requires Valid(st) && GoodEnv(w.env) && c in st.calls && HangupFlag(f) && !Outstanding(st, c, f)
    requires !(w.sent && r == (if f == SENT_REL then REL else RSC))
    ensures !Outstanding(Step(st, Ask(c, r, w)), c, f)
  {
    hide Valid, DecideRequest, FlagsAfter, AddsNot, Carry, SafeDecision;
    RequestIsSafe(r, st.calls[c], w);
    RequestRaisesHangup(f, r, st.calls[c], w);
    NotRaised(f, st.calls[c].flags, DecideRequest(r, st.calls[c], w));
  }

  lemma ReceivedHangup(st: St, c: nat, m: Message, w: World, f: Flag)
    requires Valid(st) && GoodEnv(w.env) && HangupFlag(f) && !Outstanding(st, c, f)
    requires !(w.sent && if f == SENT_REL then m == GotINF && WantsInr in w.holds else w.cic.IsIdle?)
    ensures !Outstanding(Step(st, Receive(c, m, w)), c, f)
  {
    hide Valid, DecideMessage, FlagsAfter, AddsNot, Carry, SafeDecision;
    var s := if c in st.calls then st else Fresh(st, c, {});
    MessageIsSafe(m, s.calls[c], w);
    MessageRaisesHangup(f, m, s.calls[c], w);
    NotRaised(f, s.calls[c].flags, DecideMessage(m, s.calls[c], w));
  }

  lemma ExpiredHangup(st: St, x: nat, c: nat, t: nat, w: World, f: Flag)
    requires Valid(st) && GoodEnv(w.env) && HangupFlag(f) && !Outstanding(st, c, f) && x < MAX_SCHED
    requires ArmedFor(st, x, c, t)
    requires !(if f == SENT_REL then w.sent && t in {T8, T33, T35} else t in {T5, T16, T17} || (t == T27 && w.sent))
    ensures !Outstanding(Step(st, Expire(x, w)), c, f)
  {
    hide Valid, DecideExpiry, FlagsAfter, AddsNot, Carry, SafeDecision;
    ExpiryRaisesHangup(f, t, w);
    if t < ISUP_MAX_TIMERS { ValidMeansAgreement(st, c, t, x); }
    if c in st.calls { NotRaised(f, st.calls[c].flags, DecideExpiry(t, w)); }
  }

  /** Operations on other calls, and those of other layers, leave the call alone. */
  lemma ElsewhereSpares(st: St, op: IsupCalls.Op, c: nat, f: Flag)
    requires Valid(st) && GoodOp(op) && !Outstanding(st, c, f) && HangupFlag(f)
    requires (op.Ask? || op.Receive?) ==> op.c != c || (op.Ask? && c !in st.calls)
    requires op.Expire? ==> forall t :: !ArmedFor(st, op.slot, c, t)
    ensures !Outstanding(Step(st, op), c, f)
  {
    hide Valid, DecideRequest, DecideMessage, DecideExpiry, FlagsAfter, Carry, SafeDecision;
    if op.Expire? && op.slot < MAX_SCHED == |st.slots| && st.slots[op.slot].Armed? && st.slots[op.slot].data.IsupTimer? {
      assert ArmedFor(st, op.slot, st.slots[op.slot].data.call, st.slots[op.slot].data.timer);
    }
  }

  /** An operation that makes a release or reset outstanding sent it. */
  lemma RaisedByHangup(st: St, op: IsupCalls.Op, c: nat, f: Flag)
    requires Valid(st) && GoodOp(op) && HangupFlag(f)
    requires Outstanding(Step(st, op), c, f) && !Outstanding(st, c, f)
    ensures HangsUp(f, st, op, c)
  {
    hide Valid, Step, ArmedFor, Outstanding;
    if op.Ask? && op.c == c && c in st.calls {
      if !HangsUp(f, st, op, c) { AskedHangup(st, c, op.request, op.w, f); }
    } else if op.Receive? && op.c == c {
      if !HangsUp(f, st, op, c) { ReceivedHangup(st, c, op.message, op.w, f); }
    } else if op.Expire? && exists t :: ArmedFor(st, op.slot, c, t) {
      var t :| ArmedFor(st, op.slot, c, t);
      SlotIsThere(st, op.slot, c, t);
      if !HangsUp(f, st, op, c) { ExpiredHangup(st, op.slot, c, t, op.w, f); }
    } else {
      ElsewhereSpares(st, op, c, f);
    }
  }

  lemma SlotIsThere(st: St, x: nat, c: nat, t: nat)
    requires Valid(st) && ArmedFor(st, x, c, t)
    ensures x < MAX_SCHED
  {
  }

  lemma RaisedHangupAt(sts: seq<St>, ops: seq<IsupCalls.Op>, n: nat, c: nat, f: Flag)
    requires IsRun(sts, ops) && n < |ops| && HangupFlag(f)
    requires Outstanding(sts[n+1], c, f) && !Outstanding(sts[n], c, f)
    ensures HangsUp(f, sts[n], ops[n], c)
  {
    hide Valid, HangsUp, Step;
    RunsAreValid(sts, ops, n);
    RaisedByHangup(sts[n], ops[n], c, f);
  }

  /** A release or reset that is outstanding was sent, and has been outstanding ever since. */
  lemma {:induction false} HangupSinceSent(sts: seq<St>, ops: seq<IsupCalls.Op>, n: nat, c: nat, f: Flag) returns (m: nat)
    requires IsRun(sts, ops) && n <= |ops| && HangupFlag(f) && Outstanding(sts[n], c, f)
    ensures m < n && HangsUp(f, sts[m], ops[m], c)
    ensures forall k :: m < k <= n ==> Outstanding(sts[k], c, f)
  {
    hide HangsUp, Step, Valid;
    NothingAtBoot(sts, ops, c, f);
    if Outstanding(sts[n-1], c, f) {
      m := HangupSinceSent(sts, ops, n - 1, c, f);
    } else {
      RaisedHangupAt(sts, ops, n - 1, c, f);
      m := n - 1;
    }
  }

  lemma NothingAtBoot(sts: seq<St>, ops: seq<IsupCalls.Op>, c: nat, f: Flag)
    requires IsRun(sts, ops)
    ensures !Outstanding(sts[0], c, f)
  {
  }

  /** A release complete with room for its event, for a call that waits for one. */
  lemma CompleteEnds(st: St, c: nat, w: World, f: Flag)
    requires Valid(st) && GoodEnv(w.env) && HangupFlag(f) && Outstanding(st, c, f) && w.ring
    ensures !Outstanding(Step(st, Receive(c, GotRLC, w)), c, f)
  {
    hide Valid, Unexpected;
    MessageIsSafe(GotRLC, st.calls[c], w);
    var d := DecideMessage(GotRLC, st.calls[c], w);
    assert f !in FlagsAfter(st.calls[c].flags, d.changes);
  }

  /** Whenever T1, T5, T16 or T17 runs, the release or reset it guards was sent by an operation of this
      run, and no release complete has been accepted since. */
  lemma NothingResentAfterComplete(sts: seq<St>, ops: seq<IsupCalls.Op>, n: nat, c: nat, t: nat, x: int) returns (m: nat)
    requires IsRun(sts, ops) && n <= |ops| && t < ISUP_MAX_TIMERS && ArmedFor(sts[n], x, c, t)
    requires t == T1 || t == T5 || t == T16 || t == T17
    ensures m < n && HangsUp(if t == T1 || t == T5 then SENT_REL else SENT_RSC, sts[m], ops[m], c)
    ensures forall k :: m < k < n && ops[k].Receive? && ops[k].c == c && ops[k].message == GotRLC ==> !ops[k].w.ring
  {
    hide HangsUp, Step, Valid;
    var f := if t == T1 || t == T5 then SENT_REL else SENT_RSC;
    GuardTimersAreGuarded(sts, ops, n, c, t, x);
    m := HangupSinceSent(sts, ops, n, c, f);
    forall k | m < k < n && ops[k].Receive? && ops[k].c == c && ops[k].message == GotRLC ensures !ops[k].w.ring {
      RunsAreValid(sts, ops, k);
      if ops[k].w.ring {
        assert Outstanding(sts[k+1], c, f) && sts[k+1] == Step(sts[k], ops[k]);
        CompleteEnds(sts[k], c, ops[k].w, f);
      }
    }
  }

  // ----- what an expiry sends

  /** The messages isup_timer_expiry hands to mtp3, by the request that first sends each. */
  function Resent(t: nat): seq<Request> {
    if t == T1 || t == T8 || t == T33 || t == T35 then [REL]
    else if t == T5 || t == T16 || t == T17 || t == T27 then [RSC]
    else if t == T12 || t == T13 then [BLO]
    else if t == T14 || t == T15 then [UBL]
    else if t == T18 || t == T19 then [CGB]
    else if t == T20 || t == T21 then [CGU, GRS]
    else if t == T22 || t == T23 then [GRS]
    else []
  }

  function FirstSent(f: Flag): Request {
    match f
    case SENT_REL => REL
    case SENT_RSC => RSC
    case _ => if RequestOf(f).Some? then RequestOf(f).value else Plain
  }

  /** Operation m sent the request f stands for, on call c. */
  ghost predicate SentBy(f: Flag, st: St, op: IsupCalls.Op, c: nat) {
    if HangupFlag(f) then HangsUp(f, st, op, c) else op.Ask? && op.c == c && op.request == FirstSent(f) && op.w.sent
  }

  /** A message that answers f and is taken. */
  predicate Answers(f: Flag, op: IsupCalls.Op, c: nat) {
    && op.Receive? && op.c == c
    && if HangupFlag(f) then op.message == GotRLC && op.w.ring else op.message == AnswerOf(f) && Accepted(f, op.w)
  }

  /** Over every run a timer that guards a request sends that request again, and only if it was sent in this run
      and no answer has been taken since. T5 sends a reset in place of its release; T20 and T21 add a group reset. */
  lemma OnlyUnansweredIsResent(sts: seq<St>, ops: seq<IsupCalls.Op>, n: nat, c: nat, t: nat, x: int) returns (m: nat)
    requires IsRun(sts, ops) && n <= |ops| && t < ISUP_MAX_TIMERS && ArmedFor(sts[n], x, c, t) && Guards(t).Some?
    ensures var f := Guards(t).value;
      && m < n && SentBy(f, sts[m], ops[m], c) && forall k :: m < k < n ==> !Answers(f, ops[k], c)
    ensures Resent(t) == [if t == T5 then RSC else FirstSent(Guards(t).value)] + if t == T20 || t == T21 then [GRS] else []
  {
    hide IsRun, HangsUp, ArmedFor, Accepted;
    if t == T1 || t == T5 || t == T16 || t == T17 {
      m := NothingResentAfterComplete(sts, ops, n, c, t, x);
    } else {
      m := NothingResentAfterAnswer(sts, ops, n, c, t, x);
    }
  }
}
