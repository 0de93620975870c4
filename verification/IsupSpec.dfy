/** ISUP calls, their timers and the timer table they share: every operation as a function of
    the calls (by address) and the table. */
module IsupSpec {
  import opened Scheduler
  import opened Options

  const ISUP_MAX_TIMERS := 64

  const T1 := 1
  const T2 := 2
  const T5 := 5
  const T6 := 6
  const T7 := 7
  const T8 := 8
  const T10 := 10
  const T12 := 12
  const T13 := 13
  const T14 := 14
  const T15 := 15
  const T16 := 16
  const T17 := 17
  const T18 := 18
  const T19 := 19
  const T20 := 20
  const T21 := 21
  const T22 := 22
  const T23 := 23
  const T27 := 27
  const T33 := 33
  const T35 := 35

  datatype Flag =
    | SENT_GRS | SENT_CGB | SENT_CGU | SENT_RSC | SENT_REL | SENT_BLO | SENT_UBL | SENT_IAM | SENT_FAR
    | GOT_CCR | GOT_IAM | GOT_ACM | GOT_CON | GOT_ANM | SENT_ACM | GOT_CGB | GOT_CGU | SENT_CON
    | SENT_ANM | SENT_INR | SENT_GRS2 | PENDING_IAM

  const CALL_CONNECTED := {GOT_ACM, GOT_ANM, GOT_CON, SENT_CON, SENT_ACM, SENT_ANM}
  const CALL_PENDING := {GOT_IAM, SENT_IAM, PENDING_IAM, GOT_CCR, SENT_INR, SENT_FAR}

  /** timer[t] is the slot of timer t, or -1. */
  datatype Call = Call(flags: set<Flag>, timer: seq<int>)

  /** The record a slot points to; other layers use the same table. */
  datatype Owner = IsupTimer(call: nat, timer: nat) | Other

  datatype St = St(slots: seq<Slot<Owner>>, calls: map<nat, Call>)

  /** The clock and the configured timer lengths, 0 for a timer that is switched off. */
  datatype Env = Env(now: Time, ms: seq<nat>)

  predicate GoodEnv(env: Env) { Clock(env.now) && |env.ms| == ISUP_MAX_TIMERS }

  // ----- agreement between calls and table

  ghost predicate CallAgrees(slots: seq<Slot<Owner>>, c: nat, call: Call)
    requires |slots| == MAX_SCHED
  {
    && |call.timer| == ISUP_MAX_TIMERS
    && forall t :: 0 <= t < ISUP_MAX_TIMERS ==>
         var x := call.timer[t];
         -1 <= x < MAX_SCHED && (x > -1 ==> slots[x].Armed? && slots[x].data == IsupTimer(c, t))
  }

  /** A timer field holds a slot exactly when that slot is armed with that call and timer, and
      no armed slot belongs to a call that is not there. */
  ghost predicate Agrees(st: St) {
    && Usable(st.slots)
    && (forall c :: c in st.calls ==> CallAgrees(st.slots, c, st.calls[c]))
    && forall x :: 0 <= x < MAX_SCHED && st.slots[x].Armed? && st.slots[x].data.IsupTimer? ==>
         var o := st.slots[x].data;
         o.call in st.calls && o.timer < ISUP_MAX_TIMERS && st.calls[o.call].timer[o.timer] == x
  }

  /** The request a guard timer repeats until it is answered. */
  function Guards(t: int): Option<Flag> {
    if t == T1 || t == T5 then Some(SENT_REL)
    else if t == T16 || t == T17 then Some(SENT_RSC)
    else if t == T12 || t == T13 then Some(SENT_BLO)
    else if t == T14 || t == T15 then Some(SENT_UBL)
    else if t == T18 || t == T19 then Some(SENT_CGB)
    else if t == T20 || t == T21 then Some(SENT_CGU)
    else None
  }

  predicate GuardedBy(flags: set<Flag>, t: int) {
    Guards(t).Some? ==> Guards(t).value in flags
  }

  /** A guard timer runs only while its request is outstanding. */
  predicate Guarded(call: Call) {
    forall t :: 0 <= t < |call.timer| && call.timer[t] > -1 ==> GuardedBy(call.flags, t)
  }

  ghost predicate Valid(st: St) {
    Agrees(st) && forall c :: c in st.calls ==> Guarded(st.calls[c])
  }

  /** r differs from st in call c alone. */
  ghost predicate Only(st: St, r: St, c: nat) {
    && r.calls.Keys == st.calls.Keys
    && forall d :: d in st.calls && d != c ==> r.calls[d] == st.calls[d]
  }

  // ----- the timer primitives

  function NewTimers(): (r: seq<int>)
    ensures |r| == ISUP_MAX_TIMERS && forall t :: 0 <= t < ISUP_MAX_TIMERS ==> r[t] == -1
  {
    seq(ISUP_MAX_TIMERS, _ => -1)
  }

  /** The call's timers and flags without table: what an operation does to its own call. */
  function Flagged(st: St, c: nat, flags: set<Flag>): (r: St)
    requires Agrees(st) && c in st.calls
    ensures Agrees(r) && Only(st, r, c) && r.calls[c] == st.calls[c].(flags := flags)
  {
    st.(calls := st.calls[c := st.calls[c].(flags := flags)])
  }

  /** A set of timers of call c: the slots they hold, and the fields after stopping them. */
  predicate Holds(s: Slot<Owner>, c: nat, ts: set<nat>) {
    s.Armed? && s.data.IsupTimer? && s.data.call == c && s.data.timer in ts
  }

  function Released(slots: seq<Slot<Owner>>, c: nat, ts: set<nat>): (r: seq<Slot<Owner>>)
    ensures |r| == |slots|
    ensures forall x :: 0 <= x < |slots| ==> r[x] == if Holds(slots[x], c, ts) then Free else slots[x]
  {
    seq(|slots|, x requires 0 <= x < |slots| => if Holds(slots[x], c, ts) then Free else slots[x])
  }

  function Cleared(timer: seq<int>, ts: set<nat>): (r: seq<int>)
    ensures |r| == |timer|
    ensures forall t :: 0 <= t < |timer| ==> r[t] == if t in ts then -1 else timer[t]
  {
    seq(|timer|, t requires 0 <= t < |timer| => if t in ts then -1 else timer[t])
  }

  /** Stopping timers: each loses its slot, whether it was running or not. */
  function Stop(st: St, c: nat, ts: set<nat>): (r: St)
    requires Agrees(st) && c in st.calls
    ensures Agrees(r) && Only(st, r, c)
    ensures r.calls[c] == st.calls[c].(timer := Cleared(st.calls[c].timer, ts))
  {
    St(Released(st.slots, c, ts), st.calls[c := st.calls[c].(timer := Cleared(st.calls[c].timer, ts))])
  }

  predicate IsTimer(t: nat) { t < ISUP_MAX_TIMERS }

  /** The timers with a number below n. */
  function Below(n: nat): set<nat> { set t: nat | t < n && IsTimer(t) }

  const ALL_TIMERS: set<nat> := Below(ISUP_MAX_TIMERS)

  lemma ArmingKeepsAgreement(s: St, c: nat, t: nat, x: nat, when: Time)
    requires Agrees(s) && c in s.calls && t < ISUP_MAX_TIMERS && s.calls[c].timer[t] == -1
    requires 1 <= x < MAX_SCHED && s.slots[x].Free? && Stored(when)
    ensures Agrees(St(s.slots[x := Armed(when, IsupTimer(c, t))],
                      s.calls[c := s.calls[c].(timer := s.calls[c].timer[t := x])]))
  {
  }

  lemma WithoutOne(a: map<nat, Call>, b: map<nat, Call>, c: nat)
    requires a.Keys == b.Keys && forall d :: d in a && d != c ==> b[d] == a[d]
    ensures b - {c} == a - {c}
  {
  }

  lemma RemovalKeepsAgreement(s: St, c: nat)
    requires Agrees(s) && c in s.calls && forall t :: 0 <= t < ISUP_MAX_TIMERS ==> s.calls[c].timer[t] == -1
    ensures Agrees(St(s.slots, s.calls - {c}))
  {
    var r := St(s.slots, s.calls - {c});
    forall x | 0 <= x < MAX_SCHED && s.slots[x].Armed? && s.slots[x].data.IsupTimer?
      ensures var o := s.slots[x].data;
        o.call in r.calls && o.timer < ISUP_MAX_TIMERS && r.calls[o.call].timer[o.timer] == x
    {
      var o := s.slots[x].data;
      assert s.calls[o.call].timer[o.timer] == x;
    }
    forall d | d in r.calls ensures CallAgrees(r.slots, d, r.calls[d]) {
      assert CallAgrees(s.slots, d, s.calls[d]);
    }
  }

  /** Timer t of call c, not running, takes slot x. */
  function TakeSlot(s: St, c: nat, t: nat, x: nat, when: Time): (r: St)
    requires Agrees(s) && c in s.calls && t < ISUP_MAX_TIMERS && s.calls[c].timer[t] == -1
    requires 1 <= x < MAX_SCHED && s.slots[x].Free? && Stored(when)
    ensures Agrees(r) && Only(s, r, c) && r.calls[c].flags == s.calls[c].flags
    ensures forall u :: 0 <= u < ISUP_MAX_TIMERS && u != t ==> r.calls[c].timer[u] == s.calls[c].timer[u]
  {
    ArmingKeepsAgreement(s, c, t, x, when);
    St(s.slots[x := Armed(when, IsupTimer(c, t))],
       s.calls[c := s.calls[c].(timer := s.calls[c].timer[t := x])])
  }

  /** Nothing when the timer is switched off; else it is stopped and armed anew if there is room. */
  function StartTimer(st: St, env: Env, c: nat, t: nat): (r: St)
    requires Agrees(st) && GoodEnv(env) && c in st.calls && t < ISUP_MAX_TIMERS
    ensures Agrees(r) && Only(st, r, c) && r.calls[c].flags == st.calls[c].flags
    ensures forall u :: 0 <= u < ISUP_MAX_TIMERS && u != t ==> r.calls[c].timer[u] == st.calls[c].timer[u]
  {
    if env.ms[t] == 0 then st
    else
      var s := Stop(st, c, {t});
      var x := FirstFree(s.slots, 1);
      if x == MAX_SCHED then s
      else
        DeadlineIsExact(env.now, env.ms[t]);
        TakeSlot(s, c, t, x, Deadline(env.now, env.ms[t]))
  }

  function FreeCall(st: St, c: nat): (r: St)
    requires Agrees(st) && c in st.calls
    ensures Agrees(r) && r.calls == st.calls - {c}
  {
    var s := Stop(st, c, ALL_TIMERS);
    RemovalKeepsAgreement(s, c);
    WithoutOne(st.calls, s.calls, c);
    St(s.slots, s.calls - {c})
  }

  // ----- what one operation does to its call

  /** Timers stopped, then timers started in order, then flags set and cleared. */
  datatype Change = Change(stop: set<nat>, start: seq<nat>, add: set<Flag>, drop: set<Flag>)

  /** isup_free_call, or changes one after the other. */
  datatype Decision = Forget | Changes(changes: seq<Change>)

  function Elements(ts: seq<nat>): set<nat> { set t | t in ts }

  predicate InRange(ch: Change) {
    forall i :: 0 <= i < |ch.start| ==> ch.start[i] < ISUP_MAX_TIMERS
  }

  lemma TimersOf(st: St, c: nat)
    requires Agrees(st) && c in st.calls
    ensures |st.calls[c].timer| == ISUP_MAX_TIMERS
  {
    assert CallAgrees(st.slots, c, st.calls[c]);
  }

  function StartAll(st: St, env: Env, c: nat, ts: seq<nat>): (r: St)
    requires Agrees(st) && GoodEnv(env) && c in st.calls
    requires forall i :: 0 <= i < |ts| ==> ts[i] < ISUP_MAX_TIMERS
    ensures Agrees(r) && Only(st, r, c) && r.calls[c].flags == st.calls[c].flags
    ensures |r.calls[c].timer| == ISUP_MAX_TIMERS
    ensures forall t :: 0 <= t < ISUP_MAX_TIMERS && t !in ts ==> r.calls[c].timer[t] == st.calls[c].timer[t]
    decreases |ts|
  {
    TimersOf(st, c);
    if ts == [] then st else StartAll(StartTimer(st, env, c, ts[0]), env, c, ts[1..])
  }

  function Apply(st: St, env: Env, c: nat, ch: Change): (r: St)
    requires Agrees(st) && GoodEnv(env) && c in st.calls && InRange(ch)
    ensures Agrees(r) && Only(st, r, c)
    ensures r.calls[c].flags == st.calls[c].flags + ch.add - ch.drop
    ensures forall t :: 0 <= t < ISUP_MAX_TIMERS && r.calls[c].timer[t] > -1 && t !in ch.start ==>
      st.calls[c].timer[t] > -1 && t !in ch.stop
  {
    var s := StartAll(Stop(st, c, ch.stop), env, c, ch.start);
    Flagged(s, c, st.calls[c].flags + ch.add - ch.drop)
  }

  /** Started timers are guarded afterwards, and a dropped flag takes its timers with it. */
  predicate Safe(ch: Change, flags: set<Flag>) {
    && InRange(ch)
    && (forall i :: 0 <= i < |ch.start| ==> GuardedBy(flags + ch.add - ch.drop, ch.start[i]))
    && (forall t :: 0 <= t < ISUP_MAX_TIMERS && Guards(t).Some? && Guards(t).value in ch.drop ==>
          t in ch.stop || t in ch.start)
  }

  /** What an operation on call c leaves: agreement, the other calls as they were, and c, if it
      is still there, guarded. */
  ghost predicate Keeps(st: St, r: St, c: nat) {
    && Agrees(r)
    && (forall d :: d in r.calls && d != c ==> d in st.calls && r.calls[d] == st.calls[d])
    && (c in r.calls ==> Guarded(r.calls[c]))
  }

  lemma KeepsIsValid(st: St, r: St, c: nat)
    requires Valid(st) && Keeps(st, r, c)
    ensures Valid(r)
  {
  }

  lemma ApplyKeeps(st: St, env: Env, c: nat, ch: Change)
    requires Valid(st) && GoodEnv(env) && c in st.calls && Safe(ch, st.calls[c].flags)
    ensures Valid(Apply(st, env, c, ch))
  {
    var call, r := st.calls[c], Apply(st, env, c, ch);
    forall t | 0 <= t < ISUP_MAX_TIMERS && r.calls[c].timer[t] > -1
      ensures GuardedBy(r.calls[c].flags, t)
    {
      if t in ch.start {
        var i :| 0 <= i < |ch.start| && ch.start[i] == t;
        assert GuardedBy(call.flags + ch.add - ch.drop, ch.start[i]);
      } else {
        assert GuardedBy(call.flags, t);
      }
    }
    KeepsIsValid(st, r, c);
  }

  /** Flags after each change. */
  function Flags(flags: set<Flag>, ch: Change): set<Flag> { flags + ch.add - ch.drop }

  predicate SafeAll(chs: seq<Change>, flags: set<Flag>)
    decreases |chs|
  {
    chs == [] || (Safe(chs[0], flags) && SafeAll(chs[1..], Flags(flags, chs[0])))
  }

  function ApplyAll(st: St, env: Env, c: nat, chs: seq<Change>): (r: St)
    requires Valid(st) && GoodEnv(env) && c in st.calls && SafeAll(chs, st.calls[c].flags)
    ensures Valid(r) && r.calls.Keys == st.calls.Keys
    ensures forall d :: d in st.calls && d != c ==> r.calls[d] == st.calls[d]
    ensures r.calls[c].flags == FlagsAfter(st.calls[c].flags, chs)
    decreases |chs|
  {
    if chs == [] then st
    else
      ApplyKeeps(st, env, c, chs[0]);
      ApplyAll(Apply(st, env, c, chs[0]), env, c, chs[1..])
  }

  function FlagsAfter(flags: set<Flag>, chs: seq<Change>): set<Flag>
    decreases |chs|
  {
    if chs == [] then flags else FlagsAfter(Flags(flags, chs[0]), chs[1..])
  }

  predicate SafeDecision(d: Decision, flags: set<Flag>) {
    d.Changes? ==> SafeAll(d.changes, flags)
  }

  function Carry(st: St, env: Env, c: nat, d: Decision): (r: St)
    requires Valid(st) && GoodEnv(env) && c in st.calls && SafeDecision(d, st.calls[c].flags)
    ensures Valid(r)
    ensures forall e :: e != c ==> (e in r.calls <==> e in st.calls) && (e in st.calls ==> r.calls[e] == st.calls[e])
    ensures c in r.calls <==> d.Changes?
    ensures d.Changes? ==> r.calls[c].flags == FlagsAfter(st.calls[c].flags, d.changes)
  {
    match d
    case Forget => FreeCall(st, c)
    case Changes(chs) => ApplyAll(st, env, c, chs)
  }
}
