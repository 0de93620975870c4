/** What starting and stopping timers must bring about: which slot of the table a timer gets, when it
    is due, and that nothing else in the table is touched. */
module IsupEffects {
  import opened Scheduler
  import opened IsupSpec
  import opened Options

  /** The slots that can still be armed. */
  function FreeSlots(slots: seq<Slot<Owner>>): set<int>
    requires |slots| == MAX_SCHED
  {
    set y | 1 <= y < MAX_SCHED && slots[y].Free?
  }

  /** Timer t of call c runs: its field names a slot armed for it, due the configured time after now. */
  predicate Runs(st: St, env: Env, c: nat, t: nat)
    requires GoodEnv(env) && t < ISUP_MAX_TIMERS
  {
    && |st.slots| == MAX_SCHED && c in st.calls && t < |st.calls[c].timer|
    && var x := st.calls[c].timer[t];
       1 <= x < MAX_SCHED && st.slots[x] == Armed(Deadline(env.now, env.ms[t]), IsupTimer(c, t))
  }

  /** The real time for which a running timer is armed. */
  function DueAt(st: St, c: nat, t: nat): int
    requires c in st.calls && t < |st.calls[c].timer| && 0 <= st.calls[c].timer[t] < |st.slots|
    requires st.slots[st.calls[c].timer[t]].Armed?
  {
    Micros(st.slots[st.calls[c].timer[t]].when)
  }

  /** Slots armed for anything but these timers of c are as they were, and none other is armed anew. */
  ghost predicate Spares(st: St, r: St, c: nat, ts: set<nat>) {
    && |r.slots| == |st.slots| == MAX_SCHED
    && (forall y :: 0 <= y < MAX_SCHED && st.slots[y].Armed? && !Holds(st.slots[y], c, ts) ==> r.slots[y] == st.slots[y])
    && (forall y :: 0 <= y < MAX_SCHED && r.slots[y].Armed? ==> r.slots[y] == st.slots[y] || Holds(r.slots[y], c, ts))
  }

  lemma {:induction false} FirstFreeIsFree(slots: seq<Slot<Owner>>, x: nat)
    requires |slots| == MAX_SCHED && 1 <= x <= MAX_SCHED
    ensures FirstFree(slots, x) == MAX_SCHED <==> forall y :: x <= y < MAX_SCHED ==> slots[y].Armed?
    ensures FirstFree(slots, 1) == MAX_SCHED <==> FreeSlots(slots) == {}
    decreases MAX_SCHED - x
  {
    var f := FirstFree(slots, 1);
    if f < MAX_SCHED { assert f in FreeSlots(slots); }
  }

  /** Stopping frees the slots of these timers and no other, and leaves the other fields alone. */
  lemma StopIsExact(st: St, c: nat, ts: set<nat>)
    requires Agrees(st) && c in st.calls
    ensures var r := Stop(st, c, ts);
      && Spares(st, r, c, ts) && |r.calls[c].timer| == |st.calls[c].timer| == ISUP_MAX_TIMERS
      && r.calls[c].flags == st.calls[c].flags && Only(st, r, c)
      && (forall t :: 0 <= t < ISUP_MAX_TIMERS ==> r.calls[c].timer[t] == if t in ts then -1 else st.calls[c].timer[t])
      && (forall y :: 0 <= y < MAX_SCHED && st.slots[y].Free? ==> r.slots[y].Free?)
      && FreeSlots(st.slots) <= FreeSlots(r.slots)
  {
    TimersOf(st, c);
  }

  /** Stopping a running timer frees a slot that can be armed again. */
  lemma StoppedSlotIsFree(st: St, c: nat, t: nat)
    requires Agrees(st) && c in st.calls && t < |st.calls[c].timer| && st.calls[c].timer[t] > -1
    ensures st.calls[c].timer[t] in FreeSlots(Stop(st, c, {t}).slots)
  {
    assert CallAgrees(st.slots, c, st.calls[c]);
  }

  /** Starting a timer touches no other. */
  lemma StartSpares(st: St, env: Env, c: nat, t: nat)
    requires Agrees(st) && GoodEnv(env) && c in st.calls && t < ISUP_MAX_TIMERS
    ensures var r := StartTimer(st, env, c, t);
      && Spares(st, r, c, {t}) && |st.calls[c].timer| == |r.calls[c].timer| == ISUP_MAX_TIMERS
      && forall u :: 0 <= u < ISUP_MAX_TIMERS && u != t ==> r.calls[c].timer[u] == st.calls[c].timer[u]
  {
    hide Agrees, Stop, Deadline, Schedule;
    StopIsExact(st, c, {t});
    TimersOf(st, c);
    DeadlineIsExact(env.now, env.ms[t]);
  }

  /** Starting a timer: nothing at all when it is switched off; else it runs, due the configured time
      from now, unless the table is full once its own slot is free. It touches no other timer. */
  lemma StartIsExact(st: St, env: Env, c: nat, t: nat)
    requires Agrees(st) && GoodEnv(env) && c in st.calls && t < ISUP_MAX_TIMERS
    ensures var r := StartTimer(st, env, c, t);
      && |st.calls[c].timer| == |r.calls[c].timer| == ISUP_MAX_TIMERS
      && (env.ms[t] == 0 ==> r == st)
      && (env.ms[t] > 0 ==> var full := FreeSlots(Stop(st, c, {t}).slots) == {};
            && (full ==> r == Stop(st, c, {t}) && r.calls[c].timer[t] == -1)
            && (!full ==> Runs(r, env, c, t) && DueAt(r, c, t) == Micros(env.now) + env.ms[t] * 1000))
      && Spares(st, r, c, {t})
      && forall u :: 0 <= u < ISUP_MAX_TIMERS && u != t ==> r.calls[c].timer[u] == st.calls[c].timer[u]
  {
    hide Agrees, Stop, Deadline, Schedule, Spares, FreeSlots;
    StartSpares(st, env, c, t);
    StopIsExact(st, c, {t});
    StoppedThere(st, c, t);
    FirstFreeIsFree(Stop(st, c, {t}).slots, 1);
    DeadlineIsExact(env.now, env.ms[t]);
  }

  lemma StoppedThere(st: St, c: nat, t: nat)
    requires Agrees(st) && c in st.calls && t < ISUP_MAX_TIMERS
    ensures |Stop(st, c, {t}).slots| == MAX_SCHED
  {
  }

  /** A timer that is running can always be started anew. */
  lemma RestartRuns(st: St, env: Env, c: nat, t: nat)
    requires Agrees(st) && GoodEnv(env) && c in st.calls && t < |st.calls[c].timer| && t < ISUP_MAX_TIMERS
    requires st.calls[c].timer[t] > -1 && env.ms[t] > 0
    ensures Runs(StartTimer(st, env, c, t), env, c, t)
  {
    hide Agrees, Stop;
    StoppedSlotIsFree(st, c, t);
    StartIsExact(st, env, c, t);
  }

  /** A start uses up at most one free slot. */
  lemma StartUsesOne(st: St, env: Env, c: nat, t: nat)
    requires Agrees(st) && GoodEnv(env) && c in st.calls && t < ISUP_MAX_TIMERS
    ensures |FreeSlots(StartTimer(st, env, c, t).slots)| >= |FreeSlots(st.slots)| - 1
    ensures env.ms[t] > 0 && FreeSlots(st.slots) != {} ==> Runs(StartTimer(st, env, c, t), env, c, t)
  {
    hide Agrees, Stop, Deadline, FreeSlots, Spares;
    SlotsThere(st);
    var s, r := Stop(st, c, {t}), StartTimer(st, env, c, t);
    StopIsExact(st, c, {t});
    StartIsExact(st, env, c, t);
    if FreeSlots(st.slots) != {} { NotEmptier(FreeSlots(st.slots), FreeSlots(s.slots)); }
    SubsetIsSmaller(FreeSlots(st.slots), FreeSlots(s.slots));
    FirstFreeIsFree(s.slots, 1);
    var x := FirstFree(s.slots, 1);
    if env.ms[t] > 0 && x < MAX_SCHED {
      ArmingUsesOne(s.slots, x, r.slots[x]);
    }
  }

  lemma ArmingUsesOne(slots: seq<Slot<Owner>>, x: nat, slot: Slot<Owner>)
    requires |slots| == MAX_SCHED && 1 <= x < MAX_SCHED && slots[x].Free? && slot.Armed?
    ensures |FreeSlots(slots[x := slot])| == |FreeSlots(slots)| - 1
  {
    assert FreeSlots(slots[x := slot]) == FreeSlots(slots) - {x as int};
  }

  lemma {:induction false} SubsetIsSmaller(a: set<int>, b: set<int>)
    requires a <= b
    ensures |a| <= |b|
  {
    assert b == a + (b - a);
  }

  /** A timer that runs goes on running while others of the call are started. */
  lemma OthersRunOn(st: St, env: Env, c: nat, t: nat, u: nat)
    requires Agrees(st) && GoodEnv(env) && c in st.calls && t < ISUP_MAX_TIMERS && u < ISUP_MAX_TIMERS && t != u
    requires Runs(st, env, c, t)
    ensures Runs(StartTimer(st, env, c, u), env, c, t)
  {
    hide Agrees, StartTimer, Deadline, Stop;
    StartIsExact(st, env, c, u);
    assert !Holds(st.slots[st.calls[c].timer[t]], c, {u});
  }

  /** The timers among ts that are not running. */
  function Idle(st: St, c: nat, ts: seq<nat>): (r: set<nat>)
    requires c in st.calls
    ensures r <= Elements(ts)
  {
    set t | t in ts && !(t < |st.calls[c].timer| && st.calls[c].timer[t] > -1)
  }

  /** A start that arms an idle timer uses up a free slot and one idle timer; others use up neither. */
  lemma StartKeepsRoom(st: St, env: Env, c: nat, ts: seq<nat>)
    requires Agrees(st) && GoodEnv(env) && c in st.calls && ts != [] && ts[0] < ISUP_MAX_TIMERS
    requires |FreeSlots(st.slots)| >= |Idle(st, c, ts)|
    ensures var s := StartTimer(st, env, c, ts[0]);
      && |FreeSlots(s.slots)| >= |Idle(s, c, ts[1..])|
      && |FreeSlots(s.slots)| - |Idle(s, c, ts[1..])| >= |FreeSlots(st.slots)| - |Idle(st, c, ts)|
      && (env.ms[ts[0]] > 0 ==> Runs(s, env, c, ts[0]))
  {
    hide Agrees, StartTimer, FreeSlots, Stop, Spares;
    SlotsThere(st);
    TimersOf(st, c);
    var t := ts[0];
    var s := StartTimer(st, env, c, t);
    StartIsExact(st, env, c, t);
    StartUsesOne(st, env, c, t);
    if st.calls[c].timer[t] > -1 {
      RestartUsesNone(st, env, c, t);
      if env.ms[t] > 0 { RestartRuns(st, env, c, t); }
      SmallerIdle(Idle(s, c, ts[1..]), Idle(st, c, ts));
    } else {
      assert t in Idle(st, c, ts);
      if env.ms[t] > 0 {
        NonEmptyByMember(Idle(st, c, ts), t);
        NotEmpty(FreeSlots(st.slots));
        RunningIsSet(s, env, c, t);
        assert Idle(s, c, ts[1..]) <= Idle(st, c, ts) - {t};
        SmallerIdle(Idle(s, c, ts[1..]), Idle(st, c, ts) - {t});
      } else {
        SmallerIdle(Idle(s, c, ts[1..]), Idle(st, c, ts));
      }
    }
  }

  lemma NonEmptyByMember(a: set<nat>, t: nat)
    requires t in a
    ensures |a| > 0 && |a - {t}| == |a| - 1
  {
  }

  lemma SmallerIdle(a: set<nat>, b: set<nat>)
    requires a <= b
    ensures |a| <= |b|
  {
    assert b == a + (b - a);
  }

  /** Starting a running timer anew uses up no slot. */
  lemma RestartUsesNone(st: St, env: Env, c: nat, t: nat)
    requires Agrees(st) && GoodEnv(env) && c in st.calls && t < ISUP_MAX_TIMERS && t < |st.calls[c].timer|
    requires st.calls[c].timer[t] > -1
    ensures |FreeSlots(StartTimer(st, env, c, t).slots)| >= |FreeSlots(st.slots)|
  {
    hide Agrees, Stop, Deadline, Spares, FreeSlots;
    SlotsThere(st);
    var s, r := Stop(st, c, {t}), StartTimer(st, env, c, t);
    StoppedUsesLess(st, c, t);
    FirstFreeIsFree(s.slots, 1);
    var x := FirstFree(s.slots, 1);
    if env.ms[t] > 0 && x < MAX_SCHED {
      ArmingUsesOne(s.slots, x, r.slots[x]);
    }
  }

  lemma StoppedUsesLess(st: St, c: nat, t: nat)
    requires Agrees(st) && c in st.calls && t < |st.calls[c].timer| && st.calls[c].timer[t] > -1
    ensures |st.slots| == MAX_SCHED && |Stop(st, c, {t}).slots| == MAX_SCHED
    ensures |FreeSlots(Stop(st, c, {t}).slots)| >= |FreeSlots(st.slots)| + 1
  {
    hide Stop;
    var s := Stop(st, c, {t});
    var x := st.calls[c].timer[t];
    SlotsThere(st);
    assert CallAgrees(st.slots, c, st.calls[c]);
    StopIsExact(st, c, {t});
    StoppedSlotIsFree(st, c, t);
    assert x !in FreeSlots(st.slots);
    SubsetIsSmaller(FreeSlots(st.slots) + {x}, FreeSlots(s.slots));
  }

  /** Timers started in a row, with a free slot for each that is idle: all of them run, and no more slots
      are used up than that. */
  lemma {:induction false} AllStart(st: St, env: Env, c: nat, ts: seq<nat>, t: nat)
    requires Agrees(st) && GoodEnv(env) && c in st.calls && forall i :: 0 <= i < |ts| ==> ts[i] < ISUP_MAX_TIMERS
    requires t < ISUP_MAX_TIMERS && |FreeSlots(st.slots)| >= |Idle(st, c, ts)|
    ensures env.ms[t] > 0 && (Runs(st, env, c, t) || t in ts) ==> Runs(StartAll(st, env, c, ts), env, c, t)
    ensures |FreeSlots(StartAll(st, env, c, ts).slots)| >= |FreeSlots(st.slots)| - |Idle(st, c, ts)|
    decreases |ts|
  {
    hide Agrees, StartTimer, Runs, FreeSlots, Idle;
    SlotsThere(st);
    if ts != [] {
      var s := StartTimer(st, env, c, ts[0]);
      StartKeepsRoom(st, env, c, ts);
      if env.ms[t] > 0 && Runs(st, env, c, t) && t != ts[0] { OthersRunOn(st, env, c, t, ts[0]); }
      AllStart(s, env, c, ts[1..], t);
    }
  }

  lemma RunningIsSet(st: St, env: Env, c: nat, t: nat)
    requires GoodEnv(env) && t < ISUP_MAX_TIMERS && Runs(st, env, c, t)
    ensures c in st.calls && t < |st.calls[c].timer| && st.calls[c].timer[t] > -1
  {
  }

  lemma NotEmptier(a: set<int>, b: set<int>)
    requires a <= b && a != {}
    ensures b != {}
  {
  }

  lemma NotEmpty(a: set<int>)
    requires |a| > 0
    ensures a != {}
  {
  }

  /** Starting timers touches no other slot and no other field. */
  lemma {:induction false} StartAllSpares(st: St, env: Env, c: nat, ts: seq<nat>)
    requires Agrees(st) && GoodEnv(env) && c in st.calls && forall i :: 0 <= i < |ts| ==> ts[i] < ISUP_MAX_TIMERS
    ensures Spares(st, StartAll(st, env, c, ts), c, Elements(ts))
    decreases |ts|
  {
    hide Agrees, StartTimer;
    SlotsThere(st);
    if ts != [] {
      var s := StartTimer(st, env, c, ts[0]);
      StartIsExact(st, env, c, ts[0]);
      StartAllSpares(s, env, c, ts[1..]);
    }
  }

  lemma SlotsThere(st: St)
    requires Agrees(st)
    ensures |st.slots| == MAX_SCHED
  {
  }

  // ----- what a change does to its call

  /** The call after stopping, starting and changing flags: everything but room in the table is determined. */
  ghost predicate Became(st: St, r: St, env: Env, c: nat, stop: set<nat>, start: set<nat>, flags: set<Flag>)
    requires GoodEnv(env)
  {
    && c in st.calls && c in r.calls && r.calls.Keys == st.calls.Keys && r.calls[c].flags == flags
    && (forall d :: d in st.calls && d != c ==> r.calls[d] == st.calls[d])
    && |r.calls[c].timer| == |st.calls[c].timer| == ISUP_MAX_TIMERS
    && (forall t :: 0 <= t < ISUP_MAX_TIMERS && t !in start ==>
          r.calls[c].timer[t] == if t in stop then -1 else st.calls[c].timer[t])
    && Spares(st, r, c, stop + start)
    && |st.slots| == |r.slots| == MAX_SCHED
    && (|FreeSlots(st.slots)| >= |start| ==>
          && |FreeSlots(r.slots)| >= |FreeSlots(st.slots)| - |start|
          && forall t :: t in start && t < ISUP_MAX_TIMERS && env.ms[t] > 0 ==> Runs(r, env, c, t))
  }

  /** Each change of the specification makes its call become what it says. */
  lemma ChangeIsExact(st: St, env: Env, c: nat, ch: Change)
    requires Agrees(st) && GoodEnv(env) && c in st.calls && InRange(ch)
    ensures Became(st, Apply(st, env, c, ch), env, c, ch.stop, Elements(ch.start), st.calls[c].flags + ch.add - ch.drop)
  {
    hide Agrees, Stop, StartAll, FreeSlots, Runs, Spares;
    var s := Stop(st, c, ch.stop);
    var r := StartAll(s, env, c, ch.start);
    var ts := Elements(ch.start);
    StopIsExact(st, c, ch.stop);
    SubsetIsSmaller(FreeSlots(st.slots), FreeSlots(s.slots));
    StartAllSpares(s, env, c, ch.start);
    SparedTwice(st, s, r, c, ch.stop, ts);
    SlotsThere(st);
    if |FreeSlots(st.slots)| >= |ts| {
      SmallerIdle(Idle(s, c, ch.start), ts);
      AllStart(s, env, c, ch.start, 0);
      forall t | t in ts && t < ISUP_MAX_TIMERS && env.ms[t] > 0 ensures Runs(Apply(st, env, c, ch), env, c, t) {
        AllStart(s, env, c, ch.start, t);
        FlagsDoNotMatter(r, env, c, t, st.calls[c].flags + ch.add - ch.drop);
      }
    }
    FlagsSpare(st, r, c, ch.stop + ts, st.calls[c].flags + ch.add - ch.drop);
  }

  lemma SparedTwice(st: St, s: St, r: St, c: nat, a: set<nat>, b: set<nat>)
    requires Spares(st, s, c, a) && Spares(s, r, c, b)
    ensures Spares(st, r, c, a + b)
  {
  }

  lemma FlagsDoNotMatter(st: St, env: Env, c: nat, t: nat, flags: set<Flag>)
    requires Agrees(st) && GoodEnv(env) && c in st.calls && t < ISUP_MAX_TIMERS && Runs(st, env, c, t)
    ensures Runs(Flagged(st, c, flags), env, c, t)
  {
    hide Agrees;
  }

  lemma FlagsSpare(st: St, r: St, c: nat, ts: set<nat>, flags: set<Flag>)
    requires Agrees(r) && c in r.calls && Spares(st, r, c, ts)
    ensures Spares(st, Flagged(r, c, flags), c, ts)
  {
    hide Agrees;
  }

  lemma DisjointSize(a: set<nat>, b: set<nat>)
    requires a !! b
    ensures |a + b| == |a| + |b|
  {
  }

  /** Timers started first run on if the second change leaves them alone. */
  lemma RunsOn(st: St, r: St, env: Env, c: nat, stop: set<nat>, start: set<nat>, flags: set<Flag>, t: nat)
    requires GoodEnv(env) && Became(st, r, env, c, stop, start, flags) && t < ISUP_MAX_TIMERS && t !in stop && t !in start
    requires Runs(st, env, c, t)
    ensures Runs(r, env, c, t)
  {
    assert !Holds(st.slots[st.calls[c].timer[t]], c, stop + start);
  }

  /** Two changes in a row, the second leaving alone what the first started. */
  lemma BecameTwice(st: St, s: St, r: St, env: Env, c: nat, stop1: set<nat>, start1: set<nat>, flags1: set<Flag>,
                    stop2: set<nat>, start2: set<nat>, flags2: set<Flag>)
    requires GoodEnv(env) && start1 !! stop2 && start1 !! start2
    requires Became(st, s, env, c, stop1, start1, flags1) && Became(s, r, env, c, stop2, start2, flags2)
    ensures Became(st, r, env, c, stop1 + stop2, start1 + start2, flags2)
  {
    hide Runs, FreeSlots, Spares;
    DisjointSize(start1, start2);
    SparedTwice(st, s, r, c, stop1 + start1, stop2 + start2);
    assert stop1 + start1 + (stop2 + start2) == stop1 + stop2 + (start1 + start2);
    forall t | t in start1 && t < ISUP_MAX_TIMERS && Runs(s, env, c, t) ensures Runs(r, env, c, t) {
      RunsOn(s, r, env, c, stop2, start2, flags2, t);
    }
  }

  /** The slot of an expired timer is freed and its field reset. */
  lemma StoppedBecame(st: St, env: Env, c: nat, ts: set<nat>)
    requires Agrees(st) && GoodEnv(env) && c in st.calls
    ensures Became(st, Stop(st, c, ts), env, c, ts, {}, st.calls[c].flags)
  {
    hide Agrees, FreeSlots, Spares, Stop;
    StopIsExact(st, c, ts);
    SlotsThere(st);
    SlotsThere(Stop(st, c, ts));
    SubsetIsSmaller(FreeSlots(st.slots), FreeSlots(Stop(st, c, ts).slots));
    assert ts + {} == ts;
  }
}
