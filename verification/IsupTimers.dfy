/** The timer primitives of ISUP on the shared table, updating calls and slots in place, each
    proved against its function in IsupSpec; and the release built from them. */
module IsupTimers {
  import opened Scheduler
  import opened IsupSpec
  import IsupCalls

  lemma StopTwice(st: St, c: nat, a: set<nat>, b: set<nat>)
    requires Agrees(st) && c in st.calls
    ensures Stop(Stop(st, c, a), c, b) == Stop(st, c, a + b)
  {
    var s1, s2, s := Stop(st, c, a), Stop(Stop(st, c, a), c, b), Stop(st, c, a + b);
    assert s2.slots == s.slots;
    assert s2.calls[c].timer == s.calls[c].timer;
    assert s2.calls == s.calls;
  }

  /** Stopping a timer that is not running changes nothing. */
  lemma StopIdle(st: St, c: nat, t: nat)
    requires Agrees(st) && c in st.calls && t < ISUP_MAX_TIMERS && st.calls[c].timer[t] == -1
    ensures Stop(st, c, {t}) == st
  {
    var s := Stop(st, c, {t});
    forall x | 0 <= x < MAX_SCHED ensures !Holds(st.slots[x], c, {t}) {
    }
    assert s.slots == st.slots;
    assert s.calls[c].timer == st.calls[c].timer;
    assert s.calls == st.calls;
  }

  /** A running timer holds exactly the slot in its field. */
  lemma StopRunning(st: St, c: nat, t: nat)
    requires Agrees(st) && c in st.calls && t < ISUP_MAX_TIMERS && st.calls[c].timer[t] > -1
    ensures var s := Stop(st, c, {t}); var call := st.calls[c];
      && s.slots == st.slots[call.timer[t] := Free]
      && s.calls == st.calls[c := call.(timer := call.timer[t := -1])]
  {
    var s := Stop(st, c, {t});
    assert CallAgrees(st.slots, c, st.calls[c]);
    forall x | 0 <= x < MAX_SCHED ensures s.slots[x] == st.slots[st.calls[c].timer[t] := Free][x] {
      if Holds(st.slots[x], c, {t}) {
        assert st.calls[c].timer[st.slots[x].data.timer] == x;
      }
    }
    assert s.calls[c].timer == st.calls[c].timer[t := -1];
  }

  class Isup {
    const table: Table<Owner>
    var calls: map<nat, Call>

    constructor (table: Table<Owner>)
      requires table.Valid() && forall x :: 0 <= x < MAX_SCHED ==> table.slots[x] == Free
      ensures this.table == table && calls == map[] && Valid()
    {
      this.table := table;
      calls := map[];
    }

    ghost predicate Valid()
      reads this, table, table.slots
    {
      IsupSpec.Valid(View())
    }

    ghost function View(): St
      reads this, table, table.slots
    {
      St(table.slots[..], calls)
    }

    method StopTimer(c: nat, t: nat)
      requires Agrees(View()) && c in calls && t < ISUP_MAX_TIMERS
      modifies this, table.slots
      ensures Agrees(View()) && c in calls
      ensures View() == Stop(old(View()), c, {t})
    {
      var call := calls[c];
      assert CallAgrees(table.slots[..], c, call);
      if call.timer[t] > -1 {
        StopRunning(View(), c, t);
        var gone := table.ScheduleDel(call.timer[t]);
        calls := calls[c := call.(timer := call.timer[t := gone])];
      } else {
        StopIdle(View(), c, t);
      }
    }

    method StopAllTimers(c: nat)
      requires Agrees(View()) && c in calls
      modifies this, table.slots
      ensures Agrees(View()) && c in calls
      ensures View() == Stop(old(View()), c, ALL_TIMERS)
    {
      StopNothing(View(), c);
      for x := 0 to ISUP_MAX_TIMERS
        invariant View() == Stop(old(View()), c, Below(x))
      {
        StopTwice(old(View()), c, Below(x), {x});
        assert Below(x) + {x} == Below(x + 1);
        StopTimer(c, x);
      }
    }

    method StartTimer(env: Env, c: nat, t: nat)
      requires Agrees(View()) && GoodEnv(env) && c in calls && t < ISUP_MAX_TIMERS
      modifies this, table.slots
      ensures View() == IsupSpec.StartTimer(old(View()), env, c, t)
    {
      if env.ms[t] == 0 {
        return;
      }
      StopTimer(c, t);
      var x := table.ScheduleEvent(env.now, env.ms[t], IsupTimer(c, t));
      if x > -1 {
        calls := calls[c := calls[c].(timer := calls[c].timer[t := x])];
      }
    }

    method FreeCall(c: nat)
      requires Agrees(View()) && c in calls
      modifies this, table.slots
      ensures View() == IsupSpec.FreeCall(old(View()), c)
    {
      StopAllTimers(c);
      calls := calls - {c};
    }

    /** Several calls of isup_stop_timer. */
    method StopTimers(c: nat, ts: seq<nat>)
      requires Agrees(View()) && c in calls && forall i :: 0 <= i < |ts| ==> ts[i] < ISUP_MAX_TIMERS
      modifies this, table.slots
      ensures Agrees(View()) && c in calls
      ensures View() == Stop(old(View()), c, Elements(ts))
    {
      StopNothing(View(), c);
      assert Elements(ts[..0]) == {};
      for i := 0 to |ts|
        invariant View() == Stop(old(View()), c, Elements(ts[..i]))
      {
        StopTwice(old(View()), c, Elements(ts[..i]), {ts[i]});
        assert Elements(ts[..i]) + {ts[i]} == Elements(ts[..i+1]);
        StopTimer(c, ts[i]);
      }
      assert ts[..|ts|] == ts;
    }

    method StartBoth(env: Env, c: nat, t: nat, u: nat)
      requires Agrees(View()) && GoodEnv(env) && c in calls && t < ISUP_MAX_TIMERS && u < ISUP_MAX_TIMERS
      modifies this, table.slots
      ensures Agrees(View()) && c in calls
      ensures View() == IsupSpec.StartTimer(IsupSpec.StartTimer(old(View()), env, c, t), env, c, u)
    {
      StartTimer(env, c, t);
      StartTimer(env, c, u);
    }

    method SetFlags(c: nat, flags: set<Flag>)
      requires Agrees(View()) && c in calls
      modifies this
      ensures Agrees(View()) && c in calls
      ensures View() == Flagged(old(View()), c, flags)
    {
      calls := calls[c := calls[c].(flags := flags)];
    }

    /** isup_rel once mtp3 took the message */
    method Released(env: Env, c: nat)
      requires Agrees(View()) && GoodEnv(env) && c in calls
      modifies this, table.slots
      ensures View() == Apply(old(View()), env, c, IsupCalls.RELEASE)
    {
      ghost var before := View();
      StopTimers(c, [T7, T8, T27, T2, T6, T35, T10]);
      StartBoth(env, c, T1, T5);
      StoppedOnRelease();
      ReleaseSteps(before, env, c);
      SetFlags(c, calls[c].flags + {SENT_REL} - (CALL_PENDING + CALL_CONNECTED));
    }

    /** isup_rel */
    method Rel(w: IsupCalls.World, c: nat)
      requires Valid() && GoodEnv(w.env) && c in calls
      modifies this, table.slots
      ensures Valid()
      ensures View() == IsupCalls.Step(old(View()), IsupCalls.Ask(c, IsupCalls.REL, w))
    {
      IsupCalls.ReleaseIsOneChange(View(), c, w);
      if w.sent {
        Released(w.env, c);
      } else {
        FreeCall(c);
      }
    }
  }

  lemma StoppedOnRelease()
    ensures Elements([T7, T8, T27, T2, T6, T35, T10]) == IsupCalls.ON_RELEASE
  {
  }

  /** The release, timer by timer. */
  lemma ReleaseSteps(st: St, env: Env, c: nat)
    requires Agrees(st) && GoodEnv(env) && c in st.calls
    ensures var s1 := Stop(st, c, IsupCalls.ON_RELEASE);
      var s3 := IsupSpec.StartTimer(IsupSpec.StartTimer(s1, env, c, T1), env, c, T5);
      Apply(st, env, c, IsupCalls.RELEASE)
        == Flagged(s3, c, s3.calls[c].flags + {SENT_REL} - (CALL_PENDING + CALL_CONNECTED))
  {
    hide Agrees, Stop, IsupSpec.StartTimer;
    StartsTwo(Stop(st, c, IsupCalls.ON_RELEASE), env, c, T1, T5);
  }

  lemma StartsTwo(st: St, env: Env, c: nat, t: nat, u: nat)
    requires Agrees(st) && GoodEnv(env) && c in st.calls && t < ISUP_MAX_TIMERS && u < ISUP_MAX_TIMERS
    ensures StartAll(st, env, c, [t, u]) == IsupSpec.StartTimer(IsupSpec.StartTimer(st, env, c, t), env, c, u)
  {
    var s := IsupSpec.StartTimer(st, env, c, t);
    assert [t, u][1..] == [u] && [u][1..] == [];
    assert StartAll(s, env, c, [u]) == IsupSpec.StartTimer(s, env, c, u);
  }

  lemma StopNothing(st: St, c: nat)
    requires Agrees(st) && c in st.calls
    ensures Stop(st, c, Below(0)) == st && Stop(st, c, {}) == st
  {
    var s := Stop(st, c, {});
    assert s.slots == st.slots && s.calls[c].timer == st.calls[c].timer;
    assert s.calls == st.calls;
    assert Below(0) == {};
  }
}
