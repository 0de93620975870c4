/** The timer table: 512 slots, each free or armed with a deadline and an owner. */
module Scheduler {
  const MAX_SCHED := 512
  const MILLION := 1_000_000

  datatype Time = Time(sec: int, usec: int)
  datatype Slot<D> = Free | Armed(when: Time, data: D)

  /** Real time in microseconds. */
  function Micros(t: Time): int { t.sec * MILLION + t.usec }

  /** What gettimeofday returns. */
  predicate Clock(t: Time) { 0 <= t.usec < MILLION }

  /** What a slot may hold: the carry leaves exactly a million microseconds alone. */
  predicate Stored(t: Time) { 0 <= t.usec <= MILLION }

  /** Division and remainder truncate towards zero. */
  function Quot(n: int, d: int): int
    requires d > 0
  {
    if n >= 0 then n / d else -((-n) / d)
  }

  function Rem(n: int, d: int): int
    requires d > 0
  {
    n - Quot(n, d) * d
  }

  function Deadline(now: Time, ms: int): Time {
    var t := Time(now.sec + Quot(ms, 1000), now.usec + Rem(ms, 1000) * 1000);
    if t.usec > MILLION then Time(t.sec + 1, t.usec - MILLION) else t
  }

  /** The test of ss7_schedule_run, and the one of ss7_schedule_next. */
  predicate Due(when: Time, tv: Time) {
    when.sec < tv.sec || (when.sec == tv.sec && when.usec <= tv.usec)
  }

  predicate Later(a: Time, b: Time) {
    a.sec > b.sec || (a.sec == b.sec && a.usec > b.usec)
  }

  /** A deadline is the clock plus the delay, also for a negative delay; its microseconds are
      then negative exactly when the clock has fewer than the remainder takes away. */
  lemma DeadlineIsExact(now: Time, ms: int)
    requires Clock(now)
    ensures Micros(Deadline(now, ms)) == Micros(now) + ms * 1000
    ensures -MILLION < Deadline(now, ms).usec <= MILLION
    ensures Stored(Deadline(now, ms)) <==> ms >= 0 || now.usec >= (-ms) % 1000 * 1000
    ensures ms >= 0 ==> Stored(Deadline(now, ms))
  {
    RemIsShort(ms);
  }

  lemma RemIsShort(ms: int)
    ensures -1000 < Rem(ms, 1000) < 1000 && (ms >= 0 ==> Rem(ms, 1000) >= 0) && (ms <= 0 ==> Rem(ms, 1000) <= 0)
    ensures ms < 0 ==> Rem(ms, 1000) == -((-ms) % 1000)
  {
  }

  /** The lexicographic test is the comparison of real times, although a slot may hold a
      million microseconds. */
  lemma DueRespectsTime(when: Time, tv: Time)
    requires Stored(when) && Clock(tv)
    ensures Due(when, tv) <==> Micros(when) <= Micros(tv)
  {
  }

  /** For any deadline a delay can make, negative ones too: the test fails only by missing a slot
      whose time came within the second before the one it is stored under. */
  lemma DueIsLateExactly(when: Time, tv: Time)
    requires -MILLION < when.usec <= MILLION && Clock(tv)
    ensures Due(when, tv) ==> Micros(when) <= Micros(tv)
    ensures (Due(when, tv) <==> Micros(when) <= Micros(tv)) <==>
      !(when.sec == tv.sec + 1 && MILLION + when.usec <= tv.usec)
  {
  }

  /** So is the test for the earliest slot, but for two slots of the same time of which one holds a million. */
  lemma LaterRespectsTime(a: Time, b: Time)
    requires Stored(a) && Stored(b)
    ensures !Later(a, b) ==> Micros(a) <= Micros(b)
    ensures Later(a, b) ==> Micros(b) <= Micros(a)
    ensures Later(a, b) <==> Micros(b) < Micros(a) || (Micros(a) == Micros(b) && a.sec == b.sec + 1)
  {
  }

  ghost predicate Usable<D>(s: seq<Slot<D>>) {
    && |s| == MAX_SCHED && s[0].Free?
    && forall x :: 0 <= x < |s| && s[x].Armed? ==> Stored(s[x].when)
  }

  /** The first free slot from x on, or MAX_SCHED. Slot 0 is never used. */
  function FirstFree<D>(s: seq<Slot<D>>, x: nat): (r: nat)
    requires x <= |s| == MAX_SCHED
    ensures x <= r <= MAX_SCHED
    ensures r < MAX_SCHED ==> s[r].Free?
    ensures forall y :: x <= y < r ==> s[y].Armed?
    decreases MAX_SCHED - x
  {
    if x == MAX_SCHED || s[x].Free? then x else FirstFree(s, x + 1)
  }

  /** The table and the slot number after scheduling; -1 when there is no room. */
  function Schedule<D>(s: seq<Slot<D>>, now: Time, ms: int, d: D): (seq<Slot<D>>, int)
    requires |s| == MAX_SCHED
  {
    var x: int := FirstFree(s, 1);
    if x == MAX_SCHED then (s, -1) else (s[x := Armed(Deadline(now, ms), d)], x)
  }

  function Delete<D>(s: seq<Slot<D>>, id: int): seq<Slot<D>>
    requires |s| == MAX_SCHED && id < MAX_SCHED
  {
    if id < 0 then s else s[id := Free]
  }

  /** Deleting frees the slot named and no other, slot 0 like any; a negative number names none. */
  lemma DeleteIsExact<D>(s: seq<Slot<D>>, id: int, x: nat)
    requires x < |s| == MAX_SCHED && id < MAX_SCHED
    ensures Delete(s, id)[x] == if x == id then Free else s[x]
  {
  }

  /** What a callback may do to the table. */
  datatype Op<D> = Arm(now: Time, ms: int, data: D) | Cancel(id: int)

  /** The clock does not run backwards, delays are positive, and slots exist. */
  predicate Sensible<D>(op: Op<D>, tv: Time) {
    match op
    case Arm(now, ms, _) => Clock(now) && Micros(tv) <= Micros(now) && ms > 0
    case Cancel(id) => id < MAX_SCHED
  }

  function Perform<D>(s: seq<Slot<D>>, op: Op<D>): seq<Slot<D>>
    requires |s| == MAX_SCHED && (op.Cancel? ==> op.id < MAX_SCHED)
  {
    match op
    case Arm(now, ms, d) => Schedule(s, now, ms, d).0
    case Cancel(id) => Delete(s, id)
  }

  /** Slots from x on that are armed and due are as before the pass; earlier ones are not due. */
  ghost predicate Pending<D>(s: seq<Slot<D>>, was: seq<Slot<D>>, tv: Time, x: int) {
    && |was| == MAX_SCHED && Usable(s)
    && forall y :: 0 <= y < MAX_SCHED && s[y].Armed? && Due(s[y].when, tv) ==> x <= y && s[y] == was[y]
  }

  ghost predicate Cancels<D>(ops: seq<Op<D>>, y: int) {
    exists i :: 0 <= i < |ops| && ops[i] == Cancel(y)
  }

  /** Slots that were armed and due stay so unless one of the operations cancels them. */
  ghost predicate Spared<D>(s: seq<Slot<D>>, t: seq<Slot<D>>, ops: seq<Op<D>>) {
    && |s| == |t| == MAX_SCHED
    && forall y :: 0 <= y < MAX_SCHED && s[y].Armed? ==> t[y] == s[y] || Cancels(ops, y)
  }

  lemma PerformKeepsPending<D>(s: seq<Slot<D>>, was: seq<Slot<D>>, tv: Time, x: int, op: Op<D>)
    requires Clock(tv) && Sensible(op, tv) && Pending(s, was, tv, x)
    ensures Pending(Perform(s, op), was, tv, x)
    ensures forall y :: 0 <= y < MAX_SCHED && s[y].Armed? && op != Cancel(y) ==> Perform(s, op)[y] == s[y]
  {
    if op.Arm? {
      DeadlineIsExact(op.now, op.ms);
      DueRespectsTime(Deadline(op.now, op.ms), tv);
    }
  }

  class Table<D> {
    var slots: array<Slot<D>>

    ghost predicate Valid()
      reads this, slots
    {
      Usable(slots[..])
    }

    constructor (n: nat)
      requires n == MAX_SCHED
      ensures Valid() && fresh(slots)
      ensures forall x :: 0 <= x < MAX_SCHED ==> slots[x] == Free
    {
      slots := new Slot<D>[n](_ => Free);
    }

    method ScheduleEvent(now: Time, ms: int, d: D) returns (x: int)
      requires Valid() && Clock(now)
      modifies slots
      ensures Valid() <==> x == -1 || Stored(Deadline(now, ms))
      ensures ms >= 0 ==> Valid()
      ensures (slots[..], x) == Schedule(old(slots[..]), now, ms, d)
      ensures x == -1 || (1 <= x < MAX_SCHED && old(slots[x]).Free?)
    {
      x := 1;
      while x < MAX_SCHED && !slots[x].Free?
        invariant 1 <= x <= MAX_SCHED
        invariant FirstFree(slots[..], 1) == FirstFree(slots[..], x)
      {
        x := x + 1;
      }
      if x == MAX_SCHED {
        x := -1;
        return;
      }
      DeadlineIsExact(now, ms);
      var tv := Time(now.sec + Quot(ms, 1000), now.usec + Rem(ms, 1000) * 1000);
      if tv.usec > MILLION {
        tv := Time(tv.sec + 1, tv.usec - MILLION);
      }
      assert tv == Deadline(now, ms);
      slots[x] := Armed(tv, d);
      assert slots[..][x] == Armed(tv, d);
    }

    /** The slot with the earliest deadline, or none when nothing is armed. */
    method ScheduleNext() returns (closest: int)
      requires Valid()
      ensures closest == -1 <==> forall x :: 1 <= x < MAX_SCHED ==> slots[x].Free?
      ensures closest != -1 ==>
        && 1 <= closest < MAX_SCHED && slots[closest].Armed?
        && forall x :: 1 <= x < MAX_SCHED && slots[x].Armed? ==>
             Micros(slots[closest].when) <= Micros(slots[x].when)
    {
      closest := -1;
      var x := 1;
      while x < MAX_SCHED
        invariant 1 <= x <= MAX_SCHED
        invariant closest == -1 <==> forall y :: 1 <= y < x ==> slots[y].Free?
        invariant closest != -1 ==>
          && 1 <= closest < x && slots[closest].Armed?
          && forall y :: 1 <= y < x && slots[y].Armed? ==>
               Micros(slots[closest].when) <= Micros(slots[y].when)
      {
        if slots[x].Armed? {
          assert Stored(slots[..][x].when);
          if closest == -1 {
            closest := x;
          } else {
            assert Stored(slots[..][closest].when);
            LaterRespectsTime(slots[closest].when, slots[x].when);
            if Later(slots[closest].when, slots[x].when) {
              closest := x;
            }
          }
        }
        x := x + 1;
      }
    }

    method ScheduleDel(id: int) returns (gone: int)
      requires Valid() && id < MAX_SCHED
      modifies slots
      ensures Valid() && gone == (if id < 0 then id else -1)
      ensures slots[..] == Delete(old(slots[..]), id)
    {
      if id < 0 {
        return id;
      }
      slots[id] := Free;
      gone := -1;
    }

    /** One callback: any sequence of arming and deleting. */
    method Callback(ops: seq<Op<D>>, ghost was: seq<Slot<D>>, tv: Time, ghost x: int)
      requires Clock(tv) && Pending(slots[..], was, tv, x)
      requires forall i :: 0 <= i < |ops| ==> Sensible(ops[i], tv)
      modifies slots
      ensures Pending(slots[..], was, tv, x) && Spared(old(slots[..]), slots[..], ops)
    {
      for i := 0 to |ops|
        invariant Pending(slots[..], was, tv, x)
        invariant Spared(old(slots[..]), slots[..], ops[..i])
      {
        PerformKeepsPending(slots[..], was, tv, x, ops[i]);
        ghost var before := slots[..];
        match ops[i] {
          case Arm(now, ms, d) => var _ := ScheduleEvent(now, ms, d);
          case Cancel(id) => var _ := ScheduleDel(id);
        }
        assert slots[..] == Perform(before, ops[i]);
        forall y | 0 <= y < MAX_SCHED && old(slots[..])[y].Armed? && slots[..][y] != old(slots[..])[y]
          ensures Cancels(ops[..i+1], y)
        {
          if before[y] == old(slots[..])[y] {
            assert ops[..i+1][i] == Cancel(y);
          } else {
            var j :| 0 <= j < i && ops[..i][j] == Cancel(y);
            assert ops[..i+1][j] == Cancel(y);
          }
        }
      }
      assert ops[..|ops|] == ops;
    }

    /** __ss7_schedule_run. The n-th callback called performs script[n]; fired lists the slots
        whose callbacks were called. Only slots armed and due when the pass began fire, each
        at most once, and what a callback arms waits for a later pass; a slot that was due
        and did not fire was cancelled by a callback; afterwards nothing due is armed. */
    method ScheduleRun(tv: Time, script: seq<seq<Op<D>>>) returns (fired: seq<int>)
      requires Valid() && Clock(tv) && |script| == MAX_SCHED
      requires forall n, i :: 0 <= n < MAX_SCHED && 0 <= i < |script[n]| ==> Sensible(script[n][i], tv)
      modifies slots
      ensures Valid()
      ensures forall i :: 0 <= i < |fired| ==>
        1 <= fired[i] < MAX_SCHED && old(slots[..])[fired[i]].Armed?
        && Micros(old(slots[..])[fired[i]].when) <= Micros(tv)
      ensures forall i, j :: 0 <= i < j < |fired| ==> fired[i] < fired[j]
      ensures |fired| < MAX_SCHED
      ensures forall y :: 1 <= y < MAX_SCHED ==>
        (old(slots[..])[y].Armed? && Micros(old(slots[..])[y].when) <= Micros(tv) ==>
           y in fired || Cancelled(script, |fired|, y))
      ensures forall y :: 1 <= y < MAX_SCHED && slots[y].Armed? ==> Micros(slots[y].when) > Micros(tv)
    {
      ghost var was := slots[..];
      fired := [];
      var x := 1;
      while x < MAX_SCHED
        invariant 1 <= x <= MAX_SCHED
        invariant Pending(slots[..], was, tv, x)
        invariant |fired| < x
        invariant forall i :: 0 <= i < |fired| ==> 1 <= fired[i] < x
        invariant forall i :: 0 <= i < |fired| ==> was[fired[i]].Armed? && Due(was[fired[i]].when, tv)
        invariant forall i, j :: 0 <= i < j < |fired| ==> fired[i] < fired[j]
        invariant forall y :: 1 <= y < MAX_SCHED && was[y].Armed? && Due(was[y].when, tv) ==>
          (x <= y && slots[..][y] == was[y]) || y in fired || Cancelled(script, |fired|, y)
      {
        ghost var before, done := slots[..], fired;
        assert before[x] == slots[x];
        if slots[x].Armed? && Due(slots[x].when, tv) {
          var n := |fired|;
          fired := fired + [x];
          slots[x] := Free;
          ghost var freed := slots[..];
          assert freed == before[x := Free];
          Callback(script[n], was, tv, x + 1);
          forall y | 1 <= y < MAX_SCHED && was[y].Armed? && Due(was[y].when, tv)
            ensures (x + 1 <= y && slots[..][y] == was[y]) || y in fired || Cancelled(script, |fired|, y)
          {
            if y == x {
              assert fired[n] == x;
            } else if y in done {
            } else if Cancelled(script, n, y) {
            } else if slots[..][y] != was[y] {
              assert freed[y] == before[y] == was[y];
              assert Cancels(script[n], y);
            }
          }
        }
        x := x + 1;
      }
      forall y | 1 <= y < MAX_SCHED && was[y].Armed? ensures Due(was[y].when, tv) <==> Micros(was[y].when) <= Micros(tv) {
        DueRespectsTime(was[y].when, tv);
      }
      forall y | 1 <= y < MAX_SCHED && slots[y].Armed? ensures Micros(slots[y].when) > Micros(tv) {
        assert slots[..][y] == slots[y];
        DueRespectsTime(slots[y].when, tv);
      }
    }
  }

  ghost predicate Cancelled<D>(script: seq<seq<Op<D>>>, n: int, y: int) {
    exists m :: 0 <= m < n && m < |script| && Cancels(script[m], y)
  }
}
