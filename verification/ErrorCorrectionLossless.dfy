/** What becomes of failed writes. A unit whose write failed is the next one written, and while
    the channels lose nothing no write failure ever makes B ask for a retransmission. */
module ErrorCorrectionLossless {
  import opened Octets
  import opened Mtp2Spec
  import opened ErrorCorrection
  import opened ErrorCorrectionRuns
  import opened Options

  // ----- one link whose writes fail

  /** The link after n more calls of mtp2_transmit whose writes all fail. */
  function FailN(l: Link, n: nat): (r: Link)
    requires CursorUsable(l.corr)
    ensures CursorUsable(r.corr)
  {
    if n == 0 then l else Transmit(FailN(l, n - 1), false).0
  }

  /** A link with something to write keeps trying that same unit. */
  lemma {:induction false} FailingKeepsUnit(l: Link, n: nat)
    requires CursorUsable(l.corr) && l.corr.cursor.At?
    ensures var r, c := FailN(l, n), l.corr;
      && r.corr.cursor == c.cursor && r.corr.txQ == c.txQ && |r.corr.txBuf| == |c.txBuf|
      && r.corr.curFsn == c.curFsn && r.corr.curFib == c.curFib && r.corr.lastFsnAcked == c.lastFsnAcked
      && Transmit(r, true).1 == Resent(c, c.txBuf[c.cursor.index])
  {
    if n > 0 {
      FailingKeepsUnit(l, n - 1);
    }
  }

  /** A new message whose write failed is the very next unit written, however often the write
      fails again: same message, same FSN, before any fill-in unit and any later message. */
  lemma FailedMessageIsNext(l: Link, n: nat, ok: bool)
    requires CursorUsable(l.corr) && l.corr.cursor.Idle? && l.corr.txQ != []
    ensures var first, tried := Transmit(l, false), FailN(Transmit(l, false).0, n);
      && first.1 == Transmit(tried, ok).1 == Msu(CurHeader(Launch(l.corr)), l.corr.txQ[0])
      && first.1.h.fsn == NextFsn(l.corr.curFsn)
      && tried.corr.txQ == l.corr.txQ[1..] && |tried.corr.txBuf| == |l.corr.txBuf| + 1
  {
    FailingKeepsUnit(Transmit(l, false).0, n);
  }

  /** Nor does a failure lose a retransmission or a fill-in unit its turn. */
  lemma FailedUnitIsNext(l: Link, ok: bool)
    requires CursorUsable(l.corr) && (l.corr.cursor.At? || l.corr.txQ == [])
    ensures var (r, u) := Transmit(l, false);
      && Transmit(r, ok).1 == u && r.corr.cursor == l.corr.cursor && r.corr.txQ == l.corr.txQ
      && r.align.write == (l.align.write || (l.corr.cursor.Idle? && Resets(l.align.autoTx)))
  {
    hide Flag;
    FlagOnlyWrites(l.align);
  }

  lemma FlagOnlyWrites(a: Align)
    ensures Flag(a) == a.(write := true)
  {
  }

  // ----- runs that lose nothing

  predicate LosesNothing(acts: seq<Action>) {
    forall i :: 0 <= i < |acts| ==> !acts[i].LoseAB? && !acts[i].LoseBA?
  }

  /** The message a unit under way brings B to, if it is taken in. */
  function Before(taken: nat, notes: seq<Note>, i: nat): nat
    requires i <= |notes|
  {
    if i == 0 then taken else notes[i-1].num
  }

  /** The units under way continue one another without a gap, from what B took to what A writes next. */
  ghost predicate Gapless(taken: nat, next: int, ab: seq<Unit>, notes: seq<Note>) {
    && |ab| == |notes|
    && (forall i :: 0 <= i < |ab| ==> notes[i].num == Before(taken, notes, i) + if ab[i].Msu? then 1 else 0)
    && Before(taken, notes, |notes|) + 1 == next
  }

  lemma GaplessAppend(taken: nat, next: int, ab: seq<Unit>, notes: seq<Note>, u: Unit, n: Note, next': int)
    requires Gapless(taken, next, ab, notes)
    requires if u.Msu? then n.num == next && next' == next + 1 else n.num == next - 1 && next' == next
    ensures Gapless(taken, next', ab + [u], notes + [n])
  {
    hide Before;
    var ab', notes' := ab + [u], notes + [n];
    forall i | 0 <= i < |ab'| ensures notes'[i].num == Before(taken, notes', i) + if ab'[i].Msu? then 1 else 0 {
      BeforeStays(taken, notes, n, i);
      if i < |ab| {
        assert notes[i].num == Before(taken, notes, i) + if ab[i].Msu? then 1 else 0;
      }
    }
    BeforeStays(taken, notes, n, |notes|);
  }

  lemma BeforeStays(taken: nat, notes: seq<Note>, n: Note, i: nat)
    requires i <= |notes|
    ensures Before(taken, notes + [n], i) == Before(taken, notes, i)
    ensures Before(taken, notes + [n], |notes + [n]|) == n.num
  {
  }

  lemma GaplessTake(taken: nat, next: int, ab: seq<Unit>, notes: seq<Note>)
    requires Gapless(taken, next, ab, notes) && ab != []
    ensures notes[0].num == taken + if ab[0].Msu? then 1 else 0
    ensures Gapless(notes[0].num, next, ab[1..], notes[1..])
  {
    var taken' := notes[0].num;
    forall i | 0 <= i < |ab[1..]|
      ensures notes[1..][i].num == Before(taken', notes[1..], i) + if ab[1..][i].Msu? then 1 else 0
    {
      assert Before(taken', notes[1..], i) == Before(taken, notes, i + 1);
      assert notes[i+1].num == Before(taken, notes, i + 1) + if ab[i+1].Msu? then 1 else 0;
    }
    assert Before(taken', notes[1..], |notes[1..]|) == Before(taken, notes, |notes|);
  }

  /** No request so far, and the flow to B has no gap. */
  ghost predicate Flowing(s: Sys, k: Book) {
    k.fA == k.fB == 0 && Gapless(|s.delivered|, Next(s, k), s.ab, k.ab)
  }

  lemma QueueFlows(s: Sys, k: Book, act: Action)
    requires Inv(s, k) && Flowing(s, k) && (act.QueueA? || act.SendB?)
    ensures Flowing(Step(s, act), StepBook(s, k, act))
  {
    hide Transmit, Gapless, InvA, InvB, InvPhase, InvAB, InvBA;
    var s', k' := Step(s, act), StepBook(s, k, act);
    assert s'.ab == s.ab && k'.ab == k.ab && s'.delivered == s.delivered && Next(s', k') == Next(s, k);
  }

  /** A failed write leaves what comes next as it was; a successful one moves it on. */
  lemma SendMoves(s: Sys, k: Book, ok: bool)
    requires InvA(s, k) && MaySend(s.a, s.window)
    ensures var s', k' := Step(s, SendA(ok)), StepBook(s, k, SendA(ok)); var (u, n) := (Transmit(s.a, true).1, NoteOfA(s, k));
      && s'.delivered == s.delivered && k'.fA == k.fA && k'.fB == k.fB
      && (!ok ==> Next(s', k') == Next(s, k) && s'.ab == s.ab && k'.ab == k.ab)
      && (ok ==> s'.ab == s.ab + [u] && k'.ab == k.ab + [n])
      && (ok ==> if u.Msu? then n.num == Next(s, k) && Next(s', k') == Next(s, k) + 1
                 else n.num == Next(s, k) - 1 && Next(s', k') == Next(s, k))
  {
    hide Fsn, NextFsn, Numbered, Refreshed, Started;
    var c := s.a.corr;
    if c.cursor.Idle? && c.txQ == [] {
      assert !Transmit(s.a, true).1.Msu?;
    }
  }

  lemma SendFlows(s: Sys, k: Book, act: Action)
    requires Inv(s, k) && Flowing(s, k) && act.SendA?
    ensures Flowing(Step(s, act), StepBook(s, k, act))
  {
    hide Transmit, Gapless, InvA, InvB, InvPhase, InvAB, InvBA, Next, NoteOfA;
    if MaySend(s.a, s.window) {
      SendMoves(s, k, act.ok);
      if act.ok {
        var s' := Step(s, act);
        GaplessAppend(|s.delivered|, Next(s, k), s.ab, k.ab, Transmit(s.a, true).1, NoteOfA(s, k),
                      Next(s', StepBook(s, k, act)));
      }
    }
  }

  /** B takes in the next message or a FISU that shows no gap, and so has nothing to ask for. */
  lemma HeadFlows(s: Sys, k: Book, room: Room)
    requires Inv(s, k) && Flowing(s, k) && s.ab != []
    ensures var (b, got) := Receive(s.b, s.ab[0], room);
      && b.corr.curBib == s.b.corr.curBib
      && (s.ab[0].Msu? <==> got.Some?)
  {
    hide Inv, Fsn, NextFsn, Receive, Acknowledge, Next, Started, Gapless;
    HeadTells(s, k);
    GaplessTake(|s.delivered|, Next(s, k), s.ab, k.ab);
    ChannelsMatch(s, k);
    if s.ab[0].Fisu? { FisuAtB(s.b, s.ab[0], room); } else { MsuAtB(s.b, s.ab[0], room); }
  }

  lemma TakeFlows(s: Sys, k: Book, act: Action)
    requires Inv(s, k) && Flowing(s, k) && act.RecvB?
    ensures Flowing(Step(s, act), StepBook(s, k, act))
  {
    hide Inv, Receive, Gapless, Next;
    ChannelsMatch(s, k);
    if s.ab != [] {
      GaplessTake(|s.delivered|, Next(s, k), s.ab, k.ab);
      HeadFlows(s, k, act.room);
      RecvMarks(s, k, act.room);
    }
  }

  /** As B never asks, A never follows: the cursor, and with it what comes next, stays. */
  lemma AnswerFlows(s: Sys, k: Book, act: Action)
    requires Inv(s, k) && Flowing(s, k) && act.RecvA?
    ensures Flowing(Step(s, act), StepBook(s, k, act))
  {
    hide Inv, Receive, Gapless;
    ChannelsMatch(s, k);
    if s.ba != [] {
      ReceiveAtA(s, k, act.room);
    }
  }

  lemma {:induction false} LosslessFlows(alA: Align, alB: Align, w: nat, acts: seq<Action>)
    requires Started(alA) && Started(alB) && w <= 127 && LosesNothing(acts)
    ensures var s0 := Init(alA, alB, w); Flowing(Run(s0, acts), RunBook(s0, acts))
  {
    hide Inv, Flowing, Step, StepBook;
    var s0 := Init(alA, alB, w);
    if acts == [] {
      BeginsFlowing(alA, alB, w);
    } else {
      var before, act := acts[..|acts|-1], acts[|acts|-1];
      LosslessFlows(alA, alB, w, before);
      Reachable(alA, alB, w, before);
      var s, k := Run(s0, before), RunBook(s0, before);
      match act
      case QueueA(_) => QueueFlows(s, k, act);
      case SendA(_) => SendFlows(s, k, act);
      case SendB(_) => QueueFlows(s, k, act);
      case RecvA(_) => AnswerFlows(s, k, act);
      case RecvB(_) => TakeFlows(s, k, act);
    }
  }

  lemma BeginsFlowing(alA: Align, alB: Align, w: nat)
    ensures Flowing(Init(alA, alB, w), Book(0, 0, 0, 0, [], []))
  {
  }

  /** Message units under way. */
  function Messages(ab: seq<Unit>): nat {
    if ab == [] then 0 else Messages(ab[..|ab|-1]) + if ab[|ab|-1].Msu? then 1 else 0
  }

  lemma {:induction false} GaplessCounts(taken: nat, next: int, ab: seq<Unit>, notes: seq<Note>)
    requires Gapless(taken, next, ab, notes)
    ensures next == taken + Messages(ab) + 1
    decreases |ab|
  {
    hide Before;
    BeforeAny(taken, notes);
    if ab != [] {
      var ab', notes', n := ab[..|ab|-1], notes[..|ab|-1], notes[|ab|-1];
      assert notes' + [n] == notes;
      BeforeStays(taken, notes', n, |notes'|);
      var next' := Before(taken, notes', |notes'|) + 1;
      forall i | 0 <= i < |ab'| ensures notes'[i].num == Before(taken, notes', i) + if ab'[i].Msu? then 1 else 0 {
        BeforeStays(taken, notes', n, i);
        assert notes[i].num == Before(taken, notes, i) + if ab[i].Msu? then 1 else 0;
      }
      GaplessCounts(taken, next', ab', notes');
    }
  }

  lemma BeforeAny(taken: nat, notes: seq<Note>)
    ensures Before(taken, notes, 0) == taken
  {
  }

  /** While nothing is lost, whatever writes fail and in whatever order both ends are served, B never
      asks for a retransmission and A never makes one on request; and what was delivered, what is under way
      and what A has still to write make up everything queued. */
  lemma FailedWritesCostNothing(alA: Align, alB: Align, w: nat, acts: seq<Action>)
    requires Started(alA) && Started(alB) && w <= 127 && LosesNothing(acts)
    ensures var s0 := Init(alA, alB, w); var s := Run(s0, acts);
      && BibFlips(s0, acts) == 0 && FibFlips(s0, acts) == 0
      && |s.queued| == |s.delivered| + Messages(s.ab) + |s.a.corr.txQ|
           + if s.a.corr.cursor.At? then s.a.corr.cursor.index + 1 else 0
  {
    hide Run, RunBook, Gapless, InvAB, InvBA, InvB, Numbered, BibFlips, FibFlips;
    var s0 := Init(alA, alB, w);
    var s, k := Run(s0, acts), RunBook(s0, acts);
    LosslessFlows(alA, alB, w, acts);
    FlipsAreBooked(alA, alB, w, acts);
    Reachable(alA, alB, w, acts);
    GaplessCounts(|s.delivered|, Next(s, k), s.ab, k.ab);
  }
}
