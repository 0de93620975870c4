/** Which windows keep delivery in order: 127 unacknowledged units are safe, 128 are not. */
module ErrorCorrectionWindow {
  import opened Octets
  import opened Mtp2Spec
  import opened ErrorCorrection
  import opened ErrorCorrectionRuns
  import opened Options

  /** Every run with window w delivers a prefix of what was queued. */
  ghost predicate Safe(w: nat) {
    forall alA, alB, acts :: Started(alA) && Started(alB) ==> InOrder(Start(alA, alB, w, acts))
  }

  predicate InOrder(s: Sys) { s.delivered <= s.queued }

  // ----- the run that fails

  function Queueing(msgs: seq<seq<Octet>>): seq<Action> {
    if msgs == [] then [] else Queueing(msgs[..|msgs|-1]) + [QueueA(msgs[|msgs|-1])]
  }

  /** n units are written and lost. */
  function Losing(n: nat): seq<Action> {
    if n == 0 then [] else Losing(n - 1) + [SendA(true), LoseAB(0)]
  }

  /** All messages are queued, n units lost, then B's first answer reaches A and A's next unit B. */
  function Overrun(msgs: seq<seq<Octet>>, n: nat, room: Room): seq<Action> {
    Queueing(msgs) + Losing(n) + [SendB(true), RecvA(room)] + [SendA(true), RecvB(room)]
  }

  lemma {:induction false} RunConcat(s: Sys, xs: seq<Action>, ys: seq<Action>)
    ensures Run(s, xs + ys) == Run(Run(s, xs), ys)
    decreases |ys|
  {
    hide Step;
    if ys == [] {
      assert xs + ys == xs;
    } else {
      RunConcat(s, xs, ys[..|ys|-1]);
      assert (xs + ys)[..|xs + ys|-1] == xs + ys[..|ys|-1];
    }
  }

  lemma RunOfTwo(s: Sys, x: Action, y: Action)
    ensures Run(s, [x, y]) == Step(Step(s, x), y)
  {
    hide Step;
    assert [x, y][..1] == [x] && [x][..0] == [];
    assert Run(s, [x]) == Step(Run(s, []), x);
  }

  lemma {:induction false} QueueingQueues(alA: Align, alB: Align, w: nat, msgs: seq<seq<Octet>>)
    ensures var s := Init(alA, alB, w);
      Run(s, Queueing(msgs)) == s.(a := s.a.(corr := ResetCorr().(txQ := msgs)), queued := msgs)
  {
    hide Run, Step;
    var s := Init(alA, alB, w);
    RunOfNone(s);
    if msgs != [] {
      var before, last := msgs[..|msgs|-1], msgs[|msgs|-1];
      QueueingQueues(alA, alB, w, before);
      RunConcat(s, Queueing(before), [QueueA(last)]);
      var s1 := Run(s, Queueing(before));
      RunOfNone(s1);
      QueueOne(s1, last);
      assert before + [last] == msgs;
    }
  }

  lemma RunOfNone(s: Sys)
    ensures Run(s, []) == s && forall x :: Run(s, [x]) == Step(s, x)
  {
    hide Step;
    forall x ensures Run(s, [x]) == Step(s, x) {
      assert [x][..0] == [];
      assert Run(s, []) == s;
    }
  }

  lemma QueueOne(s: Sys, info: seq<Octet>)
    requires s.a.align.write
    ensures Step(s, QueueA(info))
      == s.(a := s.a.(corr := s.a.corr.(txQ := s.a.corr.txQ + [info])), queued := s.queued + [info])
  {
  }

  function LaunchN(c: Corr, n: nat): (r: Corr)
    requires n <= |c.txQ|
    ensures |r.txBuf| == |c.txBuf| + n && r.txQ == c.txQ[n..]
    ensures r.cursor == c.cursor && r.curFib == c.curFib && r.curBib == c.curBib && r.lastFsnAcked == c.lastFsnAcked
  {
    if n == 0 then c else Launch(LaunchN(c, n - 1))
  }

  lemma {:induction false} LaunchedNumber(c: Corr, n: nat)
    requires n <= |c.txQ| && c.curFsn == 127
    ensures LaunchN(c, n).curFsn == Fsn(n)
    ensures n > 0 ==> LaunchN(c, n).txBuf[0] == Sent(CurHeader(LaunchN(c, n)), c.txQ[n - 1])
  {
    if n > 0 {
      LaunchedNumber(c, n - 1);
      FsnNext(n - 1);
    }
  }

  /** A after it wrote n units, none of which reached B. */
  function Lost(alA: Align, alB: Align, w: nat, msgs: seq<seq<Octet>>, n: nat): Sys
    requires n <= |msgs|
  {
    var s := Init(alA, alB, w);
    s.(a := s.a.(corr := LaunchN(ResetCorr().(txQ := msgs), n)), queued := msgs)
  }

  lemma {:induction false} LosingLoses(alA: Align, alB: Align, w: nat, msgs: seq<seq<Octet>>, n: nat)
    requires n <= |msgs| && n <= w
    ensures Run(Lost(alA, alB, w, msgs, 0), Losing(n)) == Lost(alA, alB, w, msgs, n)
  {
    if n > 0 {
      LosingLoses(alA, alB, w, msgs, n - 1);
      RunConcat(Lost(alA, alB, w, msgs, 0), Losing(n - 1), [SendA(true), LoseAB(0)]);
      LoseOne(alA, alB, w, msgs, n);
    }
  }

  lemma LoseOne(alA: Align, alB: Align, w: nat, msgs: seq<seq<Octet>>, n: nat)
    requires 0 < n <= |msgs| && n <= w
    ensures Run(Lost(alA, alB, w, msgs, n - 1), [SendA(true), LoseAB(0)]) == Lost(alA, alB, w, msgs, n)
  {
    var s := Lost(alA, alB, w, msgs, n - 1);
    RunOfTwo(s, SendA(true), LoseAB(0));
    assert MaySend(s.a, w);
    assert Step(s, SendA(true)).ab == [Transmit(s.a, true).1];
  }

  /** After 128 lost units the last FSN is 127, which B's first answer acknowledges: every unit
      is released, though B delivered none. */
  lemma AnswerReleasesAll(alA: Align, alB: Align, w: nat, msgs: seq<seq<Octet>>, room: Room)
    requires Started(alA) && Started(alB) && alA.state == INSERVICE && |msgs| > 128
    ensures var s := Lost(alA, alB, w, msgs, 128); var r := Run(s, [SendB(true), RecvA(room)]);
      && r.a.corr == s.a.corr.(txBuf := []) && r.b.corr == ResetCorr()
      && r.ab == [] && r.queued == msgs && r.delivered == [] && r.window == w
      && r.b.align.state == alB.state
  {
    var s := Lost(alA, alB, w, msgs, 128);
    RunOfTwo(s, SendB(true), RecvA(room));
    LaunchedNumber(ResetCorr().(txQ := msgs), 128);
    assert Step(s, SendB(true)).ba == [Fisu(Header(127, true, 127, true))];
    assert FindFsn(s.a.corr.txBuf, 127) == 0;
  }

  lemma WritesFsnZero(a: Link, m: seq<Octet>)
    requires a.corr == Corr(127, true, true, 127, [], [m], Idle)
    ensures Transmit(a, true).1 == Msu(Header(127, true, 0, true), m)
  {
  }

  lemma FreshTakesFsnZero(b: Link, m: seq<Octet>, room: Room)
    requires b.corr == ResetCorr() && b.align.state == INSERVICE
    ensures Receive(b, Msu(Header(127, true, 0, true), m), room).1 == Some(m)
  {
    hide SetState;
    assert b.corr.txBuf[..0] == [];
  }

  /** The next unit has FSN 0, which is what B expects first. */
  lemma NextIsTakenFirst(s: Sys, m: seq<Octet>, room: Room)
    requires s.window > 0 && s.ab == [] && s.b.corr == ResetCorr() && s.b.align.state == INSERVICE
    requires s.a.corr == Corr(127, true, true, 127, [], [m], Idle)
    ensures Run(s, [SendA(true), RecvB(room)]).delivered == s.delivered + [m]
    ensures Run(s, [SendA(true), RecvB(room)]).queued == s.queued
  {
    hide Transmit, Receive, Run;
    RunOfTwo(s, SendA(true), RecvB(room));
    WritesFsnZero(s.a, m);
    FreshTakesFsnZero(s.b, m, room);
    assert Step(s, SendA(true)).ab == [Msu(Header(127, true, 0, true), m)];
  }

  /** With a window of 128 or more, for every 129 messages of which the last differs from the
      first: 128 units are lost, B's first answer releases them, and B delivers message 129 as
      though it were message 1. */
  lemma WindowIsNeeded(alA: Align, alB: Align, w: nat, msgs: seq<seq<Octet>>, room: Room)
    requires Started(alA) && Started(alB) && alA.state == INSERVICE && alB.state == INSERVICE
    requires w >= 128 && |msgs| == 129 && msgs[0] != msgs[128]
    ensures var s := Start(alA, alB, w, Overrun(msgs, 128, room));
      s.queued == msgs && s.delivered == [msgs[128]] && !(s.delivered <= s.queued)
  {
    hide Run, Step, Losing, Queueing;
    var s0 := Init(alA, alB, w);
    var one, two, three := Queueing(msgs), Losing(128), [SendB(true), RecvA(room)];
    var four := [SendA(true), RecvB(room)];
    RunConcat(s0, one, two);
    RunConcat(s0, one + two, three);
    RunConcat(s0, one + two + three, four);
    QueueingQueues(alA, alB, w, msgs);
    LosingLoses(alA, alB, w, msgs, 128);
    AnswerReleasesAll(alA, alB, w, msgs, room);
    LaunchedNumber(ResetCorr().(txQ := msgs), 128);
    assert msgs[128..] == [msgs[128]];
    NextIsTakenFirst(Run(Lost(alA, alB, w, msgs, 128), three), msgs[128], room);
  }

  /** So 127 is the largest window under which every run delivers in order. */
  lemma WindowIsTight(w: nat)
    ensures Safe(w) <==> w <= 127
  {
    hide Run;
    if w <= 127 {
      forall alA, alB, acts | Started(alA) && Started(alB) ensures InOrder(Start(alA, alB, w, acts)) {
        DeliveredInOrder(alA, alB, w, acts);
      }
    } else {
      var al := Align(INSERVICE, false, false, false, false, false, Normal, FISU, FISU, [], false);
      var msgs: seq<seq<Octet>> := [[1]] + seq(128, _ => []);
      var room := Room(true, true);
      WindowIsNeeded(al, al, w, msgs, room);
      assert !InOrder(Start(al, al, w, Overrun(msgs, 128, room)));
    }
  }
}
