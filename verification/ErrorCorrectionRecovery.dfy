/** Recovery: once nothing more is lost, two exchanges bring both ends into step again. */
module ErrorCorrectionRecovery {
  import opened Octets
  import opened Mtp2Spec
  import opened ErrorCorrection
  import opened Options

  /** Message units A writes before it writes a fill-in unit. */
  function Pending(c: Corr): nat {
    (if c.cursor.At? then c.cursor.index + 1 else 0) + |c.txQ|
  }

  /** A writes one unit and B takes it in. */
  function Round(s: Sys, room: Room): Sys {
    Step(Step(s, SendA(true)), RecvB(room))
  }

  /** A writes everything it has and then a FISU, each unit taken in by B. */
  function Drain(s: Sys, room: Room, n: nat): Sys
    decreases n
  {
    if n == 0 then Round(s, room) else Drain(Round(s, room), room, n - 1)
  }

  /** A drains and sends a FISU, B answers with a FISU. */
  function Exchange(s: Sys, room: Room): Sys {
    Step(Step(Drain(s, room, Pending(s.a.corr)), SendB(true)), RecvA(room))
  }

  /** Both ends in service, nothing under way, no more messages outstanding at A than the window. */
  ghost predicate Quiet(s: Sys, k: Book) {
    && Inv(s, k)
    && s.ab == [] && s.ba == []
    && s.a.align.state == INSERVICE && s.b.align.state == INSERVICE
    && |s.a.corr.txBuf| + |s.a.corr.txQ| <= s.window
  }

  /** A's next message unit is the one B lacks and both indicator bits match. */
  ghost predicate InStep(s: Sys, k: Book) {
    k.fA == k.fB && Next(s, k) == |s.delivered| + 1
  }

  function SendBook(s: Sys, k: Book): Book { StepBook(s, k, SendA(true)) }

  function RoundBook(s: Sys, k: Book, room: Room): Book {
    StepBook(Step(s, SendA(true)), SendBook(s, k), RecvB(room))
  }

  /** What B does with a unit, seen from the book: take the next message, ask again on a gap,
      ignore what was written before A followed. */
  lemma BReacts(s: Sys, k: Book, room: Room)
    requires Inv(s, k) && s.ab != [] && s.b.align.state == INSERVICE
    ensures var (b, got) := Receive(s.b, s.ab[0], room); var n := k.ab[0];
      && b.align.state == INSERVICE
      && (n.phase < k.fB ==> got.None? && b.corr == s.b.corr)
      && (n.phase == k.fB && s.ab[0].Msu? && n.num == |s.delivered| + 1 ==> got.Some?)
      && (n.phase == k.fB && (if s.ab[0].Msu? then n.num > |s.delivered| + 1 else n.num > |s.delivered|) ==>
            got.None? && b.corr.curBib != s.b.corr.curBib)
      && (n.phase == k.fB && s.ab[0].Fisu? && n.num == |s.delivered| ==> got.None? && b.corr == s.b.corr)
  {
    hide Inv, Fsn, NextFsn, Receive, Acknowledge, Next, Started;
    HeadTells(s, k);
    if s.ab[0].Fisu? { FisuAtB(s.b, s.ab[0], room); } else { MsuAtB(s.b, s.ab[0], room); }
  }

  /** A's side of a round. */
  lemma ASends(s: Sys, k: Book)
    requires Quiet(s, k)
    ensures MaySend(s.a, s.window)
    ensures var s1, k1 := Step(s, SendA(true)), SendBook(s, k);
      && Inv(s1, k1)
      && s1.b == s.b && s1.ba == [] && s1.queued == s.queued && s1.delivered == s.delivered
      && |s1.ab| == 1 && |k1.ab| == 1 && k1.ab[0].phase == k.fA == k1.fA && k1.fB == k.fB
      && s1.a.align.state == s.a.align.state
      && |s1.a.corr.txBuf| + |s1.a.corr.txQ| == |s.a.corr.txBuf| + |s.a.corr.txQ|
      && (Pending(s.a.corr) > 0 ==>
            && Pending(s1.a.corr) == Pending(s.a.corr) - 1
            && s1.ab[0].Msu? && k1.ab[0].num == Next(s, k) && Next(s1, k1) == Next(s, k) + 1)
      && (Pending(s.a.corr) == 0 ==>
            && Pending(s1.a.corr) == 0
            && s1.ab[0].Fisu? && k1.ab[0].num == k.sent == |s.queued| && Next(s1, k1) == Next(s, k) == k.sent + 1)
  {
    hide GoodAB, OrderedAB, GoodBA, OrderedBA, Numbered, Fsn, Refreshed, InvPhase;
    KeepsSendA(s, k, SendA(true));
    SendWrites(s, k);
  }

  lemma BTakes(s: Sys, k: Book, room: Room)
    requires Inv(s, k) && |s.ab| == 1 && s.b.align.state == INSERVICE
    ensures var s', k' := Step(s, RecvB(room)), StepBook(s, k, RecvB(room));
      && Inv(s', k')
      && s'.ab == [] && s'.ba == s.ba && s'.a == s.a && s'.queued == s.queued
      && s'.b.align.state == INSERVICE
      && k'.fA == k.fA && k'.sent == k.sent
      && (k.ab[0].phase < k.fB ==> k'.fB == k.fB && s'.delivered == s.delivered)
      && (k.ab[0].phase == k.fB && s.ab[0].Msu? && k.ab[0].num == |s.delivered| + 1 ==>
            k'.fB == k.fB && |s'.delivered| == |s.delivered| + 1)
      && (k.ab[0].phase == k.fB && (k.ab[0].num > if s.ab[0].Msu? then |s.delivered| + 1 else |s.delivered|) ==>
            k'.fB == k.fB + 1 && s'.delivered == s.delivered)
      && (k.ab[0].phase == k.fB && s.ab[0].Fisu? && k.ab[0].num == |s.delivered| ==>
            k'.fB == k.fB && s'.delivered == s.delivered)
  {
    KeepsRecvB(s, k, RecvB(room));
    BReacts(s, k, room);
    ReceiveAtB(s, k, room);
  }

  /** A round keeps a quiet system quiet, sends one message (or the FISU), and either moves
      both ends on together or leaves B waiting for A to follow its request. */
  lemma RoundKeeps(s: Sys, k: Book, room: Room)
    requires Quiet(s, k)
    ensures var s', k' := Round(s, room), RoundBook(s, k, room);
      && Quiet(s', k')
      && s'.queued == s.queued
      && Pending(s'.a.corr) == (if Pending(s.a.corr) > 0 then Pending(s.a.corr) - 1 else 0)
      && (InStep(s, k) ==> InStep(s', k'))
      && (!InStep(s, k) ==> k'.fA < k'.fB)
      && (k.fA < k.fB ==> k'.fA < k'.fB)
      && (Pending(s.a.corr) == 0 ==> k'.sent == |s'.queued| && s'.a.corr.cursor.Idle?)
  {
    ASends(s, k);
    BTakes(Step(s, SendA(true)), SendBook(s, k), room);
  }

  /** After draining either everything is delivered or B waits for A to follow. */
  lemma {:induction false} DrainKeeps(s: Sys, k: Book, room: Room, n: nat) returns (k': Book)
    requires Quiet(s, k) && n == Pending(s.a.corr)
    ensures var s' := Drain(s, room, n);
      && Quiet(s', k')
      && s'.queued == s.queued
      && k'.sent == |s'.queued| && s'.a.corr.cursor.Idle?
      && (InStep(s, k) ==> InStep(s', k'))
      && (!InStep(s, k) ==> k'.fA < k'.fB)
    decreases n
  {
    hide Inv, Quiet, Round, RoundBook, Pending, Next;
    RoundKeeps(s, k, room);
    k' := RoundBook(s, k, room);
    if n > 0 {
      k' := DrainKeeps(Round(s, room), k', room, n - 1);
    }
  }

  /** B answers with one FISU saying what it has delivered and in which phase it is. */
  lemma BAnswers(s: Sys, k: Book)
    requires Quiet(s, k)
    ensures var s1, k1 := Step(s, SendB(true)), StepBook(s, k, SendB(true));
      && Inv(s1, k1)
      && s1 == s.(b := s1.b, ba := [Fisu(Header(Fsn(|s.delivered|), Bit(k.fB), 127, true))])
      && s1.b.align.state == INSERVICE
      && k1 == k.(ba := [Ack(|s.delivered|, k.fB)])
  {
    KeepsSendB(s, k, SendB(true));
  }

  /** What the one answer under way does to the system and to the book. */
  lemma AHears(s: Sys, k: Book, room: Room)
    requires Inv(s, k) && |s.ba| == 1 && s.ba[0].Fisu? && s.a.align.state == INSERVICE
    ensures var s', k', n := Step(s, RecvA(room)), StepBook(s, k, RecvA(room)), k.ba[0];
      && Inv(s', k')
      && s' == s.(a := s'.a, ba := []) && s'.a.align.state == INSERVICE
      && k' == k.(acked := n.num, ba := [], fA := n.phase)
      && s'.a.corr.txQ == s.a.corr.txQ && |s'.a.corr.txBuf| == k.sent - n.num
      && |s'.a.corr.txBuf| <= |s.a.corr.txBuf|
      && (n.phase == k.fA ==> s'.a.corr.cursor == s.a.corr.cursor)
      && (n.phase > k.fA ==> n.num == |s.delivered| && s'.a.corr.cursor == At(k.sent - n.num - 1))
  {
    hide Receive, InvB, GoodAB, InvAB, OrderedAB, OrderedBA, Numbered, Fsn, Next;
    assert GoodBA(MarksOf(s, k), s.ba[0], k.ba[0]);
    FollowsAnswer(s.a, s.ba[0], room);
    ReceiveAtA(s, k, room);
    KeepsRecvA(s, k, RecvA(room));
  }

  /** Quiet, in terms of the counts alone. */
  lemma QuietCounts(s: Sys, k: Book)
    requires Quiet(s, k)
    ensures k.acked <= |s.delivered| <= k.sent <= |s.queued| && k.fA <= k.fB <= k.fA + 1
    ensures |s.a.corr.txBuf| == k.sent - k.acked && |s.a.corr.txQ| == |s.queued| - k.sent
    ensures s.delivered == s.queued[..|s.delivered|]
  {
  }

  /** B's answer ends the exchange: A releases everything if nothing was missed, and else
      follows the request, after which both ends are in step. */
  lemma AnswerSettles(s: Sys, k: Book, room: Room) returns (k': Book)
    requires Quiet(s, k) && k.sent == |s.queued| && s.a.corr.cursor.Idle?
    requires InStep(s, k) || k.fA < k.fB
    ensures var s' := Step(Step(s, SendB(true)), RecvA(room));
      && Quiet(s', k') && s'.queued == s.queued && InStep(s', k')
      && (InStep(s, k) ==> s'.delivered == s'.queued && s'.a.corr.txBuf == [] && s'.a.corr.txQ == [])
  {
    hide Inv, Step, StepBook, Fsn, Bit;
    QuietCounts(s, k);
    BAnswers(s, k);
    var s1, k1 := Step(s, SendB(true)), StepBook(s, k, SendB(true));
    AHears(s1, k1, room);
    k' := StepBook(s1, k1, RecvA(room));
  }

  lemma ExchangeSettles(s: Sys, k: Book, room: Room) returns (k': Book)
    requires Quiet(s, k)
    ensures var s' := Exchange(s, room);
      && Quiet(s', k') && s'.queued == s.queued && InStep(s', k')
      && (InStep(s, k) ==> s'.delivered == s'.queued && s'.a.corr.txBuf == [] && s'.a.corr.txQ == [])
  {
    var n := Pending(s.a.corr);
    k' := DrainKeeps(s, k, room, n);
    k' := AnswerSettles(Drain(s, room, n), k', room);
  }

  /** From every reachable state with both ends in service, empty channels and no more
      messages outstanding than the window, two loss-free exchanges deliver every queued message, in order,
      and leave nothing unacknowledged. */
  lemma TwoExchangesRecover(alA: Align, alB: Align, w: nat, acts: seq<Action>, room: Room)
    requires Started(alA) && Started(alB) && w <= 127
    requires var s := Run(Init(alA, alB, w), acts);
      && s.ab == [] && s.ba == []
      && s.a.align.state == INSERVICE && s.b.align.state == INSERVICE
      && |s.a.corr.txBuf| + |s.a.corr.txQ| <= s.window
    ensures var s := Run(Init(alA, alB, w), acts); var s' := Exchange(Exchange(s, room), room);
      && s'.queued == s.queued
      && s'.delivered == s.queued
      && s'.a.corr.txBuf == [] && s'.a.corr.txQ == []
  {
    Reachable(alA, alB, w, acts);
    var s, k := Run(Init(alA, alB, w), acts), RunBook(Init(alA, alB, w), acts);
    var k1 := ExchangeSettles(s, k, room);
    var k2 := ExchangeSettles(Exchange(s, room), k1, room);
  }
}
