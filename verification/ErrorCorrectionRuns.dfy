/** What holds of every run of the error-correction system with a window of at most 127 units, in
    terms of the links, the channels and what was queued and delivered. Only the handshake of the
    indicator bits is told with the notes of the book, which say when a unit was written. */
module ErrorCorrectionRuns {
  import opened Octets
  import opened Mtp2Spec
  import opened ErrorCorrection
  import opened Options

  function Start(alA: Align, alB: Align, w: nat, acts: seq<Action>): Sys {
    Run(Init(alA, alB, w), acts)
  }

  /** In-order exactly-once delivery, over every interleaving of queueing, writing
      (successful or not), losing and receiving. */
  lemma DeliveredInOrder(alA: Align, alB: Align, w: nat, acts: seq<Action>)
    requires Started(alA) && Started(alB) && w <= 127
    ensures var s := Start(alA, alB, w, acts); s.delivered <= s.queued
  {
    Reachable(alA, alB, w, acts);
  }

  function Infos(buf: seq<Sent>): seq<seq<Octet>> {
    if buf == [] then [] else Infos(buf[1..]) + [buf[0].info]
  }

  lemma OlderAreNumbered(buf: seq<Sent>, queued: seq<seq<Octet>>, sent: nat)
    requires Numbered(buf, queued, sent)
    ensures |buf| <= sent <= |queued|
    ensures buf != [] ==> Numbered(buf[1..], queued, sent - 1) && buf[0].info == queued[sent - 1]
  {
    hide Fsn;
    if buf != [] {
      forall i | 0 <= i < |buf[1..]|
        ensures buf[1..][i].h.fsn == Fsn(sent - 1 - i) && buf[1..][i].h.bib
        ensures buf[1..][i].info == queued[sent - 1 - i - 1]
      {
        assert buf[i+1].h.fsn == Fsn(sent - (i + 1));
      }
    }
  }

  lemma {:induction false} InfosOfNumbered(buf: seq<Sent>, queued: seq<seq<Octet>>, sent: nat)
    requires Numbered(buf, queued, sent)
    ensures Infos(buf) == queued[sent - |buf|..sent]
  {
    hide Numbered;
    OlderAreNumbered(buf, queued, sent);
    if buf != [] {
      InfosOfNumbered(buf[1..], queued, sent - 1);
      assert queued[sent - |buf|..sent] == queued[sent - |buf|..sent - 1] + [queued[sent - 1]];
    }
  }

  /** Messages released, each of them delivered at B, then the unacknowledged units oldest
      first, then the unsent ones; FSNs run down from curfsn. */
  ghost predicate Accounted(queued: seq<seq<Octet>>, delivered: seq<seq<Octet>>, c: Corr) {
    var released := |queued| - |c.txBuf| - |c.txQ|;
    && 0 <= released <= |delivered|
    && queued == delivered[..released] + Infos(c.txBuf) + c.txQ
    && forall i :: 0 <= i < |c.txBuf| ==> c.txBuf[i].h.fsn == (c.curFsn - i) % 128
  }

  lemma FsnBack(sent: nat, i: nat)
    requires i <= sent
    ensures (Fsn(sent) - i) % 128 == Fsn(sent - i)
  {
  }

  lemma NumberedIsAccounted(
      queued: seq<seq<Octet>>, delivered: seq<seq<Octet>>, c: Corr, acked: nat, sent: nat)
    requires acked <= |delivered| <= sent <= |queued| && delivered == queued[..|delivered|]
    requires Numbered(c.txBuf, queued, sent) && |c.txBuf| == sent - acked
    requires c.txQ == queued[sent..] && c.curFsn == Fsn(sent)
    ensures Accounted(queued, delivered, c)
  {
    InfosOfNumbered(c.txBuf, queued, sent);
    forall i | 0 <= i < |c.txBuf| ensures c.txBuf[i].h.fsn == (c.curFsn - i) % 128 {
      FsnBack(sent, i);
    }
    assert queued == queued[..acked] + queued[acked..sent] + queued[sent..];
    assert delivered[..acked] == queued[..acked];
  }

  lemma AcknowledgementSound(alA: Align, alB: Align, w: nat, acts: seq<Action>)
    requires Started(alA) && Started(alB) && w <= 127
    ensures var s := Start(alA, alB, w, acts); Accounted(s.queued, s.delivered, s.a.corr)
  {
    Reachable(alA, alB, w, acts);
    var s, k := Start(alA, alB, w, acts), RunBook(Init(alA, alB, w), acts);
    NumberedIsAccounted(s.queued, s.delivered, s.a.corr, k.acked, k.sent);
  }

  lemma AnswerReleases(s: Sys, k: Book, room: Room)
    requires Inv(s, k) && s.ba != []
    ensures var c, c' := s.a.corr, Step(s, RecvA(room)).a.corr;
      && c'.txBuf <= c.txBuf && c'.txQ == c.txQ
      && |s.queued| - |c'.txBuf| - |c.txQ| <= |s.delivered|
      && (c'.txBuf != c.txBuf ==> c.txBuf[|c'.txBuf|].h.fsn == s.ba[0].h.bsn)
      && forall i :: 0 <= i < |c'.txBuf| ==> c'.txBuf[i].h.fsn != s.ba[0].h.bsn
  {
    hide Receive, Fsn, Next, InvB, InvAB, InvPhase, Numbered, OrderedBA;
    ReceiveAtA(s, k, room);
    assert GoodBA(MarksOf(s, k), s.ba[0], k.ba[0]);
    FindInWindow(s.a.corr, s.queued, k.acked, k.sent, k.ba[0].num);
  }

  /** A request for a retransmission comes while a message is missing, and A starts at that message. */
  lemma RequestFinds(s: Sys, k: Book, room: Room)
    requires Inv(s, k) && s.ba != [] && s.a.align.state == INSERVICE && s.ba[0].h.bib != s.a.corr.curFib
    ensures var c := Step(s, RecvA(room)).a.corr;
      && c.txBuf != [] && c.cursor == At(|c.txBuf| - 1)
      && |s.delivered| < |s.queued|
      && c.txBuf[|c.txBuf| - 1].info == s.queued[|s.delivered|]
  {
    hide Receive, Fsn, Next, InvB, InvAB, InvPhase, OrderedBA;
    assert GoodBA(MarksOf(s, k), s.ba[0], k.ba[0]);
    ReceiveAtA(s, k, room);
    FollowsAnswer(s.a, s.ba[0], room);
  }

  /** Each answer A takes in releases exactly the units up to the BSN it carries: those B had
      delivered when it wrote the answer, and nothing newer. */
  lemma ReleasesWhatWasDelivered(alA: Align, alB: Align, w: nat, acts: seq<Action>, room: Room)
    requires Started(alA) && Started(alB) && w <= 127
    requires Start(alA, alB, w, acts).ba != []
    ensures var s := Start(alA, alB, w, acts); var c := s.a.corr;
      var s' := Step(s, RecvA(room)); var c' := s'.a.corr;
      && c'.txBuf <= c.txBuf && c'.txQ == c.txQ
      && |s.queued| - |c'.txBuf| - |c.txQ| <= |s.delivered|
      && (c'.txBuf != c.txBuf ==> c.txBuf[|c'.txBuf|].h.fsn == s.ba[0].h.bsn)
      && forall i :: 0 <= i < |c'.txBuf| ==> c'.txBuf[i].h.fsn != s.ba[0].h.bsn
  {
    hide Run, RunBook, Inv, Step;
    Reachable(alA, alB, w, acts);
    AnswerReleases(Start(alA, alB, w, acts), RunBook(Init(alA, alB, w), acts), room);
  }

  /** The retransmission cursor is null or a unit of tx_buf, so no acknowledgement ever frees
      the unit it stands on, and transmitting never touches freed memory. */
  lemma CursorNeverDangles(alA: Align, alB: Align, w: nat, acts: seq<Action>)
    requires Started(alA) && Started(alB) && w <= 127
    ensures CursorUsable(Start(alA, alB, w, acts).a.corr) && CursorUsable(Start(alA, alB, w, acts).b.corr)
  {
    Reachable(alA, alB, w, acts);
  }

  /** Whenever A follows a retransmission request it has a unit to retransmit, and starts at
      the first message that B lacks. */
  lemma RequestsFindSomething(alA: Align, alB: Align, w: nat, acts: seq<Action>, room: Room)
    requires Started(alA) && Started(alB) && w <= 127
    requires var s := Start(alA, alB, w, acts);
      s.ba != [] && s.a.align.state == INSERVICE && s.ba[0].h.bib != s.a.corr.curFib
    ensures var s := Start(alA, alB, w, acts); var c := Step(s, RecvA(room)).a.corr;
      && c.txBuf != [] && c.cursor == At(|c.txBuf| - 1)
      && |s.delivered| < |s.queued|
      && c.txBuf[|c.txBuf| - 1].info == s.queued[|s.delivered|]
  {
    hide Run, RunBook, Inv, Step;
    Reachable(alA, alB, w, acts);
    RequestFinds(Start(alA, alB, w, acts), RunBook(Init(alA, alB, w), acts), room);
  }

  /** As long as A has something to send, its write flag asks for it to be called. */
  lemma PendingWorkIsFlagged(alA: Align, alB: Align, w: nat, acts: seq<Action>)
    requires Started(alA) && Started(alB) && w <= 127
    ensures var a := Start(alA, alB, w, acts).a; a.corr.cursor.At? || a.corr.txQ != [] ==> a.align.write
  {
    Reachable(alA, alB, w, acts);
  }

  // ----- the handshake of the indicator bits

  function FibFlips(s: Sys, acts: seq<Action>): nat {
    if acts == [] then 0
    else
      var before := acts[..|acts|-1];
      FibFlips(s, before) + if Run(s, acts).a.corr.curFib != Run(s, before).a.corr.curFib then 1 else 0
  }

  function BibFlips(s: Sys, acts: seq<Action>): nat {
    if acts == [] then 0
    else
      var before := acts[..|acts|-1];
      BibFlips(s, before) + if Run(s, acts).b.corr.curBib != Run(s, before).b.corr.curBib then 1 else 0
  }

  lemma {:induction false} FlipsAreBooked(alA: Align, alB: Align, w: nat, acts: seq<Action>)
    requires Started(alA) && Started(alB) && w <= 127
    ensures var k := RunBook(Init(alA, alB, w), acts);
      FibFlips(Init(alA, alB, w), acts) == k.fA && BibFlips(Init(alA, alB, w), acts) == k.fB
  {
    hide Inv, Step, StepBook, Init;
    if acts != [] {
      var before, act := acts[..|acts|-1], acts[|acts|-1];
      FlipsAreBooked(alA, alB, w, before);
      Reachable(alA, alB, w, before);
      FlipIsBooked(Run(Init(alA, alB, w), before), RunBook(Init(alA, alB, w), before), act);
    }
  }

  /** The book counts one inversion of A's FIB or of B's BIB exactly when the action made one. */
  lemma FlipIsBooked(s: Sys, k: Book, act: Action)
    requires Inv(s, k)
    ensures var s', k' := Step(s, act), StepBook(s, k, act);
      && k'.fA == (if s'.a.corr.curFib != s.a.corr.curFib then k.fA + 1 else k.fA)
      && k'.fB == (if s'.b.corr.curBib != s.b.corr.curBib then k.fB + 1 else k.fB)
  {
    hide Receive, InvA, InvB, GoodAB, GoodBA, OrderedAB, OrderedBA;
    OnlyReceivingFlips(s, k, act);
  }

  lemma OnlyReceivingFlips(s: Sys, k: Book, act: Action)
    requires Inv(s, k)
    ensures !act.RecvA? ==> Step(s, act).a.corr.curFib == s.a.corr.curFib
    ensures !act.RecvB? ==> Step(s, act).b.corr.curBib == s.b.corr.curBib
  {
  }

  /** A has followed all of B's requests, or all but the last; B makes a new request only when
      A has followed all of them, on a unit written after that; and A inverts its FIB only
      to follow the last request. */
  ghost predicate Alternating(s: Sys, s': Sys, act: Action, fA: nat, fB: nat, notes: seq<Note>) {
    && fA <= fB <= fA + 1
    && (s'.b.corr.curBib != s.b.corr.curBib ==>
          fA == fB && act.RecvB? && notes != [] && notes[0].phase == fA)
    && (s'.a.corr.curFib != s.a.corr.curFib ==> fB == fA + 1 && act.RecvA?)
  }

  /** When an action inverts A's FIB or B's BIB, in terms of the book. */
  lemma FlipsOfStep(s: Sys, k: Book, act: Action)
    requires Inv(s, k)
    ensures Alternating(s, Step(s, act), act, k.fA, k.fB, k.ab)
  {
    OnlyReceivingFlips(s, k, act);
    if act.RecvB? && s.ab != [] {
      ReceiveAtB(s, k, act.room);
    }
    if act.RecvA? && s.ba != [] {
      ReceiveAtA(s, k, act.room);
    }
  }

  lemma RequestsAlternate(alA: Align, alB: Align, w: nat, acts: seq<Action>, act: Action)
    requires Started(alA) && Started(alB) && w <= 127
    ensures var s0 := Init(alA, alB, w); var s := Run(s0, acts);
      Alternating(s, Step(s, act), act, FibFlips(s0, acts), BibFlips(s0, acts), RunBook(s0, acts).ab)
  {
    Reachable(alA, alB, w, acts);
    FlipsAreBooked(alA, alB, w, acts);
    FlipsOfStep(Start(alA, alB, w, acts), RunBook(Init(alA, alB, w), acts), act);
  }

  // ----- one uninterrupted retransmission cycle

  /** The link after n successful writes, and the units written. */
  function WriteN(l: Link, n: nat): (Link, seq<Unit>)
    requires CursorUsable(l.corr)
    requires n == 0 || (l.corr.cursor.At? && n <= l.corr.cursor.index + 1)
    decreases n
  {
    if n == 0 then (l, [])
    else
      var (l1, u) := Transmit(l, true);
      var (l2, us) := WriteN(l1, n - 1);
      (l2, [u] + us)
  }

  function Resent(c: Corr, s: Sent): Unit {
    Msu(Refreshed(c, s).h, s.info)
  }

  /** One write from a set cursor. */
  lemma WriteOne(l: Link)
    requires CursorUsable(l.corr) && l.corr.cursor.At?
    ensures var c, i := l.corr, l.corr.cursor.index; var (l1, u) := Transmit(l, true);
      && u == Resent(c, c.txBuf[i])
      && l1 == l.(corr := c.(txBuf := c.txBuf[i := Refreshed(c, c.txBuf[i])],
                             cursor := if i == 0 then Idle else At(i - 1)))
  {
  }

  /** From any link whose cursor is set, the next writes emit exactly the units from the
      cursor to the newest, oldest first, with the current FIB and BSN, before any new
      message or fill-in unit; nothing is added to or taken from tx_buf and tx_q. */
  lemma {:induction false} CycleEmitsOldestFirst(l: Link)
    requires CursorUsable(l.corr) && l.corr.cursor.At?
    ensures var i := l.corr.cursor.index; var (l', us) := WriteN(l, i + 1);
      && |us| == i + 1
      && (forall j :: 0 <= j <= i ==> us[j] == Resent(l.corr, l.corr.txBuf[i - j]))
      && l'.corr.cursor.Idle? && l'.corr.txQ == l.corr.txQ && l'.align == l.align
      && |l'.corr.txBuf| == |l.corr.txBuf|
      && (forall j :: 0 <= j < |l.corr.txBuf| ==>
            l'.corr.txBuf[j] == if j <= i then Refreshed(l.corr, l.corr.txBuf[j]) else l.corr.txBuf[j])
    decreases l.corr.cursor.index
  {
    hide Transmit;
    WriteOne(l);
    var i := l.corr.cursor.index;
    var (l1, u) := Transmit(l, true);
    if i > 0 {
      CycleEmitsOldestFirst(l1);
      var (l', us) := WriteN(l, i + 1);
      forall j | 0 <= j <= i ensures us[j] == Resent(l.corr, l.corr.txBuf[i - j]) {
        if j > 0 {
          assert us[j] == WriteN(l1, i).1[j - 1];
          assert l1.corr.txBuf[i - j] == l.corr.txBuf[i - j];
        }
      }
    } else {
      assert WriteN(l1, 0) == (l1, []);
    }
  }
}
