/** Basic error correction between two links A and B joined by lossy first-in first-out
    channels. Messages flow from A to B; B answers with fill-in units. Both ends run the
    link code of Mtp2Spec unchanged. */
module ErrorCorrection {
  import opened Octets
  import opened Mtp2Spec
  import opened Options

  datatype Sys = Sys(
    a: Link, b: Link, ab: seq<Unit>, ba: seq<Unit>,
    queued: seq<seq<Octet>>, delivered: seq<seq<Octet>>, window: nat)

  datatype Action =
    | QueueA(info: seq<Octet>)
    | SendA(ok: bool)
    | SendB(ok: bool)
    | RecvA(room: Room)
    | RecvB(room: Room)
    | LoseAB(at: nat)
    | LoseBA(at: nat)

  /** Both ends were reset and have completed proving; they may or may not be in service yet. */
  predicate Started(al: Align) {
    (al.state == ALIGNEDREADY || al.state == INSERVICE) && al.autoTx == FISU
  }

  function Init(alA: Align, alB: Align, w: nat): Sys {
    Sys(Link(ResetCorr(), Flag(alA)), Link(ResetCorr(), Flag(alB)), [], [], [], [], w)
  }

  function Drop<T>(s: seq<T>, i: nat): seq<T>
    requires i < |s|
  {
    s[..i] + s[i+1..]
  }

  /** The code itself has no window check. Here at most w units may be unacknowledged. */
  predicate MaySend(l: Link, w: nat) {
    CursorUsable(l.corr) && (l.corr.cursor.Idle? && l.corr.txQ != [] ==> |l.corr.txBuf| < w)
  }

  function Step(s: Sys, act: Action): Sys {
    match act
    case QueueA(info) => s.(a := Enqueue(s.a, info), queued := s.queued + [info])
    case SendA(ok) =>
      if !MaySend(s.a, s.window) then s
      else
        var (a, u) := Transmit(s.a, ok);
        s.(a := a, ab := if ok then s.ab + [u] else s.ab)
    case SendB(ok) =>
      if !MaySend(s.b, s.window) then s
      else
        var (b, u) := Transmit(s.b, ok);
        s.(b := b, ba := if ok then s.ba + [u] else s.ba)
    case RecvA(room) =>
      if s.ba == [] then s
      else s.(a := Receive(s.a, s.ba[0], room).0, ba := s.ba[1..])
    case RecvB(room) =>
      if s.ab == [] then s
      else
        var (b, got) := Receive(s.b, s.ab[0], room);
        s.(b := b, ab := s.ab[1..],
           delivered := if got.Some? then s.delivered + [got.value] else s.delivered)
    case LoseAB(i) => if i < |s.ab| then s.(ab := Drop(s.ab, i)) else s
    case LoseBA(i) => if i < |s.ba| then s.(ba := Drop(s.ba, i)) else s
  }

  function Run(s: Sys, acts: seq<Action>): Sys {
    if acts == [] then s else Step(Run(s, acts[..|acts|-1]), acts[|acts|-1])
  }

  // ----- book-keeping that the code does not have

  /** Absolute numbers: num counts messages from 1, lo is what A had seen acknowledged
      when it wrote the unit, phase is how often A had inverted its FIB. */
  datatype Note = Note(num: nat, lo: nat, phase: nat)

  /** An answer of B: how many messages it had accepted, how often it had inverted its BIB. */
  datatype Ack = Ack(num: nat, phase: nat)

  datatype Book = Book(acked: nat, sent: nat, fA: nat, fB: nat, ab: seq<Note>, ba: seq<Ack>)

  function Fsn(n: nat): Seven { (n + 127) % 128 }
  predicate Bit(phase: nat) { phase % 2 == 0 }

  /** The number of the next message unit A will write. */
  function Next(s: Sys, k: Book): int {
    if s.a.corr.cursor.At? then k.sent - s.a.corr.cursor.index else k.sent + 1
  }

  function NewlySent(s: Sys, k: Book): nat {
    if s.a.corr.cursor.Idle? && s.a.corr.txQ != [] then k.sent + 1 else k.sent
  }

  /** The note for what A writes next: a retransmission, a new message, or a FISU. */
  function NoteOfA(s: Sys, k: Book): Note {
    var num := if s.a.corr.cursor.At? && Next(s, k) >= 0 then Next(s, k) as nat else NewlySent(s, k);
    Note(num, k.acked, k.fA)
  }

  function StepBook(s: Sys, k: Book, act: Action): Book {
    match act
    case QueueA(_) => k
    case SendA(ok) =>
      if !MaySend(s.a, s.window) then k
      else
        k.(sent := NewlySent(s, k), ab := if ok then k.ab + [NoteOfA(s, k)] else k.ab)
    case SendB(ok) =>
      if ok && MaySend(s.b, s.window) then k.(ba := k.ba + [Ack(|s.delivered|, k.fB)]) else k
    case RecvA(_) =>
      if s.ba == [] || k.ba == [] then k
      else
        k.(acked := k.ba[0].num, ba := k.ba[1..],
           fA := if Step(s, act).a.corr.curFib != s.a.corr.curFib then k.fA + 1 else k.fA)
    case RecvB(_) =>
      if s.ab == [] || k.ab == [] then k
      else
        k.(ab := k.ab[1..],
           fB := if Step(s, act).b.corr.curBib != s.b.corr.curBib then k.fB + 1 else k.fB)
    case LoseAB(i) => if i < |s.ab| && i < |k.ab| then k.(ab := Drop(k.ab, i)) else k
    case LoseBA(i) => if i < |s.ba| && i < |k.ba| then k.(ba := Drop(k.ba, i)) else k
  }

  function RunBook(s: Sys, acts: seq<Action>): Book {
    if acts == [] then Book(0, 0, 0, 0, [], [])
    else StepBook(Run(s, acts[..|acts|-1]), RunBook(s, acts[..|acts|-1]), acts[|acts|-1])
  }

  // ----- the invariant

  /** A list of unacknowledged units, newest first: FSNs run down from the last one sent. */
  ghost predicate Numbered(buf: seq<Sent>, queued: seq<seq<Octet>>, sent: nat) {
    && |buf| <= sent <= |queued|
    && forall i :: 0 <= i < |buf| ==>
         buf[i].h.fsn == Fsn(sent - i) && buf[i].h.bib && buf[i].info == queued[sent - i - 1]
  }

  ghost predicate InvA(s: Sys, k: Book) {
    var c := s.a.corr;
    && Started(s.a.align)
    && c.curFsn == Fsn(k.sent) && c.curFib == Bit(k.fA) && c.curBib && c.lastFsnAcked == 127
    && k.acked <= |s.delivered| <= k.sent <= |s.queued|
    && k.sent - k.acked <= 127
    && |c.txBuf| == k.sent - k.acked
    && Numbered(c.txBuf, s.queued, k.sent)
    && c.txQ == s.queued[k.sent..]
    && CursorUsable(c)
    && |s.delivered| < Next(s, k)
    && (c.cursor.At? || c.txQ != [] ==> s.a.align.write)
  }

  ghost predicate InvB(s: Sys, k: Book) {
    var c := s.b.corr;
    && Started(s.b.align)
    && c.curFsn == 127 && c.curFib && c.curBib == Bit(k.fB)
    && c.lastFsnAcked == Fsn(|s.delivered|)
    && c.txBuf == [] && c.txQ == [] && c.cursor.Idle?
    && |s.delivered| <= |s.queued|
    && s.delivered == s.queued[..|s.delivered|]
  }

  ghost predicate InvPhase(s: Sys, k: Book) {
    && k.fA <= k.fB <= k.fA + 1
    && (k.fA < k.fB ==> |s.delivered| < k.sent)
  }

  /** The numbers the units under way are measured against. */
  datatype Marks = Marks(
    queued: seq<seq<Octet>>, acked: nat, taken: nat, sent: nat, next: int, fA: nat, fB: nat)

  function MarksOf(s: Sys, k: Book): Marks {
    Marks(s.queued, k.acked, |s.delivered|, k.sent, Next(s, k), k.fA, k.fB)
  }

  /** What one unit on its way to B carries. */
  ghost predicate GoodAB(m: Marks, u: Unit, n: Note) {
    && !u.Lssu?
    && u.h == Header(127, true, Fsn(n.num), Bit(n.phase))
    && n.lo <= n.num <= m.sent && n.num <= n.lo + 127
    && m.taken <= n.lo + 127
    && m.fB <= n.phase + 1 && n.phase <= m.fA
    && (n.phase == m.fA ==> n.num < m.next)
    && (u.Msu? ==> n.lo < n.num <= |m.queued| && u.info == m.queued[n.num - 1])
    && (n.phase == m.fB ==> if u.Msu? then m.taken < n.num else m.taken <= n.num)
  }

  ghost predicate OrderedAB(u: Unit, n0: Note, n1: Note) {
    && n0.phase <= n1.phase
    && n0.num <= n1.lo + 127
    && (n0.phase == n1.phase ==> if u.Msu? then n0.num < n1.num else n0.num <= n1.num)
  }

  ghost predicate InvAB(m: Marks, ab: seq<Unit>, notes: seq<Note>) {
    && |ab| == |notes|
    && (forall i :: 0 <= i < |ab| ==> GoodAB(m, ab[i], notes[i]))
    && (forall i, j :: 0 <= i < j < |ab| ==> OrderedAB(ab[j], notes[i], notes[j]))
  }

  /** What one unit on its way to A carries. */
  ghost predicate GoodBA(m: Marks, u: Unit, n: Ack) {
    && u == Fisu(Header(Fsn(n.num), Bit(n.phase), 127, true))
    && m.acked <= n.num <= m.taken
    && m.fA <= n.phase <= m.fB
    && (n.phase == m.fA + 1 ==> n.num == m.taken)
  }

  ghost predicate OrderedBA(n0: Ack, n1: Ack) {
    n0.num <= n1.num && n0.phase <= n1.phase
  }

  ghost predicate InvBA(m: Marks, ba: seq<Unit>, acks: seq<Ack>) {
    && |ba| == |acks|
    && (forall i :: 0 <= i < |ba| ==> GoodBA(m, ba[i], acks[i]))
    && (forall i, j :: 0 <= i < j < |ba| ==> OrderedBA(acks[i], acks[j]))
  }

  ghost predicate Inv(s: Sys, k: Book) {
    var m := MarksOf(s, k);
    s.window <= 127 && InvA(s, k) && InvB(s, k) && InvPhase(s, k) && InvAB(m, s.ab, k.ab) && InvBA(m, s.ba, k.ba)
  }

  // ----- arithmetic of the seven-bit numbers

  lemma FsnNext(n: nat)
    ensures NextFsn(Fsn(n)) == Fsn(n + 1)
  {
  }

  lemma FsnWindow(m: nat, n: nat)
    requires Fsn(m) == Fsn(n) && m < n + 128 && n < m + 128
    ensures m == n
  {
  }

  /** Within a window of 127 a released number is met by no unit, any other by one. */
  lemma FindInWindow(c: Corr, queued: seq<seq<Octet>>, acked: nat, sent: nat, b: nat)
    requires acked <= b <= sent && sent - acked <= 127 && |c.txBuf| == sent - acked
    requires Numbered(c.txBuf, queued, sent)
    ensures FindFsn(c.txBuf, Fsn(b)) == sent - b
  {
    var n := FindFsn(c.txBuf, Fsn(b));
    if n < |c.txBuf| {
      FsnWindow(sent - n, b);
    }
    if acked < b {
      assert c.txBuf[sent - b].h.fsn == Fsn(b);
    }
  }

  // ----- the channels

  lemma DropKeepsAB(m: Marks, ab: seq<Unit>, notes: seq<Note>, at: nat)
    requires InvAB(m, ab, notes) && at < |ab|
    ensures InvAB(m, Drop(ab, at), Drop(notes, at))
  {
    var ab', notes' := Drop(ab, at), Drop(notes, at);
    forall i | 0 <= i < |ab'| ensures GoodAB(m, ab'[i], notes'[i]) {
      var p := if i < at then i else i + 1;
      assert GoodAB(m, ab[p], notes[p]);
    }
    forall i, j | 0 <= i < j < |ab'| ensures OrderedAB(ab'[j], notes'[i], notes'[j]) {
      var p := if i < at then i else i + 1;
      var q := if j < at then j else j + 1;
      assert OrderedAB(ab[q], notes[p], notes[q]);
    }
  }

  lemma DropKeepsBA(m: Marks, ba: seq<Unit>, acks: seq<Ack>, at: nat)
    requires InvBA(m, ba, acks) && at < |ba|
    ensures InvBA(m, Drop(ba, at), Drop(acks, at))
  {
    var ba', acks' := Drop(ba, at), Drop(acks, at);
    forall i | 0 <= i < |ba'| ensures GoodBA(m, ba'[i], acks'[i]) {
      var p := if i < at then i else i + 1;
      assert GoodBA(m, ba[p], acks[p]);
    }
    forall i, j | 0 <= i < j < |ba'| ensures OrderedBA(acks'[i], acks'[j]) {
      var p := if i < at then i else i + 1;
      var q := if j < at then j else j + 1;
      assert OrderedBA(acks[p], acks[q]);
    }
  }

  /** Putting one unit at the end of the channel to B. */
  lemma AppendKeepsAB(m: Marks, ab: seq<Unit>, notes: seq<Note>, u: Unit, n: Note)
    requires InvAB(m, ab, notes) && GoodAB(m, u, n)
    requires forall i :: 0 <= i < |ab| ==> OrderedAB(u, notes[i], n)
    ensures InvAB(m, ab + [u], notes + [n])
  {
  }

  /** Acceptance moves B on by one message; an inversion of its BIB moves it to a phase no
      unit under way belongs to. */
  lemma TakeKeepsAB(m: Marks, m': Marks, ab: seq<Unit>, notes: seq<Note>)
    requires InvAB(m, ab, notes) && ab != []
    requires m' == m.(taken := m.taken + 1, fB := m'.fB) || m' == m.(fB := m'.fB)
    requires m'.taken > m.taken ==> notes[0].num == m.taken + 1
    requires m'.fB == m.fB || (m'.fB == m.fB + 1 && m.fA == m.fB == notes[0].phase)
    requires m'.taken > m.taken ==> m'.fB == m.fB == notes[0].phase
    ensures InvAB(m', ab[1..], notes[1..])
  {
    forall i | 0 <= i < |ab[1..]| ensures GoodAB(m', ab[1..][i], notes[1..][i]) {
      assert GoodAB(m, ab[i+1], notes[i+1]);
      assert OrderedAB(ab[i+1], notes[0], notes[i+1]);
    }
    forall i, j | 0 <= i < j < |ab[1..]| ensures OrderedAB(ab[1..][j], notes[1..][i], notes[1..][j]) {
      assert OrderedAB(ab[j+1], notes[i+1], notes[j+1]);
    }
  }

  /** A moves to what the answer acknowledged and, if it followed, to B's phase. */
  lemma AnswerKeepsBA(m: Marks, m': Marks, ba: seq<Unit>, acks: seq<Ack>)
    requires InvBA(m, ba, acks) && ba != []
    requires m'.acked == acks[0].num && m'.taken == m.taken && m'.fB == m.fB <= m.fA + 1
    requires m'.fA == m.fA || m'.fA == m.fA + 1 == acks[0].phase
    ensures InvBA(m', ba[1..], acks[1..])
  {
    forall i | 0 <= i < |ba[1..]| ensures GoodBA(m', ba[1..][i], acks[1..][i]) {
      assert GoodBA(m, ba[i+1], acks[i+1]);
      assert OrderedBA(acks[0], acks[i+1]);
    }
    forall i, j | 0 <= i < j < |ba[1..]| ensures OrderedBA(acks[1..][i], acks[1..][j]) {
      assert OrderedBA(acks[i+1], acks[j+1]);
    }
  }

  // ----- each action keeps the invariant

  lemma KeepsQueueA(s: Sys, k: Book, act: Action)
    requires Inv(s, k) && act.QueueA?
    ensures Inv(Step(s, act), StepBook(s, k, act))
  {
    var s' := Step(s, act);
    var m, m' := MarksOf(s, k), MarksOf(s', k);
    forall i | 0 <= i < |s'.ab| ensures GoodAB(m', s'.ab[i], k.ab[i]) {
      assert GoodAB(m, s.ab[i], k.ab[i]);
    }
    forall i | 0 <= i < |s'.ba| ensures GoodBA(m', s'.ba[i], k.ba[i]) {
      assert GoodBA(m, s.ba[i], k.ba[i]);
    }
  }

  lemma RefreshKeepsNumbers(buf: seq<Sent>, queued: seq<seq<Octet>>, sent: nat, i: nat, s: Sent)
    requires Numbered(buf, queued, sent) && i < |buf|
    requires s.info == buf[i].info && s.h.fsn == buf[i].h.fsn && s.h.bib
    ensures Numbered(buf[i := s], queued, sent)
  {
  }

  lemma LaunchKeepsNumbers(buf: seq<Sent>, queued: seq<seq<Octet>>, sent: nat, s: Sent)
    requires Numbered(buf, queued, sent) && sent < |queued|
    requires s.info == queued[sent] && s.h.fsn == Fsn(sent + 1) && s.h.bib
    ensures Numbered([s] + buf, queued, sent + 1)
  {
    forall i | 0 < i < |[s] + buf|
      ensures ([s] + buf)[i].h.fsn == Fsn(sent + 1 - i) && ([s] + buf)[i].h.bib
      ensures ([s] + buf)[i].info == queued[sent + 1 - i - 1]
    {
      assert buf[i-1].h.fsn == Fsn(sent - (i - 1));
    }
  }

  lemma SendKeepsA(s: Sys, k: Book, ok: bool)
    requires Inv(s, k) && MaySend(s.a, s.window)
    ensures InvA(Step(s, SendA(ok)), StepBook(s, k, SendA(ok)))
    ensures Next(s, k) <= Next(Step(s, SendA(ok)), StepBook(s, k, SendA(ok)))
  {
    hide Fsn, NextFsn, InvAB, InvBA, InvB, InvPhase, MarksOf;
    FsnNext(k.sent);
    var c := s.a.corr;
    if c.cursor.At? {
      RefreshKeepsNumbers(c.txBuf, s.queued, k.sent, c.cursor.index, Refreshed(c, c.txBuf[c.cursor.index]));
    } else if c.txQ != [] {
      LaunchKeepsNumbers(c.txBuf, s.queued, k.sent, Launch(c).txBuf[0]);
    }
  }

  /** The unit A writes carries the number, the phase and the message its note says. */
  lemma UnitWritten(s: Sys, k: Book)
    requires InvA(s, k) && MaySend(s.a, s.window)
    ensures var u, n, c := Transmit(s.a, true).1, NoteOfA(s, k), s.a.corr;
      && !u.Lssu? && u.h == Header(127, true, Fsn(n.num), Bit(k.fA))
      && (u.Msu? <==> c.cursor.At? || c.txQ != [])
      && (u.Msu? ==> 0 < n.num <= |s.queued| && u.info == s.queued[n.num - 1])
  {
    hide Fsn, NextFsn, AfterWrite, Bit;
    FsnNext(k.sent);
    var c := s.a.corr;
    if c.cursor.At? {
      assert c.txBuf[c.cursor.index].h.fsn == Fsn(k.sent - c.cursor.index);
    } else if c.txQ != [] {
      assert c.txQ[0] == s.queued[k.sent];
    }
  }

  /** The number of what A writes stays within the window, above what B took and below what comes next. */
  lemma NumberWritten(s: Sys, k: Book)
    requires InvA(s, k) && MaySend(s.a, s.window) && s.window <= 127
    ensures var n, c := NoteOfA(s, k), s.a.corr; var s', k' := Step(s, SendA(true)), StepBook(s, k, SendA(true));
      && n.num <= k'.sent <= |s.queued| && k'.sent <= k.acked + 127
      && n.num < Next(s', k')
      && |s.delivered| <= n.num
      && (c.cursor.At? || c.txQ != [] ==> |s.delivered| < n.num == Next(s, k))
      && (c.cursor.Idle? && c.txQ == [] ==> n.num == k.sent)
  {
    hide Fsn, NextFsn, FillIn, Numbered, Bit, Refreshed;
  }

  /** What A writes: the unit under the cursor, else the next new message, else a FISU. */
  lemma SendWrites(s: Sys, k: Book)
    requires Inv(s, k) && MaySend(s.a, s.window)
    ensures var u, n := Transmit(s.a, true).1, NoteOfA(s, k);
      GoodAB(MarksOf(Step(s, SendA(true)), StepBook(s, k, SendA(true))), u, n)
      && (if u.Msu? then n.num == Next(s, k) else n.num == k.sent)
  {
    hide Fsn, Bit, Transmit, Next, Numbered, InvB, InvAB, InvBA;
    UnitWritten(s, k);
    NumberWritten(s, k);
  }

  lemma KeepsSendA(s: Sys, k: Book, act: Action)
    requires Inv(s, k) && act.SendA?
    ensures Inv(Step(s, act), StepBook(s, k, act))
  {
    if MaySend(s.a, s.window) {
      SendKeepsA(s, k, act.ok);
      var s', k' := Step(s, act), StepBook(s, k, act);
      var m, m' := MarksOf(s, k), MarksOf(s', k');
      forall i | 0 <= i < |s.ab| ensures GoodAB(m', s.ab[i], k.ab[i]) {
        assert GoodAB(m, s.ab[i], k.ab[i]);
      }
      assert InvAB(m', s.ab, k.ab);
      if act.ok {
        SendWrites(s, k);
        var u, n := Transmit(s.a, true).1, NoteOfA(s, k);
        forall i | 0 <= i < |s.ab| ensures OrderedAB(u, k.ab[i], n) {
          assert GoodAB(m, s.ab[i], k.ab[i]);
        }
        AppendKeepsAB(m', s.ab, k.ab, u, n);
      }
      forall i | 0 <= i < |s'.ba| ensures GoodBA(m', s'.ba[i], k'.ba[i]) {
        assert GoodBA(m, s.ba[i], k.ba[i]);
      }
    }
  }

  lemma KeepsSendB(s: Sys, k: Book, act: Action)
    requires Inv(s, k) && act.SendB?
    ensures Inv(Step(s, act), StepBook(s, k, act))
  {
    var s', k' := Step(s, act), StepBook(s, k, act);
    var m := MarksOf(s, k);
    assert MarksOf(s', k') == m;
    forall i, j | 0 <= i < j < |s'.ba| ensures OrderedBA(k'.ba[i], k'.ba[j]) {
      assert GoodBA(m, s.ba[i], k.ba[i]);
      if j < |s.ba| { assert OrderedBA(k.ba[i], k.ba[j]); }
    }
  }

  lemma KeepsLoseAB(s: Sys, k: Book, act: Action)
    requires Inv(s, k) && act.LoseAB?
    ensures Inv(Step(s, act), StepBook(s, k, act))
  {
    if act.at < |s.ab| {
      DropKeepsAB(MarksOf(s, k), s.ab, k.ab, act.at);
    }
  }

  lemma KeepsLoseBA(s: Sys, k: Book, act: Action)
    requires Inv(s, k) && act.LoseBA?
    ensures Inv(Step(s, act), StepBook(s, k, act))
  {
    if act.at < |s.ba| {
      DropKeepsBA(MarksOf(s, k), s.ba, k.ba, act.at);
    }
  }

  lemma NothingToAcknowledge(s: Sys, k: Book)
    requires Inv(s, k) && s.ab != []
    ensures Acknowledge(s.b, s.ab[0].h) == s.b
  {
    assert GoodAB(MarksOf(s, k), s.ab[0], k.ab[0]);
    assert s.b.corr.txBuf[..0] == [];
    assert Release(s.b.corr, s.ab[0].h.bsn) == s.b.corr;
  }

  /** A FISU that acknowledges nothing: B may ask again, and changes nothing else but its alignment. */
  lemma FisuAtB(l: Link, u: Unit, room: Room)
    requires Started(l.align) && u.Fisu? && Acknowledge(l, u.h) == l
    ensures var (b, got) := Receive(l, u, room);
      && Started(b.align) && (l.align.state == INSERVICE ==> b.align.state == INSERVICE)
      && got.None?
      && b.corr == if FisuShowsGap(l, u.h) then l.corr.(curBib := !l.corr.curBib) else l.corr
  {
    hide Acknowledge;
  }

  /** A message unit that acknowledges nothing is accepted, asked for again or ignored. */
  lemma MsuAtB(l: Link, u: Unit, room: Room)
    requires Started(l.align) && u.Msu? && Acknowledge(l, u.h) == l
    ensures var (b, got) := Receive(l, u, room); var c := l.corr;
      && Started(b.align) && (l.align.state == INSERVICE ==> b.align.state == INSERVICE)
      && if u.h.fib != c.curBib || u.h.fsn == c.lastFsnAcked then got.None? && b.corr == c
         else if u.h.fsn != NextFsn(c.lastFsnAcked) then got.None? && b.corr == c.(curBib := !c.curBib)
         else got == Some(u.info) && b.corr == c.(lastFsnAcked := u.h.fsn)
  {
    hide Acknowledge, NextFsn;
  }

  /** What B can tell from a header: whether the unit belongs to its own phase, and, if it does, whether its
      number is the last one B took or the next one. */
  lemma HeaderTells(m: Marks, u: Unit, n: Note)
    requires GoodAB(m, u, n) && m.fA <= m.fB && m.sent <= m.taken + 127
    ensures u.h.fib == Bit(m.fB) <==> n.phase == m.fB
    ensures n.phase == m.fB ==> (u.h.fsn == Fsn(m.taken) <==> n.num == m.taken)
    ensures n.phase == m.fB ==> (u.h.fsn == NextFsn(Fsn(m.taken)) <==> n.num == m.taken + 1)
  {
    FsnNext(m.taken);
    if n.phase == m.fB {
      if Fsn(n.num) == Fsn(m.taken) { FsnWindow(n.num, m.taken); }
      if Fsn(n.num) == Fsn(m.taken + 1) { FsnWindow(n.num, m.taken + 1); }
    }
  }

  /** The same for the unit at the head of the channel, which also acknowledges nothing. */
  lemma HeadTells(s: Sys, k: Book)
    requires Inv(s, k) && s.ab != []
    ensures var u, n, c := s.ab[0], k.ab[0], s.b.corr;
      && Started(s.b.align) && !u.Lssu? && Acknowledge(s.b, u.h) == s.b
      && n.phase <= k.fA <= k.fB && n.num <= k.sent && (n.phase == k.fA ==> n.num < Next(s, k))
      && (u.Msu? && n.num > 0 ==> n.num <= |s.queued| && u.info == s.queued[n.num - 1])
      && (u.h.fib == c.curBib <==> n.phase == k.fB)
      && (n.phase == k.fB ==> n.num >= if u.Msu? then |s.delivered| + 1 else |s.delivered|)
      && (n.phase == k.fB ==> (u.h.fsn == c.lastFsnAcked <==> n.num == |s.delivered|))
      && (n.phase == k.fB ==> (u.h.fsn == NextFsn(c.lastFsnAcked) <==> n.num == |s.delivered| + 1))
      && c.lastFsnAcked == Fsn(|s.delivered|)
  {
    hide Fsn, NextFsn, Bit, OrderedAB, Numbered, Acknowledge, CursorUsable, Next;
    assert GoodAB(MarksOf(s, k), s.ab[0], k.ab[0]);
    NothingToAcknowledge(s, k);
    HeaderTells(MarksOf(s, k), s.ab[0], k.ab[0]);
  }

  /** A unit reaching B either extends what was delivered by the next message, or leaves it
      alone; a BIB inversion needs a unit that A wrote after matching the previous one. */
  lemma ReceiveAtB(s: Sys, k: Book, room: Room)
    requires Inv(s, k) && s.ab != []
    ensures var (b, got) := Receive(s.b, s.ab[0], room);
      && Started(b.align)
      && (got.Some? ==>
            && k.fA == k.fB == k.ab[0].phase && k.ab[0].num == |s.delivered| + 1 <= k.sent
            && |s.delivered| + 1 < Next(s, k)
            && got.value == s.queued[|s.delivered|])
      && b.corr == s.b.corr.(curBib := b.corr.curBib,
           lastFsnAcked := Fsn(if got.Some? then |s.delivered| + 1 else |s.delivered|))
      && (got.Some? ==> b.corr.curBib == s.b.corr.curBib)
      && (b.corr.curBib != s.b.corr.curBib ==>
            k.fA == k.fB == k.ab[0].phase && |s.delivered| < k.ab[0].num <= k.sent)
  {
    hide Inv, Fsn, NextFsn, Receive, Acknowledge, Next, Started;
    HeadTells(s, k);
    FsnNext(|s.delivered|);
    if s.ab[0].Fisu? { FisuAtB(s.b, s.ab[0], room); } else { MsuAtB(s.b, s.ab[0], room); }
  }

  /** What a unit taken in by B does to the system and to the book. */
  lemma RecvMarks(s: Sys, k: Book, room: Room)
    requires Inv(s, k) && s.ab != []
    ensures var s', k' := Step(s, RecvB(room)), StepBook(s, k, RecvB(room));
      && s' == s.(b := s'.b, ab := s.ab[1..], delivered := s'.delivered)
      && k' == k.(ab := k.ab[1..], fB := k'.fB)
      && Next(s', k') == Next(s, k)
      && MarksOf(s', k') == MarksOf(s, k).(taken := |s'.delivered|, fB := k'.fB)
  {
    hide Receive, Inv;
    ChannelsMatch(s, k);
  }

  lemma ChannelsMatch(s: Sys, k: Book)
    requires Inv(s, k)
    ensures |s.ab| == |k.ab| && |s.ba| == |k.ba|
  {
  }

  lemma KeepsRecvB(s: Sys, k: Book, act: Action)
    requires Inv(s, k) && act.RecvB?
    ensures Inv(Step(s, act), StepBook(s, k, act))
  {
    hide Receive, Fsn, Next, Started, GoodAB, OrderedAB, Acknowledge;
    if s.ab != [] {
      ReceiveAtB(s, k, act.room);
      RecvMarks(s, k, act.room);
      var s', k' := Step(s, act), StepBook(s, k, act);
      var m, m' := MarksOf(s, k), MarksOf(s', k');
      TakeKeepsAB(m, m', s.ab, k.ab);
      forall i | 0 <= i < |s'.ba| ensures GoodBA(m', s'.ba[i], k'.ba[i]) {
        assert GoodBA(m, s.ba[i], k.ba[i]);
      }
    }
  }

  /** A fill-in unit at most puts a started link into service. */
  lemma StartedStays(al: Align, room: Room)
    requires Started(al)
    ensures var al' := AlignFisuRx(al, room); Started(al') && (al.write ==> al'.write)
    ensures var al' := AlignFisuRx(Flag(al), room); Started(al') && al'.write
  {
    hide FromIdle, FromNotAligned, FromAligned, FromProving, FromInService, ToIdle;
  }

  /** A unit reaching A releases exactly what B had delivered when it answered, never the
      unit under the cursor; and when A is asked to retransmit it has something to send. */
  lemma ReceiveAtA(s: Sys, k: Book, room: Room)
    requires Inv(s, k) && s.ba != []
    ensures var a := Receive(s.a, s.ba[0], room).0; var b := k.ba[0].num;
      && Started(a.align)
      && a.corr.txBuf == s.a.corr.txBuf[..k.sent - b]
      && a.corr.txQ == s.a.corr.txQ && a.corr.curFsn == s.a.corr.curFsn
      && a.corr.curBib && a.corr.lastFsnAcked == 127
      && (a.corr.curFib == s.a.corr.curFib ==> a.corr.cursor == s.a.corr.cursor)
      && (a.corr.curFib != s.a.corr.curFib ==>
            && k.fB == k.fA + 1 && k.ba[0].phase == k.fB && b == |s.delivered| < k.sent
            && a.corr.cursor == At(k.sent - b - 1))
      && (s.a.align.write || a.corr.curFib != s.a.corr.curFib ==> a.align.write)
  {
    hide Fsn, InvB, InvAB, OrderedBA, Numbered, SetState, AlignFisuRx, Started;
    var u, n := s.ba[0], k.ba[0];
    StartedStays(s.a.align, room);
    assert GoodBA(MarksOf(s, k), u, n);
    FindInWindow(s.a.corr, s.queued, k.acked, k.sent, n.num);
    var c := Release(s.a.corr, u.h.bsn);
    assert c.cursor == s.a.corr.cursor;
    if s.a.align.state == INSERVICE && u.h.bib != s.a.corr.curFib {
      assert n.phase == k.fA + 1;
    }
  }

  /** A in service follows whatever BIB a fill-in unit carries. */
  lemma FollowsAnswer(l: Link, u: Unit, room: Room)
    requires u.Fisu? && l.align.state == INSERVICE
    ensures var a := Receive(l, u, room).0;
      a.align.state == INSERVICE && a.corr.curFib == u.h.bib
  {
    hide FindFsn, SetState, FisuShowsGap;
  }

  lemma RecvKeepsA(s: Sys, k: Book, act: Action)
    requires Inv(s, k) && act.RecvA? && s.ba != []
    ensures InvA(Step(s, act), StepBook(s, k, act))
  {
    hide Receive, Fsn, InvB, InvAB, OrderedBA, Started;
    ReceiveAtA(s, k, act.room);
    assert GoodBA(MarksOf(s, k), s.ba[0], k.ba[0]);
    assert Numbered(s.a.corr.txBuf[..k.sent - k.ba[0].num], s.queued, k.sent);
  }

  lemma KeepsRecvA(s: Sys, k: Book, act: Action)
    requires Inv(s, k) && act.RecvA?
    ensures Inv(Step(s, act), StepBook(s, k, act))
  {
    if s.ba != [] {
      RecvKeepsA(s, k, act);
      ReceiveAtA(s, k, act.room);
      var s', k' := Step(s, act), StepBook(s, k, act);
      var m, m' := MarksOf(s, k), MarksOf(s', k');
      assert GoodBA(m, s.ba[0], k.ba[0]);
      forall i | 0 <= i < |s'.ab| ensures GoodAB(m', s'.ab[i], k'.ab[i]) {
        assert GoodAB(m, s.ab[i], k.ab[i]);
      }
      AnswerKeepsBA(m, m', s.ba, k.ba);
    }
  }

  lemma Keeps(s: Sys, k: Book, act: Action)
    requires Inv(s, k)
    ensures Inv(Step(s, act), StepBook(s, k, act))
  {
    match act
    case QueueA(_) => KeepsQueueA(s, k, act);
    case SendA(_) => KeepsSendA(s, k, act);
    case SendB(_) => KeepsSendB(s, k, act);
    case RecvA(_) => KeepsRecvA(s, k, act);
    case RecvB(_) => KeepsRecvB(s, k, act);
    case LoseAB(_) => KeepsLoseAB(s, k, act);
    case LoseBA(_) => KeepsLoseBA(s, k, act);
  }

  lemma {:induction false} Reachable(alA: Align, alB: Align, w: nat, acts: seq<Action>)
    requires Started(alA) && Started(alB) && w <= 127
    ensures Inv(Run(Init(alA, alB, w), acts), RunBook(Init(alA, alB, w), acts))
  {
    if acts != [] {
      var before := acts[..|acts|-1];
      Reachable(alA, alB, w, before);
      Keeps(Run(Init(alA, alB, w), before), RunBook(Init(alA, alB, w), before), acts[|acts|-1]);
    }
  }
}
