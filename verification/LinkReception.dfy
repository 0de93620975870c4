/** Receiving on one link: its alignment moves as the alignment runs say, whatever its lists hold; when
    messages are passed up; and which acknowledgements leave the retransmission cursor on a freed unit. */
module LinkReception {
  import opened Octets
  import opened Mtp2Spec
  import opened Options
  import Alignment

  function InputOf(u: Unit): Alignment.Input {
    match u
    case Fisu(_) => Alignment.RxFisu
    case Lssu(_, status) => Alignment.RxLssu(status)
    case Msu(_, _) => Alignment.RxMsu
  }

  /** The alignment part of a received unit is a step of the alignment runs; error correction only adds
      to the wish to write. */
  lemma ReceptionAligns(l: Link, u: Unit, room: Room)
    ensures var r := Receive(l, u, room).0.align;
      var a := Alignment.Step(l.align, Alignment.Event(InputOf(u), room));
      r == a.(write := r.write) && (a.write ==> r.write)
  {
    hide SetState, LssuReaction, Release, Retransmit;
    var l1 := Acknowledge(l, u.h);
    FlaggedAlike(l.align, u, room);
    assert l1.align == l.align || l1.align == Flag(l.align);
    AlignmentIgnoresLists(l1, u, room);
  }

  /** The wish to write does not matter for what a unit does. */
  lemma FlaggedAlike(a: Align, u: Unit, room: Room)
    ensures var i := Alignment.Event(InputOf(u), room);
      Alignment.Step(Flag(a), i) == Flag(Alignment.Step(a, i))
  {
    hide Flag, LssuReaction, SetState;
    FlagKeepsState(a);
    FlagsReceipts(a, FISU, a.emergency);
    match u
    case Fisu(_) =>
      FlaggedMoves(a.(lastSuRxd := FISU), ALIGNEDREADY, room);
      FlaggedMoves(a.(lastSuRxd := FISU), INSERVICE, room);
    case Msu(_, _) => FlaggedMoves(a, INSERVICE, room);
    case Lssu(_, status) =>
      var emergency := a.emergency || status == LSSU_SIE;
      FlagsReceipts(a, status, emergency);
      FlaggedReaction(a.(lastSuRxd := status, emergency := emergency), status, room);
  }

  lemma FlagsReceipts(a: Align, su: int, emergency: bool)
    ensures Flag(a).lastSuRxd == a.lastSuRxd && Flag(a).emergency == a.emergency
    ensures Flag(a).(lastSuRxd := su) == Flag(a.(lastSuRxd := su))
    ensures Flag(a).(lastSuRxd := su, emergency := emergency) == Flag(a.(lastSuRxd := su, emergency := emergency))
  {
  }

  lemma FlaggedReaction(a: Align, status: int, room: Room)
    ensures LssuReaction(Flag(a), status, room) == Flag(LssuReaction(a, status, room))
  {
    hide SetState, Flag, ProvingFor;
    var p := a.(proving := ProvingFor(a, status));
    FlaggedProvingFor(a, status);
    match a.state
    case ALARM =>
    case IDLE | NOTALIGNED =>
      FlaggedMoves(a, NOTALIGNED, room);
      FlaggedMoves(p, ALIGNED, room);
      FlaggedMoves(p, PROVING, room);
    case ALIGNED =>
      FlaggedMoves(a, IDLE, room);
      FlaggedMoves(p, PROVING, room);
    case PROVING =>
      FlaggedMoves(a, IDLE, room);
      FlaggedMoves(a, ALIGNED, room);
    case ALIGNEDREADY | INSERVICE => FlaggedMoves(a, IDLE, room);
  }

  lemma FlaggedProvingFor(a: Align, status: int)
    ensures var p := ProvingFor(a, status);
      ProvingFor(Flag(a), status) == p && Flag(a).(proving := p) == Flag(a.(proving := p)) && Flag(a).state == a.state
  {
  }

  lemma FlagKeepsState(a: Align)
    ensures Flag(a).state == a.state
  {
  }

  lemma FlaggedMoves(a: Align, s: LinkState, room: Room)
    ensures SetState(Flag(a), s, room) == Flag(SetState(a, s, room))
  {
    hide Flag, FromIdle, FromNotAligned, FromAligned, FromProving, FromAlignedReady, FromInService;
    FlagKeepsState(a);
    match a.state
    case ALARM =>
    case IDLE => FlaggedToIdle(a, room);
    case NOTALIGNED => FlaggedNotAligned(a, s, room);
    case ALIGNED => FlaggedAligned(a, s, room);
    case PROVING => FlaggedProving(a, s, room);
    case ALIGNEDREADY => FlaggedReady(a, s, room);
    case INSERVICE => FlaggedService(a, s, room);
  }

  lemma FlagsTimers(a: Align, armed: bool)
    ensures && Flag(a).(t1 := armed) == Flag(a.(t1 := armed)) && Flag(a).(t2 := armed) == Flag(a.(t2 := armed))
            && Flag(a).(t3 := armed) == Flag(a.(t3 := armed)) && Flag(a).(t4 := armed) == Flag(a.(t4 := armed))
  {
  }

  lemma FlagsState(a: Align, s: LinkState)
    ensures Flag(a).(state := s) == Flag(a.(state := s))
  {
  }

  lemma SendingFlags(a: Align, su: int)
    ensures AutoSend(Flag(a), su) == AutoSend(a, su) && Flag(AutoSend(a, su)) == AutoSend(a, su)
    ensures AlignLssu(Flag(a)) == AlignLssu(a) && Flag(AlignLssu(a)) == AlignLssu(a)
  {
  }

  lemma FlaggedToIdle(a: Align, room: Room)
    ensures FromIdle(Flag(a), room) == Flag(FromIdle(a, room)) && ToIdle(Flag(a), room) == Flag(ToIdle(a, room))
  {
    hide Flag, AutoSend;
    var idle := a.(state := IDLE);
    FlagsState(a, IDLE);
    SendingFlags(idle, LSSU_SIOS);
    FlagsTimers(a, room.sched);
    var t := a.(t2 := room.sched);
    SendingFlags(t, LSSU_SIO);
    FlagsState(AutoSend(t, LSSU_SIO), NOTALIGNED);
    var i := AutoSend(idle, LSSU_SIOS).(t2 := room.sched);
    SendingFlags(i, LSSU_SIO);
    FlagsState(AutoSend(i, LSSU_SIO), NOTALIGNED);
  }

  lemma FlaggedNotAligned(a: Align, s: LinkState, room: Room)
    ensures FromNotAligned(Flag(a), s, room) == Flag(FromNotAligned(a, s, room))
  {
    hide Flag, ToIdle, EntryFromNotAligned;
    var a1 := a.(t2 := false);
    FlagsTimers(a, false);
    if s == IDLE {
      FlaggedToIdle(a1, room);
    } else {
      FlaggedEntryFromNotAligned(a1, s, room);
      FlagsState(EntryFromNotAligned(a1, s, room), s);
    }
  }

  lemma FlaggedEntryFromNotAligned(a: Align, s: LinkState, room: Room)
    ensures EntryFromNotAligned(Flag(a), s, room) == Flag(EntryFromNotAligned(a, s, room))
  {
    hide Flag, AlignLssu;
    FlagsTimers(a, room.sched);
    SendingFlags(a.(t3 := room.sched), 0);
    SendingFlags(a.(t4 := room.sched), 0);
  }

  lemma FlaggedAligned(a: Align, s: LinkState, room: Room)
    ensures FromAligned(Flag(a), s, room) == Flag(FromAligned(a, s, room))
  {
    hide Flag, ToIdle;
    var a1 := a.(t3 := false);
    FlagsTimers(a, false);
    FlaggedToIdle(a1, room);
    FlagsTimers(a1, room.sched);
    FlagsState(a1.(t4 := room.sched), s);
    FlagsState(a1, s);
  }

  lemma FlaggedProving(a: Align, s: LinkState, room: Room)
    ensures FromProving(Flag(a), s, room) == Flag(FromProving(a, s, room))
  {
    hide Flag, ToIdle, EntryFromProving;
    var a1 := a.(t4 := false);
    FlagsTimers(a, false);
    if s == IDLE {
      FlaggedToIdle(a1, room);
    } else {
      FlaggedEntryFromProving(a1, s, room);
      FlagsState(EntryFromProving(a1, s, room), s);
    }
  }

  lemma FlaggedEntryFromProving(a: Align, s: LinkState, room: Room)
    ensures EntryFromProving(Flag(a), s, room) == Flag(EntryFromProving(a, s, room))
  {
    hide Flag, AlignLssu, AutoSend;
    FlagsTimers(a, room.sched);
    SendingFlags(a.(t1 := room.sched), FISU);
    SendingFlags(a, 0);
  }

  lemma FlaggedReady(a: Align, s: LinkState, room: Room)
    ensures FromAlignedReady(Flag(a), s, room) == Flag(FromAlignedReady(a, s, room))
  {
    hide Flag, ToIdle, AutoSend;
    var a1 := a.(t1 := false);
    FlagsTimers(a, false);
    FlaggedToIdle(a1, room);
    FlagsTimers(a1, room.sched);
    SendingFlags(a1.(t1 := room.sched), FISU);
    FlagsState(AutoSend(a1.(t1 := room.sched), FISU), s);
    FlagsState(a1, s);
    FlagsEvents(a1, s, LINK_UP);
    FlagsEvents(a, s, LINK_UP);
  }

  lemma FlagsEvents(a: Align, s: LinkState, e: LinkEvent)
    ensures Flag(a).events == a.events
    ensures Flag(a).(events := a.events + [e]) == Flag(a.(events := a.events + [e]))
    ensures Flag(a).(state := s, events := a.events + [e]) == Flag(a.(state := s, events := a.events + [e]))
  {
  }

  lemma FlaggedService(a: Align, s: LinkState, room: Room)
    ensures FromInService(Flag(a), s, room) == Flag(FromInService(a, s, room))
  {
    hide Flag, ToIdle;
    FlagsEvents(a, s, LINK_DOWN);
    FlaggedToIdle(a.(events := a.events + [LINK_DOWN]), room);
  }

  lemma AlignmentIgnoresLists(l: Link, u: Unit, room: Room)
    ensures var r := Dispatch(l, u, room).0.align;
      var a := Alignment.Step(l.align, Alignment.Event(InputOf(u), room));
      r == a.(write := r.write) && (a.write ==> r.write)
  {
    hide SetState, LssuRx, AlignFisuRx, AlignMsuRx;
    match u
    case Fisu(_) => FlaggedAlike(l.align, u, room);
    case Lssu(_, _) =>
    case Msu(_, _) => MsuAligns(l.align, room);
  }

  lemma MsuAligns(a: Align, room: Room)
    ensures a.state != ALIGNEDREADY ==> AlignMsuRx(a, room) == a
  {
  }

  /** A message is passed up only by a link that is ready or in service, in step with the sender's FIB and
      with the next FSN; then it is acknowledged, and the link wishes to write. */
  lemma MessagesPassedUp(l: Link, u: Unit, room: Room)
    ensures var (r, got) := Receive(l, u, room);
      && (got.Some? <==>
            && u.Msu? && (l.align.state == ALIGNEDREADY || l.align.state == INSERVICE)
            && u.h.fib == l.corr.curBib && u.h.fsn == NextFsn(l.corr.lastFsnAcked))
      && (got.Some? ==> got.value == u.info && r.corr.lastFsnAcked == u.h.fsn && r.align.write)
      && (got.None? ==> r.corr.lastFsnAcked == l.corr.lastFsnAcked)
  {
    hide SetState, LssuRx, AlignFisuRx, Acknowledge;
    AcknowledgingKeeps(l, u.h);
  }

  lemma AcknowledgingKeeps(l: Link, h: Header)
    ensures var r := Acknowledge(l, h);
      && r.align.state == l.align.state && r.corr.curBib == l.corr.curBib && r.corr.lastFsnAcked == l.corr.lastFsnAcked
  {
    hide FindFsn;
  }

  /** A retransmission is asked for exactly on a gap: a message that is neither the last nor the next, or a
      FISU of a link in service with another FSN, in step with the sender's FIB. The link then wishes to write. */
  lemma RetransmissionAskedFor(l: Link, u: Unit, room: Room)
    ensures var r := Receive(l, u, room).0; var c := l.corr;
      && (r.corr.curBib != c.curBib <==>
            && u.h.fib == c.curBib && u.h.fsn != c.lastFsnAcked
            && ((u.Fisu? && l.align.state == INSERVICE)
                || (u.Msu? && u.h.fsn != NextFsn(c.lastFsnAcked)
                    && (l.align.state == ALIGNEDREADY || l.align.state == INSERVICE))))
      && (r.corr.curBib != c.curBib ==> r.align.write)
  {
    hide SetState, LssuRx, FindFsn, NextFsn, AlignFisuRx, AlignMsuRx;
    if u.Fisu? { FisuKeepsWish(Flag(l.align), room); }
  }

  lemma FisuKeepsWish(a: Align, room: Room)
    requires a.write
    ensures AlignFisuRx(a, room).write
  {
    hide SetState;
    WishStays(a.(lastSuRxd := FISU), ALIGNEDREADY, room);
    WishStays(a.(lastSuRxd := FISU), INSERVICE, room);
  }

  lemma WishStays(a: Align, s: LinkState, room: Room)
    requires a.write
    ensures SetState(a, s, room).write
  {
    FlaggedMoves(a, s, room);
  }

  /** An acknowledgement frees the newest unit with its number and everything older. The cursor is left
      alone, and so stands on a freed unit exactly when its own unit or a newer one is acknowledged. */
  lemma ReleaseIsExact(c: Corr, upto: Seven)
    ensures var r := Release(c, upto);
      && r == c.(txBuf := r.txBuf, cursor := r.cursor) && r.txBuf <= c.txBuf
      && (forall i :: 0 <= i < |r.txBuf| ==> r.txBuf[i].h.fsn != upto)
      && (|r.txBuf| < |c.txBuf| ==> c.txBuf[|r.txBuf|].h.fsn == upto)
      && (r.cursor != c.cursor <==>
            && c.cursor.At? && c.cursor.index < |c.txBuf|
            && exists j :: 0 <= j <= c.cursor.index && c.txBuf[j].h.fsn == upto)
      && (r.cursor != c.cursor ==> r.cursor == Dangling)
  {
    var n := FindFsn(c.txBuf, upto);
    if c.cursor.At? && n <= c.cursor.index < |c.txBuf| {
      assert c.txBuf[n].h.fsn == upto;
    }
  }

  /** The unit the walk of update_retransmit_pos comes to: the next newer one, from the newest none, and
      from none the oldest. */
  lemma WalkIsExact(c: Corr)
    requires CursorUsable(c)
    ensures var r := Advance(c);
      && (c.cursor.At? ==> r == if c.cursor.index > 0 then At(c.cursor.index - 1) else Cursor.Idle)
      && (c.cursor.Idle? ==> r == if c.txBuf != [] then At(|c.txBuf| - 1) else Cursor.Idle)
  {
  }
}
