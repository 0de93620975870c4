/** Link alignment over whole runs without alarms: received units, timer expiries and calls
    from above, in any order, with the event ring and the scheduler full or not. */
module Alignment {
  import opened Mtp2Spec

  datatype Input =
    | RxLssu(status: int)
    | RxFisu
    | RxMsu
    | ExpireT1
    | ExpireT2
    | ExpireT3
    | ExpireT4
    | ExpireT7
    | StartLink(emergency: bool)
    | StopLink

  datatype Event = Event(input: Input, room: Room)

  /** mtp2_new */
  function NewLink(): Align {
    Align(IDLE, false, false, false, false, false, Normal, LSSU_SIOS, -1, [], true)
  }

  /** A timer expires only while it is armed; T7 belongs to error correction and may always. */
  function Step(a: Align, e: Event): Align {
    match e.input
    case RxLssu(status) => LssuRx(a, status, e.room)
    case RxFisu => AlignFisuRx(a, e.room)
    case RxMsu => AlignMsuRx(a, e.room)
    case ExpireT1 => if a.t1 then SetState(a, IDLE, e.room) else a
    case ExpireT2 => if a.t2 then SetState(a, IDLE, e.room) else a
    case ExpireT3 => if a.t3 then SetState(a, IDLE, e.room) else a
    case ExpireT4 => if a.t4 then SetState(a, ALIGNEDREADY, e.room) else a
    case ExpireT7 => SetState(a, IDLE, e.room)
    case StartLink(emergency) => Begin(a, emergency, e.room)
    case StopLink => SetState(a, IDLE, e.room)
  }

  function Run(es: seq<Event>): Align {
    if es == [] then NewLink() else Step(Run(es[..|es|-1]), es[|es|-1])
  }

  /** Each timer is armed only in its own state. */
  predicate TimersFit(a: Align) {
    && (a.t2 ==> a.state == NOTALIGNED)
    && (a.t3 ==> a.state == ALIGNED)
    && (a.t4 ==> a.state == PROVING)
    && (a.t1 ==> a.state == ALIGNEDREADY)
  }

  /** What the link sends by itself fits the state it is in. */
  predicate SendsFit(a: Align) {
    match a.state
    case IDLE => a.autoTx == LSSU_SIOS
    case NOTALIGNED => a.autoTx == LSSU_SIO
    case ALIGNED | PROVING => a.autoTx == LSSU_SIN || a.autoTx == LSSU_SIE
    case ALIGNEDREADY | INSERVICE => a.autoTx == FISU
    case ALARM => false
  }

  /** LINK_UP and LINK_DOWN in turn, LINK_UP first and last exactly while in service. */
  predicate EventsFit(a: Align) {
    && (forall i :: 0 <= i < |a.events| ==> a.events[i] == if i % 2 == 0 then LINK_UP else LINK_DOWN)
    && (a.state == INSERVICE <==> |a.events| % 2 == 1)
  }

  predicate Disciplined(a: Align) {
    TimersFit(a) && SendsFit(a) && EventsFit(a)
  }

  /** The state changes one input can make. */
  predicate Leads(s: LinkState, t: LinkState) {
    || s == t
    || t == NOTALIGNED
    || (t == ALIGNED && s in {NOTALIGNED, PROVING})
    || (t == PROVING && s in {NOTALIGNED, ALIGNED})
    || (t == ALIGNEDREADY && s == PROVING)
    || (t == INSERVICE && s == ALIGNEDREADY)
  }

  /** The requests mtp2_setstate gets in each state on an alarm-free run. */
  predicate Asked(s: LinkState, t: LinkState) {
    match s
    case IDLE => true
    case NOTALIGNED => t in {IDLE, NOTALIGNED, ALIGNED, PROVING}
    case ALIGNED => t in {IDLE, PROVING}
    case PROVING => t in {IDLE, ALIGNED, ALIGNEDREADY}
    case ALIGNEDREADY => t in {IDLE, INSERVICE}
    case INSERVICE => t in {IDLE, INSERVICE}
    case ALARM => false
  }

  /** What one call of mtp2_setstate must show: the fits again, a permitted change of state,
      and an event queued exactly when the link enters or leaves service. */
  ghost predicate GoodChange(a: Align, b: Align) {
    && TimersFit(b) && SendsFit(b) && Leads(a.state, b.state)
    && b.events == if a.state != INSERVICE && b.state == INSERVICE then a.events + [LINK_UP]
                   else if a.state == INSERVICE && b.state != INSERVICE then a.events + [LINK_DOWN]
                   else a.events
  }

  lemma GoodFromNotAligned(a: Align, t: LinkState, room: Room)
    requires a.state == NOTALIGNED && TimersFit(a) && SendsFit(a) && Asked(a.state, t)
    ensures GoodChange(a, FromNotAligned(a, t, room))
  {
  }

  lemma GoodFromAligned(a: Align, t: LinkState, room: Room)
    requires a.state == ALIGNED && TimersFit(a) && SendsFit(a) && Asked(a.state, t)
    ensures GoodChange(a, FromAligned(a, t, room))
  {
  }

  lemma GoodFromProving(a: Align, t: LinkState, room: Room)
    requires a.state == PROVING && TimersFit(a) && SendsFit(a) && Asked(a.state, t)
    ensures GoodChange(a, FromProving(a, t, room))
  {
  }

  lemma GoodFromReady(a: Align, t: LinkState, room: Room)
    requires a.state == ALIGNEDREADY && TimersFit(a) && SendsFit(a) && Asked(a.state, t)
    ensures GoodChange(a, FromAlignedReady(a, t, room))
  {
  }

  lemma GoodFromInService(a: Align, t: LinkState, room: Room)
    requires a.state == INSERVICE && TimersFit(a) && SendsFit(a) && Asked(a.state, t)
    ensures GoodChange(a, FromInService(a, t, room))
  {
  }

  lemma GoodFromIdle(a: Align, room: Room)
    requires a.state == IDLE && TimersFit(a) && SendsFit(a)
    ensures GoodChange(a, FromIdle(a, room))
  {
  }

  lemma SetStateIsGood(a: Align, t: LinkState, room: Room)
    requires TimersFit(a) && SendsFit(a) && Asked(a.state, t)
    ensures GoodChange(a, SetState(a, t, room))
  {
    hide TimersFit, SendsFit, GoodChange, FromIdle, FromNotAligned, FromAligned, FromProving, FromAlignedReady,
         FromInService;
    match a.state
    case IDLE => GoodFromIdle(a, room);
    case NOTALIGNED => GoodFromNotAligned(a, t, room);
    case ALIGNED => GoodFromAligned(a, t, room);
    case PROVING => GoodFromProving(a, t, room);
    case ALIGNEDREADY => GoodFromReady(a, t, room);
    case INSERVICE => GoodFromInService(a, t, room);
  }

  /** An event queued exactly on entering or leaving service keeps the events alternating. */
  lemma EventsStayFit(a: Align, b: Align)
    requires EventsFit(a) && GoodChange(a, b)
    ensures EventsFit(b)
  {
    hide TimersFit, SendsFit, Leads;
  }

  lemma SetStateKeeps(a: Align, t: LinkState, room: Room)
    requires Disciplined(a) && Asked(a.state, t)
    ensures Disciplined(SetState(a, t, room)) && Leads(a.state, SetState(a, t, room).state)
  {
    hide TimersFit, SendsFit, EventsFit, SetState, Asked, Leads;
    SetStateIsGood(a, t, room);
    EventsStayFit(a, SetState(a, t, room));
  }

  lemma LssuRxKeeps(a: Align, status: int, room: Room)
    requires Disciplined(a)
    ensures Disciplined(LssuRx(a, status, room)) && Leads(a.state, LssuRx(a, status, room).state)
  {
    if a.lastSuRxd != status {
      var a1 := a.(lastSuRxd := status, emergency := a.emergency || status == LSSU_SIE);
      assert Disciplined(a1);
      LssuReactionKeeps(a1, status, room);
    }
  }

  lemma LssuReactionKeeps(a: Align, status: int, room: Room)
    requires Disciplined(a)
    ensures Disciplined(LssuReaction(a, status, room)) && Leads(a.state, LssuReaction(a, status, room).state)
  {
    var proving := a.(proving := ProvingFor(a, status));
    assert Disciplined(proving);
    forall t | Asked(a.state, t)
      ensures Disciplined(SetState(a, t, room)) && Leads(a.state, SetState(a, t, room).state)
      ensures Disciplined(SetState(proving, t, room)) && Leads(a.state, SetState(proving, t, room).state)
    {
      SetStateKeeps(a, t, room);
      SetStateKeeps(proving, t, room);
    }
  }

  lemma FisuRxKeeps(a: Align, room: Room)
    requires Disciplined(a)
    ensures Disciplined(AlignFisuRx(a, room)) && Leads(a.state, AlignFisuRx(a, room).state)
  {
    var a1 := a.(lastSuRxd := FISU);
    assert Disciplined(a1);
    if a.state == PROVING { SetStateKeeps(a1, ALIGNEDREADY, room); }
    if a.state == ALIGNEDREADY { SetStateKeeps(a1, INSERVICE, room); }
  }

  lemma StepKeeps(a: Align, e: Event)
    requires Disciplined(a)
    ensures Disciplined(Step(a, e)) && Leads(a.state, Step(a, e).state)
  {
    match e.input
    case RxLssu(status) => LssuRxKeeps(a, status, e.room);
    case RxFisu => FisuRxKeeps(a, e.room);
    case RxMsu => if a.state == ALIGNEDREADY { SetStateKeeps(a, INSERVICE, e.room); }
    case ExpireT4 => if a.t4 { SetStateKeeps(a, ALIGNEDREADY, e.room); }
    case StartLink(emergency) =>
      var a1 := Flag(a).(emergency := emergency);
      assert Disciplined(a1);
      if a.state == IDLE { SetStateKeeps(a1, NOTALIGNED, e.room); }
    case _ => SetStateKeeps(a, IDLE, e.room);
  }

  /** Timer, sending and event discipline over every run. */
  lemma {:induction false} AlwaysDisciplined(es: seq<Event>)
    ensures Disciplined(Run(es))
  {
    if es != [] {
      AlwaysDisciplined(es[..|es|-1]);
      StepKeeps(Run(es[..|es|-1]), es[|es|-1]);
    }
  }

  /** The last input of a run makes a permitted change of state. */
  lemma LastLeads(es: seq<Event>)
    requires es != []
    ensures Leads(Run(es[..|es|-1]).state, Run(es).state)
  {
    hide Step, Disciplined, Leads;
    AlwaysDisciplined(es[..|es|-1]);
    StepKeeps(Run(es[..|es|-1]), es[|es|-1]);
  }

  lemma RunsBegin()
    ensures Run([]) == NewLink() && NewLink().state == IDLE
  {
  }

  /** Every stretch in service was entered from ALIGNEDREADY, and that from PROVING: after the
      first i inputs the link was proving, up to j ready, and from then on in service. */
  lemma {:induction false} InServiceCameThroughProving(es: seq<Event>) returns (i: nat, j: nat)
    requires Run(es).state == INSERVICE
    ensures i < j < |es|
    ensures Run(es[..i]).state == PROVING
    ensures forall n :: i < n <= j ==> Run(es[..n]).state == ALIGNEDREADY
    ensures forall n :: j < n <= |es| ==> Run(es[..n]).state == INSERVICE
  {
    hide Run;
    RunsBegin();
    var before := es[..|es|-1];
    assert es[..|es|] == es;
    LastLeads(es);
    if Run(before).state == INSERVICE {
      i, j := InServiceCameThroughProving(before);
      assert before[..i] == es[..i];
      forall n | i < n <= j ensures Run(es[..n]).state == ALIGNEDREADY {
        assert before[..n] == es[..n];
      }
      forall n | j < n <= |es| ensures Run(es[..n]).state == INSERVICE {
        if n < |es| { assert before[..n] == es[..n]; }
      }
    } else {
      j := |es| - 1;
      i := ReadyCameFromProving(before);
      assert before[..i] == es[..i];
      forall n | i < n <= j ensures Run(es[..n]).state == ALIGNEDREADY {
        assert before[..n] == es[..n];
      }
    }
  }

  lemma {:induction false} ReadyCameFromProving(es: seq<Event>) returns (i: nat)
    requires Run(es).state == ALIGNEDREADY
    ensures i < |es|
    ensures Run(es[..i]).state == PROVING
    ensures forall n :: i < n <= |es| ==> Run(es[..n]).state == ALIGNEDREADY
  {
    hide Run;
    RunsBegin();
    var before := es[..|es|-1];
    assert es[..|es|] == es;
    LastLeads(es);
    if Run(before).state == ALIGNEDREADY {
      i := ReadyCameFromProving(before);
      assert before[..i] == es[..i];
      forall n | i < n <= |es| ensures Run(es[..n]).state == ALIGNEDREADY {
        if n < |es| { assert before[..n] == es[..n]; }
      }
    } else {
      i := |es| - 1;
    }
  }

  /** A link that is ready or in service fills in with FISUs only: transmitting never resets
      it, so its buffers and sequence numbers survive until it leaves that state. */
  lemma ReadyLinksAreNotReset(es: seq<Event>, c: Corr, ok: bool)
    requires Run(es).state in {ALIGNEDREADY, INSERVICE} && CursorUsable(c)
    ensures var (l, u) := Transmit(Link(c, Run(es)), ok);
      && !u.Lssu?
      && (u.Fisu? ==> l.corr == c)
      && (l.corr.curFsn == c.curFsn || l.corr.curFsn == NextFsn(c.curFsn))
      && |l.corr.txBuf| + |l.corr.txQ| == |c.txBuf| + |c.txQ|
  {
    AlwaysDisciplined(es);
  }
}
