/** What each unit, expiry and call must bring about in each alignment state, over every run
    without alarms: exactly when the state changes, to which, and what the link then sends, times and
    reports. The tables are written from the received units, not from the order of the code. */
module AlignmentReactions {
  import opened Mtp2Spec
  import opened Alignment

  /** The last status unit or FISU received; -1 before the first. */
  function LastUnit(es: seq<Event>): int {
    if es == [] then -1
    else
      match es[|es|-1].input
      case RxLssu(status) => status
      case RxFisu => FISU
      case _ => LastUnit(es[..|es|-1])
  }

  /** A status unit that is not a repetition of the last unit. */
  predicate News(es: seq<Event>, e: Event) {
    e.input.RxLssu? && e.input.status != LastUnit(es)
  }

  /** Emergency proving: asked for when the link was started last, or by an SIE since. */
  function Urgent(es: seq<Event>): bool {
    if es == [] then false
    else
      var before, e := es[..|es|-1], es[|es|-1];
      if e.input.StartLink? then e.input.emergency
      else Urgent(before) || (News(before, e) && e.input.status == LSSU_SIE)
  }

  /** What a link has seen after an input, whatever it does about it. */
  function Seen(a: Align, e: Event): Align {
    match e.input
    case RxLssu(status) =>
      a.(lastSuRxd := status, emergency := a.emergency || (status == LSSU_SIE && status != a.lastSuRxd))
    case RxFisu => a.(lastSuRxd := FISU)
    case StartLink(emergency) => a.(emergency := emergency, write := true)
    case _ => a
  }

  // ----- what the link does

  /** Alignment starts over: SIO is sent and T2 runs, if the table has room. */
  function Restarted(a: Align, room: Room): Align {
    a.(state := NOTALIGNED, autoTx := LSSU_SIO, write := true, t1 := false, t2 := room.sched, t3 := false, t4 := false)
  }

  /** SIE in an emergency, else SIN. */
  function StatusSent(a: Align): int { if a.emergency then LSSU_SIE else LSSU_SIN }

  function PeriodFor(a: Align): ProvingPeriod { if a.emergency then Emergency else Normal }

  predicate Stopped(e: Event) { e.input.StopLink? || e.input.ExpireT7? }

  /** Not aligned: SIO aligns, SIN and SIE start proving, and T2, a stop or T7 starts over. */
  lemma NotAlignedReacts(es: seq<Event>, e: Event)
    requires Run(es).state == NOTALIGNED
    ensures var a := Run(es); var s := Seen(a, e);
      Run(es + [e]) ==
        if News(es, e) && e.input.status == LSSU_SIO then
          s.(state := ALIGNED, proving := PeriodFor(s), autoTx := StatusSent(s), write := true,
             t2 := false, t3 := e.room.sched)
        else if News(es, e) && (e.input.status == LSSU_SIN || e.input.status == LSSU_SIE) then
          s.(state := PROVING, proving := PeriodFor(s), autoTx := StatusSent(s), write := true,
             t2 := false, t4 := e.room.sched)
        else if News(es, e) then s.(t2 := false)
        else if Stopped(e) || (e.input.ExpireT2? && a.t2) then Restarted(s, e.room)
        else s
  {
    hide Run;
    ReactsAsStep(es, e);
    NotAlignedSteps(Run(es), e);
  }

  lemma NotAlignedMoves(a: Align, room: Room)
    requires TimersFit(a) && a.state == NOTALIGNED
    ensures SetState(a, IDLE, room) == Restarted(a, room) && SetState(a, NOTALIGNED, room) == a.(t2 := false)
    ensures var b := a.(autoTx := StatusSent(a), write := true, t2 := false);
      && SetState(a, ALIGNED, room) == b.(state := ALIGNED, t3 := room.sched)
      && SetState(a, PROVING, room) == b.(state := PROVING, t4 := room.sched)
  {
    hide FromIdle, FromAligned, FromProving, FromAlignedReady, FromInService;
    RestartIsIdle(a.(t2 := false), room);
  }

  /** to_idle, for a link without timers running. */
  lemma RestartIsIdle(a: Align, room: Room)
    requires !a.t1 && !a.t3 && !a.t4
    ensures ToIdle(a, room) == Restarted(a, room) == Restarted(a.(t2 := true), room) == FromIdle(a, room)
  {
  }

  lemma NotAlignedSteps(a: Align, e: Event)
    requires Disciplined(a) && a.state == NOTALIGNED
    ensures var s := Seen(a, e); var news := e.input.RxLssu? && e.input.status != a.lastSuRxd;
      Step(a, e) ==
        if news && e.input.status == LSSU_SIO then
          s.(state := ALIGNED, proving := PeriodFor(s), autoTx := StatusSent(s), write := true,
             t2 := false, t3 := e.room.sched)
        else if news && (e.input.status == LSSU_SIN || e.input.status == LSSU_SIE) then
          s.(state := PROVING, proving := PeriodFor(s), autoTx := StatusSent(s), write := true,
             t2 := false, t4 := e.room.sched)
        else if news then s.(t2 := false)
        else if Stopped(e) || (e.input.ExpireT2? && a.t2) then Restarted(s, e.room)
        else s
  {
    hide EventsFit, SendsFit, SetState;
    var s := Seen(a, e);
    NotAlignedMoves(s, e.room);
    NotAlignedMoves(s.(proving := PeriodFor(s)), e.room);
  }

  /** Aligned: SIOS, T3, a stop or T7 starts over, every other new status starts proving. */
  lemma AlignedReacts(es: seq<Event>, e: Event)
    requires Run(es).state == ALIGNED
    ensures var a := Run(es); var s := Seen(a, e);
      Run(es + [e]) ==
        if News(es, e) && e.input.status != LSSU_SIOS then
          s.(state := PROVING, proving := PeriodFor(s), t3 := false, t4 := e.room.sched)
        else if News(es, e) || Stopped(e) || (e.input.ExpireT3? && a.t3) then Restarted(s, e.room)
        else s
  {
    hide Run;
    ReactsAsStep(es, e);
    AlignedSteps(Run(es), e);
  }

  lemma AlignedMoves(a: Align, room: Room)
    requires TimersFit(a) && a.state == ALIGNED
    ensures SetState(a, IDLE, room) == Restarted(a, room)
    ensures SetState(a, PROVING, room) == a.(state := PROVING, t3 := false, t4 := room.sched)
  {
    hide FromIdle, FromNotAligned, FromProving, FromAlignedReady, FromInService, ToIdle;
    RestartIsIdle(a.(t3 := false), room);
  }

  lemma AlignedSteps(a: Align, e: Event)
    requires Disciplined(a) && a.state == ALIGNED
    ensures var s := Seen(a, e); var news := e.input.RxLssu? && e.input.status != a.lastSuRxd;
      Step(a, e) ==
        if news && e.input.status != LSSU_SIOS then
          s.(state := PROVING, proving := PeriodFor(s), t3 := false, t4 := e.room.sched)
        else if news || Stopped(e) || (e.input.ExpireT3? && a.t3) then Restarted(s, e.room)
        else s
  {
    hide EventsFit, SendsFit, SetState;
    var s := Seen(a, e);
    AlignedMoves(s, e.room);
    AlignedMoves(s.(proving := PeriodFor(s)), e.room);
  }

  /** Proving: T4 or a first FISU completes it, SIO goes back a step without a timer, SIOS, a stop or T7
      starts over, and other statuses change nothing. */
  lemma ProvingReacts(es: seq<Event>, e: Event)
    requires Run(es).state == PROVING
    ensures var a := Run(es); var s := Seen(a, e);
      Run(es + [e]) ==
        if (e.input.RxFisu? && LastUnit(es) != FISU) || (e.input.ExpireT4? && a.t4) then
          s.(state := ALIGNEDREADY, autoTx := FISU, write := true, t1 := e.room.sched, t4 := false)
        else if News(es, e) && e.input.status == LSSU_SIO then
          s.(state := ALIGNED, autoTx := StatusSent(s), write := true, t4 := false)
        else if (News(es, e) && e.input.status == LSSU_SIOS) || Stopped(e) then Restarted(s, e.room)
        else s
  {
    hide Run;
    ReactsAsStep(es, e);
    ProvingSteps(Run(es), e);
  }

  lemma ProvingMoves(a: Align, room: Room)
    requires TimersFit(a) && a.state == PROVING
    ensures SetState(a, IDLE, room) == Restarted(a, room)
    ensures SetState(a, ALIGNED, room) == a.(state := ALIGNED, autoTx := StatusSent(a), write := true, t4 := false)
    ensures SetState(a, ALIGNEDREADY, room)
      == a.(state := ALIGNEDREADY, autoTx := FISU, write := true, t1 := room.sched, t4 := false)
  {
    hide FromIdle, FromNotAligned, FromAligned, FromAlignedReady, FromInService, ToIdle;
    RestartIsIdle(a.(t4 := false), room);
  }

  lemma ProvingSteps(a: Align, e: Event)
    requires Disciplined(a) && a.state == PROVING
    ensures var s := Seen(a, e); var news := e.input.RxLssu? && e.input.status != a.lastSuRxd;
      Step(a, e) ==
        if (e.input.RxFisu? && a.lastSuRxd != FISU) || (e.input.ExpireT4? && a.t4) then
          s.(state := ALIGNEDREADY, autoTx := FISU, write := true, t1 := e.room.sched, t4 := false)
        else if news && e.input.status == LSSU_SIO then
          s.(state := ALIGNED, autoTx := StatusSent(s), write := true, t4 := false)
        else if (news && e.input.status == LSSU_SIOS) || Stopped(e) then Restarted(s, e.room)
        else s
  {
    hide EventsFit, SendsFit, SetState;
    ProvingMoves(Seen(a, e), e.room);
  }

  /** Ready: a message unit or a first FISU puts the link into service and reports LINK_UP, if the event
      ring has room; without room only T1 is stopped. Every new status, T1, a stop or T7 starts over. */
  lemma ReadyReacts(es: seq<Event>, e: Event)
    requires Run(es).state == ALIGNEDREADY
    ensures var a := Run(es); var s := Seen(a, e);
      Run(es + [e]) ==
        if e.input.RxMsu? || (e.input.RxFisu? && LastUnit(es) != FISU) then
          if e.room.ring then s.(state := INSERVICE, events := a.events + [LINK_UP], t1 := false) else s.(t1 := false)
        else if News(es, e) || Stopped(e) || (e.input.ExpireT1? && a.t1) then Restarted(s, e.room)
        else s
  {
    hide Run;
    ReactsAsStep(es, e);
    ReadySteps(Run(es), e);
  }

  lemma ReadyMoves(a: Align, room: Room)
    requires TimersFit(a) && a.state == ALIGNEDREADY
    ensures SetState(a, IDLE, room) == Restarted(a, room)
    ensures SetState(a, INSERVICE, room)
      == if room.ring then a.(state := INSERVICE, events := a.events + [LINK_UP], t1 := false) else a.(t1 := false)
  {
    hide FromIdle, FromNotAligned, FromAligned, FromProving, FromInService, ToIdle;
    RestartIsIdle(a.(t1 := false), room);
  }

  lemma ReadySteps(a: Align, e: Event)
    requires Disciplined(a) && a.state == ALIGNEDREADY
    ensures var s := Seen(a, e); var news := e.input.RxLssu? && e.input.status != a.lastSuRxd;
      Step(a, e) ==
        if e.input.RxMsu? || (e.input.RxFisu? && a.lastSuRxd != FISU) then
          if e.room.ring then s.(state := INSERVICE, events := a.events + [LINK_UP], t1 := false) else s.(t1 := false)
        else if news || Stopped(e) || (e.input.ExpireT1? && a.t1) then Restarted(s, e.room)
        else s
  {
    hide EventsFit, SendsFit, SetState;
    ReadyMoves(Seen(a, e), e.room);
  }

  /** In service: the link leaves exactly on a new status, a stop or T7 with room in the event ring. It
      reports LINK_DOWN and starts over; everything else leaves it in service. */
  lemma ServiceEnds(es: seq<Event>, e: Event)
    requires Run(es).state == INSERVICE
    ensures var a, b := Run(es), Run(es + [e]); var s := Seen(a, e);
      && (b.state != INSERVICE <==> e.room.ring && (News(es, e) || Stopped(e)))
      && b == if b.state == INSERVICE then s else Restarted(s, e.room).(events := a.events + [LINK_DOWN])
  {
    hide Run;
    ReactsAsStep(es, e);
    ServiceSteps(Run(es), e);
  }

  lemma ServiceMoves(a: Align, room: Room)
    requires TimersFit(a) && a.state == INSERVICE
    ensures SetState(a, IDLE, room)
      == if room.ring then Restarted(a, room).(events := a.events + [LINK_DOWN]) else a
  {
    hide FromIdle, FromNotAligned, FromAligned, FromProving, FromAlignedReady, ToIdle;
    RestartIsIdle(a.(events := a.events + [LINK_DOWN]), room);
  }

  lemma ServiceSteps(a: Align, e: Event)
    requires Disciplined(a) && a.state == INSERVICE
    ensures var s := Seen(a, e); var news := e.input.RxLssu? && e.input.status != a.lastSuRxd;
      Step(a, e) ==
        if e.room.ring && (news || Stopped(e)) then Restarted(s, e.room).(events := a.events + [LINK_DOWN]) else s
  {
    hide EventsFit, SendsFit, SetState;
    ServiceMoves(Seen(a, e), e.room);
  }

  /** A new link stays idle until it is started, stopped, gets a status or T7 expires. */
  lemma IdleStarts(es: seq<Event>, e: Event)
    requires Run(es).state == IDLE
    ensures var s := Seen(Run(es), e); var b := Run(es + [e]);
      if News(es, e) || Stopped(e) || e.input.StartLink?
      then b == Restarted(s, e.room).(proving := b.proving) else b == s
  {
    hide Run;
    ReactsAsStep(es, e);
    IdleSteps(Run(es), e);
  }

  lemma IdleMoves(a: Align, room: Room)
    requires TimersFit(a) && a.state == IDLE
    ensures forall t :: SetState(a, t, room) == Restarted(a, room)
  {
    hide FromIdle, FromNotAligned, FromAligned, FromProving, FromAlignedReady, FromInService;
    RestartIsIdle(a, room);
  }

  lemma IdleSteps(a: Align, e: Event)
    requires Disciplined(a) && a.state == IDLE
    ensures var s := Seen(a, e); var b := Step(a, e); var news := e.input.RxLssu? && e.input.status != a.lastSuRxd;
      if news || Stopped(e) || e.input.StartLink? then b == Restarted(s, e.room).(proving := b.proving) else b == s
  {
    hide EventsFit, SendsFit, SetState;
    var s := Seen(a, e);
    IdleMoves(s, e.room);
    IdleMoves(s.(proving := PeriodFor(s)), e.room);
  }

  lemma StepRemembers(a: Align, e: Event)
    requires Disciplined(a)
    ensures Step(a, e).lastSuRxd == Seen(a, e).lastSuRxd && Step(a, e).emergency == Seen(a, e).emergency
  {
    hide Step, Seen, TimersFit, EventsFit;
    match a.state
    case IDLE => IdleSteps(a, e);
    case NOTALIGNED => NotAlignedSteps(a, e);
    case ALIGNED => AlignedSteps(a, e);
    case PROVING => ProvingSteps(a, e);
    case ALIGNEDREADY => ReadySteps(a, e);
    case INSERVICE => ServiceSteps(a, e);
  }

  /** A link remembers the last unit and whether alignment is urgent. */
  lemma {:induction false} RunRemembers(es: seq<Event>)
    ensures Run(es).lastSuRxd == LastUnit(es) && Run(es).emergency == Urgent(es)
  {
    hide Step, Disciplined;
    if es != [] {
      var before := es[..|es|-1];
      RunRemembers(before);
      AlwaysDisciplined(before);
      StepRemembers(Run(before), es[|es|-1]);
    }
  }

  lemma ReactsAsStep(es: seq<Event>, e: Event)
    ensures Run(es + [e]) == Step(Run(es), e) && Disciplined(Run(es))
    ensures Run(es).lastSuRxd == LastUnit(es)
    ensures News(es, e) <==> e.input.RxLssu? && e.input.status != Run(es).lastSuRxd
  {
    hide Step, Disciplined;
    assert (es + [e])[..|es + [e]| - 1] == es;
    AlwaysDisciplined(es);
    RunRemembers(es);
  }

  // ----- any request for a state

  /** mtp2_setstate, whatever is asked for, in the states between idle and in service: IDLE starts over; else
      the link enters the state asked for, except service without room in the event ring. The timer of the
      state it leaves stops, and the one of the state it enters starts where that state has one. */
  lemma RequestIsExact(a: Align, t: LinkState, room: Room)
    requires TimersFit(a) && a.state in {NOTALIGNED, ALIGNED, PROVING, ALIGNEDREADY}
    ensures var r := SetState(a, t, room);
      if t == IDLE then r == Restarted(a, room)
      else
        var up := a.state == ALIGNEDREADY && t == INSERVICE;
        var aligns := (a.state == NOTALIGNED && (t == ALIGNED || t == PROVING)) || (a.state == PROVING && t == ALIGNED);
        var ready := t == ALIGNEDREADY && (a.state == PROVING || a.state == ALIGNEDREADY);
        r == a.(state := if up && !room.ring then a.state else t,
                t1 := ready && room.sched, t2 := false,
                t3 := a.state == NOTALIGNED && t == ALIGNED && room.sched,
                t4 := a.state != ALIGNEDREADY && t == PROVING && room.sched,
                autoTx := if aligns then StatusSent(a) else if ready then FISU else a.autoTx,
                write := a.write || aligns || ready,
                events := if up && room.ring then a.events + [LINK_UP] else a.events)
  {
    hide FromIdle, ToIdle;
    match a.state
    case NOTALIGNED => RestartIsIdle(a.(t2 := false), room);
    case ALIGNED => RestartIsIdle(a.(t3 := false), room);
    case PROVING => RestartIsIdle(a.(t4 := false), room);
    case ALIGNEDREADY => RestartIsIdle(a.(t1 := false), room);
  }

  /** In service only leaving is a change; an alarm keeps the state for good. */
  lemma ServiceIsKept(a: Align, room: Room)
    ensures a.state == INSERVICE ==> SetState(a, INSERVICE, room) == a
    ensures a.state == ALARM ==> forall t :: SetState(a, t, room) == a
  {
  }

  // ----- what the link sends by itself

  /** Over every run, a link with no message to send fills in what its state asks for: SIOS and SIO with
      the numbers of a link just reset, SIN or SIE while it aligns, and FISUs with its current numbers when
      it is ready. Only the first two reset the link, and a write that succeeds ends the wish to write. */
  lemma FillInFitsState(es: seq<Event>, c: Corr, ok: bool)
    requires c.cursor.Idle? && c.txQ == []
    ensures var a := Run(es); var (l, u) := Transmit(Link(c, a), ok);
      && (a.state == IDLE ==> u == Lssu(Header(127, true, 127, true), LSSU_SIOS) && l.corr == ResetCorr())
      && (a.state == NOTALIGNED ==> u == Lssu(Header(127, true, 127, true), LSSU_SIO) && l.corr == ResetCorr())
      && (a.state == ALIGNED || a.state == PROVING ==>
            l.corr == c && exists s :: (s == LSSU_SIN || s == LSSU_SIE) && u == Lssu(CurHeader(c), s))
      && (a.state == ALIGNEDREADY || a.state == INSERVICE ==> u == Fisu(CurHeader(c)) && l.corr == c)
      && l.align == a.(write := if ok then false else a.write || a.state == IDLE || a.state == NOTALIGNED)
  {
    hide Run;
    AlwaysDisciplined(es);
  }
}
