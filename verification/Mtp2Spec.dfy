/** The values an MTP2 link works on and, step by step, what each of its operations
    computes: basic error correction and link alignment as functions of the link state.
    The class in Mtp2Link.dfy is proved against these functions. */
module Mtp2Spec {
  import opened Octets
  import opened Options

  type Seven = n: int | 0 <= n < 128

  /** Signal unit types; the numbers 0 to 5 are also the LSSU status field. */
  const LSSU_SIO := 0
  const LSSU_SIN := 1
  const LSSU_SIE := 2
  const LSSU_SIOS := 3
  const LSSU_SIPO := 4
  const LSSU_SIB := 5
  const FISU := 6

  datatype LinkState = IDLE | NOTALIGNED | ALIGNED | PROVING | ALIGNEDREADY | INSERVICE | ALARM
  datatype LinkEvent = LINK_UP | LINK_DOWN
  datatype ProvingPeriod = Normal | Emergency

  datatype Header = Header(bsn: Seven, bib: bool, fsn: Seven, fib: bool)
  datatype Sent = Sent(h: Header, info: seq<Octet>)
  datatype Unit = Fisu(h: Header) | Lssu(h: Header, status: int) | Msu(h: Header, info: seq<Octet>)

  /** retransmit_pos: null, a unit of tx_buf (by its place, newest first), or a freed unit. */
  datatype Cursor = Idle | At(index: nat) | Dangling

  /** Error correction. txBuf is newest first, txQ oldest first. */
  datatype Corr = Corr(
    curFsn: Seven, curFib: bool, curBib: bool, lastFsnAcked: Seven,
    txBuf: seq<Sent>, txQ: seq<seq<Octet>>, cursor: Cursor)

  /** Alignment and the write flag. A timer is armed when it holds a scheduler slot. */
  datatype Align = Align(
    state: LinkState, t1: bool, t2: bool, t3: bool, t4: bool,
    emergency: bool, proving: ProvingPeriod, autoTx: int, lastSuRxd: int,
    events: seq<LinkEvent>, write: bool)

  datatype Link = Link(corr: Corr, align: Align)

  /** What the surroundings decide: a free event ring entry, a free scheduler slot. */
  datatype Room = Room(ring: bool, sched: bool)

  // ----- error correction

  function NextFsn(n: Seven): Seven { (n + 1) % 128 }

  function ResetCorr(): Corr {
    Corr(127, true, true, 127, [], [], Idle)
  }

  predicate CursorUsable(c: Corr) {
    c.cursor.Idle? || (c.cursor.At? && c.cursor.index < |c.txBuf|)
  }

  function CurHeader(c: Corr): Header {
    Header(c.lastFsnAcked, c.curBib, c.curFsn, c.curFib)
  }

  /** The retransmitted unit keeps its FSN and BIB and takes the current FIB and BSN. */
  function Refreshed(c: Corr, s: Sent): Sent {
    s.(h := s.h.(fib := c.curFib, bsn := c.lastFsnAcked))
  }

  /** The first unsent message becomes the newest unacknowledged unit. */
  function Launch(c: Corr): Corr
    requires c.txQ != []
  {
    var c1 := c.(curFsn := NextFsn(c.curFsn));
    c1.(txQ := c.txQ[1..], txBuf := [Sent(CurHeader(c1), c.txQ[0])] + c.txBuf)
  }

  function FillIn(c: Corr, autoTx: int): Unit {
    if autoTx == FISU then Fisu(CurHeader(c))
    else if LSSU_SIO <= autoTx <= LSSU_SIB then Lssu(CurHeader(c), autoTx)
    else Lssu(Header(0, false, 0, false), autoTx)
  }

  /** Making an SIO or SIOS resets the link. */
  predicate Resets(autoTx: int) { autoTx == LSSU_SIO || autoTx == LSSU_SIOS }

  /** The link and the unit at the moment write() is called. */
  function Prepare(l: Link): (Link, Unit)
    requires CursorUsable(l.corr)
  {
    var c := l.corr;
    if c.cursor.At? then
      var s := Refreshed(c, c.txBuf[c.cursor.index]);
      (l.(corr := c.(txBuf := c.txBuf[c.cursor.index := s])), Msu(s.h, s.info))
    else if c.txQ != [] then
      var c1 := Launch(c);
      (Link(c1, Flag(l.align)), Msu(c1.txBuf[0].h, c1.txBuf[0].info))
    else
      var l1 := if Resets(l.align.autoTx) then Link(ResetCorr(), Flag(l.align)) else l;
      (l1, FillIn(l1.corr, l.align.autoTx))
  }

  function Flag(a: Align): Align { a.(write := true) }

  /** update_retransmit_pos: one step towards the newest unit, then off the list. */
  function Advance(c: Corr): Cursor {
    match c.cursor
    case At(i) => if i == 0 then Idle else At(i - 1)
    case _ => if |c.txBuf| == 0 then Idle else At(|c.txBuf| - 1)
  }

  /** What mtp2_transmit does once write() has returned. */
  function AfterWrite(l: Link, retransmission: bool, message: bool, ok: bool): Link {
    if ok then
      if retransmission then l.(corr := l.corr.(cursor := Advance(l.corr)))
      else if message then l
      else l.(align := l.align.(write := false))
    else if !retransmission && message then l.(corr := l.corr.(cursor := At(0)))
    else l
  }

  function Transmit(l: Link, ok: bool): (Link, Unit)
    requires CursorUsable(l.corr)
  {
    var (l1, u) := Prepare(l);
    (AfterWrite(l1, l.corr.cursor.At?, u.Msu?, ok), u)
  }

  function Enqueue(l: Link, info: seq<Octet>): Link {
    Link(l.corr.(txQ := l.corr.txQ + [info]), Flag(l.align))
  }

  /** Place of the newest unit with this FSN, or the length of the list. */
  function FindFsn(buf: seq<Sent>, fsn: Seven): (i: nat)
    ensures i <= |buf|
    ensures i < |buf| ==> buf[i].h.fsn == fsn
    ensures forall j :: 0 <= j < i ==> buf[j].h.fsn != fsn
  {
    if buf == [] then 0 else if buf[0].h.fsn == fsn then 0 else 1 + FindFsn(buf[1..], fsn)
  }

  /** update_txbuf: the unit with this FSN and everything older is freed. */
  function Release(c: Corr, upto: Seven): Corr {
    var n := FindFsn(c.txBuf, upto);
    c.(txBuf := c.txBuf[..n],
       cursor := if c.cursor.At? && n <= c.cursor.index < |c.txBuf| then Dangling else c.cursor)
  }

  /** mtp2_retransmit: invert the FIB and start again at the oldest unit. */
  function Retransmit(c: Corr): Corr {
    var c1 := c.(curFib := !c.curFib);
    if c.txBuf == [] then c1 else c1.(cursor := At(|c.txBuf| - 1))
  }

  // ----- alignment

  function AutoSend(a: Align, su: int): Align { Flag(a).(autoTx := su) }

  function AlignLssu(a: Align): Align {
    AutoSend(a, if a.emergency then LSSU_SIE else LSSU_SIN)
  }

  /** The IDLE branch of mtp2_setstate. */
  function FromIdle(a: Align, room: Room): Align {
    AutoSend(a.(t2 := room.sched), LSSU_SIO).(state := NOTALIGNED)
  }

  function ToIdle(a: Align, room: Room): Align {
    FromIdle(AutoSend(a.(state := IDLE), LSSU_SIOS), room)
  }

  /** Timer and filling of the state entered. */
  function EntryFromNotAligned(a: Align, s: LinkState, room: Room): Align {
    if s == ALIGNED then AlignLssu(a.(t3 := room.sched))
    else if s == PROVING then AlignLssu(a.(t4 := room.sched))
    else a
  }

  function FromNotAligned(a: Align, s: LinkState, room: Room): Align {
    var a1 := a.(t2 := false);
    if s == IDLE then ToIdle(a1, room) else EntryFromNotAligned(a1, s, room).(state := s)
  }

  function FromAligned(a: Align, s: LinkState, room: Room): Align {
    var a1 := a.(t3 := false);
    if s == IDLE then ToIdle(a1, room)
    else if s == PROVING then a1.(t4 := room.sched, state := s)
    else a1.(state := s)
  }

  function EntryFromProving(a: Align, s: LinkState, room: Room): Align {
    if s == PROVING then a.(t4 := room.sched)
    else if s == ALIGNED then AlignLssu(a)
    else if s == ALIGNEDREADY then AutoSend(a.(t1 := room.sched), FISU)
    else a
  }

  function FromProving(a: Align, s: LinkState, room: Room): Align {
    var a1 := a.(t4 := false);
    if s == IDLE then ToIdle(a1, room) else EntryFromProving(a1, s, room).(state := s)
  }

  function FromAlignedReady(a: Align, s: LinkState, room: Room): Align {
    var a1 := a.(t1 := false);
    if s == IDLE then ToIdle(a1, room)
    else if s == ALIGNEDREADY then AutoSend(a1.(t1 := room.sched), FISU).(state := s)
    else if s == INSERVICE then
      if room.ring then a1.(state := s, events := a.events + [LINK_UP]) else a1
    else a1.(state := s)
  }

  function FromInService(a: Align, s: LinkState, room: Room): Align {
    if s == INSERVICE || !room.ring then a
    else ToIdle(a.(events := a.events + [LINK_DOWN]), room)
  }

  function SetState(a: Align, s: LinkState, room: Room): Align {
    match a.state
    case ALARM => a
    case IDLE => FromIdle(a, room)
    case NOTALIGNED => FromNotAligned(a, s, room)
    case ALIGNED => FromAligned(a, s, room)
    case PROVING => FromProving(a, s, room)
    case ALIGNEDREADY => FromAlignedReady(a, s, room)
    case INSERVICE => FromInService(a, s, room)
  }

  function ProvingFor(a: Align, status: int): ProvingPeriod {
    if a.emergency || status == LSSU_SIE then Emergency else Normal
  }

  function LssuRx(a: Align, status: int, room: Room): Align {
    if a.lastSuRxd == status then a
    else LssuReaction(a.(lastSuRxd := status, emergency := a.emergency || status == LSSU_SIE), status, room)
  }

  function LssuReaction(a: Align, status: int, room: Room): Align {
    var proving := a.(proving := ProvingFor(a, status));
    match a.state
    case IDLE | NOTALIGNED =>
      if status != LSSU_SIE && status != LSSU_SIN && status != LSSU_SIO then SetState(a, NOTALIGNED, room)
      else SetState(proving, if status == LSSU_SIO then ALIGNED else PROVING, room)
    case ALIGNED =>
      if status == LSSU_SIOS then SetState(a, IDLE, room) else SetState(proving, PROVING, room)
    case PROVING =>
      if status == LSSU_SIOS then SetState(a, IDLE, room)
      else if status == LSSU_SIO then SetState(a, ALIGNED, room)
      else a
    case ALIGNEDREADY | INSERVICE => SetState(a, IDLE, room)
    case ALARM => a
  }

  /** mtp2_start. */
  function Begin(a: Align, emergency: bool, room: Room): Align {
    var a1 := Flag(a).(emergency := emergency);
    if a1.state == IDLE then SetState(a1, NOTALIGNED, room) else a1
  }

  /** The alignment part of fisu_rx and of msu_rx. */
  function AlignFisuRx(a: Align, room: Room): Align {
    if a.lastSuRxd == FISU then a
    else
      var a1 := a.(lastSuRxd := FISU);
      match a1.state
      case PROVING => SetState(a1, ALIGNEDREADY, room)
      case ALIGNEDREADY => SetState(a1, INSERVICE, room)
      case _ => a1
  }

  function AlignMsuRx(a: Align, room: Room): Align {
    if a.state == ALIGNEDREADY then SetState(a, INSERVICE, room) else a
  }

  // ----- receiving

  /** A FISU asks B's side to request a retransmission when it shows a gap. */
  predicate FisuShowsGap(l: Link, h: Header) {
    l.align.state == INSERVICE && h.fsn != l.corr.lastFsnAcked && h.fib == l.corr.curBib
  }

  function RequestRetransmission(l: Link): Link {
    Link(l.corr.(curBib := !l.corr.curBib), Flag(l.align))
  }

  function FisuRx(l: Link, h: Header, room: Room): Link {
    var l1 := if FisuShowsGap(l, h) then RequestRetransmission(l) else l;
    l1.(align := AlignFisuRx(l1.align, room))
  }

  /** The second component is what is handed to mtp3_receive. */
  function Accept(l: Link, h: Header, info: seq<Octet>): (Link, Option<seq<Octet>>) {
    if h.fib != l.corr.curBib || h.fsn == l.corr.lastFsnAcked then (l, None)
    else if h.fsn != NextFsn(l.corr.lastFsnAcked) then (RequestRetransmission(l), None)
    else (Link(l.corr.(lastFsnAcked := h.fsn), Flag(l.align)), Some(info))
  }

  function MsuRx(l: Link, h: Header, info: seq<Octet>, room: Room): (Link, Option<seq<Octet>>) {
    if l.align.state != ALIGNEDREADY && l.align.state != INSERVICE then (l, None)
    else Accept(l.(align := AlignMsuRx(l.align, room)), h, info)
  }

  /** The acknowledgement part every received unit goes through first. */
  function Acknowledge(l: Link, h: Header): Link {
    var c := Release(l.corr, h.bsn);
    if l.align.state == INSERVICE && h.bib != c.curFib then Link(Retransmit(c), Flag(l.align))
    else l.(corr := c)
  }

  function Dispatch(l: Link, u: Unit, room: Room): (Link, Option<seq<Octet>>) {
    match u
    case Fisu(h) => (FisuRx(l, h, room), None)
    case Lssu(_, status) => (l.(align := LssuRx(l.align, status, room)), None)
    case Msu(h, info) => MsuRx(l, h, info, room)
  }

  function Receive(l: Link, u: Unit, room: Room): (Link, Option<seq<Octet>>) {
    Dispatch(Acknowledge(l, u.h), u, room)
  }
}
