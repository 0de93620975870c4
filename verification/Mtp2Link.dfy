/** The MTP2 link as the object its operations update in place. Messages are objects whose
    headers are rewritten when they are sent; tx_buf, tx_q and retransmit_pos hold them. Every
    method is proved against the functions of Mtp2Spec through the abstraction View. */
module Mtp2 {
  import opened Octets
  import opened Mtp2Spec
  import opened Options

  const MTP2_SIZE := 3
  const MTP2_LI_MAX := 63

  class Message {
    var bsn: Seven
    var bib: bool
    var fsn: Seven
    var fib: bool
    var li: int
    var size: int
    const info: seq<Octet>

    constructor (info: seq<Octet>, size: int)
      ensures this.info == info && this.size == size
    {
      bsn, bib, fsn, fib, li := 0, false, 0, false, 0;
      this.info, this.size := info, size;
    }

    ghost function Value(): Sent
      reads this
    {
      Sent(Header(bsn, bib, fsn, fib), info)
    }
  }

  ghost predicate Distinct(s: seq<Message>) {
    forall i, j :: 0 <= i < j < |s| ==> s[i] != s[j]
  }

  ghost function Values(s: seq<Message>): (r: seq<Sent>)
    reads s
    ensures |r| == |s| && forall i :: 0 <= i < |s| ==> r[i] == s[i].Value()
  {
    seq(|s|, i requires 0 <= i < |s| reads s => s[i].Value())
  }

  ghost function Contents(s: seq<Message>): (r: seq<seq<Octet>>)
    ensures |r| == |s| && forall i :: 0 <= i < |s| ==> r[i] == s[i].info
  {
    seq(|s|, i requires 0 <= i < |s| => s[i].info)
  }

  ghost function IndexOf(s: seq<Message>, m: Message): (i: nat)
    ensures i <= |s| && (i < |s| <==> m in s) && (i < |s| ==> s[i] == m) && m !in s[..i]
  {
    if s == [] then 0 else if s[0] == m then 0 else 1 + IndexOf(s[1..], m)
  }

  /** The place of the retransmission cursor in a list of messages. */
  ghost function CursorIn(buf: seq<Message>, pos: Message?): Cursor {
    if pos == null then Idle
    else if pos in buf then At(IndexOf(buf, pos))
    else Dangling
  }

  lemma DistinctCons(m: Message, s: seq<Message>)
    requires Distinct(s) && m !in s
    ensures Distinct([m] + s)
  {
  }

  lemma CursorAt(buf: seq<Message>, i: nat)
    requires Distinct(buf) && i < |buf|
    ensures CursorIn(buf, buf[i]) == At(i)
  {
  }

  lemma CursorAfterCut(buf: seq<Message>, n: nat, pos: Message?)
    requires Distinct(buf) && n <= |buf|
    ensures var c := CursorIn(buf, pos);
      && CursorIn(buf[..n], pos) == (if c.At? && n <= c.index then Dangling else c)
      && (c.At? ==> c.index < |buf|)
  {
    if pos != null && pos in buf {
      var i := IndexOf(buf, pos);
      if i < n {
        CursorAt(buf[..n], i);
        assert buf[..n][i] == pos;
      }
    }
  }

  lemma CutKeeps(buf: seq<Message>, n: nat)
    requires Distinct(buf) && n <= |buf|
    ensures Distinct(buf[..n]) && Values(buf[..n]) == Values(buf)[..n]
  {
  }

  class Mtp2 {
    var state: LinkState
    var t1: bool
    var t2: bool
    var t3: bool
    var t4: bool
    var emergency: bool
    var provingperiod: ProvingPeriod
    var autotxsutype: int
    var lastsurxd: int
    var events: seq<LinkEvent>

    var curfsn: Seven
    var curfib: bool
    var curbib: bool
    var lastfsnacked: Seven
    var write: bool

    var tx_buf: seq<Message>
    var tx_q: seq<Message>
    var retransmit_pos: Message?

    /** No message is in two places, and the cursor never stands on an unsent one. */
    ghost predicate Valid()
      reads `tx_buf, `tx_q, `retransmit_pos
    {
      Distinct(tx_buf) && Distinct(tx_q) && (forall m :: m in tx_buf ==> m !in tx_q)
      && (retransmit_pos == null || retransmit_pos !in tx_q)
    }

    ghost function CorrView(): Corr
      reads `curfsn, `curfib, `curbib, `lastfsnacked, `tx_buf, `tx_q, `retransmit_pos, tx_buf
    {
      Corr(curfsn, curfib, curbib, lastfsnacked, Values(tx_buf), Contents(tx_q), CursorIn(tx_buf, retransmit_pos))
    }

    ghost function AlignView(): Align
      reads `state, `t1, `t2, `t3, `t4, `emergency, `provingperiod, `autotxsutype, `lastsurxd, `events, `write
    {
      Align(state, t1, t2, t3, t4, emergency, provingperiod, autotxsutype, lastsurxd, events, write)
    }

    ghost function View(): Link
      reads this, tx_buf
    {
      Link(CorrView(), AlignView())
    }

    constructor ()
      ensures Valid() && fresh(tx_buf) && fresh(tx_q)
      ensures View() == Link(ResetCorr(), Align(IDLE, false, false, false, false, false, Normal, LSSU_SIOS, -1, [], true))
    {
      state, t1, t2, t3, t4, emergency := IDLE, false, false, false, false, false;
      provingperiod, autotxsutype, lastsurxd, events := Normal, LSSU_SIOS, -1, [];
      curfsn, curfib, curbib, lastfsnacked, write := 127, true, true, 127, true;
      tx_buf, tx_q, retransmit_pos := [], [], null;
    }

    method ResetMtp()
      modifies `curfsn, `curfib, `curbib, `lastfsnacked, `write, `tx_buf, `tx_q, `retransmit_pos
      ensures Valid() && tx_buf == [] && tx_q == []
      ensures CorrView() == ResetCorr() && write
    {
      curfsn, curfib, curbib, lastfsnacked := 127, true, true, 127;
      write := true;
      tx_buf, tx_q, retransmit_pos := [], [], null;
    }

    method InitMtp2Header(m: Message, isNew: bool, nack: bool)
      modifies `curfsn, `curbib, `write, m`fib, m`fsn, m`bib, m`bsn
      ensures curfsn == if isNew then NextFsn(old(curfsn)) else old(curfsn)
      ensures curbib == if nack then !old(curbib) else old(curbib)
      ensures write == (old(write) || isNew || nack)
      ensures m.Value().h == Header(lastfsnacked, curbib, curfsn, curfib)
    {
      if isNew {
        curfsn := (curfsn + 1) % 128;
        write := true;
      }
      m.fib, m.fsn := curfib, curfsn;
      if nack {
        curbib := !curbib;
        write := true;
      }
      m.bib, m.bsn := curbib, lastfsnacked;
    }

    /** The walk of update_retransmit_pos: from the newest unit, remembering the one before. */
    method BeforeCursor() returns (prev: Message?)
      requires Valid() && retransmit_pos != null
      ensures CursorIn(tx_buf, prev) == Advance(CorrView())
      ensures prev == null || prev in tx_buf
    {
      var cur := 0;
      prev := null;
      while cur < |tx_buf|
        invariant 0 <= cur <= |tx_buf|
        invariant prev == if cur == 0 then null else tx_buf[cur - 1]
        invariant retransmit_pos !in tx_buf[..cur]
      {
        if tx_buf[cur] == retransmit_pos {
          CursorAt(tx_buf, cur);
          break;
        }
        prev := tx_buf[cur];
        cur := cur + 1;
      }
      if cur > 0 {
        CursorAt(tx_buf, cur - 1);
      }
    }

    method UpdateRetransmitPos()
      requires Valid() && retransmit_pos != null
      modifies `retransmit_pos
      ensures Valid()
      ensures CorrView() == old(CorrView()).(cursor := Advance(old(CorrView())))
    {
      retransmit_pos := BeforeCursor();
    }

    /** The walk of mtp2_retransmit to the oldest unit. */
    method Oldest() returns (m: Message)
      requires Valid() && tx_buf != []
      ensures CursorIn(tx_buf, m) == At(|tx_buf| - 1) && m in tx_buf
    {
      var i := 0;
      while i + 1 < |tx_buf|
        invariant 0 <= i < |tx_buf|
      {
        i := i + 1;
      }
      m := tx_buf[i];
      CursorAt(tx_buf, i);
    }

    method MtpRetransmit()
      requires Valid()
      modifies `write, `curfib, `retransmit_pos
      ensures Valid()
      ensures CorrView() == Retransmit(old(CorrView())) && write
    {
      hide Values, Contents, CursorIn, Distinct;
      write := true;
      curfib := !curfib;
      if tx_buf == [] {
        return;
      }
      retransmit_pos := Oldest();
      assert CorrView() == old(CorrView()).(curFib := curfib, cursor := At(|tx_buf| - 1));
    }

    /** The walk of update_txbuf: the newest unit with this FSN, or the end of the list. */
    method FindInTxbuf(upto: Seven) returns (cur: nat)
      ensures cur == FindFsn(Values(tx_buf), upto)
    {
      cur := 0;
      while cur < |tx_buf|
        invariant cur <= FindFsn(Values(tx_buf), upto)
      {
        assert Values(tx_buf)[cur] == tx_buf[cur].Value();
        if tx_buf[cur].fsn == upto {
          return;
        }
        cur := cur + 1;
      }
    }

    /** update_txbuf on tx_buf: cut the list at the newest unit with this FSN. */
    method UpdateTxbuf(upto: Seven)
      requires Valid()
      modifies `tx_buf
      ensures Valid() && tx_buf <= old(tx_buf)
      ensures CorrView() == Release(old(CorrView()), upto)
    {
      var cur := FindInTxbuf(upto);
      hide FindFsn, Values, Contents, CursorIn, Distinct;
      CursorAfterCut(tx_buf, cur, retransmit_pos);
      CutKeeps(tx_buf, cur);
      tx_buf := tx_buf[..cur];
    }

    method MtpRequestRetransmission()
      modifies `curbib, `write
      ensures View() == RequestRetransmission(old(View()))
    {
      curbib := !curbib;
      write := true;
    }

    /** mtp2_msu and mtp2_queue_su: the length indicator is set, two octets are counted for
        the CRC, and the message joins the end of the queue. */
    method Msu(m: Message)
      requires Valid() && m !in tx_buf && m !in tx_q && m != retransmit_pos
      modifies this`write, this`tx_q, m`li, m`size
      ensures Valid() && tx_q == old(tx_q) + [m]
      ensures View() == Enqueue(old(View()), m.info)
      ensures m.size == old(m.size) + 2
      ensures m.li == if old(m.size) - MTP2_SIZE > MTP2_LI_MAX then MTP2_LI_MAX else old(m.size) - MTP2_SIZE
    {
      var len := m.size - MTP2_SIZE;
      write := true;
      if len > MTP2_LI_MAX {
        m.li := MTP2_LI_MAX;
      } else {
        m.li := len;
      }
      m.size := m.size + 2;
      tx_q := tx_q + [m];
      assert Contents(tx_q) == Contents(old(tx_q)) + [m.info];
    }

    method MakeFillIn() returns (u: Unit)
      requires Valid()
      modifies this
      ensures Valid()
      ensures tx_buf == (if Resets(old(autotxsutype)) then [] else old(tx_buf))
      ensures tx_q == (if Resets(old(autotxsutype)) then [] else old(tx_q))
      ensures View() == if Resets(old(autotxsutype)) then Link(ResetCorr(), Flag(old(AlignView()))) else old(View())
      ensures u == FillIn(CorrView(), autotxsutype)
    {
      if autotxsutype == LSSU_SIOS || autotxsutype == LSSU_SIO {
        ResetMtp();
      }
      if autotxsutype == FISU {
        u := Unit.Fisu(Header(lastfsnacked, curbib, curfsn, curfib));
      } else if LSSU_SIO <= autotxsutype <= LSSU_SIB {
        u := Lssu(Header(lastfsnacked, curbib, curfsn, curfib), autotxsutype);
      } else {
        u := Lssu(Header(0, false, 0, false), autotxsutype);
      }
    }

    /** The branch of mtp2_transmit that takes the unit under the cursor. */
    method TakeRetransmission() returns (u: Unit)
      requires Valid() && retransmit_pos != null && retransmit_pos in tx_buf
      modifies retransmit_pos
      ensures Valid()
      ensures (View(), u) == Prepare(old(View()))
    {
      var m := retransmit_pos;
      ghost var i := IndexOf(tx_buf, m);
      m.fib, m.bsn := curfib, lastfsnacked;
      u := Unit.Msu(Header(m.bsn, m.bib, m.fsn, m.fib), m.info);
      assert Values(tx_buf) == old(Values(tx_buf))[i := m.Value()];
    }

    /** The branch of mtp2_transmit that takes the first unsent message. */
    method TakeNew() returns (u: Unit)
      requires Valid() && retransmit_pos == null && tx_q != []
      modifies `curfsn, `curbib, `write, `tx_buf, `tx_q, tx_q[0]
      ensures Valid() && tx_buf == [old(tx_q)[0]] + old(tx_buf) && tx_q == old(tx_q)[1..]
      ensures CorrView() == Launch(old(CorrView())) && write
      ensures u == Unit.Msu(CorrView().txBuf[0].h, CorrView().txBuf[0].info)
    {
      var m := tx_q[0];
      assert m in tx_q;
      DistinctCons(m, tx_buf);
      InitMtp2Header(m, true, false);
      u := Unit.Msu(Header(m.bsn, m.bib, m.fsn, m.fib), m.info);
      assert Contents(tx_q)[1..] == Contents(tx_q[1..]);
      assert Values(tx_buf) == old(Values(tx_buf));
      tx_q, tx_buf := tx_q[1..], [m] + tx_buf;
      assert Values(tx_buf) == [m.Value()] + old(Values(tx_buf));
    }

    /** mtp2_transmit up to the call of write(). */
    method TakeUnit() returns (u: Unit, retransmit: bool, message: bool)
      requires Valid() && CursorUsable(CorrView())
      modifies this, tx_buf, tx_q
      ensures Valid() && (retransmit_pos == null <==> !retransmit) && (message && !retransmit ==> tx_buf != [])
      ensures (View(), u) == Prepare(old(View()))
      ensures retransmit == old(CorrView()).cursor.At? && (message <==> u.Msu?)
      ensures forall m :: m in tx_buf || m in tx_q ==> m in old(tx_buf) || m in old(tx_q)
    {
      retransmit := retransmit_pos != null;
      message := retransmit || tx_q != [];
      if retransmit {
        u := TakeRetransmission();
      } else if tx_q != [] {
        u := TakeNew();
      } else {
        u := MakeFillIn();
      }
    }

    method MtpTransmit(ok: bool) returns (u: Unit)
      requires Valid() && CursorUsable(CorrView())
      modifies this, tx_buf, tx_q
      ensures Valid()
      ensures (View(), u) == Transmit(old(View()), ok)
      ensures forall m :: m in tx_buf || m in tx_q ==> m in old(tx_buf) || m in old(tx_q)
    {
      hide Prepare, AfterWrite, Distinct, CorrView, AlignView;
      var retransmit, message;
      u, retransmit, message := TakeUnit();
      Written(retransmit, message, ok);
    }

    /** The end of mtp2_transmit. */
    method Written(retransmit: bool, message: bool, ok: bool)
      requires Valid() && (retransmit <==> retransmit_pos != null) && (message && !retransmit ==> tx_buf != [])
      modifies `retransmit_pos, `write
      ensures Valid()
      ensures View() == AfterWrite(old(View()), retransmit, message, ok)
    {
      hide Advance;
      if ok {
        if retransmit {
          UpdateRetransmitPos();
        } else if !message {
          write := false;
        }
      } else if !retransmit && message {
        retransmit_pos := tx_buf[0];
        CursorAt(tx_buf, 0);
      }
    }

    // ----- alignment

    method MtpLssu(status: int)
      modifies `write, `autotxsutype
      ensures write && autotxsutype == status
      ensures AlignView() == AutoSend(old(AlignView()), status)
    {
      write := true;
      autotxsutype := status;
    }

    method MtpToIdle(room: Room)
      modifies `state, `t2, `autotxsutype, `write
      ensures AlignView() == ToIdle(old(AlignView()), room)
    {
      hide AutoSend, FromIdle;
      state := IDLE;
      MtpLssu(LSSU_SIOS);
      FromIdleState(room);
    }

    /** mtp2_setstate, one method per current state. */
    method MtpSetState(newstate: LinkState, room: Room)
      modifies `state, `t1, `t2, `t3, `t4, `autotxsutype, `write, `events
      ensures AlignView() == SetState(old(AlignView()), newstate, room)
    {
      hide FromIdle, Mtp2Spec.FromNotAligned, Mtp2Spec.FromAligned, Mtp2Spec.FromProving, Mtp2Spec.FromAlignedReady;
      hide Mtp2Spec.FromInService;
      match state {
        case ALARM =>
        case IDLE => FromIdleState(room);
        case NOTALIGNED => FromNotAligned(newstate, room);
        case ALIGNED => FromAligned(newstate, room);
        case PROVING => FromProving(newstate, room);
        case ALIGNEDREADY => FromAlignedReady(newstate, room);
        case INSERVICE => FromInService(newstate, room);
      }
    }

    method FromIdleState(room: Room)
      modifies `state, `t2, `autotxsutype, `write
      ensures AlignView() == FromIdle(old(AlignView()), room)
    {
      hide AutoSend;
      t2 := room.sched;
      MtpLssu(LSSU_SIO);
      state := NOTALIGNED;
    }

    method FromNotAligned(newstate: LinkState, room: Room)
      requires state == NOTALIGNED
      modifies `state, `t2, `t3, `t4, `autotxsutype, `write
      ensures AlignView() == Mtp2Spec.FromNotAligned(old(AlignView()), newstate, room)
    {
      hide ToIdle, EntryFromNotAligned;
      t2 := false;
      if newstate == IDLE {
        MtpToIdle(room);
        return;
      }
      LeaveNotAligned(newstate, room);
      state := newstate;
    }

    method LeaveNotAligned(newstate: LinkState, room: Room)
      modifies `t3, `t4, `autotxsutype, `write
      ensures AlignView() == EntryFromNotAligned(old(AlignView()), newstate, room)
    {
      hide AlignLssu;
      if newstate == ALIGNED {
        t3 := room.sched;
      } else if newstate == PROVING {
        t4 := room.sched;
      } else {
        return;
      }
      MtpAlignLssu();
    }

    method FromAligned(newstate: LinkState, room: Room)
      requires state == ALIGNED
      modifies `state, `t2, `t3, `t4, `autotxsutype, `write
      ensures AlignView() == Mtp2Spec.FromAligned(old(AlignView()), newstate, room)
    {
      hide AutoSend, ToIdle;
      t3 := false;
      if newstate == IDLE {
        MtpToIdle(room);
        return;
      } else if newstate == PROVING {
        t4 := room.sched;
      }
      state := newstate;
    }

    method FromProving(newstate: LinkState, room: Room)
      requires state == PROVING
      modifies `state, `t1, `t2, `t4, `autotxsutype, `write
      ensures AlignView() == Mtp2Spec.FromProving(old(AlignView()), newstate, room)
    {
      hide ToIdle, EntryFromProving;
      t4 := false;
      if newstate == IDLE {
        MtpToIdle(room);
        return;
      }
      LeaveProving(newstate, room);
      state := newstate;
    }

    method LeaveProving(newstate: LinkState, room: Room)
      modifies `t1, `t4, `autotxsutype, `write
      ensures AlignView() == EntryFromProving(old(AlignView()), newstate, room)
    {
      hide AutoSend, AlignLssu;
      if newstate == PROVING {
        t4 := room.sched;
      } else if newstate == ALIGNED {
        MtpAlignLssu();
      } else if newstate == ALIGNEDREADY {
        MtpReady(room);
      }
    }

    method MtpAlignLssu()
      modifies `autotxsutype, `write
      ensures AlignView() == AlignLssu(old(AlignView()))
    {
      hide AutoSend;
      MtpLssu(if emergency then LSSU_SIE else LSSU_SIN);
    }

    method MtpReady(room: Room)
      modifies `t1, `autotxsutype, `write
      ensures AlignView() == AutoSend(old(AlignView()).(t1 := room.sched), FISU)
    {
      hide AutoSend;
      t1 := room.sched;
      MtpLssu(FISU);
    }

    method FromAlignedReady(newstate: LinkState, room: Room)
      requires state == ALIGNEDREADY
      modifies `state, `t1, `t2, `autotxsutype, `write, `events
      ensures AlignView() == Mtp2Spec.FromAlignedReady(old(AlignView()), newstate, room)
    {
      hide AutoSend, ToIdle;
      t1 := false;
      if newstate == IDLE {
        MtpToIdle(room);
        return;
      } else if newstate == ALIGNEDREADY {
        t1 := room.sched;
        MtpLssu(FISU);
      } else if newstate == INSERVICE {
        if !room.ring {
          return;
        }
        events := events + [LINK_UP];
      }
      state := newstate;
    }

    method FromInService(newstate: LinkState, room: Room)
      requires state == INSERVICE
      modifies `state, `t2, `autotxsutype, `write, `events
      ensures AlignView() == Mtp2Spec.FromInService(old(AlignView()), newstate, room)
    {
      hide ToIdle;
      if newstate != INSERVICE {
        if !room.ring {
          return;
        }
        events := events + [LINK_DOWN];
        MtpToIdle(room);
      }
    }

    method MtpLssuRx(status: int, room: Room)
      modifies `state, `t1, `t2, `t3, `t4, `autotxsutype, `write, `events, `lastsurxd, `emergency, `provingperiod
      ensures AlignView() == LssuRx(old(AlignView()), status, room)
    {
      if lastsurxd == status {
        return;
      }
      lastsurxd := status;
      if status == LSSU_SIE {
        emergency := true;
      }
      ReactToLssu(status, room);
    }

    /** The switch of lssu_rx on the current state. */
    method ReactToLssu(status: int, room: Room)
      modifies `state, `t1, `t2, `t3, `t4, `autotxsutype, `write, `events, `provingperiod
      ensures AlignView() == LssuReaction(old(AlignView()), status, room)
    {
      var next := state;
      match state {
        case IDLE | NOTALIGNED =>
          if status != LSSU_SIE && status != LSSU_SIN && status != LSSU_SIO {
            next := NOTALIGNED;
          } else {
            provingperiod := if emergency || status == LSSU_SIE then Emergency else Normal;
            next := if status == LSSU_SIE || status == LSSU_SIN then PROVING else ALIGNED;
          }
        case ALIGNED =>
          if status == LSSU_SIOS {
            next := IDLE;
          } else {
            provingperiod := if emergency || status == LSSU_SIE then Emergency else Normal;
            next := PROVING;
          }
        case PROVING =>
          if status == LSSU_SIOS {
            next := IDLE;
          } else if status == LSSU_SIO {
            next := ALIGNED;
          } else {
            return;
          }
        case ALIGNEDREADY | INSERVICE =>
          next := IDLE;
        case ALARM =>
          return;
      }
      MtpSetState(next, room);
    }

    method MtpFisuRx(h: Header, room: Room)
      modifies `state, `t1, `t2, `t3, `t4, `autotxsutype, `write, `events, `lastsurxd, `curbib
      ensures View() == FisuRx(old(View()), h, room)
    {
      hide AlignFisuRx, RequestRetransmission, FisuShowsGap, CorrView, AlignView;
      GapIsSeen(h);
      if state == INSERVICE && h.fsn != lastfsnacked && h.fib == curbib {
        MtpRequestRetransmission();
      }
      MtpFisuAlign(room);
    }

    lemma GapIsSeen(h: Header)
      ensures FisuShowsGap(View(), h) <==> state == INSERVICE && h.fsn != lastfsnacked && h.fib == curbib
    {
    }

    method MtpFisuAlign(room: Room)
      modifies `state, `t1, `t2, `t3, `t4, `autotxsutype, `write, `events, `lastsurxd
      ensures AlignView() == AlignFisuRx(old(AlignView()), room)
    {
      if lastsurxd == FISU {
        return;
      }
      lastsurxd := FISU;
      match state {
        case PROVING => MtpSetState(ALIGNEDREADY, room);
        case ALIGNEDREADY => MtpSetState(INSERVICE, room);
        case _ =>
      }
    }

    method MtpMsuRx(h: Header, info: seq<Octet>, room: Room) returns (delivered: Option<seq<Octet>>)
      modifies `state, `t1, `t2, `t3, `t4, `autotxsutype, `write, `events, `curbib, `lastfsnacked
      ensures (View(), delivered) == MsuRx(old(View()), h, info, room)
    {
      hide SetState, Accept;
      delivered := None;
      if state == ALIGNEDREADY {
        MtpSetState(INSERVICE, room);
      } else if state != INSERVICE {
        return;
      }
      delivered := MtpAccept(h, info);
    }

    /** The rest of msu_rx: drop, ask again, or accept. */
    method MtpAccept(h: Header, info: seq<Octet>) returns (delivered: Option<seq<Octet>>)
      modifies `curbib, `lastfsnacked, `write
      ensures (View(), delivered) == Accept(old(View()), h, info)
    {
      hide RequestRetransmission;
      delivered := None;
      if h.fib != curbib {
        return;
      }
      if h.fsn == lastfsnacked {
        return;
      }
      if h.fsn != (lastfsnacked + 1) % 128 {
        MtpRequestRetransmission();
        return;
      }
      lastfsnacked := h.fsn;
      write := true;
      delivered := Some(info);
    }

    method MtpAcknowledge(h: Header)
      requires Valid()
      modifies `tx_buf, `write, `curfib, `retransmit_pos
      ensures Valid() && tx_buf <= old(tx_buf)
      ensures View() == Acknowledge(old(View()), h)
    {
      hide Release, Retransmit;
      UpdateTxbuf(h.bsn);
      assert AlignView() == old(AlignView());
      if state == INSERVICE && h.bib != curfib {
        MtpRetransmit();
      }
    }

    /** The switch of mtp2_receive on the length indicator. */
    method MtpDispatch(u: Unit, room: Room) returns (delivered: Option<seq<Octet>>)
      modifies `state, `t1, `t2, `t3, `t4, `autotxsutype, `write, `events, `lastsurxd, `emergency, `provingperiod,
               `curbib, `lastfsnacked
      ensures (View(), delivered) == Dispatch(old(View()), u, room)
    {
      delivered := None;
      match u {
        case Fisu(h) => MtpFisuRx(h, room);
        case Lssu(_, status) => MtpLssuRx(status, room);
        case Msu(h, info) => delivered := MtpMsuRx(h, info, room);
      }
    }

    method MtpReceive(u: Unit, room: Room) returns (delivered: Option<seq<Octet>>)
      requires Valid()
      modifies `state, `t1, `t2, `t3, `t4, `autotxsutype, `write, `events, `lastsurxd, `emergency, `provingperiod,
               `tx_buf, `curfib, `curbib, `lastfsnacked, `retransmit_pos
      ensures Valid() && tx_buf <= old(tx_buf)
      ensures (View(), delivered) == Receive(old(View()), u, room)
    {
      hide Acknowledge, Dispatch;
      MtpAcknowledge(u.h);
      delivered := MtpDispatch(u, room);
    }

    // ----- timers and the calls from MTP3

    /** The callbacks of T1, T2 and T3 all do this; the one of T4 asks for ALIGNEDREADY. */
    method TimerToIdle(room: Room)
      modifies `state, `t1, `t2, `t3, `t4, `autotxsutype, `write, `events
      ensures AlignView() == SetState(old(AlignView()), IDLE, room)
    {
      MtpSetState(IDLE, room);
    }

    method T4Expiry(room: Room)
      modifies `state, `t1, `t2, `t3, `t4, `autotxsutype, `write, `events
      ensures AlignView() == SetState(old(AlignView()), ALIGNEDREADY, room)
    {
      MtpSetState(ALIGNEDREADY, room);
    }

    method MtpStart(emergencyStart: bool, room: Room)
      modifies this
      ensures Valid() && tx_buf == [] && tx_q == []
      ensures CorrView() == ResetCorr()
      ensures AlignView() == Begin(old(AlignView()), emergencyStart, room)
    {
      hide SetState;
      ResetMtp();
      assert AlignView() == Flag(old(AlignView()));
      emergency := emergencyStart;
      if state == IDLE {
        MtpSetState(NOTALIGNED, room);
      }
    }
  }
}
