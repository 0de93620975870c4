/** Operations that hand nothing to mtp3_transmit change one link and nothing else: what they do to its
    lists and its state, in one piece. */
module Mtp3Local {
  import opened Mtp3Spec
  import opened Mtp3Runs
  import opened Mtp3Changeover
  import opened Options

  /** The messages of a list that are not user messages. */
  function Managed(ms: seq<Msg>): seq<Msg> {
    if ms == [] then [] else (if ms[0].user then [] else [ms[0]]) + Managed(ms[1..])
  }

  lemma {:induction false} ManagedStay(ms: seq<Msg>)
    ensures Kept(ms, None) == Managed(ms) && Users(Managed(ms)) == []
  {
    if ms != [] {
      ManagedStay(ms[1..]);
      if ms[0].user {
        assert Managed(ms) == Managed(ms[1..]);
      } else {
        assert Managed(ms)[1..] == Managed(ms[1..]);
      }
    }
  }

  // ----- what the operations do to a link

  predicate GoesBack(l: Link) { l.changeover == CHANGEBACK || l.changeover == CHANGEBACK_INITIATED }

  /** A changeback is given up: what it held back is buffered for the changeover. */
  function Backed(l: Link): Link {
    l.(coBuf := l.coBuf + Users(l.cbBuf), cbBuf := Managed(l.cbBuf), changeover := NO_CHANGEOVER, t4 := false)
  }

  function Left(l: Link): Link { if GoesBack(l) then Backed(l) else l }

  function Cancelled(l: Link): Link {
    l.(cbBuf := l.cbBuf + Trimmed(Users(l.coTxQ)) + Users(l.coBuf), coBuf := Managed(l.coBuf),
       coTxQ := [], coTxBuf := [], changeover := NO_CHANGEOVER)
  }

  function Deferred(l: Link): Link {
    var b := Left(l);
    if b.changeover != NO_CHANGEOVER then b
    else
      b.(coBuf := b.coBuf + Trimmed(Users(b.txQ)), txQ := Managed(b.txQ), coTxQ := [], coTxBuf := [],
         changeover := CHANGEOVER_IN_PROGRESS)
  }

  function Prepared(l: Link): Link {
    if l.changeover == CHANGEOVER_INITIATED then l
    else Left(l).(coTxBuf := l.txBuf, coTxQ := l.txQ, txBuf := [], txQ := [], changeover := CHANGEOVER_INITIATED)
  }

  function Returned(l: Link): Link {
    match l.changeover
    case CHANGEOVER_INITIATED | CHANGEOVER_IN_PROGRESS => Cancelled(l)
    case NO_CHANGEOVER | CHANGEBACK => l
    case CHANGEOVER_COMPLETED | CHANGEBACK_INITIATED =>
      l.(cbBuf := l.cbBuf + Trimmed(Users(l.txQ)), txQ := Managed(l.txQ), changeover := CHANGEBACK)
  }

  function Tested(l: Link, room: bool): Link {
    match l.changeover
    case NO_CHANGEOVER | CHANGEBACK | CHANGEBACK_INITIATED => l
    case CHANGEOVER_COMPLETED => l.(sentCbd := true, t4 := l.t4 || room, changeover := CHANGEBACK_INITIATED)
    case _ => Cancelled(l).(sentCbd := true, t4 := l.t4 || room, changeover := CHANGEBACK_INITIATED)
  }

  function Abandoned(l: Link): Link { if l.sentCbd then Backed(l).(sentCbd := false) else l }

  /** Operations that hand nothing over. */
  predicate Quiet(op: Op) {
    match op
    case SubmitUser(_) => false
    case SetSp(_, _) => false
    case SetRoute(_, _, _, _) => false
    case ExpireT6(_, _) => false
    case Destroy(_, _) => false
    case PeerChangeover(_, _) => false
    case ExpireT1(_) => false
    case ExpireT2(_) => false
    case ExpireT3(_) => false
    case ExpireT5(_) => false
    case _ => true
  }

  /** The link after a quiet operation on it. */
  function Relisted(l: Link, op: Op): Link
    requires Quiet(op)
  {
    match op
    case Manage(_, m) => l.(txQ := l.txQ + [m.(size := m.size + 2)])
    case Send(_, fsn) =>
      if l.txQ == [] then l else l.(txBuf := [l.txQ[0].(fsn := fsn)] + l.txBuf, txQ := l.txQ[1..])
    case Ack(_, fsn) => l.(txBuf := Unacked(l.txBuf, fsn))
    case Reset(_) => l.(txBuf := [], txQ := [])
    case SetLink(_, up) => l.(up := up)
    case Prepare(_) => Prepared(l)
    case Timed(_) => Deferred(l)
    case ExpireT4(_, fate) =>
      var sent := l.(sentCbd := true, t4 := false);
      (match fate
       case Written => sent
       case OrderGivenUp => Deferred(sent)
       case ChangebackGivenUp => Backed(sent).(sentCbd := false))
    case Abandon(_) => Abandoned(l)
    case ReturnTraffic(_) => Returned(l)
    case CbdAnswer(_) => if l.sentCbd then Returned(l.(sentCbd := false, t4 := false)) else l
    case Emergency(_) => Deferred(l.(sentCbd := false))
    case LinkTested(_, room) => Tested(l.(up := true), room)
    case ForgetCbd(_) => l.(sentCbd := false)
    case MarkCompleted(_) => l.(changeover := CHANGEOVER_COMPLETED)
    case Shut(_, inhibited) =>
      l.(coTxBuf := [], coTxQ := [], t4 := false, changeover := if inhibited then CHANGEOVER_COMPLETED else NO_CHANGEOVER)
  }

  /** The user messages it frees: acknowledged ones, those of a reset or shut down link, and what was taken
      over from MTP2 and is given up. */
  function Freed(l: Link, op: Op): seq<Msg> {
    var taken := Users(l.coTxBuf) + Users(l.coTxQ);
    var ends := l.changeover == CHANGEOVER_INITIATED || l.changeover == CHANGEOVER_IN_PROGRESS;
    var begins := l.changeover == NO_CHANGEOVER || GoesBack(l);
    match op
    case Ack(_, fsn) => Users(l.txBuf[|Unacked(l.txBuf, fsn)|..])
    case Reset(_) => Users(l.txBuf) + Users(l.txQ)
    case Prepare(_) => if l.changeover == CHANGEOVER_INITIATED then [] else taken
    case Timed(_) => if begins then taken else []
    case Emergency(_) => if begins then taken else []
    case ExpireT4(_, fate) => if fate == OrderGivenUp && begins then taken else []
    case ReturnTraffic(_) => if ends then Users(l.coTxBuf) else []
    case CbdAnswer(_) => if l.sentCbd && ends then Users(l.coTxBuf) else []
    case LinkTested(_, _) => if ends then Users(l.coTxBuf) else []
    case Shut(_, _) => taken
    case _ => []
  }

  // ----- networks that differ in one link

  function WithLink(net: Net, i: nat, l: Link, gone: seq<Msg>): (r: Net)
    requires i < |net.links|
    ensures |r.links| == |net.links| && r.links[i] == l && r.gone == gone
  {
    net.(links := net.links[i := l], gone := gone)
  }

  lemma WithOwn(net: Net, i: nat)
    requires i < |net.links|
    ensures WithLink(net, i, net.links[i], net.gone) == net
  {
  }

  lemma Fills(net: Net, i: nat, l: Link, gone: seq<Msg>)
    requires i < |net.links|
    ensures var n := WithLink(net, i, l, gone);
      forall p: Place :: !p.RouteQ? && p.link == i ==> Exists(n, p) && Get(n, p) == ListOf(l, p)
    ensures var n := WithLink(net, i, l, gone);
      forall p: Place, ms: seq<Msg> :: !p.RouteQ? && p.link == i ==>
        Put(n, p, ms) == WithLink(net, i, WithList(l, p, ms), gone)
  {
    var n := WithLink(net, i, l, gone);
    forall p: Place, ms: seq<Msg> | !p.RouteQ? && p.link == i
      ensures Put(n, p, ms) == WithLink(net, i, WithList(l, p, ms), gone)
    {
      assert Put(n, p, ms).links == net.links[i := WithList(l, p, ms)];
    }
  }

  lemma MovesLocally(net: Net, i: nat, l: Link, gone: seq<Msg>, p: Place, q: Place)
    requires i < |net.links| && !p.RouteQ? && !q.RouteQ? && p.link == q.link == i && p != q && !Counted(q)
    ensures var n := WithLink(net, i, l, gone); var ms := Users(ListOf(l, p));
      && Exists(n, p) && Exists(n, q)
      && Move(n, p, q, None)
           == WithLink(net, i,
                WithList(WithList(l, p, Managed(ListOf(l, p))), q, ListOf(l, q) + if Counted(p) then Trimmed(ms) else ms), gone)
  {
    hide Kept, Taken, Trimmed, Users, Managed, Put, Get, Exists, ListOf, WithList, WithLink;
    var kept := Managed(ListOf(l, p));
    TakenAreUsers(ListOf(l, p));
    ManagedStay(ListOf(l, p));
    Fills(net, i, l, gone);
    Fills(net, i, WithList(l, p, kept), gone);
  }

  lemma FreesLocally(net: Net, i: nat, l: Link, gone: seq<Msg>, p: Place)
    requires i < |net.links| && !p.RouteQ? && p.link == i
    ensures var n := WithLink(net, i, l, gone);
      Exists(n, p) && Free(n, p) == WithLink(net, i, WithList(l, p, []), gone + Users(ListOf(l, p)))
  {
    hide Users, Put, Get, Exists, ListOf, WithList;
    Fills(net, i, l, gone);
  }

  lemma FreesCoLocally(net: Net, i: nat, l: Link, gone: seq<Msg>)
    requires i < |net.links|
    ensures FreeCo(WithLink(net, i, l, gone), i)
      == WithLink(net, i, l.(coTxBuf := [], coTxQ := []), gone + (Users(l.coTxBuf) + Users(l.coTxQ)))
  {
    hide Users, Free, Get, Exists, WithLink;
    FreesLocally(net, i, l, gone, CoTxBuf(i));
    FreesLocally(net, i, l.(coTxBuf := []), gone + Users(l.coTxBuf), CoTxQ(i));
    assert gone + (Users(l.coTxBuf) + Users(l.coTxQ)) == gone + Users(l.coTxBuf) + Users(l.coTxQ);
  }

  lemma HandsLocally(net: Net, i: nat, l: Link, gone: seq<Msg>, p: Place, q: Place)
    requires i < |net.links| && !p.RouteQ? && !q.RouteQ? && p.link == q.link == i && p != q
    ensures var n := WithLink(net, i, l, gone);
      && Exists(n, p) && Exists(n, q)
      && Hand(n, p, q) == WithLink(net, i, WithList(WithList(l, q, ListOf(l, p)), p, []), gone + Users(ListOf(l, q)))
  {
    hide Users, Put, Get, Exists, ListOf, WithList, Free;
    Fills(net, i, l, gone);
    FreesLocally(net, i, l, gone, q);
    var freed := gone + Users(ListOf(l, q));
    Fills(net, i, WithList(l, q, []), freed);
    OtherList(l, q, [], p);
    Fills(net, i, WithList(WithList(l, q, []), q, ListOf(l, p)), freed);
    TwiceFilled(l, q, [], ListOf(l, p));
  }

  lemma OtherList(l: Link, p: Place, ms: seq<Msg>, q: Place)
    requires !p.RouteQ? && !q.RouteQ? && p != q && p.link == q.link
    ensures ListOf(WithList(l, p, ms), q) == ListOf(l, q)
  {
  }

  lemma TwiceFilled(l: Link, p: Place, a: seq<Msg>, b: seq<Msg>)
    requires !p.RouteQ?
    ensures WithList(WithList(l, p, a), p, b) == WithList(l, p, b)
  {
  }

  lemma SetsLocally(net: Net, i: nat, l: Link, gone: seq<Msg>, c: Changeover, sentCbd: bool, t4: bool)
    requires i < |net.links|
    ensures var n := WithLink(net, i, l, gone);
      && SetChangeover(n, i, c) == WithLink(net, i, l.(changeover := c), gone)
      && SetCbd(n, i, sentCbd, t4) == WithLink(net, i, l.(sentCbd := sentCbd, t4 := t4), gone)
  {
  }

  // ----- each operation

  lemma CancelsLocally(net: Net, i: nat, l: Link, gone: seq<Msg>)
    requires i < |net.links|
    ensures CancelChangeover(WithLink(net, i, l, gone), i) == WithLink(net, i, Cancelled(l), gone + Users(l.coTxBuf))
  {
    hide Users, Trimmed, Managed, Move, FreeCo, SetChangeover, Exists, Get, WithLink;
    MovesLocally(net, i, l, gone, CoTxQ(i), CbBuf(i));
    var l1 := l.(coTxQ := Managed(l.coTxQ), cbBuf := l.cbBuf + Trimmed(Users(l.coTxQ)));
    MovesLocally(net, i, l1, gone, CoBuf(i), CbBuf(i));
    var l2 := l1.(coBuf := Managed(l.coBuf), cbBuf := l1.cbBuf + Users(l.coBuf));
    SetsLocally(net, i, l2, gone, NO_CHANGEOVER, false, false);
    FreesCoLocally(net, i, l2.(changeover := NO_CHANGEOVER), gone);
    ManagedStay(l.coTxQ);
    assert Users(l.coTxBuf) + [] == Users(l.coTxBuf);
  }

  lemma BacksLocally(net: Net, i: nat, l: Link, gone: seq<Msg>)
    requires i < |net.links|
    ensures CancelChangeback(WithLink(net, i, l, gone), i) == WithLink(net, i, Backed(l), gone)
    ensures LeaveChangeback(WithLink(net, i, l, gone), i) == WithLink(net, i, Left(l), gone)
  {
    hide Users, Trimmed, Managed, Move, SetChangeover, SetCbd, Exists, Get, WithLink;
    MovesLocally(net, i, l, gone, CbBuf(i), CoBuf(i));
    var l1 := l.(cbBuf := Managed(l.cbBuf), coBuf := l.coBuf + Users(l.cbBuf));
    SetsLocally(net, i, l1, gone, NO_CHANGEOVER, false, false);
    SetsLocally(net, i, l1.(changeover := NO_CHANGEOVER), gone, NO_CHANGEOVER, l.sentCbd, false);
  }

  lemma TimesLocally(net: Net, i: nat, l: Link, gone: seq<Msg>)
    requires i < |net.links| && Formed(WithLink(net, i, l, gone))
    ensures TimedChangeover(WithLink(net, i, l, gone), i)
      == WithLink(net, i, Deferred(l),
           if l.changeover == NO_CHANGEOVER || GoesBack(l) then gone + (Users(l.coTxBuf) + Users(l.coTxQ)) else gone)
  {
    hide Users, Trimmed, Managed, Move, LeaveChangeback, SetChangeover, FreeCo, Exists, Get, WithLink, Formed;
    BacksLocally(net, i, l, gone);
    var b := Left(l);
    SetsLocally(net, i, b, gone, CHANGEOVER_IN_PROGRESS, false, false);
    var l1 := b.(changeover := CHANGEOVER_IN_PROGRESS);
    MovesLocally(net, i, l1, gone, TxQ(i), CoBuf(i));
    FreesCoLocally(net, i, l1.(txQ := Managed(b.txQ), coBuf := b.coBuf + Trimmed(Users(b.txQ))), gone);
  }

  lemma HandsBothLocally(net: Net, i: nat, l: Link, gone: seq<Msg>)
    requires i < |net.links|
    ensures var n := WithLink(net, i, l, gone);
      Exists(n, TxBuf(i)) && Exists(n, CoTxBuf(i))
    ensures var n := Hand(WithLink(net, i, l, gone), TxBuf(i), CoTxBuf(i));
      && Exists(n, TxQ(i)) && Exists(n, CoTxQ(i))
      && Hand(n, TxQ(i), CoTxQ(i))
           == WithLink(net, i, l.(coTxBuf := l.txBuf, coTxQ := l.txQ, txBuf := [], txQ := []),
                gone + (Users(l.coTxBuf) + Users(l.coTxQ)))
  {
    hide Users, Hand, Exists, Get, WithLink;
    HandsLocally(net, i, l, gone, TxBuf(i), CoTxBuf(i));
    HandsLocally(net, i, l.(coTxBuf := l.txBuf, txBuf := []), gone + Users(l.coTxBuf), TxQ(i), CoTxQ(i));
    assert gone + Users(l.coTxBuf) + Users(l.coTxQ) == gone + (Users(l.coTxBuf) + Users(l.coTxQ));
  }

  lemma PreparesLocally(net: Net, i: nat, l: Link, gone: seq<Msg>)
    requires i < |net.links|
    ensures PrepareChangeover(WithLink(net, i, l, gone), i)
      == WithLink(net, i, Prepared(l),
           if l.changeover == CHANGEOVER_INITIATED then gone else gone + (Users(l.coTxBuf) + Users(l.coTxQ)))
  {
    hide Users, Managed, Hand, LeaveChangeback, SetChangeover, Exists, Get, WithLink;
    BacksLocally(net, i, l, gone);
    if l.changeover != CHANGEOVER_INITIATED {
      SetsLocally(net, i, Left(l), gone, CHANGEOVER_INITIATED, false, false);
      HandsBothLocally(net, i, Left(l).(changeover := CHANGEOVER_INITIATED), gone);
    }
  }

  lemma ReturnsLocally(net: Net, i: nat, l: Link, gone: seq<Msg>)
    requires i < |net.links| && Formed(WithLink(net, i, l, gone))
    ensures Changeback(WithLink(net, i, l, gone), i)
      == WithLink(net, i, Returned(l), gone + Freed(l, ReturnTraffic(i)))
  {
    hide Users, Trimmed, Managed, Move, CancelChangeover, Cancelled, SetChangeover, Exists, Get, WithLink, Formed;
    CancelsLocally(net, i, l, gone);
    MovesLocally(net, i, l, gone, TxQ(i), CbBuf(i));
    SetsLocally(net, i, l.(txQ := Managed(l.txQ), cbBuf := l.cbBuf + Trimmed(Users(l.txQ))), gone, CHANGEBACK, false, false);
    assert gone + [] == gone;
  }

  lemma TestsLocally(net: Net, i: nat, l: Link, gone: seq<Msg>, room: bool)
    requires i < |net.links| && Formed(WithLink(net, i, l, gone))
    ensures StartChangeback(WithLink(net, i, l, gone), i, room)
      == WithLink(net, i, Tested(l, room), gone + Freed(l, LinkTested(i, room)))
  {
    hide Users, Trimmed, Managed, CancelChangeover, SetChangeover, SetCbd, Exists, Get, WithLink, Formed;
    SetsLocally(net, i, l, gone, NO_CHANGEOVER, true, l.t4 || room);
    var l1 := l.(sentCbd := true, t4 := l.t4 || room);
    CancelsLocally(net, i, l1, gone);
    SetsLocally(net, i, l1, gone, CHANGEBACK_INITIATED, false, false);
    SetsLocally(net, i, Cancelled(l1), gone + Users(l.coTxBuf), CHANGEBACK_INITIATED, false, false);
    assert gone + [] == gone;
  }

  lemma AbandonsLocally(net: Net, i: nat, l: Link, gone: seq<Msg>)
    requires i < |net.links| && Formed(WithLink(net, i, l, gone))
    ensures AbandonChangeback(WithLink(net, i, l, gone), i) == WithLink(net, i, Abandoned(l), gone)
  {
    hide Users, Managed, CancelChangeback, SetCbd, Exists, Get, WithLink, Formed;
    SetsLocally(net, i, l, gone, NO_CHANGEOVER, false, l.t4);
    BacksLocally(net, i, l.(sentCbd := false), gone);
  }

  lemma FormedWith(net: Net, i: nat, l: Link, gone: seq<Msg>)
    requires Formed(net) && i < |net.links| && l.sp == net.links[i].sp
    ensures Formed(WithLink(net, i, l, gone))
  {
  }

  lemma SendsLocally(net: Net, op: Op)
    requires Formed(net) && Enabled(net, op) && (op.Manage? || op.Send? || op.Ack? || op.Reset? || op.SetLink?)
    ensures op.i < |net.links|
    ensures var l := net.links[op.i];
      Step(net, op) == WithLink(net, op.i, Relisted(l, op), net.gone + Freed(l, op))
  {
    hide Users, Unacked, Free, Put, Get, WithLink, Formed, SetUp;
    var i := op.i;
    var l := net.links[i];
    WithOwn(net, i);
    Fills(net, i, l, net.gone);
    assert net.gone + [] == net.gone;
    if op.Send? && l.txQ != [] {
      Fills(net, i, l.(txBuf := [l.txQ[0].(fsn := op.fsn)] + l.txBuf), net.gone);
    } else if op.Reset? {
      FreesLocally(net, i, l, net.gone, TxBuf(i));
      FreesLocally(net, i, l.(txBuf := []), net.gone + Users(l.txBuf), TxQ(i));
      assert net.gone + Users(l.txBuf) + Users(l.txQ) == net.gone + (Users(l.txBuf) + Users(l.txQ));
    } else if op.Ack? {
      AcksLocally(net, i, op.fsn);
    } else if op.SetLink? {
      SetsUpLocally(net, i, op.up);
    }
  }

  lemma AcksLocally(net: Net, i: nat, fsn: nat)
    requires i < |net.links|
    ensures Exists(net, TxBuf(i))
    ensures var l := net.links[i]; var kept := Unacked(l.txBuf, fsn);
      Acknowledge(net, TxBuf(i), fsn) == WithLink(net, i, l.(txBuf := kept), net.gone + Users(l.txBuf[|kept|..]))
  {
    hide Users, Unacked;
  }

  /** Every operation that hands nothing over changes one link, exactly as said, and frees exactly the
      messages said; no other link, no route and no signalling point changes. */
  lemma QuietStep(net: Net, op: Op)
    requires Formed(net) && Enabled(net, op) && Quiet(op)
    ensures op.i < |net.links|
    ensures var l := net.links[op.i];
      Step(net, op) == WithLink(net, op.i, Relisted(l, op), net.gone + Freed(l, op))
  {
    hide Users, Trimmed, Managed, PrepareChangeover, TimedChangeover, AbandonChangeback, Changeback, StartChangeback,
      SetCbd, SetUp, SetChangeover, FreeCo, WithLink, Formed;
    if op.Manage? || op.Send? || op.Ack? || op.Reset? || op.SetLink? {
      SendsLocally(net, op);
    } else {
      ChangesLocally(net, op);
    }
  }

  lemma ChangesLocally(net: Net, op: Op)
    requires Formed(net) && Enabled(net, op) && Quiet(op) && !OfTraffic(op)
    ensures op.i < |net.links|
    ensures var l := net.links[op.i];
      StepChangeover(net, op) == WithLink(net, op.i, Relisted(l, op), net.gone + Freed(l, op))
  {
    hide Users, Trimmed, Managed, PrepareChangeover, TimedChangeover, AbandonChangeback, Changeback, StartChangeback,
      SetCbd, SetUp, SetChangeover, FreeCo, WithLink, Formed, Cancelled, Prepared, Returned, Deferred, Backed, Tested,
      T4Expired, CbdAnswered, EmergencyChangeover;
    var i := op.i;
    var l, gone := net.links[i], net.gone;
    WithOwn(net, i);
    assert gone + [] == gone;
    match op
    case Prepare(_) => PreparesLocally(net, i, l, gone);
    case Timed(_) => TimesLocally(net, i, l, gone);
    case ExpireT4(_, _) => RepeatsLocally(net, i, op.fate);
    case Abandon(_) => AbandonsLocally(net, i, l, gone);
    case ReturnTraffic(_) => ReturnsLocally(net, i, l, gone);
    case CbdAnswer(_) => AnswersLocally(net, i);
    case Emergency(_) => HurriesLocally(net, i);
    case LinkTested(_, _) => StartsLocally(net, i, op.room);
    case ForgetCbd(_) => SetsLocally(net, i, l, gone, NO_CHANGEOVER, false, l.t4);
    case MarkCompleted(_) => SetsLocally(net, i, l, gone, CHANGEOVER_COMPLETED, false, false);
    case Shut(_, inhibited) => ShutsLocally(net, i, inhibited);
  }

  lemma RepeatsLocally(net: Net, i: nat, fate: Fate)
    requires Formed(net) && i < |net.links|
    ensures var l := net.links[i]; var op := ExpireT4(i, fate);
      T4Expired(net, i, fate) == WithLink(net, i, Relisted(l, op), net.gone + Freed(l, op))
  {
    hide Users, TimedChangeover, AbandonChangeback, SetCbd, WithLink, Formed, Deferred, Backed;
    var l, gone := net.links[i], net.gone;
    var sent := l.(sentCbd := true, t4 := false);
    WithOwn(net, i);
    assert gone + [] == gone;
    SetsLocally(net, i, l, gone, NO_CHANGEOVER, true, false);
    FormedWith(net, i, sent, gone);
    if fate == OrderGivenUp {
      TimesLocally(net, i, sent, gone);
    } else if fate == ChangebackGivenUp {
      AbandonsLocally(net, i, sent, gone);
    }
  }

  lemma AnswersLocally(net: Net, i: nat)
    requires Formed(net) && i < |net.links|
    ensures var l := net.links[i]; var op := CbdAnswer(i);
      CbdAnswered(net, i) == WithLink(net, i, Relisted(l, op), net.gone + Freed(l, op))
  {
    hide Users, Changeback, SetCbd, WithLink, Formed, Returned;
    var l, gone := net.links[i], net.gone;
    var answered := l.(sentCbd := false, t4 := false);
    WithOwn(net, i);
    assert gone + [] == gone;
    SetsLocally(net, i, l, gone, NO_CHANGEOVER, false, false);
    FormedWith(net, i, answered, gone);
    ReturnsLocally(net, i, answered, gone);
  }

  lemma HurriesLocally(net: Net, i: nat)
    requires Formed(net) && i < |net.links|
    ensures var l := net.links[i]; var op := Emergency(i);
      EmergencyChangeover(net, i) == WithLink(net, i, Relisted(l, op), net.gone + Freed(l, op))
  {
    hide Users, TimedChangeover, SetCbd, WithLink, Formed, Deferred;
    var l, gone := net.links[i], net.gone;
    WithOwn(net, i);
    assert gone + [] == gone;
    SetsLocally(net, i, l, gone, NO_CHANGEOVER, false, l.t4);
    FormedWith(net, i, l.(sentCbd := false), gone);
    TimesLocally(net, i, l.(sentCbd := false), gone);
  }

  lemma StartsLocally(net: Net, i: nat, room: bool)
    requires Formed(net) && i < |net.links|
    ensures var l := net.links[i]; var op := LinkTested(i, room);
      StartChangeback(SetUp(net, i, true), i, room) == WithLink(net, i, Relisted(l, op), net.gone + Freed(l, op))
  {
    hide Users, StartChangeback, SetUp, WithLink, Formed, Tested;
    var l, gone := net.links[i], net.gone;
    SetsUpLocally(net, i, true);
    FormedWith(net, i, l.(up := true), gone);
    TestsLocally(net, i, l.(up := true), gone, room);
  }

  lemma SetsUpLocally(net: Net, i: nat, up: bool)
    requires i < |net.links|
    ensures SetUp(net, i, up) == WithLink(net, i, net.links[i].(up := up), net.gone)
  {
  }

  lemma ShutsLocally(net: Net, i: nat, inhibited: bool)
    requires Formed(net) && i < |net.links|
    ensures var l := net.links[i]; var op := Shut(i, inhibited);
      ShutDown(net, i, inhibited) == WithLink(net, i, Relisted(l, op), net.gone + Freed(l, op))
  {
    hide Users, SetChangeover, SetCbd, FreeCo, WithLink;
    var l := net.links[i];
    var c := if inhibited then CHANGEOVER_COMPLETED else NO_CHANGEOVER;
    WithOwn(net, i);
    SetsLocally(net, i, l, net.gone, c, false, false);
    FreesCoLocally(net, i, l.(changeover := c), net.gone);
    var freed := net.gone + (Users(l.coTxBuf) + Users(l.coTxQ));
    SetsLocally(net, i, l.(changeover := c, coTxBuf := [], coTxQ := []), freed, c, l.sentCbd, false);
  }
}
