/** Runs of the buffer operations in any order, and conservation over every run. */
module Mtp3Runs {
  import opened Mtp3Spec
  import opened Mtp3Conservation
  import opened Options

  datatype Op =
    | SubmitUser(m: Msg)
    | Manage(i: nat, m: Msg)
    | Send(i: nat, fsn: nat)
    | Ack(i: nat, fsn: nat)
    | Reset(i: nat)
    | SetLink(i: nat, up: bool)
    | SetSp(s: nat, up: bool)
    | Prepare(i: nat)
    | PeerChangeover(i: nat, fsn: nat)
    | Timed(i: nat)
    | ExpireT1(i: nat)
    | ExpireT2(i: nat)
    | ExpireT3(i: nat)
    | ExpireT4(i: nat, fate: Fate)
    | ExpireT5(i: nat)
    | Abandon(i: nat)
    | ReturnTraffic(i: nat)
    | CbdAnswer(i: nat)
    | Emergency(i: nat)
    | LinkTested(i: nat, room: bool)
    | ForgetCbd(i: nat)
    | MarkCompleted(i: nat)
    | Shut(i: nat, inhibited: bool)
    | SetRoute(s: nat, pc: nat, state: RouteState, room: bool)
    | ExpireT6(s: nat, r: nat)
    | Destroy(s: nat, r: nat)

  predicate Enabled(net: Net, op: Op) {
    match op
    case SubmitUser(m) => m.user && m.size == m.len
    case Manage(i, m) => i < |net.links| && !m.user
    case SetSp(s, _) => s < |net.sps|
    case SetRoute(s, _, _, _) => s < |net.sps|
    case ExpireT6(s, r) => Exists(net, RouteQ(s, r)) && net.sps[s].routes[r].t6
    case Destroy(s, r) => Exists(net, RouteQ(s, r))
    case ExpireT4(i, _) => i < |net.links| && net.links[i].t4
    case LinkTested(i, _) => i < |net.links| && !net.links[i].up
    case MarkCompleted(i) => i < |net.links| && !net.links[i].up
    case _ => op.i < |net.links|
  }

  function SetUp(net: Net, i: nat, up: bool): (r: Net)
    requires i < |net.links|
    ensures Formed(net) ==> Formed(r)
    ensures |r.links| == |net.links|
  {
    net.(links := net.links[i := net.links[i].(up := up)])
  }

  /** Traffic, MTP2 underneath, link states and routes. */
  predicate OfTraffic(op: Op) {
    match op
    case SubmitUser(_) => true
    case Manage(_, _) => true
    case Send(_, _) => true
    case Ack(_, _) => true
    case Reset(_) => true
    case SetLink(_, _) => true
    case SetSp(_, _) => true
    case SetRoute(_, _, _, _) => true
    case ExpireT6(_, _) => true
    case Destroy(_, _) => true
    case _ => false
  }

  function StepTraffic(net: Net, op: Op): (r: Net)
    requires Formed(net) && Enabled(net, op) && OfTraffic(op)
    ensures Formed(r)
  {
    match op
    case SubmitUser(m) => Submit(net, m)
    case Manage(i, m) => SendManagement(net, i, m)
    case Send(i, fsn) => MtpSend(net, i, fsn)
    case Ack(i, fsn) => Acknowledge(net, TxBuf(i), fsn)
    case Reset(i) => MtpReset(net, i)
    case SetLink(i, up) => SetUp(net, i, up)
    case SetSp(s, up) => net.(sps := net.sps[s := net.sps[s].(up := up)])
    case SetRoute(s, pc, state, room) => AddSetRoute(net, s, pc, state, room)
    case ExpireT6(s, r) => T6Expired(net, s, r)
    case Destroy(s, r) => DestroyRoute(net, s, r)
  }

  function StepChangeover(net: Net, op: Op): (r: Net)
    requires Formed(net) && Enabled(net, op) && !OfTraffic(op)
    ensures Formed(r)
  {
    match op
    case Prepare(i) => PrepareChangeover(net, i)
    case PeerChangeover(i, fsn) => ChangeoverTo(net, i, fsn)
    case Timed(i) => TimedChangeover(net, i)
    case ExpireT1(i) => T1Expired(net, i)
    case ExpireT2(i) => T2Expired(net, i)
    case ExpireT3(i) => T3Expired(net, i)
    case ExpireT4(i, fate) => T4Expired(net, i, fate)
    case ExpireT5(i) => T5Expired(net, i)
    case Abandon(i) => AbandonChangeback(net, i)
    case ReturnTraffic(i) => Changeback(net, i)
    case CbdAnswer(i) => CbdAnswered(net, i)
    case Emergency(i) => EmergencyChangeover(net, i)
    case LinkTested(i, room) => StartChangeback(SetUp(net, i, true), i, room)
    case ForgetCbd(i) => SetCbd(net, i, false, net.links[i].t4)
    case MarkCompleted(i) => SetChangeover(net, i, CHANGEOVER_COMPLETED)
    case Shut(i, inhibited) => ShutDown(net, i, inhibited)
  }

  function Step(net: Net, op: Op): (r: Net)
    requires Formed(net)
    ensures Formed(r)
  {
    if !Enabled(net, op) then net
    else if OfTraffic(op) then StepTraffic(net, op)
    else StepChangeover(net, op)
  }

  function Run(net: Net, ops: seq<Op>): (r: Net)
    requires Formed(net)
    ensures Formed(r)
    decreases |ops|
  {
    if ops == [] then net else Step(Run(net, ops[..|ops|-1]), ops[|ops|-1])
  }

  lemma {:induction false} RunConcat(net: Net, xs: seq<Op>, ys: seq<Op>)
    requires Formed(net)
    ensures Run(net, xs + ys) == Run(Run(net, xs), ys)
    decreases |ys|
  {
    hide Step;
    if ys == [] {
      assert xs + ys == xs;
    } else {
      RunConcat(net, xs, ys[..|ys|-1]);
      assert (xs + ys)[..|xs + ys|-1] == xs + ys[..|ys|-1];
    }
  }

  lemma RunOfThree(net: Net, x: Op, y: Op, z: Op)
    requires Formed(net)
    ensures Run(net, [x, y, z]) == Step(Step(Step(net, x), y), z)
  {
    hide Step;
    assert [x, y, z][..2] == [x, y] && [x, y][..1] == [x] && [x][..0] == [];
    assert Run(net, [x]) == Step(Run(net, []), x);
    assert Run(net, [x, y]) == Step(Run(net, [x]), y);
  }

  lemma RunAppends(net: Net, ops: seq<Op>, op: Op)
    requires Formed(net)
    ensures Run(net, ops + [op]) == Step(Run(net, ops), op)
  {
    assert (ops + [op])[..|ops + [op]| - 1] == ops;
  }

  /** Nothing queued anywhere, no routes, and no changeback declared. */
  predicate Empty(net: Net) {
    && Formed(net)
    && net.submitted == [] && net.gone == [] && net.refused == []
    && (forall i :: 0 <= i < |net.links| ==>
          var l := net.links[i];
          l.txQ == l.txBuf == l.coTxQ == l.coTxBuf == l.coBuf == l.cbBuf == [] && !l.sentCbd && !l.t4)
    && (forall s :: 0 <= s < |net.sps| ==> net.sps[s].routes == [])
  }

  // ----- the weight of each operation

  ghost predicate SameWeight(a: Net, b: Net, k: nat) {
    Weight(a, k) == Weight(b, k) && a.submitted == b.submitted
  }

  lemma SetChangeoverWeight(net: Net, i: nat, c: Changeover, k: nat)
    requires i < |net.links|
    ensures SameWeight(net, SetChangeover(net, i, c), k)
  {
    CountLinksUpdate(net.links, i, net.links[i].(changeover := c), k);
  }

  lemma SetCbdWeight(net: Net, i: nat, sentCbd: bool, t4: bool, k: nat)
    requires i < |net.links|
    ensures SameWeight(net, SetCbd(net, i, sentCbd, t4), k) && |SetCbd(net, i, sentCbd, t4).links| == |net.links|
  {
    CountLinksUpdate(net.links, i, net.links[i].(sentCbd := sentCbd, t4 := t4), k);
  }

  lemma FreeCoWeight(net: Net, i: nat, k: nat)
    requires i < |net.links|
    ensures SameWeight(net, FreeCo(net, i), k)
  {
    FreeWeight(net, CoTxBuf(i), k);
    FreeWeight(Free(net, CoTxBuf(i)), CoTxQ(i), k);
  }

  lemma CancelChangebackWeight(net: Net, i: nat, k: nat)
    requires i < |net.links|
    ensures SameWeight(net, CancelChangeback(net, i), k)
  {
    hide Weight, Move, SetChangeover, SetCbd;
    MoveWeight(net, CbBuf(i), CoBuf(i), None, k);
    var n := Move(net, CbBuf(i), CoBuf(i), None);
    LinksStay(net, n);
    SetChangeoverWeight(n, i, NO_CHANGEOVER, k);
    var n1 := SetChangeover(n, i, NO_CHANGEOVER);
    LinksStay(n, n1);
    SetCbdWeight(n1, i, n1.links[i].sentCbd, false, k);
  }

  lemma CancelChangeoverWeight(net: Net, i: nat, k: nat)
    requires i < |net.links|
    ensures SameWeight(net, CancelChangeover(net, i), k)
  {
    var n1 := Move(net, CoTxQ(i), CbBuf(i), None);
    var n2 := Move(n1, CoBuf(i), CbBuf(i), None);
    MoveWeight(net, CoTxQ(i), CbBuf(i), None, k);
    MoveWeight(n1, CoBuf(i), CbBuf(i), None, k);
    SetChangeoverWeight(n2, i, NO_CHANGEOVER, k);
    FreeCoWeight(SetChangeover(n2, i, NO_CHANGEOVER), i, k);
  }

  lemma LeaveWeight(net: Net, i: nat, k: nat)
    requires i < |net.links|
    ensures SameWeight(net, LeaveChangeback(net, i), k)
  {
    CancelChangebackWeight(net, i, k);
  }

  lemma PrepareWeight(net: Net, i: nat, k: nat)
    requires i < |net.links|
    ensures SameWeight(net, PrepareChangeover(net, i), k)
  {
    hide LeaveChangeback, SetChangeover, Hand, Weight;
    LeaveWeight(net, i, k);
    var n := LeaveChangeback(net, i);
    LinksStay(net, n);
    var n1 := SetChangeover(n, i, CHANGEOVER_INITIATED);
    LinksStay(n, n1);
    LinksStay(n1, Hand(n1, TxBuf(i), CoTxBuf(i)));
    SetChangeoverWeight(n, i, CHANGEOVER_INITIATED, k);
    HandWeight(n1, TxBuf(i), CoTxBuf(i), k);
    HandWeight(Hand(n1, TxBuf(i), CoTxBuf(i)), TxQ(i), CoTxQ(i), k);
  }

  lemma GatherQueuedWeight(net: Net, i: nat, k: nat)
    requires i < |net.links|
    ensures var (n, ms) := GatherQueued(net, i);
      Weight(n, k) + Count(ms, k) == Weight(net, k) && n.submitted == net.submitted
  {
    var (n1, ms1) := Extract(net, CoTxQ(i), None);
    var (n2, ms2) := Extract(n1, CoBuf(i), None);
    ExtractWeight(net, CoTxQ(i), None, k);
    ExtractWeight(n1, CoBuf(i), None, k);
    CountAppend(ms1, ms2, k);
  }

  lemma ExtractStays(net: Net, p: Place)
    requires Exists(net, p)
    ensures |Extract(net, p, None).0.links| == |net.links| && (Formed(net) ==> Formed(Extract(net, p, None).0))
    ensures forall q :: Exists(net, q) <==> Exists(Extract(net, p, None).0, q)
  {
    LinksStay(net, Extract(net, p, None).0);
  }

  lemma GatherQueuedStays(net: Net, i: nat)
    requires i < |net.links|
    ensures |GatherQueued(net, i).0.links| == |net.links| && (Formed(net) ==> Formed(GatherQueued(net, i).0))
  {
    hide Extract, Formed;
    ExtractStays(net, CoTxQ(i));
    ExtractStays(Extract(net, CoTxQ(i), None).0, CoBuf(i));
  }

  lemma GatherWeight(net: Net, i: nat, k: nat)
    requires i < |net.links|
    ensures var (n, ms) := Gather(net, i);
      && Weight(n, k) + Count(ms, k) == Weight(net, k) && n.submitted == net.submitted
      && |n.links| == |net.links| && (Formed(net) ==> Formed(n))
  {
    var (n1, ms1) := Extract(net, CoTxBuf(i), None);
    ExtractWeight(net, CoTxBuf(i), None, k);
    var (n2, ms2) := GatherQueued(n1, i);
    GatherQueuedWeight(n1, i, k);
    CountAppend(ms1, ms2, k);
  }

  lemma CompleteWeight(net: Net, i: nat, ms: seq<Msg>, k: nat)
    requires Formed(net) && i < |net.links|
    ensures Weight(Complete(net, i, ms), k) == Weight(net, k) + Count(ms, k)
    ensures Complete(net, i, ms).submitted == net.submitted
  {
    TransmitAllWeight(net, ms, k);
    TransmitKeepsShape(net, ms);
    var n := TransmitAll(net, ms);
    SetChangeoverWeight(n, i, CHANGEOVER_COMPLETED, k);
    FreeCoWeight(SetChangeover(n, i, CHANGEOVER_COMPLETED), i, k);
  }

  lemma ChangeoverWeight(net: Net, i: nat, fsn: nat, k: nat)
    requires Formed(net) && i < |net.links|
    ensures SameWeight(net, ChangeoverTo(net, i, fsn), k)
  {
    hide LeaveChangeback, Acknowledge, Gather, Complete, Weight;
    LeaveWeight(net, i, k);
    var n := LeaveChangeback(net, i);
    LinksStay(net, n);
    AcknowledgeWeight(n, CoTxBuf(i), fsn, k);
    var n1 := Acknowledge(n, CoTxBuf(i), fsn);
    LinksStay(n, n1);
    GatherWeight(n1, i, k);
    var (n2, ms) := Gather(n1, i);
    CompleteWeight(n2, i, ms, k);
  }

  lemma TimedWeight(net: Net, i: nat, k: nat)
    requires Formed(net) && i < |net.links|
    ensures SameWeight(net, TimedChangeover(net, i), k)
  {
    hide LeaveChangeback, SetChangeover, Move, FreeCo, Weight;
    LeaveWeight(net, i, k);
    var n := LeaveChangeback(net, i);
    LinksStay(net, n);
    var n1 := SetChangeover(n, i, CHANGEOVER_IN_PROGRESS);
    LinksStay(n, n1);
    SetChangeoverWeight(n, i, CHANGEOVER_IN_PROGRESS, k);
    MoveWeight(n1, TxQ(i), CoBuf(i), None, k);
    LinksStay(n1, Move(n1, TxQ(i), CoBuf(i), None));
    FreeCoWeight(Move(n1, TxQ(i), CoBuf(i), None), i, k);
  }

  lemma T1Weight(net: Net, i: nat, k: nat)
    requires Formed(net) && i < |net.links|
    ensures SameWeight(net, T1Expired(net, i), k)
  {
    var n := SetChangeover(net, i, CHANGEOVER_COMPLETED);
    SetChangeoverWeight(net, i, CHANGEOVER_COMPLETED, k);
    CoBufNotOffered(n, i);
    DrainWeight(n, CoBuf(i), k);
    TransmitKeepsShape(n, Get(n, CoBuf(i)));
    FreeCoWeight(Drain(n, CoBuf(i)), i, k);
  }

  lemma T2Weight(net: Net, i: nat, k: nat)
    requires Formed(net) && i < |net.links|
    ensures SameWeight(net, T2Expired(net, i), k)
  {
    hide Extract, Complete, Weight;
    var (n, ms) := GatherQueued(net, i);
    GatherQueuedWeight(net, i, k);
    GatherQueuedStays(net, i);
    CompleteWeight(n, i, ms, k);
  }

  lemma T3Weight(net: Net, i: nat, k: nat)
    requires Formed(net) && i < |net.links|
    ensures SameWeight(net, T3Expired(net, i), k)
  {
    var n := SetChangeover(net, i, NO_CHANGEOVER);
    SetChangeoverWeight(net, i, NO_CHANGEOVER, k);
    CbBufNotOffered(n, i);
    DrainWeight(n, CbBuf(i), k);
    TransmitKeepsShape(n, Get(n, CbBuf(i)));
    FreeCoWeight(Drain(n, CbBuf(i)), i, k);
  }

  lemma ChangebackWeight(net: Net, i: nat, k: nat)
    requires Formed(net) && i < |net.links|
    ensures SameWeight(net, Changeback(net, i), k)
  {
    hide CancelChangeover, SetChangeover, Move, Weight;
    match net.links[i].changeover
    case CHANGEOVER_IN_PROGRESS | CHANGEOVER_INITIATED => CancelChangeoverWeight(net, i, k);
    case CHANGEBACK | NO_CHANGEOVER =>
    case _ =>
      MoveWeight(net, TxQ(i), CbBuf(i), None, k);
      LinksStay(net, Move(net, TxQ(i), CbBuf(i), None));
      SetChangeoverWeight(Move(net, TxQ(i), CbBuf(i), None), i, CHANGEBACK, k);
  }

  lemma StartChangebackWeight(net: Net, i: nat, room: bool, k: nat)
    requires Formed(net) && i < |net.links|
    ensures SameWeight(net, StartChangeback(net, i, room), k)
  {
    hide CancelChangeover, SetChangeover, SetCbd, Weight;
    var c := net.links[i].changeover;
    if c != NO_CHANGEOVER && c != CHANGEBACK && c != CHANGEBACK_INITIATED {
      var t4 := net.links[i].t4 || room;
      SetCbdWeight(net, i, true, t4, k);
      var n := SetCbd(net, i, true, t4);
      CancelChangeoverWeight(n, i, k);
      LinksStay(n, CancelChangeover(n, i));
      SetChangeoverWeight(if c == CHANGEOVER_COMPLETED then n else CancelChangeover(n, i), i, CHANGEBACK_INITIATED, k);
    }
  }

  lemma AbandonWeight(net: Net, i: nat, k: nat)
    requires Formed(net) && i < |net.links|
    ensures SameWeight(net, AbandonChangeback(net, i), k)
  {
    hide CancelChangeback, SetCbd, Weight;
    SetCbdWeight(net, i, false, net.links[i].t4, k);
    CancelChangebackWeight(SetCbd(net, i, false, net.links[i].t4), i, k);
  }

  lemma T4Weight(net: Net, i: nat, fate: Fate, k: nat)
    requires Formed(net) && i < |net.links|
    ensures SameWeight(net, T4Expired(net, i, fate), k)
  {
    hide TimedChangeover, AbandonChangeback, SetCbd, Weight;
    SetCbdWeight(net, i, true, false, k);
    var n := SetCbd(net, i, true, false);
    match fate
    case Written =>
    case OrderGivenUp => TimedWeight(n, i, k);
    case ChangebackGivenUp => AbandonWeight(n, i, k);
  }

  lemma T5Weight(net: Net, i: nat, k: nat)
    requires Formed(net) && i < |net.links|
    ensures SameWeight(net, T5Expired(net, i), k)
  {
    hide T3Expired, SetCbd, Weight;
    SetCbdWeight(net, i, false, net.links[i].t4, k);
    T3Weight(SetCbd(net, i, false, net.links[i].t4), i, k);
  }

  lemma CbdAnsweredWeight(net: Net, i: nat, k: nat)
    requires Formed(net) && i < |net.links|
    ensures SameWeight(net, CbdAnswered(net, i), k)
  {
    hide Changeback, SetCbd, Weight;
    SetCbdWeight(net, i, false, false, k);
    ChangebackWeight(SetCbd(net, i, false, false), i, k);
  }

  lemma EmergencyWeight(net: Net, i: nat, k: nat)
    requires Formed(net) && i < |net.links|
    ensures SameWeight(net, EmergencyChangeover(net, i), k)
  {
    hide TimedChangeover, SetCbd, Weight;
    SetCbdWeight(net, i, false, net.links[i].t4, k);
    TimedWeight(SetCbd(net, i, false, net.links[i].t4), i, k);
  }

  lemma ShutDownWeight(net: Net, i: nat, inhibited: bool, k: nat)
    requires Formed(net) && i < |net.links|
    ensures SameWeight(net, ShutDown(net, i, inhibited), k)
  {
    hide SetChangeover, FreeCo, SetCbd, Weight;
    var c := if inhibited then CHANGEOVER_COMPLETED else NO_CHANGEOVER;
    SetChangeoverWeight(net, i, c, k);
    var n := SetChangeover(net, i, c);
    LinksStay(net, n);
    FreeCoWeight(n, i, k);
    var n1 := FreeCo(n, i);
    LinksStay(n, n1);
    SetCbdWeight(n1, i, n1.links[i].sentCbd, false, k);
  }

  lemma SetT6Weight(net: Net, s: nat, r: nat, t6: bool, k: nat)
    requires Exists(net, RouteQ(s, r))
    ensures SameWeight(net, SetT6(net, s, r, t6), k)
  {
    var routes := net.sps[s].routes;
    var route := routes[r].(t6 := t6);
    CountRoutesUpdate(routes, r, route, k);
    CountSpsUpdate(net.sps, s, net.sps[s].(routes := routes[r := route]), k);
  }

  lemma RerouteLinkWeight(net: Net, i: nat, s: nat, r: nat, free: bool, k: nat)
    requires i < |net.links| && Exists(net, RouteQ(s, r))
    ensures SameWeight(net, RerouteLink(net, i, s, r, free), k)
  {
    var q := RouteQ(s, r);
    var d := Some(net.sps[s].routes[r].dpc);
    var n1 := Move(net, TxQ(i), q, d);
    MoveWeight(net, TxQ(i), q, d, k);
    if free {
      var n2 := Move(n1, CoTxQ(i), q, d);
      var n3 := Move(n2, CoBuf(i), q, d);
      var n4 := Move(n3, CbBuf(i), q, d);
      var n5 := Purge(n4, TxBuf(i), d);
      MoveWeight(n1, CoTxQ(i), q, d, k);
      MoveWeight(n2, CoBuf(i), q, d, k);
      MoveWeight(n3, CbBuf(i), q, d, k);
      PurgeWeight(n4, TxBuf(i), d, k);
      PurgeWeight(n5, CoTxBuf(i), d, k);
    } else {
      var n2 := Move(n1, CoBuf(i), q, d);
      var n3 := Move(n2, CbBuf(i), q, d);
      MoveWeight(n1, CoBuf(i), q, d, k);
      MoveWeight(n2, CbBuf(i), q, d, k);
      MoveWeight(n3, CoTxQ(i), q, d, k);
    }
  }

  lemma {:induction false} RerouteWeight(net: Net, i: nat, s: nat, r: nat, free: bool, k: nat)
    requires i <= |net.links| && Exists(net, RouteQ(s, r))
    ensures SameWeight(net, RerouteFrom(net, i, s, r, free), k)
    decreases |net.links| - i
  {
    hide RerouteLink, Weight;
    if i < |net.links| {
      RerouteLinkWeight(net, i, s, r, free, k);
      var n := if net.links[i].sp == s then RerouteLink(net, i, s, r, free) else net;
      LinksStay(net, n);
      RerouteWeight(n, i + 1, s, r, free, k);
    }
  }

  lemma ForcedWeight(net: Net, s: nat, r: nat, k: nat)
    requires Formed(net) && Exists(net, RouteQ(s, r))
    ensures SameWeight(net, ForcedReroute(net, s, r), k)
  {
    RerouteWeight(net, 0, s, r, true, k);
    var n := RerouteFrom(net, 0, s, r, true);
    SetT6Weight(n, s, r, false, k);
    var n1 := SetT6(n, s, r, false);
    RouteQNotOffered(n1, s, r);
    DrainWeight(n1, RouteQ(s, r), k);
  }

  lemma {:induction false} CountRoutesAppend(a: seq<Route>, b: seq<Route>, k: nat)
    ensures CountRoutes(a + b, k) == CountRoutes(a, k) + CountRoutes(b, k)
  {
    if a == [] {
      assert a + b == b;
    } else {
      CountRoutesAppend(a[1..], b, k);
      assert (a + b)[1..] == a[1..] + b;
    }
  }

  lemma CountOneRoute(r: Route, k: nat)
    ensures CountRoutes([r], k) == Count(r.q, k)
  {
    assert [r][1..] == [];
  }

  lemma AddSetRouteWeight(net: Net, s: nat, pc: nat, state: RouteState, room: bool, k: nat)
    requires Formed(net) && s < |net.sps|
    ensures SameWeight(net, AddSetRoute(net, s, pc, state, room), k)
  {
    var dpc := ShortCode(pc);
    var routes := net.sps[s].routes;
    var r := FindRoute(routes, dpc);
    if r < |routes| || state != TFA {
      var route := if r < |routes| then routes[r].(state := state) else Route(dpc, state, false, []);
      var n := PutRoute(net, s, r, route);
      PutRouteWeight(net, s, r, route, k);
      if state == TFP {
        ForcedWeight(n, s, r, k);
      } else if state == TFA || state == TFR_ACTIVE {
        RerouteWeight(n, 0, s, r, false, k);
        SetT6Weight(RerouteFrom(n, 0, s, r, false), s, r, room, k);
      }
    }
  }

  lemma PutRouteWeight(net: Net, s: nat, r: nat, route: Route, k: nat)
    requires s < |net.sps| && r <= |net.sps[s].routes|
    requires route.q == if r < |net.sps[s].routes| then net.sps[s].routes[r].q else []
    ensures SameWeight(net, PutRoute(net, s, r, route), k)
  {
    var routes := net.sps[s].routes;
    if r < |routes| {
      CountRoutesUpdate(routes, r, route, k);
      CountSpsUpdate(net.sps, s, net.sps[s].(routes := routes[r := route]), k);
    } else {
      CountRoutesAppend(routes, [route], k);
      CountOneRoute(route, k);
      CountSpsUpdate(net.sps, s, net.sps[s].(routes := routes + [route]), k);
    }
  }

  lemma DestroyWeight(net: Net, s: nat, r: nat, k: nat)
    requires Formed(net) && Exists(net, RouteQ(s, r))
    ensures SameWeight(net, DestroyRoute(net, s, r), k)
  {
    var routes := net.sps[s].routes;
    var rest := routes[..r] + routes[r+1..];
    CountRoutesAppend(routes[..r], routes[r+1..], k);
    CountRoutesAppend(routes[..r], [routes[r]], k);
    CountRoutesAppend(routes[..r] + [routes[r]], routes[r+1..], k);
    CountOneRoute(routes[r], k);
    assert routes == routes[..r] + [routes[r]] + routes[r+1..];
    CountSpsUpdate(net.sps, s, net.sps[s].(routes := rest), k);
    CountUsers(routes[r].q, k);
    CountAppend(net.gone, Users(routes[r].q), k);
  }

  lemma T6Weight(net: Net, s: nat, r: nat, k: nat)
    requires Formed(net) && Exists(net, RouteQ(s, r))
    ensures SameWeight(net, T6Expired(net, s, r), k)
  {
    SetT6Weight(net, s, r, false, k);
    var n1 := SetT6(net, s, r, false);
    RouteQNotOffered(n1, s, r);
    DrainWeight(n1, RouteQ(s, r), k);
    TransmitKeepsShape(n1, Get(n1, RouteQ(s, r)));
    if net.sps[s].routes[r].state == TFA {
      DestroyWeight(Drain(n1, RouteQ(s, r)), s, r, k);
    }
  }

  lemma SendWeight(net: Net, i: nat, fsn: nat, k: nat)
    requires Formed(net) && i < |net.links|
    ensures SameWeight(net, MtpSend(net, i, fsn), k)
  {
    var q := Get(net, TxQ(i));
    if q != [] {
      var m := q[0].(fsn := fsn);
      CountCons(m, Get(net, TxBuf(i)), k);
      PutWeight(net, TxBuf(i), [m] + Get(net, TxBuf(i)), k);
      PutWeight(Put(net, TxBuf(i), [m] + Get(net, TxBuf(i))), TxQ(i), q[1..], k);
    }
  }

  lemma SubmitWeight(net: Net, m: Msg, k: nat)
    requires Formed(net)
    ensures Weight(Submit(net, m), k) == Weight(net, k) + Count([m], k)
    ensures Submit(net, m).submitted == net.submitted + [m]
  {
    var n := net.(submitted := net.submitted + [m]);
    assert Weight(n, k) == Weight(net, k);
    TransmitWeight(n, m, k);
  }

  lemma ManageWeight(net: Net, i: nat, m: Msg, k: nat)
    requires Formed(net) && i < |net.links| && !m.user
    ensures SameWeight(net, SendManagement(net, i, m), k)
  {
    var q := Get(net, TxQ(i));
    CountAppend(q, [m.(size := m.size + 2)], k);
    PutWeight(net, TxQ(i), q + [m.(size := m.size + 2)], k);
  }

  lemma SetLinkWeight(net: Net, i: nat, up: bool, k: nat)
    requires i < |net.links|
    ensures SameWeight(net, SetUp(net, i, up), k)
  {
    CountLinksUpdate(net.links, i, net.links[i].(up := up), k);
  }

  lemma SetSpWeight(net: Net, s: nat, up: bool, k: nat)
    requires s < |net.sps|
    ensures SameWeight(net, net.(sps := net.sps[s := net.sps[s].(up := up)]), k)
  {
    CountSpsUpdate(net.sps, s, net.sps[s].(up := up), k);
  }

  lemma TrafficWeight(net: Net, op: Op, k: nat)
    requires Formed(net) && Enabled(net, op) && OfTraffic(op)
    ensures var r := StepTraffic(net, op);
      Weight(r, k) - Count(r.submitted, k) == Weight(net, k) - Count(net.submitted, k)
  {
    hide Weight, Submit, SendManagement, MtpSend, Acknowledge, Free, SetUp, AddSetRoute, T6Expired, DestroyRoute;
    match op
    case SubmitUser(m) =>
      SubmitWeight(net, m, k);
      CountAppend(net.submitted, [m], k);
    case Manage(i, m) => ManageWeight(net, i, m, k);
    case Send(i, fsn) => SendWeight(net, i, fsn, k);
    case Ack(i, fsn) => AcknowledgeWeight(net, TxBuf(i), fsn, k);
    case Reset(i) =>
      FreeWeight(net, TxBuf(i), k);
      FreeWeight(Free(net, TxBuf(i)), TxQ(i), k);
    case SetLink(i, up) => SetLinkWeight(net, i, up, k);
    case SetSp(s, up) => SetSpWeight(net, s, up, k);
    case SetRoute(s, pc, state, room) => AddSetRouteWeight(net, s, pc, state, room, k);
    case ExpireT6(s, r) => T6Weight(net, s, r, k);
    case Destroy(s, r) => DestroyWeight(net, s, r, k);
  }

  lemma OfChangeoverWeight(net: Net, op: Op, k: nat)
    requires Formed(net) && Enabled(net, op) && !OfTraffic(op)
    ensures SameWeight(net, StepChangeover(net, op), k)
  {
    hide Weight, PrepareChangeover, ChangeoverTo, TimedChangeover, T1Expired, T2Expired, T3Expired, T4Expired, T5Expired;
    hide AbandonChangeback, Changeback, CbdAnswered, EmergencyChangeover, StartChangeback, SetCbd, SetUp, SetChangeover, ShutDown;
    match op
    case Prepare(i) => PrepareWeight(net, i, k);
    case PeerChangeover(i, fsn) => ChangeoverWeight(net, i, fsn, k);
    case Timed(i) => TimedWeight(net, i, k);
    case ExpireT1(i) => T1Weight(net, i, k);
    case ExpireT2(i) => T2Weight(net, i, k);
    case ExpireT3(i) => T3Weight(net, i, k);
    case ExpireT4(i, fate) => T4Weight(net, i, fate, k);
    case ExpireT5(i) => T5Weight(net, i, k);
    case Abandon(i) => AbandonWeight(net, i, k);
    case ReturnTraffic(i) => ChangebackWeight(net, i, k);
    case CbdAnswer(i) => CbdAnsweredWeight(net, i, k);
    case Emergency(i) => EmergencyWeight(net, i, k);
    case LinkTested(i, room) =>
      SetLinkWeight(net, i, true, k);
      StartChangebackWeight(SetUp(net, i, true), i, room, k);
    case ForgetCbd(i) => SetCbdWeight(net, i, false, net.links[i].t4, k);
    case MarkCompleted(i) => SetChangeoverWeight(net, i, CHANGEOVER_COMPLETED, k);
    case Shut(i, inhibited) => ShutDownWeight(net, i, inhibited, k);
  }

  lemma StepWeight(net: Net, op: Op, k: nat)
    requires Formed(net)
    ensures Weight(Step(net, op), k) - Count(Step(net, op).submitted, k) == Weight(net, k) - Count(net.submitted, k)
  {
    hide Weight, StepTraffic, StepChangeover, Enabled;
    if Enabled(net, op) {
      if OfTraffic(op) {
        TrafficWeight(net, op, k);
      } else {
        OfChangeoverWeight(net, op, k);
      }
    }
  }

  lemma {:induction false} EmptyWeight(net: Net, k: nat)
    requires Empty(net)
    ensures Weight(net, k) == 0
  {
    EmptyLinks(net.links, k);
    EmptySps(net.sps, k);
  }

  lemma {:induction false} EmptyLinks(ls: seq<Link>, k: nat)
    requires forall i :: 0 <= i < |ls| ==>
      var l := ls[i]; l.txQ == l.txBuf == l.coTxQ == l.coTxBuf == l.coBuf == l.cbBuf == []
    ensures CountLinks(ls, k) == 0
  {
    if ls != [] {
      EmptyLinks(ls[1..], k);
    }
  }

  lemma {:induction false} EmptySps(ss: seq<Sp>, k: nat)
    requires forall s :: 0 <= s < |ss| ==> ss[s].routes == []
    ensures CountSps(ss, k) == 0
  {
    if ss != [] {
      EmptySps(ss[1..], k);
    }
  }

  /** Every user message handed over is, after every run, in exactly as many places as it was
      handed over: one, when addresses are not reused. Nothing is duplicated and nothing
      disappears without being freed or refused. */
  lemma {:induction false} NothingLostOrDoubled(net: Net, ops: seq<Op>, k: nat)
    requires Empty(net)
    ensures Weight(Run(net, ops), k) == Count(Run(net, ops).submitted, k)
    decreases |ops|
  {
    if ops == [] {
      EmptyWeight(net, k);
    } else {
      var before := ops[..|ops|-1];
      NothingLostOrDoubled(net, before, k);
      StepWeight(Run(net, before), ops[|ops|-1], k);
    }
  }
}
