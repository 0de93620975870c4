/** Over every run a message is refused only while no link qualifies for it. */
module Mtp3Refusal {
  import opened Mtp3Spec
  import opened Mtp3Runs
  import opened Mtp3Changeover
  import opened Mtp3Choice
  import opened Mtp3Local
  import opened Options

  /** The network as it is while an operation hands messages to mtp3_transmit. */
  function During(net: Net, op: Op): (r: Net)
    requires Formed(net) && Enabled(net, op)
    ensures Formed(r)
  {
    match op
    case PeerChangeover(i, _) => LeaveChangeback(net, i)
    case ExpireT1(i) => SetChangeover(net, i, CHANGEOVER_COMPLETED)
    case ExpireT3(i) => SetChangeover(net, i, NO_CHANGEOVER)
    case ExpireT5(i) => SetChangeover(net, i, NO_CHANGEOVER)
    case ExpireT6(s, r) => SetT6(net, s, r, false)
    case SetRoute(s, pc, state, _) =>
      var r := FindRoute(net.sps[s].routes, ShortCode(pc));
      if state != TFP then net
      else if r < |net.sps[s].routes| then SetT6(PutRoute(net, s, r, net.sps[s].routes[r].(state := TFP)), s, r, false)
      else SetT6(PutRoute(net, s, r, Route(ShortCode(pc), TFP, false, [])), s, r, false)
    case _ => net
  }

  /** What the operation refuses was handed over while net n was as it is. */
  ghost predicate Refuses(net: Net, r: Net, n: Net)
    requires Formed(n)
  {
    exists ms: seq<Msg> :: r.refused == net.refused + Routed(n, ms, None)
  }

  lemma RefusesThese(net: Net, r: Net, n: Net, ms: seq<Msg>)
    requires Formed(n) && r.refused == net.refused + Routed(n, ms, None)
    ensures Refuses(net, r, n)
  {
  }

  lemma RefusesNothing(net: Net, r: Net, n: Net)
    requires Formed(n) && r.refused == net.refused
    ensures Refuses(net, r, n)
  {
    assert Routed(n, [], None) == [];
  }

  // ----- what never refuses

  lemma MovesRefuseNothing(net: Net, p: Place, q: Place, dpc: Option<nat>)
    requires Exists(net, p) && Exists(net, q)
    ensures Move(net, p, q, dpc).refused == Purge(net, p, dpc).refused == net.refused
    ensures Free(net, p).refused == Put(net, p, []).refused == net.refused
    ensures p != q ==> Hand(net, p, q).refused == net.refused
  {
    hide Kept, Taken, Users, WithList;
  }

  lemma FreesRefuseNothing(net: Net, i: nat)
    requires i < |net.links|
    ensures FreeCo(net, i).refused == net.refused
  {
    hide Free, Exists, Get;
    LinkListsExist(net, i);
    MovesRefuseNothing(net, CoTxBuf(i), CoTxQ(i), None);
    MovesRefuseNothing(Free(net, CoTxBuf(i)), CoTxQ(i), CoTxBuf(i), None);
  }

  lemma SetRefusesNothing(net: Net, i: nat, c: Changeover, sentCbd: bool, t4: bool)
    requires i < |net.links|
    ensures SetChangeover(net, i, c).refused == SetCbd(net, i, sentCbd, t4).refused == net.refused
    ensures |SetChangeover(net, i, c).links| == |SetCbd(net, i, sentCbd, t4).links| == |net.links|
  {
  }

  lemma RerouteRefusesNothing(net: Net, i: nat, s: nat, r: nat, free: bool)
    requires i < |net.links| && Exists(net, RouteQ(s, r))
    ensures RerouteLink(net, i, s, r, free).refused == net.refused
  {
    hide Get, Put, Move, Purge, Exists;
    LinkListsExist(net, i);
    RouteExists(net, s, r);
    var q := RouteQ(s, r);
    var d := Some(net.sps[s].routes[r].dpc);
    MovesRefuseNothing(net, TxQ(i), q, d);
    var n1 := Move(net, TxQ(i), q, d);
    MovesRefuseNothing(n1, if free then CoTxQ(i) else CoBuf(i), q, d);
    var n2 := Move(n1, if free then CoTxQ(i) else CoBuf(i), q, d);
    MovesRefuseNothing(n2, if free then CoBuf(i) else CbBuf(i), q, d);
    var n3 := Move(n2, if free then CoBuf(i) else CbBuf(i), q, d);
    MovesRefuseNothing(n3, if free then CbBuf(i) else CoTxQ(i), q, d);
    var n4 := Move(n3, if free then CbBuf(i) else CoTxQ(i), q, d);
    MovesRefuseNothing(n4, TxBuf(i), q, d);
    MovesRefuseNothing(Purge(n4, TxBuf(i), d), CoTxBuf(i), q, d);
  }

  lemma {:induction false} RerouteAllRefusesNothing(net: Net, i: nat, s: nat, r: nat, free: bool)
    requires i <= |net.links| && Exists(net, RouteQ(s, r))
    ensures RerouteFrom(net, i, s, r, free).refused == net.refused
    decreases |net.links| - i
  {
    hide RerouteLink, Exists, Get;
    if i < |net.links| {
      RerouteRefusesNothing(net, i, s, r, free);
      var n := if net.links[i].sp == s then RerouteLink(net, i, s, r, free) else net;
      LinksStay(net, n);
      RerouteAllRefusesNothing(n, i + 1, s, r, free);
    }
  }

  // ----- rerouting leaves links and routes as they are

  lemma MovesKeepShape(net: Net, p: Place, q: Place, dpc: Option<nat>)
    requires Exists(net, p) && Exists(net, q)
    ensures SameShape(net, Move(net, p, q, dpc)) && SameShape(net, Purge(net, p, dpc))
  {
    hide Kept, Taken, Put, Get, SameShape;
    var n := Put(net, p, Kept(Get(net, p), dpc));
    PutKeepsShape(net, p, Kept(Get(net, p), dpc));
    var ms := Get(n, q) + Taken(Get(net, p), dpc, Counted(p));
    PutKeepsShape(n, q, ms);
    ShapeIsTransitive(net, n, Put(n, q, ms));
    GoneKeepsShape(net, n, n.gone + Taken(Get(net, p), dpc, Counted(p)));
  }

  lemma GoneKeepsShape(a: Net, b: Net, gone: seq<Msg>)
    requires SameShape(a, b)
    ensures SameShape(a, b.(gone := gone))
  {
  }

  lemma MovesKeepShapeOf(a: Net, net: Net, p: Place, q: Place, dpc: Option<nat>)
    requires SameShape(a, net) && Exists(net, p) && Exists(net, q)
    ensures SameShape(a, Move(net, p, q, dpc)) && SameShape(a, Purge(net, p, dpc))
  {
    hide Move, Purge, SameShape, Exists;
    MovesKeepShape(net, p, q, dpc);
    ShapeIsTransitive(a, net, Move(net, p, q, dpc));
    ShapeIsTransitive(a, net, Purge(net, p, dpc));
  }

  lemma ShapeIsReflexive(net: Net)
    ensures SameShape(net, net)
  {
  }

  lemma RerouteLinkShape(net: Net, i: nat, s: nat, r: nat, free: bool)
    requires i < |net.links| && Exists(net, RouteQ(s, r))
    ensures SameShape(net, RerouteLink(net, i, s, r, free))
  {
    hide Get, Put, Move, Purge, Exists, SameShape;
    LinkListsExist(net, i);
    RouteExists(net, s, r);
    ShapeIsReflexive(net);
    var q := RouteQ(s, r);
    var d := Some(net.sps[s].routes[r].dpc);
    MovesKeepShapeOf(net, net, TxQ(i), q, d);
    var n1 := Move(net, TxQ(i), q, d);
    MovesKeepShapeOf(net, n1, if free then CoTxQ(i) else CoBuf(i), q, d);
    var n2 := Move(n1, if free then CoTxQ(i) else CoBuf(i), q, d);
    MovesKeepShapeOf(net, n2, if free then CoBuf(i) else CbBuf(i), q, d);
    var n3 := Move(n2, if free then CoBuf(i) else CbBuf(i), q, d);
    MovesKeepShapeOf(net, n3, if free then CbBuf(i) else CoTxQ(i), q, d);
    var n4 := Move(n3, if free then CbBuf(i) else CoTxQ(i), q, d);
    MovesKeepShapeOf(net, n4, TxBuf(i), q, d);
    MovesKeepShapeOf(net, Purge(n4, TxBuf(i), d), CoTxBuf(i), q, d);
  }

  lemma {:induction false} RerouteFromShape(net: Net, i: nat, s: nat, r: nat, free: bool)
    requires i <= |net.links| && Exists(net, RouteQ(s, r))
    ensures SameShape(net, RerouteFrom(net, i, s, r, free))
    decreases |net.links| - i
  {
    hide RerouteLink, Exists, Get, SameShape;
    ShapeIsReflexive(net);
    if i < |net.links| {
      RerouteLinkShape(net, i, s, r, free);
      var n := if net.links[i].sp == s then RerouteLink(net, i, s, r, free) else net;
      LinksStay(net, n);
      RerouteFromShape(n, i + 1, s, r, free);
      ShapeIsTransitive(net, n, RerouteFrom(n, i + 1, s, r, free));
    }
  }

  lemma SetT6KeepsShape(a: Net, b: Net, s: nat, r: nat, t6: bool)
    requires SameShape(a, b) && Exists(a, RouteQ(s, r)) && Exists(b, RouteQ(s, r))
    ensures SameShape(SetT6(a, s, r, t6), SetT6(b, s, r, t6))
  {
  }

  lemma RerouteShape(net: Net, s: nat, r: nat)
    requires Formed(net) && Exists(net, RouteQ(s, r))
    ensures SameShape(SetT6(RerouteFrom(net, 0, s, r, true), s, r, false), SetT6(net, s, r, false))
  {
    hide RerouteFrom, SetT6, SameShape, Exists, Get;
    RerouteFromShape(net, 0, s, r, true);
    ShapeIsSymmetric(net, RerouteFrom(net, 0, s, r, true));
    SetT6KeepsShape(RerouteFrom(net, 0, s, r, true), net, s, r, false);
  }

  lemma ShapeIsSymmetric(a: Net, b: Net)
    requires SameShape(a, b)
    ensures SameShape(b, a)
  {
  }

  // ----- each operation

  lemma DrainRefuses(net: Net, p: Place)
    requires Formed(net) && Exists(net, p)
    ensures Refuses(net, Drain(net, p), net)
  {
    hide Drain, Routed;
    DrainArrives(net, p, p);
    RefusesThese(net, Drain(net, p), net, Get(net, p));
  }

  /** A changed net in front and a quiet end behind do not matter. */
  lemma RefusesThrough(a: Net, b: Net, c: Net, d: Net, n: Net)
    requires Formed(n) && Refuses(b, c, n) && b.refused == a.refused && d.refused == c.refused
    ensures Refuses(a, d, n)
  {
  }

  lemma T1Refuses(net: Net, i: nat)
    requires Formed(net) && i < |net.links|
    ensures var n := SetChangeover(net, i, CHANGEOVER_COMPLETED); Refuses(net, T1Expired(net, i), n)
  {
    hide Drain, FreeCo, SetChangeover, Exists, Get, Refuses;
    var n := SetChangeover(net, i, CHANGEOVER_COMPLETED);
    SetRefusesNothing(net, i, CHANGEOVER_COMPLETED, false, false);
    LinkListsExist(n, i);
    DrainRefuses(n, CoBuf(i));
    DrainKeepsLinks(n, CoBuf(i));
    FreesRefuseNothing(Drain(n, CoBuf(i)), i);
    RefusesThrough(net, n, Drain(n, CoBuf(i)), T1Expired(net, i), n);
  }

  lemma T3Refuses(net: Net, i: nat)
    requires Formed(net) && i < |net.links|
    ensures var n := SetChangeover(net, i, NO_CHANGEOVER); Refuses(net, T3Expired(net, i), n)
  {
    hide Drain, FreeCo, SetChangeover, Exists, Get, Refuses;
    var n := SetChangeover(net, i, NO_CHANGEOVER);
    SetRefusesNothing(net, i, NO_CHANGEOVER, false, false);
    LinkListsExist(n, i);
    DrainRefuses(n, CbBuf(i));
    DrainKeepsLinks(n, CbBuf(i));
    FreesRefuseNothing(Drain(n, CbBuf(i)), i);
    RefusesThrough(net, n, Drain(n, CbBuf(i)), T3Expired(net, i), n);
  }

  lemma DrainKeepsLinks(net: Net, p: Place)
    requires Formed(net) && Exists(net, p)
    ensures |Drain(net, p).links| == |net.links|
  {
    hide Put, Get, TransmitAll;
    TransmitKeepsShape(net, Get(net, p));
    LinksStay(TransmitAll(net, Get(net, p)), Drain(net, p));
  }

  /** What is decided in a net of the same shape is decided alike. */
  lemma RefusesAlike(net: Net, r: Net, a: Net, b: Net)
    requires Formed(a) && Formed(b) && SameShape(a, b) && Refuses(net, r, a)
    ensures Refuses(net, r, b)
  {
    hide SameShape, Routed;
    var ms: seq<Msg> :| r.refused == net.refused + Routed(a, ms, None);
    ShapeDecidesRouted(a, b, ms, None);
    RefusesThese(net, r, b, ms);
  }

  lemma T5Refuses(net: Net, i: nat)
    requires Formed(net) && i < |net.links|
    ensures var n := SetChangeover(net, i, NO_CHANGEOVER); Refuses(net, T5Expired(net, i), n)
  {
    hide T3Expired, SetChangeover, SetCbd, Refuses, SameShape;
    var t4 := net.links[i].t4;
    var a := SetCbd(net, i, false, t4);
    SetRefusesNothing(net, i, NO_CHANGEOVER, false, t4);
    T3Refuses(a, i);
    CbdKeepsShape(net, i, t4);
    RefusesAlike(a, T3Expired(a, i), SetChangeover(a, i, NO_CHANGEOVER), SetChangeover(net, i, NO_CHANGEOVER));
    RefusesThrough(net, a, T3Expired(a, i), T3Expired(a, i), SetChangeover(net, i, NO_CHANGEOVER));
  }

  lemma CbdKeepsShape(net: Net, i: nat, t4: bool)
    requires Formed(net) && i < |net.links|
    ensures var a := SetCbd(net, i, false, t4);
      && Formed(a) && i < |a.links|
      && SameShape(SetChangeover(a, i, NO_CHANGEOVER), SetChangeover(net, i, NO_CHANGEOVER))
  {
  }

  lemma T2Refuses(net: Net, i: nat)
    requires Formed(net) && i < |net.links|
    ensures Refuses(net, T2Expired(net, i), net)
  {
    hide T2Expired, HandedOverByT2, Routed, Exists, Get;
    LinkListsExist(net, i);
    T2HandsOverQueued(net, i, CoBuf(i));
    RefusesThese(net, T2Expired(net, i), net, HandedOverByT2(net.links[i]));
  }

  /** A changeover is one of the link after it left a changeback. */
  lemma LeavingComesFirst(net: Net, i: nat, fsn: nat)
    requires Formed(net) && i < |net.links|
    ensures var n := LeaveChangeback(net, i);
      && i < |n.links|
      && ChangeoverTo(net, i, fsn) ==
           if n.links[i].changeover == NO_CHANGEOVER || n.links[i].changeover == CHANGEOVER_INITIATED
           then ChangeoverTo(n, i, fsn) else n
  {
    hide CancelChangeback, Gather, Complete, Acknowledge, Exists, Get;
    LinksStay(net, LeaveChangeback(net, i));
  }

  lemma ChangeoverRefuses(net: Net, i: nat, fsn: nat)
    requires Formed(net) && i < |net.links|
    ensures Refuses(net, ChangeoverTo(net, i, fsn), LeaveChangeback(net, i))
  {
    hide LeaveChangeback, ChangeoverTo, HandedOver, Routed, Exists, Get, Refuses;
    LeavingComesFirst(net, i, fsn);
    WithOwn(net, i);
    BacksLocally(net, i, net.links[i], net.gone);
    var n := LeaveChangeback(net, i);
    LinksStay(net, n);
    LinkListsExist(n, i);
    var c := n.links[i].changeover;
    if c == NO_CHANGEOVER || c == CHANGEOVER_INITIATED {
      ChangeoverHandsOverOnce(n, i, fsn, CoBuf(i));
      RefusesThese(n, ChangeoverTo(n, i, fsn), n, HandedOver(n.links[i], fsn));
      RefusesThrough(net, n, ChangeoverTo(n, i, fsn), ChangeoverTo(net, i, fsn), n);
    } else {
      RefusesNothing(net, n, n);
    }
  }

  lemma T6Refuses(net: Net, s: nat, r: nat)
    requires Formed(net) && Exists(net, RouteQ(s, r))
    ensures Refuses(net, T6Expired(net, s, r), SetT6(net, s, r, false))
  {
    hide Drain, SetT6, Get, Refuses, Users, Exists;
    var n := SetT6(net, s, r, false);
    T6SetRefusesNothing(net, s, r, false);
    DrainRefuses(n, RouteQ(s, r));
    TransmitKeepsShape(n, Get(n, RouteQ(s, r)));
    RefusesThrough(net, n, Drain(n, RouteQ(s, r)), T6Expired(net, s, r), n);
  }

  lemma T6SetRefusesNothing(net: Net, s: nat, r: nat, t6: bool)
    requires Exists(net, RouteQ(s, r))
    ensures SetT6(net, s, r, t6).refused == net.refused
  {
  }

  lemma RouteRefuses(net: Net, op: Op)
    requires Formed(net) && op.SetRoute? && Enabled(net, op)
    ensures Refuses(net, AddSetRoute(net, op.s, op.pc, op.state, op.room), During(net, op))
  {
    hide Drain, SetT6, RerouteFrom, Refuses, SameShape, Get;
    var SetRoute(s, pc, state, room) := op;
    var dpc := ShortCode(pc);
    var routes := net.sps[s].routes;
    var r := FindRoute(routes, dpc);
    var d := During(net, op);
    if r == |routes| && state == TFA {
      RefusesNothing(net, net, d);
    } else {
      var route := if r < |routes| then routes[r].(state := state) else Route(dpc, state, false, []);
      var n := PutRoute(net, s, r, route);
      RerouteAllRefusesNothing(n, 0, s, r, state == TFP);
      var n1 := RerouteFrom(n, 0, s, r, state == TFP);
      T6SetRefusesNothing(n1, s, r, if state == TFP then false else room);
      if state == TFP {
        var n2 := SetT6(n1, s, r, false);
        DrainRefuses(n2, RouteQ(s, r));
        RerouteShape(n, s, r);
        RefusesAlike(n2, Drain(n2, RouteQ(s, r)), n2, d);
        RefusesThrough(net, n2, Drain(n2, RouteQ(s, r)), Drain(n2, RouteQ(s, r)), d);
      } else {
        RefusesNothing(net, AddSetRoute(net, s, pc, state, room), d);
      }
    }
  }

  // ----- every operation, and every run

  lemma QuietRefusesNothing(net: Net, op: Op)
    requires Formed(net) && Enabled(net, op) && Quiet(op)
    ensures Step(net, op).refused == net.refused
  {
    hide Relisted, Step, Freed;
    QuietStep(net, op);
  }

  lemma TrafficRefuses(net: Net, op: Op)
    requires Formed(net) && Enabled(net, op) && OfTraffic(op)
    ensures Refuses(net, StepTraffic(net, op), During(net, op))
  {
    hide Refuses, During, AddSetRoute, T6Expired, Exists, Get, Put, Free, Unacked, Users, Routed;
    DuringMostly(net, op);
    if op.SubmitUser? {
      SubmitRefuses(net, op.m);
    } else if op.SetRoute? {
      RouteRefuses(net, op);
    } else if op.ExpireT6? {
      T6Refuses(net, op.s, op.r);
    } else {
      if Quiet(op) { QuietRefusesNothing(net, op); }
      RefusesNothing(net, StepTraffic(net, op), net);
    }
  }

  lemma DuringMostly(net: Net, op: Op)
    requires Formed(net) && Enabled(net, op)
    ensures !op.PeerChangeover? && !op.ExpireT1? && !op.ExpireT3? && !op.ExpireT5? && !op.ExpireT6? && !op.SetRoute? ==>
      During(net, op) == net
    ensures op.PeerChangeover? ==> During(net, op) == LeaveChangeback(net, op.i)
    ensures op.ExpireT1? ==> During(net, op) == SetChangeover(net, op.i, CHANGEOVER_COMPLETED)
    ensures op.ExpireT3? || op.ExpireT5? ==> During(net, op) == SetChangeover(net, op.i, NO_CHANGEOVER)
    ensures op.ExpireT6? ==> During(net, op) == SetT6(net, op.s, op.r, false)
  {
    hide LeaveChangeback, SetChangeover, SetT6;
  }

  lemma SubmitRefuses(net: Net, m: Msg)
    requires Formed(net)
    ensures Refuses(net, Submit(net, m), net)
  {
    hide RlToLink, Transmit;
    SubmittedStays(net, m);
    TransmitRefuses(net.(submitted := net.submitted + [m]), m);
    assert Routed(net, [m], None) == (if RlToLink(net, m) == None then [m] else []);
    RefusesThese(net, Submit(net, m), net, [m]);
  }

  lemma ChangeoverStepRefuses(net: Net, op: Op)
    requires Formed(net) && Enabled(net, op) && !OfTraffic(op)
    ensures Refuses(net, StepChangeover(net, op), During(net, op))
  {
    hide Refuses, During, ChangeoverTo, T1Expired, T2Expired, T3Expired, T5Expired, LeaveChangeback, SetChangeover, SetT6;
    DuringMostly(net, op);
    if op.PeerChangeover? {
      ChangeoverRefuses(net, op.i, op.fsn);
    } else if op.ExpireT1? {
      T1Refuses(net, op.i);
    } else if op.ExpireT2? {
      T2Refuses(net, op.i);
    } else if op.ExpireT3? {
      T3Refuses(net, op.i);
    } else if op.ExpireT5? {
      T5Refuses(net, op.i);
    } else {
      QuietRefusesNothing(net, op);
      RefusesNothing(net, StepChangeover(net, op), net);
    }
  }

  /** Whatever an operation refuses, no link qualified for it while it was handed over. */
  lemma RefusedInStep(net: Net, op: Op, m: Msg)
    requires Formed(net) && m in Step(net, op).refused && m !in net.refused
    ensures Enabled(net, op) && NoneQualifies(During(net, op), m.dpc)
  {
    hide During, StepTraffic, StepChangeover, Routed, NoneQualifies;
    if OfTraffic(op) { TrafficRefuses(net, op); } else { ChangeoverStepRefuses(net, op); }
    var n := During(net, op);
    var ms: seq<Msg> :| Step(net, op).refused == net.refused + Routed(n, ms, None);
    RefusedHaveNoLink(n, ms, m);
  }

  /** Over every run, a message is among those refused only if, at some step, no link qualified for it
      while the operation of that step handed it over. */
  lemma {:induction false} RefusedOnlyWithoutLink(net: Net, ops: seq<Op>, m: Msg) returns (k: nat)
    requires Formed(net) && net.refused == [] && m in Run(net, ops).refused
    ensures k < |ops| && Enabled(Run(net, ops[..k]), ops[k])
    ensures NoneQualifies(During(Run(net, ops[..k]), ops[k]), m.dpc)
  {
    hide Step, During, NoneQualifies, Enabled;
    var before := ops[..|ops|-1];
    if m in Run(net, before).refused {
      k := RefusedOnlyWithoutLink(net, before, m);
      assert before[..k] == ops[..k];
    } else {
      k := |ops| - 1;
      RefusedInStep(Run(net, before), ops[k], m);
    }
  }
}
