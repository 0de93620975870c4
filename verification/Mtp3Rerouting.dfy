/** Rerouting: what a change of a route's state recalls from the links, and the invariant of the
    lists over every run. */
module Mtp3Rerouting {
  import opened Mtp3Spec
  import Mtp3Changeover
  import opened Mtp3Conservation
  import opened Mtp3Invariants
  import opened Mtp3Runs
  import opened Options

  // ----- what is recalled

  ghost predicate NoneFor(ms: seq<Msg>, dpc: nat) { forall m :: m in ms && m.user ==> m.dpc != dpc }

  lemma MoveAt(net: Net, p: Place, q: Place, dpc: Option<nat>, x: Place)
    requires Exists(net, p) && Exists(net, q) && Exists(net, x) && x != q && p != q
    ensures Exists(Move(net, p, q, dpc), x)
    ensures Get(Move(net, p, q, dpc), x) == if x == p then Kept(Get(net, p), dpc) else Get(net, x)
  {
  }

  lemma PurgeAt(net: Net, p: Place, dpc: Option<nat>, x: Place)
    requires Exists(net, p) && Exists(net, x)
    ensures Exists(Purge(net, p, dpc), x)
    ensures Get(Purge(net, p, dpc), x) == if x == p then Kept(Get(net, p), dpc) else Get(net, x)
  {
    hide Put, Get;
    var n := Put(net, p, Kept(Get(net, p), dpc));
    HistoryKeepsLists(n, n.submitted, n.gone + Taken(Get(net, p), dpc, Counted(p)), n.refused, x);
  }

  lemma HistoryKeepsLists(n: Net, submitted: seq<Msg>, gone: seq<Msg>, refused: seq<Msg>, x: Place)
    requires Exists(n, x)
    ensures Exists(n.(submitted := submitted, gone := gone, refused := refused), x)
    ensures Get(n.(submitted := submitted, gone := gone, refused := refused), x) == Get(n, x)
  {
  }

  /** A list of a link is left with the messages that are not recalled, the others unchanged. */
  lemma RerouteLinkAt(net: Net, i: nat, s: nat, r: nat, free: bool, x: Place)
    requires i < |net.links| && Exists(net, RouteQ(s, r)) && Exists(net, x) && !x.RouteQ?
    ensures var n := RerouteLink(net, i, s, r, free); var d := Some(net.sps[s].routes[r].dpc);
      Exists(n, x) && Get(n, x) == if x.link == i && (free || Recallable(x)) then Kept(Get(net, x), d) else Get(net, x)
  {
    if free { ForcedAt(net, i, s, r, x); } else { ControlledAt(net, i, s, r, x); }
  }

  lemma ForcedAt(net: Net, i: nat, s: nat, r: nat, x: Place)
    requires i < |net.links| && Exists(net, RouteQ(s, r)) && Exists(net, x) && !x.RouteQ?
    ensures var n := RerouteLink(net, i, s, r, true); var d := Some(net.sps[s].routes[r].dpc);
      Exists(n, x) && Get(n, x) == if x.link == i then Kept(Get(net, x), d) else Get(net, x)
  {
    hide Get, Move, Purge, Kept, Formed;
    var q := RouteQ(s, r);
    var d := Some(net.sps[s].routes[r].dpc);
    LinkListsExist(net, i);
    var n1 := Move(net, TxQ(i), q, d);
    var n2 := Move(n1, CoTxQ(i), q, d);
    var n3 := Move(n2, CoBuf(i), q, d);
    var n4 := Move(n3, CbBuf(i), q, d);
    var n5 := Purge(n4, TxBuf(i), d);
    MoveAt(net, TxQ(i), q, d, x);
    MoveAt(n1, CoTxQ(i), q, d, x);
    MoveAt(n2, CoBuf(i), q, d, x);
    MoveAt(n3, CbBuf(i), q, d, x);
    PurgeAt(n4, TxBuf(i), d, x);
    PurgeAt(n5, CoTxBuf(i), d, x);
    assert RerouteLink(net, i, s, r, true) == Purge(n5, CoTxBuf(i), d);
    assert x.link == i ==> x in [TxQ(i), CoTxQ(i), CoBuf(i), CbBuf(i), TxBuf(i), CoTxBuf(i)];
  }

  lemma ControlledAt(net: Net, i: nat, s: nat, r: nat, x: Place)
    requires i < |net.links| && Exists(net, RouteQ(s, r)) && Exists(net, x) && !x.RouteQ?
    ensures var n := RerouteLink(net, i, s, r, false); var d := Some(net.sps[s].routes[r].dpc);
      Exists(n, x) && Get(n, x) == if x.link == i && Recallable(x) then Kept(Get(net, x), d) else Get(net, x)
  {
    hide Get, Move, Purge, Kept, Formed;
    var q := RouteQ(s, r);
    var d := Some(net.sps[s].routes[r].dpc);
    LinkListsExist(net, i);
    var n1 := Move(net, TxQ(i), q, d);
    var n2 := Move(n1, CoBuf(i), q, d);
    var n3 := Move(n2, CbBuf(i), q, d);
    MoveAt(net, TxQ(i), q, d, x);
    MoveAt(n1, CoBuf(i), q, d, x);
    MoveAt(n2, CbBuf(i), q, d, x);
    MoveAt(n3, CoTxQ(i), q, d, x);
    assert RerouteLink(net, i, s, r, false) == Move(n3, CoTxQ(i), q, d);
    assert x.link == i && Recallable(x) ==> x in [TxQ(i), CoBuf(i), CbBuf(i), CoTxQ(i)];
  }

  lemma MoveKeepsBars(net: Net, p: Place, q: Place, dpc: Option<nat>)
    requires Exists(net, p) && Exists(net, q)
    ensures SameBars(net, Move(net, p, q, dpc))
  {
    hide Get, Put, SameBars;
    var n := Put(net, p, Kept(Get(net, p), dpc));
    PutKeepsBars(net, p, Kept(Get(net, p), dpc));
    PutKeepsBars(n, q, Get(n, q) + Taken(Get(net, p), dpc, Counted(p)));
    BarsAreTransitive(net, n, Move(net, p, q, dpc));
  }

  lemma PurgeKeepsBars(net: Net, p: Place, dpc: Option<nat>)
    requires Exists(net, p)
    ensures SameBars(net, Purge(net, p, dpc))
  {
    hide Get, Put;
    PutKeepsBars(net, p, Kept(Get(net, p), dpc));
  }

  lemma RerouteLinkKeepsBars(net: Net, i: nat, s: nat, r: nat, free: bool)
    requires i < |net.links| && Exists(net, RouteQ(s, r))
    ensures SameBars(net, RerouteLink(net, i, s, r, free))
  {
    hide Get, Move, Purge, Kept, SameBars;
    var q := RouteQ(s, r);
    var d := Some(net.sps[s].routes[r].dpc);
    var n1 := Move(net, TxQ(i), q, d);
    MoveKeepsBars(net, TxQ(i), q, d);
    if free {
      var n2 := Move(n1, CoTxQ(i), q, d);
      var n3 := Move(n2, CoBuf(i), q, d);
      var n4 := Move(n3, CbBuf(i), q, d);
      var n5 := Purge(n4, TxBuf(i), d);
      MoveKeepsBars(n1, CoTxQ(i), q, d);
      MoveKeepsBars(n2, CoBuf(i), q, d);
      MoveKeepsBars(n3, CbBuf(i), q, d);
      PurgeKeepsBars(n4, TxBuf(i), d);
      PurgeKeepsBars(n5, CoTxBuf(i), d);
      BarsAreTransitive(net, n1, n2);
      BarsAreTransitive(net, n2, n3);
      BarsAreTransitive(net, n3, n4);
      BarsAreTransitive(net, n4, n5);
      BarsAreTransitive(net, n5, Purge(n5, CoTxBuf(i), d));
    } else {
      var n2 := Move(n1, CoBuf(i), q, d);
      var n3 := Move(n2, CbBuf(i), q, d);
      MoveKeepsBars(n1, CoBuf(i), q, d);
      MoveKeepsBars(n2, CbBuf(i), q, d);
      MoveKeepsBars(n3, CoTxQ(i), q, d);
      BarsAreTransitive(net, n1, n2);
      BarsAreTransitive(net, n2, n3);
      BarsAreTransitive(net, n3, Move(n3, CoTxQ(i), q, d));
    }
  }

  lemma RerouteLinkProper(net: Net, e: Option<(nat, nat)>, i: nat, s: nat, r: nat, free: bool)
    requires Proper(net, e) && i < |net.links| && Exists(net, RouteQ(s, r))
    ensures Proper(RerouteLink(net, i, s, r, free), e)
  {
    hide Get, Move, Purge, Kept, Proper;
    var q := RouteQ(s, r);
    var d := Some(net.sps[s].routes[r].dpc);
    var n1 := Move(net, TxQ(i), q, d);
    MoveProper(net, e, TxQ(i), q, d);
    if free {
      var n2 := Move(n1, CoTxQ(i), q, d);
      var n3 := Move(n2, CoBuf(i), q, d);
      var n4 := Move(n3, CbBuf(i), q, d);
      var n5 := Purge(n4, TxBuf(i), d);
      MoveProper(n1, e, CoTxQ(i), q, d);
      MoveProper(n2, e, CoBuf(i), q, d);
      MoveProper(n3, e, CbBuf(i), q, d);
      PurgeProper(n4, e, TxBuf(i), d);
      PurgeProper(n5, e, CoTxBuf(i), d);
    } else {
      var n2 := Move(n1, CoBuf(i), q, d);
      var n3 := Move(n2, CbBuf(i), q, d);
      MoveProper(n1, e, CoBuf(i), q, d);
      MoveProper(n2, e, CbBuf(i), q, d);
      MoveProper(n3, e, CoTxQ(i), q, d);
    }
  }

  lemma {:induction false} RerouteProper(net: Net, e: Option<(nat, nat)>, i: nat, s: nat, r: nat, free: bool)
    requires Proper(net, e) && i <= |net.links| && Exists(net, RouteQ(s, r))
    ensures Proper(RerouteFrom(net, i, s, r, free), e) && SameBars(net, RerouteFrom(net, i, s, r, free))
    decreases |net.links| - i
  {
    hide Proper, RerouteLink;
    if i < |net.links| {
      RerouteLinkProper(net, e, i, s, r, free);
      RerouteLinkKeepsBars(net, i, s, r, free);
      var n := if net.links[i].sp == s then RerouteLink(net, i, s, r, free) else net;
      LinksStay(net, n);
      RerouteProper(n, e, i + 1, s, r, free);
      BarsAreTransitive(net, n, RerouteFrom(n, i + 1, s, r, free));
    }
  }

  /** Over all links: exactly the messages for the destination are recalled, from exactly the
      links of the signalling point. */
  lemma {:induction false} RerouteAt(net: Net, i: nat, s: nat, r: nat, free: bool, x: Place)
    requires i <= |net.links|
    requires Exists(net, RouteQ(s, r)) && Exists(net, x) && !x.RouteQ?
    ensures var n := RerouteFrom(net, i, s, r, free); var d := Some(net.sps[s].routes[r].dpc);
      && Exists(n, x)
      && Get(n, x) == if i <= x.link && net.links[x.link].sp == s && (free || Recallable(x))
                      then Kept(Get(net, x), d) else Get(net, x)
    decreases |net.links| - i
  {
    hide Proper, RerouteLink, Get, Kept;
    if i < |net.links| {
      RerouteLinkKeepsBars(net, i, s, r, free);
      RerouteLinkAt(net, i, s, r, free, x);
      var n := if net.links[i].sp == s then RerouteLink(net, i, s, r, free) else net;
      LinksStay(net, n);
      RerouteAt(n, i + 1, s, r, free, x);
    }
  }

  // ----- the order of what is recalled

  /** From one link: queued before buffered messages in a forced reroute, those taken over from
      MTP2 last in a controlled one; all without the CRC. */
  function RecalledLink(l: Link, d: Option<nat>, free: bool): seq<Msg> {
    if free then Taken(l.txQ, d, true) + Taken(l.coTxQ, d, true) + Taken(l.coBuf, d, false) + Taken(l.cbBuf, d, false)
    else Taken(l.txQ, d, true) + Taken(l.coBuf, d, false) + Taken(l.cbBuf, d, false) + Taken(l.coTxQ, d, true)
  }

  function Recalled(links: seq<Link>, i: nat, s: nat, d: Option<nat>, free: bool): seq<Msg>
    requires i <= |links|
    decreases |links| - i
  {
    if i == |links| then []
    else (if links[i].sp == s then RecalledLink(links[i], d, free) else []) + Recalled(links, i + 1, s, d, free)
  }

  lemma MoveOnto(net: Net, p: Place, q: Place, dpc: Option<nat>)
    requires Exists(net, p) && Exists(net, q) && p != q
    ensures Exists(Move(net, p, q, dpc), q)
    ensures Get(Move(net, p, q, dpc), q) == Get(net, q) + Taken(Get(net, p), dpc, Counted(p))
  {
    hide Kept, Taken;
  }

  lemma RecalledFromLink(net: Net, i: nat, s: nat, r: nat, free: bool)
    requires i < |net.links| && Exists(net, RouteQ(s, r))
    ensures var n := RerouteLink(net, i, s, r, free); var q := RouteQ(s, r); var d := Some(net.sps[s].routes[r].dpc);
      Exists(n, q) && Get(n, q) == Get(net, q) + RecalledLink(net.links[i], d, free)
  {
    hide Get, Move, Purge, Kept, Taken, Formed;
    var q := RouteQ(s, r);
    var d := Some(net.sps[s].routes[r].dpc);
    var l := net.links[i];
    ListsOfLink(net, i);
    var n1 := Move(net, TxQ(i), q, d);
    MoveOnto(net, TxQ(i), q, d);
    var x1 := if free then CoTxQ(i) else CoBuf(i);
    var x2 := if free then CoBuf(i) else CbBuf(i);
    var x3 := if free then CbBuf(i) else CoTxQ(i);
    MoveAt(net, TxQ(i), q, d, x1);
    MoveAt(net, TxQ(i), q, d, x2);
    MoveAt(net, TxQ(i), q, d, x3);
    var n2 := Move(n1, x1, q, d);
    MoveOnto(n1, x1, q, d);
    MoveAt(n1, x1, q, d, x2);
    MoveAt(n1, x1, q, d, x3);
    var n3 := Move(n2, x2, q, d);
    MoveOnto(n2, x2, q, d);
    MoveAt(n2, x2, q, d, x3);
    var n4 := Move(n3, x3, q, d);
    MoveOnto(n3, x3, q, d);
    Associate4(Get(net, q), Taken(l.txQ, d, true), Taken(Get(net, x1), d, Counted(x1)),
               Taken(Get(net, x2), d, Counted(x2)), Taken(Get(net, x3), d, Counted(x3)));
    if free {
      PurgeAt(n4, TxBuf(i), d, q);
      PurgeAt(Purge(n4, TxBuf(i), d), CoTxBuf(i), d, q);
    }
  }

  lemma ListsOfLink(net: Net, i: nat)
    requires i < |net.links|
    ensures Get(net, TxQ(i)) == net.links[i].txQ && Get(net, CoTxQ(i)) == net.links[i].coTxQ
    ensures Get(net, CoBuf(i)) == net.links[i].coBuf && Get(net, CbBuf(i)) == net.links[i].cbBuf
  {
  }

  lemma Associate4(a: seq<Msg>, b: seq<Msg>, c: seq<Msg>, d: seq<Msg>, e: seq<Msg>)
    ensures a + b + c + d + e == a + (b + c + d + e)
  {
  }

  lemma MoveLeavesLinks(net: Net, p: Place, q: Place, dpc: Option<nat>, j: nat)
    requires Exists(net, p) && Exists(net, q) && q.RouteQ? && !p.RouteQ? && j < |net.links| && j != p.link
    ensures |Move(net, p, q, dpc).links| == |net.links| && Move(net, p, q, dpc).links[j] == net.links[j]
  {
    hide Kept, Taken;
  }

  lemma PurgeLeavesLinks(net: Net, p: Place, dpc: Option<nat>, j: nat)
    requires Exists(net, p) && !p.RouteQ? && j < |net.links| && j != p.link
    ensures |Purge(net, p, dpc).links| == |net.links| && Purge(net, p, dpc).links[j] == net.links[j]
  {
    hide Kept, Taken;
  }

  lemma RerouteLeavesLinks(net: Net, i: nat, s: nat, r: nat, free: bool, j: nat)
    requires i < |net.links| && Exists(net, RouteQ(s, r)) && j < |net.links| && j != i
    ensures var n := RerouteLink(net, i, s, r, free); |n.links| == |net.links| && n.links[j] == net.links[j]
  {
    hide Get, Move, Purge;
    var q := RouteQ(s, r);
    var d := Some(net.sps[s].routes[r].dpc);
    var x1 := if free then CoTxQ(i) else CoBuf(i);
    var x2 := if free then CoBuf(i) else CbBuf(i);
    var x3 := if free then CbBuf(i) else CoTxQ(i);
    var n1 := Move(net, TxQ(i), q, d);
    var n2 := Move(n1, x1, q, d);
    var n3 := Move(n2, x2, q, d);
    var n4 := Move(n3, x3, q, d);
    MoveLeavesLinks(net, TxQ(i), q, d, j);
    MoveLeavesLinks(n1, x1, q, d, j);
    MoveLeavesLinks(n2, x2, q, d, j);
    MoveLeavesLinks(n3, x3, q, d, j);
    if free {
      PurgeLeavesLinks(n4, TxBuf(i), d, j);
      PurgeLeavesLinks(Purge(n4, TxBuf(i), d), CoTxBuf(i), d, j);
    }
  }

  lemma {:induction false} SameRecalled(a: seq<Link>, b: seq<Link>, i: nat, s: nat, d: Option<nat>, free: bool)
    requires |a| == |b| && i <= |a| && forall j :: i <= j < |a| ==> a[j] == b[j]
    ensures Recalled(a, i, s, d, free) == Recalled(b, i, s, d, free)
    decreases |a| - i
  {
    hide RecalledLink;
    if i < |a| {
      SameRecalled(a, b, i + 1, s, d, free);
    }
  }

  /** The route's queue keeps its messages and gets those recalled behind them, link by link. */
  lemma {:induction false} RecalledInOrder(net: Net, i: nat, s: nat, r: nat, free: bool)
    requires i <= |net.links| && Exists(net, RouteQ(s, r))
    ensures var n := RerouteFrom(net, i, s, r, free); var q := RouteQ(s, r); var d := Some(net.sps[s].routes[r].dpc);
      Exists(n, q) && Get(n, q) == Get(net, q) + Recalled(net.links, i, s, d, free)
    decreases |net.links| - i
  {
    hide RerouteLink, Get, RecalledLink;
    if i < |net.links| {
      var d := Some(net.sps[s].routes[r].dpc);
      var n := if net.links[i].sp == s then RerouteLink(net, i, s, r, free) else net;
      LinksStay(net, n);
      RerouteLinkKeepsBars(net, i, s, r, free);
      RecalledFromLink(net, i, s, r, free);
      forall j | i < j < |net.links| ensures n.links[j] == net.links[j] {
        RerouteLeavesLinks(net, i, s, r, free, j);
      }
      SameRecalled(net.links, n.links, i + 1, s, d, free);
      RecalledInOrder(n, i + 1, s, r, free);
      Mtp3Changeover.Associate(Get(net, RouteQ(s, r)), if net.links[i].sp == s then RecalledLink(net.links[i], d, free) else [],
                 Recalled(net.links, i + 1, s, d, free));
    }
  }

  // ----- putting a route in and taking it out

  /** Adding a route or changing its state: messages barred by it are excepted, unless it bars
      no more than before. */
  lemma PutRouteProper(net: Net, s: nat, r: nat, route: Route, e: Option<(nat, nat)>)
    requires Proper(net, None) && s < |net.sps| && r == FindRoute(net.sps[s].routes, route.dpc)
    requires route.q == if r < |net.sps[s].routes| then net.sps[s].routes[r].q else []
    requires route.dpc < 0x1_0000 && (e == Some((s, route.dpc)) || NoNewBars(net.sps[s].routes, r, route))
    ensures Proper(PutRoute(net, s, r, route), e)
  {
    hide ListsFit;
    var n := PutRoute(net, s, r, route);
    assert Formed(n);
    assert KeyedRoutes(n) by { PutRouteKeepsKeys(net.sps[s].routes, r, route); }
    forall p | Exists(n, p) ensures Fits(n, e, p, Get(n, p)) {
      PutRouteFits(net, s, r, route, e, p);
    }
    assert ListsFit(n, e) by { AllFit(n, e); }
  }

  lemma AllFit(n: Net, e: Option<(nat, nat)>)
    requires Formed(n) && forall p :: Exists(n, p) ==> Fits(n, e, p, Get(n, p))
    ensures ListsFit(n, e)
  {
  }

  ghost predicate NoNewBars(routes: seq<Route>, r: nat, route: Route) {
    forall p :: Bars(route, p) ==> r < |routes| && Bars(routes[r], p)
  }

  lemma PutRouteKeepsKeys(routes: seq<Route>, r: nat, route: Route)
    requires Keyed(routes) && r == FindRoute(routes, route.dpc) && route.dpc < 0x1_0000
    ensures Keyed(if r < |routes| then routes[r := route] else routes + [route])
  {
    if r < |routes| {
      hide FindRoute;
      assert forall a :: 0 <= a < |routes| ==> routes[r := route][a].dpc == routes[a].dpc;
    }
  }

  lemma PutRouteFits(net: Net, s: nat, r: nat, route: Route, e: Option<(nat, nat)>, p: Place)
    requires Proper(net, None) && s < |net.sps| && r == FindRoute(net.sps[s].routes, route.dpc)
    requires route.q == if r < |net.sps[s].routes| then net.sps[s].routes[r].q else []
    requires e == Some((s, route.dpc)) || NoNewBars(net.sps[s].routes, r, route)
    requires Exists(PutRoute(net, s, r, route), p) && Formed(PutRoute(net, s, r, route))
    ensures Fits(PutRoute(net, s, r, route), e, p, Get(PutRoute(net, s, r, route), p))
  {
    hide KeyedRoutes, FindRoute;
    var n := PutRoute(net, s, r, route);
    var routes := net.sps[s].routes;
    if p == RouteQ(s, r) && r == |routes| {
      assert Get(n, p) == [];
    } else {
      assert Exists(net, p) && Get(n, p) == Get(net, p);
      assert Fits(net, None, p, Get(net, p));
      forall m | m in Get(n, p) && m.user ensures !Barred(n, e, p, m.dpc) {
        PutRouteBars(net, s, r, route, e, p, m.dpc);
      }
    }
  }

  lemma PutRouteBars(net: Net, s: nat, r: nat, route: Route, e: Option<(nat, nat)>, p: Place, dpc: nat)
    requires Formed(net) && s < |net.sps| && r == FindRoute(net.sps[s].routes, route.dpc)
    requires e == Some((s, route.dpc)) || NoNewBars(net.sps[s].routes, r, route)
    requires Exists(net, p) && Exists(PutRoute(net, s, r, route), p) && Formed(PutRoute(net, s, r, route))
    requires !Barred(net, None, p, dpc)
    ensures !Barred(PutRoute(net, s, r, route), e, p, dpc)
  {
    hide FindRoute, Bars;
    var n := PutRoute(net, s, r, route);
    if !p.RouteQ? {
      forall a | 0 <= a < |RoutesAt(n, p)| && RoutesAt(n, p)[a].dpc == dpc && Bars(RoutesAt(n, p)[a], p)
        ensures e == Some((net.links[p.link].sp, dpc))
      {
        if a < |RoutesAt(net, p)| && RoutesAt(net, p)[a] == RoutesAt(n, p)[a] {
          assert false;
        }
      }
    }
  }

  /** The state of T6 is set once the lists of the links are clear of what it bars. */
  lemma FinishReroute(net: Net, s: nat, r: nat, t6: bool)
    requires Exists(net, RouteQ(s, r)) && Proper(net, Some((s, net.sps[s].routes[r].dpc)))
    requires forall p :: Exists(net, p) && !p.RouteQ? && net.links[p.link].sp == s ==>
      Bars(net.sps[s].routes[r].(t6 := t6), p) ==> NoneFor(Get(net, p), net.sps[s].routes[r].dpc)
    ensures Proper(SetT6(net, s, r, t6), None)
  {
    hide ListsFit;
    var n := SetT6(net, s, r, t6);
    SetT6KeepsKeys(net, s, r, t6);
    forall p | Exists(n, p) ensures Fits(n, None, p, Get(n, p)) {
      FinishRerouteFits(net, s, r, t6, p);
    }
    AllFit(n, None);
  }

  lemma SetT6KeepsKeys(net: Net, s: nat, r: nat, t6: bool)
    requires Exists(net, RouteQ(s, r)) && KeyedRoutes(net)
    ensures KeyedRoutes(SetT6(net, s, r, t6))
  {
    assert Keyed(net.sps[s].routes);
  }

  lemma FinishRerouteFits(net: Net, s: nat, r: nat, t6: bool, p: Place)
    requires Exists(net, RouteQ(s, r)) && Exists(net, p) && Proper(net, Some((s, net.sps[s].routes[r].dpc)))
    requires !p.RouteQ? && net.links[p.link].sp == s && Bars(net.sps[s].routes[r].(t6 := t6), p)
      ==> NoneFor(Get(net, p), net.sps[s].routes[r].dpc)
    ensures Fits(SetT6(net, s, r, t6), None, p, Get(net, p))
  {
    var e := Some((s, net.sps[s].routes[r].dpc));
    var n := SetT6(net, s, r, t6);
    assert Fits(net, e, p, Get(net, p));
    assert Keyed(net.sps[s].routes);
    if !p.RouteQ? {
      forall m | m in Get(net, p) && m.user ensures !Barred(n, None, p, m.dpc) {
        assert !Barred(net, e, p, m.dpc);
        forall a | 0 <= a < |RoutesAt(n, p)| && RoutesAt(n, p)[a].dpc == m.dpc
          ensures !Bars(RoutesAt(n, p)[a], p)
        {
          assert RoutesAt(net, p)[a].dpc == m.dpc;
        }
      }
    }
  }

  /** Stopping T6 bars less. */
  lemma StopT6Proper(net: Net, s: nat, r: nat)
    requires Exists(net, RouteQ(s, r)) && Proper(net, None)
    ensures Proper(SetT6(net, s, r, false), None)
  {
    hide ListsFit;
    var n := SetT6(net, s, r, false);
    SetT6KeepsKeys(net, s, r, false);
    forall p | Exists(n, p) ensures Fits(n, None, p, Get(n, p)) {
      StopT6Fits(net, s, r, p);
    }
    AllFit(n, None);
  }

  lemma StopT6Fits(net: Net, s: nat, r: nat, p: Place)
    requires Exists(net, RouteQ(s, r)) && Exists(net, p) && Proper(net, None)
    ensures Fits(SetT6(net, s, r, false), None, p, Get(net, p))
  {
    var n := SetT6(net, s, r, false);
    assert Fits(net, None, p, Get(net, p));
    if !p.RouteQ? {
      forall m | m in Get(net, p) && m.user ensures !Barred(n, None, p, m.dpc) {
        assert !Barred(net, None, p, m.dpc);
        forall a | 0 <= a < |RoutesAt(n, p)| && RoutesAt(n, p)[a].dpc == m.dpc
          ensures !Bars(RoutesAt(n, p)[a], p)
        {
          assert RoutesAt(net, p)[a].dpc == m.dpc;
        }
      }
    }
  }

  lemma DestroyProper(net: Net, s: nat, r: nat)
    requires Exists(net, RouteQ(s, r)) && Proper(net, None)
    ensures Proper(DestroyRoute(net, s, r), None)
  {
    hide ListsFit;
    var n := DestroyRoute(net, s, r);
    assert KeyedRoutes(n) by {
      assert Keyed(net.sps[s].routes);
    }
    forall p | Exists(n, p) ensures Fits(n, None, p, Get(n, p)) {
      DestroyFits(net, s, r, p);
    }
    AllFit(n, None);
  }

  lemma DestroyFits(net: Net, s: nat, r: nat, p: Place)
    requires Exists(net, RouteQ(s, r)) && Proper(net, None) && Exists(DestroyRoute(net, s, r), p)
    ensures Fits(DestroyRoute(net, s, r), None, p, Get(DestroyRoute(net, s, r), p))
  {
    var n := DestroyRoute(net, s, r);
    var was := if p.RouteQ? && p.sp == s && p.route >= r then RouteQ(s, p.route + 1) else p;
    assert Exists(net, was) && Get(n, p) == Get(net, was);
    assert Fits(net, None, was, Get(net, was));
    if !p.RouteQ? {
      forall m | m in Get(net, p) && m.user ensures !Barred(n, None, p, m.dpc) {
        assert !Barred(net, None, p, m.dpc);
        forall a | 0 <= a < |RoutesAt(n, p)| && RoutesAt(n, p)[a].dpc == m.dpc
          ensures !Bars(RoutesAt(n, p)[a], p)
        {
          var b := if net.links[p.link].sp == s && a >= r then a + 1 else a;
          assert RoutesAt(net, p)[b] == RoutesAt(n, p)[a];
        }
      }
    }
  }

  // ----- whole operations and runs

  lemma {:induction false} KeptIsClear(ms: seq<Msg>, dpc: nat)
    ensures NoneFor(Kept(ms, Some(dpc)), dpc)
  {
    KeptAreIn(ms, Some(dpc));
  }

  /** From a state that excepts the route: rerouting and setting T6 make it proper again. */
  lemma RerouteAndSet(net: Net, s: nat, r: nat, free: bool, t6: bool)
    requires Exists(net, RouteQ(s, r)) && Proper(net, Some((s, net.sps[s].routes[r].dpc)))
    requires free || net.sps[s].routes[r].state != TFP
    ensures var n := RerouteFrom(net, 0, s, r, free); Proper(SetT6(n, s, r, t6), None) && SameBars(net, n)
  {
    hide ListsFit, KeyedRoutes, RerouteFrom, SetT6, Get, Kept, NoneFor;
    var d := net.sps[s].routes[r].dpc;
    var n := RerouteFrom(net, 0, s, r, free);
    RerouteProper(net, Some((s, d)), 0, s, r, free);
    RoutesStay(net, n, s, r);
    forall p | Exists(n, p) && !p.RouteQ? && n.links[p.link].sp == s && Bars(n.sps[s].routes[r].(t6 := t6), p)
      ensures NoneFor(Get(n, p), d)
    {
      RerouteAt(net, 0, s, r, free, p);
      KeptIsClear(Get(net, p), d);
    }
    FinishReroute(n, s, r, t6);
  }

  lemma RoutesStay(a: Net, b: Net, s: nat, r: nat)
    requires SameBars(a, b) && Exists(a, RouteQ(s, r))
    ensures Exists(b, RouteQ(s, r)) && a.sps[s].routes[r].dpc == b.sps[s].routes[r].dpc
    ensures a.sps[s].routes[r].state == b.sps[s].routes[r].state
    ensures |a.links| == |b.links| && forall i :: 0 <= i < |a.links| ==> a.links[i].sp == b.links[i].sp
  {
    assert SameRoutes(a.sps[s].routes, b.sps[s].routes);
  }

  lemma AddSetRouteProper(net: Net, s: nat, pc: nat, state: RouteState, room: bool)
    requires Proper(net, None) && s < |net.sps|
    ensures Proper(AddSetRoute(net, s, pc, state, room), None)
  {
    hide ListsFit, KeyedRoutes, RerouteFrom, SetT6, Get, Drain, FindRoute, PutRoute, ShortCode;
    var dpc := ShortCode(pc);
    var routes := net.sps[s].routes;
    var r := FindRoute(routes, dpc);
    if r < |routes| || state != TFA {
      var route := if r < |routes| then routes[r].(state := state) else Route(dpc, state, false, []);
      var n := PutRoute(net, s, r, route);
      PutRouteIsThere(net, s, r, route);
      if state == TFR_NON_ACTIVE {
        PutRouteProper(net, s, r, route, None);
      } else {
        PutRouteProper(net, s, r, route, Some((s, dpc)));
        RerouteAndSet(n, s, r, state == TFP, state != TFP && room);
        if state == TFP {
          var n1 := SetT6(RerouteFrom(n, 0, s, r, true), s, r, false);
          DrainProper(n1, RouteQ(s, r));
        }
      }
    }
  }

  lemma PutRouteIsThere(net: Net, s: nat, r: nat, route: Route)
    requires s < |net.sps| && r <= |net.sps[s].routes|
    ensures var n := PutRoute(net, s, r, route);
      && Exists(n, RouteQ(s, r)) && n.sps[s].routes[r] == route && (Formed(net) ==> Formed(n))
  {
  }

  lemma T6Proper(net: Net, s: nat, r: nat)
    requires Proper(net, None) && Exists(net, RouteQ(s, r))
    ensures Proper(T6Expired(net, s, r), None)
  {
    hide ListsFit, KeyedRoutes, SetT6, Get, Drain, DestroyRoute;
    StopT6Proper(net, s, r);
    var n := SetT6(net, s, r, false);
    DrainProper(n, RouteQ(s, r));
    DrainKeepsShape(n, RouteQ(s, r));
    if net.sps[s].routes[r].state == TFA {
      DestroyProper(Drain(n, RouteQ(s, r)), s, r);
    }
  }

  lemma SetUpProper(net: Net, i: nat, up: bool)
    requires Proper(net, None) && i < |net.links|
    ensures Proper(SetUp(net, i, up), None)
  {
    hide KeyedRoutes, ListsFit;
    SetLinkProper(net, i, up);
  }

  lemma TrafficProper(net: Net, op: Op)
    requires Proper(net, None) && Enabled(net, op) && OfTraffic(op)
    ensures Proper(StepTraffic(net, op), None)
  {
    hide ListsFit, KeyedRoutes;
    hide Submit, SendManagement, MtpSend, Acknowledge, MtpReset, SetUp, AddSetRoute, T6Expired, DestroyRoute;
    match op
    case SubmitUser(m) => SubmitProper(net, m);
    case Manage(i, m) => ManageProper(net, i, m);
    case Send(i, fsn) => SendProper(net, i, fsn);
    case Ack(i, fsn) => AcknowledgeProper(net, None, TxBuf(i), fsn);
    case Reset(i) => ResetProper(net, i);
    case SetLink(i, up) => SetUpProper(net, i, up);
    case SetSp(s, up) => SetSpProper(net, s, up);
    case SetRoute(s, pc, state, room) => AddSetRouteProper(net, s, pc, state, room);
    case ExpireT6(s, r) => T6Proper(net, s, r);
    case Destroy(s, r) => DestroyProper(net, s, r);
  }

  lemma OfChangeoverProper(net: Net, op: Op)
    requires Proper(net, None) && Enabled(net, op) && !OfTraffic(op)
    ensures Proper(StepChangeover(net, op), None)
  {
    hide ListsFit, KeyedRoutes;
    hide PrepareChangeover, ChangeoverTo, TimedChangeover, T1Expired, T2Expired, T3Expired, T4Expired, T5Expired;
    hide AbandonChangeback, Changeback, CbdAnswered, EmergencyChangeover, StartChangeback, SetCbd, SetUp, SetChangeover, ShutDown;
    match op
    case Prepare(i) => PrepareProper(net, i);
    case PeerChangeover(i, fsn) => ChangeoverProper(net, i, fsn);
    case Timed(i) => TimedProper(net, i);
    case ExpireT1(i) => T1Proper(net, i);
    case ExpireT2(i) => T2Proper(net, i);
    case ExpireT3(i) => T3Proper(net, i);
    case ExpireT4(i, fate) => T4Proper(net, i, fate);
    case ExpireT5(i) => T5Proper(net, i);
    case Abandon(i) => AbandonProper(net, i);
    case ReturnTraffic(i) => ChangebackProper(net, i);
    case CbdAnswer(i) => CbdAnsweredProper(net, i);
    case Emergency(i) => EmergencyProper(net, i);
    case LinkTested(i, room) =>
      SetUpProper(net, i, true);
      StartChangebackProper(SetUp(net, i, true), i, room);
    case ForgetCbd(i) => SetCbdProper(net, None, i, false, net.links[i].t4);
    case MarkCompleted(i) => SetChangeoverProper(net, None, i, CHANGEOVER_COMPLETED);
    case Shut(i, inhibited) => ShutDownProper(net, i, inhibited);
  }

  lemma StepProper(net: Net, op: Op)
    requires Proper(net, None)
    ensures Proper(Step(net, op), None)
  {
    hide ListsFit, KeyedRoutes, StepTraffic, StepChangeover, Enabled;
    if Enabled(net, op) {
      if OfTraffic(op) {
        TrafficProper(net, op);
      } else {
        OfChangeoverProper(net, op);
      }
    }
  }

  lemma EmptyIsProper(net: Net)
    requires Empty(net)
    ensures Proper(net, None)
  {
    assert KeyedRoutes(net);
    forall p | Exists(net, p) ensures Fits(net, None, p, Get(net, p)) {
      assert Get(net, p) == [];
    }
  }

  lemma {:induction false} RunsAreProper(net: Net, ops: seq<Op>)
    requires Empty(net)
    ensures Proper(Run(net, ops), None)
    decreases |ops|
  {
    hide ListsFit, KeyedRoutes, Empty, Step;
    if ops == [] {
      EmptyIsProper(net);
    } else {
      EmptyIsFormed(net);
      RunsAreProper(net, ops[..|ops|-1]);
      StepProper(Run(net, ops[..|ops|-1]), ops[|ops|-1]);
    }
  }

  lemma EmptyIsFormed(net: Net)
    requires Empty(net)
    ensures Formed(net)
  {
  }

  // ----- what the invariant means

  /** Over every run: the stored size of a user message is its MTP2 length, plus the CRC while it
      is in a list of MTP2 or taken over from one. */
  lemma CrcIsCountedOnce(net: Net, ops: seq<Op>, p: Place, m: Msg)
    requires Empty(net) && Exists(Run(net, ops), p) && m in Get(Run(net, ops), p) && m.user
    ensures m.size == m.len + if p.TxQ? || p.TxBuf? || p.CoTxQ? || p.CoTxBuf? then 2 else 0
  {
    hide Run;
    RunsAreProper(net, ops);
    assert Fits(Run(net, ops), None, p, Get(Run(net, ops), p));
  }

  /** Over every run: while a route is prohibited, no list of a link to its signalling point holds
      a user message for its destination. */
  lemma ProhibitedRouteHasNoTraffic(net: Net, ops: seq<Op>, s: nat, r: nat, p: Place, m: Msg)
    requires Empty(net)
    requires var n := Run(net, ops);
      && Exists(n, RouteQ(s, r)) && n.sps[s].routes[r].state == TFP
      && Exists(n, p) && !p.RouteQ? && n.links[p.link].sp == s
      && m.user && m in Get(n, p)
    ensures m.dpc != Run(net, ops).sps[s].routes[r].dpc
  {
    hide Run;
    var n := Run(net, ops);
    RunsAreProper(net, ops);
    assert Fits(n, None, p, Get(n, p));
    assert !Barred(n, None, p, m.dpc);
    assert RoutesAt(n, p)[r] == n.sps[s].routes[r];
  }

  /** Over every run: while T6 of a route runs, no such message is queued or buffered for a link. */
  lemma HeldRouteHasNoTraffic(net: Net, ops: seq<Op>, s: nat, r: nat, p: Place, m: Msg)
    requires Empty(net)
    requires var n := Run(net, ops);
      && Exists(n, RouteQ(s, r)) && n.sps[s].routes[r].t6
      && Exists(n, p) && Recallable(p) && n.links[p.link].sp == s
      && m.user && m in Get(n, p)
    ensures m.dpc != Run(net, ops).sps[s].routes[r].dpc
  {
    hide Run;
    var n := Run(net, ops);
    RunsAreProper(net, ops);
    assert Fits(n, None, p, Get(n, p));
    assert !Barred(n, None, p, m.dpc);
    assert RoutesAt(n, p)[r] == n.sps[s].routes[r];
  }

  /** The route queues of signalling point s and the lists of the links to it. */
  predicate BelongsTo(net: Net, p: Place, s: nat)
    requires Exists(net, p)
  {
    if p.RouteQ? then p.sp == s else net.links[p.link].sp == s
  }

  lemma HeldGoesToQueue(net: Net, s: nat, r: nat, m: Msg)
    requires Proper(net, None) && Exists(net, RouteQ(s, r)) && net.sps[s].routes[r].t6
    requires m.dpc == net.sps[s].routes[r].dpc && RlToLink(net, m).Some?
    ensures var p := RlToLink(net, m).value; p == RouteQ(s, r) || !BelongsTo(net, p, s)
  {
    hide ListsFit, RlToLink;
    var p := RlToLink(net, m).value;
    assert Keyed(net.sps[s].routes);
    var j :| 0 <= j < |net.links| && LinkAvailable(net, j, m.dpc) == Some(p);
    assert net.links[j].sp == s ==> FindRoute(net.sps[s].routes, m.dpc) == r;
  }

  /** Over every run: while T6 of a route runs, a new message for its destination joins the end of
      the route's queue and no other list, or leaves every list of that signalling point alone. */
  lemma NewTrafficIsHeld(net: Net, ops: seq<Op>, s: nat, r: nat, m: Msg)
    requires Empty(net) && m.user && m.size == m.len
    requires var n := Run(net, ops);
      Exists(n, RouteQ(s, r)) && n.sps[s].routes[r].t6 && m.dpc == n.sps[s].routes[r].dpc
    ensures var n := Run(net, ops); var n' := Run(net, ops + [SubmitUser(m)]); var q := RouteQ(s, r);
      && Exists(n', q)
      && Get(n', q) == Get(n, q) + (if RlToLink(n, m) == Some(q) then [m] else [])
      && forall p :: Exists(n, p) && p != q && (BelongsTo(n, p, s) || RlToLink(n, m) == Some(q)) ==>
           Exists(n', p) && Get(n', p) == Get(n, p)
  {
    hide Run, ListsFit, KeyedRoutes, RlToLink, Get, Submit, BelongsTo, Stored;
    var n := Run(net, ops);
    RunAppends(net, ops, SubmitUser(m));
    RunsAreProper(net, ops);
    if RlToLink(n, m).Some? {
      HeldGoesToQueue(n, s, r, m);
    }
    forall p | Exists(n, p)
      ensures Exists(Submit(n, m), p)
      ensures Get(Submit(n, m), p) == Get(n, p) + (if RlToLink(n, m) == Some(p) then [Stored(p, m)] else [])
    {
      SubmitArrives(n, m, p);
    }
    StoredInRoute(s, r, m);
  }

  lemma StoredInRoute(s: nat, r: nat, m: Msg)
    ensures Stored(RouteQ(s, r), m) == m
  {
  }

  lemma SubmitArrives(net: Net, m: Msg, p: Place)
    requires Formed(net) && Exists(net, p)
    ensures var n := Submit(net, m);
      && Exists(n, p)
      && Get(n, p) == Get(net, p) + (if RlToLink(net, m) == Some(p) then [Stored(p, m)] else [])
  {
    hide RlToLink, Transmit;
    HistoryIsApart(net, net.submitted + [m], m);
    Mtp3Changeover.TransmitArrives(net.(submitted := net.submitted + [m]), m, p);
  }

  lemma HistoryIsApart(net: Net, submitted: seq<Msg>, m: Msg)
    requires Formed(net)
    ensures var n := net.(submitted := submitted);
      && Formed(n) && RlToLink(n, m) == RlToLink(net, m)
      && forall p :: Exists(net, p) ==> Exists(n, p) && Get(n, p) == Get(net, p)
  {
    Mtp3Changeover.ShapeDecidesLink(net, net.(submitted := submitted), m);
  }

  // ----- point codes of more than sixteen bits

  /** Over every run: a route set for point code pc is found again for messages to pc exactly when
      pc has sixteen bits. */
  lemma RouteIsForShortCodes(net: Net, ops: seq<Op>, s: nat, pc: nat, state: RouteState, room: bool)
    requires Empty(net) && state != TFA && s < |Run(net, ops).sps|
    ensures var n := Run(net, ops + [SetRoute(s, pc, state, room)]);
      s < |n.sps| && (FindRoute(n.sps[s].routes, pc) < |n.sps[s].routes| <==> pc < 0x1_0000)
  {
    hide Run, ListsFit, FindRoute, AddSetRoute;
    var n := Run(net, ops);
    RunAppends(net, ops, SetRoute(s, pc, state, room));
    RunsAreProper(net, ops + [SetRoute(s, pc, state, room)]);
    var n' := AddSetRoute(n, s, pc, state, room);
    RouteIsThere(n, s, pc, state, room);
    assert Keyed(n'.sps[s].routes);
  }

  lemma {:induction false} RerouteKeepsBars(net: Net, i: nat, s: nat, r: nat, free: bool)
    requires i <= |net.links| && Exists(net, RouteQ(s, r))
    ensures SameBars(net, RerouteFrom(net, i, s, r, free))
    decreases |net.links| - i
  {
    hide RerouteLink;
    if i < |net.links| {
      hide SameBars;
      var n := if net.links[i].sp == s then RerouteLink(net, i, s, r, free) else net;
      LinksStay(net, n);
      RerouteLinkKeepsBars(net, i, s, r, free);
      BarsAreReflexive(net);
      RerouteKeepsBars(n, i + 1, s, r, free);
      BarsAreTransitive(net, n, RerouteFrom(n, i + 1, s, r, free));
    }
  }

  lemma BarsAreReflexive(net: Net)
    ensures SameBars(net, net)
  {
  }

  lemma RouteIsThere(net: Net, s: nat, pc: nat, state: RouteState, room: bool)
    requires Formed(net) && s < |net.sps| && state != TFA
    ensures var n := AddSetRoute(net, s, pc, state, room);
      s < |n.sps| && exists r :: 0 <= r < |n.sps[s].routes| && n.sps[s].routes[r].dpc == ShortCode(pc)
  {
    hide FindRoute, RerouteFrom, SetT6, Drain, PutRoute, ShortCode;
    var dpc := ShortCode(pc);
    var routes := net.sps[s].routes;
    var r := FindRoute(routes, dpc);
    var route := if r < |routes| then routes[r].(state := state) else Route(dpc, state, false, []);
    var n := PutRoute(net, s, r, route);
    PutRouteIsThere(net, s, r, route);
    if state == TFP || state == TFR_ACTIVE {
      RerouteKeepsBars(n, 0, s, r, state == TFP);
      var n1 := RerouteFrom(n, 0, s, r, state == TFP);
      RoutesStay(n, n1, s, r);
      CodesStay(n1, s, r, state != TFP && room);
      if state == TFP {
        DrainKeepsCode(SetT6(n1, s, r, false), s, r);
      }
    }
  }

  lemma CodesStay(net: Net, s: nat, r: nat, t6: bool)
    requires Exists(net, RouteQ(s, r))
    ensures Exists(SetT6(net, s, r, t6), RouteQ(s, r)) && SetT6(net, s, r, t6).sps[s].routes[r].dpc == net.sps[s].routes[r].dpc
  {
  }

  lemma DrainKeepsCode(net: Net, s: nat, r: nat)
    requires Formed(net) && Exists(net, RouteQ(s, r))
    ensures var n := Drain(net, RouteQ(s, r)); Exists(n, RouteQ(s, r)) && n.sps[s].routes[r].dpc == net.sps[s].routes[r].dpc
  {
    hide TransmitAll;
    TransmitKeepsShape(net, Get(net, RouteQ(s, r)));
  }
}
