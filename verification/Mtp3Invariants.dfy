/** What every list of every link holds: sizes count the CRC once, and no list holds traffic for
    a destination its signalling point has barred. */
module Mtp3Invariants {
  import opened Mtp3Spec
  import opened Mtp3Conservation
  import opened Options

  // ----- the invariant

  /** Lists that an outgoing user message can still be called back from. */
  predicate Recallable(p: Place) { p.TxQ? || p.CoTxQ? || p.CoBuf? || p.CbBuf? }

  /** A prohibited route keeps its messages out of every list of the links. A restricted one, and
      one whose T6 is running, keeps them out of the lists not yet given to MTP2. */
  predicate Bars(route: Route, p: Place) {
    if Recallable(p) then route.t6 || route.state == TFP || route.state == TFR_ACTIVE
    else !p.RouteQ? && route.state == TFP
  }

  function RoutesAt(net: Net, p: Place): seq<Route>
    requires Formed(net) && Exists(net, p) && !p.RouteQ?
  {
    net.sps[net.links[p.link].sp].routes
  }

  /** x is a signalling point and destination excepted for the moment. */
  ghost predicate Barred(net: Net, x: Option<(nat, nat)>, p: Place, dpc: nat)
    requires Formed(net) && Exists(net, p)
  {
    && !p.RouteQ?
    && x != Some((net.links[p.link].sp, dpc))
    && exists r :: 0 <= r < |RoutesAt(net, p)| && RoutesAt(net, p)[r].dpc == dpc && Bars(RoutesAt(net, p)[r], p)
  }

  predicate Sized(p: Place, m: Msg) { m.size == m.len + if Counted(p) then 2 else 0 }

  ghost predicate Fits(net: Net, x: Option<(nat, nat)>, p: Place, ms: seq<Msg>)
    requires Formed(net) && Exists(net, p)
  {
    forall m :: m in ms && m.user ==> Sized(p, m) && !Barred(net, x, p, m.dpc)
  }

  /** The user messages have their MTP2 length. */
  ghost predicate Loose(ms: seq<Msg>) { forall m :: m in ms && m.user ==> m.size == m.len }

  /** At most one route for a point code, and only for codes of sixteen bits. */
  predicate Keyed(routes: seq<Route>) {
    && (forall a, b :: 0 <= a < b < |routes| ==> routes[a].dpc != routes[b].dpc)
    && (forall a :: 0 <= a < |routes| ==> routes[a].dpc < 0x1_0000)
  }

  ghost predicate KeyedRoutes(net: Net) { forall s :: 0 <= s < |net.sps| ==> Keyed(net.sps[s].routes) }

  ghost predicate ListsFit(net: Net, x: Option<(nat, nat)>)
    requires Formed(net)
  {
    forall p :: Exists(net, p) ==> Fits(net, x, p, Get(net, p))
  }

  ghost predicate Proper(net: Net, x: Option<(nat, nat)>) {
    Formed(net) && KeyedRoutes(net) && ListsFit(net, x)
  }

  /** The parts the invariant looks at, besides the lists. */
  ghost predicate SameBars(a: Net, b: Net) {
    && |a.links| == |b.links| && |a.sps| == |b.sps| && a.divisor == b.divisor
    && (forall i :: 0 <= i < |a.links| ==> a.links[i].sp == b.links[i].sp)
    && (forall s :: 0 <= s < |a.sps| ==> SameRoutes(a.sps[s].routes, b.sps[s].routes))
  }

  ghost predicate SameRoutes(a: seq<Route>, b: seq<Route>) {
    |a| == |b| && forall r :: 0 <= r < |a| ==> a[r].dpc == b[r].dpc && a[r].state == b[r].state && a[r].t6 == b[r].t6
  }

  // ----- what does not change the bars

  lemma BarsKeepExistence(a: Net, b: Net)
    requires SameBars(a, b)
    ensures forall p :: Exists(a, p) <==> Exists(b, p)
    ensures Formed(a) ==> Formed(b)
    ensures KeyedRoutes(a) ==> KeyedRoutes(b)
  {
  }

  lemma BarsKeepFit(a: Net, b: Net, x: Option<(nat, nat)>, p: Place, ms: seq<Msg>)
    requires SameBars(a, b) && Formed(a) && Formed(b) && Exists(a, p) && Exists(b, p)
    requires Fits(a, x, p, ms)
    ensures Fits(b, x, p, ms)
  {
    if !p.RouteQ? {
      var s := a.links[p.link].sp;
      assert SameRoutes(a.sps[s].routes, b.sps[s].routes);
      forall m | m in ms && m.user ensures !Barred(b, x, p, m.dpc) {
        assert !Barred(a, x, p, m.dpc);
        forall r | 0 <= r < |RoutesAt(b, p)| && RoutesAt(b, p)[r].dpc == m.dpc && Bars(RoutesAt(b, p)[r], p)
          ensures x == Some((s, m.dpc))
        {
          assert RoutesAt(a, p)[r].dpc == m.dpc && Bars(RoutesAt(a, p)[r], p);
        }
      }
    }
  }

  /** Lists may change to others that fit. */
  lemma KeepProper(a: Net, b: Net, x: Option<(nat, nat)>)
    requires Proper(a, x) && SameBars(a, b) && Formed(b)
    requires forall p :: Exists(a, p) && Exists(b, p) ==> Get(b, p) == Get(a, p) || Fits(a, x, p, Get(b, p))
    ensures Proper(b, x)
  {
    hide Get, Fits, Formed, KeyedRoutes, SameBars;
    BarsKeepExistence(a, b);
    forall p | Exists(b, p) ensures Fits(b, x, p, Get(b, p)) {
      assert Exists(a, p);
      assert Fits(a, x, p, Get(a, p));
      BarsKeepFit(a, b, x, p, Get(b, p));
    }
  }

  lemma PutKeepsBars(net: Net, p: Place, ms: seq<Msg>)
    requires Exists(net, p)
    ensures SameBars(net, Put(net, p, ms))
  {
  }

  lemma PutProper(net: Net, x: Option<(nat, nat)>, p: Place, ms: seq<Msg>)
    requires Proper(net, x) && Exists(net, p) && Fits(net, x, p, ms)
    ensures Proper(Put(net, p, ms), x)
  {
    hide Get, Fits, Formed, KeyedRoutes, SameBars, ListsFit;
    PutKeepsBars(net, p, ms);
    KeepProper(net, Put(net, p, ms), x);
  }

  lemma SetChangeoverProper(net: Net, x: Option<(nat, nat)>, i: nat, c: Changeover)
    requires Proper(net, x) && i < |net.links|
    ensures Proper(SetChangeover(net, i, c), x)
  {
    hide Get, Fits, Formed, KeyedRoutes, ListsFit;
    KeepProper(net, SetChangeover(net, i, c), x);
  }

  lemma SetCbdProper(net: Net, x: Option<(nat, nat)>, i: nat, sentCbd: bool, t4: bool)
    requires Proper(net, x) && i < |net.links|
    ensures Proper(SetCbd(net, i, sentCbd, t4), x) && |SetCbd(net, i, sentCbd, t4).links| == |net.links|
  {
    hide Get, Fits, Formed, KeyedRoutes, ListsFit;
    KeepProper(net, SetCbd(net, i, sentCbd, t4), x);
  }

  lemma HistoryProper(net: Net, x: Option<(nat, nat)>, submitted: seq<Msg>, gone: seq<Msg>, refused: seq<Msg>)
    requires Proper(net, x)
    ensures Proper(net.(submitted := submitted, gone := gone, refused := refused), x)
  {
    hide Fits, KeyedRoutes, ListsFit;
    KeepProper(net, net.(submitted := submitted, gone := gone, refused := refused), x);
  }

  // ----- taking out and putting in

  lemma {:induction false} KeptAreIn(ms: seq<Msg>, dpc: Option<nat>)
    ensures forall m :: m in Kept(ms, dpc) ==> m in ms && !Selected(m, dpc)
  {
    if ms != [] {
      KeptAreIn(ms[1..], dpc);
    }
  }

  lemma {:induction false} TakenFit(net: Net, x: Option<(nat, nat)>, p: Place, ms: seq<Msg>, dpc: Option<nat>)
    requires Formed(net) && Exists(net, p) && Fits(net, x, p, ms)
    ensures forall m :: m in Taken(ms, dpc, Counted(p)) ==>
      m.user && m.size == m.len && !Barred(net, x, p, m.dpc) && (dpc.Some? ==> m.dpc == dpc.value)
  {
    hide Barred, Formed, Exists;
    if ms != [] {
      assert Fits(net, x, p, ms[1..]);
      TakenFit(net, x, p, ms[1..], dpc);
      assert ms[0] in ms;
    }
  }

  lemma ExtractProper(net: Net, x: Option<(nat, nat)>, p: Place, dpc: Option<nat>)
    requires Proper(net, x) && Exists(net, p)
    ensures var (n, ms) := Extract(net, p, dpc);
      && Proper(n, x) && Loose(ms) && SameBars(net, n)
      && forall m :: m in ms ==> m.user && m.size == m.len && !Barred(net, x, p, m.dpc)
  {
    hide Barred, Get, Put, Kept, Taken, SameBars;
    var ms := Get(net, p);
    KeptAreIn(ms, dpc);
    TakenFit(net, x, p, ms, dpc);
    PutProper(net, x, p, Kept(ms, dpc));
    PutKeepsBars(net, p, Kept(ms, dpc));
  }

  /** What one list may hold, another may that is barred no more. */
  lemma BarredLess(net: Net, x: Option<(nat, nat)>, p: Place, q: Place, dpc: nat)
    requires Formed(net) && Exists(net, p) && Exists(net, q) && !Barred(net, x, p, dpc)
    requires q.RouteQ? || (!p.RouteQ? && p.link == q.link && (Recallable(p) || !Recallable(q)))
    ensures !Barred(net, x, q, dpc)
  {
    if !q.RouteQ? {
      forall r | 0 <= r < |RoutesAt(net, q)| && RoutesAt(net, q)[r].dpc == dpc && x != Some((net.links[q.link].sp, dpc))
        ensures !Bars(RoutesAt(net, q)[r], q)
      {
        assert !Bars(RoutesAt(net, p)[r], p);
      }
    }
  }

  lemma BarredBy(a: Net, b: Net, x: Option<(nat, nat)>, p: Place, dpc: nat)
    requires SameBars(a, b) && Formed(a) && Formed(b) && Exists(a, p) && Exists(b, p)
    ensures Barred(a, x, p, dpc) == Barred(b, x, p, dpc)
  {
    if !p.RouteQ? {
      var s := a.links[p.link].sp;
      assert SameRoutes(a.sps[s].routes, b.sps[s].routes);
      assert forall r :: 0 <= r < |RoutesAt(a, p)| ==>
        Bars(RoutesAt(a, p)[r], p) == Bars(RoutesAt(b, p)[r], p) && RoutesAt(a, p)[r].dpc == RoutesAt(b, p)[r].dpc;
    }
  }

  lemma MoveProper(net: Net, x: Option<(nat, nat)>, p: Place, q: Place, dpc: Option<nat>)
    requires Proper(net, x) && Exists(net, p) && Exists(net, q) && !Counted(q)
    requires q.RouteQ? || (Recallable(p) && p.link == q.link)
    ensures Proper(Move(net, p, q, dpc), x) && SameBars(net, Move(net, p, q, dpc))
  {
    hide Barred, Get, Put, Extract, SameBars, KeyedRoutes, Loose;
    ExtractProper(net, x, p, dpc);
    var (n, ms) := Extract(net, p, dpc);
    BarsKeepExistence(net, n);
    forall m | m in ms ensures !Barred(n, x, q, m.dpc) {
      BarredLess(net, x, p, q, m.dpc);
      BarredBy(net, n, x, q, m.dpc);
    }
    PutProper(n, x, q, Get(n, q) + ms);
    PutKeepsBars(n, q, Get(n, q) + ms);
    BarsAreTransitive(net, n, Put(n, q, Get(n, q) + ms));
  }

  lemma BarsAreTransitive(a: Net, b: Net, c: Net)
    requires SameBars(a, b) && SameBars(b, c)
    ensures SameBars(a, c)
  {
  }

  lemma PurgeProper(net: Net, x: Option<(nat, nat)>, p: Place, dpc: Option<nat>)
    requires Proper(net, x) && Exists(net, p)
    ensures Proper(Purge(net, p, dpc), x) && SameBars(net, Purge(net, p, dpc))
  {
    hide Barred, Get, Put, Extract, Proper, Exists, Fits, Loose;
    ExtractProper(net, x, p, dpc);
    var (n, ms) := Extract(net, p, dpc);
    HistoryProper(n, x, n.submitted, n.gone + ms, n.refused);
  }

  lemma FreeProper(net: Net, x: Option<(nat, nat)>, p: Place)
    requires Proper(net, x) && Exists(net, p)
    ensures Proper(Free(net, p), x)
  {
    hide Barred, Get, Put, KeyedRoutes, ListsFit, SameBars;
    var n := Put(net, p, []);
    PutProper(net, x, p, []);
    HistoryProper(n, x, n.submitted, net.gone + Users(Get(net, p)), n.refused);
  }

  lemma AcknowledgeProper(net: Net, x: Option<(nat, nat)>, p: Place, fsn: nat)
    requires Proper(net, x) && Exists(net, p)
    ensures Proper(Acknowledge(net, p, fsn), x)
  {
    hide Barred, Get, Put, KeyedRoutes, SameBars, Unacked;
    var ms := Get(net, p);
    var kept := Unacked(ms, fsn);
    assert kept == ms[..|kept|];
    assert Fits(net, x, p, ms);
    PutProper(net, x, p, kept);
    var n := Put(net, p, kept);
    HistoryProper(n, x, n.submitted, net.gone + Users(ms[|kept|..]), n.refused);
  }

  lemma HandProper(net: Net, x: Option<(nat, nat)>, p: Place, q: Place)
    requires Proper(net, x) && Exists(net, p) && Exists(net, q) && p != q && Counted(p) && Counted(q)
    requires p.link == q.link && Recallable(p) == Recallable(q)
    ensures Proper(Hand(net, p, q), x)
  {
    hide Barred, Get, Put, KeyedRoutes, SameBars, Free;
    FreeProper(net, x, q);
    var n := Free(net, q);
    assert Fits(n, x, p, Get(n, p));
    forall m | m in Get(n, p) && m.user ensures !Barred(n, x, q, m.dpc) {
      BarredLess(n, x, p, q, m.dpc);
    }
    PutProper(n, x, q, Get(n, p));
    PutProper(Put(n, q, Get(n, p)), x, p, []);
  }

  // ----- transmitting

  /** mtp3_transmit never chooses a list that is barred. */
  lemma OfferedIsFree(net: Net, i: nat, dpc: nat)
    requires Formed(net) && KeyedRoutes(net) && i < |net.links| && LinkAvailable(net, i, dpc).Some?
    ensures !Barred(net, None, LinkAvailable(net, i, dpc).value, dpc)
    ensures var p := LinkAvailable(net, i, dpc).value; p.RouteQ? || p == TxQ(i) || !Counted(p)
  {
    var p := LinkAvailable(net, i, dpc).value;
    var routes := net.sps[net.links[i].sp].routes;
    if !p.RouteQ? {
      var first := FindRoute(routes, dpc);
      assert Keyed(routes);
      forall r | 0 <= r < |routes| && routes[r].dpc == dpc ensures !Bars(routes[r], p) {
        assert r == first;
      }
    }
  }

  lemma TransmitProper(net: Net, m: Msg)
    requires Proper(net, None) && (m.user ==> m.size == m.len)
    ensures Proper(Transmit(net, m), None)
  {
    hide Barred, Get, Put, LinkAvailable, RlToLink, Formed, Exists, SameBars;
    match RlToLink(net, m)
    case None => HistoryProper(net, None, net.submitted, net.gone, net.refused + [m]);
    case Some(p) =>
      var j :| 0 <= j < |net.links| && LinkAvailable(net, j, m.dpc) == Some(p);
      OfferedIsFree(net, j, m.dpc);
      PutProper(net, None, p, Get(net, p) + [Stored(p, m)]);
  }

  lemma {:induction false} TransmitAllProper(net: Net, ms: seq<Msg>)
    requires Proper(net, None) && Loose(ms)
    ensures Proper(TransmitAll(net, ms), None)
    decreases |ms|
  {
    hide Transmit, KeyedRoutes, ListsFit;
    if ms != [] {
      assert ms[0] in ms;
      TransmitProper(net, ms[0]);
      assert Loose(ms[1..]);
      TransmitAllProper(Transmit(net, ms[0]), ms[1..]);
    }
  }

  lemma DrainProper(net: Net, p: Place)
    requires Proper(net, None) && Exists(net, p) && !Counted(p)
    ensures Proper(Drain(net, p), None)
  {
    hide Barred, Get, Put, Transmit, SameBars;
    assert Fits(net, None, p, Get(net, p));
    TransmitKeepsShape(net, Get(net, p));
    TransmitAllProper(net, Get(net, p));
    PutProper(TransmitAll(net, Get(net, p)), None, p, []);
  }

  // ----- changeover and changeback

  lemma FreeCoProper(net: Net, x: Option<(nat, nat)>, i: nat)
    requires Proper(net, x) && i < |net.links|
    ensures Proper(FreeCo(net, i), x)
  {
    hide Proper, Free;
    FreeProper(net, x, CoTxBuf(i));
    FreeProper(Free(net, CoTxBuf(i)), x, CoTxQ(i));
  }

  lemma CancelChangeoverProper(net: Net, i: nat)
    requires Proper(net, None) && i < |net.links|
    ensures Proper(CancelChangeover(net, i), None)
  {
    hide Proper, Move, SetChangeover, FreeCo, SameBars;
    var n1 := Move(net, CoTxQ(i), CbBuf(i), None);
    var n2 := Move(n1, CoBuf(i), CbBuf(i), None);
    MoveProper(net, None, CoTxQ(i), CbBuf(i), None);
    MoveProper(n1, None, CoBuf(i), CbBuf(i), None);
    LinksStay(net, n2);
    SetChangeoverProper(n2, None, i, NO_CHANGEOVER);
    LinksStay(n2, SetChangeover(n2, i, NO_CHANGEOVER));
    FreeCoProper(SetChangeover(n2, i, NO_CHANGEOVER), None, i);
  }

  lemma CancelChangebackProper(net: Net, i: nat)
    requires Proper(net, None) && i < |net.links|
    ensures Proper(CancelChangeback(net, i), None)
  {
    hide Proper, Move, SetChangeover, SetCbd, SameBars;
    MoveProper(net, None, CbBuf(i), CoBuf(i), None);
    var n := Move(net, CbBuf(i), CoBuf(i), None);
    LinksStay(net, n);
    SetChangeoverProper(n, None, i, NO_CHANGEOVER);
    var n1 := SetChangeover(n, i, NO_CHANGEOVER);
    LinksStay(n, n1);
    SetCbdProper(n1, None, i, n1.links[i].sentCbd, false);
  }

  lemma LeaveProper(net: Net, i: nat)
    requires Proper(net, None) && i < |net.links|
    ensures Proper(LeaveChangeback(net, i), None) && |LeaveChangeback(net, i).links| == |net.links|
  {
    hide Proper, CancelChangeback;
    CancelChangebackProper(net, i);
    LinksStay(net, LeaveChangeback(net, i));
  }

  lemma PrepareProper(net: Net, i: nat)
    requires Proper(net, None) && i < |net.links|
    ensures Proper(PrepareChangeover(net, i), None)
  {
    hide Proper, LeaveChangeback, SetChangeover, Hand;
    LeaveProper(net, i);
    var n := LeaveChangeback(net, i);
    if n.links[i].changeover != CHANGEOVER_INITIATED {
      SetChangeoverProper(n, None, i, CHANGEOVER_INITIATED);
      var n1 := SetChangeover(n, i, CHANGEOVER_INITIATED);
      LinksStay(n, n1);
      HandProper(n1, None, TxBuf(i), CoTxBuf(i));
      var n2 := Hand(n1, TxBuf(i), CoTxBuf(i));
      LinksStay(n1, n2);
      HandProper(n2, None, TxQ(i), CoTxQ(i));
    }
  }

  lemma GatherQueuedProper(net: Net, i: nat)
    requires Proper(net, None) && i < |net.links|
    ensures var (n, ms) := GatherQueued(net, i); Proper(n, None) && Loose(ms) && |n.links| == |net.links|
  {
    hide Proper, Extract, Barred, SameBars;
    var (n1, ms1) := Extract(net, CoTxQ(i), None);
    ExtractProper(net, None, CoTxQ(i), None);
    assert |n1.links| == |net.links| by { BarsKeepLinks(net, n1); }
    var (n2, ms2) := Extract(n1, CoBuf(i), None);
    ExtractProper(n1, None, CoBuf(i), None);
    BarsKeepLinks(n1, n2);
  }

  lemma BarsKeepLinks(a: Net, b: Net)
    requires SameBars(a, b)
    ensures |a.links| == |b.links|
  {
  }

  lemma GatherProper(net: Net, i: nat)
    requires Proper(net, None) && i < |net.links|
    ensures var (n, ms) := Gather(net, i); Proper(n, None) && Loose(ms) && |n.links| == |net.links|
  {
    hide Proper, Extract, GatherQueued, Barred, SameBars;
    var (n1, ms1) := Extract(net, CoTxBuf(i), None);
    ExtractProper(net, None, CoTxBuf(i), None);
    BarsKeepLinks(net, n1);
    GatherQueuedProper(n1, i);
  }

  lemma CompleteProper(net: Net, i: nat, ms: seq<Msg>)
    requires Proper(net, None) && Loose(ms) && i < |net.links|
    ensures Proper(Complete(net, i, ms), None)
  {
    hide KeyedRoutes, ListsFit, TransmitAll, SetChangeover, FreeCo, Loose;
    TransmitAllProper(net, ms);
    TransmitKeepsShape(net, ms);
    var n := TransmitAll(net, ms);
    SetChangeoverProper(n, None, i, CHANGEOVER_COMPLETED);
    LinksStay(n, SetChangeover(n, i, CHANGEOVER_COMPLETED));
    FreeCoProper(SetChangeover(n, i, CHANGEOVER_COMPLETED), None, i);
  }

  lemma ChangeoverProper(net: Net, i: nat, fsn: nat)
    requires Proper(net, None) && i < |net.links|
    ensures Proper(ChangeoverTo(net, i, fsn), None)
  {
    hide KeyedRoutes, ListsFit, LeaveChangeback, Gather, Complete, Acknowledge, Loose;
    LeaveProper(net, i);
    var n := LeaveChangeback(net, i);
    AcknowledgeProper(n, None, CoTxBuf(i), fsn);
    LinksStay(n, Acknowledge(n, CoTxBuf(i), fsn));
    GatherProper(Acknowledge(n, CoTxBuf(i), fsn), i);
    var (n1, ms) := Gather(Acknowledge(n, CoTxBuf(i), fsn), i);
    CompleteProper(n1, i, ms);
  }

  lemma TimedProper(net: Net, i: nat)
    requires Proper(net, None) && i < |net.links|
    ensures Proper(TimedChangeover(net, i), None)
  {
    hide KeyedRoutes, ListsFit, LeaveChangeback, SetChangeover, Move, FreeCo, SameBars;
    LeaveProper(net, i);
    var n := LeaveChangeback(net, i);
    var n1 := SetChangeover(n, i, CHANGEOVER_IN_PROGRESS);
    SetChangeoverProper(n, None, i, CHANGEOVER_IN_PROGRESS);
    LinksStay(n, n1);
    MoveProper(n1, None, TxQ(i), CoBuf(i), None);
    LinksStay(n1, Move(n1, TxQ(i), CoBuf(i), None));
    FreeCoProper(Move(n1, TxQ(i), CoBuf(i), None), None, i);
  }

  lemma T1Proper(net: Net, i: nat)
    requires Proper(net, None) && i < |net.links|
    ensures Proper(T1Expired(net, i), None)
  {
    hide KeyedRoutes, ListsFit, SetChangeover, Drain, FreeCo;
    var n := SetChangeover(net, i, CHANGEOVER_COMPLETED);
    SetChangeoverProper(net, None, i, CHANGEOVER_COMPLETED);
    LinksStay(net, n);
    DrainProper(n, CoBuf(i));
    DrainKeepsShape(n, CoBuf(i));
    FreeCoProper(Drain(n, CoBuf(i)), None, i);
  }

  lemma T2Proper(net: Net, i: nat)
    requires Proper(net, None) && i < |net.links|
    ensures Proper(T2Expired(net, i), None)
  {
    hide KeyedRoutes, ListsFit, GatherQueued, Complete, Loose;
    GatherQueuedProper(net, i);
    var (n, ms) := GatherQueued(net, i);
    CompleteProper(n, i, ms);
  }

  lemma T3Proper(net: Net, i: nat)
    requires Proper(net, None) && i < |net.links|
    ensures Proper(T3Expired(net, i), None)
  {
    hide KeyedRoutes, ListsFit, SetChangeover, Drain, FreeCo;
    var n := SetChangeover(net, i, NO_CHANGEOVER);
    SetChangeoverProper(net, None, i, NO_CHANGEOVER);
    LinksStay(net, n);
    DrainProper(n, CbBuf(i));
    DrainKeepsShape(n, CbBuf(i));
    FreeCoProper(Drain(n, CbBuf(i)), None, i);
  }

  lemma DrainKeepsShape(net: Net, p: Place)
    requires Formed(net) && Exists(net, p)
    ensures SameShape(net, Drain(net, p)) && |Drain(net, p).links| == |net.links|
    ensures forall q :: Exists(Drain(net, p), q) <==> Exists(net, q)
  {
    hide Put, TransmitAll, Get, Exists;
    TransmitKeepsShape(net, Get(net, p));
    var n := TransmitAll(net, Get(net, p));
    PutKeepsShape(n, p, []);
    ShapeIsTransitive(net, n, Put(n, p, []));
  }

  lemma ChangebackProper(net: Net, i: nat)
    requires Proper(net, None) && i < |net.links|
    ensures Proper(Changeback(net, i), None)
  {
    hide KeyedRoutes, ListsFit, CancelChangeover, Move, SetChangeover, SameBars;
    CancelChangeoverProper(net, i);
    MoveProper(net, None, TxQ(i), CbBuf(i), None);
    LinksStay(net, Move(net, TxQ(i), CbBuf(i), None));
    SetChangeoverProper(Move(net, TxQ(i), CbBuf(i), None), None, i, CHANGEBACK);
  }

  lemma StartChangebackProper(net: Net, i: nat, room: bool)
    requires Proper(net, None) && i < |net.links|
    ensures Proper(StartChangeback(net, i, room), None)
  {
    hide KeyedRoutes, ListsFit, CancelChangeover, SetChangeover, SetCbd;
    var t4 := net.links[i].t4 || room;
    SetCbdProper(net, None, i, true, t4);
    var n := SetCbd(net, i, true, t4);
    CancelChangeoverProper(n, i);
    LinksStay(n, CancelChangeover(n, i));
    SetChangeoverProper(n, None, i, CHANGEBACK_INITIATED);
    SetChangeoverProper(CancelChangeover(n, i), None, i, CHANGEBACK_INITIATED);
  }

  lemma AbandonProper(net: Net, i: nat)
    requires Proper(net, None) && i < |net.links|
    ensures Proper(AbandonChangeback(net, i), None)
  {
    hide KeyedRoutes, ListsFit, CancelChangeback, SetCbd;
    SetCbdProper(net, None, i, false, net.links[i].t4);
    CancelChangebackProper(SetCbd(net, i, false, net.links[i].t4), i);
  }

  lemma CbdAnsweredProper(net: Net, i: nat)
    requires Proper(net, None) && i < |net.links|
    ensures Proper(CbdAnswered(net, i), None)
  {
    hide KeyedRoutes, ListsFit, Changeback, SetCbd;
    SetCbdProper(net, None, i, false, false);
    ChangebackProper(SetCbd(net, i, false, false), i);
  }

  lemma EmergencyProper(net: Net, i: nat)
    requires Proper(net, None) && i < |net.links|
    ensures Proper(EmergencyChangeover(net, i), None)
  {
    hide KeyedRoutes, ListsFit, TimedChangeover, SetCbd;
    SetCbdProper(net, None, i, false, net.links[i].t4);
    TimedProper(SetCbd(net, i, false, net.links[i].t4), i);
  }

  lemma T4Proper(net: Net, i: nat, fate: Fate)
    requires Proper(net, None) && i < |net.links|
    ensures Proper(T4Expired(net, i, fate), None)
  {
    hide KeyedRoutes, ListsFit, TimedChangeover, AbandonChangeback, SetCbd;
    SetCbdProper(net, None, i, true, false);
    var n := SetCbd(net, i, true, false);
    TimedProper(n, i);
    AbandonProper(n, i);
  }

  lemma T5Proper(net: Net, i: nat)
    requires Proper(net, None) && i < |net.links|
    ensures Proper(T5Expired(net, i), None)
  {
    hide KeyedRoutes, ListsFit, T3Expired, SetCbd;
    SetCbdProper(net, None, i, false, net.links[i].t4);
    T3Proper(SetCbd(net, i, false, net.links[i].t4), i);
  }

  lemma ShutDownProper(net: Net, i: nat, inhibited: bool)
    requires Proper(net, None) && i < |net.links|
    ensures Proper(ShutDown(net, i, inhibited), None)
  {
    hide Proper, FreeCo, SetChangeover, SetCbd;
    var c := if inhibited then CHANGEOVER_COMPLETED else NO_CHANGEOVER;
    SetChangeoverProper(net, None, i, c);
    var n := SetChangeover(net, i, c);
    LinksStay(net, n);
    FreeCoProper(n, None, i);
    var n1 := FreeCo(n, i);
    LinksStay(n, n1);
    SetCbdProper(n1, None, i, n1.links[i].sentCbd, false);
  }

  // ----- MTP2 and the users

  lemma SendProper(net: Net, i: nat, fsn: nat)
    requires Proper(net, None) && i < |net.links|
    ensures Proper(MtpSend(net, i, fsn), None)
  {
    hide Barred, Get, Put, KeyedRoutes;
    var q := Get(net, TxQ(i));
    if q != [] {
      var m := q[0].(fsn := fsn);
      var sent := [m] + Get(net, TxBuf(i));
      assert Fits(net, None, TxQ(i), q) && Fits(net, None, TxBuf(i), Get(net, TxBuf(i)));
      assert q[0] in q;
      if m.user {
        BarredLess(net, None, TxQ(i), TxBuf(i), m.dpc);
      }
      PutProper(net, None, TxBuf(i), sent);
      var n := Put(net, TxBuf(i), sent);
      assert Fits(n, None, TxQ(i), Get(n, TxQ(i))) && Get(n, TxQ(i)) == q;
      PutProper(n, None, TxQ(i), q[1..]);
    }
  }

  lemma ResetProper(net: Net, i: nat)
    requires Proper(net, None) && i < |net.links|
    ensures Proper(MtpReset(net, i), None)
  {
    hide KeyedRoutes, ListsFit, Free;
    FreeProper(net, None, TxBuf(i));
    FreeProper(Free(net, TxBuf(i)), None, TxQ(i));
  }

  lemma SubmitProper(net: Net, m: Msg)
    requires Proper(net, None) && m.user && m.size == m.len
    ensures Proper(Submit(net, m), None)
  {
    hide KeyedRoutes, ListsFit, Transmit;
    HistoryProper(net, None, net.submitted + [m], net.gone, net.refused);
    TransmitProper(net.(submitted := net.submitted + [m]), m);
  }

  lemma ManageProper(net: Net, i: nat, m: Msg)
    requires Proper(net, None) && i < |net.links| && !m.user
    ensures Proper(SendManagement(net, i, m), None)
  {
    hide Barred, Get, Put, KeyedRoutes;
    var q := Get(net, TxQ(i));
    assert Fits(net, None, TxQ(i), q);
    PutProper(net, None, TxQ(i), q + [m.(size := m.size + 2)]);
  }

  lemma SetLinkProper(net: Net, i: nat, up: bool)
    requires Proper(net, None) && i < |net.links|
    ensures Proper(net.(links := net.links[i := net.links[i].(up := up)]), None)
  {
    hide Fits, KeyedRoutes, ListsFit;
    KeepProper(net, net.(links := net.links[i := net.links[i].(up := up)]), None);
  }

  lemma SetSpProper(net: Net, s: nat, up: bool)
    requires Proper(net, None) && s < |net.sps|
    ensures Proper(net.(sps := net.sps[s := net.sps[s].(up := up)]), None)
  {
    hide Fits, KeyedRoutes, ListsFit;
    KeepProper(net, net.(sps := net.sps[s := net.sps[s].(up := up)]), None);
  }
}
