/** Preparing a changeover takes over the lists of MTP2: when the lists it overwrites are empty. */
module Mtp3Preparation {
  import opened Mtp3Spec
  import opened Mtp3Conservation
  import opened Mtp3Runs
  import opened Options

  /** Only a link whose changeover is initiated has lists taken over from MTP2. */
  predicate IdleLink(l: Link) { l.changeover == CHANGEOVER_INITIATED || (l.coTxQ == [] && l.coTxBuf == []) }

  /** e is a link excepted for the moment. */
  ghost predicate Idle(net: Net, e: Option<nat>) {
    forall j :: 0 <= j < |net.links| && e != Some(j) ==> IdleLink(net.links[j])
  }

  lemma PutIdle(net: Net, e: Option<nat>, p: Place, ms: seq<Msg>)
    requires Idle(net, e) && Exists(net, p) && (p.CoTxQ? || p.CoTxBuf? ==> ms == [] || e == Some(p.link))
    ensures Idle(Put(net, p, ms), e)
  {
  }

  lemma SetChangeoverIdle(net: Net, e: Option<nat>, i: nat, c: Changeover)
    requires Idle(net, e) && i < |net.links|
    requires e == Some(i) || c == CHANGEOVER_INITIATED || net.links[i].changeover != CHANGEOVER_INITIATED
    ensures Idle(SetChangeover(net, i, c), e)
  {
  }

  lemma SetCbdIdle(net: Net, e: Option<nat>, i: nat, sentCbd: bool, t4: bool)
    requires Idle(net, e) && i < |net.links|
    ensures Idle(SetCbd(net, i, sentCbd, t4), e) && |SetCbd(net, i, sentCbd, t4).links| == |net.links|
    ensures SetCbd(net, i, sentCbd, t4).links[i].changeover == net.links[i].changeover
  {
  }

  lemma ExtractIdle(net: Net, e: Option<nat>, p: Place, dpc: Option<nat>)
    requires Idle(net, e) && Exists(net, p)
    ensures Idle(Extract(net, p, dpc).0, e)
  {
  }

  lemma MoveIdle(net: Net, e: Option<nat>, p: Place, q: Place, dpc: Option<nat>)
    requires Idle(net, e) && Exists(net, p) && Exists(net, q) && !q.CoTxQ? && !q.CoTxBuf?
    ensures Idle(Move(net, p, q, dpc), e)
  {
    hide Idle, Put, Kept, Taken, Get;
    ExtractIdle(net, e, p, dpc);
    var (n, ms) := Extract(net, p, dpc);
    PutIdle(n, e, q, Get(n, q) + ms);
  }

  lemma PurgeIdle(net: Net, e: Option<nat>, p: Place, dpc: Option<nat>)
    requires Idle(net, e) && Exists(net, p)
    ensures Idle(Purge(net, p, dpc), e)
  {
    hide Put, Kept, Taken, Get;
    ExtractIdle(net, e, p, dpc);
  }

  lemma FreeIdle(net: Net, e: Option<nat>, p: Place)
    requires Idle(net, e) && Exists(net, p)
    ensures Idle(Free(net, p), e)
  {
    hide Put, Get;
    PutIdle(net, e, p, []);
  }

  lemma AcknowledgeIdle(net: Net, e: Option<nat>, p: Place, fsn: nat)
    requires Idle(net, e) && Exists(net, p)
    ensures Idle(Acknowledge(net, p, fsn), e)
  {
  }

  /** Freeing the lists ends the exception. */
  lemma FreeCoIdle(net: Net, i: nat)
    requires Idle(net, Some(i)) && i < |net.links|
    ensures Idle(FreeCo(net, i), None)
  {
    FreeIdle(net, Some(i), CoTxBuf(i));
    FreeIdle(Free(net, CoTxBuf(i)), Some(i), CoTxQ(i));
    assert FreeCo(net, i).links[i].coTxQ == [] && FreeCo(net, i).links[i].coTxBuf == [];
  }

  lemma ExceptOne(net: Net, i: nat)
    requires Idle(net, None)
    ensures Idle(net, Some(i))
  {
  }

  lemma TransmitIdle(net: Net, e: Option<nat>, m: Msg)
    requires Idle(net, e) && Formed(net)
    ensures Idle(Transmit(net, m), e)
  {
    hide Idle, Put, RlToLink, Get;
    match RlToLink(net, m)
    case None => HistoryIdle(net, e, net.refused + [m]);
    case Some(p) => PutIdle(net, e, p, Get(net, p) + [Stored(p, m)]);
  }

  lemma HistoryIdle(net: Net, e: Option<nat>, refused: seq<Msg>)
    requires Idle(net, e)
    ensures Idle(net.(refused := refused), e)
  {
  }

  lemma {:induction false} TransmitAllIdle(net: Net, e: Option<nat>, ms: seq<Msg>)
    requires Idle(net, e) && Formed(net)
    ensures Idle(TransmitAll(net, ms), e)
    decreases |ms|
  {
    hide Idle, Transmit, Formed;
    if ms != [] {
      TransmitIdle(net, e, ms[0]);
      TransmitAllIdle(Transmit(net, ms[0]), e, ms[1..]);
    }
  }

  lemma DrainIdle(net: Net, e: Option<nat>, p: Place)
    requires Idle(net, e) && Formed(net) && Exists(net, p)
    ensures Idle(Drain(net, p), e)
  {
    hide Idle, TransmitAll, Put, Get, Formed;
    TransmitKeepsShape(net, Get(net, p));
    TransmitAllIdle(net, e, Get(net, p));
    PutIdle(TransmitAll(net, Get(net, p)), e, p, []);
  }

  // ----- operations

  lemma CancelChangeoverIdle(net: Net, i: nat)
    requires Idle(net, None) && i < |net.links|
    ensures Idle(CancelChangeover(net, i), None)
  {
    hide Idle, Move, SetChangeover, FreeCo;
    ExceptOne(net, i);
    var n1 := Move(net, CoTxQ(i), CbBuf(i), None);
    var n2 := Move(n1, CoBuf(i), CbBuf(i), None);
    MoveIdle(net, Some(i), CoTxQ(i), CbBuf(i), None);
    MoveIdle(n1, Some(i), CoBuf(i), CbBuf(i), None);
    LinksStay(net, n2);
    SetChangeoverIdle(n2, Some(i), i, NO_CHANGEOVER);
    LinksStay(n2, SetChangeover(n2, i, NO_CHANGEOVER));
    FreeCoIdle(SetChangeover(n2, i, NO_CHANGEOVER), i);
  }

  lemma CancelChangebackIdle(net: Net, i: nat)
    requires Idle(net, None) && i < |net.links| && net.links[i].changeover != CHANGEOVER_INITIATED
    ensures Idle(CancelChangeback(net, i), None) && |CancelChangeback(net, i).links| == |net.links|
  {
    hide Idle, Move, SetCbd;
    MoveIdle(net, None, CbBuf(i), CoBuf(i), None);
    MoveKeepsChangeover(net, CbBuf(i), CoBuf(i), None, i);
    var n := Move(net, CbBuf(i), CoBuf(i), None);
    SetChangeoverIdle(n, None, i, NO_CHANGEOVER);
    var n1 := SetChangeover(n, i, NO_CHANGEOVER);
    SetCbdIdle(n1, None, i, n1.links[i].sentCbd, false);
  }

  lemma MoveKeepsChangeover(net: Net, p: Place, q: Place, dpc: Option<nat>, i: nat)
    requires Exists(net, p) && Exists(net, q) && i < |net.links|
    ensures i < |Move(net, p, q, dpc).links| == |net.links|
    ensures Move(net, p, q, dpc).links[i].changeover == net.links[i].changeover
  {
    hide Get, Kept, Taken, Put;
    PutKeepsChangeover(net, p, Kept(Get(net, p), dpc), i);
    var (n, ms) := Extract(net, p, dpc);
    PutKeepsChangeover(n, q, Get(n, q) + ms, i);
  }

  lemma PutKeepsChangeover(net: Net, p: Place, ms: seq<Msg>, i: nat)
    requires Exists(net, p) && i < |net.links|
    ensures i < |Put(net, p, ms).links| == |net.links|
    ensures Put(net, p, ms).links[i].changeover == net.links[i].changeover
  {
  }

  lemma LeaveIdle(net: Net, i: nat)
    requires Idle(net, None) && i < |net.links|
    ensures Idle(LeaveChangeback(net, i), None) && |LeaveChangeback(net, i).links| == |net.links|
  {
    hide Idle, CancelChangeback;
    var c := net.links[i].changeover;
    if c == CHANGEBACK || c == CHANGEBACK_INITIATED {
      CancelChangebackIdle(net, i);
    }
  }

  /** While the changeover is initiated the lists of the link may be anything. */
  lemma InitiatedIdle(net: Net, i: nat)
    requires Idle(net, Some(i)) && i < |net.links| && net.links[i].changeover == CHANGEOVER_INITIATED
    ensures Idle(net, None)
  {
  }

  lemma HandIdle(net: Net, i: nat, p: Place, q: Place)
    requires Idle(net, Some(i)) && Exists(net, p) && Exists(net, q) && p != q && !p.RouteQ? && !q.RouteQ?
    requires p.link == i == q.link && net.links[i].changeover == CHANGEOVER_INITIATED
    ensures Idle(Hand(net, p, q), Some(i)) && |Hand(net, p, q).links| == |net.links|
    ensures Hand(net, p, q).links[i].changeover == CHANGEOVER_INITIATED
  {
    hide Idle, Get;
    var n := Free(net, q);
    FreeIdle(net, Some(i), q);
    PutIdle(n, Some(i), q, Get(n, p));
    PutIdle(Put(n, q, Get(n, p)), Some(i), p, []);
  }

  lemma PrepareIdle(net: Net, i: nat)
    requires Idle(net, None) && i < |net.links|
    ensures Idle(PrepareChangeover(net, i), None)
  {
    hide Idle, LeaveChangeback, Hand;
    LeaveIdle(net, i);
    var n := LeaveChangeback(net, i);
    if n.links[i].changeover != CHANGEOVER_INITIATED {
      var n1 := SetChangeover(n, i, CHANGEOVER_INITIATED);
      SetChangeoverIdle(n, None, i, CHANGEOVER_INITIATED);
      ExceptOne(n1, i);
      HandIdle(n1, i, TxBuf(i), CoTxBuf(i));
      var n2 := Hand(n1, TxBuf(i), CoTxBuf(i));
      HandIdle(n2, i, TxQ(i), CoTxQ(i));
      InitiatedIdle(Hand(n2, TxQ(i), CoTxQ(i)), i);
    }
  }

  lemma GatherQueuedIdle(net: Net, i: nat)
    requires Idle(net, None) && i < |net.links|
    ensures Idle(GatherQueued(net, i).0, None) && |GatherQueued(net, i).0.links| == |net.links|
  {
    hide Idle, Kept, Taken, Get;
    ExtractIdle(net, None, CoTxQ(i), None);
    var (n, _) := Extract(net, CoTxQ(i), None);
    LinksStay(net, n);
    ExtractIdle(n, None, CoBuf(i), None);
    LinksStay(n, Extract(n, CoBuf(i), None).0);
  }

  lemma CompleteIdle(net: Net, i: nat, ms: seq<Msg>)
    requires Idle(net, None) && Formed(net) && i < |net.links|
    ensures Idle(Complete(net, i, ms), None)
  {
    hide Idle, TransmitAll, SetChangeover, FreeCo;
    TransmitKeepsShape(net, ms);
    TransmitAllIdle(net, None, ms);
    var n := TransmitAll(net, ms);
    ExceptOne(n, i);
    SetChangeoverIdle(n, Some(i), i, CHANGEOVER_COMPLETED);
    LinksStay(n, SetChangeover(n, i, CHANGEOVER_COMPLETED));
    FreeCoIdle(SetChangeover(n, i, CHANGEOVER_COMPLETED), i);
  }

  lemma ChangeoverIdle(net: Net, i: nat, fsn: nat)
    requires Idle(net, None) && Formed(net) && i < |net.links|
    ensures Idle(ChangeoverTo(net, i, fsn), None)
  {
    hide Idle, LeaveChangeback, Acknowledge, Extract, GatherQueued, Complete;
    LeaveIdle(net, i);
    var n := LeaveChangeback(net, i);
    AcknowledgeIdle(n, None, CoTxBuf(i), fsn);
    var n1 := Acknowledge(n, CoTxBuf(i), fsn);
    LinksStay(n, n1);
    ExtractIdle(n1, None, CoTxBuf(i), None);
    var (n2, ms2) := Extract(n1, CoTxBuf(i), None);
    ExtractStays(n1, CoTxBuf(i));
    GatherQueuedIdle(n2, i);
    var (n3, ms3) := GatherQueued(n2, i);
    ExtractStays(n2, CoTxQ(i));
    ExtractStays(Extract(n2, CoTxQ(i), None).0, CoBuf(i));
    GatherQueuedStays(n2, i);
    CompleteIdle(n3, i, ms2 + ms3);
  }

  lemma TimedIdle(net: Net, i: nat)
    requires Idle(net, None) && Formed(net) && i < |net.links|
    ensures Idle(TimedChangeover(net, i), None)
  {
    hide Idle, LeaveChangeback, SetChangeover, Move, FreeCo;
    LeaveIdle(net, i);
    var n := LeaveChangeback(net, i);
    if n.links[i].changeover == NO_CHANGEOVER {
      ExceptOne(n, i);
      SetChangeoverIdle(n, Some(i), i, CHANGEOVER_IN_PROGRESS);
      var n1 := SetChangeover(n, i, CHANGEOVER_IN_PROGRESS);
      LinksStay(n, n1);
      MoveIdle(n1, Some(i), TxQ(i), CoBuf(i), None);
      LinksStay(n1, Move(n1, TxQ(i), CoBuf(i), None));
      FreeCoIdle(Move(n1, TxQ(i), CoBuf(i), None), i);
    }
  }

  /** T1 and T3: the state is set, a list is drained, the lists taken over are freed. */
  lemma DrainAndFreeIdle(net: Net, i: nat, c: Changeover, p: Place)
    requires Idle(net, None) && Formed(net) && i < |net.links| && Exists(net, p)
    ensures var n := Drain(SetChangeover(net, i, c), p); i < |n.links| && Idle(FreeCo(n, i), None)
  {
    hide Idle, SetChangeover, FreeCo, Put, Get, TransmitAll;
    ExceptOne(net, i);
    SetChangeoverIdle(net, Some(i), i, c);
    var n := SetChangeover(net, i, c);
    LinksStay(net, n);
    DrainIdle(n, Some(i), p);
    TransmitKeepsShape(n, Get(n, p));
    LinksStay(n, Drain(n, p));
    FreeCoIdle(Drain(n, p), i);
  }

  lemma T2Idle(net: Net, i: nat)
    requires Idle(net, None) && Formed(net) && i < |net.links|
    ensures Idle(T2Expired(net, i), None)
  {
    hide Idle, GatherQueued, Complete;
    GatherQueuedIdle(net, i);
    GatherQueuedStays(net, i);
    var (n, ms) := GatherQueued(net, i);
    CompleteIdle(n, i, ms);
  }

  lemma ChangebackIdle(net: Net, i: nat)
    requires Idle(net, None) && Formed(net) && i < |net.links|
    ensures Idle(Changeback(net, i), None)
  {
    hide Idle, CancelChangeover, Move;
    CancelChangeoverIdle(net, i);
    if net.links[i].changeover == CHANGEOVER_COMPLETED || net.links[i].changeover == CHANGEBACK_INITIATED {
      MoveIdle(net, None, TxQ(i), CbBuf(i), None);
      MoveKeepsChangeover(net, TxQ(i), CbBuf(i), None, i);
      SetChangeoverIdle(Move(net, TxQ(i), CbBuf(i), None), None, i, CHANGEBACK);
    }
  }

  lemma StartChangebackIdle(net: Net, i: nat, room: bool)
    requires Idle(net, None) && Formed(net) && i < |net.links|
    ensures Idle(StartChangeback(net, i, room), None)
  {
    hide Idle, CancelChangeover, SetCbd;
    var t4 := net.links[i].t4 || room;
    SetCbdIdle(net, None, i, true, t4);
    var n := SetCbd(net, i, true, t4);
    if net.links[i].changeover == CHANGEOVER_COMPLETED {
      SetChangeoverIdle(n, None, i, CHANGEBACK_INITIATED);
    } else {
      CancelChangeoverIdle(n, i);
      CancelledIsNone(n, i);
      SetChangeoverIdle(CancelChangeover(n, i), None, i, CHANGEBACK_INITIATED);
    }
  }

  lemma AbandonIdle(net: Net, i: nat)
    requires Idle(net, None) && Formed(net) && i < |net.links| && net.links[i].changeover != CHANGEOVER_INITIATED
    ensures Idle(AbandonChangeback(net, i), None)
  {
    hide Idle, CancelChangeback, SetCbd;
    SetCbdIdle(net, None, i, false, net.links[i].t4);
    CancelChangebackIdle(SetCbd(net, i, false, net.links[i].t4), i);
  }

  lemma T4Idle(net: Net, i: nat, fate: Fate)
    requires Idle(net, None) && Formed(net) && i < |net.links|
    requires fate.ChangebackGivenUp? ==> net.links[i].changeover != CHANGEOVER_INITIATED
    ensures Idle(T4Expired(net, i, fate), None)
  {
    hide Idle, TimedChangeover, AbandonChangeback, SetCbd;
    SetCbdIdle(net, None, i, true, false);
    var n := SetCbd(net, i, true, false);
    match fate
    case Written =>
    case OrderGivenUp => TimedIdle(n, i);
    case ChangebackGivenUp => AbandonIdle(n, i);
  }

  lemma T5Idle(net: Net, i: nat)
    requires Idle(net, None) && Formed(net) && i < |net.links|
    ensures Idle(T5Expired(net, i), None)
  {
    hide Idle, Drain, SetChangeover, FreeCo, SetCbd;
    SetCbdIdle(net, None, i, false, net.links[i].t4);
    DrainAndFreeIdle(SetCbd(net, i, false, net.links[i].t4), i, NO_CHANGEOVER, CbBuf(i));
  }

  lemma CbdAnsweredIdle(net: Net, i: nat)
    requires Idle(net, None) && Formed(net) && i < |net.links|
    ensures Idle(CbdAnswered(net, i), None)
  {
    hide Idle, Changeback, SetCbd;
    SetCbdIdle(net, None, i, false, false);
    ChangebackIdle(SetCbd(net, i, false, false), i);
  }

  lemma EmergencyIdle(net: Net, i: nat)
    requires Idle(net, None) && Formed(net) && i < |net.links|
    ensures Idle(EmergencyChangeover(net, i), None)
  {
    hide Idle, TimedChangeover, SetCbd;
    SetCbdIdle(net, None, i, false, net.links[i].t4);
    TimedIdle(SetCbd(net, i, false, net.links[i].t4), i);
  }

  lemma ShutDownIdle(net: Net, i: nat, inhibited: bool)
    requires Idle(net, None) && Formed(net) && i < |net.links|
    ensures Idle(ShutDown(net, i, inhibited), None)
  {
    hide Idle, FreeCo, SetChangeover, SetCbd;
    var c := if inhibited then CHANGEOVER_COMPLETED else NO_CHANGEOVER;
    ExceptOne(net, i);
    SetChangeoverIdle(net, Some(i), i, c);
    var n := SetChangeover(net, i, c);
    LinksStay(net, n);
    FreeCoIdle(n, i);
    var n1 := FreeCo(n, i);
    LinksStay(n, n1);
    SetCbdIdle(n1, None, i, n1.links[i].sentCbd, false);
  }

  lemma SetUpIdle(net: Net, i: nat, up: bool)
    requires Idle(net, None) && i < |net.links|
    ensures Idle(SetUp(net, i, up), None)
  {
  }

  lemma CancelledIsNone(net: Net, i: nat)
    requires i < |net.links|
    ensures i < |CancelChangeover(net, i).links| && CancelChangeover(net, i).links[i].changeover == NO_CHANGEOVER
  {
    hide Move, Get, Users;
    LinksStay(net, Move(Move(net, CoTxQ(i), CbBuf(i), None), CoBuf(i), CbBuf(i), None));
  }

  lemma RerouteLinkIdle(net: Net, i: nat, s: nat, r: nat, free: bool)
    requires Idle(net, None) && i < |net.links| && Exists(net, RouteQ(s, r))
    ensures Idle(RerouteLink(net, i, s, r, free), None)
  {
    hide Get, Move, Purge, Idle;
    var q := RouteQ(s, r);
    var d := Some(net.sps[s].routes[r].dpc);
    var n1 := Move(net, TxQ(i), q, d);
    MoveIdle(net, None, TxQ(i), q, d);
    if free {
      var n2 := Move(n1, CoTxQ(i), q, d);
      var n3 := Move(n2, CoBuf(i), q, d);
      var n4 := Move(n3, CbBuf(i), q, d);
      MoveIdle(n1, None, CoTxQ(i), q, d);
      MoveIdle(n2, None, CoBuf(i), q, d);
      MoveIdle(n3, None, CbBuf(i), q, d);
      PurgeIdle(n4, None, TxBuf(i), d);
      PurgeIdle(Purge(n4, TxBuf(i), d), None, CoTxBuf(i), d);
    } else {
      var n2 := Move(n1, CoBuf(i), q, d);
      var n3 := Move(n2, CbBuf(i), q, d);
      MoveIdle(n1, None, CoBuf(i), q, d);
      MoveIdle(n2, None, CbBuf(i), q, d);
      MoveIdle(n3, None, CoTxQ(i), q, d);
    }
  }

  lemma {:induction false} RerouteIdle(net: Net, i: nat, s: nat, r: nat, free: bool)
    requires Idle(net, None) && i <= |net.links| && Exists(net, RouteQ(s, r))
    ensures Idle(RerouteFrom(net, i, s, r, free), None)
    decreases |net.links| - i
  {
    hide Idle, RerouteLink;
    if i < |net.links| {
      RerouteLinkIdle(net, i, s, r, free);
      var n := if net.links[i].sp == s then RerouteLink(net, i, s, r, free) else net;
      LinksStay(net, n);
      RerouteIdle(n, i + 1, s, r, free);
    }
  }

  lemma SpsIdle(net: Net, sps: seq<Sp>, gone: seq<Msg>)
    requires Idle(net, None)
    ensures Idle(net.(sps := sps), None) && Idle(net.(sps := sps, gone := gone), None)
  {
  }

  lemma SetT6Idle(net: Net, s: nat, r: nat, t6: bool)
    requires Idle(net, None) && Exists(net, RouteQ(s, r))
    ensures Idle(SetT6(net, s, r, t6), None)
  {
  }

  lemma AddSetRouteIdle(net: Net, s: nat, pc: nat, state: RouteState, room: bool)
    requires Idle(net, None) && Formed(net) && s < |net.sps|
    ensures Idle(AddSetRoute(net, s, pc, state, room), None)
  {
    hide Idle, RerouteFrom, SetT6, Drain, FindRoute;
    var dpc := ShortCode(pc);
    var routes := net.sps[s].routes;
    var r := FindRoute(routes, dpc);
    if r < |routes| || state != TFA {
      var route := if r < |routes| then routes[r].(state := state) else Route(dpc, state, false, []);
      var n := PutRoute(net, s, r, route);
      SpsIdle(net, n.sps, net.gone);
      if state != TFR_NON_ACTIVE {
        var free := state == TFP;
        RerouteIdle(n, 0, s, r, free);
        SetT6Idle(RerouteFrom(n, 0, s, r, free), s, r, !free && room);
        if free {
          DrainIdle(SetT6(RerouteFrom(n, 0, s, r, true), s, r, false), None, RouteQ(s, r));
        }
      }
    }
  }

  lemma T6Idle(net: Net, s: nat, r: nat)
    requires Idle(net, None) && Formed(net) && Exists(net, RouteQ(s, r))
    ensures Idle(T6Expired(net, s, r), None)
  {
    hide Idle, SetT6, Get, TransmitAll, Put, Users;
    SetT6Idle(net, s, r, false);
    var n := SetT6(net, s, r, false);
    DrainIdle(n, None, RouteQ(s, r));
    TransmitKeepsShape(n, Get(n, RouteQ(s, r)));
    var n1 := Drain(n, RouteQ(s, r));
    if net.sps[s].routes[r].state == TFA {
      var n2 := DestroyRoute(n1, s, r);
      SpsIdle(n1, n2.sps, n2.gone);
    }
  }

  lemma SendIdle(net: Net, i: nat, fsn: nat)
    requires Idle(net, None) && Formed(net) && i < |net.links|
    ensures Idle(MtpSend(net, i, fsn), None)
  {
    hide Idle, Get, Put;
    var q := Get(net, TxQ(i));
    if q != [] {
      var sent := [q[0].(fsn := fsn)] + Get(net, TxBuf(i));
      PutIdle(net, None, TxBuf(i), sent);
      PutIdle(Put(net, TxBuf(i), sent), None, TxQ(i), q[1..]);
    }
  }

  // ----- runs

  predicate GivesUpChangeback(op: Op) { op.Abandon? || (op.ExpireT4? && op.fate.ChangebackGivenUp?) }

  /** While a changeover is initiated no changeback is given up and it is not marked completed. */
  predicate Orderly(net: Net, op: Op) {
    (GivesUpChangeback(op) || op.MarkCompleted?) && op.i < |net.links| ==>
      net.links[op.i].changeover != CHANGEOVER_INITIATED
  }

  ghost predicate OrderlyRun(net: Net, ops: seq<Op>)
    requires Formed(net)
    decreases |ops|
  {
    ops == [] || (OrderlyRun(net, ops[..|ops|-1]) && Orderly(Run(net, ops[..|ops|-1]), ops[|ops|-1]))
  }

  lemma SetIdle(net: Net, op: Op)
    requires Idle(net, None) && Formed(net) && Enabled(net, op) && op.SetSp?
    ensures Idle(StepTraffic(net, op), None)
  {
  }

  lemma TrafficIdle(net: Net, op: Op)
    requires Idle(net, None) && Formed(net) && Enabled(net, op) && OfTraffic(op)
    ensures Idle(StepTraffic(net, op), None)
  {
    hide Idle, Formed, Transmit, MtpSend, Acknowledge, Free, Get, Put, SetUp, AddSetRoute, T6Expired, Users;
    match op
    case SubmitUser(m) =>
      SubmittedIdle(net, m);
      TransmitIdle(net.(submitted := net.submitted + [m]), None, m);
    case Manage(i, m) => PutIdle(net, None, TxQ(i), Get(net, TxQ(i)) + [m.(size := m.size + 2)]);
    case Send(i, fsn) => SendIdle(net, i, fsn);
    case Ack(i, fsn) => AcknowledgeIdle(net, None, TxBuf(i), fsn);
    case Reset(i) =>
      FreeIdle(net, None, TxBuf(i));
      FreeIdle(Free(net, TxBuf(i)), None, TxQ(i));
    case SetLink(i, up) => SetUpIdle(net, i, up);
    case SetSp(s, up) => SetIdle(net, op);
    case SetRoute(s, pc, state, room) => AddSetRouteIdle(net, s, pc, state, room);
    case ExpireT6(s, r) => T6Idle(net, s, r);
    case Destroy(s, r) => SpsIdle(net, DestroyRoute(net, s, r).sps, DestroyRoute(net, s, r).gone);
  }

  lemma OfChangeoverIdle(net: Net, op: Op)
    requires Idle(net, None) && Formed(net) && Enabled(net, op) && !OfTraffic(op) && Orderly(net, op)
    ensures Idle(StepChangeover(net, op), None)
  {
    hide Idle, Formed, PrepareChangeover, ChangeoverTo, TimedChangeover, Drain, FreeCo, SetChangeover, T2Expired, T4Expired;
    hide T5Expired, AbandonChangeback, Changeback, CbdAnswered, SetUp, SetCbd, EmergencyChangeover, StartChangeback, ShutDown;
    match op
    case Prepare(i) => PrepareIdle(net, i);
    case PeerChangeover(i, fsn) => ChangeoverIdle(net, i, fsn);
    case Timed(i) => TimedIdle(net, i);
    case ExpireT1(i) => DrainAndFreeIdle(net, i, CHANGEOVER_COMPLETED, CoBuf(i));
    case ExpireT2(i) => T2Idle(net, i);
    case ExpireT3(i) => DrainAndFreeIdle(net, i, NO_CHANGEOVER, CbBuf(i));
    case ExpireT4(i, fate) => T4Idle(net, i, fate);
    case ExpireT5(i) => T5Idle(net, i);
    case Abandon(i) => AbandonIdle(net, i);
    case ReturnTraffic(i) => ChangebackIdle(net, i);
    case CbdAnswer(i) => CbdAnsweredIdle(net, i);
    case Emergency(i) => EmergencyIdle(net, i);
    case LinkTested(i, room) =>
      SetUpIdle(net, i, true);
      StartChangebackIdle(SetUp(net, i, true), i, room);
    case ForgetCbd(i) => SetCbdIdle(net, None, i, false, net.links[i].t4);
    case MarkCompleted(i) => SetChangeoverIdle(net, None, i, CHANGEOVER_COMPLETED);
    case Shut(i, inhibited) => ShutDownIdle(net, i, inhibited);
  }

  lemma StepIdle(net: Net, op: Op)
    requires Idle(net, None) && Formed(net) && Orderly(net, op)
    ensures Idle(Step(net, op), None)
  {
    hide Idle, Formed, StepTraffic, StepChangeover, Enabled, Orderly;
    if Enabled(net, op) {
      if OfTraffic(op) {
        TrafficIdle(net, op);
      } else {
        OfChangeoverIdle(net, op);
      }
    }
  }

  lemma SubmittedIdle(net: Net, m: Msg)
    requires Idle(net, None) && Formed(net)
    ensures Idle(net.(submitted := net.submitted + [m]), None) && Formed(net.(submitted := net.submitted + [m]))
  {
  }

  lemma {:induction false} OrderlyRunsAreIdle(net: Net, ops: seq<Op>)
    requires Empty(net) && OrderlyRun(net, ops)
    ensures Idle(Run(net, ops), None)
    decreases |ops|
  {
    hide Step;
    if ops != [] {
      OrderlyRunsAreIdle(net, ops[..|ops|-1]);
      StepIdle(Run(net, ops[..|ops|-1]), ops[|ops|-1]);
    }
  }

  /** What preparing a changeover does to a link that is not in changeback: the lists of MTP2 are
      taken over as they are, and what was in the lists they replace is lost. */
  lemma PrepareTakesOver(net: Net, i: nat)
    requires i < |net.links|
    requires net.links[i].changeover !in {CHANGEOVER_INITIATED, CHANGEBACK, CHANGEBACK_INITIATED}
    ensures var r := PrepareChangeover(net, i); var l := net.links[i];
      && i < |r.links|
      && r.links[i] == l.(changeover := CHANGEOVER_INITIATED, coTxBuf := l.txBuf, txBuf := [], coTxQ := l.txQ, txQ := [])
      && r.gone == net.gone + Users(l.coTxBuf) + Users(l.coTxQ)
      && r.refused == net.refused
  {
    hide Users, Hand;
    var n := SetChangeover(net, i, CHANGEOVER_INITIATED);
    HandedLists(n, i, TxBuf(i), CoTxBuf(i));
    var n1 := Hand(n, TxBuf(i), CoTxBuf(i));
    HandedLists(n1, i, TxQ(i), CoTxQ(i));
  }

  lemma HandedLists(net: Net, i: nat, p: Place, q: Place)
    requires i < |net.links| && !p.RouteQ? && !q.RouteQ? && p != q && p.link == i == q.link
    ensures var r := Hand(net, p, q); var l := net.links[i];
      && i < |r.links| && r.links[i] == WithList(WithList(l, q, ListOf(l, p)), p, [])
      && r.gone == net.gone + Users(ListOf(l, q)) && r.refused == net.refused
  {
    hide Users;
  }

  /** Over every orderly run nothing is lost when a changeover is prepared. */
  lemma PreparingLosesNothing(net: Net, ops: seq<Op>, i: nat)
    requires Empty(net) && OrderlyRun(net, ops) && i < |Run(net, ops).links|
    ensures PrepareChangeover(Run(net, ops), i).gone == Run(net, ops).gone
  {
    hide Run, OrderlyRun;
    OrderlyRunsAreIdle(net, ops);
    var n := Run(net, ops);
    LeaveIdle(n, i);
    LeaveFreesNothing(n, i);
    var n1 := LeaveChangeback(n, i);
    if n1.links[i].changeover != CHANGEOVER_INITIATED {
      assert IdleLink(n1.links[i]);
      PrepareTakesOver(n1, i);
      assert PrepareChangeover(n, i) == PrepareChangeover(n1, i);
    }
  }

  lemma LeaveFreesNothing(net: Net, i: nat)
    requires i < |net.links|
    ensures var n := LeaveChangeback(net, i);
      && n.gone == net.gone && |n.links| == |net.links|
      && n.links[i].changeover !in {CHANGEBACK, CHANGEBACK_INITIATED}
  {
  }

  /** For every net: preparing a changeover loses nothing exactly when it is initiated already or
      the lists about to be replaced hold no user message. */
  lemma PrepareLosesExactly(net: Net, i: nat)
    requires i < |net.links|
    ensures var l := net.links[i]; var lost := Users(l.coTxBuf) + Users(l.coTxQ); var r := PrepareChangeover(net, i);
      && r.gone == net.gone + (if l.changeover == CHANGEOVER_INITIATED then [] else lost)
      && (r.gone == net.gone <==>
            l.changeover == CHANGEOVER_INITIATED || (Users(l.coTxBuf) == [] && Users(l.coTxQ) == []))
  {
    hide Users, Hand, CancelChangeback;
    LeaveFreesNothing(net, i);
    LeaveSparesTaken(net, i);
    var n := LeaveChangeback(net, i);
    if n.links[i].changeover != CHANGEOVER_INITIATED {
      PrepareTakesOver(n, i);
      assert PrepareChangeover(net, i) == PrepareChangeover(n, i);
    }
  }

  /** Leaving a changeback does not touch the lists taken over, and does not initiate a changeover. */
  lemma LeaveSparesTaken(net: Net, i: nat)
    requires i < |net.links|
    ensures var n := LeaveChangeback(net, i);
      && i < |n.links|
      && n.links[i].coTxBuf == net.links[i].coTxBuf && n.links[i].coTxQ == net.links[i].coTxQ
      && (n.links[i].changeover == CHANGEOVER_INITIATED <==> net.links[i].changeover == CHANGEOVER_INITIATED)
  {
    hide Kept, Taken;
    var n := LeaveChangeback(net, i);
    LinksStay(net, n);
    assert Get(n, CoTxBuf(i)) == ListOf(n.links[i], CoTxBuf(i)) && Get(n, CoTxQ(i)) == ListOf(n.links[i], CoTxQ(i));
  }

  /** After a changeback is given up for a link whose changeover is initiated, preparing again
      loses everything that was taken over from MTP2. */
  lemma AbandonThenPrepareLoses(net: Net, i: nat)
    requires i < |net.links| && net.links[i].changeover == CHANGEOVER_INITIATED
    ensures var n := CancelChangeback(net, i);
      && i < |n.links|
      && PrepareChangeover(n, i).gone == net.gone + Users(net.links[i].coTxBuf) + Users(net.links[i].coTxQ)
  {
    hide Kept, Taken;
    var n := CancelChangeback(net, i);
    LinksStay(net, n);
    assert Get(n, CoTxBuf(i)) == Get(net, CoTxBuf(i)) && Get(n, CoTxQ(i)) == Get(net, CoTxQ(i));
    PrepareTakesOver(n, i);
  }
}
