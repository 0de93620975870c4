/** How links and routes change state, apart from their lists: every operation of the network is, for each
    link and each route, one move of a small automaton, and so is every run. */
module Mtp3States {
  import opened Mtp3Spec
  import opened Mtp3Runs
  import opened Mtp3Invariants
  import opened Mtp3Local
  import opened Mtp3Rerouting
  import opened Options

  // ----- links

  /** What a link is apart from its lists. */
  datatype Control = Control(sp: nat, up: bool, changeover: Changeover, sentCbd: bool, t4: bool)

  function ControlOf(l: Link): Control { Control(l.sp, l.up, l.changeover, l.sentCbd, l.t4) }

  predicate ChangingBack(c: Control) { c.changeover == CHANGEBACK || c.changeover == CHANGEBACK_INITIATED }

  /** Giving up a changeback stops T4, and so does whatever ends one. */
  function Back(c: Control): Control {
    if ChangingBack(c) then c.(changeover := NO_CHANGEOVER, t4 := false) else c
  }

  /** A time-controlled changeover begins only on a link in normal service, or one changing back. */
  function TimedMove(c: Control): Control {
    if c.changeover == NO_CHANGEOVER || ChangingBack(c) then Back(c).(changeover := CHANGEOVER_IN_PROGRESS) else c
  }

  /** Traffic returns: a changeover under way is cancelled, a completed one becomes a changeback. */
  function ReturnMove(c: Control): Control {
    match c.changeover
    case CHANGEOVER_INITIATED | CHANGEOVER_IN_PROGRESS => c.(changeover := NO_CHANGEOVER)
    case CHANGEOVER_COMPLETED | CHANGEBACK_INITIATED => c.(changeover := CHANGEBACK)
    case NO_CHANGEOVER | CHANGEBACK => c
  }

  function AbandonMove(c: Control): Control {
    if c.sentCbd then c.(changeover := NO_CHANGEOVER, sentCbd := false, t4 := false) else c
  }

  /** The state of a link after an operation on it. */
  function Moved(c: Control, op: Op): Control {
    match op
    case SetLink(_, up) => c.(up := up)
    case Prepare(_) => Back(c).(changeover := CHANGEOVER_INITIATED)
    case PeerChangeover(_, _) =>
      if c.changeover == CHANGEOVER_IN_PROGRESS then c else Back(c).(changeover := CHANGEOVER_COMPLETED)
    case Timed(_) => TimedMove(c)
    case ExpireT1(_) => c.(changeover := CHANGEOVER_COMPLETED)
    case ExpireT2(_) => c.(changeover := CHANGEOVER_COMPLETED)
    case ExpireT3(_) => c.(changeover := NO_CHANGEOVER)
    case ExpireT4(_, fate) =>
      var sent := c.(sentCbd := true, t4 := false);
      (match fate
       case Written => sent
       case OrderGivenUp => TimedMove(sent)
       case ChangebackGivenUp => AbandonMove(sent))
    case ExpireT5(_) => c.(changeover := NO_CHANGEOVER, sentCbd := false)
    case Abandon(_) => AbandonMove(c)
    case ReturnTraffic(_) => ReturnMove(c)
    case CbdAnswer(_) => if c.sentCbd then ReturnMove(c.(sentCbd := false, t4 := false)) else c
    case Emergency(_) => TimedMove(c.(sentCbd := false))
    case LinkTested(_, room) =>
      if c.changeover == NO_CHANGEOVER || ChangingBack(c) then c.(up := true)
      else c.(up := true, changeover := CHANGEBACK_INITIATED, sentCbd := true, t4 := c.t4 || room)
    case ForgetCbd(_) => c.(sentCbd := false)
    case MarkCompleted(_) => c.(changeover := CHANGEOVER_COMPLETED)
    case Shut(_, inhibited) =>
      c.(changeover := if inhibited then CHANGEOVER_COMPLETED else NO_CHANGEOVER, t4 := false)
    case _ => c
  }

  /** The state of a link after a quiet operation does not depend on its lists. */
  lemma RelistedMoves(l: Link, op: Op)
    requires Quiet(op)
    ensures ControlOf(Relisted(l, op)) == Moved(ControlOf(l), op)
  {
    hide Users, Managed, Unacked, ControlOf, Backed, Deferred, Prepared, Returned, Tested, TimedMove, ReturnMove;
    PiecesMove(l);
    PiecesMove(l.(sentCbd := true, t4 := false));
    PiecesMove(l.(sentCbd := false, t4 := false));
    PiecesMove(l.(sentCbd := false));
    FieldsMove(l);
    FieldsMove(Backed(l));
    FieldsMove(Backed(l.(sentCbd := true, t4 := false)));
    if op.LinkTested? {
      TestedMoves(l, op.room);
    } else if op.Manage? || op.Send? || op.Ack? || op.Reset? || op.SetLink? || op.ForgetCbd? || op.MarkCompleted? || op.Shut? {
      PlainMoves(l, op);
    }
  }

  lemma PiecesMove(l: Link)
    ensures && ControlOf(Backed(l)) == ControlOf(l).(changeover := NO_CHANGEOVER, t4 := false)
            && ControlOf(Deferred(l)) == TimedMove(ControlOf(l)) && ControlOf(Returned(l)) == ReturnMove(ControlOf(l))
            && ControlOf(Prepared(l)) == Back(ControlOf(l)).(changeover := CHANGEOVER_INITIATED)
  {
    hide Users, Managed;
  }

  lemma TestedMoves(l: Link, room: bool)
    ensures ControlOf(Tested(l.(up := true), room)) == Moved(ControlOf(l), LinkTested(0, room))
  {
    hide Users, Managed;
  }

  lemma FieldsMove(l: Link)
    ensures var c := ControlOf(l);
      && c.sentCbd == l.sentCbd && c.changeover == l.changeover && c.t4 == l.t4
      && ControlOf(l.(sentCbd := true, t4 := false)) == c.(sentCbd := true, t4 := false)
      && ControlOf(l.(sentCbd := false, t4 := false)) == c.(sentCbd := false, t4 := false)
      && ControlOf(l.(sentCbd := false)) == c.(sentCbd := false)
  {
  }

  lemma PlainMoves(l: Link, op: Op)
    requires op.Manage? || op.Send? || op.Ack? || op.Reset? || op.SetLink? || op.ForgetCbd? || op.MarkCompleted? || op.Shut?
    ensures ControlOf(Relisted(l, op)) == Moved(ControlOf(l), op)
  {
    hide Unacked, Back, Deferred, Prepared, Returned, Abandoned, Tested, Backed, TimedMove, ReturnMove, AbandonMove;
  }

  /** Whether the operation is one of link i. */
  predicate Concerns(op: Op, i: nat) {
    match op
    case SubmitUser(_) => false
    case SetSp(_, _) => false
    case SetRoute(_, _, _, _) => false
    case ExpireT6(_, _) => false
    case Destroy(_, _) => false
    case _ => op.i == i
  }

  /** T4 has to be running to expire, and a link is tested or marked while it is not up. */
  predicate Possible(c: Control, op: Op) {
    (op.ExpireT4? ==> c.t4) && (op.LinkTested? || op.MarkCompleted? ==> !c.up) && (op.Manage? ==> !op.m.user)
  }

  function MovedBy(c: Control, i: nat, ops: seq<Op>): Control
    decreases |ops|
  {
    if ops == [] then c
    else
      var before := MovedBy(c, i, ops[..|ops|-1]);
      var op := ops[|ops|-1];
      if Concerns(op, i) && Possible(before, op) then Moved(before, op) else before
  }

  /** No signalling point and no route changes, apart from the queues. */
  ghost predicate SamePoints(a: Net, b: Net) {
    && |a.sps| == |b.sps|
    && forall s :: 0 <= s < |a.sps| ==> a.sps[s].up == b.sps[s].up && SameRoutes(a.sps[s].routes, b.sps[s].routes)
  }

  ghost predicate SameControls(a: Net, b: Net) {
    && SamePoints(a, b) && |a.links| == |b.links|
    && forall j :: 0 <= j < |a.links| ==> ControlOf(b.links[j]) == ControlOf(a.links[j])
  }

  /** Only link i changes, to c. */
  ghost predicate Moves(a: Net, b: Net, i: nat, c: Control) {
    && SamePoints(a, b) && |a.links| == |b.links|
    && forall j :: 0 <= j < |a.links| ==> ControlOf(b.links[j]) == if j == i then c else ControlOf(a.links[j])
  }

  lemma PointsChain(a: Net, b: Net, c: Net)
    requires SamePoints(a, b) && SamePoints(b, c)
    ensures SamePoints(a, c)
  {
    hide SameRoutes;
    forall s | 0 <= s < |a.sps| ensures a.sps[s].up == c.sps[s].up && SameRoutes(a.sps[s].routes, c.sps[s].routes) {
      RoutesChain(a.sps[s].routes, b.sps[s].routes, c.sps[s].routes);
    }
  }

  lemma RoutesChain(a: seq<Route>, b: seq<Route>, c: seq<Route>)
    requires SameRoutes(a, b) && SameRoutes(b, c)
    ensures SameRoutes(a, c)
  {
  }

  lemma PutKeepsControls(net: Net, p: Place, ms: seq<Msg>)
    requires Exists(net, p)
    ensures SameControls(net, Put(net, p, ms))
  {
  }

  lemma SameChain(a: Net, b: Net, c: Net)
    requires SameControls(a, b) && SameControls(b, c)
    ensures SameControls(a, c)
  {
    hide SamePoints;
    PointsChain(a, b, c);
  }

  lemma MovesChain(a: Net, b: Net, c: Net, i: nat, x: Control, y: Control)
    requires Moves(a, b, i, x) && Moves(b, c, i, y)
    ensures Moves(a, c, i, y)
  {
    hide SamePoints;
    PointsChain(a, b, c);
  }

  lemma MovesThenSame(a: Net, b: Net, c: Net, i: nat, x: Control)
    requires Moves(a, b, i, x) && SameControls(b, c)
    ensures Moves(a, c, i, x)
  {
    hide SamePoints;
    PointsChain(a, b, c);
  }

  lemma SameThenMoves(a: Net, b: Net, c: Net, i: nat, x: Control)
    requires SameControls(a, b) && Moves(b, c, i, x)
    ensures Moves(a, c, i, x)
  {
    hide SamePoints;
    PointsChain(a, b, c);
  }

  lemma SameLinks(a: Net, b: Net)
    requires a.links == b.links && a.sps == b.sps
    ensures SameControls(a, b)
  {
  }

  lemma MovingKeeps(net: Net, p: Place, q: Place, dpc: Option<nat>, fsn: nat)
    requires Exists(net, p) && Exists(net, q)
    ensures SameControls(net, Move(net, p, q, dpc)) && SameControls(net, Purge(net, p, dpc))
    ensures SameControls(net, Free(net, p)) && SameControls(net, Acknowledge(net, p, fsn))
    ensures SameControls(net, Extract(net, p, dpc).0)
  {
    hide Kept, Taken, Users, Unacked, SameControls, Put;
    var kept := Kept(Get(net, p), dpc);
    var n := Put(net, p, kept);
    PutKeepsControls(net, p, kept);
    var moved := Get(n, q) + Taken(Get(net, p), dpc, Counted(p));
    PutKeepsControls(n, q, moved);
    SameChain(net, n, Put(n, q, moved));
    GoneKeepsControls(net, n, Purge(net, p, dpc).gone);
    PutKeepsControls(net, p, []);
    GoneKeepsControls(net, Put(net, p, []), Free(net, p).gone);
    PutKeepsControls(net, p, Unacked(Get(net, p), fsn));
    GoneKeepsControls(net, Put(net, p, Unacked(Get(net, p), fsn)), Acknowledge(net, p, fsn).gone);
  }

  lemma GoneKeepsControls(a: Net, b: Net, gone: seq<Msg>)
    requires SameControls(a, b)
    ensures SameControls(a, b.(gone := gone))
  {
  }

  lemma {:induction false} TransmittingKeeps(net: Net, ms: seq<Msg>)
    requires Formed(net)
    ensures SameControls(net, TransmitAll(net, ms))
    decreases |ms|
  {
    hide Transmit, Formed, SameControls;
    if ms == [] {
      SameLinks(net, net);
    } else {
      TransmittingOneKeeps(net, ms[0]);
      var n := Transmit(net, ms[0]);
      TransmittingKeeps(n, ms[1..]);
      SameChain(net, n, TransmitAll(n, ms[1..]));
    }
  }

  lemma TransmittingOneKeeps(net: Net, m: Msg)
    requires Formed(net)
    ensures SameControls(net, Transmit(net, m))
  {
    hide RlToLink, Put, SameControls;
    match RlToLink(net, m)
    case None => SameLinks(net, Transmit(net, m));
    case Some(p) => PutKeepsControls(net, p, Get(net, p) + [Stored(p, m)]);
  }

  lemma DrainKeeps(net: Net, p: Place)
    requires Formed(net) && Exists(net, p)
    ensures SameControls(net, Drain(net, p))
  {
    hide TransmitAll, SameControls, Put;
    TransmitKeepsShape(net, Get(net, p));
    var n := TransmitAll(net, Get(net, p));
    TransmittingKeeps(net, Get(net, p));
    PutKeepsControls(n, p, []);
    SameChain(net, n, Put(n, p, []));
  }

  lemma FreeCoKeeps(net: Net, i: nat)
    requires i < |net.links|
    ensures SameControls(net, FreeCo(net, i))
  {
    hide Free, Exists, Get, SameControls;
    LinkListsExist(net, i);
    var n := Free(net, CoTxBuf(i));
    MovingKeeps(net, CoTxBuf(i), CoTxQ(i), None, 0);
    MovingKeeps(n, CoTxQ(i), CoTxBuf(i), None, 0);
    SameChain(net, n, Free(n, CoTxQ(i)));
  }

  lemma SetsChangeover(net: Net, i: nat, c: Changeover)
    requires i < |net.links|
    ensures Moves(net, SetChangeover(net, i, c), i, ControlOf(net.links[i]).(changeover := c))
  {
  }

  lemma MovedLink(a: Net, b: Net, i: nat, c: Control)
    requires i < |a.links| && Moves(a, b, i, c)
    ensures i < |b.links| && ControlOf(b.links[i]) == c
  {
  }

  lemma SameLink(a: Net, b: Net, i: nat)
    requires i < |a.links| && SameControls(a, b)
    ensures i < |b.links| && ControlOf(b.links[i]) == ControlOf(a.links[i])
  {
  }

  lemma CompletingMoves(net: Net, i: nat, ms: seq<Msg>)
    requires Formed(net) && i < |net.links|
    ensures Moves(net, Complete(net, i, ms), i, ControlOf(net.links[i]).(changeover := CHANGEOVER_COMPLETED))
  {
    hide TransmitAll, SetChangeover, FreeCo, Exists, Get, Moves, SameControls, Formed;
    TransmittingKeeps(net, ms);
    TransmitKeepsShape(net, ms);
    var n := TransmitAll(net, ms);
    SameLink(net, n, i);
    SetsChangeover(n, i, CHANGEOVER_COMPLETED);
    var n1 := SetChangeover(n, i, CHANGEOVER_COMPLETED);
    var c := ControlOf(net.links[i]).(changeover := CHANGEOVER_COMPLETED);
    SameThenMoves(net, n, n1, i, c);
    MovedLink(net, n1, i, c);
    FreeCoKeeps(n1, i);
    MovesThenSame(net, n1, FreeCo(n1, i), i, c);
  }

  lemma GatheringKeeps(net: Net, i: nat)
    requires i < |net.links|
    ensures SameControls(net, Gather(net, i).0) && SameControls(net, GatherQueued(net, i).0)
    ensures Formed(net) ==> Formed(Gather(net, i).0) && Formed(GatherQueued(net, i).0)
  {
    hide Extract, Exists, Get, SameControls;
    LinkListsExist(net, i);
    ExtractingKeeps(net, CoTxBuf(i));
    var n := Extract(net, CoTxBuf(i), None).0;
    QueuedKeeps(net, i);
    SameLink(net, n, i);
    QueuedKeeps(n, i);
    SameChain(net, n, GatherQueued(n, i).0);
  }

  lemma QueuedKeeps(net: Net, i: nat)
    requires i < |net.links|
    ensures SameControls(net, GatherQueued(net, i).0) && (Formed(net) ==> Formed(GatherQueued(net, i).0))
  {
    hide Extract, Exists, Get, SameControls;
    LinkListsExist(net, i);
    ExtractingKeeps(net, CoTxQ(i));
    var n := Extract(net, CoTxQ(i), None).0;
    SameLink(net, n, i);
    LinkListsExist(n, i);
    ExtractingKeeps(n, CoBuf(i));
    SameChain(net, n, Extract(n, CoBuf(i), None).0);
  }

  lemma ExtractingKeeps(net: Net, p: Place)
    requires Exists(net, p)
    ensures var n := Extract(net, p, None).0; SameControls(net, n) && (Formed(net) ==> Formed(n))
  {
    MovingKeeps(net, p, p, None, 0);
  }

  lemma WithLinkMoves(net: Net, i: nat, l: Link, gone: seq<Msg>)
    requires i < |net.links|
    ensures Moves(net, WithLink(net, i, l, gone), i, ControlOf(l))
  {
  }

  lemma QuietMoves(net: Net, op: Op)
    requires Formed(net) && Enabled(net, op) && Quiet(op)
    ensures op.i < |net.links| && Moves(net, Step(net, op), op.i, Moved(ControlOf(net.links[op.i]), op))
  {
    hide Relisted, Moved, WithLink, Step, Moves, Freed;
    QuietStep(net, op);
    var l := net.links[op.i];
    RelistedMoves(l, op);
    WithLinkMoves(net, op.i, Relisted(l, op), net.gone + Freed(l, op));
  }

  lemma ChangingOverMoves(net: Net, i: nat, fsn: nat)
    requires Formed(net) && i < |net.links|
    ensures Moves(net, ChangeoverTo(net, i, fsn), i, Moved(ControlOf(net.links[i]), PeerChangeover(i, fsn)))
  {
    hide Acknowledge, Gather, Complete, Exists, Get, Moves, SameControls, Formed, WithLink, LeaveChangeback, Users, Managed;
    var c, l := Back(ControlOf(net.links[i])), Left(net.links[i]);
    WithOwn(net, i);
    BacksLocally(net, i, net.links[i], net.gone);
    WithLinkMoves(net, i, l, net.gone);
    var n := LeaveChangeback(net, i);
    if l.changeover == NO_CHANGEOVER || l.changeover == CHANGEOVER_INITIATED {
      OverMoves(n, i, fsn);
      MovesChain(net, n, ChangeoverTo(net, i, fsn), i, c, c.(changeover := CHANGEOVER_COMPLETED));
    }
  }

  lemma OverMoves(n: Net, i: nat, fsn: nat)
    requires Formed(n) && i < |n.links|
    ensures Exists(n, CoTxBuf(i)) && i < |Acknowledge(n, CoTxBuf(i), fsn).links|
    ensures var (n1, ms) := Gather(Acknowledge(n, CoTxBuf(i), fsn), i);
      && Formed(n1) && i < |n1.links|
      && Moves(n, Complete(n1, i, ms), i, ControlOf(n.links[i]).(changeover := CHANGEOVER_COMPLETED))
  {
    hide Acknowledge, Gather, Complete, Exists, Get, Moves, SameControls, Formed;
    LinkListsExist(n, i);
    MovingKeeps(n, CoTxBuf(i), CoTxQ(i), None, fsn);
    var n1 := Acknowledge(n, CoTxBuf(i), fsn);
    SameLink(n, n1, i);
    GatheringKeeps(n1, i);
    var (n2, ms) := Gather(n1, i);
    SameLink(n1, n2, i);
    CompletingMoves(n2, i, ms);
    var over := ControlOf(n.links[i]).(changeover := CHANGEOVER_COMPLETED);
    SameThenMoves(n1, n2, Complete(n2, i, ms), i, over);
    SameThenMoves(n, n1, Complete(n2, i, ms), i, over);
  }

  lemma DrainingMoves(net: Net, i: nat, c: Changeover, p: Place)
    requires Formed(net) && i < |net.links| && (p == CoBuf(i) || p == CbBuf(i))
    ensures var n := SetChangeover(net, i, c);
      && Formed(n) && Exists(n, p) && |Drain(n, p).links| == |n.links|
      && Moves(net, FreeCo(Drain(n, p), i), i, ControlOf(net.links[i]).(changeover := c))
  {
    hide SetChangeover, Drain, FreeCo, Get, Moves, SameControls;
    SetsChangeover(net, i, c);
    var n := SetChangeover(net, i, c);
    var over := ControlOf(net.links[i]).(changeover := c);
    MovedLink(net, n, i, over);
    DrainKeeps(n, p);
    SameLink(n, Drain(n, p), i);
    KeepsLinks(n, Drain(n, p));
    MovesThenSame(net, n, Drain(n, p), i, over);
    FreeCoKeeps(Drain(n, p), i);
    MovesThenSame(net, Drain(n, p), FreeCo(Drain(n, p), i), i, over);
  }

  lemma KeepsLinks(a: Net, b: Net)
    requires SameControls(a, b)
    ensures |a.links| == |b.links|
  {
  }

  lemma T2Moves(net: Net, i: nat)
    requires Formed(net) && i < |net.links|
    ensures Moves(net, T2Expired(net, i), i, Moved(ControlOf(net.links[i]), ExpireT2(i)))
  {
    hide GatherQueued, Complete, Moves, SameControls, Formed;
    GatheringKeeps(net, i);
    var n := GatherQueued(net, i).0;
    SameLink(net, n, i);
    CompletingMoves(n, i, GatherQueued(net, i).1);
    SameThenMoves(net, n, T2Expired(net, i), i, ControlOf(net.links[i]).(changeover := CHANGEOVER_COMPLETED));
  }

  lemma T5Moves(net: Net, i: nat)
    requires Formed(net) && i < |net.links|
    ensures Moves(net, T5Expired(net, i), i, Moved(ControlOf(net.links[i]), ExpireT5(i)))
  {
    hide SetChangeover, SetCbd, Drain, FreeCo, Moves, WithLink;
    var l := net.links[i].(sentCbd := false);
    WithOwn(net, i);
    SetsLocally(net, i, net.links[i], net.gone, NO_CHANGEOVER, false, l.t4);
    WithLinkMoves(net, i, l, net.gone);
    var n := SetCbd(net, i, false, l.t4);
    DrainingMoves(n, i, NO_CHANGEOVER, CbBuf(i));
    MovesChain(net, n, T5Expired(net, i), i, ControlOf(l), ControlOf(l).(changeover := NO_CHANGEOVER));
  }

  /** The operations that hand messages over. */
  lemma HandingMoves(net: Net, op: Op)
    requires Formed(net) && Enabled(net, op) && !OfTraffic(op) && !Quiet(op)
    ensures op.i < |net.links| && Moves(net, StepChangeover(net, op), op.i, Moved(ControlOf(net.links[op.i]), op))
  {
    hide ChangeoverTo, T2Expired, T5Expired, SetChangeover, Drain, FreeCo, Moves, ControlOf;
    match op
    case PeerChangeover(i, fsn) => ChangingOverMoves(net, i, fsn);
    case ExpireT1(i) => DrainingMoves(net, i, CHANGEOVER_COMPLETED, CoBuf(i));
    case ExpireT2(i) => T2Moves(net, i);
    case ExpireT3(i) => DrainingMoves(net, i, NO_CHANGEOVER, CbBuf(i));
    case ExpireT5(i) => T5Moves(net, i);
  }

  lemma RerouteLinkKeeps(net: Net, i: nat, s: nat, r: nat, free: bool)
    requires i < |net.links| && Exists(net, RouteQ(s, r))
    ensures SameControls(net, RerouteLink(net, i, s, r, free))
  {
    hide Get, Put, Move, Purge, Exists, SameControls;
    LinkListsExist(net, i);
    RouteExists(net, s, r);
    var q := RouteQ(s, r);
    var d := Some(net.sps[s].routes[r].dpc);
    MovingKeeps(net, TxQ(i), q, d, 0);
    var n1 := Move(net, TxQ(i), q, d);
    MovingOnKeeps(net, n1, if free then CoTxQ(i) else CoBuf(i), q, d);
    var n2 := Move(n1, if free then CoTxQ(i) else CoBuf(i), q, d);
    MovingOnKeeps(net, n2, if free then CoBuf(i) else CbBuf(i), q, d);
    var n3 := Move(n2, if free then CoBuf(i) else CbBuf(i), q, d);
    MovingOnKeeps(net, n3, if free then CbBuf(i) else CoTxQ(i), q, d);
    var n4 := Move(n3, if free then CbBuf(i) else CoTxQ(i), q, d);
    MovingOnKeeps(net, n4, TxBuf(i), q, d);
    MovingOnKeeps(net, Purge(n4, TxBuf(i), d), CoTxBuf(i), q, d);
  }

  lemma MovingOnKeeps(a: Net, net: Net, p: Place, q: Place, dpc: Option<nat>)
    requires SameControls(a, net) && Exists(net, p) && Exists(net, q)
    ensures SameControls(a, Move(net, p, q, dpc)) && SameControls(a, Purge(net, p, dpc))
  {
    hide Move, Purge, SameControls, Exists;
    MovingKeeps(net, p, q, dpc, 0);
    SameChain(a, net, Move(net, p, q, dpc));
    SameChain(a, net, Purge(net, p, dpc));
  }

  lemma {:induction false} RerouteKeeps(net: Net, i: nat, s: nat, r: nat, free: bool)
    requires i <= |net.links| && Exists(net, RouteQ(s, r))
    ensures SameControls(net, RerouteFrom(net, i, s, r, free))
    decreases |net.links| - i
  {
    hide RerouteLink, Exists, Get, SameControls;
    SameLinks(net, net);
    if i < |net.links| {
      RerouteLinkKeeps(net, i, s, r, free);
      var n := if net.links[i].sp == s then RerouteLink(net, i, s, r, free) else net;
      LinksStay(net, n);
      RerouteKeeps(n, i + 1, s, r, free);
      SameChain(net, n, RerouteFrom(n, i + 1, s, r, free));
    }
  }

  // ----- routes

  /** What a route is apart from its queue. */
  datatype Standing = Standing(state: RouteState, t6: bool)

  function StandingOf(routes: seq<Route>, dpc: nat): Option<Standing> {
    var r := FindRoute(routes, dpc);
    if r < |routes| then Some(Standing(routes[r].state, routes[r].t6)) else None
  }

  /** An allowed route is not set up; otherwise the route has the new state. T6 runs after a diversion
      under control, stops with a forced one, and a restriction alone leaves it. */
  function SetTo(x: Option<Standing>, state: RouteState, room: bool): Option<Standing> {
    if state == TFA && x.None? then None
    else
      match state
      case TFP => Some(Standing(TFP, false))
      case TFR_NON_ACTIVE => Some(Standing(state, x.Some? && x.value.t6))
      case TFA | TFR_ACTIVE => Some(Standing(state, room))
  }

  /** T6 ends the diversion, and with it a route that is allowed again. */
  function Expired(x: Standing): Option<Standing> {
    if x.state == TFA then None else Some(x.(t6 := false))
  }

  lemma SameStanding(a: seq<Route>, b: seq<Route>, dpc: nat)
    requires SameRoutes(a, b)
    ensures StandingOf(a, dpc) == StandingOf(b, dpc) && FindRoute(a, dpc) == FindRoute(b, dpc)
  {
    hide FindRoute;
  }

  lemma StandingIs(routes: seq<Route>, r: nat, dpc: nat)
    requires Keyed(routes) && r < |routes| && routes[r].dpc == dpc
    ensures FindRoute(routes, dpc) == r && StandingOf(routes, dpc) == Some(Standing(routes[r].state, routes[r].t6))
  {
    hide FindRoute;
  }

  lemma NoStanding(routes: seq<Route>, dpc: nat)
    requires forall r :: 0 <= r < |routes| ==> routes[r].dpc != dpc
    ensures StandingOf(routes, dpc) == None
  {
    hide FindRoute;
  }

  /** The routes of s with route r set to route. */
  function WithRoute(routes: seq<Route>, r: nat, route: Route): seq<Route>
    requires r <= |routes|
  {
    if r < |routes| then routes[r := route] else routes + [route]
  }

  lemma RouteIsSet(routes: seq<Route>, r: nat, route: Route, dpc: nat)
    requires Keyed(routes) && r == FindRoute(routes, route.dpc) && route.dpc < 0x1_0000
    ensures Keyed(WithRoute(routes, r, route))
    ensures StandingOf(WithRoute(routes, r, route), dpc)
      == if dpc == route.dpc then Some(Standing(route.state, route.t6)) else StandingOf(routes, dpc)
  {
    hide FindRoute, StandingOf;
    var now := WithRoute(routes, r, route);
    var x := FindRoute(routes, dpc);
    if dpc == route.dpc {
      StandingIs(now, r, dpc);
    } else if x < |routes| {
      StandingIs(routes, x, dpc);
      assert now[x] == routes[x];
      StandingIs(now, x, dpc);
    } else {
      NoStanding(routes, dpc);
      NoStanding(now, dpc);
    }
  }

  lemma RouteIsRemoved(routes: seq<Route>, r: nat, dpc: nat)
    requires Keyed(routes) && r < |routes|
    ensures Keyed(routes[..r] + routes[r+1..])
    ensures StandingOf(routes[..r] + routes[r+1..], dpc) == if dpc == routes[r].dpc then None else StandingOf(routes, dpc)
  {
    hide FindRoute, StandingOf;
    var now := routes[..r] + routes[r+1..];
    var x := FindRoute(routes, dpc);
    if dpc != routes[r].dpc && x < |routes| {
      StandingIs(routes, x, dpc);
      StandingIs(now, if x < r then x else x - 1, dpc);
    } else {
      if x == |routes| { NoStanding(routes, dpc); }
      NoStanding(now, dpc);
    }
  }

  lemma RerouteSets(a: seq<Route>, r: nat, route: Route, b: seq<Route>, c: seq<Route>, t6: bool, dpc: nat)
    requires Keyed(a) && r == FindRoute(a, route.dpc) && route.dpc < 0x1_0000
    requires SameRoutes(WithRoute(a, r, route), b) && SameRoutes(b[r := b[r].(t6 := t6)], c)
    ensures StandingOf(c, dpc) == if dpc == route.dpc then Some(Standing(route.state, t6)) else StandingOf(a, dpc)
  {
    hide FindRoute, StandingOf, Keyed;
    var set1 := WithRoute(a, r, route);
    RouteIsSet(a, r, route, dpc);
    SameKeys(set1, b);
    SameStanding(set1, b, dpc);
    assert b[r].dpc == set1[r].dpc == route.dpc;
    StandingIs(b, r, route.dpc);
    RouteIsSet(b, r, b[r].(t6 := t6), dpc);
    SameStanding(b[r := b[r].(t6 := t6)], c, dpc);
  }

  lemma SameKeys(a: seq<Route>, b: seq<Route>)
    requires SameRoutes(a, b)
    ensures Keyed(a) ==> Keyed(b)
  {
  }

  /** Links and the other signalling points are left as they are. */
  ghost predicate OnlyRoutesOf(a: Net, b: Net, s: nat) {
    && |a.links| == |b.links| && |a.sps| == |b.sps|
    && (forall j :: 0 <= j < |a.links| ==> ControlOf(b.links[j]) == ControlOf(a.links[j]))
    && (forall x :: 0 <= x < |a.sps| ==> a.sps[x].up == b.sps[x].up)
    && (forall x :: 0 <= x < |a.sps| && x != s ==> SameRoutes(a.sps[x].routes, b.sps[x].routes))
  }

  lemma OnlyThenSame(a: Net, b: Net, c: Net, s: nat)
    requires OnlyRoutesOf(a, b, s) && SameControls(b, c)
    ensures OnlyRoutesOf(a, c, s) && |a.sps| == |b.sps| == |c.sps|
    ensures s < |a.sps| ==> SameRoutes(b.sps[s].routes, c.sps[s].routes)
  {
    hide SameRoutes;
    forall x | 0 <= x < |a.sps| && x != s ensures SameRoutes(a.sps[x].routes, c.sps[x].routes) {
      RoutesChain(a.sps[x].routes, b.sps[x].routes, c.sps[x].routes);
    }
  }

  lemma OnlyThenRoutes(a: Net, b: Net, c: Net, s: nat)
    requires OnlyRoutesOf(a, b, s) && s < |b.sps| && c.links == b.links
    requires c.sps == b.sps[s := b.sps[s].(routes := if s < |c.sps| then c.sps[s].routes else [])]
    ensures OnlyRoutesOf(a, c, s)
  {
    hide SameRoutes;
  }

  lemma OnlyNone(a: Net, s: nat)
    ensures OnlyRoutesOf(a, a, s)
  {
  }

  lemma PutRouteOnly(net: Net, s: nat, r: nat, route: Route)
    requires s < |net.sps| && r <= |net.sps[s].routes|
    ensures var n := PutRoute(net, s, r, route);
      OnlyRoutesOf(net, n, s) && n.sps[s].routes == WithRoute(net.sps[s].routes, r, route)
  {
    hide SameRoutes;
    OnlyNone(net, s);
    OnlyThenRoutes(net, net, PutRoute(net, s, r, route), s);
  }

  lemma SetT6Only(net: Net, s: nat, r: nat, t6: bool)
    requires Exists(net, RouteQ(s, r))
    ensures var n := SetT6(net, s, r, t6); var routes := net.sps[s].routes;
      && OnlyRoutesOf(net, n, s) && Exists(n, RouteQ(s, r))
      && n.sps[s].routes == routes[r := routes[r].(t6 := t6)]
  {
    hide SameRoutes;
    OnlyNone(net, s);
    OnlyThenRoutes(net, net, SetT6(net, s, r, t6), s);
  }

  lemma OnlyChain(a: Net, b: Net, c: Net, s: nat)
    requires OnlyRoutesOf(a, b, s) && OnlyRoutesOf(b, c, s)
    ensures OnlyRoutesOf(a, c, s)
  {
    hide SameRoutes;
    forall x | 0 <= x < |a.sps| && x != s ensures SameRoutes(a.sps[x].routes, c.sps[x].routes) {
      RoutesChain(a.sps[x].routes, b.sps[x].routes, c.sps[x].routes);
    }
  }

  /** Setting a route changes that route alone, and no link. */
  lemma SettingMoves(net: Net, s: nat, pc: nat, state: RouteState, room: bool, dpc: nat)
    requires Formed(net) && s < |net.sps| && Keyed(net.sps[s].routes)
    ensures var n := AddSetRoute(net, s, pc, state, room); var was := StandingOf(net.sps[s].routes, dpc);
      && OnlyRoutesOf(net, n, s)
      && StandingOf(n.sps[s].routes, dpc) == if dpc == ShortCode(pc) then SetTo(was, state, room) else was
  {
    hide FindRoute, RerouteFrom, SetT6, Drain, PutRoute, Formed, Exists, Get, SameControls, OnlyRoutesOf, SameRoutes, Keyed;
    var routes := net.sps[s].routes;
    var code := ShortCode(pc);
    var r := FindRoute(routes, code);
    OnlyNone(net, s);
    if r < |routes| || state != TFA {
      var route := if r < |routes| then routes[r].(state := state) else Route(code, state, false, []);
      var n := PutRoute(net, s, r, route);
      PutRouteOnly(net, s, r, route);
      PutRouteIsThere(net, s, r, route);
      if state == TFR_NON_ACTIVE {
        RouteIsSet(routes, r, route, dpc);
      } else {
        RerouteMoves(net, s, r, route, state == TFP, state != TFP && room, dpc);
      }
    }
  }

  lemma RerouteMoves(net: Net, s: nat, r: nat, route: Route, free: bool, t6: bool, dpc: nat)
    requires Formed(net) && s < |net.sps| && Keyed(net.sps[s].routes)
    requires r == FindRoute(net.sps[s].routes, route.dpc) && route.dpc < 0x1_0000
    ensures var n := PutRoute(net, s, r, route);
      Formed(n) && Exists(n, RouteQ(s, r))
    ensures var n := PutRoute(net, s, r, route);
      var n2 := SetT6(RerouteFrom(n, 0, s, r, free), s, r, t6);
      var d := if free then Drain(n2, RouteQ(s, r)) else n2;
      && OnlyRoutesOf(net, d, s)
      && StandingOf(d.sps[s].routes, dpc)
           == if dpc == route.dpc then Some(Standing(route.state, t6)) else StandingOf(net.sps[s].routes, dpc)
  {
    hide FindRoute, RerouteFrom, SetT6, Drain, PutRoute, Formed, Exists, Get, SameControls, OnlyRoutesOf, SameRoutes,
      Keyed, StandingOf;
    var n := PutRoute(net, s, r, route);
    PutRouteOnly(net, s, r, route);
    PutRouteIsThere(net, s, r, route);
    RerouteKeeps(n, 0, s, r, free);
    var n1 := RerouteFrom(n, 0, s, r, free);
    OnlyThenSame(net, n, n1, s);
    RouteExists(n1, s, r);
    SetT6Only(n1, s, r, t6);
    var n2 := SetT6(n1, s, r, t6);
    OnlyChain(net, n1, n2, s);
    var d := if free then Drain(n2, RouteQ(s, r)) else n2;
    SameLinks(n2, n2);
    if free { DrainKeeps(n2, RouteQ(s, r)); }
    OnlyThenSame(net, n2, d, s);
    RerouteSets(net.sps[s].routes, r, route, n1.sps[s].routes, d.sps[s].routes, t6, dpc);
  }

  lemma DestroyOnly(net: Net, s: nat, r: nat)
    requires Formed(net) && Exists(net, RouteQ(s, r))
    ensures var n := DestroyRoute(net, s, r); var routes := net.sps[s].routes;
      OnlyRoutesOf(net, n, s) && n.sps[s].routes == routes[..r] + routes[r+1..]
  {
    hide SameRoutes;
    OnlyNone(net, s);
    OnlyThenRoutes(net, net, DestroyRoute(net, s, r), s);
  }

  lemma DestroyingMoves(net: Net, s: nat, r: nat, dpc: nat)
    requires Formed(net) && Exists(net, RouteQ(s, r)) && Keyed(net.sps[s].routes)
    ensures var n := DestroyRoute(net, s, r); var routes := net.sps[s].routes;
      && OnlyRoutesOf(net, n, s)
      && StandingOf(n.sps[s].routes, dpc) == if dpc == routes[r].dpc then None else StandingOf(routes, dpc)
  {
    hide Keyed, StandingOf, OnlyRoutesOf, DestroyRoute;
    DestroyOnly(net, s, r);
    RouteIsRemoved(net.sps[s].routes, r, dpc);
  }

  lemma T6Moves(net: Net, s: nat, r: nat, dpc: nat)
    requires Formed(net) && Exists(net, RouteQ(s, r)) && Keyed(net.sps[s].routes)
    ensures var n := T6Expired(net, s, r); var routes := net.sps[s].routes;
      && OnlyRoutesOf(net, n, s)
      && StandingOf(n.sps[s].routes, dpc)
           == if dpc == routes[r].dpc then Expired(Standing(routes[r].state, routes[r].t6)) else StandingOf(routes, dpc)
  {
    hide FindRoute, SetT6, Drain, Formed, Exists, Get, SameControls, OnlyRoutesOf, SameRoutes, Keyed, StandingOf, DestroyRoute;
    RouteExists(net, s, r);
    var routes := net.sps[s].routes;
    var route := routes[r].(t6 := false);
    SetT6Only(net, s, r, false);
    var n1 := SetT6(net, s, r, false);
    DrainKeeps(n1, RouteQ(s, r));
    var n := Drain(n1, RouteQ(s, r));
    OnlyThenSame(net, n1, n, s);
    KeyOf(routes, r);
    RouteIsSet(routes, r, route, dpc);
    SameKeys(WithRoute(routes, r, route), n.sps[s].routes);
    SameStanding(WithRoute(routes, r, route), n.sps[s].routes, dpc);
    if routes[r].state == TFA {
      RouteQKept(n, s, r, WithRoute(routes, r, route));
      DestroyingMoves(n, s, r, dpc);
      OnlyChain(net, n, DestroyRoute(n, s, r), s);
    } else if dpc == routes[r].dpc {
      StandingIs(routes, r, dpc);
    }
  }

  lemma KeyOf(routes: seq<Route>, r: nat)
    requires Keyed(routes) && r < |routes|
    ensures FindRoute(routes, routes[r].dpc) == r && routes[r].dpc < 0x1_0000
  {
    StandingIs(routes, r, routes[r].dpc);
  }

  lemma RouteQKept(n: Net, s: nat, r: nat, routes: seq<Route>)
    requires s < |n.sps| && r < |routes| && SameRoutes(routes, n.sps[s].routes)
    ensures Exists(n, RouteQ(s, r)) && n.sps[s].routes[r].dpc == routes[r].dpc
  {
  }

  // ----- every step and every run

  /** Whether the operation is one of the route for dpc at s. */
  predicate Steers(net: Net, op: Op, s: nat, dpc: nat) {
    match op
    case SetRoute(x, pc, _, _) => x == s && ShortCode(pc) == dpc
    case ExpireT6(x, r) => x == s && Enabled(net, op) && net.sps[x].routes[r].dpc == dpc
    case Destroy(x, r) => x == s && Enabled(net, op) && net.sps[x].routes[r].dpc == dpc
    case _ => false
  }

  /** The standing of a route after an operation on it. */
  function Steered(x: Option<Standing>, op: Op): Option<Standing> {
    match op
    case SetRoute(_, _, state, room) => SetTo(x, state, room)
    case ExpireT6(_, _) => if x.Some? then Expired(x.value) else None
    case _ => None
  }

  lemma EnabledIsPossible(net: Net, op: Op, i: nat)
    requires i < |net.links|
    ensures Concerns(op, i) ==> (Enabled(net, op) <==> Possible(ControlOf(net.links[i]), op))
    ensures OfLinks(op) ==> (Concerns(op, i) <==> op.i == i)
    ensures !OfLinks(op) ==> !Concerns(op, i)
  {
  }

  predicate OfLinks(op: Op) {
    !op.SubmitUser? && !op.SetSp? && !op.SetRoute? && !op.ExpireT6? && !op.Destroy?
  }

  lemma OfLinksMoves(net: Net, op: Op)
    requires Formed(net) && Enabled(net, op) && OfLinks(op)
    ensures op.i < |net.links| && Moves(net, Step(net, op), op.i, Moved(ControlOf(net.links[op.i]), op))
  {
    hide StepChangeover, StepTraffic, Moves, Moved, ControlOf, Enabled;
    if Quiet(op) {
      QuietMoves(net, op);
    } else {
      HandingMoves(net, op);
    }
  }

  lemma LinkMoved(a: Net, b: Net, i: nat, c: Control, j: nat)
    requires j < |a.links| && Moves(a, b, i, c)
    ensures |b.links| == |a.links| && ControlOf(b.links[j]) == if j == i then c else ControlOf(a.links[j])
  {
  }

  lemma KeyedAt(net: Net, s: nat)
    requires KeyedRoutes(net) && s < |net.sps|
    ensures Keyed(net.sps[s].routes)
  {
  }

  lemma SamePoint(a: Net, b: Net, s: nat, dpc: nat)
    requires SamePoints(a, b) && s < |a.sps|
    ensures |b.sps| == |a.sps| && b.sps[s].up == a.sps[s].up
    ensures StandingOf(b.sps[s].routes, dpc) == StandingOf(a.sps[s].routes, dpc)
  {
    hide StandingOf, SameRoutes;
    SameStanding(a.sps[s].routes, b.sps[s].routes, dpc);
  }

  lemma MovesKeepPoints(a: Net, b: Net, i: nat, c: Control)
    requires Moves(a, b, i, c)
    ensures SamePoints(a, b)
  {
  }

  /** Every operation moves each link as the automaton says, and no other part of its state. */
  lemma LinkStep(net: Net, op: Op, i: nat)
    requires Formed(net) && i < |net.links| && KeyedRoutes(net)
    ensures var r := Step(net, op); var c := ControlOf(net.links[i]);
      && |r.links| == |net.links|
      && ControlOf(r.links[i]) == if Concerns(op, i) && Possible(c, op) then Moved(c, op) else c
  {
    hide StepChangeover, StepTraffic, Moves, ControlOf, Moved, Concerns, Possible, KeyedRoutes, Enabled;
    EnabledIsPossible(net, op, i);
    if Enabled(net, op) {
      if OfLinks(op) {
        OfLinksMoves(net, op);
        LinkMoved(net, Step(net, op), op.i, Moved(ControlOf(net.links[op.i]), op), i);
      } else {
        OthersStep(net, op, 0, i, 0);
      }
    }
  }

  /** Users, signalling points and routes: no link moves, and only the route steered changes. */
  lemma OthersStep(net: Net, op: Op, s: nat, i: nat, dpc: nat)
    requires Formed(net) && KeyedRoutes(net) && Enabled(net, op) && !OfLinks(op)
    ensures var r := Step(net, op);
      && |r.links| == |net.links| && |r.sps| == |net.sps|
      && (i < |net.links| ==> ControlOf(r.links[i]) == ControlOf(net.links[i]))
      && (s < |net.sps| ==>
            var was := StandingOf(net.sps[s].routes, dpc);
            && StandingOf(r.sps[s].routes, dpc) == (if Steers(net, op, s, dpc) then Steered(was, op) else was)
            && r.sps[s].up == if op == SetSp(s, true) then true else if op == SetSp(s, false) then false else net.sps[s].up)
  {
    hide SameControls, OnlyRoutesOf, AddSetRoute, T6Expired, DestroyRoute, Keyed, KeyedRoutes, StandingOf, SetTo, Expired,
      Transmit, Get, Exists, ControlOf;
    match op
    case SubmitUser(m) =>
      var n := net.(submitted := net.submitted + [m]);
      SameLinks(net, n);
      TransmittingOneKeeps(n, m);
      SameChain(net, n, Transmit(n, m));
      SameParts(net, Transmit(n, m), s, i, dpc);
    case SetSp(_, _) =>
    case SetRoute(x, pc, state, room) =>
      KeyedAt(net, x);
      SettingMoves(net, x, pc, state, room, dpc);
      OtherParts(net, AddSetRoute(net, x, pc, state, room), x, s, i, dpc);
    case ExpireT6(x, r) =>
      RouteExists(net, x, r);
      KeyedAt(net, x);
      T6Moves(net, x, r, dpc);
      StandingIs(net.sps[x].routes, r, net.sps[x].routes[r].dpc);
      OtherParts(net, T6Expired(net, x, r), x, s, i, dpc);
    case Destroy(x, r) =>
      RouteExists(net, x, r);
      KeyedAt(net, x);
      DestroyingMoves(net, x, r, dpc);
      OtherParts(net, DestroyRoute(net, x, r), x, s, i, dpc);
  }

  lemma SameParts(a: Net, b: Net, s: nat, i: nat, dpc: nat)
    requires SameControls(a, b)
    ensures |b.links| == |a.links| && |b.sps| == |a.sps|
    ensures i < |a.links| ==> ControlOf(b.links[i]) == ControlOf(a.links[i])
    ensures s < |a.sps| ==> b.sps[s].up == a.sps[s].up && StandingOf(b.sps[s].routes, dpc) == StandingOf(a.sps[s].routes, dpc)
  {
    hide StandingOf, SameRoutes;
    if s < |a.sps| { SameStanding(a.sps[s].routes, b.sps[s].routes, dpc); }
  }

  lemma OtherParts(a: Net, b: Net, x: nat, s: nat, i: nat, dpc: nat)
    requires OnlyRoutesOf(a, b, x)
    ensures |b.links| == |a.links| && |b.sps| == |a.sps|
    ensures i < |a.links| ==> ControlOf(b.links[i]) == ControlOf(a.links[i])
    ensures s < |a.sps| ==> b.sps[s].up == a.sps[s].up
    ensures s < |a.sps| && s != x ==> StandingOf(b.sps[s].routes, dpc) == StandingOf(a.sps[s].routes, dpc)
  {
    hide StandingOf, SameRoutes;
    if s < |a.sps| && s != x { SameStanding(a.sps[s].routes, b.sps[s].routes, dpc); }
  }

  /** Every operation changes the route for each point code as the automaton says, and nothing else does;
      a signalling point goes up and down only when that is set. */
  lemma RouteStep(net: Net, op: Op, s: nat, dpc: nat)
    requires Formed(net) && KeyedRoutes(net) && s < |net.sps|
    ensures var r := Step(net, op); var was := StandingOf(net.sps[s].routes, dpc);
      && |r.sps| == |net.sps|
      && StandingOf(r.sps[s].routes, dpc) == (if Steers(net, op, s, dpc) then Steered(was, op) else was)
      && r.sps[s].up == if op == SetSp(s, true) then true else if op == SetSp(s, false) then false else net.sps[s].up
  {
    hide StepChangeover, StepTraffic, StandingOf, Keyed, KeyedRoutes, SetTo, Expired, Moves, ControlOf, SamePoints, Moved;
    if Enabled(net, op) {
      if OfLinks(op) {
        OfLinksMoves(net, op);
        MovesKeepPoints(net, Step(net, op), op.i, Moved(ControlOf(net.links[op.i]), op));
        SamePoint(net, Step(net, op), s, dpc);
      } else {
        OthersStep(net, op, s, 0, dpc);
      }
    }
  }

  /** Over every run a link is where the automaton puts it. */
  lemma {:induction false} LinksFollow(net: Net, ops: seq<Op>, i: nat)
    requires Empty(net) && i < |net.links|
    ensures |Run(net, ops).links| == |net.links|
    ensures ControlOf(Run(net, ops).links[i]) == MovedBy(ControlOf(net.links[i]), i, ops)
    decreases |ops|
  {
    hide Step, ControlOf, Empty, Moved, Concerns, Possible;
    EmptyIsFormed(net);
    if ops != [] {
      LinksFollow(net, ops[..|ops|-1], i);
      EmptyRunsAreKeyed(net, ops[..|ops|-1]);
      LinkStep(Run(net, ops[..|ops|-1]), ops[|ops|-1], i);
    }
  }

  lemma EmptyRunsAreKeyed(net: Net, ops: seq<Op>)
    requires Empty(net)
    ensures Formed(net) && KeyedRoutes(Run(net, ops))
  {
    EmptyIsFormed(net);
    RunsAreProper(net, ops);
  }

  // ----- what the automaton says over runs

  /** A declaration goes out: a tested link returns from a changeover, or T4 repeats it. */
  predicate Declares(c: Control, op: Op) {
    && Possible(c, op)
    && ((op.LinkTested? && c.changeover != NO_CHANGEOVER && !ChangingBack(c))
        || (op.ExpireT4? && op.fate != ChangebackGivenUp))
  }

  /** What ends the wait for its answer. */
  predicate Forgets(op: Op) {
    op.CbdAnswer? || op.Abandon? || op.ExpireT5? || op.Emergency? || op.ForgetCbd?
  }

  predicate GivesUp(c: Control, op: Op) { op.ExpireT4? && op.fate == ChangebackGivenUp && Possible(c, op) }

  /** After the operations before the k-th. */
  function At(c: Control, i: nat, ops: seq<Op>, k: nat): Control
    requires k <= |ops|
  {
    MovedBy(c, i, ops[..k])
  }

  ghost predicate DeclaredAt(c: Control, i: nat, ops: seq<Op>, k: nat) {
    && k < |ops| && Concerns(ops[k], i) && Declares(At(c, i, ops, k), ops[k])
    && forall j :: k < j < |ops| && Concerns(ops[j], i) ==> !Forgets(ops[j]) && !GivesUp(At(c, i, ops, j), ops[j])
  }

  /** Over every run: a declaration is unanswered exactly when a test or T4 sent one and nothing has ended
      the wait for its answer since. */
  lemma {:induction false} UnansweredSince(c: Control, i: nat, ops: seq<Op>)
    requires !c.sentCbd
    ensures MovedBy(c, i, ops).sentCbd <==> exists k: nat :: DeclaredAt(c, i, ops, k)
    decreases |ops|
  {
    hide Concerns, Moved, Possible, Declares, Forgets, GivesUp;
    if ops != [] {
      var n := |ops| - 1;
      var before := ops[..n];
      UnansweredSince(c, i, before);
      CbdMoves(At(c, i, ops, n), ops[n]);
      forall k: nat | k < n ensures ops[..k] == before[..k] {}
      if Concerns(ops[n], i) && Declares(At(c, i, ops, n), ops[n]) {
        assert DeclaredAt(c, i, ops, n);
      } else {
        forall k: nat ensures DeclaredAt(c, i, ops, k) ==> DeclaredAt(c, i, before, k) {}
        if MovedBy(c, i, ops).sentCbd {
          var k: nat :| DeclaredAt(c, i, before, k);
          assert DeclaredAt(c, i, ops, k);
        }
      }
    }
  }

  lemma CbdMoves(c: Control, op: Op)
    ensures Possible(c, op) ==>
      (Moved(c, op).sentCbd <==> Declares(c, op) || (c.sentCbd && !Forgets(op) && !GivesUp(c, op)))
    ensures Declares(c, op) ==> Possible(c, op) && !Forgets(op) && !GivesUp(c, op)
    ensures !Possible(c, op) ==> !Forgets(op) && !GivesUp(c, op)
  {
    hide ReturnMove, TimedMove;
    BackKeeps(c);
    BackKeeps(c.(sentCbd := true, t4 := false));
    BackKeeps(c.(sentCbd := false));
    BackKeeps(c.(sentCbd := false, t4 := false));
  }

  lemma BackKeeps(c: Control)
    ensures Back(c).sentCbd == TimedMove(c).sentCbd == ReturnMove(c).sentCbd == c.sentCbd
  {
  }

  /** The standing of the route for dpc at s after the operations before the k-th. */
  function StandingAt(net: Net, ops: seq<Op>, k: nat, s: nat, dpc: nat): Option<Standing>
    requires Formed(net) && k <= |ops|
  {
    var n := Run(net, ops[..k]);
    if s < |n.sps| then StandingOf(n.sps[s].routes, dpc) else None
  }

  predicate Held(x: Option<Standing>) { x.Some? && x.value.t6 }

  /** The operation, if it steers the route, starts T6: a diversion under control with a slot for the timer,
      of a route that is there or is set up by it. */
  predicate StartsT6(x: Option<Standing>, op: Op) {
    op.SetRoute? && op.room && (op.state == TFR_ACTIVE || (op.state == TFA && x.Some?))
  }

  /** It stops T6: the timer expires, the route is removed, or it is set without starting T6 and not to
      a restriction alone. */
  predicate StopsT6(x: Option<Standing>, op: Op) {
    !StartsT6(x, op) && (op.SetRoute? ==> op.state != TFR_NON_ACTIVE)
  }

  ghost predicate HeldFrom(net: Net, ops: seq<Op>, s: nat, dpc: nat, k: nat)
    requires Formed(net)
  {
    && k < |ops| && Steers(Run(net, ops[..k]), ops[k], s, dpc) && StartsT6(StandingAt(net, ops, k, s, dpc), ops[k])
    && forall j :: k < j < |ops| && Steers(Run(net, ops[..j]), ops[j], s, dpc) ==>
         !StopsT6(StandingAt(net, ops, j, s, dpc), ops[j])
  }

  /** Over every run: T6 of a route runs exactly when a diversion started it and nothing has stopped it since. */
  lemma {:induction false} HeldSince(net: Net, ops: seq<Op>, s: nat, dpc: nat)
    requires Empty(net) && s < |net.sps|
    ensures Formed(net) && |Run(net, ops).sps| == |net.sps|
    ensures Held(StandingOf(Run(net, ops).sps[s].routes, dpc)) <==> exists k: nat :: HeldFrom(net, ops, s, dpc, k)
    decreases |ops|
  {
    hide StandingOf, Empty, Steers, Step, StartsT6, StopsT6, Held, Formed, KeyedRoutes, HeldFrom;
    EmptyRunsAreKeyed(net, []);
    if ops == [] {
      NothingHeld(net, s, dpc);
      NeverHeld(net, s, dpc);
    } else {
      var n := |ops| - 1;
      HeldSince(net, ops[..n], s, dpc);
      EmptyRunsAreKeyed(net, ops[..n]);
      RouteStep(Run(net, ops[..n]), ops[n], s, dpc);
      T6Steps(Run(net, ops[..n]), ops[n], s, dpc);
      HeldOn(net, ops, s, dpc);
    }
  }

  lemma NeverHeld(net: Net, s: nat, dpc: nat)
    requires Formed(net)
    ensures !exists k: nat :: HeldFrom(net, [], s, dpc, k)
  {
  }

  lemma HeldOn(net: Net, ops: seq<Op>, s: nat, dpc: nat)
    requires Formed(net) && ops != []
    ensures var n := |ops| - 1; var op := ops[n]; var x := StandingAt(net, ops, n, s, dpc);
      var steers := Steers(Run(net, ops[..n]), op, s, dpc);
      (exists k: nat :: HeldFrom(net, ops, s, dpc, k)) <==>
        (steers && StartsT6(x, op)) || (!(steers && StopsT6(x, op)) && exists k: nat :: HeldFrom(net, ops[..n], s, dpc, k))
  {
    hide Run, StandingAt, Steers, StartsT6, StopsT6, Formed;
    var n := |ops| - 1;
    var before := ops[..n];
    SamePrefixes(net, ops, s, dpc);
    var op, x := ops[n], StandingAt(net, ops, n, s, dpc);
    if Steers(Run(net, before), op, s, dpc) && StartsT6(x, op) {
      assert HeldFrom(net, ops, s, dpc, n);
    } else {
      forall k: nat ensures HeldFrom(net, ops, s, dpc, k) ==>
          HeldFrom(net, before, s, dpc, k) && !(Steers(Run(net, before), op, s, dpc) && StopsT6(x, op)) {}
      if k: nat :| HeldFrom(net, before, s, dpc, k) && !(Steers(Run(net, before), op, s, dpc) && StopsT6(x, op)) {
        assert HeldFrom(net, ops, s, dpc, k);
      }
    }
  }

  lemma SamePrefixes(net: Net, ops: seq<Op>, s: nat, dpc: nat)
    requires Formed(net) && ops != []
    ensures var n := |ops| - 1; var before := ops[..n];
      forall k: nat :: k <= n ==>
        ops[..k] == before[..k] && StandingAt(net, ops, k, s, dpc) == StandingAt(net, before, k, s, dpc)
  {
    hide Run, StandingOf, Formed;
    forall k: nat | k < |ops| ensures ops[..k] == ops[..|ops|-1][..k] {}
  }

  lemma NothingHeld(net: Net, s: nat, dpc: nat)
    requires Empty(net) && s < |net.sps|
    ensures StandingOf(net.sps[s].routes, dpc) == None && !Held(StandingOf(net.sps[s].routes, dpc))
  {
  }

  lemma T6Steps(net: Net, op: Op, s: nat, dpc: nat)
    requires s < |net.sps|
    ensures var x := StandingOf(net.sps[s].routes, dpc);
      && (Steers(net, op, s, dpc) ==> (Held(Steered(x, op)) <==> StartsT6(x, op) || (Held(x) && !StopsT6(x, op))))
      && (StartsT6(x, op) ==> !StopsT6(x, op))
  {
    hide StandingOf;
  }
}
