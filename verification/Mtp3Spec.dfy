/** MTP3 message buffers: which list a user message is put in, and how changeover, changeback
    and rerouting move messages between the lists of the links and routes. */
module Mtp3Spec {
  import opened Options

  /** A message by its address. len is its MTP2 length; size is what the code stores; user
      tells an ISUP message from a management one; fsn is set when MTP2 sends it. */
  datatype Msg = Msg(id: nat, user: bool, dpc: nat, sls: nat, len: int, size: int, fsn: nat)

  datatype Changeover =
    | NO_CHANGEOVER | CHANGEOVER_INITIATED | CHANGEOVER_IN_PROGRESS | CHANGEOVER_COMPLETED
    | CHANGEBACK_INITIATED | CHANGEBACK

  datatype RouteState = TFP | TFA | TFR_NON_ACTIVE | TFR_ACTIVE

  datatype Route = Route(dpc: nat, state: RouteState, t6: bool, q: seq<Msg>)

  /** sentCbd says that a changeback declaration was sent and not answered; t4 that T4 runs. */
  datatype Link = Link(
    sp: nat, up: bool, changeover: Changeover, sentCbd: bool, t4: bool,
    txQ: seq<Msg>, txBuf: seq<Msg>, coTxQ: seq<Msg>, coTxBuf: seq<Msg>, coBuf: seq<Msg>, cbBuf: seq<Msg>)

  datatype Sp = Sp(up: bool, routes: seq<Route>)

  /** The links and adjacent signalling points; what users handed over, what was freed, and what
      was refused because no link was available. divisor is 2 to the SLS shift. */
  datatype Net = Net(
    links: seq<Link>, sps: seq<Sp>, divisor: nat,
    submitted: seq<Msg>, gone: seq<Msg>, refused: seq<Msg>)

  predicate Formed(net: Net) {
    && |net.links| > 0 && net.divisor > 0
    && forall i :: 0 <= i < |net.links| ==> net.links[i].sp < |net.sps|
  }

  // ----- the lists a message can be in

  datatype Place =
    | TxQ(link: nat) | TxBuf(link: nat) | CoTxQ(link: nat) | CoTxBuf(link: nat)
    | CoBuf(link: nat) | CbBuf(link: nat) | RouteQ(sp: nat, route: nat)

  predicate Exists(net: Net, p: Place) {
    match p
    case RouteQ(s, r) => s < |net.sps| && r < |net.sps[s].routes|
    case _ => p.link < |net.links|
  }

  function ListOf(l: Link, p: Place): seq<Msg>
    requires !p.RouteQ?
  {
    match p
    case TxQ(_) => l.txQ
    case TxBuf(_) => l.txBuf
    case CoTxQ(_) => l.coTxQ
    case CoTxBuf(_) => l.coTxBuf
    case CoBuf(_) => l.coBuf
    case CbBuf(_) => l.cbBuf
  }

  function WithList(l: Link, p: Place, ms: seq<Msg>): (r: Link)
    requires !p.RouteQ?
    ensures forall q: Place :: !q.RouteQ? && q.link == p.link ==> ListOf(r, q) == if p == q then ms else ListOf(l, q)
    ensures r.sp == l.sp && r.up == l.up && r.changeover == l.changeover
  {
    match p
    case TxQ(_) => l.(txQ := ms)
    case TxBuf(_) => l.(txBuf := ms)
    case CoTxQ(_) => l.(coTxQ := ms)
    case CoTxBuf(_) => l.(coTxBuf := ms)
    case CoBuf(_) => l.(coBuf := ms)
    case CbBuf(_) => l.(cbBuf := ms)
  }

  function Get(net: Net, p: Place): seq<Msg>
    requires Exists(net, p)
  {
    if p.RouteQ? then net.sps[p.sp].routes[p.route].q else ListOf(net.links[p.link], p)
  }

  function Put(net: Net, p: Place, ms: seq<Msg>): (r: Net)
    requires Exists(net, p)
    ensures forall q :: Exists(r, q) <==> Exists(net, q)
    ensures forall q :: Exists(net, q) ==> Get(r, q) == if p == q then ms else Get(net, q)
    ensures Formed(net) ==> Formed(r)
  {
    if p.RouteQ? then
      var routes := net.sps[p.sp].routes;
      net.(sps := net.sps[p.sp := net.sps[p.sp].(routes := routes[p.route := routes[p.route].(q := ms)])])
    else net.(links := net.links[p.link := WithList(net.links[p.link], p, ms)])
  }

  /** Lists whose messages mtp2_msu has already counted the CRC for. */
  predicate Counted(p: Place) { p.TxQ? || p.TxBuf? || p.CoTxQ? || p.CoTxBuf? }

  // ----- choosing a list for a user message

  function FindRoute(routes: seq<Route>, dpc: nat): (r: nat)
    ensures r <= |routes|
    ensures r < |routes| ==> routes[r].dpc == dpc
    ensures forall j :: 0 <= j < r ==> routes[j].dpc != dpc
  {
    if routes == [] then 0
    else if routes[0].dpc == dpc then 0
    else 1 + FindRoute(routes[1..], dpc)
  }

  /** link_available: the list link i offers, TxQ standing for handing over to MTP2. */
  function LinkAvailable(net: Net, i: nat, dpc: nat): (p: Option<Place>)
    requires Formed(net) && i < |net.links|
    ensures p.Some? ==> Exists(net, p.value)
  {
    var l := net.links[i];
    if (l.up && net.sps[l.sp].up && l.changeover != CHANGEOVER_COMPLETED)
       || l.changeover == CHANGEOVER_IN_PROGRESS || l.changeover == CHANGEBACK_INITIATED
    then
      var routes := net.sps[l.sp].routes;
      var r := FindRoute(routes, dpc);
      if r < |routes| && routes[r].t6 then Some(RouteQ(l.sp, r))
      else if r < |routes| && routes[r].state != TFR_NON_ACTIVE && routes[r].state != TFA then None
      else
        match l.changeover
        case CHANGEOVER_IN_PROGRESS | CHANGEOVER_INITIATED => Some(CoBuf(i))
        case CHANGEBACK_INITIATED | CHANGEBACK => Some(CbBuf(i))
        case _ => Some(TxQ(i))
    else None
  }

  /** The first link from i on that is available. */
  function FirstAvailable(net: Net, i: nat, dpc: nat): (p: Option<Place>)
    requires Formed(net) && i <= |net.links|
    ensures p.Some? ==> Exists(net, p.value) && exists j :: 0 <= j < |net.links| && LinkAvailable(net, j, dpc) == p
    decreases |net.links| - i
  {
    if i == |net.links| then None
    else if LinkAvailable(net, i, dpc).Some? then LinkAvailable(net, i, dpc)
    else FirstAvailable(net, i + 1, dpc)
  }

  /** rl_to_link: the link the SLS points to, else the first available one. */
  function RlToLink(net: Net, m: Msg): (p: Option<Place>)
    requires Formed(net)
    ensures p.Some? ==> Exists(net, p.value) && exists j :: 0 <= j < |net.links| && LinkAvailable(net, j, m.dpc) == p
  {
    var i := (m.sls / net.divisor) % |net.links|;
    if LinkAvailable(net, i, m.dpc).Some? then LinkAvailable(net, i, m.dpc) else FirstAvailable(net, 0, m.dpc)
  }

  function Stored(p: Place, m: Msg): Msg {
    if p.TxQ? then m.(size := m.size + 2) else m
  }

  /** mtp3_transmit of a user message: queued, buffered, or freed. */
  function Transmit(net: Net, m: Msg): (r: Net)
    requires Formed(net)
    ensures Formed(r)
  {
    match RlToLink(net, m)
    case None => net.(refused := net.refused + [m])
    case Some(p) => Put(net, p, Get(net, p) + [Stored(p, m)])
  }

  function TransmitAll(net: Net, ms: seq<Msg>): (r: Net)
    requires Formed(net)
    ensures Formed(r)
    decreases |ms|
  {
    if ms == [] then net else TransmitAll(Transmit(net, ms[0]), ms[1..])
  }

  // ----- mtp3_move_buffer

  predicate Selected(m: Msg, dpc: Option<nat>) {
    m.user && (dpc.None? || m.dpc == dpc.value)
  }

  function Kept(ms: seq<Msg>, dpc: Option<nat>): seq<Msg> {
    if ms == [] then []
    else (if Selected(ms[0], dpc) then [] else [ms[0]]) + Kept(ms[1..], dpc)
  }

  /** The messages selected, in order, with the CRC allowance taken off if it had been counted. */
  function Taken(ms: seq<Msg>, dpc: Option<nat>, counted: bool): seq<Msg> {
    if ms == [] then []
    else
      (if Selected(ms[0], dpc) then [if counted then ms[0].(size := ms[0].size - 2) else ms[0]] else [])
        + Taken(ms[1..], dpc, counted)
  }

  /** update_txbuf: everything from the newest unit with this FSN on is acknowledged. */
  function Unacked(ms: seq<Msg>, fsn: nat): (r: seq<Msg>)
    ensures r <= ms
  {
    if ms == [] || ms[0].fsn == fsn then [] else [ms[0]] + Unacked(ms[1..], fsn)
  }

  /** The list left behind and the messages taken out. */
  function Extract(net: Net, p: Place, dpc: Option<nat>): (Net, seq<Msg>)
    requires Exists(net, p)
  {
    (Put(net, p, Kept(Get(net, p), dpc)), Taken(Get(net, p), dpc, Counted(p)))
  }

  function Move(net: Net, p: Place, q: Place, dpc: Option<nat>): (r: Net)
    requires Exists(net, p) && Exists(net, q)
    ensures forall x :: Exists(r, x) <==> Exists(net, x)
    ensures Formed(net) ==> Formed(r)
  {
    var (n, ms) := Extract(net, p, dpc);
    Put(n, q, Get(n, q) + ms)
  }

  /** Freed instead of moved. */
  function Purge(net: Net, p: Place, dpc: Option<nat>): (r: Net)
    requires Exists(net, p)
    ensures forall x :: Exists(r, x) <==> Exists(net, x)
    ensures Formed(net) ==> Formed(r)
  {
    var (n, ms) := Extract(net, p, dpc);
    n.(gone := n.gone + ms)
  }

  function Users(ms: seq<Msg>): seq<Msg> {
    if ms == [] then [] else (if ms[0].user then [ms[0]] else []) + Users(ms[1..])
  }

  /** The whole list is freed. */
  function Free(net: Net, p: Place): (r: Net)
    requires Exists(net, p)
    ensures forall x :: Exists(r, x) <==> Exists(net, x)
    ensures Formed(net) ==> Formed(r)
  {
    Put(net, p, []).(gone := net.gone + Users(Get(net, p)))
  }

  // ----- changeover and changeback of link i

  function SetChangeover(net: Net, i: nat, c: Changeover): (r: Net)
    requires i < |net.links|
    ensures forall x :: Exists(r, x) <==> Exists(net, x)
    ensures forall x :: Exists(net, x) ==> Get(r, x) == Get(net, x)
    ensures Formed(net) ==> Formed(r)
  {
    net.(links := net.links[i := net.links[i].(changeover := c)])
  }

  function SetCbd(net: Net, i: nat, sentCbd: bool, t4: bool): (r: Net)
    requires i < |net.links|
    ensures forall x :: Exists(r, x) <==> Exists(net, x)
    ensures forall x :: Exists(net, x) ==> Get(r, x) == Get(net, x)
    ensures Formed(net) ==> Formed(r)
  {
    net.(links := net.links[i := net.links[i].(sentCbd := sentCbd, t4 := t4)])
  }

  function StopT4(net: Net, i: nat): (r: Net)
    requires i < |net.links|
    ensures forall x :: Exists(r, x) <==> Exists(net, x)
    ensures forall x :: Exists(net, x) ==> Get(r, x) == Get(net, x)
    ensures Formed(net) ==> Formed(r)
  {
    SetCbd(net, i, net.links[i].sentCbd, false)
  }

  function FreeCo(net: Net, i: nat): (r: Net)
    requires i < |net.links|
    ensures forall x :: Exists(r, x) <==> Exists(net, x)
    ensures Formed(net) ==> Formed(r)
  {
    Free(Free(net, CoTxBuf(i)), CoTxQ(i))
  }

  /** mtp3_transmit_buffer: every message is transmitted while the list stays as it is; then the
      list is set to empty, whatever it holds by then. */
  function Drain(net: Net, p: Place): (r: Net)
    requires Formed(net) && Exists(net, p)
    ensures Formed(r)
  {
    TransmitKeepsShape(net, Get(net, p));
    Put(TransmitAll(net, Get(net, p)), p, [])
  }

  function CancelChangeover(net: Net, i: nat): (r: Net)
    requires i < |net.links|
    ensures forall x :: Exists(r, x) <==> Exists(net, x)
    ensures Formed(net) ==> Formed(r)
  {
    var n := Move(Move(net, CoTxQ(i), CbBuf(i), None), CoBuf(i), CbBuf(i), None);
    FreeCo(SetChangeover(n, i, NO_CHANGEOVER), i)
  }

  function CancelChangeback(net: Net, i: nat): (r: Net)
    requires i < |net.links|
    ensures forall x :: Exists(r, x) <==> Exists(net, x)
    ensures Formed(net) ==> Formed(r)
  {
    StopT4(SetChangeover(Move(net, CbBuf(i), CoBuf(i), None), i, NO_CHANGEOVER), i)
  }

  /** The first lines of the three changeover operations. */
  function LeaveChangeback(net: Net, i: nat): (r: Net)
    requires i < |net.links|
    ensures forall x :: Exists(r, x) <==> Exists(net, x)
    ensures Formed(net) ==> Formed(r)
  {
    var c := net.links[i].changeover;
    if c == CHANGEBACK || c == CHANGEBACK_INITIATED then CancelChangeback(net, i) else net
  }

  /** One list pointer is overwritten with another, which becomes null; what the first list held
      is freed or leaked. */
  function Hand(net: Net, p: Place, q: Place): (r: Net)
    requires Exists(net, p) && Exists(net, q) && p != q
    ensures forall x :: Exists(r, x) <==> Exists(net, x)
    ensures Formed(net) ==> Formed(r)
  {
    var n := Free(net, q);
    Put(Put(n, q, Get(n, p)), p, [])
  }

  function PrepareChangeover(net: Net, i: nat): (r: Net)
    requires i < |net.links|
    ensures forall x :: Exists(r, x) <==> Exists(net, x)
    ensures Formed(net) ==> Formed(r)
  {
    var n := LeaveChangeback(net, i);
    if n.links[i].changeover == CHANGEOVER_INITIATED then n
    else Hand(Hand(SetChangeover(n, i, CHANGEOVER_INITIATED), TxBuf(i), CoTxBuf(i)), TxQ(i), CoTxQ(i))
  }

  /** update_txbuf on any list: what is acknowledged is freed. */
  function Acknowledge(net: Net, p: Place, fsn: nat): (r: Net)
    requires Exists(net, p)
    ensures forall x :: Exists(r, x) <==> Exists(net, x)
    ensures Formed(net) ==> Formed(r)
  {
    var kept := Unacked(Get(net, p), fsn);
    Put(net, p, kept).(gone := net.gone + Users(Get(net, p)[|kept|..]))
  }

  /** Taking the user messages out of coTxBuf, coTxQ and coBuf, in this order. */
  function Gather(net: Net, i: nat): (Net, seq<Msg>)
    requires i < |net.links|
  {
    var (n1, ms1) := Extract(net, CoTxBuf(i), None);
    var (n2, ms2) := GatherQueued(n1, i);
    (n2, ms1 + ms2)
  }

  function GatherQueued(net: Net, i: nat): (Net, seq<Msg>)
    requires i < |net.links|
  {
    var (n1, ms1) := Extract(net, CoTxQ(i), None);
    var (n2, ms2) := Extract(n1, CoBuf(i), None);
    (n2, ms1 + ms2)
  }

  /** The end of a changeover: the gathered messages are transmitted, the rest is freed. */
  function Complete(net: Net, i: nat, ms: seq<Msg>): (r: Net)
    requires Formed(net) && i < |net.links|
    ensures Formed(r)
  {
    TransmitKeepsShape(net, ms);
    FreeCo(SetChangeover(TransmitAll(net, ms), i, CHANGEOVER_COMPLETED), i)
  }

  /** mtp3_changeover with the FSN the peer last accepted. */
  function ChangeoverTo(net: Net, i: nat, fsn: nat): (r: Net)
    requires Formed(net) && i < |net.links|
    ensures Formed(r)
  {
    var n := LeaveChangeback(net, i);
    if n.links[i].changeover == NO_CHANGEOVER || n.links[i].changeover == CHANGEOVER_INITIATED then
      var (n1, ms) := Gather(Acknowledge(n, CoTxBuf(i), fsn), i);
      Complete(n1, i, ms)
    else n
  }

  function TimedChangeover(net: Net, i: nat): (r: Net)
    requires Formed(net) && i < |net.links|
    ensures Formed(r)
  {
    var n := LeaveChangeback(net, i);
    if n.links[i].changeover == NO_CHANGEOVER then
      FreeCo(Move(SetChangeover(n, i, CHANGEOVER_IN_PROGRESS), TxQ(i), CoBuf(i), None), i)
    else n
  }

  function T1Expired(net: Net, i: nat): (r: Net)
    requires Formed(net) && i < |net.links|
    ensures Formed(r)
  {
    var n := SetChangeover(net, i, CHANGEOVER_COMPLETED);
    TransmitKeepsShape(n, Get(n, CoBuf(i)));
    FreeCo(Drain(n, CoBuf(i)), i)
  }

  function T2Expired(net: Net, i: nat): (r: Net)
    requires Formed(net) && i < |net.links|
    ensures Formed(r)
  {
    var (n, ms) := GatherQueued(net, i);
    Complete(n, i, ms)
  }

  function T3Expired(net: Net, i: nat): (r: Net)
    requires Formed(net) && i < |net.links|
    ensures Formed(r)
  {
    var n := SetChangeover(net, i, NO_CHANGEOVER);
    TransmitKeepsShape(n, Get(n, CbBuf(i)));
    FreeCo(Drain(n, CbBuf(i)), i)
  }

  /** mtp3_changeback of a link that is not inhibited. */
  function Changeback(net: Net, i: nat): (r: Net)
    requires Formed(net) && i < |net.links|
    ensures Formed(r)
  {
    match net.links[i].changeover
    case CHANGEOVER_IN_PROGRESS | CHANGEOVER_INITIATED => CancelChangeover(net, i)
    case CHANGEBACK | NO_CHANGEOVER => net
    case _ => SetChangeover(Move(net, TxQ(i), CbBuf(i), None), i, CHANGEBACK)
  }

  /** What an accepted test acknowledgement does to a link that was changed over: a changeback
      declaration goes out, room saying whether the scheduler had a slot for T4. */
  function StartChangeback(net: Net, i: nat, room: bool): (r: Net)
    requires Formed(net) && i < |net.links|
    ensures Formed(r)
  {
    var c := net.links[i].changeover;
    if c == NO_CHANGEOVER || c == CHANGEBACK || c == CHANGEBACK_INITIATED then net
    else
      var n := SetCbd(net, i, true, net.links[i].t4 || room);
      var n1 := if c == CHANGEOVER_COMPLETED then n else CancelChangeover(n, i);
      SetChangeover(n1, i, CHANGEBACK_INITIATED)
  }

  /** The acknowledgement of the declaration. */
  function CbdAnswered(net: Net, i: nat): (r: Net)
    requires Formed(net) && i < |net.links|
    ensures Formed(r)
  {
    if net.links[i].sentCbd then Changeback(SetCbd(net, i, false, false), i) else net
  }

  /** An emergency changeover order. */
  function EmergencyChangeover(net: Net, i: nat): (r: Net)
    requires Formed(net) && i < |net.links|
    ensures Formed(r)
  {
    TimedChangeover(SetCbd(net, i, false, net.links[i].t4), i)
  }

  /** The end of net_mng_send when no link could take a message and a declaration is unanswered. */
  function AbandonChangeback(net: Net, i: nat): (r: Net)
    requires Formed(net) && i < |net.links|
    ensures Formed(r)
  {
    if net.links[i].sentCbd then CancelChangeback(SetCbd(net, i, false, net.links[i].t4), i) else net
  }

  /** What becomes of a declaration: it is written, or no link can take it and a changeover order
      that waits for its answer is given up instead, or the changeback is. */
  datatype Fate = Written | OrderGivenUp | ChangebackGivenUp

  /** T4 sends the declaration again. */
  function T4Expired(net: Net, i: nat, fate: Fate): (r: Net)
    requires Formed(net) && i < |net.links|
    ensures Formed(r)
  {
    var n := SetCbd(net, i, true, false);
    match fate
    case Written => n
    case OrderGivenUp => TimedChangeover(n, i)
    case ChangebackGivenUp => AbandonChangeback(n, i)
  }

  function T5Expired(net: Net, i: nat): (r: Net)
    requires Formed(net) && i < |net.links|
    ensures Formed(r)
  {
    T3Expired(SetCbd(net, i, false, net.links[i].t4), i)
  }

  /** ss7_check when the linkset goes down: the state is assigned, the lists taken over are freed
      and all timers stopped. */
  function ShutDown(net: Net, i: nat, inhibited: bool): (r: Net)
    requires Formed(net) && i < |net.links|
    ensures Formed(r)
  {
    var c := if inhibited then CHANGEOVER_COMPLETED else NO_CHANGEOVER;
    StopT4(FreeCo(SetChangeover(net, i, c), i), i)
  }

  // ----- routes

  function SetT6(net: Net, s: nat, r: nat, t6: bool): (n: Net)
    requires Exists(net, RouteQ(s, r))
    ensures forall x :: Exists(n, x) <==> Exists(net, x)
    ensures forall x :: Exists(net, x) ==> Get(n, x) == Get(net, x)
    ensures Formed(net) ==> Formed(n)
  {
    var routes := net.sps[s].routes;
    net.(sps := net.sps[s := net.sps[s].(routes := routes[r := routes[r].(t6 := t6)])])
  }

  /** The four moves of mtp3_controlled_reroute on one link, and with free the two more of
      mtp3_forced_reroute. */
  function RerouteLink(net: Net, i: nat, s: nat, r: nat, free: bool): (n: Net)
    requires i < |net.links| && Exists(net, RouteQ(s, r))
    ensures forall x :: Exists(n, x) <==> Exists(net, x)
    ensures Formed(net) ==> Formed(n)
  {
    var q := RouteQ(s, r);
    var d := Some(net.sps[s].routes[r].dpc);
    if free then
      var n := Move(Move(Move(Move(net, TxQ(i), q, d), CoTxQ(i), q, d), CoBuf(i), q, d), CbBuf(i), q, d);
      Purge(Purge(n, TxBuf(i), d), CoTxBuf(i), d)
    else
      Move(Move(Move(Move(net, TxQ(i), q, d), CoBuf(i), q, d), CbBuf(i), q, d), CoTxQ(i), q, d)
  }

  /** The loop over the links of signalling point s, from link i on. */
  function RerouteFrom(net: Net, i: nat, s: nat, r: nat, free: bool): (n: Net)
    requires i <= |net.links| && Exists(net, RouteQ(s, r))
    ensures forall x :: Exists(n, x) <==> Exists(net, x)
    ensures Formed(net) ==> Formed(n)
    decreases |net.links| - i
  {
    if i == |net.links| then net
    else
      var n := if net.links[i].sp == s then RerouteLink(net, i, s, r, free) else net;
      LinksStay(net, n);
      RerouteFrom(n, i + 1, s, r, free)
  }

  function ForcedReroute(net: Net, s: nat, r: nat): (n: Net)
    requires Formed(net) && Exists(net, RouteQ(s, r))
    ensures Formed(n)
  {
    var n := SetT6(RerouteFrom(net, 0, s, r, true), s, r, false);
    Drain(n, RouteQ(s, r))
  }

  /** room says whether the scheduler had a slot for T6. */
  function ControlledReroute(net: Net, s: nat, r: nat, room: bool): (n: Net)
    requires Formed(net) && Exists(net, RouteQ(s, r))
    ensures Formed(n)
  {
    SetT6(RerouteFrom(net, 0, s, r, false), s, r, room)
  }

  function PutRoute(net: Net, s: nat, r: nat, route: Route): Net
    requires s < |net.sps| && r <= |net.sps[s].routes|
  {
    var routes := net.sps[s].routes;
    net.(sps := net.sps[s := net.sps[s].(routes := if r < |routes| then routes[r := route] else routes + [route])])
  }

  /** mtp3_add_set_route takes the point code as an unsigned short. */
  function ShortCode(pc: nat): (dpc: nat)
    ensures dpc < 0x1_0000 && (dpc == pc <==> pc < 0x1_0000)
  {
    pc % 0x1_0000
  }

  function AddSetRoute(net: Net, s: nat, pc: nat, state: RouteState, room: bool): (n: Net)
    requires Formed(net) && s < |net.sps|
    ensures Formed(n)
  {
    var dpc := ShortCode(pc);
    var routes := net.sps[s].routes;
    var r := FindRoute(routes, dpc);
    if r == |routes| && state == TFA then net
    else
      var route := if r < |routes| then routes[r].(state := state) else Route(dpc, state, false, []);
      var n := PutRoute(net, s, r, route);
      if state == TFP then ForcedReroute(n, s, r)
      else if state == TFA || state == TFR_ACTIVE then ControlledReroute(n, s, r, room)
      else n
  }

  function DestroyRoute(net: Net, s: nat, r: nat): (n: Net)
    requires Formed(net) && Exists(net, RouteQ(s, r))
    ensures Formed(n)
  {
    var routes := net.sps[s].routes;
    net.(sps := net.sps[s := net.sps[s].(routes := routes[..r] + routes[r+1..])],
         gone := net.gone + Users(routes[r].q))
  }

  function T6Expired(net: Net, s: nat, r: nat): (n: Net)
    requires Formed(net) && Exists(net, RouteQ(s, r))
    ensures Formed(n)
  {
    var n1 := SetT6(net, s, r, false);
    TransmitKeepsShape(n1, Get(n1, RouteQ(s, r)));
    var n := Drain(n1, RouteQ(s, r));
    if net.sps[s].routes[r].state == TFA then DestroyRoute(n, s, r) else n
  }

  // ----- MTP2 underneath, and the users above

  /** mtp2_transmit moves the first queued message to the head of tx_buf. */
  function MtpSend(net: Net, i: nat, fsn: nat): (r: Net)
    requires Formed(net) && i < |net.links|
    ensures Formed(r)
  {
    var q := Get(net, TxQ(i));
    if q == [] then net
    else Put(Put(net, TxBuf(i), [q[0].(fsn := fsn)] + Get(net, TxBuf(i))), TxQ(i), q[1..])
  }

  function MtpReset(net: Net, i: nat): (r: Net)
    requires Formed(net) && i < |net.links|
    ensures Formed(r)
  {
    Free(Free(net, TxBuf(i)), TxQ(i))
  }

  function Submit(net: Net, m: Msg): (r: Net)
    requires Formed(net)
    ensures Formed(r)
  {
    Transmit(net.(submitted := net.submitted + [m]), m)
  }

  /** A management message goes straight to its link. */
  function SendManagement(net: Net, i: nat, m: Msg): (r: Net)
    requires Formed(net) && i < |net.links|
    ensures Formed(r)
  {
    Put(net, TxQ(i), Get(net, TxQ(i)) + [m.(size := m.size + 2)])
  }

  // ----- what moving and transmitting leave alone

  /** The parts link_available looks at. */
  ghost predicate SameShape(a: Net, b: Net) {
    && |a.links| == |b.links| && |a.sps| == |b.sps| && a.divisor == b.divisor
    && (forall i :: 0 <= i < |a.links| ==>
          a.links[i].sp == b.links[i].sp && a.links[i].up == b.links[i].up && a.links[i].changeover == b.links[i].changeover)
    && (forall s :: 0 <= s < |a.sps| ==> a.sps[s].up == b.sps[s].up && |a.sps[s].routes| == |b.sps[s].routes|)
    && (forall s, r :: 0 <= s < |a.sps| && 0 <= r < |a.sps[s].routes| ==>
          var x, y := a.sps[s].routes[r], b.sps[s].routes[r];
          x.dpc == y.dpc && x.state == y.state && x.t6 == y.t6)
  }

  lemma PutKeepsShape(net: Net, p: Place, ms: seq<Msg>)
    requires Exists(net, p)
    ensures SameShape(net, Put(net, p, ms))
  {
  }

  lemma ShapeIsTransitive(a: Net, b: Net, c: Net)
    requires SameShape(a, b) && SameShape(b, c)
    ensures SameShape(a, c)
  {
  }

  lemma ShapeKeepsExistence(a: Net, b: Net)
    requires SameShape(a, b)
    ensures forall p :: Exists(a, p) <==> Exists(b, p)
    ensures Formed(a) <==> Formed(b)
  {
  }

  lemma {:induction false} TransmitKeepsShape(net: Net, ms: seq<Msg>)
    requires Formed(net)
    ensures SameShape(net, TransmitAll(net, ms))
    ensures forall p :: Exists(TransmitAll(net, ms), p) <==> Exists(net, p)
    decreases |ms|
  {
    if ms != [] {
      var n := Transmit(net, ms[0]);
      TransmitOneKeepsShape(net, ms[0]);
      TransmitKeepsShape(n, ms[1..]);
      ShapeIsTransitive(net, n, TransmitAll(n, ms[1..]));
      ShapeKeepsExistence(net, TransmitAll(net, ms));
    }
  }

  lemma TransmitOneKeepsShape(net: Net, m: Msg)
    requires Formed(net)
    ensures SameShape(net, Transmit(net, m))
  {
    match RlToLink(net, m)
    case None =>
    case Some(p) => PutKeepsShape(net, p, Get(net, p) + [Stored(p, m)]);
  }

  lemma LinksStay(a: Net, b: Net)
    requires forall p :: Exists(b, p) <==> Exists(a, p)
    ensures |a.links| == |b.links|
  {
    assert forall i: nat :: Exists(a, TxQ(i)) <==> Exists(b, TxQ(i));
    if |a.links| < |b.links| { assert Exists(b, TxQ(|a.links|)); }
    if |b.links| < |a.links| { assert Exists(a, TxQ(|b.links|)); }
  }

  lemma LinkListsExist(net: Net, i: nat)
    requires i < |net.links|
    ensures Exists(net, TxQ(i)) && Exists(net, TxBuf(i)) && Exists(net, CoTxQ(i)) && Exists(net, CoTxBuf(i))
    ensures Exists(net, CoBuf(i)) && Exists(net, CbBuf(i))
  {
  }

  lemma RouteExists(net: Net, s: nat, r: nat)
    requires Exists(net, RouteQ(s, r))
    ensures s < |net.sps| && r < |net.sps[s].routes|
  {
  }
}
