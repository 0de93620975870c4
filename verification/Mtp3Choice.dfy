/** Which link a message is sent on: when a link qualifies, which list it then offers, and that over
    every run a message is refused only when no link qualifies. */
module Mtp3Choice {
  import opened Mtp3Spec
  import opened Mtp3Runs
  import opened Mtp3Changeover
  import opened Options

  // ----- one link

  /** The link, its point and its changeover state let it take traffic, to be sent or buffered. */
  predicate Takes(net: Net, i: nat)
    requires Formed(net) && i < |net.links|
  {
    var l := net.links[i];
    l.changeover == CHANGEOVER_IN_PROGRESS || l.changeover == CHANGEBACK_INITIATED
    || (l.up && net.sps[l.sp].up && l.changeover != CHANGEOVER_COMPLETED)
  }

  /** T6 of the route to dpc runs at point s. */
  predicate RouteHeld(net: Net, s: nat, dpc: nat)
    requires s < |net.sps|
  {
    var routes := net.sps[s].routes;
    FindRoute(routes, dpc) < |routes| && routes[FindRoute(routes, dpc)].t6
  }

  /** The link can be given a message for dpc: it takes traffic, and the route is held or open. */
  ghost predicate Qualifies(net: Net, i: nat, dpc: nat)
    requires Formed(net) && i < |net.links|
  {
    Takes(net, i) && (RouteHeld(net, net.links[i].sp, dpc) || RouteOpen(net, net.links[i].sp, dpc))
  }

  ghost predicate NoneQualifies(net: Net, dpc: nat)
    requires Formed(net)
  {
    forall i :: 0 <= i < |net.links| ==> !Qualifies(net, i, dpc)
  }

  /** The list a link that qualifies offers: the queue of a held route, else by its changeover state. */
  function OfferedBy(net: Net, i: nat, dpc: nat): Place
    requires Formed(net) && i < |net.links|
  {
    var l := net.links[i];
    if RouteHeld(net, l.sp, dpc) then RouteQ(l.sp, FindRoute(net.sps[l.sp].routes, dpc))
    else if l.changeover == CHANGEOVER_IN_PROGRESS || l.changeover == CHANGEOVER_INITIATED then CoBuf(i)
    else if l.changeover == CHANGEBACK_INITIATED || l.changeover == CHANGEBACK then CbBuf(i)
    else TxQ(i)
  }

  /** link_available answers for exactly the links that qualify, with the list they offer. */
  lemma OfferIsExact(net: Net, i: nat, dpc: nat)
    requires Formed(net) && i < |net.links|
    ensures LinkAvailable(net, i, dpc) == if Qualifies(net, i, dpc) then Some(OfferedBy(net, i, dpc)) else None
  {
    hide FindRoute;
  }

  /** The three lists of a link, each with its own guard. */
  lemma ListsOffered(net: Net, i: nat, dpc: nat)
    requires Formed(net) && i < |net.links|
    ensures var l := net.links[i]; var ready := l.up && net.sps[l.sp].up; var open := RouteOpen(net, l.sp, dpc);
      && (LinkAvailable(net, i, dpc) == Some(TxQ(i)) <==> ready && l.changeover == NO_CHANGEOVER && open)
      && (LinkAvailable(net, i, dpc) == Some(CoBuf(i)) <==>
            open && (l.changeover == CHANGEOVER_IN_PROGRESS || (ready && l.changeover == CHANGEOVER_INITIATED)))
      && (LinkAvailable(net, i, dpc) == Some(CbBuf(i)) <==>
            open && (l.changeover == CHANGEBACK_INITIATED || (ready && l.changeover == CHANGEBACK)))
  {
    hide FindRoute, LinkAvailable;
    OfferIsExact(net, i, dpc);
  }

  // ----- the choice among links

  /** Link i is the first that qualifies. */
  ghost predicate IsFirst(net: Net, i: nat, dpc: nat)
    requires Formed(net) && i < |net.links|
  {
    Qualifies(net, i, dpc) && forall j :: 0 <= j < i ==> !Qualifies(net, j, dpc)
  }

  lemma {:induction false} SearchIsExact(net: Net, k: nat, dpc: nat)
    requires Formed(net) && k <= |net.links| && forall j :: 0 <= j < k ==> !Qualifies(net, j, dpc)
    ensures FirstAvailable(net, k, dpc) == None <==> NoneQualifies(net, dpc)
    ensures forall i :: 0 <= i < |net.links| && IsFirst(net, i, dpc) ==> FirstAvailable(net, k, dpc) == Some(OfferedBy(net, i, dpc))
    decreases |net.links| - k
  {
    hide LinkAvailable, Qualifies, OfferedBy;
    if k < |net.links| {
      OfferIsExact(net, k, dpc);
      if !Qualifies(net, k, dpc) {
        SearchIsExact(net, k + 1, dpc);
      }
    }
  }

  /** rl_to_link finds no link exactly when none qualifies. Else it takes the one the SLS points to,
      if that one qualifies, and else the first that does. */
  lemma ChoiceIsExact(net: Net, m: Msg)
    requires Formed(net)
    ensures var k := (m.sls / net.divisor) % |net.links|;
      && (RlToLink(net, m) == None <==> NoneQualifies(net, m.dpc))
      && (Qualifies(net, k, m.dpc) ==> RlToLink(net, m) == Some(OfferedBy(net, k, m.dpc)))
      && forall i :: 0 <= i < |net.links| && !Qualifies(net, k, m.dpc) && IsFirst(net, i, m.dpc) ==>
           RlToLink(net, m) == Some(OfferedBy(net, i, m.dpc))
  {
    hide LinkAvailable, Qualifies, OfferedBy, FirstAvailable;
    OfferIsExact(net, (m.sls / net.divisor) % |net.links|, m.dpc);
    SearchIsExact(net, 0, m.dpc);
  }

  /** So a message handed over is refused exactly when no link qualifies for it. */
  lemma {:induction false} RefusedHaveNoLink(net: Net, ms: seq<Msg>, m: Msg)
    requires Formed(net)
    ensures m in Routed(net, ms, None) <==> m in ms && NoneQualifies(net, m.dpc)
  {
    hide RlToLink, NoneQualifies;
    if ms != [] {
      ChoiceIsExact(net, ms[0]);
      RefusedHaveNoLink(net, ms[1..], m);
    }
  }

  /** Over every run, what a user hands over goes to the end of the list its link offers and nowhere
      else, and is refused exactly when no link qualifies. */
  lemma NewTrafficIsTaken(net: Net, ops: seq<Op>, m: Msg)
    requires Formed(net) && m.user && m.size == m.len
    ensures var n, r := Run(net, ops), Run(net, ops + [SubmitUser(m)]);
      && r.refused == n.refused + (if NoneQualifies(n, m.dpc) then [m] else [])
      && r.gone == n.gone
      && forall p :: Exists(n, p) ==>
           Exists(r, p) && Get(r, p) == Get(n, p) + (if RlToLink(n, m) == Some(p) then [Stored(p, m)] else [])
  {
    hide Run, RlToLink, NoneQualifies, Get, Stored, Transmit, Exists;
    var n := Run(net, ops);
    var n1 := n.(submitted := n.submitted + [m]);
    RunAppends(net, ops, SubmitUser(m));
    SubmittedStays(n, m);
    ChoiceIsExact(n, m);
    TransmitRefuses(n1, m);
    forall p | Exists(n, p)
      ensures Exists(Transmit(n1, m), p)
      ensures Get(Transmit(n1, m), p) == Get(n, p) + (if RlToLink(n, m) == Some(p) then [Stored(p, m)] else [])
    {
      SubmittedList(n, m, p);
      TransmitArrives(n1, m, p);
    }
  }

  lemma SubmittedStays(net: Net, m: Msg)
    requires Formed(net)
    ensures var n := net.(submitted := net.submitted + [m]);
      Formed(n) && RlToLink(n, m) == RlToLink(net, m) && n.refused == net.refused && n.gone == net.gone
  {
    hide RlToLink;
    ShapeDecidesLink(net, net.(submitted := net.submitted + [m]), m);
  }

  lemma SubmittedList(net: Net, m: Msg, p: Place)
    requires Exists(net, p)
    ensures var n := net.(submitted := net.submitted + [m]); Exists(n, p) && Get(n, p) == Get(net, p)
  {
  }
}
