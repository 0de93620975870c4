/** Conservation: every user message is in exactly one list, or freed, or refused, over every
    run of transmissions, changeovers, changebacks and reroutes. */
module Mtp3Conservation {
  import opened Mtp3Spec
  import opened Options

  // ----- how often a list, a link, everything holds the user message at address k

  function Count(ms: seq<Msg>, k: nat): nat {
    if ms == [] then 0 else (if ms[0].user && ms[0].id == k then 1 else 0) + Count(ms[1..], k)
  }

  function CountLink(l: Link, k: nat): nat {
    Count(l.txQ, k) + Count(l.txBuf, k) + Count(l.coTxQ, k) + Count(l.coTxBuf, k) + Count(l.coBuf, k) + Count(l.cbBuf, k)
  }

  function CountLinks(ls: seq<Link>, k: nat): nat {
    if ls == [] then 0 else CountLink(ls[0], k) + CountLinks(ls[1..], k)
  }

  function CountRoutes(rs: seq<Route>, k: nat): nat {
    if rs == [] then 0 else Count(rs[0].q, k) + CountRoutes(rs[1..], k)
  }

  function CountSps(ss: seq<Sp>, k: nat): nat {
    if ss == [] then 0 else CountRoutes(ss[0].routes, k) + CountSps(ss[1..], k)
  }

  /** In the lists, freed, or refused. */
  function Weight(net: Net, k: nat): nat {
    CountLinks(net.links, k) + CountSps(net.sps, k) + Count(net.gone, k) + Count(net.refused, k)
  }

  // ----- sums

  lemma {:induction false} CountAppend(a: seq<Msg>, b: seq<Msg>, k: nat)
    ensures Count(a + b, k) == Count(a, k) + Count(b, k)
  {
    if a == [] {
      assert a + b == b;
    } else {
      CountAppend(a[1..], b, k);
      assert (a + b)[1..] == a[1..] + b;
    }
  }

  lemma CountCons(m: Msg, ms: seq<Msg>, k: nat)
    ensures Count([m] + ms, k) == (if m.user && m.id == k then 1 else 0) + Count(ms, k)
  {
    assert ([m] + ms)[1..] == ms;
  }

  /** Every message is kept or taken, none twice. */
  lemma {:induction false} CountSplit(ms: seq<Msg>, dpc: Option<nat>, counted: bool, k: nat)
    ensures Count(ms, k) == Count(Kept(ms, dpc), k) + Count(Taken(ms, dpc, counted), k)
  {
    if ms != [] {
      CountSplit(ms[1..], dpc, counted, k);
      if Selected(ms[0], dpc) {
        var m := if counted then ms[0].(size := ms[0].size - 2) else ms[0];
        CountCons(m, Taken(ms[1..], dpc, counted), k);
        assert Kept(ms, dpc) == Kept(ms[1..], dpc);
      } else {
        CountCons(ms[0], Kept(ms[1..], dpc), k);
        assert Taken(ms, dpc, counted) == Taken(ms[1..], dpc, counted);
      }
    }
  }

  lemma {:induction false} CountUsers(ms: seq<Msg>, k: nat)
    ensures Count(Users(ms), k) == Count(ms, k)
  {
    if ms != [] {
      CountUsers(ms[1..], k);
      if ms[0].user {
        CountCons(ms[0], Users(ms[1..]), k);
      } else {
        assert Users(ms) == Users(ms[1..]);
      }
    }
  }

  lemma {:induction false} CountLinksUpdate(ls: seq<Link>, i: nat, l: Link, k: nat)
    requires i < |ls|
    ensures CountLinks(ls[i := l], k) + CountLink(ls[i], k) == CountLinks(ls, k) + CountLink(l, k)
  {
    if i > 0 {
      CountLinksUpdate(ls[1..], i - 1, l, k);
      assert ls[i := l][1..] == ls[1..][i - 1 := l];
    } else {
      assert ls[i := l][1..] == ls[1..];
    }
  }

  lemma {:induction false} CountRoutesUpdate(rs: seq<Route>, i: nat, r: Route, k: nat)
    requires i < |rs|
    ensures CountRoutes(rs[i := r], k) + Count(rs[i].q, k) == CountRoutes(rs, k) + Count(r.q, k)
  {
    if i > 0 {
      CountRoutesUpdate(rs[1..], i - 1, r, k);
      assert rs[i := r][1..] == rs[1..][i - 1 := r];
    } else {
      assert rs[i := r][1..] == rs[1..];
    }
  }

  lemma {:induction false} CountSpsUpdate(ss: seq<Sp>, i: nat, s: Sp, k: nat)
    requires i < |ss|
    ensures CountSps(ss[i := s], k) + CountRoutes(ss[i].routes, k) == CountSps(ss, k) + CountRoutes(s.routes, k)
  {
    if i > 0 {
      CountSpsUpdate(ss[1..], i - 1, s, k);
      assert ss[i := s][1..] == ss[1..][i - 1 := s];
    } else {
      assert ss[i := s][1..] == ss[1..];
    }
  }

  /** Replacing one list changes the sum by the difference of the two lists. */
  lemma PutWeight(net: Net, p: Place, ms: seq<Msg>, k: nat)
    requires Exists(net, p)
    ensures Weight(Put(net, p, ms), k) + Count(Get(net, p), k) == Weight(net, k) + Count(ms, k)
    ensures Put(net, p, ms).submitted == net.submitted
    ensures Put(net, p, ms).gone == net.gone && Put(net, p, ms).refused == net.refused
  {
    if p.RouteQ? {
      var s, r := p.sp, p.route;
      var routes := net.sps[s].routes;
      var routes' := routes[r := routes[r].(q := ms)];
      CountRoutesUpdate(routes, r, routes[r].(q := ms), k);
      CountSpsUpdate(net.sps, s, net.sps[s].(routes := routes'), k);
    } else {
      CountLinksUpdate(net.links, p.link, Put(net, p, ms).links[p.link], k);
    }
  }

  lemma ExtractWeight(net: Net, p: Place, dpc: Option<nat>, k: nat)
    requires Exists(net, p)
    ensures var (n, ms) := Extract(net, p, dpc);
      && Weight(n, k) + Count(ms, k) == Weight(net, k)
      && n.submitted == net.submitted && n.gone == net.gone
  {
    CountSplit(Get(net, p), dpc, Counted(p), k);
    PutWeight(net, p, Kept(Get(net, p), dpc), k);
  }

  lemma MoveWeight(net: Net, p: Place, q: Place, dpc: Option<nat>, k: nat)
    requires Exists(net, p) && Exists(net, q)
    ensures Weight(Move(net, p, q, dpc), k) == Weight(net, k) && Move(net, p, q, dpc).submitted == net.submitted
  {
    var (n, ms) := Extract(net, p, dpc);
    ExtractWeight(net, p, dpc, k);
    CountAppend(Get(n, q), ms, k);
    PutWeight(n, q, Get(n, q) + ms, k);
  }

  lemma PurgeWeight(net: Net, p: Place, dpc: Option<nat>, k: nat)
    requires Exists(net, p)
    ensures Weight(Purge(net, p, dpc), k) == Weight(net, k) && Purge(net, p, dpc).submitted == net.submitted
  {
    var (n, ms) := Extract(net, p, dpc);
    ExtractWeight(net, p, dpc, k);
    CountAppend(n.gone, ms, k);
  }

  lemma FreeWeight(net: Net, p: Place, k: nat)
    requires Exists(net, p)
    ensures Weight(Free(net, p), k) == Weight(net, k) && Free(net, p).submitted == net.submitted
  {
    PutWeight(net, p, [], k);
    CountUsers(Get(net, p), k);
    CountAppend(net.gone, Users(Get(net, p)), k);
  }

  lemma AcknowledgeWeight(net: Net, p: Place, fsn: nat, k: nat)
    requires Exists(net, p)
    ensures Weight(Acknowledge(net, p, fsn), k) == Weight(net, k)
    ensures Acknowledge(net, p, fsn).submitted == net.submitted
  {
    var ms := Get(net, p);
    var kept := Unacked(ms, fsn);
    PutWeight(net, p, kept, k);
    CountUsers(ms[|kept|..], k);
    CountAppend(net.gone, Users(ms[|kept|..]), k);
    CountAppend(kept, ms[|kept|..], k);
    assert ms == kept + ms[|kept|..];
  }

  lemma HandWeight(net: Net, p: Place, q: Place, k: nat)
    requires Exists(net, p) && Exists(net, q) && p != q
    ensures Weight(Hand(net, p, q), k) == Weight(net, k) && Hand(net, p, q).submitted == net.submitted
  {
    var n := Free(net, q);
    FreeWeight(net, q, k);
    PutWeight(n, q, Get(n, p), k);
    PutWeight(Put(n, q, Get(n, p)), p, [], k);
  }

  // ----- transmitting

  /** One message more in the lists or refused. */
  lemma TransmitWeight(net: Net, m: Msg, k: nat)
    requires Formed(net)
    ensures Weight(Transmit(net, m), k) == Weight(net, k) + Count([m], k)
    ensures Transmit(net, m).submitted == net.submitted
  {
    match RlToLink(net, m)
    case None =>
      CountAppend(net.refused, [m], k);
    case Some(p) =>
      assert Count([Stored(p, m)], k) == Count([m], k);
      CountAppend(Get(net, p), [Stored(p, m)], k);
      PutWeight(net, p, Get(net, p) + [Stored(p, m)], k);
  }

  lemma {:induction false} TransmitAllWeight(net: Net, ms: seq<Msg>, k: nat)
    requires Formed(net)
    ensures Weight(TransmitAll(net, ms), k) == Weight(net, k) + Count(ms, k)
    ensures TransmitAll(net, ms).submitted == net.submitted
    decreases |ms|
  {
    if ms != [] {
      TransmitWeight(net, ms[0], k);
      TransmitAllWeight(Transmit(net, ms[0]), ms[1..], k);
      assert Count([ms[0]], k) + Count(ms[1..], k) == Count(ms, k) by {
        CountAppend([ms[0]], ms[1..], k);
        assert ms == [ms[0]] + ms[1..];
      }
    }
  }

  /** No link offers this list for any destination. */
  ghost predicate NotOffered(net: Net, p: Place)
    requires Formed(net)
  {
    forall i, dpc :: 0 <= i < |net.links| ==> LinkAvailable(net, i, dpc) != Some(p)
  }

  lemma {:induction false} SameFindRoute(a: seq<Route>, b: seq<Route>, dpc: nat)
    requires |a| == |b| && forall r :: 0 <= r < |a| ==> a[r].dpc == b[r].dpc
    ensures FindRoute(a, dpc) == FindRoute(b, dpc)
  {
    if a != [] {
      SameFindRoute(a[1..], b[1..], dpc);
    }
  }

  lemma ShapeDecides(a: Net, b: Net, i: nat, dpc: nat)
    requires SameShape(a, b) && Formed(a) && Formed(b) && i < |a.links|
    ensures LinkAvailable(a, i, dpc) == LinkAvailable(b, i, dpc)
  {
    var s := a.links[i].sp;
    SameFindRoute(a.sps[s].routes, b.sps[s].routes, dpc);
  }

  lemma ShapeKeepsOffers(a: Net, b: Net, p: Place)
    requires SameShape(a, b) && Formed(a) && Formed(b) && NotOffered(a, p)
    ensures NotOffered(b, p)
  {
    forall i, dpc | 0 <= i < |b.links| ensures LinkAvailable(b, i, dpc) != Some(p) {
      ShapeDecides(a, b, i, dpc);
      assert LinkAvailable(a, i, dpc) != Some(p);
    }
  }

  /** Transmitting does not append to a list that is not offered. */
  lemma {:induction false} TransmitSpares(net: Net, ms: seq<Msg>, p: Place)
    requires Formed(net) && Exists(net, p) && NotOffered(net, p)
    ensures Exists(TransmitAll(net, ms), p) && Get(TransmitAll(net, ms), p) == Get(net, p)
    decreases |ms|
  {
    if ms != [] {
      var n := Transmit(net, ms[0]);
      TransmitOneKeepsShape(net, ms[0]);
      ShapeKeepsExistence(net, n);
      ShapeKeepsOffers(net, n, p);
      TransmitSpares(n, ms[1..], p);
    }
  }

  /** Draining a list that is not offered loses nothing. */
  lemma DrainWeight(net: Net, p: Place, k: nat)
    requires Formed(net) && Exists(net, p) && NotOffered(net, p)
    ensures Weight(Drain(net, p), k) == Weight(net, k) && Drain(net, p).submitted == net.submitted
  {
    var ms := Get(net, p);
    TransmitAllWeight(net, ms, k);
    TransmitSpares(net, ms, p);
    PutWeight(TransmitAll(net, ms), p, [], k);
  }

  // ----- the four callers of mtp3_transmit_buffer

  /** While T1 expires the link is changed over, so its changeover buffer is not offered. */
  lemma CoBufNotOffered(net: Net, i: nat)
    requires Formed(net) && i < |net.links| && net.links[i].changeover == CHANGEOVER_COMPLETED
    ensures NotOffered(net, CoBuf(i))
  {
  }

  lemma CbBufNotOffered(net: Net, i: nat)
    requires Formed(net) && i < |net.links| && net.links[i].changeover == NO_CHANGEOVER
    ensures NotOffered(net, CbBuf(i))
  {
  }

  /** The queue of a route whose T6 does not run is not offered. */
  lemma RouteQNotOffered(net: Net, s: nat, r: nat)
    requires Formed(net) && Exists(net, RouteQ(s, r)) && !net.sps[s].routes[r].t6
    ensures NotOffered(net, RouteQ(s, r))
  {
  }
}
