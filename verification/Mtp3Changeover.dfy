/** What a changeover hands over, in which order it arrives, and what it frees. */
module Mtp3Changeover {
  import opened Mtp3Spec
  import opened Mtp3Conservation
  import opened Options

  // ----- where transmitted messages arrive

  /** The messages among ms that the routing label sends to list p, as they are stored. */
  function Routed(net: Net, ms: seq<Msg>, p: Option<Place>): seq<Msg>
    requires Formed(net)
  {
    if ms == [] then []
    else
      (if RlToLink(net, ms[0]) == p then [if p.Some? then Stored(p.value, ms[0]) else ms[0]] else [])
        + Routed(net, ms[1..], p)
  }

  lemma {:induction false} ShapeDecidesFirst(a: Net, b: Net, i: nat, dpc: nat)
    requires SameShape(a, b) && Formed(a) && Formed(b) && i <= |a.links|
    ensures FirstAvailable(a, i, dpc) == FirstAvailable(b, i, dpc)
    decreases |a.links| - i
  {
    if i < |a.links| {
      ShapeDecides(a, b, i, dpc);
      ShapeDecidesFirst(a, b, i + 1, dpc);
    }
  }

  lemma ShapeDecidesLink(a: Net, b: Net, m: Msg)
    requires SameShape(a, b) && Formed(a) && Formed(b)
    ensures RlToLink(a, m) == RlToLink(b, m)
  {
    ShapeDecides(a, b, (m.sls / a.divisor) % |a.links|, m.dpc);
    ShapeDecidesFirst(a, b, 0, m.dpc);
  }

  lemma {:induction false} ShapeDecidesRouted(a: Net, b: Net, ms: seq<Msg>, p: Option<Place>)
    requires SameShape(a, b) && Formed(a) && Formed(b)
    ensures Routed(a, ms, p) == Routed(b, ms, p)
  {
    if ms != [] {
      ShapeDecidesLink(a, b, ms[0]);
      ShapeDecidesRouted(a, b, ms[1..], p);
    }
  }

  lemma Associate(a: seq<Msg>, b: seq<Msg>, c: seq<Msg>)
    ensures a + b + c == a + (b + c)
  {
  }

  /** Handing over a sequence of messages appends to every list exactly the messages routed
      there, in their order. */
  lemma {:induction false} TransmitAllArrives(net: Net, ms: seq<Msg>, p: Place)
    requires Formed(net) && Exists(net, p)
    ensures Exists(TransmitAll(net, ms), p)
    ensures Get(TransmitAll(net, ms), p) == Get(net, p) + Routed(net, ms, Some(p))
    decreases |ms|
  {
    hide RlToLink, Transmit, SameShape, Get, Exists;
    if ms != [] {
      var n := Transmit(net, ms[0]);
      var first := if RlToLink(net, ms[0]) == Some(p) then [Stored(p, ms[0])] else [];
      TransmitOneKeepsShape(net, ms[0]);
      ShapeKeepsExistence(net, n);
      TransmitArrives(net, ms[0], p);
      TransmitAllArrives(n, ms[1..], p);
      ShapeDecidesRouted(net, n, ms[1..], Some(p));
      assert Routed(net, ms, Some(p)) == first + Routed(net, ms[1..], Some(p));
      Associate(Get(net, p), first, Routed(net, ms[1..], Some(p)));
    }
  }

  /** It frees nothing and refuses exactly the messages without a link. */
  lemma {:induction false} TransmitAllRefuses(net: Net, ms: seq<Msg>)
    requires Formed(net)
    ensures TransmitAll(net, ms).refused == net.refused + Routed(net, ms, None)
    ensures TransmitAll(net, ms).gone == net.gone
    decreases |ms|
  {
    hide RlToLink, Transmit, SameShape, Formed, Stored;
    if ms != [] {
      var n := Transmit(net, ms[0]);
      TransmitRefuses(net, ms[0]);
      var first := if RlToLink(net, ms[0]) == None then [ms[0]] else [];
      TransmitOneKeepsShape(net, ms[0]);
      TransmitAllRefuses(n, ms[1..]);
      ShapeDecidesRouted(net, n, ms[1..], None);
      assert Routed(net, ms, None) == first + Routed(net, ms[1..], None);
      Associate(net.refused, first, Routed(net, ms[1..], None));
    }
  }

  lemma TransmitRefuses(net: Net, m: Msg)
    requires Formed(net)
    ensures Transmit(net, m).refused == net.refused + (if RlToLink(net, m) == None then [m] else [])
    ensures Transmit(net, m).gone == net.gone
  {
  }

  lemma TransmitArrives(net: Net, m: Msg, p: Place)
    requires Formed(net) && Exists(net, p)
    ensures var r := Transmit(net, m); var q := RlToLink(net, m);
      && Exists(r, p)
      && Get(r, p) == Get(net, p) + (if q == Some(p) then [Stored(p, m)] else [])
  {
  }

  // ----- what a changeover gathers

  function Trimmed(ms: seq<Msg>): seq<Msg> {
    if ms == [] then [] else [ms[0].(size := ms[0].size - 2)] + Trimmed(ms[1..])
  }

  lemma {:induction false} TakenAreUsers(ms: seq<Msg>)
    ensures Taken(ms, None, true) == Trimmed(Users(ms)) && Taken(ms, None, false) == Users(ms)
    ensures Users(Kept(ms, None)) == []
  {
    if ms != [] {
      TakenAreUsers(ms[1..]);
      if ms[0].user {
        assert Users(ms) == [ms[0]] + Users(ms[1..]);
        assert Kept(ms, None) == Kept(ms[1..], None);
      } else {
        assert Users(ms) == Users(ms[1..]);
        assert Kept(ms, None) == [ms[0]] + Kept(ms[1..], None);
      }
    }
  }

  /** c is made of a and b, each in its own order. */
  ghost predicate Interleaved(a: seq<Msg>, b: seq<Msg>, c: seq<Msg>)
    decreases |c|
  {
    if c == [] then a == [] && b == [] else FromFirst(a, b, c) || FromSecond(a, b, c)
  }

  ghost predicate FromFirst(a: seq<Msg>, b: seq<Msg>, c: seq<Msg>)
    requires c != []
    decreases |c|, 0
  {
    a != [] && a[0] == c[0] && Interleaved(a[1..], b, c[1..])
  }

  ghost predicate FromSecond(a: seq<Msg>, b: seq<Msg>, c: seq<Msg>)
    requires c != []
    decreases |c|, 0
  {
    b != [] && b[0] == c[0] && Interleaved(a, b[1..], c[1..])
  }

  /** mtp3_move_buffer is a stable partition: what stays and what goes make up the list, each in
      the order it had, and exactly the selected messages go. */
  lemma {:induction false} PartitionIsStable(ms: seq<Msg>, dpc: Option<nat>)
    ensures Interleaved(Kept(ms, dpc), Taken(ms, dpc, false), ms)
    ensures forall m :: m in Kept(ms, dpc) ==> !Selected(m, dpc)
    ensures forall m :: m in Taken(ms, dpc, false) ==> Selected(m, dpc)
  {
    hide Selected;
    if ms != [] {
      PartitionIsStable(ms[1..], dpc);
      if Selected(ms[0], dpc) {
        assert Kept(ms, dpc) == Kept(ms[1..], dpc);
        assert Taken(ms, dpc, false)[1..] == Taken(ms[1..], dpc, false);
        assert FromSecond(Kept(ms, dpc), Taken(ms, dpc, false), ms);
      } else {
        assert Kept(ms, dpc)[1..] == Kept(ms[1..], dpc);
        assert Taken(ms, dpc, false) == Taken(ms[1..], dpc, false);
        assert FromFirst(Kept(ms, dpc), Taken(ms, dpc, false), ms);
      }
    }
  }

  /** The CRC is taken off each message that goes, and nothing else. */
  lemma {:induction false} TakenAreTrimmed(ms: seq<Msg>, dpc: Option<nat>)
    ensures Taken(ms, dpc, true) == Trimmed(Taken(ms, dpc, false))
  {
    hide Selected;
    if ms != [] {
      TakenAreTrimmed(ms[1..], dpc);
      if Selected(ms[0], dpc) {
        assert Taken(ms, dpc, false) == [ms[0]] + Taken(ms[1..], dpc, false);
        assert Taken(ms, dpc, false)[1..] == Taken(ms[1..], dpc, false);
      } else {
        assert Taken(ms, dpc, false) == Taken(ms[1..], dpc, false);
        assert Taken(ms, dpc, true) == Taken(ms[1..], dpc, true);
      }
    }
  }

  /** Unacknowledged units newest first as they lie, then the unsent ones and the newly buffered
      ones, both in order; all without the CRC allowance. */
  function HandedOver(l: Link, fsn: nat): seq<Msg> {
    Trimmed(Users(Unacked(l.coTxBuf, fsn))) + Trimmed(Users(l.coTxQ)) + Users(l.coBuf)
  }

  /** As handed over, but the unacknowledged units oldest first: the order in which they were sent. */
  function InSendingOrder(l: Link, fsn: nat): seq<Msg> {
    Trimmed(Reversed(Users(Unacked(l.coTxBuf, fsn)))) + Trimmed(Users(l.coTxQ)) + Users(l.coBuf)
  }

  function Reversed(ms: seq<Msg>): (r: seq<Msg>)
    ensures |r| == |ms|
    ensures forall k :: 0 <= k < |ms| ==> r[k] == ms[|ms| - 1 - k]
  {
    seq(|ms|, k requires 0 <= k < |ms| => ms[|ms| - 1 - k])
  }

  lemma {:induction false} TrimmedAt(ms: seq<Msg>)
    ensures |Trimmed(ms)| == |ms|
    ensures forall k :: 0 <= k < |ms| ==> Trimmed(ms)[k].id == ms[k].id
  {
    if ms != [] {
      TrimmedAt(ms[1..]);
      assert forall k :: 0 < k < |ms| ==> Trimmed(ms)[k] == Trimmed(ms[1..])[k-1] && ms[k] == ms[1..][k-1];
    }
  }

  lemma SamePrefix(a: seq<Msg>, b: seq<Msg>, c: seq<Msg>)
    requires |a| == |b|
    ensures a + c == b + c <==> a == b
  {
    assert (a + c)[..|a|] == a && (b + c)[..|b|] == b;
  }

  /** tx_buf is newest first and taken over as it lies, so the order of sending is kept exactly
      when at most one user message is unacknowledged. */
  lemma SendingOrderIsKept(l: Link, fsn: nat)
    requires var us := Users(Unacked(l.coTxBuf, fsn)); forall j, k :: 0 <= j < k < |us| ==> us[j].id != us[k].id
    ensures HandedOver(l, fsn) == InSendingOrder(l, fsn) <==> |Users(Unacked(l.coTxBuf, fsn))| <= 1
  {
    hide Users, Unacked, Trimmed;
    var us := Users(Unacked(l.coTxBuf, fsn));
    var a, b := Trimmed(us), Trimmed(Reversed(us));
    var rest := Trimmed(Users(l.coTxQ)) + Users(l.coBuf);
    TrimmedAt(us);
    TrimmedAt(Reversed(us));
    Associate(a, Trimmed(Users(l.coTxQ)), Users(l.coBuf));
    Associate(b, Trimmed(Users(l.coTxQ)), Users(l.coBuf));
    SamePrefix(a, b, rest);
    if |us| <= 1 {
      assert Reversed(us) == us;
    } else {
      assert a[0].id == us[0].id && b[0].id == us[|us| - 1].id;
    }
  }

  function Acknowledged(l: Link, fsn: nat): seq<Msg> {
    Users(l.coTxBuf[|Unacked(l.coTxBuf, fsn)|..])
  }

  ghost predicate NoUsers(net: Net, p: Place) { Exists(net, p) && Users(Get(net, p)) == [] }

  ghost predicate Completed(net: Net, i: nat) {
    i < |net.links| && net.links[i].changeover == CHANGEOVER_COMPLETED
  }

  /** One of the three extractions. */
  lemma ExtractUsers(net: Net, p: Place)
    requires Exists(net, p)
    ensures var (n, ms) := Extract(net, p, None);
      && ms == (if Counted(p) then Trimmed(Users(Get(net, p))) else Users(Get(net, p)))
      && n == Put(net, p, Kept(Get(net, p), None)) && NoUsers(n, p)
      && n.gone == net.gone && n.refused == net.refused && SameShape(net, n)
  {
    TakenAreUsers(Get(net, p));
    PutKeepsShape(net, p, Kept(Get(net, p), None));
  }

  lemma GatherQueuedIsExact(net: Net, i: nat)
    requires i < |net.links|
    ensures var (n, ms) := GatherQueued(net, i); var l := net.links[i];
      && ms == Trimmed(Users(l.coTxQ)) + Users(l.coBuf)
      && n.gone == net.gone && n.refused == net.refused && SameShape(net, n)
      && NoUsers(n, CoTxQ(i)) && NoUsers(n, CoBuf(i)) && Get(n, CoBuf(i)) == Kept(l.coBuf, None)
      && (forall p :: Exists(net, p) && p != CoTxQ(i) && p != CoBuf(i) ==> Exists(n, p) && Get(n, p) == Get(net, p))
  {
    ExtractUsers(net, CoTxQ(i));
    var (n1, _) := Extract(net, CoTxQ(i), None);
    assert Get(n1, CoBuf(i)) == net.links[i].coBuf;
    ExtractUsers(n1, CoBuf(i));
    ShapeIsTransitive(net, n1, Extract(n1, CoBuf(i), None).0);
  }

  lemma AcknowledgeIsExact(net: Net, i: nat, fsn: nat)
    requires i < |net.links|
    ensures var n := Acknowledge(net, CoTxBuf(i), fsn); var l := net.links[i];
      && SameShape(net, n) && n.refused == net.refused && n.gone == net.gone + Acknowledged(l, fsn)
      && Get(n, CoTxBuf(i)) == Unacked(l.coTxBuf, fsn) && Get(n, CoTxQ(i)) == l.coTxQ && Get(n, CoBuf(i)) == l.coBuf
  {
    hide Unacked, Users;
    PutKeepsShape(net, CoTxBuf(i), Unacked(net.links[i].coTxBuf, fsn));
  }

  /** In this order: the unacknowledged units, the queued ones, the buffered ones. */
  lemma GatherIsExact(net: Net, i: nat, fsn: nat)
    requires i < |net.links|
    ensures var (n, ms) := Gather(Acknowledge(net, CoTxBuf(i), fsn), i);
      && ms == HandedOver(net.links[i], fsn)
      && n.gone == net.gone + Acknowledged(net.links[i], fsn) && n.refused == net.refused
      && SameShape(net, n)
      && NoUsers(n, CoTxBuf(i)) && NoUsers(n, CoTxQ(i)) && NoUsers(n, CoBuf(i))
      && Get(n, CoBuf(i)) == Kept(net.links[i].coBuf, None)
  {
    hide Kept, Taken, Trimmed, Unacked, Extract, GatherQueued, Users, SameShape, Acknowledge, Acknowledged;
    var l := net.links[i];
    var n0 := Acknowledge(net, CoTxBuf(i), fsn);
    AcknowledgeIsExact(net, i, fsn);
    ExtractUsers(n0, CoTxBuf(i));
    var (n1, ms1) := Extract(n0, CoTxBuf(i), None);
    assert Get(n1, CoTxQ(i)) == l.coTxQ && Get(n1, CoBuf(i)) == l.coBuf;
    GatherQueuedIsExact(n1, i);
    var (n2, ms2) := GatherQueued(n1, i);
    assert ms1 + ms2 == HandedOver(l, fsn);
    ShapeIsTransitive(net, n0, n1);
    ShapeIsTransitive(net, n1, n2);
  }

  lemma GatherSpares(net: Net, i: nat, fsn: nat, p: Place)
    requires i < |net.links| && Exists(net, p) && p != CoTxBuf(i) && p != CoTxQ(i) && p != CoBuf(i)
    ensures var (n, _) := Gather(Acknowledge(net, CoTxBuf(i), fsn), i);
      Exists(n, p) && Get(n, p) == Get(net, p)
  {
    hide Kept, Taken, Unacked;
    LinksStay(net, Acknowledge(net, CoTxBuf(i), fsn));
  }

  lemma CoTxNeverOffered(net: Net, i: nat)
    requires Formed(net)
    ensures NotOffered(net, CoTxBuf(i)) && NotOffered(net, CoTxQ(i)) && NotOffered(net, TxBuf(i))
  {
  }

  lemma {:induction false} NeverRouted(net: Net, ms: seq<Msg>, p: Place)
    requires Formed(net) && NotOffered(net, p)
    ensures Routed(net, ms, Some(p)) == []
  {
    hide LinkAvailable;
    if ms != [] {
      NeverRouted(net, ms[1..], p);
    }
  }

  lemma CompleteArrives(net: Net, i: nat, ms: seq<Msg>, p: Place)
    requires Formed(net) && i < |net.links| && Exists(net, p)
    ensures var r := Complete(net, i, ms);
      && Exists(r, p)
      && Get(r, p) == (if p == CoTxBuf(i) || p == CoTxQ(i) then [] else Get(net, p)) + Routed(net, ms, Some(p))
      && r.refused == net.refused + Routed(net, ms, None)
      && r.gone == net.gone + Users(Get(net, CoTxBuf(i))) + Users(Get(net, CoTxQ(i)))
      && Completed(r, i)
      && NoUsers(r, CoTxBuf(i)) && NoUsers(r, CoTxQ(i))
  {
    hide Routed, LinkAvailable, NotOffered;
    TransmitKeepsShape(net, ms);
    TransmitAllArrives(net, ms, p);
    TransmitAllRefuses(net, ms);
    CoTxNeverOffered(net, i);
    NeverRouted(net, ms, CoTxBuf(i));
    NeverRouted(net, ms, CoTxQ(i));
    TransmitSpares(net, ms, CoTxBuf(i));
    TransmitSpares(net, ms, CoTxQ(i));
    var n := SetChangeover(TransmitAll(net, ms), i, CHANGEOVER_COMPLETED);
    LinksStay(n, FreeCo(n, i));
  }

  /** What the end of a changeover of link i leaves in list p of what was there: nothing in the
      lists taken over, and no user message in the changeover buffer. */
  function Remaining(net: Net, i: nat, p: Place): seq<Msg>
    requires Exists(net, p)
  {
    if p == CoTxBuf(i) || p == CoTxQ(i) then []
    else if p == CoBuf(i) then Kept(Get(net, p), None)
    else Get(net, p)
  }

  /** A changeover hands every user message that is newer than the peer's FSN, unsent or newly
      buffered to mtp3_transmit once, each arriving where its label sends it, which can be the
      changeover buffer just emptied; of the user messages it frees exactly the acknowledged ones. */
  lemma ChangeoverHandsOverOnce(net: Net, i: nat, fsn: nat, p: Place)
    requires Formed(net) && i < |net.links| && Exists(net, p)
    requires net.links[i].changeover == NO_CHANGEOVER || net.links[i].changeover == CHANGEOVER_INITIATED
    ensures var r := ChangeoverTo(net, i, fsn); var ms := HandedOver(net.links[i], fsn);
      && Exists(r, p)
      && Get(r, p) == Remaining(net, i, p) + Routed(net, ms, Some(p))
      && r.refused == net.refused + Routed(net, ms, None)
      && r.gone == net.gone + Acknowledged(net.links[i], fsn)
      && Completed(r, i) && NoUsers(r, CoTxBuf(i)) && NoUsers(r, CoTxQ(i))
  {
    hide SameShape, Routed, Complete, Users, Kept, HandedOver, Acknowledged, Gather, Acknowledge;
    var n0 := Acknowledge(net, CoTxBuf(i), fsn);
    LinksStay(net, n0);
    var (n, ms) := Gather(n0, i);
    GatherIsExact(net, i, fsn);
    if p != CoTxBuf(i) && p != CoTxQ(i) && p != CoBuf(i) {
      GatherSpares(net, i, fsn, p);
    }
    ShapeKeepsExistence(net, n);
    CompleteArrives(n, i, ms, p);
    ShapeDecidesRouted(net, n, ms, Some(p));
    ShapeDecidesRouted(net, n, ms, None);
    assert ChangeoverTo(net, i, fsn) == Complete(n, i, ms);
  }

  /** A link already changed over, or changed over for a time, is left alone. */
  lemma ChangeoverIsDoneOnce(net: Net, i: nat, fsn: nat)
    requires Formed(net) && i < |net.links|
    ensures Completed(ChangeoverTo(net, i, fsn), i) || net.links[i].changeover == CHANGEOVER_IN_PROGRESS
    ensures net.links[i].changeover in {CHANGEOVER_IN_PROGRESS, CHANGEOVER_COMPLETED} ==> ChangeoverTo(net, i, fsn) == net
  {
    hide SameShape, Routed, Complete, Users, HandedOver, Acknowledged, Gather, Acknowledge, CancelChangeback, Remaining;
    var c := net.links[i].changeover;
    if c == NO_CHANGEOVER || c == CHANGEOVER_INITIATED {
      ChangeoverHandsOverOnce(net, i, fsn, CoBuf(i));
    } else if c == CHANGEBACK || c == CHANGEBACK_INITIATED {
      ChangebackIsHandedOverToo(net, i, fsn);
      var n := CancelChangeback(net, i);
      LinksStay(net, n);
      ChangeoverHandsOverOnce(n, i, fsn, CoBuf(i));
    }
  }

  /** A changeover of a link in changeback first takes the messages held for the changeback behind
      those in the changeover buffer: they are handed over last. */
  lemma ChangebackIsHandedOverToo(net: Net, i: nat, fsn: nat)
    requires Formed(net) && i < |net.links|
    requires net.links[i].changeover == CHANGEBACK || net.links[i].changeover == CHANGEBACK_INITIATED
    ensures var n := CancelChangeback(net, i); var l := net.links[i];
      && ChangeoverTo(net, i, fsn) == ChangeoverTo(n, i, fsn)
      && n.links[i].changeover == NO_CHANGEOVER
      && HandedOver(n.links[i], fsn) == HandedOver(l, fsn) + Users(l.cbBuf)
      && Acknowledged(n.links[i], fsn) == Acknowledged(l, fsn)
  {
    hide Acknowledge, Gather, Complete, Users, Trimmed, Unacked, Kept, Taken;
    var l := net.links[i];
    var n := CancelChangeback(net, i);
    LinksStay(net, n);
    assert n.links[i].coBuf == l.coBuf + Taken(l.cbBuf, None, false);
    TakenAreUsers(l.cbBuf);
    UsersAppend(l.coBuf, Users(l.cbBuf));
    UsersTwice(l.cbBuf);
    Associate(Trimmed(Users(Unacked(l.coTxBuf, fsn))) + Trimmed(Users(l.coTxQ)), Users(l.coBuf), Users(l.cbBuf));
  }

  lemma {:induction false} UsersAppend(a: seq<Msg>, b: seq<Msg>)
    ensures Users(a + b) == Users(a) + Users(b)
  {
    if a == [] {
      assert a + b == b;
    } else {
      UsersAppend(a[1..], b);
      assert (a + b)[0] == a[0] && (a + b)[1..] == a[1..] + b;
      Associate(if a[0].user then [a[0]] else [], Users(a[1..]), Users(b));
    }
  }

  lemma {:induction false} UsersTwice(a: seq<Msg>)
    ensures Users(Users(a)) == Users(a)
  {
    if a != [] {
      UsersTwice(a[1..]);
      if a[0].user {
        assert Users(a) == [a[0]] + Users(a[1..]) && Users(a)[1..] == Users(a[1..]);
      } else {
        assert Users(a) == Users(a[1..]);
      }
    }
  }

  // ----- what comes back to the link's own changeover buffer

  /** The route to dpc at point s, if there is one, is neither held nor prohibited. */
  ghost predicate RouteOpen(net: Net, s: nat, dpc: nat)
    requires s < |net.sps|
  {
    var routes := net.sps[s].routes;
    var r := FindRoute(routes, dpc);
    r < |routes| ==> !routes[r].t6 && (routes[r].state == TFR_NON_ACTIVE || routes[r].state == TFA)
  }

  /** The guard of link_available under which link i offers its own changeover buffer. */
  ghost predicate OffersOwn(net: Net, i: nat, dpc: nat)
    requires Formed(net) && i < |net.links|
  {
    var l := net.links[i];
    && (l.changeover == CHANGEOVER_IN_PROGRESS || (l.changeover == CHANGEOVER_INITIATED && l.up && net.sps[l.sp].up))
    && RouteOpen(net, l.sp, dpc)
  }

  /** The SLS points to link i, or to a link that is not available while i is the first that is. */
  ghost predicate FallsTo(net: Net, i: nat, m: Msg)
    requires Formed(net) && i < |net.links|
  {
    var k := (m.sls / net.divisor) % |net.links|;
    k == i || (LinkAvailable(net, k, m.dpc) == None && forall j :: 0 <= j < i ==> LinkAvailable(net, j, m.dpc) == None)
  }

  ghost predicate ComesBack(net: Net, i: nat, m: Msg)
    requires Formed(net) && i < |net.links|
  {
    OffersOwn(net, i, m.dpc) && FallsTo(net, i, m)
  }

  lemma OwnIsOffered(net: Net, i: nat, j: nat, dpc: nat)
    requires Formed(net) && i < |net.links| && j < |net.links|
    ensures LinkAvailable(net, j, dpc) == Some(CoBuf(i)) <==> j == i && OffersOwn(net, i, dpc)
  {
    hide FindRoute;
  }

  lemma {:induction false} FirstIsOwn(net: Net, i: nat, k: nat, dpc: nat)
    requires Formed(net) && i < |net.links| && k <= |net.links|
    ensures FirstAvailable(net, k, dpc) == Some(CoBuf(i))
      <==> k <= i && OffersOwn(net, i, dpc) && forall j :: k <= j < i ==> LinkAvailable(net, j, dpc) == None
    decreases |net.links| - k
  {
    hide LinkAvailable, OffersOwn;
    OwnIsOffered(net, i, i, dpc);
    if k < |net.links| {
      OwnIsOffered(net, i, k, dpc);
      FirstIsOwn(net, i, k + 1, dpc);
    }
  }

  /** rl_to_link chooses the changeover buffer of link i exactly under these guards. */
  lemma OwnIsChosen(net: Net, i: nat, m: Msg)
    requires Formed(net) && i < |net.links|
    ensures RlToLink(net, m) == Some(CoBuf(i)) <==> ComesBack(net, i, m)
  {
    hide LinkAvailable, OffersOwn, FirstAvailable;
    var k := (m.sls / net.divisor) % |net.links|;
    OwnIsOffered(net, i, k, m.dpc);
    OwnIsOffered(net, i, i, m.dpc);
    FirstIsOwn(net, i, 0, m.dpc);
  }

  lemma {:induction false} RoutedUsers(net: Net, ms: seq<Msg>, p: Place)
    requires Formed(net) && forall m :: m in ms ==> m.user
    ensures Users(Routed(net, ms, Some(p))) == [] <==> forall m :: m in ms ==> RlToLink(net, m) != Some(p)
    ensures forall m :: m in ms && RlToLink(net, m) == Some(p) ==> Stored(p, m) in Routed(net, ms, Some(p))
  {
    hide RlToLink, Formed, Stored;
    if ms != [] {
      assert ms[0] in ms;
      RoutedUsers(net, ms[1..], p);
      var rest := Routed(net, ms[1..], Some(p));
      StoredIsUser(p, ms[0]);
      if RlToLink(net, ms[0]) == Some(p) {
        assert Routed(net, ms, Some(p)) == [Stored(p, ms[0])] + rest;
      } else {
        assert Routed(net, ms, Some(p)) == rest;
      }
      assert forall m :: m in ms <==> m == ms[0] || m in ms[1..];
    }
  }

  lemma StoredIsUser(p: Place, m: Msg)
    ensures Stored(p, m).user == m.user
  {
  }

  lemma {:induction false} OnlyUsers(ms: seq<Msg>)
    ensures forall m :: m in Users(ms) ==> m.user
    ensures forall m :: m in Trimmed(Users(ms)) ==> m.user
  {
    if ms != [] {
      OnlyUsers(ms[1..]);
      if ms[0].user {
        assert Users(ms) == [ms[0]] + Users(ms[1..]) && Users(ms)[1..] == Users(ms[1..]);
      } else {
        assert Users(ms) == Users(ms[1..]);
      }
    }
  }

  function HandedOverByT2(l: Link): seq<Msg> { Trimmed(Users(l.coTxQ)) + Users(l.coBuf) }

  lemma HandedOverAreUsers(l: Link, fsn: nat)
    ensures forall m :: m in HandedOver(l, fsn) ==> m.user
    ensures forall m :: m in HandedOverByT2(l) ==> m.user
  {
    hide Users, Trimmed, Unacked;
    OnlyUsers(Unacked(l.coTxBuf, fsn));
    OnlyUsers(l.coTxQ);
    OnlyUsers(l.coBuf);
  }

  /** The changeover buffer of link i in r holds what net had there without its user messages,
      and behind that those of ms that come back to it. */
  lemma OwnBuffer(net: Net, r: Net, i: nat, ms: seq<Msg>)
    requires Formed(net) && i < |net.links| && Exists(r, CoBuf(i))
    requires Get(r, CoBuf(i)) == Kept(net.links[i].coBuf, None) + Routed(net, ms, Some(CoBuf(i)))
    requires forall m :: m in ms ==> m.user
    ensures NoUsers(r, CoBuf(i)) <==> forall m :: m in ms ==> !ComesBack(net, i, m)
    ensures forall m :: m in ms && ComesBack(net, i, m) ==> m in Get(r, CoBuf(i))
  {
    hide RlToLink, Routed, Users, Kept, ComesBack;
    TakenAreUsers(net.links[i].coBuf);
    RoutedUsers(net, ms, CoBuf(i));
    UsersAppend(Kept(net.links[i].coBuf, None), Routed(net, ms, Some(CoBuf(i))));
    forall m | m in ms ensures RlToLink(net, m) == Some(CoBuf(i)) <==> ComesBack(net, i, m) {
      OwnIsChosen(net, i, m);
    }
  }

  /** mtp3_changeover sets the state only after transmitting. So a message handed over comes back
      to the link's changeover buffer, and stays there although the changeover is completed,
      exactly when the changeover had been initiated, link and point are still up, the route is
      open, and the SLS or the search for an available link leads to this link. */
  lemma OwnTrafficComesBack(net: Net, i: nat, fsn: nat)
    requires Formed(net) && i < |net.links|
    requires net.links[i].changeover == NO_CHANGEOVER || net.links[i].changeover == CHANGEOVER_INITIATED
    ensures var r := ChangeoverTo(net, i, fsn); var ms := HandedOver(net.links[i], fsn);
      && Exists(r, CoBuf(i))
      && Get(r, CoBuf(i)) == Kept(net.links[i].coBuf, None) + Routed(net, ms, Some(CoBuf(i)))
      && (NoUsers(r, CoBuf(i)) <==> forall m :: m in ms ==> RlToLink(net, m) != Some(CoBuf(i)))
      && (NoUsers(r, CoBuf(i)) <==> forall m :: m in ms ==> !ComesBack(net, i, m))
      && (forall m :: m in ms && ComesBack(net, i, m) ==> m in Get(r, CoBuf(i)))
  {
    hide RlToLink, Routed, Users, Kept, ComesBack, HandedOver, ChangeoverTo, Acknowledged;
    var ms := HandedOver(net.links[i], fsn);
    ChangeoverHandsOverOnce(net, i, fsn, CoBuf(i));
    HandedOverAreUsers(net.links[i], fsn);
    OwnBuffer(net, ChangeoverTo(net, i, fsn), i, ms);
    forall m | m in ms ensures RlToLink(net, m) == Some(CoBuf(i)) <==> ComesBack(net, i, m) {
      OwnIsChosen(net, i, m);
    }
  }

  /** A link that is still up gets its own traffic back. */
  lemma UpLinkKeepsItsTraffic(net: Net, i: nat, fsn: nat, m: Msg)
    requires Formed(net) && i < |net.links|
    requires net.links[i].changeover == CHANGEOVER_INITIATED
    requires net.links[i].up && net.sps[net.links[i].sp].up && RouteOpen(net, net.links[i].sp, m.dpc)
    requires m in HandedOver(net.links[i], fsn) && FallsTo(net, i, m)
    ensures var r := ChangeoverTo(net, i, fsn);
      Exists(r, CoBuf(i)) && m in Get(r, CoBuf(i)) && Completed(r, i)
  {
    hide RlToLink, Routed, Users, Kept, HandedOver, ChangeoverTo, RouteOpen, FallsTo, Acknowledged;
    OwnTrafficComesBack(net, i, fsn);
    ChangeoverIsDoneOnce(net, i, fsn);
  }

  /** T2 gives up on the peer: the unsent and the newly buffered messages are handed over in
      order, the unacknowledged ones are freed. */
  lemma T2HandsOverQueued(net: Net, i: nat, p: Place)
    requires Formed(net) && i < |net.links| && Exists(net, p)
    ensures var r := T2Expired(net, i); var l := net.links[i]; var ms := HandedOverByT2(l);
      && Exists(r, p)
      && Get(r, p) == Remaining(net, i, p) + Routed(net, ms, Some(p))
      && r.refused == net.refused + Routed(net, ms, None)
      && r.gone == net.gone + Users(l.coTxBuf)
      && Completed(r, i) && NoUsers(r, CoTxBuf(i)) && NoUsers(r, CoTxQ(i))
  {
    hide RlToLink, LinkAvailable, TransmitAll, SameShape, Transmit, Routed, Complete, Users, Trimmed, Kept, Exists;
    var (n, ms) := GatherQueued(net, i);
    GatherQueuedIsExact(net, i);
    ShapeKeepsExistence(net, n);
    CompleteArrives(n, i, ms, p);
    ShapeDecidesRouted(net, n, ms, Some(p));
    ShapeDecidesRouted(net, n, ms, None);
  }

  /** What T2 hands over comes back to the link exactly under the same guards; here the changeover
      can also be one for a time, for which the link need not be up. */
  lemma T2TrafficComesBack(net: Net, i: nat)
    requires Formed(net) && i < |net.links|
    ensures var r := T2Expired(net, i); var ms := HandedOverByT2(net.links[i]);
      && Exists(r, CoBuf(i))
      && (NoUsers(r, CoBuf(i)) <==> forall m :: m in ms ==> RlToLink(net, m) != Some(CoBuf(i)))
      && (NoUsers(r, CoBuf(i)) <==> forall m :: m in ms ==> !ComesBack(net, i, m))
      && (forall m :: m in ms && ComesBack(net, i, m) ==> m in Get(r, CoBuf(i)))
  {
    hide RlToLink, Routed, Users, Kept, ComesBack, HandedOverByT2, T2Expired;
    var ms := HandedOverByT2(net.links[i]);
    T2HandsOverQueued(net, i, CoBuf(i));
    HandedOverAreUsers(net.links[i], 0);
    OwnBuffer(net, T2Expired(net, i), i, ms);
    forall m | m in ms ensures RlToLink(net, m) == Some(CoBuf(i)) <==> ComesBack(net, i, m) {
      OwnIsChosen(net, i, m);
    }
  }

  // ----- what the other operations leave behind, in which order

  lemma MovedUsers(net: Net, p: Place, q: Place)
    requires Exists(net, p) && Exists(net, q) && p != q
    ensures var n := Move(net, p, q, None); var ms := if Counted(p) then Trimmed(Users(Get(net, p))) else Users(Get(net, p));
      && Exists(n, p) && Exists(n, q)
      && Get(n, q) == Get(net, q) + ms && NoUsers(n, p)
      && n.gone == net.gone && n.refused == net.refused && SameShape(net, n)
      && forall x :: Exists(net, x) && x != p && x != q ==> Get(n, x) == Get(net, x)
  {
    hide Get, Put, Extract, SameShape, Users, Trimmed;
    ExtractUsers(net, p);
    var (n, ms) := Extract(net, p, None);
    PutKeepsShape(n, q, Get(n, q) + ms);
    PutSpares(net, p, Kept(Get(net, p), None));
    PutSpares(n, q, Get(n, q) + ms);
    ShapeIsTransitive(net, n, Put(n, q, Get(n, q) + ms));
  }

  lemma PutSpares(net: Net, p: Place, ms: seq<Msg>)
    requires Exists(net, p)
    ensures Put(net, p, ms).gone == net.gone && Put(net, p, ms).refused == net.refused
  {
  }

  /** A cancelled changeover holds back the unsent and then the newly buffered messages, behind
      those held back already; the unacknowledged ones are freed. */
  lemma CancelKeepsOrder(net: Net, i: nat)
    requires i < |net.links|
    ensures var r := CancelChangeover(net, i); var l := net.links[i];
      && i < |r.links| && r.links[i].changeover == NO_CHANGEOVER
      && r.links[i].cbBuf == l.cbBuf + Trimmed(Users(l.coTxQ)) + Users(l.coBuf)
      && r.links[i].coTxQ == [] && r.links[i].coTxBuf == [] && NoUsers(r, CoBuf(i))
      && r.links[i].txQ == l.txQ && r.links[i].txBuf == l.txBuf
      && r.gone == net.gone + Users(l.coTxBuf)
  {
    hide Move, Users, Trimmed, SameShape, FreeCo;
    var n1 := Move(net, CoTxQ(i), CbBuf(i), None);
    var n2 := Move(n1, CoBuf(i), CbBuf(i), None);
    MovedUsers(net, CoTxQ(i), CbBuf(i));
    MovedUsers(n1, CoBuf(i), CbBuf(i));
    LinksStay(net, n1);
    LinksStay(n1, n2);
    CancelledTail(n2, i);
    assert Get(n2, CoTxQ(i)) == Get(n1, CoTxQ(i)) && Get(n2, CoTxBuf(i)) == Get(net, CoTxBuf(i));
    assert Get(n2, TxQ(i)) == Get(net, TxQ(i)) && Get(n2, TxBuf(i)) == Get(net, TxBuf(i));
    assert Get(n1, CoBuf(i)) == Get(net, CoBuf(i));
  }

  lemma CancelledTail(n: Net, i: nat)
    requires i < |n.links| && NoUsers(n, CoTxQ(i))
    ensures var r := FreeCo(SetChangeover(n, i, NO_CHANGEOVER), i);
      && i < |r.links| && r.links[i] == n.links[i].(changeover := NO_CHANGEOVER, coTxQ := [], coTxBuf := [])
      && r.gone == n.gone + Users(n.links[i].coTxBuf)
  {
    hide Users;
  }

  /** A time-controlled changeover buffers the unsent messages behind those buffered already and
      gives up everything taken over from MTP2. */
  lemma TimedBuffersQueue(net: Net, i: nat)
    requires Formed(net) && i < |net.links| && net.links[i].changeover == NO_CHANGEOVER
    ensures var r := TimedChangeover(net, i); var l := net.links[i];
      && i < |r.links| && r.links[i].changeover == CHANGEOVER_IN_PROGRESS
      && r.links[i].coBuf == l.coBuf + Trimmed(Users(l.txQ)) && NoUsers(r, TxQ(i))
      && r.links[i].txBuf == l.txBuf && r.links[i].cbBuf == l.cbBuf
      && r.gone == net.gone + Users(l.coTxBuf) + Users(l.coTxQ)
  {
    hide Move, Users, Trimmed, SameShape, FreeCo, WithList, Put;
    var n := SetChangeover(net, i, CHANGEOVER_IN_PROGRESS);
    MovedUsers(n, TxQ(i), CoBuf(i));
    var n1 := Move(n, TxQ(i), CoBuf(i), None);
    LinksStay(n, n1);
    FreedTail(n1, i);
    assert n1.links[i].changeover == CHANGEOVER_IN_PROGRESS by { ShapeKeepsState(n, n1, i); }
    assert Get(n1, TxBuf(i)) == Get(n, TxBuf(i)) && Get(n1, CbBuf(i)) == Get(n, CbBuf(i));
    assert Get(n1, CoTxBuf(i)) == Get(n, CoTxBuf(i)) && Get(n1, CoTxQ(i)) == Get(n, CoTxQ(i));
  }

  lemma ShapeKeepsState(a: Net, b: Net, i: nat)
    requires SameShape(a, b) && i < |a.links|
    ensures i < |b.links| && a.links[i].changeover == b.links[i].changeover
  {
  }

  lemma FreedTail(n: Net, i: nat)
    requires i < |n.links|
    ensures var r := FreeCo(n, i);
      && i < |r.links| && r.links[i] == n.links[i].(coTxQ := [], coTxBuf := [])
      && r.gone == n.gone + Users(n.links[i].coTxBuf) + Users(n.links[i].coTxQ)
  {
    hide Users;
  }

  /** A changeback holds back the unsent messages behind those held back already. */
  lemma ChangebackHoldsQueue(net: Net, i: nat)
    requires Formed(net) && i < |net.links|
    requires net.links[i].changeover == CHANGEOVER_COMPLETED || net.links[i].changeover == CHANGEBACK_INITIATED
    ensures var r := Changeback(net, i); var l := net.links[i];
      && i < |r.links| && r.links[i].changeover == CHANGEBACK
      && r.links[i].cbBuf == l.cbBuf + Trimmed(Users(l.txQ)) && NoUsers(r, TxQ(i))
      && r.links[i].coBuf == l.coBuf && r.links[i].txBuf == l.txBuf && r.gone == net.gone
  {
    hide Move, Users, Trimmed, SameShape;
    MovedUsers(net, TxQ(i), CbBuf(i));
    var n := Move(net, TxQ(i), CbBuf(i), None);
    LinksStay(net, n);
    assert Get(n, CoBuf(i)) == Get(net, CoBuf(i)) && Get(n, TxBuf(i)) == Get(net, TxBuf(i));
  }

  /** T1, T3 and T6 hand over the list they end in its order, each message to where its label
      sends it; and the list is empty. */
  lemma DrainArrives(net: Net, p: Place, q: Place)
    requires Formed(net) && Exists(net, p) && Exists(net, q)
    ensures Exists(Drain(net, p), q)
    ensures Get(Drain(net, p), q) == if q == p then [] else Get(net, q) + Routed(net, Get(net, p), Some(q))
    ensures Drain(net, p).refused == net.refused + Routed(net, Get(net, p), None) && Drain(net, p).gone == net.gone
  {
    hide Get, Put, TransmitAll, Routed, RlToLink;
    TransmitKeepsShape(net, Get(net, p));
    TransmitAllArrives(net, Get(net, p), q);
    TransmitAllRefuses(net, Get(net, p));
    PutSpares(TransmitAll(net, Get(net, p)), p, []);
  }
}
