/** Two runs from the empty state, one that loses a message and one that leaves a message in the
    buffer of a link already changed over; and the order of a hand-over over every run. */
module Mtp3Scenarios {
  import opened Mtp3Spec
  import opened Mtp3Conservation
  import opened Mtp3Runs
  import opened Mtp3Changeover
  import opened Mtp3Preparation
  import opened Options

  // ----- lists that are empty

  lemma PutSame(net: Net, p: Place)
    requires Exists(net, p)
    ensures Put(net, p, Get(net, p)) == net
  {
    if p.RouteQ? {
      var routes := net.sps[p.sp].routes;
      assert routes[p.route := routes[p.route].(q := Get(net, p))] == routes;
      assert net.sps[p.sp := net.sps[p.sp].(routes := routes)] == net.sps;
    } else {
      assert WithList(net.links[p.link], p, Get(net, p)) == net.links[p.link];
      assert net.links[p.link := net.links[p.link]] == net.links;
    }
  }

  lemma MoveNothing(net: Net, p: Place, q: Place)
    requires Exists(net, p) && Exists(net, q) && p != q && Get(net, p) == []
    ensures Move(net, p, q, None) == net
  {
    hide Put, Get;
    PutSame(net, p);
    PutSame(net, q);
    assert Kept([], None) == [] && Taken([], None, Counted(p)) == [];
    assert Get(net, q) + [] == Get(net, q);
  }

  lemma FreeNothing(net: Net, p: Place)
    requires Exists(net, p) && Get(net, p) == []
    ensures Free(net, p) == net
  {
    hide Put, Get;
    PutSame(net, p);
    assert Users([]) == [] && net.gone + [] == net.gone;
  }

  lemma DrainNothing(net: Net, p: Place)
    requires Formed(net) && Exists(net, p) && Get(net, p) == []
    ensures Drain(net, p) == net
  {
    hide Put, Get;
    PutSame(net, p);
    assert TransmitAll(net, []) == net;
  }

  /** Link i and what it can offer: nothing in its lists, no routes at its point. */
  ghost predicate Quiet(net: Net, i: nat) {
    && Formed(net) && i < |net.links| && net.sps[net.links[i].sp].routes == []
    && forall p: Place :: !p.RouteQ? && p.link == i ==> Get(net, p) == []
  }

  lemma QuietFreeCo(net: Net, i: nat)
    requires Quiet(net, i)
    ensures FreeCo(net, i) == net
  {
    hide Free, Get;
    FreeNothing(net, CoTxBuf(i));
    FreeNothing(net, CoTxQ(i));
  }

  lemma QuietAlike(net: Net, n: Net, i: nat)
    requires Quiet(net, i) && Formed(n) && |n.links| == |net.links| && n.links[i].sp == net.links[i].sp && n.sps == net.sps
    requires forall p: Place :: !p.RouteQ? && p.link == i ==> Get(n, p) == Get(net, p)
    ensures Quiet(n, i)
  {
    hide Get;
  }

  lemma SetChangeoverQuiet(net: Net, i: nat, c: Changeover)
    requires Quiet(net, i)
    ensures var n := SetChangeover(net, i, c); Quiet(n, i) && |n.links| == |net.links| && n.links[i].changeover == c
  {
    hide Get;
    QuietAlike(net, SetChangeover(net, i, c), i);
  }

  lemma SetCbdQuiet(net: Net, i: nat, sentCbd: bool, t4: bool)
    requires Quiet(net, i)
    ensures var n := SetCbd(net, i, sentCbd, t4);
      && Quiet(n, i) && |n.links| == |net.links| && n.links[i] == net.links[i].(sentCbd := sentCbd, t4 := t4)
  {
    hide Get;
    QuietAlike(net, SetCbd(net, i, sentCbd, t4), i);
  }

  lemma SetUpQuiet(net: Net, i: nat, up: bool)
    requires Quiet(net, i)
    ensures var n := SetUp(net, i, up); Quiet(n, i) && |n.links| == |net.links| && n.links[i] == net.links[i].(up := up)
  {
    QuietAlike(net, SetUp(net, i, up), i);
  }

  // ----- a changeover and a changeback of a quiet link

  /** Timed changeover, T1, failure, repair with a declaration, the peer's own declaration, T3. */
  function ThereAndBack(i: nat): seq<Op> {
    [Timed(i), ExpireT1(i), SetLink(i, false)] + [LinkTested(i, true), ReturnTraffic(i), ExpireT3(i)]
  }

  lemma QuietTimed(net: Net, i: nat)
    requires Quiet(net, i) && net.links[i].changeover == NO_CHANGEOVER
    ensures TimedChangeover(net, i) == SetChangeover(net, i, CHANGEOVER_IN_PROGRESS)
  {
    hide Move, FreeCo, Get, SetChangeover;
    var n := SetChangeover(net, i, CHANGEOVER_IN_PROGRESS);
    SetChangeoverQuiet(net, i, CHANGEOVER_IN_PROGRESS);
    MoveNothing(n, TxQ(i), CoBuf(i));
    QuietFreeCo(n, i);
  }

  lemma QuietT1(net: Net, i: nat)
    requires Quiet(net, i)
    ensures T1Expired(net, i) == SetChangeover(net, i, CHANGEOVER_COMPLETED)
  {
    hide Drain, FreeCo, Get, SetChangeover;
    var n := SetChangeover(net, i, CHANGEOVER_COMPLETED);
    SetChangeoverQuiet(net, i, CHANGEOVER_COMPLETED);
    DrainNothing(n, CoBuf(i));
    QuietFreeCo(n, i);
  }

  lemma QuietT3(net: Net, i: nat)
    requires Quiet(net, i)
    ensures T3Expired(net, i) == SetChangeover(net, i, NO_CHANGEOVER)
  {
    hide Drain, FreeCo, Get, SetChangeover;
    var n := SetChangeover(net, i, NO_CHANGEOVER);
    SetChangeoverQuiet(net, i, NO_CHANGEOVER);
    DrainNothing(n, CbBuf(i));
    QuietFreeCo(n, i);
  }

  lemma QuietChangeback(net: Net, i: nat)
    requires Quiet(net, i) && net.links[i].changeover == CHANGEBACK_INITIATED
    ensures Changeback(net, i) == SetChangeover(net, i, CHANGEBACK)
  {
    hide Move, CancelChangeover, Get, SetChangeover;
    MoveNothing(net, TxQ(i), CbBuf(i));
  }

  lemma QuietThere(net: Net, i: nat)
    requires Quiet(net, i) && net.links[i].changeover == NO_CHANGEOVER
    ensures Run(net, [Timed(i), ExpireT1(i), SetLink(i, false)])
      == SetUp(SetChangeover(SetChangeover(net, i, CHANGEOVER_IN_PROGRESS), i, CHANGEOVER_COMPLETED), i, false)
  {
    hide Quiet, TimedChangeover, T1Expired, SetChangeover, SetUp, Run, Step;
    QuietIsFormed(net, i);
    QuietTimed(net, i);
    SetChangeoverQuiet(net, i, CHANGEOVER_IN_PROGRESS);
    var n1 := SetChangeover(net, i, CHANGEOVER_IN_PROGRESS);
    QuietT1(n1, i);
    SetChangeoverQuiet(n1, i, CHANGEOVER_COMPLETED);
    var n2 := SetChangeover(n1, i, CHANGEOVER_COMPLETED);
    QuietIsFormed(n1, i);
    QuietIsFormed(n2, i);
    StepsThere(net, i);
    StepsThere(n1, i);
    StepsThere(n2, i);
    RunOfThree(net, Timed(i), ExpireT1(i), SetLink(i, false));
  }

  /** The steps of the changeover, by name. */
  lemma StepsThere(net: Net, i: nat)
    requires Formed(net) && i < |net.links|
    ensures Step(net, Timed(i)) == TimedChangeover(net, i)
    ensures Step(net, ExpireT1(i)) == T1Expired(net, i)
    ensures Step(net, SetLink(i, false)) == SetUp(net, i, false)
  {
    hide TimedChangeover, T1Expired, SetUp;
  }

  /** And of the changeback. */
  lemma StepsBack(net: Net, i: nat)
    requires Formed(net) && i < |net.links|
    ensures !net.links[i].up ==> Step(net, LinkTested(i, true)) == StartChangeback(SetUp(net, i, true), i, true)
    ensures Step(net, ReturnTraffic(i)) == Changeback(net, i)
    ensures Step(net, ExpireT3(i)) == T3Expired(net, i)
  {
    hide T3Expired, SetUp, Changeback, StartChangeback;
  }

  lemma QuietBack(net: Net, i: nat)
    requires Quiet(net, i) && net.links[i].changeover == CHANGEOVER_COMPLETED && !net.links[i].up
    ensures Run(net, [LinkTested(i, true), ReturnTraffic(i), ExpireT3(i)])
      == SetChangeover(SetCbd(SetUp(net, i, true), i, true, true), i, NO_CHANGEOVER)
  {
    hide Quiet, Changeback, T3Expired, SetChangeover, SetUp, SetCbd, Run, Step, CancelChangeover;
    QuietIsFormed(net, i);
    var n0 := SetUp(net, i, true);
    SetUpQuiet(net, i, true);
    var n1 := SetCbd(n0, i, true, true);
    SetCbdQuiet(n0, i, true, true);
    var n2 := SetChangeover(n1, i, CHANGEBACK_INITIATED);
    SetChangeoverQuiet(n1, i, CHANGEBACK_INITIATED);
    QuietChangeback(n2, i);
    var n3 := SetChangeover(n2, i, CHANGEBACK);
    SetChangeoverQuiet(n2, i, CHANGEBACK);
    QuietT3(n3, i);
    QuietIsFormed(n2, i);
    QuietIsFormed(n3, i);
    StepsBack(net, i);
    StepsBack(n2, i);
    StepsBack(n3, i);
    RunOfThree(net, LinkTested(i, true), ReturnTraffic(i), ExpireT3(i));
    SetTwice(n1, i, CHANGEBACK_INITIATED, CHANGEBACK);
    SetTwice(n1, i, CHANGEBACK, NO_CHANGEOVER);
  }

  lemma SetTwice(net: Net, i: nat, c: Changeover, d: Changeover)
    requires i < |net.links|
    ensures |SetChangeover(net, i, c).links| == |net.links|
    ensures SetChangeover(SetChangeover(net, i, c), i, d) == SetChangeover(net, i, d)
  {
  }

  /** Afterwards the link is as before, except that the declaration still waits for its answer. */
  lemma ThereAndBackDeclares(net: Net, i: nat)
    requires Quiet(net, i) && net.links[i].changeover == NO_CHANGEOVER && net.links[i].up
    ensures Run(net, ThereAndBack(i)) == SetCbd(net, i, true, true)
  {
    hide Run, Quiet, SetChangeover, SetCbd, SetUp;
    QuietIsFormed(net, i);
    var n1 := SetChangeover(net, i, CHANGEOVER_IN_PROGRESS);
    SetChangeoverQuiet(net, i, CHANGEOVER_IN_PROGRESS);
    var n2 := SetChangeover(n1, i, CHANGEOVER_COMPLETED);
    RunConcat(net, [Timed(i), ExpireT1(i), SetLink(i, false)], [LinkTested(i, true), ReturnTraffic(i), ExpireT3(i)]);
    QuietThere(net, i);
    SetChangeoverQuiet(n1, i, CHANGEOVER_COMPLETED);
    SetUpQuiet(n2, i, false);
    QuietBack(SetUp(n2, i, false), i);
    SetTwice(net, i, CHANGEOVER_IN_PROGRESS, CHANGEOVER_COMPLETED);
    OnlyDeclared(net, i);
  }

  lemma OnlyDeclared(net: Net, i: nat)
    requires i < |net.links| && net.links[i].changeover == NO_CHANGEOVER && net.links[i].up
    ensures var n := SetUp(SetChangeover(net, i, CHANGEOVER_COMPLETED), i, false);
      && i < |n.links|
      && SetChangeover(SetCbd(SetUp(n, i, true), i, true, true), i, NO_CHANGEOVER) == SetCbd(net, i, true, true)
  {
  }

  lemma QuietIsFormed(net: Net, i: nat)
    requires Quiet(net, i)
    ensures Formed(net) && i < |net.links|
  {
  }

  lemma EmptyIsQuiet(net: Net, i: nat)
    requires Empty(net) && i < |net.links|
    ensures Quiet(net, i) && net.gone == []
  {
  }

  // ----- a message that is lost

  function Queued(net: Net, i: nat, m: Msg): (n: Net)
    requires i < |net.links|
    ensures Formed(net) ==> Formed(n)
  {
    net.(submitted := net.submitted + [m], links := net.links[i := net.links[i].(txQ := [m.(size := m.size + 2)])])
  }

  lemma QueuedOnLink(net: Net, i: nat, m: Msg)
    requires Quiet(net, i)
    requires net.links[i].up && net.sps[net.links[i].sp].up && net.links[i].changeover == NO_CHANGEOVER
    requires (m.sls / net.divisor) % |net.links| == i
    ensures Submit(net, m) == Queued(net, i, m)
  {
    assert Get(net, TxQ(i)) == [];
    var n := net.(submitted := net.submitted + [m]);
    assert LinkAvailable(n, i, m.dpc) == Some(TxQ(i));
    assert [] + [Stored(TxQ(i), m)] == [m.(size := m.size + 2)];
  }

  function QueueAndFail(i: nat, m: Msg): seq<Op> { [SubmitUser(m), SetLink(i, false), Prepare(i)] }

  lemma QuietLists(net: Net, i: nat)
    requires Quiet(net, i)
    ensures var l := net.links[i]; l.txQ == l.txBuf == l.coTxBuf == l.coTxQ == []
  {
    assert Get(net, TxQ(i)) == [] && Get(net, TxBuf(i)) == [] && Get(net, CoTxBuf(i)) == [] && Get(net, CoTxQ(i)) == [];
  }

  /** A message is queued, the link fails and a changeover is prepared. */
  lemma QueuedAndTaken(net: Net, i: nat, m: Msg)
    requires Quiet(net, i) && m.user && m.size == m.len
    requires net.links[i].up && net.sps[net.links[i].sp].up && net.links[i].changeover == NO_CHANGEOVER
    requires (m.sls / net.divisor) % |net.links| == i
    ensures var n := Run(net, QueueAndFail(i, m)); var l := net.links[i];
      && i < |n.links| && n.gone == net.gone
      && n.links[i] == l.(up := false, changeover := CHANGEOVER_INITIATED, coTxQ := [m.(size := m.size + 2)])
  {
    hide Run, Quiet, Submit, PrepareChangeover, Users;
    QuietIsFormed(net, i);
    QueuedOnLink(net, i, m);
    QuietLists(net, i);
    RunOfThree(net, SubmitUser(m), SetLink(i, false), Prepare(i));
    var n := SetUp(Queued(net, i, m), i, false);
    PrepareTakesOver(n, i);
    NoUsersInNone();
    assert net.gone + [] + [] == net.gone;
  }

  lemma NoUsersInNone()
    ensures Users([]) == []
  {
  }

  function LosingRun(i: nat, m: Msg): seq<Op> {
    ThereAndBack(i) + QueueAndFail(i, m) + [ExpireT4(i, ChangebackGivenUp)] + [Prepare(i)]
  }

  /** The declaration of an earlier changeback is still unanswered when the link fails again. T4
      cannot send it, gives up a changeback that is none, and the next preparation loses the
      message taken over, although nothing but the link failed. */
  lemma AbandonRunLoses(net: Net, i: nat, m: Msg)
    requires Empty(net) && i < |net.links| && m.user && m.size == m.len
    requires net.links[i].up && net.sps[net.links[i].sp].up && net.links[i].changeover == NO_CHANGEOVER
    requires (m.sls / net.divisor) % |net.links| == i
    ensures !OrderlyRun(net, LosingRun(i, m))
    ensures Run(net, LosingRun(i, m)).gone == [m.(size := m.size + 2)]
  {
    hide Run, OrderlyRun, Step, ThereAndBack, QueueAndFail, Empty, Quiet, SetCbd;
    EmptyIsQuiet(net, i);
    QuietIsFormed(net, i);
    ThereAndBackDeclares(net, i);
    var n1 := SetCbd(net, i, true, true);
    SetCbdQuiet(net, i, true, true);
    QuietLists(n1, i);
    SpsStay(net, i, true, true);
    QueuedAndTaken(n1, i, m);
    var before := ThereAndBack(i) + QueueAndFail(i, m);
    RunConcat(net, ThereAndBack(i), QueueAndFail(i, m));
    var n2 := Run(net, before);
    RunAppends(net, before, ExpireT4(i, ChangebackGivenUp));
    RunAppends(net, before + [ExpireT4(i, ChangebackGivenUp)], Prepare(i));
    if OrderlyRun(net, LosingRun(i, m)) {
      LastTwo(net, before, ExpireT4(i, ChangebackGivenUp), Prepare(i));
    }
    GivenUpThenPrepared(n2, i);
    OneUser(m.(size := m.size + 2));
  }

  lemma SpsStay(net: Net, i: nat, sentCbd: bool, t4: bool)
    requires i < |net.links|
    ensures var n := SetCbd(net, i, sentCbd, t4); n.sps == net.sps && n.gone == net.gone && n.divisor == net.divisor
  {
  }

  lemma GivenUpThenPrepared(net: Net, i: nat)
    requires Formed(net) && i < |net.links| && net.links[i].changeover == CHANGEOVER_INITIATED && net.links[i].t4
    ensures Step(Step(net, ExpireT4(i, ChangebackGivenUp)), Prepare(i)).gone
      == net.gone + Users(net.links[i].coTxBuf) + Users(net.links[i].coTxQ)
  {
    hide CancelChangeback, PrepareChangeover, Users;
    var n := SetCbd(SetCbd(net, i, true, false), i, false, false);
    LinksStay(n, CancelChangeback(n, i));
    AbandonThenPrepareLoses(n, i);
  }

  lemma LastTwo(net: Net, ops: seq<Op>, x: Op, y: Op)
    requires Formed(net) && OrderlyRun(net, ops + [x] + [y])
    ensures Orderly(Run(net, ops), x)
  {
    var all := ops + [x] + [y];
    assert all[..|all|-1] == ops + [x] && (ops + [x])[..|ops + [x]|-1] == ops;
  }

  lemma OneUser(m: Msg)
    requires m.user
    ensures Users([m]) == [m] && Users([]) == []
  {
  }

  // ----- a message that comes back

  /** The peer orders a changeover of a link that is still up here: the message queued last ends up
      in the changeover buffer of the link, which is then changed over. */
  lemma ComesBackRun(net: Net, i: nat, fsn: nat, m: Msg)
    requires Empty(net) && i < |net.links| && m.user && m.size == m.len
    requires net.links[i].up && net.sps[net.links[i].sp].up && net.links[i].changeover == NO_CHANGEOVER
    requires (m.sls / net.divisor) % |net.links| == i
    ensures var n := Run(net, [SubmitUser(m), Prepare(i), PeerChangeover(i, fsn)]);
      Exists(n, CoBuf(i)) && m in Get(n, CoBuf(i)) && Completed(n, i)
  {
    hide Run, ChangeoverTo, Submit, PrepareChangeover, Empty, Users, HandedOver;
    EmptyIsQuiet(net, i);
    QueuedOnLink(net, i, m);
    var n1 := Queued(net, i, m);
    PrepareTakesOver(n1, i);
    PrepareKeepsRest(n1, i);
    var n2 := PrepareChangeover(n1, i);
    RunOfThree(net, SubmitUser(m), Prepare(i), PeerChangeover(i, fsn));
    TakenIsHandedOver(n2.links[i], fsn, m);
    UpLinkKeepsItsTraffic(n2, i, fsn, m);
  }

  lemma PrepareKeepsRest(net: Net, i: nat)
    requires i < |net.links| && net.links[i].changeover == NO_CHANGEOVER
    ensures var n := PrepareChangeover(net, i); |n.links| == |net.links| && n.sps == net.sps && n.divisor == net.divisor
  {
    hide Get, Users;
  }

  lemma TakenIsHandedOver(l: Link, fsn: nat, m: Msg)
    requires l.coTxQ == [m.(size := m.size + 2)] && m.user
    ensures m in HandedOver(l, fsn)
  {
  }

  // ----- the order of a hand-over, over runs

  lemma {:induction false} CountLinksAtLeast(ls: seq<Link>, i: nat, k: nat)
    requires i < |ls|
    ensures CountLink(ls[i], k) <= CountLinks(ls, k)
  {
    hide CountLink;
    if i > 0 {
      CountLinksAtLeast(ls[1..], i - 1, k);
    }
  }

  lemma {:induction false} CountsOne(ms: seq<Msg>, j: nat)
    requires j < |ms| && ms[j].user
    ensures Count(ms, ms[j].id) >= 1
  {
    if j > 0 {
      CountsOne(ms[1..], j - 1);
    }
  }

  lemma {:induction false} CountsTwo(ms: seq<Msg>, j: nat, h: nat)
    requires j < h < |ms| && ms[j].user && ms[h].user && ms[j].id == ms[h].id
    ensures Count(ms, ms[j].id) >= 2
  {
    if j > 0 {
      CountsTwo(ms[1..], j - 1, h - 1);
    } else {
      CountsOne(ms[1..], h - 1);
    }
  }

  lemma AddressesDiffer(ms: seq<Msg>)
    requires (forall m :: m in ms ==> m.user) && forall k :: Count(ms, k) <= 1
    ensures forall j, h :: 0 <= j < h < |ms| ==> ms[j].id != ms[h].id
  {
    hide Count;
    forall j, h | 0 <= j < h < |ms| ensures ms[j].id != ms[h].id {
      if ms[j].id == ms[h].id {
        CountsTwo(ms, j, h);
      }
    }
  }

  lemma UnackedCount(ms: seq<Msg>, fsn: nat, k: nat)
    ensures Count(Users(Unacked(ms, fsn)), k) <= Count(ms, k)
  {
    var kept := Unacked(ms, fsn);
    CountUsers(kept, k);
    CountAppend(kept, ms[|kept|..], k);
    assert ms == kept + ms[|kept|..];
  }

  /** Over every run in which users do not reuse the address of a message: a changeover keeps the
      order of sending exactly when at most one user message is unacknowledged. */
  lemma SendingOrderOverRuns(net: Net, ops: seq<Op>, i: nat, fsn: nat)
    requires Empty(net) && i < |Run(net, ops).links|
    requires forall k :: Count(Run(net, ops).submitted, k) <= 1
    ensures var l := Run(net, ops).links[i];
      HandedOver(l, fsn) == InSendingOrder(l, fsn) <==> |Users(Unacked(l.coTxBuf, fsn))| <= 1
  {
    hide Run, HandedOver, InSendingOrder, Count, Users, Unacked;
    var n := Run(net, ops);
    var l := n.links[i];
    var us := Users(Unacked(l.coTxBuf, fsn));
    OnlyUsers(Unacked(l.coTxBuf, fsn));
    forall k ensures Count(us, k) <= 1 {
      UnackedCount(l.coTxBuf, fsn, k);
      CountLinksAtLeast(n.links, i, k);
      NothingLostOrDoubled(net, ops, k);
      assert Count(l.coTxBuf, k) <= CountLink(l, k) <= Weight(n, k);
    }
    AddressesDiffer(us);
    SendingOrderIsKept(l, fsn);
  }
}
