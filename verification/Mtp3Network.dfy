/** The imperative form: links whose lists are spliced in place. Every method leaves the state the
    function of the same name in Mtp3Spec gives. */
module Mtp3Network {
  import Mtp3Spec
  import opened Types = Mtp3Spec
  import opened Options

  /** struct mtp2 as MTP3 uses it. */
  class SignallingLink {
    const sp: nat
    var up: bool
    var changeover: Changeover
    var sentCbd: bool
    var t4: bool
    var txQ: seq<Msg>
    var txBuf: seq<Msg>
    var coTxQ: seq<Msg>
    var coTxBuf: seq<Msg>
    var coBuf: seq<Msg>
    var cbBuf: seq<Msg>

    constructor (sp: nat)
      ensures View() == Link(sp, false, NO_CHANGEOVER, false, false, [], [], [], [], [], [])
    {
      this.sp := sp;
      up, changeover, sentCbd, t4 := false, NO_CHANGEOVER, false, false;
      txQ, txBuf, coTxQ, coTxBuf, coBuf, cbBuf := [], [], [], [], [], [];
    }

    function View(): Link
      reads this
    {
      Link(sp, up, changeover, sentCbd, t4, txQ, txBuf, coTxQ, coTxBuf, coBuf, cbBuf)
    }

    method SetList(p: Place, ms: seq<Msg>)
      requires !p.RouteQ?
      modifies this
      ensures View() == WithList(old(View()), p, ms)
    {
      match p
      case TxQ(_) => txQ := ms;
      case TxBuf(_) => txBuf := ms;
      case CoTxQ(_) => coTxQ := ms;
      case CoTxBuf(_) => coTxBuf := ms;
      case CoBuf(_) => coBuf := ms;
      case CbBuf(_) => cbBuf := ms;
    }
  }

  // ----- loops over one list

  /** mtp3_move_buffer on two lists: what stays and what the other list becomes. */
  method MoveBuffer(from: seq<Msg>, to: seq<Msg>, dpc: Option<nat>, counted: bool)
    returns (left: seq<Msg>, dst: seq<Msg>)
    ensures left == Kept(from, dpc) && dst == to + Taken(from, dpc, counted)
  {
    hide Kept, Taken;
    left, dst := [], to;
    var cur := from;
    while cur != []
      invariant left + Kept(cur, dpc) == Kept(from, dpc)
      invariant dst + Taken(cur, dpc, counted) == to + Taken(from, dpc, counted)
      decreases |cur|
    {
      ghost var rest := cur[1..];
      StepApart(cur, dpc, counted);
      if Selected(cur[0], dpc) {
        var m := if counted then cur[0].(size := cur[0].size - 2) else cur[0];
        assert dst + ([m] + Taken(rest, dpc, counted)) == (dst + [m]) + Taken(rest, dpc, counted);
        dst := dst + [m];
      } else {
        assert left + ([cur[0]] + Kept(rest, dpc)) == (left + [cur[0]]) + Kept(rest, dpc);
        left := left + [cur[0]];
      }
      cur := cur[1..];
    }
    NothingApart(dpc, counted);
  }

  lemma NothingApart(dpc: Option<nat>, counted: bool)
    ensures Kept([], dpc) == [] && Taken([], dpc, counted) == []
  {
  }

  lemma StepApart(ms: seq<Msg>, dpc: Option<nat>, counted: bool)
    requires ms != []
    ensures var m := if counted then ms[0].(size := ms[0].size - 2) else ms[0];
      && Kept(ms, dpc) == (if Selected(ms[0], dpc) then Kept(ms[1..], dpc) else [ms[0]] + Kept(ms[1..], dpc))
      && Taken(ms, dpc, counted)
         == if Selected(ms[0], dpc) then [m] + Taken(ms[1..], dpc, counted) else Taken(ms[1..], dpc, counted)
  {
  }

  /** update_txbuf: the list is cut before the newest unit with this FSN. */
  method UpdateTxbuf(list: seq<Msg>, fsn: nat) returns (kept: seq<Msg>)
    ensures kept == Unacked(list, fsn)
  {
    hide Unacked;
    var i := 0;
    UnackedFrom(list, 0, fsn);
    while i < |list| && list[i].fsn != fsn
      invariant i <= |list|
      invariant Unacked(list, fsn) == list[..i] + Unacked(list[i..], fsn)
    {
      UnackedFrom(list, i, fsn);
      i := i + 1;
    }
    UnackedFrom(list, i, fsn);
    kept := list[..i];
  }

  lemma UnackedFrom(list: seq<Msg>, i: nat, fsn: nat)
    requires i <= |list|
    ensures list[..0] + Unacked(list[0..], fsn) == Unacked(list, fsn)
    ensures i == |list| || list[i].fsn == fsn ==> list[..i] + Unacked(list[i..], fsn) == list[..i]
    ensures i < |list| && list[i].fsn != fsn ==>
      list[..i] + Unacked(list[i..], fsn) == list[..i+1] + Unacked(list[i+1..], fsn)
  {
    assert list[0..] == list;
    if i < |list| {
      var tail := Unacked(list[i+1..], fsn);
      assert list[i..][1..] == list[i+1..];
      assert list[..i] + ([list[i]] + tail) == list[..i+1] + tail;
    }
  }

  /** The search for a route, as link_available and mtp3_add_set_route do it. */
  method SearchRoute(routes: seq<Route>, dpc: nat) returns (r: nat)
    ensures r == FindRoute(routes, dpc)
  {
    r := 0;
    while r < |routes| && routes[r].dpc != dpc
      invariant r <= |routes|
      invariant FindRoute(routes, dpc) == r + FindRoute(routes[r..], dpc)
    {
      assert routes[r..][1..] == routes[r+1..];
      r := r + 1;
    }
  }

  lemma PutSparesHistory(net: Net, p: Place, ms: seq<Msg>)
    requires Exists(net, p)
    ensures var n := Mtp3Spec.Put(net, p, ms);
      n.submitted == net.submitted && n.gone == net.gone && n.refused == net.refused
  {
  }

  class Ss7 {
    const links: seq<SignallingLink>
    const divisor: nat
    var sps: seq<Sp>
    ghost var submitted: seq<Msg>
    ghost var gone: seq<Msg>
    ghost var refused: seq<Msg>

    ghost predicate Valid()
      reads this, links
    {
      && |links| > 0 && divisor > 0
      && (forall i, j :: 0 <= i < j < |links| ==> links[i] != links[j])
      && (forall i :: 0 <= i < |links| ==> links[i].sp < |sps|)
    }

    ghost function View(): (n: Net)
      reads this, links
      ensures Valid() ==> Formed(n)
    {
      Net(seq(|links|, i requires 0 <= i < |links| reads links => links[i].View()), sps, divisor, submitted, gone, refused)
    }

    predicate Here(p: Place)
      reads this
      ensures Here(p) <==> Exists(View(), p)
    {
      if p.RouteQ? then p.sp < |sps| && p.route < |sps[p.sp].routes| else p.link < |links|
    }

    function At(p: Place): (ms: seq<Msg>)
      requires Here(p)
      reads this, links
      ensures ms == Get(View(), p)
    {
      if p.RouteQ? then sps[p.sp].routes[p.route].q else ListOf(links[p.link].View(), p)
    }

    method Put(p: Place, ms: seq<Msg>)
      requires Valid() && Here(p)
      modifies this, links
      ensures Valid() && View() == Mtp3Spec.Put(old(View()), p, ms)
    {
      if p.RouteQ? {
        var routes := sps[p.sp].routes;
        sps := sps[p.sp := sps[p.sp].(routes := routes[p.route := routes[p.route].(q := ms)])];
      } else {
        links[p.link].SetList(p, ms);
        assert View().links == old(View()).links[p.link := WithList(old(View()).links[p.link], p, ms)];
      }
    }

    method SetChangeover(i: nat, c: Changeover)
      requires Valid() && i < |links|
      modifies this, links
      ensures Valid() && View() == Mtp3Spec.SetChangeover(old(View()), i, c)
    {
      links[i].changeover := c;
      assert View().links == old(View()).links[i := old(View()).links[i].(changeover := c)];
    }

    method SetCbd(i: nat, sentCbd: bool, t4: bool)
      requires Valid() && i < |links|
      modifies this, links
      ensures Valid() && View() == Mtp3Spec.SetCbd(old(View()), i, sentCbd, t4)
    {
      links[i].sentCbd, links[i].t4 := sentCbd, t4;
      assert View().links == old(View()).links[i := old(View()).links[i].(sentCbd := sentCbd, t4 := t4)];
    }

    // ----- choosing a list

    method LinkAvailable(i: nat, dpc: nat) returns (p: Option<Place>)
      requires Valid() && i < |links|
      ensures p == Mtp3Spec.LinkAvailable(View(), i, dpc)
    {
      var l := links[i];
      if (l.up && sps[l.sp].up && l.changeover != CHANGEOVER_COMPLETED)
         || l.changeover == CHANGEOVER_IN_PROGRESS || l.changeover == CHANGEBACK_INITIATED
      {
        var routes := sps[l.sp].routes;
        var r := SearchRoute(routes, dpc);
        if r < |routes| && routes[r].t6 { return Some(RouteQ(l.sp, r)); }
        if r < |routes| && routes[r].state != TFR_NON_ACTIVE && routes[r].state != TFA { return None; }
        match l.changeover
        case CHANGEOVER_IN_PROGRESS | CHANGEOVER_INITIATED => return Some(CoBuf(i));
        case CHANGEBACK_INITIATED | CHANGEBACK => return Some(CbBuf(i));
        case _ => return Some(TxQ(i));
      }
      p := None;
    }

    method RlToLink(m: Msg) returns (p: Option<Place>)
      requires Valid()
      ensures p == Mtp3Spec.RlToLink(View(), m)
    {
      hide Mtp3Spec.LinkAvailable;
      p := LinkAvailable((m.sls / divisor) % |links|, m.dpc);
      if p.Some? { return; }
      var i := 0;
      while i < |links|
        invariant i <= |links|
        invariant FirstAvailable(View(), 0, m.dpc) == FirstAvailable(View(), i, m.dpc)
      {
        p := LinkAvailable(i, m.dpc);
        if p.Some? { return; }
        i := i + 1;
      }
      p := None;
    }

    /** mtp3_transmit of a user message. */
    method Transmit(m: Msg)
      requires Valid()
      modifies this, links
      ensures Valid() && View() == Mtp3Spec.Transmit(old(View()), m)
    {
      hide Mtp3Spec.Put, Mtp3Spec.RlToLink, Stored, ListOf;
      var p := RlToLink(m);
      match p
      case None => refused := refused + [m];
      case Some(q) => Put(q, At(q) + [Stored(q, m)]);
    }

    /** The messages of a list, first to last; the list itself is left alone. */
    method TransmitAll(ms: seq<Msg>)
      requires Valid()
      modifies this, links
      ensures Valid() && View() == Mtp3Spec.TransmitAll(old(View()), ms)
    {
      ghost var was := View();
      var cur := ms;
      while cur != []
        invariant Valid()
        invariant Mtp3Spec.TransmitAll(View(), cur) == Mtp3Spec.TransmitAll(was, ms)
        decreases |cur|
      {
        Transmit(cur[0]);
        cur := cur[1..];
      }
    }

    method TransmitBuffer(p: Place)
      requires Valid() && Here(p)
      modifies this, links
      ensures Valid() && View() == Drain(old(View()), p)
    {
      TransmitKeepsShape(View(), At(p));
      TransmitAll(At(p));
      Put(p, []);
    }

    // ----- moving lists

    method Extract(p: Place, dpc: Option<nat>) returns (taken: seq<Msg>)
      requires Valid() && Here(p)
      modifies this, links
      ensures Valid() && (View(), taken) == Mtp3Spec.Extract(old(View()), p, dpc)
    {
      var left, dst := MoveBuffer(At(p), [], dpc, Counted(p));
      taken := dst;
      assert taken == Taken(At(p), dpc, Counted(p));
      Put(p, left);
    }

    method Move(p: Place, q: Place, dpc: Option<nat>)
      requires Valid() && Here(p) && Here(q)
      modifies this, links
      ensures Valid() && View() == Mtp3Spec.Move(old(View()), p, q, dpc)
    {
      hide Mtp3Spec.Put, Kept, Taken, Get, ListOf;
      var taken := Extract(p, dpc);
      Put(q, At(q) + taken);
    }

    method Purge(p: Place, dpc: Option<nat>)
      requires Valid() && Here(p)
      modifies this, links
      ensures Valid() && View() == Mtp3Spec.Purge(old(View()), p, dpc)
    {
      var taken := Extract(p, dpc);
      gone := gone + taken;
    }

    method Free(p: Place)
      requires Valid() && Here(p)
      modifies this, links
      ensures Valid() && View() == Mtp3Spec.Free(old(View()), p)
    {
      hide Mtp3Spec.Put, Users, ListOf;
      ghost var lost := Users(At(p));
      PutSparesHistory(View(), p, []);
      Put(p, []);
      gone := gone + lost;
    }

    method FreeCo(i: nat)
      requires Valid() && i < |links|
      modifies this, links
      ensures Valid() && View() == Mtp3Spec.FreeCo(old(View()), i)
    {
      hide Mtp3Spec.Free;
      Free(CoTxBuf(i));
      Free(CoTxQ(i));
    }

    method Acknowledge(p: Place, fsn: nat)
      requires Valid() && Here(p)
      modifies this, links
      ensures Valid() && View() == Mtp3Spec.Acknowledge(old(View()), p, fsn)
    {
      hide Mtp3Spec.Put, Users, Unacked;
      var list := At(p);
      var kept := UpdateTxbuf(list, fsn);
      PutSparesHistory(View(), p, kept);
      Put(p, kept);
      gone := gone + Users(list[|kept|..]);
    }

    method Hand(p: Place, q: Place)
      requires Valid() && Here(p) && Here(q) && p != q
      modifies this, links
      ensures Valid() && View() == Mtp3Spec.Hand(old(View()), p, q)
    {
      Free(q);
      Put(q, At(p));
      Put(p, []);
    }

    // ----- changeover and changeback

    method CancelChangeover(i: nat)
      requires Valid() && i < |links|
      modifies this, links
      ensures Valid() && View() == Mtp3Spec.CancelChangeover(old(View()), i)
    {
      hide Mtp3Spec.Move, Mtp3Spec.SetChangeover, Mtp3Spec.FreeCo;
      Move(CoTxQ(i), CbBuf(i), None);
      Move(CoBuf(i), CbBuf(i), None);
      SetChangeover(i, NO_CHANGEOVER);
      FreeCo(i);
    }

    method CancelChangeback(i: nat)
      requires Valid() && i < |links|
      modifies this, links
      ensures Valid() && View() == Mtp3Spec.CancelChangeback(old(View()), i)
    {
      hide Mtp3Spec.Move, Mtp3Spec.SetChangeover, Mtp3Spec.SetCbd;
      Move(CbBuf(i), CoBuf(i), None);
      SetChangeover(i, NO_CHANGEOVER);
      SetCbd(i, links[i].sentCbd, false);
    }

    method LeaveChangeback(i: nat)
      requires Valid() && i < |links|
      modifies this, links
      ensures Valid() && View() == Mtp3Spec.LeaveChangeback(old(View()), i)
    {
      hide Mtp3Spec.CancelChangeback;
      if links[i].changeover == CHANGEBACK || links[i].changeover == CHANGEBACK_INITIATED {
        CancelChangeback(i);
      }
    }

    method PrepareChangeover(i: nat)
      requires Valid() && i < |links|
      modifies this, links
      ensures Valid() && View() == Mtp3Spec.PrepareChangeover(old(View()), i)
    {
      hide Mtp3Spec.LeaveChangeback, Mtp3Spec.SetChangeover, Mtp3Spec.Hand;
      LeaveChangeback(i);
      if links[i].changeover != CHANGEOVER_INITIATED {
        SetChangeover(i, CHANGEOVER_INITIATED);
        Hand(TxBuf(i), CoTxBuf(i));
        Hand(TxQ(i), CoTxQ(i));
      }
    }

    method GatherQueued(i: nat) returns (ms: seq<Msg>)
      requires Valid() && i < |links|
      modifies this, links
      ensures Valid() && (View(), ms) == Mtp3Spec.GatherQueued(old(View()), i)
    {
      hide Mtp3Spec.Extract;
      var queued := Extract(CoTxQ(i), None);
      var buffered := Extract(CoBuf(i), None);
      ms := queued + buffered;
    }

    method Complete(i: nat, ms: seq<Msg>)
      requires Valid() && i < |links|
      modifies this, links
      ensures Valid() && View() == Mtp3Spec.Complete(old(View()), i, ms)
    {
      hide Mtp3Spec.TransmitAll, Mtp3Spec.SetChangeover, Mtp3Spec.FreeCo;
      TransmitAll(ms);
      SetChangeover(i, CHANGEOVER_COMPLETED);
      FreeCo(i);
    }

    /** mtp3_changeover. */
    method ChangeoverTo(i: nat, fsn: nat)
      requires Valid() && i < |links|
      modifies this, links
      ensures Valid() && View() == Mtp3Spec.ChangeoverTo(old(View()), i, fsn)
    {
      hide Mtp3Spec.LeaveChangeback, Mtp3Spec.Acknowledge, Mtp3Spec.Extract, Mtp3Spec.GatherQueued, Mtp3Spec.Complete;
      LeaveChangeback(i);
      if links[i].changeover == NO_CHANGEOVER || links[i].changeover == CHANGEOVER_INITIATED {
        Acknowledge(CoTxBuf(i), fsn);
        var unacked := Extract(CoTxBuf(i), None);
        var queued := GatherQueued(i);
        Complete(i, unacked + queued);
      }
    }

    method TimedChangeover(i: nat)
      requires Valid() && i < |links|
      modifies this, links
      ensures Valid() && View() == Mtp3Spec.TimedChangeover(old(View()), i)
    {
      hide Mtp3Spec.LeaveChangeback, Mtp3Spec.SetChangeover, Mtp3Spec.Move, Mtp3Spec.FreeCo;
      LeaveChangeback(i);
      if links[i].changeover == NO_CHANGEOVER {
        SetChangeover(i, CHANGEOVER_IN_PROGRESS);
        Move(TxQ(i), CoBuf(i), None);
        FreeCo(i);
      }
    }

    method T1Expired(i: nat)
      requires Valid() && i < |links|
      modifies this, links
      ensures Valid() && View() == Mtp3Spec.T1Expired(old(View()), i)
    {
      hide Mtp3Spec.SetChangeover, Drain, Mtp3Spec.FreeCo;
      SetChangeover(i, CHANGEOVER_COMPLETED);
      TransmitBuffer(CoBuf(i));
      FreeCo(i);
    }

    method T2Expired(i: nat)
      requires Valid() && i < |links|
      modifies this, links
      ensures Valid() && View() == Mtp3Spec.T2Expired(old(View()), i)
    {
      hide Mtp3Spec.GatherQueued, Mtp3Spec.Complete;
      var ms := GatherQueued(i);
      Complete(i, ms);
    }

    method T3Expired(i: nat)
      requires Valid() && i < |links|
      modifies this, links
      ensures Valid() && View() == Mtp3Spec.T3Expired(old(View()), i)
    {
      hide Mtp3Spec.SetChangeover, Drain, Mtp3Spec.FreeCo;
      SetChangeover(i, NO_CHANGEOVER);
      TransmitBuffer(CbBuf(i));
      FreeCo(i);
    }

    method Changeback(i: nat)
      requires Valid() && i < |links|
      modifies this, links
      ensures Valid() && View() == Mtp3Spec.Changeback(old(View()), i)
    {
      hide Mtp3Spec.CancelChangeover, Mtp3Spec.Move, Mtp3Spec.SetChangeover;
      var c := links[i].changeover;
      if c == CHANGEOVER_IN_PROGRESS || c == CHANGEOVER_INITIATED {
        CancelChangeover(i);
      } else if c != CHANGEBACK && c != NO_CHANGEOVER {
        Move(TxQ(i), CbBuf(i), None);
        SetChangeover(i, CHANGEBACK);
      }
    }

    // ----- the changeback declaration

    /** The part of std_test_receive for a link that was changed over. */
    method StartChangeback(i: nat, room: bool)
      requires Valid() && i < |links|
      modifies this, links
      ensures Valid() && View() == Mtp3Spec.StartChangeback(old(View()), i, room)
    {
      hide Mtp3Spec.CancelChangeover, Mtp3Spec.SetChangeover, Mtp3Spec.SetCbd;
      var c := links[i].changeover;
      if c != NO_CHANGEOVER && c != CHANGEBACK && c != CHANGEBACK_INITIATED {
        SetCbd(i, true, links[i].t4 || room);
        if c == CHANGEOVER_IN_PROGRESS || c == CHANGEOVER_INITIATED {
          CancelChangeover(i);
        }
        SetChangeover(i, CHANGEBACK_INITIATED);
      }
    }

    method CbdAnswered(i: nat)
      requires Valid() && i < |links|
      modifies this, links
      ensures Valid() && View() == Mtp3Spec.CbdAnswered(old(View()), i)
    {
      hide Mtp3Spec.Changeback, Mtp3Spec.SetCbd;
      if links[i].sentCbd {
        SetCbd(i, false, false);
        Changeback(i);
      }
    }

    method AbandonChangeback(i: nat)
      requires Valid() && i < |links|
      modifies this, links
      ensures Valid() && View() == Mtp3Spec.AbandonChangeback(old(View()), i)
    {
      hide Mtp3Spec.CancelChangeback, Mtp3Spec.SetCbd;
      if links[i].sentCbd {
        SetCbd(i, false, links[i].t4);
        CancelChangeback(i);
      }
    }

    method T4Expired(i: nat, fate: Fate)
      requires Valid() && i < |links|
      modifies this, links
      ensures Valid() && View() == Mtp3Spec.T4Expired(old(View()), i, fate)
    {
      hide Mtp3Spec.TimedChangeover, Mtp3Spec.AbandonChangeback, Mtp3Spec.SetCbd;
      SetCbd(i, true, false);
      match fate
      case Written =>
      case OrderGivenUp => TimedChangeover(i);
      case ChangebackGivenUp => AbandonChangeback(i);
    }

    method T5Expired(i: nat)
      requires Valid() && i < |links|
      modifies this, links
      ensures Valid() && View() == Mtp3Spec.T5Expired(old(View()), i)
    {
      hide Mtp3Spec.T3Expired, Mtp3Spec.SetCbd;
      SetCbd(i, false, links[i].t4);
      T3Expired(i);
    }

    // ----- routes

    method SetT6(s: nat, r: nat, t6: bool)
      requires Valid() && Here(RouteQ(s, r))
      modifies this
      ensures Valid() && View() == Mtp3Spec.SetT6(old(View()), s, r, t6)
    {
      var routes := sps[s].routes;
      sps := sps[s := sps[s].(routes := routes[r := routes[r].(t6 := t6)])];
    }

    method RerouteLink(i: nat, s: nat, r: nat, free: bool)
      requires Valid() && i < |links| && Here(RouteQ(s, r))
      modifies this, links
      ensures Valid() && View() == Mtp3Spec.RerouteLink(old(View()), i, s, r, free)
    {
      hide Mtp3Spec.Move, Mtp3Spec.Purge;
      var q := RouteQ(s, r);
      var d := Some(sps[s].routes[r].dpc);
      Move(TxQ(i), q, d);
      if free {
        Move(CoTxQ(i), q, d);
        Move(CoBuf(i), q, d);
        Move(CbBuf(i), q, d);
        Purge(TxBuf(i), d);
        Purge(CoTxBuf(i), d);
      } else {
        Move(CoBuf(i), q, d);
        Move(CbBuf(i), q, d);
        Move(CoTxQ(i), q, d);
      }
    }

    method Reroute(s: nat, r: nat, free: bool)
      requires Valid() && Here(RouteQ(s, r))
      modifies this, links
      ensures Valid() && View() == RerouteFrom(old(View()), 0, s, r, free)
    {
      hide Mtp3Spec.RerouteLink;
      ghost var was := View();
      var i := 0;
      while i < |links|
        invariant i <= |links| && Valid() && Here(RouteQ(s, r))
        invariant RerouteFrom(View(), i, s, r, free) == RerouteFrom(was, 0, s, r, free)
      {
        if links[i].sp == s {
          RerouteLink(i, s, r, free);
        }
        i := i + 1;
      }
    }

    method ForcedReroute(s: nat, r: nat)
      requires Valid() && Here(RouteQ(s, r))
      modifies this, links
      ensures Valid() && View() == Mtp3Spec.ForcedReroute(old(View()), s, r)
    {
      hide RerouteFrom, Mtp3Spec.SetT6, Drain;
      Reroute(s, r, true);
      SetT6(s, r, false);
      TransmitBuffer(RouteQ(s, r));
    }

    method ControlledReroute(s: nat, r: nat, room: bool)
      requires Valid() && Here(RouteQ(s, r))
      modifies this, links
      ensures Valid() && View() == Mtp3Spec.ControlledReroute(old(View()), s, r, room)
    {
      hide RerouteFrom, Mtp3Spec.SetT6;
      Reroute(s, r, false);
      SetT6(s, r, room);
    }

    method AddSetRoute(s: nat, pc: nat, state: RouteState, room: bool)
      requires Valid() && s < |sps|
      modifies this, links
      ensures Valid() && View() == Mtp3Spec.AddSetRoute(old(View()), s, pc, state, room)
    {
      hide Mtp3Spec.ForcedReroute, Mtp3Spec.ControlledReroute, FindRoute;
      var dpc := ShortCode(pc);
      var routes := sps[s].routes;
      var r := SearchRoute(routes, dpc);
      if r == |routes| && state == TFA { return; }
      if r < |routes| {
        sps := sps[s := sps[s].(routes := routes[r := routes[r].(state := state)])];
      } else {
        sps := sps[s := sps[s].(routes := routes + [Route(dpc, state, false, [])])];
      }
      assert View() == PutRoute(old(View()), s, r, sps[s].routes[r]);
      if state == TFP {
        ForcedReroute(s, r);
      } else if state == TFA || state == TFR_ACTIVE {
        ControlledReroute(s, r, room);
      }
    }

    method DestroyRoute(s: nat, r: nat)
      requires Valid() && Here(RouteQ(s, r))
      modifies this
      ensures Valid() && View() == Mtp3Spec.DestroyRoute(old(View()), s, r)
    {
      var routes := sps[s].routes;
      gone := gone + Users(routes[r].q);
      sps := sps[s := sps[s].(routes := routes[..r] + routes[r+1..])];
    }

    method T6Expired(s: nat, r: nat)
      requires Valid() && Here(RouteQ(s, r))
      modifies this, links
      ensures Valid() && View() == Mtp3Spec.T6Expired(old(View()), s, r)
    {
      hide Mtp3Spec.SetT6, Mtp3Spec.Put, Mtp3Spec.TransmitAll, Mtp3Spec.DestroyRoute;
      var state := sps[s].routes[r].state;
      SetT6(s, r, false);
      TransmitKeepsShape(View(), At(RouteQ(s, r)));
      TransmitBuffer(RouteQ(s, r));
      if state == TFA {
        DestroyRoute(s, r);
      }
    }
  }
}
