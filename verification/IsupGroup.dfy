/** Group blocking: the range and status parameter, and the exchange of CGB and CGBA. */
module IsupGroup {
  import opened Octets
  import opened Options

  const STATUS_SIZE := 255

  // ----- the range and status parameter

  function Mask(b: nat): Octet {
    if b == 0 then 1 else if b == 1 then 2 else if b == 2 then 4 else if b == 3 then 8
    else if b == 4 then 16 else if b == 5 then 32 else if b == 6 then 64 else 128
  }

  function Pack(b0: bool, b1: bool, b2: bool, b3: bool, b4: bool, b5: bool, b6: bool, b7: bool): Octet {
    (if b0 then 1 else 0) | (if b1 then 2 else 0) | (if b2 then 4 else 0) | (if b3 then 8 else 0)
      | (if b4 then 16 else 0) | (if b5 then 32 else 0) | (if b6 then 64 else 0) | (if b7 then 128 else 0)
  }

  /** The status of circuit i, as far as the range goes. */
  predicate Set(status: seq<Octet>, range: nat, i: nat) { i <= range && i < |status| && status[i] != 0 }

  function StatusOctet(status: seq<Octet>, range: nat, j: nat): Octet {
    Pack(Set(status, range, 8 * j), Set(status, range, 8 * j + 1), Set(status, range, 8 * j + 2), Set(status, range, 8 * j + 3),
         Set(status, range, 8 * j + 4), Set(status, range, 8 * j + 5), Set(status, range, 8 * j + 6), Set(status, range, 8 * j + 7))
  }

  function StatusLen(range: nat): nat { (range + 1) / 8 + if (range + 1) % 8 != 0 then 1 else 0 }

  /** One bit a circuit, the first in the lowest bit of the first octet. */
  function Bitmap(status: seq<Octet>, range: nat): (s: seq<Octet>)
    ensures |s| == StatusLen(range)
  {
    seq(StatusLen(range), j requires 0 <= j < StatusLen(range) => StatusOctet(status, range, j))
  }

  predicate BitAt(bits: seq<Octet>, i: nat)
    requires i / 8 < |bits|
  {
    bits[i / 8] & Mask(i % 8) != 0
  }

  /** The status array after a bitmap was received: the circuits of the range are 0 or 1, the
      others stay. */
  function Unpacked(bits: seq<Octet>, range: nat, before: seq<Octet>): (s: seq<Octet>)
    requires |bits| >= StatusLen(range)
    ensures |s| == |before|
  {
    seq(|before|, i requires 0 <= i < |before| => if i > range then before[i] else if BitAt(bits, i) then 1 else 0)
  }

  lemma PackedBit(b0: bool, b1: bool, b2: bool, b3: bool, b4: bool, b5: bool, b6: bool, b7: bool)
    ensures var o := Pack(b0, b1, b2, b3, b4, b5, b6, b7);
      && (o & 1 != 0 <==> b0) && (o & 2 != 0 <==> b1) && (o & 4 != 0 <==> b2) && (o & 8 != 0 <==> b3)
      && (o & 16 != 0 <==> b4) && (o & 32 != 0 <==> b5) && (o & 64 != 0 <==> b6) && (o & 128 != 0 <==> b7)
  {
  }

  /** A bit of the bitmap says whether the status of its circuit is set. */
  lemma BitIsRead(status: seq<Octet>, range: nat, i: nat)
    requires i / 8 < StatusLen(range)
    ensures BitAt(Bitmap(status, range), i) <==> Set(status, range, i)
  {
    hide StatusOctet, Mask, Set;
    OctetBit(status, range, i / 8, i % 8);
    assert i == 8 * (i / 8) + i % 8;
    assert Bitmap(status, range)[i / 8] == StatusOctet(status, range, i / 8);
  }

  lemma OctetBit(status: seq<Octet>, range: nat, j: nat, b: nat)
    requires b < 8
    ensures StatusOctet(status, range, j) & Mask(b) != 0 <==> Set(status, range, 8 * j + b)
  {
    hide Pack, Set;
    PackedBit(Set(status, range, 8 * j), Set(status, range, 8 * j + 1), Set(status, range, 8 * j + 2),
              Set(status, range, 8 * j + 3), Set(status, range, 8 * j + 4), Set(status, range, 8 * j + 5),
              Set(status, range, 8 * j + 6), Set(status, range, 8 * j + 7));
  }

  /** What is received is whether each status was set, whatever the array held before. */
  lemma StatusIsRead(status: seq<Octet>, range: nat, before: seq<Octet>)
    requires range < |status| && range < |before|
    ensures var s := Unpacked(Bitmap(status, range), range, before);
      && (forall i :: 0 <= i <= range ==> s[i] == if status[i] != 0 then 1 else 0)
      && (forall i :: range < i < |before| ==> s[i] == before[i])
  {
    hide Bitmap, BitAt;
    forall i | 0 <= i <= range ensures BitAt(Bitmap(status, range), i) <==> status[i] != 0 {
      BitIsRead(status, range, i);
    }
  }

  /** Equal statuses make equal bitmaps, and the other way round. */
  lemma BitmapIsFaithful(a: seq<Octet>, b: seq<Octet>, range: nat)
    requires range < |a| && range < |b|
    ensures Bitmap(a, range) == Bitmap(b, range) <==> forall i :: 0 <= i <= range ==> (a[i] != 0 <==> b[i] != 0)
  {
    hide BitAt, StatusOctet;
    if Bitmap(a, range) == Bitmap(b, range) {
      forall i | 0 <= i <= range ensures a[i] != 0 <==> b[i] != 0 {
        BitIsRead(a, range, i);
        BitIsRead(b, range, i);
      }
    }
    if forall i :: 0 <= i <= range ==> (a[i] != 0 <==> b[i] != 0) {
      forall j | 0 <= j < StatusLen(range) ensures StatusOctet(a, range, j) == StatusOctet(b, range, j) {
        SameOctet(a, b, range, j);
      }
    }
  }

  lemma SameOctet(a: seq<Octet>, b: seq<Octet>, range: nat, j: nat)
    requires range < |a| && range < |b| && forall i :: 0 <= i <= range ==> (a[i] != 0 <==> b[i] != 0)
    ensures StatusOctet(a, range, j) == StatusOctet(b, range, j)
  {
    hide Pack;
  }

  // ----- the group part of a call

  /** A range is a difference of circuit codes and negative when the end lies below the start.
      status has an octet behind its 255, which pads the structure: a received range of 255 sets it. */
  datatype Group = Group(
    range: int, status: seq<Octet>, kind: Octet,
    sentRange: int, sentStatus: seq<Octet>, sentKind: Octet,
    pending: bool, t18: bool, t19: bool)

  predicate Formed(g: Group) {
    && |g.status| == STATUS_SIZE + 1 && |g.sentStatus| == STATUS_SIZE
    && g.range < 256 && g.sentRange <= 31
  }

  /** The circuits of a range. */
  function Circuits(range: int): nat { if range < 0 then 0 else range + 1 }

  /** What range_and_status_transmit returns: one octet for the range and the length of the bitmap,
      with a division that truncates towards zero. */
  function ParmLen(range: int): int {
    if range >= 0 then 1 + StatusLen(range)
    else 1 - (-1 - range) / 8 + if (-1 - range) % 8 != 0 then 1 else 0
  }

  /** The range and status parameter in a zeroed buffer. Nothing is sent for a length of zero, and
      a negative length ends the message. */
  function RangeAndStatus(range: int, status: seq<Octet>): Option<seq<Octet>> {
    if range >= 0 then Some([ToOctet(range)] + Bitmap(status, range))
    else if ParmLen(range) < 0 then None
    else if ParmLen(range) == 0 then Some([])
    else Some([ToOctet(range % 256)] + seq(ParmLen(range) - 1, _ => 0))
  }

  /** The parameters of a group message: the type indicator, then range and status. */
  datatype Message = Message(kind: Octet, parm: seq<Octet>)

  function Encoded(range: int, status: seq<Octet>, kind: Octet): Option<Message> {
    match RangeAndStatus(range, status)
    case None => None
    case Some(parm) => Some(Message(kind & 0x3, parm))
  }

  /** The first circuits take the given states. */
  function Stored(status: seq<Octet>, states: seq<Octet>): (s: seq<Octet>)
    requires |states| <= |status|
    ensures |s| == |status|
  {
    states + status[|states|..]
  }

  /** isup_cgb for at most 32 circuits, once the message is sent. */
  function Request(g: Group, range: int, states: seq<Octet>, kind: Octet): (r: Group)
    requires Formed(g) && range <= 31 && |states| == Circuits(range)
    ensures Formed(r)
  {
    g.(range := range, status := Stored(g.status, states), kind := kind,
       sentRange := range, sentStatus := Stored(g.sentStatus, states), sentKind := kind,
       pending := true, t18 := true, t19 := true)
  }

  predicate Readable(m: Message) { m.parm != [] && |m.parm| - 1 >= StatusLen(RangeOf(m)) }

  function RangeOf(m: Message): nat
    requires m.parm != []
  {
    Value(m.parm[0])
  }

  /** The receivers of the two parameters. */
  function Hear(g: Group, m: Message): (r: Group)
    requires Formed(g) && Readable(m)
    ensures Formed(r)
  {
    g.(kind := 0x3 & m.kind, range := RangeOf(m), status := Unpacked(m.parm[1..], RangeOf(m), g.status))
  }

  /** isup_cgba: the answer with the given states, of the type heard. */
  function Answer(g: Group, range: int, states: seq<Octet>): (r: (Group, Option<Message>))
    requires Formed(g) && range <= 31 && |states| == Circuits(range)
    ensures Formed(r.0)
  {
    var status := Stored(g.status, states);
    (g.(range := range, status := status), Encoded(range, status, g.kind))
  }

  /** isup_check_status finds no circuit answered that was not asked for. */
  predicate NoMore(sent: seq<Octet>, got: seq<Octet>, range: int)
    requires range < |sent| && range < |got|
  {
    forall i :: 0 <= i <= range ==> got[i] <= sent[i]
  }

  predicate Matches(g: Group)
    requires Formed(g)
  {
    g.range == g.sentRange && g.kind == g.sentKind && NoMore(g.sentStatus, g.status, g.range)
  }

  /** A CGBA that was asked for and matches ends the request; others leave it as it is. */
  function Conclude(g: Group): (r: Group)
    requires Formed(g)
    ensures Formed(r)
  {
    if g.pending && Matches(g) then g.(pending := false, t18 := false, t19 := false) else g
  }

  /** What T18 or T19 does before it sends CGB again. */
  function Restored(g: Group): (r: Group)
    requires Formed(g)
    ensures Formed(r)
  {
    g.(range := g.sentRange, kind := g.sentKind, status := Stored(g.status, g.sentStatus[..Circuits(g.sentRange)]))
  }

  function Resent(g: Group): Option<Message>
    requires Formed(g)
  {
    Encoded(Restored(g).range, Restored(g).status, Restored(g).kind)
  }

  // ----- the exchange

  /** What befalls the originator while it waits: messages with these parameters, answers it gives
      itself, expiries, and answers to its request. */
  datatype Event = Heard(m: Message) | Answered(range: int, states: seq<Octet>) | Expired | GotCgba(m: Message)

  predicate Possible(e: Event) {
    match e
    case Heard(m) => Readable(m)
    case GotCgba(m) => Readable(m)
    case Answered(range, states) => range <= 31 && |states| == Circuits(range)
    case Expired => true
  }

  function After(g: Group, e: Event): (r: Group)
    requires Formed(g)
    ensures Formed(r)
  {
    if !Possible(e) then g
    else
      match e
      case Heard(m) => Hear(g, m)
      case Answered(range, states) => Answer(g, range, states).0
      case Expired => Restored(g)
      case GotCgba(m) => Conclude(Hear(g, m))
  }

  function Run(g: Group, es: seq<Event>): (r: Group)
    requires Formed(g)
    ensures Formed(r)
    decreases |es|
  {
    if es == [] then g else After(Run(g, es[..|es|-1]), es[|es|-1])
  }

  ghost predicate SameRequest(a: Group, b: Group) {
    a.sentRange == b.sentRange && a.sentStatus == b.sentStatus && a.sentKind == b.sentKind
  }

  lemma {:induction false} RequestIsKept(g: Group, es: seq<Event>)
    requires Formed(g)
    ensures SameRequest(g, Run(g, es))
    decreases |es|
  {
    hide After, Formed;
    if es != [] {
      RequestIsKept(g, es[..|es|-1]);
      EventKeepsRequest(Run(g, es[..|es|-1]), es[|es|-1]);
    }
  }

  /** No event touches the request that was saved. */
  lemma EventKeepsRequest(g: Group, e: Event)
    requires Formed(g)
    ensures SameRequest(g, After(g, e))
  {
    hide Matches, Unpacked, Stored, Encoded, StatusLen;
  }

  /** Whatever was received or answered in between, T18 and T19 send the same message again. */
  lemma ResendsTheRequest(g: Group, range: int, states: seq<Octet>, kind: Octet, es: seq<Event>)
    requires Formed(g) && range <= 31 && |states| == Circuits(range)
    ensures var r := Request(g, range, states, kind);
      Resent(Run(r, es)) == Encoded(r.range, r.status, r.kind)
  {
    hide Bitmap, Run;
    var r := Request(g, range, states, kind);
    RequestIsKept(r, es);
    if range >= 0 {
      BitmapIsFaithful(Restored(Run(r, es)).status, r.status, range);
    }
  }

  /** How the peer hears a CGB, sent first or again. */
  lemma RequestIsHeard(g: Group, peer: Group)
    requires Formed(g) && Formed(peer) && g.sentRange >= 0
    ensures Resent(g).Some? && Readable(Resent(g).value)
    ensures var h := Hear(peer, Resent(g).value);
      && h.range == g.sentRange && h.kind == 0x3 & (g.sentKind & 0x3)
      && forall i :: 0 <= i <= g.sentRange ==> h.status[i] == if g.sentStatus[i] != 0 then 1 else 0
  {
    hide Bitmap, Unpacked, ToOctet, Value;
    var again := Restored(g);
    EncodedIsSplit(again.range, again.status, again.kind);
    StatusIsRead(again.status, again.range, peer.status);
  }

  lemma EncodedIsSplit(range: nat, status: seq<Octet>, kind: Octet)
    requires range < 256
    ensures var e := Encoded(range, status, kind);
      && e.Some? && e.value.kind == kind & 0x3
      && Readable(e.value) && RangeOf(e.value) == range && e.value.parm[1..] == Bitmap(status, range)
  {
    hide Bitmap, ToOctet, Value;
    ValueOf(range);
    assert ([ToOctet(range)] + Bitmap(status, range))[1..] == Bitmap(status, range);
  }

  /** The answer of a peer that echoes what it heard. */
  function Echo(peer: Group): Option<Message>
    requires Formed(peer) && 0 <= peer.range <= 31
  {
    Answer(peer, peer.range, peer.status[..peer.range + 1]).1
  }

  lemma EchoIsHeard(peer: Group, g: Group)
    requires Formed(g) && Formed(peer) && 0 <= peer.range <= 31
    ensures Echo(peer).Some? && Readable(Echo(peer).value)
    ensures var h := Hear(g, Echo(peer).value);
      && h.range == peer.range && h.kind == 0x3 & (peer.kind & 0x3)
      && forall i :: 0 <= i <= peer.range ==> h.status[i] == if peer.status[i] != 0 then 1 else 0
  {
    hide Bitmap, Unpacked, ToOctet, Value;
    assert Stored(peer.status, peer.status[..peer.range + 1]) == peer.status;
    EncodedIsSplit(peer.range, peer.status, peer.kind);
    StatusIsRead(peer.status, peer.range, g.status);
  }

  /** For every range of circuits, a peer that echoes what it decoded is accepted exactly when the
      type fits its two bits: the flag is cleared and both timers are stopped. */
  lemma EchoIsAccepted(g: Group, peer: Group)
    requires Formed(g) && Formed(peer) && g.pending && g.sentRange >= 0
    ensures Resent(g).Some? && Readable(Resent(g).value) && 0 <= Hear(peer, Resent(g).value).range <= 31
    ensures var answer := Echo(Hear(peer, Resent(g).value));
      && answer.Some? && Readable(answer.value)
      && (g.sentKind < 4 <==>
            Conclude(Hear(g, answer.value)) == Hear(g, answer.value).(pending := false, t18 := false, t19 := false))
  {
    hide Hear, Resent, Echo, Readable;
    RequestIsHeard(g, peer);
    var sent := Resent(g).value;
    HearingKeepsForm(peer, sent);
    var heard := Hear(peer, sent);
    EchoIsHeard(heard, g);
    HearingKeepsRequest(g, Echo(heard).value);
    KindBits(g.sentKind);
    EchoIsNoMore(heard.status, Hear(g, Echo(heard).value).status, g.sentStatus, g.sentRange);
  }

  lemma HearingKeepsForm(g: Group, m: Message)
    requires Formed(g) && Readable(m)
    ensures Formed(Hear(g, m))
  {
  }

  lemma HearingKeepsRequest(g: Group, m: Message)
    requires Formed(g) && Readable(m)
    ensures SameRequest(g, Hear(g, m)) && Hear(g, m).pending == g.pending
  {
  }

  lemma KindBits(kind: Octet)
    ensures 0x3 & ((0x3 & (kind & 0x3)) & 0x3) == kind <==> kind < 4
  {
  }

  lemma EchoIsNoMore(heard: seq<Octet>, got: seq<Octet>, sent: seq<Octet>, range: nat)
    requires range < |heard| && range < |got| && range < |sent|
    requires forall i :: 0 <= i <= range ==> heard[i] == if sent[i] != 0 then 1 else 0
    requires forall i :: 0 <= i <= range ==> got[i] == if heard[i] != 0 then 1 else 0
    ensures NoMore(sent, got, range)
  {
    forall i | 0 <= i <= range ensures got[i] <= sent[i] {
      OneIsLeast(sent[i]);
    }
  }

  lemma OneIsLeast(o: Octet)
    ensures 0 <= o && (o != 0 ==> 1 <= o)
  {
  }

  /** An answer is accepted exactly when range and type are those of the request and every circuit
      it reports was asked for. */
  lemma AcceptedExactly(g: Group, m: Message)
    requires Formed(g) && g.pending && Readable(m)
    ensures !Conclude(Hear(g, m)).pending <==>
      && RangeOf(m) == g.sentRange && (0x3 & m.kind) == g.sentKind
      && forall i :: 0 <= i <= g.sentRange && BitAt(m.parm[1..], i) ==> g.sentStatus[i] != 0
  {
    hide BitAt, Value;
    var h := Hear(g, m);
    if RangeOf(m) == g.sentRange {
      forall i | 0 <= i <= g.sentRange
        ensures h.status[i] <= g.sentStatus[i] <==> (BitAt(m.parm[1..], i) ==> g.sentStatus[i] != 0)
      {
        OneIsLeast(g.sentStatus[i]);
      }
    }
  }

  // ----- what a request and an answer are

  /** The bitmap has as many octets as the circuits need, and no more. */
  lemma StatusLenIsExact(range: nat)
    ensures 8 * StatusLen(range) - 8 < range + 1 <= 8 * StatusLen(range)
  {
  }

  /** A negative range sends its octet with one octet of zeros, or its octet alone, or nothing, or ends
      the message, by how far the end circuit lies below the first. */
  lemma NegativeRangeIsSent(range: int, status: seq<Octet>)
    requires range < 0
    ensures RangeAndStatus(range, status) ==
      if -8 <= range <= -2 then Some([ToOctet(range % 256), 0])
      else if range == -1 || -16 <= range <= -10 then Some([ToOctet(range % 256)])
      else if range == -9 || -24 <= range <= -18 then Some([])
      else None
  {
    hide ToOctet;
    var first := ToOctet(range % 256);
    assert ParmLen(range) <= 2;
    if ParmLen(range) == 2 {
      assert RangeAndStatus(range, status).value == [first, 0];
    } else if ParmLen(range) == 1 {
      assert RangeAndStatus(range, status).value == [first];
    }
  }

  /** The status array after states were stored: the first circuits have them, the others stay. */
  predicate Holds(now: seq<Octet>, was: seq<Octet>, states: seq<Octet>) {
    && |now| == |was| >= |states|
    && forall i :: 0 <= i < |now| ==> now[i] == if i < |states| then states[i] else was[i]
  }

  /** A request that was sent is saved beside the current parameters, is pending, and both its timers run. */
  lemma RequestIsSaved(g: Group, range: int, states: seq<Octet>, kind: Octet)
    requires Formed(g) && range <= 31 && |states| == Circuits(range)
    ensures var r := Request(g, range, states, kind);
      && r.range == r.sentRange == range && r.kind == r.sentKind == kind
      && Holds(r.status, g.status, states) && Holds(r.sentStatus, g.sentStatus, states)
      && r.pending && r.t18 && r.t19
  {
  }

  /** An answer carries its range, the type heard, and a bit for each circuit that is set; the call keeps
      range and states, and its own request is not touched. */
  lemma AnswerIsSent(g: Group, range: nat, states: seq<Octet>)
    requires Formed(g) && range <= 31 && |states| == range + 1
    ensures var (r, m) := Answer(g, range, states);
      && r == g.(range := range, status := r.status) && Holds(r.status, g.status, states)
      && m.Some? && Readable(m.value) && RangeOf(m.value) == range && m.value.kind == g.kind & 0x3
      && forall i :: 0 <= i <= range ==> (BitAt(m.value.parm[1..], i) <==> states[i] != 0)
  {
    hide Bitmap, BitAt, Readable, RangeOf;
    var (r, m) := Answer(g, range, states);
    EncodedIsSplit(range, r.status, g.kind);
    forall i | 0 <= i <= range ensures BitAt(m.value.parm[1..], i) <==> states[i] != 0 {
      StatusLenIsExact(range);
      BitIsRead(r.status, range, i);
    }
  }

  /** The message answers this request: its range and type, and only circuits it asked for. */
  predicate AnswersTo(m: Message, range: int, states: seq<Octet>, kind: Octet)
    requires |states| == Circuits(range) && Readable(m)
  {
    && RangeOf(m) == range && (0x3 & m.kind) == kind
    && forall i :: 0 <= i <= range && BitAt(m.parm[1..], i) ==> states[i] != 0
  }

  ghost predicate Answered(es: seq<Event>, range: int, states: seq<Octet>, kind: Octet)
    requires |states| == Circuits(range)
  {
    exists k :: 0 <= k < |es| && es[k].GotCgba? && Readable(es[k].m) && AnswersTo(es[k].m, range, states, kind)
  }

  /** Over every run of messages, answers and expiries, a request stays pending, with both timers running,
      exactly until an answer to it arrives. */
  lemma {:induction false} PendingUntilAnswered(g: Group, range: int, states: seq<Octet>, kind: Octet, es: seq<Event>)
    requires Formed(g) && range <= 31 && |states| == Circuits(range)
    ensures var r := Run(Request(g, range, states, kind), es);
      r.pending == r.t18 == r.t19 == !Answered(es, range, states, kind)
    decreases |es|
  {
    hide After, Formed, Request, AnswersTo, Readable;
    var req := Request(g, range, states, kind);
    RequestIsSaved(g, range, states, kind);
    if es != [] {
      var before, e := es[..|es|-1], es[|es|-1];
      PendingUntilAnswered(g, range, states, kind, before);
      RequestIsKept(req, before);
      EventEnds(Run(req, before), e, range, states, kind);
      assert Answered(es, range, states, kind) <==>
        Answered(before, range, states, kind) || (e.GotCgba? && Readable(e.m) && AnswersTo(e.m, range, states, kind)) by {
        if Answered(before, range, states, kind) {
          var k :| 0 <= k < |before| && before[k].GotCgba? && Readable(before[k].m) && AnswersTo(before[k].m, range, states, kind);
          assert es[k] == before[k];
        }
      }
    }
  }

  lemma EventEnds(g: Group, e: Event, range: int, states: seq<Octet>, kind: Octet)
    requires Formed(g) && |states| == Circuits(range) && g.sentRange == range && g.sentKind == kind && range <= 31
    requires forall i :: 0 <= i < |states| ==> g.sentStatus[i] == states[i]
    requires g.pending == g.t18 == g.t19
    ensures var r := After(g, e);
      && r.pending == r.t18 == r.t19
      && (r.pending <==> g.pending && !(e.GotCgba? && Readable(e.m) && AnswersTo(e.m, range, states, kind)))
  {
    hide Unpacked, Stored, Encoded, StatusLen, RangeOf, BitAt;
    if e.GotCgba? && Readable(e.m) && g.pending { AcceptedExactly(g, e.m); }
  }
}
