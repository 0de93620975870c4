/** The imperative form of group blocking: status arrays written by loops. Every method leaves the
    state the function of IsupGroup gives. */
module IsupGroupCall {
  import Spec = IsupGroup
  import opened Types = IsupGroup
  import opened Octets
  import opened Options

  /** One more circuit leaves the earlier octets alone. */
  lemma EarlierOctet(status: seq<Octet>, i: nat, j: nat)
    requires 0 < i && j < i / 8
    ensures StatusOctet(status, i, j) == StatusOctet(status, i - 1, j)
  {
    hide Pack;
  }

  predicate Marked(status: seq<Octet>, i: nat)
    requires i < |status|
  {
    status[i] != 0
  }

  /** Bit b added if the circuit is marked. */
  function With(o: Octet, marked: bool, b: nat): Octet { o | (if marked then Mask(b) else 0) }

  /** The lowest n bits of an octet of the bitmap. */
  function Low(status: seq<Octet>, range: nat, j: nat, n: nat): Octet
    decreases n
  {
    if n == 0 then 0 else With(Low(status, range, j, n - 1), Set(status, range, 8 * j + n - 1), n - 1)
  }

  /** An octet is packed bit by bit, the lowest first. */
  lemma PackIsChain(a0: bool, a1: bool, a2: bool, a3: bool, a4: bool, a5: bool, a6: bool, a7: bool)
    ensures Pack(a0, a1, a2, a3, a4, a5, a6, a7)
      == With(With(With(With(With(With(With(With(0, a0, 0), a1, 1), a2, 2), a3, 3), a4, 4), a5, 5), a6, 6), a7, 7)
  {
  }

  lemma OctetIsLow(status: seq<Octet>, range: nat, j: nat)
    ensures StatusOctet(status, range, j) == Low(status, range, j, 8)
  {
    hide Pack, With, Set;
    PackIsChain(Set(status, range, 8 * j), Set(status, range, 8 * j + 1), Set(status, range, 8 * j + 2),
                Set(status, range, 8 * j + 3), Set(status, range, 8 * j + 4), Set(status, range, 8 * j + 5),
                Set(status, range, 8 * j + 6), Set(status, range, 8 * j + 7));
    assert Low(status, range, j, 2) == With(With(0, Set(status, range, 8 * j), 0), Set(status, range, 8 * j + 1), 1);
    assert Low(status, range, j, 4)
      == With(With(Low(status, range, j, 2), Set(status, range, 8 * j + 2), 2), Set(status, range, 8 * j + 3), 3);
    assert Low(status, range, j, 6)
      == With(With(Low(status, range, j, 4), Set(status, range, 8 * j + 4), 4), Set(status, range, 8 * j + 5), 5);
  }

  lemma UnmarkedAddsNothing(o: Octet, b: nat)
    ensures With(o, false, b) == o
  {
  }

  /** The bits below the last circuit's are those of one circuit less, and those above are clear. */
  lemma {:induction false} LowGrows(status: seq<Octet>, j: nat, b: nat, n: nat)
    requires 8 * j + b < |status|
    ensures var i := 8 * j + b;
      && (n > b ==> Low(status, i, j, n) == With(Low(status, i, j, b), Marked(status, i), b))
      && (i > 0 && n <= b ==> Low(status, i, j, n) == Low(status, i - 1, j, n))
      && (i > 0 && n >= b ==> Low(status, i - 1, j, n) == Low(status, i - 1, j, b))
    decreases n
  {
    hide With;
    if n > 0 {
      LowGrows(status, j, b, n - 1);
      UnmarkedAddsNothing(Low(status, 8 * j + b, j, n - 1), n - 1);
      if 8 * j + b > 0 { UnmarkedAddsNothing(Low(status, 8 * j + b - 1, j, n - 1), n - 1); }
    }
  }

  /** And adds its bit to the last octet. */
  lemma OneMoreBit(status: seq<Octet>, j: nat, b: nat)
    requires b < 8 && 8 * j + b < |status|
    ensures var i := 8 * j + b;
      && (b > 0 ==> StatusOctet(status, i, j) == With(StatusOctet(status, i - 1, j), Marked(status, i), b))
      && (b == 0 ==> StatusOctet(status, i, j) == With(0, Marked(status, i), 0))
  {
    hide With, Marked, Set, StatusOctet;
    var i := 8 * j + b;
    LowGrows(status, j, b, 8);
    LowGrows(status, j, b, b);
    OctetIsLow(status, i, j);
    if b > 0 { OctetIsLow(status, i - 1, j); }
  }

  /** The bitmap of one circuit more. */
  lemma BitmapMore(status: seq<Octet>, i: nat)
    requires i < |status|
    ensures var marked := Marked(status, i);
      && (i == 0 ==> Bitmap(status, i) == [With(0, marked, 0)])
      && (i > 0 && i % 8 == 0 ==> Bitmap(status, i) == Bitmap(status, i - 1) + [With(0, marked, 0)])
      && (i % 8 != 0 ==>
            var before := Bitmap(status, i - 1);
            i / 8 < |before| && Bitmap(status, i) == before[i / 8 := With(before[i / 8], marked, i % 8)])
  {
    hide StatusOctet, With, Marked;
    OneMoreBit(status, i / 8, i % 8);
    if i > 0 {
      forall j | 0 <= j < i / 8 ensures StatusOctet(status, i, j) == StatusOctet(status, i - 1, j) {
        EarlierOctet(status, i, j);
      }
    }
  }

  /** The loop of range_and_status_transmit. */
  method WriteBitmap(parm: array<Octet>, status: array<Octet>, range: nat) returns (statusLen: nat)
    requires parm != status && range < status.Length && 1 + StatusLen(range) <= parm.Length
    modifies parm
    ensures statusLen == StatusLen(range) && parm[0] == ToOctet(range)
    ensures parm[1..1 + statusLen] == Bitmap(status[..], range)
  {
    hide Bitmap, ToOctet, Partial, StatusLen, With, Marked;
    RoomFor(range, range);
    parm[0] := ToOctet(range);
    statusLen := (range + 1) / 8 + if (range + 1) % 8 != 0 then 1 else 0;
    var i := 0;
    assert Partial(parm[..], status[..], 0) by { PartialNone(parm[..], status[..]); }
    while i < range + 1
      invariant 0 <= i <= range + 1 && parm[0] == ToOctet(range)
      invariant Partial(parm[..], status[..], i)
    {
      RoomFor(i, range);
      ghost var before := parm[..];
      AddBit(parm, i, Marked(status[..], i));
      PartialMore(before, status[..], i, parm[1 + i / 8]);
      i := i + 1;
    }
    PartialAll(parm[..], status[..], range);
  }

  lemma RoomFor(i: nat, range: nat)
    requires i <= range
    ensures i / 8 < StatusLen(range) == (range + 1) / 8 + if (range + 1) % 8 != 0 then 1 else 0
  {
  }

  /** The bits of the first i circuits are written. */
  ghost predicate Partial(parm: seq<Octet>, status: seq<Octet>, i: nat) {
    i > 0 ==> 1 + StatusLen(i - 1) <= |parm| && parm[1..1 + StatusLen(i - 1)] == Bitmap(status, i - 1)
  }

  lemma PartialNone(parm: seq<Octet>, status: seq<Octet>)
    ensures Partial(parm, status, 0)
  {
  }

  lemma PartialAll(parm: seq<Octet>, status: seq<Octet>, range: nat)
    requires Partial(parm, status, range + 1)
    ensures 1 + StatusLen(range) <= |parm| && parm[1..1 + StatusLen(range)] == Bitmap(status, range)
  {
    hide Bitmap;
  }

  lemma PartialMore(parm: seq<Octet>, status: seq<Octet>, i: nat, o: Octet)
    requires Partial(parm, status, i) && i < |status| && 1 + i / 8 < |parm|
    requires o == With(if i % 8 == 0 then 0 else parm[1 + i / 8], Marked(status, i), i % 8)
    ensures Partial(parm[1 + i / 8 := o], status, i + 1)
  {
    hide Bitmap, With, Marked;
    BitmapMore(status, i);
    var done := parm[1 + i / 8 := o];
    if i % 8 != 0 {
      var n := StatusLen(i - 1);
      assert StatusLen(i) == n && parm[1 + i / 8] == parm[1..1 + n][i / 8];
      assert done[1..1 + n] == parm[1..1 + n][i / 8 := o];
    } else if i > 0 {
      var n := StatusLen(i - 1);
      assert StatusLen(i) == n + 1 == i / 8 + 1;
      assert done[1..1 + n + 1] == parm[1..1 + n] + [o];
    } else {
      assert done[1..2] == [o];
    }
  }

  /** One circuit's turn in the loop. */
  method AddBit(parm: array<Octet>, i: nat, marked: bool)
    requires 1 + i / 8 < parm.Length
    modifies parm
    ensures parm[..]
      == old(parm[..])[1 + i / 8 := With(if i % 8 == 0 then 0 else old(parm[1 + i / 8]), marked, i % 8)]
  {
    hide Mask, With;
    var j := 1 + i / 8;
    if i % 8 == 0 {
      parm[j] := 0;
    }
    WithMark(parm[j], i % 8);
    if marked {
      parm[j] := parm[j] | Mask(i % 8);
    }
  }

  lemma WithMark(o: Octet, b: nat)
    ensures With(o, true, b) == o | Mask(b) && With(o, false, b) == o
  {
  }

  /** range_and_status_transmit into a zeroed buffer; None when its result is negative. */
  method WriteRange(status: array<Octet>, range: int) returns (parm: Option<seq<Octet>>)
    requires range < status.Length
    ensures parm == RangeAndStatus(range, status[..])
  {
    hide Bitmap, ToOctet;
    if range >= 0 {
      var buf := new Octet[1 + StatusLen(range)](_ => 0);
      var n := WriteBitmap(buf, status, range);
      assert buf[..] == [buf[0]] + buf[1..1 + n];
      return Some(buf[..]);
    }
    var len := ParmLen(range);
    if len < 0 {
      return None;
    }
    if len == 0 {
      return Some([]);
    }
    var buf := new Octet[len](_ => 0);
    buf[0] := ToOctet(range % 256);
    assert buf[..] == [buf[0]] + seq(len - 1, _ => 0);
    parm := Some(buf[..]);
  }

  /** isup_check_status: whether more 1 bits came back than were sent. */
  method CheckStatus(sent: array<Octet>, got: array<Octet>, range: int) returns (more: bool)
    requires range < sent.Length && range < got.Length
    ensures !more <==> NoMore(sent[..], got[..], range)
  {
    var i := 0;
    while i <= range
      invariant 0 <= i && (i <= range + 1 || i == 0)
      invariant forall k :: 0 <= k < i ==> got[k] <= sent[k]
    {
      if got[i] > sent[i] {
        assert got[..][i] > sent[..][i];
        return true;
      }
      i := i + 1;
    }
    more := false;
  }

  /** What a CGBA comes to. After Unexpected isup_handle_unexpected takes over. */
  datatype Outcome = Unexpected | Mismatched | Concluded | Freed

  /** The group part of struct isup_call. */
  class GroupCall {
    const cic: int
    const status: array<Octet>
    const sentStatus: array<Octet>
    var range: int
    var kind: Octet
    var sentEndCic: int
    var sentKind: Octet
    var pending: bool
    var t18: bool
    var t19: bool
    var live: bool

    ghost predicate Valid()
      reads this, status, sentStatus
    {
      && status != sentStatus && status.Length == STATUS_SIZE + 1 && sentStatus.Length == STATUS_SIZE
      && range < 256 && sentEndCic <= cic + 31
    }

    ghost function View(): (g: Group)
      requires Valid()
      reads this, status, sentStatus
      ensures Formed(g)
    {
      Group(range, status[..], kind, sentEndCic - cic, sentStatus[..], sentKind, pending, t18, t19)
    }

    constructor (cic: int)
      ensures Valid() && fresh(status) && fresh(sentStatus) && this.cic == cic && live && !pending && !t18 && !t19
    {
      this.cic := cic;
      status, sentStatus := new Octet[STATUS_SIZE + 1](_ => 0), new Octet[STATUS_SIZE](_ => 0);
      range, kind, sentEndCic, sentKind, pending, t18, t19, live := 0, 0, cic, 0, false, false, false, true;
    }

    /** The loop over the circuits up to an end. */
    static method Store(a: array<Octet>, states: seq<Octet>, range: int)
      requires Circuits(range) <= |states| && Circuits(range) <= a.Length
      modifies a
      ensures a[..] == Stored(old(a[..]), states[..Circuits(range)])
    {
      var i := 0;
      while i <= range
        invariant 0 <= i <= Circuits(range)
        invariant a[..i] == states[..i] && a[i..] == old(a[i..])
      {
        a[i] := states[i];
        i := i + 1;
      }
      assert a[..] == a[..i] + a[i..];
    }

    /** Assembling the two parameters. */
    method Encode() returns (m: Option<Message>)
      requires Valid() && range < STATUS_SIZE
      ensures m == Encoded(range, status[..], kind)
    {
      hide RangeAndStatus;
      var parm := WriteRange(status, range);
      match parm
      case None => m := None;
      case Some(octets) => m := Some(Message(kind & 0x3, octets));
    }

    /** isup_free_call: the timers are stopped, and the call may not be used any more. */
    method FreeCall()
      requires Valid() && live
      modifies this
      ensures Valid() && !live && View() == old(View()).(t18 := false, t19 := false)
    {
      t18, t19, live := false, false, false;
    }

    /** The request as isup_cgb saves it before anything is sent. */
    method Save(endCic: int, states: seq<Octet>, newKind: Octet)
      requires Valid() && live && |states| >= Circuits(endCic - cic) && endCic - cic <= 31
      modifies this, status, sentStatus
      ensures Valid() && live
      ensures View() == Request(old(View()), endCic - cic, states[..Circuits(endCic - cic)], newKind)
        .(pending := old(pending), t18 := old(t18), t19 := old(t19))
    {
      hide Stored;
      range, sentEndCic, kind, sentKind := endCic - cic, endCic, newKind, newKind;
      Store(status, states, range);
      Store(sentStatus, states, range);
    }

    /** isup_cgb up to the end circuit; nothing is done for more than 32 circuits. m is what mtp3
        is given, ok what it answers: when it refuses, or there is nothing to give, the call is freed. */
    method Cgb(endCic: int, states: seq<Octet>, newKind: Octet, ok: bool) returns (sent: bool, m: Option<Message>)
      requires Valid() && live && |states| >= Circuits(endCic - cic)
      modifies this, status, sentStatus
      ensures Valid() && (sent <==> endCic - cic <= 31 && m.Some? && ok)
      ensures endCic - cic > 31 ==> live && View() == old(View())
      ensures endCic - cic <= 31 ==>
        var asked := Request(old(View()), endCic - cic, states[..Circuits(endCic - cic)], newKind);
        && m == Encoded(asked.range, asked.status, asked.kind)
        && live == sent
        && View() == if sent then asked else asked.(pending := old(pending), t18 := false, t19 := false)
    {
      hide Encoded, Stored, Circuits;
      if endCic - cic > 31 { return false, None; }
      Save(endCic, states, newKind);
      m := Encode();
      sent := m.Some? && ok;
      if sent {
        pending, t18, t19 := true, true, true;
      } else {
        FreeCall();
      }
    }

    method Cgba(endCic: int, states: seq<Octet>, ok: bool) returns (sent: bool, m: Option<Message>)
      requires Valid() && live && |states| >= Circuits(endCic - cic)
      modifies this, status
      ensures Valid() && (sent <==> endCic - cic <= 31 && m.Some? && ok)
      ensures endCic - cic > 31 ==> live && View() == old(View())
      ensures endCic - cic <= 31 ==>
        var (after, answer) := Answer(old(View()), endCic - cic, states[..Circuits(endCic - cic)]);
        && m == answer && live == sent
        && View() == if sent then after else after.(t18 := false, t19 := false)
    {
      hide Encoded, Stored, StatusLen;
      if endCic - cic > 31 { return false, None; }
      range := endCic - cic;
      Store(status, states, range);
      m := Encode();
      sent := m.Some? && ok;
      if !sent {
        FreeCall();
      }
    }

    /** The loop of range_and_status_receive. */
    static method StoreBits(a: array<Octet>, bits: seq<Octet>, range: nat)
      requires range < a.Length && |bits| >= StatusLen(range)
      modifies a
      ensures a[..] == Unpacked(bits, range, old(a[..]))
    {
      hide BitAt;
      var i := 0;
      while i < range + 1
        invariant 0 <= i <= range + 1
        invariant forall k :: 0 <= k < i ==> a[k] == if BitAt(bits, k) then 1 else 0
        invariant forall k :: i <= k < a.Length ==> a[k] == old(a[k])
      {
        a[i] := if BitAt(bits, i) then 1 else 0;
        i := i + 1;
      }
    }

    /** The receivers of the two parameters. */
    method Receive(m: Message)
      requires Valid() && live && Readable(m)
      modifies this, status
      ensures Valid() && live && View() == Hear(old(View()), m)
    {
      hide Unpacked, Value;
      kind := 0x3 & m.kind;
      range := RangeOf(m);
      StoreBits(status, m.parm[1..], RangeOf(m));
    }

    /** A CGBA whose parameters were received; ring says whether there was room for its event. */
    method GotCgba(ring: bool) returns (outcome: Outcome)
      requires Valid() && live
      modifies this
      ensures Valid() && live == !outcome.Freed?
      ensures outcome.Unexpected? <==> !old(pending)
      ensures outcome.Mismatched? <==> old(pending) && !Matches(old(View()))
      ensures outcome.Freed? <==> old(pending) && Matches(old(View())) && !ring
      ensures View() == if outcome.Freed? then old(View()).(t18 := false, t19 := false)
        else Conclude(old(View()))
    {
      if !pending { return Unexpected; }
      if range != sentEndCic - cic || kind != sentKind { return Mismatched; }
      var more := CheckStatus(sentStatus, status, range);
      if more { return Mismatched; }
      if !ring {
        FreeCall();
        return Freed;
      }
      pending, t18, t19 := false, false, false;
      outcome := Concluded;
    }

    /** The expiry of T18 or T19: the request is restored and sent again. */
    method Resend() returns (m: Option<Message>)
      requires Valid() && live
      modifies this, status
      ensures Valid() && live && View() == Restored(old(View())) && m == Resent(old(View()))
    {
      hide Encoded, Stored, StatusLen;
      range, kind := sentEndCic - cic, sentKind;
      Store(status, sentStatus[..], range);
      m := Encode();
    }
  }
}
