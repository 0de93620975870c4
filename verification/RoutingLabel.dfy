/** Packing of point codes and the signalling link selection into the routing label. */
module RoutingLabel {
  import opened Octets
  import opened Switches

  datatype Label = Label(dpc: bv32, opc: bv32, sls: Octet)

  /** The bits the label has room for. */
  function CutPc(t: Switch, pc: bv32): bv32 {
    if t.ANSI? then pc & 0xffffff else pc & 0x3fff
  }

  function CutSls(t: Switch, sls: Octet): Octet {
    if t.ANSI? then sls else sls & 0x0f
  }

  function Fitted(t: Switch, l: Label): Label {
    Label(CutPc(t, l.dpc), CutPc(t, l.opc), CutSls(t, l.sls))
  }

  predicate PcFits(t: Switch, pc: bv32) {
    if t.ANSI? then pc < 0x1000000 else pc < 0x4000
  }

  predicate SlsFits(t: Switch, sls: Octet) {
    t.ANSI? || sls < 0x10
  }

  predicate InRange(t: Switch, l: Label) {
    PcFits(t, l.dpc) && PcFits(t, l.opc) && SlsFits(t, l.sls)
  }

  function Size(t: Switch): nat {
    match t
    case ANSI => 7
    case ITU => 4
  }

  // ----- the fields

  /** The n-th octet of a point code. */
  function PcOctet(pc: bv32, n: nat): Octet
    requires n < 3
  {
    if n == 0 then (pc & 0xff) as bv8
    else if n == 1 then ((pc >> 8) & 0xff) as bv8
    else ((pc >> 16) & 0xff) as bv8
  }

  function AnsiPc(b0: Octet, b1: Octet, b2: Octet): bv32 {
    (b0 as bv32) | ((b1 as bv32) << 8) | ((b2 as bv32) << 16)
  }

  function ItuDpc(b0: Octet, b1: Octet): bv32 {
    ((b0 as bv32) | ((b1 as bv32) << 8)) & 0x3fff
  }

  function ItuOpc(b1: Octet, b2: Octet, b3: Octet): bv32 {
    (((b1 >> 6) as bv32) | ((b2 as bv32) << 2) | ((b3 as bv32) << 10)) & 0x3fff
  }

  /** The octet both point codes share. */
  function Shared(dpc: bv32, opc: bv32): Octet {
    (((dpc >> 8) & 0x3f) | ((opc << 6) & 0xc0)) as bv8
  }

  function Middle(opc: bv32): Octet {
    ((opc >> 2) & 0xff) as bv8
  }

  /** The octet the originating point code and the SLS share. */
  function Last(opc: bv32, sls: Octet): Octet {
    (((opc >> 10) & 0x0f) | (((sls as bv32) << 4) & 0xf0)) as bv8
  }

  function SetLabel(t: Switch, l: Label): (buf: seq<Octet>)
    ensures |buf| == Size(t)
  {
    match t
    case ANSI =>
      [PcOctet(l.dpc, 0), PcOctet(l.dpc, 1), PcOctet(l.dpc, 2),
       PcOctet(l.opc, 0), PcOctet(l.opc, 1), PcOctet(l.opc, 2), l.sls]
    case ITU => [PcOctet(l.dpc, 0), Shared(l.dpc, l.opc), Middle(l.opc), Last(l.opc, l.sls)]
  }

  function GetLabel(t: Switch, buf: seq<Octet>): Label
    requires |buf| >= Size(t)
  {
    match t
    case ANSI => Label(AnsiPc(buf[0], buf[1], buf[2]), AnsiPc(buf[3], buf[4], buf[5]), buf[6])
    case ITU => Label(ItuDpc(buf[0], buf[1]), ItuOpc(buf[1], buf[2], buf[3]), buf[3] >> 4)
  }

  lemma AnsiFields(pc: bv32)
    ensures AnsiPc(PcOctet(pc, 0), PcOctet(pc, 1), PcOctet(pc, 2)) == CutPc(ANSI, pc)
  {
  }

  lemma AnsiOctets(b0: Octet, b1: Octet, b2: Octet)
    ensures var pc := AnsiPc(b0, b1, b2);
      PcOctet(pc, 0) == b0 && PcOctet(pc, 1) == b1 && PcOctet(pc, 2) == b2 && PcFits(ANSI, pc)
  {
  }

  lemma ItuFields(dpc: bv32, opc: bv32, sls: Octet)
    ensures ItuDpc(PcOctet(dpc, 0), Shared(dpc, opc)) == CutPc(ITU, dpc)
    ensures ItuOpc(Shared(dpc, opc), Middle(opc), Last(opc, sls)) == CutPc(ITU, opc)
    ensures Last(opc, sls) >> 4 == CutSls(ITU, sls)
  {
  }

  lemma ItuOctets(b0: Octet, b1: Octet, b2: Octet, b3: Octet)
    ensures var dpc := ItuDpc(b0, b1); var opc := ItuOpc(b1, b2, b3);
      && PcOctet(dpc, 0) == b0 && Shared(dpc, opc) == b1 && Middle(opc) == b2 && Last(opc, b3 >> 4) == b3
      && PcFits(ITU, dpc) && PcFits(ITU, opc) && SlsFits(ITU, b3 >> 4)
  {
  }

  // ----- the whole label

  lemma CutIsInRange(t: Switch, pc: bv32, sls: Octet)
    ensures CutPc(t, pc) == pc <==> PcFits(t, pc)
    ensures CutSls(t, sls) == sls <==> SlsFits(t, sls)
  {
    Cut24(pc);
    Cut14(pc);
    Cut4(sls);
  }

  lemma Cut24(pc: bv32)
    ensures pc & 0xffffff == pc <==> pc < 0x1000000
  {
  }

  lemma Cut14(pc: bv32)
    ensures pc & 0x3fff == pc <==> pc < 0x4000
  {
  }

  lemma Cut4(sls: Octet)
    ensures sls & 0x0f == sls <==> sls < 0x10
  {
  }

  lemma WholeSls(sls: Octet)
    ensures CutSls(ANSI, sls) == sls
  {
  }

  lemma FittedIsInRange(t: Switch, l: Label)
    ensures Fitted(t, l) == l <==> InRange(t, l)
  {
    hide CutPc, CutSls, PcFits, SlsFits;
    CutIsInRange(t, l.dpc, l.sls);
    CutIsInRange(t, l.opc, l.sls);
  }

  lemma WrittenIsCut(t: Switch, l: Label)
    ensures GetLabel(t, SetLabel(t, l)) == Fitted(t, l)
  {
    hide PcOctet, AnsiPc, ItuDpc, ItuOpc, Shared, Middle, Last, CutPc, CutSls;
    match t
    case ANSI =>
      AnsiFields(l.dpc);
      AnsiFields(l.opc);
      WholeSls(l.sls);
    case ITU => ItuFields(l.dpc, l.opc, l.sls);
  }

  /** What is read back is what was written, cut to the bits of the label; so exactly the labels
      that fit survive. */
  lemma WrittenIsRead(t: Switch, l: Label)
    ensures GetLabel(t, SetLabel(t, l)) == Fitted(t, l)
    ensures GetLabel(t, SetLabel(t, l)) == l <==> InRange(t, l)
  {
    hide GetLabel, SetLabel, Fitted, InRange;
    WrittenIsCut(t, l);
    FittedIsInRange(t, l);
  }

  /** What is written is what was read: every label octet string is the image of one label. */
  lemma ReadIsWritten(t: Switch, buf: seq<Octet>)
    requires |buf| == Size(t)
    ensures SetLabel(t, GetLabel(t, buf)) == buf && InRange(t, GetLabel(t, buf))
  {
    hide PcOctet, AnsiPc, ItuDpc, ItuOpc, Shared, Middle, Last, PcFits;
    match t
    case ANSI =>
      AnsiOctets(buf[0], buf[1], buf[2]);
      AnsiOctets(buf[3], buf[4], buf[5]);
    case ITU => ItuOctets(buf[0], buf[1], buf[2], buf[3]);
  }

  /** The filter of mtp3_move_buffer: it finds exactly the messages sent with the point code. */
  lemma FilterIsExact(t: Switch, l: Label, dpc: bv32)
    requires InRange(t, l)
    ensures GetLabel(t, SetLabel(t, l)).dpc == dpc <==> l.dpc == dpc
  {
    WrittenIsRead(t, l);
  }

  // ----- the circuit identification code in front of an ISUP message

  /** The bits of the second octet in use. */
  function CicMask(t: Switch): Octet { if t.ITU? then 0x0f else 0x3f }

  function CicLow(cic: bv16): Octet { (cic & 0xff) as bv8 }

  function CicHigh(t: Switch, cic: bv16): Octet { ((cic >> 8) as bv8) & CicMask(t) }

  function GetCic(t: Switch, b0: Octet, b1: Octet): bv16 {
    (b0 as bv16) | (((b1 & CicMask(t)) as bv16) << 8)
  }

  function CicLimit(t: Switch): bv16 { if t.ITU? then 0x1000 else 0x4000 }

  lemma CicIsRead(t: Switch, cic: bv16)
    ensures GetCic(t, CicLow(cic), CicHigh(t, cic)) == cic <==> cic < CicLimit(t)
  {
    hide CicLow, CicHigh, GetCic;
    ItuCic(cic);
    AnsiCic(cic);
  }

  lemma ItuCic(cic: bv16)
    ensures GetCic(ITU, CicLow(cic), CicHigh(ITU, cic)) == cic <==> cic < 0x1000
  {
  }

  lemma AnsiCic(cic: bv16)
    ensures GetCic(ANSI, CicLow(cic), CicHigh(ANSI, cic)) == cic <==> cic < 0x4000
  {
  }
}
