/** The layout of an ISUP message: fixed parameters, pointers, variable parameters, optional
    parameters; and the three loops that take it apart. */
module IsupFraming {
  import opened Octets
  import opened Options

  /** What the receiver of a parameter says it consumed: always so many octets, or the whole
      parameter; some parameters have no receiver. */
  datatype Receiver = Takes(n: nat) | TakesAll | Missing

  /** A parameter as it is handed to its receiver. */
  datatype Piece = Piece(code: Octet, content: seq<Octet>)

  /** The received octets and whatever lies behind them. */
  type Memory = nat -> Octet

  function Slice(m: Memory, at: nat, n: nat): (s: seq<Octet>)
    ensures |s| == n
  {
    seq(n, i requires 0 <= i < n => m(at + i))
  }

  // ----- taking a message apart

  /** Where a loop over parameters stops: len counts the octets left, as the code does. */
  datatype Stop = Dropped | Stop(pieces: seq<Piece>, at: nat, len: int)

  function Prepend(p: Piece, s: Stop): Stop {
    if s.Dropped? then s else s.(pieces := [p] + s.pieces)
  }

  function Fixed(m: Memory, kind: Octet -> Receiver, codes: seq<Octet>, at: nat, len: int): Stop
    decreases |codes|
  {
    if codes == [] then Stop([], at, len)
    else
      var n := match kind(codes[0]) case Takes(n) => n case TakesAll => len case Missing => -1;
      if n < 0 then Dropped
      else Prepend(Piece(codes[0], Slice(m, at, n)), Fixed(m, kind, codes[1..], at + n, len - n))
  }

  function Variable(m: Memory, kind: Octet -> Receiver, codes: seq<Octet>, at: nat, len: int): Stop
    decreases |codes|
  {
    if codes == [] || len == 0 || m(at) == 0 then Stop([], at, len)
    else if kind(codes[0]).Missing? then Dropped
    else
      var body := at + Value(m(at));
      var n := Value(m(body));
      Prepend(Piece(codes[0], Slice(m, body + 1, n)), Variable(m, kind, codes[1..], at + 1, len - (n + 2)))
  }

  /** How far the optional loop moves on. */
  function Advance(r: Receiver, len: nat): (n: nat)
    ensures n >= 2
  {
    if r.Takes? then r.n + 2 else len + 2
  }

  function Optional(m: Memory, kind: Octet -> Receiver, at: nat, len: int): seq<Piece>
    decreases len
  {
    if len <= 0 || m(at) == 0 then []
    else
      var n := Value(m(at + 1));
      var step := Advance(kind(m(at)), n);
      var rest := Optional(m, kind, at + step, len - step);
      if kind(m(at)).Missing? then rest else [Piece(m(at), Slice(m, at + 2, n))] + rest
  }

  function VariablePart(m: Memory, kind: Octet -> Receiver, codes: seq<Octet>, at: nat, len: int): Stop {
    if codes != [] && len > 0 then Variable(m, kind, codes, at, len) else Stop([], at, len)
  }

  /** at is where the pointer to the optional part lies. */
  function OptionalTail(m: Memory, kind: Octet -> Receiver, at: nat, len: int): seq<Piece> {
    if len > 0 && m(at) != 0 then Optional(m, kind, at + Value(m(at)), len - 1) else []
  }

  /** The parameter part of isup_receive; None when the call is dropped. */
  function Parse(m: Memory, kind: Octet -> Receiver, fixed: seq<Octet>, variable: seq<Octet>, optional: bool, len: int)
    : Option<seq<Piece>>
  {
    var f := Fixed(m, kind, fixed, 0, len);
    if f.Dropped? then None
    else
      var v := VariablePart(m, kind, variable, f.at, f.len);
      if v.Dropped? then None
      else Some(f.pieces + v.pieces + if optional then OptionalTail(m, kind, v.at, v.len) else [])
  }

  /** A receiver is handed the whole content, but the loop goes on behind the octets the receiver consumes:
      what it leaves of the content is read as further parameters. One that consumes all, or is missing, leaves
      nothing. */
  lemma LeftoversAreRead(m: Memory, kind: Octet -> Receiver, at: nat, len: int)
    requires len > 0 && m(at) != 0
    ensures var n := Value(m(at + 1)); var handed := Slice(m, at + 2, n);
      && (kind(m(at)).TakesAll? ==> Optional(m, kind, at, len) == [Piece(m(at), handed)] + Optional(m, kind, at + 2 + n, len - 2 - n))
      && (kind(m(at)).Missing? ==> Optional(m, kind, at, len) == Optional(m, kind, at + 2 + n, len - 2 - n))
      && (kind(m(at)).Takes? ==>
            var left := n - kind(m(at)).n;
            Optional(m, kind, at, len) == [Piece(m(at), handed)] + Optional(m, kind, at + 2 + n - left, len - 2 - n + left))
  {
    hide Slice, Value;
  }

  // ----- putting a message together

  function Concat(contents: seq<seq<Octet>>): seq<Octet> {
    if contents == [] then [] else contents[0] + Concat(contents[1..])
  }

  /** A variable parameter with its length; nothing when the parameter transmits nothing. */
  function Body(content: seq<Octet>): seq<Octet> {
    if content == [] then [] else [ToOctet(|content|)] + content
  }

  function Bodies(contents: seq<seq<Octet>>): seq<Octet> {
    if contents == [] then [] else Body(contents[0]) + Bodies(contents[1..])
  }

  /** gap is the distance from the first pointer to the first body. */
  function Pointers(contents: seq<seq<Octet>>, gap: int): (p: seq<Octet>)
    requires gap >= |contents|
    ensures |p| == |contents|
  {
    if contents == [] then []
    else [ToOctet(gap)] + Pointers(contents[1..], gap - 1 + |Body(contents[0])|)
  }

  function Tlv(p: Piece): seq<Octet> {
    if p.content == [] then [] else [p.code, ToOctet(|p.content|)] + p.content
  }

  function Tlvs(ps: seq<Piece>): seq<Octet> {
    if ps == [] then [] else Tlv(ps[0]) + Tlvs(ps[1..])
  }

  /** The pointer to the optional part, and that part with its end octet. */
  function OptionalPart(ps: seq<Piece>): seq<Octet> {
    if Tlvs(ps) == [] then [] else Tlvs(ps) + [0]
  }

  function Cells(variable: seq<seq<Octet>>, optional: bool): nat { |variable| + if optional then 1 else 0 }

  /** The parameter part isup_send_message builds. */
  function Assembled(fixed: seq<seq<Octet>>, variable: seq<seq<Octet>>, optional: bool, ps: seq<Piece>): seq<Octet> {
    Concat(fixed) + Pointers(variable, Cells(variable, optional))
      + (if optional then [if Tlvs(ps) == [] then 0 else ToOctet(1 + |Bodies(variable)|)] else [])
      + Bodies(variable) + (if optional then OptionalPart(ps) else [])
  }

  // ----- the round trip

  ghost predicate Holds(m: Memory, at: nat, s: seq<Octet>) {
    forall i :: 0 <= i < |s| ==> m(at + i) == s[i]
  }

  lemma HoldsParts(m: Memory, at: nat, a: seq<Octet>, b: seq<Octet>)
    requires Holds(m, at, a + b)
    ensures Holds(m, at, a) && Holds(m, at + |a|, b)
  {
    forall i | 0 <= i < |a| ensures m(at + i) == a[i] {
      assert (a + b)[i] == a[i];
    }
    forall i | 0 <= i < |b| ensures m(at + |a| + i) == b[i] {
      assert (a + b)[|a| + i] == b[i];
      assert m(at + (|a| + i)) == b[i];
    }
  }

  lemma SliceIsHeld(m: Memory, at: nat, s: seq<Octet>)
    requires Holds(m, at, s)
    ensures Slice(m, at, |s|) == s
  {
  }

  function Pieces(codes: seq<Octet>, contents: seq<seq<Octet>>): seq<Piece>
    requires |codes| == |contents|
  {
    if codes == [] then [] else [Piece(codes[0], contents[0])] + Pieces(codes[1..], contents[1..])
  }

  function NonEmpty(ps: seq<Piece>): seq<Piece> {
    if ps == [] then [] else (if ps[0].content == [] then [] else [ps[0]]) + NonEmpty(ps[1..])
  }

  /** The receiver consumes exactly the content. */
  predicate Consumes(kind: Octet -> Receiver, p: Piece) {
    kind(p.code) == TakesAll || kind(p.code) == Takes(|p.content|)
  }

  lemma {:induction false} FixedIsRead(m: Memory, kind: Octet -> Receiver, codes: seq<Octet>, contents: seq<seq<Octet>>,
                                       at: nat, len: int)
    requires |codes| == |contents| && Holds(m, at, Concat(contents))
    requires forall i :: 0 <= i < |codes| ==> kind(codes[i]) == Takes(|contents[i]|)
    ensures Fixed(m, kind, codes, at, len)
      == Stop(Pieces(codes, contents), at + |Concat(contents)|, len - |Concat(contents)|)
    decreases |codes|
  {
    hide Holds;
    if codes != [] {
      HoldsParts(m, at, contents[0], Concat(contents[1..]));
      SliceIsHeld(m, at, contents[0]);
      FixedIsRead(m, kind, codes[1..], contents[1..], at + |contents[0]|, len - |contents[0]|);
    }
  }

  lemma {:induction false} VariableIsRead(m: Memory, kind: Octet -> Receiver, codes: seq<Octet>,
                                          contents: seq<seq<Octet>>, at: nat, gap: nat, len: int)
    requires |codes| == |contents| && gap >= |contents|
    requires Holds(m, at, Pointers(contents, gap)) && Holds(m, at + gap, Bodies(contents))
    requires forall i :: 0 <= i < |contents| ==> 0 < |contents[i]| < 256 && !kind(codes[i]).Missing?
    requires gap + |Bodies(contents)| < 256 && len >= |contents| + |Bodies(contents)|
    ensures Variable(m, kind, codes, at, len)
      == Stop(Pieces(codes, contents), at + |contents|, len - |contents| - |Bodies(contents)|)
    decreases |codes|
  {
    hide Holds, ToOctet, Value, Pointers, Bodies, Slice;
    if codes != [] {
      var c := contents[0];
      var gap' := gap - 1 + |Body(c)|;
      FirstPointer(contents, gap);
      FirstIsHeld(m, at, gap, c, Pointers(contents[1..], gap'), Bodies(contents[1..]));
      VariableIsRead(m, kind, codes[1..], contents[1..], at + 1, gap', len - (|c| + 2));
    } else {
      NoBodies(contents);
    }
  }

  lemma FirstPointer(contents: seq<seq<Octet>>, gap: nat)
    requires contents != [] && gap >= |contents|
    ensures Pointers(contents, gap) == [ToOctet(gap)] + Pointers(contents[1..], gap - 1 + |Body(contents[0])|)
    ensures Bodies(contents) == Body(contents[0]) + Bodies(contents[1..])
  {
    hide ToOctet;
  }

  /** The first pointer leads to the first body; the others follow one octet and one body on. */
  lemma FirstIsHeld(m: Memory, at: nat, gap: nat, c: seq<Octet>, pointers: seq<Octet>, bodies: seq<Octet>)
    requires Holds(m, at, [ToOctet(gap)] + pointers) && Holds(m, at + gap, Body(c) + bodies)
    requires 0 < gap < 256 && 0 < |c| < 256
    ensures m(at) != 0 && Value(m(at)) == gap && Value(m(at + gap)) == |c|
    ensures Slice(m, at + gap + 1, |c|) == c
    ensures Holds(m, at + 1, pointers) && Holds(m, at + gap + |c| + 1, bodies)
  {
    hide Holds, ToOctet, Value;
    HoldsParts(m, at, [ToOctet(gap)], pointers);
    HoldsParts(m, at + gap, Body(c), bodies);
    HoldsParts(m, at + gap, [ToOctet(|c|)], c);
    HoldsOne(m, at, ToOctet(gap));
    HoldsOne(m, at + gap, ToOctet(|c|));
    ValueOf(gap);
    ValueOf(|c|);
    NonZero(gap);
    SliceIsHeld(m, at + gap + 1, c);
  }

  lemma HoldsOne(m: Memory, at: nat, o: Octet)
    requires Holds(m, at, [o])
    ensures m(at) == o
  {
    assert m(at + 0) == [o][0];
  }

  lemma NonZero(n: nat)
    requires 0 < n < 256
    ensures ToOctet(n) != 0
  {
    ValueOf(n);
  }

  lemma Regroup(a: Octet, b: Octet, c: seq<Octet>, rest: seq<Octet>, z: Octet)
    ensures [a, b] + c + rest + [z] == [a] + ([b] + (c + (rest + [z])))
  {
  }

  lemma {:induction false} OptionalIsRead(m: Memory, kind: Octet -> Receiver, ps: seq<Piece>, at: nat, len: int)
    requires Holds(m, at, Tlvs(ps) + [0]) && len > |Tlvs(ps)|
    requires forall i :: 0 <= i < |ps| && ps[i].content != [] ==>
      ps[i].code != 0 && |ps[i].content| < 256 && Consumes(kind, ps[i])
    ensures Optional(m, kind, at, len) == NonEmpty(ps)
    decreases |ps|
  {
    hide Holds, ToOctet, Value, Tlvs, Slice, Optional;
    if ps == [] {
      NoTlvs(ps);
      assert Tlvs(ps) + [0] == [0];
      HoldsOne(m, at, 0);
      LastOptional(m, kind, at, len);
    } else {
      FirstTlv(ps, 0);
      assert ps[0..] == ps;
      if ps[0].content == [] {
        assert Tlvs(ps) == Tlvs(ps[1..]);
        OptionalIsRead(m, kind, ps[1..], at, len);
      } else {
        var c := ps[0].content;
        FirstTlvIsHeld(m, at, ps[0], Tlvs(ps[1..]));
        FirstOptional(m, kind, at, len);
        OptionalIsRead(m, kind, ps[1..], at + 2 + |c|, len - (|c| + 2));
      }
    }
  }

  lemma FirstTlvIsHeld(m: Memory, at: nat, p: Piece, rest: seq<Octet>)
    requires Holds(m, at, Tlv(p) + rest + [0]) && 0 < |p.content| < 256
    ensures m(at) == p.code && Value(m(at + 1)) == |p.content| && Slice(m, at + 2, |p.content|) == p.content
    ensures Holds(m, at + 2 + |p.content|, rest + [0])
  {
    hide Holds, ToOctet, Value;
    var c := p.content;
    Regroup(p.code, ToOctet(|c|), c, rest, 0);
    HoldsParts(m, at, [p.code], [ToOctet(|c|)] + (c + (rest + [0])));
    HoldsParts(m, at + 1, [ToOctet(|c|)], c + (rest + [0]));
    HoldsParts(m, at + 2, c, rest + [0]);
    HoldsOne(m, at, p.code);
    HoldsOne(m, at + 1, ToOctet(|c|));
    ValueOf(|c|);
    SliceIsHeld(m, at + 2, c);
  }

  /** A message whose parameters the receivers consume whole and whose lengths and pointers fit an
      octet is taken apart into exactly the parameters it was put together from, in order. */
  lemma ParsedAsAssembled(m: Memory, kind: Octet -> Receiver, fixed: seq<Octet>, variable: seq<Octet>, optional: bool,
                          fixedContents: seq<seq<Octet>>, variableContents: seq<seq<Octet>>, ps: seq<Piece>)
    requires |fixed| == |fixedContents| && |variable| == |variableContents|
    requires forall i :: 0 <= i < |fixed| ==> kind(fixed[i]) == Takes(|fixedContents[i]|)
    requires forall i :: 0 <= i < |variable| ==> 0 < |variableContents[i]| < 256 && !kind(variable[i]).Missing?
    requires forall i :: 0 <= i < |ps| && ps[i].content != [] ==>
      ps[i].code != 0 && |ps[i].content| < 256 && Consumes(kind, ps[i])
    requires |variable| + 1 + |Bodies(variableContents)| < 256
    requires Holds(m, 0, Assembled(fixedContents, variableContents, optional, ps))
    ensures Parse(m, kind, fixed, variable, optional, |Assembled(fixedContents, variableContents, optional, ps)|)
      == Some(Pieces(fixed, fixedContents) + Pieces(variable, variableContents) + if optional then NonEmpty(ps) else [])
  {
    hide Holds, ToOctet, Concat, Pointers, Bodies, Tlvs, Fixed, VariablePart, OptionalTail, OptionalPart, Pieces, NonEmpty;
    var f, b := Concat(fixedContents), Bodies(variableContents);
    var cells := Cells(variableContents, optional);
    var p := Pointers(variableContents, cells);
    var pointer: seq<Octet> := if optional then [if Tlvs(ps) == [] then 0 else ToOctet(1 + |b|)] else [];
    var end := if optional then OptionalPart(ps) else [];
    var len := |Assembled(fixedContents, variableContents, optional, ps)|;
    Parts(f, p, pointer, b, end);
    HoldsParts(m, 0, f, p + (pointer + (b + end)));
    HoldsParts(m, |f|, p, pointer + (b + end));
    HoldsParts(m, |f| + |p|, pointer, b + end);
    HoldsParts(m, |f| + |p| + |pointer|, b, end);
    assert len == |f| + |p| + |pointer| + |b| + |end| && |pointer| == cells - |variable|;
    FixedIsRead(m, kind, fixed, fixedContents, 0, len);
    VariablePartIsRead(m, kind, variable, variableContents, |f|, cells, len - |f|);
    if optional {
      OptionalTailIsRead(m, kind, ps, |f| + |p|, |b|, 1 + |end|);
    }
  }

  lemma Parts(f: seq<Octet>, p: seq<Octet>, pointer: seq<Octet>, b: seq<Octet>, end: seq<Octet>)
    ensures f + p + pointer + b + end == f + (p + (pointer + (b + end)))
  {
  }

  lemma VariablePartIsRead(m: Memory, kind: Octet -> Receiver, codes: seq<Octet>, contents: seq<seq<Octet>>,
                           at: nat, gap: nat, len: int)
    requires |codes| == |contents| && gap >= |contents|
    requires Holds(m, at, Pointers(contents, gap)) && Holds(m, at + gap, Bodies(contents))
    requires forall i :: 0 <= i < |contents| ==> 0 < |contents[i]| < 256 && !kind(codes[i]).Missing?
    requires gap + |Bodies(contents)| < 256 && len >= |contents| + |Bodies(contents)|
    ensures VariablePart(m, kind, codes, at, len)
      == Stop(Pieces(codes, contents), at + |contents|, len - |contents| - |Bodies(contents)|)
  {
    hide Holds, Variable, Pointers;
    if codes != [] {
      VariableIsRead(m, kind, codes, contents, at, gap, len);
    } else {
      NoBodies(contents);
    }
  }

  lemma OptionalTailIsRead(m: Memory, kind: Octet -> Receiver, ps: seq<Piece>, at: nat, b: nat, len: int)
    requires Holds(m, at, [if Tlvs(ps) == [] then 0 else ToOctet(1 + b)])
    requires Holds(m, at + 1 + b, OptionalPart(ps)) && len == 1 + |OptionalPart(ps)| && 1 + b < 256
    requires forall i :: 0 <= i < |ps| && ps[i].content != [] ==>
      ps[i].code != 0 && |ps[i].content| < 256 && Consumes(kind, ps[i])
    ensures OptionalTail(m, kind, at, len) == NonEmpty(ps)
  {
    hide Holds, ToOctet, Value, Tlvs, NonEmpty, Optional;
    HoldsOne(m, at, if Tlvs(ps) == [] then 0 else ToOctet(1 + b));
    if Tlvs(ps) == [] {
      NothingAdded(ps);
    } else {
      ValueOf(1 + b);
      NonZero(1 + b);
      OptionalIsRead(m, kind, ps, at + 1 + b, len - 1);
    }
  }

  lemma NoBodies(contents: seq<seq<Octet>>)
    requires contents == []
    ensures Bodies(contents) == [] && Pieces([], contents) == []
  {
  }

  lemma {:induction false} NothingAdded(ps: seq<Piece>)
    requires Tlvs(ps) == []
    ensures NonEmpty(ps) == []
  {
    if ps != [] {
      assert Tlv(ps[0]) == [] && Tlvs(ps[1..]) == [];
      NothingAdded(ps[1..]);
    }
  }

  // ----- the loops

  lemma FirstOptional(m: Memory, kind: Octet -> Receiver, at: nat, len: int)
    requires len > 0 && m(at) != 0
    ensures var n := Value(m(at + 1)); var step := Advance(kind(m(at)), n);
      Optional(m, kind, at, len) == (if kind(m(at)).Missing? then [] else [Piece(m(at), Slice(m, at + 2, n))])
        + Optional(m, kind, at + step, len - step)
  {
    hide Value, Slice;
  }

  lemma LastOptional(m: Memory, kind: Octet -> Receiver, at: nat, len: int)
    requires len <= 0 || m(at) == 0
    ensures Optional(m, kind, at, len) == []
  {
  }

  /** len falls with every parameter, whatever the octets are. */
  method OptionalLoop(m: Memory, kind: Octet -> Receiver, start: nat, length: int) returns (pieces: seq<Piece>)
    ensures pieces == Optional(m, kind, start, length)
  {
    hide Value, Slice, Optional, Advance;
    pieces := [];
    var at, len := start, length;
    while len > 0 && m(at) != 0
      invariant pieces + Optional(m, kind, at, len) == Optional(m, kind, start, length)
      decreases len
    {
      FirstOptional(m, kind, at, len);
      var n := Value(m(at + 1));
      var step := Advance(kind(m(at)), n);
      var handed := if kind(m(at)).Missing? then [] else [Piece(m(at), Slice(m, at + 2, n))];
      assert pieces + (handed + Optional(m, kind, at + step, len - step))
        == (pieces + handed) + Optional(m, kind, at + step, len - step);
      pieces := pieces + handed;
      at, len := at + step, len - step;
    }
    LastOptional(m, kind, at, len);
  }

  lemma FirstFixed(m: Memory, kind: Octet -> Receiver, codes: seq<Octet>, x: nat, at: nat, len: int)
    requires x < |codes|
    ensures var n := match kind(codes[x]) case Takes(n) => n case TakesAll => len case Missing => -1;
      Fixed(m, kind, codes[x..], at, len) == if n < 0 then Dropped
        else Prepend(Piece(codes[x], Slice(m, at, n)), Fixed(m, kind, codes[x + 1..], at + n, len - n))
  {
    hide Slice, Prepend;
    assert codes[x..][0] == codes[x] && codes[x..][1..] == codes[x + 1..];
  }

  lemma LastFixed(m: Memory, kind: Octet -> Receiver, codes: seq<Octet>, at: nat, len: int)
    ensures codes[0..] == codes && codes[|codes|..] == [] && Fixed(m, kind, [], at, len) == Stop([], at, len)
  {
  }

  method FixedLoop(m: Memory, kind: Octet -> Receiver, codes: seq<Octet>, start: nat, length: int) returns (s: Stop)
    ensures s == Fixed(m, kind, codes, start, length)
  {
    hide Fixed, Prepend, Slice;
    var pieces: seq<Piece>, at: nat, len := [], start, length;
    var x := 0;
    LastFixed(m, kind, codes, at, len);
    while x < |codes|
      invariant 0 <= x <= |codes|
      invariant After(pieces, Fixed(m, kind, codes[x..], at, len)) == Fixed(m, kind, codes, start, length)
    {
      FirstFixed(m, kind, codes, x, at, len);
      var n := match kind(codes[x]) case Takes(n) => n case TakesAll => len case Missing => -1;
      if n < 0 { return Dropped; }
      AfterOne(pieces, Piece(codes[x], Slice(m, at, n)), Fixed(m, kind, codes[x + 1..], at + n, len - n));
      pieces := pieces + [Piece(codes[x], Slice(m, at, n))];
      at, len := at + n, len - n;
      x := x + 1;
    }
    LastFixed(m, kind, codes, at, len);
    s := Stop(pieces, at, len);
  }

  lemma FirstVariable(m: Memory, kind: Octet -> Receiver, codes: seq<Octet>, x: nat, at: nat, len: int)
    requires x < |codes| && len != 0 && m(at) != 0
    ensures var body := at + Value(m(at)); var n := Value(m(body));
      Variable(m, kind, codes[x..], at, len) == if kind(codes[x]).Missing? then Dropped
        else Prepend(Piece(codes[x], Slice(m, body + 1, n)), Variable(m, kind, codes[x + 1..], at + 1, len - (n + 2)))
  {
    hide Value, Slice, Prepend;
    assert codes[x..][0] == codes[x] && codes[x..][1..] == codes[x + 1..];
  }

  lemma LastVariable(m: Memory, kind: Octet -> Receiver, codes: seq<Octet>, at: nat, len: int)
    requires codes == [] || len == 0 || m(at) == 0
    ensures Variable(m, kind, codes, at, len) == Stop([], at, len)
  {
  }

  method VariableLoop(m: Memory, kind: Octet -> Receiver, codes: seq<Octet>, start: nat, length: int) returns (s: Stop)
    ensures s == Variable(m, kind, codes, start, length)
  {
    hide Value, Variable, Prepend, Slice;
    var pieces: seq<Piece>, at: nat, len := [], start, length;
    var x := 0;
    NothingBefore(codes, Variable(m, kind, codes, start, length));
    while x < |codes| && len != 0 && m(at) != 0
      invariant 0 <= x <= |codes|
      invariant After(pieces, Variable(m, kind, codes[x..], at, len)) == Variable(m, kind, codes, start, length)
    {
      FirstVariable(m, kind, codes, x, at, len);
      if kind(codes[x]).Missing? { return Dropped; }
      var body := at + Value(m(at));
      var n := Value(m(body));
      AfterOne(pieces, Piece(codes[x], Slice(m, body + 1, n)), Variable(m, kind, codes[x + 1..], at + 1, len - (n + 2)));
      pieces := pieces + [Piece(codes[x], Slice(m, body + 1, n))];
      at, len := at + 1, len - (n + 2);
      x := x + 1;
    }
    LastVariable(m, kind, codes[x..], at, len);
    assert pieces + [] == pieces;
    s := Stop(pieces, at, len);
  }

  lemma NothingBefore(codes: seq<Octet>, s: Stop)
    ensures codes[0..] == codes && After([], s) == s
  {
    if !s.Dropped? {
      assert [] + s.pieces == s.pieces;
    }
  }

  /** The parameter part of isup_receive. */
  method ReceiveParameters(m: Memory, kind: Octet -> Receiver, fixed: seq<Octet>, variable: seq<Octet>, optional: bool,
                           length: int) returns (r: Option<seq<Piece>>)
    ensures r == Parse(m, kind, fixed, variable, optional, length)
  {
    hide Fixed, Variable, Optional;
    var f := FixedLoop(m, kind, fixed, 0, length);
    if f.Dropped? { return None; }
    var v := Stop([], f.at, f.len);
    if variable != [] && f.len > 0 {
      v := VariableLoop(m, kind, variable, f.at, f.len);
      if v.Dropped? { return None; }
    }
    var rest := [];
    if optional && v.len > 0 && m(v.at) != 0 {
      rest := OptionalLoop(m, kind, v.at + Value(m(v.at)), v.len - 1);
    }
    r := Some(f.pieces + v.pieces + rest);
  }

  ghost function After(pieces: seq<Piece>, s: Stop): Stop {
    if s.Dropped? then s else s.(pieces := pieces + s.pieces)
  }

  lemma AfterOne(pieces: seq<Piece>, p: Piece, s: Stop)
    ensures After(pieces, Prepend(p, s)) == After(pieces + [p], s)
  {
    if !s.Dropped? {
      assert pieces + ([p] + s.pieces) == (pieces + [p]) + s.pieces;
    }
  }

  // ----- the sending loops

  /** s is written over the octets from at on. */
  function Over(buf: seq<Octet>, at: nat, s: seq<Octet>): (r: seq<Octet>)
    requires at + |s| <= |buf|
    ensures |r| == |buf|
  {
    buf[..at] + s + buf[at + |s|..]
  }

  method WriteAt(buf: array<Octet>, at: nat, s: seq<Octet>)
    requires at + |s| <= buf.Length
    modifies buf
    ensures buf[..] == Over(old(buf[..]), at, s)
  {
    var i := 0;
    while i < |s|
      invariant 0 <= i <= |s|
      invariant buf[at..at + i] == s[..i]
      invariant buf[..at] == old(buf[..at]) && buf[at + i..] == old(buf[at + i..])
    {
      buf[at + i] := s[i];
      i := i + 1;
    }
    assert buf[..] == buf[..at] + buf[at..at + |s|] + buf[at + |s|..];
  }

  /** content is written behind its length octet; nothing is written when it is empty. */
  method WriteBody(buf: array<Octet>, at: nat, content: seq<Octet>) returns (next: nat)
    requires at + |Body(content)| <= buf.Length
    modifies buf
    ensures next == at + |Body(content)| && buf[..] == Over(old(buf[..]), at, Body(content))
  {
    hide ToOctet, Over;
    next := at;
    if |content| > 0 {
      buf[at] := ToOctet(|content|);
      assert buf[..] == old(buf[..])[at := ToOctet(|content|)];
      WriteAt(buf, at + 1, content);
      next := at + 1 + |content|;
      OverBoth(old(buf[..]), at, ToOctet(|content|), content);
    } else {
      OverNothing(buf[..], at);
    }
  }

  lemma OverBoth(buf: seq<Octet>, at: nat, o: Octet, s: seq<Octet>)
    requires at + 1 + |s| <= |buf|
    ensures Over(buf[at := o], at + 1, s) == Over(buf, at, [o] + s)
  {
  }

  lemma OverNothing(buf: seq<Octet>, at: nat)
    requires at <= |buf|
    ensures Over(buf, at, []) == buf
  {
  }

  lemma OverIsAppended(buf: seq<Octet>, at: nat, s: seq<Octet>)
    requires at + |s| <= |buf|
    ensures Over(buf, at, s)[..at + |s|] == buf[..at] + s
    ensures Over(buf, at, s)[at + |s|..] == buf[at + |s|..]
  {
  }

  lemma Join(a: seq<Octet>, b: seq<Octet>, c: seq<Octet>)
    ensures a + (b + c) == (a + b) + c
  {
  }

  /** The loop over the fixed parameters. */
  method WriteFixed(buf: array<Octet>, contents: seq<seq<Octet>>) returns (offset: nat)
    requires |Concat(contents)| <= buf.Length
    modifies buf
    ensures offset == |Concat(contents)| && buf[..offset] == Concat(contents)
    ensures buf[offset..] == old(buf[offset..])
  {
    offset := 0;
    var x := 0;
    while x < |contents|
      invariant 0 <= x <= |contents| && offset + |Concat(contents[x..])| == |Concat(contents)|
      invariant buf[..offset] + Concat(contents[x..]) == Concat(contents)
      invariant buf[offset..] == old(buf[offset..])
    {
      assert contents[x..][0] == contents[x] && contents[x..][1..] == contents[x + 1..];
      ghost var before := buf[..];
      WriteAt(buf, offset, contents[x]);
      OverIsAppended(before, offset, contents[x]);
      Join(before[..offset], contents[x], Concat(contents[x + 1..]));
      offset := offset + |contents[x]|;
      x := x + 1;
    }
  }

  lemma SameSlice(a: seq<Octet>, b: seq<Octet>, n: nat, i: nat, j: nat)
    requires i <= j <= n <= |a| && n <= |b| && a[..n] == b[..n]
    ensures a[i..j] == b[i..j]
  {
    forall k | i <= k < j ensures a[k] == b[k] {
      assert a[..n][k] == b[..n][k];
    }
  }

  /** One pointer and one body more. */
  lemma VariableStep(before: seq<Octet>, cell: nat, x: nat, n: nat, start: nat, offset: nat, o: Octet, body: seq<Octet>)
    requires x < n && cell + n <= start <= offset && offset + |body| <= |before|
    ensures var after := Over(before[cell + x := o], offset, body); var next := offset + |body|;
      && after[cell..cell + x + 1] == before[cell..cell + x] + [o]
      && after[start..next] == before[start..offset] + body
      && after[..cell] == before[..cell] && after[cell + n..start] == before[cell + n..start]
      && after[next..] == before[next..]
  {
    var cells := before[cell + x := o];
    OverIsAppended(cells, offset, body);
    var after := Over(cells, offset, body);
    assert after[..offset] == cells[..offset];
    SameSlice(after, cells, offset, cell, cell + x + 1);
    SameSlice(after, cells, offset, start, offset);
    SameSlice(after, cells, offset, 0, cell);
    SameSlice(after, cells, offset, cell + n, start);
    assert cells[cell..cell + x + 1] == before[cell..cell + x] + [o];
    assert after[start..offset + |body|] == (cells[..offset] + body)[start..];
    assert cells[start..offset] == before[start..offset];
    assert cells[cell + n..start] == before[cell + n..start];
  }

  lemma FirstCell(contents: seq<seq<Octet>>, x: nat, gap: int)
    requires x < |contents| && gap >= |contents| - x
    ensures Pointers(contents[x..], gap)
      == [ToOctet(gap)] + Pointers(contents[x + 1..], gap - 1 + |Body(contents[x])|)
    ensures Bodies(contents[x..]) == Body(contents[x]) + Bodies(contents[x + 1..])
  {
    hide ToOctet, Body;
    assert contents[x..][0] == contents[x] && contents[x..][1..] == contents[x + 1..];
  }

  lemma NoCells(contents: seq<seq<Octet>>)
    ensures contents[|contents|..] == [] && contents[0..] == contents
    ensures Bodies([]) == [] && forall gap :: gap >= 0 ==> Pointers([], gap) == []
  {
  }

  /** One pointer and the body it points to. */
  method WriteOne(buf: array<Octet>, cell: nat, offset: nat, content: seq<Octet>) returns (next: nat)
    requires cell < offset && offset + |Body(content)| <= buf.Length
    modifies buf
    ensures next == offset + |Body(content)|
    ensures buf[..] == Over(old(buf[..])[cell := ToOctet(offset - cell)], offset, Body(content))
  {
    hide ToOctet, Body, Over;
    buf[cell] := ToOctet(offset - cell);
    assert buf[..] == old(buf[..])[cell := ToOctet(offset - cell)];
    next := WriteBody(buf, offset, content);
  }

  /** After x parameters: pointers and bodies so far are as they will be, the rest untouched. */
  ghost predicate Written(orig: seq<Octet>, now: seq<Octet>, cell: nat, x: nat, start: nat, offset: nat,
                          contents: seq<seq<Octet>>)
  {
    && |now| == |orig| && x <= |contents| && cell + |contents| <= start <= offset
    && offset + |Bodies(contents[x..])| == start + |Bodies(contents)| <= |now|
    && now[cell..cell + x] + Pointers(contents[x..], offset - (cell + x)) == Pointers(contents, start - cell)
    && now[start..offset] + Bodies(contents[x..]) == Bodies(contents)
    && now[..cell] == orig[..cell] && now[cell + |contents|..start] == orig[cell + |contents|..start]
    && now[offset..] == orig[offset..]
  }

  lemma WrittenMore(orig: seq<Octet>, now: seq<Octet>, cell: nat, x: nat, start: nat, offset: nat,
                    contents: seq<seq<Octet>>)
    requires Written(orig, now, cell, x, start, offset, contents) && x < |contents|
    ensures offset + |Body(contents[x])| <= |now|
    ensures Written(orig, Over(now[cell + x := ToOctet(offset - (cell + x))], offset, Body(contents[x])), cell, x + 1, start,
                    offset + |Body(contents[x])|, contents)
  {
    hide ToOctet, Body, Pointers, Bodies, Over;
    FirstCell(contents, x, offset - (cell + x));
    var o := ToOctet(offset - (cell + x));
    var next := offset + |Body(contents[x])|;
    VariableStep(now, cell, x, |contents|, start, offset, o, Body(contents[x]));
    Join(now[cell..cell + x], [o], Pointers(contents[x + 1..], next - (cell + x + 1)));
    Join(now[start..offset], Body(contents[x]), Bodies(contents[x + 1..]));
    assert now[next..] == now[offset..][|Body(contents[x])|..];
    assert orig[next..] == orig[offset..][|Body(contents[x])|..];
  }

  /** The loop over the variable parameters: a pointer at cell, then the body at offset. */
  method WriteVariable(buf: array<Octet>, cell: nat, start: nat, contents: seq<seq<Octet>>) returns (offset: nat)
    requires cell + |contents| <= start && start + |Bodies(contents)| <= buf.Length
    modifies buf
    ensures offset == start + |Bodies(contents)|
    ensures buf[cell..cell + |contents|] == Pointers(contents, start - cell) && buf[start..offset] == Bodies(contents)
    ensures buf[..cell] == old(buf[..cell]) && buf[cell + |contents|..start] == old(buf[cell + |contents|..start])
    ensures buf[offset..] == old(buf[offset..])
  {
    hide ToOctet, Body, Pointers, Bodies, Over, Written;
    offset := start;
    ghost var orig := buf[..];
    var x := 0;
    WrittenNothing(orig, cell, start, contents);
    while x < |contents|
      invariant x <= |contents| && Written(orig, buf[..], cell, x, start, offset, contents)
    {
      WrittenMore(orig, buf[..], cell, x, start, offset, contents);
      WrittenHasRoom(orig, buf[..], cell, x, start, offset, contents);
      offset := WriteOne(buf, cell + x, offset, contents[x]);
      x := x + 1;
    }
    WrittenAll(orig, buf[..], cell, start, offset, contents);
  }

  lemma WrittenNothing(orig: seq<Octet>, cell: nat, start: nat, contents: seq<seq<Octet>>)
    requires cell + |contents| <= start && start + |Bodies(contents)| <= |orig|
    ensures Written(orig, orig, cell, 0, start, start, contents)
  {
    hide Pointers, Bodies;
    NoCells(contents);
  }

  lemma WrittenAll(orig: seq<Octet>, now: seq<Octet>, cell: nat, start: nat, offset: nat, contents: seq<seq<Octet>>)
    requires Written(orig, now, cell, |contents|, start, offset, contents)
    ensures |now| == |orig| && cell + |contents| <= start <= offset == start + |Bodies(contents)| <= |now|
    ensures now[cell..cell + |contents|] == Pointers(contents, start - cell) && now[start..offset] == Bodies(contents)
    ensures now[..cell] == orig[..cell] && now[cell + |contents|..start] == orig[cell + |contents|..start]
    ensures now[offset..] == orig[offset..]
  {
    hide Pointers, Bodies;
    NoCells(contents);
  }

  lemma WrittenHasRoom(orig: seq<Octet>, now: seq<Octet>, cell: nat, x: nat, start: nat, offset: nat,
                       contents: seq<seq<Octet>>)
    requires Written(orig, now, cell, x, start, offset, contents)
    ensures cell + |contents| <= offset
  {
  }

  /** After x parameters: the optional part so far is as it will be, and nothing before it is touched. */
  ghost predicate Appended(orig: seq<Octet>, now: seq<Octet>, start: nat, x: nat, offset: nat, ps: seq<Piece>) {
    && |now| == |orig| && x <= |ps| && start <= offset
    && offset + |Tlvs(ps[x..])| == start + |Tlvs(ps)| < |now|
    && now[start..offset] + Tlvs(ps[x..]) == Tlvs(ps)
    && now[..start] == orig[..start]
  }

  lemma AppendedNothing(orig: seq<Octet>, start: nat, ps: seq<Piece>)
    requires start + |Tlvs(ps)| < |orig|
    ensures Appended(orig, orig, start, 0, start, ps)
  {
    hide Tlvs;
    NoTlvs(ps);
  }

  lemma AppendedAll(orig: seq<Octet>, now: seq<Octet>, start: nat, offset: nat, ps: seq<Piece>)
    requires Appended(orig, now, start, |ps|, offset, ps)
    ensures |now| == |orig| && offset == start + |Tlvs(ps)| < |now|
    ensures now[start..offset] == Tlvs(ps) && now[..start] == orig[..start]
  {
    hide Tlvs;
    NoTlvs(ps);
  }

  /** A parameter that transmits nothing leaves its code behind, to be overwritten. */
  lemma AppendedSilent(orig: seq<Octet>, now: seq<Octet>, start: nat, x: nat, offset: nat, ps: seq<Piece>)
    requires Appended(orig, now, start, x, offset, ps) && x < |ps|
    ensures offset < |now|
    ensures ps[x].content == [] ==> Appended(orig, now[offset := ps[x].code], start, x + 1, offset, ps)
  {
    hide Tlvs;
    FirstTlv(ps, x);
    if ps[x].content == [] {
      var after := now[offset := ps[x].code];
      assert after[start..offset] == now[start..offset] && after[..start] == now[..start];
    }
  }

  lemma AppendedOne(orig: seq<Octet>, now: seq<Octet>, start: nat, x: nat, offset: nat, ps: seq<Piece>)
    requires Appended(orig, now, start, x, offset, ps) && x < |ps| && ps[x].content != []
    ensures offset + 1 + |Body(ps[x].content)| < |now|
    ensures Appended(orig, Over(now[offset := ps[x].code], offset + 1, Body(ps[x].content)), start, x + 1,
                     offset + 1 + |Body(ps[x].content)|, ps)
  {
    hide Tlvs, Tlv, Body, Over;
    var body, rest := Body(ps[x].content), Tlvs(ps[x + 1..]);
    FirstTlv(ps, x);
    assert |now[start..offset]| == offset - start && |Tlv(ps[x])| == 1 + |body|;
    OverTwice(now, start, offset, ps[x].code, body);
    var after := Over(now[offset := ps[x].code], offset + 1, body);
    assert after[start..offset + 1 + |body|] == now[start..offset] + Tlv(ps[x]);
    Join(now[start..offset], Tlv(ps[x]), rest);
  }

  /** The loop over the optional parameters. The code octet is stored before it is known whether
      the parameter transmits anything. */
  method WriteOptional(buf: array<Octet>, start: nat, ps: seq<Piece>) returns (offset: nat)
    requires start + |Tlvs(ps)| < buf.Length
    modifies buf
    ensures offset == start + |Tlvs(ps)| && buf[start..offset] == Tlvs(ps)
    ensures buf[..start] == old(buf[..start])
  {
    hide Tlvs, Body, Over, Appended;
    offset := start;
    ghost var orig := buf[..];
    var x := 0;
    AppendedNothing(orig, start, ps);
    while x < |ps|
      invariant x <= |ps| && Appended(orig, buf[..], start, x, offset, ps)
    {
      ghost var before := buf[..];
      var content := ps[x].content;
      AppendedSilent(orig, before, start, x, offset, ps);
      if content != [] { AppendedOne(orig, before, start, x, offset, ps); }
      buf[offset] := ps[x].code;
      assert buf[..] == before[offset := ps[x].code];
      if |content| > 0 {
        offset := WriteBody(buf, offset + 1, content);
      }
      x := x + 1;
    }
    AppendedAll(orig, buf[..], start, offset, ps);
  }

  lemma OverTwice(before: seq<Octet>, start: nat, offset: nat, code: Octet, body: seq<Octet>)
    requires start <= offset && offset + 1 + |body| <= |before|
    ensures var after := Over(before[offset := code], offset + 1, body);
      && |after| == |before|
      && after[start..offset + 1 + |body|] == before[start..offset] + ([code] + body)
      && after[..start] == before[..start]
  {
    OverIsAppended(before[offset := code], offset + 1, body);
    var after := Over(before[offset := code], offset + 1, body);
    assert after[..offset + 1 + |body|] == before[..offset] + [code] + body;
    assert after[start..offset + 1 + |body|] == (before[..offset] + [code] + body)[start..];
  }

  lemma FirstTlv(ps: seq<Piece>, x: nat)
    requires x < |ps|
    ensures Tlvs(ps[x..]) == Tlv(ps[x]) + Tlvs(ps[x + 1..])
    ensures Tlv(ps[x]) == if ps[x].content == [] then [] else [ps[x].code] + Body(ps[x].content)
  {
    hide ToOctet;
    assert ps[x..][0] == ps[x] && ps[x..][1..] == ps[x + 1..];
  }

  lemma NoTlvs(ps: seq<Piece>)
    ensures ps[|ps|..] == [] && ps[0..] == ps && Tlvs([]) == []
  {
  }

  /** The optional part with its pointer and its end octet. */
  method WriteOptionalPart(buf: array<Octet>, pointer: nat, offset: nat, ps: seq<Piece>) returns (size: nat)
    requires pointer < offset && offset + |OptionalPart(ps)| < buf.Length
    modifies buf
    ensures size == offset + |OptionalPart(ps)| && buf[offset..size] == OptionalPart(ps)
    ensures buf[pointer] == if Tlvs(ps) == [] then 0 else ToOctet(offset - pointer)
    ensures buf[..pointer] == old(buf[..pointer]) && buf[pointer + 1..offset] == old(buf[pointer + 1..offset])
  {
    hide ToOctet, Tlvs;
    ghost var before := buf[..];
    var end := WriteOptional(buf, offset, ps);
    ghost var written := buf[..];
    SameSlices(before, written, pointer, offset);
    size := end;
    if end > offset {
      buf[pointer] := ToOctet(offset - pointer);
      buf[end] := 0;
      size := end + 1;
      assert buf[..] == written[pointer := ToOctet(offset - pointer)][end := 0];
      assert buf[offset..size] == written[offset..end] + [0];
    } else {
      buf[pointer] := 0;
      assert buf[..] == written[pointer := 0];
    }
  }

  lemma SameSlices(a: seq<Octet>, b: seq<Octet>, i: nat, n: nat)
    requires i < n <= |a| && n <= |b| && a[..n] == b[..n]
    ensures a[..i] == b[..i] && a[i + 1..n] == b[i + 1..n]
  {
    assert a[..i] == a[..n][..i] && a[i + 1..n] == a[..n][i + 1..];
    assert b[..i] == b[..n][..i] && b[i + 1..n] == b[..n][i + 1..];
  }

  lemma Layout(w: seq<Octet>, cell: nat, pointer: nat, offset: nat, end: nat)
    requires cell <= pointer < offset <= end <= |w|
    ensures w[..end] == w[..cell] + w[cell..pointer] + [w[pointer]] + w[pointer + 1..offset] + w[offset..end]
  {
  }

  lemma LowerSlices(a: seq<Octet>, b: seq<Octet>, i: nat, n: nat)
    requires i <= n <= |a| && n <= |b| && a[..n] == b[..n]
    ensures a[..i] == b[..i] && a[i..n] == b[i..n]
  {
    assert a[..i] == a[..n][..i] && a[i..n] == a[..n][i..];
    assert b[..i] == b[..n][..i] && b[i..n] == b[..n][i..];
  }

  lemma PlainLayout(w: seq<Octet>, cell: nat, start: nat, offset: nat)
    requires cell <= start <= offset <= |w|
    ensures w[..offset] == w[..cell] + w[cell..start] + [] + w[start..offset] + []
  {
  }

  /** The parameter part of isup_send_message, into a buffer with room to spare. */
  method SendParameters(buf: array<Octet>, fixed: seq<seq<Octet>>, variable: seq<seq<Octet>>, optional: bool,
                        ps: seq<Piece>) returns (size: nat)
    requires |Assembled(fixed, variable, optional, ps)| < buf.Length
    modifies buf
    ensures size == |Assembled(fixed, variable, optional, ps)|
    ensures buf[..size] == Assembled(fixed, variable, optional, ps)
  {
    hide ToOctet, Concat, Pointers, Bodies, Tlvs, OptionalPart, Assembled;
    AssembledSize(fixed, variable, optional, ps);
    var cell := WriteFixed(buf, fixed);
    var pointer := cell + |variable|;
    var offset := WriteVariable(buf, cell, cell + Cells(variable, optional), variable);
    size := offset;
    ghost var before := buf[..];
    if optional {
      size := WriteOptionalPart(buf, pointer, offset, ps);
      LowerSlices(before, buf[..], cell, pointer);
    }
    AssembledIs(buf[..], cell, pointer, offset, size, fixed, variable, optional, ps);
  }

  lemma AssembledSize(fixed: seq<seq<Octet>>, variable: seq<seq<Octet>>, optional: bool, ps: seq<Piece>)
    ensures |Assembled(fixed, variable, optional, ps)|
      == |Concat(fixed)| + Cells(variable, optional) + |Bodies(variable)| + if optional then |OptionalPart(ps)| else 0
  {
    hide ToOctet, Concat, Pointers, Bodies, Tlvs, OptionalPart;
  }

  lemma AssembledIs(w: seq<Octet>, cell: nat, pointer: nat, offset: nat, size: nat,
                    fixed: seq<seq<Octet>>, variable: seq<seq<Octet>>, optional: bool, ps: seq<Piece>)
    requires cell <= pointer == cell + |variable| <= cell + Cells(variable, optional) <= offset <= size <= |w|
    requires w[..cell] == Concat(fixed) && w[cell..pointer] == Pointers(variable, Cells(variable, optional))
    requires w[cell + Cells(variable, optional)..offset] == Bodies(variable)
    requires if optional then w[pointer] == (if Tlvs(ps) == [] then 0 else ToOctet(offset - pointer))
      && w[offset..size] == OptionalPart(ps) else size == offset
    ensures w[..size] == Assembled(fixed, variable, optional, ps)
  {
    hide ToOctet, Concat, Pointers, Bodies, Tlvs, OptionalPart;
    if optional {
      Layout(w, cell, pointer, offset, size);
    } else {
      PlainLayout(w, cell, pointer, offset);
    }
  }
}
