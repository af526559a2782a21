/**
 The wire between the crypto adapter and the crypto owner
 (doca/peer_crypto_ipc.c): big-endian fields in a fixed order behind a 16-byte
 header.
 */
module IpcCodec {
  import opened Modular
  import opened Wrappers

  const VERSION: nat := 1
  const HEADER_LEN: nat := 16
  const BODY_MAX: nat := 2048
  const FRAME_MAX: nat := HEADER_LEN + BODY_MAX
  const LANES_MAX: nat := 16
  const HELLO: nat := 1
  const REQUEST: nat := 2
  const COMPLETION: nat := 3
  const LANE_LEN: nat := 46
  const HEAD_LEN: nat := 110
  const DONE_LEN: nat := 72
  const FIRST_ACTION: nat := 1
  const LAST_ACTION: nat := 9

  datatype Token = Token(manager: nat, generation: nat, slot: nat)

  datatype Lane = Lane(id: nat, qpn0: nat, qpn1: nat, gid0: seq<Byte>, gid1: seq<Byte>)

  /** The part of a request that travels. */
  datatype Request = Request(
    token: Token, operation: nat, action: nat, localEndpoint: nat, epoch: nat, oldEpoch: nat,
    session: seq<Byte>, association: seq<Byte>, spi0: nat, spi1: nat, material: seq<Byte>, lanes: seq<Lane>)

  datatype Completion = Completion(
    token: Token, operation: nat, action: nat, status: int, session: seq<Byte>, association: seq<Byte>, epoch: nat)

  // ---- numbers -----------------------------------------------------------

  function Pow(w: nat): (p: nat)
    ensures p > 0
  {
    if w == 0 then 1 else 256 * Pow(w - 1)
  }

  /** The low `w` bytes of a number, most significant first. */
  function Number(v: nat, w: nat): (b: seq<Byte>)
    ensures |b| == w
  {
    if w == 0 then [] else Number(v / 256, w - 1) + [v % 256]
  }

  function Value(b: seq<Byte>): nat
  {
    if b == [] then 0 else 256 * Value(b[..|b| - 1]) + b[|b| - 1]
  }

  /** Reading back gives the number, cut to the field. */
  lemma {:induction false} ValueOfNumber(v: nat, w: nat)
    ensures Value(Number(v, w)) == v % Pow(w)
  {
    if w > 0 {
      ValueOfNumber(v / 256, w - 1);
      var b := Number(v, w);
      assert b[..w - 1] == Number(v / 256, w - 1);
      Shifted(v, Pow(w - 1));
    }
  }

  lemma Shifted(v: nat, p: nat)
    requires p > 0
    ensures 256 * ((v / 256) % p) + v % 256 == v % (256 * p)
  {
    var q, r := (v / 256) / p, (v / 256) % p;
    assert v == 256 * (q * p + r) + v % 256;
    assert v == q * (256 * p) + (256 * r + v % 256);
    Remainder(v, q, 256 * r + v % 256, 256 * p);
  }

  /** Writing what was read gives the same bytes. */
  lemma {:induction false} NumberOfValue(b: seq<Byte>)
    ensures Number(Value(b), |b|) == b
    decreases |b|
  {
    if b != [] {
      var n := |b| - 1;
      NumberOfValue(b[..n]);
      assert b == b[..n] + [b[n]];
    }
  }

  lemma {:induction false} ValueFits(b: seq<Byte>)
    ensures Value(b) < Pow(|b|)
    decreases |b|
  {
    if b != [] {
      ValueFits(b[..|b| - 1]);
    }
  }

  lemma Field(b: seq<Byte>)
    ensures Number(Value(b), |b|) == b && Value(b) < Pow(|b|)
  {
    NumberOfValue(b);
    ValueFits(b);
  }

  lemma InField(v: nat, w: nat)
    requires v < Pow(w)
    ensures Value(Number(v, w)) == v
  {
    ValueOfNumber(v, w);
  }

  // ---- field lists -------------------------------------------------------

  /** The fixed layouts: frame header, one lane, the head of a request, a completion. */
  datatype Shape = FrameShape | LaneShape | HeadShape | DoneShape

  function Count(k: Shape): nat
  {
    match k case FrameShape => 5 case LaneShape => 5 case HeadShape => 14 case DoneShape => 9
  }

  function Width(k: Shape, i: nat): nat
  {
    match k
    case FrameShape => if i == 1 || i == 2 then 2 else 4
    case LaneShape => if i == 0 then 8 else if i <= 2 then 3 else 16
    case HeadShape =>
      if i == 2 || i == 10 || i == 11 then 4
      else if i == 4 || i == 5 || i == 13 then 2
      else if i == 8 || i == 9 then 16
      else if i == 12 then 20 else 8
    case DoneShape => if i == 2 then 4 else if i == 4 || i == 5 then 2 else if i == 6 || i == 7 then 16 else 8
  }

  /** Bytes of the fields from number `i` on. */
  function Rest(k: Shape, i: nat): nat
    requires i <= Count(k)
    decreases Count(k) - i
  {
    if i == Count(k) then 0 else Width(k, i) + Rest(k, i + 1)
  }

  lemma Lengths()
    ensures Total(Widths(FrameShape)) == HEADER_LEN && Total(Widths(LaneShape)) == LANE_LEN
    ensures Total(Widths(HeadShape)) == HEAD_LEN && Total(Widths(DoneShape)) == DONE_LEN
  {
    hide WidthsFrom, Total;
    WidthsAt(FrameShape, 0);
    WidthsAt(LaneShape, 0);
    WidthsAt(HeadShape, 0);
    WidthsAt(DoneShape, 0);
    assert Rest(FrameShape, 0) == 16 && Rest(LaneShape, 0) == 46 && Rest(HeadShape, 0) == 110 &&
           Rest(DoneShape, 0) == 72;
  }

  /** The widths of the fields from number `i` on. */
  function WidthsFrom(k: Shape, i: nat): (ws: seq<nat>)
    requires i <= Count(k)
    ensures |ws| == Count(k) - i
    decreases Count(k) - i
  {
    if i == Count(k) then [] else [Width(k, i)] + WidthsFrom(k, i + 1)
  }

  function Widths(k: Shape): seq<nat> { WidthsFrom(k, 0) }

  lemma {:induction false} WidthsAt(k: Shape, i: nat)
    requires i <= Count(k)
    ensures Total(WidthsFrom(k, i)) == Rest(k, i)
    ensures forall j :: 0 <= j < Count(k) - i ==> WidthsFrom(k, i)[j] == Width(k, i + j)
    decreases Count(k) - i
  {
    hide Width, Count;
    if i < Count(k) {
      var ws := WidthsFrom(k, i);
      WidthsAt(k, i + 1);
      assert ws[1..] == WidthsFrom(k, i + 1);
      forall j | 0 <= j < Count(k) - i
        ensures ws[j] == Width(k, i + j)
      {
        assert j > 0 ==> WidthsFrom(k, i + 1)[j - 1] == Width(k, (i + 1) + (j - 1));
      }
    }
  }

  function Total(ws: seq<nat>): nat
  {
    if ws == [] then 0 else ws[0] + Total(ws[1..])
  }

  function Pack(fs: seq<seq<Byte>>): seq<Byte>
  {
    if fs == [] then [] else fs[0] + Pack(fs[1..])
  }

  predicate Fits(fs: seq<seq<Byte>>, ws: seq<nat>)
  {
    |fs| == |ws| && forall i :: 0 <= i < |fs| ==> |fs[i]| == ws[i]
  }

  /** Cut bytes into fields of the given widths. */
  function Split(b: seq<Byte>, ws: seq<nat>): seq<seq<Byte>>
    requires |b| == Total(ws)
    decreases |ws|
  {
    if ws == [] then [] else [b[..ws[0]]] + Split(b[ws[0]..], ws[1..])
  }

  lemma {:induction false} SplitOfPack(fs: seq<seq<Byte>>, ws: seq<nat>)
    requires Fits(fs, ws)
    ensures |Pack(fs)| == Total(ws) && Split(Pack(fs), ws) == fs
    decreases |fs|
  {
    if fs != [] {
      SplitOfPack(fs[1..], ws[1..]);
      assert Pack(fs)[..ws[0]] == fs[0] && Pack(fs)[ws[0]..] == Pack(fs[1..]);
    }
  }

  lemma {:induction false} PackOfSplit(b: seq<Byte>, ws: seq<nat>)
    requires |b| == Total(ws)
    ensures Pack(Split(b, ws)) == b && Fits(Split(b, ws), ws)
    decreases |ws|
  {
    if ws != [] {
      PackOfSplit(b[ws[0]..], ws[1..]);
      assert Split(b, ws)[1..] == Split(b[ws[0]..], ws[1..]);
      assert b == b[..ws[0]] + b[ws[0]..];
    }
  }

  // ---- lanes -------------------------------------------------------------

  function LaneFields(l: Lane): seq<seq<Byte>>
  {
    [Number(l.id, 8), Number(l.qpn0, 3), Number(l.qpn1, 3), l.gid0, l.gid1]
  }

  function LaneOf(fs: seq<seq<Byte>>): Lane
    requires |fs| == 5
  {
    Lane(Value(fs[0]), Value(fs[1]), Value(fs[2]), fs[3], fs[4])
  }

  /** What the C types of a lane hold. */
  predicate LaneTyped(l: Lane)
  {
    l.id < Pow(8) && l.qpn0 < Pow(4) && l.qpn1 < Pow(4) && |l.gid0| == 16 && |l.gid1| == 16
  }

  /** The queue pair numbers lose what does not fit three bytes. */
  function LaneOnWire(l: Lane): Lane { l.(qpn0 := l.qpn0 % Pow(3), qpn1 := l.qpn1 % Pow(3)) }

  function LaneBytes(lanes: seq<Lane>): seq<Byte>
  {
    if lanes == [] then [] else Pack(LaneFields(lanes[0])) + LaneBytes(lanes[1..])
  }

  function LanesOf(b: seq<Byte>, n: nat): Option<seq<Lane>>
    decreases n
  {
    if n == 0 then (if b == [] then Some([]) else None)
    else if |b| < LANE_LEN then None
    else
      Lengths();
      match LanesOf(b[LANE_LEN..], n - 1)
      case None => None
      case Some(rest) => Some([LaneOf(Split(b[..LANE_LEN], Widths(LaneShape)))] + rest)
  }

  lemma LaneRoundTrip(l: Lane)
    requires LaneTyped(l)
    ensures |Pack(LaneFields(l))| == Total(Widths(LaneShape)) &&
            LaneOf(Split(Pack(LaneFields(l)), Widths(LaneShape))) == LaneOnWire(l)
  {
    hide WidthsFrom, Split, Pack, Number, Value, Pow;
    WidthsAt(LaneShape, 0);
    SplitOfPack(LaneFields(l), Widths(LaneShape));
    InField(l.id, 8);
    ValueOfNumber(l.qpn0, 3);
    ValueOfNumber(l.qpn1, 3);
  }

  lemma LaneCanonical(b: seq<Byte>)
    requires |b| == Total(Widths(LaneShape))
    ensures Pack(LaneFields(LaneOf(Split(b, Widths(LaneShape))))) == b && LaneTyped(LaneOf(Split(b, Widths(LaneShape))))
    ensures var l := LaneOf(Split(b, Widths(LaneShape))); l.qpn0 < Pow(3) && l.qpn1 < Pow(3)
  {
    hide Pow, Number, Value, Split, Pack, Rest, Total, WidthsFrom;
    PowSmall();
    WidthsAt(LaneShape, 0);
    PackOfSplit(b, Widths(LaneShape));
    var fs := Split(b, Widths(LaneShape));
    Field(fs[0]);
    Field(fs[1]);
    Field(fs[2]);
    assert LaneFields(LaneOf(fs)) == fs;
  }

  function OnWire(lanes: seq<Lane>): seq<Lane>
  {
    if lanes == [] then [] else [LaneOnWire(lanes[0])] + OnWire(lanes[1..])
  }

  lemma {:induction false} LanesRoundTrip(lanes: seq<Lane>)
    requires forall i :: 0 <= i < |lanes| ==> LaneTyped(lanes[i])
    ensures LanesOf(LaneBytes(lanes), |lanes|) == Some(OnWire(lanes)) && |LaneBytes(lanes)| == |lanes| * LANE_LEN
    decreases |lanes|
  {
    hide Pow, Number, Value, Split, Total, WidthsFrom, LaneOf, LaneFields, LaneOnWire;
    if lanes != [] {
      Lengths();
      LaneRoundTrip(lanes[0]);
      LanesRoundTrip(lanes[1..]);
      var b := LaneBytes(lanes);
      assert b[..LANE_LEN] == Pack(LaneFields(lanes[0])) && b[LANE_LEN..] == LaneBytes(lanes[1..]);
    }
  }

  lemma {:induction false} LanesCanonical(b: seq<Byte>, n: nat)
    requires LanesOf(b, n).Some?
    ensures var lanes := LanesOf(b, n).value;
            && |lanes| == n && LaneBytes(lanes) == b
            && forall i :: 0 <= i < n ==> LaneTyped(lanes[i]) && lanes[i].qpn0 < Pow(3) && lanes[i].qpn1 < Pow(3)
    decreases n
  {
    hide Pow, Number, Value, Split, Pack, Total, WidthsFrom, LaneOf, LaneFields;
    if n > 0 {
      Lengths();
      LaneCanonical(b[..LANE_LEN]);
      LanesCanonical(b[LANE_LEN..], n - 1);
      var lanes := LanesOf(b, n).value;
      assert lanes[1..] == LanesOf(b[LANE_LEN..], n - 1).value;
      assert b == b[..LANE_LEN] + b[LANE_LEN..];
    }
  }

  // ---- requests ----------------------------------------------------------

  function Head(r: Request): seq<seq<Byte>>
  {
    [Number(r.token.manager, 8), Number(r.token.generation, 8), Number(r.token.slot, 4),
     Number(r.operation, 8), Number(r.action, 2), Number(r.localEndpoint, 2),
     Number(r.epoch, 8), Number(r.oldEpoch, 8), r.session, r.association,
     Number(r.spi0, 4), Number(r.spi1, 4), r.material, Number(|r.lanes|, 2)]
  }

  function HeadOf(fs: seq<seq<Byte>>, lanes: seq<Lane>): Request
    requires |fs| == 14
  {
    Request(Token(Value(fs[0]), Value(fs[1]), Value(fs[2])), Value(fs[3]), Value(fs[4]), Value(fs[5]),
            Value(fs[6]), Value(fs[7]), fs[8], fs[9], Value(fs[10]), Value(fs[11]), fs[12], lanes)
  }

  predicate RequestValid(r: Request)
  {
    && FIRST_ACTION <= r.action <= LAST_ACTION && r.token.manager != 0 && r.token.generation != 0 && r.operation != 0
    && r.localEndpoint <= 1 && 0 < |r.lanes| <= LANES_MAX && r.epoch != 0
  }

  /** What the C types of a request hold. */
  predicate RequestTyped(r: Request)
  {
    && r.token.manager < Pow(8) && r.token.generation < Pow(8) && r.token.slot < Pow(4)
    && r.operation < Pow(8) && r.action < Pow(4) && r.localEndpoint < Pow(4) && r.epoch < Pow(8) && r.oldEpoch < Pow(8)
    && |r.session| == 16 && |r.association| == 16 && r.spi0 < Pow(4) && r.spi1 < Pow(4) && |r.material| == 20
    && forall i :: 0 <= i < |r.lanes| ==> LaneTyped(r.lanes[i])
  }

  function RequestBody(r: Request): seq<Byte> { Pack(Head(r)) + LaneBytes(r.lanes) }

  function RequestOf(b: seq<Byte>): Option<Request>
  {
    if |b| < HEAD_LEN then None
    else
      Lengths();
      var fs := Split(b[..HEAD_LEN], Widths(HeadShape));
      PackOfSplit(b[..HEAD_LEN], Widths(HeadShape));
      var n := Value(fs[13]);
      if n > LANES_MAX then None
      else
        match LanesOf(b[HEAD_LEN..], n)
        case None => None
        case Some(lanes) =>
          var r := HeadOf(fs, lanes);
          if RequestValid(r) then Some(r) else None
  }

  lemma PowSmall()
    ensures Pow(2) == 65536 && Pow(3) == 16777216 && Pow(4) == 4294967296
  {
    assert Pow(1) == 256 * Pow(0);
  }

  lemma HeadRoundTrip(r: Request, lanes: seq<Lane>)
    requires RequestTyped(r) && RequestValid(r)
    ensures Fits(Head(r), Widths(HeadShape))
    ensures HeadOf(Head(r), lanes) == r.(lanes := lanes) && Value(Head(r)[13]) == |r.lanes|
  {
    hide Pow, Number, Value, WidthsFrom, Total, Rest;
    PowSmall();
    WidthsAt(HeadShape, 0);
    InField(r.token.manager, 8);
    InField(r.token.generation, 8);
    InField(r.token.slot, 4);
    InField(r.operation, 8);
    InField(r.action, 2);
    InField(r.localEndpoint, 2);
    InField(r.epoch, 8);
    InField(r.oldEpoch, 8);
    InField(r.spi0, 4);
    InField(r.spi1, 4);
    InField(|r.lanes|, 2);
  }

  lemma HeadCanonical(fs: seq<seq<Byte>>, lanes: seq<Lane>)
    requires Fits(fs, Widths(HeadShape)) && |fs| == 14 && Value(fs[13]) == |lanes|
    ensures Head(HeadOf(fs, lanes)) == fs && HeadOf(fs, lanes).lanes == lanes
  {
    hide Pow, Number, Value, WidthsFrom, Total, Rest;
    WidthsAt(HeadShape, 0);
    Field(fs[0]);
    Field(fs[1]);
    Field(fs[2]);
    Field(fs[3]);
    Field(fs[4]);
    Field(fs[5]);
    Field(fs[6]);
    Field(fs[7]);
    Field(fs[10]);
    Field(fs[11]);
    Field(fs[13]);
  }

  /**
   Decoding an encoded request gives it back, with each queue pair number cut to
   its three wire bytes.
   */
  lemma RequestRoundTrip(r: Request)
    requires RequestTyped(r) && RequestValid(r)
    ensures RequestOf(RequestBody(r)) == Some(r.(lanes := OnWire(r.lanes)))
    ensures |RequestBody(r)| == HEAD_LEN + |r.lanes| * LANE_LEN <= BODY_MAX
  {
    hide Head, HeadOf, Split, Pack, LanesOf, LaneBytes, OnWire, Pow, Rest, Total, WidthsFrom, Number, Value, Count;
    Lengths();
    LanesRoundTrip(r.lanes);
    HeadRoundTrip(r, OnWire(r.lanes));
    OnWireLength(r.lanes);
    SplitOfPack(Head(r), Widths(HeadShape));
    var b := RequestBody(r);
    assert b[..HEAD_LEN] == Pack(Head(r)) && b[HEAD_LEN..] == LaneBytes(r.lanes);
  }

  lemma {:induction false} OnWireLength(lanes: seq<Lane>)
    ensures |OnWire(lanes)| == |lanes|
    ensures OnWire(lanes) == lanes <==> forall i :: 0 <= i < |lanes| ==> LaneOnWire(lanes[i]) == lanes[i]
    decreases |lanes|
  {
    if lanes != [] {
      OnWireLength(lanes[1..]);
      assert OnWire(lanes)[1..] == OnWire(lanes[1..]);
      assert forall i :: 1 <= i < |lanes| ==> lanes[i] == lanes[1..][i - 1];
      assert OnWire(lanes) == lanes <==> OnWire(lanes)[0] == lanes[0] && OnWire(lanes)[1..] == lanes[1..];
    }
  }

  /** A request survives the wire exactly when its queue pair numbers fit 24 bits. */
  lemma RequestSurvives(r: Request)
    requires RequestTyped(r) && RequestValid(r)
    ensures RequestOf(RequestBody(r)) == Some(r) <==>
            forall i :: 0 <= i < |r.lanes| ==> r.lanes[i].qpn0 < 16777216 && r.lanes[i].qpn1 < 16777216
  {
    hide RequestOf, RequestBody, OnWire, Pow;
    RequestRoundTrip(r);
    OnWireLength(r.lanes);
    PowSmall();
    forall i | 0 <= i < |r.lanes|
      ensures LaneOnWire(r.lanes[i]) == r.lanes[i] <==> r.lanes[i].qpn0 < 16777216 && r.lanes[i].qpn1 < 16777216
    {
    }
    assert r.(lanes := OnWire(r.lanes)) == r <==> OnWire(r.lanes) == r.lanes;
  }

  /** Every accepted body is the encoding of what it decodes to. */
  lemma RequestCanonical(b: seq<Byte>)
    requires RequestOf(b).Some?
    ensures RequestBody(RequestOf(b).value) == b
  {
    hide Head, HeadOf, Split, Pack, LanesOf, LaneBytes, Pow, Rest, Total, WidthsFrom, Value, Number;
    Lengths();
    var fs := Split(b[..HEAD_LEN], Widths(HeadShape));
    PackOfSplit(b[..HEAD_LEN], Widths(HeadShape));
    var lanes := LanesOf(b[HEAD_LEN..], Value(fs[13])).value;
    LanesCanonical(b[HEAD_LEN..], Value(fs[13]));
    HeadCanonical(fs, lanes);
    assert b == b[..HEAD_LEN] + b[HEAD_LEN..];
  }

  // ---- completions -------------------------------------------------------

  function DoneFields(d: Completion): seq<seq<Byte>>
  {
    [Number(d.token.manager, 8), Number(d.token.generation, 8), Number(d.token.slot, 4), Number(d.operation, 8),
     Number(d.action, 2), Number(d.status % 65536, 2), d.session, d.association, Number(d.epoch, 8)]
  }

  /** A two-byte field read as a signed number. */
  function Signed(v: nat): int { if v >= 32768 then v - 65536 else v }

  function DoneOf(fs: seq<seq<Byte>>): Completion
    requires |fs| == 9
  {
    Completion(Token(Value(fs[0]), Value(fs[1]), Value(fs[2])), Value(fs[3]), Value(fs[4]), Signed(Value(fs[5])),
               fs[6], fs[7], Value(fs[8]))
  }

  predicate DoneTyped(d: Completion)
  {
    && d.token.manager < Pow(8) && d.token.generation < Pow(8) && d.token.slot < Pow(4) && d.operation < Pow(8)
    && d.action < Pow(4) && |d.session| == 16 && |d.association| == 16 && d.epoch < Pow(8)
  }

  predicate DoneValid(d: Completion) { -2 <= d.status <= 0 && FIRST_ACTION <= d.action <= LAST_ACTION }

  /** The action is stored in two bytes without a check. */
  function DoneOnWire(d: Completion): Completion { d.(action := d.action % 65536) }

  function CompletionBody(d: Completion): seq<Byte> { Pack(DoneFields(d)) }

  function CompletionOf(b: seq<Byte>): Option<Completion>
  {
    if |b| != DONE_LEN then None
    else
      Lengths();
      var d := DoneOf(Split(b, Widths(DoneShape)));
      if DoneValid(d) then Some(d) else None
  }

  lemma DoneRoundTrip(d: Completion)
    requires DoneTyped(d) && -2 <= d.status <= 0
    ensures Fits(DoneFields(d), Widths(DoneShape)) && DoneOf(DoneFields(d)) == DoneOnWire(d)
  {
    hide Pow, Number, Value, WidthsFrom, Total, Rest;
    PowSmall();
    WidthsAt(DoneShape, 0);
    InField(d.token.manager, 8);
    InField(d.token.generation, 8);
    InField(d.token.slot, 4);
    InField(d.operation, 8);
    ValueOfNumber(d.action, 2);
    InField(d.status % 65536, 2);
    InField(d.epoch, 8);
  }

  lemma DoneCanonical(fs: seq<seq<Byte>>)
    requires Fits(fs, Widths(DoneShape)) && |fs| == 9
    ensures DoneFields(DoneOf(fs)) == fs
  {
    hide Pow, Number, Value, WidthsFrom, Total, Rest;
    PowSmall();
    WidthsAt(DoneShape, 0);
    Field(fs[0]);
    Field(fs[1]);
    Field(fs[2]);
    Field(fs[3]);
    Field(fs[4]);
    Field(fs[5]);
    Field(fs[8]);
    assert Signed(Value(fs[5])) % 65536 == Value(fs[5]);
  }

  /**
   What the decoder makes of a completion the encoder accepts. It comes back
   exactly when its action is one the owner knows; one 65536 too large comes
   back as the action it is cut down to.
   */
  lemma CompletionSurvives(d: Completion)
    requires DoneTyped(d) && -2 <= d.status <= 0
    ensures |CompletionBody(d)| == DONE_LEN
    ensures CompletionOf(CompletionBody(d)) == if DoneValid(DoneOnWire(d)) then Some(DoneOnWire(d)) else None
    ensures CompletionOf(CompletionBody(d)) == Some(d) <==> DoneValid(d)
  {
    hide Split, Pack, WidthsFrom, Total, Rest, DoneFields, DoneOf, Pow;
    Lengths();
    DoneRoundTrip(d);
    SplitOfPack(DoneFields(d), Widths(DoneShape));
  }

  lemma CompletionCanonical(b: seq<Byte>)
    requires CompletionOf(b).Some?
    ensures CompletionBody(CompletionOf(b).value) == b
  {
    hide Split, Pack, WidthsFrom, Total, Rest, DoneFields, DoneOf;
    Lengths();
    PackOfSplit(b, Widths(DoneShape));
    DoneCanonical(Split(b, Widths(DoneShape)));
  }

  // ---- frames ------------------------------------------------------------

  datatype Header = Short | Malformed | Header(kind: nat, len: nat)

  const MAGIC: seq<Byte> := [68, 77, 67, 82]

  function HeaderBytes(kind: nat, len: nat): seq<Byte>
  {
    Pack([MAGIC, Number(VERSION, 2), Number(kind, 2), Number(len, 4), Number(0, 4)])
  }

  /** Only the first 16 bytes matter. */
  function HeaderOf(b: seq<Byte>): (h: Header)
    ensures h.Header? ==> HELLO <= h.kind <= COMPLETION && h.len <= BODY_MAX && |b| >= HEADER_LEN
    ensures h.Short? <==> |b| < HEADER_LEN
  {
    if |b| < HEADER_LEN then Short
    else
      Lengths();
      var fs := Split(b[..HEADER_LEN], Widths(FrameShape));
      PackOfSplit(b[..HEADER_LEN], Widths(FrameShape));
      var kind, len := Value(fs[2]), Value(fs[3]);
      if fs[0] != MAGIC || Value(fs[1]) != VERSION || Value(fs[4]) != 0 ||
         kind < HELLO || kind > COMPLETION || len > BODY_MAX then Malformed
      else Header(kind, len)
  }

  lemma HeaderRoundTrip(kind: nat, len: nat, rest: seq<Byte>)
    requires HELLO <= kind <= COMPLETION && len <= BODY_MAX
    ensures |HeaderBytes(kind, len)| == HEADER_LEN
    ensures HeaderOf(HeaderBytes(kind, len) + rest) == Header(kind, len)
  {
    hide Pow, Number, Value, Split, Pack, WidthsFrom, Total, Rest;
    Lengths();
    PowSmall();
    WidthsAt(FrameShape, 0);
    var fs := [MAGIC, Number(VERSION, 2), Number(kind, 2), Number(len, 4), Number(0, 4)];
    InField(VERSION, 2);
    InField(kind, 2);
    InField(len, 4);
    InField(0, 4);
    SplitOfPack(fs, Widths(FrameShape));
    assert (HeaderBytes(kind, len) + rest)[..HEADER_LEN] == HeaderBytes(kind, len);
  }

  lemma HeaderCanonical(b: seq<Byte>)
    requires HeaderOf(b).Header?
    ensures b[..HEADER_LEN] == HeaderBytes(HeaderOf(b).kind, HeaderOf(b).len)
  {
    hide Pow, Number, Value, Split, Pack, WidthsFrom, Total, Rest;
    Lengths();
    WidthsAt(FrameShape, 0);
    var fs := Split(b[..HEADER_LEN], Widths(FrameShape));
    PackOfSplit(b[..HEADER_LEN], Widths(FrameShape));
    Field(fs[1]);
    Field(fs[2]);
    Field(fs[3]);
    Field(fs[4]);
    assert fs == [MAGIC, Number(VERSION, 2), Number(HeaderOf(b).kind, 2), Number(HeaderOf(b).len, 4), Number(0, 4)];
  }
}
