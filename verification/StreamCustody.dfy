/**
 Custody and fidelity of one connection's bytes over every interleaving of its
 owner thread with the egress workers that retire its pieces
 (doca/dpu_proxy.c). The owner's advance is broken into its atomic counter
 updates, so a piece may be retired between any two of them.
 */
module StreamCustody {
  import opened Wrappers
  import opened StreamWindow

  /** Where the owner stands inside px_advance: covering extents up to `k`, unlinking parsed ones, or outside. */
  datatype Pc = Idle | Cover(to: nat, k: nat) | Unlink

  datatype Entry = Entry(pod: int, off: nat, bytes: seq<Byte>, seqNo: nat)

  /**
   `limit` bounds one DMA task (0: unbounded), `counter` is the delivery sequence
   of the destination, `accepted` the sequence numbers of the completions taken in.
   */
  datatype State = State(
    arrivals: seq<Arrival>, head: nat, parsePos: nat, pc: Pc, dead: bool, limit: nat,
    pieces: seq<Piece>, units: seq<Unit>, counter: nat,
    seqValid: bool, lastSeq: nat, accepted: seq<nat>, stream: seq<Byte>, mem: map<Addr, Byte>)

  datatype Step = Receive(e: Entry) | Ship(room: bool) | Eof | Refuse | Work | Retire(j: nat)

  function Init(limit: nat, counter: nat): State
  {
    State([], 0, 0, Idle, false, limit, [], [], counter, false, 0, [], [], map[])
  }

  // ---- arriving ----------------------------------------------------------

  /** The sender reuses staging only after the extent holding it was released. */
  ghost predicate Clear(s: State, e: Entry)
  {
    forall a :: 0 <= a < |s.arrivals| && s.arrivals[a].unfreed > 0 && s.arrivals[a].pod == e.pod ==>
      s.arrivals[a].off + s.arrivals[a].len <= e.off || e.off + |e.bytes| <= s.arrivals[a].off
  }

  function SeqDelta(s: State, e: Entry): nat
  {
    if s.seqValid then (e.seqNo - s.lastSeq) % SEQ else 1
  }

  predicate Duplicate(s: State, e: Entry)
  {
    s.seqValid && (SeqDelta(s, e) == 0 || SeqDelta(s, e) >= 0x8000)
  }

  function Written(mem: map<Addr, Byte>, e: Entry): map<Addr, Byte>
  {
    mem + map i | 0 <= i < |e.bytes| :: Addr(e.pod, e.off + i) := e.bytes[i]
  }

  /** The new completion continues the untouched last extent of the window. */
  predicate Extends(s: State, e: Entry)
  {
    && SeqDelta(s, e) == 1 && s.head < |s.arrivals|
    && var t := s.arrivals[|s.arrivals| - 1];
       && t.pod == e.pod && t.off + t.len == e.off && t.len + |e.bytes| <= COALESCE_MAX
       && (e.seqNo - t.ackFirst) % SEQ + 1 < ACK_RUN_MAX
       && t.claimed == 0 && t.unfreed == t.len + 1
  }

  function Extended(s: State, e: Entry): State
    requires Extends(s, e)
  {
    var n := |s.arrivals|;
    var t := s.arrivals[n - 1];
    s.(arrivals := s.arrivals[n - 1 := t.(unfreed := t.unfreed + |e.bytes|, len := t.len + |e.bytes|,
                                          ackLast := e.seqNo)],
       stream := s.stream + e.bytes, mem := Written(s.mem, e), seqValid := true, lastSeq := e.seqNo,
       accepted := s.accepted + [e.seqNo])
  }

  function Appended(s: State, e: Entry): State
  {
    s.(arrivals := s.arrivals + [Arrival(StreamEnd(s.arrivals), e.pod, e.off, |e.bytes|, |e.bytes| + 1, 0, e.seqNo,
                                         e.seqNo)],
       stream := s.stream + e.bytes, mem := Written(s.mem, e), seqValid := true, lastSeq := e.seqNo,
       accepted := s.accepted + [e.seqNo])
  }

  function Received(s: State, e: Entry): State
  {
    if Duplicate(s, e) then s else if Extends(s, e) then Extended(s, e) else Appended(s, e)
  }

  // ---- parsing -----------------------------------------------------------

  function ShipLen(s: State): int
    requires s.head <= |s.arrivals|
  {
    var avail := View(s.arrivals, s.head, s.parsePos);
    if s.limit > 0 && avail > s.limit then s.limit else avail
  }

  function Claim(arrivals: seq<Arrival>, g: seq<Piece>): seq<Arrival>
  {
    seq(|arrivals|, i requires 0 <= i < |arrivals| => arrivals[i].(claimed := arrivals[i].claimed + BytesFor(g, i)))
  }

  /** Claim the pieces, number the unit and hand it over; the advance over it is still to come. */
  function Publish(s: State, g: seq<Piece>, n: nat): State
  {
    s.(arrivals := Claim(s.arrivals, g), pieces := s.pieces + g,
       units := s.units + [Unit(|s.pieces|, |g|, n, (s.counter + 1) % SEQ)],
       counter := (s.counter + 1) % SEQ, pc := Cover(s.parsePos + n, s.head))
  }

  /** Build one unit from the cursor and publish it. */
  function Shipped(s: State): State
    requires s.head <= |s.arrivals|
  {
    var n := Max(0, ShipLen(s));
    Publish(s, Gather(s.arrivals, Locate(s.arrivals, s.head, s.parsePos), s.parsePos, s.parsePos + n), n)
  }

  /** A unit without bytes tells the destination that nothing more follows; it takes a delivery number of its own. */
  function Ended(s: State): State
  {
    s.(units := s.units + [Unit(|s.pieces|, 0, 0, (s.counter + 1) % SEQ)], counter := (s.counter + 1) % SEQ)
  }

  predicate Covering(s: State)
  {
    s.pc.Cover? && s.pc.k < |s.arrivals| && s.arrivals[s.pc.k].base < s.pc.to
  }

  /** Drop the consumed bytes of one extent that no piece claimed this round. */
  function Covered(s: State): State
    requires Covering(s)
  {
    var a := s.arrivals[s.pc.k];
    var dropped := Max(0, Overlap(a, s.parsePos, s.pc.to) - a.claimed);
    s.(arrivals := s.arrivals[s.pc.k := a.(claimed := 0, unfreed := a.unfreed - dropped)],
       pc := Cover(s.pc.to, s.pc.k + 1))
  }

  predicate Unlinking(s: State)
  {
    s.pc.Unlink? && s.head < |s.arrivals| && End(s.arrivals[s.head]) <= s.parsePos
  }

  /** A fully parsed extent leaves the window. */
  function Unlinked(s: State): State
    requires Unlinking(s)
  {
    var a := s.arrivals[s.head];
    s.(arrivals := s.arrivals[s.head := a.(unfreed := a.unfreed - 1)], head := s.head + 1)
  }

  function Moved(s: State): State
    requires s.pc.Cover?
  {
    s.(parsePos := s.pc.to, pc := Unlink)
  }

  /** One atomic step of px_advance. */
  function Worked(s: State): State
  {
    if Covering(s) then Covered(s)
    else if s.pc.Cover? then Moved(s)
    else if Unlinking(s) then Unlinked(s)
    else s.(pc := Idle)
  }

  function Retired(s: State, j: nat): State
    requires j < |s.pieces| && s.pieces[j].arr < |s.arrivals|
  {
    var p := s.pieces[j];
    var a := s.arrivals[p.arr];
    s.(pieces := s.pieces[j := p.(gone := true)], arrivals := s.arrivals[p.arr := a.(unfreed := a.unfreed - p.len)])
  }

  /** The connection is poisoned and its unparsed bytes are dropped. */
  function Refused(s: State): State
  {
    s.(dead := true, pc := Cover(StreamEnd(s.arrivals), s.head))
  }

  ghost predicate Enabled(s: State, x: Step)
  {
    match x
    case Receive(e) => s.pc.Idle? && !s.dead && |e.bytes| > 0 && e.seqNo < SEQ && Clear(s, e)
    case Ship(_) => s.pc.Idle? && !s.dead && s.parsePos < |s.stream|
    case Eof => true
    case Refuse => s.pc.Idle? && !s.dead
    case Work => !s.pc.Idle?
    case Retire(j) => j < |s.pieces| && !s.pieces[j].gone
  }

  function Next(s: State, x: Step): State
    requires s.head <= |s.arrivals|
    requires x.Retire? ==> x.j < |s.pieces| && s.pieces[x.j].arr < |s.arrivals|
  {
    match x
    case Receive(e) => Received(s, e)
    case Ship(room) => if room then Shipped(s) else s
    case Eof => Ended(s)
    case Refuse => Refused(s)
    case Work => Worked(s)
    case Retire(j) => Retired(s, j)
  }

  // ---- invariant ---------------------------------------------------------

  /** Bytes of extent `a` still read by the first `n` pieces. */
  function Held(pieces: seq<Piece>, n: nat, a: nat): nat
    requires n <= |pieces|
  {
    if n == 0 then 0
    else Held(pieces, n - 1, a) + if !pieces[n - 1].gone && pieces[n - 1].arr == a then pieces[n - 1].len else 0
  }

  /** The parse position as far as extent `a` is concerned. */
  function Eff(s: State, a: nat): nat { if s.pc.Cover? && a < s.pc.k then s.pc.to else s.parsePos }

  /**
   Exact custody: the counter is the window's reference, plus the bytes not yet
   parsed and not claimed by the round in progress, plus the bytes pieces hold.
   */
  predicate CustodyOk(s: State, a: nat)
    requires a < |s.arrivals|
  {
    var x := s.arrivals[a];
    && x.unfreed == (if a >= s.head then 1 else 0) + Left(x, Eff(s, a)) - x.claimed + Held(s.pieces, |s.pieces|, a)
    && x.claimed <= if s.pc.Cover? && a >= s.pc.k then Overlap(x, s.parsePos, s.pc.to) else 0
  }

  ghost predicate WindowOk(s: State)
  {
    && Contiguous(s.arrivals) && StreamEnd(s.arrivals) == |s.stream|
    && s.head <= |s.arrivals| && s.parsePos <= |s.stream|
    && (forall a :: 0 <= a < s.head ==> End(s.arrivals[a]) <= s.parsePos)
    && (s.head < |s.arrivals| ==> s.arrivals[s.head].base <= s.parsePos)
    && (s.head == |s.arrivals| ==> s.parsePos == |s.stream|)
    && (s.pc.Cover? ==> s.head <= s.pc.k <= |s.arrivals| && s.parsePos <= s.pc.to <= |s.stream|)
    && (s.pc.Idle? && s.head < |s.arrivals| ==> s.parsePos < End(s.arrivals[s.head]))
  }

  predicate PieceOk(arrivals: seq<Arrival>, p: Piece)
  {
    && p.arr < |arrivals| && p.len > 0
    && arrivals[p.arr].base <= p.at && p.at + p.len <= End(arrivals[p.arr])
    && p.pod == arrivals[p.arr].pod && p.off == arrivals[p.arr].off + (p.at - arrivals[p.arr].base)
  }

  ghost predicate PiecesOk(arrivals: seq<Arrival>, pieces: seq<Piece>)
  {
    forall k :: 0 <= k < |pieces| ==> PieceOk(arrivals, pieces[k])
  }

  /** Stream position the shipped pieces reach. */
  function ShipEnd(pieces: seq<Piece>): nat
  {
    if pieces == [] then 0 else pieces[|pieces| - 1].at + pieces[|pieces| - 1].len
  }

  /** Pieces, in shipping order, are the stream from its first byte on. */
  ghost predicate Tiled(pieces: seq<Piece>)
  {
    && (|pieces| > 0 ==> pieces[0].at == 0)
    && (forall i, j :: 0 <= i && j == i + 1 && j < |pieces| ==> pieces[j].at == pieces[i].at + pieces[i].len)
  }

  ghost predicate ShipOk(s: State)
  {
    && Tiled(s.pieces) && PiecesOk(s.arrivals, s.pieces)
    && (s.dead ==> ShipEnd(s.pieces) <= s.parsePos)
    && (!s.dead ==> ShipEnd(s.pieces) == if s.pc.Cover? then s.pc.to else s.parsePos)
  }

  /** Stream position the first `n` pieces reach. */
  function PosAt(pieces: seq<Piece>, n: nat): nat
    requires n <= |pieces|
  {
    if n == 0 then 0 else pieces[n - 1].at + pieces[n - 1].len
  }

  /** Units divide the pieces in order, state their exact length and are numbered consecutively. */
  ghost predicate UnitsOk(s: State)
  {
    && (forall i :: 0 <= i < |s.units| ==> var u := s.units[i];
          (u.count == 0 <==> u.totalLen == 0) && u.first + u.count <= |s.pieces| &&
          u.totalLen == PosAt(s.pieces, u.first + u.count) - PosAt(s.pieces, u.first))
    && (forall i, j :: 0 <= i && j == i + 1 && j < |s.units| ==>
          s.units[j].first == s.units[i].first + s.units[i].count && s.units[j].seqNo == (s.units[i].seqNo + 1) % SEQ)
    && (if s.units == [] then s.pieces == []
        else s.units[0].first == 0 && s.counter == s.units[|s.units| - 1].seqNo &&
             s.units[|s.units| - 1].first + s.units[|s.units| - 1].count == |s.pieces|)
  }

  ghost predicate Intact(mem: map<Addr, Byte>, stream: seq<Byte>, a: Arrival)
    requires End(a) <= |stream|
  {
    forall o :: a.off <= o < a.off + a.len ==>
      Addr(a.pod, o) in mem && mem[Addr(a.pod, o)] == stream[a.base + (o - a.off)]
  }

  /** Staging under custody still holds the bytes of the stream. */
  ghost predicate MemOk(s: State)
  {
    forall a :: 0 <= a < |s.arrivals| && s.arrivals[a].unfreed > 0 ==>
      End(s.arrivals[a]) <= |s.stream| && Intact(s.mem, s.stream, s.arrivals[a])
  }

  /** How many sequence numbers an extent acknowledges, as the 16-bit field carries it. */
  function AckCount(a: Arrival): nat { (a.ackLast - a.ackFirst + 1) % SEQ }

  /** The run of sequence numbers one acknowledgement stands for. */
  function AckRun(a: Arrival): seq<nat>
  {
    seq(AckCount(a), i => (a.ackFirst + i) % SEQ)
  }

  function Acks(arrivals: seq<Arrival>, n: nat): seq<nat>
    requires n <= |arrivals|
  {
    if n == 0 then [] else Acks(arrivals, n - 1) + AckRun(arrivals[n - 1])
  }

  predicate AckOk(s: State)
  {
    && Acks(s.arrivals, |s.arrivals|) == s.accepted
    && (forall i :: 0 <= i < |s.arrivals| ==>
          s.arrivals[i].ackFirst < SEQ && s.arrivals[i].ackLast < SEQ && 0 < AckCount(s.arrivals[i]) < ACK_RUN_MAX)
    && s.seqValid == (s.arrivals != [])
    && (s.seqValid ==> s.lastSeq == s.arrivals[|s.arrivals| - 1].ackLast)
  }

  ghost predicate Inv(s: State)
  {
    && WindowOk(s) && ShipOk(s) && UnitsOk(s) && MemOk(s) && AckOk(s)
    && forall a :: 0 <= a < |s.arrivals| ==> CustodyOk(s, a)
  }

  /** One step of a run. */
  ghost predicate Legal(s: State, x: Step, s': State)
  {
    && Enabled(s, x) && s.head <= |s.arrivals| && (x.Retire? ==> s.pieces[x.j].arr < |s.arrivals|)
    && s' == Next(s, x)
  }

  /** A run from a fresh connection, as the sequence of its states. */
  ghost predicate IsRun(run: seq<State>, steps: seq<Step>)
  {
    && |run| == |steps| + 1
    && run[0] == Init(run[0].limit, run[0].counter)
    && forall i :: 0 <= i < |steps| ==> Legal(run[i], steps[i], run[i + 1])
  }
}
