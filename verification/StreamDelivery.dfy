/**
 What a whole run of a connection guarantees: the egress workers read exactly
 the byte stream, in order, from staging that cannot have been reused; every
 extent is released once and only when nobody reads it; and its released
 acknowledgement runs name each accepted completion exactly once.
 */
module StreamDelivery {
  import opened Wrappers
  import opened StreamWindow
  import opened StreamCustody
  import opened StreamRuns

  // ---- growth ------------------------------------------------------------

  ghost predicate PiecesGrow(xs: seq<Piece>, ys: seq<Piece>)
  {
    && |xs| <= |ys|
    && forall i :: 0 <= i < |xs| ==> xs[i].len == ys[i].len && xs[i].at == ys[i].at
  }

  /** Extents, pieces and stream only grow, and a released extent stays released. */
  ghost predicate Grows(s: State, t: State)
  {
    && |s.arrivals| <= |t.arrivals| && s.stream <= t.stream && s.head <= t.head
    && PiecesGrow(s.pieces, t.pieces)
    && forall a :: 0 <= a < |s.arrivals| && s.arrivals[a].unfreed == 0 ==> t.arrivals[a].unfreed == 0
  }

  lemma GrowsTogether(r: State, s: State, t: State)
    requires Grows(r, s) && Grows(s, t)
    ensures Grows(r, t)
  {
  }

  lemma RetireGrows(s: State, j: nat)
    requires Inv(s) && j < |s.pieces| && !s.pieces[j].gone && s.pieces[j].arr < |s.arrivals|
    ensures Grows(s, Retired(s, j))
  {
    hide Inv;
    assert Read(s, s.pieces[j].arr);
    hide Read;
    ReleasedExactly(s, s.pieces[j].arr);
  }

  lemma Cursors(s: State)
    requires Inv(s)
    ensures s.head <= |s.arrivals| && (s.pc.Cover? ==> s.head <= s.pc.k)
    ensures Tiled(s.pieces)
    ensures !s.dead && s.pc.Idle? ==> ShipEnd(s.pieces) == s.parsePos
  {
    hide CustodyOk, AckOk, MemOk, UnitsOk, PiecesOk, Contiguous;
  }

  lemma WorkGrows(s: State)
    requires Inv(s) && !s.pc.Idle?
    ensures Grows(s, Worked(s))
  {
    hide Inv, Read;
    Cursors(s);
    if Covering(s) {
      ReleasedExactly(s, s.pc.k);
    } else if Unlinking(s) {
      ReleasedExactly(s, s.head);
    }
  }

  lemma ReceiveGrows(s: State, e: Entry)
    ensures Grows(s, Received(s, e))
  {
    hide Duplicate, Written;
  }

  lemma ShipGrows(s: State)
    requires s.head <= |s.arrivals|
    ensures Grows(s, Shipped(s))
  {
    hide Gather, ShipLen, Locate;
  }

  lemma StepGrows(s: State, x: Step, s': State)
    requires Inv(s) && Legal(s, x, s')
    ensures Grows(s, s')
  {
    hide Inv, Received, Shipped, Worked, Retired, Clear;
    match x
    case Receive(e) => ReceiveGrows(s, e);
    case Ship(room) => if room { ShipGrows(s); }
    case Eof =>
    case Refuse =>
    case Work => WorkGrows(s);
    case Retire(j) => RetireGrows(s, j);
  }

  lemma {:induction false} RunGrows(run: seq<State>, steps: seq<Step>, i: nat, j: nat)
    requires IsRun(run, steps) && i <= j < |run|
    ensures Grows(run[i], run[j])
    decreases j - i
  {
    hide Inv, Legal;
    if i < j {
      RunGrows(run, steps, i, j - 1);
      hide Grows;
      RunKeeps(run, steps, j - 1);
      StepGrows(run[j - 1], steps[j - 1], run[j]);
      GrowsTogether(run[i], run[j - 1], run[j]);
    }
  }

  // ---- custody -----------------------------------------------------------

  /** Step `i` takes the extent's custody to zero, so its thread releases it. */
  ghost predicate Releases(run: seq<State>, i: nat, a: nat)
    requires i + 1 < |run|
  {
    && a < |run[i].arrivals| && a < |run[i + 1].arrivals|
    && run[i].arrivals[a].unfreed > 0 && run[i + 1].arrivals[a].unfreed == 0
  }

  /** No extent is released twice, and its release finds it out of the window with no reader left. */
  lemma ReleasedOnce(run: seq<State>, steps: seq<Step>, i: nat, j: nat, a: nat)
    requires IsRun(run, steps) && i < |steps| && j < |steps|
    requires Releases(run, i, a)
    ensures Releases(run, j, a) ==> i == j
    ensures a < run[i + 1].head && !Read(run[i + 1], a)
  {
    hide Inv, Legal, Read;
    RunKeeps(run, steps, i + 1);
    ReleasedExactly(run[i + 1], a);
    if i < j {
      RunGrows(run, steps, i + 1, j);
    } else if j < i {
      if a < |run[j + 1].arrivals| {
        RunGrows(run, steps, j + 1, i);
      }
    }
  }

  /** Once every byte is parsed and every piece retired, every extent has been released: nothing leaks. */
  lemma AllReleased(run: seq<State>, steps: seq<Step>, a: nat)
    requires IsRun(run, steps)
    requires var s := run[|run| - 1];
             && a < |s.arrivals| && s.pc.Idle? && s.parsePos == |s.stream|
             && forall k :: 0 <= k < |s.pieces| ==> s.pieces[k].gone
    ensures run[|run| - 1].arrivals[a].unfreed == 0
  {
    var s := run[|run| - 1];
    RunKeeps(run, steps, |run| - 1);
    ReleasedExactly(s, a);
    if s.head < |s.arrivals| {
      LaterEnd(s.arrivals, s.head);
    }
    hide CustodyOk, Contiguous, AckOk, MemOk, UnitsOk, ShipOk, Legal;
  }

  /** The acknowledgement runs of the extents, in order, are the accepted completions, each exactly once. */
  lemma AcksAreExact(run: seq<State>, steps: seq<Step>)
    requires IsRun(run, steps)
    ensures var s := run[|run| - 1]; Acks(s.arrivals, |s.arrivals|) == s.accepted
    ensures var s := run[|run| - 1]; forall a :: 0 <= a < |s.arrivals| ==> 0 < AckCount(s.arrivals[a]) < ACK_RUN_MAX
  {
    RunKeeps(run, steps, |run| - 1);
  }

  // ---- fidelity ----------------------------------------------------------

  /** What a DMA of the piece reads from staging. */
  function Fetch(s: State, p: Piece): seq<Byte>
  {
    seq(p.len, i requires 0 <= i < p.len =>
      if Addr(p.pod, p.off + i) in s.mem then s.mem[Addr(p.pod, p.off + i)] else 0)
  }

  lemma PieceInside(s: State, j: nat)
    requires Inv(s) && j < |s.pieces|
    ensures PieceOk(s.arrivals, s.pieces[j])
  {
    hide CustodyOk, AckOk, MemOk, UnitsOk, Tiled, WindowOk;
  }

  lemma HeldIntact(s: State, a: nat)
    requires Inv(s) && a < |s.arrivals| && s.arrivals[a].unfreed > 0
    ensures End(s.arrivals[a]) <= |s.stream| && Intact(s.mem, s.stream, s.arrivals[a])
  {
    hide CustodyOk, AckOk, UnitsOk, ShipOk, WindowOk;
  }

  /** While a piece is in flight its staging holds its bytes of the stream. */
  lemma FetchIsStream(s: State, j: nat)
    requires Inv(s) && j < |s.pieces| && !s.pieces[j].gone
    ensures s.pieces[j].at + s.pieces[j].len <= |s.stream|
    ensures Fetch(s, s.pieces[j]) == s.stream[s.pieces[j].at..s.pieces[j].at + s.pieces[j].len]
  {
    hide Inv;
    var p := s.pieces[j];
    assert Read(s, p.arr);
    hide Read;
    PieceInside(s, j);
    ReleasedExactly(s, p.arr);
    var a := s.arrivals[p.arr];
    HeldIntact(s, p.arr);
    forall i | 0 <= i < p.len
      ensures Fetch(s, p)[i] == s.stream[p.at + i]
    {
      assert Addr(a.pod, p.off + i) in s.mem;
    }
  }

  function Joined(parts: seq<seq<Byte>>, n: nat): seq<Byte>
    requires n <= |parts|
  {
    if n == 0 then [] else Joined(parts, n - 1) + parts[n - 1]
  }

  /** Part `k` was fetched in some state where piece `k` was in flight. */
  ghost predicate Fetched(run: seq<State>, part: seq<Byte>, w: nat, k: nat)
  {
    w < |run| && k < |run[w].pieces| && !run[w].pieces[k].gone && part == Fetch(run[w], run[w].pieces[k])
  }

  /** A part fetched at any time is the slice of the final stream its piece stands for. */
  lemma PartIsSlice(run: seq<State>, steps: seq<Step>, part: seq<Byte>, w: nat, k: nat)
    requires IsRun(run, steps) && Fetched(run, part, w, k)
    ensures var s := run[|run| - 1];
            && k < |s.pieces| && s.pieces[k].at + s.pieces[k].len <= |s.stream|
            && part == s.stream[s.pieces[k].at..s.pieces[k].at + s.pieces[k].len]
  {
    hide Inv, Legal, Fetch;
    RunKeeps(run, steps, w);
    FetchIsStream(run[w], k);
    RunGrows(run, steps, w, |run| - 1);
  }

  lemma {:induction false} PrefixJoined(run: seq<State>, steps: seq<Step>, parts: seq<seq<Byte>>, when: seq<nat>,
                                        n: nat)
    requires IsRun(run, steps) && n <= |parts| == |when| == |run[|run| - 1].pieces|
    requires Inv(run[|run| - 1])
    requires forall k :: 0 <= k < |parts| ==> Fetched(run, parts[k], when[k], k)
    ensures var s := run[|run| - 1];
            PosAt(s.pieces, n) <= |s.stream| && Joined(parts, n) == s.stream[..PosAt(s.pieces, n)]
  {
    hide Inv, Fetched, Legal;
    if n > 0 {
      var s := run[|run| - 1];
      PrefixJoined(run, steps, parts, when, n - 1);
      PartIsSlice(run, steps, parts[n - 1], when[n - 1], n - 1);
      Cursors(s);
      assert n >= 2 ==> s.pieces[n - 1].at == s.pieces[n - 2].at + s.pieces[n - 2].len;
    }
  }

  /**
   The bytes every unit's DMA reads, in shipping order and whenever each read
   happened, are the byte stream the connection received: exactly its first
   bytes, without loss, duplication, reordering or corruption. A connection that
   was not refused has shipped everything it parsed.
   */
  lemma StreamDelivered(run: seq<State>, steps: seq<Step>, parts: seq<seq<Byte>>, when: seq<nat>)
    requires IsRun(run, steps) && |parts| == |when| == |run[|run| - 1].pieces|
    requires forall k :: 0 <= k < |parts| ==> Fetched(run, parts[k], when[k], k)
    ensures var s := run[|run| - 1];
            && ShipEnd(s.pieces) <= |s.stream| && Joined(parts, |parts|) == s.stream[..ShipEnd(s.pieces)]
            && (!s.dead && s.pc.Idle? ==> ShipEnd(s.pieces) == s.parsePos)
  {
    hide Inv, Fetched, Legal;
    RunKeeps(run, steps, |run| - 1);
    PrefixJoined(run, steps, parts, when, |parts|);
    Cursors(run[|run| - 1]);
  }

  /**
   Units, in order, divide the shipped stream: each states its exact length and
   the next delivery number, and only an end-of-stream unit is without bytes.
   */
  lemma UnitsDivideStream(run: seq<State>, steps: seq<Step>, i: nat)
    requires IsRun(run, steps) && i < |run[|run| - 1].units|
    ensures var s := run[|run| - 1];
            var u := s.units[i];
            && (u.count == 0 <==> u.totalLen == 0) && u.first + u.count <= |s.pieces|
            && u.totalLen == PosAt(s.pieces, u.first + u.count) - PosAt(s.pieces, u.first)
            && u.first == (if i == 0 then 0 else s.units[i - 1].first + s.units[i - 1].count)
            && (i > 0 ==> u.seqNo == (s.units[i - 1].seqNo + 1) % SEQ)
  {
    hide Inv, Legal;
    RunKeeps(run, steps, |run| - 1);
    UnitAt(run[|run| - 1], i);
  }

  lemma UnitAt(s: State, i: nat)
    requires Inv(s) && i < |s.units|
    ensures var u := s.units[i];
            && (u.count == 0 <==> u.totalLen == 0) && u.first + u.count <= |s.pieces|
            && u.totalLen == PosAt(s.pieces, u.first + u.count) - PosAt(s.pieces, u.first)
            && u.first == (if i == 0 then 0 else s.units[i - 1].first + s.units[i - 1].count)
            && (i > 0 ==> u.seqNo == (s.units[i - 1].seqNo + 1) % SEQ)
  {
    hide CustodyOk, AckOk, WindowOk, MemOk, ShipOk, PosAt;
  }
}
