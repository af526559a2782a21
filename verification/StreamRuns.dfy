/**
 Every step of a connection keeps its custody exact and its stream faithful.
 */
module StreamRuns {
  import opened Wrappers
  import opened StreamWindow
  import opened StreamCustody

  // ---- sums --------------------------------------------------------------

  lemma {:induction false} HeldSame(xs: seq<Piece>, ys: seq<Piece>, n: nat, a: nat)
    requires n <= |xs| && n <= |ys| && forall i :: 0 <= i < n ==> xs[i] == ys[i]
    ensures Held(xs, n, a) == Held(ys, n, a)
  {
    if n > 0 {
      HeldSame(xs, ys, n - 1, a);
    }
  }

  /** Letting go of one piece takes its bytes out of its extent's sum only. */
  lemma {:induction false} HeldRetire(xs: seq<Piece>, n: nat, j: nat, a: nat)
    requires j < n <= |xs| && !xs[j].gone
    ensures Held(xs[j := xs[j].(gone := true)], n, a) == Held(xs, n, a) - if xs[j].arr == a then xs[j].len else 0
  {
    var ys := xs[j := xs[j].(gone := true)];
    if n - 1 == j {
      HeldSame(xs, ys, j, a);
    } else {
      HeldRetire(xs, n - 1, j, a);
    }
  }

  /** Pieces just shipped add what they hold. */
  lemma {:induction false} HeldShip(xs: seq<Piece>, g: seq<Piece>, a: nat)
    requires forall i :: 0 <= i < |g| ==> !g[i].gone
    ensures Held(xs + g, |xs + g|, a) == Held(xs, |xs|, a) + BytesFor(g, a)
    decreases |g|
  {
    if g == [] {
      assert xs + g == xs;
    } else {
      var ys := xs + [g[0]];
      assert ys + g[1..] == xs + g;
      HeldShip(ys, g[1..], a);
      HeldSame(xs, ys, |xs|, a);
    }
  }

  lemma {:induction false} HeldNone(xs: seq<Piece>, n: nat, a: nat)
    requires n <= |xs| && forall i :: 0 <= i < n ==> xs[i].arr != a
    ensures Held(xs, n, a) == 0
  {
    if n > 0 {
      HeldNone(xs, n - 1, a);
    }
  }

  /** A piece not yet let go of counts towards its extent. */
  lemma {:induction false} HeldAtLeast(xs: seq<Piece>, n: nat, j: nat)
    requires j < n <= |xs| && !xs[j].gone
    ensures Held(xs, n, xs[j].arr) >= xs[j].len
  {
    if n - 1 != j {
      HeldAtLeast(xs, n - 1, j);
    }
  }

  // ---- what only touches counters ----------------------------------------

  /** The same extents; custody may only fall, and never rises from zero. */
  ghost predicate SameExtents(xs: seq<Arrival>, ys: seq<Arrival>)
  {
    && |xs| == |ys|
    && forall i :: 0 <= i < |xs| ==>
         && xs[i].base == ys[i].base && xs[i].pod == ys[i].pod && xs[i].off == ys[i].off && xs[i].len == ys[i].len
         && (ys[i].unfreed > 0 ==> xs[i].unfreed > 0)
         && xs[i].ackFirst == ys[i].ackFirst && xs[i].ackLast == ys[i].ackLast
  }

  ghost predicate SamePieces(xs: seq<Piece>, ys: seq<Piece>)
  {
    && |xs| == |ys|
    && forall i :: 0 <= i < |xs| ==>
         && xs[i].arr == ys[i].arr && xs[i].pod == ys[i].pod && xs[i].off == ys[i].off
         && xs[i].len == ys[i].len && xs[i].at == ys[i].at
  }

  lemma MemKeeps(s: State, s': State)
    requires MemOk(s) && SameExtents(s.arrivals, s'.arrivals) && s'.mem == s.mem && s'.stream == s.stream
    ensures MemOk(s')
  {
    forall a | 0 <= a < |s'.arrivals|
      ensures s'.arrivals[a].unfreed > 0 ==>
                End(s'.arrivals[a]) <= |s'.stream| && Intact(s'.mem, s'.stream, s'.arrivals[a])
    {
      assert s.arrivals[a].unfreed > 0 ==> Intact(s.mem, s.stream, s.arrivals[a]);
    }
  }

  lemma PiecesKeep(s: State, s': State)
    requires Tiled(s.pieces) && PiecesOk(s.arrivals, s.pieces)
    requires SameExtents(s.arrivals, s'.arrivals) && SamePieces(s.pieces, s'.pieces)
    ensures Tiled(s'.pieces) && ShipEnd(s'.pieces) == ShipEnd(s.pieces) && PiecesOk(s'.arrivals, s'.pieces)
  {
    forall k | 0 <= k < |s'.pieces|
      ensures PieceOk(s'.arrivals, s'.pieces[k])
    {
      assert PieceOk(s.arrivals, s.pieces[k]);
    }
  }

  lemma WindowKeeps(s: State, s': State)
    requires Contiguous(s.arrivals) && SameExtents(s.arrivals, s'.arrivals)
    ensures Contiguous(s'.arrivals) && StreamEnd(s'.arrivals) == StreamEnd(s.arrivals)
  {
  }

  lemma UnitsKeep(s: State, s': State)
    requires UnitsOk(s) && SamePieces(s.pieces, s'.pieces) && s'.units == s.units && s'.counter == s.counter
    ensures UnitsOk(s')
  {
    assert forall n :: 0 <= n <= |s.pieces| ==> PosAt(s'.pieces, n) == PosAt(s.pieces, n);
    hide PosAt;
  }

  lemma {:induction false} AcksSame(xs: seq<Arrival>, ys: seq<Arrival>, n: nat)
    requires n <= |xs| && n <= |ys|
    requires forall i :: 0 <= i < n ==> xs[i].ackFirst == ys[i].ackFirst && xs[i].ackLast == ys[i].ackLast
    ensures Acks(xs, n) == Acks(ys, n)
  {
    if n > 0 {
      AcksSame(xs, ys, n - 1);
    }
  }

  lemma AcksKeep(s: State, s': State)
    requires AckOk(s) && SameExtents(s.arrivals, s'.arrivals)
    requires s'.accepted == s.accepted && s'.seqValid == s.seqValid && s'.lastSeq == s.lastSeq
    ensures AckOk(s')
  {
    AcksSame(s.arrivals, s'.arrivals, |s.arrivals|);
    hide Acks;
  }

  /** Everything but the custody equation and the cursors. */
  lemma CountersOnly(s: State, s': State)
    requires WindowOk(s) && ShipOk(s) && UnitsOk(s) && MemOk(s) && AckOk(s)
    requires SameExtents(s.arrivals, s'.arrivals) && SamePieces(s.pieces, s'.pieces)
    requires s'.accepted == s.accepted && s'.seqValid == s.seqValid && s'.lastSeq == s.lastSeq
    requires s'.mem == s.mem && s'.stream == s.stream && s'.units == s.units && s'.counter == s.counter
    ensures MemOk(s') && UnitsOk(s') && AckOk(s') && Contiguous(s'.arrivals) &&
            StreamEnd(s'.arrivals) == StreamEnd(s.arrivals)
    ensures Tiled(s'.pieces) && ShipEnd(s'.pieces) == ShipEnd(s.pieces) && PiecesOk(s'.arrivals, s'.pieces)
  {
    hide MemOk, UnitsOk, AckOk, Contiguous, Tiled, PiecesOk, SamePieces, SameExtents;
    MemKeeps(s, s');
    PiecesKeep(s, s');
    WindowKeeps(s, s');
    UnitsKeep(s, s');
    AcksKeep(s, s');
  }

  // ---- the owner's advance -----------------------------------------------

  lemma CoverCustody(s: State, a: nat)
    requires WindowOk(s) && Covering(s) && a < |s.arrivals| && CustodyOk(s, a)
    ensures CustodyOk(Covered(s), a)
  {
    hide Held, Contiguous;
  }

  lemma CoverKeeps(s: State)
    requires Inv(s) && Covering(s)
    ensures Inv(Covered(s))
  {
    hide Held, AckOk, MemOk, Intact, Contiguous, Tiled, PiecesOk, CustodyOk, UnitsOk;
    var s' := Covered(s);
    CountersOnly(s, s');
    forall a | 0 <= a < |s'.arrivals|
      ensures CustodyOk(s', a)
    {
      assert CustodyOk(s, a);
      CoverCustody(s, a);
    }
  }

  lemma MoveCustody(s: State, a: nat)
    requires WindowOk(s) && s.pc.Cover? && !Covering(s) && a < |s.arrivals| && CustodyOk(s, a)
    ensures CustodyOk(Moved(s), a)
  {
    if s.pc.k < |s.arrivals| {
      Later(s.arrivals, s.pc.k);
    }
    hide Held, Contiguous;
  }

  /** The cursor moves: the extents before it have all been covered. */
  lemma MoveKeeps(s: State)
    requires Inv(s) && s.pc.Cover? && !Covering(s)
    ensures Inv(Moved(s))
  {
    MoveWindow(s);
    hide Held, AckOk, MemOk, Intact, Contiguous, Tiled, PiecesOk, CustodyOk, UnitsOk, WindowOk;
    var s' := Moved(s);
    CountersOnly(s, s');
    forall a | 0 <= a < |s'.arrivals|
      ensures CustodyOk(s', a)
    {
      assert CustodyOk(s, a);
      MoveCustody(s, a);
    }
  }

  lemma MoveWindow(s: State)
    requires WindowOk(s) && s.pc.Cover? && !Covering(s)
    ensures WindowOk(Moved(s))
  {
  }

  lemma UnlinkCustody(s: State, a: nat)
    requires WindowOk(s) && Unlinking(s) && a < |s.arrivals| && CustodyOk(s, a)
    ensures CustodyOk(Unlinked(s), a)
  {
    hide Held, Contiguous;
  }

  lemma UnlinkWindow(s: State)
    requires WindowOk(s) && Unlinking(s)
    ensures WindowOk(Unlinked(s))
  {
    var s', h := Unlinked(s), s.head;
    assert h + 1 < |s.arrivals| ==> s.arrivals[h + 1].base == End(s.arrivals[h]);
    assert SameExtents(s.arrivals, s'.arrivals);
    WindowKeeps(s, s');
    hide Contiguous;
  }

  lemma UnlinkKeeps(s: State)
    requires Inv(s) && Unlinking(s)
    ensures Inv(Unlinked(s))
  {
    hide Held, AckOk, MemOk, Intact, Contiguous, Tiled, PiecesOk, CustodyOk, UnitsOk, WindowOk;
    var s' := Unlinked(s);
    UnlinkWindow(s);
    CountersOnly(s, s');
    forall a | 0 <= a < |s'.arrivals|
      ensures CustodyOk(s', a)
    {
      assert CustodyOk(s, a);
      UnlinkCustody(s, a);
    }
  }

  /** px_advance returns. */
  lemma SettleKeeps(s: State)
    requires Inv(s) && s.pc.Unlink? && !Unlinking(s)
    ensures Inv(s.(pc := Idle))
  {
    hide Held, AckOk, MemOk, Intact, Contiguous, Tiled, PiecesOk, UnitsOk;
    var s' := s.(pc := Idle);
    CountersOnly(s, s');
    forall a | 0 <= a < |s'.arrivals|
      ensures CustodyOk(s', a)
    {
      assert CustodyOk(s, a);
    }
  }

  lemma WorkKeeps(s: State)
    requires Inv(s) && !s.pc.Idle?
    ensures Inv(Worked(s))
  {
    hide Inv, Covered, Moved, Unlinked;
    if Covering(s) {
      CoverKeeps(s);
    } else if s.pc.Cover? {
      MoveKeeps(s);
    } else if Unlinking(s) {
      UnlinkKeeps(s);
    } else {
      SettleKeeps(s);
    }
  }

  lemma RefuseKeeps(s: State)
    requires Inv(s) && s.pc.Idle? && !s.dead
    ensures Inv(Refused(s))
  {
    hide Held, AckOk, MemOk, Intact, Contiguous, Tiled, PiecesOk, UnitsOk;
    var s' := Refused(s);
    CountersOnly(s, s');
    forall a | 0 <= a < |s'.arrivals|
      ensures CustodyOk(s', a)
    {
      assert CustodyOk(s, a);
    }
  }

  // ---- retiring ----------------------------------------------------------

  lemma RetireSame(s: State, j: nat)
    requires PiecesOk(s.arrivals, s.pieces) && j < |s.pieces|
    ensures s.pieces[j].arr < |s.arrivals|
    ensures var s' := Retired(s, j); SameExtents(s.arrivals, s'.arrivals) && SamePieces(s.pieces, s'.pieces)
  {
    assert PieceOk(s.arrivals, s.pieces[j]);
  }

  lemma RetireKeeps(s: State, j: nat)
    requires Inv(s) && j < |s.pieces| && !s.pieces[j].gone && s.pieces[j].arr < |s.arrivals|
    ensures Inv(Retired(s, j))
  {
    hide Held, AckOk, MemOk, Intact, Contiguous, Tiled, PiecesOk, UnitsOk, CustodyOk;
    var s' := Retired(s, j);
    RetireSame(s, j);
    CountersOnly(s, s');
    forall a | 0 <= a < |s'.arrivals|
      ensures CustodyOk(s', a)
    {
      assert CustodyOk(s, a);
      RetireCustody(s, j, a);
    }
  }

  lemma RetireCustody(s: State, j: nat, a: nat)
    requires j < |s.pieces| && !s.pieces[j].gone && s.pieces[j].arr < |s.arrivals|
    requires a < |s.arrivals| && CustodyOk(s, a)
    ensures CustodyOk(Retired(s, j), a)
  {
    HeldRetire(s.pieces, |s.pieces|, j, a);
    hide Held;
  }

  // ---- arriving ----------------------------------------------------------

  lemma AppendCustody(s: State, e: Entry, a: nat)
    requires WindowOk(s) && s.pc.Idle? && |e.bytes| > 0 && a <= |s.arrivals|
    requires PiecesOk(s.arrivals, s.pieces) && (a < |s.arrivals| ==> CustodyOk(s, a))
    ensures CustodyOk(Appended(s, e), a)
  {
    if a == |s.arrivals| {
      assert forall k :: 0 <= k < |s.pieces| ==> PieceOk(s.arrivals, s.pieces[k]) && s.pieces[k].arr != a;
      HeldNone(s.pieces, |s.pieces|, a);
    }
    hide Held, Contiguous, PiecesOk;
  }

  /** Writing elsewhere leaves an extent intact. */
  lemma WriteApart(mem: map<Addr, Byte>, stream: seq<Byte>, a: Arrival, e: Entry)
    requires End(a) <= |stream| && Intact(mem, stream, a)
    requires a.pod == e.pod ==> a.off + a.len <= e.off || e.off + |e.bytes| <= a.off
    ensures Intact(Written(mem, e), stream + e.bytes, a)
  {
    forall o | a.off <= o < a.off + a.len
      ensures Addr(a.pod, o) in Written(mem, e)
      ensures Written(mem, e)[Addr(a.pod, o)] == (stream + e.bytes)[a.base + (o - a.off)]
    {
      assert Addr(a.pod, o) in mem;
    }
  }

  /** Writing right behind an extent extends it; behind an empty one, creates it. */
  lemma WriteBehind(mem: map<Addr, Byte>, stream: seq<Byte>, a: Arrival, e: Entry, b: Arrival)
    requires End(a) == |stream| && Intact(mem, stream, a) && a.pod == e.pod && e.off == a.off + a.len
    requires b.base == a.base && b.pod == a.pod && b.off == a.off && b.len == a.len + |e.bytes|
    ensures Intact(Written(mem, e), stream + e.bytes, b)
  {
    forall o | b.off <= o < b.off + b.len
      ensures Addr(b.pod, o) in Written(mem, e)
      ensures Written(mem, e)[Addr(b.pod, o)] == (stream + e.bytes)[b.base + (o - b.off)]
    {
      if o < a.off + a.len {
        assert Addr(a.pod, o) in mem;
      } else {
        var i := o - e.off;
        assert Addr(e.pod, e.off + i) in Written(mem, e);
      }
    }
  }

  lemma AppendMem(s: State, e: Entry)
    requires MemOk(s) && Clear(s, e) && StreamEnd(s.arrivals) == |s.stream|
    ensures MemOk(Appended(s, e))
  {
    var s', n := Appended(s, e), |s.arrivals|;
    hide Intact, Written;
    var none := s'.arrivals[n].(len := 0);
    assert Intact(s.mem, s.stream, none) by { Nothing(s.mem, s.stream, none); }
    WriteBehind(s.mem, s.stream, none, e, s'.arrivals[n]);
    forall a | 0 <= a < n && s.arrivals[a].unfreed > 0
      ensures Intact(s'.mem, s'.stream, s.arrivals[a])
    {
      WriteApart(s.mem, s.stream, s.arrivals[a], e);
    }
  }

  lemma Nothing(mem: map<Addr, Byte>, stream: seq<Byte>, a: Arrival)
    requires a.len == 0 && End(a) <= |stream|
    ensures Intact(mem, stream, a)
  {
  }

  lemma AppendPieces(s: State, e: Entry)
    requires PiecesOk(s.arrivals, s.pieces)
    ensures PiecesOk(Appended(s, e).arrivals, s.pieces)
  {
    var s' := Appended(s, e);
    forall k | 0 <= k < |s.pieces|
      ensures PieceOk(s'.arrivals, s.pieces[k])
    {
      assert PieceOk(s.arrivals, s.pieces[k]);
    }
  }

  lemma AppendWindow(s: State, e: Entry)
    requires WindowOk(s) && s.pc.Idle? && |e.bytes| > 0
    ensures WindowOk(Appended(s, e))
  {
    hide Written;
  }

  /** An accepted completion joins exactly one run. */
  lemma AppendAcks(s: State, e: Entry)
    requires AckOk(s) && e.seqNo < SEQ
    ensures AckOk(Appended(s, e))
  {
    var s', n := Appended(s, e), |s.arrivals|;
    AcksSame(s.arrivals, s'.arrivals, n);
    assert AckRun(s'.arrivals[n]) == [e.seqNo];
    assert Acks(s'.arrivals, n + 1) == Acks(s'.arrivals, n) + AckRun(s'.arrivals[n]);
    hide Acks, AckRun, Written;
  }

  lemma AppendKeeps(s: State, e: Entry)
    requires Inv(s) && s.pc.Idle? && |e.bytes| > 0 && e.seqNo < SEQ && Clear(s, e)
    ensures Inv(Appended(s, e))
  {
    var s' := Appended(s, e);
    assert StreamEnd(s.arrivals) == |s.stream|;
    hide Held, AckOk, MemOk, Intact, Contiguous, Tiled, PiecesOk, CustodyOk, WindowOk, StreamEnd, Written, Clear;
    AppendWindow(s, e);
    AppendPieces(s, e);
    AppendMem(s, e);
    UnitsKeep(s, s');
    AppendAcks(s, e);
    hide UnitsOk;
    forall a | 0 <= a < |s'.arrivals|
      ensures CustodyOk(s', a)
    {
      assert a < |s.arrivals| ==> CustodyOk(s, a);
      AppendCustody(s, e, a);
    }
  }

  // ---- arriving behind the last extent -----------------------------------

  lemma ExtendCustody(s: State, e: Entry, a: nat)
    requires WindowOk(s) && s.pc.Idle? && Extends(s, e) && a < |s.arrivals| && CustodyOk(s, a)
    ensures CustodyOk(Extended(s, e), a)
  {
    hide Held, Contiguous;
  }

  lemma ExtendMem(s: State, e: Entry)
    requires MemOk(s) && Clear(s, e) && Extends(s, e) && StreamEnd(s.arrivals) == |s.stream|
    ensures MemOk(Extended(s, e))
  {
    var s', n := Extended(s, e), |s.arrivals| - 1;
    hide Intact, Written;
    WriteBehind(s.mem, s.stream, s.arrivals[n], e, s'.arrivals[n]);
    forall a | 0 <= a < n && s.arrivals[a].unfreed > 0
      ensures Intact(s'.mem, s'.stream, s.arrivals[a])
    {
      WriteApart(s.mem, s.stream, s.arrivals[a], e);
    }
  }

  lemma ExtendPieces(s: State, e: Entry)
    requires PiecesOk(s.arrivals, s.pieces) && Extends(s, e)
    ensures PiecesOk(Extended(s, e).arrivals, s.pieces)
  {
    var s' := Extended(s, e);
    forall k | 0 <= k < |s.pieces|
      ensures PieceOk(s'.arrivals, s.pieces[k])
    {
      assert PieceOk(s.arrivals, s.pieces[k]);
    }
  }

  lemma ExtendWindow(s: State, e: Entry)
    requires WindowOk(s) && s.pc.Idle? && Extends(s, e)
    ensures WindowOk(Extended(s, e))
  {
    hide Written;
  }

  lemma NextInRun(first: nat, last: nat, next: nat)
    requires first < SEQ && last < SEQ && next < SEQ && (next - last) % SEQ == 1
    requires (next - first) % SEQ + 1 < ACK_RUN_MAX && 0 < (last - first + 1) % SEQ < ACK_RUN_MAX
    ensures (next - first + 1) % SEQ == (last - first + 1) % SEQ + 1
    ensures (first + (last - first + 1) % SEQ) % SEQ == next
  {
  }

  lemma ExtendAcks(s: State, e: Entry)
    requires AckOk(s) && Extends(s, e) && e.seqNo < SEQ
    ensures AckOk(Extended(s, e))
  {
    var s', n := Extended(s, e), |s.arrivals| - 1;
    var t, t' := s.arrivals[n], s'.arrivals[n];
    AcksSame(s.arrivals, s'.arrivals, n);
    NextInRun(t.ackFirst, t.ackLast, e.seqNo);
    assert AckRun(t') == AckRun(t) + [e.seqNo];
    assert Acks(s'.arrivals, n + 1) == Acks(s'.arrivals, n) + AckRun(t');
    assert Acks(s.arrivals, n + 1) == Acks(s.arrivals, n) + AckRun(t);
    hide Acks, AckRun, Written;
    assert Acks(s.arrivals, n) + (AckRun(t) + [e.seqNo]) == (Acks(s.arrivals, n) + AckRun(t)) + [e.seqNo];
  }

  lemma ExtendKeeps(s: State, e: Entry)
    requires Inv(s) && s.pc.Idle? && e.seqNo < SEQ && Clear(s, e) && Extends(s, e)
    ensures Inv(Extended(s, e))
  {
    var s' := Extended(s, e);
    assert StreamEnd(s.arrivals) == |s.stream|;
    hide Held, AckOk, MemOk, Intact, Contiguous, Tiled, PiecesOk, CustodyOk, WindowOk, StreamEnd;
    hide Written, Clear, Extends;
    ExtendWindow(s, e);
    ExtendPieces(s, e);
    ExtendMem(s, e);
    UnitsKeep(s, s');
    ExtendAcks(s, e);
    hide UnitsOk;
    forall a | 0 <= a < |s'.arrivals|
      ensures CustodyOk(s', a)
    {
      assert CustodyOk(s, a);
      ExtendCustody(s, e, a);
    }
  }

  // ---- shipping ----------------------------------------------------------

  /** Pieces that map a range continue the tiling over it. */
  lemma {:induction false} MapsTiles(arrivals: seq<Arrival>, old_: seq<Piece>, g: seq<Piece>, pos: nat, end: nat)
    requires Tiled(old_) && ShipEnd(old_) == pos && PiecesOk(arrivals, old_) && Maps(arrivals, g, pos, end)
    ensures Tiled(old_ + g) && ShipEnd(old_ + g) == end && PiecesOk(arrivals, old_ + g)
    ensures forall i :: 0 <= i < |g| ==> !g[i].gone
    decreases |g|
  {
    if g == [] {
      assert old_ + g == old_;
    } else {
      var more := old_ + [g[0]];
      assert more + g[1..] == old_ + g;
      assert PieceOk(arrivals, g[0]);
      MapsTiles(arrivals, more, g[1..], pos + g[0].len, end);
      assert forall i :: 1 <= i < |g| ==> g[i] == g[1..][i - 1];
    }
  }

  ghost predicate Shipping(s: State, g: seq<Piece>, to: nat)
  {
    && s.parsePos < to <= |s.stream| && g != []
    && Maps(s.arrivals, g, s.parsePos, to)
    && forall k :: 0 <= k < |s.arrivals| ==>
         BytesFor(g, k) == if k < s.head then 0 else Overlap(s.arrivals[k], s.parsePos, to)
  }

  /** What the parse loop hands over is a whole, non-empty range inside the window. */
  lemma ShipRange(s: State)
    requires WindowOk(s) && s.pc.Idle? && s.parsePos < |s.stream|
    ensures 0 < ShipLen(s) && (s.limit > 0 ==> ShipLen(s) <= s.limit)
    ensures var to := s.parsePos + ShipLen(s);
            Shipping(s, Gather(s.arrivals, Locate(s.arrivals, s.head, s.parsePos), s.parsePos, to), to)
  {
    ViewBounds(s.arrivals, s.head, s.parsePos);
    LocateFinds(s.arrivals, s.head, s.parsePos);
    var k, to := Locate(s.arrivals, s.head, s.parsePos), s.parsePos + ShipLen(s);
    assert k == s.head;
    GatherMaps(s.arrivals, k, s.parsePos, to);
    hide Contiguous, Gather, View;
  }

  lemma PublishCustody(s: State, g: seq<Piece>, n: nat, a: nat)
    requires WindowOk(s) && s.pc.Idle? && a < |s.arrivals| && CustodyOk(s, a)
    requires Shipping(s, g, s.parsePos + n) && forall i :: 0 <= i < |g| ==> !g[i].gone
    ensures CustodyOk(Publish(s, g, n), a)
  {
    HeldShip(s.pieces, g, a);
    hide Held, Contiguous, Maps;
  }

  lemma PublishUnits(s: State, g: seq<Piece>, n: nat)
    requires UnitsOk(s) && g != [] && n > 0 && PosAt(s.pieces, |s.pieces|) + n == PosAt(s.pieces + g, |s.pieces| + |g|)
    ensures UnitsOk(Publish(s, g, n))
  {
    var s' := Publish(s, g, n);
    assert forall k :: 0 <= k <= |s.pieces| ==> PosAt(s'.pieces, k) == PosAt(s.pieces, k);
    hide PosAt, Claim;
  }

  lemma ClaimSame(s: State, g: seq<Piece>)
    ensures SameExtents(s.arrivals, Claim(s.arrivals, g))
  {
  }

  lemma PublishPieces(s: State, g: seq<Piece>, n: nat)
    requires s.pc.Idle? && !s.dead && ShipOk(s) && Maps(s.arrivals, g, s.parsePos, s.parsePos + n)
    ensures ShipOk(Publish(s, g, n)) && forall i :: 0 <= i < |g| ==> !g[i].gone
  {
    var s' := Publish(s, g, n);
    MapsTiles(s.arrivals, s.pieces, g, s.parsePos, s.parsePos + n);
    ClaimSame(s, g);
    hide Tiled, Maps, PiecesOk, Claim;
    PiecesKeep(s.(pieces := s'.pieces), s');
  }

  lemma PublishWindow(s: State, g: seq<Piece>, n: nat)
    requires WindowOk(s) && s.pc.Idle? && s.parsePos + n <= |s.stream|
    ensures WindowOk(Publish(s, g, n))
  {
    ClaimSame(s, g);
    WindowKeeps(s, Publish(s, g, n));
    hide Contiguous;
  }

  lemma PublishKeeps(s: State, g: seq<Piece>, n: nat)
    requires Inv(s) && s.pc.Idle? && !s.dead && Shipping(s, g, s.parsePos + n)
    ensures Inv(Publish(s, g, n))
  {
    var s' := Publish(s, g, n);
    assert Maps(s.arrivals, g, s.parsePos, s.parsePos + n) && g != [] && s.parsePos + n <= |s.stream|;
    hide Held, AckOk, MemOk, Intact, Contiguous, Tiled, PiecesOk, CustodyOk, UnitsOk, WindowOk, Shipping, Maps, Claim;
    PublishPieces(s, g, n);
    assert |s'.pieces| == |s.pieces| + |g| && s'.pieces == s.pieces + g;
    PublishUnits(s, g, n);
    hide ShipOk;
    PublishWindow(s, g, n);
    ClaimSame(s, g);
    MemKeeps(s, s');
    AcksKeep(s, s');
    forall a | 0 <= a < |s'.arrivals|
      ensures CustodyOk(s', a)
    {
      assert CustodyOk(s, a);
      PublishCustody(s, g, n, a);
    }
  }

  lemma ShipKeeps(s: State)
    requires Inv(s) && s.pc.Idle? && !s.dead && s.parsePos < |s.stream|
    ensures s.head <= |s.arrivals| && Inv(Shipped(s))
  {
    hide Held, AckOk, MemOk, CustodyOk, UnitsOk, ShipOk, Contiguous, Shipping, Publish, Gather, Locate, ShipLen;
    ShipRange(s);
    hide Inv, WindowOk;
    var n := ShipLen(s);
    PublishKeeps(s, Gather(s.arrivals, Locate(s.arrivals, s.head, s.parsePos), s.parsePos, s.parsePos + n), n);
  }

  lemma ReceiveKeeps(s: State, e: Entry)
    requires Inv(s) && s.pc.Idle? && |e.bytes| > 0 && e.seqNo < SEQ && Clear(s, e)
    ensures Inv(Received(s, e))
  {
    hide Inv, Appended, Extended, Clear, Duplicate, Extends;
    if Duplicate(s, e) {
    } else if Extends(s, e) {
      ExtendKeeps(s, e);
    } else {
      AppendKeeps(s, e);
    }
  }

  lemma EofUnits(s: State)
    requires UnitsOk(s)
    ensures UnitsOk(Ended(s))
  {
    hide PosAt;
  }

  lemma EofRest(s: State)
    requires WindowOk(s) && ShipOk(s) && MemOk(s) && AckOk(s)
    ensures WindowOk(Ended(s)) && ShipOk(Ended(s)) && MemOk(Ended(s)) && AckOk(Ended(s))
  {
    hide Contiguous, Tiled, PiecesOk, Intact, Acks;
  }

  lemma EofCustody(s: State, a: nat)
    requires a < |s.arrivals| && CustodyOk(s, a)
    ensures CustodyOk(Ended(s), a)
  {
    hide Held;
  }

  lemma EofKeeps(s: State)
    requires Inv(s)
    ensures Inv(Ended(s))
  {
    hide UnitsOk, AckOk, WindowOk, ShipOk, MemOk, CustodyOk;
    EofUnits(s);
    EofRest(s);
    forall a | 0 <= a < |s.arrivals|
      ensures CustodyOk(Ended(s), a)
    {
      EofCustody(s, a);
    }
  }

  /** Every step keeps the invariant. */
  lemma StepKeeps(s: State, x: Step, s': State)
    requires Inv(s) && Legal(s, x, s')
    ensures Inv(s')
  {
    hide Inv, Received, Shipped, Worked, Retired, Refused, Clear;
    match x
    case Receive(e) => ReceiveKeeps(s, e);
    case Ship(room) => if room { ShipKeeps(s); }
    case Eof => EofKeeps(s);
    case Refuse => RefuseKeeps(s);
    case Work => WorkKeeps(s);
    case Retire(j) => RetireKeeps(s, j);
  }

  lemma InitOk(limit: nat, counter: nat)
    ensures Inv(Init(limit, counter))
  {
  }

  lemma {:induction false} RunKeeps(run: seq<State>, steps: seq<Step>, i: nat)
    requires IsRun(run, steps) && i < |run|
    ensures Inv(run[i])
  {
    hide Inv, Legal;
    if i == 0 {
      InitOk(run[0].limit, run[0].counter);
    } else {
      RunKeeps(run, steps, i - 1);
      StepKeeps(run[i - 1], steps[i - 1], run[i]);
    }
  }

  // ---- releasing ---------------------------------------------------------

  lemma {:induction false} HeldWitness(xs: seq<Piece>, n: nat, a: nat) returns (j: nat)
    requires n <= |xs| && Held(xs, n, a) > 0
    ensures j < n && !xs[j].gone && xs[j].arr == a
  {
    if !xs[n - 1].gone && xs[n - 1].arr == a {
      j := n - 1;
    } else {
      j := HeldWitness(xs, n - 1, a);
    }
  }

  /** An egress worker may still read bytes of the extent. */
  ghost predicate Read(s: State, a: nat)
  {
    exists j :: 0 <= j < |s.pieces| && !s.pieces[j].gone && s.pieces[j].arr == a
  }

  /**
   The counter is zero exactly when the window has let go of the extent and no
   piece reads it any more; it never goes negative.
   */
  lemma ReleasedExactly(s: State, a: nat)
    requires Inv(s) && a < |s.arrivals|
    ensures s.arrivals[a].unfreed >= 0
    ensures s.arrivals[a].unfreed == 0 <==> a < s.head && !Read(s, a)
  {
    assert CustodyOk(s, a);
    if Held(s.pieces, |s.pieces|, a) > 0 {
      var j := HeldWitness(s.pieces, |s.pieces|, a);
    }
    forall j | 0 <= j < |s.pieces| && !s.pieces[j].gone && s.pieces[j].arr == a
      ensures Held(s.pieces, |s.pieces|, a) > 0
    {
      assert PieceOk(s.arrivals, s.pieces[j]);
      HeldAtLeast(s.pieces, |s.pieces|, j);
    }
    hide Held, AckOk, MemOk, UnitsOk, PiecesOk, Tiled, Contiguous;
  }
}
