/**
 The connection object itself: the window as the code updates it in place, each
 method performing steps of the model.
 */
module Connection {
  import opened Wrappers
  import opened StreamWindow
  import opened StreamCustody
  import opened StreamRuns

  /** The steps lead from one state to the other. */
  ghost predicate Goes(s: State, xs: seq<Step>, t: State)
    decreases |xs|
  {
    if xs == [] then s == t
    else
      var n := |xs| - 1;
      exists m :: Goes(s, xs[..n], m) && Legal(m, xs[n], t)
  }

  lemma GoesOn(s: State, xs: seq<Step>, m: State, x: Step, t: State)
    requires Goes(s, xs, m) && Legal(m, x, t)
    ensures Goes(s, xs + [x], t)
  {
    assert (xs + [x])[..|xs|] == xs;
  }

  /** Bytes that can be taken in one contiguous piece at the cursor, walking the window from its head. */
  method LookAt(arrivals: seq<Arrival>, head: nat, pos: nat, streamEnd: nat) returns (n: nat)
    requires Contiguous(arrivals) && streamEnd == StreamEnd(arrivals) && head <= |arrivals|
    requires head < |arrivals| ==> arrivals[head].base <= pos
    requires head == |arrivals| ==> streamEnd <= pos
    ensures n == View(arrivals, head, pos) && (pos < streamEnd ==> 0 < n <= streamEnd - pos)
  {
    ViewBounds(arrivals, head, pos);
    if pos >= streamEnd {
      return 0;
    }
    LocateFinds(arrivals, head, pos);
    var a := head;
    while a < |arrivals| && End(arrivals[a]) <= pos
      invariant head <= a <= |arrivals| && Locate(arrivals, a, pos) == Locate(arrivals, head, pos)
    {
      a := a + 1;
    }
    var runEnd, physEnd, last := End(arrivals[a]), arrivals[a].off + arrivals[a].len, a;
    while last + 1 < |arrivals| && arrivals[last + 1].pod == arrivals[a].pod && arrivals[last + 1].off == physEnd
      invariant a <= last < |arrivals| && RunEnd(arrivals, last) == RunEnd(arrivals, a)
      invariant runEnd == End(arrivals[last]) && physEnd == arrivals[last].off + arrivals[last].len
      invariant arrivals[last].pod == arrivals[a].pod
    {
      last := last + 1;
      runEnd, physEnd := runEnd + arrivals[last].len, physEnd + arrivals[last].len;
    }
    n := runEnd - pos;
  }

  /** Walk to the extent that holds a stream position. */
  method Seek(arrivals: seq<Arrival>, head: nat, pos: nat) returns (a: nat)
    requires Contiguous(arrivals) && head < |arrivals| && arrivals[head].base <= pos < StreamEnd(arrivals)
    ensures a < |arrivals| && a == Locate(arrivals, head, pos) && arrivals[a].base <= pos < End(arrivals[a])
  {
    LocateFinds(arrivals, head, pos);
    a := head;
    while a < |arrivals| && End(arrivals[a]) <= pos
      invariant head <= a <= |arrivals| && Locate(arrivals, a, pos) == Locate(arrivals, head, pos)
    {
      a := a + 1;
    }
  }

  /** Map a range onto staging extents; `short` is the code's "maps past the window", which cannot happen. */
  method MapRange(arrivals: seq<Arrival>, start: nat, from: nat, end: nat) returns (g: seq<Piece>, short: bool)
    requires Contiguous(arrivals) && start < |arrivals| && arrivals[start].base <= from < End(arrivals[start])
    requires from < end <= StreamEnd(arrivals)
    ensures !short && g == Gather(arrivals, start, from, end)
  {
    GatherEmpty(arrivals, end);
    hide Gather, Contiguous, StreamEnd;
    var pos, a := from, start;
    g := [];
    while pos < end && a < |arrivals|
      invariant start <= a <= |arrivals| && from <= pos <= end
      invariant pos < end && a < |arrivals| ==> arrivals[a].base <= pos < End(arrivals[a])
      invariant pos < end && a == |arrivals| ==> pos == StreamEnd(arrivals)
      invariant Gather(arrivals, start, from, end) == g + Gather(arrivals, a, pos, end)
      decreases end - pos
    {
      var take := Min(end, End(arrivals[a]));
      var p := Piece(a, arrivals[a].pod, arrivals[a].off + (pos - arrivals[a].base), take - pos, pos, false);
      GatherOne(arrivals, a, pos, end);
      Follows(arrivals, a);
      g, pos := g + [p], take;
      if pos >= End(arrivals[a]) {
        a := a + 1;
      }
    }
    short := pos < end;
  }

  lemma Follows(arrivals: seq<Arrival>, a: nat)
    requires Contiguous(arrivals) && a < |arrivals|
    ensures if a + 1 < |arrivals| then arrivals[a + 1].len > 0 && arrivals[a + 1].base == End(arrivals[a])
            else StreamEnd(arrivals) == End(arrivals[a])
  {
  }

  lemma GatherEmpty(arrivals: seq<Arrival>, end: nat)
    ensures forall a :: 0 <= a <= |arrivals| ==> Gather(arrivals, a, end, end) == []
  {
  }

  lemma GatherOne(arrivals: seq<Arrival>, a: nat, pos: nat, end: nat)
    requires a < |arrivals| && arrivals[a].base <= pos < End(arrivals[a]) && pos < end
    ensures var take := Min(end, End(arrivals[a]));
            Gather(arrivals, a, pos, end) ==
            [Piece(a, arrivals[a].pod, arrivals[a].off + (pos - arrivals[a].base), take - pos, pos, false)] +
            Gather(arrivals, if take >= End(arrivals[a]) then a + 1 else a, take, end)
  {
  }

  lemma {:induction false} BytesForOne(g: seq<Piece>, p: Piece, k: nat)
    ensures BytesFor(g + [p], k) == BytesFor(g, k) + if p.arr == k then p.len else 0
    decreases |g|
  {
    if g == [] {
      assert g + [p] == [p];
    } else {
      assert (g + [p])[1..] == g[1..] + [p];
      BytesForOne(g[1..], p, k);
    }
  }

  /** Add each piece's bytes to the claim of its extent. */
  method ClaimAll(arrivals: seq<Arrival>, g: seq<Piece>) returns (r: seq<Arrival>)
    requires forall i :: 0 <= i < |g| ==> g[i].arr < |arrivals|
    ensures r == Claim(arrivals, g)
  {
    r := arrivals;
    assert r == Claim(arrivals, g[..0]);
    for i := 0 to |g|
      invariant r == Claim(arrivals, g[..i])
    {
      var p := g[i];
      assert g[..i + 1] == g[..i] + [p];
      forall k | 0 <= k < |arrivals|
        ensures BytesFor(g[..i + 1], k) == BytesFor(g[..i], k) + if p.arr == k then p.len else 0
      {
        BytesForOne(g[..i], p, k);
      }
      r := r[p.arr := r[p.arr].(claimed := r[p.arr].claimed + p.len)];
    }
    assert g[..|g|] == g;
  }

  lemma {:induction false} MapsInside(arrivals: seq<Arrival>, g: seq<Piece>, pos: nat, end: nat)
    requires Maps(arrivals, g, pos, end)
    ensures forall i :: 0 <= i < |g| ==> g[i].arr < |arrivals|
    decreases |g|
  {
    if g != [] {
      MapsInside(arrivals, g[1..], pos + g[0].len, end);
      assert forall i :: 1 <= i < |g| ==> g[i] == g[1..][i - 1];
    }
  }

  /** The claims of a whole round, and where the window stands then. */
  lemma ShipFacts(s: State)
    requires Inv(s) && s.pc.Idle? && !s.dead && s.parsePos < StreamEnd(s.arrivals)
    ensures s.parsePos < |s.stream|
    ensures s.head < |s.arrivals| && s.arrivals[s.head].base <= s.parsePos && Contiguous(s.arrivals)
    ensures var to := s.parsePos + ShipLen(s);
            && s.parsePos < to <= StreamEnd(s.arrivals) && StreamEnd(Shipped(s).arrivals) == StreamEnd(s.arrivals)
            && var g := Gather(s.arrivals, Locate(s.arrivals, s.head, s.parsePos), s.parsePos, to);
               && (forall i :: 0 <= i < |g| ==> g[i].arr < |s.arrivals|)
               && Shipped(s) == Publish(s, g, ShipLen(s))
  {
    hide Inv;
    HeadOk(s);
    ShipRange(s);
    hide Locate, Gather, ShipLen;
    var to := s.parsePos + ShipLen(s);
    var g := Gather(s.arrivals, Locate(s.arrivals, s.head, s.parsePos), s.parsePos, to);
    MapsInside(s.arrivals, g, s.parsePos, to);
  }

  lemma OneShip(s0: State, xs: seq<Step>, m: State)
    requires Inv(m) && Goes(s0, xs, m) && m.pc.Idle? && !m.dead && m.parsePos < |m.stream| && m.head <= |m.arrivals|
    ensures Inv(Shipped(m)) && Goes(s0, xs + [Ship(true)], Shipped(m))
  {
    hide Inv, Goes, Shipped;
    ShipKeeps(m);
    GoesOn(s0, xs, m, Ship(true), Shipped(m));
  }

  lemma OneWork(s0: State, xs: seq<Step>, m: State)
    requires Inv(m) && Goes(s0, xs, m) && !m.pc.Idle?
    ensures Inv(Worked(m)) && Goes(s0, xs + [Work], Worked(m))
  {
    hide Goes, Worked;
    assert m.head <= |m.arrivals| by { hide CustodyOk, AckOk, MemOk, UnitsOk, ShipOk, Contiguous; }
    hide Inv;
    WorkKeeps(m);
    GoesOn(s0, xs, m, Work, Worked(m));
  }

  lemma OneEof(s0: State, xs: seq<Step>, m: State)
    requires Inv(m) && Goes(s0, xs, m)
    ensures Inv(Ended(m)) && Goes(s0, xs + [Eof], Ended(m))
  {
    hide Inv, Goes, Ended;
    HeadOk(m);
    hide WindowOk;
    EofKeeps(m);
    GoesOn(s0, xs, m, Eof, Ended(m));
  }

  lemma HeadOk(s: State)
    requires Inv(s)
    ensures WindowOk(s) && s.head <= |s.arrivals|
  {
    hide CustodyOk, AckOk, MemOk, UnitsOk, ShipOk, Contiguous;
  }

  lemma LookFacts(s: State)
    requires Inv(s) && s.pc.Idle?
    ensures Contiguous(s.arrivals) && s.head <= |s.arrivals| && s.parsePos <= StreamEnd(s.arrivals)
    ensures s.head < |s.arrivals| ==> s.arrivals[s.head].base <= s.parsePos
    ensures s.head == |s.arrivals| ==> StreamEnd(s.arrivals) <= s.parsePos
  {
    hide CustodyOk, AckOk, MemOk, UnitsOk, ShipOk, Contiguous;
  }

  /** What the advance may rely on at one extent. */
  lemma AtExtent(s: State)
    requires Inv(s) && Covering(s)
    ensures End(s.arrivals[s.pc.k]) <= s.parsePos ==>
              s.arrivals[s.pc.k].claimed == 0 && Overlap(s.arrivals[s.pc.k], s.parsePos, s.pc.to) == 0
    ensures s.arrivals[s.pc.k].claimed <= Overlap(s.arrivals[s.pc.k], s.parsePos, s.pc.to)
    ensures s.head <= s.pc.k
  {
    assert CustodyOk(s, s.pc.k);
    hide AckOk, MemOk, UnitsOk, ShipOk, Contiguous, Held;
  }

  class Conn {
    var arrivals: seq<Arrival>
    var head: nat
    var parsePos: nat
    var streamEnd: nat
    var seqValid: bool
    var lastSeq: nat
    var counter: nat
    const limit: nat
    ghost var pieces: seq<Piece>
    ghost var units: seq<Unit>
    ghost var accepted: seq<nat>
    ghost var stream: seq<Byte>
    ghost var mem: map<Addr, Byte>

    ghost function At(pc: Pc): State
      reads this
    {
      State(arrivals, head, parsePos, pc, false, limit, pieces, units, counter, seqValid, lastSeq, accepted, stream,
            mem)
    }

    ghost predicate Valid()
      reads this
    {
      Inv(At(Idle)) && streamEnd == StreamEnd(arrivals)
    }

    constructor (limit: nat, counter: nat)
      ensures Valid() && At(Idle) == Init(limit, counter)
    {
      this.limit, this.counter := limit, counter;
      arrivals, head, parsePos, streamEnd, seqValid, lastSeq := [], 0, 0, 0, false, 0;
      pieces, units, accepted, stream, mem := [], [], [], [], map[];
      new;
      InitOk(limit, counter);
    }

    /** Drop, extent by extent, the consumed bytes that nobody claimed. */
    method CoverAll(to: nat, ghost s0: State, ghost xs: seq<Step>) returns (ghost ys: seq<Step>)
      requires Inv(At(Cover(to, head))) && Goes(s0, xs, At(Cover(to, head)))
      modifies `arrivals, `parsePos
      ensures Inv(At(Unlink)) && Goes(s0, ys, At(Unlink)) && parsePos == to
      ensures |arrivals| == old(|arrivals|) && StreamEnd(arrivals) == old(StreamEnd(arrivals))
    {
      hide Inv, Goes;
      HeadOk(At(Cover(to, head)));
      hide WindowOk;
      ys := xs;
      var k, from := head, parsePos;
      while k < |arrivals| && arrivals[k].base < to
        invariant k <= |arrivals| == old(|arrivals|) && parsePos == from
        invariant Inv(At(Cover(to, k))) && Goes(s0, ys, At(Cover(to, k)))
        invariant StreamEnd(arrivals) == old(StreamEnd(arrivals))
      {
        ghost var m := At(Cover(to, k));
        AtExtent(m);
        OneWork(s0, ys, m);
        var a := arrivals[k];
        if End(a) > from {
          var covered := Min(to, End(a)) - Max(from, a.base);
          var dropped := if covered > a.claimed then covered - a.claimed else 0;
          arrivals := arrivals[k := a.(claimed := 0, unfreed := a.unfreed - dropped)];
        }
        k, ys := k + 1, ys + [Work];
        assert At(Cover(to, k)) == Worked(m);
      }
      OneWork(s0, ys, At(Cover(to, k)));
      parsePos, ys := to, ys + [Work];
    }

    /** Fully parsed extents leave the window. */
    method UnlinkAll(ghost s0: State, ghost xs: seq<Step>) returns (ghost ys: seq<Step>)
      requires Inv(At(Unlink)) && Goes(s0, xs, At(Unlink))
      modifies `arrivals, `head
      ensures Inv(At(Idle)) && Goes(s0, ys, At(Idle))
      ensures StreamEnd(arrivals) == old(StreamEnd(arrivals))
    {
      hide Inv, Goes;
      ys := xs;
      while head < |arrivals| && End(arrivals[head]) <= parsePos
        invariant StreamEnd(arrivals) == old(StreamEnd(arrivals))
        invariant Inv(At(Unlink)) && Goes(s0, ys, At(Unlink))
        decreases |arrivals| - head
      {
        ghost var m := At(Unlink);
        OneWork(s0, ys, m);
        var a := arrivals[head];
        arrivals := arrivals[head := a.(unfreed := a.unfreed - 1)];
        head, ys := head + 1, ys + [Work];
        assert At(Unlink) == Worked(m);
      }
      OneWork(s0, ys, At(Unlink));
      ys := ys + [Work];
    }

    /** Build a unit from the cursor, claim its bytes, number it and hand it over. */
    method Ship(avail: nat, ghost s0: State, ghost xs: seq<Step>)
      returns (g: seq<Piece>, seqNo: nat, ghost ys: seq<Step>)
      requires Valid() && parsePos < streamEnd && avail == ShipLen(At(Idle)) && Goes(s0, xs, At(Idle))
      modifies `arrivals, `pieces, `units, `counter
      ensures Inv(At(Cover(parsePos + avail, head))) && Goes(s0, ys, At(Cover(parsePos + avail, head)))
      ensures StreamEnd(arrivals) == old(StreamEnd(arrivals)) && avail > 0
      ensures pieces == old(pieces) + g && units == old(units) + [Unit(|old(pieces)|, |g|, avail, seqNo)]
    {
      ghost var m := At(Idle);
      hide Inv, Goes, ShipLen, Locate, Gather, Contiguous, Claim, StreamEnd, Shipped;
      ShipFacts(m);
      OneShip(s0, xs, m);
      ys := xs + [StreamCustody.Ship(true)];
      var k := Seek(arrivals, head, parsePos);
      var short;
      g, short := MapRange(arrivals, k, parsePos, parsePos + avail);
      var claimed := ClaimAll(arrivals, g);
      seqNo := (counter + 1) % SEQ;
      ghost var first := |pieces|;
      arrivals, counter, pieces := claimed, seqNo, pieces + g;
      units := units + [Unit(first, |g|, avail, seqNo)];
      assert At(Cover(parsePos + avail, head)) == Shipped(m);
    }

    /**
     The parse loop: ship and advance until the window is parsed or `room` units
     have been handed over and the pool is dry.
     */
    method Parse(room: nat, ghost s0: State, ghost xs: seq<Step>) returns (shipped: nat, ghost ys: seq<Step>)
      requires Valid() && Goes(s0, xs, At(Idle))
      modifies `arrivals, `head, `parsePos, `pieces, `units, `counter
      ensures Valid() && Goes(s0, ys, At(Idle))
      ensures parsePos == streamEnd || shipped == room
    {
      hide Inv, Goes, Contiguous, StreamEnd, View, Locate;
      shipped, ys := 0, xs;
      LookFacts(At(Idle));
      while parsePos < streamEnd && shipped < room
        invariant Valid() && Goes(s0, ys, At(Idle)) && parsePos <= streamEnd && shipped <= room
        decreases streamEnd - parsePos
      {
        ghost var before := parsePos;
        LookFacts(At(Idle));
        var avail := LookAt(arrivals, head, parsePos, streamEnd);
        if limit > 0 && avail > limit {
          avail := limit;
        }
        var g, seqNo;
        g, seqNo, ys := Ship(avail, s0, ys);
        ys := CoverAll(parsePos + avail, s0, ys);
        ys := UnlinkAll(s0, ys);
        LookFacts(At(Idle));
        shipped := shipped + 1;
      }
    }

    /** Tell the destination that nothing more follows. */
    method QueueEof(ghost s0: State, ghost xs: seq<Step>) returns (seqNo: nat, ghost ys: seq<Step>)
      requires Valid() && Goes(s0, xs, At(Idle))
      modifies `units, `counter
      ensures Valid() && Goes(s0, ys, At(Idle)) && At(Idle) == Ended(old(At(Idle)))
      ensures seqNo == (old(counter) + 1) % SEQ && units == old(units) + [Unit(|pieces|, 0, 0, seqNo)]
    {
      hide Inv, Goes;
      ghost var m := At(Idle);
      OneEof(s0, xs, m);
      seqNo := (counter + 1) % SEQ;
      counter, units := seqNo, units + [Unit(|pieces|, 0, 0, seqNo)];
      assert At(Idle) == Ended(m);
      ys := xs + [Eof];
    }

    /** Take in one completion: ignore a duplicate, extend an untouched tail, or append an extent. */
    method Accept(pod: int, off: nat, len: nat, seqNo: nat, ghost bytes: seq<Byte>) returns (dup: bool)
      requires Valid() && 0 < len == |bytes| && seqNo < SEQ && Clear(At(Idle), Entry(pod, off, bytes, seqNo))
      modifies `arrivals, `streamEnd, `seqValid, `lastSeq, `accepted, `stream, `mem
      ensures Valid() && At(Idle) == Received(old(At(Idle)), Entry(pod, off, bytes, seqNo))
      ensures dup == Duplicate(old(At(Idle)), Entry(pod, off, bytes, seqNo))
    {
      ghost var s, e := At(Idle), Entry(pod, off, bytes, seqNo);
      hide Inv, Clear, Written, Goes;
      ReceiveKeeps(s, e);
      var delta := if seqValid then (seqNo - lastSeq) % SEQ else 1;
      dup := seqValid && (delta == 0 || delta >= 0x8000);
      if dup {
        return;
      }
      var n := |arrivals|;
      var joins := delta == 1 && head < n &&
        arrivals[n - 1].pod == pod && arrivals[n - 1].off + arrivals[n - 1].len == off &&
        arrivals[n - 1].len + len <= COALESCE_MAX && (seqNo - arrivals[n - 1].ackFirst) % SEQ + 1 < ACK_RUN_MAX &&
        arrivals[n - 1].claimed == 0 && arrivals[n - 1].unfreed == arrivals[n - 1].len + 1;
      if joins {
        var t := arrivals[n - 1];
        arrivals := arrivals[n - 1 := t.(unfreed := t.unfreed + len, len := t.len + len, ackLast := seqNo)];
      } else {
        arrivals := arrivals + [Arrival(streamEnd, pod, off, len, len + 1, 0, seqNo, seqNo)];
      }
      streamEnd, seqValid, lastSeq := streamEnd + len, true, seqNo;
      accepted, stream, mem := accepted + [seqNo], stream + bytes, Written(mem, e);
      assert At(Idle) == Received(s, e);
    }
  }
}
