/**
 One connection's input window (doca/dpu_proxy.c): arrivals land in staging
 memory, form a byte stream, are mapped without copying onto scatter-gather
 pieces, and are released by a shared custody counter once nobody reads them.

 Arrivals are numbered in order of arrival; the window holds those from `head`
 on. Pieces are numbered in shipping order and marked when their egress worker
 has let go of them.
 */
module StreamWindow {
  import opened Wrappers

  const COALESCE_MAX: nat := 65536
  const ACK_RUN_MAX: nat := 0xFFFF
  const SEQ: nat := 65536

  datatype Addr = Addr(pod: int, off: nat)

  /** One extent of staging; it acknowledges the sequence numbers from `ackFirst` to `ackLast`. */
  datatype Arrival = Arrival(base: nat, pod: int, off: nat, len: nat, unfreed: int, claimed: nat, ackFirst: nat,
                             ackLast: nat)

  /** `at` is the stream position of the first byte. */
  datatype Piece = Piece(arr: nat, pod: int, off: nat, len: nat, at: nat, gone: bool)

  /** A shipped unit: its pieces are numbers `first` to `first + count`. */
  datatype Unit = Unit(first: nat, count: nat, totalLen: nat, seqNo: nat)

  function Min(a: int, b: int): int { if a < b then a else b }

  function Max(a: int, b: int): int { if a > b then a else b }

  function End(a: Arrival): nat { a.base + a.len }

  /** Bytes of the extent inside [from, to). */
  function Overlap(a: Arrival, from: nat, to: nat): nat
  {
    Max(0, Min(End(a), to) - Max(a.base, from))
  }

  /** Bytes of the extent at or after a stream position. */
  function Left(a: Arrival, pos: nat): nat { Max(0, End(a) - Max(a.base, pos)) }

  /** Extents follow one another in the stream without gap. */
  ghost predicate Contiguous(arrivals: seq<Arrival>)
  {
    && (forall i :: 0 <= i < |arrivals| ==> arrivals[i].len > 0)
    && (forall i, j :: 0 <= i && j == i + 1 && j < |arrivals| ==> arrivals[j].base == End(arrivals[i]))
    && (|arrivals| > 0 ==> arrivals[0].base == 0)
  }

  function StreamEnd(arrivals: seq<Arrival>): nat
  {
    if arrivals == [] then 0 else End(arrivals[|arrivals| - 1])
  }

  // ---- view --------------------------------------------------------------

  /** First extent at or after `i` that reaches past the position. */
  function Locate(arrivals: seq<Arrival>, i: nat, pos: nat): (k: nat)
    requires i <= |arrivals|
    ensures i <= k <= |arrivals|
    decreases |arrivals| - i
  {
    if i < |arrivals| && End(arrivals[i]) <= pos then Locate(arrivals, i + 1, pos) else i
  }

  /** End of the run of extents that physically abut from `i` on. */
  function RunEnd(arrivals: seq<Arrival>, i: nat): nat
    requires i < |arrivals|
    decreases |arrivals| - i
  {
    if i + 1 < |arrivals| && arrivals[i + 1].pod == arrivals[i].pod &&
       arrivals[i + 1].off == arrivals[i].off + arrivals[i].len
    then RunEnd(arrivals, i + 1) else End(arrivals[i])
  }

  /** Bytes that can be taken in one contiguous piece at the cursor. */
  function View(arrivals: seq<Arrival>, head: nat, pos: nat): int
    requires head <= |arrivals|
  {
    if pos >= StreamEnd(arrivals) then 0
    else
      var k := Locate(arrivals, head, pos);
      if k == |arrivals| then 0 else RunEnd(arrivals, k) - pos
  }

  /** Extents before the one found end at or before the position, and it reaches past it. */
  lemma {:induction false} LocateFinds(arrivals: seq<Arrival>, i: nat, pos: nat)
    requires i <= |arrivals| && Contiguous(arrivals) && pos < StreamEnd(arrivals)
    requires i < |arrivals| ==> arrivals[i].base <= pos
    requires i == |arrivals| ==> StreamEnd(arrivals) <= pos
    ensures var k := Locate(arrivals, i, pos); k < |arrivals| && arrivals[k].base <= pos < End(arrivals[k])
    decreases |arrivals| - i
  {
    if i < |arrivals| && End(arrivals[i]) <= pos {
      LocateFinds(arrivals, i + 1, pos);
    }
  }

  lemma {:induction false} RunEndBounds(arrivals: seq<Arrival>, i: nat)
    requires i < |arrivals| && Contiguous(arrivals)
    ensures End(arrivals[i]) <= RunEnd(arrivals, i) <= StreamEnd(arrivals)
    decreases |arrivals| - i
  {
    if i + 1 < |arrivals| {
      RunEndBounds(arrivals, i + 1);
      LaterEnd(arrivals, i);
    }
  }

  lemma {:induction false} LaterEnd(arrivals: seq<Arrival>, i: nat)
    requires i < |arrivals| && Contiguous(arrivals)
    ensures End(arrivals[i]) <= StreamEnd(arrivals)
    decreases |arrivals| - i
  {
    if i + 1 < |arrivals| {
      LaterEnd(arrivals, i + 1);
    }
  }

  /** While bytes are unparsed the view is non-empty and never reaches past the window. */
  lemma ViewBounds(arrivals: seq<Arrival>, head: nat, pos: nat)
    requires head <= |arrivals| && Contiguous(arrivals)
    requires head < |arrivals| ==> arrivals[head].base <= pos
    requires head == |arrivals| ==> StreamEnd(arrivals) <= pos
    ensures pos < StreamEnd(arrivals) ==> 0 < View(arrivals, head, pos) <= StreamEnd(arrivals) - pos
  {
    if pos < StreamEnd(arrivals) {
      LocateFinds(arrivals, head, pos);
      RunEndBounds(arrivals, Locate(arrivals, head, pos));
    }
  }

  // ---- building a range --------------------------------------------------

  /** Map [pos, end) onto staging extents from number `i` on. */
  function Gather(arrivals: seq<Arrival>, i: nat, pos: nat, end: nat): seq<Piece>
    requires i <= |arrivals|
    decreases |arrivals| - i
  {
    if i == |arrivals| || pos >= end then []
    else
      var a := arrivals[i];
      var take := Min(end, End(a));
      if take <= pos || pos < a.base then []
      else [Piece(i, a.pod, a.off + (pos - a.base), take - pos, pos, false)] +
           (if take >= End(a) then Gather(arrivals, i + 1, take, end) else [])
  }

  /** Pieces cover [pos, end) in order, each inside its extent and at the matching staging offset. */
  predicate Maps(arrivals: seq<Arrival>, pieces: seq<Piece>, pos: nat, end: nat)
    decreases |pieces|
  {
    if pieces == [] then pos == end
    else
      var p := pieces[0];
      && !p.gone && p.at == pos && p.len > 0 && p.arr < |arrivals|
      && arrivals[p.arr].base <= pos && pos + p.len <= End(arrivals[p.arr])
      && p.pod == arrivals[p.arr].pod && p.off == arrivals[p.arr].off + (pos - arrivals[p.arr].base)
      && Maps(arrivals, pieces[1..], pos + p.len, end)
  }

  function BytesFor(pieces: seq<Piece>, k: nat): nat
    decreases |pieces|
  {
    if pieces == [] then 0 else (if pieces[0].arr == k then pieces[0].len else 0) + BytesFor(pieces[1..], k)
  }

  /** The gathered pieces are exactly the requested range: nothing maps past the window. */
  lemma {:induction false} GatherMaps(arrivals: seq<Arrival>, i: nat, pos: nat, end: nat)
    requires i < |arrivals| && Contiguous(arrivals)
    requires arrivals[i].base <= pos < End(arrivals[i]) && pos <= end <= StreamEnd(arrivals)
    ensures Maps(arrivals, Gather(arrivals, i, pos, end), pos, end)
    ensures forall k :: 0 <= k < |arrivals| ==>
              BytesFor(Gather(arrivals, i, pos, end), k) == if k < i then 0 else Overlap(arrivals[k], pos, end)
    decreases |arrivals| - i
  {
    if pos < end {
      var take := Min(end, End(arrivals[i]));
      if take == End(arrivals[i]) && take < end {
        if i + 1 == |arrivals| {
          assert false;
        }
        GatherMaps(arrivals, i + 1, take, end);
      }
      Later(arrivals, i);
    } else {
      Later(arrivals, i);
    }
  }

  lemma {:induction false} Later(arrivals: seq<Arrival>, i: nat)
    requires i < |arrivals| && Contiguous(arrivals)
    ensures forall k :: i < k < |arrivals| ==> arrivals[k].base >= End(arrivals[i])
    decreases |arrivals| - i
  {
    if i + 1 < |arrivals| {
      Later(arrivals, i + 1);
    }
  }
}
