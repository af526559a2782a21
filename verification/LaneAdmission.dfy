/**
 Admission of queued units into one landing stripe of a Pod's receive buffer
 (doca/dpu_proxy.c). A unit needs one receive entry per slot of payload and a
 contiguous range of the stripe; entries come back as the host frees them, as
 far as the last credit read saw. Batches land in order, fail, are retried in
 place, and retire in order.
 */
module LaneAdmission {

  const SLOT_BYTES: nat := 8192

  datatype Unit = Unit(len: nat, pieces: nat)

  /** Stripe bytes, stripe entries, bytes of one DMA task, pieces of one SG list. */
  datatype Limits = Limits(region: nat, depth: nat, dma: nat, sg: nat)

  /** A landing range and how many of its entries are not freed yet. */
  datatype Span = Span(pos: nat, len: nat, left: nat)

  datatype BatchState = Inflight | Done | Error | Retry

  datatype Batch = Batch(spans: seq<Span>, entries: nat, bytes: nat, state: BatchState)

  /** `host` are the ranges handed to the host and not freed; `freed` is the host's own count. */
  datatype Lane = Lane(queue: seq<Unit>, cursor: nat, sent: nat, cached: nat, fifo: seq<Batch>, host: seq<Span>,
                       freed: nat)

  datatype Step =
    | Enqueue(u: Unit) | Submit(accepted: bool)
    | Complete(i: nat, state: BatchState) | Resubmit | Retire
    | Free(h: nat) | Refresh(total: nat)

  function EntriesOf(u: Unit): nat { if u.len == 0 then 1 else (u.len + SLOT_BYTES - 1) / SLOT_BYTES }

  predicate DmaFits(bytes: nat, unitBytes: nat, limit: nat)
  {
    limit > 0 && bytes <= limit && unitBytes <= limit - bytes
  }

  function Available(l: Lane, lim: Limits): nat
  {
    var inflight := l.sent - l.cached;
    if inflight < lim.depth then (if inflight < 0 then 0 else lim.depth - inflight) else 0
  }

  // ---- taking a prefix of the queue --------------------------------------

  function Bytes(q: seq<Unit>, n: nat): nat
    requires n <= |q|
  {
    if n == 0 then 0 else Bytes(q, n - 1) + q[n - 1].len
  }

  function Pieces(q: seq<Unit>, n: nat): nat
    requires n <= |q|
  {
    if n == 0 then 0 else Pieces(q, n - 1) + q[n - 1].pieces
  }

  function Entries(q: seq<Unit>, n: nat): nat
    requires n <= |q|
  {
    if n == 0 then 0 else Entries(q, n - 1) + EntriesOf(q[n - 1])
  }

  /** The first unit of a batch was admitted before; each further one must fit beside those taken. */
  predicate Joins(q: seq<Unit>, n: nat, cursor: nat, avail: nat, lim: Limits)
    requires n < |q|
  {
    n == 0 ||
    (&& Pieces(q, n) + q[n].pieces <= lim.sg
     && Entries(q, n) + EntriesOf(q[n]) <= avail
     && DmaFits(Bytes(q, n), q[n].len, lim.dma)
     && cursor + Bytes(q, n) + q[n].len <= lim.region)
  }

  function Take(q: seq<Unit>, n: nat, cursor: nat, avail: nat, lim: Limits): (m: nat)
    requires n <= |q|
    ensures n <= m <= |q|
    decreases |q| - n
  {
    if n < |q| && Joins(q, n, cursor, avail, lim) then Take(q, n + 1, cursor, avail, lim) else n
  }

  /** Units too wide for any SG list are dropped from the front. */
  function Narrow(q: seq<Unit>, sg: nat): (r: seq<Unit>)
    ensures |r| <= |q|
  {
    if q != [] && q[0].pieces > sg then Narrow(q[1..], sg) else q
  }

  function Spans(q: seq<Unit>, n: nat, cursor: nat): seq<Span>
    requires n <= |q|
  {
    seq(n, i requires 0 <= i < n => Span(cursor + Bytes(q, i), q[i].len, EntriesOf(q[i])))
  }

  // ---- submitting --------------------------------------------------------

  /** What one turn of the submit loop decides for the head of the queue. */
  datatype Verdict = Wait | Reject | Go(cursor: nat)

  function Judge(l: Lane, lim: Limits): Verdict
    requires l.queue != []
  {
    var u := l.queue[0];
    if Available(l, lim) < EntriesOf(u) then Wait
    else if u.len > lim.region || !DmaFits(0, u.len, lim.dma) then Reject
    else if l.cursor + u.len <= lim.region then Go(l.cursor)
    else if l.sent == l.cached then Go(0)
    else Wait
  }

  /** Land the first `n` units of `q` at the cursor as one batch. */
  function Landed(l: Lane, q: seq<Unit>, n: nat, cursor: nat): Lane
    requires n <= |q|
  {
    var b := Batch(Spans(q, n, cursor), Entries(q, n), Bytes(q, n), if Bytes(q, n) == 0 then Done else Inflight);
    l.(queue := q[n..], cursor := cursor + Bytes(q, n), sent := l.sent + Entries(q, n), fifo := l.fifo + [b])
  }

  function Submitted(l: Lane, lim: Limits, accepted: bool): Lane
  {
    if l.queue == [] then l
    else
      match Judge(l, lim)
      case Wait => l
      case Reject => l.(queue := l.queue[1..])
      case Go(cursor) =>
        var q := Narrow(l.queue, lim.sg);
        var n := Take(q, 0, cursor, Available(l, lim), lim);
        if n == 0 || (Bytes(q, n) > 0 && !accepted) then l.(queue := q, cursor := cursor)
        else Landed(l, q, n, cursor)
  }

  // ---- everything else ---------------------------------------------------

  function Retired(l: Lane): Lane
    requires l.fifo != []
  {
    var b := l.fifo[0];
    if b.state.Done? then l.(host := l.host + b.spans, fifo := l.fifo[1..])
    else if b.state.Error? then l.(sent := if l.sent >= b.entries then l.sent - b.entries else 0, fifo := l.fifo[1..])
    else l
  }

  /** The host frees one entry of a range; the range goes with its last entry. */
  function Freed(l: Lane, h: nat): Lane
    requires h < |l.host|
  {
    var s := l.host[h];
    l.(host := if s.left > 1 then l.host[h := s.(left := s.left - 1)] else l.host[..h] + l.host[h + 1..],
       freed := l.freed + 1)
  }

  predicate Enabled(l: Lane, x: Step)
  {
    match x
    case Enqueue(_) => true
    case Submit(_) => true
    case Complete(i, state) => i < |l.fifo| && l.fifo[i].state.Inflight? && !state.Inflight?
    case Resubmit => l.fifo != [] && l.fifo[0].state.Retry?
    case Retire => l.fifo != []
    case Free(h) => h < |l.host|
    case Refresh(total) => total <= l.freed
  }

  function Next(l: Lane, lim: Limits, x: Step): Lane
    requires Enabled(l, x)
  {
    match x
    case Enqueue(u) => l.(queue := l.queue + [u])
    case Submit(accepted) => Submitted(l, lim, accepted)
    case Complete(i, state) => l.(fifo := l.fifo[i := l.fifo[i].(state := state)])
    case Resubmit => l.(fifo := l.fifo[0 := l.fifo[0].(state := Inflight)])
    case Retire => Retired(l)
    case Free(h) => Freed(l, h)
    case Refresh(total) => l.(cached := total)
  }

  // ---- what must hold ----------------------------------------------------

  function Flat(fifo: seq<Batch>): seq<Span>
  {
    if fifo == [] then [] else fifo[0].spans + Flat(fifo[1..])
  }

  /** Every range not yet freed, in landing order. */
  function Outstanding(l: Lane): seq<Span> { l.host + Flat(l.fifo) }

  function Left(spans: seq<Span>): nat
  {
    if spans == [] then 0 else spans[0].left + Left(spans[1..])
  }

  ghost predicate Apart(spans: seq<Span>)
  {
    forall i, j :: 0 <= i < j < |spans| ==> spans[i].pos + spans[i].len <= spans[j].pos
  }

  ghost predicate Within(spans: seq<Span>, end: nat)
  {
    forall i :: 0 <= i < |spans| ==> spans[i].pos + spans[i].len <= end && spans[i].left > 0
  }

  ghost predicate Inv(l: Lane, lim: Limits)
  {
    && l.cached <= l.freed && l.sent == l.freed + Left(Outstanding(l)) && l.sent <= l.freed + lim.depth
    && l.cursor <= lim.region && Within(Outstanding(l), l.cursor) && Apart(Outstanding(l))
    && (forall i :: 0 <= i < |l.fifo| ==> l.fifo[i].entries == Left(l.fifo[i].spans))
    && (forall i :: 0 <= i < |l.queue| ==> l.queue[i].pieces <= lim.sg)
  }
}
