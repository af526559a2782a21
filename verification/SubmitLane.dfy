/** The lane as its owner updates it in place: the submit loop, batch by batch. */
module SubmitLane {
  import opened LaneAdmission

  /** The loop goes on after this turn. */
  predicate Again(l: Lane, lim: Limits, accepted: bool)
    requires l.queue != []
  {
    match Judge(l, lim)
    case Wait => false
    case Reject => true
    case Go(cursor) =>
      var q := Narrow(l.queue, lim.sg);
      var n := Take(q, 0, cursor, Available(l, lim), lim);
      n > 0 && (Bytes(q, n) == 0 || accepted)
  }

  /** All turns of one submit call; `engine` says of each turn whether the engine would take its task. */
  function SubmitAll(l: Lane, lim: Limits, engine: seq<bool>): Lane
    decreases |engine|
  {
    if engine == [] || l.queue == [] then l
    else
      var next := Submitted(l, lim, engine[0]);
      if Again(l, lim, engine[0]) then SubmitAll(next, lim, engine[1..]) else next
  }

  /** Drop over-wide units from the front. */
  method DropWide(queue: seq<Unit>, sg: nat) returns (q: seq<Unit>)
    ensures q == Narrow(queue, sg)
  {
    q := queue;
    while q != [] && q[0].pieces > sg
      invariant Narrow(q, sg) == Narrow(queue, sg)
      decreases |q|
    {
      q := q[1..];
    }
  }

  /** Take a FIFO prefix that fits pieces, credits, DMA length and the rest of the stripe, placing each unit. */
  method TakeBatch(q: seq<Unit>, cursor: nat, avail: nat, lim: Limits)
    returns (n: nat, spans: seq<Span>, entries: nat, bytes: nat)
    ensures n == Take(q, 0, cursor, avail, lim)
    ensures spans == Spans(q, n, cursor) && entries == Entries(q, n) && bytes == Bytes(q, n)
  {
    var pieces := 0;
    n, spans, entries, bytes := 0, [], 0, 0;
    while n < |q|
      invariant n <= |q| && Take(q, n, cursor, avail, lim) == Take(q, 0, cursor, avail, lim)
      invariant spans == Spans(q, n, cursor) && entries == Entries(q, n) && bytes == Bytes(q, n) &&
                pieces == Pieces(q, n)
    {
      var u := q[n];
      var ue := EntriesOf(u);
      if n > 0 && (pieces + u.pieces > lim.sg || entries + ue > avail ||
                   !DmaFits(bytes, u.len, lim.dma) || cursor + bytes + u.len > lim.region) {
        break;
      }
      assert Joins(q, n, cursor, avail, lim);
      spans := spans + [Span(cursor + bytes, u.len, ue)];
      pieces, bytes, entries, n := pieces + u.pieces, bytes + u.len, entries + ue, n + 1;
    }
  }

  class Stripe {
    const lim: Limits
    var queue: seq<Unit>
    var cursor: nat
    var sent: nat
    var cached: nat
    var fifo: seq<Batch>
    ghost var host: seq<Span>
    ghost var freed: nat

    ghost function Model(): Lane
      reads this
    {
      Lane(queue, cursor, sent, cached, fifo, host, freed)
    }

    constructor (lim: Limits)
      ensures this.lim == lim && Model() == Lane([], 0, 0, 0, [], [], 0)
    {
      this.lim := lim;
      queue, cursor, sent, cached, fifo, host, freed := [], 0, 0, 0, [], [], 0;
    }

    /** One turn for the head of the queue. */
    method Turn(accepted: bool) returns (again: bool)
      requires queue != []
      modifies `queue, `cursor, `sent, `fifo
      ensures Model() == Submitted(old(Model()), lim, accepted)
      ensures again == Again(old(Model()), lim, accepted)
    {
      hide Spans, Take, Bytes, Entries, EntriesOf;
      var inflight := sent - cached;
      var avail := if 0 <= inflight < lim.depth then lim.depth - inflight else 0;
      var u := queue[0];
      if avail < EntriesOf(u) {
        return false;
      }
      if u.len > lim.region || !DmaFits(0, u.len, lim.dma) {
        queue := queue[1..];
        return true;
      }
      var start := cursor;
      if cursor + u.len > lim.region {
        if inflight != 0 {
          return false;
        }
        start := 0;
      }
      var q := DropWide(queue, lim.sg);
      var n, spans, entries, bytes := TakeBatch(q, start, avail, lim);
      if n == 0 || (bytes > 0 && !accepted) {
        queue, cursor := q, start;
        return false;
      }
      var b := Batch(spans, entries, bytes, if bytes == 0 then Done else Inflight);
      queue, cursor, sent, fifo := q[n..], start + bytes, sent + entries, fifo + [b];
      return true;
    }

    /** Submit queued units as batches while the limits and the engine allow. */
    method Submit(engine: seq<bool>)
      modifies `queue, `cursor, `sent, `fifo
      ensures Model() == SubmitAll(old(Model()), lim, engine)
    {
      hide Submitted, Again;
      var k, again := 0, true;
      while again && queue != [] && k < |engine|
        invariant k <= |engine| && host == old(host) && freed == old(freed) && cached == old(cached)
        invariant SubmitAll(old(Model()), lim, engine) ==
                  if again then SubmitAll(Model(), lim, engine[k..]) else Model()
        decreases |engine| - k, again
      {
        ghost var m := Model();
        assert engine[k..][0] == engine[k] && engine[k..][1..] == engine[k + 1..];
        again := Turn(engine[k]);
        k := k + 1;
      }
    }

    /** Completed batches leave from the head, in order; failed ones give their entries back. */
    method RetireAll()
      modifies `fifo, `sent, `host
      ensures Model() == RetireRun(old(Model()))
      ensures fifo == [] || fifo[0].state.Inflight? || fifo[0].state.Retry?
    {
      while fifo != [] && (fifo[0].state.Done? || fifo[0].state.Error?)
        invariant queue == old(queue) && RetireRun(Model()) == RetireRun(old(Model()))
        decreases |fifo|
      {
        var b := fifo[0];
        if b.state.Error? {
          sent := if sent >= b.entries then sent - b.entries else 0;
        } else {
          host := host + b.spans;
        }
        fifo := fifo[1..];
      }
    }
  }

  function RetireRun(l: Lane): Lane
    decreases |l.fifo|
  {
    if l.fifo != [] && (l.fifo[0].state.Done? || l.fifo[0].state.Error?) then RetireRun(Retired(l)) else l
  }
}
