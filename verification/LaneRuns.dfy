/** Every run of a lane keeps its landing ranges apart, inside the stripe and within the host's receive depth. */
module LaneRuns {
  import opened LaneAdmission

  // ---- sums and concatenation --------------------------------------------

  lemma {:induction false} LeftConcat(a: seq<Span>, b: seq<Span>)
    ensures Left(a + b) == Left(a) + Left(b)
    decreases |a|
  {
    if a == [] {
      assert a + b == b;
    } else {
      assert (a + b)[1..] == a[1..] + b;
      LeftConcat(a[1..], b);
    }
  }

  lemma {:induction false} FlatSnoc(fifo: seq<Batch>, b: Batch)
    ensures Flat(fifo + [b]) == Flat(fifo) + b.spans
    decreases |fifo|
  {
    if fifo == [] {
      assert fifo + [b] == [b];
      assert Flat([b][1..]) == [];
    } else {
      assert (fifo + [b])[1..] == fifo[1..] + [b];
      FlatSnoc(fifo[1..], b);
      assert fifo[0].spans + (Flat(fifo[1..]) + b.spans) == (fifo[0].spans + Flat(fifo[1..])) + b.spans;
    }
  }

  lemma {:induction false} FlatSame(xs: seq<Batch>, ys: seq<Batch>)
    requires |xs| == |ys| && forall i :: 0 <= i < |xs| ==> xs[i].spans == ys[i].spans
    ensures Flat(xs) == Flat(ys)
    decreases |xs|
  {
    if xs != [] {
      FlatSame(xs[1..], ys[1..]);
    }
  }

  lemma {:induction false} NoneLeft(spans: seq<Span>, end: nat)
    requires Within(spans, end)
    ensures Left(spans) == 0 ==> spans == []
  {
    assert spans != [] ==> spans[0].left > 0;
  }

  lemma {:induction false} BytesUpTo(q: seq<Unit>, i: nat, n: nat)
    requires i < n <= |q|
    ensures Bytes(q, i) + q[i].len <= Bytes(q, n)
  {
    if i < n - 1 {
      BytesUpTo(q, i, n - 1);
    }
  }

  lemma {:induction false} SpansLeft(q: seq<Unit>, n: nat, cursor: nat)
    requires n <= |q|
    ensures Left(Spans(q, n, cursor)) == Entries(q, n)
  {
    if n > 0 {
      SpansLeft(q, n - 1, cursor);
      var last := Span(cursor + Bytes(q, n - 1), q[n - 1].len, EntriesOf(q[n - 1]));
      assert Spans(q, n, cursor) == Spans(q, n - 1, cursor) + [last];
      LeftConcat(Spans(q, n - 1, cursor), [last]);
      assert Left([last][1..]) == 0;
    }
  }

  /** A unit always costs at least one entry. */
  lemma Costs(u: Unit)
    ensures EntriesOf(u) >= 1
  {
  }

  lemma SpansPlaced(q: seq<Unit>, n: nat, cursor: nat)
    requires n <= |q|
    ensures Within(Spans(q, n, cursor), cursor + Bytes(q, n)) && Apart(Spans(q, n, cursor))
    ensures forall i :: 0 <= i < n ==> Spans(q, n, cursor)[i].pos >= cursor
  {
    var s := Spans(q, n, cursor);
    forall i | 0 <= i < n
      ensures s[i].pos + s[i].len <= cursor + Bytes(q, n) && s[i].left > 0
    {
      BytesUpTo(q, i, n);
      Costs(q[i]);
    }
    forall i, j | 0 <= i < j < n
      ensures s[i].pos + s[i].len <= s[j].pos
    {
      BytesUpTo(q, i, j);
    }
  }

  /** A batch stays within the credit and the stripe its first unit was admitted to. */
  lemma {:induction false} TakeBounds(q: seq<Unit>, n: nat, cursor: nat, avail: nat, lim: Limits)
    requires 0 < n <= |q| && Entries(q, n) <= avail && cursor + Bytes(q, n) <= lim.region
    ensures var m := Take(q, n, cursor, avail, lim); Entries(q, m) <= avail && cursor + Bytes(q, m) <= lim.region
    decreases |q| - n
  {
    if n < |q| && Joins(q, n, cursor, avail, lim) {
      TakeBounds(q, n + 1, cursor, avail, lim);
    }
  }

  lemma TakeFits(q: seq<Unit>, cursor: nat, avail: nat, lim: Limits)
    requires q != [] && EntriesOf(q[0]) <= avail && cursor + q[0].len <= lim.region
    ensures var m := Take(q, 0, cursor, avail, lim);
            0 < m && Entries(q, m) <= avail && cursor + Bytes(q, m) <= lim.region
  {
    assert Entries(q, 1) == EntriesOf(q[0]) && Bytes(q, 1) == q[0].len;
    assert Joins(q, 0, cursor, avail, lim);
    TakeBounds(q, 1, cursor, avail, lim);
  }

  // ---- steps -------------------------------------------------------------

  /** Only the ranges, the counts and the cursor matter. */
  ghost predicate Placed(l: Lane, lim: Limits)
  {
    && l.cached <= l.freed && l.sent == l.freed + Left(Outstanding(l)) && l.sent <= l.freed + lim.depth
    && l.cursor <= lim.region && Within(Outstanding(l), l.cursor) && Apart(Outstanding(l))
  }

  lemma Joined(a: seq<Span>, b: seq<Span>, mid: nat, end: nat)
    requires Apart(a) && Apart(b) && Within(a, mid) && Within(b, end) && mid <= end
    requires forall i :: 0 <= i < |b| ==> b[i].pos >= mid
    ensures Apart(a + b) && Within(a + b, end)
  {
  }

  lemma LandedPlaced(l: Lane, lim: Limits, q: seq<Unit>, n: nat, cursor: nat)
    requires Placed(l, lim) && n <= |q| && cursor + Bytes(q, n) <= lim.region
    requires Entries(q, n) <= Available(l, lim) && 0 < n
    requires cursor == l.cursor || (cursor == 0 && Outstanding(l) == [])
    ensures Placed(Landed(l, q, n, cursor), lim)
  {
    var l' := Landed(l, q, n, cursor);
    var s := Spans(q, n, cursor);
    var b := l'.fifo[|l.fifo|];
    FlatSnoc(l.fifo, b);
    assert Outstanding(l') == Outstanding(l) + s;
    LeftConcat(Outstanding(l), s);
    SpansLeft(q, n, cursor);
    SpansPlaced(q, n, cursor);
    AtLeastOne(q, n);
    assert Within(Outstanding(l), cursor);
    Joined(Outstanding(l), s, cursor, l'.cursor);
    hide Outstanding, Spans, Left, Apart, Within, Entries, Bytes, EntriesOf;
  }

  lemma {:induction false} AtLeastOne(q: seq<Unit>, n: nat)
    requires 0 < n <= |q|
    ensures Entries(q, n) >= 1
  {
    Costs(q[n - 1]);
  }

  lemma SubmitKeeps(l: Lane, lim: Limits, accepted: bool)
    requires Inv(l, lim)
    ensures Inv(Submitted(l, lim, accepted), lim)
  {
    if l.queue != [] && Judge(l, lim).Go? {
      hide Left, Outstanding, Apart, Within, Spans;
      var q, cursor := l.queue, Judge(l, lim).cursor;
      assert Narrow(q, lim.sg) == q;
      TakeFits(q, cursor, Available(l, lim), lim);
      if l.sent == l.cached {
        NoneLeft(Outstanding(l), l.cursor);
      }
      var n := Take(q, 0, cursor, Available(l, lim), lim);
      LandedPlaced(l, lim, q, n, cursor);
      SpansLeft(q, n, cursor);
      LandedRest(l, lim, q, n, cursor);
      MoveCursor(l, lim, q, cursor);
      hide Take, Inv, Placed, Landed;
    } else if l.queue != [] && Judge(l, lim).Reject? {
      RejectKeeps(l, lim);
      hide Inv;
    }
  }

  lemma RejectKeeps(l: Lane, lim: Limits)
    requires Inv(l, lim) && l.queue != []
    ensures Inv(l.(queue := l.queue[1..]), lim)
  {
    assert Outstanding(l.(queue := l.queue[1..])) == Outstanding(l);
    hide Outstanding, Left, Apart, Within;
  }

  lemma MoveCursor(l: Lane, lim: Limits, q: seq<Unit>, cursor: nat)
    requires Inv(l, lim) && q == l.queue && (cursor == l.cursor || (cursor == 0 && Outstanding(l) == []))
    ensures Inv(l.(queue := q, cursor := cursor), lim)
  {
    assert Outstanding(l.(queue := q, cursor := cursor)) == Outstanding(l);
    assert Within(Outstanding(l), cursor);
    hide Outstanding, Left, Apart, Within;
  }

  lemma LandedRest(l: Lane, lim: Limits, q: seq<Unit>, n: nat, cursor: nat)
    requires Inv(l, lim) && q == l.queue && n <= |q| && Left(Spans(q, n, cursor)) == Entries(q, n)
    requires Placed(Landed(l, q, n, cursor), lim)
    ensures Inv(Landed(l, q, n, cursor), lim)
  {
    hide Outstanding, Left, Apart, Within, Entries, Bytes, Spans;
  }

  lemma CompleteKeeps(l: Lane, lim: Limits, i: nat, state: BatchState)
    requires Inv(l, lim) && i < |l.fifo|
    ensures Inv(l.(fifo := l.fifo[i := l.fifo[i].(state := state)]), lim)
  {
    hide Flat, Left, Apart, Within;
    FlatSame(l.fifo, l.fifo[i := l.fifo[i].(state := state)]);
  }

  lemma RetireKeeps(l: Lane, lim: Limits)
    requires Inv(l, lim) && l.fifo != []
    ensures Inv(Retired(l), lim)
  {
    var b, rest := l.fifo[0], Flat(l.fifo[1..]);
    var l' := Retired(l);
    assert Outstanding(l) == l.host + b.spans + rest;
    if b.state.Done? {
      assert Outstanding(l') == Outstanding(l);
    } else if b.state.Error? {
      assert Outstanding(l') == l.host + rest;
      LeftConcat(l.host, b.spans);
      LeftConcat(l.host + b.spans, rest);
      LeftConcat(l.host, rest);
      Cut(l.host, b.spans, rest, l.cursor);
    }
    hide Outstanding, Left, Flat, Apart, Within;
  }

  /** Taking ranges out leaves the others where they are. */
  lemma Cut(a: seq<Span>, b: seq<Span>, c: seq<Span>, end: nat)
    requires Apart(a + b + c) && Within(a + b + c, end)
    ensures Apart(a + c) && Within(a + c, end)
  {
    var all, rest := a + b + c, a + c;
    forall i | 0 <= i < |rest|
      ensures rest[i] == all[if i < |a| then i else i + |b|]
    {
    }
    forall i, j | 0 <= i < j < |rest|
      ensures rest[i].pos + rest[i].len <= rest[j].pos
    {
      assert rest[i] == all[if i < |a| then i else i + |b|] && rest[j] == all[if j < |a| then j else j + |b|];
    }
  }

  lemma FreeKeeps(l: Lane, lim: Limits, h: nat)
    requires Inv(l, lim) && h < |l.host|
    ensures Inv(Freed(l, h), lim)
  {
    var s, tail := l.host[h], Flat(l.fifo);
    var l' := Freed(l, h);
    var a, c := l.host[..h], l.host[h + 1..] + tail;
    assert Outstanding(l) == a + [s] + c;
    assert s == Outstanding(l)[h];
    LeftConcat(a, [s]);
    LeftConcat(a + [s], c);
    assert Left([s][1..]) == 0;
    if s.left > 1 {
      var t := s.(left := s.left - 1);
      assert Outstanding(l') == a + [t] + c;
      LeftConcat(a, [t]);
      LeftConcat(a + [t], c);
      assert Left([t][1..]) == 0;
      Thinner(a, s, t, c, l.cursor);
    } else {
      assert Outstanding(l') == a + c;
      LeftConcat(a, c);
      Cut(a, [s], c, l.cursor);
    }
    hide Outstanding, Left, Flat, Apart, Within;
  }

  lemma Thinner(a: seq<Span>, s: Span, t: Span, c: seq<Span>, end: nat)
    requires Apart(a + [s] + c) && Within(a + [s] + c, end) && t.pos == s.pos && t.len == s.len && t.left > 0
    ensures Apart(a + [t] + c) && Within(a + [t] + c, end)
  {
    var all, now := a + [s] + c, a + [t] + c;
    forall i | 0 <= i < |now|
      ensures now[i].pos == all[i].pos && now[i].len == all[i].len && now[i].left > 0
    {
    }
  }

  lemma StepKeeps(l: Lane, lim: Limits, x: Step)
    requires Inv(l, lim) && Enabled(l, x) && (x.Enqueue? ==> x.u.pieces <= lim.sg)
    ensures Inv(Next(l, lim, x), lim)
  {
    hide Submitted, Retired, Freed, Outstanding, Left, Apart, Within;
    match x
    case Submit(accepted) => SubmitKeeps(l, lim, accepted);
    case Complete(i, state) => CompleteKeeps(l, lim, i, state);
    case Resubmit => CompleteKeeps(l, lim, 0, Inflight);
    case Retire => RetireKeeps(l, lim);
    case Free(h) => FreeKeeps(l, lim, h);
    case Enqueue(u) => EnqueueKeeps(l, lim, u);
    case Refresh(total) => RefreshKeeps(l, lim, total);
  }

  lemma EnqueueKeeps(l: Lane, lim: Limits, u: Unit)
    requires Inv(l, lim) && u.pieces <= lim.sg
    ensures Inv(l.(queue := l.queue + [u]), lim)
  {
    assert Outstanding(l.(queue := l.queue + [u])) == Outstanding(l);
    hide Outstanding, Left, Apart, Within;
  }

  lemma RefreshKeeps(l: Lane, lim: Limits, total: nat)
    requires Inv(l, lim) && total <= l.freed
    ensures Inv(l.(cached := total), lim)
  {
    assert Outstanding(l.(cached := total)) == Outstanding(l);
    hide Outstanding, Left, Apart, Within;
  }

  // ---- runs --------------------------------------------------------------

  ghost predicate IsRun(run: seq<Lane>, lim: Limits, steps: seq<Step>)
  {
    && |run| == |steps| + 1 && run[0] == Lane([], 0, 0, 0, [], [], 0)
    && forall i :: 0 <= i < |steps| ==> Enabled(run[i], steps[i]) && run[i + 1] == Next(run[i], lim, steps[i])
  }

  /** Every unit queued in the run fits one SG list. */
  predicate Narrows(lim: Limits, steps: seq<Step>)
  {
    forall i :: 0 <= i < |steps| && steps[i].Enqueue? ==> steps[i].u.pieces <= lim.sg
  }

  lemma {:induction false} RunKeeps(run: seq<Lane>, lim: Limits, steps: seq<Step>, i: nat)
    requires IsRun(run, lim, steps) && Narrows(lim, steps) && i < |run|
    ensures Inv(run[i], lim)
  {
    hide Enabled, Next;
    if i > 0 {
      hide Inv;
      RunKeeps(run, lim, steps, i - 1);
      StepKeeps(run[i - 1], lim, steps[i - 1]);
    }
  }

  /**
   Landing is safe in every state of every run of narrow enough units: the
   ranges the host has not freed lie inside the stripe, no two of them overlap,
   and their entries never exceed the stripe's depth.
   */
  lemma LandingIsSafe(run: seq<Lane>, lim: Limits, steps: seq<Step>, i: nat)
    requires IsRun(run, lim, steps) && Narrows(lim, steps) && i < |run|
    ensures Left(Outstanding(run[i])) <= lim.depth
    ensures run[i].sent == run[i].freed + Left(Outstanding(run[i])) && run[i].cached <= run[i].freed
    ensures forall a :: 0 <= a < |Outstanding(run[i])| ==>
              Outstanding(run[i])[a].pos + Outstanding(run[i])[a].len <= lim.region
    ensures Apart(Outstanding(run[i]))
  {
    RunKeeps(run, lim, steps, i);
    hide Outstanding, Left, Enabled, Next, IsRun;
  }

  /**
   Narrowness is needed: behind a dropped over-wide head the next unit is taken
   without an admission check of its own and lands past the end of the stripe.
   */
  lemma WideHeadBreaksLanding()
    ensures var lim := Limits(8192, 1, 65536, 1);
            var l := Lane([Unit(2, 2), Unit(16384, 1)], 0, 0, 0, [], [], 0);
            var l' := Submitted(l, lim, true);
            && Outstanding(l') == [Span(0, 16384, 2)] && 0 + 16384 > lim.region && Left(Outstanding(l')) > lim.depth
  {
    var lim := Limits(8192, 1, 65536, 1);
    var l := Lane([Unit(2, 2), Unit(16384, 1)], 0, 0, 0, [], [], 0);
    assert Judge(l, lim) == Go(0);
    var q := Narrow(l.queue, lim.sg);
    assert l.queue[1..] == [Unit(16384, 1)];
    assert q == [Unit(16384, 1)];
    assert Take(q, 0, 0, 1, lim) == Take(q, 1, 0, 1, lim) == 1;
    assert Bytes(q, 1) == 16384 && Entries(q, 1) == 2;
    assert Spans(q, 1, 0) == [Span(0, 16384, 2)];
    var l' := Submitted(l, lim, true);
    assert l'.fifo == [Batch([Span(0, 16384, 2)], 2, 16384, Inflight)];
    assert Flat(l'.fifo) == [Span(0, 16384, 2)] + Flat([]);
    assert Outstanding(l') == [Span(0, 16384, 2)];
    assert Left([Span(0, 16384, 2)]) == 2 + Left([]);
  }

  /**
   Exactly when one turn of the submit loop respects the credit it saw and the
   stripe: the first unit left once over-wide heads are dropped must itself fit.
   */
  lemma SubmitRespectsLimits(l: Lane, lim: Limits)
    requires l.queue != [] && Judge(l, lim).Go?
    requires l.cached <= l.sent <= l.cached + lim.depth && l.cursor <= lim.region
    ensures var l', q := Submitted(l, lim, true), Narrow(l.queue, lim.sg);
            (l'.sent <= l'.cached + lim.depth && l'.cursor <= lim.region) <==>
            (q == [] || (EntriesOf(q[0]) <= Available(l, lim) && Judge(l, lim).cursor + q[0].len <= lim.region))
  {
    var cursor, q, avail := Judge(l, lim).cursor, Narrow(l.queue, lim.sg), Available(l, lim);
    if q != [] {
      assert Joins(q, 0, cursor, avail, lim);
      assert Entries(q, 1) == EntriesOf(q[0]) && Bytes(q, 1) == q[0].len;
      if EntriesOf(q[0]) <= avail && cursor + q[0].len <= lim.region {
        TakeFits(q, cursor, avail, lim);
      } else {
        assert Take(q, 0, cursor, avail, lim) == Take(q, 1, cursor, avail, lim) == 1;
      }
    }
    hide Spans, EntriesOf, Narrow;
  }
}
