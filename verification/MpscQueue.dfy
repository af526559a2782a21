/**
 The bounded multi-producer queue (doca/object.h; the same algorithm carries
 custody releases in doca/dpu_proxy.c). Any number of producers interleave one
 atomic access at a time; writing an entry takes two steps, between which the
 cell holds garbage. Positions are unbounded and the capacity is any number
 above one.
 */
module MpscQueue {
  import opened Modular

  datatype Content<T> = Garbage | Whole(entry: T)

  datatype Cell<T> = Cell(sequence: nat, content: Content<T>)

  /** Where a producer stands inside enqueue. */
  datatype Producer<T> =
    | Idle
    | Loaded(entry: T, pos: nat)    // has read enqueue_pos
    | Ready(entry: T, pos: nat)     // has read sequence == pos, about to compare-and-swap
    | Stale(entry: T)               // has read sequence > pos, about to reload
    | Claimed(entry: T, pos: nat)   // owns pos, entry not yet written
    | Writing(entry: T, pos: nat)   // entry half written
    | Written(entry: T, pos: nat)   // about to publish

  /** `claims` are the entries in the order their positions were claimed; `received` what the consumer took. */
  datatype State<T> = State(
    cells: seq<Cell<T>>, enqueuePos: nat, dequeuePos: nat, releasing: bool,
    producers: map<nat, Producer<T>>, claims: seq<T>, received: seq<T>)

  datatype Step<T> =
    | Enqueue(who: nat, entry: T)
    | ReadSequence(who: nat)
    | Reload(who: nat)
    | CompareAndSwap(who: nat, spurious: bool)
    | WriteHalf(who: nat)
    | WriteRest(who: nat)
    | Publish(who: nat)
    | Take
    | Release

  function Init<T>(cap: nat): State<T>
  {
    State(seq(cap, i requires 0 <= i < cap => Cell(i, Garbage)), 0, 0, false, map[], [], [])
  }

  function At<T>(s: State<T>, who: nat): Producer<T>
  {
    if who in s.producers then s.producers[who] else Idle
  }

  function Set<T>(s: State<T>, who: nat, p: Producer<T>): map<nat, Producer<T>>
  {
    s.producers[who := p]
  }

  function CellAt<T>(s: State<T>, pos: nat): Cell<T>
    requires |s.cells| > 0
  {
    s.cells[pos % |s.cells|]
  }

  /** The entry whose slot the consumer may hand out next. */
  predicate Available<T>(s: State<T>)
    requires |s.cells| > 0
  {
    CellAt(s, s.dequeuePos).sequence == s.dequeuePos + 1
  }

  predicate Enabled<T>(s: State<T>, x: Step<T>)
    requires |s.cells| > 0
  {
    match x
    case Enqueue(w, _) => At(s, w).Idle?
    case ReadSequence(w) => At(s, w).Loaded?
    case Reload(w) => At(s, w).Stale?
    case CompareAndSwap(w, _) => At(s, w).Ready?
    case WriteHalf(w) => At(s, w).Claimed?
    case WriteRest(w) => At(s, w).Writing?
    case Publish(w) => At(s, w).Written?
    case Take => !s.releasing && Available(s)
    case Release => s.releasing
  }

  /** The answer "full" of one step. */
  predicate SaysFull<T>(s: State<T>, x: Step<T>)
    requires |s.cells| > 0
  {
    x.ReadSequence? && At(s, x.who).Loaded? && CellAt(s, At(s, x.who).pos).sequence < At(s, x.who).pos
  }

  function PutCell<T>(s: State<T>, pos: nat, c: Cell<T>): seq<Cell<T>>
    requires |s.cells| > 0
  {
    s.cells[pos % |s.cells| := c]
  }

  function Next<T>(s: State<T>, x: Step<T>): State<T>
    requires |s.cells| > 0 && Enabled(s, x)
  {
    match x
    case Enqueue(w, e) => s.(producers := Set(s, w, Loaded(e, s.enqueuePos)))
    case ReadSequence(w) =>
      var p := At(s, w);
      var q := CellAt(s, p.pos).sequence;
      s.(producers := Set(s, w, if q == p.pos then Ready(p.entry, p.pos)
                                else if q < p.pos then Idle else Stale(p.entry)))
    case Reload(w) => s.(producers := Set(s, w, Loaded(At(s, w).entry, s.enqueuePos)))
    case CompareAndSwap(w, spurious) =>
      var p := At(s, w);
      if s.enqueuePos == p.pos && !spurious then
        s.(enqueuePos := p.pos + 1, producers := Set(s, w, Claimed(p.entry, p.pos)), claims := s.claims + [p.entry])
      else s.(producers := Set(s, w, Loaded(p.entry, s.enqueuePos)))
    case WriteHalf(w) =>
      var p := At(s, w);
      s.(cells := PutCell(s, p.pos, CellAt(s, p.pos).(content := Garbage)),
         producers := Set(s, w, Writing(p.entry, p.pos)))
    case WriteRest(w) =>
      var p := At(s, w);
      s.(cells := PutCell(s, p.pos, CellAt(s, p.pos).(content := Whole(p.entry))),
         producers := Set(s, w, Written(p.entry, p.pos)))
    case Publish(w) =>
      var p := At(s, w);
      s.(cells := PutCell(s, p.pos, CellAt(s, p.pos).(sequence := p.pos + 1)), producers := Set(s, w, Idle))
    case Take =>
      var c := CellAt(s, s.dequeuePos).content;
      s.(dequeuePos := s.dequeuePos + 1, releasing := true,
         received := if c.Whole? then s.received + [c.entry] else s.received)
    case Release =>
      var pos := if s.dequeuePos > 0 then s.dequeuePos - 1 else 0;
      s.(cells := PutCell(s, pos, CellAt(s, pos).(sequence := pos + |s.cells|)), releasing := false)
  }

  // ---- invariant ---------------------------------------------------------

  /** Entries the consumer has given back. */
  function Released<T>(s: State<T>): int { if s.releasing then s.dequeuePos - 1 else s.dequeuePos }

  predicate Owns<T>(p: Producer<T>) { p.Claimed? || p.Writing? || p.Written? }

  /** Some producer has claimed the position and not yet published it. */
  ghost predicate InHand<T>(s: State<T>, q: nat)
  {
    exists w :: w in s.producers && Owns(s.producers[w]) && s.producers[w].pos == q
  }

  /** The cell of a position inside the current window of `cap` positions. */
  ghost predicate CellOk<T>(s: State<T>, q: nat)
    requires |s.cells| > 0
  {
    var c := CellAt(s, q);
    && (q >= s.enqueuePos ==> c.sequence == q)
    && (q < s.enqueuePos ==> c.sequence == q + 1 || (c.sequence == q && InHand(s, q)))
    && (c.sequence == q + 1 ==> q < |s.claims| && c.content == Whole(s.claims[q])
                                && forall w :: w in s.producers && Owns(s.producers[w]) ==> s.producers[w].pos != q)
  }

  ghost predicate ProducerOk<T>(s: State<T>, p: Producer<T>)
    requires |s.cells| > 0
  {
    && (p.Loaded? || p.Ready? ==> p.pos <= s.enqueuePos)
    && (p.Ready? && p.pos == s.enqueuePos ==> p.pos < Released(s) + |s.cells|)
    && (Owns(p) ==> Released(s) <= p.pos < s.enqueuePos && p.pos < |s.claims| && p.entry == s.claims[p.pos]
                    && CellAt(s, p.pos).sequence == p.pos)
    && (p.Written? ==> CellAt(s, p.pos).content == Whole(p.entry))
  }

  ghost predicate Inv<T>(s: State<T>)
  {
    && |s.cells| > 1 && |s.claims| == s.enqueuePos
    && 0 <= Released(s) <= s.dequeuePos <= s.enqueuePos <= Released(s) + |s.cells|
    && s.received == s.claims[..s.dequeuePos]
    && (s.releasing ==> CellAt(s, s.dequeuePos - 1).sequence == s.dequeuePos)
    && (forall q :: Released(s) <= q < Released(s) + |s.cells| ==> CellOk(s, q))
    && (forall w :: w in s.producers ==> ProducerOk(s, s.producers[w]))
    && (forall w, v :: w in s.producers && v in s.producers && w != v && Owns(s.producers[w]) && Owns(s.producers[v])
          ==> s.producers[w].pos != s.producers[v].pos)
  }

  // ---- positions ---------------------------------------------------------

  /** Two positions of the window never share a cell. */
  lemma Apart<T>(s: State<T>, p: nat, q: nat)
    requires |s.cells| > 0 && p != q && p < q + |s.cells| && q < p + |s.cells|
    ensures p % |s.cells| != q % |s.cells|
  {
    if p < q {
      Distinct(p, q, |s.cells|);
    } else {
      Distinct(q, p, |s.cells|);
    }
  }

  /** Rewriting the cell of one position leaves the rest of the window alone. */
  lemma Others<T>(s: State<T>, s': State<T>, p: nat, c: Cell<T>)
    requires |s.cells| > 0 && s'.cells == PutCell(s, p, c)
    ensures CellAt(s', p) == c
    ensures forall q: nat :: p != q && p < q + |s.cells| && q < p + |s.cells| ==> CellAt(s', q) == CellAt(s, q)
  {
    forall q: nat | p != q && p < q + |s.cells| && q < p + |s.cells|
      ensures CellAt(s', q) == CellAt(s, q)
    {
      Apart(s, p, q);
    }
  }

  /** Replacing one producer's state keeps a position in hand unless it was that producer's. */
  lemma StaysInHand<T>(s: State<T>, s': State<T>, w: nat, q: nat)
    requires InHand(s, q) && w in s.producers && w in s'.producers && s'.producers == s.producers[w := s'.producers[w]]
    requires Owns(s.producers[w]) && s.producers[w].pos == q ==> Owns(s'.producers[w]) && s'.producers[w].pos == q
    ensures InHand(s', q)
  {
    var v :| v in s.producers && Owns(s.producers[v]) && s.producers[v].pos == q;
    assert v in s'.producers && Owns(s'.producers[v]) && s'.producers[v].pos == q;
  }

  // ---- every step keeps the invariant ------------------------------------

  /** What the sequence read tells a producer is right. */
  lemma ReadProducer<T>(s: State<T>, w: nat)
    requires Inv(s) && At(s, w).Loaded?
    ensures var s' := Next(s, ReadSequence(w));
            && s' == s.(producers := s.producers[w := s'.producers[w]]) && !Owns(s'.producers[w])
            && ProducerOk(s', s'.producers[w])
  {
    var p := At(s, w);
    if p.pos == s.enqueuePos == Released(s) + |s.cells| {
      Around(Released(s), |s.cells|);
      assert CellOk(s, Released(s));
      assert CellAt(s, p.pos) == CellAt(s, Released(s));
    }
    hide CellAt, InHand;
  }

  lemma ReadKeeps<T>(s: State<T>, w: nat)
    requires Inv(s) && At(s, w).Loaded?
    ensures Inv(Next(s, ReadSequence(w)))
  {
    hide InHand, Next;
    ReadProducer(s, w);
    var s' := Next(s, ReadSequence(w));
    forall q | Released(s') <= q < Released(s') + |s'.cells|
      ensures CellOk(s', q)
    {
      assert CellOk(s, q);
      if InHand(s, q) {
        StaysInHand(s, s', w, q);
      }
    }
  }

  lemma SwapKeeps<T>(s: State<T>, w: nat, spurious: bool)
    requires Inv(s) && At(s, w).Ready?
    ensures Inv(Next(s, CompareAndSwap(w, spurious)))
  {
    var p := At(s, w);
    var s' := Next(s, CompareAndSwap(w, spurious));
    if s.enqueuePos == p.pos && !spurious {
      assert CellOk(s, p.pos);
      assert s'.claims[..s'.dequeuePos] == s.claims[..s.dequeuePos];
      assert InHand(s', p.pos) by { assert Owns(s'.producers[w]); }
    }
    hide InHand;
    forall q | Released(s') <= q < Released(s') + |s'.cells|
      ensures CellOk(s', q)
    {
      assert CellOk(s, q);
      if InHand(s, q) {
        StaysInHand(s, s', w, q);
      }
    }
  }

  lemma WriteKeeps<T>(s: State<T>, w: nat)
    requires Inv(s) && (At(s, w).Claimed? || At(s, w).Writing?)
    ensures Inv(Next(s, if At(s, w).Claimed? then WriteHalf(w) else WriteRest(w)))
  {
    var p := At(s, w);
    var s' := Next(s, if p.Claimed? then WriteHalf(w) else WriteRest(w));
    assert s' == s.(cells := s'.cells, producers := s'.producers);
    Others(s, s', p.pos, CellAt(s', p.pos));
    assert CellOk(s, Released(s));
    hide CellAt, InHand;
    forall q | Released(s') <= q < Released(s') + |s'.cells|
      ensures CellOk(s', q)
    {
      assert CellOk(s, q);
      if InHand(s, q) {
        StaysInHand(s, s', w, q);
      }
    }
  }

  lemma PublishKeeps<T>(s: State<T>, w: nat)
    requires Inv(s) && At(s, w).Written?
    ensures Inv(Next(s, Publish(w)))
  {
    hide CellAt, InHand;
    var p := At(s, w);
    var s' := Next(s, Publish(w));
    Others(s, s', p.pos, CellAt(s, p.pos).(sequence := p.pos + 1));
    assert CellOk(s, Released(s));
    forall q | Released(s') <= q < Released(s') + |s'.cells|
      ensures CellOk(s', q)
    {
      assert CellOk(s, q);
      if InHand(s, q) && !(Owns(p) && p.pos == q) {
        StaysInHand(s, s', w, q);
      }
    }
  }

  lemma TakeKeeps<T>(s: State<T>)
    requires Inv(s) && !s.releasing && Available(s)
    ensures Inv(Next(s, Take))
  {
    var s' := Next(s, Take);
    assert CellOk(s, s.dequeuePos);
    assert s.claims[..s.dequeuePos + 1] == s.claims[..s.dequeuePos] + [s.claims[s.dequeuePos]];
    forall q | Released(s') <= q < Released(s') + |s'.cells|
      ensures CellOk(s', q)
    {
      assert CellOk(s, q);
    }
  }

  lemma ReleaseKeeps<T>(s: State<T>)
    requires Inv(s) && s.releasing
    ensures Inv(Next(s, Release))
  {
    var s' := Next(s, Release);
    var pos := s.dequeuePos - 1;
    var n := |s.cells|;
    Others(s, s', pos, CellAt(s, pos).(sequence := pos + n));
    Around(pos, n);
    assert CellAt(s', pos + n) == CellAt(s', pos);
    assert CellOk(s, pos);
    assert s' == s.(cells := PutCell(s, pos, CellAt(s, pos).(sequence := pos + n)), releasing := false);
    hide CellAt, Next;
    forall q | Released(s') <= q < Released(s') + |s'.cells|
      ensures CellOk(s', q)
    {
      assert CellOk(s, if q == pos + n then pos else q);
    }
  }

  lemma LoadKeeps<T>(s: State<T>, x: Step<T>)
    requires Inv(s) && Enabled(s, x) && (x.Enqueue? || x.Reload?)
    ensures Inv(Next(s, x))
  {
    var s', w := Next(s, x), x.who;
    assert s' == s.(producers := s.producers[w := s'.producers[w]]) && s'.producers[w].Loaded?;
    hide CellAt, InHand, Next;
    forall q | Released(s') <= q < Released(s') + |s'.cells|
      ensures CellOk(s', q)
    {
      assert CellOk(s, q);
      if InHand(s, q) {
        assert InHand(s', q) by { Unrelated(s, s', w, q); }
      }
    }
  }

  lemma Unrelated<T>(s: State<T>, s': State<T>, w: nat, q: nat)
    requires InHand(s, q) && !Owns(At(s, w)) && w in s'.producers && s'.producers == s.producers[w := s'.producers[w]]
    ensures InHand(s', q)
  {
    var v :| v in s.producers && Owns(s.producers[v]) && s.producers[v].pos == q;
    assert v in s'.producers && Owns(s'.producers[v]) && s'.producers[v].pos == q;
  }

  lemma StepKeeps<T>(s: State<T>, x: Step<T>)
    requires Inv(s) && Enabled(s, x)
    ensures Inv(Next(s, x))
  {
    hide Inv, Next;
    match x
    case Enqueue(_, _) => LoadKeeps(s, x);
    case ReadSequence(w) => ReadKeeps(s, w);
    case Reload(_) => LoadKeeps(s, x);
    case CompareAndSwap(w, spurious) => SwapKeeps(s, w, spurious);
    case WriteHalf(w) => WriteKeeps(s, w);
    case WriteRest(w) => WriteKeeps(s, w);
    case Publish(w) => PublishKeeps(s, w);
    case Take => TakeKeeps(s);
    case Release => ReleaseKeeps(s);
  }

  // ---- theorems ----------------------------------------------------------

  ghost predicate IsRun<T>(s: State<T>, xs: seq<Step<T>>)
    decreases |xs|
  {
    xs == [] || (|s.cells| > 0 && Enabled(s, xs[0]) && IsRun(Next(s, xs[0]), xs[1..]))
  }

  ghost function After<T>(s: State<T>, xs: seq<Step<T>>): State<T>
    requires IsRun(s, xs)
    decreases |xs|
  {
    if xs == [] then s else After(Next(s, xs[0]), xs[1..])
  }

  lemma {:induction false} RunKeeps<T>(s: State<T>, xs: seq<Step<T>>)
    requires Inv(s) && IsRun(s, xs)
    ensures Inv(After(s, xs))
    decreases |xs|
  {
    hide Inv, Next, Enabled;
    if xs != [] {
      StepKeeps(s, xs[0]);
      RunKeeps(Next(s, xs[0]), xs[1..]);
    }
  }

  /** A claimed entry is delivered, waits whole in its cell, or is still in its producer's hands. */
  ghost predicate Accounted<T>(s: State<T>, q: nat)
    requires |s.cells| > 0 && q < |s.claims|
  {
    || (q < |s.received| && s.received[q] == s.claims[q])
    || (CellAt(s, q) == Cell(q + 1, Whole(s.claims[q])))
    || InHand(s, q)
  }

  /**
   For every interleaving: the consumer has received exactly the first claimed
   entries, in claim order and whole, and every later claim is accounted for.
   */
  lemma ExactDelivery<T>(cap: nat, xs: seq<Step<T>>)
    requires cap > 1 && IsRun(Init<T>(cap), xs)
    ensures var s := After(Init<T>(cap), xs);
            && |s.cells| > 0 && |s.received| == s.dequeuePos && s.received <= s.claims
            && (forall q :: 0 <= q < |s.claims| ==> Accounted(s, q))
            && s.enqueuePos - Released(s) <= |s.cells|
  {
    StartOk<T>(cap);
    RunKeeps(Init<T>(cap), xs);
    var s := After(Init<T>(cap), xs);
    assert Inv(s);
    hide After, IsRun, Init, InHand, CellAt;
    forall q | 0 <= q < |s.claims|
      ensures Accounted(s, q)
    {
      if q >= s.dequeuePos {
        assert CellOk(s, q);
      }
    }
  }

  lemma StartOk<T>(cap: nat)
    requires cap > 1
    ensures Inv(Init<T>(cap))
  {
    var s := Init<T>(cap);
    forall q | 0 <= q < cap
      ensures CellOk(s, q)
    {
      SmallMod(q, cap);
    }
  }

  lemma SmallMod(q: nat, n: nat)
    requires q < n
    ensures q % n == q
  {
  }

  /** "Full" is answered only while exactly `cap` claimed entries have not been given back. */
  lemma FullOnlyWhenFull<T>(s: State<T>, x: Step<T>)
    requires Inv(s) && Enabled(s, x) && SaysFull(s, x)
    ensures s.enqueuePos - Released(s) == |s.cells|
  {
    var p := At(s, x.who);
    var q := Covered(Released(s), p.pos % |s.cells|, |s.cells|);
    assert CellAt(s, q) == CellAt(s, p.pos);
    assert CellOk(s, q);
    hide CellAt;
    assert CellAt(s, q).sequence >= q;
    assert p.pos > q;
    assert p.pos >= Released(s) + |s.cells| ==> p.pos == s.enqueuePos;
    assert p.pos < Released(s) + |s.cells| ==> CellOk(s, p.pos);
  }
}
