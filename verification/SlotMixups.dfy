/**
 The converse of SlotTenancy: whenever something on its way could be mistaken
 for the tenancy's own, there is an execution in which it is.
 */
module SlotMixups {
  import opened SlotLifecycle
  import opened SlotRuns
  import opened SlotTenancy

  // ---- letting handlers finish -------------------------------------------

  /** Equal but for what has been recorded and taken, which has only grown. */
  predicate Firm(s: Slot, s': Slot)
  {
    && s' == s.(acked := s'.acked, failed := s'.failed, seen := s'.seen, taken := s'.taken,
                delAcked := s'.delAcked, delSeen := s'.delSeen)
    && s.seen <= s'.seen && s.taken <= s'.taken && s.delAcked <= s'.delAcked && s.delSeen <= s'.delSeen
  }

  /** Only workers have acted: slots are firm, the index and everything sent are as before. */
  ghost predicate Alike(w: World, w': World)
  {
    && |w'.slots| == |w.slots| && |w'.workers| == |w.workers| && w' == w.(slots := w'.slots, workers := w'.workers)
    && forall j :: 0 <= j < |w.slots| ==> Firm(w.slots[j], w'.slots[j])
  }

  lemma AlikeThen(w: World, w1: World, w2: World)
    requires Alike(w, w1) && Alike(w1, w2)
    ensures Alike(w, w2)
  {
    assert forall j :: 0 <= j < |w.slots| ==> Firm(w.slots[j], w1.slots[j]) && Firm(w1.slots[j], w2.slots[j]);
  }

  predicate Busy(w: World, h: nat)
  {
    h < |w.workers| && !w.workers[h].handler.Idle? && w.workers[h].handler.slot < |w.slots|
  }

  lemma RecordsFirmly(s: Slot, a: Ack, m: Ask)
    ensures Firm(s, s) && Firm(s, Recorded(s, a)) && Firm(s, Took(s, m)) && Firm(s, RecordedDel(s, a))
  {
  }

  lemma GoFirm(w: World, h: nat, j: nat)
    requires Busy(w, h) && j < |w.slots|
    ensures |Gone(w, h).slots| == |w.slots| && Firm(w.slots[j], Gone(w, h).slots[j])
  {
    hide Firm, Onward, Recorded, Took, RecordedDel;
    var g, s := w.workers[h].handler, w.slots[w.workers[h].handler.slot];
    var anAck, anAsk := Ack(false, 0, 0, 0, true, 0), Ask(0, 0, 0, 0);
    var acks := Acking(g) || Deleting(g);
    RecordsFirmly(w.slots[j], if acks then g.ack else anAck, if acks then anAsk else g.fwd);
  }

  lemma GoAlike(w: World, h: nat)
    requires Busy(w, h)
    ensures Alike(w, Gone(w, h)) && Next(w, Go(h), Gone(w, h))
  {
    forall j | 0 <= j < |w.slots|
      ensures Firm(w.slots[j], Gone(w, h).slots[j])
    {
      GoFirm(w, h, j);
    }
    hide Manages, Speaks, Onward, Firm, Recorded, Took, RecordedDel;
  }

  /** How many reads a handler has before it at most, with `n` slots to search. */
  function Rank(g: Handler, n: nat): nat
  {
    match g
    case Idle => 0
    case Sought(_, _) => 4
    case Sighted(_, _) => 3
    case Peeked(_, _, _) => 2
    case Found(_, _) => 2
    case Admitted(_, _, _) => 2
    case Seeking(_, j) => if j < n then 5 * (n - j) else 1
    case Spotted(_, j) => if j < n then 5 * (n - j) - 1 else 1
    case Named(_, j) => if j < n then 5 * (n - j) - 2 else 1
    case Targeted(_, j, _) => if j < n then 5 * (n - j) - 3 else 1
    case _ => 1
  }

  /** One read further the handler is nearer its end, and only a completion it has vetted joins its queue. */
  lemma GoCloser(w: World, h: nat)
    requires Busy(w, h)
    ensures var m, m' := w.workers[h], Gone(w, h).workers[h];
            && Rank(m'.handler, |w.slots|) < Rank(m.handler, |w.slots|)
            && (m'.handler.Lively? ==> m.handler.Found?) && !m'.handler.Found?
            && m.queue <= m'.queue && (!m.handler.Lively? ==> m'.queue == m.queue)
    ensures forall q :: 0 <= q < |w.workers| && q != h ==> Gone(w, h).workers[q] == w.workers[q]
  {
  }

  lemma AlikeTenancy(w: World, w': World, i: nat, gen: nat)
    requires Alike(w, w') && Tenancy(w, i, gen)
    ensures Tenancy(w', i, gen)
  {
    assert Firm(w.slots[i], w'.slots[i]);
  }

  /** The handler of worker `h` comes to its end, whatever it is in the middle of. */
  lemma FreeUp(b: World, w: World, i: nat, gen: nat, h: nat) returns (w': World)
    requires Inv(w) && Within(b, w, i, gen) && Tenancy(w, i, gen) && h < |w.workers|
    ensures Inv(w') && Within(b, w', i, gen) && Alike(w, w') && IdleAt(w', h)
    ensures var m, m' := w.workers[h], w'.workers[h];
            m.queue <= m'.queue && (!m.handler.Found? && !m.handler.Lively? ==> m'.queue == m.queue)
    ensures forall q :: 0 <= q < |w.workers| && q != h ==> w'.workers[q] == w.workers[q]
    decreases Rank(w.workers[h].handler, |w.slots|)
  {
    hide Inv, Within, Tenancy, Alike, Next, Gone;
    if w.workers[h].handler.Idle? {
      w' := w;
      AlikeSelf(w);
    } else {
      Inside(w, h);
      var w1 := Gone(w, h);
      GoAlike(w, h);
      GoCloser(w, h);
      StepKeeps(w, Go(h), w1);
      AlikeTenancy(w, w1, i, gen);
      Then(b, w, Go(h), w1, i, gen);
      AlikeSizes(w, w1);
      w' := FreeUp(b, w1, i, gen, h);
      AlikeThen(w, w1, w');
    }
  }

  lemma AlikeSelf(w: World)
    ensures Alike(w, w)
  {
  }

  lemma AlikeSizes(w: World, w': World)
    requires Alike(w, w')
    ensures |w'.slots| == |w.slots| && |w'.workers| == |w.workers| && w'.adds == w.adds && w'.slotOf == w.slotOf
  {
  }

  lemma AlikeSlot(w: World, w': World, j: nat)
    requires Alike(w, w') && j < |w.slots|
    ensures j < |w'.slots| && Firm(w.slots[j], w'.slots[j])
  {
  }

  // ---- a foreign acknowledgement gets recorded ---------------------------

  /** Some execution within the tenancy records an acknowledgement that is not its own. */
  ghost predicate MixesUp(w: World, i: nat, gen: nat)
  {
    exists w' :: Within(w, w', i, gen) && i < |w'.slots| && !OwnMasks(w', i)
  }

  lemma Mixed(b: World, w: World, i: nat, gen: nat, a: Ack)
    requires Within(b, w, i, gen) && Tenancy(w, i, gen) && a in w.slots[i].seen && !(a.home == i && a.gen == gen)
    ensures MixesUp(b, i, gen)
  {
    hide Within;
    assert !OwnAck(w, i, a);
  }

  /** A handler whose acknowledgement passes the tests goes on to record it. */
  lemma RecordsHeld(b: World, w: World, i: nat, gen: nat, h: nat)
    requires Inv(w) && Within(b, w, i, gen) && Tenancy(w, i, gen) && h < |w.workers|
    requires var g := w.workers[h].handler; Acking(g) && g.slot == i && Passes(w.slots[i], g)
    requires var a := w.workers[h].handler.ack; !(a.home == i && a.gen == gen)
    ensures MixesUp(b, i, gen)
    decreases Rank(w.workers[h].handler, |w.slots|)
  {
    hide Inv, Within, Next, MixesUp, Alike, Gone;
    var g := w.workers[h].handler;
    var w1 := Gone(w, h);
    GoAlike(w, h);
    GoCloser(w, h);
    StepKeeps(w, Go(h), w1);
    AlikeTenancy(w, w1, i, gen);
    Then(b, w, Go(h), w1, i, gen);
    GoesOn(w, h);
    if g.Decided? {
      Mixed(b, w1, i, gen, g.ack);
    } else {
      RecordsHeld(b, w1, i, gen, h);
    }
  }

  /** What one read does to a handler that passes: it records, or goes on and still passes. */
  lemma GoesOn(w: World, h: nat)
    requires Busy(w, h) && Acking(w.workers[h].handler)
    requires Passes(w.slots[w.workers[h].handler.slot], w.workers[h].handler)
    ensures var g, w1 := w.workers[h].handler, Gone(w, h);
            && |w1.slots| == |w.slots| && |w1.workers| == |w.workers|
            && if g.Decided? then g.ack in w1.slots[g.slot].seen
               else var g1 := w1.workers[h].handler;
                    Acking(g1) && g1.slot == g.slot && g1.ack == g.ack && Passes(w1.slots[g.slot], g1)
  {
  }

  /** An ask of another slot under the tenancy's id and generation is answered, looked up and recorded. */
  lemma RecordsForeign(b: World, w: World, i: nat, gen: nat, h: nat, a: Ask)
    requires Inv(w) && Within(b, w, i, gen) && Tenancy(w, i, gen) && IdleAt(w, h)
    requires Listed(w, i) && ForeignAsk(w, i, a) && a.eu in w.slots[i].expected
    ensures MixesUp(b, i, gen)
  {
    Indexed(w);
    hide Inv, Within, MixesUp;
    var ack := Answered(a, false, true);
    var w1 := w.(acks := w.acks + {ack});
    assert Speaks(w, AnswerAdd(a, true), w1);
    StepKeeps(w, AnswerAdd(a, true), w1);
    Then(b, w, AnswerAdd(a, true), w1, i, gen);
    assert Finds(w, w.slots[i].pod);
    var w2 := SetHandler(w1, h, Sought(ack, i));
    assert Hears(w1, Look(h, ack), w2);
    StepKeeps(w1, Look(h, ack), w2);
    Then(b, w1, Look(h, ack), w2, i, gen);
    RecordsHeld(b, w2, i, gen, h);
  }

  /** A registered slot under the same id is set up in turn and asks under the tenancy's own generation. */
  lemma RivalAsks(b: World, w: World, i: nat, gen: nat, j: nat, eu: nat) returns (w': World, a: Ask)
    requires Inv(w) && Within(b, w, i, gen) && Tenancy(w, i, gen) && Rival(w, i, j)
    ensures Inv(w') && Within(b, w', i, gen) && Tenancy(w', i, gen) && w'.slotOf == w.slotOf && w'.workers == w.workers
    ensures |w'.slots| == |w.slots| && w'.slots[i] == w.slots[i] && ForeignAsk(w', i, a) && a.eu == eu
  {
    Own(w, j);
    hide Inv, Within, MasksOk, HeardOk;
    var w1 := Put(w, j, w.slots[j].(imported := true));
    assert Manages(w, Import(j), w1);
    StepKeeps(w, Import(j), w1);
    Then(b, w, Import(j), w1, i, gen);
    a := Ask(w.slots[j].pod, w.slots[j].gen + 1, eu, j);
    w' := w1.(slots := w1.slots[j := SetUp(w1.slots[j], {eu})], adds := w1.adds + Asks(a.pod, a.gen, {eu}, j));
    assert Manages(w1, Setup(j, {eu}), w');
    StepKeeps(w1, Setup(j, {eu}), w');
    Then(b, w1, Setup(j, {eu}), w', i, gen);
    assert a in Asks(a.pod, a.gen, {eu}, j);
  }

  /** Whatever disturbs a tenancy can be mistaken for its own. */
  lemma DisturbedMixesUp(w: World, i: nat, gen: nat)
    requires Inv(w) && Tenancy(w, i, gen) && |w.workers| > 0 && !Undisturbed(w, i)
    ensures MixesUp(w, i, gen)
  {
    Stay(w, i, gen);
    if !OwnHandlers(w, i) {
      var h :| 0 <= h < |w.workers| && !OwnHandler(w, i, w.workers[h].handler);
      HandlerMixesUp(w, i, gen, h);
    } else {
      hide Inv, Within, MixesUp, OwnHandlers;
      assert Listed(w, i) && !OwnId(w, i, false);
      if a :| a in w.adds && a.eu in w.slots[i].expected && ForeignAsk(w, i, a) {
        IdMixesUp(w, w, i, gen, a);
      } else {
        var j :| 0 <= j < |w.slots| && Rival(w, i, j);
        var eu :| eu in w.slots[i].expected;
        var w1, a := RivalAsks(w, w, i, gen, j, eu);
        IdMixesUp(w, w1, i, gen, a);
      }
    }
  }

  lemma HandlerMixesUp(w: World, i: nat, gen: nat, h: nat)
    requires Inv(w) && Tenancy(w, i, gen) && h < |w.workers| && !OwnHandler(w, i, w.workers[h].handler)
    ensures MixesUp(w, i, gen)
  {
    Stay(w, i, gen);
    Inside(w, h);
    hide Inv, Within, MixesUp;
    RecordsHeld(w, w, i, gen, h);
  }

  lemma IdMixesUp(b: World, w: World, i: nat, gen: nat, a: Ask)
    requires Inv(w) && Within(b, w, i, gen) && Tenancy(w, i, gen) && |w.workers| > 0
    requires Listed(w, i) && ForeignAsk(w, i, a) && a.eu in w.slots[i].expected
    ensures MixesUp(b, i, gen)
  {
    hide Inv, Within, MixesUp, Alike;
    var w1 := FreeUp(b, w, i, gen, 0);
    AlikeSizes(w, w1);
    AlikeSlot(w, w1, i);
    RecordsForeign(b, w1, i, gen, 0, a);
  }

  /**
   From any state of a tenancy: every acknowledgement it will have recorded is
   its own, whatever happens next, if and only if those recorded so far are, no
   handler holds a foreign one that passes the tests, and no other slot sends or
   is about to send under the same id and generation while the slot can be
   found under that id.
   */
  lemma MasksAreOwnIff(w: World, i: nat, gen: nat)
    requires Inv(w) && Tenancy(w, i, gen) && |w.workers| > 0
    ensures (forall w' :: Within(w, w', i, gen) ==> i < |w'.slots| && OwnMasks(w', i)) <==>
            OwnMasks(w, i) && Undisturbed(w, i)
  {
    if OwnMasks(w, i) && Undisturbed(w, i) {
      forall w' | Within(w, w', i, gen)
        ensures i < |w'.slots| && OwnMasks(w', i)
      {
        var run: seq<World>, steps: seq<Step> :| Goes(run, steps, i, gen) && run[0] == w && run[|steps|] == w';
        UndisturbedPath(run, steps, i, gen, 0, |steps|);
      }
    } else {
      Stay(w, i, gen);
      hide Inv, Within, Undisturbed, OwnMasks;
      if OwnMasks(w, i) {
        DisturbedMixesUp(w, i, gen);
      }
    }
  }
}
