/**
 Forward completions: a completion is vetted when it arrives and again when the
 worker that owns its connection processes it, by separate reads that the control
 thread can come between.
 */
module SlotForward {
  import opened SlotLifecycle
  import opened SlotRuns
  import opened SlotTenancy
  import opened SlotMixups

  /** A handler that carries a completion. */
  predicate Carries(g: Handler) { g.Found? || g.Lively? || g.Admitted? || g.Matched? }

  /** If the message passes for the tenancy's own, it is. */
  predicate OwnMessage(w: World, i: nat, m: Ask)
    requires i < |w.slots|
  {
    m.pod == w.slots[i].pod && m.gen == w.slots[i].gen ==> m.home == i
  }

  predicate OwnLoad(w: World, i: nat, m: Worker)
    requires i < |w.slots|
  {
    && (Carries(m.handler) && m.handler.slot == i ==> OwnMessage(w, i, m.handler.fwd))
    && (forall e :: e in m.queue && e.slot == i ==> OwnMessage(w, i, e.fwd))
  }

  predicate OwnLoads(w: World, i: nat)
    requires i < |w.slots|
  {
    forall h :: 0 <= h < |w.workers| ==> OwnLoad(w, i, w.workers[h])
  }

  /** Every completion taken for the tenancy was caused by it. */
  predicate OwnTaken(w: World, i: nat)
    requires i < |w.slots|
  {
    forall m :: m in w.slots[i].taken ==> m.home == i
  }

  /** No completion on its way, or yet to be sent, can be mistaken for one of this tenancy. */
  predicate Unmistaken(w: World, i: nat)
    requires i < |w.slots|
  {
    OwnLoads(w, i) && OwnId(w, i, true)
  }

  // ---- what is its own stays its own -------------------------------------

  lemma ReceiveIsOwn(w: World, h: nat, fwd: Ask, w': World, i: nat)
    requires Inv(w) && Hears(w, Receive(h, fwd), w') && i < |w.slots| && OwnId(w, i, true)
    ensures w'.workers[h].handler == Found(fwd, w.slotOf[fwd.pod]) && w'.workers[h].queue == w.workers[h].queue
    ensures w'.workers[h].handler.slot == i ==> OwnMessage(w, i, fwd)
  {
    Sent(w);
    hide Inv;
    if w'.workers[h].handler.slot == i {
      assert Listed(w, i);
      assert !ForeignAsk(w, i, fwd);
    }
  }

  /** Where the completion a handler carries after a worker's step comes from. */
  lemma CarriedFrom(w: World, x: Step, w': World, h: nat)
    requires Hears(w, x, w') && h < |w.workers| == |w'.workers| && Carries(w'.workers[h].handler)
    ensures var g, g', q := w.workers[h].handler, w'.workers[h].handler, w.workers[h].queue;
            || (x.Receive? && x.h == h)
            || (Carries(g) && g.fwd == g'.fwd && g.slot == g'.slot)
            || Entry(g'.fwd, g'.slot) in q
  {
  }

  /** Where a queued completion comes from. */
  lemma QueuedFrom(w: World, x: Step, w': World, h: nat, e: Entry)
    requires Hears(w, x, w') && h < |w.workers| == |w'.workers| && e in w'.workers[h].queue
    ensures var g, q := w.workers[h].handler, w.workers[h].queue;
            || e in q || (Carries(g) && e == Entry(g.fwd, g.slot))
            || (x.Hand? && x.h < |w.workers| && e in w.workers[x.h].queue)
  {
    hide Onward, Finds;
  }

  lemma LoadHeard(w: World, x: Step, w': World, i: nat, h: nat)
    requires Inv(w) && Hears(w, x, w') && i < |w.slots| == |w'.slots| && h < |w.workers| == |w'.workers|
    requires Unmistaken(w, i) && Core(w.slots[i], w'.slots[i])
    ensures OwnLoad(w', i, w'.workers[h])
  {
    hide Inv, OwnId, Hears;
    assert OwnLoad(w, i, w.workers[h]);
    var g' := w'.workers[h].handler;
    if Carries(g') && g'.slot == i {
      CarriedFrom(w, x, w', h);
      if x.Receive? && x.h == h {
        ReceiveIsOwn(w, h, x.fwd, w', i);
      }
      assert OwnMessage(w, i, g'.fwd);
    }
    forall e | e in w'.workers[h].queue && e.slot == i
      ensures OwnMessage(w', i, e.fwd)
    {
      QueuedFrom(w, x, w', h, e);
      assert x.Hand? && x.h < |w.workers| ==> OwnLoad(w, i, w.workers[x.h]);
    }
  }

  lemma LoadsHeard(w: World, x: Step, w': World, i: nat)
    requires Inv(w) && Hears(w, x, w') && i < |w.slots| && |w'.slots| == |w.slots| && Unmistaken(w, i)
    ensures OwnLoads(w', i)
  {
    hide Inv, Unmistaken, OwnLoad, Hears;
    HearsCore(w, x, w', i);
    forall h | 0 <= h < |w'.workers|
      ensures OwnLoad(w', i, w'.workers[h])
    {
      LoadHeard(w, x, w', i, h);
    }
  }

  lemma TakenHeard(w: World, x: Step, w': World, i: nat)
    requires Inv(w) && Hears(w, x, w') && i < |w.slots| && |w'.slots| == |w.slots|
    requires OwnTaken(w, i) && OwnLoads(w, i)
    ensures OwnTaken(w', i)
  {
    if x.Go? {
      Inside(w, x.h);
      assert OwnLoad(w, i, w.workers[x.h]);
    }
    hide Inv, Onward, Finds;
  }

  lemma UnmistakenStep(w: World, x: Step, w': World, i: nat, gen: nat)
    requires Inv(w) && Next(w, x, w') && Tenancy(w, i, gen) && Tenancy(w', i, gen)
    requires Unmistaken(w, i) && OwnTaken(w, i)
    ensures Unmistaken(w', i) && OwnTaken(w', i)
  {
    hide Inv, Manages, Speaks, Hears, OwnId;
    OnIts(w, x, w', i, gen);
    OwnIdKept(w, x, w', i, gen, true);
    if Hears(w, x, w') {
      LoadsHeard(w, x, w', i);
      TakenHeard(w, x, w', i);
    } else {
      OthersQuiet(w, x, w', i, gen);
      forall h | 0 <= h < |w.workers|
        ensures OwnLoad(w', i, w.workers[h])
      {
        assert OwnLoad(w, i, w.workers[h]);
      }
    }
  }

  lemma {:induction false} UnmistakenPath(run: seq<World>, steps: seq<Step>, i: nat, gen: nat, b: nat, k: nat)
    requires IsPath(run, steps) && b <= k && Lasts(run, b, k, i, gen)
    requires Inv(run[0]) && Unmistaken(run[b], i) && OwnTaken(run[b], i)
    ensures Unmistaken(run[k], i) && OwnTaken(run[k], i)
    decreases k
  {
    hide Inv, Unmistaken, OwnTaken, Next;
    if k > b {
      UnmistakenPath(run, steps, i, gen, b, k - 1);
      PathKeeps(run, steps, k - 1);
      UnmistakenStep(run[k - 1], steps[k - 1], run[k], i, gen);
    }
  }

  // ---- a foreign completion gets taken -----------------------------------

  /** Some execution within the tenancy takes a completion another tenancy caused. */
  ghost predicate Mistakes(w: World, i: nat, gen: nat)
  {
    exists w' :: Within(w, w', i, gen) && i < |w'.slots| && !OwnTaken(w', i)
  }

  predicate Mistakable(w: World, i: nat, m: Ask)
    requires i < |w.slots|
  {
    m.pod == w.slots[i].pod && m.gen == w.slots[i].gen && m.home != i
  }

  /** What one read does to a handler whose completion passes for the tenancy's own while the slot is ready. */
  lemma CarriesOn(w: World, h: nat)
    requires Busy(w, h) && Carries(w.workers[h].handler)
    requires var g := w.workers[h].handler;
             w.slots[g.slot].ready && g.fwd.pod == w.slots[g.slot].pod && g.fwd.gen == w.slots[g.slot].gen
    ensures var g, w1 := w.workers[h].handler, Gone(w, h);
            && |w1.slots| == |w.slots| && |w1.workers| == |w.workers|
            && (g.Matched? ==> g.fwd in w1.slots[g.slot].taken)
            && (g.Lively? ==> w1.workers[h] == Worker(Idle, w.workers[h].queue + [Entry(g.fwd, g.slot)]))
            && (g.Found? || g.Admitted? ==>
                  var g1 := w1.workers[h].handler; Carries(g1) && g1.fwd == g.fwd && g1.slot == g.slot)
  {
  }

  lemma GoWithin(b: World, w: World, i: nat, gen: nat, h: nat)
    requires Inv(w) && Within(b, w, i, gen) && Tenancy(w, i, gen) && Busy(w, h)
    ensures var w1 := Gone(w, h);
            Inv(w1) && Within(b, w1, i, gen) && Tenancy(w1, i, gen) && Alike(w, w1)
  {
    hide Inv, Within, Next, Gone, Alike;
    GoAlike(w, h);
    StepKeeps(w, Go(h), Gone(w, h));
    AlikeTenancy(w, Gone(w, h), i, gen);
    Then(b, w, Go(h), Gone(w, h), i, gen);
  }

  lemma TakesCarried(b: World, w: World, i: nat, gen: nat, h: nat)
    requires Inv(w) && Within(b, w, i, gen) && Tenancy(w, i, gen) && h < |w.workers| && w.slots[i].ready
    requires var g := w.workers[h].handler; Carries(g) && g.slot == i && Mistakable(w, i, g.fwd)
    ensures Mistakes(b, i, gen)
    decreases Rank(w.workers[h].handler, |w.slots|) +
              (if w.workers[h].handler.Found? || w.workers[h].handler.Lively? then 9 else 0),
              |w.workers[h].queue|, 1
  {
    hide Inv, Within, Next, Mistakes, Alike, Gone;
    var g, w1 := w.workers[h].handler, Gone(w, h);
    GoWithin(b, w, i, gen, h);
    GoCloser(w, h);
    AlikeSlot(w, w1, i);
    CarriesOn(w, h);
    if g.Matched? {
      assert !OwnTaken(w1, i);
      Mistaken(b, w1, i, gen);
    } else if g.Lively? {
      TakesQueued(b, w1, i, gen, h, |w.workers[h].queue|);
    } else {
      TakesCarried(b, w1, i, gen, h);
    }
  }

  lemma Mistaken(b: World, w: World, i: nat, gen: nat)
    requires Within(b, w, i, gen) && i < |w.slots| && !OwnTaken(w, i)
    ensures Mistakes(b, i, gen)
  {
    hide Within, OwnTaken;
  }

  /** A queued completion comes to be processed. */
  lemma TakesQueued(b: World, w: World, i: nat, gen: nat, h: nat, k: nat)
    requires Inv(w) && Within(b, w, i, gen) && Tenancy(w, i, gen) && h < |w.workers| && w.slots[i].ready
    requires k < |w.workers[h].queue| && w.workers[h].queue[k].slot == i && Mistakable(w, i, w.workers[h].queue[k].fwd)
    ensures Mistakes(b, i, gen)
    decreases 3, k, 0
  {
    hide Inv, Within, Next, Mistakes, Alike, Gone;
    var w1 := FreeUp(b, w, i, gen, h);
    AlikeSizes(w, w1);
    AlikeSlot(w, w1, i);
    AlikeTenancy(w, w1, i, gen);
    var e := w1.workers[h].queue[0];
    Inside(w1, h);
    assert EntryOk(w1, e);
    var g := if w1.slots[e.slot].ready then Admitted(e.fwd, e.slot, w1.slots[e.slot].gen) else Idle;
    var w2 := SetHandler(Dequeue(w1, h), h, g);
    assert Next(w1, Process(h), w2) by { ProcessIs(w1, h, w2); }
    StepKeeps(w1, Process(h), w2);
    Then(b, w1, Process(h), w2, i, gen);
    if k == 0 {
      TakesCarried(b, w2, i, gen, h);
    } else {
      assert w2.workers[h].queue[k - 1] == w.workers[h].queue[k];
      TakesQueued(b, w2, i, gen, h, k - 1);
    }
  }

  lemma ProcessIs(w: World, h: nat, w': World)
    requires IdleAt(w, h) && w.workers[h].queue != [] && w.workers[h].queue[0].slot < |w.slots|
    requires var e := w.workers[h].queue[0];
             w' == SetHandler(Dequeue(w, h), h,
                              if w.slots[e.slot].ready then Admitted(e.fwd, e.slot, w.slots[e.slot].gen) else Idle)
    ensures Next(w, Process(h), w')
  {
    hide Manages, Speaks;
  }

  /** An ask of another slot under the tenancy's id and generation leads to a completion that is received and queued. */
  lemma TakesForeign(b: World, w: World, i: nat, gen: nat, a: Ask)
    requires Inv(w) && Within(b, w, i, gen) && Tenancy(w, i, gen) && |w.workers| > 0 && w.slots[i].ready
    requires Listed(w, i) && ForeignAsk(w, i, a)
    ensures Mistakes(b, i, gen)
  {
    hide Inv, Within, Mistakes, Alike, Next, Gone;
    var w1 := FreeUp(b, w, i, gen, 0);
    AlikeSizes(w, w1);
    AlikeSlot(w, w1, i);
    AlikeTenancy(w, w1, i, gen);
    var w2 := w1.(fwds := w1.fwds + {a});
    assert Speaks(w1, Forward(a), w2);
    assert Next(w1, Forward(a), w2) by { Spoken(w1, Forward(a), w2); }
    StepKeeps(w1, Forward(a), w2);
    Then(b, w1, Forward(a), w2, i, gen);
    Indexed(w2);
    assert Finds(w2, w2.slots[i].pod);
    var w3 := SetHandler(w2, 0, Found(a, i));
    assert Next(w2, Receive(0, a), w3) by { Heard(w2, Receive(0, a), w3); }
    StepKeeps(w2, Receive(0, a), w3);
    Then(b, w2, Receive(0, a), w3, i, gen);
    TakesCarried(b, w3, i, gen, 0);
  }

  lemma Spoken(w: World, x: Step, w': World)
    requires Speaks(w, x, w')
    ensures Next(w, x, w')
  {
    hide Speaks, Manages, Hears;
  }

  lemma Heard(w: World, x: Step, w': World)
    requires Hears(w, x, w')
    ensures Next(w, x, w')
  {
    hide Speaks, Manages, Hears;
  }

  lemma LoadMistaken(w: World, i: nat, gen: nat, h: nat)
    requires Inv(w) && Tenancy(w, i, gen) && w.slots[i].ready && h < |w.workers| && !OwnLoad(w, i, w.workers[h])
    ensures Mistakes(w, i, gen)
  {
    Stay(w, i, gen);
    hide Inv, Within, Mistakes;
    if Carries(w.workers[h].handler) && w.workers[h].handler.slot == i && !OwnMessage(w, i, w.workers[h].handler.fwd) {
      TakesCarried(w, w, i, gen, h);
    } else {
      var e :| e in w.workers[h].queue && e.slot == i && !OwnMessage(w, i, e.fwd);
      var k :| 0 <= k < |w.workers[h].queue| && w.workers[h].queue[k] == e;
      TakesQueued(w, w, i, gen, h, k);
    }
  }

  lemma IdMistaken(w: World, i: nat, gen: nat)
    requires Inv(w) && Tenancy(w, i, gen) && w.slots[i].ready && |w.workers| > 0 && !OwnId(w, i, true)
    ensures Mistakes(w, i, gen)
  {
    Stay(w, i, gen);
    hide Inv, Within, Mistakes;
    if a :| a in w.adds && ForeignAsk(w, i, a) {
      TakesForeign(w, w, i, gen, a);
    } else {
      var j :| 0 <= j < |w.slots| && Rival(w, i, j);
      var w1, a := RivalAsks(w, w, i, gen, j, 0);
      TakesForeign(w, w1, i, gen, a);
    }
  }

  /**
   From any state in which the slot serves: every completion it will have taken
   in this tenancy was caused by this tenancy, whatever happens next, if and only
   if those taken so far were, no worker carries a foreign one under the
   tenancy's id and generation, and no other slot sends or is about to send
   under them while the slot can be found under that id.
   */
  lemma TakenIsOwnIff(w: World, i: nat, gen: nat)
    requires Inv(w) && Tenancy(w, i, gen) && w.slots[i].ready && |w.workers| > 0
    ensures (forall w' :: Within(w, w', i, gen) ==> i < |w'.slots| && OwnTaken(w', i)) <==>
            OwnTaken(w, i) && Unmistaken(w, i)
  {
    if OwnTaken(w, i) && Unmistaken(w, i) {
      forall w' | Within(w, w', i, gen)
        ensures i < |w'.slots| && OwnTaken(w', i)
      {
        var run: seq<World>, steps: seq<Step> :| Goes(run, steps, i, gen) && run[0] == w && run[|steps|] == w';
        UnmistakenPath(run, steps, i, gen, 0, |steps|);
      }
    } else {
      Stay(w, i, gen);
      hide Inv, Within, OwnLoad, OwnId, OwnTaken;
      if OwnTaken(w, i) {
        if OwnId(w, i, true) {
          var h :| 0 <= h < |w.workers| && !OwnLoad(w, i, w.workers[h]);
          LoadMistaken(w, i, gen, h);
        } else {
          IdMistaken(w, i, gen);
        }
      }
    }
  }
}
