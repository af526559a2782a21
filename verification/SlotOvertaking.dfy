/**
 With ids the proxy assigns, exactly which acknowledgements are recorded for a
 tenancy they do not belong to: those whose handler read the generation before
 the tenancy was set up and recorded after it.
 */
module SlotOvertaking {
  import opened SlotLifecycle
  import opened SlotRuns
  import opened SlotTenancy
  import opened SlotIds

  /** Worker `h` has read generation `g.gen` for this acknowledgement and has not recorded it yet. */
  predicate Holds(w: World, h: nat, g: Handler)
  {
    && h < |w.workers| && (g.Peeked? || g.Decided?)
    && (w.workers[h].handler == Peeked(g.ack, g.slot, g.gen) || w.workers[h].handler == Decided(g.ack, g.slot, g.gen))
  }

  /**
   Step `r` records in slot `i` an acknowledgement whose generation was read
   before step `b` and held ever since.
   */
  ghost predicate Overtaken(run: seq<World>, steps: seq<Step>, b: nat, r: nat, i: nat)
  {
    && b < r < |steps| < |run| && steps[r].Go? && steps[r].h < |run[r].workers|
    && var g := run[r].workers[steps[r].h].handler;
       g.Decided? && g.slot == i && forall q :: b < q <= r ==> Holds(run[q], steps[r].h, g)
  }

  // ---- who is recorded ---------------------------------------------------

  /** What a step within the tenancy records is what some worker had decided to record. */
  lemma RecordedBy(w: World, x: Step, w': World, i: nat, gen: nat, a: Ack)
    requires Inv(w) && Next(w, x, w') && Tenancy(w, i, gen) && Tenancy(w', i, gen)
    requires a in w'.slots[i].seen && a !in w.slots[i].seen
    ensures x.Go? && x.h < |w.workers| && w.workers[x.h].handler.Decided?
    ensures w.workers[x.h].handler.slot == i && w.workers[x.h].handler.ack == a
  {
    hide Inv, Manages, Speaks, Onward, After, Finds;
    if !Hears(w, x, w') {
      OthersQuiet(w, x, w', i, gen);
    } else if x.Go? {
      AfterSeen(w.workers[x.h].handler, w.slots[w.workers[x.h].handler.slot]);
    }
  }

  lemma SeenGrows(w: World, x: Step, w': World, i: nat, gen: nat)
    requires Inv(w) && Next(w, x, w') && Tenancy(w, i, gen) && Tenancy(w', i, gen)
    ensures w.slots[i].seen <= w'.slots[i].seen
  {
    hide Inv, Manages, Speaks, Onward, After, Finds;
    if !Hears(w, x, w') {
      OthersQuiet(w, x, w', i, gen);
    } else if x.Go? {
      AfterSeen(w.workers[x.h].handler, w.slots[w.workers[x.h].handler.slot]);
    }
  }

  lemma {:induction false} SeenLasts(run: seq<World>, steps: seq<Step>, i: nat, gen: nat, r: nat, k: nat)
    requires IsRun(run, steps) && r <= k && Lasts(run, r, k, i, gen)
    ensures run[r].slots[i].seen <= run[k].slots[i].seen
    decreases k
  {
    hide Inv, Next, Initial;
    if k > r {
      SeenLasts(run, steps, i, gen, r, k - 1);
      RunKeeps(run, steps, k - 1);
      SeenGrows(run[k - 1], steps[k - 1], run[k], i, gen);
    }
  }

  // ---- when the generation was read --------------------------------------

  lemma HandlerUnmoved(w: World, x: Step, w': World, h: nat)
    requires Next(w, x, w') && h < |w'.workers| && (Manages(w, x, w') || Speaks(w, x, w'))
    ensures w'.workers == w.workers
  {
    hide Hears, Clear;
  }

  /** A generation other than the slot's present one was not read just now. */
  lemma HeldBefore(w: World, x: Step, w': World, h: nat, g: Handler)
    requires Next(w, x, w') && Holds(w', h, g) && g.slot < |w.slots| && w.slots[g.slot].gen != g.gen
    ensures Holds(w, h, g)
  {
    hide Manages, Speaks, Hears;
    if Hears(w, x, w') {
      WorkersSame(w, x, w');
      HandlerHeard(w, x, w', h);
      if x.Look? && x.h == h {
        LookSeeks(w, x, w');
      }
    } else {
      HandlerUnmoved(w, x, w', h);
    }
  }

  lemma WorkersSame(w: World, x: Step, w': World)
    requires Hears(w, x, w')
    ensures |w'.workers| == |w.workers|
  {
  }

  lemma LookSeeks(w: World, x: Step, w': World)
    requires Hears(w, x, w') && x.Look?
    ensures x.h < |w'.workers| && w'.workers[x.h].handler.Sought?
  {
  }

  lemma {:induction false} HeldSince(run: seq<World>, steps: seq<Step>, i: nat, gen: nat, b: nat, r: nat, h: nat,
                                     g: Handler)
    requires IsRun(run, steps) && b <= r && Lasts(run, b, r, i, gen)
    requires Holds(run[r], h, g) && g.slot == i && g.gen != gen
    ensures forall q :: b <= q <= r ==> Holds(run[q], h, g)
    decreases r
  {
    hide Next, Initial, Holds;
    if r > b {
      HeldBefore(run[r - 1], steps[r - 1], run[r], h, g) by { Kind(run[r], h, g); }
      HeldSince(run, steps, i, gen, b, r - 1, h, g);
    }
  }

  lemma Kind(w: World, h: nat, g: Handler)
    requires Holds(w, h, g)
    ensures g.Peeked? || g.Decided?
  {
  }

  // ---- the condition -----------------------------------------------------

  lemma ForeignIsOvertaken(run: seq<World>, steps: seq<Step>, i: nat, gen: nat, b: nat, r: nat, a: Ack)
    requires IsRun(run, steps) && Assigned(steps) && b < r < |steps| && Lasts(run, b + 1, r + 1, i, gen)
    requires a in run[r + 1].slots[i].seen && a !in run[r].slots[i].seen && !OwnAck(run[r + 1], i, a)
    ensures Overtaken(run, steps, b, r, i)
  {
    hide Inv, Next, Initial;
    AssignedRun(run, steps, r);
    RunKeeps(run, steps, r + 1);
    RecordedBy(run[r], steps[r], run[r + 1], i, gen, a);
    var h := steps[r].h;
    var g := run[r].workers[h].handler;
    DecidedIs(run[r], h);
    assert g.gen != gen by { ForeignGen(run[r], steps[r], run[r + 1], i, gen, a); }
    HeldSince(run, steps, i, gen, b + 1, r, h, g);
  }

  lemma DecidedIs(w: World, h: nat)
    requires Inv(w) && OwnIds(w) && h < |w.workers| && w.workers[h].handler.Decided?
    ensures var g := w.workers[h].handler;
            g.slot < |w.slots| && g.ack in w.acks && g.ack.gen == g.gen && g.ack.home == g.slot
  {
    Inside(w, h);
    Sent(w);
    assert AckOk(w, w.workers[h].handler.ack);
    assert OwnPlace(w.workers[h]);
    hide Inv;
  }

  lemma ForeignGen(w: World, x: Step, w': World, i: nat, gen: nat, a: Ack)
    requires Inv(w) && OwnIds(w) && Next(w, x, w') && Tenancy(w, i, gen) && Tenancy(w', i, gen)
    requires x.Go? && x.h < |w.workers| && w.workers[x.h].handler.Decided? && w.workers[x.h].handler.slot == i
    requires w.workers[x.h].handler.ack == a && !OwnAck(w', i, a)
    ensures w.workers[x.h].handler.gen != gen
  {
    hide Inv, OwnIds, Next;
    DecidedIs(w, x.h);
    OnIts(w, x, w', i, gen);
  }

  lemma {:induction false} AllOwnOrOvertaken(run: seq<World>, steps: seq<Step>, i: nat, gen: nat, b: nat, k: nat)
    requires IsRun(run, steps) && Assigned(steps) && b < k && Lasts(run, b + 1, k, i, gen)
    requires run[b + 1].slots[i].seen == {} && forall r :: b < r < k ==> !Overtaken(run, steps, b, r, i)
    ensures OwnMasks(run[k], i)
    decreases k
  {
    hide Inv, Next, Initial, Overtaken, OwnAck;
    if k > b + 1 {
      AllOwnOrOvertaken(run, steps, i, gen, b, k - 1);
      forall a | a in run[k].slots[i].seen
        ensures OwnAck(run[k], i, a)
      {
        RunKeeps(run, steps, k - 1);
        if a in run[k - 1].slots[i].seen {
          OwnLasts(run[k - 1], steps[k - 1], run[k], i, gen, a);
        } else if !OwnAck(run[k], i, a) {
          ForeignIsOvertaken(run, steps, i, gen, b, k - 1, a);
        }
      }
    }
  }

  lemma OwnLasts(w: World, x: Step, w': World, i: nat, gen: nat, a: Ack)
    requires Inv(w) && Next(w, x, w') && Tenancy(w, i, gen) && Tenancy(w', i, gen) && OwnAck(w, i, a)
    ensures OwnAck(w', i, a)
  {
    hide Inv, Next;
    OnIts(w, x, w', i, gen);
  }

  /** A handler that held its generation through the setup records what is not the tenancy's own. */
  lemma OvertakenIsForeign(run: seq<World>, steps: seq<Step>, i: nat, gen: nat, b: nat, r: nat, k: nat)
    requires IsRun(run, steps) && b < r < k && Lasts(run, b + 1, k, i, gen)
    requires steps[b].Setup? && steps[b].i == i && Overtaken(run, steps, b, r, i)
    ensures !OwnMasks(run[k], i)
  {
    var h := steps[r].h;
    var g := run[r].workers[h].handler;
    assert Holds(run[b + 1], h, g);
    hide Inv, Initial;
    RunKeeps(run, steps, b);
    RunKeeps(run, steps, r);
    assert Next(run[b], steps[b], run[b + 1]) && Next(run[r], steps[r], run[r + 1]);
    assert g.gen < gen by { SetupOutdates(run[b], steps[b], run[b + 1], h); }
    assert g.ack.gen == g.gen by { Inside(run[r], h); }
    assert g.ack in run[r + 1].slots[i].seen;
    hide Next;
    SeenLasts(run, steps, i, gen, r + 1, k);
    assert !OwnAck(run[k], i, g.ack);
  }

  lemma SetupOutdates(w: World, x: Step, w': World, h: nat)
    requires Inv(w) && Next(w, x, w') && x.Setup? && h < |w'.workers|
    ensures x.i < |w'.slots| && w'.workers == w.workers
    ensures var g := w.workers[h].handler; (g.Peeked? || g.Decided?) && g.slot == x.i ==> g.gen < w'.slots[x.i].gen
  {
    assert Manages(w, x, w');
    Inside(w, h);
    hide Inv;
  }

  /**
   In every run with assigned ids: the acknowledgements recorded for a tenancy
   are all its own if and only if no step since its setup recorded one whose
   generation a handler had read before the setup.
   */
  lemma OwnMasksIff(run: seq<World>, steps: seq<Step>, b: nat, k: nat, i: nat)
    requires IsRun(run, steps) && Assigned(steps) && b < k && k < |run| && steps[b].Setup? && steps[b].i == i
    requires i < |run[b + 1].slots| && Lasts(run, b + 1, k, i, run[b + 1].slots[i].gen)
    ensures OwnMasks(run[k], i) <==> forall r :: b < r < k ==> !Overtaken(run, steps, b, r, i)
  {
    var gen := run[b + 1].slots[i].gen;
    assert Next(run[b], steps[b], run[b + 1]);
    assert run[b + 1].slots[i].seen == {};
    hide Next, Initial, OwnMasks, Overtaken;
    if r :| b < r < k && Overtaken(run, steps, b, r, i) {
      OvertakenIsForeign(run, steps, i, gen, b, r, k);
    } else {
      AllOwnOrOvertaken(run, steps, i, gen, b, k);
    }
  }
}
