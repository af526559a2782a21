/**
 When reclaiming a slot is earned. With ids the proxy assigns, exactly which
 removal acknowledgements are recorded for a cleanup they do not belong to:
 those matched before the cleanup began and recorded after it.
 */
module SlotReclaim {
  import opened SlotLifecycle
  import opened SlotRuns
  import opened SlotTenancy
  import opened SlotIds
  import opened SlotRemoval
  import opened SlotOvertaking

  /** Worker `h` has matched this removal acknowledgement to its slot and has not recorded it yet. */
  predicate Clutches(w: World, h: nat, g: Handler)
  {
    && h < |w.workers| && (g.Targeted? || g.Striking?)
    && (w.workers[h].handler == Targeted(g.ack, g.slot, g.gen) ||
        w.workers[h].handler == Striking(g.ack, g.slot, g.gen))
  }

  /** Step `r` records in slot `i` a removal acknowledgement matched before step `b` and held ever since. */
  ghost predicate Misstruck(run: seq<World>, steps: seq<Step>, b: nat, r: nat, i: nat)
  {
    && b < r < |steps| < |run| && steps[r].Go? && steps[r].h < |run[r].workers|
    && var g := run[r].workers[steps[r].h].handler;
       g.Striking? && g.slot == i && forall q :: b < q <= r ==> Clutches(run[q], steps[r].h, g)
  }

  /** Step `b` begins a cleanup of slot `i`, with rings to remove. */
  ghost predicate Begins(run: seq<World>, b: nat, i: nat)
  {
    && b + 1 < |run| && i < |run[b].slots| && i < |run[b + 1].slots|
    && !run[b].slots[i].cleanup && run[b + 1].slots[i].cleanup && run[b + 1].slots[i].rings
  }

  // ---- who is recorded ---------------------------------------------------

  lemma StruckBy(w: World, x: Step, w': World, i: nat, gen: nat, a: Ack)
    requires Inv(w) && Next(w, x, w') && Leaving(w, i, gen) && Tenancy(w', i, gen)
    requires a in w'.slots[i].delSeen && a !in w.slots[i].delSeen
    ensures x.Go? && x.h < |w.workers| && w.workers[x.h].handler.Striking?
    ensures w.workers[x.h].handler.slot == i && w.workers[x.h].handler.ack == a
  {
    LeavingStep(w, x, w', i, gen);
    hide Inv, Manages, Speaks, Onward, After, Finds;
    if Hears(w, x, w') && x.Go? {
      AfterSeen(w.workers[x.h].handler, w.slots[w.workers[x.h].handler.slot]);
    }
  }

  lemma {:induction false} StillIn(run: seq<World>, steps: seq<Step>, i: nat, gen: nat, r: nat, k: nat)
    requires IsRun(run, steps) && r <= k && Lasts(run, r, k, i, gen) && run[r].slots[i].cleanup
    ensures run[k].slots[i].cleanup && run[r].slots[i].delSeen <= run[k].slots[i].delSeen
    decreases k
  {
    hide Inv, Next, Initial;
    if k > r {
      StillIn(run, steps, i, gen, r, k - 1);
      RunKeeps(run, steps, k - 1);
      LeavingStep(run[k - 1], steps[k - 1], run[k], i, gen);
    }
  }

  // ---- when it was matched -----------------------------------------------

  lemma OnwardClutches(g: Handler, s: Slot, n: nat)
    requires Deleting(g)
    ensures var g' := Onward(g, s, n);
            && (g'.Targeted? ==> g.Named? && g'.slot == g.slot && g'.gen == s.gen)
            && (g'.Striking? ==> g == Targeted(g'.ack, g'.slot, g'.gen))
  {
  }

  /** A generation other than the slot's present one was not matched just now. */
  lemma ClutchedBefore(w: World, x: Step, w': World, h: nat, g: Handler)
    requires Next(w, x, w') && Clutches(w', h, g) && g.slot < |w.slots| && w.slots[g.slot].gen != g.gen
    ensures Clutches(w, h, g)
  {
    hide Manages, Speaks, Hears, Onward;
    if Hears(w, x, w') {
      WorkersSame(w, x, w');
      DeletingFrom(w, x, w', h);
      if Deleting(w.workers[h].handler) && w.workers[h].handler.slot < |w.slots| {
        OnwardClutches(w.workers[h].handler, w.slots[w.workers[h].handler.slot], |w.slots|);
      }
    } else {
      HandlerUnmoved(w, x, w', h);
    }
  }

  lemma Grip(w: World, h: nat, g: Handler)
    requires Clutches(w, h, g)
    ensures g.Targeted? || g.Striking?
  {
  }

  lemma {:induction false} ClutchedSince(run: seq<World>, steps: seq<Step>, i: nat, gen: nat, b: nat, r: nat, h: nat,
                                         g: Handler)
    requires IsRun(run, steps) && b <= r && Lasts(run, b, r, i, gen)
    requires Clutches(run[r], h, g) && g.slot == i && g.gen != gen
    ensures forall q :: b <= q <= r ==> Clutches(run[q], h, g)
    decreases r
  {
    hide Next, Initial, Clutches;
    if r > b {
      ClutchedBefore(run[r - 1], steps[r - 1], run[r], h, g) by { Grip(run[r], h, g); }
      ClutchedSince(run, steps, i, gen, b, r - 1, h, g);
    }
  }

  // ---- the condition -----------------------------------------------------

  lemma StrikingIs(w: World, h: nat)
    requires Inv(w) && OwnIds(w) && h < |w.workers|
    ensures var g := w.workers[h].handler;
            g.Targeted? || g.Striking? ==> g.slot < |w.slots| && g.ack in w.acks && g.ack.del && g.ack.gen == g.gen
                                           && g.ack.home == g.slot && g.gen <= w.slots[g.slot].gen
  {
    Inside(w, h);
    var g := w.workers[h].handler;
    assert OwnPlace(w.workers[h]);
    if g.Targeted? || g.Striking? {
      AckHome(w, g.ack);
    }
    hide Inv;
  }

  lemma ForeignIsMisstruck(run: seq<World>, steps: seq<Step>, i: nat, gen: nat, b: nat, r: nat, a: Ack)
    requires IsRun(run, steps) && Assigned(steps) && b < r < |steps| && Lasts(run, b + 1, r + 1, i, gen)
    requires run[r].slots[i].cleanup
    requires a in run[r + 1].slots[i].delSeen && a !in run[r].slots[i].delSeen && !OwnAck(run[r + 1], i, a)
    ensures Misstruck(run, steps, b, r, i)
  {
    hide Inv, Next, Initial, OwnIds;
    AssignedRun(run, steps, r);
    RunKeeps(run, steps, r);
    StruckBy(run[r], steps[r], run[r + 1], i, gen, a);
    var h := steps[r].h;
    var g := run[r].workers[h].handler;
    StrikingIs(run[r], h);
    LeavingStep(run[r], steps[r], run[r + 1], i, gen);
    ClutchedSince(run, steps, i, gen, b + 1, r, h, g);
  }

  lemma {:induction false} AllOwnOrMisstruck(run: seq<World>, steps: seq<Step>, i: nat, gen: nat, b: nat, k: nat)
    requires IsRun(run, steps) && Assigned(steps) && b < k && Lasts(run, b + 1, k, i, gen)
    requires run[b + 1].slots[i].cleanup && run[b + 1].slots[i].delSeen == {}
    requires forall r :: b < r < k ==> !Misstruck(run, steps, b, r, i)
    ensures OwnDels(run[k], i)
    decreases k
  {
    hide Inv, Next, Initial, Misstruck, OwnAck;
    if k > b + 1 {
      AllOwnOrMisstruck(run, steps, i, gen, b, k - 1);
      StillIn(run, steps, i, gen, b + 1, k - 1);
      forall a | a in run[k].slots[i].delSeen
        ensures OwnAck(run[k], i, a)
      {
        RunKeeps(run, steps, k - 1);
        if a in run[k - 1].slots[i].delSeen {
          OwnLasts(run[k - 1], steps[k - 1], run[k], i, gen, a);
        } else if !OwnAck(run[k], i, a) {
          ForeignIsMisstruck(run, steps, i, gen, b, k - 1, a);
        }
      }
    }
  }

  /** Cleanup begins with nothing recorded and the same tenancy, and no handler moves. */
  lemma Begun(w: World, x: Step, w': World, i: nat)
    requires Inv(w) && Next(w, x, w') && i < |w.slots| && i < |w'.slots|
    requires !w.slots[i].cleanup && w'.slots[i].cleanup && w'.slots[i].rings
    ensures w'.workers == w.workers && w'.slots[i].delSeen == {}
    ensures w.slots[i].rings && w'.slots[i].gen == w.slots[i].gen
  {
    hide Inv, Hears, Clear;
    if Hears(w, x, w') {
      CleanupHeard(w, x, w', i);
    }
  }

  /** What a handler has matched before a cleanup is of an earlier generation. */
  lemma MatchedIsOld(w: World, h: nat, i: nat)
    requires Inv(w) && OwnIds(w) && h < |w.workers| && i < |w.slots| && w.slots[i].rings && !w.slots[i].cleanup
    ensures var g := w.workers[h].handler; (g.Targeted? || g.Striking?) && g.slot == i ==> g.gen < w.slots[i].gen
  {
    StrikingIs(w, h);
    Sent(w);
    Removing(w);
    hide Inv, OwnIds;
    var g := w.workers[h].handler;
    assert (g.Targeted? || g.Striking?) && g.slot == i ==> AckOk(w, g.ack);
  }

  lemma StrikeRecords(w: World, h: nat, w': World)
    requires Inv(w) && Next(w, Go(h), w') && h < |w.workers| && w.workers[h].handler.Striking?
    ensures var g := w.workers[h].handler; g.slot < |w'.slots| && g.ack in w'.slots[g.slot].delSeen
  {
    hide Inv, Onward;
  }

  lemma MisstruckIsForeign(run: seq<World>, steps: seq<Step>, i: nat, gen: nat, b: nat, r: nat, k: nat)
    requires IsRun(run, steps) && Assigned(steps) && b < r < k && Lasts(run, b + 1, k, i, gen) && Begins(run, b, i)
    requires Misstruck(run, steps, b, r, i)
    ensures !OwnDels(run[k], i)
  {
    var h := steps[r].h;
    var g := run[r].workers[h].handler;
    assert Clutches(run[b + 1], h, g);
    hide Inv, Initial, OwnIds, Clear;
    RunKeeps(run, steps, b);
    RunKeeps(run, steps, r);
    AssignedRun(run, steps, b);
    AssignedRun(run, steps, r);
    hide Next;
    StrikeRecords(run[r], h, run[r + 1]);
    Begun(run[b], steps[b], run[b + 1], i);
    MatchedIsOld(run[b], h, i);
    StrikingIs(run[r], h);
    StillIn(run, steps, i, gen, b + 1, r + 1);
    StillIn(run, steps, i, gen, r + 1, k);
    assert !OwnAck(run[k], i, g.ack);
  }

  /**
   In every run with assigned ids: the removal acknowledgements recorded for a
   cleanup are all its own if and only if no step since it began recorded one
   that a handler had matched to the slot before.
   */
  lemma OwnDelsIff(run: seq<World>, steps: seq<Step>, b: nat, k: nat, i: nat)
    requires IsRun(run, steps) && Assigned(steps) && b < k < |run| && Begins(run, b, i)
    requires Lasts(run, b + 1, k, i, run[b + 1].slots[i].gen)
    ensures OwnDels(run[k], i) <==> forall r :: b < r < k ==> !Misstruck(run, steps, b, r, i)
  {
    var gen := run[b + 1].slots[i].gen;
    hide Next, Initial, OwnDels, Misstruck;
    RunKeeps(run, steps, b);
    Begun(run[b], steps[b], run[b + 1], i);
    if r :| b < r < k && Misstruck(run, steps, b, r, i) {
      MisstruckIsForeign(run, steps, i, gen, b, r, k);
    } else {
      AllOwnOrMisstruck(run, steps, i, gen, b, k);
    }
  }

  // ---- reclaiming is earned ----------------------------------------------

  /** Unit `eu` has acknowledged that it removed the ring of slot `i` of generation `gen`. */
  predicate Parted(w: World, i: nat, gen: nat, eu: nat)
  {
    exists a :: a in w.acks && a.del && a.ok && a.home == i && a.gen == gen && a.eu == eu
  }

  predicate AllParted(w: World, i: nat, gen: nat, eus: set<nat>)
  {
    forall eu :: eu in eus ==> Parted(w, i, gen, eu)
  }

  lemma PartedOnes(w: World, i: nat, gen: nat)
    requires Inv(w) && Leaving(w, i, gen) && OwnDels(w, i) && w.slots[i].delExpected <= w.slots[i].delAcked
    ensures AllParted(w, i, gen, w.slots[i].delExpected)
  {
    Own(w, i);
    hide Inv;
    forall eu | eu in w.slots[i].delExpected
      ensures Parted(w, i, gen, eu)
    {
      var a :| a in w.slots[i].delSeen && a.eu == eu;
      assert OwnAck(w, i, a);
    }
  }

  lemma {:induction false} Awaited(run: seq<World>, steps: seq<Step>, i: nat, gen: nat, r: nat, k: nat)
    requires IsRun(run, steps) && r <= k && Lasts(run, r, k, i, gen) && run[r].slots[i].cleanup
    ensures run[k].slots[i].cleanup && run[k].slots[i].delExpected == run[r].slots[i].delExpected
    decreases k
  {
    hide Inv, Next, Initial;
    if k > r {
      Awaited(run, steps, i, gen, r, k - 1);
      RunKeeps(run, steps, k - 1);
      LeavingStep(run[k - 1], steps[k - 1], run[k], i, gen);
    }
  }

  /**
   In every run with assigned ids: if no step since a cleanup began recorded a
   removal acknowledgement matched before it, the slot is reclaimed only once
   every unit that was running its rings has acknowledged their removal.
   */
  lemma ReclaimIsEarned(run: seq<World>, steps: seq<Step>, b: nat, k: nat, i: nat)
    requires IsRun(run, steps) && Assigned(steps) && b < k < |steps| && Begins(run, b, i) && steps[k] == Reclaim(i)
    requires Lasts(run, b + 1, k, i, run[b + 1].slots[i].gen)
    requires forall r :: b < r < k ==> !Misstruck(run, steps, b, r, i)
    ensures AllParted(run[k], i, run[b + 1].slots[i].gen, run[b + 1].slots[i].delExpected)
  {
    var gen := run[b + 1].slots[i].gen;
    assert Next(run[k], Reclaim(i), run[k + 1]);
    hide Next, Initial, Inv, OwnDels, Misstruck, Parted, Clear;
    RunKeeps(run, steps, k);
    OwnDelsIff(run, steps, b, k, i);
    Awaited(run, steps, i, gen, b + 1, k);
    PartedOnes(run[k], i, gen);
  }

  /** No worker has matched a removal acknowledgement to the slot. */
  predicate Unmatched(w: World, i: nat)
  {
    forall h :: 0 <= h < |w.workers| ==>
      !((w.workers[h].handler.Targeted? || w.workers[h].handler.Striking?) && w.workers[h].handler.slot == i)
  }

  /** No step records such an acknowledgement if none had been matched to the slot when the cleanup began. */
  lemma MisstruckWasMatched(run: seq<World>, steps: seq<Step>, b: nat, r: nat, i: nat)
    requires Misstruck(run, steps, b, r, i)
    ensures !Unmatched(run[b + 1], i)
  {
    assert Clutches(run[b + 1], steps[r].h, run[r].workers[steps[r].h].handler);
  }

  /** The same for any ids, from any state of the cleanup in which nothing can be mistaken for its own. */
  lemma UnstruckReclaimIsEarned(run: seq<World>, steps: seq<Step>, b: nat, k: nat, i: nat, gen: nat)
    requires IsRun(run, steps) && b <= k < |steps| && steps[k] == Reclaim(i)
    requires Lasts(run, b, k, i, gen) && Leaving(run[b], i, gen) && Unstruck(run[b], i) && OwnDels(run[b], i)
    ensures AllParted(run[k], i, gen, run[b].slots[i].delExpected)
  {
    assert Next(run[k], Reclaim(i), run[k + 1]);
    RunKeeps(run, steps, 0);
    RunKeeps(run, steps, k);
    hide Next, Initial, Inv, OwnDels, Unstruck, Parted, Clear;
    UnstruckPath(run, steps, i, gen, b, k);
    Awaited(run, steps, i, gen, b, k);
    PartedOnes(run[k], i, gen);
  }
}
