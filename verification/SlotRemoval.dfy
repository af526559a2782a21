/**
 What a slot in cleanup hears is its own: exactly when every removal
 acknowledgement it records answers the removal of its own rings. A handler
 matches the slot by flag, id and generation and records later without looking
 again, and the worker barrier does not wait for it.
 */
module SlotRemoval {
  import opened SlotLifecycle
  import opened SlotRuns
  import opened SlotTenancy
  import opened SlotIds

  /** Every removal acknowledgement recorded for the tenancy is its own. */
  predicate OwnDels(w: World, i: nat)
    requires i < |w.slots|
  {
    forall a :: a in w.slots[i].delSeen ==> OwnAck(w, i, a)
  }

  /** The removal acknowledgement has been matched, or will be with what the slot's fields now say. */
  predicate Strikes(s: Slot, g: Handler)
  {
    match g
    case Named(a, _) => a.gen == s.gen && a.ok && a.eu in s.delExpected
    case Targeted(a, _, _) => a.ok && a.eu in s.delExpected
    case Striking(_, _, _) => true
    case _ => false
  }

  predicate OwnStrike(w: World, i: nat, g: Handler)
    requires i < |w.slots|
  {
    Deleting(g) && g.slot == i && Strikes(w.slots[i], g) ==> OwnAck(w, i, g.ack)
  }

  predicate OwnStrikes(w: World, i: nat)
    requires i < |w.slots|
  {
    forall h :: 0 <= h < |w.workers| ==> OwnStrike(w, i, w.workers[h].handler)
  }

  /** The removal of another slot's ring was asked for under this tenancy's id and generation, from an awaited unit. */
  predicate ForeignDel(w: World, i: nat, a: Ask)
    requires i < |w.slots|
  {
    && a in w.dels && a.home != i && a.pod == w.slots[i].pod && a.gen == w.slots[i].gen
    && a.eu in w.slots[i].delExpected
  }

  /** Another slot that may still come to have rings removed under the id and generation. */
  predicate Follower(w: World, i: nat, j: nat)
    requires i < |w.slots|
  {
    && j < |w.slots| && j != i
    && var s, t := w.slots[i], w.slots[j];
       || t.gen < s.gen
       || (t.gen == s.gen && t.pod == s.pod && t.rings && !t.cleanup && t.expected * s.delExpected != {})
  }

  /** No other slot has, or will have, rings removed under the slot's id and generation. */
  predicate OwnRemoval(w: World, i: nat)
    requires i < |w.slots|
  {
    && (forall a :: a in w.dels ==> !ForeignDel(w, i, a))
    && (w.slots[i].delExpected != {} ==> forall j :: 0 <= j < |w.slots| ==> !Follower(w, i, j))
  }

  /** Nothing on its way, or yet to come, can be mistaken for an acknowledgement of this removal. */
  predicate Unstruck(w: World, i: nat)
    requires i < |w.slots|
  {
    OwnStrikes(w, i) && OwnRemoval(w, i)
  }

  /** A tenancy in cleanup. */
  predicate Leaving(w: World, i: nat, gen: nat) { Tenancy(w, i, gen) && w.slots[i].cleanup }

  // ---- what is its own stays its own -------------------------------------

  predicate Still(s: Slot, s': Slot)
  {
    s'.pod == s.pod && s'.gen == s.gen && s'.rings == s.rings && s'.delExpected == s.delExpected && s'.cleanup
  }

  lemma LeavingManaged(w: World, x: Step, w': World, i: nat, gen: nat)
    requires Inv(w) && Manages(w, x, w') && Leaving(w, i, gen) && Tenancy(w', i, gen)
    ensures |w'.slots| == |w.slots| && w'.workers == w.workers && w'.acks == w.acks && w.dels <= w'.dels
    ensures Still(w.slots[i], w'.slots[i]) && w'.slots[i].delSeen == w.slots[i].delSeen
  {
    Own(w, i);
    hide Inv, MasksOk, HeardOk, Clear;
  }

  lemma LeavingHeard(w: World, x: Step, w': World, i: nat)
    requires Hears(w, x, w') && i < |w.slots| && w.slots[i].cleanup
    ensures |w'.slots| == |w.slots| && |w'.workers| == |w.workers| && w'.acks == w.acks && w'.dels == w.dels
    ensures Still(w.slots[i], w'.slots[i]) && w.slots[i].delSeen <= w'.slots[i].delSeen
  {
    HearsCore(w, x, w', i);
    if x.Go? {
      var g := w.workers[x.h].handler;
      AfterMild(g, w.slots[g.slot]);
      AfterSeen(g, w.slots[g.slot]);
      AfterCleanup(g, w.slots[g.slot]);
    }
    hide Onward, Finds, After;
  }

  lemma AfterCleanup(g: Handler, s: Slot)
    ensures After(g, s).cleanup == s.cleanup && After(g, s).delExpected == s.delExpected
    ensures After(g, s).expected == s.expected
  {
  }

  /** A step within the cleanup. */
  lemma LeavingStep(w: World, x: Step, w': World, i: nat, gen: nat)
    requires Inv(w) && Next(w, x, w') && Leaving(w, i, gen) && Tenancy(w', i, gen)
    ensures |w'.slots| == |w.slots| && w.acks <= w'.acks && w.dels <= w'.dels
    ensures Still(w.slots[i], w'.slots[i]) && w.slots[i].delSeen <= w'.slots[i].delSeen
    ensures !Hears(w, x, w') ==> w'.workers == w.workers && w'.slots[i].delSeen == w.slots[i].delSeen
  {
    hide Inv, Manages, Hears;
    if Manages(w, x, w') {
      LeavingManaged(w, x, w', i, gen);
    } else if Hears(w, x, w') {
      LeavingHeard(w, x, w', i);
    }
  }

  lemma OwnRemovalManaged(w: World, x: Step, w': World, i: nat, gen: nat)
    requires Inv(w) && Manages(w, x, w') && Leaving(w, i, gen) && Tenancy(w', i, gen) && OwnRemoval(w, i)
    ensures OwnRemoval(w', i)
  {
    LeavingManaged(w, x, w', i, gen);
    Own(w, x.i);
    hide Inv, MasksOk, HeardOk, Clear;
    forall a | a in w'.dels
      ensures !ForeignDel(w', i, a)
    {
      assert a in w.dels ==> !ForeignDel(w, i, a);
      assert a !in w.dels ==> a.home == x.i && a.pod == w.slots[x.i].pod && a.gen == w.slots[x.i].gen
                              && a.eu in w.slots[x.i].expected && w.slots[x.i].rings && !w.slots[x.i].cleanup;
      if a !in w.dels && a.eu in w.slots[i].delExpected {
        assert a.eu in w.slots[x.i].expected * w.slots[i].delExpected;
        assert x.i != i ==> !Follower(w, i, x.i);
      }
    }
    forall j | 0 <= j < |w'.slots| && w'.slots[i].delExpected != {}
      ensures !Follower(w', i, j)
    {
      assert !Follower(w, i, j);
    }
  }

  lemma OwnRemovalHeard(w: World, w': World, i: nat)
    requires i < |w.slots| == |w'.slots| && w'.dels == w.dels && OwnRemoval(w, i) && Still(w.slots[i], w'.slots[i])
    requires forall j :: 0 <= j < |w.slots| ==>
               Core(w.slots[j], w'.slots[j]) && w'.slots[j].cleanup == w.slots[j].cleanup
    ensures OwnRemoval(w', i)
  {
    forall a | a in w'.dels
      ensures !ForeignDel(w', i, a)
    {
      assert !ForeignDel(w, i, a);
    }
    forall j | 0 <= j < |w'.slots| && w'.slots[i].delExpected != {}
      ensures !Follower(w', i, j)
    {
      assert !Follower(w, i, j);
    }
  }

  lemma CleanupHeard(w: World, x: Step, w': World, j: nat)
    requires Hears(w, x, w') && j < |w.slots|
    ensures |w'.slots| == |w.slots| && Core(w.slots[j], w'.slots[j]) && w'.slots[j].cleanup == w.slots[j].cleanup
  {
    HearsCore(w, x, w', j);
    if x.Go? {
      var g := w.workers[x.h].handler;
      AfterCleanup(g, w.slots[g.slot]);
    }
    hide Onward, Finds, After;
  }

  lemma OwnRemovalKept(w: World, x: Step, w': World, i: nat, gen: nat)
    requires Inv(w) && Next(w, x, w') && Leaving(w, i, gen) && Tenancy(w', i, gen) && OwnRemoval(w, i)
    ensures OwnRemoval(w', i)
  {
    hide Inv, OwnRemoval, Hears, Manages;
    if Manages(w, x, w') {
      OwnRemovalManaged(w, x, w', i, gen);
    } else if Speaks(w, x, w') {
      OwnRemovalHeard(w, w', i);
    } else {
      LeavingHeard(w, x, w', i);
      forall j | 0 <= j < |w.slots|
        ensures Core(w.slots[j], w'.slots[j]) && w'.slots[j].cleanup == w.slots[j].cleanup
      {
        CleanupHeard(w, x, w', j);
      }
      OwnRemovalHeard(w, w', i);
    }
  }

  /** Where a worker's step can leave the handler of a removal acknowledgement. */
  lemma DeletingFrom(w: World, x: Step, w': World, h: nat)
    requires Hears(w, x, w') && h < |w.workers| == |w'.workers| && Deleting(w'.workers[h].handler)
    ensures var g, g' := w.workers[h].handler, w'.workers[h].handler;
            || g' == g || g'.Seeking?
            || (Deleting(g) && g.slot < |w.slots| && g' == Onward(g, w.slots[g.slot], |w.slots|))
  {
    hide Finds, After;
  }

  /**
   A handler comes to strike only by reading the slot as it stands, and then for an
   ask under its id and generation.
   */
  lemma OnwardStrikes(w: World, i: nat, g: Handler)
    requires Inv(w) && i < |w.slots| && Unstruck(w, i) && OwnStrike(w, i, g) && HandlerOk(w, g)
    requires Deleting(g) && g.slot < |w.slots|
    requires var g' := Onward(g, w.slots[g.slot], |w.slots|);
             Deleting(g') && g'.slot == i && Strikes(w.slots[i], g')
    ensures OwnAck(w, i, g.ack) && Onward(g, w.slots[g.slot], |w.slots|).ack == g.ack
  {
    Sent(w);
    hide Inv;
    assert AckOk(w, g.ack);
    if g.Spotted? {
      assert !ForeignDel(w, i, Ask(g.ack.pod, g.ack.gen, g.ack.eu, g.ack.home));
    }
  }

  lemma StrikesHeard(w: World, x: Step, w': World, i: nat, gen: nat)
    requires Inv(w) && Hears(w, x, w') && Leaving(w, i, gen) && |w'.slots| == |w.slots| && Unstruck(w, i)
    ensures OwnStrikes(w', i)
  {
    hide Inv, OwnRemoval, Hears, Strikes, Onward;
    LeavingHeard(w, x, w', i);
    forall h | 0 <= h < |w'.workers|
      ensures OwnStrike(w', i, w'.workers[h].handler)
    {
      var g, g' := w.workers[h].handler, w'.workers[h].handler;
      assert OwnStrike(w, i, g);
      SameStrikes(w.slots[i], w'.slots[i], g');
      if Deleting(g') && g'.slot == i && Strikes(w.slots[i], g') {
        DeletingFrom(w, x, w', h);
        NoStrike(w.slots[i], g');
        if g' != g {
          Inside(w, h);
          OnwardStrikes(w, i, g);
        }
      }
    }
  }

  lemma SameStrikes(s: Slot, s': Slot, g: Handler)
    requires Still(s, s')
    ensures Strikes(s', g) == Strikes(s, g)
  {
  }

  lemma NoStrike(s: Slot, g: Handler)
    ensures g.Seeking? ==> !Strikes(s, g)
  {
  }

  lemma DelsHeard(w: World, x: Step, w': World, i: nat, gen: nat)
    requires Inv(w) && Hears(w, x, w') && Leaving(w, i, gen) && |w'.slots| == |w.slots| && OwnDels(w, i) &&
             OwnStrikes(w, i)
    ensures OwnDels(w', i)
  {
    LeavingHeard(w, x, w', i);
    hide Inv, Onward, Finds, After;
    if x.Go? {
      var g := w.workers[x.h].handler;
      assert OwnStrike(w, i, g);
      AfterSeen(g, w.slots[g.slot]);
    }
  }

  lemma UnstruckStep(w: World, x: Step, w': World, i: nat, gen: nat)
    requires Inv(w) && Next(w, x, w') && Leaving(w, i, gen) && Tenancy(w', i, gen)
    requires Unstruck(w, i) && OwnDels(w, i)
    ensures Unstruck(w', i) && OwnDels(w', i) && Leaving(w', i, gen)
  {
    hide Inv, Manages, Speaks, Hears, OwnRemoval, Strikes;
    LeavingStep(w, x, w', i, gen);
    OwnRemovalKept(w, x, w', i, gen);
    if Hears(w, x, w') {
      StrikesHeard(w, x, w', i, gen);
      DelsHeard(w, x, w', i, gen);
    } else {
      forall h | 0 <= h < |w.workers|
        ensures OwnStrike(w', i, w.workers[h].handler)
      {
        assert OwnStrike(w, i, w.workers[h].handler);
        SameStrikes(w.slots[i], w'.slots[i], w.workers[h].handler);
      }
    }
  }

  lemma {:induction false} UnstruckPath(run: seq<World>, steps: seq<Step>, i: nat, gen: nat, b: nat, k: nat)
    requires IsPath(run, steps) && b <= k && Lasts(run, b, k, i, gen) && Leaving(run[b], i, gen)
    requires Inv(run[0]) && Unstruck(run[b], i) && OwnDels(run[b], i)
    ensures Unstruck(run[k], i) && OwnDels(run[k], i) && Leaving(run[k], i, gen)
    decreases k
  {
    hide Inv, Unstruck, OwnDels, Next;
    if k > b {
      UnstruckPath(run, steps, i, gen, b, k - 1);
      PathKeeps(run, steps, k - 1);
      UnstruckStep(run[k - 1], steps[k - 1], run[k], i, gen);
    }
  }
}
