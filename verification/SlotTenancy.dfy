/**
 What a tenancy hears is its own: exactly when every acknowledgement a slot
 records, and every forward completion it takes, was caused by the tenancy it is
 recorded for.
 */
module SlotTenancy {
  import opened SlotLifecycle
  import opened SlotRuns

  // ---- executions within one tenancy -------------------------------------

  predicate Tenancy(w: World, i: nat, gen: nat) { i < |w.slots| && w.slots[i].rings && w.slots[i].gen == gen }

  ghost predicate Goes(run: seq<World>, steps: seq<Step>, i: nat, gen: nat)
  {
    IsPath(run, steps) && forall k :: 0 <= k < |run| ==> Tenancy(run[k], i, gen)
  }

  /** Some execution leads from `w` to `w'` and the tenancy lasts throughout. */
  ghost predicate Within(w: World, w': World, i: nat, gen: nat)
  {
    exists run: seq<World>, steps: seq<Step> :: Goes(run, steps, i, gen) && run[0] == w && run[|steps|] == w'
  }

  lemma Stay(w: World, i: nat, gen: nat)
    requires Tenancy(w, i, gen)
    ensures Within(w, w, i, gen)
  {
    assert Goes([w], [], i, gen);
  }

  lemma Then(w: World, w1: World, x: Step, w2: World, i: nat, gen: nat)
    requires Within(w, w1, i, gen) && Next(w1, x, w2) && Tenancy(w2, i, gen)
    ensures Within(w, w2, i, gen)
  {
    hide Next, Tenancy;
    var run: seq<World>, steps: seq<Step> :| Goes(run, steps, i, gen) && run[0] == w && run[|steps|] == w1;
    assert Goes(run + [w2], steps + [x], i, gen);
  }

  // ---- the masks ---------------------------------------------------------

  /** Every acknowledgement recorded for the tenancy is its own. */
  predicate OwnMasks(w: World, i: nat)
    requires i < |w.slots|
  {
    forall a :: a in w.slots[i].seen ==> OwnAck(w, i, a)
  }

  /** The acknowledgement passes both tests on the generation read, or on the present one if none was read yet. */
  predicate Passes(s: Slot, g: Handler)
  {
    match g
    case Sought(a, _) => s.registered && a.gen == s.gen && a.eu in s.expected
    case Sighted(a, _) => a.gen == s.gen && a.eu in s.expected
    case Peeked(a, _, gen) => a.gen == gen && a.eu in s.expected
    case Decided(a, _, _) => true
    case _ => false
  }

  /** A handler on slot `i` that will record its acknowledgement holds the tenancy's own. */
  predicate OwnHandler(w: World, i: nat, g: Handler)
    requires i < |w.slots|
  {
    Acking(g) && g.slot == i && Passes(w.slots[i], g) ==> OwnAck(w, i, g.ack)
  }

  predicate OwnHandlers(w: World, i: nat)
    requires i < |w.slots|
  {
    forall h :: 0 <= h < |w.workers| ==> OwnHandler(w, i, w.workers[h].handler)
  }

  /** The index leads from the slot's id to the slot. */
  predicate Listed(w: World, i: nat)
    requires i < |w.slots|
  {
    w.slots[i].pod in w.slotOf && w.slotOf[w.slots[i].pod] == i
  }

  /** Another slot's ring was asked for under this tenancy's id and generation. */
  predicate ForeignAsk(w: World, i: nat, a: Ask)
    requires i < |w.slots|
  {
    a in w.adds && a.pod == w.slots[i].pod && a.gen == w.slots[i].gen && a.home != i
  }

  /** Another registered slot bears the id and its next setup will reach this generation. */
  predicate Rival(w: World, i: nat, j: nat)
    requires i < |w.slots|
  {
    && j < |w.slots| && j != i && w.slots[j].registered && w.slots[j].pod == w.slots[i].pod
    && !w.slots[j].rings && w.slots[j].gen + 1 == w.slots[i].gen
  }

  /** Units whose messages matter: all of them, or those expected to acknowledge. */
  predicate Heeded(s: Slot, all: bool, eu: nat) { all || eu in s.expected }

  /** While the slot can be found under its id, no other slot sends under that id and generation, or is about to. */
  predicate OwnId(w: World, i: nat, all: bool)
    requires i < |w.slots|
  {
    Listed(w, i) ==>
      && (forall a :: a in w.adds && Heeded(w.slots[i], all, a.eu) ==> !ForeignAsk(w, i, a))
      && (all || w.slots[i].expected != {} ==> forall j :: 0 <= j < |w.slots| ==> !Rival(w, i, j))
  }

  /** Nothing on its way can be mistaken for an acknowledgement of this tenancy. */
  predicate Undisturbed(w: World, i: nat)
    requires i < |w.slots|
  {
    OwnHandlers(w, i) && OwnId(w, i, false)
  }

  // ---- what is its own stays its own -------------------------------------

  /** What a step within the tenancy may change of the slot. */
  predicate Core(s: Slot, s': Slot)
  {
    s'.pod == s.pod && s'.expected == s.expected && s'.gen == s.gen && s'.rings == s.rings
  }

  lemma OnIts(w: World, x: Step, w': World, i: nat, gen: nat)
    requires Inv(w) && Next(w, x, w') && Tenancy(w, i, gen) && Tenancy(w', i, gen)
    ensures |w'.slots| == |w.slots| && |w'.workers| == |w.workers| && Core(w.slots[i], w'.slots[i])
    ensures w.acks <= w'.acks && w.adds <= w'.adds && w.fwds <= w'.fwds
  {
    Own(w, i);
    hide Inv, MasksOk, HeardOk;
    if Manages(w, x, w') {
      assert |w'.slots| == |w.slots|;
    } else if Speaks(w, x, w') {
    } else {
      hide Manages, Speaks, Clear;
      HearsCore(w, x, w', i);
    }
  }

  lemma HearsCore(w: World, x: Step, w': World, i: nat)
    requires Hears(w, x, w') && i < |w.slots|
    ensures |w'.slots| == |w.slots| && |w'.workers| == |w.workers| && Core(w.slots[i], w'.slots[i])
    ensures w'.slotOf == w.slotOf && w'.adds == w.adds && w'.dels == w.dels && w'.acks == w.acks && w'.fwds == w.fwds
    ensures w'.slots[i].registered == w.slots[i].registered
  {
    hide Onward, Finds;
    if x.Go? {
      var g := w.workers[x.h].handler;
      AfterMild(g, w.slots[g.slot]);
      assert After(g, w.slots[g.slot]).expected == w.slots[g.slot].expected;
      hide After;
    }
  }

  lemma OwnIdManaged(w: World, x: Step, w': World, i: nat, gen: nat, all: bool)
    requires Inv(w) && Manages(w, x, w') && Tenancy(w, i, gen) && Tenancy(w', i, gen) && OwnId(w, i, all)
    ensures OwnId(w', i, all)
  {
    OnIts(w, x, w', i, gen);
    Own(w, i);
    if x.Setup? || x.Reclaim? {
      Own(w, x.i);
    }
    hide Inv, MasksOk, HeardOk, Clear;
    if Listed(w', i) {
      assert Listed(w, i);
      forall a | a in w'.adds && Heeded(w'.slots[i], all, a.eu)
        ensures !ForeignAsk(w', i, a)
      {
        if x.Setup? && a !in w.adds {
          assert a.home == x.i && a.pod == w.slots[x.i].pod && a.gen == w.slots[x.i].gen + 1;
          assert !Rival(w, i, x.i);
        } else {
          assert !ForeignAsk(w, i, a);
        }
      }
      forall j | 0 <= j < |w'.slots| && (all || w'.slots[i].expected != {})
        ensures !Rival(w', i, j)
      {
        assert !Rival(w, i, j);
      }
    }
  }

  lemma OwnIdHeard(w: World, w': World, i: nat, all: bool)
    requires i < |w.slots| && |w'.slots| == |w.slots| && w'.slotOf == w.slotOf && w'.adds == w.adds
    requires forall j :: 0 <= j < |w.slots| ==>
               Core(w.slots[j], w'.slots[j]) && w'.slots[j].registered == w.slots[j].registered
    requires OwnId(w, i, all)
    ensures OwnId(w', i, all)
  {
    if Listed(w', i) {
      assert Listed(w, i);
      forall a | a in w'.adds && Heeded(w'.slots[i], all, a.eu)
        ensures !ForeignAsk(w', i, a)
      {
        assert !ForeignAsk(w, i, a);
      }
      forall j | 0 <= j < |w'.slots| && (all || w'.slots[i].expected != {})
        ensures !Rival(w', i, j)
      {
        assert !Rival(w, i, j);
      }
    }
  }

  /** The id stays the tenancy's own whatever any thread does. */
  lemma OwnIdKept(w: World, x: Step, w': World, i: nat, gen: nat, all: bool)
    requires Inv(w) && Next(w, x, w') && Tenancy(w, i, gen) && Tenancy(w', i, gen) && OwnId(w, i, all)
    ensures OwnId(w', i, all)
  {
    hide Inv, OwnId, Hears, Manages;
    if Manages(w, x, w') {
      OwnIdManaged(w, x, w', i, gen, all);
    } else if Speaks(w, x, w') {
      OwnIdHeard(w, w', i, all);
    } else {
      forall j | 0 <= j < |w.slots|
        ensures |w'.slots| == |w.slots| && w'.slotOf == w.slotOf && w'.adds == w.adds
        ensures Core(w.slots[j], w'.slots[j]) && w'.slots[j].registered == w.slots[j].registered
      {
        HearsCore(w, x, w', j);
      }
      OwnIdHeard(w, w', i, all);
    }
  }

  /** Steps other than the workers' leave handlers and masks alone. */
  lemma OthersQuiet(w: World, x: Step, w': World, i: nat, gen: nat)
    requires Inv(w) && (Manages(w, x, w') || Speaks(w, x, w')) && Tenancy(w, i, gen) && Tenancy(w', i, gen)
    ensures w'.workers == w.workers && w'.slots[i].seen == w.slots[i].seen && w'.slots[i].taken == w.slots[i].taken
    ensures w'.slots[i].registered ==> w.slots[i].registered
  {
    Own(w, i);
    hide Inv, MasksOk, HeardOk, Clear;
  }

  /** A fresh look finds only what the id's owner sent. */
  lemma LookIsOwn(w: World, h: nat, ack: Ack, w': World, i: nat)
    requires Inv(w) && Hears(w, Look(h, ack), w') && i < |w.slots| && OwnId(w, i, false)
    ensures OwnHandler(w, i, w'.workers[h].handler)
  {
    Sent(w);
    hide Inv;
    assert AckOk(w, ack);
    var g := w'.workers[h].handler;
    if g.slot == i && Passes(w.slots[i], g) {
      assert Listed(w, i);
      assert !ForeignAsk(w, i, Ask(ack.pod, ack.gen, ack.eu, ack.home));
    }
  }

  /** Where a worker's step can leave a handler, as far as acknowledgements go. */
  lemma HandlerHeard(w: World, x: Step, w': World, h: nat)
    requires Hears(w, x, w') && h < |w.workers| == |w'.workers|
    ensures var g, g' := w.workers[h].handler, w'.workers[h].handler;
            || g' == g || (x.Look? && x.h == h) || !Acking(g')
            || (Acking(g) && g.slot < |w.slots| && g' == Onward(g, w.slots[g.slot], |w.slots|))
  {
  }

  lemma OnwardPasses(s: Slot, g: Handler, n: nat)
    requires Acking(g) && Passes(s, Onward(g, s, n))
    ensures Passes(s, g) && Acking(Onward(g, s, n)) && Onward(g, s, n).ack == g.ack && Onward(g, s, n).slot == g.slot
  {
  }

  lemma HandlersHeard(w: World, x: Step, w': World, i: nat)
    requires Inv(w) && Hears(w, x, w') && i < |w.slots| && |w'.slots| == |w.slots| && Undisturbed(w, i)
    ensures OwnHandlers(w', i)
  {
    HearsCore(w, x, w', i);
    forall h | 0 <= h < |w'.workers|
      ensures OwnHandler(w', i, w'.workers[h].handler)
    {
      hide Inv, OwnId, Hears, Onward;
      var g, g' := w.workers[h].handler, w'.workers[h].handler;
      assert OwnHandler(w, i, g);
      HandlerHeard(w, x, w', h);
      if x.Look? && h == x.h {
        LookIsOwn(w, h, x.ack, w', i);
      } else if Acking(g) && g.slot < |w.slots| && Passes(w.slots[i], g')
                && g' == Onward(g, w.slots[g.slot], |w.slots|) {
        if Passes(w.slots[g.slot], g') {
          OnwardPasses(w.slots[g.slot], g, |w.slots|);
        } else {
          OnwardSlot(w.slots[g.slot], g, |w.slots|);
        }
      }
    }
  }

  lemma OnwardSlot(s: Slot, g: Handler, n: nat)
    requires Acking(g) && !Onward(g, s, n).Idle?
    ensures Onward(g, s, n).slot == g.slot
  {
  }

  lemma AfterSeen(g: Handler, s: Slot)
    ensures After(g, s).seen == if g.Decided? then s.seen + {g.ack} else s.seen
    ensures After(g, s).delSeen == if g.Striking? then s.delSeen + {g.ack} else s.delSeen
    ensures After(g, s).taken == if g.Matched? && s.gen == g.fwd.gen then s.taken + {g.fwd} else s.taken
  {
  }

  lemma MasksHeard(w: World, x: Step, w': World, i: nat)
    requires Hears(w, x, w') && i < |w.slots| && |w'.slots| == |w.slots| && OwnMasks(w, i) && OwnHandlers(w, i)
    ensures OwnMasks(w', i)
  {
    HearsCore(w, x, w', i);
    hide Onward, Finds, After;
    if x.Go? {
      var g := w.workers[x.h].handler;
      assert OwnHandler(w, i, g);
      AfterSeen(g, w.slots[g.slot]);
    }
  }

  lemma UndisturbedStep(w: World, x: Step, w': World, i: nat, gen: nat)
    requires Inv(w) && Next(w, x, w') && Tenancy(w, i, gen) && Tenancy(w', i, gen)
    requires Undisturbed(w, i) && OwnMasks(w, i)
    ensures Undisturbed(w', i) && OwnMasks(w', i)
  {
    hide Inv, Manages, Speaks, Hears, OwnId;
    OnIts(w, x, w', i, gen);
    OwnIdKept(w, x, w', i, gen, false);
    if Hears(w, x, w') {
      HandlersHeard(w, x, w', i);
      MasksHeard(w, x, w', i);
    } else {
      OthersQuiet(w, x, w', i, gen);
      forall h | 0 <= h < |w.workers|
        ensures OwnHandler(w', i, w.workers[h].handler)
      {
        assert OwnHandler(w, i, w.workers[h].handler);
      }
    }
  }

  /** The tenancy lasts from state `b` to state `k`. */
  ghost predicate Lasts(run: seq<World>, b: nat, k: nat, i: nat, gen: nat)
  {
    k < |run| && forall q :: b <= q <= k ==> Tenancy(run[q], i, gen)
  }

  lemma {:induction false} UndisturbedPath(run: seq<World>, steps: seq<Step>, i: nat, gen: nat, b: nat, k: nat)
    requires IsPath(run, steps) && b <= k && Lasts(run, b, k, i, gen)
    requires Inv(run[0]) && Undisturbed(run[b], i) && OwnMasks(run[b], i)
    ensures Undisturbed(run[k], i) && OwnMasks(run[k], i)
    decreases k
  {
    hide Inv, Undisturbed, OwnMasks, Next;
    if k > b {
      UndisturbedPath(run, steps, i, gen, b, k - 1);
      PathKeeps(run, steps, k - 1);
      UndisturbedStep(run[k - 1], steps[k - 1], run[k], i, gen);
    }
  }
}
