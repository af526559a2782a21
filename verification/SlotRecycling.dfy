/**
 The converse of SlotRemoval: whenever another slot has, or can still come to
 have, rings removed under the id and generation of a slot in cleanup, there is
 an execution in which the acknowledgement of that removal is recorded for the
 slot. Other slots are cleaned up, reclaimed and used again until it is.
 */
module SlotRecycling {
  import opened SlotLifecycle
  import opened SlotRuns
  import opened SlotTenancy
  import opened SlotMixups
  import opened SlotRemoval

  predicate AllIdle(w: World)
  {
    |w.workers| > 0 && forall h :: 0 <= h < |w.workers| ==> w.workers[h].handler.Idle?
  }

  /** Reached from `b` within the cleanup of slot `i`, with all workers between two messages. */
  ghost predicate At(b: World, w: World, i: nat, gen: nat)
  {
    Inv(w) && Within(b, w, i, gen) && Leaving(w, i, gen) && AllIdle(w)
  }

  /** Of the slots only number `k` has changed. */
  predicate Only(w: World, w': World, k: nat)
  {
    && |w'.slots| == |w.slots| && w.dels <= w'.dels
    && forall j :: 0 <= j < |w.slots| && j != k ==> w'.slots[j] == w.slots[j]
  }

  /** The first slot that matches. */
  predicate First(w: World, k: nat, pod: int, gen: nat)
  {
    k < |w.slots| && Matches(w.slots[k], pod, gen) && forall q :: 0 <= q < k ==> !Matches(w.slots[q], pod, gen)
  }

  // ---- steps -------------------------------------------------------------

  /** All handlers come to their end. */
  lemma FreeAll(b: World, w: World, i: nat, gen: nat, m: nat) returns (w': World)
    requires Inv(w) && Within(b, w, i, gen) && Tenancy(w, i, gen) && m <= |w.workers|
    ensures Inv(w') && Within(b, w', i, gen) && Alike(w, w') && |w'.workers| == |w.workers|
    ensures forall h :: 0 <= h < m ==> w'.workers[h].handler.Idle?
  {
    hide Inv, Within, Tenancy, Alike;
    if m == 0 {
      AlikeSelf(w);
      w' := w;
    } else {
      var w1 := FreeAll(b, w, i, gen, m - 1);
      AlikeTenancy(w, w1, i, gen);
      w' := FreeUp(b, w1, i, gen, m - 1);
      AlikeSizes(w1, w');
      AlikeThen(w, w1, w');
    }
  }

  lemma Manage(b: World, w: World, x: Step, w': World, i: nat, gen: nat)
    requires At(b, w, i, gen) && Manages(w, x, w') && x.i != i
    ensures At(b, w', i, gen) && Only(w, w', x.i)
  {
    hide Inv, Within, Clear;
    StepKeeps(w, x, w');
    assert Only(w, w', x.i) && w'.workers == w.workers;
    Then(b, w, x, w', i, gen);
  }

  lemma OnlyThen(w: World, w1: World, w2: World, k: nat)
    requires Only(w, w1, k) && Only(w1, w2, k)
    ensures Only(w, w2, k)
  {
  }

  // ---- one acknowledgement is heard --------------------------------------

  /** The handler is on its way to slot `k`, which is the first to match. */
  predicate OnTrack(w: World, g: Handler, k: nat)
  {
    && Deleting(g) && g.slot <= k < |w.slots| && First(w, k, g.ack.pod, g.ack.gen)
    && g.ack.ok && g.ack.eu in w.slots[k].delExpected
    && (!g.Seeking? ==> w.slots[g.slot].cleanup) && (g.Named? ==> w.slots[g.slot].pod == g.ack.pod)
    && (g.Targeted? || g.Striking? ==> g.slot == k)
  }

  lemma TrackStep(w: World, h: nat, k: nat)
    requires h < |w.workers| && OnTrack(w, w.workers[h].handler, k)
    ensures var g, w' := w.workers[h].handler, Gone(w, h);
            && |w'.workers| == |w.workers|
            && (forall q :: 0 <= q < |w.workers| && q != h ==> w'.workers[q] == w.workers[q])
            && if g.Striking? then w' == w.(slots := w.slots[k := RecordedDel(w.slots[k], g.ack)],
                                            workers := w'.workers)
                                   && w'.workers[h].handler.Idle?
               else w' == w.(workers := w'.workers) && w'.workers[h].handler.ack == g.ack
                    && OnTrack(w', w'.workers[h].handler, k)
  {
    var g := w.workers[h].handler;
    assert g.slot < k ==> !Matches(w.slots[g.slot], g.ack.pod, g.ack.gen);
    if !g.Striking? {
      assert After(g, w.slots[g.slot]) == w.slots[g.slot];
      assert Gone(w, h).slots == w.slots;
    }
  }

  /** Only worker 0 is busy. */
  predicate OneBusy(w: World)
  {
    |w.workers| > 0 && forall h :: 0 < h < |w.workers| ==> w.workers[h].handler.Idle?
  }

  lemma Walk(b: World, w: World, i: nat, gen: nat, k: nat) returns (w': World)
    requires Inv(w) && Within(b, w, i, gen) && Leaving(w, i, gen) && OneBusy(w) && OnTrack(w, w.workers[0].handler, k)
    ensures At(b, w', i, gen) && w'.dels == w.dels && w'.slotOf == w.slotOf
    ensures w'.slots == w.slots[k := RecordedDel(w.slots[k], w.workers[0].handler.ack)]
    decreases Rank(w.workers[0].handler, |w.slots|)
  {
    hide Inv, Within, Next, OnTrack, Gone, Rank, First, RecordedDel;
    var g := w.workers[0].handler;
    Tracked(w, 0, k);
    GoAlike(w, 0);
    GoCloser(w, 0);
    TrackStep(w, 0, k);
    var w1 := Gone(w, 0);
    StepKeeps(w, Go(0), w1);
    StillLeaving(w, w1, i, gen, k, g.ack);
    Then(b, w, Go(0), w1, i, gen);
    if g.Striking? {
      w' := w1;
    } else {
      w' := Walk(b, w1, i, gen, k);
    }
  }

  lemma Tracked(w: World, h: nat, k: nat)
    requires h < |w.workers| && OnTrack(w, w.workers[h].handler, k)
    ensures Busy(w, h) && Deleting(w.workers[h].handler) && k < |w.slots|
  {
  }

  lemma StillLeaving(w: World, w1: World, i: nat, gen: nat, k: nat, a: Ack)
    requires Leaving(w, i, gen) && k < |w.slots|
    requires w1.slots == w.slots || w1.slots == w.slots[k := RecordedDel(w.slots[k], a)]
    ensures Leaving(w1, i, gen)
  {
  }

  /** The removal of a ring is acknowledged and recorded in the first slot that matches. */
  lemma Deliver(b: World, w: World, i: nat, gen: nat, k: nat, a: Ask) returns (w': World)
    requires At(b, w, i, gen) && a in w.dels && First(w, k, a.pod, a.gen) && a.eu in w.slots[k].delExpected
    ensures At(b, w', i, gen) && w'.dels == w.dels && w'.slotOf == w.slotOf
    ensures w'.slots == w.slots[k := RecordedDel(w.slots[k], Answered(a, true, true))]
  {
    hide Inv, Within, First, RecordedDel;
    var ack := Answered(a, true, true);
    var w1 := w.(acks := w.acks + {ack});
    assert Speaks(w, AnswerDel(a), w1);
    StepKeeps(w, AnswerDel(a), w1);
    Then(b, w, AnswerDel(a), w1, i, gen);
    var w2 := SetHandler(w1, 0, Seeking(ack, 0));
    assert Hears(w1, Seek(0, ack), w2);
    StepKeeps(w1, Seek(0, ack), w2);
    Then(b, w1, Seek(0, ack), w2, i, gen);
    FirstSame(w, w2, k, a.pod, a.gen);
    w' := Walk(b, w2, i, gen, k);
  }

  lemma FirstSame(w: World, w': World, k: nat, pod: int, gen: nat)
    requires First(w, k, pod, gen) && w'.slots == w.slots
    ensures First(w', k, pod, gen) && k < |w.slots|
  {
  }

  // ---- a slot in cleanup is reclaimed ------------------------------------

  predicate Nearer(s: Slot, s': Slot) { s'.delExpected - s'.delAcked < s.delExpected - s.delAcked }

  /** One more unit that slot `k` waits for is heard. */
  lemma AckOne(b: World, w: World, i: nat, gen: nat, k: nat) returns (w': World)
    requires At(b, w, i, gen) && k < |w.slots| && k != i && First(w, k, w.slots[k].pod, w.slots[k].gen)
    requires !(w.slots[k].delExpected <= w.slots[k].delAcked)
    ensures At(b, w', i, gen) && Only(w, w', k) && First(w', k, w.slots[k].pod, w.slots[k].gen)
    ensures Firm(w.slots[k], w'.slots[k]) && Nearer(w.slots[k], w'.slots[k])
  {
    hide At;
    var s := w.slots[k];
    var eu :| eu in s.delExpected && eu !in s.delAcked;
    AskedFor(b, w, i, gen, k, eu);
    w' := Deliver(b, w, i, gen, k, Ask(s.pod, s.gen, eu, k));
    assert forall q :: 0 <= q < k ==> w'.slots[q] == w.slots[q];
    assert eu in s.delExpected - s.delAcked && eu !in s.delExpected - w'.slots[k].delAcked;
  }

  lemma AckAll(b: World, w: World, i: nat, gen: nat, k: nat) returns (w': World)
    requires At(b, w, i, gen) && k < |w.slots| && k != i && First(w, k, w.slots[k].pod, w.slots[k].gen)
    ensures At(b, w', i, gen) && Only(w, w', k) && w'.slots[k].delExpected <= w'.slots[k].delAcked
    ensures Firm(w.slots[k], w'.slots[k]) && w'.slots[k].cleanup
    decreases w.slots[k].delExpected - w.slots[k].delAcked
  {
    hide At, Only;
    var s := w.slots[k];
    if s.delExpected <= s.delAcked {
      w' := w;
      Itself(w, k);
    } else {
      var w1 := AckOne(b, w, i, gen, k);
      Spans(w, w1, k);
      w' := AckAll(b, w1, i, gen, k);
      OnlyThen(w, w1, w', k);
      Spans(w1, w', k);
    }
  }

  lemma Itself(w: World, k: nat)
    ensures Only(w, w, k)
  {
  }

  lemma Spans(w: World, w': World, k: nat)
    requires Only(w, w', k)
    ensures |w'.slots| == |w.slots|
  {
  }

  lemma AskedFor(b: World, w: World, i: nat, gen: nat, k: nat, eu: nat)
    requires At(b, w, i, gen) && k < |w.slots| && w.slots[k].cleanup && eu in w.slots[k].delExpected
    ensures Ask(w.slots[k].pod, w.slots[k].gen, eu, k) in w.dels
  {
    Removing(w);
    hide Inv;
  }

  /** Every unit acknowledges and the slot is reclaimed. */
  lemma Vacate(b: World, w: World, i: nat, gen: nat, k: nat) returns (w': World)
    requires At(b, w, i, gen) && k < |w.slots| && k != i && First(w, k, w.slots[k].pod, w.slots[k].gen)
    ensures At(b, w', i, gen) && Only(w, w', k) && !w'.slots[k].cleanup && w'.slots[k].gen == w.slots[k].gen
  {
    var w1 := AckAll(b, w, i, gen, k);
    w' := Put(w1, k, Reclaimed(w1.slots[k]));
    assert Manages(w1, Reclaim(k), w');
    hide At;
    Manage(b, w1, Reclaim(k), w', i, gen);
    OnlyThen(w, w1, w', k);
  }

  /** No slot below `m` matches any more. */
  lemma ClearTargets(b: World, w: World, i: nat, gen: nat, m: nat, pod: int, g: nat) returns (w': World)
    requires At(b, w, i, gen) && m <= |w.slots| && (i < m ==> !Matches(w.slots[i], pod, g))
    ensures At(b, w', i, gen) && |w'.slots| == |w.slots| && w.dels <= w'.dels
    ensures forall q :: 0 <= q < m ==> !Matches(w'.slots[q], pod, g)
    ensures forall q :: 0 <= q < |w.slots| && (q >= m || q == i) ==> w'.slots[q] == w.slots[q]
  {
    hide At;
    if m == 0 {
      w' := w;
    } else {
      var w1 := ClearTargets(b, w, i, gen, m - 1, pod, g);
      if Matches(w1.slots[m - 1], pod, g) {
        assert m - 1 != i by { Indices(b, w, i, gen); }
        w' := Vacate(b, w1, i, gen, m - 1);
      } else {
        w' := w1;
      }
      Indices(b, w, i, gen);
    }
  }

  lemma Indices(b: World, w: World, i: nat, gen: nat)
    requires At(b, w, i, gen)
    ensures i < |w.slots| && w.slots[i].cleanup && w.slots[i].gen == gen && 0 <= w.slots[i].pod < POD_ID_SPACE
  {
    Own(w, i);
    hide Inv;
  }

  // ---- a slot is made ready to register ----------------------------------

  /** New connections take all slots below `m` that can be used. */
  lemma Fill(b: World, w: World, i: nat, gen: nat, m: nat) returns (w': World)
    requires At(b, w, i, gen) && m <= |w.slots|
    ensures At(b, w', i, gen) && |w'.slots| == |w.slots|
    ensures forall q :: 0 <= q < m ==> !Reusable(w'.slots[q])
    ensures forall q :: 0 <= q < |w.slots| && (q >= m || q == i) ==> w'.slots[q] == w.slots[q]
  {
    hide At;
    Indices(b, w, i, gen);
    if m == 0 {
      w' := w;
    } else {
      var w1 := Fill(b, w, i, gen, m - 1);
      if Reusable(w1.slots[m - 1]) {
        w' := Put(w1, m - 1, Connected(w1.slots[m - 1]));
        assert Manages(w1, Connect(m - 1), w');
        Manage(b, w1, Connect(m - 1), w', i, gen);
      } else {
        w' := w1;
      }
    }
  }

  /** Connected, with nothing left of an earlier tenancy. */
  predicate Fresh(s: Slot) { s.conn && !s.registered && !s.cleanup && !s.rings && s.initPending && !s.ready }

  lemma Settled(b: World, w: World, i: nat, gen: nat, j: nat)
    requires At(b, w, i, gen) && j < |w.slots|
    ensures FlagsOk(w.slots[j])
  {
    Own(w, j);
    hide Inv;
  }

  /** A slot that is not in cleanup registers off and is reclaimed, without a unit to wait for. */
  lemma Empty(b: World, w: World, i: nat, gen: nat, j: nat) returns (w': World)
    requires At(b, w, i, gen) && j < |w.slots| && j != i && w.slots[j].conn && !w.slots[j].cleanup &&
             w.slots[j].pod >= 0
    ensures At(b, w', i, gen) && Only(w, w', j) && Fresh(w'.slots[j]) && w'.slots[j].gen == w.slots[j].gen
    ensures w'.slotOf == Cleared(w.slotOf, w.slots[j].pod)
  {
    var w1 := Leaves(w, j, {}, true);
    assert Manages(w, Unregister(j, {}), w1);
    Manage(b, w, Unregister(j, {}), w1, i, gen);
    w' := Put(w1, j, Reclaimed(w1.slots[j]));
    assert Manages(w1, Reclaim(j), w');
    hide At;
    Manage(b, w1, Reclaim(j), w', i, gen);
    OnlyThen(w, w1, w', j);
  }

  /** A slot not in cleanup becomes fresh. */
  lemma Refresh(b: World, w: World, i: nat, gen: nat, j: nat) returns (w': World)
    requires At(b, w, i, gen) && j < |w.slots| && j != i && !w.slots[j].cleanup
    ensures At(b, w', i, gen) && |w'.slots| == |w.slots| && w'.slots[i] == w.slots[i]
    ensures Fresh(w'.slots[j]) && w'.slots[j].gen == w.slots[j].gen
  {
    hide At;
    Indices(b, w, i, gen);
    Settled(b, w, i, gen, j);
    if w.slots[j].registered {
      w' := Empty(b, w, i, gen, j);
    } else if w.slots[j].conn {
      w' := w;
    } else {
      var w1 := Fill(b, w, i, gen, j);
      w' := Put(w1, j, Connected(w1.slots[j]));
      assert Manages(w1, Connect(j), w');
      Manage(b, w1, Connect(j), w', i, gen);
    }
  }

  /** An earlier cleanup of the slot comes to its end. */
  lemma Recover(b: World, w: World, i: nat, gen: nat, j: nat) returns (w': World)
    requires At(b, w, i, gen) && j < |w.slots| && j != i && w.slots[j].gen < gen
    ensures At(b, w', i, gen) && |w'.slots| == |w.slots| && w'.slots[i] == w.slots[i]
    ensures !w'.slots[j].cleanup && w'.slots[j].gen == w.slots[j].gen
  {
    hide At;
    Indices(b, w, i, gen);
    if w.slots[j].cleanup {
      var w1 := ClearTargets(b, w, i, gen, j, w.slots[j].pod, w.slots[j].gen);
      w' := Vacate(b, w1, i, gen, j);
    } else {
      w' := w;
    }
  }

  /** The id is given up by whoever bears it. */
  lemma FreeId(b: World, w: World, i: nat, gen: nat, j: nat, pod: int) returns (w': World)
    requires At(b, w, i, gen) && j < |w.slots| && j != i && Fresh(w.slots[j])
    ensures At(b, w', i, gen) && |w'.slots| == |w.slots| && w'.slots[i] == w.slots[i] && w'.slots[j] == w.slots[j]
    ensures pod !in w'.slotOf
  {
    if pod in w.slotOf {
      Holder(b, w, i, gen, pod);
      hide At;
      Indices(b, w, i, gen);
      Settled(b, w, i, gen, w.slotOf[pod]);
      w' := Empty(b, w, i, gen, w.slotOf[pod]);
    } else {
      w' := w;
    }
  }

  lemma Holder(b: World, w: World, i: nat, gen: nat, pod: int)
    requires At(b, w, i, gen) && pod in w.slotOf
    ensures w.slotOf[pod] < |w.slots| && w.slots[w.slotOf[pod]].registered && w.slots[w.slotOf[pod]].pod == pod
  {
    Indexed(w);
    hide Inv;
    assert Finds(w, pod);
  }

  // ---- until its removal bears the id and generation ---------------------

  /** The slot is set up on one unit under the id. */
  lemma Serve(b: World, w: World, i: nat, gen: nat, j: nat, pod: int, eu: nat) returns (w': World)
    requires At(b, w, i, gen) && j < |w.slots| && j != i && Fresh(w.slots[j])
    requires 0 <= pod < POD_ID_SPACE && pod !in w.slotOf
    ensures At(b, w', i, gen) && Only(w, w', j) && w'.slots[j].conn && w'.slots[j].pod == pod && !w'.slots[j].cleanup
    ensures w'.slots[j].gen == w.slots[j].gen + 1 && w'.slots[j].expected == {eu}
    ensures w'.slotOf == w.slotOf[pod := j]
  {
    hide At;
    var w1 := w.(slots := w.slots[j := w.slots[j].(pod := pod, registered := true)], slotOf := w.slotOf[pod := j]);
    assert Manages(w, Register(j, pod), w1);
    Manage(b, w, Register(j, pod), w1, i, gen);
    var w2 := Put(w1, j, w1.slots[j].(imported := true));
    assert Manages(w1, Import(j), w2);
    Manage(b, w1, Import(j), w2, i, gen);
    OnlyThen(w, w1, w2, j);
    w' := w2.(slots := w2.slots[j := SetUp(w2.slots[j], {eu})],
              adds := w2.adds + Asks(pod, w2.slots[j].gen + 1, {eu}, j));
    assert Manages(w2, Setup(j, {eu}), w');
    Manage(b, w2, Setup(j, {eu}), w', i, gen);
    OnlyThen(w, w2, w', j);
  }

  /** Tenancy after tenancy, the slot reaches the generation and then leaves. */
  lemma Cycle(b: World, w: World, i: nat, gen: nat, j: nat, eu: nat) returns (w': World, a: Ask)
    requires At(b, w, i, gen) && j < |w.slots| && j != i && i < |w.slots| && Fresh(w.slots[j]) && w.slots[j].gen < gen
    requires w.slots[i].pod !in w.slotOf && eu in w.slots[i].delExpected
    ensures At(b, w', i, gen) && |w'.slots| == |w.slots| && ForeignDel(w', i, a)
    decreases gen - w.slots[j].gen
  {
    hide At;
    Indices(b, w, i, gen);
    var pod := w.slots[i].pod;
    var w1 := Serve(b, w, i, gen, j, pod, eu);
    if w1.slots[j].gen == gen {
      w', a := AsksToLeave(b, w1, i, gen, j, eu);
    } else {
      var w2 := Empty(b, w1, i, gen, j);
      w', a := Cycle(b, w2, i, gen, j, eu);
    }
  }

  /** The slot leaves with one unit still running. */
  lemma AsksToLeave(b: World, w: World, i: nat, gen: nat, j: nat, eu: nat) returns (w': World, a: Ask)
    requires At(b, w, i, gen) && j < |w.slots| && j != i && i < |w.slots| && eu in w.slots[i].delExpected
    requires var t := w.slots[j]; t.conn && !t.cleanup && eu in t.expected && t.gen == gen && t.pod == w.slots[i].pod
    ensures At(b, w', i, gen) && |w'.slots| == |w.slots| && ForeignDel(w', i, a)
  {
    hide At;
    Indices(b, w, i, gen);
    w' := Leaves(w, j, {eu}, true);
    assert Manages(w, Unregister(j, {eu}), w');
    Manage(b, w, Unregister(j, {eu}), w', i, gen);
    a := Ask(w.slots[j].pod, gen, eu, j);
    assert a in Asks(w.slots[j].pod, gen, w.slots[j].expected * {eu}, j);
  }

  // ---- the acknowledgement is recorded -----------------------------------

  /** Some execution within the cleanup records an acknowledgement that is not its own. */
  ghost predicate Mistakes(w: World, i: nat, gen: nat)
  {
    exists w' :: Within(w, w', i, gen) && i < |w'.slots| && !OwnDels(w', i)
  }

  lemma Mistaken(b: World, w: World, i: nat, gen: nat, a: Ack)
    requires Within(b, w, i, gen) && Tenancy(w, i, gen) && a in w.slots[i].delSeen && !(a.home == i && a.gen == gen)
    ensures Mistakes(b, i, gen)
  {
    hide Within;
    assert !OwnAck(w, i, a);
  }

  /** The removal of another slot's ring under the id and generation is acknowledged to this slot. */
  lemma StrikesForeign(b: World, w: World, i: nat, gen: nat, a: Ask)
    requires At(b, w, i, gen) && i < |w.slots| && ForeignDel(w, i, a)
    ensures Mistakes(b, i, gen)
  {
    hide At, Mistakes;
    Indices(b, w, i, gen);
    var w1 := ClearTargets(b, w, i, gen, i, a.pod, gen);
    var w2 := Deliver(b, w1, i, gen, i, a);
    Reached(b, w2, i, gen);
    Mistaken(b, w2, i, gen, Answered(a, true, true));
  }

  lemma Reached(b: World, w: World, i: nat, gen: nat)
    requires At(b, w, i, gen)
    ensures Within(b, w, i, gen) && Tenancy(w, i, gen)
  {
    hide Inv, Within;
  }

  lemma FollowerStrikes(b: World, w: World, i: nat, gen: nat, j: nat)
    requires At(b, w, i, gen) && i < |w.slots| && Follower(w, i, j) && w.slots[i].delExpected != {}
    ensures Mistakes(b, i, gen)
  {
    hide At, Mistakes, Fresh;
    Indices(b, w, i, gen);
    if w.slots[j].gen < gen {
      var eu :| eu in w.slots[i].delExpected;
      var w1 := Recover(b, w, i, gen, j);
      var w2 := Refresh(b, w1, i, gen, j);
      var w3 := FreeId(b, w2, i, gen, j, w2.slots[i].pod);
      var w4, a := Cycle(b, w3, i, gen, j, eu);
      StrikesForeign(b, w4, i, gen, a);
    } else {
      var eu :| eu in w.slots[j].expected * w.slots[i].delExpected;
      Settled(b, w, i, gen, j);
      var w1, a := AsksToLeave(b, w, i, gen, j, eu);
      StrikesForeign(b, w1, i, gen, a);
    }
  }

  // ---- a handler that has matched goes on to record ----------------------

  lemma StrikesOn(w: World, h: nat)
    requires Busy(w, h) && Deleting(w.workers[h].handler)
    requires Strikes(w.slots[w.workers[h].handler.slot], w.workers[h].handler)
    ensures var g, w1 := w.workers[h].handler, Gone(w, h);
            && |w1.slots| == |w.slots| && |w1.workers| == |w.workers|
            && if g.Striking? then g.ack in w1.slots[g.slot].delSeen
               else var g1 := w1.workers[h].handler;
                    Deleting(g1) && g1.slot == g.slot && g1.ack == g.ack && Strikes(w1.slots[g.slot], g1)
  {
  }

  lemma RecordsMatched(b: World, w: World, i: nat, gen: nat, h: nat)
    requires Inv(w) && Within(b, w, i, gen) && Tenancy(w, i, gen) && h < |w.workers|
    requires var g := w.workers[h].handler; Deleting(g) && g.slot == i && Strikes(w.slots[i], g)
    requires var a := w.workers[h].handler.ack; !(a.home == i && a.gen == gen)
    ensures Mistakes(b, i, gen)
    decreases Rank(w.workers[h].handler, |w.slots|)
  {
    hide Inv, Within, Next, Mistakes, Alike, Gone, Strikes, Rank;
    var g := w.workers[h].handler;
    var w1 := Gone(w, h);
    GoAlike(w, h);
    GoCloser(w, h);
    StepKeeps(w, Go(h), w1);
    AlikeTenancy(w, w1, i, gen);
    Then(b, w, Go(h), w1, i, gen);
    StrikesOn(w, h);
    if g.Striking? {
      Mistaken(b, w1, i, gen, g.ack);
    } else {
      RecordsMatched(b, w1, i, gen, h);
    }
  }

  // ---- the condition -----------------------------------------------------

  lemma AlikeRemoval(w: World, w': World, i: nat)
    requires Alike(w, w') && i < |w.slots| && !OwnRemoval(w, i)
    ensures !OwnRemoval(w', i)
  {
    AlikeSlot(w, w', i);
    if a :| a in w.dels && ForeignDel(w, i, a) {
      assert ForeignDel(w', i, a);
    } else {
      var j :| 0 <= j < |w.slots| && Follower(w, i, j);
      AlikeSlot(w, w', j);
      assert Follower(w', i, j);
    }
  }

  lemma RemovalMistakes(w: World, i: nat, gen: nat)
    requires Inv(w) && Leaving(w, i, gen) && |w.workers| > 0 && !OwnRemoval(w, i)
    ensures Mistakes(w, i, gen)
  {
    Stay(w, i, gen);
    hide Inv, Within, Mistakes;
    var w1 := FreeAll(w, w, i, gen, |w.workers|);
    AlikeSlot(w, w1, i);
    AlikeRemoval(w, w1, i);
    hide Alike;
    assert At(w, w1, i, gen);
    hide At;
    if a :| a in w1.dels && ForeignDel(w1, i, a) {
      StrikesForeign(w, w1, i, gen, a);
    } else {
      var j :| 0 <= j < |w1.slots| && Follower(w1, i, j);
      FollowerStrikes(w, w1, i, gen, j);
    }
  }

  lemma StruckMistakes(w: World, i: nat, gen: nat)
    requires Inv(w) && Leaving(w, i, gen) && !OwnStrikes(w, i)
    ensures Mistakes(w, i, gen)
  {
    Stay(w, i, gen);
    var h :| 0 <= h < |w.workers| && !OwnStrike(w, i, w.workers[h].handler);
    Inside(w, h);
    hide Inv, Within, Mistakes;
    RecordsMatched(w, w, i, gen, h);
  }

  /**
   From any state of a cleanup: every removal acknowledgement the slot will have
   recorded is its own, whatever happens next, if and only if those recorded so
   far are, no handler has matched a foreign one to the slot, and no other slot
   has, or can still come to have, rings removed under the same id and
   generation on a unit the slot waits for.
   */
  lemma DelsAreOwnIff(w: World, i: nat, gen: nat)
    requires Inv(w) && Leaving(w, i, gen) && |w.workers| > 0
    ensures (forall w' :: Within(w, w', i, gen) ==> i < |w'.slots| && OwnDels(w', i)) <==>
            OwnDels(w, i) && Unstruck(w, i)
  {
    if OwnDels(w, i) && Unstruck(w, i) {
      forall w' | Within(w, w', i, gen)
        ensures i < |w'.slots| && OwnDels(w', i)
      {
        var run: seq<World>, steps: seq<Step> :| Goes(run, steps, i, gen) && run[0] == w && run[|steps|] == w';
        UnstruckPath(run, steps, i, gen, 0, |steps|);
      }
    } else {
      Stay(w, i, gen);
      hide Inv, Within, OwnDels, OwnStrikes, OwnRemoval;
      if OwnDels(w, i) {
        if OwnStrikes(w, i) {
          RemovalMistakes(w, i, gen);
        } else {
          StruckMistakes(w, i, gen);
        }
      }
    }
  }
}
