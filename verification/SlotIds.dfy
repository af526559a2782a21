/** Whole runs of the slots: the index, ids the proxy assigns itself, and what readiness and reuse then mean. */
module SlotIds {
  import opened SlotLifecycle
  import opened SlotRuns
  import opened SlotTenancy
  import opened SlotForward

  // ---- the index ---------------------------------------------------------

  /** Every registered slot is found under its id. */
  predicate Exact(w: World)
  {
    forall j :: 0 <= j < |w.slots| && w.slots[j].registered ==> Listed(w, j)
  }

  /** A slot leaves while another registered slot bears its id. */
  predicate Orphans(w: World, x: Step)
  {
    && (x.Unregister? || x.Disconnect?) && x.i < |w.slots|
    && exists j :: 0 <= j < |w.slots| && j != x.i && w.slots[j].registered && w.slots[j].pod == w.slots[x.i].pod
  }

  lemma ExactManaged(w: World, x: Step, w': World)
    requires Inv(w) && Manages(w, x, w') && Exact(w)
    ensures Exact(w') <==> !Orphans(w, x)
  {
    Own(w, x.i);
    hide Inv, MasksOk, HeardOk, Clear;
    assert |w'.slots| == |w.slots|;
    if Orphans(w, x) {
      var j :| 0 <= j < |w.slots| && j != x.i && w.slots[j].registered && w.slots[j].pod == w.slots[x.i].pod;
      assert w'.slots[j] == w.slots[j] && !Listed(w', j);
    } else {
      forall j | 0 <= j < |w'.slots| && w'.slots[j].registered
        ensures Listed(w', j)
      {
        assert w.slots[j].registered ==> Listed(w, j);
      }
    }
  }

  lemma ExactStep(w: World, x: Step, w': World)
    requires Inv(w) && Next(w, x, w') && Exact(w)
    ensures Exact(w') <==> !Orphans(w, x)
  {
    hide Inv, Manages, Speaks;
    if Manages(w, x, w') {
      ExactManaged(w, x, w');
    } else if Speaks(w, x, w') {
      SpokenOnly(w, x, w');
      assert forall j :: 0 <= j < |w.slots| ==> Listed(w', j) == Listed(w, j);
    } else {
      hide Hears;
      forall j | 0 <= j < |w.slots|
        ensures |w'.slots| == |w.slots| && w'.slotOf == w.slotOf
        ensures Core(w.slots[j], w'.slots[j]) && w'.slots[j].registered == w.slots[j].registered
        ensures Listed(w', j) == Listed(w, j) && !Orphans(w, x)
      {
        HearsCore(w, x, w', j);
      }
    }
  }

  lemma SpokenOnly(w: World, x: Step, w': World)
    requires Speaks(w, x, w')
    ensures w'.slots == w.slots && w'.slotOf == w.slotOf && !Orphans(w, x)
  {
  }

  /**
   In every run, each registered slot has been found under its id in all states
   up to now, if and only if no slot has left while another registered slot bore
   its id.
   */
  lemma {:induction false} IndexIsExactIff(run: seq<World>, steps: seq<Step>, k: nat)
    requires IsRun(run, steps) && k < |run|
    ensures (forall q :: 0 <= q <= k ==> Exact(run[q])) <==> (forall q :: 0 <= q < k ==> !Orphans(run[q], steps[q]))
  {
    hide Inv, Next, Exact, Orphans;
    if k == 0 {
      ExactStart(run[0]);
    } else {
      IndexIsExactIff(run, steps, k - 1);
      RunKeeps(run, steps, k - 1);
      if Exact(run[k - 1]) {
        ExactStep(run[k - 1], steps[k - 1], run[k]);
      }
    }
  }

  lemma ExactStart(w: World)
    requires Initial(w)
    ensures Exact(w)
  {
  }

  // ---- ids the proxy assigns ---------------------------------------------

  /** No registration asks for an id of its own choice. */
  ghost predicate Assigned(steps: seq<Step>)
  {
    forall k :: 0 <= k < |steps| && steps[k].Register? ==> steps[k].id < 0
  }

  predicate OwnPod(s: Slot, i: nat)
  {
    s.pod == -1 || s.pod == i
  }

  /** The handler of a removal acknowledgement has seen the id it names in the slot. */
  predicate Matching(g: Handler) { g.Named? || g.Targeted? || g.Striking? }

  predicate OwnPlace(m: Worker)
  {
    && (Acking(m.handler) || Matching(m.handler) ==> m.handler.ack.pod == m.handler.slot)
    && (Carries(m.handler) ==> m.handler.fwd.pod == m.handler.slot)
    && (forall e :: e in m.queue ==> e.fwd.pod == e.slot)
  }

  /** Ids are the slots' own numbers, wherever they appear. */
  ghost predicate OwnIds(w: World)
  {
    && (forall i :: 0 <= i < |w.slots| ==> OwnPod(w.slots[i], i))
    && (forall a :: a in w.adds ==> a.pod == a.home) && (forall a :: a in w.dels ==> a.pod == a.home)
    && (forall h :: 0 <= h < |w.workers| ==> OwnPlace(w.workers[h]))
  }

  lemma OwnIdsManaged(w: World, x: Step, w': World)
    requires Inv(w) && OwnIds(w) && Manages(w, x, w') && (x.Register? ==> x.id < 0)
    ensures OwnIds(w')
  {
    Own(w, x.i);
    assert OwnPod(w.slots[x.i], x.i);
    hide Inv, MasksOk, HeardOk, Clear, OwnPlace;
    assert OwnPod(w'.slots[x.i], x.i);
    assert forall i :: 0 <= i < |w.slots| && i != x.i ==> w'.slots[i] == w.slots[i];
    hide OwnPod, FlagsOk;
  }

  lemma SoughtPlace(w: World, x: Step, w': World)
    requires Inv(w) && OwnIds(w) && Hears(w, x, w') && (x.Look? || x.Receive?)
    ensures x.h < |w.workers| == |w'.workers| && w'.workers[x.h].queue == w.workers[x.h].queue
    ensures OwnPlace(Worker(w'.workers[x.h].handler, []))
  {
    Indexed(w);
    hide Inv, OwnPlace, OwnPod;
    var pod := if x.Look? then x.ack.pod else x.fwd.pod;
    Own(w, w.slotOf[pod]);
    assert OwnPod(w.slots[w.slotOf[pod]], w.slotOf[pod]);
    assert w.slotOf[pod] == pod by { PodIs(w.slots[w.slotOf[pod]], w.slotOf[pod]); }
    PlaceIs(w'.workers[x.h].handler);
  }

  lemma PodIs(s: Slot, i: nat)
    requires OwnPod(s, i) && FlagsOk(s) && s.registered
    ensures s.pod == i
  {
  }

  lemma PlaceIs(g: Handler)
    requires g.Sought? || g.Found?
    requires if g.Sought? then g.ack.pod == g.slot else g.fwd.pod == g.slot
    ensures OwnPlace(Worker(g, []))
  {
  }

  /** Where a worker's step can leave the handler of a removal acknowledgement. */
  lemma MatchingFrom(w: World, x: Step, w': World, h: nat)
    requires Hears(w, x, w') && h < |w.workers| == |w'.workers| && Matching(w'.workers[h].handler)
    ensures var g, g' := w.workers[h].handler, w'.workers[h].handler;
            g' == g || (Deleting(g) && g.slot < |w.slots| && g' == Onward(g, w.slots[g.slot], |w.slots|))
  {
    hide Finds, After;
  }

  lemma OnwardMatching(w: World, g: Handler)
    requires OwnIds(w) && Deleting(g) && g.slot < |w.slots| && Matching(Onward(g, w.slots[g.slot], |w.slots|))
    requires (Matching(g) ==> g.ack.pod == g.slot) && g.ack.pod >= 0
    ensures var g' := Onward(g, w.slots[g.slot], |w.slots|); g'.ack.pod == g'.slot
  {
    assert OwnPod(w.slots[g.slot], g.slot);
  }

  lemma OwnPlaceHeard(w: World, x: Step, w': World, h: nat)
    requires Inv(w) && OwnIds(w) && Hears(w, x, w') && h < |w.workers| == |w'.workers|
    ensures OwnPlace(w'.workers[h])
  {
    assert OwnPlace(w.workers[h]);
    Inside(w, h);
    var g, g' := w.workers[h].handler, w'.workers[h].handler;
    if Acking(g') {
      HandlerHeard(w, x, w', h);
    }
    if Carries(g') {
      CarriedFrom(w, x, w', h);
    }
    if Matching(g') {
      MatchingFrom(w, x, w', h);
      if g' != g {
        AckHome(w, g.ack);
        OnwardMatching(w, g);
      }
    }
    hide Inv, Hears, Finds, HandlerOk, OwnPod;
    forall e | e in w'.workers[h].queue
      ensures e.fwd.pod == e.slot
    {
      QueuedFrom(w, x, w', h, e);
      assert x.Hand? && x.h < |w.workers| ==> OwnPlace(w.workers[x.h]);
    }
    if (x.Look? || x.Receive?) && x.h == h {
      SoughtPlace(w, x, w');
    }
    hide OwnIds;
  }

  /** With assigned ids an acknowledgement names the slot it comes from. */
  lemma AckHome(w: World, a: Ack)
    requires Inv(w) && OwnIds(w) && a in w.acks
    ensures a.pod == a.home && a.gen <= w.slots[a.home].gen
  {
    Sent(w);
    assert AckOk(w, a);
    assert AskOk(w, Ask(a.pod, a.gen, a.eu, a.home));
    hide Inv;
  }

  lemma OwnPodHeard(w: World, x: Step, w': World, i: nat)
    requires OwnIds(w) && Hears(w, x, w') && i < |w.slots| == |w'.slots|
    ensures OwnPod(w'.slots[i], i)
  {
    assert OwnPod(w.slots[i], i);
    HearsCore(w, x, w', i);
    hide OwnIds, Hears;
  }

  lemma OwnIdsStep(w: World, x: Step, w': World)
    requires Inv(w) && OwnIds(w) && Next(w, x, w') && (x.Register? ==> x.id < 0)
    ensures OwnIds(w')
  {
    hide Inv, Manages, Hears, OwnPod, OwnPlace;
    if Manages(w, x, w') {
      OwnIdsManaged(w, x, w');
    } else if Hears(w, x, w') {
      HearsFrame(w, x, w');
      forall i | 0 <= i < |w'.slots|
        ensures OwnPod(w'.slots[i], i)
      {
        OwnPodHeard(w, x, w', i);
      }
      forall h | 0 <= h < |w'.workers|
        ensures OwnPlace(w'.workers[h])
      {
        OwnPlaceHeard(w, x, w', h);
      }
    }
  }

  lemma HearsFrame(w: World, x: Step, w': World)
    requires Hears(w, x, w')
    ensures |w'.slots| == |w.slots| && |w'.workers| == |w.workers| && w'.adds == w.adds && w'.dels == w.dels
  {
    hide Onward, Finds;
  }

  lemma {:induction false} AssignedRun(run: seq<World>, steps: seq<Step>, k: nat)
    requires IsRun(run, steps) && Assigned(steps) && k < |run|
    ensures Inv(run[k]) && OwnIds(run[k])
  {
    hide Inv, Next, OwnIds;
    RunKeeps(run, steps, k);
    if k == 0 {
      OwnStart(run[0]);
    } else {
      AssignedRun(run, steps, k - 1);
      OwnIdsStep(run[k - 1], steps[k - 1], run[k]);
    }
  }

  lemma OwnStart(w: World)
    requires Initial(w)
    ensures OwnIds(w)
  {
  }

  /** With assigned ids the index is exact in every state of every run. */
  lemma AssignedIsExact(run: seq<World>, steps: seq<Step>, k: nat)
    requires IsRun(run, steps) && Assigned(steps) && k < |run|
    ensures Exact(run[k])
  {
    hide Inv, Next, Exact, Orphans, OwnIds;
    IndexIsExactIff(run, steps, k);
    forall q | 0 <= q < k
      ensures !Orphans(run[q], steps[q])
    {
      AssignedRun(run, steps, q);
      assert Next(run[q], steps[q], run[q + 1]);
      OrphansNone(run[q], steps[q]);
    }
  }

  lemma OrphansNone(w: World, x: Step)
    requires Inv(w) && OwnIds(w)
    ensures !Orphans(w, x)
  {
    forall j | 0 <= j < |w.slots| && w.slots[j].registered
      ensures w.slots[j].pod == j
    {
      Own(w, j);
      assert OwnPod(w.slots[j], j);
    }
    assert forall i :: 0 <= i < |w.slots| ==> OwnPod(w.slots[i], i);
    hide Inv;
  }

  /** With assigned ids nobody else sends under a tenancy's id, and only handlers can disturb it. */
  lemma AssignedOwns(w: World, i: nat)
    requires Inv(w) && OwnIds(w) && i < |w.slots|
    ensures OwnId(w, i, true) && OwnId(w, i, false) && (Undisturbed(w, i) <==> OwnHandlers(w, i))
  {
    assert OwnPod(w.slots[i], i);
    forall a | a in w.adds
      ensures !ForeignAsk(w, i, a)
    {
    }
    forall j | 0 <= j < |w.slots|
      ensures !Rival(w, i, j)
    {
      Own(w, j);
      assert OwnPod(w.slots[j], j);
    }
    hide Inv, OwnHandlers;
  }

  // ---- what runs guarantee -----------------------------------------------

  /** A slot open to a new connection holds no imported handle and no ring, whatever ids are used. */
  lemma ReuseIsClean(run: seq<World>, steps: seq<Step>, k: nat, i: nat)
    requires IsRun(run, steps) && k < |run| && i < |run[k].slots| && Reusable(run[k].slots[i])
    ensures !run[k].slots[i].imported && !run[k].slots[i].rings && !run[k].slots[i].ready
  {
    RunKeeps(run, steps, k);
    hide Next, Initial;
    Own(run[k], i);
    hide Inv;
  }

  /**
   Every completion a slot has taken bears its id and present generation, in
   every run; with assigned ids it was caused by that very tenancy, however
   delayed and wherever the control thread came between a worker's reads.
   */
  lemma ForwardIsCurrent(run: seq<World>, steps: seq<Step>, k: nat, i: nat, m: Ask)
    requires IsRun(run, steps) && k < |run| && i < |run[k].slots| && run[k].slots[i].rings && m in run[k].slots[i].taken
    ensures m in run[k].adds && m.pod == run[k].slots[i].pod && m.gen == run[k].slots[i].gen
    ensures Assigned(steps) ==> m.home == i
  {
    hide Next, Initial;
    RunKeeps(run, steps, k);
    Own(run[k], i);
    FwdsAsked(run[k]);
    if Assigned(steps) {
      AssignedRun(run, steps, k);
      assert OwnPod(run[k].slots[i], i);
    }
    hide Inv;
  }

  /** The message in hand was caused by another tenancy than the slot's present one. */
  predicate Stale(w: World, g: Handler)
    requires !g.Idle? && g.slot < |w.slots|
  {
    if Carries(g) then g.fwd.home != g.slot || g.fwd.gen != w.slots[g.slot].gen
    else g.ack.home != g.slot || g.ack.gen != w.slots[g.slot].gen
  }

  /** The handler is about to record, and the generation it matched is no longer the slot's. */
  predicate Late(w: World, g: Handler)
    requires !g.Idle? && g.slot < |w.slots|
  {
    (g.Decided? || g.Striking?) && g.gen < w.slots[g.slot].gen
  }

  /**
   With assigned ids, a message of another tenancy changes no slot at any of the
   reads it takes, be it a forward completion or an acknowledgement of either
   kind, unless its handler had matched an earlier generation and is late.
   */
  lemma StaleIsIgnored(w: World, h: nat, w': World)
    requires Inv(w) && OwnIds(w) && Hears(w, Go(h), w') && Stale(w, w.workers[h].handler)
    ensures w'.slots == w.slots || Late(w, w.workers[h].handler)
  {
    Inside(w, h);
    Sent(w);
    var g := w.workers[h].handler;
    assert OwnPlace(w.workers[h]);
    if Acking(g) || Deleting(g) {
      AckHome(w, g.ack);
    }
    hide Inv;
  }

  /** Unit `eu` has accepted the ring of slot `i`'s present generation, asked for by this tenancy itself. */
  ghost predicate Accepted(w: World, i: nat, eu: nat)
    requires i < |w.slots|
  {
    exists a :: a in w.slots[i].seen && a.eu == eu && a.ok && OwnAck(w, i, a) &&
                Ask(a.pod, a.gen, a.eu, a.home) in w.adds
  }

  lemma CompleteIsEarned(w: World, i: nat, eu: nat)
    requires Inv(w) && i < |w.slots| && OwnMasks(w, i)
    requires Complete(w.slots[i]) && !w.slots[i].failed && eu in w.slots[i].expected
    ensures Accepted(w, i, eu)
  {
    Own(w, i);
    Sent(w);
    hide Inv;
    var a :| a in w.slots[i].seen && a.eu == eu;
    assert a.ok;
    assert AckOk(w, a);
    hide SlotOk;
  }

  /**
   A slot is published ready only when every expected unit has accepted this very
   tenancy's ring and none has rejected it, however acknowledgements were lost,
   repeated or delayed, provided nothing disturbed the tenancy as it was set up.
   */
  lemma ReadinessIsEarned(run: seq<World>, steps: seq<Step>, b: nat, k: nat, i: nat)
    requires IsRun(run, steps) && b < k < |steps| && steps[b].Setup? && steps[b].i == i && steps[k] == Finalize(i)
    requires i < |run[b + 1].slots| && Lasts(run, b + 1, k, i, run[b + 1].slots[i].gen) && Undisturbed(run[b + 1], i)
    requires i < |run[k + 1].slots| && run[k + 1].slots[i].ready
    ensures forall eu :: eu in run[k].slots[i].expected ==> Accepted(run[k], i, eu)
    ensures forall a :: a in run[k].slots[i].seen ==> a.ok
  {
    hide Inv, Initial, Undisturbed;
    RunKeeps(run, steps, k);
    InitOk(run[0]);
    assert Next(run[b], steps[b], run[b + 1]) && Next(run[k], steps[k], run[k + 1]);
    UndisturbedPath(run, steps, i, run[b + 1].slots[i].gen, b + 1, k);
    assert Complete(run[k].slots[i]) && !run[k].slots[i].failed;
    Own(run[k], i);
    hide Next, Accepted, Complete, OwnMasks;
    forall eu | eu in run[k].slots[i].expected
      ensures Accepted(run[k], i, eu)
    {
      CompleteIsEarned(run[k], i, eu);
    }
  }
}
