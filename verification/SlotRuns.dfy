/** What every run of the slots keeps, whatever ids are asked for and however handlers are overtaken. */
module SlotRuns {
  import opened SlotLifecycle

  // ---- frames ------------------------------------------------------------

  /** Only slot `i` may have changed, its generation has not fallen, and messages only accumulate. */
  ghost predicate Grows(w: World, w': World, i: nat)
  {
    && |w'.slots| == |w.slots|
    && (forall j :: 0 <= j < |w.slots| && j != i ==> w'.slots[j] == w.slots[j])
    && (i < |w.slots| ==> w'.slots[i].gen >= w.slots[i].gen)
    && w.adds <= w'.adds && w.dels <= w'.dels && w.acks <= w'.acks && w.fwds <= w'.fwds
  }

  /** A slot with rings keeps them with its generation and id unless no handler is inside. */
  ghost predicate Steady(w: World, w': World, i: nat)
    requires |w'.slots| == |w.slots|
  {
    i < |w.slots| && w.slots[i].rings && !Clear(w, i) ==>
      w'.slots[i].rings && w'.slots[i].gen == w.slots[i].gen && w'.slots[i].pod == w.slots[i].pod
  }

  lemma SlotFrame(w: World, w': World, s: Slot)
    requires SlotOk(w, s) && w.acks <= w'.acks && w.fwds <= w'.fwds
    ensures SlotOk(w', s)
  {
    hide MasksOk, FlagsOk;
  }

  lemma MessagesFrame(w: World, w': World, i: nat)
    requires Grows(w, w', i) && MessagesOk(w)
    ensures forall a :: a in w.adds || a in w.dels ==> AskOk(w', a)
    ensures forall a :: a in w.acks ==> AckOk(w', a)
  {
    assert forall j :: 0 <= j < |w.slots| ==> w'.slots[j].gen >= w.slots[j].gen;
  }

  lemma HandlerFrame(w: World, w': World, i: nat, h: nat)
    requires Grows(w, w', i) && Steady(w, w', i) && h < |w.workers| && WorkerOk(w, w.workers[h])
    ensures WorkerOk(w', w.workers[h])
  {
    assert forall j :: 0 <= j < |w.slots| ==> w'.slots[j].gen >= w.slots[j].gen;
  }

  lemma SlotsFrame(w: World, w': World, i: nat)
    requires Inv(w) && Grows(w, w', i) && (i < |w.slots| ==> SlotOk(w', w'.slots[i]))
    ensures forall j :: 0 <= j < |w'.slots| ==> SlotOk(w', w'.slots[j])
  {
    hide SlotOk, IndexOk, MessagesOk, RemovalOk, WorkerOk;
    forall j | 0 <= j < |w'.slots|
      ensures SlotOk(w', w'.slots[j])
    {
      if j != i {
        SlotFrame(w, w', w.slots[j]);
      }
    }
  }

  lemma WorkersFrame(w: World, w': World, i: nat)
    requires Inv(w) && Grows(w, w', i) && Steady(w, w', i)
    ensures forall h :: 0 <= h < |w.workers| ==> WorkerOk(w', w.workers[h])
  {
    hide SlotOk, IndexOk, MessagesOk, RemovalOk, WorkerOk;
    forall h | 0 <= h < |w.workers|
      ensures WorkerOk(w', w.workers[h])
    {
      HandlerFrame(w, w', i, h);
    }
  }

  /** A step of the control thread or of a unit: one slot, the index and messages, but no handler. */
  lemma SlotStep(w: World, w': World, i: nat)
    requires Inv(w) && Grows(w, w', i) && Steady(w, w', i) && w'.workers == w.workers
    requires (i < |w.slots| ==> SlotOk(w', w'.slots[i])) && IndexOk(w') && RemovalOk(w')
    requires forall a :: a in w'.adds - w.adds || a in w'.dels - w.dels ==> AskOk(w', a)
    requires (forall a :: a in w'.acks - w.acks ==> AckOk(w', a)) && w'.fwds <= w'.adds
    ensures Inv(w')
  {
    hide SlotOk, IndexOk, RemovalOk, WorkerOk;
    SlotsFrame(w, w', i);
    WorkersFrame(w, w', i);
    MessagesFrame(w, w', i);
    hide AskOk, AckOk;
    forall a | a in w'.adds
      ensures AskOk(w', a)
    {
      assert a in w.adds || a in w'.adds - w.adds;
    }
    forall a | a in w'.dels
      ensures AskOk(w', a)
    {
      assert a in w.dels || a in w'.dels - w.dels;
    }
    forall a | a in w'.acks
      ensures AckOk(w', a)
    {
      assert a in w.acks || a in w'.acks - w.acks;
    }
  }

  lemma Own(w: World, i: nat)
    requires Inv(w) && i < |w.slots|
    ensures SlotOk(w, w.slots[i])
  {
    hide SlotOk, IndexOk, MessagesOk, RemovalOk, WorkerOk;
  }

  lemma Indexed(w: World)
    requires Inv(w)
    ensures IndexOk(w)
  {
    hide SlotOk, IndexOk, MessagesOk, RemovalOk, WorkerOk;
  }

  lemma Sent(w: World)
    requires Inv(w)
    ensures MessagesOk(w)
  {
    hide SlotOk, IndexOk, MessagesOk, RemovalOk, WorkerOk;
  }

  lemma Removing(w: World)
    requires Inv(w)
    ensures RemovalOk(w)
  {
    hide SlotOk, IndexOk, MessagesOk, RemovalOk, WorkerOk;
  }

  lemma Inside(w: World, h: nat)
    requires Inv(w) && h < |w.workers|
    ensures WorkerOk(w, w.workers[h])
  {
    hide SlotOk, IndexOk, MessagesOk, RemovalOk, WorkerOk;
  }

  // ---- the control thread ------------------------------------------------

  /** A change to a slot that neither begins a cleanup nor sets the slot up. */
  predicate Mild(s: Slot, s': Slot)
  {
    && s'.gen == s.gen && (s'.rings ==> s.rings && (s.cleanup ==> s'.cleanup))
    && (s'.cleanup ==> s.cleanup && s'.delExpected == s.delExpected && s'.pod == s.pod)
  }

  lemma MildKeeps(w: World, i: nat, w': World)
    requires RemovalOk(w) && i < |w.slots| == |w'.slots| && w'.slots == w.slots[i := w'.slots[i]] && w'.dels == w.dels
    requires Mild(w.slots[i], w'.slots[i])
    ensures RemovalOk(w')
  {
  }

  /** An update of one slot that leaves what the index relies on alone. */
  lemma PutKeeps(w: World, i: nat, s: Slot)
    requires Inv(w) && i < |w.slots| && s.gen == w.slots[i].gen && SlotOk(w, s)
    requires w.slots[i].registered ==> s.registered && s.pod == w.slots[i].pod
    requires w.slots[i].rings && !Clear(w, i) ==> s.rings && s.pod == w.slots[i].pod
    requires Mild(w.slots[i], s)
    ensures Inv(Put(w, i, s))
  {
    hide Inv, SlotOk, MessagesOk, RemovalOk;
    Indexed(w);
    Removing(w);
    MildKeeps(w, i, Put(w, i, s));
    FwdsAsked(w);
    var w' := Put(w, i, s);
    SlotFrame(w, w', s);
    SlotStep(w, w', i);
  }

  lemma FwdsAsked(w: World)
    requires Inv(w)
    ensures w.fwds <= w.adds && |w.slots| <= POD_ID_SPACE
  {
    hide SlotOk, IndexOk, RemovalOk, WorkerOk;
  }

  lemma RegisterKeeps(w: World, i: nat, id: int, w': World)
    requires Inv(w) && Manages(w, Register(i, id), w')
    ensures Inv(w')
  {
    Own(w, i);
    Indexed(w);
    FwdsAsked(w);
    Removing(w);
    hide Inv, RemovalOk;
    assert SlotOk(w', w'.slots[i]);
    MildKeeps(w, i, w');
    hide SlotOk;
    SlotStep(w, w', i);
  }

  lemma SetupRemoval(w: World, i: nat, eus: set<nat>, w': World)
    requires RemovalOk(w) && MessagesOk(w) && i < |w.slots| && FlagsOk(w.slots[i]) && Manages(w, Setup(i, eus), w')
    ensures RemovalOk(w')
  {
  }

  lemma LeavesRemoval(w: World, i: nat, running: set<nat>, stays: bool)
    requires RemovalOk(w) && i < |w.slots| && !w.slots[i].cleanup
    ensures RemovalOk(Leaves(w, i, running, stays))
  {
  }

  lemma SetupKeeps(w: World, i: nat, eus: set<nat>, w': World)
    requires Inv(w) && Manages(w, Setup(i, eus), w')
    ensures Inv(w')
  {
    Own(w, i);
    Indexed(w);
    FwdsAsked(w);
    Sent(w);
    Removing(w);
    hide Inv, RemovalOk;
    assert SlotOk(w', w'.slots[i]);
    SetupRemoval(w, i, eus, w');
    hide SlotOk, MessagesOk, WorkerOk;
    SlotStep(w, w', i);
  }

  lemma LeavesKeeps(w: World, i: nat, running: set<nat>, stays: bool)
    requires Inv(w) && i < |w.slots| && w.slots[i].pod >= 0 && !w.slots[i].cleanup
    ensures Inv(Leaves(w, i, running, stays))
  {
    var w' := Leaves(w, i, running, stays);
    Own(w, i);
    Indexed(w);
    FwdsAsked(w);
    Removing(w);
    hide Inv, RemovalOk;
    LeavesRemoval(w, i, running, stays);
    assert SlotOk(w', w'.slots[i]);
    hide SlotOk, MessagesOk, WorkerOk;
    SlotStep(w, w', i);
  }

  lemma DropsKeeps(w: World, i: nat)
    requires Inv(w) && i < |w.slots| && !MustCleanUp(w.slots[i])
    ensures Inv(Drops(w, i))
  {
    var w' := Drops(w, i);
    Own(w, i);
    Indexed(w);
    FwdsAsked(w);
    Removing(w);
    hide Inv, RemovalOk;
    MildKeeps(w, i, w');
    assert SlotOk(w', w'.slots[i]);
    assert Steady(w, w', i);
    hide SlotOk, MessagesOk, WorkerOk;
    SlotStep(w, w', i);
  }

  lemma ManageKeeps(w: World, x: Step, w': World)
    requires Inv(w) && Manages(w, x, w')
    ensures Inv(w')
  {
    hide Inv;
    match x
    case Connect(i) => Own(w, i); PutKeeps(w, i, Connected(w.slots[i]));
    case Register(i, id) => RegisterKeeps(w, i, id, w');
    case Import(i) => Own(w, i); PutKeeps(w, i, w.slots[i].(imported := true));
    case Setup(i, eus) => SetupKeeps(w, i, eus, w');
    case Finalize(i) => Own(w, i); PutKeeps(w, i, Finalized(w.slots[i]));
    case Unregister(i, running) => LeavesKeeps(w, i, running, true);
    case Disconnect(i, running) =>
      if MustCleanUp(w.slots[i]) {
        LeavesKeeps(w, i, running, false);
      } else {
        DropsKeeps(w, i);
      }
    case Reclaim(i) => Own(w, i); PutKeeps(w, i, Reclaimed(w.slots[i]));
    case _ =>
  }

  // ---- units and workers -------------------------------------------------

  lemma SpeakKeeps(w: World, x: Step, w': World)
    requires Inv(w) && Speaks(w, x, w')
    ensures Inv(w')
  {
    Indexed(w);
    FwdsAsked(w);
    Removing(w);
    hide Inv, SlotOk, MessagesOk, WorkerOk, AskOk;
    SlotStep(w, w', |w.slots|);
  }

  /** A step of worker `h` alone. */
  lemma WorkerStep(w: World, w': World, h: nat)
    requires Inv(w) && h < |w.workers| && w' == w.(workers := w'.workers) && |w'.workers| == |w.workers|
    requires forall g :: 0 <= g < |w.workers| && g != h ==> w'.workers[g] == w.workers[g]
    requires WorkerOk(w', w'.workers[h])
    ensures Inv(w')
  {
    hide MasksOk, FlagsOk;
    forall g | 0 <= g < |w'.workers|
      ensures WorkerOk(w', w'.workers[g])
    {
      if g != h {
        assert WorkerOk(w, w.workers[g]);
      }
    }
    forall j | 0 <= j < |w'.slots|
      ensures SlotOk(w', w'.slots[j])
    {
      assert SlotOk(w, w.slots[j]);
    }
  }

  lemma RecordMasks(s: Slot, a: Ack)
    requires MasksOk(s) && !a.del
    ensures MasksOk(Recorded(s, a))
  {
    var s' := Recorded(s, a);
    forall eu | eu in s'.acked
      ensures exists b :: b in s'.seen && b.eu == eu
    {
      if eu != a.eu {
        var b :| b in s.seen && b.eu == eu;
        assert b in s'.seen;
      } else {
        assert a in s'.seen;
      }
    }
    if s.failed {
      var b :| b in s.seen && !b.ok;
      assert b in s'.seen;
    }
    assert !a.ok ==> a in s'.seen && !a.ok;
  }

  lemma RecordDelMasks(s: Slot, a: Ack)
    requires MasksOk(s) && a.del && a.ok
    ensures MasksOk(RecordedDel(s, a))
  {
    var s' := RecordedDel(s, a);
    forall eu | eu in s'.delAcked
      ensures exists b :: b in s'.delSeen && b.eu == eu
    {
      if eu != a.eu {
        var b :| b in s.delSeen && b.eu == eu;
        assert b in s'.delSeen;
      } else {
        assert a in s'.delSeen;
      }
    }
  }

  lemma OnwardOk(w: World, h: nat)
    requires Inv(w) && h < |w.workers| && !w.workers[h].handler.Idle? && w.workers[h].handler.slot < |w.slots|
    ensures var g := w.workers[h].handler;
            HandlerOk(w, Onward(g, w.slots[g.slot], |w.slots|)) && (g.Lively? ==> EntryOk(w, Entry(g.fwd, g.slot)))
  {
    hide Inv;
    Inside(w, h);
  }

  /** The slot a handler leaves behind is in order. */
  lemma AfterOk(w: World, h: nat)
    requires Inv(w) && h < |w.workers| && !w.workers[h].handler.Idle? && w.workers[h].handler.slot < |w.slots|
    ensures var g := w.workers[h].handler; SlotOk(w, After(g, w.slots[g.slot]))
  {
    hide Inv, MasksOk;
    var g := w.workers[h].handler;
    Inside(w, h);
    Own(w, g.slot);
    if g.Decided? {
      RecordMasks(w.slots[g.slot], g.ack);
    } else if g.Matched? {
      TookMasks(w.slots[g.slot], g.fwd);
    } else if g.Striking? {
      RecordDelMasks(w.slots[g.slot], g.ack);
    }
  }

  lemma TookMasks(s: Slot, m: Ask)
    requires MasksOk(s)
    ensures MasksOk(Took(s, m))
  {
  }

  lemma AfterMild(g: Handler, s: Slot)
    ensures var s' := After(g, s);
            Mild(s, s') && s'.gen == s.gen && s'.registered == s.registered && s'.pod == s.pod && s'.rings == s.rings
  {
  }

  lemma GoKeeps(w: World, h: nat)
    requires Inv(w) && h < |w.workers| && !w.workers[h].handler.Idle? && w.workers[h].handler.slot < |w.slots|
    ensures Inv(Gone(w, h))
  {
    AfterOk(w, h);
    OnwardOk(w, h);
    Inside(w, h);
    var g := w.workers[h].handler;
    var s := w.slots[g.slot];
    AfterMild(g, s);
    var w1 := w.(workers := Gone(w, h).workers);
    hide Inv, SlotOk, Onward, After, Mild;
    assert WorkerOk(w1, w1.workers[h]);
    WorkerStep(w, w1, h);
    SlotFrame(w, w1, After(g, s));
    PutKeeps(w1, g.slot, After(g, s));
  }

  lemma EnqueueKeeps(w: World, h: nat, e: Entry)
    requires Inv(w) && h < |w.workers| && EntryOk(w, e)
    ensures Inv(Enqueue(w, h, e))
  {
    Inside(w, h);
    hide Inv;
    var w' := Enqueue(w, h, e);
    assert WorkerOk(w', w'.workers[h]);
    WorkerStep(w, w', h);
  }

  lemma DequeueKeeps(w: World, h: nat)
    requires Inv(w) && h < |w.workers| && w.workers[h].queue != []
    ensures Inv(Dequeue(w, h)) && EntryOk(Dequeue(w, h), w.workers[h].queue[0])
  {
    Inside(w, h);
    hide Inv;
    var w' := Dequeue(w, h);
    assert EntryOk(w, w.workers[h].queue[0]);
    assert WorkerOk(w', w'.workers[h]);
    WorkerStep(w, w', h);
  }

  lemma HandlerKeeps(w: World, h: nat, g: Handler)
    requires Inv(w) && h < |w.workers| && HandlerOk(w, g)
    ensures Inv(SetHandler(w, h, g))
  {
    Inside(w, h);
    hide Inv;
    var w' := SetHandler(w, h, g);
    assert WorkerOk(w', w'.workers[h]);
    WorkerStep(w, w', h);
  }

  lemma ProcessKeeps(w: World, h: nat, w': World)
    requires Inv(w) && Hears(w, Process(h), w')
    ensures Inv(w')
  {
    var e := w.workers[h].queue[0];
    DequeueKeeps(w, h);
    Own(w, e.slot);
    hide Inv;
    HandlerKeeps(Dequeue(w, h), h,
                 if w.slots[e.slot].ready then Admitted(e.fwd, e.slot, w.slots[e.slot].gen) else Idle);
  }

  lemma HearKeeps(w: World, x: Step, w': World)
    requires Inv(w) && Hears(w, x, w')
    ensures Inv(w')
  {
    hide Inv, Gone;
    match x
    case Look(h, ack) => HandlerKeeps(w, h, Sought(ack, w.slotOf[ack.pod]));
    case Receive(h, fwd) => HandlerKeeps(w, h, Found(fwd, w.slotOf[fwd.pod]));
    case Hand(h, to) => DequeueKeeps(w, h); EnqueueKeeps(Dequeue(w, h), to, w.workers[h].queue[0]);
    case Process(h) => ProcessKeeps(w, h, w');
    case Go(h) => GoKeeps(w, h);
    case Seek(h, ack) => HandlerKeeps(w, h, Seeking(ack, 0));
    case _ =>
  }

  lemma StepKeeps(w: World, x: Step, w': World)
    requires Inv(w) && Next(w, x, w')
    ensures Inv(w')
  {
    hide Inv, Manages, Speaks, Hears;
    if Manages(w, x, w') {
      ManageKeeps(w, x, w');
    } else if Speaks(w, x, w') {
      SpeakKeeps(w, x, w');
    } else {
      HearKeeps(w, x, w');
    }
  }

  // ---- runs --------------------------------------------------------------

  /** A slot never used; `gen` tenancies before the start do not matter. */
  function Unused(gen: nat): Slot
  {
    Slot(false, -1, false, false, false, true, gen, {}, {}, false, {}, {}, false, false, {}, {}, {})
  }

  /** All slots empty, nothing ever sent. */
  ghost predicate Initial(w: World)
  {
    && |w.slots| <= POD_ID_SPACE && w.slotOf == map[] && w.adds == {} && w.dels == {} && w.acks == {} && w.fwds == {}
    && (forall h :: 0 <= h < |w.workers| ==> w.workers[h] == Worker(Idle, []))
    && (forall i :: 0 <= i < |w.slots| ==> w.slots[i] == Unused(w.slots[i].gen))
  }

  /** Consecutive states of any execution, from wherever it starts. */
  ghost predicate IsPath(run: seq<World>, steps: seq<Step>)
  {
    |run| == |steps| + 1 && forall i :: 0 <= i < |steps| ==> Next(run[i], steps[i], run[i + 1])
  }

  ghost predicate IsRun(run: seq<World>, steps: seq<Step>) { IsPath(run, steps) && Initial(run[0]) }

  lemma InitOk(w: World)
    requires Initial(w)
    ensures Inv(w)
  {
  }

  lemma {:induction false} PathKeeps(run: seq<World>, steps: seq<Step>, i: nat)
    requires IsPath(run, steps) && Inv(run[0]) && i < |run|
    ensures Inv(run[i])
  {
    hide Inv, Next;
    if i > 0 {
      PathKeeps(run, steps, i - 1);
      StepKeeps(run[i - 1], steps[i - 1], run[i]);
    }
  }

  lemma RunKeeps(run: seq<World>, steps: seq<Step>, i: nat)
    requires IsRun(run, steps) && i < |run|
    ensures Inv(run[i])
  {
    hide Inv, Initial, Next;
    InitOk(run[0]);
    PathKeeps(run, steps, i);
  }
}
