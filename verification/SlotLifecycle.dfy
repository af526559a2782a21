/**
 Life of the Pod slots (doca/comch_server.c, doca/dpa.c, doca/dpu_worker.c,
 doca/dpu_proxy.c): a connection registers, its memory is imported, rings are
 set up on a set of execution units, and the slot serves once every one of them
 has acknowledged; leaving, the slot is held until every unit has acknowledged
 the removal and all imported handles are gone.

 Units send acknowledgements and forward completions, which may be lost,
 repeated and delayed without bound. A worker handles one message at a time and
 reads the slot's fields one after the other, so the control thread can act
 between any two reads.

 `home` on a message is the slot whose tenancy caused it; the program does not
 see it. A tenancy is a slot together with a generation.
 */
module SlotLifecycle {

  const POD_ID_SPACE: int := 128

  /** A ring to add or remove, as sent to a unit; also what a forward completion says of its source. */
  datatype Ask = Ask(pod: int, gen: nat, eu: nat, home: nat)

  datatype Ack = Ack(del: bool, pod: int, gen: nat, eu: nat, ok: bool, home: nat)

  /** A forward completion queued for the worker that owns its connection. */
  datatype Entry = Entry(fwd: Ask, slot: nat)

  /**
   Where a worker is in a handler. For an acknowledgement: found its slot, saw
   it registered, read its generation `gen`, decided to record. For a completion
   that has arrived: found its slot, saw it ready. For a queued completion: saw
   the slot ready, saw its id; `at` is the generation at the first of the two.
   For a removal acknowledgement: searching the slots in order, saw this one in
   cleanup, saw its id, saw its generation `gen`, decided to record.
   */
  datatype Handler =
    | Idle
    | Sought(ack: Ack, slot: nat) | Sighted(ack: Ack, slot: nat)
    | Peeked(ack: Ack, slot: nat, gen: nat) | Decided(ack: Ack, slot: nat, gen: nat)
    | Found(fwd: Ask, slot: nat) | Lively(fwd: Ask, slot: nat)
    | Admitted(fwd: Ask, slot: nat, at: nat) | Matched(fwd: Ask, slot: nat, at: nat)
    | Seeking(ack: Ack, slot: nat) | Spotted(ack: Ack, slot: nat) | Named(ack: Ack, slot: nat)
    | Targeted(ack: Ack, slot: nat, gen: nat) | Striking(ack: Ack, slot: nat, gen: nat)

  datatype Worker = Worker(handler: Handler, queue: seq<Entry>)

  /**
   `rings`: set up since the last cleanup. `seen` and `delSeen` are the
   acknowledgements recorded in the masks, `taken` the completions processed for
   the slot, all since the last setup or cleanup.
   */
  datatype Slot = Slot(
    conn: bool, pod: int, registered: bool, ready: bool, cleanup: bool, initPending: bool,
    gen: nat, expected: set<nat>, acked: set<nat>, failed: bool,
    delExpected: set<nat>, delAcked: set<nat>,
    imported: bool, rings: bool, seen: set<Ack>, delSeen: set<Ack>, taken: set<Ask>)

  datatype World = World(
    slots: seq<Slot>, slotOf: map<int, nat>, adds: set<Ask>, dels: set<Ask>, acks: set<Ack>, fwds: set<Ask>,
    workers: seq<Worker>)

  datatype Step =
    | Connect(i: nat) | Register(i: nat, id: int) | Import(i: nat) | Setup(i: nat, eus: set<nat>) | Finalize(i: nat)
    | Unregister(i: nat, running: set<nat>) | Disconnect(i: nat, running: set<nat>) | Reclaim(i: nat)
    | AnswerAdd(ask: Ask, ok: bool) | AnswerDel(ask: Ask) | Forward(ask: Ask)
    | Look(h: nat, ack: Ack) | Receive(h: nat, fwd: Ask) | Hand(h: nat, to: nat) | Process(h: nat)
    | Seek(h: nat, ack: Ack) | Go(h: nat)

  // ---- the slot's own transitions ----------------------------------------

  predicate Reusable(s: Slot) { !s.conn && !s.registered && !s.cleanup }

  /** What the search for the slot that a removal acknowledgement names looks for. */
  predicate Matches(s: Slot, pod: int, gen: nat) { s.cleanup && s.pod == pod && s.gen == gen }

  function Connected(s: Slot): Slot
  {
    s.(conn := true, pod := -1, registered := false, cleanup := false, initPending := true,
       expected := {}, acked := {}, failed := false, delExpected := {}, delAcked := {}, seen := {}, delSeen := {})
  }

  /** A new incarnation: bump the generation, then expect every unit. */
  function SetUp(s: Slot, eus: set<nat>): Slot
  {
    s.(gen := s.gen + 1, expected := eus, acked := {}, failed := false, seen := {}, taken := {}, rings := true)
  }

  predicate Complete(s: Slot)
  {
    s.registered && s.initPending && !s.ready && s.rings && s.expected <= s.acked
  }

  function Finalized(s: Slot): Slot
  {
    s.(ready := !s.failed, initPending := false)
  }

  /** Routing stops at once; the slot stays owned until it is reclaimed. */
  function CleanedUp(s: Slot, running: set<nat>): Slot
  {
    s.(ready := false, registered := false, cleanup := true,
       delExpected := s.expected * running, delAcked := {}, delSeen := {})
  }

  predicate MustCleanUp(s: Slot) { s.pod >= 0 && (s.imported || s.rings) && !s.cleanup }

  function Dropped(s: Slot): Slot
  {
    s.(conn := false, ready := false, registered := false, pod := if s.cleanup then s.pod else -1)
  }

  function Reclaimed(s: Slot): Slot
  {
    s.(imported := false, rings := false, expected := {}, acked := {}, failed := false, seen := {},
       initPending := true, cleanup := false, pod := if s.conn then s.pod else -1)
  }

  function Recorded(s: Slot, a: Ack): Slot
  {
    s.(acked := s.acked + {a.eu}, failed := s.failed || !a.ok, seen := s.seen + {a})
  }

  function RecordedDel(s: Slot, a: Ack): Slot
  {
    s.(delAcked := s.delAcked + {a.eu}, delSeen := s.delSeen + {a})
  }

  function Took(s: Slot, m: Ask): Slot { s.(taken := s.taken + {m}) }

  // ---- the control thread ------------------------------------------------

  function Put(w: World, i: nat, s: Slot): World
    requires i < |w.slots|
  {
    w.(slots := w.slots[i := s])
  }

  function Asks(pod: int, gen: nat, eus: set<nat>, home: nat): set<Ask>
  {
    set eu | eu in eus :: Ask(pod, gen, eu, home)
  }

  /** The index entry of an id is cleared whichever slot it names. */
  function Cleared(slotOf: map<int, nat>, pod: int): map<int, nat> { slotOf - {pod} }

  function Leaves(w: World, i: nat, running: set<nat>, stays: bool): World
    requires i < |w.slots|
  {
    var s := CleanedUp(w.slots[i], running);
    w.(slots := w.slots[i := s.(conn := stays)], slotOf := Cleared(w.slotOf, s.pod),
       dels := w.dels + Asks(s.pod, s.gen, s.delExpected, i))
  }

  function Drops(w: World, i: nat): World
    requires i < |w.slots|
  {
    w.(slots := w.slots[i := Dropped(w.slots[i])], slotOf := Cleared(w.slotOf, w.slots[i].pod))
  }

  /** The id a slot asks for; a negative one asks for the slot's own number. */
  function Wanted(i: nat, id: int): int { if id < 0 then i as int else id }

  /** The handler of an acknowledgement that rings were added, or that they were removed. */
  predicate Acking(g: Handler) { g.Sought? || g.Sighted? || g.Peeked? || g.Decided? }

  predicate Deleting(g: Handler) { g.Seeking? || g.Spotted? || g.Named? || g.Targeted? || g.Striking? }

  /** No worker is inside a handler that found the slot registered or ready. */
  predicate Clear(w: World, i: nat)
  {
    forall h :: 0 <= h < |w.workers| ==>
      w.workers[h].handler.Idle? || Deleting(w.workers[h].handler) || w.workers[h].handler.slot != i
  }

  predicate CanSetUp(s: Slot) { s.conn && s.registered && s.initPending && s.imported && !s.rings && !s.ready }

  /**
   A connection takes the first reusable slot. A slot is reclaimed only past the
   worker barrier, so no handler that began before the cleanup is inside one; a
   handler of a removal acknowledgement begins during it.
   */
  ghost predicate Manages(w: World, x: Step, w': World)
  {
    match x
    case Connect(i) =>
      && i < |w.slots| && Reusable(w.slots[i]) && (forall k :: 0 <= k < i ==> !Reusable(w.slots[k]))
      && w' == Put(w, i, Connected(w.slots[i]))
    case Register(i, id) =>
      && i < |w.slots| && w.slots[i].conn && !w.slots[i].registered && !w.slots[i].cleanup
      && -1 <= id < POD_ID_SPACE && Wanted(i, id) !in w.slotOf
      && w' == w.(slots := w.slots[i := w.slots[i].(pod := Wanted(i, id), registered := true)],
                  slotOf := w.slotOf[Wanted(i, id) := i])
    case Import(i) =>
      && i < |w.slots| && w.slots[i].conn && w.slots[i].registered && w.slots[i].initPending
      && w' == Put(w, i, w.slots[i].(imported := true))
    case Setup(i, eus) =>
      && i < |w.slots| && CanSetUp(w.slots[i])
      && w' == w.(slots := w.slots[i := SetUp(w.slots[i], eus)],
                  adds := w.adds + Asks(w.slots[i].pod, w.slots[i].gen + 1, eus, i))
    case Finalize(i) => i < |w.slots| && Complete(w.slots[i]) && w' == Put(w, i, Finalized(w.slots[i]))
    case Unregister(i, running) =>
      && i < |w.slots| && w.slots[i].conn && w.slots[i].pod >= 0 && !w.slots[i].cleanup
      && w' == Leaves(w, i, running, true)
    case Disconnect(i, running) =>
      && i < |w.slots| && w.slots[i].conn
      && w' == if MustCleanUp(w.slots[i]) then Leaves(w, i, running, false) else Drops(w, i)
    case Reclaim(i) =>
      && i < |w.slots| && w.slots[i].cleanup && w.slots[i].delExpected <= w.slots[i].delAcked && Clear(w, i)
      && w' == Put(w, i, Reclaimed(w.slots[i]))
    case _ => false
  }

  // ---- units and workers -------------------------------------------------

  /** Look the id up in the index and check what it names. */
  predicate Finds(w: World, pod: int)
  {
    && pod in w.slotOf && w.slotOf[pod] < |w.slots|
    && w.slots[w.slotOf[pod]].registered && w.slots[w.slotOf[pod]].pod == pod
  }

  function SetHandler(w: World, h: nat, handler: Handler): World
    requires h < |w.workers|
  {
    w.(workers := w.workers[h := w.workers[h].(handler := handler)])
  }

  function Enqueue(w: World, h: nat, e: Entry): World
    requires h < |w.workers|
  {
    w.(workers := w.workers[h := w.workers[h].(queue := w.workers[h].queue + [e])])
  }

  function Dequeue(w: World, h: nat): World
    requires h < |w.workers| && w.workers[h].queue != []
  {
    w.(workers := w.workers[h := w.workers[h].(queue := w.workers[h].queue[1..])])
  }

  /** On to the next of `n` slots. */
  function Skip(a: Ack, j: nat, n: nat): Handler { if j + 1 < n then Seeking(a, j + 1) else Idle }

  /** Where the handler goes with its next read of slot `s`, one of `n`. */
  function Onward(g: Handler, s: Slot, n: nat): Handler
  {
    match g
    case Sought(a, j) => if s.registered then Sighted(a, j) else Idle
    case Sighted(a, j) => Peeked(a, j, s.gen)
    case Peeked(a, j, gen) => if a.gen == gen && a.eu in s.expected then Decided(a, j, gen) else Idle
    case Found(m, j) => if s.ready then Lively(m, j) else Idle
    case Admitted(m, j, at) => if s.pod == m.pod then Matched(m, j, at) else Idle
    case Seeking(a, j) => if s.cleanup then Spotted(a, j) else Skip(a, j, n)
    case Spotted(a, j) => if s.pod == a.pod then Named(a, j) else Skip(a, j, n)
    case Named(a, j) => if s.gen == a.gen then Targeted(a, j, s.gen) else Skip(a, j, n)
    case Targeted(a, j, gen) => if a.ok && a.eu in s.delExpected then Striking(a, j, gen) else Idle
    case _ => Idle
  }

  /** What the handler does to slot `s` on its way. */
  function After(g: Handler, s: Slot): Slot
  {
    match g
    case Decided(a, _, _) => Recorded(s, a)
    case Matched(m, _, _) => if s.gen == m.gen then Took(s, m) else s
    case Striking(a, _, _) => RecordedDel(s, a)
    case _ => s
  }

  function QueueAfter(g: Handler, s: Slot, queue: seq<Entry>): seq<Entry>
  {
    if g.Lively? && s.gen == g.fwd.gen then queue + [Entry(g.fwd, g.slot)] else queue
  }

  /** One more read, and what the handler does with it. */
  function Gone(w: World, h: nat): World
    requires h < |w.workers| && !w.workers[h].handler.Idle? && w.workers[h].handler.slot < |w.slots|
  {
    var g := w.workers[h].handler;
    var s := w.slots[g.slot];
    w.(slots := w.slots[g.slot := After(g, s)],
       workers := w.workers[h := Worker(Onward(g, s, |w.slots|), QueueAfter(g, s, w.workers[h].queue))])
  }

  function Answered(ask: Ask, del: bool, ok: bool): Ack { Ack(del, ask.pod, ask.gen, ask.eu, ok, ask.home) }

  ghost predicate Speaks(w: World, x: Step, w': World)
  {
    match x
    case AnswerAdd(ask, ok) => ask in w.adds && w' == w.(acks := w.acks + {Answered(ask, false, ok)})
    case AnswerDel(ask) => ask in w.dels && w' == w.(acks := w.acks + {Answered(ask, true, true)})
    case Forward(ask) => ask in w.adds && w' == w.(fwds := w.fwds + {ask})
    case _ => false
  }

  predicate IdleAt(w: World, h: nat) { h < |w.workers| && w.workers[h].handler.Idle? }

  ghost predicate Hears(w: World, x: Step, w': World)
  {
    match x
    case Look(h, ack) =>
      && IdleAt(w, h) && ack in w.acks && !ack.del && Finds(w, ack.pod)
      && w' == SetHandler(w, h, Sought(ack, w.slotOf[ack.pod]))
    case Receive(h, fwd) =>
      IdleAt(w, h) && fwd in w.fwds && Finds(w, fwd.pod) && w' == SetHandler(w, h, Found(fwd, w.slotOf[fwd.pod]))
    case Hand(h, to) =>
      && IdleAt(w, h) && w.workers[h].queue != [] && to < |w.workers| && to != h
      && w' == Enqueue(Dequeue(w, h), to, w.workers[h].queue[0])
    case Process(h) =>
      && IdleAt(w, h) && w.workers[h].queue != [] && w.workers[h].queue[0].slot < |w.slots|
      && var e := w.workers[h].queue[0];
         w' == SetHandler(Dequeue(w, h), h,
                          if w.slots[e.slot].ready then Admitted(e.fwd, e.slot, w.slots[e.slot].gen) else Idle)
    case Go(h) =>
      && h < |w.workers| && !w.workers[h].handler.Idle? && w.workers[h].handler.slot < |w.slots|
      && w' == Gone(w, h)
    case Seek(h, ack) =>
      IdleAt(w, h) && ack in w.acks && ack.del && |w.slots| > 0 && w' == SetHandler(w, h, Seeking(ack, 0))
    case _ => false
  }

  ghost predicate Next(w: World, x: Step, w': World) { Manages(w, x, w') || Speaks(w, x, w') || Hears(w, x, w') }

  // ---- what always holds -------------------------------------------------

  predicate MasksOk(s: Slot)
  {
    && (forall a :: a in s.seen ==> !a.del && a.eu in s.acked)
    && (forall eu :: eu in s.acked ==> exists a :: a in s.seen && a.eu == eu)
    && (s.failed <==> exists a :: a in s.seen && !a.ok)
    && (forall a :: a in s.delSeen ==> a.del && a.ok && a.eu in s.delAcked)
    && (forall eu :: eu in s.delAcked ==> exists a :: a in s.delSeen && a.eu == eu)
  }

  /** How a slot's flags hang together. */
  predicate FlagsOk(s: Slot)
  {
    && (s.registered ==> s.conn && !s.cleanup) && (s.registered || s.cleanup ==> s.pod >= 0) && s.pod < POD_ID_SPACE
    && (s.imported || s.rings ==> s.registered || s.cleanup)
    && (s.ready ==> s.registered && s.rings) && (!s.rings ==> s.expected == {} && s.initPending)
  }

  /** What the slot has recorded was sent, and what it has processed bears its id and present generation. */
  predicate HeardOk(w: World, s: Slot)
  {
    && s.seen <= w.acks && s.delSeen <= w.acks
    && (s.rings ==> forall m :: m in s.taken ==> m in w.fwds && m.gen == s.gen && m.pod == s.pod)
  }

  predicate SlotOk(w: World, s: Slot) { MasksOk(s) && FlagsOk(s) && HeardOk(w, s) }

  /** An index entry names a registered slot under its id. */
  predicate IndexOk(w: World)
  {
    forall id :: id in w.slotOf ==> Finds(w, id)
  }

  /** Messages name no generation of their home's future. */
  predicate AskOk(w: World, a: Ask) { a.home < |w.slots| && a.gen <= w.slots[a.home].gen }

  predicate AckOk(w: World, a: Ack) { Ask(a.pod, a.gen, a.eu, a.home) in if a.del then w.dels else w.adds }

  predicate HandlerOk(w: World, g: Handler)
  {
    g.Idle? || (
      && g.slot < |w.slots|
      && (Acking(g) ==> g.ack in w.acks && !g.ack.del)
      && (g.Peeked? || g.Decided? ==> g.gen <= w.slots[g.slot].gen)
      && (g.Decided? ==> g.ack.gen == g.gen)
      && (g.Found? || g.Lively? ==> g.fwd in w.fwds)
      && (g.Admitted? || g.Matched? ==> g.fwd in w.fwds && w.slots[g.slot].rings && g.at == w.slots[g.slot].gen)
      && (g.Matched? ==> g.fwd.pod == w.slots[g.slot].pod)
      && (Deleting(g) ==> g.ack in w.acks && g.ack.del)
      && (g.Targeted? || g.Striking? ==> g.ack.gen == g.gen <= w.slots[g.slot].gen) && (g.Striking? ==> g.ack.ok))
  }

  predicate EntryOk(w: World, e: Entry) { e.slot < |w.slots| && e.fwd in w.fwds }

  predicate WorkerOk(w: World, m: Worker)
  {
    HandlerOk(w, m.handler) && forall k :: 0 <= k < |m.queue| ==> EntryOk(w, m.queue[k])
  }

  predicate MessagesOk(w: World)
  {
    && (forall a :: a in w.adds ==> AskOk(w, a)) && (forall a :: a in w.dels ==> AskOk(w, a))
    && (forall a :: a in w.acks ==> AckOk(w, a)) && w.fwds <= w.adds
  }

  /** The removal of every unit awaited has been asked for, and no tenancy's before it is in cleanup. */
  predicate RemovalOk(w: World)
  {
    && (forall i, eu :: 0 <= i < |w.slots| && eu in w.slots[i].delExpected && w.slots[i].cleanup ==>
          Ask(w.slots[i].pod, w.slots[i].gen, eu, i) in w.dels)
    && (forall a :: a in w.dels && a.home < |w.slots| && a.gen == w.slots[a.home].gen ==>
          w.slots[a.home].rings ==> w.slots[a.home].cleanup)
  }

  ghost predicate Inv(w: World)
  {
    && |w.slots| <= POD_ID_SPACE && RemovalOk(w)
    && (forall i :: 0 <= i < |w.slots| ==> SlotOk(w, w.slots[i])) && IndexOk(w) && MessagesOk(w)
    && (forall h :: 0 <= h < |w.workers| ==> WorkerOk(w, w.workers[h]))
  }

  /** An acknowledgement of the slot's present tenancy. */
  predicate OwnAck(w: World, i: nat, a: Ack)
    requires i < |w.slots|
  {
    a in w.acks && a.home == i && a.gen == w.slots[i].gen
  }
}
