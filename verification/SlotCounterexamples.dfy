/**
 Runs from empty slots in which the slots' promises fail: a slot published ready
 although no unit has accepted its rings, a slot reclaimed although no unit has
 removed them, and two registered slots under one id.
 */
module SlotCounterexamples {
  import opened SlotLifecycle
  import opened SlotRuns
  import opened SlotTenancy
  import opened SlotForward
  import opened SlotIds
  import opened SlotReclaim

  ghost predicate Reachable(w: World)
  {
    exists run: seq<World>, steps: seq<Step> :: IsRun(run, steps) && run[|steps|] == w
  }

  lemma Starts(w: World)
    requires Initial(w)
    ensures Reachable(w)
  {
    assert IsRun([w], []);
  }

  lemma Reach(w: World, x: Step, w': World)
    requires Reachable(w) && Next(w, x, w')
    ensures Reachable(w')
  {
    hide Next, Initial;
    var run: seq<World>, steps: seq<Step> :| IsRun(run, steps) && run[|steps|] == w;
    assert IsRun(run + [w'], steps + [x]);
  }

  /** A slot with no connection; `gen` tenancies have come and gone. */
  function Blank(gen: nat, eus: set<nat>, acks: set<Ack>): Slot
  {
    Slot(false, -1, false, false, false, true, gen, {}, {}, false, eus, eus, false, false, {}, acks, {})
  }

  function Joined(pod: int, gen: nat, imported: bool): Slot
  {
    Slot(true, pod, pod >= 0, false, false, true, gen, {}, {}, false, {}, {}, imported, false, {}, {}, {})
  }

  function Waiting(pod: int, gen: nat, acked: set<nat>, seen: set<Ack>): Slot
  {
    Slot(true, pod, true, false, false, true, gen, {0}, acked, false, {}, {}, true, true, seen, {}, {})
  }

  function Parting(pod: int, gen: nat, acked: set<nat>, acks: set<Ack>): Slot
  {
    Slot(false, pod, false, false, true, true, gen, {0}, {}, false, {0}, acked, true, true, {}, acks, {})
  }

  /** One worker and no completions. */
  function Scene(slots: seq<Slot>, slotOf: map<int, nat>, adds: set<Ask>, dels: set<Ask>, acks: set<Ack>,
                 g: Handler): World
  {
    World(slots, slotOf, adds, dels, acks, {}, [Worker(g, [])])
  }

  lemma RecordedIs(pod: int, gen: nat, a: Ack)
    requires a.eu == 0 && a.ok
    ensures Recorded(Waiting(pod, gen, {}, {}), a) == Waiting(pod, gen, {0}, {a})
    ensures RecordedDel(Parting(pod, gen, {}, {}), a) == Parting(pod, gen, {0}, {a})
  {
    var none: set<nat>, no: set<Ack> := {}, {};
    assert none + {0} == {0} && no + {a} == {a};
  }

  function Others(n: nat): seq<Slot> { seq(n, _ => Blank(0, {}, {})) }

  /** A connection takes slot `i`, the first that can be used. */
  lemma Connects(w: World, i: nat)
    requires Reachable(w) && i < |w.slots| && exists gen, eus, acks :: w.slots[i] == Blank(gen, eus, acks)
    requires forall k :: 0 <= k < i ==> !Reusable(w.slots[k])
    ensures Reachable(Put(w, i, Joined(-1, w.slots[i].gen, false)))
  {
    hide Reachable;
    var w' := Put(w, i, Joined(-1, w.slots[i].gen, false));
    assert Manages(w, Connect(i), w');
    Reach(w, Connect(i), w');
  }

  function Enrolled(w: World, i: nat, pod: int, imported: bool): World
    requires i < |w.slots|
  {
    w.(slots := w.slots[i := Joined(pod, w.slots[i].gen, imported)], slotOf := w.slotOf[pod := i])
  }

  /** The connection registers and has its memory imported. */
  lemma Enrols(w: World, i: nat, id: int)
    requires Reachable(w) && i < |w.slots| && -1 <= id < POD_ID_SPACE && Wanted(i, id) !in w.slotOf
    requires w.slots[i] == Joined(-1, w.slots[i].gen, false)
    ensures Reachable(Enrolled(w, i, Wanted(i, id), false)) && Reachable(Enrolled(w, i, Wanted(i, id), true))
  {
    hide Reachable;
    var pod := Wanted(i, id);
    var w1, w2 := Enrolled(w, i, pod, false), Enrolled(w, i, pod, true);
    assert w1.slots == w.slots[i := w.slots[i].(pod := pod, registered := true)];
    assert Manages(w, Register(i, id), w1);
    Reach(w, Register(i, id), w1);
    assert w2 == Put(w1, i, w1.slots[i].(imported := true));
    assert Manages(w1, Import(i), w2);
    Reach(w1, Import(i), w2);
  }

  lemma Joins(w: World, i: nat, id: int)
    requires Reachable(w) && i < |w.slots| && -1 <= id < POD_ID_SPACE && Wanted(i, id) !in w.slotOf
    requires exists gen, eus, acks :: w.slots[i] == Blank(gen, eus, acks)
    requires forall k :: 0 <= k < i ==> !Reusable(w.slots[k])
    ensures Reachable(Enrolled(w, i, Wanted(i, id), false)) && Reachable(Enrolled(w, i, Wanted(i, id), true))
  {
    hide Reachable;
    Connects(w, i);
    var w1 := Put(w, i, Joined(-1, w.slots[i].gen, false));
    Enrols(w1, i, id);
    assert Enrolled(w1, i, Wanted(i, id), false) == Enrolled(w, i, Wanted(i, id), false);
    assert Enrolled(w1, i, Wanted(i, id), true) == Enrolled(w, i, Wanted(i, id), true);
  }

  /** Slot 0 is set up on unit 0. */
  lemma SetsUp(w: World, pod: int, gen: nat)
    requires Reachable(w) && |w.slots| > 0 && w.slots[0] == Joined(pod, gen, true) && pod >= 0
    ensures Reachable(w.(slots := w.slots[0 := Waiting(pod, gen + 1, {}, {})],
                         adds := w.adds + {Ask(pod, gen + 1, 0, 0)}))
  {
    hide Reachable;
    var w' := w.(slots := w.slots[0 := Waiting(pod, gen + 1, {}, {})], adds := w.adds + {Ask(pod, gen + 1, 0, 0)});
    assert Asks(pod, gen + 1, {0}, 0) == {Ask(pod, gen + 1, 0, 0)};
    assert SetUp(w.slots[0], {0}) == Waiting(pod, gen + 1, {}, {});
    assert Manages(w, Setup(0, {0}), w');
    Reach(w, Setup(0, {0}), w');
  }

  /** Slot 0 loses its connection while unit 0 runs. */
  lemma Departs(w: World, pod: int, gen: nat)
    requires Reachable(w) && |w.slots| > 0 && w.slots[0] == Waiting(pod, gen, {}, {}) && pod >= 0
    requires w.slotOf == map[pod := 0]
    ensures Reachable(w.(slots := w.slots[0 := Parting(pod, gen, {}, {})], slotOf := map[],
                         dels := w.dels + {Ask(pod, gen, 0, 0)}))
  {
    hide Reachable;
    var w' := w.(slots := w.slots[0 := Parting(pod, gen, {}, {})], slotOf := map[],
                 dels := w.dels + {Ask(pod, gen, 0, 0)});
    assert Asks(pod, gen, {0}, 0) == {Ask(pod, gen, 0, 0)};
    assert w.slotOf - {pod} == map[];
    var one: set<nat> := {0};
    assert one * one == one;
    assert w' == Leaves(w, 0, {0}, false);
    assert Manages(w, Disconnect(0, {0}), w');
    Reach(w, Disconnect(0, {0}), w');
  }

  function InHand(w: World, g: Handler): World { w.(workers := [Worker(g, [])]) }

  /** One read of the only worker. */
  lemma Reads(w: World, g: Handler)
    requires Reachable(w) && exists g0 :: w.workers == [Worker(g0, [])]
    requires var g0 := w.workers[0].handler;
             && (Acking(g0) || Deleting(g0)) && !g0.Decided? && !g0.Striking? && g0.slot < |w.slots|
             && g == Onward(g0, w.slots[g0.slot], |w.slots|)
    ensures Reachable(InHand(w, g))
  {
    hide Reachable, Onward;
    var w' := InHand(w, g);
    assert w'.workers == w.workers[0 := Worker(g, [])] && w'.slots == w.slots[w.workers[0].handler.slot :=
                                                                             w.slots[w.workers[0].handler.slot]];
    assert Hears(w, Go(0), w');
    Reach(w, Go(0), w');
  }

  /** The only worker matches a removal acknowledgement to slot 0. */
  lemma MatchesGone(w: World, pod: int, gen: nat, gone: Ack)
    requires Reachable(w) && |w.slots| > 0 && w.workers == [Worker(Idle, [])] && gone in w.acks
    requires gone == Ack(true, pod, gen, 0, true, 0) && w.slots[0].cleanup
    requires w.slots[0].pod == pod && w.slots[0].gen == gen
    ensures Reachable(InHand(w, Targeted(gone, 0, gen)))
  {
    hide Reachable;
    var w1 := InHand(w, Seeking(gone, 0));
    assert w1.workers == w.workers[0 := w.workers[0].(handler := Seeking(gone, 0))];
    assert Hears(w, Seek(0, gone), w1);
    Reach(w, Seek(0, gone), w1);
    Reads(w1, Spotted(gone, 0));
    Reads(InHand(w, Spotted(gone, 0)), Named(gone, 0));
    Reads(InHand(w, Named(gone, 0)), Targeted(gone, 0, gen));
  }

  /** What it has matched, of this generation or another, it records while slot 0 waits for unit 0. */
  lemma RecordsGone(w: World, pod: int, gen: nat, gone: Ack, read: nat)
    requires Reachable(w) && |w.slots| > 0 && w.workers == [Worker(Targeted(gone, 0, read), [])]
    requires gone.eu == 0 && gone.ok && w.slots[0] == Parting(pod, gen, {}, {})
    ensures Reachable(InHand(Put(w, 0, Parting(pod, gen, {0}, {gone})), Idle))
  {
    hide Reachable;
    Reads(w, Striking(gone, 0, read));
    var w1 := InHand(w, Striking(gone, 0, read));
    var w2 := InHand(Put(w, 0, Parting(pod, gen, {0}, {gone})), Idle);
    RecordedIs(pod, gen, gone);
    assert w2.workers == w1.workers[0 := Worker(Idle, [])];
    assert w2 == Gone(w1, 0);
    assert Hears(w1, Go(0), w2);
    Reach(w1, Go(0), w2);
  }

  /** Slot 0 is reclaimed. */
  lemma Reclaims(w: World, pod: int, gen: nat, gone: Ack)
    requires Reachable(w) && |w.slots| > 0 && w.slots[0] == Parting(pod, gen, {0}, {gone})
    requires exists g :: w.workers == [Worker(g, [])] && (g.Idle? || Deleting(g))
    ensures Reachable(Put(w, 0, Blank(gen, {0}, {gone})))
  {
    hide Reachable;
    var w' := Put(w, 0, Blank(gen, {0}, {gone}));
    assert Manages(w, Reclaim(0), w');
    Reach(w, Reclaim(0), w');
  }

  // ---- a first tenancy of slot 0 -----------------------------------------

  /**
   Slot 0's first tenancy is in cleanup, with the removal of its ring
   acknowledged and recorded, and its acceptance still in flight.
   */
  function Ending(rest: seq<Slot>, pod: int): World
  {
    var ask, old_, gone := Ask(pod, 1, 0, 0), Ack(false, pod, 1, 0, true, 0), Ack(true, pod, 1, 0, true, 0);
    Scene([Parting(pod, 1, {0}, {gone})] + rest, map[], {ask}, {ask}, {old_, gone}, Idle)
  }

  /** And once the slot is reclaimed. */
  function Past(rest: seq<Slot>, pod: int): World
  {
    Put(Ending(rest, pod), 0, Blank(1, {0}, {Ack(true, pod, 1, 0, true, 0)}))
  }

  lemma FirstTenancy(rest: seq<Slot>, pod: int)
    requires pod >= 0 && Reachable(Scene([Joined(pod, 0, true)] + rest, map[pod := 0], {}, {}, {}, Idle))
    ensures Reachable(Ending(rest, pod)) && Reachable(Past(rest, pod))
  {
    hide Reachable;
    var ask, old_, gone := Ask(pod, 1, 0, 0), Ack(false, pod, 1, 0, true, 0), Ack(true, pod, 1, 0, true, 0);
    var w := Scene([Joined(pod, 0, true)] + rest, map[pod := 0], {}, {}, {}, Idle);
    SetsUp(w, pod, 0);
    var w1 := Scene([Waiting(pod, 1, {}, {})] + rest, map[pod := 0], {ask}, {}, {}, Idle);
    assert w1 == w.(slots := w.slots[0 := Waiting(pod, 1, {}, {})], adds := w.adds + {ask});
    var w2 := w1.(acks := {old_});
    assert Speaks(w1, AnswerAdd(ask, true), w2);
    Reach(w1, AnswerAdd(ask, true), w2);
    Departs(w2, pod, 1);
    var w3 := Scene([Parting(pod, 1, {}, {})] + rest, map[], {ask}, {ask}, {old_}, Idle);
    assert w3 == w2.(slots := w2.slots[0 := Parting(pod, 1, {}, {})], slotOf := map[], dels := w2.dels + {ask});
    Ends(w3, rest, pod);
  }

  lemma Ends(w: World, rest: seq<Slot>, pod: int)
    requires Reachable(w)
    requires w == Scene([Parting(pod, 1, {}, {})] + rest, map[], {Ask(pod, 1, 0, 0)}, {Ask(pod, 1, 0, 0)},
                        {Ack(false, pod, 1, 0, true, 0)}, Idle)
    ensures Reachable(Ending(rest, pod)) && Reachable(Past(rest, pod))
  {
    hide Reachable;
    var ask, old_, gone := Ask(pod, 1, 0, 0), Ack(false, pod, 1, 0, true, 0), Ack(true, pod, 1, 0, true, 0);
    var w1 := w.(acks := {old_, gone});
    assert w1.acks == w.acks + {gone};
    assert Speaks(w, AnswerDel(ask), w1);
    Reach(w, AnswerDel(ask), w1);
    MatchesGone(w1, pod, 1, gone);
    RecordsGone(InHand(w1, Targeted(gone, 0, 1)), pod, 1, gone, 1);
    assert Ending(rest, pod) == InHand(Put(InHand(w1, Targeted(gone, 0, 1)), 0, Parting(pod, 1, {0}, {gone})), Idle);
    Reclaims(Ending(rest, pod), pod, 1, gone);
  }

  /** Slot 0 is taken and registered, in an otherwise empty table. */
  lemma Opens(n: nat, id: int)
    requires 0 < n <= POD_ID_SPACE && -1 <= id < POD_ID_SPACE
    ensures Reachable(Scene([Joined(Wanted(0, id), 0, true)] + Others(n - 1), map[Wanted(0, id) := 0], {}, {}, {},
                            Idle))
  {
    hide Reachable;
    var w := Scene(Others(n), map[], {}, {}, {}, Idle);
    Starts(w);
    assert w.slots[0] == Blank(0, {}, {});
    Joins(w, 0, id);
    assert w.slotOf[Wanted(0, id) := 0] == map[Wanted(0, id) := 0];
    assert Enrolled(w, 0, Wanted(0, id), true)
        == Scene([Joined(Wanted(0, id), 0, true)] + Others(n - 1), map[Wanted(0, id) := 0], {}, {}, {}, Idle);
  }

  // ---- what goes wrong ---------------------------------------------------

  /** Setting up between a handler's two reads lets an old acknowledgement stand for the new rings. */
  lemma OvertakenHandler()
    ensures exists w :: Reachable(w) && |w.slots| == 1 && w.slots[0].ready && !Accepted(w, 0, 0)
  {
    hide Reachable;
    Opens(1, -1);
    FirstTenancy(Others(0), 0);
    var old_ := Ack(false, 0, 1, 0, true, 0);
    var w9 := Past(Others(0), 0);
    Joins(w9, 0, -1);
    var w12 := Enrolled(w9, 0, 0, true);
    assert w12.slotOf == map[0 := 0] && w12.slots == [Joined(0, 1, true)];
    var w13 := InHand(w12, Sought(old_, 0));
    assert w13.workers == w12.workers[0 := w12.workers[0].(handler := Sought(old_, 0))];
    assert Hears(w12, Look(0, old_), w13);
    Reach(w12, Look(0, old_), w13);
    Reads(w13, Sighted(old_, 0));
    Reads(InHand(w12, Sighted(old_, 0)), Peeked(old_, 0, 1));
    Overtakes(InHand(w12, Peeked(old_, 0, 1)), old_);
  }

  lemma Overtakes(w: World, old_: Ack)
    requires Reachable(w) && old_ == Ack(false, 0, 1, 0, true, 0)
    requires w.slots == [Joined(0, 1, true)] && w.workers == [Worker(Peeked(old_, 0, 1), [])]
    ensures exists w :: Reachable(w) && |w.slots| == 1 && w.slots[0].ready && !Accepted(w, 0, 0)
  {
    hide Reachable;
    SetsUp(w, 0, 1);
    var w1 := w.(slots := w.slots[0 := Waiting(0, 2, {}, {})], adds := w.adds + {Ask(0, 2, 0, 0)});
    Reads(w1, Decided(old_, 0, 1));
    Publishes(InHand(w1, Decided(old_, 0, 1)), 0, 0, 2, old_);
  }

  /** Slot 0 can be reclaimed although no unit has acknowledged the removal of its present ring. */
  ghost predicate Unearned(w: World)
  {
    && |w.slots| == 1 && Tenancy(w, 0, 2) && 0 in w.slots[0].delExpected && !Parted(w, 0, 2, 0)
    && Next(w, Reclaim(0), Put(w, 0, Reclaimed(w.slots[0])))
  }

  /**
   A repeated removal acknowledgement, matched before the slot is reclaimed and
   recorded once its next tenancy is in cleanup, stands for the new removal.
   */
  lemma OvertakenRemoval()
    ensures exists w :: Reachable(w) && Unearned(w)
  {
    hide Reachable, Unearned;
    Opens(1, -1);
    FirstTenancy(Others(0), 0);
    var gone := Ack(true, 0, 1, 0, true, 0);
    var w := Ending(Others(0), 0);
    MatchesGone(w, 0, 1, gone);
    var w1 := InHand(w, Targeted(gone, 0, 1));
    Reclaims(w1, 0, 1, gone);
    var w2 := Put(w1, 0, Blank(1, {0}, {gone}));
    Joins(w2, 0, -1);
    var w3 := Enrolled(w2, 0, 0, true);
    assert w3.slotOf == map[0 := 0];
    SetsUp(w3, 0, 1);
    var w4 := w3.(slots := w3.slots[0 := Waiting(0, 2, {}, {})], adds := w3.adds + {Ask(0, 2, 0, 0)});
    Departs(w4, 0, 2);
    Outlives(w4.(slots := w4.slots[0 := Parting(0, 2, {}, {})], slotOf := map[], dels := w4.dels + {Ask(0, 2, 0, 0)}),
             gone);
  }

  lemma Outlives(w: World, gone: Ack)
    requires Reachable(w) && w.slots == [Parting(0, 2, {}, {})] && gone == Ack(true, 0, 1, 0, true, 0)
    requires w.workers == [Worker(Targeted(gone, 0, 1), [])] && w.acks == {Ack(false, 0, 1, 0, true, 0), gone}
    ensures exists w' :: Reachable(w') && Unearned(w')
  {
    hide Reachable;
    RecordsGone(w, 0, 2, gone, 1);
    var w' := InHand(Put(w, 0, Parting(0, 2, {0}, {gone})), Idle);
    assert Manages(w', Reclaim(0), Put(w', 0, Reclaimed(w'.slots[0])));
    assert Unearned(w');
  }

  /** A slot whose only acknowledgement is another tenancy's is published all the same. */
  lemma Publishes(w: World, i: nat, pod: int, gen: nat, a: Ack)
    requires Reachable(w) && i < |w.slots| && a.eu == 0 && a.ok && !(a.home == i && a.gen == gen)
    requires w.slots[i] == Waiting(pod, gen, {}, {}) && exists g :: w.workers == [Worker(Decided(a, i, g), [])]
    ensures exists w' :: Reachable(w') && |w'.slots| == |w.slots| && w'.slots[i].ready && !Accepted(w', i, 0)
                         && w'.slots[i] == Finalized(Waiting(pod, gen, {0}, {a}))
                         && w'.slotOf == w.slotOf && w'.adds == w.adds && |w'.workers| == 1
  {
    hide Reachable;
    RecordedIs(pod, gen, a);
    var w1 := w.(slots := w.slots[i := Waiting(pod, gen, {0}, {a})], workers := [Worker(Idle, [])]);
    assert w1.workers == w.workers[0 := Worker(Idle, [])];
    assert w1 == Gone(w, 0);
    assert Hears(w, Go(0), w1);
    Reach(w, Go(0), w1);
    var w2 := Put(w1, i, Finalized(w1.slots[i]));
    assert Manages(w1, Finalize(i), w2);
    Reach(w1, Finalize(i), w2);
    assert !Accepted(w2, i, 0);
  }

  /** Slot 1 serves under id 5 although no unit accepted it, while slot 0's ring of that id and generation is in use. */
  ghost predicate Borrows(w: World)
  {
    && |w.slots| == 2 && |w.workers| > 0 && w.slots[1].ready && !Accepted(w, 1, 0)
    && Tenancy(w, 1, 1) && Listed(w, 1) && ForeignAsk(w, 1, Ask(5, 1, 0, 0))
  }

  /**
   An id the registrant chose, used before in another slot, does the same: slot
   1 is taken while slot 0 serves under the id, and registers under it later.
   */
  lemma BorrowedId()
    ensures exists w :: Reachable(w) && Borrows(w)
  {
    hide Reachable, Borrows;
    Opens(2, 5);
    var w := Scene([Joined(5, 0, true)] + Others(1), map[5 := 0], {}, {}, {}, Idle);
    assert w.slots[1] == Blank(0, {}, {});
    Connects(w, 1);
    var held := [Joined(-1, 0, false)];
    assert Put(w, 1, Joined(-1, 0, false)) == Scene([Joined(5, 0, true)] + held, map[5 := 0], {}, {}, {}, Idle);
    FirstTenancy(held, 5);
    var w9 := Past(held, 5);
    Enrols(w9, 1, 5);
    var w12 := Enrolled(w9, 1, 5, true);
    assert w12.slotOf == map[5 := 1] && w12.slots == [w9.slots[0], Joined(5, 0, true)];
    Borrowed(w12, w9.slots[0], Ack(false, 5, 1, 0, true, 0));
  }

  lemma Borrowed(w12: World, first: Slot, old_: Ack)
    requires Reachable(w12) && old_ == Ack(false, 5, 1, 0, true, 0) && old_ in w12.acks
    requires w12.slots == [first, Joined(5, 0, true)] && w12.slotOf == map[5 := 1] && w12.workers == [Worker(Idle, [])]
    requires Ask(5, 1, 0, 0) in w12.adds
    ensures exists w :: Reachable(w) && Borrows(w)
  {
    hide Reachable;
    var w13 := w12.(slots := [first, Waiting(5, 1, {}, {})], adds := w12.adds + Asks(5, 1, {0}, 1));
    assert w13.slots == w12.slots[1 := SetUp(w12.slots[1], {0})];
    assert Manages(w12, Setup(1, {0}), w13);
    Reach(w12, Setup(1, {0}), w13);
    var w14 := InHand(w13, Sought(old_, 1));
    assert w14.workers == w13.workers[0 := w13.workers[0].(handler := Sought(old_, 1))];
    assert Hears(w13, Look(0, old_), w14);
    Reach(w13, Look(0, old_), w14);
    Reads(w14, Sighted(old_, 1));
    Reads(InHand(w13, Sighted(old_, 1)), Peeked(old_, 1, 1));
    Reads(InHand(w13, Peeked(old_, 1, 1)), Decided(old_, 1, 1));
    Publishes(InHand(w13, Decided(old_, 1, 1)), 1, 5, 1, old_);
  }

  /** From there a completion of slot 0's tenancy can be taken for slot 1's. */
  lemma BorrowedForward()
    ensures exists w, w' :: Reachable(w) && Within(w, w', 1, 1) && |w'.slots| > 1 && !OwnTaken(w', 1)
  {
    BorrowedId();
    var w :| Reachable(w) && Borrows(w);
    var run: seq<World>, steps: seq<Step> :| IsRun(run, steps) && run[|steps|] == w;
    RunKeeps(run, steps, |steps|);
    assert !OwnId(w, 1, true) by { assert Heeded(w.slots[1], true, 0); }
    hide Inv, Reachable, Within, IsRun, OwnTaken;
    IdMistaken(w, 1, 1);
  }

  /** Slot 0 has left registration under id 5 but keeps its connection. */
  function Retired(): Slot
  {
    Slot(true, 5, false, false, true, true, 0, {}, {}, false, {}, {}, false, false, {}, {}, {})
  }

  /**
   A slot in cleanup takes the index entry of its id with it although another
   slot has registered under the id, and a third can then register under it too.
   */
  lemma IdHeldTwice()
    ensures exists w :: Reachable(w) && |w.slots| == 3 && !Exact(w) && w.slots[1].registered && w.slots[2].registered
                        && w.slots[1].pod == 5 == w.slots[2].pod
  {
    hide Reachable;
    var w0 := Scene(Others(3), map[], {}, {}, {}, Idle);
    Starts(w0);
    Joins(w0, 0, 5);
    var w1 := Enrolled(w0, 0, 5, false);
    assert w1.slotOf == map[5 := 0];
    var w2 := w0.(slots := Others(3)[0 := Retired()]);
    var none: set<nat> := {};
    assert Asks(5, 0, {}, 0) == {} && none * none == none;
    assert w1.slotOf - {5} == map[] && w2 == Leaves(w1, 0, {}, true);
    assert Manages(w1, Unregister(0, {}), w2);
    Reach(w1, Unregister(0, {}), w2);
    assert w2.slots[1] == Blank(0, {}, {}) && w2.slots[2] == Blank(0, {}, {});
    Joins(w2, 1, 5);
    Loses(Enrolled(w2, 1, 5, false));
  }

  lemma Loses(w: World)
    requires Reachable(w) && w.slots == [Retired(), Joined(5, 0, false), Blank(0, {}, {})] && w.slotOf == map[5 := 1]
    ensures exists w :: Reachable(w) && |w.slots| == 3 && !Exact(w) && w.slots[1].registered && w.slots[2].registered
                        && w.slots[1].pod == 5 == w.slots[2].pod
  {
    hide Reachable;
    var w1 := w.(slots := [Retired().(conn := false), Joined(5, 0, false), Blank(0, {}, {})], slotOf := map[]);
    assert w.slotOf - {5} == map[] && w1.slots == w.slots[0 := Dropped(w.slots[0])];
    assert w1 == Drops(w, 0);
    assert Manages(w, Disconnect(0, {}), w1);
    Reach(w, Disconnect(0, {}), w1);
    Joins(w1, 2, 5);
    var w2 := Enrolled(w1, 2, 5, false);
    assert !Listed(w2, 1);
  }
}
