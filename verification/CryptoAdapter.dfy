/**
 Bookkeeping of the crypto adapter (doca/peer_crypto_ipc.c): a table of requests
 in flight and a bounded queue of completions to poll. Accepted requests are
 numbered, so that each can be followed from its table slot to its one poll.
 */
module CryptoAdapter {
  import opened Wrappers
  import opened IpcCodec

  const INFLIGHT_MAX: nat := 256

  datatype Slot = Free | Used(key: Completion, id: nat)

  datatype Ended = Ended(completion: Completion, id: nat)

  /** Where an accepted request is: in its slot, at a position of the completion history, or forgotten. */
  datatype Place = Flight(slot: nat) | Queued(n: nat) | Lost

  /** `ended` is every completion ever queued; those before `polled` have been polled. */
  datatype Adapter = Adapter(slots: seq<Slot>, ended: seq<Ended>, polled: nat, keys: seq<Completion>, place: seq<Place>)

  datatype Step = Submit(key: Completion) | Complete(d: Completion) | Disconnect | Poll

  /** A completion answers a request when operation, token and action agree. */
  predicate Answers(key: Completion, d: Completion)
  {
    key.operation == d.operation && key.token == d.token && key.action == d.action
  }

  function Pending(a: Adapter): int { |a.ended| - a.polled }

  /** The first slot that satisfies the test, from `i` on. */
  function FirstFree(slots: seq<Slot>, i: nat): (k: nat)
    requires i <= |slots|
    ensures i <= k <= |slots| && (k < |slots| ==> slots[k].Free?)
    decreases |slots| - i
  {
    if i < |slots| && slots[i].Used? then FirstFree(slots, i + 1) else i
  }

  function FirstAnswered(slots: seq<Slot>, d: Completion, i: nat): (k: nat)
    requires i <= |slots|
    ensures i <= k <= |slots| && (k < |slots| ==> slots[k].Used? && Answers(slots[k].key, d))
    decreases |slots| - i
  {
    if i < |slots| && !(slots[i].Used? && Answers(slots[i].key, d)) then FirstAnswered(slots, d, i + 1) else i
  }

  /** Take the request out of its slot and queue its completion; a full queue forgets it. */
  function Ends(a: Adapter, k: nat, d: Completion): Adapter
    requires k < |a.slots| && a.slots[k].Used?
  {
    var id := a.slots[k].id;
    var full := Pending(a) == INFLIGHT_MAX;
    a.(slots := a.slots[k := Free],
       ended := if full then a.ended else a.ended + [Ended(d, id)],
       place := if id < |a.place| then a.place[id := if full then Lost else Queued(|a.ended|)] else a.place)
  }

  ghost predicate Inv(a: Adapter)
  {
    && |a.slots| == INFLIGHT_MAX && |a.keys| == |a.place| && 0 <= Pending(a) <= INFLIGHT_MAX
    && (forall k :: 0 <= k < |a.slots| && a.slots[k].Used? ==>
          a.slots[k].id < |a.place| && a.place[a.slots[k].id] == Flight(k) && a.slots[k].key == a.keys[a.slots[k].id])
    && (forall id :: 0 <= id < |a.place| && a.place[id].Flight? ==>
          a.place[id].slot < |a.slots| && a.slots[a.place[id].slot].Used? && a.slots[a.place[id].slot].id == id)
    && (forall n :: 0 <= n < |a.ended| ==>
          && a.ended[n].id < |a.place| && a.place[a.ended[n].id] == Queued(n)
          && Answers(a.keys[a.ended[n].id], a.ended[n].completion))
    && (forall id :: 0 <= id < |a.place| && a.place[id].Queued? ==>
          a.place[id].n < |a.ended| && a.ended[a.place[id].n].id == id)
  }

  /** Every request still in one of the first `n` slots ends as unknown outcome. */
  function Dropped(a: Adapter, n: nat): (r: Adapter)
    requires n <= |a.slots|
    ensures |r.slots| == |a.slots| && r.keys == a.keys && r.polled == a.polled && |r.place| == |a.place|
  {
    if n == 0 then a
    else
      var b := Dropped(a, n - 1);
      if b.slots[n - 1].Used? then Ends(b, n - 1, b.slots[n - 1].key.(status := -2)) else b
  }

  lemma EndsKeeps(a: Adapter, k: nat, d: Completion)
    requires Inv(a) && k < |a.slots| && a.slots[k].Used? && Answers(a.slots[k].key, d)
    ensures Inv(Ends(a, k, d))
  {
    hide Answers;
  }

  lemma {:induction false} DroppedKeeps(a: Adapter, n: nat)
    requires Inv(a) && n <= |a.slots|
    ensures Inv(Dropped(a, n))
  {
    hide Inv, Ends;
    if n > 0 {
      DroppedKeeps(a, n - 1);
      var b := Dropped(a, n - 1);
      if b.slots[n - 1].Used? {
        EndsKeeps(b, n - 1, b.slots[n - 1].key.(status := -2));
      }
    }
  }

  predicate Enabled(a: Adapter, x: Step)
  {
    match x
    case Submit(_) => FirstFree(a.slots, 0) < |a.slots|
    case Complete(_) => true
    case Disconnect => true
    case Poll => Pending(a) > 0
  }

  function Next(a: Adapter, x: Step): Adapter
    requires Enabled(a, x)
  {
    match x
    case Submit(key) =>
      var k := FirstFree(a.slots, 0);
      a.(slots := a.slots[k := Used(key, |a.place|)], keys := a.keys + [key], place := a.place + [Flight(k)])
    case Complete(d) =>
      var k := FirstAnswered(a.slots, d, 0);
      if k < |a.slots| then Ends(a, k, d) else a
    case Disconnect => Dropped(a, |a.slots|)
    case Poll => a.(polled := a.polled + 1)
  }

  lemma StepKeeps(a: Adapter, x: Step)
    requires Inv(a) && Enabled(a, x)
    ensures Inv(Next(a, x))
  {
    hide Answers, Dropped;
    DroppedKeeps(a, |a.slots|);
    if x.Complete? {
      var k := FirstAnswered(a.slots, x.d, 0);
      if k < |a.slots| {
        EndsKeeps(a, k, x.d);
      }
    }
  }

  // ---- how many are where ------------------------------------------------

  function Busy(slots: seq<Slot>, n: nat): nat
    requires n <= |slots|
  {
    if n == 0 then 0 else Busy(slots, n - 1) + if slots[n - 1].Used? then 1 else 0
  }

  /** Requests accepted and not yet polled. */
  function Unpolled(a: Adapter): int { Busy(a.slots, |a.slots|) + Pending(a) }

  lemma {:induction false} BusyFree(slots: seq<Slot>, k: nat, n: nat)
    requires k < |slots| && n <= |slots| && slots[k].Used?
    ensures Busy(slots[k := Free], n) == Busy(slots, n) - if k < n then 1 else 0
    ensures k < n ==> Busy(slots, n) >= 1
  {
    if n > 0 {
      BusyFree(slots, k, n - 1);
    }
  }

  ghost predicate SomeLost(a: Adapter) { exists id :: 0 <= id < |a.place| && a.place[id].Lost? }

  lemma EndsCounts(a: Adapter, k: nat, d: Completion)
    requires Inv(a) && k < |a.slots| && a.slots[k].Used? && Answers(a.slots[k].key, d)
    ensures var b := Ends(a, k, d);
            if Pending(a) == INFLIGHT_MAX then SomeLost(b) && Unpolled(b) == Unpolled(a) - 1
            else (SomeLost(b) <==> SomeLost(a)) && Unpolled(b) == Unpolled(a)
  {
    BusyFree(a.slots, k, |a.slots|);
    var b, id := Ends(a, k, d), a.slots[k].id;
    hide Busy, Answers;
    assert Pending(a) == INFLIGHT_MAX ==> b.place[id].Lost?;
    assert forall i :: 0 <= i < |a.place| && i != id ==> b.place[i] == a.place[i];
    assert a.place[id].Flight?;
    if SomeLost(a) {
      var i :| 0 <= i < |a.place| && a.place[i].Lost?;
      assert b.place[i].Lost?;
    }
    if SomeLost(b) {
      var i :| 0 <= i < |b.place| && b.place[i].Lost?;
      assert Pending(a) != INFLIGHT_MAX ==> a.place[i].Lost?;
    }
  }

  /** While the table empties into the queue, nothing is forgotten as long as everything fits. */
  lemma {:induction false} DroppedCounts(a: Adapter, n: nat)
    requires Inv(a) && n <= INFLIGHT_MAX && !SomeLost(a)
    ensures var b := Dropped(a, n);
            && (Unpolled(a) <= INFLIGHT_MAX ==> !SomeLost(b))
            && (!SomeLost(b) ==> Unpolled(b) == Unpolled(a))
            && (forall k :: 0 <= k < n ==> b.slots[k].Free?)
            && (forall k :: n <= k < INFLIGHT_MAX ==> b.slots[k] == a.slots[k])
  {
    hide Inv, Answers, Unpolled, Ends;
    DroppedSlot(a, n);
    if n > 0 {
      DroppedSlot(a, n - 1);
      DroppedKeeps(a, n - 1);
      DroppedCounts(a, n - 1);
      var b := Dropped(a, n - 1);
      if b.slots[n - 1].Used? {
        DropOne(b, n - 1);
      }
    }
  }

  lemma DropOne(b: Adapter, k: nat)
    requires Inv(b) && k < |b.slots| && b.slots[k].Used?
    ensures b.slots[k].id < |b.place|
    ensures var c := Ends(b, k, b.slots[k].key.(status := -2));
            && c.slots == b.slots[k := Free]
            && (!SomeLost(c) ==> !SomeLost(b) && Unpolled(c) == Unpolled(b))
            && (!SomeLost(b) && Unpolled(b) <= INFLIGHT_MAX ==> !SomeLost(c))
  {
    var d := b.slots[k].key.(status := -2);
    EndsCounts(b, k, d);
    BusyFree(b.slots, k, |b.slots|);
    hide Busy, SomeLost, Answers;
  }

  lemma {:induction false} NoneBusy(slots: seq<Slot>, n: nat)
    requires n <= |slots| && forall k :: 0 <= k < n ==> slots[k].Free?
    ensures Busy(slots, n) == 0
  {
    if n > 0 {
      NoneBusy(slots, n - 1);
    }
  }

  /**
   Losing the owner forgets no request exactly when the requests accepted and not
   yet polled fit the completion queue.
   */
  lemma DisconnectForgetsNothingIff(a: Adapter)
    requires Inv(a) && !SomeLost(a)
    ensures !SomeLost(Dropped(a, INFLIGHT_MAX)) <==> Unpolled(a) <= INFLIGHT_MAX
  {
    DroppedCounts(a, INFLIGHT_MAX);
    DroppedKeeps(a, INFLIGHT_MAX);
    var b := Dropped(a, INFLIGHT_MAX);
    assert |b.slots| == INFLIGHT_MAX;
    NoneBusy(b.slots, |b.slots|);
    hide Busy, SomeLost, Dropped;
  }

  /** The request has ended, as unknown outcome if it was not forgotten. */
  ghost predicate EndedUnknown(b: Adapter, id: nat, key: Completion)
  {
    && id < |b.place| && !b.place[id].Flight?
    && (b.place[id].Queued? ==> b.place[id].n < |b.ended| && b.ended[b.place[id].n] == Ended(key.(status := -2), id))
  }

  lemma EndsUnknown(b: Adapter, k: nat, id: nat, key: Completion)
    requires Inv(b) && k < |b.slots| && b.slots[k].Used?
    requires b.slots[k] == Used(key, id) || EndedUnknown(b, id, key)
    ensures b.slots[k].id < |b.place| && EndedUnknown(Ends(b, k, b.slots[k].key.(status := -2)), id, key)
  {
    hide Answers;
  }

  lemma InSlot(a: Adapter, id: nat)
    requires Inv(a) && id < |a.place| && a.place[id].Flight?
    ensures id < |a.keys| && a.place[id].slot < |a.slots| && a.slots[a.place[id].slot] == Used(a.keys[id], id)
  {
    hide Answers;
  }

  /** A request in flight when the owner is lost is queued with its own identity and unknown outcome. */
  lemma {:induction false} LostOwnerIsUnknown(a: Adapter, n: nat, id: nat)
    requires Inv(a) && n <= INFLIGHT_MAX && id < |a.place| && a.place[id].Flight? && a.place[id].slot < n
    ensures id < |a.keys| && EndedUnknown(Dropped(a, n), id, a.keys[id])
  {
    hide Inv, Answers, Ends, EndedUnknown;
    InSlot(a, id);
    DroppedSlot(a, n - 1);
    DroppedKeeps(a, n - 1);
    var b, k := Dropped(a, n - 1), n - 1;
    if a.place[id].slot < k {
      LostOwnerIsUnknown(a, k, id);
    }
    if b.slots[k].Used? {
      EndsUnknown(b, k, id, a.keys[id]);
    }
  }

  /** Slots not yet reached are as they were. */
  lemma {:induction false} DroppedSlot(a: Adapter, n: nat)
    requires Inv(a) && n <= INFLIGHT_MAX
    ensures var b := Dropped(a, n);
            |b.slots| == INFLIGHT_MAX && forall k :: n <= k < INFLIGHT_MAX ==> b.slots[k] == a.slots[k]
  {
    hide Answers;
    if n > 0 {
      DroppedSlot(a, n - 1);
    }
  }

  // ---- runs --------------------------------------------------------------

  /** Nothing in flight and nothing ever ended. */
  predicate Blank(a: Adapter)
  {
    && |a.slots| == INFLIGHT_MAX && (forall k :: 0 <= k < |a.slots| ==> a.slots[k] == Free)
    && a.ended == [] && a.polled == 0 && a.keys == [] && a.place == []
  }

  ghost predicate IsRun(run: seq<Adapter>, steps: seq<Step>)
  {
    && |run| == |steps| + 1 && Blank(run[0])
    && forall i :: 0 <= i < |steps| ==> Enabled(run[i], steps[i]) && run[i + 1] == Next(run[i], steps[i])
  }

  lemma {:induction false} RunKeeps(run: seq<Adapter>, steps: seq<Step>, i: nat)
    requires IsRun(run, steps) && i < |run|
    ensures Inv(run[i])
  {
    if i > 0 {
      RunKeeps(run, steps, i - 1);
      hide Next, Inv, Enabled;
      StepKeeps(run[i - 1], steps[i - 1]);
    }
  }

  /** The request is in a slot, waiting to be polled, or polled. */
  ghost predicate InFlight(a: Adapter, id: nat)
  {
    exists k :: 0 <= k < |a.slots| && a.slots[k].Used? && a.slots[k].id == id
  }

  ghost predicate Waiting(a: Adapter, id: nat) { exists n :: a.polled <= n < |a.ended| && a.ended[n].id == id }

  ghost predicate Polled(a: Adapter, id: nat) { exists n :: 0 <= n < a.polled && n < |a.ended| && a.ended[n].id == id }

  /** At most one completion of the request was ever queued. */
  ghost predicate EndedOnce(a: Adapter, id: nat)
  {
    forall m, n :: 0 <= m < |a.ended| && 0 <= n < |a.ended| && a.ended[m].id == id && a.ended[n].id == id ==> m == n
  }

  /** A request not forgotten is in exactly one place, and there only once; a forgotten one is nowhere. */
  lemma ExactlyOnce(a: Adapter, id: nat)
    requires Inv(a) && id < |a.place|
    ensures InFlight(a, id) || Waiting(a, id) || Polled(a, id) <==> !a.place[id].Lost?
    ensures !(InFlight(a, id) && Waiting(a, id)) && !(InFlight(a, id) && Polled(a, id)) &&
            !(Waiting(a, id) && Polled(a, id))
    ensures EndedOnce(a, id)
    ensures forall n :: 0 <= n < |a.ended| && a.ended[n].id == id ==> Answers(a.keys[id], a.ended[n].completion)
  {
    hide Answers;
    if a.place[id].Flight? {
      assert a.slots[a.place[id].slot].id == id;
    } else if a.place[id].Queued? {
      assert a.ended[a.place[id].n].id == id;
    }
  }

  // ---- exactly when a request is forgotten -------------------------------

  /**
   The two ways to forget: a completion that ends a request while the queue is
   full, and losing the owner with more accepted and unpolled than the queue
   holds.
   */
  predicate Forgets(a: Adapter, x: Step)
  {
    || (x.Complete? && FirstAnswered(a.slots, x.d, 0) < |a.slots| && Pending(a) == INFLIGHT_MAX)
    || (x.Disconnect? && Unpolled(a) > INFLIGHT_MAX)
  }

  /** A completion forgets nothing exactly when it ends no request or the queue has room. */
  lemma CompleteForgetsNothingIff(a: Adapter, d: Completion)
    requires Inv(a) && !SomeLost(a)
    ensures !SomeLost(Next(a, Complete(d))) <==> FirstAnswered(a.slots, d, 0) == |a.slots| || Pending(a) < INFLIGHT_MAX
  {
    hide Inv, Answers, SomeLost, Ends, Unpolled;
    var k := FirstAnswered(a.slots, d, 0);
    Bounds(a);
    if k < |a.slots| {
      EndsCounts(a, k, d);
    }
  }

  lemma Bounds(a: Adapter)
    requires Inv(a)
    ensures |a.slots| == INFLIGHT_MAX && Pending(a) <= INFLIGHT_MAX
  {
  }

  lemma {:induction false} DroppedStaysLost(a: Adapter, n: nat, id: nat)
    requires Inv(a) && n <= |a.slots| && id < |a.place| && a.place[id].Lost?
    ensures Dropped(a, n).place[id].Lost?
  {
    if n > 0 {
      DroppedStaysLost(a, n - 1, id);
      DroppedKeeps(a, n - 1);
      hide Answers, Dropped;
    }
  }

  /** A forgotten request stays forgotten. */
  lemma StaysLost(a: Adapter, x: Step, id: nat)
    requires Inv(a) && Enabled(a, x) && id < |a.place| && a.place[id].Lost?
    ensures id < |Next(a, x).place| && Next(a, x).place[id].Lost?
  {
    hide Answers, Dropped;
    DroppedStaysLost(a, |a.slots|, id);
  }

  lemma StepForgetsIff(a: Adapter, x: Step)
    requires Inv(a) && Enabled(a, x)
    ensures SomeLost(Next(a, x)) <==> SomeLost(a) || Forgets(a, x)
  {
    hide Inv, Dropped, Answers, Unpolled;
    if SomeLost(a) {
      var id :| 0 <= id < |a.place| && a.place[id].Lost?;
      StaysLost(a, x, id);
    } else if x.Complete? {
      CompleteForgetsNothingIff(a, x.d);
      Bounds(a);
    } else if x.Disconnect? {
      DisconnectForgetsNothingIff(a);
      Bounds(a);
    }
  }

  /** Whatever the run, a request has been forgotten exactly when some step met the condition above. */
  lemma {:induction false} ForgottenIff(run: seq<Adapter>, steps: seq<Step>, i: nat)
    requires IsRun(run, steps) && i < |run|
    ensures SomeLost(run[i]) <==> exists j :: 0 <= j < i && Forgets(run[j], steps[j])
  {
    hide Inv, Next, Forgets, SomeLost, Enabled;
    if i == 0 {
      NothingLostYet(run[0]);
    } else {
      RunKeeps(run, steps, i - 1);
      ForgottenIff(run, steps, i - 1);
      StepForgetsIff(run[i - 1], steps[i - 1]);
    }
  }

  lemma NothingLostYet(a: Adapter)
    requires Blank(a)
    ensures !SomeLost(a)
  {
  }

  /**
   In every run, each accepted request is exactly one of in flight, waiting and
   polled, and ends at most once, if and only if no step so far has forgotten.
   */
  lemma OneCompletionEachIff(run: seq<Adapter>, steps: seq<Step>, i: nat)
    requires IsRun(run, steps) && i < |run|
    ensures forall id :: 0 <= id < |run[i].place| ==>
              && EndedOnce(run[i], id)
              && !(InFlight(run[i], id) && Waiting(run[i], id)) && !(InFlight(run[i], id) && Polled(run[i], id))
              && !(Waiting(run[i], id) && Polled(run[i], id))
    ensures (forall id :: 0 <= id < |run[i].place| ==>
               InFlight(run[i], id) || Waiting(run[i], id) || Polled(run[i], id)) <==>
            (forall j :: 0 <= j < i ==> !Forgets(run[j], steps[j]))
  {
    RunKeeps(run, steps, i);
    ForgottenIff(run, steps, i);
    var a := run[i];
    hide Inv, Enabled, Next, InFlight, Waiting, Polled, EndedOnce, Forgets, IsRun;
    forall id | 0 <= id < |a.place|
      ensures InFlight(a, id) || Waiting(a, id) || Polled(a, id) <==> !a.place[id].Lost?
      ensures !(InFlight(a, id) && Waiting(a, id)) && !(InFlight(a, id) && Polled(a, id))
      ensures !(Waiting(a, id) && Polled(a, id)) && EndedOnce(a, id)
    {
      ExactlyOnce(a, id);
    }
    if SomeLost(a) {
      var id :| 0 <= id < |a.place| && a.place[id].Lost?;
      assert !(InFlight(a, id) || Waiting(a, id) || Polled(a, id));
    }
  }

  /** Requests accepted and not yet polled never outnumbering the queue is enough. */
  lemma FittingForgetsNothing(a: Adapter, x: Step)
    requires Inv(a) && Unpolled(a) <= INFLIGHT_MAX
    ensures !Forgets(a, x)
  {
    hide Inv, Answers, Busy;
    if x.Complete? {
      var k := FirstAnswered(a.slots, x.d, 0);
      if k < |a.slots| {
        BusyFree(a.slots, k, |a.slots|);
      }
    }
  }

  // ---- a run that forgets ------------------------------------------------

  ghost predicate Reachable(a: Adapter)
  {
    exists run: seq<Adapter>, steps: seq<Step> :: IsRun(run, steps) && run[|steps|] == a
  }

  lemma Reach(a: Adapter, x: Step)
    requires Reachable(a) && Enabled(a, x)
    ensures Reachable(Next(a, x))
  {
    hide Enabled, Next;
    var run: seq<Adapter>, steps: seq<Step> :| IsRun(run, steps) && run[|steps|] == a;
    assert IsRun(run + [Next(a, x)], steps + [x]);
  }

  const ID: seq<Byte> := [1, 0, 0, 0, 0, 0, 0, 0, 0, 0, 0, 0, 0, 0, 0, 0]

  function Key(i: nat): Completion { Completion(Token(1, 1, 0), i + 1, FIRST_ACTION, 0, ID, ID, 1) }

  function SlotAt(f: nat, e: nat, i: nat): Slot { if e <= i < f then Used(Key(i), i) else Free }

  function PlaceAt(e: nat, i: nat): Place { if i < e then Queued(i) else Flight(i) }

  /** After `f` requests, the first `e` of them completed and none polled. */
  predicate Filled(a: Adapter, f: nat, e: nat)
  {
    && e <= f <= INFLIGHT_MAX == |a.slots| && |a.ended| == e && a.polled == 0 && |a.keys| == |a.place| == f
    && (forall i :: 0 <= i < |a.slots| ==> a.slots[i] == SlotAt(f, e, i))
    && (forall i :: 0 <= i < e ==> a.ended[i] == Ended(Key(i), i))
    && (forall i :: 0 <= i < f ==> a.keys[i] == Key(i) && a.place[i] == PlaceAt(e, i))
  }

  lemma {:induction false} FreeAt(a: Adapter, f: nat, i: nat)
    requires Filled(a, f, 0) && i <= f < INFLIGHT_MAX
    ensures FirstFree(a.slots, i) == f
    decreases f - i
  {
    if i < f {
      FreeAt(a, f, i + 1);
    }
  }

  lemma {:induction false} AnsweredAt(a: Adapter, e: nat, i: nat)
    requires Filled(a, INFLIGHT_MAX, e) && i <= e < INFLIGHT_MAX
    ensures FirstAnswered(a.slots, Key(e), i) == e
    decreases e - i
  {
    if i < e {
      AnsweredAt(a, e, i + 1);
    }
  }

  lemma {:induction false} Fills(a0: Adapter, f: nat) returns (a: Adapter)
    requires Blank(a0) && f <= INFLIGHT_MAX
    ensures Reachable(a) && Filled(a, f, 0)
  {
    if f == 0 {
      a := a0;
      assert IsRun([a0], []);
    } else {
      var b := Fills(a0, f - 1);
      FreeAt(b, f - 1, 0);
      a := Next(b, Submit(Key(f - 1)));
      Reach(b, Submit(Key(f - 1)));
    }
  }

  lemma {:induction false} Completes(a0: Adapter, e: nat) returns (a: Adapter)
    requires Blank(a0) && e <= INFLIGHT_MAX
    ensures Reachable(a) && Filled(a, INFLIGHT_MAX, e)
  {
    if e == 0 {
      a := Fills(a0, INFLIGHT_MAX);
    } else {
      var b := Completes(a0, e - 1);
      AnsweredAt(b, e - 1, 0);
      a := Next(b, Complete(Key(e - 1)));
      Reach(b, Complete(Key(e - 1)));
    }
  }

  predicate LostAt(a: Adapter, id: nat) { id < |a.place| && a.place[id].Lost? }

  /** A request alone in the table is forgotten if the owner is lost while the queue is full. */
  lemma {:induction false} DropsLast(a: Adapter, n: nat)
    requires Inv(a) && 0 < n <= INFLIGHT_MAX && Pending(a) == INFLIGHT_MAX && a.slots[0].Used?
    requires forall k :: 0 < k < INFLIGHT_MAX ==> a.slots[k].Free?
    ensures LostAt(Dropped(a, n), a.slots[0].id)
  {
    DroppedSlot(a, n - 1);
    if n > 1 {
      DropsLast(a, n - 1);
    } else {
      assert Dropped(a, 0) == a;
    }
  }

  /**
   Not every accepted request completes: from an empty adapter, 256 requests
   completed and not polled and one more accepted lead to a state in which that
   last one is forgotten whether the owner answers it or is lost.
   */
  lemma AcceptedAndForgotten(a0: Adapter)
    requires Blank(a0)
    ensures exists a :: Reachable(a) && InFlight(a, INFLIGHT_MAX)
                        && LostAt(Next(a, Complete(Key(INFLIGHT_MAX))), INFLIGHT_MAX)
                        && LostAt(Next(a, Disconnect), INFLIGHT_MAX)
  {
    var d := Key(INFLIGHT_MAX);
    var f := Completes(a0, INFLIGHT_MAX);
    assert FirstFree(f.slots, 0) == 0;
    Reach(f, Submit(d));
    var a := Next(f, Submit(d));
    assert a.slots[0] == Used(d, INFLIGHT_MAX) && forall k :: 0 < k < INFLIGHT_MAX ==> a.slots[k] == f.slots[k];
    ReachableKeeps(a);
    DropsLast(a, INFLIGHT_MAX);
    assert FirstAnswered(a.slots, d, 0) == 0;
    hide Inv, Dropped, Reachable;
  }

  lemma ReachableKeeps(a: Adapter)
    requires Reachable(a)
    ensures Inv(a)
  {
    var run: seq<Adapter>, steps: seq<Step> :| IsRun(run, steps) && run[|steps|] == a;
    RunKeeps(run, steps, |steps|);
  }
}
