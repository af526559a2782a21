/** The publication state as the worker keeps it: a fixed stage of slots updated in place. */
module ReversePublisher {
  import opened ReverseRing

  /** The entries of the first `n` slots. */
  function Entries<E>(slots: seq<Slot<E>>, n: nat): seq<E>
    requires n <= |slots|
  {
    seq(n, i requires 0 <= i < n => slots[i].entry)
  }

  class Publisher<E(0)> {
    const stage: array<Slot<E>>
    var count: nat
    var publishCount: nat
    var phase: Phase
    var tail: nat
    var publishTail: nat
    var cachedHead: nat

    ghost predicate Valid()
      reads this, stage
    {
      stage.Length == STAGE && count <= STAGE && publishCount <= STAGE
    }

    ghost function Model(): Pub<E>
      requires Valid()
      reads this, stage
    {
      Pub(Entries(stage[..], count), publishCount, phase, tail, publishTail, cachedHead)
    }

    constructor (blank: E)
      ensures Valid() && fresh(stage) && Model() == Pub([], 0, Idle, 0, 0, 0)
    {
      stage := new Slot<E>[STAGE](_ => Slot(0, blank));
      count, publishCount, phase, tail, publishTail, cachedHead := 0, 0, Idle, 0, 0, 0;
    }

    /** Reserve and fill the next stage entry, or refuse: mid-publication or full. */
    method Append(e: E) returns (ok: bool)
      requires Valid()
      modifies this`count, stage
      ensures Valid() && ok == Accepts(old(Model()))
      ensures Model() == if ok then Appended(old(Model()), e) else old(Model())
    {
      ok := !phase.MetaInflight? && count < STAGE;
      if ok {
        stage[count] := Slot(0, e);
        count := count + 1;
        assert Entries(stage[..], count) == old(Entries(stage[..], count)) + [e];
      }
    }

    /** Stamp the run with its tickets. */
    method Stamp(n: nat)
      requires Valid() && n <= count
      modifies stage
      ensures Valid() && Model() == old(Model())
      ensures forall i :: 0 <= i < n ==> stage[i].seqNo == tail + i + 1
    {
      for k := 0 to n
        invariant forall i :: 0 <= i < k ==> stage[i].seqNo == tail + i + 1
        invariant forall i :: 0 <= i < STAGE ==> stage[i].entry == old(stage[i].entry)
      {
        stage[k] := Slot(tail + k + 1, stage[k].entry);
      }
      assert Entries(stage[..], count) == old(Entries(stage[..], count));
    }

    /** Start the next copy or control read; `accepted` says whether the engine took it. */
    method Kick(accepted: bool) returns (submitted: bool)
      requires Valid()
      modifies this`publishCount, this`publishTail, this`phase, stage
      ensures Valid() && Model() == Kicked(old(Model()), accepted)
      ensures submitted ==> accepted && (phase.MetaInflight? || phase.CtrlInflight?)
      ensures submitted && phase.MetaInflight? ==>
                forall i :: 0 <= i < publishCount <= count ==> stage[i].seqNo == tail + i + 1
    {
      submitted := false;
      if phase.Idle? {
        if count == 0 {
          return;
        }
        if tail + count - cachedHead > SIZE {
          phase := CtrlPending;
        } else {
          var contiguous := SIZE - tail % SIZE;
          publishCount := if count < contiguous then count else contiguous;
          Stamp(publishCount);
          if accepted {
            publishTail, phase, submitted := tail + publishCount, MetaInflight, true;
          }
          return;
        }
      }
      if phase.CtrlPending? && accepted {
        phase, submitted := CtrlInflight, true;
      }
    }

    /** The copy finished: move what is left of the stage to its front. */
    method CopyDone()
      requires Valid() && publishCount <= count
      modifies this`tail, this`count, this`publishCount, this`phase, stage
      ensures Valid() && Model() == Copied(old(Model()))
    {
      var n, left := publishCount, count - publishCount;
      for k := 0 to left
        invariant count == old(count) && publishCount == n && tail == old(tail) && phase == old(phase)
        invariant forall i :: 0 <= i < k ==> stage[i] == old(stage[..])[i + n]
        invariant forall i :: k <= i < STAGE ==> stage[i] == old(stage[i])
      {
        stage[k] := stage[k + n];
      }
      tail, count, publishCount, phase := publishTail, left, 0, CtrlPending;
      assert Entries(stage[..], count) == old(Entries(stage[..], count)[publishCount..]);
    }

    /** A control read landed: remember the consumer head it saw. */
    method CtrlDone(consumerHead: nat)
      requires Valid()
      modifies this`cachedHead, this`phase
      ensures Valid() && Model() == old(Model()).(cachedHead := consumerHead, phase := Idle)
    {
      cachedHead, phase := consumerHead, Idle;
    }

    /** A copy or control read failed: the stage stays as it is, to be published again under the same tickets. */
    method Failed()
      requires Valid()
      modifies this`phase
      ensures Valid() && Model() == old(Model()).(phase := Idle)
    {
      phase := Idle;
    }
  }
}
