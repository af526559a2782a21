/**
 Publication of reverse completions into one host ring (doca/dpu_proxy.c): the
 worker stages entries, copies a run of them to the host by DMA, and reads the
 host's consumer head back when the ring looks full. A DMA in flight lands its
 entries one by one in any order; one that fails may have landed any of them,
 and the host may consume those before the worker tries again.
 */
module ReverseRing {
  import Modular

  const SIZE: nat := 8192
  const STAGE: nat := 64

  datatype Phase = Idle | MetaInflight | CtrlPending | CtrlInflight

  /** A host ring slot; `seqNo` is the ticket plus one, 0 when never written. */
  datatype Slot<E> = Slot(seqNo: nat, entry: E)

  /** The worker's publication state of one region. */
  datatype Pub<E> = Pub(stage: seq<E>, publishCount: nat, phase: Phase, tail: nat, publishTail: nat, cachedHead: nat)

  /**
   The publisher, the DMA in flight (`landed`: stage positions already copied,
   `sample`: the head the control read saw), the ring in host memory, and the
   host's consumer. `appended` and `received` are the histories on both ends.
   */
  datatype World<E> = World(
    pub: Pub<E>, landed: set<nat>, sample: nat,
    ring: seq<Slot<E>>, head: nat, ctrlHead: nat,
    appended: seq<E>, received: seq<E>)

  datatype Step<E> =
    | Append(e: E) | Kick(accepted: bool)
    | Land(i: nat) | MetaDone | MetaFail
    | Sample | CtrlDone | CtrlFail
    | Consume | ShowHead

  // ---- the publisher -----------------------------------------------------

  predicate Accepts<E>(p: Pub<E>) { !p.phase.MetaInflight? && |p.stage| < STAGE }

  function Appended<E>(p: Pub<E>, e: E): Pub<E> { p.(stage := p.stage + [e]) }

  predicate LooksFull<E>(p: Pub<E>) { p.tail + |p.stage| - p.cachedHead > SIZE }

  /** How much of the stage one copy takes: it stops at the ring's end. */
  function RunLength<E>(p: Pub<E>): nat
  {
    var contiguous := SIZE - p.tail % SIZE;
    if |p.stage| < contiguous then |p.stage| else contiguous
  }

  /** Advance publication by one DMA, if the engine takes it. */
  function Kicked<E>(p: Pub<E>, accepted: bool): Pub<E>
  {
    if p.phase.Idle? && p.stage != [] && !LooksFull(p) then
      p.(publishCount := RunLength(p),
         publishTail := if accepted then p.tail + RunLength(p) else p.publishTail,
         phase := if accepted then MetaInflight else Idle)
    else if (p.phase.Idle? && p.stage != []) || p.phase.CtrlPending? then
      p.(phase := if accepted then CtrlInflight else CtrlPending)
    else p
  }

  function Copied<E>(p: Pub<E>): Pub<E>
    requires p.publishCount <= |p.stage|
  {
    p.(tail := p.publishTail, stage := p.stage[p.publishCount..], publishCount := 0, phase := CtrlPending)
  }

  // ---- steps -------------------------------------------------------------

  predicate Enabled<E>(w: World<E>, x: Step<E>)
  {
    match x
    case Append(_) => Accepts(w.pub)
    case Kick(_) => !w.pub.phase.MetaInflight? && !w.pub.phase.CtrlInflight?
    case Land(i) => w.pub.phase.MetaInflight? && i < w.pub.publishCount <= |w.pub.stage| && |w.ring| == SIZE
    case MetaDone =>
      && w.pub.phase.MetaInflight? && w.pub.publishCount <= |w.pub.stage|
      && (forall i :: 0 <= i < w.pub.publishCount ==> i in w.landed)
    case MetaFail => w.pub.phase.MetaInflight?
    case Sample => w.pub.phase.CtrlInflight?
    case CtrlDone => w.pub.phase.CtrlInflight?
    case CtrlFail => w.pub.phase.CtrlInflight?
    case Consume => |w.ring| == SIZE && w.ring[w.head % SIZE].seqNo == w.head + 1
    case ShowHead => true
  }

  function Next<E>(w: World<E>, x: Step<E>): World<E>
    requires Enabled(w, x)
  {
    match x
    case Append(e) => w.(pub := Appended(w.pub, e), appended := w.appended + [e])
    case Kick(accepted) => w.(pub := Kicked(w.pub, accepted), landed := {}, sample := w.pub.cachedHead)
    case Land(i) =>
      w.(ring := w.ring[(w.pub.tail + i) % SIZE := Slot(w.pub.tail + i + 1, w.pub.stage[i])], landed := w.landed + {i})
    case MetaDone => w.(pub := Copied(w.pub))
    case MetaFail => w.(pub := w.pub.(phase := Idle))
    case Sample => w.(sample := w.ctrlHead)
    case CtrlDone => w.(pub := w.pub.(cachedHead := w.sample, phase := Idle))
    case CtrlFail => w.(pub := w.pub.(phase := Idle))
    case Consume => w.(head := w.head + 1, received := w.received + [w.ring[w.head % SIZE].entry])
    case ShowHead => w.(ctrlHead := w.head)
  }

  ghost predicate Initial<E>(w: World<E>)
  {
    && w.pub == Pub([], 0, Idle, 0, 0, 0) && w.sample == 0 && w.head == 0 && w.ctrlHead == 0
    && w.appended == [] && w.received == []
    && |w.ring| == SIZE && forall k :: 0 <= k < SIZE ==> w.ring[k].seqNo == 0
  }

  // ---- invariant ---------------------------------------------------------

  ghost predicate PubOk<E>(w: World<E>)
  {
    && w.pub.tail + |w.pub.stage| == |w.appended| && w.pub.stage == w.appended[w.pub.tail..]
    && |w.pub.stage| <= STAGE && w.sample <= w.ctrlHead <= w.head && w.pub.cachedHead <= w.sample
    && w.pub.tail <= w.pub.cachedHead + SIZE
    && (w.pub.phase.MetaInflight? ==>
          && 0 < w.pub.publishCount == RunLength(w.pub) && w.pub.publishTail == w.pub.tail + w.pub.publishCount
          && w.pub.tail + w.pub.publishCount <= w.pub.cachedHead + SIZE)
  }

  /** A written slot holds the entry of its ticket. */
  ghost predicate SlotOk<E>(w: World<E>, k: nat)
    requires k < |w.ring|
  {
    w.ring[k].seqNo != 0 ==>
      var t := w.ring[k].seqNo - 1;
      t % SIZE == k && t < |w.appended| && w.ring[k].entry == w.appended[t]
  }

  /** A ticket in the host's hands stands in its slot. */
  predicate Standing<E>(w: World<E>, t: nat)
    requires |w.ring| == SIZE
  {
    w.ring[t % SIZE].seqNo == t + 1
  }

  ghost predicate Inv<E>(w: World<E>)
  {
    && PubOk(w) && |w.ring| == SIZE
    && (forall k :: 0 <= k < SIZE ==> SlotOk(w, k))
    && (forall t :: w.head <= t < w.pub.tail ==> Standing(w, t))
    && (w.pub.phase.MetaInflight? ==>
          forall i :: 0 <= i < w.pub.publishCount && i in w.landed && w.head <= w.pub.tail + i ==>
            Standing(w, w.pub.tail + i))
    && w.head <= |w.appended| && w.received == w.appended[..w.head]
  }

  lemma LandSlot<E>(w: World<E>, i: nat, t: nat)
    requires Inv(w) && Enabled(w, Land(i))
    requires w.head <= t < w.pub.tail + w.pub.publishCount && t != w.pub.tail + i
    ensures t % SIZE != (w.pub.tail + i) % SIZE
  {
    if t < w.pub.tail + i {
      Modular.Distinct(t, w.pub.tail + i, SIZE);
    } else {
      Modular.Distinct(w.pub.tail + i, t, SIZE);
    }
  }

  /** A copy only ever replaces an entry the host has consumed, or the same ticket's same entry. */
  lemma OverwritesConsumed<E>(w: World<E>, i: nat)
    requires Inv(w) && Enabled(w, Land(i))
    ensures var old_ := w.ring[(w.pub.tail + i) % SIZE];
            old_.seqNo <= w.head || old_ == Slot(w.pub.tail + i + 1, w.pub.stage[i])
  {
    var k, ticket := (w.pub.tail + i) % SIZE, w.pub.tail + i;
    assert SlotOk(w, k);
    var t := w.ring[k].seqNo - 1;
    if w.ring[k].seqNo > w.head && t != ticket {
      if t < ticket {
        Modular.Distinct(t, ticket, SIZE);
      } else {
        Modular.Distinct(ticket, t, SIZE);
      }
    }
    assert w.pub.stage[i] == w.appended[ticket];
  }

  lemma LandSlots<E>(w: World<E>, i: nat, k: nat)
    requires Inv(w) && Enabled(w, Land(i)) && k < SIZE
    ensures SlotOk(Next(w, Land(i)), k)
  {
    assert w.pub.stage[i] == w.appended[w.pub.tail + i];
    assert SlotOk(w, k);
  }

  lemma LandStanding<E>(w: World<E>, i: nat, t: nat)
    requires Inv(w) && Enabled(w, Land(i)) && w.head <= t < w.pub.tail + w.pub.publishCount
    requires t == w.pub.tail + i || Standing(w, t)
    ensures Standing(Next(w, Land(i)), t)
  {
    if t != w.pub.tail + i {
      LandSlot(w, i, t);
    }
    hide Inv;
  }

  lemma LandKeeps<E>(w: World<E>, i: nat)
    requires Inv(w) && Enabled(w, Land(i))
    ensures Inv(Next(w, Land(i)))
  {
    hide SlotOk, Standing;
    var w' := Next(w, Land(i));
    forall k | 0 <= k < SIZE
      ensures SlotOk(w', k)
    {
      LandSlots(w, i, k);
    }
    forall t | w'.head <= t < w'.pub.tail
      ensures Standing(w', t)
    {
      assert Standing(w, t);
      LandStanding(w, i, t);
    }
    forall j | 0 <= j < w'.pub.publishCount && j in w'.landed && w'.head <= w'.pub.tail + j
      ensures Standing(w', w'.pub.tail + j)
    {
      assert j != i ==> Standing(w, w.pub.tail + j);
      LandStanding(w, i, w.pub.tail + j);
    }
  }

  lemma CopiedKeeps<E>(w: World<E>)
    requires Inv(w) && Enabled(w, MetaDone)
    ensures Inv(Next(w, MetaDone))
  {
    var w' := Next(w, MetaDone);
    forall k | 0 <= k < SIZE
      ensures SlotOk(w', k)
    {
      assert SlotOk(w, k);
    }
    forall t | w'.head <= t < w'.pub.tail
      ensures Standing(w', t)
    {
      assert t < w.pub.tail ==> Standing(w, t);
      assert t >= w.pub.tail ==> (t - w.pub.tail) in w.landed && Standing(w, w.pub.tail + (t - w.pub.tail));
    }
  }

  lemma ConsumeKeeps<E>(w: World<E>)
    requires Inv(w) && Enabled(w, Consume)
    ensures Inv(Next(w, Consume))
  {
    var w' := Next(w, Consume);
    assert SlotOk(w, w.head % SIZE);
    forall k | 0 <= k < SIZE
      ensures SlotOk(w', k)
    {
      assert SlotOk(w, k);
    }
    forall t | w'.head <= t < w'.pub.tail
      ensures Standing(w', t)
    {
      assert Standing(w, t);
    }
    forall j | w'.pub.phase.MetaInflight? && 0 <= j < w'.pub.publishCount && j in w'.landed &&
               w'.head <= w'.pub.tail + j
      ensures Standing(w', w'.pub.tail + j)
    {
      assert Standing(w, w.pub.tail + j);
    }
  }

  /** Every step that leaves the ring and the host alone. */
  lemma OtherKeeps<E>(w: World<E>, x: Step<E>)
    requires Inv(w) && Enabled(w, x) && !x.Land? && !x.MetaDone? && !x.Consume?
    ensures Inv(Next(w, x))
  {
    var w' := Next(w, x);
    forall k | 0 <= k < SIZE
      ensures SlotOk(w', k)
    {
      assert SlotOk(w, k);
    }
    forall t | w'.head <= t < w'.pub.tail
      ensures Standing(w', t)
    {
      assert Standing(w, t);
    }
    forall j | w'.pub.phase.MetaInflight? && 0 <= j < w'.pub.publishCount && j in w'.landed &&
               w'.head <= w'.pub.tail + j
      ensures Standing(w', w'.pub.tail + j)
    {
      assert Standing(w, w.pub.tail + j);
    }
  }

  lemma StepKeeps<E>(w: World<E>, x: Step<E>)
    requires Inv(w) && Enabled(w, x)
    ensures Inv(Next(w, x))
  {
    hide Inv, Next;
    if x.Land? {
      LandKeeps(w, x.i);
    } else if x.MetaDone? {
      CopiedKeeps(w);
    } else if x.Consume? {
      ConsumeKeeps(w);
    } else {
      OtherKeeps(w, x);
    }
  }

  // ---- runs --------------------------------------------------------------

  ghost predicate IsRun<E>(run: seq<World<E>>, steps: seq<Step<E>>)
  {
    && |run| == |steps| + 1 && Initial(run[0])
    && forall i :: 0 <= i < |steps| ==> Enabled(run[i], steps[i]) && run[i + 1] == Next(run[i], steps[i])
  }

  lemma {:induction false} RunKeeps<E>(run: seq<World<E>>, steps: seq<Step<E>>, i: nat)
    requires IsRun(run, steps) && i < |run|
    ensures Inv(run[i])
  {
    if i > 0 {
      hide Inv, Next, Enabled;
      RunKeeps(run, steps, i - 1);
      StepKeeps(run[i - 1], steps[i - 1]);
    }
  }

  /**
   What the host has received is exactly what was appended, up to where it
   stands; what was published and is not yet consumed still stands in the ring
   under its ticket; and published and staged entries together are everything
   appended.
   */
  lemma ExactPublication<E>(run: seq<World<E>>, steps: seq<Step<E>>)
    requires IsRun(run, steps)
    ensures var w := run[|run| - 1];
            && w.head <= |w.appended| && w.received == w.appended[..w.head]
            && w.pub.tail <= |w.appended| && w.appended == w.appended[..w.pub.tail] + w.pub.stage
            && |w.ring| == SIZE
            && forall t :: w.head <= t < w.pub.tail ==> w.ring[t % SIZE] == Slot(t + 1, w.appended[t])
  {
    RunKeeps(run, steps, |run| - 1);
    var w := run[|run| - 1];
    forall t | w.head <= t < w.pub.tail
      ensures w.ring[t % SIZE] == Slot(t + 1, w.appended[t])
    {
      assert Standing(w, t);
      assert SlotOk(w, t % SIZE);
    }
  }

  lemma {:induction false} Growing<E>(run: seq<World<E>>, steps: seq<Step<E>>, i: nat, j: nat)
    requires IsRun(run, steps) && i <= j < |run|
    ensures run[i].appended <= run[j].appended
  {
    if i < j {
      Growing(run, steps, i, j - 1);
      assert run[j] == Next(run[j - 1], steps[j - 1]);
    }
  }

  /** Whenever a slot bears a ticket, in any state of the run, it carries that ticket's one entry. */
  lemma TicketIsFixed<E>(run: seq<World<E>>, steps: seq<Step<E>>, i: nat, j: nat, a: nat, b: nat)
    requires IsRun(run, steps) && i <= j < |run| && a < |run[i].ring| && b < |run[j].ring|
    requires run[i].ring[a].seqNo == run[j].ring[b].seqNo != 0
    ensures a == b && run[i].ring[a].entry == run[j].ring[b].entry
  {
    RunKeeps(run, steps, i);
    RunKeeps(run, steps, j);
    Growing(run, steps, i, j);
    assert SlotOk(run[i], a) && SlotOk(run[j], b);
  }
}
