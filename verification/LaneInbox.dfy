/**
 The publication inbox of a lane (doca/dpu_proxy.c): each producing worker owns
 a stack it pushes by compare-and-swap; the lane's owner looks, takes a whole
 stack by exchange, reverses it and appends it to the lane's FIFO. A push may
 race the owner anywhere: before its look, between look and exchange, or after
 the producer loaded the stack it is about to replace.
 */
module LaneInbox {
  import opened Wrappers

  /** A unit on its way into a stack: the stack the producer last saw. */
  datatype Push<U> = Push(unit: U, seen: seq<U>)

  datatype Item<U> = Item(producer: nat, unit: U)

  /** The owner between looking at one producer's stack and exchanging it. */
  datatype Owner = Away | Looking(p: nat) | Claiming(p: nat)

  /** `me` is the worker that owns the lane. Stacks hold the newest unit first; `fifo` and `pushed` are histories. */
  datatype Inbox<U> = Inbox(me: nat, stacks: seq<seq<U>>, pushes: seq<Option<Push<U>>>, owner: Owner,
                            fifo: seq<Item<U>>, pushed: seq<seq<U>>)

  datatype Step<U> = Load(p: nat, u: U) | Swap(p: nat) | Direct(u: U) | Turn(p: nat) | Look | Exchange

  function Reverse<U>(s: seq<U>): (r: seq<U>)
    ensures |r| == |s|
  {
    if s == [] then [] else Reverse(s[1..]) + [s[0]]
  }

  function Tagged<U>(p: nat, s: seq<U>): seq<Item<U>>
  {
    seq(|s|, i requires 0 <= i < |s| => Item(p, s[i]))
  }

  ghost predicate Enabled<U>(s: Inbox<U>, x: Step<U>)
  {
    && |s.stacks| == |s.pushes| == |s.pushed|
    && match x
       case Load(p, _) => p < |s.pushes| && p != s.me && s.pushes[p].None?
       case Swap(p) => p < |s.pushes| && s.pushes[p].Some?
       case Direct(_) => s.me < |s.pushed|
       case Turn(p) => p < |s.stacks| && s.owner.Away?
       case Look => s.owner.Looking? && s.owner.p < |s.stacks|
       case Exchange => s.owner.Claiming? && s.owner.p < |s.stacks|
  }

  /** A swap whose expectation no longer holds reloads and tries again. */
  ghost function Swapped<U>(s: Inbox<U>, p: nat): Inbox<U>
    requires p < |s.pushes| == |s.stacks| == |s.pushed| && s.pushes[p].Some?
  {
    var x := s.pushes[p].value;
    var hit := s.stacks[p] == x.seen;
    s.(stacks := if hit then s.stacks[p := [x.unit] + x.seen] else s.stacks,
       pushes := s.pushes[p := if hit then None else Some(Push(x.unit, s.stacks[p]))],
       pushed := if hit then s.pushed[p := s.pushed[p] + [x.unit]] else s.pushed)
  }

  /** A unit of the owner itself goes straight to the FIFO. */
  ghost function Next<U>(s: Inbox<U>, x: Step<U>): Inbox<U>
    requires Enabled(s, x)
  {
    match x
    case Load(p, u) => s.(pushes := s.pushes[p := Some(Push(u, s.stacks[p]))])
    case Swap(p) => Swapped(s, p)
    case Direct(u) => s.(fifo := s.fifo + [Item(s.me, u)], pushed := s.pushed[s.me := s.pushed[s.me] + [u]])
    case Turn(p) => s.(owner := Looking(p))
    case Look => s.(owner := if s.stacks[s.owner.p] == [] then Away else Claiming(s.owner.p))
    case Exchange =>
      var p := s.owner.p;
      s.(stacks := s.stacks[p := []], fifo := s.fifo + Tagged(p, Reverse(s.stacks[p])), owner := Away)
  }

  /** The units of one producer, in FIFO order. */
  function Of<U>(fifo: seq<Item<U>>, p: nat): seq<U>
  {
    if fifo == [] then []
    else
      var n := |fifo| - 1;
      Of(fifo[..n], p) + if fifo[n].producer == p then [fifo[n].unit] else []
  }

  /** What a producer pushed is what reached the FIFO followed by what still stands in its stack. */
  ghost predicate Inv<U>(s: Inbox<U>)
  {
    && s.me < |s.stacks| == |s.pushes| == |s.pushed| && s.stacks[s.me] == [] && s.pushes[s.me].None?
    && forall p :: 0 <= p < |s.stacks| ==> s.pushed[p] == Of(s.fifo, p) + Reverse(s.stacks[p])
  }

  lemma {:induction false} OfAppend<U>(fifo: seq<Item<U>>, more: seq<Item<U>>, p: nat)
    ensures Of(fifo + more, p) == Of(fifo, p) + Of(more, p)
    decreases |more|
  {
    if more == [] {
      assert fifo + more == fifo;
    } else {
      var n := |more| - 1;
      assert (fifo + more)[..|fifo| + n] == fifo + more[..n];
      OfAppend(fifo, more[..n], p);
    }
  }

  lemma {:induction false} OfTagged<U>(q: nat, s: seq<U>, p: nat)
    ensures Of(Tagged(q, s), p) == if p == q then s else []
    decreases |s|
  {
    if s != [] {
      var n := |s| - 1;
      assert Tagged(q, s)[..n] == Tagged(q, s[..n]);
      OfTagged(q, s[..n], p);
      assert s == s[..n] + [s[n]];
    }
  }

  lemma AppendKeeps<U>(s: Inbox<U>, q: nat, units: seq<U>, p: nat)
    ensures Of(s.fifo + Tagged(q, units), p) == Of(s.fifo, p) + if p == q then units else []
  {
    OfAppend(s.fifo, Tagged(q, units), p);
    OfTagged(q, units, p);
  }

  lemma StepKeeps<U>(s: Inbox<U>, x: Step<U>)
    requires Inv(s) && Enabled(s, x)
    ensures Inv(Next(s, x))
  {
    hide Of, Tagged;
    var s' := Next(s, x);
    forall p | 0 <= p < |s'.stacks|
      ensures s'.pushed[p] == Of(s'.fifo, p) + Reverse(s'.stacks[p])
    {
      assert s.pushed[p] == Of(s.fifo, p) + Reverse(s.stacks[p]);
      match x
      case Swap(q) =>
        assert ([s.pushes[q].value.unit] + s.pushes[q].value.seen)[1..] == s.pushes[q].value.seen;
      case Direct(u) =>
        assert [Item(s.me, u)] == Tagged(s.me, [u]) by { One(s.me, u); }
        AppendKeeps(s, s.me, [u], p);
      case Exchange =>
        AppendKeeps(s, s.owner.p, Reverse(s.stacks[s.owner.p]), p);
      case _ =>
    }
  }

  lemma One<U>(p: nat, u: U)
    ensures Tagged(p, [u]) == [Item(p, u)]
  {
  }

  ghost predicate IsRun<U>(run: seq<Inbox<U>>, steps: seq<Step<U>>)
  {
    && |run| == |steps| + 1
    && run[0].me < |run[0].stacks| == |run[0].pushes| == |run[0].pushed| && run[0].fifo == []
    && run[0].pushes[run[0].me].None?
    && (forall p :: 0 <= p < |run[0].stacks| ==> run[0].stacks[p] == [] && run[0].pushed[p] == [])
    && forall i :: 0 <= i < |steps| ==> Enabled(run[i], steps[i]) && run[i + 1] == Next(run[i], steps[i])
  }

  /**
   Per-producer order: in every reachable state the FIFO holds, for each
   producer, exactly its pushed units in push order, but for those still in its
   stack; so each enters once, and none is lost to a racing push.
   */
  lemma {:induction false} PushOrder<U>(run: seq<Inbox<U>>, steps: seq<Step<U>>, i: nat)
    requires IsRun(run, steps) && i < |run|
    ensures Inv(run[i])
  {
    if i > 0 {
      hide Inv, Next, Enabled;
      PushOrder(run, steps, i - 1);
      StepKeeps(run[i - 1], steps[i - 1]);
    }
  }

  lemma {:induction false} ReverseSplit<U>(a: seq<U>, b: seq<U>)
    ensures Reverse(a + b) == Reverse(b) + Reverse(a)
    decreases |a|
  {
    if a == [] {
      assert a + b == b;
    } else {
      assert (a + b)[1..] == a[1..] + b;
      ReverseSplit(a[1..], b);
    }
  }

  /** The owner's reversal of a taken stack: unlink from one end, relink on the other. */
  method Unstack<U>(stack: seq<U>) returns (head: seq<U>)
    ensures head == Reverse(stack)
  {
    head := [];
    var i := 0;
    while i < |stack|
      invariant 0 <= i <= |stack| && head == Reverse(stack[..i])
    {
      ReverseSplit(stack[..i], [stack[i]]);
      assert stack[..i + 1] == stack[..i] + [stack[i]] && Reverse([stack[i]]) == [stack[i]];
      head := [stack[i]] + head;
      i := i + 1;
    }
    assert stack[..i] == stack;
  }
}
