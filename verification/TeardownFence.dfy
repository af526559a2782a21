/** What a worker's fenced bit stands for, and exactly when. */
module TeardownFence {
  import opened Teardown
  import opened TeardownRuns
  import opened TeardownProgress

  // ---- a fence of this cleanup means drained -----------------------------

  /** No fence was, or is about to be, set by a pass older than this cleanup. */
  predicate FreshAt(s: State, w: nat)
    requires w < |s.workers|
  {
    && (WipedFence(s.main) && w in s.fenced ==> !s.workers[w].lapsed)
    && !(s.workers[w].pc.SetFence? && s.workers[w].aged)
  }

  predicate Fresh(s: State)
  {
    WipedQuiet(s.main) && forall w :: 0 <= w < |s.workers| ==> FreshAt(s, w)
  }

  lemma DeadFresh(s: State, x: Step, s': State, v: nat)
    requires Inv(s) && Dead(s, x, s') && WipedQuiet(s.main) && v < |s.workers| && FreshAt(s, v)
    ensures |s'.workers| == |s.workers| && s'.main == s.main && FreshAt(s', v)
  {
    Own(s, v);
    hide Inv, ScanOk, FenceOk, Empty, Full;
  }

  lemma BusyFresh(s: State, x: Step, s': State, v: nat)
    requires Busy(s, x, s') && v < |s.workers| && FreshAt(s, v)
    ensures |s'.workers| == |s.workers| && s'.main == s.main && FreshAt(s', v)
  {
    BusyAside(s, x, s', v);
    hide Busy;
  }

  /** Moving units along changes neither where a worker stands nor its bits. */
  lemma MovesAside(s: State, x: Step, s': State, v: nat)
    requires Moves(s, x, s') && v < |s.workers|
    ensures |s'.workers| == |s.workers| && s'.main == s.main && s'.fenced == s.fenced
    ensures var m, m' := s.workers[v], s'.workers[v]; m'.pc == m.pc && m'.aged == m.aged && m'.lapsed == m.lapsed
  {
  }

  lemma MovesFresh(s: State, x: Step, s': State, v: nat)
    requires Moves(s, x, s') && v < |s.workers| && FreshAt(s, v)
    ensures |s'.workers| == |s.workers| && s'.main == s.main && FreshAt(s', v)
  {
    MovesAside(s, x, s', v);
    hide Moves;
  }

  lemma ServesFresh(s: State, x: Step, s': State, v: nat)
    requires Serves(s, x, s') && v < |s.workers| && FreshAt(s, v)
    ensures |s'.workers| == |s.workers| && s'.main == s.main && FreshAt(s', v)
  {
  }

  lemma FreshStep(s: State, x: Step, s': State)
    requires Inv(s) && Next(s, x, s') && Fresh(s)
    ensures Fresh(s')
  {
    hide Inv, Busy, Moves, Dead, Serves, FreshAt;
    if Dead(s, x, s') {
      DeadStays(s, x, s');
      forall v | 0 <= v < |s'.workers|
        ensures FreshAt(s', v)
      {
        DeadFresh(s, x, s', v);
      }
    } else if Busy(s, x, s') || Moves(s, x, s') || Serves(s, x, s') {
      OthersSize(s, x, s');
      forall v | 0 <= v < |s'.workers|
        ensures FreshAt(s', v)
      {
        if Busy(s, x, s') {
          BusyFresh(s, x, s', v);
        } else if Moves(s, x, s') {
          MovesFresh(s, x, s', v);
        } else {
          ServesFresh(s, x, s', v);
        }
      }
    } else {
      ControlFresh(s);
    }
  }

  lemma OthersSize(s: State, x: Step, s': State)
    requires Busy(s, x, s') || Moves(s, x, s') || Serves(s, x, s')
    ensures |s'.workers| == |s.workers| && s'.main == s.main
  {
    if Busy(s, x, s') || Moves(s, x, s') {
      hide Busy, Moves, Serves;
      BusyStays(s, x, s');
    }
  }

  lemma ControlFresh(s: State)
    requires Fresh(s)
    ensures Fresh(Controlled(s))
  {
    forall v | 0 <= v < |s.workers|
      ensures FreshAt(Controlled(s), v)
    {
      assert FreshAt(s, v);
    }
  }

  lemma StaysWiped(s: State, x: Step, s': State)
    requires Next(s, x, s')
    ensures (WipedQuiet(s.main) ==> WipedQuiet(s'.main)) && (WipedFence(s.main) ==> WipedFence(s'.main))
  {
    hide Busy, Moves, Dead;
    if Busy(s, x, s') || Moves(s, x, s') {
      BusyStays(s, x, s');
    } else if Dead(s, x, s') {
      DeadStays(s, x, s');
    }
  }

  lemma {:induction false} FreshPath(run: seq<State>, steps: seq<Step>, k: nat)
    requires Path(run, steps) && k < |run| && Inv(run[0]) && Fresh(run[0]) && WipedFence(run[0].main)
    ensures Inv(run[k]) && Fresh(run[k]) && WipedFence(run[k].main)
  {
    hide Inv, Next, Fresh;
    if k > 0 {
      FreshPath(run, steps, k - 1);
      FreshStep(run[k - 1], steps[k - 1], run[k]);
      StaysWiped(run[k - 1], steps[k - 1], run[k]);
      StepKeeps(run[k - 1], steps[k - 1], run[k]);
    }
  }

  /** Every producer has joined and none is about to publish, and the worker's lanes are empty. */
  predicate DrainedFor(s: State, w: nat)
    requires w < |s.workers|
  {
    && Empty(s.workers[w])
    && forall v :: 0 <= v < |s.workers| ==> v in s.producers && !Intends(s.workers[v].pc) && !s.workers[v].pc.Live?
  }

  predicate FencesHold(s: State)
  {
    forall w :: 0 <= w < |s.workers| && w in s.fenced ==> DrainedFor(s, w)
  }

  lemma FreshHolds(s: State)
    requires Inv(s) && Fresh(s) && WipedFence(s.main)
    ensures FencesHold(s)
  {
    forall w | 0 <= w < |s.workers| && w in s.fenced
      ensures DrainedFor(s, w)
    {
      assert FreshAt(s, w);
      Own(s, w);
      assert Drained(s, s.workers[w]);
      forall v | 0 <= v < |s.workers|
        ensures v in s.producers && !Intends(s.workers[v].pc) && !s.workers[v].pc.Live?
      {
        Own(s, v);
      }
    }
  }

  predicate Fencing(m: Worker) { m.pc.SetFence? }

  predicate NoneFencing(s: State)
  {
    forall w :: 0 <= w < |s.workers| ==> !Fencing(s.workers[w])
  }

  /** A worker that decided on its fence before the masks were zeroed sets it for lanes nobody has drained. */
  lemma OldFence(s: State, w: nat)
    requires Inv(s) && s.main.Zeroed3? && w < |s.workers| && s.workers[w].pc.SetFence?
    ensures Leads(s, Finished(s, w)) && !FencesHold(Finished(s, w))
  {
    Own(s, w);
    Stays(s);
    hide Inv, Leads;
    Finishing(s, s, w);
    assert !DrainedFor(Finished(s, w), w);
  }

  /**
   From the moment the fenced bits have been zeroed: every fenced bit, whenever
   it is seen, stands for a worker whose lanes are empty with every producer
   joined, if and only if no worker had by then decided to set its own.
   */
  lemma FenceMeansDrainedIff(run: seq<State>, steps: seq<Step>, z: nat)
    requires IsRun(run, steps) && NoneBelated(run[0]) && z < |steps| && steps[z] == Control && run[z].main.Zeroed2?
    ensures (forall t :: Leads(run[z + 1], t) ==> FencesHold(t)) <==>
            NoneFencing(run[z + 1])
  {
    RunKeeps(run, steps, z + 1);
    var s := run[z + 1];
    assert Next(run[z], steps[z], s);
    assert s == Controlled(run[z]);
    hide Next, Initial, Inv;
    if !NoneFencing(s) {
      var w :| 0 <= w < |s.workers| && Fencing(s.workers[w]);
      OldFence(s, w);
    } else {
      assert forall w :: 0 <= w < |s.workers| ==> !Fencing(s.workers[w]);
      assert Fresh(s);
      forall t | Leads(s, t)
        ensures FencesHold(t)
      {
        var r, xs :| Path(r, xs) && r[0] == s && r[|r| - 1] == t;
        FreshPath(r, xs, |r| - 1);
        FreshHolds(t);
      }
    }
  }

  // ---- a fence follows a quiet pass --------------------------------------

  /** A worker inside a pass has begun it, and decides on its bits with nothing in flight. */
  predicate PassOk(m: Worker)
  {
    (InDeadPass(m.pc) ==> m.calm >= 1) && (m.pc.SetQuiet? || m.pc.SetFence? ==> m.flight == 0)
  }

  /** A quiesced bit of this cleanup means nothing in flight; a pass that found it set is the second since. */
  predicate CalmOk(s: State, w: nat)
    requires w < |s.workers|
  {
    var m := s.workers[w];
    && PassOk(m) && (s.ready ==> !InDeadPass(m.pc))
    && (w in s.quiesced ==> !s.ready && m.flight == 0 && m.calm >= 1 && !m.pc.Live?
                            && (InDeadPass(m.pc) ==> m.calm >= 2 || m.pc.ClearFence?))
    && ((m.pc.Scan? || Walked(m.pc)) && m.pc.qs && w in s.quiesced ==> m.calm >= 2)
    && (m.pc.SetFence? && !m.aged ==> m.calm >= 2)
    && (WipedFence(s.main) && w in s.fenced && !m.lapsed ==> m.flight == 0 && m.calm >= 2)
  }

  ghost predicate Calm(s: State)
  {
    WipedQuiet(s.main) && forall w :: 0 <= w < |s.workers| ==> CalmOk(s, w)
  }

  /** What a step outside the dead pass does to any one worker, as far as its calm goes. */
  predicate Aside(s: State, m: Worker, m': Worker)
  {
    && m'.flight == m.flight && m'.lapsed == m.lapsed
    && ((m'.pc == m.pc && m'.calm == m.calm && m'.aged == m.aged)
        || (m'.calm == m.calm && !InDeadPass(m.pc) && (m'.pc.Out? || Intends(m'.pc)))
        || (m'.calm == m.calm + 1 && m.pc.Out? && m'.pc == if s.ready then Live else TopPending))
  }

  lemma PublishAside(s: State, w: nat, v: nat)
    requires w < |s.workers| && v < |s.workers| && Intends(s.workers[w].pc)
    requires s.workers[w].pc.Push? ==>
               s.workers[w].pc.t < |s.workers| && s.workers[w].pc.c < |s.workers[s.workers[w].pc.t].inbox|
    ensures var s' := Published(s, w);
            && |s'.workers| == |s.workers| && Aside(s, s.workers[v], s'.workers[v])
            && s'.ready == s.ready && s'.main == s.main && s'.quiesced == s.quiesced && s'.fenced == s.fenced
  {
  }

  lemma BusyAside(s: State, x: Step, s': State, v: nat)
    requires Busy(s, x, s') && v < |s.workers|
    ensures |s'.workers| == |s.workers| && Aside(s, s.workers[v], s'.workers[v])
    ensures s'.ready == s.ready && s'.main == s.main && s'.quiesced == s.quiesced && s'.fenced == s.fenced
  {
    hide Published;
    if x.Publish? {
      PublishAside(s, x.w, v);
    }
  }

  lemma BusyCalm(s: State, x: Step, s': State, v: nat)
    requires Busy(s, x, s') && Calm(s) && v < |s.workers|
    ensures |s'.workers| == |s.workers| && CalmOk(s', v)
  {
    assert CalmOk(s, v);
    BusyAside(s, x, s', v);
    hide Busy;
  }

  lemma MovesCalm(s: State, x: Step, s': State, v: nat)
    requires Inv(s) && Moves(s, x, s') && Calm(s) && v < |s.workers|
    ensures |s'.workers| == |s.workers| && CalmOk(s', v)
  {
    Own(s, v);
    assert CalmOk(s, v);
    hide Inv, ScanOk, SampleOk, VerdictOk;
  }

  lemma TopCalm(s: State, w: nat, v: nat)
    requires Inv(s) && Calm(s) && w < |s.workers| && v < |s.workers|
    ensures CalmOk(Topped(s, w), v)
  {
    Own(s, v);
    assert CalmOk(s, v);
    hide Inv, ScanOk, VerdictOk, FenceOk;
  }

  lemma FinishCalm(s: State, w: nat, v: nat)
    requires Inv(s) && Calm(s) && w < |s.workers| && v < |s.workers|
    ensures |Finished(s, w).workers| == |s.workers| && CalmOk(Finished(s, w), v)
  {
    Own(s, v);
    assert CalmOk(s, v);
    hide Inv, ScanOk, VerdictOk, FenceOk, Full;
  }

  lemma DeadCalm(s: State, x: Step, s': State, v: nat)
    requires Inv(s) && Dead(s, x, s') && Calm(s) && v < |s.workers|
    ensures |s'.workers| == |s.workers| && CalmOk(s', v)
  {
    hide Inv, Topped, Finished;
    assert CalmOk(s, v);
    if x.Top? {
      TopCalm(s, x.w, v);
      assert s' == Topped(s, x.w);
      hide CalmOk;
      DeadStays(s, x, s');
    } else if x.Finish? {
      FinishCalm(s, x.w, v);
    }
  }

  lemma ControlCalm(s: State)
    requires Calm(s)
    ensures Calm(Controlled(s))
  {
    forall v | 0 <= v < |s.workers|
      ensures CalmOk(Controlled(s), v)
    {
      assert CalmOk(s, v);
    }
  }

  lemma CalmStep(s: State, x: Step, s': State)
    requires Inv(s) && Next(s, x, s') && Calm(s)
    ensures Calm(s')
  {
    StaysWiped(s, x, s');
    hide Inv, Busy, Moves, Dead, CalmOk;
    if Busy(s, x, s') || Moves(s, x, s') || Dead(s, x, s') {
      if Dead(s, x, s') {
        DeadStays(s, x, s');
      } else {
        BusyStays(s, x, s');
      }
      forall v | 0 <= v < |s'.workers|
        ensures CalmOk(s', v)
      {
        if Busy(s, x, s') {
          BusyCalm(s, x, s', v);
        } else if Moves(s, x, s') {
          MovesCalm(s, x, s', v);
        } else {
          DeadCalm(s, x, s', v);
        }
      }
    } else if x.Control? {
      ControlCalm(s);
    }
  }

  lemma {:induction false} PassesOk(run: seq<State>, steps: seq<Step>, k: nat, w: nat)
    requires IsRun(run, steps) && k < |run| && w < |run[0].workers|
    ensures |run[k].workers| == |run[0].workers| && PassOk(run[k].workers[w])
  {
    hide Next, PassOk;
    if k == 0 {
      assert StartOk(run[0].workers[w]);
      StartPass(run[0].workers[w]);
    } else {
      PassesOk(run, steps, k - 1, w);
      PassStep(run[k - 1], steps[k - 1], run[k], w);
    }
  }

  lemma StartPass(m: Worker)
    requires StartOk(m)
    ensures PassOk(m)
  {
  }

  lemma PassStep(s: State, x: Step, s': State, w: nat)
    requires Next(s, x, s') && w < |s.workers| && PassOk(s.workers[w])
    ensures |s'.workers| == |s.workers| && PassOk(s'.workers[w])
  {
    hide Busy, Moves, Dead, Serves, PassOk;
    if Busy(s, x, s') {
      BusyAside(s, x, s', w);
      PassAside(s, s.workers[w], s'.workers[w]);
    } else if Dead(s, x, s') {
      PassDead(s, x, s', w);
    } else if Moves(s, x, s') {
      PassMoves(s, x, s', w);
    } else if Serves(s, x, s') {
      ServesWorkers(s, x, s');
    } else {
      assert s'.workers == s.workers;
    }
  }

  lemma ServesWorkers(s: State, x: Step, s': State)
    requires Serves(s, x, s')
    ensures s'.workers == s.workers
  {
  }

  lemma PassAside(s: State, m: Worker, m': Worker)
    requires PassOk(m) && Aside(s, m, m')
    ensures PassOk(m')
  {
  }

  lemma PassMoves(s: State, x: Step, s': State, w: nat)
    requires Moves(s, x, s') && w < |s.workers| && PassOk(s.workers[w])
    ensures |s'.workers| == |s.workers| && PassOk(s'.workers[w])
  {
  }

  lemma PassDead(s: State, x: Step, s': State, w: nat)
    requires Dead(s, x, s') && w < |s.workers| && PassOk(s.workers[w])
    ensures |s'.workers| == |s.workers| && PassOk(s'.workers[w])
  {
  }

  /** No worker is inside a pass over the slot as a slot it takes for dead. */
  predicate NonePassing(s: State)
  {
    forall w :: 0 <= w < |s.workers| ==> !InDeadPass(s.workers[w].pc)
  }

  lemma CalmStart(s: State)
    requires Inv(s) && s.main.Zeroed2? && s.quiesced == {} && (s.ready ==> NonePassing(s)) && NoneFencing(s)
    requires forall w :: 0 <= w < |s.workers| ==> PassOk(s.workers[w])
    ensures Calm(s) && Fresh(s)
  {
    hide Inv;
    forall w | 0 <= w < |s.workers|
      ensures CalmOk(s, w) && FreshAt(s, w)
    {
      assert PassOk(s.workers[w]) && !Fencing(s.workers[w]);
      assert s.ready ==> !InDeadPass(s.workers[w].pc);
    }
  }

  lemma {:induction false} CalmRun(run: seq<State>, steps: seq<Step>, y: nat, k: nat)
    requires IsRun(run, steps) && NoneBelated(run[0]) && y <= k < |run| && Calm(run[y]) && Fresh(run[y])
    ensures Calm(run[k]) && Fresh(run[k])
  {
    hide Inv, Next, Initial, NoneBelated, Calm, Fresh;
    if y < k {
      CalmRun(run, steps, y, k - 1);
      RunKeeps(run, steps, k - 1);
      CalmStep(run[k - 1], steps[k - 1], run[k]);
      FreshStep(run[k - 1], steps[k - 1], run[k]);
    }
  }

  /**
   A fence also follows a quiet pass: its worker has begun a further pass since
   its last completion callback, provided no worker had decided on a fence when
   the quiesced bits were zeroed and, if the slot was still ready then, none was
   inside a pass that took it for dead.
   */
  lemma FenceFollowsQuiet(run: seq<State>, steps: seq<Step>, y: nat, k: nat, w: nat)
    requires IsRun(run, steps) && NoneBelated(run[0]) && y < k < |run| && steps[y] == Control && run[y].main.Zeroed1?
    requires NoneFencing(run[y + 1]) && (run[y + 1].ready ==> NonePassing(run[y + 1]))
    requires w < |run[k].workers| && w in run[k].fenced && WipedFence(run[k].main)
    ensures run[k].workers[w].calm >= 2 && run[k].workers[w].flight == 0 && DrainedFor(run[k], w)
  {
    assert Next(run[y], steps[y], run[y + 1]);
    var s := run[y + 1];
    assert s == Controlled(run[y]);
    hide Inv, Next, Initial, NoneBelated;
    RunKeeps(run, steps, y + 1);
    RunKeeps(run, steps, k);
    forall v | 0 <= v < |s.workers|
      ensures PassOk(s.workers[v])
    {
      Sizes(run, steps, y + 1);
      PassesOk(run, steps, y + 1, v);
    }
    CalmStart(s);
    CalmRun(run, steps, y + 1, k);
    assert CalmOk(run[k], w) && FreshAt(run[k], w);
    FreshHolds(run[k]);
  }

  lemma {:induction false} Sizes(run: seq<State>, steps: seq<Step>, k: nat)
    requires IsRun(run, steps) && k < |run|
    ensures |run[k].workers| == |run[0].workers|
  {
    hide Next;
    if k > 0 {
      Sizes(run, steps, k - 1);
      SameSize(run[k - 1], steps[k - 1], run[k]);
    }
  }

  lemma SameSize(s: State, x: Step, s': State)
    requires Next(s, x, s')
    ensures |s'.workers| == |s.workers|
  {
    hide Busy, Moves, Dead;
    if Busy(s, x, s') || Moves(s, x, s') {
      BusyStays(s, x, s');
    } else if Dead(s, x, s') {
      DeadStays(s, x, s');
    }
  }
}
