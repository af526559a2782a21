/**
 A slot goes into service again after its reclaim. A worker left behind by the
 first tenancy's cleanup is then late for the second's, so that the barrier can
 fail in one execution over two tenancies.
 */
module TeardownReuse {
  import opened Teardown
  import opened TeardownRuns
  import opened TeardownFence
  import opened TeardownProgress
  import opened TeardownBelated

  /** To the next cleanup, a pass that is under way has sampled and decided before it. */
  function LeftBehind(m: Worker): Worker { m.(aged := m.aged || Sampled(m.pc) || Decided(m.pc)) }

  /**
   The cleanup is over and the slot serves again: for the same connection, with
   the masks as they were, or for a new one (`anew`), with masks and count zeroed.
   */
  predicate Reuses(s: State, t: State, anew: bool)
  {
    && s.main.Reclaimed? && |t.workers| == |s.workers|
    && t == s.(main := Serving, pending := false, registered := t.registered, workers := t.workers,
               producers := if anew then {} else s.producers, quiesced := if anew then {} else s.quiesced,
               fenced := if anew then {} else s.fenced, pendingEmit := if anew then 0 else s.pendingEmit)
    && forall w :: 0 <= w < |s.workers| ==> t.workers[w] == LeftBehind(s.workers[w])
  }

  lemma {:induction false} SameSum(ws: seq<Worker>, vs: seq<Worker>, n: nat)
    requires n <= |ws| == |vs| && forall w :: 0 <= w < |ws| ==> vs[w] == LeftBehind(ws[w])
    ensures EmitSum(vs, n) == EmitSum(ws, n)
  {
    if n > 0 {
      SameSum(ws, vs, n - 1);
    }
  }

  lemma LeftBehindStarts(m: Worker)
    requires PassOk(m)
    ensures StartOk(LeftBehind(m)) && (Belated(LeftBehind(m)) <==> Belated(m))
  {
  }

  /** What a reclaim leaves behind is a state a next tenancy may start from. */
  lemma ReuseStarts(s: State, t: State, u: State, anew: bool)
    requires Initial(s) && NoneBelated(s) && Leads(s, t) && Reuses(t, u, anew)
    ensures Initial(u) && |u.workers| == |s.workers|
  {
    var run, steps :| Path(run, steps) && run[0] == s && run[|run| - 1] == t;
    var k := |run| - 1;
    RunKeeps(run, steps, k);
    assert t.pendingEmit == 0 == EmitSum(t.workers, |t.workers|);
    SameSum(t.workers, u.workers, |t.workers|);
    Sizes(run, steps, k);
    hide Inv, Next, Initial, EmitSum;
    forall w | 0 <= w < |u.workers|
      ensures StartOk(u.workers[w])
    {
      PassesOk(run, steps, k, w);
      LeftBehindStarts(t.workers[w]);
    }
    assert Initial(u) by { Starting(u); }
  }

  lemma Starting(s: State)
    requires s.main == Serving && !s.pending && s.pendingEmit == EmitSum(s.workers, |s.workers|)
    requires forall w :: 0 <= w < |s.workers| ==> StartOk(s.workers[w])
    ensures Initial(s)
  {
  }

  // ---- cells stay --------------------------------------------------------

  predicate SameCells(s: State, t: State)
  {
    |t.workers| == |s.workers| && forall w :: 0 <= w < |s.workers| ==> |t.workers[w].inbox| == |s.workers[w].inbox|
  }

  lemma BusyCells(s: State, x: Step, s': State)
    requires Busy(s, x, s')
    ensures SameCells(s, s')
  {
  }

  lemma MovesCells(s: State, x: Step, s': State)
    requires Moves(s, x, s')
    ensures SameCells(s, s')
  {
  }

  lemma DeadCells(s: State, x: Step, s': State)
    requires Dead(s, x, s')
    ensures SameCells(s, s')
  {
    hide TopPc, FinishPc, Full;
  }

  lemma StepCells(s: State, x: Step, s': State)
    requires Next(s, x, s')
    ensures SameCells(s, s')
  {
    hide Busy, Moves, Dead;
    if Busy(s, x, s') {
      BusyCells(s, x, s');
    } else if Moves(s, x, s') {
      MovesCells(s, x, s');
    } else if Dead(s, x, s') {
      DeadCells(s, x, s');
    }
  }

  lemma {:induction false} PathCells(run: seq<State>, steps: seq<Step>, k: nat)
    requires Path(run, steps) && k < |run|
    ensures SameCells(run[0], run[k])
  {
    hide Next;
    if k > 0 {
      PathCells(run, steps, k - 1);
      StepCells(run[k - 1], steps[k - 1], run[k]);
    }
  }

  // ---- one execution over two tenancies ----------------------------------

  lemma SecondFails(s: State, t: State, u: State, w: nat, anew: bool)
    requires Initial(s) && NoneBelated(s) && Leads(s, t) && Reuses(t, u, anew) && |s.workers| >= 2
    requires (forall v :: 0 <= v < |s.workers| ==> |s.workers[v].inbox| > 0) && w < |t.workers| && Belated(t.workers[w])
    ensures exists v :: Leads(u, v) && v.main.Reclaimed? && !Unnamed(v)
  {
    ReuseStarts(s, t, u, anew);
    var run, steps :| Path(run, steps) && run[0] == s && run[|run| - 1] == t;
    PathCells(run, steps, |run| - 1);
    hide Leads, Initial, Next, Unnamed;
    var v := if w == 0 then 1 else 0;
    assert |u.workers[v].inbox| == |s.workers[v].inbox|;
    assert Belated(u.workers[w]);
    BelatedBreaks(u, w, v);
  }

  /**
   With two workers or more and cells to publish into, from any state in which
   the barrier holds: some schedule reclaims the slot as it should, and then,
   once the slot serves again, reclaims it with something that still names it.
   */
  lemma SecondTenancyFails(s: State, anew: bool, registered: bool)
    requires Initial(s) && NoneBelated(s) && |s.workers| >= 2
    requires forall v :: 0 <= v < |s.workers| ==> |s.workers[v].inbox| > 0
    ensures exists t, u, v :: Leads(s, t) && Unnamed(t) && Reuses(t, u, anew) && u.registered == registered &&
                              Leads(u, v) && v.main.Reclaimed? && !Unnamed(v)
  {
    LateAtReclaim(s, 0);
    var t :| Leads(s, t) && t.main.Reclaimed? && 0 < |t.workers| && Belated(t.workers[0]);
    assert Unnamed(t) by {
      var run, steps :| Path(run, steps) && run[0] == s && run[|run| - 1] == t;
      hide Unnamed, Initial, NoneBelated, Next;
      ReclaimIsSafe(run, steps, |run| - 1, |run| - 1);
    }
    var u := Served(t, anew, registered);
    hide Leads, Initial, NoneBelated, Unnamed;
    SecondFails(s, t, u, 0, anew);
  }

  function AllLeft(ws: seq<Worker>): (vs: seq<Worker>)
    ensures |vs| == |ws| && forall w :: 0 <= w < |ws| ==> vs[w] == LeftBehind(ws[w])
  {
    if ws == [] then [] else AllLeft(ws[..|ws| - 1]) + [LeftBehind(ws[|ws| - 1])]
  }

  function Served(s: State, anew: bool, registered: bool): (t: State)
    ensures s.main.Reclaimed? ==> Reuses(s, t, anew) && t.registered == registered
  {
    s.(main := Serving, pending := false, registered := registered, workers := AllLeft(s.workers),
       producers := if anew then {} else s.producers, quiesced := if anew then {} else s.quiesced,
       fenced := if anew then {} else s.fenced, pendingEmit := if anew then 0 else s.pendingEmit)
  }
}
