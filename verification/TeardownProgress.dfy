/**
 The barrier opens: once nothing is in flight and no producer is at work, three
 passes of each worker bring any number of workers to reclaim. A pass joins the
 producers, the next publishes the quiesced bit, the last the fenced bit.
 */
module TeardownProgress {
  import opened Teardown
  import opened TeardownRuns

  /** The steps of some schedule lead from one state to the other. */
  ghost predicate Leads(s: State, t: State)
  {
    exists run, steps :: Path(run, steps) && run[0] == s && run[|run| - 1] == t
  }

  ghost predicate Path(run: seq<State>, steps: seq<Step>)
  {
    |run| == |steps| + 1 && forall i :: 0 <= i < |steps| ==> Next(run[i], steps[i], run[i + 1])
  }

  lemma Stays(s: State)
    ensures Leads(s, s)
  {
    assert Path([s], []);
    assert [s][0] == s && [s][|[s]| - 1] == s;
  }

  lemma Then(s: State, t: State, x: Step, u: State)
    requires Leads(s, t) && Next(t, x, u)
    ensures Leads(s, u)
  {
    hide Next;
    var run, steps :| Path(run, steps) && run[0] == s && run[|run| - 1] == t;
    var run', steps' := run + [u], steps + [x];
    forall i | 0 <= i < |steps'|
      ensures Next(run'[i], steps'[i], run'[i + 1])
    {
      if i < |steps| {
        assert run'[i] == run[i] && run'[i + 1] == run[i + 1] && steps'[i] == steps[i];
      } else {
        assert run'[i] == t && run'[i + 1] == u && steps'[i] == x;
      }
    }
    assert Path(run', steps') && run'[0] == s && run'[|run'| - 1] == u;
  }

  lemma ThenDead(s: State, t: State, x: Step, u: State)
    requires Leads(s, t) && Dead(t, x, u)
    ensures Leads(s, u)
  {
    hide Dead, Busy, Moves, Serves, Leads;
    Then(s, t, x, u);
  }

  /** A worker between passes that holds nothing of the slot. */
  predicate Idle(m: Worker) { m.pc.Out? && Empty(m) && m.emit == 0 }

  /** The slot is in cleanup. */
  predicate Down(s: State) { !s.ready && s.pending && s.main.Waiting? }

  /** The slot is in cleanup and every worker is idle. */
  predicate Quiescent(s: State)
  {
    && Down(s) && s.refs == 0 && s.pendingEmit == 0
    && forall w :: 0 <= w < |s.workers| ==> Idle(s.workers[w])
  }

  function At(s: State, w: nat, pc: Pc): State
    requires w < |s.workers|
  {
    s.(workers := s.workers[w := s.workers[w].(pc := pc, calm := s.workers[w].calm + 1, aged := false)])
  }

  /** What one pass of an idle worker comes to. */
  function Passed(s: State, w: nat): State
    requires w < |s.workers|
  {
    s.(workers := s.workers[w := s.workers[w].(pc := Out, calm := s.workers[w].calm + 1, aged := false,
                                               lapsed := if Full(s, s.producers) && w in s.quiesced then false
                                                         else s.workers[w].lapsed)],
       producers := s.producers + {w},
       quiesced := if Full(s, s.producers) then s.quiesced + {w} else s.quiesced - {w},
       fenced := if Full(s, s.producers) && w in s.quiesced then s.fenced + {w}
                 else if Full(s, s.producers) || w in s.quiesced then s.fenced - {w} else s.fenced)
  }

  /** The sampling half of a pass. */
  lemma Enters(s0: State, s: State, w: nat)
    requires Leads(s0, s) && Down(s) && w < |s.workers| && s.workers[w].pc.Out?
    ensures Leads(s0, At(s, w, Scan(s.producers, w in s.quiesced, {}, {}, true)))
  {
    hide Leads, Next, Empty;
    var m := s.workers[w];
    var s1 := At(s, w, TopPending);
    assert Busy(s, Begin(w), s1);
    assert Next(s, Begin(w), s1) by { NextBusy(s, Begin(w), s1); }
    Then(s0, s, Begin(w), s1);
    var s2, s3 := At(s, w, Sample), At(s, w, SampleOwn(s.producers));
    assert s2 == Topped(s1, w);
    ThenDead(s0, s1, Top(w), s2);
    assert s3 == Topped(s2, w);
    ThenDead(s0, s2, Top(w), s3);
    var s4 := At(s, w, Scan(s.producers, w in s.quiesced, {}, {}, true));
    assert s4 == Topped(s3, w);
    ThenDead(s0, s3, Top(w), s4);
  }

  lemma NextBusy(s: State, x: Step, t: State)
    requires Busy(s, x, t)
    ensures Next(s, x, t)
  {
  }

  /** One empty cell is spliced and checked. */
  lemma ScansOne(s0: State, s: State, w: nat, ps: set<nat>, qs: bool, seen: set<nat>, c: nat)
    requires w < |s.workers| && c < |s.workers[w].inbox| && s.workers[w].inbox[c] == 0
    requires Leads(s0, At(s, w, Scan(ps, qs, seen, seen, true)))
    ensures Leads(s0, At(s, w, Scan(ps, qs, seen + {c}, seen + {c}, true)))
  {
    hide Leads, Next;
    var a := At(s, w, Scan(ps, qs, seen, seen, true));
    var b := At(s, w, Scan(ps, qs, seen + {c}, seen, true));
    assert s.workers[w].inbox[c := 0] == s.workers[w].inbox;
    assert b.workers == a.workers[w := b.workers[w]];
    assert Dead(a, Splice(w, c), b);
    ThenDead(s0, a, Splice(w, c), b);
    var d := At(s, w, Scan(ps, qs, seen + {c}, seen + {c}, true));
    assert d.workers == b.workers[w := d.workers[w]];
    assert Dead(b, Check(w, c), d);
    ThenDead(s0, b, Check(w, c), d);
  }

  /** The lanes: every cell is spliced and checked, and found empty. */
  lemma {:induction false} Scans(s0: State, s: State, w: nat, ps: set<nat>, qs: bool, seen: set<nat>, c: nat)
    requires w < |s.workers| && Empty(s.workers[w]) && c <= |s.workers[w].inbox|
    requires Leads(s0, At(s, w, Scan(ps, qs, seen, seen, true))) && forall k :: 0 <= k < c ==> k in seen
    ensures Leads(s0, At(s, w, Tail(ps, qs, true)))
    decreases |s.workers[w].inbox| - c
  {
    hide Leads;
    if c == |s.workers[w].inbox| {
      var a, b := At(s, w, Scan(ps, qs, seen, seen, true)), At(s, w, Tail(ps, qs, true));
      assert b == Goto(a, w, Tail(ps, qs, true));
      assert Dead(a, Leave(w), b);
      ThenDead(s0, a, Leave(w), b);
    } else {
      ScansOne(s0, s, w, ps, qs, seen, c);
      Scans(s0, s, w, ps, qs, seen + {c}, c + 1);
    }
  }

  lemma Finishing(s0: State, a: State, w: nat)
    requires Leads(s0, a) && w < |a.workers|
    ensures Leads(s0, Finished(a, w))
  {
    hide Leads, Finished;
    ThenDead(s0, a, Finish(w), Finished(a, w));
  }

  /** After the lanes: the bits. */
  lemma Leaves(s0: State, s: State, w: nat)
    requires Down(s) && w < |s.workers| && s.workers[w].flight == 0 &&
             Leads(s0, At(s, w, Tail(s.producers, w in s.quiesced, true)))
    ensures Leads(s0, Passed(s, w))
  {
    hide Leads;
    var ps, qs := s.producers, w in s.quiesced;
    var quiet := Full(s, ps);
    var a := At(s, w, Tail(ps, qs, true));
    Finishing(s0, a, w);
    var o := Finished(a, w);
    assert o.workers == At(s, w, OwnBit(ps, qs, true)).workers;
    Finishing(s0, o, w);
    var b := At(s, w, Judge(ps, qs, quiet)).(producers := ps + {w});
    if w in ps {
      assert ps + {w} == ps;
      assert Finished(o, w).workers == b.workers;
    } else {
      var j := Finished(o, w);
      assert j.workers == At(s, w, Join(ps, qs, true)).workers;
      Finishing(s0, j, w);
      assert Finished(j, w).workers == b.workers;
    }
    Judged(s0, s, w, b);
  }

  lemma Judged(s0: State, s: State, w: nat, b: State)
    requires Down(s) && w < |s.workers| && s.workers[w].flight == 0 && Leads(s0, b)
    requires b == At(s, w, Judge(s.producers, w in s.quiesced, Full(s, s.producers))).(producers := s.producers + {w})
    ensures Leads(s0, Passed(s, w))
  {
    hide Leads;
    Finishing(s0, b, w);
    var c := Finished(b, w);
    if Full(s, s.producers) {
      if w in s.quiesced {
        assert c.workers == At(s, w, SetFence).workers;
        Finishing(s0, c, w);
        assert s.quiesced + {w} == s.quiesced;
        assert Finished(c, w).workers == Passed(s, w).workers;
      } else {
        assert c.workers == At(s, w, SetQuiet).workers;
        Clearing(s0, s, w, c);
      }
    } else if w in s.quiesced {
      assert c.workers == At(s, w, ClearQuiet).workers;
      Clearing(s0, s, w, c);
    } else {
      assert s.quiesced - {w} == s.quiesced;
      assert c.workers == Passed(s, w).workers;
    }
  }

  lemma Clearing(s0: State, s: State, w: nat, c: State)
    requires w < |s.workers| && Leads(s0, c) && (Full(s, s.producers) <==> w !in s.quiesced)
    requires c == At(s, w, if Full(s, s.producers) then SetQuiet else ClearQuiet).(producers := s.producers + {w})
    ensures Leads(s0, Passed(s, w))
  {
    hide Leads;
    Finishing(s0, c, w);
    var d := Finished(c, w);
    assert d.workers == At(s, w, ClearFence).workers;
    Finishing(s0, d, w);
    assert Finished(d, w).workers == Passed(s, w).workers;
  }

  /** One whole pass. */
  lemma Pass(s0: State, s: State, w: nat)
    requires Leads(s0, s) && Down(s) && w < |s.workers| && Idle(s.workers[w])
    ensures Leads(s0, Passed(s, w)) && Down(Passed(s, w)) && Idle(Passed(s, w).workers[w])
  {
    hide Leads;
    Enters(s0, s, w);
    Scans(s0, s, w, s.producers, w in s.quiesced, {}, 0);
    Leaves(s0, s, w);
    hide Full;
  }

  /** A round of passes by the first `n` workers. */
  function Round(s: State, n: nat): (t: State)
    requires n <= |s.workers|
    ensures |t.workers| == |s.workers|
  {
    if n == 0 then s else Passed(Round(s, n - 1), n - 1)
  }

  lemma {:induction false} RoundLeads(s0: State, s: State, n: nat)
    requires Leads(s0, s) && Quiescent(s) && n <= |s.workers|
    ensures Leads(s0, Round(s, n)) && Quiescent(Round(s, n))
    ensures s.producers <= Round(s, n).producers && forall w :: 0 <= w < n ==> w in Round(s, n).producers
  {
    hide Leads, Idle;
    if n > 0 {
      RoundLeads(s0, s, n - 1);
      Pass(s0, Round(s, n - 1), n - 1);
    }
  }

  lemma {:induction false} RoundQuiets(s: State, n: nat)
    requires n <= |s.workers| && Full(s, s.producers)
    ensures Full(s, Round(s, n).producers) && s.quiesced <= Round(s, n).quiesced
    ensures forall w :: 0 <= w < n ==> w in Round(s, n).quiesced
  {
    if n > 0 {
      RoundQuiets(s, n - 1);
    }
  }

  lemma {:induction false} RoundFences(s: State, n: nat)
    requires n <= |s.workers| && Full(s, s.producers) && Full(s, s.quiesced)
    ensures Full(s, Round(s, n).producers) && Full(s, Round(s, n).quiesced)
    ensures forall w :: 0 <= w < n ==> w in Round(s, n).fenced
  {
    if n > 0 {
      RoundFences(s, n - 1);
    }
  }

  // ---- the control thread ------------------------------------------------

  lemma Checks(s0: State, s: State)
    requires Leads(s0, s)
    ensures Leads(s0, Controlled(s))
  {
    hide Leads, Busy, Moves, Dead, Serves, Controlled;
    Then(s0, s, Control, Controlled(s));
  }

  lemma {:induction false} Counts(s0: State, s: State, k: nat)
    requires k <= |s.workers| && Leads(s0, s.(main := SawFence(k)))
    requires forall w :: 0 <= w < |s.workers| ==> s.workers[w].flight == 0
    ensures Leads(s0, s.(main := SawFlight))
    decreases |s.workers| - k
  {
    hide Leads;
    Checks(s0, s.(main := SawFence(k)));
    if k < |s.workers| {
      Counts(s0, s, k + 1);
    }
  }

  lemma Opens(s0: State, s: State)
    requires Leads(s0, s) && s.main.Waiting? && Full(s, s.producers) && Full(s, s.quiesced) && Full(s, s.fenced)
    requires s.refs == 0 && s.pendingEmit == 0 && forall w :: 0 <= w < |s.workers| ==> s.workers[w].flight == 0
    ensures Leads(s0, s.(main := Reclaimed))
  {
    hide Leads;
    Checks(s0, s);
    var a, b, c := s.(main := SawQuiet), s.(main := SawProducers), s.(main := SawFence(0));
    assert Full(a, a.producers) && Full(b, b.fenced);
    Checks(s0, a);
    Checks(s0, b);
    Counts(s0, s, 0);
    Checks(s0, s.(main := SawFlight));
    Checks(s0, s.(main := SawEmit));
  }

  /** Three rounds of passes from a slot in cleanup whose workers are idle set every bit. */
  lemma AllFenced(s0: State, s: State) returns (t: State)
    requires Leads(s0, s) && Quiescent(s)
    ensures Leads(s0, t) && Quiescent(t) && |t.workers| == |s.workers|
    ensures Full(t, t.producers) && Full(t, t.quiesced) && Full(t, t.fenced)
  {
    var n := |s.workers|;
    RoundLeads(s0, s, n);
    var s1 := Round(s, n);
    RoundLeads(s0, s1, n);
    RoundQuiets(s1, n);
    var s2 := Round(s1, n);
    RoundLeads(s0, s2, n);
    RoundFences(s2, n);
    t := Round(s2, n);
  }

  /** From a slot in cleanup whose workers are idle, three rounds of passes and one check reach reclaim. */
  lemma ReclaimIsReachable(s0: State, s: State)
    requires Leads(s0, s) && Quiescent(s)
    ensures exists t :: Leads(s0, t) && t.main.Reclaimed?
  {
    hide Leads;
    var t := AllFenced(s0, s);
    Opens(s0, t);
  }
}
