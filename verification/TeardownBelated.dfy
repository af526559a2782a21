/**
 Where the reclaim barrier stops. A worker that saw an earlier cleanup pending
 and has not set its producer bit for it yet may set it in a later cleanup, while
 it can still publish. With two workers or more there is then a schedule that
 ends in reclaim with a unit in an inbox.
 */
module TeardownBelated {
  import opened Teardown
  import opened TeardownRuns
  import opened TeardownProgress

  // ---- schedules of one worker -------------------------------------------

  /** Only worker `u`, its bits and what it has to emit may have changed. */
  predicate Only(s: State, t: State, u: nat)
  {
    && u < |s.workers| == |t.workers| && t.workers == s.workers[u := t.workers[u]]
    && |t.workers[u].inbox| == |s.workers[u].inbox|
    && t == s.(workers := t.workers, producers := t.producers, quiesced := t.quiesced, fenced := t.fenced,
               pendingEmit := t.pendingEmit)
    && s.producers <= t.producers && t.pendingEmit - t.workers[u].emit == s.pendingEmit - s.workers[u].emit
  }

  lemma OnlyThen(s: State, t: State, r: State, u: nat)
    requires Only(s, t, u) && Only(t, r, u)
    ensures Only(s, r, u)
  {
  }

  lemma ThenBusy(s0: State, s: State, x: Step, t: State)
    requires Leads(s0, s) && (Busy(s, x, t) || Moves(s, x, t) || Serves(s, x, t))
    ensures Leads(s0, t)
  {
    hide Leads, Dead, Busy, Moves, Serves;
    Then(s0, s, x, t);
  }

  lemma OnlyPut(s: State, u: nat, m: Worker)
    requires u < |s.workers| && |m.inbox| == |s.workers[u].inbox| && m.emit == s.workers[u].emit
    ensures Only(s, Put(s, u, m), u) && forall n :: Only(s, ToEmit(s, u, m, n), u)
  {
  }

  /** One cell of a pass is spliced and checked, whatever it holds. */
  lemma SweepsOne(s0: State, s: State, u: nat, c: nat) returns (t: State)
    requires Leads(s0, s) && u < |s.workers| && s.workers[u].pc.Scan? && c < |s.workers[u].inbox|
    ensures Leads(s0, t) && Only(s, t, u) && t.workers[u].pc.Scan?
    ensures var pc, pc' := s.workers[u].pc, t.workers[u].pc;
            pc'.spliced == pc.spliced + {c} && pc'.checked == pc.checked + {c}
  {
    hide Leads, Only;
    var m := s.workers[u];
    var m1 := m.(pc := m.pc.(spliced := m.pc.spliced + {c}), queue := m.queue + m.inbox[c], inbox := m.inbox[c := 0]);
    var s1 := Put(s, u, m1);
    OnlyPut(s, u, m1);
    assert Dead(s, Splice(u, c), s1);
    ThenDead(s0, s, Splice(u, c), s1);
    var m2 := m1.(pc := m1.pc.(checked := m1.pc.checked + {c}, quiet := m1.pc.quiet && m1.inbox[c] == 0));
    t := Put(s1, u, m2);
    OnlyPut(s1, u, m2);
    assert Dead(s1, Check(u, c), t);
    ThenDead(s0, s1, Check(u, c), t);
    OnlyThen(s, s1, t, u);
  }

  lemma {:induction false} Sweeps(s0: State, s: State, u: nat, c: nat) returns (t: State)
    requires Leads(s0, s) && u < |s.workers| && s.workers[u].pc.Scan? && c <= |s.workers[u].inbox|
    requires forall k :: 0 <= k < c ==> k in s.workers[u].pc.spliced && k in s.workers[u].pc.checked
    ensures Leads(s0, t) && Only(s, t, u) && t.workers[u].pc.Tail?
    decreases |s.workers[u].inbox| - c
  {
    hide Leads, Only;
    var m := s.workers[u];
    if c == |m.inbox| {
      t := Goto(s, u, Tail(m.pc.ps, m.pc.qs, m.pc.quiet && m.queue == 0 && m.done == 0 && m.rev == 0));
      OnlyPut(s, u, t.workers[u]);
      assert Dead(s, Leave(u), t);
      ThenDead(s0, s, Leave(u), t);
    } else {
      var s1 := SweepsOne(s0, s, u, c);
      assert |s1.workers[u].inbox| == |m.inbox| && |s1.workers| == |s.workers| by { Sized(s, s1, u); }
      t := Sweeps(s0, s1, u, c + 1);
      OnlyThen(s, s1, t, u);
    }
  }

  lemma Sized(s: State, t: State, u: nat)
    requires Only(s, t, u)
    ensures |t.workers| == |s.workers| && |t.workers[u].inbox| == |s.workers[u].inbox|
  {
  }

  /** How far a pass is from its end. */
  function Rank(pc: Pc): nat
  {
    match pc
    case TopPending => 11
    case TopBit => 10
    case Sample => 9
    case SampleOwn(_) => 8
    case Scan(_, _, _, _, _) => 7
    case Tail(_, _, _) => 6
    case OwnBit(_, _, _) => 5
    case Join(_, _, _) => 4
    case Judge(_, _, _) => 3
    case SetQuiet => 2
    case ClearQuiet => 2
    case SetFence => 1
    case ClearFence => 1
    case _ => 0
  }

  lemma TopCloser(s: State, u: nat)
    requires u < |s.workers| && Rank(s.workers[u].pc) >= 8
    ensures var t := Topped(s, u); Only(s, t, u) && Rank(t.workers[u].pc) < Rank(s.workers[u].pc)
    ensures var pc := Topped(s, u).workers[u].pc; !Intends(pc) && !pc.Live?
  {
  }

  lemma FinishCloser(s: State, u: nat)
    requires u < |s.workers| && 0 < Rank(s.workers[u].pc) <= 6
    ensures var t := Finished(s, u); Only(s, t, u) && Rank(t.workers[u].pc) < Rank(s.workers[u].pc)
    ensures var pc := Finished(s, u).workers[u].pc; !Intends(pc) && !pc.Live?
    ensures s.workers[u].pc.Join? ==> u in Finished(s, u).producers
    ensures s.workers[u].pc.OwnBit? ==> u in Finished(s, u).producers || Finished(s, u).workers[u].pc.Join?
  {
    hide Full;
  }

  /** A worker inside a pass comes to its end; if it had yet to join, it joins. */
  lemma EndsPass(s0: State, s: State, u: nat) returns (t: State)
    requires Leads(s0, s) && u < |s.workers| && !Intends(s.workers[u].pc) && !s.workers[u].pc.Live?
    ensures Leads(s0, t) && Only(s, t, u) && t.workers[u].pc.Out? && (Belated(s.workers[u]) ==> u in t.producers)
    decreases Rank(s.workers[u].pc)
  {
    hide Leads, Topped, Finished;
    if s.workers[u].pc.Out? {
      t := s;
    } else if Rank(s.workers[u].pc) >= 8 {
      TopCloser(s, u);
      ThenDead(s0, s, Top(u), Topped(s, u));
      t := EndsPass(s0, Topped(s, u), u);
      OnlyThen(s, Topped(s, u), t, u);
    } else if s.workers[u].pc.Scan? {
      var s1 := Sweeps(s0, s, u, 0);
      t := EndsPass(s0, s1, u);
      OnlyThen(s, s1, t, u);
    } else {
      FinishCloser(s, u);
      Finishing(s0, s, u);
      var s1 := Finished(s, u);
      t := EndsPass(s0, s1, u);
      OnlyThen(s, s1, t, u);
    }
  }

  // ---- emptying a worker while the slot serves ---------------------------

  /** Between passes, with nothing queued: what is in flight completes and what is to be emitted is. */
  lemma {:induction false} Empties(s0: State, s: State, u: nat) returns (t: State)
    requires Leads(s0, s) && u < |s.workers| && s.workers[u].pc.Out? && Empty(s.workers[u].(flight := 0))
    ensures Leads(s0, t) && Only(s, t, u) && Idle(t.workers[u]) && t.producers == s.producers
    decreases s.workers[u].flight, s.workers[u].emit
  {
    hide Leads;
    var m := s.workers[u];
    if m.flight > 0 {
      var s1 := Put(s, u, m.(flight := m.flight - 1, calm := 0));
      assert Moves(s, Complete(u, false), s1);
      ThenBusy(s0, s, Complete(u, false), s1);
      t := Empties(s0, s1, u);
      OnlyThen(s, s1, t, u);
    } else if m.emit > 0 {
      var s1 := s.(workers := s.workers[u := m.(emit := m.emit - 1)], pendingEmit := s.pendingEmit - 1);
      assert Moves(s, Emit(u), s1);
      ThenBusy(s0, s, Emit(u), s1);
      t := Empties(s0, s1, u);
      OnlyThen(s, s1, t, u);
    } else {
      t := s;
    }
  }

  function Burden(m: Worker): nat { m.queue + m.done + m.rev }

  /** A live pass gets rid of one thing it finds. */
  lemma ClearsOne(s0: State, s: State, u: nat) returns (t: State)
    requires Leads(s0, s) && u < |s.workers| && s.workers[u].pc.Live? && Burden(s.workers[u]) > 0
    ensures Leads(s0, t) && Only(s, t, u) && t.producers == s.producers && t.workers[u].pc.Live?
    ensures t.workers[u].inbox == s.workers[u].inbox && Burden(t.workers[u]) == Burden(s.workers[u]) - 1
  {
    hide Leads;
    var m := s.workers[u];
    if m.queue > 0 {
      t := ToEmit(s, u, m.(queue := m.queue - 1), 1);
      assert Moves(s, Reject(u), t);
      ThenBusy(s0, s, Reject(u), t);
    } else if m.done > 0 {
      t := ToEmit(s, u, m.(done := m.done - 1), 1);
      assert Moves(s, Retire(u), t);
      ThenBusy(s0, s, Retire(u), t);
    } else {
      t := Put(s, u, m.(rev := m.rev - 1));
      assert Moves(s, RevDone(u), t);
      ThenBusy(s0, s, RevDone(u), t);
    }
  }

  lemma {:induction false} Clears(s0: State, s: State, u: nat) returns (t: State)
    requires Leads(s0, s) && u < |s.workers| && s.workers[u].pc.Live?
    requires forall c :: 0 <= c < |s.workers[u].inbox| ==> s.workers[u].inbox[c] == 0
    ensures Leads(s0, t) && Only(s, t, u) && Idle(t.workers[u]) && t.producers == s.producers
    decreases Burden(s.workers[u])
  {
    hide Leads;
    var s1: State;
    if Burden(s.workers[u]) > 0 {
      s1 := ClearsOne(s0, s, u);
      t := Clears(s0, s1, u);
    } else {
      s1 := Goto(s, u, Out);
      assert Busy(s, EndLive(u), s1);
      ThenBusy(s0, s, EndLive(u), s1);
      t := Empties(s0, s1, u);
    }
    OnlyThen(s, s1, t, u);
  }

  lemma {:induction false} LiveSplices(s0: State, s: State, u: nat, c: nat) returns (t: State)
    requires Leads(s0, s) && u < |s.workers| && s.workers[u].pc.Live? && c <= |s.workers[u].inbox|
    requires forall k :: 0 <= k < c ==> s.workers[u].inbox[k] == 0
    ensures Leads(s0, t) && Only(s, t, u) && Idle(t.workers[u]) && t.producers == s.producers
    decreases |s.workers[u].inbox| - c
  {
    hide Leads;
    var m := s.workers[u];
    if c == |m.inbox| {
      t := Clears(s0, s, u);
    } else {
      var s1 := Put(s, u, m.(queue := m.queue + m.inbox[c], inbox := m.inbox[c := 0]));
      assert Moves(s, LiveSplice(u, c), s1);
      ThenBusy(s0, s, LiveSplice(u, c), s1);
      t := LiveSplices(s0, s1, u, c + 1);
      OnlyThen(s, s1, t, u);
    }
  }

  /** Whatever worker `u` is doing and holding, it can come to rest while the slot serves. */
  lemma Rests(s0: State, s: State, u: nat) returns (t: State)
    requires Leads(s0, s) && u < |s.workers| && s.ready
    ensures Leads(s0, t) && Only(s, t, u) && Idle(t.workers[u]) && (Belated(s.workers[u]) ==> u in t.producers)
  {
    hide Leads;
    var s1: State;
    if Intends(s.workers[u].pc) {
      s1 := Goto(s, u, Out);
      assert Busy(s, Abandon(u), s1);
      ThenBusy(s0, s, Abandon(u), s1);
    } else if s.workers[u].pc.Live? {
      s1 := Goto(s, u, Out);
      assert Busy(s, EndLive(u), s1);
      ThenBusy(s0, s, EndLive(u), s1);
    } else {
      s1 := EndsPass(s0, s, u);
    }
    var s2 := Put(s1, u, Begun(s1, u));
    assert Busy(s1, Begin(u), s2);
    ThenBusy(s0, s1, Begin(u), s2);
    t := LiveSplices(s0, s2, u, 0);
    OnlyThen(s, s1, s2, u);
    OnlyThen(s, s2, t, u);
  }

  // ---- everybody comes to rest -------------------------------------------

  /** Every worker below `n` but `w` is idle. */
  predicate Resting(s: State, w: nat, n: nat)
  {
    n <= |s.workers| && forall u :: 0 <= u < n && u != w ==> Idle(s.workers[u])
  }

  /** What bringing workers to rest leaves alone. */
  predicate Kept(s: State, t: State)
  {
    && |t.workers| == |s.workers| && t.ready == s.ready && t.pending == s.pending && t.main == s.main
    && t.refs == s.refs && (forall u :: 0 <= u < |s.workers| ==> |t.workers[u].inbox| == |s.workers[u].inbox|)
  }

  lemma OnlyKept(s: State, t: State, u: nat)
    requires Only(s, t, u)
    ensures Kept(s, t)
    ensures s.pendingEmit == EmitSum(s.workers, |s.workers|) ==> t.pendingEmit == EmitSum(t.workers, |t.workers|)
  {
    SumPut(s.workers, u, t.workers[u], |s.workers|);
    hide EmitSum;
  }

  lemma {:induction false} RestsAll(s0: State, s: State, w: nat, n: nat) returns (t: State)
    requires Leads(s0, s) && s.ready && n <= |s.workers| && w < |s.workers|
    requires s.pendingEmit == EmitSum(s.workers, |s.workers|)
    ensures Leads(s0, t) && Resting(t, w, n) && Kept(s, t) && t.workers[w] == s.workers[w]
    ensures t.pendingEmit == EmitSum(t.workers, |t.workers|)
    decreases n
  {
    hide Leads, Idle, EmitSum;
    if n == 0 {
      t := s;
    } else {
      var s1 := RestsAll(s0, s, w, n - 1);
      if n - 1 == w {
        t := s1;
      } else {
        t := Rests(s0, s1, n - 1);
        OnlyKept(s1, t, n - 1);
      }
    }
  }

  lemma {:induction false} Releases(s0: State, s: State) returns (t: State)
    requires Leads(s0, s)
    ensures t == s.(refs := 0) && Leads(s0, t)
    decreases s.refs
  {
    hide Leads;
    if s.refs == 0 {
      t := s;
    } else {
      var s1 := s.(refs := s.refs - 1);
      assert Busy(s, Unhold, s1);
      ThenBusy(s0, s, Unhold, s1);
      t := Releases(s0, s1);
    }
  }

  lemma {:induction false} NothingToEmit(ws: seq<Worker>, n: nat)
    requires n <= |ws| && forall u :: 0 <= u < n ==> Idle(ws[u])
    ensures EmitSum(ws, n) == 0
  {
    if n > 0 {
      NothingToEmit(ws, n - 1);
    }
  }

  /** Whatever a slot and its workers are doing, it can come to be in cleanup with every worker idle. */
  lemma ComesToRest(s: State) returns (t: State)
    requires Initial(s)
    ensures Leads(s, t) && Quiescent(t) && |t.workers| == |s.workers|
  {
    Stays(s);
    hide Leads, EmitSum;
    var s1 := s.(ready := true);
    assert Serves(s, Open, s1);
    ThenBusy(s, s, Open, s1);
    var n := |s.workers|;
    var s3 := s1;
    if n > 0 {
      var s2 := RestsAll(s, s1, 0, n);
      s3 := Rests(s, s2, 0);
      OnlyKept(s2, s3, 0);
    }
    assert forall u :: 0 <= u < n ==> Idle(s3.workers[u]);
    NothingToEmit(s3.workers, n);
    var s4 := Releases(s, s3);
    Checks(s, s4);
    var s5 := s4.(producers := {}, main := Zeroed1);
    Closes(s, s5);
    t := Closed(s5);
  }

  /** The barrier opens from anywhere: some schedule takes any slot from service to reclaim. */
  lemma BarrierOpens(s: State)
    requires Initial(s)
    ensures exists t :: Leads(s, t) && t.main.Reclaimed?
  {
    hide Leads, Initial;
    var t := ComesToRest(s);
    ReclaimIsReachable(s, t);
  }

  /**
   Late workers do arise: from any state with a worker in it, some schedule ends in
   reclaim while that worker, having seen this cleanup pending once more, is yet to
   look for its producer bit.
   */
  lemma LateAtReclaim(s: State, w: nat)
    requires Initial(s) && w < |s.workers|
    ensures exists t :: Leads(s, t) && t.main.Reclaimed? && w < |t.workers| && Belated(t.workers[w])
  {
    hide Leads, Initial;
    var s1 := ComesToRest(s);
    var s2 := AllFenced(s, s1);
    assert Idle(s2.workers[w]);
    Enters(s, s2, w);
    Scans(s, s2, w, s2.producers, w in s2.quiesced, {}, 0);
    var s3 := At(s2, w, Tail(s2.producers, w in s2.quiesced, true));
    Finishing(s, s3, w);
    var s4 := Finished(s3, w);
    assert forall u :: 0 <= u < |s4.workers| && u != w ==> s4.workers[u] == s2.workers[u];
    assert forall u :: 0 <= u < |s2.workers| ==> Idle(s2.workers[u]);
    Opens(s, s4);
  }

  // ---- the late worker joins too early -----------------------------------

  /** Zeroing done and every gate closed, with the masks as they then stand. */
  function Closed(s: State): State
  {
    s.(quiesced := {}, fenced := {}, ready := false, registered := false, pending := true, main := Waiting)
  }

  lemma Closes(s0: State, s: State)
    requires Leads(s0, s) && s.main.Zeroed1?
    ensures Leads(s0, Closed(s))
  {
    hide Leads;
    Checks(s0, s);
    var s2 := s.(quiesced := {}, main := Zeroed2);
    Checks(s0, s2);
    var s3 := s2.(fenced := {}, main := Zeroed3);
    Checks(s0, s3);
    var s4 := s3.(ready := false, main := Unready);
    Checks(s0, s4);
    Checks(s0, s4.(registered := false, main := Unregistered));
  }

  /** Everybody rests, the late worker has joined this cleanup already and is about to publish to worker `v`. */
  predicate Trapped(s: State, w: nat, v: nat)
  {
    && Down(s) && w < |s.workers| && v < |s.workers| && v != w && |s.workers[v].inbox| > 0
    && Resting(s, w, |s.workers|) && s.workers[w].pc == Push(v, 0) && Idle(s.workers[w].(pc := Out))
    && w in s.producers && s.refs == 0 && s.pendingEmit == 0
  }

  lemma SetsTrap(s: State, w: nat, v: nat) returns (t: State)
    requires Initial(s) && w < |s.workers| && v < |s.workers| && v != w && |s.workers[v].inbox| > 0 &&
             Belated(s.workers[w])
    ensures Leads(s, t) && Trapped(t, w, v)
  {
    Stays(s);
    hide Leads, EmitSum;
    var s1 := s.(ready := true);
    assert Serves(s, Open, s1);
    ThenBusy(s, s, Open, s1);
    var n := |s.workers|;
    var s2 := RestsAll(s, s1, w, n);
    var s3 := Releases(s, s2);
    Checks(s, s3);
    var s4 := s3.(producers := {}, main := Zeroed1);
    var s5 := Rests(s, s4, w);
    OnlyKept(s4, s5, w);
    assert forall u :: 0 <= u < n ==> Idle(s5.workers[u]);
    NothingToEmit(s5.workers, n);
    var s6 := Goto(s5, w, Push(v, 0));
    assert Busy(s5, Look(w, v, 0), s6);
    ThenBusy(s, s5, Look(w, v, 0), s6);
    Closes(s, s6);
    t := Closed(s6);
  }

  // ---- the others are fenced without it ----------------------------------

  /** A round of passes by the first `n` workers but `w`. */
  function RoundBut(s: State, w: nat, n: nat): (t: State)
    requires n <= |s.workers|
    ensures |t.workers| == |s.workers|
  {
    if n == 0 then s
    else if n - 1 == w then RoundBut(s, w, n - 1)
    else Passed(RoundBut(s, w, n - 1), n - 1)
  }

  lemma {:induction false} RoundButLeads(s0: State, s: State, w: nat, v: nat, n: nat)
    requires Leads(s0, s) && Trapped(s, w, v) && n <= |s.workers|
    ensures Leads(s0, RoundBut(s, w, n)) && Trapped(RoundBut(s, w, n), w, v)
  {
    hide Leads, Trapped;
    if n > 0 {
      RoundButLeads(s0, s, w, v, n - 1);
      var r := RoundBut(s, w, n - 1);
      if n - 1 != w {
        assert Down(r) && Idle(r.workers[n - 1]) by { InTrap(r, w, v, n - 1); }
        Pass(s0, r, n - 1);
        PassTrapped(r, w, v, n - 1);
      }
    }
  }

  lemma InTrap(s: State, w: nat, v: nat, u: nat)
    requires Trapped(s, w, v) && u < |s.workers| && u != w
    ensures Down(s) && Idle(s.workers[u])
  {
  }

  lemma PassTrapped(s: State, w: nat, v: nat, u: nat)
    requires Trapped(s, w, v) && u < |s.workers| && u != w
    ensures Trapped(Passed(s, u), w, v)
  {
    hide Full;
  }

  lemma {:induction false} RoundButJoins(s: State, w: nat, n: nat)
    requires n <= |s.workers|
    ensures s.producers <= RoundBut(s, w, n).producers
    ensures forall u :: 0 <= u < n && u != w ==> u in RoundBut(s, w, n).producers
  {
    if n > 0 {
      RoundButJoins(s, w, n - 1);
    }
  }

  /** All but `w` are in the set. */
  predicate AllBut(s: State, w: nat, bits: set<nat>)
  {
    forall u :: 0 <= u < |s.workers| && u != w ==> u in bits
  }

  lemma {:induction false} RoundButQuiets(s: State, w: nat, n: nat)
    requires n <= |s.workers| && Full(s, s.producers)
    ensures Full(s, RoundBut(s, w, n).producers) && s.quiesced <= RoundBut(s, w, n).quiesced
    ensures forall u :: 0 <= u < n && u != w ==> u in RoundBut(s, w, n).quiesced
  {
    if n > 0 {
      RoundButQuiets(s, w, n - 1);
    }
  }

  lemma {:induction false} RoundButFences(s: State, w: nat, n: nat)
    requires n <= |s.workers| && Full(s, s.producers) && AllBut(s, w, s.quiesced)
    ensures var t := RoundBut(s, w, n); Full(s, t.producers) && AllBut(s, w, t.quiesced)
    ensures forall u :: 0 <= u < n && u != w ==> u in RoundBut(s, w, n).fenced
  {
    if n > 0 {
      RoundButFences(s, w, n - 1);
    }
  }

  // ---- and then it publishes ---------------------------------------------

  /** Reclaim is reached with a unit in worker `v`'s inbox. */
  lemma Springs(s0: State, s: State, w: nat, v: nat)
    requires Leads(s0, s) && Trapped(s, w, v)
    requires Full(s, s.producers) && AllBut(s, w, s.quiesced) && AllBut(s, w, s.fenced)
    ensures exists t :: Leads(s0, t) && t.main.Reclaimed? && !Unnamed(t)
  {
    hide Leads;
    var s1 := Published(s, w);
    assert Busy(s, Publish(w), s1);
    ThenBusy(s0, s, Publish(w), s1);
    assert s1.workers[w] == s.workers[w].(pc := Out) && s1.workers[v].inbox[0] == s.workers[v].inbox[0] + 1;
    Pass(s0, s1, w);
    var s2 := Passed(s1, w);
    Pass(s0, s2, w);
    var s3 := Passed(s2, w);
    assert Full(s1, s1.producers) && Full(s2, s2.producers);
    assert Full(s3, s3.quiesced) && Full(s3, s3.fenced);
    forall u | 0 <= u < |s3.workers|
      ensures s3.workers[u].flight == 0
    {
      assert u != w ==> Idle(s.workers[u]);
    }
    Opens(s0, s3);
    var t := s3.(main := Reclaimed);
    assert !Empty(t.workers[v]);
  }

  lemma BelatedBreaks(s: State, w: nat, v: nat)
    requires Initial(s) && w < |s.workers| && v < |s.workers| && v != w && |s.workers[v].inbox| > 0 &&
             Belated(s.workers[w])
    ensures exists t :: Leads(s, t) && t.main.Reclaimed? && !Unnamed(t)
  {
    hide Leads, Trapped, Initial;
    var s1 := SetsTrap(s, w, v);
    var n := |s1.workers|;
    RoundButLeads(s, s1, w, v, n);
    RoundButJoins(s1, w, n);
    var s2 := RoundBut(s1, w, n);
    assert w in s1.producers by { Joined(s1, w, v); }
    assert Full(s2, s2.producers);
    RoundButLeads(s, s2, w, v, n);
    RoundButQuiets(s2, w, n);
    var s3 := RoundBut(s2, w, n);
    RoundButLeads(s, s3, w, v, n);
    RoundButFences(s3, w, n);
    Springs(s, RoundBut(s3, w, n), w, v);
  }

  lemma Joined(s: State, w: nat, v: nat)
    requires Trapped(s, w, v)
    ensures w in s.producers
  {
  }

  /**
   With two workers or more and cells to publish into, from any state of a slot
   that is not being cleaned up: whatever happens, a slot found ready for
   reclaim is one nothing names, if and only if no worker is late to join an
   earlier cleanup.
   */
  lemma ReclaimIsSafeIff(s: State)
    requires Initial(s) && |s.workers| >= 2 && forall v :: 0 <= v < |s.workers| ==> |s.workers[v].inbox| > 0
    ensures (forall t :: Leads(s, t) && t.main.Reclaimed? ==> Unnamed(t)) <==> NoneBelated(s)
  {
    if NoneBelated(s) {
      hide Unnamed, Initial, NoneBelated, Next;
      forall t | Leads(s, t) && t.main.Reclaimed?
        ensures Unnamed(t)
      {
        var run, steps :| Path(run, steps) && run[0] == s && run[|run| - 1] == t;
        ReclaimIsSafe(run, steps, |run| - 1, |run| - 1);
      }
    } else {
      var w :| 0 <= w < |s.workers| && Belated(s.workers[w]);
      hide Leads, Initial, Unnamed, Belated;
      BelatedBreaks(s, w, if w == 0 then 1 else 0);
    }
  }
}
