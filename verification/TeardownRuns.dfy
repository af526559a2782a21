/**
 Every interleaving keeps the teardown invariant, so a slot found ready for
 reclaim is one that nothing on any worker names, now and from then on.
 */
module TeardownRuns {
  import opened Teardown

  // ---- sums --------------------------------------------------------------

  lemma {:induction false} SumPut(ws: seq<Worker>, w: nat, m: Worker, n: nat)
    requires w < |ws| && n <= |ws|
    ensures EmitSum(ws[w := m], n) == EmitSum(ws, n) + if w < n then m.emit - ws[w].emit else 0
  {
    if n > 0 {
      SumPut(ws, w, m, n - 1);
    }
  }

  lemma {:induction false} SumBounds(ws: seq<Worker>, w: nat, n: nat)
    requires w < n <= |ws|
    ensures ws[w].emit <= EmitSum(ws, n)
  {
    if w < n - 1 {
      SumBounds(ws, w, n - 1);
    }
  }

  // ---- frames ------------------------------------------------------------

  /** What a step of another worker may look like from worker `v`. */
  ghost predicate Beside(s: State, s': State, v: nat)
  {
    && v < |s.workers| == |s'.workers| && s'.workers[v] == s.workers[v]
    && s'.pending == s.pending && s'.main == s.main
    && s.producers <= s'.producers && (v in s'.producers ==> v in s.producers)
    && (v in s'.quiesced <==> v in s.quiesced) && (v in s'.fenced <==> v in s.fenced)
  }

  lemma BesideOk(s: State, s': State, v: nat)
    requires Beside(s, s', v) && WorkerOk(s, v)
    ensures WorkerOk(s', v)
  {
  }

  /** Only worker `w` and its bits moved. */
  ghost predicate Solo(s: State, s': State, w: nat)
  {
    && w < |s.workers| == |s'.workers|
    && s'.ready == s.ready && s'.registered == s.registered && s'.pending == s.pending && s'.main == s.main
    && (forall v :: 0 <= v < |s.workers| && v != w ==> Beside(s, s', v))
    && s.producers <= s'.producers
  }

  /** A settled slot stays settled. */
  ghost predicate StaysSettled(s: State, s': State, w: nat)
    requires w < |s.workers| == |s'.workers|
  {
    Full(s, s.producers) && s.pending && Empty(s.workers[w]) ==>
      && Empty(s'.workers[w])
      && s'.pendingEmit <= s.pendingEmit && s'.refs <= s.refs
  }

  /** A fence on its way out stays so. */
  ghost predicate StaysLapsing(s: State, s': State, w: nat)
    requires w < |s.workers| == |s'.workers|
  {
    WipedQuiet(s.main) && Lapsing(s, s.workers[w], w) ==> Lapsing(s', s'.workers[w], w)
  }

  lemma BesideLapsing(s: State, s': State, v: nat)
    requires Beside(s, s', v) && Lapsing(s, s.workers[v], v)
    ensures Lapsing(s', s'.workers[v], v)
  {
  }

  lemma SoloMain(s: State, s': State, w: nat)
    requires MainOk(s) && Solo(s, s', w) && StaysSettled(s, s', w)
    requires StaysLapsing(s, s', w) && s'.pendingEmit == EmitSum(s'.workers, |s'.workers|)
    ensures MainOk(s')
  {
    hide Lapsing;
    forall v | 0 <= v < |s'.workers|
      ensures NoLapse(s) && WipedQuiet(s.main) ==> Lapsing(s', s'.workers[v], v)
      ensures Settled(s) && Late(s.main) ==> Empty(s'.workers[v])
    {
      if v != w {
        assert Beside(s, s', v);
        if NoLapse(s) && WipedQuiet(s.main) {
          BesideLapsing(s, s', v);
        }
      }
      assert NoLapse(s) ==> Lapsing(s, s.workers[v], v);
    }
  }

  lemma SoloKeeps(s: State, s': State, w: nat)
    requires Inv(s) && Solo(s, s', w) && StaysSettled(s, s', w) && WorkerOk(s', w) && StaysLapsing(s, s', w)
    requires s'.pendingEmit == EmitSum(s'.workers, |s'.workers|)
    ensures Inv(s')
  {
    hide WorkerOk, MainOk, EmitSum, StaysSettled, Lapsing;
    SoloMain(s, s', w);
    forall v | 0 <= v < |s'.workers|
      ensures WorkerOk(s', v)
    {
      if v != w {
        BesideOk(s, s', v);
      }
    }
  }

  // ---- one worker's steps ------------------------------------------------

  /** A step that only replaces worker `w`. */
  lemma PutKeeps(s: State, w: nat, m: Worker)
    requires Inv(s) && w < |s.workers| && m.emit == s.workers[w].emit
    requires WorkerOk(Put(s, w, m), w) && StaysSettled(s, Put(s, w, m), w) && StaysLapsing(s, Put(s, w, m), w)
    ensures Inv(Put(s, w, m))
  {
    SumPut(s.workers, w, m, |s.workers|);
    hide WorkerOk, StaysSettled, StaysLapsing, MainOk, EmitSum;
    SoloKeeps(s, Put(s, w, m), w);
  }

  lemma EmitKeeps(s: State, w: nat, m: Worker, n: nat)
    requires Inv(s) && w < |s.workers| && m.emit == s.workers[w].emit
    requires WorkerOk(ToEmit(s, w, m, n), w) && StaysSettled(s, ToEmit(s, w, m, n), w)
    requires StaysLapsing(s, ToEmit(s, w, m, n), w)
    ensures Inv(ToEmit(s, w, m, n))
  {
    SumPut(s.workers, w, m.(emit := m.emit + n), |s.workers|);
    hide WorkerOk, StaysSettled, StaysLapsing, MainOk, EmitSum;
    SoloKeeps(s, ToEmit(s, w, m, n), w);
  }

  lemma Own(s: State, w: nat)
    requires Inv(s) && w < |s.workers|
    ensures WorkerOk(s, w)
    ensures s.pending == Late(s.main) && (Closing(s.main) ==> !s.ready) && (s.pending ==> !s.registered)
  {
    hide WorkerOk, EmitSum;
  }

  lemma TopKeeps(s: State, w: nat)
    requires Inv(s) && w < |s.workers|
    ensures Inv(Topped(s, w))
  {
    hide Inv;
    Own(s, w);
    var m := Topped(s, w).workers[w];
    TopOk(s, w);
    TopFrame(s, w);
    hide WorkerOk, Topped;
    PutKeeps(s, w, m);
  }

  lemma TopOk(s: State, w: nat)
    requires w < |s.workers| && WorkerOk(s, w) && s.pending == Late(s.main)
    ensures WorkerOk(Topped(s, w), w)
  {
  }

  lemma TopFrame(s: State, w: nat)
    requires w < |s.workers|
    ensures var m := Topped(s, w).workers[w];
            && Topped(s, w) == Put(s, w, m) && m.emit == s.workers[w].emit
            && StaysSettled(s, Put(s, w, m), w) && StaysLapsing(s, Put(s, w, m), w)
  {
    assert Empty(s.workers[w]) ==> Empty(Topped(s, w).workers[w]);
    hide Empty;
  }

  lemma SpliceKeeps(s: State, w: nat, c: nat)
    requires Inv(s) && w < |s.workers| && s.workers[w].pc.Scan? && c < |s.workers[w].inbox|
    ensures var m := s.workers[w];
            Inv(Put(s, w, m.(pc := m.pc.(spliced := m.pc.spliced + {c}), queue := m.queue + m.inbox[c],
                             inbox := m.inbox[c := 0])))
  {
    hide Inv;
    Own(s, w);
    var m := s.workers[w];
    PutKeeps(s, w, m.(pc := m.pc.(spliced := m.pc.spliced + {c}), queue := m.queue + m.inbox[c],
                      inbox := m.inbox[c := 0]));
  }

  lemma DropKeeps(s: State, w: nat, rev: bool)
    requires Inv(s) && w < |s.workers| && s.workers[w].pc.Scan?
    ensures var m := s.workers[w];
            Inv(ToEmit(s, w, m.(queue := 0, done := 0, rev := if rev then 0 else m.rev), m.queue + m.done))
  {
    hide Inv;
    Own(s, w);
    var m := s.workers[w];
    EmitKeeps(s, w, m.(queue := 0, done := 0, rev := if rev then 0 else m.rev), m.queue + m.done);
  }

  lemma CheckKeeps(s: State, w: nat, c: nat)
    requires Inv(s) && w < |s.workers| && s.workers[w].pc.Scan? && c < |s.workers[w].inbox|
    ensures var m := s.workers[w];
            Inv(Put(s, w, m.(pc := m.pc.(checked := m.pc.checked + {c}, quiet := m.pc.quiet && m.inbox[c] == 0))))
  {
    hide Inv;
    Own(s, w);
    var m := s.workers[w];
    PutKeeps(s, w, m.(pc := m.pc.(checked := m.pc.checked + {c}, quiet := m.pc.quiet && m.inbox[c] == 0)));
  }

  lemma LeaveKeeps(s: State, w: nat)
    requires Inv(s) && w < |s.workers| && s.workers[w].pc.Scan?
    requires forall c :: 0 <= c < |s.workers[w].inbox| ==> c in s.workers[w].pc.spliced
    ensures var m := s.workers[w];
            Inv(Goto(s, w, Tail(m.pc.ps, m.pc.qs, m.pc.quiet && m.queue == 0 && m.done == 0 && m.rev == 0)))
  {
    hide Inv;
    Own(s, w);
    var m := s.workers[w];
    PutKeeps(s, w, m.(pc := Tail(m.pc.ps, m.pc.qs, m.pc.quiet && m.queue == 0 && m.done == 0 && m.rev == 0)));
  }

  /** The pass has walked its lanes: whether to join, and its verdict. */
  lemma JudgeOk(s: State, w: nat)
    requires w < |s.workers| && WorkerOk(s, w) && s.pending == Late(s.main) && Walked(s.workers[w].pc)
    ensures WorkerOk(Finished(s, w), w)
  {
  }

  /** Publishing or withdrawing the bits. */
  lemma BitsOk(s: State, w: nat)
    requires w < |s.workers| && WorkerOk(s, w) && s.pending == Late(s.main) && !Walked(s.workers[w].pc)
    ensures WorkerOk(Finished(s, w), w)
  {
  }

  lemma FinishFrame(s: State, w: nat)
    requires w < |s.workers|
    ensures var s' := Finished(s, w);
            && Solo(s, s', w) && StaysSettled(s, s', w) && s'.pendingEmit == s.pendingEmit
            && s'.workers == s.workers[w := s'.workers[w]] && s'.workers[w].emit == s.workers[w].emit
  {
    hide Full;
  }

  lemma FinishLapsing(s: State, w: nat)
    requires w < |s.workers| && WorkerOk(s, w)
    ensures |Finished(s, w).workers| == |s.workers| && StaysLapsing(s, Finished(s, w), w)
  {
    hide ScanOk, FenceOk, Empty;
  }

  lemma FinishKeeps(s: State, w: nat)
    requires Inv(s) && w < |s.workers|
    ensures Inv(Finished(s, w))
  {
    hide Inv, WorkerOk, StaysSettled, StaysLapsing, Solo, Finished;
    Own(s, w);
    var s' := Finished(s, w);
    if Walked(s.workers[w].pc) {
      JudgeOk(s, w);
    } else {
      BitsOk(s, w);
    }
    FinishFrame(s, w);
    FinishLapsing(s, w);
    FinishSum(s, s', w, s'.workers[w]);
    SoloKeeps(s, s', w);
  }

  lemma FinishSum(s: State, s': State, w: nat, m: Worker)
    requires Inv(s) && w < |s.workers| && s'.workers == s.workers[w := m] && m.emit == s.workers[w].emit
    requires s'.pendingEmit == s.pendingEmit
    ensures s'.pendingEmit == EmitSum(s'.workers, |s'.workers|)
  {
    hide WorkerOk, MainOk;
    SumPut(s.workers, w, m, |s.workers|);
  }

  lemma DeadKeeps(s: State, x: Step, s': State)
    requires Inv(s) && Dead(s, x, s')
    ensures Inv(s')
  {
    hide Inv, Topped, Finished;
    match x
    case Top(w) => TopKeeps(s, w);
    case Splice(w, c) => SpliceKeeps(s, w, c);
    case Drop(w, rev) => DropKeeps(s, w, rev);
    case Check(w, c) => CheckKeeps(s, w, c);
    case Leave(w) => LeaveKeeps(s, w);
    case Finish(w) => FinishKeeps(s, w);
    case _ =>
  }

  // ---- outside the dead pass ---------------------------------------------

  lemma GotoKeeps(s: State, w: nat, pc: Pc)
    requires Inv(s) && w < |s.workers|
    requires (s.workers[w].pc.Out? && Intends(pc) && (s.ready || (s.registered && pc.Ack?))) ||
             ((Intends(s.workers[w].pc) || s.workers[w].pc.Live?) && pc.Out?)
    ensures Inv(Goto(s, w, pc))
  {
    hide Inv;
    Own(s, w);
    PutKeeps(s, w, s.workers[w].(pc := pc));
  }

  lemma BeginKeeps(s: State, w: nat)
    requires Inv(s) && w < |s.workers| && s.workers[w].pc.Out?
    ensures Inv(Put(s, w, Begun(s, w)))
  {
    hide Inv;
    Own(s, w);
    PutKeeps(s, w, Begun(s, w));
  }

  /** A late unit lands in another worker's inbox: that worker cannot have seen every producer bit. */
  lemma PushKeeps(s: State, w: nat)
    requires Inv(s) && w < |s.workers| && s.workers[w].pc.Push?
    requires s.workers[w].pc.t < |s.workers| && s.workers[w].pc.c < |s.workers[s.workers[w].pc.t].inbox|
    ensures Inv(Published(s, w))
  {
    hide Inv;
    Own(s, w);
    var t, c := s.workers[w].pc.t, s.workers[w].pc.c;
    if t == w {
      PutKeeps(s, w, s.workers[w].(pc := Out, queue := s.workers[w].queue + 1));
    } else {
      Own(s, t);
      var o := s.workers[t];
      PutKeeps(s, t, o.(inbox := o.inbox[c := o.inbox[c] + 1]));
      var s1 := Put(s, t, o.(inbox := o.inbox[c := o.inbox[c] + 1]));
      hide StaysSettled, WorkerOk;
      GotoKeeps(s1, w, Out);
      assert s.workers[w := s.workers[w].(pc := Out)][t := o.(inbox := o.inbox[c := o.inbox[c] + 1])]
          == s1.workers[w := s.workers[w].(pc := Out)];
    }
  }

  lemma PublishKeeps(s: State, w: nat)
    requires Inv(s) && w < |s.workers| && Intends(s.workers[w].pc)
    requires s.workers[w].pc.Push? ==>
               s.workers[w].pc.t < |s.workers| && s.workers[w].pc.c < |s.workers[s.workers[w].pc.t].inbox|
    ensures Inv(Published(s, w))
  {
    hide Inv;
    if s.workers[w].pc.Push? {
      hide Published;
      PushKeeps(s, w);
    } else {
      Own(s, w);
      var s' := Published(s, w);
      if s.workers[w].pc.Ack? {
        PutKeeps(s, w, s.workers[w].(pc := Out, rev := s.workers[w].rev + 1));
      } else {
        FinishSum(s, s', w, s'.workers[w]);
        SoloKeeps(s, s', w);
      }
    }
  }

  lemma UnholdKeeps(s: State)
    requires Inv(s) && s.refs > 0
    ensures Inv(s.(refs := s.refs - 1))
  {
    hide EmitSum;
    var s' := s.(refs := s.refs - 1);
    forall v | 0 <= v < |s.workers|
      ensures WorkerOk(s', v)
    {
      assert WorkerOk(s, v);
      BesideOk(s, s', v);
    }
  }

  lemma BusyKeeps(s: State, x: Step, s': State)
    requires Inv(s) && Busy(s, x, s')
    ensures Inv(s')
  {
    hide Inv, Published;
    match x
    case Look(w, t, c) => GotoKeeps(s, w, Push(t, c));
    case LookHold(w) => GotoKeeps(s, w, Hold);
    case LookAck(w) => GotoKeeps(s, w, Ack);
    case Publish(w) => PublishKeeps(s, w);
    case Abandon(w) => GotoKeeps(s, w, Out);
    case Unhold => UnholdKeeps(s);
    case Begin(w) => BeginKeeps(s, w);
    case EndLive(w) => GotoKeeps(s, w, Out);
    case _ =>
  }

  lemma EmitDoneKeeps(s: State, w: nat)
    requires Inv(s) && w < |s.workers| && s.workers[w].pc.Out? && s.workers[w].emit > 0
    ensures Inv(s.(workers := s.workers[w := s.workers[w].(emit := s.workers[w].emit - 1)],
                   pendingEmit := s.pendingEmit - 1))
  {
    var m := s.workers[w].(emit := s.workers[w].emit - 1);
    var s' := s.(workers := s.workers[w := m], pendingEmit := s.pendingEmit - 1);
    assert s'.pendingEmit == EmitSum(s'.workers, |s'.workers|) by {
      hide WorkerOk, MainOk;
      SumPut(s.workers, w, m, |s.workers|);
    }
    hide Inv, EmitSum;
    Own(s, w);
    SoloKeeps(s, s', w);
  }

  lemma CompleteKeeps(s: State, w: nat, batch: bool)
    requires Inv(s) && w < |s.workers| && s.workers[w].pc.Out? && s.workers[w].flight > 0
    ensures var m := s.workers[w];
            Inv(Put(s, w, m.(flight := m.flight - 1, done := m.done + (if batch then 1 else 0), calm := 0)))
  {
    hide Inv;
    var m := s.workers[w];
    Own(s, w);
    PutKeeps(s, w, m.(flight := m.flight - 1, done := m.done + (if batch then 1 else 0), calm := 0));
  }

  /** A worker that moves its own units in a live pass, or finishes a reverse entry. */
  predicate Moved(m: Worker, m': Worker)
  {
    && m' == m.(inbox := m'.inbox, queue := m'.queue, flight := m'.flight, done := m'.done, rev := m'.rev,
                emit := m'.emit)
    && |m'.inbox| == |m.inbox| && (m.pc.Live? || (m.pc.Out? && m'.rev <= m.rev && m' == m.(rev := m'.rev)))
  }

  lemma MovedOk(s: State, s': State, w: nat)
    requires w < |s.workers| == |s'.workers| && WorkerOk(s, w) && s.pending == Late(s.main)
    requires s' == s.(workers := s.workers[w := s'.workers[w]], pendingEmit := s'.pendingEmit)
    requires Moved(s.workers[w], s'.workers[w]) && (s.workers[w].pc.Out? ==> s'.pendingEmit == s.pendingEmit)
    ensures WorkerOk(s', w) && StaysSettled(s, s', w) && StaysLapsing(s, s', w)
  {
  }

  /** A live pass: nothing it does can follow the worker's own join. */
  lemma LiveKeeps(s: State, x: Step, s': State)
    requires Inv(s) && Moves(s, x, s') && !x.Emit? && !x.Complete?
    ensures Inv(s')
  {
    hide Inv, WorkerOk, StaysSettled, StaysLapsing;
    Own(s, x.w);
    var m := s.workers[x.w];
    assert Moved(m, s'.workers[x.w]);
    MovedOk(s, s', x.w);
    hide Moved;
    match x
    case RevDone(w) => PutKeeps(s, w, m.(rev := m.rev - 1));
    case LiveSplice(w, c) => PutKeeps(s, w, m.(queue := m.queue + m.inbox[c], inbox := m.inbox[c := 0]));
    case Submit(w) => PutKeeps(s, w, m.(queue := m.queue - 1, flight := m.flight + 1));
    case ReadCredit(w) => PutKeeps(s, w, m.(flight := m.flight + 1));
    case Retire(w) => EmitKeeps(s, w, m.(done := m.done - 1), 1);
    case Reject(w) => EmitKeeps(s, w, m.(queue := m.queue - 1), 1);
    case _ =>
  }

  // ---- the control thread ------------------------------------------------

  lemma ControlWorkers(s: State, v: nat)
    requires Inv(s) && v < |s.workers|
    ensures WorkerOk(Controlled(s), v)
  {
    assert WorkerOk(s, v);
    hide EmitSum;
  }

  /** Having seen every quiesced bit, the control thread can trust a fence it goes on to see. */
  lemma SeenQuiet(s: State)
    requires Inv(s) && WipedFence(s.main) && Full(s, s.quiesced)
    ensures NoLapse(s)
  {
    hide EmitSum, MainOk;
    forall w | 0 <= w < |s.workers|
      ensures Lapsing(s, s.workers[w], w)
    {
      assert WorkerOk(s, w);
    }
  }

  lemma SeenFence(s: State)
    requires Inv(s) && s.main.SawProducers? && Full(s, s.fenced)
    ensures Settled(s)
  {
    hide EmitSum;
    forall w | 0 <= w < |s.workers|
      ensures Empty(s.workers[w])
    {
      assert WorkerOk(s, w) && Lapsing(s, s.workers[w], w);
    }
  }

  lemma ControlKeeps(s: State)
    requires Inv(s)
    ensures Inv(Controlled(s))
  {
    var s' := Controlled(s);
    assert MainOk(s') by {
      hide WorkerOk, EmitSum;
      if s.main.Waiting? && Full(s, s.quiesced) {
        SeenQuiet(s);
      }
      if s.main.SawProducers? && Full(s, s.fenced) {
        SeenFence(s);
      }
      assert forall w :: 0 <= w < |s.workers| && Lapsing(s, s.workers[w], w) ==> Lapsing(s', s'.workers[w], w);
    }
    hide Inv, WorkerOk, MainOk, EmitSum;
    forall v | 0 <= v < |s'.workers|
      ensures WorkerOk(s', v)
    {
      ControlWorkers(s, v);
    }
  }

  lemma ServeKeeps(s: State, x: Step, s': State)
    requires Inv(s) && Serves(s, x, s')
    ensures Inv(s')
  {
    hide EmitSum;
    forall v | 0 <= v < |s'.workers|
      ensures WorkerOk(s', v)
    {
      assert WorkerOk(s, v);
    }
  }

  // ---- runs --------------------------------------------------------------

  lemma StepKeeps(s: State, x: Step, s': State)
    requires Inv(s) && Next(s, x, s')
    ensures Inv(s')
  {
    hide Inv, Controlled;
    if Busy(s, x, s') {
      BusyKeeps(s, x, s');
    } else if Moves(s, x, s') {
      if x.Emit? {
        EmitDoneKeeps(s, x.w);
      } else if x.Complete? {
        CompleteKeeps(s, x.w, x.batch);
      } else {
        LiveKeeps(s, x, s');
      }
    } else if Dead(s, x, s') {
      DeadKeeps(s, x, s');
    } else if Serves(s, x, s') {
      ServeKeeps(s, x, s');
    } else {
      ControlKeeps(s);
    }
  }

  ghost predicate IsRun(run: seq<State>, steps: seq<Step>)
  {
    && |run| == |steps| + 1 && Initial(run[0])
    && forall i :: 0 <= i < |steps| ==> Next(run[i], steps[i], run[i + 1])
  }

  lemma InitOk(s: State)
    requires Initial(s) && NoneBelated(s)
    ensures Inv(s)
  {
    hide EmitSum;
  }

  lemma {:induction false} RunKeeps(run: seq<State>, steps: seq<Step>, i: nat)
    requires IsRun(run, steps) && NoneBelated(run[0]) && i < |run|
    ensures Inv(run[i])
  {
    hide Inv, Next, Initial, NoneBelated;
    if i == 0 {
      InitOk(run[0]);
    } else {
      RunKeeps(run, steps, i - 1);
      StepKeeps(run[i - 1], steps[i - 1], run[i]);
    }
  }

  /**
   No inbox, queue, DMA task, batch, reverse stage, pending emission, staging
   reference or late producer names the slot.
   */
  ghost predicate Unnamed(s: State)
  {
    && s.refs == 0
    && forall w :: 0 <= w < |s.workers| ==>
         Empty(s.workers[w]) && s.workers[w].emit == 0 && !Intends(s.workers[w].pc) && !s.workers[w].pc.Live?
  }

  lemma ReclaimedUnnamed(s: State)
    requires Inv(s) && s.main.Reclaimed?
    ensures Unnamed(s)
  {
    forall w | 0 <= w < |s.workers|
      ensures s.workers[w].emit == 0 && !Intends(s.workers[w].pc) && !s.workers[w].pc.Live?
    {
      assert WorkerOk(s, w);
      SumBounds(s.workers, w, |s.workers|);
      hide EmitSum;
    }
    hide EmitSum, WorkerOk;
  }

  lemma DeadStays(s: State, x: Step, s': State)
    requires Dead(s, x, s')
    ensures s'.main == s.main && |s'.workers| == |s.workers|
  {
  }

  lemma PublishStays(s: State, w: nat)
    requires w < |s.workers| && Intends(s.workers[w].pc)
    requires s.workers[w].pc.Push? ==>
               s.workers[w].pc.t < |s.workers| && s.workers[w].pc.c < |s.workers[s.workers[w].pc.t].inbox|
    ensures Published(s, w).main == s.main && |Published(s, w).workers| == |s.workers|
  {
  }

  lemma BusyStays(s: State, x: Step, s': State)
    requires Busy(s, x, s') || Moves(s, x, s')
    ensures s'.main == s.main && |s'.workers| == |s.workers|
  {
    hide Published;
    if Busy(s, x, s') {
      hide Moves;
      if x.Publish? {
        PublishStays(s, x.w);
      }
    } else {
      hide Busy;
    }
  }

  lemma StepStays(s: State, x: Step, s': State)
    requires Next(s, x, s') && s.main.Reclaimed?
    ensures s'.main.Reclaimed?
  {
    hide Busy, Moves, Dead;
    if Busy(s, x, s') || Moves(s, x, s') {
      BusyStays(s, x, s');
    } else if Dead(s, x, s') {
      DeadStays(s, x, s');
    }
  }

  lemma {:induction false} ReclaimedStays(run: seq<State>, steps: seq<Step>, i: nat, j: nat)
    requires IsRun(run, steps) && i <= j < |run| && run[i].main.Reclaimed?
    ensures run[j].main.Reclaimed?
  {
    hide Next, Initial;
    if i < j {
      ReclaimedStays(run, steps, i, j - 1);
      StepStays(run[j - 1], steps[j - 1], run[j]);
    }
  }

  /**
   The reclaim barrier: once the control thread has found the slot ready for
   reclaim, whatever the number of workers and however their passes, late
   publications and completions interleaved, nothing on any worker names the
   slot, and nothing comes to name it while the slot stays down. The slot may
   never have been ready, or have become ready while workers were inside passes
   over it, as long as none of them was late to join an earlier cleanup.
   */
  lemma ReclaimIsSafe(run: seq<State>, steps: seq<Step>, i: nat, j: nat)
    requires IsRun(run, steps) && NoneBelated(run[0]) && i <= j < |run| && run[i].main.Reclaimed?
    ensures Unnamed(run[j])
  {
    hide Inv, Next, Initial, NoneBelated;
    ReclaimedStays(run, steps, i, j);
    RunKeeps(run, steps, j);
    ReclaimedUnnamed(run[j]);
  }
}
