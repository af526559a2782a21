/**
 Tearing down one Pod slot across any number of workers (doca/dpu_proxy.c,
 doca/comch_server.c). Every shared load and store is its own step, so a worker
 may be overtaken anywhere between them: a producer that saw the slot ready may
 publish into a lane long after the slot stopped being ready, and a worker's
 pass over its lanes interleaves with all the others.

 A worker's lanes are folded into one record; only the publication inboxes, the
 cells other workers write, are kept apart.
 */
module Teardown {

  /**
   Where a worker stands. `Push`, `Hold` and `Ack` have passed their readiness
   check and are about to publish a unit, reference staging, or stage a reverse
   entry. `Live` is a pass over a slot that was ready when the pass reached it;
   the others are a pass over one that was not. `ps` and `qs` are what such a
   pass sampled at its start: the producer bits, and the worker's own quiesced
   bit. `OwnBit` has seen the cleanup pending and is about to look for its own
   producer bit, `Join` to set it.
   */
  datatype Pc =
    | Out
    | Push(t: nat, c: nat) | Hold | Ack
    | Live
    | TopPending | TopBit | Sample | SampleOwn(ps: set<nat>)
    | Scan(ps: set<nat>, qs: bool, spliced: set<nat>, checked: set<nat>, quiet: bool)
    | Tail(ps: set<nat>, qs: bool, quiet: bool)
    | OwnBit(ps: set<nat>, qs: bool, quiet: bool)
    | Join(ps: set<nat>, qs: bool, quiet: bool)
    | Judge(ps: set<nat>, qs: bool, quiet: bool)
    | SetQuiet | SetFence | ClearQuiet | ClearFence

  /**
   What one worker holds of the slot: inbox cells, queued units, DMA tasks in
   flight, finished batches not yet retired, staged reverse entries and retired
   units awaiting emission. The program does not see the rest: `calm` counts
   passes begun since its last completion; `aged` says that the pass it is in
   sampled the producer bits, or decided on its fence, before this cleanup zeroed
   the masks; `lapsed` that such a pass set its fenced bit last.
   */
  datatype Worker = Worker(pc: Pc, inbox: seq<nat>, queue: nat, flight: nat, done: nat, rev: nat, emit: nat,
                           calm: nat, aged: bool, lapsed: bool)

  /** The control thread: zeroing masks, closing the gates, then checking for reclaim. */
  datatype Main =
    | Serving | Zeroed1 | Zeroed2 | Zeroed3 | Unready | Unregistered | Waiting
    | SawQuiet | SawProducers | SawFence(k: nat) | SawFlight | SawEmit | Reclaimed

  datatype State = State(
    workers: seq<Worker>, ready: bool, registered: bool, pending: bool,
    producers: set<nat>, quiesced: set<nat>, fenced: set<nat>,
    pendingEmit: int, refs: nat, main: Main)

  datatype Step =
    | Look(w: nat, t: nat, c: nat) | LookHold(w: nat) | LookAck(w: nat)
    | Publish(w: nat) | Abandon(w: nat) | Unhold
    | Complete(w: nat, batch: bool) | Emit(w: nat) | RevDone(w: nat)
    | Begin(w: nat) | LiveSplice(w: nat, c: nat) | Submit(w: nat) | ReadCredit(w: nat) | Retire(w: nat) | Reject(w: nat)
    | EndLive(w: nat)
    | Top(w: nat) | Splice(w: nat, c: nat) | Drop(w: nat, rev: bool) | Check(w: nat, c: nat) | Leave(w: nat)
    | Finish(w: nat)
    | Control | Open | Reset

  predicate Full(s: State, ps: set<nat>)
  {
    forall v :: 0 <= v < |s.workers| ==> v in ps
  }

  predicate Intends(pc: Pc) { pc.Push? || pc.Hold? || pc.Ack? }

  predicate InDeadPass(pc: Pc) { !pc.Out? && !Intends(pc) && !pc.Live? }

  predicate Empty(m: Worker)
  {
    (forall c :: 0 <= c < |m.inbox| ==> m.inbox[c] == 0) && m.queue == 0 && m.flight == 0 && m.done == 0 && m.rev == 0
  }

  /** The control thread has zeroed the producers' bits, the quiesced bits, the fenced bits. */
  predicate Wiped(m: Main) { !m.Serving? }

  predicate WipedQuiet(m: Main) { Wiped(m) && !m.Zeroed1? }

  predicate WipedFence(m: Main) { WipedQuiet(m) && !m.Zeroed2? }

  predicate Closing(m: Main) { WipedFence(m) && !m.Zeroed3? }

  predicate Late(m: Main) { Closing(m) && !m.Unready? && !m.Unregistered? }

  // ---- steps -------------------------------------------------------------

  function Put(s: State, w: nat, m: Worker): State
    requires w < |s.workers|
  {
    s.(workers := s.workers[w := m])
  }

  function Goto(s: State, w: nat, pc: Pc): State
    requires w < |s.workers|
  {
    Put(s, w, s.workers[w].(pc := pc))
  }

  /** A producer publishes what it decided to publish while the slot looked ready. */
  function Published(s: State, w: nat): State
    requires w < |s.workers| && Intends(s.workers[w].pc)
    requires s.workers[w].pc.Push? ==>
               s.workers[w].pc.t < |s.workers| && s.workers[w].pc.c < |s.workers[s.workers[w].pc.t].inbox|
  {
    var m := s.workers[w];
    match m.pc
    case Push(t, c) =>
      if t == w then Put(s, w, m.(pc := Out, queue := m.queue + 1))
      else
        var o := s.workers[t];
        s.(workers := s.workers[w := m.(pc := Out)][t := o.(inbox := o.inbox[c := o.inbox[c] + 1])])
    case Hold => s.(workers := s.workers[w := m.(pc := Out)], refs := s.refs + 1)
    case Ack => Put(s, w, m.(pc := Out, rev := m.rev + 1))
  }

  /** Queued and finished units go to the worker's emission queue. */
  function ToEmit(s: State, w: nat, m: Worker, n: nat): State
    requires w < |s.workers|
  {
    s.(workers := s.workers[w := m.(emit := m.emit + n)], pendingEmit := s.pendingEmit + n)
  }

  /** The two loads that decide whether a finished slot is skipped, and the samples of the pass. */
  function TopPc(s: State, w: nat): Pc
    requires w < |s.workers|
  {
    var m := s.workers[w];
    match m.pc
    case TopPending => if s.pending then Sample else TopBit
    case TopBit => if w in s.quiesced && m.flight == 0 then Out else Sample
    case Sample => SampleOwn(s.producers)
    case SampleOwn(ps) => Scan(ps, w in s.quiesced, {}, {}, true)
    case _ => m.pc
  }

  function Topped(s: State, w: nat): State
    requires w < |s.workers|
  {
    var m := s.workers[w];
    Put(s, w, m.(pc := TopPc(s, w), aged := if m.pc.Sample? then !Wiped(s.main) else m.aged))
  }

  /** After the lanes: join the producers, then publish or withdraw the quiesced and fenced bits. */
  function FinishPc(s: State, w: nat): Pc
    requires w < |s.workers|
  {
    var m := s.workers[w];
    match m.pc
    case Tail(ps, qs, quiet) => if s.pending then OwnBit(ps, qs, quiet) else Judge(ps, qs, quiet)
    case OwnBit(ps, qs, quiet) => if w in s.producers then Judge(ps, qs, quiet && Full(s, ps)) else Join(ps, qs, quiet)
    case Join(ps, qs, quiet) => Judge(ps, qs, quiet && Full(s, ps))
    case Judge(ps, qs, quiet) =>
      if quiet && m.flight == 0 then if w !in s.quiesced then SetQuiet else if qs then SetFence else Out
      else if w in s.quiesced then ClearQuiet else Out
    case SetQuiet => ClearFence
    case SetFence => Out
    case ClearQuiet => ClearFence
    case ClearFence => Out
    case _ => m.pc
  }

  function Finished(s: State, w: nat): State
    requires w < |s.workers|
  {
    var m := s.workers[w];
    s.(workers := s.workers[w := m.(pc := FinishPc(s, w), aged := m.aged || (m.pc.Judge? && !WipedQuiet(s.main)),
                                    lapsed := if m.pc.SetFence? then m.aged else m.lapsed)],
       producers := if m.pc.Join? then s.producers + {w} else s.producers,
       quiesced := if m.pc.SetQuiet? then s.quiesced + {w}
                   else if m.pc.ClearQuiet? then s.quiesced - {w} else s.quiesced,
       fenced := if m.pc.SetFence? then s.fenced + {w} else if m.pc.ClearFence? then s.fenced - {w} else s.fenced)
  }

  /** The control thread's next load or store. A check that fails starts over. */
  function Controlled(s: State): State
  {
    match s.main
    case Serving => s.(producers := {}, main := Zeroed1)
    case Zeroed1 => s.(quiesced := {}, main := Zeroed2)
    case Zeroed2 => s.(fenced := {}, main := Zeroed3)
    case Zeroed3 => s.(ready := false, main := Unready)
    case Unready => s.(registered := false, main := Unregistered)
    case Unregistered => s.(pending := true, main := Waiting)
    case Waiting => s.(main := if Full(s, s.quiesced) then SawQuiet else Waiting)
    case SawQuiet => s.(main := if Full(s, s.producers) then SawProducers else Waiting)
    case SawProducers => s.(main := if Full(s, s.fenced) then SawFence(0) else Waiting)
    case SawFence(k) =>
      s.(main := if k >= |s.workers| then SawFlight
                 else if s.workers[k].flight == 0 then SawFence(k + 1) else Waiting)
    case SawFlight => s.(main := if s.pendingEmit == 0 then SawEmit else Waiting)
    case SawEmit => s.(main := if s.refs == 0 then Reclaimed else Waiting)
    case Reclaimed => s
  }

  /** The worker reaches the slot in a new pass. */
  function Begun(s: State, w: nat): Worker
    requires w < |s.workers|
  {
    var m := s.workers[w];
    m.(pc := if s.ready then Live else TopPending, calm := m.calm + 1, aged := false)
  }

  /** Before cleanup: the slot is set up anew, which clears the quiesced bits, and becomes ready. */
  ghost predicate Serves(s: State, x: Step, s': State)
  {
    match x
    case Open => s.main.Serving? && s' == s.(ready := true)
    case Reset => s.main.Serving? && s' == s.(quiesced := {})
    case _ => false
  }

  /** Steps of a worker outside its dead pass. */
  ghost predicate Busy(s: State, x: Step, s': State)
  {
    match x
    case Look(w, t, c) =>
      w < |s.workers| && t < |s.workers| && c < |s.workers[t].inbox| && s.workers[w].pc.Out? && s.ready &&
      s' == Goto(s, w, Push(t, c))
    case LookHold(w) => w < |s.workers| && s.workers[w].pc.Out? && s.ready && s' == Goto(s, w, Hold)
    case LookAck(w) => w < |s.workers| && s.workers[w].pc.Out? && s.registered && s' == Goto(s, w, Ack)
    case Publish(w) =>
      w < |s.workers| && Intends(s.workers[w].pc) &&
      (s.workers[w].pc.Push? ==>
         s.workers[w].pc.t < |s.workers| && s.workers[w].pc.c < |s.workers[s.workers[w].pc.t].inbox|) &&
      s' == Published(s, w)
    case Abandon(w) => w < |s.workers| && Intends(s.workers[w].pc) && s' == Goto(s, w, Out)
    case Unhold => s.refs > 0 && s' == s.(refs := s.refs - 1)
    case Begin(w) =>
      w < |s.workers| && s.workers[w].pc.Out? &&
      s' == Put(s, w, Begun(s, w))
    case EndLive(w) => w < |s.workers| && s.workers[w].pc.Live? && s' == Goto(s, w, Out)
    case _ => false
  }

  /** Steps that move a worker's own units and DMA tasks along. */
  ghost predicate Moves(s: State, x: Step, s': State)
  {
    match x
    case Complete(w, batch) =>
      w < |s.workers| && s.workers[w].pc.Out? && s.workers[w].flight > 0 &&
      var m := s.workers[w];
      s' == Put(s, w, m.(flight := m.flight - 1, done := m.done + (if batch then 1 else 0), calm := 0))
    case Emit(w) =>
      w < |s.workers| && s.workers[w].pc.Out? && s.workers[w].emit > 0 &&
      s' == s.(workers := s.workers[w := s.workers[w].(emit := s.workers[w].emit - 1)],
               pendingEmit := s.pendingEmit - 1)
    case RevDone(w) =>
      w < |s.workers| && s.workers[w].rev > 0 && (s.workers[w].pc.Out? || s.workers[w].pc.Live?) &&
      s' == Put(s, w, s.workers[w].(rev := s.workers[w].rev - 1))
    case LiveSplice(w, c) =>
      w < |s.workers| && s.workers[w].pc.Live? && c < |s.workers[w].inbox| &&
      var m := s.workers[w];
      s' == Put(s, w, m.(queue := m.queue + m.inbox[c], inbox := m.inbox[c := 0]))
    case Submit(w) =>
      w < |s.workers| && s.workers[w].pc.Live? && s.workers[w].queue > 0 &&
      s' == Put(s, w, s.workers[w].(queue := s.workers[w].queue - 1, flight := s.workers[w].flight + 1))
    case ReadCredit(w) =>
      w < |s.workers| && s.workers[w].pc.Live? && s' == Put(s, w, s.workers[w].(flight := s.workers[w].flight + 1))
    case Retire(w) =>
      w < |s.workers| && s.workers[w].pc.Live? && s.workers[w].done > 0 &&
      s' == ToEmit(s, w, s.workers[w].(done := s.workers[w].done - 1), 1)
    case Reject(w) =>
      w < |s.workers| && s.workers[w].pc.Live? && s.workers[w].queue > 0 &&
      s' == ToEmit(s, w, s.workers[w].(queue := s.workers[w].queue - 1), 1)
    case _ => false
  }

  /**
   Steps of a pass over a slot that is not ready. Cells are visited in any order,
   each spliced before it is checked.
   */
  ghost predicate Dead(s: State, x: Step, s': State)
  {
    match x
    case Top(w) => w < |s.workers| && s' == Topped(s, w)
    case Splice(w, c) =>
      w < |s.workers| && s.workers[w].pc.Scan? && c < |s.workers[w].inbox| &&
      var m := s.workers[w];
      s' == Put(s, w, m.(pc := m.pc.(spliced := m.pc.spliced + {c}), queue := m.queue + m.inbox[c],
                         inbox := m.inbox[c := 0]))
    case Drop(w, rev) =>
      w < |s.workers| && s.workers[w].pc.Scan? &&
      var m := s.workers[w];
      s' == ToEmit(s, w, m.(queue := 0, done := 0, rev := if rev then 0 else m.rev), m.queue + m.done)
    case Check(w, c) =>
      w < |s.workers| && s.workers[w].pc.Scan? && c < |s.workers[w].inbox| && c in s.workers[w].pc.spliced &&
      var m := s.workers[w];
      s' == Put(s, w, m.(pc := m.pc.(checked := m.pc.checked + {c}, quiet := m.pc.quiet && m.inbox[c] == 0)))
    case Leave(w) =>
      w < |s.workers| && s.workers[w].pc.Scan? &&
      var m := s.workers[w];
      (forall c :: 0 <= c < |m.inbox| ==> c in m.pc.checked && c in m.pc.spliced) &&
      s' == Goto(s, w, Tail(m.pc.ps, m.pc.qs, m.pc.quiet && m.queue == 0 && m.done == 0 && m.rev == 0))
    case Finish(w) => w < |s.workers| && s' == Finished(s, w)
    case _ => false
  }

  ghost predicate Next(s: State, x: Step, s': State)
  {
    Busy(s, x, s') || Moves(s, x, s') || Dead(s, x, s') || Serves(s, x, s') || (x.Control? && s' == Controlled(s))
  }

  // ---- invariant ---------------------------------------------------------

  function EmitSum(ws: seq<Worker>, n: nat): nat
    requires n <= |ws|
  {
    if n == 0 then 0 else EmitSum(ws, n - 1) + ws[n - 1].emit
  }

  /** The pass carries a sample of the producer bits. */
  predicate Sampled(pc: Pc) { pc.SampleOwn? || pc.Scan? || pc.Tail? || pc.OwnBit? || pc.Join? || pc.Judge? }

  /** The pass has walked its lanes. */
  predicate Walked(pc: Pc) { pc.Tail? || pc.OwnBit? || pc.Join? || pc.Judge? }

  predicate Decided(pc: Pc) { pc.SetQuiet? || pc.SetFence? || pc.ClearQuiet? || pc.ClearFence? }

  /** Every producer has joined and the worker's lanes are empty. */
  predicate Drained(s: State, m: Worker) { Full(s, s.producers) && Empty(m) }

  /** A pass that saw every producer bit of this cleanup has emptied each cell it has spliced. */
  predicate ScanOk(s: State, m: Worker)
  {
    Wiped(s.main) && Sampled(m.pc) && !m.aged && Full(s, m.pc.ps) ==>
      && (m.pc.Scan? ==> forall c :: 0 <= c < |m.inbox| && c in m.pc.spliced ==> m.inbox[c] == 0)
      && (Walked(m.pc) && m.pc.quiet && m.flight == 0 ==> Empty(m))
  }

  /** What a pass has sampled since the masks were zeroed, and what it still carries from before. */
  predicate SampleOk(s: State, m: Worker, w: nat)
  {
    && (!Wiped(s.main) && (Sampled(m.pc) || Decided(m.pc)) ==> m.aged)
    && (Wiped(s.main) && Sampled(m.pc) && !m.aged ==> m.pc.ps <= s.producers)
    && (WipedQuiet(s.main) && Sampled(m.pc) && m.aged ==> w !in s.quiesced)
    && (WipedQuiet(s.main) && (m.pc.Sample? || m.pc.SampleOwn?) ==> s.pending || w !in s.quiesced || m.flight != 0)
    && (WipedQuiet(s.main) && (m.pc.Scan? || Walked(m.pc)) && m.pc.qs && w in s.quiesced ==> s.pending || m.flight != 0)
    && (WipedQuiet(s.main) && m.pc.Judge? && m.pc.quiet && m.pc.qs && w in s.quiesced && m.flight == 0 ==>
          Full(s, m.pc.ps))
  }

  /** What a worker about to change its bits has found out. */
  predicate VerdictOk(s: State, m: Worker, w: nat)
  {
    && (Wiped(s.main) && m.pc.Judge? && m.pc.quiet ==> Full(s, m.pc.ps) || w !in s.producers)
    && (Wiped(s.main) && m.pc.SetQuiet? && !m.aged ==> Drained(s, m) || w !in s.producers)
    && (m.pc.SetFence? && !m.aged ==> WipedQuiet(s.main) && Drained(s, m))
    && (WipedQuiet(s.main) && m.pc.SetFence? && m.aged ==> w !in s.quiesced)
  }

  /** A lapsed fence is about to be cleared once the worker has published a quiesced bit of this cleanup. */
  predicate Fading(s: State, m: Worker, w: nat)
  {
    m.pc.ClearFence? && (Drained(s, m) || w !in s.producers)
  }

  predicate FenceOk(s: State, m: Worker, w: nat)
  {
    WipedFence(s.main) && w in s.fenced ==>
      && (Drained(s, m) || m.lapsed) && (m.lapsed && InDeadPass(m.pc) ==> !m.aged)
      && (m.lapsed && w in s.quiesced ==> Fading(s, m, w))
  }

  predicate WorkerOk(s: State, w: nat)
    requires w < |s.workers|
  {
    var m := s.workers[w];
    && (Wiped(s.main) && w in s.producers ==> s.pending && !Intends(m.pc) && !m.pc.Live?)
    && (m.pc.OwnBit? || m.pc.Join? ==> s.pending)
    && SampleOk(s, m, w) && ScanOk(s, m) && VerdictOk(s, m, w) && FenceOk(s, m, w)
  }

  predicate MainOk(s: State)
  {
    && (Closing(s.main) ==> !s.ready) && (Closing(s.main) && !s.main.Unready? ==> !s.registered)
    && s.pending == Late(s.main)
    && (s.main.SawQuiet? || s.main.SawProducers? ==> NoLapse(s)) && (s.main.SawProducers? ==> Full(s, s.producers))
    && (s.main.SawFence? || s.main.SawFlight? || s.main.SawEmit? || s.main.Reclaimed? ==> Settled(s))
    && (s.main.SawEmit? || s.main.Reclaimed? ==> s.pendingEmit == 0)
    && (s.main.Reclaimed? ==> s.refs == 0)
  }

  /** Every fence left over from before this cleanup is on its way out. */
  predicate NoLapse(s: State)
  {
    forall w :: 0 <= w < |s.workers| ==> Lapsing(s, s.workers[w], w)
  }

  predicate Lapsing(s: State, m: Worker, w: nat)
  {
    (w in s.fenced && m.lapsed ==> Fading(s, m, w)) && !(m.pc.SetFence? && m.aged)
  }

  /** Every producer has joined and every worker's lanes are empty. */
  predicate Settled(s: State)
  {
    Full(s, s.producers) && forall w :: 0 <= w < |s.workers| ==> Empty(s.workers[w])
  }

  ghost predicate Inv(s: State)
  {
    && MainOk(s) && s.pendingEmit == EmitSum(s.workers, |s.workers|)
    && forall w :: 0 <= w < |s.workers| ==> WorkerOk(s, w)
  }

  /**
   A slot that is not being cleaned up, ready or not, registered or not, holding
   anything, with any leftover masks and every worker anywhere, inside a pass of
   any age as well.
   */
  ghost predicate Initial(s: State)
  {
    && s.main == Serving && !s.pending && s.pendingEmit == EmitSum(s.workers, |s.workers|)
    && forall w :: 0 <= w < |s.workers| ==> StartOk(s.workers[w])
  }

  predicate StartOk(m: Worker)
  {
    && (Sampled(m.pc) || Decided(m.pc) ==> m.aged) && (InDeadPass(m.pc) ==> m.calm >= 1)
    && (m.pc.SetQuiet? || m.pc.SetFence? ==> m.flight == 0)
  }

  /** A worker has seen an earlier cleanup pending and is yet to set its producer bit for it. */
  predicate Belated(m: Worker) { m.pc.OwnBit? || m.pc.Join? }

  predicate NoneBelated(s: State)
  {
    forall w :: 0 <= w < |s.workers| ==> !Belated(s.workers[w])
  }
}
