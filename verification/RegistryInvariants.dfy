/**
 What every call into the association registry keeps: counters equal to sums
 over the slots, no receive SPI, queue pair, association or Pod pair shared by
 two live associations, and the order of one association's life.
 */
module RegistryInvariants {
  import opened Wrappers
  import opened Association

  // ---- accounting --------------------------------------------------------

  function Weight(a: Assoc): Tally
  {
    if !a.used then Tally(0, 0, 0, 0)
    else Tally(1, |a.lanes|, a.reservedSas, if a.phase.QUARANTINED? then 1 else 0)
  }

  function Plus(x: Tally, y: Tally): Tally
  {
    Tally(x.pairs + y.pairs, x.lanes + y.lanes, x.sas + y.sas, x.quarantined + y.quarantined)
  }

  /** Sum over the first `n` slots. */
  function Sum(pairs: seq<Assoc>, n: nat): Tally
    requires n <= |pairs|
  {
    if n == 0 then Tally(0, 0, 0, 0) else Plus(Sum(pairs, n - 1), Weight(pairs[n - 1]))
  }

  function Total(pairs: seq<Assoc>): Tally { Sum(pairs, |pairs|) }

  lemma {:induction false} SumSame(xs: seq<Assoc>, ys: seq<Assoc>, n: nat)
    requires n <= |xs| && n <= |ys|
    requires forall i :: 0 <= i < n ==> Weight(xs[i]) == Weight(ys[i])
    ensures Sum(xs, n) == Sum(ys, n)
  {
    if n > 0 {
      SumSame(xs, ys, n - 1);
    }
  }

  lemma {:induction false} SumUpdate(pairs: seq<Assoc>, n: nat, i: nat, a: Assoc)
    requires i < n <= |pairs|
    ensures Plus(Sum(pairs[i := a], n), Weight(pairs[i])) == Plus(Sum(pairs, n), Weight(a))
  {
    if i == n - 1 {
      SumSame(pairs, pairs[i := a], i);
    } else {
      SumUpdate(pairs, n - 1, i, a);
    }
  }

  /** Rewriting one slot moves the totals by the difference of the two weights. */
  lemma TotalUpdate(pairs: seq<Assoc>, i: nat, a: Assoc)
    requires i < |pairs|
    ensures Plus(Total(pairs[i := a]), Weight(pairs[i])) == Plus(Total(pairs), Weight(a))
  {
    SumUpdate(pairs, |pairs|, i, a);
  }

  lemma {:induction false} SumEmpty(pairs: seq<Assoc>, n: nat)
    requires n <= |pairs| && forall i :: 0 <= i < n ==> !pairs[i].used
    ensures Sum(pairs, n) == Tally(0, 0, 0, 0)
  {
    if n > 0 {
      SumEmpty(pairs, n - 1);
    }
  }

  /** A table in which every slot is used counts as full. */
  lemma {:induction false} SumBounds(pairs: seq<Assoc>, n: nat)
    requires n <= |pairs|
    ensures 0 <= Sum(pairs, n).pairs <= n && 0 <= Sum(pairs, n).lanes
    ensures 0 <= Sum(pairs, n).sas && 0 <= Sum(pairs, n).quarantined
    ensures (forall i :: 0 <= i < n ==> pairs[i].used) ==> Sum(pairs, n).pairs == n
  {
    if n > 0 {
      SumBounds(pairs, n - 1);
    }
  }

  // ---- invariants --------------------------------------------------------

  /** The phase in which each hardware operation is outstanding. */
  function PhaseOf(x: Action): Phase
  {
    match x
    case InstallRx => RX
    case InstallTx => TX
    case EnableQps => QP
    case Quiesce => DRAIN
    case Resume => RESUME
    case RemoveOld => ACTIVE
    case Block => BLOCK
    case DestroyQps => DESTROY
    case RemoveAll => REMOVE
  }

  predicate EpochsInv(a: Assoc)
  {
    && a.binding.epoch >= 1
    && (a.oldEpoch == 0 || a.oldEpoch + 1 == a.binding.epoch)
    && (a.activeEpoch == a.binding.epoch || (a.activeEpoch + 1 == a.binding.epoch && a.oldEpoch == a.activeEpoch))
    && (a.phase.ACTIVE? ==> a.activeEpoch == a.binding.epoch)
    && ((a.phase.RX? || a.phase.WAIT_RX? || a.phase.TX? || a.phase.WAIT_TX? || a.phase.QP? || a.phase.WAIT_QP? ||
         a.phase.DRAIN? || a.phase.WAIT_DRAIN? || a.phase.RESUME?) ==> a.activeEpoch != a.binding.epoch)
    && ((a.phase.DRAIN? || a.phase.WAIT_DRAIN?) ==> a.activeEpoch != 0)
    && ((a.phase.QP? || a.phase.WAIT_QP?) ==> a.activeEpoch == 0)
  }

  predicate PhaseInv(a: Assoc)
  {
    && (a.pending != 0 ==> a.phase == PhaseOf(a.action) && (a.action.RemoveOld? ==> a.oldEpoch != 0))
    && (a.pending == 0 ==> !(a.phase.TX? || a.phase.QP? || a.phase.DRAIN? || a.phase.RESUME?))
    && ((a.phase.BLOCK? || a.phase.DESTROY? || a.phase.REMOVE? || a.phase.DEAD?) ==> a.revoking)
    && (a.revoking && a.pending == 0 ==> a.phase.BLOCK? || a.phase.DESTROY? || a.phase.REMOVE? || Ended(a.phase))
    && (Ended(a.phase) ==> a.pending == 0)
    && ((a.phase.TX? || a.phase.WAIT_TX? || a.phase.QP? || a.phase.WAIT_QP? || a.phase.RESUME? || a.phase.DRAIN? ||
         a.phase.WAIT_DRAIN? || a.phase.ACTIVE?) ==> a.peerRx)
    && ((a.phase.QP? || a.phase.WAIT_QP? || a.phase.RESUME? || a.phase.ACTIVE?) ==> a.peerTx)
    && (a.peerTx ==> a.peerRx) && (a.peerQp ==> a.peerTx) && (a.peerDrained ==> a.peerRx) && (a.peerActive ==> a.peerTx)
  }

  predicate PairInv(a: Assoc)
  {
    && a.reservedSas == (if a.oldEpoch != 0 then 4 else 2)
    && 0 < |a.lanes| <= LANES_MAX && LanesValid(a.lanes, a.local)
    && (a.oldEpoch != 0 ==> a.oldSpi.At(Other(a.local)) != a.binding.spi.At(Other(a.local)))
    && (a.revoking || a.digest == DigestOf(a))
    && EpochsInv(a) && PhaseInv(a)
  }

  /** Nothing the node hands out once is held by both pairs. */
  predicate Exclusive(a: Assoc, b: Assoc)
  {
    && a.binding.association != b.binding.association
    && !SamePods(a.binding, b.binding)
    && RxSpis(a) !! RxSpis(b)
    && Qpns(a.lanes, a.local) !! Qpns(b.lanes, b.local)
    && a.token.generation != b.token.generation
  }

  predicate AllExclusive(pairs: seq<Assoc>)
  {
    forall i, j :: 0 <= i < |pairs| && 0 <= j < |pairs| && i != j && pairs[i].used && pairs[j].used
      ==> Exclusive(pairs[i], pairs[j])
  }

  predicate SlotsInv(m: Manager)
  {
    forall i :: 0 <= i < |m.pairs| && m.pairs[i].used ==>
      PairInv(m.pairs[i]) && m.pairs[i].token.slot == i && m.pairs[i].token.manager == m.id
      && m.pairs[i].token.generation <= m.generation
  }

  predicate WithinLimits(m: Manager)
  {
    m.stats.pairs <= m.limits.pairs && m.stats.lanes <= m.limits.lanes && m.stats.sas <= m.limits.sas
  }

  predicate Inv(m: Manager)
  {
    && |m.pairs| == m.limits.pairs
    && m.stats == Total(m.pairs) && WithinLimits(m)
    && SlotsInv(m) && AllExclusive(m.pairs)
  }

  // ---- single-slot steps -------------------------------------------------

  /** The parts of a pair that reserve something on the node are untouched. */
  predicate Holds(a: Assoc, b: Assoc)
  {
    && b.used == a.used && b.token == a.token && b.binding == a.binding && b.lanes == a.lanes && b.local == a.local
    && b.oldEpoch == a.oldEpoch && b.oldSpi == a.oldSpi && b.reservedSas == a.reservedSas
  }

  lemma RevokeKeeps(a: Assoc)
    requires PairInv(a)
    ensures PairInv(Revoke(a)) && Holds(a, Revoke(a))
    ensures Revoke(a).phase.QUARANTINED? == a.phase.QUARANTINED?
  {
    hide LanesValid;
  }

  /** Revoking as the outstanding operation ends: the pair goes straight to BLOCK or stays in teardown. */
  lemma AbortKeeps(a: Assoc)
    requires PairInv(a) && a.pending != 0
    ensures var b := Revoke(a.(pending := 0)); PairInv(b) && Holds(a, b) && !b.phase.QUARANTINED?
  {
    hide LanesValid;
  }

  lemma BuildKeeps(a: Assoc, now: nat, overlap: nat)
    requires PairInv(a) && a.pending != 0 && !a.revoking && Builds(a.action) && !a.action.RemoveOld?
    ensures var b := Advance(a, a.action, now, overlap); PairInv(b) && Holds(a, b) && !b.phase.QUARANTINED?
  {
    hide LanesValid;
  }

  /** Retiring the old epoch gives back exactly its two security associations. */
  lemma RetireKeeps(a: Assoc, now: nat, overlap: nat)
    requires PairInv(a) && a.pending != 0 && a.action.RemoveOld? && !a.revoking
    ensures var b := Advance(a, RemoveOld, now, overlap);
            && PairInv(b) && b == a.(pending := 0, oldEpoch := 0, oldSpi := Two(0, 0), reservedSas := 2)
            && a.reservedSas == 4
  {
    hide LanesValid;
  }

  lemma TeardownKeeps(a: Assoc, now: nat, overlap: nat)
    requires PairInv(a) && a.pending != 0 && !Builds(a.action)
    ensures var b := Advance(a, a.action, now, overlap); PairInv(b) && Holds(a, b) && !b.phase.QUARANTINED?
  {
    hide LanesValid;
  }

  lemma QuarantineKeeps(a: Assoc)
    requires PairInv(a)
    ensures var b := a.(pending := 0, phase := QUARANTINED, revoking := true, event := NoEvent);
            PairInv(b) && Holds(a, b)
  {
  }

  lemma CompletionKeeps(a: Assoc, status: int, now: nat, overlap: nat)
    requires PairInv(a) && a.pending != 0 && -2 <= status <= 0
    requires !(Succeeds(a, status) && a.action.RemoveOld?)
    ensures var b := CompleteAssoc(a, status, now, overlap);
            PairInv(b) && Holds(a, b) && (b.phase.QUARANTINED? <==> Quarantines(a, status)) && !a.phase.QUARANTINED?
  {
    hide Revoke, Advance, Holds, EpochsInv, LanesValid;
    if Succeeds(a, status) {
      if Builds(a.action) {
        BuildKeeps(a, now, overlap);
      } else {
        TeardownKeeps(a, now, overlap);
      }
    } else if Quarantines(a, status) {
      QuarantineKeeps(a);
    } else {
      AbortKeeps(a);
    }
  }

  /** Whatever the issue loop does to an idle pair that wants something, the pair stays consistent. */
  lemma IssueKeeps(a: Assoc, now: nat, op: nat)
    requires PairInv(a) && a.pending == 0 && NextAction(a, now).Some? && op > 0
    ensures var (x, p) := NextAction(a, now).value;
            PairInv(IssueAssoc(a, x, p, op)) && PairInv(Revoke(a.(phase := p))) && PairInv(a.(phase := QUARANTINED))
            && Holds(a, IssueAssoc(a, x, p, op)) && Holds(a, Revoke(a.(phase := p)))
            && Holds(a, a.(phase := QUARANTINED))
            && !p.QUARANTINED? && !a.phase.QUARANTINED? && !Revoke(a.(phase := p)).phase.QUARANTINED?
            && !IssueAssoc(a, x, p, op).phase.QUARANTINED?
  {
    hide LanesValid;
  }

  lemma RekeyPairKeeps(a: Assoc, spi: Two<nat>, now: nat, timeout: nat, hashes: bool)
    requires PairInv(a) && a.phase.ACTIVE? && a.pending == 0 && a.oldEpoch == 0
    requires spi.At(Other(a.local)) != a.binding.spi.At(Other(a.local))
    ensures var b := RekeyAssoc(a, spi, now, timeout, hashes);
            PairInv(b) && RxSpis(b) == RxSpis(a) + {spi.At(Other(a.local))} && !b.phase.QUARANTINED?
            && b.used == a.used && b.token == a.token && b.lanes == a.lanes && b.local == a.local
            && b.binding == a.binding.(epoch := a.binding.epoch + 1, spi := spi)
  {
  }

  lemma SignalKeeps(a: Assoc, s: Signal)
    requires PairInv(a) && InOrder(a, s)
    ensures PairInv(SignalAssoc(a, s)) && Holds(a, SignalAssoc(a, s))
    ensures SignalAssoc(a, s).phase.QUARANTINED? == a.phase.QUARANTINED?
  {
    RevokeKeeps(a);
  }

  // ---- replacing one slot ------------------------------------------------

  /** A slot may be rewritten freely as long as it keeps its reservations and counts the same. */
  lemma ReplaceKeeps(m: Manager, i: nat, b: Assoc)
    requires Inv(m) && i < |m.pairs| && m.pairs[i].used
    requires Holds(m.pairs[i], b) && PairInv(b)
    ensures var q := (if b.phase.QUARANTINED? then 1 else 0) - (if m.pairs[i].phase.QUARANTINED? then 1 else 0);
            Inv(m.(pairs := m.pairs[i := b], stats := m.stats.(quarantined := m.stats.quarantined + q)))
  {
    TotalUpdate(m.pairs, i, b);
  }

  lemma TickKeeps(m: Manager, now: nat, down: set<nat>)
    requires Inv(m)
    ensures Inv(Tick(m, now, down))
    ensures forall i :: 0 <= i < |m.pairs| ==>
              Holds(m.pairs[i], Tick(m, now, down).pairs[i])
              && Tick(m, now, down).pairs[i] == TickAssoc(m.pairs[i], now, now < m.lastNow, down)
  {
    var t := Tick(m, now, down);
    forall i | 0 <= i < |m.pairs|
      ensures Holds(m.pairs[i], t.pairs[i]) && Weight(m.pairs[i]) == Weight(t.pairs[i])
      ensures m.pairs[i].used ==> PairInv(t.pairs[i])
    {
      if m.pairs[i].used {
        RevokeKeeps(m.pairs[i]);
      }
    }
    SumSame(m.pairs, t.pairs, |m.pairs|);
  }

  lemma ScanOneKeeps(m: Manager, now: nat, noKey: set<nat>)
    requires Inv(m) && |m.pairs| > 0
    ensures Inv(ScanOne(m, now, noKey).0)
  {
    hide PairInv, Holds, IssueAssoc, Revoke, NextAction, Exclusive, Total;
    var i := m.cursor % |m.pairs|;
    var a := m.pairs[i];
    var want := NextAction(a, now);
    if a.used && a.pending == 0 && !(a.event.Event? && !a.revoking) && want.Some? {
      var (x, p) := want.value;
      IssueKeeps(a, now, m.operation + 1);
      if m.operation == U64_MAX {
        ReplaceKeeps(m, i, a.(phase := QUARANTINED));
      } else if (x.InstallRx? || x.InstallTx?) && a.tls in noKey {
        ReplaceKeeps(m, i, Revoke(a.(phase := p)));
      } else {
        ReplaceKeeps(m, i, IssueAssoc(a, x, p, m.operation + 1));
      }
    }
  }

  lemma {:induction false} ScanKeeps(m: Manager, now: nat, noKey: set<nat>, n: nat)
    requires Inv(m)
    ensures Inv(Scan(m, now, noKey, n).0)
    decreases n
  {
    if n != 0 && |m.pairs| != 0 {
      ScanOneKeeps(m, now, noKey);
      ScanKeeps(ScanOne(m, now, noKey).0, now, noKey, n - 1);
    }
  }

  lemma OpenedPair(m: Manager, o: Op, slot: nat)
    requires Inv(m) && o.OpOpen? && o.hashes
    requires CanOpen(m, o.tls, o.binding, o.local, o.lanes, o.deadline, o.now, o.noKey)
    ensures var a := Opened(m, o.tls, o.binding, o.local, o.lanes, o.deadline, o.now, slot);
            && PairInv(a) && Weight(a) == Tally(1, |o.lanes|, 2, 0) && a.token == Token(m.id, m.generation + 1, slot)
            && forall j :: 0 <= j < |m.pairs| && m.pairs[j].used ==>
                 Exclusive(a, m.pairs[j]) && Exclusive(m.pairs[j], a)
  {
    forall j | 0 <= j < |m.pairs| && m.pairs[j].used
      ensures !Clashes(m.pairs[j], o.binding, o.local, o.lanes)
    {
    }
  }

  lemma OpenKeeps(m: Manager, o: Op)
    requires Inv(m) && o.OpOpen?
    ensures Inv(Open(m, o).0)
  {
    hide PairInv, Exclusive;
    var slot := FreeSlot(m.pairs, 0);
    SumBounds(m.pairs, |m.pairs|);
    if CanOpen(m, o.tls, o.binding, o.local, o.lanes, o.deadline, o.now, o.noKey) {
      if o.hashes {
        OpenedPair(m, o, slot);
        hide CanOpen, Opened;
        TotalUpdate(m.pairs, slot, Opened(m, o.tls, o.binding, o.local, o.lanes, o.deadline, o.now, slot));
      } else {
        TotalUpdate(m.pairs, slot, EMPTY);
      }
    }
  }

  /** Removing the old epoch gives its two SAs back. */
  lemma RetireStepKeeps(m: Manager, o: Op, i: nat)
    requires Inv(m) && o.OpComplete? && -2 <= o.status <= 0
    requires var t := Tick(m, o.now, o.down);
             Find(t, o.request.token) == Some(i) && Matches(t.pairs[i], o.request) &&
             Succeeds(t.pairs[i], o.status) && t.pairs[i].action.RemoveOld?
    ensures Inv(Complete(m, o).0)
  {
    hide PairInv, Advance, Revoke, Tick;
    TickKeeps(m, o.now, o.down);
    var t := Tick(m, o.now, o.down);
    RetireKeeps(t.pairs[i], o.now, m.limits.overlap);
    TotalUpdate(t.pairs, i, CompleteAssoc(t.pairs[i], o.status, o.now, m.limits.overlap));
  }

  lemma CompleteKeeps(m: Manager, o: Op)
    requires Inv(m) && o.OpComplete?
    ensures Inv(Complete(m, o).0)
  {
    hide PairInv, Advance, Revoke, Tick, AllExclusive, Total;
    TickKeeps(m, o.now, o.down);
    var t := Tick(m, o.now, o.down);
    var f := Find(t, o.request.token);
    if -2 <= o.status <= 0 && f.Some? && Matches(t.pairs[f.value], o.request) {
      var a := t.pairs[f.value];
      if Succeeds(a, o.status) && a.action.RemoveOld? {
        RetireStepKeeps(m, o, f.value);
      } else {
        CompletionKeeps(a, o.status, o.now, m.limits.overlap);
        ReplaceKeeps(t, f.value, CompleteAssoc(a, o.status, o.now, m.limits.overlap));
      }
    }
  }

  lemma RekeyKeeps(m: Manager, o: Op)
    requires Inv(m) && o.OpRekey?
    ensures Inv(Rekey(m, o).0)
  {
    hide RekeyAssoc, Tick, EpochsInv, PhaseInv, LanesValid;
    TickKeeps(m, o.now, o.down);
    var t := Tick(m, o.now, o.down);
    var r := Rekey(m, o).0;
    if r != t {
      var i := Find(t, o.token).value;
      var a := t.pairs[i];
      var b := RekeyAssoc(a, o.spi, o.now, t.limits.setupTimeout, o.hashes);
      RekeyPairKeeps(a, o.spi, o.now, t.limits.setupTimeout, o.hashes);
      TotalUpdate(t.pairs, i, b);
    }
  }

  lemma ReleaseKeeps(m: Manager, t: Token)
    requires Inv(m)
    ensures Inv(Release(m, t).0)
  {
    var f := Find(m, t);
    if f.Some? {
      TotalUpdate(m.pairs, f.value, EMPTY);
    }
  }

  lemma SignalStepKeeps(m: Manager, o: Op)
    requires Inv(m) && o.OpSignal?
    ensures Inv(SignalStep(m, o).0)
  {
    TickKeeps(m, o.now, o.down);
    var t := Tick(m, o.now, o.down);
    var f := Find(t, o.token);
    if f.Some? && InOrder(t.pairs[f.value], o.signal) {
      SignalKeeps(t.pairs[f.value], o.signal);
      ReplaceKeeps(t, f.value, SignalAssoc(t.pairs[f.value], o.signal));
    }
  }

  lemma RenewKeeps(m: Manager, o: Op)
    requires Inv(m) && o.OpRenew?
    ensures Inv(Renew(m, o).0)
  {
    TickKeeps(m, o.now, o.down);
    var t := Tick(m, o.now, o.down);
    var f := Find(t, o.token);
    if f.Some? && o.source <= 2 {
      var a := t.pairs[f.value];
      ReplaceKeeps(t, f.value, a.(authority := a.authority[o.source := o.generation],
                                  deadline := a.deadline[o.source := o.until]));
    }
  }

  /** Every call keeps the registry's invariant. */
  lemma ApplyKeeps(m: Manager, o: Op)
    requires Inv(m)
    ensures Inv(Apply(m, o).0)
  {
    match o
    case OpOpen(_, _, _, _, _, _, _, _) => OpenKeeps(m, o);
    case OpTick(now, down) => TickKeeps(m, now, down);
    case OpNext(now, down, noKey) =>
      TickKeeps(m, now, down);
      ScanKeeps(Tick(m, now, down), now, noKey, |m.pairs|);
    case OpComplete(_, _, _, _) => CompleteKeeps(m, o);
    case OpEvent =>
    case OpEventSent(e) =>
      var f := if e.Event? then Find(m, e.token) else None;
      if f.Some? {
        ReplaceKeeps(m, f.value, m.pairs[f.value].(event := NoEvent));
      }
    case OpSignal(_, _, _, _, _, _) => SignalStepKeeps(m, o);
    case OpAdmit(_, now, down) => TickKeeps(m, now, down);
    case OpRekey(_, _, _, _, _) => RekeyKeeps(m, o);
    case OpRevoke(t) =>
      var f := Find(m, t);
      if f.Some? {
        RevokeKeeps(m.pairs[f.value]);
        ReplaceKeeps(m, f.value, Revoke(m.pairs[f.value]));
      }
    case OpRelease(t) => ReleaseKeeps(m, t);
    case OpRenew(_, _, _, _, _, _) => RenewKeeps(m, o);
  }

  lemma {:induction false} RunKeeps(m: Manager, ops: seq<Op>)
    requires Inv(m)
    ensures Inv(Run(m, ops))
    decreases |ops|
  {
    if ops != [] {
      ApplyKeeps(m, ops[0]);
      RunKeeps(Apply(m, ops[0]).0, ops[1..]);
    }
  }

  /**
   Conservation and exclusivity in every reachable state: counters equal the
   sums over used slots and respect the limits, four SAs are reserved exactly
   while an old epoch is retained, and live pairs share nothing.
   */
  lemma ReachableRegistry(l: Limits, id: nat, ops: seq<Op>)
    requires LimitsValid(l)
    ensures var m := Run(Fresh(l, id), ops);
            && m.stats == Total(m.pairs) && WithinLimits(m) && AllExclusive(m.pairs)
            && forall i :: 0 <= i < |m.pairs| && m.pairs[i].used ==>
                 (m.pairs[i].reservedSas == if m.pairs[i].oldEpoch != 0 then 4 else 2)
  {
    SumEmpty(Fresh(l, id).pairs, l.pairs);
    RunKeeps(Fresh(l, id), ops);
  }
}
