/**
 What each end of a rekey has completed, it has told its peer or is about to:
 the signal is on the wire or is the pair's next event. This holds of every run
 in which an event is reported sent only once it has been read for sending.
 */
module PeerRekeyTold {
  import opened Wrappers
  import opened Association
  import opened RegistryInvariants
  import opened PeerRekey
  import opened PeerRekeyRuns

  /** How far a rekey has come: receive installed, quiesced, transmit installed, resumed. */
  function Stage(p: Phase): nat
  {
    match p
    case WAIT_RX => 1
    case DRAIN => 1
    case WAIT_DRAIN => 2
    case TX => 2
    case WAIT_TX => 3
    case RESUME => 3
    case ACTIVE => 4
    case _ => 0
  }

  /** The stage at which a signal has been earned; in a rekey no other signal is. */
  function Due(g: Signal): nat
  {
    match g
    case RxReady => 1
    case Drained => 2
    case TxReady => 3
    case ActiveAck => 4
    case _ => 5
  }

  function PacketOf(s: Side, e: Event): Packet
    requires e.Event?
  {
    Packet(s, e.signal, e.epoch, e.digest)
  }

  predicate Told(wire: set<Packet>, s: Side, a: Assoc)
  {
    !a.revoking ==>
      && (a.pending != 0 ==> a.event.NoEvent?) && (a.phase.ACTIVE? ==> !a.quiesced)
      && (a.event.Event? ==> a.event == EventOf(a, a.event.signal))
      && (a.binding.epoch > 1 ==>
            forall g :: Due(g) <= Stage(a.phase) ==> a.event == EventOf(a, g) || PacketOf(s, EventOf(a, g)) in wire)
  }

  predicate AllTold(wire: set<Packet>, s: Side, m: Manager)
  {
    && m.cursor < U32_SPAN && m.eventCursor < U32_SPAN
    && forall i :: 0 <= i < |m.pairs| && m.pairs[i].used ==> Told(wire, s, m.pairs[i])
  }

  predicate ToldInv(w: World) { AllTold(w.wire, 0, w.node.zero) && AllTold(w.wire, 1, w.node.one) }

  /** An event is reported sent only once it has been read for sending. */
  predicate Faithful(w: World, x: Step)
  {
    x.Call? && x.op.OpEventSent? && x.op.event.Event? ==> PacketOf(x.side, x.op.event) in w.wire
  }

  // ---- one slot ----------------------------------------------------------

  lemma RevokeTold(wire: set<Packet>, s: Side, a: Assoc)
    ensures Told(wire, s, Revoke(a))
  {
  }

  lemma IssueTold(wire: set<Packet>, s: Side, a: Assoc, now: nat, op: nat)
    requires Told(wire, s, a) && PairInv(a) && a.pending == 0 && NextAction(a, now).Some?
    requires a.revoking || a.event.NoEvent?
    ensures var (x, p) := NextAction(a, now).value; Told(wire, s, IssueAssoc(a, x, p, op))
  {
    hide LanesValid;
    var (x, p) := NextAction(a, now).value;
    var b := IssueAssoc(a, x, p, op);
    assert !a.revoking && a.binding.epoch > 1 ==> Stage(b.phase) == Stage(a.phase);
    assert forall g :: EventOf(b, g) == EventOf(a, g);
  }

  lemma AdvanceTold(wire: set<Packet>, s: Side, a: Assoc, now: nat, overlap: nat)
    requires Told(wire, s, a) && PairInv(a) && a.pending != 0 && Succeeds(a, 0)
    ensures Told(wire, s, Advance(a, a.action, now, overlap))
  {
    hide LanesValid;
    var b := Advance(a, a.action, now, overlap);
    assert forall g :: EventOf(b, g) == EventOf(a, g);
    if !a.revoking && a.binding.epoch > 1 {
      assert a.action.RemoveOld? ==> Stage(b.phase) == Stage(a.phase);
      assert !a.action.RemoveOld? ==> Stage(b.phase) == Stage(a.phase) + 1 == Due(Report(a.action).value);
    }
  }

  lemma CompleteTold(wire: set<Packet>, s: Side, a: Assoc, status: int, now: nat, overlap: nat)
    requires Told(wire, s, a) && PairInv(a) && a.pending != 0
    ensures Told(wire, s, CompleteAssoc(a, status, now, overlap))
  {
    hide PairInv, Advance, Revoke;
    if Quarantines(a, status) {
    } else if Succeeds(a, status) {
      AdvanceTold(wire, s, a, now, overlap);
    } else {
      RevokeTold(wire, s, a.(pending := 0));
    }
  }

  lemma SignalTold(wire: set<Packet>, s: Side, a: Assoc, g: Signal)
    requires Told(wire, s, a)
    ensures Told(wire, s, SignalAssoc(a, g))
  {
    if !g.Revoked? {
      assert forall h :: EventOf(SignalAssoc(a, g), h) == EventOf(a, h);
    }
  }

  lemma RekeyTold(wire: set<Packet>, s: Side, a: Assoc, spi: Two<nat>, now: nat, timeout: nat, hashes: bool)
    requires Told(wire, s, a) && a.pending == 0 && a.event.NoEvent?
    ensures Told(wire, s, RekeyAssoc(a, spi, now, timeout, hashes))
  {
  }

  lemma SentTold(wire: set<Packet>, s: Side, a: Assoc)
    requires Told(wire, s, a) && a.event.Event? && PacketOf(s, a.event) in wire
    ensures Told(wire, s, a.(event := NoEvent))
  {
    assert forall g :: EventOf(a.(event := NoEvent), g) == EventOf(a, g);
  }

  lemma RenewTold(wire: set<Packet>, s: Side, a: Assoc, authority: Trio, deadline: Trio)
    requires Told(wire, s, a)
    ensures Told(wire, s, a.(authority := authority, deadline := deadline))
  {
    assert forall g :: EventOf(a.(authority := authority, deadline := deadline), g) == EventOf(a, g);
  }

  // ---- every call --------------------------------------------------------

  lemma TickTold(wire: set<Packet>, s: Side, m: Manager, now: nat, down: set<nat>)
    requires Inv(m) && AllTold(wire, s, m)
    ensures var t := Tick(m, now, down); Inv(t) && AllTold(wire, s, t) && |t.pairs| == |m.pairs|
  {
    TickKeeps(m, now, down);
    hide Inv, Told, Revoke, Expired;
    forall i | 0 <= i < |m.pairs| && m.pairs[i].used
      ensures Told(wire, s, TickAssoc(m.pairs[i], now, now < m.lastNow, down))
    {
      RevokeTold(wire, s, m.pairs[i]);
    }
  }

  lemma PairOf(m: Manager, i: nat)
    requires Inv(m) && i < |m.pairs| && m.pairs[i].used
    ensures PairInv(m.pairs[i]) && m.pairs[i].token.slot == i && m.pairs[i].token.manager == m.id
  {
  }

  lemma ScanOneTold(wire: set<Packet>, s: Side, m: Manager, now: nat, noKey: set<nat>)
    requires Inv(m) && AllTold(wire, s, m) && |m.pairs| > 0
    ensures Inv(ScanOne(m, now, noKey).0) && AllTold(wire, s, ScanOne(m, now, noKey).0)
  {
    ScanOneKeeps(m, now, noKey);
    var i := m.cursor % |m.pairs|;
    var a := m.pairs[i];
    hide Inv, Told, Revoke, NextAction, IssueAssoc;
    if a.used && a.pending == 0 && !(a.event.Event? && !a.revoking) && NextAction(a, now).Some? {
      PairOf(m, i);
      IssueTold(wire, s, a, now, m.operation + 1);
      RevokeTold(wire, s, a.(phase := NextAction(a, now).value.1));
      EndsTold(wire, s, a);
    }
  }

  lemma EndsTold(wire: set<Packet>, s: Side, a: Assoc)
    requires Told(wire, s, a)
    ensures Told(wire, s, a.(phase := QUARANTINED))
  {
  }

  lemma {:induction false} ScanTold(wire: set<Packet>, s: Side, m: Manager, now: nat, noKey: set<nat>, n: nat)
    requires Inv(m) && AllTold(wire, s, m)
    ensures AllTold(wire, s, Scan(m, now, noKey, n).0)
    decreases n
  {
    hide Inv, AllTold, ScanOne;
    if n != 0 && |m.pairs| != 0 {
      ScanOneTold(wire, s, m, now, noKey);
      ScanTold(wire, s, ScanOne(m, now, noKey).0, now, noKey, n - 1);
    }
  }

  lemma CompletionTold(wire: set<Packet>, s: Side, m: Manager, o: Op)
    requires Inv(m) && AllTold(wire, s, m) && o.OpComplete?
    ensures AllTold(wire, s, Complete(m, o).0)
  {
    hide Inv, Told, Tick, CompleteAssoc;
    TickTold(wire, s, m, o.now, o.down);
    var t := Tick(m, o.now, o.down);
    var f := Find(t, o.request.token);
    if f.Some? && Matches(t.pairs[f.value], o.request) {
      PairOf(t, f.value);
      CompleteTold(wire, s, t.pairs[f.value], o.status, o.now, m.limits.overlap);
    }
  }

  lemma SignalStepTold(wire: set<Packet>, s: Side, m: Manager, o: Op)
    requires Inv(m) && AllTold(wire, s, m) && o.OpSignal?
    ensures AllTold(wire, s, SignalStep(m, o).0)
  {
    hide Inv, Told, Tick, SignalAssoc, Live, InOrder;
    TickTold(wire, s, m, o.now, o.down);
    var t := Tick(m, o.now, o.down);
    var f := Find(t, o.token);
    if f.Some? {
      SignalTold(wire, s, t.pairs[f.value], o.signal);
    }
  }

  lemma RekeyStepTold(wire: set<Packet>, s: Side, m: Manager, o: Op)
    requires Inv(m) && AllTold(wire, s, m) && o.OpRekey?
    ensures AllTold(wire, s, Rekey(m, o).0)
  {
    hide Inv, Told, Tick, RekeyAssoc, SpiBusy, Admits;
    TickTold(wire, s, m, o.now, o.down);
    var t := Tick(m, o.now, o.down);
    if Admitted(t, o.token, o.now, o.down) && t.pairs[Find(t, o.token).value].pending == 0 {
      var a := t.pairs[Find(t, o.token).value];
      Admissible(a, o.now, o.down);
      RekeyTold(wire, s, a, o.spi, o.now, t.limits.setupTimeout, o.hashes);
    }
  }

  lemma RenewStepTold(wire: set<Packet>, s: Side, m: Manager, o: Op)
    requires Inv(m) && AllTold(wire, s, m) && o.OpRenew?
    ensures AllTold(wire, s, Renew(m, o).0)
  {
    hide Inv, Told, Tick, Live;
    TickTold(wire, s, m, o.now, o.down);
    var t := Tick(m, o.now, o.down);
    var f := Find(t, o.token);
    if f.Some? && o.source <= 2 {
      var a := t.pairs[f.value];
      RenewTold(wire, s, a, a.authority[o.source := o.generation], a.deadline[o.source := o.until]);
    }
  }

  lemma Admissible(a: Assoc, now: nat, down: set<nat>)
    requires Admits(a, now, down)
    ensures a.event.NoEvent?
  {
  }

  lemma SentAllTold(wire: set<Packet>, s: Side, m: Manager, e: Event)
    requires Inv(m) && AllTold(wire, s, m) && (e.Event? ==> PacketOf(s, e) in wire)
    ensures AllTold(wire, s, Apply(m, OpEventSent(e)).0)
  {
    hide Inv, Told;
    var f := if e.Event? then Find(m, e.token) else None;
    if f.Some? {
      var a := m.pairs[f.value];
      if a.event.Event? && a.event.signal == e.signal && a.event.epoch == e.epoch && a.event.digest == e.digest {
        SentTold(wire, s, a);
      }
    }
  }

  lemma OpenTold(wire: set<Packet>, s: Side, m: Manager, o: Op)
    requires AllTold(wire, s, m) && o.OpOpen?
    ensures AllTold(wire, s, Open(m, o).0)
  {
    hide Told;
    NewTold(wire, s, m, o, FreeSlot(m.pairs, 0));
  }

  lemma NewTold(wire: set<Packet>, s: Side, m: Manager, o: Op, slot: nat)
    requires o.OpOpen?
    ensures Told(wire, s, Opened(m, o.tls, o.binding, o.local, o.lanes, o.deadline, o.now, slot))
  {
  }

  lemma {:induction false} EventScanCursor(pairs: seq<Assoc>, cursor: nat, n: nat)
    requires cursor < U32_SPAN
    ensures EventScan(pairs, cursor, n).0 < U32_SPAN
    decreases n
  {
    if n != 0 && |pairs| != 0 {
      EventScanCursor(pairs, (cursor + 1) % U32_SPAN, n - 1);
    }
  }

  lemma CallTold(wire: set<Packet>, s: Side, m: Manager, o: Op)
    requires Inv(m) && AllTold(wire, s, m)
    requires o.OpEventSent? && o.event.Event? ==> PacketOf(s, o.event) in wire
    ensures AllTold(wire, s, Apply(m, o).0)
  {
    hide Inv, Told, Tick, Scan, Revoke, Admits, Open, SignalStep, Rekey, Renew, Complete, EventScan;
    match o
    case OpOpen(_, _, _, _, _, _, _, _) => OpenTold(wire, s, m, o);
    case OpTick(now, down) => TickTold(wire, s, m, now, down);
    case OpNext(now, down, noKey) =>
      TickTold(wire, s, m, now, down);
      ScanTold(wire, s, Tick(m, now, down), now, noKey, |m.pairs|);
    case OpEvent => EventScanCursor(m.pairs, m.eventCursor, |m.pairs|);
    case OpEventSent(e) => SentAllTold(wire, s, m, e);
    case OpAdmit(_, now, down) => TickTold(wire, s, m, now, down);
    case OpRevoke(t) =>
      if Find(m, t).Some? {
        RevokeTold(wire, s, m.pairs[Find(m, t).value]);
      }
    case OpRelease(_) =>
    case OpComplete(_, _, _, _) => CompletionTold(wire, s, m, o);
    case OpSignal(_, _, _, _, _, _) => SignalStepTold(wire, s, m, o);
    case OpRekey(_, _, _, _, _) => RekeyStepTold(wire, s, m, o);
    case OpRenew(_, _, _, _, _, _) => RenewStepTold(wire, s, m, o);
  }

  lemma WireTold(wire: set<Packet>, wire': set<Packet>, s: Side, m: Manager)
    requires AllTold(wire, s, m) && wire <= wire'
    ensures AllTold(wire', s, m)
  {
  }

  /** Every step of either registry keeps both ends' promises. */
  lemma StepTold(w: World, x: Step)
    requires WorldInv(w) && ToldInv(w) && Faithful(w, x)
    ensures ToldInv(Next(w, x))
  {
    hide Inv, SlotsOk, Carried, Ordered, Known, AllTold, Apply, Entries, RxAfter;
    var s := x.side;
    CallTold(w.wire, s, w.node.At(s), OpOf(x));
    WireTold(w.wire, Next(w, x).wire, s, Apply(w.node.At(s), OpOf(x)).0);
    WireTold(w.wire, Next(w, x).wire, Other(s), w.node.At(Other(s)));
  }

  // ---- runs --------------------------------------------------------------

  /** A run in which events are reported sent faithfully. */
  ghost predicate Honest(w: World, xs: seq<Step>)
    decreases |xs|
  {
    xs == [] || (Enabled(w, xs[0]) && Faithful(w, xs[0]) && Honest(Next(w, xs[0]), xs[1..]))
  }

  lemma {:induction false} RunTold(w: World, xs: seq<Step>)
    requires WorldInv(w) && ToldInv(w) && Honest(w, xs)
    ensures WorldInv(PeerRekeyRuns.After(w, xs)) && ToldInv(PeerRekeyRuns.After(w, xs))
    decreases |xs|
  {
    hide WorldInv, ToldInv, Next, Enabled, Faithful;
    if xs != [] {
      StepKeeps(w, xs[0]);
      StepTold(w, xs[0]);
      RunTold(Next(w, xs[0]), xs[1..]);
    }
  }

  lemma StartTold(l: Two<Limits>, id: Two<nat>)
    ensures ToldInv(Start(l, id))
  {
  }

  /** In every such run both ends have told, or are about to tell, what they have completed. */
  lemma ReachableTold(l: Two<Limits>, id: Two<nat>, xs: seq<Step>)
    requires LimitsValid(l.zero) && LimitsValid(l.one) && Honest(Start(l, id), xs)
    ensures var w := PeerRekeyRuns.After(Start(l, id), xs); WorldInv(w) && ToldInv(w)
  {
    hide WorldInv, ToldInv;
    StartOk(l, id);
    StartTold(l, id);
    RunTold(Start(l, id), xs);
  }
}
