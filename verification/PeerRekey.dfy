/**
 Two registries at the ends of one fabric, joined by signals that may be
 delayed, reordered, repeated and delivered to any token, over hardware that
 answers each operation 0, -1 or -2 (doca/peer_association.c, both ends).

 `log` is what happened in order: associations opened, operations issued,
 operations completed with status 0, and admissions of application data. `rx` holds the receive security
 associations certainly in place: one enters when its install is known to be
 complete and leaves as soon as its removal is issued.
 */
module PeerRekey {
  import opened Wrappers
  import opened Association
  import opened RegistryInvariants

  datatype Entry =
    | Issue(side: Side, action: Action, digest: Digest)
    | Done(side: Side, action: Action, digest: Digest)
    | Traffic(side: Side, digest: Digest)
    | Born(side: Side, ids: Ids)

  datatype Packet = Packet(from: Side, signal: Signal, epoch: nat, digest: Digest)

  datatype Ids = Ids(session: nat, association: nat)

  datatype Sa = Sa(side: Side, ids: Ids, epoch: nat)

  datatype World = World(node: Two<Manager>, wire: set<Packet>, log: seq<Entry>, rx: set<Sa>)

  datatype Step =
    | Call(side: Side, op: Op)
    | Deliver(side: Side, packet: Packet, token: Token, now: nat, down: set<nat>)

  function IdsOf(b: Binding): Ids { Ids(b.session, b.association) }

  function OpOf(x: Step): Op
  {
    if x.Call? then x.op else OpSignal(x.token, x.packet.signal, x.packet.epoch, x.packet.digest, x.now, x.down)
  }

  /** Signals come only from the wire; an association id is opened once per session on each node. */
  predicate Enabled(w: World, x: Step)
  {
    match x
    case Call(s, o) => !o.OpSignal? && (o.OpOpen? ==> Born(s, IdsOf(o.binding)) !in w.log)
    case Deliver(s, p, _, _, _) => p in w.wire && p.from == Other(s)
  }

  function With(n: Two<Manager>, s: Side, m: Manager): Two<Manager>
  {
    if s == 0 then Two(m, n.one) else Two(n.zero, m)
  }

  /** The slot whose outstanding operation this call completes with success, if any. */
  function Finished(m: Manager, o: Op): Option<Assoc>
  {
    if o.OpComplete? && Complete(m, o).1 == Code(0) then
      var t := Tick(m, o.now, o.down);
      var a := t.pairs[Find(t, o.request.token).value];
      if Succeeds(a, o.status) then Some(a) else None
    else None
  }

  function IssueOf(s: Side, r: Request): Entry { Issue(s, r.action, Digest(r.binding, r.lanes)) }

  function Entries(m: Manager, s: Side, o: Op): seq<Entry>
  {
    var r := Apply(m, o).1;
    if o.OpNext? && r.Issued? then [IssueOf(s, r.request)]
    else if Finished(m, o).Some? then [Done(s, o.request.action, DigestOf(Finished(m, o).value))]
    else if o.OpAdmit? && r == Code(1) then
      var t := Tick(m, o.now, o.down);
      [Traffic(s, DigestOf(t.pairs[Find(t, o.token).value]))]
    else if o.OpOpen? && r.Granted? then [Born(s, IdsOf(o.binding))]
    else []
  }

  /** The receive associations certainly in place once a request is with the hardware. */
  function RxIssued(rx: set<Sa>, s: Side, r: Request): set<Sa>
  {
    if r.action.RemoveOld? then rx - {Sa(s, IdsOf(r.binding), r.oldEpoch)}
    else if r.action.RemoveAll? then set k | k in rx && !(k.side == s && k.ids == IdsOf(r.binding))
    else rx
  }

  function RxAfter(rx: set<Sa>, m: Manager, s: Side, o: Op): set<Sa>
  {
    var r := Apply(m, o).1;
    if o.OpNext? && r.Issued? then RxIssued(rx, s, r.request)
    else if Finished(m, o).Some? && o.request.action.InstallRx? then
      rx + {Sa(s, IdsOf(Finished(m, o).value.binding), Finished(m, o).value.binding.epoch)}
    else rx
  }

  function Next(w: World, x: Step): World
  {
    var s, o := x.side, OpOf(x);
    var m := w.node.At(s);
    var (n, r) := Apply(m, o);
    World(With(w.node, s, n),
          if o.OpEvent? && r.Pending? && r.event.Event?
          then w.wire + {Packet(s, r.event.signal, r.event.epoch, r.event.digest)} else w.wire,
          w.log + Entries(m, s, o),
          RxAfter(w.rx, m, s, o))
  }

  // ---- invariants --------------------------------------------------------

  /** The completion a signal stands for. */
  function Meaning(s: Signal): Option<Action>
  {
    match s
    case RxReady => Some(InstallRx)
    case TxReady => Some(InstallTx)
    case LaneReady => Some(EnableQps)
    case Drained => Some(Quiesce)
    case ActiveAck => Some(Resume)
    case Revoked => None
  }

  ghost predicate Spoken(log: seq<Entry>, s: Side, g: Signal, d: Digest)
  {
    Meaning(g).Some? ==> Done(s, Meaning(g).value, d) in log
  }

  /** What a pair believes of its peer, the peer has done, for the same epoch and keys. */
  ghost predicate Heard(log: seq<Entry>, s: Side, a: Assoc)
  {
    var d, o := DigestOf(a), Other(s);
    && (a.peerRx ==> Done(o, InstallRx, d) in log)
    && (a.peerTx ==> Done(o, InstallTx, d) in log)
    && (a.peerQp ==> Done(o, EnableQps, d) in log)
    && (a.peerDrained ==> Done(o, Quiesce, d) in log)
    && (a.peerActive ==> Done(o, Resume, d) in log)
  }

  ghost predicate Own(log: seq<Entry>, s: Side, a: Assoc)
  {
    var d := DigestOf(a);
    && (a.pending != 0 ==> Issue(s, a.action, d) in log)
    && (a.phase.WAIT_DRAIN? ==> Done(s, Quiesce, d) in log)
    && (a.phase.WAIT_TX? || a.phase.QP? || a.phase.WAIT_QP? ==> Done(s, InstallTx, d) in log)
    && (a.phase.ACTIVE? ==> Done(s, Resume, d) in log)
    && (a.event.Event? ==> Spoken(log, s, a.event.signal, a.event.digest))
  }

  /** No epoch later than the active one was ever resumed here. */
  ghost predicate Resumed(log: seq<Entry>, s: Side, ids: Ids, active: nat)
  {
    forall d :: Done(s, Resume, d) in log && IdsOf(d.binding) == ids ==> d.binding.epoch <= active
  }

  ghost predicate InstalledAt(log: seq<Entry>, s: Side, ids: Ids, e: nat)
  {
    exists d :: Done(s, InstallRx, d) in log && IdsOf(d.binding) == ids && d.binding.epoch == e
  }

  ghost predicate ResumedPast(log: seq<Entry>, s: Side, ids: Ids, e: nat)
  {
    exists d :: Done(s, Resume, d) in log && IdsOf(d.binding) == ids && d.binding.epoch > e
  }

  /** A completed receive install is still in place unless the peer has moved to a later epoch. */
  ghost predicate RxKept(log: seq<Entry>, rx: set<Sa>, s: Side, ids: Ids)
  {
    forall d :: Done(s, InstallRx, d) in log && IdsOf(d.binding) == ids ==>
      Sa(s, ids, d.binding.epoch) in rx || ResumedPast(log, Other(s), ids, d.binding.epoch)
  }

  ghost predicate SlotOk(log: seq<Entry>, rx: set<Sa>, s: Side, a: Assoc)
  {
    && Heard(log, s, a) && Own(log, s, a)
    && Resumed(log, s, IdsOf(a.binding), a.activeEpoch)
    && (a.activeEpoch != 0 ==> InstalledAt(log, Other(s), IdsOf(a.binding), a.activeEpoch))
    && (!a.revoking ==> RxKept(log, rx, s, IdsOf(a.binding)))
    && Born(s, IdsOf(a.binding)) in log
  }

  ghost predicate SlotsOk(log: seq<Entry>, rx: set<Sa>, s: Side, pairs: seq<Assoc>)
  {
    forall i :: 0 <= i < |pairs| && pairs[i].used ==> SlotOk(log, rx, s, pairs[i])
  }

  /** Why each entry of the log was allowed to happen, given everything before it. */
  ghost predicate Justified(before: seq<Entry>, e: Entry)
  {
    match e
    case Issue(s, InstallTx, d) =>
      && Done(Other(s), InstallRx, d) in before
      && (d.binding.epoch > 1 ==> Done(s, Quiesce, d) in before && Done(Other(s), Quiesce, d) in before)
    case Issue(s, Resume, d) => Done(s, InstallTx, d) in before && Done(Other(s), InstallTx, d) in before
    case Issue(s, RemoveOld, d) => Done(s, Resume, d) in before && Done(Other(s), Resume, d) in before
    case Issue(_, _, _) => true
    case Done(s, x, d) => Issue(s, x, d) in before
    case Born(_, _) => true
    case Traffic(s, d) => Done(s, Resume, d) in before && Done(Other(s), Resume, d) in before
  }

  ghost predicate Ordered(log: seq<Entry>)
  {
    forall k :: 0 <= k < |log| ==> Justified(log[..k], log[k])
  }

  /** Only associations that were opened complete anything. */
  ghost predicate Known(log: seq<Entry>)
  {
    forall s: Side, x, d :: Done(s, x, d) in log ==> Born(s, IdsOf(d.binding)) in log
  }

  ghost predicate Carried(log: seq<Entry>, wire: set<Packet>)
  {
    forall p :: p in wire ==> Spoken(log, p.from, p.signal, p.digest)
  }

  ghost predicate SideOk(w: World, s: Side)
  {
    Inv(w.node.At(s)) && SlotsOk(w.log, w.rx, s, w.node.At(s).pairs)
  }

  ghost predicate WorldInv(w: World)
  {
    && SideOk(w, 0) && SideOk(w, 1)
    && Carried(w.log, w.wire) && Ordered(w.log) && Known(w.log)
  }

  // ---- one slot ----------------------------------------------------------

  /** The receive associations of one pair that `rx` holds are all still in `rx'`. */
  ghost predicate Keeps(rx: set<Sa>, rx': set<Sa>, s: Side, ids: Ids)
  {
    forall k :: k in rx && k.side == s && k.ids == ids ==> k in rx'
  }

  /** What happens to others, or merely gets issued, does not disturb a pair. */
  lemma Frame(log: seq<Entry>, rx: set<Sa>, rx': set<Sa>, s: Side, a: Assoc, e: Entry)
    requires SlotOk(log, rx, s, a) && Keeps(rx, rx', s, IdsOf(a.binding))
    requires e.Done? ==> !(e.side == s && IdsOf(e.digest.binding) == IdsOf(a.binding))
    ensures SlotOk(log + [e], rx', s, a)
  {
    var l, ids := log + [e], IdsOf(a.binding);
    assert forall x :: x in log ==> x in l;
    assert forall x :: x in l && x != e ==> x in log;
    if !a.revoking {
      forall d | Done(s, InstallRx, d) in l && IdsOf(d.binding) == ids
        ensures Sa(s, ids, d.binding.epoch) in rx' || ResumedPast(l, Other(s), ids, d.binding.epoch)
      {
        assert Done(s, InstallRx, d) in log;
      }
    }
  }

  lemma FrameRx(log: seq<Entry>, rx: set<Sa>, rx': set<Sa>, s: Side, a: Assoc)
    requires SlotOk(log, rx, s, a) && Keeps(rx, rx', s, IdsOf(a.binding))
    ensures SlotOk(log, rx', s, a)
  {
  }

  /** Changes that claim nothing new: revoking, failing, going quiet, renewing a lease. */
  predicate Calm(a: Assoc, b: Assoc)
  {
    && b.binding == a.binding && b.lanes == a.lanes && b.activeEpoch == a.activeEpoch
    && b.peerRx == a.peerRx && b.peerTx == a.peerTx && b.peerQp == a.peerQp && b.peerDrained == a.peerDrained
    && b.peerActive == a.peerActive
    && (b.pending == 0 || (b.pending == a.pending && b.action == a.action))
    && (b.phase == a.phase || b.phase.BLOCK? || b.phase.DESTROY? || b.phase.REMOVE? || Ended(b.phase))
    && (b.event == a.event || b.event.NoEvent? || b.event.signal.Revoked?)
    && (a.revoking ==> b.revoking)
  }

  lemma CalmOk(log: seq<Entry>, rx: set<Sa>, s: Side, a: Assoc, b: Assoc)
    requires SlotOk(log, rx, s, a) && Calm(a, b)
    ensures SlotOk(log, rx, s, b)
  {
  }

  lemma RevokeCalm(a: Assoc)
    ensures Calm(a, Revoke(a)) && Calm(a, Revoke(a.(pending := 0)))
  {
  }

  lemma RefusedCalm(a: Assoc, now: nat)
    requires a.pending == 0 && NextAction(a, now).Some?
    ensures Calm(a, Revoke(a.(phase := NextAction(a, now).value.1)))
  {
  }

  /** Issuing an operation is justified by what the pair has heard and done. */
  lemma IssueJustified(log: seq<Entry>, rx: set<Sa>, s: Side, a: Assoc, now: nat)
    requires SlotOk(log, rx, s, a) && PairInv(a) && a.pending == 0 && NextAction(a, now).Some?
    ensures Justified(log, Issue(s, NextAction(a, now).value.0, DigestOf(a)))
  {
    hide LanesValid, Resumed, InstalledAt, RxKept;
  }

  lemma IssueOk(log: seq<Entry>, rx: set<Sa>, s: Side, a: Assoc, now: nat, op: nat)
    requires SlotOk(log, rx, s, a) && PairInv(a) && a.pending == 0 && NextAction(a, now).Some?
    ensures var (x, p) := NextAction(a, now).value;
            SlotOk(log + [Issue(s, x, DigestOf(a))], RxIssued(rx, s, RequestOf(a, x, op)), s, IssueAssoc(a, x, p, op))
  {
    hide LanesValid, Resumed, InstalledAt;
    var (x, p) := NextAction(a, now).value;
    var ids := IdsOf(a.binding);
    var e := Issue(s, x, DigestOf(a));
    Frame(log, rx, rx, s, a, e);
    var l, r := log + [e], RxIssued(rx, s, RequestOf(a, x, op));
    if !a.revoking {
      forall d | Done(s, InstallRx, d) in l && IdsOf(d.binding) == ids
        ensures Sa(s, ids, d.binding.epoch) in r || ResumedPast(l, Other(s), ids, d.binding.epoch)
      {
        if x.RemoveOld? && d.binding.epoch == a.oldEpoch {
          assert Done(Other(s), Resume, DigestOf(a)) in l;
        }
      }
    }
  }

  /** Completing an operation keeps the receive side covered, whatever the operation. */
  lemma RxKeptDone(log: seq<Entry>, rx: set<Sa>, s: Side, x: Action, d0: Digest)
    requires RxKept(log, rx, s, IdsOf(d0.binding))
    ensures RxKept(log + [Done(s, x, d0)],
                   if x.InstallRx? then rx + {Sa(s, IdsOf(d0.binding), d0.binding.epoch)} else rx, s, IdsOf(d0.binding))
  {
    var l, ids := log + [Done(s, x, d0)], IdsOf(d0.binding);
    forall d | Done(s, InstallRx, d) in l && IdsOf(d.binding) == ids && d != d0
      ensures Sa(s, ids, d.binding.epoch) in rx || ResumedPast(l, Other(s), ids, d.binding.epoch)
    {
      assert Done(s, InstallRx, d) in log;
    }
  }

  lemma HeardOwnDone(log: seq<Entry>, s: Side, a: Assoc, now: nat, overlap: nat)
    requires Heard(log, s, a) && Own(log, s, a) && PairInv(a) && a.pending != 0 && !a.revoking
    requires Builds(a.action) && !a.action.RemoveOld?
    ensures var l := log + [Done(s, a.action, DigestOf(a))]; var b := Advance(a, a.action, now, overlap);
            Heard(l, s, b) && Own(l, s, b)
  {
    hide LanesValid, EpochsInv;
    var l := log + [Done(s, a.action, DigestOf(a))];
    assert forall x :: x in log ==> x in l;
  }

  /** A completed operation of a pair under construction: what it reports is what it did. */
  lemma BuildOk(log: seq<Entry>, rx: set<Sa>, s: Side, a: Assoc, now: nat, overlap: nat)
    requires SlotOk(log, rx, s, a) && PairInv(a) && a.pending != 0 && !a.revoking
    requires Builds(a.action) && !a.action.RemoveOld?
    ensures var e := Done(s, a.action, DigestOf(a));
            var rx' := if a.action.InstallRx? then rx + {Sa(s, IdsOf(a.binding), a.binding.epoch)} else rx;
            Justified(log, e) && SlotOk(log + [e], rx', s, Advance(a, a.action, now, overlap))
  {
    var e := Done(s, a.action, DigestOf(a));
    var l, ids, b := log + [e], IdsOf(a.binding), Advance(a, a.action, now, overlap);
    HeardOwnDone(log, s, a, now, overlap);
    RxKeptDone(log, rx, s, a.action, DigestOf(a));
    assert b.revoking == a.revoking && b.binding == a.binding;
    assert b.activeEpoch == if a.action.Resume? then a.binding.epoch else a.activeEpoch;
    hide LanesValid, Advance, RxKept, Own;
    if a.action.Resume? {
      assert Done(Other(s), InstallRx, DigestOf(a)) in l;
    } else if a.activeEpoch != 0 {
      var d :| Done(Other(s), InstallRx, d) in log && IdsOf(d.binding) == ids && d.binding.epoch == a.activeEpoch;
      assert Done(Other(s), InstallRx, d) in l;
    }
  }

  /** Teardown and retirement claim nothing; the log only grows. */
  lemma TeardownOk(log: seq<Entry>, rx: set<Sa>, s: Side, a: Assoc, now: nat, overlap: nat)
    requires SlotOk(log, rx, s, a) && PhaseInv(a) && a.pending != 0 && (!Builds(a.action) || a.action.RemoveOld?)
    ensures var e := Done(s, a.action, DigestOf(a));
            Justified(log, e) && SlotOk(log + [e], rx, s, Advance(a, a.action, now, overlap))
  {
    var e := Done(s, a.action, DigestOf(a));
    var l, ids := log + [e], IdsOf(a.binding);
    var b := Advance(a, a.action, now, overlap);
    assert Calm(a, b);
    CalmOk(log, rx, s, a, b);
    hide Advance;
    assert forall x :: x in log ==> x in l;
    assert forall x :: x in l && x != e ==> x in log;
    assert Resumed(l, s, ids, b.activeEpoch);
    if b.activeEpoch != 0 {
      var d :| Done(Other(s), InstallRx, d) in log && IdsOf(d.binding) == ids && d.binding.epoch == b.activeEpoch;
      assert Done(Other(s), InstallRx, d) in l;
    }
    if !b.revoking {
      forall d | Done(s, InstallRx, d) in l && IdsOf(d.binding) == ids
        ensures Sa(s, ids, d.binding.epoch) in rx || ResumedPast(l, Other(s), ids, d.binding.epoch)
      {
        assert Done(s, InstallRx, d) in log;
      }
    }
  }

  /** Believing a signal from the wire is sound: its digest names this very epoch and binding. */
  lemma SignalOk(log: seq<Entry>, rx: set<Sa>, s: Side, a: Assoc, g: Signal, d: Digest)
    requires SlotOk(log, rx, s, a) && PairInv(a) && !a.revoking
    requires Spoken(log, Other(s), g, d) && d == a.digest
    ensures SlotOk(log, rx, s, SignalAssoc(a, g))
  {
    hide LanesValid, EpochsInv, PhaseInv, Resumed, InstalledAt, RxKept;
    if g.Revoked? {
      RevokeCalm(a);
      CalmOk(log, rx, s, a, Revoke(a));
    }
  }

  lemma RekeyOk(log: seq<Entry>, rx: set<Sa>, s: Side, a: Assoc, spi: Two<nat>, now: nat, timeout: nat, hashes: bool)
    requires SlotOk(log, rx, s, a) && a.pending == 0 && a.event.NoEvent?
    ensures SlotOk(log, rx, s, RekeyAssoc(a, spi, now, timeout, hashes))
  {
    hide Resumed, InstalledAt, RxKept;
  }
}
