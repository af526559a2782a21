/**
 Safety of live rekeying over every run of the two registries.
 */
module PeerRekeyRuns {
  import opened Wrappers
  import opened Association
  import opened RegistryInvariants
  import opened PeerRekey

  /** One registry consistent with the world's history. */
  ghost predicate Local(log: seq<Entry>, rx: set<Sa>, s: Side, m: Manager)
  {
    Inv(m) && SlotsOk(log, rx, s, m.pairs)
  }

  /** At most one entry was added, by this side, and only about the pair with these ids. */
  ghost predicate Grows(log: seq<Entry>, log': seq<Entry>, s: Side, ids: Ids)
  {
    log' == log || exists e :: log' == log + [e] && e.side == s && (e.Done? ==> IdsOf(e.digest.binding) == ids)
  }

  ghost predicate Spares(rx: set<Sa>, rx': set<Sa>, s: Side, ids: Ids)
  {
    forall k :: k in rx && !(k.side == s && k.ids == ids) ==> k in rx'
  }

  /** Rewriting one slot, with its own entry in the log, leaves every other slot justified. */
  lemma ReplaceOk(log: seq<Entry>, rx: set<Sa>, log': seq<Entry>, rx': set<Sa>, s: Side, m: Manager, i: nat, b: Assoc)
    requires Local(log, rx, s, m) && i < |m.pairs| && m.pairs[i].used && SlotOk(log', rx', s, b)
    requires Grows(log, log', s, IdsOf(m.pairs[i].binding)) && Spares(rx, rx', s, IdsOf(m.pairs[i].binding))
    ensures SlotsOk(log', rx', s, m.pairs[i := b])
  {
    var pairs := m.pairs[i := b];
    forall j | 0 <= j < |pairs| && pairs[j].used
      ensures SlotOk(log', rx', s, pairs[j])
    {
      if j != i {
        assert Exclusive(m.pairs[i], m.pairs[j]);
        hide Inv, SlotOk;
        OthersOk(log, rx, log', rx', s, m.pairs[j], IdsOf(m.pairs[i].binding));
      }
    }
  }

  lemma OthersOk(log: seq<Entry>, rx: set<Sa>, log': seq<Entry>, rx': set<Sa>, s: Side, a: Assoc, ids: Ids)
    requires SlotOk(log, rx, s, a) && IdsOf(a.binding) != ids
    requires Grows(log, log', s, ids) && Spares(rx, rx', s, ids)
    ensures SlotOk(log', rx', s, a)
  {
    hide SlotOk;
    if log' == log {
      FrameRx(log, rx, rx', s, a);
    } else {
      var e :| log' == log + [e] && e.side == s && (e.Done? ==> IdsOf(e.digest.binding) == ids);
      Frame(log, rx, rx', s, a, e);
    }
  }

  lemma CalmReplace(log: seq<Entry>, rx: set<Sa>, s: Side, m: Manager, i: nat, b: Assoc)
    requires Local(log, rx, s, m) && i < |m.pairs| && m.pairs[i].used && Calm(m.pairs[i], b)
    ensures SlotsOk(log, rx, s, m.pairs[i := b])
  {
    CalmOk(log, rx, s, m.pairs[i], b);
    ReplaceOk(log, rx, log, rx, s, m, i, b);
  }

  lemma TickOk(log: seq<Entry>, rx: set<Sa>, s: Side, m: Manager, now: nat, down: set<nat>)
    requires Local(log, rx, s, m)
    ensures Local(log, rx, s, Tick(m, now, down))
  {
    TickKeeps(m, now, down);
    var t := Tick(m, now, down);
    hide Inv, SlotOk, Calm, Revoke;
    forall i | 0 <= i < |t.pairs| && t.pairs[i].used
      ensures SlotOk(log, rx, s, t.pairs[i])
    {
      RevokeCalm(m.pairs[i]);
      CalmOk(log, rx, s, m.pairs[i], Revoke(m.pairs[i]));
    }
  }

  lemma ScanOneOk(log: seq<Entry>, rx: set<Sa>, s: Side, m: Manager, now: nat, noKey: set<nat>)
    requires Local(log, rx, s, m) && |m.pairs| > 0
    ensures var (n, r) := ScanOne(m, now, noKey);
            && Inv(n)
            && (r.None? ==> SlotsOk(log, rx, s, n.pairs))
            && (r.Some? ==> SlotsOk(log + [IssueOf(s, r.value)], RxIssued(rx, s, r.value), s, n.pairs)
                            && Justified(log, IssueOf(s, r.value)))
  {
    ScanOneKeeps(m, now, noKey);
    var i := m.cursor % |m.pairs|;
    var a := m.pairs[i];
    assert a.used ==> PairInv(a) && SlotOk(log, rx, s, a);
    hide Inv, SlotOk, Justified, PairInv, NextAction, Calm, Revoke, IssueAssoc;
    var want := NextAction(a, now);
    if a.used && a.pending == 0 && !(a.event.Event? && !a.revoking) && want.Some? {
      var (x, p) := want.value;
      if m.operation == U64_MAX {
        QuarantineCalm(a);
        CalmReplace(log, rx, s, m, i, a.(phase := QUARANTINED));
      } else if (x.InstallRx? || x.InstallTx?) && a.tls in noKey {
        RefusedCalm(a, now);
        CalmReplace(log, rx, s, m, i, Revoke(a.(phase := p)));
      } else {
        var op := m.operation + 1;
        IssueJustified(log, rx, s, a, now);
        IssueOk(log, rx, s, a, now, op);
        var e := Issue(s, x, DigestOf(a));
        assert Grows(log, log + [e], s, IdsOf(a.binding));
        ReplaceOk(log, rx, log + [e], RxIssued(rx, s, RequestOf(a, x, op)), s, m, i, IssueAssoc(a, x, p, op));
      }
    }
  }

  lemma QuarantineCalm(a: Assoc)
    ensures Calm(a, a.(phase := QUARANTINED))
    ensures Calm(a, a.(pending := 0, phase := QUARANTINED, revoking := true, event := NoEvent))
    ensures Calm(a, a.(event := NoEvent))
  {
  }

  lemma {:induction false} ScanOk(log: seq<Entry>, rx: set<Sa>, s: Side, m: Manager, now: nat, noKey: set<nat>, n: nat)
    requires Local(log, rx, s, m)
    ensures var (q, r) := Scan(m, now, noKey, n);
            && Inv(q)
            && (r.None? ==> SlotsOk(log, rx, s, q.pairs))
            && (r.Some? ==> SlotsOk(log + [IssueOf(s, r.value)], RxIssued(rx, s, r.value), s, q.pairs)
                            && Justified(log, IssueOf(s, r.value)))
    decreases n
  {
    hide Inv, SlotsOk, Justified, ScanOne;
    if n != 0 && |m.pairs| != 0 {
      ScanOneOk(log, rx, s, m, now, noKey);
      var (m1, r) := ScanOne(m, now, noKey);
      if r.None? {
        ScanOk(log, rx, s, m1, now, noKey, n - 1);
      }
    }
  }

  // ---- every call --------------------------------------------------------

  /** What one call leaves behind on its own side. */
  ghost predicate Stepped(log: seq<Entry>, rx: set<Sa>, s: Side, m: Manager, o: Op)
  {
    && SlotsOk(log + Entries(m, s, o), RxAfter(rx, m, s, o), s, Apply(m, o).0.pairs)
    && (forall e :: e in Entries(m, s, o) ==> Justified(log, e))
    && (forall e :: e in Entries(m, s, o) && e.Done? ==> Born(s, IdsOf(e.digest.binding)) in log)
  }

  lemma OpenStepped(log: seq<Entry>, rx: set<Sa>, s: Side, m: Manager, o: Op)
    requires Local(log, rx, s, m) && Known(log) && o.OpOpen? && Born(s, IdsOf(o.binding)) !in log
    ensures Stepped(log, rx, s, m, o)
  {
    var n := Apply(m, o).0;
    var l := log + Entries(m, s, o);
    if Open(m, o).1.Granted? {
      var slot := FreeSlot(m.pairs, 0);
      var e := Born(s, IdsOf(o.binding));
      assert l == log + [e];
      forall i | 0 <= i < |n.pairs| && n.pairs[i].used
        ensures SlotOk(l, rx, s, n.pairs[i])
      {
        if i == slot {
          hide Inv, CanOpen;
          FreshOk(log, rx, s, n.pairs[i], e);
        } else {
          hide Inv, SlotOk, CanOpen;
          Frame(log, rx, rx, s, m.pairs[i], e);
        }
      }
    } else {
      assert log + [] == log;
      hide Inv, SlotOk, CanOpen;
    }
  }

  lemma FreshOk(log: seq<Entry>, rx: set<Sa>, s: Side, a: Assoc, e: Entry)
    requires Known(log) && e == Born(s, IdsOf(a.binding)) && e !in log
    requires a.phase.RX? && a.pending == 0 && a.activeEpoch == 0 && a.event.NoEvent?
    requires !a.peerRx && !a.peerTx && !a.peerQp && !a.peerDrained && !a.peerActive
    ensures SlotOk(log + [e], rx, s, a)
  {
    assert forall x :: x in log + [e] && x.Done? ==> x in log;
  }

  /** A completion accepted with success: one entry, one slot. */
  lemma FinishOk(log: seq<Entry>, rx: set<Sa>, s: Side, t: Manager, i: nat, now: nat, overlap: nat)
    requires Local(log, rx, s, t) && i < |t.pairs| && t.pairs[i].used && t.pairs[i].pending != 0 &&
             Succeeds(t.pairs[i], 0)
    ensures var a := t.pairs[i]; var e := Done(s, a.action, DigestOf(a));
            var rx' := if a.action.InstallRx? then rx + {Sa(s, IdsOf(a.binding), a.binding.epoch)} else rx;
            && SlotsOk(log + [e], rx', s, t.pairs[i := Advance(a, a.action, now, overlap)])
            && Justified(log, e) && Born(s, IdsOf(a.binding)) in log
  {
    var a := t.pairs[i];
    assert PairInv(a) && SlotOk(log, rx, s, a);
    hide Inv, SlotOk, Advance;
    if Builds(a.action) && !a.action.RemoveOld? {
      BuildOk(log, rx, s, a, now, overlap);
    } else {
      TeardownOk(log, rx, s, a, now, overlap);
    }
    hide PairInv, Justified;
    var e := Done(s, a.action, DigestOf(a));
    var rx' := if a.action.InstallRx? then rx + {Sa(s, IdsOf(a.binding), a.binding.epoch)} else rx;
    BornOf(log, rx, s, a);
    assert Grows(log, log + [e], s, IdsOf(a.binding));
    ReplaceOk(log, rx, log + [e], rx', s, t, i, Advance(a, a.action, now, overlap));
  }

  lemma FailOk(log: seq<Entry>, rx: set<Sa>, s: Side, t: Manager, i: nat, status: int, now: nat, overlap: nat)
    requires Local(log, rx, s, t) && i < |t.pairs| && t.pairs[i].used && !Succeeds(t.pairs[i], status)
    ensures SlotsOk(log, rx, s, t.pairs[i := CompleteAssoc(t.pairs[i], status, now, overlap)])
  {
    hide Inv, SlotOk, Calm, Revoke;
    RevokeCalm(t.pairs[i]);
    QuarantineCalm(t.pairs[i]);
    CalmReplace(log, rx, s, t, i, CompleteAssoc(t.pairs[i], status, now, overlap));
  }

  lemma CompleteStepped(log: seq<Entry>, rx: set<Sa>, s: Side, m: Manager, o: Op)
    requires Local(log, rx, s, m) && o.OpComplete?
    ensures Stepped(log, rx, s, m, o)
  {
    hide Inv, SlotsOk, Tick, Advance, Revoke, Justified;
    TickOk(log, rx, s, m, o.now, o.down);
    var t := Tick(m, o.now, o.down);
    var f := Find(t, o.request.token);
    assert log + [] == log;
    if -2 <= o.status <= 0 && f.Some? && Matches(t.pairs[f.value], o.request) {
      if Succeeds(t.pairs[f.value], o.status) {
        FinishOk(log, rx, s, t, f.value, o.now, m.limits.overlap);
      } else {
        FailOk(log, rx, s, t, f.value, o.status, o.now, m.limits.overlap);
      }
    }
  }

  lemma BornOf(log: seq<Entry>, rx: set<Sa>, s: Side, a: Assoc)
    requires SlotOk(log, rx, s, a)
    ensures Born(s, IdsOf(a.binding)) in log
  {
  }

  lemma SignalStepped(log: seq<Entry>, rx: set<Sa>, s: Side, m: Manager, o: Op)
    requires Local(log, rx, s, m) && o.OpSignal? && Spoken(log, Other(s), o.signal, o.digest)
    ensures Stepped(log, rx, s, m, o)
  {
    TickOk(log, rx, s, m, o.now, o.down);
    var t := Tick(m, o.now, o.down);
    var f := Find(t, o.token);
    assert log + [] == log;
    if f.Some? {
      var a := t.pairs[f.value];
      assert PairInv(a) && SlotOk(log, rx, s, a);
      hide Inv, SlotOk, Tick, SignalAssoc, PairInv;
      if Live(a, o.now, o.down) && o.digest == a.digest {
        SignalOk(log, rx, s, a, o.signal, o.digest);
        ReplaceOk(log, rx, log, rx, s, t, f.value, SignalAssoc(a, o.signal));
      }
    } else {
      hide Inv, SlotsOk, Tick;
    }
  }

  lemma RekeyStepped(log: seq<Entry>, rx: set<Sa>, s: Side, m: Manager, o: Op)
    requires Local(log, rx, s, m) && o.OpRekey?
    ensures Stepped(log, rx, s, m, o)
  {
    TickOk(log, rx, s, m, o.now, o.down);
    var t := Tick(m, o.now, o.down);
    assert log + [] == log;
    hide Inv, Tick, RekeyAssoc, SpiBusy;
    if Admitted(t, o.token, o.now, o.down) {
      var i := Find(t, o.token).value;
      var a := t.pairs[i];
      if a.pending == 0 {
        RekeyOk(log, rx, s, a, o.spi, o.now, t.limits.setupTimeout, o.hashes);
        hide SlotOk;
        ReplaceOk(log, rx, log, rx, s, t, i, RekeyAssoc(a, o.spi, o.now, t.limits.setupTimeout, o.hashes));
      }
    }
  }

  lemma AdmitStepped(log: seq<Entry>, rx: set<Sa>, s: Side, m: Manager, o: Op)
    requires Local(log, rx, s, m) && o.OpAdmit?
    ensures Stepped(log, rx, s, m, o)
  {
    hide Inv, Tick;
    TickOk(log, rx, s, m, o.now, o.down);
    var t := Tick(m, o.now, o.down);
    assert log + [] == log;
    if Admitted(t, o.token, o.now, o.down) {
      var e := Traffic(s, DigestOf(t.pairs[Find(t, o.token).value]));
      forall i | 0 <= i < |t.pairs| && t.pairs[i].used
        ensures SlotOk(log + [e], rx, s, t.pairs[i])
      {
        Frame(log, rx, rx, s, t.pairs[i], e);
      }
    }
  }

  lemma NextStepped(log: seq<Entry>, rx: set<Sa>, s: Side, m: Manager, o: Op)
    requires Local(log, rx, s, m) && o.OpNext?
    ensures Stepped(log, rx, s, m, o)
  {
    hide Inv, SlotsOk, Tick, Justified, Scan;
    TickOk(log, rx, s, m, o.now, o.down);
    assert log + [] == log;
    ScanOk(log, rx, s, Tick(m, o.now, o.down), o.now, o.noKey, |m.pairs|);
  }

  lemma RenewStepped(log: seq<Entry>, rx: set<Sa>, s: Side, m: Manager, o: Op)
    requires Local(log, rx, s, m) && o.OpRenew?
    ensures Stepped(log, rx, s, m, o)
  {
    hide Inv, SlotOk, Tick, Live;
    TickOk(log, rx, s, m, o.now, o.down);
    assert log + [] == log;
    var t := Tick(m, o.now, o.down);
    var f := Find(t, o.token);
    if o.source <= 2 && f.Some? {
      var a := t.pairs[f.value];
      CalmReplace(log, rx, s, t, f.value, a.(authority := a.authority[o.source := o.generation],
                                             deadline := a.deadline[o.source := o.until]));
    }
  }

  lemma OtherStepped(log: seq<Entry>, rx: set<Sa>, s: Side, m: Manager, o: Op)
    requires Local(log, rx, s, m)
    requires o.OpTick? || o.OpEvent? || o.OpEventSent? || o.OpRevoke? || o.OpRelease?
    ensures Stepped(log, rx, s, m, o)
  {
    hide Inv, SlotOk, Tick, Calm, Revoke;
    assert log + [] == log;
    match o
    case OpTick(now, down) => TickOk(log, rx, s, m, now, down);
    case OpEventSent(e) =>
      var f := if e.Event? then Find(m, e.token) else None;
      if f.Some? {
        QuarantineCalm(m.pairs[f.value]);
        CalmReplace(log, rx, s, m, f.value, m.pairs[f.value].(event := NoEvent));
      }
    case OpRevoke(t) =>
      var f := Find(m, t);
      if f.Some? {
        RevokeCalm(m.pairs[f.value]);
        CalmReplace(log, rx, s, m, f.value, Revoke(m.pairs[f.value]));
      }
    case _ =>
  }

  lemma AnyStepped(log: seq<Entry>, rx: set<Sa>, s: Side, m: Manager, o: Op)
    requires Local(log, rx, s, m) && Known(log)
    requires o.OpOpen? ==> Born(s, IdsOf(o.binding)) !in log
    requires o.OpSignal? ==> Spoken(log, Other(s), o.signal, o.digest)
    ensures Stepped(log, rx, s, m, o) && Inv(Apply(m, o).0)
  {
    ApplyKeeps(m, o);
    hide *;
    match o
    case OpOpen(_, _, _, _, _, _, _, _) => OpenStepped(log, rx, s, m, o);
    case OpNext(_, _, _) => NextStepped(log, rx, s, m, o);
    case OpComplete(_, _, _, _) => CompleteStepped(log, rx, s, m, o);
    case OpSignal(_, _, _, _, _, _) => SignalStepped(log, rx, s, m, o);
    case OpAdmit(_, _, _) => AdmitStepped(log, rx, s, m, o);
    case OpRekey(_, _, _, _, _) => RekeyStepped(log, rx, s, m, o);
    case OpRenew(_, _, _, _, _, _) => RenewStepped(log, rx, s, m, o);
    case _ => OtherStepped(log, rx, s, m, o);
  }

  // ---- the world ---------------------------------------------------------

  lemma OneEntry(m: Manager, s: Side, o: Op)
    ensures |Entries(m, s, o)| <= 1 && forall e :: e in Entries(m, s, o) ==> e.side == s
  {
    hide Apply, Finished, Tick;
  }

  /** A call never touches the other node's receive associations. */
  lemma RxLocal(rx: set<Sa>, m: Manager, s: Side, o: Op, ids: Ids)
    ensures Keeps(rx, RxAfter(rx, m, s, o), Other(s), ids)
  {
    hide Apply, Finished;
  }

  lemma OtherSideOk(w: World, s: Side, o: Op)
    requires SideOk(w, Other(s))
    ensures SlotsOk(w.log + Entries(w.node.At(s), s, o), RxAfter(w.rx, w.node.At(s), s, o), Other(s),
                    w.node.At(Other(s)).pairs)
  {
    var m, z := w.node.At(s), Other(s);
    var es, rx := Entries(m, s, o), RxAfter(w.rx, m, s, o);
    OneEntry(m, s, o);
    hide Inv, SlotOk, Entries, RxAfter;
    var pairs := w.node.At(z).pairs;
    forall i | 0 <= i < |pairs| && pairs[i].used
      ensures SlotOk(w.log + es, rx, z, pairs[i])
    {
      RxLocal(w.rx, m, s, o, IdsOf(pairs[i].binding));
      if es == [] {
        assert w.log + es == w.log;
        FrameRx(w.log, w.rx, rx, z, pairs[i]);
      } else {
        assert es == [es[0]] && es[0] in es;
        Frame(w.log, w.rx, rx, z, pairs[i], es[0]);
      }
    }
  }

  lemma LogGrows(log: seq<Entry>, es: seq<Entry>)
    requires Ordered(log) && Known(log) && |es| <= 1
    requires forall e :: e in es ==> Justified(log, e)
    requires forall e :: e in es && e.Done? ==> Born(e.side, IdsOf(e.digest.binding)) in log
    ensures Ordered(log + es) && Known(log + es)
  {
    var l := log + es;
    forall k | 0 <= k < |l|
      ensures Justified(l[..k], l[k])
    {
      if k < |log| {
        assert l[..k] == log[..k];
      } else {
        assert l[..k] == log && l[k] in es;
      }
    }
    forall s: Side, x, d | Done(s, x, d) in l
      ensures Born(s, IdsOf(d.binding)) in l
    {
    }
  }

  /** Events read for transmission say what this side has done. */
  lemma EventSpoken(log: seq<Entry>, rx: set<Sa>, s: Side, m: Manager)
    requires Local(log, rx, s, m)
    ensures var r := Apply(m, OpEvent).1;
            r.Pending? && r.event.Event? ==> Spoken(log, s, r.event.signal, r.event.digest)
  {
    hide Inv, Spoken, Heard, Resumed, InstalledAt, RxKept;
  }

  lemma WireGrows(w: World, x: Step)
    requires WorldInv(w) && Enabled(w, x)
    ensures Carried(Next(w, x).log, Next(w, x).wire)
  {
    hide Inv, SlotsOk, Apply, Entries, RxAfter, Ordered, Known;
    var s, o := x.side, OpOf(x);
    var m := w.node.At(s);
    if o.OpEvent? {
      EventSpoken(w.log, w.rx, s, m);
    }
    forall p | p in Next(w, x).wire
      ensures Spoken(Next(w, x).log, p.from, p.signal, p.digest)
    {
    }
  }

  lemma StepKeeps(w: World, x: Step)
    requires WorldInv(w) && Enabled(w, x)
    ensures WorldInv(Next(w, x))
  {
    hide Inv, SlotsOk, Apply, Entries, RxAfter, Ordered, Justified;
    var s, o := x.side, OpOf(x);
    var m := w.node.At(s);
    assert Local(w.log, w.rx, s, m);
    assert o.OpSignal? ==> Spoken(w.log, Other(s), o.signal, o.digest);
    AnyStepped(w.log, w.rx, s, m, o);
    OtherSideOk(w, s, o);
    WireGrows(w, x);
    OneEntry(m, s, o);
    LogGrows(w.log, Entries(m, s, o));
  }

  // ---- theorems ----------------------------------------------------------

  function Start(l: Two<Limits>, id: Two<nat>): World
  {
    World(Two(Fresh(l.zero, id.zero), Fresh(l.one, id.one)), {}, [], {})
  }

  predicate IsRun(w: World, xs: seq<Step>)
    decreases |xs|
  {
    xs == [] || (Enabled(w, xs[0]) && IsRun(Next(w, xs[0]), xs[1..]))
  }

  function After(w: World, xs: seq<Step>): World
    decreases |xs|
  {
    if xs == [] then w else After(Next(w, xs[0]), xs[1..])
  }

  lemma {:induction false} RunKeepsWorld(w: World, xs: seq<Step>)
    requires WorldInv(w) && IsRun(w, xs)
    ensures WorldInv(After(w, xs))
    decreases |xs|
  {
    hide WorldInv, Next, Enabled;
    if xs != [] {
      StepKeeps(w, xs[0]);
      RunKeepsWorld(Next(w, xs[0]), xs[1..]);
    }
  }

  lemma StartOk(l: Two<Limits>, id: Two<nat>)
    requires LimitsValid(l.zero) && LimitsValid(l.one)
    ensures WorldInv(Start(l, id))
  {
    SumEmpty(Fresh(l.zero, id.zero).pairs, l.zero.pairs);
    SumEmpty(Fresh(l.one, id.one).pairs, l.one.pairs);
  }

  /** If side `s` sends under an epoch, the other still receives under it, unless it has begun revoking. */
  ghost predicate ReceivesFrom(w: World, s: Side)
  {
    var p, q := w.node.At(s).pairs, w.node.At(Other(s)).pairs;
    forall i, j ::
      0 <= i < |p| && 0 <= j < |q| && p[i].used && q[j].used && p[i].activeEpoch != 0
      && IdsOf(p[i].binding) == IdsOf(q[j].binding) && !q[j].revoking
      ==> Sa(Other(s), IdsOf(p[i].binding), p[i].activeEpoch) in w.rx
  }

  lemma SentIsReceived(w: World, s: Side, a: Assoc, b: Assoc)
    requires SlotOk(w.log, w.rx, s, a) && SlotOk(w.log, w.rx, Other(s), b)
    requires a.activeEpoch != 0 && IdsOf(a.binding) == IdsOf(b.binding) && !b.revoking
    ensures Sa(Other(s), IdsOf(a.binding), a.activeEpoch) in w.rx
  {
    hide Heard, Own;
    var ids := IdsOf(a.binding);
    var d :| Done(Other(s), InstallRx, d) in w.log && IdsOf(d.binding) == ids && d.binding.epoch == a.activeEpoch;
    assert !ResumedPast(w.log, s, ids, a.activeEpoch);
  }

  lemma SideReceives(w: World, s: Side)
    requires WorldInv(w)
    ensures ReceivesFrom(w, s)
  {
    hide Inv, SlotOk;
    var p, q := w.node.At(s).pairs, w.node.At(Other(s)).pairs;
    assert SideOk(w, s) && SideOk(w, Other(s));
    forall i, j | 0 <= i < |p| && 0 <= j < |q| && p[i].used && q[j].used && p[i].activeEpoch != 0
      && IdsOf(p[i].binding) == IdsOf(q[j].binding) && !q[j].revoking
      ensures Sa(Other(s), IdsOf(p[i].binding), p[i].activeEpoch) in w.rx
    {
      SentIsReceived(w, s, p[i], q[j]);
    }
  }

  /**
   Two-ended rekey safety and the drain barrier, for every run. `Ordered` says
   of every operation issued and every admission what was complete before it:
   - INSTALL_TX for an epoch only after the peer's INSTALL_RX for it and, in a
     rekey, after both ends quiesced;
   - RESUME only after both ends installed TX;
   - application data only after both ends resumed the same epoch;
   - the old epoch is removed only after both ends resumed the new one.
   */
  lemma RekeyIsSafe(l: Two<Limits>, id: Two<nat>, xs: seq<Step>)
    requires LimitsValid(l.zero) && LimitsValid(l.one) && IsRun(Start(l, id), xs)
    ensures var w := After(Start(l, id), xs);
            ReceivesFrom(w, 0) && ReceivesFrom(w, 1) && Ordered(w.log)
  {
    StartOk(l, id);
    RunKeepsWorld(Start(l, id), xs);
    var w := After(Start(l, id), xs);
    assert Ordered(w.log);
    hide *;
    SideReceives(w, 0);
    SideReceives(w, 1);
  }
}
