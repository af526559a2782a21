/**
 A rekey under way at both ends can always be completed: while no lease or
 deadline runs out, from wherever the two ends stand there is a continuation, in
 which hardware succeeds and signals arrive, that takes both to the new epoch.
 */
module PeerRekeyProgress {
  import opened Wrappers
  import opened Association
  import opened RegistryInvariants
  import opened PeerRekey
  import opened PeerRekeyRuns
  import opened PeerRekeyTold
  import Modular

  // ---- continuations -----------------------------------------------------

  ghost predicate Continues(w: World, w': World)
  {
    exists xs :: Honest(w, xs) && PeerRekeyRuns.After(w, xs) == w'
  }

  lemma Here(w: World)
    ensures Continues(w, w)
  {
    assert Honest(w, []) && PeerRekeyRuns.After(w, []) == w;
  }

  lemma {:induction false} HonestMore(w: World, xs: seq<Step>, x: Step)
    requires Honest(w, xs) && Enabled(PeerRekeyRuns.After(w, xs), x) && Faithful(PeerRekeyRuns.After(w, xs), x)
    ensures Honest(w, xs + [x]) && PeerRekeyRuns.After(w, xs + [x]) == Next(PeerRekeyRuns.After(w, xs), x)
    decreases |xs|
  {
    hide Next, Enabled, Faithful;
    if xs == [] {
      assert xs + [x] == [x] && [x][1..] == [];
    } else {
      HonestMore(Next(w, xs[0]), xs[1..], x);
      assert (xs + [x])[1..] == xs[1..] + [x];
    }
  }

  lemma Further(w0: World, w: World, x: Step)
    requires Continues(w0, w) && Enabled(w, x) && Faithful(w, x)
    ensures Continues(w0, Next(w, x))
  {
    hide Next, Enabled, Faithful;
    var xs :| Honest(w0, xs) && PeerRekeyRuns.After(w0, xs) == w;
    HonestMore(w0, xs, x);
  }

  // ---- the two ends of one association -----------------------------------

  /** The slot of the association at each end, and the time there. */
  datatype Place = Place(slot: Two<nat>, now: Two<nat>)

  function Mine(w: World, k: Place, s: Side): Assoc
    requires k.slot.At(s) < |w.node.At(s).pairs|
  {
    w.node.At(s).pairs[k.slot.At(s)]
  }

  /** The pair is live and nothing it waits for has run out. */
  predicate Apt(m: Manager, i: nat, now: nat)
  {
    && i < |m.pairs| <= 4096 && m.pairs[i].used && Live(m.pairs[i], now, {})
    && now < m.pairs[i].setupDeadline && m.lastNow <= now
  }

  predicate AptAt(w: World, k: Place, s: Side) { Apt(w.node.At(s), k.slot.At(s), k.now.At(s)) }

  /** Both ends are in the same rekey. */
  predicate Rekeying(w: World, k: Place)
  {
    && AptAt(w, k, 0) && AptAt(w, k, 1)
    && Mine(w, k, 0).binding == Mine(w, k, 1).binding && Mine(w, k, 0).lanes == Mine(w, k, 1).lanes
    && Mine(w, k, 0).binding.epoch > 1
  }

  ghost predicate On(w0: World, w: World, k: Place)
  {
    Continues(w0, w) && WorldInv(w) && ToldInv(w) && Rekeying(w, k)
  }

  /** What identifies a pair and bounds its life is untouched. */
  predicate Kin(a: Assoc, b: Assoc)
  {
    && b.used && b.token == a.token && b.tls == a.tls && b.binding == a.binding && b.lanes == a.lanes
    && b.digest == a.digest && b.deadline == a.deadline && b.setupDeadline == a.setupDeadline
    && b.revoking == a.revoking && !Ended(b.phase)
  }

  /** Side `s` alone has acted, for a pair that is still the same, spending at most `n` operation ids. */
  predicate Solo(w: World, w': World, k: Place, s: Side, n: nat)
  {
    && w'.node.At(Other(s)) == w.node.At(Other(s)) && w.wire <= w'.wire
    && |w'.node.At(s).pairs| == |w.node.At(s).pairs| && w'.node.At(s).operation <= w.node.At(s).operation + n
    && k.slot.At(s) < |w.node.At(s).pairs| && Kin(Mine(w, k, s), Mine(w', k, s))
  }

  lemma SoloThen(w: World, w1: World, w2: World, k: Place, s: Side, n: nat, n': nat)
    requires Solo(w, w1, k, s, n) && Solo(w1, w2, k, s, n')
    ensures Solo(w, w2, k, s, n + n')
  {
  }

  /** What a step does to the two registries and the wire. */
  lemma NextNode(w: World, x: Step)
    ensures var w' := Next(w, x);
            && w'.node.At(x.side) == Apply(w.node.At(x.side), OpOf(x)).0
            && w'.node.At(Other(x.side)) == w.node.At(Other(x.side)) && w.wire <= w'.wire
  {
    hide Apply, Entries, RxAfter;
  }

  lemma Onto(w0: World, w: World, x: Step, k: Place, n: nat)
    requires On(w0, w, k) && Enabled(w, x) && Faithful(w, x) && Solo(w, Next(w, x), k, x.side, n)
    requires Next(w, x).node.At(x.side).lastNow <= k.now.At(x.side)
    ensures On(w0, Next(w, x), k)
  {
    hide Continues, WorldInv, ToldInv, Next, Enabled, Faithful;
    Further(w0, w, x);
    StepKeeps(w, x);
    StepTold(w, x);
  }

  /** What the invariants say of the pair at one end. */
  lemma Facts(w0: World, w: World, k: Place, s: Side)
    requires On(w0, w, k)
    ensures AptAt(w, k, s) && Told(w.wire, s, Mine(w, k, s))
    ensures var a, m := Mine(w, k, s), w.node.At(s);
            && PairInv(a) && Find(m, a.token) == Some(k.slot.At(s)) && a.digest == DigestOf(a) && a.binding.epoch > 1
            && m.cursor < U32_SPAN && m.eventCursor < U32_SPAN
  {
    hide Continues, SlotsOk, Carried, Ordered, Known, Told, PairInv;
    assert Inv(w.node.At(s));
    PairOf(w.node.At(s), k.slot.At(s));
    hide Inv;
    assert AllTold(w.wire, s, w.node.At(s));
    assert PairInv(Mine(w, k, s)) ==> Mine(w, k, s).revoking || Mine(w, k, s).digest == DigestOf(Mine(w, k, s)) by {
      Digested(Mine(w, k, s));
    }
  }

  lemma Digested(a: Assoc)
    ensures PairInv(a) ==> a.revoking || a.digest == DigestOf(a)
  {
  }

  lemma TickSelf(m: Manager, i: nat, now: nat)
    requires Apt(m, i, now)
    ensures var t := Tick(m, now, {});
            t == m.(lastNow := now, pairs := t.pairs) && |t.pairs| == |m.pairs| && t.pairs[i] == m.pairs[i]
  {
    hide Revoke;
  }

  // ---- round robin -------------------------------------------------------

  /** Turns until slot `i` for a cursor `c` that stands at slot `r` of `n` and wraps at 32 bits. */
  function GapFrom(c: nat, r: nat, i: nat, n: nat): nat
    requires i < n && r < n && c < U32_SPAN
  {
    var k := if r <= i then i - r else i + n - r;
    if c + k < U32_SPAN then k else U32_SPAN - c + i
  }

  /** How many turns of a 32-bit cursor over `n` slots until it is the turn of slot `i`. */
  function Gap(c: nat, i: nat, n: nat): nat
    requires i < n && c < U32_SPAN
  {
    GapFrom(c, c % n, i, n)
  }

  lemma GapTurn(c: nat, i: nat, n: nat)
    requires i < n <= 4096 && c < U32_SPAN
    ensures Gap(c, i, n) < 2 * n && (Gap(c, i, n) == 0 <==> c % n == i)
    ensures c % n != i ==> Gap((c + 1) % U32_SPAN, i, n) == Gap(c, i, n) - 1
  {
    Turn(c, n);
    Turn(c, U32_SPAN);
    Modular.Remainder(0, 0, 0, n);
    Modular.Remainder(c, 0, c, U32_SPAN);
  }

  lemma Turn(c: nat, n: nat)
    requires n > 0
    ensures (c + 1) % n == if c % n + 1 == n then 0 else c % n + 1
  {
    var q, r := c / n, c % n;
    assert c == q * n + r;
    if r + 1 == n {
      assert c + 1 == (q + 1) * n + 0 by { assert (q + 1) * n == q * n + n; }
      Modular.Remainder(c + 1, q + 1, 0, n);
    } else {
      Modular.Remainder(c + 1, q, r + 1, n);
    }
  }

  // ---- an operation is issued --------------------------------------------

  /** The pair wants an operation and may have one. */
  predicate Wants(a: Assoc, now: nat)
  {
    a.used && a.pending == 0 && a.event.NoEvent? && NextAction(a, now).Some?
  }

  function IssuedPair(a: Assoc, now: nat, op: nat): Assoc
    requires NextAction(a, now).Some?
  {
    IssueAssoc(a, NextAction(a, now).value.0, NextAction(a, now).value.1, op)
  }

  /** A turn goes to the pair, or its turn is nearer. */
  predicate Nearer(m: Manager, q: Manager, i: nat, now: nat)
    requires i < |m.pairs| == |q.pairs| && Wants(m.pairs[i], now) && m.cursor < U32_SPAN
  {
    && q.lastNow == m.lastNow && q.operation <= m.operation + 1
    && ((q.operation > 0 && q.pairs[i] == IssuedPair(m.pairs[i], now, q.operation))
        || (q.pairs[i] == m.pairs[i] && q.cursor < U32_SPAN
            && Gap(q.cursor, i, |m.pairs|) < Gap(m.cursor, i, |m.pairs|)))
  }

  lemma ScanOneNearer(m: Manager, i: nat, now: nat)
    requires i < |m.pairs| <= 4096 && Wants(m.pairs[i], now) && m.cursor < U32_SPAN && m.operation < U64_MAX
    ensures var (q, r) := ScanOne(m, now, {});
            && |q.pairs| == |m.pairs| && Nearer(m, q, i, now)
            && (r.None? ==> q.operation == m.operation && q.pairs[i] == m.pairs[i] && q.cursor < U32_SPAN
                            && Gap(q.cursor, i, |m.pairs|) < Gap(m.cursor, i, |m.pairs|))
  {
    hide NextAction, IssueAssoc, Revoke;
    GapTurn(m.cursor, i, |m.pairs|);
    hide Gap;
  }

  lemma {:induction false} ScanNearer(m: Manager, i: nat, now: nat, n: nat)
    requires i < |m.pairs| <= 4096 && Wants(m.pairs[i], now) && m.cursor < U32_SPAN && m.operation < U64_MAX && n > 0
    ensures Nearer(m, Scan(m, now, {}, n).0, i, now)
    decreases n
  {
    hide ScanOne, Gap, NextAction, IssueAssoc;
    ScanOneNearer(m, i, now);
    var (m1, r) := ScanOne(m, now, {});
    if r.None? && n > 1 {
      ScanNearer(m1, i, now, n - 1);
    }
  }

  lemma IssuedKin(a: Assoc, now: nat, op: nat)
    requires a.used && NextAction(a, now).Some? && !Ended(a.phase)
    ensures Kin(a, IssuedPair(a, now, op))
  {
  }

  lemma KinSelf(a: Assoc)
    requires a.used && !Ended(a.phase)
    ensures Kin(a, a)
  {
  }

  /** One call for the next operation. */
  lemma NextCall(w0: World, w: World, k: Place, s: Side) returns (w': World)
    requires On(w0, w, k) && AptAt(w, k, s) && w.node.At(s).cursor < U32_SPAN && w.node.At(s).operation < U64_MAX
    requires Wants(Mine(w, k, s), k.now.At(s))
    ensures On(w0, w', k) && Solo(w, w', k, s, 1) && w'.node.At(s).cursor < U32_SPAN
    ensures var a, m, m' := Mine(w, k, s), w.node.At(s), w'.node.At(s); var i, n := k.slot.At(s), |m.pairs|;
            || (m'.operation > 0 && Mine(w', k, s) == IssuedPair(a, k.now.At(s), m'.operation))
            || (Mine(w', k, s) == a && Gap(m'.cursor, i, n) < Gap(m.cursor, i, n))
  {
    var m, i, now := w.node.At(s), k.slot.At(s), k.now.At(s);
    var x := Call(s, OpNext(now, {}, {}));
    w' := Next(w, x);
    NextNode(w, x);
    hide Next;
    TickSelf(m, i, now);
    ScanNearer(Tick(m, now, {}), i, now, |m.pairs|);
    IssuedKin(m.pairs[i], now, w'.node.At(s).operation);
    KinSelf(m.pairs[i]);
    hide On, Scan, Tick, NextAction, IssueAssoc, Kin, Gap, RxAfter, Entries, Wants;
    Onto(w0, w, x, k, 1);
    Facts(w0, w', k, s);
  }

  lemma Issues(w0: World, w: World, k: Place, s: Side) returns (w': World)
    requires On(w0, w, k) && AptAt(w, k, s) && w.node.At(s).cursor < U32_SPAN && Wants(Mine(w, k, s), k.now.At(s))
    requires w.node.At(s).operation + Gap(w.node.At(s).cursor, k.slot.At(s), |w.node.At(s).pairs|) < U64_MAX
    ensures On(w0, w', k)
    ensures Solo(w, w', k, s, Gap(w.node.At(s).cursor, k.slot.At(s), |w.node.At(s).pairs|) + 1)
    ensures exists op: nat :: op > 0 && Mine(w', k, s) == IssuedPair(Mine(w, k, s), k.now.At(s), op)
    decreases Gap(w.node.At(s).cursor, k.slot.At(s), |w.node.At(s).pairs|)
  {
    hide On, Gap, Kin, NextAction, IssueAssoc;
    var w1 := NextCall(w0, w, k, s);
    var op := w1.node.At(s).operation;
    if op > 0 && Mine(w1, k, s) == IssuedPair(Mine(w, k, s), k.now.At(s), op) {
      w' := w1;
    } else {
      Facts(w0, w1, k, s);
      w' := Issues(w0, w1, k, s);
    }
  }

  // ---- and completes -----------------------------------------------------

  lemma AdvanceKin(a: Assoc, now: nat, overlap: nat)
    requires a.used && Builds(a.action) && !Ended(a.phase)
    ensures Kin(a, Advance(a, a.action, now, overlap))
  {
  }

  lemma PendingBuilds(a: Assoc)
    requires PairInv(a) && a.pending != 0 && !a.revoking
    ensures Builds(a.action)
  {
    hide LanesValid, EpochsInv;
  }

  lemma CompleteCall(m: Manager, i: nat, now: nat)
    requires Apt(m, i, now) && m.pairs[i].pending != 0 && Find(m, m.pairs[i].token) == Some(i)
    ensures var a := m.pairs[i];
            var q := Apply(m, OpComplete(RequestOf(a, a.action, a.pending), 0, now, {})).0;
            && q.pairs[i] == Advance(a, a.action, now, m.limits.overlap) && |q.pairs| == |m.pairs|
            && q.operation == m.operation && q.lastNow == now
  {
    TickSelf(m, i, now);
    hide Tick, Advance, Revoke;
  }

  /** The outstanding operation succeeds. */
  lemma Completes(w0: World, w: World, k: Place, s: Side) returns (w': World)
    requires On(w0, w, k) && AptAt(w, k, s) && Mine(w, k, s).pending != 0
    ensures On(w0, w', k) && Solo(w, w', k, s, 0)
    ensures exists overlap ::
              Mine(w', k, s) == Advance(Mine(w, k, s), Mine(w, k, s).action, k.now.At(s), overlap)
  {
    hide On, Next, Advance, Kin, Told, Apply, PairInv, Live;
    Facts(w0, w, k, s);
    var m, i, now := w.node.At(s), k.slot.At(s), k.now.At(s);
    var a := m.pairs[i];
    var x := Call(s, OpComplete(RequestOf(a, a.action, a.pending), 0, now, {}));
    w' := Next(w, x);
    NextNode(w, x);
    PendingBuilds(a) by { Alive(a, now); }
    AdvanceKin(a, now, m.limits.overlap) by { Alive(a, now); }
    CompleteCall(m, i, now);
    Onto(w0, w, x, k, 0);
  }

  // ---- a signal is sent --------------------------------------------------

  lemma {:induction false} EventNearer(pairs: seq<Assoc>, c: nat, i: nat, n: nat)
    requires i < |pairs| <= 4096 && pairs[i].used && pairs[i].event.Event? && c < U32_SPAN && n > 0
    ensures var (c', r) := EventScan(pairs, c, n);
            c' < U32_SPAN && (r == Some(i) || Gap(c', i, |pairs|) < Gap(c, i, |pairs|))
    decreases n
  {
    GapTurn(c, i, |pairs|);
    hide Gap;
    if c % |pairs| != i && n > 1 {
      EventNearer(pairs, (c + 1) % U32_SPAN, i, n - 1);
    }
  }

  lemma EventWire(w: World, s: Side)
    ensures var m := w.node.At(s); var r := EventScan(m.pairs, m.eventCursor, |m.pairs|).1;
            r.Some? ==> PacketOf(s, m.pairs[r.value].event) in Next(w, Call(s, OpEvent)).wire
  {
    hide EventScan, RxAfter, Entries;
  }

  /** One call for the next event. */
  lemma EventCall(w0: World, w: World, k: Place, s: Side) returns (w': World)
    requires On(w0, w, k) && AptAt(w, k, s) && w.node.At(s).eventCursor < U32_SPAN && Mine(w, k, s).event.Event?
    ensures On(w0, w', k) && Solo(w, w', k, s, 0) && w'.node.At(s).eventCursor < U32_SPAN
    ensures Mine(w', k, s) == Mine(w, k, s)
    ensures var m, m' := w.node.At(s), w'.node.At(s); var i, n := k.slot.At(s), |m.pairs|;
            PacketOf(s, Mine(w, k, s).event) in w'.wire || Gap(m'.eventCursor, i, n) < Gap(m.eventCursor, i, n)
  {
    var m, i := w.node.At(s), k.slot.At(s);
    var x := Call(s, OpEvent);
    w' := Next(w, x);
    NextNode(w, x);
    EventWire(w, s);
    hide On, Next, EventScan, Kin, Gap;
    EventNearer(m.pairs, m.eventCursor, i, |m.pairs|);
    KinSelf(m.pairs[i]);
    Onto(w0, w, x, k, 0);
  }

  lemma Reads(w0: World, w: World, k: Place, s: Side) returns (w': World)
    requires On(w0, w, k) && AptAt(w, k, s) && w.node.At(s).eventCursor < U32_SPAN && Mine(w, k, s).event.Event?
    ensures On(w0, w', k) && Solo(w, w', k, s, 0) && Mine(w', k, s) == Mine(w, k, s)
    ensures PacketOf(s, Mine(w, k, s).event) in w'.wire
    decreases Gap(w.node.At(s).eventCursor, k.slot.At(s), |w.node.At(s).pairs|)
  {
    hide On, Gap, Kin;
    var w1 := EventCall(w0, w, k, s);
    if PacketOf(s, Mine(w, k, s).event) in w1.wire {
      w' := w1;
    } else {
      Facts(w0, w1, k, s);
      w' := Reads(w0, w1, k, s);
    }
  }

  lemma Owned(wire: set<Packet>, s: Side, a: Assoc, now: nat)
    requires Told(wire, s, a) && a.event.Event? && Live(a, now, {})
    ensures a.event.token == a.token
  {
  }

  lemma SentCall(m: Manager, i: nat)
    requires i < |m.pairs| && Find(m, m.pairs[i].token) == Some(i)
    requires m.pairs[i].event.Event? && m.pairs[i].event.token == m.pairs[i].token
    ensures Apply(m, OpEventSent(m.pairs[i].event)).0 == m.(pairs := m.pairs[i := m.pairs[i].(event := NoEvent)])
  {
  }

  lemma SentKin(a: Assoc)
    requires a.used && !Ended(a.phase)
    ensures Kin(a, a.(event := NoEvent))
  {
  }

  /** The pair's event goes out. */
  lemma Tells(w0: World, w: World, k: Place, s: Side) returns (w': World)
    requires On(w0, w, k) && AptAt(w, k, s) && Mine(w, k, s).event.Event?
    ensures On(w0, w', k) && Solo(w, w', k, s, 0) && Mine(w', k, s) == Mine(w, k, s).(event := NoEvent)
  {
    hide On, Next, PairInv, Apply, Live, Told, Kin;
    Facts(w0, w, k, s);
    var w1 := Reads(w0, w, k, s);
    Facts(w0, w1, k, s);
    var m, i := w1.node.At(s), k.slot.At(s);
    var a := m.pairs[i];
    var x := Call(s, OpEventSent(a.event));
    w' := Next(w1, x);
    NextNode(w1, x);
    SentCall(m, i) by { Owned(w1.wire, s, a, k.now.At(s)); }
    SentKin(a) by { Alive(a, k.now.At(s)); }
    SoloThen(w, w1, w', k, s, 0, 0);
    Onto(w0, w1, x, k, 0);
  }

  // ---- and heard ---------------------------------------------------------

  lemma HeardKin(a: Assoc, g: Signal)
    requires a.used && !g.Revoked? && !Ended(a.phase)
    ensures Kin(a, SignalAssoc(a, g))
  {
  }

  lemma SignalCall(m: Manager, i: nat, now: nat, g: Signal, d: Digest)
    requires Apt(m, i, now) && Find(m, m.pairs[i].token) == Some(i) && InOrder(m.pairs[i], g) && d == m.pairs[i].digest
    ensures var a := m.pairs[i];
            var q := Apply(m, OpSignal(a.token, g, a.binding.epoch, d, now, {})).0;
            && q.pairs[i] == SignalAssoc(a, g) && |q.pairs| == |m.pairs| && q.operation == m.operation
            && q.lastNow == now
  {
    TickSelf(m, i, now);
    hide Tick, SignalAssoc, InOrder;
  }

  lemma Shares(w0: World, w: World, k: Place, s: Side)
    requires On(w0, w, k) && AptAt(w, k, s) && AptAt(w, k, Other(s))
    ensures Mine(w, k, s).binding == Mine(w, k, Other(s)).binding && Mine(w, k, s).lanes == Mine(w, k, Other(s)).lanes
  {
    hide Continues, WorldInv, ToldInv;
  }

  lemma OnWire(wire: set<Packet>, s: Side, a: Assoc, now: nat, g: Signal)
    requires Told(wire, s, a) && Live(a, now, {}) && a.event.NoEvent? && a.binding.epoch > 1 && Due(g) <= Stage(a.phase)
    ensures PacketOf(s, EventOf(a, g)) in wire
  {
  }

  /** What the other end has reached and told is heard here. */
  lemma Hears(w0: World, w: World, k: Place, s: Side, g: Signal) returns (w': World)
    requires On(w0, w, k) && AptAt(w, k, s) && AptAt(w, k, Other(s)) && Mine(w, k, Other(s)).event.NoEvent?
    requires Due(g) <= Stage(Mine(w, k, Other(s)).phase) && InOrder(Mine(w, k, s), g)
    ensures On(w0, w', k) && Solo(w, w', k, s, 0) && Mine(w', k, s) == SignalAssoc(Mine(w, k, s), g)
  {
    hide On, Next, Apply, PairInv, Kin, InOrder, SignalAssoc, Live;
    Facts(w0, w, k, s);
    Facts(w0, w, k, Other(s));
    Shares(w0, w, k, s);
    var m, i, now := w.node.At(s), k.slot.At(s), k.now.At(s);
    var a, b := m.pairs[i], Mine(w, k, Other(s));
    var p := PacketOf(Other(s), EventOf(b, g));
    assert p in w.wire by { OnWire(w.wire, Other(s), b, k.now.At(Other(s)), g); }
    hide Told;
    var x := Deliver(s, p, a.token, now, {});
    w' := Next(w, x);
    NextNode(w, x);
    HeardKin(a, g) by { Alive(a, now); }
    SignalCall(m, i, now, g, a.digest);
    Onto(w0, w, x, k, 0);
  }

  // ---- stage by stage ----------------------------------------------------

  predicate Resting(w: World, k: Place, s: Side)
  {
    && k.slot.At(s) < |w.node.At(s).pairs| && Mine(w, k, s).pending == 0 && Mine(w, k, s).event.NoEvent?
  }

  function StageAt(w: World, k: Place, s: Side): nat
    requires k.slot.At(s) < |w.node.At(s).pairs|
  {
    Stage(Mine(w, k, s).phase)
  }

  lemma AdvanceStage(a: Assoc, now: nat, overlap: nat)
    requires PairInv(a) && a.pending != 0 && !a.revoking && a.binding.epoch > 1
    ensures var b := Advance(a, a.action, now, overlap);
            b.pending == 0 && Stage(a.phase) <= Stage(b.phase) &&
                (!a.action.RemoveOld? ==> Stage(b.phase) > Stage(a.phase))
  {
    hide LanesValid;
  }

  /** The end finishes what it is in the middle of. */
  lemma Settles(w0: World, w: World, k: Place, s: Side) returns (w': World)
    requires On(w0, w, k) && AptAt(w, k, s)
    ensures On(w0, w', k) && Solo(w, w', k, s, 0) && Resting(w', k, s) && StageAt(w, k, s) <= StageAt(w', k, s)
    ensures Mine(w, k, s).pending != 0 && !Mine(w, k, s).action.RemoveOld? ==> StageAt(w, k, s) < StageAt(w', k, s)
  {
    hide On, PairInv, Told, Advance, Kin, Stage, Live;
    Facts(w0, w, k, s);
    KinSelf(Mine(w, k, s)) by { Alive(Mine(w, k, s), k.now.At(s)); }
    var w1 := w;
    if Mine(w, k, s).pending != 0 {
      w1 := Completes(w0, w, k, s);
      var overlap :| Mine(w1, k, s) == Advance(Mine(w, k, s), Mine(w, k, s).action, k.now.At(s), overlap);
      AdvanceStage(Mine(w, k, s), k.now.At(s), overlap) by { Alive(Mine(w, k, s), k.now.At(s)); }
    }
    w' := w1;
    if Mine(w1, k, s).event.Event? {
      Facts(w0, w1, k, s);
      w' := Tells(w0, w1, k, s);
      SoloThen(w, w1, w', k, s, 0, 0);
    }
  }

  lemma Alive(a: Assoc, now: nat)
    requires Live(a, now, {})
    ensures !a.revoking && !Ended(a.phase)
  {
  }

  /** The signal an end waits for before its next step. */
  function Awaited(p: Phase): Option<Signal>
  {
    match p
    case WAIT_RX => Some(RxReady)
    case WAIT_DRAIN => Some(Drained)
    case WAIT_TX => Some(TxReady)
    case _ => None
  }

  /** An end at rest short of the last stage waits at most for a signal its peer has earned at the same stage. */
  lemma RestingAt(a: Assoc, now: nat)
    requires PairInv(a) && a.used && a.pending == 0 && a.event.NoEvent? && Live(a, now, {}) && a.binding.epoch > 1
    requires Stage(a.phase) < 4
    ensures var g := Awaited(a.phase);
            && (g.Some? ==> !g.value.Revoked? && InOrder(a, g.value) && Due(g.value) == Stage(a.phase))
            && var b := if g.Some? then SignalAssoc(a, g.value) else a;
               Wants(b, now) && !NextAction(b, now).value.0.RemoveOld? &&
                   Stage(IssuedPair(b, now, 1).phase) == Stage(a.phase)
  {
    hide LanesValid;
  }

  lemma IssuedStage(a: Assoc, now: nat, op: nat)
    requires NextAction(a, now).Some? && op > 0
    ensures IssuedPair(a, now, op).phase == IssuedPair(a, now, 1).phase && IssuedPair(a, now, op).pending != 0
    ensures IssuedPair(a, now, op).action == NextAction(a, now).value.0
  {
  }

  /** It hears what it waits for. */
  lemma Listens(w0: World, w: World, k: Place, s: Side) returns (w': World)
    requires On(w0, w, k) && Resting(w, k, s) && Resting(w, k, Other(s))
    requires StageAt(w, k, s) < 4 && StageAt(w, k, s) <= StageAt(w, k, Other(s))
    ensures On(w0, w', k) && Solo(w, w', k, s, 0) && Wants(Mine(w', k, s), k.now.At(s))
    ensures !NextAction(Mine(w', k, s), k.now.At(s)).value.0.RemoveOld?
    ensures Stage(IssuedPair(Mine(w', k, s), k.now.At(s), 1).phase) == StageAt(w, k, s)
  {
    hide On, PairInv, Told, Kin, Wants, IssuedPair, NextAction, SignalAssoc, InOrder, Live;
    Facts(w0, w, k, s);
    Facts(w0, w, k, Other(s));
    var a := Mine(w, k, s);
    RestingAt(a, k.now.At(s));
    KinSelf(a) by { Alive(a, k.now.At(s)); }
    if Awaited(a.phase).Some? {
      w' := Hears(w0, w, k, s, Awaited(a.phase).value);
    } else {
      w' := w;
    }
  }

  /** The end that is not ahead takes its next step. */
  lemma Climbs(w0: World, w: World, k: Place, s: Side) returns (w': World)
    requires On(w0, w, k) && Resting(w, k, s) && Resting(w, k, Other(s))
    requires StageAt(w, k, s) < 4 && StageAt(w, k, s) <= StageAt(w, k, Other(s))
    requires w.node.At(s).operation + 8192 <= U64_MAX
    ensures On(w0, w', k) && Solo(w, w', k, s, 8192) && Resting(w', k, s) && StageAt(w', k, s) > StageAt(w, k, s)
  {
    hide On, Kin, Wants, Stage, Gap;
    var w1 := Listens(w0, w, k, s);
    Facts(w0, w1, k, s);
    var m := w1.node.At(s);
    var a := Mine(w1, k, s);
    GapTurn(m.cursor, k.slot.At(s), |m.pairs|);
    var w2 := Issues(w0, w1, k, s);
    assert Wants(a, k.now.At(s)) ==> NextAction(a, k.now.At(s)).Some? by { Wanting(a, k.now.At(s)); }
    var op: nat :| op > 0 && Mine(w2, k, s) == IssuedPair(a, k.now.At(s), op);
    IssuedStage(a, k.now.At(s), op);
    Facts(w0, w2, k, s);
    w' := Settles(w0, w2, k, s);
    SoloThen(w, w1, w2, k, s, 0, Gap(m.cursor, k.slot.At(s), |m.pairs|) + 1);
    SoloThen(w, w2, w', k, s, Gap(m.cursor, k.slot.At(s), |m.pairs|) + 1, 0);
  }

  lemma Wanting(a: Assoc, now: nat)
    requires Wants(a, now)
    ensures NextAction(a, now).Some?
  {
  }

  // ---- both ends ---------------------------------------------------------

  /** Operation ids left at an end for the stages it has still to climb. */
  predicate Roomy(w: World, k: Place, s: Side)
    requires k.slot.At(s) < |w.node.At(s).pairs|
  {
    w.node.At(s).operation + 8192 * (4 - StageAt(w, k, s)) <= U64_MAX
  }

  lemma StageTop(p: Phase)
    ensures Stage(p) <= 4 && (Stage(p) == 4 <==> p.ACTIVE?)
  {
  }

  /** What one end does leaves the other where it was. */
  lemma Across(w: World, w': World, k: Place, s: Side, n: nat)
    requires Solo(w, w', k, s, n) && k.slot.At(Other(s)) < |w.node.At(Other(s)).pairs|
    ensures Mine(w', k, Other(s)) == Mine(w, k, Other(s)) && (Resting(w, k, Other(s)) ==> Resting(w', k, Other(s)))
    ensures Roomy(w, k, Other(s)) ==> Roomy(w', k, Other(s))
    ensures StageAt(w, k, s) + n / 8192 <= StageAt(w', k, s) && Roomy(w, k, s) && n % 8192 == 0 ==> Roomy(w', k, s)
  {
    hide Kin, Stage;
    StageTop(Mine(w, k, s).phase);
    StageTop(Mine(w', k, s).phase);
  }

  lemma Inside(w0: World, w: World, k: Place)
    requires On(w0, w, k)
    ensures AptAt(w, k, 0) && AptAt(w, k, 1)
  {
  }

  lemma Levels(w0: World, w: World, k: Place) returns (w': World)
    requires On(w0, w, k) && AptAt(w, k, 0) && AptAt(w, k, 1) && Resting(w, k, 0) && Resting(w, k, 1)
    requires Roomy(w, k, 0) && Roomy(w, k, 1)
    ensures On(w0, w', k) && Resting(w', k, 0) && Resting(w', k, 1)
    ensures StageAt(w', k, 0) == 4 == StageAt(w', k, 1)
    decreases 8 - (StageAt(w, k, 0) + StageAt(w, k, 1))
  {
    hide On, Kin, Stage, Live;
    StageTop(Mine(w, k, 0).phase);
    StageTop(Mine(w, k, 1).phase);
    if StageAt(w, k, 0) == 4 == StageAt(w, k, 1) {
      w' := w;
    } else {
      var s: Side := if StageAt(w, k, 0) <= StageAt(w, k, 1) then 0 else 1;
      var w1 := Climbs(w0, w, k, s);
      Across(w, w1, k, s, 8192);
      Inside(w0, w1, k);
      w' := Levels(w0, w1, k);
    }
  }

  /** The end admits application data under the new epoch. */
  predicate Serves(w: World, k: Place, s: Side)
  {
    && k.slot.At(s) < |w.node.At(s).pairs| && Admitted(w.node.At(s), Mine(w, k, s).token, k.now.At(s), {})
    && Mine(w, k, s).activeEpoch == Mine(w, k, s).binding.epoch
  }

  /** An end that has resumed hears that its peer has too. */
  lemma Confirms(w0: World, w: World, k: Place, s: Side) returns (w': World)
    requires On(w0, w, k) && AptAt(w, k, s) && AptAt(w, k, Other(s)) && Resting(w, k, s) && Resting(w, k, Other(s))
    requires StageAt(w, k, s) == 4 == StageAt(w, k, Other(s))
    ensures On(w0, w', k) && Solo(w, w', k, s, 0) && Resting(w', k, s) && StageAt(w', k, s) == 4 && Serves(w', k, s)
  {
    hide On, Live, Kin, PairInv, Told, Stage, Admits;
    Facts(w0, w, k, s);
    StageTop(Mine(w, k, s).phase);
    Resumable(Mine(w, k, s));
    w' := Hears(w0, w, k, s, ActiveAck);
    Facts(w0, w', k, s);
    Confirmed(w'.node.At(s), k.slot.At(s), k.now.At(s), w'.wire, s);
  }

  lemma Confirmed(m: Manager, i: nat, now: nat, wire: set<Packet>, s: Side)
    requires Apt(m, i, now) && Find(m, m.pairs[i].token) == Some(i) && PairInv(m.pairs[i]) && Told(wire, s, m.pairs[i])
    requires m.pairs[i].phase.ACTIVE? && m.pairs[i].peerActive && m.pairs[i].event.NoEvent?
    ensures Admitted(m, m.pairs[i].token, now, {}) && m.pairs[i].activeEpoch == m.pairs[i].binding.epoch
  {
    hide LanesValid;
  }

  lemma Resumable(a: Assoc)
    requires PairInv(a) && a.phase.ACTIVE?
    ensures InOrder(a, ActiveAck)
  {
    hide LanesValid;
  }

  lemma SettlesBoth(w: World, k: Place) returns (w': World)
    requires WorldInv(w) && ToldInv(w) && Rekeying(w, k) && Roomy(w, k, 0) && Roomy(w, k, 1)
    ensures On(w, w', k) && AptAt(w', k, 0) && AptAt(w', k, 1) && Resting(w', k, 0) && Resting(w', k, 1)
    ensures Roomy(w', k, 0) && Roomy(w', k, 1)
  {
    Here(w);
    assert On(w, w, k);
    hide On, WorldInv, ToldInv, Kin, Stage, Live, Continues;
    var w1 := Settles(w, w, k, 0);
    Across(w, w1, k, 0, 0);
    Inside(w, w1, k);
    w' := Settles(w, w1, k, 1);
    Across(w1, w', k, 1, 0);
    Inside(w, w', k);
  }

  /**
   From any state of an honest run in which both ends are in the same rekey, with
   leases and deadlines still running, some continuation takes both ends to the
   new epoch and lets both admit application data. Some 32768 operation ids
   per end are left for the stages it has still to climb.
   */
  lemma RekeyCompletes(l: Two<Limits>, id: Two<nat>, xs: seq<Step>, k: Place)
    requires LimitsValid(l.zero) && LimitsValid(l.one) && Honest(Start(l, id), xs)
    requires var w := PeerRekeyRuns.After(Start(l, id), xs); Rekeying(w, k) && Roomy(w, k, 0) && Roomy(w, k, 1)
    ensures exists w' :: Continues(PeerRekeyRuns.After(Start(l, id), xs), w') && Serves(w', k, 0) && Serves(w', k, 1)
  {
    var w := PeerRekeyRuns.After(Start(l, id), xs);
    ReachableTold(l, id, xs);
    hide WorldInv, ToldInv, On, Kin, Stage, Live, Continues;
    var w1 := SettlesBoth(w, k);
    var w2 := Levels(w, w1, k);
    Inside(w, w2, k);
    var w3 := Confirms(w, w2, k, 0);
    Across(w2, w3, k, 0, 0);
    Inside(w, w3, k);
    var w4 := Confirms(w, w3, k, 1);
    Across(w3, w4, k, 1, 0);
    Reached(w, w4, k);
  }

  lemma Reached(w0: World, w: World, k: Place)
    requires On(w0, w, k)
    ensures Continues(w0, w)
  {
  }
}
