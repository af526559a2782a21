/**
 One Pod-pair association and the registry of them (doca/peer_association.c).

 A `Manager` is the value of the whole registry; `Apply` is one call into it.
 What the registry cannot decide itself arrives as an argument of the call:
 the clock, the set of faulted TLS connections (`down`), the TLS connections
 whose key derivation fails (`noKey`), the outcome of hashing (`hashes`).
 The SHA-256 digest of a binding and its lanes is taken to be injective, so it
 is modelled by the pair itself.
 */
module Association {
  import opened Wrappers

  const U64_MAX: nat := 0xFFFF_FFFF_FFFF_FFFF
  const U32_SPAN: nat := 0x1_0000_0000
  const LANES_MAX: nat := 16
  const SPI_MIN: nat := 256

  // ---- records -----------------------------------------------------------

  type Side = i: int | 0 <= i < 2

  function Other(s: Side): Side { 1 - s }

  /** The two-element arrays of the source: one cell per endpoint. */
  datatype Two<+T> = Two(zero: T, one: T) {
    function At(s: Side): T { if s == 0 then zero else one }
  }

  /** Three independent leases: authority, policy, control. */
  type Trio = s: seq<nat> | |s| == 3 witness [0, 0, 0]

  datatype Action =
    | InstallRx | InstallTx | EnableQps | Quiesce | Resume | RemoveOld
    | Block | DestroyQps | RemoveAll

  datatype Phase =
    | RX | WAIT_RX | TX | WAIT_TX | QP | WAIT_QP | DRAIN | WAIT_DRAIN | RESUME
    | ACTIVE | BLOCK | DESTROY | REMOVE | QUARANTINED | DEAD

  datatype Signal = RxReady | TxReady | LaneReady | Drained | ActiveAck | Revoked

  datatype Token = Token(manager: nat, generation: nat, slot: nat)

  /** `node` is the node's rank in name order, `identity` its keys, boot and registration. */
  datatype Endpoint = Endpoint(node: nat, pod: string, identity: nat)

  datatype Binding = Binding(cluster: string, endpoint: Two<Endpoint>, session: nat, association: nat,
                             epoch: nat, spi: Two<nat>)

  datatype Lane = Lane(id: nat, generation: nat, worker: Two<nat>, qpn: Two<nat>, psn: Two<nat>,
                       gid: Two<nat>, mtu: nat)

  datatype Digest = Digest(binding: Binding, lanes: seq<Lane>)

  datatype Event = NoEvent | Event(token: Token, signal: Signal, association: nat, digest: Digest, epoch: nat)

  datatype Assoc = Assoc(
    used: bool, token: Token, tls: nat, binding: Binding, lanes: seq<Lane>, local: Side,
    reservedSas: nat, phase: Phase, pending: nat, deadline: Trio, authority: Trio, setupDeadline: nat,
    activeEpoch: nat, oldEpoch: nat, retireDeadline: nat, oldSpi: Two<nat>, action: Action,
    revoking: bool, quiesced: bool,
    peerRx: bool, peerTx: bool, peerQp: bool, peerDrained: bool, peerActive: bool,
    digest: Digest, event: Event)

  datatype Limits = Limits(pairs: nat, lanes: nat, sas: nat, setupTimeout: nat, overlap: nat)

  /** Occupancy counters: pairs, lanes, security associations, quarantined pairs. */
  datatype Tally = Tally(pairs: int, lanes: int, sas: int, quarantined: int)

  datatype Manager = Manager(limits: Limits, stats: Tally, pairs: seq<Assoc>, id: nat,
                             generation: nat, operation: nat, lastNow: nat, cursor: nat, eventCursor: nat)

  datatype Request = Request(token: Token, operation: nat, action: Action, binding: Binding,
                             lanes: seq<Lane>, local: Side, oldEpoch: nat)

  const NO_BINDING: Binding :=
    Binding("", Two(Endpoint(0, "", 0), Endpoint(0, "", 0)), 0, 0, 0, Two(0, 0))

  /** A zeroed slot. */
  const EMPTY: Assoc := Assoc(
    false, Token(0, 0, 0), 0, NO_BINDING, [], 0, 0, RX, 0, [0, 0, 0], [0, 0, 0], 0, 0, 0, 0, Two(0, 0),
    InstallRx, false, false, false, false, false, false, false, Digest(NO_BINDING, []), NoEvent)

  // ---- one association ---------------------------------------------------

  /** Saturating deadline arithmetic. */
  function After(now: nat, delta: nat): nat
  {
    if delta + now > U64_MAX then U64_MAX else now + delta
  }

  /** The enum order of the source: everything before BLOCK builds, the rest tears down. */
  predicate Builds(x: Action) { !(x.Block? || x.DestroyQps? || x.RemoveAll?) }

  predicate Ended(p: Phase) { p.QUARANTINED? || p.DEAD? }

  function DigestOf(a: Assoc): Digest { Digest(a.binding, a.lanes) }

  predicate Live(a: Assoc, now: nat, down: set<nat>)
  {
    && !a.revoking && !Ended(a.phase)
    && now < a.deadline[0] && now < a.deadline[1] && now < a.deadline[2]
    && a.tls !in down
  }

  function EventOf(a: Assoc, s: Signal): Event
  {
    Event(a.token, s, a.binding.association, a.digest, a.binding.epoch)
  }

  function Revoke(a: Assoc): Assoc
  {
    a.(revoking := true,
       event := if !a.revoking && !Ended(a.phase) then EventOf(a, Revoked) else a.event,
       phase := if a.pending == 0 && !Ended(a.phase) && !a.phase.DESTROY? && !a.phase.REMOVE? then BLOCK else a.phase)
  }

  predicate Expired(a: Assoc, now: nat, backwards: bool, down: set<nat>)
  {
    || backwards || !Live(a, now, down)
    || ((!a.phase.ACTIVE? || !a.peerActive || a.event.Event?) && now >= a.setupDeadline)
  }

  function TickAssoc(a: Assoc, now: nat, backwards: bool, down: set<nat>): Assoc
  {
    if a.used && !Ended(a.phase) && Expired(a, now, backwards, down) then Revoke(a) else a
  }

  /** What the pair wants done next, and the phase it moves to by asking. */
  function NextAction(a: Assoc, now: nat): Option<(Action, Phase)>
  {
    match a.phase
    case RX => Some((InstallRx, RX))
    case WAIT_RX =>
      if !a.peerRx then None
      else if a.activeEpoch != 0 then Some((Quiesce, DRAIN)) else Some((InstallTx, TX))
    case WAIT_DRAIN => if a.peerDrained then Some((InstallTx, TX)) else None
    case WAIT_TX =>
      if !a.peerTx then None
      else if a.activeEpoch != 0 then Some((Resume, RESUME)) else Some((EnableQps, QP))
    case WAIT_QP => if a.peerQp then Some((Resume, RESUME)) else None
    case ACTIVE =>
      if a.oldEpoch != 0 && a.peerActive && now >= a.retireDeadline then Some((RemoveOld, ACTIVE)) else None
    case BLOCK => Some((Block, BLOCK))
    case DESTROY => Some((DestroyQps, DESTROY))
    case REMOVE => Some((RemoveAll, REMOVE))
    case _ => None
  }

  /** The pair as it stands once operation `op` has been issued for it. */
  function IssueAssoc(a: Assoc, x: Action, p: Phase, op: nat): Assoc
  {
    a.(phase := p, quiesced := a.quiesced || x.Quiesce?, pending := op, action := x)
  }

  function RequestOf(a: Assoc, x: Action, op: nat): Request
  {
    Request(a.token, op, x, a.binding, a.lanes, a.local, a.oldEpoch)
  }

  predicate Matches(a: Assoc, r: Request)
  {
    && a.pending != 0 && r.operation == a.pending && r.action == a.action
    && r.binding.epoch == a.binding.epoch && r.binding.association == a.binding.association
    && r.binding.session == a.binding.session
  }

  /** The phase an operation leads to once it is complete. */
  function PhaseAfter(x: Action): Phase
  {
    match x
    case InstallRx => WAIT_RX
    case InstallTx => WAIT_TX
    case EnableQps => WAIT_QP
    case Quiesce => WAIT_DRAIN
    case Resume => ACTIVE
    case RemoveOld => ACTIVE
    case Block => DESTROY
    case DestroyQps => REMOVE
    case RemoveAll => DEAD
  }

  /** What the peer is told when an operation completes. */
  function Report(x: Action): Option<Signal>
  {
    match x
    case InstallRx => Some(RxReady)
    case InstallTx => Some(TxReady)
    case EnableQps => Some(LaneReady)
    case Quiesce => Some(Drained)
    case Resume => Some(ActiveAck)
    case _ => None
  }

  /** An accepted completion with status 0 for a pair that is not being revoked, or a teardown step. */
  function Advance(a: Assoc, x: Action, now: nat, overlap: nat): Assoc
  {
    a.(pending := 0,
       phase := if x.RemoveOld? then a.phase else PhaseAfter(x),
       event := if Report(x).Some? then EventOf(a, Report(x).value) else a.event,
       activeEpoch := if x.Resume? then a.binding.epoch else a.activeEpoch,
       quiesced := a.quiesced && !x.Resume?,
       retireDeadline := if x.Resume? then After(now, overlap) else a.retireDeadline,
       oldEpoch := if x.RemoveOld? then 0 else a.oldEpoch,
       oldSpi := if x.RemoveOld? then Two(0, 0) else a.oldSpi,
       reservedSas := if x.RemoveOld? && a.reservedSas >= 2 then a.reservedSas - 2 else a.reservedSas)
  }

  predicate Quarantines(a: Assoc, status: int) { status == -2 || (status != 0 && a.revoking) }

  predicate Succeeds(a: Assoc, status: int) { status == 0 && !(a.revoking && Builds(a.action)) }

  function CompleteAssoc(a: Assoc, status: int, now: nat, overlap: nat): Assoc
  {
    if Quarantines(a, status) then a.(pending := 0, phase := QUARANTINED, revoking := true, event := NoEvent)
    else if Succeeds(a, status) then Advance(a, a.action, now, overlap)
    else Revoke(a.(pending := 0))
  }

  /** Whether the peer's report is in order for this pair. */
  predicate InOrder(a: Assoc, s: Signal)
  {
    match s
    case RxReady => true
    case TxReady => a.peerRx
    case LaneReady => a.peerTx
    case Drained => a.activeEpoch != 0 && a.peerRx
    case ActiveAck => a.peerTx && (a.activeEpoch != 0 || a.peerQp)
    case Revoked => true
  }

  function SignalAssoc(a: Assoc, s: Signal): Assoc
  {
    if s.Revoked? then Revoke(a)
    else a.(peerRx := a.peerRx || s.RxReady?, peerTx := a.peerTx || s.TxReady?, peerQp := a.peerQp || s.LaneReady?,
            peerDrained := a.peerDrained || s.Drained?, peerActive := a.peerActive || s.ActiveAck?)
  }

  predicate Admits(a: Assoc, now: nat, down: set<nat>)
  {
    && Live(a, now, down) && a.phase.ACTIVE? && a.peerActive && !a.quiesced && a.event.NoEvent?
    && a.activeEpoch == a.binding.epoch
  }

  function RekeyAssoc(a: Assoc, spi: Two<nat>, now: nat, timeout: nat, hashes: bool): Assoc
  {
    var b := a.(oldEpoch := a.binding.epoch, oldSpi := a.binding.spi,
                binding := a.binding.(epoch := a.binding.epoch + 1, spi := spi),
                peerRx := false, peerTx := false, peerQp := false, peerDrained := false, peerActive := false,
                phase := RX, setupDeadline := After(now, timeout), reservedSas := a.reservedSas + 2);
    if hashes then b.(digest := DigestOf(b)) else Revoke(b)
  }

  // ---- the registry ------------------------------------------------------

  predicate BindingValid(b: Binding)
  {
    && b.cluster != "" && b.endpoint.zero.pod != "" && b.endpoint.one.pod != ""
    && b.endpoint.zero.node < b.endpoint.one.node && b.endpoint.zero.pod != b.endpoint.one.pod
    && b.session != 0 && b.association != 0 && b.epoch != 0 && b.spi.zero >= SPI_MIN && b.spi.one >= SPI_MIN
  }

  predicate LaneValid(l: Lane)
  {
    && l.id != 0 && l.generation != 0 && l.worker.zero < 16 && l.worker.one < 16
    && 0 < l.qpn.zero <= 0xffffff && 0 < l.qpn.one <= 0xffffff && l.psn.zero <= 0xffffff && l.psn.one <= 0xffffff
    && l.gid.zero != 0 && l.gid.one != 0 && l.mtu in {256, 512, 1024, 2048, 4096}
  }

  predicate SamePods(b: Binding, c: Binding)
  {
    b.cluster == c.cluster && b.endpoint.zero.pod == c.endpoint.zero.pod && b.endpoint.one.pod == c.endpoint.one.pod
  }

  /** The receive SPIs the pair occupies on this node: current and, while retained, retiring. */
  function RxSpis(a: Assoc): set<nat>
  {
    {a.binding.spi.At(Other(a.local))} + if a.oldEpoch != 0 then {a.oldSpi.At(Other(a.local))} else {}
  }

  function Qpns(lanes: seq<Lane>, local: Side): set<nat>
  {
    set k | 0 <= k < |lanes| :: lanes[k].qpn.At(local)
  }

  predicate SpiBusy(m: Manager, spi: nat)
  {
    exists i :: 0 <= i < |m.pairs| && m.pairs[i].used && spi in RxSpis(m.pairs[i])
  }

  /** Valid lanes in increasing id order, no local worker or queue pair used twice. */
  predicate LanesValid(lanes: seq<Lane>, local: Side)
  {
    && (forall i :: 0 <= i < |lanes| ==> LaneValid(lanes[i]))
    && (forall i, j :: 0 <= j < i < |lanes| ==>
          && lanes[j].id < lanes[i].id
          && lanes[i].worker.At(local) != lanes[j].worker.At(local) && lanes[i].qpn.At(local) != lanes[j].qpn.At(local))
  }

  predicate Clashes(a: Assoc, b: Binding, local: Side, lanes: seq<Lane>)
  {
    || a.binding.association == b.association || SamePods(a.binding, b)
    || !(Qpns(a.lanes, a.local) !! Qpns(lanes, local))
  }

  /** Everything `peer_association_open` checks before it takes a slot. */
  predicate CanOpen(m: Manager, tls: nat, b: Binding, local: Side, lanes: seq<Lane>, deadline: Trio, now: nat,
                    noKey: set<nat>)
  {
    && 0 < |lanes| <= LANES_MAX && BindingValid(b) && b.epoch == 1 && now >= m.lastNow
    && deadline[0] > now && deadline[1] > now && deadline[2] > now
    && m.stats.pairs != m.limits.pairs && |lanes| <= m.limits.lanes - m.stats.lanes
    && m.limits.sas - m.stats.sas >= 2 && m.generation != U64_MAX
    && !SpiBusy(m, b.spi.At(Other(local))) && tls !in noKey && LanesValid(lanes, local)
    && forall i :: 0 <= i < |m.pairs| && m.pairs[i].used ==> !Clashes(m.pairs[i], b, local, lanes)
  }

  /** First slot at or after `i` that is not in use. */
  function FreeSlot(pairs: seq<Assoc>, i: nat): (k: nat)
    requires i <= |pairs|
    ensures i <= k <= |pairs|
    ensures k < |pairs| ==> !pairs[k].used
    ensures forall j :: i <= j < k ==> pairs[j].used
    decreases |pairs| - i
  {
    if i == |pairs| || !pairs[i].used then i else FreeSlot(pairs, i + 1)
  }

  function Opened(m: Manager, tls: nat, b: Binding, local: Side, lanes: seq<Lane>, deadline: Trio, now: nat,
                  slot: nat): Assoc
  {
    EMPTY.(used := true, token := Token(m.id, m.generation + 1, slot), tls := tls, binding := b, lanes := lanes,
           local := local, reservedSas := 2, phase := RX, deadline := deadline,
           setupDeadline := After(now, m.limits.setupTimeout), digest := Digest(b, lanes))
  }

  /** The slot a token names, if it still belongs to the same incarnation. */
  function Find(m: Manager, t: Token): Option<nat>
  {
    if t.manager == m.id && t.slot < |m.pairs| && m.pairs[t.slot].used &&
       m.pairs[t.slot].token.generation == t.generation
    then Some(t.slot) else None
  }

  function TickPairs(pairs: seq<Assoc>, now: nat, backwards: bool, down: set<nat>): (r: seq<Assoc>)
  {
    seq(|pairs|, i requires 0 <= i < |pairs| => TickAssoc(pairs[i], now, backwards, down))
  }

  function Tick(m: Manager, now: nat, down: set<nat>): Manager
  {
    var backwards := now < m.lastNow;
    m.(lastNow := if backwards then m.lastNow else now, pairs := TickPairs(m.pairs, now, backwards, down))
  }

  /** One turn of the issue loop over slot `cursor % pairs`; `Some` when it issues. */
  function ScanOne(m: Manager, now: nat, noKey: set<nat>): (Manager, Option<Request>)
    requires |m.pairs| > 0
  {
    var i := m.cursor % |m.pairs|;
    var a := m.pairs[i];
    var n := m.(cursor := (m.cursor + 1) % U32_SPAN);
    var want := NextAction(a, now);
    if !a.used || a.pending != 0 || (a.event.Event? && !a.revoking) || want.None? then (n, None)
    else
      var (x, p) := want.value;
      if m.operation == U64_MAX then
        (n.(pairs := m.pairs[i := a.(phase := QUARANTINED)],
            stats := m.stats.(quarantined := m.stats.quarantined + 1)), None)
      else if (x.InstallRx? || x.InstallTx?) && a.tls in noKey then
        (n.(pairs := m.pairs[i := Revoke(a.(phase := p))]), None)
      else
        (n.(pairs := m.pairs[i := IssueAssoc(a, x, p, m.operation + 1)], operation := m.operation + 1),
         Some(RequestOf(a, x, m.operation + 1)))
  }

  function Scan(m: Manager, now: nat, noKey: set<nat>, n: nat): (r: (Manager, Option<Request>))
    ensures |r.0.pairs| == |m.pairs|
    decreases n
  {
    if n == 0 || |m.pairs| == 0 then (m, None)
    else
      var (m1, r) := ScanOne(m, now, noKey);
      if r.Some? then (m1, r) else Scan(m1, now, noKey, n - 1)
  }

  /** Round-robin search for the next unsent event: its slot and the cursor afterwards. */
  function EventScan(pairs: seq<Assoc>, cursor: nat, n: nat): (r: (nat, Option<nat>))
    ensures r.1.Some? ==> r.1.value < |pairs| && pairs[r.1.value].used && pairs[r.1.value].event.Event?
    decreases n
  {
    if n == 0 || |pairs| == 0 then (cursor, None)
    else
      var i := cursor % |pairs|;
      var next := (cursor + 1) % U32_SPAN;
      if pairs[i].used && pairs[i].event.Event? then (next, Some(i)) else EventScan(pairs, next, n - 1)
  }

  datatype Op =
    | OpOpen(tls: nat, binding: Binding, local: Side, lanes: seq<Lane>, deadline: Trio, now: nat, noKey: set<nat>,
             hashes: bool)
    | OpTick(now: nat, down: set<nat>)
    | OpNext(now: nat, down: set<nat>, noKey: set<nat>)
    | OpComplete(request: Request, status: int, now: nat, down: set<nat>)
    | OpEvent
    | OpEventSent(event: Event)
    | OpSignal(token: Token, signal: Signal, epoch: nat, digest: Digest, now: nat, down: set<nat>)
    | OpAdmit(token: Token, now: nat, down: set<nat>)
    | OpRekey(token: Token, spi: Two<nat>, now: nat, down: set<nat>, hashes: bool)
    | OpRevoke(token: Token)
    | OpRelease(token: Token)
    | OpRenew(token: Token, source: nat, generation: nat, until: nat, now: nat, down: set<nat>)

  datatype Reply = Code(code: int) | Issued(request: Request) | Pending(event: Event) | Granted(token: Token)

  /**
   A refused open leaves the registry as it was; one whose hashing fails zeroes
   the slot it took and has used up a generation.
   */
  function Open(m: Manager, o: Op): (Manager, Reply)
    requires o.OpOpen?
  {
    var slot := FreeSlot(m.pairs, 0);
    if !CanOpen(m, o.tls, o.binding, o.local, o.lanes, o.deadline, o.now, o.noKey) || slot == |m.pairs|
    then (m, Code(-1))
    else if !o.hashes then (m.(pairs := m.pairs[slot := EMPTY], generation := m.generation + 1), Code(-1))
    else
      var a := Opened(m, o.tls, o.binding, o.local, o.lanes, o.deadline, o.now, slot);
      (m.(pairs := m.pairs[slot := a], generation := m.generation + 1, lastNow := o.now,
          stats := m.stats.(pairs := m.stats.pairs + 1, lanes := m.stats.lanes + |o.lanes|, sas := m.stats.sas + 2)),
       Granted(a.token))
  }

  function Complete(m: Manager, o: Op): (Manager, Reply)
    requires o.OpComplete?
  {
    if !(-2 <= o.status <= 0) then (m, Code(-1))
    else
      var t := Tick(m, o.now, o.down);
      var f := Find(t, o.request.token);
      if f.None? || !Matches(t.pairs[f.value], o.request) then (t, Code(1))
      else
        var a := t.pairs[f.value];
        var gone := Succeeds(a, o.status) && a.action.RemoveOld?;
        (t.(pairs := t.pairs[f.value := CompleteAssoc(a, o.status, o.now, m.limits.overlap)],
            stats := t.stats.(quarantined := t.stats.quarantined + (if Quarantines(a, o.status) then 1 else 0),
                              sas := t.stats.sas - (if gone then 2 else 0))),
         Code(0))
  }

  function SignalStep(m: Manager, o: Op): (Manager, Reply)
    requires o.OpSignal?
  {
    var t := Tick(m, o.now, o.down);
    var f := Find(t, o.token);
    if f.None? || !Live(t.pairs[f.value], o.now, o.down) || o.epoch < t.pairs[f.value].binding.epoch then (t, Code(1))
    else
      var a := t.pairs[f.value];
      if o.epoch != a.binding.epoch || o.digest != a.digest || !InOrder(a, o.signal) then (t, Code(-1))
      else (t.(pairs := t.pairs[f.value := SignalAssoc(a, o.signal)]), Code(0))
  }

  predicate Admitted(m: Manager, t: Token, now: nat, down: set<nat>)
  {
    var f := Find(m, t);
    f.Some? && Admits(m.pairs[f.value], now, down)
  }

  function Rekey(m: Manager, o: Op): (Manager, Reply)
    requires o.OpRekey?
  {
    var t := Tick(m, o.now, o.down);
    if !Admitted(t, o.token, o.now, o.down) then (t, Code(-1))
    else
      var i := Find(t, o.token).value;
      var a := t.pairs[i];
      if a.pending != 0 || a.oldEpoch != 0 || a.binding.epoch == U64_MAX ||
         o.spi.zero < SPI_MIN || o.spi.one < SPI_MIN ||
         o.spi.zero == a.binding.spi.zero || o.spi.one == a.binding.spi.one ||
         SpiBusy(t, o.spi.At(Other(a.local))) || t.limits.sas - t.stats.sas < 2
      then (t, Code(-1))
      else
        (t.(pairs := t.pairs[i := RekeyAssoc(a, o.spi, o.now, t.limits.setupTimeout, o.hashes)],
            stats := t.stats.(sas := t.stats.sas + 2)),
         Code(if o.hashes then 0 else -1))
  }

  function Release(m: Manager, t: Token): (Manager, Reply)
  {
    var f := Find(m, t);
    if f.None? || m.pairs[f.value].pending != 0 || !m.pairs[f.value].phase.DEAD? then (m, Code(-1))
    else
      var a := m.pairs[f.value];
      (m.(pairs := m.pairs[f.value := EMPTY],
          stats := m.stats.(pairs := m.stats.pairs - 1, lanes := m.stats.lanes - |a.lanes|,
                            sas := m.stats.sas - a.reservedSas)),
       Code(0))
  }

  function Renew(m: Manager, o: Op): (Manager, Reply)
    requires o.OpRenew?
  {
    if o.source > 2 then (m, Code(-1))
    else
      var t := Tick(m, o.now, o.down);
      var f := Find(t, o.token);
      if f.None? || !Live(t.pairs[f.value], o.now, o.down) ||
         o.generation <= t.pairs[f.value].authority[o.source] || o.until <= o.now
      then (t, Code(-1))
      else
        var a := t.pairs[f.value];
        (t.(pairs := t.pairs[f.value := a.(authority := a.authority[o.source := o.generation],
                                           deadline := a.deadline[o.source := o.until])]),
         Code(0))
  }

  /** One call into the registry: the registry afterwards and what the caller is told. */
  function Apply(m: Manager, o: Op): (Manager, Reply)
  {
    match o
    case OpOpen(_, _, _, _, _, _, _, _) => Open(m, o)
    case OpTick(now, down) => (Tick(m, now, down), Code(0))
    case OpNext(now, down, noKey) =>
      var r := Scan(Tick(m, now, down), now, noKey, |m.pairs|);
      (r.0, if r.1.Some? then Issued(r.1.value) else Code(0))
    case OpComplete(_, _, _, _) => Complete(m, o)
    case OpEvent =>
      var r := EventScan(m.pairs, m.eventCursor, |m.pairs|);
      (m.(eventCursor := r.0), if r.1.Some? then Pending(m.pairs[r.1.value].event) else Code(0))
    case OpEventSent(e) =>
      var f := if e.Event? then Find(m, e.token) else None;
      if f.None? then (m, Code(1))
      else
        var a := m.pairs[f.value];
        if a.event.NoEvent? || a.event.signal != e.signal || a.event.epoch != e.epoch || a.event.digest != e.digest
        then (m, Code(1))
        else (m.(pairs := m.pairs[f.value := a.(event := NoEvent)]), Code(0))
    case OpSignal(_, _, _, _, _, _) => SignalStep(m, o)
    case OpAdmit(t, now, down) =>
      var n := Tick(m, now, down);
      (n, Code(if Admitted(n, t, now, down) then 1 else 0))
    case OpRekey(_, _, _, _, _) => Rekey(m, o)
    case OpRevoke(t) =>
      var f := Find(m, t);
      if f.None? then (m, Code(-1)) else (m.(pairs := m.pairs[f.value := Revoke(m.pairs[f.value])]), Code(0))
    case OpRelease(t) => Release(m, t)
    case OpRenew(_, _, _, _, _, _) => Renew(m, o)
  }

  /** The registry after a whole run of calls. */
  function Run(m: Manager, ops: seq<Op>): Manager
    decreases |ops|
  {
    if ops == [] then m else Run(Apply(m, ops[0]).0, ops[1..])
  }

  predicate LimitsValid(l: Limits)
  {
    0 < l.pairs <= 4096 && l.lanes > 0 && l.sas >= 2 && l.setupTimeout > 0 && l.overlap > 0
  }

  function Fresh(l: Limits, id: nat): Manager
  {
    Manager(l, Tally(0, 0, 0, 0), seq(l.pairs, i => EMPTY), id, 0, 0, 0, 0, 0)
  }
}
