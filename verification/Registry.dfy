/**
 The association registry as the source runs it: one table of slots updated in
 place, counters and cursors (doca/peer_association.c). Every method is proved
 to act on the registry's value exactly as `Association.Apply` says.
 */
module Registry {
  import opened Wrappers
  import opened Association

  class PeerAssociations {
    const limits: Limits
    const id: nat
    const pairs: array<Assoc>
    var stats: Tally
    var generation: nat
    var operation: nat
    var lastNow: nat
    var cursor: nat
    var eventCursor: nat

    ghost predicate Valid()
    {
      LimitsValid(limits) && pairs.Length == limits.pairs
    }

    /** The registry as a value. */
    ghost function Model(): Manager
      reads this, pairs
    {
      Manager(limits, stats, pairs[..], id, generation, operation, lastNow, cursor, eventCursor)
    }

    constructor (l: Limits, i: nat)
      requires LimitsValid(l)
      ensures Valid() && Model() == Fresh(l, i) && fresh(pairs)
    {
      limits, id := l, i;
      stats := Tally(0, 0, 0, 0);
      generation, operation, lastNow, cursor, eventCursor := 0, 0, 0, 0, 0;
      pairs := new Assoc[l.pairs](k => EMPTY);
      new;
      assert pairs[..] == Fresh(l, i).pairs;
    }

    /** The slot a token names, or the number of slots. */
    method FindSlot(t: Token) returns (i: nat)
      requires Valid()
      ensures Find(Model(), t) == if i < pairs.Length then Some(i) else None
      ensures i <= pairs.Length
    {
      if t.manager == id && t.slot < limits.pairs && pairs[t.slot].used &&
         pairs[t.slot].token.generation == t.generation {
        i := t.slot;
      } else {
        i := pairs.Length;
      }
    }

    method Put(i: nat, a: Assoc)
      requires i < pairs.Length
      modifies pairs
      ensures pairs[..] == old(pairs[..])[i := a]
    {
      pairs[i] := a;
    }

    method RevokeSlot(i: nat)
      requires i < pairs.Length
      modifies pairs
      ensures pairs[..] == old(pairs[..])[i := Revoke(old(pairs[i]))]
    {
      var a := pairs[i];
      var event, phase := a.event, a.phase;
      if !a.revoking && !Ended(phase) {
        event := EventOf(a, Revoked);
      }
      if a.pending == 0 && !Ended(phase) && !phase.DESTROY? && !phase.REMOVE? {
        phase := BLOCK;
      }
      pairs[i] := a.(revoking := true, event := event, phase := phase);
    }

    method TickAll(now: nat, down: set<nat>)
      requires Valid()
      modifies this`lastNow, pairs
      ensures Model() == Tick(old(Model()), now, down)
    {
      var backwards := now < lastNow;
      if !backwards {
        lastNow := now;
      }
      for i := 0 to pairs.Length
        invariant lastNow == if backwards then old(lastNow) else now
        invariant forall j :: 0 <= j < i ==> pairs[j] == TickAssoc(old(pairs[j]), now, backwards, down)
        invariant forall j :: i <= j < pairs.Length ==> pairs[j] == old(pairs[j])
      {
        var a := pairs[i];
        if a.used && !Ended(a.phase) && Expired(a, now, backwards, down) {
          RevokeSlot(i);
        }
      }
      assert Model().pairs == Tick(old(Model()), now, down).pairs;
    }

    /** One turn of the issue loop. */
    method ScanTurn(now: nat, noKey: set<nat>) returns (r: Option<Request>)
      requires Valid()
      modifies this`cursor, this`operation, this`stats, pairs
      ensures (Model(), r) == ScanOne(old(Model()), now, noKey)
    {
      r := None;
      var i := cursor % limits.pairs;
      cursor := (cursor + 1) % U32_SPAN;
      var a := pairs[i];
      if !a.used || a.pending != 0 || (a.event.Event? && !a.revoking) {
        return;
      }
      var want := NextAction(a, now);
      if want.None? {
        return;
      }
      var (x, p) := want.value;
      hide NextAction, Revoke;
      if operation == U64_MAX {
        Put(i, a.(phase := QUARANTINED));
        stats := stats.(quarantined := stats.quarantined + 1);
      } else if (x.InstallRx? || x.InstallTx?) && a.tls in noKey {
        Put(i, a.(phase := p));
        RevokeSlot(i);
        assert pairs[..] == old(pairs[..])[i := Revoke(a.(phase := p))];
      } else {
        operation := operation + 1;
        Put(i, IssueAssoc(a, x, p, operation));
        r := Some(RequestOf(a, x, operation));
      }
    }

    /** Hand out at most one operation, round robin, refusing pairs whose keys cannot be derived. */
    method NextRequest(now: nat, down: set<nat>, noKey: set<nat>) returns (r: Option<Request>)
      requires Valid()
      modifies this`lastNow, this`cursor, this`operation, this`stats, pairs
      ensures var (m, reply) := Apply(old(Model()), OpNext(now, down, noKey));
              Model() == m && reply == if r.Some? then Issued(r.value) else Code(0)
    {
      TickAll(now, down);
      ghost var t := Model();
      r := None;
      var n := 0;
      while n < limits.pairs && r.None?
        invariant n <= limits.pairs
        invariant r.None? ==> Scan(Model(), now, noKey, limits.pairs - n) == Scan(t, now, noKey, limits.pairs)
        invariant r.Some? ==> (Model(), r) == Scan(t, now, noKey, limits.pairs)
      {
        hide ScanOne;
        r := ScanTurn(now, noKey);
        n := n + 1;
      }
    }

    /** status: 0 complete, -1 failed, -2 unknown outcome. */
    method CompleteRequest(q: Request, status: int, now: nat, down: set<nat>) returns (code: int)
      requires Valid()
      modifies this`lastNow, this`stats, pairs
      ensures (Model(), Code(code)) == Apply(old(Model()), OpComplete(q, status, now, down))
    {
      if status > 0 || status < -2 {
        return -1;
      }
      TickAll(now, down);
      ghost var t := Model();
      hide Tick, Revoke, Advance;
      var i := FindSlot(q.token);
      if i == pairs.Length || !Matches(pairs[i], q) {
        return 1;
      }
      var a := pairs[i];
      code := 0;
      if status == -2 || (status != 0 && a.revoking) {
        Put(i, a.(pending := 0, phase := QUARANTINED, revoking := true, event := NoEvent));
        stats := stats.(quarantined := stats.quarantined + 1);
      } else if status != 0 || (a.revoking && Builds(a.action)) {
        Put(i, a.(pending := 0));
        RevokeSlot(i);
        assert pairs[..] == t.pairs[i := Revoke(a.(pending := 0))];
      } else {
        Put(i, Advance(a, a.action, now, limits.overlap));
        if a.action.RemoveOld? {
          stats := stats.(sas := stats.sas - 2);
        }
      }
    }

    /** Next event awaiting transmission, round robin. */
    method PollEvent() returns (e: Event)
      requires Valid()
      modifies this`eventCursor
      ensures var (m, reply) := Apply(old(Model()), OpEvent);
              Model() == m && reply == if e.Event? then Pending(e) else Code(0)
    {
      ghost var m := Model();
      var n := 0;
      while n < limits.pairs
        invariant n <= limits.pairs
        invariant EventScan(pairs[..], eventCursor, limits.pairs - n) == EventScan(m.pairs, m.eventCursor, limits.pairs)
        modifies this`eventCursor
      {
        var i := eventCursor % limits.pairs;
        eventCursor := (eventCursor + 1) % U32_SPAN;
        if pairs[i].used && pairs[i].event.Event? {
          return pairs[i].event;
        }
        n := n + 1;
      }
      return NoEvent;
    }

    method MarkSent(e: Event) returns (code: int)
      requires Valid()
      modifies pairs
      ensures (Model(), Code(code)) == Apply(old(Model()), OpEventSent(e))
    {
      if e.NoEvent? {
        return 1;
      }
      var i := FindSlot(e.token);
      if i == pairs.Length || pairs[i].event.NoEvent? || pairs[i].event.signal != e.signal ||
         pairs[i].event.epoch != e.epoch || pairs[i].event.digest != e.digest {
        return 1;
      }
      Put(i, pairs[i].(event := NoEvent));
      return 0;
    }

    method Hear(t: Token, g: Signal, epoch: nat, d: Digest, now: nat, down: set<nat>) returns (code: int)
      requires Valid()
      modifies this`lastNow, pairs
      ensures (Model(), Code(code)) == Apply(old(Model()), OpSignal(t, g, epoch, d, now, down))
    {
      TickAll(now, down);
      hide Tick, Revoke;
      var i := FindSlot(t);
      if i == pairs.Length || !Live(pairs[i], now, down) || epoch < pairs[i].binding.epoch {
        return 1;
      }
      var a := pairs[i];
      if epoch != a.binding.epoch || d != a.digest || !InOrder(a, g) {
        return -1;
      }
      if g.Revoked? {
        RevokeSlot(i);
      } else {
        Put(i, SignalAssoc(a, g));
      }
      return 0;
    }

    method Admit(t: Token, now: nat, down: set<nat>) returns (ok: bool)
      requires Valid()
      modifies this`lastNow, pairs
      ensures (Model(), Code(if ok then 1 else 0)) == Apply(old(Model()), OpAdmit(t, now, down))
    {
      TickAll(now, down);
      hide Tick;
      var i := FindSlot(t);
      ok := i < pairs.Length && Admits(pairs[i], now, down);
    }

    /** Whether any pair receives under this SPI, now or while an old epoch retires. */
    method IsSpiBusy(spi: nat) returns (busy: bool)
      requires Valid()
      ensures busy == SpiBusy(Model(), spi)
    {
      for i := 0 to pairs.Length
        invariant forall j :: 0 <= j < i && pairs[j].used ==> spi !in RxSpis(pairs[j])
      {
        var a := pairs[i];
        if a.used && (a.binding.spi.At(Other(a.local)) == spi ||
                      (a.oldEpoch != 0 && a.oldSpi.At(Other(a.local)) == spi)) {
          assert Model().pairs[i].used && spi in RxSpis(Model().pairs[i]);
          return true;
        }
      }
      return false;
    }

    method StartRekey(t: Token, spi: Two<nat>, now: nat, down: set<nat>, hashes: bool) returns (code: int)
      requires Valid()
      modifies this`lastNow, this`stats, pairs
      ensures (Model(), Code(code)) == Apply(old(Model()), OpRekey(t, spi, now, down, hashes))
    {
      hide Tick, SpiBusy, RekeyAssoc;
      TickAll(now, down);
      var i := FindSlot(t);
      if i == pairs.Length || !Admits(pairs[i], now, down) {
        return -1;
      }
      var a := pairs[i];
      var busy := IsSpiBusy(spi.At(Other(a.local)));
      if a.pending != 0 || a.oldEpoch != 0 || a.binding.epoch == U64_MAX || spi.zero < SPI_MIN || spi.one < SPI_MIN ||
         spi.zero == a.binding.spi.zero || spi.one == a.binding.spi.one || busy || limits.sas - stats.sas < 2 {
        return -1;
      }
      Put(i, RekeyAssoc(a, spi, now, limits.setupTimeout, hashes));
      stats := stats.(sas := stats.sas + 2);
      return if hashes then 0 else -1;
    }

    method RevokeToken(t: Token) returns (code: int)
      requires Valid()
      modifies pairs
      ensures (Model(), Code(code)) == Apply(old(Model()), OpRevoke(t))
    {
      var i := FindSlot(t);
      if i == pairs.Length {
        return -1;
      }
      hide Revoke;
      RevokeSlot(i);
      return 0;
    }

    method ReleaseToken(t: Token) returns (code: int)
      requires Valid()
      modifies this`stats, pairs
      ensures (Model(), Code(code)) == Apply(old(Model()), OpRelease(t))
    {
      var i := FindSlot(t);
      if i == pairs.Length || pairs[i].pending != 0 || !pairs[i].phase.DEAD? {
        return -1;
      }
      var a := pairs[i];
      stats := stats.(pairs := stats.pairs - 1, lanes := stats.lanes - |a.lanes|, sas := stats.sas - a.reservedSas);
      Put(i, EMPTY);
      return 0;
    }

    method RenewLease(t: Token, source: nat, g: nat, until: nat, now: nat, down: set<nat>) returns (code: int)
      requires Valid()
      modifies this`lastNow, pairs
      ensures (Model(), Code(code)) == Apply(old(Model()), OpRenew(t, source, g, until, now, down))
    {
      if source > 2 {
        return -1;
      }
      TickAll(now, down);
      hide Tick;
      var i := FindSlot(t);
      if i == pairs.Length || !Live(pairs[i], now, down) || g <= pairs[i].authority[source] || until <= now {
        return -1;
      }
      var a := pairs[i];
      Put(i, a.(authority := a.authority[source := g], deadline := a.deadline[source := until]));
      return 0;
    }

    /** Lanes in increasing id order, each valid, no local worker or queue pair twice. */
    static method CheckLanes(lanes: seq<Lane>, local: Side) returns (ok: bool)
      ensures ok == LanesValid(lanes, local)
    {
      hide LaneValid;
      for i := 0 to |lanes|
        invariant LanesValid(lanes[..i], local)
      {
        assert lanes[..i + 1][i] == lanes[i];
        if !LaneValid(lanes[i]) || (i > 0 && lanes[i - 1].id >= lanes[i].id) {
          assert i > 0 ==> lanes[..i][i - 1] == lanes[i - 1];
          return false;
        }
        for j := 0 to i
          invariant forall k :: 0 <= k < j ==>
            lanes[i].worker.At(local) != lanes[k].worker.At(local) && lanes[i].qpn.At(local) != lanes[k].qpn.At(local)
        {
          if lanes[i].worker.At(local) == lanes[j].worker.At(local) ||
             lanes[i].qpn.At(local) == lanes[j].qpn.At(local) {
            return false;
          }
        }
        assert forall k :: 0 <= k < i ==> lanes[..i][k].id <= lanes[..i][i - 1].id;
      }
      assert lanes[..|lanes|] == lanes;
      return true;
    }

    static method ShareQpn(xs: seq<Lane>, lx: Side, ys: seq<Lane>, ly: Side) returns (share: bool)
      ensures share == !(Qpns(xs, lx) !! Qpns(ys, ly))
    {
      for i := 0 to |xs|
        invariant forall a, b :: 0 <= a < i && 0 <= b < |ys| ==> xs[a].qpn.At(lx) != ys[b].qpn.At(ly)
      {
        for j := 0 to |ys|
          invariant forall b :: 0 <= b < j ==> xs[i].qpn.At(lx) != ys[b].qpn.At(ly)
        {
          if xs[i].qpn.At(lx) == ys[j].qpn.At(ly) {
            assert xs[i].qpn.At(lx) in Qpns(xs, lx) && ys[j].qpn.At(ly) in Qpns(ys, ly);
            return true;
          }
        }
      }
      return false;
    }

    /** The first free slot, and whether any live pair stands in the way. */
    method ScanSlots(b: Binding, local: Side, lanes: seq<Lane>) returns (slot: nat, clash: bool)
      requires Valid()
      ensures clash == exists i :: 0 <= i < pairs.Length && pairs[i].used && Clashes(pairs[i], b, local, lanes)
      ensures !clash ==> slot == FreeSlot(pairs[..], 0)
    {
      hide SamePods, Qpns;
      slot := pairs.Length;
      for i := 0 to pairs.Length
        invariant forall j :: 0 <= j < i && pairs[j].used ==> !Clashes(pairs[j], b, local, lanes)
        invariant slot == pairs.Length ==> forall j :: 0 <= j < i ==> pairs[j].used
        invariant slot < pairs.Length ==> slot < i && !pairs[slot].used && forall j :: 0 <= j < slot ==> pairs[j].used
        invariant slot <= pairs.Length
      {
        var a := pairs[i];
        if !a.used {
          if slot == pairs.Length {
            slot := i;
          }
        } else {
          var share := ShareQpn(a.lanes, a.local, lanes, local);
          if a.binding.association == b.association || SamePods(a.binding, b) || share {
            assert pairs[i].used && Clashes(pairs[i], b, local, lanes);
            return slot, true;
          }
        }
      }
      clash := false;
      ghost var k := FreeSlot(pairs[..], 0);
      assert k < |pairs[..]| ==> !pairs[..][k].used;
      assert forall j :: 0 <= j < k ==> pairs[..][j].used;
    }

    method OpenPair(tls: nat, b: Binding, local: Side, lanes: seq<Lane>, deadline: Trio, now: nat, noKey: set<nat>,
                    hashes: bool) returns (t: Option<Token>)
      requires Valid()
      modifies this`lastNow, this`stats, this`generation, pairs
      ensures var (m, reply) := Apply(old(Model()), OpOpen(tls, b, local, lanes, deadline, now, noKey, hashes));
              Model() == m && reply == if t.Some? then Granted(t.value) else Code(-1)
    {
      var busy := IsSpiBusy(b.spi.At(Other(local)));
      var ok := CheckLanes(lanes, local);
      var slot, clash := ScanSlots(b, local, lanes);
      hide SpiBusy, LanesValid, Clashes, LaneValid, BindingValid;
      if |lanes| == 0 || |lanes| > LANES_MAX || !BindingValid(b) || b.epoch != 1 || now < lastNow ||
         deadline[0] <= now || deadline[1] <= now || deadline[2] <= now || stats.pairs == limits.pairs ||
         |lanes| > limits.lanes - stats.lanes || limits.sas - stats.sas < 2 || generation == U64_MAX || busy ||
         tls in noKey || !ok || clash || slot == pairs.Length {
        return None;
      }
      var a := EMPTY.(used := true, token := Token(id, generation + 1, slot), tls := tls, binding := b, lanes := lanes,
                      local := local, reservedSas := 2, phase := RX, deadline := deadline,
                      setupDeadline := After(now, limits.setupTimeout), digest := Digest(b, lanes));
      generation := generation + 1;
      if !hashes {
        Put(slot, EMPTY);
        return None;
      }
      Put(slot, a);
      stats := stats.(pairs := stats.pairs + 1, lanes := stats.lanes + |lanes|, sas := stats.sas + 2);
      lastNow := now;
      return Some(a.token);
    }
  }
}
