/**
 The life of one association over whole runs of the registry: revocation and
 quarantine are final, teardown happens in one order, and it takes at most four
 completions.
 */
module RegistryLife {
  import opened Wrappers
  import opened Association
  import opened RegistryInvariants

  /** Completions a revoked pair still needs before it is DEAD. */
  function Rank(a: Assoc): nat
  {
    match a.phase
    case DEAD => 0
    case QUARANTINED => 0
    case REMOVE => 1
    case DESTROY => 2
    case BLOCK => 3
    case _ => 4
  }

  /** How a slot may change in one call; `done` says the call completed an operation of this pair. */
  predicate Follows(a: Assoc, b: Assoc, done: bool)
  {
    && b.used && b.token == a.token
    && (a.revoking ==> b.revoking && (b.phase.QUARANTINED? || Rank(b) + (if done then 1 else 0) == Rank(a)))
    && (a.phase.QUARANTINED? ==> b.phase.QUARANTINED? && Holds(a, b))
    && (a.phase.DEAD? ==> b.phase.DEAD?)
    && (!done && (b.phase.DESTROY? || b.phase.REMOVE? || b.phase.DEAD?) ==> b.phase == a.phase)
  }

  /** The call is a completion the registry accepts for slot `i`. */
  predicate Accepts(m: Manager, o: Op, i: nat)
  {
    && o.OpComplete? && -2 <= o.status <= 0
    && var t := Tick(m, o.now, o.down);
       Find(t, o.request.token) == Some(i) && Matches(t.pairs[i], o.request)
  }

  // ---- one call, one slot ------------------------------------------------

  lemma RevokeFollows(a: Assoc)
    requires a.used && PhaseInv(a)
    ensures Follows(a, Revoke(a), false)
  {
  }

  lemma TickFollows(m: Manager, now: nat, down: set<nat>, i: nat)
    requires Inv(m) && i < |m.pairs| && m.pairs[i].used
    ensures Inv(Tick(m, now, down)) && Follows(m.pairs[i], Tick(m, now, down).pairs[i], false)
  {
    TickKeeps(m, now, down);
    hide Revoke, Follows, EpochsInv, LanesValid, AllExclusive;
    RevokeFollows(m.pairs[i]);
    SelfFollows(m.pairs[i]);
  }

  lemma SelfFollows(a: Assoc)
    requires a.used
    ensures Follows(a, a, false)
  {
  }

  lemma QuietFollows(a: Assoc)
    requires a.used
    ensures Follows(a, a.(event := NoEvent), false)
  {
  }

  lemma Chain(a: Assoc, b: Assoc, c: Assoc, done: bool)
    requires Follows(a, b, false) && Follows(b, c, done)
    ensures Follows(a, c, done)
  {
  }

  /** A pair still being built may change in any way that keeps its token. */
  lemma LiveFollows(a: Assoc, b: Assoc)
    requires !a.revoking && !Ended(a.phase) && b.used && b.token == a.token && Rank(b) >= 3
    ensures Follows(a, b, false)
  {
  }

  lemma IssueFollows(a: Assoc, now: nat, op: nat)
    requires a.used && PhaseInv(a) && a.pending == 0 && NextAction(a, now).Some?
    ensures var (x, p) := NextAction(a, now).value;
            && Follows(a, IssueAssoc(a, x, p, op), false) && Follows(a, Revoke(a.(phase := p)), false)
            && Follows(a, a.(phase := QUARANTINED), false)
  {
  }

  lemma ScanOneFollows(m: Manager, now: nat, noKey: set<nat>, i: nat)
    requires Inv(m) && i < |m.pairs| && m.pairs[i].used
    ensures Follows(m.pairs[i], ScanOne(m, now, noKey).0.pairs[i], false)
  {
    hide EpochsInv, LanesValid, AllExclusive, Total, Follows, IssueAssoc, Revoke, NextAction;
    var a := m.pairs[i];
    assert PairInv(a);
    hide PhaseInv, PairInv;
    SelfFollows(a);
    if a.pending == 0 && NextAction(a, now).Some? {
      IssueFollows(a, now, m.operation + 1);
    }
  }

  lemma {:induction false} ScanFollows(m: Manager, now: nat, noKey: set<nat>, n: nat, i: nat)
    requires Inv(m) && i < |m.pairs| && m.pairs[i].used
    ensures Follows(m.pairs[i], Scan(m, now, noKey, n).0.pairs[i], false)
    decreases n
  {
    hide Inv, ScanOne;
    if n == 0 {
      SelfFollows(m.pairs[i]);
    } else {
      ScanOneKeeps(m, now, noKey);
      ScanOneFollows(m, now, noKey, i);
      var m1 := ScanOne(m, now, noKey).0;
      assert |m1.pairs| == |m.pairs| by {
        assert ScanOne(m, now, noKey).0 == Scan(m, now, noKey, 1).0;
      }
      ScanFollows(m1, now, noKey, n - 1, i);
    }
  }

  lemma AdvanceFollows(a: Assoc, now: nat, overlap: nat)
    requires a.used && PhaseInv(a) && a.pending != 0 && Succeeds(a, 0)
    ensures Follows(a, Advance(a, a.action, now, overlap), true)
  {
  }

  lemma AbortFollows(a: Assoc, status: int)
    requires a.used && PhaseInv(a) && a.pending != 0 && !Quarantines(a, status) && !Succeeds(a, status)
    ensures Follows(a, Revoke(a.(pending := 0)), true)
  {
  }

  lemma CompletionFollows(a: Assoc, status: int, now: nat, overlap: nat)
    requires a.used && PhaseInv(a) && a.pending != 0
    ensures Follows(a, CompleteAssoc(a, status, now, overlap), true)
  {
    hide Advance, Revoke, PhaseInv;
    if Quarantines(a, status) {
      QuarantineFollows(a);
    } else if Succeeds(a, status) {
      AdvanceFollows(a, now, overlap);
    } else {
      AbortFollows(a, status);
    }
  }

  lemma QuarantineFollows(a: Assoc)
    requires a.used && PhaseInv(a) && a.pending != 0
    ensures Follows(a, a.(pending := 0, phase := QUARANTINED, revoking := true, event := NoEvent), true)
  {
  }

  /** A pair leaves its slot only through a release of its own token while DEAD. */
  predicate Released(m: Manager, o: Op, i: nat)
    requires i < |m.pairs|
  {
    o.OpRelease? && Find(m, o.token) == Some(i) && m.pairs[i].phase.DEAD? && m.pairs[i].revoking
  }

  lemma CompleteFollows(m: Manager, o: Op, i: nat)
    requires Inv(m) && i < |m.pairs| && m.pairs[i].used && o.OpComplete?
    ensures Follows(m.pairs[i], Complete(m, o).0.pairs[i], Accepts(m, o, i))
  {
    var t := Tick(m, o.now, o.down);
    TickFollows(m, o.now, o.down, i);
    hide Follows, CompleteAssoc, Tick, EpochsInv, LanesValid, AllExclusive, Total;
    if -2 <= o.status <= 0 {
      if Accepts(m, o, i) {
        CompletionFollows(t.pairs[i], o.status, o.now, m.limits.overlap);
        Chain(m.pairs[i], t.pairs[i], CompleteAssoc(t.pairs[i], o.status, o.now, m.limits.overlap), true);
      }
    } else {
      SelfFollows(m.pairs[i]);
    }
  }

  lemma SignalToken(a: Assoc, s: Signal)
    requires Rank(a) >= 3
    ensures SignalAssoc(a, s).used == a.used && SignalAssoc(a, s).token == a.token && Rank(SignalAssoc(a, s)) >= 3
  {
    if s.Revoked? {
      assert Revoke(a).token == a.token && Rank(Revoke(a)) >= 3;
    }
  }

  lemma SignalFollows(m: Manager, o: Op, i: nat)
    requires Inv(m) && i < |m.pairs| && m.pairs[i].used && o.OpSignal?
    ensures Follows(m.pairs[i], SignalStep(m, o).0.pairs[i], false)
  {
    TickFollows(m, o.now, o.down, i);
    hide Inv, Follows, Tick, SignalAssoc;
    var t := Tick(m, o.now, o.down);
    var b := SignalStep(m, o).0.pairs[i];
    if b != t.pairs[i] {
      SignalToken(t.pairs[i], o.signal);
      LiveFollows(t.pairs[i], b);
      Chain(m.pairs[i], t.pairs[i], b, false);
    }
  }

  lemma RekeyFollows(m: Manager, o: Op, i: nat)
    requires Inv(m) && i < |m.pairs| && m.pairs[i].used && o.OpRekey?
    ensures Follows(m.pairs[i], Rekey(m, o).0.pairs[i], false)
  {
    TickFollows(m, o.now, o.down, i);
    hide Inv, Follows, Tick, SpiBusy;
    var t := Tick(m, o.now, o.down);
    var b := Rekey(m, o).0.pairs[i];
    if b != t.pairs[i] {
      LiveFollows(t.pairs[i], b);
      Chain(m.pairs[i], t.pairs[i], b, false);
    }
  }

  lemma RenewFollows(m: Manager, o: Op, i: nat)
    requires Inv(m) && i < |m.pairs| && m.pairs[i].used && o.OpRenew?
    ensures Follows(m.pairs[i], Renew(m, o).0.pairs[i], false)
  {
    TickFollows(m, o.now, o.down, i);
    SelfFollows(m.pairs[i]);
    hide Inv, Follows, Tick;
    var t := Tick(m, o.now, o.down);
    var b := Renew(m, o).0.pairs[i];
    if o.source <= 2 && b != t.pairs[i] {
      LiveFollows(t.pairs[i], b);
      Chain(m.pairs[i], t.pairs[i], b, false);
    }
  }

  lemma ReleaseFollows(m: Manager, o: Op, i: nat)
    requires Inv(m) && i < |m.pairs| && m.pairs[i].used && o.OpRelease?
    ensures var n := Release(m, o.token).0;
            if Released(m, o, i) then n.pairs[i] == EMPTY else Follows(m.pairs[i], n.pairs[i], false)
  {
    hide EpochsInv, LanesValid, AllExclusive, Total, Follows;
    SelfFollows(m.pairs[i]);
  }

  lemma ApplySize(m: Manager, o: Op)
    ensures |Apply(m, o).0.pairs| == |m.pairs| && Apply(m, o).0.id == m.id
  {
    hide CanOpen, CompleteAssoc, SignalAssoc, RekeyAssoc, Revoke, Admits, Live;
    if o.OpNext? {
      ScanId(Tick(m, o.now, o.down), o.now, o.noKey, |m.pairs|);
    }
  }

  lemma {:induction false} ScanId(m: Manager, now: nat, noKey: set<nat>, n: nat)
    ensures Scan(m, now, noKey, n).0.id == m.id
    decreases n
  {
    if n != 0 && |m.pairs| != 0 {
      ScanId(ScanOne(m, now, noKey).0, now, noKey, n - 1);
    }
  }

  /** Every call either follows the rules above on every used slot, or releases a DEAD pair. */
  lemma ApplyFollows(m: Manager, o: Op, i: nat)
    requires Inv(m) && i < |m.pairs| && m.pairs[i].used
    ensures var n := Apply(m, o).0;
            |n.pairs| == |m.pairs|
            && if Released(m, o, i) then n.pairs[i] == EMPTY else Follows(m.pairs[i], n.pairs[i], Accepts(m, o, i))
  {
    ApplySize(m, o);
    SelfFollows(m.pairs[i]);
    if o.OpRevoke? {
      RevokeFollows(m.pairs[i]);
    }
    hide Inv, Follows, Tick, SignalStep, Rekey, Renew, Complete, CanOpen, Release, Revoke;
    match o
    case OpTick(now, down) => TickFollows(m, now, down, i);
    case OpAdmit(_, now, down) => TickFollows(m, now, down, i);
    case OpNext(now, down, noKey) =>
      TickFollows(m, now, down, i);
      ScanFollows(Tick(m, now, down), now, noKey, |m.pairs|, i);
      Chain(m.pairs[i], Tick(m, now, down).pairs[i], Apply(m, o).0.pairs[i], false);
    case OpComplete(_, _, _, _) => CompleteFollows(m, o, i);
    case OpSignal(_, _, _, _, _, _) => SignalFollows(m, o, i);
    case OpRekey(_, _, _, _, _) => RekeyFollows(m, o, i);
    case OpRenew(_, _, _, _, _, _) => RenewFollows(m, o, i);
    case OpRelease(_) => ReleaseFollows(m, o, i);
    case OpEventSent(_) => QuietFollows(m.pairs[i]);
    case _ =>
  }

  // ---- tokens over whole runs --------------------------------------------

  /** Generations only grow, so a token that no longer names a slot never will again. */
  lemma {:induction false} ScanGeneration(m: Manager, now: nat, noKey: set<nat>, n: nat)
    ensures Scan(m, now, noKey, n).0.generation == m.generation
    decreases n
  {
    if n != 0 && |m.pairs| != 0 {
      ScanGeneration(ScanOne(m, now, noKey).0, now, noKey, n - 1);
    }
  }

  lemma ApplyGeneration(m: Manager, o: Op)
    ensures Apply(m, o).0.generation >= m.generation
  {
    hide CanOpen, CompleteAssoc, SignalAssoc, RekeyAssoc, Revoke, Admits, Live, ScanOne;
    if o.OpNext? {
      ScanGeneration(Tick(m, o.now, o.down), o.now, o.noKey, |m.pairs|);
    }
  }

  lemma {:induction false} ScanUnused(m: Manager, now: nat, noKey: set<nat>, n: nat, i: nat)
    requires i < |m.pairs| && !m.pairs[i].used
    ensures !Scan(m, now, noKey, n).0.pairs[i].used
    decreases n
  {
    hide NextAction, Revoke, IssueAssoc;
    if n != 0 {
      ScanUnused(ScanOne(m, now, noKey).0, now, noKey, n - 1, i);
    }
  }

  /** Only an open puts a pair into an empty slot. */
  lemma ApplyUnused(m: Manager, o: Op, i: nat)
    requires i < |m.pairs| && !m.pairs[i].used && !o.OpOpen?
    ensures i < |Apply(m, o).0.pairs| && !Apply(m, o).0.pairs[i].used
  {
    ApplySize(m, o);
    hide CompleteAssoc, SignalAssoc, RekeyAssoc, Revoke, Live, Scan, Matches, SpiBusy, EventScan;
    if o.OpNext? {
      ScanUnused(Tick(m, o.now, o.down), o.now, o.noKey, |m.pairs|, i);
    }
  }

  lemma NewToken(m: Manager, o: Op, t: Token)
    requires Inv(m) && Find(m, t).None? && Find(Apply(m, o).0, t).Some?
    ensures o.OpOpen? && t.generation == m.generation + 1 && Apply(m, o).0.pairs[t.slot].phase.RX?
  {
    ApplySize(m, o);
    hide Inv, CanOpen, Follows;
    if m.pairs[t.slot].used {
      ApplyFollows(m, o, t.slot);
      assert Follows(m.pairs[t.slot], Apply(m, o).0.pairs[t.slot], Accepts(m, o, t.slot));
      SameToken(m.pairs[t.slot], Apply(m, o).0.pairs[t.slot], Accepts(m, o, t.slot));
    } else if !o.OpOpen? {
      ApplyUnused(m, o, t.slot);
    }
  }

  lemma SameToken(a: Assoc, b: Assoc, done: bool)
    requires Follows(a, b, done)
    ensures b.token == a.token
  {
  }

  /** The pair a token names, if any. */
  function PairOf(m: Manager, t: Token): Option<Assoc>
  {
    if Find(m, t).Some? then Some(m.pairs[t.slot]) else None
  }

  /** One call seen from one token: the pair follows, is released, stays away, or is opened in phase RX. */
  lemma ApplyToken(m: Manager, o: Op, t: Token)
    requires Inv(m)
    ensures var n := Apply(m, o).0; var p, q := PairOf(m, t), PairOf(n, t);
            && n.generation >= m.generation && Inv(n)
            && (p.Some? && q.Some? ==> Follows(p.value, q.value, Accepts(m, o, t.slot)) && PairInv(q.value))
            && (p.Some? && q.None? ==> p.value.phase.DEAD? && p.value.revoking && Released(m, o, t.slot))
            && (p.None? && q.Some? ==> t.generation > m.generation && q.value.phase.RX? && !Accepts(m, o, t.slot))
  {
    ApplyKeeps(m, o);
    ApplyGeneration(m, o);
    ApplySize(m, o);
    var n := Apply(m, o).0;
    if Find(m, t).Some? {
      ApplyFollows(m, o, t.slot);
      assert m.pairs[t.slot].token.generation == t.generation;
    } else if Find(n, t).Some? {
      NewToken(m, o, t);
    }
  }

  // ---- theorems over runs ------------------------------------------------

  /** Completions accepted for the token during a run. */
  function Accepted(m: Manager, ops: seq<Op>, t: Token): nat
    decreases |ops|
  {
    if ops == [] then 0
    else (if Find(m, t).Some? && Accepts(m, ops[0], t.slot) then 1 else 0) + Accepted(Apply(m, ops[0]).0, ops[1..], t)
  }

  /**
   Revocation is final: whatever happens next, the token names no pair or a
   revoked one, so it is never admitted again and no lease of it is renewed.
   */
  lemma {:induction false} RevocationIsFinal(m: Manager, ops: seq<Op>, t: Token)
    requires Inv(m) && t.generation <= m.generation
    requires PairOf(m, t).Some? ==> PairOf(m, t).value.revoking
    ensures var n := Run(m, ops);
            && (PairOf(n, t).Some? ==> PairOf(n, t).value.revoking)
            && (forall now, down :: Apply(n, OpAdmit(t, now, down)).1 == Code(0))
            && (forall source, g, until, now, down :: Apply(n, OpRenew(t, source, g, until, now, down)).1 == Code(-1))
    decreases |ops|
  {
    if ops == [] {
      NeverAdmits(m, t);
    } else {
      ApplyToken(m, ops[0], t);
      RevocationIsFinal(Apply(m, ops[0]).0, ops[1..], t);
    }
  }

  lemma NeverAdmits(m: Manager, t: Token)
    requires Inv(m) && (PairOf(m, t).Some? ==> PairOf(m, t).value.revoking)
    ensures forall now, down :: Apply(m, OpAdmit(t, now, down)).1 == Code(0)
    ensures forall source, g, until, now, down :: Apply(m, OpRenew(t, source, g, until, now, down)).1 == Code(-1)
  {
    forall now, down
      ensures Find(Tick(m, now, down), t).Some? ==> !Live(Tick(m, now, down).pairs[t.slot], now, down)
    {
      if Find(m, t).Some? {
        TickFollows(m, now, down, t.slot);
      }
    }
  }

  // ---- what quarantines a pair -------------------------------------------

  /** An accepted report that leaves the hardware state unknown. */
  predicate Condemns(m: Manager, o: Op, i: nat)
  {
    Accepts(m, o, i) && Quarantines(Tick(m, o.now, o.down).pairs[i], o.status)
  }

  lemma TickUnquarantined(m: Manager, now: nat, down: set<nat>, i: nat)
    requires Inv(m) && i < |m.pairs| && !m.pairs[i].phase.QUARANTINED?
    ensures !Tick(m, now, down).pairs[i].phase.QUARANTINED? && Tick(m, now, down).operation == m.operation
  {
    hide EpochsInv, LanesValid, AllExclusive, PairInv;
  }

  lemma {:induction false} ScanUnquarantined(m: Manager, now: nat, noKey: set<nat>, n: nat, i: nat)
    requires i < |m.pairs| && !m.pairs[i].phase.QUARANTINED? && m.operation != U64_MAX
    ensures !Scan(m, now, noKey, n).0.pairs[i].phase.QUARANTINED?
    decreases n
  {
    if n != 0 {
      var (m1, r) := ScanOne(m, now, noKey);
      assert r.None? ==> m1.operation == m.operation;
      assert |m1.pairs| == |m.pairs| && !m1.pairs[i].phase.QUARANTINED?;
      hide ScanOne;
      if r.None? {
        ScanUnquarantined(m1, now, noKey, n - 1, i);
      }
    }
  }

  lemma CompleteQuarantines(m: Manager, o: Op, i: nat)
    requires Inv(m) && i < |m.pairs| && m.pairs[i].used && !m.pairs[i].phase.QUARANTINED? && o.OpComplete?
    ensures Complete(m, o).0.pairs[i].phase.QUARANTINED? <==> Condemns(m, o, i)
  {
    TickUnquarantined(m, o.now, o.down, i);
    TickKeeps(m, o.now, o.down);
    hide Inv, Tick, Advance;
    var t := Tick(m, o.now, o.down);
    if Accepts(m, o, i) && Succeeds(t.pairs[i], o.status) {
      assert !Advance(t.pairs[i], t.pairs[i].action, o.now, m.limits.overlap).phase.QUARANTINED? by {
        AdvanceStays(t.pairs[i], o.now, m.limits.overlap);
      }
    }
  }

  lemma AdvanceStays(a: Assoc, now: nat, overlap: nat)
    requires !a.phase.QUARANTINED?
    ensures !Advance(a, a.action, now, overlap).phase.QUARANTINED?
  {
  }

  /**
   A pair turns QUARANTINED only by an accepted report that condemns it, and
   always by one, or by an issue once operation numbers have run out.
   */
  lemma QuarantineCause(m: Manager, o: Op, i: nat)
    requires Inv(m) && i < |m.pairs| && m.pairs[i].used && !m.pairs[i].phase.QUARANTINED?
    ensures var n := Apply(m, o).0;
            && i < |n.pairs| && (Condemns(m, o, i) ==> n.pairs[i].phase.QUARANTINED?)
            && (n.pairs[i].phase.QUARANTINED? ==> Condemns(m, o, i) || (o.OpNext? && m.operation == U64_MAX))
  {
    hide Inv, Tick, Scan, SignalStep, Rekey, Renew, Complete, Open, Release;
    ApplySize(m, o);
    match o
    case OpOpen(_, _, _, _, _, _, _, _) => OpenElsewhere(m, o, i);
    case OpTick(now, down) => TickUnquarantined(m, now, down, i);
    case OpAdmit(_, now, down) => TickUnquarantined(m, now, down, i);
    case OpNext(now, down, noKey) =>
      TickUnquarantined(m, now, down, i);
      if m.operation != U64_MAX {
        ScanUnquarantined(Tick(m, now, down), now, noKey, |m.pairs|, i);
      }
    case OpComplete(_, _, _, _) => CompleteQuarantines(m, o, i);
    case OpSignal(_, _, _, _, _, _) => CallUnquarantined(m, o, i);
    case OpRekey(_, _, _, _, _) => CallUnquarantined(m, o, i);
    case OpRenew(_, _, _, _, _, _) => CallUnquarantined(m, o, i);
    case OpRelease(_) => ReleaseUnquarantined(m, o, i);
    case _ =>
  }

  lemma OpenElsewhere(m: Manager, o: Op, i: nat)
    requires i < |m.pairs| && m.pairs[i].used && o.OpOpen?
    ensures Open(m, o).0.pairs[i] == m.pairs[i]
  {
    hide CanOpen, Opened;
  }

  lemma CallUnquarantined(m: Manager, o: Op, i: nat)
    requires Inv(m) && i < |m.pairs| && !m.pairs[i].phase.QUARANTINED? && (o.OpSignal? || o.OpRekey? || o.OpRenew?)
    ensures o.OpSignal? ==> !SignalStep(m, o).0.pairs[i].phase.QUARANTINED?
    ensures o.OpRekey? ==> !Rekey(m, o).0.pairs[i].phase.QUARANTINED?
    ensures o.OpRenew? ==> !Renew(m, o).0.pairs[i].phase.QUARANTINED?
  {
    hide Inv, Live, SpiBusy, TickAssoc;
    TickUnquarantined(m, o.now, o.down, i);
  }

  lemma ReleaseUnquarantined(m: Manager, o: Op, i: nat)
    requires i < |m.pairs| && !m.pairs[i].phase.QUARANTINED? && o.OpRelease?
    ensures !Release(m, o.token).0.pairs[i].phase.QUARANTINED?
  {
  }

  /** Every report accepted for the token is a success and operation numbers do not run out. */
  predicate Succeeding(m: Manager, ops: seq<Op>, t: Token)
    decreases |ops|
  {
    ops == [] || (
      && (Find(m, t).Some? && Accepts(m, ops[0], t.slot) ==> ops[0].status == 0)
      && (ops[0].OpNext? ==> m.operation != U64_MAX)
      && Succeeding(Apply(m, ops[0]).0, ops[1..], t))
  }

  /**
   A revoked pair whose reports succeed is never quarantined unless operation
   numbers run out. It has left to go exactly what it had to go at the start
   less the completions since: at most four, after which it is DEAD, and it
   leaves its slot only then.
   */
  lemma {:induction false} FourCompletions(m: Manager, ops: seq<Op>, t: Token)
    requires Inv(m) && PairOf(m, t).Some? && PairOf(m, t).value.revoking
    requires !PairOf(m, t).value.phase.QUARANTINED? && Succeeding(m, ops, t)
    ensures var a, q := PairOf(m, t).value, PairOf(Run(m, ops), t);
            && Accepted(m, ops, t) <= Rank(a) <= 4
            && (q.Some? ==> !q.value.phase.QUARANTINED? && Rank(a) == Rank(q.value) + Accepted(m, ops, t))
            && (q.None? || q.value.phase.DEAD? <==> Accepted(m, ops, t) == Rank(a))
    decreases |ops|
  {
    if ops != [] {
      var n := Apply(m, ops[0]).0;
      ApplyToken(m, ops[0], t);
      QuarantineCause(m, ops[0], t.slot);
      if PairOf(n, t).None? {
        assert !Accepts(m, ops[0], t.slot);
        StaysAway(n, ops[1..], t);
      } else {
        FourCompletions(n, ops[1..], t);
      }
    }
  }

  /** A token whose pair is gone stays unknown. */
  lemma {:induction false} StaysAway(m: Manager, ops: seq<Op>, t: Token)
    requires Inv(m) && PairOf(m, t).None? && t.generation <= m.generation
    ensures PairOf(Run(m, ops), t).None? && Accepted(m, ops, t) == 0
    decreases |ops|
  {
    if ops != [] {
      ApplyToken(m, ops[0], t);
      StaysAway(Apply(m, ops[0]).0, ops[1..], t);
    }
  }

  /** A quarantined pair stays quarantined in its slot and keeps every reservation, for the rest of the run. */
  lemma {:induction false} QuarantineIsFinal(m: Manager, ops: seq<Op>, t: Token)
    requires Inv(m) && PairOf(m, t).Some?
    ensures PairOf(m, t).value.phase.QUARANTINED? ==>
              PairOf(Run(m, ops), t).Some? && PairOf(Run(m, ops), t).value.phase.QUARANTINED?
              && Holds(PairOf(m, t).value, PairOf(Run(m, ops), t).value)
    decreases |ops|
  {
    if ops != [] && PairOf(m, t).value.phase.QUARANTINED? {
      ApplyToken(m, ops[0], t);
      QuarantineIsFinal(Apply(m, ops[0]).0, ops[1..], t);
    }
  }

  // ---- the order of teardown ---------------------------------------------

  /** The operation this call completes successfully for the token, if any. */
  function Won(m: Manager, o: Op, t: Token): seq<Action>
  {
    if Find(m, t).Some? && Accepts(m, o, t.slot) && Succeeds(Tick(m, o.now, o.down).pairs[t.slot], o.status)
    then [o.request.action] else []
  }

  /** Operations completed successfully for the token during a run, in order. */
  function History(m: Manager, ops: seq<Op>, t: Token): seq<Action>
    decreases |ops|
  {
    if ops == [] then [] else Won(m, ops[0], t) + History(Apply(m, ops[0]).0, ops[1..], t)
  }

  predicate EndsWith(h: seq<Action>, s: seq<Action>)
  {
    |s| <= |h| && h[|h| - |s|..] == s
  }

  /** How far a pair is in teardown is what its history says. */
  predicate Earned(a: Assoc, h: seq<Action>)
  {
    && (a.phase.DESTROY? ==> EndsWith(h, [Block]))
    && (a.phase.REMOVE? ==> EndsWith(h, [Block, DestroyQps]))
    && (a.phase.DEAD? ==> EndsWith(h, [Block, DestroyQps, RemoveAll]))
  }

  predicate TokenEarned(m: Manager, t: Token, h: seq<Action>)
  {
    if PairOf(m, t).Some? then Earned(PairOf(m, t).value, h) else t.generation > m.generation ==> h == []
  }

  lemma CompletionEarns(a: Assoc, h: seq<Action>, status: int, now: nat, overlap: nat)
    requires PhaseInv(a) && a.pending != 0 && Earned(a, h) && -2 <= status <= 0
    ensures Earned(CompleteAssoc(a, status, now, overlap), h + if Succeeds(a, status) then [a.action] else [])
  {
    hide Revoke;
    var b := CompleteAssoc(a, status, now, overlap);
    if !Quarantines(a, status) && !Succeeds(a, status) {
      assert b.phase.BLOCK? by { AbortBlocks(a); }
    }
  }

  lemma AbortBlocks(a: Assoc)
    requires PhaseInv(a) && a.pending != 0 && (a.revoking ==> Builds(a.action))
    ensures Revoke(a.(pending := 0)).phase.BLOCK?
  {
  }

  lemma PairAt(m: Manager, i: nat)
    requires Inv(m) && i < |m.pairs| && m.pairs[i].used
    ensures PairInv(m.pairs[i])
  {
  }

  lemma AcceptedResult(m: Manager, o: Op, i: nat)
    requires Accepts(m, o, i)
    ensures |Apply(m, o).0.pairs| == |m.pairs| > i && o.request.action == Tick(m, o.now, o.down).pairs[i].action
    ensures Apply(m, o).0.pairs[i] == CompleteAssoc(Tick(m, o.now, o.down).pairs[i], o.status, o.now, m.limits.overlap)
  {
    hide CompleteAssoc;
  }

  lemma StillEarned(a: Assoc, b: Assoc, h: seq<Action>)
    requires Follows(a, b, false) && Earned(a, h)
    ensures Earned(b, h)
  {
  }

  lemma FreshEarned(a: Assoc, h: seq<Action>)
    requires a.phase.RX?
    ensures Earned(a, h)
  {
  }

  lemma Earns(m: Manager, o: Op, t: Token, b: Assoc, h: seq<Action>)
    requires Find(m, t).Some? && Accepts(m, o, t.slot) && b == Tick(m, o.now, o.down).pairs[t.slot]
    requires PairInv(b) && Earned(b, h)
    ensures Earned(CompleteAssoc(b, o.status, o.now, m.limits.overlap), h + Won(m, o, t))
  {
    hide Tick, Earned, CompleteAssoc, EpochsInv, LanesValid;
    CompletionEarns(b, h, o.status, o.now, m.limits.overlap);
  }

  lemma ApplyEarns(m: Manager, o: Op, t: Token, h: seq<Action>)
    requires Inv(m) && TokenEarned(m, t, h)
    ensures TokenEarned(Apply(m, o).0, t, h + Won(m, o, t))
  {
    ApplyToken(m, o, t);
    hide Inv, Apply, Tick, CompleteAssoc, Follows, Earned, PairInv;
    assert h + [] == h;
    var p, q := PairOf(m, t), PairOf(Apply(m, o).0, t);
    if p.Some? && Accepts(m, o, t.slot) {
      AcceptedResult(m, o, t.slot);
      TickFollows(m, o.now, o.down, t.slot);
      var b := Tick(m, o.now, o.down).pairs[t.slot];
      PairAt(Tick(m, o.now, o.down), t.slot);
      StillEarned(p.value, b, h);
      Earns(m, o, t, b, h);
    } else if p.Some? && q.Some? {
      StillEarned(p.value, q.value, h);
    } else if q.Some? {
      assert Earned(q.value, h) by { FreshEarned(q.value, h); }
    }
  }

  /**
   DEAD means that the last three operations the hardware completed for the
   pair were the block, the destruction of its queue pairs and the removal of
   every flow, in that order.
   */
  lemma {:induction false} DeadThroughTeardown(m: Manager, ops: seq<Op>, t: Token, h: seq<Action>)
    requires Inv(m) && TokenEarned(m, t, h)
    ensures TokenEarned(Run(m, ops), t, h + History(m, ops, t))
    decreases |ops|
  {
    hide Inv, Apply, TokenEarned, Won;
    if ops == [] {
      assert h + [] == h;
    } else {
      ApplyEarns(m, ops[0], t, h);
      ApplyKeeps(m, ops[0]);
      var n := Apply(m, ops[0]).0;
      DeadThroughTeardown(n, ops[1..], t, h + Won(m, ops[0], t));
      assert h + Won(m, ops[0], t) + History(n, ops[1..], t) == h + (Won(m, ops[0], t) + History(n, ops[1..], t));
    }
  }

  lemma TeardownOrder(l: Limits, id: nat, ops: seq<Op>, t: Token)
    requires LimitsValid(l) && t.generation > 0
    ensures var m := Run(Fresh(l, id), ops);
            PairOf(m, t).Some? && PairOf(m, t).value.phase.DEAD? ==>
              EndsWith(History(Fresh(l, id), ops, t), [Block, DestroyQps, RemoveAll])
  {
    SumEmpty(Fresh(l, id).pairs, l.pairs);
    assert Inv(Fresh(l, id));
    DeadThroughTeardown(Fresh(l, id), ops, t, []);
    assert [] + History(Fresh(l, id), ops, t) == History(Fresh(l, id), ops, t);
  }

  // ---- stale and duplicate completions -----------------------------------

  /** A completion that is not for the exact outstanding operation is refused and only lets time pass. */
  lemma StaleCompletion(m: Manager, o: Op)
    requires o.OpComplete? && -2 <= o.status <= 0
    ensures (Apply(m, o).1 == Code(1) <==> forall i :: !Accepts(m, o, i))
    ensures Apply(m, o).1 == Code(1) ==> Apply(m, o).0 == Tick(m, o.now, o.down)
    ensures Apply(m, o).1 == Code(1) || Apply(m, o).1 == Code(0)
  {
    hide Matches, CompleteAssoc;
    var f := Find(Tick(m, o.now, o.down), o.request.token);
    if f.Some? && Matches(Tick(m, o.now, o.down).pairs[f.value], o.request) {
      assert Accepts(m, o, f.value);
    }
  }

  /** Reporting the same request twice: the second report is stale, whatever its status. */
  lemma DuplicateIsStale(m: Manager, o: Op, again: Op)
    requires Inv(m) && o.OpComplete? && again.OpComplete? && -2 <= again.status <= 0
    requires again.request == o.request && Apply(m, o).1 == Code(0)
    ensures Apply(Apply(m, o).0, again).1 == Code(1)
  {
    var n := Apply(m, o).0;
    var i := Find(Tick(m, o.now, o.down), o.request.token).value;
    assert n.pairs[i].pending == 0 by { hide Tick; }
    var t := Tick(n, again.now, again.down);
    assert t.pairs[i].pending == 0;
    if Find(t, again.request.token).Some? {
      assert !Matches(t.pairs[i], again.request);
    }
  }
}
