/**
 The control session between two nodes (doca/peer_control.c). Each end queues
 frames in a bounded ring and hands them one at a time to the secure channel,
 which delivers its bytes in order; the other end reads those bytes in whatever
 pieces they come, and processes whole frames from the front of a bounded
 buffer. A frame that cannot be processed yet stays there and is tried again.

 Here the channel is represented by positions in the sender's byte stream;
 ControlWire puts the bytes in their place.
 */
module ControlSession {

  const QUEUE: nat := 8
  const HEADER_LEN: nat := 64
  const FRAME_MAX: nat := 64 + 16384
  const CLOCK_MAX: nat := 0xFFFF_FFFF_FFFF_FFFF

  datatype Kind = Hello | Ping(challenge: nat) | Pong(challenge: nat) | Message(body: int)

  datatype Frame = Frame(op: nat, kind: Kind, size: nat)

  /**
   What the message callback answers: taken, try again, or a protocol fault. For
   a greeting, a fault is one that does not name the cluster, node and key
   expected of the peer.
   */
  datatype Answer = Accept | Retry | Refuse

  /**
   One end. `log` is every frame it ever queued, of which the first `written`
   went to the channel; `readPos` is how far it has read the peer's stream and
   `taken` how many frames it has taken off it; `processed` are the frames it has
   handled, `received` the last operation handled.
   */
  datatype End = End(
    log: seq<Frame>, written: nat,
    readPos: nat, taken: nat, received: nat, processed: seq<Frame>,
    ready: bool, pingPending: bool, challenge: nat, nextPing: nat,
    lastNow: nat, setupDeadline: nat, leaseDeadline: nat, authorityDeadline: nat, authorityGeneration: nat,
    leaseNs: nat, faulted: bool)

  datatype Step =
    | Look(now: nat) | Break | Greet(size: nat) | Send(body: int, size: nat) | Challenge(c: nat)
    | Write | Read(n: nat) | Consume(answer: Answer)
    | Authority(generation: nat, deadline: nat, now: nat)

  function After(now: nat, delta: nat): nat { if now + delta > CLOCK_MAX then CLOCK_MAX else now + delta }

  /** The next challenge is due a third of a lease later. */
  function PingAfter(now: nat, lease: nat): nat { After(now, lease / 3) }

  /** Bytes of the first `n` frames. */
  function Bytes(log: seq<Frame>, n: nat): nat
    requires n <= |log|
  {
    if n == 0 then 0 else Bytes(log, n - 1) + log[n - 1].size
  }

  // ---- queueing ----------------------------------------------------------

  predicate Room(e: End) { |e.log| - e.written < QUEUE }

  /** Queue a frame under the next operation number; a full ring takes nothing. */
  function Enqueued(e: End, kind: Kind, size: nat): End
  {
    if Room(e) then e.(log := e.log + [Frame(|e.log| + 1, kind, size)]) else e
  }

  // ---- time --------------------------------------------------------------

  /** Every deadline that applies has passed, or the clock went backwards. */
  predicate Expired(e: End, now: nat)
  {
    || now < e.lastNow || now >= e.authorityDeadline
    || (!e.ready && now >= e.setupDeadline) || (e.ready && now >= e.leaseDeadline)
  }

  function Looked(e: End, now: nat): End
  {
    if e.faulted || Expired(e, now) then e.(faulted := true) else e.(lastNow := now)
  }

  function Authorized(e: End, generation: nat, deadline: nat, now: nat): End
  {
    if e.faulted || Expired(e, now) || generation <= e.authorityGeneration || deadline <= now then e
    else e.(authorityGeneration := generation, authorityDeadline := deadline, lastNow := now)
  }

  // ---- processing --------------------------------------------------------

  /** One frame off the front of the buffer. */
  datatype Outcome = Processed | Repeated | Blocked | Fault

  /** A repeat of the last operation is dropped if it is the same frame and a fault otherwise. */
  function Judge(e: End, f: Frame, answer: Answer): Outcome
  {
    if f.op == e.received then
      (if e.processed != [] && f == e.processed[|e.processed| - 1] then Repeated else Fault)
    else if f.op != e.received + 1 then Fault
    else if !e.ready then (if f.kind.Hello? && f.op == 1 && !answer.Refuse? then Processed else Fault)
    else
      match f.kind
      case Hello => Fault
      case Ping(_) => if Room(e) then Processed else Blocked
      case Pong(c) => if e.pingPending && c == e.challenge then Processed else Fault
      case Message(_) => (match answer case Accept => Processed case Retry => Blocked case Refuse => Fault)
  }

  /** What processing a frame does besides counting it. */
  function Handled(e: End, f: Frame): End
  {
    e.(log := if e.ready && f.kind.Ping?
              then e.log + [Frame(|e.log| + 1, Pong(f.kind.challenge), HEADER_LEN + 16)] else e.log,
       ready := true,
       pingPending := if e.ready && f.kind.Pong? then false else e.pingPending,
       leaseDeadline := if !e.ready || f.kind.Pong? then After(e.lastNow, e.leaseNs) else e.leaseDeadline,
       nextPing := if !e.ready then e.lastNow else if f.kind.Pong? then PingAfter(e.lastNow, e.leaseNs) else e.nextPing,
       taken := e.taken + 1, received := f.op, processed := e.processed + [f])
  }

  function Consumed(e: End, peer: End, answer: Answer): End
    requires e.taken <= |peer.log|
  {
    var k := e.taken;
    if k == |peer.log| || e.readPos < Bytes(peer.log, k) + peer.log[k].size then e
    else
      var f := peer.log[k];
      match Judge(e, f, answer)
      case Processed => Handled(e, f)
      case Repeated => e.(taken := k + 1)
      case Blocked => e
      case Fault => e.(faulted := true)
  }

  /** Bytes waiting in the plaintext buffer. */
  function Buffered(e: End, peer: End): int
    requires e.taken <= |peer.log|
  {
    e.readPos - Bytes(peer.log, e.taken)
  }

  ghost predicate Enabled(e: End, peer: End, x: Step)
  {
    && e.taken <= |peer.log| && peer.written <= |peer.log|
    && match x
       case Look(_) => true
       case Break => true
       case Greet(size) => !e.faulted && e.log == [] && HEADER_LEN <= size <= FRAME_MAX
       case Send(_, size) => !e.faulted && e.ready && HEADER_LEN <= size <= FRAME_MAX
       case Challenge(_) => !e.faulted && e.ready && !e.pingPending && Room(e)
       case Write => !e.faulted && e.written < |e.log|
       case Read(n) =>
         !e.faulted && e.readPos + n <= Bytes(peer.log, peer.written) && Buffered(e, peer) + n <= FRAME_MAX
       case Consume(_) => !e.faulted && e.log != []
       case Authority(_, _, _) => true
  }

  ghost function Next(e: End, peer: End, x: Step): End
    requires Enabled(e, peer, x)
  {
    match x
    case Look(now) => Looked(e, now)
    case Break => e.(faulted := true)
    case Greet(size) => Enqueued(e, Hello, size)
    case Send(body, size) => Enqueued(e, Message(body), size)
    case Challenge(c) => Enqueued(e, Ping(c), HEADER_LEN + 16).(pingPending := true, challenge := c)
    case Write => e.(written := e.written + 1)
    case Read(n) => e.(readPos := e.readPos + n)
    case Consume(answer) => Consumed(e, peer, answer)
    case Authority(generation, deadline, now) => Authorized(e, generation, deadline, now)
  }

  // ---- invariant ---------------------------------------------------------

  function Pings(log: seq<Frame>, n: nat): seq<nat>
    requires n <= |log|
  {
    if n == 0 then [] else Pings(log, n - 1) + if log[n - 1].kind.Ping? then [log[n - 1].kind.challenge] else []
  }

  function Pongs(log: seq<Frame>, n: nat): seq<nat>
    requires n <= |log|
  {
    if n == 0 then [] else Pongs(log, n - 1) + if log[n - 1].kind.Pong? then [log[n - 1].kind.challenge] else []
  }

  /** Frames are numbered from one, fit a buffer, and only the first greets. */
  predicate LogOk(e: End)
  {
    && e.written <= |e.log| && |e.log| - e.written <= QUEUE
    && (forall i :: 0 <= i < |e.log| ==>
          e.log[i].op == i + 1 && HEADER_LEN <= e.log[i].size <= FRAME_MAX && (e.log[i].kind.Hello? <==> i == 0))
  }

  /** What `y` has processed is the front of what `x` queued, and it has read no further than `x` wrote. */
  predicate Delivered(x: End, y: End)
  {
    && |y.processed| <= x.written <= |x.log| && y.processed == x.log[..|y.processed|]
    && y.received == y.taken == |y.processed|
    && Bytes(x.log, |y.processed|) <= y.readPos <= Bytes(x.log, x.written)
    && y.readPos <= Bytes(x.log, |y.processed|) + FRAME_MAX
    && (y.ready <==> y.processed != []) && (y.ready ==> y.log != [])
  }

  /** Each challenge `x` sent is answered once, in order, by `y`; at most one is open. */
  predicate Answered(x: End, y: End)
    requires |y.processed| <= |x.log| && |x.processed| <= |y.log|
  {
    && Pongs(y.log, |y.log|) == Pings(x.log, |y.processed|)
    && Pings(x.log, |x.log|) == Pongs(y.log, |x.processed|) + if x.pingPending then [x.challenge] else []
  }

  ghost predicate PairOk(x: End, y: End)
  {
    LogOk(x) && LogOk(y) && Delivered(x, y) && Delivered(y, x) && Answered(x, y) && Answered(y, x)
  }

  // ---- lists -------------------------------------------------------------

  /** What is known about a log is known about it after it grows. */
  lemma {:induction false} Grown(a: seq<Frame>, b: seq<Frame>, n: nat)
    requires n <= |a| <= |b| && a == b[..|a|]
    ensures Bytes(b, n) == Bytes(a, n) && Pings(b, n) == Pings(a, n) && Pongs(b, n) == Pongs(a, n)
  {
    if n > 0 {
      Grown(a, b, n - 1);
    }
  }

  lemma {:induction false} BytesGrow(log: seq<Frame>, m: nat, n: nat)
    requires m <= n <= |log|
    ensures Bytes(log, m) <= Bytes(log, n)
    ensures m < n ==> Bytes(log, m) + log[m].size <= Bytes(log, n)
  {
    if m < n {
      BytesGrow(log, m, n - 1);
    }
  }

  lemma {:induction false} PongsGrow(log: seq<Frame>, m: nat, n: nat)
    requires m <= n <= |log|
    ensures Pongs(log, m) <= Pongs(log, n)
    ensures m < n && log[m].kind.Pong? ==> Pongs(log, m) + [log[m].kind.challenge] <= Pongs(log, n)
  {
    if m < n {
      PongsGrow(log, m, n - 1);
    }
  }

  lemma {:induction false} PingsGrow(log: seq<Frame>, m: nat, n: nat)
    requires m <= n <= |log|
    ensures Pings(log, m) <= Pings(log, n)
  {
    if m < n {
      PingsGrow(log, m, n - 1);
    }
  }

  // ---- steps -------------------------------------------------------------

  lemma AppendDelivered(x: End, y: End, x': End, f: Frame)
    requires Delivered(x, y) && x' == x.(log := x.log + [f], pingPending := x'.pingPending, challenge := x'.challenge)
    ensures Delivered(x', y)
  {
    Grown(x.log, x'.log, |y.processed|);
    Grown(x.log, x'.log, x.written);
  }

  /** A queued frame that is no pong and no ping leaves the answers as they are; a ping opens one. */
  lemma AppendAnswered(x: End, y: End, x': End, f: Frame)
    requires |y.processed| <= |x.log| && |x.processed| <= |y.log| && Answered(x, y) && Answered(y, x)
    requires !f.kind.Pong? && x'.log == x.log + [f] && x'.processed == x.processed
    requires if f.kind.Ping? then !x.pingPending && x'.pingPending && x'.challenge == f.kind.challenge
             else x'.pingPending == x.pingPending && x'.challenge == x.challenge
    ensures Answered(x', y) && Answered(y, x')
  {
    Grown(x.log, x'.log, |x.log|);
    Grown(x.log, x'.log, |y.processed|);
  }

  lemma EnqueueKeeps(x: End, y: End, kind: Kind, size: nat, x': End)
    requires PairOk(x, y) && Room(x) && HEADER_LEN <= size <= FRAME_MAX && !kind.Pong? && (kind.Hello? <==> x.log == [])
    requires x' == x.(log := x.log + [Frame(|x.log| + 1, kind, size)], pingPending := x'.pingPending,
                      challenge := x'.challenge)
    requires if kind.Ping? then !x.pingPending && x'.pingPending && x'.challenge == kind.challenge
             else x'.pingPending == x.pingPending && x'.challenge == x.challenge
    ensures PairOk(x', y)
  {
    hide Bytes, Pings, Pongs;
    var f := Frame(|x.log| + 1, kind, size);
    AppendDelivered(x, y, x', f);
    AppendAnswered(x, y, x', f);
  }

  lemma WriteKeeps(x: End, y: End)
    requires PairOk(x, y) && x.written < |x.log|
    ensures PairOk(x.(written := x.written + 1), y)
  {
    BytesGrow(x.log, x.written, x.written + 1);
    hide Bytes, Pings, Pongs;
  }

  lemma ReadKeeps(x: End, y: End, n: nat)
    requires PairOk(x, y) && x.readPos + n <= Bytes(y.log, y.written) && Buffered(x, y) + n <= FRAME_MAX
    ensures PairOk(x.(readPos := x.readPos + n), y)
  {
    hide Bytes, Pings, Pongs;
  }

  lemma OnlyOpen(a: seq<nat>, b: seq<nat>, open_: bool, c: nat, challenge: nat)
    requires a + [c] <= b && b <= a + (if open_ then [challenge] else [])
    ensures open_ && c == challenge
  {
    assert (a + [c])[|a|] == c;
    assert |b| >= |a| + 1 && b[|a|] == c;
    assert open_ ==> (a + [challenge])[|a|] == challenge;
  }

  /** A pong at the front answers the one challenge still open. */
  lemma PongIsExpected(x: End, y: End)
    requires PairOk(x, y) && x.taken < |y.log| && y.log[x.taken].kind.Pong?
    ensures x.pingPending && y.log[x.taken].kind.challenge == x.challenge
  {
    hide Bytes, Pings, Pongs, LogOk;
    var k := x.taken;
    PongsGrow(y.log, k, |y.log|);
    PingsGrow(x.log, |y.processed|, |x.log|);
    OnlyOpen(Pongs(y.log, k), Pings(x.log, |x.log|), x.pingPending, y.log[k].kind.challenge, x.challenge);
  }

  lemma NextFrame(x: End, y: End)
    requires PairOk(x, y) && x.taken < |y.log|
    ensures y.log[x.taken].op == x.received + 1 && (y.log[x.taken].kind.Hello? <==> !x.ready)
  {
    hide Bytes, Pings, Pongs, Answered;
  }

  lemma WrittenFirst(x: End, y: End)
    requires PairOk(x, y) && x.taken < |y.log| && x.readPos >= Bytes(y.log, x.taken) + y.log[x.taken].size
    ensures x.taken < y.written
  {
    hide Pings, Pongs, Answered;
    if x.taken >= y.written {
      BytesGrow(y.log, y.written, x.taken);
    }
    hide Bytes;
  }

  /** A whole frame at the front is always the next operation, and an honest peer's frame is never a protocol fault. */
  lemma HonestFrame(x: End, y: End, answer: Answer)
    requires PairOk(x, y) && x.taken < |y.log| && x.readPos >= Bytes(y.log, x.taken) + y.log[x.taken].size
    ensures x.taken < y.written && y.log[x.taken].op == x.received + 1
    ensures Judge(x, y.log[x.taken], answer).Fault? ==>
              (y.log[x.taken].kind.Message? || y.log[x.taken].kind.Hello?) && answer.Refuse?
    ensures !Judge(x, y.log[x.taken], answer).Repeated?
    ensures Judge(x, y.log[x.taken], answer).Processed? ==> Judge(x, y.log[x.taken], Accept).Processed?
  {
    hide PairOk, Bytes;
    WrittenFirst(x, y);
    NextFrame(x, y);
    if y.log[x.taken].kind.Pong? {
      PongIsExpected(x, y);
    }
    if !x.ready {
      NotReady(x, y);
    }
  }

  lemma NotReady(x: End, y: End)
    requires PairOk(x, y) && !x.ready
    ensures x.received == 0
  {
    hide Bytes, Pings, Pongs, Answered, LogOk;
  }

  lemma HandleDelivered(x: End, y: End, f: Frame)
    requires PairOk(x, y) && x.taken < y.written && f == y.log[x.taken] && f.op == x.received + 1
    requires x.log != [] && x.readPos >= Bytes(y.log, x.taken) + f.size
    ensures Delivered(y, Handled(x, f))
  {
    hide Pings, Pongs, Answered, LogOk, Bytes;
    BytesNext(y.log, x.taken);
    var x' := Handled(x, f);
    assert y.log[..x.taken + 1] == y.log[..x.taken] + [f];
  }

  lemma BytesNext(log: seq<Frame>, k: nat)
    requires k < |log|
    ensures Bytes(log, k + 1) == Bytes(log, k) + log[k].size
    ensures Pings(log, k + 1) == Pings(log, k) + if log[k].kind.Ping? then [log[k].kind.challenge] else []
    ensures Pongs(log, k + 1) == Pongs(log, k) + if log[k].kind.Pong? then [log[k].kind.challenge] else []
  {
  }

  lemma HandleAnswered(x: End, y: End, f: Frame)
    requires PairOk(x, y) && x.taken < y.written && f == y.log[x.taken]
    requires Judge(x, f, Accept).Processed?
    ensures var x' := Handled(x, f);
            |y.processed| <= |x'.log| && |x'.processed| <= |y.log| && Answered(x', y) && Answered(y, x')
  {
    hide Pings, Pongs, LogOk, Bytes;
    var x', k := Handled(x, f), x.taken;
    NextFrame(x, y);
    BytesNext(y.log, k);
    Grown(x.log, x'.log, |x.log|);
    Grown(x.log, x'.log, |y.processed|);
    if |x'.log| > |x.log| {
      BytesNext(x'.log, |x.log|);
    }
  }

  lemma HandleLog(x: End, y: End, f: Frame)
    requires PairOk(x, y) && Judge(x, f, Accept).Processed? && x.log != []
    ensures LogOk(Handled(x, f)) && Delivered(Handled(x, f), y)
  {
    hide Pings, Pongs;
    var x' := Handled(x, f);
    Grown(x.log, x'.log, |y.processed|);
    Grown(x.log, x'.log, x.written);
    hide Bytes;
  }

  lemma ConsumeKeeps(x: End, y: End, answer: Answer)
    requires PairOk(x, y) && x.log != []
    ensures x.taken <= |y.log| && PairOk(Consumed(x, y, answer), y)
  {
    hide Bytes, Pings, Pongs;
    var k := x.taken;
    if k < |y.log| && x.readPos >= Bytes(y.log, k) + y.log[k].size {
      HonestFrame(x, y, answer);
      var f := y.log[k];
      if Judge(x, f, answer).Processed? {
        HandleDelivered(x, y, f);
        HandleAnswered(x, y, f);
        HandleLog(x, y, f);
      }
    }
  }

  /** Every step of either end keeps the pair in order. */
  lemma StepKeeps(x: End, y: End, s: Step)
    requires PairOk(x, y) && Enabled(x, y, s)
    ensures PairOk(Next(x, y, s), y)
  {
    hide Bytes, Pings, Pongs, Consumed, LogOk, Delivered, Answered;
    match s
    case Greet(size) => GreetKeeps(x, y, size);
    case Send(body, size) => SendKeeps(x, y, body, size);
    case Challenge(c) => ChallengeKeeps(x, y, c);
    case Write => WriteKeeps(x, y);
    case Read(n) => ReadKeeps(x, y, n);
    case Consume(answer) => ConsumeKeeps(x, y, answer);
    case _ => ClockKeeps(x, y, Next(x, y, s));
  }

  lemma GreetKeeps(x: End, y: End, size: nat)
    requires PairOk(x, y) && x.log == [] && HEADER_LEN <= size <= FRAME_MAX
    ensures PairOk(Enqueued(x, Hello, size), y)
  {
    EnqueueKeeps(x, y, Hello, size, Enqueued(x, Hello, size));
  }

  lemma SendKeeps(x: End, y: End, body: int, size: nat)
    requires PairOk(x, y) && x.ready && HEADER_LEN <= size <= FRAME_MAX
    ensures PairOk(Enqueued(x, Message(body), size), y)
  {
    if Room(x) {
      EnqueueKeeps(x, y, Message(body), size, Enqueued(x, Message(body), size));
    }
  }

  lemma ChallengeKeeps(x: End, y: End, c: nat)
    requires PairOk(x, y) && x.ready && !x.pingPending && Room(x)
    ensures PairOk(Enqueued(x, Ping(c), HEADER_LEN + 16).(pingPending := true, challenge := c), y)
  {
    var x' := Enqueued(x, Ping(c), HEADER_LEN + 16).(pingPending := true, challenge := c);
    EnqueueKeeps(x, y, Ping(c), HEADER_LEN + 16, x');
  }

  lemma ClockKeeps(x: End, y: End, x': End)
    requires PairOk(x, y)
    requires x' == x.(lastNow := x'.lastNow, faulted := x'.faulted, authorityDeadline := x'.authorityDeadline,
                      authorityGeneration := x'.authorityGeneration)
    ensures PairOk(x', y)
  {
    hide Bytes, Pings, Pongs;
  }

  // ---- runs --------------------------------------------------------------

  datatype Pair = Pair(a: End, b: End)

  /** A step of one of the two ends. */
  datatype Turn = Turn(first: bool, step: Step)

  ghost predicate Steps(p: Pair, t: Turn, q: Pair)
  {
    if t.first then Enabled(p.a, p.b, t.step) && q == Pair(Next(p.a, p.b, t.step), p.b)
    else Enabled(p.b, p.a, t.step) && q == Pair(p.a, Next(p.b, p.a, t.step))
  }

  predicate Fresh(e: End)
  {
    e.log == [] && e.written == 0 && e.readPos == 0 && e.taken == 0 && e.received == 0 && e.processed == [] &&
    !e.ready && !e.pingPending && !e.faulted
  }

  ghost predicate IsRun(run: seq<Pair>, turns: seq<Turn>)
  {
    && |run| == |turns| + 1 && Fresh(run[0].a) && Fresh(run[0].b)
    && forall i :: 0 <= i < |turns| ==> Steps(run[i], turns[i], run[i + 1])
  }

  lemma Swapped(x: End, y: End)
    requires PairOk(x, y)
    ensures PairOk(y, x)
  {
    hide LogOk, Delivered, Answered;
  }

  lemma FreshOk(x: End, y: End)
    requires Fresh(x) && Fresh(y)
    ensures PairOk(x, y)
  {
  }

  lemma {:induction false} RunKeeps(run: seq<Pair>, turns: seq<Turn>, i: nat)
    requires IsRun(run, turns) && i < |run|
    ensures PairOk(run[i].a, run[i].b)
  {
    hide PairOk, Enabled, Next, Fresh;
    if i == 0 {
      FreshOk(run[0].a, run[0].b);
    } else {
      RunKeeps(run, turns, i - 1);
      var p, t := run[i - 1], turns[i - 1];
      assert Steps(p, t, run[i]);
      if t.first {
        StepKeeps(p.a, p.b, t.step);
      } else {
        Swapped(p.a, p.b);
        StepKeeps(p.b, p.a, t.step);
        Swapped(run[i].b, run[i].a);
      }
    }
  }

  /**
   However bytes are cut up, frames retried and answers held back by a full ring,
   what each end has processed is the front of what the other queued: every frame
   once, in order, under consecutive operations.
   */
  lemma SessionDelivery(run: seq<Pair>, turns: seq<Turn>, i: nat)
    requires IsRun(run, turns) && i < |run|
    ensures var a, b := run[i].a, run[i].b;
            && |b.processed| <= |a.log| && b.processed == a.log[..|b.processed|] && b.received == |b.processed|
            && |a.processed| <= |b.log| && a.processed == b.log[..|a.processed|] && a.received == |a.processed|
            && (forall k :: 0 <= k < |a.log| ==> a.log[k].op == k + 1)
            && (forall k :: 0 <= k < |b.log| ==> b.log[k].op == k + 1)
  {
    RunKeeps(run, turns, i);
    hide Bytes, Pings, Pongs, Answered, Steps, Fresh;
  }

  /**
   An end comes to fault only by a deadline it saw pass, by a failing channel, or
   by refusing a message or the peer's identity itself.
   */
  lemma FaultsOnlyByCause(x: End, y: End, s: Step)
    requires PairOk(x, y) && Enabled(x, y, s) && !x.faulted && Next(x, y, s).faulted
    ensures (s.Look? && Expired(x, s.now)) || s.Break? || (s.Consume? && s.answer.Refuse?)
  {
    hide Bytes, Pings, Pongs, LogOk, Delivered, Answered;
    if s.Consume? && x.taken < |y.log| && x.readPos >= Bytes(y.log, x.taken) + y.log[x.taken].size {
      HonestFrame(x, y, s.answer);
    }
  }

  /** A faulted end stays faulted and neither queues, writes, reads nor processes anything again. */
  lemma FaultIsFinal(x: End, y: End, s: Step)
    requires Enabled(x, y, s) && x.faulted
    ensures Next(x, y, s) == x
  {
  }

  function Of(p: Pair, first: bool): End { if first then p.a else p.b }

  lemma {:induction false} FaultStays(run: seq<Pair>, turns: seq<Turn>, first: bool, i: nat, j: nat)
    requires IsRun(run, turns) && i <= j < |run| && Of(run[i], first).faulted
    ensures Of(run[j], first) == Of(run[i], first)
  {
    hide Enabled, Next, Fresh;
    if i < j {
      FaultStays(run, turns, first, i, j - 1);
      var p, t := run[j - 1], turns[j - 1];
      assert Steps(p, t, run[j]);
      if t.first == first {
        FaultIsFinal(Of(p, first), Of(p, !first), t.step);
      }
    }
  }

  /** A lease or authority deadline that either end has seen pass ends its session for good, whatever comes later. */
  lemma ExpiryIsFinal(run: seq<Pair>, turns: seq<Turn>, i: nat, j: nat)
    requires IsRun(run, turns) && i < j < |run| && turns[i].step.Look?
    requires var e, now := Of(run[i], turns[i].first), turns[i].step.now;
             now >= e.authorityDeadline || (e.ready && now >= e.leaseDeadline)
    ensures var e, e' := Of(run[i], turns[i].first), Of(run[j], turns[i].first);
            e'.faulted && e'.processed == e.processed && e'.log == e.log
  {
    var first := turns[i].first;
    assert Steps(run[i], turns[i], run[i + 1]);
    assert Of(run[i + 1], first) == Looked(Of(run[i], first), turns[i].step.now);
    hide Enabled, Next, Fresh, Steps;
    FaultStays(run, turns, first, i + 1, j);
  }

  /** A frame not yet whole always leaves room to read on: the buffer cannot wedge. */
  lemma RoomForFrame(x: End, y: End)
    requires PairOk(x, y) && x.taken < |y.log| && x.readPos < Bytes(y.log, x.taken) + y.log[x.taken].size
    ensures 0 <= Buffered(x, y) < FRAME_MAX
  {
    hide Bytes, Pings, Pongs, Answered;
  }
}
