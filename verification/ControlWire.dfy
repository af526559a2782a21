/**
 The control session over bytes: the receiver sees nothing but its plaintext
 buffer, finds the length of the frame at its front in the header, and decodes
 the frame once it is whole. It behaves as the session of ControlSession does.
 */
module ControlWire {
  import opened Wrappers
  import opened ControlSession

  /** How frames are written, how long the frame behind a header is, and what a whole frame says. */
  datatype Codec = Codec(written: map<Frame, seq<Byte>>, lengths: map<seq<Byte>, nat>, frames: map<seq<Byte>, Frame>)

  function BytesOf(c: Codec, f: Frame): seq<Byte> { if f in c.written then c.written[f] else [] }

  /** The length of the frame behind a header; nothing is known of a header that was never written. */
  function LengthOf(c: Codec, header: seq<Byte>): nat { if header in c.lengths then c.lengths[header] else 0 }

  function FrameOf(c: Codec, b: seq<Byte>): Frame { if b in c.frames then c.frames[b] else Frame(0, Hello, 0) }

  /** A frame's bytes delimit and determine it. */
  predicate Fits(c: Codec, f: Frame)
  {
    && |BytesOf(c, f)| == f.size >= HEADER_LEN
    && LengthOf(c, BytesOf(c, f)[..HEADER_LEN]) == f.size && FrameOf(c, BytesOf(c, f)) == f
  }

  predicate Delimits(c: Codec, log: seq<Frame>)
  {
    forall i :: 0 <= i < |log| ==> Fits(c, log[i])
  }

  /** The byte stream of the first `n` frames. */
  function Stream(c: Codec, log: seq<Frame>, n: nat): seq<Byte>
    requires n <= |log|
  {
    if n == 0 then [] else Stream(c, log, n - 1) + BytesOf(c, log[n - 1])
  }

  lemma {:induction false} StreamSize(c: Codec, log: seq<Frame>, n: nat)
    requires n <= |log| && Delimits(c, log)
    ensures |Stream(c, log, n)| == Bytes(log, n)
  {
    if n > 0 {
      StreamSize(c, log, n - 1);
      assert Fits(c, log[n - 1]);
    }
  }

  lemma {:induction false} StreamGrows(c: Codec, log: seq<Frame>, log': seq<Frame>, n: nat, n': nat)
    requires n <= |log| <= |log'| && log == log'[..|log|] && n <= n' <= |log'|
    ensures Stream(c, log, n) <= Stream(c, log', n')
    decreases n'
  {
    if n < n' {
      StreamGrows(c, log, log', n, n' - 1);
    } else if n > 0 {
      StreamGrows(c, log, log', n - 1, n - 1);
      StreamGrows(c, log', log', n - 1, n - 1);
      assert |Stream(c, log, n - 1)| == |Stream(c, log', n - 1)| by { SameStream(c, log, log', n - 1); }
      SameStream(c, log, log', n - 1);
    }
  }

  lemma {:induction false} SameStream(c: Codec, log: seq<Frame>, log': seq<Frame>, n: nat)
    requires n <= |log| <= |log'| && log == log'[..|log|]
    ensures Stream(c, log, n) == Stream(c, log', n)
  {
    if n > 0 {
      SameStream(c, log, log', n - 1);
    }
  }

  // ---- the receiver ------------------------------------------------------

  /** The whole frame at the front of the buffer and the bytes it takes, if there is one. */
  function Front(c: Codec, buf: seq<Byte>): Option<(Frame, nat)>
  {
    if |buf| < HEADER_LEN then None
    else
      var n := LengthOf(c, buf[..HEADER_LEN]);
      if |buf| < n then None else Some((FrameOf(c, buf[..n]), n))
  }

  datatype Wired = Wired(end: End, buf: seq<Byte>)

  /** Process the frame at the front, if it is whole. */
  function ConsumedFront(c: Codec, x: Wired, answer: Answer): Wired
  {
    match Front(c, x.buf)
    case None => x
    case Some((f, n)) =>
      match Judge(x.end, f, answer)
      case Processed => Wired(Handled(x.end, f), if n <= |x.buf| then x.buf[n..] else [])
      case Repeated => Wired(x.end.(taken := x.end.taken + 1), if n <= |x.buf| then x.buf[n..] else [])
      case Blocked => x
      case Fault => x.(end := x.end.(faulted := true))
  }

  /** Reading and processing go by the bytes alone; everything else is the session's own step. */
  ghost predicate WireEnabled(c: Codec, x: Wired, peer: End, s: Step)
  {
    match s
    case Read(n) =>
      && !x.end.faulted && peer.written <= |peer.log| && x.end.readPos + n <= |Stream(c, peer.log, peer.written)|
      && |x.buf| + n <= FRAME_MAX
    case Consume(_) => !x.end.faulted && x.end.log != []
    case _ => Enabled(x.end, peer, s)
  }

  ghost function WireNext(c: Codec, x: Wired, peer: End, s: Step): Wired
    requires WireEnabled(c, x, peer, s)
  {
    match s
    case Read(n) =>
      var at := x.end.readPos;
      Wired(x.end.(readPos := at + n), x.buf + Stream(c, peer.log, peer.written)[at..at + n])
    case Consume(answer) => ConsumedFront(c, x, answer)
    case _ => Wired(Next(x.end, peer, s), x.buf)
  }

  // ---- bytes and positions agree -----------------------------------------

  /** The buffer is the part of the peer's stream that has been read and not taken. */
  ghost predicate BufOk(c: Codec, x: Wired, peer: End)
  {
    && x.end.taken <= peer.written <= |peer.log|
    && Bytes(peer.log, x.end.taken) <= x.end.readPos <= |Stream(c, peer.log, peer.written)|
    && x.buf == Stream(c, peer.log, peer.written)[Bytes(peer.log, x.end.taken)..x.end.readPos]
  }

  lemma SlicePrefix(s: seq<Byte>, t: seq<Byte>, from: nat)
    requires s <= t && from <= |s|
    ensures t[from..|s|] == s[from..]
  {
  }

  lemma SliceCut(s: seq<Byte>, from: nat, to: nat, n: nat)
    requires from + n <= to <= |s|
    ensures s[from..to][..n] == s[from..from + n] && s[from..to][n..] == s[from + n..to]
  {
  }

  /** A buffer that starts with the bytes of a frame shows it; one cut short shows nothing. */
  lemma FrontOf(c: Codec, f: Frame, buf: seq<Byte>)
    requires Fits(c, f) && (BytesOf(c, f) <= buf || buf < BytesOf(c, f))
    ensures Front(c, buf) == if |buf| < f.size then None else Some((f, f.size))
  {
    var b := BytesOf(c, f);
    if |buf| >= HEADER_LEN {
      assert buf[..HEADER_LEN] == b[..HEADER_LEN];
    }
    if |buf| >= f.size {
      assert buf[..f.size] == b;
    }
  }

  lemma FrameAt(c: Codec, log: seq<Frame>, k: nat, n: nat)
    requires k < n <= |log| && Delimits(c, log)
    ensures var at := Bytes(log, k);
            at + log[k].size <= |Stream(c, log, n)| && Stream(c, log, n)[at..at + log[k].size] == BytesOf(c, log[k])
  {
    hide Stream, Delimits, Bytes;
    StreamSize(c, log, k);
    StreamGrows(c, log, log, k + 1, n);
    NextBytes(c, log, k);
    InStream(Stream(c, log, k), BytesOf(c, log[k]), Stream(c, log, n));
  }

  lemma NextBytes(c: Codec, log: seq<Frame>, k: nat)
    requires k < |log| && Delimits(c, log)
    ensures Stream(c, log, k + 1) == Stream(c, log, k) + BytesOf(c, log[k]) && |BytesOf(c, log[k])| == log[k].size
  {
    assert Fits(c, log[k]);
  }

  lemma InStream(s: seq<Byte>, b: seq<Byte>, t: seq<Byte>)
    requires s + b <= t
    ensures |s| + |b| <= |t| && t[|s|..|s| + |b|] == b
  {
    SlicePrefix(s + b, t, |s|);
  }

  /** What the buffer shows at its front is the next frame of the peer's log, exactly when it is whole. */
  lemma FrontIs(c: Codec, x: Wired, peer: End)
    requires Delimits(c, peer.log) && BufOk(c, x, peer)
    ensures var k := x.end.taken;
            Front(c, x.buf) ==
            if k == |peer.log| || x.end.readPos < Bytes(peer.log, k) + peer.log[k].size then None
            else Some((peer.log[k], peer.log[k].size))
  {
    var k, stream := x.end.taken, Stream(c, peer.log, peer.written);
    var at := Bytes(peer.log, k);
    StreamSize(c, peer.log, peer.written);
    if k < peer.written {
      var f := peer.log[k];
      assert Fits(c, f);
      FrameAt(c, peer.log, k, peer.written);
      hide Delimits, Stream, Bytes, Fits, Front;
      if |x.buf| >= f.size {
        SliceCut(stream, at, x.end.readPos, f.size);
      } else {
        SliceCut(stream, at, at + f.size, |x.buf|);
      }
      FrontOf(c, f, x.buf);
    } else {
      assert x.buf == [];
      assert k < |peer.log| ==> Fits(c, peer.log[k]);
    }
  }

  lemma Shown(c: Codec, x: Wired, peer: End, answer: Answer)
    requires PairOk(x.end, peer) && Delimits(c, peer.log) && BufOk(c, x, peer)
    ensures x.end.taken <= |peer.log| && ConsumedFront(c, x, answer).end == Consumed(x.end, peer, answer)
  {
    hide PairOk, Delimits, Front, Bytes, Stream, Handled, Judge;
    FrontIs(c, x, peer);
  }

  lemma ConsumeAgrees(c: Codec, x: Wired, peer: End, answer: Answer)
    requires PairOk(x.end, peer) && Delimits(c, peer.log) && BufOk(c, x, peer)
    ensures x.end.taken <= |peer.log| && ConsumedFront(c, x, answer).end == Consumed(x.end, peer, answer)
    ensures BufOk(c, ConsumedFront(c, x, answer), peer)
  {
    hide PairOk, Delimits, Bytes, Stream, Front;
    Shown(c, x, peer, answer);
    FrontIs(c, x, peer);
    var k, x' := x.end.taken, ConsumedFront(c, x, answer);
    if k < |peer.log| && x.end.readPos >= Bytes(peer.log, k) + peer.log[k].size {
      HonestFrame(x.end, peer, answer);
      BytesNext(peer.log, k);
      SliceCut(Stream(c, peer.log, peer.written), Bytes(peer.log, k), x.end.readPos, peer.log[k].size);
    }
  }

  lemma ReadAgrees(c: Codec, x: Wired, peer: End, n: nat)
    requires Delimits(c, peer.log) && BufOk(c, x, peer) && WireEnabled(c, x, peer, Read(n))
    ensures Enabled(x.end, peer, Read(n)) && WireNext(c, x, peer, Read(n)).end == Next(x.end, peer, Read(n))
    ensures BufOk(c, WireNext(c, x, peer, Read(n)), peer)
  {
    hide Delimits, Stream, Bytes;
    StreamSize(c, peer.log, peer.written);
    var stream := Stream(c, peer.log, peer.written);
    var at, from := x.end.readPos, Bytes(peer.log, x.end.taken);
    assert |x.buf| == at - from == Buffered(x.end, peer);
    SliceCut(stream, from, at + n, at - from);
    assert x.buf + stream[at..at + n] == stream[from..at + n];
  }

  /** Other steps leave what has been read and taken alone. */
  lemma OtherAgrees(c: Codec, x: Wired, peer: End, s: Step)
    requires BufOk(c, x, peer) && Enabled(x.end, peer, s) && !s.Read? && !s.Consume?
    ensures BufOk(c, Wired(Next(x.end, peer, s), x.buf), peer)
  {
  }

  /** A step on bytes is the same step on positions. */
  lemma StepAgrees(c: Codec, x: Wired, peer: End, s: Step)
    requires PairOk(x.end, peer) && Delimits(c, peer.log) && BufOk(c, x, peer) && WireEnabled(c, x, peer, s)
    ensures Enabled(x.end, peer, s) && WireNext(c, x, peer, s).end == Next(x.end, peer, s)
    ensures BufOk(c, WireNext(c, x, peer, s), peer)
  {
    hide PairOk, Delimits, BufOk, ConsumedFront, Consumed;
    if s.Read? {
      ReadAgrees(c, x, peer, s.n);
    } else if s.Consume? {
      ConsumeAgrees(c, x, peer, s.answer);
      assert peer.written <= |peer.log| by { InLog(c, x, peer); }
    } else {
      OtherAgrees(c, x, peer, s);
    }
  }

  lemma InLog(c: Codec, x: Wired, peer: End)
    requires BufOk(c, x, peer)
    ensures peer.written <= |peer.log|
  {
  }

  /** What the peer queues or writes later does not disturb the buffer. */
  lemma PeerMoves(c: Codec, x: Wired, peer: End, peer': End)
    requires BufOk(c, x, peer) && peer.written <= peer'.written <= |peer'.log| && |peer.log| <= |peer'.log|
    requires peer.log == peer'.log[..|peer.log|]
    ensures BufOk(c, x, peer')
  {
    StreamGrows(c, peer.log, peer'.log, peer.written, peer'.written);
    Grown(peer.log, peer'.log, x.end.taken);
    hide Stream, Bytes;
  }

  lemma StepGrows(x: End, peer: End, s: Step)
    requires Enabled(x, peer, s) && x.written <= |x.log|
    ensures var x' := Next(x, peer, s);
            x.written <= x'.written <= |x'.log| && |x.log| <= |x'.log| && x.log == x'.log[..|x.log|]
  {
    hide Bytes;
  }

  // ---- runs --------------------------------------------------------------

  datatype WirePair = WirePair(a: Wired, b: Wired)

  ghost predicate WireSteps(c: Codec, p: WirePair, t: Turn, q: WirePair)
  {
    if t.first then WireEnabled(c, p.a, p.b.end, t.step) && q == WirePair(WireNext(c, p.a, p.b.end, t.step), p.b)
    else WireEnabled(c, p.b, p.a.end, t.step) && q == WirePair(p.a, WireNext(c, p.b, p.a.end, t.step))
  }

  ghost predicate IsWireRun(c: Codec, run: seq<WirePair>, turns: seq<Turn>)
  {
    && |run| == |turns| + 1 && Fresh(run[0].a.end) && Fresh(run[0].b.end) && run[0].a.buf == [] == run[0].b.buf
    && (forall i :: 0 <= i < |turns| ==> WireSteps(c, run[i], turns[i], run[i + 1]))
    && (forall i :: 0 <= i < |run| ==> Delimits(c, run[i].a.end.log) && Delimits(c, run[i].b.end.log))
  }

  ghost predicate WireOk(c: Codec, x: Wired, y: Wired)
  {
    PairOk(x.end, y.end) && BufOk(c, x, y.end) && BufOk(c, y, x.end)
  }

  lemma TurnKeeps(c: Codec, x: Wired, y: Wired, s: Step)
    requires WireOk(c, x, y) && Delimits(c, y.end.log) && WireEnabled(c, x, y.end, s)
    ensures WireOk(c, WireNext(c, x, y.end, s), y)
  {
    hide PairOk, Delimits, BufOk, WireNext, Enabled, Next;
    StepAgrees(c, x, y.end, s);
    StepKeeps(x.end, y.end, s);
    InLog(c, y, x.end);
    StepGrows(x.end, y.end, s);
    PeerMoves(c, y, x.end, WireNext(c, x, y.end, s).end);
  }

  lemma {:induction false} WireKeeps(c: Codec, run: seq<WirePair>, turns: seq<Turn>, i: nat)
    requires IsWireRun(c, run, turns) && i < |run|
    ensures WireOk(c, run[i].a, run[i].b)
  {
    if i == 0 {
      FreshOk(run[0].a.end, run[0].b.end);
      hide PairOk;
    } else {
      hide PairOk, Delimits, BufOk, WireEnabled, WireNext, Fresh;
      WireKeeps(c, run, turns, i - 1);
      var p, t := run[i - 1], turns[i - 1];
      assert WireSteps(c, p, t, run[i]);
      if t.first {
        TurnKeeps(c, p.a, p.b, t.step);
      } else {
        Swapped(p.a.end, p.b.end);
        TurnKeeps(c, p.b, p.a, t.step);
        Swapped(run[i].b.end, run[i].a.end);
      }
    }
  }

  /**
   Whatever pieces the bytes come in, with any encoding that delimits and
   determines the frames queued, what each end has processed is the front of what
   the other queued, and its buffer holds exactly the bytes read and not taken.
   */
  lemma WireDelivery(c: Codec, run: seq<WirePair>, turns: seq<Turn>, i: nat)
    requires IsWireRun(c, run, turns) && i < |run|
    ensures var a, b := run[i].a.end, run[i].b.end;
            && |b.processed| <= |a.log| && b.processed == a.log[..|b.processed|] && b.received == |b.processed|
            && |a.processed| <= |b.log| && a.processed == b.log[..|a.processed|] && a.received == |a.processed|
            && (forall k :: 0 <= k < |a.log| ==> a.log[k].op == k + 1)
            && (forall k :: 0 <= k < |b.log| ==> b.log[k].op == k + 1)
    ensures BufOk(c, run[i].a, run[i].b.end) && BufOk(c, run[i].b, run[i].a.end)
    ensures |run[i].a.buf| <= FRAME_MAX && |run[i].b.buf| <= FRAME_MAX
  {
    WireKeeps(c, run, turns, i);
    hide Bytes, Pings, Pongs, Answered, WireSteps, Fresh, Stream, Delimits;
  }
}
