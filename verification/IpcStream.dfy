/**
 The receive side of the crypto adapter (doca/peer_crypto_ipc.c): bytes arrive
 in arbitrary chunks, whole frames are taken from the front of a bounded buffer,
 and the first malformed frame ends the connection.
 */
module IpcStream {
  import opened Wrappers
  import opened IpcCodec

  datatype Frame = Hello(major: nat, minor: nat) | Done(completion: Completion)

  /** Frames taken, bytes left over, and whether the stream is still good. */
  datatype Taken = Taken(frames: seq<Frame>, rest: seq<Byte>, ok: bool)

  /** The owner sends greetings and completions only. */
  function FrameOf(kind: nat, body: seq<Byte>): Option<Frame>
  {
    if kind == HELLO then
      (if |body| == 4 then Some(Hello(Value(body[..2]), Value(body[2..]))) else None)
    else if kind == COMPLETION then
      (match CompletionOf(body) case None => None case Some(d) => Some(Done(d)))
    else None
  }

  /** Whether a whole frame stands at the front, and how long it is. */
  datatype Front = NeedMore | Broken | Whole(frame: Frame, len: nat)

  function FrontOf(b: seq<Byte>): (f: Front)
    ensures f.Whole? ==> HEADER_LEN <= f.len <= |b| && f.len <= FRAME_MAX
    ensures f.NeedMore? ==> |b| < FRAME_MAX
  {
    match HeaderOf(b)
    case Short => NeedMore
    case Malformed => Broken
    case Header(kind, len) =>
      if |b| < HEADER_LEN + len then NeedMore
      else
        match FrameOf(kind, b[HEADER_LEN..HEADER_LEN + len])
        case None => Broken
        case Some(f) => Whole(f, HEADER_LEN + len)
  }

  function Take(b: seq<Byte>): (t: Taken)
    ensures t.ok ==> |t.rest| < FRAME_MAX
    decreases |b|
  {
    match FrontOf(b)
    case NeedMore => Taken([], b, true)
    case Broken => Taken([], b, false)
    case Whole(f, len) =>
      var t := Take(b[len..]);
      Taken([f] + t.frames, t.rest, t.ok)
  }

  /** What stands at the front does not depend on what follows, once it is decided. */
  lemma FrontStable(a: seq<Byte>, b: seq<Byte>)
    ensures !FrontOf(a).NeedMore? ==> FrontOf(a + b) == FrontOf(a)
  {
    hide CompletionOf, Value, Split, WidthsFrom, Total;
    assert |a| >= HEADER_LEN ==> (a + b)[..HEADER_LEN] == a[..HEADER_LEN];
    HeaderPrefix(a, a + b);
    if HeaderOf(a).Header? && |a| >= HEADER_LEN + HeaderOf(a).len {
      var len := HeaderOf(a).len;
      assert (a + b)[HEADER_LEN..HEADER_LEN + len] == a[HEADER_LEN..HEADER_LEN + len];
    }
  }

  lemma HeaderPrefix(a: seq<Byte>, b: seq<Byte>)
    ensures |a| >= HEADER_LEN && |b| >= HEADER_LEN && a[..HEADER_LEN] == b[..HEADER_LEN] ==> HeaderOf(a) == HeaderOf(b)
  {
  }

  /** Taking frames early loses nothing: what is left over goes on as if it had all come at once. */
  lemma {:induction false} TakeSplit(a: seq<Byte>, b: seq<Byte>)
    ensures var s, t := Take(a), Take(a + b);
            if s.ok then t == Taken(s.frames + Take(s.rest + b).frames, Take(s.rest + b).rest, Take(s.rest + b).ok)
            else t.frames == s.frames && !t.ok
    decreases |a|
  {
    FrontStable(a, b);
    hide FrontOf;
    match FrontOf(a)
    case NeedMore =>
    case Broken =>
    case Whole(f, len) =>
      TakeSplit(a[len..], b);
      assert (a + b)[len..] == a[len..] + b;
      var s := Take(a[len..]);
      if s.ok {
        assert [f] + (s.frames + Take(s.rest + b).frames) == ([f] + s.frames) + Take(s.rest + b).frames;
      }
  }

  // ---- chunks ------------------------------------------------------------

  function Concat(chunks: seq<seq<Byte>>, n: nat): seq<Byte>
    requires n <= |chunks|
  {
    if n == 0 then [] else Concat(chunks, n - 1) + chunks[n - 1]
  }

  /** The receive buffer and everything handled so far. */
  datatype Rx = Rx(buf: seq<Byte>, handled: seq<Frame>, open_: bool)

  /** One receive call and the frames it completes; a buffer left full would end the connection. */
  function Fed(r: Rx, chunk: seq<Byte>): Rx
  {
    if !r.open_ then r
    else
      var t := Take(r.buf + chunk);
      Rx(t.rest, r.handled + t.frames, t.ok && |t.rest| < FRAME_MAX)
  }

  function FedAll(chunks: seq<seq<Byte>>, n: nat): Rx
    requires n <= |chunks|
  {
    if n == 0 then Rx([], [], true) else Fed(FedAll(chunks, n - 1), chunks[n - 1])
  }

  /**
   Chunking does not matter: however the bytes were cut up, the frames handled
   and whether the connection survives are those of the whole stream taken at
   once, and the oversized-buffer check never fires.
   */
  lemma {:induction false} ChunkingIsInvisible(chunks: seq<seq<Byte>>, n: nat)
    requires n <= |chunks|
    ensures var r, t := FedAll(chunks, n), Take(Concat(chunks, n));
            && r.handled == t.frames && r.open_ == t.ok && (r.open_ ==> r.buf == t.rest && |r.buf| < FRAME_MAX)
  {
    hide FrontOf;
    if n == 0 {
      Nothing();
    } else {
      ChunkingIsInvisible(chunks, n - 1);
      TakeSplit(Concat(chunks, n - 1), chunks[n - 1]);
    }
  }

  lemma Nothing()
    ensures Take([]) == Taken([], [], true)
  {
    assert FrontOf([]) == NeedMore;
  }

  // ---- end to end --------------------------------------------------------

  /** What the owner writes for a row of completions. */
  function Sent(ds: seq<Completion>): seq<Byte>
  {
    if ds == [] then []
    else HeaderBytes(COMPLETION, DONE_LEN) + CompletionBody(ds[0]) + Sent(ds[1..])
  }

  function AsFrames(ds: seq<Completion>): seq<Frame>
  {
    if ds == [] then [] else [Done(ds[0])] + AsFrames(ds[1..])
  }

  lemma FrontOfSent(d: Completion, rest: seq<Byte>)
    requires DoneTyped(d) && DoneValid(d)
    ensures |CompletionBody(d)| == DONE_LEN && |HeaderBytes(COMPLETION, DONE_LEN)| == HEADER_LEN
    ensures FrontOf(HeaderBytes(COMPLETION, DONE_LEN) + CompletionBody(d) + rest) ==
            Whole(Done(d), HEADER_LEN + DONE_LEN)
  {
    hide HeaderOf, HeaderBytes, CompletionBody, CompletionOf, Value, DoneTyped;
    var h, body := HeaderBytes(COMPLETION, DONE_LEN), CompletionBody(d);
    HeaderRoundTrip(COMPLETION, DONE_LEN, body + rest);
    CompletionSurvives(d);
    assert h + body + rest == h + (body + rest);
    assert (h + body + rest)[HEADER_LEN..HEADER_LEN + DONE_LEN] == body;
  }

  lemma {:induction false} TakeOfSent(ds: seq<Completion>)
    requires forall i :: 0 <= i < |ds| ==> DoneTyped(ds[i]) && DoneValid(ds[i])
    ensures Take(Sent(ds)) == Taken(AsFrames(ds), [], true)
    decreases |ds|
  {
    hide FrontOf, HeaderBytes, CompletionBody, DoneTyped, DoneValid;
    if ds == [] {
      Nothing();
    } else {
      var h, body, rest := HeaderBytes(COMPLETION, DONE_LEN), CompletionBody(ds[0]), Sent(ds[1..]);
      FrontOfSent(ds[0], rest);
      assert (h + body + rest)[HEADER_LEN + DONE_LEN..] == rest;
      TakeOfSent(ds[1..]);
    }
  }

  /** The adapter handles exactly the completions the owner sent, in order, whatever the chunks. */
  lemma CompletionsArrive(ds: seq<Completion>, chunks: seq<seq<Byte>>)
    requires forall i :: 0 <= i < |ds| ==> DoneTyped(ds[i]) && DoneValid(ds[i])
    requires Concat(chunks, |chunks|) == Sent(ds)
    ensures FedAll(chunks, |chunks|) == Rx([], AsFrames(ds), true)
  {
    hide Take, Sent, AsFrames, FedAll, DoneTyped, DoneValid;
    ChunkingIsInvisible(chunks, |chunks|);
    TakeOfSent(ds);
  }

  /** The consume loop over the buffer: take whole frames from the front and shift the rest down. */
  method Consume(buf: seq<Byte>) returns (frames: seq<Frame>, rest: seq<Byte>, ok: bool)
    ensures Taken(frames, rest, ok) == Take(buf)
  {
    hide FrontOf;
    frames, rest, ok := [], buf, true;
    while true
      invariant ok && Take(buf) == Taken(frames + Take(rest).frames, Take(rest).rest, Take(rest).ok)
      decreases |rest|
    {
      match FrontOf(rest)
      case NeedMore =>
        assert frames + [] == frames;
        return;
      case Broken =>
        assert frames + [] == frames;
        ok := false;
        return;
      case Whole(f, len) =>
        assert frames + ([f] + Take(rest[len..]).frames) == (frames + [f]) + Take(rest[len..]).frames;
        frames, rest := frames + [f], rest[len..];
    }
  }
}
