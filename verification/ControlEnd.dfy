/** One end of a control session as it updates itself in place: its ring of frames, counters and deadlines. */
module ControlEnd {
  import opened ControlSession
  import opened RingBuffer

  const BUDGET: nat := 16

  /** One turn of the processing loop: the new state and 0 to go on, 1 to wait, -1 to fault. */
  function OneFrame(e: End, f: Frame, answer: Answer): (End, int)
  {
    match Judge(e, f, answer)
    case Processed => (Handled(e, f), 0)
    case Repeated => (e.(taken := e.taken + 1), 0)
    case Blocked => (e, 1)
    case Fault => (e, -1)
  }

  lemma PongTurn(e: End, f: Frame, answer: Answer)
    requires e.ready && f.op == e.received + 1 && f.kind.Pong?
    ensures OneFrame(e, f, answer) ==
            if e.pingPending && f.kind.challenge == e.challenge then
              (End(e.log, e.written, e.readPos, e.taken + 1, f.op, e.processed + [f], true, false, e.challenge,
                   PingAfter(e.lastNow, e.leaseNs), e.lastNow, e.setupDeadline, After(e.lastNow, e.leaseNs),
                   e.authorityDeadline, e.authorityGeneration, e.leaseNs, e.faulted), 0)
            else (e, -1)
  {
    hide After, PingAfter;
  }

  lemma HelloTurn(e: End, f: Frame, answer: Answer)
    requires !e.ready && f.op == e.received + 1
    ensures OneFrame(e, f, answer) ==
            if f.kind.Hello? && f.op == 1 && !answer.Refuse? then
              (End(e.log, e.written, e.readPos, e.taken + 1, f.op, e.processed + [f], true, e.pingPending, e.challenge,
                   e.lastNow, e.lastNow, e.setupDeadline, After(e.lastNow, e.leaseNs),
                   e.authorityDeadline, e.authorityGeneration, e.leaseNs, e.faulted), 0)
            else (e, -1)
  {
    hide After, PingAfter;
  }

  /** A turn is the session's own step; a negative code is what makes progress fault the session. */
  lemma OneFrameIsConsume(e: End, peer: End, answer: Answer)
    requires e.taken < |peer.log| && e.readPos >= Bytes(peer.log, e.taken) + peer.log[e.taken].size
    ensures var (next, rc) := OneFrame(e, peer.log[e.taken], answer);
            Consumed(e, peer, answer) == if rc < 0 then next.(faulted := true) else next
  {
    hide Bytes, Handled;
  }

  /** The processing loop over the whole frames at the front of the buffer, and its return code. */
  function AllFrames(e: End, frames: seq<Frame>, answers: seq<Answer>, budget: nat): (End, int)
    requires |answers| == |frames|
    decreases budget
  {
    if budget == 0 || frames == [] then (e, 0)
    else
      var (next, rc) := OneFrame(e, frames[0], answers[0]);
      if rc != 0 then (next, rc) else AllFrames(next, frames[1..], answers[1..], budget - 1)
  }

  class Control {
    const queue: array<Frame>
    var head: nat
    var count: nat
    var sent: nat
    var received: nat
    var last: seq<Frame>
    var ready: bool
    var pingPending: bool
    var challenge: nat
    var nextPing: nat
    var lastNow: nat
    var setupDeadline: nat
    var leaseDeadline: nat
    var authorityDeadline: nat
    var authorityGeneration: nat
    const leaseNs: nat
    var faulted: bool
    ghost var log: seq<Frame>
    ghost var written: nat
    ghost var readPos: nat
    ghost var taken: nat
    ghost var processed: seq<Frame>

    ghost function Model(): End
      reads this
    {
      End(log, written, readPos, taken, received, processed, ready, pingPending, challenge, nextPing,
          lastNow, setupDeadline, leaseDeadline, authorityDeadline, authorityGeneration, leaseNs, faulted)
    }

    /** The ring holds the queued frames not yet written; `last` stands for the digest of the last processed frame. */
    ghost predicate Valid()
      reads this, queue
    {
      && queue.Length == QUEUE && written <= |log| == sent && count == |log| - written
      && Ring(queue[..], head, log[written..])
      && last == (if processed == [] then [] else [processed[|processed| - 1]])
    }

    /** A session with its setup deadline armed and nothing exchanged. */
    constructor (now: nat, setupNs: nat, lease: nat, authority: nat, blank: Frame)
      ensures Valid() && fresh(queue) && Fresh(Model())
      ensures setupDeadline == After(now, setupNs) && authorityDeadline == authority && leaseNs == lease &&
              lastNow == now
    {
      queue := new Frame[QUEUE](_ => blank);
      head, count, sent, received, last := 0, 0, 0, 0, [];
      ready, pingPending, challenge, nextPing, faulted := false, false, 0, 0, false;
      lastNow, setupDeadline, leaseDeadline := now, After(now, setupNs), 0;
      authorityDeadline, authorityGeneration, leaseNs := authority, 0, lease;
      log, written, readPos, taken, processed := [], 0, 0, 0, [];
    }

    /** 1 queued, 0 the ring is full. */
    method Enqueue(kind: Kind, size: nat) returns (rc: int)
      requires Valid()
      modifies this`count, this`sent, this`log, queue
      ensures Valid() && rc == (if Room(old(Model())) then 1 else 0) && Model() == Enqueued(old(Model()), kind, size)
    {
      hide Ring;
      Size(queue[..], head, log[written..]);
      if count == QUEUE {
        return 0;
      }
      var f := Frame(sent + 1, kind, size);
      Push(queue[..], head, log[written..], f);
      queue[At(head, count, QUEUE)] := f;
      assert (log + [f])[written..] == log[written..] + [f];
      log, count, sent := log + [f], count + 1, sent + 1;
      rc := 1;
    }

    /** Hand the oldest queued frame to the channel. */
    method WriteFront() returns (f: Frame)
      requires Valid() && count > 0
      modifies this`head, this`count, this`written
      ensures Valid() && f == old(log[written]) && Model() == old(Model()).(written := old(written) + 1)
    {
      hide Ring;
      Size(queue[..], head, log[written..]);
      Pop(queue[..], head, log[written..]);
      f := queue[head];
      assert log[written..][1..] == log[written + 1..];
      head, count, written := At(head, 1, QUEUE), count - 1, written + 1;
    }

    /** The deadline checks that open every progress call. */
    method Check(now: nat) returns (ok: bool)
      modifies this`lastNow, this`faulted
      ensures Model() == Looked(old(Model()), now) && ok == !faulted
    {
      if faulted || now < lastNow || now >= authorityDeadline ||
         (!ready && now >= setupDeadline) || (ready && now >= leaseDeadline) {
        faulted := true;
        return false;
      }
      lastNow := now;
      return true;
    }

    /** The channel failed. */
    method Break()
      modifies this`faulted
      ensures faulted && Model() == old(Model()).(faulted := true)
    {
      faulted := true;
    }

    /** A newer authority snapshot may move its deadline; nothing revives an expired one. */
    method Renew(generation: nat, deadline: nat, now: nat) returns (ok: bool)
      modifies this`authorityGeneration, this`authorityDeadline, this`lastNow
      ensures Model() == Authorized(old(Model()), generation, deadline, now)
      ensures ok ==> !faulted && !Expired(old(Model()), now) && authorityDeadline == deadline > now
    {
      if faulted || now < lastNow || now >= authorityDeadline || (ready && now >= leaseDeadline) ||
         generation <= authorityGeneration || (!ready && now >= setupDeadline) || deadline <= now {
        return false;
      }
      authorityGeneration, authorityDeadline, lastNow := generation, deadline, now;
      return true;
    }

    /** Note a frame as handled. */
    method Count(f: Frame)
      requires Valid()
      modifies this`received, this`last, this`taken, this`processed
      ensures Valid() && received == f.op && taken == old(taken) + 1 && processed == old(processed) + [f]
    {
      received, last := f.op, [f];
      taken, processed := taken + 1, processed + [f];
    }

    /** The first frame must greet and identify the peer; it opens the lease. */
    method TakeHello(f: Frame, answer: Answer) returns (rc: int)
      requires Valid() && f.op == received + 1 && !ready
      modifies this
      ensures Valid() && (Model(), rc) == OneFrame(old(Model()), f, answer)
    {
      hide Ring, After, OneFrame;
      HelloTurn(Model(), f, answer);
      if !f.kind.Hello? || f.op != 1 || answer.Refuse? {
        return -1;
      }
      Count(f);
      ready, leaseDeadline, nextPing := true, After(lastNow, leaseNs), lastNow;
      return 0;
    }

    /** A challenge is answered at once, or waits for room in the ring. */
    method TakePing(f: Frame, answer: Answer) returns (rc: int)
      requires Valid() && f.op == received + 1 && ready && f.kind.Ping?
      modifies this, queue
      ensures Valid() && (Model(), rc) == OneFrame(old(Model()), f, answer)
    {
      hide Ring;
      var queued := Enqueue(Pong(f.kind.challenge), HEADER_LEN + 16);
      if queued == 0 {
        return 1;
      }
      Count(f);
      return 0;
    }

    /** An answer to the open challenge renews the lease. */
    method TakePong(f: Frame, answer: Answer) returns (rc: int)
      requires Valid() && f.op == received + 1 && ready && f.kind.Pong?
      modifies this
      ensures Valid() && (Model(), rc) == OneFrame(old(Model()), f, answer)
    {
      hide Ring, After, PingAfter, OneFrame;
      ghost var m := Model();
      PongTurn(m, f, answer);
      if !pingPending || f.kind.challenge != challenge {
        return -1;
      }
      Count(f);
      pingPending, leaseDeadline, nextPing := false, After(lastNow, leaseNs), PingAfter(lastNow, leaseNs);
      return 0;
    }

    /** Process one frame: 0 done, 1 try again later, -1 fault. */
    method Receive(f: Frame, answer: Answer) returns (rc: int)
      requires Valid() && f.op == received + 1
      modifies this, queue
      ensures Valid() && (Model(), rc) == OneFrame(old(Model()), f, answer)
    {
      hide Ring;
      if !ready {
        rc := TakeHello(f, answer);
      } else if f.kind.Hello? {
        rc := -1;
      } else if f.kind.Ping? {
        rc := TakePing(f, answer);
      } else if f.kind.Pong? {
        rc := TakePong(f, answer);
      } else if answer.Accept? {
        Count(f);
        rc := 0;
      } else {
        rc := if answer.Retry? then 1 else -1;
      }
    }

    /** Take one whole frame: skip an exact repeat, process the next operation, fault on anything else. */
    method TakeFrame(f: Frame, answer: Answer) returns (rc: int)
      requires Valid()
      modifies this, queue
      ensures Valid() && (Model(), rc) == OneFrame(old(Model()), f, answer)
    {
      hide Ring, Handled;
      if f.op == received {
        if last != [f] {
          return -1;
        }
        taken := taken + 1;
        return 0;
      }
      if f.op != received + 1 {
        return -1;
      }
      rc := Receive(f, answer);
    }

    /** Process whole frames from the front, at most `BUDGET` of them, until one must wait. */
    method Consume(frames: seq<Frame>, answers: seq<Answer>) returns (rc: int)
      requires Valid() && |answers| == |frames|
      modifies this, queue
      ensures Valid() && (Model(), rc) == AllFrames(old(Model()), frames, answers, BUDGET)
    {
      hide Ring, OneFrame;
      var k := 0;
      assert frames[0..] == frames && answers[0..] == answers;
      while k < BUDGET && k < |frames|
        invariant k <= BUDGET && k <= |frames| && Valid()
        invariant AllFrames(old(Model()), frames, answers, BUDGET) ==
                  AllFrames(Model(), frames[k..], answers[k..], BUDGET - k)
      {
        assert frames[k..][1..] == frames[k + 1..] && answers[k..][1..] == answers[k + 1..];
        rc := TakeFrame(frames[k], answers[k]);
        if rc != 0 {
          return;
        }
        k := k + 1;
      }
      rc := 0;
    }
  }
}
