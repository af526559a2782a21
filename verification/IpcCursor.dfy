/** Encoding and decoding as the code does it: a cursor moving over a bounded buffer, sticky once it ran out. */
module IpcCursor {
  import opened Wrappers
  import opened IpcCodec

  /** The bytes of a big-endian number, filled in from the last one. */
  method Digits(v: nat, width: nat) returns (b: seq<Byte>)
    ensures b == Number(v, width)
  {
    b := [];
    var x, i := v, 0;
    while i < width
      invariant i <= width && Number(v, width) == Number(x, width - i) + b
    {
      b := [x % 256] + b;
      x, i := x / 256, i + 1;
    }
  }

  method ReadNumber(b: seq<Byte>) returns (v: nat)
    ensures v == Value(b)
  {
    v := 0;
    for i := 0 to |b|
      invariant v == Value(b[..i])
    {
      assert b[..i + 1][..i] == b[..i];
      v := 256 * v + b[i];
    }
    assert b[..|b|] == b;
  }

  lemma {:induction false} PackSnoc(fs: seq<seq<Byte>>, f: seq<Byte>)
    ensures Pack(fs + [f]) == Pack(fs) + f
    decreases |fs|
  {
    if fs == [] {
      assert fs + [f] == [f] && Pack([f][1..]) == [];
    } else {
      assert (fs + [f])[1..] == fs[1..] + [f];
      PackSnoc(fs[1..], f);
    }
  }

  lemma {:induction false} PackPrefix(fs: seq<seq<Byte>>, n: nat)
    requires n <= |fs|
    ensures |Pack(fs[..n])| <= |Pack(fs)|
    decreases |fs| - n
  {
    if n < |fs| {
      assert fs[..n + 1] == fs[..n] + [fs[n]];
      PackSnoc(fs[..n], fs[n]);
      PackPrefix(fs, n + 1);
    } else {
      assert fs[..n] == fs;
    }
  }

  class Writer {
    const buf: array<Byte>
    var at: nat
    var bad: bool

    ghost predicate Valid()
      reads this
    {
      at <= buf.Length
    }

    constructor (buf: array<Byte>)
      ensures this.buf == buf && at == 0 && !bad && Valid()
    {
      this.buf, at, bad := buf, 0, false;
    }

    /** Append bytes, or run out for good. */
    method Put(p: seq<Byte>)
      requires Valid()
      modifies this, buf
      ensures Valid() && bad == (old(bad) || |p| > buf.Length - old(at))
      ensures at == if bad then old(at) else old(at) + |p|
      ensures buf[..at] == if bad then old(buf[..at]) else old(buf[..at]) + p
    {
      if bad || |p| > buf.Length - at {
        bad := true;
        return;
      }
      for i := 0 to |p|
        invariant at == old(at) && !bad && buf[..at + i] == old(buf[..at]) + p[..i]
      {
        buf[at + i] := p[i];
      }
      at := at + |p|;
      assert p[..|p|] == p;
    }

    /** A row of fields. */
    method PutAll(fs: seq<seq<Byte>>)
      requires Valid()
      modifies this, buf
      ensures Valid() && bad == (old(bad) || |Pack(fs)| > buf.Length - old(at))
      ensures !bad ==> at == old(at) + |Pack(fs)| && buf[..at] == old(buf[..at]) + Pack(fs)
    {
      for i := 0 to |fs|
        invariant Valid() && (old(bad) ==> bad) && (bad ==> old(bad) || |Pack(fs)| > buf.Length - old(at))
        invariant !bad ==> at == old(at) + |Pack(fs[..i])| && buf[..at] == old(buf[..at]) + Pack(fs[..i])
      {
        assert fs[..i + 1] == fs[..i] + [fs[i]];
        PackSnoc(fs[..i], fs[i]);
        PackPrefix(fs, i + 1);
        ghost var done := old(buf[..at]);
        Put(fs[i]);
        assert !bad ==> done + Pack(fs[..i]) + fs[i] == done + Pack(fs[..i + 1]);
      }
      assert fs[..|fs|] == fs;
    }
  }

  /** Write a frame's 16-byte header. */
  method PutHeader(w: Writer, kind: nat, len: nat)
    requires w.Valid() && HELLO <= kind <= COMPLETION && len <= BODY_MAX
    modifies w, w.buf
    ensures w.Valid() && w.bad == (old(w.bad) || HEADER_LEN > w.buf.Length - old(w.at))
    ensures !w.bad ==> w.at == old(w.at) + HEADER_LEN && w.buf[..w.at] == old(w.buf[..w.at]) + HeaderBytes(kind, len)
  {
    hide Pow, Number, Value, Split, WidthsFrom, Total, HeaderOf, Pack;
    HeaderRoundTrip(kind, len, []);
    var version := Digits(VERSION, 2);
    var type_ := Digits(kind, 2);
    var size := Digits(len, 4);
    var zero := Digits(0, 4);
    w.PutAll([MAGIC, version, type_, size, zero]);
  }

  /** Write the lanes one by one. */
  method PutLanes(w: Writer, lanes: seq<Lane>)
    requires w.Valid()
    modifies w, w.buf
    ensures w.Valid() && w.bad == (old(w.bad) || |LaneBytes(lanes)| > w.buf.Length - old(w.at))
    ensures !w.bad ==> w.at == old(w.at) + |LaneBytes(lanes)| && w.buf[..w.at] == old(w.buf[..w.at]) + LaneBytes(lanes)
  {
    hide Pow, Number, Value, Pack, LaneFields;
    ghost var start := w.buf[..w.at];
    for i := 0 to |lanes|
      invariant w.Valid() && (old(w.bad) ==> w.bad)
      invariant w.bad ==> old(w.bad) || |LaneBytes(lanes)| > w.buf.Length - old(w.at)
      invariant !w.bad ==> w.at == old(w.at) + |LaneBytes(lanes[..i])| && w.buf[..w.at] == start + LaneBytes(lanes[..i])
    {
      assert lanes[..i + 1] == lanes[..i] + [lanes[i]];
      LaneSnoc(lanes[..i], lanes[i]);
      LanePrefix(lanes, i + 1);
      w.PutAll(LaneFields(lanes[i]));
      assert !w.bad ==> start + LaneBytes(lanes[..i]) + Pack(LaneFields(lanes[i])) == start + LaneBytes(lanes[..i + 1]);
    }
    assert lanes[..|lanes|] == lanes;
  }

  /** Encode a request: header, head fields, lanes. */
  method EncodeRequest(r: Request, buf: array<Byte>) returns (len: Option<nat>)
    requires RequestTyped(r)
    modifies buf
    ensures len.Some? <==> RequestValid(r) && HEADER_LEN + |RequestBody(r)| <= buf.Length
    ensures len.Some? ==> len.value == HEADER_LEN + |RequestBody(r)| &&
                          buf[..len.value] == HeaderBytes(REQUEST, |RequestBody(r)|) + RequestBody(r)
  {
    hide Pow, Number, Value, Head, Split, Pack, WidthsFrom, Total, HeaderOf, HeaderBytes, LanesOf, LaneBytes, RequestOf;
    if !RequestValid(r) {
      return None;
    }
    RequestRoundTrip(r);
    var w := new Writer(buf);
    PutHeader(w, REQUEST, HEAD_LEN + |r.lanes| * LANE_LEN);
    w.PutAll(Head(r));
    PutLanes(w, r.lanes);
    len := if w.bad then None else Some(w.at);
  }

  lemma {:induction false} LaneSnoc(lanes: seq<Lane>, l: Lane)
    ensures LaneBytes(lanes + [l]) == LaneBytes(lanes) + Pack(LaneFields(l))
    decreases |lanes|
  {
    hide Pack, LaneFields;
    if lanes == [] {
      assert lanes + [l] == [l] && LaneBytes([l][1..]) == [];
    } else {
      assert (lanes + [l])[1..] == lanes[1..] + [l];
      LaneSnoc(lanes[1..], l);
    }
  }

  lemma {:induction false} LanePrefix(lanes: seq<Lane>, n: nat)
    requires n <= |lanes|
    ensures |LaneBytes(lanes[..n])| <= |LaneBytes(lanes)|
    decreases |lanes| - n
  {
    hide Pack, LaneFields;
    if n < |lanes| {
      assert lanes[..n + 1] == lanes[..n] + [lanes[n]];
      LaneSnoc(lanes[..n], lanes[n]);
      LanePrefix(lanes, n + 1);
    } else {
      assert lanes[..n] == lanes;
    }
  }

  /** Cut the next fields off a body; the caller has seen that they are there. */
  method GetAll(b: seq<Byte>, ws: seq<nat>) returns (fs: seq<seq<Byte>>)
    requires |b| == Total(ws)
    ensures fs == Split(b, ws)
  {
    fs := [];
    var at: nat := 0;
    assert ws[0..] == ws && b[0..] == b;
    for i := 0 to |ws|
      invariant at <= |b| && |b| - at == Total(ws[i..]) && Split(b, ws) == fs + Split(b[at..], ws[i..])
    {
      assert ws[i..][1..] == ws[i + 1..];
      assert b[at..][..ws[i]] == b[at..at + ws[i]] && b[at..][ws[i]..] == b[at + ws[i]..];
      fs, at := fs + [b[at..at + ws[i]]], at + ws[i];
    }
  }

  function Joined(done: seq<Lane>, rest: Option<seq<Lane>>): Option<seq<Lane>>
  {
    match rest case None => None case Some(more) => Some(done + more)
  }

  /** Read `n` lanes and nothing more. */
  method GetLanes(b: seq<Byte>, n: nat) returns (r: Option<seq<Lane>>)
    ensures r == LanesOf(b, n)
  {
    hide Split, WidthsFrom, Total, LaneOf;
    Lengths();
    WidthsAt(LaneShape, 0);
    var lanes: seq<Lane>, at: nat := [], 0;
    assert b[0..] == b;
    assert forall more: seq<Lane> :: lanes + more == more;
    for i := 0 to n
      invariant at <= |b| && LanesOf(b, n) == Joined(lanes, LanesOf(b[at..], n - i))
    {
      if |b| - at < LANE_LEN {
        return None;
      }
      assert b[at..][..LANE_LEN] == b[at..at + LANE_LEN] && b[at..][LANE_LEN..] == b[at + LANE_LEN..];
      var fs := GetAll(b[at..at + LANE_LEN], Widths(LaneShape));
      PackOfSplit(b[at..at + LANE_LEN], Widths(LaneShape));
      assert forall more: seq<Lane> :: lanes + ([LaneOf(fs)] + more) == (lanes + [LaneOf(fs)]) + more;
      lanes, at := lanes + [LaneOf(fs)], at + LANE_LEN;
    }
    assert lanes + [] == lanes && (b[at..] == [] <==> at == |b|);
    r := if at == |b| then Some(lanes) else None;
  }

  method DecodeRequest(b: seq<Byte>) returns (r: Option<Request>)
    ensures r == RequestOf(b)
  {
    hide Split, WidthsFrom, Total, HeadOf, LanesOf, Number, Pow, Value;
    if |b| < HEAD_LEN {
      return None;
    }
    Lengths();
    var fs := GetAll(b[..HEAD_LEN], Widths(HeadShape));
    PackOfSplit(b[..HEAD_LEN], Widths(HeadShape));
    WidthsAt(HeadShape, 0);
    var n := ReadNumber(fs[13]);
    if n > LANES_MAX {
      return None;
    }
    var lanes := GetLanes(b[HEAD_LEN..], n);
    if lanes.None? {
      return None;
    }
    var q := HeadOf(fs, lanes.value);
    r := if RequestValid(q) then Some(q) else None;
  }
}
