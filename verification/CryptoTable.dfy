/** The adapter's table and completion ring as it updates them in place. */
module CryptoTable {
  import opened Wrappers
  import opened IpcCodec
  import opened CryptoAdapter
  import opened RingBuffer

  /** What has ended and is not yet polled. */
  function Queue(a: Adapter): seq<Completion>
    requires a.polled <= |a.ended|
  {
    seq(|a.ended| - a.polled, i requires 0 <= i < |a.ended| - a.polled => a.ended[a.polled + i].completion)
  }

  /** Eight frames of the largest size. */
  const TX_MAX: nat := 8 * (HEADER_LEN + BODY_MAX)

  /** What a partial send leaves in the transmit buffer. */
  function Unsent(len: nat, sent: nat): nat { if sent < len then len - sent else 0 }

  class Table {
    const inflight: array<Option<Completion>>
    const pending: array<Completion>
    var head: nat
    var count: nat
    var txLen: nat
    ghost var model: Adapter

    ghost predicate RingOk()
      reads this, pending
    {
      pending.Length == INFLIGHT_MAX && model.polled <= |model.ended| && count == |Queue(model)| &&
      Ring(pending[..], head, Queue(model))
    }

    ghost predicate SlotsOk()
      reads this, inflight
    {
      && inflight.Length == INFLIGHT_MAX == |model.slots|
      && forall k :: 0 <= k < INFLIGHT_MAX ==>
           if model.slots[k].Used? then inflight[k] == Some(model.slots[k].key) else inflight[k] == None
    }

    ghost predicate Valid()
      reads this, inflight, pending
    {
      Inv(model) && SlotsOk() && RingOk() && txLen <= TX_MAX
    }

    constructor (blank: Completion)
      ensures Valid() && fresh(inflight) && fresh(pending)
      ensures Blank(model) && txLen == 0
    {
      inflight := new Option<Completion>[INFLIGHT_MAX](_ => None);
      pending := new Completion[INFLIGHT_MAX](_ => blank);
      head, count, txLen := 0, 0, 0;
      model := Adapter(seq(INFLIGHT_MAX, i => Free), [], 0, [], []);
    }

    /** Queue a completion of the request in slot `k`; a full ring takes nothing. */
    method QueueCompletion(d: Completion, ghost k: nat)
      requires RingOk() && k < |model.slots| && model.slots[k].Used?
      modifies this`count, this`model, pending
      ensures RingOk() && model == Ends(old(model), k, d) && inflight[..] == old(inflight[..])
    {
      hide Ring;
      ghost var was := Queue(model);
      Size(pending[..], head, was);
      model := Ends(model, k, d);
      if count == INFLIGHT_MAX {
        return;
      }
      Push(pending[..], head, was, d);
      pending[At(head, count, INFLIGHT_MAX)] := d;
      count := count + 1;
      assert Queue(model) == was + [d];
    }

    /** Hand out the oldest completion. */
    method Poll() returns (d: Option<Completion>)
      requires Valid()
      modifies this`head, this`count, this`model
      ensures Valid() && (d.None? <==> Pending(old(model)) == 0)
      ensures d.Some? ==> d.value == old(model).ended[old(model).polled].completion
      ensures d.Some? ==> model == Next(old(model), CryptoAdapter.Poll)
      ensures d.None? ==> model == old(model)
    {
      hide Inv, Ring;
      Size(pending[..], head, Queue(model));
      if count == 0 {
        return None;
      }
      Pop(pending[..], head, Queue(model));
      d := Some(pending[head]);
      StepKeeps(model, CryptoAdapter.Poll);
      ghost var was := Queue(model);
      head, count := At(head, 1, INFLIGHT_MAX), count - 1;
      model := model.(polled := model.polled + 1);
      assert Queue(model) == was[1..];
    }

    /**
     Accept a request whose frame has `len` bytes into a free slot: 1 taken, 0
     try later, -1 refused. `sent` is what the socket takes of the transmit
     buffer at once, negative when the owner is lost over it.
     */
    method Submit(key: Completion, connected: bool, valid: bool, len: nat, sent: int) returns (rc: int)
      requires Valid()
      modifies this`count, this`txLen, this`model, inflight, pending
      ensures Valid() && -1 <= rc <= 1 && (rc == -1 <==> !connected || !valid)
      ensures rc == 1 <==>
              connected && valid && old(txLen) + len <= TX_MAX && FirstFree(old(model).slots, 0) < INFLIGHT_MAX
      ensures rc != 1 ==> model == old(model) && txLen == old(txLen)
      ensures rc == 1 && sent >= 0 ==> model == Next(old(model), CryptoAdapter.Submit(key))
      ensures rc == 1 && sent >= 0 ==> txLen == Unsent(old(txLen) + len, sent)
      ensures rc == 1 && sent < 0 ==>
                model == Next(Next(old(model), CryptoAdapter.Submit(key)), CryptoAdapter.Disconnect) && txLen == 0
    {
      hide Inv;
      if !connected || !valid {
        return -1;
      }
      var k := 0;
      while k < INFLIGHT_MAX && inflight[k].Some?
        invariant k <= INFLIGHT_MAX && FirstFree(model.slots, k) == FirstFree(model.slots, 0)
        invariant Valid() && model == old(model) && count == old(count) && txLen == old(txLen)
      {
        k := k + 1;
      }
      if k == INFLIGHT_MAX || TX_MAX - txLen < len {
        return 0;
      }
      StepKeeps(model, CryptoAdapter.Submit(key));
      model := Next(model, CryptoAdapter.Submit(key));
      inflight[k] := Some(key);
      txLen := txLen + len;
      if sent < 0 {
        Disconnect();
      } else {
        txLen := Unsent(txLen, sent);
      }
      rc := 1;
    }

    /** A completion arrives from the owner: it ends the first request it answers, or is stale. */
    method Answer(d: Completion)
      requires Valid()
      modifies this`count, this`model, inflight, pending
      ensures Valid() && model == Next(old(model), Complete(d))
    {
      hide Inv;
      var k := 0;
      while k < INFLIGHT_MAX && !(inflight[k].Some? && Answers(inflight[k].value, d))
        invariant k <= INFLIGHT_MAX && Valid() && model == old(model) && count == old(count)
        invariant FirstAnswered(model.slots, d, k) == FirstAnswered(model.slots, d, 0)
      {
        k := k + 1;
      }
      if k < INFLIGHT_MAX {
        EndsKeeps(model, k, d);
        QueueCompletion(d, k);
        inflight[k] := None;
      }
    }

    /** The owner is gone: everything in the table ends as unknown outcome. */
    method Disconnect()
      requires Valid()
      modifies this`count, this`txLen, this`model, inflight, pending
      ensures Valid() && model == Next(old(model), CryptoAdapter.Disconnect) && txLen == 0
    {
      hide Inv, Ends;
      txLen := 0;
      for i := 0 to INFLIGHT_MAX
        invariant Valid() && model == Dropped(old(model), i) && txLen == 0
      {
        if inflight[i].Some? {
          var d := inflight[i].value.(status := -2);
          EndsKeeps(model, i, d);
          EndsSlots(model, i, d);
          QueueCompletion(d, i);
          inflight[i] := None;
        }
      }
    }
  }

  lemma EndsSlots(a: Adapter, k: nat, d: Completion)
    requires k < |a.slots| && a.slots[k].Used?
    ensures Ends(a, k, d).slots == a.slots[k := Free]
  {
  }
}
