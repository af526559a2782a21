/** The slot table and its id index as the control thread and the receive handlers update them in place. */
module SlotTable {
  import opened Wrappers
  import opened SlotLifecycle

  /** Where the scan for a reusable slot stops. */
  function FirstReusable(slots: seq<Slot>, i: nat): (k: nat)
    requires i <= |slots|
    ensures i <= k <= |slots| && (k < |slots| ==> Reusable(slots[k]))
    ensures forall j :: i <= j < k ==> !Reusable(slots[j])
    decreases |slots| - i
  {
    if i < |slots| && !Reusable(slots[i]) then FirstReusable(slots, i + 1) else i
  }

  /** A registered slot other than `i` bears the id. */
  predicate Shared(slots: seq<Slot>, i: nat, id: int)
  {
    exists k :: 0 <= k < |slots| && k != i && slots[k].registered && slots[k].pod == id
  }

  function FinalizeOne(s: Slot): Slot { if Complete(s) then Finalized(s) else s }

  /** The first slot in cleanup that the removal acknowledgement names. */
  function FindDel(slots: seq<Slot>, a: Ack, i: nat): (k: nat)
    requires i <= |slots|
    ensures i <= k <= |slots| && (k < |slots| ==> Matches(slots[k], a.pod, a.gen))
    decreases |slots| - i
  {
    if i < |slots| && !Matches(slots[i], a.pod, a.gen) then FindDel(slots, a, i + 1) else i
  }

  class Table {
    const pods: array<Slot>
    var slotOf: map<int, nat>

    /** An index entry names a registered slot under its id. */
    ghost predicate Valid()
      reads this, pods
    {
      forall id :: id in slotOf ==>
        slotOf[id] < pods.Length && pods[slotOf[id]].registered && pods[slotOf[id]].pod == id
    }

    /** Every registered slot has its entry. */
    ghost predicate Exact()
      reads this, pods
    {
      forall j :: 0 <= j < pods.Length && pods[j].registered ==> pods[j].pod in slotOf && slotOf[pods[j].pod] == j
    }

    constructor (n: nat, blank: Slot)
      requires !blank.registered
      ensures Valid() && Exact() && fresh(pods) && pods.Length == n && forall j :: 0 <= j < n ==> pods[j] == blank
    {
      pods := new Slot[n](_ => blank);
      slotOf := map[];
    }

    method Put(i: nat, s: Slot)
      requires i < pods.Length
      modifies pods
      ensures pods[..] == old(pods[..])[i := s]
    {
      pods[i] := s;
    }

    /**
     The slot the index gives for an id, checked: never a wrong one, and while
     the index is exact the registered slot that bears the id if there is one.
     */
    method FindPod(id: int) returns (j: Option<nat>)
      requires Valid()
      ensures j.Some? <==> id in slotOf
      ensures j.Some? ==> j.value < pods.Length && pods[j.value].registered && pods[j.value].pod == id
      ensures Exact() ==> (j.None? <==> forall k :: 0 <= k < pods.Length ==> !(pods[k].registered && pods[k].pod == id))
    {
      j := if id in slotOf && pods[slotOf[id]].registered && pods[slotOf[id]].pod == id then Some(slotOf[id]) else None;
    }

    /** Give a connection the first reusable slot, wiped. */
    method AddConnection() returns (at: Option<nat>)
      requires Valid()
      modifies pods
      ensures Valid() && (old(Exact()) ==> Exact())
      ensures var k := FirstReusable(old(pods[..]), 0);
              if k < pods.Length then at == Some(k) && pods[..] == old(pods[..])[k := Connected(old(pods[k]))]
              else at == None && pods[..] == old(pods[..])
    {
      var i := 0;
      while i < pods.Length && !Reusable(pods[i])
        invariant i <= pods.Length && FirstReusable(pods[..], i) == FirstReusable(pods[..], 0)
        invariant Valid() && pods[..] == old(pods[..])
      {
        i := i + 1;
      }
      if i == pods.Length {
        return None;
      }
      Put(i, Connected(pods[i]));
      at := Some(i);
    }

    /**
     Register a slot under the requested id, or under its own index. A slot still
     in cleanup is refused; a registered one only confirms the id it has; an id
     the index knows is refused.
     */
    method Register(i: nat, id: int) returns (pod: Option<int>)
      requires Valid() && i < pods.Length
      modifies this`slotOf, pods
      ensures Valid() && (old(Exact()) ==> Exact())
      ensures var s, want := old(pods[i]), Wanted(i, id);
              if id < -1 || id >= POD_ID_SPACE || !s.conn || s.cleanup then
                pod == None && pods[..] == old(pods[..]) && slotOf == old(slotOf)
              else if s.registered then
                && pods[..] == old(pods[..]) && slotOf == old(slotOf)
                && pod == if id < 0 || id == s.pod then Some(s.pod) else None
              else if want in old(slotOf) then pod == None && pods[..] == old(pods[..]) && slotOf == old(slotOf)
              else
                && pod == Some(want) && pods[..] == old(pods[..])[i := s.(pod := want, registered := true)]
                && slotOf == old(slotOf)[want := i]
    {
      if id < -1 || id >= POD_ID_SPACE || !pods[i].conn || pods[i].cleanup {
        return None;
      }
      if pods[i].registered {
        return if id < 0 || id == pods[i].pod then Some(pods[i].pod) else None;
      }
      var want := Wanted(i, id);
      if want in slotOf {
        return None;
      }
      Put(i, pods[i].(pod := want, registered := true));
      slotOf := slotOf[want := i];
      pod := Some(want);
    }

    /**
     Stop routing to a slot and start its cleanup. The index entry of its id goes
     even if it names another slot, so an exact index stays exact if and only if
     no other registered slot bears the id.
     */
    method BeginCleanup(i: nat, running: set<nat>)
      requires Valid() && i < pods.Length
      modifies this`slotOf, pods
      ensures Valid()
      ensures if old(pods[i]).cleanup then pods[..] == old(pods[..]) && slotOf == old(slotOf)
              else pods[..] == old(pods[..])[i := CleanedUp(old(pods[i]), running)]
                   && slotOf == Cleared(old(slotOf), old(pods[i]).pod)
      ensures old(Exact()) && !old(pods[i]).cleanup ==> (Exact() <==> !Shared(old(pods[..]), i, old(pods[i]).pod))
    {
      if pods[i].cleanup {
        return;
      }
      slotOf := Cleared(slotOf, pods[i].pod);
      Put(i, CleanedUp(pods[i], running));
      assert forall k :: 0 <= k < pods.Length && k != i ==> pods[k] == old(pods[..])[k];
    }

    /** The connection of a slot is gone: clean up what it holds, or just forget the registration. */
    method RemoveConnection(i: nat, running: set<nat>)
      requires Valid() && i < pods.Length
      modifies this`slotOf, pods
      ensures Valid() && slotOf == Cleared(old(slotOf), old(pods[i]).pod)
      ensures var s := old(pods[i]);
              pods[..] == old(pods[..])[i := if MustCleanUp(s) then CleanedUp(s, running).(conn := false)
                                             else Dropped(s)]
      ensures old(Exact()) ==> (Exact() <==> !Shared(old(pods[..]), i, old(pods[i]).pod))
    {
      if MustCleanUp(pods[i]) {
        BeginCleanup(i, running);
        Put(i, pods[i].(conn := false));
      } else {
        slotOf := Cleared(slotOf, pods[i].pod);
        Put(i, Dropped(pods[i]));
      }
      assert forall k :: 0 <= k < pods.Length && k != i ==> pods[k] == old(pods[..])[k];
    }

    /** Record a removal acknowledgement in the first slot in cleanup that it names. */
    method RecordDel(a: Ack)
      requires Valid() && a.del
      modifies pods
      ensures Valid() && (old(Exact()) ==> Exact())
      ensures var k := FindDel(old(pods[..]), a, 0);
              pods[..] == if k < pods.Length && a.ok && a.eu in old(pods[..])[k].delExpected
                          then old(pods[..])[k := RecordedDel(old(pods[..])[k], a)] else old(pods[..])
    {
      var i := 0;
      while i < pods.Length && !Matches(pods[i], a.pod, a.gen)
        invariant i <= pods.Length && FindDel(pods[..], a, i) == FindDel(pods[..], a, 0)
        invariant Valid() && pods[..] == old(pods[..])
      {
        i := i + 1;
      }
      if i < pods.Length && a.ok && a.eu in pods[i].delExpected {
        Put(i, RecordedDel(pods[i], a));
      }
    }

    /** Publish the result of every setup whose units have all answered. */
    method FinalizeAll()
      requires Valid()
      modifies pods
      ensures Valid() && (old(Exact()) ==> Exact())
      ensures forall j :: 0 <= j < pods.Length ==> pods[j] == FinalizeOne(old(pods[j]))
    {
      for i := 0 to pods.Length
        invariant Valid() && (old(Exact()) ==> Exact())
        invariant forall j :: 0 <= j < i ==> pods[j] == FinalizeOne(old(pods[j]))
        invariant forall j :: i <= j < pods.Length ==> pods[j] == old(pods[j])
      {
        if Complete(pods[i]) {
          pods[i] := Finalized(pods[i]);
        }
      }
    }
  }
}
