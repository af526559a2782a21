/**
 Connection tracking (doca/object.h): upstream ports handed out per residue
 class and a reuse table from (client pod, client port, backend pod) to the
 port. The table refines a finite map; ports in use and table entries are in
 bijection at every step.
 */
module Conntrack {
  import opened ProbeTable
  import opened Modular

  const BASE: nat := 32768

  datatype Upstream = Upstream(inUse: bool, key: Key, l7Mode: nat, clientFinSent: bool, backendFinSeen: bool,
                               deliverySeq: nat)

  // ---- ports of one residue class ----------------------------------------

  function Stride(s: nat): (r: nat) ensures r >= 1 { if s < 1 then 1 else s }

  /** The port encodes the worker that owns its return path. */
  predicate InClass(p: nat, owner: nat, stride: nat) { p % Stride(stride) == owner % Stride(stride) }

  /** Lowest upstream port p with p % s == owner % s. */
  function First(owner: nat, s: nat): nat
    requires s >= 1
  {
    BASE + (owner + s - BASE % s) % s
  }

  function Candidates(first: nat, s: nat): nat
    requires s >= 1 && first < PORTS
  {
    (PORTS - first + s - 1) / s
  }

  lemma FirstInClass(owner: nat, s: nat)
    requires s >= 1
    ensures BASE <= First(owner, s) < BASE + s && First(owner, s) % s == owner % s
  {
    var x := owner + s - BASE % s;
    var f := First(owner, s);
    assert f == x % s + BASE % s + BASE / s * s;
    Multiple(x % s + BASE % s, BASE / s, s);
    Multiple(x % s + BASE % s, x / s, s);
    assert x % s + BASE % s + x / s * s == owner + s;
    Multiple(owner, 1, s);
  }

  lemma Order(a: int, b: int, s: int)
    requires s >= 1 && a * s > b * s - s
    ensures a >= b
  {
    assert a < b ==> a * s <= (b - 1) * s;
  }

  lemma Steps(p: nat, f: nat, s: nat) returns (j: nat)
    requires s >= 1 && p % s == f % s && p > f - s
    ensures p == f + j * s
  {
    var a, b, r := p / s, f / s, p % s;
    assert p == a * s + r && f == b * s + r;
    Order(a, b, s);
    j := a - b;
    assert j * s == a * s - b * s;
  }

  /** The candidates enumerate exactly the upstream ports of the class. */
  lemma ClassIndex(owner: nat, s: nat, p: nat) returns (j: nat)
    requires s >= 1 && BASE <= p < PORTS && p % s == owner % s && First(owner, s) < PORTS
    ensures j < Candidates(First(owner, s), s) && p == First(owner, s) + j * s
  {
    var f := First(owner, s);
    FirstInClass(owner, s);
    hide First, Candidates;
    j := Steps(p, f, s);
    CandidateBound(f, s, j);
  }

  lemma CandidateBound(f: nat, s: nat, j: nat)
    requires s >= 1 && f < PORTS
    ensures j < Candidates(f, s) <==> f + j * s < PORTS
  {
    var x := PORTS - f + s - 1;
    var c := Candidates(f, s);
    assert x == c * s + x % s;
    if j < c {
      assert (j + 1) * s <= c * s;
    } else {
      assert j * s >= c * s;
    }
  }

  // ---- pigeonhole --------------------------------------------------------

  ghost function PortsBelow(t: Table, n: nat): set<nat>
    requires n <= HT && forall i :: 0 <= i < n ==> t[i].Used?
  {
    set i | 0 <= i < n :: t[i].port
  }

  lemma {:induction false} DistinctPorts(t: Table, n: nat)
    requires n <= HT && forall i :: 0 <= i < n ==> t[i].Used?
    requires forall i, j :: 0 <= i < j < n ==> t[i].port != t[j].port
    ensures |PortsBelow(t, n)| == n
  {
    if n > 0 {
      DistinctPorts(t, n - 1);
      assert PortsBelow(t, n) == PortsBelow(t, n - 1) + {t[n - 1].port};
    } else {
      assert PortsBelow(t, 0) == {};
    }
  }

  lemma {:induction false} BoundedSet(s: set<nat>, n: nat)
    requires forall x :: x in s ==> x < n
    ensures |s| <= n
  {
    if n == 0 {
      assert s == {};
    } else {
      BoundedSet(s - {n - 1}, n - 1);
    }
  }

  /** More slots than ports: with one port per entry the table always has a free slot. */
  lemma RoomInTable(t: Table) returns (f: int)
    requires forall i :: Pos(i) && t[i].Used? ==> t[i].port < PORTS
    requires forall i, j :: Pos(i) && Pos(j) && i != j && t[i].Used? && t[j].Used? ==> t[i].port != t[j].port
    ensures Pos(f) && t[f].Free?
  {
    if forall i :: Pos(i) ==> t[i].Used? {
      DistinctPorts(t, HT);
      BoundedSet(PortsBelow(t, HT), PORTS);
      assert false;
    }
    f :| Pos(f) && t[f].Free?;
  }

  // ---- the tracker -------------------------------------------------------

  /** Every port in use has exactly its own table entry, and the other way round. */
  ghost predicate Linked(up: seq<Upstream>, t: Table, index: map<Key, int>)
    requires |up| == PORTS
  {
    && (forall k :: k in index ==> Pos(index[k]) && t[index[k]].Used? && t[index[k]].key == k
                                   && BASE <= t[index[k]].port < PORTS
                                   && up[t[index[k]].port].inUse && up[t[index[k]].port].key == k)
    && (forall p :: BASE <= p < PORTS && up[p].inUse ==>
          up[p].key in index && Pos(index[up[p].key]) && t[index[up[p].key]].Used? && t[index[up[p].key]].port == p)
  }

  lemma LinkedRoom(up: seq<Upstream>, t: Table, index: map<Key, int>) returns (f: int)
    requires |up| == PORTS && Linked(up, t, index) && Indexed(t, index)
    ensures Pos(f) && t[f].Free?
  {
    forall i | Pos(i) && t[i].Used?
      ensures t[i].port < PORTS && up[t[i].port].key == t[i].key
    {
      assert index[t[i].key] == i;
    }
    f := RoomInTable(t);
  }

  /** Every key of `index` that `index'` keeps stands for the same entry, wherever it moved. */
  ghost predicate SameEntries(t: Table, index: map<Key, int>, t': Table, index': map<Key, int>)
  {
    forall k :: k in index && k in index' ==> Pos(index[k]) && Pos(index'[k]) && t'[index'[k]] == t[index[k]]
  }

  lemma LinkedAfterCreate(up: seq<Upstream>, t: Table, index: map<Key, int>, t': Table, index': map<Key, int>,
                          port: nat, u: Upstream)
    requires |up| == PORTS && Linked(up, t, index) && BASE <= port < PORTS && !up[port].inUse && u.inUse
    requires u.key !in index && index'.Keys == index.Keys + {u.key} && SameEntries(t, index, t', index')
    requires Pos(index'[u.key]) && t'[index'[u.key]] == Used(u.key, port)
    ensures Linked(up[port := u], t', index')
  {
  }

  lemma LinkedAfterRelease(up: seq<Upstream>, t: Table, index: map<Key, int>, t': Table, index': map<Key, int>,
                           port: nat)
    requires |up| == PORTS && Linked(up, t, index) && BASE <= port < PORTS && up[port].inUse
    requires index'.Keys == index.Keys - {up[port].key} && SameEntries(t, index, t', index')
    ensures Linked(up[port := up[port].(inUse := false)], t', index')
  {
  }

  /** Where the walk over the class begins: at the cursor, if it points into the class's range. */
  function StartAt(cursor: nat, first: nat, s: nat, candidates: nat): nat
    requires s >= 1 && candidates >= 1
  {
    if cursor > first && cursor < PORTS then ((cursor - first + s - 1) / s) % candidates else 0
  }

  /** The port is candidate number `k` of the walk, and those before it are taken. */
  ghost predicate FirstFreeAt(up: seq<Upstream>, first: nat, s: nat, candidates: nat, start: nat, port: nat, k: nat)
    requires candidates >= 1
  {
    && k < candidates && port == Nth(first, s, candidates, start, k)
    && forall j :: 0 <= j < k ==>
         Nth(first, s, candidates, start, j) < |up| && up[Nth(first, s, candidates, start, j)].inUse
  }

  /** The port is the first free one of its class in cyclic order from the cursor. */
  ghost predicate FirstFree(up: seq<Upstream>, cursor: nat, owner: nat, s: nat, port: nat)
    requires s >= 1
  {
    var first := First(owner, s);
    first < PORTS && var candidates := Candidates(first, s);
    candidates >= 1 && exists k :: FirstFreeAt(up, first, s, candidates, StartAt(cursor, first, s, candidates), port, k)
  }

  class Tracker {
    const upstream: array<Upstream>
    const ht: array<Slot>
    var nextUport: nat
    /** Where each tracked key sits in the table. */
    ghost var index: map<Key, int>

    ghost predicate Valid()
      reads `index, upstream, ht
    {
      && upstream.Length == PORTS && ht.Length == HT
      && Chained(ht[..]) && Indexed(ht[..], index) && Linked(upstream[..], ht[..], index)
    }

    /** The map the table stands for. */
    ghost function View(): map<Key, nat>
      requires Valid()
      reads `index, upstream, ht
    {
      map k | k in index :: ht[index[k]].port
    }

    constructor ()
      ensures Valid() && View() == map[] && fresh(upstream) && fresh(ht)
      ensures forall p :: 0 <= p < PORTS ==> !upstream[p].inUse
    {
      upstream := new Upstream[PORTS](i => Upstream(false, Key(0, 0, 0), 0, false, false, 0));
      ht := new Slot[HT](i => Free);
      nextUport := 0;
      index := map[];
    }

    /** The port tracked for the key, or 0. */
    method Find(k: Key) returns (port: nat)
      requires Valid()
      ensures port == if k in View() then View()[k] else 0
    {
      hide Hash;
      var home := Hash(k);
      for n := 0 to HT
        invariant Probed(ht[..], k, n)
      {
        var i := (home + n) % HT;
        assert i == Walk(home, n);
        if ht[i].Free? {
          AbsentAtFree(ht[..], index, k, n);
          return 0;
        }
        if ht[i].key == k {
          return ht[i].port;
        }
      }
      AbsentWhenAllProbed(ht[..], index, k);
      return 0;
    }

    /** First free port of the owner's residue class from the round-robin cursor, or 0. */
    method PickPort(owner: nat, stride: nat) returns (port: nat)
      requires upstream.Length == PORTS
      ensures port == 0 ==>
                forall p :: BASE <= p < PORTS && InClass(p, owner, stride) ==> upstream[p].inUse
      ensures port != 0 ==> BASE <= port < PORTS && !upstream[port].inUse && InClass(port, owner, stride)
      ensures port != 0 ==> FirstFree(upstream[..], nextUport, owner, Stride(stride), port)
    {
      var s := Stride(stride);
      var first := First(owner, s);
      FirstInClass(owner, s);
      if first >= PORTS {
        ClassEmpty(owner, s);
        assert forall p {:trigger InClass(p, owner, stride)} :: InClass(p, owner, stride) == InClass(p, owner, s);
        return 0;
      }
      var candidates := Candidates(first, s);
      CandidateBound(first, s, 0);
      var start := StartAt(nextUport, first, s, candidates);
      hide First, Candidates, Nth, InClass;
      for k := 0 to candidates
        invariant forall j :: 0 <= j < k ==> Nth(first, s, candidates, start, j) < PORTS
                                             && upstream[Nth(first, s, candidates, start, j)].inUse
      {
        var p := Nth(first, s, candidates, start, k);
        NthInClass(owner, s, start, k);
        assert InClass(p, owner, stride) by { SameStride(p, owner, stride); }
        if !upstream[p].inUse {
          assert FirstFreeAt(upstream[..], first, s, candidates, start, p, k);
          return p;
        }
      }
      forall p | BASE <= p < PORTS && InClass(p, owner, stride)
        ensures upstream[p].inUse
      {
        SameStride(p, owner, stride);
        var k := NthCovers(owner, s, start, p);
        assert upstream[Nth(first, s, candidates, start, k)].inUse;
      }
      return 0;
    }

    /** Enter a key the table does not hold into the first free slot of its probe path. */
    method Insert(k: Key, port: nat)
      requires upstream.Length == PORTS && ht.Length == HT && Chained(ht[..]) && Indexed(ht[..], index) && k !in index
      requires exists f :: Pos(f) && ht[f].Free?
      modifies ht, this`index
      ensures Chained(ht[..]) && Indexed(ht[..], index) && index.Keys == old(index).Keys + {k}
      ensures ht[index[k]] == Used(k, port)
      ensures forall q :: q in old(index) ==> index[q] == old(index)[q] && ht[index[q]] == old(ht[index[q]])
    {
      hide Hash;
      ghost var f :| Pos(f) && ht[f].Free?;
      var home := Hash(k);
      var n := 0;
      while n < HT
        invariant n <= Dist(home, f)
        invariant Probed(ht[..], k, n) && ht[..] == old(ht[..])
        modifies ht, this`index
      {
        var i := (home + n) % HT;
        assert i == Walk(home, n);
        if ht[i].Free? {
          InsertKeeps(ht[..], index, k, port, n);
          ht[i] := Used(k, port);
          index := index[k := i];
          assert ht[..] == old(ht[..])[i := Used(k, port)];
          return;
        }
        assert Walk(home, Dist(home, f)) == f;
        n := n + 1;
      }
    }

    /** Put a free port into use for a key the table does not hold. */
    method Bind(port: nat, u: Upstream)
      requires Valid() && BASE <= port < PORTS && !upstream[port].inUse && u.inUse && u.key !in View()
      modifies upstream, ht, this`index
      ensures Valid() && View() == old(View())[u.key := port] && upstream[..] == old(upstream[..])[port := u]
    {
      ghost var f := LinkedRoom(upstream[..], ht[..], index);
      assert ht[f].Free?;
      Entries(ht[..], index);
      hide Linked, Chained, Indexed, Pos;
      ghost var up, t, x := upstream[..], ht[..], index;
      upstream[port] := u;
      Insert(u.key, port);
      Entries(ht[..], index);
      assert upstream[..] == up[port := u];
      LinkedAfterCreate(up, t, x, ht[..], index, port, u);
    }

    /** Track a new key under a fresh port of the owner's class; 0 when the class is exhausted. */
    method Create(k: Key, l7Mode: nat, owner: nat, stride: nat) returns (port: nat)
      requires Valid() && k !in View()
      modifies this, upstream, ht
      ensures Valid()
      ensures port == 0 ==> View() == old(View()) && upstream[..] == old(upstream[..])
                            && forall p :: BASE <= p < PORTS && InClass(p, owner, stride) ==> upstream[p].inUse
      ensures port != 0 ==> BASE <= port < PORTS && InClass(port, owner, stride) && !old(upstream[port].inUse)
                            && View() == old(View())[k := port]
                            && upstream[..] == old(upstream[..])[port := Upstream(true, k, l7Mode, false, false, 0)]
                            && FirstFree(old(upstream[..]), old(nextUport), owner, Stride(stride), port)
                            && nextUport == (if port + 1 >= PORTS then BASE else port + 1)
      ensures port == 0 ==> nextUport == old(nextUport)
    {
      hide InClass, Linked, Chained, Indexed, FirstFree;
      port := PickPort(owner, stride);
      if port != 0 {
        Bind(port, Upstream(true, k, l7Mode, false, false, 0));
        nextUport := if port + 1 >= PORTS then BASE else port + 1;
      }
    }

    /** Slot holding the key, or HT when no probe finds it. */
    method Locate(k: Key) returns (i: nat)
      requires Valid()
      ensures i == if k in index then index[k] else HT
    {
      hide Hash;
      var home := Hash(k);
      for n := 0 to HT
        invariant Probed(ht[..], k, n)
      {
        var p := (home + n) % HT;
        assert p == Walk(home, n);
        if ht[p].Free? {
          AbsentAtFree(ht[..], index, k, n);
          return HT;
        }
        if ht[p].key == k {
          return p;
        }
      }
      AbsentWhenAllProbed(ht[..], index, k);
      return HT;
    }

    /** Empty slot `idx` and pull back the entries that were probed through it. */
    method BackwardShift(idx: nat)
      requires ht.Length == HT && idx < HT && ht[idx].Used? && Chained(ht[..]) && Indexed(ht[..], index)
      requires exists f :: Pos(f) && ht[f].Free?
      modifies ht, this`index
      ensures Chained(ht[..]) && Indexed(ht[..], index) && index.Keys == old(index).Keys - {old(ht[idx].key)}
      ensures forall k :: k in index ==> ht[index[k]] == old(ht[index[k]])
    {
      hide Hash, Chained, Indexed, Shifting, Stores;
      ghost var f :| Pos(f) && ht[f].Free?;
      var hole, p := idx, (idx + 1) % HT;
      ghost var entries := ShiftStart(ht[..], index, hole, p);
      index := index - {ht[idx].key};
      while ht[p].Used?
        invariant Pos(hole) && Pos(p) && hole != p && ht[f].Free? && ht[hole].Used? && Dist(hole, p) <= Dist(hole, f)
        invariant Shifting(ht[..], index, hole, p) && Stores(ht[..], index, entries)
        decreases Dist(p, f)
      {
        var home := Hash(ht[p].key);
        ghost var t := ht[..];
        assert (p + 1) % HT == Walk(p, 1);
        if Dist(home, p) >= Dist(hole, p) {
          ShiftMove(t, index, hole, p, entries);
          index := index[ht[p].key := hole];
          ht[hole] := ht[p];
          assert ht[..] == t[hole := t[p]];
          hole := p;
        } else {
          ShiftSkip(t, index, hole, p);
        }
        p := (p + 1) % HT;
      }
      ShiftEnd(ht[..], index, hole, p, entries);
      ghost var t := ht[..];
      ht[hole] := Free;
      assert ht[..] == t[hole := Free];
      StoredEntries(ht[..], index, entries);
    }

    /** Forget an upstream port; ports not in use are left alone. */
    method Release(port: nat)
      requires Valid() && port < PORTS
      modifies this, upstream, ht
      ensures Valid()
      ensures if port < BASE || !old(upstream[port].inUse)
              then View() == old(View()) && upstream[..] == old(upstream[..])
              else View() == old(View()) - {old(upstream[port].key)}
                   && upstream[..] == old(upstream[..])[port := old(upstream[port]).(inUse := false)]
    {
      if port < BASE || !upstream[port].inUse {
        return;
      }
      ghost var f := LinkedRoom(upstream[..], ht[..], index);
      assert ht[f].Free?;
      var k := upstream[port].key;
      var idx := Locate(k);
      Entries(ht[..], index);
      assert idx == index[k];
      hide Linked, Chained, Indexed, Pos;
      ghost var up, t, x := upstream[..], ht[..], index;
      upstream[port] := upstream[port].(inUse := false);
      BackwardShift(idx);
      Entries(ht[..], index);
      assert upstream[..] == up[port := up[port].(inUse := false)];
      LinkedAfterRelease(up, t, x, ht[..], index, port);
    }
  }

  lemma StoredEntries(t: Table, index: map<Key, int>, entries: map<Key, Slot>)
    requires Stores(t, index, entries)
    ensures index.Keys == entries.Keys && forall k :: k in index ==> Pos(index[k]) && t[index[k]] == entries[k]
  {
  }

  lemma Entries(t: Table, index: map<Key, int>)
    requires Indexed(t, index)
    ensures forall k :: k in index ==> Pos(index[k]) && t[index[k]].Used? && t[index[k]].key == k
    ensures forall i :: Pos(i) && t[i].Used? ==> t[i].key in index && index[t[i].key] == i
  {
  }

  /** The candidate a search from `start` visits as number `k`. */
  function Nth(first: nat, s: nat, n: nat, start: nat, k: nat): nat
    requires n >= 1
  {
    first + ((start + k) % n) * s
  }

  lemma AtInClass(owner: nat, s: nat, j: nat)
    requires s >= 1 && First(owner, s) < PORTS && j < Candidates(First(owner, s), s)
    ensures var p := First(owner, s) + j * s; BASE <= p < PORTS && InClass(p, owner, s)
  {
    FirstInClass(owner, s);
    hide First, Candidates;
    var f := First(owner, s);
    CandidateBound(f, s, j);
    Multiple(f, j, s);
  }

  lemma NthInClass(owner: nat, s: nat, start: nat, k: nat)
    requires s >= 1 && First(owner, s) < PORTS && Candidates(First(owner, s), s) >= 1
    ensures var f := First(owner, s); var p := Nth(f, s, Candidates(f, s), start, k);
            BASE <= p < PORTS && InClass(p, owner, s)
  {
    hide First, Candidates, InClass;
    AtInClass(owner, s, (start + k) % Candidates(First(owner, s), s));
  }

  /** The search misses no port of the class, wherever it starts. */
  lemma NthCovers(owner: nat, s: nat, start: nat, p: nat) returns (k: nat)
    requires s >= 1 && First(owner, s) < PORTS && start < Candidates(First(owner, s), s)
    requires BASE <= p < PORTS && InClass(p, owner, s)
    ensures var f := First(owner, s); k < Candidates(f, s) && Nth(f, s, Candidates(f, s), start, k) == p
  {
    hide First, Candidates;
    var j := ClassIndex(owner, s, p);
    k := Rotate(start, j, Candidates(First(owner, s), s));
  }

  lemma SameStride(p: nat, owner: nat, stride: nat)
    ensures InClass(p, owner, stride) == InClass(p, owner, Stride(stride))
  {
  }

  lemma ClassEmpty(owner: nat, s: nat)
    requires s >= 1 && First(owner, s) >= PORTS
    ensures forall p :: BASE <= p < PORTS ==> !InClass(p, owner, s)
  {
    FirstInClass(owner, s);
    hide First;
    forall p | BASE <= p < PORTS
      ensures !InClass(p, owner, s)
    {
      if p % s == First(owner, s) % s {
        var j := Steps(p, First(owner, s), s);
        assert false;
      }
    }
  }

  /** Walking a cycle of `n` candidates from `start` reaches every one of them. */
  lemma Rotate(start: nat, j: nat, n: nat) returns (k: nat)
    requires start < n && j < n
    ensures k < n && (start + k) % n == j
  {
    k := if j >= start then j - start else j - start + n;
    if start + k >= n {
      Remainder(start + k, 1, start + k - n, n);
    } else {
      Remainder(start + k, 0, start + k, n);
    }
  }
}
