/**
 The open-addressed reuse table of connection tracking as a value: linear
 probing with backward-shift deletion (doca/object.h). Positions form a ring of
 `HT` slots; `Dist(a, b)` is how many steps forward lead from `a` to `b`.
 */
module ProbeTable {

  const HT: nat := 131072
  const PORTS: nat := 65536

  datatype Key = Key(clientPod: int, clientPort: nat, backendPod: int)

  datatype Slot = Free | Used(key: Key, port: nat)

  type Table = t: seq<Slot> | |t| == HT witness seq(HT, i => Free)

  /** A 32-bit word as the source multiplies it. */
  function Word(x: int): nat { x % 0x1_0000_0000 }

  function Hash(k: Key): (h: nat)
    ensures h < HT
  {
    var a := Word(Word(k.clientPod) * 2654435761) as bv32;
    var b := Word(Word(k.clientPort) * 40503) as bv32;
    var c := Word(Word(k.backendPod) * 2246822519) as bv32;
    (a ^ b ^ c) as nat % HT
  }

  predicate Pos(i: int) { 0 <= i < HT }

  function Dist(a: int, b: int): (d: int)
    requires Pos(a) && Pos(b)
    ensures 0 <= d < HT && (d == 0 <==> a == b)
  {
    if b >= a then b - a else b - a + HT
  }

  /** `d` steps forward from `a`. */
  function Walk(a: int, d: int): (q: int)
    requires Pos(a) && 0 <= d < HT
    ensures Pos(q) && Dist(a, q) == d && q == (a + d) % HT
  {
    if a + d < HT then a + d else a + d - HT
  }

  function Home(t: Table, i: int): int
    requires Pos(i) && t[i].Used?
  {
    Hash(t[i].key)
  }

  /** Slot `q` lies on the probe path of the entry at `i`, strictly before it. */
  predicate OnPath(t: Table, i: int, q: int)
    requires Pos(i) && Pos(q) && t[i].Used?
  {
    Dist(Home(t, i), q) < Dist(Home(t, i), i)
  }

  /** No entry is cut off from its home slot. */
  ghost predicate Chained(t: Table)
  {
    forall i, q :: Pos(i) && Pos(q) && t[i].Used? && OnPath(t, i, q) ==> t[q].Used?
  }

  /** `index` says where each key sits, and nothing else is stored. */
  ghost predicate Indexed(t: Table, index: map<Key, int>)
  {
    && (forall i :: Pos(i) && t[i].Used? ==> t[i].key in index && index[t[i].key] == i)
    && (forall k :: k in index ==> Pos(index[k]) && t[index[k]].Used? && t[index[k]].key == k)
  }

  /** Everything probed so far from the key's home is used by other keys. */
  ghost predicate Probed(t: Table, k: Key, n: int)
    requires 0 <= n <= HT
  {
    forall d :: 0 <= d < n ==> t[Walk(Hash(k), d)].Used? && t[Walk(Hash(k), d)].key != k
  }

  // ---- lookup and insertion ----------------------------------------------

  /** A free slot on the probe path proves the key absent. */
  lemma AbsentAtFree(t: Table, index: map<Key, int>, k: Key, n: int)
    requires Chained(t) && Indexed(t, index) && 0 <= n < HT && Probed(t, k, n) && t[Walk(Hash(k), n)].Free?
    ensures k !in index
  {
    hide Hash;
    var h := Hash(k);
    forall i | Pos(i) && t[i].Used?
      ensures t[i].key != k
    {
      assert Walk(h, Dist(h, i)) == i;
    }
  }

  lemma AbsentWhenAllProbed(t: Table, index: map<Key, int>, k: Key)
    requires Indexed(t, index) && Probed(t, k, HT)
    ensures k !in index
  {
    hide Hash;
    forall i | Pos(i)
      ensures t[i].Used? ==> t[i].key != k
    {
      assert Walk(Hash(k), Dist(Hash(k), i)) == i;
    }
  }

  /** Filling the first free slot of a probe path keeps every path intact. */
  lemma InsertKeeps(t: Table, index: map<Key, int>, k: Key, port: nat, n: int)
    requires Chained(t) && Indexed(t, index) && k !in index
    requires 0 <= n < HT && Probed(t, k, n) && t[Walk(Hash(k), n)].Free?
    ensures var i := Walk(Hash(k), n);
            Chained(t[i := Used(k, port)]) && Indexed(t[i := Used(k, port)], index[k := i])
  {
    hide Hash;
    var i := Walk(Hash(k), n);
    var t': Table := t[i := Used(k, port)];
    forall j, q | Pos(j) && Pos(q) && t'[j].Used? && OnPath(t', j, q)
      ensures t'[q].Used?
    {
      if j == i {
        assert Walk(Hash(k), Dist(Hash(k), q)) == q;
      } else {
        assert OnPath(t, j, q);
      }
    }
  }

  // ---- deletion by backward shift ----------------------------------------

  /**
   The state of the shift loop: slot `hole` is to be emptied, every slot up to
   `p` has been examined, and only entries from `p` on may still be reached
   through the hole.
   */
  ghost predicate Shifting(t: Table, index: map<Key, int>, hole: int, p: int)
    requires Pos(hole) && Pos(p)
  {
    && hole != p
    && (forall i, q :: Pos(i) && Pos(q) && i != hole && q != hole && t[i].Used? && OnPath(t, i, q) ==> t[q].Used?)
    && (forall i :: Pos(i) && i != hole && t[i].Used? && OnPath(t, i, hole) ==> Dist(hole, i) >= Dist(hole, p))
    && (forall i :: Pos(i) && i != hole && t[i].Used? ==> t[i].key in index && index[t[i].key] == i)
    && (forall k :: k in index ==> Pos(index[k]) && index[k] != hole && t[index[k]].Used? && t[index[k]].key == k)
  }

  lemma ShiftStart(t: Table, index: map<Key, int>, hole: int, p: int) returns (entries: map<Key, Slot>)
    requires Pos(hole) && Pos(p) && Chained(t) && Indexed(t, index) && t[hole].Used? && p == Walk(hole, 1)
    ensures Shifting(t, index - {t[hole].key}, hole, p) && Stores(t, index - {t[hole].key}, entries)
    ensures entries.Keys == index.Keys - {t[hole].key}
    ensures forall k :: k in entries ==> Pos(index[k]) && entries[k] == t[index[k]]
  {
    hide Hash;
    entries := map k | k in index && k != t[hole].key :: t[index[k]];
  }

  /** An entry whose path does not cross the hole stays where it is. */
  lemma ShiftSkip(t: Table, index: map<Key, int>, hole: int, p: int)
    requires Pos(hole) && Pos(p) && Shifting(t, index, hole, p) && t[p].Used? && Walk(p, 1) != hole
    requires Dist(Home(t, p), p) < Dist(hole, p)
    ensures Shifting(t, index, hole, Walk(p, 1))
  {
    hide Hash;
  }

  /** The index finds, for every key, the entry `entries` records. */
  ghost predicate Stores(t: Table, index: map<Key, int>, entries: map<Key, Slot>)
  {
    index.Keys == entries.Keys && forall k :: k in index ==> Pos(index[k]) && t[index[k]] == entries[k]
  }

  /** An entry whose path crosses the hole moves into it and leaves the hole behind. */
  lemma ShiftMove(t: Table, index: map<Key, int>, hole: int, p: int, entries: map<Key, Slot>)
    requires Stores(t, index, entries)
    requires Pos(hole) && Pos(p) && Shifting(t, index, hole, p) && t[p].Used? && Walk(p, 1) != hole
    requires Dist(Home(t, p), p) >= Dist(hole, p)
    ensures Shifting(t[hole := t[p]], index[t[p].key := hole], p, Walk(p, 1))
    ensures Stores(t[hole := t[p]], index[t[p].key := hole], entries)
  {
    hide Hash;
    var t': Table := t[hole := t[p]];
    forall i, q | Pos(i) && Pos(q) && i != p && q != p && t'[i].Used? && OnPath(t', i, q)
      ensures t'[q].Used?
    {
      if q != hole {
        if i == hole {
          assert OnPath(t, p, q);
        } else {
          assert OnPath(t, i, q);
        }
      }
    }
  }

  /** When the probe meets a free slot, emptying the hole breaks no path. */
  lemma ShiftEnd(t: Table, index: map<Key, int>, hole: int, p: int, entries: map<Key, Slot>)
    requires Stores(t, index, entries)
    requires Pos(hole) && Pos(p) && Shifting(t, index, hole, p) && t[p].Free?
    ensures Chained(t[hole := Free]) && Indexed(t[hole := Free], index) && Stores(t[hole := Free], index, entries)
  {
    hide Hash;
    var t': Table := t[hole := Free];
    forall i, q | Pos(i) && Pos(q) && t'[i].Used? && OnPath(t', i, q)
      ensures t'[q].Used?
    {
      assert OnPath(t, i, q);
    }
  }
}
