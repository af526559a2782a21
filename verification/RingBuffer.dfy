/** A queue kept in a fixed ring of cells, read from a moving head. */
module RingBuffer {
  import Modular

  function At(head: nat, i: nat, size: nat): (k: nat)
    requires size > 0
    ensures k < size
  {
    (head + i) % size
  }

  /** The cells, read from the head around the ring, are the queue. */
  ghost predicate Ring<T>(cells: seq<T>, head: nat, queue: seq<T>)
  {
    && head < |cells| && |queue| <= |cells|
    && forall i :: 0 <= i < |queue| ==> cells[At(head, i, |cells|)] == queue[i]
  }

  /** Writing behind the last entry extends the queue and disturbs none of it. */
  lemma Push<T>(cells: seq<T>, head: nat, queue: seq<T>, x: T)
    requires Ring(cells, head, queue) && |queue| < |cells|
    ensures Ring(cells[At(head, |queue|, |cells|) := x], head, queue + [x])
  {
    forall i | 0 <= i < |queue|
      ensures At(head, i, |cells|) != At(head, |queue|, |cells|)
    {
      Modular.Distinct(head + i, head + |queue|, |cells|);
    }
  }

  lemma Pop<T>(cells: seq<T>, head: nat, queue: seq<T>)
    requires Ring(cells, head, queue) && queue != []
    ensures cells[head] == queue[0] && Ring(cells, At(head, 1, |cells|), queue[1..])
  {
    Wraps(head, 0, |cells|);
    forall i | 0 <= i < |queue| - 1
      ensures cells[At(At(head, 1, |cells|), i, |cells|)] == queue[1..][i]
    {
      Wraps(head, i, |cells|);
      assert cells[At(head, i + 1, |cells|)] == queue[i + 1];
    }
  }

  lemma Wraps(head: nat, i: nat, n: nat)
    requires head < n
    ensures At(head, 0, n) == head && At(At(head, 1, n), i, n) == At(head, i + 1, n)
  {
    Modular.Remainder(head, 0, head, n);
    if head + 1 == n {
      Modular.Remainder(n, 1, 0, n);
      Modular.Around(i, n);
    } else {
      Modular.Remainder(head + 1, 0, head + 1, n);
    }
  }

  lemma Size<T>(cells: seq<T>, head: nat, queue: seq<T>)
    requires Ring(cells, head, queue)
    ensures head < |cells| && |queue| <= |cells|
  {
  }
}
