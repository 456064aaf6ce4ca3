/** Circular intrusive doubly linked queues (kernel/kqueue.h).

    A node is a heap location that embeds a KQUEUE. `Rings` is the abstract view
    of the heap of links: every node that currently heads a circular list is mapped
    to the list's elements. A self-linked node is the head of an empty list, and a
    node that is neither a head nor an element carries stale links. */
module KQueue {
  datatype Node =
    | Tsk(t: nat)    // TCB.qnode of task t
    | Wtm(t: nat)    // TCB.wtmeb.queue of task t
    | Line(p: nat)   // RDYQ.priq[p]
    | SemQ(i: nat)   // OBJCB.waitq of semaphore i
    | FlgQ(i: nat)   // OBJCB.waitq of eventflag i
    | MbxQ(i: nat)   // OBJCB.waitq of mailbox i
    | FreeTcb
    | FreeSem
    | TimerQ

  type Rings = map<Node, seq<Node>>

  ghost predicate NoDup<T>(xs: seq<T>) {
    forall i, j :: 0 <= i < j < |xs| ==> xs[i] != xs[j]
  }

  /** The list without `e`. */
  function Without(xs: seq<Node>, e: Node): (r: seq<Node>)
    ensures forall n :: n in r <==> n in xs && n != e
    ensures |r| <= |xs|
  {
    if xs == [] then []
    else if xs[0] == e then Without(xs[1..], e)
    else [xs[0]] + Without(xs[1..], e)
  }

  lemma {:induction false} WithoutAbsent(xs: seq<Node>, e: Node)
    requires e !in xs
    ensures Without(xs, e) == xs
  {
    if xs != [] { WithoutAbsent(xs[1..], e); }
  }

  lemma {:induction false} WithoutAt(xs: seq<Node>, k: nat)
    requires NoDup(xs) && k < |xs|
    ensures Without(xs, xs[k]) == xs[..k] + xs[k + 1..]
  {
    if k == 0 {
      WithoutAbsent(xs[1..], xs[0]);
    } else {
      WithoutAt(xs[1..], k - 1);
      assert xs[..k] == [xs[0]] + xs[1..][..k - 1];
    }
  }

  lemma WithoutNoDup(xs: seq<Node>, e: Node)
    requires NoDup(xs)
    ensures NoDup(Without(xs, e))
  {
    if e in xs {
      var k :| 0 <= k < |xs| && xs[k] == e;
      WithoutAt(xs, k);
    } else {
      WithoutAbsent(xs, e);
    }
  }

  // ---- the operations on the abstract view ----

  function Init(m: Rings, e: Node): Rings {
    m[e := []]
  }

  function InsertAt(m: Rings, e: Node, h: Node, k: nat): Rings
    requires h in m && h != e && k <= |m[h]|
  {
    (m - {e})[h := m[h][..k] + [e] + m[h][k..]]
  }

  function At(m: Rings, h: Node): seq<Node> {
    if h in m then m[h] else []
  }

  function Append(m: Rings, e: Node, h: Node): Rings {
    (m - {e})[h := At(m, h) + [e]]
  }

  function Remove(m: Rings, e: Node): Rings {
    map h | h in m :: Without(m[h], e)
  }

  ghost predicate IsElem(m: Rings, e: Node) {
    exists h :: h in m && e in m[h]
  }

  /** Not linked into any list and not the head of a non-empty one. */
  ghost predicate Unlinked(m: Rings, e: Node) {
    !IsElem(m, e) && (e in m ==> m[e] == [])
  }

  /** What `kqueue_remove` needs of its argument: stale links would corrupt a list. */
  ghost predicate Removable(m: Rings, e: Node) {
    if e in m then m[e] == [] else IsElem(m, e)
  }

  /** Lists share no element, repeat none, and no element is itself a head. */
  ghost predicate Separate(m: Rings) {
    && (forall h, n :: h in m && n in m[h] ==> n !in m)
    && (forall h, g, n :: h in m && g in m && n in m[h] && n in m[g] ==> h == g)
    && (forall h :: h in m ==> NoDup(m[h]))
  }

  lemma AppendIsInsert(m: Rings, e: Node, h: Node)
    requires h in m && h != e
    ensures Append(m, e, h) == InsertAt(m, e, h, |m[h]|)
  {
    assert m[h][..|m[h]|] + [e] + m[h][|m[h]|..] == m[h] + [e];
  }

  lemma RemoveAbsent(m: Rings, e: Node)
    requires !IsElem(m, e)
    ensures Remove(m, e) == m
  {
    forall h | h in m ensures Without(m[h], e) == m[h] {
      WithoutAbsent(m[h], e);
    }
  }

  lemma RemoveFrom(m: Rings, e: Node, h: Node)
    requires Separate(m) && h in m && e in m[h]
    ensures e !in m && IsElem(m, e) && Remove(m, e) == m[h := Without(m[h], e)]
  {
    forall g | g in m && g != h ensures Without(m[g], e) == m[g] {
      WithoutAbsent(m[g], e);
    }
  }

  lemma SeparateRemove(m: Rings, e: Node)
    requires Separate(m)
    ensures Separate(Remove(m, e))
  {
    forall h | h in m ensures NoDup(Without(m[h], e)) {
      WithoutNoDup(m[h], e);
    }
  }

  lemma SeparateInsert(m: Rings, e: Node, h: Node, k: nat)
    requires Separate(m) && Unlinked(m, e) && h in m && h != e && k <= |m[h]|
    ensures Separate(InsertAt(m, e, h, k))
  {
    var r := InsertAt(m, e, h, k);
    NoDupInsert(m[h], k, e);
    InsertMembers(m[h], k, e);
    hide NoDup;
    assert r[h] == m[h][..k] + [e] + m[h][k..];
    forall g | g in r && g != h ensures g in m && r[g] == m[g] && e !in r[g] {}
  }

  lemma NoDupInsert<T>(xs: seq<T>, k: nat, e: T)
    requires NoDup(xs) && k <= |xs| && e !in xs
    ensures NoDup(xs[..k] + [e] + xs[k..])
  {
  }

  lemma InsertMembers(xs: seq<Node>, k: nat, e: Node)
    requires k <= |xs|
    ensures forall n :: n in xs[..k] + [e] + xs[k..] <==> n == e || n in xs
  {
    assert xs == xs[..k] + xs[k..];
  }

  // ---- the links in memory ----

  type Links = map<Node, Node>

  /** Head, elements, head again: one full walk round the ring. */
  function Walk(h: Node, xs: seq<Node>): seq<Node> {
    [h] + xs + [h]
  }

  ghost predicate Linked(next: Links, prev: Links, a: Node, b: Node) {
    a in next && next[a] == b && b in prev && prev[b] == a
  }

  ghost predicate Chained(next: Links, prev: Links, w: seq<Node>) {
    forall i, j :: 0 <= i && j == i + 1 && j < |w| ==> Linked(next, prev, w[i], w[j])
  }

  ghost predicate Ring(next: Links, prev: Links, h: Node, xs: seq<Node>) {
    Chained(next, prev, Walk(h, xs))
  }

  /** A ring none of whose nodes is written keeps its shape. */
  lemma RingFrame(next: Links, prev: Links, next': Links, prev': Links, h: Node, xs: seq<Node>)
    requires Ring(next, prev, h, xs)
    requires forall n :: n in next && (n == h || n in xs) ==> n in next' && next'[n] == next[n]
    requires forall n :: n in prev && (n == h || n in xs) ==> n in prev' && prev'[n] == prev[n]
    ensures Ring(next', prev', h, xs)
  {
    var w := Walk(h, xs);
    forall i, j | 0 <= i && j == i + 1 && j < |w| ensures Linked(next', prev', w[i], w[j]) {
      assert Linked(next, prev, w[i], w[j]);
      assert w[i] == h || w[i] in xs by { if i > 0 { assert w[i] == xs[i - 1]; } }
      assert w[j] == h || w[j] in xs by { if j <= |xs| { assert w[j] == xs[j - 1]; } }
    }
  }

  /** Only the two ends of a walk may be the same node. */
  ghost predicate Simple(w: seq<Node>) {
    forall i, j :: 0 <= i < j < |w| && !(i == 0 && j == |w| - 1) ==> w[i] != w[j]
  }

  lemma WalkSimple(h: Node, xs: seq<Node>)
    requires NoDup(xs) && h !in xs
    ensures Simple(Walk(h, xs))
  {
    var w := Walk(h, xs);
    forall i, j | 0 <= i < j < |w| && !(i == 0 && j == |w| - 1) ensures w[i] != w[j] {
      if i > 0 { assert w[i] == xs[i - 1]; }
      if j < |w| - 1 { assert w[j] == xs[j - 1]; }
    }
  }

  lemma ChainedInsert(next: Links, prev: Links, w: seq<Node>, k: nat, e: Node)
    requires Chained(next, prev, w) && Simple(w) && k + 1 < |w| && e !in w
    ensures Chained(next[e := w[k + 1]][w[k] := e], prev[e := w[k]][w[k + 1] := e],
                    w[..k + 1] + [e] + w[k + 1..])
  {
    var next', prev' := next[e := w[k + 1]][w[k] := e], prev[e := w[k]][w[k + 1] := e];
    var v := w[..k + 1] + [e] + w[k + 1..];
    forall i, j | 0 <= i && j == i + 1 && j < |v| ensures Linked(next', prev', v[i], v[j]) {
      if j <= k {
        assert v[i] == w[i] && v[j] == w[j] && Linked(next, prev, w[i], w[j]);
      } else if i >= k + 2 {
        assert v[i] == w[i - 1] && v[j] == w[j - 1] && Linked(next, prev, w[i - 1], w[j - 1]);
      }
    }
  }

  lemma ChainedRemove(next: Links, prev: Links, w: seq<Node>, k: nat)
    requires Chained(next, prev, w) && Simple(w) && k + 2 < |w|
    ensures Chained(next[w[k] := w[k + 2]], prev[w[k + 2] := w[k]], w[..k + 1] + w[k + 2..])
  {
    var next', prev' := next[w[k] := w[k + 2]], prev[w[k + 2] := w[k]];
    var v := w[..k + 1] + w[k + 2..];
    forall i, j | 0 <= i && j == i + 1 && j < |v| ensures Linked(next', prev', v[i], v[j]) {
      if j <= k {
        assert v[i] == w[i] && v[j] == w[j] && Linked(next, prev, w[i], w[j]);
      } else if i >= k + 1 {
        assert v[i] == w[i + 1] && v[j] == w[j + 1] && Linked(next, prev, w[i + 1], w[j + 1]);
      }
    }
  }

  lemma RingInsert(next: Links, prev: Links, h: Node, xs: seq<Node>, k: nat, e: Node)
    requires Ring(next, prev, h, xs) && NoDup(xs) && h !in xs
    requires k <= |xs| && e !in xs && e != h
    ensures var before, at := Walk(h, xs)[k], Walk(h, xs)[k + 1];
            Ring(next[e := at][before := e], prev[e := before][at := e], h, xs[..k] + [e] + xs[k..])
  {
    var w := Walk(h, xs);
    WalkSimple(h, xs);
    ChainedInsert(next, prev, w, k, e);
    assert w[..k + 1] + [e] + w[k + 1..] == Walk(h, xs[..k] + [e] + xs[k..]);
  }

  lemma RingRemove(next: Links, prev: Links, h: Node, xs: seq<Node>, k: nat)
    requires Ring(next, prev, h, xs) && NoDup(xs) && h !in xs && k < |xs|
    ensures var before, after := Walk(h, xs)[k], Walk(h, xs)[k + 2];
            Ring(next[before := after], prev[after := before], h, xs[..k] + xs[k + 1..])
  {
    var w := Walk(h, xs);
    WalkSimple(h, xs);
    ChainedRemove(next, prev, w, k);
    assert w[..k + 1] + w[k + 2..] == Walk(h, xs[..k] + xs[k + 1..]);
  }

  /** Taking an element out of ring `h` leaves another ring as it was. */
  lemma OtherRing(next: Links, prev: Links, m: Rings, h: Node, k: nat, g: Node)
    requires Separate(m) && h in m && k < |m[h]| && g in m && g != h && Ring(next, prev, g, m[g])
    ensures var before, after := Walk(h, m[h])[k], Walk(h, m[h])[k + 2];
      Ring(next[before := after], prev[after := before], g, Without(m[g], m[h][k]))
  {
    var w := Walk(h, m[h]);
    assert w[k] == h || w[k] in m[h];
    assert w[k + 2] == h || w[k + 2] in m[h];
    WithoutAbsent(m[g], m[h][k]);
    RingFrame(next, prev, next[w[k] := w[k + 2]], prev[w[k + 2] := w[k]], g, m[g]);
  }

  class Heap {
    var next: Links
    var prev: Links
    ghost var rings: Rings

    ghost predicate Valid()
      reads this
    {
      && next.Keys == prev.Keys
      && Separate(rings)
      && forall h :: h in rings ==> Ring(next, prev, h, rings[h])
    }

    /** Memory for `nodes`, not linked into anything yet. */
    constructor (nodes: set<Node>)
      ensures Valid() && next.Keys == nodes && rings == map[]
    {
      next := map n | n in nodes :: n;
      prev := map n | n in nodes :: n;
      rings := map[];
    }

    method KqueueInit(e: Node)
      requires Valid() && e in next && Unlinked(rings, e)
      modifies this
      ensures Valid() && rings == Init(old(rings), e) && next.Keys == old(next.Keys)
    {
      next := next[e := e];
      prev := prev[e := e];
      rings := Init(rings, e);
      forall h | h in rings ensures Ring(next, prev, h, rings[h]) {
        if h != e { RingFrame(old(next), old(prev), next, prev, h, rings[h]); }
      }
    }

    /** Link `entry` in front of node `at`, which is position `k` of list `h`
        (the head itself stands for the end of the list). */
    method KqueueInsert(entry: Node, at: Node, ghost h: Node, ghost k: nat)
      requires Valid() && entry in next && Unlinked(rings, entry)
      requires h in rings && h != entry && k <= |rings[h]| && at == Walk(h, rings[h])[k + 1]
      modifies this
      ensures Valid() && rings == InsertAt(old(rings), entry, h, k) && next.Keys == old(next.Keys)
    {
      ghost var before := Walk(h, rings[h])[k];
      assert Linked(next, prev, before, at);
      prev := prev[entry := prev[at]];
      next := next[entry := at];
      next := next[prev[at] := entry];
      prev := prev[at := entry];
      rings := InsertAt(rings, entry, h, k);
      RingInsert(old(next), old(prev), h, old(rings)[h], k, entry);
      SeparateInsert(old(rings), entry, h, k);
      forall g | g in rings ensures Ring(next, prev, g, rings[g]) {
        if g != h { RingFrame(old(next), old(prev), next, prev, g, rings[g]); }
      }
    }

    /** `queue` ends up without `entry`; a self-linked `entry` is left alone. */
    method KqueueRemove(entry: Node)
      requires Valid() && entry in next && Removable(rings, entry)
      modifies this
      ensures Valid() && rings == Remove(old(rings), entry) && next.Keys == old(next.Keys)
    {
      if next[entry] != entry {
        Unloop(entry);
        ghost var h, k := Locate(entry);
        next := next[prev[entry] := next[entry]];
        prev := prev[next[entry] := prev[entry]];
        Unlink(old(next), old(prev), h, k);
      } else {
        assert IsElem(rings, entry) ==> false by {
          if IsElem(rings, entry) { var h, k := Locate(entry); }
        }
        RemoveAbsent(rings, entry);
      }
    }

    method KqueueRemoveNext(queue: Node) returns (entry: Node)
      requires Valid() && queue in rings && rings[queue] != []
      modifies this
      ensures Valid() && entry == old(rings[queue][0]) && entry in next && next.Keys == old(next.Keys)
      ensures rings == Remove(old(rings), entry)
    {
      Front(queue);
      entry := next[queue];
      ghost var h, k := Locate(entry);
      next := next[queue := next[entry]];
      prev := prev[next[entry] := queue];
      Unlink(old(next), old(prev), h, k);
    }

    method KqueueEmpty(queue: Node) returns (r: bool)
      requires Valid() && queue in rings
      ensures r <==> rings[queue] == []
    {
      Front(queue);
      r := next[queue] == queue;
    }

    /** Following `next` walks round the ring. */
    lemma Follow(h: Node, k: nat)
      requires Valid() && h in rings && k <= |rings[h]|
      ensures var w := Walk(h, rings[h]); w[k] in next && next[w[k]] == w[k + 1]
    {
      var w := Walk(h, rings[h]);
      assert Linked(next, prev, w[k], w[k + 1]);
    }

    lemma HeadApart(h: Node)
      requires Valid() && h in rings
      ensures h !in rings[h] && NoDup(rings[h])
    {
      assert Separate(rings);
    }

    lemma Front(h: Node)
      requires Valid() && h in rings
      ensures h in next && next[h] == (if rings[h] == [] then h else rings[h][0])
      ensures rings[h] != [] ==> next[h] != h
    {
      var w := Walk(h, rings[h]);
      assert Linked(next, prev, w[0], w[1]);
    }

    /** A self-linked head is not an element of any list. */
    lemma Unloop(e: Node)
      requires Valid() && e in next && Removable(rings, e) && next[e] != e
      ensures IsElem(rings, e)
    {
      if e in rings { Front(e); }
    }

    /** The list that holds `entry`, and where. */
    lemma Locate(entry: Node) returns (h: Node, k: nat)
      requires Valid() && IsElem(rings, entry)
      ensures h in rings && k < |rings[h]| && rings[h][k] == entry && entry != h
      ensures entry in next && next[entry] == Walk(h, rings[h])[k + 2] && prev[entry] == Walk(h, rings[h])[k]
      ensures next[entry] != entry && prev[entry] in next && next[entry] in prev
    {
      h :| h in rings && entry in rings[h];
      k :| 0 <= k < |rings[h]| && rings[h][k] == entry;
      var w := Walk(h, rings[h]);
      assert w[k + 1] == entry && Linked(next, prev, w[k], w[k + 1]) && Linked(next, prev, w[k + 1], w[k + 2]);
      WalkSimple(h, rings[h]);
    }

    ghost method Unlink(next0: Links, prev0: Links, h: Node, k: nat)
      requires Separate(rings) && (forall g :: g in rings ==> Ring(next0, prev0, g, rings[g]))
      requires h in rings && k < |rings[h]|
      requires var before, after := Walk(h, rings[h])[k], Walk(h, rings[h])[k + 2];
               next == next0[before := after] && prev == prev0[after := before]
      requires next.Keys == prev.Keys
      modifies this`rings
      ensures Valid() && rings == Remove(old(rings), old(rings)[h][k])
    {
      var was := rings;
      var e := was[h][k];
      var w := Walk(h, was[h]);
      rings := Remove(rings, e);
      SeparateRemove(was, e);
      WithoutAt(was[h], k);
      RingRemove(next0, prev0, h, was[h], k);
      hide Ring, Separate, Without;
      forall g | g in rings ensures Ring(next, prev, g, rings[g]) {
        if g != h { OtherRing(next0, prev0, was, h, k, g); }
      }
    }
  }

  // ---- the loops of the start-up code ----

  function EmptyHeads(hs: seq<Node>): Rings {
    map h | h in hs :: []
  }

  /** Nodes not mentioned anywhere in `m`. */
  ghost predicate Unused(m: Rings, e: Node) { e !in m && !IsElem(m, e) }

  lemma UnusedAdd(m: Rings, hs: seq<Node>, e: Node)
    requires Unused(m, e) && e !in hs
    ensures Unused(m + EmptyHeads(hs), e)
  {
    var r := m + EmptyHeads(hs);
    assert forall h :: h in r ==> r[h] == [] || (h in m && r[h] == m[h]);
  }

  lemma EmptyStart(m: Rings, hs: seq<Node>)
    requires hs == []
    ensures m + EmptyHeads(hs) == m
  {
  }

  lemma EmptyStep(m: Rings, hs: seq<Node>, i: nat)
    requires i < |hs|
    ensures m + EmptyHeads(hs[..i + 1]) == Init(m + EmptyHeads(hs[..i]), hs[i])
  {
    assert hs[..i + 1] == hs[..i] + [hs[i]];
  }

  /** `kqueue_init` for each of a table's queue heads. */
  method InitHeads(kq: Heap, hs: seq<Node>)
    requires kq.Valid() && NoDup(hs) && forall h :: h in hs ==> h in kq.next && Unused(kq.rings, h)
    modifies kq
    ensures kq.Valid() && kq.next.Keys == old(kq.next.Keys)
    ensures kq.rings == old(kq.rings) + EmptyHeads(hs)
  {
    hide Heap.Valid, Unused, Unlinked, EmptyHeads;
    ghost var m := kq.rings;
    assert m + EmptyHeads(hs[..0]) == m by { EmptyStart(m, hs[..0]); }
    for i := 0 to |hs|
      invariant kq.Valid() && kq.next.Keys == old(kq.next.Keys)
      invariant kq.rings == m + EmptyHeads(hs[..i])
    {
      UnusedAdd(m, hs[..i], hs[i]);
      UnusedUnlinked(kq.rings, hs[i]);
      kq.KqueueInit(hs[i]);
      EmptyStep(m, hs, i);
    }
    assert hs[..|hs|] == hs;
  }

  lemma UnusedUnlinked(m: Rings, e: Node)
    requires Unused(m, e)
    ensures Unlinked(m, e)
  {
  }

  lemma UnusedPut(m: Rings, h: Node, xs: seq<Node>, e: Node)
    requires Unused(m, e) && e != h && e !in xs
    ensures Unused(m[h := xs], e)
  {
    var r := m[h := xs];
    assert forall g :: g in r ==> g == h || (g in m && r[g] == m[g]);
  }

  /** A free list: its head initialised, then every node of a table put at its end. */
  method InitFreeList(kq: Heap, head: Node, ns: seq<Node>)
    requires kq.Valid() && NoDup(ns) && head !in ns && head in kq.next && Unused(kq.rings, head)
    requires forall n :: n in ns ==> n in kq.next && Unused(kq.rings, n)
    modifies kq
    ensures kq.Valid() && kq.next.Keys == old(kq.next.Keys)
    ensures kq.rings == old(kq.rings)[head := ns]
  {
    hide Heap.Valid, Unused, Unlinked;
    ghost var m := kq.rings;
    UnusedUnlinked(m, head);
    kq.KqueueInit(head);
    for i := 0 to |ns|
      invariant kq.Valid() && kq.next.Keys == old(kq.next.Keys)
      invariant kq.rings == m[head := ns[..i]]
    {
      var e := ns[i];
      UnusedPut(m, head, ns[..i], e);
      UnusedUnlinked(kq.rings, e);
      UnusedKey(kq.rings, e);
      kq.KqueueInsert(e, head, head, i);
      assert ns[..i][..i] + [e] + ns[..i][i..] == ns[..i + 1];
    }
    assert ns[..|ns|] == ns;
  }

  lemma UnusedKey(m: Rings, e: Node)
    requires Unused(m, e)
    ensures e !in m && m - {e} == m
  {
  }
}
