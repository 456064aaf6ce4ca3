/** The priority ready queue (kernel/rdyq.h): one circular list per priority, a bitmap
    word per 16 priorities, and the cached top priority. */
module ReadyQueue {
  import opened KQueue

  const BITMAPSHIFT: nat := 4
  const BITMAPSZ: nat := 16

  /** The lowest non-empty line at or above `p`, by trying them one after another. */
  function LowestFrom(m: Rings, p: nat, np: nat): (r: nat)
    requires p <= np
    ensures p <= r <= np
    ensures forall i :: p <= i < r ==> Line(i) !in m || m[Line(i)] == []
    ensures r < np ==> Line(r) in m && m[Line(r)] != []
    decreases np - p
  {
    if p == np then np
    else if Line(p) in m && m[Line(p)] != [] then p
    else LowestFrom(m, p + 1, np)
  }

  /** Number of the best non-empty priority line, `np` when all are empty. */
  function TopPri(m: Rings, np: nat): nat {
    LowestFrom(m, 0, np)
  }

  lemma TopPriIs(m: Rings, np: nat, p: nat)
    requires p <= np
    requires forall i :: 0 <= i < p ==> Line(i) !in m || m[Line(i)] == []
    requires p < np ==> Line(p) in m && m[Line(p)] != []
    ensures TopPri(m, np) == p
  {
  }

  // ---- bitmap words ----

  predicate Bit(w: bv32, k: bv32)
    requires k < 32
  {
    w & (1 << k) != 0
  }

  function WithBit(w: bv32, k: bv32): bv32
    requires k < 32
  {
    w | (1 << k)
  }

  function WithoutBit(w: bv32, k: bv32): bv32
    requires k < 32
  {
    w & !(1 << k)
  }

  lemma SetBitRaw(w: bv32, j: bv32, k: bv32)
    requires j < 32 && k < 32
    ensures Bit(w | (1 << k), j) <==> Bit(w, j) || j == k
  {
  }

  lemma ClearBitRaw(w: bv32, j: bv32, k: bv32)
    requires j < 32 && k < 32
    ensures Bit(w & !(1 << k), j) <==> Bit(w, j) && j != k
  {
  }

  lemma SetBit(w: bv32, j: bv32, k: bv32)
    requires j < 32 && k < 32
    ensures Bit(WithBit(w, k), j) <==> Bit(w, j) || j == k
  {
    hide Bit;
    SetBitRaw(w, j, k);
  }

  lemma ClearBit(w: bv32, j: bv32, k: bv32)
    requires j < 32 && k < 32
    ensures Bit(WithoutBit(w, k), j) <==> Bit(w, j) && j != k
  {
    hide Bit;
    ClearBitRaw(w, j, k);
  }

  lemma ZeroWord(k: bv32)
    requires k < 32
    ensures !Bit(0, k)
  {
  }

  lemma SmallWord(w: bv32, k: bv32)
    requires w < 0x1_0000 && 16 <= k < 32
    ensures !Bit(w, k)
  {
  }

  lemma SmallWordOps(w: bv32, k: bv32)
    requires w < 0x1_0000 && k < 16
    ensures WithBit(w, k) < 0x1_0000 && WithoutBit(w, k) < 0x1_0000
  {
  }

  function Shr(w: bv32, j: bv32): bv32
    requires j < 32
  {
    w >> j
  }

  lemma LowBit(w: bv32, j: bv32)
    requires j < 32
    ensures Shr(w, j) & 1 != 0 <==> Bit(w, j)
  {
  }

  lemma ShiftOnce(w: bv32, j: bv32)
    requires j < 31
    ensures Shr(w, j) >> 1 == Shr(w, j + 1)
  {
  }

  lemma LastBit(w: bv32)
    ensures Shr(w, 31) & 1 == 0 ==> Shr(w, 31) == 0
  {
  }

  lemma ShiftZero(w: bv32)
    ensures Shr(w, 0) == w
    ensures w & 1 == 0 && w >> 1 == 0 ==> w == 0
  {
  }

  /** `_ffs`: index of the lowest set bit. */
  method Ffs(w: bv32) returns (j: bv32)
    requires w != 0
    ensures j < 32 && Bit(w, j)
    ensures forall k: bv32 :: k < j ==> !Bit(w, k)
  {
    hide Bit, Shr;
    j := 0;
    var i := w;
    ShiftZero(w);
    while i & 1 == 0
      invariant j < 32 && i == Shr(w, j) && i != 0
      invariant forall k: bv32 :: k < j ==> !Bit(w, k)
      decreases 32 - j as nat
    {
      LowBit(w, j);
      LastBit(w);
      ShiftOnce(w, j);
      ShiftZero(i);
      i := i >> 1;
      j := j + 1;
    }
    LowBit(w, j);
  }

  // ---- priority number to word and bit ----

  function Word(p: nat): nat { p / BITMAPSZ }

  function BitOf(p: nat): (k: bv32)
    ensures k < 16 && k as nat == p % BITMAPSZ
  {
    (p % BITMAPSZ) as bv32
  }

  lemma SameSlot(p: nat, r: nat)
    ensures Word(p) == Word(r) && BitOf(p) == BitOf(r) <==> p == r
  {
  }

  lemma LowerSlot(p: nat, i: nat, j: bv32)
    requires j < 16 && p < i * BITMAPSZ + j as nat
    ensures Word(p) < i || (Word(p) == i && BitOf(p) < j)
  {
    if Word(p) >= i { assert BitOf(p) as nat < j as nat; }
  }

  function LineNodes(np: nat): seq<Node> { seq(np, (p: nat) => Line(p)) }

  lemma LinesAdded(m: Rings, np: nat)
    ensures var r := m + EmptyHeads(LineNodes(np));
      forall p: nat :: p < np ==> Line(p) in r && r[Line(p)] == []
  {
    forall p: nat | p < np ensures Line(p) in LineNodes(np) { assert LineNodes(np)[p] == Line(p); }
  }

  class RdyQ {
    const kq: Heap
    const np: nat              // TMAX_TPRI
    const bitmap: array<bv32>
    var topPriority: nat

    ghost predicate Shape() {
      bitmap.Length == (np + BITMAPSZ - 1) / BITMAPSZ
    }

    /** The bitmap and the cached top describe exactly the lines of `m`. */
    ghost predicate Matches(m: Rings)
      reads this, bitmap
    {
      && Shape()
      && (forall p :: 0 <= p < np ==> Line(p) in m)
      && BitsMatch(m)
      && (forall i :: 0 <= i < bitmap.Length ==> bitmap[i] < 0x1_0000)
      && topPriority == TopPri(m, np)
    }

    ghost predicate BitsMatch(m: Rings)
      requires Shape()
      reads bitmap
    {
      forall p :: 0 <= p < bitmap.Length * BITMAPSZ ==>
        (Bit(bitmap[Word(p)], BitOf(p)) <==> p < np && Line(p) in m && m[Line(p)] != [])
    }

    /** `rdyq_init`: every line an empty list, all words clear, no top. */
    constructor (kq: Heap, np: nat)
      requires kq.Valid() && forall p: nat :: p < np ==> Line(p) in kq.next && Unused(kq.rings, Line(p))
      modifies kq
      ensures this.kq == kq && this.np == np && fresh(bitmap)
      ensures kq.Valid() && kq.next.Keys == old(kq.next.Keys) && Matches(kq.rings)
      ensures kq.rings == old(kq.rings) + EmptyHeads(LineNodes(np))
    {
      this.kq := kq;
      this.np := np;
      topPriority := np;
      var b := new bv32[(np + BITMAPSZ - 1) / BITMAPSZ];
      bitmap := b;
      new;
      hide Heap.Valid, Unused, EmptyHeads, LowestFrom, Bit, BitOf, BitsMatch;
      InitHeads(kq, LineNodes(np));
      LinesAdded(old(kq.rings), np);
      ghost var m := kq.rings;
      for i := 0 to bitmap.Length
        invariant topPriority == np && kq.Valid() && kq.rings == m && kq.next.Keys == old(kq.next.Keys)
        invariant forall k :: 0 <= k < i ==> bitmap[k] == 0
      {
        bitmap[i] := 0;
      }
      AllClear(m);
    }

    lemma AllClear(m: Rings)
      requires Shape() && topPriority == np && forall k :: 0 <= k < bitmap.Length ==> bitmap[k] == 0
      requires forall p: nat :: p < np ==> Line(p) in m && m[Line(p)] == []
      ensures Matches(m)
    {
      hide Bit, BitOf;
      TopPriIs(m, np, np);
      forall p | 0 <= p < bitmap.Length * BITMAPSZ ensures !Bit(bitmap[Word(p)], BitOf(p)) {
        ZeroWord(BitOf(p));
      }
    }

    /** `rdyq_top_pri` and `rdyq_top`: with every line empty the slot behind the last
        line is read, which holds a null pointer. */
    method RdyqTop() returns (top: int)
      requires kq.Valid() && Matches(kq.rings)
      requires forall p :: 0 <= p < np ==> forall n :: n in kq.rings[Line(p)] ==> n.Tsk?
      ensures top == TopTask(kq.rings, np)
    {
      if topPriority == np { return NULL; }
      kq.Front(Line(topPriority));
      top := kq.next[Line(topPriority)].t;
    }

    /** `rdyq_insert`: TRUE if the task becomes the top one. */
    method RdyqInsert(t: nat, pri: nat) returns (newTop: bool)
      requires kq.Valid() && Matches(kq.rings)
      requires pri < np && Tsk(t) in kq.next && Unlinked(kq.rings, Tsk(t))
      modifies this`topPriority, kq, bitmap
      ensures kq.Valid() && Matches(kq.rings) && kq.next.Keys == old(kq.next.Keys)
      ensures kq.rings == Append(old(kq.rings), Tsk(t), Line(pri))
      ensures newTop <==> pri < TopPri(old(kq.rings), np)
    {
      hide Bit, BitOf, BitsMatch, Separate, Ring;
      kq.KqueueInsert(Tsk(t), Line(pri), Line(pri), |kq.rings[Line(pri)]|);
      ghost var m := kq.rings;
      assert m[Line(pri)] == old(kq.rings)[Line(pri)] + [Tsk(t)];
      assert m == Append(old(kq.rings), Tsk(t), Line(pri));
      BitmapSet(old(kq.rings), m, pri);
      if pri < topPriority {
        topPriority := pri;
        TopPriIs(m, np, pri);
        return true;
      }
      TopPriIs(m, np, topPriority);
      return false;
    }

    method BitmapSet(ghost m0: Rings, ghost m: Rings, pri: nat)
      requires Matches(m0) && pri < np && Line(pri) in m && m[Line(pri)] != []
      requires forall p :: 0 <= p < np && p != pri ==> Line(p) in m && m[Line(p)] == m0[Line(p)]
      modifies bitmap
      ensures BitsMatch(m) && forall i :: 0 <= i < bitmap.Length ==> bitmap[i] < 0x1_0000
    {
      hide Bit, BitOf, LowestFrom, WithBit, WithoutBit;
      var k := BitOf(pri);
      var w := bitmap[Word(pri)];
      bitmap[Word(pri)] := WithBit(w, k);
      SmallWordOps(w, k);
      forall p | 0 <= p < bitmap.Length * BITMAPSZ
        ensures Bit(bitmap[Word(p)], BitOf(p)) <==> p < np && Line(p) in m && m[Line(p)] != []
      {
        SameSlot(p, pri);
        if Word(p) == Word(pri) { SetBit(w, BitOf(p), k); }
      }
    }

    method BitmapClear(ghost m0: Rings, ghost m: Rings, pri: nat)
      requires Matches(m0) && pri < np && Line(pri) in m && m[Line(pri)] == []
      requires forall p :: 0 <= p < np && p != pri ==> Line(p) in m && m[Line(p)] == m0[Line(p)]
      modifies bitmap
      ensures BitsMatch(m) && forall i :: 0 <= i < bitmap.Length ==> bitmap[i] < 0x1_0000
    {
      hide Bit, BitOf, LowestFrom, WithBit, WithoutBit;
      var k := BitOf(pri);
      var w := bitmap[Word(pri)];
      bitmap[Word(pri)] := WithoutBit(w, k);
      SmallWordOps(w, k);
      forall p | 0 <= p < bitmap.Length * BITMAPSZ
        ensures Bit(bitmap[Word(p)], BitOf(p)) <==> p < np && Line(p) in m && m[Line(p)] != []
      {
        SameSlot(p, pri);
        if Word(p) == Word(pri) { ClearBit(w, BitOf(p), k); }
      }
    }

    lemma BitsKept(m0: Rings, m: Rings)
      requires Shape() && BitsMatch(m0)
      requires forall p :: 0 <= p < np ==>
        (Line(p) in m0 && m0[Line(p)] != [] <==> Line(p) in m && m[Line(p)] != [])
      ensures BitsMatch(m)
    {
      hide Bit, BitOf;
    }

    /** `rdyq_remove`: unlink, and when the line runs dry find the next top from the
        bitmap words, starting at the word of the removed priority. The task need not be in
        that line; whatever list it is in, it leaves. */
    method RdyqRemove(t: nat, pri: nat)
      requires kq.Valid() && Matches(kq.rings)
      requires pri < np && Tsk(t) in kq.next && Removable(kq.rings, Tsk(t))
      requires forall p: nat :: p < np && p != pri ==> Tsk(t) !in At(kq.rings, Line(p))
      modifies this`topPriority, kq, bitmap
      ensures kq.Valid() && Matches(kq.rings) && kq.next.Keys == old(kq.next.Keys)
      ensures kq.rings == Remove(old(kq.rings), Tsk(t))
    {
      hide Bit, BitOf, BitsMatch, Separate, Ring, Without, LowestFrom, Removable;
      ghost var m0 := kq.rings;
      kq.KqueueRemove(Tsk(t));
      ghost var m := kq.rings;
      forall p: nat | p < np && p != pri ensures m[Line(p)] == m0[Line(p)] {
        assert Tsk(t) !in At(m0, Line(p));
        WithoutAbsent(m0[Line(p)], Tsk(t));
      }
      var empty := kq.KqueueEmpty(Line(pri));
      if !empty {
        BitsKept(m0, m);
        TopPriIs(m, np, topPriority);
        return;
      }
      BitmapClear(m0, m, pri);
      if pri != topPriority {
        TopPriIs(m, np, topPriority);
        return;
      }
      ScanFrom(m, pri);
    }

    /** The word scan of `rdyq_remove`, once every line up to `pri` is empty. */
    method ScanFrom(ghost m: Rings, pri: nat)
      requires Shape() && (forall p :: 0 <= p < np ==> Line(p) in m) && BitsMatch(m) && pri < np
      requires forall i :: 0 <= i < bitmap.Length ==> bitmap[i] < 0x1_0000
      requires forall p :: 0 <= p <= pri ==> m[Line(p)] == []
      modifies this`topPriority
      ensures topPriority == TopPri(m, np)
    {
      hide Bit, BitOf;
      var i := Word(pri);
      while i < bitmap.Length
        invariant Word(pri) <= i <= bitmap.Length
        invariant forall p :: 0 <= p < i * BITMAPSZ && p < np ==> m[Line(p)] == []
      {
        if bitmap[i] != 0 {
          var j := Ffs(bitmap[i]);
          TopFound(m, i, j);
          topPriority := i * BITMAPSZ + j as nat;
          return;
        }
        forall p | i * BITMAPSZ <= p < (i + 1) * BITMAPSZ && p < np ensures m[Line(p)] == [] {
          ZeroWord(BitOf(p));
        }
        i := i + 1;
      }
      topPriority := np;
      TopPriIs(m, np, np);
    }

    lemma TopFound(m: Rings, i: nat, j: bv32)
      requires Shape() && (forall p :: 0 <= p < np ==> Line(p) in m) && BitsMatch(m)
      requires i < bitmap.Length && j < 32 && Bit(bitmap[i], j) && bitmap[i] < 0x1_0000
      requires forall k: bv32 :: k < j ==> !Bit(bitmap[i], k)
      requires forall p :: 0 <= p < i * BITMAPSZ && p < np ==> m[Line(p)] == []
      ensures i * BITMAPSZ + j as nat == TopPri(m, np) < np
    {
      var w := bitmap[i];
      if j >= 16 { SmallWord(w, j); }
      var q := i * BITMAPSZ + j as nat;
      assert Word(q) == i && BitOf(q) as nat == j as nat;
      assert BitOf(q) == j;
      forall p | 0 <= p < q && p < np ensures m[Line(p)] == [] {
        LowerSlot(p, i, j);
      }
      TopPriIs(m, np, q);
    }

    /** `rdyq_rotate`: the head of the line goes to its end. */
    method RdyqRotate(pri: nat)
      requires kq.Valid() && Matches(kq.rings) && pri < np
      requires forall n :: n in kq.rings[Line(pri)] ==> n.Tsk?
      modifies kq
      ensures kq.Valid() && Matches(kq.rings) && kq.next.Keys == old(kq.next.Keys)
      ensures kq.rings == Rotated(old(kq.rings), Line(pri))
    {
      hide Bit, BitOf, Separate, Ring, Without;
      ghost var m0 := kq.rings;
      var empty := kq.KqueueEmpty(Line(pri));
      if !empty {
        RotatedIs(m0, Line(pri));
        var entry := kq.KqueueRemoveNext(Line(pri));
        kq.KqueueInsert(entry, Line(pri), Line(pri), |kq.rings[Line(pri)]|);
        assert forall p :: 0 <= p < np && p != pri ==> kq.rings[Line(p)] == m0[Line(p)];
        TopPriIs(kq.rings, np, topPriority);
      }
    }
  }

  const NULL: int := -1

  /** First task of the best non-empty line, NULL when there is none. */
  function TopTask(m: Rings, np: nat): int {
    var p := TopPri(m, np);
    if p < np && m[Line(p)][0].Tsk? then m[Line(p)][0].t else NULL
  }

  function Rotated(m: Rings, h: Node): Rings
    requires h in m
  {
    if m[h] == [] then m else m[h := m[h][1..] + [m[h][0]]]
  }

  lemma RotatedIs(m: Rings, h: Node)
    requires Separate(m) && h in m && m[h] != []
    ensures m[h][0] != h && m[h][0] !in m && !IsElem(Remove(m, m[h][0]), m[h][0])
    ensures var r := Remove(m, m[h][0]); InsertAt(r, m[h][0], h, |r[h]|) == Rotated(m, h)
  {
    var e, xs := m[h][0], m[h];
    RemoveFrom(m, e, h);
    FirstOut(xs);
    hide Separate, Without;
    var r := Remove(m, e);
    assert r == m[h := xs[1..]];
    assert r - {e} == r;
    assert xs[1..][..|xs| - 1] + [e] + xs[1..][|xs| - 1..] == xs[1..] + [e];
    assert forall g :: g in r ==> e !in r[g] by { NotAnyMore(m, e); }
  }

  lemma FirstOut(xs: seq<Node>)
    requires NoDup(xs) && xs != []
    ensures Without(xs, xs[0]) == xs[1..]
  {
    WithoutAt(xs, 0);
    assert xs[..0] + xs[1..] == xs[1..];
  }

  lemma NotAnyMore(m: Rings, e: Node)
    ensures forall g :: g in Remove(m, e) ==> e !in Remove(m, e)[g]
  {
  }
}
