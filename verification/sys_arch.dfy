/** The lwIP mailbox port (services/net/arch/sys_arch.c): the ring buffer as it is written. */
module MboxRing {
  type Ptr = nat            // a void pointer, 0 being NULL

  /** One step of an index that runs round a ring of `size` slots. */
  function Wrap(x: nat, size: nat): (r: nat)
    requires x < 2 * size
    ensures r < size && (r == x || r == x - size)
  {
    if x >= size then x - size else x
  }

  /** `n` slots of the ring from `tail` on. */
  function Window(q: seq<Ptr>, tail: nat, n: nat): (ms: seq<Ptr>)
    requires tail < |q| && n <= |q|
    ensures |ms| == n
  {
    seq(n, i requires 0 <= i < n => q[Wrap(tail + i, |q|)])
  }

  lemma WindowPush(q: seq<Ptr>, tail: nat, n: nat, msg: Ptr)
    requires tail < |q| && n < |q|
    ensures Window(q[Wrap(tail + n, |q|) := msg], tail, n + 1) == Window(q, tail, n) + [msg]
  {
    var q' := q[Wrap(tail + n, |q|) := msg];
    forall i | 0 <= i < n + 1 ensures Window(q', tail, n + 1)[i] == (Window(q, tail, n) + [msg])[i] {
      assert Window(q', tail, n + 1)[i] == q'[Wrap(tail + i, |q|)];
    }
  }

  lemma WindowPop(q: seq<Ptr>, tail: nat, n: nat, x: Ptr)
    requires tail < |q| && 0 < n <= |q|
    ensures [q[tail]] + Window(q[tail := x], Wrap(tail + 1, |q|), n - 1) == Window(q, tail, n)
  {
    var rest := Window(q[tail := x], Wrap(tail + 1, |q|), n - 1);
    forall i | 0 <= i < n ensures ([q[tail]] + rest)[i] == Window(q, tail, n)[i] {
      assert Window(q, tail, n)[i] == q[Wrap(tail + i, |q|)];
      if i > 0 { assert rest[i - 1] == q[tail := x][Wrap(Wrap(tail + 1, |q|) + i - 1, |q|)]; }
    }
  }

  class SysMbox {
    const q: array<Ptr>
    var head: nat
    var tail: nat
    var used: nat

    ghost predicate Valid()
      reads this
    {
      && 0 < q.Length && head < q.Length && tail < q.Length && used <= q.Length
      && head == Wrap(tail + used, q.Length)
    }

    /** The messages in the ring, oldest first. */
    ghost function Contents(): (ms: seq<Ptr>)
      requires Valid()
      reads this, q
      ensures |ms| == used
    {
      Window(q[..], tail, used)
    }

    constructor (size: nat)
      requires size > 0
      ensures Valid() && fresh(q) && q.Length == size && Contents() == []
    {
      q := new Ptr[size](i => 0);
      head, tail, used := 0, 0, 0;
    }

    method EnqueueUnlocked(msg: Ptr)
      requires Valid() && used < q.Length
      modifies this, q
      ensures Valid() && Contents() == old(Contents()) + [msg]
    {
      WindowPush(q[..], tail, used, msg);
      q[head] := msg;
      head := head + 1;
      if head >= q.Length {
        head := 0;
      }
      used := used + 1;
    }

    method DequeueUnlocked() returns (msg: Ptr)
      requires Valid() && used > 0
      modifies this, q
      ensures Valid() && [msg] + Contents() == old(Contents())
    {
      WindowPop(q[..], tail, used, 0);
      msg := q[tail];
      q[tail] := 0;
      tail := tail + 1;
      if tail >= q.Length {
        tail := 0;
      }
      used := used - 1;
    }

    /** The critical section of `mbox_try_enqueue`. */
    method TryEnqueue(msg: Ptr) returns (ok: bool)
      requires Valid()
      modifies this, q
      ensures Valid() && (ok <==> |old(Contents())| < q.Length)
      ensures Contents() == if ok then old(Contents()) + [msg] else old(Contents())
    {
      if used >= q.Length { return false; }
      EnqueueUnlocked(msg);
      return true;
    }

    /** The critical section of both fetch functions. */
    method TryDequeue() returns (ok: bool, msg: Ptr, wasFull: bool)
      requires Valid()
      modifies this, q
      ensures Valid() && (ok <==> old(Contents()) != [])
      ensures if ok then [msg] + Contents() == old(Contents()) else Contents() == old(Contents())
      ensures ok ==> (wasFull <==> |old(Contents())| == q.Length)
    {
      if used == 0 { return false, 0, false; }
      wasFull := used >= q.Length;
      msg := DequeueUnlocked();
      ok := true;
    }
  }
}

/** `sem_wait_ms`: a 32-bit timeout served in slices that fit the 16-bit TMO. */
module SlicedWait {
  import opened KernelState

  const LWIP_TMO_SLICE_MS: nat := 10000

  function Sum(xs: seq<nat>): nat {
    if xs == [] then 0 else Sum(xs[..|xs| - 1]) + xs[|xs| - 1]
  }

  lemma SumNone()
    ensures Sum([]) == 0
  {
  }

  lemma SumAdd(xs: seq<nat>, x: nat)
    ensures Sum(xs + [x]) == Sum(xs) + x
  {
    assert (xs + [x])[..|xs|] == xs;
  }

  /** `wait(k, tmo)` is what the k-th call of `twai_sem` returns. */
  method SemWaitMs(timeoutMs: nat, wait: (nat, int) -> Er) returns (er: Er, slices: seq<nat>)
    ensures timeoutMs == 0 ==> slices == [] && er == wait(0, TMO_FEVR)
    ensures forall k :: 0 <= k < |slices| ==> 1 <= slices[k] <= 10000 < 0x8000
    ensures forall k :: 0 <= k < |slices| - 1 ==> slices[k] == 10000 && wait(k, slices[k]) == E_TMOUT
    ensures timeoutMs > 0 ==> slices != [] && er == wait(|slices| - 1, slices[|slices| - 1])
    ensures Sum(slices) <= timeoutMs && (er == E_TMOUT && timeoutMs > 0 ==> Sum(slices) == timeoutMs)
  {
    hide Sum;
    slices := [];
    SumNone();
    if timeoutMs == 0 {
      er := wait(0, TMO_FEVR);
      return;
    }
    var left: nat := timeoutMs;
    er := E_TMOUT;
    while left > 0
      invariant left + Sum(slices) == timeoutMs && er == E_TMOUT
      invariant left > 0 ==> forall k :: 0 <= k < |slices| ==> slices[k] == LWIP_TMO_SLICE_MS
      invariant forall k :: 0 <= k < |slices| ==> 1 <= slices[k] <= LWIP_TMO_SLICE_MS
      invariant forall k :: 0 <= k < |slices| - 1 ==> slices[k] == LWIP_TMO_SLICE_MS
      invariant forall k :: 0 <= k < |slices| ==> wait(k, slices[k]) == E_TMOUT
      invariant left < timeoutMs ==> slices != []
    {
      var slice := if left > LWIP_TMO_SLICE_MS then LWIP_TMO_SLICE_MS else left;
      er := wait(|slices|, slice);
      SumAdd(slices, slice);
      slices := slices + [slice];
      if er == E_OK { return; }
      if er != E_TMOUT { return; }
      left := left - slice;
    }
  }
}
