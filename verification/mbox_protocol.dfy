/** The lwIP mailbox protocol (services/net/arch/sys_arch.c) as a step relation: posters,
    try-posters and fetchers interleave between critical sections, and the semaphores are
    signalled outside of them. */
module MboxProtocol {
  import opened KQueue
  import opened KernelState
  import opened SemContract

  type Ptr = nat

  /** Where a thread or interrupt handler stands. */
  datatype Pc =
    | Idle
    | Posting(msg: Ptr)      // sys_mbox_post: about to try
    | PostFailed(msg: Ptr)   // found the ring full: about to wait on sem_full
    | PostBlocked(msg: Ptr)  // in the queue of sem_full
    | PostDone               // enqueued: owes sem_empty a signal
    | FetchBlocked           // in the queue of sem_empty
    | Holding                // got a token from sem_empty: about to dequeue
    | FetchDone              // dequeued from a full ring: owes sem_full a signal

  datatype Kind = KIdle | KPosting | KPostFailed | KPostBlocked | KPostDone | KFetchBlocked | KHolding | KFetchDone

  function KindOf(pc: Pc): Kind {
    match pc
    case Idle => KIdle
    case Posting(_) => KPosting
    case PostFailed(_) => KPostFailed
    case PostBlocked(_) => KPostBlocked
    case PostDone => KPostDone
    case FetchBlocked => KFetchBlocked
    case Holding => KHolding
    case FetchDone => KFetchDone
  }

  datatype Sys = Sys(
    size: nat, q: seq<Ptr>,          // the ring and its contents
    empty: SemView, full: SemView,   // sem_empty and sem_full
    pcs: seq<Pc>,
    posted: seq<Ptr>, fetched: seq<Ptr>)

  datatype Act =
    | Post(msg: Ptr)      // sys_mbox_post is called
    | TryPost(msg: Ptr)   // sys_mbox_trypost or its interrupt form, up to the end of its critical section
    | Enqueue             // the critical section of a try inside sys_mbox_post
    | SignalEmpty
    | WaitFull
    | Fetch               // sys_arch_mbox_fetch waits on sem_empty
    | TryFetch            // sys_arch_mbox_tryfetch polls sem_empty
    | Timeout             // a timed wait on sem_empty, or one slice of it, ends
    | Dequeue             // the critical section of a fetch
    | SignalFull

  predicate Enabled(s: Sys, i: nat, a: Act) {
    && i < |s.pcs|
    && match a
       case Post(_) => s.pcs[i].Idle?
       case TryPost(_) => s.pcs[i].Idle?
       case Enqueue => s.pcs[i].Posting?
       case SignalEmpty => s.pcs[i].PostDone?
       case WaitFull => s.pcs[i].PostFailed?
       case Fetch => s.pcs[i].Idle?
       case TryFetch => s.pcs[i].Idle?
       case Timeout => s.pcs[i].FetchBlocked?
       case Dequeue => s.pcs[i].Holding?
       case SignalFull => s.pcs[i].FetchDone?
  }

  function Goto(s: Sys, i: nat, pc: Pc): Sys
    requires i < |s.pcs|
  {
    s.(pcs := s.pcs[i := pc])
  }

  /** `mbox_try_enqueue` up to the signal, by thread `i`, going to `failed` if the ring is full. */
  function TryEnqueue(s: Sys, i: nat, msg: Ptr, failed: Pc): Sys
    requires i < |s.pcs|
  {
    if |s.q| >= s.size then Goto(s, i, failed)
    else Goto(s, i, PostDone).(q := s.q + [msg], posted := s.posted + [msg])
  }

  function Step(s: Sys, i: nat, a: Act): Sys
    requires Enabled(s, i, a)
  {
    match a
    case Post(m) => Goto(s, i, Posting(m))
    case TryPost(m) => TryEnqueue(s, i, m, Idle)
    case Enqueue => TryEnqueue(s, i, s.pcs[i].msg, PostFailed(s.pcs[i].msg))
    case SignalEmpty =>
      var (v, _, w) := Signal(s.empty);
      var s1 := Goto(s, i, Idle).(empty := v);
      if w.Some? && 0 <= w.value < |s.pcs| then Goto(s1, w.value, Holding) else s1
    case WaitFull =>
      var (v, got) := Wait(s.full, i);
      Goto(s, i, if got then Posting(s.pcs[i].msg) else PostBlocked(s.pcs[i].msg)).(full := v)
    case Fetch =>
      var (v, got) := Wait(s.empty, i);
      Goto(s, i, if got then Holding else FetchBlocked).(empty := v)
    case TryFetch =>
      var (v, got) := Poll(s.empty);
      Goto(s, i, if got then Holding else Idle).(empty := v)
    case Timeout => Goto(s, i, Idle).(empty := Leave(s.empty, {i}))
    case Dequeue =>
      if s.q == [] then Goto(s, i, Idle)
      else
        Goto(s, i, if |s.q| >= s.size then FetchDone else Idle).(q := s.q[1..], fetched := s.fetched + [s.q[0]])
    case SignalFull =>
      var (v, _, w) := Signal(s.full);
      var s1 := Goto(s, i, Idle).(full := v);
      if w.Some? && 0 <= w.value < |s.pcs| && s.pcs[w.value].PostBlocked?
      then Goto(s1, w.value, Posting(s.pcs[w.value].msg)) else s1
  }

  /** `sys_mbox_new` for `n` threads; both semaphores come from the pool with count 0. */
  function Init(size: nat, n: nat): Sys {
    Sys(size, [], SemView(0, TMAX_MAXSEM, []), SemView(0, TMAX_MAXSEM, []), seq(n, i => Idle), [], [])
  }

  // ---- counting threads ----

  function Count(pcs: seq<Pc>, k: Kind): nat {
    if pcs == [] then 0 else (if KindOf(pcs[0]) == k then 1 else 0) + Count(pcs[1..], k)
  }

  function Is(pc: Pc, k: Kind): nat { if KindOf(pc) == k then 1 else 0 }

  lemma {:induction false} CountSet(pcs: seq<Pc>, i: nat, pc: Pc, k: Kind)
    requires i < |pcs|
    ensures Count(pcs[i := pc], k) == Count(pcs, k) - Is(pcs[i], k) + Is(pc, k)
    ensures Count(pcs, k) >= Is(pcs[i], k)
  {
    if i > 0 {
      CountSet(pcs[1..], i - 1, pc, k);
      assert pcs[i := pc][1..] == pcs[1..][i - 1 := pc];
    }
  }

  lemma {:induction false} CountNone(pcs: seq<Pc>, k: Kind)
    requires forall i :: 0 <= i < |pcs| ==> KindOf(pcs[i]) != k
    ensures Count(pcs, k) == 0
  {
    if pcs != [] { CountNone(pcs[1..], k); }
  }

  lemma {:induction false} CountSome(pcs: seq<Pc>, k: Kind) returns (i: nat)
    requires Count(pcs, k) > 0
    ensures i < |pcs| && KindOf(pcs[i]) == k
  {
    if KindOf(pcs[0]) == k {
      i := 0;
    } else {
      i := CountSome(pcs[1..], k);
      i := i + 1;
    }
  }

  // ---- the token invariant ----

  /** The queue of a semaphore holds exactly the threads blocked on it. */
  ghost predicate QueueOf(v: SemView, pcs: seq<Pc>, k: Kind) {
    && Ok(v) && v.max == TMAX_MAXSEM && NoDup(v.ws)
    && forall t :: t in v.ws <==> 0 <= t < |pcs| && KindOf(pcs[t]) == k
  }

  ghost predicate Tokens(s: Sys) {
    && 1 <= s.size <= TMAX_MAXSEM && |s.q| <= s.size
    && QueueOf(s.empty, s.pcs, KFetchBlocked) && QueueOf(s.full, s.pcs, KPostBlocked)
    && |s.q| == s.empty.cnt + Count(s.pcs, KHolding) + Count(s.pcs, KPostDone)
    && s.fetched + s.q == s.posted
  }

  lemma InitTokens(size: nat, n: nat)
    requires 1 <= size <= TMAX_MAXSEM
    ensures Tokens(Init(size, n))
  {
    CountNone(Init(size, n).pcs, KHolding);
    CountNone(Init(size, n).pcs, KPostDone);
  }

  /** Whoever holds a token finds a message: the branches for an empty ring are never taken. */
  lemma HolderFindsMessage(s: Sys, i: nat)
    requires Tokens(s) && i < |s.pcs| && s.pcs[i].Holding?
    ensures s.q != []
  {
    CountSet(s.pcs, i, Idle, KHolding);
  }

  /** No signal to `sem_empty` is ever refused. */
  lemma SignalNeverLost(s: Sys, i: nat)
    requires Tokens(s) && i < |s.pcs| && s.pcs[i].PostDone?
    ensures Signal(s.empty).1 == E_OK
  {
    CountSet(s.pcs, i, Idle, KPostDone);
  }

  lemma Counted(s: Sys, i: nat, pc: Pc)
    requires i < |s.pcs|
    ensures forall k :: Count(s.pcs[i := pc], k) == Count(s.pcs, k) - Is(s.pcs[i], k) + Is(pc, k)
    ensures forall k :: Count(s.pcs, k) >= Is(s.pcs[i], k)
  {
    forall k
      ensures Count(s.pcs[i := pc], k) == Count(s.pcs, k) - Is(s.pcs[i], k) + Is(pc, k) && Count(s.pcs, k) >= Is(s.pcs[i], k)
    {
      CountSet(s.pcs, i, pc, k);
    }
  }

  /** Moves of thread `i` that touch neither semaphore queue. */
  lemma QueueKept(v: SemView, pcs: seq<Pc>, i: nat, pc: Pc, k: Kind)
    requires QueueOf(v, pcs, k) && i < |pcs| && KindOf(pcs[i]) != k && KindOf(pc) != k
    ensures QueueOf(v, pcs[i := pc], k)
  {
  }

  lemma QueueJoined(v: SemView, pcs: seq<Pc>, i: nat, pc: Pc, k: Kind)
    requires QueueOf(v, pcs, k) && i < |pcs| && KindOf(pcs[i]) != k && KindOf(pc) == k && v.cnt == 0
    ensures QueueOf(v.(ws := v.ws + [i]), pcs[i := pc], k)
  {
    var w: int := i;
    assert w !in v.ws && Ok(v.(ws := v.ws + [w]));
    assert NoDup(v.ws + [w]);
    forall t ensures t in v.ws + [w] <==> 0 <= t < |pcs| && KindOf(pcs[i := pc][t]) == k {
      assert t in v.ws <==> 0 <= t < |pcs| && KindOf(pcs[t]) == k;
    }
  }

  lemma Rest(ws: seq<int>)
    requires NoDup(ws) && ws != []
    ensures NoDup(ws[1..]) && forall t :: t in ws[1..] <==> t in ws && t != ws[0]
  {
    assert ws == [ws[0]] + ws[1..];
    forall t | t in ws[1..] ensures t != ws[0] {
      var k :| 0 <= k < |ws[1..]| && ws[1..][k] == t;
      assert ws[k + 1] == t;
    }
  }

  lemma QueueFirst(v: SemView, pcs: seq<Pc>, pc: Pc, k: Kind)
    requires QueueOf(v, pcs, k) && v.ws != [] && KindOf(pc) != k
    ensures 0 <= v.ws[0] < |pcs| && KindOf(pcs[v.ws[0]]) == k
    ensures QueueOf(v.(ws := v.ws[1..]), pcs[v.ws[0] := pc], k)
  {
    hide NoDup;
    var w := v.ws[0];
    assert w in v.ws;
    Rest(v.ws);
    assert Ok(v.(ws := v.ws[1..]));
    forall t ensures t in v.ws[1..] <==> 0 <= t < |pcs| && KindOf(pcs[w := pc][t]) == k {
      assert t in v.ws <==> 0 <= t < |pcs| && KindOf(pcs[t]) == k;
    }
  }

  lemma {:induction false} WithoutOne(ws: seq<int>, i: int)
    requires NoDup(ws)
    ensures NoDup(SemContract.Without(ws, {i})) && forall t :: t in SemContract.Without(ws, {i}) <==> t in ws && t != i
  {
    if ws != [] {
      Rest(ws);
      WithoutOne(ws[1..], i);
      var r := SemContract.Without(ws[1..], {i});
      assert SemContract.Without(ws, {i}) == if ws[0] == i then r else [ws[0]] + r;
      assert ws[0] !in r && NoDup([ws[0]] + r);
    }
  }

  lemma QueueLeft(v: SemView, pcs: seq<Pc>, i: nat, pc: Pc, k: Kind)
    requires QueueOf(v, pcs, k) && i < |pcs| && KindOf(pcs[i]) == k && KindOf(pc) != k
    ensures QueueOf(Leave(v, {i}), pcs[i := pc], k)
  {
    WithoutOne(v.ws, i);
  }

  lemma SignalEmptyTokens(s: Sys, i: nat)
    requires Tokens(s) && Enabled(s, i, SignalEmpty)
    ensures Tokens(Step(s, i, SignalEmpty))
  {
    hide QueueOf, Count;
    SignalNeverLost(s, i);
    Counted(s, i, Idle);
    QueueKept(s.empty, s.pcs, i, Idle, KFetchBlocked);
    QueueKept(s.full, s.pcs, i, Idle, KPostBlocked);
    var s1 := Goto(s, i, Idle);
    if s.empty.ws != [] {
      var w := s.empty.ws[0];
      QueueFirst(s.empty, s1.pcs, Holding, KFetchBlocked);
      QueueKept(s.full, s1.pcs, w, Holding, KPostBlocked);
      Counted(s1, w, Holding);
    } else {
      QueueBounds(s.empty, s1.pcs, KFetchBlocked);
      QueueCount(s.empty, s1.pcs, KFetchBlocked, s.empty.cnt + 1);
    }
  }

  lemma QueueCount(v: SemView, pcs: seq<Pc>, k: Kind, n: int)
    requires QueueOf(v, pcs, k) && v.ws == []
    ensures 0 <= n <= TMAX_MAXSEM ==> QueueOf(v.(cnt := n), pcs, k)
    ensures v.max == TMAX_MAXSEM
  {
  }

  lemma QueueBounds(v: SemView, pcs: seq<Pc>, k: Kind)
    requires QueueOf(v, pcs, k)
    ensures 0 <= v.cnt <= TMAX_MAXSEM && (0 < v.cnt ==> v.ws == [])
  {
  }

  lemma SignalFullTokens(s: Sys, i: nat)
    requires Tokens(s) && Enabled(s, i, SignalFull)
    ensures Tokens(Step(s, i, SignalFull))
  {
    hide QueueOf, Count;
    Counted(s, i, Idle);
    QueueKept(s.empty, s.pcs, i, Idle, KFetchBlocked);
    QueueKept(s.full, s.pcs, i, Idle, KPostBlocked);
    var s1 := Goto(s, i, Idle);
    if s.full.ws != [] {
      var w := s.full.ws[0];
      QueueFirst(s.full, s1.pcs, Idle, KPostBlocked);
      QueueFirst(s.full, s1.pcs, Posting(s.pcs[w].msg), KPostBlocked);
      QueueKept(s.empty, s1.pcs, w, Posting(s.pcs[w].msg), KFetchBlocked);
      Counted(s1, w, Posting(s.pcs[w].msg));
    } else {
      QueueBounds(s.full, s1.pcs, KPostBlocked);
      QueueCount(s.full, s1.pcs, KPostBlocked, s.full.cnt + 1);
    }
  }

  lemma EnqueueTokens(s: Sys, i: nat, msg: Ptr, failed: Pc)
    requires Tokens(s) && i < |s.pcs| && (s.pcs[i].Idle? || s.pcs[i].Posting?) && (failed.Idle? || failed.PostFailed?)
    ensures Tokens(TryEnqueue(s, i, msg, failed))
  {
    hide QueueOf, Count;
    var pc := if |s.q| >= s.size then failed else PostDone;
    Counted(s, i, pc);
    QueueKept(s.empty, s.pcs, i, pc, KFetchBlocked);
    QueueKept(s.full, s.pcs, i, pc, KPostBlocked);
    assert s.fetched + (s.q + [msg]) == (s.fetched + s.q) + [msg];
  }

  lemma WaitFullTokens(s: Sys, i: nat)
    requires Tokens(s) && Enabled(s, i, WaitFull)
    ensures Tokens(Step(s, i, WaitFull))
  {
    hide QueueOf, Count;
    var pc := if 0 < s.full.cnt then Posting(s.pcs[i].msg) else PostBlocked(s.pcs[i].msg);
    Counted(s, i, pc);
    QueueKept(s.empty, s.pcs, i, pc, KFetchBlocked);
    QueueBounds(s.full, s.pcs, KPostBlocked);
    if 0 < s.full.cnt {
      QueueKept(s.full, s.pcs, i, pc, KPostBlocked);
      QueueCount(s.full, s.pcs[i := pc], KPostBlocked, s.full.cnt - 1);
    } else {
      QueueJoined(s.full, s.pcs, i, pc, KPostBlocked);
    }
  }

  lemma FetchTokens(s: Sys, i: nat, a: Act)
    requires Tokens(s) && Enabled(s, i, a) && (a.Fetch? || a.TryFetch? || a.Timeout?)
    ensures Tokens(Step(s, i, a))
  {
    hide QueueOf, Count;
    QueueBounds(s.empty, s.pcs, KFetchBlocked);
    var pc := if a.Timeout? then Idle else if 0 < s.empty.cnt then Holding else if a.Fetch? then FetchBlocked else Idle;
    Counted(s, i, pc);
    QueueKept(s.full, s.pcs, i, pc, KPostBlocked);
    if a.Timeout? {
      QueueLeft(s.empty, s.pcs, i, pc, KFetchBlocked);
    } else if 0 < s.empty.cnt {
      QueueKept(s.empty, s.pcs, i, pc, KFetchBlocked);
      QueueCount(s.empty, s.pcs[i := pc], KFetchBlocked, s.empty.cnt - 1);
    } else if a.Fetch? {
      QueueJoined(s.empty, s.pcs, i, pc, KFetchBlocked);
    } else {
      QueueKept(s.empty, s.pcs, i, pc, KFetchBlocked);
    }
  }

  lemma DequeueTokens(s: Sys, i: nat)
    requires Tokens(s) && Enabled(s, i, Dequeue)
    ensures Tokens(Step(s, i, Dequeue))
  {
    hide QueueOf, Count;
    HolderFindsMessage(s, i);
    var pc := if |s.q| >= s.size then FetchDone else Idle;
    Counted(s, i, pc);
    QueueKept(s.empty, s.pcs, i, pc, KFetchBlocked);
    QueueKept(s.full, s.pcs, i, pc, KPostBlocked);
    assert s.q == [s.q[0]] + s.q[1..];
    assert (s.fetched + [s.q[0]]) + s.q[1..] == s.fetched + s.q;
  }

  /** Every interleaving keeps the tokens: the messages in the ring are the count of `sem_empty`
      plus the tokens fetchers hold plus the signals posters owe; and what was fetched followed
      by what is in the ring is what was posted, in order. */
  lemma StepTokens(s: Sys, i: nat, a: Act)
    requires Tokens(s) && Enabled(s, i, a)
    ensures Tokens(Step(s, i, a))
  {
    hide Tokens, Count;
    match a
    case Post(m) => PostTokens(s, i, m);
    case TryPost(m) => EnqueueTokens(s, i, m, Idle);
    case Enqueue => EnqueueTokens(s, i, s.pcs[i].msg, PostFailed(s.pcs[i].msg));
    case SignalEmpty => SignalEmptyTokens(s, i);
    case WaitFull => WaitFullTokens(s, i);
    case Dequeue => DequeueTokens(s, i);
    case SignalFull => SignalFullTokens(s, i);
    case _ => FetchTokens(s, i, a);
  }

  lemma PostTokens(s: Sys, i: nat, m: Ptr)
    requires Tokens(s) && i < |s.pcs| && s.pcs[i].Idle?
    ensures Tokens(Goto(s, i, Posting(m)))
  {
    hide QueueOf, Count;
    Counted(s, i, Posting(m));
    QueueKept(s.empty, s.pcs, i, Posting(m), KFetchBlocked);
    QueueKept(s.full, s.pcs, i, Posting(m), KPostBlocked);
  }

  // ---- runs ----

  datatype Move = Move(i: nat, act: Act)

  predicate LegalRun(s: Sys, ms: seq<Move>)
    decreases |ms|
  {
    ms != [] ==> Enabled(s, ms[0].i, ms[0].act) && LegalRun(Step(s, ms[0].i, ms[0].act), ms[1..])
  }

  function Run(s: Sys, ms: seq<Move>): Sys
    requires LegalRun(s, ms)
    decreases |ms|
  {
    if ms == [] then s else Run(Step(s, ms[0].i, ms[0].act), ms[1..])
  }

  lemma {:induction false} RunTokens(s: Sys, ms: seq<Move>)
    requires Tokens(s) && LegalRun(s, ms)
    ensures Tokens(Run(s, ms))
    decreases |ms|
  {
    hide Tokens, Step;
    if ms != [] {
      StepTokens(s, ms[0].i, ms[0].act);
      RunTokens(Step(s, ms[0].i, ms[0].act), ms[1..]);
    }
  }

  // ---- posters that wait ----

  function Stuck(s: Sys): nat { Count(s.pcs, KPostFailed) + Count(s.pcs, KPostBlocked) }

  /** Threads inside `sys_mbox_post` that have not enqueued yet. */
  function BlockingPosters(s: Sys): nat { Count(s.pcs, KPosting) + Stuck(s) }

  /** While a poster that found the ring full has not woken: the ring is full, or `sem_full` has a
      token, or a fetcher still owes its signal; with a single slot, or a poster is about to refill it. */
  ghost predicate NobodyStranded(s: Sys) {
    Stuck(s) > 0 ==>
      |s.q| >= s.size || s.full.cnt > 0 || Count(s.pcs, KFetchDone) > 0 || (s.size == 1 && Count(s.pcs, KPosting) > 0)
  }

  ghost predicate FewPosters(s: Sys) { s.size == 1 || BlockingPosters(s) <= 1 }

  /** What a move of thread `i` to `pc` does to the counts that matter here. */
  lemma PosterCounts(s: Sys, i: nat, pc: Pc)
    requires i < |s.pcs|
    ensures var r := s.pcs[i := pc];
      && Count(r, KPosting) == Count(s.pcs, KPosting) - Is(s.pcs[i], KPosting) + Is(pc, KPosting)
      && Count(r, KPostFailed) == Count(s.pcs, KPostFailed) - Is(s.pcs[i], KPostFailed) + Is(pc, KPostFailed)
      && Count(r, KPostBlocked) == Count(s.pcs, KPostBlocked) - Is(s.pcs[i], KPostBlocked) + Is(pc, KPostBlocked)
      && Count(r, KFetchDone) == Count(s.pcs, KFetchDone) - Is(s.pcs[i], KFetchDone) + Is(pc, KFetchDone)
      && Count(s.pcs, KPosting) >= Is(s.pcs[i], KPosting)
      && Count(s.pcs, KPostFailed) >= Is(s.pcs[i], KPostFailed)
      && Count(s.pcs, KPostBlocked) >= Is(s.pcs[i], KPostBlocked)
  {
    CountSet(s.pcs, i, pc, KPosting);
    CountSet(s.pcs, i, pc, KPostFailed);
    CountSet(s.pcs, i, pc, KPostBlocked);
    CountSet(s.pcs, i, pc, KFetchDone);
  }

  lemma SignalEmptyLive(s: Sys, i: nat)
    requires Tokens(s) && NobodyStranded(s) && Enabled(s, i, SignalEmpty)
    ensures NobodyStranded(Step(s, i, SignalEmpty))
  {
    hide QueueOf, Count;
    PosterCounts(s, i, Idle);
    QueueKept(s.empty, s.pcs, i, Idle, KFetchBlocked);
    var s1 := Goto(s, i, Idle);
    if s.empty.ws != [] {
      var w := s.empty.ws[0];
      QueueFirst(s.empty, s1.pcs, Holding, KFetchBlocked);
      PosterCounts(s1, w, Holding);
    }
  }

  lemma SignalFullLive(s: Sys, i: nat)
    requires Tokens(s) && NobodyStranded(s) && (s.size == 1 || Stuck(s) <= 1) && Enabled(s, i, SignalFull)
    ensures NobodyStranded(Step(s, i, SignalFull))
  {
    hide QueueOf, Count;
    PosterCounts(s, i, Idle);
    QueueKept(s.full, s.pcs, i, Idle, KPostBlocked);
    QueueBounds(s.full, s.pcs, KPostBlocked);
    QueueMax(s.full, s.pcs, KPostBlocked);
    var s1 := Goto(s, i, Idle);
    if s.full.ws != [] {
      var w := s.full.ws[0];
      QueueFirst(s.full, s1.pcs, Idle, KPostBlocked);
      PosterCounts(s1, w, Posting(s1.pcs[w].msg));
      assert Step(s, i, SignalFull).pcs == s1.pcs[w := Posting(s1.pcs[w].msg)];
    } else {
      assert Step(s, i, SignalFull).pcs == s1.pcs;
    }
  }

  lemma QueueMax(v: SemView, pcs: seq<Pc>, k: Kind)
    requires QueueOf(v, pcs, k)
    ensures v.max == TMAX_MAXSEM
  {
  }

  lemma EnqueueLive(s: Sys, i: nat)
    requires NobodyStranded(s) && Enabled(s, i, Enqueue)
    ensures NobodyStranded(Step(s, i, Enqueue))
  {
    hide Count;
    PosterCounts(s, i, if |s.q| >= s.size then PostFailed(s.pcs[i].msg) else PostDone);
  }

  lemma WaitFullLive(s: Sys, i: nat)
    requires NobodyStranded(s) && Enabled(s, i, WaitFull) && s.full.cnt >= 0
    requires s.size == 1 || Stuck(s) <= 1 || |s.q| >= s.size
    ensures NobodyStranded(Step(s, i, WaitFull))
  {
    hide Count;
    PosterCounts(s, i, if 0 < s.full.cnt then Posting(s.pcs[i].msg) else PostBlocked(s.pcs[i].msg));
  }

  lemma DequeueLive(s: Sys, i: nat)
    requires NobodyStranded(s) && Enabled(s, i, Dequeue) && s.q != []
    ensures NobodyStranded(Step(s, i, Dequeue))
  {
    hide Count;
    PosterCounts(s, i, if |s.q| >= s.size then FetchDone else Idle);
  }

  lemma NeutralLive(s: Sys, i: nat, a: Act)
    requires NobodyStranded(s) && Enabled(s, i, a) && (a.Post? || a.TryPost? || a.Fetch? || a.TryFetch? || a.Timeout?)
    ensures NobodyStranded(Step(s, i, a))
  {
    hide Count;
    match a
    case Post(m) => PosterCounts(s, i, Posting(m));
    case TryPost(m) => PosterCounts(s, i, if |s.q| >= s.size then Idle else PostDone);
    case Fetch => PosterCounts(s, i, if 0 < s.empty.cnt then Holding else FetchBlocked);
    case TryFetch => PosterCounts(s, i, if 0 < s.empty.cnt then Holding else Idle);
    case Timeout => PosterCounts(s, i, Idle);
    case _ =>
  }

  lemma TokenFacts(s: Sys)
    requires Tokens(s)
    ensures s.full.cnt >= 0
  {
  }

  /** No poster is left behind, in any interleaving with at most one blocking poster at a time, or
      with a ring of one slot. */
  lemma StepLive(s: Sys, i: nat, a: Act)
    requires Tokens(s) && NobodyStranded(s) && FewPosters(s) && Enabled(s, i, a)
    ensures NobodyStranded(Step(s, i, a))
  {
    hide Tokens, NobodyStranded;
    match a
    case SignalEmpty => SignalEmptyLive(s, i);
    case SignalFull => SignalFullLive(s, i);
    case Enqueue => EnqueueLive(s, i);
    case WaitFull => TokenFacts(s); WaitFullLive(s, i);
    case Dequeue => HolderFindsMessage(s, i); DequeueLive(s, i);
    case _ => NeutralLive(s, i, a);
  }

  ghost predicate FewThroughout(s: Sys, ms: seq<Move>)
    requires LegalRun(s, ms)
    decreases |ms|
  {
    FewPosters(s) && (ms != [] ==> FewThroughout(Step(s, ms[0].i, ms[0].act), ms[1..]))
  }

  lemma {:induction false} RunLive(s: Sys, ms: seq<Move>)
    requires Tokens(s) && NobodyStranded(s) && LegalRun(s, ms) && FewThroughout(s, ms)
    ensures NobodyStranded(Run(s, ms))
    decreases |ms|
  {
    hide Tokens, NobodyStranded, FewPosters, Step;
    if ms != [] {
      StepTokens(s, ms[0].i, ms[0].act);
      StepLive(s, ms[0].i, ms[0].act);
      RunLive(Step(s, ms[0].i, ms[0].act), ms[1..]);
    }
  }

  // ---- two threads ----

  /** With two threads at most: nobody is stranded, and if both are stuck the ring is full. */
  ghost predicate Calm(s: Sys) {
    NobodyStranded(s) && |s.pcs| <= 2 && (Stuck(s) >= 2 ==> |s.q| >= s.size)
  }

  lemma {:induction false} CountBound(pcs: seq<Pc>)
    ensures Count(pcs, KPostFailed) + Count(pcs, KPostBlocked) + Count(pcs, KFetchDone) + Count(pcs, KHolding) <= |pcs|
  {
    if pcs != [] { CountBound(pcs[1..]); }
  }

  /** How many stuck posters there are after a step, and what the ring holds. */
  lemma StuckAfter(s: Sys, i: nat, a: Act)
    requires Tokens(s) && Enabled(s, i, a)
    ensures var r := Step(s, i, a);
      && r.size == s.size && |r.pcs| == |s.pcs|
      && (Stuck(r) <= Stuck(s) || |r.q| >= r.size) && (a.Dequeue? || |r.q| >= |s.q|)
  {
    hide QueueOf, Count;
    if a.SignalFull? || a.SignalEmpty? {
      SignalStuck(s, i, a);
    } else {
      PosterCounts(s, i, Step(s, i, a).pcs[i]);
      assert Step(s, i, a).pcs == s.pcs[i := Step(s, i, a).pcs[i]];
    }
  }

  lemma SignalStuck(s: Sys, i: nat, a: Act)
    requires Tokens(s) && Enabled(s, i, a) && (a.SignalFull? || a.SignalEmpty?)
    ensures Stuck(Step(s, i, a)) <= Stuck(s) && |Step(s, i, a).pcs| == |s.pcs|
  {
    hide QueueOf, Count;
    PosterCounts(s, i, Idle);
    var s1 := Goto(s, i, Idle);
    if a.SignalFull? && s.full.ws != [] {
      QueueKept(s.full, s.pcs, i, Idle, KPostBlocked);
      QueueFirst(s.full, s1.pcs, Idle, KPostBlocked);
      var w := s.full.ws[0];
      PosterCounts(s1, w, Posting(s1.pcs[w].msg));
      assert Step(s, i, a).pcs == s1.pcs[w := Posting(s1.pcs[w].msg)];
    } else if a.SignalEmpty? && s.empty.ws != [] {
      QueueKept(s.empty, s.pcs, i, Idle, KFetchBlocked);
      QueueFirst(s.empty, s1.pcs, Holding, KFetchBlocked);
      PosterCounts(s1, s.empty.ws[0], Holding);
    }
  }

  lemma CalmStep(s: Sys, i: nat, a: Act)
    requires Tokens(s) && Calm(s) && Enabled(s, i, a)
    ensures Calm(Step(s, i, a))
  {
    hide Tokens, NobodyStranded, Step, Count;
    StuckAfter(s, i, a);
    CountBound(s.pcs);
    match a
    case SignalEmpty => SignalEmptyLive(s, i);
    case SignalFull => CountSet(s.pcs, i, Idle, KFetchDone); SignalFullLive(s, i);
    case Enqueue => EnqueueLive(s, i);
    case WaitFull => TokenFacts(s); WaitFullLive(s, i);
    case Dequeue => CountSet(s.pcs, i, Idle, KHolding); HolderFindsMessage(s, i); DequeueLive(s, i);
    case _ => NeutralLive(s, i, a);
  }

  lemma {:induction false} CalmRun(s: Sys, ms: seq<Move>)
    requires Tokens(s) && Calm(s) && LegalRun(s, ms)
    ensures NobodyStranded(Run(s, ms))
    decreases |ms|
  {
    hide Tokens, NobodyStranded, Step, Stuck;
    if ms != [] {
      StepTokens(s, ms[0].i, ms[0].act);
      CalmStep(s, ms[0].i, ms[0].act);
      CalmRun(Step(s, ms[0].i, ms[0].act), ms[1..]);
    }
  }

  // ---- bystanders ----

  function Idles(n: nat): seq<Pc> { seq(n, i => Idle) }

  /** The same system with `n` more threads that do nothing. */
  function Padded(s: Sys, n: nat): Sys { s.(pcs := s.pcs + Idles(n)) }

  lemma PaddedStep(s: Sys, i: nat, a: Act, n: nat)
    requires Tokens(s) && Enabled(s, i, a)
    ensures Enabled(Padded(s, n), i, a) && Step(Padded(s, n), i, a) == Padded(Step(s, i, a), n)
  {
    assert s.empty.ws != [] ==> s.empty.ws[0] in s.empty.ws;
    assert s.full.ws != [] ==> s.full.ws[0] in s.full.ws;
    hide QueueOf, Count, Idles;
    if a.SignalEmpty? || a.SignalFull? {
      PaddedSet(s.pcs, n, i, Idle);
      var ws := if a.SignalEmpty? then s.empty.ws else s.full.ws;
      if ws != [] {
        var w := ws[0];
        PaddedSet(s.pcs[i := Idle], n, w, if a.SignalEmpty? then Holding else Posting(s.pcs[w].msg));
      }
    } else {
      PaddedSet(s.pcs, n, i, Step(s, i, a).pcs[i]);
    }
  }

  lemma PaddedSet(pcs: seq<Pc>, n: nat, i: nat, pc: Pc)
    requires i < |pcs|
    ensures (pcs + Idles(n))[i := pc] == pcs[i := pc] + Idles(n)
  {
  }

  lemma {:induction false} PaddedRun(s: Sys, ms: seq<Move>, n: nat)
    requires Tokens(s) && LegalRun(s, ms)
    ensures LegalRun(Padded(s, n), ms) && Run(Padded(s, n), ms) == Padded(Run(s, ms), n)
    decreases |ms|
  {
    hide Tokens, Step, Padded;
    if ms != [] {
      StepTokens(s, ms[0].i, ms[0].act);
      PaddedStep(s, ms[0].i, ms[0].act, n);
      PaddedRun(Step(s, ms[0].i, ms[0].act), ms[1..], n);
    }
  }

  lemma {:induction false} CountConcat(p: seq<Pc>, r: seq<Pc>, k: Kind)
    ensures Count(p + r, k) == Count(p, k) + Count(r, k)
  {
    if p == [] {
      assert p + r == r;
    } else {
      assert (p + r)[0] == p[0] && (p + r)[1..] == p[1..] + r;
      CountConcat(p[1..], r, k);
    }
  }

  lemma PaddedStranded(s: Sys, n: nat)
    ensures NobodyStranded(Padded(s, n)) <==> NobodyStranded(s)
  {
    forall k: Kind | k != KIdle ensures Count(s.pcs + Idles(n), k) == Count(s.pcs, k) {
      CountConcat(s.pcs, Idles(n), k);
      CountNone(Idles(n), k);
    }
    hide Count;
  }

  // ---- two blocking posters and two slots are enough to strand one ----

  /** `k` messages in a ring of `n`, all threads idle. */
  function Filled(n: nat, k: nat): Sys {
    Sys(n, seq(k, i => 0), SemView(k, TMAX_MAXSEM, []), SemView(0, TMAX_MAXSEM, []), [Idle, Idle, Idle], seq(k, i => 0), [])
  }

  /** Thread 2 sleeps on although a slot is free, no token is there and nobody owes a signal. */
  ghost predicate Stranded(s: Sys) {
    s.size >= 2 && |s.q| < s.size && s.full.cnt == 0 && s.pcs == [Idle, Idle, PostBlocked(2)]
  }

  lemma Prepend(s: Sys, m: Move, ms: seq<Move>)
    requires Enabled(s, m.i, m.act) && LegalRun(Step(s, m.i, m.act), ms)
    ensures LegalRun(s, [m] + ms) && Run(s, [m] + ms) == Run(Step(s, m.i, m.act), ms)
  {
    assert ([m] + ms)[0] == m && ([m] + ms)[1..] == ms;
  }

  /** Both posters find the ring full and block. */
  function BothBlocked(n: nat): Sys {
    Sys(n, seq(n, i => 0), SemView(n, TMAX_MAXSEM, []), SemView(0, TMAX_MAXSEM, [1, 2]),
        [Idle, PostBlocked(1), PostBlocked(2)], seq(n, i => 0), [])
  }

  lemma Block(n: nat, ms: seq<Move>) returns (rs: seq<Move>)
    requires n >= 1 && LegalRun(BothBlocked(n), ms)
    ensures LegalRun(Filled(n, n), rs) && Run(Filled(n, n), rs) == Run(BothBlocked(n), ms)
  {
    var s0 := Filled(n, n);
    var s1 := Step(s0, 1, Post(1));
    var s2 := Step(s1, 1, Enqueue);
    var s3 := Step(s2, 1, WaitFull);
    var s4 := Step(s3, 2, Post(2));
    var s5 := Step(s4, 2, Enqueue);
    assert Step(s5, 2, WaitFull) == BothBlocked(n);
    Prepend(s5, Move(2, WaitFull), ms);
    rs := [Move(2, WaitFull)] + ms;
    Prepend(s4, Move(2, Enqueue), rs);
    rs := [Move(2, Enqueue)] + rs;
    Prepend(s3, Move(2, Post(2)), rs);
    rs := [Move(2, Post(2))] + rs;
    Prepend(s2, Move(1, WaitFull), rs);
    rs := [Move(1, WaitFull)] + rs;
    Prepend(s1, Move(1, Enqueue), rs);
    rs := [Move(1, Enqueue)] + rs;
    Prepend(s0, Move(1, Post(1)), rs);
    rs := [Move(1, Post(1))] + rs;
  }

  /** One message taken and signalled for: thread 1 is awake again, thread 2 still blocked. */
  function OneAwake(n: nat): Sys
    requires n >= 1
  {
    Sys(n, seq(n - 1, i => 0), SemView(n - 1, TMAX_MAXSEM, []), SemView(0, TMAX_MAXSEM, [2]),
        [Idle, Posting(1), PostBlocked(2)], seq(n, i => 0), [0])
  }

  lemma FirstFetch(n: nat, ms: seq<Move>) returns (rs: seq<Move>)
    requires n >= 2 && LegalRun(OneAwake(n), ms)
    ensures LegalRun(BothBlocked(n), rs) && Run(BothBlocked(n), rs) == Run(OneAwake(n), ms)
  {
    var s0 := BothBlocked(n);
    var s1 := Step(s0, 0, Fetch);
    var s2 := Step(s1, 0, Dequeue);
    assert s2.pcs == [FetchDone, PostBlocked(1), PostBlocked(2)] && s2.q == seq(n - 1, i => 0);
    assert Step(s2, 0, SignalFull).pcs == [Idle, Posting(1), PostBlocked(2)];
    assert Step(s2, 0, SignalFull) == OneAwake(n);
    Prepend(s2, Move(0, SignalFull), ms);
    rs := [Move(0, SignalFull)] + ms;
    Prepend(s1, Move(0, Dequeue), rs);
    rs := [Move(0, Dequeue)] + rs;
    Prepend(s0, Move(0, Fetch), rs);
    rs := [Move(0, Fetch)] + rs;
  }

  /** The second fetch finds the ring no longer full and signals nobody; thread 1 posts. */
  lemma SecondFetch(n: nat) returns (rs: seq<Move>)
    requires n >= 2
    ensures LegalRun(OneAwake(n), rs) && Stranded(Run(OneAwake(n), rs))
  {
    var s0 := OneAwake(n);
    var s1 := Step(s0, 0, Fetch);
    var s2 := Step(s1, 0, Dequeue);
    assert s2.pcs == [Idle, Posting(1), PostBlocked(2)] && s2.full == s0.full && |s2.q| == n - 2;
    var s3 := Step(s2, 1, Enqueue);
    assert Stranded(Step(s3, 1, SignalEmpty));
    rs := [];
    Prepend(s3, Move(1, SignalEmpty), rs);
    rs := [Move(1, SignalEmpty)] + rs;
    Prepend(s2, Move(1, Enqueue), rs);
    rs := [Move(1, Enqueue)] + rs;
    Prepend(s1, Move(0, Dequeue), rs);
    rs := [Move(0, Dequeue)] + rs;
    Prepend(s0, Move(0, Fetch), rs);
    rs := [Move(0, Fetch)] + rs;
  }

  lemma {:induction false} FillUp(n: nat, k: nat, ms: seq<Move>) returns (rs: seq<Move>)
    requires 2 <= n <= TMAX_MAXSEM && k <= n && LegalRun(Filled(n, n), ms)
    ensures LegalRun(Filled(n, k), rs) && Run(Filled(n, k), rs) == Run(Filled(n, n), ms)
    decreases n - k
  {
    if k == n {
      rs := ms;
    } else {
      rs := FillUp(n, k + 1, ms);
      var s0 := Filled(n, k);
      var s1 := Step(s0, 0, TryPost(0));
      assert seq(k, i => 0) + [0] == seq(k + 1, i => 0);
      assert Step(s1, 0, SignalEmpty) == Filled(n, k + 1);
      Prepend(s1, Move(0, SignalEmpty), rs);
      rs := [Move(0, SignalEmpty)] + rs;
      Prepend(s0, Move(0, TryPost(0)), rs);
      rs := [Move(0, TryPost(0))] + rs;
    }
  }

  lemma StrandedThree(n: nat) returns (ms: seq<Move>)
    requires 2 <= n <= TMAX_MAXSEM
    ensures LegalRun(Init(n, 3), ms) && Stranded(Run(Init(n, 3), ms))
  {
    hide Run, LegalRun;
    assert Init(n, 3).pcs == [Idle, Idle, Idle] && Init(n, 3) == Filled(n, 0);
    ms := SecondFetch(n);
    ms := FirstFetch(n, ms);
    ms := Block(n, ms);
    ms := FillUp(n, 0, ms);
  }

  /** For every ring of two slots or more and every number of threads above two, some run with
      two blocking posters strands one, everybody else being idle. */
  lemma StrandedRun(n: nat, extra: nat) returns (ms: seq<Move>)
    requires 2 <= n <= TMAX_MAXSEM
    ensures LegalRun(Init(n, 3 + extra), ms) && !NobodyStranded(Run(Init(n, 3 + extra), ms))
    ensures var r := Run(Init(n, 3 + extra), ms);
      |r.q| < r.size && r.full.cnt == 0 && r.pcs == [Idle, Idle, PostBlocked(2)] + Idles(extra)
  {
    hide NobodyStranded, Run, LegalRun, Tokens, Count;
    ms := StrandedThree(n);
    var r := Run(Init(n, 3), ms);
    StrandedIs(r);
    InitTokens(n, 3);
    PaddedRun(Init(n, 3), ms, extra);
    PaddedStranded(r, extra);
    assert Init(n, 3 + extra).pcs == Init(n, 3).pcs + Idles(extra);
  }

  lemma {:induction false} OneSlot(s: Sys, ms: seq<Move>)
    requires s.size == 1 && LegalRun(s, ms)
    ensures FewThroughout(s, ms)
    decreases |ms|
  {
    if ms != [] {
      SameSize(s, ms[0].i, ms[0].act);
      OneSlot(Step(s, ms[0].i, ms[0].act), ms[1..]);
    }
  }

  lemma SameSize(s: Sys, i: nat, a: Act)
    requires Enabled(s, i, a)
    ensures Step(s, i, a).size == s.size
  {
  }

  /** For any number of threads free to post, blocking or not: no run strands a poster exactly if
      the ring has one slot or there are two threads at most. */
  lemma StrandedExact(n: nat, threads: nat)
    requires 1 <= n <= TMAX_MAXSEM
    ensures (forall ms :: LegalRun(Init(n, threads), ms) ==> NobodyStranded(Run(Init(n, threads), ms))) <==>
            n == 1 || threads <= 2
  {
    hide NobodyStranded, Run, LegalRun, FewThroughout, Tokens, Calm;
    InitTokens(n, threads);
    InitLive(n, threads);
    if n == 1 {
      forall ms | LegalRun(Init(1, threads), ms) ensures NobodyStranded(Run(Init(1, threads), ms)) {
        OneSlot(Init(1, threads), ms);
        RunLive(Init(1, threads), ms);
      }
    } else if threads <= 2 {
      InitCalm(n, threads);
      forall ms | LegalRun(Init(n, threads), ms) ensures NobodyStranded(Run(Init(n, threads), ms)) {
        CalmRun(Init(n, threads), ms);
      }
    } else {
      var ms := StrandedRun(n, threads - 3);
      assert 3 + (threads - 3) == threads;
    }
  }

  lemma InitCalm(size: nat, n: nat)
    requires n <= 2
    ensures Calm(Init(size, n))
  {
    InitLive(size, n);
    CountNone(Init(size, n).pcs, KPostFailed);
    CountNone(Init(size, n).pcs, KPostBlocked);
  }

  lemma InitLive(size: nat, n: nat)
    ensures NobodyStranded(Init(size, n))
  {
    CountNone(Init(size, n).pcs, KPostFailed);
    CountNone(Init(size, n).pcs, KPostBlocked);
  }

  lemma StrandedIs(s: Sys)
    requires Stranded(s)
    ensures !NobodyStranded(s)
  {
    hide Count;
    CountThree(Idle, Idle, PostBlocked(2), KPostFailed);
    CountThree(Idle, Idle, PostBlocked(2), KPostBlocked);
    CountThree(Idle, Idle, PostBlocked(2), KPosting);
    CountThree(Idle, Idle, PostBlocked(2), KFetchDone);
  }

  lemma CountThree(a: Pc, b: Pc, c: Pc, k: Kind)
    ensures Count([a, b, c], k) == Is(a, k) + Is(b, k) + Is(c, k)
  {
    CountNone([], k);
    CountCons(c, [], k);
    CountCons(b, [c], k);
    CountCons(a, [b, c], k);
    hide Count;
    assert [c] + [] == [c] && [b] + [c] == [b, c] && [a] + [b, c] == [a, b, c];
  }

  lemma CountCons(a: Pc, pcs: seq<Pc>, k: Kind)
    ensures Count([a] + pcs, k) == Is(a, k) + Count(pcs, k)
  {
    assert ([a] + pcs)[1..] == pcs;
  }
}
