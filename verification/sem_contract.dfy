/** What a client of a kernel semaphore may rely on: a count and a queue of waiters, with
    hand-over to the first waiter. Both the kernel and the lwIP port are proved against it. */
module SemContract {
  import opened KernelState

  datatype SemView = SemView(cnt: int, max: int, ws: seq<int>)

  ghost predicate Ok(v: SemView) {
    0 <= v.cnt <= v.max && (v.ws != [] ==> v.cnt == 0)
  }

  /** `sig_sem`: the new view, the result, and the waiter that got the resource. */
  function Signal(v: SemView): (SemView, Er, Option<int>) {
    if v.ws != [] then (v.(ws := v.ws[1..]), E_OK, Some(v.ws[0]))
    else if v.cnt >= v.max then (v, E_QOVR, None)
    else (v.(cnt := v.cnt + 1), E_OK, None)
  }

  /** `wai_sem` and `twai_sem` by `t`: whether the resource was there, else `t` queues up. */
  function Wait(v: SemView, t: int): (SemView, bool) {
    if 0 < v.cnt then (v.(cnt := v.cnt - 1), true) else (v.(ws := v.ws + [t]), false)
  }

  function Without(ws: seq<int>, gone: set<int>): seq<int> {
    if ws == [] then [] else (if ws[0] in gone then [] else [ws[0]]) + Without(ws[1..], gone)
  }

  /** Waiters `gone` give up: their timeouts have fired, or they have been deleted. */
  function Leave(v: SemView, gone: set<int>): SemView {
    v.(ws := Without(v.ws, gone))
  }

  /** `pol_sem`. */
  function Poll(v: SemView): (SemView, bool) {
    if 0 < v.cnt then (v.(cnt := v.cnt - 1), true) else (v, false)
  }
}

/** The kernel's TA_TFIFO semaphores keep the contract. */
module KernelSemaphores {
  import opened KQueue
  import opened ReadyQueue
  import opened KernelState
  import opened KernelInv
  import opened KernelCalls
  import opened KernelRuns
  import opened KernelEffects
  import opened KernelOrder
  import opened KernelWaits
  import opened KernelObjects
  import SC = SemContract

  function Tasks(xs: seq<Node>): seq<int> {
    seq(|xs|, i requires 0 <= i < |xs| => if xs[i].Tsk? then xs[i].t else NULL)
  }

  function View(s: State, i: nat): SC.SemView
    requires i < |s.o.sem|
  {
    SC.SemView(s.o.sem[i].cnt, s.o.sem[i].max, Tasks(At(s.q, SemQ(i))))
  }

  lemma ViewOk(s: State, i: nat)
    requires Inv(s) && i < |s.o.sem| && s.o.sem[i].live
    ensures SC.Ok(View(s, i))
  {
    SemBounds(s, i);
  }

  /** Signalling wakes the first waiter with E_OK, or counts, or refuses at the maximum. */
  lemma SignalsAsAgreed(s: State, id: int)
    requires Inv(s) && SemLive(s, id)
    ensures var (r, er) := ISigSem(s, id); var (v, er', winner) := SC.Signal(View(s, id - 1));
      && |r.o.sem| == |s.o.sem| && View(r, id - 1) == v && er == er'
      && (winner.Some? ==> IsTask(s, winner.value) && |r.tcb| == |s.tcb| &&
                           EndsWith(s.tcb[winner.value], r.tcb[winner.value], E_OK))
  {
    hide Good, ReleaseWith, TcbOk;
    var h := SemQ(id - 1);
    FirstTaskIs(s, h);
    if At(s.q, h) != [] {
      var t := FirstTask(s, h);
      EndFirst(s, h, s.tcb[t], E_OK);
      PutSelf(s, t);
      assert Tasks(At(s.q, h)[1..]) == Tasks(At(s.q, h))[1..];
    }
  }

  /** Waiting takes a resource that is there; otherwise the caller goes to the end of the queue,
      unless it only polls. */
  lemma WaitsAsAgreed(s: State, id: int, tmo: int)
    requires Inv(s) && SemLive(s, id) && IsTask(s, s.run) && SemQ(id - 1) in s.q && !ByPriority(s.o.sem[id - 1].atr)
    ensures var (r, er) := WaiSem(s, id, tmo);
      && |r.o.sem| == |s.o.sem|
      && (if tmo == TMO_POL then (View(r, id - 1), er == E_OK) == SC.Poll(View(s, id - 1))
          else (View(r, id - 1), er == E_OK) == SC.Wait(View(s, id - 1), s.run))
  {
    hide Good, ObjMakeWait, TcbOk, TaTpri, ByPriority;
    var i, t := id - 1, s.run;
    var h := SemQ(i);
    SemBounds(s, i);
    Facts(s, t);
    if s.o.sem[i].cnt <= 0 && tmo != TMO_POL {
      var c := s.tcb[t].(ercd := E_TMOUT);
      ErcdOk(s.np, s.tcb[t], E_TMOUT);
      ObjMakeWaitGood(s, t, c, h, tmo);
      var k := Enqueued(s, t, c, h, tmo);
      var xs := At(s.q, h);
      assert xs[..k] + [Tsk(t)] + xs[k..] == xs + [Tsk(t)];
      assert Tasks(xs + [Tsk(t)]) == Tasks(xs) + [t];
    }
  }

  /** The waiters of semaphore `i` that do not go on waiting through call `c`. */
  ghost function Gone(s: State, c: Call, i: nat): set<int>
    requires i < |s.o.sem|
  {
    set t: int | t in View(s, i).ws && (t < 0 || t >= |s.tcb| || Ending(s, c, t) != GoesOn)
  }

  /** The waiters of queue `h` that do. */
  ghost function Stayers(s: State, c: Call, h: Node): set<nat> {
    set t: nat | t < |s.tcb| && Waiting(s.tcb[t]) && s.tcb[t].waitObj == Some(h) && Ending(s, c, t) == GoesOn
  }

  lemma GoesOnWaiting(s: State, c: Call, t: nat)
    requires Inv(s) && Allowed(s, c) && t < |s.tcb| && Waiting(s.tcb[t]) && Ending(s, c, t) == GoesOn
    ensures |Step(s, c).0.tcb| == |s.tcb| && Waiting(Step(s, c).0.tcb[t])
    ensures Step(s, c).0.tcb[t].waitObj == s.tcb[t].waitObj
  {
    hide Inv, Step, Callable, Sound, Ending, U32;
    WaitOutcome(s, c, t);
  }

  lemma StayersWaitOn(s: State, c: Call, h: Node)
    requires Inv(s) && Allowed(s, c)
    ensures WaitOn(s, Step(s, c).0, Stayers(s, c, h))
  {
    hide Inv, Step, Callable, Sound, Ending;
    forall t | t in Stayers(s, c, h) ensures t < |Step(s, c).0.tcb| && Waiting(Step(s, c).0.tcb[t]) {
      GoesOnWaiting(s, c, t);
    }
  }

  /** Nobody joins the queue of a semaphore except by waiting for it. */
  lemma OnlyStayers(s: State, c: Call, i: nat, n: Node)
    requires Inv(s) && Allowed(s, c) && !(c.CWaiSem? && c.id == i + 1) && n in At(Step(s, c).0.q, SemQ(i))
    ensures OwnedBy(n, Stayers(s, c, SemQ(i)))
  {
    hide Inv, Step, Callable, Sound, Ending, FlagCond, ToTmo, At;
    var r := Step(s, c).0;
    StepInv(s, c);
    StepOnAll(s, c);
    QueuedWaits(r, n, i);
    var t := n.t;
    if Waiting(s.tcb[t]) {
      WaitOutcome(s, c, t);
    } else {
      WaitBegins(s, c, t);
    }
  }

  lemma QueuedWaits(s: State, n: Node, i: nat)
    requires Inv(s) && n in At(s.q, SemQ(i))
    ensures n.Tsk? && n.t < |s.tcb| && Waiting(s.tcb[n.t]) && s.tcb[n.t].waitObj == Some(SemQ(i))
  {
    hide Good;
    WaitersOf(s, n, SemQ(i));
    OnlyHome(s, NULL, n.t, SemQ(i));
    Facts(s, n.t);
  }

  lemma WaitersOf(s: State, n: Node, h: Node)
    requires Good(s, NULL) && n in At(s.q, h) && IsWaitQ(h)
    ensures n.Tsk? && n.t < |s.tcb|
  {
    assert Belongs(s.tcb, s.o, NULL, n, h);
  }

  lemma {:induction false} KeepAll(xs: seq<Node>, ts: set<nat>)
    requires forall n :: n in xs ==> OwnedBy(n, ts)
    ensures Keep(xs, ts) == xs
  {
    hide OwnedBy;
    if xs != [] {
      assert xs[0] in xs && forall n :: n in xs[1..] ==> n in xs;
      KeepAll(xs[1..], ts);
    }
  }

  lemma {:induction false} KeepIsWithout(xs: seq<Node>, ts: set<nat>, gone: set<int>)
    requires forall n :: n in xs ==> n.Tsk? && (OwnedBy(n, ts) <==> n.t !in gone)
    ensures Tasks(Keep(xs, ts)) == SC.Without(Tasks(xs), gone)
  {
    if xs == [] {
      assert Tasks(xs) == [];
    } else {
      assert xs[0] in xs && forall n :: n in xs[1..] ==> n in xs;
      KeepIsWithout(xs[1..], ts, gone);
      assert Tasks(xs)[1..] == Tasks(xs[1..]) && Tasks(xs)[0] == xs[0].t;
      assert Tasks([xs[0]] + Keep(xs[1..], ts)) == [xs[0].t] + Tasks(Keep(xs[1..], ts));
      assert [] + Keep(xs[1..], ts) == Keep(xs[1..], ts);
    }
  }

  lemma QueueAfter(s: State, c: Call, i: nat)
    requires Inv(s) && Allowed(s, c) && i < |s.o.sem| && !(c.CWaiSem? && c.id == i + 1)
    ensures Tasks(At(Step(s, c).0.q, SemQ(i))) == SC.Without(Tasks(At(s.q, SemQ(i))), Gone(s, c, i))
  {
    hide Inv, Step, Callable, Sound, Ending, At, Keep, SC.Without, WaitOn, OwnedBy;
    var h := SemQ(i);
    var xs, ys := At(s.q, h), At(Step(s, c).0.q, h);
    var ts := Stayers(s, c, h);
    StayersWaitOn(s, c, h);
    StepOrder(s, c, ts);
    assert Ordered(h);
    forall n | n in ys ensures OwnedBy(n, ts) { OnlyStayers(s, c, i, n); }
    KeepAll(ys, ts);
    forall n | n in xs ensures n.Tsk? && (OwnedBy(n, ts) <==> n.t !in Gone(s, c, i)) { Sorts(s, c, i, n); }
    KeepIsWithout(xs, ts, Gone(s, c, i));
  }

  lemma Sorts(s: State, c: Call, i: nat, n: Node)
    requires Inv(s) && i < |s.o.sem| && n in At(s.q, SemQ(i))
    ensures n.Tsk? && (OwnedBy(n, Stayers(s, c, SemQ(i))) <==> n.t !in Gone(s, c, i))
  {
    hide Inv, Ending, At;
    QueuedWaits(s, n, i);
    var xs := At(s.q, SemQ(i));
    var k :| 0 <= k < |xs| && xs[k] == n;
    assert Tasks(xs)[k] == n.t;
  }

  /** How a waiter of semaphore `i` may go at a call that is not about that semaphore. */
  ghost predicate GaveUp(s: State, c: Call, t: int) {
    0 <= t < |s.tcb| && ((Ending(s, c, t) == TimedOut && c.CTick?) || (Ending(s, c, t) == TaskDeleted && c == CDelTsk(t + 1)))
  }

  /** Every call that is not a signal to semaphore `i`, nor a wait for it, nor its creation or
      deletion leaves its view alone, but for waiters whose timeout fires at a tick or who are
      deleted themselves. */
  lemma OthersLeave(s: State, c: Call, i: nat)
    requires Inv(s) && Allowed(s, c) && i < |s.o.sem| && s.o.sem[i].live
    requires i < |Step(s, c).0.o.sem| && Step(s, c).0.o.sem[i].live
    requires !(c.CSigSem? && c.id == i + 1) && !(c.CWaiSem? && c.id == i + 1)
    ensures View(Step(s, c).0, i) == SC.Leave(View(s, i), Gone(s, c, i))
    ensures forall t :: t in Gone(s, c, i) ==> GaveUp(s, c, t)
  {
    hide Inv, Step, Callable, Sound, ObjsAfter, At, Gone, GaveUp, Tasks, SC.Without;
    QueueAfter(s, c, i);
    StepOnAll(s, c);
    OtherCounts(s, c, i);
    NotItsDeletion(s, c, i);
    forall t | t in Gone(s, c, i) ensures GaveUp(s, c, t) { GoneHow(s, c, i, t); }
  }

  lemma NotItsDeletion(s: State, c: Call, i: nat)
    requires i < |s.o.sem| && s.o.sem[i].live && i < |ObjsAfter(s, c).sem| && ObjsAfter(s, c).sem[i].live
    ensures !(c.CDelSem? && c.id == i + 1)
  {
    hide FirstTask, WokenBy, FlagCond, TaClr, TaMpri, BitsSet, BitsKept;
  }

  lemma GoneHow(s: State, c: Call, i: nat, t: int)
    requires Inv(s) && i < |s.o.sem| && t in Gone(s, c, i) && !(c.CSigSem? && c.id == i + 1) && !(c.CDelSem? && c.id == i + 1)
    ensures GaveUp(s, c, t)
  {
    hide Inv, At, Satisfies, Deletes, Ending;
    var xs := At(s.q, SemQ(i));
    var k :| 0 <= k < |xs| && Tasks(xs)[k] == t;
    QueuedWaits(s, xs[k], i);
    if Satisfies(s, c, t, s.tcb[t]) { OwnObject(s, c, t); }
    NotDeleted(s, c, i, t);
    EndsOtherwise(s, c, t);
  }

  lemma EndsOtherwise(s: State, c: Call, t: nat)
    requires t < |s.tcb| && !Satisfies(s, c, t, s.tcb[t]) && !Deletes(s, c, t)
    ensures Ending(s, c, t) == GoesOn || GaveUp(s, c, t)
  {
    hide Satisfies, Deletes, Due;
  }

  lemma NotDeleted(s: State, c: Call, i: nat, t: nat)
    requires Inv(s) && t < |s.tcb| && Waiting(s.tcb[t]) && s.tcb[t].waitObj == Some(SemQ(i)) && !(c.CDelSem? && c.id == i + 1)
    ensures !Deletes(s, c, t)
  {
    hide Inv, At, FirstTask;
    if Deletes(s, c, t) {
      InQueue(s, t, if c.CDelSem? then SemQ(c.id - 1) else if c.CDelFlg? then FlgQ(c.id - 1) else MbxQ(c.id - 1));
    }
  }
}
