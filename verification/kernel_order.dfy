/** Queues keep their order: whatever a step does, the tasks that go on waiting through it
    stay in every queue they were in, in the same order. */
module KernelOrder {
  import opened KQueue
  import opened ReadyQueue
  import opened KernelState
  import opened KernelInv
  import opened KernelCalls
  import opened KernelRuns
  import opened KernelEffects

  predicate OwnedBy(n: Node, ts: set<nat>) {
    match n
    case Tsk(t) => t in ts
    case Wtm(t) => t in ts
    case _ => false
  }

  /** The nodes of tasks `ts`, in their order. */
  function Keep(xs: seq<Node>, ts: set<nat>): seq<Node> {
    if xs == [] then []
    else (if OwnedBy(xs[0], ts) then [xs[0]] else []) + Keep(xs[1..], ts)
  }

  lemma {:induction false} KeepConcat(xs: seq<Node>, ys: seq<Node>, ts: set<nat>)
    ensures Keep(xs + ys, ts) == Keep(xs, ts) + Keep(ys, ts)
  {
    if xs == [] {
      assert xs + ys == ys;
    } else {
      assert (xs + ys)[1..] == xs[1..] + ys && (xs + ys)[0] == xs[0];
      KeepConcat(xs[1..], ys, ts);
    }
  }

  lemma {:induction false} KeepWithout(xs: seq<Node>, e: Node, ts: set<nat>)
    requires !OwnedBy(e, ts)
    ensures Keep(Without(xs, e), ts) == Keep(xs, ts)
  {
    if xs != [] {
      KeepOne(e, ts);
      WithoutCons(xs, e);
      hide Keep, Without, OwnedBy;
      var x, ys := xs[0], xs[1..];
      KeepWithout(ys, e, ts);
      assert xs == [x] + ys;
      KeepConcat([x], ys, ts);
      KeepConcat([x], Without(ys, e), ts);
      assert [] + Keep(ys, ts) == Keep(ys, ts);
    }
  }

  lemma WithoutCons(xs: seq<Node>, e: Node)
    requires xs != []
    ensures Without(xs, e) == if xs[0] == e then Without(xs[1..], e) else [xs[0]] + Without(xs[1..], e)
  {
  }

  lemma KeepOne(e: Node, ts: set<nat>)
    requires !OwnedBy(e, ts)
    ensures Keep([e], ts) == []
  {
  }

  lemma KeepInsert(xs: seq<Node>, k: nat, e: Node, ts: set<nat>)
    requires k <= |xs| && !OwnedBy(e, ts)
    ensures Keep(xs[..k] + [e] + xs[k..], ts) == Keep(xs, ts)
  {
    KeepOne(e, ts);
    hide Keep;
    var a, b := xs[..k], xs[k..];
    KeepConcat(a + [e], b, ts);
    KeepConcat(a, [e], ts);
    KeepConcat(a, b, ts);
    assert Keep(a, ts) + [] == Keep(a, ts) && a + b == xs;
  }

  lemma {:induction false} KeepIn(xs: seq<Node>, ts: set<nat>)
    ensures forall n :: n in Keep(xs, ts) <==> n in xs && OwnedBy(n, ts)
  {
    if xs != [] { KeepIn(xs[1..], ts); }
  }

  predicate Ordered(h: Node) { IsWaitQ(h) || h == TimerQ }

  ghost predicate SameFor(q: Rings, r: Rings, ts: set<nat>) {
    forall h :: Ordered(h) ==> Keep(At(r, h), ts) == Keep(At(q, h), ts)
  }

  lemma RemoveKeeps(q: Rings, e: Node, ts: set<nat>)
    requires !OwnedBy(e, ts)
    ensures SameFor(q, Remove(q, e), ts)
  {
    forall h | Ordered(h) ensures Keep(At(Remove(q, e), h), ts) == Keep(At(q, h), ts) {
      AtRemove(q, e, h);
      KeepWithout(At(q, h), e, ts);
    }
  }

  lemma InsertKeeps(q: Rings, e: Node, h: Node, k: nat, ts: set<nat>)
    requires !OwnedBy(e, ts) && h in q && h != e && k <= |q[h]| && !Ordered(e)
    ensures SameFor(q, InsertAt(q, e, h, k), ts)
  {
    KeepInsert(q[h], k, e, ts);
  }

  lemma AppendKeeps(q: Rings, e: Node, h: Node, ts: set<nat>)
    requires !OwnedBy(e, ts) && h != e && (Ordered(e) ==> At(q, e) == [])
    ensures SameFor(q, Append(q, e, h), ts)
  {
    KeepConcat(At(q, h), [e], ts);
    assert Keep([e], ts) == [];
  }

  lemma InitKeeps(q: Rings, e: Node, ts: set<nat>)
    requires Ordered(e) ==> At(q, e) == []
    ensures SameFor(q, Init(q, e), ts)
  {
  }

  // ---- the building blocks ----

  lemma UnreadyKeeps(s: State, t: nat, ts: set<nat>)
    requires t !in ts
    ensures SameFor(s.q, MakeUnready(s, t).q, ts)
  {
    hide Remove;
    RemoveKeeps(s.q, Tsk(t), ts);
  }

  lemma ReadyKeeps(s: State, t: nat, ts: set<nat>)
    requires t !in ts && t < |s.tcb|
    ensures SameFor(s.q, MakeReady(s, t).q, ts)
  {
    hide Append;
    AppendKeeps(s.q, Tsk(t), Line(s.tcb[t].tskpri), ts);
  }

  lemma LeaveKeeps(s: State, t: nat, ts: set<nat>)
    requires t !in ts && t < |s.tcb|
    ensures SameFor(s.q, LeaveWait(s, t).q, ts)
  {
    hide Append, SameFor;
    ReadyKeeps(Put(s, t, s.tcb[t].(tskwait := NotSleeping)), t, ts);
    SameRefl(s.q, ts);
  }

  lemma SameRefl(q: Rings, ts: set<nat>)
    ensures SameFor(q, q, ts)
  {
  }

  lemma SameTrans(q: Rings, r: Rings, u: Rings, ts: set<nat>)
    requires SameFor(q, r, ts) && SameFor(r, u, ts)
    ensures SameFor(q, u, ts)
  {
  }

  lemma CancelKeeps(s: State, t: nat, ts: set<nat>)
    requires t !in ts
    ensures SameFor(s.q, WaitCancel(s, t).q, ts)
  {
    hide Remove, SameFor;
    RemoveKeeps(s.q, Wtm(t), ts);
    RemoveKeeps(Remove(s.q, Wtm(t)), Tsk(t), ts);
    SameTrans(s.q, Remove(s.q, Wtm(t)), WaitCancel(s, t).q, ts);
  }

  lemma ReleaseKeeps(s: State, t: nat, er: Er, ts: set<nat>)
    requires t !in ts && t < |s.tcb|
    ensures SameFor(s.q, ReleaseWith(s, t, er).q, ts)
  {
    hide SameFor, WaitCancel, LeaveWait;
    var s1 := Put(s, t, s.tcb[t].(ercd := er));
    CancelKeeps(s1, t, ts);
    CancelTcb(s1, t);
    LeaveKeeps(WaitCancel(s1, t), t, ts);
    SameTrans(s.q, WaitCancel(s1, t).q, ReleaseWith(s, t, er).q, ts);
  }

  lemma CancelTcb(s: State, t: nat)
    ensures WaitCancel(s, t).tcb == s.tcb
  {
  }

  lemma TmoutKeeps(s: State, t: nat, ts: set<nat>)
    requires t !in ts && t < |s.tcb|
    ensures SameFor(s.q, ReleaseTmout(s, t).q, ts)
  {
    hide SameFor, Remove, LeaveWait;
    RemoveKeeps(s.q, Tsk(t), ts);
    LeaveKeeps(s.(q := Remove(s.q, Tsk(t))), t, ts);
    SameTrans(s.q, Remove(s.q, Tsk(t)), ReleaseTmout(s, t).q, ts);
  }

  lemma TickOneKeeps(s: State, t: nat, ts: set<nat>)
    requires t < |s.tcb| && (U32(s.tcb[t].count - 1) == 0 ==> t !in ts)
    ensures SameFor(s.q, TickOne(s, t).q, ts)
  {
    hide SameFor, Remove, ReleaseTmout;
    SameRefl(s.q, ts);
    if t !in ts {
      var s1 := Put(s, t, s.tcb[t].(count := U32(s.tcb[t].count - 1)));
      var s2 := s1.(q := Remove(s1.q, Wtm(t)));
      RemoveKeeps(s.q, Wtm(t), ts);
      TmoutKeeps(s2, t, ts);
      SameTrans(s.q, s2.q, ReleaseTmout(s2, t).q, ts);
    }
  }

  lemma TimerKeeps(s: State, t: nat, tmo: int, ts: set<nat>)
    requires t !in ts && t < |s.tcb|
    ensures SameFor(s.q, TimerInsert(s, t, tmo).q, ts)
  {
    hide Append, Init;
    InitKeeps(s.q, Wtm(t), ts);
    AppendKeeps(s.q, Wtm(t), TimerQ, ts);
  }

  lemma MakeWaitKeeps(s: State, t: nat, tmo: int, ts: set<nat>)
    requires t !in ts && t < |s.tcb|
    ensures SameFor(s.q, MakeWait(s, t, tmo).q, ts)
  {
    hide SameFor, MakeUnready, TimerInsert;
    SameRefl(s.q, ts);
    UnreadyKeeps(s, t, ts);
    UnreadyTcb(s, t);
    var s1 :=
      match s.tcb[t].state
      case RDY => Put(MakeUnready(s, t), t, s.tcb[t].(state := WAI))
      case SUS => Put(s, t, s.tcb[t].(state := WAS))
      case _ => s;
    TimerKeeps(s1, t, tmo, ts);
    SameTrans(s.q, s1.q, TimerInsert(s1, t, tmo).q, ts);
  }

  lemma UnreadyTcb(s: State, t: nat)
    ensures MakeUnready(s, t).tcb == s.tcb
  {
  }

  lemma SelfWaitKeeps(s: State, t: nat, why: Why, tmo: int, ts: set<nat>)
    requires t !in ts && t < |s.tcb|
    ensures SameFor(s.q, SelfWait(s, t, why, tmo).q, ts)
  {
    hide SameFor, MakeWait, Init;
    var s1 := Put(s, t, s.tcb[t].(waitObj := None, tskwait := why));
    MakeWaitKeeps(s1, t, tmo, ts);
    var q1 := MakeWait(s1, t, tmo).q;
    InitKeeps(q1, Tsk(t), ts);
    SameTrans(s.q, q1, Init(q1, Tsk(t)), ts);
  }

  lemma MakeWaitHas(s: State, t: nat, tmo: int, h: Node)
    requires t < |s.tcb| && h in s.q && IsWaitQ(h)
    ensures h in MakeWait(s, t, tmo).q && |MakeWait(s, t, tmo).tcb| == |s.tcb|
  {
  }

  lemma ObjWaitKeeps(s: State, t: nat, h: Node, atr: bv16, tmo: int, ts: set<nat>)
    requires t !in ts && t < |s.tcb| && h in s.q && IsWaitQ(h)
    ensures SameFor(s.q, ObjMakeWait(s, t, h, atr, tmo).q, ts)
  {
    hide SameFor, MakeWait, TaTpri, InsertAt, Append;
    var s1 := Put(s, t, s.tcb[t].(waitObj := Some(h)));
    MakeWaitKeeps(s1, t, tmo, ts);
    var w := MakeWait(s1, t, tmo);
    MakeWaitHas(s1, t, tmo, h);
    InsertKeeps(w.q, Tsk(t), h, PriPos(w.tcb, w.q[h], w.tcb[t].tskpri), ts);
    AppendKeeps(w.q, Tsk(t), h, ts);
    SameTrans(s.q, w.q, ObjMakeWait(s, t, h, atr, tmo).q, ts);
  }

  // ---- the loops: a task they release is waiting no longer ----

  ghost predicate StillWaiting(s: State, ts: set<nat>) {
    forall t :: t in ts ==> t < |s.tcb| && Waiting(s.tcb[t])
  }

  /** No task that is waiting afterwards was not waiting before. */
  ghost predicate NoNewWait(s: State, r: State) {
    |r.tcb| == |s.tcb| && forall t :: 0 <= t < |s.tcb| && Waiting(r.tcb[t]) ==> Waiting(s.tcb[t])
  }

  lemma ReleaseNoNew(s: State, t: nat, er: Er)
    requires t < |s.tcb|
    ensures NoNewWait(s, ReleaseWith(s, t, er)) && !Waiting(ReleaseWith(s, t, er).tcb[t])
  {
    hide Remove, Append, TopPri;
  }

  lemma {:induction false} ReleaseAllNoNew(s: State, ws: seq<Node>)
    ensures NoNewWait(s, ReleaseAll(s, ws))
    decreases |ws|
  {
    hide ReleaseWith;
    if ws != [] {
      if ws[0].Tsk? && ws[0].t < |s.tcb| { ReleaseNoNew(s, ws[0].t, E_DLT); }
      var s1 := if ws[0].Tsk? && ws[0].t < |s.tcb| then ReleaseWith(s, ws[0].t, E_DLT) else s;
      ReleaseAllNoNew(s1, ws[1..]);
    }
  }

  lemma {:induction false} ReleaseAllKeeps(s: State, ws: seq<Node>, ts: set<nat>)
    requires StillWaiting(ReleaseAll(s, ws), ts)
    ensures SameFor(s.q, ReleaseAll(s, ws).q, ts)
    decreases |ws|
  {
    hide ReleaseWith, SameFor;
    SameRefl(s.q, ts);
    if ws != [] {
      var s1 := if ws[0].Tsk? && ws[0].t < |s.tcb| then ReleaseWith(s, ws[0].t, E_DLT) else s;
      if ws[0].Tsk? && ws[0].t < |s.tcb| {
        ReleaseNoNew(s, ws[0].t, E_DLT);
        ReleaseAllNoNew(s1, ws[1..]);
        ReleaseKeeps(s, ws[0].t, E_DLT, ts);
      }
      ReleaseAllKeeps(s1, ws[1..], ts);
      SameTrans(s.q, s1.q, ReleaseAll(s1, ws[1..]).q, ts);
    }
  }

  lemma TickOneNoNew(s: State, t: nat)
    requires t < |s.tcb|
    ensures NoNewWait(s, TickOne(s, t))
    ensures U32(s.tcb[t].count - 1) == 0 ==> !Waiting(TickOne(s, t).tcb[t])
  {
    hide Remove, Append, TopPri;
  }

  lemma {:induction false} TickAllNoNew(s: State, es: seq<Node>)
    ensures NoNewWait(s, TickAll(s, es))
    decreases |es|
  {
    hide TickOne;
    if es != [] {
      if es[0].Wtm? && es[0].t < |s.tcb| { TickOneNoNew(s, es[0].t); }
      TickAllNoNew(if es[0].Wtm? && es[0].t < |s.tcb| then TickOne(s, es[0].t) else s, es[1..]);
    }
  }

  lemma {:induction false} TickAllKeeps(s: State, es: seq<Node>, ts: set<nat>)
    requires StillWaiting(TickAll(s, es), ts)
    ensures SameFor(s.q, TickAll(s, es).q, ts)
    decreases |es|
  {
    hide TickOne, SameFor;
    SameRefl(s.q, ts);
    if es != [] {
      var s1 := if es[0].Wtm? && es[0].t < |s.tcb| then TickOne(s, es[0].t) else s;
      if es[0].Wtm? && es[0].t < |s.tcb| {
        TickOneNoNew(s, es[0].t);
        TickAllNoNew(s1, es[1..]);
        TickOneKeeps(s, es[0].t, ts);
      }
      TickAllKeeps(s1, es[1..], ts);
      SameTrans(s.q, s1.q, TickAll(s1, es[1..]).q, ts);
    }
  }

  lemma SweepOneNoNew(s: State, i: nat, t: nat)
    requires i < |s.o.flg| && t < |s.tcb|
    ensures NoNewWait(s, SweepOne(s, i, t)) && |SweepOne(s, i, t).o.flg| == |s.o.flg|
    ensures SweepOne(s, i, t) == s || !Waiting(SweepOne(s, i, t).tcb[t])
  {
    hide Remove, Append, TopPri, FlagCond, TaClr;
  }

  lemma {:induction false} SweepNoNew(s: State, i: nat, ws: seq<Node>)
    requires i < |s.o.flg|
    ensures NoNewWait(s, Sweep(s, i, ws))
    decreases |ws|
  {
    hide SweepOne;
    if ws != [] {
      if ws[0].Tsk? && ws[0].t < |s.tcb| { SweepOneNoNew(s, i, ws[0].t); }
      SweepNoNew(if ws[0].Tsk? && ws[0].t < |s.tcb| then SweepOne(s, i, ws[0].t) else s, i, ws[1..]);
    }
  }

  lemma SweepOneKeeps(s: State, i: nat, t: nat, ts: set<nat>)
    requires i < |s.o.flg| && t < |s.tcb| && t !in ts
    ensures SameFor(s.q, SweepOne(s, i, t).q, ts)
  {
    hide SameFor, ReleaseWith, FlagCond, TaClr;
    SameRefl(s.q, ts);
    ReleaseKeeps(Put(s, t, s.tcb[t].(flgOut := s.o.flg[i].ptn)), t, E_OK, ts);
  }

  lemma {:induction false} SweepKeeps(s: State, i: nat, ws: seq<Node>, ts: set<nat>)
    requires i < |s.o.flg| && StillWaiting(Sweep(s, i, ws), ts)
    ensures SameFor(s.q, Sweep(s, i, ws).q, ts)
    decreases |ws|
  {
    hide SweepOne, SameFor;
    SameRefl(s.q, ts);
    if ws != [] {
      var s1 := if ws[0].Tsk? && ws[0].t < |s.tcb| then SweepOne(s, i, ws[0].t) else s;
      if ws[0].Tsk? && ws[0].t < |s.tcb| {
        SweepOneNoNew(s, i, ws[0].t);
        SweepNoNew(s1, i, ws[1..]);
        if ws[0].t !in ts { SweepOneKeeps(s, i, ws[0].t, ts); }
      }
      SweepKeeps(s1, i, ws[1..], ts);
      SameTrans(s.q, s1.q, Sweep(s1, i, ws[1..]).q, ts);
    }
  }

  // ---- the calls ----

  /** The tasks `ts` go on waiting from `s` to `r`. */
  ghost predicate WaitOn(s: State, r: State, ts: set<nat>) { StillWaiting(s, ts) && StillWaiting(r, ts) }

  lemma CreTskKeeps(s: State, id: int, pri: int, ts: set<nat>)
    requires WaitOn(s, CreTsk(s, id, pri).0, ts)
    ensures SameFor(s.q, CreTsk(s, id, pri).0.q, ts)
  {
    hide Remove, SameFor;
    SameRefl(s.q, ts);
    if 1 <= id <= |s.tcb| && s.tcb[id - 1].state == NOEXS { RemoveKeeps(s.q, Tsk(id - 1), ts); }
  }

  lemma DelTskKeeps(s: State, id: int, ts: set<nat>)
    requires WaitOn(s, DelTsk(s, id).0, ts)
    ensures SameFor(s.q, DelTsk(s, id).0.q, ts)
  {
    hide SameFor, WaitCancel, MakeUnready, Append;
    SameRefl(s.q, ts);
    if 1 <= id <= |s.tcb| && s.tcb[id - 1].state != NOEXS && id - 1 != s.run {
      var t := id - 1;
      CancelTcb(s, t);
      UnreadyTcb(s, t);
      CancelKeeps(s, t, ts);
      UnreadyKeeps(s, t, ts);
      var s1 := if Waiting(s.tcb[t]) then WaitCancel(s, t) else s;
      var s2 := if s.tcb[t].state == RDY then MakeUnready(s1, t) else s1;
      AppendKeeps(s2.q, Tsk(t), FreeTcb, ts);
      SameTrans(s.q, s2.q, Append(s2.q, Tsk(t), FreeTcb), ts);
    }
  }

  lemma ActTskKeeps(s: State, id: int, ts: set<nat>)
    requires TaskArg(s, id) && WaitOn(s, IActTsk(s, id).0, ts)
    ensures SameFor(s.q, IActTsk(s, id).0.q, ts)
  {
    hide SameFor, MakeReady;
    SameRefl(s.q, ts);
    if !BadTaskId(s, id) && s.tcb[TaskOf(s, id)].state == DMT { ReadyKeeps(s, TaskOf(s, id), ts); }
  }

  lemma ExtTskKeeps(s: State, ts: set<nat>)
    requires IsTask(s, s.run) && s.run !in ts
    ensures SameFor(s.q, ExtTsk(s).q, ts)
  {
    hide SameFor, MakeReady, MakeUnready;
    var t := s.run;
    UnreadyTcb(s, t);
    UnreadyKeeps(s, t, ts);
    var s1 := MakeUnready(s, t);
    var s2 := Put(s1, t, MakeDormant(s1.tcb[t]));
    if s2.tcb[t].actcnt != 0 {
      var s3 := Put(s2, t, s2.tcb[t].(actcnt := s2.tcb[t].actcnt - 1));
      ReadyKeeps(s3, t, ts);
      SameTrans(s.q, s3.q, MakeReady(s3, t).q, ts);
    }
  }

  lemma ChgPriKeeps(s: State, id: int, p: int, ts: set<nat>)
    requires Allowed(s, CChgPri(id, p)) && StillWaiting(s, ts)
    ensures SameFor(s.q, ChgPri(s, id, p).0.q, ts)
  {
    hide SameFor, Remove, Append, TopTask, TopPri;
    SameRefl(s.q, ts);
    if !BadTaskId(s, id) && s.tcb[TaskOf(s, id)].state == RDY {
      var t := TaskOf(s, id);
      RemoveKeeps(s.q, Tsk(t), ts);
      var q := Remove(s.q, Tsk(t));
      AppendKeeps(q, Tsk(t), Line(s.tcb[t].itskpri), ts);
      SameTrans(s.q, q, Append(q, Tsk(t), Line(s.tcb[t].itskpri)), ts);
      if p >= 1 {
        AppendKeeps(q, Tsk(t), Line(p - 1), ts);
        SameTrans(s.q, q, Append(q, Tsk(t), Line(p - 1)), ts);
      }
    }
  }

  lemma RotRdqKeeps(s: State, p: int, ts: set<nat>)
    ensures SameFor(s.q, RotRdq(s, p).0.q, ts)
  {
    hide TopPri, TopTask;
  }

  lemma SusTskKeeps(s: State, id: int, ts: set<nat>)
    requires TaskArg(s, id) && StillWaiting(s, ts)
    ensures SameFor(s.q, SusTsk(s, id).0.q, ts)
  {
    hide SameFor, MakeUnready;
    SameRefl(s.q, ts);
    if !BadTaskId(s, id) && s.tcb[TaskOf(s, id)].state == RDY {
      var t := TaskOf(s, id);
      UnreadyKeeps(Put(s, t, s.tcb[t].(suscnt := s.tcb[t].suscnt + 1, state := SUS)), t, ts);
    }
  }

  lemma RsmTskKeeps(s: State, id: int, ts: set<nat>)
    requires TaskArg(s, id) && StillWaiting(s, ts)
    ensures SameFor(s.q, RsmTsk(s, id).0.q, ts)
  {
    hide SameFor, MakeReady;
    SameRefl(s.q, ts);
    if !BadTaskId(s, id) && s.tcb[TaskOf(s, id)].state == SUS {
      var t := TaskOf(s, id);
      ReadyKeeps(Put(s, t, s.tcb[t].(suscnt := s.tcb[t].suscnt - 1)), t, ts);
    }
  }

  lemma SleepKeeps(s: State, d: nat, tmo: int, ts: set<nat>)
    requires IsTask(s, s.run) && s.run !in ts
    ensures SameFor(s.q, DlyTsk(s, d).0.q, ts) && SameFor(s.q, SlpTsk(s, tmo).0.q, ts)
  {
    hide SameFor, SelfWait, ToTmo;
    SameRefl(s.q, ts);
    SelfWaitKeeps(Put(s, s.run, s.tcb[s.run].(ercd := E_OK)), s.run, TTW_DLY, ToTmo(d), ts);
    SelfWaitKeeps(Put(s, s.run, s.tcb[s.run].(ercd := E_TMOUT)), s.run, TTW_SLP, tmo, ts);
  }

  lemma WupTskKeeps(s: State, id: int, ts: set<nat>)
    requires TaskArg(s, id) && WaitOn(s, IWupTsk(s, id).0, ts)
    ensures SameFor(s.q, IWupTsk(s, id).0.q, ts)
  {
    hide SameFor, ReleaseWith;
    SameRefl(s.q, ts);
    if !BadTaskId(s, id) && Waiting(s.tcb[TaskOf(s, id)]) && s.tcb[TaskOf(s, id)].tskwait == TTW_SLP {
      ReleaseNoNew(s, TaskOf(s, id), E_OK);
      ReleaseKeeps(s, TaskOf(s, id), E_OK, ts);
    }
  }

  lemma CreSemKeeps(s: State, id: int, atr: bv16, n: nat, m: nat, ts: set<nat>)
    requires Inv(s)
    ensures SameFor(s.q, CreSem(s, id, atr, n, m).0.q, ts)
  {
    hide Good, SameFor, Remove, Init, Without;
    SameRefl(s.q, ts);
    if IdIn(id, |s.o.sem|) && !s.o.sem[id - 1].live {
      var e := SemQ(id - 1);
      InFreeSems(s, id - 1);
      RemoveKeeps(s.q, e, ts);
      AtRemove(s.q, e, e);
      InitKeeps(Remove(s.q, e), e, ts) by { assert Without([], e) == []; }
      SameTrans(s.q, Remove(s.q, e), Init(Remove(s.q, e), e), ts);
    }
  }

  lemma DelSemKeeps(s: State, id: int, ts: set<nat>)
    requires Inv(s) && WaitOn(s, DelSem(s, id).0, ts)
    ensures SameFor(s.q, DelSem(s, id).0.q, ts)
  {
    hide Good, SameFor, ReleaseAll, Append;
    SameRefl(s.q, ts);
    if SemLive(s, id) {
      var e := SemQ(id - 1);
      ReleaseAllGood(s, e);
      var s1 := ReleaseAll(s, At(s.q, e));
      ReleaseAllKeeps(s, At(s.q, e), ts);
      AppendKeeps(s1.q, e, FreeSem, ts);
      SameTrans(s.q, s1.q, Append(s1.q, e, FreeSem), ts);
    }
  }

  lemma DelFlgKeeps(s: State, id: int, ts: set<nat>)
    requires WaitOn(s, DelFlg(s, id).0, ts)
    ensures SameFor(s.q, DelFlg(s, id).0.q, ts)
  {
    hide SameFor, ReleaseAll;
    SameRefl(s.q, ts);
    if FlgLive(s, id) { ReleaseAllKeeps(s, At(s.q, FlgQ(id - 1)), ts); }
  }

  lemma DelMbxKeeps(s: State, id: int, ts: set<nat>)
    requires WaitOn(s, DelMbx(s, id).0, ts)
    ensures SameFor(s.q, DelMbx(s, id).0.q, ts)
  {
    hide SameFor, ReleaseAll;
    SameRefl(s.q, ts);
    if MbxLive(s, id) { ReleaseAllKeeps(s, At(s.q, MbxQ(id - 1)), ts); }
  }

  lemma WaiSemKeeps(s: State, id: int, tmo: int, ts: set<nat>)
    requires IsTask(s, s.run) && s.run !in ts && (SemLive(s, id) ==> SemQ(id - 1) in s.q)
    ensures SameFor(s.q, WaiSem(s, id, tmo).0.q, ts)
  {
    hide SameFor, ObjMakeWait;
    SameRefl(s.q, ts);
    if SemLive(s, id) {
      ObjWaitKeeps(Put(s, s.run, s.tcb[s.run].(ercd := E_TMOUT)), s.run, SemQ(id - 1), s.o.sem[id - 1].atr, tmo, ts);
    }
  }

  lemma SigSemKeeps(s: State, id: int, ts: set<nat>)
    requires WaitOn(s, ISigSem(s, id).0, ts)
    ensures SameFor(s.q, ISigSem(s, id).0.q, ts)
  {
    hide SameFor, ReleaseWith;
    SameRefl(s.q, ts);
    if SemLive(s, id) && FirstTask(s, SemQ(id - 1)) != NULL {
      ReleaseNoNew(s, FirstTask(s, SemQ(id - 1)), E_OK);
      ReleaseKeeps(s, FirstTask(s, SemQ(id - 1)), E_OK, ts);
    }
  }

  lemma CreQueueKeeps(s: State, h: Node, ts: set<nat>)
    requires Inv(s)
    requires (h.FlgQ? && h.i < |s.o.flg| && !s.o.flg[h.i].live) || (h.MbxQ? && h.i < |s.o.mbx| && !s.o.mbx[h.i].live)
    ensures SameFor(s.q, Init(s.q, h), ts)
  {
    hide Good;
    if h.FlgQ? { FlagParts(s, h.i); } else { MailParts(s, h.i); }
    InitKeeps(s.q, h, ts);
  }

  lemma SetFlgKeeps(s: State, id: int, p: bv32, ts: set<nat>)
    requires StillWaiting(ISetFlg(s, id, p).0, ts)
    ensures SameFor(s.q, ISetFlg(s, id, p).0.q, ts)
  {
    hide SameFor, Sweep, BitsSet;
    SameRefl(s.q, ts);
    if FlgLive(s, id) {
      SweepKeeps(WithPtn(s, id - 1, BitsSet(s.o.flg[id - 1].ptn, p)), id - 1, At(s.q, FlgQ(id - 1)), ts);
    }
  }

  lemma WaiFlgKeeps(s: State, id: int, p: bv32, m: nat, tmo: int, ts: set<nat>)
    requires IsTask(s, s.run) && s.run !in ts && (IdIn(id, |s.o.flg|) ==> FlgQ(id - 1) in s.q)
    ensures SameFor(s.q, WaiFlg(s, id, p, m, tmo).0.q, ts)
  {
    hide SameFor, ObjMakeWait, FlagCond, TaClr, TaWsgl;
    SameRefl(s.q, ts);
    if IdIn(id, |s.o.flg|) {
      ObjWaitKeeps(Put(s, s.run, s.tcb[s.run].(ercd := E_TMOUT, waiptn := p, wfmode := m)), s.run, FlgQ(id - 1),
                   s.o.flg[id - 1].atr, tmo, ts);
    }
  }

  lemma SndMbxKeeps(s: State, id: int, m: Msg, ts: set<nat>)
    requires WaitOn(s, SndMbx(s, id, m).0, ts)
    ensures SameFor(s.q, SndMbx(s, id, m).0.q, ts)
  {
    hide SameFor, ReleaseWith, TaMpri, InsertMsg;
    SameRefl(s.q, ts);
    if MbxLive(s, id) && !MsgRefused(s, id, m) && FirstTask(s, MbxQ(id - 1)) != NULL {
      var t := FirstTask(s, MbxQ(id - 1));
      var s1 := Put(s, t, s.tcb[t].(msgOut := Some(m)));
      ReleaseNoNew(s1, t, E_OK);
      ReleaseKeeps(s1, t, E_OK, ts);
    }
  }

  lemma RcvMbxKeeps(s: State, id: int, tmo: int, ts: set<nat>)
    requires IsTask(s, s.run) && s.run !in ts && (IdIn(id, |s.o.mbx|) ==> MbxQ(id - 1) in s.q)
    ensures SameFor(s.q, RcvMbx(s, id, tmo).0.q, ts)
  {
    hide SameFor, ObjMakeWait;
    SameRefl(s.q, ts);
    if IdIn(id, |s.o.mbx|) {
      ObjWaitKeeps(Put(s, s.run, s.tcb[s.run].(ercd := E_TMOUT)), s.run, MbxQ(id - 1), s.o.mbx[id - 1].atr, tmo, ts);
    }
  }

  lemma TaskCallOrder(s: State, c: Call, ts: set<nat>)
    requires Inv(s) && Allowed(s, c) && !OnObject(c) && WaitOn(s, Step(s, c).0, ts)
    ensures SameFor(s.q, Step(s, c).0.q, ts)
  {
    hide Good, SameFor, TickAll, Init, Step, CreTsk, DelTsk, IActTsk, ExtTsk, ChgPri, RotRdq, DlyTsk, SusTsk,
         RsmTsk, SlpTsk, IWupTsk, CreSem, DelSem, WaiSem, ISigSem, DelFlg, ISetFlg, WaiFlg, DelMbx, SndMbx, RcvMbx;
    StepIs(s, c);
    SameRefl(s.q, ts);
    match c
    case CCreTsk(id, pri) => CreTskKeeps(s, id, pri, ts);
    case CDelTsk(id) => DelTskKeeps(s, id, ts);
    case CActTsk(id, isr) => ActTskKeeps(s, id, ts);
    case CExtTsk => ExtTskKeeps(s, ts);
    case CChgPri(id, p) => ChgPriKeeps(s, id, p, ts);
    case CRotRdq(p) => RotRdqKeeps(s, p, ts);
    case CDlyTsk(d) => SleepKeeps(s, d, 0, ts);
    case CSusTsk(id) => SusTskKeeps(s, id, ts);
    case CRsmTsk(id) => RsmTskKeeps(s, id, ts);
    case CSlpTsk(tmo) => SleepKeeps(s, 0, tmo, ts);
    case CWupTsk(id, isr) => WupTskKeeps(s, id, ts);
    case CCanWup(id) =>
    case CTick => TickAllKeeps(s, At(s.q, TimerQ), ts);
    case CDispatch =>
    case _ =>
  }

  lemma LifeCallOrder(s: State, c: Call, ts: set<nat>)
    requires Inv(s) && Allowed(s, c) && CreatesOrDeletes(c) && WaitOn(s, Step(s, c).0, ts)
    ensures SameFor(s.q, Step(s, c).0.q, ts)
  {
    hide Good, SameFor, TickAll, Init, Step, CreTsk, DelTsk, IActTsk, ExtTsk, ChgPri, RotRdq, DlyTsk, SusTsk,
         RsmTsk, SlpTsk, IWupTsk, CreSem, DelSem, WaiSem, ISigSem, DelFlg, ISetFlg, WaiFlg, DelMbx, SndMbx, RcvMbx;
    StepIs(s, c);
    SameRefl(s.q, ts);
    match c
    case CCreSem(id, atr, n, m) => CreSemKeeps(s, id, atr, n, m, ts);
    case CDelSem(id) => DelSemKeeps(s, id, ts);
    case CCreFlg(id, atr, p) => if IdIn(id, |s.o.flg|) && !s.o.flg[id - 1].live { CreQueueKeeps(s, FlgQ(id - 1), ts); }
    case CDelFlg(id) => DelFlgKeeps(s, id, ts);
    case CCreMbx(id, atr) => if IdIn(id, |s.o.mbx|) && !s.o.mbx[id - 1].live { CreQueueKeeps(s, MbxQ(id - 1), ts); }
    case CDelMbx(id) => DelMbxKeeps(s, id, ts);
    case _ =>
  }

  lemma ObjectCallOrder(s: State, c: Call, ts: set<nat>)
    requires Inv(s) && Allowed(s, c) && OnObject(c) && !CreatesOrDeletes(c) && WaitOn(s, Step(s, c).0, ts)
    ensures SameFor(s.q, Step(s, c).0.q, ts)
  {
    hide Good, SameFor, TickAll, Init, Step, CreTsk, DelTsk, IActTsk, ExtTsk, ChgPri, RotRdq, DlyTsk, SusTsk,
         RsmTsk, SlpTsk, IWupTsk, CreSem, DelSem, WaiSem, ISigSem, DelFlg, ISetFlg, WaiFlg, DelMbx, SndMbx, RcvMbx;
    StepIs(s, c);
    SameRefl(s.q, ts);
    match c
    case CWaiSem(id, tmo) => WaiSemKeeps(s, id, tmo, ts);
    case CSigSem(id, isr) => SigSemKeeps(s, id, ts);
    case CSetFlg(id, p, isr) => SetFlgKeeps(s, id, p, ts);
    case CClrFlg(id, p) =>
    case CWaiFlg(id, p, m, tmo) => WaiFlgKeeps(s, id, p, m, tmo, ts);
    case CSndMbx(id, m) => SndMbxKeeps(s, id, m, ts);
    case CRcvMbx(id, tmo) => RcvMbxKeeps(s, id, tmo, ts);
    case _ =>
  }

  /** No step reorders those who wait before and after it, in any wait queue or among the timers. */
  lemma StepOrder(s: State, c: Call, ts: set<nat>)
    requires Inv(s) && Allowed(s, c) && WaitOn(s, Step(s, c).0, ts)
    ensures SameFor(s.q, Step(s, c).0.q, ts)
  {
    hide Inv, SameFor, Step, WaitOn, Sound;
    if CreatesOrDeletes(c) {
      LifeCallOrder(s, c, ts);
    } else if OnObject(c) {
      ObjectCallOrder(s, c, ts);
    } else {
      TaskCallOrder(s, c, ts);
    }
  }
}
