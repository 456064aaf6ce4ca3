/** Safety over whole runs: the start state satisfies the invariant, every allowed call
    keeps it, and a call that is not allowed breaks it. */
module KernelSafety {
  import opened KQueue
  import opened ReadyQueue
  import opened KernelState
  import opened KernelInv
  import opened KernelCalls
  import opened KernelRuns

  // ---- start-up ----

  lemma BootAt(nt: nat, np: nat, nsem: nat, nflg: nat, nmbx: nat, h: Node)
    ensures At(Boot(nt, np, nsem, nflg, nmbx).q, h) ==
      match h
      case FreeTcb => TcbNodes(nt)
      case FreeSem => SemNodes(nsem)
      case _ => []
    ensures h in Boot(nt, np, nsem, nflg, nmbx).q <==>
      match h
      case Line(p) => p < np
      case FlgQ(i) => i < nflg
      case MbxQ(i) => i < nmbx
      case FreeTcb => true
      case FreeSem => true
      case TimerQ => true
      case _ => false
  {
    HeadNodes(np, nflg, nmbx, h);
    BootKeys(nt, np, nsem, nflg, nmbx, h);
  }

  lemma HeadNodes(np: nat, nflg: nat, nmbx: nat, h: Node)
    ensures h in LineNodes(np) <==> h.Line? && h.p < np
    ensures h in FlgNodes(nflg) <==> h.FlgQ? && h.i < nflg
    ensures h in MbxNodes(nmbx) <==> h.MbxQ? && h.i < nmbx
  {
    if h.Line? && h.p < np { assert LineNodes(np)[h.p] == h; }
    if h.FlgQ? && h.i < nflg { assert FlgNodes(nflg)[h.i] == h; }
    if h.MbxQ? && h.i < nmbx { assert MbxNodes(nmbx)[h.i] == h; }
  }

  lemma BootKeys(nt: nat, np: nat, nsem: nat, nflg: nat, nmbx: nat, h: Node)
    ensures var q := Boot(nt, np, nsem, nflg, nmbx).q;
      && (h in q <==> h in LineNodes(np) || h in FlgNodes(nflg) || h in MbxNodes(nmbx) ||
                      h == FreeTcb || h == FreeSem || h == TimerQ)
      && (h == FreeTcb && h !in FlgNodes(nflg) && h !in MbxNodes(nmbx) ==> q[h] == TcbNodes(nt))
      && (h == FreeSem && h !in MbxNodes(nmbx) ==> q[h] == SemNodes(nsem))
      && (h in q && h != FreeTcb && h != FreeSem ==> q[h] == [])
  {
    hide LineNodes, FlgNodes, MbxNodes, TcbNodes, SemNodes;
  }

  /** At start-up every list but the two free lists is empty. */
  lemma BootInv(nt: nat, np: nat, nsem: nat, nflg: nat, nmbx: nat)
    ensures Inv(Boot(nt, np, nsem, nflg, nmbx))
  {
    var s := Boot(nt, np, nsem, nflg, nmbx);
    forall h ensures At(s.q, h) == (if h == FreeTcb then TcbNodes(nt) else if h == FreeSem then SemNodes(nsem) else [])
    {
      BootAt(nt, np, nsem, nflg, nmbx, h);
    }
    forall h ensures h in s.q <==> IsHead(np, s.o, h) { BootAt(nt, np, nsem, nflg, nmbx, h); }
    BootShape(s, nt, nsem);
    BootObjects(s, nt, nsem);
    hide Separate, Heads, Elements, Placed, Tcbs, Objects, TopTask;
  }

  ghost predicate BootLike(s: State, nt: nat, nsem: nat) {
    && (forall h :: At(s.q, h) == if h == FreeTcb then TcbNodes(nt) else if h == FreeSem then SemNodes(nsem) else [])
    && (forall h :: h in s.q <==> IsHead(s.np, s.o, h))
    && s.tcb == seq(nt, i => BlankTcb) && |s.o.sem| == nsem
    && (forall i :: 0 <= i < nsem ==> !s.o.sem[i].live)
    && forall i :: 0 <= i < |s.o.mbx| ==> s.o.mbx[i].msgs == []
  }

  lemma BootShape(s: State, nt: nat, nsem: nat)
    requires BootLike(s, nt, nsem)
    ensures Separate(s.q) && Heads(s.q, s.np, s.o) && Elements(s.q, s.tcb, s.o, NULL) && Placed(s.q, s.tcb, NULL)
    ensures Tcbs(s.np, s.tcb, NULL)
  {
    assert forall h :: h in s.q ==> s.q[h] == At(s.q, h);
    assert NoDup(TcbNodes(nt)) && NoDup(SemNodes(nsem));
    forall i | 0 <= i < nsem ensures SemQ(i) in At(s.q, FreeSem) { assert SemNodes(nsem)[i] == SemQ(i); }
    forall t | 0 <= t < nt ensures Tsk(t) in At(s.q, FreeTcb) { assert TcbNodes(nt)[t] == Tsk(t); }
  }

  lemma BootObjects(s: State, nt: nat, nsem: nat)
    requires BootLike(s, nt, nsem)
    ensures Objects(s.q, s.tcb, s.o) && TopTask(s.q, s.np) == NULL
  {
    assert forall h :: h in s.q ==> s.q[h] == At(s.q, h);
    TopPriIs(s.q, s.np, s.np) by { forall p: nat ensures At(s.q, Line(p)) == [] {} }
  }

  // ---- runs ----

  /** Every call of `cs` is allowed where it is made. */
  ghost predicate Legal(s: State, cs: seq<Call>)
    requires Inv(s)
    decreases |cs|
  {
    cs != [] ==> Allowed(s, cs[0]) && (StepInv(s, cs[0]); Legal(Step(s, cs[0]).0, cs[1..]))
  }

  ghost function Run(s: State, cs: seq<Call>): (r: State)
    requires Inv(s) && Legal(s, cs)
    ensures Inv(r)
    decreases |cs|
  {
    if cs == [] then s else
      StepInv(s, cs[0]);
      Run(Step(s, cs[0]).0, cs[1..])
  }

  ghost function Start(nt: nat, np: nat, nsem: nat, nflg: nat, nmbx: nat): (r: State)
    ensures Inv(r)
  {
    BootInv(nt, np, nsem, nflg, nmbx);
    Boot(nt, np, nsem, nflg, nmbx)
  }

  /** At start-up nothing exists, nothing runs, and the free list holds all tasks in order. */
  lemma StartEmpty(nt: nat, np: nat, nsem: nat, nflg: nat, nmbx: nat)
    ensures var s := Start(nt, np, nsem, nflg, nmbx);
      && s.run == s.sched == NULL && s.np == np && |s.tcb| == nt == |At(s.q, FreeTcb)|
      && |s.o.sem| == nsem && |s.o.flg| == nflg && |s.o.mbx| == nmbx
      && (forall t: nat :: t < nt ==> s.tcb[t].state == NOEXS && At(s.q, FreeTcb)[t] == Tsk(t))
      && (forall i: nat :: i < nsem ==> !s.o.sem[i].live) && (forall i: nat :: i < nflg ==> !s.o.flg[i].live)
      && (forall i: nat :: i < nmbx ==> !s.o.mbx[i].live) && (forall p: nat :: At(s.q, Line(p)) == [])
  {
    hide BootSems, MbxNodes, EmptyHeads;
    var s := Boot(nt, np, nsem, nflg, nmbx);
    BootAt(nt, np, nsem, nflg, nmbx, FreeTcb);
    forall p: nat ensures At(s.q, Line(p)) == [] { BootAt(nt, np, nsem, nflg, nmbx, Line(p)); }
  }

  /** What the invariant says of every state `s` a run from start-up can reach, in terms of
      the tasks alone: where each task's two nodes are and are not. */
  lemma Reachable(nt: nat, np: nat, nsem: nat, nflg: nat, nmbx: nat, cs: seq<Call>, t: nat, h: Node)
    requires Legal(Start(nt, np, nsem, nflg, nmbx), cs)
    requires t < |Run(Start(nt, np, nsem, nflg, nmbx), cs).tcb|
    ensures var s := Run(Start(nt, np, nsem, nflg, nmbx), cs); var c := s.tcb[t];
      && (Tsk(t) in At(s.q, h) <==>
            match c.state
            case NOEXS => h == FreeTcb
            case RDY => h == Line(c.tskpri)
            case WAI => c.waitObj == Some(h)
            case WAS => c.waitObj == Some(h)
            case SUS => false
            case DMT => false)
      && (Wtm(t) in At(s.q, h) ==> h == TimerQ && Waiting(c))
      && (Waiting(c) ==> (Wtm(t) in At(s.q, TimerQ) <==> Wtm(t) !in s.q))
  {
    var s := Run(Start(nt, np, nsem, nflg, nmbx), cs);
    WhereNodes(s, t, h);
  }

  lemma WhereNodes(s: State, t: nat, h: Node)
    requires Inv(s) && t < |s.tcb|
    ensures Tsk(t) in At(s.q, h) <==> Home(s.tcb[t]) == Some(h)
    ensures Wtm(t) in At(s.q, h) ==> h == TimerQ && Waiting(s.tcb[t])
    ensures Waiting(s.tcb[t]) ==> (Wtm(t) in At(s.q, TimerQ) <==> Wtm(t) !in s.q)
  {
    OnlyHome(s, NULL, t, h);
    assert PlacedTask(s.q, s.tcb[t], t);
    assert Separate(s.q);
  }

  lemma {:induction false} RunConcat(s: State, cs: seq<Call>, ds: seq<Call>)
    requires Inv(s) && Legal(s, cs) && Legal(Run(s, cs), ds)
    ensures Legal(s, cs + ds) && Run(s, cs + ds) == Run(Run(s, cs), ds)
    decreases |cs|
  {
    hide Inv, Step, Callable, Sound;
    if cs == [] {
      assert cs + ds == ds;
    } else {
      StepInv(s, cs[0]);
      RunConcat(Step(s, cs[0]).0, cs[1..], ds);
      assert (cs + ds)[0] == cs[0] && (cs + ds)[1..] == cs[1..] + ds;
    }
  }

  // ---- the calls that are not allowed ----

  lemma BrokenCreTsk(s: State, id: int, pri: int)
    requires Inv(s) && !Sound(s, CCreTsk(id, pri))
    ensures !Inv(CreTsk(s, id, pri).0)
  {
    hide Remove, Separate, Heads, Elements, Placed, Objects, TopTask;
    assert !TcbOk(s.np, CreTsk(s, id, pri).0.tcb[id - 1]);
  }

  lemma BrokenCreSem(s: State, id: int, atr: bv16, n: nat, m: nat)
    requires Inv(s) && !Sound(s, CCreSem(id, atr, n, m))
    ensures !Inv(CreSem(s, id, atr, n, m).0)
  {
    var r := CreSem(s, id, atr, n, m).0;
    assert !SemOk(At(r.q, SemQ(id - 1)), r.o.sem[id - 1]);
  }

  /** A waiting or suspended task moved into a priority line is in the wrong place. */
  lemma BrokenChgPri(s: State, id: int, p: int)
    requires Inv(s) && TaskArg(s, id) && !Sound(s, CChgPri(id, p))
    ensures !Inv(ChgPri(s, id, p).0)
  {
    hide Good, TopTask, TopPri, Remove, TcbOk;
    var t := TaskOf(s, id);
    var r := ChgPri(s, id, p).0;
    var h := Line(r.tcb[t].tskpri);
    assert Tsk(t) in At(r.q, h) by { assert At(r.q, h) == At(Remove(s.q, Tsk(t)), h) + [Tsk(t)]; }
    NotInLine(s, t);
    if Inv(r) { OnlyHome(r, NULL, t, h); }
  }

  lemma NotInLine(s: State, t: nat)
    requires Good(s, NULL) && t < |s.tcb| && s.tcb[t].state != RDY
    ensures Home(s.tcb[t]) != None ==> !Home(s.tcb[t]).value.Line?
  {
    assert TcbOk(s.np, s.tcb[t]);
  }

  /** A suspended task declared waiting is in no queue it could be released from. */
  lemma BrokenSusTsk(s: State, id: int)
    requires Inv(s) && TaskArg(s, id) && !Sound(s, CSusTsk(id))
    ensures !Inv(SusTsk(s, id).0)
  {
    hide Separate, Heads, Elements, Objects, TopTask;
    var t := TaskOf(s, id);
    var r := SusTsk(s, id).0;
    assert TcbOk(s.np, s.tcb[t]);
    forall h ensures Tsk(t) !in At(r.q, h) { OnlyHome(s, NULL, t, h); }
    assert !TcbOk(r.np, r.tcb[t]) || !PlacedTask(r.q, r.tcb[t], t);
  }

  /** A packet linked a second time closes its list into a ring. */
  lemma BrokenSndMbx(s: State, id: int, m: Msg)
    requires Inv(s) && !Sound(s, CSndMbx(id, m))
    ensures !Inv(SndMbx(s, id, m).0)
  {
    hide InList, TaMpri, InsertMsg, FirstTask, Separate, Heads, Elements, Placed, TopTask;
    var b := s.o.mbx[id - 1];
    var k := QueuedAt(b, m);
    var b' := b.(msgs := if TaMpri(b.atr) then InsertMsg(b.msgs, m) else b.msgs + [m]);
    PacketsTwice(s.o.mbx, id - 1, b', m, k);
    hide Packets;
  }

  /** The preconditions are exact: among the calls that can be made at all, precisely the
      sound ones keep the invariant. */
  lemma InvExact(s: State, c: Call)
    requires Inv(s) && Callable(s, c)
    ensures Inv(Step(s, c).0) <==> Sound(s, c)
  {
    hide Inv, Sound;
    if Sound(s, c) {
      StepInv(s, c);
    } else {
      Unsound(s, c);
    }
  }

  lemma Unsound(s: State, c: Call)
    requires Inv(s) && Callable(s, c) && !Sound(s, c)
    ensures !Inv(Step(s, c).0)
  {
    hide Inv;
    match c
    case CCreTsk(id, pri) => BrokenCreTsk(s, id, pri);
    case CCreSem(id, atr, n, m) => BrokenCreSem(s, id, atr, n, m);
    case CChgPri(id, p) => BrokenChgPri(s, id, p);
    case CSusTsk(id) => BrokenSusTsk(s, id);
    case CSndMbx(id, m) => BrokenSndMbx(s, id, m);
    case _ =>
  }

  // ---- scheduling ----

  /** The scheduled task is the first of those ready tasks that have the best priority;
      without a ready task there is none. */
  lemma SchedIsBest(s: State)
    requires Inv(s)
    ensures s.sched == NULL <==> forall t :: 0 <= t < |s.tcb| ==> s.tcb[t].state != RDY
    ensures s.sched != NULL ==> IsTask(s, s.sched) && s.tcb[s.sched].state == RDY
    ensures s.sched != NULL ==> [Tsk(s.sched)] <= At(s.q, Line(s.tcb[s.sched].tskpri))
    ensures s.sched != NULL ==>
      forall t :: 0 <= t < |s.tcb| && s.tcb[t].state == RDY ==> s.tcb[s.sched].tskpri <= s.tcb[t].tskpri
  {
    var p := TopPri(s.q, s.np);
    forall t | 0 <= t < |s.tcb| && s.tcb[t].state == RDY ensures p <= s.tcb[t].tskpri < s.np {
      assert TcbOk(s.np, s.tcb[t]) && PlacedTask(s.q, s.tcb[t], t);
    }
    if p < s.np { assert Belongs(s.tcb, s.o, NULL, s.q[Line(p)][0], Line(p)); }
  }

  /** Interrupt-level forms and the tick leave dispatching to the interrupt exit. */
  predicate TaskLevel(c: Call) {
    match c
    case CActTsk(_, isr) => !isr
    case CWupTsk(_, isr) => !isr
    case CSigSem(_, isr) => !isr
    case CSetFlg(_, _, isr) => !isr
    case CTick => false
    case _ => true
  }

  lemma TaskCallSynced(s: State, c: Call)
    requires Inv(s) && Allowed(s, c) && TaskLevel(c) && !OnObject(c) && s.run == s.sched
    ensures Step(s, c).0.run == Step(s, c).0.sched
  {
    hide Good, Remove, Append, TopTask, TopPri, SelfWait, MakeReady, MakeUnready, ReleaseWith, Rotated, ToTmo;
  }

  lemma ObjectCallSynced(s: State, c: Call)
    requires Inv(s) && Allowed(s, c) && TaskLevel(c) && OnObject(c) && s.run == s.sched
    ensures Step(s, c).0.run == Step(s, c).0.sched
  {
    hide Good, Remove, Append, ReleaseAll, Sweep, ObjMakeWait, ReleaseWith, FlagCond, TaClr, TaWsgl, TaMpri, InsertMsg, Init,
         FirstTask, ISigSem, ISetFlg,
         Step, CreTsk, DelTsk, IActTsk, ExtTsk, ChgPri, RotRdq, DlyTsk, SusTsk, RsmTsk, SlpTsk, IWupTsk, CanWup, Tick;
    StepIs(s, c);
  }

  /** After any task-level call, and after an interrupt's exit, the scheduled task runs. */
  lemma Synced(s: State, c: Call)
    requires Inv(s) && Allowed(s, c) && TaskLevel(c) && s.run == s.sched
    ensures Step(s, c).0.run == Step(s, c).0.sched
  {
    hide Inv, Step, Callable, Sound, TaskLevel;
    if OnObject(c) { ObjectCallSynced(s, c); } else { TaskCallSynced(s, c); }
  }

  /** Whether the scheduled task must be running after `cs`, given whether it was before: it
      must unless the last interrupt-level call has not been followed by a dispatch. */
  predicate Settled(before: bool, cs: seq<Call>)
    decreases |cs|
  {
    if cs == [] then before else Settled(cs[0].CDispatch? || (before && TaskLevel(cs[0])), cs[1..])
  }

  /** Over every run: once every interrupt has dispatched, the scheduled task runs. */
  lemma {:induction false} RunSynced(s: State, cs: seq<Call>, before: bool)
    requires Inv(s) && Legal(s, cs) && (before ==> s.run == s.sched) && Settled(before, cs)
    ensures Run(s, cs).run == Run(s, cs).sched
    decreases |cs|
  {
    hide Inv, Step, Callable, Sound, TaskLevel;
    if cs != [] {
      StepInv(s, cs[0]);
      if cs[0].CDispatch? {
        DispatchSyncs(s);
      } else if before && TaskLevel(cs[0]) {
        Synced(s, cs[0]);
      }
      RunSynced(Step(s, cs[0]).0, cs[1..], cs[0].CDispatch? || (before && TaskLevel(cs[0])));
    }
  }

  lemma DispatchSyncs(s: State)
    requires Inv(s)
    ensures Step(s, CDispatch).0.run == Step(s, CDispatch).0.sched
  {
    hide Inv;
  }

  // ---- refused calls ----

  /** Nothing has changed but what the caller is told. */
  ghost predicate Untouched(s: State, r: State) {
    && r.q == s.q && r.np == s.np && r.o == s.o && r.sched == s.sched && |r.tcb| == |s.tcb|
    && forall t :: 0 <= t < |s.tcb| ==>
         r.tcb[t] == if t == s.run then s.tcb[t].(ercd := r.tcb[t].ercd) else s.tcb[t]
  }

  /** The call only polls, so that E_TMOUT is a refusal and not the beginning of a wait. */
  predicate Polls(c: Call) {
    match c
    case CSlpTsk(tmo) => tmo == TMO_POL
    case CWaiSem(_, tmo) => tmo == TMO_POL
    case CWaiFlg(_, _, _, tmo) => tmo == TMO_POL
    case CRcvMbx(_, tmo) => tmo == TMO_POL
    case _ => false
  }

  lemma TaskCallRefused(s: State, c: Call)
    requires Inv(s) && Callable(s, c) && !OnObject(c)
    requires Step(s, c).1 != E_OK && (Step(s, c).1 == E_TMOUT ==> Polls(c))
    ensures Untouched(s, Step(s, c).0)
  {
    hide Good, Remove, Append, TopTask, TopPri, SelfWait, MakeReady, MakeUnready, ReleaseWith, ChangePri, ToTmo;
  }

  lemma LifeCallRefused(s: State, c: Call)
    requires Inv(s) && Callable(s, c) && CreatesOrDeletes(c) && Step(s, c).1 != E_OK
    ensures Untouched(s, Step(s, c).0)
  {
    hide Good, Remove, Append, Init, ReleaseAll;
  }

  lemma ObjectCallRefused(s: State, c: Call)
    requires Inv(s) && Callable(s, c) && OnObject(c) && !CreatesOrDeletes(c)
    requires Step(s, c).1 != E_OK && (Step(s, c).1 == E_TMOUT ==> Polls(c))
    ensures Untouched(s, Step(s, c).0)
  {
    hide Good, Sweep, ObjMakeWait, ReleaseWith, FirstTask, FlagCond, TaClr, TaWsgl, TaMpri, InsertMsg, BitsSet, BitsKept,
         Step, CreTsk, DelTsk, IActTsk, ExtTsk, ChgPri, RotRdq, DlyTsk, SusTsk, RsmTsk, SlpTsk, IWupTsk, CanWup, CreSem,
         DelSem, CreFlg, DelFlg, CreMbx, DelMbx, Tick;
    StepIs(s, c);
  }

  /** A call that fails leaves every queue, table and object as it was. */
  lemma RefusedChangesNothing(s: State, c: Call)
    requires Inv(s) && Callable(s, c)
    requires Step(s, c).1 != E_OK && (Step(s, c).1 == E_TMOUT ==> Polls(c))
    ensures Untouched(s, Step(s, c).0)
  {
    hide Inv, Step, Callable, Untouched, Polls;
    if CreatesOrDeletes(c) {
      LifeCallRefused(s, c);
    } else if OnObject(c) {
      ObjectCallRefused(s, c);
    } else {
      TaskCallRefused(s, c);
    }
  }
}
