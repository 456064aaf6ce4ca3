/** The life of a task: what each call leaves alone, whom a task ID names, how a task is created,
    starts and exits, and at which priority. */
module KernelTasks {
  import opened KQueue
  import opened ReadyQueue
  import opened KernelState
  import opened KernelInv
  import opened KernelCalls
  import opened KernelRuns
  import opened KernelEffects
  import opened KernelSafety
  import opened KernelWaits
  import opened KernelCounts
  import opened KernelReady

  // ---- what is left alone ----

  /** Field by field, which calls change a task that exists before and after. */
  ghost predicate Kept(s: State, c: Call, t: nat, x: Tcb, y: Tcb) {
    var named, caller := TakesTask(c) && Names(s, TaskIdOf(c), t), t == s.run;
    && y.itskpri == x.itskpri
    && (y.tskpri == x.tskpri || (c.CChgPri? && named) || (c.CExtTsk? && caller))
    && (y.actcnt == x.actcnt || (c.CActTsk? && named) || (c.CExtTsk? && caller))
    && (y.wupcnt == x.wupcnt || ((c.CWupTsk? || c.CCanWup?) && named) || ((c.CSlpTsk? || c.CExtTsk?) && caller))
    && (y.suscnt == x.suscnt || ((c.CSusTsk? || c.CRsmTsk?) && named) || (c.CExtTsk? && caller))
    && ((y.waiptn == x.waiptn && y.wfmode == x.wfmode) || (c.CWaiFlg? && caller))
    && (y.flgOut == x.flgOut || c.CSetFlg? || (c.CWaiFlg? && caller))
    && (y.msgOut == x.msgOut || c.CSndMbx? || (c.CRcvMbx? && caller))
    && (y.waitObj == x.waitObj || (Blocks(c) && caller))
    && (y.count == x.count || c.CTick? || (Blocks(c) && caller))
  }

  lemma ReleasedKeeps(x: Tcb)
    ensures var y := Released(x); y == x.(state := y.state, tskwait := y.tskwait)
  {
  }

  lemma TickedKeeps(x: Tcb)
    ensures var y := Ticked(x); y == x.(state := y.state, tskwait := y.tskwait, count := y.count)
  {
  }

  lemma ExitedKeeps(x: Tcb)
    ensures var y := AfterExit(x);
      y == x.(state := y.state, tskpri := y.tskpri, actcnt := y.actcnt, wupcnt := y.wupcnt, suscnt := y.suscnt,
              tskwait := y.tskwait)
  {
  }

  lemma DeleteFields(s: State, c: Call, t: nat)
    requires t < |s.tcb| && (c.CDelSem? || c.CDelFlg? || c.CDelMbx?)
    ensures Kept(s, c, t, s.tcb[t], After(s, c, t))
  {
    hide At, Released, Names;
    ReleasedKeeps(s.tcb[t].(ercd := E_DLT));
  }

  lemma ServeFields(s: State, c: Call, t: nat)
    requires t < |s.tcb| && (c.CSigSem? || c.CSndMbx?)
    ensures Kept(s, c, t, s.tcb[t], After(s, c, t))
  {
    hide FirstTask, MsgRefused, Released, Names;
    ReleasedKeeps(s.tcb[t].(ercd := E_OK));
    if c.CSndMbx? { ReleasedKeeps(s.tcb[t].(msgOut := Some(c.msg), ercd := E_OK)); }
  }

  lemma WakeFields(s: State, c: Call, t: nat)
    requires t < |s.tcb| && c.CSetFlg?
    ensures Kept(s, c, t, s.tcb[t], After(s, c, t))
  {
    hide WokenBy, BitsSet, Released, Names;
    if FlgLive(s, c.id) {
      ReleasedKeeps(s.tcb[t].(flgOut := BitsSet(s.o.flg[c.id - 1].ptn, c.ptn), ercd := E_OK));
    }
  }

  lemma CallerFields(s: State, c: Call, t: nat)
    requires t < |s.tcb| && (Blocks(c) || c.CExtTsk?)
    ensures Kept(s, c, t, s.tcb[t], After(s, c, t))
  {
    hide U32, ToTmo, FlagCond, AfterExit, Names;
    ExitedKeeps(s.tcb[t]);
  }

  lemma OtherFields(s: State, c: Call, t: nat)
    requires t < |s.tcb| && !TakesTask(c) && !MayRelease(c) && !Blocks(c) && !c.CExtTsk?
    requires Exists(s.tcb[t]) && Exists(After(s, c, t))
    ensures Kept(s, c, t, s.tcb[t], After(s, c, t))
  {
    hide At, Ticked, Names;
    TickedKeeps(s.tcb[t]);
  }

  lemma ChangedKeeps(x: Tcb)
    ensures var y := AfterActivate(x); y == x.(state := y.state, actcnt := y.actcnt)
    ensures var y := AfterSuspend(x); y == x.(state := y.state, suscnt := y.suscnt)
    ensures var y := AfterResume(x); y == x.(state := y.state, suscnt := y.suscnt)
    ensures var y := AfterWakeup(x); y == x.(state := y.state, tskwait := y.tskwait, ercd := y.ercd, wupcnt := y.wupcnt)
  {
  }

  lemma NamedFields(s: State, c: Call, t: nat)
    requires t < |s.tcb| && TakesTask(c)
    ensures Kept(s, c, t, s.tcb[t], After(s, c, t))
    ensures !Names(s, TaskIdOf(c), t) ==> After(s, c, t) == s.tcb[t]
  {
    NamesIs(s, TaskIdOf(c), t);
    hide After, Names, Targets, AfterActivate, AfterSuspend, AfterResume, AfterWakeup;
    TargetAfter(s, c, t);
    ChangedKeeps(s.tcb[t]);
  }

  /** No call changes more of a task than it has to do with. */
  lemma FieldsKept(s: State, c: Call, t: nat)
    requires Inv(s) && Allowed(s, c) && t < |s.tcb| == |Step(s, c).0.tcb|
    requires Exists(s.tcb[t]) && Exists(Step(s, c).0.tcb[t])
    ensures Kept(s, c, t, s.tcb[t], Step(s, c).0.tcb[t])
  {
    hide Inv, Step, Callable, Sound, After, Kept;
    StepOn(s, c, t);
    if TakesTask(c) {
      NamedFields(s, c, t);
    } else if c.CDelSem? || c.CDelFlg? || c.CDelMbx? {
      DeleteFields(s, c, t);
    } else if c.CSetFlg? {
      WakeFields(s, c, t);
    } else if MayRelease(c) {
      ServeFields(s, c, t);
    } else if Blocks(c) || c.CExtTsk? {
      CallerFields(s, c, t);
    } else {
      OtherFields(s, c, t);
    }
  }

  /** A call with the ID of a task changes that task alone: number `id` for 1 and above, the
      caller for 0. With an ID nobody has it changes nothing. */
  lemma NamedAlone(s: State, c: Call, t: nat)
    requires Inv(s) && Allowed(s, c) && TakesTask(c) && t < |s.tcb| == |Step(s, c).0.tcb|
    ensures var id := TaskIdOf(c);
      && (t != (if id == 0 then s.run else id - 1) ==> Step(s, c).0.tcb[t] == s.tcb[t])
      && (Step(s, c).1 == E_ID <==> id > |s.tcb| || (id == 0 && s.run == -1))
      && (Step(s, c).1 == E_ID ==> Step(s, c).0 == s)
  {
    hide Inv, Step, Sound, After, ChangePri, MakeReady, MakeUnready, ReleaseWith;
    StepOn(s, c, t);
    NamedFields(s, c, t);
    StepIs(s, c);
  }

  // ---- creation, start and exit ----

  /** A task just created is dormant at the priority it was given, nothing queued or pending. */
  lemma CreatedExact(s: State, id: int, pri: int, t: nat)
    requires Inv(s) && Allowed(s, CCreTsk(id, pri)) && Step(s, CCreTsk(id, pri)).1 == E_OK && t < |s.tcb|
    ensures var r := Step(s, CCreTsk(id, pri)).0;
      && 1 <= id <= |s.tcb| == |r.tcb| && s.tcb[id - 1].state == NOEXS
      && (t != id - 1 ==> r.tcb[t] == s.tcb[t])
      && var y := r.tcb[id - 1];
      && y.state == DMT && y.itskpri == y.tskpri == pri - 1 && y.tskwait == NotSleeping
      && y.actcnt == 0 && y.wupcnt == 0 && y.suscnt == 0
  {
    hide Inv, Remove;
  }

  /** A task deleted exists no longer, whatever it was doing; it is back among the free ones, and
      no other task has changed. */
  lemma DeletedExact(s: State, id: int, t: nat)
    requires Inv(s) && Step(s, CDelTsk(id)).1 == E_OK && t < |s.tcb|
    ensures var r := Step(s, CDelTsk(id)).0;
      && 1 <= id <= |s.tcb| == |r.tcb| && r.tcb[id - 1].state == NOEXS && r.tcb[id - 1].actcnt == 0
      && Tsk(id - 1) in At(r.q, FreeTcb) && (t != id - 1 ==> r.tcb[t] == s.tcb[t])
  {
    hide Inv, Step, After;
    StepOn(s, CDelTsk(id), t);
    DelTskKnown(s, id);
    StepOn(s, CDelTsk(id), id - 1);
    StepInv(s, CDelTsk(id));
    WhereNodes(Step(s, CDelTsk(id)).0, id - 1, FreeTcb);
    DelTskAfter(s, id, t);
  }

  lemma DelTskKnown(s: State, id: int)
    requires Inv(s) && Step(s, CDelTsk(id)).1 == E_OK
    ensures 1 <= id <= |s.tcb| && s.tcb[id - 1].state != NOEXS && id - 1 != s.run
  {
    hide Inv, MakeUnready, WaitCancel, Append;
  }

  lemma DelTskAfter(s: State, id: int, t: nat)
    requires 1 <= id <= |s.tcb| && s.tcb[id - 1].state != NOEXS && id - 1 != s.run && t < |s.tcb|
    ensures After(s, CDelTsk(id), id - 1).state == NOEXS && After(s, CDelTsk(id), id - 1).actcnt == 0
    ensures t != id - 1 ==> After(s, CDelTsk(id), t) == s.tcb[t]
  {
  }

  /** A task that exits falls back to its initial priority and loses what was counted for it but
      the activations. Without one it is dormant and in no list; with one it starts anew, behind
      all others of that priority. */
  lemma ExitExact(s: State)
    requires Inv(s) && Callable(s, CExtTsk)
    ensures var t := s.run; var r := Step(s, CExtTsk).0;
      && |r.tcb| == |s.tcb| && var x, y := s.tcb[t], r.tcb[t];
      && y.itskpri == y.tskpri == x.itskpri && y.wupcnt == 0 && y.suscnt == 0 && y.tskwait == NotSleeping
      && (if x.actcnt == 0 then y.state == DMT && y.actcnt == 0 && forall h :: Tsk(t) !in At(r.q, h)
          else
            && y.state == RDY && y.actcnt == x.actcnt - 1
            && At(r.q, Line(x.itskpri)) == Without(At(s.q, Line(x.itskpri)), Tsk(t)) + [Tsk(t)])
  {
    hide Inv, Step;
    var t := s.run;
    var r := Step(s, CExtTsk).0;
    StepOn(s, CExtTsk, t);
    StepInv(s, CExtTsk);
    ExitedTcb(s, t);
    StepIs(s, CExtTsk);
    hide After, ExtTsk, At, Without;
    ExtTskLine(s, s.tcb[t].itskpri);
    forall h ensures r.tcb[t].state == DMT ==> Tsk(t) !in At(r.q, h) { WhereNodes(r, t, h); }
  }

  lemma ExitedTcb(s: State, t: nat)
    requires t < |s.tcb| && t == s.run && s.tcb[t].state == RDY
    ensures var x, y := s.tcb[t], After(s, CExtTsk, t);
      && y.itskpri == y.tskpri == x.itskpri && y.wupcnt == 0 && y.suscnt == 0 && y.tskwait == NotSleeping
      && (if x.actcnt == 0 then y.state == DMT && y.actcnt == 0 else y.state == RDY && y.actcnt == x.actcnt - 1)
  {
  }

  predicate Rested(x: Tcb) {
    x.state == DMT ==> x.tskpri == x.itskpri && x.wupcnt == 0 && x.suscnt == 0 && x.actcnt == 0 && x.tskwait == NotSleeping
  }

  /** Dormant tasks are at their initial priority, with nothing counted. */
  ghost predicate AllRested(s: State) { forall t :: 0 <= t < |s.tcb| ==> Rested(s.tcb[t]) }

  lemma OthersRest(s: State, c: Call, t: nat)
    requires TaskFacts(s, t) && !TakesTask(c) && Rested(s.tcb[t])
    ensures Rested(After(s, c, t))
  {
    hide WokenBy, FirstTask, At, MsgRefused, U32, ToTmo, TcbOk, BitsSet, FlagCond, Ticked;
    TickedRests(s.tcb[t]);
  }

  lemma TickedRests(x: Tcb)
    requires Rested(x)
    ensures Rested(Ticked(x))
  {
  }

  lemma NamedRest(x: Tcb)
    requires Rested(x)
    ensures Rested(AfterActivate(x)) && Rested(AfterSuspend(x)) && Rested(AfterResume(x)) && Rested(AfterWakeup(x))
  {
  }

  lemma StepRested(s: State, c: Call)
    requires Inv(s) && Allowed(s, c) && AllRested(s)
    ensures AllRested(Step(s, c).0)
  {
    hide Inv, Step, Callable, Sound, ObjsAfter;
    var r := Step(s, c).0;
    StepOnAll(s, c);
    forall t | 0 <= t < |r.tcb| ensures Rested(r.tcb[t]) { TaskRests(s, c, t); }
  }

  lemma TaskRests(s: State, c: Call, t: nat)
    requires Inv(s) && Allowed(s, c) && t < |s.tcb| == |Step(s, c).0.tcb| && Rested(s.tcb[t])
    ensures Rested(Step(s, c).0.tcb[t])
  {
    hide Inv, Step, Callable, Sound, After, Targets, AfterActivate, AfterSuspend, AfterResume, AfterWakeup;
    StepOn(s, c, t);
    if TakesTask(c) {
      TargetAfter(s, c, t);
      NamedRest(s.tcb[t]);
    } else {
      OthersRest(s, c, t);
    }
  }

  lemma StartRested(nt: nat, np: nat, nsem: nat, nflg: nat, nmbx: nat)
    ensures AllRested(Start(nt, np, nsem, nflg, nmbx))
  {
  }

  lemma {:induction false} RunRested(s: State, cs: seq<Call>)
    requires Inv(s) && AllRested(s) && Legal(s, cs)
    ensures AllRested(Run(s, cs))
    decreases |cs|
  {
    hide Inv, Step, Callable, Sound, AllRested;
    if cs != [] {
      StepInv(s, cs[0]);
      StepRested(s, cs[0]);
      RunRested(Step(s, cs[0]).0, cs[1..]);
    }
  }

  /** In every run from start-up, whenever a task starts, it does so at the priority it was created
      with, whatever `chg_pri` has made of it meanwhile, and last in the line of that priority. */
  lemma StartsAtInitial(nt: nat, np: nat, nsem: nat, nflg: nat, nmbx: nat, cs: seq<Call>, c: Call, t: nat)
    requires Legal(Start(nt, np, nsem, nflg, nmbx), cs)
    requires var s := Run(Start(nt, np, nsem, nflg, nmbx), cs); Allowed(s, c) && Begun(s, c, t) && Exists(s.tcb[t])
    ensures var s := Run(Start(nt, np, nsem, nflg, nmbx), cs); var r := Step(s, c).0; var y := r.tcb[t];
      && t < |s.tcb| == |r.tcb| && y.tskpri == y.itskpri == s.tcb[t].itskpri && y.wupcnt == 0 && y.suscnt == 0
      && At(r.q, Line(y.itskpri)) == Without(At(s.q, Line(y.itskpri)), Tsk(t)) + [Tsk(t)]
  {
    hide Inv, Legal, Start, Run, Step, Callable, Sound, AllRested;
    StartRested(nt, np, nsem, nflg, nmbx);
    RunRested(Start(nt, np, nsem, nflg, nmbx), cs);
    OneStart(Run(Start(nt, np, nsem, nflg, nmbx), cs), c, t);
  }

  lemma OneStart(s: State, c: Call, t: nat)
    requires Inv(s) && AllRested(s) && Allowed(s, c) && Begun(s, c, t) && Exists(s.tcb[t])
    ensures var r := Step(s, c).0; var y := r.tcb[t];
      && t < |s.tcb| == |r.tcb| && y.tskpri == y.itskpri == s.tcb[t].itskpri && y.wupcnt == 0 && y.suscnt == 0
      && At(r.q, Line(y.itskpri)) == Without(At(s.q, Line(y.itskpri)), Tsk(t)) + [Tsk(t)]
  {
    hide Inv, Step, Sound, After, Targets, At, Without, AfterExit;
    StepOn(s, c, t);
    StartsByAct(s, c, t);
    if c.CExtTsk? {
      ExitExact(s);
    } else {
      ActivatedAtEnd(s, c, t);
    }
  }

  lemma ActivatedAtEnd(s: State, c: Call, t: nat)
    requires Inv(s) && Allowed(s, c) && c.CActTsk? && Targets(s, c.id, t) && t < |s.tcb| && s.tcb[t].state == DMT
    ensures var p := s.tcb[t].tskpri; At(Step(s, c).0.q, Line(p)) == Without(At(s.q, Line(p)), Tsk(t)) + [Tsk(t)]
  {
    var p := s.tcb[t].tskpri;
    LineNodesAre(s, p);
    hide Good, MakeReady, At;
    StepIs(s, c);
    ReadyLine(s, t, p);
    WithoutAbsent(At(s.q, Line(p)), Tsk(t));
  }

  /** As long as a task exists, its initial priority is the one it was created with. */
  lemma {:induction false} InitialKept(s: State, cs: seq<Call>, t: nat)
    requires Inv(s) && Legal(s, cs) && ExistsOn(s, cs, t)
    ensures var r := Run(s, cs); t < |r.tcb| && r.tcb[t].itskpri == s.tcb[t].itskpri
    decreases |cs|
  {
    hide Inv, Step, Callable, Sound, Kept, Exists;
    if cs != [] {
      StepInv(s, cs[0]);
      assert ExistsOn(Step(s, cs[0]).0, cs[1..], t);
      SameCount(s, cs[0]);
      FieldsKept(s, cs[0], t);
      KeptInitial(s, cs[0], t);
      InitialKept(Step(s, cs[0]).0, cs[1..], t);
    }
  }

  lemma KeptInitial(s: State, c: Call, t: nat)
    requires Inv(s) && Callable(s, c) && t < |s.tcb| == |Step(s, c).0.tcb| && Kept(s, c, t, s.tcb[t], Step(s, c).0.tcb[t])
    ensures Step(s, c).0.tcb[t].itskpri == s.tcb[t].itskpri
  {
    hide Inv, Step;
  }

  // ---- wakeups taken back, interrupts ----

  /** What `can_wup` reports is the number of wakeups that were queued; none are afterwards. */
  lemma CanWupExact(s: State, id: int, t: nat)
    requires Inv(s) && TaskArg(s, id) && Names(s, id, t) && t < |s.tcb| && CanWup(s, id).1 == E_OK
    ensures var (r, _, n) := CanWup(s, id);
      n == s.tcb[t].wupcnt && r == s.(tcb := s.tcb[t := s.tcb[t].(wupcnt := 0)]) && r == Step(s, CCanWup(id)).0
  {
    hide Inv;
  }

  /** The interrupt-level calls and the tick never take the processor from the running task. */
  lemma InterruptKeepsRun(s: State, c: Call)
    requires Inv(s) && Allowed(s, c) && !TaskLevel(c)
    ensures Step(s, c).0.run == s.run
  {
    hide Inv, Good, Step, MakeReady, ReleaseWith, ISetFlg, Tick, FirstTask;
    StepIs(s, c);
    match c
    case CActTsk(id, _) => if !BadTaskId(s, id) { MakeReadyTcb(s, TaskOf(s, id)); }
    case CWupTsk(id, _) => if !BadTaskId(s, id) { ReleaseRun(s, TaskOf(s, id), E_OK); }
    case CSigSem(id, _) => if SemLive(s, id) && FirstTask(s, SemQ(id - 1)) != NULL { FirstRun(s, SemQ(id - 1)); }
    case CSetFlg(id, p, _) => SetFlgRun(s, id, p);
    case CTick => TickGood(s) by { GoodIn(s); }
    case _ =>
  }

  lemma ReleaseRun(s: State, t: nat, er: Er)
    requires t < |s.tcb|
    ensures ReleaseWith(s, t, er).run == s.run
  {
    hide Remove, Append, TopPri;
  }

  lemma FirstRun(s: State, h: Node)
    requires Inv(s) && FirstTask(s, h) != NULL
    ensures 0 <= FirstTask(s, h) < |s.tcb| && ReleaseWith(s, FirstTask(s, h), E_OK).run == s.run
  {
    hide Inv, ReleaseWith;
    ReleaseRun(s, FirstTask(s, h), E_OK);
  }

  lemma SetFlgRun(s: State, id: int, p: bv32)
    requires Inv(s)
    ensures ISetFlg(s, id, p).0.run == s.run
  {
    hide Good, Sweep, BitsSet, Woken, Unwoken;
    if FlgLive(s, id) { ISetFlgGood(s, id, p); }
  }
}
