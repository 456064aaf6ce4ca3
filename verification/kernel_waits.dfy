/** One wait from beginning to end: how it can end and with which result, when a timeout
    ends it, and in which order the waiters of a queue are served. */
module KernelWaits {
  import opened KQueue
  import opened ReadyQueue
  import opened KernelState
  import opened KernelInv
  import opened KernelCalls
  import opened KernelRuns
  import opened KernelEffects
  import opened KernelOrder
  import opened KernelSafety

  // ---- how a wait begins ----

  /** The result a wait has unless something better happens to it. */
  function Preset(c: Tcb): Er { if c.tskwait == TTW_DLY then E_OK else E_TMOUT }

  /** The caller `x` of `c` becomes the waiting task `y`. */
  ghost predicate Begins(s: State, c: Call, t: nat, y: Tcb)
    requires t < |s.tcb|
  {
    var x := s.tcb[t];
    && t == s.run && x.state == RDY && y.state == WAI && y.ercd == Preset(y)
    && match c
       case CDlyTsk(d) => y.tskwait == TTW_DLY && y.waitObj == None && Armed(x, y, ToTmo(d))
       case CSlpTsk(tmo) => y.tskwait == TTW_SLP && y.waitObj == None && Armed(x, y, tmo) && tmo != TMO_POL && x.wupcnt == 0
       case CWaiSem(id, tmo) =>
         SemLive(s, id) && s.o.sem[id - 1].cnt == 0 &&
         y.tskwait == NotSleeping && y.waitObj == Some(SemQ(id - 1)) && Armed(x, y, tmo) && tmo != TMO_POL
       case CWaiFlg(id, p, m, tmo) =>
         FlgLive(s, id) && !FlagCond(s.o.flg[id - 1].ptn, p, m) && y.waiptn == p && y.wfmode == m &&
         y.tskwait == NotSleeping && y.waitObj == Some(FlgQ(id - 1)) && Armed(x, y, tmo) && tmo != TMO_POL
       case CRcvMbx(id, tmo) =>
         MbxLive(s, id) && s.o.mbx[id - 1].msgs == [] &&
         y.tskwait == NotSleeping && y.waitObj == Some(MbxQ(id - 1)) && Armed(x, y, tmo) && tmo != TMO_POL
       case _ => false
  }

  ghost predicate Armed(x: Tcb, y: Tcb, tmo: int) {
    y.count == if tmo == TMO_FEVR then x.count else U32(tmo)
  }

  /** What a step reads of the invariant when it comes to a single task. */
  ghost predicate TaskFacts(s: State, t: nat) {
    && t < |s.tcb| && TcbOk(s.np, s.tcb[t]) && (t == s.run ==> s.tcb[t].state == RDY)
    && (forall i :: 0 <= i < |s.o.sem| && s.o.sem[i].live ==> 0 <= s.o.sem[i].cnt)
  }

  lemma StepOn(s: State, c: Call, t: nat)
    requires Inv(s) && Allowed(s, c) && t < |s.tcb|
    ensures TaskFacts(s, t) && |Step(s, c).0.tcb| == |s.tcb| && Step(s, c).0.tcb[t] == After(s, c, t)
  {
    hide After, Step, ObjsAfter, TcbOk;
    StepEffect(s, c);
    Facts(s, t);
  }

  lemma Facts(s: State, t: nat)
    requires Inv(s) && t < |s.tcb|
    ensures TaskFacts(s, t)
  {
    forall i | 0 <= i < |s.o.sem| && s.o.sem[i].live ensures 0 <= s.o.sem[i].cnt {
      assert SemOk(At(s.q, SemQ(i)), s.o.sem[i]);
    }
  }

  lemma NotYetWaiting(x: Tcb)
    requires !Waiting(x)
    ensures !Waiting(AfterActivate(x)) && !Waiting(AfterExit(x)) && !Waiting(AfterResume(x)) && !Waiting(AfterWakeup(x))
    ensures x.state != SUS || x.suscnt == TMAX_ACTCNT ==> !Waiting(AfterSuspend(x))
    ensures !Waiting(Ticked(x)) && forall c :: !Waiting(Released(c))
  {
  }

  predicate Blocks(c: Call) { c.CDlyTsk? || c.CSlpTsk? || c.CWaiSem? || c.CWaiFlg? || c.CRcvMbx? }

  lemma AfterTargets(s: State, c: Call, t: nat)
    requires t < |s.tcb| && Sound(s, c) && !Waiting(s.tcb[t]) && TakesTask(c)
    ensures !Waiting(After(s, c, t))
  {
    var x := s.tcb[t];
    assert c.CSusTsk? && Targets(s, c.id, t) ==> x.state != SUS || x.suscnt == TMAX_ACTCNT;
    hide After, Sound, Targets, AfterActivate, AfterResume, AfterWakeup, AfterSuspend;
    NotYetWaiting(x);
    TargetAfter(s, c, t);
  }

  /** No other call makes anybody wait. */
  lemma AfterOthers(s: State, c: Call, t: nat)
    requires t < |s.tcb| && !Waiting(s.tcb[t]) && !Blocks(c) && !TakesTask(c)
    ensures !Waiting(After(s, c, t))
  {
    hide TaMpri, WokenBy, FirstTask, At, MsgRefused, AfterExit, Released, BitsSet, Ticked;
    NotYetWaiting(s.tcb[t]);
  }

  lemma AfterBegins(s: State, c: Call, t: nat)
    requires TaskFacts(s, t) && !Waiting(s.tcb[t]) && Waiting(After(s, c, t))
    requires Blocks(c)
    ensures Begins(s, c, t, After(s, c, t))
  {
    hide FlagCond, ToTmo, U32, Released, Ticked, BitsSet;
  }

  /** Only the running task starts to wait, only in a blocking call that cannot be
      satisfied at once, and with the result for a timeout already in place. */
  lemma WaitBegins(s: State, c: Call, t: nat)
    requires Inv(s) && Allowed(s, c) && t < |s.tcb| == |Step(s, c).0.tcb|
    requires !Waiting(s.tcb[t]) && Waiting(Step(s, c).0.tcb[t])
    ensures Begins(s, c, t, Step(s, c).0.tcb[t])
  {
    hide After, Inv, Begins, TaskFacts;
    StepOn(s, c, t);
    if Blocks(c) {
      AfterBegins(s, c, t);
    } else if TakesTask(c) {
      AfterTargets(s, c, t);
    } else {
      AfterOthers(s, c, t);
    }
  }

  /** The caller of a blocking call waits if and only if it is to be delayed, or what it asks for
      is not there and it does more than poll. */
  lemma WaitsIff(s: State, c: Call)
    requires Inv(s) && Allowed(s, c) && Blocks(c)
    ensures var (r, er) := Step(s, c);
      |r.tcb| == |s.tcb| && (Waiting(r.tcb[s.run]) <==> c.CDlyTsk? || (er == E_TMOUT && TmoOf(c) != TMO_POL))
  {
    hide Inv, Step, Sound, After, TaskFacts, ToTmo;
    StepOn(s, c, s.run);
    if c.CDlyTsk? || c.CSlpTsk? { SleepsIff(s, c); } else { AsksIff(s, c); }
  }

  lemma SleepsIff(s: State, c: Call)
    requires Inv(s) && Callable(s, c) && (c.CDlyTsk? || c.CSlpTsk?)
    ensures Waiting(After(s, c, s.run)) <==> c.CDlyTsk? || (Step(s, c).1 == E_TMOUT && TmoOf(c) != TMO_POL)
  {
    hide Inv, SelfWait, U32, ToTmo;
    RunsReady(s);
  }

  lemma RunsReady(s: State)
    requires Inv(s)
    ensures IsTask(s, s.run) ==> s.tcb[s.run].state == RDY
  {
    hide Good;
  }

  lemma AsksIff(s: State, c: Call)
    requires Inv(s) && Callable(s, c) && (c.CWaiSem? || c.CWaiFlg? || c.CRcvMbx?)
    ensures Waiting(After(s, c, s.run)) <==> Step(s, c).1 == E_TMOUT && TmoOf(c) != TMO_POL
  {
    hide Inv, ObjMakeWait, U32, FlagCond, TaClr;
    RunsReady(s);
  }

  // ---- how a wait ends ----

  /** Still the same wait: only the suspension and the count of the timer may differ. */
  predicate SameWait(x: Tcb, y: Tcb) {
    && Waiting(x) && Waiting(y) && y.waitObj == x.waitObj && y.tskwait == x.tskwait && y.ercd == x.ercd
    && y.tskpri == x.tskpri && y.waiptn == x.waiptn && y.wfmode == x.wfmode
    && y.flgOut == x.flgOut && y.msgOut == x.msgOut
  }

  datatype End = GoesOn | Satisfied | ObjectDeleted | TimedOut | TaskDeleted

  /** `y` is `x` after its wait ended with `er`: ready, or suspended if it was so already. */
  predicate EndsWith(x: Tcb, y: Tcb, er: Er) {
    && y.state == (if x.state == WAI then RDY else SUS) && y.ercd == er && y.tskwait == NotSleeping
    && y.suscnt == x.suscnt && y.actcnt == x.actcnt && y.wupcnt == x.wupcnt
  }

  /** Call `c` is one that can satisfy the wait `x` of task `t`, which stands where it takes. */
  ghost predicate Satisfies(s: State, c: Call, t: nat, x: Tcb) {
    match c
    case CWupTsk(id, _) => Targets(s, id, t) && x.tskwait == TTW_SLP
    case CSigSem(id, _) => SemLive(s, id) && FirstTask(s, SemQ(id - 1)) == t
    case CSetFlg(id, p, _) => FlgLive(s, id) && Tsk(t) in WokenBy(s, id, p)
    case CSndMbx(id, m) => MbxLive(s, id) && !MsgRefused(s, id, m) && FirstTask(s, MbxQ(id - 1)) == t
    case _ => false
  }

  /** Call `c` deletes the object `t` waits for. */
  ghost predicate Deletes(s: State, c: Call, t: nat) {
    match c
    case CDelSem(id) => SemLive(s, id) && Tsk(t) in At(s.q, SemQ(id - 1))
    case CDelFlg(id) => FlgLive(s, id) && Tsk(t) in At(s.q, FlgQ(id - 1))
    case CDelMbx(id) => MbxLive(s, id) && Tsk(t) in At(s.q, MbxQ(id - 1))
    case _ => false
  }

  predicate Due(x: Tcb) { U32(x.count - 1) == 0 }

  /** What becomes of the wait `x` of task `t` at call `c`. */
  ghost function Ending(s: State, c: Call, t: nat): End
    requires t < |s.tcb|
  {
    var x := s.tcb[t];
    if c == CDelTsk(t + 1) then TaskDeleted
    else if Satisfies(s, c, t, x) then Satisfied
    else if Deletes(s, c, t) then ObjectDeleted
    else if c.CTick? && Wtm(t) in At(s.q, TimerQ) && Due(x) then TimedOut
    else GoesOn
  }

  lemma GoingOn(x: Tcb)
    requires Waiting(x)
    ensures SameWait(x, AfterActivate(x)) && AfterActivate(x).count == x.count
    ensures SameWait(x, AfterResume(x)) && AfterResume(x).count == x.count
    ensures SameWait(x, AfterSuspend(x)) && AfterSuspend(x).count == x.count
    ensures x.tskwait != TTW_SLP ==> SameWait(x, AfterWakeup(x)) && AfterWakeup(x).count == x.count
    ensures x.tskwait == TTW_SLP && x.state != NOEXS ==> EndsWith(x, AfterWakeup(x), E_OK)
    ensures if Due(x) then EndsWith(x, Ticked(x), x.ercd) else SameWait(x, Ticked(x)) && Ticked(x).count == U32(x.count - 1)
  {
  }

  lemma Ended(x: Tcb, er: Er, p: bv32, m: Option<Msg>)
    requires Waiting(x)
    ensures EndsWith(x, Released(x.(ercd := er)), er) && EndsWith(x, Released(x.(flgOut := p, ercd := er)), er)
    ensures EndsWith(x, Released(x.(msgOut := m, ercd := er)), er)
  {
  }

  /** What `Ending` says about the control block afterwards. */
  ghost predicate Outcome(s: State, c: Call, t: nat, y: Tcb)
    requires t < |s.tcb|
  {
    var x := s.tcb[t];
    match Ending(s, c, t)
    case GoesOn => SameWait(x, y) && y.count == if c.CTick? && Wtm(t) in At(s.q, TimerQ) then U32(x.count - 1) else x.count
    case Satisfied => EndsWith(x, y, E_OK)
    case ObjectDeleted => EndsWith(x, y, E_DLT)
    case TimedOut => EndsWith(x, y, x.ercd)
    case TaskDeleted => y.state == NOEXS
  }

  predicate MayRelease(c: Call) {
    c.CSigSem? || c.CSetFlg? || c.CSndMbx? || c.CDelSem? || c.CDelFlg? || c.CDelMbx?
  }

  lemma AfterDelete(s: State, c: Call, t: nat)
    requires t < |s.tcb| && Waiting(s.tcb[t]) && (c.CDelSem? || c.CDelFlg? || c.CDelMbx?)
    ensures Outcome(s, c, t, After(s, c, t))
  {
    hide At, U32, EndsWith, Released;
    Ended(s.tcb[t], E_DLT, 0, None);
  }

  lemma AfterRelease(s: State, c: Call, t: nat)
    requires t < |s.tcb| && Waiting(s.tcb[t]) && (c.CSigSem? || c.CSetFlg? || c.CSndMbx?)
    ensures Outcome(s, c, t, After(s, c, t))
  {
    hide FlagCond, BitsSet, TaClr, TaMpri, WokenBy, FirstTask, At, MsgRefused, U32, EndsWith, Released;
    var x := s.tcb[t];
    match c
    case CSigSem(_, _) => Ended(x, E_OK, 0, None);
    case CSetFlg(id, p, _) => if FlgLive(s, id) { Ended(x, E_OK, BitsSet(s.o.flg[id - 1].ptn, p), None); }
    case CSndMbx(id, m) => Ended(x, E_OK, 0, Some(m));
    case _ =>
  }

  lemma PriKept(s: State, c: Call, t: nat)
    requires t < |s.tcb| && Sound(s, c) && Waiting(s.tcb[t]) && c.CChgPri? && Targets(s, c.id, t)
    ensures TargetChange(s, c, s.tcb[t]) == s.tcb[t]
  {
  }

  lemma TargetEnding(s: State, c: Call, t: nat)
    requires t < |s.tcb| && TakesTask(c)
    ensures Ending(s, c, t) ==
      if c.CWupTsk? && Targets(s, c.id, t) && s.tcb[t].tskwait == TTW_SLP then Satisfied else GoesOn
  {
    hide Targets, Due;
  }

  /** What a call makes of a waiting task it names. */
  lemma TargetWaits(s: State, c: Call, x: Tcb)
    requires Waiting(x) && TakesTask(c) && (c.CChgPri? ==> TargetChange(s, c, x) == x)
    ensures var y := TargetChange(s, c, x);
      if c.CWupTsk? && x.tskwait == TTW_SLP then EndsWith(x, y, E_OK) else SameWait(x, y) && y.count == x.count
  {
    if !c.CCanWup? && !c.CChgPri? { GoingOn(x); }
    hide EndsWith, AfterActivate, AfterResume, AfterSuspend, AfterWakeup;
  }

  lemma AfterTarget(s: State, c: Call, t: nat)
    requires t < |s.tcb| && Sound(s, c) && Waiting(s.tcb[t]) && TakesTask(c)
    ensures Outcome(s, c, t, After(s, c, t))
  {
    hide After, Sound, Targets, TargetChange, U32, EndsWith, SameWait, Due, Ending;
    TargetEnding(s, c, t);
    TargetAfter(s, c, t);
    SameAsItself(s.tcb[t]);
    if Targets(s, TaskIdOf(c), t) {
      if c.CChgPri? { PriKept(s, c, t); }
      TargetWaits(s, c, s.tcb[t]);
    }
  }

  lemma SameAsItself(x: Tcb)
    requires Waiting(x)
    ensures SameWait(x, x)
  {
  }

  lemma AfterTick(s: State, t: nat)
    requires t < |s.tcb| && Waiting(s.tcb[t])
    ensures Outcome(s, CTick, t, After(s, CTick, t))
  {
    hide At, U32, EndsWith, Due, Ticked;
    GoingOn(s.tcb[t]);
  }

  lemma AfterOther(s: State, c: Call, t: nat)
    requires TaskFacts(s, t) && Waiting(s.tcb[t]) && !MayRelease(c) && !TakesTask(c) && !c.CTick?
    ensures Outcome(s, c, t, After(s, c, t))
  {
    hide At, U32, EndsWith, Due, AfterExit, Released, TcbOk, AfterSleep, AfterWaiSem, AfterWaiFlg, AfterRcvMbx, ToTmo,
         SemCreated, Waits;
  }

  /** Each wait goes on or ends in exactly one way: satisfied with E_OK by a wakeup, signal,
      pattern or message meant for it, with E_DLT when its object is deleted, with the result
      it was entered with when its timer fires, or along with its task. */
  lemma WaitOutcome(s: State, c: Call, t: nat)
    requires Inv(s) && Allowed(s, c) && t < |s.tcb| && Waiting(s.tcb[t])
    ensures |Step(s, c).0.tcb| == |s.tcb| && Outcome(s, c, t, Step(s, c).0.tcb[t])
  {
    hide After, Inv, TaskFacts, Outcome;
    StepOn(s, c, t);
    if c.CDelSem? || c.CDelFlg? || c.CDelMbx? {
      AfterDelete(s, c, t);
    } else if MayRelease(c) {
      AfterRelease(s, c, t);
    } else if TakesTask(c) {
      AfterTarget(s, c, t);
    } else if c.CTick? {
      AfterTick(s, t);
    } else {
      AfterOther(s, c, t);
    }
  }

  /** Call `c` is one that releases tasks waiting for `obj`, None being a sleep. */
  predicate Through(c: Call, obj: Option<Node>) {
    || (c.CWupTsk? && obj == None)
    || (c.CSigSem? && c.id >= 1 && obj == Some(SemQ(c.id - 1)))
    || (c.CSetFlg? && c.id >= 1 && obj == Some(FlgQ(c.id - 1)))
    || (c.CSndMbx? && c.id >= 1 && obj == Some(MbxQ(c.id - 1)))
  }

  /** A wait is only ever satisfied through the object it is for. */
  lemma OwnObject(s: State, c: Call, t: nat)
    requires Inv(s) && t < |s.tcb| && Waiting(s.tcb[t]) && Satisfies(s, c, t, s.tcb[t])
    ensures Through(c, s.tcb[t].waitObj)
  {
    hide Inv, WokenBy, MsgRefused, At, FirstTask;
    if c.CWupTsk? {
      Sleeps(s, t);
    } else if c.CSigSem? {
      InQueue(s, t, SemQ(c.id - 1));
    } else if c.CSndMbx? {
      InQueue(s, t, MbxQ(c.id - 1));
    } else {
      WokenWaits(s, t, c.id, c.ptn);
    }
  }

  lemma Sleeps(s: State, t: nat)
    requires Inv(s) && t < |s.tcb| && Waiting(s.tcb[t])
    ensures s.tcb[t].tskwait == TTW_SLP ==> s.tcb[t].waitObj == None
  {
    hide Good;
    Facts(s, t);
  }

  lemma WokenWaits(s: State, t: nat, id: int, p: bv32)
    requires Inv(s) && t < |s.tcb| && Waiting(s.tcb[t]) && FlgLive(s, id)
    ensures Tsk(t) in WokenBy(s, id, p) ==> s.tcb[t].waitObj == Some(FlgQ(id - 1))
  {
    hide Good, BitsSet, TaClr, Woken;
    WokenIn(s.tcb, At(s.q, FlgQ(id - 1)), BitsSet(s.o.flg[id - 1].ptn, p), TaClr(s.o.flg[id - 1].atr));
    InQueue(s, t, FlgQ(id - 1));
  }

  lemma InQueue(s: State, t: nat, h: Node)
    requires Inv(s) && t < |s.tcb| && Waiting(s.tcb[t]) && IsWaitQ(h)
    ensures Tsk(t) in At(s.q, h) || FirstTask(s, h) == t ==> s.tcb[t].waitObj == Some(h)
  {
    OnlyHome(s, NULL, t, h);
  }

  /** Seen from outside: the task is no longer waiting and holds E_OK. */
  lemma OutcomeServed(s: State, c: Call, t: nat, y: Tcb)
    requires t < |s.tcb| && Waiting(s.tcb[t]) && s.tcb[t].ercd == E_TMOUT && Outcome(s, c, t, y)
    ensures !Waiting(y) && y.state != NOEXS && y.ercd == E_OK <==> Ending(s, c, t) == Satisfied
  {
    hide Ending, U32;
  }

  // ---- the preset result ----

  /** Every waiting task already holds the result for the case that its timer fires. */
  ghost predicate Presets(s: State) {
    forall t :: 0 <= t < |s.tcb| && Waiting(s.tcb[t]) ==> s.tcb[t].ercd == Preset(s.tcb[t])
  }

  lemma SamePreset(s: State, c: Call, t: nat)
    requires Inv(s) && Allowed(s, c) && t < |s.tcb| == |Step(s, c).0.tcb|
    requires Waiting(Step(s, c).0.tcb[t])
    ensures if Waiting(s.tcb[t]) then Step(s, c).0.tcb[t].ercd == s.tcb[t].ercd && Step(s, c).0.tcb[t].tskwait == s.tcb[t].tskwait
            else Step(s, c).0.tcb[t].ercd == Preset(Step(s, c).0.tcb[t])
  {
    hide Inv, Step, Callable, Sound, Ending, FlagCond, ToTmo, U32;
    if Waiting(s.tcb[t]) { WaitOutcome(s, c, t); } else { WaitBegins(s, c, t); }
  }

  lemma PresetsKept(s: State, c: Call)
    requires Inv(s) && Allowed(s, c) && Presets(s)
    ensures Presets(Step(s, c).0)
  {
    hide Inv, Step, Callable, Sound, ObjsAfter;
    var r := Step(s, c).0;
    StepOnAll(s, c);
    forall t | 0 <= t < |r.tcb| && Waiting(r.tcb[t]) ensures r.tcb[t].ercd == Preset(r.tcb[t]) {
      SamePreset(s, c, t);
    }
  }

  lemma StartPresets(nt: nat, np: nat, nsem: nat, nflg: nat, nmbx: nat)
    ensures Presets(Start(nt, np, nsem, nflg, nmbx))
  {
  }

  /** So it is in every reachable state. */
  lemma {:induction false} RunPresets(s: State, cs: seq<Call>)
    requires Inv(s) && Presets(s) && Legal(s, cs)
    ensures Presets(Run(s, cs))
    decreases |cs|
  {
    hide Inv, Step, Callable, Sound, Presets;
    if cs != [] {
      PresetsKept(s, cs[0]);
      StepInv(s, cs[0]);
      RunPresets(Step(s, cs[0]).0, cs[1..]);
    }
  }

  lemma StepOnAll(s: State, c: Call)
    requires Inv(s) && Allowed(s, c)
    ensures |Step(s, c).0.tcb| == |s.tcb| && Step(s, c).0.o == ObjsAfter(s, c)
  {
    hide Inv, Step, Callable, Sound, ObjsAfter, After;
    StepEffect(s, c);
  }

  // ---- timeouts ----

  ghost predicate Running(s: State, t: nat) { Wtm(t) in At(s.q, TimerQ) }

  lemma Ahead1(s: State, c: Call, t: nat)
    requires Inv(s) && Allowed(s, c) && t < |s.tcb| && Waiting(s.tcb[t]) && Ending(s, c, t) == GoesOn
    ensures WaitOn(s, Step(s, c).0, {t})
  {
    hide Ending, Inv, Step;
    WaitOutcome(s, c, t);
  }

  /** While a wait goes on, its timer stays as it is: running, or not at all. */
  lemma TimerKept(s: State, c: Call, t: nat)
    requires Inv(s) && Allowed(s, c) && t < |s.tcb| && Waiting(s.tcb[t]) && Ending(s, c, t) == GoesOn
    ensures Running(Step(s, c).0, t) <==> Running(s, t)
  {
    hide Ending, Inv, Step, WaitOn;
    Ahead1(s, c, t);
    StepOrder(s, c, {t});
    KeepIn(At(s.q, TimerQ), {t});
    KeepIn(At(Step(s, c).0.q, TimerQ), {t});
    assert Ordered(TimerQ) && OwnedBy(Wtm(t), {t});
  }

  /** The timeout a blocking call asks for. */
  function TmoOf(c: Call): int {
    match c
    case CDlyTsk(d) => ToTmo(d)
    case CSlpTsk(tmo) => tmo
    case CWaiSem(_, tmo) => tmo
    case CWaiFlg(_, _, _, tmo) => tmo
    case CRcvMbx(_, tmo) => tmo
    case _ => TMO_POL
  }

  lemma Arms(s: State, t: nat, tmo: int)
    requires t < |s.tcb|
    ensures Wtm(t) in MakeWait(s, t, tmo).q <==> tmo == TMO_FEVR
  {
  }

  lemma ObjArms(s: State, t: nat, h: Node, atr: bv16, tmo: int)
    requires t < |s.tcb| && h in s.q && IsWaitQ(h)
    ensures Wtm(t) in ObjMakeWait(s, t, h, atr, tmo).q <==> tmo == TMO_FEVR
  {
    hide MakeWait, TaTpri, PriPos;
    var s1 := Put(s, t, s.tcb[t].(waitObj := Some(h)));
    Arms(s1, t, tmo);
    MakeWaitHas(s1, t, tmo, h);
  }

  lemma SelfArms(s: State, t: nat, why: Why, tmo: int)
    requires t < |s.tcb|
    ensures Wtm(t) in SelfWait(s, t, why, tmo).q <==> tmo == TMO_FEVR
  {
    hide MakeWait;
    Arms(Put(s, t, s.tcb[t].(waitObj := None, tskwait := why)), t, tmo);
  }

  /** The queue a blocking call would wait in exists. */
  ghost predicate CanBlock(s: State, c: Call) {
    && IsTask(s, s.run)
    && match c
       case CWaiSem(id, _) => SemLive(s, id) && SemQ(id - 1) in s.q
       case CWaiFlg(id, _, _, _) => FlgLive(s, id) && FlgQ(id - 1) in s.q
       case CRcvMbx(id, _) => MbxLive(s, id) && MbxQ(id - 1) in s.q
       case _ => true
  }

  /** The state a blocking call that has to wait leaves behind, before `dispatch`. */
  ghost function Blocked(s: State, c: Call): State
    requires CanBlock(s, c)
  {
    var t := s.run;
    var x := s.tcb[t];
    match c
    case CDlyTsk(d) => SelfWait(Put(s, t, x.(ercd := E_OK)), t, TTW_DLY, ToTmo(d))
    case CSlpTsk(tmo) => SelfWait(Put(s, t, x.(ercd := E_TMOUT)), t, TTW_SLP, tmo)
    case CWaiSem(id, tmo) => ObjMakeWait(Put(s, t, x.(ercd := E_TMOUT)), t, SemQ(id - 1), s.o.sem[id - 1].atr, tmo)
    case CWaiFlg(id, p, m, tmo) =>
      ObjMakeWait(Put(s, t, x.(ercd := E_TMOUT, waiptn := p, wfmode := m)), t, FlgQ(id - 1), s.o.flg[id - 1].atr, tmo)
    case CRcvMbx(id, tmo) => ObjMakeWait(Put(s, t, x.(ercd := E_TMOUT)), t, MbxQ(id - 1), s.o.mbx[id - 1].atr, tmo)
    case _ => s
  }

  lemma QueuesThere(s: State, c: Call)
    requires Inv(s)
    ensures c.CWaiSem? && SemLive(s, c.id) ==> SemQ(c.id - 1) in s.q
    ensures c.CWaiFlg? && FlgLive(s, c.id) ==> FlgQ(c.id - 1) in s.q
    ensures c.CRcvMbx? && MbxLive(s, c.id) ==> MbxQ(c.id - 1) in s.q
  {
    QueuesExist(s);
  }

  lemma SemBlocks(s: State, id: int, tmo: int)
    requires CanBlock(s, CWaiSem(id, tmo)) && s.o.sem[id - 1].cnt == 0 && tmo != TMO_POL
    ensures WaiSem(s, id, tmo).0 == Dispatch(Blocked(s, CWaiSem(id, tmo)))
  {
    hide ObjMakeWait;
  }

  lemma FlgBlocks(s: State, id: int, p: bv32, m: nat, tmo: int)
    requires CanBlock(s, CWaiFlg(id, p, m, tmo)) && !FlagCond(s.o.flg[id - 1].ptn, p, m) && tmo != TMO_POL
    ensures p != 0 && m <= 1 ==> WaiFlg(s, id, p, m, tmo).0 == Dispatch(Blocked(s, CWaiFlg(id, p, m, tmo)))
  {
    hide ObjMakeWait, FlagCond, TaClr;
  }

  lemma MbxBlocks(s: State, id: int, tmo: int)
    requires CanBlock(s, CRcvMbx(id, tmo)) && s.o.mbx[id - 1].msgs == [] && tmo != TMO_POL
    ensures tmo >= TMO_FEVR ==> RcvMbx(s, id, tmo).0 == Dispatch(Blocked(s, CRcvMbx(id, tmo)))
  {
    hide ObjMakeWait;
  }

  lemma BlocksIn(s: State, c: Call, r: State)
    requires Inv(s) && Allowed(s, c) && IsTask(s, s.run) && r == Step(s, c).0 && |r.tcb| == |s.tcb|
    requires Begins(s, c, s.run, r.tcb[s.run])
    ensures CanBlock(s, c) && r == Dispatch(Blocked(s, c))
  {
    hide Inv, Sound, Blocked, FlagCond, ToTmo, SelfWait, WaiSem, WaiFlg, RcvMbx;
    QueuesThere(s, c);
    match c
    case CDlyTsk(d) => SelfBlocks(s, d, 0);
    case CSlpTsk(tmo) => SelfBlocks(s, 0, tmo);
    case CWaiSem(id, tmo) => SemBlocks(s, id, tmo);
    case CWaiFlg(id, p, m, tmo) => FlgRefuses(s, id, p, m, tmo, r); FlgBlocks(s, id, p, m, tmo);
    case CRcvMbx(id, tmo) => MbxRefuses(s, id, tmo, r); MbxBlocks(s, id, tmo);
    case _ =>
  }

  lemma SelfBlocks(s: State, d: nat, tmo: int)
    requires IsTask(s, s.run)
    ensures DlyTsk(s, d).0 == Dispatch(Blocked(s, CDlyTsk(d)))
    ensures s.tcb[s.run].wupcnt == 0 && tmo != TMO_POL ==> SlpTsk(s, tmo).0 == Dispatch(Blocked(s, CSlpTsk(tmo)))
  {
    hide SelfWait;
  }

  /** Bad parameters do not make the caller wait. */
  lemma FlgRefuses(s: State, id: int, p: bv32, m: nat, tmo: int, r: State)
    requires IsTask(s, s.run) && s.tcb[s.run].state == RDY && IdIn(id, |s.o.flg|) && FlgQ(id - 1) in s.q
    requires r == WaiFlg(s, id, p, m, tmo).0 && |r.tcb| == |s.tcb| && r.tcb[s.run].state == WAI
    ensures p != 0 && m <= 1
  {
    hide ObjMakeWait, FlagCond, TaClr;
  }

  lemma MbxRefuses(s: State, id: int, tmo: int, r: State)
    requires IsTask(s, s.run) && s.tcb[s.run].state == RDY && IdIn(id, |s.o.mbx|) && MbxQ(id - 1) in s.q
    requires r == RcvMbx(s, id, tmo).0 && |r.tcb| == |s.tcb| && r.tcb[s.run].state == WAI
    ensures tmo >= TMO_FEVR
  {
    hide ObjMakeWait;
  }

  /** A wait that begins with timeout `n` has its timer running exactly if `n` is not TMO_FEVR. */
  lemma TimerSet(s: State, c: Call, t: nat)
    requires Inv(s) && Allowed(s, c) && t < |s.tcb| == |Step(s, c).0.tcb|
    requires !Waiting(s.tcb[t]) && Waiting(Step(s, c).0.tcb[t])
    ensures Running(Step(s, c).0, t) <==> TmoOf(c) != TMO_FEVR
    ensures TmoOf(c) != TMO_FEVR ==> Step(s, c).0.tcb[t].count == U32(TmoOf(c))
  {
    hide Inv, Step, ObjMakeWait, SelfWait, FlagCond, ToTmo, Sound;
    WaitBegins(s, c, t);
    var r := Step(s, c).0;
    BlocksIn(s, c, r);
    match c {
      case CDlyTsk(d) => SelfArms(Put(s, t, s.tcb[t].(ercd := E_OK)), t, TTW_DLY, ToTmo(d));
      case CSlpTsk(tmo) => SelfArms(Put(s, t, s.tcb[t].(ercd := E_TMOUT)), t, TTW_SLP, tmo);
      case CWaiSem(id, tmo) => ObjArms(Put(s, t, s.tcb[t].(ercd := E_TMOUT)), t, SemQ(id - 1), s.o.sem[id - 1].atr, tmo);
      case CWaiFlg(id, p, m, tmo) =>
        ObjArms(Put(s, t, s.tcb[t].(ercd := E_TMOUT, waiptn := p, wfmode := m)), t, FlgQ(id - 1), s.o.flg[id - 1].atr, tmo);
      case CRcvMbx(id, tmo) => ObjArms(Put(s, t, s.tcb[t].(ercd := E_TMOUT)), t, MbxQ(id - 1), s.o.mbx[id - 1].atr, tmo);
      case _ =>
    }
    StepInv(s, c);
    WhereNodes(r, t, TimerQ);
  }

  lemma ArmsLast(s: State, t: nat, tmo: int)
    requires t < |s.tcb| && tmo != TMO_FEVR && Tsk(t) !in At(s.q, TimerQ)
    ensures At(MakeWait(s, t, tmo).q, TimerQ) == At(s.q, TimerQ) + [Wtm(t)]
  {
    hide Remove, TopTask;
    AtRemoveOther(s.q, Tsk(t), TimerQ);
  }

  lemma ObjArmsLast(s: State, t: nat, h: Node, atr: bv16, tmo: int)
    requires t < |s.tcb| && h in s.q && IsWaitQ(h) && tmo != TMO_FEVR && Tsk(t) !in At(s.q, TimerQ)
    ensures At(ObjMakeWait(s, t, h, atr, tmo).q, TimerQ) == At(s.q, TimerQ) + [Wtm(t)]
  {
    hide MakeWait, TaTpri, PriPos;
    var s1 := Put(s, t, s.tcb[t].(waitObj := Some(h)));
    ArmsLast(s1, t, tmo);
    MakeWaitHas(s1, t, tmo, h);
  }

  lemma SelfArmsLast(s: State, t: nat, why: Why, tmo: int)
    requires t < |s.tcb| && tmo != TMO_FEVR && Tsk(t) !in At(s.q, TimerQ)
    ensures At(SelfWait(s, t, why, tmo).q, TimerQ) == At(s.q, TimerQ) + [Wtm(t)]
  {
    hide MakeWait;
    ArmsLast(Put(s, t, s.tcb[t].(waitObj := None, tskwait := why)), t, tmo);
  }

  /** A new timer is the last of the timer list; nothing else happens to that list. */
  lemma TimerLast(s: State, c: Call, t: nat)
    requires Inv(s) && Allowed(s, c) && t < |s.tcb| == |Step(s, c).0.tcb| && TmoOf(c) != TMO_FEVR
    requires !Waiting(s.tcb[t]) && Waiting(Step(s, c).0.tcb[t])
    ensures At(Step(s, c).0.q, TimerQ) == At(s.q, TimerQ) + [Wtm(t)]
  {
    hide Inv, Step, ObjMakeWait, SelfWait, FlagCond, ToTmo, Sound, At;
    WaitBegins(s, c, t);
    BlocksIn(s, c, Step(s, c).0);
    WhereNodes(s, t, TimerQ);
    match c {
      case CDlyTsk(d) => SelfArmsLast(Put(s, t, s.tcb[t].(ercd := E_OK)), t, TTW_DLY, ToTmo(d));
      case CSlpTsk(tmo) => SelfArmsLast(Put(s, t, s.tcb[t].(ercd := E_TMOUT)), t, TTW_SLP, tmo);
      case CWaiSem(id, tmo) => ObjArmsLast(Put(s, t, s.tcb[t].(ercd := E_TMOUT)), t, SemQ(id - 1), s.o.sem[id - 1].atr, tmo);
      case CWaiFlg(id, p, m, tmo) =>
        ObjArmsLast(Put(s, t, s.tcb[t].(ercd := E_TMOUT, waiptn := p, wfmode := m)), t, FlgQ(id - 1), s.o.flg[id - 1].atr, tmo);
      case CRcvMbx(id, tmo) => ObjArmsLast(Put(s, t, s.tcb[t].(ercd := E_TMOUT)), t, MbxQ(id - 1), s.o.mbx[id - 1].atr, tmo);
      case _ =>
    }
  }

  /** Ticks a timer with this count still has to go: a count of zero wraps. */
  function TicksLeft(count: nat): nat { if count == 0 then 0x1_0000_0000 else count }

  function Ticks(cs: seq<Call>): nat {
    if cs == [] then 0 else (if cs[0].CTick? then 1 else 0) + Ticks(cs[1..])
  }

  /** Nothing in the run `cs` ends the wait `t` is in. */
  ghost predicate WaitsThrough(s: State, cs: seq<Call>, t: nat)
    requires Inv(s) && Legal(s, cs)
    decreases |cs|
  {
    && t < |s.tcb| && Waiting(s.tcb[t])
    && (cs != [] ==> Ending(s, cs[0], t) == GoesOn && (StepInv(s, cs[0]); WaitsThrough(Step(s, cs[0]).0, cs[1..], t)))
  }

  lemma CountBound(s: State, t: nat)
    requires Inv(s) && t < |s.tcb|
    ensures s.tcb[t].count < 0x1_0000_0000
  {
    assert TcbOk(s.np, s.tcb[t]);
  }

  lemma CountDown(n: nat)
    requires n < 0x1_0000_0000
    ensures U32(n - 1) == 0 <==> TicksLeft(n) == 1
    ensures TicksLeft(n) > 1 ==> TicksLeft(U32(n - 1)) == TicksLeft(n) - 1
  {
  }

  /** A running timer counts down by one at each tick of a run and at nothing else. */
  lemma {:induction false} CountsTicks(s: State, cs: seq<Call>, t: nat)
    requires Inv(s) && Legal(s, cs) && WaitsThrough(s, cs, t)
    ensures var r := Run(s, cs);
      && t < |r.tcb| && Waiting(r.tcb[t]) && SameWait(s.tcb[t], r.tcb[t]) && (Running(r, t) <==> Running(s, t))
      && (Running(s, t) ==> Ticks(cs) + TicksLeft(r.tcb[t].count) == TicksLeft(s.tcb[t].count))
      && (!Running(s, t) ==> r.tcb[t].count == s.tcb[t].count)
    decreases |cs|
  {
    hide Inv, Step, Callable, Sound, Running;
    if cs != [] {
      var c := cs[0];
      StepInv(s, c);
      OneTick(s, c, t);
      CountsTicks(Step(s, c).0, cs[1..], t);
    }
  }

  lemma OneTick(s: State, c: Call, t: nat)
    requires Inv(s) && Allowed(s, c) && t < |s.tcb| && Waiting(s.tcb[t]) && Ending(s, c, t) == GoesOn
    ensures var r := Step(s, c).0;
      && |r.tcb| == |s.tcb| && SameWait(s.tcb[t], r.tcb[t]) && (Running(r, t) <==> Running(s, t))
      && (if Running(s, t) && c.CTick?
          then TicksLeft(s.tcb[t].count) > 1 && TicksLeft(r.tcb[t].count) == TicksLeft(s.tcb[t].count) - 1
          else r.tcb[t].count == s.tcb[t].count)
  {
    hide Inv, Step, Satisfies, Deletes;
    WaitOutcome(s, c, t);
    TimerKept(s, c, t);
    CountBound(s, t);
    CountDown(s.tcb[t].count);
  }

  /** Exact timeouts. A wait that begins with timeout `n` and that nothing else ends is ended
      by the tick that follows `cs` exactly if that is the n-th tick since; it then ends with
      its preset result. Without a timeout no tick ends it. */
  lemma TimeoutExact(s: State, c: Call, r: State, cs: seq<Call>, t: nat)
    requires Inv(s) && Allowed(s, c) && r == Step(s, c).0 && Inv(r) && t < |s.tcb| == |r.tcb|
    requires !Waiting(s.tcb[t]) && Waiting(r.tcb[t])
    requires Legal(r, cs) && WaitsThrough(r, cs, t)
    ensures var w := Run(r, cs);
      && t < |w.tcb| == |Tick(w).tcb| && Waiting(w.tcb[t])
      && (TmoOf(c) != TMO_FEVR ==> Ticks(cs) < TicksLeft(U32(TmoOf(c))))
      && (Ending(w, CTick, t) == TimedOut <==> TmoOf(c) != TMO_FEVR && Ticks(cs) + 1 == TicksLeft(U32(TmoOf(c))))
      && (if Ending(w, CTick, t) == TimedOut then EndsWith(w.tcb[t], Tick(w).tcb[t], if c.CDlyTsk? then E_OK else E_TMOUT)
          else SameWait(w.tcb[t], Tick(w).tcb[t]))
  {
    hide Inv, Step, Callable, Sound, Running, Tick, WaitsThrough, FlagCond, ToTmo;
    TimerSet(s, c, t);
    WaitBegins(s, c, t);
    CountsTicks(r, cs, t);
    TickEnds(Run(r, cs), t);
  }

  lemma TickEnds(w: State, t: nat)
    requires Inv(w) && t < |w.tcb| && Waiting(w.tcb[t])
    ensures |Tick(w).tcb| == |w.tcb|
    ensures var e := Ending(w, CTick, t);
      && (e == TimedOut || e == GoesOn)
      && (e == TimedOut <==> Running(w, t) && TicksLeft(w.tcb[t].count) == 1)
      && (if e == TimedOut then EndsWith(w.tcb[t], Tick(w).tcb[t], w.tcb[t].ercd) else SameWait(w.tcb[t], Tick(w).tcb[t]))
  {
    hide Inv, Tick, EndsWith, SameWait;
    WaitOutcome(w, CTick, t);
    CountBound(w, t);
    CountDown(w.tcb[t].count);
  }

  /** A positive timeout is its own number of ticks; TMO_FEVR aside, no other value is. */
  lemma TicksExact(tmo: int)
    requires -0x8000 <= tmo < 0x8000
    ensures TicksLeft(U32(tmo)) == tmo <==> tmo > 0
  {
  }

  /** `dly_tsk(d)` for an unsigned 32-bit `d` narrows to the 16-bit TMO. It waits d ticks
      exactly in these two ranges, the second being the sign-extended negative timeouts. */
  lemma DelayExact(d: nat)
    requires d < 0x1_0000_0000
    ensures ToTmo(d) != TMO_FEVR && TicksLeft(U32(ToTmo(d))) == d <==>
            1 <= d <= 0x7fff || 0xffff_8000 <= d <= 0xffff_fffe
  {
    U32Is(ToTmo(d));
    var k, h := d / 0x1_0000, d % 0x1_0000;
    assert d == k * 0x1_0000 + h;
    assert ToTmo(d) == if h < 0x8000 then h else h - 0x1_0000;
    hide U32, ToTmo;
  }

  /** Any other delay becomes the 16-bit value it is congruent to. */
  lemma Narrowed(d: nat) returns (k: int)
    ensures -0x8000 <= ToTmo(d) < 0x8000 && d == ToTmo(d) + k * 0x1_0000
  {
    k := if d % 0x1_0000 < 0x8000 then d / 0x1_0000 else d / 0x1_0000 + 1;
  }

  lemma U32Is(x: int)
    requires -0x1_0000_0000 <= x < 0x1_0000_0000
    ensures U32(x) == if x >= 0 then x else x + 0x1_0000_0000
  {
  }

  // ---- order of service ----

  /** In queue `h`, looking at these two only, `t` comes before `u`. */
  ghost predicate AheadOf(s: State, h: Node, t: nat, u: nat) {
    t != u && Keep(At(s.q, h), {t, u}) == [Tsk(t), Tsk(u)]
  }

  lemma {:induction false} FirstKept(xs: seq<Node>, ts: set<nat>)
    requires xs != [] && OwnedBy(xs[0], ts)
    ensures Keep(xs, ts) != [] && Keep(xs, ts)[0] == xs[0]
  {
  }

  /** One step: of two tasks that both go on waiting, neither overtakes the other. */
  lemma StaysAhead(s: State, c: Call, h: Node, t: nat, u: nat)
    requires Inv(s) && Allowed(s, c) && IsWaitQ(h) && t < |s.tcb| && u < |s.tcb|
    requires Waiting(s.tcb[t]) && Ending(s, c, t) == GoesOn && Waiting(s.tcb[u]) && Ending(s, c, u) == GoesOn
    ensures AheadOf(Step(s, c).0, h, t, u) <==> AheadOf(s, h, t, u)
  {
    hide Inv, Step, Ending, Sound, Callable;
    WaitOutcome(s, c, t);
    WaitOutcome(s, c, u);
    StepOrder(s, c, {t, u});
    assert Ordered(h);
  }

  /** Whoever is behind in a queue is not the one a signal or message goes to, in any state
      of any run through which both keep waiting. */
  lemma {:induction false} NoOvertaking(s: State, cs: seq<Call>, h: Node, t: nat, u: nat)
    requires Inv(s) && Legal(s, cs) && IsWaitQ(h)
    requires WaitsThrough(s, cs, t) && WaitsThrough(s, cs, u) && AheadOf(s, h, t, u)
    ensures AheadOf(Run(s, cs), h, t, u) && FirstTask(Run(s, cs), h) != u
    decreases |cs|
  {
    hide Inv, Step, Callable, Sound, AheadOf;
    if cs == [] {
      NotFirst(s, h, t, u);
    } else {
      StepInv(s, cs[0]);
      StaysAhead(s, cs[0], h, t, u);
      NoOvertaking(Step(s, cs[0]).0, cs[1..], h, t, u);
    }
  }

  lemma NotFirst(s: State, h: Node, t: nat, u: nat)
    requires AheadOf(s, h, t, u)
    ensures FirstTask(s, h) != u
  {
    var xs := At(s.q, h);
    if FirstTask(s, h) == u { FirstKept(xs, {t, u}); }
  }

  /** TA_TPRI is the bit worth 1: the attributes 0 (TA_TFIFO) and 4 (TA_CLR) do not have it. */
  predicate ByPriority(atr: bv16) { atr % 2 == 1 }

  lemma ByPriorityIs(atr: bv16)
    ensures ByPriority(atr) <==> TaTpri(atr)
  {
  }

  lemma PriorityOf(s: State, h: Node)
    ensures ByPriority(AtrOf(s.o, h)) <==> TaTpri(AtrOf(s.o, h))
  {
    ByPriorityIs(AtrOf(s.o, h));
  }

  /** The task a signal or message goes to waits in that queue, and in a TA_TPRI queue nobody
      there has a better priority. */
  lemma ServedIsBest(s: State, h: Node)
    requires Inv(s) && IsWaitQ(h) && At(s.q, h) != []
    ensures var t := FirstTask(s, h);
      && IsTask(s, t) && Waiting(s.tcb[t]) && s.tcb[t].waitObj == Some(h)
      && (ByPriority(AtrOf(s.o, h)) ==>
            forall u :: 0 <= u < |s.tcb| && Tsk(u) in At(s.q, h) ==> s.tcb[t].tskpri <= s.tcb[u].tskpri)
  {
    hide ByPriority, TaTpri;
    PriorityOf(s, h);
    FirstTaskIs(s, h);
    var xs := At(s.q, h);
    if TaTpri(AtrOf(s.o, h)) {
      assert Sorted(s.tcb, xs);
      forall u | 0 <= u < |s.tcb| && Tsk(u) in xs ensures s.tcb[FirstTask(s, h)].tskpri <= s.tcb[u].tskpri {
        var k :| 0 <= k < |xs| && xs[k] == Tsk(u);
        assert PriOf(s.tcb, xs[0]) <= PriOf(s.tcb, xs[k]);
      }
    }
  }

  /** Where in the queue the caller of a blocking call goes. */
  ghost predicate JoinsAt(s: State, h: Node, t: nat, k: nat, xs: seq<Node>)
    requires t < |s.tcb| && k <= |xs|
  {
    if ByPriority(AtrOf(s.o, h)) then
      && (forall i :: 0 <= i < k ==> PriOf(s.tcb, xs[i]) <= s.tcb[t].tskpri)
      && (forall i :: k <= i < |xs| ==> PriOf(s.tcb, xs[i]) > s.tcb[t].tskpri)
    else k == |xs|
  }

  /** A newcomer goes behind everybody in a TA_TFIFO queue; in a TA_TPRI queue behind those
      of its own or better priority and before all others. Nobody else moves. */
  lemma JoinsQueue(s: State, c: Call, t: nat, h: Node) returns (k: nat)
    requires Inv(s) && Allowed(s, c) && t < |s.tcb| == |Step(s, c).0.tcb| && !Waiting(s.tcb[t])
    requires var y := Step(s, c).0.tcb[t]; Waiting(y) && y.waitObj == Some(h)
    ensures var xs := At(s.q, h);
      k <= |xs| && At(Step(s, c).0.q, h) == xs[..k] + [Tsk(t)] + xs[k..] && JoinsAt(s, h, t, k, xs)
  {
    hide Step, ObjMakeWait, SelfWait, FlagCond, ToTmo, Sound, Good, TaTpri;
    WaitBegins(s, c, t);
    var r := Step(s, c).0;
    BlocksIn(s, c, r);
    match c {
      case CWaiSem(id, tmo) => k := Enqueued(s, t, s.tcb[t].(ercd := E_TMOUT), h, tmo);
      case CWaiFlg(id, p, m, tmo) => k := Enqueued(s, t, s.tcb[t].(ercd := E_TMOUT, waiptn := p, wfmode := m), h, tmo);
      case CRcvMbx(id, tmo) => k := Enqueued(s, t, s.tcb[t].(ercd := E_TMOUT), h, tmo);
      case _ =>
    }
  }

  lemma Enqueued(s: State, t: nat, c: Tcb, h: Node, tmo: int) returns (k: nat)
    requires Good(s, NULL) && t < |s.tcb| && s.tcb[t].state == RDY && c.state == RDY && c.tskpri == s.tcb[t].tskpri
    requires IsWaitQ(h) && h in s.q
    ensures var xs := At(s.q, h); var r := ObjMakeWait(Put(s, t, c), t, h, AtrOf(s.o, h), tmo);
      k <= |xs| && At(r.q, h) == xs[..k] + [Tsk(t)] + xs[k..] && JoinsAt(s, h, t, k, xs)
  {
    hide Good, MakeWait, TaTpri, ByPriority, AtrOf;
    PriorityOf(s, h);
    var xs := At(s.q, h);
    var c1 := c.(waitObj := Some(h));
    PutPut(s, t, c, c1);
    var w := MakeWait(Put(s, t, c1), t, tmo);
    QueueUntouched(s, t, c1, h, tmo);
    MakeWaitPris(s, t, c1, tmo);
    PriPosSame(s.tcb, w.tcb, xs, s.tcb[t].tskpri);
    if TaTpri(AtrOf(s.o, h)) {
      k := PriPos(s.tcb, xs, s.tcb[t].tskpri);
      WaitQSorted(s, h);
    } else {
      k := |xs|;
      assert xs[..k] == xs && xs[k..] == [];
    }
  }

  lemma WaitQSorted(s: State, h: Node)
    requires Good(s, NULL) && IsWaitQ(h) && h in s.q && TaTpri(AtrOf(s.o, h))
    ensures Sorted(s.tcb, At(s.q, h))
  {
  }

  lemma QueueUntouched(s: State, t: nat, c: Tcb, h: Node, tmo: int)
    requires Good(s, NULL) && t < |s.tcb| && s.tcb[t].state == RDY && c.state == RDY && IsWaitQ(h) && h in s.q
    ensures var w := MakeWait(Put(s, t, c), t, tmo); h in w.q && At(w.q, h) == At(s.q, h)
  {
    hide Good, Remove, TopTask, Append, Without;
    OnlyHome(s, NULL, t, h);
    AtRemoveOther(s.q, Tsk(t), h);
    var w := MakeWait(Put(s, t, c), t, tmo);
    TimerElsewhere(Remove(s.q, Tsk(t)), t, h);
    assert w.q == if tmo == TMO_FEVR then Init(Remove(s.q, Tsk(t)), Wtm(t)) else Append(Remove(s.q, Tsk(t)), Wtm(t), TimerQ);
    StillThere(s.q, Tsk(t), h);
  }

  lemma TimerElsewhere(q: Rings, t: nat, h: Node)
    requires IsWaitQ(h)
    ensures At(Append(q, Wtm(t), TimerQ), h) == At(q, h) && (h in q ==> h in Append(q, Wtm(t), TimerQ))
    ensures At(Init(q, Wtm(t)), h) == At(q, h) && (h in q ==> h in Init(q, Wtm(t)))
  {
  }

  lemma StillThere(q: Rings, e: Node, h: Node)
    ensures h in Remove(q, e) <==> h in q
  {
  }

  lemma MakeWaitPris(s: State, t: nat, c: Tcb, tmo: int)
    requires t < |s.tcb| && c.tskpri == s.tcb[t].tskpri
    ensures var w := MakeWait(Put(s, t, c), t, tmo); |w.tcb| == |s.tcb| && forall n :: PriOf(w.tcb, n) == PriOf(s.tcb, n)
    ensures MakeWait(Put(s, t, c), t, tmo).tcb[t].tskpri == s.tcb[t].tskpri
  {
    hide Remove, TopTask;
  }

  lemma {:induction false} PriPosSame(tcb: seq<Tcb>, tcb': seq<Tcb>, xs: seq<Node>, pri: nat)
    requires forall n :: PriOf(tcb', n) == PriOf(tcb, n)
    ensures PriPos(tcb', xs, pri) == PriPos(tcb, xs, pri)
  {
    if xs != [] { PriPosSame(tcb, tcb', xs[1..], pri); }
  }

  // ---- a wait that happens ----

  lemma FirstCreated(s: State) returns (r: State)
    requires s == Start(1, 1, 1, 0, 0)
    ensures Inv(s) && Allowed(s, CCreTsk(1, 1)) && r == Step(s, CCreTsk(1, 1)).0 && Inv(r)
    ensures |r.tcb| == 1 && r.tcb[0].state == DMT && r.run == NULL && r.o == Boot(1, 1, 1, 0, 0).o
  {
    hide Inv, Step, BootSems, ObjsAfter, Remove;
    assert Sound(s, CCreTsk(1, 1)) && s.tcb == [BlankTcb] && s.run == NULL;
    StepInv(s, CCreTsk(1, 1));
    StepEffect(s, CCreTsk(1, 1));
    r := Step(s, CCreTsk(1, 1)).0;
    KeepsRunning(s, CCreTsk(1, 1));
    NoObjects(s, CCreTsk(1, 1));
  }

  lemma NoObjects(s: State, c: Call)
    ensures c.CCreTsk? || c.CActTsk? || c.CDispatch? ==> ObjsAfter(s, c) == s.o
  {
  }

  lemma KeepsRunning(s: State, c: Call)
    requires Inv(s) && Callable(s, c) && (c.CCreTsk? || c.CCreSem?)
    ensures Step(s, c).0.run == s.run
  {
    hide Inv, Remove, Init;
  }

  lemma FirstActivated(s: State) returns (r: State)
    requires Inv(s) && |s.tcb| == 1 && s.tcb[0].state == DMT && s.run == NULL
    ensures Allowed(s, CActTsk(1, true)) && r == Step(s, CActTsk(1, true)).0 && Inv(r)
    ensures |r.tcb| == 1 && r.tcb[0].state == RDY && r.sched == 0 && r.o == s.o
  {
    hide Inv, Step, ObjsAfter;
    StepInv(s, CActTsk(1, true));
    StepEffect(s, CActTsk(1, true));
    r := Step(s, CActTsk(1, true)).0;
    NoObjects(s, CActTsk(1, true));
    SchedIsBest(r);
  }

  lemma FirstDispatched(s: State) returns (r: State)
    requires Inv(s) && |s.tcb| == 1 && s.sched == 0 && s.tcb[0].state == RDY
    ensures Allowed(s, CDispatch) && r == Step(s, CDispatch).0 && Inv(r) && r == Dispatch(s)
  {
    hide Inv;
    StepInv(s, CDispatch);
    r := Step(s, CDispatch).0;
  }

  lemma SemaphoreMade(s: State) returns (r: State)
    requires Inv(s) && |s.tcb| == 1 && s.run == 0 && s.tcb[0].state == RDY && |s.o.sem| == 1 && !s.o.sem[0].live
    ensures Allowed(s, CCreSem(1, 0, 0, 1)) && r == Step(s, CCreSem(1, 0, 0, 1)).0 && Inv(r)
    ensures |r.tcb| == 1 && r.run == 0 && r.tcb[0].state == RDY && SemLive(r, 1) && r.o.sem[0].cnt == 0
  {
    hide Inv, Step, ObjsAfter;
    var c := CCreSem(1, 0, 0, 1);
    StepInv(s, c);
    StepEffect(s, c);
    r := Step(s, c).0;
    KeepsRunning(s, c);
    SemMade(s);
  }

  lemma SemMade(s: State)
    requires |s.o.sem| == 1 && !s.o.sem[0].live
    ensures ObjsAfter(s, CCreSem(1, 0, 0, 1)).sem == [Sem(true, 0, 0, 1)]
  {
  }

  lemma Preceded(s: State, c: Call, cs: seq<Call>)
    requires Inv(s) && Allowed(s, c) && Inv(Step(s, c).0) && Legal(Step(s, c).0, cs)
    ensures Legal(s, [c] + cs) && Run(s, [c] + cs) == Run(Step(s, c).0, cs)
  {
    hide Inv, Step, Callable, Sound;
    assert ([c] + cs)[0] == c && ([c] + cs)[1..] == cs;
  }

  /** The premises of the theorems on waits can be met: after the run `cs` from start-up, in which
      a task is created, activated and dispatched and a semaphore made, that task waits on it with
      a timeout of 3, its timer running. */
  lemma WaitsHappen() returns (cs: seq<Call>, s: State, r: State)
    ensures Legal(Start(1, 1, 1, 0, 0), cs) && s == Run(Start(1, 1, 1, 0, 0), cs)
    ensures Allowed(s, CWaiSem(1, 3)) && r == Step(s, CWaiSem(1, 3)).0 && Inv(r)
    ensures |s.tcb| == |r.tcb| == 1 && !Waiting(s.tcb[0]) && Waiting(r.tcb[0]) && Running(r, 0) && r.tcb[0].count == 3
    ensures Presets(s) && Legal(r, []) && WaitsThrough(r, [], 0)
  {
    hide Inv, Step, After, ObjsAfter, Sound, Callable, Running, Presets, Legal, Run, Start;
    var s0 := Start(1, 1, 1, 0, 0);
    var s1 := FirstCreated(s0);
    var s2 := FirstActivated(s1);
    var s3 := FirstDispatched(s2);
    s := SemaphoreMade(s3);
    NothingYet(s);
    cs := [];
    Preceded(s3, CCreSem(1, 0, 0, 1), cs);
    cs := [CCreSem(1, 0, 0, 1)] + cs;
    Preceded(s2, CDispatch, cs);
    cs := [CDispatch] + cs;
    Preceded(s1, CActTsk(1, true), cs);
    cs := [CActTsk(1, true)] + cs;
    Preceded(s0, CCreTsk(1, 1), cs);
    cs := [CCreTsk(1, 1)] + cs;
    StartPresets(1, 1, 1, 0, 0);
    RunPresets(s0, cs);
    r := ThenWaits(s);
  }

  lemma NothingYet(s: State)
    requires Inv(s)
    ensures Legal(s, []) && Run(s, []) == s
  {
  }

  lemma ThenWaits(s: State) returns (r: State)
    requires Inv(s) && |s.tcb| == 1 && s.run == 0 && s.tcb[0].state == RDY && SemLive(s, 1) && s.o.sem[0].cnt == 0
    ensures Allowed(s, CWaiSem(1, 3)) && r == Step(s, CWaiSem(1, 3)).0 && Inv(r)
    ensures |r.tcb| == 1 && Waiting(r.tcb[0]) && Running(r, 0) && r.tcb[0].count == 3
    ensures Legal(r, []) && WaitsThrough(r, [], 0)
  {
    hide Inv, Step, After, ObjsAfter, Sound, Running;
    WaiSemSound(s);
    StepInv(s, CWaiSem(1, 3));
    r := Step(s, CWaiSem(1, 3)).0;
    StepOn(s, CWaiSem(1, 3), 0);
    SemWaits(s, 0);
    TimerSet(s, CWaiSem(1, 3), 0);
  }

  lemma WaiSemSound(s: State)
    ensures Sound(s, CWaiSem(1, 3))
  {
  }

  lemma SemWaits(s: State, t: nat)
    requires t < |s.tcb| && t == s.run && SemLive(s, 1) && s.o.sem[0].cnt == 0
    ensures Waiting(After(s, CWaiSem(1, 3), t))
  {
  }
}
