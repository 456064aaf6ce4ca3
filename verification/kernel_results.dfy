/** What every call returns, read off the state before it, and the life of the objects. */
module KernelResults {
  import opened KQueue
  import opened ReadyQueue
  import opened KernelState
  import opened KernelInv
  import opened KernelCalls
  import opened KernelRuns
  import opened KernelEffects
  import opened KernelSafety
  import opened KernelWaits
  import opened KernelReady
  import opened KernelFlags

  // ---- calls about tasks ----

  /** Result of a call that names the task `x`. */
  function NamedResult(s: State, c: Call, x: Tcb): Er {
    match c
    case CActTsk(_, _) => if x.state == NOEXS then E_NOEXS else if x.state != DMT && x.actcnt == 15 then E_QOVR else E_OK
    case CChgPri(_, pri) =>
      if pri < 0 || pri > s.np then E_PAR else if x.state == NOEXS then E_NOEXS else if x.state == DMT then E_OBJ else E_OK
    case CSusTsk(_) =>
      if x.state == NOEXS then E_NOEXS else if x.state == DMT then E_OBJ else if x.suscnt == 15 then E_QOVR else E_OK
    case CRsmTsk(_) => if x.state == NOEXS then E_NOEXS else if x.suscnt == 0 then E_OBJ else E_OK
    case CWupTsk(_, _) =>
      if x.state == NOEXS then E_NOEXS else if x.state == DMT then E_OBJ
      else if x.tskwait != TTW_SLP && x.wupcnt == 15 then E_QOVR else E_OK
    case CCanWup(_) => if x.state == NOEXS then E_NOEXS else if x.state == DMT then E_OBJ else E_OK
    case _ => E_OK
  }

  /** The state of the task named decides, and a counter at its limit of 15. */
  lemma NamedReturns(s: State, c: Call, t: nat)
    requires Inv(s) && Callable(s, c) && TakesTask(c) && t < |s.tcb| && Names(s, TaskIdOf(c), t)
    ensures Step(s, c).1 == NamedResult(s, c, s.tcb[t])
  {
    hide Inv, Step, NamedResult, TcbOk;
    ScalarsOk(s, t) by { GoodIn(s); }
    NamedOnce(s, c, t);
  }

  lemma NamedOnce(s: State, c: Call, t: nat)
    requires Inv(s) && Callable(s, c) && TakesTask(c) && t < |s.tcb| && t == TaskOf(s, TaskIdOf(c))
    requires !BadTaskId(s, TaskIdOf(c)) && TcbOk(s.np, s.tcb[t])
    ensures Step(s, c).1 == NamedResult(s, c, s.tcb[t])
  {
    hide Inv, MakeReady, MakeUnready, ChangePri, ReleaseWith;
    StepIs(s, c);
    hide Step;
  }

  predicate AboutTasks(c: Call) { !OnObject(c) && !TakesTask(c) }

  function TaskResult(s: State, c: Call): Er {
    match c
    case CCreTsk(id, _) => if id < 1 || id > |s.tcb| then E_ID else if s.tcb[id - 1].state != NOEXS then E_OBJ else E_OK
    case CDelTsk(id) =>
      if id < 1 || id > |s.tcb| then E_ID else if s.tcb[id - 1].state == NOEXS then E_NOEXS
      else if id - 1 == s.run then E_OBJ else E_OK
    case CRotRdq(pri) => if pri < 0 || pri > s.np then E_PAR else E_OK
    case CSlpTsk(_) => if 0 <= s.run < |s.tcb| && s.tcb[s.run].wupcnt > 0 then E_OK else E_TMOUT
    case _ => E_OK
  }

  lemma TaskReturns(s: State, c: Call)
    requires Inv(s) && Callable(s, c) && AboutTasks(c)
    ensures Step(s, c).1 == TaskResult(s, c)
  {
    hide Inv, MakeUnready, WaitCancel, Remove, Append, SelfWait, Rotated, TopPri, TopTask, ToTmo, MakeReady;
    StepIs(s, c);
    hide Step;
  }

  // ---- calls about objects ----

  /** The attribute has only bits of the given number of low ones. */
  lemma Attributes(atr: bv16)
    ensures atr & 0x01 == atr <==> atr <= 1
    ensures atr & 0x03 == atr <==> atr <= 3
    ensures atr & 0x07 == atr <==> atr <= 7
  {
  }

  lemma MailAttribute(atr: bv16)
    ensures TaMpri(atr) <==> atr % 4 != 0
  {
  }

  function LifeResult(s: State, c: Call): Er {
    match c
    case CCreSem(id, atr, n, m) =>
      if id < 1 || id > |s.o.sem| then E_ID else if atr > 1 then E_RSATR else if n > 32 || m > 32 then E_PAR
      else if s.o.sem[id - 1].live then E_OBJ else E_OK
    case CCreFlg(id, atr, _) =>
      if id < 1 || id > |s.o.flg| then E_ID else if atr > 7 then E_RSATR else if s.o.flg[id - 1].live then E_OBJ else E_OK
    case CCreMbx(id, atr) =>
      if id < 1 || id > |s.o.mbx| then E_ID else if atr > 3 then E_RSATR else if s.o.mbx[id - 1].live then E_OBJ else E_OK
    case CDelSem(id) => if id < 1 || id > |s.o.sem| then E_ID else if !s.o.sem[id - 1].live then E_NOEXS else E_OK
    case CDelFlg(id) => if id < 1 || id > |s.o.flg| then E_ID else if !s.o.flg[id - 1].live then E_NOEXS else E_OK
    case CDelMbx(id) => if id < 1 || id > |s.o.mbx| then E_ID else if !s.o.mbx[id - 1].live then E_NOEXS else E_OK
    case _ => E_OK
  }

  lemma CreatesReturn(s: State, c: Call)
    requires Inv(s) && Callable(s, c) && (c.CCreSem? || c.CCreFlg? || c.CCreMbx?)
    ensures Step(s, c).1 == LifeResult(s, c)
  {
    hide Inv, Step, Init, Remove, CreTsk, DelTsk, IActTsk, ExtTsk, ChgPri, RotRdq, DlyTsk, SusTsk, RsmTsk, SlpTsk,
         IWupTsk, CanWup, DelSem, WaiSem, ISigSem, DelFlg, ISetFlg, ClrFlg, WaiFlg, DelMbx, SndMbx, RcvMbx, Tick;
    StepIs(s, c);
    match c
    case CCreSem(_, atr, _, _) => Attributes(atr);
    case CCreFlg(_, atr, _) => Attributes(atr);
    case CCreMbx(_, atr) => Attributes(atr);
    case _ =>
  }

  lemma DeletesReturn(s: State, c: Call)
    requires Inv(s) && Callable(s, c) && (c.CDelSem? || c.CDelFlg? || c.CDelMbx?)
    ensures Step(s, c).1 == LifeResult(s, c)
  {
    hide Inv, Append, ReleaseAll;
  }

  lemma LifeReturns(s: State, c: Call)
    requires Inv(s) && Callable(s, c) && CreatesOrDeletes(c)
    ensures Step(s, c).1 == LifeResult(s, c)
  {
    hide Inv, Step, LifeResult;
    if c.CCreSem? || c.CCreFlg? || c.CCreMbx? { CreatesReturn(s, c); } else { DeletesReturn(s, c); }
  }

  ghost function ObjectResult(s: State, c: Call): Er {
    match c
    case CWaiSem(id, _) =>
      if id < 1 || id > |s.o.sem| then E_ID else if !s.o.sem[id - 1].live then E_OBJ
      else if s.o.sem[id - 1].cnt > 0 then E_OK else E_TMOUT
    case CSigSem(id, _) =>
      if id < 1 || id > |s.o.sem| then E_ID else if !s.o.sem[id - 1].live then E_OBJ
      else if At(s.q, SemQ(id - 1)) == [] && s.o.sem[id - 1].cnt == s.o.sem[id - 1].max then E_QOVR else E_OK
    case CSetFlg(id, _, _) => if id < 1 || id > |s.o.flg| then E_ID else if !s.o.flg[id - 1].live then E_NOEXS else E_OK
    case CClrFlg(id, _) => if id < 1 || id > |s.o.flg| then E_ID else if !s.o.flg[id - 1].live then E_NOEXS else E_OK
    case CWaiFlg(id, w, m, _) =>
      if id < 1 || id > |s.o.flg| then E_ID else if m > 1 || w == 0 then E_PAR else if !s.o.flg[id - 1].live then E_NOEXS
      else if if m == 0 then AllIn(w, s.o.flg[id - 1].ptn) else AnyIn(w, s.o.flg[id - 1].ptn) then E_OK else E_TMOUT
    case CSndMbx(id, m) =>
      if id < 1 || id > |s.o.mbx| then E_ID else if !s.o.mbx[id - 1].live then E_NOEXS
      else if s.o.mbx[id - 1].atr % 4 != 0 && m.pri <= 0 then E_PAR else E_OK
    case CRcvMbx(id, tmo) =>
      if id < 1 || id > |s.o.mbx| then E_ID else if tmo < -1 then E_PAR else if !s.o.mbx[id - 1].live then E_NOEXS
      else if s.o.mbx[id - 1].msgs != [] then E_OK else E_TMOUT
    case _ => E_OK
  }

  lemma ObjectReturns(s: State, c: Call)
    requires Inv(s) && Callable(s, c) && OnObject(c) && !CreatesOrDeletes(c)
    ensures Step(s, c).1 == ObjectResult(s, c)
  {
    hide Inv, Step, ObjectResult, Callable;
    if c.CWaiFlg? {
      WaiFlgReturns(s, c);
    } else if c.CSndMbx? {
      SndMbxReturns(s, c);
    } else if c.CSigSem? {
      SigSemReturns(s, c);
    } else if c.CSetFlg? || c.CClrFlg? {
      PatternReturns(s, c);
    } else {
      TakeReturns(s, c);
    }
  }

  lemma SigSemReturns(s: State, c: Call)
    requires Inv(s) && Callable(s, c) && c.CSigSem?
    ensures Step(s, c).1 == ObjectResult(s, c)
  {
    hide Inv, ReleaseWith, FirstTask;
    if SemLive(s, c.id) { SignalFacts(s, c.id - 1); }
  }

  lemma PatternReturns(s: State, c: Call)
    requires Inv(s) && Callable(s, c) && (c.CSetFlg? || c.CClrFlg?)
    ensures Step(s, c).1 == ObjectResult(s, c)
  {
    hide Inv, Sweep, BitsSet, BitsKept;
  }

  lemma TakeReturns(s: State, c: Call)
    requires Inv(s) && Callable(s, c) && (c.CWaiSem? || c.CRcvMbx?)
    ensures Step(s, c).1 == ObjectResult(s, c)
  {
    hide Inv, ObjMakeWait;
  }

  lemma SignalFacts(s: State, i: nat)
    requires Inv(s) && i < |s.o.sem| && s.o.sem[i].live
    ensures s.o.sem[i].cnt <= s.o.sem[i].max && (FirstTask(s, SemQ(i)) == NULL <==> At(s.q, SemQ(i)) == [])
  {
    SemCount(s, i);
    FirstTaskIs(s, SemQ(i));
  }

  lemma WaiFlgReturns(s: State, c: Call)
    requires Inv(s) && Callable(s, c) && c.CWaiFlg?
    ensures Step(s, c).1 == ObjectResult(s, c)
  {
    hide Inv, ObjMakeWait, FlagCond, TaClr, TaWsgl, AllIn, AnyIn, Clears;
    if FlgLive(s, c.id) && c.wfmode <= 1 && c.ptn != 0 { WaiFlgExact(s, c.id, c.ptn, c.wfmode, c.tmo); }
  }

  lemma SndMbxReturns(s: State, c: Call)
    requires Inv(s) && Callable(s, c) && c.CSndMbx?
    ensures Step(s, c).1 == ObjectResult(s, c)
  {
    hide Inv, FirstTask, ReleaseWith, TaMpri, InsertMsg;
    if MbxLive(s, c.id) { MailAttribute(s.o.mbx[c.id - 1].atr); }
  }

  // ---- the life of the objects ----

  /** An object comes to life as its parameters say and without anything in it; deleted, it is
      dead. No other object changes. */
  lemma ObjectLife(s: State, c: Call)
    requires Inv(s) && Allowed(s, c) && CreatesOrDeletes(c) && Step(s, c).1 == E_OK
    ensures var o := Step(s, c).0.o;
      match c
      case CCreSem(id, atr, n, m) => 1 <= id <= |s.o.sem| && o == s.o.(sem := s.o.sem[id - 1 := Sem(true, atr, n, m)])
      case CCreFlg(id, atr, p) => 1 <= id <= |s.o.flg| && o == s.o.(flg := s.o.flg[id - 1 := Flg(true, atr, p)])
      case CCreMbx(id, atr) => 1 <= id <= |s.o.mbx| && o == s.o.(mbx := s.o.mbx[id - 1 := Mbx(true, atr, [])])
      case CDelSem(id) =>
        1 <= id <= |s.o.sem| == |o.sem| && !o.sem[id - 1].live &&
        o == s.o.(sem := s.o.sem[id - 1 := o.sem[id - 1]])
      case CDelFlg(id) =>
        1 <= id <= |s.o.flg| == |o.flg| && !o.flg[id - 1].live &&
        o == s.o.(flg := s.o.flg[id - 1 := o.flg[id - 1]])
      case CDelMbx(id) =>
        1 <= id <= |s.o.mbx| == |o.mbx| && !o.mbx[id - 1].live && o.mbx[id - 1].msgs == [] &&
        o == s.o.(mbx := s.o.mbx[id - 1 := o.mbx[id - 1]])
      case _ => true
  {
    hide Inv, Step, Sound;
    LifeReturns(s, c);
    StepOnAll(s, c);
    if c.CCreSem? { Attributes(c.atr); } else if c.CCreFlg? { Attributes(c.atr); } else if c.CCreMbx? { Attributes(c.atr); }
  }
}
