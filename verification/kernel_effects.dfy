/** What one step does to one task and to the objects, in closed form. Everything said
    about single waits, counts and messages rests on this and not on the queues. */
module KernelEffects {
  import opened KQueue
  import opened ReadyQueue
  import opened KernelState
  import opened KernelInv
  import opened KernelCalls
  import opened KernelRuns

  predicate Targets(s: State, id: int, t: nat) { !BadTaskId(s, id) && TaskOf(s, id) == t }

  predicate SemLive(s: State, id: int) { IdIn(id, |s.o.sem|) && s.o.sem[id - 1].live }
  predicate FlgLive(s: State, id: int) { IdIn(id, |s.o.flg|) && s.o.flg[id - 1].live }
  predicate MbxLive(s: State, id: int) { IdIn(id, |s.o.mbx|) && s.o.mbx[id - 1].live }

  predicate MsgRefused(s: State, id: int, m: Msg)
    requires IdIn(id, |s.o.mbx|)
  {
    TaMpri(s.o.mbx[id - 1].atr) && m.pri <= 0
  }

  /** The waiters `set_flg` wakes. */
  function WokenBy(s: State, id: int, ptn: bv32): seq<Node>
    requires IdIn(id, |s.o.flg|)
  {
    var f := s.o.flg[id - 1];
    Woken(s.tcb, At(s.q, FlgQ(id - 1)), BitsSet(f.ptn, ptn), TaClr(f.atr))
  }

  function AfterActivate(x: Tcb): Tcb {
    match x.state
    case NOEXS => x
    case DMT => x.(state := RDY)
    case _ => if x.actcnt < TMAX_ACTCNT then x.(actcnt := x.actcnt + 1) else x
  }

  function AfterExit(x: Tcb): Tcb {
    var d := MakeDormant(x);
    if x.actcnt != 0 then d.(actcnt := x.actcnt - 1, state := RDY) else d
  }

  function AfterSuspend(x: Tcb): Tcb {
    if x.state == NOEXS || x.state == DMT || x.suscnt == TMAX_ACTCNT then x
    else x.(suscnt := x.suscnt + 1, state := if x.state == RDY then SUS else WAS)
  }

  function AfterResume(x: Tcb): Tcb {
    if x.state != SUS && x.state != WAS then x
    else if x.suscnt != 1 then x.(suscnt := x.suscnt - 1)
    else x.(suscnt := 0, state := if x.state == WAS then WAI else RDY)
  }

  function AfterSleep(x: Tcb, tmo: int): Tcb {
    if x.wupcnt > 0 then x.(wupcnt := x.wupcnt - 1, ercd := E_OK)
    else if tmo == TMO_POL then x.(ercd := E_TMOUT)
    else Waits(x.(ercd := E_TMOUT, waitObj := None, tskwait := TTW_SLP), tmo)
  }

  function AfterWakeup(x: Tcb): Tcb {
    if x.state == NOEXS || x.state == DMT then x
    else if Waiting(x) && x.tskwait == TTW_SLP then Released(x.(ercd := E_OK))
    else if x.wupcnt < TMAX_ACTCNT then x.(wupcnt := x.wupcnt + 1)
    else x
  }

  /** The caller of `wai_sem`, the semaphore being live. */
  function AfterWaiSem(x: Tcb, i: nat, y: Sem, tmo: int): Tcb {
    if 0 < y.cnt then x.(ercd := E_OK)
    else if tmo == TMO_POL then x.(ercd := E_TMOUT)
    else Waits(x.(ercd := E_TMOUT, waitObj := Some(SemQ(i))), tmo)
  }

  function AfterWaiFlg(x: Tcb, i: nat, f: Flg, waiptn: bv32, wfmode: nat, tmo: int): Tcb {
    if !f.live then x.(ercd := E_NOEXS)
    else if FlagCond(f.ptn, waiptn, wfmode) then x.(ercd := E_OK, flgOut := f.ptn)
    else if tmo == TMO_POL then x.(ercd := E_TMOUT)
    else Waits(x.(ercd := E_TMOUT, waiptn := waiptn, wfmode := wfmode, waitObj := Some(FlgQ(i))), tmo)
  }

  function AfterRcvMbx(x: Tcb, i: nat, b: Mbx, tmo: int): Tcb {
    if !b.live then x.(ercd := E_NOEXS)
    else if b.msgs != [] then x.(ercd := E_OK, msgOut := Some(b.msgs[0]))
    else if tmo == TMO_POL then x.(ercd := E_TMOUT)
    else Waits(x.(ercd := E_TMOUT, waitObj := Some(MbxQ(i))), tmo)
  }

  /** Task `t` after call `c`. */
  function After(s: State, c: Call, t: nat): Tcb
    requires t < |s.tcb|
  {
    var x := s.tcb[t];
    match c
    case CCreTsk(id, pri) =>
      if id == t + 1 && x.state == NOEXS then MakeDormant(x.(itskpri := PriIndex(pri, s.np), actcnt := 0)) else x
    case CDelTsk(id) =>
      if id == t + 1 && x.state != NOEXS && t != s.run then x.(state := NOEXS, actcnt := 0, waitObj := None) else x
    case CActTsk(id, _) => if Targets(s, id, t) then AfterActivate(x) else x
    case CExtTsk => if t == s.run then AfterExit(x) else x
    case CChgPri(id, p) =>
      if Targets(s, id, t) && (1 <= p <= s.np || p == 0) && x.state != NOEXS && x.state != DMT
      then x.(tskpri := if p == 0 then x.itskpri else p - 1) else x
    case CRotRdq(_) => x
    case CDlyTsk(d) =>
      if t == s.run then Waits(x.(ercd := E_OK, waitObj := None, tskwait := TTW_DLY), ToTmo(d)) else x
    case CSusTsk(id) => if Targets(s, id, t) then AfterSuspend(x) else x
    case CRsmTsk(id) => if Targets(s, id, t) then AfterResume(x) else x
    case CSlpTsk(tmo) => if t == s.run then AfterSleep(x, tmo) else x
    case CWupTsk(id, _) => if Targets(s, id, t) then AfterWakeup(x) else x
    case CCanWup(id) =>
      if Targets(s, id, t) && x.state != NOEXS && x.state != DMT then x.(wupcnt := 0) else x
    case CCreSem(_, _, _, _) => x
    case CDelSem(id) =>
      if SemLive(s, id) && Tsk(t) in At(s.q, SemQ(id - 1)) then Released(x.(ercd := E_DLT)) else x
    case CWaiSem(id, tmo) =>
      if t == s.run && SemLive(s, id) then AfterWaiSem(x, id - 1, s.o.sem[id - 1], tmo) else x
    case CSigSem(id, _) =>
      if SemLive(s, id) && FirstTask(s, SemQ(id - 1)) == t then Released(x.(ercd := E_OK)) else x
    case CCreFlg(_, _, _) => x
    case CDelFlg(id) =>
      if FlgLive(s, id) && Tsk(t) in At(s.q, FlgQ(id - 1)) then Released(x.(ercd := E_DLT)) else x
    case CSetFlg(id, p, _) =>
      if FlgLive(s, id) && Tsk(t) in WokenBy(s, id, p)
      then Released(x.(flgOut := BitsSet(s.o.flg[id - 1].ptn, p), ercd := E_OK)) else x
    case CClrFlg(_, _) => x
    case CWaiFlg(id, p, m, tmo) =>
      if t == s.run && IdIn(id, |s.o.flg|) && (m == 0 || m == 1) && p != 0
      then AfterWaiFlg(x, id - 1, s.o.flg[id - 1], p, m, tmo) else x
    case CCreMbx(_, _) => x
    case CDelMbx(id) =>
      if MbxLive(s, id) && Tsk(t) in At(s.q, MbxQ(id - 1)) then Released(x.(ercd := E_DLT)) else x
    case CSndMbx(id, m) =>
      if MbxLive(s, id) && !MsgRefused(s, id, m) && FirstTask(s, MbxQ(id - 1)) == t
      then Released(x.(msgOut := Some(m), ercd := E_OK)) else x
    case CRcvMbx(id, tmo) =>
      if t == s.run && IdIn(id, |s.o.mbx|) && tmo >= TMO_FEVR
      then AfterRcvMbx(x, id - 1, s.o.mbx[id - 1], tmo) else x
    case CTick => if Wtm(t) in At(s.q, TimerQ) then Ticked(x) else x
    case CDispatch => x
  }

  /** What a call that names a task makes of the task it names. */
  function TargetChange(s: State, c: Call, x: Tcb): Tcb {
    match c
    case CActTsk(_, _) => AfterActivate(x)
    case CChgPri(_, p) =>
      if (1 <= p <= s.np || p == 0) && x.state != NOEXS && x.state != DMT
      then x.(tskpri := if p == 0 then x.itskpri else p - 1) else x
    case CSusTsk(_) => AfterSuspend(x)
    case CRsmTsk(_) => AfterResume(x)
    case CWupTsk(_, _) => AfterWakeup(x)
    case CCanWup(_) => if x.state != NOEXS && x.state != DMT then x.(wupcnt := 0) else x
    case _ => x
  }

  lemma TargetAfter(s: State, c: Call, t: nat)
    requires t < |s.tcb| && TakesTask(c)
    ensures After(s, c, t) == if Targets(s, TaskIdOf(c), t) then TargetChange(s, c, s.tcb[t]) else s.tcb[t]
  {
    hide Targets, AfterActivate, AfterSuspend, AfterResume, AfterWakeup;
  }

  function SemPut(o: Objs, i: nat, x: Sem): Objs
    requires i < |o.sem|
  {
    o.(sem := o.sem[i := x])
  }

  function FlgPut(o: Objs, i: nat, f: Flg): Objs
    requires i < |o.flg|
  {
    o.(flg := o.flg[i := f])
  }

  function MbxPut(o: Objs, i: nat, b: Mbx): Objs
    requires i < |o.mbx|
  {
    o.(mbx := o.mbx[i := b])
  }

  function CntPut(o: Objs, i: nat, n: int): Objs
    requires i < |o.sem|
  {
    SemPut(o, i, o.sem[i].(cnt := n))
  }

  function PtnPut(o: Objs, i: nat, p: bv32): Objs
    requires i < |o.flg|
  {
    FlgPut(o, i, o.flg[i].(ptn := p))
  }

  /** The objects after call `c`. */
  function ObjsAfter(s: State, c: Call): Objs {
    var o := s.o;
    match c
    case CCreSem(id, atr, n, m) => if SemCreated(s, id, atr, n, m) then SemPut(o, id - 1, Sem(true, atr, n, m)) else o
    case CDelSem(id) => if SemLive(s, id) then SemPut(o, id - 1, o.sem[id - 1].(live := false, cnt := 0)) else o
    case CWaiSem(id, _) => if SemLive(s, id) && 0 < o.sem[id - 1].cnt then CntPut(o, id - 1, o.sem[id - 1].cnt - 1) else o
    case CSigSem(id, _) =>
      if SemLive(s, id) && FirstTask(s, SemQ(id - 1)) == NULL && o.sem[id - 1].cnt < o.sem[id - 1].max
      then CntPut(o, id - 1, o.sem[id - 1].cnt + 1) else o
    case CCreFlg(id, atr, p) =>
      if IdIn(id, |o.flg|) && atr & 0x07 == atr && !o.flg[id - 1].live then FlgPut(o, id - 1, Flg(true, atr, p)) else o
    case CDelFlg(id) => if FlgLive(s, id) then FlgPut(o, id - 1, o.flg[id - 1].(live := false, ptn := 0)) else o
    case CSetFlg(id, p, _) =>
      if FlgLive(s, id) then
        PtnPut(o, id - 1, if TaClr(o.flg[id - 1].atr) && WokenBy(s, id, p) != [] then 0 else BitsSet(o.flg[id - 1].ptn, p))
      else o
    case CClrFlg(id, p) => if FlgLive(s, id) then PtnPut(o, id - 1, BitsKept(o.flg[id - 1].ptn, p)) else o
    case CWaiFlg(id, p, m, _) =>
      if FlgLive(s, id) && (m == 0 || m == 1) && p != 0 && FlagCond(o.flg[id - 1].ptn, p, m) && TaClr(o.flg[id - 1].atr)
      then PtnPut(o, id - 1, 0) else o
    case CCreMbx(id, atr) =>
      if IdIn(id, |o.mbx|) && atr & 0x03 == atr && !o.mbx[id - 1].live then MbxPut(o, id - 1, Mbx(true, atr, [])) else o
    case CDelMbx(id) => if MbxLive(s, id) then MbxPut(o, id - 1, o.mbx[id - 1].(live := false, msgs := [])) else o
    case CSndMbx(id, m) =>
      if MbxLive(s, id) && !MsgRefused(s, id, m) && FirstTask(s, MbxQ(id - 1)) == NULL then
        var b := o.mbx[id - 1];
        MbxPut(o, id - 1, b.(msgs := if TaMpri(b.atr) then InsertMsg(b.msgs, m) else b.msgs + [m]))
      else o
    case CRcvMbx(id, tmo) =>
      if MbxLive(s, id) && tmo >= TMO_FEVR && o.mbx[id - 1].msgs != []
      then MbxPut(o, id - 1, o.mbx[id - 1].(msgs := o.mbx[id - 1].msgs[1..])) else o
    case _ => o
  }

  /** State `r` has the control blocks and objects that `After` and `ObjsAfter` give. */
  ghost predicate Effect(s: State, c: Call, r: State) {
    && |r.tcb| == |s.tcb| && r.o == ObjsAfter(s, c)
    && forall t: nat :: t < |s.tcb| ==> r.tcb[t] == After(s, c, t)
  }

  // ---- one lemma per kind of call ----

  lemma CreTskEffect(s: State, id: int, pri: int)
    ensures Effect(s, CCreTsk(id, pri), CreTsk(s, id, pri).0)
  {
    hide Remove;
  }

  lemma DelTskEffect(s: State, id: int)
    ensures Effect(s, CDelTsk(id), DelTsk(s, id).0)
  {
    hide Remove, Append, TopTask;
  }

  lemma ActTskEffect(s: State, id: int, isr: bool)
    requires TaskArg(s, id)
    ensures Effect(s, CActTsk(id, isr), IActTsk(s, id).0)
  {
    hide Append, TopPri;
  }

  lemma ExtTskEffect(s: State)
    requires IsTask(s, s.run)
    ensures Effect(s, CExtTsk, ExtTsk(s))
  {
    hide Append, TopPri, Remove, TopTask;
  }

  lemma ChgPriEffect(s: State, id: int, p: int)
    requires TaskArg(s, id)
    ensures Effect(s, CChgPri(id, p), ChgPri(s, id, p).0)
  {
    hide Append, TopPri, Remove, TopTask;
  }

  lemma RotRdqEffect(s: State, p: int)
    ensures Effect(s, CRotRdq(p), RotRdq(s, p).0)
  {
    hide Rotated, TopPri, TopTask;
  }

  lemma SusTskEffect(s: State, id: int)
    requires TaskArg(s, id)
    ensures Effect(s, CSusTsk(id), SusTsk(s, id).0)
  {
    hide Remove, TopTask;
  }

  lemma RsmTskEffect(s: State, id: int)
    requires TaskArg(s, id)
    ensures Effect(s, CRsmTsk(id), RsmTsk(s, id).0)
  {
    hide Append, TopPri;
  }

  lemma SlpTskEffect(s: State, tmo: int)
    requires Inv(s) && IsTask(s, s.run)
    ensures Effect(s, CSlpTsk(tmo), SlpTsk(s, tmo).0)
  {
    hide Good, SelfWait, TcbOk;
    var c := s.tcb[s.run];
    ScalarsOk(s, s.run);
    WupOk(s.np, c, c.wupcnt, E_TMOUT);
    if c.wupcnt <= 0 && tmo != TMO_POL { SelfWaitGood(s, s.run, c.(ercd := E_TMOUT), TTW_SLP, tmo); }
  }

  lemma DlyTskEffect(s: State, d: nat)
    requires Inv(s) && IsTask(s, s.run)
    ensures Effect(s, CDlyTsk(d), DlyTsk(s, d).0)
  {
    hide Good, SelfWait, TcbOk, ToTmo;
    ScalarsOk(s, s.run);
    ErcdOk(s.np, s.tcb[s.run], E_OK);
    SelfWaitGood(s, s.run, s.tcb[s.run].(ercd := E_OK), TTW_DLY, ToTmo(d));
  }

  lemma WupTskEffect(s: State, id: int, isr: bool)
    requires Inv(s) && TaskArg(s, id)
    ensures Effect(s, CWupTsk(id, isr), IWupTsk(s, id).0)
  {
    hide Good, ReleaseWith;
    if !BadTaskId(s, id) {
      var t := TaskOf(s, id);
      PutSelf(s, t);
      if Waiting(s.tcb[t]) { ReleaseWithGood(s, t, s.tcb[t], E_OK); }
    }
  }

  lemma CanWupEffect(s: State, id: int)
    requires TaskArg(s, id)
    ensures Effect(s, CCanWup(id), CanWup(s, id).0)
  {
  }

  lemma TickEffect(s: State)
    requires Inv(s)
    ensures Effect(s, CTick, Tick(s))
  {
    hide Good, TickAll, Survivors, Ticked;
    TickGood(s);
  }

  lemma CreSemEffect(s: State, id: int, atr: bv16, n: nat, m: nat)
    ensures Effect(s, CCreSem(id, atr, n, m), CreSem(s, id, atr, n, m).0)
  {
    hide Init, Remove;
  }

  lemma DelSemEffect(s: State, id: int)
    requires Inv(s)
    ensures Effect(s, CDelSem(id), DelSem(s, id).0)
  {
    hide Good, ReleaseAll, Append, Released;
    if SemLive(s, id) { ReleaseAllGood(s, SemQ(id - 1)); }
  }

  lemma WaiSemEffect(s: State, id: int, tmo: int)
    requires Inv(s) && IsTask(s, s.run) && (SemLive(s, id) ==> SemQ(id - 1) in s.q)
    ensures Effect(s, CWaiSem(id, tmo), WaiSem(s, id, tmo).0)
  {
    hide Good, ObjMakeWait, TcbOk, TaTpri;
    if SemLive(s, id) && s.o.sem[id - 1].cnt <= 0 && tmo != TMO_POL {
      ScalarsOk(s, s.run);
      SemCount(s, id - 1);
      ErcdOk(s.np, s.tcb[s.run], E_TMOUT);
      ObjMakeWaitGood(s, s.run, s.tcb[s.run].(ercd := E_TMOUT), SemQ(id - 1), tmo);
    }
  }

  lemma SigSemEffect(s: State, id: int, isr: bool)
    requires Inv(s)
    ensures Effect(s, CSigSem(id, isr), ISigSem(s, id).0)
  {
    hide Good, ReleaseWith, FirstTask;
    if SemLive(s, id) {
      FirstTaskIs(s, SemQ(id - 1));
      if FirstTask(s, SemQ(id - 1)) != NULL {
        var t := FirstTask(s, SemQ(id - 1));
        PutSelf(s, t);
        ReleaseWithGood(s, t, s.tcb[t], E_OK);
      }
    }
  }

  lemma CreFlgEffect(s: State, id: int, atr: bv16, p: bv32)
    ensures Effect(s, CCreFlg(id, atr, p), CreFlg(s, id, atr, p).0)
  {
    hide Init;
  }

  lemma DelFlgEffect(s: State, id: int)
    requires Inv(s)
    ensures Effect(s, CDelFlg(id), DelFlg(s, id).0)
  {
    hide Good, ReleaseAll, Released;
    if FlgLive(s, id) { ReleaseAllGood(s, FlgQ(id - 1)); }
  }

  lemma SetFlgEffect(s: State, id: int, p: bv32, isr: bool)
    requires Inv(s)
    ensures Effect(s, CSetFlg(id, p, isr), ISetFlg(s, id, p).0)
  {
    hide Good, Sweep, Released, FlagCond, TaClr, BitsSet, Woken, Unwoken;
    if FlgLive(s, id) {
      var i := id - 1;
      var p' := BitsSet(s.o.flg[i].ptn, p);
      ISetFlgGood(s, id, p);
      PtnTwice(s, i, p', PatternAfter(s.tcb, At(s.q, FlgQ(i)), p', TaClr(s.o.flg[i].atr)));
    }
  }

  lemma ClrFlgEffect(s: State, id: int, p: bv32)
    ensures Effect(s, CClrFlg(id, p), ClrFlg(s, id, p).0)
  {
    hide BitsKept;
  }

  lemma WaiFlgEffect(s: State, id: int, p: bv32, m: nat, tmo: int)
    requires Inv(s) && IsTask(s, s.run) && (IdIn(id, |s.o.flg|) ==> FlgQ(id - 1) in s.q)
    ensures Effect(s, CWaiFlg(id, p, m, tmo), WaiFlg(s, id, p, m, tmo).0)
  {
    hide Good, ObjMakeWait, TcbOk, TaTpri, TaClr, FlagCond;
    if FlgLive(s, id) && (m == 0 || m == 1) && p != 0 && !FlagCond(s.o.flg[id - 1].ptn, p, m) && tmo != TMO_POL {
      ScalarsOk(s, s.run);
      WantOk(s.np, s.tcb[s.run], p, m);
      ObjMakeWaitGood(s, s.run, s.tcb[s.run].(ercd := E_TMOUT, waiptn := p, wfmode := m), FlgQ(id - 1), tmo);
    }
  }

  lemma CreMbxEffect(s: State, id: int, atr: bv16)
    ensures Effect(s, CCreMbx(id, atr), CreMbx(s, id, atr).0)
  {
    hide Init;
  }

  lemma DelMbxEffect(s: State, id: int)
    requires Inv(s)
    ensures Effect(s, CDelMbx(id), DelMbx(s, id).0)
  {
    hide Good, ReleaseAll, Released;
    if MbxLive(s, id) { ReleaseAllGood(s, MbxQ(id - 1)); }
  }

  lemma SndMbxEffect(s: State, id: int, m: Msg)
    requires Inv(s)
    ensures Effect(s, CSndMbx(id, m), SndMbx(s, id, m).0)
  {
    hide Good, ReleaseWith, FirstTask, TaMpri, InsertMsg;
    if MbxLive(s, id) {
      FirstTaskIs(s, MbxQ(id - 1));
      if FirstTask(s, MbxQ(id - 1)) != NULL {
        var t := FirstTask(s, MbxQ(id - 1));
        ReleaseWithGood(s, t, s.tcb[t].(msgOut := Some(m)), E_OK);
      }
    }
  }

  lemma RcvMbxEffect(s: State, id: int, tmo: int)
    requires Inv(s) && IsTask(s, s.run) && (IdIn(id, |s.o.mbx|) ==> MbxQ(id - 1) in s.q)
    ensures Effect(s, CRcvMbx(id, tmo), RcvMbx(s, id, tmo).0)
  {
    hide Good, ObjMakeWait, TcbOk, TaTpri;
    if MbxLive(s, id) && tmo >= TMO_FEVR && s.o.mbx[id - 1].msgs == [] && tmo != TMO_POL {
      ScalarsOk(s, s.run);
      ErcdOk(s.np, s.tcb[s.run], E_TMOUT);
      ObjMakeWaitGood(s, s.run, s.tcb[s.run].(ercd := E_TMOUT), MbxQ(id - 1), tmo);
    }
  }

  lemma EffectDispatched(s: State, c: Call, r: State)
    requires Effect(s, c, r)
    ensures Effect(s, c, Dispatch(r))
  {
    hide After, ObjsAfter;
  }

  lemma TaskCallEffect(s: State, c: Call)
    requires Inv(s) && Allowed(s, c) && !OnObject(c)
    ensures Effect(s, c, Step(s, c).0)
  {
    hide Inv, Effect, Sound, After, ObjsAfter, Step, CreTsk, DelTsk, IActTsk, ExtTsk, ChgPri, RotRdq, DlyTsk,
         SusTsk, RsmTsk, SlpTsk, IWupTsk, CanWup, CreSem, DelSem, WaiSem, ISigSem, CreFlg, DelFlg, ISetFlg, ClrFlg,
         WaiFlg, CreMbx, DelMbx, SndMbx, RcvMbx, Tick;
    StepIs(s, c);
    match c
    case CCreTsk(id, pri) => CreTskEffect(s, id, pri);
    case CDelTsk(id) => DelTskEffect(s, id);
    case CActTsk(id, isr) => ActTskEffect(s, id, isr); EffectDispatched(s, c, IActTsk(s, id).0);
    case CExtTsk => ExtTskEffect(s);
    case CChgPri(id, p) => ChgPriEffect(s, id, p);
    case CRotRdq(p) => RotRdqEffect(s, p);
    case CDlyTsk(d) => DlyTskEffect(s, d);
    case CSusTsk(id) => SusTskEffect(s, id);
    case CRsmTsk(id) => RsmTskEffect(s, id);
    case CSlpTsk(tmo) => SlpTskEffect(s, tmo);
    case CWupTsk(id, isr) => WupTskEffect(s, id, isr); EffectDispatched(s, c, IWupTsk(s, id).0);
    case CCanWup(id) => CanWupEffect(s, id);
    case CTick => TickEffect(s);
    case CDispatch => DispatchEffect(s);
    case _ =>
  }

  lemma LifeCallEffect(s: State, c: Call)
    requires Inv(s) && Allowed(s, c) && CreatesOrDeletes(c)
    ensures Effect(s, c, Step(s, c).0)
  {
    hide Inv, Effect, Sound, After, ObjsAfter, Step, CreTsk, DelTsk, IActTsk, ExtTsk, ChgPri, RotRdq, DlyTsk,
         SusTsk, RsmTsk, SlpTsk, IWupTsk, CanWup, CreSem, DelSem, WaiSem, ISigSem, CreFlg, DelFlg, ISetFlg, ClrFlg,
         WaiFlg, CreMbx, DelMbx, SndMbx, RcvMbx, Tick;
    StepIs(s, c);
    match c
    case CCreSem(id, atr, n, m) => CreSemEffect(s, id, atr, n, m);
    case CDelSem(id) => DelSemEffect(s, id);
    case CCreFlg(id, atr, p) => CreFlgEffect(s, id, atr, p);
    case CDelFlg(id) => DelFlgEffect(s, id);
    case CCreMbx(id, atr) => CreMbxEffect(s, id, atr);
    case CDelMbx(id) => DelMbxEffect(s, id);
    case _ =>
  }

  lemma ObjectCallEffect(s: State, c: Call)
    requires Inv(s) && Allowed(s, c) && OnObject(c) && !CreatesOrDeletes(c)
    ensures Effect(s, c, Step(s, c).0)
  {
    hide Inv, Effect, Sound, After, ObjsAfter, Step, CreTsk, DelTsk, IActTsk, ExtTsk, ChgPri, RotRdq, DlyTsk,
         SusTsk, RsmTsk, SlpTsk, IWupTsk, CanWup, CreSem, DelSem, WaiSem, ISigSem, CreFlg, DelFlg, ISetFlg, ClrFlg,
         WaiFlg, CreMbx, DelMbx, SndMbx, RcvMbx, Tick;
    StepIs(s, c);
    match c
    case CWaiSem(id, tmo) => WaiSemEffect(s, id, tmo);
    case CSigSem(id, isr) => SigSemEffect(s, id, isr); EffectDispatched(s, c, ISigSem(s, id).0);
    case CSetFlg(id, p, isr) => SetFlgEffect(s, id, p, isr); EffectDispatched(s, c, ISetFlg(s, id, p).0);
    case CClrFlg(id, p) => ClrFlgEffect(s, id, p);
    case CWaiFlg(id, p, m, tmo) => WaiFlgEffect(s, id, p, m, tmo);
    case CSndMbx(id, m) => SndMbxEffect(s, id, m);
    case CRcvMbx(id, tmo) => RcvMbxEffect(s, id, tmo);
    case _ =>
  }

  lemma DispatchEffect(s: State)
    ensures Effect(s, CDispatch, Dispatch(s))
  {
  }

  /** Every step has exactly the effect on control blocks and objects that `After` and
      `ObjsAfter` describe. */
  lemma StepEffect(s: State, c: Call)
    requires Inv(s) && Allowed(s, c)
    ensures Effect(s, c, Step(s, c).0)
  {
    hide Inv, Effect, Sound, After, ObjsAfter, Step;
    if CreatesOrDeletes(c) {
      LifeCallEffect(s, c);
    } else if OnObject(c) {
      ObjectCallEffect(s, c);
    } else {
      TaskCallEffect(s, c);
    }
  }
}
