/** The kernel as a state machine: the calls, the states they lead to, and the proof that
    the invariant holds in every state of every run. */
module KernelRuns {
  import opened KQueue
  import opened ReadyQueue
  import opened KernelState
  import opened KernelInv
  import opened KernelCalls

  /** `isr` marks the interrupt-level form, which does not dispatch. */
  datatype Call =
    | CCreTsk(id: int, pri: int)
    | CDelTsk(id: int)
    | CActTsk(id: int, isr: bool)
    | CExtTsk
    | CChgPri(id: int, tskpri: int)
    | CRotRdq(tskpri: int)
    | CDlyTsk(dlytim: nat)
    | CSusTsk(id: int)
    | CRsmTsk(id: int)
    | CSlpTsk(tmo: int)
    | CWupTsk(id: int, isr: bool)
    | CCanWup(id: int)
    | CCreSem(id: int, atr: bv16, isemcnt: nat, maxsem: nat)
    | CDelSem(id: int)
    | CWaiSem(id: int, tmo: int)
    | CSigSem(id: int, isr: bool)
    | CCreFlg(id: int, atr: bv16, ptn: bv32)
    | CDelFlg(id: int)
    | CSetFlg(id: int, ptn: bv32, isr: bool)
    | CClrFlg(id: int, ptn: bv32)
    | CWaiFlg(id: int, ptn: bv32, wfmode: nat, tmo: int)
    | CCreMbx(id: int, atr: bv16)
    | CDelMbx(id: int)
    | CSndMbx(id: int, msg: Msg)
    | CRcvMbx(id: int, tmo: int)
    | CTick
    | CDispatch        // interrupt exit, or the idle loop finding a task

  /** Calls made by the running task on its own behalf. */
  predicate NeedsCaller(c: Call) {
    c.CExtTsk? || c.CDlyTsk? || c.CSlpTsk? || c.CWaiSem? || c.CWaiFlg? || c.CRcvMbx?
  }

  function TaskIdOf(c: Call): int {
    match c
    case CActTsk(id, _) => id
    case CChgPri(id, _) => id
    case CSusTsk(id) => id
    case CRsmTsk(id) => id
    case CWupTsk(id, _) => id
    case CCanWup(id) => id
    case _ => 1
  }

  predicate TakesTask(c: Call) {
    c.CActTsk? || c.CChgPri? || c.CSusTsk? || c.CRsmTsk? || c.CWupTsk? || c.CCanWup?
  }

  /** What makes a call meaningful at all: somebody to make it, and no negative task ID. */
  ghost predicate Callable(s: State, c: Call) {
    && (NeedsCaller(c) ==> IsTask(s, s.run))
    && (TakesTask(c) ==> TaskArg(s, TaskIdOf(c)))
  }

  /** No error check of `cre_sem` applies. */
  predicate SemCreated(s: State, id: int, atr: bv16, isemcnt: nat, maxsem: nat) {
    && IdIn(id, |s.o.sem|) && atr & 0x01 == atr && maxsem <= TMAX_MAXSEM && isemcnt <= TMAX_MAXSEM
    && !s.o.sem[id - 1].live
  }

  /** What the kernel needs from its callers beyond that, because it does not check it:
      a priority in range at creation, an initial count within the maximum, no `chg_pri`
      of a task that is waiting or suspended, no `sus_tsk` of a task that is suspended
      already (unless the call fails because the suspension count is at its limit), no
      `snd_mbx` that would link a packet which is in a message list already. */
  predicate Sound(s: State, c: Call) {
    match c
    case CCreTsk(id, pri) => IdIn(id, |s.tcb|) && s.tcb[id - 1].state == NOEXS ==> 1 <= pri <= s.np
    case CCreSem(id, atr, isemcnt, maxsem) => SemCreated(s, id, atr, isemcnt, maxsem) ==> isemcnt <= maxsem
    case CChgPri(id, p) =>
      !BadTaskId(s, id) && 0 <= TaskOf(s, id) < |s.tcb| && (1 <= p <= s.np || p == 0) ==>
        var st := s.tcb[TaskOf(s, id)].state; st != WAI && st != WAS && st != SUS
    case CSusTsk(id) =>
      !BadTaskId(s, id) && 0 <= TaskOf(s, id) < |s.tcb| && s.tcb[TaskOf(s, id)].state == SUS ==>
        s.tcb[TaskOf(s, id)].suscnt == TMAX_ACTCNT
    case CSndMbx(id, m) =>
      (IdIn(id, |s.o.mbx|) && s.o.mbx[id - 1].live && !(TaMpri(s.o.mbx[id - 1].atr) && m.pri <= 0) &&
       FirstTask(s, MbxQ(id - 1)) == NULL) ==> !InList(s.o.mbx, m.addr)
    case _ => true
  }

  ghost predicate Allowed(s: State, c: Call) { Callable(s, c) && Sound(s, c) }

  function Wrap(r: (State, Er), isr: bool): (State, Er) {
    if isr then r else ThenDispatch(r)
  }

  /** `sig_sem` and `set_flg` dispatch whatever the result. */
  function WrapAlways(r: (State, Er), isr: bool): (State, Er) {
    if isr then r else (Dispatch(r.0), r.1)
  }

  function Step(s: State, c: Call): (State, Er)
    requires Inv(s) && Callable(s, c)
  {
    QueuesExist(s);
    match c
    case CCreTsk(id, pri) => CreTsk(s, id, pri)
    case CDelTsk(id) => DelTsk(s, id)
    case CActTsk(id, isr) => Wrap(IActTsk(s, id), isr)
    case CExtTsk => (ExtTsk(s), E_OK)
    case CChgPri(id, p) => ChgPri(s, id, p)
    case CRotRdq(p) => RotRdq(s, p)
    case CDlyTsk(d) => DlyTsk(s, d)
    case CSusTsk(id) => SusTsk(s, id)
    case CRsmTsk(id) => RsmTsk(s, id)
    case CSlpTsk(tmo) => SlpTsk(s, tmo)
    case CWupTsk(id, isr) => Wrap(IWupTsk(s, id), isr)
    case CCanWup(id) => (CanWup(s, id).0, CanWup(s, id).1)
    case CCreSem(id, atr, n, m) => CreSem(s, id, atr, n, m)
    case CDelSem(id) => DelSem(s, id)
    case CWaiSem(id, tmo) => WaiSem(s, id, tmo)
    case CSigSem(id, isr) => WrapAlways(ISigSem(s, id), isr)
    case CCreFlg(id, atr, p) => CreFlg(s, id, atr, p)
    case CDelFlg(id) => DelFlg(s, id)
    case CSetFlg(id, p, isr) => WrapAlways(ISetFlg(s, id, p), isr)
    case CClrFlg(id, p) => ClrFlg(s, id, p)
    case CWaiFlg(id, p, m, tmo) => WaiFlg(s, id, p, m, tmo)
    case CCreMbx(id, atr) => CreMbx(s, id, atr)
    case CDelMbx(id) => DelMbx(s, id)
    case CSndMbx(id, m) => SndMbx(s, id, m)
    case CRcvMbx(id, tmo) => RcvMbx(s, id, tmo)
    case CTick => (Tick(s), E_OK)
    case CDispatch => (Dispatch(s), E_OK)
  }

  lemma QueuesExist(s: State)
    requires Inv(s)
    ensures forall i: nat :: i < |s.o.sem| && s.o.sem[i].live ==> SemQ(i) in s.q
    ensures forall i: nat :: i < |s.o.flg| ==> FlgQ(i) in s.q
    ensures forall i: nat :: i < |s.o.mbx| ==> MbxQ(i) in s.q
  {
    assert forall h :: IsHead(s.np, s.o, h) ==> h in s.q;
  }

  /** Each call's own function, one by one. */
  lemma StepIs(s: State, c: Call)
    requires Inv(s) && Callable(s, c)
    ensures forall i: nat :: i < |s.o.sem| && s.o.sem[i].live ==> SemQ(i) in s.q
    ensures forall i: nat :: i < |s.o.flg| ==> FlgQ(i) in s.q
    ensures forall i: nat :: i < |s.o.mbx| ==> MbxQ(i) in s.q
    ensures match c
      case CCreTsk(id, pri) => Step(s, c) == CreTsk(s, id, pri)
      case CDelTsk(id) => Step(s, c) == DelTsk(s, id)
      case CActTsk(id, isr) => Step(s, c) == Wrap(IActTsk(s, id), isr)
      case CExtTsk => Step(s, c) == (ExtTsk(s), E_OK)
      case CChgPri(id, p) => Step(s, c) == ChgPri(s, id, p)
      case CRotRdq(p) => Step(s, c) == RotRdq(s, p)
      case CDlyTsk(d) => Step(s, c) == DlyTsk(s, d)
      case CSusTsk(id) => Step(s, c) == SusTsk(s, id)
      case CRsmTsk(id) => Step(s, c) == RsmTsk(s, id)
      case CSlpTsk(tmo) => Step(s, c) == SlpTsk(s, tmo)
      case CWupTsk(id, isr) => Step(s, c) == Wrap(IWupTsk(s, id), isr)
      case CCanWup(id) => Step(s, c) == (CanWup(s, id).0, CanWup(s, id).1)
      case CCreSem(id, atr, n, m) => Step(s, c) == CreSem(s, id, atr, n, m)
      case CDelSem(id) => Step(s, c) == DelSem(s, id)
      case CWaiSem(id, tmo) => Step(s, c) == WaiSem(s, id, tmo)
      case CSigSem(id, isr) => Step(s, c) == WrapAlways(ISigSem(s, id), isr)
      case CCreFlg(id, atr, p) => Step(s, c) == CreFlg(s, id, atr, p)
      case CDelFlg(id) => Step(s, c) == DelFlg(s, id)
      case CSetFlg(id, p, isr) => Step(s, c) == WrapAlways(ISetFlg(s, id, p), isr)
      case CClrFlg(id, p) => Step(s, c) == ClrFlg(s, id, p)
      case CWaiFlg(id, p, m, tmo) => Step(s, c) == WaiFlg(s, id, p, m, tmo)
      case CCreMbx(id, atr) => Step(s, c) == CreMbx(s, id, atr)
      case CDelMbx(id) => Step(s, c) == DelMbx(s, id)
      case CSndMbx(id, m) => Step(s, c) == SndMbx(s, id, m)
      case CRcvMbx(id, tmo) => Step(s, c) == RcvMbx(s, id, tmo)
      case CTick => Step(s, c) == (Tick(s), E_OK)
      case CDispatch => Step(s, c) == (Dispatch(s), E_OK)
  {
    hide Inv, Wrap, WrapAlways, CreTsk, DelTsk, IActTsk, ExtTsk, ChgPri, RotRdq, DlyTsk, SusTsk, RsmTsk, SlpTsk,
         IWupTsk, CanWup, CreSem, DelSem, WaiSem, ISigSem, CreFlg, DelFlg, ISetFlg, ClrFlg, WaiFlg, CreMbx, DelMbx,
         SndMbx, RcvMbx, Tick;
    QueuesExist(s);
  }

  // ---- helpers ----

  /** The running task stays ready when it is not the one whose control block changes. */
  lemma KeepsRun(s: State, r: State)
    requires Inv(s) && Good(r, NULL) && r.run == s.run && |r.tcb| == |s.tcb|
    requires s.run != NULL ==> r.tcb[s.run].state == RDY
    ensures Inv(r)
  {
    hide Good;
  }

  lemma ScalarsOk(s: State, t: nat)
    requires Good(s, NULL) && t < |s.tcb|
    ensures TcbOk(s.np, s.tcb[t])
  {
  }

  // ---- task management ----

  /** A task in no list at all is as good as detached. */
  lemma NowhereDetaches(s: State, t: nat)
    requires Good(s, NULL) && t < |s.tcb| && (s.tcb[t].state == SUS || s.tcb[t].state == DMT)
    ensures Good(s, t) && Unlinked(s.q, Tsk(t)) && Unlinked(s.q, Wtm(t))
  {
    forall h ensures Tsk(t) !in At(s.q, h) && Wtm(t) !in At(s.q, h) { OnlyHome(s, NULL, t, h); }
    NotElem(s.q, Tsk(t));
    NotElem(s.q, Wtm(t));
    ElementsExempt(s.q, s.tcb, s.o, t);
    assert Heads(s.q, s.np, s.o);
  }

  lemma NotElem(q: Rings, e: Node)
    requires forall h :: e !in At(q, h)
    ensures !IsElem(q, e)
  {
    assert forall h :: h in q ==> At(q, h) == q[h];
  }

  lemma FreeDetaches(s: State, t: nat)
    requires Good(s, NULL) && t < |s.tcb| && s.tcb[t].state == NOEXS
    ensures s.(q := Remove(s.q, Tsk(t))) == Detach(s, t)
  {
    forall h ensures Wtm(t) !in At(s.q, h) { OnlyHome(s, NULL, t, h); }
    NotElem(s.q, Wtm(t));
    RemoveAbsent(s.q, Wtm(t));
    CancelDetaches(s, t);
  }

  lemma CreTskInv(s: State, id: int, pri: int)
    requires Inv(s) && Sound(s, CCreTsk(id, pri))
    ensures Inv(CreTsk(s, id, pri).0)
  {
    hide Good, Remove, TopTask, Unlinked;
    if 1 <= id <= |s.tcb| && s.tcb[id - 1].state == NOEXS {
      var t := id - 1;
      var c := MakeDormant(s.tcb[t].(itskpri := PriIndex(pri, s.np), actcnt := 0));
      ScalarsOk(s, t);
      FreeDetaches(s, t);
      DetachGood(s, t);
      PutGood(Detach(s, t), t, c);
      AttachNone(Put(Detach(s, t), t, c), t);
      KeepsRun(s, Put(Detach(s, t), t, c));
    }
  }

  lemma DelTskInv(s: State, id: int)
    requires Inv(s)
    ensures Inv(DelTsk(s, id).0)
  {
    hide Good, Remove, Append, TopTask, Unlinked;
    if 1 <= id <= |s.tcb| && s.tcb[id - 1].state != NOEXS && id - 1 != s.run {
      var t := id - 1;
      var c := s.tcb[t];
      ScalarsOk(s, t);
      var d := if Waiting(c) then WaitCancel(s, t) else if c.state == RDY then MakeUnready(s, t) else s;
      assert Good(d, t) && Unlinked(d.q, Tsk(t)) && Unlinked(d.q, Wtm(t)) by {
        if Waiting(c) { CancelDetaches(s, t); DetachGood(s, t); }
        else if c.state == RDY { UnreadyDetaches(s, t); DetachGood(s, t); }
        else { NowhereDetaches(s, t); }
      }
      var e := c.(state := NOEXS, actcnt := 0, waitObj := None);
      PutGood(d, t, e);
      AttachFree(Put(d, t, e), t);
      var s3 := Put(d, t, e);
      SchedReady(s3.(q := Append(s3.q, Tsk(t), FreeTcb)));
    }
  }

  lemma ReadyFromNowhere(s: State, t: nat, c: Tcb)
    requires Good(s, NULL) && t < |s.tcb| && (s.tcb[t].state == SUS || s.tcb[t].state == DMT)
    requires TcbOk(s.np, c.(state := RDY)) && c.tskpri < s.np
    ensures Good(MakeReady(Put(s, t, c), t), NULL)
  {
    hide Good, Unlinked, TopTask, Append, MakeReady, TcbOk;
    NowhereDetaches(s, t);
    PutGood(s, t, c);
    AttachReady(Put(s, t, c), t);
  }

  lemma IActTskInv(s: State, id: int)
    requires Inv(s) && TaskArg(s, id)
    ensures Inv(IActTsk(s, id).0)
  {
    hide Good, TopTask, Append, MakeReady;
    if !BadTaskId(s, id) {
      var t := TaskOf(s, id);
      var c := s.tcb[t];
      ScalarsOk(s, t);
      if c.state == DMT {
        PutSelf(s, t);
        ReadyFromNowhere(s, t, c);
        MakeReadyTcb(s, t);
        KeepsRun(s, MakeReady(s, t));
      } else if c.state != NOEXS && c.actcnt < TMAX_ACTCNT {
        TweakGood(s, t, c.(actcnt := c.actcnt + 1));
        KeepsRun(s, Put(s, t, c.(actcnt := c.actcnt + 1)));
      }
    }
  }

  lemma MakeReadyTcb(s: State, t: nat)
    requires t < |s.tcb|
    ensures var r := MakeReady(s, t);
      r.tcb == s.tcb[t := s.tcb[t].(state := RDY)] && r.o == s.o && r.run == s.run && r.np == s.np
  {
  }

  lemma ExtTskInv(s: State)
    requires Inv(s) && IsTask(s, s.run)
    ensures Inv(ExtTsk(s))
  {
    hide Good, Unlinked, TopTask, Append, MakeReady, MakeUnready, TcbOk;
    var t := s.run;
    ScalarsOk(s, t);
    UnreadyDetaches(s, t);
    DetachGood(s, t);
    var d := Detach(s, t);
    var c := MakeDormant(d.tcb[t]);
    DormantOk(s.np, s.tcb[t]);
    PutGood(d, t, c);
    if c.actcnt != 0 {
      var c1 := c.(actcnt := c.actcnt - 1);
      PutPut(d, t, c, c1);
      PutGood(d, t, c1);
      AttachReady(Put(d, t, c1), t);
      SchedReady(MakeReady(Put(d, t, c1), t));
    } else {
      AttachNone(Put(d, t, c), t);
      SchedReady(Put(d, t, c));
    }
  }

  lemma DormantOk(np: nat, c: Tcb)
    requires TcbOk(np, c) && c.state == RDY
    ensures MakeDormant(c).tskpri < np
    ensures var d := MakeDormant(c);
      if d.actcnt == 0 then TcbOk(np, d) else TcbOk(np, d.(actcnt := d.actcnt - 1, state := RDY))
  {
  }

  lemma ChgPriInv(s: State, id: int, tskpri: int)
    requires Inv(s) && Allowed(s, CChgPri(id, tskpri))
    ensures Inv(ChgPri(s, id, tskpri).0)
  {
    hide Good, Unlinked, TopTask, TopPri, Append, Remove, TcbOk;
    if !BadTaskId(s, id) && (1 <= tskpri <= s.np || tskpri == 0) && s.tcb[TaskOf(s, id)].state == RDY {
      var t := TaskOf(s, id);
      var p := if tskpri == 0 then s.tcb[t].itskpri else tskpri - 1;
      ScalarsOk(s, t);
      UnreadyDetaches(s, t);
      DetachGood(s, t);
      var c := s.tcb[t].(tskpri := p);
      assert p < s.np && TcbOk(s.np, c.(state := RDY)) by { PriOk(s.np, s.tcb[t], p); }
      PutGood(Detach(s, t), t, c);
      AttachReady(Put(Detach(s, t), t, c), t);
      ChangeIsDetach(s, t, p);
      SchedReady(MakeReady(Put(Detach(s, t), t, c), t));
    }
  }

  lemma PriOk(np: nat, c: Tcb, p: nat)
    requires TcbOk(np, c) && c.state == RDY && (p < np || p == c.itskpri)
    ensures p < np && TcbOk(np, c.(tskpri := p).(state := RDY))
  {
  }

  /** Changing the priority of a ready task is taking it off and making it ready again. */
  lemma ChangeIsDetach(s: State, t: nat, p: nat)
    requires t < |s.tcb| && s.tcb[t].state == RDY && MakeUnready(s, t) == Detach(s, t)
    ensures ChangePri(s, t, p) == MakeReady(Put(Detach(s, t), t, s.tcb[t].(tskpri := p)), t)
  {
    hide TopTask, TopPri, Append, Remove;
    var c := s.tcb[t].(tskpri := p);
    assert c.(state := RDY) == c;
    PutPut(Detach(s, t), t, c, c);
    assert MakeUnready(s, t).q == Remove(s.q, Tsk(t));
  }

  lemma RotatedGood(s: State, p: nat)
    requires Good(s, NULL) && p < s.np
    ensures Line(p) in s.q && Good(Reschedule(s.(q := Rotated(s.q, Line(p)))), NULL)
  {
    hide TcbOk, TopTask, FlagCond, Belongs, Home, Waiting;
    var h := Line(p);
    assert h in s.q by { assert IsHead(s.np, s.o, h); }
    var r := Rotated(s.q, h);
    forall g, n ensures n in At(r, g) <==> n in At(s.q, g) { RotatedIn(s.q, h, g, n); }
    assert forall g :: g in r <==> g in s.q;
    assert Separate(r) by { RotatedSeparate(s.q, h); }
    assert Elements(r, s.tcb, s.o, NULL) by {
      forall g, n | g in r && n in r[g] ensures Belongs(s.tcb, s.o, NULL, n, g) {
        assert n in At(s.q, g);
      }
    }
    assert Heads(r, s.np, s.o);
    assert Placed(r, s.tcb, NULL) by {
      forall u | 0 <= u < |s.tcb| ensures PlacedTask(r, s.tcb[u], u) { assert PlacedTask(s.q, s.tcb[u], u); }
    }
    ObjectsSame(s.q, r, s.tcb, s.o);
    hide Objects, Separate, Heads, Elements, Placed;
  }

  lemma RotatedIn(q: Rings, h: Node, g: Node, n: Node)
    requires h in q
    ensures n in At(Rotated(q, h), g) <==> n in At(q, g)
  {
    if g == h && q[h] != [] {
      assert q[h] == [q[h][0]] + q[h][1..];
    }
  }

  lemma RotatedSeparate(q: Rings, h: Node)
    requires Separate(q) && h in q
    ensures Separate(Rotated(q, h))
  {
    var r := Rotated(q, h);
    forall g, n ensures n in At(r, g) <==> n in At(q, g) { RotatedIn(q, h, g, n); }
    assert forall g, n :: g in r && n in r[g] ==> g in q && n in q[g] by {
      forall g, n | g in r && n in r[g] ensures g in q && n in q[g] { assert n in At(q, g); }
    }
    assert NoDup(r[h]);
  }

  lemma RotRdqInv(s: State, tskpri: int)
    requires Inv(s)
    ensures Inv(RotRdq(s, tskpri).0)
  {
    TopLine(s);
    hide Good, TopTask, Rotated;
    if tskpri == 0 {
      if s.sched != NULL {
        RotatedGood(s, TopPri(s.q, s.np));
        SchedReady(Reschedule(s.(q := Rotated(s.q, Line(TopPri(s.q, s.np))))));
      } else {
        SchedReady(s);
      }
    } else if 1 <= tskpri <= s.np {
      RotatedGood(s, tskpri - 1);
      SchedReady(Reschedule(s.(q := Rotated(s.q, Line(tskpri - 1)))));
    }
  }

  lemma TopLine(s: State)
    requires Inv(s)
    ensures s.sched != NULL ==> TopPri(s.q, s.np) < s.np
  {
  }

  // ---- task-dependent synchronization ----

  lemma DlyTskInv(s: State, dlytim: nat)
    requires Inv(s) && IsTask(s, s.run)
    ensures Inv(DlyTsk(s, dlytim).0)
  {
    hide Good, SelfWait, TcbOk;
    var c := s.tcb[s.run].(ercd := E_OK);
    ScalarsOk(s, s.run);
    ErcdOk(s.np, s.tcb[s.run], E_OK);
    SelfWaitGood(s, s.run, c, TTW_DLY, ToTmo(dlytim));
    SchedReady(SelfWait(Put(s, s.run, c), s.run, TTW_DLY, ToTmo(dlytim)));
  }

  lemma ErcdOk(np: nat, c: Tcb, er: Er)
    requires TcbOk(np, c)
    ensures TcbOk(np, c.(ercd := er)) && Home(c.(ercd := er)) == Home(c)
  {
  }

  /** `sus_tsk` keeps the invariant unless its target is suspended and not waiting. */
  lemma SusTskInv(s: State, id: int)
    requires Inv(s) && Allowed(s, CSusTsk(id))
    ensures Inv(SusTsk(s, id).0)
  {
    hide Good, TcbOk, TopTask, Remove, Unlinked, MakeUnready;
    if !BadTaskId(s, id) {
      var t := TaskOf(s, id);
      var c := s.tcb[t];
      ScalarsOk(s, t);
      if c.state == NOEXS || c.state == DMT || c.suscnt == TMAX_ACTCNT {
        SchedReady(s);
      } else if c.state == RDY {
        var e := c.(suscnt := c.suscnt + 1, state := SUS);
        SuspendOk(s.np, c);
        UnreadyDetaches(s, t);
        DetachGood(s, t);
        PutGood(Detach(s, t), t, e);
        AttachNone(Put(Detach(s, t), t, e), t);
        UnreadyPut(s, t, e);
        SchedReady(Put(Detach(s, t), t, e));
      } else {
        var e := c.(suscnt := c.suscnt + 1, state := WAS);
        SuspendOk(s.np, c);
        TweakGood(s, t, e);
        SchedReady(Put(s, t, e));
      }
    }
  }

  lemma UnreadyPut(s: State, t: nat, c: Tcb)
    requires t < |s.tcb|
    ensures MakeUnready(Put(s, t, c), t) == Put(MakeUnready(s, t), t, c)
  {
  }

  lemma SuspendOk(np: nat, c: Tcb)
    requires TcbOk(np, c) && c.suscnt < TMAX_ACTCNT && (c.state == RDY || Waiting(c))
    ensures var e := c.(suscnt := c.suscnt + 1, state := if c.state == RDY then SUS else WAS);
      TcbOk(np, e) && (Waiting(c) ==> Home(e) == Home(c))
  {
  }

  lemma RsmTskInv(s: State, id: int)
    requires Inv(s) && TaskArg(s, id)
    ensures Inv(RsmTsk(s, id).0)
  {
    hide Good, TcbOk, TopTask, MakeReady;
    if !BadTaskId(s, id) {
      var t := TaskOf(s, id);
      var c := s.tcb[t];
      ScalarsOk(s, t);
      var e := c.(suscnt := c.suscnt - 1);
      if c.state != SUS && c.state != WAS {
        SchedReady(s);
      } else {
        ResumeOk(s.np, c);
        if c.suscnt != 1 {
          TweakGood(s, t, e);
          SchedReady(Put(s, t, e));
        } else if c.state == WAS {
          PutPut(s, t, e, e.(state := WAI));
          TweakGood(s, t, e.(state := WAI));
          SchedReady(Put(s, t, e.(state := WAI)));
        } else {
          ReadyFromNowhere(s, t, e);
          SchedReady(MakeReady(Put(s, t, e), t));
        }
      }
    }
  }

  lemma ResumeOk(np: nat, c: Tcb)
    requires TcbOk(np, c) && (c.state == SUS || c.state == WAS)
    ensures var e := c.(suscnt := c.suscnt - 1);
      && (c.suscnt != 1 ==> TcbOk(np, e) && Home(e) == Home(c))
      && (c.suscnt == 1 && c.state == WAS ==> TcbOk(np, e.(state := WAI)) && Home(e.(state := WAI)) == Home(c))
      && (c.suscnt == 1 && c.state == SUS ==> TcbOk(np, e.(state := RDY)) && e.tskpri < np)
  {
  }

  lemma SlpTskInv(s: State, tmo: int)
    requires Inv(s) && IsTask(s, s.run)
    ensures Inv(SlpTsk(s, tmo).0)
  {
    hide Good, SelfWait, TcbOk;
    var t := s.run;
    var c := s.tcb[t];
    ScalarsOk(s, t);
    ErcdOk(s.np, c, E_TMOUT);
    if c.wupcnt > 0 {
      var e := c.(wupcnt := c.wupcnt - 1, ercd := E_OK);
      WupOk(s.np, c, c.wupcnt - 1, E_OK);
      TweakGood(s, t, e);
      SchedReady(Put(s, t, e));
    } else {
      var e := c.(ercd := E_TMOUT);
      WupOk(s.np, c, c.wupcnt, E_TMOUT);
      TweakGood(s, t, e);
      if tmo == TMO_POL {
        SchedReady(Put(s, t, e));
      } else {
        SelfWaitGood(s, t, e, TTW_SLP, tmo);
        SchedReady(SelfWait(Put(s, t, e), t, TTW_SLP, tmo));
      }
    }
  }

  lemma WupOk(np: nat, c: Tcb, n: int, er: Er)
    requires TcbOk(np, c) && c.state != NOEXS && 0 <= n <= TMAX_ACTCNT && (c.tskwait == TTW_SLP ==> n == 0)
    ensures var e := c.(wupcnt := n, ercd := er); TcbOk(np, e) && Home(e) == Home(c) && 0 <= c.wupcnt
  {
  }

  lemma IWupTskInv(s: State, id: int)
    requires Inv(s) && TaskArg(s, id)
    ensures Inv(IWupTsk(s, id).0)
  {
    hide Good, TcbOk, ReleaseWith;
    if !BadTaskId(s, id) {
      var t := TaskOf(s, id);
      var c := s.tcb[t];
      ScalarsOk(s, t);
      if Waiting(c) && c.tskwait == TTW_SLP {
        PutSelf(s, t);
        ReleaseWithGood(s, t, c, E_OK);
        KeepsRun(s, ReleaseWith(s, t, E_OK));
      } else if c.state != NOEXS && c.state != DMT && c.wupcnt < TMAX_ACTCNT {
        var e := c.(wupcnt := c.wupcnt + 1);
        WakeOk(s.np, c);
        TweakGood(s, t, e);
        KeepsRun(s, Put(s, t, e));
      }
    }
  }

  lemma WakeOk(np: nat, c: Tcb)
    requires TcbOk(np, c) && c.state != NOEXS && c.wupcnt < TMAX_ACTCNT && !(Waiting(c) && c.tskwait == TTW_SLP)
    ensures var e := c.(wupcnt := c.wupcnt + 1); TcbOk(np, e) && Home(e) == Home(c)
  {
  }

  lemma CanWupInv(s: State, id: int)
    requires Inv(s) && TaskArg(s, id)
    ensures Inv(CanWup(s, id).0)
  {
    hide Good, TcbOk;
    if !BadTaskId(s, id) {
      var t := TaskOf(s, id);
      var c := s.tcb[t];
      ScalarsOk(s, t);
      if c.state != NOEXS && c.state != DMT {
        var e := c.(wupcnt := 0);
        WupOk(s.np, c, 0, c.ercd);
        TweakGood(s, t, e);
        KeepsRun(s, Put(s, t, e));
      }
    }
  }

  lemma TickInv(s: State)
    requires Inv(s)
    ensures Inv(Tick(s))
  {
    hide Good, TickAll, Survivors;
    TickGood(s);
    if s.run != NULL && Wtm(s.run) in At(s.q, TimerQ) { TimerTask(s, Wtm(s.run)); }
    KeepsRun(s, Tick(s));
  }

  // ---- semaphores ----

  lemma InFreeSems(s: State, i: nat)
    requires Good(s, NULL) && i < |s.o.sem| && !s.o.sem[i].live
    ensures IsElem(s.q, SemQ(i)) && SemQ(i) in At(s.q, FreeSem) && SemQ(i) !in s.q && At(s.q, SemQ(i)) == []
  {
    assert Heads(s.q, s.np, s.o);
  }

  /** Rings `q` and tables `o` differ from those of `s` in that semaphore `i`, with no
      waiters, has come to life or died, its head moving out of or into the free list. */
  ghost predicate SemMoved(s: State, q: Rings, o: Objs, i: nat)
    requires i < |s.o.sem| == |o.sem|
  {
    && o == s.o.(sem := s.o.sem[i := o.sem[i]])
    && (o.sem[i].live ==> 0 <= o.sem[i].cnt <= o.sem[i].max)
    && (forall h :: h != SemQ(i) ==> (h in q <==> h in s.q))
    && (SemQ(i) in q <==> o.sem[i].live)
    && (forall g :: g != FreeSem ==> At(q, g) == At(s.q, g))
    && At(s.q, SemQ(i)) == []
    && (forall n :: n != SemQ(i) ==> (n in At(q, FreeSem) <==> n in At(s.q, FreeSem)))
    && (SemQ(i) in At(q, FreeSem) <==> !o.sem[i].live)
  }

  lemma SemMovedShape(s: State, q: Rings, o: Objs, i: nat)
    requires Good(s, NULL) && i < |s.o.sem| == |o.sem| && SemMoved(s, q, o, i)
    ensures Heads(q, s.np, o) && Elements(q, s.tcb, o, NULL) && Placed(q, s.tcb, NULL)
  {
    hide TcbOk, TopTask, Home, Waiting, Objects;
    forall h ensures IsHead(s.np, o, h) <==> if h == SemQ(i) then o.sem[i].live else IsHead(s.np, s.o, h) {}
    assert Heads(q, s.np, o) by {
      forall h | h in q && !IsHead(s.np, o, h) ensures (h.Tsk? || h.Wtm?) && q[h] == [] {
        assert h in s.q && At(q, h) == At(s.q, h);
      }
    }
    assert Elements(q, s.tcb, o, NULL) by {
      forall h, n | h in q && n in q[h] ensures Belongs(s.tcb, o, NULL, n, h) {
        assert n in At(q, h);
        if n != SemQ(i) || h != FreeSem { assert n in At(s.q, h) && Belongs(s.tcb, s.o, NULL, n, h); }
      }
    }
    assert Placed(q, s.tcb, NULL) by { SemMovedPlaced(s, q, o, i); }
  }

  lemma SemMovedPlaced(s: State, q: Rings, o: Objs, i: nat)
    requires Good(s, NULL) && i < |s.o.sem| == |o.sem| && SemMoved(s, q, o, i)
    ensures Placed(q, s.tcb, NULL)
  {
    forall u | 0 <= u < |s.tcb| ensures PlacedTask(q, s.tcb[u], u) {
      assert PlacedTask(s.q, s.tcb[u], u);
    }
  }

  lemma SemMovedSorted(s: State, q: Rings, o: Objs, i: nat, g: Node)
    requires Objects(s.q, s.tcb, s.o) && i < |s.o.sem| == |o.sem| && SemMoved(s, q, o, i)
    ensures g in q && IsWaitQ(g) && TaTpri(AtrOf(o, g)) ==> Sorted(s.tcb, q[g])
  {
    hide FlagCond, TaTpri, SemOk, FlgOk, MbxOk;
    if g in q && IsWaitQ(g) && TaTpri(AtrOf(o, g)) {
      assert q[g] == At(q, g);
      if g != SemQ(i) { assert AtrOf(o, g) == AtrOf(s.o, g) && q[g] == s.q[g]; }
    }
  }

  lemma SemMovedTop(s: State, q: Rings, o: Objs, i: nat)
    requires Good(s, NULL) && i < |s.o.sem| == |o.sem| && SemMoved(s, q, o, i)
    ensures TopTask(q, s.np) == s.sched
  {
    hide Separate, Heads, Elements, Placed, Tcbs, Objects, TopTask;
    TopSame(s.q, q, s.np);
  }

  lemma SemMovedEach(s: State, q: Rings, o: Objs, i: nat)
    requires Objects(s.q, s.tcb, s.o) && i < |s.o.sem| == |o.sem| && SemMoved(s, q, o, i)
    ensures forall j :: 0 <= j < |o.sem| ==> SemOk(At(q, SemQ(j)), o.sem[j])
    ensures forall j :: 0 <= j < |o.flg| ==> FlgOk(At(q, FlgQ(j)), s.tcb, o.flg[j])
    ensures forall j :: 0 <= j < |o.mbx| ==> MbxOk(At(q, MbxQ(j)), o.mbx[j])
  {
    hide FlgOk, MbxOk, At, Sorted, TaTpri;
  }

  lemma SemMovedObjects(s: State, q: Rings, o: Objs, i: nat)
    requires Good(s, NULL) && i < |s.o.sem| == |o.sem| && SemMoved(s, q, o, i)
    ensures Objects(q, s.tcb, o) && TopTask(q, s.np) == s.sched
  {
    assert Objects(s.q, s.tcb, s.o);
    assert o.mbx == s.o.mbx;
    hide TaTpri, Good, Sorted, SemOk, FlgOk, MbxOk, TopTask, SemMoved, Packets;
    SemMovedEach(s, q, o, i);
    forall g ensures g in q && IsWaitQ(g) && TaTpri(AtrOf(o, g)) ==> Sorted(s.tcb, q[g]) {
      SemMovedSorted(s, q, o, i, g);
    }
    SemMovedTop(s, q, o, i);
  }

  lemma SemMovedGood(s: State, q: Rings, o: Objs, i: nat)
    requires Good(s, NULL) && i < |s.o.sem| == |o.sem| && SemMoved(s, q, o, i) && Separate(q)
    ensures Good(s.(q := q, o := o), NULL)
  {
    SemMovedShape(s, q, o, i);
    SemMovedObjects(s, q, o, i);
    hide Separate, Heads, Elements, Placed, Objects, SemMoved, TopTask;
  }

  /** Taking a dead semaphore's head out of the free list and making it a queue. */
  lemma CreSemGood(s: State, i: nat, x: Sem)
    requires Good(s, NULL) && i < |s.o.sem| && !s.o.sem[i].live && x.live && 0 <= x.cnt <= x.max
    ensures Good(PutSem(s.(q := Init(Remove(s.q, SemQ(i)), SemQ(i))), i, x), NULL)
  {
    hide Good, Separate, SemMoved, Remove;
    InFreeSems(s, i);
    GoodSeparate(s);
    SeparateRemove(s.q, SemQ(i));
    var q1 := Remove(s.q, SemQ(i));
    RemoveFrom(s.q, SemQ(i), FreeSem);
    NowFree(s.q, SemQ(i), FreeSem);
    NewHead(q1, SemQ(i));
    CreSemMoves(s, i, x);
    SemMovedGood(s, Init(q1, SemQ(i)), PutSem(s, i, x).o, i);
  }

  lemma NowFree(q: Rings, e: Node, h: Node)
    requires Separate(q) && h in q && e in q[h]
    ensures !IsElem(Remove(q, e), e)
  {
  }

  lemma CreSemMoves(s: State, i: nat, x: Sem)
    requires i < |s.o.sem| && !s.o.sem[i].live && x.live && 0 <= x.cnt <= x.max
    requires SemQ(i) !in s.q && FreeSem in s.q && SemQ(i) in s.q[FreeSem]
    requires Remove(s.q, SemQ(i)) == s.q[FreeSem := Without(s.q[FreeSem], SemQ(i))]
    ensures SemMoved(s, Init(Remove(s.q, SemQ(i)), SemQ(i)), PutSem(s, i, x).o, i)
  {
    hide Remove;
  }

  lemma NewHead(q: Rings, e: Node)
    requires Separate(q) && !IsElem(q, e)
    ensures Separate(Init(q, e))
  {
  }

  lemma CreSemInv(s: State, id: int, atr: bv16, isemcnt: nat, maxsem: nat)
    requires Inv(s) && Sound(s, CCreSem(id, atr, isemcnt, maxsem))
    ensures Inv(CreSem(s, id, atr, isemcnt, maxsem).0)
  {
    hide Good;
    if SemCreated(s, id, atr, isemcnt, maxsem) {
      var x := Sem(true, atr, isemcnt, maxsem);
      CreSemGood(s, id - 1, x);
      KeepsRun(s, PutSem(s.(q := Init(Remove(s.q, SemQ(id - 1)), SemQ(id - 1))), id - 1, x));
    }
  }

  /** The other way round, once nobody waits. */
  lemma DelSemGood(s: State, i: nat)
    requires Good(s, NULL) && i < |s.o.sem| && s.o.sem[i].live && At(s.q, SemQ(i)) == []
    ensures Good(PutSem(s.(q := Append(s.q, SemQ(i), FreeSem)), i, s.o.sem[i].(live := false, cnt := 0)), NULL)
  {
    LiveHead(s, i);
    hide Good, Separate, Unlinked;
    var k := |s.q[FreeSem]|;
    AppendIsInsert(s.q, SemQ(i), FreeSem);
    SeparateInsert(s.q, SemQ(i), FreeSem, k) by { assert Separate(s.q) by { GoodSeparate(s); } }
    InInsert(s.q, SemQ(i), FreeSem, k);
    var q := InsertAt(s.q, SemQ(i), FreeSem, k);
    forall g | g != FreeSem ensures At(q, g) == At(s.q, g) { AtInsert(s.q, SemQ(i), FreeSem, k, g); }
    SemMovedGood(s, q, PutSem(s, i, s.o.sem[i].(live := false, cnt := 0)).o, i);
  }

  lemma GoodSeparate(s: State)
    requires Good(s, NULL)
    ensures Separate(s.q)
  {
  }

  lemma LiveHead(s: State, i: nat)
    requires Good(s, NULL) && i < |s.o.sem| && s.o.sem[i].live && At(s.q, SemQ(i)) == []
    ensures FreeSem in s.q && SemQ(i) in s.q && Unlinked(s.q, SemQ(i))
  {
    assert IsHead(s.np, s.o, FreeSem) && IsHead(s.np, s.o, SemQ(i));
    assert Heads(s.q, s.np, s.o) && Separate(s.q);
  }

  lemma DelSemInv(s: State, id: int)
    requires Inv(s)
    ensures Inv(DelSem(s, id).0)
  {
    hide Good, ReleaseAll, Append;
    if IdIn(id, |s.o.sem|) && s.o.sem[id - 1].live {
      var i := id - 1;
      ReleaseAllGood(s, SemQ(i));
      var s1 := ReleaseAll(s, At(s.q, SemQ(i)));
      DelSemGood(s1, i);
      SchedReady(PutSem(s1.(q := Append(s1.q, SemQ(i), FreeSem)), i, s1.o.sem[i].(live := false, cnt := 0)));
    }
  }

  lemma WaiSemInv(s: State, id: int, tmo: int)
    requires Inv(s) && IsTask(s, s.run)
    ensures IdIn(id, |s.o.sem|) && s.o.sem[id - 1].live ==> SemQ(id - 1) in s.q
    ensures Inv(WaiSem(s, id, tmo).0)
  {
    hide Good, TcbOk, ObjMakeWait, TaTpri, FlagCond, TopTask;
    QueuesExist(s);
    if IdIn(id, |s.o.sem|) && s.o.sem[id - 1].live {
      var i, t := id - 1, s.run;
      var x := s.o.sem[i];
      ScalarsOk(s, t);
      SemCount(s, i);
      if 0 < x.cnt {
        var e := s.tcb[t].(ercd := E_OK);
        ErcdOk(s.np, s.tcb[t], E_OK);
        TweakGood(s, t, e);
        PutSemGood(Put(s, t, e), i, x.(cnt := x.cnt - 1));
        SchedReady(PutSem(Put(s, t, e), i, x.(cnt := x.cnt - 1)));
      } else {
        var e := s.tcb[t].(ercd := E_TMOUT);
        ErcdOk(s.np, s.tcb[t], E_TMOUT);
        if tmo == TMO_POL {
          TweakGood(s, t, e);
          SchedReady(Put(s, t, e));
        } else {
          ObjMakeWaitGood(s, t, e, SemQ(i), tmo);
          SchedReady(ObjMakeWait(Put(s, t, e), t, SemQ(i), x.atr, tmo));
        }
      }
    }
  }

  lemma SemCount(s: State, i: nat)
    requires Good(s, NULL) && i < |s.o.sem| && s.o.sem[i].live
    ensures SemOk(At(s.q, SemQ(i)), s.o.sem[i])
  {
  }

  lemma ISigSemInv(s: State, id: int)
    requires Inv(s)
    ensures Inv(ISigSem(s, id).0)
  {
    hide Good, ReleaseWith, FirstTask;
    if IdIn(id, |s.o.sem|) && s.o.sem[id - 1].live {
      var i := id - 1;
      var x := s.o.sem[i];
      FirstTaskIs(s, SemQ(i));
      SemCount(s, i);
      if FirstTask(s, SemQ(i)) != NULL {
        var t := FirstTask(s, SemQ(i));
        PutSelf(s, t);
        ReleaseWithGood(s, t, s.tcb[t], E_OK);
        KeepsRun(s, ReleaseWith(s, t, E_OK));
      } else if x.cnt < x.max {
        PutSemGood(s, i, x.(cnt := x.cnt + 1));
        KeepsRun(s, PutSem(s, i, x.(cnt := x.cnt + 1)));
      }
    }
  }

  // ---- eventflags ----

  lemma FlagParts(s: State, i: nat)
    requires Good(s, NULL) && i < |s.o.flg|
    ensures FlgQ(i) in s.q && FlgOk(At(s.q, FlgQ(i)), s.tcb, s.o.flg[i])
  {
    assert IsHead(s.np, s.o, FlgQ(i));
  }

  lemma InitEmpty(q: Rings, h: Node)
    requires h in q && At(q, h) == []
    ensures Init(q, h) == q
  {
  }

  lemma CreFlgInv(s: State, id: int, atr: bv16, ptn: bv32)
    requires Inv(s)
    ensures Inv(CreFlg(s, id, atr, ptn).0)
  {
    hide Good, Init, FlagCond;
    if IdIn(id, |s.o.flg|) && !s.o.flg[id - 1].live {
      FlagParts(s, id - 1);
      InitEmpty(s.q, FlgQ(id - 1));
      PutFlgGood(s, id - 1, Flg(true, atr, ptn));
      KeepsRun(s, PutFlg(s, id - 1, Flg(true, atr, ptn)));
    }
  }

  lemma SweepWith(s: State, i: nat, p: bv32)
    requires Good(s, NULL) && i < |s.o.flg| && s.o.flg[i].live
    ensures Swept(WithPtn(s, i, p), i, [], At(s.q, FlgQ(i)), Sweep(WithPtn(s, i, p), i, At(s.q, FlgQ(i))))
  {
    hide Good, Swept, Sweep, FlagCond, Woken, Unwoken;
    var f := s.o.flg[i];
    PtnTwice(s, i, p, f.ptn);
    assert WithPtn(s, i, f.ptn) == s by { assert s.o.flg[i := f] == s.o.flg; }
    assert [] + At(s.q, FlgQ(i)) == At(s.q, FlgQ(i));
    SweepGood(WithPtn(s, i, p), i, [], At(s.q, FlgQ(i)), f.ptn);
  }

  lemma ISetFlgGood(s: State, id: int, setptn: bv32)
    requires Inv(s) && IdIn(id, |s.o.flg|) && s.o.flg[id - 1].live
    ensures var i := id - 1; var p := BitsSet(s.o.flg[i].ptn, setptn);
      Swept(WithPtn(s, i, p), i, [], At(s.q, FlgQ(i)), ISetFlg(s, id, setptn).0)
  {
    hide Good, Swept, Sweep;
    SweepWith(s, id - 1, BitsSet(s.o.flg[id - 1].ptn, setptn));
  }

  lemma ISetFlgInv(s: State, id: int, setptn: bv32)
    requires Inv(s)
    ensures Inv(ISetFlg(s, id, setptn).0)
  {
    hide Good, Sweep, FlagCond, Woken, Unwoken, Released;
    if IdIn(id, |s.o.flg|) && s.o.flg[id - 1].live {
      var i := id - 1;
      var f := s.o.flg[i];
      ISetFlgGood(s, id, setptn);
      if s.run != NULL {
        WokenIn(s.tcb, At(s.q, FlgQ(i)), BitsSet(f.ptn, setptn), TaClr(f.atr));
        if Tsk(s.run) in At(s.q, FlgQ(i)) { HomeOfWaiter(s, s.run, FlgQ(i)); }
      }
      KeepsRun(s, ISetFlg(s, id, setptn).0);
    }
  }

  lemma FewerBits(p: bv32, clrptn: bv32, waiptn: bv32, wfmode: nat)
    requires !FlagCond(p, waiptn, wfmode)
    ensures !FlagCond(p & clrptn, waiptn, wfmode)
  {
    OrFewer(p, clrptn, waiptn);
    AndFewer(p, clrptn, waiptn);
  }

  lemma OrFewer(p: bv32, c: bv32, w: bv32)
    ensures p & w == 0 ==> (p & c) & w == 0
  {
  }

  lemma AndFewer(p: bv32, c: bv32, w: bv32)
    ensures (p & c) & w == w ==> p & w == w
  {
  }

  lemma PatternKept(s: State, i: nat, p: bv32)
    requires Inv(s) && i < |s.o.flg| && s.o.flg[i].live
    requires forall waiptn, wfmode :: !FlagCond(s.o.flg[i].ptn, waiptn, wfmode) && waiptn != 0 ==> !FlagCond(p, waiptn, wfmode)
    ensures Inv(PutFlg(s, i, s.o.flg[i].(ptn := p)))
  {
    hide Good, FlagCond;
    FlagParts(s, i);
    PutFlgGood(s, i, s.o.flg[i].(ptn := p));
    KeepsRun(s, PutFlg(s, i, s.o.flg[i].(ptn := p)));
  }

  lemma ClrFlgInv(s: State, id: int, clrptn: bv32)
    requires Inv(s)
    ensures Inv(ClrFlg(s, id, clrptn).0)
  {
    hide Inv, FlagCond;
    if IdIn(id, |s.o.flg|) && s.o.flg[id - 1].live {
      var p := s.o.flg[id - 1].ptn;
      forall waiptn, wfmode | !FlagCond(p, waiptn, wfmode) ensures !FlagCond(p & clrptn, waiptn, wfmode) {
        FewerBits(p, clrptn, waiptn, wfmode);
      }
      PatternKept(s, id - 1, p & clrptn);
    }
  }

  lemma WaiFlgInv(s: State, id: int, waiptn: bv32, wfmode: nat, tmo: int)
    requires Inv(s) && IsTask(s, s.run)
    ensures IdIn(id, |s.o.flg|) ==> FlgQ(id - 1) in s.q
    ensures Inv(WaiFlg(s, id, waiptn, wfmode, tmo).0)
  {
    hide Good, TcbOk, ObjMakeWait, TaTpri, TaClr, FlagCond, TopTask;
    QueuesExist(s);
    if IdIn(id, |s.o.flg|) && (wfmode == 0 || wfmode == 1) && waiptn != 0 {
      var i, t := id - 1, s.run;
      var f, c := s.o.flg[i], s.tcb[t];
      ScalarsOk(s, t);
      ErcdOk(s.np, c, E_NOEXS);
      ErcdOk(s.np, c, E_ILUSE);
      ErcdOk(s.np, c, E_TMOUT);
      if !f.live {
        CallerPut(s, c.(ercd := E_NOEXS));
      } else if At(s.q, FlgQ(i)) != [] && TaWsgl(f.atr) {
        CallerPut(s, c.(ercd := E_ILUSE));
      } else if FlagCond(f.ptn, waiptn, wfmode) {
        var e := c.(ercd := E_OK, flgOut := f.ptn);
        OutOk(s.np, c, E_OK, f.ptn, c.msgOut);
        CallerPut(s, e);
        if TaClr(f.atr) { ClearGood(Put(s, t, e), i); }
      } else if tmo == TMO_POL {
        CallerPut(s, c.(ercd := E_TMOUT));
      } else {
        var e := c.(ercd := E_TMOUT, waiptn := waiptn, wfmode := wfmode);
        WantOk(s.np, c, waiptn, wfmode);
        ObjMakeWaitGood(s, t, e, FlgQ(i), tmo);
        SchedReady(ObjMakeWait(Put(s, t, e), t, FlgQ(i), f.atr, tmo));
      }
    }
  }

  /** The caller's own control block changes, but not where it is. */
  lemma CallerPut(s: State, c: Tcb)
    requires Inv(s) && IsTask(s, s.run) && TcbOk(s.np, c) && c.state == RDY
    requires var d := s.tcb[s.run]; c.tskpri == d.tskpri && c.waitObj == d.waitObj && c.waiptn == d.waiptn && c.wfmode == d.wfmode
    ensures Inv(Put(s, s.run, c))
  {
    hide Good, TcbOk;
    TweakGood(s, s.run, c);
    KeepsRun(s, Put(s, s.run, c));
  }

  lemma OutOk(np: nat, c: Tcb, er: Er, p: bv32, m: Option<Msg>)
    requires TcbOk(np, c)
    ensures TcbOk(np, c.(ercd := er, flgOut := p, msgOut := m))
  {
  }

  lemma WantOk(np: nat, c: Tcb, waiptn: bv32, wfmode: nat)
    requires TcbOk(np, c) && wfmode <= 1
    ensures TcbOk(np, c.(ercd := E_TMOUT, waiptn := waiptn, wfmode := wfmode))
  {
  }

  lemma ClearGood(s: State, i: nat)
    requires Inv(s) && i < |s.o.flg| && s.o.flg[i].live
    ensures Inv(PutFlg(s, i, s.o.flg[i].(ptn := 0)))
  {
    hide Inv, FlagCond;
    forall waiptn, wfmode | waiptn != 0 ensures !FlagCond(0, waiptn, wfmode) {
      ZeroPattern(waiptn, wfmode);
    }
    PatternKept(s, i, 0);
  }

  lemma DelFlgInv(s: State, id: int)
    requires Inv(s)
    ensures Inv(DelFlg(s, id).0)
  {
    hide Good, ReleaseAll, FlagCond;
    if IdIn(id, |s.o.flg|) && s.o.flg[id - 1].live {
      var i := id - 1;
      ReleaseAllGood(s, FlgQ(i));
      var s1 := ReleaseAll(s, At(s.q, FlgQ(i)));
      PutFlgGood(s1, i, s.o.flg[i].(live := false, ptn := 0));
      SchedReady(PutFlg(s1, i, s.o.flg[i].(live := false, ptn := 0)));
    }
  }

  // ---- mailboxes ----

  lemma MailParts(s: State, i: nat)
    requires Good(s, NULL) && i < |s.o.mbx|
    ensures MbxQ(i) in s.q && MbxOk(At(s.q, MbxQ(i)), s.o.mbx[i])
  {
    assert IsHead(s.np, s.o, MbxQ(i));
  }

  lemma PacketsOf(s: State)
    requires Good(s, NULL)
    ensures Packets(s.o.mbx)
  {
    hide Packets;
  }

  /** The list after a send nobody was waiting for is the old one with the packet put in. */
  lemma QueuedAt(b: Mbx, m: Msg) returns (k: nat)
    ensures k <= |b.msgs|
    ensures (if TaMpri(b.atr) then InsertMsg(b.msgs, m) else b.msgs + [m]) == b.msgs[..k] + [m] + b.msgs[k..]
  {
    hide TaMpri, InsertMsg;
    InsertMsgAt(b.msgs, m);
    k := if TaMpri(b.atr) then MsgPos(b.msgs, m.pri) else |b.msgs|;
    assert b.msgs[..|b.msgs|] + [m] + b.msgs[|b.msgs|..] == b.msgs + [m];
  }

  lemma CreMbxInv(s: State, id: int, atr: bv16)
    requires Inv(s)
    ensures Inv(CreMbx(s, id, atr).0)
  {
    hide Good, Init;
    if IdIn(id, |s.o.mbx|) && !s.o.mbx[id - 1].live {
      MailParts(s, id - 1);
      InitEmpty(s.q, MbxQ(id - 1));
      PacketsOf(s);
      PacketsFewer(s.o.mbx, id - 1, Mbx(true, atr, []), |s.o.mbx[id - 1].msgs|);
      PutMbxGood(s, id - 1, Mbx(true, atr, []));
      KeepsRun(s, PutMbx(s, id - 1, Mbx(true, atr, [])));
    }
  }

  lemma SndMbxInv(s: State, id: int, m: Msg)
    requires Inv(s) && Sound(s, CSndMbx(id, m))
    ensures Inv(SndMbx(s, id, m).0)
  {
    hide Good, ReleaseWith, FirstTask, TaMpri, Packets, InList, InsertMsg;
    SchedReady(s);
    if IdIn(id, |s.o.mbx|) && s.o.mbx[id - 1].live {
      var i := id - 1;
      var b := s.o.mbx[i];
      FirstTaskIs(s, MbxQ(i));
      if TaMpri(b.atr) && m.pri <= 0 {
      } else if FirstTask(s, MbxQ(i)) != NULL {
        var t := FirstTask(s, MbxQ(i));
        var c := s.tcb[t].(msgOut := Some(m));
        ReleaseWithGood(s, t, c, E_OK);
        SchedReady(ReleaseWith(Put(s, t, c), t, E_OK));
      } else {
        var b' := b.(msgs := if TaMpri(b.atr) then InsertMsg(b.msgs, m) else b.msgs + [m]);
        PacketsOf(s);
        var k := QueuedAt(b, m);
        PacketsMore(s.o.mbx, i, b', m, k);
        PutMbxGood(s, i, b');
        SchedReady(PutMbx(s, i, b'));
      }
    }
  }

  lemma RcvMbxInv(s: State, id: int, tmo: int)
    requires Inv(s) && IsTask(s, s.run)
    ensures IdIn(id, |s.o.mbx|) ==> MbxQ(id - 1) in s.q
    ensures Inv(RcvMbx(s, id, tmo).0)
  {
    hide Good, TcbOk, ObjMakeWait, TaTpri, TopTask;
    QueuesExist(s);
    if IdIn(id, |s.o.mbx|) && tmo >= TMO_FEVR {
      var i, t := id - 1, s.run;
      var b, c := s.o.mbx[i], s.tcb[t];
      ScalarsOk(s, t);
      ErcdOk(s.np, c, E_NOEXS);
      ErcdOk(s.np, c, E_TMOUT);
      if !b.live {
        CallerPut(s, c.(ercd := E_NOEXS));
      } else if b.msgs != [] {
        var e := c.(ercd := E_OK, msgOut := Some(b.msgs[0]));
        OutOk(s.np, c, E_OK, c.flgOut, Some(b.msgs[0]));
        CallerPut(s, e);
        MailParts(s, i);
        PacketsOf(s);
        PacketsFewer(s.o.mbx, i, b.(msgs := b.msgs[1..]), 1);
        PutMbxGood(Put(s, t, e), i, b.(msgs := b.msgs[1..]));
        KeepsRun(s, PutMbx(Put(s, t, e), i, b.(msgs := b.msgs[1..])));
      } else if tmo == TMO_POL {
        CallerPut(s, c.(ercd := E_TMOUT));
      } else {
        var e := c.(ercd := E_TMOUT);
        ObjMakeWaitGood(s, t, e, MbxQ(i), tmo);
        SchedReady(ObjMakeWait(Put(s, t, e), t, MbxQ(i), b.atr, tmo));
      }
    }
  }

  lemma DelMbxInv(s: State, id: int)
    requires Inv(s)
    ensures Inv(DelMbx(s, id).0)
  {
    hide Good, ReleaseAll;
    if IdIn(id, |s.o.mbx|) && s.o.mbx[id - 1].live {
      var i := id - 1;
      ReleaseAllGood(s, MbxQ(i));
      var s1 := ReleaseAll(s, At(s.q, MbxQ(i)));
      PacketsOf(s1);
      PacketsFewer(s1.o.mbx, i, s.o.mbx[i].(live := false, msgs := []), |s1.o.mbx[i].msgs|);
      PutMbxGood(s1, i, s.o.mbx[i].(live := false, msgs := []));
      SchedReady(PutMbx(s1, i, s.o.mbx[i].(live := false, msgs := [])));
    }
  }

  // ---- every step, every run ----

  lemma DispatchInv(s: State)
    requires Inv(s)
    ensures Inv(Dispatch(s))
  {
    SchedReady(s);
  }

  predicate OnObject(c: Call) {
    c.CCreSem? || c.CDelSem? || c.CWaiSem? || c.CSigSem? || c.CCreFlg? || c.CDelFlg? || c.CSetFlg? || c.CClrFlg? ||
    c.CWaiFlg? || c.CCreMbx? || c.CDelMbx? || c.CSndMbx? || c.CRcvMbx?
  }

  lemma TaskCallInv(s: State, c: Call)
    requires Inv(s) && Allowed(s, c) && !OnObject(c)
    ensures Inv(Step(s, c).0)
  {
    hide Inv, Step, CreTsk, DelTsk, IActTsk, ExtTsk, ChgPri, RotRdq, DlyTsk, SusTsk, RsmTsk, SlpTsk, IWupTsk, CanWup, CreSem,
         DelSem, WaiSem, ISigSem, CreFlg, DelFlg, ISetFlg, ClrFlg, WaiFlg, CreMbx, DelMbx, SndMbx, RcvMbx, Tick;
    StepIs(s, c);
    match c
    case CCreTsk(id, pri) => CreTskInv(s, id, pri);
    case CDelTsk(id) => DelTskInv(s, id);
    case CActTsk(id, isr) => IActTskInv(s, id); DispatchInv(IActTsk(s, id).0);
    case CExtTsk => ExtTskInv(s);
    case CChgPri(id, p) => ChgPriInv(s, id, p);
    case CRotRdq(p) => RotRdqInv(s, p);
    case CDlyTsk(d) => DlyTskInv(s, d);
    case CSusTsk(id) => SusTskInv(s, id);
    case CRsmTsk(id) => RsmTskInv(s, id);
    case CSlpTsk(tmo) => SlpTskInv(s, tmo);
    case CWupTsk(id, isr) => IWupTskInv(s, id); DispatchInv(IWupTsk(s, id).0);
    case CCanWup(id) => CanWupInv(s, id);
    case CTick => TickInv(s);
    case CDispatch => DispatchInv(s);
    case _ =>
  }

  predicate CreatesOrDeletes(c: Call) {
    c.CCreSem? || c.CDelSem? || c.CCreFlg? || c.CDelFlg? || c.CCreMbx? || c.CDelMbx?
  }

  lemma LifeCallInv(s: State, c: Call)
    requires Inv(s) && Allowed(s, c) && CreatesOrDeletes(c)
    ensures Inv(Step(s, c).0)
  {
    hide Inv, Step, CreTsk, DelTsk, IActTsk, ExtTsk, ChgPri, RotRdq, DlyTsk, SusTsk, RsmTsk, SlpTsk, IWupTsk, CanWup, CreSem,
         DelSem, WaiSem, ISigSem, CreFlg, DelFlg, ISetFlg, ClrFlg, WaiFlg, CreMbx, DelMbx, SndMbx, RcvMbx, Tick;
    StepIs(s, c);
    match c
    case CCreSem(id, atr, n, m) => CreSemInv(s, id, atr, n, m);
    case CDelSem(id) => DelSemInv(s, id);
    case CCreFlg(id, atr, p) => CreFlgInv(s, id, atr, p);
    case CDelFlg(id) => DelFlgInv(s, id);
    case CCreMbx(id, atr) => CreMbxInv(s, id, atr);
    case CDelMbx(id) => DelMbxInv(s, id);
    case _ =>
  }

  lemma ObjectCallInv(s: State, c: Call)
    requires Inv(s) && Allowed(s, c) && OnObject(c) && !CreatesOrDeletes(c)
    ensures Inv(Step(s, c).0)
  {
    hide Inv, Step, CreTsk, DelTsk, IActTsk, ExtTsk, ChgPri, RotRdq, DlyTsk, SusTsk, RsmTsk, SlpTsk, IWupTsk, CanWup, CreSem,
         DelSem, WaiSem, ISigSem, CreFlg, DelFlg, ISetFlg, ClrFlg, WaiFlg, CreMbx, DelMbx, SndMbx, RcvMbx, Tick;
    StepIs(s, c);
    match c
    case CWaiSem(id, tmo) => WaiSemInv(s, id, tmo);
    case CSigSem(id, isr) => ISigSemInv(s, id); DispatchInv(ISigSem(s, id).0);
    case CSetFlg(id, p, isr) => ISetFlgInv(s, id, p); DispatchInv(ISetFlg(s, id, p).0);
    case CClrFlg(id, p) => ClrFlgInv(s, id, p);
    case CWaiFlg(id, p, m, tmo) => WaiFlgInv(s, id, p, m, tmo);
    case CSndMbx(id, m) => SndMbxInv(s, id, m);
    case CRcvMbx(id, tmo) => RcvMbxInv(s, id, tmo);
    case _ =>
  }

  /** Every call a caller may make, and every tick, keeps the global invariant. */
  lemma StepInv(s: State, c: Call)
    requires Inv(s) && Allowed(s, c)
    ensures Inv(Step(s, c).0)
  {
    hide Inv, Step, Callable, Sound;
    if CreatesOrDeletes(c) {
      LifeCallInv(s, c);
    } else if OnObject(c) {
      ObjectCallInv(s, c);
    } else {
      TaskCallInv(s, c);
    }
  }
}
