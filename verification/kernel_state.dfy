/** The kernel's data and, for every service call, the state it leaves behind.

    A `State` is what the tables, queues and task pointers of the kernel amount to.
    Each call is an atomic step, because its body is one critical section followed by
    `dispatch`. The imperative kernel in kernel.dfy is proved to take these steps. */
module KernelState {
  import opened KQueue
  import opened ReadyQueue

  datatype Option<+T> = None | Some(value: T)

  // TTS_RUN is never stored: the running task stays RDY in its priority line.
  datatype TState = NOEXS | RDY | WAI | SUS | WAS | DMT

  datatype Why = NotSleeping | TTW_SLP | TTW_DLY

  datatype Er = E_OK | E_PAR | E_ID | E_RSATR | E_ILUSE | E_OBJ | E_NOEXS | E_QOVR | E_TMOUT | E_DLT

  /** A message packet: its address and the priority in its header. */
  datatype Msg = Msg(addr: nat, pri: int)

  datatype Tcb = Tcb(
    state: TState,
    itskpri: nat, tskpri: nat,
    actcnt: int, wupcnt: int, suscnt: int,
    tskwait: Why,
    waitObj: Option<Node>,      // the object's wait queue; None for sleep and delay
    ercd: Er,
    waiptn: bv32, wfmode: nat,
    flgOut: bv32,               // what p_flgptn points to
    msgOut: Option<Msg>,        // what ppk_msg points to
    count: nat                  // wtmeb.count, an unsigned 32-bit number
  )

  datatype Sem = Sem(live: bool, atr: bv16, cnt: int, max: int)
  datatype Flg = Flg(live: bool, atr: bv16, ptn: bv32)
  datatype Mbx = Mbx(live: bool, atr: bv16, msgs: seq<Msg>)

  /** The object tables. */
  datatype Objs = Objs(sem: seq<Sem>, flg: seq<Flg>, mbx: seq<Mbx>)

  datatype State = State(q: Rings, np: nat, tcb: seq<Tcb>, o: Objs, run: int, sched: int)

  function PutSem(s: State, i: nat, x: Sem): State
    requires i < |s.o.sem|
  {
    s.(o := s.o.(sem := s.o.sem[i := x]))
  }

  function PutFlg(s: State, i: nat, x: Flg): State
    requires i < |s.o.flg|
  {
    s.(o := s.o.(flg := s.o.flg[i := x]))
  }

  function PutMbx(s: State, i: nat, x: Mbx): State
    requires i < |s.o.mbx|
  {
    s.(o := s.o.(mbx := s.o.mbx[i := x]))
  }

  const TMAX_ACTCNT: nat := 15
  const TMAX_MAXSEM: nat := 32
  const TMO_POL: int := 0
  const TMO_FEVR: int := -1

  predicate TaTpri(atr: bv16) { atr & 0x01 != 0 }
  predicate TaClr(atr: bv16) { atr & 0x04 != 0 }
  predicate TaWsgl(atr: bv16) { atr & 0x00 != 0 }
  predicate TaMpri(atr: bv16) { atr & 0x03 != 0 }

  predicate Waiting(c: Tcb) { c.state == WAI || c.state == WAS }

  function U32(x: int): nat { x % 0x1_0000_0000 }

  /** Conversion of an unsigned delay to the 16-bit signed TMO. */
  function ToTmo(x: nat): int {
    var h := x % 0x1_0000;
    if h < 0x8000 then h else h - 0x1_0000
  }

  ghost predicate IsTask(s: State, t: int) { 0 <= t < |s.tcb| }

  function Put(s: State, t: nat, c: Tcb): State
    requires t < |s.tcb|
  {
    s.(tcb := s.tcb[t := c])
  }

  // ---- task.c ----

  function MakeReady(s: State, t: nat): State
    requires t < |s.tcb|
  {
    var pri := s.tcb[t].tskpri;
    Put(s, t, s.tcb[t].(state := RDY)).(
      q := Append(s.q, Tsk(t), Line(pri)),
      sched := if pri < TopPri(s.q, s.np) then t else s.sched)
  }

  function MakeUnready(s: State, t: nat): State {
    var q := Remove(s.q, Tsk(t));
    s.(q := q, sched := if s.sched == t then TopTask(q, s.np) else s.sched)
  }

  function ChangePri(s: State, t: nat, pri: nat): State
    requires t < |s.tcb|
  {
    var q := Remove(s.q, Tsk(t));
    Put(s, t, s.tcb[t].(tskpri := pri)).(
      q := Append(q, Tsk(t), Line(pri)),
      sched := if pri < TopPri(q, s.np) then t else TopTask(q, s.np))
  }

  function MakeDormant(c: Tcb): Tcb {
    c.(state := DMT, tskpri := c.itskpri, wupcnt := 0, suscnt := 0, tskwait := NotSleeping)
  }

  function Dispatch(s: State): State { s.(run := s.sched) }

  // ---- wait.h, wait.c, timer.c ----

  function LeaveWait(s: State, t: nat): State
    requires t < |s.tcb|
  {
    var s1 := Put(s, t, s.tcb[t].(tskwait := NotSleeping));
    if s.tcb[t].state == WAI then MakeReady(s1, t) else Put(s1, t, s1.tcb[t].(state := SUS))
  }

  function WaitCancel(s: State, t: nat): State {
    s.(q := Remove(Remove(s.q, Wtm(t)), Tsk(t)))
  }

  function WaitRelease(s: State, t: nat): State
    requires t < |s.tcb|
  {
    LeaveWait(WaitCancel(s, t), t)
  }

  /** End the wait of `t` with error code `er`. */
  function ReleaseWith(s: State, t: nat, er: Er): State
    requires t < |s.tcb|
  {
    WaitRelease(Put(s, t, s.tcb[t].(ercd := er)), t)
  }

  function ReleaseTmout(s: State, t: nat): State
    requires t < |s.tcb|
  {
    LeaveWait(s.(q := Remove(s.q, Tsk(t))), t)
  }

  function TimerInsert(s: State, t: nat, tmo: int): State
    requires t < |s.tcb|
  {
    if tmo == TMO_FEVR then s.(q := Init(s.q, Wtm(t)))
    else Put(s, t, s.tcb[t].(count := U32(tmo))).(q := Append(s.q, Wtm(t), TimerQ))
  }

  function MakeWait(s: State, t: nat, tmo: int): State
    requires t < |s.tcb|
  {
    var s1 :=
      match s.tcb[t].state
      case RDY => Put(MakeUnready(s, t), t, s.tcb[t].(state := WAI))
      case SUS => Put(s, t, s.tcb[t].(state := WAS))
      case _ => s;
    TimerInsert(s1, t, tmo)
  }

  function PriOf(tcb: seq<Tcb>, n: Node): nat {
    if n.Tsk? && n.t < |tcb| then tcb[n.t].tskpri else 0
  }

  /** `kqueue_find_pri`: the first position whose task has a larger priority number. */
  function PriPos(tcb: seq<Tcb>, xs: seq<Node>, pri: nat): (k: nat)
    ensures k <= |xs|
    ensures forall i :: 0 <= i < k ==> PriOf(tcb, xs[i]) <= pri
    ensures k < |xs| ==> PriOf(tcb, xs[k]) > pri
  {
    if xs == [] || PriOf(tcb, xs[0]) > pri then 0 else 1 + PriPos(tcb, xs[1..], pri)
  }

  /** Put task `t` into wait queue `h`, by priority or at the end. */
  function Enqueue(s: State, t: nat, h: Node, byPri: bool): State
    requires t < |s.tcb| && h in s.q && h != Tsk(t)
  {
    if byPri then s.(q := InsertAt(s.q, Tsk(t), h, PriPos(s.tcb, s.q[h], s.tcb[t].tskpri)))
    else s.(q := Append(s.q, Tsk(t), h))
  }

  predicate IsWaitQ(h: Node) { h.SemQ? || h.FlgQ? || h.MbxQ? }

  function ObjMakeWait(s: State, t: nat, h: Node, atr: bv16, tmo: int): State
    requires t < |s.tcb| && h in s.q && IsWaitQ(h)
  {
    Enqueue(MakeWait(Put(s, t, s.tcb[t].(waitObj := Some(h))), t, tmo), t, h, TaTpri(atr))
  }

  /** Sleep or delay: no object, `qnode` linked to itself. */
  function SelfWait(s: State, t: nat, why: Why, tmo: int): State
    requires t < |s.tcb|
  {
    var s1 := MakeWait(Put(s, t, s.tcb[t].(waitObj := None, tskwait := why)), t, tmo);
    s1.(q := Init(s1.q, Tsk(t)))
  }

  /** `wait_delete` on a queue holding `ws`. */
  function ReleaseAll(s: State, ws: seq<Node>): (r: State)
    ensures |r.tcb| == |s.tcb| && r.o == s.o
    decreases |ws|
  {
    if ws == [] then s
    else
      var s1 := if ws[0].Tsk? && ws[0].t < |s.tcb| then ReleaseWith(s, ws[0].t, E_DLT) else s;
      ReleaseAll(s1, ws[1..])
  }

  /** One timer event of a tick: count down, at zero unlink and run the callback. */
  function TickOne(s: State, t: nat): State
    requires t < |s.tcb|
  {
    var c := U32(s.tcb[t].count - 1);
    var s1 := Put(s, t, s.tcb[t].(count := c));
    if c == 0 then ReleaseTmout(s1.(q := Remove(s1.q, Wtm(t))), t) else s1
  }

  function TickAll(s: State, es: seq<Node>): (r: State)
    ensures |r.tcb| == |s.tcb| && r.o == s.o
    decreases |es|
  {
    if es == [] then s
    else TickAll(if es[0].Wtm? && es[0].t < |s.tcb| then TickOne(s, es[0].t) else s, es[1..])
  }

  function Tick(s: State): State { TickAll(s, At(s.q, TimerQ)) }

  // ---- tsk_manage.c ----

  function TaskOf(s: State, id: int): int { if id == 0 then s.run else id - 1 }

  /** The ID check of calls that accept TSK_SELF. Negative IDs are not checked for. */
  predicate BadTaskId(s: State, id: int) { id > |s.tcb| || (id == 0 && s.run == NULL) }

  ghost predicate TaskArg(s: State, id: int) { BadTaskId(s, id) || 0 <= TaskOf(s, id) < |s.tcb| }

  /** `pri_to_index`. A number below 1 gives an index in front of the first line; like the
      one past the last line it denotes no line, and it is written as that one. */
  function PriIndex(itskpri: int, np: nat): nat {
    if itskpri >= 1 then itskpri - 1 else np
  }

  function CreTsk(s: State, id: int, itskpri: int): (State, Er) {
    if id > |s.tcb| || id < 1 then (s, E_ID)
    else
      var t := id - 1;
      if s.tcb[t].state != NOEXS then (s, E_OBJ)
      else (Put(s, t, MakeDormant(s.tcb[t].(itskpri := PriIndex(itskpri, s.np), actcnt := 0))).(q := Remove(s.q, Tsk(t))), E_OK)
  }

  function DelTsk(s: State, id: int): (State, Er) {
    if id > |s.tcb| || id < 1 then (s, E_ID)
    else
      var t := id - 1;
      if s.tcb[t].state == NOEXS then (s, E_NOEXS)
      else if t == s.run then (s, E_OBJ)
      else
        var s1 := if Waiting(s.tcb[t]) then WaitCancel(s, t) else s;
        var s2 := if s.tcb[t].state == RDY then MakeUnready(s1, t) else s1;
        var s3 := Put(s2, t, s2.tcb[t].(state := NOEXS, actcnt := 0, waitObj := None));
        (Dispatch(s3.(q := Append(s3.q, Tsk(t), FreeTcb))), E_OK)
  }

  function IActTsk(s: State, id: int): (State, Er)
    requires TaskArg(s, id)
  {
    if BadTaskId(s, id) then (s, E_ID)
    else
      var t := TaskOf(s, id);
      if s.tcb[t].state == NOEXS then (s, E_NOEXS)
      else if s.tcb[t].state != DMT then
        if s.tcb[t].actcnt >= TMAX_ACTCNT then (s, E_QOVR)
        else (Put(s, t, s.tcb[t].(actcnt := s.tcb[t].actcnt + 1)), E_OK)
      else (MakeReady(s, t), E_OK)
  }

  /** The task-level form of an interrupt-level call dispatches when it succeeds. */
  function ThenDispatch(r: (State, Er)): (State, Er) {
    if r.1 == E_OK then (Dispatch(r.0), r.1) else r
  }

  function ExtTsk(s: State): State
    requires IsTask(s, s.run)
  {
    var t := s.run;
    var s1 := MakeUnready(s, t);
    var s2 := Put(s1, t, MakeDormant(s1.tcb[t]));
    Dispatch(
      if s2.tcb[t].actcnt != 0
      then MakeReady(Put(s2, t, s2.tcb[t].(actcnt := s2.tcb[t].actcnt - 1)), t)
      else s2)
  }

  function ChgPri(s: State, id: int, tskpri: int): (State, Er)
    requires TaskArg(s, id)
  {
    if BadTaskId(s, id) then (s, E_ID)
    else if (tskpri < 1 || tskpri > s.np) && tskpri != 0 then (s, E_PAR)
    else
      var t := TaskOf(s, id);
      if s.tcb[t].state == NOEXS then (s, E_NOEXS)
      else if s.tcb[t].state == DMT then (s, E_OBJ)
      else (Dispatch(ChangePri(s, t, if tskpri == 0 then s.tcb[t].itskpri else tskpri - 1)), E_OK)
  }

  function Reschedule(s: State): State { s.(sched := TopTask(s.q, s.np)) }

  function RotRdq(s: State, tskpri: int): (State, Er) {
    if tskpri == 0 then
      var h := Line(TopPri(s.q, s.np));
      (Dispatch(if s.sched != NULL && h in s.q then Reschedule(s.(q := Rotated(s.q, h))) else s), E_OK)
    else if tskpri < 1 || tskpri > s.np then (s, E_PAR)
    else
      var h := Line(tskpri - 1);
      (Dispatch(Reschedule(if h in s.q then s.(q := Rotated(s.q, h)) else s)), E_OK)
  }

  // ---- tsk_dep_syn.c ----

  function DlyTsk(s: State, dlytim: nat): (State, Er)
    requires IsTask(s, s.run)
  {
    var t := s.run;
    (Dispatch(SelfWait(Put(s, t, s.tcb[t].(ercd := E_OK)), t, TTW_DLY, ToTmo(dlytim))), E_OK)
  }

  function SusTsk(s: State, id: int): (State, Er)
    requires TaskArg(s, id)
  {
    if BadTaskId(s, id) then (s, E_ID)
    else
      var t := TaskOf(s, id);
      var c := s.tcb[t];
      if c.state == NOEXS then (Dispatch(s), E_NOEXS)
      else if c.state == DMT then (Dispatch(s), E_OBJ)
      else if c.suscnt == TMAX_ACTCNT then (Dispatch(s), E_QOVR)
      else if c.state == RDY then
        (Dispatch(MakeUnready(Put(s, t, c.(suscnt := c.suscnt + 1, state := SUS)), t)), E_OK)
      else
        (Dispatch(Put(s, t, c.(suscnt := c.suscnt + 1, state := WAS))), E_OK)
  }

  function RsmTsk(s: State, id: int): (State, Er)
    requires TaskArg(s, id)
  {
    if BadTaskId(s, id) then (s, E_ID)
    else
      var t := TaskOf(s, id);
      var c := s.tcb[t];
      if c.state == NOEXS then (Dispatch(s), E_NOEXS)
      else if c.state != SUS && c.state != WAS then (Dispatch(s), E_OBJ)
      else
        var s1 := Put(s, t, c.(suscnt := c.suscnt - 1));
        if c.suscnt != 1 then (Dispatch(s1), E_OK)
        else if c.state == WAS then (Dispatch(Put(s1, t, s1.tcb[t].(state := WAI))), E_OK)
        else (Dispatch(MakeReady(s1, t)), E_OK)
  }

  function SlpTsk(s: State, tmo: int): (State, Er)
    requires IsTask(s, s.run)
  {
    var t := s.run;
    var c := s.tcb[t];
    if c.wupcnt > 0 then (Dispatch(Put(s, t, c.(wupcnt := c.wupcnt - 1, ercd := E_OK))), E_OK)
    else
      var s1 := Put(s, t, c.(ercd := E_TMOUT));
      (Dispatch(if tmo == TMO_POL then s1 else SelfWait(s1, t, TTW_SLP, tmo)), E_TMOUT)
  }

  function IWupTsk(s: State, id: int): (State, Er)
    requires TaskArg(s, id)
  {
    if BadTaskId(s, id) then (s, E_ID)
    else
      var t := TaskOf(s, id);
      var c := s.tcb[t];
      if c.state == NOEXS then (s, E_NOEXS)
      else if c.state == DMT then (s, E_OBJ)
      else if Waiting(c) && c.tskwait == TTW_SLP then (ReleaseWith(s, t, E_OK), E_OK)
      else if c.wupcnt >= TMAX_ACTCNT then (s, E_QOVR)
      else (Put(s, t, c.(wupcnt := c.wupcnt + 1)), E_OK)
  }

  /** The second component also carries the count that was cancelled. */
  function CanWup(s: State, id: int): (State, Er, int)
    requires TaskArg(s, id)
  {
    if BadTaskId(s, id) then (s, E_ID, 0)
    else
      var t := TaskOf(s, id);
      var c := s.tcb[t];
      if c.state == NOEXS then (s, E_NOEXS, 0)
      else if c.state == DMT then (s, E_OBJ, 0)
      else (Put(s, t, c.(wupcnt := 0)), E_OK, c.wupcnt)
  }

  // ---- semaphore.c ----

  predicate IdIn(id: int, n: nat) { 1 <= id <= n }

  function CreSem(s: State, id: int, atr: bv16, isemcnt: nat, maxsem: nat): (State, Er) {
    if !IdIn(id, |s.o.sem|) then (s, E_ID)
    else if atr & 0x01 != atr then (s, E_RSATR)
    else if TMAX_MAXSEM < maxsem || TMAX_MAXSEM < isemcnt then (s, E_PAR)
    else if s.o.sem[id - 1].live then (s, E_OBJ)
    else (PutSem(s.(q := Init(Remove(s.q, SemQ(id - 1)), SemQ(id - 1))), id - 1,
                 Sem(true, atr, isemcnt, maxsem)), E_OK)
  }

  function WaiSem(s: State, id: int, tmo: int): (State, Er)
    requires IsTask(s, s.run)
    requires IdIn(id, |s.o.sem|) && s.o.sem[id - 1].live ==> SemQ(id - 1) in s.q
  {
    if !IdIn(id, |s.o.sem|) then (s, E_ID)
    else
      var i, t := id - 1, s.run;
      var x := s.o.sem[i];
      if !x.live then (s, E_OBJ)
      else if 0 < x.cnt then
        (Dispatch(PutSem(Put(s, t, s.tcb[t].(ercd := E_OK)), i, x.(cnt := x.cnt - 1))), E_OK)
      else
        var s1 := Put(s, t, s.tcb[t].(ercd := E_TMOUT));
        (Dispatch(if tmo == TMO_POL then s1 else ObjMakeWait(s1, t, SemQ(i), x.atr, tmo)), E_TMOUT)
  }

  /** The task at the head of a queue, NULL if there is none. */
  function FirstTask(s: State, h: Node): int {
    if At(s.q, h) != [] && s.q[h][0].Tsk? && s.q[h][0].t < |s.tcb| then s.q[h][0].t else NULL
  }

  function ISigSem(s: State, id: int): (State, Er) {
    if !IdIn(id, |s.o.sem|) then (s, E_ID)
    else
      var i := id - 1;
      var x := s.o.sem[i];
      if !x.live then (s, E_OBJ)
      else if FirstTask(s, SemQ(i)) != NULL then (ReleaseWith(s, FirstTask(s, SemQ(i)), E_OK), E_OK)
      else if x.cnt >= x.max then (s, E_QOVR)
      else (PutSem(s, i, x.(cnt := x.cnt + 1)), E_OK)
  }

  function DelSem(s: State, id: int): (State, Er) {
    if !IdIn(id, |s.o.sem|) then (s, E_ID)
    else
      var i := id - 1;
      if !s.o.sem[i].live then (s, E_NOEXS)
      else
        var s1 := ReleaseAll(s, At(s.q, SemQ(i)));
        (Dispatch(PutSem(s1.(q := Append(s1.q, SemQ(i), FreeSem)), i, s1.o.sem[i].(live := false, cnt := 0))), E_OK)
  }

  // ---- eventflags.c ----

  predicate FlagCond(ptn: bv32, waiptn: bv32, wfmode: nat) {
    if wfmode % 2 == 1 then ptn & waiptn != 0 else ptn & waiptn == waiptn
  }

  function BitsSet(p: bv32, more: bv32): bv32 { p | more }

  function BitsKept(p: bv32, keep: bv32): bv32 { p & keep }

  function CreFlg(s: State, id: int, atr: bv16, iflgptn: bv32): (State, Er) {
    if !IdIn(id, |s.o.flg|) then (s, E_ID)
    else if atr != atr & 0x07 then (s, E_RSATR)
    else if s.o.flg[id - 1].live then (s, E_OBJ)
    else (PutFlg(s.(q := Init(s.q, FlgQ(id - 1))), id - 1, Flg(true, atr, iflgptn)), E_OK)
  }

  /** One waiter of the `set_flg` sweep. */
  function SweepOne(s: State, i: nat, t: nat): State
    requires i < |s.o.flg| && t < |s.tcb|
  {
    var f := s.o.flg[i];
    if FlagCond(f.ptn, s.tcb[t].waiptn, s.tcb[t].wfmode) then
      var s1 := ReleaseWith(Put(s, t, s.tcb[t].(flgOut := f.ptn)), t, E_OK);
      if TaClr(f.atr) then PutFlg(s1, i, f.(ptn := 0)) else s1
    else s
  }

  function Sweep(s: State, i: nat, ws: seq<Node>): (r: State)
    requires i < |s.o.flg|
    ensures |r.tcb| == |s.tcb| && |r.o.flg| == |s.o.flg|
    decreases |ws|
  {
    if ws == [] then s
    else Sweep(if ws[0].Tsk? && ws[0].t < |s.tcb| then SweepOne(s, i, ws[0].t) else s, i, ws[1..])
  }

  function ISetFlg(s: State, id: int, setptn: bv32): (State, Er) {
    if !IdIn(id, |s.o.flg|) then (s, E_ID)
    else
      var i := id - 1;
      var f := s.o.flg[i];
      if !f.live then (s, E_NOEXS)
      else (Sweep(PutFlg(s, i, f.(ptn := BitsSet(f.ptn, setptn))), i, At(s.q, FlgQ(i))), E_OK)
  }

  function ClrFlg(s: State, id: int, clrptn: bv32): (State, Er) {
    if !IdIn(id, |s.o.flg|) then (s, E_ID)
    else
      var f := s.o.flg[id - 1];
      if !f.live then (s, E_NOEXS)
      else (PutFlg(s, id - 1, f.(ptn := BitsKept(f.ptn, clrptn))), E_OK)
  }

  function WaiFlg(s: State, id: int, waiptn: bv32, wfmode: nat, tmo: int): (State, Er)
    requires IsTask(s, s.run)
    requires IdIn(id, |s.o.flg|) ==> FlgQ(id - 1) in s.q
  {
    if !IdIn(id, |s.o.flg|) then (s, E_ID)
    else if (wfmode != 0 && wfmode != 1) || waiptn == 0 then (s, E_PAR)
    else
      var i, t := id - 1, s.run;
      var f, c := s.o.flg[i], s.tcb[t];
      var refused := Put(s, t, c.(ercd := E_ILUSE));
      if !f.live then (Put(s, t, c.(ercd := E_NOEXS)), E_NOEXS)
      else if At(s.q, FlgQ(i)) != [] && TaWsgl(f.atr) then (refused, E_ILUSE)
      else if FlagCond(f.ptn, waiptn, wfmode) then
        var s1 := Put(s, t, c.(ercd := E_OK, flgOut := f.ptn));
        (if TaClr(f.atr) then PutFlg(s1, i, f.(ptn := 0)) else s1, E_OK)
      else if tmo == TMO_POL then (Put(s, t, c.(ercd := E_TMOUT)), E_TMOUT)
      else
        var s1 := Put(s, t, c.(ercd := E_TMOUT, waiptn := waiptn, wfmode := wfmode));
        (Dispatch(ObjMakeWait(s1, t, FlgQ(i), f.atr, tmo)), E_TMOUT)
  }

  function DelFlg(s: State, id: int): (State, Er) {
    if !IdIn(id, |s.o.flg|) then (s, E_ID)
    else
      var i := id - 1;
      if !s.o.flg[i].live then (s, E_NOEXS)
      else (Dispatch(PutFlg(ReleaseAll(s, At(s.q, FlgQ(i))), i, s.o.flg[i].(live := false, ptn := 0))), E_OK)
  }

  // ---- mailbox.c ----

  function CreMbx(s: State, id: int, atr: bv16): (State, Er) {
    if !IdIn(id, |s.o.mbx|) then (s, E_ID)
    else if atr != atr & 0x03 then (s, E_RSATR)
    else if s.o.mbx[id - 1].live then (s, E_OBJ)
    else (PutMbx(s.(q := Init(s.q, MbxQ(id - 1))), id - 1, Mbx(true, atr, [])), E_OK)
  }

  /** `kqueue_insert_mpri`: in front of the first message with a larger priority number. */
  function InsertMsg(ms: seq<Msg>, m: Msg): seq<Msg> {
    if ms == [] || ms[0].pri > m.pri then [m] + ms else [ms[0]] + InsertMsg(ms[1..], m)
  }

  /** Where `kqueue_insert_mpri` puts a message. */
  function MsgPos(ms: seq<Msg>, pri: int): (k: nat)
    ensures k <= |ms|
    ensures forall i :: 0 <= i < k ==> ms[i].pri <= pri
    ensures k < |ms| ==> ms[k].pri > pri
  {
    if ms == [] || ms[0].pri > pri then 0 else 1 + MsgPos(ms[1..], pri)
  }

  lemma {:induction false} InsertMsgAt(ms: seq<Msg>, m: Msg)
    ensures var k := MsgPos(ms, m.pri); InsertMsg(ms, m) == ms[..k] + [m] + ms[k..]
  {
    if ms != [] && ms[0].pri <= m.pri {
      InsertMsgAt(ms[1..], m);
      var k := MsgPos(ms[1..], m.pri);
      assert ms[..k + 1] == [ms[0]] + ms[1..][..k];
    }
  }

  /** A packet with this address is in some message list. */
  predicate InList(bs: seq<Mbx>, addr: nat) {
    exists i, k :: 0 <= i < |bs| && 0 <= k < |bs[i].msgs| && bs[i].msgs[k].addr == addr
  }

  /** A packet has one link field: its address occurs once in all message lists together. */
  ghost predicate Packets(bs: seq<Mbx>) {
    forall i, j, k, l ::
      (0 <= i < |bs| && 0 <= j < |bs| && 0 <= k < |bs[i].msgs| && 0 <= l < |bs[j].msgs| &&
       bs[i].msgs[k].addr == bs[j].msgs[l].addr) ==> i == j && k == l
  }

  lemma PacketsFewer(bs: seq<Mbx>, i: nat, b: Mbx, n: nat)
    requires Packets(bs) && i < |bs| && n <= |bs[i].msgs| && b.msgs == bs[i].msgs[n..]
    ensures Packets(bs[i := b])
  {
    var r := bs[i := b];
    forall j, k | 0 <= j < |r| && 0 <= k < |r[j].msgs|
      ensures r[j].msgs[k] == bs[j].msgs[if j == i then k + n else k]
    {
    }
  }

  lemma PacketsMore(bs: seq<Mbx>, i: nat, b: Mbx, m: Msg, n: nat)
    requires Packets(bs) && i < |bs| && n <= |bs[i].msgs| && b.msgs == bs[i].msgs[..n] + [m] + bs[i].msgs[n..]
    requires !InList(bs, m.addr)
    ensures Packets(bs[i := b])
  {
    var r := bs[i := b];
    forall j, k | 0 <= j < |r| && 0 <= k < |r[j].msgs|
      ensures if j == i && k == n then r[j].msgs[k] == m
              else var l := if j == i && k > n then k - 1 else k;
                l < |bs[j].msgs| && r[j].msgs[k] == bs[j].msgs[l] && bs[j].msgs[l].addr != m.addr
    {
    }
  }

  /** Linking a packet that is in a list already puts it in twice. */
  lemma PacketsTwice(bs: seq<Mbx>, i: nat, b: Mbx, m: Msg, n: nat)
    requires i < |bs| && n <= |bs[i].msgs| && b.msgs == bs[i].msgs[..n] + [m] + bs[i].msgs[n..]
    requires InList(bs, m.addr)
    ensures !Packets(bs[i := b])
  {
    var r := bs[i := b];
    var j, k :| 0 <= j < |bs| && 0 <= k < |bs[j].msgs| && bs[j].msgs[k].addr == m.addr;
    var l := if j == i && k >= n then k + 1 else k;
    assert r[j].msgs[l] == bs[j].msgs[k] && r[i].msgs[n] == m;
    assert j != i || l != n;
  }

  function SndMbx(s: State, id: int, m: Msg): (State, Er) {
    if !IdIn(id, |s.o.mbx|) then (Dispatch(s), E_ID)
    else
      var i := id - 1;
      var b := s.o.mbx[i];
      if !b.live then (Dispatch(s), E_NOEXS)
      else if TaMpri(b.atr) && m.pri <= 0 then (Dispatch(s), E_PAR)
      else if FirstTask(s, MbxQ(i)) != NULL then
        var t := FirstTask(s, MbxQ(i));
        (Dispatch(ReleaseWith(Put(s, t, s.tcb[t].(msgOut := Some(m))), t, E_OK)), E_OK)
      else
        (Dispatch(PutMbx(s, i, b.(msgs := if TaMpri(b.atr) then InsertMsg(b.msgs, m) else b.msgs + [m]))), E_OK)
  }

  function RcvMbx(s: State, id: int, tmo: int): (State, Er)
    requires IsTask(s, s.run)
    requires IdIn(id, |s.o.mbx|) ==> MbxQ(id - 1) in s.q
  {
    if !IdIn(id, |s.o.mbx|) then (s, E_ID)
    else if !(tmo >= TMO_FEVR) then (s, E_PAR)
    else
      var i, t := id - 1, s.run;
      var b, c := s.o.mbx[i], s.tcb[t];
      if !b.live then (Put(s, t, c.(ercd := E_NOEXS)), E_NOEXS)
      else if b.msgs != [] then
        (PutMbx(Put(s, t, c.(ercd := E_OK, msgOut := Some(b.msgs[0]))), i, b.(msgs := b.msgs[1..])), E_OK)
      else
        var s1 := Put(s, t, c.(ercd := E_TMOUT));
        (if tmo == TMO_POL then s1 else Dispatch(ObjMakeWait(s1, t, MbxQ(i), b.atr, tmo)), E_TMOUT)
  }

  function DelMbx(s: State, id: int): (State, Er) {
    if !IdIn(id, |s.o.mbx|) then (s, E_ID)
    else
      var i := id - 1;
      if !s.o.mbx[i].live then (s, E_NOEXS)
      else (Dispatch(PutMbx(ReleaseAll(s, At(s.q, MbxQ(i))), i, s.o.mbx[i].(live := false, msgs := []))), E_OK)
  }

  // ---- start-up ----

  const BlankTcb: Tcb := Tcb(NOEXS, 0, 0, 0, 0, 0, NotSleeping, None, E_OK, 0, 0, 0, None, 0)

  function TcbNodes(n: nat): seq<Node> { seq(n, (i: nat) => Tsk(i)) }
  function SemNodes(n: nat): seq<Node> { seq(n, (i: nat) => SemQ(i)) }
  function FlgNodes(n: nat): seq<Node> { seq(n, (i: nat) => FlgQ(i)) }
  function MbxNodes(n: nat): seq<Node> { seq(n, (i: nat) => MbxQ(i)) }

  function BootTasks(nt: nat, np: nat): Rings {
    EmptyHeads(LineNodes(np))[FreeTcb := TcbNodes(nt)][TimerQ := []]
  }

  function BootSems(nt: nat, np: nat, nsem: nat, nflg: nat): Rings {
    (BootTasks(nt, np) + EmptyHeads(FlgNodes(nflg)))[FreeSem := SemNodes(nsem)]
  }

  /** The state after start-up: no task, every queue empty, all control blocks free. */
  function Boot(nt: nat, np: nat, nsem: nat, nflg: nat, nmbx: nat): State {
    State(BootSems(nt, np, nsem, nflg) + EmptyHeads(MbxNodes(nmbx)), np, seq(nt, i => BlankTcb),
          Objs(seq(nsem, i => Sem(false, 0, 0, 0)), seq(nflg, i => Flg(false, 0, 0)), seq(nmbx, i => Mbx(false, 0, []))),
          NULL, NULL)
  }
}
