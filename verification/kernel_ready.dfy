/** The priority lines call by call: who leaves a line, who joins its end, and that nobody else
    moves; rotation and change of priority. */
module KernelReady {
  import opened KQueue
  import opened ReadyQueue
  import opened KernelState
  import opened KernelInv
  import opened KernelCalls
  import opened KernelRuns
  import opened KernelEffects
  import opened KernelSafety
  import opened KernelLines

  /** `t` is the task that `id` names, 0 standing for the caller. */
  predicate Names(s: State, id: int, t: nat) { if id == 0 then t == s.run else t == id - 1 }

  lemma NamesIs(s: State, id: int, t: nat)
    requires t < |s.tcb|
    ensures Names(s, id, t) <==> Targets(s, id, t)
  {
  }

  /** Call `c` is about task `t`: it names it, or `t` makes it on its own behalf. */
  predicate About(s: State, c: Call, t: nat) {
    || (NeedsCaller(c) && t == s.run) || (TakesTask(c) && Names(s, TaskIdOf(c), t))
    || (c.CCreTsk? && t == c.id - 1) || (c.CDelTsk? && t == c.id - 1)
  }

  /** A line from `xs` to `ys`: at most the task `n` leaves it, and `js` join its end. */
  predicate Moves(xs: seq<Node>, ys: seq<Node>, n: Node, js: seq<Node>) {
    ys == Without(xs, n) + js
  }

  /** Tasks that were not ready. */
  ghost predicate Fresh(s: State, js: seq<Node>) {
    forall n :: n in js ==> n.Tsk? && n.t < |s.tcb| && s.tcb[n.t].state != RDY
  }

  // ---- the building blocks ----

  lemma NothingMoves(xs: seq<Node>)
    ensures Moves(xs, xs, FreeTcb, []) || FreeTcb in xs
  {
    if FreeTcb !in xs {
      WithoutAbsent(xs, FreeTcb);
      assert xs + [] == xs;
    }
  }

  lemma LineNodesAre(s: State, p: nat)
    requires Good(s, NULL)
    ensures forall n :: n in At(s.q, Line(p)) ==> n.Tsk? && n.t < |s.tcb| && s.tcb[n.t].state == RDY && s.tcb[n.t].tskpri == p
  {
    forall n | n in At(s.q, Line(p))
      ensures n.Tsk? && n.t < |s.tcb| && s.tcb[n.t].state == RDY && s.tcb[n.t].tskpri == p
    {
      assert Belongs(s.tcb, s.o, NULL, n, Line(p));
      if n.Tsk? { assert TcbOk(s.np, s.tcb[n.t]); }
    }
  }

  lemma Unmoved(s: State, q: Rings, p: nat)
    requires Good(s, NULL) && At(q, Line(p)) == At(s.q, Line(p))
    ensures Moves(At(s.q, Line(p)), At(q, Line(p)), FreeTcb, [])
  {
    LineNodesAre(s, p);
    NothingMoves(At(s.q, Line(p)));
  }

  lemma OnlyJoined(s: State, q: Rings, p: nat, js: seq<Node>)
    requires Good(s, NULL) && At(q, Line(p)) == At(s.q, Line(p)) + js
    ensures Moves(At(s.q, Line(p)), At(q, Line(p)), FreeTcb, js)
  {
    LineNodesAre(s, p);
    WithoutAbsent(At(s.q, Line(p)), FreeTcb);
  }

  lemma OnlyLeft(s: State, q: Rings, p: nat, n: Node)
    requires At(q, Line(p)) == Without(At(s.q, Line(p)), n)
    ensures Moves(At(s.q, Line(p)), At(q, Line(p)), n, [])
  {
    hide Without;
    assert Without(At(s.q, Line(p)), n) + [] == Without(At(s.q, Line(p)), n);
  }

  lemma ReadyLine(s: State, t: nat, p: nat)
    requires t < |s.tcb|
    ensures At(MakeReady(s, t).q, Line(p)) == At(s.q, Line(p)) + if s.tcb[t].tskpri == p then [Tsk(t)] else []
  {
    assert At(s.q, Line(p)) + [] == At(s.q, Line(p));
  }

  lemma UnreadyLine(s: State, t: nat, p: nat)
    ensures At(MakeUnready(s, t).q, Line(p)) == Without(At(s.q, Line(p)), Tsk(t))
  {
    hide TopTask, Without;
  }

  lemma MakeWaitLine(s: State, t: nat, tmo: int, p: nat)
    requires t < |s.tcb| && s.tcb[t].state == RDY
    ensures At(MakeWait(s, t, tmo).q, Line(p)) == Without(At(s.q, Line(p)), Tsk(t))
  {
    hide TopTask, Without;
    UnreadyLine(s, t, p);
  }

  lemma SelfWaitLine(s: State, t: nat, why: Why, tmo: int, p: nat)
    requires t < |s.tcb| && s.tcb[t].state == RDY
    ensures At(SelfWait(s, t, why, tmo).q, Line(p)) == Without(At(s.q, Line(p)), Tsk(t))
  {
    hide MakeWait, Without;
    MakeWaitLine(Put(s, t, s.tcb[t].(waitObj := None, tskwait := why)), t, tmo, p);
  }

  lemma ObjWaitLine(s: State, t: nat, h: Node, atr: bv16, tmo: int, p: nat)
    requires t < |s.tcb| && s.tcb[t].state == RDY && h in s.q && IsWaitQ(h)
    ensures At(ObjMakeWait(s, t, h, atr, tmo).q, Line(p)) == Without(At(s.q, Line(p)), Tsk(t))
  {
    hide Without, TaTpri, MakeWait;
    var s1 := Put(s, t, s.tcb[t].(waitObj := Some(h)));
    MakeWaitLine(s1, t, tmo, p);
    StillQueued(s1, t, tmo, h);
  }

  lemma StillQueued(s: State, t: nat, tmo: int, h: Node)
    requires t < |s.tcb| && h in s.q && IsWaitQ(h)
    ensures h in MakeWait(s, t, tmo).q && |MakeWait(s, t, tmo).tcb| == |s.tcb|
  {
    hide TopTask, Without;
  }

  // ---- the calls ----

  lemma CreTskLine(s: State, id: int, pri: int, p: nat) returns (n: Node)
    requires Inv(s)
    ensures Moves(At(s.q, Line(p)), At(CreTsk(s, id, pri).0.q, Line(p)), n, []) && (n.Tsk? ==> n.t == id - 1)
  {
    hide Good, Remove;
    n := FreeTcb;
    if 1 <= id <= |s.tcb| && s.tcb[id - 1].state == NOEXS {
      n := Tsk(id - 1);
      AtRemove(s.q, n, Line(p));
      OnlyLeft(s, Remove(s.q, n), p, n);
    } else {
      Unmoved(s, s.q, p);
    }
  }

  lemma DelTskLine(s: State, id: int, p: nat) returns (n: Node)
    requires Inv(s)
    ensures Moves(At(s.q, Line(p)), At(DelTsk(s, id).0.q, Line(p)), n, []) && (n.Tsk? ==> n.t == id - 1)
  {
    hide Good, Remove, MakeUnready;
    n := FreeTcb;
    if 1 <= id <= |s.tcb| && s.tcb[id - 1].state != NOEXS && id - 1 != s.run {
      var t := id - 1;
      n := Tsk(t);
      UnreadyLine(s, t, p);
      CancelLine(s, t, p);
      LineNodesAre(s, p);
      if s.tcb[t].state != RDY { WithoutAbsent(At(s.q, Line(p)), n); }
      OnlyLeft(s, DelTsk(s, id).0.q, p, n);
    } else {
      Unmoved(s, s.q, p);
    }
  }

  lemma CancelLine(s: State, t: nat, p: nat)
    requires Good(s, NULL)
    ensures At(WaitCancel(s, t).q, Line(p)) == Without(At(s.q, Line(p)), Tsk(t))
  {
    LineNodesAre(s, p);
    hide Good, Remove;
    AtRemove(s.q, Wtm(t), Line(p));
    AtRemove(Remove(s.q, Wtm(t)), Tsk(t), Line(p));
    WithoutAbsent(At(s.q, Line(p)), Wtm(t));
  }

  lemma ActTskLine(s: State, id: int, p: nat) returns (js: seq<Node>)
    requires Inv(s) && TaskArg(s, id)
    ensures Moves(At(s.q, Line(p)), At(IActTsk(s, id).0.q, Line(p)), FreeTcb, js) && Fresh(s, js)
  {
    hide Good, MakeReady;
    js := [];
    if !BadTaskId(s, id) && s.tcb[TaskOf(s, id)].state == DMT {
      var t := TaskOf(s, id);
      ReadyLine(s, t, p);
      js := if s.tcb[t].tskpri == p then [Tsk(t)] else [];
      OnlyJoined(s, MakeReady(s, t).q, p, js);
    } else {
      Unmoved(s, s.q, p);
    }
  }

  lemma ExtTskLine(s: State, p: nat)
    requires Inv(s) && IsTask(s, s.run)
    ensures var x := s.tcb[s.run];
      At(ExtTsk(s).q, Line(p)) == Without(At(s.q, Line(p)), Tsk(s.run)) +
        if x.actcnt != 0 && x.itskpri == p then [Tsk(s.run)] else []
  {
    hide Good, MakeReady, MakeUnready;
    var t := s.run;
    UnreadyLine(s, t, p);
    var s1 := MakeUnready(s, t);
    assert s1.tcb == s.tcb by { UnreadyKeepsTcb(s, t); }
    var s2 := Put(s1, t, MakeDormant(s1.tcb[t]));
    if s2.tcb[t].actcnt != 0 {
      ReadyLine(Put(s2, t, s2.tcb[t].(actcnt := s2.tcb[t].actcnt - 1)), t, p);
    } else {
      assert Without(At(s.q, Line(p)), Tsk(t)) + [] == Without(At(s.q, Line(p)), Tsk(t));
    }
  }

  lemma UnreadyKeepsTcb(s: State, t: nat)
    ensures MakeUnready(s, t).tcb == s.tcb
  {
  }

  lemma ChangePriLine(s: State, t: nat, pri: nat, p: nat)
    requires t < |s.tcb|
    ensures At(ChangePri(s, t, pri).q, Line(p)) == Without(At(s.q, Line(p)), Tsk(t)) + if p == pri then [Tsk(t)] else []
  {
    hide TopTask, TopPri, Without;
    var xs := Without(At(s.q, Line(p)), Tsk(t));
    assert xs + [] == xs;
  }

  lemma ChgPriLine(s: State, id: int, pri: int, p: nat) returns (n: Node, js: seq<Node>)
    requires Inv(s) && TaskArg(s, id)
    ensures Moves(At(s.q, Line(p)), At(ChgPri(s, id, pri).0.q, Line(p)), n, js)
    ensures (n.Tsk? ==> Targets(s, id, n.t)) && forall m :: m in js ==> m == n
  {
    hide Good, ChangePri;
    n, js := FreeTcb, [];
    if ChgPri(s, id, pri).1 == E_OK {
      var t := TaskOf(s, id);
      var pri1 := if pri == 0 then s.tcb[t].itskpri else pri - 1;
      ChangePriLine(s, t, pri1, p);
      n, js := Tsk(t), if p == pri1 then [Tsk(t)] else [];
    } else {
      Unmoved(s, s.q, p);
    }
  }

  lemma SusTskLine(s: State, id: int, p: nat) returns (n: Node)
    requires Inv(s) && TaskArg(s, id)
    ensures Moves(At(s.q, Line(p)), At(SusTsk(s, id).0.q, Line(p)), n, []) && (n.Tsk? ==> Targets(s, id, n.t))
  {
    hide Good, MakeUnready;
    n := FreeTcb;
    if !BadTaskId(s, id) && s.tcb[TaskOf(s, id)].state == RDY && s.tcb[TaskOf(s, id)].suscnt != TMAX_ACTCNT {
      var t := TaskOf(s, id);
      n := Tsk(t);
      var s1 := Put(s, t, s.tcb[t].(suscnt := s.tcb[t].suscnt + 1, state := SUS));
      UnreadyLine(s1, t, p);
      OnlyLeft(s, MakeUnready(s1, t).q, p, n);
    } else {
      Unmoved(s, s.q, p);
    }
  }

  lemma RsmTskLine(s: State, id: int, p: nat) returns (js: seq<Node>)
    requires Inv(s) && TaskArg(s, id)
    ensures Moves(At(s.q, Line(p)), At(RsmTsk(s, id).0.q, Line(p)), FreeTcb, js) && Fresh(s, js)
  {
    hide Good, MakeReady;
    js := [];
    if !BadTaskId(s, id) && s.tcb[TaskOf(s, id)].state == SUS && s.tcb[TaskOf(s, id)].suscnt == 1 {
      var t := TaskOf(s, id);
      var s1 := Put(s, t, s.tcb[t].(suscnt := s.tcb[t].suscnt - 1));
      ReadyLine(s1, t, p);
      js := if s.tcb[t].tskpri == p then [Tsk(t)] else [];
      OnlyJoined(s, MakeReady(s1, t).q, p, js);
    } else {
      Unmoved(s, s.q, p);
    }
  }

  lemma DlyTskLine(s: State, d: nat, p: nat)
    requires Inv(s) && IsTask(s, s.run)
    ensures Moves(At(s.q, Line(p)), At(DlyTsk(s, d).0.q, Line(p)), Tsk(s.run), [])
  {
    hide Good, SelfWait, ToTmo;
    var s1 := Put(s, s.run, s.tcb[s.run].(ercd := E_OK));
    SelfWaitLine(s1, s.run, TTW_DLY, ToTmo(d), p);
    OnlyLeft(s, SelfWait(s1, s.run, TTW_DLY, ToTmo(d)).q, p, Tsk(s.run));
  }

  lemma SlpTskLine(s: State, tmo: int, p: nat) returns (n: Node)
    requires Inv(s) && IsTask(s, s.run)
    ensures Moves(At(s.q, Line(p)), At(SlpTsk(s, tmo).0.q, Line(p)), n, []) && (n.Tsk? ==> n.t == s.run)
  {
    hide Good, SelfWait;
    n := FreeTcb;
    if s.tcb[s.run].wupcnt <= 0 && tmo != TMO_POL {
      n := Tsk(s.run);
      var s1 := Put(s, s.run, s.tcb[s.run].(ercd := E_TMOUT));
      SelfWaitLine(s1, s.run, TTW_SLP, tmo, p);
      OnlyLeft(s, SelfWait(s1, s.run, TTW_SLP, tmo).q, p, n);
    } else {
      Unmoved(s, s.q, p);
    }
  }

  lemma ReleasedLine(s: State, t: nat, c: Tcb, er: Er, p: nat) returns (js: seq<Node>)
    requires Good(s, NULL) && t < |s.tcb| && Waiting(s.tcb[t])
    requires c == s.tcb[t].(flgOut := c.flgOut, msgOut := c.msgOut)
    ensures Moves(At(s.q, Line(p)), At(ReleaseWith(Put(s, t, c), t, er).q, Line(p)), FreeTcb, js) && Fresh(s, js)
  {
    hide Good, ReleaseWith;
    ReleaseWithLine(s, t, c, er, p);
    js := Joins(s.tcb, Tsk(t), p);
    OnlyJoined(s, ReleaseWith(Put(s, t, c), t, er).q, p, js);
  }

  lemma WupTskLine(s: State, id: int, p: nat) returns (js: seq<Node>)
    requires Inv(s) && TaskArg(s, id)
    ensures Moves(At(s.q, Line(p)), At(IWupTsk(s, id).0.q, Line(p)), FreeTcb, js) && Fresh(s, js)
  {
    hide Good, ReleaseWith;
    js := [];
    if !BadTaskId(s, id) && Waiting(s.tcb[TaskOf(s, id)]) && s.tcb[TaskOf(s, id)].tskwait == TTW_SLP {
      var t := TaskOf(s, id);
      PutSelf(s, t);
      js := ReleasedLine(s, t, s.tcb[t], E_OK, p);
    } else {
      Unmoved(s, s.q, p);
    }
  }

  lemma {:induction false} ReadiedFresh(s: State, ns: seq<Node>, p: nat)
    ensures Fresh(s, Readied(s.tcb, ns, p))
  {
    if ns != [] { ReadiedFresh(s, ns[1..], p); }
  }

  lemma TickLine(s: State, p: nat) returns (js: seq<Node>)
    requires Inv(s)
    ensures Moves(At(s.q, Line(p)), At(Tick(s).q, Line(p)), FreeTcb, js) && Fresh(s, js)
  {
    hide Good, Tick, Fired, Readied;
    TickExact(s);
    js := Readied(s.tcb, Fired(s.tcb, At(s.q, TimerQ)), p);
    ReadiedFresh(s, Fired(s.tcb, At(s.q, TimerQ)), p);
    OnlyJoined(s, Tick(s).q, p, js);
  }

  lemma DeletedLine(s: State, h: Node, q: Rings, p: nat) returns (js: seq<Node>)
    requires Inv(s) && IsWaitQ(h) && At(q, Line(p)) == At(ReleaseAll(s, At(s.q, h)).q, Line(p))
    ensures Moves(At(s.q, Line(p)), At(q, Line(p)), FreeTcb, js) && Fresh(s, js)
  {
    hide Good, ReleaseAll, Readied;
    ReleaseAllLine(s, h, p);
    js := Readied(s.tcb, At(s.q, h), p);
    ReadiedFresh(s, At(s.q, h), p);
    OnlyJoined(s, q, p, js);
  }

  lemma DelSemLine(s: State, id: int, p: nat) returns (js: seq<Node>)
    requires Inv(s)
    ensures Moves(At(s.q, Line(p)), At(DelSem(s, id).0.q, Line(p)), FreeTcb, js) && Fresh(s, js)
  {
    hide Good, ReleaseAll;
    js := [];
    if SemLive(s, id) {
      js := DeletedLine(s, SemQ(id - 1), DelSem(s, id).0.q, p);
    } else {
      Unmoved(s, s.q, p);
    }
  }

  lemma DelFlgLine(s: State, id: int, p: nat) returns (js: seq<Node>)
    requires Inv(s)
    ensures Moves(At(s.q, Line(p)), At(DelFlg(s, id).0.q, Line(p)), FreeTcb, js) && Fresh(s, js)
  {
    hide Good, ReleaseAll;
    js := [];
    if FlgLive(s, id) {
      js := DeletedLine(s, FlgQ(id - 1), DelFlg(s, id).0.q, p);
    } else {
      Unmoved(s, s.q, p);
    }
  }

  lemma DelMbxLine(s: State, id: int, p: nat) returns (js: seq<Node>)
    requires Inv(s)
    ensures Moves(At(s.q, Line(p)), At(DelMbx(s, id).0.q, Line(p)), FreeTcb, js) && Fresh(s, js)
  {
    hide Good, ReleaseAll;
    js := [];
    if MbxLive(s, id) {
      js := DeletedLine(s, MbxQ(id - 1), DelMbx(s, id).0.q, p);
    } else {
      Unmoved(s, s.q, p);
    }
  }

  lemma CreSemLine(s: State, id: int, atr: bv16, n: nat, m: nat, p: nat)
    requires Inv(s)
    ensures Moves(At(s.q, Line(p)), At(CreSem(s, id, atr, n, m).0.q, Line(p)), FreeTcb, [])
  {
    LineNodesAre(s, p);
    hide Good, Remove;
    if IdIn(id, |s.o.sem|) {
      AtRemove(s.q, SemQ(id - 1), Line(p));
      WithoutAbsent(At(s.q, Line(p)), SemQ(id - 1));
    }
    Unmoved(s, CreSem(s, id, atr, n, m).0.q, p);
  }

  lemma WaiSemLine(s: State, id: int, tmo: int, p: nat) returns (n: Node)
    requires Inv(s) && IsTask(s, s.run) && (SemLive(s, id) ==> SemQ(id - 1) in s.q)
    ensures Moves(At(s.q, Line(p)), At(WaiSem(s, id, tmo).0.q, Line(p)), n, []) && (n.Tsk? ==> n.t == s.run)
  {
    hide Good, ObjMakeWait;
    n := FreeTcb;
    if SemLive(s, id) && s.o.sem[id - 1].cnt <= 0 && tmo != TMO_POL {
      n := Tsk(s.run);
      var s1 := Put(s, s.run, s.tcb[s.run].(ercd := E_TMOUT));
      ObjWaitLine(s1, s.run, SemQ(id - 1), s.o.sem[id - 1].atr, tmo, p);
      OnlyLeft(s, WaiSem(s, id, tmo).0.q, p, n);
    } else {
      Unmoved(s, s.q, p);
    }
  }

  lemma SigSemLine(s: State, id: int, p: nat) returns (js: seq<Node>)
    requires Inv(s)
    ensures Moves(At(s.q, Line(p)), At(ISigSem(s, id).0.q, Line(p)), FreeTcb, js) && Fresh(s, js)
  {
    hide Good, ReleaseWith, FirstTask;
    js := [];
    if SemLive(s, id) && FirstTask(s, SemQ(id - 1)) != NULL {
      FirstTaskIs(s, SemQ(id - 1));
      var t := FirstTask(s, SemQ(id - 1));
      PutSelf(s, t);
      js := ReleasedLine(s, t, s.tcb[t], E_OK, p);
    } else {
      Unmoved(s, s.q, p);
    }
  }

  lemma SetFlgLine(s: State, id: int, ptn: bv32, p: nat) returns (js: seq<Node>)
    requires Inv(s)
    ensures Moves(At(s.q, Line(p)), At(ISetFlg(s, id, ptn).0.q, Line(p)), FreeTcb, js) && Fresh(s, js)
  {
    js := [];
    if FlgLive(s, id) {
      hide Good, ISetFlg, BitsSet, TaClr, Readied, Woken;
      var f := s.o.flg[id - 1];
      SetFlgOrder(s, id, ptn, p);
      var ns := Woken(s.tcb, At(s.q, FlgQ(id - 1)), BitsSet(f.ptn, ptn), TaClr(f.atr));
      js := Readied(s.tcb, ns, p);
      ReadiedFresh(s, ns, p);
      OnlyJoined(s, ISetFlg(s, id, ptn).0.q, p, js);
    } else {
      hide Good, Sweep;
      Unmoved(s, s.q, p);
    }
  }

  lemma WaiFlgLine(s: State, id: int, ptn: bv32, m: nat, tmo: int, p: nat) returns (n: Node)
    requires Inv(s) && IsTask(s, s.run) && (IdIn(id, |s.o.flg|) ==> FlgQ(id - 1) in s.q)
    ensures Moves(At(s.q, Line(p)), At(WaiFlg(s, id, ptn, m, tmo).0.q, Line(p)), n, []) && (n.Tsk? ==> n.t == s.run)
  {
    hide Good, ObjMakeWait, FlagCond, TaClr, TaWsgl;
    n := FreeTcb;
    Unmoved(s, s.q, p);
    if WaiFlg(s, id, ptn, m, tmo).0.q != s.q {
      n := Tsk(s.run);
      var s1 := Put(s, s.run, s.tcb[s.run].(ercd := E_TMOUT, waiptn := ptn, wfmode := m));
      ObjWaitLine(s1, s.run, FlgQ(id - 1), s.o.flg[id - 1].atr, tmo, p);
      OnlyLeft(s, WaiFlg(s, id, ptn, m, tmo).0.q, p, n);
    }
  }

  lemma SndMbxLine(s: State, id: int, m: Msg, p: nat) returns (js: seq<Node>)
    requires Inv(s)
    ensures Moves(At(s.q, Line(p)), At(SndMbx(s, id, m).0.q, Line(p)), FreeTcb, js) && Fresh(s, js)
  {
    hide Good, ReleaseWith, FirstTask, TaMpri, InsertMsg;
    js := [];
    if MbxLive(s, id) && !MsgRefused(s, id, m) && FirstTask(s, MbxQ(id - 1)) != NULL {
      FirstTaskIs(s, MbxQ(id - 1));
      var t := FirstTask(s, MbxQ(id - 1));
      js := ReleasedLine(s, t, s.tcb[t].(msgOut := Some(m)), E_OK, p);
    } else {
      Unmoved(s, s.q, p);
    }
  }

  lemma RcvMbxLine(s: State, id: int, tmo: int, p: nat) returns (n: Node)
    requires Inv(s) && IsTask(s, s.run) && (IdIn(id, |s.o.mbx|) ==> MbxQ(id - 1) in s.q)
    ensures Moves(At(s.q, Line(p)), At(RcvMbx(s, id, tmo).0.q, Line(p)), n, []) && (n.Tsk? ==> n.t == s.run)
  {
    hide Good, ObjMakeWait;
    n := FreeTcb;
    Unmoved(s, s.q, p);
    if RcvMbx(s, id, tmo).0.q != s.q {
      n := Tsk(s.run);
      var s1 := Put(s, s.run, s.tcb[s.run].(ercd := E_TMOUT));
      ObjWaitLine(s1, s.run, MbxQ(id - 1), s.o.mbx[id - 1].atr, tmo, p);
      OnlyLeft(s, RcvMbx(s, id, tmo).0.q, p, n);
    }
  }

  /** Line `p` at a call other than `rot_rdq`: at most the task the call is about leaves it, and
      those that join it join its end. Nobody else moves. Only `chg_pri` and `ext_tsk` can put a
      task back into the line it was in. */
  ghost predicate LineMoves(s: State, c: Call, p: nat, q: Rings, n: Node, js: seq<Node>) {
    && Moves(At(s.q, Line(p)), At(q, Line(p)), n, js)
    && (n.Tsk? ==> About(s, c, n.t))
    && forall m :: m in js && m in At(s.q, Line(p)) ==> m == n && (c.CChgPri? || c.CExtTsk?)
  }

  lemma NewInLine(s: State, js: seq<Node>, p: nat)
    requires Good(s, NULL) && Fresh(s, js)
    ensures forall m :: m in js ==> m !in At(s.q, Line(p))
  {
    LineNodesAre(s, p);
  }

  lemma TaskCallLine(s: State, c: Call, p: nat) returns (n: Node, js: seq<Node>)
    requires Inv(s) && Allowed(s, c) && !OnObject(c) && !c.CRotRdq?
    ensures LineMoves(s, c, p, Step(s, c).0.q, n, js)
  {
    hide Inv, Good, Moves, Fresh, Sound, Step, CreTsk, DelTsk, IActTsk, ExtTsk, ChgPri, RotRdq, DlyTsk, SusTsk,
         RsmTsk, SlpTsk, IWupTsk, Tick, Without, At;
    StepIs(s, c);
    n, js := FreeTcb, [];
    match c
    case CCreTsk(id, pri) => n := CreTskLine(s, id, pri, p);
    case CDelTsk(id) => n := DelTskLine(s, id, p);
    case CActTsk(id, isr) => js := ActTskLine(s, id, p); NewInLine(s, js, p) by { GoodIn(s); }
    case CExtTsk => n, js := ExtLineMoves(s, p);
    case CChgPri(id, pri) => n, js := ChgPriLine(s, id, pri, p); if n.Tsk? { NamesIs(s, id, n.t) by { TargetIn(s, id, n.t); } }
    case CDlyTsk(d) => n := Tsk(s.run); DlyTskLine(s, d, p);
    case CSusTsk(id) => n := SusTskLine(s, id, p); if n.Tsk? { NamesIs(s, id, n.t) by { TargetIn(s, id, n.t); } }
    case CRsmTsk(id) => js := RsmTskLine(s, id, p); NewInLine(s, js, p) by { GoodIn(s); }
    case CSlpTsk(tmo) => n := SlpTskLine(s, tmo, p);
    case CWupTsk(id, isr) => js := WupTskLine(s, id, p); NewInLine(s, js, p) by { GoodIn(s); }
    case CCanWup(id) => Unmoved(s, s.q, p) by { GoodIn(s); }
    case CTick => js := TickLine(s, p); NewInLine(s, js, p) by { GoodIn(s); }
    case CDispatch => Unmoved(s, s.q, p) by { GoodIn(s); }
    case _ =>
  }

  lemma GoodIn(s: State)
    requires Inv(s)
    ensures Good(s, NULL)
  {
  }

  lemma TargetIn(s: State, id: int, t: nat)
    requires TaskArg(s, id) && Targets(s, id, t)
    ensures t < |s.tcb|
  {
  }

  lemma ExtLineMoves(s: State, p: nat) returns (n: Node, js: seq<Node>)
    requires Inv(s) && IsTask(s, s.run)
    ensures Moves(At(s.q, Line(p)), At(ExtTsk(s).q, Line(p)), n, js) && n == Tsk(s.run) && forall m :: m in js ==> m == n
  {
    hide Inv, ExtTsk;
    ExtTskLine(s, p);
    n := Tsk(s.run);
    js := if s.tcb[s.run].actcnt != 0 && s.tcb[s.run].itskpri == p then [n] else [];
  }

  lemma LifeCallLine(s: State, c: Call, p: nat) returns (n: Node, js: seq<Node>)
    requires Inv(s) && Allowed(s, c) && CreatesOrDeletes(c)
    ensures LineMoves(s, c, p, Step(s, c).0.q, n, js)
  {
    hide Inv, Good, Moves, Fresh, Sound, Step, CreSem, DelSem, CreFlg, DelFlg, CreMbx, DelMbx, Without, At;
    StepIs(s, c);
    n, js := FreeTcb, [];
    match c
    case CCreSem(id, atr, k, m) => CreSemLine(s, id, atr, k, m, p);
    case CDelSem(id) => js := DelSemLine(s, id, p); NewInLine(s, js, p) by { GoodIn(s); }
    case CCreFlg(id, atr, ptn) => CreFlgLine(s, id, atr, ptn, p);
    case CDelFlg(id) => js := DelFlgLine(s, id, p); NewInLine(s, js, p) by { GoodIn(s); }
    case CCreMbx(id, atr) => CreMbxLine(s, id, atr, p);
    case CDelMbx(id) => js := DelMbxLine(s, id, p); NewInLine(s, js, p) by { GoodIn(s); }
    case _ =>
  }

  lemma ObjectCallLine(s: State, c: Call, p: nat) returns (n: Node, js: seq<Node>)
    requires Inv(s) && Allowed(s, c) && OnObject(c) && !CreatesOrDeletes(c)
    ensures LineMoves(s, c, p, Step(s, c).0.q, n, js)
  {
    hide Inv, Good, Moves, Fresh, Sound, Step, WaiSem, ISigSem, ISetFlg, ClrFlg, WaiFlg, SndMbx, RcvMbx, Without, At;
    StepIs(s, c);
    n, js := FreeTcb, [];
    match c
    case CWaiSem(id, tmo) => n := WaiSemLine(s, id, tmo, p);
    case CSigSem(id, isr) => js := SigSemLine(s, id, p); NewInLine(s, js, p) by { GoodIn(s); }
    case CSetFlg(id, ptn, isr) => js := SetFlgLine(s, id, ptn, p); NewInLine(s, js, p) by { GoodIn(s); }
    case CClrFlg(id, ptn) => ClrFlgLine(s, id, ptn, p);
    case CWaiFlg(id, ptn, m, tmo) => n := WaiFlgLine(s, id, ptn, m, tmo, p);
    case CSndMbx(id, m) => js := SndMbxLine(s, id, m, p); NewInLine(s, js, p) by { GoodIn(s); }
    case CRcvMbx(id, tmo) => n := RcvMbxLine(s, id, tmo, p);
    case _ =>
  }

  lemma ClrFlgLine(s: State, id: int, ptn: bv32, p: nat)
    requires Inv(s)
    ensures Moves(At(s.q, Line(p)), At(ClrFlg(s, id, ptn).0.q, Line(p)), FreeTcb, [])
  {
    hide Good, BitsKept;
    Unmoved(s, s.q, p);
  }

  lemma CreFlgLine(s: State, id: int, atr: bv16, ptn: bv32, p: nat)
    requires Inv(s)
    ensures Moves(At(s.q, Line(p)), At(CreFlg(s, id, atr, ptn).0.q, Line(p)), FreeTcb, [])
  {
    hide Good;
    Unmoved(s, CreFlg(s, id, atr, ptn).0.q, p);
  }

  lemma CreMbxLine(s: State, id: int, atr: bv16, p: nat)
    requires Inv(s)
    ensures Moves(At(s.q, Line(p)), At(CreMbx(s, id, atr).0.q, Line(p)), FreeTcb, [])
  {
    hide Good;
    Unmoved(s, CreMbx(s, id, atr).0.q, p);
  }

  lemma StepLines(s: State, c: Call, p: nat) returns (n: Node, js: seq<Node>)
    requires Inv(s) && Allowed(s, c) && !c.CRotRdq?
    ensures LineMoves(s, c, p, Step(s, c).0.q, n, js)
  {
    hide Inv, Step, LineMoves, Callable, Sound;
    if CreatesOrDeletes(c) {
      n, js := LifeCallLine(s, c, p);
    } else if OnObject(c) {
      n, js := ObjectCallLine(s, c, p);
    } else {
      n, js := TaskCallLine(s, c, p);
    }
  }

  // ---- change of priority ----

  /** `chg_pri`: the task has the new priority, its initial one for 0, and stands at the end of
      that line, also if it was in that line before; every other line is as it was without it. */
  lemma ChgPriExact(s: State, id: int, pri: int, t: nat, p: nat)
    requires Inv(s) && Allowed(s, CChgPri(id, pri)) && Names(s, id, t) && t < |s.tcb|
    requires Step(s, CChgPri(id, pri)).1 == E_OK
    ensures var r := Step(s, CChgPri(id, pri)).0; var np := if pri == 0 then s.tcb[t].itskpri else pri - 1;
      && s.tcb[t].state == RDY && np < s.np && |r.tcb| == |s.tcb| && r.tcb[t] == s.tcb[t].(tskpri := np)
      && At(r.q, Line(p)) == Without(At(s.q, Line(p)), Tsk(t)) + if p == np then [Tsk(t)] else []
  {
    hide Inv, Step, ChangePri, TcbOk, Sound;
    ScalarsOk(s, t) by { GoodIn(s); }
    var pri1 := ChgPriTo(s, id, pri, t);
    ChangePriLine(s, t, pri1, p);
    ChangePriTcb(s, t, pri1);
    hide At, Without;
  }

  lemma ChgPriTo(s: State, id: int, pri: int, t: nat) returns (pri1: nat)
    requires Inv(s) && Allowed(s, CChgPri(id, pri)) && Names(s, id, t) && t < |s.tcb| && TcbOk(s.np, s.tcb[t])
    requires Step(s, CChgPri(id, pri)).1 == E_OK
    ensures pri1 == (if pri == 0 then s.tcb[t].itskpri else pri - 1) && s.tcb[t].state == RDY && pri1 < s.np
    ensures Step(s, CChgPri(id, pri)).0 == Dispatch(ChangePri(s, t, pri1))
  {
    hide Inv, ChangePri;
    pri1 := if pri == 0 then s.tcb[t].itskpri else pri - 1;
  }

  lemma ChangePriTcb(s: State, t: nat, p: nat)
    requires t < |s.tcb|
    ensures ChangePri(s, t, p).tcb == s.tcb[t := s.tcb[t].(tskpri := p)]
  {
  }

  // ---- rotation ----

  /** The line `rot_rdq` is about: that of the given priority, for 0 that of the scheduled task. */
  predicate RotatesLine(s: State, pri: int, p: nat) {
    if pri == 0 then 0 <= s.sched < |s.tcb| && p == s.tcb[s.sched].tskpri else 1 <= pri <= s.np && p == pri - 1
  }

  /** State `r` is `s` with the head of line `h` at its end, the first of the best line running. */
  ghost predicate Turned(s: State, h: Node, r: State) {
    && r.q.Keys == s.q.Keys && (forall g :: g != h ==> At(r.q, g) == At(s.q, g))
    && (if At(s.q, h) == [] then At(r.q, h) == [] else At(r.q, h) == At(s.q, h)[1..] + [At(s.q, h)[0]])
    && r.tcb == s.tcb && r.o == s.o && r.np == s.np && r.run == r.sched
  }

  /** The running task is the first of the best line; there is none if no task is ready. */
  ghost predicate BestRuns(r: State) {
    if r.run == NULL then forall t :: 0 <= t < |r.tcb| ==> r.tcb[t].state != RDY
    else
      && 0 <= r.run < |r.tcb| && [Tsk(r.run)] <= At(r.q, Line(r.tcb[r.run].tskpri))
      && forall t :: 0 <= t < |r.tcb| && r.tcb[t].state == RDY ==> r.tcb[r.run].tskpri <= r.tcb[t].tskpri
  }

  lemma TopIsSched(s: State)
    requires Inv(s) && s.sched != NULL
    ensures 0 <= s.sched < |s.tcb| && TopPri(s.q, s.np) == s.tcb[s.sched].tskpri < s.np
  {
    var p := TopPri(s.q, s.np);
    assert Belongs(s.tcb, s.o, NULL, s.q[Line(p)][0], Line(p));
  }

  /** `rot_rdq` moves the head of one line behind all others of it and changes nothing else; the
      first task of the best line runs. Round robin among equals rests on this. */
  lemma RotRdqExact(s: State, pri: int, p: nat)
    requires Inv(s) && RotatesLine(s, pri, p)
    ensures var (r, er) := Step(s, CRotRdq(pri));
      er == E_OK && Turned(s, Line(p), r) && BestRuns(r)
  {
    hide Inv, Step;
    StepIs(s, CRotRdq(pri));
    if pri == 0 { TopIsSched(s); }
    LineExists(s, p);
    RotRdqTurns(s, pri, p);
    StepInv(s, CRotRdq(pri));
    SchedIsBest(Step(s, CRotRdq(pri)).0);
  }

  lemma LineExists(s: State, p: nat)
    requires Inv(s) && p < s.np
    ensures Line(p) in s.q
  {
    assert IsHead(s.np, s.o, Line(p));
  }

  lemma RotRdqTurns(s: State, pri: int, p: nat)
    requires RotatesLine(s, pri, p) && Line(p) in s.q && (pri == 0 ==> TopPri(s.q, s.np) == p)
    ensures RotRdq(s, pri).1 == E_OK && Turned(s, Line(p), RotRdq(s, pri).0)
  {
    hide TopTask, TopPri;
  }

  /** Nothing to rotate, or no such line. */
  lemma RotRdqElse(s: State, pri: int)
    requires Inv(s) && (if pri == 0 then s.sched == NULL else pri < 1 || pri > s.np)
    ensures var (r, er) := Step(s, CRotRdq(pri));
      if pri == 0 then er == E_OK && r == s.(run := NULL) else er == E_PAR && r == s
  {
    hide Good, TopPri;
  }

  function Turns(pri: int, k: nat): seq<Call> {
    if k == 0 then [] else [CRotRdq(pri)] + Turns(pri, k - 1)
  }

  /** Rotating a line of n tasks k times, k <= n, brings its first k behind the others: each task
      is at the head in its turn, and after n rotations the line is what it was. */
  lemma {:induction false} RoundRobin(s: State, pri: int, k: nat)
    requires Inv(s) && 1 <= pri <= s.np && k <= |At(s.q, Line(pri - 1))|
    ensures Legal(s, Turns(pri, k))
    ensures var xs := At(s.q, Line(pri - 1)); var ys := At(Run(s, Turns(pri, k)).q, Line(pri - 1));
      && ys == xs[k..] + xs[..k] && (k < |xs| ==> ys[0] == xs[k]) && (k == |xs| ==> ys == xs)
    decreases k
  {
    hide Inv, Step;
    var xs := At(s.q, Line(pri - 1));
    if k > 0 {
      var c := CRotRdq(pri);
      var s1 := Step(s, c).0;
      var cs := Turns(pri, k - 1);
      RotRdqExact(s, pri, pri - 1);
      StepInv(s, c);
      RoundRobin(s1, pri, k - 1);
      assert Turns(pri, k)[0] == c && Turns(pri, k)[1..] == cs;
      var ys := xs[1..] + [xs[0]];
      assert ys[k - 1..] + ys[..k - 1] == xs[k..] + xs[..k];
    }
  }
}
