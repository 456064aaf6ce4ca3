/** In which order tasks released together become ready: each priority line grows by those
    of its priority in the order of the queue they were released from. */
module KernelLines {
  import opened KQueue
  import opened ReadyQueue
  import opened KernelState
  import opened KernelInv
  import opened KernelCalls
  import opened KernelRuns

  /** What the release of the owner of node `n` adds to line `p`. */
  function Joins(tcb: seq<Tcb>, n: Node, p: nat): seq<Node> {
    if (n.Tsk? || n.Wtm?) && n.t < |tcb| && tcb[n.t].state == WAI && tcb[n.t].tskpri == p then [Tsk(n.t)] else []
  }

  /** Of the tasks owning nodes `ns`, those that join line `p` when all are released in turn. */
  function Readied(tcb: seq<Tcb>, ns: seq<Node>, p: nat): seq<Node> {
    if ns == [] then [] else Joins(tcb, ns[0], p) + Readied(tcb, ns[1..], p)
  }

  /** The timers that fire at a tick, in the order of the timer list. */
  function Fired(tcb: seq<Tcb>, es: seq<Node>): seq<Node> {
    if es == [] then [] else (if DueNow(tcb, es[0]) then [es[0]] else []) + Fired(tcb, es[1..])
  }

  lemma {:induction false} ReadiedSame(tcb: seq<Tcb>, tcb': seq<Tcb>, ns: seq<Node>, p: nat)
    requires forall n :: n in ns ==> Joins(tcb', n, p) == Joins(tcb, n, p)
    ensures Readied(tcb', ns, p) == Readied(tcb, ns, p)
  {
    hide Joins;
    if ns != [] {
      assert ns[0] in ns && forall n :: n in ns[1..] ==> n in ns;
      ReadiedSame(tcb, tcb', ns[1..], p);
    }
  }

  lemma {:induction false} FiredSame(tcb: seq<Tcb>, tcb': seq<Tcb>, es: seq<Node>)
    requires forall n :: n in es ==> DueNow(tcb', n) == DueNow(tcb, n)
    ensures Fired(tcb', es) == Fired(tcb, es)
  {
    hide DueNow;
    if es != [] {
      assert es[0] in es && forall n :: n in es[1..] ==> n in es;
      FiredSame(tcb, tcb', es[1..]);
    }
  }

  lemma {:induction false} FiredIn(tcb: seq<Tcb>, es: seq<Node>)
    ensures forall n :: n in Fired(tcb, es) <==> n in es && DueNow(tcb, n)
  {
    hide DueNow;
    if es != [] { FiredIn(tcb, es[1..]); }
  }

  /** A change of one task's control block concerns only its own nodes. */
  lemma OthersJoin(tcb: seq<Tcb>, t: nat, c: Tcb, p: nat)
    requires t < |tcb|
    ensures forall n :: n != Tsk(t) && n != Wtm(t) ==> Joins(tcb[t := c], n, p) == Joins(tcb, n, p)
    ensures forall n :: n != Wtm(t) ==> DueNow(tcb[t := c], n) == DueNow(tcb, n)
  {
  }

  // ---- releasing one task ----

  lemma NotInLines(s: State, t: nat, p: nat)
    requires Good(s, NULL) && t < |s.tcb| && Waiting(s.tcb[t])
    ensures Tsk(t) !in At(s.q, Line(p)) && Wtm(t) !in At(s.q, Line(p))
  {
    assert TcbOk(s.np, s.tcb[t]);
    WaitHome(s.np, s.tcb[t]);
    hide Good, TcbOk;
    OnlyHome(s, NULL, t, Line(p));
  }

  lemma ReleaseLine(s: State, t: nat, p: nat)
    requires t < |s.tcb| && Waiting(s.tcb[t]) && Tsk(t) !in At(s.q, Line(p)) && Wtm(t) !in At(s.q, Line(p))
    ensures At(WaitRelease(s, t).q, Line(p)) == At(s.q, Line(p)) + Joins(s.tcb, Tsk(t), p)
  {
    hide Remove;
    var q1 := Remove(s.q, Wtm(t));
    var q2 := Remove(q1, Tsk(t));
    AtRemoveOther(s.q, Wtm(t), Line(p));
    AtRemoveOther(q1, Tsk(t), Line(p));
    var h := Line(s.tcb[t].tskpri);
    assert At(Append(q2, Tsk(t), h), Line(p)) == if h == Line(p) then At(q2, h) + [Tsk(t)] else At(q2, Line(p));
  }

  lemma ReleaseWithLine(s: State, t: nat, c: Tcb, er: Er, p: nat)
    requires Good(s, NULL) && t < |s.tcb| && Waiting(s.tcb[t])
    requires c == s.tcb[t].(flgOut := c.flgOut, msgOut := c.msgOut)
    ensures At(ReleaseWith(Put(s, t, c), t, er).q, Line(p)) == At(s.q, Line(p)) + Joins(s.tcb, Tsk(t), p)
  {
    hide Good, WaitRelease;
    NotInLines(s, t, p);
    var s1 := Put(Put(s, t, c), t, c.(ercd := er));
    ReleaseLine(s1, t, p);
  }

  // ---- wait_delete ----

  lemma {:induction false} ReleaseAllLine(s: State, h: Node, p: nat)
    requires Good(s, NULL) && IsWaitQ(h)
    ensures At(ReleaseAll(s, At(s.q, h)).q, Line(p)) == At(s.q, Line(p)) + Readied(s.tcb, At(s.q, h), p)
    decreases |At(s.q, h)|
  {
    hide Good, ReleaseWith, TcbOk, Joins, Released;
    var ws := At(s.q, h);
    if ws != [] {
      FirstTaskIs(s, h);
      var t := FirstTask(s, h);
      PutSelf(s, t);
      EndFirst(s, h, s.tcb[t], E_DLT);
      ReleaseWithLine(s, t, s.tcb[t], E_DLT, p);
      var s1 := ReleaseWith(s, t, E_DLT);
      ReleaseAllLine(s1, h, p);
      GoodParts(s, t, h);
      assert Tsk(t) !in ws[1..];
      OnlyTasks(s, h);
      OthersJoin(s.tcb, t, s1.tcb[t], p);
      ReadiedSame(s.tcb, s1.tcb, ws[1..], p);
      assert (At(s.q, Line(p)) + Joins(s.tcb, ws[0], p)) + Readied(s.tcb, ws[1..], p) ==
             At(s.q, Line(p)) + (Joins(s.tcb, ws[0], p) + Readied(s.tcb, ws[1..], p));
    }
  }

  lemma OnlyTasks(s: State, h: Node)
    requires Good(s, NULL) && IsWaitQ(h)
    ensures forall n :: n in At(s.q, h) ==> n.Tsk?
  {
    forall n | n in At(s.q, h) ensures n.Tsk? { assert Belongs(s.tcb, s.o, NULL, n, h); }
  }

  /** `wait_delete`: afterwards the queue is empty, exactly its tasks are released, each with
      E_DLT, and they are behind the others in their priority lines in the order they waited. */
  lemma WaitDeleteExact(s: State, h: Node)
    requires Good(s, NULL) && IsWaitQ(h)
    ensures var r := ReleaseAll(s, At(s.q, h));
      Good(r, NULL) && At(r.q, h) == [] && r.run == s.run &&
      forall u :: 0 <= u < |s.tcb| ==>
        r.tcb[u] == if Tsk(u) in At(s.q, h) then Released(s.tcb[u].(ercd := E_DLT)) else s.tcb[u]
    ensures var r := ReleaseAll(s, At(s.q, h));
      forall p: nat :: At(r.q, Line(p)) == At(s.q, Line(p)) + Readied(s.tcb, At(s.q, h), p)
  {
    hide Good, ReleaseAll, Readied, Released, At;
    ReleaseAllGood(s, h);
    forall p: nat ensures At(ReleaseAll(s, At(s.q, h)).q, Line(p)) == At(s.q, Line(p)) + Readied(s.tcb, At(s.q, h), p) {
      ReleaseAllLine(s, h, p);
    }
  }

  // ---- a tick ----

  lemma TickOneLine(s: State, t: nat, p: nat)
    requires Good(s, NULL) && t < |s.tcb| && Waiting(s.tcb[t])
    ensures At(TickOne(s, t).q, Line(p)) ==
            At(s.q, Line(p)) + if DueNow(s.tcb, Wtm(t)) then Joins(s.tcb, Wtm(t), p) else []
  {
    hide Good, TickOne, WaitRelease;
    TickOneIs(s, t);
    NotInLines(s, t, p);
    var s1 := Put(s, t, s.tcb[t].(count := U32(s.tcb[t].count - 1)));
    ReleaseLine(s1, t, p);
  }

  lemma {:induction false} TickAllLine(s: State, pre: seq<Node>, es: seq<Node>, p: nat)
    requires Good(s, NULL) && At(s.q, TimerQ) == pre + es
    ensures At(TickAll(s, es).q, Line(p)) == At(s.q, Line(p)) + Readied(s.tcb, Fired(s.tcb, es), p)
    decreases |es|
  {
    hide Good, TickOne, Ticked, DueNow, Joins, At, Fired, Readied;
    if es == [] {
      NoneFires(s.tcb, es, p);
      assert At(s.q, Line(p)) + [] == At(s.q, Line(p));
    } else {
      var n := es[0];
      TickHead(s, pre, es);
      FirstTimer(s, pre, es);
      TickOneLine(s, n.t, p);
      var s1 := TickOne(s, n.t);
      TickAllLine(s1, if DueNow(s.tcb, n) then pre else pre + [n], es[1..], p);
      TimersOnly(s, pre, es);
      RestFires(s.tcb, s1.tcb, es, p);
      ReadiedFirst(s.tcb, es, p);
      var a, b := At(s.q, Line(p)), if DueNow(s.tcb, n) then Joins(s.tcb, n, p) else [];
      var c := Readied(s.tcb, Fired(s.tcb, es[1..]), p);
      assert (a + b) + c == a + (b + c);
    }
  }

  lemma NoneFires(tcb: seq<Tcb>, es: seq<Node>, p: nat)
    requires es == []
    ensures Readied(tcb, Fired(tcb, es), p) == []
  {
  }

  lemma FirstTimer(s: State, pre: seq<Node>, es: seq<Node>)
    requires Good(s, NULL) && At(s.q, TimerQ) == pre + es && es != []
    ensures es[0].Wtm? && es[0].t < |s.tcb| && Waiting(s.tcb[es[0].t])
  {
    hide Good, At;
    assert (pre + es)[|pre|] == es[0];
    TimerTask(s, es[0]);
  }

  /** The first timer's task is none of the others'. */
  lemma RestFires(tcb: seq<Tcb>, tcb': seq<Tcb>, es: seq<Node>, p: nat)
    requires es != [] && es[0].Wtm? && es[0].t < |tcb| && es[0] !in es[1..] && (forall n :: n in es ==> n.Wtm?)
    requires |tcb'| == |tcb| && tcb' == tcb[es[0].t := tcb'[es[0].t]]
    ensures Readied(tcb', Fired(tcb', es[1..]), p) == Readied(tcb, Fired(tcb, es[1..]), p)
  {
    hide DueNow, Joins, Readied, Fired;
    OthersJoin(tcb, es[0].t, tcb'[es[0].t], p);
    forall n | n in es[1..] ensures n != Tsk(es[0].t) && n != Wtm(es[0].t) { assert n in es; }
    FiredSame(tcb, tcb', es[1..]);
    FiredIn(tcb, es[1..]);
    ReadiedSame(tcb, tcb', Fired(tcb, es[1..]), p);
  }

  lemma ReadiedFirst(tcb: seq<Tcb>, es: seq<Node>, p: nat)
    requires es != []
    ensures Readied(tcb, Fired(tcb, es), p) ==
      (if DueNow(tcb, es[0]) then Joins(tcb, es[0], p) else []) + Readied(tcb, Fired(tcb, es[1..]), p)
  {
    hide DueNow, Joins;
    var rest := Fired(tcb, es[1..]);
    if DueNow(tcb, es[0]) {
      assert ([es[0]] + rest)[1..] == rest;
    } else {
      assert [] + rest == rest && [] + Readied(tcb, rest, p) == Readied(tcb, rest, p);
    }
  }

  lemma TimersOnly(s: State, pre: seq<Node>, es: seq<Node>)
    requires Good(s, NULL) && At(s.q, TimerQ) == pre + es
    ensures forall n :: n in es ==> n.Wtm?
  {
    hide Good;
    forall n | n in es ensures n.Wtm? {
      assert n in pre + es;
      TimerTask(s, n);
    }
  }

  /** A tick: the waits whose timers fire end in the order of the timer list, and their tasks are
      behind the others in their priority lines in that order. */
  lemma TickExact(s: State)
    requires Good(s, NULL)
    ensures var r := Tick(s); var es := At(s.q, TimerQ);
      && |r.tcb| == |s.tcb| && Good(r, NULL) && r.run == s.run && r.o == s.o
      && At(r.q, TimerQ) == Survivors(s.tcb, es)
      && forall u :: 0 <= u < |s.tcb| ==> r.tcb[u] == if Wtm(u) in es then Ticked(s.tcb[u]) else s.tcb[u]
    ensures var r := Tick(s); var es := At(s.q, TimerQ);
      forall p: nat :: At(r.q, Line(p)) == At(s.q, Line(p)) + Readied(s.tcb, Fired(s.tcb, es), p)
  {
    hide Good, TickAll, Readied, Fired, Survivors, Ticked, At;
    TickGood(s);
    var es := At(s.q, TimerQ);
    assert [] + es == es;
    forall p: nat ensures At(Tick(s).q, Line(p)) == At(s.q, Line(p)) + Readied(s.tcb, Fired(s.tcb, es), p) {
      TickAllLine(s, [], es, p);
    }
  }

  // ---- set_flg ----

  lemma SweepOneLine(s: State, i: nat, t: nat, p0: bv32, p: nat)
    requires i < |s.o.flg| && t < |s.tcb| && Good(WithPtn(s, i, p0), NULL) && Waiting(s.tcb[t])
    ensures At(SweepOne(s, i, t).q, Line(p)) ==
            At(s.q, Line(p)) + if Hit(s.tcb, Tsk(t), s.o.flg[i].ptn) then Joins(s.tcb, Tsk(t), p) else []
  {
    hide Good, ReleaseWith, FlagCond, TaClr;
    if Hit(s.tcb, Tsk(t), s.o.flg[i].ptn) {
      var c := s.tcb[t].(flgOut := s.o.flg[i].ptn);
      var z := WithPtn(s, i, p0);
      ReleaseWithLine(z, t, c, E_OK, p);
      ReleaseIgnores(Put(s, t, c), t, E_OK, z.o);
    }
  }

  lemma {:induction false} SweepLine(s: State, i: nat, pre: seq<Node>, ws: seq<Node>, p0: bv32, p: nat)
    requires i < |s.o.flg| && Good(WithPtn(s, i, p0), NULL) && At(s.q, FlgQ(i)) == pre + ws
    ensures At(Sweep(s, i, ws).q, Line(p)) ==
            At(s.q, Line(p)) + Readied(s.tcb, Woken(s.tcb, ws, s.o.flg[i].ptn, TaClr(s.o.flg[i].atr)), p)
    decreases |ws|, 1
  {
    hide Good, SweepOne, FlagCond, TaClr, Hit, Joins, At, Released, Readied, Woken, Without;
    var h := FlgQ(i);
    var f := s.o.flg[i];
    if ws == [] {
      NobodyJoins(s.tcb, ws, f.ptn, TaClr(f.atr), p);
      assert At(s.q, Line(p)) + [] == At(s.q, Line(p));
    } else {
      var n := ws[0];
      var z := WithPtn(s, i, p0);
      RingsOf(z, h);
      CutMiddle(pre, ws);
      NoDupTail(pre, ws);
      WaiterTask(z, n, h);
      HomeOfWaiter(z, n.t, h);
      SweepOneGood(s, i, n.t, p0);
      SweepOneLine(s, i, n.t, p0, p);
      WokenStep(s.tcb, ws, f.ptn, TaClr(f.atr), p);
      if Hit(s.tcb, n, f.ptn) {
        SweepLineHit(s, i, pre, ws, p0, p);
      } else {
        SweepLine(s, i, pre + [n], ws[1..], p0, p);
        assert At(s.q, Line(p)) + [] == At(s.q, Line(p));
      }
    }
  }

  lemma NobodyJoins(tcb: seq<Tcb>, ws: seq<Node>, ptn: bv32, clr: bool, p: nat)
    requires ws == []
    ensures Readied(tcb, Woken(tcb, ws, ptn, clr), p) == []
  {
  }

  lemma WokenStep(tcb: seq<Tcb>, ws: seq<Node>, ptn: bv32, clr: bool, p: nat)
    requires ws != []
    ensures Readied(tcb, Woken(tcb, ws, ptn, clr), p) ==
      if !Hit(tcb, ws[0], ptn) then Readied(tcb, Woken(tcb, ws[1..], ptn, clr), p)
      else Joins(tcb, ws[0], p) + if clr then [] else Readied(tcb, Woken(tcb, ws[1..], ptn, clr), p)
  {
    hide Hit, Joins;
    var rest := if clr then [] else Woken(tcb, ws[1..], ptn, clr);
    assert ([ws[0]] + rest)[1..] == rest;
  }

  /** Past a woken waiter; after a cleared pattern nobody else is. */
  lemma {:induction false} SweepLineHit(s: State, i: nat, pre: seq<Node>, ws: seq<Node>, p0: bv32, p: nat)
    requires i < |s.o.flg| && ws != [] && ws[0].Tsk? && ws[0].t < |s.tcb| && ws[0] !in ws[1..]
    requires var s1 := SweepOne(s, i, ws[0].t); var f := s.o.flg[i];
      && |s1.o.flg| == |s.o.flg| && Good(WithPtn(s1, i, p0), NULL)
      && s1.tcb == s.tcb[ws[0].t := Released(s.tcb[ws[0].t].(flgOut := f.ptn, ercd := E_OK))]
      && At(s1.q, FlgQ(i)) == pre + ws[1..]
      && s1.o == (if TaClr(f.atr) then WithPtn(s, i, 0).o else s.o)
      && At(s1.q, Line(p)) == At(s.q, Line(p)) + Joins(s.tcb, ws[0], p)
      && Readied(s.tcb, Woken(s.tcb, ws, f.ptn, TaClr(f.atr)), p) ==
         Joins(s.tcb, ws[0], p) + if TaClr(f.atr) then [] else Readied(s.tcb, Woken(s.tcb, ws[1..], f.ptn, TaClr(f.atr)), p)
    ensures At(Sweep(s, i, ws).q, Line(p)) ==
            At(s.q, Line(p)) + Readied(s.tcb, Woken(s.tcb, ws, s.o.flg[i].ptn, TaClr(s.o.flg[i].atr)), p)
    decreases |ws|, 0
  {
    hide Good, SweepOne, FlagCond, TaClr, Hit, Joins, At, Released, Readied, Woken;
    var f := s.o.flg[i];
    var clr := TaClr(f.atr);
    var s1 := SweepOne(s, i, ws[0].t);
    SweepLine(s1, i, pre, ws[1..], p0, p);
    assert s1.o.flg[i].atr == f.atr;
    var rest := Readied(s1.tcb, Woken(s1.tcb, ws[1..], s1.o.flg[i].ptn, clr), p);
    if clr {
      ZeroHitsNone(s1, i, p0);
      NoneAfterClear(s1, i, pre, ws[1..], p);
      assert At(s1.q, Line(p)) + [] == At(s1.q, Line(p));
    } else {
      OthersHit(s.tcb, s1.tcb, ws[0].t, f.ptn);
      WokenSame(s.tcb, s1.tcb, ws[1..], f.ptn, clr);
      WokenIn(s.tcb, ws[1..], f.ptn, clr);
      OnlyTasksIn(s1, i, p0, pre, ws[1..]);
      OthersJoin(s.tcb, ws[0].t, s1.tcb[ws[0].t], p);
      ReadiedSame(s.tcb, s1.tcb, Woken(s.tcb, ws[1..], f.ptn, clr), p);
    }
    var a, b := At(s.q, Line(p)), Joins(s.tcb, ws[0], p);
    assert (a + b) + rest == a + (b + rest);
  }

  lemma NoneAfterClear(s: State, i: nat, pre: seq<Node>, ws: seq<Node>, p: nat)
    requires i < |s.o.flg| && s.o.flg[i].ptn == 0 && At(s.q, FlgQ(i)) == pre + ws
    requires forall n :: n in At(s.q, FlgQ(i)) ==> !Hit(s.tcb, n, 0)
    ensures Readied(s.tcb, Woken(s.tcb, ws, s.o.flg[i].ptn, true), p) == []
  {
    hide Hit;
    forall n | n in ws ensures !Hit(s.tcb, n, 0) { assert n in pre + ws; }
    NoneHit(s.tcb, ws, 0, true);
  }

  lemma OnlyTasksIn(s: State, i: nat, p0: bv32, pre: seq<Node>, ws: seq<Node>)
    requires i < |s.o.flg| && Good(WithPtn(s, i, p0), NULL) && At(s.q, FlgQ(i)) == pre + ws
    ensures forall n :: n in ws ==> n.Tsk?
  {
    hide Good;
    OnlyTasks(WithPtn(s, i, p0), FlgQ(i));
    forall n | n in ws ensures n in At(s.q, FlgQ(i)) { assert n in pre + ws; }
  }

  /** `set_flg`: the tasks woken are behind the others in their priority lines in the order they
      waited. */
  lemma SetFlgOrder(s: State, id: int, setptn: bv32, p: nat)
    requires Inv(s) && IdIn(id, |s.o.flg|) && s.o.flg[id - 1].live
    ensures var f := s.o.flg[id - 1];
      At(ISetFlg(s, id, setptn).0.q, Line(p)) == At(s.q, Line(p)) +
        Readied(s.tcb, Woken(s.tcb, At(s.q, FlgQ(id - 1)), BitsSet(f.ptn, setptn), TaClr(f.atr)), p)
  {
    hide Good, Sweep, Readied, Woken, At, BitsSet, FlagCond, TaClr;
    var i := id - 1;
    var f := s.o.flg[i];
    var s1 := WithPtn(s, i, BitsSet(f.ptn, setptn));
    PtnTwice(s, i, BitsSet(f.ptn, setptn), f.ptn);
    assert WithPtn(s, i, f.ptn) == s by { assert s.o.flg[i := f] == s.o.flg; }
    assert [] + At(s.q, FlgQ(i)) == At(s.q, FlgQ(i));
    SweepLine(s1, i, [], At(s.q, FlgQ(i)), f.ptn, p);
  }
}
