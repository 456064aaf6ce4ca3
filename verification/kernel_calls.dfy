/** The compound operations behind the calls: releasing one task or a whole queue, a tick,
    and the sweep of `set_flg`, each with its exact effect and the invariant kept. */
module KernelCalls {
  import opened KQueue
  import opened ReadyQueue
  import opened KernelState
  import opened KernelInv

  // ---- objects ----

  /** Only which semaphores are live matters for the placing of nodes. */
  lemma SameLive(q: Rings, np: nat, tcb: seq<Tcb>, o: Objs, o': Objs)
    requires Heads(q, np, o) && Elements(q, tcb, o, NULL)
    requires |o'.sem| == |o.sem| && |o'.flg| == |o.flg| && |o'.mbx| == |o.mbx|
    requires forall i :: 0 <= i < |o.sem| ==> o'.sem[i].live == o.sem[i].live
    ensures Heads(q, np, o') && Elements(q, tcb, o', NULL)
  {
    hide Home;
    forall h ensures IsHead(np, o', h) == IsHead(np, o, h) {}
    forall h, n | h in q && n in q[h] ensures Belongs(tcb, o', NULL, n, h) {
      assert Belongs(tcb, o, NULL, n, h);
    }
  }

  lemma SameAtr(q: Rings, tcb: seq<Tcb>, o: Objs, o': Objs)
    requires Objects(q, tcb, o) && forall h :: At(q, h) != [] ==> AtrOf(o', h) == AtrOf(o, h)
    requires forall i :: 0 <= i < |o'.sem| ==> SemOk(At(q, SemQ(i)), o'.sem[i])
    requires forall i :: 0 <= i < |o'.flg| ==> FlgOk(At(q, FlgQ(i)), tcb, o'.flg[i])
    requires forall i :: 0 <= i < |o'.mbx| ==> MbxOk(At(q, MbxQ(i)), o'.mbx[i])
    requires Packets(o'.mbx)
    ensures Objects(q, tcb, o')
  {
    hide SemOk, FlgOk, MbxOk, TaTpri, Packets;
    forall h | h in q && IsWaitQ(h) && TaTpri(AtrOf(o', h)) ensures Sorted(tcb, q[h]) {
      assert At(q, h) == q[h];
    }
  }

  lemma PutSemGood(s: State, i: nat, x: Sem)
    requires Good(s, NULL) && i < |s.o.sem| && x.live == s.o.sem[i].live && x.atr == s.o.sem[i].atr
    requires SemOk(At(s.q, SemQ(i)), x)
    ensures Good(PutSem(s, i, x), NULL)
  {
    hide Separate, Placed, Tcbs, TopTask, SemOk, FlgOk, MbxOk, Heads, Elements, Sorted, TaTpri, Packets;
    var o := PutSem(s, i, x).o;
    SameLive(s.q, s.np, s.tcb, s.o, o);
    SameAtr(s.q, s.tcb, s.o, o);
    hide Objects;
  }

  lemma PutFlgGood(s: State, i: nat, f: Flg)
    requires Good(s, NULL) && i < |s.o.flg| && (f.atr == s.o.flg[i].atr || At(s.q, FlgQ(i)) == [])
    requires FlgOk(At(s.q, FlgQ(i)), s.tcb, f)
    ensures Good(PutFlg(s, i, f), NULL)
  {
    hide Separate, Placed, Tcbs, TopTask, SemOk, FlgOk, MbxOk, Heads, Elements, Sorted, TaTpri, Packets;
    var o := PutFlg(s, i, f).o;
    SameLive(s.q, s.np, s.tcb, s.o, o);
    SameAtr(s.q, s.tcb, s.o, o);
    hide Objects;
  }

  lemma PutMbxGood(s: State, i: nat, b: Mbx)
    requires Good(s, NULL) && i < |s.o.mbx| && (b.atr == s.o.mbx[i].atr || At(s.q, MbxQ(i)) == [])
    requires MbxOk(At(s.q, MbxQ(i)), b) && Packets(s.o.mbx[i := b])
    ensures Good(PutMbx(s, i, b), NULL)
  {
    hide Separate, Placed, Tcbs, TopTask, SemOk, FlgOk, MbxOk, Heads, Elements, Sorted, TaTpri, Packets;
    var o := PutMbx(s, i, b).o;
    SameLive(s.q, s.np, s.tcb, s.o, o);
    SameAtr(s.q, s.tcb, s.o, o);
    hide Objects;
  }

  /** The head of a wait queue is a waiting task. */
  lemma FirstTaskIs(s: State, h: Node)
    requires Good(s, NULL) && IsWaitQ(h)
    ensures FirstTask(s, h) == NULL <==> At(s.q, h) == []
    ensures FirstTask(s, h) != NULL ==> var t := FirstTask(s, h);
      IsTask(s, t) && Waiting(s.tcb[t]) && s.tcb[t].waitObj == Some(h) && s.q[h][0] == Tsk(t)
  {
    if At(s.q, h) != [] { assert Belongs(s.tcb, s.o, NULL, At(s.q, h)[0], h); }
    hide Good;
  }

  lemma ReleaseWithGood(s: State, t: nat, c: Tcb, er: Er)
    requires Good(s, NULL) && t < |s.tcb| && Waiting(s.tcb[t])
    requires c == s.tcb[t].(flgOut := c.flgOut, msgOut := c.msgOut)
    ensures var r := ReleaseWith(Put(s, t, c), t, er);
      Good(r, NULL) && r.tcb == s.tcb[t := Released(c.(ercd := er))] && r.o == s.o && r.run == s.run && r.np == s.np
  {
    assert TcbOk(s.np, s.tcb[t]);
    var d := c.(ercd := er);
    assert TcbOk(s.np, d) && Home(d) == Home(s.tcb[t]);
    hide Good, TcbOk;
    PutPut(s, t, c, d);
    TweakGood(s, t, d);
    WaitReleaseGood(Put(s, t, d), t);
  }

  lemma PutSelf(s: State, t: nat)
    requires t < |s.tcb|
    ensures Put(s, t, s.tcb[t]) == s
  {
  }

  // ---- releasing everybody in a queue ----

  /** A released task is gone from its wait queue; nothing else changes there. */
  lemma ReleaseQueue(s: State, t: nat, h: Node)
    requires Good(s, NULL) && t < |s.tcb| && IsWaitQ(h)
    ensures At(WaitRelease(s, t).q, h) == Without(At(s.q, h), Tsk(t))
  {
    hide Good, WaitRelease, Remove, Append;
    OnlyHome(s, NULL, t, h);
    ReleaseRings(s, t, h);
    AtRemoveOther(s.q, Wtm(t), h);
    AtRemove(Remove(s.q, Wtm(t)), Tsk(t), h);
  }

  lemma ReleaseRings(s: State, t: nat, h: Node)
    requires t < |s.tcb| && !h.Line? && !h.Tsk?
    ensures At(WaitRelease(s, t).q, h) == At(Remove(Remove(s.q, Wtm(t)), Tsk(t)), h)
  {
    hide Remove, Without;
  }

  lemma GoodParts(s: State, t: nat, h: Node)
    requires Good(s, NULL) && t < |s.tcb|
    ensures TcbOk(s.np, s.tcb[t]) && NoDup(At(s.q, h))
  {
    assert Separate(s.q);
  }

  lemma EndWait(s: State, t: nat, c: Tcb, er: Er, h: Node)
    requires Good(s, NULL) && t < |s.tcb| && Waiting(s.tcb[t]) && IsWaitQ(h)
    requires c == s.tcb[t].(flgOut := c.flgOut, msgOut := c.msgOut)
    ensures At(ReleaseWith(Put(s, t, c), t, er).q, h) == Without(At(s.q, h), Tsk(t))
  {
    var d := c.(ercd := er);
    GoodParts(s, t, h);
    assert TcbOk(s.np, d) && Home(d) == Home(s.tcb[t]);
    hide Good, TcbOk, WaitRelease;
    PutPut(s, t, c, d);
    TweakGood(s, t, d);
    ReleaseQueue(Put(s, t, d), t, h);
  }

  lemma EndFirst(s: State, h: Node, c: Tcb, er: Er)
    requires Good(s, NULL) && IsWaitQ(h) && At(s.q, h) != [] && IsTask(s, FirstTask(s, h))
    requires var c0 := s.tcb[FirstTask(s, h)]; c == c0.(flgOut := c.flgOut, msgOut := c.msgOut)
    ensures var t := FirstTask(s, h); var r := ReleaseWith(Put(s, t, c), t, er);
      && Waiting(s.tcb[t]) && s.tcb[t].waitObj == Some(h) && At(s.q, h)[0] == Tsk(t)
      && Good(r, NULL) && r.tcb == s.tcb[t := Released(c.(ercd := er))] && At(r.q, h) == At(s.q, h)[1..]
      && r.o == s.o && r.run == s.run && r.np == s.np
  {
    hide Good, TcbOk, ReleaseWith;
    FirstTaskIs(s, h);
    var t := FirstTask(s, h);
    ReleaseWithGood(s, t, c, er);
    EndWait(s, t, c, er, h);
    GoodParts(s, t, h);
    WithoutAt(At(s.q, h), 0);
    assert At(s.q, h)[..0] + At(s.q, h)[1..] == At(s.q, h)[1..];
  }

  /** `wait_delete` releases every waiter with E_DLT and leaves the queue empty. */
  lemma {:induction false} ReleaseAllGood(s: State, h: Node)
    requires Good(s, NULL) && IsWaitQ(h)
    ensures var r := ReleaseAll(s, At(s.q, h));
      Good(r, NULL) && At(r.q, h) == [] && r.run == s.run && r.np == s.np &&
      forall u :: 0 <= u < |s.tcb| ==>
        r.tcb[u] == if Tsk(u) in At(s.q, h) then Released(s.tcb[u].(ercd := E_DLT)) else s.tcb[u]
    decreases |At(s.q, h)|
  {
    hide Good, ReleaseWith, TcbOk;
    var ws := At(s.q, h);
    if ws != [] {
      FirstTaskIs(s, h);
      var t := FirstTask(s, h);
      PutSelf(s, t);
      EndFirst(s, h, s.tcb[t], E_DLT);
      var s1 := ReleaseWith(s, t, E_DLT);
      ReleaseAllGood(s1, h);
      GoodParts(s, t, h);
      assert forall u: nat :: Tsk(u) in ws <==> u == t || Tsk(u) in ws[1..];
      assert Tsk(t) !in ws[1..];
    }
  }

  // ---- a tick ----

  function Ticked(c: Tcb): Tcb {
    var n := U32(c.count - 1);
    if n == 0 then Released(c.(count := 0)) else c.(count := n)
  }

  /** The event fires at this tick. A count of zero wraps and is not due. */
  predicate DueNow(tcb: seq<Tcb>, n: Node) {
    n.Wtm? && n.t < |tcb| && U32(tcb[n.t].count - 1) == 0
  }

  function Survivors(tcb: seq<Tcb>, es: seq<Node>): seq<Node> {
    if es == [] then []
    else (if DueNow(tcb, es[0]) then [] else [es[0]]) + Survivors(tcb, es[1..])
  }

  lemma {:induction false} SurvivorsSame(tcb: seq<Tcb>, tcb': seq<Tcb>, es: seq<Node>)
    requires forall n :: n in es ==> DueNow(tcb', n) == DueNow(tcb, n)
    ensures Survivors(tcb', es) == Survivors(tcb, es)
  {
    if es != [] {
      assert es[0] in es && forall n :: n in es[1..] ==> n in es;
      SurvivorsSame(tcb, tcb', es[1..]);
    }
  }

  lemma TimerTask(s: State, n: Node)
    requires Good(s, NULL) && n in At(s.q, TimerQ)
    ensures n.Wtm? && n.t < |s.tcb| && Waiting(s.tcb[n.t])
  {
    assert Belongs(s.tcb, s.o, NULL, n, TimerQ);
  }

  lemma TickOneGood(s: State, t: nat)
    requires Good(s, NULL) && t < |s.tcb| && Waiting(s.tcb[t])
    ensures var r := TickOne(s, t);
      Good(r, NULL) && r.tcb == s.tcb[t := Ticked(s.tcb[t])] && r.o == s.o && r.run == s.run && r.np == s.np &&
      At(r.q, TimerQ) == if DueNow(s.tcb, Wtm(t)) then Without(At(s.q, TimerQ), Wtm(t)) else At(s.q, TimerQ)
  {
    hide Good, TcbOk, TickOne, WaitRelease, Released;
    var d := s.tcb[t].(count := U32(s.tcb[t].count - 1));
    GoodParts(s, t, TimerQ);
    CountOk(s.np, s.tcb[t]);
    TweakGood(s, t, d);
    var s1 := Put(s, t, d);
    TickOneIs(s, t);
    if DueNow(s.tcb, Wtm(t)) {
      WaitReleaseGood(s1, t);
      ReleaseTimer(s1, t);
      assert s.tcb[t := d][t := Released(d)] == s.tcb[t := Released(d)];
    }
  }

  lemma CountOk(np: nat, c: Tcb)
    requires TcbOk(np, c)
    ensures var d := c.(count := U32(c.count - 1)); TcbOk(np, d) && Home(d) == Home(c)
  {
  }

  lemma TickOneIs(s: State, t: nat)
    requires t < |s.tcb|
    ensures var s1 := Put(s, t, s.tcb[t].(count := U32(s.tcb[t].count - 1)));
      TickOne(s, t) == if DueNow(s.tcb, Wtm(t)) then WaitRelease(s1, t) else s1
  {
  }

  lemma ReleaseTimer(s: State, t: nat)
    requires Good(s, NULL) && t < |s.tcb|
    ensures At(WaitRelease(s, t).q, TimerQ) == Without(At(s.q, TimerQ), Wtm(t))
  {
    hide Good, WaitRelease, Remove, Append;
    TimerNotHome(s, t);
    ReleaseRings(s, t, TimerQ);
    AtRemove(s.q, Wtm(t), TimerQ);
    AtRemoveOther(Remove(s.q, Wtm(t)), Tsk(t), TimerQ);
  }

  lemma TimerNotHome(s: State, t: nat)
    requires Good(s, NULL) && t < |s.tcb|
    ensures Tsk(t) !in At(s.q, TimerQ)
  {
    OnlyHome(s, NULL, t, TimerQ);
    assert TcbOk(s.np, s.tcb[t]);
  }

  /** One tick: each queued event counts down once; those that reach zero are released
      in queue order and the others keep their order. `pre` is what the handler has
      passed already. */
  lemma {:induction false} TickAllGood(s: State, pre: seq<Node>, es: seq<Node>)
    requires Good(s, NULL) && At(s.q, TimerQ) == pre + es
    ensures Passed(s, pre, es, TickAll(s, es))
    decreases |es|
  {
    hide Good, TickOne, Survivors, Ticked, DueNow, Passed, At, Without;
    if es == [] {
      PassedNone(s, pre, es);
    } else {
      var n := es[0];
      TickHead(s, pre, es);
      var s1 := TickOne(s, n.t);
      var pre1 := if DueNow(s.tcb, n) then pre else pre + [n];
      TickAllGood(s1, pre1, es[1..]);
      PassedStep(s, pre, es, s1, TickAll(s1, es[1..]));
    }
  }

  /** State `r` is what a tick over the events `es` makes of `s`, `pre` having been passed. */
  ghost predicate Passed(s: State, pre: seq<Node>, es: seq<Node>, r: State) {
    && |r.tcb| == |s.tcb| && Good(r, NULL) && r.run == s.run && r.np == s.np
    && At(r.q, TimerQ) == pre + Survivors(s.tcb, es)
    && forall u :: 0 <= u < |s.tcb| ==> r.tcb[u] == if Wtm(u) in es then Ticked(s.tcb[u]) else s.tcb[u]
  }

  lemma PassedNone(s: State, pre: seq<Node>, es: seq<Node>)
    requires Good(s, NULL) && At(s.q, TimerQ) == pre + es && es == []
    ensures Passed(s, pre, es, s)
  {
    hide Good;
    assert pre + [] == pre;
  }

  lemma CutMiddle(pre: seq<Node>, es: seq<Node>)
    requires NoDup(pre + es) && es != []
    ensures Without(pre + es, es[0]) == pre + es[1..]
    ensures pre + es == (pre + [es[0]]) + es[1..] && es[0] in pre + es
  {
    var xs := pre + es;
    WithoutAt(xs, |pre|);
    hide Without, NoDup;
    assert xs[|pre|] == es[0];
    assert xs[..|pre|] == pre && xs[|pre| + 1..] == es[1..];
  }

  lemma RingsOf(s: State, h: Node)
    requires Good(s, NULL)
    ensures NoDup(At(s.q, h))
  {
    assert Separate(s.q);
  }

  /** The first event of a tick. */
  lemma TickHead(s: State, pre: seq<Node>, es: seq<Node>)
    requires Good(s, NULL) && At(s.q, TimerQ) == pre + es && es != []
    ensures es[0].Wtm? && es[0].t < |s.tcb| && es[0] !in es[1..]
    ensures var r := TickOne(s, es[0].t);
      && Good(r, NULL) && r.tcb == s.tcb[es[0].t := Ticked(s.tcb[es[0].t])] && r.run == s.run && r.np == s.np
      && At(r.q, TimerQ) == (if DueNow(s.tcb, es[0]) then pre else pre + [es[0]]) + es[1..]
  {
    hide Good, TickOne, Ticked, DueNow, Without, NoDup, At;
    var n := es[0];
    RingsOf(s, TimerQ);
    CutMiddle(pre, es);
    NoDupTail(pre, es);
    TimerTask(s, n);
    TickOneGood(s, n.t);
  }

  lemma PassedStep(s: State, pre: seq<Node>, es: seq<Node>, s1: State, r: State)
    requires es != [] && es[0].Wtm? && es[0].t < |s.tcb| && es[0] !in es[1..]
    requires s1.tcb == s.tcb[es[0].t := Ticked(s.tcb[es[0].t])] && s1.run == s.run && s1.np == s.np
    requires Passed(s1, if DueNow(s.tcb, es[0]) then pre else pre + [es[0]], es[1..], r)
    ensures Passed(s, pre, es, r)
  {
    hide Good, Ticked, At;
    var n := es[0];
    SurvivorsSame(s.tcb, s1.tcb, es[1..]);
    SurvivorsCons(s.tcb, es);
    var ys := Survivors(s.tcb, es[1..]);
    hide Survivors;
    assert (pre + [n]) + ys == pre + ([n] + ys) && pre + ([] + ys) == pre + ys;
    assert forall u: nat :: Wtm(u) in es <==> u == n.t || Wtm(u) in es[1..];
  }

  /** A whole tick: each queued timer counts down once, the due ones end their waits, and the
      others stay in order. */
  lemma TickGood(s: State)
    requires Good(s, NULL)
    ensures var r := Tick(s); var es := At(s.q, TimerQ);
      && |r.tcb| == |s.tcb| && Good(r, NULL) && r.run == s.run && r.np == s.np && r.o == s.o
      && At(r.q, TimerQ) == Survivors(s.tcb, es)
      && forall u :: 0 <= u < |s.tcb| ==> r.tcb[u] == if Wtm(u) in es then Ticked(s.tcb[u]) else s.tcb[u]
  {
    hide Good, TickAll, Survivors, Ticked, At;
    var es := At(s.q, TimerQ);
    assert [] + es == es && [] + Survivors(s.tcb, es) == Survivors(s.tcb, es);
    TickAllGood(s, [], es);
  }

  lemma SurvivorsCons(tcb: seq<Tcb>, es: seq<Node>)
    requires es != []
    ensures Survivors(tcb, es) == (if DueNow(tcb, es[0]) then [] else [es[0]]) + Survivors(tcb, es[1..])
  {
  }

  lemma NoDupTail(pre: seq<Node>, es: seq<Node>)
    requires NoDup(pre + es) && es != []
    ensures es[0] !in es[1..] && es[0] !in pre && NoDup(es)
  {
    var xs := pre + es;
    assert forall i :: 0 <= i < |es| ==> xs[|pre| + i] == es[i];
    assert forall i :: 0 <= i < |pre| ==> xs[i] == pre[i];
  }

  // ---- set_flg ----

  predicate Hit(tcb: seq<Tcb>, n: Node, p: bv32) {
    n.Tsk? && n.t < |tcb| && FlagCond(p, tcb[n.t].waiptn, tcb[n.t].wfmode)
  }

  /** The waiters that pattern `p` wakes: all whose condition it meets, or with TA_CLR
      only the first of them. */
  function Woken(tcb: seq<Tcb>, ws: seq<Node>, p: bv32, clr: bool): seq<Node> {
    if ws == [] then []
    else if Hit(tcb, ws[0], p) then [ws[0]] + if clr then [] else Woken(tcb, ws[1..], p, clr)
    else Woken(tcb, ws[1..], p, clr)
  }

  /** The waiters that stay, in their old order. */
  function Unwoken(tcb: seq<Tcb>, ws: seq<Node>, p: bv32, clr: bool): seq<Node> {
    if ws == [] then []
    else if Hit(tcb, ws[0], p) then if clr then ws[1..] else Unwoken(tcb, ws[1..], p, clr)
    else [ws[0]] + Unwoken(tcb, ws[1..], p, clr)
  }

  function PatternAfter(tcb: seq<Tcb>, ws: seq<Node>, p: bv32, clr: bool): bv32 {
    if clr && Woken(tcb, ws, p, clr) != [] then 0 else p
  }

  lemma {:induction false} WokenSame(tcb: seq<Tcb>, tcb': seq<Tcb>, ws: seq<Node>, p: bv32, clr: bool)
    requires forall n :: n in ws ==> Hit(tcb', n, p) == Hit(tcb, n, p)
    ensures Woken(tcb', ws, p, clr) == Woken(tcb, ws, p, clr)
    ensures Unwoken(tcb', ws, p, clr) == Unwoken(tcb, ws, p, clr)
  {
    hide Hit;
    if ws != [] {
      assert ws[0] in ws && forall n :: n in ws[1..] ==> n in ws;
      WokenSame(tcb, tcb', ws[1..], p, clr);
    }
  }

  /** A pattern of zero satisfies nobody who asked for something. */
  lemma ZeroPattern(waiptn: bv32, wfmode: nat)
    requires waiptn != 0
    ensures !FlagCond(0, waiptn, wfmode)
  {
  }

  /** `s` with the pattern of eventflag `i` replaced. */
  function WithPtn(s: State, i: nat, p: bv32): State
    requires i < |s.o.flg|
  {
    PutFlg(s, i, s.o.flg[i].(ptn := p))
  }

  /** The sweep may run while waiters it has not reached yet are satisfied: the invariant
      then holds for the pattern `p0` from before the call. */
  lemma SweepOneGood(s: State, i: nat, t: nat, p0: bv32)
    requires i < |s.o.flg| && t < |s.tcb| && Good(WithPtn(s, i, p0), NULL)
    requires Tsk(t) in At(s.q, FlgQ(i))
    ensures var r := SweepOne(s, i, t);
      var f := s.o.flg[i];
      && |r.o.flg| == |s.o.flg| && Good(WithPtn(r, i, p0), NULL) && r.run == s.run && r.np == s.np
      && (if Hit(s.tcb, Tsk(t), f.ptn) then
            && r.tcb == s.tcb[t := Released(s.tcb[t].(flgOut := f.ptn, ercd := E_OK))]
            && At(r.q, FlgQ(i)) == Without(At(s.q, FlgQ(i)), Tsk(t))
            && r.o == (if TaClr(f.atr) then WithPtn(s, i, 0).o else s.o)
          else r == s)
  {
    hide Good, TcbOk, ReleaseWith, Released, FlagCond, TaClr;
    var z := WithPtn(s, i, p0);
    var f := s.o.flg[i];
    OnlyHome(z, NULL, t, FlgQ(i));
    if Hit(s.tcb, Tsk(t), f.ptn) {
      var c := s.tcb[t].(flgOut := f.ptn);
      HomeOfWaiter(z, t, FlgQ(i));
      ReleaseWithGood(z, t, c, E_OK);
      EndWait(z, t, c, E_OK, FlgQ(i));
      var s1 := ReleaseWith(Put(s, t, c), t, E_OK);
      ReleaseIgnores(Put(s, t, c), t, E_OK, z.o);
      assert s1.o == s.o by { ReleaseIgnores(Put(s, t, c), t, E_OK, s.o); }
      PtnTwice(s1, i, 0, p0);
    }
  }

  lemma HomeOfWaiter(s: State, t: nat, h: Node)
    requires Good(s, NULL) && t < |s.tcb| && Tsk(t) in At(s.q, h) && IsWaitQ(h)
    ensures Waiting(s.tcb[t])
  {
    OnlyHome(s, NULL, t, h);
  }

  /** Releasing a task does not look at the objects. */
  lemma ReleaseIgnores(s: State, t: nat, er: Er, o: Objs)
    requires t < |s.tcb|
    ensures ReleaseWith(s.(o := o), t, er) == ReleaseWith(s, t, er).(o := o)
    ensures ReleaseWith(s, t, er).o == s.o
  {
  }

  lemma PtnTwice(s: State, i: nat, p: bv32, p0: bv32)
    requires i < |s.o.flg|
    ensures WithPtn(WithPtn(s, i, p), i, p0) == WithPtn(s, i, p0)
  {
    var f := s.o.flg[i];
    assert s.o.flg[i := f.(ptn := p)][i := f.(ptn := p0)] == s.o.flg[i := f.(ptn := p0)];
  }

  /** State `r` is what the sweep over the waiters `ws` of eventflag `i` makes of `s`, `pre`
      being those it has passed: exactly the woken ones are released, each with the pattern;
      the others stay in their order; no remaining waiter is satisfied. */
  ghost predicate Swept(s: State, i: nat, pre: seq<Node>, ws: seq<Node>, r: State)
    requires i < |s.o.flg|
  {
    var p, clr := s.o.flg[i].ptn, TaClr(s.o.flg[i].atr);
    && |r.tcb| == |s.tcb| && Good(r, NULL) && r.run == s.run && r.np == s.np
    && At(r.q, FlgQ(i)) == pre + Unwoken(s.tcb, ws, p, clr)
    && r.o == WithPtn(s, i, PatternAfter(s.tcb, ws, p, clr)).o
    && forall u :: 0 <= u < |s.tcb| ==>
         r.tcb[u] == if Tsk(u) in Woken(s.tcb, ws, p, clr)
                     then Released(s.tcb[u].(flgOut := p, ercd := E_OK)) else s.tcb[u]
  }

  lemma {:induction false} SweepGood(s: State, i: nat, pre: seq<Node>, ws: seq<Node>, p0: bv32)
    requires i < |s.o.flg| && Good(WithPtn(s, i, p0), NULL) && At(s.q, FlgQ(i)) == pre + ws
    requires forall n :: n in pre ==> !Hit(s.tcb, n, s.o.flg[i].ptn)
    requires s.o.flg[i].live
    ensures Swept(s, i, pre, ws, Sweep(s, i, ws))
    decreases |ws|, 1
  {
    hide Good, SweepOne, Released, FlagCond, TaClr, Swept, Sweep, Woken, Unwoken;
    var f := s.o.flg[i];
    var h := FlgQ(i);
    if ws == [] {
      SweepEnd(s, i, pre, p0);
    } else {
      var n := ws[0];
      assert n in At(s.q, h) by { assert (pre + ws)[|pre|] == n; }
      WaiterTask(WithPtn(s, i, p0), n, h);
      SweepOneGood(s, i, n.t, p0);
      GoodParts(WithPtn(s, i, p0), n.t, h);
      NoDupTail(pre, ws);
      if !Hit(s.tcb, n, f.ptn) {
        SweepMiss(s, i, pre, ws, p0);
      } else {
        WithoutAt(pre + ws, |pre|);
        assert (pre + ws)[..|pre|] + (pre + ws)[|pre| + 1..] == pre + ws[1..];
        SweepHit(s, i, pre, ws, p0);
      }
    }
  }

  lemma {:induction false} SweepMiss(s: State, i: nat, pre: seq<Node>, ws: seq<Node>, p0: bv32)
    requires i < |s.o.flg| && Good(WithPtn(s, i, p0), NULL) && At(s.q, FlgQ(i)) == pre + ws
    requires forall n :: n in pre ==> !Hit(s.tcb, n, s.o.flg[i].ptn)
    requires s.o.flg[i].live && ws != [] && !Hit(s.tcb, ws[0], s.o.flg[i].ptn)
    requires ws[0].Tsk? && ws[0].t < |s.tcb| && SweepOne(s, i, ws[0].t) == s
    ensures Swept(s, i, pre, ws, Sweep(s, i, ws))
    decreases |ws|, 0
  {
    hide Good, SweepOne, Released, FlagCond, TaClr, Hit;
    var p, clr := s.o.flg[i].ptn, TaClr(s.o.flg[i].atr);
    assert pre + ws == (pre + [ws[0]]) + ws[1..];
    SweepGood(s, i, pre + [ws[0]], ws[1..], p0);
    assert (pre + [ws[0]]) + Unwoken(s.tcb, ws[1..], p, clr) == pre + ([ws[0]] + Unwoken(s.tcb, ws[1..], p, clr));
  }

  lemma SweepEnd(s: State, i: nat, pre: seq<Node>, p0: bv32)
    requires i < |s.o.flg| && Good(WithPtn(s, i, p0), NULL) && s.o.flg[i].live && At(s.q, FlgQ(i)) == pre
    requires forall n :: n in pre ==> !Hit(s.tcb, n, s.o.flg[i].ptn)
    ensures Swept(s, i, pre, [], Sweep(s, i, []))
  {
    var z := WithPtn(s, i, p0);
    var f := s.o.flg[i];
    assert FlgOk(At(z.q, FlgQ(i)), z.tcb, z.o.flg[i]);
    hide Good, FlagCond;
    forall t | 0 <= t < |s.tcb| && Tsk(t) in At(s.q, FlgQ(i))
      ensures s.tcb[t].waiptn != 0 && !FlagCond(f.ptn, s.tcb[t].waiptn, s.tcb[t].wfmode)
    {
      assert !Hit(s.tcb, Tsk(t), f.ptn);
    }
    PutFlgGood(z, i, f);
    PtnBack(s, i, p0);
    assert pre + [] == pre && s.o.flg[i := f] == s.o.flg;
  }

  lemma PtnBack(s: State, i: nat, p0: bv32)
    requires i < |s.o.flg|
    ensures PutFlg(WithPtn(s, i, p0), i, s.o.flg[i]) == s
  {
    assert s.o.flg[i := s.o.flg[i].(ptn := p0)][i := s.o.flg[i]] == s.o.flg;
  }

  lemma WaiterTask(s: State, n: Node, h: Node)
    requires Good(s, NULL) && n in At(s.q, h) && (h.FlgQ? || h.MbxQ?)
    ensures n.Tsk? && n.t < |s.tcb|
  {
    assert Belongs(s.tcb, s.o, NULL, n, h);
  }

  /** The step over a satisfied waiter; a cleared pattern satisfies nobody after it. */
  lemma {:induction false} SweepHit(s: State, i: nat, pre: seq<Node>, ws: seq<Node>, p0: bv32)
    requires i < |s.o.flg| && Good(WithPtn(s, i, p0), NULL) && At(s.q, FlgQ(i)) == pre + ws
    requires forall n :: n in pre ==> !Hit(s.tcb, n, s.o.flg[i].ptn)
    requires s.o.flg[i].live && ws != [] && Hit(s.tcb, ws[0], s.o.flg[i].ptn)
    requires ws[0].Tsk? && ws[0].t < |s.tcb| && ws[0] !in ws[1..] && ws[0] !in pre
    requires var s1 := SweepOne(s, i, ws[0].t); var f := s.o.flg[i];
      && |s1.o.flg| == |s.o.flg| && Good(WithPtn(s1, i, p0), NULL) && s1.run == s.run && s1.np == s.np
      && s1.tcb == s.tcb[ws[0].t := Released(s.tcb[ws[0].t].(flgOut := f.ptn, ercd := E_OK))]
      && At(s1.q, FlgQ(i)) == pre + ws[1..]
      && s1.o == (if TaClr(f.atr) then WithPtn(s, i, 0).o else s.o)
    ensures Swept(s, i, pre, ws, Sweep(s, i, ws))
    decreases |ws|, 0
  {
    hide Good, SweepOne, Released, FlagCond, TaClr, Hit, Swept;
    var s1 := SweepOne(s, i, ws[0].t);
    var clr := TaClr(s.o.flg[i].atr);
    var p := s1.o.flg[i].ptn;
    OthersHit(s.tcb, s1.tcb, ws[0].t, p);
    if clr { ZeroHitsNone(s1, i, p0); }
    forall n | n in pre ensures !Hit(s1.tcb, n, p) { assert n in At(s1.q, FlgQ(i)); }
    SweepGood(s1, i, pre, ws[1..], p0);
    WokenSame(s.tcb, s1.tcb, ws[1..], p, clr);
    WokenIn(s.tcb, ws[1..], p, clr);
    if clr {
      forall n | n in ws[1..] ensures !Hit(s.tcb, n, 0) { assert n in At(s1.q, FlgQ(i)); }
      NoneHit(s.tcb, ws[1..], 0, clr);
    }
    PtnTwice(s, i, 0, 0);
    SweptHit(s, i, pre, ws);
  }

  lemma OthersHit(tcb: seq<Tcb>, tcb': seq<Tcb>, t: nat, p: bv32)
    requires t < |tcb| == |tcb'| && tcb' == tcb[t := tcb'[t]]
    ensures forall n :: n != Tsk(t) ==> Hit(tcb', n, p) == Hit(tcb, n, p)
  {
  }

  lemma ZeroHitsNone(s: State, i: nat, p0: bv32)
    requires i < |s.o.flg| && Good(WithPtn(s, i, p0), NULL)
    ensures forall n :: n in At(s.q, FlgQ(i)) ==> !Hit(s.tcb, n, 0)
  {
    forall n | n in At(s.q, FlgQ(i)) ensures !Hit(s.tcb, n, 0) {
      if n.Tsk? && n.t < |s.tcb| {
        WaitsForSomething(WithPtn(s, i, p0), n.t, i);
        ZeroPattern(s.tcb[n.t].waiptn, s.tcb[n.t].wfmode);
      }
    }
  }

  /** Sweeping past a woken waiter and then sweeping the rest is sweeping all. */
  lemma SweptHit(s: State, i: nat, pre: seq<Node>, ws: seq<Node>)
    requires i < |s.o.flg| && ws != [] && Hit(s.tcb, ws[0], s.o.flg[i].ptn) && ws[0] !in ws[1..]
    requires var s1 := SweepOne(s, i, ws[0].t); var f := s.o.flg[i]; var clr := TaClr(f.atr);
      && |s1.o.flg| == |s.o.flg| && s1.run == s.run && s1.np == s.np
      && s1.tcb == s.tcb[ws[0].t := Released(s.tcb[ws[0].t].(flgOut := f.ptn, ercd := E_OK))]
      && s1.o == (if clr then WithPtn(s, i, 0).o else s.o)
      && var p := s1.o.flg[i].ptn;
      && Swept(s1, i, pre, ws[1..], Sweep(s1, i, ws[1..]))
      && Woken(s1.tcb, ws[1..], p, clr) == Woken(s.tcb, ws[1..], p, clr)
      && Unwoken(s1.tcb, ws[1..], p, clr) == Unwoken(s.tcb, ws[1..], p, clr)
      && (forall n :: n in Woken(s.tcb, ws[1..], p, clr) ==> n in ws[1..])
      && (clr ==> p == 0 && Woken(s.tcb, ws[1..], p, clr) == [] && Unwoken(s.tcb, ws[1..], p, clr) == ws[1..])
      && WithPtn(s, i, 0) == WithPtn(WithPtn(s, i, 0), i, 0)
    ensures Swept(s, i, pre, ws, Sweep(s, i, ws))
  {
    hide Good, SweepOne, Released, FlagCond, TaClr;
    var s1 := SweepOne(s, i, ws[0].t);
    var p, clr := s.o.flg[i].ptn, TaClr(s.o.flg[i].atr);
    assert Woken(s.tcb, ws, p, clr) == [ws[0]] + if clr then [] else Woken(s.tcb, ws[1..], p, clr);
    assert Unwoken(s.tcb, ws, p, clr) == if clr then ws[1..] else Unwoken(s.tcb, ws[1..], p, clr);
  }

  lemma WaitsForSomething(s: State, t: nat, i: nat)
    requires Good(s, NULL) && t < |s.tcb| && i < |s.o.flg| && Tsk(t) in At(s.q, FlgQ(i))
    ensures s.tcb[t].waiptn != 0
  {
    assert FlgOk(At(s.q, FlgQ(i)), s.tcb, s.o.flg[i]);
  }

  lemma {:induction false} WokenIn(tcb: seq<Tcb>, ws: seq<Node>, p: bv32, clr: bool)
    ensures forall n :: n in Woken(tcb, ws, p, clr) ==> n in ws && Hit(tcb, n, p)
  {
    hide Hit;
    if ws != [] { WokenIn(tcb, ws[1..], p, clr); }
  }

  lemma {:induction false} NoneHit(tcb: seq<Tcb>, ws: seq<Node>, p: bv32, clr: bool)
    requires forall n :: n in ws ==> !Hit(tcb, n, p)
    ensures Woken(tcb, ws, p, clr) == [] && Unwoken(tcb, ws, p, clr) == ws
  {
    hide Hit;
    if ws != [] { NoneHit(tcb, ws[1..], p, clr); }
  }
}
