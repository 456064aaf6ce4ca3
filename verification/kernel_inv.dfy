/** The global invariant of the kernel and what its building blocks do to it.

    `Good(s, x)` says that every queue node other than those of task `x` sits exactly
    where its owner's state dictates. A task in the middle of a state change is that
    `x`; between service calls there is none (`x == NULL`). */
module KernelInv {
  import opened KQueue
  import opened ReadyQueue
  import opened KernelState

  /** Nodes that permanently head a queue. A dead semaphore's wait queue head is
      linked into the list of free semaphores instead. */
  predicate IsHead(np: nat, o: Objs, h: Node) {
    match h
    case Line(p) => p < np
    case SemQ(i) => i < |o.sem| && o.sem[i].live
    case FlgQ(i) => i < |o.flg|
    case MbxQ(i) => i < |o.mbx|
    case Tsk(_) => false
    case Wtm(_) => false
    case _ => true
  }

  /** The queue that must hold the task's `qnode`, if any. */
  function Home(c: Tcb): Option<Node> {
    match c.state
    case NOEXS => Some(FreeTcb)
    case RDY => Some(Line(c.tskpri))
    case WAI => c.waitObj
    case WAS => c.waitObj
    case SUS => None
    case DMT => None
  }

  predicate Belongs(tcb: seq<Tcb>, o: Objs, x: int, n: Node, h: Node) {
    match n
    case Tsk(t) => t < |tcb| && t != x && Home(tcb[t]) == Some(h)
    case Wtm(t) => t < |tcb| && h == TimerQ && (t != x ==> Waiting(tcb[t]))
    case SemQ(i) => i < |o.sem| && h == FreeSem && !o.sem[i].live
    case _ => false
  }

  ghost predicate Heads(q: Rings, np: nat, o: Objs) {
    && (forall h :: IsHead(np, o, h) ==> h in q)
    && (forall h :: h in q && !IsHead(np, o, h) ==> (h.Tsk? || h.Wtm?) && q[h] == [])
    && (forall i :: 0 <= i < |o.sem| && !o.sem[i].live ==> SemQ(i) in At(q, FreeSem))
  }

  ghost predicate Elements(q: Rings, tcb: seq<Tcb>, o: Objs, x: int) {
    forall h, n :: h in q && n in q[h] ==> Belongs(tcb, o, x, n, h)
  }

  /** A waiting task has a timer: running, or self-linked when it waits for ever. */
  ghost predicate Timed(q: Rings, t: nat) {
    Wtm(t) in q || Wtm(t) in At(q, TimerQ)
  }

  ghost predicate PlacedTask(q: Rings, c: Tcb, t: nat) {
    && (Home(c).Some? ==> Tsk(t) in At(q, Home(c).value))
    && (Waiting(c) ==> Timed(q, t))
    && (Waiting(c) && c.waitObj == None ==> Tsk(t) in q)
  }

  ghost predicate Placed(q: Rings, tcb: seq<Tcb>, x: int) {
    forall t :: 0 <= t < |tcb| && t != x ==> PlacedTask(q, tcb[t], t)
  }

  predicate TcbOk(np: nat, c: Tcb) {
    && c.count < 0x1_0000_0000 && c.wfmode <= 1
    && (c.state != NOEXS ==>
        && c.itskpri < np && c.tskpri < np
        && 0 <= c.actcnt <= TMAX_ACTCNT && 0 <= c.wupcnt <= TMAX_ACTCNT && 0 <= c.suscnt <= TMAX_ACTCNT
        && (c.state == DMT ==> c.actcnt == 0)
        && (c.suscnt > 0 <==> c.state == SUS || c.state == WAS)
        && (c.tskwait != NotSleeping <==> Waiting(c) && c.waitObj == None)
        && (c.tskwait == TTW_SLP ==> c.wupcnt == 0)
        && (Waiting(c) && c.waitObj.Some? ==> IsWaitQ(c.waitObj.value)))
  }

  ghost predicate Tcbs(np: nat, tcb: seq<Tcb>, x: int) {
    forall t :: 0 <= t < |tcb| && t != x ==> TcbOk(np, tcb[t])
  }

  ghost predicate SemOk(ws: seq<Node>, x: Sem) {
    x.live ==> 0 <= x.cnt <= x.max && (ws != [] ==> x.cnt == 0)
  }

  /** No task keeps waiting for a pattern that is there already. */
  ghost predicate FlgOk(ws: seq<Node>, tcb: seq<Tcb>, f: Flg) {
    && (!f.live ==> ws == [])
    && (forall t :: 0 <= t < |tcb| && Tsk(t) in ws ==>
          tcb[t].waiptn != 0 && !FlagCond(f.ptn, tcb[t].waiptn, tcb[t].wfmode))
  }

  ghost predicate MbxOk(ws: seq<Node>, b: Mbx) {
    ws != [] ==> b.live && b.msgs == []
  }

  function AtrOf(o: Objs, h: Node): bv16 {
    match h
    case SemQ(i) => if i < |o.sem| then o.sem[i].atr else 0
    case FlgQ(i) => if i < |o.flg| then o.flg[i].atr else 0
    case MbxQ(i) => if i < |o.mbx| then o.mbx[i].atr else 0
    case _ => 0
  }

  ghost predicate Sorted(tcb: seq<Tcb>, xs: seq<Node>) {
    forall i, j :: 0 <= i < j < |xs| ==> PriOf(tcb, xs[i]) <= PriOf(tcb, xs[j])
  }

  ghost predicate Objects(q: Rings, tcb: seq<Tcb>, o: Objs) {
    && (forall i :: 0 <= i < |o.sem| ==> SemOk(At(q, SemQ(i)), o.sem[i]))
    && (forall i :: 0 <= i < |o.flg| ==> FlgOk(At(q, FlgQ(i)), tcb, o.flg[i]))
    && (forall i :: 0 <= i < |o.mbx| ==> MbxOk(At(q, MbxQ(i)), o.mbx[i]))
    && (forall h :: h in q && IsWaitQ(h) && TaTpri(AtrOf(o, h)) ==> Sorted(tcb, q[h]))
    && Packets(o.mbx)
  }

  ghost predicate Good(s: State, x: int) {
    && Separate(s.q)
    && Heads(s.q, s.np, s.o)
    && Elements(s.q, s.tcb, s.o, x)
    && Placed(s.q, s.tcb, x)
    && Tcbs(s.np, s.tcb, x)
    && Objects(s.q, s.tcb, s.o)
    && s.sched == TopTask(s.q, s.np)
  }

  /** The running task is ready: it never leaves its priority line while it runs. */
  ghost predicate RunOk(s: State) {
    s.run == NULL || (IsTask(s, s.run) && s.tcb[s.run].state == RDY)
  }

  ghost predicate Inv(s: State) { Good(s, NULL) && RunOk(s) }

  // ---- taking a task off its queues ----

  function Detach(s: State, t: nat): State {
    var q := Remove(Remove(s.q, Wtm(t)), Tsk(t));
    s.(q := q, sched := TopTask(q, s.np))
  }

  lemma SortedWithout(tcb: seq<Tcb>, xs: seq<Node>, e: Node)
    requires NoDup(xs) && Sorted(tcb, xs)
    ensures Sorted(tcb, Without(xs, e))
  {
    if e in xs {
      var k :| 0 <= k < |xs| && xs[k] == e;
      WithoutAt(xs, k);
    } else {
      WithoutAbsent(xs, e);
    }
  }

  lemma AtRemove(q: Rings, e: Node, h: Node)
    ensures At(Remove(q, e), h) == Without(At(q, h), e)
  {
  }

  lemma HeadsRemove(q: Rings, np: nat, o: Objs, e: Node)
    requires Heads(q, np, o) && (e.Tsk? || e.Wtm?)
    ensures Heads(Remove(q, e), np, o)
  {
    AtRemove(q, e, FreeSem);
  }

  lemma ElementsRemove(q: Rings, tcb: seq<Tcb>, o: Objs, x: int, e: Node)
    requires Elements(q, tcb, o, x)
    ensures Elements(Remove(q, e), tcb, o, x)
  {
    hide Belongs;
  }

  lemma ObjectsRemove(q: Rings, tcb: seq<Tcb>, o: Objs, e: Node)
    requires Separate(q) && Objects(q, tcb, o)
    ensures Objects(Remove(q, e), tcb, o)
  {
    hide Packets, FlagCond;
    var r := Remove(q, e);
    forall h | h in r && IsWaitQ(h) && TaTpri(AtrOf(o, h)) ensures Sorted(tcb, r[h]) {
      SortedWithout(tcb, q[h], e);
    }
    forall i | 0 <= i < |o.sem| ensures SemOk(At(r, SemQ(i)), o.sem[i]) { AtRemove(q, e, SemQ(i)); }
    forall i | 0 <= i < |o.flg| ensures FlgOk(At(r, FlgQ(i)), tcb, o.flg[i]) { AtRemove(q, e, FlgQ(i)); }
    forall i | 0 <= i < |o.mbx| ensures MbxOk(At(r, MbxQ(i)), o.mbx[i]) { AtRemove(q, e, MbxQ(i)); }
  }

  lemma PlacedRemove(q: Rings, tcb: seq<Tcb>, t: nat)
    requires Placed(q, tcb, NULL)
    ensures Placed(Remove(Remove(q, Wtm(t)), Tsk(t)), tcb, t)
  {
    var q1 := Remove(q, Wtm(t));
    var q2 := Remove(q1, Tsk(t));
    forall u | 0 <= u < |tcb| && u != t ensures PlacedTask(q2, tcb[u], u) {
      assert PlacedTask(q, tcb[u], u);
      AtRemove(q, Wtm(t), TimerQ);
      AtRemove(q1, Tsk(t), TimerQ);
      if Home(tcb[u]).Some? {
        AtRemove(q, Wtm(t), Home(tcb[u]).value);
        AtRemove(q1, Tsk(t), Home(tcb[u]).value);
      }
    }
  }

  /** Once a task's own nodes are in no list, the task may be exempted. */
  lemma ElementsExempt(q: Rings, tcb: seq<Tcb>, o: Objs, t: nat)
    requires Elements(q, tcb, o, NULL) && !IsElem(q, Tsk(t))
    ensures Elements(q, tcb, o, t)
  {
    hide Home, Waiting;
    forall h, n | h in q && n in q[h] ensures Belongs(tcb, o, t, n, h) {
      assert Belongs(tcb, o, NULL, n, h);
    }
  }

  lemma NoLonger(q: Rings, e: Node, np: nat, o: Objs)
    requires Heads(q, np, o) && (e.Tsk? || e.Wtm?)
    ensures Unlinked(Remove(q, e), e)
    ensures forall n :: Unlinked(q, n) ==> Unlinked(Remove(q, e), n)
  {
  }

  lemma DetachGood(s: State, t: nat)
    requires Good(s, NULL) && t < |s.tcb|
    ensures Good(Detach(s, t), t) && Unlinked(Detach(s, t).q, Tsk(t)) && Unlinked(Detach(s, t).q, Wtm(t))
  {
    hide Separate, Objects, TcbOk, Heads, Elements, Placed, Unlinked, TopTask, Remove;
    var q1 := Remove(s.q, Wtm(t));
    var q2 := Remove(q1, Tsk(t));
    SeparateRemove(s.q, Wtm(t));
    HeadsRemove(s.q, s.np, s.o, Wtm(t));
    ElementsRemove(s.q, s.tcb, s.o, NULL, Wtm(t));
    ObjectsRemove(s.q, s.tcb, s.o, Wtm(t));
    NoLonger(s.q, Wtm(t), s.np, s.o);
    SeparateRemove(q1, Tsk(t));
    HeadsRemove(q1, s.np, s.o, Tsk(t));
    ElementsRemove(q1, s.tcb, s.o, NULL, Tsk(t));
    ObjectsRemove(q1, s.tcb, s.o, Tsk(t));
    NoLonger(q1, Tsk(t), s.np, s.o);
    PlacedRemove(s.q, s.tcb, t);
    UnlinkedElem(q2, Tsk(t));
    ElementsExempt(q2, s.tcb, s.o, t);
  }

  lemma UnlinkedElem(q: Rings, e: Node)
    requires Unlinked(q, e)
    ensures !IsElem(q, e)
  {
  }

  // ---- changing a detached task, and putting it back ----

  lemma PutGood(s: State, t: nat, c: Tcb)
    requires Good(s, t) && t < |s.tcb|
    ensures Good(Put(s, t, c), t)
  {
    var tcb := s.tcb[t := c];
    assert Elements(s.q, tcb, s.o, t) by {
      forall h, n | h in s.q && n in s.q[h] ensures Belongs(tcb, s.o, t, n, h) {
        assert Belongs(s.tcb, s.o, t, n, h);
      }
    }
    assert Placed(s.q, tcb, t) by {
      forall u | 0 <= u < |tcb| && u != t ensures PlacedTask(s.q, tcb[u], u) {
        assert PlacedTask(s.q, s.tcb[u], u);
      }
    }
    ObjectsPut(s, t, c);
  }

  lemma ObjectsPut(s: State, t: nat, c: Tcb)
    requires Elements(s.q, s.tcb, s.o, t) && Objects(s.q, s.tcb, s.o) && t < |s.tcb|
    ensures Objects(s.q, s.tcb[t := c], s.o)
  {
    hide Packets, FlagCond, Home;
    var tcb := s.tcb[t := c];
    forall h ensures Tsk(t) !in At(s.q, h) {
      assert Tsk(t) in At(s.q, h) ==> Belongs(s.tcb, s.o, t, Tsk(t), h);
    }
    forall i | 0 <= i < |s.o.flg| ensures FlgOk(At(s.q, FlgQ(i)), tcb, s.o.flg[i]) {
      assert FlgOk(At(s.q, FlgQ(i)), s.tcb, s.o.flg[i]);
    }
    forall h | h in s.q && IsWaitQ(h) && TaTpri(AtrOf(s.o, h)) ensures Sorted(tcb, s.q[h]) {
      forall i | 0 <= i < |s.q[h]| ensures PriOf(tcb, s.q[h][i]) == PriOf(s.tcb, s.q[h][i]) {
        assert Tsk(t) !in At(s.q, h);
      }
    }
  }

  lemma AtInsert(q: Rings, e: Node, h: Node, k: nat, g: Node)
    requires Unlinked(q, e) && h in q && h != e && k <= |q[h]| && g != h
    ensures At(InsertAt(q, e, h, k), g) == At(q, g)
  {
  }

  lemma InInsert(q: Rings, e: Node, h: Node, k: nat)
    requires h in q && h != e && k <= |q[h]|
    ensures var r := InsertAt(q, e, h, k);
      h in r && e !in r && (forall n :: n in r[h] <==> n == e || n in q[h])
  {
  }

  lemma HeadsInsert(q: Rings, np: nat, o: Objs, e: Node, h: Node, k: nat)
    requires Heads(q, np, o) && (e.Tsk? || e.Wtm?) && Unlinked(q, e)
    requires h in q && h != e && k <= |q[h]| && IsHead(np, o, h)
    ensures Heads(InsertAt(q, e, h, k), np, o)
  {
    InInsert(q, e, h, k);
    if h != FreeSem { AtInsert(q, e, h, k, FreeSem); }
  }

  /** Task `t` stops being exempt when its qnode goes into list `h`. */
  lemma ElementsInsert(q: Rings, tcb: seq<Tcb>, o: Objs, t: nat, h: Node, k: nat)
    requires Elements(q, tcb, o, t) && t < |tcb| && Home(tcb[t]) == Some(h)
    requires h in q && h != Tsk(t) && k <= |q[h]|
    requires Waiting(tcb[t]) || !IsElem(q, Wtm(t))
    ensures Elements(InsertAt(q, Tsk(t), h, k), tcb, o, NULL)
  {
    hide Home, Waiting;
    var r := InsertAt(q, Tsk(t), h, k);
    InInsert(q, Tsk(t), h, k);
    forall g, n | g in r && n in r[g] ensures Belongs(tcb, o, NULL, n, g) {
      if n != Tsk(t) || g != h {
        assert g in q && n in q[g];
        assert Belongs(tcb, o, t, n, g);
      }
    }
  }

  lemma PlacedInsert(q: Rings, tcb: seq<Tcb>, t: nat, h: Node, k: nat)
    requires Placed(q, tcb, t) && t < |tcb| && Home(tcb[t]) == Some(h) && Unlinked(q, Tsk(t))
    requires h in q && !h.Tsk? && !h.Wtm? && k <= |q[h]|
    requires Waiting(tcb[t]) ==> Timed(q, t)
    ensures Placed(InsertAt(q, Tsk(t), h, k), tcb, NULL)
  {
    var r := InsertAt(q, Tsk(t), h, k);
    InInsert(q, Tsk(t), h, k);
    if h != TimerQ { AtInsert(q, Tsk(t), h, k, TimerQ); }
    forall u | 0 <= u < |tcb| ensures PlacedTask(r, tcb[u], u) {
      if u != t {
        assert PlacedTask(q, tcb[u], u);
        if Home(tcb[u]).Some? && Home(tcb[u]).value != h { AtInsert(q, Tsk(t), h, k, Home(tcb[u]).value); }
      }
    }
  }

  /** Lists that are not wait queues do not concern the objects. */
  lemma ObjectsInsert(q: Rings, tcb: seq<Tcb>, o: Objs, e: Node, h: Node, k: nat)
    requires Objects(q, tcb, o) && Unlinked(q, e) && !IsWaitQ(h) && !IsWaitQ(e)
    requires h in q && h != e && k <= |q[h]|
    ensures Objects(InsertAt(q, e, h, k), tcb, o)
  {
    hide Packets, FlagCond, Sorted;
    var r := InsertAt(q, e, h, k);
    forall g | IsWaitQ(g) ensures At(r, g) == At(q, g) && (g in r <==> g in q) { AtInsert(q, e, h, k, g); }
    forall i | 0 <= i < |o.flg| ensures FlgOk(At(r, FlgQ(i)), tcb, o.flg[i]) {
      assert FlgOk(At(q, FlgQ(i)), tcb, o.flg[i]);
    }
  }

  lemma TopReady(q: Rings, np: nat, t: nat, pri: nat)
    requires Unlinked(q, Tsk(t)) && pri < np && Line(pri) in q
    ensures TopTask(Append(q, Tsk(t), Line(pri)), np) ==
            if pri < TopPri(q, np) then t else TopTask(q, np)
  {
    hide Unlinked;
    var r := Append(q, Tsk(t), Line(pri));
    forall p: nat ensures At(r, Line(p)) == if p == pri then At(q, Line(p)) + [Tsk(t)] else At(q, Line(p)) {}
    var top := TopPri(q, np);
    TopPriIs(r, np, if pri < top then pri else top);
  }

  lemma AttachReady(s: State, t: nat)
    requires Good(s, t) && t < |s.tcb| && Unlinked(s.q, Tsk(t)) && Unlinked(s.q, Wtm(t))
    requires TcbOk(s.np, s.tcb[t].(state := RDY)) && s.tcb[t].tskpri < s.np
    ensures Good(MakeReady(s, t), NULL)
  {
    var s1 := Put(s, t, s.tcb[t].(state := RDY));
    var h := Line(s.tcb[t].tskpri);
    PutGood(s, t, s.tcb[t].(state := RDY));
    assert h in s.q && IsHead(s.np, s.o, h) by { assert IsHead(s.np, s.o, h); }
    AppendIsInsert(s.q, Tsk(t), h);
    UnlinkedElem(s.q, Wtm(t));
    hide Separate, Objects, TcbOk, Heads, Elements, Placed, Unlinked, TopTask, InsertAt, Append;
    SeparateInsert(s.q, Tsk(t), h, |s.q[h]|);
    HeadsInsert(s.q, s.np, s.o, Tsk(t), h, |s.q[h]|);
    ElementsInsert(s.q, s1.tcb, s.o, t, h, |s.q[h]|);
    PlacedInsert(s.q, s1.tcb, t, h, |s.q[h]|);
    ObjectsInsert(s.q, s1.tcb, s.o, Tsk(t), h, |s.q[h]|);
    TopReady(s.q, s.np, t, s.tcb[t].tskpri);
  }

  /** Suspended and dormant tasks are in no list. */
  lemma AttachNone(s: State, t: nat)
    requires Good(s, t) && t < |s.tcb| && Unlinked(s.q, Tsk(t)) && Unlinked(s.q, Wtm(t))
    requires TcbOk(s.np, s.tcb[t]) && (s.tcb[t].state == SUS || s.tcb[t].state == DMT)
    ensures Good(s, NULL)
  {
    hide Separate, Objects, TcbOk, Heads;
    forall h, n | h in s.q && n in s.q[h] ensures Belongs(s.tcb, s.o, NULL, n, h) {
      assert Belongs(s.tcb, s.o, t, n, h);
    }
  }

  lemma AttachFree(s: State, t: nat)
    requires Good(s, t) && t < |s.tcb| && Unlinked(s.q, Tsk(t)) && Unlinked(s.q, Wtm(t))
    requires s.tcb[t].count < 0x1_0000_0000 && s.tcb[t].wfmode <= 1 && s.tcb[t].state == NOEXS
    ensures Good(s.(q := Append(s.q, Tsk(t), FreeTcb)), NULL)
  {
    assert FreeTcb in s.q by { assert IsHead(s.np, s.o, FreeTcb); }
    var k := |s.q[FreeTcb]|;
    AppendIsInsert(s.q, Tsk(t), FreeTcb);
    UnlinkedElem(s.q, Wtm(t));
    TopElsewhere(s.q, Tsk(t), FreeTcb, k, s.np);
    hide Separate, Objects, Heads, Elements, Placed, Unlinked, TopTask, InsertAt, Append;
    SeparateInsert(s.q, Tsk(t), FreeTcb, k);
    HeadsInsert(s.q, s.np, s.o, Tsk(t), FreeTcb, k);
    ElementsInsert(s.q, s.tcb, s.o, t, FreeTcb, k);
    PlacedInsert(s.q, s.tcb, t, FreeTcb, k);
    ObjectsInsert(s.q, s.tcb, s.o, Tsk(t), FreeTcb, k);
  }

  lemma TopSame(q: Rings, r: Rings, np: nat)
    requires forall p: nat :: p < np ==> At(q, Line(p)) == At(r, Line(p))
    ensures TopPri(q, np) == TopPri(r, np) && TopTask(q, np) == TopTask(r, np)
  {
    var p := TopPri(q, np);
    assert forall i: nat :: i < np ==> At(q, Line(i)) == At(r, Line(i));
    assert p < np ==> At(q, Line(p)) != [];
    TopPriIs(r, np, p);
  }

  lemma TopElsewhere(q: Rings, e: Node, h: Node, k: nat, np: nat)
    requires Unlinked(q, e) && h in q && h != e && k <= |q[h]| && !h.Line? && !e.Line?
    ensures TopTask(InsertAt(q, e, h, k), np) == TopTask(q, np)
  {
    var r := InsertAt(q, e, h, k);
    forall p: nat ensures At(q, Line(p)) == At(r, Line(p)) { AtInsert(q, e, h, k, Line(p)); }
    TopSame(q, r, np);
  }

  // ---- entering a wait ----

  /** Linking a task's node to itself leaves every list as it was. */
  lemma InitNode(s: State, x: int, e: Node)
    requires Good(s, x) && Unlinked(s.q, e) && (e.Tsk? || e.Wtm?)
    ensures Good(s.(q := Init(s.q, e)), x)
  {
    var q := Init(s.q, e);
    InitShape(s.q, s.np, s.o, e);
    InitElements(s.q, s.tcb, s.o, x, e);
    InitPlaced(s.q, s.tcb, x, e);
    InitObjects(s.q, s.tcb, s.o, e, s.np);
    hide Separate, Heads, Objects, Elements, Placed, TopTask, Unlinked;
  }

  lemma InitShape(q: Rings, np: nat, o: Objs, e: Node)
    requires Separate(q) && Heads(q, np, o) && Unlinked(q, e) && (e.Tsk? || e.Wtm?)
    ensures Separate(Init(q, e)) && Heads(Init(q, e), np, o)
  {
    assert At(Init(q, e), FreeSem) == At(q, FreeSem);
  }

  lemma InitElements(q: Rings, tcb: seq<Tcb>, o: Objs, x: int, e: Node)
    requires Elements(q, tcb, o, x)
    ensures Elements(Init(q, e), tcb, o, x)
  {
    hide Belongs;
  }

  lemma InitPlaced(q: Rings, tcb: seq<Tcb>, x: int, e: Node)
    requires Placed(q, tcb, x) && Unlinked(q, e)
    ensures Placed(Init(q, e), tcb, x)
  {
    hide Home;
    forall g ensures At(Init(q, e), g) == At(q, g) {}
    forall u | 0 <= u < |tcb| && u != x ensures PlacedTask(Init(q, e), tcb[u], u) {
      assert PlacedTask(q, tcb[u], u);
    }
  }

  lemma InitObjects(q: Rings, tcb: seq<Tcb>, o: Objs, e: Node, np: nat)
    requires Objects(q, tcb, o) && Unlinked(q, e) && (e.Tsk? || e.Wtm?)
    ensures Objects(Init(q, e), tcb, o) && TopTask(Init(q, e), np) == TopTask(q, np)
  {
    forall g ensures At(Init(q, e), g) == At(q, g) {}
    ObjectsSame(q, Init(q, e), tcb, o);
    TopSame(q, Init(q, e), np);
  }

  lemma TimerInsertGood(s: State, t: nat, tmo: int)
    requires Good(s, t) && t < |s.tcb| && Unlinked(s.q, Tsk(t)) && Unlinked(s.q, Wtm(t))
    ensures var r := TimerInsert(s, t, tmo);
      Good(r, t) && Timed(r.q, t) && Unlinked(r.q, Tsk(t))
  {
    if tmo == TMO_FEVR {
      InitNode(s, t, Wtm(t));
    } else {
      PutGood(s, t, s.tcb[t].(count := U32(tmo)));
      TimerStart(Put(s, t, s.tcb[t].(count := U32(tmo))), t);
      hide Good;
    }
  }

  lemma TimerStart(s: State, t: nat)
    requires Good(s, t) && t < |s.tcb| && Unlinked(s.q, Tsk(t)) && Unlinked(s.q, Wtm(t))
    ensures var r := s.(q := Append(s.q, Wtm(t), TimerQ));
      Good(r, t) && Timed(r.q, t) && Unlinked(r.q, Tsk(t))
  {
    assert TimerQ in s.q by { assert IsHead(s.np, s.o, TimerQ); }
    hide Separate, Objects, Heads, Elements, Placed, TopTask, TcbOk;
    var k := |s.q[TimerQ]|;
    AppendIsInsert(s.q, Wtm(t), TimerQ);
    InInsert(s.q, Wtm(t), TimerQ, k);
    TimerAppend(s, t);
    TopElsewhere(s.q, Wtm(t), TimerQ, k, s.np);
    SeparateInsert(s.q, Wtm(t), TimerQ, k);
    HeadsInsert(s.q, s.np, s.o, Wtm(t), TimerQ, k);
    ObjectsInsert(s.q, s.tcb, s.o, Wtm(t), TimerQ, k);
  }

  lemma ObjectsSame(q: Rings, r: Rings, tcb: seq<Tcb>, o: Objs)
    requires Objects(q, tcb, o) && forall g :: IsWaitQ(g) ==> At(r, g) == At(q, g) && (g in r ==> g in q)
    ensures Objects(r, tcb, o)
  {
    hide Packets, FlagCond, Sorted;
    forall i | 0 <= i < |o.flg| ensures FlgOk(At(r, FlgQ(i)), tcb, o.flg[i]) {
      assert FlgOk(At(q, FlgQ(i)), tcb, o.flg[i]);
    }
  }

  lemma TimerAppend(s: State, t: nat)
    requires Elements(s.q, s.tcb, s.o, t) && Placed(s.q, s.tcb, t) && Unlinked(s.q, Wtm(t))
    requires t < |s.tcb| && TimerQ in s.q
    ensures var r := InsertAt(s.q, Wtm(t), TimerQ, |s.q[TimerQ]|);
      Elements(r, s.tcb, s.o, t) && Placed(r, s.tcb, t)
  {
    hide Home, Waiting;
    var k := |s.q[TimerQ]|;
    var r := InsertAt(s.q, Wtm(t), TimerQ, k);
    InInsert(s.q, Wtm(t), TimerQ, k);
    forall g, n | g in r && n in r[g] ensures Belongs(s.tcb, s.o, t, n, g) {
      if n != Wtm(t) || g != TimerQ { assert g in s.q && n in s.q[g]; }
    }
    forall u | 0 <= u < |s.tcb| && u != t ensures PlacedTask(r, s.tcb[u], u) {
      assert PlacedTask(s.q, s.tcb[u], u);
      if Home(s.tcb[u]).Some? && Home(s.tcb[u]).value != TimerQ {
        AtInsert(s.q, Wtm(t), TimerQ, k, Home(s.tcb[u]).value);
      }
    }
  }

  /** The object behind wait queue `h` makes task `c` wait. */
  ghost predicate MustWait(o: Objs, h: Node, c: Tcb) {
    match h
    case SemQ(i) => i < |o.sem| && o.sem[i].live && o.sem[i].cnt == 0
    case FlgQ(i) => i < |o.flg| && o.flg[i].live && c.waiptn != 0 && !FlagCond(o.flg[i].ptn, c.waiptn, c.wfmode)
    case MbxQ(i) => i < |o.mbx| && o.mbx[i].live && o.mbx[i].msgs == []
    case _ => false
  }

  function QueuePos(s: State, t: nat, h: Node): (k: nat)
    requires t < |s.tcb| && h in s.q
    ensures k <= |s.q[h]|
  {
    if TaTpri(AtrOf(s.o, h)) then PriPos(s.tcb, s.q[h], s.tcb[t].tskpri) else |s.q[h]|
  }

  lemma EnqueueIsInsert(s: State, t: nat, h: Node)
    requires t < |s.tcb| && h in s.q && h != Tsk(t)
    ensures Enqueue(s, t, h, TaTpri(AtrOf(s.o, h))) == s.(q := InsertAt(s.q, Tsk(t), h, QueuePos(s, t, h)))
  {
    AppendIsInsert(s.q, Tsk(t), h);
  }

  lemma SortedInsert(tcb: seq<Tcb>, xs: seq<Node>, t: nat)
    requires Sorted(tcb, xs) && t < |tcb|
    ensures var k := PriPos(tcb, xs, tcb[t].tskpri); Sorted(tcb, xs[..k] + [Tsk(t)] + xs[k..])
  {
    var k := PriPos(tcb, xs, tcb[t].tskpri);
    var ys := xs[..k] + [Tsk(t)] + xs[k..];
    forall i, j | 0 <= i < j < |ys| ensures PriOf(tcb, ys[i]) <= PriOf(tcb, ys[j]) {
      assert PriOf(tcb, Tsk(t)) == tcb[t].tskpri;
      if j > k { assert ys[j] == xs[j - 1] && PriOf(tcb, xs[k]) <= PriOf(tcb, xs[j - 1]); }
    }
  }

  lemma ObjectsEnqueue(s: State, t: nat, h: Node)
    requires Objects(s.q, s.tcb, s.o) && t < |s.tcb| && h in s.q && Unlinked(s.q, Tsk(t))
    requires IsWaitQ(h) && MustWait(s.o, h, s.tcb[t])
    ensures Objects(InsertAt(s.q, Tsk(t), h, QueuePos(s, t, h)), s.tcb, s.o)
  {
    hide Packets, FlagCond;
    var k := QueuePos(s, t, h);
    var r := InsertAt(s.q, Tsk(t), h, k);
    InInsert(s.q, Tsk(t), h, k);
    forall g | IsWaitQ(g) && g != h ensures At(r, g) == At(s.q, g) { AtInsert(s.q, Tsk(t), h, k, g); }
    forall i | 0 <= i < |s.o.flg| ensures FlgOk(At(r, FlgQ(i)), s.tcb, s.o.flg[i]) {
      assert FlgOk(At(s.q, FlgQ(i)), s.tcb, s.o.flg[i]);
    }
    forall g | g in r && IsWaitQ(g) && TaTpri(AtrOf(s.o, g)) ensures Sorted(s.tcb, r[g]) {
      if g == h { SortedInsert(s.tcb, s.q[h], t); }
    }
  }

  lemma MustWaitHead(s: State, x: int, h: Node, c: Tcb)
    requires Good(s, x) && MustWait(s.o, h, c)
    ensures h in s.q && IsWaitQ(h)
  {
    hide FlagCond;
    assert IsHead(s.np, s.o, h);
  }

  lemma IsHeadOf(np: nat, o: Objs, h: Node, c: Tcb)
    requires MustWait(o, h, c)
    ensures IsHead(np, o, h)
  {
    hide FlagCond;
  }

  lemma AttachQueue(s: State, t: nat, h: Node)
    requires Good(s, t) && t < |s.tcb| && Unlinked(s.q, Tsk(t)) && Timed(s.q, t)
    requires TcbOk(s.np, s.tcb[t]) && Waiting(s.tcb[t]) && s.tcb[t].waitObj == Some(h)
    requires IsWaitQ(h) && MustWait(s.o, h, s.tcb[t])
    ensures h in s.q && Good(Enqueue(s, t, h, TaTpri(AtrOf(s.o, h))), NULL)
  {
    hide Separate, Objects, Heads, Elements, Placed, Unlinked, TopTask, TcbOk, InsertAt, Append, QueuePos, MustWait,
         TaTpri, AtrOf, Timed;
    MustWaitHead(s, t, h, s.tcb[t]);
    IsHeadOf(s.np, s.o, h, s.tcb[t]);
    var k := QueuePos(s, t, h);
    EnqueueIsInsert(s, t, h);
    TopElsewhere(s.q, Tsk(t), h, k, s.np);
    SeparateInsert(s.q, Tsk(t), h, k);
    HeadsInsert(s.q, s.np, s.o, Tsk(t), h, k);
    ElementsInsert(s.q, s.tcb, s.o, t, h, k);
    PlacedInsert(s.q, s.tcb, t, h, k);
    ObjectsEnqueue(s, t, h);
  }

  lemma AttachSelf(s: State, t: nat)
    requires Good(s, t) && t < |s.tcb| && Unlinked(s.q, Tsk(t)) && Timed(s.q, t)
    requires TcbOk(s.np, s.tcb[t]) && Waiting(s.tcb[t]) && s.tcb[t].waitObj == None
    ensures Good(s.(q := Init(s.q, Tsk(t))), NULL)
  {
    hide Objects, TopTask, TcbOk, Separate, Heads, Unlinked;
    InitNode(s, t, Tsk(t));
    var q := Init(s.q, Tsk(t));
    assert Timed(q, t) && Tsk(t) in q by { assert At(q, TimerQ) == At(s.q, TimerQ); }
    ExemptNoMore(q, s.tcb, s.o, t);
  }

  lemma ExemptNoMore(q: Rings, tcb: seq<Tcb>, o: Objs, t: nat)
    requires Elements(q, tcb, o, t) && Placed(q, tcb, t) && t < |tcb|
    requires Waiting(tcb[t]) && tcb[t].waitObj == None && Timed(q, t) && Tsk(t) in q
    ensures Elements(q, tcb, o, NULL) && Placed(q, tcb, NULL)
  {
    forall h, n | h in q && n in q[h] ensures Belongs(tcb, o, NULL, n, h) {
      assert Belongs(tcb, o, t, n, h);
    }
    forall u | 0 <= u < |tcb| ensures PlacedTask(q, tcb[u], u) {
      if u != t { assert PlacedTask(q, tcb[u], u); }
    }
  }

  // ---- the building blocks of the service calls ----

  /** A change that moves the task nowhere. */
  lemma TweakGood(s: State, t: nat, c: Tcb)
    requires Good(s, NULL) && t < |s.tcb| && TcbOk(s.np, c)
    requires Home(c) == Home(s.tcb[t]) && Waiting(c) == Waiting(s.tcb[t]) && c.waitObj == s.tcb[t].waitObj
    requires c.tskpri == s.tcb[t].tskpri && c.waiptn == s.tcb[t].waiptn && c.wfmode == s.tcb[t].wfmode
    ensures Good(Put(s, t, c), NULL)
  {
    var tcb := s.tcb[t := c];
    assert Elements(s.q, tcb, s.o, NULL) by {
      hide Home, Waiting;
      forall h, n | h in s.q && n in s.q[h] ensures Belongs(tcb, s.o, NULL, n, h) {
        assert Belongs(s.tcb, s.o, NULL, n, h);
      }
    }
    assert Placed(s.q, tcb, NULL) by {
      hide Home, Waiting;
      forall u | 0 <= u < |tcb| ensures PlacedTask(s.q, tcb[u], u) {
        assert PlacedTask(s.q, s.tcb[u], u);
      }
    }
    assert Objects(s.q, tcb, s.o) by {
      hide Packets, FlagCond, Home;
      forall n ensures PriOf(tcb, n) == PriOf(s.tcb, n) {}
      forall i | 0 <= i < |s.o.flg| ensures FlgOk(At(s.q, FlgQ(i)), tcb, s.o.flg[i]) {
        assert FlgOk(At(s.q, FlgQ(i)), s.tcb, s.o.flg[i]);
      }
    }
    hide Separate, Heads, Elements, Placed, Objects, TopTask, TcbOk;
  }

  lemma AtRemoveOther(q: Rings, e: Node, h: Node)
    requires e !in At(q, h)
    ensures At(Remove(q, e), h) == At(q, h)
  {
    WithoutAbsent(At(q, h), e);
  }

  /** Where the queues say task `t` can be. */
  lemma OnlyHome(s: State, x: int, t: nat, h: Node)
    requires Good(s, x) && t < |s.tcb|
    ensures Tsk(t) in At(s.q, h) ==> t != x && Home(s.tcb[t]) == Some(h)
    ensures Wtm(t) in At(s.q, h) ==> h == TimerQ && (t != x ==> Waiting(s.tcb[t]))
  {
    hide Home, Waiting;
    if Tsk(t) in At(s.q, h) { assert Belongs(s.tcb, s.o, x, Tsk(t), h); }
    if Wtm(t) in At(s.q, h) { assert Belongs(s.tcb, s.o, x, Wtm(t), h); }
  }

  lemma UnreadyDetaches(s: State, t: nat)
    requires Good(s, NULL) && t < |s.tcb| && s.tcb[t].state == RDY
    ensures MakeUnready(s, t) == Detach(s, t)
  {
    forall h ensures Wtm(t) !in At(s.q, h) { OnlyHome(s, NULL, t, h); }
    assert !IsElem(s.q, Wtm(t)) by { assert forall h :: Wtm(t) !in At(s.q, h); }
    RemoveAbsent(s.q, Wtm(t));
    if s.sched != t { TopRemoved(s, t); }
  }

  /** The top task stays the top task while others leave. */
  lemma TopRemoved(s: State, t: nat)
    requires Good(s, NULL) && t < |s.tcb| && s.tcb[t].state == RDY && s.sched != t
    ensures TopTask(Remove(s.q, Tsk(t)), s.np) == s.sched
  {
    var q := Remove(s.q, Tsk(t));
    var p := s.tcb[t].tskpri;
    forall i: nat | i != p ensures At(q, Line(i)) == At(s.q, Line(i)) {
      OnlyHome(s, NULL, t, Line(i));
      AtRemoveOther(s.q, Tsk(t), Line(i));
    }
    AtRemove(s.q, Tsk(t), Line(p));
    var top := TopPri(s.q, s.np);
    assert p < s.np by { assert TcbOk(s.np, s.tcb[t]); }
    assert PlacedTask(s.q, s.tcb[t], t);
    assert top <= p;
    if top == p {
      var n := s.q[Line(p)][0];
      assert Belongs(s.tcb, s.o, NULL, n, Line(p));
      assert n != Tsk(t);
    }
    TopPriIs(q, s.np, top);
  }

  lemma CancelDetaches(s: State, t: nat)
    requires Good(s, NULL) && t < |s.tcb| && Home(s.tcb[t]) != Some(Line(s.tcb[t].tskpri))
    requires Waiting(s.tcb[t]) ==> s.tcb[t].waitObj.None? || IsWaitQ(s.tcb[t].waitObj.value)
    ensures WaitCancel(s, t) == Detach(s, t)
  {
    var q1 := Remove(s.q, Wtm(t));
    forall i: nat ensures At(Remove(q1, Tsk(t)), Line(i)) == At(s.q, Line(i)) {
      OnlyHome(s, NULL, t, Line(i));
      AtRemoveOther(s.q, Wtm(t), Line(i));
      AtRemoveOther(q1, Tsk(t), Line(i));
    }
    TopSame(s.q, Remove(q1, Tsk(t)), s.np);
  }

  function Released(c: Tcb): Tcb {
    c.(tskwait := NotSleeping, state := if c.state == WAI then RDY else SUS)
  }

  lemma LeaveWaitGood(s: State, t: nat)
    requires Good(s, t) && t < |s.tcb| && Unlinked(s.q, Tsk(t)) && Unlinked(s.q, Wtm(t))
    requires TcbOk(s.np, s.tcb[t]) && Waiting(s.tcb[t])
    ensures Good(LeaveWait(s, t), NULL) && LeaveWait(s, t).tcb == s.tcb[t := Released(s.tcb[t])]
  {
    hide Good, Unlinked, TopTask, TopPri, Append;
    var c := s.tcb[t].(tskwait := NotSleeping);
    var s1 := Put(s, t, c);
    PutGood(s, t, c);
    assert s1.tcb[t] == c && s1.q == s.q;
    if s.tcb[t].state == WAI {
      AttachReady(s1, t);
    } else {
      PutGood(s1, t, c.(state := SUS));
      AttachNone(Put(s1, t, c.(state := SUS)), t);
    }
  }

  lemma WaitReleaseGood(s: State, t: nat)
    requires Good(s, NULL) && t < |s.tcb| && Waiting(s.tcb[t])
    ensures var r := WaitRelease(s, t);
      Good(r, NULL) && r.tcb == s.tcb[t := Released(s.tcb[t])] && r.o == s.o && r.run == s.run && r.np == s.np
  {
    assert TcbOk(s.np, s.tcb[t]);
    hide Good, Unlinked, TcbOk, TopTask, Remove;
    assert Home(s.tcb[t]) != Some(Line(s.tcb[t].tskpri)) &&
           (s.tcb[t].waitObj.None? || IsWaitQ(s.tcb[t].waitObj.value)) by { WaitHome(s.np, s.tcb[t]); }
    CancelDetaches(s, t);
    DetachGood(s, t);
    LeaveWaitGood(Detach(s, t), t);
  }

  lemma WaitHome(np: nat, c: Tcb)
    requires TcbOk(np, c) && Waiting(c)
    ensures Home(c) == c.waitObj && (c.waitObj.None? || IsWaitQ(c.waitObj.value))
  {
  }

  lemma PutPut(s: State, t: nat, c: Tcb, d: Tcb)
    requires t < |s.tcb|
    ensures Put(Put(s, t, c), t, d) == Put(s, t, d)
  {
    assert s.tcb[t := c][t := d] == s.tcb[t := d];
  }

  /** The task's control block once it waits. */
  function Waits(c: Tcb, tmo: int): Tcb {
    c.(state := WAI, count := if tmo == TMO_FEVR then c.count else U32(tmo))
  }

  lemma MakeWaitGood(s: State, t: nat, c: Tcb, tmo: int)
    requires Good(s, NULL) && t < |s.tcb| && s.tcb[t].state == RDY && c.state == RDY
    ensures var r := MakeWait(Put(s, t, c), t, tmo);
      Good(r, t) && Timed(r.q, t) && Unlinked(r.q, Tsk(t)) && r.tcb == s.tcb[t := Waits(c, tmo)] &&
      r.o == s.o && r.run == s.run && r.np == s.np
  {
    hide Good, Unlinked, TopTask, Remove;
    UnreadyDetaches(s, t);
    DetachGood(s, t);
    var d := Detach(s, t);
    assert MakeUnready(Put(s, t, c), t) == Put(d, t, c);
    PutPut(d, t, c, c.(state := WAI));
    PutGood(d, t, c.(state := WAI));
    TimerInsertGood(Put(d, t, c.(state := WAI)), t, tmo);
  }

  lemma WaitsOk(np: nat, c: Tcb, h: Option<Node>, why: Why, tmo: int)
    requires TcbOk(np, c) && c.state == RDY
    requires if h.Some? then IsWaitQ(h.value) && why == NotSleeping
             else why != NotSleeping && (why == TTW_SLP ==> c.wupcnt == 0)
    ensures c.tskwait == NotSleeping && TcbOk(np, Waits(c.(waitObj := h, tskwait := why), tmo))
  {
  }

  lemma ObjMakeWaitGood(s: State, t: nat, c: Tcb, h: Node, tmo: int)
    requires Good(s, NULL) && t < |s.tcb| && s.tcb[t].state == RDY && c.state == RDY && TcbOk(s.np, c)
    requires IsWaitQ(h) && MustWait(s.o, h, c)
    ensures h in s.q
    ensures var r := ObjMakeWait(Put(s, t, c), t, h, AtrOf(s.o, h), tmo);
      Good(r, NULL) && r.tcb == s.tcb[t := Waits(c.(waitObj := Some(h)), tmo)] &&
      r.o == s.o && r.run == s.run && r.np == s.np
  {
    hide Good, Unlinked, Timed, TopTask, Remove, MakeWait, TaTpri, FlagCond, AtrOf, TcbOk;
    MustWaitHead(s, NULL, h, c);
    var c1 := c.(waitObj := Some(h));
    PutPut(s, t, c, c1);
    MakeWaitGood(s, t, c1, tmo);
    var r := MakeWait(Put(s, t, c1), t, tmo);
    assert r.tcb[t] == Waits(c1, tmo);
    WaitsOk(s.np, c, Some(h), NotSleeping, tmo);
    assert c1 == c.(waitObj := Some(h), tskwait := NotSleeping);
    assert MustWait(r.o, h, r.tcb[t]);
    AttachQueue(r, t, h);
  }

  lemma SelfWaitGood(s: State, t: nat, c: Tcb, why: Why, tmo: int)
    requires Good(s, NULL) && t < |s.tcb| && s.tcb[t].state == RDY && c.state == RDY && TcbOk(s.np, c)
    requires why != NotSleeping && (why == TTW_SLP ==> c.wupcnt == 0)
    ensures var r := SelfWait(Put(s, t, c), t, why, tmo);
      Good(r, NULL) && r.tcb == s.tcb[t := Waits(c.(waitObj := None, tskwait := why), tmo)] &&
      r.o == s.o && r.run == s.run && r.np == s.np
  {
    hide Good, Unlinked, Timed, TopTask, Remove, MakeWait, TcbOk;
    WaitsOk(s.np, c, None, why, tmo);
    var c1 := c.(waitObj := None, tskwait := why);
    PutPut(s, t, c, c1);
    MakeWaitGood(s, t, c1, tmo);
    var r := MakeWait(Put(s, t, c1), t, tmo);
    assert r.tcb[t] == Waits(c1, tmo);
    AttachSelf(r, t);
  }

  lemma SchedReady(s: State)
    requires Good(s, NULL)
    ensures Inv(Dispatch(s))
  {
    var p := TopPri(s.q, s.np);
    if p < s.np { assert Belongs(s.tcb, s.o, NULL, s.q[Line(p)][0], Line(p)); }
    hide Separate, Heads, Elements, Placed, Tcbs, Objects;
  }
}
