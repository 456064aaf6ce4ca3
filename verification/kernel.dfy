/** The kernel as it is written: control block tables, linked queues and task pointers,
    all updated in place. Each operation is proved to turn the kernel's abstract state
    into what the corresponding function of KernelState says. */
module KernelImpl {
  import opened KQueue
  import opened ReadyQueue
  import opened KernelState
  import opened KernelInv
  import opened KernelCalls
  import opened KernelRuns
  import opened KernelSafety
  import MQ = MessageQueues

  // During start-up no node is linked anywhere before its own turn.

  lemma UnusedLines(nt: nat, np: nat)
    ensures forall e :: Unused(map[], e)
    ensures forall e: Node :: !e.Line? ==> Unused(EmptyHeads(LineNodes(np)), e)
    ensures Unused(EmptyHeads(LineNodes(np))[FreeTcb := TcbNodes(nt)], TimerQ)
    ensures NoDup(TcbNodes(nt)) && NoDup(LineNodes(np)) && map[] + EmptyHeads(LineNodes(np)) == EmptyHeads(LineNodes(np))
  {
  }

  lemma UnusedObjects(nt: nat, np: nat, nsem: nat, nflg: nat, nmbx: nat)
    ensures forall e: Node :: e.FlgQ? || e.SemQ? || e.MbxQ? || e == FreeSem ==> Unused(BootTasks(nt, np), e)
    ensures forall e: Node :: e.SemQ? || e.MbxQ? || e == FreeSem ==> Unused(BootTasks(nt, np) + EmptyHeads(FlgNodes(nflg)), e)
    ensures forall e: Node :: e.MbxQ? ==> Unused(BootSems(nt, np, nsem, nflg), e)
    ensures NoDup(SemNodes(nsem)) && NoDup(FlgNodes(nflg)) && NoDup(MbxNodes(nmbx))
  {
  }

  lemma BootLines(nt: nat, np: nat, nsem: nat, nflg: nat, nmbx: nat)
    ensures forall p: nat :: p < np ==>
      Line(p) in EmptyHeads(LineNodes(np)) && Line(p) in Boot(nt, np, nsem, nflg, nmbx).q &&
      Boot(nt, np, nsem, nflg, nmbx).q[Line(p)] == EmptyHeads(LineNodes(np))[Line(p)]
  {
    forall p: nat | p < np ensures Line(p) in LineNodes(np) { assert LineNodes(np)[p] == Line(p); }
  }

  function AllNodes(nt: nat, np: nat, nsem: nat, nflg: nat, nmbx: nat): set<Node> {
    (set t: nat | t < nt :: Tsk(t)) + (set t: nat | t < nt :: Wtm(t)) + (set p: nat | p < np :: Line(p)) +
    (set i: nat | i < nsem :: SemQ(i)) + (set i: nat | i < nflg :: FlgQ(i)) + (set i: nat | i < nmbx :: MbxQ(i)) +
    {FreeTcb, FreeSem, TimerQ}
  }

  lemma AllNodesIn(nt: nat, np: nat, nsem: nat, nflg: nat, nmbx: nat)
    ensures var ns := AllNodes(nt, np, nsem, nflg, nmbx);
      && FreeTcb in ns && FreeSem in ns && TimerQ in ns
      && (forall e :: (e in LineNodes(np) || e in TcbNodes(nt) || e in SemNodes(nsem) || e in FlgNodes(nflg) ||
                       e in MbxNodes(nmbx)) ==> e in ns)
      && (forall e: Node :: (match e
            case Tsk(t) => t < nt case Wtm(t) => t < nt case Line(p) => p < np case SemQ(i) => i < nsem
            case FlgQ(i) => i < nflg case MbxQ(i) => i < nmbx case _ => true) ==> e in ns)
  {
  }

  /** The queues set up by `task_initialize` and `timer_initialize`. */
  method BootTaskQueues(heap: Heap, nt: nat, np: nat, ghost ns: set<Node>) returns (ready: RdyQ)
    requires heap.Valid() && heap.rings == map[] && heap.next.Keys == ns && FreeTcb in ns && TimerQ in ns
    requires forall e :: e in LineNodes(np) || e in TcbNodes(nt) ==> e in ns
    modifies heap
    ensures fresh(ready) && fresh(ready.bitmap) && ready.kq == heap && ready.np == np
    ensures heap.Valid() && heap.next.Keys == ns && heap.rings == BootTasks(nt, np)
    ensures ready.Matches(EmptyHeads(LineNodes(np)))
  {
    hide Heap.Valid, RdyQ.Matches, Unused, Unlinked, EmptyHeads, NoDup;
    UnusedLines(nt, np);
    forall p: nat | p < np ensures Line(p) in heap.next { assert LineNodes(np)[p] == Line(p); }
    ready := new RdyQ(heap, np);
    InitFreeList(heap, FreeTcb, TcbNodes(nt));
    UnusedUnlinked(heap.rings, TimerQ);
    heap.KqueueInit(TimerQ);
  }

  /** The queues set up by the initialisers of the object tables. */
  method BootObjectQueues(heap: Heap, nt: nat, np: nat, nsem: nat, nflg: nat, nmbx: nat)
    requires heap.Valid() && heap.rings == BootTasks(nt, np) && FreeSem in heap.next
    requires forall e :: e in SemNodes(nsem) || e in FlgNodes(nflg) || e in MbxNodes(nmbx) ==> e in heap.next
    modifies heap
    ensures heap.Valid() && heap.next.Keys == old(heap.next.Keys) && heap.rings == Boot(nt, np, nsem, nflg, nmbx).q
  {
    hide Heap.Valid, Unused, Unlinked, EmptyHeads, NoDup, BootTasks;
    UnusedObjects(nt, np, nsem, nflg, nmbx);
    InitHeads(heap, FlgNodes(nflg));
    InitFreeList(heap, FreeSem, SemNodes(nsem));
    InitHeads(heap, MbxNodes(nmbx));
  }

  method NewTables(nt: nat, nsem: nat, nflg: nat) returns (tcb: array<Tcb>, semcb: array<Sem>, flgcb: array<Flg>)
    ensures fresh(tcb) && fresh(semcb) && fresh(flgcb)
    ensures tcb[..] == seq(nt, i => BlankTcb)
    ensures semcb[..] == seq(nsem, i => Sem(false, 0, 0, 0)) && flgcb[..] == seq(nflg, i => Flg(false, 0, 0))
  {
    tcb := new Tcb[nt](i => BlankTcb);
    semcb := new Sem[nsem](i => Sem(false, 0, 0, 0));
    flgcb := new Flg[nflg](i => Flg(false, 0, 0));
  }

  // What the invariant says about the nodes an operation is about to move.

  ghost predicate LinesHoldTasks(s: State) {
    forall p: nat :: p < s.np ==> forall n :: n in At(s.q, Line(p)) ==> n.Tsk?
  }

  /** Task `t`'s `qnode` can be taken off its queue, which is no priority line. */
  ghost predicate Detachable(s: State, t: nat) {
    && t < |s.tcb| && s.tcb[t].tskpri < s.np && Removable(s.q, Tsk(t))
    && forall p: nat :: p < s.np ==> Tsk(t) !in At(s.q, Line(p))
  }

  /** So can its timer. */
  ghost predicate Releasable(s: State, t: nat) {
    && Detachable(s, t) && Removable(s.q, Wtm(t))
    && forall p: nat :: p < s.np ==> Wtm(t) !in At(s.q, Line(p))
  }

  /** The task can be taken off its list, and its own line is the only one that list may be. */
  ghost predicate InLineOnly(s: State, t: nat) {
    && t < |s.tcb| && Removable(s.q, Tsk(t))
    && forall p: nat :: p < s.np && p != s.tcb[t].tskpri ==> Tsk(t) !in At(s.q, Line(p))
  }

  /** A suspended task's links are stale, and `chg_pri` would write through them. */
  ghost predicate NotSuspended(s: State, id: int, tskpri: int)
    requires TaskArg(s, id)
  {
    !BadTaskId(s, id) && (1 <= tskpri <= s.np || tskpri == 0) ==> s.tcb[TaskOf(s, id)].state != SUS
  }

  lemma PriParts(s: State, t: nat)
    requires Good(s, NULL) && t < |s.tcb| && (s.tcb[t].state == RDY || Waiting(s.tcb[t]))
    ensures LinesHoldTasks(s) && s.tcb[t].tskpri < s.np && InLineOnly(s, t)
  {
    hide Good, TcbOk, Removable;
    LinesAre(s, NULL);
    if s.tcb[t].state == RDY { ReadyParts(s, t); } else { CanRelease(s, t); }
  }

  /** Both depend on the lists and on the priority only. */
  lemma LineAlike(s: State, r: State, t: nat)
    requires InLineOnly(s, t) && LinesHoldTasks(s)
    requires r.q == s.q && r.np == s.np && t < |r.tcb| && r.tcb[t].tskpri == s.tcb[t].tskpri
    ensures InLineOnly(r, t) && LinesHoldTasks(r)
  {
  }

  lemma LinesAre(s: State, x: int)
    requires Good(s, x)
    ensures LinesHoldTasks(s)
  {
    forall p: nat, n | n in At(s.q, Line(p)) ensures n.Tsk? { assert Belongs(s.tcb, s.o, x, n, Line(p)); }
  }

  lemma ReadyParts(s: State, t: nat)
    requires Good(s, NULL) && t < |s.tcb| && s.tcb[t].state == RDY
    ensures LinesHoldTasks(s) && s.tcb[t].tskpri < s.np && InLineOnly(s, t)
  {
    LinesAre(s, NULL);
    assert TcbOk(s.np, s.tcb[t]) && PlacedTask(s.q, s.tcb[t], t);
    assert Separate(s.q);
    forall p: nat | p != s.tcb[t].tskpri ensures Tsk(t) !in At(s.q, Line(p)) { OnlyHome(s, NULL, t, Line(p)); }
  }

  lemma CanRelease(s: State, t: nat)
    requires Good(s, NULL) && t < |s.tcb| && Waiting(s.tcb[t])
    ensures Releasable(s, t)
  {
    assert TcbOk(s.np, s.tcb[t]);
    WaitHome(s.np, s.tcb[t]);
    WaitNodes(s, t);
    hide Good, TcbOk, Removable;
    forall p: nat | p < s.np ensures Tsk(t) !in At(s.q, Line(p)) && Wtm(t) !in At(s.q, Line(p)) {
      OnlyHome(s, NULL, t, Line(p));
    }
  }

  lemma WaitNodes(s: State, t: nat)
    requires Good(s, NULL) && t < |s.tcb| && Waiting(s.tcb[t])
    ensures Removable(s.q, Wtm(t)) && Removable(s.q, Tsk(t))
  {
    assert PlacedTask(s.q, s.tcb[t], t) && Heads(s.q, s.np, s.o) && Separate(s.q);
  }

  lemma AfterTimer(s: State, t: nat)
    requires Releasable(s, t)
    ensures Detachable(s.(q := Remove(s.q, Wtm(t))), t)
  {
    var q := Remove(s.q, Wtm(t));
    forall h ensures At(q, h) == Without(At(s.q, h), Wtm(t)) {}
    if Tsk(t) !in q {
      var h :| h in s.q && Tsk(t) in s.q[h];
      assert Tsk(t) in q[h];
    }
  }

  lemma AfterNode(q: Rings, e: Node)
    requires Removable(q, e)
    ensures Unlinked(Remove(q, e), e)
  {
    assert e in q ==> Without(q[e], e) == [];
    assert forall h :: h in q ==> e !in Without(q[h], e);
  }

  /** State `r` is `s`, whose running task is ready, up to that task's control block. */
  ghost predicate CallerOf(s: State, r: State) {
    && Good(s, NULL) && IsTask(s, s.run) && s.tcb[s.run].state == RDY
    && |r.tcb| == |s.tcb| && r == Put(s, s.run, r.tcb[s.run])
    && r.tcb[s.run].state == RDY && r.tcb[s.run].tskpri == s.tcb[s.run].tskpri
  }

  lemma CallerIs(s: State, r: State)
    requires CallerOf(s, r)
    ensures r.run == s.run && 0 <= s.run < |s.tcb| == |r.tcb| && r.q == s.q && r.o == s.o && r.np == s.np
    ensures r.tcb[s.run].state == RDY
  {
  }

  lemma CallerTweaked(s: State, r: State, r': State)
    requires CallerOf(s, r) && |r'.tcb| == |r.tcb| && r' == Put(r, s.run, r'.tcb[s.run])
    requires r'.tcb[s.run].state == RDY && r'.tcb[s.run].tskpri == r.tcb[s.run].tskpri
    ensures CallerOf(s, r')
  {
    hide Good;
    PutPut(s, s.run, r.tcb[s.run], r'.tcb[s.run]);
  }

  lemma PriPosIs(tcb: seq<Tcb>, xs: seq<Node>, pri: nat, k: nat)
    requires k <= |xs| && (forall i :: 0 <= i < k ==> PriOf(tcb, xs[i]) <= pri)
    requires k < |xs| ==> PriOf(tcb, xs[k]) > pri
    ensures PriPos(tcb, xs, pri) == k
  {
    var j := PriPos(tcb, xs, pri);
    var at := if j < |xs| then PriOf(tcb, xs[j]) else pri;
  }

  lemma CallerParts(s: State, r: State)
    requires CallerOf(s, r)
    ensures var t := s.run; var u := MakeUnready(r, t);
      && LinesHoldTasks(r) && r.tcb[t].tskpri < r.np && InLineOnly(r, t)
      && u == Put(Detach(s, t), t, r.tcb[t])
      && Unlinked(u.q, Wtm(t)) && Unlinked(u.q, Tsk(t)) && TimerQ in u.q
  {
    hide Good, Unlinked, InLineOnly, LinesHoldTasks, Remove, TopTask;
    var t := s.run;
    ReadyParts(s, t);
    UnreadyDetaches(s, t);
    DetachGood(s, t);
    UnreadyPut(s, t, r.tcb[t]);
    LineAlike(s, r, t);
    TimerStays(s, t);
  }

  lemma TimerStays(s: State, t: nat)
    requires Good(s, NULL)
    ensures TimerQ in Detach(s, t).q
  {
    assert IsHead(s.np, s.o, TimerQ) && TimerQ in s.q;
  }

  /** After `make_wait` the caller is in no queue and the wait queues hold tasks. */
  lemma CallerWaits(s: State, r: State, tmo: int, h: Node)
    requires CallerOf(s, r) && IsWaitQ(h)
    ensures var w := MakeWait(r, s.run, tmo);
      Unlinked(w.q, Tsk(s.run)) && (h in s.q ==> h in w.q) && |w.tcb| == |s.tcb| &&
      forall n :: n in At(w.q, h) ==> n.Tsk? && n.t < |w.tcb|
  {
    hide Good, MakeWait, Unlinked, TcbOk;
    MakeWaitGood(s, s.run, r.tcb[s.run], tmo);
    var w := MakeWait(r, s.run, tmo);
    WaitQueueTasks(w, s.run, h);
    if h in s.q { HeadStays(s, s.run, w, h); }
  }

  lemma WaitQueueTasks(s: State, x: int, h: Node)
    requires Good(s, x) && IsWaitQ(h)
    ensures forall n :: n in At(s.q, h) ==> n.Tsk? && n.t < |s.tcb|
  {
    forall n | n in At(s.q, h) ensures n.Tsk? && n.t < |s.tcb| { assert Belongs(s.tcb, s.o, x, n, h); }
  }

  lemma HeadStays(s: State, x: int, r: State, h: Node)
    requires Good(s, NULL) && Good(r, x) && r.o == s.o && r.np == s.np && IsWaitQ(h) && h in s.q
    ensures h in r.q
  {
    assert Heads(s.q, s.np, s.o) && Heads(r.q, r.np, r.o);
    assert IsHead(s.np, s.o, h);
  }

  // The two traversals that take the current node's successor before working on it.

  function FirstOf(h: Node, es: seq<Node>): Node { if es == [] then h else es[0] }

  lemma WalkFirst(h: Node, pre: seq<Node>, es: seq<Node>)
    ensures Walk(h, pre + es)[|pre| + 1] == FirstOf(h, es)
    ensures es != [] ==> Walk(h, pre + es)[|pre| + 2] == FirstOf(h, es[1..])
  {
  }

  lemma TickLoop(s: State, pre: seq<Node>, es: seq<Node>)
    requires Good(s, NULL) && TimerQ in s.q && s.q[TimerQ] == pre + es && es != []
    ensures es[0].Wtm? && es[0].t < |s.tcb| && Releasable(s, es[0].t)
    ensures var r := TickOne(s, es[0].t);
      && Good(r, NULL) && TimerQ in r.q && TickAll(s, es) == TickAll(r, es[1..])
      && r.q[TimerQ] == (if DueNow(s.tcb, es[0]) then pre else pre + [es[0]]) + es[1..]
  {
    hide Good, TickOne, Releasable, DueNow, NoDup, Without, TcbOk, Ticked;
    var n := es[0];
    assert At(s.q, TimerQ) == pre + es;
    GoodRings(s, TimerQ);
    CutMiddle(pre, es);
    TimerTask(s, n);
    CanRelease(s, n.t);
    TickOneGood(s, n.t);
    TimerHead(TickOne(s, n.t));
  }

  lemma NoSelfEvent(s: State, es: seq<Node>)
    requires Good(s, NULL) && TimerQ in s.q && (exists pre :: s.q[TimerQ] == pre + es)
    ensures FirstOf(TimerQ, es) == TimerQ ==> es == []
  {
    assert Separate(s.q);
    if es != [] {
      var pre :| s.q[TimerQ] == pre + es;
      assert es[0] == s.q[TimerQ][|pre|];
    }
  }

  lemma GoodRings(s: State, h: Node)
    requires Good(s, NULL)
    ensures NoDup(At(s.q, h))
  {
    assert Separate(s.q);
  }

  lemma ReleasableAlike(s: State, r: State, t: nat)
    requires Releasable(s, t) && r.q == s.q && r.tcb == s.tcb && r.np == s.np
    ensures Releasable(r, t)
  {
  }

  lemma TimerHead(s: State)
    requires Good(s, NULL)
    ensures TimerQ in s.q
  {
    assert IsHead(s.np, s.o, TimerQ);
  }

  lemma SweepLoop(s: State, i: nat, p0: bv32, pre: seq<Node>, ws: seq<Node>)
    requires i < |s.o.flg| && Good(WithPtn(s, i, p0), NULL) && FlgQ(i) in s.q
    requires s.q[FlgQ(i)] == pre + ws && ws != []
    ensures ws[0].Tsk? && ws[0].t < |s.tcb| && Releasable(s, ws[0].t)
    ensures var r := SweepOne(s, i, ws[0].t);
      && |r.o.flg| == |s.o.flg| && Good(WithPtn(r, i, p0), NULL) && FlgQ(i) in r.q
      && Sweep(s, i, ws) == Sweep(r, i, ws[1..])
      && r.q[FlgQ(i)] == (if Hit(s.tcb, ws[0], s.o.flg[i].ptn) then pre else pre + [ws[0]]) + ws[1..]
  {
    hide Good, SweepOne, Releasable, Hit, TaClr, NoDup, Without, FlgOk, Released;
    var n, h := ws[0], FlgQ(i);
    var z := WithPtn(s, i, p0);
    assert At(z.q, h) == pre + ws;
    GoodRings(z, h);
    CutMiddle(pre, ws);
    WaiterTask(z, n, h);
    HomeOfWaiter(z, n.t, h);
    CanRelease(z, n.t);
    ReleasableAlike(z, s, n.t);
    SweepOneGood(s, i, n.t, p0);
    FlagParts(WithPtn(SweepOne(s, i, n.t), i, p0), i);
  }

  /** One round of `wait_delete`. */
  lemma DeleteLoop(s: State, h: Node)
    requires Good(s, NULL) && IsWaitQ(h) && h in s.q && s.q[h] != []
    ensures s.q[h][0].Tsk? && s.q[h][0].t < |s.tcb| && Releasable(s, s.q[h][0].t)
    ensures var r := ReleaseWith(s, s.q[h][0].t, E_DLT);
      && Good(r, NULL) && h in r.q && r.q[h] == s.q[h][1..] && r.o == s.o && r.run == s.run && |r.tcb| == |s.tcb|
      && ReleaseAll(s, s.q[h]) == ReleaseAll(r, r.q[h])
  {
    hide Good, Releasable, ReleaseWith;
    FirstTaskIs(s, h);
    var t := FirstTask(s, h);
    CanRelease(s, t);
    PutSelf(s, t);
    EndFirst(s, h, s.tcb[t], E_DLT);
    HeadStays(s, NULL, ReleaseWith(s, t, E_DLT), h);
  }

  // ---- what the service calls need ----

  lemma CreTskIs(s: State, id: int, itskpri: int)
    requires Inv(s)
    ensures Step(s, CCreTsk(id, itskpri)) == KernelState.CreTsk(s, id, itskpri)
  {
    hide Inv, CreTsk;
  }

  lemma SusTskIs(s: State, id: int)
    requires Inv(s) && TaskArg(s, id)
    ensures Step(s, CSusTsk(id)) == KernelState.SusTsk(s, id)
  {
    hide Inv, SusTsk;
  }

  lemma RcvMbxIs(s: State, id: int, tmo: int)
    requires Inv(s) && Callable(s, CRcvMbx(id, tmo))
    ensures IdIn(id, |s.o.mbx|) ==> MbxQ(id - 1) in s.q
    ensures Step(s, CRcvMbx(id, tmo)) == KernelState.RcvMbx(s, id, tmo)
  {
    hide Inv, RcvMbx;
    QueuesExist(s);
  }

  lemma WaiFlgIs(s: State, id: int, p: bv32, m: nat, tmo: int)
    requires Inv(s) && Callable(s, CWaiFlg(id, p, m, tmo))
    ensures IdIn(id, |s.o.flg|) ==> FlgQ(id - 1) in s.q
    ensures Step(s, CWaiFlg(id, p, m, tmo)) == KernelState.WaiFlg(s, id, p, m, tmo)
  {
    hide Inv, WaiFlg;
    QueuesExist(s);
  }

  lemma GoodOf(s: State)
    requires Inv(s)
    ensures Good(s, NULL)
    ensures IsTask(s, s.run) ==> s.tcb[s.run].state == RDY
  {
    hide Good;
  }

  lemma FreeSemParts(s: State, i: nat)
    requires Good(s, NULL) && i < |s.o.sem| && !s.o.sem[i].live
    ensures Removable(s.q, SemQ(i)) && Unlinked(Remove(s.q, SemQ(i)), SemQ(i))
    ensures forall p: nat :: p < s.np ==> SemQ(i) !in At(s.q, Line(p))
  {
    InFreeSems(s, i);
    AfterNode(s.q, SemQ(i));
    LinesAre(s, NULL);
  }

  lemma CallerStarts(s: State, r: State)
    requires Inv(s) && IsTask(s, s.run) && |r.tcb| == |s.tcb| && r == Put(s, s.run, r.tcb[s.run])
    requires r.tcb[s.run].state == s.tcb[s.run].state && r.tcb[s.run].tskpri == s.tcb[s.run].tskpri
    ensures CallerOf(s, r)
  {
  }

  lemma FirstParts(s: State, h: Node)
    requires Good(s, NULL) && IsWaitQ(h) && At(s.q, h) != []
    ensures var t := FirstTask(s, h); t != NULL && IsTask(s, t) && s.q[h][0] == Tsk(t) && Releasable(s, t)
  {
    hide Good, Releasable;
    FirstTaskIs(s, h);
    CanRelease(s, FirstTask(s, h));
  }

  /** The wait queue of an object that does not exist is an empty list. */
  lemma IdleHead(s: State, h: Node)
    requires Good(s, NULL)
    requires (h.FlgQ? && h.i < |s.o.flg| && !s.o.flg[h.i].live) || (h.MbxQ? && h.i < |s.o.mbx| && !s.o.mbx[h.i].live)
    ensures Unlinked(s.q, h)
  {
    assert IsHead(s.np, s.o, h) && h in s.q;
    assert Separate(s.q);
    if h.FlgQ? { FlagParts(s, h.i); } else { MailParts(s, h.i); }
  }

  lemma NoSelfWaiter(s: State, h: Node, pre: seq<Node>, ws: seq<Node>)
    requires Good(s, NULL) && h in s.q && s.q[h] == pre + ws
    ensures FirstOf(h, ws) == h ==> ws == []
  {
    assert Separate(s.q);
    if ws != [] { assert ws[0] == s.q[h][|pre|]; }
  }

  lemma SetAndBack(s: State, i: nat, p: bv32)
    requires i < |s.o.flg|
    ensures WithPtn(WithPtn(s, i, p), i, s.o.flg[i].ptn) == s
  {
    PtnTwice(s, i, p, s.o.flg[i].ptn);
    assert s.o.flg[i := s.o.flg[i]] == s.o.flg;
  }

  lemma SameParts(s: State, r: State, t: nat)
    requires Releasable(s, t) && r.q == s.q && r.np == s.np && |r.tcb| == |s.tcb| && r.tcb[t].tskpri == s.tcb[t].tskpri
    ensures Releasable(r, t)
  {
  }

  lemma FreeTaskParts(s: State, t: nat)
    requires Good(s, NULL) && t < |s.tcb| && s.tcb[t].state == NOEXS
    ensures Removable(s.q, Tsk(t)) && forall p: nat :: p < s.np ==> Tsk(t) !in At(s.q, Line(p))
  {
    assert PlacedTask(s.q, s.tcb[t], t) && Heads(s.q, s.np, s.o);
    forall p: nat | p < s.np ensures Tsk(t) !in At(s.q, Line(p)) { OnlyHome(s, NULL, t, Line(p)); }
  }

  lemma FreeHead(s: State, t: nat)
    requires Good(s, NULL)
    ensures FreeTcb in s.q && FreeTcb in Remove(s.q, Tsk(t)) && FreeTcb in KernelState.WaitCancel(s, t).q
  {
    assert IsHead(s.np, s.o, FreeTcb);
  }

  lemma Nowhere(s: State, t: nat)
    requires Good(s, NULL) && t < |s.tcb| && (s.tcb[t].state == SUS || s.tcb[t].state == DMT)
    ensures Unlinked(s.q, Tsk(t)) && s.tcb[t].tskpri < s.np
  {
    NowhereDetaches(s, t);
    ScalarsOk(s, t);
  }

  /** Task `t` off whatever queue its state says it is in. */
  function ForcedOut(s: State, t: nat): State
    requires t < |s.tcb|
  {
    if Waiting(s.tcb[t]) then KernelState.WaitCancel(s, t)
    else if s.tcb[t].state == RDY then MakeUnready(s, t)
    else s
  }

  lemma DelTskIs(s: State, id: int)
    ensures 1 <= id <= |s.tcb| ==>
      var t := id - 1;
      ForcedOut(s, t).tcb == s.tcb && ForcedOut(s, t).run == s.run
    ensures DelTsk(s, id) ==
      if id > |s.tcb| || id < 1 then (s, E_ID)
      else if s.tcb[id - 1].state == NOEXS then (s, E_NOEXS)
      else if id - 1 == s.run then (s, E_OBJ)
      else
        var r := Put(ForcedOut(s, id - 1), id - 1, s.tcb[id - 1].(state := NOEXS, actcnt := 0, waitObj := None));
        (Dispatch(r.(q := Append(r.q, Tsk(id - 1), FreeTcb))), E_OK)
  {
    hide Remove, Append, TopTask;
  }

  lemma InitialPri(s: State, t: nat)
    requires Good(s, NULL) && t < |s.tcb| && s.tcb[t].state != NOEXS
    ensures s.tcb[t].itskpri < s.np
  {
    ScalarsOk(s, t);
  }

  lemma LineHeads(s: State)
    requires Good(s, NULL)
    ensures forall p: nat :: p < s.np ==> Line(p) in s.q
    ensures s.sched != NULL ==> TopPri(s.q, s.np) < s.np
  {
    forall p: nat | p < s.np ensures Line(p) in s.q { assert IsHead(s.np, s.o, Line(p)); }
  }

  class Kernel {
    const kq: Heap                 // every KQUEUE node in memory
    const rq: RdyQ                 // rdyq
    const mb: MQ.Mailboxes         // mbxcb_table, message part
    const tcb: array<Tcb>          // tcb_table
    const semcb: array<Sem>        // semcb_table
    const flgcb: array<Flg>        // flgcb_table
    var runtsk: int
    var schedtsk: int

    ghost function Repr(): set<object> {
      {this, kq, rq, rq.bitmap, mb, mb.cb, tcb, semcb, flgcb}
    }

    ghost function Abs(): State
      reads Repr()
    {
      State(kq.rings, rq.np, tcb[..], Objs(semcb[..], flgcb[..], mb.view), runtsk, schedtsk)
    }

    ghost predicate Exists(n: Node)
      reads mb`view
    {
      match n
      case Tsk(t) => t < tcb.Length
      case Wtm(t) => t < tcb.Length
      case Line(p) => p < rq.np
      case SemQ(i) => i < semcb.Length
      case FlgQ(i) => i < flgcb.Length
      case MbxQ(i) => i < |mb.view|
      case _ => true
    }

    /** The bitmap is no part of a table. */
    ghost predicate Apart()
      reads {}
    {
      var bitmap: object := rq.bitmap;
      bitmap != tcb && bitmap != semcb && bitmap != flgcb && bitmap != mb.cb
    }

    ghost predicate Valid()
      reads kq, rq, rq.bitmap, mb, mb.cb
    {
      && rq.kq == kq && Apart()
      && kq.Valid() && rq.Matches(kq.rings) && mb.Valid()
      && forall n :: Exists(n) ==> n in kq.next
    }

    /** Start-up: every table blank, every queue initialised, all control blocks free. */
    constructor (nt: nat, np: nat, nsem: nat, nflg: nat, nmbx: nat)
      ensures Valid() && fresh(Repr()) && Abs() == Boot(nt, np, nsem, nflg, nmbx)
    {
      hide Heap.Valid, RdyQ.Matches, MQ.Mailboxes.Valid, AllNodes, BootTasks, BootSems, EmptyHeads, LineNodes;
      var heap := new Heap(AllNodes(nt, np, nsem, nflg, nmbx));
      AllNodesIn(nt, np, nsem, nflg, nmbx);
      var ready := BootTaskQueues(heap, nt, np, AllNodes(nt, np, nsem, nflg, nmbx));
      BootObjectQueues(heap, nt, np, nsem, nflg, nmbx);
      var boxes := new MQ.Mailboxes(nmbx);
      kq, rq, mb := heap, ready, boxes;
      var tasks, sems, flags := NewTables(nt, nsem, nflg);
      tcb, semcb, flgcb := tasks, sems, flags;
      runtsk, schedtsk := NULL, NULL;
      new;
      BootLines(nt, np, nsem, nflg, nmbx);
      LinesSame(EmptyHeads(LineNodes(np)));
    }

    // ---- writing a table entry, moving a node that is in no priority line ----

    method WriteTcb(t: nat, c: Tcb)
      requires Valid() && t < tcb.Length
      modifies tcb
      ensures Valid() && Abs() == Put(old(Abs()), t, c)
    {
      tcb[t] := c;
    }

    method WriteSem(i: nat, x: Sem)
      requires Valid() && i < semcb.Length
      modifies semcb
      ensures Valid() && Abs() == PutSem(old(Abs()), i, x)
    {
      semcb[i] := x;
    }

    method WriteFlg(i: nat, f: Flg)
      requires Valid() && i < flgcb.Length
      modifies flgcb
      ensures Valid() && Abs() == PutFlg(old(Abs()), i, f)
    {
      flgcb[i] := f;
    }

    lemma LinesSame(m: Rings)
      requires rq.Matches(m) && forall p: nat :: p < rq.np ==> Line(p) in kq.rings && kq.rings[Line(p)] == m[Line(p)]
      ensures rq.Matches(kq.rings)
    {
      TopSame(m, kq.rings, rq.np);
      rq.BitsKept(m, kq.rings);
    }

    method QueueInit(e: Node)
      requires Valid() && Exists(e) && !e.Line? && Unlinked(kq.rings, e)
      modifies kq
      ensures Valid() && Abs() == old(Abs()).(q := Init(old(Abs()).q, e))
    {
      kq.KqueueInit(e);
      LinesSame(old(kq.rings));
    }

    method QueueRemove(e: Node)
      requires Valid() && Exists(e) && !e.Line? && Removable(kq.rings, e)
      requires forall p: nat :: p < rq.np ==> e !in At(kq.rings, Line(p))
      modifies kq
      ensures Valid() && Abs() == old(Abs()).(q := Remove(old(Abs()).q, e))
    {
      ghost var m := kq.rings;
      kq.KqueueRemove(e);
      forall p: nat | p < rq.np ensures kq.rings[Line(p)] == m[Line(p)] { WithoutAbsent(m[Line(p)], e); }
      LinesSame(m);
    }

    method QueueInsert(e: Node, at: Node, ghost h: Node, ghost k: nat)
      requires Valid() && Exists(e) && !e.Line? && Unlinked(kq.rings, e)
      requires h in kq.rings && h != e && !h.Line? && k <= |kq.rings[h]| && at == Walk(h, kq.rings[h])[k + 1]
      modifies kq
      ensures Valid() && Abs() == old(Abs()).(q := InsertAt(old(Abs()).q, e, h, k))
    {
      ghost var m := kq.rings;
      kq.KqueueInsert(e, at, h, k);
      LinesSame(m);
    }

    method QueueAppend(e: Node, h: Node)
      requires Valid() && Exists(e) && !e.Line? && Unlinked(kq.rings, e)
      requires h in kq.rings && h != e && !h.Line?
      modifies kq
      ensures Valid() && Abs() == old(Abs()).(q := Append(old(Abs()).q, e, h))
    {
      AppendIsInsert(kq.rings, e, h);
      QueueInsert(e, h, h, |kq.rings[h]|);
    }

    // ---- task.c ----

    method TaskMakeReady(t: nat)
      requires Valid() && t < tcb.Length && tcb[t].tskpri < rq.np && Unlinked(kq.rings, Tsk(t))
      modifies Repr()
      ensures Valid() && Abs() == MakeReady(old(Abs()), t)
    {
      hide Heap.Valid, MQ.Mailboxes.Valid, RdyQ.Matches;
      tcb[t] := tcb[t].(state := RDY);
      var top := rq.RdyqInsert(t, tcb[t].tskpri);
      if top { schedtsk := t; }
    }

    method LineRemove(t: nat)
      requires Valid() && t < tcb.Length && tcb[t].tskpri < rq.np && LinesHoldTasks(Abs())
      requires InLineOnly(Abs(), t)
      modifies kq, rq, rq.bitmap
      ensures Valid() && LinesHoldTasks(Abs()) && Abs() == old(Abs()).(q := Remove(old(Abs()).q, Tsk(t)))
      ensures Unlinked(kq.rings, Tsk(t))
    {
      hide Heap.Valid, MQ.Mailboxes.Valid, RdyQ.Matches;
      AfterNode(kq.rings, Tsk(t));
      rq.RdyqRemove(t, tcb[t].tskpri);
    }

    method ScheduleTop()
      requires Valid() && LinesHoldTasks(Abs())
      modifies this`schedtsk
      ensures Valid() && Abs() == Reschedule(old(Abs()))
    {
      hide Heap.Valid, MQ.Mailboxes.Valid;
      schedtsk := rq.RdyqTop();
    }

    method TaskMakeUnready(t: nat)
      requires Valid() && t < tcb.Length && tcb[t].tskpri < rq.np && LinesHoldTasks(Abs())
      requires InLineOnly(Abs(), t)
      modifies Repr()
      ensures Valid() && Unlinked(kq.rings, Tsk(t)) && Abs() == MakeUnready(old(Abs()), t)
      ensures runtsk == old(runtsk) && tcb[..] == old(tcb[..])
    {
      hide Valid, LinesHoldTasks, InLineOnly, Unlinked, Remove;
      LineRemove(t);
      if schedtsk == t {
        ScheduleTop();
      }
    }

    method LineInsert(t: nat, pri: nat) returns (top: bool)
      requires Valid() && t < tcb.Length && pri < rq.np && Unlinked(kq.rings, Tsk(t))
      modifies kq, rq, rq.bitmap
      ensures Valid() && Abs() == old(Abs()).(q := Append(old(Abs()).q, Tsk(t), Line(pri)))
      ensures top <==> pri < TopPri(old(Abs()).q, rq.np)
    {
      hide Heap.Valid, MQ.Mailboxes.Valid, RdyQ.Matches;
      top := rq.RdyqInsert(t, pri);
    }

    method TaskChangePri(t: nat, pri: nat)
      requires Valid() && t < tcb.Length && tcb[t].tskpri < rq.np && pri < rq.np && LinesHoldTasks(Abs())
      requires InLineOnly(Abs(), t)
      modifies Repr()
      ensures Valid() && Abs() == ChangePri(old(Abs()), t, pri)
    {
      hide Valid, InLineOnly, Remove, Append, Unlinked, TopTask, TopPri;
      LineRemove(t);
      WriteTcb(t, tcb[t].(tskpri := pri));
      ScheduleTop();
      var top := LineInsert(t, pri);
      if top { schedtsk := t; }
    }

    method DispatchNow()
      requires Valid()
      modifies this`runtsk
      ensures Valid() && Abs() == Dispatch(old(Abs()))
    {
      runtsk := schedtsk;
    }

    // ---- wait.h, wait.c, timer.c ----

    method TaskLeaveWait(t: nat)
      requires Valid() && t < tcb.Length && tcb[t].tskpri < rq.np && Unlinked(kq.rings, Tsk(t))
      modifies Repr()
      ensures Valid() && Abs() == LeaveWait(old(Abs()), t)
    {
      hide Valid, Unlinked;
      var state := tcb[t].state;
      WriteTcb(t, tcb[t].(tskwait := NotSleeping));
      if state == WAI {
        TaskMakeReady(t);
      } else {
        WriteTcb(t, tcb[t].(state := SUS));
      }
    }

    method WaitCancel(t: nat)
      requires Valid() && Releasable(Abs(), t)
      modifies kq
      ensures Valid() && Abs() == KernelState.WaitCancel(old(Abs()), t) && Unlinked(kq.rings, Tsk(t))
    {
      QueueRemove(Wtm(t));
      AfterTimer(old(Abs()), t);
      QueueRemove(Tsk(t));
      AfterNode(Remove(old(kq.rings), Wtm(t)), Tsk(t));
    }

    method WaitRelease(t: nat)
      requires Valid() && Releasable(Abs(), t)
      modifies Repr()
      ensures Valid() && Abs() == KernelState.WaitRelease(old(Abs()), t)
    {
      hide Valid, Unlinked, Remove;
      WaitCancel(t);
      TaskLeaveWait(t);
    }

    method WaitReleaseWith(t: nat, er: Er)
      requires Valid() && Releasable(Abs(), t)
      modifies Repr()
      ensures Valid() && Abs() == ReleaseWith(old(Abs()), t, er)
    {
      hide Valid, Removable, KernelState.WaitRelease;
      WriteTcb(t, tcb[t].(ercd := er));
      WaitRelease(t);
    }

    method WaitReleaseTmout(t: nat)
      requires Valid() && Detachable(Abs(), t)
      modifies Repr()
      ensures Valid() && Abs() == ReleaseTmout(old(Abs()), t)
    {
      hide Unlinked, Removable, LeaveWait;
      QueueRemove(Tsk(t));
      AfterNode(old(kq.rings), Tsk(t));
      TaskLeaveWait(t);
    }

    method TimerInsert(t: nat, tmo: int)
      requires Valid() && t < tcb.Length && Unlinked(kq.rings, Wtm(t)) && TimerQ in kq.rings
      modifies Repr()
      ensures Valid() && runtsk == old(runtsk) && Abs() == KernelState.TimerInsert(old(Abs()), t, tmo)
    {
      hide Unlinked;
      if tmo == TMO_FEVR {
        QueueInit(Wtm(t));
      } else {
        WriteTcb(t, tcb[t].(count := U32(tmo)));
        QueueAppend(Wtm(t), TimerQ);
      }
    }

    method MakeWait(tmo: int, ghost s: State)
      requires Valid() && CallerOf(s, Abs())
      modifies Repr()
      ensures Valid() && runtsk == old(runtsk) && Abs() == KernelState.MakeWait(old(Abs()), runtsk, tmo)
    {
      hide Valid, CallerOf, Remove, Unlinked, KernelState.TimerInsert;
      CallerIs(s, Abs());
      CallerParts(s, Abs());
      TaskMakeUnready(runtsk);
      WriteTcb(runtsk, tcb[runtsk].(state := WAI));
      TimerInsert(runtsk, tmo);
    }

    /** `kqueue_find_pri`. */
    method KqueueFindPri(queue: Node, pri: nat) returns (entry: Node)
      requires Valid() && queue in kq.rings && forall n :: n in kq.rings[queue] ==> n.Tsk? && n.t < tcb.Length
      ensures entry == Walk(queue, kq.rings[queue])[PriPos(tcb[..], kq.rings[queue], pri) + 1]
    {
      ghost var xs := kq.rings[queue];
      ghost var k := 0;
      assert queue !in xs by { kq.HeadApart(queue); }
      kq.Follow(queue, 0);
      entry := kq.next[queue];
      while entry != queue
        invariant k <= |xs| && entry == Walk(queue, xs)[k + 1]
        invariant forall i :: 0 <= i < k ==> PriOf(tcb[..], xs[i]) <= pri
        decreases |xs| - k
      {
        assert entry == xs[k] && xs[k] in xs;
        if tcb[entry.t].tskpri > pri { break; }
        kq.Follow(queue, k + 1);
        entry := kq.next[entry];
        k := k + 1;
      }
      PriPosIs(tcb[..], xs, pri, k);
    }

    method KqueueInsertPri(t: nat, queue: Node)
      requires Valid() && t < tcb.Length && Unlinked(kq.rings, Tsk(t)) && IsWaitQ(queue)
      requires queue in kq.rings && forall n :: n in kq.rings[queue] ==> n.Tsk? && n.t < tcb.Length
      modifies kq
      ensures Valid() && Abs() == Enqueue(old(Abs()), t, queue, true)
    {
      hide Unlinked;
      var at := KqueueFindPri(queue, tcb[t].tskpri);
      QueueInsert(Tsk(t), at, queue, PriPos(tcb[..], kq.rings[queue], tcb[t].tskpri));
    }

    method ObjMakeWait(waitq: Node, objatr: bv16, tmo: int, ghost s: State)
      requires Valid() && CallerOf(s, Abs()) && IsWaitQ(waitq) && waitq in kq.rings
      modifies Repr()
      ensures Valid() && runtsk == old(runtsk)
      ensures Abs() == KernelState.ObjMakeWait(old(Abs()), runtsk, waitq, objatr, tmo)
    {
      hide Valid, CallerOf, Unlinked, Remove, KernelState.MakeWait, TaTpri, Append, PriPos;
      CallerIs(s, Abs());
      WriteTcb(runtsk, tcb[runtsk].(waitObj := Some(waitq)));
      CallerTweaked(s, old(Abs()), Abs());
      CallerWaits(s, Abs(), tmo, waitq);
      MakeWait(tmo, s);
      if TaTpri(objatr) {
        KqueueInsertPri(runtsk, waitq);
      } else {
        QueueAppend(Tsk(runtsk), waitq);
      }
    }

    /** The common part of `slp_tsk` and `dly_tsk`. */
    method SelfWait(why: Why, tmo: int, ghost s: State)
      requires Valid() && CallerOf(s, Abs())
      modifies Repr()
      ensures Valid() && runtsk == old(runtsk) && Abs() == KernelState.SelfWait(old(Abs()), runtsk, why, tmo)
    {
      hide Valid, CallerOf, Unlinked, Remove, KernelState.MakeWait;
      CallerIs(s, Abs());
      WriteTcb(runtsk, tcb[runtsk].(waitObj := None, tskwait := why));
      CallerTweaked(s, old(Abs()), Abs());
      CallerWaits(s, Abs(), tmo, SemQ(0));
      MakeWait(tmo, s);
      QueueInit(Tsk(runtsk));
    }

    method WaitDelete(waitq: Node)
      requires Valid() && Good(Abs(), NULL) && IsWaitQ(waitq) && waitq in kq.rings
      modifies Repr()
      ensures Valid() && Abs() == ReleaseAll(old(Abs()), old(kq.rings[waitq]))
      ensures waitq in kq.rings && kq.rings[waitq] == []
    {
      hide Valid, Good, Releasable, ReleaseWith, Separate, Ring;
      ghost var ws := kq.rings[waitq];
      kq.Front(waitq) by { ValidParts(); }
      var empty := KqueueEmpty(waitq);
      while !empty
        invariant Valid() && Good(Abs(), NULL) && waitq in kq.rings && (empty <==> kq.rings[waitq] == [])
        invariant ReleaseAll(Abs(), kq.rings[waitq]) == ReleaseAll(old(Abs()), ws)
        decreases |kq.rings[waitq]|
      {
        DeleteLoop(Abs(), waitq);
        kq.Front(waitq) by { ValidParts(); }
        var t := kq.next[waitq].t;
        WaitReleaseWith(t, E_DLT);
        empty := KqueueEmpty(waitq);
      }
    }

    lemma ValidParts()
      requires Valid()
      ensures kq.Valid() && mb.Valid() && forall n :: Exists(n) ==> n in kq.next
    {
    }

    method KqueueEmpty(queue: Node) returns (r: bool)
      requires Valid() && queue in kq.rings
      ensures r <==> kq.rings[queue] == []
    {
      r := kq.KqueueEmpty(queue);
    }

    /** The body of the tick loop. */
    method TimerEvent(t: nat)
      requires Valid() && Releasable(Abs(), t)
      modifies Repr()
      ensures Valid() && Abs() == TickOne(old(Abs()), t)
    {
      hide Valid, Removable, ReleaseTmout;
      WriteTcb(t, tcb[t].(count := U32(tcb[t].count - 1)));
      if tcb[t].count == 0 {
        AfterTimer(Abs(), t);
        QueueRemove(Wtm(t));
        WaitReleaseTmout(t);
      }
    }

    method TimerHandler()
      requires Valid() && Inv(Abs())
      modifies Repr()
      ensures Valid() && Abs() == Tick(old(Abs()))
      ensures Inv(Abs())
    {
      hide Valid, Good, Releasable, Ring, TickOne;
      TimerHead(Abs());
      TickInv(Abs());
      ghost var pre, es := [], kq.rings[TimerQ];
      assert pre + es == es;
      kq.Front(TimerQ) by { ValidParts(); }
      var event := kq.next[TimerQ];
      while event != TimerQ
        invariant Valid() && Good(Abs(), NULL) && TimerQ in kq.rings && kq.rings[TimerQ] == pre + es
        invariant event == FirstOf(TimerQ, es) && TickAll(Abs(), es) == Tick(old(Abs()))
        decreases |es|
      {
        TickLoop(Abs(), pre, es);
        WalkFirst(TimerQ, pre, es);
        kq.Follow(TimerQ, |pre| + 1) by { ValidParts(); }
        var next := kq.next[event];
        if !DueNow(Abs().tcb, event) { pre := pre + [event]; }
        TimerEvent(event.t);
        es := es[1..];
        event := next;
      }
      NoSelfEvent(Abs(), es);
    }

    // ---- semaphore.c ----

    /** An initial count above the maximum is not checked for. */
    method CreSem(id: int, sematr: bv16, isemcnt: nat, maxsem: nat) returns (er: Er)
      requires Valid() && Inv(Abs())
      modifies Repr()
      ensures Valid() && (Abs(), er) == Step(old(Abs()), CCreSem(id, sematr, isemcnt, maxsem))
      ensures Inv(Abs()) <==> Sound(old(Abs()), CCreSem(id, sematr, isemcnt, maxsem))
    {
      hide Valid, Inv, Good, Remove, Init, Removable, Unlinked;
      InvExact(Abs(), CCreSem(id, sematr, isemcnt, maxsem));
      GoodOf(Abs());
      if id < 1 || id > semcb.Length { return E_ID; }
      if sematr & 0x01 != sematr { return E_RSATR; }
      if TMAX_MAXSEM < maxsem || TMAX_MAXSEM < isemcnt { return E_PAR; }
      if semcb[id - 1].live { return E_OBJ; }
      FreeSemParts(Abs(), id - 1);
      QueueRemove(SemQ(id - 1));
      QueueInit(SemQ(id - 1));
      WriteSem(id - 1, Sem(true, sematr, isemcnt, maxsem));
      return E_OK;
    }

    /** The part of `wai_sem` for a semaphore without resources. */
    method SemWait(i: nat, tmo: int)
      requires Valid() && Inv(Abs()) && IsTask(Abs(), runtsk) && i < semcb.Length && SemQ(i) in kq.rings
      modifies Repr()
      ensures Valid() && runtsk == old(runtsk)
      ensures var t := runtsk; var s1 := Put(old(Abs()), t, old(tcb[t]).(ercd := E_TMOUT));
        Abs() == if tmo == TMO_POL then s1 else KernelState.ObjMakeWait(s1, t, SemQ(i), old(semcb[i]).atr, tmo)
    {
      hide Valid, Good, KernelState.ObjMakeWait, CallerOf;
      WriteTcb(runtsk, tcb[runtsk].(ercd := E_TMOUT));
      CallerStarts(old(Abs()), Abs());
      if tmo != TMO_POL {
        ObjMakeWait(SemQ(i), semcb[i].atr, tmo, old(Abs()));
      }
    }

    method WaiSem(id: int, tmo: int) returns (er: Er)
      requires Valid() && Inv(Abs()) && Allowed(Abs(), CWaiSem(id, tmo))
      modifies Repr()
      ensures Valid() && (Abs(), er) == Step(old(Abs()), CWaiSem(id, tmo))
      ensures Inv(Abs())
    {
      hide Valid, Inv, Good, KernelState.ObjMakeWait, CallerOf;
      StepInv(Abs(), CWaiSem(id, tmo));
      GoodOf(Abs());
      QueuesExist(Abs());
      if id < 1 || id > semcb.Length { return E_ID; }
      var i := id - 1;
      if !semcb[i].live { return E_OBJ; }
      if 0 < semcb[i].cnt {
        WriteSem(i, semcb[i].(cnt := semcb[i].cnt - 1));
        WriteTcb(runtsk, tcb[runtsk].(ercd := E_OK));
        er := E_OK;
      } else {
        SemWait(i, tmo);
        er := E_TMOUT;
      }
      DispatchNow();
    }

    method ISigSem(id: int) returns (er: Er)
      requires Valid() && Inv(Abs())
      modifies Repr()
      ensures Valid() && (Abs(), er) == KernelState.ISigSem(old(Abs()), id)
      ensures Inv(Abs())
    {
      hide Valid, Good, ReleaseWith, Releasable;
      ISigSemInv(Abs(), id);
      if id < 1 || id > semcb.Length { return E_ID; }
      var i := id - 1;
      if !semcb[i].live { return E_OBJ; }
      QueuesExist(Abs());
      var empty := KqueueEmpty(SemQ(i));
      if !empty {
        FirstParts(Abs(), SemQ(i));
        kq.Front(SemQ(i)) by { ValidParts(); }
        WaitReleaseWith(kq.next[SemQ(i)].t, E_OK);
      } else {
        if semcb[i].cnt >= semcb[i].max { return E_QOVR; }
        WriteSem(i, semcb[i].(cnt := semcb[i].cnt + 1));
      }
      return E_OK;
    }

    method SigSem(id: int) returns (er: Er)
      requires Valid() && Inv(Abs())
      modifies Repr()
      ensures Valid() && (Abs(), er) == Step(old(Abs()), CSigSem(id, false))
      ensures Inv(Abs())
    {
      hide Valid, Inv, Good, KernelState.ISigSem;
      StepInv(Abs(), CSigSem(id, false));
      GoodOf(Abs());
      er := ISigSem(id);
      DispatchNow();
    }

    method DelSem(id: int) returns (er: Er)
      requires Valid() && Inv(Abs())
      modifies Repr()
      ensures Valid() && (Abs(), er) == Step(old(Abs()), CDelSem(id))
      ensures Inv(Abs())
    {
      hide Valid, Inv, Good, ReleaseAll, Append, Unlinked;
      StepInv(Abs(), CDelSem(id));
      GoodOf(Abs());
      if id < 1 || id > semcb.Length { return E_ID; }
      var i := id - 1;
      if !semcb[i].live { return E_NOEXS; }
      QueuesExist(Abs());
      ReleaseAllGood(Abs(), SemQ(i));
      WaitDelete(SemQ(i));
      LiveHead(Abs(), i);
      WriteSem(i, semcb[i].(live := false, cnt := 0));
      QueueAppend(SemQ(i), FreeSem);
      DispatchNow();
      return E_OK;
    }

    // ---- eventflags.c ----

    method CreFlg(id: int, flgatr: bv16, iflgptn: bv32) returns (er: Er)
      requires Valid() && Inv(Abs())
      modifies Repr()
      ensures Valid() && (Abs(), er) == Step(old(Abs()), CCreFlg(id, flgatr, iflgptn))
      ensures Inv(Abs())
    {
      hide Valid, Inv, Good, Init, Unlinked, FlgOk;
      StepInv(Abs(), CCreFlg(id, flgatr, iflgptn));
      GoodOf(Abs());
      if id < 1 || id > flgcb.Length { return E_ID; }
      if flgatr != flgatr & 0x07 { return E_RSATR; }
      if flgcb[id - 1].live { return E_OBJ; }
      IdleHead(Abs(), FlgQ(id - 1));
      QueueInit(FlgQ(id - 1));
      WriteFlg(id - 1, Flg(true, flgatr, iflgptn));
      return E_OK;
    }

    /** The body of the loop of `set_flg`. */
    method SweepTask(i: nat, t: nat)
      requires Valid() && i < flgcb.Length && Releasable(Abs(), t)
      modifies Repr()
      ensures Valid() && Abs() == SweepOne(old(Abs()), i, t)
    {
      hide Valid, FlagCond, TaClr, KernelState.WaitRelease, Removable;
      if FlagCond(flgcb[i].ptn, tcb[t].waiptn, tcb[t].wfmode) {
        WriteTcb(t, tcb[t].(flgOut := flgcb[i].ptn));
        WaitReleaseWith(t, E_OK);
        ReleaseIgnores(Put(old(Abs()), t, old(tcb[t]).(flgOut := old(flgcb[i]).ptn)), t, E_OK, old(Abs()).o);
        if TaClr(flgcb[i].atr) {
          WriteFlg(i, flgcb[i].(ptn := 0));
        }
      }
    }

    /** The traversal of `set_flg`, the pattern having been set. */
    method SweepQueue(i: nat, ghost p0: bv32)
      requires Valid() && i < flgcb.Length && Good(WithPtn(Abs(), i, p0), NULL) && FlgQ(i) in kq.rings
      modifies Repr()
      ensures Valid() && Abs() == Sweep(old(Abs()), i, old(kq.rings[FlgQ(i)]))
    {
      hide Valid, Good, Releasable, Ring, SweepOne, Hit;
      ghost var pre, ws := [], kq.rings[FlgQ(i)];
      ghost var all := ws;
      assert pre + ws == ws;
      kq.Front(FlgQ(i)) by { ValidParts(); }
      var queue := kq.next[FlgQ(i)];
      while queue != FlgQ(i)
        invariant Valid() && Good(WithPtn(Abs(), i, p0), NULL)
        invariant FlgQ(i) in kq.rings && kq.rings[FlgQ(i)] == pre + ws
        invariant queue == FirstOf(FlgQ(i), ws) && Sweep(Abs(), i, ws) == Sweep(old(Abs()), i, all)
        decreases |ws|
      {
        SweepLoop(Abs(), i, p0, pre, ws);
        WalkFirst(FlgQ(i), pre, ws);
        kq.Follow(FlgQ(i), |pre| + 1) by { ValidParts(); }
        var t := queue.t;
        if !Hit(Abs().tcb, queue, flgcb[i].ptn) { pre := pre + [queue]; }
        queue := kq.next[queue];
        SweepTask(i, t);
        ws := ws[1..];
      }
      NoSelfWaiter(WithPtn(Abs(), i, p0), FlgQ(i), pre, ws);
    }

    method ISetFlg(id: int, setptn: bv32) returns (er: Er)
      requires Valid() && Inv(Abs())
      modifies Repr()
      ensures Valid() && (Abs(), er) == KernelState.ISetFlg(old(Abs()), id, setptn)
      ensures Inv(Abs())
    {
      hide Valid, Good, Sweep, FlagCond, TaClr, BitsSet;
      ISetFlgInv(Abs(), id, setptn);
      if id < 1 || id > flgcb.Length { return E_ID; }
      var i := id - 1;
      if !flgcb[i].live { return E_NOEXS; }
      QueuesExist(Abs());
      WriteFlg(i, flgcb[i].(ptn := BitsSet(flgcb[i].ptn, setptn)));
      assert WithPtn(Abs(), i, old(flgcb[i].ptn)) == old(Abs()) by { SetAndBack(old(Abs()), i, flgcb[i].ptn); }
      SweepQueue(i, old(flgcb[i].ptn));
      return E_OK;
    }

    method SetFlg(id: int, setptn: bv32) returns (er: Er)
      requires Valid() && Inv(Abs())
      modifies Repr()
      ensures Valid() && (Abs(), er) == Step(old(Abs()), CSetFlg(id, setptn, false))
      ensures Inv(Abs())
    {
      hide Valid, Inv, Good, KernelState.ISetFlg;
      StepInv(Abs(), CSetFlg(id, setptn, false));
      GoodOf(Abs());
      er := ISetFlg(id, setptn);
      DispatchNow();
    }

    method ClrFlg(id: int, clrptn: bv32) returns (er: Er)
      requires Valid() && Inv(Abs())
      modifies Repr()
      ensures Valid() && (Abs(), er) == Step(old(Abs()), CClrFlg(id, clrptn))
      ensures Inv(Abs())
    {
      hide Valid, Inv, Good, BitsKept;
      StepInv(Abs(), CClrFlg(id, clrptn));
      GoodOf(Abs());
      if id < 1 || id > flgcb.Length { return E_ID; }
      if !flgcb[id - 1].live { return E_NOEXS; }
      WriteFlg(id - 1, flgcb[id - 1].(ptn := BitsKept(flgcb[id - 1].ptn, clrptn)));
      return E_OK;
    }

    method WaiFlg(id: int, waiptn: bv32, wfmode: nat, tmo: int) returns (er: Er)
      requires Valid() && Inv(Abs()) && Allowed(Abs(), CWaiFlg(id, waiptn, wfmode, tmo))
      modifies Repr()
      ensures Valid() && (Abs(), er) == Step(old(Abs()), CWaiFlg(id, waiptn, wfmode, tmo))
      ensures Inv(Abs())
    {
      hide Step, Valid, Inv, Good, KernelState.ObjMakeWait, CallerOf, FlagCond, TaClr, TaWsgl;
      StepInv(Abs(), CWaiFlg(id, waiptn, wfmode, tmo));
      WaiFlgIs(Abs(), id, waiptn, wfmode, tmo);
      if id < 1 || id > flgcb.Length { return E_ID; }
      if (wfmode != 0 && wfmode != 1) || waiptn == 0 { return E_PAR; }
      var i := id - 1;
      if !flgcb[i].live {
        WriteTcb(runtsk, tcb[runtsk].(ercd := E_NOEXS));
        return E_NOEXS;
      }
      var empty := KqueueEmpty(FlgQ(i));
      if TaWsgl(flgcb[i].atr) && !empty {
        WriteTcb(runtsk, tcb[runtsk].(ercd := E_ILUSE));
        return E_ILUSE;
      }
      if FlagCond(flgcb[i].ptn, waiptn, wfmode) {
        WriteTcb(runtsk, tcb[runtsk].(ercd := E_OK, flgOut := flgcb[i].ptn));
        if TaClr(flgcb[i].atr) {
          WriteFlg(i, flgcb[i].(ptn := 0));
        }
        return E_OK;
      }
      if tmo == TMO_POL {
        WriteTcb(runtsk, tcb[runtsk].(ercd := E_TMOUT));
        return E_TMOUT;
      }
      WriteTcb(runtsk, tcb[runtsk].(ercd := E_TMOUT, waiptn := waiptn, wfmode := wfmode));
      CallerStarts(old(Abs()), Abs());
      ObjMakeWait(FlgQ(i), flgcb[i].atr, tmo, old(Abs()));
      DispatchNow();
      return E_TMOUT;
    }

    method DelFlg(id: int) returns (er: Er)
      requires Valid() && Inv(Abs())
      modifies Repr()
      ensures Valid() && (Abs(), er) == Step(old(Abs()), CDelFlg(id))
      ensures Inv(Abs())
    {
      hide Valid, Inv, Good, ReleaseAll;
      StepInv(Abs(), CDelFlg(id));
      GoodOf(Abs());
      if id < 1 || id > flgcb.Length { return E_ID; }
      var i := id - 1;
      if !flgcb[i].live { return E_NOEXS; }
      QueuesExist(Abs());
      WaitDelete(FlgQ(i));
      WriteFlg(i, flgcb[i].(live := false, ptn := 0));
      DispatchNow();
      return E_OK;
    }

    // ---- mailbox.c ----

    lemma MbxEntry(i: nat)
      requires Valid() && i < |mb.view|
      ensures |mb.view| == mb.cb.Length && mb.cb[i].live == mb.view[i].live && mb.cb[i].atr == mb.view[i].atr
      ensures mb.cb[i].mqHead == None <==> mb.view[i].msgs == []
    {
      assert MQ.Matches(mb.nextmsg, mb.msgpri, mb.cb[i], mb.view[i]);
    }

    method MbxCreate(i: nat, atr: bv16)
      requires Valid() && i < |mb.view|
      modifies mb, mb.cb
      ensures Valid() && Abs() == PutMbx(old(Abs()), i, Mbx(true, atr, []))
    {
      mb.Create(i, atr);
    }

    method MbxDelete(i: nat)
      requires Valid() && i < |mb.view|
      modifies mb, mb.cb
      ensures Valid() && Abs() == PutMbx(old(Abs()), i, old(mb.view[i]).(live := false, msgs := []))
    {
      mb.Delete(i);
    }

    /** Queue a message that no receiver waits for. */
    method MbxQueue(i: nat, m: Msg)
      requires Valid() && i < |mb.view| && !InList(mb.view, m.addr)
      modifies mb, mb.cb
      ensures Valid()
      ensures var b := old(mb.view[i]);
        Abs() == PutMbx(old(Abs()), i, b.(msgs := if TaMpri(b.atr) then InsertMsg(b.msgs, m) else b.msgs + [m]))
    {
      hide TaMpri, Heap.Valid, RdyQ.Matches, MQ.Matches, Packets, InList, InsertMsg;
      MbxEntry(i);
      if TaMpri(mb.cb[i].atr) {
        mb.InsertMpri(i, m);
      } else {
        mb.Push(i, m);
      }
    }

    method MbxPop(i: nat) returns (m: Msg)
      requires Valid() && i < |mb.view| && mb.view[i].msgs != []
      modifies mb, mb.cb
      ensures Valid() && m == old(mb.view[i].msgs[0])
      ensures Abs() == PutMbx(old(Abs()), i, old(mb.view[i]).(msgs := old(mb.view[i].msgs[1..])))
    {
      m := mb.Pop(i);
    }

    method CreMbx(id: int, mbxatr: bv16) returns (er: Er)
      requires Valid() && Inv(Abs())
      modifies Repr()
      ensures Valid() && (Abs(), er) == Step(old(Abs()), CCreMbx(id, mbxatr))
      ensures Inv(Abs())
    {
      hide Valid, Inv, Good, Init, Unlinked;
      StepInv(Abs(), CCreMbx(id, mbxatr));
      GoodOf(Abs());
      MbxTable();
      if id < 1 || id > mb.cb.Length { return E_ID; }
      if mbxatr != mbxatr & 0x03 { return E_RSATR; }
      MbxEntry(id - 1);
      if mb.cb[id - 1].live { return E_OBJ; }
      IdleHead(Abs(), MbxQ(id - 1));
      QueueInit(MbxQ(id - 1));
      MbxCreate(id - 1, mbxatr);
      return E_OK;
    }

    lemma MbxTable()
      requires Valid()
      ensures mb.cb.Length == |mb.view|
    {
    }

    /** The packet must not be in a list already, if it is going to be put into one. */
    method SndMbx(id: int, m: Msg) returns (er: Er)
      requires Valid() && Inv(Abs()) && Sound(Abs(), CSndMbx(id, m))
      modifies Repr()
      ensures Valid() && (Abs(), er) == Step(old(Abs()), CSndMbx(id, m))
      ensures Inv(Abs())
    {
      hide Valid, Inv, Good, TaMpri, Releasable, ReleaseWith, InsertMsg, InList;
      StepInv(Abs(), CSndMbx(id, m));
      GoodOf(Abs());
      er := SndMbxLocked(id, m);
      DispatchNow();
    }

    method SndMbxLocked(id: int, m: Msg) returns (er: Er)
      requires Valid() && Inv(Abs()) && Sound(Abs(), CSndMbx(id, m))
      modifies Repr()
      ensures Valid() && (Dispatch(Abs()), er) == KernelState.SndMbx(old(Abs()), id, m)
    {
      hide Valid, Good, TaMpri, Releasable, ReleaseWith, InsertMsg, InList;
      MbxTable();
      if id < 1 || id > mb.cb.Length { return E_ID; }
      var i := id - 1;
      MbxEntry(i);
      if !mb.cb[i].live { return E_NOEXS; }
      if TaMpri(mb.cb[i].atr) && m.pri <= 0 { return E_PAR; }
      QueuesExist(Abs());
      var empty := KqueueEmpty(MbxQ(i));
      if !empty {
        FirstParts(Abs(), MbxQ(i));
        kq.Front(MbxQ(i)) by { ValidParts(); }
        var t := kq.next[MbxQ(i)].t;
        WriteTcb(t, tcb[t].(msgOut := Some(m)));
        SameParts(old(Abs()), Abs(), t);
        WaitReleaseWith(t, E_OK);
      } else {
        MbxQueue(i, m);
      }
      return E_OK;
    }

    method RcvMbx(id: int, tmo: int) returns (er: Er)
      requires Valid() && Inv(Abs()) && Allowed(Abs(), CRcvMbx(id, tmo))
      modifies Repr()
      ensures Valid() && (Abs(), er) == Step(old(Abs()), CRcvMbx(id, tmo))
      ensures Inv(Abs())
    {
      hide Step, Valid, Inv, Good, KernelState.ObjMakeWait, CallerOf;
      StepInv(Abs(), CRcvMbx(id, tmo));
      RcvMbxIs(Abs(), id, tmo);
      MbxTable();
      if id < 1 || id > mb.cb.Length { return E_ID; }
      if !(tmo >= TMO_FEVR) { return E_PAR; }
      var i := id - 1;
      MbxEntry(i);
      if !mb.cb[i].live {
        WriteTcb(runtsk, tcb[runtsk].(ercd := E_NOEXS));
        return E_NOEXS;
      }
      if mb.cb[i].mqHead != None {
        var m := MbxPop(i);
        WriteTcb(runtsk, tcb[runtsk].(ercd := E_OK, msgOut := Some(m)));
        return E_OK;
      }
      WriteTcb(runtsk, tcb[runtsk].(ercd := E_TMOUT));
      if tmo != TMO_POL {
        CallerStarts(old(Abs()), Abs());
        ObjMakeWait(MbxQ(i), mb.cb[i].atr, tmo, old(Abs()));
        DispatchNow();
      }
      return E_TMOUT;
    }

    method DelMbx(id: int) returns (er: Er)
      requires Valid() && Inv(Abs())
      modifies Repr()
      ensures Valid() && (Abs(), er) == Step(old(Abs()), CDelMbx(id))
      ensures Inv(Abs())
    {
      hide Valid, Inv, Good, ReleaseAll;
      StepInv(Abs(), CDelMbx(id));
      GoodOf(Abs());
      MbxTable();
      if id < 1 || id > mb.cb.Length { return E_ID; }
      var i := id - 1;
      MbxEntry(i);
      if !mb.cb[i].live { return E_NOEXS; }
      QueuesExist(Abs());
      WaitDelete(MbxQ(i));
      MbxDelete(i);
      DispatchNow();
      return E_OK;
    }

    // ---- tsk_manage.c ----

    /** The initial priority is not checked. */
    method CreTsk(id: int, itskpri: int) returns (er: Er)
      requires Valid() && Inv(Abs())
      modifies Repr()
      ensures Valid() && (Abs(), er) == Step(old(Abs()), CCreTsk(id, itskpri))
      ensures Inv(Abs()) <==> Sound(old(Abs()), CCreTsk(id, itskpri))
    {
      hide Step, Sound, Valid, Inv, Good, Remove, Removable, TcbOk;
      InvExact(Abs(), CCreTsk(id, itskpri));
      CreTskIs(Abs(), id, itskpri);
      GoodOf(Abs());
      if id > tcb.Length || id < 1 { return E_ID; }
      var t := id - 1;
      if tcb[t].state != NOEXS { return E_OBJ; }
      FreeTaskParts(Abs(), t);
      QueueRemove(Tsk(t));
      var c := tcb[t].(itskpri := PriIndex(itskpri, rq.np), actcnt := 0);
      WriteTcb(t, c);
      WriteTcb(t, MakeDormant(tcb[t]));
      PutPut(old(Abs()), t, c, MakeDormant(c));
      return E_OK;
    }

    /** Take the task off whatever queue its state says it is in. */
    method ForceOut(t: nat)
      requires Valid() && Good(Abs(), NULL) && t < tcb.Length && tcb[t].state != NOEXS
      modifies Repr()
      ensures Valid() && Unlinked(kq.rings, Tsk(t)) && FreeTcb in kq.rings
      ensures Abs() == ForcedOut(old(Abs()), t)
    {
      hide Valid, Good, Remove, Unlinked, Releasable, KernelState.WaitCancel;
      FreeHead(Abs(), t);
      if Waiting(tcb[t]) {
        CanRelease(Abs(), t);
        WaitCancel(t);
      } else if tcb[t].state == RDY {
        ReadyParts(Abs(), t);
        TaskMakeUnready(t);
      } else {
        Nowhere(Abs(), t);
      }
    }

    method DelTsk(id: int) returns (er: Er)
      requires Valid() && Inv(Abs())
      modifies Repr()
      ensures Valid() && (Abs(), er) == Step(old(Abs()), CDelTsk(id))
      ensures Inv(Abs())
    {
      hide Valid, Inv, Good, Remove, Append, Unlinked, ForcedOut;
      StepInv(Abs(), CDelTsk(id));
      GoodOf(Abs());
      DelTskIs(Abs(), id);
      if id > tcb.Length || id < 1 { return E_ID; }
      var t := id - 1;
      if tcb[t].state == NOEXS { return E_NOEXS; }
      if t == runtsk { return E_OBJ; }
      ForceOut(t);
      WriteTcb(t, tcb[t].(state := NOEXS, actcnt := 0, waitObj := None));
      QueueAppend(Tsk(t), FreeTcb);
      DispatchNow();
      return E_OK;
    }

    method IActTsk(id: int) returns (er: Er)
      requires Valid() && Inv(Abs()) && TaskArg(Abs(), id)
      modifies Repr()
      ensures Valid() && (Abs(), er) == KernelState.IActTsk(old(Abs()), id)
      ensures Inv(Abs())
    {
      hide Valid, Good, TcbOk, Unlinked, MakeReady;
      IActTskInv(Abs(), id);
      if id > tcb.Length || (id == 0 && runtsk == NULL) { return E_ID; }
      var t := if id == 0 then runtsk else id - 1;
      if tcb[t].state == NOEXS { return E_NOEXS; }
      if tcb[t].state != DMT {
        if tcb[t].actcnt >= TMAX_ACTCNT { return E_QOVR; }
        WriteTcb(t, tcb[t].(actcnt := tcb[t].actcnt + 1));
      } else {
        Nowhere(Abs(), t);
        TaskMakeReady(t);
      }
      return E_OK;
    }

    method ActTsk(id: int) returns (er: Er)
      requires Valid() && Inv(Abs()) && TaskArg(Abs(), id)
      modifies Repr()
      ensures Valid() && (Abs(), er) == Step(old(Abs()), CActTsk(id, false))
      ensures Inv(Abs())
    {
      hide Valid, Inv, Good, KernelState.IActTsk;
      StepInv(Abs(), CActTsk(id, false));
      GoodOf(Abs());
      er := IActTsk(id);
      if er == E_OK { DispatchNow(); }
    }

    /** A waiting target is not checked for: it moves from its wait queue into a line. */
    method ChgPri(id: int, tskpri: int) returns (er: Er)
      requires Valid() && Inv(Abs()) && TaskArg(Abs(), id) && NotSuspended(Abs(), id, tskpri)
      modifies Repr()
      ensures Valid() && (Abs(), er) == Step(old(Abs()), CChgPri(id, tskpri))
      ensures Inv(Abs()) <==> Sound(old(Abs()), CChgPri(id, tskpri))
    {
      hide Valid, Inv, Good, TcbOk, Unlinked, ChangePri, Remove, InLineOnly;
      InvExact(Abs(), CChgPri(id, tskpri));
      GoodOf(Abs());
      if id > tcb.Length || (id == 0 && runtsk == NULL) { return E_ID; }
      if (tskpri < 1 || tskpri > rq.np) && tskpri != 0 { return E_PAR; }
      var t := if id == 0 then runtsk else id - 1;
      if tcb[t].state == NOEXS { return E_NOEXS; }
      if tcb[t].state == DMT { return E_OBJ; }
      PriParts(Abs(), t);
      InitialPri(Abs(), t);
      if tskpri == 0 {
        TaskChangePri(t, tcb[t].itskpri);
      } else {
        TaskChangePri(t, tskpri - 1);
      }
      DispatchNow();
      return E_OK;
    }

    method RdyqRotate(pri: nat)
      requires Valid() && pri < rq.np && LinesHoldTasks(Abs()) && Line(pri) in kq.rings
      modifies Repr()
      ensures Valid() && Abs() == old(Abs()).(q := Rotated(old(Abs()).q, Line(pri))) && LinesHoldTasks(Abs())
    {
      hide Heap.Valid, RdyQ.Matches, MQ.Mailboxes.Valid;
      rq.RdyqRotate(pri);
    }

    method TopLine() returns (p: nat)
      requires Valid()
      ensures p == TopPri(kq.rings, rq.np)
    {
      p := rq.topPriority;
    }

    method RotRdq(tskpri: int) returns (er: Er)
      requires Valid() && Inv(Abs())
      modifies Repr()
      ensures Valid() && (Abs(), er) == Step(old(Abs()), CRotRdq(tskpri))
      ensures Inv(Abs())
    {
      hide Valid, Inv, Good, Rotated, TopPri, TopTask;
      StepInv(Abs(), CRotRdq(tskpri));
      GoodOf(Abs());
      LinesAre(Abs(), NULL);
      LineHeads(Abs());
      if tskpri == 0 {
        if schedtsk != NULL {
          var p := TopLine();
          RdyqRotate(p);
          ScheduleTop();
        }
      } else {
        if tskpri < 1 || tskpri > rq.np { return E_PAR; }
        RdyqRotate(tskpri - 1);
        ScheduleTop();
      }
      DispatchNow();
      return E_OK;
    }

    method ExtTsk()
      requires Valid() && Inv(Abs()) && IsTask(Abs(), runtsk)
      modifies Repr()
      ensures Valid() && Abs() == Step(old(Abs()), CExtTsk).0
      ensures Inv(Abs())
    {
      hide Valid, Inv, Good, TcbOk, Unlinked, MakeReady, MakeUnready, InLineOnly, LinesHoldTasks;
      StepInv(Abs(), CExtTsk);
      GoodOf(Abs());
      var t := runtsk;
      ReadyParts(Abs(), t);
      InitialPri(Abs(), t);
      TaskMakeUnready(t);
      WriteTcb(t, MakeDormant(tcb[t]));
      if tcb[t].actcnt != 0 {
        WriteTcb(t, tcb[t].(actcnt := tcb[t].actcnt - 1));
        TaskMakeReady(t);
      }
      runtsk := NULL;
      DispatchNow();
    }

    // ---- tsk_dep_syn.c ----

    method DlyTsk(dlytim: nat) returns (er: Er)
      requires Valid() && Inv(Abs()) && IsTask(Abs(), runtsk)
      modifies Repr()
      ensures Valid() && (Abs(), er) == Step(old(Abs()), CDlyTsk(dlytim))
      ensures Inv(Abs())
    {
      hide Valid, Inv, Good, KernelState.SelfWait, CallerOf, ToTmo;
      StepInv(Abs(), CDlyTsk(dlytim));
      GoodOf(Abs());
      WriteTcb(runtsk, tcb[runtsk].(ercd := E_OK));
      CallerStarts(old(Abs()), Abs());
      SelfWait(TTW_DLY, ToTmo(dlytim), old(Abs()));
      DispatchNow();
      return E_OK;
    }

    /** A task that is suspended already is not checked for. */
    method SusTsk(id: int) returns (er: Er)
      requires Valid() && Inv(Abs()) && TaskArg(Abs(), id)
      modifies Repr()
      ensures Valid() && (Abs(), er) == Step(old(Abs()), CSusTsk(id))
      ensures Inv(Abs()) <==> Sound(old(Abs()), CSusTsk(id))
    {
      hide Step, Sound, Valid, Inv, Good, TcbOk, MakeUnready, InLineOnly, LinesHoldTasks;
      InvExact(Abs(), CSusTsk(id));
      SusTskIs(Abs(), id);
      GoodOf(Abs());
      if id > tcb.Length || (id == 0 && runtsk == NULL) { return E_ID; }
      var t := if id == 0 then runtsk else id - 1;
      if tcb[t].state == NOEXS {
        er := E_NOEXS;
      } else if tcb[t].state == DMT {
        er := E_OBJ;
      } else if tcb[t].suscnt == TMAX_ACTCNT {
        er := E_QOVR;
      } else {
        var n := tcb[t].suscnt + 1;
        if tcb[t].state == RDY {
          ReadyParts(Abs(), t);
          WriteTcb(t, tcb[t].(suscnt := n, state := SUS));
          LineAlike(old(Abs()), Abs(), t);
          TaskMakeUnready(t);
        } else {
          WriteTcb(t, tcb[t].(suscnt := n, state := WAS));
        }
        er := E_OK;
      }
      DispatchNow();
    }

    method RsmTsk(id: int) returns (er: Er)
      requires Valid() && Inv(Abs()) && TaskArg(Abs(), id)
      modifies Repr()
      ensures Valid() && (Abs(), er) == Step(old(Abs()), CRsmTsk(id))
      ensures Inv(Abs())
    {
      hide Valid, Inv, Good, TcbOk, MakeReady, Unlinked;
      StepInv(Abs(), CRsmTsk(id));
      GoodOf(Abs());
      if id > tcb.Length || (id == 0 && runtsk == NULL) { return E_ID; }
      var t := if id == 0 then runtsk else id - 1;
      if tcb[t].state == NOEXS {
        er := E_NOEXS;
      } else if tcb[t].state != SUS && tcb[t].state != WAS {
        er := E_OBJ;
      } else {
        if tcb[t].state == SUS { Nowhere(Abs(), t); }
        WriteTcb(t, tcb[t].(suscnt := tcb[t].suscnt - 1));
        if tcb[t].suscnt == 0 {
          if tcb[t].state == WAS {
            WriteTcb(t, tcb[t].(state := WAI));
          } else {
            TaskMakeReady(t);
          }
        }
        er := E_OK;
      }
      DispatchNow();
    }

    method SlpTsk(tmo: int) returns (er: Er)
      requires Valid() && Inv(Abs()) && IsTask(Abs(), runtsk)
      modifies Repr()
      ensures Valid() && (Abs(), er) == Step(old(Abs()), CSlpTsk(tmo))
      ensures Inv(Abs())
    {
      hide Valid, Inv, Good, KernelState.SelfWait, CallerOf;
      StepInv(Abs(), CSlpTsk(tmo));
      GoodOf(Abs());
      if tcb[runtsk].wupcnt > 0 {
        WriteTcb(runtsk, tcb[runtsk].(wupcnt := tcb[runtsk].wupcnt - 1, ercd := E_OK));
        er := E_OK;
      } else {
        WriteTcb(runtsk, tcb[runtsk].(ercd := E_TMOUT));
        CallerStarts(old(Abs()), Abs());
        if tmo != TMO_POL {
          SelfWait(TTW_SLP, tmo, old(Abs()));
        }
        er := E_TMOUT;
      }
      DispatchNow();
    }

    method IWupTsk(id: int) returns (er: Er)
      requires Valid() && Inv(Abs()) && TaskArg(Abs(), id)
      modifies Repr()
      ensures Valid() && (Abs(), er) == KernelState.IWupTsk(old(Abs()), id)
      ensures Inv(Abs())
    {
      hide Valid, Good, Releasable, ReleaseWith;
      IWupTskInv(Abs(), id);
      if id > tcb.Length || (id == 0 && runtsk == NULL) { return E_ID; }
      var t := if id == 0 then runtsk else id - 1;
      if tcb[t].state == NOEXS { return E_NOEXS; }
      if tcb[t].state == DMT { return E_OBJ; }
      if Waiting(tcb[t]) && tcb[t].tskwait == TTW_SLP {
        CanRelease(Abs(), t);
        WaitReleaseWith(t, E_OK);
      } else if tcb[t].wupcnt >= TMAX_ACTCNT {
        return E_QOVR;
      } else {
        WriteTcb(t, tcb[t].(wupcnt := tcb[t].wupcnt + 1));
      }
      return E_OK;
    }

    method WupTsk(id: int) returns (er: Er)
      requires Valid() && Inv(Abs()) && TaskArg(Abs(), id)
      modifies Repr()
      ensures Valid() && (Abs(), er) == Step(old(Abs()), CWupTsk(id, false))
      ensures Inv(Abs())
    {
      hide Valid, Inv, Good, KernelState.IWupTsk;
      StepInv(Abs(), CWupTsk(id, false));
      GoodOf(Abs());
      er := IWupTsk(id);
      if er == E_OK { DispatchNow(); }
    }

    method CanWup(id: int) returns (er: Er, wupcnt: int)
      requires Valid() && Inv(Abs()) && TaskArg(Abs(), id)
      modifies Repr()
      ensures Valid() && (Abs(), er, wupcnt) == KernelState.CanWup(old(Abs()), id)
      ensures var t := if id == 0 then old(runtsk) else id - 1;
        er == E_OK ==> 0 <= t < tcb.Length && wupcnt == old(tcb[..])[t].wupcnt && tcb[..] == old(tcb[..])[t := tcb[t]]
      ensures Inv(Abs())
    {
      hide Valid, Good;
      CanWupInv(Abs(), id);
      if id > tcb.Length || (id == 0 && runtsk == NULL) { return E_ID, 0; }
      var t := if id == 0 then runtsk else id - 1;
      if tcb[t].state == NOEXS { return E_NOEXS, 0; }
      if tcb[t].state == DMT { return E_OBJ, 0; }
      er, wupcnt := E_OK, tcb[t].wupcnt;
      WriteTcb(t, tcb[t].(wupcnt := 0));
    }
  }
}
