/** Conservation and order for the objects: semaphore counts and messages. */
module KernelObjects {
  import opened KQueue
  import opened ReadyQueue
  import opened KernelState
  import opened KernelInv
  import opened KernelCalls
  import opened KernelRuns
  import opened KernelEffects
  import opened KernelSafety
  import opened KernelWaits

  // ---- who gets something out of a step ----

  /** The wait of task `t` in queue `h` ends well at call `c`. */
  ghost predicate Served(s: State, c: Call, t: nat, h: Node)
    requires Inv(s) && Allowed(s, c)
  {
    var r := Step(s, c).0;
    && t < |s.tcb| == |r.tcb|
    && Waiting(s.tcb[t]) && s.tcb[t].waitObj == Some(h)
    && !Waiting(r.tcb[t]) && r.tcb[t].state != NOEXS && r.tcb[t].ercd == E_OK
  }

  /** Only a signal or message for this queue serves one of its waiters, and it serves the first. */
  lemma ServedIs(s: State, c: Call, t: nat, h: Node)
    requires Inv(s) && Presets(s) && Allowed(s, c) && t < |s.tcb|
    ensures Served(s, c, t, h) <==> Waiting(s.tcb[t]) && s.tcb[t].waitObj == Some(h) && Ending(s, c, t) == Satisfied
  {
    hide Inv, Step, Callable, Sound, Ending, Outcome, Presets;
    if Waiting(s.tcb[t]) && s.tcb[t].waitObj == Some(h) {
      WaitOutcome(s, c, t);
      PresetIs(s, t);
      OutcomeServed(s, c, t, Step(s, c).0.tcb[t]);
    }
  }

  lemma PresetIs(s: State, t: nat)
    requires Presets(s) && Inv(s) && t < |s.tcb|
    ensures Waiting(s.tcb[t]) && s.tcb[t].waitObj.Some? ==> s.tcb[t].ercd == E_TMOUT
  {
    Facts(s, t);
  }

  // ---- semaphores ----

  /** Task `t` obtains a resource of semaphore `i`: at once, or handed over while it waits. */
  ghost predicate Obtains(s: State, c: Call, t: nat, i: nat)
    requires Inv(s) && Allowed(s, c)
  {
    (c.CWaiSem? && c.id == i + 1 && t == s.run && Step(s, c).1 == E_OK) || Served(s, c, t, SemQ(i))
  }

  ghost function Winners(s: State, c: Call, i: nat): set<nat>
    requires Inv(s) && Allowed(s, c)
  {
    set t: nat | t < |s.tcb| && Obtains(s, c, t, i)
  }

  ghost function Signals(s: State, c: Call, i: nat): nat
    requires Inv(s) && Allowed(s, c)
  {
    if c.CSigSem? && c.id == i + 1 && Step(s, c).1 == E_OK then 1 else 0
  }

  lemma SemServed(s: State, c: Call, t: nat, i: nat)
    requires Inv(s) && Presets(s) && Allowed(s, c) && t < |s.tcb|
    ensures Served(s, c, t, SemQ(i)) <==> c.CSigSem? && c.id == i + 1 && SemLive(s, c.id) && FirstTask(s, SemQ(i)) == t
  {
    hide Inv, Step, Callable, Sound, Deletes, Presets, Served, FirstTask, WokenBy;
    ServedIs(s, c, t, SemQ(i));
    if Waiting(s.tcb[t]) && Satisfies(s, c, t, s.tcb[t]) { OwnObject(s, c, t); }
    if c.CSigSem? && SemLive(s, c.id) && FirstTask(s, SemQ(i)) == t { QueueHead(s, SemQ(i)); }
  }

  lemma QueueHead(s: State, h: Node)
    requires Inv(s) && IsWaitQ(h)
    ensures var t := FirstTask(s, h);
      t != NULL ==> IsTask(s, t) && Waiting(s.tcb[t]) && s.tcb[t].waitObj == Some(h)
  {
    FirstTaskIs(s, h);
  }

  /** One step: resources handed out and resources left come from those that were there and
      those signalled; at most one task gets one. */
  lemma SemConserved(s: State, c: Call, i: nat)
    requires Inv(s) && Presets(s) && Allowed(s, c) && i < |s.o.sem| && s.o.sem[i].live
    requires i < |Step(s, c).0.o.sem| && Step(s, c).0.o.sem[i].live
    ensures Step(s, c).0.o.sem[i].cnt + |Winners(s, c, i)| == s.o.sem[i].cnt + Signals(s, c, i)
    ensures Step(s, c).0.o.sem[i].max == s.o.sem[i].max
  {
    hide Inv, Step, Callable, Sound, Served, FirstTask, ObjsAfter;
    forall t: nat | t < |s.tcb|
      ensures Served(s, c, t, SemQ(i)) <==>
        c.CSigSem? && c.id == i + 1 && SemLive(s, c.id) && FirstTask(s, SemQ(i)) == t
    {
      SemServed(s, c, t, i);
    }
    StepOnAll(s, c);
    if c.CSigSem? && c.id == i + 1 {
      SignalCounts(s, c, i);
    } else if c.CWaiSem? && c.id == i + 1 {
      WaitCounts(s, c, i);
    } else {
      OtherCounts(s, c, i);
      assert Winners(s, c, i) == {};
    }
  }

  lemma SignalCounts(s: State, c: Call, i: nat)
    requires Inv(s) && Allowed(s, c) && c.CSigSem? && c.id == i + 1 && i < |s.o.sem| && s.o.sem[i].live
    requires forall t: nat :: t < |s.tcb| ==> (Served(s, c, t, SemQ(i)) <==> FirstTask(s, SemQ(i)) == t)
    ensures |ObjsAfter(s, c).sem| == |s.o.sem|
    ensures ObjsAfter(s, c).sem[i].cnt + |Winners(s, c, i)| == s.o.sem[i].cnt + Signals(s, c, i)
    ensures ObjsAfter(s, c).sem[i].max == s.o.sem[i].max
  {
    hide Inv, Served, FirstTask, ReleaseWith;
    QueueHead(s, SemQ(i));
    var t := FirstTask(s, SemQ(i));
    if t != NULL {
      assert Winners(s, c, i) == {t};
    } else {
      assert Winners(s, c, i) == {};
    }
  }

  lemma WaitCounts(s: State, c: Call, i: nat)
    requires Inv(s) && Allowed(s, c) && c.CWaiSem? && c.id == i + 1 && i < |s.o.sem| && s.o.sem[i].live
    requires forall t: nat :: t < |s.tcb| ==> !Served(s, c, t, SemQ(i))
    ensures |ObjsAfter(s, c).sem| == |s.o.sem|
    ensures ObjsAfter(s, c).sem[i].cnt + |Winners(s, c, i)| == s.o.sem[i].cnt + Signals(s, c, i)
    ensures ObjsAfter(s, c).sem[i].max == s.o.sem[i].max
  {
    hide Inv, Served, ObjMakeWait;
    if 0 < s.o.sem[i].cnt {
      assert Winners(s, c, i) == {s.run};
    } else {
      assert Winners(s, c, i) == {};
    }
  }

  lemma OtherCounts(s: State, c: Call, i: nat)
    requires i < |s.o.sem| && s.o.sem[i].live && !(c.CSigSem? && c.id == i + 1) && !(c.CWaiSem? && c.id == i + 1)
    requires i < |ObjsAfter(s, c).sem| && ObjsAfter(s, c).sem[i].live
    ensures ObjsAfter(s, c).sem[i].cnt == s.o.sem[i].cnt && ObjsAfter(s, c).sem[i].max == s.o.sem[i].max
  {
    hide FirstTask, WokenBy, FlagCond, TaClr, TaMpri, BitsSet, BitsKept, MsgRefused;
  }

  /** Semaphore `i` exists throughout the run. */
  ghost predicate SemLivesOn(s: State, cs: seq<Call>, i: nat)
    requires Inv(s) && Legal(s, cs)
    decreases |cs|
  {
    && i < |s.o.sem| && s.o.sem[i].live
    && (cs != [] ==> (StepInv(s, cs[0]); SemLivesOn(Step(s, cs[0]).0, cs[1..], i)))
  }

  ghost function AllSignals(s: State, cs: seq<Call>, i: nat): nat
    requires Inv(s) && Legal(s, cs)
    decreases |cs|
  {
    if cs == [] then 0 else
      StepInv(s, cs[0]);
      Signals(s, cs[0], i) + AllSignals(Step(s, cs[0]).0, cs[1..], i)
  }

  ghost function AllGrants(s: State, cs: seq<Call>, i: nat): nat
    requires Inv(s) && Legal(s, cs)
    decreases |cs|
  {
    if cs == [] then 0 else
      StepInv(s, cs[0]);
      |Winners(s, cs[0], i)| + AllGrants(Step(s, cs[0]).0, cs[1..], i)
  }

  /** Over every run, with whatever timeouts, suspensions and deletions of tasks: what has been
      obtained and what is left is what was there plus what has been signalled. */
  lemma {:induction false} SemRunConserved(s: State, cs: seq<Call>, i: nat)
    requires Inv(s) && Presets(s) && Legal(s, cs) && SemLivesOn(s, cs, i)
    ensures var r := Run(s, cs);
      && i < |r.o.sem| && r.o.sem[i].live && r.o.sem[i].max == s.o.sem[i].max && 0 <= r.o.sem[i].cnt <= r.o.sem[i].max
      && r.o.sem[i].cnt + AllGrants(s, cs, i) == s.o.sem[i].cnt + AllSignals(s, cs, i)
    decreases |cs|
  {
    hide Inv, Step, Callable, Sound, Presets, Signals, Winners;
    SemBounds(s, i);
    if cs != [] {
      StepInv(s, cs[0]);
      PresetsKept(s, cs[0]);
      SemConserved(s, cs[0], i);
      SemRunConserved(Step(s, cs[0]).0, cs[1..], i);
    }
  }

  lemma SemBounds(s: State, i: nat)
    requires Inv(s) && i < |s.o.sem| && s.o.sem[i].live
    ensures 0 <= s.o.sem[i].cnt <= s.o.sem[i].max && (At(s.q, SemQ(i)) != [] ==> s.o.sem[i].cnt == 0)
  {
    assert SemOk(At(s.q, SemQ(i)), s.o.sem[i]);
  }

  lemma NewSem(s: State, c: Call)
    requires Inv(s) && Allowed(s, c) && c.CCreSem? && Step(s, c).1 == E_OK
    ensures 1 <= c.id <= |Step(s, c).0.o.sem|
    ensures Step(s, c).0.o.sem[c.id - 1] == Sem(true, c.atr, c.isemcnt, c.maxsem)
  {
    hide Inv, Remove, Init;
  }

  /** From creation on: the initial count plus the signals is the count plus the grants, so no
      more is ever obtained than was provided. */
  lemma SemLifetime(s: State, c: Call, r: State, cs: seq<Call>)
    requires Inv(s) && Presets(s) && Allowed(s, c) && c.CCreSem? && Step(s, c).1 == E_OK
    requires r == Step(s, c).0 && Inv(r) && Legal(r, cs) && c.id >= 1 && SemLivesOn(r, cs, c.id - 1)
    ensures var w := Run(r, cs);
      && 1 <= c.id <= |w.o.sem| && 0 <= w.o.sem[c.id - 1].cnt <= c.maxsem
      && c.isemcnt + AllSignals(r, cs, c.id - 1) == w.o.sem[c.id - 1].cnt + AllGrants(r, cs, c.id - 1)
  {
    hide Inv, Callable, Sound, Presets, Step, SemLivesOn;
    PresetsKept(s, c);
    NewSem(s, c);
    SemRunConserved(r, cs, c.id - 1);
  }

  // ---- mailboxes: what goes in and what comes out ----

  /** The message a successful `snd_mbx` to mailbox `j` hands in. */
  ghost function Sent(s: State, c: Call, j: nat): seq<Msg>
    requires Inv(s) && Allowed(s, c)
  {
    if c.CSndMbx? && c.id == j + 1 && Step(s, c).1 == E_OK then [c.msg] else []
  }

  function Held(x: Tcb): seq<Msg> {
    if x.msgOut.Some? then [x.msgOut.value] else []
  }

  /** The message somebody gets from mailbox `j`: the caller of `rcv_mbx`, or a task whose wait
      for a message ends well. */
  ghost function Delivered(s: State, c: Call, j: nat): seq<Msg>
    requires Inv(s) && Allowed(s, c)
  {
    var r := Step(s, c).0;
    if c.CRcvMbx? && c.id == j + 1 && Step(s, c).1 == E_OK && 0 <= s.run < |r.tcb| then Held(r.tcb[s.run])
    else if exists t: nat :: Served(s, c, t, MbxQ(j)) then
      var t: nat :| Served(s, c, t, MbxQ(j));
      Held(r.tcb[t])
    else []
  }

  lemma MbxServed(s: State, c: Call, t: nat, j: nat)
    requires Inv(s) && Presets(s) && Allowed(s, c)
    ensures Served(s, c, t, MbxQ(j)) <==>
      c.CSndMbx? && c.id == j + 1 && MbxLive(s, c.id) && !MsgRefused(s, c.id, c.msg) && FirstTask(s, MbxQ(j)) == t
  {
    hide Inv, Step, Callable, Sound, Deletes, Presets, Served, FirstTask, WokenBy, MsgRefused;
    if t < |s.tcb| {
      ServedIs(s, c, t, MbxQ(j));
      if Waiting(s.tcb[t]) && Satisfies(s, c, t, s.tcb[t]) { OwnObject(s, c, t); }
    } else {
      NotServed(s, c, t, MbxQ(j));
    }
    QueueHead(s, MbxQ(j));
  }

  lemma NotServed(s: State, c: Call, t: nat, h: Node)
    requires Inv(s) && Allowed(s, c) && t >= |s.tcb|
    ensures !Served(s, c, t, h)
  {
  }

  /** The message list after a send that nobody was waiting for. */
  function Queued(b: Mbx, m: Msg): seq<Msg> {
    if TaMpri(b.atr) then InsertMsg(b.msgs, m) else b.msgs + [m]
  }

  /** Mailbox `j` at one step, whatever its attributes: what is sent is either queued or handed
      straight to the first waiter, and what is received is the head of the list. */
  ghost predicate MailMoves(b: Mbx, b': Mbx, sent: seq<Msg>, delivered: seq<Msg>) {
    || (sent == [] && delivered == [] && b'.msgs == b.msgs)
    || (|sent| == 1 && delivered == [] && b'.msgs == Queued(b, sent[0]))
    || (|sent| == 1 && delivered == sent && b.msgs == [] && b'.msgs == [])
    || (sent == [] && b.msgs != [] && delivered == [b.msgs[0]] && b'.msgs == b.msgs[1..])
  }

  lemma MailStep(s: State, c: Call, j: nat)
    requires Inv(s) && Presets(s) && Allowed(s, c) && j < |s.o.mbx| && s.o.mbx[j].live
    requires j < |Step(s, c).0.o.mbx| && Step(s, c).0.o.mbx[j].live
    ensures Step(s, c).0.o.mbx[j].atr == s.o.mbx[j].atr
    ensures MailMoves(s.o.mbx[j], Step(s, c).0.o.mbx[j], Sent(s, c, j), Delivered(s, c, j))
  {
    hide Inv, Step, Callable, Sound, Served, FirstTask, ObjsAfter, TaMpri, MsgRefused, Queued;
    forall t: nat
      ensures Served(s, c, t, MbxQ(j)) <==>
        c.CSndMbx? && c.id == j + 1 && MbxLive(s, c.id) && !MsgRefused(s, c.id, c.msg) && FirstTask(s, MbxQ(j)) == t
    {
      MbxServed(s, c, t, j);
    }
    StepOnAll(s, c);
    if c.CSndMbx? && c.id == j + 1 {
      SendMoves(s, c, j);
    } else if c.CRcvMbx? && c.id == j + 1 {
      ReceiveMoves(s, c, j);
    } else {
      OtherMail(s, c, j);
    }
  }

  lemma SendResult(s: State, c: Call, j: nat)
    requires Inv(s) && Allowed(s, c) && c.CSndMbx? && c.id == j + 1 && j < |s.o.mbx| && s.o.mbx[j].live
    ensures Step(s, c).1 == if MsgRefused(s, c.id, c.msg) then E_PAR else E_OK
  {
    hide Inv, FirstTask, ReleaseWith, TaMpri, InsertMsg;
  }

  lemma SendMoves(s: State, c: Call, j: nat)
    requires Inv(s) && Allowed(s, c) && c.CSndMbx? && c.id == j + 1 && j < |s.o.mbx| && s.o.mbx[j].live
    requires forall t: nat :: Served(s, c, t, MbxQ(j)) <==> !MsgRefused(s, c.id, c.msg) && FirstTask(s, MbxQ(j)) == t
    ensures |ObjsAfter(s, c).mbx| == |s.o.mbx| && ObjsAfter(s, c).mbx[j].atr == s.o.mbx[j].atr
    ensures MailMoves(s.o.mbx[j], ObjsAfter(s, c).mbx[j], Sent(s, c, j), Delivered(s, c, j))
  {
    hide Inv, Served, FirstTask, Step, Callable, Sound, InsertMsg, MsgRefused;
    SendResult(s, c, j);
    QueueHead(s, MbxQ(j));
    var t := FirstTask(s, MbxQ(j));
    if t != NULL && !MsgRefused(s, c.id, c.msg) {
      NobodyAndNothing(s, j);
      StepOn(s, c, t);
      assert Served(s, c, t, MbxQ(j));
    }
  }

  lemma NobodyAndNothing(s: State, j: nat)
    requires Inv(s) && j < |s.o.mbx|
    ensures FirstTask(s, MbxQ(j)) != NULL ==> s.o.mbx[j].msgs == []
    ensures At(s.q, MbxQ(j)) != [] ==> s.o.mbx[j].live && s.o.mbx[j].msgs == []
  {
    assert MbxOk(At(s.q, MbxQ(j)), s.o.mbx[j]);
  }

  lemma ReceiveMoves(s: State, c: Call, j: nat)
    requires Inv(s) && Allowed(s, c) && c.CRcvMbx? && c.id == j + 1 && j < |s.o.mbx| && s.o.mbx[j].live
    requires forall t: nat :: !Served(s, c, t, MbxQ(j))
    ensures |ObjsAfter(s, c).mbx| == |s.o.mbx| && ObjsAfter(s, c).mbx[j].atr == s.o.mbx[j].atr
    ensures MailMoves(s.o.mbx[j], ObjsAfter(s, c).mbx[j], Sent(s, c, j), Delivered(s, c, j))
  {
    hide Inv, Served, Step, Sound, Queued;
    ReceiveResult(s, c, j);
    StepOn(s, c, s.run);
  }

  lemma ReceiveResult(s: State, c: Call, j: nat)
    requires Inv(s) && Allowed(s, c) && c.CRcvMbx? && c.id == j + 1 && j < |s.o.mbx| && s.o.mbx[j].live
    ensures Step(s, c).1 == if c.tmo < TMO_FEVR then E_PAR else if s.o.mbx[j].msgs != [] then E_OK else E_TMOUT
  {
    hide Inv, ObjMakeWait;
  }

  lemma OtherMail(s: State, c: Call, j: nat)
    requires j < |s.o.mbx| && s.o.mbx[j].live && !(c.CSndMbx? && c.id == j + 1) && !(c.CRcvMbx? && c.id == j + 1)
    requires j < |ObjsAfter(s, c).mbx| && ObjsAfter(s, c).mbx[j].live
    ensures ObjsAfter(s, c).mbx[j] == s.o.mbx[j]
  {
    hide FirstTask, WokenBy, FlagCond, TaClr, TaMpri, BitsSet, BitsKept, MsgRefused;
  }

  // ---- FIFO mailboxes ----

  /** Mailbox `j` exists throughout the run. */
  ghost predicate MbxLivesOn(s: State, cs: seq<Call>, j: nat)
    requires Inv(s) && Legal(s, cs)
    decreases |cs|
  {
    && j < |s.o.mbx| && s.o.mbx[j].live
    && (cs != [] ==> (StepInv(s, cs[0]); MbxLivesOn(Step(s, cs[0]).0, cs[1..], j)))
  }

  ghost function AllSent(s: State, cs: seq<Call>, j: nat): seq<Msg>
    requires Inv(s) && Legal(s, cs)
    decreases |cs|
  {
    if cs == [] then [] else
      StepInv(s, cs[0]);
      Sent(s, cs[0], j) + AllSent(Step(s, cs[0]).0, cs[1..], j)
  }

  ghost function AllDelivered(s: State, cs: seq<Call>, j: nat): seq<Msg>
    requires Inv(s) && Legal(s, cs)
    decreases |cs|
  {
    if cs == [] then [] else
      StepInv(s, cs[0]);
      Delivered(s, cs[0], j) + AllDelivered(Step(s, cs[0]).0, cs[1..], j)
  }

  lemma FifoMoves(b: Mbx, b': Mbx, sent: seq<Msg>, delivered: seq<Msg>)
    requires MailMoves(b, b', sent, delivered) && !TaMpri(b.atr)
    ensures delivered + b'.msgs == b.msgs + sent
  {
    hide TaMpri, InsertMsg;
  }

  /** End to end, over every run: the messages delivered, by hand-over or from the list, followed
      by those still in the list, are the ones that were there followed by the ones sent. */
  lemma {:induction false} FifoRun(s: State, cs: seq<Call>, j: nat)
    requires Inv(s) && Presets(s) && Legal(s, cs) && MbxLivesOn(s, cs, j) && !TaMpri(s.o.mbx[j].atr)
    ensures var r := Run(s, cs);
      && j < |r.o.mbx| && r.o.mbx[j].live && r.o.mbx[j].atr == s.o.mbx[j].atr
      && AllDelivered(s, cs, j) + r.o.mbx[j].msgs == s.o.mbx[j].msgs + AllSent(s, cs, j)
    decreases |cs|
  {
    hide Inv, Step, Callable, Sound, Presets, Sent, Delivered, TaMpri, MailMoves;
    if cs != [] {
      var c := cs[0];
      StepInv(s, c);
      PresetsKept(s, c);
      MailStep(s, c, j);
      var s1 := Step(s, c).0;
      FifoMoves(s.o.mbx[j], s1.o.mbx[j], Sent(s, c, j), Delivered(s, c, j));
      FifoRun(s1, cs[1..], j);
      var r := Run(s1, cs[1..]);
      calc {
        (Delivered(s, c, j) + AllDelivered(s1, cs[1..], j)) + r.o.mbx[j].msgs;
        Delivered(s, c, j) + (AllDelivered(s1, cs[1..], j) + r.o.mbx[j].msgs);
        (Delivered(s, c, j) + s1.o.mbx[j].msgs) + AllSent(s1, cs[1..], j);
        s.o.mbx[j].msgs + (Sent(s, c, j) + AllSent(s1, cs[1..], j));
      }
    }
  }

  /** TA_MFIFO is defined as 0x02 and TA_TPRI as 0x01, and both meet the test for TA_MPRI: among
      the attributes `cre_mbx` accepts, only 0 gives a FIFO mailbox. */
  lemma OnlyZeroIsFifo(atr: bv16)
    requires atr & 0x03 == atr
    ensures !TaMpri(atr) <==> atr == 0
  {
  }

  /** Two messages sent in a row to an empty mailbox: they stay in that order exactly if the
      mailbox is FIFO or their priorities happen to agree with it. */
  lemma FifoExact(b: Mbx, m1: Msg, m2: Msg)
    requires b.msgs == []
    ensures Queued(b.(msgs := Queued(b, m1)), m2) == [m1, m2] <==> !TaMpri(b.atr) || m1.pri <= m2.pri
  {
    hide TaMpri;
    assert [] + [m1] == [m1] == InsertMsg([], m1);
    assert InsertMsg([], m2) == [m2];
    assert InsertMsg([m1], m2) == if m1.pri > m2.pri then [m2, m1] else [m1, m2];
    assert [m2, m1][0] == m2;
  }

  // ---- priority mailboxes ----

  /** What the list holds when messages `p` have been sent in this order and none taken. */
  function SortIn(p: seq<Msg>): seq<Msg> {
    if p == [] then [] else InsertMsg(SortIn(p[..|p| - 1]), p[|p| - 1])
  }

  /** Messages of one priority, in their order. */
  function OfPri(p: seq<Msg>, pri: int): seq<Msg> {
    if p == [] then [] else (if p[0].pri == pri then [p[0]] else []) + OfPri(p[1..], pri)
  }

  predicate PriSorted(p: seq<Msg>) {
    forall i, j :: 0 <= i < j < |p| ==> p[i].pri <= p[j].pri
  }

  lemma {:induction false} InsertAdds(ms: seq<Msg>, m: Msg)
    ensures multiset(InsertMsg(ms, m)) == multiset(ms) + multiset{m}
  {
    if ms != [] && ms[0].pri <= m.pri {
      InsertAdds(ms[1..], m);
      assert ms == [ms[0]] + ms[1..];
    } else {
      assert multiset([m] + ms) == multiset{m} + multiset(ms);
    }
  }

  lemma {:induction false} InsertSorts(ms: seq<Msg>, m: Msg)
    requires PriSorted(ms)
    ensures PriSorted(InsertMsg(ms, m)) && forall x :: x in InsertMsg(ms, m) ==> x == m || x in ms
  {
    if ms != [] && ms[0].pri <= m.pri {
      InsertSorts(ms[1..], m);
      SortedCons(ms[0], InsertMsg(ms[1..], m));
    }
  }

  lemma SortedCons(x: Msg, rs: seq<Msg>)
    requires PriSorted(rs) && forall r :: r in rs ==> x.pri <= r.pri
    ensures PriSorted([x] + rs)
  {
  }

  lemma {:induction false} OfPriConcat(p: seq<Msg>, r: seq<Msg>, pri: int)
    ensures OfPri(p + r, pri) == OfPri(p, pri) + OfPri(r, pri)
  {
    if p == [] {
      assert p + r == r;
    } else {
      var a := if p[0].pri == pri then [p[0]] else [];
      assert (p + r)[0] == p[0] && (p + r)[1..] == p[1..] + r;
      OfPriConcat(p[1..], r, pri);
      assert a + (OfPri(p[1..], pri) + OfPri(r, pri)) == (a + OfPri(p[1..], pri)) + OfPri(r, pri);
    }
  }

  lemma {:induction false} OfPriAbove(p: seq<Msg>, pri: int)
    requires forall m :: m in p ==> m.pri > pri
    ensures OfPri(p, pri) == []
  {
    if p != [] { OfPriAbove(p[1..], pri); }
  }

  lemma {:induction false} InsertStable(ms: seq<Msg>, m: Msg, pri: int)
    requires PriSorted(ms)
    ensures OfPri(InsertMsg(ms, m), pri) == OfPri(ms, pri) + OfPri([m], pri)
  {
    if ms != [] && ms[0].pri <= m.pri {
      InsertStable(ms[1..], m, pri);
      OfPriConcat([ms[0]], InsertMsg(ms[1..], m), pri);
    } else {
      OfPriConcat([m], ms, pri);
      if m.pri == pri { OfPriAbove(ms, pri); }
    }
  }

  /** The list is a stable sort of the messages by priority: sorted, nothing lost or doubled, and
      messages of equal priority in the order they were sent. */
  lemma {:induction false} StableSort(p: seq<Msg>, pri: int)
    ensures PriSorted(SortIn(p)) && multiset(SortIn(p)) == multiset(p) && OfPri(SortIn(p), pri) == OfPri(p, pri)
  {
    if p != [] {
      var q, m := p[..|p| - 1], p[|p| - 1];
      assert p == q + [m];
      StableSort(q, pri);
      InsertSorts(SortIn(q), m);
      InsertAdds(SortIn(q), m);
      InsertStable(SortIn(q), m, pri);
      OfPriConcat(q, [m], pri);
    }
  }

  /** The earliest of the messages with the lowest priority number. */
  function Best(p: seq<Msg>): (k: nat)
    requires p != []
    ensures k < |p|
    ensures forall i :: 0 <= i < |p| ==> p[k].pri <= p[i].pri
    ensures forall i :: 0 <= i < k ==> p[k].pri < p[i].pri
  {
    if |p| == 1 then 0
    else
      var q := p[..|p| - 1];
      var k := Best(q);
      if p[|p| - 1].pri < q[k].pri then |p| - 1 else k
  }

  function Dropped(p: seq<Msg>, k: nat): seq<Msg>
    requires k < |p|
  {
    p[..k] + p[k + 1..]
  }

  lemma SortInAdd(p: seq<Msg>, m: Msg)
    ensures SortIn(p + [m]) == InsertMsg(SortIn(p), m)
  {
    assert (p + [m])[..|p|] == p;
  }

  lemma DroppedAdd(q: seq<Msg>, m: Msg, k: nat)
    requires k < |q|
    ensures Dropped(q + [m], k) == Dropped(q, k) + [m] && Dropped(q + [m], |q|) == q
  {
  }

  lemma InsertBehind(x: Msg, ms: seq<Msg>, m: Msg)
    ensures InsertMsg([x] + ms, m) == if x.pri > m.pri then [m] + ([x] + ms) else [x] + InsertMsg(ms, m)
  {
    assert ([x] + ms)[1..] == ms;
  }

  lemma BestAdd(q: seq<Msg>, m: Msg)
    requires q != []
    ensures Best(q + [m]) == if m.pri < q[Best(q)].pri then |q| else Best(q)
  {
    assert (q + [m])[..|q|] == q;
  }

  /** The head of the list is that message, and taking it leaves the list for the others. */
  lemma {:induction false} HeadIsBest(p: seq<Msg>)
    requires p != []
    ensures SortIn(p) == [p[Best(p)]] + SortIn(Dropped(p, Best(p)))
    decreases |p|
  {
    hide SortIn, InsertMsg, Dropped;
    var q, m := p[..|p| - 1], p[|p| - 1];
    assert p == q + [m];
    SortInAdd(q, m);
    if q == [] {
      OneSorts(p);
    } else {
      HeadIsBest(q);
      var k := Best(q);
      BestAdd(q, m);
      hide Best;
      DroppedAdd(q, m, k);
      SortInAdd(Dropped(q, k), m);
      InsertBehind(q[k], SortIn(Dropped(q, k)), m);
    }
  }

  lemma OneSorts(p: seq<Msg>)
    requires |p| == 1
    ensures SortIn(p) == [p[0]] + SortIn(Dropped(p, 0)) && Best(p) == 0
  {
    assert p[..0] == [] && Dropped(p, 0) == [];
  }

  /** Reference for a priority mailbox: messages kept in the order sent, the best one taken. */
  function Take(p: seq<Msg>): (seq<Msg>, seq<Msg>) {
    if p == [] then ([], []) else ([p[Best(p)]], Dropped(p, Best(p)))
  }

  /** What a run leaves of, and takes from, messages `p` and the ones sent meanwhile. */
  ghost function Reference(s: State, cs: seq<Call>, j: nat, p: seq<Msg>): (seq<Msg>, seq<Msg>)
    requires Inv(s) && Legal(s, cs)
    decreases |cs|
  {
    if cs == [] then ([], p) else
      StepInv(s, cs[0]);
      var p1 := p + Sent(s, cs[0], j);
      var (got, p2) := if Delivered(s, cs[0], j) != [] then Take(p1) else ([], p1);
      var (gots, left) := Reference(Step(s, cs[0]).0, cs[1..], j, p2);
      (got + gots, left)
  }

  lemma PriMoves(b: Mbx, b': Mbx, sent: seq<Msg>, delivered: seq<Msg>, p: seq<Msg>)
    requires MailMoves(b, b', sent, delivered) && TaMpri(b.atr) && b.msgs == SortIn(p)
    ensures var p1 := p + sent;
      if delivered == [] then b'.msgs == SortIn(p1) else p1 != [] && delivered == Take(p1).0 && b'.msgs == SortIn(Take(p1).1)
  {
    hide TaMpri, InsertMsg;
    SortInEmpty(p);
    if |sent| == 1 {
      assert (p + sent)[..|p|] == p && p + sent == p + [sent[0]];
    } else {
      assert p + sent == p;
    }
    if delivered != [] {
      if p == [] {
        assert p + sent == sent && Dropped(sent, 0) == [];
      } else {
        HeadIsBest(p);
      }
    }
  }

  lemma SortInEmpty(p: seq<Msg>)
    ensures SortIn(p) == [] <==> p == []
  {
    StableSort(p, 0);
    if p != [] { assert p[0] in multiset(SortIn(p)); }
  }

  /** Over every run the list of a priority mailbox stays the stable sort of the messages not yet
      delivered, and each delivery is the earliest sent of those with the best priority. */
  lemma {:induction false} PriorityRun(s: State, cs: seq<Call>, j: nat, p: seq<Msg>)
    requires Inv(s) && Presets(s) && Legal(s, cs) && MbxLivesOn(s, cs, j) && TaMpri(s.o.mbx[j].atr)
    requires s.o.mbx[j].msgs == SortIn(p)
    ensures var r := Run(s, cs); var (got, left) := Reference(s, cs, j, p);
      j < |r.o.mbx| && AllDelivered(s, cs, j) == got && r.o.mbx[j].msgs == SortIn(left)
    decreases |cs|
  {
    hide Inv, Step, Callable, Sound, Presets, Sent, Delivered, TaMpri, MailMoves, SortIn, Take;
    if cs != [] {
      var c := cs[0];
      StepInv(s, c);
      PresetsKept(s, c);
      MailStep(s, c, j);
      var s1 := Step(s, c).0;
      PriMoves(s.o.mbx[j], s1.o.mbx[j], Sent(s, c, j), Delivered(s, c, j), p);
      var p1 := p + Sent(s, c, j);
      PriorityRun(s1, cs[1..], j, if Delivered(s, c, j) != [] then Take(p1).1 else p1);
    }
  }
}
