/** Counting over the life of a task: activations, wakeups and suspensions are neither lost
    nor invented. */
module KernelCounts {
  import opened KQueue
  import opened ReadyQueue
  import opened KernelState
  import opened KernelInv
  import opened KernelCalls
  import opened KernelRuns
  import opened KernelEffects
  import opened KernelSafety
  import opened KernelWaits

  function One(b: bool): nat { if b then 1 else 0 }

  // ---- activations ----

  ghost predicate Activated(s: State, c: Call, t: nat)
    requires Inv(s) && Allowed(s, c)
  {
    c.CActTsk? && Targets(s, c.id, t) && Step(s, c).1 == E_OK
  }

  /** Task `t` begins to execute from its entry point: made ready while dormant, or started anew
      when it exits with an activation queued. */
  predicate Starts(c: Call, s: State, t: nat, x: Tcb, y: Tcb) {
    (x.state == DMT && y.state == RDY) || (c.CExtTsk? && t == s.run && y.state == RDY)
  }

  predicate Exists(x: Tcb) { x.state != NOEXS }

  lemma ActResult(s: State, c: Call, t: nat)
    requires Inv(s) && Allowed(s, c) && t < |s.tcb|
    ensures Activated(s, c, t) <==>
      c.CActTsk? && Targets(s, c.id, t) && Exists(s.tcb[t]) && (s.tcb[t].state == DMT || s.tcb[t].actcnt < TMAX_ACTCNT)
  {
    hide Inv, MakeReady;
  }

  /** The other calls leave the counters alone, but for a caller that exits or sleeps. */
  lemma OthersKeep(s: State, c: Call, t: nat)
    requires TaskFacts(s, t) && !TakesTask(c) && Exists(s.tcb[t]) && Exists(After(s, c, t))
    ensures var x, y := s.tcb[t], After(s, c, t);
      if c.CExtTsk? && t == s.run then y == AfterExit(x)
      else if c.CSlpTsk? && t == s.run then y == AfterSleep(x, c.tmo)
      else y.actcnt == x.actcnt && y.wupcnt == x.wupcnt && y.suscnt == x.suscnt && !(x.state == DMT && y.state == RDY)
  {
    hide WokenBy, FirstTask, At, MsgRefused, U32, ToTmo, TcbOk, BitsSet, FlagCond, AfterExit, AfterSleep;
    TickKeeps(s.tcb[t]);
    hide Ticked;
  }

  lemma TickKeeps(x: Tcb)
    ensures var y := Ticked(x);
      && y.actcnt == x.actcnt && y.wupcnt == x.wupcnt && y.suscnt == x.suscnt
      && (y.state == x.state || y.state == SUS || x.state == WAI)
    ensures x.state == DMT ==> Ticked(x).state != RDY
  {
  }

  lemma StartsByAct(s: State, c: Call, t: nat)
    requires TaskFacts(s, t) && Exists(s.tcb[t]) && Exists(After(s, c, t))
    ensures var x, y := s.tcb[t], After(s, c, t);
      if c.CActTsk? && Targets(s, c.id, t) then y == AfterActivate(x)
      else if c.CExtTsk? && t == s.run then y == AfterExit(x)
      else y.actcnt == x.actcnt && !Starts(c, s, t, x, y)
  {
    hide After, Targets, U32;
    if TakesTask(c) { TargetAfter(s, c, t); } else { OthersKeep(s, c, t); }
  }

  /** One step: accepted activations are either a start or queued. */
  lemma ActStep(s: State, c: Call, t: nat)
    requires Inv(s) && Allowed(s, c) && t < |s.tcb| == |Step(s, c).0.tcb|
    requires Exists(s.tcb[t]) && Exists(Step(s, c).0.tcb[t])
    ensures var x, y := s.tcb[t], Step(s, c).0.tcb[t];
      One(Starts(c, s, t, x, y)) + y.actcnt == x.actcnt + One(Activated(s, c, t))
  {
    hide Inv, Step, Callable, Sound, After, Activated;
    StepOn(s, c, t);
    ActResult(s, c, t);
    StartsByAct(s, c, t);
  }

  /** Task `t` exists throughout the run. */
  ghost predicate ExistsOn(s: State, cs: seq<Call>, t: nat)
    requires Inv(s) && Legal(s, cs)
    decreases |cs|
  {
    && t < |s.tcb| && Exists(s.tcb[t])
    && (cs != [] ==> (StepInv(s, cs[0]); ExistsOn(Step(s, cs[0]).0, cs[1..], t)))
  }

  ghost function AllActivated(s: State, cs: seq<Call>, t: nat): nat
    requires Inv(s) && Legal(s, cs)
    decreases |cs|
  {
    if cs == [] then 0 else
      StepInv(s, cs[0]);
      One(Activated(s, cs[0], t)) + AllActivated(Step(s, cs[0]).0, cs[1..], t)
  }

  ghost predicate Begun(s: State, c: Call, t: nat)
    requires Inv(s) && Allowed(s, c)
  {
    var r := Step(s, c).0;
    t < |s.tcb| == |r.tcb| && Starts(c, s, t, s.tcb[t], r.tcb[t])
  }

  ghost function AllStarts(s: State, cs: seq<Call>, t: nat): nat
    requires Inv(s) && Legal(s, cs)
    decreases |cs|
  {
    if cs == [] then 0 else
      StepInv(s, cs[0]);
      One(Begun(s, cs[0], t)) + AllStarts(Step(s, cs[0]).0, cs[1..], t)
  }

  lemma ActBounds(s: State, t: nat)
    requires Inv(s) && t < |s.tcb| && Exists(s.tcb[t])
    ensures 0 <= s.tcb[t].actcnt <= TMAX_ACTCNT && (s.tcb[t].state == DMT ==> s.tcb[t].actcnt == 0)
  {
    Facts(s, t);
  }

  lemma SameCount(s: State, c: Call)
    requires Inv(s) && Allowed(s, c)
    ensures |Step(s, c).0.tcb| == |s.tcb|
  {
    hide Inv, Step, Callable, Sound;
    StepOnAll(s, c);
  }

  /** Over every run in which the task is not deleted: starts plus queued activations are the
      activations accepted plus those queued before. A dormant task has none queued. */
  lemma {:induction false} ActivationsCount(s: State, cs: seq<Call>, t: nat)
    requires Inv(s) && Legal(s, cs) && ExistsOn(s, cs, t)
    ensures var r := Run(s, cs);
      && t < |r.tcb| && AllStarts(s, cs, t) + r.tcb[t].actcnt == s.tcb[t].actcnt + AllActivated(s, cs, t)
      && 0 <= r.tcb[t].actcnt <= TMAX_ACTCNT && (r.tcb[t].state == DMT ==> r.tcb[t].actcnt == 0)
    decreases |cs|
  {
    hide Inv, Step, Callable, Sound, Activated, Starts, Exists;
    ActBounds(s, t);
    if cs != [] {
      StepInv(s, cs[0]);
      assert ExistsOn(Step(s, cs[0]).0, cs[1..], t);
      SameCount(s, cs[0]);
      ActStep(s, cs[0], t);
      ActivationsCount(Step(s, cs[0]).0, cs[1..], t);
    }
  }

  // ---- wakeups ----

  ghost predicate WokenUp(s: State, c: Call, t: nat)
    requires Inv(s) && Allowed(s, c)
  {
    c.CWupTsk? && Targets(s, c.id, t) && Step(s, c).1 == E_OK
  }

  /** A sleep of task `t` is completed by a wakeup: at once, by one queued before, or by one that
      comes while it sleeps. */
  ghost predicate SleepDone(s: State, c: Call, t: nat)
    requires Inv(s) && Allowed(s, c)
  {
    var r := Step(s, c).0;
    || (c.CSlpTsk? && t == s.run && Step(s, c).1 == E_OK)
    || (t < |s.tcb| == |r.tcb| && Waiting(s.tcb[t]) && s.tcb[t].tskwait == TTW_SLP &&
        !Waiting(r.tcb[t]) && Exists(r.tcb[t]) && r.tcb[t].ercd == E_OK)
  }

  /** Calls that discard queued wakeups of task `t`. */
  ghost predicate Discards(s: State, c: Call, t: nat) {
    (c.CCanWup? && Targets(s, c.id, t)) || (c.CExtTsk? && t == s.run)
  }

  lemma WupResult(s: State, c: Call, t: nat)
    requires Inv(s) && Allowed(s, c) && t < |s.tcb|
    ensures var x := s.tcb[t];
      WokenUp(s, c, t) <==>
        c.CWupTsk? && Targets(s, c.id, t) && Exists(x) && x.state != DMT &&
        ((Waiting(x) && x.tskwait == TTW_SLP) || x.wupcnt < TMAX_ACTCNT)
    ensures c.CSlpTsk? ==> (Step(s, c).1 == E_OK <==> s.tcb[s.run].wupcnt > 0)
  {
    hide Inv, ReleaseWith, SelfWait;
  }

  lemma WupAfter(s: State, c: Call, t: nat)
    requires TaskFacts(s, t) && Exists(s.tcb[t]) && Exists(After(s, c, t)) && !Discards(s, c, t)
    ensures var x, y := s.tcb[t], After(s, c, t);
      if c.CWupTsk? && Targets(s, c.id, t) then y == AfterWakeup(x)
      else if c.CSlpTsk? && t == s.run then y == AfterSleep(x, c.tmo)
      else y.wupcnt == x.wupcnt
  {
    hide After, Targets, U32;
    if TakesTask(c) { TargetAfter(s, c, t); } else { OthersKeep(s, c, t); }
  }

  /** Sleeps end well exactly when a wakeup says so. */
  lemma SleepEnds(s: State, c: Call, t: nat)
    requires Inv(s) && Presets(s) && Allowed(s, c) && t < |s.tcb| == |Step(s, c).0.tcb|
    requires Waiting(s.tcb[t]) && s.tcb[t].tskwait == TTW_SLP && t != s.run
    ensures SleepDone(s, c, t) <==> c.CWupTsk? && Targets(s, c.id, t)
  {
    hide Inv, Step, Callable, Sound, Presets, Outcome, Deletes, Ending;
    WaitOutcome(s, c, t);
    if Satisfies(s, c, t, s.tcb[t]) { OwnObject(s, c, t); }
    SleepPreset(s, t);
    OutcomeServed(s, c, t, Step(s, c).0.tcb[t]);
    SleepEnding(s, c, t);
  }

  lemma SleepEnding(s: State, c: Call, t: nat)
    requires t < |s.tcb| && s.tcb[t].waitObj == None && s.tcb[t].tskwait == TTW_SLP
    requires Satisfies(s, c, t, s.tcb[t]) ==> c.CWupTsk?
    ensures Ending(s, c, t) == Satisfied <==> c.CWupTsk? && Targets(s, c.id, t)
  {
    hide Deletes;
  }

  lemma SleepPreset(s: State, t: nat)
    requires Inv(s) && Presets(s) && t < |s.tcb| && Waiting(s.tcb[t]) && s.tcb[t].tskwait == TTW_SLP
    ensures s.tcb[t].ercd == E_TMOUT && s.tcb[t].waitObj == None && s.tcb[t].wupcnt == 0
  {
    Facts(s, t);
  }

  /** One step: an accepted wakeup completes a sleep or is queued; a sleep takes a queued one. */
  lemma WupStep(s: State, c: Call, t: nat)
    requires Inv(s) && Presets(s) && Allowed(s, c) && t < |s.tcb| == |Step(s, c).0.tcb| && !Discards(s, c, t)
    requires Exists(s.tcb[t]) && Exists(Step(s, c).0.tcb[t])
    ensures var x, y := s.tcb[t], Step(s, c).0.tcb[t];
      One(SleepDone(s, c, t)) + y.wupcnt == x.wupcnt + One(WokenUp(s, c, t))
  {
    hide Inv, Step, Callable, Sound, After, WokenUp, Presets, Discards;
    StepOn(s, c, t);
    WupResult(s, c, t);
    WupAfter(s, c, t);
    if Waiting(s.tcb[t]) && s.tcb[t].tskwait == TTW_SLP {
      SleepEnds(s, c, t);
      SleepPreset(s, t);
    }
  }

  ghost predicate NoDiscards(s: State, cs: seq<Call>, t: nat)
    requires Inv(s) && Legal(s, cs)
    decreases |cs|
  {
    cs != [] ==> !Discards(s, cs[0], t) && (StepInv(s, cs[0]); NoDiscards(Step(s, cs[0]).0, cs[1..], t))
  }

  ghost function AllWokenUp(s: State, cs: seq<Call>, t: nat): nat
    requires Inv(s) && Legal(s, cs)
    decreases |cs|
  {
    if cs == [] then 0 else
      StepInv(s, cs[0]);
      One(WokenUp(s, cs[0], t)) + AllWokenUp(Step(s, cs[0]).0, cs[1..], t)
  }

  ghost function AllSleepsDone(s: State, cs: seq<Call>, t: nat): nat
    requires Inv(s) && Legal(s, cs)
    decreases |cs|
  {
    if cs == [] then 0 else
      StepInv(s, cs[0]);
      One(SleepDone(s, cs[0], t)) + AllSleepsDone(Step(s, cs[0]).0, cs[1..], t)
  }

  /** Over every run in which the task lives on and nothing discards its wakeups: completed
      sleeps plus queued wakeups are the accepted wakeups plus those queued before. */
  lemma {:induction false} WakeupsCount(s: State, cs: seq<Call>, t: nat)
    requires Inv(s) && Presets(s) && Legal(s, cs) && ExistsOn(s, cs, t) && NoDiscards(s, cs, t)
    ensures var r := Run(s, cs);
      t < |r.tcb| && AllSleepsDone(s, cs, t) + r.tcb[t].wupcnt == s.tcb[t].wupcnt + AllWokenUp(s, cs, t)
    decreases |cs|
  {
    hide Inv, Step, Callable, Sound, WokenUp, SleepDone, Presets, Discards, Exists;
    if cs != [] {
      StepInv(s, cs[0]);
      PresetsKept(s, cs[0]);
      assert ExistsOn(Step(s, cs[0]).0, cs[1..], t);
      SameCount(s, cs[0]);
      WupStep(s, cs[0], t);
      WakeupsCount(Step(s, cs[0]).0, cs[1..], t);
    }
  }

  // ---- suspensions ----

  ghost predicate Suspended(s: State, c: Call, t: nat)
    requires Inv(s) && Allowed(s, c)
  {
    c.CSusTsk? && Targets(s, c.id, t) && Step(s, c).1 == E_OK
  }

  ghost predicate Resumed(s: State, c: Call, t: nat)
    requires Inv(s) && Allowed(s, c)
  {
    c.CRsmTsk? && Targets(s, c.id, t) && Step(s, c).1 == E_OK
  }

  lemma SuspendResult(s: State, c: Call, t: nat)
    requires Inv(s) && Allowed(s, c) && t < |s.tcb|
    ensures var x := s.tcb[t];
      && (Suspended(s, c, t) <==> c.CSusTsk? && Targets(s, c.id, t) && Exists(x) && x.state != DMT && x.suscnt != TMAX_ACTCNT)
      && (Resumed(s, c, t) <==> c.CRsmTsk? && Targets(s, c.id, t) && (x.state == SUS || x.state == WAS))
  {
    hide Inv, MakeReady, MakeUnready;
  }

  lemma SuspendAfter(s: State, c: Call, t: nat)
    requires TaskFacts(s, t) && Exists(s.tcb[t]) && Exists(After(s, c, t))
    ensures var x, y := s.tcb[t], After(s, c, t);
      if c.CSusTsk? && Targets(s, c.id, t) then y == AfterSuspend(x)
      else if c.CRsmTsk? && Targets(s, c.id, t) then y == AfterResume(x)
      else y.suscnt == x.suscnt
  {
    hide After, Targets, U32;
    if TakesTask(c) { TargetAfter(s, c, t); } else { OthersKeep(s, c, t); }
  }

  /** Suspensions nest: the count is what `sus_tsk` added and `rsm_tsk` took, and the task is
      suspended, waiting or not, exactly while it is positive. */
  lemma SuspensionsCount(s: State, c: Call, t: nat)
    requires Inv(s) && Allowed(s, c) && t < |s.tcb| == |Step(s, c).0.tcb|
    requires Exists(s.tcb[t]) && Exists(Step(s, c).0.tcb[t])
    ensures var x, y := s.tcb[t], Step(s, c).0.tcb[t];
      && y.suscnt + One(Resumed(s, c, t)) == x.suscnt + One(Suspended(s, c, t))
      && (y.suscnt > 0 <==> y.state == SUS || y.state == WAS)
  {
    hide Inv, Step, Callable, Sound, After, Suspended, Resumed, Targets, AfterSuspend, AfterResume;
    StepOn(s, c, t);
    SuspendResult(s, c, t);
    SuspendAfter(s, c, t);
    NestedIn(s.tcb[t]);
    NestedOut(s.tcb[t]);
    StepInv(s, c);
    SuspendedWhile(Step(s, c).0, t);
  }

  lemma NestedIn(x: Tcb)
    ensures AfterSuspend(x).suscnt ==
      if x.state == NOEXS || x.state == DMT || x.suscnt == TMAX_ACTCNT then x.suscnt else x.suscnt + 1
  {
  }

  lemma NestedOut(x: Tcb)
    ensures AfterResume(x).suscnt == if x.state == SUS || x.state == WAS then x.suscnt - 1 else x.suscnt
  {
  }

  lemma SuspendedWhile(s: State, t: nat)
    requires Inv(s) && t < |s.tcb| && Exists(s.tcb[t])
    ensures s.tcb[t].suscnt > 0 <==> s.tcb[t].state == SUS || s.tcb[t].state == WAS
  {
    Facts(s, t);
  }
}
