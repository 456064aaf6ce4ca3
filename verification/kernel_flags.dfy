/** Eventflags bit by bit: what a pattern is after each call, when a wait for it is satisfied,
    and whom `set_flg` releases. */
module KernelFlags {
  import opened KQueue
  import opened ReadyQueue
  import opened KernelState
  import opened KernelInv
  import opened KernelCalls
  import opened KernelRuns
  import opened KernelEffects
  import opened KernelOrder
  import opened KernelSafety
  import opened KernelWaits

  // ---- bits ----

  /** All of `w` are in `p` (TWF_ANDW). */
  ghost predicate AllIn(w: bv32, p: bv32) {
    forall k: bv32 :: k < 32 && Bit(w, k) ==> Bit(p, k)
  }

  /** Some of `w` are in `p` (TWF_ORW). */
  ghost predicate AnyIn(w: bv32, p: bv32) {
    exists k: bv32 :: k < 32 && Bit(w, k) && Bit(p, k)
  }

  /** The bits of `p` are those of `a` and those of `b`. */
  ghost predicate Joined(p: bv32, a: bv32, b: bv32) {
    forall k: bv32 :: k < 32 ==> (Bit(p, k) <==> Bit(a, k) || Bit(b, k))
  }

  /** The bits of `p` are those that `a` and `b` share. */
  ghost predicate Shared(p: bv32, a: bv32, b: bv32) {
    forall k: bv32 :: k < 32 ==> (Bit(p, k) <==> Bit(a, k) && Bit(b, k))
  }

  /** The condition task `x` waits for holds of pattern `p`: mode 0 asks for all bits, 1 for any. */
  ghost predicate Wants(x: Tcb, p: bv32) {
    if x.wfmode == 0 then AllIn(x.waiptn, p) else AnyIn(x.waiptn, p)
  }

  function Masked(a: bv32, k: bv32): bv32
    requires k < 32
  {
    a & (1 << k)
  }

  function Either(a: bv32, b: bv32): bv32 { a | b }

  lemma BitIs(a: bv32, k: bv32)
    requires k < 32
    ensures Bit(a, k) <==> Masked(a, k) != 0
  {
  }

  lemma MaskEither(a: bv32, b: bv32, k: bv32)
    requires k < 32
    ensures Masked(Either(a, b), k) == Either(Masked(a, k), Masked(b, k))
  {
    OrAnd(a, b, 1 << k);
  }

  lemma OrAnd(a: bv32, b: bv32, m: bv32)
    ensures (a | b) & m == (a & m) | (b & m)
  {
  }

  lemma EitherZero(x: bv32, y: bv32)
    ensures Either(x, y) == 0 <==> x == 0 && y == 0
  {
  }

  lemma BitOr(a: bv32, b: bv32, k: bv32)
    requires k < 32
    ensures Bit(Either(a, b), k) <==> Bit(a, k) || Bit(b, k)
  {
    hide Bit, Masked, Either;
    BitIs(Either(a, b), k);
    BitIs(a, k);
    BitIs(b, k);
    MaskEither(a, b, k);
    EitherZero(Masked(a, k), Masked(b, k));
  }

  lemma BitAnd(a: bv32, b: bv32, k: bv32)
    requires k < 32
    ensures Bit(a & b, k) <==> Bit(a, k) && Bit(b, k)
  {
  }

  lemma BitNot(a: bv32, k: bv32)
    requires k < 32
    ensures Bit(!a, k) <==> !Bit(a, k)
  {
  }

  /** A word that is not zero has a bit. */
  lemma {:induction false} BitFrom(x: bv32, j: bv32) returns (k: bv32)
    requires j < 32 && Shr(x, j) != 0
    ensures k < 32 && Bit(x, k)
    decreases 32 - j as nat
  {
    LowBit(x, j);
    hide Bit, Shr;
    if Shr(x, j) & 1 != 0 {
      k := j;
    } else {
      LastBit(x);
      ShiftOnce(x, j);
      ShiftZero(Shr(x, j));
      k := BitFrom(x, j + 1);
    }
  }

  lemma SomeBit(x: bv32) returns (k: bv32)
    requires x != 0
    ensures k < 32 && Bit(x, k)
  {
    ShiftZero(x);
    k := BitFrom(x, 0);
  }

  predicate Covers(p: bv32, w: bv32) { p & w == w }

  predicate Meets(p: bv32, w: bv32) { p & w != 0 }

  function Left(w: bv32, p: bv32): bv32 { w & !p }

  lemma MissingBits(w: bv32, p: bv32)
    ensures Left(w, p) == 0 <==> Covers(p, w)
  {
    NoneMissing(w, p);
    SomeMissing(w, p);
  }

  lemma NoneMissing(w: bv32, p: bv32)
    ensures p & w == w ==> w & !p == 0
  {
  }

  lemma SomeMissing(w: bv32, p: bv32)
    ensures w & !p == 0 ==> p & w == w
  {
    assert (p & w) | (w & !p) == w;
  }

  lemma BitLeft(w: bv32, p: bv32, k: bv32)
    requires k < 32
    ensures Bit(Left(w, p), k) <==> Bit(w, k) && !Bit(p, k)
  {
    var x := !p;
    assert Left(w, p) == w & x;
    hide Bit, Left;
    BitAnd(w, x, k);
    BitNot(p, k);
  }

  lemma NoneLeft(w: bv32, p: bv32)
    requires Left(w, p) == 0
    ensures AllIn(w, p)
  {
    forall k: bv32 | k < 32 && Bit(w, k) ensures Bit(p, k) {
      BitLeft(w, p, k);
      ZeroWord(k);
    }
    hide Bit;
  }

  lemma SomeLeft(w: bv32, p: bv32)
    requires Left(w, p) != 0
    ensures !AllIn(w, p)
  {
    hide Bit;
    var k := SomeBit(Left(w, p));
    BitLeft(w, p, k);
  }

  lemma AllInIs(w: bv32, p: bv32)
    ensures AllIn(w, p) <==> Covers(p, w)
  {
    MissingBits(w, p);
    if Covers(p, w) { NoneLeft(w, p); } else { SomeLeft(w, p); }
  }

  lemma AnyInIs(w: bv32, p: bv32)
    ensures AnyIn(w, p) <==> Meets(p, w)
  {
    hide Bit;
    if Meets(p, w) {
      var k := SomeBit(p & w);
      BitAnd(p, w, k);
    } else {
      forall k: bv32 | k < 32 ensures !(Bit(w, k) && Bit(p, k)) {
        BitAnd(p, w, k);
        ZeroWord(k);
      }
    }
  }

  lemma WantsIs(x: Tcb, p: bv32)
    requires x.wfmode <= 1
    ensures Wants(x, p) <==> FlagCond(p, x.waiptn, x.wfmode)
  {
    hide AllIn, AnyIn, Covers, Meets;
    AllInIs(x.waiptn, p);
    AnyInIs(x.waiptn, p);
    CondIs(p, x.waiptn, x.wfmode);
  }

  lemma CondIs(p: bv32, w: bv32, m: nat)
    requires m <= 1
    ensures FlagCond(p, w, m) <==> if m == 0 then Covers(p, w) else Meets(p, w)
  {
  }

  lemma BitsSetIs(a: bv32, b: bv32)
    ensures Joined(BitsSet(a, b), a, b)
  {
    assert BitsSet(a, b) == Either(a, b);
    hide Bit, BitsSet, Either;
    forall k: bv32 | k < 32 ensures Bit(BitsSet(a, b), k) <==> Bit(a, k) || Bit(b, k) { BitOr(a, b, k); }
  }

  lemma BitsKeptIs(a: bv32, b: bv32)
    ensures Shared(BitsKept(a, b), a, b)
  {
    hide Bit;
    forall k: bv32 | k < 32 ensures Bit(BitsKept(a, b), k) <==> Bit(a, k) && Bit(b, k) { BitAnd(a, b, k); }
  }

  /** TA_CLR is the bit worth 4. */
  predicate Clears(atr: bv16) { atr % 8 >= 4 }

  lemma ClearsIs(atr: bv16)
    ensures Clears(atr) <==> TaClr(atr)
  {
  }

  // ---- wai_flg and clr_flg ----

  /** A wait is satisfied at once if and only if all (mode 0) or some (mode 1) of the bits are
      there; the caller is then told the pattern, which is cleared with TA_CLR and only then. */
  lemma WaiFlgExact(s: State, id: int, w: bv32, m: nat, tmo: int)
    requires Inv(s) && Callable(s, CWaiFlg(id, w, m, tmo)) && FlgLive(s, id) && w != 0 && m <= 1
    ensures var (r, er) := Step(s, CWaiFlg(id, w, m, tmo)); var f := s.o.flg[id - 1];
      && (er == E_OK <==> if m == 0 then AllIn(w, f.ptn) else AnyIn(w, f.ptn))
      && (er == E_OK ==> r == Put(s, s.run, s.tcb[s.run].(ercd := E_OK, flgOut := f.ptn)).(o := r.o) &&
                         r.o == PtnPut(s.o, id - 1, if Clears(f.atr) then 0 else f.ptn))
      && (er != E_OK ==> er == E_TMOUT && r.o == s.o)
  {
    hide Inv, AllIn, AnyIn, Clears, TaClr, FlagCond, ObjMakeWait;
    var f := s.o.flg[id - 1];
    WantsIs(s.tcb[s.run].(waiptn := w, wfmode := m), f.ptn);
    ClearsIs(f.atr);
    NoOneRefused(f.atr);
    FlagWaited(s, id, w, m, tmo);
    assert s.o.flg[id - 1 := f] == s.o.flg;
  }

  lemma NoOneRefused(atr: bv16)
    ensures !TaWsgl(atr)
  {
  }

  lemma FlagWaited(s: State, id: int, w: bv32, m: nat, tmo: int)
    requires Inv(s) && Callable(s, CWaiFlg(id, w, m, tmo)) && FlgLive(s, id) && w != 0 && m <= 1
    ensures Step(s, CWaiFlg(id, w, m, tmo)).1 != E_OK ==> Step(s, CWaiFlg(id, w, m, tmo)).0.o == s.o
  {
    hide Inv, FlagCond, TaClr, ObjMakeWait;
    StepIs(s, CWaiFlg(id, w, m, tmo));
    var e := s.tcb[s.run].(ercd := E_TMOUT, waiptn := w, wfmode := m);
    ObjWaitObjs(Put(s, s.run, e), s.run, FlgQ(id - 1), s.o.flg[id - 1].atr, tmo);
    NoOneRefused(s.o.flg[id - 1].atr);
  }

  lemma ObjWaitObjs(s: State, t: nat, h: Node, atr: bv16, tmo: int)
    requires t < |s.tcb| && h in s.q && IsWaitQ(h)
    ensures ObjMakeWait(s, t, h, atr, tmo).o == s.o
  {
    hide TaTpri, Remove, Append, TopTask, PriPos;
  }

  /** `clr_flg` leaves exactly the bits that were there and are in its mask, and nothing else
      changes. */
  lemma ClrFlgExact(s: State, id: int, mask: bv32)
    requires Inv(s) && FlgLive(s, id)
    ensures var (r, er) := Step(s, CClrFlg(id, mask)); var f := s.o.flg[id - 1];
      && er == E_OK && |r.o.flg| == |s.o.flg| && Shared(r.o.flg[id - 1].ptn, f.ptn, mask)
      && r == s.(o := PtnPut(s.o, id - 1, r.o.flg[id - 1].ptn))
  {
    hide Inv, Shared, BitsKept;
    BitsKeptIs(s.o.flg[id - 1].ptn, mask);
  }

  /** No task waits for bits that are already there. */
  lemma NoLostWakeup(s: State, t: nat, i: nat)
    requires Inv(s) && t < |s.tcb| && Waiting(s.tcb[t]) && s.tcb[t].waitObj == Some(FlgQ(i))
    ensures i < |s.o.flg| && s.o.flg[i].live && s.tcb[t].waiptn != 0 && !Wants(s.tcb[t], s.o.flg[i].ptn)
  {
    hide FlagCond, Wants;
    assert PlacedTask(s.q, s.tcb[t], t);
    var h := FlgQ(i);
    assert Tsk(t) in At(s.q, h);
    assert IsHead(s.np, s.o, h) by { assert At(s.q, h) != []; }
    assert FlgOk(At(s.q, h), s.tcb, s.o.flg[i]);
    ModeIs(s, t);
    WantsIs(s.tcb[t], s.o.flg[i].ptn);
  }

  lemma ModeIs(s: State, t: nat)
    requires Inv(s) && t < |s.tcb|
    ensures s.tcb[t].wfmode <= 1
  {
    assert TcbOk(s.np, s.tcb[t]);
  }

  // ---- set_flg ----

  /** Without TA_CLR all whose condition holds are woken. */
  lemma {:induction false} WokenAll(tcb: seq<Tcb>, ws: seq<Node>, p: bv32, ts: set<nat>)
    requires forall n :: n in ws ==> (OwnedBy(n, ts) <==> !Hit(tcb, n, p))
    ensures forall n :: n in Woken(tcb, ws, p, false) <==> n in ws && Hit(tcb, n, p)
    ensures Unwoken(tcb, ws, p, false) == Keep(ws, ts)
  {
    hide Hit, OwnedBy;
    if ws != [] {
      assert ws[0] in ws && forall n :: n in ws[1..] ==> n in ws;
      WokenAll(tcb, ws[1..], p, ts);
    }
  }

  /** With TA_CLR only the first of them is. */
  lemma {:induction false} WokenFirst(tcb: seq<Tcb>, ws: seq<Node>, p: bv32, k: nat)
    requires k <= |ws| && (forall i :: 0 <= i < k ==> !Hit(tcb, ws[i], p)) && (k < |ws| ==> Hit(tcb, ws[k], p))
    ensures Woken(tcb, ws, p, true) == if k < |ws| then [ws[k]] else []
    ensures Unwoken(tcb, ws, p, true) == if k < |ws| then ws[..k] + ws[k + 1..] else ws
  {
    hide Hit;
    if k == 0 {
      if ws != [] { assert ws[..0] + ws[1..] == ws[1..]; }
    } else {
      WokenFirst(tcb, ws[1..], p, k - 1);
      if k < |ws| { assert ws[..k] + ws[k + 1..] == [ws[0]] + (ws[1..][..k - 1] + ws[1..][k..]); }
    }
  }

  lemma {:induction false} FirstHit(tcb: seq<Tcb>, ws: seq<Node>, p: bv32) returns (k: nat)
    ensures k <= |ws| && (forall i :: 0 <= i < k ==> !Hit(tcb, ws[i], p)) && (k < |ws| ==> Hit(tcb, ws[k], p))
  {
    hide Hit;
    if ws == [] || Hit(tcb, ws[0], p) {
      k := 0;
    } else {
      k := FirstHit(tcb, ws[1..], p);
      k := k + 1;
    }
  }

  /** Who is in the queue of eventflag `i`: the tasks waiting for it. */
  lemma FlagQueue(s: State, i: nat, n: Node, p: bv32)
    requires Inv(s) && n in At(s.q, FlgQ(i))
    ensures n.Tsk? && n.t < |s.tcb| && AwaitsFlag(s.tcb[n.t], i) && (Hit(s.tcb, n, p) <==> Wants(s.tcb[n.t], p))
  {
    hide Good, Wants, FlagCond;
    WaiterTask(s, n, FlgQ(i));
    OnlyHome(s, NULL, n.t, FlgQ(i));
    ModeIs(s, n.t);
    WantsIs(s.tcb[n.t], p);
  }

  predicate AwaitsFlag(x: Tcb, i: nat) { Waiting(x) && x.waitObj == Some(FlgQ(i)) }

  lemma SetFlgStep(s: State, id: int, n: bv32, isr: bool)
    requires Inv(s) && FlgLive(s, id)
    ensures var p := BitsSet(s.o.flg[id - 1].ptn, n); var r := Step(s, CSetFlg(id, n, isr)).0;
      var ws := At(s.q, FlgQ(id - 1)); var clr := TaClr(s.o.flg[id - 1].atr);
      && |r.tcb| == |s.tcb| && At(r.q, FlgQ(id - 1)) == Unwoken(s.tcb, ws, p, clr)
      && r.o == PtnPut(s.o, id - 1, PatternAfter(s.tcb, ws, p, clr))
      && forall u :: 0 <= u < |s.tcb| ==>
           r.tcb[u] == if Tsk(u) in Woken(s.tcb, ws, p, clr) then Released(s.tcb[u].(flgOut := p, ercd := E_OK)) else s.tcb[u]
  {
    hide Good, Sweep, ISetFlg, TaClr, BitsSet, Woken, Unwoken, PatternAfter, Released;
    var i := id - 1;
    var f := s.o.flg[i];
    var p := BitsSet(f.ptn, n);
    var ws := At(s.q, FlgQ(i));
    ISetFlgGood(s, id, n);
    var u := Unwoken(s.tcb, ws, p, TaClr(f.atr));
    assert [] + u == u;
    PtnTwice(s, i, p, PatternAfter(s.tcb, ws, p, TaClr(f.atr)));
  }

  /** The waiters of eventflag `i` whose condition `p` does not meet. */
  ghost function Unmet(s: State, i: nat, p: bv32): set<nat> {
    set t: nat | t < |s.tcb| && AwaitsFlag(s.tcb[t], i) && !Wants(s.tcb[t], p)
  }

  /** `set_flg` without TA_CLR: the new pattern p has the old bits and the new ones. Exactly the
      waiters whose condition p meets are released, each with p; the others keep their order. */
  lemma SetFlgAll(s: State, id: int, n: bv32, isr: bool) returns (p: bv32)
    requires Inv(s) && FlgLive(s, id) && !Clears(s.o.flg[id - 1].atr)
    ensures Joined(p, s.o.flg[id - 1].ptn, n)
    ensures var r := Step(s, CSetFlg(id, n, isr)).0;
      && |r.tcb| == |s.tcb| && r.o == PtnPut(s.o, id - 1, p)
      && At(r.q, FlgQ(id - 1)) == Keep(At(s.q, FlgQ(id - 1)), Unmet(s, id - 1, p))
      && forall t: nat :: t < |s.tcb| ==>
           if AwaitsFlag(s.tcb[t], id - 1) && Wants(s.tcb[t], p)
           then EndsWith(s.tcb[t], r.tcb[t], E_OK) && r.tcb[t].flgOut == p
           else r.tcb[t] == s.tcb[t]
  {
    hide Inv, Step, TaClr, BitsSet, Joined, Woken, Unwoken, Wants, Hit, Keep, EndsWith, Released, AwaitsFlag;
    var i := id - 1;
    var ws := At(s.q, FlgQ(i));
    p := BitsSet(s.o.flg[i].ptn, n);
    BitsSetIs(s.o.flg[i].ptn, n);
    ClearsIs(s.o.flg[i].atr);
    SetFlgStep(s, id, n, isr);
    forall m | m in ws ensures OwnedBy(m, Unmet(s, i, p)) <==> !Hit(s.tcb, m, p) { FlagQueue(s, i, m, p); }
    WokenAll(s.tcb, ws, p, Unmet(s, i, p));
    forall t: nat | t < |s.tcb|
      ensures Tsk(t) in ws && Hit(s.tcb, Tsk(t), p) <==> AwaitsFlag(s.tcb[t], i) && Wants(s.tcb[t], p)
      ensures var y := Released(s.tcb[t].(flgOut := p, ercd := E_OK));
        AwaitsFlag(s.tcb[t], i) ==> EndsWith(s.tcb[t], y, E_OK) && y.flgOut == p
    {
      InFlagQueue(s, i, t, p);
      FlagEnds(s.tcb[t], i, p);
    }
  }

  lemma InFlagQueue(s: State, i: nat, t: nat, p: bv32)
    requires Inv(s) && t < |s.tcb|
    ensures Tsk(t) in At(s.q, FlgQ(i)) <==> AwaitsFlag(s.tcb[t], i)
    ensures AwaitsFlag(s.tcb[t], i) ==> (Hit(s.tcb, Tsk(t), p) <==> Wants(s.tcb[t], p))
  {
    hide Inv, Wants, Hit;
    WhereNodes(s, t, FlgQ(i));
    if Tsk(t) in At(s.q, FlgQ(i)) { FlagQueue(s, i, Tsk(t), p); }
  }

  lemma FlagEnds(x: Tcb, i: nat, p: bv32)
    ensures var y := Released(x.(flgOut := p, ercd := E_OK)); AwaitsFlag(x, i) ==> EndsWith(x, y, E_OK) && y.flgOut == p
  {
  }

  /** Of the tasks `ws` that wait for eventflag `i`, the one at `k` is the first whose condition
      `p` meets; there is none if `k` is their number. */
  ghost predicate FirstMet(s: State, i: nat, p: bv32, ws: seq<Node>, k: nat) {
    && k <= |ws| && (forall j :: 0 <= j < |ws| ==> ws[j].Tsk? && ws[j].t < |s.tcb| && AwaitsFlag(s.tcb[ws[j].t], i))
    && (forall j :: 0 <= j < k ==> !Wants(s.tcb[ws[j].t], p)) && (k < |ws| ==> Wants(s.tcb[ws[k].t], p))
  }

  /** Only that one is released, with `p`, and the pattern is zero then and `p` otherwise. */
  ghost predicate FirstReleased(s: State, i: nat, p: bv32, ws: seq<Node>, k: nat, r: State)
    requires i < |s.o.flg| && FirstMet(s, i, p, ws, k)
  {
    && |r.tcb| == |s.tcb| && r.o == PtnPut(s.o, i, if k < |ws| then 0 else p)
    && At(r.q, FlgQ(i)) == (if k < |ws| then ws[..k] + ws[k + 1..] else ws)
    && (k < |ws| ==> EndsWith(s.tcb[ws[k].t], r.tcb[ws[k].t], E_OK) && r.tcb[ws[k].t].flgOut == p)
    && (forall u :: 0 <= u < |s.tcb| && (k == |ws| || Tsk(u) != ws[k]) ==> r.tcb[u] == s.tcb[u])
  }

  /** `set_flg` with TA_CLR: with p as before, only the first waiter whose condition p meets is
      released, with p, and the pattern is cleared if there is one; all others stay as they are. */
  lemma SetFlgFirst(s: State, id: int, n: bv32, isr: bool) returns (p: bv32, k: nat)
    requires Inv(s) && FlgLive(s, id) && Clears(s.o.flg[id - 1].atr)
    ensures Joined(p, s.o.flg[id - 1].ptn, n)
    ensures FirstMet(s, id - 1, p, At(s.q, FlgQ(id - 1)), k)
    ensures FirstReleased(s, id - 1, p, At(s.q, FlgQ(id - 1)), k, Step(s, CSetFlg(id, n, isr)).0)
  {
    hide Inv, Step, TaClr, Clears, BitsSet, Joined, Woken, Unwoken, Wants, Hit, EndsWith, Released, AwaitsFlag;
    var i := id - 1;
    var ws := At(s.q, FlgQ(i));
    p := BitsSet(s.o.flg[i].ptn, n);
    BitsSetIs(s.o.flg[i].ptn, n);
    ClearsIs(s.o.flg[i].atr);
    SetFlgStep(s, id, n, isr);
    k := FirstHit(s.tcb, ws, p);
    WokenFirst(s.tcb, ws, p, k);
    forall j | 0 <= j < |ws|
      ensures ws[j].Tsk? && ws[j].t < |s.tcb| && AwaitsFlag(s.tcb[ws[j].t], i)
      ensures Hit(s.tcb, ws[j], p) <==> Wants(s.tcb[ws[j].t], p)
    {
      FlagQueue(s, i, ws[j], p);
    }
    if k < |ws| { FlagEnds(s.tcb[ws[k].t], i, p); }
  }
}
