/** Which messages the lwIP mailbox delivers, told from the calls alone, and the critical sections
    of the port as steps of the protocol. */
module MboxMessages {
  import opened KernelState
  import opened SemContract
  import opened MboxProtocol
  import MboxRing

  // ---- an account of the calls ----

  /** Kept from the calls alone, without looking at the mailbox: the messages accepted, in order,
      how many of them have been taken out, and what each thread last called `sys_mbox_post` with. */
  datatype Account = Account(accepted: seq<Ptr>, taken: nat, arg: seq<Ptr>)

  predicate Room(a: Account, size: nat) { |a.accepted| - a.taken < size }

  /** A try is accepted if there is room; a try inside `sys_mbox_post` is one for the message that
      call was made with, however often it has failed and waited in between. */
  function Entered(a: Account, size: nat, m: Move): Account {
    match m.act
    case Post(msg) => if m.i < |a.arg| then a.(arg := a.arg[m.i := msg]) else a
    case TryPost(msg) => if Room(a, size) then a.(accepted := a.accepted + [msg]) else a
    case Enqueue => if Room(a, size) && m.i < |a.arg| then a.(accepted := a.accepted + [a.arg[m.i]]) else a
    case Dequeue => if a.taken < |a.accepted| then a.(taken := a.taken + 1) else a
    case _ => a
  }

  function Entries(a: Account, size: nat, ms: seq<Move>): Account
    decreases |ms|
  {
    if ms == [] then a else Entries(Entered(a, size, ms[0]), size, ms[1..])
  }

  function NewAccount(n: nat): Account { Account([], 0, seq(n, i => 0)) }

  predicate HasMsg(pc: Pc) { pc.Posting? || pc.PostFailed? || pc.PostBlocked? }

  ghost predicate Agrees(s: Sys, a: Account) {
    && a.taken <= |a.accepted| && s.fetched == a.accepted[..a.taken] && s.q == a.accepted[a.taken..]
    && |a.arg| == |s.pcs| && forall i :: 0 <= i < |s.pcs| && HasMsg(s.pcs[i]) ==> s.pcs[i].msg == a.arg[i]
  }

  lemma StepAgrees(s: Sys, a: Account, m: Move)
    requires Agrees(s, a) && Enabled(s, m.i, m.act)
    ensures Agrees(Step(s, m.i, m.act), Entered(a, s.size, m)) && Step(s, m.i, m.act).size == s.size
  {
    var b := Entered(a, s.size, m);
    assert |b.accepted| > |a.accepted| ==>
      b.accepted[..a.taken] == a.accepted[..a.taken] &&
      b.accepted[a.taken..] == a.accepted[a.taken..] + b.accepted[|a.accepted|..];
    assert b.taken > a.taken ==> a.accepted[..b.taken] == a.accepted[..a.taken] + [s.q[0]] && a.accepted[b.taken..] == s.q[1..];
  }

  lemma {:induction false} RunAgrees(s: Sys, a: Account, ms: seq<Move>)
    requires Agrees(s, a) && LegalRun(s, ms)
    ensures Agrees(Run(s, ms), Entries(a, s.size, ms))
    decreases |ms|
  {
    hide Agrees, Step, Enabled, Entered;
    if ms != [] {
      StepAgrees(s, a, ms[0]);
      RunAgrees(Step(s, ms[0].i, ms[0].act), Entered(a, s.size, ms[0]), ms[1..]);
    }
  }

  /** Over every interleaving: what was fetched and what is still in the ring are the messages of
      the accepted calls, each once, in the order they were accepted. */
  lemma RunMessages(size: nat, n: nat, ms: seq<Move>)
    requires LegalRun(Init(size, n), ms)
    ensures var r := Run(Init(size, n), ms); var a := Entries(NewAccount(n), size, ms);
      && a.taken <= |a.accepted| && r.fetched == a.accepted[..a.taken] && r.q == a.accepted[a.taken..]
      && r.fetched + r.q == a.accepted
  {
    hide Run, Entries, LegalRun;
    RunAgrees(Init(size, n), NewAccount(n), ms);
  }

  // ---- who gets a token, and who is woken ----

  /** A fetch, waiting or not, gets a token exactly if some message in the ring is neither promised
      to another fetcher nor still to be signalled for. */
  lemma TokenTaken(s: Sys, i: nat, a: Act)
    requires Tokens(s) && Enabled(s, i, a) && (a.Fetch? || a.TryFetch?)
    ensures Step(s, i, a).pcs[i] ==
      if |s.q| > Count(s.pcs, KHolding) + Count(s.pcs, KPostDone) then Holding else if a.Fetch? then FetchBlocked else Idle
    ensures Step(s, i, a).q == s.q
  {
    hide Count;
  }

  /** A signal hands a token to whoever has waited longest; no other move, and no other thread, has
      to do with anybody but the thread that moves. */
  lemma LongestWaits(s: Sys, i: nat, a: Act, j: nat)
    requires Tokens(s) && Enabled(s, i, a) && j < |s.pcs|
    ensures var ws := if a.SignalEmpty? then s.empty.ws else if a.SignalFull? then s.full.ws else [];
      var y := Step(s, i, a).pcs[j];
      && |Step(s, i, a).pcs| == |s.pcs|
      && (j != i && ws != [] && ws[0] == j ==> y == if a.SignalEmpty? then Holding else Posting(s.pcs[j].msg))
      && (j != i && (ws == [] || ws[0] != j) ==> y == s.pcs[j])
  {
    hide Count;
    assert s.empty.ws != [] ==> s.empty.ws[0] in s.empty.ws;
    assert s.full.ws != [] ==> s.full.ws[0] in s.full.ws;
  }

  /** A post is over for its thread, but for the signal, exactly when the ring has grown by its
      message; a failed one ends at once or goes on to wait for `sem_full`. A fetch that took the
      message out of a full ring owes a signal, and no other does. */
  lemma PostsAndFetchesEnd(s: Sys, i: nat, a: Act)
    requires Tokens(s) && Enabled(s, i, a)
    ensures var r := Step(s, i, a); var y := r.pcs[i];
      && (a.TryPost? ==> if |s.q| < s.size then y == PostDone && r.q == s.q + [a.msg] else y == Idle && r.q == s.q)
      && (a.Enqueue? ==>
            if |s.q| < s.size then y == PostDone && r.q == s.q + [s.pcs[i].msg] else y == PostFailed(s.pcs[i].msg) && r.q == s.q)
      && (a.WaitFull? ==> y == if s.full.cnt > 0 then Posting(s.pcs[i].msg) else PostBlocked(s.pcs[i].msg))
      && (a.Dequeue? ==> y == (if |s.q| == s.size then FetchDone else Idle) && s.q != [] && s.q == [s.q[0]] + r.q)
      && (a.SignalEmpty? || a.SignalFull? ==> y == Idle && r.q == s.q)
      && (a.Timeout? ==> y == Idle && i !in r.empty.ws && r.q == s.q && r.empty.cnt == s.empty.cnt)
  {
    if a.Dequeue? { HolderFindsMessage(s, i); }
    if a.Timeout? { WithoutOne(s.empty.ws, i); }
    if a.SignalEmpty? || a.SignalFull? { SignalLeaves(s, i, a); }
    hide Count, SemContract.Without;
  }

  lemma SignalLeaves(s: Sys, i: nat, a: Act)
    requires Tokens(s) && Enabled(s, i, a) && (a.SignalEmpty? || a.SignalFull?)
    ensures Step(s, i, a).pcs[i] == Idle
  {
    hide Count;
    assert s.empty.ws != [] ==> s.empty.ws[0] in s.empty.ws;
    assert s.full.ws != [] ==> s.full.ws[0] in s.full.ws;
  }

  // ---- the critical sections ----

  /** The ring holds what the protocol says. */
  ghost predicate Holds(mb: MboxRing.SysMbox, s: Sys)
    reads mb, mb.q
  {
    mb.Valid() && mb.q.Length == s.size && mb.Contents() == s.q
  }

  /** A try to post `msg`, on its own or inside `sys_mbox_post`, up to the end of its critical
      section. */
  method PostSection(mb: MboxRing.SysMbox, msg: Ptr, ghost s: Sys, ghost m: Move) returns (ok: bool)
    requires Holds(mb, s) && Enabled(s, m.i, m.act)
    requires m.act == TryPost(msg) || (m.act == Enqueue && s.pcs[m.i].msg == msg)
    modifies mb, mb.q
    ensures Holds(mb, Step(s, m.i, m.act))
    ensures ok <==> Step(s, m.i, m.act).pcs[m.i] == PostDone
    ensures ok <==> Step(s, m.i, m.act).q == s.q + [msg]
  {
    ok := mb.TryEnqueue(msg);
  }

  /** The critical section of a fetch by a thread that holds a token. */
  method FetchSection(mb: MboxRing.SysMbox, ghost s: Sys, ghost i: nat) returns (msg: Ptr, wasFull: bool)
    requires Holds(mb, s) && Tokens(s) && Enabled(s, i, Dequeue)
    modifies mb, mb.q
    ensures Holds(mb, Step(s, i, Dequeue))
    ensures Step(s, i, Dequeue).fetched == s.fetched + [msg]
    ensures wasFull <==> Step(s, i, Dequeue).pcs[i] == FetchDone
  {
    HolderFindsMessage(s, i);
    var ok: bool;
    ok, msg, wasFull := mb.TryDequeue();
    hide Tokens;
  }
}
