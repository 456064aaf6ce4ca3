/** Message queues of the mailboxes (kernel/mailbox.c): singly linked through the packets. */
module MessageQueues {
  import opened KQueue
  import opened KernelState

  type Ptr = Option<nat>              // a pointer to a packet, None being NULL

  /** The mailbox part of an MBXCB; `mqTail` means something only for a non-empty FIFO queue. */
  datatype MbxCb = MbxCb(live: bool, atr: bv16, mqHead: Ptr, mqTail: Ptr)

  /** The packets in memory, by address: the link field and the priority in the header. */
  type Link = map<nat, Ptr>
  type Header = map<nat, int>

  function From(ms: seq<Msg>, k: nat): Ptr {
    if k < |ms| then Some(ms[k].addr) else None
  }

  ghost predicate Apart(ms: seq<Msg>) {
    forall i, j :: 0 <= i < j < |ms| ==> ms[i].addr != ms[j].addr
  }

  ghost predicate Chain(link: Link, head: Ptr, ms: seq<Msg>) {
    && head == From(ms, 0)
    && forall k :: 0 <= k < |ms| ==> ms[k].addr in link && link[ms[k].addr] == From(ms, k + 1)
  }

  ghost predicate Matches(link: Link, header: Header, c: MbxCb, b: Mbx) {
    && c.live == b.live && c.atr == b.atr && Chain(link, c.mqHead, b.msgs)
    && (forall k :: 0 <= k < |b.msgs| ==> b.msgs[k].addr in header && header[b.msgs[k].addr] == b.msgs[k].pri)
    && (!TaMpri(b.atr) && b.msgs != [] ==> c.mqTail == Some(b.msgs[|b.msgs| - 1].addr))
  }

  /** Writes to other packets leave a queue alone. */
  lemma MatchesFrame(link: Link, link': Link, header: Header, header': Header, c: MbxCb, b: Mbx)
    requires Matches(link, header, c, b)
    requires forall k :: 0 <= k < |b.msgs| ==>
      && b.msgs[k].addr in link && b.msgs[k].addr in link' && link'[b.msgs[k].addr] == link[b.msgs[k].addr]
      && b.msgs[k].addr in header && b.msgs[k].addr in header' && header'[b.msgs[k].addr] == header[b.msgs[k].addr]
    ensures Matches(link', header', c, b)
  {
  }

  lemma MsgPosIs(ms: seq<Msg>, pri: int, k: nat)
    requires k <= |ms| && (forall i :: 0 <= i < k ==> ms[i].pri <= pri) && (k < |ms| ==> ms[k].pri > pri)
    ensures MsgPos(ms, pri) == k
  {
    var j := MsgPos(ms, pri);
    var at := if j < |ms| then ms[j].pri else pri;
  }

  lemma LinkIn(link: Link, head: Ptr, ms: seq<Msg>, k: nat, m: Msg)
    requires Chain(link, head, ms) && Apart(ms) && k <= |ms| && forall i :: 0 <= i < |ms| ==> ms[i].addr != m.addr
    ensures var ms' := ms[..k] + [m] + ms[k..];
      if k == 0 then Chain(link[m.addr := head], Some(m.addr), ms')
      else Chain(link[m.addr := From(ms, k)][ms[k - 1].addr := Some(m.addr)], head, ms')
  {
    var ms' := ms[..k] + [m] + ms[k..];
    var link' :=
      if k == 0 then link[m.addr := head] else link[m.addr := From(ms, k)][ms[k - 1].addr := Some(m.addr)];
    forall i | 0 <= i < |ms'| ensures ms'[i].addr in link' && link'[ms'[i].addr] == From(ms', i + 1) {
      if i < k {
        assert ms'[i] == ms[i] && ms[i].addr in link;
        if i < k - 1 { assert ms'[i + 1] == ms[i + 1] && ms[i].addr != ms[k - 1].addr; }
      } else if i > k {
        assert ms'[i] == ms[i - 1] && ms[i - 1].addr in link && From(ms', i + 1) == From(ms, i);
        if k > 0 { assert ms[i - 1].addr != ms[k - 1].addr; }
      } else {
        assert From(ms', k + 1) == From(ms, k);
      }
    }
  }

  /** The packets of one list are apart, and away from any address in no list. */
  lemma ListApart(bs: seq<Mbx>, i: nat)
    requires Packets(bs) && i < |bs|
    ensures Apart(bs[i].msgs)
    ensures forall a: nat, k :: !InList(bs, a) && 0 <= k < |bs[i].msgs| ==> bs[i].msgs[k].addr != a
  {
  }

  lemma HeaderIn(header: Header, ms: seq<Msg>, k: nat, m: Msg)
    requires k <= |ms| && forall i :: 0 <= i < |ms| ==>
      ms[i].addr in header && header[ms[i].addr] == ms[i].pri && ms[i].addr != m.addr
    ensures var ms' := ms[..k] + [m] + ms[k..]; var header' := header[m.addr := m.pri];
      forall i :: 0 <= i < |ms'| ==> ms'[i].addr in header' && header'[ms'[i].addr] == ms'[i].pri
  {
    var ms' := ms[..k] + [m] + ms[k..];
    forall i | 0 <= i < |ms'| ensures ms'[i] == if i == k then m else ms[if i < k then i else i - 1] {}
  }

  /** Linking `m` in after position `k` of a priority list. */
  lemma LinkedAfter(link: Link, header: Header, c: MbxCb, b: Mbx, k: nat, m: Msg)
    requires Matches(link, header, c, b) && TaMpri(b.atr) && Apart(b.msgs) && k <= |b.msgs|
    requires forall i :: 0 <= i < |b.msgs| ==> b.msgs[i].addr != m.addr
    ensures var b' := b.(msgs := b.msgs[..k] + [m] + b.msgs[k..]); var header' := header[m.addr := m.pri];
      var link1 := link[m.addr := From(b.msgs, k)];
      if k == 0 then Matches(link1, header', c.(mqHead := Some(m.addr)), b')
      else Matches(link1[b.msgs[k - 1].addr := Some(m.addr)], header', c, b')
  {
    hide TaMpri, Apart;
    LinkIn(link, c.mqHead, b.msgs, k, m);
    HeaderIn(header, b.msgs, k, m);
    hide Chain;
    assert k == 0 ==> From(b.msgs, k) == c.mqHead by { HeadIs(link, header, c, b); }
  }

  /** Linking `m` in behind the last packet of a FIFO list. */
  lemma LinkedLast(link: Link, header: Header, c: MbxCb, b: Mbx, m: Msg)
    requires Matches(link, header, c, b) && !TaMpri(b.atr) && Apart(b.msgs)
    requires forall i :: 0 <= i < |b.msgs| ==> b.msgs[i].addr != m.addr
    ensures c.mqHead == None <==> b.msgs == []
    ensures var b' := b.(msgs := b.msgs + [m]); var header' := header[m.addr := m.pri]; var link1 := link[m.addr := None];
      if b.msgs == [] then Matches(link1, header', c.(mqHead := Some(m.addr), mqTail := Some(m.addr)), b')
      else c.mqTail == From(b.msgs, |b.msgs| - 1) &&
           Matches(link1[c.mqTail.value := Some(m.addr)], header', c.(mqTail := Some(m.addr)), b')
  {
    hide TaMpri, Apart;
    var n := |b.msgs|;
    assert b.msgs[..n] + [m] + b.msgs[n..] == b.msgs + [m];
    LinkIn(link, c.mqHead, b.msgs, n, m);
    HeaderIn(header, b.msgs, n, m);
    HeadIs(link, header, c, b);
    hide Chain;
  }

  /** What the walk reads at position `k`. */
  lemma PacketAt(link: Link, header: Header, c: MbxCb, b: Mbx, k: nat)
    requires Matches(link, header, c, b) && k < |b.msgs|
    ensures var a := b.msgs[k].addr; a in link && link[a] == From(b.msgs, k + 1) && a in header && header[a] == b.msgs[k].pri
  {
  }

  lemma HeadIs(link: Link, header: Header, c: MbxCb, b: Mbx)
    requires Matches(link, header, c, b)
    ensures c.mqHead == From(b.msgs, 0)
  {
  }

  class Mailboxes {
    const cb: array<MbxCb>
    var nextmsg: Link
    var msgpri: Header
    ghost var view: seq<Mbx>

    ghost predicate Valid()
      reads this, cb
    {
      && |view| == cb.Length
      && (forall i :: 0 <= i < cb.Length ==> Matches(nextmsg, msgpri, cb[i], view[i]))
      && Packets(view)
    }

    /** `mailbox_initialize`. */
    constructor (n: nat)
      ensures Valid() && fresh(cb) && cb.Length == n
      ensures view == seq(n, i => Mbx(false, 0, []))
    {
      cb := new MbxCb[n](i => MbxCb(false, 0, None, None));
      nextmsg := map[];
      msgpri := map[];
      view := seq(n, i => Mbx(false, 0, []));
    }

    method Create(i: nat, atr: bv16)
      requires Valid() && i < cb.Length
      modifies this`view, cb
      ensures Valid() && view == old(view)[i := Mbx(true, atr, [])]
    {
      PacketsFewer(view, i, Mbx(true, atr, []), |view[i].msgs|);
      cb[i] := MbxCb(true, atr, None, cb[i].mqTail);
      view := view[i := Mbx(true, atr, [])];
    }

    method Delete(i: nat)
      requires Valid() && i < cb.Length
      modifies this`view, cb
      ensures Valid() && view == old(view)[i := old(view)[i].(live := false, msgs := [])]
    {
      PacketsFewer(view, i, view[i].(live := false, msgs := []), |view[i].msgs|);
      cb[i] := cb[i].(live := false, mqHead := None);
      view := view[i := view[i].(live := false, msgs := [])];
    }

    /** FIFO send: link the packet behind `mq_tail`. Its header is as the sender filled it in. */
    method Push(i: nat, m: Msg)
      requires Valid() && i < cb.Length && !TaMpri(view[i].atr) && !InList(view, m.addr)
      modifies this, cb
      ensures Valid() && view == old(view)[i := old(view)[i].(msgs := old(view)[i].msgs + [m])]
    {
      hide TaMpri, Packets, InList, Matches, Apart;
      ghost var ms := view[i].msgs;
      ListApart(view, i);
      LinkedLast(nextmsg, msgpri, cb[i], view[i], m);
      assert ms[..|ms|] + [m] + ms[|ms|..] == ms + [m];
      msgpri := msgpri[m.addr := m.pri];
      nextmsg := nextmsg[m.addr := None];
      if cb[i].mqHead == None {
        cb[i] := cb[i].(mqHead := Some(m.addr));
      } else {
        nextmsg := nextmsg[cb[i].mqTail.value := Some(m.addr)];
      }
      cb[i] := cb[i].(mqTail := Some(m.addr));
      view := view[i := view[i].(msgs := ms + [m])];
      Others(old(nextmsg), old(msgpri), old(cb[..]), old(view), i, m, |ms|);
    }

    /** The queues other than `i`, none of which holds the packet `m` or another one of queue `i`. */
    ghost method Others(link0: Link, header0: Header, cb0: seq<MbxCb>, view0: seq<Mbx>, i: nat, m: Msg, n: nat)
      requires |view0| == |cb0| == |view| == cb.Length && i < |view0|
      requires forall j :: 0 <= j < |view0| ==> Matches(link0, header0, cb0[j], view0[j])
      requires Packets(view0) && !InList(view0, m.addr)
      requires view == view0[i := view[i]] && n <= |view0[i].msgs|
      requires view[i].msgs == view0[i].msgs[..n] + [m] + view0[i].msgs[n..]
      requires forall j :: 0 <= j < |view0| && j != i ==> cb[j] == cb0[j]
      requires Matches(nextmsg, msgpri, cb[i], view[i]) && msgpri == header0[m.addr := m.pri]
      requires forall a :: a in link0 && a != m.addr && (forall k :: 0 <= k < |view0[i].msgs| ==> view0[i].msgs[k].addr != a) ==>
        a in nextmsg && nextmsg[a] == link0[a]
      ensures Valid()
    {
      hide TaMpri;
      PacketsMore(view0, i, view[i], m, n);
      forall j | 0 <= j < cb.Length ensures Matches(nextmsg, msgpri, cb[j], view[j]) {
        if j != i {
          forall k | 0 <= k < |view[j].msgs|
            ensures view[j].msgs[k].addr != m.addr
            ensures forall l :: 0 <= l < |view0[i].msgs| ==> view0[i].msgs[l].addr != view[j].msgs[k].addr
          {
            assert view0[j].msgs[k] == view[j].msgs[k];
          }
          MatchesFrame(link0, nextmsg, header0, msgpri, cb0[j], view0[j]);
        }
      }
    }

    /** Priority send: walk to the first packet with a larger priority number. */
    method InsertMpri(i: nat, m: Msg)
      requires Valid() && i < cb.Length && TaMpri(view[i].atr) && !InList(view, m.addr)
      modifies this, cb
      ensures Valid() && view == old(view)[i := old(view)[i].(msgs := InsertMsg(old(view)[i].msgs, m))]
    {
      hide TaMpri, Packets, InList, Matches, MsgPos, InsertMsg;
      ghost var ms := view[i].msgs;
      ghost var k := 0;
      HeadIs(nextmsg, msgpri, cb[i], view[i]);
      var prevmsg: Ptr := None;             // None stands for mq_head itself
      var msg := cb[i].mqHead;
      while msg != None
        invariant k <= |ms| && msg == From(ms, k) && prevmsg == (if k == 0 then None else Some(ms[k - 1].addr))
        invariant forall j :: 0 <= j < k ==> ms[j].pri <= m.pri
        modifies {}
        decreases |ms| - k
      {
        PacketAt(nextmsg, msgpri, cb[i], view[i], k);
        if msgpri[msg.value] > m.pri { break; }
        prevmsg := msg;
        msg := nextmsg[msg.value];
        k := k + 1;
      }
      MsgPosIs(ms, m.pri, k);
      InsertMsgAt(ms, m);
      LinkAfter(i, m, prevmsg, msg, k);
    }

    /** Link `m` between `prevmsg` and `msg`. */
    method LinkAfter(i: nat, m: Msg, prevmsg: Ptr, msg: Ptr, ghost k: nat)
      requires Valid() && i < cb.Length && TaMpri(view[i].atr) && !InList(view, m.addr)
      requires k <= |view[i].msgs| && msg == From(view[i].msgs, k)
      requires prevmsg == if k == 0 then None else Some(view[i].msgs[k - 1].addr)
      modifies this, cb
      ensures var ms := old(view)[i].msgs;
        Valid() && view == old(view)[i := old(view)[i].(msgs := ms[..k] + [m] + ms[k..])]
    {
      hide TaMpri, Packets, InList, Matches, Apart;
      ghost var ms := view[i].msgs;
      ListApart(view, i);
      LinkedAfter(nextmsg, msgpri, cb[i], view[i], k, m);
      msgpri := msgpri[m.addr := m.pri];
      nextmsg := nextmsg[m.addr := msg];
      if prevmsg == None {
        cb[i] := cb[i].(mqHead := Some(m.addr));
      } else {
        nextmsg := nextmsg[prevmsg.value := Some(m.addr)];
      }
      view := view[i := view[i].(msgs := ms[..k] + [m] + ms[k..])];
      Others(old(nextmsg), old(msgpri), old(cb[..]), old(view), i, m, k);
    }

    /** Receive: the packet at the head leaves the queue. */
    method Pop(i: nat) returns (m: Msg)
      requires Valid() && i < cb.Length && view[i].msgs != []
      modifies this`view, cb
      ensures Valid() && m == old(view)[i].msgs[0]
      ensures view == old(view)[i := old(view)[i].(msgs := old(view)[i].msgs[1..])]
    {
      hide TaMpri, Packets;
      var packet := cb[i].mqHead.value;
      m := Msg(packet, msgpri[packet]);
      cb[i] := cb[i].(mqHead := nextmsg[packet]);
      ghost var b := view[i];
      PacketsFewer(view, i, b.(msgs := b.msgs[1..]), 1);
      view := view[i := b.(msgs := b.msgs[1..])];
    }
  }
}
