/** The reordering message channel of objproto/message.go, before it is closed. A send stamps a
    sequence number and then offers the message to a bounded channel; when the channel is full
    the offer is left to a goroutine. Senders between stamp and offer, and goroutines still
    waiting, are the set `senders`; any of them may get its turn whenever there is room. */
module MessageChannels {
  import opened Common

  type Payload = seq<byte>

  datatype Internal = Internal(msg: Payload, seqNum: nat)

  /** A snapshot of the channel. */
  datatype Channel = Channel(
    capacity: nat, messageChan: seq<Internal>, senders: set<Internal>, reorderBuf: seq<Internal>,
    recvSeqNum: nat, seqNum: nat)

  function Stamped(c: Channel, msg: Payload): Channel {
    c.(senders := c.senders + {Internal(msg, c.seqNum)}, seqNum := c.seqNum + 1)
  }

  function Offered(c: Channel, m: Internal): Channel {
    if m in c.senders && |c.messageChan| < c.capacity then
      c.(messageChan := c.messageChan + [m], senders := c.senders - {m})
    else c
  }

  /** The index of the first buffered message with a given number. */
  function IndexOfNumber(buf: seq<Internal>, n: nat): (i: nat)
    ensures i <= |buf|
    ensures i < |buf| ==> buf[i].seqNum == n
    ensures forall k :: 0 <= k < i ==> buf[k].seqNum != n
  {
    if buf == [] || buf[0].seqNum == n then 0 else 1 + IndexOfNumber(buf[1..], n)
  }

  function Popped(c: Channel, i: nat): Channel
    requires i < |c.reorderBuf|
  {
    c.(reorderBuf := c.reorderBuf[..i] + c.reorderBuf[i + 1..], recvSeqNum := c.recvSeqNum + 1)
  }

  datatype Reading = Reading(c: Channel, out: Option<Payload>)

  /** Reading off the channel until the next message in sequence turns up. */
  function Drained(c: Channel): Reading
    decreases |c.messageChan|
  {
    if c.messageChan == [] then Reading(c, None)
    else
      var m, rest := c.messageChan[0], c.(messageChan := c.messageChan[1..]);
      if m.seqNum == c.recvSeqNum then Reading(rest.(recvSeqNum := c.recvSeqNum + 1), Some(m.msg))
      else Drained(rest.(reorderBuf := c.reorderBuf + [m]))
  }

  /** ReceiveMessage; no result is where it blocks. */
  function Read(c: Channel): Reading {
    var i := IndexOfNumber(c.reorderBuf, c.recvSeqNum);
    if i < |c.reorderBuf| then Reading(Popped(c, i), Some(c.reorderBuf[i].msg)) else Drained(c)
  }

  class MessageChannel {
    const capacity: nat
    var messageChan: seq<Internal>
    var senders: set<Internal>
    var reorderBuf: seq<Internal>
    var recvSeqNum: nat
    var seqNum: nat

    ghost function View(): Channel
      reads this
    {
      Channel(capacity, messageChan, senders, reorderBuf, recvSeqNum, seqNum)
    }

    constructor (buffer: nat)
      ensures View() == Channel(buffer, [], {}, [], 0, 0)
    {
      capacity, messageChan, senders, reorderBuf, recvSeqNum, seqNum := buffer, [], {}, [], 0, 0;
    }

    method Stamp(msg: Payload) returns (m: Internal)
      modifies this
      ensures m == Internal(msg, old(seqNum)) && View() == Stamped(old(View()), msg)
    {
      m := Internal(msg, seqNum);
      senders := senders + {m};
      seqNum := seqNum + 1;
    }

    method Offer(m: Internal)
      modifies this
      ensures View() == Offered(old(View()), m)
    {
      if m in senders && |messageChan| < capacity {
        messageChan := messageChan + [m];
        senders := senders - {m};
      }
    }

    /** A send that is not interleaved: the direct offer, or a goroutine left behind. */
    method SendMessage(msg: Payload)
      modifies this
      ensures View() == Offered(Stamped(old(View()), msg), Internal(msg, old(seqNum)))
    {
      var m := Stamp(msg);
      Offer(m);
    }

    method PopFromReorderBuf() returns (r: Option<Payload>)
      modifies this
      ensures var i := IndexOfNumber(old(reorderBuf), old(recvSeqNum));
              if i < |old(reorderBuf)| then r == Some(old(reorderBuf)[i].msg) && View() == Popped(old(View()), i)
              else r == None && View() == old(View())
    {
      var i := 0;
      while i < |reorderBuf|
        invariant 0 <= i <= |reorderBuf| && View() == old(View())
        invariant forall k :: 0 <= k < i ==> reorderBuf[k].seqNum != recvSeqNum
      {
        if reorderBuf[i].seqNum == recvSeqNum {
          assert IndexOfNumber(reorderBuf, recvSeqNum) == i;
          r := Some(reorderBuf[i].msg);
          reorderBuf := reorderBuf[..i] + reorderBuf[i + 1..];
          recvSeqNum := recvSeqNum + 1;
          return;
        }
        i := i + 1;
      }
      r := None;
    }

    method ReceiveMessage() returns (r: Option<Payload>)
      modifies this
      ensures View() == Read(old(View())).c && r == Read(old(View())).out
    {
      r := PopFromReorderBuf();
      if r.Some? {
        return;
      }
      while |messageChan| > 0
        invariant Drained(View()) == Drained(old(View()))
        decreases |messageChan|
      {
        var m := messageChan[0];
        messageChan := messageChan[1..];
        if m.seqNum == recvSeqNum {
          recvSeqNum := recvSeqNum + 1;
          return Some(m.msg);
        }
        reorderBuf := reorderBuf + [m];
      }
    }
  }

  // ---------------------------------------------------------------- runs

  /** The channel with everything ever sent and everything ever delivered. */
  datatype World = World(c: Channel, sent: seq<Payload>, delivered: seq<Payload>)

  datatype Event = StampOne(msg: Payload) | OfferOne(m: Internal) | ReadOne

  function Init(capacity: nat): World { World(Channel(capacity, [], {}, [], 0, 0), [], []) }

  function Step(w: World, e: Event): World {
    match e
    case StampOne(msg) => w.(c := Stamped(w.c, msg), sent := w.sent + [msg])
    case OfferOne(m) => w.(c := Offered(w.c, m))
    case ReadOne =>
      var r := Read(w.c);
      w.(c := r.c, delivered := if r.out.Some? then w.delivered + [r.out.value] else w.delivered)
  }

  function Exec(w: World, events: seq<Event>): World {
    if events == [] then w else Step(Exec(w, events[..|events| - 1]), events[|events| - 1])
  }

  /** The messages numbered lo and up, each once. */
  ghost function Waiting(sent: seq<Payload>, lo: nat): multiset<Internal>
    decreases |sent| - lo
  {
    if lo >= |sent| then multiset{} else multiset{Internal(sent[lo], lo)} + Waiting(sent, lo + 1)
  }

  ghost function Held(c: Channel): multiset<Internal> {
    multiset(c.messageChan) + multiset(c.senders) + multiset(c.reorderBuf)
  }

  /** What was delivered is the first recvSeqNum messages in order, and the rest are held by the
      channel, the senders and the reorder buffer, each exactly once. */
  ghost predicate InSequence(w: World) {
    && w.c.seqNum == |w.sent|
    && w.c.recvSeqNum <= |w.sent|
    && w.delivered == w.sent[..w.c.recvSeqNum]
    && Held(w.c) == Waiting(w.sent, w.c.recvSeqNum)
    && |w.c.messageChan| <= w.c.capacity
  }

  lemma {:induction false} WaitingMembers(sent: seq<Payload>, lo: nat, m: Internal)
    ensures m in Waiting(sent, lo) <==> lo <= m.seqNum < |sent| && m.msg == sent[m.seqNum]
    decreases |sent| - lo
  {
    if lo < |sent| {
      WaitingMembers(sent, lo + 1, m);
    }
  }

  lemma {:induction false} WaitingGrows(sent: seq<Payload>, msg: Payload, lo: nat)
    requires lo <= |sent|
    ensures Waiting(sent + [msg], lo) == Waiting(sent, lo) + multiset{Internal(msg, |sent|)}
    decreases |sent| - lo
  {
    if lo < |sent| {
      WaitingGrows(sent, msg, lo + 1);
    } else {
      assert Waiting(sent + [msg], lo + 1) == multiset{};
    }
  }

  lemma StampKeeps(w: World, msg: Payload)
    requires InSequence(w)
    ensures InSequence(Step(w, StampOne(msg)))
  {
    var m := Internal(msg, w.c.seqNum);
    WaitingGrows(w.sent, msg, w.c.recvSeqNum);
    WaitingMembers(w.sent, w.c.recvSeqNum, m);
    assert m !in Held(w.c);
    HeldStamp(w.c, msg);
  }

  lemma HeldStamp(c: Channel, msg: Payload)
    requires Internal(msg, c.seqNum) !in Held(c)
    ensures Held(Stamped(c, msg)) == Held(c) + multiset{Internal(msg, c.seqNum)}
  {
  }

  lemma HeldTake(c: Channel)
    requires c.messageChan != []
    ensures Held(c) == Held(c.(messageChan := c.messageChan[1..])) + multiset{c.messageChan[0]}
    ensures Held(c.(messageChan := c.messageChan[1..], reorderBuf := c.reorderBuf + [c.messageChan[0]])) == Held(c)
  {
    assert c.messageChan == [c.messageChan[0]] + c.messageChan[1..];
  }

  lemma HeldPop(c: Channel, i: nat)
    requires i < |c.reorderBuf|
    ensures Held(c) == Held(Popped(c, i)) + multiset{c.reorderBuf[i]}
  {
    assert c.reorderBuf == c.reorderBuf[..i] + [c.reorderBuf[i]] + c.reorderBuf[i + 1..];
  }

  /** Handing over the message with the next number. */
  lemma DeliverKeeps(w: World, m: Internal, c': Channel)
    requires InSequence(w) && m.seqNum == w.c.recvSeqNum
    requires Held(w.c) == Held(c') + multiset{m}
    requires c'.recvSeqNum == w.c.recvSeqNum + 1 && c'.seqNum == w.c.seqNum
    requires c'.capacity == w.c.capacity && |c'.messageChan| <= c'.capacity
    ensures InSequence(World(c', w.sent, w.delivered + [m.msg]))
  {
    assert m in Held(w.c);
    NextIsNext(w, m);
    OneLess(Held(c'), Waiting(w.sent, w.c.recvSeqNum + 1), m);
  }

  lemma OneLess(a: multiset<Internal>, b: multiset<Internal>, m: Internal)
    requires a + multiset{m} == multiset{m} + b
    ensures a == b
  {
    assert a == a + multiset{m} - multiset{m};
    assert b == multiset{m} + b - multiset{m};
  }

  lemma OfferKeeps(w: World, m: Internal)
    requires InSequence(w)
    ensures InSequence(Step(w, OfferOne(m)))
  {
  }

  /** A held message with the next number is the next message sent. */
  lemma NextIsNext(w: World, m: Internal)
    requires InSequence(w) && m in Held(w.c) && m.seqNum == w.c.recvSeqNum
    ensures w.c.recvSeqNum < |w.sent| && m == Internal(w.sent[w.c.recvSeqNum], w.c.recvSeqNum)
  {
    WaitingMembers(w.sent, w.c.recvSeqNum, m);
  }

  lemma {:induction false} DrainKeeps(w: World)
    requires InSequence(w)
    ensures var r := Drained(w.c);
            InSequence(World(r.c, w.sent, if r.out.Some? then w.delivered + [r.out.value] else w.delivered))
    decreases |w.c.messageChan|
  {
    if w.c.messageChan != [] {
      var m, rest := w.c.messageChan[0], w.c.(messageChan := w.c.messageChan[1..]);
      HeldTake(w.c);
      if m.seqNum == w.c.recvSeqNum {
        DeliverKeeps(w, m, rest.(recvSeqNum := w.c.recvSeqNum + 1));
      } else {
        DrainKeeps(w.(c := rest.(reorderBuf := w.c.reorderBuf + [m])));
      }
    }
  }

  lemma ReadKeeps(w: World)
    requires InSequence(w)
    ensures InSequence(Step(w, ReadOne))
  {
    var i := IndexOfNumber(w.c.reorderBuf, w.c.recvSeqNum);
    if i < |w.c.reorderBuf| {
      HeldPop(w.c, i);
      DeliverKeeps(w, w.c.reorderBuf[i], Popped(w.c, i));
    } else {
      DrainKeeps(w);
    }
  }

  /** Order and conservation: for every interleaving of stamps, offers and reads. */
  lemma {:induction false} MessagesStayInSequence(capacity: nat, events: seq<Event>)
    ensures InSequence(Exec(Init(capacity), events))
  {
    if events != [] {
      var before := events[..|events| - 1];
      MessagesStayInSequence(capacity, before);
      var w := Exec(Init(capacity), before);
      match events[|events| - 1]
      case StampOne(msg) => StampKeeps(w, msg);
      case OfferOne(m) => OfferKeeps(w, m);
      case ReadOne => ReadKeeps(w);
    }
  }

  lemma {:induction false} DrainFinds(c: Channel, m: Internal)
    requires m in c.messageChan && m.seqNum == c.recvSeqNum
    ensures Drained(c).out.Some?
    decreases |c.messageChan|
  {
    var rest := c.(messageChan := c.messageChan[1..]);
    if c.messageChan[0].seqNum != c.recvSeqNum {
      DrainFinds(rest.(reorderBuf := c.reorderBuf + [c.messageChan[0]]), m);
    }
  }

  /** A read waits only for a sender: if the next message was sent and none of the senders still
      holds it, the read returns it. */
  lemma ReadReturnsNext(capacity: nat, events: seq<Event>)
    requires var w := Exec(Init(capacity), events);
             w.c.recvSeqNum < |w.sent| && Internal(w.sent[w.c.recvSeqNum], w.c.recvSeqNum) !in w.c.senders
    ensures var w := Exec(Init(capacity), events); Read(w.c).out == Some(w.sent[w.c.recvSeqNum])
  {
    MessagesStayInSequence(capacity, events);
    var w := Exec(Init(capacity), events);
    var m := Internal(w.sent[w.c.recvSeqNum], w.c.recvSeqNum);
    WaitingMembers(w.sent, w.c.recvSeqNum, m);
    assert m in Held(w.c);
    var i := IndexOfNumber(w.c.reorderBuf, w.c.recvSeqNum);
    if i == |w.c.reorderBuf| {
      assert m !in w.c.reorderBuf;
      DrainFinds(w.c, m);
    }
    ReadKeeps(w);
    ReadAdvances(w);
  }

  lemma ReadAdvances(w: World)
    requires InSequence(w) && InSequence(Step(w, ReadOne)) && Read(w.c).out.Some?
    ensures w.c.recvSeqNum < |w.sent| && Read(w.c).out == Some(w.sent[w.c.recvSeqNum])
  {
  }
}
