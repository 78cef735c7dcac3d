/** One stream end to end: a sender, a receiver, and a network that drops, duplicates and
    reorders. The loss detector is an adversary too: any range that was put on the wire may be
    declared lost at any time and any number of times, and an acknowledgement may arrive for
    every range the peer has processed.

    The receiving connection drops its table entry for the stream some time after an EOF frame
    arrived or after it sent a cancel (scheduleRecvStreamRemoval in trsf/conn.go). From then on a
    range is still acknowledged, but the reader that holds the stream does not get it.

    The sending connection drops its own entry when the stream is complete, and puts another send
    half in its place when a packet of the other direction arrives after that direction's entry was
    removed (getRecvStream; module Duplexes has both directions). Window updates and cancels are
    looked up by stream number: from then on they are acknowledged and do not reach this sender.

    The fields from `appended` to `read` record what happened; no step of either end reads them. */
module StreamPairs {
  import opened Common
  import opened SendStreams
  import opened OrderingQueues

  datatype Pair = Pair(
    snd: Sender,
    rcv: Receiver,
    routed: bool,                  // the receiver is in its connection's table
    cancelSent: bool,              // the receiver's connection has sent a cancel
    listed: bool,                  // the sender is in its connection's table
    appended: seq<byte>,           // every byte the application handed over
    made: set<SentRange>,          // every range ever allocated
    divided: set<SentRange>,       // those that were split
    emitted: set<SentRange>,       // those that were put in a packet
    delivered: set<SentRange>,     // those the peer processed
    accepted: set<SentRange>,      // those the peer stored
    read: seq<byte>,               // every byte the peer's application read
    updateQueued: bool,            // the receiver is on its updateWindow queue
    updatesOut: multiset<nat>,     // window updates outstanding in the receiver's handler
    updatesMade: set<nat>,
    updatesArrived: set<nat>,
    updateMax: nat)                // the largest window ever advertised

  datatype Event =
    | AppendData(chunks: seq<seq<byte>>, eof: bool)
    | Close
    | SendCancel
    | Cancel
    | Remove
    | Unlist
    | Emit(maxPayload: int)
    | Lose(x: SentRange)
    | Deliver(x: SentRange)
    | Acknowledge(x: SentRange)
    | ReadUpTo(n: nat)
    | SendUpdate
    | DeliverUpdate(w: nat)
    | AcknowledgeUpdate(w: nat)
    | LoseUpdate(w: nat)
    | ProbeUpdate(w: nat)

  function Init(id: nat, window: nat, open: bool): Pair {
    Pair(NewSender(id, window, open), NewReceiver(window), true, false, true, [], {}, {}, {}, {}, {}, [], false, multiset{}, {}, {}, window)
  }

  function Frame(x: SentRange): RecvData { RecvData(x.offset, x.data, x.eof) }

  predicate Stores(r: Receiver, x: SentRange) {
    !r.oq.eofReached && PushResult(r.oq, Frame(x)) == Inserted
  }

  /** The ranges one call of triggerPacket allocates (or re-emits). */
  function Makes(s: Sender, maxPayload: int): set<SentRange> {
    if Divides(s, maxPayload) then
      var popped := s.(retransmit := s.retransmit[1..]);
      {SplitHead(popped, s.retransmit[0], CutAt(s, maxPayload)),
       SplitTail(popped, s.retransmit[0], CutAt(s, maxPayload))}
    else
      match Trigger(s, maxPayload).out
      case Some(x) => {x}
      case None => {}
  }

  function Emitting(p: Pair, maxPayload: int): Pair {
    var t := Trigger(p.snd, maxPayload);
    p.(snd := t.s,
       made := p.made + Makes(p.snd, maxPayload),
       divided := p.divided + (if Divides(p.snd, maxPayload) then {p.snd.retransmit[0]} else {}),
       emitted := match t.out case Some(x) => p.emitted + {x} case None => p.emitted)
  }

  /** The number is recorded for acknowledgment before the stream is looked up. */
  function Delivering(p: Pair, x: SentRange): Pair {
    if !p.routed then p.(delivered := p.delivered + {x})
    else
      p.(rcv := Process(p.rcv, Frame(x)),
         delivered := p.delivered + {x},
         accepted := if Stores(p.rcv, x) then p.accepted + {x} else p.accepted)
  }

  /** The removal timer was started: an EOF frame arrived or a cancel went out. */
  predicate RemovalDue(p: Pair) {
    p.routed && (p.cancelSent || exists x :: x in p.delivered && x.eof)
  }

  function Reading(p: Pair, n: nat): Pair {
    p.(rcv := ReadWindow(p.rcv, n),
       read := p.read + ReadBytes(p.rcv.oq, n),
       updateQueued := p.updateQueued || WantsUpdate(p.rcv, n))
  }

  /** The window-update branch of the receiver's loop; a finished stream sends none. */
  function SendingUpdate(p: Pair): Pair {
    var w := p.rcv.recvWindow;
    if p.rcv.oq.eofReached then p.(updateQueued := false)
    else p.(updateQueued := false, updatesOut := p.updatesOut + multiset{w}, updatesMade := p.updatesMade + {w},
            updateMax := w)
  }

  function Step(p: Pair, e: Event): Pair {
    match e
    case AppendData(chunks, eof) =>
      p.(snd := Append(p.snd, chunks, eof),
         appended := if AppendResult(p.snd) == Appended then p.appended + Flatten(chunks) else p.appended)
    case Close => p.(snd := p.snd.(signalEOF := true))
    case SendCancel => p.(cancelSent := true)
    case Cancel => if p.cancelSent && p.listed then p.(snd := p.snd.(cancelRequested := true)) else p
    case Remove => if RemovalDue(p) then p.(routed := false) else p
    case Unlist => p.(listed := false)
    case Emit(maxPayload) => Emitting(p, maxPayload)
    case Lose(x) => if x in p.emitted then p.(snd := Lost(p.snd, x)) else p
    case Deliver(x) => if x in p.emitted then Delivering(p, x) else p
    case Acknowledge(x) => if x in p.delivered then p.(snd := Acked(p.snd, x)) else p
    case ReadUpTo(n) => Reading(p, n)
    case SendUpdate => if p.updateQueued then SendingUpdate(p) else p
    case DeliverUpdate(w) =>
      if w in p.updatesMade then
        p.(snd := if p.listed then UpdateWindow(p.snd, w) else p.snd, updatesArrived := p.updatesArrived + {w})
      else p
    case AcknowledgeUpdate(w) =>
      if w in p.updatesOut && w in p.updatesArrived then
        p.(updatesOut := p.updatesOut - multiset{w}, rcv := p.rcv.(ackedWindow := w))
      else p
    case LoseUpdate(w) =>
      if w in p.updatesOut then
        p.(updatesOut := p.updatesOut - multiset{w}, updateQueued := p.updateQueued || !p.rcv.oq.eofReached)
      else p
    case ProbeUpdate(w) =>
      if w in p.updatesOut then p.(updateQueued := p.updateQueued || !p.rcv.oq.eofReached) else p
  }

  /** A whole run. */
  function Exec(p: Pair, events: seq<Event>): Pair {
    if events == [] then p
    else Step(Exec(p, events[..|events| - 1]), events[|events| - 1])
  }

  // ---------------------------------------------------------------- what a queue may hold

  /** A piece of the byte string sent so far; EOF only on a piece that reaches its end. */
  ghost predicate Piece(offset: nat, data: seq<byte>, eof: bool, sent: seq<byte>, done: bool) {
    && offset + |data| <= |sent|
    && data == sent[offset..offset + |data|]
    && (eof ==> done && offset + |data| == |sent|)
  }

  ghost predicate Element(d: RecvData, next: nat, sent: seq<byte>, done: bool) {
    next <= d.offset && Piece(d.offset, d.data, d.eof, sent, done) && (d.data != [] || d.eof)
  }

  ghost predicate Before(a: RecvData, b: RecvData) {
    a.offset < b.offset && a.End() <= b.offset && !a.eof
  }

  /** Sorted, free of overlap, at or above the read position, EOF on the last element only. */
  ghost predicate QueueOk(q: seq<RecvData>, next: nat, sent: seq<byte>, done: bool) {
    && next <= |sent|
    && (forall i :: 0 <= i < |q| ==> Element(q[i], next, sent, done))
    && (forall i, j :: 0 <= i < j < |q| ==> Before(q[i], q[j]))
  }

  /** Byte x was read or waits in the queue. */
  ghost predicate Covered(q: seq<RecvData>, next: nat, x: int) {
    x < next || exists i :: 0 <= i < |q| && q[i].Has(x)
  }

  ghost predicate EofCovered(q: seq<RecvData>, eof: bool) {
    eof || exists i :: 0 <= i < |q| && q[i].eof
  }

  lemma PieceExtends(offset: nat, data: seq<byte>, eof: bool, sent: seq<byte>, sent': seq<byte>, done: bool, done': bool)
    requires Piece(offset, data, eof, sent, done)
    requires sent <= sent' && (done ==> done' && sent' == sent)
    ensures Piece(offset, data, eof, sent', done')
  {
  }

  /** Taking the whole first element. */
  lemma DropFirst(q: seq<RecvData>, next: nat, sent: seq<byte>, done: bool)
    requires QueueOk(q, next, sent, done) && q != []
    ensures QueueOk(q[1..], q[0].End(), sent, done)
    ensures q[0].eof ==> q[1..] == [] && done && q[0].End() == |sent|
  {
    assert Element(q[0], next, sent, done);
    forall i | 0 <= i < |q[1..]| ensures Element(q[1..][i], q[0].End(), sent, done) {
      assert Before(q[0], q[i + 1]) && Element(q[i + 1], next, sent, done);
    }
    if |q| > 1 {
      assert Before(q[0], q[1]);
    }
  }

  /** Taking part of the first element. */
  lemma CutFirst(q: seq<RecvData>, next: nat, n: nat, sent: seq<byte>, done: bool)
    requires QueueOk(q, next, sent, done) && q != []
    requires q[0].offset == next && n < |q[0].data|
    ensures QueueOk([RecvData(q[0].offset + n, q[0].data[n..], q[0].eof)] + q[1..], next + n, sent, done)
  {
  }

  lemma Joins(got: seq<byte>, sent: seq<byte>, a: nat, b: nat, c: nat)
    requires a <= b <= c <= |sent|
    ensures got + sent[a..b] + sent[b..c] == got + sent[a..c]
  {
  }

  /** A read returns the next bytes of the string, keeps the queue in order, loses nothing,
      and reports EOF only at the end. */
  lemma {:induction false} TakeKeepsOrder(got: seq<byte>, q: seq<RecvData>, next: nat, n: nat, eof: bool, sent: seq<byte>, done: bool)
    requires QueueOk(q, next, sent, done)
    requires eof ==> q == [] && done && next == |sent|
    ensures var t := Take(got, q, next, n, eof);
            && next <= t.nextOffset <= |sent|
            && QueueOk(t.queue, t.nextOffset, sent, done)
            && t.bytes == got + sent[next..t.nextOffset]
            && (t.eof ==> t.queue == [] && done && t.nextOffset == |sent|)
    decreases |q|
  {
    if q == [] || q[0].offset != next || n == 0 {
      assert got + sent[next..next] == got;
    } else if n < |q[0].data| {
      assert Element(q[0], next, sent, done);
      CutFirst(q, next, n, sent, done);
      assert q[0].data[..n] == sent[next..next + n];
    } else {
      assert Element(q[0], next, sent, done);
      DropFirst(q, next, sent, done);
      var next' := next + |q[0].data|;
      TakeKeepsOrder(got + q[0].data, q[1..], next', n - |q[0].data|, q[0].eof, sent, done);
      var t := Take(got, q, next, n, eof);
      Joins(got, sent, next, next', t.nextOffset);
    }
  }

  lemma CoverRest(q: seq<RecvData>, x: int)
    requires q != []
    ensures (exists i :: 0 <= i < |q| && q[i].Has(x)) <==> q[0].Has(x) || exists i :: 0 <= i < |q[1..]| && q[1..][i].Has(x)
    ensures (exists i :: 0 <= i < |q| && q[i].eof) <==> q[0].eof || exists i :: 0 <= i < |q[1..]| && q[1..][i].eof
  {
    assert forall i :: 0 <= i < |q[1..]| ==> q[1..][i] == q[i + 1];
    assert forall i :: 1 <= i < |q| ==> q[i] == q[1..][i - 1];
  }

  lemma {:induction false} TakeKeepsCover(got: seq<byte>, q: seq<RecvData>, next: nat, n: nat, eof: bool, sent: seq<byte>, done: bool, x: int)
    requires QueueOk(q, next, sent, done)
    requires eof ==> q == [] && done && next == |sent|
    ensures var t := Take(got, q, next, n, eof);
            && (Covered(t.queue, t.nextOffset, x) <==> Covered(q, next, x))
            && (EofCovered(t.queue, t.eof) <==> EofCovered(q, eof))
    decreases |q|
  {
    if q == [] || q[0].offset != next || n == 0 {
    } else if n < |q[0].data| {
      var cut := RecvData(q[0].offset + n, q[0].data[n..], q[0].eof);
      CoverRest(q, x);
      CoverRest([cut] + q[1..], x);
      assert ([cut] + q[1..])[1..] == q[1..];
    } else {
      DropFirst(q, next, sent, done);
      TakeKeepsCover(got + q[0].data, q[1..], next + |q[0].data|, n - |q[0].data|, q[0].eof, sent, done, x);
      CoverRest(q, x);
    }
  }

  lemma InsertKeepsOrder(q: seq<RecvData>, i: nat, d: RecvData, next: nat, sent: seq<byte>, done: bool)
    requires QueueOk(q, next, sent, done) && Element(d, next, sent, done) && i <= |q|
    requires forall k :: 0 <= k < i ==> Before(q[k], d)
    requires forall k :: i <= k < |q| ==> Before(d, q[k])
    ensures QueueOk(q[..i] + [d] + q[i..], next, sent, done)
  {
  }

  /** An insertion keeps the queue sorted and free of overlap. */
  lemma PushKeepsOrder(oq: Queue, d: RecvData, sent: seq<byte>, done: bool)
    requires QueueOk(oq.queue, oq.nextOffset, sent, done)
    requires Piece(d.offset, d.data, d.eof, sent, done)
    requires d.eof && d.data != [] ==> forall i :: 0 <= i < |oq.queue| ==> oq.queue[i].data != []
    ensures QueueOk(AfterPush(oq, d).queue, oq.nextOffset, sent, done)
  {
    var q := oq.queue;
    var i := FirstAtOrAbove(q, d.offset);
    if PushResult(oq, d) == Inserted {
      forall k | 0 <= k < i ensures Before(q[k], d) {
        assert Element(q[k], oq.nextOffset, sent, done);
        if k < i - 1 {
          assert Before(q[k], q[i - 1]);
        } else if k == i - 1 && i < |q| {
          assert Before(q[k], q[i]);
        }
      }
      forall k | i <= k < |q| ensures Before(d, q[k]) {
        assert Element(q[i], oq.nextOffset, sent, done);
        assert q[i].eof ==> q[i].data != [] || !d.eof || d.data == [];
        if k > i {
          assert Before(q[i], q[k]);
        }
      }
      InsertKeepsOrder(q, i, d, oq.nextOffset, sent, done);
    }
  }

  /** An insertion adds exactly the new element. */
  lemma InsertedElements(q: seq<RecvData>, i: nat, d: RecvData, e: RecvData)
    requires i <= |q|
    ensures e in q[..i] + [d] + q[i..] <==> e in q || e == d
  {
  }

  lemma PushCovers(oq: Queue, d: RecvData, x: int)
    requires PushResult(oq, d) == Inserted
    ensures var oq' := AfterPush(oq, d);
            && (Covered(oq'.queue, oq'.nextOffset, x) <==> Covered(oq.queue, oq.nextOffset, x) || d.Has(x))
            && (EofCovered(oq'.queue, oq'.eofReached) <==> EofCovered(oq.queue, oq.eofReached) || d.eof)
  {
    var q := oq.queue;
    var i := FirstAtOrAbove(q, d.offset);
    var q' := AfterPush(oq, d).queue;
    forall e ensures e in q' <==> e in q || e == d {
      InsertedElements(q, i, d, e);
    }
    CoveredByMember(q, oq.nextOffset, x);
    CoveredByMember(q', oq.nextOffset, x);
    EofByMember(q, oq.eofReached);
    EofByMember(q', oq.eofReached);
  }

  lemma CoveredByMember(q: seq<RecvData>, next: nat, x: int)
    ensures Covered(q, next, x) <==> x < next || exists e :: e in q && e.Has(x)
  {
  }

  lemma EofByMember(q: seq<RecvData>, eof: bool)
    ensures EofCovered(q, eof) <==> eof || exists e :: e in q && e.eof
  {
  }
}
