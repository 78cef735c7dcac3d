/** What every step of a stream pair keeps, and the prefix property of every run. */
module PrefixSafety {
  import opened Common
  import opened TriggerQueues
  import opened SendStreams
  import opened OrderingQueues
  import opened StreamPairs

  /** The bytes that have been given an offset. */
  ghost function Sent(p: Pair): seq<byte>
    requires p.snd.offset <= |p.appended|
  {
    p.appended[..p.snd.offset]
  }

  ghost predicate RangeOk(p: Pair, x: SentRange)
    requires p.snd.offset <= |p.appended|
  {
    Piece(x.offset, x.data, x.eof, Sent(p), p.snd.eofSent) && x.uid < p.snd.nextUid
  }

  /** There is one EOF mark: an empty EOF range stands alone, and when it has bytes every range
      that holds the last byte carries it. */
  ghost predicate OneEof(p: Pair) {
    && (p.snd.eofSent ==> exists x :: x in p.made && x.eof)
    && (forall f, g :: f in p.made && g in p.made && f.eof && g.eof && f.data == [] ==> g == f)
    && (forall f, g :: f in p.made && g in p.made && f.eof && f.data != [] && g.Has(f.End() - 1) ==> g.eof)
  }

  ghost predicate BufferOk(p: Pair) {
    && p.snd.offset <= |p.appended|
    && Flatten(p.snd.inputBuffer) == p.appended[p.snd.offset..]
    && p.snd.dataInBuffer == |p.appended|
    && p.snd.sentSize == p.snd.offset
    && (p.snd.eofSent ==> p.snd.signalEOF || p.snd.cancelRequested)
    && (p.snd.eofSent && !p.snd.cancelRequested ==> p.snd.offset == |p.appended|)
  }

  ghost predicate TrackingOk(p: Pair) {
    && NoDuplicates(p.snd.sentRanges)
    && (forall i :: 0 <= i < |p.snd.sentRanges| ==> p.snd.sentRanges[i] in p.made)
    && (forall i :: 0 <= i < |p.snd.retransmit| ==> p.snd.retransmit[i] in p.made)
    && p.accepted <= p.delivered <= p.emitted <= p.made
    && p.divided <= p.made
  }

  ghost predicate SenderOk(p: Pair) {
    && BufferOk(p)
    && (forall x :: x in p.made ==> RangeOk(p, x))
    && OneEof(p)
    && TrackingOk(p)
  }

  ghost predicate ReceiverOk(p: Pair)
    requires p.snd.offset <= |p.appended|
  {
    var oq := p.rcv.oq;
    && QueueOk(oq.queue, oq.nextOffset, Sent(p), p.snd.eofSent)
    && p.read == Sent(p)[..oq.nextOffset]
    && p.rcv.recvWindow == p.rcv.initialWindow + oq.nextOffset
    && (oq.eofReached ==> p.snd.eofSent && oq.nextOffset == p.snd.offset && oq.queue == [])
    && (forall i :: 0 <= i < |oq.queue| && oq.queue[i].data == [] ==> exists g :: g in p.made && g.eof && g.data == [])
  }

  ghost predicate Safe(p: Pair) { SenderOk(p) && ReceiverOk(p) }

  /** Changes that touch neither the offsets nor the ranges. */
  lemma SenderReframes(p: Pair, p': Pair)
    requires SenderOk(p) && TrackingOk(p')
    requires p'.appended == p.appended && p'.made == p.made
    requires p'.snd.offset == p.snd.offset && Flatten(p'.snd.inputBuffer) == Flatten(p.snd.inputBuffer)
    requires p'.snd.dataInBuffer == p.snd.dataInBuffer && p'.snd.sentSize == p.snd.sentSize
    requires p'.snd.eofSent == p.snd.eofSent && p'.snd.nextUid == p.snd.nextUid
    requires p.snd.signalEOF ==> p'.snd.signalEOF
    requires p.snd.cancelRequested ==> p'.snd.cancelRequested
    ensures SenderOk(p')
  {
  }

  // ---------------------------------------------------------------- emitting

  /** The pair after a range list grew by `fresh`. */
  ghost function Extended(p: Pair, s: Sender, new_: set<SentRange>): Pair {
    p.(snd := s, made := p.made + new_)
  }

  /** The new range x stands at the end of what was sent. */
  ghost predicate Adds(p: Pair, p': Pair, x: SentRange) {
    && p'.made == p.made + {x} && p'.appended == p.appended
    && x.uid == p.snd.nextUid < p'.snd.nextUid && x.offset == p.snd.offset && x.End() == p'.snd.offset <= |p.appended|
    && x.data == p.appended[x.offset..x.End()] && p'.snd.eofSent == x.eof && !p.snd.eofSent
  }

  lemma AddedRangesOk(p: Pair, p': Pair, x: SentRange)
    requires SenderOk(p) && Adds(p, p', x)
    ensures forall y :: y in p'.made ==> RangeOk(p', y)
  {
    assert Sent(p) <= Sent(p');
    assert x.data == Sent(p')[x.offset..x.End()];
    forall y | y in p.made ensures RangeOk(p', y) {
      assert RangeOk(p, y);
      PieceExtends(y.offset, y.data, y.eof, Sent(p), Sent(p'), false, p'.snd.eofSent);
    }
  }

  lemma AddedEofOk(p: Pair, p': Pair, x: SentRange)
    requires SenderOk(p) && Adds(p, p', x)
    ensures OneEof(p')
  {
    assert forall y :: y in p.made ==> RangeOk(p, y) && !y.eof && y.End() <= p.snd.offset;
    assert x in p'.made;
  }

  lemma AddedTrackingOk(p: Pair, p': Pair, x: SentRange)
    requires SenderOk(p) && Adds(p, p', x)
    requires p'.snd.sentRanges == p.snd.sentRanges + [x] && p'.snd.retransmit == p.snd.retransmit
    requires p'.accepted == p.accepted && p'.delivered == p.delivered && p'.emitted == p.emitted && p'.divided == p.divided
    ensures TrackingOk(p')
  {
    assert forall i :: 0 <= i < |p.snd.sentRanges| ==> RangeOk(p, p.snd.sentRanges[i]);
  }

  /** A new range at the end of what was sent keeps everything in order. */
  lemma TrackKeeps(p: Pair, data: seq<byte>, eof: bool, rest: seq<seq<byte>>, open: bool)
    requires SenderOk(p) && !p.snd.eofSent
    requires p.snd.offset + |data| <= |p.appended|
    requires data == p.appended[p.snd.offset..p.snd.offset + |data|]
    requires Flatten(rest) == p.appended[p.snd.offset + |data|..]
    requires eof ==> p.snd.cancelRequested || (p.snd.signalEOF && p.snd.offset + |data| == |p.appended|)
    ensures var x := SentRange(p.snd.nextUid, p.snd.offset, data, eof);
            SenderOk(Extended(p, Tracked(p.snd.(inputBuffer := rest, pendingOpen := open), data, eof), {x}))
  {
    var x := SentRange(p.snd.nextUid, p.snd.offset, data, eof);
    var p' := Extended(p, Tracked(p.snd.(inputBuffer := rest, pendingOpen := open), data, eof), {x});
    assert Adds(p, p', x);
    AddedRangesOk(p, p', x);
    AddedEofOk(p, p', x);
    AddedTrackingOk(p, p', x);
  }

  ghost function Out(t: Triggered): set<SentRange> { match t.out case Some(x) => {x} case None => {} }

  /** Either nothing is sent and the buffer holds the same bytes, or a range is tracked. */
  lemma FreshCases(s: Sender, maxPayload: int)
    ensures var t, room := Fresh(s, maxPayload), maxPayload - HeaderSize(s.id, s.offset, if maxPayload < 0 then 0 else maxPayload);
            if s.eofSent || room <= 0 then t.s == s && t.out == None
            else if FreshData(s, room) == [] && !FreshEof(s, room) && !s.pendingOpen then
              t.s == s.(inputBuffer := FreshRest(s, room)) && t.out == None
            else
              && t.s == Tracked(s.(inputBuffer := FreshRest(s, room), pendingOpen := t.s.pendingOpen),
                                FreshData(s, room), FreshEof(s, room))
              && t.out == Some(SentRange(s.nextUid, s.offset, FreshData(s, room), FreshEof(s, room)))
  {
  }

  lemma BufferReframes(p: Pair, rest: seq<seq<byte>>)
    requires SenderOk(p) && Flatten(rest) == Flatten(p.snd.inputBuffer)
    ensures SenderOk(p.(snd := p.snd.(inputBuffer := rest)))
  {
    SenderReframes(p, p.(snd := p.snd.(inputBuffer := rest)));
  }

  lemma FreshKeeps(p: Pair, maxPayload: int)
    requires SenderOk(p)
    ensures var t := Fresh(p.snd, maxPayload); SenderOk(Extended(p, t.s, Out(t)))
  {
    var s := p.snd;
    var room := maxPayload - HeaderSize(s.id, s.offset, if maxPayload < 0 then 0 else maxPayload);
    FreshCases(s, maxPayload);
    assert p.made + {} == p.made;
    if !s.eofSent && room > 0 {
      FreshRangeKeeps(p, Fresh(s, maxPayload), room);
    }
  }

  lemma FreshRangeKeeps(p: Pair, t: Triggered, room: nat)
    requires SenderOk(p) && !p.snd.eofSent
    requires if t.out.None? then t.s == p.snd.(inputBuffer := FreshRest(p.snd, room)) && FreshData(p.snd, room) == []
             else
               && t.s == Tracked(p.snd.(inputBuffer := FreshRest(p.snd, room), pendingOpen := t.s.pendingOpen),
                                 FreshData(p.snd, room), FreshEof(p.snd, room))
               && t.out == Some(SentRange(p.snd.nextUid, p.snd.offset, FreshData(p.snd, room), FreshEof(p.snd, room)))
    ensures SenderOk(Extended(p, t.s, Out(t)))
  {
    FreshIsNext(p, room);
    if t.out.None? {
      assert p.made + {} == p.made;
      BufferReframes(p, FreshRest(p.snd, room));
    } else {
      TrackKeeps(p, FreshData(p.snd, room), FreshEof(p.snd, room), FreshRest(p.snd, room), t.s.pendingOpen);
    }
  }

  lemma FreshIsNext(p: Pair, room: nat)
    requires BufferOk(p) && !p.snd.eofSent
    ensures var data := FreshData(p.snd, room);
            && p.snd.offset + |data| <= |p.appended|
            && data == p.appended[p.snd.offset..p.snd.offset + |data|]
            && Flatten(FreshRest(p.snd, room)) == p.appended[p.snd.offset + |data|..]
            && (FreshEof(p.snd, room) ==>
                  p.snd.cancelRequested || (p.snd.signalEOF && p.snd.offset + |data| == |p.appended|))
  {
    if p.snd.Sendable() > 0 {
      ChunkIsNext(p, Min(room, p.snd.Sendable()));
    }
  }

  /** readChunk takes the next bytes of the application's string. */
  lemma ChunkIsNext(p: Pair, size: nat)
    requires BufferOk(p) && !p.snd.eofSent
    ensures var data := ChunkData(p.snd, size);
            && p.snd.offset + |data| <= |p.appended|
            && data == p.appended[p.snd.offset..p.snd.offset + |data|]
            && Flatten(ChunkRest(p.snd, size)) == p.appended[p.snd.offset + |data|..]
            && (ChunkEof(p.snd, size) ==>
                  p.snd.cancelRequested || (p.snd.signalEOF && p.snd.offset + |data| == |p.appended|))
  {
    var all := Flatten(p.snd.inputBuffer);
    if !p.snd.cancelRequested && |all| > size {
      RestDropsBytes(p.snd.inputBuffer, size);
    }
  }

  lemma SplitKeepsTracking(p: Pair, src: SentRange, n: nat)
    requires SenderOk(p) && 1 <= n < |src.data|
    ensures TrackingOk(Extended(p, Split(p.snd, src, n), {SplitHead(p.snd, src, n), SplitTail(p.snd, src, n)}))
  {
  }

  lemma SplitKeepsEof(p: Pair, src: SentRange, n: nat)
    requires SenderOk(p) && src in p.made && 1 <= n < |src.data|
    ensures OneEof(Extended(p, Split(p.snd, src, n), {SplitHead(p.snd, src, n), SplitTail(p.snd, src, n)}))
  {
    assert forall y :: y in p.made ==> RangeOk(p, y);
  }

  /** Dividing a range keeps everything in order. */
  lemma SplitKeeps(p: Pair, src: SentRange, n: nat)
    requires SenderOk(p) && src in p.made && 1 <= n < |src.data|
    ensures SenderOk(Extended(p, Split(p.snd, src, n), {SplitHead(p.snd, src, n), SplitTail(p.snd, src, n)}))
  {
    var head, tail := SplitHead(p.snd, src, n), SplitTail(p.snd, src, n);
    var p' := Extended(p, Split(p.snd, src, n), {head, tail});
    assert RangeOk(p, src);
    assert Sent(p') == Sent(p);
    assert head.data == Sent(p)[head.offset..head.End()];
    assert tail.data == Sent(p)[tail.offset..tail.End()];
    forall y | y in p'.made ensures RangeOk(p', y) {
      if y in p.made {
        assert RangeOk(p, y);
      }
    }
    SplitKeepsTracking(p, src, n);
    SplitKeepsEof(p, src, n);
  }

  lemma EmitKeeps(p: Pair, maxPayload: int)
    requires SenderOk(p)
    ensures SenderOk(Emitting(p, maxPayload))
  {
    if p.snd.retransmit == [] {
      EmitNewKeeps(p, maxPayload);
    } else {
      var src := p.snd.retransmit[0];
      var popped := p.(snd := p.snd.(retransmit := p.snd.retransmit[1..]));
      SenderReframes(p, popped);
      if HeaderSize(p.snd.id, src.offset, |src.data|) + |src.data| <= maxPayload {
        assert p.made + Makes(p.snd, maxPayload) == p.made;
        EmittedKeeps(popped, Emitting(p, maxPayload));
      } else if Divides(p.snd, maxPayload) {
        EmitSplitKeeps(p, popped, src, maxPayload);
      } else {
        EmitBackKeeps(p, maxPayload);
      }
    }
  }

  lemma EmitNewKeeps(p: Pair, maxPayload: int)
    requires SenderOk(p) && p.snd.retransmit == []
    ensures SenderOk(Emitting(p, maxPayload))
  {
    var t := Fresh(p.snd, maxPayload);
    FreshKeeps(p, maxPayload);
    assert p.divided + {} == p.divided;
    EmittedKeeps(Extended(p, t.s, Out(t)), Emitting(p, maxPayload));
  }

  lemma EmitSplitKeeps(p: Pair, popped: Pair, src: SentRange, maxPayload: int)
    requires Divides(p.snd, maxPayload) && src == p.snd.retransmit[0] && src in p.made
    requires popped == p.(snd := p.snd.(retransmit := p.snd.retransmit[1..])) && SenderOk(popped)
    ensures SenderOk(Emitting(p, maxPayload))
  {
    var n := CutAt(p.snd, maxPayload);
    SplitKeeps(popped, src, n);
    EmittedKeeps(Extended(popped, Split(popped.snd, src, n), Makes(p.snd, maxPayload)), Emitting(p, maxPayload));
  }

  /** The head of the retransmit queue goes to its end. */
  function Rotated(s: Sender): Sender
    requires s.retransmit != []
  {
    s.(retransmit := Pushed(s.retransmit[1..], s.retransmit[0]))
  }

  /** The queued range neither fits nor can be divided. */
  predicate Stuck(s: Sender, maxPayload: int) {
    && s.retransmit != [] && !Divides(s, maxPayload)
    && HeaderSize(s.id, s.retransmit[0].offset, |s.retransmit[0].data|) + |s.retransmit[0].data| > maxPayload
  }

  /** Then new data is sent in its place. */
  lemma StuckEmitsFresh(p: Pair, maxPayload: int)
    requires Stuck(p.snd, maxPayload)
    ensures var t, p' := Fresh(Rotated(p.snd), maxPayload), Emitting(p, maxPayload);
            && p' == Extended(p, t.s, Out(t)).(emitted := p'.emitted)
            && p'.emitted == p.emitted + Out(t)
  {
    assert p.divided + {} == p.divided && p.emitted + {} == p.emitted;
  }

  lemma EmitBackKeeps(p: Pair, maxPayload: int)
    requires SenderOk(p) && Stuck(p.snd, maxPayload)
    ensures SenderOk(Emitting(p, maxPayload))
  {
    var back := p.(snd := Rotated(p.snd));
    var t := Fresh(back.snd, maxPayload);
    SenderReframes(p, back);
    FreshKeeps(back, maxPayload);
    StuckEmitsFresh(p, maxPayload);
    EmittedKeeps(Extended(back, t.s, Out(t)), Emitting(p, maxPayload));
  }

  /** The emitted and divided sets only record. */
  lemma EmittedKeeps(p: Pair, p': Pair)
    requires SenderOk(p)
    requires p' == p.(emitted := p'.emitted, divided := p'.divided)
    requires p.emitted <= p'.emitted <= p.made && p'.divided <= p.made
    ensures SenderOk(p')
  {
  }

  // ---------------------------------------------------------------- receiving

  /** What a step of the sender may do to the bytes already sent. */
  lemma EmitGrows(p: Pair, maxPayload: int)
    requires SenderOk(p)
    ensures var p' := Emitting(p, maxPayload);
            && p'.snd.offset >= p.snd.offset
            && (p.snd.eofSent ==> p'.snd.eofSent && p'.snd.offset == p.snd.offset)
            && p'.made >= p.made && p'.rcv == p.rcv && p'.read == p.read && p'.appended == p.appended
  {
  }

  lemma ReceiverExtends(p: Pair, p': Pair)
    requires p.snd.offset <= |p.appended| && p'.snd.offset <= |p'.appended| && ReceiverOk(p)
    requires p.snd.offset <= p'.snd.offset && p.appended <= p'.appended
    requires p.snd.eofSent ==> p'.snd.eofSent && p'.snd.offset == p.snd.offset
    requires p.made <= p'.made && p'.rcv.oq == p.rcv.oq && p'.read == p.read
    requires p'.rcv.recvWindow == p.rcv.recvWindow && p'.rcv.initialWindow == p.rcv.initialWindow
    ensures ReceiverOk(p')
  {
    assert Sent(p) <= Sent(p');
    QueueExtends(p.rcv.oq.queue, p.rcv.oq.nextOffset, Sent(p), Sent(p'), p.snd.eofSent, p'.snd.eofSent);
  }

  lemma QueueExtends(q: seq<RecvData>, next: nat, sent: seq<byte>, sent': seq<byte>, done: bool, done': bool)
    requires QueueOk(q, next, sent, done) && sent <= sent' && (done ==> done' && sent' == sent)
    ensures QueueOk(q, next, sent', done')
  {
    forall i | 0 <= i < |q| ensures Element(q[i], next, sent', done') {
      assert Element(q[i], next, sent, done);
      PieceExtends(q[i].offset, q[i].data, q[i].eof, sent, sent', done, done');
    }
  }

  lemma DeliverKeeps(p: Pair, x: SentRange)
    requires Safe(p) && x in p.emitted
    ensures Safe(Delivering(p, x))
  {
    var p' := Delivering(p, x);
    SenderReframes(p, p');
    assert RangeOk(p, x);
    var oq := p.rcv.oq;
    if p.routed && Stores(p.rcv, x) {
      if x.eof && x.data != [] {
        assert forall g :: g in p.made && g.eof && g.data == [] ==> x == g;
      }
      PushKeepsOrder(oq, Frame(x), Sent(p), p.snd.eofSent);
      EmptyStaysMarked(p, x);
    }
  }

  lemma EmptyStaysMarked(p: Pair, x: SentRange)
    requires Safe(p) && x in p.made && Stores(p.rcv, x)
    ensures var q := AfterPush(p.rcv.oq, Frame(x)).queue;
            forall i :: 0 <= i < |q| && q[i].data == [] ==> exists g :: g in p.made && g.eof && g.data == []
  {
  }

  lemma ReadKeeps(p: Pair, n: nat)
    requires Safe(p)
    ensures Safe(Reading(p, n))
  {
    SenderReframes(p, Reading(p, n));
    if !p.rcv.oq.eofReached {
      ReadKeepsReceiver(p, n);
    }
  }

  lemma ReadKeepsReceiver(p: Pair, n: nat)
    requires Safe(p) && !p.rcv.oq.eofReached
    ensures ReceiverOk(Reading(p, n))
  {
    var oq := p.rcv.oq;
    var t := Take([], oq.queue, oq.nextOffset, n, false);
    TakeKeepsOrder([], oq.queue, oq.nextOffset, n, false, Sent(p), p.snd.eofSent);
    TakeLeavesOld([], oq.queue, oq.nextOffset, n, false);
    ReadJoins(p.read, Sent(p), oq.nextOffset, t.nextOffset);
    forall i | 0 <= i < |t.queue| && t.queue[i].data == [] ensures exists g :: g in p.made && g.eof && g.data == [] {
      assert t.queue[i] in oq.queue;
    }
    assert Sent(Reading(p, n)) == Sent(p);
  }

  lemma ReadJoins(read: seq<byte>, sent: seq<byte>, next: nat, next': nat)
    requires next <= next' <= |sent| && read == sent[..next]
    ensures read + ([] + sent[next..next']) == sent[..next']
  {
  }

  /** Every empty element left by a read was there before it. */
  lemma {:induction false} TakeLeavesOld(got: seq<byte>, q: seq<RecvData>, next: nat, n: nat, eof: bool)
    ensures var t := Take(got, q, next, n, eof);
            forall d :: d in t.queue && d.data == [] ==> d in q
    decreases |q|
  {
    if q == [] || q[0].offset != next || n == 0 {
    } else if n < |q[0].data| {
      var t := Take(got, q, next, n, eof);
      assert forall i :: 1 <= i < |t.queue| ==> t.queue[i] == q[i];
    } else {
      TakeLeavesOld(got + q[0].data, q[1..], next + |q[0].data|, n - |q[0].data|, q[0].eof);
      var t := Take(got + q[0].data, q[1..], next + |q[0].data|, n - |q[0].data|, q[0].eof);
      assert forall d :: d in t.queue && d.data == [] ==> d in q[1..];
    }
  }

  lemma AckKeeps(p: Pair, x: SentRange)
    requires Safe(p)
    ensures Safe(p.(snd := Acked(p.snd, x)))
  {
    var p' := p.(snd := Acked(p.snd, x));
    WithoutMembers(p.snd.sentRanges, x);
    WithoutDistinct(p.snd.sentRanges, x);
    assert forall i :: 0 <= i < |p'.snd.sentRanges| ==> p'.snd.sentRanges[i] in p.snd.sentRanges;
    SenderReframes(p, p');
    ReceiverExtends(p, p');
  }

  lemma AppendKeeps(p: Pair, chunks: seq<seq<byte>>, eof: bool)
    requires Safe(p)
    ensures Safe(Step(p, AppendData(chunks, eof)))
  {
    var p' := Step(p, AppendData(chunks, eof));
    if AppendResult(p.snd) == Appended {
      FlattenAppend(p.snd.inputBuffer, chunks);
      assert Sent(p') == Sent(p);
      assert !p.snd.eofSent;
      assert forall x :: x in p.made ==> RangeOk(p, x) && RangeOk(p', x);
      ReceiverExtends(p, p');
    }
  }

  lemma EmitIsSafe(p: Pair, maxPayload: int)
    requires Safe(p)
    ensures Safe(Emitting(p, maxPayload))
  {
    EmitKeeps(p, maxPayload);
    EmitGrows(p, maxPayload);
    ReceiverExtends(p, Emitting(p, maxPayload));
  }

  predicate Quiet(e: Event) {
    !(e.AppendData? || e.Emit? || e.Deliver? || e.Acknowledge? || e.ReadUpTo? || e.Lose?)
  }

  lemma StepKeepsSafe(p: Pair, e: Event)
    requires Safe(p)
    ensures Safe(Step(p, e))
  {
    match e
    case AppendData(chunks, eof) => AppendKeeps(p, chunks, eof);
    case Emit(maxPayload) => EmitIsSafe(p, maxPayload);
    case Deliver(x) => if x in p.emitted { DeliverKeeps(p, x); }
    case Acknowledge(x) => if x in p.delivered { AckKeeps(p, x); }
    case ReadUpTo(n) => ReadKeeps(p, n);
    case Lose(x) => if x in p.emitted { QuietKeeps(p, p.(snd := Lost(p.snd, x))); }
    case _ => QuietStepKeeps(p, e);
  }

  lemma QuietStepKeeps(p: Pair, e: Event)
    requires Safe(p) && Quiet(e)
    ensures Safe(Step(p, e))
  {
    QuietFrame(p, e);
    QuietKeeps(p, Step(p, e));
  }

  lemma QuietFrame(p: Pair, e: Event)
    requires Quiet(e)
    ensures var p' := Step(p, e);
            && SameCore(p, p') && p'.snd.retransmit == p.snd.retransmit
            && (p.snd.signalEOF ==> p'.snd.signalEOF)
            && (p.snd.cancelRequested ==> p'.snd.cancelRequested)
  {
    if e.Close? || e.Cancel? || e.SendCancel? || e.Remove? || e.Unlist? {
      FlagFrame(p, e);
    } else {
      UpdateFrame(p, e);
    }
  }

  lemma FlagFrame(p: Pair, e: Event)
    requires e.Close? || e.Cancel? || e.SendCancel? || e.Remove? || e.Unlist?
    ensures var p' := Step(p, e);
            && SameCore(p, p') && p'.snd.retransmit == p.snd.retransmit
            && (p.snd.signalEOF ==> p'.snd.signalEOF)
            && (p.snd.cancelRequested ==> p'.snd.cancelRequested)
  {
  }

  ghost predicate SameSender(p: Pair, p': Pair) {
    && SameCore(p, p') && p'.snd.retransmit == p.snd.retransmit
    && p'.snd.signalEOF == p.snd.signalEOF && p'.snd.cancelRequested == p.snd.cancelRequested
  }

  lemma UpdateFrame(p: Pair, e: Event)
    requires e.SendUpdate? || e.DeliverUpdate? || e.AcknowledgeUpdate? || e.LoseUpdate? || e.ProbeUpdate?
    ensures SameSender(p, Step(p, e))
  {
    match e
    case SendUpdate => SendFrame(p);
    case DeliverUpdate(w) => ArrivalFrame(p, w);
    case AcknowledgeUpdate(w) => AckFrame(p, w);
    case LoseUpdate(w) => LossFrame(p, w);
    case ProbeUpdate(w) => ProbeFrame(p, w);
  }

  lemma SendFrame(p: Pair)
    ensures SameSender(p, Step(p, SendUpdate))
  {
  }

  lemma AckFrame(p: Pair, w: nat)
    ensures SameSender(p, Step(p, AcknowledgeUpdate(w)))
  {
  }

  lemma LossFrame(p: Pair, w: nat)
    ensures SameSender(p, Step(p, LoseUpdate(w)))
  {
  }

  lemma ProbeFrame(p: Pair, w: nat)
    ensures SameSender(p, Step(p, ProbeUpdate(w)))
  {
  }

  lemma ArrivalFrame(p: Pair, w: nat)
    ensures SameSender(p, Step(p, DeliverUpdate(w)))
  {
    WindowMoves(p.snd, w);
  }

  lemma WindowMoves(s: Sender, w: nat)
    ensures UpdateWindow(s, w) == s.(window := UpdateWindow(s, w).window)
  {
  }

  /** The two pairs differ in flags, windows and the retransmit queue only. */
  predicate SameCore(p: Pair, p': Pair) {
    p' == p.(snd := p.snd.(retransmit := p'.snd.retransmit, signalEOF := p'.snd.signalEOF,
                           cancelRequested := p'.snd.cancelRequested, window := p'.snd.window),
             rcv := p.rcv.(ackedWindow := p'.rcv.ackedWindow),
             routed := p'.routed, cancelSent := p'.cancelSent, listed := p'.listed,
             updateQueued := p'.updateQueued, updatesOut := p'.updatesOut, updatesMade := p'.updatesMade,
             updatesArrived := p'.updatesArrived, updateMax := p'.updateMax)
  }

  /** Steps that only set flags, windows and the retransmit queue. */
  lemma QuietKeeps(p: Pair, p': Pair)
    requires Safe(p)
    requires SameCore(p, p')
    requires p.snd.signalEOF ==> p'.snd.signalEOF
    requires p.snd.cancelRequested ==> p'.snd.cancelRequested
    requires forall i :: 0 <= i < |p'.snd.retransmit| ==> p'.snd.retransmit[i] in p.made
    ensures Safe(p')
  {
  }

  lemma {:induction false} RunIsSafe(id: nat, window: nat, open: bool, events: seq<Event>)
    ensures Safe(Exec(Init(id, window, open), events))
  {
    if events != [] {
      RunIsSafe(id, window, open, events[..|events| - 1]);
      StepKeepsSafe(Exec(Init(id, window, open), events[..|events| - 1]), events[|events| - 1]);
    }
  }

  /** Prefix safety. In every run, whatever the network and the loss detector do: the bytes read
      are a prefix of the bytes appended; the queue is sorted, free of overlap and at or above
      the read position; EOF is reported only at the end of the one EOF range, and on a stream
      that was not cancelled it means that everything was read. */
  lemma PrefixSafety(id: nat, window: nat, open: bool, events: seq<Event>)
    ensures var p := Exec(Init(id, window, open), events);
            && p.read <= p.appended
            && |p.read| == p.rcv.oq.nextOffset <= p.snd.offset <= |p.appended|
            && QueueOk(p.rcv.oq.queue, p.rcv.oq.nextOffset, p.appended[..p.snd.offset], p.snd.eofSent)
            && (p.rcv.oq.eofReached ==>
                  && (exists x :: x in p.made && x.eof)
                  && forall x :: x in p.made && x.eof ==> x.End() == |p.read|)
            && (p.rcv.oq.eofReached && !p.snd.cancelRequested ==> p.read == p.appended)
  {
    RunIsSafe(id, window, open, events);
    var p := Exec(Init(id, window, open), events);
    assert Sent(p)[..p.rcv.oq.nextOffset] <= p.appended;
    assert forall x :: x in p.made ==> RangeOk(p, x);
  }
}
