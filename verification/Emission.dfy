/** How much every call of a stream moves: triggerPacket fills its budget, the writer is held back
    exactly by the limit, the open marker goes out at most once, a read takes all there is, and a
    window update is asked for exactly when half a window was read since the last acknowledged one. */
module Emissions {
  import opened Common
  import opened TriggerQueues
  import opened SendStreams
  import opened OrderingQueues
  import opened StreamPairs
  import opened PrefixSafety

  // ---------------------------------------------------------------- what one packet carries

  /** The bytes that have no offset yet. */
  ghost function Unsent(p: Pair): seq<byte>
    requires p.snd.offset <= |p.appended|
  {
    p.appended[p.snd.offset..]
  }

  /** What a new packet can carry: the budget less a header with room for the budget's own length. */
  function Room(s: Sender, m: int): int { m - HeaderSize(s.id, s.offset, if m < 0 then 0 else m) }

  function Most(available: int, room: int, window: int): nat {
    if window <= 0 then 0 else Max(0, Min(available, Min(room, window)))
  }

  /** A new packet carries as many of the unsent bytes as budget and window admit; the EOF goes with
      the last of them, if it was signalled; a cancelled stream sends the EOF at once and no bytes. */
  ghost predicate FreshlyFull(p: Pair, t: Triggered, m: int)
    requires p.snd.offset <= |p.appended|
  {
    var s, room := p.snd, Room(p.snd, m);
    var open := s.window > s.sentSize;
    if s.eofSent || room <= 0 then t.out == None
    else
      var data := if s.cancelRequested then [] else Unsent(p)[..Most(|Unsent(p)|, room, s.window - s.sentSize)];
      var eof := open && (s.cancelRequested || (s.signalEOF && |data| == |Unsent(p)|));
      if data == [] && !eof && !s.pendingOpen then t.out == None
      else t.out == Some(SentRange(s.nextUid, s.offset, data, eof))
  }

  lemma FreshIsFull(p: Pair, m: int)
    requires SenderOk(p)
    ensures FreshlyFull(p, Fresh(p.snd, m), m)
  {
    var s, room := p.snd, Room(p.snd, m);
    FreshCases(s, m);
    if !s.eofSent && room > 0 {
      DataIsMost(p, room);
    }
  }

  lemma DataIsMost(p: Pair, room: nat)
    requires SenderOk(p) && !p.snd.eofSent && room > 0
    ensures var s := p.snd;
            var data := if s.cancelRequested then [] else Unsent(p)[..Most(|Unsent(p)|, room, s.window - s.sentSize)];
            && FreshData(s, room) == data
            && (FreshEof(s, room) <==> s.window > s.sentSize && (s.cancelRequested || (s.signalEOF && |data| == |Unsent(p)|)))
  {
    var s := p.snd;
    assert Flatten(s.inputBuffer) == Unsent(p);
    if s.window > s.sentSize {
      assert Unsent(p)[..|Unsent(p)|] == Unsent(p);
    }
  }

  /** A queued range goes before new bytes, and its oldest first. It leaves whole if it fits. If not,
      its head fills the budget and the rest goes to the end of the queue. */
  ghost predicate Again(s: Sender, t: Triggered, m: int)
    requires s.retransmit != []
  {
    var src := s.retransmit[0];
    var header := HeaderSize(s.id, src.offset, |src.data|);
    if header + |src.data| <= m then t.out == Some(src) && t.s.retransmit == s.retransmit[1..]
    else
      && 0 < m - header < |src.data|
      && t.out == Some(SentRange(s.nextUid, src.offset, src.data[..m - header], false))
      && t.s.retransmit == s.retransmit[1..] + [SentRange(s.nextUid + 1, src.offset + m - header, src.data[m - header..], src.eof)]
  }

  /** Every range in the queue was made before. */
  lemma AgainIsFull(p: Pair, m: int)
    requires SenderOk(p) && p.snd.retransmit != [] && m >= 30
    ensures Again(p.snd, Trigger(p.snd, m), m)
  {
    var s := p.snd;
    var src := s.retransmit[0];
    if HeaderSize(s.id, src.offset, |src.data|) + |src.data| > m {
      assert Divides(s, m);
      forall i | 0 <= i < |s.retransmit| ensures s.retransmit[i].uid < s.nextUid {
        assert RangeOk(p, s.retransmit[i]);
      }
      TailIsNew(s, m);
    }
  }

  lemma TailIsNew(s: Sender, m: int)
    requires Divides(s, m) && forall i :: 0 <= i < |s.retransmit| ==> s.retransmit[i].uid < s.nextUid
    ensures Again(s, Trigger(s, m), m)
  {
    var tail := SplitTail(s.(retransmit := s.retransmit[1..]), s.retransmit[0], CutAt(s, m));
    assert tail !in s.retransmit[1..];
  }

  /** No packet is smaller than it has to be: over every run and for every budget with room behind any
      header, what triggerPacket hands over is determined by the bytes appended, the ranges queued
      again, the window and the budget, and it is as much as they admit. */
  lemma PacketsAreFull(id: nat, window: nat, open: bool, events: seq<Event>, m: int)
    requires m >= 30
    ensures var p := Exec(Init(id, window, open), events);
            var t := Trigger(p.snd, m);
            && p.snd.offset <= |p.appended|
            && if p.snd.retransmit != [] then Again(p.snd, t, m) else FreshlyFull(p, t, m)
  {
    RunIsSafe(id, window, open, events);
    var p := Exec(Init(id, window, open), events);
    if p.snd.retransmit != [] {
      AgainIsFull(p, m);
    } else {
      FreshIsFull(p, m);
    }
  }

  /** Over every run an open stream refuses bytes exactly while a mebibyte of them is unsent. */
  lemma WriterWaitsExactly(id: nat, window: nat, open: bool, events: seq<Event>)
    ensures var p := Exec(Init(id, window, open), events);
            AppendResult(p.snd) == (if p.snd.signalEOF || p.snd.cancelRequested then Closed
                                    else if |p.appended| - p.snd.offset >= 1_048_576 then BufferFull
                                    else Appended)
  {
    RunIsSafe(id, window, open, events);
  }

  // ---------------------------------------------------------------- flags

  /** The stream was closed, or bytes with an EOF were accepted. */
  ghost predicate Ended(p: Pair, events: seq<Event>)
    decreases |events|
  {
    events != [] &&
      var before, e := events[..|events| - 1], events[|events| - 1];
      Ended(p, before) || e.Close? || (e.AppendData? && e.eof && AppendResult(Exec(p, before).snd) == Appended)
  }

  /** A cancel of the peer arrived while the stream was in the table. */
  ghost predicate Cancelled(p: Pair, events: seq<Event>)
    decreases |events|
  {
    events != [] &&
      var before, e := events[..|events| - 1], events[|events| - 1];
      Cancelled(p, before) || (e.Cancel? && Exec(p, before).cancelSent && Exec(p, before).listed)
  }

  /** The largest limit that arrived while the stream was in the table, or the initial one. */
  ghost function Limit(p: Pair, events: seq<Event>): int
    decreases |events|
  {
    if events == [] then p.snd.window
    else
      var before, e := events[..|events| - 1], events[|events| - 1];
      var q := Exec(p, before);
      if e.DeliverUpdate? && e.w in q.updatesMade && q.listed then Max(Limit(p, before), e.w) else Limit(p, before)
  }

  lemma FlagsStep(p: Pair, e: Event)
    ensures var s := Step(p, e).snd;
            && s.signalEOF == (p.snd.signalEOF || e.Close? || (e.AppendData? && e.eof && AppendResult(p.snd) == Appended))
            && s.cancelRequested == (p.snd.cancelRequested || (e.Cancel? && p.cancelSent && p.listed))
            && s.window == if e.DeliverUpdate? && e.w in p.updatesMade && p.listed then Max(p.snd.window, e.w) else p.snd.window
  {
    if e.Emit? {
      EmitFlags(p.snd, e.maxPayload);
    }
  }

  lemma EmitFlags(s: Sender, m: int)
    ensures var t := Trigger(s, m).s;
            t.signalEOF == s.signalEOF && t.cancelRequested == s.cancelRequested && t.window == s.window
  {
  }

  /** Over every run the sender's flags and its limit are those that the history tells. */
  lemma {:induction false} FlagsExactly(id: nat, window: nat, open: bool, events: seq<Event>)
    ensures var p0 := Init(id, window, open);
            var s := Exec(p0, events).snd;
            && (s.signalEOF <==> Ended(p0, events)) && (s.cancelRequested <==> Cancelled(p0, events))
            && s.window == Limit(p0, events)
    decreases |events|
  {
    if events != [] {
      FlagsExactly(id, window, open, events[..|events| - 1]);
      FlagsStep(Exec(Init(id, window, open), events[..|events| - 1]), events[|events| - 1]);
    }
  }

  // ---------------------------------------------------------------- the open marker

  /** A range that only makes the stream known to the peer. */
  predicate Blank(x: SentRange) { x.data == [] && !x.eof }

  ghost predicate MarkerOk(p: Pair, open: bool) {
    && (p.snd.pendingOpen <==> open && forall x :: x in p.made ==> !Blank(x))
    && (forall x, y :: x in p.made && y in p.made && Blank(x) && Blank(y) ==> x == y)
    && (!open ==> forall x :: x in p.made ==> !Blank(x))
  }

  lemma EmitKeepsMarker(p: Pair, open: bool, m: int)
    requires SenderOk(p) && MarkerOk(p, open)
    ensures MarkerOk(Emitting(p, m), open)
  {
    if Divides(p.snd, m) {
      SplitKeepsMarker(p, open, m);
    } else if p.snd.retransmit == [] {
      FreshKeepsMarker(p, open, m, p.snd);
    } else if Stuck(p.snd, m) {
      FreshKeepsMarker(p, open, m, Rotated(p.snd));
    } else {
      assert p.made + Makes(p.snd, m) == p.made;
    }
  }

  lemma SplitKeepsMarker(p: Pair, open: bool, m: int)
    requires MarkerOk(p, open) && Divides(p.snd, m)
    ensures MarkerOk(Emitting(p, m), open)
  {
    assert forall x :: x in Makes(p.snd, m) ==> !Blank(x);
  }

  lemma FreshKeepsMarker(p: Pair, open: bool, m: int, s: Sender)
    requires MarkerOk(p, open) && !Divides(p.snd, m)
    requires s == p.snd.(retransmit := s.retransmit) && Trigger(p.snd, m) == Fresh(s, m)
    ensures MarkerOk(Emitting(p, m), open)
  {
    var t := Fresh(s, m);
    assert Emitting(p, m).made == p.made + Out(t) && Emitting(p, m).snd == t.s;
    if t.out.Some? {
      assert t.s.pendingOpen == (s.pendingOpen && !Blank(t.out.value));
      assert Blank(t.out.value) ==> s.pendingOpen;
    }
  }

  lemma QuietKeepsMarker(p: Pair, open: bool, e: Event)
    requires MarkerOk(p, open) && !e.Emit?
    ensures MarkerOk(Step(p, e), open)
  {
    SameMarker(p, e);
  }

  lemma SameMarker(p: Pair, e: Event)
    requires !e.Emit?
    ensures Step(p, e).made == p.made && Step(p, e).snd.pendingOpen == p.snd.pendingOpen
  {
    if Quiet(e) {
      QuietFrame(p, e);
    } else {
      LoudSameMarker(p, e);
    }
  }

  lemma LoudSameMarker(p: Pair, e: Event)
    requires e.AppendData? || e.Deliver? || e.Acknowledge? || e.ReadUpTo? || e.Lose?
    ensures Step(p, e).made == p.made && Step(p, e).snd.pendingOpen == p.snd.pendingOpen
  {
  }

  /** The open marker goes out at most once and only on a stream that asked for it, and the stream
      remembers exactly whether it still has to: over every run, at most one range without bytes and
      without EOF is ever made. */
  lemma {:induction false} MarkerOnce(id: nat, window: nat, open: bool, events: seq<Event>)
    ensures MarkerOk(Exec(Init(id, window, open), events), open)
    decreases |events|
  {
    if events != [] {
      var before, e := events[..|events| - 1], events[|events| - 1];
      MarkerOnce(id, window, open, before);
      RunIsSafe(id, window, open, before);
      match e
      case Emit(m) => EmitKeepsMarker(Exec(Init(id, window, open), before), open, m);
      case _ => QuietKeepsMarker(Exec(Init(id, window, open), before), open, e);
    }
  }

  // ---------------------------------------------------------------- reading

  lemma {:induction false} TakeTakesAll(got: seq<byte>, q: seq<RecvData>, next: nat, n: nat, eof: bool, sent: seq<byte>, done: bool)
    requires QueueOk(q, next, sent, done)
    ensures var t := Take(got, q, next, n, eof);
            && |got| <= |t.bytes| <= |got| + n
            && (|t.bytes| < |got| + n ==> forall i :: 0 <= i < |t.queue| ==> t.queue[i].offset > t.nextOffset)
    decreases |q|
  {
    if q == [] || q[0].offset != next || n == 0 {
      assert forall i :: 0 <= i < |q| ==> Element(q[i], next, sent, done);
      assert forall i :: 0 < i < |q| ==> Before(q[0], q[i]);
    } else if n < |q[0].data| {
    } else {
      assert Element(q[0], next, sent, done);
      DropFirst(q, next, sent, done);
      TakeTakesAll(got + q[0].data, q[1..], next + |q[0].data|, n - |q[0].data|, q[0].eof, sent, done);
    }
  }

  /** A read never returns more than asked for; and one that returns less leaves nothing at the read
      position, neither a byte nor an EOF. */
  lemma ShortReadTakesAll(id: nat, window: nat, open: bool, events: seq<Event>, n: nat)
    ensures var p := Exec(Init(id, window, open), events);
            var p' := Reading(p, n);
            && |p.read| <= |p'.read| <= |p.read| + n
            && (|p'.read| < |p.read| + n ==>
                  forall i :: 0 <= i < |p'.rcv.oq.queue| ==> p'.rcv.oq.queue[i].offset > |p'.read|)
  {
    RunIsSafe(id, window, open, events);
    ReadTakesAll(Exec(Init(id, window, open), events), n);
  }

  lemma ReadTakesAll(p: Pair, n: nat)
    requires Safe(p)
    ensures var p' := Reading(p, n);
            && |p.read| <= |p'.read| <= |p.read| + n
            && (|p'.read| < |p.read| + n ==>
                  forall i :: 0 <= i < |p'.rcv.oq.queue| ==> p'.rcv.oq.queue[i].offset > |p'.read|)
  {
    ReadKeeps(p, n);
    if !p.rcv.oq.eofReached {
      TakeTakesAll([], p.rcv.oq.queue, p.rcv.oq.nextOffset, n, false, Sent(p), p.snd.eofSent);
    }
  }

  // ---------------------------------------------------------------- window updates

  /** The window whose update was last acknowledged, and the initial one before that. */
  ghost function LastAcknowledged(id: nat, window: nat, open: bool, events: seq<Event>): nat
    decreases |events|
  {
    if events == [] then window
    else
      var before, e := events[..|events| - 1], events[|events| - 1];
      var p := Exec(Init(id, window, open), before);
      if e.AcknowledgeUpdate? && e.w in p.updatesOut && e.w in p.updatesArrived then e.w
      else LastAcknowledged(id, window, open, before)
  }

  lemma OtherStepsKeepMark(p: Pair, e: Event)
    ensures Step(p, e).rcv.ackedWindow
            == if e.AcknowledgeUpdate? && e.w in p.updatesOut && e.w in p.updatesArrived then e.w else p.rcv.ackedWindow
    ensures Step(p, e).rcv.initialWindow == p.rcv.initialWindow
  {
  }

  lemma {:induction false} MarkIsLastAcknowledged(id: nat, window: nat, open: bool, events: seq<Event>)
    ensures var r := Exec(Init(id, window, open), events).rcv;
            r.ackedWindow == LastAcknowledged(id, window, open, events) && r.initialWindow == window
    decreases |events|
  {
    if events != [] {
      MarkIsLastAcknowledged(id, window, open, events[..|events| - 1]);
      OtherStepsKeepMark(Exec(Init(id, window, open), events[..|events| - 1]), events[|events| - 1]);
    }
  }

  /** A read asks for a window update if and only if it returned bytes and the window that the bytes
      read so far admit lies half an initial window or more above the mark; and an update that is sent
      carries that window. */
  ghost predicate AsksExactly(p: Pair, n: nat, window: nat, mark: nat) {
    var p' := Reading(p, n);
    && (p'.updateQueued <==>
          p.updateQueued || (|p'.read| > |p.read| && window + |p'.read| - mark >= window / 2))
    && (p.updateQueued && !p.rcv.oq.eofReached ==>
          SendingUpdate(p).updatesOut == p.updatesOut + multiset{window + |p.read|})
  }

  /** Over every run the mark is the window whose update was last acknowledged. */
  lemma UpdateIsQueuedExactly(id: nat, window: nat, open: bool, events: seq<Event>, n: nat)
    ensures AsksExactly(Exec(Init(id, window, open), events), n, window, LastAcknowledged(id, window, open, events))
  {
    RunIsSafe(id, window, open, events);
    MarkIsLastAcknowledged(id, window, open, events);
    UpdatesByMark(Exec(Init(id, window, open), events), n);
  }

  lemma UpdatesByMark(p: Pair, n: nat)
    requires Safe(p)
    ensures AsksExactly(p, n, p.rcv.initialWindow, p.rcv.ackedWindow)
  {
    ReadKeeps(p, n);
  }
}
