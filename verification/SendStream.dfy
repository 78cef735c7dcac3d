/** The sending half of a stream: trsf/send_stream.go and the flow controller of trsf/flow.go.

    A SentRange is a heap object in the program and is compared by pointer. Here it is a
    value whose `uid` stands for the pointer: two allocations never share one. */
module SendStreams {
  import opened Common
  import opened TriggerQueues
  import Varints

  const BUFFER_LIMIT: nat := 1024 * 1024
  const FIXED_OVERHEAD: nat := 30
  const PAYLOAD_OVERHEAD: nat := 4

  datatype SentRange = SentRange(uid: nat, offset: nat, data: seq<byte>, eof: bool) {
    function End(): nat { offset + |data| }
    predicate Has(x: int) { offset <= x < End() }
  }

  /** A snapshot of one sendStream. */
  datatype Sender = Sender(
    id: nat,
    inputBuffer: seq<seq<byte>>,
    dataInBuffer: nat,
    offset: nat,
    signalEOF: bool,
    cancelRequested: bool,
    eofSent: bool,
    pendingOpen: bool,
    sentRanges: seq<SentRange>,
    retransmit: seq<SentRange>,
    window: int,
    sentSize: int,
    nextUid: nat)
  {
    function Sendable(): int { window - sentSize }

    predicate Completed() { eofSent && sentRanges == [] }

    /** The condition of requeueIfMore. */
    predicate WantsMore() {
      (Sendable() > 0 && |inputBuffer| > 0) || (!eofSent && signalEOF)
    }
  }

  /** What one call of triggerPacket did: the new snapshot, the range handed over, and
      whether the stream put itself back on the send trigger. */
  datatype Triggered = Triggered(s: Sender, out: Option<SentRange>, push: bool)

  function NewSender(id: nat, window: nat, pendingOpen: bool): Sender {
    Sender(id, [], 0, 0, false, false, false, pendingOpen, [], [], window, 0, 0)
  }

  function HeaderSize(id: nat, offset: nat, dataLen: nat): (n: nat)
    ensures PAYLOAD_OVERHEAD <= n <= PAYLOAD_OVERHEAD + 24
  {
    PAYLOAD_OVERHEAD
    + (if id != 0 then Varints.VarintLen(id) else 0)
    + (if offset != 0 then Varints.VarintLen(offset) else 0)
    + (if dataLen != 0 then Varints.VarintLen(dataLen) else 0)
  }

  /** The chunks left after the first n bytes have been taken. */
  function Rest(chunks: seq<seq<byte>>, n: nat): seq<seq<byte>> {
    if chunks == [] then []
    else if |chunks[0]| <= n then Rest(chunks[1..], n - |chunks[0]|)
    else [chunks[0][n..]] + chunks[1..]
  }

  lemma {:induction false} RestDropsBytes(chunks: seq<seq<byte>>, n: nat)
    requires n <= |Flatten(chunks)|
    ensures Flatten(Rest(chunks, n)) == Flatten(chunks)[n..]
  {
    if chunks == [] {
    } else if |chunks[0]| <= n {
      RestDropsBytes(chunks[1..], n - |chunks[0]|);
    } else {
      assert ([chunks[0][n..]] + chunks[1..])[1..] == chunks[1..];
    }
  }

  /** readChunk: a cancelled stream yields EOF at once, a full budget never yields EOF,
      and an emptied buffer yields EOF when it was signalled. */
  function ChunkEof(s: Sender, maxSize: nat): bool {
    if s.cancelRequested && !s.eofSent then true
    else |Flatten(s.inputBuffer)| <= maxSize && s.signalEOF
  }

  function ChunkData(s: Sender, maxSize: nat): seq<byte> {
    if s.cancelRequested && !s.eofSent then []
    else
      var all := Flatten(s.inputBuffer);
      if |all| <= maxSize then all else all[..maxSize]
  }

  function ChunkRest(s: Sender, maxSize: nat): seq<seq<byte>> {
    if s.cancelRequested && !s.eofSent then s.inputBuffer
    else if |Flatten(s.inputBuffer)| <= maxSize then []
    else Rest(s.inputBuffer, maxSize)
  }

  function IndexOf<T(==)>(s: seq<T>, x: T): (i: nat)
    ensures i <= |s|
    ensures x in s <==> i < |s|
    ensures i < |s| ==> s[i] == x
    ensures forall k :: 0 <= k < i ==> s[k] != x
  {
    if s == [] then 0 else if s[0] == x then 0 else 1 + IndexOf(s[1..], x)
  }

  lemma IndexOfFirst<T>(s: seq<T>, x: T, i: nat)
    requires i < |s| && s[i] == x && forall k :: 0 <= k < i ==> s[k] != x
    ensures IndexOf(s, x) == i
  {
  }

  /** replaceSentRange: in place when tracked, appended when an ACK already retired it. */
  function Replaced(ranges: seq<SentRange>, src: SentRange, frags: seq<SentRange>): seq<SentRange> {
    var i := IndexOf(ranges, src);
    if i < |ranges| then ranges[..i] + frags + ranges[i + 1..] else ranges + frags
  }

  function Without(ranges: seq<SentRange>, x: SentRange): seq<SentRange> {
    if ranges == [] then []
    else if ranges[0] == x then Without(ranges[1..], x)
    else [ranges[0]] + Without(ranges[1..], x)
  }

  function SplitHead(s: Sender, src: SentRange, n: nat): SentRange
    requires n <= |src.data|
  {
    SentRange(s.nextUid, src.offset, src.data[..n], false)
  }

  function SplitTail(s: Sender, src: SentRange, n: nat): SentRange
    requires n <= |src.data|
  {
    SentRange(s.nextUid + 1, src.offset + n, src.data[n..], src.eof)
  }

  /** splitSentRange with the tail already back on the retransmit queue. */
  function Split(s: Sender, src: SentRange, n: nat): Sender
    requires n <= |src.data|
  {
    var head, tail := SplitHead(s, src, n), SplitTail(s, src, n);
    s.(sentRanges := Replaced(s.sentRanges, src, [head, tail]),
       retransmit := Pushed(s.retransmit, tail),
       nextUid := s.nextUid + 2)
  }

  /** A new range at the current offset, tracked and charged to the flow window. */
  function Tracked(s: Sender, data: seq<byte>, eof: bool): Sender {
    s.(offset := s.offset + |data|,
       sentRanges := s.sentRanges + [SentRange(s.nextUid, s.offset, data, eof)],
       eofSent := s.eofSent || eof,
       sentSize := s.sentSize + |data|,
       nextUid := s.nextUid + 1)
  }

  /** What a new range of at most `room` bytes would carry; nothing while the window is closed. */
  function FreshData(s: Sender, room: nat): seq<byte> {
    if s.Sendable() > 0 then ChunkData(s, Min(room, s.Sendable())) else []
  }

  predicate FreshEof(s: Sender, room: nat) {
    s.Sendable() > 0 && ChunkEof(s, Min(room, s.Sendable()))
  }

  function FreshRest(s: Sender, room: nat): seq<seq<byte>> {
    if s.Sendable() > 0 then ChunkRest(s, Min(room, s.Sendable())) else s.inputBuffer
  }

  /** The part of triggerPacket that builds a new range. */
  function Fresh(s: Sender, maxPayload: int): Triggered {
    var header := HeaderSize(s.id, s.offset, if maxPayload < 0 then 0 else maxPayload);
    if s.eofSent || maxPayload <= header then Triggered(s, None, false)
    else
      var room := maxPayload - header;
      var data, eof, rest := FreshData(s, room), FreshEof(s, room), FreshRest(s, room);
      if data == [] && !eof && !s.pendingOpen then Triggered(s.(inputBuffer := rest), None, false)
      else
        var taken := s.(inputBuffer := rest, pendingOpen := s.pendingOpen && !(data == [] && !eof));
        var s' := Tracked(taken, data, eof);
        Triggered(s', Some(SentRange(s.nextUid, s.offset, data, eof)), s'.WantsMore())
  }

  /** Whether a queued retransmission is divided at this budget, and where. */
  predicate Divides(s: Sender, maxPayload: int) {
    && s.retransmit != []
    && var src := s.retransmit[0];
       var header := HeaderSize(s.id, src.offset, |src.data|);
       maxPayload < header + |src.data| && |src.data| > 0 && header + 1 < maxPayload
  }

  function CutAt(s: Sender, maxPayload: int): (n: nat)
    requires Divides(s, maxPayload)
    ensures 1 <= n < |s.retransmit[0].data|
  {
    maxPayload - HeaderSize(s.id, s.retransmit[0].offset, |s.retransmit[0].data|)
  }

  function Trigger(s: Sender, maxPayload: int): Triggered {
    if s.retransmit == [] then Fresh(s, maxPayload)
    else
      var src := s.retransmit[0];
      var popped := s.(retransmit := s.retransmit[1..]);
      if HeaderSize(s.id, src.offset, |src.data|) + |src.data| <= maxPayload then
        Triggered(popped, Some(src), popped.WantsMore())
      else if Divides(s, maxPayload) then
        var n := CutAt(s, maxPayload);
        var s' := Split(popped, src, n);
        Triggered(s', Some(SplitHead(popped, src, n)), s'.WantsMore())
      else
        Fresh(popped.(retransmit := Pushed(popped.retransmit, src)), maxPayload)
  }

  datatype AppendOutcome = Appended | Closed | BufferFull

  /** AppendDataContext up to the point where it would block. */
  function AppendResult(s: Sender): AppendOutcome {
    if s.signalEOF || s.cancelRequested then Closed
    else if s.dataInBuffer - s.offset >= BUFFER_LIMIT then BufferFull
    else Appended
  }

  function Append(s: Sender, chunks: seq<seq<byte>>, eof: bool): Sender {
    if AppendResult(s) != Appended then s
    else s.(inputBuffer := s.inputBuffer + chunks,
            dataInBuffer := s.dataInBuffer + |Flatten(chunks)|,
            signalEOF := s.signalEOF || eof)
  }

  function Acked(s: Sender, x: SentRange): Sender {
    s.(sentRanges := Without(s.sentRanges, x))
  }

  function Lost(s: Sender, x: SentRange): Sender {
    s.(retransmit := Pushed(s.retransmit, x))
  }

  function UpdateWindow(s: Sender, size: int): Sender {
    if size > s.window then s.(window := size) else s
  }

  lemma {:induction false} WithoutMembers(ranges: seq<SentRange>, x: SentRange)
    ensures forall y :: y in Without(ranges, x) <==> y in ranges && y != x
  {
    if ranges != [] {
      WithoutMembers(ranges[1..], x);
    }
  }

  lemma {:induction false} WithoutDistinct(ranges: seq<SentRange>, x: SentRange)
    requires NoDuplicates(ranges)
    ensures NoDuplicates(Without(ranges, x))
  {
    if ranges != [] {
      var rest := Without(ranges[1..], x);
      WithoutDistinct(ranges[1..], x);
      WithoutMembers(ranges[1..], x);
      assert ranges[0] !in ranges[1..];
      assert forall i :: 0 <= i < |rest| ==> rest[i] in ranges[1..];
    }
  }

  lemma {:induction false} WithoutAbsent(ranges: seq<SentRange>, x: SentRange)
    requires x !in ranges
    ensures Without(ranges, x) == ranges
  {
    if ranges != [] {
      WithoutAbsent(ranges[1..], x);
    }
  }

  lemma {:induction false} WithoutSnoc(ranges: seq<SentRange>, y: SentRange, x: SentRange)
    ensures Without(ranges + [y], x) == Without(ranges, x) + (if y == x then [] else [y])
  {
    if ranges == [] {
      assert [y][1..] == [];
    } else {
      assert (ranges + [y])[1..] == ranges[1..] + [y];
      WithoutSnoc(ranges[1..], y, x);
    }
  }

  lemma ReplacedMembers(ranges: seq<SentRange>, src: SentRange, frags: seq<SentRange>)
    requires NoDuplicates(ranges)
    ensures forall y :: y in Replaced(ranges, src, frags) <==> (y in ranges && y != src) || y in frags
  {
  }

  /** flowController. */
  class FlowController {
    var windowSize: int
    var sentSize: int

    constructor (window: int)
      ensures windowSize == window && sentSize == 0
    {
      windowSize := window;
      sentSize := 0;
    }

    method RecordSend(size: int)
      modifies this
      ensures sentSize == old(sentSize) + size && windowSize == old(windowSize)
    {
      sentSize := sentSize + size;
    }

    method UpdateWindow(size: int) returns (grew: bool)
      modifies this
      ensures grew <==> size > old(windowSize)
      ensures windowSize == Max(size, old(windowSize)) && sentSize == old(sentSize)
    {
      if size > windowSize {
        windowSize := size;
        return true;
      }
      return false;
    }
  }

  class SendStream {
    const id: nat
    const flow: FlowController
    const retransmitQueue: TriggerQueue<SentRange>
    const sendTrigger: TriggerQueue<nat>
    var inputBuffer: seq<seq<byte>>
    var dataInBuffer: nat
    var offset: nat
    var signalEOF: bool
    var cancelRequested: bool
    var eofSent: bool
    var pendingOpen: bool
    var sentRanges: seq<SentRange>
    var nextUid: nat

    ghost predicate Valid()
      reads this, flow, retransmitQueue, sendTrigger
    {
      && retransmitQueue as object != sendTrigger as object
      && retransmitQueue.Valid() && sendTrigger.Valid()
      && NoDuplicates(sentRanges)
      && forall x :: x in sentRanges ==> x.uid < nextUid
    }

    ghost function View(): Sender
      reads this, flow, retransmitQueue
    {
      Sender(id, inputBuffer, dataInBuffer, offset, signalEOF, cancelRequested, eofSent, pendingOpen,
             sentRanges, retransmitQueue.queue, flow.windowSize, flow.sentSize, nextUid)
    }

    constructor (id: nat, window: nat, open: bool, trigger: TriggerQueue<nat>)
      requires trigger.Valid()
      ensures Valid() && View() == NewSender(id, window, open) && sendTrigger == trigger
      ensures fresh(flow) && fresh(retransmitQueue)
    {
      this.id := id;
      flow := new FlowController(window);
      retransmitQueue := new TriggerQueue<SentRange>();
      sendTrigger := trigger;
      inputBuffer, dataInBuffer, offset := [], 0, 0;
      signalEOF, cancelRequested, eofSent, pendingOpen := false, false, false, open;
      sentRanges, nextUid := [], 0;
    }

    method Completed() returns (r: bool)
      requires Valid()
      ensures r <==> View().Completed()
    {
      r := eofSent && |sentRanges| == 0;
    }

    method AppendData(eof: bool, chunks: seq<seq<byte>>) returns (r: AppendOutcome)
      requires Valid()
      modifies this, sendTrigger
      ensures Valid() && r == AppendResult(old(View()))
      ensures View() == Append(old(View()), chunks, eof)
      ensures sendTrigger.queue ==
              if r == Appended && (chunks != [] || eof) then Pushed(old(sendTrigger.queue), id)
              else old(sendTrigger.queue)
    {
      if signalEOF || cancelRequested {
        return Closed;
      }
      if dataInBuffer - offset >= BUFFER_LIMIT {
        return BufferFull;
      }
      var changed := false;
      if |chunks| > 0 {
        inputBuffer := inputBuffer + chunks;
        var i := 0;
        while i < |chunks|
          invariant 0 <= i <= |chunks|
          invariant dataInBuffer == old(dataInBuffer) + |Flatten(chunks[..i])|
          invariant Valid() && inputBuffer == old(inputBuffer) + chunks
          invariant View() == old(View()).(inputBuffer := inputBuffer, dataInBuffer := dataInBuffer)
          invariant sendTrigger.queue == old(sendTrigger.queue)
        {
          assert chunks[..i + 1] == chunks[..i] + [chunks[i]];
          FlattenAppend(chunks[..i], [chunks[i]]);
          assert Flatten([chunks[i]]) == chunks[i];
          dataInBuffer := dataInBuffer + |chunks[i]|;
          i := i + 1;
        }
        assert chunks[..i] == chunks;
        changed := true;
      } else {
        assert old(inputBuffer) + chunks == old(inputBuffer);
      }
      if eof {
        signalEOF := true;
        changed := true;
      }
      if changed {
        sendTrigger.Push(id);
      }
      r := Appended;
    }

    method Close()
      requires Valid()
      modifies this, sendTrigger
      ensures Valid() && View() == old(View()).(signalEOF := true)
      ensures sendTrigger.queue == Pushed(old(sendTrigger.queue), id)
    {
      signalEOF := true;
      sendTrigger.Push(id);
    }

    method OnCancel()
      requires Valid()
      modifies this, sendTrigger
      ensures Valid() && View() == old(View()).(cancelRequested := true)
      ensures sendTrigger.queue == Pushed(old(sendTrigger.queue), id)
    {
      cancelRequested := true;
      sendTrigger.Push(id);
    }

    method UpdateFlowWindow(size: int)
      requires Valid()
      modifies flow, sendTrigger
      ensures Valid() && View() == UpdateWindow(old(View()), size)
      ensures sendTrigger.queue ==
              if size > old(flow.windowSize) then Pushed(old(sendTrigger.queue), id) else old(sendTrigger.queue)
    {
      var grew := flow.UpdateWindow(size);
      if grew {
        sendTrigger.Push(id);
      }
    }

    method ReadChunk(maxSize: nat) returns (buffer: seq<byte>, isEOF: bool)
      requires Valid()
      modifies this`inputBuffer
      ensures buffer == ChunkData(old(View()), maxSize)
      ensures isEOF == ChunkEof(old(View()), maxSize)
      ensures Valid() && View() == old(View()).(inputBuffer := ChunkRest(old(View()), maxSize))
    {
      buffer := [];
      if cancelRequested && !eofSent {
        return buffer, true;
      }
      ghost var all := Flatten(inputBuffer);
      while |inputBuffer| > 0
        invariant |buffer| <= maxSize
        invariant all == buffer + Flatten(inputBuffer)
        invariant Rest(old(inputBuffer), maxSize) == Rest(inputBuffer, maxSize - |buffer|)
        decreases |inputBuffer|
      {
        var chunk := inputBuffer[0];
        if |buffer| + |chunk| > maxSize {
          var room := maxSize - |buffer|;
          inputBuffer := [chunk[room..]] + inputBuffer[1..];
          return buffer + chunk[..room], false;
        }
        buffer := buffer + chunk;
        inputBuffer := inputBuffer[1..];
      }
      isEOF := signalEOF;
    }

    method ReplaceSentRange(src: SentRange, frags: seq<SentRange>)
      requires Valid()
      modifies this`sentRanges
      ensures sentRanges == Replaced(old(sentRanges), src, frags)
    {
      var i := 0;
      while i < |sentRanges|
        invariant 0 <= i <= |sentRanges|
        invariant sentRanges == old(sentRanges)
        invariant forall k :: 0 <= k < i ==> sentRanges[k] != src
      {
        if sentRanges[i] == src {
          IndexOfFirst(sentRanges, src, i);
          sentRanges := sentRanges[..i] + frags + sentRanges[i + 1..];
          return;
        }
        i := i + 1;
      }
      sentRanges := sentRanges + frags;
    }

    method SplitSentRange(src: SentRange, maxPayload: int) returns (head: SentRange, tail: SentRange)
      requires Valid()
      requires 0 <= maxPayload - HeaderSize(id, src.offset, |src.data|)
      modifies this
      ensures Valid()
      ensures var n := Min(maxPayload - HeaderSize(id, src.offset, |src.data|), |src.data|);
              && head == SplitHead(old(View()), src, n)
              && tail == SplitTail(old(View()), src, n)
              && View() == old(View()).(sentRanges := Replaced(old(sentRanges), src, [head, tail]),
                                        nextUid := old(nextUid) + 2)
    {
      var n := maxPayload - HeaderSize(id, src.offset, |src.data|);
      if n > |src.data| {
        n := |src.data|;
      }
      head := SentRange(nextUid, src.offset, src.data[..n], false);
      tail := SentRange(nextUid + 1, src.offset + n, src.data[n..], src.eof);
      nextUid := nextUid + 2;
      ReplaceSentRange(src, [head, tail]);
      ReplacedDistinct(old(sentRanges), src, head, tail, old(nextUid));
    }

    method RequeueIfMore()
      requires Valid()
      modifies sendTrigger
      ensures Valid()
      ensures sendTrigger.queue ==
              if View().WantsMore() then Pushed(old(sendTrigger.queue), id) else old(sendTrigger.queue)
    {
      if (flow.windowSize - flow.sentSize > 0 && |inputBuffer| > 0) || (!eofSent && signalEOF) {
        sendTrigger.Push(id);
      }
    }

    method TriggerPacket(maxPayload: int) returns (r: Option<SentRange>)
      requires Valid()
      modifies this, flow, retransmitQueue, sendTrigger
      ensures Valid()
      ensures var t := Trigger(old(View()), maxPayload);
              && View() == t.s && r == t.out
              && sendTrigger.queue ==
                 if t.push then Pushed(old(sendTrigger.queue), id) else old(sendTrigger.queue)
    {
      var popped := retransmitQueue.Pop();
      if popped.Some? {
        var src := popped.value;
        var headerSize := HeaderSize(id, src.offset, |src.data|);
        if headerSize + |src.data| <= maxPayload {
          RequeueIfMore();
          return Some(src);
        } else if |src.data| == 0 || maxPayload <= headerSize + 1 {
          retransmitQueue.Push(src);
        } else {
          assert Divides(old(View()), maxPayload);
          var head, tail := SplitSentRange(src, maxPayload);
          retransmitQueue.Push(tail);
          RequeueIfMore();
          return Some(head);
        }
      }
      r := TriggerFresh(maxPayload);
    }

    method TriggerFresh(maxPayload: int) returns (r: Option<SentRange>)
      requires Valid()
      modifies this, flow, sendTrigger
      ensures Valid()
      ensures var t := Fresh(old(View()), maxPayload);
              && View() == t.s && r == t.out
              && sendTrigger.queue ==
                 if t.push then Pushed(old(sendTrigger.queue), id) else old(sendTrigger.queue)
    {
      if eofSent {
        return None;
      }
      var headerSize := HeaderSize(id, offset, if maxPayload < 0 then 0 else maxPayload);
      if maxPayload <= headerSize {
        return None;
      }
      var data, eof := TakeChunk(maxPayload - headerSize);
      r := HandOver(data, eof);
    }

    /** An empty chunk is handed over only as an open marker. */
    method HandOver(data: seq<byte>, eof: bool) returns (r: Option<SentRange>)
      requires Valid()
      modifies this, flow, sendTrigger
      ensures Valid()
      ensures var s := old(View());
              var t := Tracked(s.(pendingOpen := s.pendingOpen && !(data == [] && !eof)), data, eof);
              if data == [] && !eof && !s.pendingOpen then
                View() == s && r == None && sendTrigger.queue == old(sendTrigger.queue)
              else
                && View() == t && r == Some(SentRange(s.nextUid, s.offset, data, eof))
                && sendTrigger.queue == if t.WantsMore() then Pushed(old(sendTrigger.queue), id) else old(sendTrigger.queue)
    {
      if |data| == 0 && !eof {
        if !pendingOpen {
          return None;
        }
        pendingOpen := false;
      }
      var sentRange := Track(data, eof);
      RequeueIfMore();
      r := Some(sentRange);
    }

    /** Nothing is read while the flow window is closed. */
    method TakeChunk(room: nat) returns (data: seq<byte>, eof: bool)
      requires Valid()
      modifies this`inputBuffer
      ensures Valid() && data == FreshData(old(View()), room) && eof == FreshEof(old(View()), room)
      ensures View() == old(View()).(inputBuffer := FreshRest(old(View()), room))
    {
      var sendable := flow.windowSize - flow.sentSize;
      data, eof := [], false;
      if sendable > 0 {
        var chunkSize := Min(room, sendable);
        data, eof := ReadChunk(chunkSize);
      }
    }

    /** The end of triggerPacket: the new range becomes tracked and uses up window. */
    method Track(data: seq<byte>, eof: bool) returns (sentRange: SentRange)
      requires Valid()
      modifies this, flow
      ensures Valid() && sentRange == SentRange(old(nextUid), old(offset), data, eof)
      ensures View() == Tracked(old(View()), data, eof)
      ensures sendTrigger.queue == old(sendTrigger.queue)
    {
      sentRange := SentRange(nextUid, offset, data, eof);
      nextUid := nextUid + 1;
      offset := offset + |data|;
      sentRanges := sentRanges + [sentRange];
      if eof {
        eofSent := true;
      }
      flow.RecordSend(|data|);
    }

    method OnACK(pkt: SentRange)
      requires Valid()
      modifies this`sentRanges, sendTrigger
      ensures Valid() && View() == Acked(old(View()), pkt)
      ensures sendTrigger.queue == Pushed(old(sendTrigger.queue), id)
    {
      if |sentRanges| > 0 && sentRanges[0] == pkt {
        WithoutAbsent(sentRanges[1..], pkt);
        sentRanges := sentRanges[1..];
        sendTrigger.Push(id);
        return;
      }
      var kept := [];
      var i := 0;
      while i < |sentRanges|
        invariant 0 <= i <= |sentRanges| && sentRanges == old(sentRanges)
        invariant Valid() && sendTrigger.queue == old(sendTrigger.queue)
        invariant kept == Without(sentRanges[..i], pkt)
        invariant NoDuplicates(kept)
        invariant forall k :: 0 <= k < |kept| ==> kept[k] in sentRanges[..i]
      {
        assert sentRanges[..i + 1] == sentRanges[..i] + [sentRanges[i]];
        WithoutSnoc(sentRanges[..i], sentRanges[i], pkt);
        if sentRanges[i] != pkt {
          kept := kept + [sentRanges[i]];
        }
        i := i + 1;
      }
      assert sentRanges[..i] == sentRanges;
      sentRanges := kept;
      sendTrigger.Push(id);
    }

    method OnLost(pkt: SentRange)
      requires Valid()
      modifies retransmitQueue, sendTrigger
      ensures Valid() && View() == Lost(old(View()), pkt)
      ensures sendTrigger.queue == Pushed(old(sendTrigger.queue), id)
    {
      retransmitQueue.Push(pkt);
      sendTrigger.Push(id);
    }
  }

  /** Fragments with new identities keep the tracked list free of duplicates. */
  lemma ReplacedDistinct(ranges: seq<SentRange>, src: SentRange, head: SentRange, tail: SentRange, uid: nat)
    requires NoDuplicates(ranges)
    requires forall k :: 0 <= k < |ranges| ==> ranges[k].uid < uid
    requires head.uid == uid && tail.uid == uid + 1
    ensures NoDuplicates(Replaced(ranges, src, [head, tail]))
    ensures forall x :: x in Replaced(ranges, src, [head, tail]) ==> x.uid < uid + 2
  {
  }
}
