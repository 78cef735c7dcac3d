/** Reassembly: trsf/ordering.go and the flow-window half of trsf/recv_stream.go. */
module OrderingQueues {
  import opened Common
  import opened TriggerQueues

  datatype RecvData = RecvData(offset: nat, data: seq<byte>, eof: bool) {
    function End(): nat { offset + |data| }
    predicate Has(x: int) { offset <= x < End() }
  }

  datatype PushOutcome = Ignored | Inserted | Overlap | AfterEof

  /** A snapshot of one OrderingQueue. */
  datatype Queue = Queue(queue: seq<RecvData>, nextOffset: nat, eofReached: bool)

  /** The index of the first element at or above an offset. */
  function FirstAtOrAbove(q: seq<RecvData>, offset: nat): (i: nat)
    ensures i <= |q|
    ensures i < |q| ==> q[i].offset >= offset
    ensures forall k :: 0 <= k < i ==> q[k].offset < offset
  {
    if q == [] || q[0].offset >= offset then 0 else 1 + FirstAtOrAbove(q[1..], offset)
  }

  function PushResult(oq: Queue, d: RecvData): PushOutcome {
    var q := oq.queue;
    var i := FirstAtOrAbove(q, d.offset);
    if (d.data == [] && !d.eof) || oq.nextOffset > d.offset then Ignored
    else if i < |q| && q[i].offset == d.offset then Ignored
    else if i < |q| && d.End() > q[i].offset then Overlap
    else if i > 0 && q[i - 1].End() > d.offset then Overlap
    else if i == |q| && ((i > 0 && q[i - 1].eof) || oq.eofReached) then AfterEof
    else Inserted
  }

  function AfterPush(oq: Queue, d: RecvData): Queue {
    if PushResult(oq, d) != Inserted then oq
    else
      var i := FirstAtOrAbove(oq.queue, d.offset);
      oq.(queue := oq.queue[..i] + [d] + oq.queue[i..])
  }

  /** What a read takes: the bytes, the queue left, and whether the last whole chunk was EOF. */
  datatype Taken = Taken(bytes: seq<byte>, queue: seq<RecvData>, nextOffset: nat, eof: bool)

  function Take(got: seq<byte>, q: seq<RecvData>, next: nat, n: nat, eof: bool): Taken
    decreases |q|
  {
    if q == [] || q[0].offset != next || n == 0 then Taken(got, q, next, eof)
    else if n < |q[0].data| then
      Taken(got + q[0].data[..n], [RecvData(q[0].offset + n, q[0].data[n..], q[0].eof)] + q[1..], next + n, eof)
    else
      Take(got + q[0].data, q[1..], next + |q[0].data|, n - |q[0].data|, q[0].eof)
  }

  function ReadBytes(oq: Queue, n: nat): seq<byte> {
    if oq.eofReached then [] else Take([], oq.queue, oq.nextOffset, n, false).bytes
  }

  function ReadEof(oq: Queue, n: nat): bool {
    oq.eofReached || Take([], oq.queue, oq.nextOffset, n, false).eof
  }

  function AfterRead(oq: Queue, n: nat): Queue {
    if oq.eofReached then oq
    else
      var t := Take([], oq.queue, oq.nextOffset, n, false);
      Queue(t.queue, t.nextOffset, t.eof)
  }

  class OrderingQueue {
    var queue: seq<RecvData>
    var nextOffset: nat
    var eofReached: bool

    ghost function View(): Queue
      reads this
    {
      Queue(queue, nextOffset, eofReached)
    }

    constructor ()
      ensures View() == Queue([], 0, false)
    {
      queue, nextOffset, eofReached := [], 0, false;
    }

    method Push(d: RecvData) returns (r: PushOutcome)
      modifies this`queue
      ensures r == PushResult(old(View()), d)
      ensures View() == AfterPush(old(View()), d)
    {
      if |d.data| == 0 && !d.eof {
        return Ignored;
      }
      if nextOffset > d.offset {
        return Ignored;
      }
      var i := 0;
      while i < |queue|
        invariant 0 <= i <= |queue| && queue == old(queue)
        invariant forall k :: 0 <= k < i ==> queue[k].offset < d.offset
      {
        if d.offset == queue[i].offset {
          return Ignored;
        }
        if d.offset < queue[i].offset {
          if d.offset + |d.data| > queue[i].offset {
            return Overlap;
          }
          if i > 0 {
            var prev := queue[i - 1];
            if prev.offset + |prev.data| > d.offset {
              return Overlap;
            }
          }
          queue := queue[..i] + [d] + queue[i..];
          return Inserted;
        }
        i := i + 1;
      }
      if |queue| > 0 {
        var last := queue[|queue| - 1];
        if last.offset + |last.data| > d.offset {
          return Overlap;
        }
        if last.eof {
          return AfterEof;
        }
      }
      if eofReached {
        return AfterEof;
      }
      assert queue + [d] == queue[..i] + [d] + queue[i..];
      queue := queue + [d];
      r := Inserted;
    }

    method ReadDirect(maxN: nat) returns (result: seq<byte>, eof: bool)
      modifies this
      ensures result == ReadBytes(old(View()), maxN) && eof == ReadEof(old(View()), maxN)
      ensures View() == AfterRead(old(View()), maxN)
    {
      if eofReached {
        return [], true;
      }
      if |queue| == 0 || queue[0].offset != nextOffset {
        return [], false;
      }
      result, eof := [], false;
      var n: nat := maxN;
      ghost var all := Take([], queue, nextOffset, n, false);
      while |queue| > 0 && queue[0].offset == nextOffset && n > 0
        invariant all == Take(result, queue, nextOffset, n, eof)
        invariant !eofReached
        decreases |queue|
      {
        var data := queue[0];
        var toRead := |data.data|;
        if toRead > n {
          toRead := n;
        }
        result := result + data.data[..toRead];
        nextOffset := nextOffset + toRead;
        n := n - toRead;
        if toRead < |data.data| {
          queue := [RecvData(data.offset + toRead, data.data[toRead..], data.eof)] + queue[1..];
          assert all == Taken(result, queue, nextOffset, eof);
          break;
        } else {
          assert data.data[..toRead] == data.data;
          eof := data.eof;
          queue := queue[1..];
        }
      }
      assert all == Taken(result, queue, nextOffset, eof);
      eofReached := eof;
    }
  }

  /** A snapshot of one recvStream: the queue and the two window marks. */
  datatype Receiver = Receiver(oq: Queue, initialWindow: nat, recvWindow: nat, ackedWindow: nat)

  function NewReceiver(window: nat): Receiver {
    Receiver(Queue([], 0, false), window, window, window)
  }

  /** ProcessChunk. */
  function Process(r: Receiver, d: RecvData): Receiver {
    if r.oq.eofReached then r else r.(oq := AfterPush(r.oq, d))
  }

  function ReadWindow(r: Receiver, n: nat): Receiver {
    r.(oq := AfterRead(r.oq, n), recvWindow := r.recvWindow + |ReadBytes(r.oq, n)|)
  }

  /** Whether a read asks for a window update. */
  predicate WantsUpdate(r: Receiver, n: nat) {
    ReadBytes(r.oq, n) != [] && ReadWindow(r, n).recvWindow - r.ackedWindow >= r.initialWindow / 2
  }

  class RecvStream {
    const id: nat
    const oq: OrderingQueue
    const updateWindow: TriggerQueue<nat>
    const initialWindow: nat
    var recvWindow: nat
    var ackedWindow: nat

    ghost function View(): Receiver
      reads this, oq
    {
      Receiver(oq.View(), initialWindow, recvWindow, ackedWindow)
    }

    constructor (id: nat, window: nat, updates: TriggerQueue<nat>)
      ensures View() == NewReceiver(window) && updateWindow == updates && fresh(oq)
    {
      this.id := id;
      oq := new OrderingQueue();
      updateWindow := updates;
      initialWindow, recvWindow, ackedWindow := window, window, window;
    }

    method ProcessChunk(offset: nat, data: seq<byte>, eof: bool) returns (ok: bool)
      modifies oq
      ensures View() == Process(old(View()), RecvData(offset, data, eof))
      ensures ok <==> !old(oq.eofReached) &&
                      PushResult(old(oq.View()), RecvData(offset, data, eof)) in {Ignored, Inserted}
    {
      if oq.eofReached {
        return false;
      }
      var r := oq.Push(RecvData(offset, data, eof));
      ok := r == Ignored || r == Inserted;
    }

    /** One pass of ReadDirectContext; an empty result without EOF is where it blocks. */
    method ReadDirect(maxN: nat) returns (data: seq<byte>, eof: bool)
      requires updateWindow.Valid()
      modifies this, oq, updateWindow
      ensures updateWindow.Valid()
      ensures View() == ReadWindow(old(View()), maxN)
      ensures data == ReadBytes(old(oq.View()), maxN) && eof == ReadEof(old(oq.View()), maxN)
      ensures updateWindow.queue == if WantsUpdate(old(View()), maxN) then Pushed(old(updateWindow.queue), id)
                                    else old(updateWindow.queue)
    {
      data, eof := oq.ReadDirect(maxN);
      if |data| > 0 {
        recvWindow := recvWindow + |data|;
        if recvWindow - ackedWindow >= initialWindow / 2 {
          updateWindow.Push(id);
        }
      }
    }

    method OnWindowAck(size: nat)
      modifies this`ackedWindow
      ensures View() == old(View()).(ackedWindow := size)
    {
      ackedWindow := size;
    }
  }
}
