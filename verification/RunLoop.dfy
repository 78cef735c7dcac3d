/** The run loop of trsf/conn.go as an object: each method is one stretch of a pass between two
    points where the application may act, and is proved against the step of module Connections that
    it takes. Send halves are values here, indexed by the object they stand for, and a receive half
    is that object and whether its EOF was read. */
module RunLoops {
  import opened Common
  import opened TriggerQueues
  import opened SendStreams
  import opened AckHandlers
  import opened Connections
  import AckWire
  import HandlerRuns
  import Varints

  class RunLoop {
    const isServer: bool
    var streams: map<Half, Sender>
    var sendStreams: map<nat, Half>
    var recvStreams: set<nat>
    var congestionBlocked: map<nat, Half>
    var cwnd: int
    var nextPn: nat
    var place: Place
    var ended: set<Half>
    const sendTrigger: TriggerQueue<Half>
    const cancelTrigger: TriggerQueue<Half>
    const updateWindow: TriggerQueue<Half>
    const sh: SentPacketHandler
    ghost var acknowledged: set<(Half, SentRange)>
    ghost var askedCancel: map<Half, nat>
    ghost var askedUpdate: map<Half, nat>

    ghost predicate Valid()
      reads this, sendTrigger, cancelTrigger, updateWindow
    {
      && sendTrigger.Valid() && cancelTrigger.Valid() && updateWindow.Valid()
      && sendTrigger != cancelTrigger && sendTrigger != updateWindow && cancelTrigger != updateWindow
    }

    ghost function Streams(): Flow
      reads this, sendTrigger
    {
      Flow(streams, sendTrigger.queue, acknowledged)
    }

    ghost function Wanted(): Requests
      reads this, cancelTrigger, updateWindow
    {
      Requests(cancelTrigger.queue, updateWindow.queue, ended, askedCancel, askedUpdate)
    }

    ghost function View(): Conn
      reads this, sendTrigger, cancelTrigger, updateWindow, sh, sh.rtt
    {
      Conn(isServer, Streams(), Wanted(), sendStreams, recvStreams, sh.View(), congestionBlocked, cwnd, nextPn, place)
    }

    constructor (isServer: bool, sh: SentPacketHandler, cwnd: int)
      ensures Valid() && View() == Init(isServer, sh.View(), cwnd) && this.sh == sh
      ensures fresh(sendTrigger) && fresh(cancelTrigger) && fresh(updateWindow)
    {
      this.isServer, this.sh, this.cwnd := isServer, sh, cwnd;
      streams, sendStreams, recvStreams, congestionBlocked, nextPn, place, acknowledged := map[], map[], {}, map[], 0, Top, {};
      ended, askedCancel, askedUpdate := {}, map[], map[];
      sendTrigger := new TriggerQueue<Half>();
      cancelTrigger := new TriggerQueue<Half>();
      updateWindow := new TriggerQueue<Half>();
    }

    // -------------------------------------------------------------- receive streams ask

    method AskForCancel(half: Half)
      requires Valid()
      modifies this`askedCancel, cancelTrigger
      ensures Valid() && View() == Step(old(View()), RequestCancel(half))
    {
      cancelTrigger.Push(half);
      askedCancel := askedCancel[half := nextPn];
    }

    method AskForUpdate(half: Half)
      requires Valid()
      modifies this`askedUpdate, updateWindow
      ensures Valid() && View() == Step(old(View()), RequestUpdate(half))
    {
      updateWindow.Push(half);
      askedUpdate := askedUpdate[half := nextPn];
    }

    // -------------------------------------------------------------- the tables

    /** A data frame looks up the receive half of its number. For a number of the peer a missing one is
        made, and with it a send half that takes the place of whatever the table has; `serial` tells
        the new object from older ones. */
    method GetRecvStream(id: nat, serial: nat)
      requires Valid() && place.Top? && Unused(Streams(), Half(id, serial))
      modifies this`streams, this`sendStreams, this`recvStreams
      ensures Valid() && View() == Step(old(View()), DataFrame(id, serial))
    {
      if id !in recvStreams && isServer == (id % 2 == 1) {
        recvStreams := recvStreams + {id};
        if Bidirectional(id) {
          streams := streams[Half(id, serial) := NewSender(id, INITIAL_FLOW_WINDOW, false)];
          sendStreams := sendStreams[id := Half(id, serial)];
        }
      }
    }

    /** The frame reaches whatever the table has under its number. */
    method HandleWindowFrame(id: nat, limit: int)
      requires Valid() && place.Top?
      modifies this`streams, sendTrigger
      ensures Valid() && View() == Step(old(View()), WindowFrame(id, limit))
    {
      if id in sendStreams && sendStreams[id] in streams {
        var half := sendStreams[id];
        if limit > streams[half].window {
          streams := streams[half := UpdateWindow(streams[half], limit)];
          sendTrigger.Push(half);
        }
      }
    }

    method HandleCancelFrame(id: nat)
      requires Valid() && place.Top?
      modifies this`streams, sendTrigger
      ensures Valid() && View() == Step(old(View()), CancelFrame(id))
    {
      if id in sendStreams && sendStreams[id] in streams {
        var half := sendStreams[id];
        streams := streams[half := streams[half].(cancelRequested := true)];
        sendTrigger.Push(half);
      }
    }

    // -------------------------------------------------------------- top of a pass

    /** Parked streams go back to the trigger in whatever order the map yields them. */
    method DrainBlocked() returns (ghost order: seq<Half>)
      requires Valid() && place.Top? && View().CanSend()
      modifies this`congestionBlocked, sendTrigger
      ensures Valid() && View() == Step(old(View()), Drain(order))
    {
      order := UnparkAll();
    }

    method UnparkAll() returns (ghost order: seq<Half>)
      requires Valid()
      modifies this`congestionBlocked, sendTrigger
      ensures Valid() && congestionBlocked == map[] && (set half | half in order) == old(congestionBlocked).Values
      ensures sendTrigger.queue == PushAll(old(sendTrigger.queue), order)
    {
      order := [];
      while congestionBlocked != map[]
        invariant Valid()
        invariant (set half | half in order) + congestionBlocked.Values == old(congestionBlocked).Values
        invariant sendTrigger.queue == PushAll(old(sendTrigger.queue), order)
        decreases |congestionBlocked|
      {
        var id :| id in congestionBlocked;
        var half := congestionBlocked[id];
        ghost var was := congestionBlocked;
        congestionBlocked := congestionBlocked - {id};
        TakesOne(was, id);
        PushAllSnoc(old(sendTrigger.queue), order, half);
        sendTrigger.Push(half);
        assert (set x | x in order + [half]) == (set x | x in order) + {half};
        order := order + [half];
      }
    }

    /** The callbacks that a handler call ran for the packets it took out. */
    method RunOnACK(ps: seq<Packet>)
      requires Valid()
      modifies this`streams, this`acknowledged, this`askedCancel, this`askedUpdate, sendTrigger
      ensures Valid() && Streams() == AckAll(old(Streams()), ps) && Wanted() == AckRequests(old(Wanted()), ps)
    {
      var i := 0;
      while i < |ps|
        invariant 0 <= i <= |ps| && Valid()
        invariant AckAll(Streams(), ps[i..]) == AckAll(old(Streams()), ps)
        invariant AckRequests(Wanted(), ps[i..]) == AckRequests(old(Wanted()), ps)
      {
        assert ps[i..][1..] == ps[i + 1..];
        match ps[i].link {
          case Data(half, x) =>
            if half in streams {
              streams := streams[half := Acked(streams[half], x)];
              acknowledged := acknowledged + {(half, x)};
              sendTrigger.Push(half);
            }
          case CancelStream(half) => askedCancel := Answered(askedCancel, half, ps[i].pn);
          case WindowUpdate(half, _) => askedUpdate := Answered(askedUpdate, half, ps[i].pn);
          case _ =>
        }
        i := i + 1;
      }
    }

    method RunOnLost(ps: seq<Packet>)
      requires Valid()
      modifies this`streams, sendTrigger, cancelTrigger, updateWindow
      ensures Valid() && Streams() == LoseAll(old(Streams()), ps) && Wanted() == LoseRequests(old(Wanted()), ps)
    {
      var i := 0;
      while i < |ps|
        invariant 0 <= i <= |ps| && Valid()
        invariant LoseAll(Streams(), ps[i..]) == LoseAll(old(Streams()), ps)
        invariant LoseRequests(Wanted(), ps[i..]) == LoseRequests(old(Wanted()), ps)
      {
        assert ps[i..][1..] == ps[i + 1..];
        RunOneOnLost(ps[i]);
        i := i + 1;
      }
    }

    method RunOneOnLost(p: Packet)
      requires Valid()
      modifies this`streams, sendTrigger, cancelTrigger, updateWindow
      ensures Valid() && Streams() == LoseOne(old(Streams()), p) && Wanted() == LoseRequest(old(Wanted()), p)
    {
      match p.link {
        case Data(half, x) =>
          if half in streams {
            streams := streams[half := Lost(streams[half], x)];
            sendTrigger.Push(half);
          }
        case CancelStream(half) =>
          if half !in ended {
            cancelTrigger.Push(half);
          }
        case WindowUpdate(half, _) =>
          if half !in ended {
            updateWindow.Push(half);
          }
        case _ =>
      }
    }

    method HandleAck(now: int, rs: seq<AckWire.Range>, delay: int)
      requires Valid() && place.Top? && rs != []
      modifies this`streams, this`acknowledged, this`askedCancel, this`askedUpdate, sendTrigger, cancelTrigger, updateWindow, sh, sh.rtt
      ensures Valid() && View() == Step(old(View()), AckFrame(now, rs, delay))
    {
      var acked, lost, ackedBytes, lostBytes, failed := sh.Receive(now, rs, delay);
      ghost var o := Outcome(sh.View(), acked, lost, None, ackedBytes, lostBytes, failed);
      RunCallbacks(acked, lost);
      assert View() == Received(old(View()), o);
    }

    method RunCallbacks(acked: seq<Packet>, lost: seq<Packet>)
      requires Valid()
      modifies this`streams, this`acknowledged, this`askedCancel, this`askedUpdate, sendTrigger, cancelTrigger, updateWindow
      ensures Valid() && Streams() == LoseAll(AckAll(old(Streams()), acked), lost)
      ensures Wanted() == LoseRequests(AckRequests(old(Wanted()), acked), lost)
    {
      RunOnACK(acked);
      RunOnLost(lost);
    }

    /** The timer half of a wake. */
    method HandleTimers(now: int)
      requires Valid() && place.Top?
      modifies this`streams, this`place, sendTrigger, cancelTrigger, updateWindow, sh
      ensures Valid() && View() == Step(old(View()), Wake(now))
    {
      var isPTO := false;
      if sh.multiModalTimer.Some? && now > sh.multiModalTimer.value {
        isPTO := FireTimer(now);
      }
      place := Awake(isPTO);
    }

    method FireTimer(now: int) returns (isPTO: bool)
      requires Valid()
      modifies this`streams, sendTrigger, cancelTrigger, updateWindow, sh
      ensures var o := OnTimeout(old(sh.View()), now);
              Valid() && View() == Received(old(View()), o) && isPTO == o.resent.Some?
    {
      var lost, resent, lostBytes, failed := sh.Timeout(now);
      RunOnLost(lost);
      isPTO := resent.Some?;
      if isPTO {
        RunOneOnLost(resent.value);
      }
    }

    // -------------------------------------------------------------- the send half

    method PopAll() returns (stream: Option<Half>, cancel: Option<Half>, update: Option<Half>)
      requires Valid()
      modifies sendTrigger, cancelTrigger, updateWindow
      ensures Valid()
      ensures stream == Head(old(sendTrigger.queue)) && sendTrigger.queue == Tail(old(sendTrigger.queue))
      ensures cancel == Head(old(cancelTrigger.queue)) && cancelTrigger.queue == Tail(old(cancelTrigger.queue))
      ensures update == Head(old(updateWindow.queue)) && updateWindow.queue == Tail(old(updateWindow.queue))
    {
      update := updateWindow.Pop();
      cancel := cancelTrigger.Pop();
      stream := sendTrigger.Pop();
    }

    method DropCompleted(popped: Option<Half>) returns (stream: Option<Half>)
      modifies this`sendStreams
      ensures var gone := popped.Some? && popped.value in streams && streams[popped.value].Completed();
              && stream == (if gone then None else popped)
              && sendStreams == if gone then old(sendStreams) - {popped.value.id} else old(sendStreams)
    {
      stream := popped;
      if popped.Some? && popped.value in streams {
        var s := streams[popped.value];
        if s.eofSent && |s.sentRanges| == 0 {
          sendStreams := sendStreams - {popped.value.id};
          stream := None;
        }
      }
    }

    method Pop()
      requires Valid() && place.Awake?
      modifies this`sendStreams, this`place, sendTrigger, cancelTrigger, updateWindow
      ensures Valid() && View() == Step(old(View()), PopStream)
    {
      var stream, cancel, update := PopAll();
      stream := DropCompleted(stream);
      place := Holding(stream, cancel, update, place.pto);
      assert View() == Popping(old(View()), old(place.pto));
    }

    /** What takes the slot of this pass: nothing while congestion forbids it, else a cancel, else a
        window update, else the popped stream. */
    method Choice(now: int, window: nat, mtu: int)
      requires Valid() && place.Holding?
      modifies this`streams, this`congestionBlocked, this`nextPn, this`place, sendTrigger, cancelTrigger, updateWindow, sh
      ensures Valid() && View() == Step(old(View()), Choose(now, window, mtu))
    {
      TakeSlot(now, window, mtu);
    }

    method TakeSlot(now: int, window: nat, mtu: int)
      requires Valid() && place.Holding?
      modifies this`streams, this`congestionBlocked, this`nextPn, this`place, sendTrigger, cancelTrigger, updateWindow, sh
      ensures Valid() && View() == Choosing(old(View()), now, window, mtu)
    {
      var stream, cancel, update := place.stream, place.cancel, place.update;
      if sh.bytesInFlight >= cwnd && !place.pto {
        Park(stream, cancel, update);
      } else if cancel.Some? && cancel.value !in ended {
        SendCancel(now, stream, cancel.value, update);
      } else if update.Some? && update.value !in ended {
        SendUpdate(now, stream, update.value, window);
      } else if stream.Some? {
        BuildPacket(stream.value, mtu);
      } else {
        place := Top;
      }
    }

    /** Hands a packet to the sent-packet handler and ends the pass. */
    method Dispatch(p: Packet)
      requires Valid()
      modifies this`nextPn, this`place, sh
      ensures Valid() && View() == Connections.Record(old(View()), p).(place := Top)
    {
      sh.RecordSent(p);
      nextPn := nextPn + 1;
      place := Top;
    }

    method Park(stream: Option<Half>, cancel: Option<Half>, update: Option<Half>)
      requires Valid()
      modifies this`congestionBlocked, this`place, cancelTrigger, updateWindow
      ensures Valid() && View() == Parking(old(View()), stream, cancel, update)
    {
      if cancel.Some? && cancel.value !in ended {
        cancelTrigger.Push(cancel.value);
      }
      if update.Some? && update.value !in ended {
        updateWindow.Push(update.value);
      }
      if stream.Some? {
        congestionBlocked := congestionBlocked[stream.value.id := stream.value];
      }
      place := Top;
    }

    method SendCancel(now: int, stream: Option<Half>, cancel: Half, update: Option<Half>)
      requires Valid()
      modifies this`nextPn, this`place, sendTrigger, updateWindow, sh
      ensures Valid() && View() == Cancelling(old(View()), stream, cancel, update, now)
    {
      Dispatch(ControlPacket(nextPn, now, CancelStream(cancel)));
      if Varints.EncodeVarint(cancel.id).Some? {
        if stream.Some? {
          sendTrigger.Push(stream.value);
        }
        if update.Some? {
          updateWindow.Push(update.value);
        }
      }
    }

    method SendUpdate(now: int, stream: Option<Half>, update: Half, window: nat)
      requires Valid()
      modifies this`nextPn, this`place, sendTrigger, sh
      ensures Valid() && View() == Updating(old(View()), stream, update, window, now)
    {
      Dispatch(ControlPacket(nextPn, now, WindowUpdate(update, window)));
      if Varints.EncodeVarint(update.id).Some? && Varints.EncodeVarint(window).Some? && stream.Some? {
        sendTrigger.Push(stream.value);
      }
    }

    method BuildPacket(half: Half, mtu: int)
      requires Valid()
      modifies this`streams, this`place, sendTrigger
      ensures Valid() && View() == Building(old(View()), half, mtu)
    {
      place := Top;
      if half in streams {
        var t := Trigger(streams[half], mtu - FIXED_OVERHEAD);
        streams := streams[half := t.s];
        if t.push {
          sendTrigger.Push(half);
        }
        if t.out.Some? {
          place := Built(half, t.out.value);
        }
      }
    }

    method RecordBuilt(now: int)
      requires Valid() && place.Built?
      modifies this`nextPn, this`place, sh
      ensures Valid() && View() == Step(old(View()), RecordSend(now))
    {
      Dispatch(DataPacket(nextPn, now, place.half, place.range));
    }

    method TrySendDatagram(now: int, length: nat, exempt: bool) returns (sent: bool)
      requires Valid() && place.Awake?
      modifies this`nextPn, this`place, sh
      ensures Valid() && View() == Step(old(View()), SendDatagram(now, length, exempt))
      ensures sent <==> exempt || old(View()).CanSend()
    {
      if !exempt && sh.bytesInFlight >= cwnd {
        return false;
      }
      Dispatch(DatagramPacket(nextPn, now, length, exempt));
      sent := true;
    }
  }

  lemma TakesOne(m: map<nat, Half>, id: nat)
    requires id in m
    ensures |m - {id}| < |m| && {m[id]} + (m - {id}).Values == m.Values
  {
    var rest := m - {id};
    assert m.Keys == rest.Keys + {id};
    assert |m| == |m.Keys| && |rest| == |rest.Keys|;
    forall half | half in m.Values ensures half in {m[id]} + rest.Values {
      var k :| k in m && m[k] == half;
      assert k != id ==> k in rest && rest[k] == half;
    }
  }

  lemma {:induction false} PushAllSnoc(q: seq<Half>, halves: seq<Half>, half: Half)
    ensures PushAll(q, halves + [half]) == Pushed(PushAll(q, halves), half)
    decreases |halves|
  {
    if halves == [] {
      assert [half][1..] == [] && halves + [half] == [half];
    } else {
      assert (halves + [half])[1..] == halves[1..] + [half];
      PushAllSnoc(Pushed(q, halves[0]), halves[1..], half);
    }
  }
}
