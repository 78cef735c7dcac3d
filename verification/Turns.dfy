/** Whose turn it is: the three queues of the run loop serve in order of arrival, and a pass sends the
    most urgent of what it popped and puts the rest back. */
module Turns {
  import opened Common
  import opened TriggerQueues
  import opened SendStreams
  import opened AckHandlers
  import opened Connections
  import NoOrphans
  import HandlerRuns
  import Rtts
  import Varints

  datatype Kind = Streams | Cancels | Updates

  function Queue(c: Conn, k: Kind): seq<Half> {
    match k
    case Streams => c.f.trigger
    case Cancels => c.q.cancels
    case Updates => c.q.updates
  }

  /** The event takes one element off each queue. */
  predicate Pops(c: Conn, e: Event) { e.PopStream? && c.place.Awake? }

  // ---------------------------------------------------------------- one step

  lemma {:induction false} CallbacksAppend(f: Flow, ps: seq<Packet>)
    ensures f.trigger <= AckAll(f, ps).trigger && f.trigger <= LoseAll(f, ps).trigger
    decreases |ps|
  {
    if ps != [] {
      CallbacksAppend(AckOne(f, ps[0]), ps[1..]);
      CallbacksAppend(LoseOne(f, ps[0]), ps[1..]);
    }
  }

  lemma {:induction false} RequestsAppend(q: Requests, ps: seq<Packet>)
    ensures q.cancels <= AckRequests(q, ps).cancels && q.updates <= AckRequests(q, ps).updates
    ensures q.cancels <= LoseRequests(q, ps).cancels && q.updates <= LoseRequests(q, ps).updates
    decreases |ps|
  {
    if ps != [] {
      RequestsAppend(AckRequest(q, ps[0]), ps[1..]);
      RequestsAppend(LoseRequest(q, ps[0]), ps[1..]);
    }
  }

  lemma ReceivedAppends(c: Conn, o: Outcome, k: Kind)
    ensures Queue(c, k) <= Queue(Received(c, o), k)
  {
    CallbacksAppend(c.f, o.acked);
    CallbacksAppend(AckAll(c.f, o.acked), o.lost);
    RequestsAppend(c.q, o.acked);
    RequestsAppend(AckRequests(c.q, o.acked), o.lost);
  }

  lemma {:induction false} PushAllAppends(q: seq<Half>, halves: seq<Half>)
    ensures q <= PushAll(q, halves)
    decreases |halves|
  {
    if halves != [] {
      PushAllAppends(Pushed(q, halves[0]), halves[1..]);
    }
  }

  lemma ChoosingAppends(c: Conn, now: int, limit: nat, mtu: int, k: Kind)
    requires c.place.Holding?
    ensures Queue(c, k) <= Queue(Choosing(c, now, limit, mtu), k)
  {
    var Holding(held, cancel, update, pto) := c.place;
    if !c.CanSend() && !pto {
      assert Queue(c, k) <= Queue(Parking(c, held, cancel, update), k);
    } else if c.q.Live(cancel) {
      assert Queue(c, k) <= Queue(Cancelling(c, held, cancel.value, update, now), k);
    } else if c.q.Live(update) {
      assert Queue(c, k) <= Queue(Updating(c, held, update.value, limit, now), k);
    }
  }

  lemma TouchAppends(c: Conn, e: Event, k: Kind)
    requires e.Open? || e.DataFrame? || e.AppendData? || e.Close? || e.WindowFrame? || e.CancelFrame?
    ensures Queue(c, k) <= Queue(Step(c, e), k)
  {
  }

  lemma WakeAppends(c: Conn, now: int, k: Kind)
    ensures Queue(c, k) <= Queue(Waking(c, now), k)
  {
    if HandlerRuns.Due(c.h, now) {
      ReceivedAppends(c, OnTimeout(c.h, now), k);
    }
  }

  lemma QuietAppends(c: Conn, e: Event, k: Kind)
    requires e.RequestCancel? || e.RequestUpdate? || e.ReadEof? || e.DropInlet? || e.CwndChanges? || e.ProbeMtu?
             || e.SendDatagram? || e.RecordSend? || e.PopStream?
    ensures if Pops(c, e) then Queue(Step(c, e), k) == Tail(Queue(c, k)) else Queue(c, k) <= Queue(Step(c, e), k)
  {
  }

  /** A step adds to the end of a queue and takes from its front only. */
  lemma StepIsInOrder(c: Conn, e: Event, k: Kind)
    ensures if Pops(c, e) then Queue(Step(c, e), k) == Tail(Queue(c, k)) else Queue(c, k) <= Queue(Step(c, e), k)
  {
    match e
    case Drain(order) => PushAllAppends(c.f.trigger, order);
    case AckFrame(now, rs, delay) => if c.place.Top? && rs != [] { ReceivedAppends(c, ReceiveACK(c.h, now, rs, delay), k); }
    case Wake(now) => WakeAppends(c, now, k);
    case Choose(now, limit, mtu) => if c.place.Holding? { ChoosingAppends(c, now, limit, mtu, k); }
    case Open(_, _) => TouchAppends(c, e, k);
    case DataFrame(_, _) => TouchAppends(c, e, k);
    case AppendData(_, _, _) => TouchAppends(c, e, k);
    case Close(_) => TouchAppends(c, e, k);
    case WindowFrame(_, _) => TouchAppends(c, e, k);
    case CancelFrame(_) => TouchAppends(c, e, k);
    case _ => QuietAppends(c, e, k);
  }

  /** What is popped is the first of each queue. A finished stream, whose EOF was sent and all of whose
      ranges were acknowledged, is dropped, and its number leaves the table. */
  lemma PopTakesFirst(c: Conn)
    requires c.place.Awake?
    ensures var c' := Step(c, PopStream);
            var first := Head(c.f.trigger);
            var finished := first.Some? && first.value in c.f.streams
                            && c.f.streams[first.value].eofSent && c.f.streams[first.value].sentRanges == [];
            && c'.place == Holding(if finished then None else first, Head(c.q.cancels), Head(c.q.updates), c.place.pto)
            && c'.table == if finished then c.table - {first.value.id} else c.table
  {
  }

  /** At the top of a pass the parked streams return if and only if the window is open: all of them, to
      the end of the trigger. */
  lemma ParkedReturnExactly(c: Conn, order: seq<Half>)
    requires c.place.Top? && forall half :: half in order <==> half in c.blocked.Values
    ensures var c' := Step(c, Drain(order));
            && c.f.trigger <= c'.f.trigger
            && if c.h.out.flight < c.cwnd then
                 c'.blocked == map[] && forall half :: half in c'.f.trigger <==> half in c.f.trigger || half in c.blocked.Values
               else c' == c
  {
    assert (set half | half in order) == c.blocked.Values;
    PushAllAppends(c.f.trigger, order);
    NoOrphans.PushAllMembers(c.f.trigger, order);
  }

  // ---------------------------------------------------------------- runs

  /** How many passes of the run popped. */
  function PopCount(c: Conn, events: seq<Event>): nat
    decreases |events|
  {
    if events == [] then 0
    else
      var before := events[..|events| - 1];
      PopCount(c, before) + (if Pops(Exec(c, before), events[|events| - 1]) then 1 else 0)
  }

  lemma Shifts(q: seq<Half>, n: nat, mid: seq<Half>, after: seq<Half>, popped: bool)
    requires n <= |q| && q[n..] <= mid && (popped ==> n < |q|)
    requires if popped then after == Tail(mid) else mid <= after
    ensures q[n + (if popped then 1 else 0)..] <= after
  {
  }

  /** After n pops what stood behind the first n elements stands at the front. */
  lemma {:induction false} QueueMovesUp(c: Conn, events: seq<Event>, k: Kind)
    requires PopCount(c, events) <= |Queue(c, k)|
    ensures Queue(c, k)[PopCount(c, events)..] <= Queue(Exec(c, events), k)
    decreases |events|
  {
    if events != [] {
      var before, e := events[..|events| - 1], events[|events| - 1];
      QueueMovesUp(c, before, k);
      StepIsInOrder(Exec(c, before), e, k);
      Shifts(Queue(c, k), PopCount(c, before), Queue(Exec(c, before), k), Queue(Exec(c, events), k), Pops(Exec(c, before), e));
    }
  }

  /** Step i of the run pops, and half is first in the queue then. */
  ghost predicate ServedAt(c: Conn, events: seq<Event>, k: Kind, i: nat, half: Half) {
    i < |events| && Pops(Exec(c, events[..i]), events[i]) && Head(Queue(Exec(c, events[..i]), k)) == Some(half)
  }

  /** Nothing waits longer than its turn: in every run from any state, with n elements ahead of it, an
      element of any of the three queues is served by the n+1st pass that pops, whatever is queued or
      put back in between. */
  lemma {:induction false} ServedInTurn(c: Conn, events: seq<Event>, k: Kind, n: nat) returns (i: nat)
    requires n < |Queue(c, k)| && PopCount(c, events) == n + 1
    ensures ServedAt(c, events, k, i, Queue(c, k)[n])
    decreases |events|
  {
    var before, e := events[..|events| - 1], events[|events| - 1];
    if Pops(Exec(c, before), e) {
      i := |before|;
      QueueMovesUp(c, before, k);
      assert Queue(c, k)[n..][0] == Queue(c, k)[n];
    } else {
      i := ServedInTurn(c, before, k, n);
      assert before[..i] == events[..i];
    }
  }

  // ---------------------------------------------------------------- the choice

  /** The requests that did not get the slot. */
  ghost predicate Back(c: Conn, c': Conn, cancel: bool, update: bool, stream: bool)
    requires c.place.Holding?
  {
    var Holding(held, r, u, _) := c.place;
    && (cancel && c.q.Live(r) ==> r.value in c'.q.cancels)
    && (update && c.q.Live(u) ==> u.value in c'.q.updates)
    && (stream && held.Some? ==> held.value in c'.f.trigger)
  }

  /** What a pass does with what it popped. While the window is closed, and no probe is due, nothing is
      sent, the requests go back and the stream is parked. Otherwise exactly one packet is numbered for
      a cancel that was asked for, or else for a window update, and what was popped with it goes back;
      or else the stream is asked for a range. */
  lemma UrgentGoesFirst(c: Conn, now: int, limit: nat, mtu: int)
    requires NoOrphans.RequestsPlaced(c) && c.place.Holding? && limit <= Varints.MAX_VARINT
    ensures var c' := Step(c, Choose(now, limit, mtu));
            var Holding(held, cancel, update, pto) := c.place;
            if c.h.out.flight >= c.cwnd && !pto then
              && c'.h == c.h && c'.place.Top? && Back(c, c', true, true, false)
              && (held.Some? ==> held.value.id in c'.blocked && c'.blocked[held.value.id] == held.value)
            else if cancel.Some? && cancel.value !in c.q.ended then
              && c'.h.sent == c.h.sent + [ControlPacket(c.nextPn, now, CancelStream(cancel.value))]
              && c'.place.Top? && Back(c, c', false, true, true)
            else if update.Some? && update.value !in c.q.ended then
              && c'.h.sent == c.h.sent + [ControlPacket(c.nextPn, now, WindowUpdate(update.value, limit))]
              && c'.place.Top? && Back(c, c', false, false, true)
            else
              && c'.h == c.h && c'.blocked == c.blocked
              && (held.Some? && held.value in c.f.streams ==>
                    var t := Trigger(c.f.streams[held.value], mtu - 30);
                    && c'.f.streams[held.value] == t.s
                    && c'.place == (match t.out case Some(x) => Built(held.value, x) case None => Top))
  {
    var Holding(held, cancel, update, pto) := c.place;
    if !c.CanSend() && !pto {
      ParkingKeeps(c);
    } else if c.q.Live(cancel) {
      CancelGoes(c, now);
    } else if c.q.Live(update) {
      UpdateGoes(c, now, limit);
    }
  }

  lemma ParkingKeeps(c: Conn)
    requires c.place.Holding?
    ensures var c' := Parking(c, c.place.stream, c.place.cancel, c.place.update);
            && c'.h == c.h && c'.place.Top? && Back(c, c', true, true, false)
            && (c.place.stream.Some? ==>
                  c.place.stream.value.id in c'.blocked && c'.blocked[c.place.stream.value.id] == c.place.stream.value)
  {
  }

  lemma CancelGoes(c: Conn, now: int)
    requires NoOrphans.RequestsPlaced(c) && c.place.Holding? && c.q.Live(c.place.cancel)
    ensures var c' := Cancelling(c, c.place.stream, c.place.cancel.value, c.place.update, now);
            && c'.h.sent == c.h.sent + [ControlPacket(c.nextPn, now, CancelStream(c.place.cancel.value))]
            && c'.place.Top? && Back(c, c', false, true, true)
  {
  }

  lemma UpdateGoes(c: Conn, now: int, limit: nat)
    requires NoOrphans.RequestsPlaced(c) && c.place.Holding? && c.q.Live(c.place.update) && limit <= Varints.MAX_VARINT
    ensures var c' := Updating(c, c.place.stream, c.place.update.value, limit, now);
            && c'.h.sent == c.h.sent + [ControlPacket(c.nextPn, now, WindowUpdate(c.place.update.value, limit))]
            && c'.place.Top? && Back(c, c', false, false, true)
  {
  }

  // ---------------------------------------------------------------- finished streams

  /** Every finished stream of the table is on the trigger. */
  ghost predicate Listed(f: Flow, table: map<nat, Half>) {
    forall id :: id in table && table[id] in f.streams && f.streams[table[id]].Completed() ==> table[id] in f.trigger
  }

  /** Halves are in the table under their number, and what the loop holds is not finished. */
  ghost predicate Collects(c: Conn) {
    && Listed(c.f, c.table)
    && (forall id :: id in c.table ==> c.table[id].id == id)
    && (c.place.Holding? && c.place.stream.Some? && c.place.stream.value in c.f.streams ==>
          !c.f.streams[c.place.stream.value].Completed())
  }

  lemma PutLists(f: Flow, half: Half, s: Sender, table: map<nat, Half>)
    requires Listed(f, table)
    ensures Listed(Put(f, half, s), table)
  {
  }

  lemma {:induction false} CallbacksList(f: Flow, ps: seq<Packet>, table: map<nat, Half>)
    requires Listed(f, table)
    ensures Listed(AckAll(f, ps), table) && Listed(LoseAll(f, ps), table)
    decreases |ps|
  {
    if ps != [] {
      var p := ps[0];
      if p.link.Data? && p.link.half in f.streams {
        PutLists(f, p.link.half, Acked(f.streams[p.link.half], p.link.range), table);
        PutLists(f, p.link.half, Lost(f.streams[p.link.half], p.link.range), table);
      }
      CallbacksList(AckOne(f, p), ps[1..], table);
      CallbacksList(LoseOne(f, p), ps[1..], table);
    }
  }

  lemma ReceivedLists(c: Conn, o: Outcome)
    requires Listed(c.f, c.table)
    ensures Listed(Received(c, o).f, c.table)
  {
    CallbacksList(c.f, o.acked, c.table);
    CallbacksList(AckAll(c.f, o.acked), o.lost, c.table);
    var l := LoseAll(AckAll(c.f, o.acked), o.lost);
    if o.resent.Some? && o.resent.value.link.Data? && o.resent.value.link.half in l.streams {
      PutLists(l, o.resent.value.link.half, Lost(l.streams[o.resent.value.link.half], o.resent.value.link.range), c.table);
    }
  }

  /** triggerPacket finishes nothing. */
  lemma TriggerLeavesUnfinished(s: Sender, m: int)
    requires !s.Completed()
    ensures !Trigger(s, m).s.Completed()
  {
  }

  lemma PopCollects(c: Conn)
    requires Collects(c) && c.place.Awake?
    ensures Collects(Step(c, PopStream))
  {
    PopTakesFirst(c);
    NoOrphans.HeadAndTail(c.f.trigger);
  }

  lemma ChooseCollects(c: Conn, now: int, limit: nat, mtu: int)
    requires Collects(c) && c.place.Holding?
    ensures Collects(Choosing(c, now, limit, mtu))
  {
    var Holding(held, cancel, update, pto) := c.place;
    ChoosingAppends(c, now, limit, mtu, Streams);
    if held.Some? && held.value in c.f.streams {
      TriggerLeavesUnfinished(c.f.streams[held.value], mtu - FIXED_OVERHEAD);
    }
    ChoosingLeavesTable(c, now, limit, mtu);
  }

  lemma ChoosingLeavesTable(c: Conn, now: int, limit: nat, mtu: int)
    requires c.place.Holding?
    ensures var c' := Choosing(c, now, limit, mtu);
            && c'.table == c.table && !c'.place.Holding?
            && (c'.f.streams == c.f.streams
                || (c.place.stream.Some? && c.place.stream.value in c.f.streams
                    && c'.f.streams == c.f.streams[c.place.stream.value :=
                                                    Trigger(c.f.streams[c.place.stream.value], mtu - FIXED_OVERHEAD).s]))
  {
  }

  lemma MakeCollects(c: Conn, half: Half, marker: bool)
    requires Collects(c) && half !in c.f.streams
    ensures Collects(Making(c, half, marker))
  {
  }

  lemma TouchCollects(c: Conn, e: Event)
    requires Collects(c)
    requires e.Open? || e.DataFrame? || e.AppendData? || e.Close? || e.WindowFrame? || e.CancelFrame?
    ensures Collects(Step(c, e))
  {
    match e
    case Open(id, marker) => if Half(id, 0) !in c.f.streams { MakeCollects(c, Half(id, 0), marker); }
    case DataFrame(id, serial) =>
      if Half(id, serial) !in c.f.streams { MakeCollects(c.(inlets := c.inlets + {id}), Half(id, serial), false); }
    case AppendData(half, chunks, eof) =>
      if half in c.f.streams { PutLists(c.f, half, Append(c.f.streams[half], chunks, eof), c.table); }
    case Close(half) =>
      if half in c.f.streams { PutLists(c.f, half, c.f.streams[half].(signalEOF := true), c.table); }
    case WindowFrame(id, limit) =>
      if id in c.table && c.table[id] in c.f.streams {
        PutLists(c.f, c.table[id], UpdateWindow(c.f.streams[c.table[id]], limit), c.table);
      }
    case CancelFrame(id) =>
      if id in c.table && c.table[id] in c.f.streams {
        PutLists(c.f, c.table[id], c.f.streams[c.table[id]].(cancelRequested := true), c.table);
      }
  }

  lemma WakeCollects(c: Conn, now: int)
    requires Collects(c) && c.place.Top?
    ensures Collects(Waking(c, now))
  {
    if HandlerRuns.Due(c.h, now) {
      ReceivedLists(c, OnTimeout(c.h, now));
    }
  }

  lemma QuietCollects(c: Conn, e: Event)
    requires Collects(c)
    requires e.RequestCancel? || e.RequestUpdate? || e.ReadEof? || e.DropInlet? || e.CwndChanges? || e.ProbeMtu?
             || e.SendDatagram? || e.RecordSend?
    ensures Collects(Step(c, e))
  {
    var c' := Step(c, e);
    assert c'.f == c.f && c'.table == c.table && (c'.place == c.place || !c'.place.Holding?);
  }

  lemma StepCollects(c: Conn, e: Event)
    requires Collects(c)
    ensures Collects(Step(c, e))
  {
    match e
    case Drain(order) => NoOrphans.PushAllMembers(c.f.trigger, order);
    case AckFrame(now, rs, delay) => if c.place.Top? && rs != [] { ReceivedLists(c, ReceiveACK(c.h, now, rs, delay)); }
    case Wake(now) => if c.place.Top? { WakeCollects(c, now); }
    case PopStream => if c.place.Awake? { PopCollects(c); }
    case Choose(now, limit, mtu) => if c.place.Holding? { ChooseCollects(c, now, limit, mtu); }
    case Open(_, _) => TouchCollects(c, e);
    case DataFrame(_, _) => TouchCollects(c, e);
    case AppendData(_, _, _) => TouchCollects(c, e);
    case Close(_) => TouchCollects(c, e);
    case WindowFrame(_, _) => TouchCollects(c, e);
    case CancelFrame(_) => TouchCollects(c, e);
    case _ => QuietCollects(c, e);
  }

  /** No finished stream is kept for ever: after every run, a half in the table whose EOF was sent and
      all of whose ranges were acknowledged is on the trigger, so that its turn comes and its number
      leaves the table. */
  lemma {:induction false} FinishedIsCollected(server: bool, h: Handler, cwnd: int, events: seq<Event>)
    ensures var c := Exec(Init(server, h, cwnd), events);
            && Collects(c)
            && forall id :: id in c.table && c.table[id] in c.f.streams
                            && c.f.streams[c.table[id]].eofSent && c.f.streams[c.table[id]].sentRanges == [] ==>
                              c.table[id] in c.f.trigger
    decreases |events|
  {
    if events != [] {
      FinishedIsCollected(server, h, cwnd, events[..|events| - 1]);
      StepCollects(Exec(Init(server, h, cwnd), events[..|events| - 1]), events[|events| - 1]);
    }
  }

  // ---------------------------------------------------------------- what is accounted for

  /** What a packet is counted as: its payload with 30 bytes for the datagram and 4 for a stream or
      control packet. Everything but datagrams and MTU probes is sent again when lost and needs a
      window; everything but MTU probes is evidence about the path. */
  predicate Accounted(p: Packet) {
    match p.link
    case Data(_, x) => p.size == 34 + |x.data| && p.retransmittable && !p.exempt && p.evidence && !p.isProbe
    case WindowUpdate(_, _) => p.size == 34 && p.retransmittable && !p.exempt && p.evidence && !p.isProbe
    case CancelStream(_) => p.size == 34 && p.retransmittable && !p.exempt && p.evidence && !p.isProbe
    case Datagram => p.size >= 30 && !p.retransmittable && p.evidence && !p.isProbe
    case Probe => !p.retransmittable && p.exempt && !p.evidence && p.isProbe
  }

  ghost predicate AllAccounted(ps: seq<Packet>) { forall p <- ps :: Accounted(p) }

  lemma DrawnAccounted(c: Conn, o: Outcome)
    requires AllAccounted(c.h.sent) && HandlerRuns.Drawn(c.h.sent, o)
    ensures AllAccounted(o.h.sent)
  {
  }

  lemma RecordAccounts(c: Conn, p: Packet)
    requires AllAccounted(c.h.sent) && Accounted(p)
    ensures AllAccounted(Record(c, p).h.sent)
  {
    assert Record(c, p).h.sent == c.h.sent + [p];
  }

  lemma ChoosingAccounts(c: Conn, now: int, limit: nat, mtu: int)
    requires AllAccounted(c.h.sent) && c.place.Holding?
    ensures AllAccounted(Choosing(c, now, limit, mtu).h.sent)
  {
    var Holding(held, cancel, update, pto) := c.place;
    if c.CanSend() || pto {
      if c.q.Live(cancel) {
        RecordAccounts(c, ControlPacket(c.nextPn, now, CancelStream(cancel.value)));
      } else if c.q.Live(update) {
        RecordAccounts(c, ControlPacket(c.nextPn, now, WindowUpdate(update.value, limit)));
      }
    }
  }

  lemma HandlerAccounts(c: Conn, e: Event)
    requires AllAccounted(c.h.sent) && (e.AckFrame? || e.Wake?)
    ensures AllAccounted(Step(c, e).h.sent)
  {
    match e
    case AckFrame(now, rs, delay) =>
      if c.place.Top? && rs != [] {
        HandlerRuns.AckDraws(c.h, now, rs, delay);
        DrawnAccounted(c, ReceiveACK(c.h, now, rs, delay));
      }
    case Wake(now) =>
      if c.place.Top? && HandlerRuns.Due(c.h, now) {
        HandlerRuns.TimeoutDraws(c.h, now);
        DrawnAccounted(c, OnTimeout(c.h, now));
      }
  }

  lemma StepAccounts(c: Conn, e: Event)
    requires AllAccounted(c.h.sent)
    ensures AllAccounted(Step(c, e).h.sent)
  {
    match e
    case AckFrame(_, _, _) => HandlerAccounts(c, e);
    case Wake(_) => HandlerAccounts(c, e);
    case Choose(now, limit, mtu) => if c.place.Holding? { ChoosingAccounts(c, now, limit, mtu); }
    case ProbeMtu(now, size) => RecordAccounts(c, ProbePacket(c.nextPn, now, size));
    case SendDatagram(now, length, exempt) => RecordAccounts(c, DatagramPacket(c.nextPn, now, length, exempt));
    case RecordSend(now) =>
      if c.place.Built? { RecordAccounts(c, DataPacket(c.nextPn, now, c.place.half, c.place.range)); }
    case _ => OtherAccounts(c, e);
  }

  lemma OtherAccounts(c: Conn, e: Event)
    requires !(e.AckFrame? || e.Wake? || e.Choose? || e.ProbeMtu? || e.SendDatagram? || e.RecordSend?)
    ensures Step(c, e).h == c.h
  {
  }

  /** After every run every outstanding packet is counted in full. */
  lemma {:induction false} PacketsAreAccounted(server: bool, rtt: Rtts.Rtt, cwnd: int, events: seq<Event>)
    ensures AllAccounted(Exec(NoOrphans.Start(server, rtt, cwnd), events).h.sent)
    decreases |events|
  {
    if events != [] {
      PacketsAreAccounted(server, rtt, cwnd, events[..|events| - 1]);
      StepAccounts(Exec(NoOrphans.Start(server, rtt, cwnd), events[..|events| - 1]), events[|events| - 1]);
    }
  }
}
