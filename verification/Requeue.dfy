/** Fresh work waits for no packet. A stream that can send something new at once is on the send
    trigger or parked, whether or not it has packets outstanding: after every range that it hands
    over, triggerPacket puts the stream back when more remains. */
module Requeues {
  import opened Common
  import opened TriggerQueues
  import opened SendStreams
  import opened AckHandlers
  import opened Connections
  import opened NoOrphans
  import AckWire
  import HandlerRuns
  import Rtts
  import Varints

  /** The stream can send something new now: bytes or an EOF that the flow window admits, before its
      EOF went out. */
  ghost predicate Eager(s: Sender) {
    !s.eofSent && s.Sendable() > 0 && (Flatten(s.inputBuffer) != [] || s.signalEOF)
  }

  // ---------------------------------------------------------------- one call

  /** With room for one byte behind any header, a call that hands nothing over leaves nothing to send. */
  lemma NothingLeft(s: Sender, m: int)
    requires m >= MIN_MTU - FIXED_OVERHEAD
    ensures Trigger(s, m).out.None? ==> !Eager(Trigger(s, m).s)
  {
    if s.retransmit == [] {
      NothingFreshLeft(s, m);
    } else {
      var src := s.retransmit[0];
      assert HeaderSize(s.id, src.offset, |src.data|) + |src.data| <= m || Divides(s, m);
    }
  }

  lemma NothingFreshLeft(s: Sender, m: int)
    requires m >= MIN_MTU - FIXED_OVERHEAD
    ensures Fresh(s, m).out.None? ==> !Eager(Fresh(s, m).s)
  {
    var room := m - HeaderSize(s.id, s.offset, m);
    if !s.eofSent && s.Sendable() > 0 && FreshData(s, room) == [] && !FreshEof(s, room) {
      assert Flatten(s.inputBuffer) == [];
      assert Flatten(FreshRest(s, room)) == [];
    }
  }

  /** For every sender and every budget: a call that hands a range over pushes the stream exactly when
      the window admits buffered chunks or a signalled EOF is not out, a call that hands nothing over
      pushes nothing, and with room for one byte behind any header no eager stream is left unpushed. */
  lemma PushIsExact(s: Sender, m: int)
    ensures var t := Trigger(s, m);
            && (t.out.Some? ==>
                  (t.push <==> (t.s.window > t.s.sentSize && |t.s.inputBuffer| > 0) || (!t.s.eofSent && t.s.signalEOF)))
            && (t.out.None? ==> !t.push)
            && (m >= MIN_MTU - FIXED_OVERHEAD && Eager(t.s) ==> t.push)
  {
    if m >= MIN_MTU - FIXED_OVERHEAD {
      NothingLeft(s, m);
    }
    assert Flatten([]) == [];
  }

  // ---------------------------------------------------------------- the streams

  /** Every eager stream is on the trigger or among those known to be elsewhere. */
  ghost predicate Served(f: Flow, elsewhere: set<Half>) {
    forall half :: half in f.streams && Eager(f.streams[half]) ==> half in f.trigger || half in elsewhere
  }

  lemma PutServes(f: Flow, half: Half, s: Sender, elsewhere: set<Half>)
    requires Served(f, elsewhere)
    ensures Served(Put(f, half, s), elsewhere)
  {
  }

  lemma AckOneServes(f: Flow, p: Packet, elsewhere: set<Half>)
    requires Served(f, elsewhere)
    ensures Served(AckOne(f, p), elsewhere)
  {
    if p.link.Data? && p.link.half in f.streams {
      PutServes(f, p.link.half, Acked(f.streams[p.link.half], p.link.range), elsewhere);
    }
  }

  lemma LoseOneServes(f: Flow, p: Packet, elsewhere: set<Half>)
    requires Served(f, elsewhere)
    ensures Served(LoseOne(f, p), elsewhere)
  {
    if p.link.Data? && p.link.half in f.streams {
      PutServes(f, p.link.half, Lost(f.streams[p.link.half], p.link.range), elsewhere);
    }
  }

  lemma {:induction false} AckAllServes(f: Flow, ps: seq<Packet>, elsewhere: set<Half>)
    requires Served(f, elsewhere)
    ensures Served(AckAll(f, ps), elsewhere)
    decreases |ps|
  {
    if ps != [] {
      AckOneServes(f, ps[0], elsewhere);
      AckAllServes(AckOne(f, ps[0]), ps[1..], elsewhere);
    }
  }

  lemma {:induction false} LoseAllServes(f: Flow, ps: seq<Packet>, elsewhere: set<Half>)
    requires Served(f, elsewhere)
    ensures Served(LoseAll(f, ps), elsewhere)
    decreases |ps|
  {
    if ps != [] {
      LoseOneServes(f, ps[0], elsewhere);
      LoseAllServes(LoseOne(f, ps[0]), ps[1..], elsewhere);
    }
  }

  lemma CallbacksServe(f: Flow, o: Outcome, elsewhere: set<Half>)
    requires Served(f, elsewhere)
    ensures Served(Resend(LoseAll(AckAll(f, o.acked), o.lost), o.resent), elsewhere)
  {
    AckAllServes(f, o.acked, elsewhere);
    LoseAllServes(AckAll(f, o.acked), o.lost, elsewhere);
    if o.resent.Some? {
      LoseOneServes(LoseAll(AckAll(f, o.acked), o.lost), o.resent.value, elsewhere);
    }
  }

  // ---------------------------------------------------------------- the loop

  /** The half that was popped and not yet asked for a packet. */
  ghost function Popped(place: Place): set<Half> {
    match place case Holding(Some(half), _, _, _) => {half} case _ => {}
  }

  ghost function Stands(c: Conn, gone: set<Half>): set<Half> { c.blocked.Values + Popped(c.place) + gone }

  /** A half parked under a number whose place is taken by another half, although it is eager and not
      on the trigger. */
  ghost predicate Displaces(c: Conn, e: Event, half: Half) {
    && e.Choose? && c.place.Holding? && !c.CanSend() && !c.place.pto && c.place.stream.Some?
    && var held := c.place.stream.value;
       && held.id in c.blocked && half == c.blocked[held.id] && half != held
       && half in c.f.streams && Eager(c.f.streams[half]) && half !in c.f.trigger
  }

  ghost function Displacees(c: Conn, e: Event): set<Half> { set half | half in c.blocked.Values && Displaces(c, e, half) }

  lemma ParkServes(c: Conn, gone: set<Half>, e: Event)
    requires Served(c.f, Stands(c, gone)) && Tidy(c) && c.place.Holding? && e.Choose? && !c.CanSend() && !c.place.pto
    ensures var c' := Parking(c, c.place.stream, c.place.cancel, c.place.update);
            Served(c'.f, Stands(c', gone + Displacees(c, e)))
  {
    var c' := Parking(c, c.place.stream, c.place.cancel, c.place.update);
    forall half | half in c.f.streams && Eager(c.f.streams[half]) && half !in c.f.trigger
      ensures half in Stands(c', gone + Displacees(c, e))
    {
      if half in Popped(c.place) {
        assert c'.blocked[half.id] == half;
      } else if half in c.blocked.Values {
        StaysOrDisplaced(c, half, e);
      }
    }
  }

  lemma StaysOrDisplaced(c: Conn, half: Half, e: Event)
    requires Tidy(c) && c.place.Holding? && e.Choose? && !c.CanSend() && !c.place.pto
    requires half in c.blocked.Values && half in c.f.streams && Eager(c.f.streams[half]) && half !in c.f.trigger
    ensures half in Parking(c, c.place.stream, c.place.cancel, c.place.update).blocked.Values || half in Displacees(c, e)
  {
    var id :| id in c.blocked && c.blocked[id] == half;
    var blocked := Parking(c, c.place.stream, c.place.cancel, c.place.update).blocked;
    assert id in blocked;
    if c.place.stream.Some? && c.place.stream.value.id == id && c.place.stream.value != half {
      assert Displaces(c, e, half);
    } else {
      assert blocked[id] == half;
    }
  }

  lemma RepushServes(c: Conn, gone: set<Half>, c': Conn)
    requires Served(c.f, Stands(c, gone)) && c.place.Holding?
    requires c'.f == c.f.(trigger := PushedBack(c.f.trigger, c.place.stream)) && c'.blocked == c.blocked && c'.place == Top
    ensures Served(c'.f, Stands(c', gone))
  {
  }

  lemma BuildServes(c: Conn, gone: set<Half>, half: Half, mtu: int)
    requires Served(c.f, Stands(c, gone)) && c.place.Holding? && c.place.stream == Some(half) && mtu >= MIN_MTU
    ensures Served(Building(c, half, mtu).f, Stands(Building(c, half, mtu), gone))
  {
    if half in c.f.streams {
      var t := Trigger(c.f.streams[half], mtu - FIXED_OVERHEAD);
      PushIsExact(c.f.streams[half], mtu - FIXED_OVERHEAD);
      PlacingServes(c, gone, half, t);
    }
  }

  lemma PlacingServes(c: Conn, gone: set<Half>, half: Half, t: Triggered)
    requires Served(c.f, Stands(c, gone)) && c.place.Holding? && c.place.stream == Some(half)
    requires Eager(t.s) ==> t.push
    ensures Served(Placing(c, half, t).f, Stands(Placing(c, half, t), gone))
  {
  }

  /** What was popped encodes, so every branch that takes the slot puts the stream back. */
  lemma ChooseServes(c: Conn, gone: set<Half>, e: Event)
    requires Served(c.f, Stands(c, gone)) && Tidy(c) && RequestsPlaced(c) && c.place.Holding? && e.Choose? && Allowed(e)
    ensures Served(Step(c, e).f, Stands(Step(c, e), gone + Displacees(c, e)))
  {
    var Holding(held, cancel, update, pto) := c.place;
    if !c.CanSend() && !pto {
      ParkServes(c, gone, e);
    } else {
      assert gone + Displacees(c, e) == gone by { assert Displacees(c, e) == {}; }
      if c.q.Live(cancel) {
        RepushServes(c, gone, Cancelling(c, held, cancel.value, update, e.now));
      } else if c.q.Live(update) {
        RepushServes(c, gone, Updating(c, held, update.value, e.window, e.now));
      } else if held.Some? {
        BuildServes(c, gone, held.value, e.mtu);
      }
    }
  }

  lemma PopServes(c: Conn, gone: set<Half>, pto: bool)
    requires Served(c.f, Stands(c, gone)) && c.place.Awake?
    ensures Served(Popping(c, pto).f, Stands(Popping(c, pto), gone))
  {
    HeadAndTail(c.f.trigger);
  }

  lemma DrainServes(c: Conn, gone: set<Half>, order: seq<Half>)
    requires Served(c.f, Stands(c, gone)) && c.place.Top? && (set half | half in order) == c.blocked.Values
    ensures var c' := c.(f := c.f.(trigger := PushAll(c.f.trigger, order)), blocked := map[]);
            Served(c'.f, Stands(c', gone))
  {
    PushAllMembers(c.f.trigger, order);
    forall half | half in c.blocked.Values ensures half in order {
      assert half in (set x | x in order);
    }
  }

  lemma MakeServes(c: Conn, gone: set<Half>, half: Half, marker: bool)
    requires Served(c.f, Stands(c, gone))
    ensures Served(Making(c, half, marker).f, Stands(Making(c, half, marker), gone))
  {
  }

  lemma AppendServes(f: Flow, half: Half, chunks: seq<seq<byte>>, eof: bool, elsewhere: set<Half>)
    requires Served(f, elsewhere)
    ensures Served(Appending(f, half, chunks, eof), elsewhere)
  {
    if half in f.streams {
      PutServes(f, half, Append(f.streams[half], chunks, eof), elsewhere);
    }
  }

  /** The application and the frames of the peer push every stream that they touch. */
  lemma TouchServes(c: Conn, gone: set<Half>, e: Event)
    requires Served(c.f, Stands(c, gone))
    requires e.Open? || e.DataFrame? || e.AppendData? || e.Close? || e.WindowFrame? || e.CancelFrame?
    ensures Served(Step(c, e).f, Stands(Step(c, e), gone))
  {
    match e
    case Open(id, marker) => MakeServes(c, gone, Half(id, 0), marker);
    case DataFrame(id, serial) => MakeServes(c.(inlets := c.inlets + {id}), gone, Half(id, serial), false);
    case AppendData(half, chunks, eof) => AppendServes(c.f, half, chunks, eof, Stands(c, gone));
    case Close(half) => if half in c.f.streams { PutServes(c.f, half, c.f.streams[half].(signalEOF := true), Stands(c, gone)); }
    case WindowFrame(id, limit) =>
      if id in c.table && c.table[id] in c.f.streams {
        PutServes(c.f, c.table[id], UpdateWindow(c.f.streams[c.table[id]], limit), Stands(c, gone));
      }
    case CancelFrame(id) =>
      if id in c.table && c.table[id] in c.f.streams {
        PutServes(c.f, c.table[id], c.f.streams[c.table[id]].(cancelRequested := true), Stands(c, gone));
      }
  }

  lemma WakeServes(c: Conn, gone: set<Half>, now: int)
    requires Served(c.f, Stands(c, gone)) && c.place.Top?
    ensures Served(Waking(c, now).f, Stands(Waking(c, now), gone))
  {
    if HandlerRuns.Due(c.h, now) {
      CallbacksServe(c.f, OnTimeout(c.h, now), Stands(c, gone));
    }
  }

  lemma QuietServes(c: Conn, gone: set<Half>, e: Event)
    requires Served(c.f, Stands(c, gone))
    requires e.RequestCancel? || e.RequestUpdate? || e.ReadEof? || e.DropInlet? || e.CwndChanges? || e.ProbeMtu?
             || e.SendDatagram? || e.RecordSend?
    ensures Served(Step(c, e).f, Stands(Step(c, e), gone))
  {
    var c' := Step(c, e);
    assert c'.f == c.f && c'.blocked == c.blocked && Popped(c'.place) == Popped(c.place);
  }

  lemma StepServes(c: Conn, gone: set<Half>, e: Event)
    requires Served(c.f, Stands(c, gone)) && Tidy(c) && RequestsPlaced(c) && Allowed(e) && !e.Choose?
    ensures Served(Step(c, e).f, Stands(Step(c, e), gone))
  {
    match e
    case Drain(order) =>
      if c.place.Top? && (set half | half in order) == c.blocked.Values { DrainServes(c, gone, order); }
    case AckFrame(now, rs, delay) =>
      if c.place.Top? && rs != [] { CallbacksServe(c.f, ReceiveACK(c.h, now, rs, delay), Stands(c, gone)); }
    case Wake(now) => if c.place.Top? { WakeServes(c, gone, now); }
    case PopStream => if c.place.Awake? { PopServes(c, gone, c.place.pto); }
    case Open(_, _) => TouchServes(c, gone, e);
    case DataFrame(_, _) => TouchServes(c, gone, e);
    case AppendData(_, _, _) => TouchServes(c, gone, e);
    case Close(_) => TouchServes(c, gone, e);
    case WindowFrame(_, _) => TouchServes(c, gone, e);
    case CancelFrame(_) => TouchServes(c, gone, e);
    case _ => QuietServes(c, gone, e);
  }

  // ---------------------------------------------------------------- whole runs

  /** The halves that some step of the run displaced. */
  ghost function Displaced(c: Conn, events: seq<Event>): set<Half>
    decreases |events|
  {
    if events == [] then {}
    else
      var before := events[..|events| - 1];
      Displaced(c, before) + Displacees(Exec(c, before), events[|events| - 1])
  }

  lemma {:induction false} RunServes(server: bool, rtt: Rtts.Rtt, cwnd: int, events: seq<Event>)
    requires cwnd > 0 && AllAllowed(events)
    ensures var c0 := Start(server, rtt, cwnd);
            Served(Exec(c0, events).f, Stands(Exec(c0, events), Displaced(c0, events)))
    decreases |events|
  {
    if events != [] {
      var c0, before, e := Start(server, rtt, cwnd), events[..|events| - 1], events[|events| - 1];
      RunServes(server, rtt, cwnd, before);
      RunKeeps(server, rtt, cwnd, before);
      EventServes(Exec(c0, before), Displaced(c0, before), e);
    }
  }

  lemma EventServes(c: Conn, gone: set<Half>, e: Event)
    requires Served(c.f, Stands(c, gone)) && Tidy(c) && RequestsPlaced(c) && Allowed(e)
    ensures Served(Step(c, e).f, Stands(Step(c, e), gone + Displacees(c, e)))
  {
    if e.Choose? && c.place.Holding? {
      ChooseServes(c, gone, e);
    } else {
      assert gone + Displacees(c, e) == gone by { assert Displacees(c, e) == {}; }
      if !e.Choose? {
        StepServes(c, gone, e);
      }
    }
  }

  ghost predicate Queued(c: Conn, half: Half) { half in c.f.trigger || half in c.blocked.Values }

  /** No stream waits for a packet to be answered: at the top of every pass of every run, a half with
      window left, with buffered bytes or a signalled EOF, and whose EOF is not out, is on the trigger
      or parked, or some step parked another half of its number over it. */
  lemma FreshWorkIsQueued(server: bool, rtt: Rtts.Rtt, cwnd: int, events: seq<Event>, half: Half)
    requires cwnd > 0 && AllAllowed(events)
    requires var c := Exec(Start(server, rtt, cwnd), events); c.place.Top? && half in c.f.streams && Eager(c.f.streams[half])
    ensures Queued(Exec(Start(server, rtt, cwnd), events), half) || half in Displaced(Start(server, rtt, cwnd), events)
  {
    RunServes(server, rtt, cwnd, events);
  }

  ghost predicate AllQueued(c: Conn) {
    c.place.Top? ==> forall half :: half in c.f.streams && Eager(c.f.streams[half]) ==> Queued(c, half)
  }

  /** Every eager half is queued at the top of every pass so far. */
  ghost predicate AlwaysQueued(c0: Conn, events: seq<Event>)
    decreases |events|
  {
    && AllQueued(Exec(c0, events))
    && (events != [] ==> AlwaysQueued(c0, events[..|events| - 1]))
  }

  lemma DisplacementUnqueues(c: Conn, e: Event, half: Half)
    requires Tidy(c) && half in Displacees(c, e)
    ensures !AllQueued(Step(c, e))
  {
    var held := c.place.stream.value;
    var c' := Step(c, e);
    assert c'.blocked == c.blocked[held.id := held];
    assert half.id == held.id;
    forall id | id in c'.blocked ensures c'.blocked[id] != half {
    }
    assert !Queued(c', half);
  }

  /** Exactly the displacements leave fresh work behind. */
  lemma {:induction false} QueuedExactlyWithoutDisplacement(server: bool, rtt: Rtts.Rtt, cwnd: int, events: seq<Event>)
    requires cwnd > 0 && AllAllowed(events)
    ensures AlwaysQueued(Start(server, rtt, cwnd), events) <==> Displaced(Start(server, rtt, cwnd), events) == {}
    decreases |events|
  {
    var c0 := Start(server, rtt, cwnd);
    if events != [] {
      var before, e := events[..|events| - 1], events[|events| - 1];
      QueuedExactlyWithoutDisplacement(server, rtt, cwnd, before);
      RunKeeps(server, rtt, cwnd, before);
      if half :| half in Displacees(Exec(c0, before), e) {
        DisplacementUnqueues(Exec(c0, before), e, half);
      }
    }
    RunServes(server, rtt, cwnd, events);
    ServedIsQueued(Exec(c0, events));
  }

  lemma ServedIsQueued(c: Conn)
    ensures Served(c.f, Stands(c, {})) ==> AllQueued(c)
  {
  }
}
