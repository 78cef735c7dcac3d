/** What eviction does: an evicted half stays forgotten until the application touches it, and a run in
    which it happens. */
module Orphans {
  import opened Common
  import opened TriggerQueues
  import opened SendStreams
  import opened AckHandlers
  import opened Connections
  import opened NoOrphans
  import AckWire
  import HandlerRuns
  import Rtts
  import Varints

  /** The half has work, and nothing of the connection refers to it. */
  ghost predicate Orphan(c: Conn, half: Half) {
    && half in c.f.streams && Work(c.f.streams[half])
    && half !in c.f.trigger && half !in c.blocked.Values && half !in Held(c.place) && half !in c.table.Values
    && !Owns(Elems(c.h.sent), half)
  }

  predicate Touches(e: Event, half: Half) { (e.AppendData? || e.Close?) && e.half == half }

  // ---------------------------------------------------------------- callbacks do not reach it

  ghost predicate SpeaksOf(p: Packet, half: Half) { p.link.Data? && p.link.half == half }

  ghost predicate Untouched(f: Flow, g: Flow, half: Half) {
    half in f.streams && half in g.streams && g.streams[half] == f.streams[half] && (half in g.trigger ==> half in f.trigger)
  }

  lemma {:induction false} CallbacksPassBy(f: Flow, ps: seq<Packet>, half: Half)
    requires half in f.streams && forall p :: p in ps ==> !SpeaksOf(p, half)
    ensures Untouched(f, AckAll(f, ps), half) && Untouched(f, LoseAll(f, ps), half)
    decreases |ps|
  {
    if ps != [] {
      assert !SpeaksOf(ps[0], half);
      assert Untouched(f, AckOne(f, ps[0]), half) && Untouched(f, LoseOne(f, ps[0]), half);
      CallbacksPassBy(AckOne(f, ps[0]), ps[1..], half);
      CallbacksPassBy(LoseOne(f, ps[0]), ps[1..], half);
    }
  }

  lemma OutcomePassesBy(c: Conn, o: Outcome, half: Half)
    requires half in c.f.streams && !Owns(Elems(c.h.sent), half) && HandlerRuns.Drawn(c.h.sent, o)
    ensures Untouched(c.f, Received(c, o).f, half) && !Owns(Elems(o.h.sent), half)
  {
    forall p | p in c.h.sent ensures !SpeaksOf(p, half) {
      assert p in Elems(c.h.sent);
    }
    var a := AckAll(c.f, o.acked);
    CallbacksPassBy(c.f, o.acked, half);
    CallbacksPassBy(a, o.lost, half);
    if o.resent.Some? {
      CallbacksPassBy(LoseAll(a, o.lost), [o.resent.value], half);
      assert LoseAll(LoseAll(a, o.lost), [o.resent.value]) == LoseOne(LoseAll(a, o.lost), o.resent.value) by {
        assert [o.resent.value][1..] == [];
      }
    }
    assert forall p :: p in Elems(o.h.sent) ==> p in Elems(c.h.sent);
  }

  // ---------------------------------------------------------------- no step finds it

  /** What a step must do to leave the half an orphan. */
  ghost predicate PassedBy(c: Conn, c': Conn, half: Half) {
    && Untouched(c.f, c'.f, half) && half !in c'.f.trigger
    && half !in c'.blocked.Values && half !in Held(c'.place) && half !in c'.table.Values
    && !Owns(Elems(c'.h.sent), half)
  }

  lemma MakingPassesBy(c: Conn, half: Half, new_: Half, marker: bool)
    requires Orphan(c, half) && new_ !in c.f.streams
    ensures PassedBy(c, Making(c, new_, marker), half)
  {
  }

  lemma DrainPassesBy(c: Conn, half: Half, order: seq<Half>)
    requires Orphan(c, half) && (set x | x in order) == c.blocked.Values
    ensures PassedBy(c, c.(f := c.f.(trigger := PushAll(c.f.trigger, order)), blocked := map[]), half)
  {
    PushAllMembers(c.f.trigger, order);
    assert half in order ==> half in (set x | x in order);
  }

  lemma RecordPassesBy(c: Conn, c': Conn, half: Half, p: Packet)
    requires Orphan(c, half) && !SpeaksOf(p, half)
    requires c'.h.sent == c.h.sent + [p] && Untouched(c.f, c'.f, half) && half !in c'.f.trigger
    requires c'.blocked == c.blocked && c'.table == c.table && half !in Held(c'.place)
    ensures PassedBy(c, c', half)
  {
    assert forall q :: q in Elems(c'.h.sent) ==> q in Elems(c.h.sent) || q == p;
  }

  lemma ParkingPassesBy(c: Conn, half: Half)
    requires Orphan(c, half) && c.place.Holding?
    ensures PassedBy(c, Parking(c, c.place.stream, c.place.cancel, c.place.update), half)
  {
    var c' := Parking(c, c.place.stream, c.place.cancel, c.place.update);
    forall id | id in c'.blocked ensures c'.blocked[id] != half {
      if c.place.stream.Some? {
        assert c.place.stream.value in Held(c.place);
      }
      assert id in c.blocked ==> c.blocked[id] in c.blocked.Values;
    }
  }

  lemma BuildingPassesBy(c: Conn, half: Half, held: Half, mtu: int)
    requires Orphan(c, half) && c.place.Holding? && c.place.stream == Some(held)
    ensures PassedBy(c, Building(c, held, mtu), half)
  {
    assert held in Held(c.place);
  }

  lemma CancellingPassesBy(c: Conn, half: Half, now: int)
    requires Orphan(c, half) && c.place.Holding? && c.place.cancel.Some?
    ensures PassedBy(c, Cancelling(c, c.place.stream, c.place.cancel.value, c.place.update, now), half)
  {
    var c' := Cancelling(c, c.place.stream, c.place.cancel.value, c.place.update, now);
    assert c.place.stream.Some? ==> c.place.stream.value in Held(c.place);
    RecordPassesBy(c, c', half, ControlPacket(c.nextPn, now, CancelStream(c.place.cancel.value)));
  }

  lemma UpdatingPassesBy(c: Conn, half: Half, now: int, limit: nat)
    requires Orphan(c, half) && c.place.Holding? && c.place.update.Some?
    ensures PassedBy(c, Updating(c, c.place.stream, c.place.update.value, limit, now), half)
  {
    var c' := Updating(c, c.place.stream, c.place.update.value, limit, now);
    assert c.place.stream.Some? ==> c.place.stream.value in Held(c.place);
    RecordPassesBy(c, c', half, ControlPacket(c.nextPn, now, WindowUpdate(c.place.update.value, limit)));
  }

  lemma ChoosingPassesBy(c: Conn, half: Half, now: int, limit: nat, mtu: int)
    requires Orphan(c, half) && c.place.Holding?
    ensures PassedBy(c, Choosing(c, now, limit, mtu), half)
  {
    if !c.CanSend() && !c.place.pto {
      ParkingPassesBy(c, half);
    } else if c.q.Live(c.place.cancel) {
      CancellingPassesBy(c, half, now);
    } else if c.q.Live(c.place.update) {
      UpdatingPassesBy(c, half, now, limit);
    } else if c.place.stream.Some? {
      BuildingPassesBy(c, half, c.place.stream.value, mtu);
    }
  }

  lemma PoppingPassesBy(c: Conn, half: Half, pto: bool)
    requires Orphan(c, half)
    ensures PassedBy(c, Popping(c, pto), half)
  {
    HeadAndTail(c.f.trigger);
    forall id | id in Popping(c, pto).table ensures Popping(c, pto).table[id] != half {
      assert c.table[id] in c.table.Values;
    }
  }

  lemma PutPassesBy(c: Conn, c': Conn, half: Half, other: Half)
    requires Orphan(c, half) && other != half
    requires c'.blocked == c.blocked && c'.table == c.table && c'.place == c.place && c'.h == c.h
    requires c'.f == c.f || (other in c.f.streams && exists s :: c'.f == Put(c.f, other, s))
    ensures PassedBy(c, c', half)
  {
  }

  lemma TouchPassesBy(c: Conn, half: Half, e: Event)
    requires Orphan(c, half) && !Touches(e, half) && (e.AppendData? || e.Close? || e.WindowFrame? || e.CancelFrame?)
    ensures PassedBy(c, Step(c, e), half)
  {
    match e
    case AppendData(other, chunks, eof) =>
      if other in c.f.streams {
        assert Step(c, e).f == c.f || Step(c, e).f == Put(c.f, other, Append(c.f.streams[other], chunks, eof));
        PutPassesBy(c, Step(c, e), half, other);
      }
    case Close(other) =>
      if other in c.f.streams {
        assert Step(c, e).f == Put(c.f, other, c.f.streams[other].(signalEOF := true));
        PutPassesBy(c, Step(c, e), half, other);
      }
    case WindowFrame(id, limit) =>
      if id in c.table && c.table[id] in c.f.streams {
        assert c.table[id] in c.table.Values;
        assert Step(c, e).f == c.f || Step(c, e).f == Put(c.f, c.table[id], UpdateWindow(c.f.streams[c.table[id]], limit));
        PutPassesBy(c, Step(c, e), half, c.table[id]);
      }
    case CancelFrame(id) =>
      if c.place.Top? && id in c.table && c.table[id] in c.f.streams {
        assert c.table[id] in c.table.Values;
        assert Step(c, e).f == Put(c.f, c.table[id], c.f.streams[c.table[id]].(cancelRequested := true));
        PutPassesBy(c, Step(c, e), half, c.table[id]);
      }
  }

  lemma SendingPassesBy(c: Conn, half: Half, e: Event)
    requires Orphan(c, half) && (e.ProbeMtu? || e.SendDatagram? || e.RecordSend?)
    ensures PassedBy(c, Step(c, e), half)
  {
    match e
    case ProbeMtu(now, size) =>
      if c.place.Top? { RecordPassesBy(c, Step(c, e), half, ProbePacket(c.nextPn, now, size)); }
    case SendDatagram(now, length, exempt) =>
      if c.place.Awake? && (exempt || c.CanSend()) {
        RecordPassesBy(c, Step(c, e), half, DatagramPacket(c.nextPn, now, length, exempt));
      }
    case RecordSend(now) =>
      if c.place.Built? {
        assert c.place.half in Held(c.place);
        RecordPassesBy(c, Step(c, e), half, DataPacket(c.nextPn, now, c.place.half, c.place.range));
      }
  }

  lemma HandlerPassesBy(c: Conn, half: Half, e: Event)
    requires Orphan(c, half) && (e.AckFrame? || e.Wake?)
    ensures PassedBy(c, Step(c, e), half)
  {
    match e
    case AckFrame(now, rs, delay) =>
      if c.place.Top? && rs != [] {
        HandlerRuns.AckDraws(c.h, now, rs, delay);
        OutcomePassesBy(c, ReceiveACK(c.h, now, rs, delay), half);
      }
    case Wake(now) =>
      if c.place.Top? && HandlerRuns.Due(c.h, now) {
        HandlerRuns.TimeoutDraws(c.h, now);
        OutcomePassesBy(c, OnTimeout(c.h, now), half);
      }
  }

  lemma StepPassesBy(c: Conn, half: Half, e: Event)
    requires Orphan(c, half) && !Touches(e, half)
    ensures PassedBy(c, Step(c, e), half)
  {
    match e
    case Open(id, marker) =>
      if Half(id, 0) !in c.f.streams { MakingPassesBy(c, half, Half(id, 0), marker); }
    case DataFrame(id, serial) =>
      if Half(id, serial) !in c.f.streams {
        MakingPassesBy(c.(inlets := c.inlets + {id}), half, Half(id, serial), false);
      }
    case Drain(order) => if (set x | x in order) == c.blocked.Values { DrainPassesBy(c, half, order); }
    case AckFrame(_, _, _) => HandlerPassesBy(c, half, e);
    case Wake(_) => HandlerPassesBy(c, half, e);
    case PopStream => if c.place.Awake? { PoppingPassesBy(c, half, c.place.pto); }
    case Choose(now, limit, mtu) => if c.place.Holding? { ChoosingPassesBy(c, half, now, limit, mtu); }
    case ProbeMtu(_, _) => SendingPassesBy(c, half, e);
    case SendDatagram(_, _, _) => SendingPassesBy(c, half, e);
    case RecordSend(_) => SendingPassesBy(c, half, e);
    case AppendData(_, _, _) => TouchPassesBy(c, half, e);
    case Close(_) => TouchPassesBy(c, half, e);
    case WindowFrame(_, _) => TouchPassesBy(c, half, e);
    case CancelFrame(_) => TouchPassesBy(c, half, e);
    case RequestCancel(_) =>
    case RequestUpdate(_) =>
    case ReadEof(_) =>
    case DropInlet(_) =>
    case CwndChanges(_) =>
  }

  /** An orphan stays an orphan: whatever the loop, the network, the peer and the application do
      elsewhere, as long as the application leaves the half alone nothing of it is ever sent. */
  lemma {:induction false} OrphanStays(c: Conn, events: seq<Event>, half: Half)
    requires Orphan(c, half) && forall e :: e in events ==> !Touches(e, half)
    ensures Orphan(Exec(c, events), half) && Exec(c, events).f.streams[half] == c.f.streams[half]
    decreases |events|
  {
    if events != [] {
      OrphanStays(c, events[..|events| - 1], half);
      StepPassesBy(Exec(c, events[..|events| - 1]), half, events[|events| - 1]);
    }
  }

  // ---------------------------------------------------------------- a run

  lemma {:induction false} ExecConcat(c: Conn, a: seq<Event>, b: seq<Event>)
    ensures Exec(c, a + b) == Exec(Exec(c, a), b)
    decreases |b|
  {
    if b == [] {
      assert a + b == a;
    } else {
      assert (a + b)[..|a + b| - 1] == a + b[..|b| - 1];
      ExecConcat(c, a, b[..|b| - 1]);
    }
  }

  lemma Prepend(c: Conn, e: Event, rest: seq<Event>)
    ensures Exec(c, [e] + rest) == Exec(Step(c, e), rest)
  {
    ExecConcat(c, [e], rest);
    assert [e][..0] == [];
  }

  /** A time at which the loss timer has not expired. */
  function Early(h: Handler): int { match h.timer case Some(t) => t case None => 0 }

  /** The loop is between passes with empty request queues, and only datagrams are outstanding. */
  ghost predicate Calm(c: Conn) {
    && c.place.Top? && c.q.cancels == [] && c.q.updates == []
    && forall p :: p in c.h.sent ==> p.link.Datagram?
  }

  lemma EarlyWake(c: Conn)
    requires c.place.Top?
    ensures Step(c, Wake(Early(c.h))) == c.(place := Awake(false))
  {
  }

  lemma DatagramGoes(c: Conn, length: nat)
    requires c.place == Awake(false) && c.CanSend() && Calm(c.(place := Top))
    ensures var c' := Step(c, SendDatagram(0, length, false));
            && Calm(c') && c' == c.(h := c'.h, nextPn := c'.nextPn, place := Top)
            && c'.h.out.flight == c.h.out.flight + FIXED_OVERHEAD + length
  {
    var p := DatagramPacket(c.nextPn, 0, length, false);
    assert Step(c, SendDatagram(0, length, false)).h.sent == c.h.sent + [p];
  }

  lemma OneDatagram(c: Conn, length: nat) returns (events: seq<Event>)
    requires Calm(c) && c.CanSend()
    ensures var c' := Exec(c, events);
            Calm(c') && c' == c.(h := c'.h, nextPn := c'.nextPn) && c'.h.out.flight == c.h.out.flight + FIXED_OVERHEAD + length
    ensures AllAllowed(events)
  {
    var e1, e2 := Wake(Early(c.h)), SendDatagram(0, length, false);
    EarlyWake(c);
    DatagramGoes(c.(place := Awake(false)), length);
    Prepend(Step(c, e1), e2, []);
    Prepend(c, e1, [e2] + []);
    events := [e1] + ([e2] + []);
  }

  /** Datagrams fill the congestion window. */
  lemma {:induction false} FillsWindow(c: Conn, length: nat) returns (events: seq<Event>)
    requires Calm(c)
    ensures var c' := Exec(c, events); Calm(c') && c' == c.(h := c'.h, nextPn := c'.nextPn) && !c'.CanSend()
    ensures AllAllowed(events)
    decreases c.cwnd - c.h.out.flight
  {
    if c.CanSend() {
      var one := OneDatagram(c, length);
      var rest := FillsWindow(Exec(c, one), length);
      ExecConcat(c, one, rest);
      events := one + rest;
    } else {
      events := [];
    }
  }

  lemma PopsOnly(c: Conn, half: Half)
    requires c.place == Awake(false) && c.q.cancels == [] && c.q.updates == []
    requires c.f.trigger == [half] && half in c.f.streams && !c.f.streams[half].Completed()
    ensures Step(c, PopStream) == c.(f := c.f.(trigger := []), place := Holding(Some(half), None, None, false))
  {
  }

  lemma ParksOnly(c: Conn, half: Half)
    requires c.place == Holding(Some(half), None, None, false) && !c.CanSend()
    ensures Step(c, Choose(0, 0, MIN_MTU)) == c.(blocked := c.blocked[half.id := half], place := Top)
  {
  }

  /** While congestion forbids sending, the half on the trigger is parked. */
  lemma ParksHalf(c: Conn, half: Half) returns (events: seq<Event>)
    requires Calm(c) && !c.CanSend() && c.f.trigger == [half] && half in c.f.streams && !c.f.streams[half].Completed()
    ensures Exec(c, events) == c.(f := c.f.(trigger := []), blocked := c.blocked[half.id := half])
    ensures AllAllowed(events)
    ensures events == [Wake(Early(c.h)), PopStream, Choose(0, 0, MIN_MTU)]
  {
    var e1, e2, e3 := Wake(Early(c.h)), PopStream, Choose(0, 0, MIN_MTU);
    var c1 := Step(c, e1);
    EarlyWake(c);
    PopsOnly(c1, half);
    var c2 := Step(c1, e2);
    ParksOnly(c2, half);
    Prepend(c2, e3, []);
    Prepend(c1, e2, [e3] + []);
    Prepend(c, e1, [e2] + ([e3] + []));
    events := [e1] + ([e2] + ([e3] + []));
  }

  lemma Accepts(c: Conn, id: nat, serial: nat)
    requires c.place.Top? && c.server == (id % 2 == 1) && Bidirectional(id) && id !in c.inlets && Unused(c.f, Half(id, serial))
    ensures Step(c, DataFrame(id, serial)) ==
            c.(f := c.f.(streams := c.f.streams[Half(id, serial) := NewSender(id, INITIAL_FLOW_WINDOW, false)]),
               table := c.table[id := Half(id, serial)], inlets := c.inlets + {id})
  {
  }

  /** A number of the peer gets a half, loses its receive half, and gets another half. */
  lemma TwoHalves(server: bool, rtt: Rtts.Rtt, cwnd: int, id: nat) returns (events: seq<Event>)
    requires Bidirectional(id) && server == (id % 2 == 1)
    ensures var c := Exec(Start(server, rtt, cwnd), events);
            && Calm(c) && c.cwnd == cwnd && c.f.trigger == [] && c.blocked == map[] && c.table == map[id := Half(id, 1)]
            && c.f.streams == map[Half(id, 0) := NewSender(id, INITIAL_FLOW_WINDOW, false),
                                  Half(id, 1) := NewSender(id, INITIAL_FLOW_WINDOW, false)]
    ensures AllAllowed(events)
  {
    var c := Start(server, rtt, cwnd);
    var e1, e2, e3 := DataFrame(id, 0), DropInlet(id), DataFrame(id, 1);
    var c1 := Step(c, e1);
    Accepts(c, id, 0);
    assert c1.f.streams == map[Half(id, 0) := NewSender(id, INITIAL_FLOW_WINDOW, false)];
    var c2 := Step(c1, e2);
    assert c2 == c1.(inlets := c1.inlets - {id});
    Accepts(c2, id, 1);
    Prepend(c2, e3, []);
    Prepend(c1, e2, [e3] + []);
    Prepend(c, e1, [e2] + ([e3] + []));
    events := [e1] + ([e2] + ([e3] + []));
  }

  /** The application writes on the older half, which is parked. */
  lemma WritesAndParks(c: Conn, half: Half, data: seq<byte>) returns (events: seq<Event>)
    requires Calm(c) && !c.CanSend() && c.f.trigger == [] && half in c.f.streams && data != []
    requires c.f.streams[half] == NewSender(half.id, INITIAL_FLOW_WINDOW, false)
    ensures var c' := Exec(c, events);
            && Calm(c') && c' == c.(f := c'.f, blocked := c.blocked[half.id := half]) && c'.f.trigger == []
            && c'.f.streams == c.f.streams[half := Append(c.f.streams[half], [data], true)]
    ensures AllAllowed(events)
  {
    var e := AppendData(half, [data], true);
    var c1 := Step(c, e);
    assert c1.f.trigger == [half] by { assert [] + [half] == [half]; }
    var rest := ParksHalf(c1, half);
    Prepend(c, e, rest);
    events := [e] + rest;
  }

  /** A window update pushes the newer half, which is parked over the older one. */
  lemma UpdateParksOver(c: Conn, id: nat, newer: Half) returns (events: seq<Event>)
    requires Calm(c) && !c.CanSend() && c.f.trigger == [] && newer in c.f.streams && newer.id == id
    requires id in c.table && c.table[id] == newer && c.f.streams[newer] == NewSender(id, INITIAL_FLOW_WINDOW, false)
    ensures var c' := Exec(c, events);
            && c' == c.(f := c'.f, blocked := c.blocked[id := newer]) && c'.f.trigger == []
            && c'.f.streams.Keys == c.f.streams.Keys
            && forall other :: other in c.f.streams && other != newer ==> c'.f.streams[other] == c.f.streams[other]
    ensures AllAllowed(events)
  {
    var e := WindowFrame(id, INITIAL_FLOW_WINDOW + 1);
    var c1 := Step(c, e);
    assert c1.f == Put(c.f, newer, UpdateWindow(c.f.streams[newer], INITIAL_FLOW_WINDOW + 1));
    assert c1.f.trigger == [newer] by { assert [] + [newer] == [newer]; }
    var rest := ParksHalf(c1, newer);
    Prepend(c, e, rest);
    events := [e] + rest;
  }

  lemma BytesAreWork(s: Sender, data: seq<byte>)
    requires s == Append(NewSender(s.id, INITIAL_FLOW_WINDOW, false), [data], true) && data != []
    ensures Work(s)
  {
    assert [] + [data] == [data];
    assert Flatten([data]) == data by { assert [data][1..] == []; }
  }

  /** Streams do get orphaned: for either side, every bidirectional number of its peer, every congestion
      window and every datagram size there is a run in which the number gets a second half, the
      application writes on the first, and both are parked while datagrams fill the window. The first
      half is then an orphan for good: whatever follows, unless the application touches it again,
      none of its bytes is sent. */
  lemma SecondHalfOrphansFirst(server: bool, rtt: Rtts.Rtt, cwnd: int, id: nat, data: seq<byte>, length: nat)
      returns (events: seq<Event>)
    requires Bidirectional(id) && server == (id % 2 == 1) && cwnd > 0 && data != []
    ensures AllAllowed(events)
    ensures var c := Exec(Start(server, rtt, cwnd), events);
            && Orphan(c, Half(id, 0)) && c.f.streams[Half(id, 0)].offset == 0
            && forall more :: (forall e :: e in more ==> !Touches(e, Half(id, 0))) ==>
                 var c' := Exec(c, more); Orphan(c', Half(id, 0)) && c'.f.streams[Half(id, 0)].offset == 0
  {
    var c0, old', newer := Start(server, rtt, cwnd), Half(id, 0), Half(id, 1);
    var made := TwoHalves(server, rtt, cwnd, id);
    var c1 := Exec(c0, made);
    var filled := FillsWindow(c1, length);
    var c2 := Exec(c1, filled);
    var wrote := WritesAndParks(c2, old', data);
    var c3 := Exec(c2, wrote);
    var over := UpdateParksOver(c3, id, newer);
    var c4 := Exec(c3, over);
    ExecConcat(c0, made, filled);
    ExecConcat(c0, made + filled, wrote);
    ExecConcat(c0, made + filled + wrote, over);
    events := made + filled + wrote + over;
    BytesAreWork(c4.f.streams[old'], data);
    IsOrphan(c4, id);
    forall more | forall e :: e in more ==> !Touches(e, old')
      ensures Orphan(Exec(c4, more), old') && Exec(c4, more).f.streams[old'].offset == 0
    {
      OrphanStays(c4, more, old');
    }
  }

  lemma IsOrphan(c: Conn, id: nat)
    requires Calm(c) && c.f.trigger == [] && Half(id, 0) in c.f.streams && Work(c.f.streams[Half(id, 0)])
    requires c.blocked == map[id := Half(id, 1)] && c.table == map[id := Half(id, 1)]
    ensures Orphan(c, Half(id, 0))
  {
  }
}
