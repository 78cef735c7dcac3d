/** The bookkeeping of the run loop: trsf/conn.go. A connection is its send halves with the send
    trigger, the queues of receive halves that want a cancel or a window update sent, the table of
    send halves and the numbers in the table of receive halves, the sent-packet handler, the halves
    parked for congestion, and where the loop is inside a pass; the application may act between any
    two steps of the loop.

    Queues and callbacks hold objects. The tables and the parking place are keyed by stream number,
    so that a half that getRecvStream makes anew takes the place of an older one of its number.

    The congestion window is any positive number and the path MTU any number of at least 60,
    chosen anew at every step; module NewRenos shows that the real window stays positive. */
module Connections {
  import opened Common
  import opened TriggerQueues
  import opened SendStreams
  import opened AckHandlers
  import AckWire
  import HandlerRuns
  import Varints

  const MIN_MTU: nat := 60
  const INITIAL_FLOW_WINDOW: nat := 16 * 1024 * 1024

  /** Every send half ever made with the shared trigger, and the ranges ever acknowledged, which no step
      reads. */
  datatype Flow = Flow(streams: map<Half, Sender>, trigger: seq<Half>, acked: set<(Half, SentRange)>)

  /** The receive halves that wait for a cancel or a window update to be sent, and those whose EOF
      was read. No step reads the last two: for each half whose newest request has no acknowledged
      packet yet, the first packet number that can answer it. */
  datatype Requests = Requests(
    cancels: seq<Half>, updates: seq<Half>, ended: set<Half>, askedCancel: map<Half, nat>, askedUpdate: map<Half, nat>)
  {
    predicate Live(r: Option<Half>) { r.Some? && r.value !in ended }
  }

  /** Where the loop is: between passes, past the timers, with what it popped, or with a range that
      triggerPacket handed over and OnSent has not seen yet. */
  datatype Place =
    | Top
    | Awake(pto: bool)
    | Holding(stream: Option<Half>, cancel: Option<Half>, update: Option<Half>, pto: bool)
    | Built(half: Half, range: SentRange)

  datatype Conn = Conn(
    server: bool, f: Flow, q: Requests,
    table: map<nat, Half>,    // sendStreams
    inlets: set<nat>,         // the numbers in recvStreams that the peer opened
    h: Handler, blocked: map<nat, Half>, cwnd: int, nextPn: nat, place: Place)
  {
    predicate CanSend() { h.out.flight < cwnd }

    /** Odd numbers are opened by clients. */
    predicate PeerOpens(id: nat) { server == (id % 2 == 1) }
  }

  predicate Bidirectional(id: nat) { id % 4 < 2 }

  // ---------------------------------------------------------------- callbacks

  function Put(f: Flow, half: Half, s: Sender): Flow {
    f.(streams := f.streams[half := s], trigger := Pushed(f.trigger, half))
  }

  /** OnACK of one packet, as far as the send streams are concerned. */
  function AckOne(f: Flow, p: Packet): Flow {
    match p.link
    case Data(half, x) =>
      if half in f.streams then Put(f, half, Acked(f.streams[half], x)).(acked := f.acked + {(half, x)}) else f
    case _ => f
  }

  /** OnLost of one packet. */
  function LoseOne(f: Flow, p: Packet): Flow {
    match p.link
    case Data(half, x) => if half in f.streams then Put(f, half, Lost(f.streams[half], x)) else f
    case _ => f
  }

  function AckAll(f: Flow, ps: seq<Packet>): Flow
    decreases |ps|
  {
    if ps == [] then f else AckAll(AckOne(f, ps[0]), ps[1..])
  }

  function LoseAll(f: Flow, ps: seq<Packet>): Flow
    decreases |ps|
  {
    if ps == [] then f else LoseAll(LoseOne(f, ps[0]), ps[1..])
  }

  /** A packet answers what was asked before it was numbered. */
  function Answered(asked: map<Half, nat>, half: Half, pn: nat): map<Half, nat> {
    if half in asked && asked[half] <= pn then asked - {half} else asked
  }

  /** OnACK of one packet, as far as the requests are concerned. */
  function AckRequest(q: Requests, p: Packet): Requests {
    match p.link
    case CancelStream(half) => q.(askedCancel := Answered(q.askedCancel, half, p.pn))
    case WindowUpdate(half, _) => q.(askedUpdate := Answered(q.askedUpdate, half, p.pn))
    case _ => q
  }

  /** OnLost of a cancel or of a window update asks again, unless the stream has ended. */
  function LoseRequest(q: Requests, p: Packet): Requests {
    match p.link
    case CancelStream(half) => if half in q.ended then q else q.(cancels := Pushed(q.cancels, half))
    case WindowUpdate(half, _) => if half in q.ended then q else q.(updates := Pushed(q.updates, half))
    case _ => q
  }

  function AckRequests(q: Requests, ps: seq<Packet>): Requests
    decreases |ps|
  {
    if ps == [] then q else AckRequests(AckRequest(q, ps[0]), ps[1..])
  }

  function LoseRequests(q: Requests, ps: seq<Packet>): Requests
    decreases |ps|
  {
    if ps == [] then q else LoseRequests(LoseRequest(q, ps[0]), ps[1..])
  }

  function ResendRequest(q: Requests, p: Option<Packet>): Requests {
    match p case Some(x) => LoseRequest(q, x) case None => q
  }

  function Resend(f: Flow, p: Option<Packet>): Flow {
    match p case Some(q) => LoseOne(f, q) case None => f
  }

  // ---------------------------------------------------------------- packets

  function DataPacket(pn: nat, now: int, half: Half, x: SentRange): Packet {
    Packet(pn, FIXED_OVERHEAD + PAYLOAD_OVERHEAD + |x.data|, now, false, true, true, false, Data(half, x))
  }

  function ControlPacket(pn: nat, now: int, link: Link): Packet {
    Packet(pn, FIXED_OVERHEAD + PAYLOAD_OVERHEAD, now, false, true, true, false, link)
  }

  function DatagramPacket(pn: nat, now: int, size: nat, exempt: bool): Packet {
    Packet(pn, FIXED_OVERHEAD + size, now, exempt, true, false, false, Datagram)
  }

  function ProbePacket(pn: nat, now: int, size: int): Packet {
    Packet(pn, size, now, true, false, false, true, Probe)
  }

  function Record(c: Conn, p: Packet): Conn { c.(h := OnSent(c.h, p), nextPn := c.nextPn + 1) }

  // ---------------------------------------------------------------- steps

  datatype Event =
    | Open(id: nat, marker: bool)
    | AppendData(half: Half, chunks: seq<seq<byte>>, eof: bool)
    | Close(half: Half)
    | RequestCancel(half: Half)
    | RequestUpdate(half: Half)
    | ReadEof(half: Half)
    | DropInlet(id: nat)
    | CwndChanges(cwnd: int)
    | Drain(order: seq<Half>)
    | DataFrame(id: nat, serial: nat)
    | AckFrame(now: int, rs: seq<AckWire.Range>, delay: int)
    | WindowFrame(id: nat, limit: int)
    | CancelFrame(id: nat)
    | ProbeMtu(now: int, size: int)
    | Wake(now: int)
    | SendDatagram(now: int, length: nat, exempt: bool)
    | PopStream
    | Choose(now: int, window: nat, mtu: int)
    | RecordSend(now: int)

  /** What the application does to one half, and whether it pushes the half. */
  function Appending(f: Flow, half: Half, chunks: seq<seq<byte>>, eof: bool): Flow {
    if half !in f.streams then f
    else
      var s := f.streams[half];
      if AppendResult(s) == Appended && (chunks != [] || eof) then Put(f, half, Append(s, chunks, eof)) else f
  }

  /** The half is the next one of its number. */
  predicate Unused(f: Flow, half: Half) {
    half !in f.streams && (half.serial > 0 ==> Half(half.id, half.serial - 1) in f.streams)
  }

  function Making(c: Conn, half: Half, marker: bool): Conn {
    var s := NewSender(half.id, INITIAL_FLOW_WINDOW, marker);
    c.(f := if marker then Put(c.f, half, s) else c.f.(streams := c.f.streams[half := s]),
       table := c.table[half.id := half])
  }

  function Opening(c: Conn, half: Half, marker: bool): Conn {
    if !c.PeerOpens(half.id) && Unused(c.f, half) then Making(c, half, marker) else c
  }

  /** getRecvStream: a number of the peer without a receive half gets one, and with it a send half if
      the stream is bidirectional. */
  function Accepting(c: Conn, half: Half): Conn {
    if c.PeerOpens(half.id) && half.id !in c.inlets && Unused(c.f, half) then
      var c' := c.(inlets := c.inlets + {half.id});
      if Bidirectional(half.id) then Making(c', half, false) else c'
    else c
  }

  function Widening(f: Flow, half: Half, limit: int): Flow {
    if half in f.streams && limit > f.streams[half].window then Put(f, half, UpdateWindow(f.streams[half], limit)) else f
  }

  function PushAll(q: seq<Half>, halves: seq<Half>): seq<Half>
    decreases |halves|
  {
    if halves == [] then q else PushAll(Pushed(q, halves[0]), halves[1..])
  }

  function Received(c: Conn, o: Outcome): Conn {
    c.(f := Resend(LoseAll(AckAll(c.f, o.acked), o.lost), o.resent),
       q := ResendRequest(LoseRequests(AckRequests(c.q, o.acked), o.lost), o.resent), h := o.h)
  }

  function Waking(c: Conn, now: int): Conn {
    if HandlerRuns.Due(c.h, now) then
      var o := OnTimeout(c.h, now);
      Received(c, o).(place := Awake(o.resent.Some?))
    else c.(place := Awake(false))
  }

  function Head(q: seq<Half>): Option<Half> { if q == [] then None else Some(q[0]) }

  function Tail(q: seq<Half>): seq<Half> { if q == [] then [] else q[1..] }

  /** One window update, one cancel and one stream are popped; a finished stream is dropped, and with it
      whatever the table has under its number. */
  function Popping(c: Conn, pto: bool): Conn {
    var stream := Head(c.f.trigger);
    var gone := stream.Some? && stream.value in c.f.streams && c.f.streams[stream.value].Completed();
    c.(f := c.f.(trigger := Tail(c.f.trigger)),
       q := c.q.(cancels := Tail(c.q.cancels), updates := Tail(c.q.updates)),
       table := if gone then c.table - {stream.value.id} else c.table,
       place := Holding(if gone then None else stream, Head(c.q.cancels), Head(c.q.updates), pto))
  }

  function PushedBack(q: seq<Half>, r: Option<Half>): seq<Half> {
    match r case Some(half) => Pushed(q, half) case None => q
  }

  function Repush(c: Conn, held: Option<Half>): Conn {
    c.(f := c.f.(trigger := PushedBack(c.f.trigger, held)), place := Top)
  }

  /** Congestion control forbids sending: what is still wanted goes back, and the half is parked under
      its number. */
  function Parking(c: Conn, held: Option<Half>, cancel: Option<Half>, update: Option<Half>): Conn {
    c.(q := c.q.(cancels := if c.q.Live(cancel) then PushedBack(c.q.cancels, cancel) else c.q.cancels,
                 updates := if c.q.Live(update) then PushedBack(c.q.updates, update) else c.q.updates),
       blocked := match held case Some(half) => c.blocked[half.id := half] case None => c.blocked,
       place := Top)
  }

  /** A cancel takes the slot, and the update and the stream go back. */
  function Cancelling(c: Conn, held: Option<Half>, cancel: Half, update: Option<Half>, now: int): Conn {
    var c' := Record(c, ControlPacket(c.nextPn, now, CancelStream(cancel)));
    if Encodes(cancel.id) then Repush(c'.(q := c.q.(updates := PushedBack(c.q.updates, update))), held)
    else c'.(place := Top)
  }

  /** A window update takes the slot, and the stream goes back. */
  function Updating(c: Conn, held: Option<Half>, update: Half, limit: nat, now: int): Conn {
    var c' := Record(c, ControlPacket(c.nextPn, now, WindowUpdate(update, limit)));
    if Encodes(update.id) && Encodes(limit) then Repush(c', held) else c'.(place := Top)
  }

  /** The stream's own packet; triggerPacket pushes the stream when more remains. */
  function Placing(c: Conn, half: Half, t: Triggered): Conn {
    c.(f := Flow(c.f.streams[half := t.s], if t.push then Pushed(c.f.trigger, half) else c.f.trigger, c.f.acked),
       place := match t.out case Some(x) => Built(half, x) case None => Top)
  }

  function Building(c: Conn, half: Half, mtu: int): Conn {
    if half in c.f.streams then Placing(c, half, Trigger(c.f.streams[half], mtu - FIXED_OVERHEAD)) else c.(place := Top)
  }

  predicate Encodes(v: nat) { Varints.EncodeVarint(v).Some? }

  /** The branches after the pops: what was popped and has not ended goes first, a cancel before a
      window update before the stream. A number that does not encode leaves the rest behind. */
  function Choosing(c: Conn, now: int, limit: nat, mtu: int): Conn
    requires c.place.Holding?
  {
    var Holding(held, cancel, update, pto) := c.place;
    if !c.CanSend() && !pto then Parking(c, held, cancel, update)
    else if c.q.Live(cancel) then Cancelling(c, held, cancel.value, update, now)
    else if c.q.Live(update) then Updating(c, held, update.value, limit, now)
    else match held case Some(half) => Building(c, half, mtu) case None => c.(place := Top)
  }

  /** One step; an event that does not fit the place changes nothing. */
  function Step(c: Conn, e: Event): Conn {
    match e
    case Open(id, marker) => Opening(c, Half(id, 0), marker)
    case AppendData(half, chunks, eof) => c.(f := Appending(c.f, half, chunks, eof))
    case Close(half) =>
      if half in c.f.streams then c.(f := Put(c.f, half, c.f.streams[half].(signalEOF := true))) else c
    case RequestCancel(half) =>
      c.(q := c.q.(cancels := Pushed(c.q.cancels, half), askedCancel := c.q.askedCancel[half := c.nextPn]))
    case RequestUpdate(half) =>
      c.(q := c.q.(updates := Pushed(c.q.updates, half), askedUpdate := c.q.askedUpdate[half := c.nextPn]))
    case ReadEof(half) => c.(q := c.q.(ended := c.q.ended + {half}))
    case DropInlet(id) => c.(inlets := c.inlets - {id})
    case CwndChanges(cwnd) => c.(cwnd := cwnd)
    case Drain(order) =>
      if c.place.Top? && c.CanSend() && (set half | half in order) == c.blocked.Values then
        c.(f := c.f.(trigger := PushAll(c.f.trigger, order)), blocked := map[])
      else c
    case DataFrame(id, serial) => if c.place.Top? then Accepting(c, Half(id, serial)) else c
    case AckFrame(now, rs, delay) => if c.place.Top? && rs != [] then Received(c, ReceiveACK(c.h, now, rs, delay)) else c
    case WindowFrame(id, limit) =>
      if c.place.Top? && id in c.table then c.(f := Widening(c.f, c.table[id], limit)) else c
    case CancelFrame(id) =>
      if c.place.Top? && id in c.table && c.table[id] in c.f.streams then
        c.(f := Put(c.f, c.table[id], c.f.streams[c.table[id]].(cancelRequested := true)))
      else c
    case ProbeMtu(now, size) => if c.place.Top? then Record(c, ProbePacket(c.nextPn, now, size)) else c
    case Wake(now) => if c.place.Top? then Waking(c, now) else c
    case SendDatagram(now, length, exempt) =>
      if c.place.Awake? && (exempt || c.CanSend()) then
        Record(c, DatagramPacket(c.nextPn, now, length, exempt)).(place := Top)
      else c
    case PopStream => if c.place.Awake? then Popping(c, c.place.pto) else c
    case Choose(now, window, mtu) => if c.place.Holding? then Choosing(c, now, window, mtu) else c
    case RecordSend(now) =>
      if c.place.Built? then Record(c, DataPacket(c.nextPn, now, c.place.half, c.place.range)).(place := Top) else c
  }

  function Exec(c: Conn, events: seq<Event>): Conn {
    if events == [] then c else Step(Exec(c, events[..|events| - 1]), events[|events| - 1])
  }

  function Init(server: bool, h: Handler, cwnd: int): Conn {
    Conn(server, Flow(map[], [], {}), Requests([], [], {}, map[], map[]), map[], {}, h, map[], cwnd, 0, Top)
  }

  /** The values the surroundings guarantee: a positive window, an MTU of at least 60, and stream
      numbers and window limits below 2^62. */
  predicate Allowed(e: Event) {
    match e
    case CwndChanges(cwnd) => cwnd > 0
    case RequestCancel(half) => half.id <= Varints.MAX_VARINT
    case RequestUpdate(half) => half.id <= Varints.MAX_VARINT
    case Choose(_, window, mtu) => mtu >= MIN_MTU && window <= Varints.MAX_VARINT
    case _ => true
  }
}
