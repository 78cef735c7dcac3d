/** A run loop together with its peer and the network between them. Every packet that the handler
    was told of may arrive any number of times, in any order, or never; the peer acknowledges only
    numbers that it received, and sends only window updates and cancels that its streams made.

    The first send half of a stream number then runs one of the stream pairs of module StreamPairs:
    `stories` lists, half by half, the events of that pair. No step of the loop reads them. A story
    ends when the peer receives data of a later half of the same number, which its receiving end
    cannot tell from data of the first. */
module Compositions {
  import opened Common
  import opened SendStreams
  import opened AckHandlers
  import AckWire
  import HandlerRuns
  import Rtts
  import Varints
  import C = Connections
  import NoOrphans
  import P = StreamPairs
  import PrefixSafety
  import Reliability
  import Continuations
  import Duplexes
  import FlowControl
  import Division

  /** The events of a pair with the state of its two ends. */
  datatype Story = Story(open: bool, events: seq<P.Event>, ends: P.Pair)

  /** log: every packet that was handed to the handler; received: the numbers that the peer's
      tracker was given. */
  datatype Net = Net(c: C.Conn, stories: map<Half, Story>, log: set<Packet>, received: set<nat>)

  /** A step of the loop, a packet that reaches the peer, or a step of the peer on one stream. */
  datatype Event =
    | Loop(e: C.Event)
    | Arrive(p: Packet)
    | Peer(half: Half, step: P.Event)

  function Origin(id: nat, open: bool): P.Pair { P.Init(id, C.INITIAL_FLOW_WINDOW, open) }

  function New(id: nat, open: bool): Story { Story(open, [], Origin(id, open)) }

  /** The ends are what the events lead to. */
  ghost predicate Told(half: Half, t: Story) { t.ends == P.Exec(Origin(half.id, t.open), t.events) }

  // ---------------------------------------------------------------- steps

  function Longer(t: Story, e: P.Event): Story { Story(t.open, t.events + [e], P.Step(t.ends, e)) }

  function Tell(m: map<Half, Story>, half: Half, e: P.Event): map<Half, Story> {
    if half in m then m[half := Longer(m[half], e)] else m
  }

  function TellAcked(m: map<Half, Story>, p: Packet): map<Half, Story> {
    match p.link case Data(half, x) => Tell(m, half, P.Acknowledge(x)) case _ => m
  }

  function TellLost(m: map<Half, Story>, p: Packet): map<Half, Story> {
    match p.link case Data(half, x) => Tell(m, half, P.Lose(x)) case _ => m
  }

  function First(id: nat): Half { Half(id, 0) }

  function TellArrived(m: map<Half, Story>, p: Packet): map<Half, Story> {
    match p.link
    case Data(half, x) => if half == First(half.id) then Tell(m, half, P.Deliver(x)) else m - {First(half.id)}
    case _ => m
  }

  function TellAllAcked(m: map<Half, Story>, ps: seq<Packet>): map<Half, Story> {
    if ps == [] then m else TellAllAcked(TellAcked(m, ps[0]), ps[1..])
  }

  function TellAllLost(m: map<Half, Story>, ps: seq<Packet>): map<Half, Story> {
    if ps == [] then m else TellAllLost(TellLost(m, ps[0]), ps[1..])
  }

  function TellOutcome(m: map<Half, Story>, o: Outcome): map<Half, Story> {
    var told := TellAllLost(TellAllAcked(m, o.acked), o.lost);
    match o.resent case Some(p) => TellLost(told, p) case None => told
  }

  /** Whether the pass ends in triggerPacket. */
  predicate Triggers(c: C.Conn) {
    && c.place.Holding? && (c.CanSend() || c.place.pto)
    && !c.q.Live(c.place.cancel) && !c.q.Live(c.place.update) && c.place.stream.Some?
  }

  /** Whether the pop finds a finished half. */
  predicate Finishes(c: C.Conn) {
    && c.place.Awake? && c.f.trigger != [] && c.f.trigger[0] in c.f.streams
    && c.f.streams[c.f.trigger[0]].Completed()
  }

  /** Whether getRecvStream makes a send half for the number. */
  predicate Makes(c: C.Conn, half: Half) {
    && c.place.Top? && c.PeerOpens(half.id) && half.id !in c.inlets && C.Unused(c.f, half) && C.Bidirectional(half.id)
  }

  /** What a step of the loop means for the pairs. */
  function Telling(c: C.Conn, m: map<Half, Story>, e: C.Event): map<Half, Story> {
    match e
    case Open(id, marker) =>
      if !c.PeerOpens(id) && C.Unused(c.f, First(id)) then m[First(id) := New(id, marker)] else m
    case DataFrame(id, serial) =>
      if !Makes(c, Half(id, serial)) then m
      else if serial == 0 then m[First(id) := New(id, false)]
      else Tell(m, First(id), P.Unlist)
    case AppendData(half, chunks, eof) => Tell(m, half, P.AppendData(chunks, eof))
    case Close(half) => Tell(m, half, P.Close)
    case AckFrame(now, rs, delay) =>
      if c.place.Top? && rs != [] then TellOutcome(m, ReceiveACK(c.h, now, rs, delay)) else m
    case WindowFrame(id, limit) => if c.place.Top? && limit >= 0 then Tell(m, First(id), P.DeliverUpdate(limit)) else m
    case CancelFrame(id) => if c.place.Top? then Tell(m, First(id), P.Cancel) else m
    case Wake(now) => if c.place.Top? && HandlerRuns.Due(c.h, now) then TellOutcome(m, OnTimeout(c.h, now)) else m
    case PopStream => if Finishes(c) then Tell(m, First(c.f.trigger[0].id), P.Unlist) else m
    case Choose(_, _, mtu) => if Triggers(c) then Tell(m, c.place.stream.value, P.Emit(mtu - FIXED_OVERHEAD)) else m
    case _ => m
  }

  /** The frames that can come from the peer. */
  ghost predicate FromPeer(w: Net, e: C.Event) {
    match e
    case AckFrame(_, rs, _) => forall n: nat :: AckWire.Names(rs, n) ==> n in w.received
    case WindowFrame(id, limit) => First(id) in w.stories ==> limit >= 0 && limit in w.stories[First(id)].ends.updatesMade
    case CancelFrame(id) => First(id) in w.stories ==> w.stories[First(id)].ends.cancelSent
    case _ => true
  }

  /** The events of a pair that happen at the peer alone. */
  predicate AtPeer(e: P.Event) {
    e.SendCancel? || e.Remove? || e.ReadUpTo? || e.SendUpdate? || e.AcknowledgeUpdate? || e.LoseUpdate? || e.ProbeUpdate?
  }

  /** The loop takes a step; what it hands to the handler is on the wire. */
  ghost function Looping(w: Net, e: C.Event): Net {
    var c := C.Step(w.c, e);
    Net(c, Telling(w.c, w.stories, e), w.log + NoOrphans.Elems(c.h.sent), w.received)
  }

  /** One step; what cannot happen changes nothing. */
  ghost function Step(w: Net, e: Event): Net {
    match e
    case Loop(e) => if FromPeer(w, e) then Looping(w, e) else w
    case Arrive(p) => if p in w.log then w.(stories := TellArrived(w.stories, p), received := w.received + {p.pn}) else w
    case Peer(half, step) => if AtPeer(step) then w.(stories := Tell(w.stories, half, step)) else w
  }

  ghost function Exec(w: Net, events: seq<Event>): Net {
    if events == [] then w else Step(Exec(w, events[..|events| - 1]), events[|events| - 1])
  }

  ghost function Init(server: bool, rtt: Rtts.Rtt, cwnd: int): Net { Net(NoOrphans.Start(server, rtt, cwnd), map[], {}, {}) }

  // ---------------------------------------------------------------- what must hold

  /** A half with a story is the sending end of its pair. */
  ghost predicate Mirrors(f: C.Flow, m: map<Half, Story>) {
    forall half :: half in m ==> half in f.streams && m[half].ends.snd == f.streams[half]
  }

  /** Stories are of first halves, and their pairs know which of those are in the table. */
  ghost predicate Tabled(table: map<nat, Half>, m: map<Half, Story>) {
    && (forall id :: id in table ==> table[id].id == id)
    && (forall half :: half in m ==>
          half == First(half.id) && (m[half].ends.listed <==> half.id in table && table[half.id] == half))
  }

  ghost predicate WasEmitted(m: map<Half, Story>, link: Link) {
    link.Data? && link.half in m ==> link.range in m[link.half].ends.emitted
  }

  ghost predicate WasDelivered(m: map<Half, Story>, link: Link) {
    link.Data? && link.half in m ==> link.range in m[link.half].ends.delivered
  }

  /** Numbers identify packets. */
  ghost predicate Numbered(w: Net) {
    && (forall p, q :: p in w.log && q in w.log && p.pn == q.pn ==> p == q)
    && (forall p :: p in w.log ==> p.pn < w.c.nextPn)
    && (forall n :: n in w.received ==> n < w.c.nextPn)
    && (forall p :: p in w.c.h.sent ==> p in w.log)
  }

  ghost predicate Logged(w: Net) {
    && (forall p :: p in w.log ==> WasEmitted(w.stories, p.link) && (p.link.Data? ==> p.link.half in w.c.f.streams))
    && (w.c.place.Built? ==> WasEmitted(w.stories, InHand(w.c.place)) && w.c.place.half in w.c.f.streams)
    && (forall p :: p in w.log && p.pn in w.received ==> WasDelivered(w.stories, p.link))
  }

  ghost function InHand(place: C.Place): Link { if place.Built? then Data(place.half, place.range) else Datagram }

  ghost predicate Inv(w: Net) { Mirrors(w.c.f, w.stories) && Tabled(w.c.table, w.stories) && Numbered(w) && Logged(w) }

  // ---------------------------------------------------------------- telling

  /** Stories get longer or end. */
  ghost predicate Grows(m: map<Half, Story>, m': map<Half, Story>) {
    forall half :: half in m' ==>
      && half in m && m[half].ends.emitted <= m'[half].ends.emitted && m[half].ends.delivered <= m'[half].ends.delivered
  }

  /** Or they are of a half that was just made. */
  ghost predicate Continues(f: C.Flow, m: map<Half, Story>, m': map<Half, Story>) {
    forall half :: half in m' && half in f.streams ==>
      && half in m && m[half].ends.emitted <= m'[half].ends.emitted && m[half].ends.delivered <= m'[half].ends.delivered
  }

  lemma EmittedContinues(f: C.Flow, m: map<Half, Story>, m': map<Half, Story>, link: Link)
    requires Continues(f, m, m') && (link.Data? ==> link.half in f.streams)
    ensures WasEmitted(m, link) ==> WasEmitted(m', link)
    ensures WasDelivered(m, link) ==> WasDelivered(m', link)
  {
  }

  lemma TellGrows(m: map<Half, Story>, half: Half, e: P.Event)
    ensures Grows(m, Tell(m, half, e)) && Tell(m, half, e).Keys == m.Keys
  {
    if half in m {
      StepGrows(m[half].ends, e);
    }
  }

  lemma StepGrows(p: P.Pair, e: P.Event)
    ensures p.emitted <= P.Step(p, e).emitted && p.delivered <= P.Step(p, e).delivered
  {
  }

  lemma GrowsTwice(a: map<Half, Story>, b: map<Half, Story>, c: map<Half, Story>)
    requires Grows(a, b) && Grows(b, c)
    ensures Grows(a, c)
  {
  }

  lemma EmittedStays(m: map<Half, Story>, m': map<Half, Story>, link: Link)
    requires Grows(m, m')
    ensures WasEmitted(m, link) ==> WasEmitted(m', link)
    ensures WasDelivered(m, link) ==> WasDelivered(m', link)
  {
  }

  /** One half changes as its pair does. */
  lemma TellMirrors(f: C.Flow, m: map<Half, Story>, half: Half, e: P.Event, f': C.Flow)
    requires Mirrors(f, m)
    requires forall k :: k in m && k != half ==> k in f'.streams && f'.streams[k] == f.streams[k]
    requires half in m ==> half in f'.streams && f'.streams[half] == P.Step(m[half].ends, e).snd
    ensures Mirrors(f', Tell(m, half, e))
  {
  }

  lemma TellTabled(table: map<nat, Half>, m: map<Half, Story>, half: Half, e: P.Event)
    requires Tabled(table, m) && !e.Unlist?
    ensures Tabled(table, Tell(m, half, e))
  {
    if half in m {
      Duplexes.OnlyUnlistUnlists(m[half].ends, e);
    }
  }

  // ---------------------------------------------------------------- callbacks

  /** Callbacks change no key and no table. */
  ghost predicate Keeps(f: C.Flow, g: C.Flow, table: map<nat, Half>, m: map<Half, Story>, m': map<Half, Story>) {
    Mirrors(g, m') && Grows(m, m') && (Tabled(table, m) ==> Tabled(table, m'))
  }

  lemma AckOneMirrors(f: C.Flow, m: map<Half, Story>, p: Packet, table: map<nat, Half>)
    requires Mirrors(f, m) && WasDelivered(m, p.link)
    ensures Keeps(f, C.AckOne(f, p), table, m, TellAcked(m, p))
  {
    if p.link.Data? {
      TellMirrors(f, m, p.link.half, P.Acknowledge(p.link.range), C.AckOne(f, p));
      TellGrows(m, p.link.half, P.Acknowledge(p.link.range));
      if Tabled(table, m) { TellTabled(table, m, p.link.half, P.Acknowledge(p.link.range)); }
    }
  }

  lemma LoseOneMirrors(f: C.Flow, m: map<Half, Story>, p: Packet, table: map<nat, Half>)
    requires Mirrors(f, m) && WasEmitted(m, p.link)
    ensures Keeps(f, C.LoseOne(f, p), table, m, TellLost(m, p))
  {
    if p.link.Data? {
      TellMirrors(f, m, p.link.half, P.Lose(p.link.range), C.LoseOne(f, p));
      TellGrows(m, p.link.half, P.Lose(p.link.range));
      if Tabled(table, m) { TellTabled(table, m, p.link.half, P.Lose(p.link.range)); }
    }
  }

  lemma {:induction false} AckAllMirrors(f: C.Flow, m: map<Half, Story>, ps: seq<Packet>, table: map<nat, Half>)
    requires Mirrors(f, m) && forall p :: p in ps ==> WasDelivered(m, p.link)
    ensures Keeps(f, C.AckAll(f, ps), table, m, TellAllAcked(m, ps))
    decreases |ps|
  {
    if ps != [] {
      var m' := TellAcked(m, ps[0]);
      AckOneMirrors(f, m, ps[0], table);
      forall p | p in ps[1..] ensures WasDelivered(m', p.link) {
        EmittedStays(m, m', p.link);
      }
      AckAllMirrors(C.AckOne(f, ps[0]), m', ps[1..], table);
      GrowsTwice(m, m', TellAllAcked(m', ps[1..]));
    }
  }

  lemma {:induction false} LoseAllMirrors(f: C.Flow, m: map<Half, Story>, ps: seq<Packet>, table: map<nat, Half>)
    requires Mirrors(f, m) && forall p :: p in ps ==> WasEmitted(m, p.link)
    ensures Keeps(f, C.LoseAll(f, ps), table, m, TellAllLost(m, ps))
    decreases |ps|
  {
    if ps != [] {
      var m' := TellLost(m, ps[0]);
      LoseOneMirrors(f, m, ps[0], table);
      forall p | p in ps[1..] ensures WasEmitted(m', p.link) {
        EmittedStays(m, m', p.link);
      }
      LoseAllMirrors(C.LoseOne(f, ps[0]), m', ps[1..], table);
      GrowsTwice(m, m', TellAllLost(m', ps[1..]));
    }
  }

  lemma OutcomeMirrors(f: C.Flow, m: map<Half, Story>, sent: seq<Packet>, o: Outcome, table: map<nat, Half>)
    requires Mirrors(f, m) && HandlerRuns.Drawn(sent, o)
    requires forall p :: p in sent ==> WasEmitted(m, p.link)
    requires forall p :: p in o.acked ==> WasDelivered(m, p.link)
    ensures Keeps(f, C.Resend(C.LoseAll(C.AckAll(f, o.acked), o.lost), o.resent), table, m, TellOutcome(m, o))
  {
    var a := TellAllAcked(m, o.acked);
    AckAllMirrors(f, m, o.acked, table);
    forall p | p in sent ensures WasEmitted(a, p.link) {
      EmittedStays(m, a, p.link);
    }
    var b := TellAllLost(a, o.lost);
    LoseAllMirrors(C.AckAll(f, o.acked), a, o.lost, table);
    GrowsTwice(m, a, b);
    if o.resent.Some? {
      EmittedStays(a, b, o.resent.value.link);
      LoseOneMirrors(C.LoseAll(C.AckAll(f, o.acked), o.lost), b, o.resent.value, table);
      GrowsTwice(m, b, TellOutcome(m, o));
    }
  }

  // ---------------------------------------------------------------- steps of the loop

  /** What a step of the loop does to the streams, the stories and the range in hand. */
  ghost predicate Followed(w: Net, c: C.Conn, m: map<Half, Story>) {
    && Mirrors(c.f, m) && Tabled(c.table, m) && Continues(w.c.f, w.stories, m)
    && (c.place.Built? ==> WasEmitted(m, InHand(c.place)) && c.place.half in c.f.streams)
  }

  /** The other halves with stories are as they were. */
  ghost predicate Others(w: Net, c: C.Conn, half: Half) {
    forall k :: k in w.stories && k != half ==>
      && k in w.c.f.streams && k in c.f.streams && c.f.streams[k] == w.c.f.streams[k]
      && (k.id in c.table && c.table[k.id] == k <==> k.id in w.c.table && w.c.table[k.id] == k)
  }

  /** A step that changes no half and no entry and hands over no range. */
  lemma SameFollows(w: Net, c: C.Conn)
    requires Inv(w) && c.f.streams == w.c.f.streams && c.table == w.c.table && (c.place.Built? ==> c.place == w.c.place)
    ensures Followed(w, c, w.stories)
  {
  }

  /** A half, if it has a story, changes as its pair does. */
  lemma ToldFollows(w: Net, c: C.Conn, half: Half, e: P.Event)
    requires Inv(w) && c.place == w.c.place && Others(w, c, half) && w.c.f.streams.Keys <= c.f.streams.Keys
    requires forall id :: id in c.table ==> c.table[id].id == id
    requires half in w.stories ==>
               var p := P.Step(w.stories[half].ends, e);
               && half in c.f.streams && c.f.streams[half] == p.snd
               && (p.listed <==> half.id in c.table && c.table[half.id] == half)
    ensures Followed(w, c, Tell(w.stories, half, e))
  {
    TellGrows(w.stories, half, e);
    TellMirrors(w.c.f, w.stories, half, e, c.f);
    EmittedStays(w.stories, Tell(w.stories, half, e), InHand(c.place));
  }

  lemma AppendFollows(w: Net, half: Half, chunks: seq<seq<byte>>, eof: bool)
    requires Inv(w)
    ensures Followed(w, C.Step(w.c, C.AppendData(half, chunks, eof)), Tell(w.stories, half, P.AppendData(chunks, eof)))
  {
    if half in w.stories {
      var s := w.c.f.streams[half];
      assert s.inputBuffer + [] == s.inputBuffer;
    }
    ToldFollows(w, C.Step(w.c, C.AppendData(half, chunks, eof)), half, P.AppendData(chunks, eof));
  }

  lemma CloseFollows(w: Net, half: Half)
    requires Inv(w)
    ensures Followed(w, C.Step(w.c, C.Close(half)), Tell(w.stories, half, P.Close))
  {
    ToldFollows(w, C.Step(w.c, C.Close(half)), half, P.Close);
  }

  function Wider(limit: int): Sender -> Sender { s => UpdateWindow(s, limit) }

  function Cancelled(s: Sender): Sender { s.(cancelRequested := true) }

  /** A frame reaches what the table has under its number. */
  function Reached(c: C.Conn, id: nat, change: Sender -> Sender): map<Half, Sender> {
    if id in c.table && c.table[id] in c.f.streams then c.f.streams[c.table[id] := change(c.f.streams[c.table[id]])]
    else c.f.streams
  }

  /** And the first half only if that is it. */
  lemma ReachedFollows(w: Net, c: C.Conn, id: nat, change: Sender -> Sender, e: P.Event)
    requires Inv(w) && c.place == w.c.place && c.table == w.c.table && c.f.streams == Reached(w.c, id, change)
    requires First(id) in w.stories ==>
               var p := w.stories[First(id)].ends;
               P.Step(p, e).snd == (if p.listed then change(p.snd) else p.snd) && P.Step(p, e).listed == p.listed
    ensures Followed(w, c, Tell(w.stories, First(id), e))
  {
    ToldFollows(w, c, First(id), e);
  }

  lemma WindowReaches(c: C.Conn, id: nat, limit: int)
    requires c.place.Top?
    ensures var c' := C.Step(c, C.WindowFrame(id, limit));
            c'.place == c.place && c'.table == c.table && c'.f.streams == Reached(c, id, Wider(limit))
  {
    if id in c.table && c.table[id] in c.f.streams {
      assert c.f.streams[c.table[id] := c.f.streams[c.table[id]]] == c.f.streams;
    }
  }

  lemma CancelReaches(c: C.Conn, id: nat)
    requires c.place.Top?
    ensures var c' := C.Step(c, C.CancelFrame(id));
            c'.place == c.place && c'.table == c.table && c'.f.streams == Reached(c, id, Cancelled)
  {
  }

  lemma WindowFollows(w: Net, id: nat, limit: int)
    requires Inv(w) && FromPeer(w, C.WindowFrame(id, limit)) && w.c.place.Top? && limit >= 0
    ensures Followed(w, C.Step(w.c, C.WindowFrame(id, limit)), Tell(w.stories, First(id), P.DeliverUpdate(limit)))
  {
    WindowReaches(w.c, id, limit);
    ReachedFollows(w, C.Step(w.c, C.WindowFrame(id, limit)), id, Wider(limit), P.DeliverUpdate(limit));
  }

  lemma CancelFollows(w: Net, id: nat)
    requires Inv(w) && FromPeer(w, C.CancelFrame(id)) && w.c.place.Top?
    ensures Followed(w, C.Step(w.c, C.CancelFrame(id)), Tell(w.stories, First(id), P.Cancel))
  {
    CancelReaches(w.c, id);
    ReachedFollows(w, C.Step(w.c, C.CancelFrame(id)), id, Cancelled, P.Cancel);
  }

  /** A finished half takes the entry of its number with it. */
  lemma PopDrops(c: C.Conn)
    requires Finishes(c)
    ensures var c' := C.Step(c, C.PopStream);
            c'.table == c.table - {c.f.trigger[0].id} && c'.f.streams == c.f.streams && c'.place.Holding?
  {
  }

  lemma PopFollows(w: Net)
    requires Inv(w) && Finishes(w.c)
    ensures Followed(w, C.Step(w.c, C.PopStream), Tell(w.stories, First(w.c.f.trigger[0].id), P.Unlist))
  {
    PopDrops(w.c);
    ToldFollows(w.(c := w.c.(place := C.Step(w.c, C.PopStream).place)), C.Step(w.c, C.PopStream),
                First(w.c.f.trigger[0].id), P.Unlist);
  }

  /** An acknowledged packet was received: numbers identify packets, and the peer names only
      numbers it received. */
  lemma AckFollows(w: Net, now: int, rs: seq<AckWire.Range>, delay: int)
    requires Inv(w) && FromPeer(w, C.AckFrame(now, rs, delay)) && w.c.place.Top? && rs != []
    ensures Followed(w, C.Step(w.c, C.AckFrame(now, rs, delay)), Telling(w.c, w.stories, C.AckFrame(now, rs, delay)))
  {
    var o := ReceiveACK(w.c.h, now, rs, delay);
    HandlerRuns.AckDraws(w.c.h, now, rs, delay);
    forall p | p in o.acked ensures WasDelivered(w.stories, p.link) {
      assert p in w.log && p.pn in w.received;
    }
    AckReceives(w.c, w.stories, now, rs, delay);
    OutcomeFollows(w, o, C.Step(w.c, C.AckFrame(now, rs, delay)));
  }

  lemma AckReceives(c: C.Conn, m: map<Half, Story>, now: int, rs: seq<AckWire.Range>, delay: int)
    requires c.place.Top? && rs != []
    ensures var c', o := C.Step(c, C.AckFrame(now, rs, delay)), ReceiveACK(c.h, now, rs, delay);
            c'.f == C.Received(c, o).f && c'.table == c.table && c'.place.Top? && Telling(c, m, C.AckFrame(now, rs, delay)) == TellOutcome(m, o)
  {
  }

  lemma WakeReceives(c: C.Conn, m: map<Half, Story>, now: int)
    requires c.place.Top? && HandlerRuns.Due(c.h, now)
    ensures var c' := C.Step(c, C.Wake(now)); c'.f == C.Received(c, OnTimeout(c.h, now)).f && c'.table == c.table && c'.place.Awake?
    ensures Telling(c, m, C.Wake(now)) == TellOutcome(m, OnTimeout(c.h, now))
  {
  }

  lemma OutcomeFollows(w: Net, o: Outcome, c: C.Conn)
    requires Inv(w) && HandlerRuns.Drawn(w.c.h.sent, o) && forall p :: p in o.acked ==> WasDelivered(w.stories, p.link)
    requires c.f == C.Received(w.c, o).f && c.table == w.c.table && !c.place.Built?
    ensures Followed(w, c, TellOutcome(w.stories, o))
  {
    OutcomeMirrors(w.c.f, w.stories, w.c.h.sent, o, w.c.table);
  }

  lemma WakeFollows(w: Net, now: int)
    requires Inv(w) && w.c.place.Top? && HandlerRuns.Due(w.c.h, now)
    ensures Followed(w, C.Step(w.c, C.Wake(now)), Telling(w.c, w.stories, C.Wake(now)))
  {
    HandlerRuns.TimeoutDraws(w.c.h, now);
    WakeReceives(w.c, w.stories, now);
    OutcomeFollows(w, OnTimeout(w.c.h, now), C.Step(w.c, C.Wake(now)));
  }

  lemma TriggersBuilds(c: C.Conn, m: map<Half, Story>, now: int, window: nat, mtu: int)
    requires Triggers(c)
    ensures C.Step(c, C.Choose(now, window, mtu)) == C.Building(c, c.place.stream.value, mtu)
    ensures Telling(c, m, C.Choose(now, window, mtu)) == Tell(m, c.place.stream.value, P.Emit(mtu - FIXED_OVERHEAD))
  {
  }

  lemma BuildingEmits(c: C.Conn, half: Half, mtu: int, p: P.Pair)
    requires half in c.f.streams && p.snd == c.f.streams[half]
    ensures var c', p' := C.Building(c, half, mtu), P.Emitting(p, mtu - FIXED_OVERHEAD);
            && c'.f.streams == c.f.streams[half := p'.snd] && p'.listed == p.listed
            && (c'.place.Built? ==> c'.place.range in p'.emitted)
  {
  }

  lemma BuildingStays(c: C.Conn, half: Half, mtu: int)
    requires c.place.Holding?
    ensures var c' := C.Building(c, half, mtu);
            && c'.table == c.table && c'.f.streams.Keys == c.f.streams.Keys
            && (forall k :: k in c.f.streams && k != half ==> c'.f.streams[k] == c.f.streams[k])
            && (c'.place.Built? ==> c'.place.half == half && half in c'.f.streams)
  {
  }

  lemma ChooseFollows(w: Net, now: int, window: nat, mtu: int)
    requires Inv(w) && Triggers(w.c)
    ensures Followed(w, C.Step(w.c, C.Choose(now, window, mtu)), Telling(w.c, w.stories, C.Choose(now, window, mtu)))
  {
    TriggersBuilds(w.c, w.stories, now, window, mtu);
    BuildFollows(w, w.c.place.stream.value, mtu);
  }

  lemma BuildFollows(w: Net, half: Half, mtu: int)
    requires Inv(w) && w.c.place.Holding?
    ensures Followed(w, C.Building(w.c, half, mtu), Tell(w.stories, half, P.Emit(mtu - FIXED_OVERHEAD)))
  {
    TellGrows(w.stories, half, P.Emit(mtu - FIXED_OVERHEAD));
    BuildingStays(w.c, half, mtu);
    if half in w.stories {
      BuildingEmits(w.c, half, mtu, w.stories[half].ends);
    }
    TellMirrors(w.c.f, w.stories, half, P.Emit(mtu - FIXED_OVERHEAD), C.Building(w.c, half, mtu).f);
    TellTabled(w.c.table, w.stories, half, P.Emit(mtu - FIXED_OVERHEAD));
  }

  predicate Quiet(c: C.Conn, e: C.Event) {
    match e
    case Open(id, _) => c.PeerOpens(id) || !C.Unused(c.f, First(id))
    case DataFrame(id, serial) => !Makes(c, Half(id, serial))
    case AppendData(_, _, _) => false
    case Close(_) => false
    case AckFrame(_, rs, _) => !c.place.Top? || rs == []
    case WindowFrame(_, _) => !c.place.Top?
    case CancelFrame(_) => !c.place.Top?
    case Wake(now) => !c.place.Top? || !HandlerRuns.Due(c.h, now)
    case PopStream => !Finishes(c)
    case Choose(_, _, _) => !Triggers(c)
    case _ => true
  }

  lemma QuietStays(c: C.Conn, e: C.Event)
    requires Quiet(c, e)
    ensures var c' := C.Step(c, e);
            c'.f.streams == c.f.streams && c'.table == c.table && (c'.place.Built? ==> c'.place == c.place)
  {
    match e
    case Open(_, _) =>
    case DataFrame(_, _) => QuietData(c, e);
    case AckFrame(_, _, _) =>
    case WindowFrame(_, _) =>
    case CancelFrame(_) =>
    case Choose(_, _, _) => QuietChoice(c, e);
    case PopStream =>
    case Wake(_) =>
    case _ => QuietRest(c, e);
  }

  lemma QuietData(c: C.Conn, e: C.Event)
    requires Quiet(c, e) && e.DataFrame?
    ensures C.Step(c, e) == c.(inlets := C.Step(c, e).inlets)
  {
  }

  lemma QuietChoice(c: C.Conn, e: C.Event)
    requires Quiet(c, e) && e.Choose?
    ensures var c' := C.Step(c, e);
            c'.f.streams == c.f.streams && c'.table == c.table && (c'.place.Built? ==> c'.place == c.place)
  {
    if c.place.Holding? {
      if !c.CanSend() && !c.place.pto {
      } else if c.q.Live(c.place.cancel) {
      } else if c.q.Live(c.place.update) {
      } else {
        assert c.place.stream.None?;
      }
    }
  }

  lemma QuietRest(c: C.Conn, e: C.Event)
    requires e.RequestCancel? || e.RequestUpdate? || e.ReadEof? || e.DropInlet? || e.CwndChanges? || e.Drain?
             || e.ProbeMtu? || e.SendDatagram? || e.RecordSend?
    ensures var c' := C.Step(c, e);
            c'.f.streams == c.f.streams && c'.table == c.table && (c'.place.Built? ==> c'.place == c.place)
  {
  }

  lemma QuietTellsNothing(c: C.Conn, m: map<Half, Story>, e: C.Event)
    requires Quiet(c, e)
    ensures Telling(c, m, e) == m
  {
  }

  lemma QuietFollows(w: Net, e: C.Event)
    requires Inv(w) && Quiet(w.c, e)
    ensures Followed(w, C.Step(w.c, e), Telling(w.c, w.stories, e))
  {
    QuietStays(w.c, e);
    QuietTellsNothing(w.c, w.stories, e);
    SameFollows(w, C.Step(w.c, e));
  }

  /** A first half begins a story. */
  lemma BeginFollows(w: Net, id: nat, marker: bool, c: C.Conn)
    requires Inv(w) && First(id) !in w.c.f.streams && c.place == w.c.place
    requires c.f.streams == w.c.f.streams[First(id) := NewSender(id, C.INITIAL_FLOW_WINDOW, marker)]
    requires c.table == w.c.table[id := First(id)]
    ensures Followed(w, c, w.stories[First(id) := New(id, marker)])
  {
    var m := w.stories[First(id) := New(id, marker)];
    BeginMirrors(w.c.f, w.stories, id, marker, c.f);
    BeginTabled(w.c.table, w.stories, id, marker);
    assert Continues(w.c.f, w.stories, m);
    EmittedContinues(w.c.f, w.stories, m, InHand(c.place));
  }

  lemma BeginMirrors(f: C.Flow, m: map<Half, Story>, id: nat, marker: bool, f': C.Flow)
    requires Mirrors(f, m) && First(id) !in f.streams
    requires f'.streams == f.streams[First(id) := NewSender(id, C.INITIAL_FLOW_WINDOW, marker)]
    ensures Mirrors(f', m[First(id) := New(id, marker)])
  {
  }

  lemma BeginTabled(table: map<nat, Half>, m: map<Half, Story>, id: nat, marker: bool)
    requires Tabled(table, m)
    ensures Tabled(table[id := First(id)], m[First(id) := New(id, marker)])
  {
  }

  /** A later half takes the entry away from the first. */
  lemma DisplacesFollows(w: Net, id: nat, serial: nat, c: C.Conn)
    requires Inv(w) && serial > 0 && Half(id, serial) !in w.c.f.streams && c.place == w.c.place
    requires c.f.streams == w.c.f.streams[Half(id, serial) := NewSender(id, C.INITIAL_FLOW_WINDOW, false)]
    requires c.table == w.c.table[id := Half(id, serial)]
    ensures Followed(w, c, Tell(w.stories, First(id), P.Unlist))
  {
    ToldFollows(w, c, First(id), P.Unlist);
  }

  lemma MakingMakes(c: C.Conn, half: Half, marker: bool)
    ensures var c' := C.Making(c, half, marker);
            && c'.f.streams == c.f.streams[half := NewSender(half.id, C.INITIAL_FLOW_WINDOW, marker)]
            && c'.table == c.table[half.id := half] && c'.place == c.place
  {
  }

  lemma OpenFollows(w: Net, id: nat, marker: bool)
    requires Inv(w) && !Quiet(w.c, C.Open(id, marker))
    ensures Followed(w, C.Step(w.c, C.Open(id, marker)), Telling(w.c, w.stories, C.Open(id, marker)))
  {
    MakingMakes(w.c, First(id), marker);
    BeginFollows(w, id, marker, C.Step(w.c, C.Open(id, marker)));
  }

  lemma DataFollows(w: Net, id: nat, serial: nat)
    requires Inv(w) && Makes(w.c, Half(id, serial))
    ensures Followed(w, C.Step(w.c, C.DataFrame(id, serial)), Telling(w.c, w.stories, C.DataFrame(id, serial)))
  {
    MakingMakes(w.c.(inlets := w.c.inlets + {id}), Half(id, serial), false);
    if serial == 0 {
      BeginFollows(w, id, false, C.Step(w.c, C.DataFrame(id, serial)));
    } else {
      DisplacesFollows(w, id, serial, C.Step(w.c, C.DataFrame(id, serial)));
    }
  }

  lemma ApplicationFollows(w: Net, e: C.Event)
    requires Inv(w) && !Quiet(w.c, e) && (e.Open? || e.AppendData? || e.Close?)
    ensures Followed(w, C.Step(w.c, e), Telling(w.c, w.stories, e))
  {
    match e
    case Open(id, marker) => OpenFollows(w, id, marker);
    case AppendData(half, chunks, eof) => AppendFollows(w, half, chunks, eof);
    case Close(half) => CloseFollows(w, half);
  }

  lemma FrameFollows(w: Net, e: C.Event)
    requires Inv(w) && FromPeer(w, e) && !Quiet(w.c, e) && (e.DataFrame? || e.AckFrame? || e.WindowFrame? || e.CancelFrame?)
    ensures Followed(w, C.Step(w.c, e), Telling(w.c, w.stories, e))
  {
    match e
    case DataFrame(id, serial) => DataFollows(w, id, serial);
    case AckFrame(now, rs, delay) => AckFollows(w, now, rs, delay);
    case WindowFrame(id, limit) => if limit >= 0 { WindowFollows(w, id, limit); } else { LowWindowFollows(w, id, limit); }
    case CancelFrame(id) => CancelFollows(w, id);
  }

  lemma LowWindowFollows(w: Net, id: nat, limit: int)
    requires Inv(w) && FromPeer(w, C.WindowFrame(id, limit)) && w.c.place.Top? && limit < 0
    ensures Followed(w, C.Step(w.c, C.WindowFrame(id, limit)), w.stories)
  {
    WindowReaches(w.c, id, limit);
    ReachedFollows(w, C.Step(w.c, C.WindowFrame(id, limit)), id, Wider(limit), P.Close);
  }

  lemma PassFollows(w: Net, e: C.Event)
    requires Inv(w) && !Quiet(w.c, e) && (e.Wake? || e.PopStream? || e.Choose?)
    ensures Followed(w, C.Step(w.c, e), Telling(w.c, w.stories, e))
  {
    match e
    case Wake(now) => WakeFollows(w, now);
    case PopStream => PopFollows(w);
    case Choose(now, window, mtu) => ChooseFollows(w, now, window, mtu);
  }

  lemma LoopFollows(w: Net, e: C.Event)
    requires Inv(w) && FromPeer(w, e)
    ensures Followed(w, C.Step(w.c, e), Telling(w.c, w.stories, e))
  {
    if Quiet(w.c, e) {
      QuietFollows(w, e);
    } else if e.Open? || e.AppendData? || e.Close? {
      ApplicationFollows(w, e);
    } else if e.Wake? || e.PopStream? || e.Choose? {
      PassFollows(w, e);
    } else {
      FrameFollows(w, e);
    }
  }

  lemma StreamsStay(c: C.Conn, e: C.Event)
    ensures c.f.streams.Keys <= C.Step(c, e).f.streams.Keys
  {
    LoopMakesOne(c, map[], e);
  }

  // ---------------------------------------------------------------- packet numbers

  /** A step hands at most one new packet to the handler, under a new number; a data packet carries
      the range in hand. */
  ghost predicate Sends(c: C.Conn, c': C.Conn, p: Packet) {
    p.pn == c.nextPn && c'.nextPn == c.nextPn + 1 && (p.link.Data? ==> c.place == C.Built(p.link.half, p.link.range))
  }

  ghost predicate OneNew(c: C.Conn, c': C.Conn) {
    && c.nextPn <= c'.nextPn
    && (forall p :: p in c'.h.sent ==> p in c.h.sent || Sends(c, c', p))
    && (forall p, q :: p in c'.h.sent && q in c'.h.sent && p !in c.h.sent && q !in c.h.sent ==> p == q)
  }

  lemma RecordSendsOne(c: C.Conn, p: Packet, c': C.Conn)
    requires p.pn == c.nextPn && (p.link.Data? ==> c.place == C.Built(p.link.half, p.link.range))
    requires c'.h.sent == c.h.sent + [p] && c'.nextPn == c.nextPn + 1
    ensures OneNew(c, c')
  {
  }

  lemma ChooseSendsOne(c: C.Conn, now: int, window: nat, mtu: int)
    requires c.place.Holding?
    ensures OneNew(c, C.Choosing(c, now, window, mtu))
  {
    var c' := C.Choosing(c, now, window, mtu);
    if !c.CanSend() && !c.place.pto {
    } else if c.q.Live(c.place.cancel) {
      RecordSendsOne(c, C.ControlPacket(c.nextPn, now, CancelStream(c.place.cancel.value)), c');
    } else if c.q.Live(c.place.update) {
      RecordSendsOne(c, C.ControlPacket(c.nextPn, now, WindowUpdate(c.place.update.value, window)), c');
    }
  }

  lemma LoopSendsOne(c: C.Conn, e: C.Event)
    ensures OneNew(c, C.Step(c, e))
  {
    var c' := C.Step(c, e);
    match e
    case AckFrame(now, rs, delay) => if c.place.Top? && rs != [] { HandlerRuns.AckDraws(c.h, now, rs, delay); }
    case Wake(now) => HandlerRuns.TimeoutDraws(c.h, now);
    case Choose(now, window, mtu) => if c.place.Holding? { ChooseSendsOne(c, now, window, mtu); }
    case ProbeMtu(_, _) => RecordsOne(c, e);
    case SendDatagram(_, _, _) => RecordsOne(c, e);
    case RecordSend(_) => RecordsOne(c, e);
    case _ => OthersSendNone(c, e);
  }

  lemma RecordsOne(c: C.Conn, e: C.Event)
    requires e.ProbeMtu? || e.SendDatagram? || e.RecordSend?
    ensures OneNew(c, C.Step(c, e))
  {
    var c' := C.Step(c, e);
    match e
    case ProbeMtu(now, size) => if c.place.Top? { RecordSendsOne(c, C.ProbePacket(c.nextPn, now, size), c'); }
    case SendDatagram(now, length, exempt) =>
      if c.place.Awake? && (exempt || c.CanSend()) {
        RecordSendsOne(c, C.DatagramPacket(c.nextPn, now, length, exempt), c');
      }
    case RecordSend(now) =>
      if c.place.Built? { RecordSendsOne(c, C.DataPacket(c.nextPn, now, c.place.half, c.place.range), c'); }
  }

  lemma OthersSendNone(c: C.Conn, e: C.Event)
    requires !e.AckFrame? && !e.Wake? && !e.Choose? && !e.ProbeMtu? && !e.SendDatagram? && !e.RecordSend?
    ensures C.Step(c, e).h == c.h && C.Step(c, e).nextPn == c.nextPn
  {
  }

  lemma LoopKeeps(w: Net, e: C.Event)
    requires Inv(w) && FromPeer(w, e)
    ensures Inv(Looping(w, e))
  {
    LoopFollows(w, e);
    LoopSendsOne(w.c, e);
    StreamsStay(w.c, e);
    LogGrows(w, Looping(w, e));
    NumbersGrow(w, Looping(w, e));
  }

  lemma LogGrows(w: Net, w': Net)
    requires Inv(w) && Followed(w, w'.c, w'.stories) && OneNew(w.c, w'.c)
    requires w'.log == w.log + NoOrphans.Elems(w'.c.h.sent) && w'.received == w.received
    requires w.c.f.streams.Keys <= w'.c.f.streams.Keys
    ensures Logged(w')
  {
    forall p | p in w'.log
      ensures WasEmitted(w'.stories, p.link) && (p.link.Data? ==> p.link.half in w'.c.f.streams)
      ensures p.pn in w.received ==> WasDelivered(w'.stories, p.link)
    {
      assert p.link.Data? ==> p.link.half in w.c.f.streams;
      EmittedContinues(w.c.f, w.stories, w'.stories, p.link);
    }
  }

  lemma NumbersGrow(w: Net, w': Net)
    requires Numbered(w) && OneNew(w.c, w'.c)
    requires w'.log == w.log + NoOrphans.Elems(w'.c.h.sent) && w'.received == w.received
    ensures Numbered(w')
  {
    forall p, q | p in w'.log && q in w'.log && p.pn == q.pn ensures p == q {
    }
  }

  lemma PeerLeavesSender(p: P.Pair, e: P.Event)
    requires AtPeer(e) || e.Deliver?
    ensures P.Step(p, e).snd == p.snd
  {
  }

  /** What happens at the peer alone changes no half of the loop. */
  lemma PeerMirrors(f: C.Flow, m: map<Half, Story>, half: Half, e: P.Event, table: map<nat, Half>)
    requires Mirrors(f, m) && Tabled(table, m) && (AtPeer(e) || e.Deliver?)
    ensures Mirrors(f, Tell(m, half, e)) && Tabled(table, Tell(m, half, e)) && Grows(m, Tell(m, half, e))
  {
    TellGrows(m, half, e);
    TellTabled(table, m, half, e);
    if half in m {
      PeerLeavesSender(m[half].ends, e);
    }
    TellMirrors(f, m, half, e, f);
  }

  lemma ArrivalIsDelivery(m: map<Half, Story>, p: Packet)
    requires WasEmitted(m, p.link) && forall half :: half in m ==> half == First(half.id)
    ensures WasDelivered(TellArrived(m, p), p.link)
  {
  }

  lemma MoreStories(w: Net, m: map<Half, Story>)
    requires Inv(w) && Mirrors(w.c.f, m) && Tabled(w.c.table, m) && Grows(w.stories, m)
    ensures Inv(w.(stories := m))
  {
    forall p | p in w.log ensures WasEmitted(m, p.link) && (p.pn in w.received ==> WasDelivered(m, p.link)) {
      EmittedStays(w.stories, m, p.link);
    }
    EmittedStays(w.stories, m, InHand(w.c.place));
  }

  lemma MoreReceived(w: Net, p: Packet)
    requires Inv(w) && p in w.log && WasDelivered(w.stories, p.link)
    ensures Inv(w.(received := w.received + {p.pn}))
  {
  }

  lemma ArriveKeeps(w: Net, p: Packet)
    requires Inv(w) && p in w.log
    ensures Inv(Step(w, Arrive(p)))
  {
    var m := TellArrived(w.stories, p);
    assert Mirrors(w.c.f, m) && Tabled(w.c.table, m) && Grows(w.stories, m) by {
      if p.link.Data? && p.link.half == First(p.link.half.id) {
        PeerMirrors(w.c.f, w.stories, p.link.half, P.Deliver(p.link.range), w.c.table);
      }
    }
    ArrivalIsDelivery(w.stories, p);
    MoreStories(w, m);
    MoreReceived(w.(stories := m), p);
  }

  lemma PeerKeeps(w: Net, half: Half, step: P.Event)
    requires Inv(w) && AtPeer(step)
    ensures Inv(Step(w, Peer(half, step)))
  {
    PeerMirrors(w.c.f, w.stories, half, step, w.c.table);
    MoreStories(w, Tell(w.stories, half, step));
  }

  lemma StepKeeps(w: Net, e: Event)
    requires Inv(w)
    ensures Inv(Step(w, e))
  {
    match e
    case Loop(e) => if FromPeer(w, e) { LoopKeeps(w, e); }
    case Arrive(p) => if p in w.log { ArriveKeeps(w, p); }
    case Peer(half, step) => if AtPeer(step) { PeerKeeps(w, half, step); }
  }

  lemma {:induction false} RunKeeps(server: bool, rtt: Rtts.Rtt, cwnd: int, events: seq<Event>)
    ensures Inv(Exec(Init(server, rtt, cwnd), events))
  {
    if events != [] {
      RunKeeps(server, rtt, cwnd, events[..|events| - 1]);
      StepKeeps(Exec(Init(server, rtt, cwnd), events[..|events| - 1]), events[|events| - 1]);
    }
  }

  // ---------------------------------------------------------------- what holds of every story

  ghost predicate Every(m: map<Half, Story>, ok: (Half, Story) -> bool) { forall half :: half in m ==> ok(half, m[half]) }

  /** Nothing that can be told breaks it, with this budget for triggerPacket. */
  ghost predicate Lasting(ok: (Half, Story) -> bool, budget: int) {
    && (forall id, open :: ok(First(id), New(id, open)))
    && (forall half, t, e: P.Event :: ok(half, t) && (e.Emit? ==> e.maxPayload == budget) ==> ok(half, Longer(t, e)))
  }

  lemma {:induction false} TellAllAckedKeeps(m: map<Half, Story>, ps: seq<Packet>, ok: (Half, Story) -> bool, budget: int)
    requires Every(m, ok) && Lasting(ok, budget)
    ensures Every(TellAllAcked(m, ps), ok)
    decreases |ps|
  {
    if ps != [] {
      TellAllAckedKeeps(TellAcked(m, ps[0]), ps[1..], ok, budget);
    }
  }

  lemma {:induction false} TellAllLostKeeps(m: map<Half, Story>, ps: seq<Packet>, ok: (Half, Story) -> bool, budget: int)
    requires Every(m, ok) && Lasting(ok, budget)
    ensures Every(TellAllLost(m, ps), ok)
    decreases |ps|
  {
    if ps != [] {
      TellAllLostKeeps(TellLost(m, ps[0]), ps[1..], ok, budget);
    }
  }

  lemma TellOutcomeKeeps(m: map<Half, Story>, o: Outcome, ok: (Half, Story) -> bool, budget: int)
    requires Every(m, ok) && Lasting(ok, budget)
    ensures Every(TellOutcome(m, o), ok)
  {
    TellAllAckedKeeps(m, o.acked, ok, budget);
    TellAllLostKeeps(TellAllAcked(m, o.acked), o.lost, ok, budget);
  }

  predicate Chooses(e: Event) { e.Loop? && e.e.Choose? }

  lemma TellingKeeps(c: C.Conn, m: map<Half, Story>, e: C.Event, ok: (Half, Story) -> bool, budget: int)
    requires Every(m, ok) && Lasting(ok, budget) && (e.Choose? ==> e.mtu - FIXED_OVERHEAD == budget)
    ensures Every(Telling(c, m, e), ok)
  {
    match e
    case AckFrame(now, rs, delay) => if rs != [] { TellOutcomeKeeps(m, ReceiveACK(c.h, now, rs, delay), ok, budget); }
    case Wake(now) => TellOutcomeKeeps(m, OnTimeout(c.h, now), ok, budget);
    case _ =>
  }

  lemma StepKeepsEvery(w: Net, e: Event, ok: (Half, Story) -> bool, budget: int)
    requires Every(w.stories, ok) && Lasting(ok, budget) && (Chooses(e) ==> e.e.mtu - FIXED_OVERHEAD == budget)
    ensures Every(Step(w, e).stories, ok)
  {
    match e
    case Loop(e) => TellingKeeps(w.c, w.stories, e, ok, budget);
    case Arrive(p) =>
    case Peer(half, step) =>
  }

  lemma ToldStays(half: Half, t: Story, e: P.Event)
    requires Told(half, t)
    ensures Told(half, Longer(t, e))
  {
    assert (t.events + [e])[..|t.events|] == t.events;
  }

  lemma ToldLasts(budget: int)
    ensures Lasting(Told, budget)
  {
    forall half, t, e: P.Event | Told(half, t) ensures Told(half, Longer(t, e)) {
      ToldStays(half, t, e);
    }
  }

  lemma {:induction false} RunIsTold(server: bool, rtt: Rtts.Rtt, cwnd: int, events: seq<Event>)
    ensures Every(Exec(Init(server, rtt, cwnd), events).stories, Told)
  {
    if events != [] {
      var w, e := Exec(Init(server, rtt, cwnd), events[..|events| - 1]), events[|events| - 1];
      RunIsTold(server, rtt, cwnd, events[..|events| - 1]);
      var budget := if Chooses(e) then e.e.mtu - FIXED_OVERHEAD else 0;
      ToldLasts(budget);
      StepKeepsEvery(w, e, Told, budget);
    }
  }

  // ---------------------------------------------------------------- an MTU that never falls

  ghost predicate RangeFits(id: nat, x: SentRange, budget: int) {
    HeaderSize(id, x.offset, |x.data|) + |x.data| <= budget
  }

  /** Everything the half ever sent fits the budget as it is, and nothing was divided. */
  ghost predicate Fits(half: Half, t: Story, budget: int) {
    && Told(half, t) && t.ends.snd.id == half.id
    && (forall x :: x in t.ends.made ==> RangeFits(half.id, x, budget))
    && Continuations.Divisionless(Origin(half.id, t.open), t.events)
  }

  lemma TriggerKeepsId(s: Sender, budget: int)
    ensures Trigger(s, budget).s.id == s.id
  {
  }

  lemma IdStays(p: P.Pair, e: P.Event)
    ensures P.Step(p, e).snd.id == p.snd.id
  {
    if e.Emit? {
      TriggerKeepsId(p.snd, e.maxPayload);
    }
  }

  /** A new range fits the budget it was made for. */
  lemma FreshFits(s: Sender, budget: int)
    requires budget <= Varints.MAX_VARINT
    ensures var t := Fresh(s, budget); t.out.Some? ==> RangeFits(s.id, t.out.value, budget)
  {
  }

  lemma EmitFits(p: P.Pair, budget: int)
    requires PrefixSafety.Safe(p) && budget <= Varints.MAX_VARINT
    requires forall x :: x in p.made ==> RangeFits(p.snd.id, x, budget)
    ensures !Divides(p.snd, budget)
    ensures forall x :: x in P.Emitting(p, budget).made ==> RangeFits(p.snd.id, x, budget)
  {
    if p.snd.retransmit == [] {
      FreshFits(p.snd, budget);
    } else {
      assert p.snd.retransmit[0] in p.made;
    }
  }

  lemma FitsStays(half: Half, t: Story, e: P.Event, budget: int)
    requires Fits(half, t, budget) && budget <= Varints.MAX_VARINT && (e.Emit? ==> e.maxPayload == budget)
    ensures Fits(half, Longer(t, e), budget)
  {
    ToldStays(half, t, e);
    IdStays(t.ends, e);
    PrefixSafety.RunIsSafe(half.id, C.INITIAL_FLOW_WINDOW, t.open, t.events);
    Continuations.EveryEmitConcat(Origin(half.id, t.open), t.events, [e], Continuations.Undivided);
    Continuations.EveryEmitOne(t.ends, e, Continuations.Undivided);
    if e.Emit? {
      EmitFits(t.ends, budget);
    } else {
      Division.MadeGrows(t.ends, e);
    }
  }

  ghost function Fitting(budget: int): (Half, Story) -> bool { (half: Half, t: Story) => Fits(half, t, budget) }

  lemma FittingLasts(budget: int)
    requires budget <= Varints.MAX_VARINT
    ensures Lasting(Fitting(budget), budget)
  {
    forall half, t, e: P.Event | Fitting(budget)(half, t) && (e.Emit? ==> e.maxPayload == budget)
      ensures Fitting(budget)(half, Longer(t, e))
    {
      FitsStays(half, t, e, budget);
    }
  }

  /** No pass works with a smaller MTU than an earlier one. */
  ghost predicate NeverFalls(events: seq<Event>) {
    forall i, j :: 0 <= i < j < |events| && Chooses(events[i]) && Chooses(events[j]) ==> events[i].e.mtu <= events[j].e.mtu
  }

  ghost predicate AtMost(events: seq<Event>, mtu: int) { forall e <- events :: Chooses(e) ==> e.e.mtu <= mtu }

  lemma FitsMore(m: map<Half, Story>, budget: int, budget': int)
    requires Every(m, Fitting(budget)) && budget <= budget'
    ensures Every(m, Fitting(budget'))
  {
    forall half | half in m ensures Fitting(budget')(half, m[half]) {
      assert Fitting(budget)(half, m[half]);
    }
  }

  lemma StepFits(w: Net, e: Event, budget: int)
    requires Every(w.stories, Fitting(budget)) && budget <= Varints.MAX_VARINT
    requires Chooses(e) ==> e.e.mtu - FIXED_OVERHEAD == budget
    ensures Every(Step(w, e).stories, Fitting(budget))
  {
    FittingLasts(budget);
    StepKeepsEvery(w, e, Fitting(budget), budget);
  }

  lemma {:induction false} RunFits(server: bool, rtt: Rtts.Rtt, cwnd: int, events: seq<Event>, mtu: int)
    requires NeverFalls(events) && AtMost(events, mtu) && mtu <= Varints.MAX_VARINT
    ensures Every(Exec(Init(server, rtt, cwnd), events).stories, Fitting(mtu - FIXED_OVERHEAD))
    decreases |events|
  {
    if events != [] {
      var before, e := events[..|events| - 1], events[|events| - 1];
      var top := if Chooses(e) then e.e.mtu else mtu;
      assert e in events && AtMost(before, top);
      RunFits(server, rtt, cwnd, before, top);
      StepFits(Exec(Init(server, rtt, cwnd), before), e, top - FIXED_OVERHEAD);
      FitsMore(Exec(Init(server, rtt, cwnd), events).stories, top - FIXED_OVERHEAD, mtu - FIXED_OVERHEAD);
    }
  }

  // ---------------------------------------------------------------- which halves have a story

  /** The peer received data of another half of the number. */
  ghost predicate Mixed(w: Net, half: Half) {
    exists p :: p in w.log && p.pn in w.received && p.link.Data? && p.link.half.id == half.id && p.link.half != half
  }

  ghost predicate Storied(w: Net) {
    && (forall half :: half in w.c.f.streams ==> First(half.id) in w.c.f.streams)
    && (forall half :: half in w.c.f.streams ==> (half in w.stories <==> half == First(half.id) && !Mixed(w, half)))
    && (forall half :: half in w.stories ==> half in w.c.f.streams)
  }

  lemma {:induction false} ToldAllKeys(m: map<Half, Story>, ps: seq<Packet>)
    ensures TellAllAcked(m, ps).Keys == m.Keys && TellAllLost(m, ps).Keys == m.Keys
    decreases |ps|
  {
    if ps != [] {
      assert TellAcked(m, ps[0]).Keys == m.Keys && TellLost(m, ps[0]).Keys == m.Keys;
      ToldAllKeys(TellAcked(m, ps[0]), ps[1..]);
      ToldAllKeys(TellLost(m, ps[0]), ps[1..]);
    }
  }

  lemma OutcomeKeys(m: map<Half, Story>, o: Outcome)
    ensures TellOutcome(m, o).Keys == m.Keys
  {
    ToldAllKeys(m, o.acked);
    ToldAllKeys(TellAllAcked(m, o.acked), o.lost);
  }

  /** The step made this half, and a story for it if it is the first of its number. */
  ghost predicate Made(c: C.Conn, c': C.Conn, m: map<Half, Story>, m': map<Half, Story>, half: Half) {
    && half !in c.f.streams && c'.f.streams.Keys == c.f.streams.Keys + {half}
    && (half.serial > 0 ==> Half(half.id, half.serial - 1) in c.f.streams)
    && m'.Keys == if half == First(half.id) then m.Keys + {half} else m.Keys
  }

  ghost predicate OneMade(c: C.Conn, c': C.Conn, m: map<Half, Story>, m': map<Half, Story>) {
    (c'.f.streams.Keys == c.f.streams.Keys && m'.Keys == m.Keys) || exists half :: Made(c, c', m, m', half)
  }

  lemma MakingMakesOne(c: C.Conn, c': C.Conn, m: map<Half, Story>, m': map<Half, Story>, half: Half, marker: bool)
    requires C.Unused(c.f, half) && c'.f.streams == c.f.streams[half := NewSender(half.id, C.INITIAL_FLOW_WINDOW, marker)]
    requires m'.Keys == if half == First(half.id) then m.Keys + {half} else m.Keys
    ensures OneMade(c, c', m, m')
  {
    assert c'.f.streams.Keys == c.f.streams.Keys + {half};
    assert Made(c, c', m, m', half);
  }

  lemma LoopMakesOne(c: C.Conn, m: map<Half, Story>, e: C.Event)
    ensures OneMade(c, C.Step(c, e), m, Telling(c, m, e))
  {
    var c', m' := C.Step(c, e), Telling(c, m, e);
    if e.Open? && !Quiet(c, e) {
      MakingMakesOne(c, c', m, m', First(e.id), e.marker);
    } else if e.DataFrame? && !Quiet(c, e) {
      MakingMakesOne(c, c', m, m', Half(e.id, e.serial), false);
    } else {
      OtherStepsMakeNone(c, m, e);
    }
  }

  lemma OtherStepsMakeNone(c: C.Conn, m: map<Half, Story>, e: C.Event)
    requires (e.Open? || e.DataFrame?) ==> Quiet(c, e)
    ensures C.Step(c, e).f.streams.Keys == c.f.streams.Keys && Telling(c, m, e).Keys == m.Keys
  {
    match e
    case AckFrame(now, rs, delay) =>
      if rs != [] {
        NoOrphans.ReceivedTidy(c, ReceiveACK(c.h, now, rs, delay));
        OutcomeKeys(m, ReceiveACK(c.h, now, rs, delay));
      }
    case Wake(now) =>
      NoOrphans.ReceivedTidy(c, OnTimeout(c.h, now));
      OutcomeKeys(m, OnTimeout(c.h, now));
    case _ => SimpleStepsMakeNone(c, m, e);
  }

  lemma SimpleStepsMakeNone(c: C.Conn, m: map<Half, Story>, e: C.Event)
    requires ((e.Open? || e.DataFrame?) ==> Quiet(c, e)) && !e.AckFrame? && !e.Wake?
    ensures C.Step(c, e).f.streams.Keys == c.f.streams.Keys && Telling(c, m, e).Keys == m.Keys
  {
    if Quiet(c, e) {
      QuietStays(c, e);
      QuietTellsNothing(c, m, e);
    } else if e.AppendData? || e.Close? || e.WindowFrame? || e.CancelFrame? {
      TouchesMakeNone(c, m, e);
    } else if e.Choose? {
      TriggersBuilds(c, m, e.now, e.window, e.mtu);
      BuildingStays(c, c.place.stream.value, e.mtu);
    }
  }

  lemma TouchesMakeNone(c: C.Conn, m: map<Half, Story>, e: C.Event)
    requires e.AppendData? || e.Close? || e.WindowFrame? || e.CancelFrame?
    ensures C.Step(c, e).f.streams.Keys == c.f.streams.Keys && Telling(c, m, e).Keys == m.Keys
  {
  }

  lemma LoopMixesNone(w: Net, e: C.Event, half: Half)
    requires Inv(w) && FromPeer(w, e)
    ensures Mixed(Looping(w, e), half) <==> Mixed(w, half)
  {
    var w' := Looping(w, e);
    LoopSendsOne(w.c, e);
    if Mixed(w', half) {
      var p :| p in w'.log && p.pn in w.received && p.link.Data? && p.link.half.id == half.id && p.link.half != half;
      assert p in w.log;
    }
  }

  lemma LoopKeepsStoried(w: Net, e: C.Event)
    requires Inv(w) && Storied(w) && FromPeer(w, e)
    ensures Storied(Looping(w, e))
  {
    LoopMakesOne(w.c, w.stories, e);
    forall half ensures Mixed(Looping(w, e), half) <==> Mixed(w, half) {
      LoopMixesNone(w, e, half);
    }
    forall half | Mixed(w, half) ensures First(half.id) in w.c.f.streams {
      MixedIsMade(w, half);
    }
    MadeKeepsStoried(w, Looping(w, e));
  }

  lemma MadeKeepsStoried(w: Net, w': Net)
    requires Storied(w) && OneMade(w.c, w'.c, w.stories, w'.stories)
    requires forall half :: Mixed(w', half) <==> Mixed(w, half)
    requires forall half :: Mixed(w, half) ==> First(half.id) in w.c.f.streams
    ensures Storied(w')
  {
  }

  lemma MixedIsMade(w: Net, half: Half)
    requires Inv(w) && Storied(w) && Mixed(w, half)
    ensures First(half.id) in w.c.f.streams
  {
    var p :| p in w.log && p.pn in w.received && p.link.Data? && p.link.half.id == half.id && p.link.half != half;
    assert p.link.half in w.c.f.streams;
  }

  lemma ArriveKeepsStoried(w: Net, p: Packet)
    requires Inv(w) && Storied(w) && p in w.log
    ensures Storied(Step(w, Arrive(p)))
  {
    forall half | half in w.c.f.streams && half == First(half.id)
      ensures Mixed(Step(w, Arrive(p)), half) <==> Mixed(w, half) || Mixes(p, half)
    {
      ArrivalMixes(w, p, half);
    }
  }

  predicate Mixes(p: Packet, half: Half) { p.link.Data? && p.link.half.id == half.id && p.link.half != half }

  lemma ArrivalMixes(w: Net, p: Packet, half: Half)
    requires Inv(w) && p in w.log
    ensures Mixed(Step(w, Arrive(p)), half) <==> Mixed(w, half) || Mixes(p, half)
  {
    var w' := Step(w, Arrive(p));
    if Mixed(w', half) {
      var q :| q in w.log && q.pn in w'.received && q.link.Data? && q.link.half.id == half.id && q.link.half != half;
      assert q.pn in w.received || q == p;
    }
    if Mixes(p, half) {
      assert p in w'.log && p.pn in w'.received;
    }
    if Mixed(w, half) {
      var q :| q in w.log && q.pn in w.received && q.link.Data? && q.link.half.id == half.id && q.link.half != half;
      assert q in w'.log && q.pn in w'.received;
    }
  }

  lemma {:induction false} StoriesExactly(server: bool, rtt: Rtts.Rtt, cwnd: int, events: seq<Event>)
    ensures Inv(Exec(Init(server, rtt, cwnd), events)) && Storied(Exec(Init(server, rtt, cwnd), events))
  {
    if events != [] {
      var w, e := Exec(Init(server, rtt, cwnd), events[..|events| - 1]), events[|events| - 1];
      StoriesExactly(server, rtt, cwnd, events[..|events| - 1]);
      StepKeeps(w, e);
      match e
      case Loop(e) => if FromPeer(w, e) { LoopKeepsStoried(w, e); }
      case Arrive(p) => if p in w.log { ArriveKeepsStoried(w, p); }
      case Peer(half, step) => assert Tell(w.stories, half, step).Keys == w.stories.Keys;
    }
  }

  // ---------------------------------------------------------------- theorems

  /** A half of which the loop keeps a story is the sending end of a run of a stream pair. */
  lemma StoriesArePairs(server: bool, rtt: Rtts.Rtt, cwnd: int, events: seq<Event>)
    ensures var w := Exec(Init(server, rtt, cwnd), events);
            Mirrors(w.c.f, w.stories) && Tabled(w.c.table, w.stories) && Every(w.stories, Told)
  {
    StoriesExactly(server, rtt, cwnd, events);
    RunIsTold(server, rtt, cwnd, events);
  }

  /** Every first half of a number, in every run of the loop, is the sending end of a run of a stream
      pair, until the peer receives data of a later half of the number. The pair knows whether the
      half is in the connection's table, and what an ACK retires on the way was delivered. */
  lemma StreamsArePairs(server: bool, rtt: Rtts.Rtt, cwnd: int, events: seq<Event>, id: nat)
    requires var w := Exec(Init(server, rtt, cwnd), events); First(id) in w.c.f.streams && !Mixed(w, First(id))
    ensures var w, half := Exec(Init(server, rtt, cwnd), events), First(id);
            && half in w.stories
            && w.stories[half].ends == P.Exec(Origin(id, w.stories[half].open), w.stories[half].events)
            && w.stories[half].ends.snd == w.c.f.streams[half]
            && (w.stories[half].ends.listed <==> id in w.c.table && w.c.table[id] == half)
  {
    StoriesExactly(server, rtt, cwnd, events);
    StoriesArePairs(server, rtt, cwnd, events);
  }

  /** A run in which the MTU never falls divides nothing. */
  lemma RisingMtuIsHarmless(server: bool, rtt: Rtts.Rtt, cwnd: int, events: seq<Event>, half: Half)
    requires NeverFalls(events) && AtMost(events, Varints.MAX_VARINT) && half in Exec(Init(server, rtt, cwnd), events).stories
    ensures var t := Exec(Init(server, rtt, cwnd), events).stories[half];
            Continuations.Divisionless(Origin(half.id, t.open), t.events) && Reliability.HarmlessCuts(Origin(half.id, t.open), t.events)
  {
    RunFits(server, rtt, cwnd, events, Varints.MAX_VARINT);
    var t := Exec(Init(server, rtt, cwnd), events).stories[half];
    assert Fitting(Varints.MAX_VARINT - FIXED_OVERHEAD)(half, t);
    Division.EveryEmitWeakens(Origin(half.id, t.open), t.events, Continuations.Undivided, Reliability.HarmlessAt);
  }

  /** Reliability of the whole loop: of every first half of a number, unless the peer received data of
      a later half of it: what the peer read is a prefix of what was appended, and when the loop finds
      the half completed and its divisions were harmless, everything sent is at the peer, if and only
      if the peer had not removed its entry before that. */
  lemma LoopIsReliable(server: bool, rtt: Rtts.Rtt, cwnd: int, events: seq<Event>, id: nat)
    requires var w := Exec(Init(server, rtt, cwnd), events); First(id) in w.c.f.streams && !Mixed(w, First(id))
    ensures var w, half := Exec(Init(server, rtt, cwnd), events), First(id);
            && half in w.stories && w.stories[half].ends.read <= w.stories[half].ends.appended
            && (w.c.f.streams[half].Completed() && Reliability.HarmlessCuts(Origin(id, w.stories[half].open), w.stories[half].events) ==>
                  var r := Reliability.RemovalPoint(Origin(id, w.stories[half].open), w.stories[half].events);
                  Reliability.Arrived(w.stories[half].ends) <==> (r.Some? ==> Reliability.Arrived(r.value)))
  {
    StreamsArePairs(server, rtt, cwnd, events, id);
    var w, half := Exec(Init(server, rtt, cwnd), events), First(id);
    var t := w.stories[half];
    PrefixSafety.PrefixSafety(id, C.INITIAL_FLOW_WINDOW, t.open, t.events);
    if w.c.f.streams[half].Completed() && Reliability.HarmlessCuts(Origin(id, t.open), t.events) {
      Reliability.CompletedArrivesExactly(id, C.INITIAL_FLOW_WINDOW, t.open, t.events);
    }
  }

  /** Flow control of the whole loop: when the peer has read all that a live first half sent, the half
      may advance, exactly if the connection's table has it or it needs no further limit. */
  lemma LoopNeverDeadlocks(server: bool, rtt: Rtts.Rtt, cwnd: int, events: seq<Event>, id: nat)
    requires var w := Exec(Init(server, rtt, cwnd), events); First(id) in w.c.f.streams && !Mixed(w, First(id))
    ensures var w, half := Exec(Init(server, rtt, cwnd), events), First(id);
            && half in w.stories
            && var p := w.stories[half].ends;
               !p.rcv.oq.eofReached && |p.read| == p.snd.offset ==>
                 (FlowControl.MayAdvance(p) <==> (id in w.c.table && w.c.table[id] == half) || w.c.f.streams[half].Sendable() > 0)
  {
    StreamsArePairs(server, rtt, cwnd, events, id);
    var t := Exec(Init(server, rtt, cwnd), events).stories[First(id)];
    if !t.ends.rcv.oq.eofReached && |t.ends.read| == t.ends.snd.offset {
      FlowControl.FlowNeverDeadlocks(id, C.INITIAL_FLOW_WINDOW, t.open, t.events);
    }
  }

  // ---------------------------------------------------------------- both ends together

  /** The steps that the loop itself took. */
  ghost function LoopSteps(w: Net, events: seq<Event>): seq<C.Event> {
    if events == [] then []
    else
      var before, e := events[..|events| - 1], events[|events| - 1];
      LoopSteps(w, before) + (if e.Loop? && FromPeer(Exec(w, before), e.e) then [e.e] else [])
  }

  ghost predicate AllAllowed(events: seq<Event>) { forall e <- events :: e.Loop? ==> C.Allowed(e.e) }

  lemma {:induction false} LoopRuns(w: Net, events: seq<Event>)
    ensures Exec(w, events).c == C.Exec(w.c, LoopSteps(w, events))
    decreases |events|
  {
    if events != [] {
      var before, e := events[..|events| - 1], events[|events| - 1];
      LoopRuns(w, before);
      var w', steps := Exec(w, before), LoopSteps(w, before);
      if e.Loop? && FromPeer(w', e.e) {
        assert (steps + [e.e])[..|steps|] == steps;
        assert C.Exec(w.c, steps + [e.e]) == C.Step(w'.c, e.e);
      } else {
        assert Step(w', e).c == w'.c;
        assert LoopSteps(w, events) == steps;
      }
    }
  }

  lemma {:induction false} LoopStepsAllowed(w: Net, events: seq<Event>)
    requires AllAllowed(events)
    ensures NoOrphans.AllAllowed(LoopSteps(w, events))
    decreases |events|
  {
    if events != [] {
      LoopStepsAllowed(w, events[..|events| - 1]);
      assert events[|events| - 1] in events;
    }
  }

  /** No byte falls between the two ends: while the peer has its entry and the divisions were
      harmless, a sent byte is at the peer, or it lies in a tracked range that waits for
      retransmission, is about to be recorded, or is carried by an outstanding packet with the loss
      timer armed. */
  lemma EveryByteIsKept(server: bool, rtt: Rtts.Rtt, cwnd: int, events: seq<Event>, half: Half, b: nat)
    requires cwnd > 0 && AllAllowed(events)
    requires var w := Exec(Init(server, rtt, cwnd), events);
             && half in w.stories && b < w.stories[half].ends.snd.offset && w.stories[half].ends.routed
             && Reliability.HarmlessCuts(Origin(half.id, w.stories[half].open), w.stories[half].events)
    ensures var w := Exec(Init(server, rtt, cwnd), events);
            && half in w.c.f.streams
            && (|| Reliability.Has(w.stories[half].ends, b)
                || exists x :: x in w.c.f.streams[half].sentRanges && x.Has(b)
                               && (x in w.c.f.streams[half].retransmit || w.c.place == C.Built(half, x)
                                   || (NoOrphans.Carries(NoOrphans.Elems(w.c.h.sent), half, x) && w.c.h.timer.Some?)))
  {
    var w := Exec(Init(server, rtt, cwnd), events);
    var t := w.stories[half];
    StoriesArePairs(server, rtt, cwnd, events);
    Reliability.RunIsReliable(half.id, C.INITIAL_FLOW_WINDOW, t.open, t.events);
    LoopRuns(Init(server, rtt, cwnd), events);
    LoopStepsAllowed(Init(server, rtt, cwnd), events);
    NoOrphans.RunKeeps(server, rtt, cwnd, LoopSteps(Init(server, rtt, cwnd), events));
    if !Reliability.Has(t.ends, b) {
      TrackedIsAttended(w.c, NoOrphans.Evicted(Init(server, rtt, cwnd).c, LoopSteps(Init(server, rtt, cwnd), events)), half, t.ends, b);
    }
  }

  lemma TrackedIsAttended(c: C.Conn, gone: set<Half>, half: Half, p: P.Pair, b: nat)
    requires NoOrphans.Inv(c, gone) && half in c.f.streams && p.snd == c.f.streams[half]
    requires Reliability.BytesKept(p) && b < p.snd.offset && !Reliability.Has(p, b)
    ensures exists x :: x in c.f.streams[half].sentRanges && x.Has(b)
                        && (x in c.f.streams[half].retransmit || c.place == C.Built(half, x)
                            || (NoOrphans.Carries(NoOrphans.Elems(c.h.sent), half, x) && c.h.timer.Some?))
  {
    var x :| x in p.snd.sentRanges && x.Has(b);
    assert NoOrphans.StreamOk(p.snd, half, c.f.acked, NoOrphans.Elems(c.h.sent), NoOrphans.InHand(c.place));
    assert x in p.snd.retransmit || (half, x) in NoOrphans.InHand(c.place) || NoOrphans.Carries(NoOrphans.Elems(c.h.sent), half, x);
  }
}
