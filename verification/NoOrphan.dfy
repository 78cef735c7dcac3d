/** What the run loop keeps: no stream with work is forgotten and no sent byte is lost track of. */
module NoOrphans {
  import opened Common
  import opened TriggerQueues
  import opened SendStreams
  import opened AckHandlers
  import opened Connections
  import AckWire
  import HandlerRuns
  import Rtts
  import Varints

  // ---------------------------------------------------------------- what must hold

  /** A stream has something to send now: a retransmission that is still tracked, or, before its
      EOF went out, bytes or an EOF that the flow window admits, or its open marker. */
  ghost predicate Work(s: Sender) {
    || (exists x :: x in s.retransmit && x in s.sentRanges)
    || (!s.eofSent && (s.pendingOpen || (s.Sendable() > 0 && (Flatten(s.inputBuffer) != [] || s.signalEOF || s.cancelRequested))))
  }

  ghost predicate Carries(cs: set<Packet>, half: Half, x: SentRange) {
    exists p :: p in cs && p.link == Data(half, x)
  }

  ghost predicate Owns(cs: set<Packet>, half: Half) {
    exists p :: p in cs && p.link.Data? && p.link.half == half
  }

  ghost predicate Distinct(s: Sender) {
    NoDuplicates(s.sentRanges) && forall x :: x in s.sentRanges ==> x.uid < s.nextUid
  }

  /** Every tracked range waits for retransmission, is on its way to the handler, or is carried by
      an outstanding packet. */
  ghost predicate Attended(s: Sender, half: Half, cs: set<Packet>, built: set<(Half, SentRange)>) {
    forall x :: x in s.sentRanges ==> x in s.retransmit || (half, x) in built || Carries(cs, half, x)
  }

  ghost predicate Known(ranges: seq<SentRange>, half: Half, acked: set<(Half, SentRange)>, b: nat) {
    exists x :: (x in ranges || (half, x) in acked) && x.Has(b)
  }

  ghost predicate EofKnown(ranges: seq<SentRange>, half: Half, acked: set<(Half, SentRange)>) {
    exists x :: (x in ranges || (half, x) in acked) && x.eof
  }

  /** Every byte sent was acknowledged or lies in a tracked range, and so does the EOF. */
  ghost predicate Accounted(s: Sender, half: Half, acked: set<(Half, SentRange)>) {
    && (forall b: nat :: b < s.offset ==> Known(s.sentRanges, half, acked, b))
    && (s.eofSent ==> EofKnown(s.sentRanges, half, acked))
  }

  ghost predicate StreamOk(s: Sender, half: Half, acked: set<(Half, SentRange)>, cs: set<Packet>, built: set<(Half, SentRange)>) {
    Distinct(s) && Attended(s, half, cs, built) && Accounted(s, half, acked)
  }

  ghost predicate Homed(s: Sender, half: Half, trigger: seq<Half>, cs: set<Packet>, elsewhere: set<Half>) {
    Work(s) ==> half in trigger || half in elsewhere || Owns(cs, half)
  }

  ghost predicate FlowOk(f: Flow, cs: set<Packet>, built: set<(Half, SentRange)>, elsewhere: set<Half>) {
    forall half :: half in f.streams ==>
      StreamOk(f.streams[half], half, f.acked, cs, built) && Homed(f.streams[half], half, f.trigger, cs, elsewhere)
  }

  // ---------------------------------------------------------------- one stream changes

  /** Only data packets carry anything. */
  lemma DropOther(f: Flow, p: Packet, cs: set<Packet>, built: set<(Half, SentRange)>, elsewhere: set<Half>)
    requires FlowOk(f, cs + {p}, built, elsewhere)
    requires p.link.Data? ==> p.link.half !in f.streams
    ensures FlowOk(f, cs, built, elsewhere)
  {
  }

  lemma MoreCarriers(f: Flow, cs: set<Packet>, cs': set<Packet>, built: set<(Half, SentRange)>, elsewhere: set<Half>)
    requires FlowOk(f, cs, built, elsewhere) && cs <= cs'
    ensures FlowOk(f, cs', built, elsewhere)
  {
  }

  /** The stream of a data packet that leaves: its range is dropped or queued, and the stream is on
      the trigger, so neither needs the packet any more. */
  lemma LeaveKeeps(f: Flow, half: Half, x: SentRange, s: Sender, g: Flow, p: Packet, cs: set<Packet>,
                   built: set<(Half, SentRange)>, elsewhere: set<Half>)
    requires FlowOk(f, cs + {p}, built, elsewhere) && half in f.streams && p.link == Data(half, x)
    requires g.streams == f.streams[half := s] && g.trigger == Pushed(f.trigger, half) && f.acked <= g.acked
    requires StreamOk(s, half, g.acked, cs, built)
    ensures FlowOk(g, cs, built, elsewhere)
  {
    forall k | k in g.streams
      ensures StreamOk(g.streams[k], k, g.acked, cs, built) && Homed(g.streams[k], k, g.trigger, cs, elsewhere)
    {
      if k != half {
        assert k in f.streams && g.streams[k] == f.streams[k];
        assert StreamOk(f.streams[k], k, f.acked, cs + {p}, built) && Homed(f.streams[k], k, f.trigger, cs + {p}, elsewhere);
        StaysAccounted(f.streams[k], k, f.acked, g.acked);
      }
    }
  }

  /** Ranges may be replaced as long as every byte and the EOF stay somewhere. */
  lemma StaysAccounted(s: Sender, half: Half, acked: set<(Half, SentRange)>, acked': set<(Half, SentRange)>)
    requires Accounted(s, half, acked) && acked <= acked'
    ensures Accounted(s, half, acked')
  {
    forall b: nat | b < s.offset ensures Known(s.sentRanges, half, acked', b) {
      assert Known(s.sentRanges, half, acked, b);
    }
  }

  lemma AckOneKeeps(f: Flow, p: Packet, cs: set<Packet>, built: set<(Half, SentRange)>, elsewhere: set<Half>)
    requires FlowOk(f, cs + {p}, built, elsewhere)
    ensures FlowOk(AckOne(f, p), cs, built, elsewhere)
  {
    if p.link.Data? && p.link.half in f.streams {
      var half, x := p.link.half, p.link.range;
      var s := f.streams[half];
      assert StreamOk(s, half, f.acked, cs + {p}, built);
      AckedStream(s, half, x, f.acked);
      WithoutMembers(s.sentRanges, x);
      LeaveKeeps(f, half, x, Acked(s, x), AckOne(f, p), p, cs, built, elsewhere);
    } else {
      DropOther(f, p, cs, built, elsewhere);
    }
  }

  lemma AckedStream(s: Sender, half: Half, x: SentRange, acked: set<(Half, SentRange)>)
    requires Distinct(s) && Accounted(s, half, acked)
    ensures Distinct(Acked(s, x)) && Accounted(Acked(s, x), half, acked + {(half, x)})
  {
    WithoutMembers(s.sentRanges, x);
    WithoutDistinct(s.sentRanges, x);
    var s' := Acked(s, x);
    forall b: nat | b < s.offset ensures Known(s'.sentRanges, half, acked + {(half, x)}, b) {
      assert Known(s.sentRanges, half, acked, b);
      var y :| (y in s.sentRanges || (half, y) in acked) && y.Has(b);
      assert y in s'.sentRanges || (half, y) in acked + {(half, x)};
    }
    if s.eofSent {
      var y :| (y in s.sentRanges || (half, y) in acked) && y.eof;
      assert y in s'.sentRanges || (half, y) in acked + {(half, x)};
    }
  }

  lemma LoseOneKeeps(f: Flow, p: Packet, cs: set<Packet>, built: set<(Half, SentRange)>, elsewhere: set<Half>)
    requires FlowOk(f, cs + {p}, built, elsewhere)
    ensures FlowOk(LoseOne(f, p), cs, built, elsewhere)
  {
  }

  // ---------------------------------------------------------------- whole calls of the handler

  ghost function Elems(ps: seq<Packet>): set<Packet> { set p | p in ps }

  lemma {:induction false} AckAllKeeps(f: Flow, ps: seq<Packet>, cs: set<Packet>, built: set<(Half, SentRange)>, elsewhere: set<Half>)
    requires FlowOk(f, cs + Elems(ps), built, elsewhere)
    ensures FlowOk(AckAll(f, ps), cs, built, elsewhere)
    decreases |ps|
  {
    if ps == [] {
      assert cs + Elems(ps) == cs;
    } else {
      assert cs + Elems(ps) == cs + Elems(ps[1..]) + {ps[0]};
      AckOneKeeps(f, ps[0], cs + Elems(ps[1..]), built, elsewhere);
      AckAllKeeps(AckOne(f, ps[0]), ps[1..], cs, built, elsewhere);
    }
  }

  lemma {:induction false} LoseAllKeeps(f: Flow, ps: seq<Packet>, cs: set<Packet>, built: set<(Half, SentRange)>, elsewhere: set<Half>)
    requires FlowOk(f, cs + Elems(ps), built, elsewhere)
    ensures FlowOk(LoseAll(f, ps), cs, built, elsewhere)
    decreases |ps|
  {
    if ps == [] {
      assert cs + Elems(ps) == cs;
    } else {
      assert cs + Elems(ps) == cs + Elems(ps[1..]) + {ps[0]};
      LoseOneKeeps(f, ps[0], cs + Elems(ps[1..]), built, elsewhere);
      LoseAllKeeps(LoseOne(f, ps[0]), ps[1..], cs, built, elsewhere);
    }
  }

  lemma ResendKeeps(f: Flow, p: Option<Packet>, cs: set<Packet>, built: set<(Half, SentRange)>, elsewhere: set<Half>)
    requires FlowOk(f, cs, built, elsewhere) && (p.Some? ==> p.value in cs)
    ensures FlowOk(Resend(f, p), cs, built, elsewhere)
  {
  }

  // ---------------------------------------------------------------- triggerPacket

  /** A retransmission that fits leaves its queue whole. */
  lemma WholeKeeps(s: Sender, half: Half, acked: set<(Half, SentRange)>, cs: set<Packet>)
    requires StreamOk(s, half, acked, cs, {}) && s.retransmit != []
    ensures StreamOk(s.(retransmit := s.retransmit[1..]), half, acked, cs, {(half, s.retransmit[0])})
  {
  }

  /** A division replaces a range by two that hold the same bytes: one leaves, one is queued. */
  lemma SplitKeeps(s: Sender, half: Half, n: nat, acked: set<(Half, SentRange)>, cs: set<Packet>)
    requires StreamOk(s, half, acked, cs, {}) && s.retransmit != [] && n <= |s.retransmit[0].data|
    ensures var popped := s.(retransmit := s.retransmit[1..]);
            var src := s.retransmit[0];
            StreamOk(Split(popped, src, n), half, acked, cs, {(half, SplitHead(popped, src, n))})
  {
    var popped, src := s.(retransmit := s.retransmit[1..]), s.retransmit[0];
    var head, tail := SplitHead(popped, src, n), SplitTail(popped, src, n);
    var t := Split(popped, src, n);
    WholeKeeps(s, half, acked, cs);
    ReplacedMembers(s.sentRanges, src, [head, tail]);
    ReplacedDistinct(s.sentRanges, src, head, tail, s.nextUid);
    assert Distinct(t);
    SplitStaysAccounted(s, half, n, acked);
    forall x | x in t.sentRanges
      ensures x in t.retransmit || (half, x) in {(half, head)} || Carries(cs, half, x)
    {
      if x in s.sentRanges && x != src {
        assert x in popped.retransmit || Carries(cs, half, x);
      }
    }
  }

  lemma SplitStaysAccounted(s: Sender, half: Half, n: nat, acked: set<(Half, SentRange)>)
    requires Distinct(s) && Accounted(s, half, acked) && s.retransmit != [] && n <= |s.retransmit[0].data|
    ensures Accounted(Split(s.(retransmit := s.retransmit[1..]), s.retransmit[0], n), half, acked)
  {
    var popped, src := s.(retransmit := s.retransmit[1..]), s.retransmit[0];
    var head, tail := SplitHead(popped, src, n), SplitTail(popped, src, n);
    var t := Split(popped, src, n);
    ReplacedMembers(s.sentRanges, src, [head, tail]);
    assert head in [head, tail] && tail in [head, tail];
    forall b: nat | b < t.offset ensures Known(t.sentRanges, half, acked, b) {
      assert Known(s.sentRanges, half, acked, b);
      var x :| (x in s.sentRanges || (half, x) in acked) && x.Has(b);
      if x == src {
        assert head.Has(b) || tail.Has(b);
      } else {
        assert x in t.sentRanges || (half, x) in acked;
      }
    }
    if t.eofSent {
      var x :| (x in s.sentRanges || (half, x) in acked) && x.eof;
      assert x == src ==> tail.eof;
      assert x != src ==> x in t.sentRanges || (half, x) in acked;
    }
  }

  lemma TrackedKeeps(s: Sender, half: Half, data: seq<byte>, eof: bool, acked: set<(Half, SentRange)>, cs: set<Packet>)
    requires StreamOk(s, half, acked, cs, {})
    ensures StreamOk(Tracked(s, data, eof), half, acked, cs, {(half, SentRange(s.nextUid, s.offset, data, eof))})
  {
    var t := Tracked(s, data, eof);
    var x := SentRange(s.nextUid, s.offset, data, eof);
    assert t.sentRanges[|s.sentRanges|] == x;
    assert forall y :: y in t.sentRanges <==> y in s.sentRanges || y == x;
    forall b: nat | b < t.offset ensures Known(t.sentRanges, half, acked, b) {
      if b < s.offset {
        assert Known(s.sentRanges, half, acked, b);
      } else {
        assert x.Has(b);
      }
    }
    if t.eofSent && s.eofSent {
      var y :| (y in s.sentRanges || (half, y) in acked) && y.eof;
      assert y in t.sentRanges || (half, y) in acked;
    }
  }

  /** With an MTU of at least 60 a new range is made exactly when there is fresh work. */
  lemma FreshKeeps(s: Sender, half: Half, m: int, acked: set<(Half, SentRange)>, cs: set<Packet>)
    requires StreamOk(s, half, acked, cs, {}) && m >= MIN_MTU - FIXED_OVERHEAD && s.retransmit == []
    ensures var t := Fresh(s, m);
            && (t.out.Some? ==> StreamOk(t.s, half, acked, cs, {(half, t.out.value)}))
            && (t.out.None? ==> StreamOk(t.s, half, acked, cs, {}) && !Work(t.s))
  {
    var header := HeaderSize(s.id, s.offset, m);
    if !s.eofSent {
      var room := m - header;
      var data, eof, rest := FreshData(s, room), FreshEof(s, room), FreshRest(s, room);
      if data == [] && !eof && !s.pendingOpen {
        NothingFresh(s, room);
      } else {
        var taken := s.(inputBuffer := rest, pendingOpen := s.pendingOpen && !(data == [] && !eof));
        TrackedKeeps(taken, half, data, eof, acked, cs);
      }
    }
  }

  lemma NothingFresh(s: Sender, room: nat)
    requires room > 0 && s.retransmit == [] && !s.eofSent && !s.pendingOpen
    requires FreshData(s, room) == [] && !FreshEof(s, room)
    ensures !Work(s.(inputBuffer := FreshRest(s, room)))
  {
  }

  /** triggerPacket hands over a range, or the stream has nothing left to do. */
  lemma TriggerKeeps(s: Sender, half: Half, m: int, acked: set<(Half, SentRange)>, cs: set<Packet>)
    requires StreamOk(s, half, acked, cs, {}) && m >= MIN_MTU - FIXED_OVERHEAD
    ensures var t := Trigger(s, m);
            && (t.out.Some? ==> StreamOk(t.s, half, acked, cs, {(half, t.out.value)}))
            && (t.out.None? ==> StreamOk(t.s, half, acked, cs, {}) && !Work(t.s))
  {
    if s.retransmit == [] {
      FreshKeeps(s, half, m, acked, cs);
    } else {
      var src := s.retransmit[0];
      if HeaderSize(s.id, src.offset, |src.data|) + |src.data| <= m {
        WholeKeeps(s, half, acked, cs);
      } else {
        assert Divides(s, m);
        SplitKeeps(s, half, CutAt(s, m), acked, cs);
      }
    }
  }

  // ---------------------------------------------------------------- the loop

  ghost function InHand(place: Place): set<(Half, SentRange)> {
    match place case Built(half, x) => {(half, x)} case _ => {}
  }

  ghost function Held(place: Place): set<Half> {
    match place
    case Holding(Some(half), _, _, _) => {half}
    case Built(half, _) => {half}
    case _ => {}
  }

  // ---------------------------------------------------------------- cancels and window updates

  ghost predicate CancelOut(cs: set<Packet>, half: Half, first: nat) {
    exists p :: p in cs && p.link == CancelStream(half) && first <= p.pn
  }

  ghost predicate UpdateOut(cs: set<Packet>, half: Half, first: nat) {
    exists p :: p in cs && p.link.WindowUpdate? && p.link.half == half && first <= p.pn
  }

  /** A receive half that asked and has not ended is queued, in the loop's hands, or has a packet
      outstanding that was numbered since; and every number in the queues can be encoded. */
  ghost predicate RequestsOk(q: Requests, cs: set<Packet>, cancel: Option<Half>, update: Option<Half>) {
    && (forall half :: half in q.askedCancel && half !in q.ended ==>
          half in q.cancels || cancel == Some(half) || CancelOut(cs, half, q.askedCancel[half]))
    && (forall half :: half in q.askedUpdate && half !in q.ended ==>
          half in q.updates || update == Some(half) || UpdateOut(cs, half, q.askedUpdate[half]))
    && (forall half :: half in q.cancels || cancel == Some(half) ==> half.id <= Varints.MAX_VARINT)
    && (forall half :: half in q.updates || update == Some(half) ==> half.id <= Varints.MAX_VARINT)
    && (forall p :: p in cs && (p.link.CancelStream? || p.link.WindowUpdate?) ==> p.link.half.id <= Varints.MAX_VARINT)
  }

  /** Nothing was asked later than now. */
  ghost predicate AskedBy(q: Requests, next: nat) {
    && (forall half :: half in q.askedCancel ==> q.askedCancel[half] <= next)
    && (forall half :: half in q.askedUpdate ==> q.askedUpdate[half] <= next)
  }

  lemma AckRequestKeeps(q: Requests, p: Packet, cs: set<Packet>)
    requires RequestsOk(q, cs + {p}, None, None)
    ensures RequestsOk(AckRequest(q, p), cs, None, None)
  {
    var q' := AckRequest(q, p);
    forall half | half in q'.askedCancel && CancelOut(cs + {p}, half, q.askedCancel[half])
      ensures CancelOut(cs, half, q.askedCancel[half])
    {
      var o :| o in cs + {p} && o.link == CancelStream(half) && q.askedCancel[half] <= o.pn;
    }
    forall half | half in q'.askedUpdate && UpdateOut(cs + {p}, half, q.askedUpdate[half])
      ensures UpdateOut(cs, half, q.askedUpdate[half])
    {
      var o :| o in cs + {p} && o.link.WindowUpdate? && o.link.half == half && q.askedUpdate[half] <= o.pn;
    }
  }

  lemma LoseRequestKeeps(q: Requests, p: Packet, cs: set<Packet>)
    requires RequestsOk(q, cs + {p}, None, None)
    ensures RequestsOk(LoseRequest(q, p), cs, None, None)
  {
    forall half, n: nat | CancelOut(cs + {p}, half, n) && p.link != CancelStream(half) ensures CancelOut(cs, half, n) {
      var o :| o in cs + {p} && o.link == CancelStream(half) && n <= o.pn;
    }
    forall half, n: nat | UpdateOut(cs + {p}, half, n) && !(p.link.WindowUpdate? && p.link.half == half) ensures UpdateOut(cs, half, n) {
      var o :| o in cs + {p} && o.link.WindowUpdate? && o.link.half == half && n <= o.pn;
    }
  }

  lemma {:induction false} AckRequestsKeep(q: Requests, ps: seq<Packet>, cs: set<Packet>)
    requires RequestsOk(q, cs + Elems(ps), None, None)
    ensures RequestsOk(AckRequests(q, ps), cs, None, None)
    decreases |ps|
  {
    if ps == [] {
      assert cs + Elems(ps) == cs;
    } else {
      assert cs + Elems(ps) == cs + Elems(ps[1..]) + {ps[0]};
      AckRequestKeeps(q, ps[0], cs + Elems(ps[1..]));
      AckRequestsKeep(AckRequest(q, ps[0]), ps[1..], cs);
    }
  }

  lemma {:induction false} LoseRequestsKeep(q: Requests, ps: seq<Packet>, cs: set<Packet>)
    requires RequestsOk(q, cs + Elems(ps), None, None)
    ensures RequestsOk(LoseRequests(q, ps), cs, None, None)
    decreases |ps|
  {
    if ps == [] {
      assert cs + Elems(ps) == cs;
    } else {
      assert cs + Elems(ps) == cs + Elems(ps[1..]) + {ps[0]};
      LoseRequestKeeps(q, ps[0], cs + Elems(ps[1..]));
      LoseRequestsKeep(LoseRequest(q, ps[0]), ps[1..], cs);
    }
  }

  lemma RequestCallbacksKeep(q: Requests, before: seq<Packet>, o: Outcome)
    requires RequestsOk(q, Elems(before), None, None)
    requires multiset(before) == multiset(o.h.sent) + multiset(o.acked) + multiset(o.lost)
    requires o.resent.Some? ==> o.resent.value in o.h.sent
    ensures RequestsOk(ResendRequest(LoseRequests(AckRequests(q, o.acked), o.lost), o.resent), Elems(o.h.sent), None, None)
  {
    var kept, lost, acked := Elems(o.h.sent), Elems(o.lost), Elems(o.acked);
    assert Elems(before) == kept + lost + acked by {
      forall p ensures p in Elems(before) <==> p in kept + lost + acked {
        assert p in multiset(before) <==> p in multiset(o.h.sent) + multiset(o.acked) + multiset(o.lost);
      }
    }
    AckRequestsKeep(q, o.acked, kept + lost);
    LoseRequestsKeep(AckRequests(q, o.acked), o.lost, kept);
    if o.resent.Some? {
      assert kept + {o.resent.value} == kept;
      LoseRequestKeeps(LoseRequests(AckRequests(q, o.acked), o.lost), o.resent.value, kept);
    }
  }

  lemma AnsweredOnlyShrinks(q: Requests, p: Packet, next: nat)
    requires AskedBy(q, next)
    ensures AskedBy(AckRequest(q, p), next) && AskedBy(LoseRequest(q, p), next)
  {
  }

  lemma {:induction false} CallbacksAskedBy(q: Requests, ps: seq<Packet>, next: nat)
    requires AskedBy(q, next)
    ensures AskedBy(AckRequests(q, ps), next) && AskedBy(LoseRequests(q, ps), next)
    decreases |ps|
  {
    if ps != [] {
      AnsweredOnlyShrinks(q, ps[0], next);
      CallbacksAskedBy(AckRequest(q, ps[0]), ps[1..], next);
      CallbacksAskedBy(LoseRequest(q, ps[0]), ps[1..], next);
    }
  }

  lemma OutcomeAskedBy(q: Requests, o: Outcome, next: nat)
    requires AskedBy(q, next)
    ensures AskedBy(ResendRequest(LoseRequests(AckRequests(q, o.acked), o.lost), o.resent), next)
  {
    CallbacksAskedBy(q, o.acked, next);
    CallbacksAskedBy(AckRequests(q, o.acked), o.lost, next);
    if o.resent.Some? {
      AnsweredOnlyShrinks(LoseRequests(AckRequests(q, o.acked), o.lost), o.resent.value, next);
    }
  }

  ghost function HeldCancel(place: Place): Option<Half> { match place case Holding(_, r, _, _) => r case _ => None }

  ghost function HeldUpdate(place: Place): Option<Half> { match place case Holding(_, _, r, _) => r case _ => None }

  ghost predicate RequestsPlaced(c: Conn) {
    AskedBy(c.q, c.nextPn) && RequestsOk(c.q, Elems(c.h.sent), HeldCancel(c.place), HeldUpdate(c.place))
  }

  lemma MoreSent(q: Requests, cs: set<Packet>, cs': set<Packet>, cancel: Option<Half>, update: Option<Half>)
    requires RequestsOk(q, cs, cancel, update) && cs <= cs'
    requires forall p :: p in cs' && (p.link.CancelStream? || p.link.WindowUpdate?) ==> p.link.half.id <= Varints.MAX_VARINT
    ensures RequestsOk(q, cs', cancel, update)
  {
  }

  lemma PopKeepsRequests(c: Conn, pto: bool)
    requires RequestsPlaced(c) && c.place.Awake?
    ensures RequestsPlaced(Popping(c, pto))
  {
    HeadAndTail(c.q.cancels);
    HeadAndTail(c.q.updates);
  }

  lemma HeadAndTail(q: seq<Half>)
    ensures forall half :: half in q <==> half in Tail(q) || Head(q) == Some(half)
  {
    if q != [] {
      assert q == [q[0]] + q[1..];
    }
  }

  lemma ParkKeepsRequests(c: Conn)
    requires RequestsPlaced(c) && c.place.Holding?
    ensures RequestsPlaced(Parking(c, c.place.stream, c.place.cancel, c.place.update))
  {
  }

  /** The packet takes over from the loop's hands. */
  lemma ControlTakesOver(c: Conn, link: Link, now: int, c': Conn)
    requires RequestsPlaced(c) && c.place.Holding? && (link.CancelStream? || link.WindowUpdate?) && link.half.id <= Varints.MAX_VARINT
    requires c'.h.sent == c.h.sent + [ControlPacket(c.nextPn, now, link)] && c'.place == Top && c'.nextPn == c.nextPn + 1
    requires c'.q.cancels == c.q.cancels && c'.q.ended == c.q.ended
    requires c'.q.askedCancel == c.q.askedCancel && c'.q.askedUpdate == c.q.askedUpdate
    requires match link
             case CancelStream(half) => c.place.cancel == Some(half) && c'.q.updates == PushedBack(c.q.updates, c.place.update)
             case WindowUpdate(half, _) => c.place.update == Some(half) && c'.q.updates == c.q.updates && !c.q.Live(c.place.cancel)
             case _ => true
    ensures RequestsPlaced(c')
  {
    var p, cs := ControlPacket(c.nextPn, now, link), Elems(c.h.sent);
    assert Elems(c'.h.sent) == cs + {p};
    assert p in cs + {p};
    MoreSent(c.q, cs, cs + {p}, c.place.cancel, c.place.update);
  }

  lemma ChooseKeepsRequests(c: Conn, now: int, limit: nat, mtu: int)
    requires RequestsPlaced(c) && c.place.Holding? && limit <= Varints.MAX_VARINT
    ensures RequestsPlaced(Choosing(c, now, limit, mtu))
  {
    if !c.CanSend() && !c.place.pto {
      ParkKeepsRequests(c);
    } else if c.q.Live(c.place.cancel) {
      CancelKeepsRequests(c, now);
    } else if c.q.Live(c.place.update) {
      UpdateKeepsRequests(c, now, limit);
    } else {
      assert Choosing(c, now, limit, mtu).q == c.q && Choosing(c, now, limit, mtu).h == c.h;
    }
  }

  lemma CancelKeepsRequests(c: Conn, now: int)
    requires RequestsPlaced(c) && c.place.Holding? && c.q.Live(c.place.cancel)
    ensures RequestsPlaced(Cancelling(c, c.place.stream, c.place.cancel.value, c.place.update, now))
  {
    ControlTakesOver(c, CancelStream(c.place.cancel.value), now,
                     Cancelling(c, c.place.stream, c.place.cancel.value, c.place.update, now));
  }

  lemma UpdateKeepsRequests(c: Conn, now: int, limit: nat)
    requires RequestsPlaced(c) && c.place.Holding? && !c.q.Live(c.place.cancel) && c.q.Live(c.place.update)
    requires limit <= Varints.MAX_VARINT
    ensures RequestsPlaced(Updating(c, c.place.stream, c.place.update.value, limit, now))
  {
    ControlTakesOver(c, WindowUpdate(c.place.update.value, limit), now,
                     Updating(c, c.place.stream, c.place.update.value, limit, now));
  }

  lemma RecordKeepsRequests(c: Conn, p: Packet)
    requires RequestsPlaced(c) && !p.link.CancelStream? && !p.link.WindowUpdate?
    ensures RequestsPlaced(Record(c, p))
  {
    MoreSent(c.q, Elems(c.h.sent), Elems(c.h.sent + [p]), HeldCancel(c.place), HeldUpdate(c.place));
  }

  /** The halves that are parked, in the loop's hands, or known to be forgotten. */
  ghost function Homes(c: Conn, gone: set<Half>): set<Half> { c.blocked.Values + Held(c.place) + gone }

  ghost predicate Inv(c: Conn, gone: set<Half>) {
    && HandlerRuns.Sound(c.h) && c.cwnd > 0
    && FlowOk(c.f, Elems(c.h.sent), InHand(c.place), Homes(c, gone))
  }

  /** Halves are parked under their number, and whatever is queued, parked or held was made. */
  ghost predicate Tidy(c: Conn) {
    && (forall half :: half in c.f.trigger ==> half in c.f.streams)
    && (forall id :: id in c.blocked ==> c.blocked[id].id == id && c.blocked[id] in c.f.streams)
    && (forall half :: half in Held(c.place) ==> half in c.f.streams)
  }

  /** A half with work that is not on the trigger and has no packet outstanding. */
  ghost predicate Homeless(c: Conn, half: Half) {
    half in c.f.streams && Work(c.f.streams[half]) && half !in c.f.trigger && !Owns(Elems(c.h.sent), half)
  }

  /** Parking a half over another one of its number forgets that one if it has no other home. */
  ghost predicate Evicts(c: Conn, e: Event, half: Half) {
    && e.Choose? && c.place.Holding? && !c.CanSend() && !c.place.pto && c.place.stream.Some?
    && var held := c.place.stream.value;
       held.id in c.blocked && half == c.blocked[held.id] && half != held && Homeless(c, half)
  }

  ghost function Evictees(c: Conn, e: Event): set<Half> { set half | half in c.blocked.Values && Evicts(c, e, half) }

  /** Moving streams between the trigger, the parked set and the loop's hands. */
  lemma Rehome(f: Flow, trigger: seq<Half>, cs: set<Packet>, built: set<(Half, SentRange)>, old': set<Half>, new': set<Half>)
    requires FlowOk(f, cs, built, old')
    requires forall half :: half in f.streams && (half in f.trigger || half in old') ==>
                            half in trigger || half in new' || !Work(f.streams[half])
    ensures FlowOk(f.(trigger := trigger), cs, built, new')
  {
  }

  lemma {:induction false} PushAllMembers(q: seq<Half>, halves: seq<Half>)
    ensures forall half :: half in PushAll(q, halves) <==> half in q || half in halves
    decreases |halves|
  {
    if halves != [] {
      PushAllMembers(Pushed(q, halves[0]), halves[1..]);
      assert halves == [halves[0]] + halves[1..];
    }
  }

  lemma RecordKeeps(c: Conn, gone: set<Half>, p: Packet)
    requires Inv(c, gone) && HandlerRuns.Shaped(p)
    ensures Inv(Record(c, p), gone)
  {
    HandlerRuns.SendKeeps(c.h, p);
    MoreCarriers(c.f, Elems(c.h.sent), Elems(c.h.sent + [p]), InHand(c.place), Homes(c, gone));
  }

  lemma DrainKeeps(c: Conn, gone: set<Half>, order: seq<Half>)
    requires Inv(c, gone) && c.place.Top? && (set half | half in order) == c.blocked.Values
    ensures Inv(c.(f := c.f.(trigger := PushAll(c.f.trigger, order)), blocked := map[]), gone)
  {
    var c' := c.(f := c.f.(trigger := PushAll(c.f.trigger, order)), blocked := map[]);
    PushAllMembers(c.f.trigger, order);
    forall half | half in c.blocked.Values ensures half in order {
      assert half in (set x | x in order);
    }
    Rehome(c.f, c'.f.trigger, Elems(c.h.sent), {}, Homes(c, gone), Homes(c', gone));
  }

  /** The callbacks of one handler call, for the packets that it took out. */
  lemma CallbacksKeep(f: Flow, before: seq<Packet>, o: Outcome, elsewhere: set<Half>)
    requires FlowOk(f, Elems(before), {}, elsewhere)
    requires multiset(before) == multiset(o.h.sent) + multiset(o.acked) + multiset(o.lost)
    requires o.resent.Some? ==> o.resent.value in o.h.sent
    ensures FlowOk(Resend(LoseAll(AckAll(f, o.acked), o.lost), o.resent), Elems(o.h.sent), {}, elsewhere)
  {
    var kept, lost, acked := Elems(o.h.sent), Elems(o.lost), Elems(o.acked);
    forall p | p in before ensures p in kept + lost + acked {
      assert p in multiset(before);
    }
    MoreCarriers(f, Elems(before), kept + lost + acked, {}, elsewhere);
    AckAllKeeps(f, o.acked, kept + lost, {}, elsewhere);
    LoseAllKeeps(AckAll(f, o.acked), o.lost, kept, {}, elsewhere);
    ResendKeeps(LoseAll(AckAll(f, o.acked), o.lost), o.resent, kept, {}, elsewhere);
  }

  lemma AckFrameKeeps(c: Conn, gone: set<Half>, now: int, rs: seq<AckWire.Range>, delay: int)
    requires Inv(c, gone) && c.place.Top? && rs != []
    ensures Inv(Received(c, ReceiveACK(c.h, now, rs, delay)), gone)
  {
    HandlerRuns.AckKeeps(c.h, now, rs, delay);
    HandlerRuns.AckBalances(c.h, now, rs, delay);
    CallbacksKeep(c.f, c.h.sent, ReceiveACK(c.h, now, rs, delay), c.blocked.Values + {} + gone);
  }

  lemma WakeKeeps(c: Conn, gone: set<Half>, now: int)
    requires Inv(c, gone) && c.place.Top?
    ensures Inv(Waking(c, now), gone)
  {
    if HandlerRuns.Due(c.h, now) {
      HandlerRuns.TimeoutKeeps(c.h, now);
      HandlerRuns.TimeoutBalances(c.h, now);
      if c.h.lossTime.None? {
        HandlerRuns.ProbeExpiryProgresses(c.h, now);
      }
      CallbacksKeep(c.f, c.h.sent, OnTimeout(c.h, now), c.blocked.Values + {} + gone);
    }
  }

  lemma PopKeeps(c: Conn, gone: set<Half>, pto: bool)
    requires Inv(c, gone) && c.place.Awake?
    ensures Inv(Popping(c, pto), gone)
  {
  }

  lemma RepushKeeps(c: Conn, gone: set<Half>, q: Requests)
    requires Inv(c, gone) && c.place.Holding?
    ensures Inv(Repush(c.(q := q), c.place.stream), gone)
  {
  }

  /** Who is parked over another half of its number leaves that one with its other homes. */
  lemma ParkKeeps(c: Conn, gone: set<Half>, e: Event)
    requires Inv(c, gone) && Tidy(c) && c.place.Holding? && e.Choose? && !c.CanSend() && !c.place.pto
    ensures Inv(Parking(c, c.place.stream, c.place.cancel, c.place.update), gone + Evictees(c, e))
  {
    var gone' := gone + Evictees(c, e);
    var c' := Parking(c, c.place.stream, c.place.cancel, c.place.update);
    forall half | half in c.f.streams ensures Homed(c.f.streams[half], half, c.f.trigger, Elems(c.h.sent), Homes(c', gone')) {
      assert Homed(c.f.streams[half], half, c.f.trigger, Elems(c.h.sent), Homes(c, gone));
      if half in Held(c.place) {
        assert c'.blocked[half.id] == half;
      } else if Homeless(c, half) && half in c.blocked.Values {
        ParkedStays(c, half, e);
      }
    }
  }

  lemma ParkedStays(c: Conn, half: Half, e: Event)
    requires Tidy(c) && c.place.Holding? && e.Choose? && !c.CanSend() && !c.place.pto
    requires half in c.blocked.Values && Homeless(c, half)
    ensures half in Parking(c, c.place.stream, c.place.cancel, c.place.update).blocked.Values || half in Evictees(c, e)
  {
    var id :| id in c.blocked && c.blocked[id] == half;
    var blocked := Parking(c, c.place.stream, c.place.cancel, c.place.update).blocked;
    assert id in blocked;
    if c.place.stream.Some? && c.place.stream.value.id == id && c.place.stream.value != half {
      assert Evicts(c, e, half);
    } else {
      assert blocked[id] == half;
    }
  }

  lemma BuildKeeps(c: Conn, gone: set<Half>, half: Half, mtu: int)
    requires Inv(c, gone) && c.place.Holding? && c.place.stream == Some(half) && mtu >= MIN_MTU
    ensures Inv(Building(c, half, mtu), gone)
  {
    if half in c.f.streams {
      HeldStream(c, gone, half);
      HeldTriggers(c, gone, half, c.f.streams[half], mtu - FIXED_OVERHEAD);
    } else {
      Rehome(c.f, c.f.trigger, Elems(c.h.sent), {}, c.blocked.Values + {half} + gone, c.blocked.Values + {} + gone);
      assert c.f.(trigger := c.f.trigger) == c.f;
    }
  }

  lemma HeldTriggers(c: Conn, gone: set<Half>, half: Half, s: Sender, m: int)
    requires Inv(c, gone) && c.place.Holding? && c.place.stream == Some(half) && m >= MIN_MTU - FIXED_OVERHEAD
    requires StreamOk(s, half, c.f.acked, Elems(c.h.sent), {})
    ensures Inv(Placing(c, half, Trigger(s, m)), gone)
  {
    TriggerKeeps(s, half, m, c.f.acked, Elems(c.h.sent));
    PlacingKeeps(c, gone, half, Trigger(s, m));
  }

  lemma HeldStream(c: Conn, gone: set<Half>, half: Half)
    requires Inv(c, gone) && c.place.Holding? && half in c.f.streams
    ensures StreamOk(c.f.streams[half], half, c.f.acked, Elems(c.h.sent), {})
  {
  }

  lemma PlacingKeeps(c: Conn, gone: set<Half>, half: Half, t: Triggered)
    requires Inv(c, gone) && c.place.Holding? && c.place.stream == Some(half)
    requires t.out.Some? ==> StreamOk(t.s, half, c.f.acked, Elems(c.h.sent), {(half, t.out.value)})
    requires t.out.None? ==> StreamOk(t.s, half, c.f.acked, Elems(c.h.sent), {}) && !Work(t.s)
    ensures Inv(Placing(c, half, t), gone)
  {
  }

  lemma RecordSendKeeps(c: Conn, gone: set<Half>, now: int)
    requires Inv(c, gone) && c.place.Built?
    ensures Inv(Step(c, RecordSend(now)), gone)
  {
    var half, x := c.place.half, c.place.range;
    var p := DataPacket(c.nextPn, now, half, x);
    RecordKeeps(c, gone, p);
    var cs := Elems(c.h.sent + [p]);
    assert p in cs && p.link == Data(half, x);
    Settles(c.f, cs, half, x, c.blocked.Values, gone);
  }

  /** Once a packet carries the range, the loop's hands are free. */
  lemma Settles(f: Flow, cs: set<Packet>, half: Half, x: SentRange, parked: set<Half>, gone: set<Half>)
    requires FlowOk(f, cs, {(half, x)}, parked + {half} + gone) && Carries(cs, half, x)
    ensures FlowOk(f, cs, {}, parked + {} + gone)
  {
    assert Owns(cs, half);
    forall k | k in f.streams
      ensures StreamOk(f.streams[k], k, f.acked, cs, {}) && Homed(f.streams[k], k, f.trigger, cs, parked + {} + gone)
    {
      assert StreamOk(f.streams[k], k, f.acked, cs, {(half, x)}) && Homed(f.streams[k], k, f.trigger, cs, parked + {half} + gone);
    }
  }

  lemma ChooseKeeps(c: Conn, gone: set<Half>, e: Event)
    requires Inv(c, gone) && RequestsPlaced(c) && Tidy(c) && c.place.Holding? && e.Choose? && Allowed(e)
    ensures Inv(Choosing(c, e.now, e.window, e.mtu), gone + Evictees(c, e))
  {
    var Holding(held, cancel, update, pto) := c.place;
    if !c.CanSend() && !pto {
      ParkKeeps(c, gone, e);
    } else {
      assert Evictees(c, e) == {} && gone + {} == gone;
      SendKeeps(c, gone, e.now, e.window, e.mtu);
    }
  }

  lemma SendKeeps(c: Conn, gone: set<Half>, now: int, limit: nat, mtu: int)
    requires Inv(c, gone) && RequestsPlaced(c) && c.place.Holding? && Allowed(Choose(now, limit, mtu))
    requires c.CanSend() || c.place.pto
    ensures Inv(Choosing(c, now, limit, mtu), gone)
  {
    var Holding(held, cancel, update, pto) := c.place;
    if c.q.Live(cancel) {
      var p := ControlPacket(c.nextPn, now, CancelStream(cancel.value));
      RecordKeeps(c, gone, p);
      RepushKeeps(Record(c, p), gone, c.q.(updates := PushedBack(c.q.updates, update)));
    } else if c.q.Live(update) {
      var p := ControlPacket(c.nextPn, now, WindowUpdate(update.value, limit));
      RecordKeeps(c, gone, p);
      RepushKeeps(Record(c, p), gone, c.q);
    } else if held.Some? {
      BuildKeeps(c, gone, held.value, mtu);
    }
  }

  // ---------------------------------------------------------------- the application and the peer

  /** A change that touches no range is harmless once the stream is pushed. */
  lemma TouchKeeps(c: Conn, gone: set<Half>, half: Half, s: Sender)
    requires Inv(c, gone) && half in c.f.streams
    requires var o := c.f.streams[half];
             && s.sentRanges == o.sentRanges && s.retransmit == o.retransmit && s.offset == o.offset
             && s.eofSent == o.eofSent && s.nextUid == o.nextUid
    ensures Inv(c.(f := Put(c.f, half, s)), gone)
  {
  }

  lemma MakeKeeps(c: Conn, gone: set<Half>, half: Half, marker: bool)
    requires Inv(c, gone) && half !in c.f.streams
    ensures Inv(Making(c, half, marker), gone)
  {
  }

  lemma TableKeeps(c: Conn, gone: set<Half>, e: Event)
    requires Inv(c, gone) && (e.WindowFrame? || e.CancelFrame?)
    ensures Inv(Step(c, e), gone)
  {
    if e.id in c.table && c.table[e.id] in c.f.streams {
      var half := c.table[e.id];
      match e
      case WindowFrame(_, limit) => TouchKeeps(c, gone, half, UpdateWindow(c.f.streams[half], limit));
      case CancelFrame(_) => TouchKeeps(c, gone, half, c.f.streams[half].(cancelRequested := true));
    }
  }

  lemma ApplicationKeeps(c: Conn, gone: set<Half>, e: Event)
    requires Inv(c, gone) && (e.Open? || e.DataFrame? || e.AppendData? || e.Close?)
    ensures Inv(Step(c, e), gone)
  {
    match e
    case Open(id, marker) =>
      if Half(id, 0) !in c.f.streams { MakeKeeps(c, gone, Half(id, 0), marker); }
    case DataFrame(id, serial) =>
      if Half(id, serial) !in c.f.streams {
        MakeKeeps(c.(inlets := c.inlets + {id}), gone, Half(id, serial), false);
      }
    case AppendData(half, chunks, eof) =>
      if half in c.f.streams { TouchKeeps(c, gone, half, Append(c.f.streams[half], chunks, eof)); }
    case Close(half) =>
      if half in c.f.streams { TouchKeeps(c, gone, half, c.f.streams[half].(signalEOF := true)); }
  }

  lemma OtherStepKeeps(c: Conn, gone: set<Half>, e: Event)
    requires Inv(c, gone) && !e.Choose? && Allowed(e)
    ensures Inv(Step(c, e), gone)
  {
    match e
    case Open(_, _) => ApplicationKeeps(c, gone, e);
    case DataFrame(_, _) => ApplicationKeeps(c, gone, e);
    case AppendData(_, _, _) => ApplicationKeeps(c, gone, e);
    case Close(_) => ApplicationKeeps(c, gone, e);
    case RequestCancel(_) =>
    case RequestUpdate(_) =>
    case ReadEof(_) =>
    case DropInlet(_) =>
    case CwndChanges(_) =>
    case Drain(order) =>
      if c.place.Top? && (set half | half in order) == c.blocked.Values { DrainKeeps(c, gone, order); }
    case AckFrame(now, rs, delay) =>
      if c.place.Top? && rs != [] { AckFrameKeeps(c, gone, now, rs, delay); }
    case WindowFrame(_, _) => TableKeeps(c, gone, e);
    case CancelFrame(_) => TableKeeps(c, gone, e);
    case ProbeMtu(now, size) => RecordKeeps(c, gone, ProbePacket(c.nextPn, now, size));
    case Wake(now) => if c.place.Top? { WakeKeeps(c, gone, now); }
    case SendDatagram(now, length, exempt) => RecordKeeps(c, gone, DatagramPacket(c.nextPn, now, length, exempt));
    case PopStream => if c.place.Awake? { PopKeeps(c, gone, c.place.pto); }
    case RecordSend(now) => if c.place.Built? { RecordSendKeeps(c, gone, now); }
  }

  lemma StepKeeps(c: Conn, gone: set<Half>, e: Event)
    requires Inv(c, gone) && RequestsPlaced(c) && Tidy(c) && Allowed(e)
    ensures Inv(Step(c, e), gone + Evictees(c, e))
  {
    if e.Choose? && c.place.Holding? {
      ChooseKeeps(c, gone, e);
    } else {
      assert Evictees(c, e) == {} && gone + {} == gone;
      if !e.Choose? {
        OtherStepKeeps(c, gone, e);
      }
    }
  }

  // ---------------------------------------------------------------- tidiness

  ghost predicate QueueTidy(f: Flow) { forall half :: half in f.trigger ==> half in f.streams }

  lemma {:induction false} CallbacksTidy(f: Flow, ps: seq<Packet>)
    ensures AckAll(f, ps).streams.Keys == f.streams.Keys && (QueueTidy(f) ==> QueueTidy(AckAll(f, ps)))
    ensures LoseAll(f, ps).streams.Keys == f.streams.Keys && (QueueTidy(f) ==> QueueTidy(LoseAll(f, ps)))
    decreases |ps|
  {
    if ps != [] {
      var a, l := AckOne(f, ps[0]), LoseOne(f, ps[0]);
      assert a.streams.Keys == f.streams.Keys && l.streams.Keys == f.streams.Keys;
      CallbacksTidy(a, ps[1..]);
      CallbacksTidy(l, ps[1..]);
    }
  }

  lemma ReceivedTidy(c: Conn, o: Outcome)
    ensures Received(c, o).f.streams.Keys == c.f.streams.Keys && (Tidy(c) ==> Tidy(Received(c, o)))
  {
    var a := AckAll(c.f, o.acked);
    CallbacksTidy(c.f, o.acked);
    CallbacksTidy(a, o.lost);
    var l := LoseAll(a, o.lost);
    assert Resend(l, o.resent).streams.Keys == l.streams.Keys;
    assert Tidy(c) ==> QueueTidy(c.f);
  }

  lemma DrainTidy(c: Conn, order: seq<Half>)
    requires Tidy(c) && (set half | half in order) == c.blocked.Values
    ensures Tidy(c.(f := c.f.(trigger := PushAll(c.f.trigger, order)), blocked := map[]))
  {
    PushAllMembers(c.f.trigger, order);
    forall half | half in order ensures half in c.f.streams {
      assert half in c.blocked.Values;
    }
  }

  /** The queue, the parked halves and the place only take over what was held. */
  lemma HeldTidy(c: Conn, c': Conn)
    requires Tidy(c) && c.place.Holding?
    requires c'.f.streams.Keys >= c.f.streams.Keys
    requires forall half :: half in c'.f.trigger ==> half in c.f.trigger || half in Held(c.place)
    requires c'.blocked == c.blocked || exists half :: half in Held(c.place) && c'.blocked == c.blocked[half.id := half]
    requires Held(c'.place) <= Held(c.place)
    ensures Tidy(c')
  {
  }

  lemma ChoosingTidy(c: Conn, now: int, limit: nat, mtu: int)
    requires Tidy(c) && c.place.Holding?
    ensures Tidy(Choosing(c, now, limit, mtu))
  {
    var c' := Choosing(c, now, limit, mtu);
    var Holding(held, cancel, update, pto) := c.place;
    if !c.CanSend() && !pto {
      assert c'.f == c.f;
      if held.Some? {
        assert held.value in Held(c.place) && c'.blocked == c.blocked[held.value.id := held.value];
      }
    } else if c.q.Live(cancel) || c.q.Live(update) {
      assert c'.f.streams == c.f.streams && c'.blocked == c.blocked && Held(c'.place) == {};
    } else if held.Some? {
      assert c' == Building(c, held.value, mtu);
    }
    HeldTidy(c, c');
  }

  lemma PoppingTidy(c: Conn, pto: bool)
    requires Tidy(c) && c.place.Awake?
    ensures Tidy(Popping(c, pto))
  {
    HeadAndTail(c.f.trigger);
  }

  lemma MakingTidy(c: Conn, half: Half, marker: bool)
    requires Tidy(c)
    ensures Tidy(Making(c, half, marker))
  {
  }

  lemma MadeTidy(c: Conn, e: Event)
    requires Tidy(c) && (e.Open? || e.DataFrame?)
    ensures Tidy(Step(c, e))
  {
    match e
    case Open(id, marker) => MakingTidy(c, Half(id, 0), marker);
    case DataFrame(id, serial) => MakingTidy(c.(inlets := c.inlets + {id}), Half(id, serial), false);
  }

  lemma WakeTidy(c: Conn, now: int)
    requires Tidy(c)
    ensures Tidy(Step(c, Wake(now)))
  {
    if c.place.Top? && HandlerRuns.Due(c.h, now) {
      ReceivedTidy(c, OnTimeout(c.h, now));
      assert Step(c, Wake(now)).f == Received(c, OnTimeout(c.h, now)).f;
    }
  }

  lemma StepTidy(c: Conn, e: Event)
    requires Tidy(c)
    ensures Tidy(Step(c, e))
  {
    match e
    case Open(_, _) => MadeTidy(c, e);
    case DataFrame(_, _) => MadeTidy(c, e);
    case AckFrame(now, rs, delay) => if c.place.Top? && rs != [] { ReceivedTidy(c, ReceiveACK(c.h, now, rs, delay)); }
    case Wake(now) => WakeTidy(c, now);
    case Drain(order) => if (set half | half in order) == c.blocked.Values { DrainTidy(c, order); }
    case Choose(now, limit, mtu) => if c.place.Holding? { ChoosingTidy(c, now, limit, mtu); }
    case PopStream => if c.place.Awake? { PoppingTidy(c, c.place.pto); }
    case AppendData(half, _, _) => TouchTidy(c, half, e);
    case Close(half) => TouchTidy(c, half, e);
    case WindowFrame(id, _) => if id in c.table { TouchTidy(c, c.table[id], e); }
    case CancelFrame(id) => if id in c.table { TouchTidy(c, c.table[id], e); }
    case _ => QuietTidy(c, e);
  }

  lemma TouchTidy(c: Conn, half: Half, e: Event)
    requires Tidy(c)
    requires (e.AppendData? && e.half == half) || (e.Close? && e.half == half)
             || ((e.WindowFrame? || e.CancelFrame?) && e.id in c.table && c.table[e.id] == half)
    ensures Tidy(Step(c, e))
  {
    var c' := Step(c, e);
    assert c'.blocked == c.blocked && c'.place == c.place;
    assert c'.f == c.f || (half in c.f.streams && c'.f.trigger == Pushed(c.f.trigger, half) && c'.f.streams.Keys == c.f.streams.Keys);
  }

  lemma QuietTidy(c: Conn, e: Event)
    requires Tidy(c)
    requires e.RequestCancel? || e.RequestUpdate? || e.ReadEof? || e.DropInlet? || e.CwndChanges? || e.ProbeMtu?
             || e.SendDatagram? || e.RecordSend?
    ensures Tidy(Step(c, e))
  {
    var c' := Step(c, e);
    assert c'.f == c.f && c'.blocked == c.blocked && Held(c'.place) <= Held(c.place);
  }

  lemma AckFrameKeepsRequests(c: Conn, now: int, rs: seq<AckWire.Range>, delay: int)
    requires RequestsPlaced(c) && c.place.Top? && rs != []
    ensures RequestsPlaced(Received(c, ReceiveACK(c.h, now, rs, delay)))
  {
    HandlerRuns.AckBalances(c.h, now, rs, delay);
    RequestCallbacksKeep(c.q, c.h.sent, ReceiveACK(c.h, now, rs, delay));
    OutcomeAskedBy(c.q, ReceiveACK(c.h, now, rs, delay), c.nextPn);
  }

  lemma WakeKeepsRequests(c: Conn, gone: set<Half>, now: int)
    requires Inv(c, gone) && RequestsPlaced(c) && c.place.Top?
    ensures RequestsPlaced(Waking(c, now))
  {
    if HandlerRuns.Due(c.h, now) {
      HandlerRuns.TimeoutBalances(c.h, now);
      if c.h.lossTime.None? {
        HandlerRuns.ProbeExpiryProgresses(c.h, now);
      }
      RequestCallbacksKeep(c.q, c.h.sent, OnTimeout(c.h, now));
      OutcomeAskedBy(c.q, OnTimeout(c.h, now), c.nextPn);
    }
  }

  lemma StepKeepsRequests(c: Conn, gone: set<Half>, e: Event)
    requires Inv(c, gone) && RequestsPlaced(c) && Allowed(e)
    ensures RequestsPlaced(Step(c, e))
  {
    match e
    case AckFrame(now, rs, delay) => if c.place.Top? && rs != [] { AckFrameKeepsRequests(c, now, rs, delay); }
    case Wake(now) => if c.place.Top? { WakeKeepsRequests(c, gone, now); }
    case ProbeMtu(now, size) => RecordKeepsRequests(c, ProbePacket(c.nextPn, now, size));
    case SendDatagram(now, length, exempt) => RecordKeepsRequests(c, DatagramPacket(c.nextPn, now, length, exempt));
    case PopStream => if c.place.Awake? { PopKeepsRequests(c, c.place.pto); }
    case Choose(now, limit, mtu) => if c.place.Holding? { ChooseKeepsRequests(c, now, limit, mtu); }
    case RecordSend(now) =>
      if c.place.Built? { RecordKeepsRequests(c, DataPacket(c.nextPn, now, c.place.half, c.place.range)); }
    case RequestCancel(_) => AskKeepsRequests(c, e);
    case RequestUpdate(_) => AskKeepsRequests(c, e);
    case ReadEof(_) => AskKeepsRequests(c, e);
    case _ => SameRequests(c, e);
  }

  lemma AskKeepsRequests(c: Conn, e: Event)
    requires RequestsPlaced(c) && Allowed(e) && (e.RequestCancel? || e.RequestUpdate? || e.ReadEof?)
    ensures RequestsPlaced(Step(c, e))
  {
  }

  lemma SameRequests(c: Conn, e: Event)
    requires RequestsPlaced(c)
    requires e.Open? || e.DataFrame? || e.DropInlet? || e.AppendData? || e.Close? || e.CwndChanges? || e.Drain?
             || e.WindowFrame? || e.CancelFrame?
    ensures RequestsPlaced(Step(c, e))
  {
    var c' := Step(c, e);
    assert c'.q == c.q && c'.h == c.h && c'.place == c.place && c'.nextPn == c.nextPn;
  }

  // ---------------------------------------------------------------- theorems

  ghost predicate AllAllowed(events: seq<Event>) { forall e <- events :: Allowed(e) }

  /** The halves that some step of the run evicted. */
  ghost function Evicted(c: Conn, events: seq<Event>): set<Half>
    decreases |events|
  {
    if events == [] then {}
    else
      var before := events[..|events| - 1];
      Evicted(c, before) + Evictees(Exec(c, before), events[|events| - 1])
  }

  ghost function Start(server: bool, rtt: Rtts.Rtt, cwnd: int): Conn { Init(server, AckHandlers.New(rtt), cwnd) }

  lemma {:induction false} RunKeeps(server: bool, rtt: Rtts.Rtt, cwnd: int, events: seq<Event>)
    requires cwnd > 0 && AllAllowed(events)
    ensures var c0 := Start(server, rtt, cwnd);
            && Inv(Exec(c0, events), Evicted(c0, events))
            && RequestsPlaced(Exec(c0, events)) && Tidy(Exec(c0, events))
    decreases |events|
  {
    if events != [] {
      var c0, before, e := Start(server, rtt, cwnd), events[..|events| - 1], events[|events| - 1];
      RunKeeps(server, rtt, cwnd, before);
      StepKeepsRequests(Exec(c0, before), Evicted(c0, before), e);
      StepTidy(Exec(c0, before), e);
      StepKeeps(Exec(c0, before), Evicted(c0, before), e);
    }
  }

  /** On the trigger, parked for congestion, or carried by an outstanding packet. */
  ghost predicate Placed(c: Conn, half: Half) {
    half in c.f.trigger || half in c.blocked.Values || Owns(Elems(c.h.sent), half)
  }

  /** No stream is orphaned, except by eviction: at the top of every pass of every run, a half with
      work is on the trigger, is parked for congestion, or owns an outstanding packet, or some step
      parked another half of its number over it when it had no other home. And while congestion
      control forbids sending, the loss timer is armed. */
  lemma NoOrphanedStream(server: bool, rtt: Rtts.Rtt, cwnd: int, events: seq<Event>)
    requires cwnd > 0 && AllAllowed(events)
    ensures var c0 := Start(server, rtt, cwnd);
            var c := Exec(c0, events);
            && (c.place.Top? ==>
                  forall half :: half in c.f.streams && Work(c.f.streams[half]) ==> Placed(c, half) || half in Evicted(c0, events))
            && (!c.CanSend() ==> c.h.timer.Some?)
  {
    var c0 := Start(server, rtt, cwnd);
    var c := Exec(c0, events);
    RunKeeps(server, rtt, cwnd, events);
    forall half | c.place.Top? && half in c.f.streams && Work(c.f.streams[half])
      ensures Placed(c, half) || half in Evicted(c0, events)
    {
      assert Homed(c.f.streams[half], half, c.f.trigger, Elems(c.h.sent), Homes(c, Evicted(c0, events)));
    }
  }

  ghost predicate AllPlaced(c: Conn) {
    c.place.Top? ==> forall half :: half in c.f.streams && Work(c.f.streams[half]) ==> Placed(c, half)
  }

  /** Every half with work is placed at the top of every pass so far. */
  ghost predicate AlwaysPlaced(c0: Conn, events: seq<Event>)
    decreases |events|
  {
    && AllPlaced(Exec(c0, events))
    && (events != [] ==> AlwaysPlaced(c0, events[..|events| - 1]))
  }

  /** An eviction leaves an orphan behind. */
  lemma EvictionOrphans(c: Conn, e: Event, half: Half)
    requires Tidy(c) && half in Evictees(c, e)
    ensures var c' := Step(c, e);
            c'.place.Top? && half in c'.f.streams && Work(c'.f.streams[half]) && !Placed(c', half)
  {
    var held := c.place.stream.value;
    var blocked := c.blocked[held.id := held];
    assert Step(c, e).blocked == blocked;
    assert half.id == held.id;
    forall id | id in blocked ensures blocked[id] != half {
    }
  }

  /** Exactly the evictions orphan: every half with work is placed at the top of every pass of the run
      if and only if no step of it parks a half over another one of its number that has work, is not
      on the trigger and owns no outstanding packet. */
  lemma {:induction false} OrphansExactlyByEviction(server: bool, rtt: Rtts.Rtt, cwnd: int, events: seq<Event>)
    requires cwnd > 0 && AllAllowed(events)
    ensures AlwaysPlaced(Start(server, rtt, cwnd), events) <==> Evicted(Start(server, rtt, cwnd), events) == {}
    decreases |events|
  {
    var c0 := Start(server, rtt, cwnd);
    if events != [] {
      var before, e := events[..|events| - 1], events[|events| - 1];
      OrphansExactlyByEviction(server, rtt, cwnd, before);
      RunKeeps(server, rtt, cwnd, before);
      if half :| half in Evictees(Exec(c0, before), e) {
        EvictionOrphans(Exec(c0, before), e, half);
      }
    }
    NoOrphanedStream(server, rtt, cwnd, events);
  }

  /** An eviction needs two halves of one number, both with the connection: it takes a data frame that
      came after the number's receive half was dropped. */
  lemma EvictionNeedsTwoHalves(c: Conn, e: Event, half: Half)
    requires Tidy(c) && half in Evictees(c, e)
    ensures exists other :: other in c.f.streams && other != half && other.id == half.id
  {
    assert c.place.stream.value in Held(c.place);
  }

  /** No lost byte: in every state of every run, a byte that was sent and not acknowledged lies in a
      tracked range, and that range waits for retransmission, is about to be recorded, or is carried
      by an outstanding packet, whose loss timer is then armed. */
  lemma NoLostByte(server: bool, rtt: Rtts.Rtt, cwnd: int, events: seq<Event>, half: Half, b: nat)
    requires cwnd > 0 && AllAllowed(events)
    requires var c := Exec(Start(server, rtt, cwnd), events);
             half in c.f.streams && b < c.f.streams[half].offset && forall x :: (half, x) in c.f.acked ==> !x.Has(b)
    ensures var c := Exec(Start(server, rtt, cwnd), events);
            exists x :: x in c.f.streams[half].sentRanges && x.Has(b)
                        && (x in c.f.streams[half].retransmit || c.place == Built(half, x)
                            || (Carries(Elems(c.h.sent), half, x) && c.h.timer.Some?))
  {
    RunKeeps(server, rtt, cwnd, events);
    var c := Exec(Start(server, rtt, cwnd), events);
    var s := c.f.streams[half];
    assert StreamOk(s, half, c.f.acked, Elems(c.h.sent), InHand(c.place));
    assert Known(s.sentRanges, half, c.f.acked, b);
    var x :| (x in s.sentRanges || (half, x) in c.f.acked) && x.Has(b);
    assert x in s.retransmit || (half, x) in InHand(c.place) || Carries(Elems(c.h.sent), half, x);
  }

  /** A queued retransmission is not stranded either, except by eviction: between passes, a sent byte
      that was not acknowledged is carried by an outstanding packet, or its half is on the trigger or
      parked or owns another outstanding packet, or was evicted. */
  lemma EverySentByteIsRecoverable(server: bool, rtt: Rtts.Rtt, cwnd: int, events: seq<Event>, half: Half, b: nat)
    requires cwnd > 0 && AllAllowed(events)
    requires var c := Exec(Start(server, rtt, cwnd), events);
             && c.place.Top? && half in c.f.streams && b < c.f.streams[half].offset
             && forall x :: (half, x) in c.f.acked ==> !x.Has(b)
    ensures var c := Exec(Start(server, rtt, cwnd), events);
            || half in c.f.trigger || half in c.blocked.Values || (Owns(Elems(c.h.sent), half) && c.h.timer.Some?)
            || half in Evicted(Start(server, rtt, cwnd), events)
  {
    NoOrphanedStream(server, rtt, cwnd, events);
    NoLostByte(server, rtt, cwnd, events, half, b);
    RunKeeps(server, rtt, cwnd, events);
  }

  /** No request is forgotten: in every state of every run, a receive half that asked for a window
      update or a cancel, whose EOF was not read and whose newest request has no acknowledged packet,
      is queued, in the loop's hands, or has a packet outstanding that was numbered since that
      request, with the timer armed. */
  lemma NoForgottenRequest(server: bool, rtt: Rtts.Rtt, cwnd: int, events: seq<Event>, half: Half)
    requires cwnd > 0 && AllAllowed(events) && half !in Exec(Start(server, rtt, cwnd), events).q.ended
    ensures var c := Exec(Start(server, rtt, cwnd), events);
            && (half in c.q.askedUpdate ==>
                  || half in c.q.updates || HeldUpdate(c.place) == Some(half)
                  || (UpdateOut(Elems(c.h.sent), half, c.q.askedUpdate[half]) && c.h.timer.Some?))
            && (half in c.q.askedCancel ==>
                  || half in c.q.cancels || HeldCancel(c.place) == Some(half)
                  || (CancelOut(Elems(c.h.sent), half, c.q.askedCancel[half]) && c.h.timer.Some?))
  {
    RunKeeps(server, rtt, cwnd, events);
  }
}
