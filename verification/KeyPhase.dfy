/** The key-phase protocol of objproto/objproto.go, one direction: a sender that ratchets its key
    and a receiver that follows one phase bit.

    Cryptography is symbolic. A key is a number of ratchet steps from the first secret, and
    opening succeeds exactly on what was sealed under the same key with the same header and
    number. Packet numbers have 63 bits; the network may drop, repeat, reorder, alter headers and
    invent packets, but it cannot seal. */
module KeyPhases {
  import opened Common
  import opened ReplayTrackers

  const KEY_UPDATE_PACKETS: nat := 0x40_0000
  const MIN_PACKETS_BETWEEN_UPDATES: nat := 1024
  const MIN_TIME_BETWEEN_UPDATES: int := 1_000_000_000
  const PREV_KEY_RETENTION: int := 3_000_000_000
  const TWO64: nat := 0x1_0000_0000_0000_0000

  datatype Secret = First | Ratchet(from: Secret)

  function KeyOf(phase: nat): Secret { if phase == 0 then First else Ratchet(KeyOf(phase - 1)) }

  lemma {:induction false} KeysDiffer(a: nat, b: nat)
    ensures KeyOf(a) == KeyOf(b) <==> a == b
    decreases a + b
  {
    if a > 0 && b > 0 {
      KeysDiffer(a - 1, b - 1);
    }
  }

  /** What was sealed: the payload, and the number and header bits the seal covers. */
  datatype Message = Message(pn: nat, bit: bool, control: bool, payload: seq<byte>)

  datatype Ciphertext = Sealed(key: Secret, m: Message) | Garbage

  /** A packet as it arrives; the network may have rewritten any field but the ciphertext. */
  datatype Packet = Packet(pn: nat, bit: bool, control: bool, body: Ciphertext)

  function Open(key: Secret, p: Packet): Option<seq<byte>> {
    match p.body
    case Sealed(k, m) =>
      if k == key && m.pn == p.pn && m.bit == p.bit && m.control == p.control then Some(m.payload) else None
    case Garbage => None
  }

  predicate PhaseBit(phase: nat) { phase % 2 == 1 }

  // ---------------------------------------------------------------- sending

  datatype Outbound = Outbound(sendSecret: Secret, sendPhase: nat, sendPhaseFrom: nat, sendPhaseAt: int, sentCounter: nat)

  predicate CanUpdate(s: Outbound, now: int) {
    s.sentCounter >= s.sendPhaseFrom + MIN_PACKETS_BETWEEN_UPDATES && now - s.sendPhaseAt >= MIN_TIME_BETWEEN_UPDATES
  }

  function Ratcheted(s: Outbound, now: int): Outbound {
    Outbound(Ratchet(s.sendSecret), s.sendPhase + 1, s.sentCounter, now, s.sentCounter)
  }

  predicate UpdateAllowed(s: Outbound, now: int) { s.sendPhase == 0 || CanUpdate(s, now) }

  function Consumed(s: Outbound): Outbound { s.(sentCounter := s.sentCounter + 1) }

  /** sendApplicationFrame before sealing: the counter, then the automatic update. The distance
      from the start of the phase wraps when an older number is used. */
  function Prepared(s: Outbound, pn: Option<nat>, now: int): Outbound {
    var s1 := if pn.Some? then s else Consumed(s);
    var count := if pn.Some? then pn.value else s1.sentCounter;
    if (count - s1.sendPhaseFrom) % TWO64 >= KEY_UPDATE_PACKETS && CanUpdate(s1, now) then Ratcheted(s1, now) else s1
  }

  function NumberOf(s: Outbound, pn: Option<nat>): nat { if pn.Some? then pn.value else s.sentCounter + 1 }

  function SealedFrame(s: Outbound, pn: Option<nat>, control: bool, payload: seq<byte>, now: int): Packet {
    var s', n := Prepared(s, pn, now), NumberOf(s, pn);
    var bit := PhaseBit(s'.sendPhase);
    Packet(n, bit, control, Sealed(s'.sendSecret, Message(n, bit, control, payload)))
  }

  // ---------------------------------------------------------------- receiving

  datatype Inbound = Inbound(
    recvSecret: Secret, recvPhase: nat, recvPhaseFrom: nat,
    peerSecret: Secret, prevPeerSecret: Option<Secret>, prevExpiry: int,
    nextPeerSecret: Secret, nextRecvSecret: Secret, accepted: set<nat>)

  datatype Choice = Current | Previous | Following

  function KeyChoice(r: Inbound, p: Packet, now: int): Choice {
    if p.bit == PhaseBit(r.recvPhase) then Current
    else if p.pn < r.recvPhaseFrom && r.prevPeerSecret.Some? && now < r.prevExpiry then Previous
    else Following
  }

  function ChosenKey(r: Inbound, p: Packet, now: int): Secret {
    match KeyChoice(r, p, now)
    case Current => r.peerSecret
    case Previous => if r.prevPeerSecret.Some? then r.prevPeerSecret.value else First
    case Following => r.nextPeerSecret
  }

  /** commitRecvPhaseLocked. */
  function Committed(r: Inbound, pn: nat, now: int): Inbound {
    r.(prevPeerSecret := Some(r.peerSecret), prevExpiry := now + PREV_KEY_RETENTION,
       peerSecret := r.nextPeerSecret, recvSecret := r.nextRecvSecret,
       recvPhase := r.recvPhase + 1, recvPhaseFrom := pn,
       nextRecvSecret := Ratchet(r.nextRecvSecret), nextPeerSecret := Ratchet(r.nextRecvSecret))
  }

  /** What the receiver hands to the application, if anything. */
  function Delivery(r: Inbound, p: Packet, now: int): Option<seq<byte>> {
    if !Accepts(r.accepted, p.pn) then None else Open(ChosenKey(r, p, now), p)
  }

  function Received(r: Inbound, p: Packet, now: int): Inbound {
    if Delivery(r, p, now).None? then r
    else
      var r' := if KeyChoice(r, p, now) == Following then Committed(r, p.pn, now) else r;
      r'.(accepted := r.accepted + {p.pn})
  }

  class ActiveConnection {
    var sendSecret: Secret
    var sendPhase: nat
    var sendPhaseFrom: nat
    var sendPhaseAt: int
    var sentCounter: nat
    var recvSecret: Secret
    var recvPhase: nat
    var recvPhaseFrom: nat
    var peerSecret: Secret
    var prevPeerSecret: Option<Secret>
    var prevExpiry: int
    var nextPeerSecret: Secret
    var nextRecvSecret: Secret
    const recvTracker: ReplayTracker

    ghost function SendView(): Outbound
      reads this
    {
      Outbound(sendSecret, sendPhase, sendPhaseFrom, sendPhaseAt, sentCounter)
    }

    ghost function RecvView(): Inbound
      reads this, recvTracker
    {
      Inbound(recvSecret, recvPhase, recvPhaseFrom, peerSecret, prevPeerSecret, prevExpiry,
              nextPeerSecret, nextRecvSecret, recvTracker.accepted)
    }

    constructor (now: int)
      ensures SendView() == NewOutbound(now) && RecvView() == NewInbound()
      ensures recvTracker.Valid() && fresh(recvTracker)
    {
      sendSecret, sendPhase, sendPhaseFrom, sendPhaseAt, sentCounter := First, 0, 0, now, 0;
      recvSecret, recvPhase, recvPhaseFrom := First, 0, 0;
      peerSecret, prevPeerSecret, prevExpiry := First, None, 0;
      nextPeerSecret, nextRecvSecret := Ratchet(First), Ratchet(First);
      recvTracker := new ReplayTracker();
    }

    method RatchetSend(now: int)
      modifies this
      ensures SendView() == Ratcheted(old(SendView()), now) && RecvView() == old(RecvView())
    {
      sendSecret := Ratchet(sendSecret);
      sendPhase := sendPhase + 1;
      sendPhaseFrom := sentCounter;
      sendPhaseAt := now;
    }

    method UpdateKey(now: int) returns (ok: bool)
      modifies this
      ensures ok == UpdateAllowed(old(SendView()), now) && RecvView() == old(RecvView())
      ensures SendView() == if ok then Ratcheted(old(SendView()), now) else old(SendView())
    {
      if sendPhase > 0 && !CanUpdate(Outbound(sendSecret, sendPhase, sendPhaseFrom, sendPhaseAt, sentCounter), now) {
        return false;
      }
      RatchetSend(now);
      ok := true;
    }

    method SendApplicationFrame(payload: seq<byte>, pn: Option<nat>, control: bool, now: int) returns (p: Packet)
      modifies this
      ensures SendView() == Prepared(old(SendView()), pn, now) && RecvView() == old(RecvView())
      ensures p == SealedFrame(old(SendView()), pn, control, payload, now)
    {
      var count := 0;
      if pn.Some? {
        count := pn.value;
      } else {
        sentCounter := sentCounter + 1;
        count := sentCounter;
      }
      if (count - sendPhaseFrom) % TWO64 >= KEY_UPDATE_PACKETS
         && sentCounter >= sendPhaseFrom + MIN_PACKETS_BETWEEN_UPDATES && now - sendPhaseAt >= MIN_TIME_BETWEEN_UPDATES {
        RatchetSend(now);
      }
      var bit := sendPhase % 2 == 1;
      p := Packet(count, bit, control, Sealed(sendSecret, Message(count, bit, control, payload)));
    }

    method ReceiveApplication(p: Packet, now: int) returns (out: Option<seq<byte>>)
      requires recvTracker.Valid()
      modifies this, recvTracker
      ensures recvTracker.Valid() && SendView() == old(SendView())
      ensures out == Delivery(old(RecvView()), p, now) && RecvView() == Received(old(RecvView()), p, now)
    {
      var isNew := recvTracker.InsertNonce(p.pn, true);
      if !isNew {
        return None;
      }
      var advanced := false;
      if p.bit == (recvPhase % 2 == 1) {
        out := Open(peerSecret, p);
      } else if p.pn < recvPhaseFrom && prevPeerSecret.Some? && now < prevExpiry {
        out := Open(prevPeerSecret.value, p);
      } else {
        out := Open(nextPeerSecret, p);
        advanced := out.Some?;
      }
      if out.None? {
        return None;
      }
      if advanced {
        CommitRecvPhase(p.pn, now);
      }
      var _ := recvTracker.InsertNonce(p.pn, false);
    }

    method CommitRecvPhase(pn: nat, now: int)
      modifies this
      ensures RecvView() == Committed(old(RecvView()), pn, now) && SendView() == old(SendView())
    {
      prevPeerSecret := Some(peerSecret);
      prevExpiry := now + PREV_KEY_RETENTION;
      peerSecret := nextPeerSecret;
      recvSecret := nextRecvSecret;
      recvPhase := recvPhase + 1;
      recvPhaseFrom := pn;
      var next := Ratchet(recvSecret);
      nextRecvSecret := next;
      nextPeerSecret := next;
    }
  }

  function NewOutbound(now: int): Outbound { Outbound(First, 0, 0, now, 0) }

  function NewInbound(): Inbound { Inbound(First, 0, 0, First, None, 0, Ratchet(First), Ratchet(First), {}) }

  // ---------------------------------------------------------------- the link

  /** A message and the phase it was sealed in. */
  datatype Record = Record(phase: nat, m: Message)

  /** When a phase began: how many numbers were used up by then, or which number began it, and the time. */
  datatype Moment = Moment(counter: nat, at: int)

  /** Both ends, every seal, every delivery, every key update of the sender, and the number and time of
      every delivery that advanced the receiver to the next phase, in order. */
  datatype Link = Link(
    snd: Outbound, rcv: Inbound, seals: seq<Record>, delivered: seq<Record>, updates: seq<Moment>, advances: seq<Moment>)

  datatype Event =
    | Consume
    | Update(now: int)
    | Send(pn: Option<nat>, control: bool, payload: seq<byte>, now: int)
    | Receive(p: Packet, now: int)

  function Init(now: int): Link { Link(NewOutbound(now), NewInbound(), [], [], [], []) }

  function Sealing(l: Link, pn: Option<nat>, control: bool, payload: seq<byte>, now: int): Record {
    Record(Prepared(l.snd, pn, now).sendPhase, SealedFrame(l.snd, pn, control, payload, now).body.m)
  }

  /** The network hands over a packet whose ciphertext is garbage or was sealed by the sender. */
  predicate Presentable(l: Link, p: Packet) {
    p.body.Garbage? || exists i :: 0 <= i < |l.seals| && p.body == Sealed(KeyOf(l.seals[i].phase), l.seals[i].m)
  }

  function PhaseOpened(r: Inbound, p: Packet, now: int): nat {
    match KeyChoice(r, p, now)
    case Current => r.recvPhase
    case Previous => if r.recvPhase > 0 then r.recvPhase - 1 else 0
    case Following => r.recvPhase + 1
  }

  /** The sender moves on; a new phase is noted. */
  function Sending(l: Link, s: Outbound, now: int): Link {
    l.(snd := s, updates := if s.sendPhase > l.snd.sendPhase then l.updates + [Moment(s.sentCounter, now)] else l.updates)
  }

  /** The receiver takes a delivery; a new phase is noted. */
  function Delivering(l: Link, p: Packet, now: int): Link
    requires p.body.Sealed?
  {
    var r := Received(l.rcv, p, now);
    l.(rcv := r, delivered := l.delivered + [Record(PhaseOpened(l.rcv, p, now), p.body.m)],
       advances := if r.recvPhase > l.rcv.recvPhase then l.advances + [Moment(p.pn, now)] else l.advances)
  }

  function Step(l: Link, e: Event): Link {
    match e
    case Consume => l.(snd := Consumed(l.snd))
    case Update(now) => if UpdateAllowed(l.snd, now) then Sending(l, Ratcheted(l.snd, now), now) else l
    case Send(pn, control, payload, now) =>
      Sending(l, Prepared(l.snd, pn, now), now).(seals := l.seals + [Sealing(l, pn, control, payload, now)])
    case Receive(p, now) =>
      if !Presentable(l, p) then l
      else if Delivery(l.rcv, p, now).None? then l.(rcv := Received(l.rcv, p, now))
      else Delivering(l, p, now)
  }

  function Exec(l: Link, events: seq<Event>): Link {
    if events == [] then l else Step(Exec(l, events[..|events| - 1]), events[|events| - 1])
  }

  /** The held keys are those of the phase before, the current one and the one after. */
  ghost predicate KeysHeld(r: Inbound) {
    && r.recvSecret == KeyOf(r.recvPhase) && r.peerSecret == KeyOf(r.recvPhase)
    && r.nextRecvSecret == KeyOf(r.recvPhase + 1) && r.nextPeerSecret == KeyOf(r.recvPhase + 1)
    && r.prevPeerSecret == (if r.recvPhase == 0 then None else Some(KeyOf(r.recvPhase - 1)))
  }

  ghost predicate SealsOk(l: Link) {
    && l.snd.sendSecret == KeyOf(l.snd.sendPhase)
    && (forall i :: 0 <= i < |l.seals| ==>
          l.seals[i].phase <= l.snd.sendPhase && l.seals[i].m.bit == PhaseBit(l.seals[i].phase))
    && (forall i, j :: 0 <= i < j < |l.seals| ==> l.seals[i].phase <= l.seals[j].phase)
  }

  ghost predicate DeliveriesOk(l: Link) {
    && (forall i :: 0 <= i < |l.delivered| ==> l.delivered[i] in l.seals && l.delivered[i].m.pn in l.rcv.accepted)
    && (forall i, j :: 0 <= i < j < |l.delivered| ==> l.delivered[i].m.pn != l.delivered[j].m.pn)
  }

  ghost predicate FollowsSender(l: Link) {
    && l.rcv.recvPhase <= l.snd.sendPhase
    && (l.rcv.recvPhase > 0 ==> exists i :: 0 <= i < |l.seals| && l.seals[i].phase == l.rcv.recvPhase && l.seals[i].m.pn == l.rcv.recvPhaseFrom)
  }

  /** Two updates are at least 1024 numbers and one second apart. */
  ghost predicate Spaced(a: Moment, b: Moment) {
    a.counter + MIN_PACKETS_BETWEEN_UPDATES <= b.counter && a.at + MIN_TIME_BETWEEN_UPDATES <= b.at
  }

  ghost predicate UpdatesOk(l: Link) {
    && |l.updates| == l.snd.sendPhase && l.snd.sendPhaseFrom <= l.snd.sentCounter
    && (l.updates != [] ==> l.updates[|l.updates| - 1] == Moment(l.snd.sendPhaseFrom, l.snd.sendPhaseAt))
    && (forall i, j :: 0 <= i < j < |l.updates| ==> Spaced(l.updates[i], l.updates[j]))
  }

  /** An update past the first needs the distance from the one before. */
  lemma UpdateIsSpaced(l: Link, now: int)
    requires UpdatesOk(l) && UpdateAllowed(l.snd, now)
    ensures UpdatesOk(Sending(l, Ratcheted(l.snd, now), now))
  {
    var u := l.updates;
    if u != [] {
      forall i | 0 <= i < |u| ensures Spaced(u[i], Moment(l.snd.sentCounter, now)) {
        assert i < |u| - 1 ==> Spaced(u[i], u[|u| - 1]);
      }
    }
  }

  /** The receiver remembers its last advance: which number it began with, and for how long the key of
      the phase before is kept. */
  ghost predicate AdvancesOk(l: Link) {
    && |l.advances| == l.rcv.recvPhase
    && (l.advances != [] ==>
          var last := l.advances[|l.advances| - 1];
          l.rcv.recvPhaseFrom == last.counter && l.rcv.prevExpiry == last.at + PREV_KEY_RETENTION)
  }

  ghost predicate LinkOk(l: Link) {
    KeysHeld(l.rcv) && SealsOk(l) && DeliveriesOk(l) && FollowsSender(l) && UpdatesOk(l) && AdvancesOk(l)
  }

  lemma SendKeeps(l: Link, pn: Option<nat>, control: bool, payload: seq<byte>, now: int)
    requires LinkOk(l)
    ensures LinkOk(Step(l, Send(pn, control, payload, now)))
  {
    var l' := Step(l, Send(pn, control, payload, now));
    assert forall i :: 0 <= i < |l.seals| ==> l'.seals[i] == l.seals[i];
    assert forall i :: 0 <= i < |l.delivered| ==> l.delivered[i] in l'.seals;
    SendIsSpaced(l, pn, now);
  }

  /** The automatic update keeps the distance too. */
  lemma SendIsSpaced(l: Link, pn: Option<nat>, now: int)
    requires UpdatesOk(l)
    ensures UpdatesOk(Sending(l, Prepared(l.snd, pn, now), now))
  {
    var s1 := if pn.Some? then l.snd else Consumed(l.snd);
    if Prepared(l.snd, pn, now) != s1 {
      assert UpdatesOk(l.(snd := s1));
      UpdateIsSpaced(l.(snd := s1), now);
    }
  }

  /** A packet that opens is one the sender sealed, in the phase whose key was chosen. */
  lemma OpenedWasSealed(l: Link, p: Packet, now: int) returns (i: nat)
    requires LinkOk(l) && Presentable(l, p) && Delivery(l.rcv, p, now).Some?
    ensures i < |l.seals| && l.seals[i] == Record(PhaseOpened(l.rcv, p, now), p.body.m) && l.seals[i].m.pn == p.pn
  {
    var k :| 0 <= k < |l.seals| && p.body == Sealed(KeyOf(l.seals[k].phase), l.seals[k].m);
    i := k;
    KeysDiffer(l.seals[k].phase, l.rcv.recvPhase);
    KeysDiffer(l.seals[k].phase, l.rcv.recvPhase + 1);
    if l.rcv.recvPhase > 0 {
      KeysDiffer(l.seals[k].phase, l.rcv.recvPhase - 1);
    }
  }

  lemma ReceiveKeeps(l: Link, p: Packet, now: int)
    requires LinkOk(l)
    ensures LinkOk(Step(l, Receive(p, now)))
  {
    var l' := Step(l, Receive(p, now));
    if Presentable(l, p) && Delivery(l.rcv, p, now).Some? {
      var i := OpenedWasSealed(l, p, now);
      assert l.seals[i] in l.seals;
      assert forall k :: 0 <= k < |l.delivered| ==> l'.delivered[k] == l.delivered[k];
      if KeyChoice(l.rcv, p, now) == Following {
        assert l'.seals[i].phase == l'.rcv.recvPhase && l'.seals[i].m.pn == l'.rcv.recvPhaseFrom;
      }
    }
  }

  lemma StepKeeps(l: Link, e: Event)
    requires LinkOk(l)
    ensures LinkOk(Step(l, e))
  {
    match e
    case Consume =>
    case Update(now) => if UpdateAllowed(l.snd, now) { UpdateIsSpaced(l, now); }
    case Send(pn, control, payload, now) => SendKeeps(l, pn, control, payload, now);
    case Receive(p, now) => ReceiveKeeps(l, p, now);
  }

  /** The key-phase protocol over every run: the receiver is never ahead of the sender, it holds
      the keys of exactly three neighbouring phases, it delivers only what was sealed and each
      number at most once, and any two key updates are at least 1024 numbers and a second apart. */
  lemma {:induction false} KeyPhaseSafety(now: int, events: seq<Event>)
    ensures var l := Exec(Init(now), events);
            && l.rcv.recvPhase <= l.snd.sendPhase && KeysHeld(l.rcv)
            && (forall i :: 0 <= i < |l.delivered| ==> l.delivered[i] in l.seals)
            && (forall i, j :: 0 <= i < j < |l.delivered| ==> l.delivered[i].m.pn != l.delivered[j].m.pn)
            && |l.updates| == l.snd.sendPhase
            && (forall i, j :: 0 <= i < j < |l.updates| ==> Spaced(l.updates[i], l.updates[j]))
    ensures LinkOk(Exec(Init(now), events))
  {
    if events != [] {
      KeyPhaseSafety(now, events[..|events| - 1]);
      StepKeeps(Exec(Init(now), events[..|events| - 1]), events[|events| - 1]);
    }
  }

  // ---------------------------------------------------------------- which packets open

  function AsSent(x: Record): Packet { Packet(x.m.pn, x.m.bit, x.m.control, Sealed(KeyOf(x.phase), x.m)) }

  /** The number belongs to the phase before the last advance, and that advance is less than three
      seconds old. */
  ghost predicate Recent(advances: seq<Moment>, pn: nat, now: int) {
    advances != [] && pn < advances[|advances| - 1].counter && now < advances[|advances| - 1].at + 3_000_000_000
  }

  /** An unaltered packet that was not seen before opens exactly when it is of the phase of the last
      advance, of the phase before while that advance is recent and its number is below the advancing
      one, or of the next phase and not mistaken for an old one. */
  lemma OpensExactly(l: Link, x: Record, now: int)
    requires LinkOk(l) && x in l.seals && Accepts(l.rcv.accepted, x.m.pn)
    ensures Delivery(l.rcv, AsSent(x), now) == Some(x.m.payload) <==>
              || x.phase == |l.advances|
              || (x.phase + 1 == |l.advances| && Recent(l.advances, x.m.pn, now))
              || (x.phase == |l.advances| + 1 && !Recent(l.advances, x.m.pn, now))
  {
    KeysDiffer(x.phase, l.rcv.recvPhase);
    KeysDiffer(x.phase, l.rcv.recvPhase + 1);
    if l.rcv.recvPhase > 0 {
      KeysDiffer(x.phase, l.rcv.recvPhase - 1);
    }
  }

  /** Packet numbers were given in the order of sealing. */
  ghost predicate SealOrder(l: Link) {
    forall i, j :: 0 <= i < j < |l.seals| ==> l.seals[i].m.pn < l.seals[j].m.pn
  }

  /** With numbers in seal order, a first-time packet opens if and only if it is of the phase of the
      last advance or of the next one, or of the phase before and arrives within three seconds of that
      advance. */
  lemma InOrderNumbersOpen(now: int, events: seq<Event>, x: Record, at: int)
    requires var l := Exec(Init(now), events); SealOrder(l) && x in l.seals && Accepts(l.rcv.accepted, x.m.pn)
    ensures var l := Exec(Init(now), events);
            Delivery(l.rcv, AsSent(x), at) == Some(x.m.payload) <==>
              || x.phase == |l.advances| || x.phase == |l.advances| + 1
              || (x.phase + 1 == |l.advances| && at < l.advances[|l.advances| - 1].at + 3_000_000_000)
  {
    KeyPhaseSafety(now, events);
    InOrderOpens(Exec(Init(now), events), x, at);
  }

  lemma InOrderOpens(l: Link, x: Record, at: int)
    requires LinkOk(l) && SealOrder(l) && x in l.seals && Accepts(l.rcv.accepted, x.m.pn)
    ensures Delivery(l.rcv, AsSent(x), at) == Some(x.m.payload) <==>
              || x.phase == |l.advances| || x.phase == |l.advances| + 1
              || (x.phase + 1 == |l.advances| && at < l.advances[|l.advances| - 1].at + 3_000_000_000)
  {
    OpensExactly(l, x, at);
    if l.advances != [] {
      OlderNumbersAreLower(l, x);
    }
  }

  lemma OlderNumbersAreLower(l: Link, x: Record)
    requires LinkOk(l) && SealOrder(l) && x in l.seals && l.advances != []
    ensures x.phase < |l.advances| ==> x.m.pn < l.advances[|l.advances| - 1].counter
    ensures x.phase > |l.advances| ==> x.m.pn > l.advances[|l.advances| - 1].counter
  {
    var i :| 0 <= i < |l.seals| && l.seals[i].phase == l.rcv.recvPhase && l.seals[i].m.pn == l.rcv.recvPhaseFrom;
    var k :| 0 <= k < |l.seals| && l.seals[k] == x;
    assert x.phase < l.rcv.recvPhase ==> k < i;
    assert x.phase > l.rcv.recvPhase ==> i < k;
  }

  // ---------------------------------------------------------------- when the sender updates

  /** The numbers used up: one for each that is consumed, and one for each packet sent without a
      number of its own. */
  function Used(events: seq<Event>): nat {
    if events == [] then 0
    else
      var e := events[|events| - 1];
      Used(events[..|events| - 1]) + (if e.Consume? || (e.Send? && e.pn.None?) then 1 else 0)
  }

  /** The last update, or the start of the connection. */
  ghost function Latest(l: Link, start: int): Moment {
    if l.updates == [] then Moment(0, start) else l.updates[|l.updates| - 1]
  }

  /** The sender's own counters in terms of the history. */
  ghost predicate Counts(l: Link, start: int, used: nat) {
    l.snd.sentCounter == used && Moment(l.snd.sendPhaseFrom, l.snd.sendPhaseAt) == Latest(l, start)
  }

  lemma StepCounts(l: Link, start: int, used: nat, e: Event)
    requires Counts(l, start, used)
    ensures Counts(Step(l, e), start, used + if e.Consume? || (e.Send? && e.pn.None?) then 1 else 0)
  {
  }

  lemma {:induction false} CounterIsUsed(start: int, events: seq<Event>)
    ensures Counts(Exec(Init(start), events), start, Used(events))
    decreases |events|
  {
    if events != [] {
      CounterIsUsed(start, events[..|events| - 1]);
      StepCounts(Exec(Init(start), events[..|events| - 1]), start, Used(events[..|events| - 1]), events[|events| - 1]);
    }
  }

  /** A packet moves the sender to the next key when its number is 0x40_0000 or more beyond the last
      update, as a 64-bit difference, and a second has passed; one with a number of its own, only after
      1024 other numbers were used up. */
  ghost predicate Automatic(pn: Option<nat>, used: nat, last: Moment, now: int) {
    && now - last.at >= 1_000_000_000
    && match pn
       case None => (used + 1 - last.counter) % 0x1_0000_0000_0000_0000 >= 0x40_0000
       case Some(n) => (n - last.counter) % 0x1_0000_0000_0000_0000 >= 0x40_0000 && used - last.counter >= 1024
  }

  /** A request is granted for the first update, and then after 1024 numbers and a second. */
  ghost predicate Granted(updates: seq<Moment>, used: nat, now: int) {
    updates != [] ==>
      used - updates[|updates| - 1].counter >= 1024 && now - updates[|updates| - 1].at >= 1_000_000_000
  }

  lemma SendUpdates(l: Link, start: int, used: nat, pn: Option<nat>, control: bool, payload: seq<byte>, now: int)
    requires UpdatesOk(l) && Counts(l, start, used)
    ensures var sent := Step(l, Send(pn, control, payload, now));
            && |sent.updates| == |l.updates| + (if Automatic(pn, used, Latest(l, start), now) then 1 else 0)
            && sent.seals == l.seals + [Record(|sent.updates|, Message(
                                 match pn case None => used + 1 case Some(n) => n,
                                 |sent.updates| % 2 == 1, control, payload))]
  {
    var last := Latest(l, start);
    assert last.counter == l.snd.sendPhaseFrom <= used;
    if pn.None? && used + 1 - last.counter < 1024 {
      assert (used + 1 - last.counter) % TWO64 == used + 1 - last.counter;
    }
  }

  lemma RequestUpdates(l: Link, start: int, used: nat, now: int)
    requires UpdatesOk(l) && Counts(l, start, used)
    ensures |Step(l, Update(now)).updates| == |l.updates| + if Granted(l.updates, used, now) then 1 else 0
  {
  }

  /** Over every run the sender moves to the next key exactly when it must. Every packet is sealed in the
      phase that counts the updates so far, under its own number or the next one that was never used. */
  lemma UpdatesExactly(start: int, events: seq<Event>, pn: Option<nat>, control: bool, payload: seq<byte>, now: int)
    ensures var l := Exec(Init(start), events);
            var sent := Step(l, Send(pn, control, payload, now));
            && |sent.updates| == |l.updates| + (if Automatic(pn, Used(events), Latest(l, start), now) then 1 else 0)
            && sent.seals == l.seals + [Record(|sent.updates|, Message(
                                 match pn case None => Used(events) + 1 case Some(n) => n,
                                 |sent.updates| % 2 == 1, control, payload))]
            && |Step(l, Update(now)).updates| == |l.updates| + if Granted(l.updates, Used(events), now) then 1 else 0
  {
    KeyPhaseSafety(start, events);
    CounterIsUsed(start, events);
    SendUpdates(Exec(Init(start), events), start, Used(events), pn, control, payload, now);
    RequestUpdates(Exec(Init(start), events), start, Used(events), now);
  }
}
