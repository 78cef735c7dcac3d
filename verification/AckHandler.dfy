/** The sent-packet handler: trsf/ack_handler.go. What the program keeps as callbacks of a packet
    is its `link`, the thing the callbacks act on; every call returns the packets whose OnACK and
    OnLost it ran, in order, and the sizes it reported to congestion control. */
module AckHandlers {
  import opened Common
  import opened AckWire
  import SendStreams
  import Rtts

  const MILLISECOND: int := 1_000_000
  const MAX_DECLARED_LOST: nat := 256

  datatype Link =
    | Data(half: Half, range: SendStreams.SentRange)
    | WindowUpdate(half: Half, limit: nat)
    | CancelStream(half: Half)
    | Datagram
    | Probe

  datatype Packet = Packet(
    pn: nat, size: int, sentTime: int,
    exempt: bool, evidence: bool, retransmittable: bool, isProbe: bool, link: Link)

  datatype LossStats = LossStats(events: nat, packets: nat, spurious: nat, declared: seq<nat>)

  /** bytesInFlight, mtuProbesOutstanding and exemptOutstanding. */
  datatype Counters = Counters(flight: int, probes: int, exempt: int)

  datatype Handler = Handler(
    largestSent: nat, largestAcked: nat,
    out: Counters, sent: seq<Packet>,
    lossTime: Option<int>, timer: Option<int>, ptoCount: nat,
    loss: LossStats, rtt: Rtts.Rtt)

  /** What one call did besides changing the state. */
  datatype Outcome = Outcome(
    h: Handler, acked: seq<Packet>, lost: seq<Packet>, resent: Option<Packet>,
    ackedBytes: Option<int>, lostBytes: Option<int>, failed: bool)

  function New(rtt: Rtts.Rtt): Handler {
    Handler(0, 0, Counters(0, 0, 0), [], None, None, 0, LossStats(0, 0, 0, []), rtt)
  }

  // ---------------------------------------------------------------- which packets a pass takes

  /** The scan of detectAck: it stops at the first range above the number. */
  predicate Scan(pn: nat, rs: seq<Range>) {
    rs != [] && pn >= rs[0].begin && (pn < rs[0].end || Scan(pn, rs[1..]))
  }

  /** The scan of noteSpuriousLoss, which looks at every range. */
  predicate ScanAll(pn: nat, rs: seq<Range>)
    ensures ScanAll(pn, rs) <==> Names(rs, pn)
  {
    rs != [] && (Holds(rs[0], pn) || ScanAll(pn, rs[1..]))
  }

  ghost predicate Ascending(rs: seq<Range>) {
    && (forall i :: 0 <= i < |rs| ==> rs[i].begin <= rs[i].end)
    && (forall i, j :: 0 <= i < j < |rs| ==> rs[i].end <= rs[j].begin)
  }

  /** On sorted ranges the early stop loses nothing; on any ranges it invents nothing. */
  lemma {:induction false} ScanIsMembership(pn: nat, rs: seq<Range>)
    ensures Scan(pn, rs) ==> Names(rs, pn)
    ensures Ascending(rs) ==> (Scan(pn, rs) <==> Names(rs, pn))
  {
    if rs != [] {
      ScanIsMembership(pn, rs[1..]);
      assert forall i :: 1 <= i < |rs| ==> rs[i] == rs[1..][i - 1];
      assert Names(rs[1..], pn) ==> Names(rs, pn) by {
        if Names(rs[1..], pn) {
          var i :| 0 <= i < |rs[1..]| && Holds(rs[1..][i], pn);
          assert rs[i + 1] == rs[1..][i];
        }
      }
    }
  }

  /** The three ways in which a packet leaves: named by an ACK, sent too long ago below the
      largest acknowledged number, or given up because nothing re-sends it. */
  datatype Sieve =
    | Named(rs: seq<Range>)
    | Late(largestAcked: nat, sentBy: int)
    | Hopeless

  predicate Hit(v: Sieve, p: Packet) {
    match v
    case Named(rs) => Scan(p.pn, rs)
    case Late(largest, sentBy) => p.pn <= largest && p.sentTime <= sentBy
    case Hopeless => !p.retransmittable
  }

  function Taken(v: Sieve, ps: seq<Packet>): seq<Packet> {
    if ps == [] then []
    else Taken(v, ps[..|ps| - 1]) + (if Hit(v, ps[|ps| - 1]) then [ps[|ps| - 1]] else [])
  }

  function Kept(v: Sieve, ps: seq<Packet>): seq<Packet> {
    if ps == [] then []
    else Kept(v, ps[..|ps| - 1]) + (if Hit(v, ps[|ps| - 1]) then [] else [ps[|ps| - 1]])
  }

  // ---------------------------------------------------------------- what the counters count

  /** What a packet can add to a counter. */
  datatype Measure = Flight | Exempt | Probes | Controlled | Evidence

  function Weight(m: Measure, p: Packet): int {
    match m
    case Flight => if p.exempt then 0 else p.size
    case Exempt => if p.exempt then 1 else 0
    case Probes => if p.isProbe then 1 else 0
    case Controlled => if p.exempt then 0 else 1
    case Evidence => if p.evidence then 1 else 0
  }

  function Total(m: Measure, ps: seq<Packet>): (n: int)
    ensures m != Flight ==> n >= 0
  {
    if ps == [] then 0 else Total(m, ps[..|ps| - 1]) + Weight(m, ps[|ps| - 1])
  }

  lemma TotalSnoc(m: Measure, ps: seq<Packet>, p: Packet)
    ensures Total(m, ps + [p]) == Total(m, ps) + Weight(m, p)
  {
  }

  /** Every pass divides the packets: nothing is dropped and nothing is counted twice. */
  lemma {:induction false} PassDivides(v: Sieve, ps: seq<Packet>, m: Measure)
    ensures Total(m, ps) == Total(m, Taken(v, ps)) + Total(m, Kept(v, ps))
  {
    if ps != [] {
      var front, last := ps[..|ps| - 1], ps[|ps| - 1];
      PassDivides(v, front, m);
      if Hit(v, last) {
        TotalSnoc(m, Taken(v, front), last);
        assert Kept(v, ps) == Kept(v, front);
      } else {
        TotalSnoc(m, Kept(v, front), last);
        assert Taken(v, ps) == Taken(v, front);
      }
    }
  }

  lemma PassNext(v: Sieve, ps: seq<Packet>, i: nat)
    requires i < |ps|
    ensures Taken(v, ps[..i + 1]) == Taken(v, ps[..i]) + (if Hit(v, ps[i]) then [ps[i]] else [])
    ensures Kept(v, ps[..i + 1]) == Kept(v, ps[..i]) + (if Hit(v, ps[i]) then [] else [ps[i]])
  {
    assert ps[..i + 1][..i] == ps[..i];
  }

  lemma {:induction false} PassSizes(v: Sieve, ps: seq<Packet>)
    ensures |ps| == |Taken(v, ps)| + |Kept(v, ps)|
  {
    if ps != [] {
      PassSizes(v, ps[..|ps| - 1]);
    }
  }

  lemma {:induction false} PassMembers(v: Sieve, ps: seq<Packet>)
    ensures forall p :: p in Taken(v, ps) <==> p in ps && Hit(v, p)
    ensures forall p :: p in Kept(v, ps) <==> p in ps && !Hit(v, p)
  {
    if ps != [] {
      assert ps == ps[..|ps| - 1] + [ps[|ps| - 1]];
      PassMembers(v, ps[..|ps| - 1]);
    }
  }

  lemma {:induction false} PassKeepsAll(v: Sieve, ps: seq<Packet>)
    ensures multiset(ps) == multiset(Taken(v, ps)) + multiset(Kept(v, ps))
  {
    if ps != [] {
      assert ps == ps[..|ps| - 1] + [ps[|ps| - 1]];
      PassKeepsAll(v, ps[..|ps| - 1]);
    }
  }

  // ---------------------------------------------------------------- timers and loss statistics

  function LossDelay(rtt: Rtts.Rtt): int {
    Max(Rtts.Quotient(9 * Max(rtt.latestRTT, rtt.srtt), 8), MILLISECOND)
  }

  function SetTimer(h: Handler, now: int): Handler {
    if h.lossTime.Some? then h.(timer := h.lossTime)
    else if h.out.flight == 0 && h.out.probes == 0 && h.out.exempt == 0 then h.(timer := None)
    else h.(timer := Some(now + Rtts.Pto(h.rtt, h.ptoCount)))
  }

  /** All but the first, each moved down by one. */
  function Shifted(declared: seq<nat>): seq<nat>
    requires declared != []
  {
    seq(|declared| - 1, i requires 0 <= i < |declared| - 1 => declared[i + 1])
  }

  /** The last 256 numbers. */
  function Remember(declared: seq<nat>, pn: nat): seq<nat> {
    (if |declared| >= MAX_DECLARED_LOST then Shifted(declared) else declared) + [pn]
  }

  function RememberAll(declared: seq<nat>, ps: seq<Packet>): seq<nat> {
    if ps == [] then declared
    else
      var before := RememberAll(declared, ps[..|ps| - 1]);
      if ps[|ps| - 1].evidence then Remember(before, ps[|ps| - 1].pn) else before
  }

  /** The declared losses that an ACK does not contradict. */
  function Unrefuted(declared: seq<nat>, rs: seq<Range>): (r: seq<nat>)
    ensures |r| <= |declared|
  {
    if declared == [] then []
    else
      Unrefuted(declared[..|declared| - 1], rs)
      + (if ScanAll(declared[|declared| - 1], rs) then [] else [declared[|declared| - 1]])
  }

  function NoteSpurious(l: LossStats, rs: seq<Range>): LossStats {
    var rest := Unrefuted(l.declared, rs);
    l.(spurious := l.spurious + |l.declared| - |rest|, declared := rest)
  }

  /** The statistics after the packets ps were given up. */
  function Blamed(l: LossStats, ps: seq<Packet>): LossStats {
    l.(events := if Total(Controlled, ps) > 0 then l.events + 1 else l.events,
       packets := l.packets + Total(Evidence, ps),
       declared := RememberAll(l.declared, ps))
  }

  // ---------------------------------------------------------------- the calls

  /** The counters and the list after a pass. */
  function Less(c: Counters, ps: seq<Packet>): Counters {
    Counters(c.flight - Total(Flight, ps), c.probes - Total(Probes, ps), c.exempt - Total(Exempt, ps))
  }

  function More(c: Counters, p: Packet): Counters {
    Counters(c.flight + Weight(Flight, p), c.probes + Weight(Probes, p), c.exempt + Weight(Exempt, p))
  }

  function Swept(h: Handler, v: Sieve): Handler {
    h.(sent := Kept(v, h.sent), out := Less(h.out, Taken(v, h.sent)))
  }

  function OnSent(h: Handler, p: Packet): Handler {
    SetTimer(h.(sent := h.sent + [p],
                out := More(h.out, p),
                largestSent := if p.pn > h.largestSent then p.pn else h.largestSent),
             p.sentTime)
  }

  function LateSieve(h: Handler, now: int): Sieve { Late(h.largestAcked, now - LossDelay(h.rtt)) }

  /** When the first packet still below the largest acknowledged number becomes late. */
  function NextLoss(ps: seq<Packet>, v: Sieve, delay: int): Option<int>
    requires v.Late?
  {
    if ps == [] then None
    else
      match NextLoss(ps[..|ps| - 1], v, delay)
      case Some(t) => Some(t)
      case None =>
        var p := ps[|ps| - 1];
        if p.pn <= v.largestAcked && !Hit(v, p) then Some(p.sentTime + delay) else None
  }

  lemma NextLossNext(v: Sieve, ps: seq<Packet>, i: nat, delay: int)
    requires v.Late? && i < |ps|
    ensures NextLoss(ps[..i + 1], v, delay)
            == match NextLoss(ps[..i], v, delay)
               case Some(t) => Some(t)
               case None => if ps[i].pn <= v.largestAcked && !Hit(v, ps[i]) then Some(ps[i].sentTime + delay) else None
  {
    assert ps[..i + 1][..i] == ps[..i];
  }

  /** The loss pass for a given delay. */
  function DetectLate(h: Handler, now: int, delay: int): Handler {
    var v := Late(h.largestAcked, now - delay);
    Swept(h, v).(lossTime := NextLoss(h.sent, v, delay), loss := Blamed(h.loss, Taken(v, h.sent)))
  }

  function DetectLost(h: Handler, now: int): Handler { DetectLate(h, now, LossDelay(h.rtt)) }

  /** What a pass over lost packets reports to congestion control. */
  function LostBytes(ps: seq<Packet>): Option<int> {
    if Total(Controlled, ps) > 0 then Some(Total(Flight, ps)) else None
  }

  function Measured(rtt: Rtts.Rtt, acked: seq<Packet>, largest: nat, now: int, delay: int): Rtts.Rtt
    requires acked != []
  {
    var last := acked[|acked| - 1];
    if last.pn == largest then Rtts.Updated(rtt, now - last.sentTime, delay, now) else rtt
  }

  /** The state of ReceiveACK before its loss pass. */
  function AckPass(h: Handler, now: int, rs: seq<Range>, delay: int): Handler
    requires rs != [] && Taken(Named(rs), h.sent) != []
  {
    AckedPass(h.(loss := NoteSpurious(h.loss, rs)), now, rs, delay)
  }

  function AckedPass(h: Handler, now: int, rs: seq<Range>, delay: int): Handler
    requires rs != [] && Taken(Named(rs), h.sent) != []
  {
    var largest := Sub64(rs[|rs| - 1].end, 1);
    Swept(h, Named(rs)).(rtt := Measured(h.rtt, Taken(Named(rs), h.sent), largest, now, delay),
                         largestAcked := if largest > h.largestAcked then largest else h.largestAcked)
  }

  function ReceiveACK(h: Handler, now: int, rs: seq<Range>, delay: int): Outcome
    requires rs != []
  {
    if Sub64(rs[|rs| - 1].end, 1) > h.largestSent then Outcome(h, [], [], None, None, None, true)
    else if Taken(Named(rs), h.sent) == [] then
      Outcome(h.(loss := NoteSpurious(h.loss, rs)), [], [], None, None, None, false)
    else LossPass(AckPass(h, now, rs, delay), now, Taken(Named(rs), h.sent))
  }

  /** The end of ReceiveACK, after the packets in acked have left. */
  function LossPass(a: Handler, now: int, acked: seq<Packet>): Outcome {
    var lost := Taken(LateSieve(a, now), a.sent);
    Outcome(SetTimer(DetectLost(a, now).(ptoCount := 0), now), acked, lost, None,
            Some(Total(Flight, acked)), LostBytes(lost), false)
  }

  function FirstRetransmittable(ps: seq<Packet>): (r: Option<Packet>)
    ensures r.Some? ==> r.value in ps && r.value.retransmittable
    ensures r.None? ==> forall p :: p in ps ==> !p.retransmittable
  {
    if ps == [] then None
    else
      assert ps == ps[..|ps| - 1] + [ps[|ps| - 1]];
      match FirstRetransmittable(ps[..|ps| - 1])
      case Some(p) => Some(p)
      case None => if ps[|ps| - 1].retransmittable then Some(ps[|ps| - 1]) else None
  }

  /** Every packet that nothing re-sends is given up. */
  function GiveUp(h: Handler): Handler {
    Swept(h, Hopeless).(loss := Blamed(h.loss, Taken(Hopeless, h.sent)))
  }

  function OnProbeTimeout(h: Handler, now: int): Outcome {
    var lost := Taken(Hopeless, h.sent);
    var g := GiveUp(h);
    if g.out.flight == 0 then Outcome(SetTimer(g, now), [], lost, None, None, LostBytes(lost), lost == [])
    else if g.sent == [] then Outcome(SetTimer(g, now), [], lost, None, None, LostBytes(lost), false)
    else
      Outcome(SetTimer(g.(ptoCount := g.ptoCount + 1), now), [], lost, FirstRetransmittable(g.sent), None, LostBytes(lost), false)
  }

  function OnTimeout(h: Handler, now: int): Outcome {
    if h.lossTime.Some? then
      var lost := Taken(LateSieve(h, now), h.sent);
      Outcome(SetTimer(DetectLost(h, now), now), [], lost, None, None, LostBytes(lost), false)
    else OnProbeTimeout(h, now)
  }

  // ---------------------------------------------------------------- the object

  class SentPacketHandler {
    var largestSent: nat
    var largestAcked: nat
    var bytesInFlight: int
    var mtuProbesOutstanding: int
    var exemptOutstanding: int
    var sentRanges: seq<Packet>
    var lossTime: Option<int>
    var multiModalTimer: Option<int>
    var ptoCount: nat
    var events: nat
    var packets: nat
    var spurious: nat
    var declaredLost: seq<nat>
    const rtt: Rtts.RTTStats

    ghost function Out(): Counters
      reads this
    {
      Counters(bytesInFlight, mtuProbesOutstanding, exemptOutstanding)
    }

    ghost function Loss(): LossStats
      reads this
    {
      LossStats(events, packets, spurious, declaredLost)
    }

    ghost function View(): Handler
      reads this, rtt
    {
      Handler(largestSent, largestAcked, Out(), sentRanges, lossTime, multiModalTimer, ptoCount, Loss(), rtt.View())
    }

    constructor (rtt: Rtts.RTTStats)
      ensures View() == New(rtt.View()) && this.rtt == rtt
    {
      largestSent, largestAcked, bytesInFlight, mtuProbesOutstanding, exemptOutstanding := 0, 0, 0, 0, 0;
      sentRanges, lossTime, multiModalTimer, ptoCount := [], None, None, 0;
      events, packets, spurious, declaredLost := 0, 0, 0, [];
      this.rtt := rtt;
    }

    method SetLossDetectionTimer(now: int)
      modifies this`multiModalTimer
      ensures View() == SetTimer(old(View()), now)
    {
      if lossTime.Some? {
        multiModalTimer := lossTime;
        return;
      }
      if bytesInFlight == 0 && mtuProbesOutstanding == 0 && exemptOutstanding == 0 {
        multiModalTimer := None;
        return;
      }
      var pto := rtt.PTO(ptoCount);
      multiModalTimer := Some(now + pto);
    }

    method RecordSent(p: Packet)
      modifies this
      ensures View() == OnSent(old(View()), p)
    {
      sentRanges := sentRanges + [p];
      if !p.exempt {
        bytesInFlight := bytesInFlight + p.size;
      } else {
        exemptOutstanding := exemptOutstanding + 1;
      }
      if p.isProbe {
        mtuProbesOutstanding := mtuProbesOutstanding + 1;
      }
      assert Out() == More(old(Out()), p);
      if p.pn > largestSent {
        largestSent := p.pn;
      }
      SetLossDetectionTimer(p.sentTime);
    }

    method NoteSpuriousLoss(rs: seq<Range>)
      modifies this`spurious, this`declaredLost
      ensures Loss() == NoteSpurious(old(Loss()), rs)
    {
      var remain: seq<nat> := [];
      var i := 0;
      while i < |declaredLost|
        invariant 0 <= i <= |declaredLost| && declaredLost == old(declaredLost)
        invariant remain == Unrefuted(declaredLost[..i], rs)
        invariant spurious == old(spurious) + i - |remain|
      {
        assert declaredLost[..i + 1][..i] == declaredLost[..i];
        var covered := IsCovered(declaredLost[i], rs);
        if covered {
          spurious := spurious + 1;
        } else {
          remain := remain + [declaredLost[i]];
        }
        i := i + 1;
      }
      assert declaredLost[..i] == declaredLost;
      declaredLost := remain;
    }

    /** The first loop of detectAck. */
    method SweepNamed(rs: seq<Range>) returns (acked: seq<Packet>, remain: seq<Packet>)
      ensures acked == Taken(Named(rs), sentRanges) && remain == Kept(Named(rs), sentRanges)
    {
      acked, remain := [], [];
      ghost var v := Named(rs);
      var i := 0;
      while i < |sentRanges|
        invariant 0 <= i <= |sentRanges|
        invariant acked == Taken(v, sentRanges[..i]) && remain == Kept(v, sentRanges[..i])
      {
        PassNext(v, sentRanges, i);
        var named := IsNamed(sentRanges[i].pn, rs);
        if named {
          acked := acked + [sentRanges[i]];
        } else {
          remain := remain + [sentRanges[i]];
        }
        i := i + 1;
      }
      assert sentRanges[..i] == sentRanges;
    }

    method DetectAck(rs: seq<Range>) returns (acked: seq<Packet>, ackedBytes: Option<int>, failed: bool)
      modifies this`sentRanges, this`bytesInFlight, this`exemptOutstanding, this`mtuProbesOutstanding
      ensures acked == Taken(Named(rs), old(sentRanges)) && !failed
      ensures sentRanges == Kept(Named(rs), old(sentRanges)) && Out() == Less(old(Out()), acked)
      ensures ackedBytes == if acked == [] then None else Some(Total(Flight, acked))
    {
      var remain: seq<Packet>;
      acked, remain := SweepNamed(rs);
      ackedBytes, failed := None, false;
      PassSizes(Named(rs), sentRanges);
      if |remain| + |acked| != |sentRanges| {
        failed := true;
        return;
      }
      sentRanges := remain;
      var size := Uncount(acked);
      if |acked| > 0 {
        bytesInFlight := bytesInFlight - size;
        ackedBytes := Some(size);
      }
    }

    /** The second loop of detectAck, over the packets that left. */
    method Uncount(acked: seq<Packet>) returns (size: int)
      modifies this`exemptOutstanding, this`mtuProbesOutstanding
      ensures Counters(old(bytesInFlight) - size, mtuProbesOutstanding, exemptOutstanding) == Less(old(Out()), acked)
    {
      var sentSize, exemptSize := 0, 0;
      var i := 0;
      while i < |acked|
        invariant 0 <= i <= |acked|
        invariant Counters(old(bytesInFlight) - (sentSize - exemptSize), mtuProbesOutstanding, exemptOutstanding)
                  == Less(old(Out()), acked[..i])
      {
        assert acked[..i + 1][..i] == acked[..i];
        sentSize := sentSize + acked[i].size;
        if acked[i].exempt {
          exemptSize := exemptSize + acked[i].size;
          exemptOutstanding := exemptOutstanding - 1;
        }
        if acked[i].isProbe {
          mtuProbesOutstanding := mtuProbesOutstanding - 1;
        }
        i := i + 1;
      }
      assert acked[..i] == acked;
      size := sentSize - exemptSize;
    }

    /** What both loss passes do to the counters for one packet that they retire. */
    method Retire(p: Packet)
      modifies this`exemptOutstanding, this`mtuProbesOutstanding
      ensures exemptOutstanding == old(exemptOutstanding) - Weight(Exempt, p)
      ensures mtuProbesOutstanding == old(mtuProbesOutstanding) - Weight(Probes, p)
    {
      if p.exempt {
        exemptOutstanding := exemptOutstanding - 1;
      }
      if p.isProbe {
        mtuProbesOutstanding := mtuProbesOutstanding - 1;
      }
    }

    /** What both loss passes remember of the packets that they retire. */
    method RememberLost(lost: seq<Packet>)
      modifies this`declaredLost
      ensures declaredLost == RememberAll(old(declaredLost), lost)
    {
      var i := 0;
      while i < |lost|
        invariant 0 <= i <= |lost| && declaredLost == RememberAll(old(declaredLost), lost[..i])
      {
        assert lost[..i + 1][..i] == lost[..i];
        if lost[i].evidence {
          declaredLost := Remember(declaredLost, lost[i].pn);
        }
        i := i + 1;
      }
      assert lost[..i] == lost;
    }

    /** The loop of detectLost, which also finds the next loss time. */
    method SweepLate(sentBy: int, delay: int) returns (lost: seq<Packet>, remain: seq<Packet>, size: int, count: nat, evidence: nat)
      modifies this`exemptOutstanding, this`mtuProbesOutstanding, this`lossTime
      ensures var v := Late(largestAcked, sentBy);
              && lost == Taken(v, sentRanges) && remain == Kept(v, sentRanges)
              && lossTime == NextLoss(sentRanges, v, delay)
      ensures size == Total(Flight, lost) && count == Total(Controlled, lost) && evidence == Total(Evidence, lost)
      ensures exemptOutstanding == old(exemptOutstanding) - Total(Exempt, lost)
      ensures mtuProbesOutstanding == old(mtuProbesOutstanding) - Total(Probes, lost)
    {
      ghost var v := Late(largestAcked, sentBy);
      var ps := sentRanges;
      lossTime := None;
      lost, remain, size, count, evidence := [], [], 0, 0, 0;
      var i := 0;
      while i < |ps|
        invariant 0 <= i <= |ps|
        invariant lost == Taken(v, ps[..i]) && remain == Kept(v, ps[..i])
        invariant lossTime == NextLoss(ps[..i], v, delay)
        invariant size == Total(Flight, lost) && count == Total(Controlled, lost) && evidence == Total(Evidence, lost)
        invariant exemptOutstanding == old(exemptOutstanding) - Total(Exempt, lost)
        invariant mtuProbesOutstanding == old(mtuProbesOutstanding) - Total(Probes, lost)
      {
        var p := ps[i];
        PassNext(v, ps, i);
        NextLossNext(v, ps, i, delay);
        if p.pn > largestAcked {
          remain := remain + [p];
        } else if p.sentTime <= sentBy {
          Grow(lost, p);
          lost := lost + [p];
          size, count := size + Weight(Flight, p), count + Weight(Controlled, p);
          evidence := evidence + Weight(Evidence, p);
          Retire(p);
        } else {
          if lossTime == None {
            lossTime := Some(p.sentTime + delay);
          }
          remain := remain + [p];
        }
        i := i + 1;
      }
      assert ps[..i] == ps;
    }

    /** The loop of declareLostUnretransmittable. */
    method SweepHopeless() returns (lost: seq<Packet>, remain: seq<Packet>, size: int, count: nat, evidence: nat)
      modifies this`exemptOutstanding, this`mtuProbesOutstanding
      ensures lost == Taken(Hopeless, sentRanges) && remain == Kept(Hopeless, sentRanges)
      ensures size == Total(Flight, lost) && count == Total(Controlled, lost) && evidence == Total(Evidence, lost)
      ensures exemptOutstanding == old(exemptOutstanding) - Total(Exempt, lost)
      ensures mtuProbesOutstanding == old(mtuProbesOutstanding) - Total(Probes, lost)
    {
      var ps := sentRanges;
      lost, remain, size, count, evidence := [], [], 0, 0, 0;
      var i := 0;
      while i < |ps|
        invariant 0 <= i <= |ps|
        invariant lost == Taken(Hopeless, ps[..i]) && remain == Kept(Hopeless, ps[..i])
        invariant size == Total(Flight, lost) && count == Total(Controlled, lost) && evidence == Total(Evidence, lost)
        invariant exemptOutstanding == old(exemptOutstanding) - Total(Exempt, lost)
        invariant mtuProbesOutstanding == old(mtuProbesOutstanding) - Total(Probes, lost)
      {
        var p := ps[i];
        PassNext(Hopeless, ps, i);
        if p.retransmittable {
          remain := remain + [p];
        } else {
          Grow(lost, p);
          lost := lost + [p];
          size, count := size + Weight(Flight, p), count + Weight(Controlled, p);
          evidence := evidence + Weight(Evidence, p);
          Retire(p);
        }
        i := i + 1;
      }
      assert ps[..i] == ps;
    }

    method DetectLostPackets(now: int, delay: int) returns (lost: seq<Packet>, lostBytes: Option<int>)
      modifies this`sentRanges, this`bytesInFlight, this`exemptOutstanding, this`mtuProbesOutstanding
      modifies this`declaredLost, this`events, this`packets, this`lossTime
      ensures var v := Late(largestAcked, now - delay);
              && lost == Taken(v, old(sentRanges)) && sentRanges == Kept(v, old(sentRanges))
              && lossTime == NextLoss(old(sentRanges), v, delay)
      ensures Out() == Less(old(Out()), lost) && Loss() == Blamed(old(Loss()), lost) && lostBytes == LostBytes(lost)
    {
      var remain: seq<Packet>, size: int, count: nat, evidence: nat;
      lost, remain, size, count, evidence := SweepLate(now - delay, delay);
      RememberLost(lost);
      sentRanges := remain;
      lostBytes := None;
      NothingControlled(lost);
      if |lost| > 0 {
        bytesInFlight := bytesInFlight - size;
        packets := packets + evidence;
        if count > 0 {
          events := events + 1;
          lostBytes := Some(size);
        }
      }
    }

    method DeclareLostUnretransmittable() returns (lost: seq<Packet>, lostBytes: Option<int>)
      modifies this`sentRanges, this`bytesInFlight, this`exemptOutstanding, this`mtuProbesOutstanding
      modifies this`declaredLost, this`events, this`packets
      ensures lost == Taken(Hopeless, old(sentRanges)) && sentRanges == Kept(Hopeless, old(sentRanges))
      ensures Out() == Less(old(Out()), lost) && Loss() == Blamed(old(Loss()), lost) && lostBytes == LostBytes(lost)
    {
      var remain: seq<Packet>, size: int, count: nat, evidence: nat;
      lost, remain, size, count, evidence := SweepHopeless();
      RememberLost(lost);
      sentRanges := remain;
      lostBytes := None;
      NothingControlled(lost);
      if count > 0 {
        bytesInFlight := bytesInFlight - size;
        events := events + 1;
        lostBytes := Some(size);
      }
      packets := packets + evidence;
    }

    method CurrentLossDelay() returns (d: int)
      ensures d == LossDelay(rtt.View())
    {
      d := Max(Rtts.Quotient(9 * Max(rtt.latestRTT, rtt.srtt), 8), MILLISECOND);
    }

    method Timeout(now: int) returns (lost: seq<Packet>, resent: Option<Packet>, lostBytes: Option<int>, failed: bool)
      modifies this
      ensures Outcome(View(), [], lost, resent, None, lostBytes, failed) == OnTimeout(old(View()), now)
    {
      if lossTime.Some? {
        lost, lostBytes := LossTimeout(now);
        resent, failed := None, false;
      } else {
        lost, resent, lostBytes, failed := ProbeTimeout(now);
      }
    }

    method LossTimeout(now: int) returns (lost: seq<Packet>, lostBytes: Option<int>)
      modifies this
      ensures View() == SetTimer(DetectLost(old(View()), now), now)
      ensures lost == Taken(LateSieve(old(View()), now), old(sentRanges)) && lostBytes == LostBytes(lost)
    {
      var delay := CurrentLossDelay();
      lost, lostBytes := DetectLostPackets(now, delay);
      assert View() == DetectLate(old(View()), now, delay);
      SetLossDetectionTimer(now);
    }

    method ProbeTimeout(now: int) returns (lost: seq<Packet>, resent: Option<Packet>, lostBytes: Option<int>, failed: bool)
      modifies this
      ensures Outcome(View(), [], lost, resent, None, lostBytes, failed) == OnProbeTimeout(old(View()), now)
    {
      resent, failed := None, false;
      lost, lostBytes := DeclareLostUnretransmittable();
      assert View() == GiveUp(old(View()));
      if bytesInFlight == 0 {
        failed := |lost| == 0;
      } else if |sentRanges| > 0 {
        ptoCount := ptoCount + 1;
        resent := FirstRetransmittable(sentRanges);
      }
      SetLossDetectionTimer(now);
    }

    method Receive(now: int, rs: seq<Range>, delay: int)
      returns (acked: seq<Packet>, lost: seq<Packet>, ackedBytes: Option<int>, lostBytes: Option<int>, failed: bool)
      requires rs != []
      modifies this, rtt
      ensures Outcome(View(), acked, lost, None, ackedBytes, lostBytes, failed) == ReceiveACK(old(View()), now, rs, delay)
    {
      acked, lost, ackedBytes, lostBytes := [], [], None, None;
      var largest := Sub64(rs[|rs| - 1].end, 1);
      if largest > largestSent {
        failed := true;
        return;
      }
      NoteSpuriousLoss(rs);
      acked, ackedBytes, failed := TakeNamed(now, rs, delay);
      if |acked| > 0 {
        lost, lostBytes := LoseAfterAck(now, acked);
      }
    }

    /** The middle of ReceiveACK, after the spurious losses were noted. */
    method TakeNamed(now: int, rs: seq<Range>, delay: int)
      returns (acked: seq<Packet>, ackedBytes: Option<int>, failed: bool)
      requires rs != []
      modifies this, rtt
      ensures acked == Taken(Named(rs), old(sentRanges)) && !failed
      ensures ackedBytes == if acked == [] then None else Some(Total(Flight, acked))
      ensures View() == if acked == [] then old(View()) else AckedPass(old(View()), now, rs, delay)
    {
      acked, ackedBytes, failed := DetectAck(rs);
      if |acked| == 0 {
        NothingTaken(Named(rs), old(sentRanges));
        return;
      }
      Credit(acked, Sub64(rs[|rs| - 1].end, 1), now, delay);
    }

    /** The round-trip sample and the largest acknowledged number. */
    method Credit(acked: seq<Packet>, largest: nat, now: int, delay: int)
      requires acked != []
      modifies this`largestAcked, rtt
      ensures rtt.View() == Measured(old(rtt.View()), acked, largest, now, delay)
      ensures largestAcked == if largest > old(largestAcked) then largest else old(largestAcked)
    {
      var last := acked[|acked| - 1];
      if last.pn == largest {
        rtt.UpdateRTT(now - last.sentTime, delay, now);
      }
      if largest > largestAcked {
        largestAcked := largest;
      }
    }

    /** The end of ReceiveACK. */
    method LoseAfterAck(now: int, ghost acked: seq<Packet>) returns (lost: seq<Packet>, lostBytes: Option<int>)
      modifies this
      ensures Outcome(View(), acked, lost, None, Some(Total(Flight, acked)), lostBytes, false)
              == LossPass(old(View()), now, acked)
    {
      var d := CurrentLossDelay();
      lost, lostBytes := DetectLostPackets(now, d);
      ptoCount := 0;
      assert View() == DetectLate(old(View()), now, d).(ptoCount := 0);
      SetLossDetectionTimer(now);
    }
  }

  /** The two inner scans. */
  method IsNamed(pn: nat, rs: seq<Range>) returns (named: bool)
    ensures named == Scan(pn, rs)
  {
    var i := 0;
    while i < |rs|
      invariant 0 <= i <= |rs| && Scan(pn, rs) == Scan(pn, rs[i..])
    {
      if pn < rs[i].begin {
        return false;
      }
      if pn < rs[i].end {
        return true;
      }
      assert rs[i..][1..] == rs[i + 1..];
      i := i + 1;
    }
    named := false;
  }

  method IsCovered(pn: nat, rs: seq<Range>) returns (covered: bool)
    ensures covered == ScanAll(pn, rs)
  {
    var i := 0;
    while i < |rs|
      invariant 0 <= i <= |rs| && forall k :: 0 <= k < i ==> !Holds(rs[k], pn)
    {
      if rs[i].begin <= pn < rs[i].end {
        return true;
      }
      i := i + 1;
    }
    covered := false;
  }

  lemma Grow(ps: seq<Packet>, p: Packet)
    ensures Total(Flight, ps + [p]) == Total(Flight, ps) + Weight(Flight, p)
    ensures Total(Exempt, ps + [p]) == Total(Exempt, ps) + Weight(Exempt, p)
    ensures Total(Probes, ps + [p]) == Total(Probes, ps) + Weight(Probes, p)
    ensures Total(Controlled, ps + [p]) == Total(Controlled, ps) + Weight(Controlled, p)
    ensures Total(Evidence, ps + [p]) == Total(Evidence, ps) + Weight(Evidence, p)
  {
  }

  lemma {:induction false} NothingControlled(ps: seq<Packet>)
    ensures Total(Controlled, ps) == 0 ==> Total(Flight, ps) == 0
  {
    if ps != [] {
      NothingControlled(ps[..|ps| - 1]);
    }
  }

  lemma {:induction false} NothingTaken(v: Sieve, ps: seq<Packet>)
    ensures Taken(v, ps) == [] ==> Kept(v, ps) == ps
  {
    if ps != [] {
      NothingTaken(v, ps[..|ps| - 1]);
    }
  }
}
