/** Flow control of a stream pair: bounded, and never stuck with everything read. */
module FlowControl {
  import opened Common
  import opened SendStreams
  import opened OrderingQueues
  import opened StreamPairs
  import opened PrefixSafety

  ghost predicate UpdatesOk(p: Pair) {
    && (forall w :: w in p.updatesMade ==> p.rcv.initialWindow <= w <= p.updateMax)
    && p.updateMax <= p.rcv.recvWindow
    && (forall w :: w in p.updatesOut ==> w in p.updatesMade)
    && (forall w :: w in p.updatesArrived ==> w in p.updatesMade && (p.listed ==> w <= p.snd.window))
    && p.rcv.initialWindow <= p.snd.window <= p.updateMax
    && p.rcv.initialWindow <= p.rcv.ackedWindow <= p.updateMax
    && p.snd.sentSize <= p.snd.window
  }

  /** While the sender is in its table the newest limit has arrived or is on its way; and it is not far behind the reader. */
  ghost predicate UpdatesLive(p: Pair) {
    !p.rcv.oq.eofReached && !p.updateQueued ==>
      && (p.listed ==> p.updateMax in p.updatesOut || p.updateMax <= p.snd.window)
      && (p.rcv.recvWindow == p.updateMax || p.rcv.recvWindow - p.updateMax < p.rcv.initialWindow / 2)
  }

  ghost predicate FlowOk(p: Pair) { UpdatesOk(p) && UpdatesLive(p) }

  /** A new range never exceeds the window. */
  lemma FreshFitsWindow(s: Sender, maxPayload: int)
    requires s.sentSize <= s.window
    ensures var s' := Fresh(s, maxPayload).s; s'.sentSize <= s'.window && s'.window == s.window
  {
  }

  lemma EmitKeepsFlow(p: Pair, maxPayload: int)
    requires FlowOk(p)
    ensures FlowOk(Emitting(p, maxPayload))
  {
    var s' := Trigger(p.snd, maxPayload).s;
    assert s'.sentSize <= s'.window && s'.window == p.snd.window by {
      if p.snd.retransmit != [] {
        var back := p.snd.(retransmit := p.snd.retransmit[1..]);
        FreshFitsWindow(back.(retransmit := TriggerQueues.Pushed(back.retransmit, p.snd.retransmit[0])), maxPayload);
      } else {
        FreshFitsWindow(p.snd, maxPayload);
      }
    }
  }

  lemma ReadKeepsFlow(p: Pair, n: nat)
    requires FlowOk(p)
    ensures FlowOk(Reading(p, n))
  {
  }

  lemma AcknowledgeKeepsFlow(p: Pair, w: nat)
    requires FlowOk(p) && w in p.updatesOut && w in p.updatesArrived
    ensures FlowOk(Step(p, AcknowledgeUpdate(w)))
  {
  }

  lemma LoseKeepsFlow(p: Pair, w: nat)
    requires FlowOk(p) && w in p.updatesOut
    ensures FlowOk(Step(p, LoseUpdate(w)))
  {
  }

  lemma SendKeepsFlow(p: Pair)
    requires FlowOk(p)
    ensures FlowOk(SendingUpdate(p))
  {
  }

  lemma SameFlow(p: Pair, p': Pair)
    requires FlowOk(p)
    requires p'.rcv.initialWindow == p.rcv.initialWindow && p'.rcv.recvWindow == p.rcv.recvWindow
    requires p'.rcv.ackedWindow == p.rcv.ackedWindow && p'.rcv.oq.eofReached == p.rcv.oq.eofReached
    requires p'.snd.window == p.snd.window && p'.snd.sentSize == p.snd.sentSize
    requires (p'.listed ==> p.listed) && p'.updateQueued == p.updateQueued && p'.updatesOut == p.updatesOut
    requires p'.updatesMade == p.updatesMade && p'.updatesArrived == p.updatesArrived && p'.updateMax == p.updateMax
    ensures FlowOk(p')
  {
  }

  /** The events that concern neither window. */
  predicate Elsewhere(e: Event) {
    e.AppendData? || e.Close? || e.Cancel? || e.SendCancel? || e.Remove? || e.Unlist? || e.Lose? || e.Deliver? || e.Acknowledge?
  }

  lemma ElsewhereFlowStays(p: Pair, e: Event)
    requires Elsewhere(e)
    ensures var p' := Step(p, e);
            && p'.rcv.initialWindow == p.rcv.initialWindow && p'.rcv.recvWindow == p.rcv.recvWindow
            && p'.rcv.ackedWindow == p.rcv.ackedWindow && p'.rcv.oq.eofReached == p.rcv.oq.eofReached
            && p'.snd.window == p.snd.window && p'.snd.sentSize == p.snd.sentSize
            && (p'.listed ==> p.listed) && p'.updateQueued == p.updateQueued && p'.updatesOut == p.updatesOut
            && p'.updatesMade == p.updatesMade && p'.updatesArrived == p.updatesArrived && p'.updateMax == p.updateMax
  {
  }

  lemma StepKeepsFlow(p: Pair, e: Event)
    requires FlowOk(p)
    ensures FlowOk(Step(p, e))
  {
    if Elsewhere(e) {
      ElsewhereFlowStays(p, e);
      SameFlow(p, Step(p, e));
    } else {
      WindowStepKeepsFlow(p, e);
    }
  }

  lemma WindowStepKeepsFlow(p: Pair, e: Event)
    requires FlowOk(p) && !Elsewhere(e)
    ensures FlowOk(Step(p, e))
  {
    match e
    case Emit(maxPayload) => EmitKeepsFlow(p, maxPayload);
    case ReadUpTo(n) => ReadKeepsFlow(p, n);
    case SendUpdate => if p.updateQueued { SendKeepsFlow(p); }
    case DeliverUpdate(w) =>
    case AcknowledgeUpdate(w) => if w in p.updatesOut && w in p.updatesArrived { AcknowledgeKeepsFlow(p, w); }
    case LoseUpdate(w) => if w in p.updatesOut { LoseKeepsFlow(p, w); }
    case ProbeUpdate(w) =>
  }

  lemma {:induction false} RunKeepsFlow(id: nat, window: nat, open: bool, events: seq<Event>)
    ensures var p := Exec(Init(id, window, open), events); FlowOk(p) && p.rcv.initialWindow == window
  {
    if events != [] {
      var before, e := events[..|events| - 1], events[|events| - 1];
      RunKeepsFlow(id, window, open, before);
      StepKeepsFlow(Exec(Init(id, window, open), before), e);
      InitialWindowStays(Exec(Init(id, window, open), before), e);
    }
  }

  lemma InitialWindowStays(p: Pair, e: Event)
    ensures Step(p, e).rcv.initialWindow == p.rcv.initialWindow
  {
  }

  /** Flow control is bounded: the sender is never more than one initial window ahead of the
      reader. */
  lemma SentStaysWithinWindow(id: nat, window: nat, open: bool, events: seq<Event>)
    ensures var p := Exec(Init(id, window, open), events); p.snd.offset - |p.read| <= window
  {
    RunIsSafe(id, window, open, events);
    RunKeepsFlow(id, window, open, events);
  }

  /** The sender has window left, or an update that raises its limit is queued or outstanding and
      can still reach it. */
  ghost predicate MayAdvance(p: Pair) {
    p.snd.Sendable() > 0 || (p.listed && (p.updateQueued || exists w :: w in p.updatesOut && w > p.snd.window))
  }

  /** On a live stream whose sent bytes are all read, flow control does not deadlock if and only if
      the sender is in its connection's table or needs no further limit. A queued update, when it is
      sent, then raises the limit. */
  lemma FlowNeverDeadlocks(id: nat, window: nat, open: bool, events: seq<Event>)
    requires window > 0
    requires var p := Exec(Init(id, window, open), events); !p.rcv.oq.eofReached && |p.read| == p.snd.offset
    ensures var p := Exec(Init(id, window, open), events); MayAdvance(p) <==> p.listed || p.snd.Sendable() > 0
    ensures var p := Exec(Init(id, window, open), events);
            p.updateQueued ==> SendingUpdate(p).updateMax > p.snd.window || p.snd.Sendable() > 0
  {
    RunIsSafe(id, window, open, events);
    RunKeepsFlow(id, window, open, events);
    var p := Exec(Init(id, window, open), events);
    assert p.rcv.recvWindow == window + p.snd.offset;
    assert p.listed && p.updateMax in p.updatesOut ==> p.updateMax > p.snd.window || p.snd.window == p.updateMax;
  }
}
