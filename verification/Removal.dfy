/** What the removal of the receive entry costs. The entry is dropped a grace period after an EOF
    frame arrived, although earlier bytes may still be missing; a retransmission that comes later is
    acknowledged and reaches nobody. */
module Removals {
  import opened Common
  import opened TriggerQueues
  import opened SendStreams
  import opened OrderingQueues
  import opened StreamPairs
  import opened PrefixSafety
  import opened Reliability
  import opened Continuations

  /** After the removal nothing more arrives, whatever happens. */
  lemma {:induction false} UnroutedRunKeepsHas(p: Pair, es: seq<Event>)
    requires Safe(p) && !p.routed && p.snd.eofSent
    ensures var q := Exec(p, es);
            && Safe(q) && !q.routed && q.snd.eofSent && q.snd.offset == p.snd.offset
            && (forall x :: Has(q, x) <==> Has(p, x)) && (HasEof(q) <==> HasEof(p))
    decreases |es|
  {
    if es != [] {
      var q, e := Exec(p, es[..|es| - 1]), es[|es| - 1];
      UnroutedRunKeepsHas(p, es[..|es| - 1]);
      StepKeepsSafe(q, e);
      UnroutedStepKeepsHas(q, e);
      EofEndsSending(q, e);
    }
  }

  /** After a removal the stream can be completed without a division: what is still tracked arrives,
      is acknowledged, and is not stored. */
  lemma RemovedStreamCompletes(p: Pair) returns (es: seq<Event>)
    requires Regular(p) && p.snd.eofSent && !p.routed
    ensures var q := Exec(p, es); q.snd.Completed() && q.rcv == p.rcv && q.snd.offset == p.snd.offset
    ensures Divisionless(p, es)
  {
    AmpleFits(p);
    var flush := Flush(p, Ample(p.snd));
    var mid := Flushed(p);
    RunStaysSafe(p, flush);
    var settle := Settle(mid, {});
    Join(p, flush, settle);
    es := flush + settle;
  }

  /** A removal is safe exactly when everything has arrived: if not, there is a way to complete the
      stream, without any division, that leaves the rest missing for good. */
  lemma RemovalIsSafeExactly(id: nat, window: nat, open: bool, events: seq<Event>)
    requires var p := Exec(Init(id, window, open), events); RemovalDue(p) && p.snd.eofSent
    ensures var p := Exec(Init(id, window, open), events);
            Arrived(p) <==>
            forall es :: Divisionless(Step(p, Remove), es) && Exec(Step(p, Remove), es).snd.Completed()
                         ==> Arrived(Exec(Step(p, Remove), es))
  {
    var p := Exec(Init(id, window, open), events);
    var gone := Step(p, Remove);
    RunIsRegular(id, window, open, events);
    StepKeepsRegular(p, Remove);
    assert (forall x :: Has(gone, x) <==> Has(p, x)) && (HasEof(gone) <==> HasEof(p));
    if Arrived(p) {
      forall es | Exec(gone, es).snd.Completed() ensures Arrived(Exec(gone, es)) {
        UnroutedRunKeepsHas(gone, es);
      }
    } else {
      var es := RemovedStreamCompletes(gone);
      UnroutedRunKeepsHas(gone, es);
      assert !Arrived(Exec(gone, es));
    }
  }

  // ---------------------------------------------------------------- a run

  function First(a: seq<byte>): SentRange { SentRange(0, 0, a, false) }

  function Second(a: seq<byte>, b: seq<byte>): SentRange { SentRange(1, |a|, b, true) }

  /** Two ranges leave, the second one with the EOF. */
  function SendsTwo(a: seq<byte>, b: seq<byte>, budget: int): seq<Event> {
    [AppendData([a], false), Emit(budget), AppendData([b], true), Emit(budget)]
  }

  ghost predicate TwoSent(p: Pair, id: nat, window: nat, a: seq<byte>, b: seq<byte>) {
    && p.snd == Sender(id, [], |a| + |b|, |a| + |b|, true, false, true, false,
                       [First(a), Second(a, b)], [], window, |a| + |b|, 2)
    && p.emitted == {First(a), Second(a, b)} && p.rcv == NewReceiver(window) && p.routed
  }

  ghost predicate OneSent(p: Pair, id: nat, window: nat, a: seq<byte>) {
    && p.snd == Sender(id, [], |a|, |a|, false, false, false, false, [First(a)], [], window, |a|, 1)
    && p.emitted == {First(a)} && p.rcv == NewReceiver(window) && p.routed
  }

  lemma OneIsSent(id: nat, window: nat, a: seq<byte>, budget: int)
    requires a != [] && window >= |a| && budget >= 0 && budget - HeaderSize(id, 0, budget) >= |a|
    ensures var p1 := Step(Init(id, window, false), AppendData([a], false));
            !Divides(p1.snd, budget) && OneSent(Step(p1, Emit(budget)), id, window, a)
  {
    var p0 := Init(id, window, false);
    AppendsOne(p0.snd, a, false);
    EmitsBuffer(Step(p0, AppendData([a], false)).snd, a, budget);
    assert [] + [First(a)] == [First(a)];
  }

  lemma NextIsSent(p: Pair, id: nat, window: nat, a: seq<byte>, b: seq<byte>, budget: int)
    requires OneSent(p, id, window, a) && b != [] && window >= |a| + |b|
    requires budget >= 0 && budget - HeaderSize(id, |a|, budget) >= |b|
    ensures var p3 := Step(p, AppendData([b], true));
            !Divides(p3.snd, budget) && TwoSent(Step(p3, Emit(budget)), id, window, a, b)
  {
    AppendsOne(p.snd, b, true);
    EmitsBuffer(Step(p, AppendData([b], true)).snd, b, budget);
    assert [First(a)] + [Second(a, b)] == [First(a), Second(a, b)];
  }

  lemma TwoAreSent(id: nat, window: nat, a: seq<byte>, b: seq<byte>, budget: int)
    requires a != [] && b != [] && window >= |a| + |b|
    requires budget >= 0 && budget - HeaderSize(id, 0, budget) >= |a| && budget - HeaderSize(id, |a|, budget) >= |b|
    ensures TwoSent(Exec(Init(id, window, false), SendsTwo(a, b, budget)), id, window, a, b)
    ensures Divisionless(Init(id, window, false), SendsTwo(a, b, budget))
  {
    var p0 := Init(id, window, false);
    var e1, e2, e3 := AppendData([a], false), Emit(budget), AppendData([b], true);
    var p1 := Step(p0, e1);
    var p2 := Step(p1, e2);
    var p3 := Step(p2, e3);
    OneIsSent(id, window, a, budget);
    NextIsSent(p2, id, window, a, b, budget);
    assert SendsTwo(a, b, budget) == [e1] + ([e2] + ([e3] + ([e2] + [])));
    Prepend(p3, e2, []);
    Prepend(p2, e3, [e2] + []);
    Prepend(p1, e2, [e3] + ([e2] + []));
    Prepend(p0, e1, [e2] + ([e3] + ([e2] + [])));
  }

  /** The second range arrives, the entry is removed, and then the first one arrives. */
  lemma EofOvertakes(p: Pair, id: nat, window: nat, a: seq<byte>, b: seq<byte>)
    requires a != [] && b != [] && TwoSent(p, id, window, a, b)
    ensures var q := Step(Step(Step(p, Deliver(Second(a, b))), Remove), Deliver(First(a)));
            && q.snd == p.snd && !q.routed && First(a) in q.delivered
            && q.rcv.oq == Queue([Frame(Second(a, b))], 0, false)
  {
    var eof := Step(p, Deliver(Second(a, b)));
    assert Second(a, b) in eof.delivered && Second(a, b).eof;
    assert AfterPush(Queue([], 0, false), Frame(Second(a, b))).queue == [Frame(Second(a, b))];
    var gone := Step(eof, Remove);
    assert !gone.routed && gone.emitted == p.emitted;
  }

  lemma OvertakenRun(p: Pair, id: nat, window: nat, a: seq<byte>, b: seq<byte>) returns (es: seq<Event>)
    requires a != [] && b != [] && TwoSent(p, id, window, a, b) && Regular(p)
    ensures var q := Exec(p, es);
            && q.snd.Completed() && q.snd.offset == |a| + |b| && First(a) in q.delivered
            && q.rcv.oq == Queue([Frame(Second(a, b))], 0, false)
    ensures Divisionless(p, es)
  {
    var e1, e3 := Deliver(Second(a, b)), Deliver(First(a));
    EofOvertakes(p, id, window, a, b);
    var p1, p2 := Step(p, e1), Step(Step(p, e1), Remove);
    var p3 := Step(p2, e3);
    StepKeepsRegular(p, e1);
    StepKeepsRegular(p1, Remove);
    StepKeepsRegular(p2, e3);
    var rest := RemovedStreamCompletes(p3);
    DeliveredGrows(p3, rest);
    Prepend(p2, e3, rest);
    Prepend(p1, Remove, [e3] + rest);
    Prepend(p, e1, [Remove] + ([e3] + rest));
    es := [e1] + ([Remove] + ([e3] + rest));
  }

  /** Retransmissions get lost: whatever the two halves of a stream, the first may arrive only after
      the entry is gone. It is acknowledged then and the stream is complete, and the receiver never
      has any of its bytes. Nothing was divided. */
  lemma LateRetransmissionIsLost(id: nat, window: nat, a: seq<byte>, b: seq<byte>, budget: int) returns (events: seq<Event>)
    requires a != [] && b != [] && window >= |a| + |b|
    requires budget >= 0 && budget - HeaderSize(id, 0, budget) >= |a| && budget - HeaderSize(id, |a|, budget) >= |b|
    ensures var p := Exec(Init(id, window, false), events);
            && p.snd.Completed() && p.snd.offset == |a| + |b| && First(a) in p.delivered
            && (forall x :: 0 <= x < |a| ==> !Has(p, x))
    ensures Divisionless(Init(id, window, false), events)
  {
    var p0, sent := Init(id, window, false), SendsTwo(a, b, budget);
    TwoAreSent(id, window, a, b, budget);
    RunIsRegular(id, window, false, sent);
    var rest := OvertakenRun(Exec(p0, sent), id, window, a, b);
    Join(p0, sent, rest);
    events := sent + rest;
  }

  lemma StepDelivers(p: Pair, e: Event)
    ensures p.delivered <= Step(p, e).delivered
  {
    match e
    case AppendData(_, _) =>
    case Emit(maxPayload) => assert Emitting(p, maxPayload).delivered == p.delivered;
    case Lose(_) =>
    case Deliver(_) =>
    case Acknowledge(_) =>
    case ReadUpTo(n) => assert Reading(p, n).delivered == p.delivered;
    case _ => QuietFrame(p, e);
  }

  lemma {:induction false} DeliveredGrows(p: Pair, es: seq<Event>)
    ensures p.delivered <= Exec(p, es).delivered
    decreases |es|
  {
    if es != [] {
      DeliveredGrows(p, es[..|es| - 1]);
      StepDelivers(Exec(p, es[..|es| - 1]), es[|es| - 1]);
    }
  }
}
