/** A bidirectional stream with both of its directions, at the connection whose peer opened it: the
    request comes in and the answer goes out. When a request packet arrives after the request's
    receive entry was removed, getRecvStream of trsf/conn.go makes the stream anew, and the new send
    half takes the place of the one on which the application writes its answer. */
module Duplexes {
  import opened Common
  import opened TriggerQueues
  import opened SendStreams
  import opened OrderingQueues
  import opened PrefixSafety
  import opened FlowControl
  import opened Progresses
  import Continuations
  import P = StreamPairs

  datatype Duplex = Duplex(request: P.Pair, answer: P.Pair)

  datatype Event = Request(step: P.Event) | Answer(step: P.Event)

  function Init(id: nat, window: nat, open: bool): Duplex {
    Duplex(P.Init(id, window, open), P.Init(id, window, false))
  }

  /** A request packet arrives and finds no receive entry. */
  predicate Late(d: Duplex, e: Event) {
    e.Request? && e.step.Deliver? && e.step.x in d.request.emitted && !d.request.routed
  }

  /** A direction leaves its table on its own when it is complete. */
  predicate Allowed(p: P.Pair, e: P.Event) { e.Unlist? ==> p.snd.Completed() }

  function Step(d: Duplex, e: Event): Duplex {
    match e
    case Request(step) =>
      if Allowed(d.request, step) then
        Duplex(P.Step(d.request, step), if Late(d, e) then P.Step(d.answer, P.Unlist) else d.answer)
      else d
    case Answer(step) => if Allowed(d.answer, step) then d.(answer := P.Step(d.answer, step)) else d
  }

  function Exec(d: Duplex, events: seq<Event>): Duplex {
    if events == [] then d else Step(Exec(d, events[..|events| - 1]), events[|events| - 1])
  }

  // ---------------------------------------------------------------- each direction is a pair

  function RequestSteps(d: Duplex, e: Event): seq<P.Event> {
    if e.Request? && Allowed(d.request, e.step) then [e.step] else []
  }

  function AnswerSteps(d: Duplex, e: Event): seq<P.Event> {
    if Late(d, e) then [P.Unlist] else if e.Answer? && Allowed(d.answer, e.step) then [e.step] else []
  }

  function RequestRun(d: Duplex, events: seq<Event>): seq<P.Event> {
    if events == [] then []
    else RequestRun(d, events[..|events| - 1]) + RequestSteps(Exec(d, events[..|events| - 1]), events[|events| - 1])
  }

  function AnswerRun(d: Duplex, events: seq<Event>): seq<P.Event> {
    if events == [] then []
    else AnswerRun(d, events[..|events| - 1]) + AnswerSteps(Exec(d, events[..|events| - 1]), events[|events| - 1])
  }

  lemma StepsOf(d: Duplex, e: Event)
    ensures Step(d, e).request == P.Exec(d.request, RequestSteps(d, e))
    ensures Step(d, e).answer == P.Exec(d.answer, AnswerSteps(d, e))
  {
    if e.Request? {
      Continuations.ExecOne(d.request, e.step);
    } else {
      Continuations.ExecOne(d.answer, e.step);
    }
    Continuations.ExecOne(d.answer, P.Unlist);
  }

  /** Both directions run stream pairs, so that every theorem about those applies to each of them. */
  lemma {:induction false} DirectionsArePairs(d: Duplex, events: seq<Event>)
    ensures Exec(d, events).request == P.Exec(d.request, RequestRun(d, events))
    ensures Exec(d, events).answer == P.Exec(d.answer, AnswerRun(d, events))
    decreases |events|
  {
    if events != [] {
      var before, e := events[..|events| - 1], events[|events| - 1];
      DirectionsArePairs(d, before);
      StepsOf(Exec(d, before), e);
      Continuations.ExecConcat(d.request, RequestRun(d, before), RequestSteps(Exec(d, before), e));
      Continuations.ExecConcat(d.answer, AnswerRun(d, before), AnswerSteps(Exec(d, before), e));
    }
  }

  lemma {:induction false} ExecConcat(d: Duplex, a: seq<Event>, b: seq<Event>)
    ensures Exec(d, a + b) == Exec(Exec(d, a), b)
    decreases |b|
  {
    if b == [] {
      assert a + b == a;
    } else {
      assert (a + b)[..|a + b| - 1] == a + b[..|b| - 1];
      ExecConcat(d, a, b[..|b| - 1]);
    }
  }

  lemma Prepend(d: Duplex, e: Event, rest: seq<Event>)
    ensures Exec(d, [e] + rest) == Exec(Step(d, e), rest)
  {
    ExecConcat(d, [e], rest);
    assert [e][..0] == [];
  }

  /** A run of the answer alone. */
  lemma {:induction false} OnlyAnswers(d: Duplex, es: seq<P.Event>) returns (events: seq<Event>)
    requires KeepsEntry(es)
    ensures Exec(d, events) == d.(answer := P.Exec(d.answer, es))
    decreases |es|
  {
    if es == [] {
      events := [];
    } else {
      var rest := OnlyAnswers(Step(d, Answer(es[0])), es[1..]);
      events := [Answer(es[0])] + rest;
      Prepend(d, Answer(es[0]), rest);
      Continuations.Prepend(d.answer, es[0], es[1..]);
      assert es == [es[0]] + es[1..];
    }
  }

  // ---------------------------------------------------------------- when the answer can go on

  /** No request packet arrived after the removal of the request's receive entry. */
  ghost predicate NoneLate(d: Duplex, events: seq<Event>)
    decreases |events|
  {
    events != [] ==>
      var before, e := events[..|events| - 1], events[|events| - 1];
      NoneLate(d, before) && !Late(Exec(d, before), e)
  }

  lemma EofStaysSent(p: P.Pair, e: P.Event)
    requires Safe(p) && p.snd.eofSent
    ensures P.Step(p, e).snd.eofSent
  {
    if e.Emit? {
      EmitGrows(p, e.maxPayload);
    } else if Quiet(e) {
      QuietFrame(p, e);
    }
  }

  lemma OnlyUnlistUnlists(p: P.Pair, e: P.Event)
    ensures P.Step(p, e).listed <==> p.listed && !e.Unlist?
  {
    match e
    case Emit(m) => assert P.Emitting(p, m).listed == p.listed;
    case Deliver(x) => assert P.Delivering(p, x).listed == p.listed;
    case ReadUpTo(n) => assert P.Reading(p, n).listed == p.listed;
    case SendUpdate => assert P.SendingUpdate(p).listed == p.listed;
    case _ =>
  }

  /** Until its EOF is out, the answering half is in its table exactly while no request packet came
      too late. */
  lemma {:induction false} ListedExactly(id: nat, window: nat, open: bool, events: seq<Event>)
    ensures var d := Exec(Init(id, window, open), events);
            !d.answer.snd.eofSent ==> (d.answer.listed <==> NoneLate(Init(id, window, open), events))
    decreases |events|
  {
    if events != [] {
      var d0, before, e := Init(id, window, open), events[..|events| - 1], events[|events| - 1];
      var d := Exec(d0, before);
      ListedExactly(id, window, open, before);
      DirectionsArePairs(d0, before);
      RunIsSafe(id, window, false, AnswerRun(d0, before));
      StepLists(d, e, NoneLate(d0, before));
    }
  }

  lemma StepLists(d: Duplex, e: Event, none: bool)
    requires Safe(d.answer) && (!d.answer.snd.eofSent ==> (d.answer.listed <==> none))
    ensures var d' := Step(d, e); !d'.answer.snd.eofSent ==> (d'.answer.listed <==> none && !Late(d, e))
  {
    if e.Answer? && Allowed(d.answer, e.step) {
      OnlyUnlistUnlists(d.answer, e.step);
      if d.answer.snd.eofSent { EofStaysSent(d.answer, e.step); }
    }
  }

  /** The answer can go on, exactly: after any run of both directions that left the answer alive, read
      as far as it was sent, and with more to send, some continuation of both directions sends another
      byte of it if and only if no request packet arrived after the removal of the request's receive
      entry, or the window that the answer has suffices. */
  lemma AnswerProgressesExactly(id: nat, window: nat, open: bool, events: seq<Event>)
    requires window > 0
    requires var a := Exec(Init(id, window, open), events).answer;
             !a.rcv.oq.eofReached && |a.read| == a.snd.offset && HasMore(a.snd)
    ensures var d := Exec(Init(id, window, open), events);
            (exists es :: Exec(d, es).answer.snd.offset > d.answer.snd.offset) <==>
            NoneLate(Init(id, window, open), events) || d.answer.snd.Sendable() > 0
  {
    var d0 := Init(id, window, open);
    var d := Exec(d0, events);
    var run := AnswerRun(d0, events);
    DirectionsArePairs(d0, events);
    ListedExactly(id, window, open, events);
    RunIsSafe(id, window, false, run);
    RunKeepsFlow(id, window, false, run);
    FlowNeverDeadlocks(id, window, false, run);
    if d.answer.listed || d.answer.snd.Sendable() > 0 {
      var steps := AdvanceIsPossible(d.answer);
      var es := OnlyAnswers(d, steps);
      assert Exec(d, es).answer.snd.offset > d.answer.snd.offset;
    } else {
      forall es ensures Exec(d, es).answer.snd.offset == d.answer.snd.offset {
        DirectionsArePairs(d, es);
        StarvedForever(d.answer, AnswerRun(d, es));
      }
    }
  }

  // ---------------------------------------------------------------- a run

  function Whole(ask: seq<byte>): SentRange { SentRange(0, 0, ask, true) }

  /** The request was sent, in one range that is tracked. */
  ghost predicate Asked(p: P.Pair, window: nat, ask: seq<byte>) {
    && p.snd.retransmit == [] && p.emitted == {Whole(ask)} && p.snd.sentRanges == [Whole(ask)]
    && p.snd.offset == |ask| && p.snd.eofSent && p.routed && p.rcv == NewReceiver(window) && p.read == []
  }

  lemma Asks(id: nat, window: nat, ask: seq<byte>, budget: int)
    requires ask != [] && window >= |ask| && budget >= |ask| + 28
    ensures Asked(P.Step(P.Step(P.Init(id, window, false), P.AppendData([ask], true)), P.Emit(budget)), window, ask)
  {
    var p := P.Init(id, window, false);
    Continuations.AppendsOne(p.snd, ask, true);
    Continuations.EmitsBuffer(P.Step(p, P.AppendData([ask], true)).snd, ask, budget);
    assert [] + [Whole(ask)] == [Whole(ask)];
  }

  /** A probe timeout sends it once more. */
  lemma AsksAgain(p: P.Pair, window: nat, ask: seq<byte>, budget: int)
    requires Asked(p, window, ask) && budget >= |ask| + 28
    ensures Asked(P.Step(P.Step(p, P.Lose(Whole(ask))), P.Emit(budget)), window, ask)
  {
    assert [Whole(ask)][1..] == [];
  }

  lemma FirstCopyArrives(p: P.Pair, window: nat, ask: seq<byte>)
    requires Asked(p, window, ask) && ask != []
    ensures var q := P.Step(P.Step(P.Step(p, P.Deliver(Whole(ask))), P.ReadUpTo(|ask|)), P.Remove);
            && q.read == ask && q.rcv.oq.eofReached && !q.routed && q.emitted == p.emitted
  {
    var x := Whole(ask);
    var d := P.Frame(x);
    assert [] + [d] + [] == [d] && [d][1..] == [] && [] + ask == ask;
    assert Take([], [d], 0, |ask|, false) == Take(ask, [], |ask|, 0, true);
    var p1 := P.Step(p, P.Deliver(x));
    assert p1.rcv.oq == Queue([d], 0, false) && x in p1.delivered;
    var p2 := P.Step(p1, P.ReadUpTo(|ask|));
    assert x in p2.delivered && x.eof;
  }

  lemma OnlyRemoveRemoves(p: P.Pair, e: P.Event)
    requires p.routed && !e.Remove?
    ensures P.Step(p, e).routed
  {
    match e
    case Emit(m) => assert P.Emitting(p, m).routed;
    case Deliver(x) => assert P.Delivering(p, x).routed;
    case ReadUpTo(n) => assert P.Reading(p, n).routed;
    case SendUpdate => assert P.SendingUpdate(p).routed;
    case _ =>
  }

  /** A run of the request alone, in which only the last step may remove its entry. */
  lemma {:induction false} OnlyRequests(d: Duplex, es: seq<P.Event>) returns (events: seq<Event>)
    requires d.request.routed && KeepsEntry(es) && forall i :: 0 <= i < |es| - 1 ==> !es[i].Remove?
    ensures Exec(d, events) == Duplex(P.Exec(d.request, es), d.answer)
    decreases |es|
  {
    if es == [] {
      events := [];
    } else {
      var next := Step(d, Request(es[0]));
      assert next == Duplex(P.Step(d.request, es[0]), d.answer);
      Continuations.Prepend(d.request, es[0], es[1..]);
      assert es == [es[0]] + es[1..];
      if |es| == 1 {
        events := [Request(es[0])];
        Prepend(d, Request(es[0]), []);
        assert [Request(es[0])] + [] == [Request(es[0])];
      } else {
        OnlyRemoveRemoves(d.request, es[0]);
        var rest := OnlyRequests(next, es[1..]);
        events := [Request(es[0])] + rest;
        Prepend(d, Request(es[0]), rest);
      }
    }
  }

  /** The request leaves twice; one copy arrives, is read, and its entry is removed. */
  function OneCopy(ask: seq<byte>, budget: int): seq<P.Event> {
    ([P.AppendData([ask], true)] + ([P.Emit(budget)] + ([P.Lose(Whole(ask))] + [P.Emit(budget)])))
    + ([P.Deliver(Whole(ask))] + ([P.ReadUpTo(|ask|)] + [P.Remove]))
  }

  ghost predicate Answered(p: P.Pair, ask: seq<byte>) {
    p.read == ask && p.rcv.oq.eofReached && !p.routed && Whole(ask) in p.emitted
  }

  lemma OneCopyIsRead(id: nat, window: nat, ask: seq<byte>, budget: int)
    requires ask != [] && window >= |ask| && budget >= |ask| + 28
    ensures Answered(P.Exec(P.Init(id, window, false), OneCopy(ask, budget)), ask)
  {
    var p := P.Init(id, window, false);
    var e1, e2, e3, e5, e6 := P.AppendData([ask], true), P.Emit(budget), P.Lose(Whole(ask)), P.Deliver(Whole(ask)), P.ReadUpTo(|ask|);
    Asks(id, window, ask, budget);
    AsksAgain(P.Step(P.Step(p, e1), e2), window, ask, budget);
    FourSteps(p, e1, e2, e3, e2);
    var p4 := P.Step(P.Step(P.Step(P.Step(p, e1), e2), e3), e2);
    FirstCopyArrives(p4, window, ask);
    var p5 := P.Step(p4, e5);
    Continuations.ExecOne(P.Step(p5, e6), P.Remove);
    Continuations.Prepend(p5, e6, [P.Remove]);
    Continuations.Prepend(p4, e5, [e6] + [P.Remove]);
    Continuations.ExecConcat(p, [e1] + ([e2] + ([e3] + [e2])), [e5] + ([e6] + [P.Remove]));
  }

  /** The other copy comes too late. */
  lemma SecondCopyIsLate(d: Duplex, ask: seq<byte>)
    requires Answered(d.request, ask)
    ensures var d' := Step(d, Request(P.Deliver(Whole(ask)))); Answered(d'.request, ask) && d'.answer == d.answer.(listed := false)
  {
    assert P.Step(d.request, P.Deliver(Whole(ask))) == P.Delivering(d.request, Whole(ask));
  }

  lemma CopiesArrive(id: nat, window: nat, ask: seq<byte>, budget: int) returns (events: seq<Event>)
    requires ask != [] && window >= |ask| && budget >= |ask| + 28
    ensures var d := Exec(Init(id, window, false), events);
            Answered(d.request, ask) && d.answer == P.Init(id, window, false).(listed := false)
  {
    var d0, late := Init(id, window, false), Request(P.Deliver(Whole(ask)));
    OneCopyIsRead(id, window, ask, budget);
    var early := OnlyRequests(d0, OneCopy(ask, budget));
    SecondCopyIsLate(Exec(d0, early), ask);
    ExecConcat(d0, early, [late]);
    Prepend(Exec(d0, early), late, []);
    assert [late] + [] == [late];
    events := early + [late];
  }

  /** A late copy of the request deadlocks the answer: for every window, every request and every longer
      answer than the window admits there is a run in which both copies of the only request packet
      arrive and the whole request is read, and the answer then uses up its window, is read and
      acknowledged, has its window update acknowledged too, and can never send another byte. */
  lemma LateRequestDeadlocksAnswer(id: nat, window: nat, ask: seq<byte>, data: seq<byte>, first: int, budget: int)
      returns (events: seq<Event>)
    requires ask != [] && |ask| <= window < |data| && first >= |ask| + 28 && budget >= 30
    ensures var d := Exec(Init(id, window, false), events);
            && d.request.read == ask && d.request.rcv.oq.eofReached
            && Deadlocked(d.answer) && forall es :: Exec(d, es).answer.snd.offset == d.answer.snd.offset
  {
    var d0 := Init(id, window, false);
    var copies := CopiesArrive(id, window, ask, first);
    var d1 := Exec(d0, copies);
    var append := P.AppendData([data], false);
    AnswerStarts(id, window, data);
    var steps := UnlistedDeadlocks(P.Step(d1.answer, append), budget);
    Continuations.Prepend(d1.answer, append, steps);
    var rest := OnlyAnswers(d1, [append] + steps);
    ExecConcat(d0, copies, rest);
    events := copies + rest;
    DeadlockIsForever(Exec(d0, events));
  }

  lemma DeadlockIsForever(d: Duplex)
    requires Deadlocked(d.answer)
    ensures forall es :: Exec(d, es).answer.snd.offset == d.answer.snd.offset
  {
    forall es ensures Exec(d, es).answer.snd.offset == d.answer.snd.offset {
      DirectionsArePairs(d, es);
      StarvedForever(d.answer, AnswerRun(d, es));
    }
  }

  /** And what the second half sends reaches the reader of the first: if the peer has received nothing
      of the answer yet, then whatever was written on the first half, the bytes written on the second
      are what is read. */
  lemma SecondHalfIsReadInstead(id: nat, window: nat, first: seq<byte>, second: seq<byte>, budget: int)
    requires second != [] && window >= |second| && budget >= |second| + 28
    ensures var p := P.Step(P.Init(id, window, false).(listed := false), P.AppendData([first], true));
            var t := Trigger(Append(NewSender(id, window, false), [second], true), budget);
            && p.appended == first && t.out.Some?
            && P.Reading(p.(rcv := Process(p.rcv, P.Frame(t.out.value))), |second|).read == second
  {
    var s := NewSender(id, window, false);
    Continuations.AppendsOne(s, second, true);
    Continuations.EmitsBuffer(Append(s, [second], true), second, budget);
    assert Flatten([first]) == first by { assert [first][1..] == []; }
    assert [] + first == first;
    var d := P.Frame(SentRange(0, 0, second, true));
    assert [] + [d] + [] == [d] && [d][1..] == [] && [] + second == second;
    assert Take([], [d], 0, |second|, false) == Take(second, [], |second|, 0, true);
  }

  lemma AnswerStarts(id: nat, window: nat, data: seq<byte>)
    requires 0 < window < |data|
    ensures var p := P.Step(P.Init(id, window, false).(listed := false), P.AppendData([data], false));
            Idle(p) && !p.listed && p.snd.Sendable() > 0
  {
    var p0 := P.Init(id, window, false).(listed := false);
    var p := P.Step(p0, P.AppendData([data], false));
    Continuations.AppendsOne(p0.snd, data, false);
    Continuations.ExecOne(P.Init(id, window, false), P.Unlist);
    RunIsSafe(id, window, false, [P.Unlist]);
    StepKeepsSafe(p0, P.AppendData([data], false));
    assert Flatten([data]) == data by { assert [data][1..] == []; }
  }
}
