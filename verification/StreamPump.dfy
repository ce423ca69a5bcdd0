/**
  The stream pump of the high-frequency drafts: a producer goroutine between the upstream
  channel and a one-slot output channel, racing with cancellation and with the consumer.
 */
module StreamPump {

  datatype ErrorReason = Upstream | Timeout | OtherReason

  datatype Event = Delta(text: string) | Done | Error(reason: ErrorReason)

  predicate IsTerminal(e: Event) {
    e.Done? || e.Error?
  }

  /** An event for the consumer, with or without the draft's metadata. */
  datatype OutEvent = OutEvent(event: Event, metadata: bool)

  function Wrap(e: Event, first: bool): OutEvent {
    OutEvent(e, first || IsTerminal(e))
  }

  const CANCELED := OutEvent(Error(Timeout), true)

  datatype Slot = Empty | Full(e: OutEvent)

  /** Where the producer is. */
  datatype Place =
    | LoopHead                       // about to look at ctx.Err
    | Selecting                      // in the select over ctx.Done and upstream
    | Closed                         // upstream turned out to be closed
    | Got(e: Event)                  // received, ctx.Err not looked at again yet
    | Sending(w: OutEvent)           // in the select over out and ctx.Done
    | CancelSend                     // trying to put the cancellation event
    | CancelDrain                    // making room for it
    | Exited                         // returned, the output is closed

  /** `sent`, `late` and `dropped` only count: events put out, those of them put out after cancellation, events drained. */
  datatype State = State(place: Place, started: bool, canceled: bool, taken: nat, slot: Slot, received: seq<OutEvent>,
                         sent: nat, late: nat, dropped: nat, canceledOut: bool)

  const START: State := State(LoopHead, false, false, 0, Empty, [], 0, 0, 0, false)

  datatype Step = Cancel | Receive | CheckContext | SeeDone | Take | SeeClosed | Put | Drain

  /** `upstream` is all that will ever be sent upstream before it is closed. */
  ghost predicate Enabled(upstream: seq<Event>, s: State, step: Step) {
    match step
    case Cancel => true
    case Receive => s.slot.Full?
    case CheckContext => s.place in {LoopHead, Closed} || s.place.Got?
    case SeeDone => (s.place.Selecting? || s.place.Sending?) && s.canceled
    case Take => s.place.Selecting? && s.taken < |upstream|
    case SeeClosed => s.place.Selecting? && s.taken == |upstream|
    case Put => (s.place.Sending? && s.slot.Empty?) || s.place.CancelSend?
    case Drain => s.place.CancelDrain?
  }

  ghost function Do(upstream: seq<Event>, s: State, step: Step): State
    requires Enabled(upstream, s, step)
  {
    match step
    case Cancel => s.(canceled := true)
    case Receive => s.(received := s.received + [s.slot.e], slot := Empty)
    case CheckContext =>
      if s.canceled then s.(place := CancelSend)
      else if s.place.LoopHead? then s.(place := Selecting)
      else if s.place.Closed? then s.(place := Exited)
      else s.(place := Sending(Wrap(s.place.e, !s.started)), started := true)
    case SeeDone => s.(place := CancelSend)
    case Take => s.(place := Got(upstream[s.taken]), taken := s.taken + 1)
    case SeeClosed => s.(place := Closed)
    case Put =>
      if s.place.Sending? then
        s.(place := if IsTerminal(s.place.w.event) then Exited else LoopHead, slot := Full(s.place.w),
           sent := s.sent + 1, late := if s.canceled then s.late + 1 else s.late)
      else if s.slot.Empty? then s.(place := Exited, slot := Full(CANCELED), canceledOut := true)
      else s.(place := CancelDrain)
    case Drain =>
      if s.slot.Full? then s.(place := CancelSend, slot := Empty, dropped := s.dropped + 1) else s.(place := CancelSend)
  }

  ghost predicate Runs(upstream: seq<Event>, s: State, steps: seq<Step>)
    decreases |steps|
  {
    steps == [] || (Enabled(upstream, s, steps[0]) && Runs(upstream, Do(upstream, s, steps[0]), steps[1..]))
  }

  ghost function After(upstream: seq<Event>, s: State, steps: seq<Step>): State
    requires Runs(upstream, s, steps)
    decreases |steps|
  {
    if steps == [] then s else After(upstream, Do(upstream, s, steps[0]), steps[1..])
  }

  // ---- Invariant --------------------------------------------------------------------------

  /** The first `n` upstream events as the consumer should see them. */
  ghost function Wrapped(upstream: seq<Event>, n: nat): seq<OutEvent>
    requires n <= |upstream|
  {
    seq(n, i requires 0 <= i < n => Wrap(upstream[i], i == 0))
  }

  function Pending(slot: Slot): seq<OutEvent> {
    if slot.Full? then [slot.e] else []
  }

  /** All that got out and was not drained: upstream events in order, then perhaps the cancellation. */
  ghost predicate InOrder(upstream: seq<Event>, s: State) {
    && s.dropped <= s.sent <= s.taken <= |upstream|
    && s.received + Pending(s.slot)
       == Wrapped(upstream, s.sent - s.dropped) + if s.canceledOut then [CANCELED] else []
  }

  ghost predicate Terminated(upstream: seq<Event>, s: State) {
    0 < s.sent <= |upstream| && IsTerminal(upstream[s.sent - 1])
  }

  /** What the place says about the counters. */
  ghost predicate AtPlace(upstream: seq<Event>, s: State) {
    match s.place
    case LoopHead | Selecting | Closed =>
      && s.sent == s.taken && s.dropped == 0 && !s.canceledOut && (s.started <==> s.taken > 0)
      && (s.place.Closed? ==> s.taken == |upstream|)
    case Got(e) =>
      && s.sent + 1 == s.taken <= |upstream| && s.dropped == 0 && !s.canceledOut && (s.started <==> s.taken > 1)
      && e == upstream[s.taken - 1]
    case Sending(w) =>
      && s.sent + 1 == s.taken <= |upstream| && s.dropped == 0 && !s.canceledOut && s.started
      && w == Wrap(upstream[s.taken - 1], s.taken == 1)
    case CancelSend | CancelDrain =>
      && s.canceled && !s.canceledOut && s.dropped <= 1 && (s.dropped == 1 ==> s.slot.Empty?)
      && s.taken <= s.sent + 1
    case Exited =>
      s.dropped <= 1 && s.taken <= s.sent + 1 &&
      (!s.canceledOut ==> s.dropped == 0 && s.sent == s.taken && (Terminated(upstream, s) || s.taken == |upstream|))
  }

  ghost predicate Inv(upstream: seq<Event>, s: State) {
    && InOrder(upstream, s)
    && AtPlace(upstream, s)
    && (forall i | 0 <= i < s.sent && IsTerminal(upstream[i]) :: i == s.sent - 1 && s.place.Exited? && !s.canceledOut)
    && (s.canceledOut ==> s.place.Exited? && s.canceled)
    && s.late <= 1 && (s.late == 1 ==> s.canceled && s.place in {LoopHead, CancelSend, CancelDrain, Exited})
  }

  lemma WrappedMore(upstream: seq<Event>, n: nat)
    requires n < |upstream|
    ensures Wrapped(upstream, n + 1) == Wrapped(upstream, n) + [Wrap(upstream[n], n == 0)]
  {
  }

  lemma ReceiveKeepsOrder(received: seq<OutEvent>, e: OutEvent)
    ensures (received + [e]) + [] == received + [e]
  {
  }

  lemma {:induction false} DrainKeepsOrder(upstream: seq<Event>, received: seq<OutEvent>, e: OutEvent, n: nat)
    requires n <= |upstream| && received + [e] == Wrapped(upstream, n) + []
    ensures n > 0 && received + [] == Wrapped(upstream, n - 1) + []
  {
    assert |received + [e]| == n;
    WrappedMore(upstream, n - 1);
    assert received == (received + [e])[..n - 1];
  }

  lemma {:induction false} PutKeepsInv(upstream: seq<Event>, s: State)
    requires Inv(upstream, s) && s.place.Sending? && s.slot.Empty?
    ensures Inv(upstream, Do(upstream, s, Put))
  {
    WrappedMore(upstream, s.sent);
    assert s.received + [] == s.received && Wrapped(upstream, s.sent) + [] == Wrapped(upstream, s.sent);
  }

  lemma {:induction false} CancelPutKeepsInv(upstream: seq<Event>, s: State)
    requires Inv(upstream, s) && s.place.CancelSend?
    ensures Inv(upstream, Do(upstream, s, Put))
  {
    if s.slot.Empty? {
      assert s.received + [] == s.received;
      assert Wrapped(upstream, s.sent - s.dropped) + [] == Wrapped(upstream, s.sent - s.dropped);
    }
  }

  lemma {:induction false} DrainKeepsInv(upstream: seq<Event>, s: State)
    requires Inv(upstream, s) && s.place.CancelDrain?
    ensures Inv(upstream, Do(upstream, s, Drain))
  {
    if s.slot.Full? {
      DrainKeepsOrder(upstream, s.received, s.slot.e, s.sent);
    }
  }

  lemma {:induction false} ReceiveKeepsInv(upstream: seq<Event>, s: State)
    requires Inv(upstream, s) && s.slot.Full?
    ensures Inv(upstream, Do(upstream, s, Receive))
  {
    ReceiveKeepsOrder(s.received, s.slot.e);
  }

  /** Steps that move nothing into or out of the slot. */
  lemma {:induction false} QuietKeepsInv(upstream: seq<Event>, s: State, step: Step)
    requires Inv(upstream, s) && Enabled(upstream, s, step) && !step.Receive? && !step.Put? && !step.Drain?
    ensures Inv(upstream, Do(upstream, s, step))
  {
    var next := Do(upstream, s, step);
    assert InOrder(upstream, next) by {
      assert next.received == s.received && next.slot == s.slot && next.sent == s.sent && next.dropped == s.dropped;
    }
    assert AtPlace(upstream, next);
  }

  lemma {:induction false} StepKeepsInv(upstream: seq<Event>, s: State, step: Step)
    requires Inv(upstream, s) && Enabled(upstream, s, step)
    ensures Inv(upstream, Do(upstream, s, step))
  {
    match step
    case Receive => ReceiveKeepsInv(upstream, s);
    case Put =>
      if s.place.Sending? {
        PutKeepsInv(upstream, s);
      } else {
        CancelPutKeepsInv(upstream, s);
      }
    case Drain => DrainKeepsInv(upstream, s);
    case _ => QuietKeepsInv(upstream, s, step);
  }

  lemma {:induction false} RunKeepsInv(upstream: seq<Event>, s: State, steps: seq<Step>)
    requires Inv(upstream, s) && Runs(upstream, s, steps)
    ensures Inv(upstream, After(upstream, s, steps))
    decreases |steps|
  {
    if steps != [] {
      StepKeepsInv(upstream, s, steps[0]);
      RunKeepsInv(upstream, Do(upstream, s, steps[0]), steps[1..]);
    }
  }

  // ---- The consumer's view --------------------------------------------------------------------

  /** A contiguous prefix of the upstream, perhaps followed by one cancellation error. */
  ghost predicate PrefixThenCancellation(upstream: seq<Event>, received: seq<OutEvent>) {
    exists n | 0 <= n <= |upstream| ::
      received == Wrapped(upstream, n) || received == Wrapped(upstream, n) + [CANCELED]
  }

  ghost predicate NothingAfterTerminal(received: seq<OutEvent>) {
    forall i | 0 <= i < |received| - 1 :: !IsTerminal(received[i].event)
  }

  lemma {:induction false} ReceivedIsPrefix(upstream: seq<Event>, s: State) returns (n: nat)
    requires Inv(upstream, s)
    ensures n <= s.sent - s.dropped <= |upstream|
    ensures s.received == Wrapped(upstream, n)
         || (s.canceledOut && s.received == Wrapped(upstream, n) + [CANCELED])
  {
    var m := s.sent - s.dropped;
    var all := s.received + Pending(s.slot);
    assert s.received == all[..|s.received|];
    if |s.received| <= m {
      n := |s.received|;
      assert all[..n] == Wrapped(upstream, m)[..n] == Wrapped(upstream, n);
    } else {
      n := m;
      assert all[..n + 1] == Wrapped(upstream, n) + [CANCELED];
    }
  }

  /**
    For every schedule and cancellation time: the consumer has received a contiguous prefix
    of the upstream events, perhaps followed by one cancellation error; nothing follows a
    terminal event; the first event carries metadata; at most one upstream event is put out
    after cancellation and at most one is dropped.
   */
  lemma {:induction false} ConsumerView(upstream: seq<Event>, steps: seq<Step>)
    requires Runs(upstream, START, steps)
    ensures var s := After(upstream, START, steps);
      && PrefixThenCancellation(upstream, s.received)
      && NothingAfterTerminal(s.received)
      && (s.received != [] ==> s.received[0].metadata)
      && s.late <= 1 && s.dropped <= 1
  {
    var s := After(upstream, START, steps);
    assert Wrapped(upstream, 0) == [];
    RunKeepsInv(upstream, START, steps);
    var n := ReceivedIsPrefix(upstream, s);
    assert s.dropped <= 1;
  }

  /**
    When the output is closed and drained: either everything read was delivered, up to a
    terminal event or the end of the upstream; or all but the last two events read, at most,
    and then the cancellation.
   */
  lemma {:induction false} FinalView(upstream: seq<Event>, steps: seq<Step>)
    requires Runs(upstream, START, steps)
    requires var s := After(upstream, START, steps); s.place.Exited? && s.slot.Empty?
    ensures var s := After(upstream, START, steps);
      if s.canceledOut then
        && s.canceled && s.dropped <= s.sent <= s.taken <= |upstream| && s.taken <= s.sent - s.dropped + 2
        && s.received == Wrapped(upstream, s.sent - s.dropped) + [CANCELED]
      else
        && s.taken <= |upstream| && s.received == Wrapped(upstream, s.taken)
        && (Terminated(upstream, s) || s.taken == |upstream|)
  {
    var s := After(upstream, START, steps);
    assert Wrapped(upstream, 0) == [];
    RunKeepsInv(upstream, START, steps);
    assert s.received + [] == s.received;
  }

  // ---- The cancellation loop ends -----------------------------------------------------------------

  ghost function CancelRank(s: State): nat {
    match s.place
    case CancelSend => if s.slot.Empty? then 1 else 3
    case CancelDrain => 2
    case _ => 0
  }

  ghost predicate Canceling(s: State) {
    s.place in {CancelSend, CancelDrain, Exited}
  }

  /** The producer's own steps, once it is canceling. */
  ghost function ProducerSteps(steps: seq<Step>): nat {
    if steps == [] then 0 else (if steps[0].Put? || steps[0].Drain? then 1 else 0) + ProducerSteps(steps[1..])
  }

  lemma CancelStep(upstream: seq<Event>, s: State, step: Step)
    requires Enabled(upstream, s, step) && Canceling(s)
    ensures var next := Do(upstream, s, step);
      && Canceling(next)
      && CancelRank(next) <= CancelRank(s)
      && (step.Put? || step.Drain? ==> CancelRank(next) < CancelRank(s))
      && (!s.place.Exited? && next.place.Exited? ==> next.slot == Full(CANCELED) && next.canceledOut)
  {
  }

  lemma {:induction false} CancelRun(upstream: seq<Event>, s: State, steps: seq<Step>)
    requires Canceling(s) && Runs(upstream, s, steps)
    ensures var after := After(upstream, s, steps);
      && Canceling(after)
      && ProducerSteps(steps) + CancelRank(after) <= CancelRank(s)
      && (after.place.Exited? ==> s.place.Exited? || after.canceledOut)
    decreases |steps|
  {
    if steps != [] {
      var next := Do(upstream, s, steps[0]);
      CancelStep(upstream, s, steps[0]);
      CancelRun(upstream, next, steps[1..]);
      if next.place.Exited? {
        CanceledStays(upstream, next, steps[1..]);
      }
    }
  }

  lemma {:induction false} CanceledStays(upstream: seq<Event>, s: State, steps: seq<Step>)
    requires s.place.Exited? && Runs(upstream, s, steps)
    ensures After(upstream, s, steps).canceledOut == s.canceledOut
    decreases |steps|
  {
    if steps != [] {
      CanceledStays(upstream, Do(upstream, s, steps[0]), steps[1..]);
    }
  }

  /**
    Only the producer fills the slot, so its loop of trying and draining makes at most three
    steps, whatever the consumer does meanwhile; until it has put the cancellation out it can
    always make one, so that the third, if not an earlier one, puts it out and ends the loop.
   */
  lemma {:induction false} CancellationEnds(upstream: seq<Event>, s: State, steps: seq<Step>)
    requires (s.place.CancelSend? || s.place.CancelDrain?) && Runs(upstream, s, steps)
    ensures var after := After(upstream, s, steps);
      && ProducerSteps(steps) <= 3
      && (ProducerSteps(steps) == 3 ==> after.place.Exited?)
      && (after.place.Exited? ==> after.canceledOut)
      && (!after.place.Exited? ==> Enabled(upstream, after, Put) || Enabled(upstream, after, Drain))
  {
    CancelRun(upstream, s, steps);
  }

  // ---- What the events are ---------------------------------------------------------------------------

  /**
    Every event received is the upstream's at the same place, with the metadata exactly when
    it is the first or a terminal one; what may follow them is an error of its own that says
    the time is over, with the metadata.
   */
  lemma {:induction false} ReceivedMeans(upstream: seq<Event>, steps: seq<Step>, i: nat)
    requires Runs(upstream, START, steps) && i < |After(upstream, START, steps).received|
    ensures var e := After(upstream, START, steps).received[i];
      || (i < |upstream| && e.event == upstream[i] && (e.metadata <==> i == 0 || upstream[i].Done? || upstream[i].Error?))
      || (After(upstream, START, steps).canceled && i == |After(upstream, START, steps).received| - 1
          && e.event == Error(Timeout) && e.metadata)
  {
    var s := After(upstream, START, steps);
    assert Wrapped(upstream, 0) == [];
    RunKeepsInv(upstream, START, steps);
    var n := ReceivedIsPrefix(upstream, s);
  }

  /** The producer is past the point at which it could still miss a cancellation. */
  ghost predicate WillSee(s: State) {
    && s.canceled
    && match s.place
       case Sending(w) => false
       case Exited => s.canceledOut
       case _ => true
  }

  lemma WillSeeStep(upstream: seq<Event>, s: State, step: Step)
    requires Inv(upstream, s) && WillSee(s) && Enabled(upstream, s, step)
    ensures WillSee(Do(upstream, s, step))
  {
  }

  /**
    A cancellation that comes while the producer is not in the middle of putting an event out
    is never lost: when the output is closed, the cancellation error has gone out last.
   */
  lemma {:induction false} CancellationIsSeen(upstream: seq<Event>, s: State, steps: seq<Step>)
    requires Inv(upstream, s) && WillSee(s) && Runs(upstream, s, steps)
    ensures var after := After(upstream, s, steps);
      && WillSee(after) && after.sent == s.sent
      && (after.place.Exited? ==> after.canceledOut)
    decreases |steps|
  {
    if steps != [] {
      WillSeeStep(upstream, s, steps[0]);
      StepKeepsInv(upstream, s, steps[0]);
      CancellationIsSeen(upstream, Do(upstream, s, steps[0]), steps[1..]);
    }
  }

  /** In the middle of it, only that one event can still go out; if it is not terminal, the cancellation follows. */
  lemma {:induction false} CancellationWhileSending(upstream: seq<Event>, s: State, steps: seq<Step>)
    requires Inv(upstream, s) && s.canceled && s.place.Sending? && Runs(upstream, s, steps)
    ensures var after := After(upstream, s, steps);
      && after.sent <= s.sent + 1
      && (after.place.Exited? ==> after.canceledOut || (IsTerminal(s.place.w.event) && after.sent == s.sent + 1))
    decreases |steps|
  {
    if steps != [] {
      var next := Do(upstream, s, steps[0]);
      StepKeepsInv(upstream, s, steps[0]);
      if next.place.Sending? {
        CancellationWhileSending(upstream, next, steps[1..]);
      } else if next.place.Exited? {
        ExitedStays(upstream, next, steps[1..]);
      } else {
        CancellationIsSeen(upstream, next, steps[1..]);
      }
    }
  }

  lemma {:induction false} ExitedStays(upstream: seq<Event>, s: State, steps: seq<Step>)
    requires s.place.Exited? && Runs(upstream, s, steps)
    ensures After(upstream, s, steps).sent == s.sent
    decreases |steps|
  {
    if steps != [] {
      ExitedStays(upstream, Do(upstream, s, steps[0]), steps[1..]);
    }
  }
}
