/**
 * The slave side of the protocol: a per-datagram state machine that
 * collects the four timestamps of a round (Sync, FollowUp(t1), DelayReq,
 * DelayResp(t2')), pushes one offset sample per completed round into the
 * smoothing window, and reports every event to the hosting application
 * through an ordered notification channel.
 *
 * Everything the loop obtains from the outside world becomes an input of a
 * step: the received datagram (already decoded, undecodable, or a receive
 * error), the clock reading the step takes, the outcome of sending the
 * DelayReq reply, and whether the notification could be delivered. A
 * notification that cannot be delivered ends the serve loop.
 */
module Client {
  import opened TimeOffsets
  import opened OffsetWindow

  datatype Option<T> = None | Some(value: T)

  function ToSeq<T>(o: Option<T>): (s: seq<T>)
    ensures o.None? ==> s == []
    ensures o.Some? ==> s == [o.value]
  {
    match o
    case None => []
    case Some(v) => [v]
  }

  /** A peer's socket address. */
  datatype SocketAddr = SocketAddr(host: nat, port: nat)

  /** Messages the master sends. */
  datatype MasterMessage = Sync | FollowUp(t1: Instant) | DelayResp(t2': Instant)

  /** The one message the slave sends. */
  datatype SlaveMessage = DelayReq

  /** Why a datagram could not be decoded, and a socket error; both opaque here. */
  datatype DecodeError = DecodeError(detail: string)
  datatype IoError = IoError(detail: string)

  /** What the slave reports to the hosting application. */
  datatype Notify =
    | ChangeOffset(offset: TimeOffset)
    | InvalidMessageSequence
    | InvalidMessageFormat(decodeError: DecodeError)
    | Io(ioError: IoError)

  /** The round in progress: `t1_` is the local receipt time of Sync, `t1`
      the master's send time carried by FollowUp, `t2` the local time just
      after the DelayReq was sent. */
  datatype State =
    | Cleared
    | SyncReceived(t1_: Instant)
    | FollowUpReceived(t1_: Instant, t1: Instant, t2: Instant)

  /** What one iteration of the receive loop gets from the socket. */
  datatype Event =
    | Received(msg: MasterMessage, from: SocketAddr)
    | Malformed(reason: DecodeError)
    | RecvFailed(failure: IoError)

  /** A datagram the slave sent. */
  datatype Datagram = Datagram(to: SocketAddr, msg: SlaveMessage)

  /** One iteration's inputs: the event, the clock reading taken while
      handling it, the result of sending a DelayReq, and whether the
      notification channel accepted the step's notification. */
  datatype Input = Input(event: Event, now: Instant, sendError: Option<IoError>, delivered: bool)

  /** The effect of one event: next state, next window, the datagram sent
      successfully (if any) and the notification to deliver (if any). */
  datatype Reaction = Reaction(next: State, window: seq<TimeOffset>, reply: Option<Datagram>, notice: Option<Notify>)

  /** `Stopped` carries the notification the channel refused. */
  datatype Outcome = Continue | Stopped(undelivered: Notify)

  // ---------------------------------------------------------------------
  // The offset sample of a completed round
  // ---------------------------------------------------------------------

  /** The sample as the loop computes it: the Sync offset plus half the
      DelayReq offset. */
  function RoundSampleAsWritten(t1_: Instant, t1: Instant, t2: Instant, t2': Instant): (r: TimeOffset)
    ensures var half := Value(r) - (t1 - t1_);
      Abs(half) == Abs(t2' - t2) / 2 && (t2' >= t2 ==> half >= 0) && (t2' <= t2 ==> half <= 0)
  {
    DivTruncatesTowardZero(Diff(t2, t2'), 2);
    Add(Diff(t1_, t1), Div(Diff(t2, t2'), 2))
  }

  /** The sample as a round is meant to estimate it: half the sum of the
      Sync offset and the DelayReq offset, so that a symmetric network delay
      cancels out. */
  function RoundSample(t1_: Instant, t1: Instant, t2: Instant, t2': Instant): (r: TimeOffset)
    ensures var twice := (t1 - t1_) + (t2' - t2);
      Abs(Value(r)) == Abs(twice) / 2 && (twice >= 0 ==> Value(r) >= 0) && (twice <= 0 ==> Value(r) <= 0)
  {
    DivTruncatesTowardZero(Add(Diff(t1_, t1), Diff(t2, t2')), 2);
    Div(Add(Diff(t1_, t1), Diff(t2, t2')), 2)
  }

  /** Let the slave clock read `skew` ahead of the master and let each
      direction take `delay`. Then the round's sample has value `-skew`, and
      correcting any local instant with it yields the master's instant. */
  lemma RoundSampleRecoversSkew(m0: Instant, m1: Instant, delay: nat, skew: int, local: Instant)
    ensures var s := RoundSample(m0 + delay + skew, m0, m1 + skew, m1 + delay);
      Value(s) == -skew && Correct(s, local) == local - skew
  {
    var s := RoundSample(m0 + delay + skew, m0, m1 + skew, m1 + delay);
    var twice := (m0 - (m0 + delay + skew)) + ((m1 + delay) - (m1 + skew));
    assert twice == -2 * skew;
    assert Abs(twice) / 2 == Abs(skew);
  }

  /** With clocks in agreement (no skew) and a nonzero delay, the sample as
      the loop computes it is negative: it would move a correct clock back
      by about half the one-way delay. */
  lemma RoundSampleAsWrittenIsBiased(m0: Instant, m1: Instant, delay: nat)
    requires delay > 0
    ensures Value(RoundSampleAsWritten(m0 + delay, m0, m1, m1 + delay)) == -(delay as int) + delay / 2 < 0
    ensures Value(RoundSample(m0 + delay, m0, m1, m1 + delay)) == 0
  {
    RoundSampleRecoversSkew(m0, m1, delay, 0, m0);
  }

  /** The concrete round t1 = 0, t1_ = 10, t2 = 20, t2' = 30. */
  lemma RoundSampleAsWrittenExample()
    ensures RoundSampleAsWritten(10, 0, 20, 30) == Later(5)
    ensures RoundSample(10, 0, 20, 30) == Earlier(0)
  {
  }

  /** Which expression a completed round uses for its sample: the one the
      loop as written evaluates, or the midpoint it evidently intends. The
      slave (`Server`) runs `AsWritten`; the transition table and the loop
      are stated for either. */
  datatype Estimator = AsWritten | Midpoint

  function Sample(est: Estimator, t1_: Instant, t1: Instant, t2: Instant, t2': Instant): TimeOffset
  {
    match est
    case AsWritten => RoundSampleAsWritten(t1_, t1, t2, t2')
    case Midpoint => RoundSample(t1_, t1, t2, t2')
  }

  // ---------------------------------------------------------------------
  // The transition table
  // ---------------------------------------------------------------------

  /** A round advances on (Cleared, Sync) and on (SyncReceived, FollowUp),
      and completes on (FollowUpReceived, DelayResp). */
  predicate InSequence(s: State, msg: MasterMessage)
  {
    || (s.Cleared? && msg.Sync?)
    || (s.SyncReceived? && msg.FollowUp?)
    || (s.FollowUpReceived? && msg.DelayResp?)
  }

  /** The reaction to one event, in state `s` with window `window`; the
      table it follows is stated by `ReactFollowsTable`. */
  function React(est: Estimator, s: State, window: seq<TimeOffset>, meanWindow: nat, ev: Event, now: Instant, sendError: Option<IoError>): (r: Reaction)
    requires meanWindow >= 1
  {
    match ev
    case Malformed(e) => Reaction(s, window, None, Some(InvalidMessageFormat(e)))
    case RecvFailed(e) => Reaction(s, window, None, Some(Io(e)))
    case Received(msg, from) =>
      match msg
      case Sync =>
        if s.Cleared? then Reaction(SyncReceived(now), window, None, None)
        else Reaction(Cleared, window, None, Some(InvalidMessageSequence))
      case FollowUp(t1) =>
        if s.SyncReceived? then
          Reaction(FollowUpReceived(s.t1_, t1, now), window,
                   if sendError.None? then Some(Datagram(from, DelayReq)) else None,
                   if sendError.Some? then Some(Io(sendError.value)) else None)
        else Reaction(Cleared, window, None, Some(InvalidMessageSequence))
      case DelayResp(t2') =>
        if s.FollowUpReceived? then
          var w := Push(window, Sample(est, s.t1_, s.t1, s.t2, t2'), meanWindow);
          Reaction(Cleared, w, None, Some(ChangeOffset(Div(SumOffsets(w), |w|))))
        else Reaction(Cleared, window, None, Some(InvalidMessageSequence))
  }

  /** The transition table of the slave. */
  lemma ReactFollowsTable(est: Estimator, s: State, window: seq<TimeOffset>, meanWindow: nat, ev: Event, now: Instant, sendError: Option<IoError>)
    requires meanWindow >= 1
    ensures var r := React(est, s, window, meanWindow, ev, now, sendError);
      // undecodable datagrams and receive errors change nothing and are reported once
      && (ev.Malformed? ==> r == Reaction(s, window, None, Some(InvalidMessageFormat(ev.reason))))
      && (ev.RecvFailed? ==> r == Reaction(s, window, None, Some(Io(ev.failure))))
      // the state table
      && (ev.Received? ==>
            r.next == (if s.Cleared? && ev.msg.Sync? then SyncReceived(now)
                       else if s.SyncReceived? && ev.msg.FollowUp? then FollowUpReceived(s.t1_, ev.msg.t1, now)
                       else Cleared))
      // a sequence violation is reported exactly when the message is out of sequence
      && (r.notice == Some(InvalidMessageSequence) <==> ev.Received? && !InSequence(s, ev.msg))
      // the only silent steps are an accepted Sync and a FollowUp whose reply went out
      && (r.notice.None? <==>
            ev.Received? && ((s.Cleared? && ev.msg.Sync?) || (s.SyncReceived? && ev.msg.FollowUp? && sendError.None?)))
      // a DelayReq goes to the FollowUp's sender; a failed send is reported as Io
      && (r.reply.Some? <==> ev.Received? && s.SyncReceived? && ev.msg.FollowUp? && sendError.None?)
      && (r.reply.Some? ==> r.reply.value == Datagram(ev.from, DelayReq))
      && (ev.Received? && s.SyncReceived? && ev.msg.FollowUp? && sendError.Some? ==>
            r.notice == Some(Io(sendError.value)))
      // only a completed round touches the window, and it publishes the new mean
      && (ev.Received? && s.FollowUpReceived? && ev.msg.DelayResp? ==>
            && r.window == Push(window, Sample(est, s.t1_, s.t1, s.t2, ev.msg.t2'), meanWindow)
            && r.notice == Some(ChangeOffset(Div(SumOffsets(r.window), |r.window|))))
      && (!(ev.Received? && s.FollowUpReceived? && ev.msg.DelayResp?) ==>
            r.window == window && (r.notice.Some? ==> !r.notice.value.ChangeOffset?))
      && (|window| <= meanWindow ==> |r.window| <= meanWindow)
  {
  }

  /** With a window of one, a completed round publishes its own sample. */
  lemma WindowOfOnePublishesLatest(est: Estimator, s: State, window: seq<TimeOffset>, ev: Event, now: Instant, sendError: Option<IoError>)
    requires |window| <= 1
    requires ev.Received? && s.FollowUpReceived? && ev.msg.DelayResp?
    ensures React(est, s, window, 1, ev, now, sendError).notice ==
      Some(ChangeOffset(Sample(est, s.t1_, s.t1, s.t2, ev.msg.t2')))
  {
    WindowOfOneHoldsLatest(window, Sample(est, s.t1_, s.t1, s.t2, ev.msg.t2'));
  }

  /** The round `t1_ = 10, t1 = 0, t2 = 20, t2' = 30` with a window of one:
      the loop as written publishes `Later(5)`, the midpoint `Earlier(0)`. */
  lemma ExampleRoundPublishes(from: SocketAddr, now: Instant, sendError: Option<IoError>)
    ensures React(AsWritten, FollowUpReceived(10, 0, 20), [], 1, Received(DelayResp(30), from), now, sendError).notice ==
      Some(ChangeOffset(Later(5)))
    ensures React(Midpoint, FollowUpReceived(10, 0, 20), [], 1, Received(DelayResp(30), from), now, sendError).notice ==
      Some(ChangeOffset(Earlier(0)))
  {
    RoundSampleAsWrittenExample();
    WindowOfOnePublishesLatest(AsWritten, FollowUpReceived(10, 0, 20), [], Received(DelayResp(30), from), now, sendError);
    WindowOfOnePublishesLatest(Midpoint, FollowUpReceived(10, 0, 20), [], Received(DelayResp(30), from), now, sendError);
  }

  /** Steady state of the smoothing, for the loop as written: let the slave
      clock read `skew` ahead of the master, let each direction take
      `delay`, and let the window hold only samples of the value `v` the
      round's sample has. Then the window after the push still holds only
      such samples, and its mean, which a completed round publishes
      (`ReactFollowsTable`), has value `v`; twice `v` lies within one
      nanosecond of `-(delay + 3 * skew)`, not at `-2 * skew`. */
  lemma ConstantSkewIsPublished(window: seq<TimeOffset>, meanWindow: nat, m0: Instant, m1: Instant, delay: nat, skew: int)
    requires meanWindow >= 1
    requires forall i :: 0 <= i < |window| ==>
      Value(window[i]) == Value(RoundSampleAsWritten(m0 + delay + skew, m0, m1 + skew, m1 + delay))
    ensures var sample := RoundSampleAsWritten(m0 + delay + skew, m0, m1 + skew, m1 + delay);
      var w := Push(window, sample, meanWindow);
      && (forall i :: 0 <= i < |w| ==> Value(w[i]) == Value(sample))
      && Value(Div(SumOffsets(w), |w|)) == Value(sample)
      && -(delay + 3 * skew) - 1 <= 2 * Value(sample) <= -(delay + 3 * skew) + 1
  {
    var sample := RoundSampleAsWritten(m0 + delay + skew, m0, m1 + skew, m1 + delay);
    RoundSampleAsWrittenUnderSkew(m0, m1, delay, skew);
    PushOfEqualValues(window, sample, meanWindow, Value(sample));
  }

  /** With slave skew `skew` and one-way delay `delay`, the sample as
      written is `-(delay + skew)` plus half of `delay - skew` truncated
      toward zero, so twice it lies within one of `-(delay + 3 * skew)`. */
  lemma RoundSampleAsWrittenUnderSkew(m0: Instant, m1: Instant, delay: nat, skew: int)
    ensures var v := Value(RoundSampleAsWritten(m0 + delay + skew, m0, m1 + skew, m1 + delay));
      -(delay + 3 * skew) - 1 <= 2 * v <= -(delay + 3 * skew) + 1
  {
    var v := Value(RoundSampleAsWritten(m0 + delay + skew, m0, m1 + skew, m1 + delay));
    var half := v + (delay + skew);
    var e := delay - skew;
    assert Abs(half) == Abs(e) / 2;
    if e >= 0 {
      assert half >= 0 && e - 1 <= 2 * half <= e;
    } else {
      assert half <= 0 && e <= 2 * half <= e + 1;
    }
  }

  /** The same steady state for the corrected sample: a window holding only
      samples of value `-skew` keeps holding only such samples, and the
      published mean has value `-skew`. */
  lemma ConstantSkewIsPublishedCorrected(window: seq<TimeOffset>, meanWindow: nat, m0: Instant, m1: Instant, delay: nat, skew: int)
    requires meanWindow >= 1
    requires forall i :: 0 <= i < |window| ==> Value(window[i]) == -skew
    ensures var w := Push(window, RoundSample(m0 + delay + skew, m0, m1 + skew, m1 + delay), meanWindow);
      && (forall i :: 0 <= i < |w| ==> Value(w[i]) == -skew)
      && Value(Div(SumOffsets(w), |w|)) == -skew
  {
    var sample := RoundSample(m0 + delay + skew, m0, m1 + skew, m1 + delay);
    RoundSampleRecoversSkew(m0, m1, delay, skew, m0);
    PushOfEqualValues(window, sample, meanWindow, -skew);
  }

  // ---------------------------------------------------------------------
  // Runs of the serve loop
  // ---------------------------------------------------------------------

  /** What a run of the loop produced: final state and window, the
      notifications delivered and datagrams sent (in order), how it ended
      and how many inputs it consumed. */
  datatype Run = Run(state: State, window: seq<TimeOffset>, notices: seq<Notify>, sent: seq<Datagram>, outcome: Outcome, consumed: nat)

  /** `done` followed by one more iteration that produced `next`. */
  function Extend(done: Run, next: Run): Run
  {
    Run(next.state, next.window, done.notices + next.notices, done.sent + next.sent, next.outcome, done.consumed + next.consumed)
  }

  /** One iteration of the loop on input `i`. If the channel refuses the
      notification the loop ends there: the state does not advance, but the
      window has already taken the new sample. */
  function StepRun(est: Estimator, s: State, window: seq<TimeOffset>, meanWindow: nat, i: Input): (run: Run)
    requires meanWindow >= 1
    ensures run.consumed == 1 && |run.notices| <= 1 && |run.sent| <= 1
    ensures var r := React(est, s, window, meanWindow, i.event, i.now, i.sendError);
      && (run.outcome.Stopped? <==> r.notice.Some? && !i.delivered)
      && (run.outcome.Stopped? ==> run.outcome.undelivered == r.notice.value && run.notices == [] && run.state == s)
      && run.window == r.window && run.sent == ToSeq(r.reply)
      && (run.outcome.Continue? ==> run.state == r.next && run.notices == ToSeq(r.notice))
    ensures i.delivered ==> run.outcome.Continue?
    ensures |window| <= meanWindow ==> |run.window| <= meanWindow
  {
    var r := React(est, s, window, meanWindow, i.event, i.now, i.sendError);
    ReactFollowsTable(est, s, window, meanWindow, i.event, i.now, i.sendError);
    if r.notice.Some? && !i.delivered then
      Run(s, r.window, [], ToSeq(r.reply), Stopped(r.notice.value), 1)
    else
      Run(r.next, r.window, ToSeq(r.notice), ToSeq(r.reply), Continue, 1)
  }

  /** The loop carried on from the partial run `done` over `inputs`: one
      `StepRun` per input until an iteration stops or the inputs run out. */
  function Resume(est: Estimator, done: Run, meanWindow: nat, inputs: seq<Input>): Run
    requires meanWindow >= 1
    decreases |inputs|
  {
    if inputs == [] || done.outcome.Stopped? then done
    else Resume(est, Extend(done, StepRun(est, done.state, done.window, meanWindow, inputs[0])), meanWindow, inputs[1..])
  }

  /** The loop run over `inputs` from state `s` and window `window`. */
  function Apply(est: Estimator, s: State, window: seq<TimeOffset>, meanWindow: nat, inputs: seq<Input>): Run
    requires meanWindow >= 1
  {
    Resume(est, Run(s, window, [], [], Continue, 0), meanWindow, inputs)
  }

  /** A loop that has not stopped consumes every input unless a notification
      cannot be delivered, in which case the last input it consumed is that
      one. */
  lemma {:induction false} ResumeStopsOnlyOnRefusedDelivery(est: Estimator, done: Run, meanWindow: nat, inputs: seq<Input>)
    requires meanWindow >= 1 && done.outcome.Continue?
    ensures var run := Resume(est, done, meanWindow, inputs);
      && done.consumed <= run.consumed <= done.consumed + |inputs|
      && (run.outcome.Continue? ==> run.consumed == done.consumed + |inputs|)
      && (run.outcome.Stopped? ==>
            run.consumed > done.consumed && !inputs[run.consumed - done.consumed - 1].delivered)
    decreases |inputs|
  {
    if inputs != [] {
      var next := Extend(done, StepRun(est, done.state, done.window, meanWindow, inputs[0]));
      assert next.consumed == done.consumed + 1;
      if next.outcome.Continue? {
        var run := Resume(est, next, meanWindow, inputs[1..]);
        ResumeStopsOnlyOnRefusedDelivery(est, next, meanWindow, inputs[1..]);
        if run.outcome.Stopped? {
          var j := run.consumed - next.consumed - 1;
          assert j + 1 == run.consumed - done.consumed - 1;
          assert inputs[1..][j] == inputs[j + 1];
        }
      }
    }
  }

  /** When a carried-on loop stops, it stops on its `k`-th new input: the
      loop was still running after the inputs before it, that input's
      iteration emitted a notification, the channel refused it, and the
      outcome carries exactly that notification. */
  lemma {:induction false} ResumeStopsOnRefusedNotification(est: Estimator, done: Run, meanWindow: nat, inputs: seq<Input>)
    requires meanWindow >= 1 && done.outcome.Continue?
    ensures var run := Resume(est, done, meanWindow, inputs);
      var k := run.consumed - done.consumed - 1;
      run.outcome.Stopped? ==>
        && 0 <= k < |inputs|
        && var prev := Resume(est, done, meanWindow, inputs[..k]);
           && prev.outcome.Continue?
           && !inputs[k].delivered
           && React(est, prev.state, prev.window, meanWindow, inputs[k].event, inputs[k].now, inputs[k].sendError).notice
                == Some(run.outcome.undelivered)
    decreases |inputs|
  {
    ResumeStopsOnlyOnRefusedDelivery(est, done, meanWindow, inputs);
    if inputs != [] {
      var next := Extend(done, StepRun(est, done.state, done.window, meanWindow, inputs[0]));
      var run := Resume(est, done, meanWindow, inputs);
      if next.outcome.Stopped? {
        assert inputs[..0] == [];
      } else if run.outcome.Stopped? {
        var k := run.consumed - done.consumed - 1;
        ResumeStopsOnRefusedNotification(est, next, meanWindow, inputs[1..]);
        assert k >= 1 && run.consumed - next.consumed - 1 == k - 1;
        assert inputs[..k][0] == inputs[0];
        assert inputs[..k][1..] == inputs[1..][..k - 1];
        assert inputs[1..][k - 1] == inputs[k];
      }
    }
  }

  /** The loop consumes every input unless a notification cannot be
      delivered, and then it stops on that input. */
  lemma ApplyStopsOnlyOnRefusedDelivery(est: Estimator, s: State, window: seq<TimeOffset>, meanWindow: nat, inputs: seq<Input>)
    requires meanWindow >= 1
    ensures var run := Apply(est, s, window, meanWindow, inputs);
      && run.consumed <= |inputs|
      && (run.outcome.Continue? ==> run.consumed == |inputs|)
      && (run.outcome.Stopped? ==> run.consumed >= 1 && !inputs[run.consumed - 1].delivered)
  {
    ResumeStopsOnlyOnRefusedDelivery(est, Run(s, window, [], [], Continue, 0), meanWindow, inputs);
  }

  /** Carrying on a loop adds at most one notification and one datagram per
      input it consumes, and keeps the window within capacity. */
  lemma {:induction false} ResumeBounds(est: Estimator, done: Run, meanWindow: nat, inputs: seq<Input>)
    requires meanWindow >= 1 && |done.window| <= meanWindow
    ensures var run := Resume(est, done, meanWindow, inputs);
      && |run.notices| - |done.notices| <= run.consumed - done.consumed
      && |run.sent| - |done.sent| <= run.consumed - done.consumed
      && |run.window| <= meanWindow
    decreases |inputs|
  {
    if inputs != [] && done.outcome.Continue? {
      ResumeBounds(est, Extend(done, StepRun(est, done.state, done.window, meanWindow, inputs[0])), meanWindow, inputs[1..]);
    }
  }

  /** A run delivers at most one notification and sends at most one
      datagram per input it consumes, and keeps the window within capacity. */
  lemma ApplyBounds(est: Estimator, s: State, window: seq<TimeOffset>, meanWindow: nat, inputs: seq<Input>)
    requires meanWindow >= 1 && |window| <= meanWindow
    ensures var run := Apply(est, s, window, meanWindow, inputs);
      && |run.notices| <= run.consumed
      && |run.sent| <= run.consumed
      && |run.window| <= meanWindow
  {
    ResumeBounds(est, Run(s, window, [], [], Continue, 0), meanWindow, inputs);
  }

  // ---------------------------------------------------------------------
  // The slave node
  // ---------------------------------------------------------------------

  /** The slave: its window capacity, the round state and window the serve
      loop keeps, the notifications delivered so far, the datagrams sent so
      far, and whether the loop has returned. */
  class Server {
    const meanWindow: nat
    var state: State
    var window: seq<TimeOffset>
    var notified: seq<Notify>
    var sent: seq<Datagram>
    var stopped: bool

    ghost predicate Valid()
      reads this
    {
      meanWindow >= 1 && |window| <= meanWindow
    }

    /** A fresh slave: no round in progress, an empty window. */
    constructor (meanWindow: nat)
      requires meanWindow >= 1
      ensures Valid()
      ensures this.meanWindow == meanWindow
      ensures state == Cleared && window == [] && notified == [] && sent == [] && !stopped
    {
      this.meanWindow := meanWindow;
      state := Cleared;
      window := [];
      notified := [];
      sent := [];
      stopped := false;
    }

    /** Hands `n` to the notification channel. */
    method Deliver(n: Notify, delivered: bool) returns (ok: bool)
      modifies this`notified, this`stopped
      ensures ok == delivered
      ensures notified == if ok then old(notified) + [n] else old(notified)
      ensures stopped == (old(stopped) || !ok)
    {
      ok := delivered;
      if ok {
        notified := notified + [n];
      } else {
        stopped := true;
      }
    }

    /** One iteration of the serve loop. */
    method Step(input: Input) returns (outcome: Outcome)
      requires Valid() && !stopped
      modifies this
      ensures Valid()
      ensures var run := StepRun(AsWritten, old(state), old(window), meanWindow, input);
        && state == run.state && window == run.window
        && notified == old(notified) + run.notices && sent == old(sent) + run.sent
        && outcome == run.outcome && stopped == outcome.Stopped?
    {
      var ok: bool;
      match input.event {
        case Malformed(e) =>
          ok := Deliver(InvalidMessageFormat(e), input.delivered);
          if !ok { return Stopped(InvalidMessageFormat(e)); }
        case RecvFailed(e) =>
          ok := Deliver(Io(e), input.delivered);
          if !ok { return Stopped(Io(e)); }
        case Received(msg, from) =>
          match msg {
            case Sync =>
              if !state.Cleared? {
                ok := Deliver(InvalidMessageSequence, input.delivered);
                if !ok { return Stopped(InvalidMessageSequence); }
                state := Cleared;
              } else {
                state := SyncReceived(input.now);
              }
            case FollowUp(t1) =>
              if state.SyncReceived? {
                var t1_ := state.t1_;
                if input.sendError.Some? {
                  ok := Deliver(Io(input.sendError.value), input.delivered);
                  if !ok { return Stopped(Io(input.sendError.value)); }
                } else {
                  sent := sent + [Datagram(from, DelayReq)];
                }
                var t2 := input.now;
                state := FollowUpReceived(t1_, t1, t2);
              } else {
                ok := Deliver(InvalidMessageSequence, input.delivered);
                if !ok { return Stopped(InvalidMessageSequence); }
                state := Cleared;
              }
            case DelayResp(t2') =>
              if state.FollowUpReceived? {
                outcome := CompleteRound(t2', input.delivered);
                return;
              } else {
                ok := Deliver(InvalidMessageSequence, input.delivered);
                if !ok { return Stopped(InvalidMessageSequence); }
              }
              state := Cleared;
          }
      }
      outcome := Continue;
    }

    /** The end of a round: the sample enters the window and the new mean
        is published. */
    method CompleteRound(t2': Instant, delivered: bool) returns (outcome: Outcome)
      requires Valid() && !stopped && state.FollowUpReceived?
      modifies this
      ensures Valid()
      ensures var w := Push(old(window), RoundSampleAsWritten(old(state).t1_, old(state).t1, old(state).t2, t2'), meanWindow);
        var n := ChangeOffset(Div(SumOffsets(w), |w|));
        && window == w && sent == old(sent) && stopped == !delivered
        && (delivered ==> state == Cleared && notified == old(notified) + [n] && outcome == Continue)
        && (!delivered ==> state == old(state) && notified == old(notified) && outcome == Stopped(n))
    {
      var offset := RoundSampleAsWritten(state.t1_, state.t1, state.t2, t2');
      window := window + [offset];
      if |window| > meanWindow {
        window := window[1..];
      }
      var mean := MeanOffset(window);
      var ok := Deliver(ChangeOffset(mean), delivered);
      if !ok { return Stopped(ChangeOffset(mean)); }
      state := Cleared;
      outcome := Continue;
    }

    /** The serve loop over a finite run of inputs: it returns when a
        notification cannot be delivered or when the inputs run out. What it
        leaves behind is the run carried on from what it found. */
    method Serve(inputs: seq<Input>) returns (outcome: Outcome, consumed: nat)
      requires Valid() && !stopped
      modifies this
      ensures Valid()
      ensures Run(state, window, notified, sent, outcome, consumed) ==
        Resume(AsWritten, Run(old(state), old(window), old(notified), old(sent), Continue, 0), meanWindow, inputs)
      ensures stopped == outcome.Stopped?
    {
      ghost var whole := Resume(AsWritten, Run(state, window, notified, sent, Continue, 0), meanWindow, inputs);
      outcome, consumed := Continue, 0;
      assert inputs[0..] == inputs;
      while consumed < |inputs| && outcome.Continue?
        invariant Valid() && consumed <= |inputs|
        invariant stopped == outcome.Stopped?
        invariant whole == Resume(AsWritten, Run(state, window, notified, sent, outcome, consumed), meanWindow, inputs[consumed..])
        decreases |inputs| - consumed
      {
        var input := inputs[consumed];
        assert inputs[consumed..][0] == input;
        assert inputs[consumed..][1..] == inputs[consumed + 1..];
        outcome := Step(input);
        consumed := consumed + 1;
      }
    }
  }
}
