# timesync: a verified model of the offset algebra and the slave state machine

This project models the core of `timesync`, a clock-synchronisation protocol over broadcast UDP. A master broadcasts `Sync` followed by `FollowUp(t1)`. A slave answers with `DelayReq`, and the master replies with `DelayResp(t2')`. From the four timestamps of a round the slave computes one offset sample. It keeps the samples in a bounded window and publishes the window's mean to the hosting application as a stream of notifications.

The model has three modules:

- `TimeOffsets` (`timeoffset.dfy`) models `src/lib.rs`. It defines the sign-and-magnitude type `TimeOffset = Later(d) | Earlier(d)` with `d >= 0`, and the operators `diff`, `correct`, `+`, unary `-`, `-`, `+=`, `-=`, `/ i32` and `Default`. Instants are integer nanoseconds and magnitudes are natural numbers.
  - `Value(Earlier d) = d` and `Value(Later d) = -d` read an offset as a signed integer.
  - Each operator's contract relates it to signed integer arithmetic on `Value`; for `/` that is the lemma `DivTruncatesTowardZero`, while `Div`'s own contract gives magnitude and tag. The contract also gives the tag the result carries when the value is zero.
  - Lemmas state the algebraic laws as they actually hold. Commutativity and `x + (-x) = 0` hold on values. `Later(0)` is a left identity but not a right identity for `Earlier(0)`.
- `OffsetWindow` (`window.dfy`) models the bounded FIFO of samples and the mean computation in `src/client.rs`. `Push` appends a sample and evicts the oldest one when full. `SumOffsets` is the left fold of `+=` starting from `Later(0)`. `MeanOffset` is the summation loop followed by the division, and `MeanIsTruncatedAverage` reads its result on values.
- `Client` (`client.dfy`) models the per-datagram body of the slave's `serve` loop.
  - `React` is a pure function giving the effect of one event: next state, next window, reply datagram and notification. It takes an `Estimator`, which says which expression a completed round uses for its sample. `AsWritten` is the expression at src/client.rs:133. `Midpoint` is the corrected one (see Findings).
  - The class `Server` holds the round state, the window, the notifications delivered and the datagrams sent. `Step` handles one event in place and `Serve` loops over a finite run of inputs. `Step` is proved against `StepRun`, the pure effect of one iteration built on `React`. `Serve` is proved against `Resume`, which carries a partial run on over further inputs, one `StepRun` each. The `Server` runs the `AsWritten` estimator, so it pushes exactly the sample the source computes.
  - Things the loop obtains from outside become inputs: the decoded datagram or decode error or receive error, the clock reading, the outcome of the `DelayReq` send, and whether the notification channel accepted the notification. A refused notification ends the loop, as `?` does in the source.

Two natural expectations about the zero offset do not hold for the code, and the model follows the code:
- One might expect `diff(t, t) == Later(0)`, the default. The instant difference of two equal instants is in fact `Earlier(0)` (`DiffOfEqualInstants`).
- One might expect `x + (-x) == Later(0)`. That holds only when `x` is an `Earlier`. For a `Later` it is `Earlier(0)` (`AddNegIsZero`).

## Model

| member | source | states |
|---|---|---|
| TimeOffsets.Diff | src/lib.rs:15-21 | the value of `diff(base, sample)` is `sample - base`, and it is tagged `Later` exactly when `sample < base` |
| TimeOffsets.Correct | src/lib.rs:23-28 | applying an offset moves the instant by the offset's value: `Earlier(d)` advances it by `d` and `Later(d)` retards it by `d` |
| TimeOffsets.Add | src/lib.rs:52-67 | the sum's value is the sum of the operands' values, and a zero sum carries the right operand's tag |
| TimeOffsets.Neg | src/lib.rs:70-79 | negation keeps the magnitude, flips the tag and negates the value |
| TimeOffsets.Sub | src/lib.rs:81-86 | the difference's value is `Value(a) - Value(b)`, and a zero difference carries the tag opposite to `b`'s |
| TimeOffsets.AddAssign | src/lib.rs:88-92 | the value `a += b` stores is `Value(a) + Value(b)`, and a zero result carries `b`'s tag |
| TimeOffsets.SubAssign | src/lib.rs:94-98 | the value `a -= b` stores is `Value(a) - Value(b)`, and a zero result carries the tag opposite to `b`'s |
| TimeOffsets.Div | src/lib.rs:100-115 | for `n != 0` the magnitude becomes `d / abs(n)`, and the tag is kept for `n > 0` and flipped for `n < 0` |
| TimeOffsets.DivTruncatesTowardZero | src/lib.rs:100-115 | on values, division is integer division truncated toward zero: the quotient's magnitude is `abs(value) / abs(n)`, and it is nonnegative when value and divisor agree in sign and nonpositive when they differ |
| TimeOffsets.Default | src/lib.rs:117-121 | the default offset is the zero tagged `Later` |
| TimeOffsets.DiffOfEqualInstants | src/lib.rs:15-21 | equal instants give `Earlier(0)`, which differs from the default `Later(0)` |
| TimeOffsets.CorrectAfterDiff | src/lib.rs:15-28 | round trip: `diff(base, sample).correct(base) == sample` |
| TimeOffsets.DiffAfterCorrect | src/lib.rs:15-28 | round trip the other way: `diff(base, x.correct(base)) == x`, except that `Later(0)` comes back as `Earlier(0)` |
| TimeOffsets.AddCommutes | src/lib.rs:52-67 | `+` commutes on values; it commutes structurally if and only if the sum is nonzero or both operands have the same tag |
| TimeOffsets.OppositeEqualMagnitudes | src/lib.rs:57-64 | `Earlier(t) + Later(t) == Later(0)` but `Later(t) + Earlier(t) == Earlier(0)` |
| TimeOffsets.AddAssociatesInValue | src/lib.rs:52-67 | `+` is associative on values |
| TimeOffsets.DefaultIsLeftIdentity | src/lib.rs:55-66 | `Later(0) + x == x` for every `x` |
| TimeOffsets.DefaultIsRightIdentityExceptEarlierZero | src/lib.rs:55-66 | `x + Later(0) == x` for every `x` except `Earlier(0)`, for which it gives `Later(0)` |
| TimeOffsets.NegInvolutive | src/lib.rs:70-79 | `-(-x) == x` |
| TimeOffsets.AddNegIsZero | src/lib.rs:52-79 | `x + (-x)` has value 0; it is `Later(0)` for an `Earlier` and `Earlier(0)` for a `Later` |
| TimeOffsets.SubIsAddNeg | src/lib.rs:81-98 | `a - b == a + (-b)`; `-=` and `+=` store `a - b` and `a + b` |
| TimeOffsets.DivByUnit | src/lib.rs:100-115 | `x / 1 == x` and `x / -1 == -x` |
| OffsetWindow.Push | src/client.rs:142-145 | a push appends the sample and evicts at most the single oldest sample, keeping arrival order; it evicts exactly when the window was already full; a window within capacity ends with `min(len + 1, capacity)` samples, the newest last |
| OffsetWindow.PushAllKeepsNewest | src/client.rs:142-145 | after any run of pushes into a window within capacity, the window holds exactly the newest `capacity` samples (all of them if fewer), in arrival order |
| OffsetWindow.DefaultWindowHoldsLatest64 | src/client.rs:36-43 | with the default configuration the window holds the samples of the latest 64 rounds (all of them when there were fewer), oldest first |
| OffsetWindow.SumOffsets | src/client.rs:147-150 | the `+=` fold over the window from `Later(0)` has the sum of the sample values as its value |
| OffsetWindow.MeanOffset | src/client.rs:147-151 | the summation loop followed by the division yields the `+=` fold of the whole window divided by the window length |
| OffsetWindow.MeanIsTruncatedAverage | src/client.rs:147-151 | the mean's magnitude is the absolute sum of the sample values divided by the count, and its sign is the sum's |
| OffsetWindow.SumOfEqualValues | src/client.rs:147-150 | a window whose samples all have value `v` sums to `len * v` |
| OffsetWindow.DivOfMultiple | src/lib.rs:100-115 | dividing an offset of value `k * v` by `k > 0` gives value exactly `v` |
| OffsetWindow.MeanOfEqualValues | src/client.rs:147-151 | when every sample has value `v`, the mean has value exactly `v` |
| OffsetWindow.PushOfEqualValues | src/client.rs:142-151 | pushing a sample of value `v` into a window of samples of value `v` keeps all samples at `v`, and the new mean has value `v` |
| OffsetWindow.MeanOfOneSample | src/client.rs:147-151 | the mean of a single sample is that sample |
| OffsetWindow.WindowOfOneHoldsLatest | src/client.rs:142-151 | with `mean_window = 1` a push leaves only the new sample, and the mean is that sample |
| Client.RoundSampleAsWritten | src/client.rs:131-133 | the sample as written is the Sync offset `t1 - t1_` plus half the DelayReq offset `t2' - t2`, truncated toward zero |
| Client.RoundSample | src/client.rs:131-133 | the corrected sample is half of `(t1 - t1_) + (t2' - t2)`, truncated toward zero |
| Client.RoundSampleRecoversSkew | src/client.rs:131-133 | with slave skew `S` and equal one-way delays, the corrected sample has value `-S`, and correcting a local instant with it gives the master's instant |
| Client.RoundSampleAsWrittenIsBiased | src/client.rs:131-133 | with no skew and delay `d > 0`, the sample as written has value `-d + d/2 < 0`, while the corrected sample is 0 |
| Client.RoundSampleAsWrittenExample | src/client.rs:131-133 | the round `t1 = 0, t1_ = 10, t2 = 20, t2' = 30` gives `Later(5)` as written and `Earlier(0)` corrected |
| Client.ReactFollowsTable | src/client.rs:85-171 | the full transition table of `React`, stated in the items below; with `AsWritten` a completed round pushes `diff(t1_, t1) + diff(t2, t2') / 2` |
| Client.ExampleRoundPublishes | src/client.rs:129-157 | on the round `t1_ = 10, t1 = 0, t2 = 20, t2' = 30` with `mean_window = 1` and an empty window, the loop as written publishes `ChangeOffset(Later(5))`, and the corrected loop publishes `ChangeOffset(Earlier(0))` |
| Client.WindowOfOnePublishesLatest | src/client.rs:129-157 | with `mean_window = 1` a completed round publishes its own sample, as computed by either estimator |
| Client.ConstantSkewIsPublished | src/client.rs:129-151 | for the loop as written, with slave skew `S` and equal one-way delays `d`: if every sample in the window has the value `v` of the round's sample, then after the push every sample still has value `v` and the published mean has value `v`; `2v` lies within 1 of `-(d + 3S)` |
| Client.RoundSampleAsWrittenUnderSkew | src/client.rs:131-133 | with slave skew `S` and equal one-way delays `d`, twice the sample as written lies within 1 ns of `-(d + 3S)` |
| Client.ConstantSkewIsPublishedCorrected | src/client.rs:129-151 | for the corrected sample, under the same skew and delays: a window holding only samples of value `-S` keeps that after the push, and the published mean has value `-S` |
| Client.StepRun | src/client.rs:83-172 | one iteration consumes one input and produces at most one notification and one datagram. It stops exactly when `React` emits a notification that the channel refuses, and then it carries that notification, delivers nothing and leaves the state as it was. Otherwise it takes `React`'s next state and notification. In both cases the window is `React`'s and the datagram sent is `React`'s reply, and the window stays within `mean_window` |
| Client.ResumeStopsOnlyOnRefusedDelivery | src/client.rs:77-174 | carrying on a running loop over further inputs consumes all of them unless it stops; when it stops, the last input consumed is one whose notification the channel did not accept |
| Client.ResumeStopsOnRefusedNotification | src/client.rs:77-174 | when a carried-on loop stops, the loop was still running before its last input, that input's iteration (as `React` gives it) emitted a notification, the channel refused it, and `Stopped` carries exactly that notification, so the loop never stops on a silent step. `Apply` is this from the empty run, and `Server.Serve` is stated through `Resume` |
| Client.ResumeBounds | src/client.rs:77-174 | carrying on a loop adds at most one notification and one datagram per input consumed, and the window never exceeds `mean_window` |
| Client.ApplyStopsOnlyOnRefusedDelivery | src/client.rs:77-174 | a run of the loop consumes every input unless it stops; when it stops, the last input consumed is one whose notification the channel did not accept |
| Client.ApplyBounds | src/client.rs:77-174 | a run delivers at most one notification and sends at most one datagram per input, and the window never exceeds `mean_window` |
| Client.Server.constructor | src/client.rs:60-81 | a new slave starts `Cleared` with an empty window and no notifications; `mean_window >= 1` |
| Client.Server.Deliver | src/client.rs:155-157 | a notification is appended to the delivered sequence if the channel accepts it; otherwise the loop is marked stopped |
| Client.Server.Step | src/client.rs:83-172 | one iteration updates the state, window, sent datagrams and delivered notifications exactly as `StepRun` (and so `React`, with the as-written sample) says. If the notification is refused, it stops with that notification, the window already pushed and the state not advanced |
| Client.Server.CompleteRound | src/client.rs:129-165 | a completed round pushes the sample as written (`diff(t1_, t1) + diff(t2, t2') / 2`) into the window and delivers `ChangeOffset` with the new window's mean, then clears the state; if the notification is refused it stops with it, the window already pushed and the state not cleared |
| Client.Server.Serve | src/client.rs:77-174 | the loop's final state, window, notifications, datagrams, outcome and input count are the run `Resume`, with the as-written sample, carries on from the slave's state before the call over the inputs, and it is stopped exactly when the outcome is `Stopped` |

`Client.ReactFollowsTable` states the following about `Client.React`:
- An undecodable datagram or a receive error leaves state and window unchanged and yields exactly one `InvalidMessageFormat` or `Io`.
- The next state follows the table: `Cleared + Sync` goes to `SyncReceived(now)`, `SyncReceived + FollowUp(t1)` goes to `FollowUpReceived(t1_, t1, now)`, and every other message goes to `Cleared`.
- `InvalidMessageSequence` is emitted if and only if the message is out of sequence.
- No notification is emitted if and only if the event is an accepted `Sync`, or a `FollowUp` whose `DelayReq` went out.
- A `DelayReq` is sent to the `FollowUp`'s source if and only if the send succeeds. A failed send yields `Io` and the state still advances.
- Only a completed round changes the window. It pushes the round's sample and emits `ChangeOffset` with the mean of the new window.
- The window stays within `mean_window`.

## Findings

| source | as written | input that shows it | evidently intended | confidence | as-written member | corrected member |
|---|---|---|---|---|---|---|
| src/client.rs:133 | `diff_t1 + diff_t2 / 2`: division binds tighter, so only the DelayReq offset is halved. With slave skew `S` and one-way delay `d`, twice the sample's value lies within 1 ns of `-(3S + d)` (`Client.RoundSampleAsWrittenUnderSkew`) | clocks in agreement and delay 10 ns: `t1 = 0, t1_ = 10, t2 = 20, t2' = 30` gives `Later(5)`, which would move a correct clock back 5 ns | `(diff_t1 + diff_t2) / 2`: with symmetric delay this gives exactly `-S`, so correcting the local clock yields the master's time | medium, not executed | Client.RoundSampleAsWrittenIsBiased | Client.RoundSampleRecoversSkew |

The transition table and the loop are stated for both estimators. The `Server` class runs `AsWritten`, so it pushes the sample the source computes. `React`, `StepRun`, `Resume` and `Apply` with `Midpoint` give the corrected slave, and the lemmas about the loop hold for both. `Client.ConstantSkewIsPublished` states the steady state of the loop as written. `Client.ConstantSkewIsPublishedCorrected` states the intended one: the published mean is `-S`. `Client.RoundSampleAsWrittenExample` and `Client.ExampleRoundPublishes` evaluate both on the concrete round above.

## Left out

- `src/server.rs` (the master) is not part of this model. It is a spawned beacon loop and a responder loop sharing one socket, so its content is concurrency and socket I/O. Its decisions are trivial: sleep for the rest of the period, and answer `DelayReq` with `DelayResp(now)`.
- `examples/cli.rs` (argument parsing and logging set-up) is not part of this model.
- The MessagePack encoding and decoding, and the 1024-byte receive buffer (including truncation of larger datagrams). Decoding is an input: a decoded message or a decode error.
- Sockets, the clock, the notification channel's capacity and backpressure, and the `tracing` log calls. Each becomes an input of a step: the event, `now`, the send result and whether the notification was delivered.
- The `Debug` rendering of offsets, which serves diagnostics only.
- chrono's internal representation: seconds plus nanoseconds, and overflow panics on `Duration` arithmetic. Instants and magnitudes are unbounded integers of nanoseconds.
- TimeOffsets.Div: divides the magnitude exactly, rounding down. chrono's `Duration / i32` splits seconds and nanoseconds and may come out one nanosecond lower, even on an exact multiple (1.5 s / 3 gives 499 999 999 ns). So the exact results of OffsetWindow.DivOfMultiple, OffsetWindow.MeanOfEqualValues, OffsetWindow.PushOfEqualValues, Client.RoundSampleRecoversSkew, Client.ConstantSkewIsPublished and Client.ConstantSkewIsPublishedCorrected hold for exact division only. The divisor is an unbounded integer, so the overflow of `i32::abs` at `i32::MIN` is not modelled.
- OffsetWindow.MeanOffset: divides by the window length itself. The `as i32` cast at src/client.rs:151 would truncate lengths above `i32::MAX`, and that is not modelled.
- Client.Server.constructor: requires `mean_window >= 1`. With 0 the source empties the window after the push and then divides by zero, which panics at src/client.rs:151. That panic is not modelled.
- Client.Server.Serve: runs over a finite sequence of inputs and also returns when they run out. The source loops forever until a notification is refused.
- The window is a sequence that the methods reassign, not the `VecDeque` ring buffer behind it.
- The `notify_channel_buffer_size` configuration (default 1024) is not modelled, because only the channel's backpressure depends on it. The default `mean_window` of 64 is the constant `OffsetWindow.DefaultMeanWindow`.
