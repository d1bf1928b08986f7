# Batching Pub/Sub sink, modelled in Dafny

This project models the batching consumer of 22Acacia's `sink-examples`. The consumer is a
`PubSubSubscription` object that pulls messages from a Cloud Pub/Sub subscription until a
batch is full or a time window has elapsed. It then decodes the payloads, records their ack
ids, and later acknowledges them. A launcher loop drives it. Each pass of that loop pulls a
batch, hands every payload to a processing callback in order, and acknowledges the batch
once every callback has returned. An error anywhere in a pass is caught at the end of the
pass, and the loop goes on.

The model has four modules:

- `PubSub` (`pubsub.dfy`) holds the wire shapes: envelopes, messages, pull requests and
  replies. It also holds the `Environment` class, a scripted stand-in for the Pub/Sub
  service, the clock, the health-check file and the processing callback.
  - Call number k of pull, acknowledge or callback is answered by `pullScript(k)`,
    `ackScript(k)` or `callbackScript(k)`.
  - Every interaction is appended to one event trace, so the order of touches, pulls,
    pauses, callbacks and acknowledgements can be stated.
  - `EnvelopeList` is the caller's list that the accumulation loop extends in place.
- `Sinks` (`sinks.dfy`) models `sinks.py`. Its `Subscription` class has the fields
  `batchSize`, `timeWindow`, `projName`, `subName` and `ackIds`, plus the environment.
  - The accumulation loop is specified by the function `Wait`. It returns the final
    accumulator, the clock, one `Round` per pass (the size asked for and the exchange that
    answered it) and whether a pull raised.
  - The decode loop is specified by `DecodeAll`. `Deliverables` and `AckIdsOf` are an
    independent reference definition: keep the envelopes that carry a message, then read
    off their ack ids.
  - The methods are proved against these functions, and the lemmas prove what the source
    promises about the functions.
- `Driver` (`driver.dfy`) models one pass of `main`'s loop (`RunIteration`) and a bounded
  number of passes (`Run`). The callback sequence is specified by `RunCallbacks`.
- `Scenarios` (`scenarios.dfy`) works through concrete runs: a batch filled by count, a
  batch cut by time, an envelope without a message, and a callback that raises mid-batch.

Time is an integer clock in milliseconds. Each pull call takes at least one tick, and the
pause after a pull that returned `receivedMessages` takes one second (1000 ticks).
`base64.b64decode` is a parameter `decode: string -> Option<Bytes>`, where `None` means the
decoder raised.

Where the code's behaviour is easy to misread, the model follows the code:

- The loop pauses after every reply that carries the `receivedMessages` key, even if the
  list is empty. A reply without the key gets no pause.
- A pass whose accumulator stays empty returns no messages and leaves `ack_ids` as the
  previous pass left it. So `len(messages) == len(ack_ids)` holds only when something was
  accumulated. The launcher does not acknowledge after an empty pass, so stale ids are
  never sent.
- The decode loop runs inside `finally`. If `b64decode` raises, the error escapes
  `pull_messages`, which returns nothing. `ack_ids` then holds the ids recorded before the
  failing envelope. The launcher catches the error, and that pass neither calls back nor
  acknowledges.
- A missing `data` field is read as the text `"None"`, because the source decodes
  `str(None)`.

## Model

| member | source | states |
|---|---|---|
| Sinks.EffectiveBatchSize | sink-examples/sinks.py:73-75 | the effective batch size never exceeds 1000; a configured value of at most 1000 is kept, and a larger one becomes exactly 1000 |
| Sinks.Subscription.constructor | sink-examples/sinks.py:59-75 | the new object holds the clamped batch size, the given window and names, and an empty `ackIds` |
| Sinks.FqrnRoundTrip | sink-examples/sinks.py:86-88 | a name built from a slash-free project and resource type parses back into exactly those three parts, so no information is lost by the `projects/{}/{}/{}` format |
| Sinks.ParseFqrnSound | sink-examples/sinks.py:86-88 | every string that parses is the fully qualified name of its parts, so the parser inverts the builder and accepts nothing else |
| Sinks.FullSubscriptionNameInjective | sink-examples/sinks.py:91-93 | two subscriptions of slash-free projects have the same full name exactly when project and subscription are both equal |
| Sinks.WaitAdvance | sink-examples/sinks.py:99-115 | one pass either ends the loop with the failed flag on a transport error, or appends its reply's `receivedMessages`, advances the clock by the call and the pause, and leaves the rest of the loop to the next pass |
| Sinks.WaitStop | sink-examples/sinks.py:99 | once the batch is full or the window has elapsed, the loop makes no further pull and ends without error |
| Sinks.WaitFollowsScript | sink-examples/sinks.py:110-112 | the k-th pass of the loop is answered by pull call number `pulls + k`: pulls happen one per pass, in order |
| Sinks.WaitAppends | sink-examples/sinks.py:113-114 | the loop only appends: the final accumulator is the entry accumulator followed by every reply's `receivedMessages` in pull order, so the entry contents are a prefix |
| Sinks.WaitRequests | sink-examples/sinks.py:101-109 | the k-th pull asks for the batch size minus the entry accumulator minus everything earlier pulls brought, which is at least 1 |
| Sinks.WaitBounded | sink-examples/sinks.py:99-114 | if every reply brings at most its `maxMessages`, an accumulator that started within the batch size ends within it |
| Sinks.WaitExit | sink-examples/sinks.py:99-115 | the loop ends without error only on a full batch or an elapsed window, so an empty reply never ends it; it raised exactly when its last pull was a transport error, and every earlier pull got a response |
| Sinks.WaitClock | sink-examples/sinks.py:98-115 | the final clock is the start plus the pull latencies and the one-second pauses, and every pass began inside the time window |
| Sinks.WaitOvershoot | sink-examples/sinks.py:98-115 | the loop returns no later than the time window plus the last pass's pull call and pause |
| Sinks.Subscription.WaitForMessages | sink-examples/sinks.py:96-115 | the in-place loop leaves `allMsgs`, the clock, the pull count, the raised flag and the trace (touch, pull with `returnImmediately` and `maxMessages`, pause when `receivedMessages` is present) exactly as `Wait` predicts from the entry state |
| Sinks.Subscription.PullRound | sink-examples/sinks.py:100-115 | one pass touches the health file, pulls the room left in the batch from the full subscription name, extends the list by the reply's `receivedMessages` and pauses one second only when that key is present |
| Sinks.DecodeAll | sink-examples/sinks.py:130-136 | the decode pass collects as many payloads as ack ids, never more than there are envelopes |
| Sinks.DecodeAllOk | sink-examples/sinks.py:132-135 | the decode pass succeeds exactly when every envelope carrying a non-empty message has data that decodes |
| Sinks.DecodeAllMatches | sink-examples/sinks.py:130-136 | on success the payloads and ack ids are in lockstep: the i-th payload is the decoded data of the i-th message-carrying envelope, and the i-th ack id is that envelope's; envelopes without a message contribute to neither |
| Sinks.DecodeAllFailure | sink-examples/sinks.py:127-137 | when a decode raises, it is on the first message-carrying envelope whose data does not decode, and the lists hold exactly what the envelopes before it produced |
| Sinks.DecodeAllStuck | sink-examples/sinks.py:132-135 | once a decode has raised, later envelopes change nothing |
| Sinks.Subscription.DecodeMessages | sink-examples/sinks.py:130-136 | the decode loop rebuilds `ackIds` from empty and returns what `DecodeAll` specifies; on a decode error it reports the raise and keeps the ids recorded so far |
| Sinks.Subscription.PullMessages | sink-examples/sinks.py:118-137 | a pull error is swallowed and what was accumulated before it is still decoded; `ackIds` is rebuilt only when the accumulator is non-empty, and an empty accumulator returns nothing, raises nothing and keeps the old `ackIds` |
| Sinks.Subscription.AckMessages | sink-examples/sinks.py:140-146 | one acknowledge call sends exactly the current `ackIds` to the full subscription name and leaves `ackIds` unchanged |
| PubSub.Environment.Touch | sink-examples/sinks.py:32-36 | touching the health-check file is one trace event and changes nothing else |
| PubSub.Environment.Pull | sink-examples/sinks.py:110-112 | a pull call returns the scripted reply, takes its scripted latency and is recorded with its request |
| PubSub.Environment.Sleep | sink-examples/sinks.py:115 | a pause advances the clock by whole seconds and is recorded |
| PubSub.Environment.Acknowledge | sink-examples/sinks.py:145 | an acknowledge call returns the scripted outcome and is recorded with its ack ids |
| PubSub.Environment.Invoke | sink-examples/main.py:26-32 | a callback call returns the scripted outcome and is recorded with its payload |
| Driver.RunCallbacks | sink-examples/main.py:58-61 | all callbacks return exactly when every scripted call does, and then there is one call per message; otherwise the calls stop right after the first one that raised |
| Driver.CallbacksStuck | sink-examples/main.py:58-61 | after a callback has raised, a longer batch ends the same way: no later message is handed over |
| Driver.Deliver | sink-examples/main.py:58-61 | the payloads are handed to the callback once each, in order, up to and including the first call that raises; nothing but the callback count and the trace changes |
| Driver.RunIteration | sink-examples/main.py:51-69 | a pass returns the decoded payloads (none if decoding raised) and calls back only on a non-empty batch. It acknowledges exactly when the batch was non-empty and every callback returned, and then sends one ack id per message, in order. It reports a caught error exactly when decoding, a callback or the acknowledge raised. The trace is the pulls, then the callbacks, then the acknowledgement |
| Driver.Run | sink-examples/main.py:50-69 | the loop runs every requested pass whatever a pass raised; every pass has the shape above, and the callback and acknowledge counts add up over the passes |
| Scenarios.FilledByCount | sink-examples/sinks.py:99-115 | a batch of five in a ten-second window, answered by two and then three messages, is complete after two pulls asking for five and for three, 2002 ms after the start |
| Scenarios.CutByTime | sink-examples/sinks.py:99-115 | a batch of a hundred in a two-second window, answered by one message per pull, ends with two messages once the window has elapsed |
| Scenarios.SkipsMissingMessage | sink-examples/sinks.py:132-136 | an envelope without a message is neither decoded nor acknowledged, and raises nothing |
| Scenarios.SecondCallbackRaises | sink-examples/main.py:58-69 | when the callback raises on the second of three messages, two calls are made and not all returned, so the third message is never handed over and, by `RunIteration`, the pass does not acknowledge |

## Left out

- Logging (`get_logger`, every `logger.debug` and `logger.error` call) is left out: it never affects control flow.
- Reading the configuration file is left out; the batch size, time window and names are constructor parameters.
- `num_retries` is left out: it is read but never used.
- Credentials and the `discovery` client are left out; the environment's scripted pull and acknowledge calls stand in for the service.
- Real time is left out. The clock is an integer in milliseconds that only pulls and pauses advance, and every pull takes at least one tick; this assumption is what makes the accumulation loop terminate.
- `base64.b64decode` is a parameter rather than a codec (it implements section 4 of RFC 4648), so the byte-level round trip of encoding and decoding is not modelled.
- The `print` callback is a scripted outcome per call (returned or raised); what it prints is not modelled.
- The launcher's `while True` loop is run for a given number of passes.
- Sinks.Subscription.WaitForMessages: only the pull call can raise. Errors from touching the health file or from sleeping are not modelled.
- Sinks.Subscription.PullMessages: when a decode raises, the returned `messages` is an empty placeholder that callers must ignore, since the source returns no value then.
- Message fields are strings, and an envelope always has an `ackId`. A missing `ackId`, which the source would record as `None`, is not modelled.
- Driver.Run: states the shape of every pass and the total callback and acknowledge counts. It does not restate each pass's trace; `RunIteration` states that per pass.
