/** The shapes the consumer exchanges with a Cloud Pub/Sub subscription, and a scripted
    stand-in for everything outside the consumer: the service, the clock, the health-check
    file and the processing callback.  Every interaction is recorded in one event trace, so
    that the order of pulls, pauses, callbacks and acknowledgements can be stated. */
module PubSub {

  datatype Option<+T> = None | Some(value: T)

  /** A decoded payload. */
  type Bytes = seq<bv8>

  /** The clock counts milliseconds; the time window and the pause are whole seconds. */
  const TicksPerSecond: int := 1000

  /** How long one pull call takes: every call lasts at least one tick. */
  type Latency = n: int | 1 <= n witness 1

  /** The `message` object of a received envelope, as a JSON object of string fields. */
  datatype Message = Message(fields: map<string, string>)

  /** One element of a pull response's `receivedMessages`; a missing `message` is None. */
  datatype Envelope = Envelope(ackId: string, message: Option<Message>)

  /** What one pull call gives back: a response whose `receivedMessages` key may be
      absent, or a transport error raised by the call. */
  datatype PullReply = Response(receivedMessages: Option<seq<Envelope>>) | TransportError

  /** One scripted pull call: its reply and how long it took. */
  datatype Exchange = Exchange(reply: PullReply, latency: Latency)

  /** The body of a pull request, with the subscription it is addressed to. */
  datatype PullRequest = PullRequest(subscription: string, maxMessages: int, returnImmediately: bool)

  datatype Event =
    | HealthTouch
    | Pull(request: PullRequest)
    | Pause(seconds: int)
    | Handle(payload: Bytes)
    | Acknowledge(subscription: string, ackIds: seq<string>)

  /** The envelopes a reply adds to the accumulator: its `receivedMessages` when present. */
  function Received(reply: PullReply): seq<Envelope>
  {
    if reply.Response? && reply.receivedMessages.Some? then reply.receivedMessages.value else []
  }

  /** The callback events for a batch of payloads, in order. */
  function HandleEvents(payloads: seq<Bytes>): (t: seq<Event>)
    ensures |t| == |payloads|
    ensures forall i :: 0 <= i < |payloads| ==> t[i] == Handle(payloads[i])
  {
    if payloads == [] then [] else HandleEvents(payloads[..|payloads| - 1]) + [Handle(payloads[|payloads| - 1])]
  }

  /** One more callback appends its event to a trace that already holds the earlier ones. */
  lemma HandleEventsSnoc(before: seq<Event>, payloads: seq<Bytes>, p: Bytes)
    ensures before + HandleEvents(payloads + [p]) == (before + HandleEvents(payloads)) + [Handle(p)]
  {
    assert (payloads + [p])[..|payloads|] == payloads;
  }

  /** The world around the consumer.  The k-th pull, acknowledge and callback call is
      answered by `pullScript(k)`, `ackScript(k)` (false: the call raised) and
      `callbackScript(k)` (false: the callback raised). */
  class Environment {
    const pullScript: nat -> Exchange
    const ackScript: nat -> bool
    const callbackScript: nat -> bool
    var clock: int
    var pullsDone: nat
    var acksDone: nat
    var callbacksDone: nat
    var trace: seq<Event>

    constructor (pullScript: nat -> Exchange, ackScript: nat -> bool, callbackScript: nat -> bool, clock: int)
      ensures this.pullScript == pullScript && this.ackScript == ackScript
      ensures this.callbackScript == callbackScript && this.clock == clock
      ensures pullsDone == 0 && acksDone == 0 && callbacksDone == 0 && trace == []
    {
      this.pullScript := pullScript;
      this.ackScript := ackScript;
      this.callbackScript := callbackScript;
      this.clock := clock;
      pullsDone, acksDone, callbacksDone, trace := 0, 0, 0, [];
    }

    /** Reads the clock. */
    method Now() returns (t: int)
      ensures t == clock
    {
      t := clock;
    }

    /** Touches the health-check file. */
    method Touch()
      modifies this
      ensures trace == old(trace) + [HealthTouch]
      ensures clock == old(clock) && pullsDone == old(pullsDone)
      ensures acksDone == old(acksDone) && callbacksDone == old(callbacksDone)
    {
      trace := trace + [HealthTouch];
    }

    /** Issues one pull call; the clock advances by the call's latency. */
    method Pull(request: PullRequest) returns (reply: PullReply)
      modifies this
      ensures reply == pullScript(old(pullsDone)).reply
      ensures clock == old(clock) + pullScript(old(pullsDone)).latency
      ensures pullsDone == old(pullsDone) + 1
      ensures trace == old(trace) + [Event.Pull(request)]
      ensures acksDone == old(acksDone) && callbacksDone == old(callbacksDone)
    {
      var exchange := pullScript(pullsDone);
      reply := exchange.reply;
      clock := clock + exchange.latency;
      pullsDone := pullsDone + 1;
      trace := trace + [Event.Pull(request)];
    }

    /** Blocks for a whole number of seconds. */
    method Sleep(seconds: nat)
      modifies this
      ensures clock == old(clock) + seconds * TicksPerSecond
      ensures trace == old(trace) + [Pause(seconds)]
      ensures pullsDone == old(pullsDone) && acksDone == old(acksDone)
      ensures callbacksDone == old(callbacksDone)
    {
      clock := clock + seconds * TicksPerSecond;
      trace := trace + [Pause(seconds)];
    }

    /** Issues one acknowledge call; `ok` is false when it raised. */
    method Acknowledge(subscription: string, ackIds: seq<string>) returns (ok: bool)
      modifies this
      ensures ok == ackScript(old(acksDone))
      ensures acksDone == old(acksDone) + 1
      ensures trace == old(trace) + [Event.Acknowledge(subscription, ackIds)]
      ensures clock == old(clock) && pullsDone == old(pullsDone)
      ensures callbacksDone == old(callbacksDone)
    {
      ok := ackScript(acksDone);
      acksDone := acksDone + 1;
      trace := trace + [Event.Acknowledge(subscription, ackIds)];
    }

    /** Hands one payload to the processing callback; `returned` is false when it raised. */
    method Invoke(payload: Bytes) returns (returned: bool)
      modifies this
      ensures returned == callbackScript(old(callbacksDone))
      ensures callbacksDone == old(callbacksDone) + 1
      ensures trace == old(trace) + [Event.Handle(payload)]
      ensures clock == old(clock) && pullsDone == old(pullsDone) && acksDone == old(acksDone)
    {
      returned := callbackScript(callbacksDone);
      callbacksDone := callbacksDone + 1;
      trace := trace + [Event.Handle(payload)];
    }
  }

  /** A growable list of envelopes, passed by reference and extended in place. */
  class EnvelopeList {
    var items: seq<Envelope>

    constructor ()
      ensures items == []
    {
      items := [];
    }

    method Extend(more: seq<Envelope>)
      modifies this
      ensures items == old(items) + more
    {
      items := items + more;
    }
  }
}
