/** The batching consumer of sink-examples/sinks.py: the subscription object with its
    batch-size clamp, the resource-name builders, the bounded accumulation loop, the
    decode pass that records ack ids, and the acknowledge call. */
module Sinks {
  import opened PubSub

  /** The largest batch the consumer ever asks for. */
  const MaxBatchSize: int := 1000

  /** The batch size in force after construction. */
  function EffectiveBatchSize(configured: int): (r: int)
    ensures r <= MaxBatchSize
    ensures configured <= MaxBatchSize ==> r == configured
    ensures configured > MaxBatchSize ==> r == MaxBatchSize
  {
    if configured > MaxBatchSize then MaxBatchSize else configured
  }

  // ---------------------------------------------------------------------------
  // Resource names

  /** The fully qualified name of a Pub/Sub resource. */
  function Fqrn(resourceType: string, project: string, resource: string): string
  {
    "projects/" + project + "/" + resourceType + "/" + resource
  }

  /** The fully qualified name of a subscription. */
  function FullSubscriptionName(project: string, subscription: string): string
  {
    Fqrn("subscriptions", project, subscription)
  }

  /** The position of the first `c` in `s`, if any. */
  function IndexOf(s: string, c: char): (r: Option<nat>)
    ensures r.Some? ==> r.value < |s| && s[r.value] == c && c !in s[..r.value]
    ensures r.None? ==> c !in s
  {
    if s == [] then None
    else if s[0] == c then Some(0)
    else
      match IndexOf(s[1..], c)
      case None => None
      case Some(i) =>
        assert s[..i + 1] == [s[0]] + s[1..][..i];
        Some(i + 1)
  }

  /** Splits `s` around its first `c`. */
  function SplitAt(s: string, c: char): Option<(string, string)>
  {
    match IndexOf(s, c)
    case None => None
    case Some(i) => Some((s[..i], s[i + 1..]))
  }

  /** Reads a fully qualified name back into (resource type, project, resource). */
  function ParseFqrn(name: string): Option<(string, string, string)>
  {
    if |name| < 9 || name[..9] != "projects/" then None
    else
      match SplitAt(name[9..], '/')
      case None => None
      case Some((project, tail)) =>
        match SplitAt(tail, '/')
        case None => None
        case Some((resourceType, resource)) => Some((resourceType, project, resource))
  }

  lemma SplitAtSeparator(p: string, c: char, rest: string)
    requires c !in p
    ensures SplitAt(p + [c] + rest, c) == Some((p, rest))
  {
    var s := p + [c] + rest;
    assert s[..|p|] == p && s[|p|] == c && s[|p| + 1..] == rest;
    assert forall k :: 0 <= k < |p| ==> s[..|p|][k] == s[k];
  }

  lemma SplitAtSound(s: string, c: char)
    ensures match SplitAt(s, c)
            case None => c !in s
            case Some((a, b)) => s == a + [c] + b && c !in a
  {
    match IndexOf(s, c)
    case None =>
    case Some(i) =>
      assert s == s[..i] + [c] + s[i + 1..];
  }

  /** A name built from slash-free project and resource type parses back to its parts. */
  lemma FqrnRoundTrip(resourceType: string, project: string, resource: string)
    requires '/' !in project && '/' !in resourceType
    ensures ParseFqrn(Fqrn(resourceType, project, resource)) == Some((resourceType, project, resource))
  {
    var name := Fqrn(resourceType, project, resource);
    var tail := resourceType + ['/'] + resource;
    var rest := project + ['/'] + tail;
    assert name == "projects/" + rest;
    assert name[..9] == "projects/" && name[9..] == rest;
    SplitAtSeparator(project, '/', tail);
    SplitAtSeparator(resourceType, '/', resource);
  }

  /** Whatever parses is the fully qualified name of its parts, with a slash-free
      project and resource type. */
  lemma ParseFqrnSound(name: string, resourceType: string, project: string, resource: string)
    requires ParseFqrn(name) == Some((resourceType, project, resource))
    ensures name == Fqrn(resourceType, project, resource)
    ensures '/' !in project && '/' !in resourceType
  {
    var rest := name[9..];
    assert name == name[..9] + rest;
    match SplitAt(rest, '/')
    case Some((p, tail)) =>
      SplitAtSound(rest, '/');
      match SplitAt(tail, '/')
      case Some((t, r)) =>
        SplitAtSound(tail, '/');
        assert rest == project + ['/'] + (resourceType + ['/'] + resource);
        FqrnShape(resourceType, project, resource);
  }

  /** The full name as the prefix followed by the project's part and the rest. */
  lemma FqrnShape(resourceType: string, project: string, resource: string)
    ensures Fqrn(resourceType, project, resource) == "projects/" + (project + ['/'] + (resourceType + ['/'] + resource))
  {
    var p, t := "projects/" + project, resourceType + ['/'] + resource;
    assert p + ['/'] + resourceType + ['/'] + resource == p + ['/'] + t;
    assert p + ['/'] + t == "projects/" + (project + ['/'] + t);
  }

  /** Two subscriptions of slash-free projects share a full name exactly when they are the same. */
  lemma FullSubscriptionNameInjective(p1: string, s1: string, p2: string, s2: string)
    requires '/' !in p1 && '/' !in p2
    ensures FullSubscriptionName(p1, s1) == FullSubscriptionName(p2, s2) <==> p1 == p2 && s1 == s2
  {
    FqrnRoundTrip("subscriptions", p1, s1);
    FqrnRoundTrip("subscriptions", p2, s2);
  }

  // ---------------------------------------------------------------------------
  // The accumulation loop, as a function of the scripted environment

  /** What the accumulation loop reads from the subscription object. */
  datatype WaitSettings = WaitSettings(batchSize: int, timeWindow: int, subscription: string)

  /** One pass of the loop: the size it asked for and the pull call that answered. */
  datatype Round = Round(maxMessages: int, exchange: Exchange)

  /** Where the loop ends: the accumulator, the clock, the passes made, and whether a
      transport error ended it. */
  datatype WaitEnd = WaitEnd(acc: seq<Envelope>, clock: int, rounds: seq<Round>, failed: bool)

  function Join(rounds: seq<Round>, e: WaitEnd): WaitEnd
  {
    e.(rounds := rounds + e.rounds)
  }

  lemma JoinJoin(a: seq<Round>, b: seq<Round>, e: WaitEnd)
    ensures Join(a, Join(b, e)) == Join(a + b, e)
  {
    assert a + (b + e.rounds) == (a + b) + e.rounds;
  }

  /** One pass moves the loop's remaining work one step on, or ends it on a transport error. */
  lemma WaitAdvance(s: WaitSettings, script: nat -> Exchange, start: int, rounds: seq<Round>,
                    acc: seq<Envelope>, clock: int, pulls: nat, round: Round, acc': seq<Envelope>, clock': int)
    requires |acc| < s.batchSize && clock - start < s.timeWindow * TicksPerSecond
    requires round == Round(s.batchSize - |acc|, script(pulls))
    requires acc' == acc + Received(round.exchange.reply) && clock' == clock + Cost(round)
    ensures Join(rounds, Wait(s, script, start, acc, clock, pulls))
            == if round.exchange.reply.TransportError? then WaitEnd(acc', clock', rounds + [round], true)
               else Join(rounds + [round], Wait(s, script, start, acc', clock', pulls + 1))
  {
    if round.exchange.reply.TransportError? {
      assert acc' == acc;
    } else {
      JoinJoin(rounds, [round], Wait(s, script, start, acc', clock', pulls + 1));
    }
  }

  /** Once the batch is full or the window has elapsed, the loop's remaining work is empty. */
  lemma WaitStop(s: WaitSettings, script: nat -> Exchange, start: int, rounds: seq<Round>,
                 acc: seq<Envelope>, clock: int, pulls: nat)
    requires !(|acc| < s.batchSize && clock - start < s.timeWindow * TicksPerSecond)
    ensures Join(rounds, Wait(s, script, start, acc, clock, pulls)) == WaitEnd(acc, clock, rounds, false)
  {
    assert rounds + [] == rounds;
  }

  /** The loop pauses after a pull whose response carried `receivedMessages`. */
  predicate Pauses(reply: PullReply)
  {
    reply.Response? && reply.receivedMessages.Some?
  }

  /** The ticks one pass takes: the pull call, and the one-second pause when there is one. */
  function Cost(round: Round): int
  {
    round.exchange.latency + if Pauses(round.exchange.reply) then TicksPerSecond else 0
  }

  /** The loop from a given state: `start` is the clock reading taken on entry, `clock`
      the current one, `pulls` the number of pull calls made so far. */
  function Wait(s: WaitSettings, script: nat -> Exchange, start: int, acc: seq<Envelope>, clock: int, pulls: nat): WaitEnd
    decreases start + s.timeWindow * TicksPerSecond - clock
  {
    if |acc| < s.batchSize && clock - start < s.timeWindow * TicksPerSecond then
      var round := Round(s.batchSize - |acc|, script(pulls));
      if round.exchange.reply.TransportError? then WaitEnd(acc, clock + Cost(round), [round], true)
      else Join([round], Wait(s, script, start, acc + Received(round.exchange.reply), clock + Cost(round), pulls + 1))
    else
      WaitEnd(acc, clock, [], false)
  }

  /** The loop as the decode pass runs it: from an empty accumulator, just after reading the clock. */
  function Pulled(s: WaitSettings, script: nat -> Exchange, clock: int, pulls: nat): WaitEnd
  {
    Wait(s, script, clock, [], clock, pulls)
  }

  /** The events of one pass: the health-check touch, the pull, and the pause if any. */
  function RoundEvents(subscription: string, round: Round): seq<Event>
  {
    [HealthTouch, Pull(PullRequest(subscription, round.maxMessages, true))]
    + if Pauses(round.exchange.reply) then [Pause(1)] else []
  }

  function RoundsTrace(subscription: string, rounds: seq<Round>): seq<Event>
  {
    if rounds == [] then []
    else RoundsTrace(subscription, rounds[..|rounds| - 1]) + RoundEvents(subscription, rounds[|rounds| - 1])
  }

  /** One more pass appends its events to a trace that already holds the earlier passes. */
  lemma RoundsTraceSnoc(before: seq<Event>, subscription: string, rounds: seq<Round>, round: Round)
    ensures before + RoundsTrace(subscription, rounds + [round])
            == (before + RoundsTrace(subscription, rounds)) + RoundEvents(subscription, round)
  {
    assert (rounds + [round])[..|rounds|] == rounds;
  }

  /** The envelopes the passes appended, in order. */
  function Gathered(rounds: seq<Round>): seq<Envelope>
  {
    if rounds == [] then [] else Received(rounds[0].exchange.reply) + Gathered(rounds[1..])
  }

  /** The ticks the passes took. */
  function Elapsed(rounds: seq<Round>): int
  {
    if rounds == [] then 0 else Cost(rounds[0]) + Elapsed(rounds[1..])
  }

  /** Every reply brought at most what its request asked for. */
  predicate Honoured(rounds: seq<Round>)
  {
    forall k :: 0 <= k < |rounds| ==> |Received(rounds[k].exchange.reply)| <= rounds[k].maxMessages
  }

  lemma GatheredPrefix(round: Round, rest: seq<Round>, k: nat)
    requires 1 <= k <= |rest| + 1
    ensures Gathered(([round] + rest)[..k]) == Received(round.exchange.reply) + Gathered(rest[..k - 1])
  {
    assert ([round] + rest)[..k] == [round] + rest[..k - 1];
    assert ([round] + rest[..k - 1])[1..] == rest[..k - 1];
  }

  lemma ElapsedPrefix(round: Round, rest: seq<Round>, k: nat)
    requires 1 <= k <= |rest| + 1
    ensures Elapsed(([round] + rest)[..k]) == Cost(round) + Elapsed(rest[..k - 1])
  {
    assert ([round] + rest)[..k] == [round] + rest[..k - 1];
    assert ([round] + rest[..k - 1])[1..] == rest[..k - 1];
  }

  /** The pull calls are answered, in order, by the script from `pulls` on: the k-th pass
      got the answer to call number `pulls + k`. */
  lemma {:induction false} WaitFollowsScript(s: WaitSettings, script: nat -> Exchange, start: int, acc: seq<Envelope>, clock: int, pulls: nat, k: nat)
    requires k < |Wait(s, script, start, acc, clock, pulls).rounds|
    ensures Wait(s, script, start, acc, clock, pulls).rounds[k].exchange == script(pulls + k)
    decreases k
  {
    if k > 0 {
      var round := Round(s.batchSize - |acc|, script(pulls));
      var acc', clock' := acc + Received(round.exchange.reply), clock + Cost(round);
      var r' := Wait(s, script, start, acc', clock', pulls + 1);
      assert Wait(s, script, start, acc, clock, pulls).rounds == [round] + r'.rounds;
      WaitFollowsScript(s, script, start, acc', clock', pulls + 1, k - 1);
    }
  }

  /** The loop only appends: the entry accumulator is kept, followed by every reply's
      `receivedMessages` in pull order. */
  lemma {:induction false} WaitAppends(s: WaitSettings, script: nat -> Exchange, start: int, acc: seq<Envelope>, clock: int, pulls: nat)
    ensures var r := Wait(s, script, start, acc, clock, pulls);
            r.acc == acc + Gathered(r.rounds) && acc <= r.acc
    decreases start + s.timeWindow * TicksPerSecond - clock
  {
    if |acc| < s.batchSize && clock - start < s.timeWindow * TicksPerSecond {
      var ex := script(pulls);
      var round := Round(s.batchSize - |acc|, ex);
      if ex.reply.Response? {
        var acc', clock' := acc + Received(ex.reply), clock + Cost(round);
        var r' := Wait(s, script, start, acc', clock', pulls + 1);
        WaitAppends(s, script, start, acc', clock', pulls + 1);
        assert ([round] + r'.rounds)[1..] == r'.rounds;
      } else {
        assert [round][1..] == [];
        assert acc + [] == acc;
      }
    } else {
      assert acc + [] == acc;
    }
  }

  /** Every pull asks for exactly the room left in the batch, which is at least one: the
      k-th pull asks for the batch size less the entry accumulator and what the earlier
      pulls brought. */
  lemma {:induction false} WaitRequests(s: WaitSettings, script: nat -> Exchange, start: int, acc: seq<Envelope>, clock: int, pulls: nat, k: nat)
    requires k < |Wait(s, script, start, acc, clock, pulls).rounds|
    ensures var r := Wait(s, script, start, acc, clock, pulls);
            && r.rounds[k].maxMessages == s.batchSize - |acc| - |Gathered(r.rounds[..k])|
            && r.rounds[k].maxMessages >= 1
    decreases k
  {
    var round := Round(s.batchSize - |acc|, script(pulls));
    var r := Wait(s, script, start, acc, clock, pulls);
    if k == 0 {
      assert r.rounds[0] == round && r.rounds[..0] == [];
    } else {
      var acc', clock' := acc + Received(round.exchange.reply), clock + Cost(round);
      var r' := Wait(s, script, start, acc', clock', pulls + 1);
      assert r.rounds == [round] + r'.rounds;
      WaitRequests(s, script, start, acc', clock', pulls + 1, k - 1);
      GatheredPrefix(round, r'.rounds, k);
    }
  }

  /** If every reply honours its `maxMessages`, the accumulator never outgrows the batch. */
  lemma {:induction false} WaitBounded(s: WaitSettings, script: nat -> Exchange, start: int, acc: seq<Envelope>, clock: int, pulls: nat)
    ensures var r := Wait(s, script, start, acc, clock, pulls);
            Honoured(r.rounds) && |acc| <= s.batchSize ==> |r.acc| <= s.batchSize
    decreases start + s.timeWindow * TicksPerSecond - clock
  {
    if |acc| < s.batchSize && clock - start < s.timeWindow * TicksPerSecond {
      var ex := script(pulls);
      var round := Round(s.batchSize - |acc|, ex);
      if ex.reply.Response? {
        var acc', clock' := acc + Received(ex.reply), clock + Cost(round);
        var r' := Wait(s, script, start, acc', clock', pulls + 1);
        WaitBounded(s, script, start, acc', clock', pulls + 1);
        if Honoured([round] + r'.rounds) {
          assert ([round] + r'.rounds)[0] == round;
          forall k | 0 <= k < |r'.rounds|
            ensures |Received(r'.rounds[k].exchange.reply)| <= r'.rounds[k].maxMessages
          {
            assert r'.rounds[k] == ([round] + r'.rounds)[k + 1];
          }
        }
      }
    }
  }

  /** The loop ends only on a full batch, an elapsed window, or a transport error on its
      last pull; an empty reply never ends it, and no error happened before the last pull. */
  lemma {:induction false} WaitExit(s: WaitSettings, script: nat -> Exchange, start: int, acc: seq<Envelope>, clock: int, pulls: nat)
    ensures var r := Wait(s, script, start, acc, clock, pulls);
            && (!r.failed ==> |r.acc| >= s.batchSize || r.clock - start >= s.timeWindow * TicksPerSecond)
            && (r.failed <==> |r.rounds| > 0 && r.rounds[|r.rounds| - 1].exchange.reply.TransportError?)
            && (forall k :: 0 <= k < |r.rounds| - 1 ==> r.rounds[k].exchange.reply.Response?)
    decreases start + s.timeWindow * TicksPerSecond - clock
  {
    if |acc| < s.batchSize && clock - start < s.timeWindow * TicksPerSecond {
      var ex := script(pulls);
      var round := Round(s.batchSize - |acc|, ex);
      if ex.reply.Response? {
        var acc', clock' := acc + Received(ex.reply), clock + Cost(round);
        var r' := Wait(s, script, start, acc', clock', pulls + 1);
        WaitExit(s, script, start, acc', clock', pulls + 1);
        assert forall k :: 1 <= k < |r'.rounds| + 1 ==> ([round] + r'.rounds)[k] == r'.rounds[k - 1];
      }
    }
  }

  /** The clock advances by exactly the passes' pull latencies and pauses, and each pass
      began inside the time window. */
  lemma {:induction false} WaitClock(s: WaitSettings, script: nat -> Exchange, start: int, acc: seq<Envelope>, clock: int, pulls: nat)
    ensures var r := Wait(s, script, start, acc, clock, pulls);
            && r.clock == clock + Elapsed(r.rounds)
            && forall k :: 0 <= k < |r.rounds| ==> clock + Elapsed(r.rounds[..k]) - start < s.timeWindow * TicksPerSecond
    decreases start + s.timeWindow * TicksPerSecond - clock
  {
    if |acc| < s.batchSize && clock - start < s.timeWindow * TicksPerSecond {
      var ex := script(pulls);
      var round := Round(s.batchSize - |acc|, ex);
      var r := Wait(s, script, start, acc, clock, pulls);
      assert r.rounds[..0] == [];
      if ex.reply.Response? {
        var acc', clock' := acc + Received(ex.reply), clock + Cost(round);
        var r' := Wait(s, script, start, acc', clock', pulls + 1);
        WaitClock(s, script, start, acc', clock', pulls + 1);
        assert r.rounds[1..] == r'.rounds;
        forall k | 1 <= k < |r.rounds|
          ensures clock + Elapsed(r.rounds[..k]) - start < s.timeWindow * TicksPerSecond
        {
          ElapsedPrefix(round, r'.rounds, k);
        }
      } else {
        assert r.rounds[1..] == [];
      }
    }
  }

  /** The loop returns at most one pass after the window closes: the time window plus
      one pull call and one pause. */
  lemma {:induction false} WaitOvershoot(s: WaitSettings, script: nat -> Exchange, start: int, acc: seq<Envelope>, clock: int, pulls: nat)
    ensures var r := Wait(s, script, start, acc, clock, pulls);
            |r.rounds| > 0 ==> r.clock - start < s.timeWindow * TicksPerSecond + Cost(r.rounds[|r.rounds| - 1])
    decreases start + s.timeWindow * TicksPerSecond - clock
  {
    if |acc| < s.batchSize && clock - start < s.timeWindow * TicksPerSecond {
      var ex := script(pulls);
      var round := Round(s.batchSize - |acc|, ex);
      if ex.reply.Response? {
        var acc', clock' := acc + Received(ex.reply), clock + Cost(round);
        var r' := Wait(s, script, start, acc', clock', pulls + 1);
        WaitOvershoot(s, script, start, acc', clock', pulls + 1);
        if r'.rounds != [] {
          assert ([round] + r'.rounds)[|r'.rounds|] == r'.rounds[|r'.rounds| - 1];
        }
      }
    }
  }

  // ---------------------------------------------------------------------------
  // The decode pass, as a function of the accumulated envelopes

  /** An envelope whose `message` field is present and non-empty (truthy). */
  predicate Deliverable(e: Envelope)
  {
    e.message.Some? && e.message.value.fields != map[]
  }

  /** The `data` field as a string; a missing field reads as the text "None". */
  function DataField(m: Message): string
  {
    if "data" in m.fields then m.fields["data"] else "None"
  }

  /** The payloads and ack ids collected, and false in `ok` when a decode raised. */
  datatype Decoded = Decoded(payloads: seq<Bytes>, ackIds: seq<string>, ok: bool)

  /** The decode pass over the accumulator, envelope by envelope; it stops at the first
      payload that does not decode. */
  function DecodeAll(envs: seq<Envelope>, decode: string -> Option<Bytes>): (d: Decoded)
    ensures |d.payloads| == |d.ackIds| <= |envs|
  {
    if envs == [] then Decoded([], [], true)
    else
      var d := DecodeAll(envs[..|envs| - 1], decode);
      var e := envs[|envs| - 1];
      if !d.ok || !Deliverable(e) then d
      else
        match decode(DataField(e.message.value))
        case None => d.(ok := false)
        case Some(p) => Decoded(d.payloads + [p], d.ackIds + [e.ackId], true)
  }

  /** The envelopes that carry a message, in order. */
  function Deliverables(envs: seq<Envelope>): (ds: seq<Envelope>)
    ensures forall i :: 0 <= i < |ds| ==> Deliverable(ds[i])
  {
    if envs == [] then []
    else (if Deliverable(envs[0]) then [envs[0]] else []) + Deliverables(envs[1..])
  }

  function AckIdsOf(envs: seq<Envelope>): (ids: seq<string>)
    ensures |ids| == |envs|
    ensures forall i :: 0 <= i < |envs| ==> ids[i] == envs[i].ackId
  {
    if envs == [] then [] else [envs[0].ackId] + AckIdsOf(envs[1..])
  }

  lemma {:induction false} DeliverablesAppend(a: seq<Envelope>, b: seq<Envelope>)
    ensures Deliverables(a + b) == Deliverables(a) + Deliverables(b)
  {
    if a != [] {
      assert (a + b)[0] == a[0];
      assert (a + b)[1..] == a[1..] + b;
      DeliverablesAppend(a[1..], b);
    } else {
      assert a + b == b;
    }
  }

  /** The envelope carries a message whose data decodes. */
  predicate Decodes(e: Envelope, decode: string -> Option<Bytes>)
  {
    Deliverable(e) && decode(DataField(e.message.value)).Some?
  }

  /** Every envelope of `ds` carries a message whose data decodes. */
  predicate AllDecode(ds: seq<Envelope>, decode: string -> Option<Bytes>)
  {
    forall i :: 0 <= i < |ds| ==> Decodes(ds[i], decode)
  }

  /** The last envelope of a non-empty accumulator, split off. */
  lemma DeliverablesSnoc(envs: seq<Envelope>)
    requires envs != []
    ensures var init, e := envs[..|envs| - 1], envs[|envs| - 1];
            Deliverables(envs) == Deliverables(init) + if Deliverable(e) then [e] else []
  {
    var init, e := envs[..|envs| - 1], envs[|envs| - 1];
    assert envs == init + [e];
    DeliverablesAppend(init, [e]);
    assert Deliverables([e]) == if Deliverable(e) then [e] else [];
  }

  /** The pass succeeds exactly when every message-carrying envelope decodes. */
  lemma {:induction false} DecodeAllOk(envs: seq<Envelope>, decode: string -> Option<Bytes>)
    ensures DecodeAll(envs, decode).ok <==> AllDecode(Deliverables(envs), decode)
  {
    if envs != [] {
      var init, e := envs[..|envs| - 1], envs[|envs| - 1];
      DecodeAllOk(init, decode);
      DeliverablesSnoc(envs);
      var dsInit, ds := Deliverables(init), Deliverables(envs);
      if Deliverable(e) {
        assert ds[|dsInit|] == e;
        assert forall i :: 0 <= i < |dsInit| ==> ds[i] == dsInit[i];
      } else {
        assert ds == dsInit;
      }
    }
  }

  /** When every message decodes, the pass returns one payload per message-carrying
      envelope, decoded from it, and records that envelope's ack id at the same index;
      envelopes without a message contribute to neither list. */
  lemma {:induction false} DecodeAllMatches(envs: seq<Envelope>, decode: string -> Option<Bytes>)
    ensures var d := DecodeAll(envs, decode);
            var ds := Deliverables(envs);
            d.ok ==> && d.ackIds == AckIdsOf(ds) && |d.payloads| == |ds|
                     && forall i :: 0 <= i < |ds| ==> decode(DataField(ds[i].message.value)) == Some(d.payloads[i])
  {
    if envs != [] {
      var init, e := envs[..|envs| - 1], envs[|envs| - 1];
      DecodeAllMatches(init, decode);
      DeliverablesSnoc(envs);
      var dsInit, ds := Deliverables(init), Deliverables(envs);
      var dInit, d := DecodeAll(init, decode), DecodeAll(envs, decode);
      if d.ok && Deliverable(e) {
        assert ds == dsInit + [e];
        assert AckIdsOf(ds) == AckIdsOf(dsInit) + [e.ackId];
        assert forall i :: 0 <= i < |dsInit| ==> ds[i] == dsInit[i] && d.payloads[i] == dInit.payloads[i];
      } else if d.ok {
        assert ds == dsInit;
      }
    }
  }

  /** When a decode raises, it is on the first message-carrying envelope that does not
      decode, and the lists hold exactly what the envelopes before it produced. */
  lemma {:induction false} DecodeAllFailure(envs: seq<Envelope>, decode: string -> Option<Bytes>)
    ensures var d := DecodeAll(envs, decode);
            !d.ok ==> exists j :: 0 <= j < |envs| && Deliverable(envs[j])
                        && decode(DataField(envs[j].message.value)).None?
                        && DecodeAll(envs[..j], decode) == d.(ok := true)
  {
    if envs != [] {
      var init := envs[..|envs| - 1];
      var d := DecodeAll(envs, decode);
      var dInit := DecodeAll(init, decode);
      if !dInit.ok {
        DecodeAllFailure(init, decode);
        var j :| 0 <= j < |init| && Deliverable(init[j])
                 && decode(DataField(init[j].message.value)).None?
                 && DecodeAll(init[..j], decode) == dInit.(ok := true);
        assert init[..j] == envs[..j];
      } else if !d.ok {
        assert envs[..|envs| - 1] == init;
      }
    }
  }

  /** Once a decode has raised, later envelopes change nothing. */
  lemma {:induction false} DecodeAllStuck(envs: seq<Envelope>, i: nat, decode: string -> Option<Bytes>)
    requires i <= |envs| && !DecodeAll(envs[..i], decode).ok
    ensures DecodeAll(envs, decode) == DecodeAll(envs[..i], decode)
    decreases |envs| - i
  {
    if i < |envs| {
      assert envs[..i + 1][..i] == envs[..i];
      DecodeAllStuck(envs, i + 1, decode);
    } else {
      assert envs[..i] == envs;
    }
  }

  // ---------------------------------------------------------------------------
  // The subscription object

  class Subscription {
    const env: Environment
    var batchSize: int
    const timeWindow: int
    const projName: string
    const subName: string
    var ackIds: seq<string>

    /** Takes the configured values (instead of reading the configuration file) and
        clamps the batch size. */
    constructor (batchSize: int, timeWindow: int, projName: string, subName: string, env: Environment)
      ensures this.batchSize == EffectiveBatchSize(batchSize)
      ensures this.timeWindow == timeWindow && this.projName == projName && this.subName == subName
      ensures this.env == env && ackIds == []
    {
      this.env := env;
      this.batchSize := batchSize;
      this.timeWindow := timeWindow;
      this.projName := projName;
      this.subName := subName;
      this.ackIds := [];
      new;
      if this.batchSize > MaxBatchSize {
        this.batchSize := MaxBatchSize;
      }
    }

    function Settings(): WaitSettings
      reads this`batchSize
    {
      WaitSettings(batchSize, timeWindow, FullSubscriptionName(projName, subName))
    }

    /** Pulls until the batch is full or the time window has elapsed, extending `allMsgs`
        in place; `raised` is true when a pull call raised, which ends the loop. */
    method WaitForMessages(allMsgs: EnvelopeList) returns (raised: bool)
      modifies env, allMsgs
      ensures var w := Wait(Settings(), env.pullScript, old(env.clock), old(allMsgs.items), old(env.clock), old(env.pullsDone));
              && allMsgs.items == w.acc && env.clock == w.clock && raised == w.failed
              && env.pullsDone == old(env.pullsDone) + |w.rounds|
              && env.trace == old(env.trace) + RoundsTrace(Settings().subscription, w.rounds)
      ensures env.acksDone == old(env.acksDone) && env.callbacksDone == old(env.callbacksDone)
    {
      var s := Settings();
      var start := env.Now();
      var now := start;
      ghost var acc0, pulls0, trace0 := allMsgs.items, env.pullsDone, env.trace;
      ghost var rounds: seq<Round> := [];
      ghost var script := env.pullScript;
      ghost var w0 := Wait(s, script, start, acc0, start, pulls0);
      assert Join([], w0) == w0;
      while |allMsgs.items| < batchSize && now - start < timeWindow * TicksPerSecond
        invariant now == env.clock
        invariant env.pullsDone == pulls0 + |rounds|
        invariant env.trace == trace0 + RoundsTrace(s.subscription, rounds)
        invariant env.acksDone == old(env.acksDone) && env.callbacksDone == old(env.callbacksDone)
        invariant w0 == Join(rounds, Wait(s, script, start, allMsgs.items, now, env.pullsDone))
        decreases start + timeWindow * TicksPerSecond - now
      {
        ghost var acc, pulls := allMsgs.items, env.pullsDone;
        ghost var round := Round(batchSize - |acc|, script(pulls));
        var reply := PullRound(allMsgs);
        RoundsTraceSnoc(trace0, s.subscription, rounds, round);
        WaitAdvance(s, script, start, rounds, acc, now, pulls, round, allMsgs.items, env.clock);
        rounds := rounds + [round];
        if reply.TransportError? {
          raised := true;
          return;
        }
        now := env.Now();
      }
      WaitStop(s, script, start, rounds, allMsgs.items, now, env.pullsDone);
      raised := false;
    }

    /** One pass of the accumulation loop: touches the health-check file, asks for the
        envelopes still missing from the batch and, when the reply carries
        `receivedMessages`, appends them and pauses for a second. */
    method PullRound(allMsgs: EnvelopeList) returns (reply: PullReply)
      modifies env, allMsgs
      ensures var round := Round(batchSize - |old(allMsgs.items)|, env.pullScript(old(env.pullsDone)));
              && reply == round.exchange.reply
              && allMsgs.items == old(allMsgs.items) + Received(reply)
              && env.clock == old(env.clock) + Cost(round)
              && env.pullsDone == old(env.pullsDone) + 1
              && env.trace == old(env.trace) + RoundEvents(Settings().subscription, round)
      ensures env.acksDone == old(env.acksDone) && env.callbacksDone == old(env.callbacksDone)
    {
      env.Touch();
      var numToGet := batchSize - |allMsgs.items|;
      var subscription := FullSubscriptionName(projName, subName);
      reply := env.Pull(PullRequest(subscription, numToGet, true));
      if reply.Response? && reply.receivedMessages.Some? {
        allMsgs.Extend(reply.receivedMessages.value);
        env.Sleep(1);
      }
    }

    /** Runs the accumulation loop, swallowing a transport error, then (when anything was
        accumulated) rebuilds `ackIds` while decoding.  `raised` is true when a decode
        raised; the error then leaves the method and `messages` stands for nothing. */
    method PullMessages(decode: string -> Option<Bytes>) returns (messages: seq<Bytes>, raised: bool)
      modifies env, this`ackIds
      ensures var w := Pulled(Settings(), env.pullScript, old(env.clock), old(env.pullsDone));
              var d := DecodeAll(w.acc, decode);
              && env.clock == w.clock && env.pullsDone == old(env.pullsDone) + |w.rounds|
              && env.trace == old(env.trace) + RoundsTrace(Settings().subscription, w.rounds)
              && (w.acc == [] ==> ackIds == old(ackIds) && messages == [] && !raised)
              && (w.acc != [] ==> ackIds == d.ackIds && raised == !d.ok)
              && (w.acc != [] && d.ok ==> messages == d.payloads)
              && (raised ==> messages == [])
      ensures env.acksDone == old(env.acksDone) && env.callbacksDone == old(env.callbacksDone)
    {
      var allMsgs := new EnvelopeList();
      var pullRaised := WaitForMessages(allMsgs);
      // A transport error is logged and swallowed; what was accumulated is kept.
      messages, raised := [], false;
      if allMsgs.items != [] {
        messages, raised := DecodeMessages(allMsgs.items, decode);
      }
    }

    /** The decode loop: `ackIds` is rebuilt envelope by envelope alongside the payloads,
        so when a decode raises it keeps the ids recorded before that envelope. */
    method DecodeMessages(items: seq<Envelope>, decode: string -> Option<Bytes>) returns (messages: seq<Bytes>, raised: bool)
      modifies this`ackIds
      ensures var d := DecodeAll(items, decode);
              ackIds == d.ackIds && raised == !d.ok && messages == if d.ok then d.payloads else []
    {
      ackIds := [];
      messages, raised := [], false;
      var i := 0;
      while i < |items|
        invariant 0 <= i <= |items|
        invariant DecodeAll(items[..i], decode) == Decoded(messages, ackIds, true)
      {
        var received := items[i];
        var message := received.message;
        assert items[..i + 1][..i] == items[..i];
        if message.Some? && message.value.fields != map[] {
          var payload := decode(DataField(message.value));
          if payload.None? {
            DecodeAllStuck(items, i + 1, decode);
            messages, raised := [], true;
            return;
          }
          messages := messages + [payload.value];
          ackIds := ackIds + [received.ackId];
        }
        i := i + 1;
      }
      assert items[..i] == items;
    }

    /** Acknowledges the recorded ack ids in one call; `raised` is true when it raised.
        `ackIds` itself is left as it is. */
    method AckMessages() returns (raised: bool)
      modifies env
      ensures env.trace == old(env.trace) + [Acknowledge(Settings().subscription, ackIds)]
      ensures raised == !env.ackScript(old(env.acksDone)) && env.acksDone == old(env.acksDone) + 1
      ensures env.clock == old(env.clock) && env.pullsDone == old(env.pullsDone)
      ensures env.callbacksDone == old(env.callbacksDone)
    {
      var subscription := FullSubscriptionName(projName, subName);
      var ok := env.Acknowledge(subscription, ackIds);
      raised := !ok;
    }
  }
}
