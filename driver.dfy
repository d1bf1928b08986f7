/** The launcher: one pass of its endless loop pulls a batch, hands every payload to the
    processing callback in order, and acknowledges the batch once every callback has
    returned.  Any error raised inside the pass is caught at the pass boundary. */
module Driver {
  import opened PubSub
  import opened Sinks

  /** How far the callback got through a batch: the number of calls made, and whether
      every call returned. */
  datatype CallbackRun = CallbackRun(invoked: nat, allReturned: bool)

  /** The callback over a batch of `count` payloads, where the k-th call overall is
      answered by `script(k)` and `first` calls were made before this batch.  The first
      call that raises ends the batch. */
  function RunCallbacks(count: nat, script: nat -> bool, first: nat): (r: CallbackRun)
    ensures r.invoked <= count
    ensures r.allReturned <==> forall k :: first <= k < first + count ==> script(k)
    ensures r.allReturned ==> r.invoked == count
    ensures !r.allReturned ==> && 1 <= r.invoked
                               && !script(first + r.invoked - 1)
                               && forall k :: first <= k < first + r.invoked - 1 ==> script(k)
  {
    if count == 0 then CallbackRun(0, true)
    else
      var r := RunCallbacks(count - 1, script, first);
      if !r.allReturned then r else CallbackRun(count, script(first + count - 1))
  }

  /** Once a call has raised, a longer batch ends the same way. */
  lemma {:induction false} CallbacksStuck(count: nat, script: nat -> bool, first: nat, i: nat)
    requires i <= count && !RunCallbacks(i, script, first).allReturned
    ensures RunCallbacks(count, script, first) == RunCallbacks(i, script, first)
    decreases count - i
  {
    if i < count {
      CallbacksStuck(count - 1, script, first, i);
    }
  }

  /** The inner loop: feeds the payloads to the callback in order, stopping at the first
      call that raises. */
  method Deliver(env: Environment, messages: seq<Bytes>) returns (run: CallbackRun)
    modifies env
    ensures run == RunCallbacks(|messages|, env.callbackScript, old(env.callbacksDone))
    ensures env.callbacksDone == old(env.callbacksDone) + run.invoked
    ensures env.trace == old(env.trace) + HandleEvents(messages[..run.invoked])
    ensures env.clock == old(env.clock) && env.pullsDone == old(env.pullsDone)
    ensures env.acksDone == old(env.acksDone)
  {
    ghost var first, trace0 := env.callbacksDone, env.trace;
    var i := 0;
    while i < |messages|
      invariant 0 <= i <= |messages|
      invariant RunCallbacks(i, env.callbackScript, first) == CallbackRun(i, true)
      invariant env.callbacksDone == first + i
      invariant env.trace == trace0 + HandleEvents(messages[..i])
      invariant env.clock == old(env.clock) && env.pullsDone == old(env.pullsDone)
      invariant env.acksDone == old(env.acksDone)
    {
      assert messages[..i + 1] == messages[..i] + [messages[i]];
      HandleEventsSnoc(trace0, messages[..i], messages[i]);
      var returned := env.Invoke(messages[i]);
      i := i + 1;
      if !returned {
        CallbacksStuck(|messages|, env.callbackScript, first, i);
        return CallbackRun(i, false);
      }
    }
    assert messages[..i] == messages;
    return CallbackRun(i, true);
  }

  /** What one pass of the launcher's loop did: the payloads the pull returned, how many
      callback calls were made, whether the batch was acknowledged, and whether an error
      was caught at the pass boundary. */
  datatype Cycle = Cycle(messages: seq<Bytes>, invoked: nat, ackSent: bool, errorCaught: bool)

  /** The shape every pass has: callbacks only on returned payloads, and an acknowledgement
      only after a non-empty batch whose callbacks all returned. */
  predicate WellFormed(c: Cycle)
  {
    && c.invoked <= |c.messages|
    && (c.ackSent ==> c.messages != [] && c.invoked == |c.messages|)
    && (c.messages == [] ==> c.invoked == 0 && !c.ackSent)
  }

  /** One pass of the launcher's loop. */
  method RunIteration(sub: Subscription, decode: string -> Option<Bytes>) returns (c: Cycle)
    modifies sub.env, sub`ackIds
    ensures var w := Pulled(sub.Settings(), sub.env.pullScript, old(sub.env.clock), old(sub.env.pullsDone));
            var d := DecodeAll(w.acc, decode);
            var pullRaised := w.acc != [] && !d.ok;
            var cb := RunCallbacks(|c.messages|, sub.env.callbackScript, old(sub.env.callbacksDone));
            && c.messages == (if pullRaised then [] else d.payloads)
            && c.invoked == (if c.messages == [] then 0 else cb.invoked)
            && c.ackSent == (c.messages != [] && cb.allReturned)
            && c.errorCaught == (pullRaised || (c.messages != [] && !cb.allReturned)
                                 || (c.ackSent && !sub.env.ackScript(old(sub.env.acksDone))))
            && sub.ackIds == (if w.acc == [] then old(sub.ackIds) else d.ackIds)
            && (c.ackSent ==> sub.ackIds == AckIdsOf(Deliverables(w.acc)) && |sub.ackIds| == |c.messages|)
            && sub.env.clock == w.clock
            && sub.env.pullsDone == old(sub.env.pullsDone) + |w.rounds|
            && sub.env.callbacksDone == old(sub.env.callbacksDone) + c.invoked
            && sub.env.acksDone == old(sub.env.acksDone) + (if c.ackSent then 1 else 0)
            && sub.env.trace == old(sub.env.trace) + RoundsTrace(sub.Settings().subscription, w.rounds)
                                + HandleEvents(c.messages[..c.invoked])
                                + (if c.ackSent then [Acknowledge(sub.Settings().subscription, sub.ackIds)] else [])
    ensures WellFormed(c)
  {
    ghost var w := Pulled(sub.Settings(), sub.env.pullScript, sub.env.clock, sub.env.pullsDone);
    DecodeAllMatches(w.acc, decode);
    var messages, raised := sub.PullMessages(decode);
    if raised {
      return Cycle([], 0, false, true);
    }
    if messages == [] {
      assert messages[..0] == [];
      return Cycle([], 0, false, false);
    }
    var run := Deliver(sub.env, messages);
    if !run.allReturned {
      return Cycle(messages, run.invoked, false, true);
    }
    var ackRaised := sub.AckMessages();
    return Cycle(messages, run.invoked, true, ackRaised);
  }

  /** Callback calls made over a run of passes. */
  function TotalInvoked(cycles: seq<Cycle>): nat
  {
    if cycles == [] then 0 else TotalInvoked(cycles[..|cycles| - 1]) + cycles[|cycles| - 1].invoked
  }

  /** Acknowledgements sent over a run of passes. */
  function AcksSent(cycles: seq<Cycle>): nat
  {
    if cycles == [] then 0 else AcksSent(cycles[..|cycles| - 1]) + if cycles[|cycles| - 1].ackSent then 1 else 0
  }

  /** The launcher's loop, run for a given number of passes: whatever a pass raises, the
      next pass still runs. */
  method Run(sub: Subscription, decode: string -> Option<Bytes>, passes: nat) returns (cycles: seq<Cycle>)
    modifies sub.env, sub`ackIds
    ensures |cycles| == passes
    ensures forall k :: 0 <= k < |cycles| ==> WellFormed(cycles[k])
    ensures sub.env.callbacksDone == old(sub.env.callbacksDone) + TotalInvoked(cycles)
    ensures sub.env.acksDone == old(sub.env.acksDone) + AcksSent(cycles)
  {
    cycles := [];
    while |cycles| < passes
      invariant |cycles| <= passes
      invariant forall k :: 0 <= k < |cycles| ==> WellFormed(cycles[k])
      invariant sub.env.callbacksDone == old(sub.env.callbacksDone) + TotalInvoked(cycles)
      invariant sub.env.acksDone == old(sub.env.acksDone) + AcksSent(cycles)
    {
      var c := RunIteration(sub, decode);
      assert (cycles + [c])[..|cycles|] == cycles;
      cycles := cycles + [c];
    }
  }
}
