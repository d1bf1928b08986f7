/** Concrete runs of the consumer against small scripted backends. */
module Scenarios {
  import opened PubSub
  import opened Sinks
  import opened Driver

  function Env(id: string): Envelope
  {
    Envelope(id, Some(Message(map["data" := id])))
  }

  /** Two envelopes, then three, then empty responses for ever; every call takes 1 ms. */
  function TwoThenThree(k: nat): Exchange
  {
    if k == 0 then Exchange(Response(Some([Env("a"), Env("b")])), 1)
    else if k == 1 then Exchange(Response(Some([Env("c"), Env("d"), Env("e")])), 1)
    else Exchange(Response(None), 1)
  }

  /** A batch of five within a ten-second window is complete after two pulls, asking for
      five and then three envelopes, well inside the window. */
  lemma FilledByCount(sub: string, clock: int)
    ensures var w := Pulled(WaitSettings(5, 10, sub), TwoThenThree, clock, 0);
            && w.acc == [Env("a"), Env("b"), Env("c"), Env("d"), Env("e")]
            && |w.rounds| == 2 && !w.failed
            && w.rounds[0].maxMessages == 5 && w.rounds[1].maxMessages == 3
            && w.clock == clock + 2002
  {
    var s := WaitSettings(5, 10, sub);
    var ab := [Env("a"), Env("b")];
    var all := ab + [Env("c"), Env("d"), Env("e")];
    assert [] + ab == ab;
    assert Wait(s, TwoThenThree, clock, all, clock + 2002, 2) == WaitEnd(all, clock + 2002, [], false);
    assert Wait(s, TwoThenThree, clock, ab, clock + 1001, 1)
        == Join([Round(3, TwoThenThree(1))], WaitEnd(all, clock + 2002, [], false));
  }

  /** One envelope per pull, each call taking 1 ms. */
  function OneEach(k: nat): Exchange
  {
    Exchange(Response(Some([Env("m")])), 1)
  }

  /** A batch of a hundred within a two-second window gets only two envelopes: after two
      passes (pull and pause) the window has elapsed. */
  lemma CutByTime(sub: string, clock: int)
    ensures var w := Pulled(WaitSettings(100, 2, sub), OneEach, clock, 0);
            && w.acc == [Env("m"), Env("m")]
            && |w.rounds| == 2 && !w.failed
            && w.clock == clock + 2002
  {
    var s := WaitSettings(100, 2, sub);
    var one := [Env("m")];
    assert [] + one == one;
    assert Wait(s, OneEach, clock, one + one, clock + 2002, 2) == WaitEnd(one + one, clock + 2002, [], false);
    assert Wait(s, OneEach, clock, one, clock + 1001, 1)
        == Join([Round(99, OneEach(1))], WaitEnd(one + one, clock + 2002, [], false));
  }

  /** An envelope without a message is neither decoded nor acknowledged, and raises nothing. */
  lemma SkipsMissingMessage(decode: string -> Option<Bytes>, p: Bytes)
    requires decode("x") == Some(p)
    ensures DecodeAll([Envelope("skip", None), Env("x")], decode) == Decoded([p], ["x"], true)
  {
    var envs := [Envelope("skip", None), Env("x")];
    assert envs[..1] == [Envelope("skip", None)];
    assert [Envelope("skip", None)][..0] == [];
    assert DataField(Message(map["data" := "x"])) == "x";
  }

  /** A callback that raises on the second of three messages: two calls are made, the third
      message is never handed over, and the pass does not acknowledge. */
  lemma SecondCallbackRaises(script: nat -> bool, first: nat)
    requires script(first) && !script(first + 1)
    ensures RunCallbacks(3, script, first) == CallbackRun(2, false)
  {
    CallbacksStuck(3, script, first, 2);
  }
}
