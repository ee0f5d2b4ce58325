/** Notification sinks and the composite that fans an alert out to all of them
    (package `alerter`: the Alerter interface and CompositeAlerter). */
module Alerter {
  import opened Wrappers
  import opened Text
  import opened Domain
  import Telegram

  /** The Alerter interface as a closed set of sink kinds: the Telegram sink, and a
      sink known only by its name and the fixed outcome of its Send (None for nil). */
  datatype Sink =
    | TelegramSink(alerter: Telegram.TelegramAlerter)
    | FixedSink(name: string, outcome: Option<string>)

  function SinkName(s: Sink): string {
    match s
    case TelegramSink(_) => Telegram.Name()
    case FixedSink(name, _) => name
  }

  /** The sink's Send: None is a nil error, Some(e) an error with text e. */
  function SinkSend(s: Sink, a: Alert, env: Telegram.Env): Option<string> {
    match s
    case TelegramSink(t) => Telegram.Send(t, a, env)
    case FixedSink(_, outcome) => outcome
  }

  /** The entry Send records for one failing sink: its name, ": ", its error. */
  function FailureEntry(s: Sink, a: Alert, env: Telegram.Env): seq<string> {
    var e := SinkSend(s, a, env);
    if e.Some? then [SinkName(s) + ": " + e.value] else []
  }

  /** The errors Send collects over a sink list, in list order. */
  function Failures(sinks: seq<Sink>, a: Alert, env: Telegram.Env): seq<string> {
    if sinks == [] then []
    else Failures(sinks[..|sinks| - 1], a, env) + FailureEntry(sinks[|sinks| - 1], a, env)
  }

  predicate AllSucceed(sinks: seq<Sink>, a: Alert, env: Telegram.Env) {
    forall i :: 0 <= i < |sinks| ==> SinkSend(sinks[i], a, env).None?
  }

  /** No error is collected exactly when every sink succeeds; with no sinks at all
      nothing can fail. */
  lemma {:induction false} FailuresEmptyIffAllSucceed(sinks: seq<Sink>, a: Alert, env: Telegram.Env)
    ensures Failures(sinks, a, env) == [] <==> AllSucceed(sinks, a, env)
  {
    if sinks != [] {
      var n := |sinks| - 1;
      var init := sinks[..n];
      FailuresEmptyIffAllSucceed(init, a, env);
      var last := SinkSend(sinks[n], a, env);
      assert FailureEntry(sinks[n], a, env) == [] <==> last.None?;
      assert Failures(sinks, a, env) == Failures(init, a, env) + FailureEntry(sinks[n], a, env);
      assert AllSucceed(sinks, a, env) <==> AllSucceed(init, a, env) && last.None? by {
        assert forall i :: 0 <= i < n ==> init[i] == sinks[i];
      }
    }
  }

  /** The collected errors of two lists one after the other are the errors of each,
      one after the other: together with the one-sink case this is "one entry per
      failing sink, in sink order, nothing for a succeeding one". */
  lemma {:induction false} FailuresAppend(s1: seq<Sink>, s2: seq<Sink>, a: Alert, env: Telegram.Env)
    ensures Failures(s1 + s2, a, env) == Failures(s1, a, env) + Failures(s2, a, env)
    decreases |s2|
  {
    if s2 == [] {
      assert s1 + s2 == s1;
    } else {
      var init := s2[..|s2| - 1];
      FailuresAppend(s1, init, a, env);
      assert (s1 + s2)[..|s1 + s2| - 1] == s1 + init;
    }
  }

  lemma FailuresOfOne(s: Sink, a: Alert, env: Telegram.Env)
    ensures SinkSend(s, a, env).None? ==> Failures([s], a, env) == []
    ensures SinkSend(s, a, env).Some? ==>
              Failures([s], a, env) == [SinkName(s) + ": " + SinkSend(s, a, env).value]
  {
    assert [s][..0] == [];
  }

  /** There are never more errors than sinks. */
  lemma {:induction false} FailuresBounded(sinks: seq<Sink>, a: Alert, env: Telegram.Env)
    ensures |Failures(sinks, a, env)| <= |sinks|
  {
    if sinks != [] {
      FailuresBounded(sinks[..|sinks| - 1], a, env);
    }
  }

  /** Sinks {A: succeeds, B: fails with e}: one error, naming B only. */
  lemma OneOfTwoSinksFails(e: string, a: Alert, env: Telegram.Env)
    ensures var sinks := [FixedSink("A", None), FixedSink("B", Some(e))];
            Failures(sinks, a, env) == ["B" + ": " + e] && !AllSucceed(sinks, a, env)
  {
    var sinks := [FixedSink("A", None), FixedSink("B", Some(e))];
    FailuresOfOne(sinks[0], a, env);
    FailuresOfOne(sinks[1], a, env);
    FailuresAppend([sinks[0]], [sinks[1]], a, env);
    assert [sinks[0]] + [sinks[1]] == sinks;
    assert SinkSend(sinks[1], a, env).Some?;
  }

  function SinkNames(sinks: seq<Sink>): (names: seq<string>)
    ensures |names| == |sinks|
    ensures forall i :: 0 <= i < |sinks| ==> names[i] == SinkName(sinks[i])
  {
    seq(|sinks|, i requires 0 <= i < |sinks| => SinkName(sinks[i]))
  }

  /** The composite's name: "composite[" + the sink names joined by "," + "]". */
  function CompositeName(sinks: seq<Sink>): string {
    "composite[" + Join(SinkNames(sinks), ",") + "]"
  }

  /** An empty composite is "composite[]", and adding a sink puts its name last in the
      bracket, after a comma when there were sinks before. */
  lemma CompositeNameAfterAdd(sinks: seq<Sink>, s: Sink)
    ensures CompositeName([]) == "composite[]"
    ensures CompositeName(sinks + [s]) ==
              "composite[" + Join(SinkNames(sinks), ",") + (if sinks == [] then "" else ",") +
              SinkName(s) + "]"
  {
    assert SinkNames(sinks + [s]) == SinkNames(sinks) + [SinkName(s)];
    JoinSnoc(SinkNames(sinks), SinkName(s), ",");
  }

  /** A record of one call of a sink's Send: which sink and with which alert. Send
      writes one as it makes each call; it is the model's account of the calls made,
      not something a sink reports. */
  datatype Delivery = Delivery(sink: Sink, alert: Alert)

  class CompositeAlerter {
    var alerters: seq<Sink>

    /** NewCompositeAlerter. */
    constructor (alerters: seq<Sink>)
      ensures this.alerters == alerters
    {
      this.alerters := alerters;
    }

    /** Send: every sink once, in order, with the same alert, carrying on after a
        failure; the result is nil (None) when no sink failed and otherwise the list of
        "name: error" entries that errors.Join combines. */
    method Send(a: Alert, env: Telegram.Env) returns (err: Option<seq<string>>, delivered: seq<Delivery>)
      ensures |delivered| == |alerters|
      ensures forall i :: 0 <= i < |alerters| ==> delivered[i] == Delivery(alerters[i], a)
      ensures err.None? <==> AllSucceed(alerters, a, env)
      ensures err.Some? ==> err.value == Failures(alerters, a, env) && err.value != []
    {
      var errs: seq<string> := [];
      delivered := [];
      var i := 0;
      while i < |alerters|
        invariant 0 <= i <= |alerters|
        invariant errs == Failures(alerters[..i], a, env)
        invariant |delivered| == i
        invariant forall k :: 0 <= k < i ==> delivered[k] == Delivery(alerters[k], a)
      {
        var sink := alerters[i];
        var e := SinkSend(sink, a, env);
        delivered := delivered + [Delivery(sink, a)];
        if e.Some? {
          errs := errs + [SinkName(sink) + ": " + e.value];
        }
        assert alerters[..i + 1][..i] == alerters[..i];
        i := i + 1;
      }
      assert alerters[..i] == alerters;
      FailuresEmptyIffAllSucceed(alerters, a, env);
      if |errs| > 0 {
        err := Some(errs);
      } else {
        err := None;
      }
    }

    /** Name: the sink names gathered into an array, then joined. */
    method Name() returns (name: string)
      ensures name == CompositeName(alerters)
    {
      var names := new string[|alerters|];
      var i := 0;
      while i < |alerters|
        invariant 0 <= i <= |alerters|
        invariant forall k :: 0 <= k < i ==> names[k] == SinkName(alerters[k])
      {
        names[i] := SinkName(alerters[i]);
        i := i + 1;
      }
      assert names[..] == SinkNames(alerters);
      name := "composite[" + Join(names[..], ",") + "]";
    }

    /** Add: the new sink goes last; the earlier ones keep their order. */
    method Add(s: Sink)
      modifies this
      ensures alerters == old(alerters) + [s]
    {
      alerters := alerters + [s];
    }
  }
}
