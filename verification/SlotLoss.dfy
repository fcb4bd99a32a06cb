/** Activations that are lost, although the next poll comes soon after them. */
module SlotLoss {
  import opened Basics
  import opened Labels
  import opened KubeletUpgrade
  import opened ApiServer
  import opened Polling
  import opened PollEffects
  import opened PollOutcomes
  import opened Lifecycle
  import opened SlotCoverage

  /** Whenever it is polled in calm weather with these nodes listed, the poll is steady. */
  ghost predicate Pollable(s: Site, schedule: string, nodes: seq<Node>) {
    && SiteInv(s) && !s.crashed
    && var k := Current(s.history);
       && KEY_KUBELET_UPGRADE_SKIP !in k.labels && k.spec.schedule == schedule && k.spec.maxUnavailable >= 0
       && Convertible(k.spec.selector) && MatchingKeys(k.spec.selector + ExcludedNodes(), nodes) != []
  }

  /** Labels, spec and process are as before. */
  ghost predicate KeepsObject(s: Site, s': Site) {
    && SiteInv(s) && SiteInv(s') && s'.crashed == s.crashed
    && Current(s'.history).labels == Current(s.history).labels && Current(s'.history).spec == Current(s.history).spec
  }

  lemma CalmRollKeepsObject(cron: Cron, h: History, now: Time)
    requires ValidHistory(h)
    ensures
      var h' := UpdateNext(cron, h, Current(h), now, false, CALM).0;
      ValidHistory(h') && Current(h').labels == Current(h).labels && Current(h').spec == Current(h).spec
  {
    var rolled := Current(h).UpdateNextScheduledTime(cron, now);
    RequestEffect(h, CALM, StatusResource, rolled, Current(h));
  }

  lemma CalmWaitKeepsObject(cron: Cron, s: Site, input: Input)
    requires SiteInv(s) && CronContract(cron) && EventsFit(cron, s, input) && Gate(cron, s, input).None?
    requires input.synced && input.calls == ALL_CALM && input.copy == Current(s.history)
    ensures KeepsObject(s, Poll(cron, s, input).0)
  {
    CalmRollKeepsObject(cron, s.history, input.now);
    PollShortOfGate(cron, s, input);
  }

  lemma CalmRunKeepsObject(cron: Cron, s: Site, input: Input)
    requires SiteInv(s) && CronContract(cron) && EventsFit(cron, s, input) && Gate(cron, s, input).Some?
    requires input.calls == ALL_CALM && input.copy == Current(s.history) && input.copy.spec.maxUnavailable >= 0
    ensures KeepsObject(s, Poll(cron, s, input).0)
  {
    OutcomeExactly(cron, s, input);
    PollEffect(cron, s, input);
    PollThroughGate(cron, s, input);
    StartOutcome(cron, s.(queue := Gate(cron, s, input).value.1), input.copy, input);
  }

  /** Steady polls are possible at any times. */
  lemma {:induction false} SteadyLifeAt(cron: Cron, s: Site, schedule: string, nodes: seq<Node>, times: seq<Time>)
    returns (es: seq<Happening>)
    requires CronContract(cron) && Pollable(s, schedule, nodes)
    ensures Life(cron, s, es) && SteadyLife(cron, s, es, schedule) && |es| == |times|
    ensures forall i :: 0 <= i < |es| ==> es[i].Polled? && es[i].input.now == es[i].input.end == times[i]
    decreases |times|
  {
    if times == [] {
      es := [];
    } else {
      var input := Input(true, Current(s.history), times[0], times[0], nodes, ALL_CALM, []);
      var events := PollIsAlwaysPossible(cron, s, input);
      input := input.(events := events);
      if Gate(cron, s, input).None? {
        CalmWaitKeepsObject(cron, s, input);
      } else {
        CalmRunKeepsObject(cron, s, input);
      }
      var rest := SteadyLifeAt(cron, Poll(cron, s, input).0, schedule, nodes, times[1..]);
      es := [Polled(input)] + rest;
      assert es[1..] == rest;
    }
  }

  /**
   Of two activations at most five minutes apart both are lost to a poll five minutes after the first
   of them, however soon after the second that is: even if it is at that very instant.
   */
  lemma EarlierTakesLaterAlong(cron: Cron, s: Site, schedule: string, nodes: seq<Node>, activations: iset<Time>,
                               prev: Time, a: Time)
    returns (es: seq<Happening>)
    requires CronContract(cron) && HasActivations(cron, schedule, activations) && Pollable(s, schedule, nodes)
    requires a in activations && prev < a && Slot(s) == NextAfter(cron, schedule, prev)
    requires Slot(s).Some? && a <= Slot(s).value + LOOK_BACK
    ensures Life(cron, s, es) && SteadyLife(cron, s, es, schedule) && Ascending(Some(prev), es)
    ensures |es| == 2 && es[0].Polled? && es[0].input.now == prev
    ensures FirstPollFrom(es, a, 1) && es[1].input.now == Slot(s).value + LOOK_BACK
    ensures !exists k :: Covers(cron, s, es, k, a)
  {
    es := SteadyLifeAt(cron, s, schedule, nodes, [prev, Slot(s).value + LOOK_BACK]);
    StoredSlotIsAhead(cron, schedule, prev);
    assert es[1..][1..] == [] && es[1..][0] == es[1];
    ActivationIsRunExactly(cron, s, es, schedule, activations, prev, a, 1);
    assert PollBefore(Some(prev), es, 1) == PollBefore(Some(prev), es[1..], 0);
  }

  // ---- An activation every three minutes ----

  const THREE_MINUTES: Time := 3 * MINUTE

  function EveryThreeMinutes(schedule: string, t: Time): CronResult {
    Next((t / THREE_MINUTES + 1) * THREE_MINUTES)
  }

  ghost function Multiples(): iset<Time> {
    iset a: Time | a % THREE_MINUTES == 0
  }

  lemma EveryThreeMinutesIsCron(schedule: string)
    ensures CronContract(EveryThreeMinutes) && HasActivations(EveryThreeMinutes, schedule, Multiples())
  {
    forall t: Time, a | a in Multiples() && a > t
      ensures EveryThreeMinutes(schedule, t).time <= a
    {
      assert a == a / THREE_MINUTES * THREE_MINUTES;
      assert t / THREE_MINUTES < a / THREE_MINUTES;
    }
  }

  /**
   With an activation every three minutes and steady polls at minutes 0 and 8, the one at minute 6 is
   lost, although the second poll comes only two minutes after it.
   */
  lemma PromptPollLosesActivation(s: Site, schedule: string, nodes: seq<Node>) returns (es: seq<Happening>)
    requires Pollable(s, schedule, nodes) && Slot(s) == Some(3 * MINUTE)
    ensures CronContract(EveryThreeMinutes) && HasActivations(EveryThreeMinutes, schedule, Multiples())
    ensures Life(EveryThreeMinutes, s, es) && SteadyLife(EveryThreeMinutes, s, es, schedule) && |es| == 2
    ensures es[0].Polled? && es[0].input.now == 0 && es[1].Polled? && es[1].input.now == 8 * MINUTE
    ensures 6 * MINUTE in Multiples() && !exists k :: Covers(EveryThreeMinutes, s, es, k, 6 * MINUTE)
  {
    EveryThreeMinutesIsCron(schedule);
    es := EarlierTakesLaterAlong(EveryThreeMinutes, s, schedule, nodes, Multiples(), 0, 6 * MINUTE);
  }
}
