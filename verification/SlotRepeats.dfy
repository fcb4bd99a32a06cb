/** Exactly when a slot whose start is on record can be started once more. */
module SlotRepeats {
  import opened Basics
  import opened Labels
  import opened KubeletUpgrade
  import opened ApiServer
  import opened WorkQueue
  import opened UpgradeRun
  import opened Polling
  import opened PollEffects
  import opened PollOutcomes
  import opened Lifecycle

  /** A record call is not answered, or the new next time does not land, or there is none. */
  predicate LeavesSlot(cron: Cron, input: Input) {
    || !RecordsAnswered(input.calls, input.copy)
    || !Lands(input.calls.reschedule, input.copy)
    || cron(input.copy.spec.schedule, input.now).Unparsable?
  }

  /** Some schedule lets a slot pass at this time: at exactly five minutes only one that does not parse. */
  ghost predicate WindowOpen(cron: Cron, slot: Time, t: Time) {
    t - slot < LOOK_BACK || (t - slot == LOOK_BACK && exists schedule :: cron(schedule, t).Unparsable?)
  }

  /** What a start on record says about its poll. */
  lemma StartMeansDue(cron: Cron, s: Site, input: Input)
    requires SiteInv(s) && CronContract(cron) && Possible(cron, s, Polled(input)) && RecordsStart(cron, s, input)
    ensures Gate(cron, s, input).Some? && input.copy == Current(s.history) && input.copy.spec.maxUnavailable >= 0
    ensures Slot(s).Some? && Slot(s).value <= input.now && WindowOpen(cron, Slot(s).value, input.now)
  {
    PollEffect(cron, s, input);
  }

  /**
   After a poll that put a start on record the slot it started is still the stored one exactly if the
   poll crashed because a record call was not answered, or the last write did not land, or the
   schedule does not parse.
   */
  lemma StartLeavesSlotExactly(cron: Cron, s: Site, input: Input)
    requires SiteInv(s) && CronContract(cron) && Possible(cron, s, Polled(input)) && RecordsStart(cron, s, input)
    ensures Slot(After(cron, s, Polled(input))) == Slot(s) <==> LeavesSlot(cron, input)
  {
    StartMeansDue(cron, s, input);
    OutcomeExactly(cron, s, input);
    PollEffect(cron, s, input);
  }

  /** After the poll `first`, life goes on with `es`, and then `last` puts a start for the same slot on record. */
  ghost predicate StartsAgain(cron: Cron, s: Site, first: Input, es: seq<Happening>, last: Input)
    requires SiteInv(s) && CronContract(cron) && Possible(cron, s, Polled(first))
  {
    StepKeepsSite(cron, s, Polled(first));
    var s1 := After(cron, s, Polled(first));
    && Life(cron, s1, es) && ClockFrom(first.end, es + [Polled(last)])
    && var s2 := End(cron, s1, es);
    && Possible(cron, s2, Polled(last)) && RecordsStart(cron, s2, last)
    && Slot(s2) == Slot(s)
  }

  lemma SecondStartMeansLeft(cron: Cron, s: Site, first: Input, es: seq<Happening>, last: Input)
    requires SiteInv(s) && CronContract(cron) && Possible(cron, s, Polled(first)) && first.now <= first.end
    requires RecordsStart(cron, s, first) && StartsAgain(cron, s, first, es, last)
    ensures LeavesSlot(cron, first)
  {
    if !LeavesSlot(cron, first) {
      StartMeansDue(cron, s, first);
      OutcomeExactly(cron, s, first);
      StepKeepsSite(cron, s, Polled(first));
      NoSlotRunsTwice(cron, s, first, es, last);
    }
  }

  lemma LateIsOpen(cron: Cron, slot: Time, t: Time, u: Time)
    requires t <= u && WindowOpen(cron, slot, u)
    ensures WindowOpen(cron, slot, t)
  {
  }

  lemma SecondStartMeansOpen(cron: Cron, s: Site, first: Input, es: seq<Happening>, last: Input)
    requires SiteInv(s) && CronContract(cron) && Possible(cron, s, Polled(first))
    requires StartsAgain(cron, s, first, es, last)
    ensures Slot(s).Some? && WindowOpen(cron, Slot(s).value, first.end)
  {
    StepKeepsSite(cron, s, Polled(first));
    StartMeansDue(cron, End(cron, After(cron, s, Polled(first)), es), last);
    ClockSplit(first.end, es, [Polled(last)]);
    LateIsOpen(cron, Slot(s).value, first.end, last.now);
  }

  // ---- The second start ----

  /** An edit that lets any worker node match and asks for nothing else. */
  function Opened(schedule: string): Edit {
    Edit(map[], Spec(0, schedule, []))
  }

  const ANY_NODE := Node("node", map[])

  lemma EditStores(h: History, edit: Edit)
    requires ValidHistory(h)
    ensures
      var k := Current(ApplyEdits(h, [edit]));
      k.labels == edit.labels && k.spec == edit.spec && k.status == Current(h).status
  {
    var o := Current(h).(labels := edit.labels, spec := edit.spec);
    PutExtends(h, o);
    assert [edit][1..] == [];
    assert ApplyEdits(h, [edit]) == ApplyEdits(Put(h, o), [edit][1..]);
  }

  /** Once it is running again and a user has edited it, the upgrade still has the same slot. */
  lemma ReopenedLife(cron: Cron, s: Site, schedule: string) returns (es: seq<Happening>)
    requires SiteInv(s) && CronContract(cron)
    ensures Life(cron, s, es) && forall i :: 0 <= i < |es| ==> !es[i].Polled?
    ensures
      var s' := End(cron, s, es);
      && !s'.crashed && Slot(s') == Slot(s)
      && Current(s'.history).labels == map[] && Current(s'.history).spec == Spec(0, schedule, [])
  {
    var edited := Edited(Opened(schedule));
    var s1 := s;
    es := [];
    if s.crashed {
      LifeOfOne(cron, s, Restarted);
      s1 := After(cron, s, Restarted);
      es := [Restarted];
    }
    LifeOfOne(cron, s1, edited);
    LifeConcat(cron, s, es, [edited]);
    EditStores(s1.history, Opened(schedule));
    es := es + [edited];
  }

  lemma {:induction false} NoPollNoClock(t: Time, es: seq<Happening>, last: Input)
    requires forall i :: 0 <= i < |es| ==> !es[i].Polled?
    requires t <= last.now <= last.end
    ensures ClockFrom(t, es + [Polled(last)])
    decreases |es|
  {
    var all := es + [Polled(last)];
    if es == [] {
      assert all[0] == Polled(last) && all[1..] == [];
    } else {
      assert all[0] == es[0] && all[1..] == es[1..] + [Polled(last)];
      NoPollNoClock(t, es[1..], last);
    }
  }

  lemma MatchingNodesAreQueued(q: Queue, k: KubeletUpgrade, nodes: seq<Node>)
    requires q.Idle() && Convertible(k.spec.selector)
    requires MatchingKeys(k.spec.selector + ExcludedNodes(), nodes) != []
    ensures Enqueue(q, k, nodes).Some? && Enqueue(q, k, nodes).value.keys != []
  {
    EnqueueEffect(q, k, nodes);
    assert MatchingKeys(k.spec.selector + ExcludedNodes(), nodes)[0] in Elems(Enqueue(q, k, nodes).value.keys);
  }

  lemma RunAddsConditions(before: KubeletUpgrade, after: KubeletUpgrade, input: Input, outcome: Outcome)
    requires outcome.Ran? && Appended(before, after, input, outcome)
    ensures after.status.conditions != before.status.conditions
  {
    assert |after.status.conditions| == |before.status.conditions| + 2;
  }

  lemma RunRecordsStart(cron: Cron, s: Site, input: Input)
    requires SiteInv(s) && CronContract(cron) && !s.crashed && input.copy == Current(s.history)
    requires EventsFit(cron, s, input) && Poll(cron, s, input).1.Ran?
    ensures Possible(cron, s, Polled(input)) && RecordsStart(cron, s, input)
  {
    CurrentIsCopy(s.history);
    PollEffect(cron, s, input);
    RunAddsConditions(Current(s.history), Current(Poll(cron, s, input).0.history), input, Poll(cron, s, input).1);
  }

  /** A calm poll of a due upgrade with a matching node puts a start on record. */
  lemma DueStarts(cron: Cron, s: Site, input: Input) returns (last: Input)
    requires SiteInv(s) && CronContract(cron) && !s.crashed && input.synced && input.calls == ALL_CALM
    requires input.copy == Current(s.history) && input.copy.spec.maxUnavailable >= 0 && Due(cron, s, input)
    requires Convertible(input.copy.spec.selector)
    requires MatchingKeys(input.copy.spec.selector + ExcludedNodes(), input.nodes) != []
    ensures last == input.(events := last.events) && Possible(cron, s, Polled(last)) && RecordsStart(cron, s, last)
  {
    MatchingNodesAreQueued(s.queue, input.copy, input.nodes);
    var events := DueUpgradeRuns(cron, s, input);
    last := input.(events := events);
    RunRecordsStart(cron, s, last);
  }

  /** A poll at `now` of an upgrade that any worker node matches. */
  lemma OpenedStarts(cron: Cron, s: Site, now: Time) returns (last: Input)
    requires SiteInv(s) && CronContract(cron) && !s.crashed && Slot(s).Some? && Slot(s).value <= now
    requires
      var k := Current(s.history);
      && k.labels == map[] && k.spec.selector == [] && k.spec.maxUnavailable >= 0
      && (now - Slot(s).value < LOOK_BACK ||
          (now - Slot(s).value == LOOK_BACK && cron(k.spec.schedule, now).Unparsable?))
    ensures Possible(cron, s, Polled(last)) && RecordsStart(cron, s, last) && last.now == now == last.end
  {
    var k := Current(s.history);
    last := Input(true, k, now, now, [ANY_NODE], ALL_CALM, []);
    ExcludedNodesMeaning([], map[]);
    assert MatchingKeys([] + ExcludedNodes(), [ANY_NODE])[0] == ANY_NODE.name;
    last := DueStarts(cron, s, last);
  }

  lemma SecondStart(cron: Cron, s: Site, first: Input) returns (es: seq<Happening>, last: Input)
    requires SiteInv(s) && CronContract(cron) && Possible(cron, s, Polled(first)) && first.now <= first.end
    requires RecordsStart(cron, s, first) && LeavesSlot(cron, first)
    requires Slot(s).Some? && WindowOpen(cron, Slot(s).value, first.end)
    ensures StartsAgain(cron, s, first, es, last)
  {
    StartMeansDue(cron, s, first);
    StartLeavesSlotExactly(cron, s, first);
    StepKeepsSite(cron, s, Polled(first));
    var s1 := After(cron, s, Polled(first));
    var schedule := "";
    if first.end - Slot(s).value == LOOK_BACK {
      schedule :| cron(schedule, first.end).Unparsable?;
    }
    es := ReopenedLife(cron, s1, schedule);
    last := OpenedStarts(cron, End(cron, s1, es), first.end);
    NoPollNoClock(first.end, es, last);
  }

  /**
   A slot whose start is on record can be started a second time, in some course of events, exactly
   if the first poll left it stored and its window is still open when that poll ends.
   */
  lemma SecondStartExactly(cron: Cron, s: Site, first: Input)
    requires SiteInv(s) && CronContract(cron) && Possible(cron, s, Polled(first)) && first.now <= first.end
    requires RecordsStart(cron, s, first)
    ensures (exists es, last :: StartsAgain(cron, s, first, es, last)) <==>
            LeavesSlot(cron, first) && Slot(s).Some? && WindowOpen(cron, Slot(s).value, first.end)
  {
    forall es, last | StartsAgain(cron, s, first, es, last)
      ensures LeavesSlot(cron, first) && Slot(s).Some? && WindowOpen(cron, Slot(s).value, first.end)
    {
      SecondStartMeansLeft(cron, s, first, es, last);
      SecondStartMeansOpen(cron, s, first, es, last);
    }
    if LeavesSlot(cron, first) && Slot(s).Some? && WindowOpen(cron, Slot(s).value, first.end) {
      var es, last := SecondStart(cron, s, first);
    }
  }

  // ---- A crash repeats the slot ----

  const LOST_AT_END := ALL_CALM.(completedStatus := Weather([], Unreachable))

  lemma EndFindsNoServer(cron: Cron, h: History, started: KubeletUpgrade, errs: seq<Report>, input: Input)
    requires h != [] && input.calls == LOST_AT_END
    ensures RecordEnd(cron, h, started, errs, input) == (h, None)
  {
  }

  lemma CrashAfterStart(cron: Cron, s: Site, input: Input)
    requires SiteInv(s) && CronContract(cron) && input.copy == Current(s.history) && input.calls == LOST_AT_END
    requires EventsFit(cron, s, input) && Gate(cron, s, input).Some? && input.copy.spec.maxUnavailable >= 0
    ensures
      var (s', outcome) := Poll(cron, s, input);
      && outcome.Crashed? && s'.crashed
      && Current(s'.history) ==
         input.copy.WithCondition(StartedCondition(input.now)).(version := Current(s'.history).version)
  {
    PollThroughGate(cron, s, input);
    var s1, k := s.(queue := Gate(cron, s, input).value.1), input.copy;
    StartRecordExactly(s.history, k, input);
    StartRecordEffect(s.history, k, input);
    var (h1, started) := StartRecord(s.history, k, input);
    var run := Exec(Init(s1.queue, k.spec.maxUnavailable, s1.cordoned), input.events);
    EndFindsNoServer(cron, h1, started.value, if run.recorded.Some? then run.recorded.value else [], input);
  }

  lemma PollAfterCrash(cron: Cron, s: Site, first: Input) returns (last: Input)
    requires SiteInv(s) && CronContract(cron) && Possible(cron, s, Polled(first))
    requires first.copy == Current(s.history) && first.calls == LOST_AT_END && first.copy.spec.maxUnavailable >= 0
    requires Gate(cron, s, first).Some?
    requires MatchingKeys(first.copy.spec.selector + ExcludedNodes(), first.nodes) != []
    requires Slot(s).Some? && first.now <= first.end < Slot(s).value + LOOK_BACK
    ensures StartsAgain(cron, s, first, [Restarted], last)
  {
    CrashAfterStart(cron, s, first);
    ComposedGate(cron, s, first);
    StepKeepsSite(cron, s, Polled(first));
    var s1 := After(cron, s, Polled(first));
    LifeOfOne(cron, s1, Restarted);
    var s2 := After(cron, s1, Restarted);
    last := first.(copy := Current(s2.history), now := first.end, calls := ALL_CALM);
    last := DueStarts(cron, s2, last);
    NoPollNoClock(first.end, [Restarted], last);
  }

  /**
   Every due slot can be started twice without anybody touching the object: the status write at the
   end of the run finds the server out of reach, the process dies on the nil object, and the first
   poll after its restart finds the same slot due.
   */
  lemma CrashRepeatsSlot(cron: Cron, s: Site, input: Input) returns (first: Input, last: Input)
    requires SiteInv(s) && CronContract(cron) && !s.crashed && input.synced && input.copy == Current(s.history)
    requires Due(cron, s, input) && input.copy.spec.maxUnavailable >= 0
    requires Convertible(input.copy.spec.selector)
    requires MatchingKeys(input.copy.spec.selector + ExcludedNodes(), input.nodes) != []
    requires input.now <= input.end < Slot(s).value + LOOK_BACK
    ensures first == input.(calls := LOST_AT_END, events := first.events)
    ensures Possible(cron, s, Polled(first)) && Poll(cron, s, first).1.Crashed?
    ensures RecordsStart(cron, s, first) && StartsAgain(cron, s, first, [Restarted], last)
  {
    MatchingNodesAreQueued(s.queue, input.copy, input.nodes);
    first := input.(calls := LOST_AT_END);
    var events := PollIsAlwaysPossible(cron, s, first);
    first := first.(events := events);
    ComposedGate(cron, s, first);
    CrashAfterStart(cron, s, first);
    PollEffect(cron, s, first);
    last := PollAfterCrash(cron, s, first);
  }
}
