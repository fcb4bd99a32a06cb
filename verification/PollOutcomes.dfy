/** Exactly when a poll completes its run, when it brings the process down, and when it is rescheduled. */
module PollOutcomes {
  import opened Basics
  import opened Labels
  import opened KubeletUpgrade
  import opened ApiServer
  import opened UpgradeRun
  import opened Polling
  import opened PollEffects
  import opened Lifecycle

  /** All four calls that record the start and the end of a run are answered. */
  predicate RecordsAnswered(calls: Calls, k: KubeletUpgrade) {
    && Answered(calls.startedStatus, k) && Answered(calls.startedMain, k)
    && Answered(calls.completedStatus, k) && Answered(calls.completedMain, k)
  }

  lemma EndSucceedsExactly(cron: Cron, h: History, started: KubeletUpgrade, errs: seq<Report>, input: Input)
    requires ValidHistory(h) && started == Current(h)
    ensures RecordEnd(cron, h, started, errs, input).1.Some? <==>
            Answered(input.calls.completedStatus, started) && Answered(input.calls.completedMain, started)
  {
    var clone := started.RecordUpgradeCompleted(errs, input.end);
    RecordSucceedsExactly(h, started, clone, CompletedCondition(errs, input.end),
                          input.calls.completedStatus, input.calls.completedMain);
  }

  /** Whether a call is answered depends on the labels and the spec alone. */
  lemma AnsweredAlike(w: Weather, k: KubeletUpgrade, l: KubeletUpgrade)
    requires k.labels == l.labels && k.spec == l.spec
    ensures Answered(w, k) <==> Answered(w, l)
  {
  }

  /** The run itself never fails to end, so only its last record decides. */
  lemma RunSucceedsExactly(cron: Cron, s: Site, k: KubeletUpgrade, started: KubeletUpgrade, input: Input)
    requires ValidHistory(s.history) && started == Current(s.history) && k.spec.maxUnavailable >= 0
    requires started.labels == k.labels && started.spec == k.spec
    requires Complete(Init(s.queue, k.spec.maxUnavailable, s.cordoned), input.events)
    ensures RunAndRecord(cron, s, k, started, input).1.Ran? <==>
            Answered(input.calls.completedStatus, k) && Answered(input.calls.completedMain, k)
  {
    var run := Exec(Init(s.queue, k.spec.maxUnavailable, s.cordoned), input.events);
    AnsweredAlike(input.calls.completedStatus, started, k);
    AnsweredAlike(input.calls.completedMain, started, k);
    EndSucceedsExactly(cron, s.history, started, if run.recorded.Some? then run.recorded.value else [], input);
  }

  lemma StartRecordExactly(h: History, k: KubeletUpgrade, input: Input)
    requires ValidHistory(h) && IsCopy(h, k)
    ensures
      var (h1, started) := StartRecord(h, k, input);
      && (started.Some? <==>
            k == Current(h) && Answered(input.calls.startedStatus, k) && Answered(input.calls.startedMain, k))
      && (started.Some? ==>
            && ValidHistory(h1) && started.value == Current(h1)
            && started.value.labels == k.labels && started.value.spec == k.spec)
  {
    StartRecordEffect(h, k, input);
    RecordSucceedsExactly(h, k, k.RecordUpgradeStarted(input.now), StartedCondition(input.now),
                          input.calls.startedStatus, input.calls.startedMain);
  }

  lemma RecordThenRun(cron: Cron, s: Site, k: KubeletUpgrade, input: Input)
    requires s.history != [] && k.spec.maxUnavailable >= 0
    requires Complete(Init(s.queue, k.spec.maxUnavailable, s.cordoned), input.events)
    ensures
      var (h1, started) := StartRecord(s.history, k, input);
      StartUpgrade(cron, s, k, input) ==
      if started.None? then (Crash(s.(history := h1)), Crashed)
      else RunAndRecord(cron, s.(history := h1), k, started.value, input)
  {
  }

  /** What startUpgrade comes to, for the object `k` it is given. */
  lemma StartSucceedsExactly(cron: Cron, s: Site, k: KubeletUpgrade, input: Input)
    requires SiteInv(s) && IsCopy(s.history, k)
    requires k.spec.maxUnavailable >= 0 ==>
               Complete(Init(s.queue, k.spec.maxUnavailable, s.cordoned), input.events)
    ensures StartUpgrade(cron, s, k, input).1.Ran? <==>
            k.spec.maxUnavailable >= 0 && k == Current(s.history) && RecordsAnswered(input.calls, k)
  {
    if k.spec.maxUnavailable >= 0 {
      RecordThenRun(cron, s, k, input);
      StartRecordExactly(s.history, k, input);
      var (h1, started) := StartRecord(s.history, k, input);
      if started.Some? {
        RunSucceedsExactly(cron, s.(history := h1), k, started.value, input);
      }
    }
  }

  /**
   A poll that passes the gate completes its run exactly if its copy is the current version,
   maxUnavailable is not negative, and each of the four record calls is answered without an edit
   having changed anything before it; otherwise the process ends. The next time is known to be moved
   on exactly if the last call is answered too.
   */
  lemma OutcomeExactly(cron: Cron, s: Site, input: Input)
    requires SiteInv(s) && IsCopy(s.history, input.copy) && CronContract(cron) && EventsFit(cron, s, input)
    ensures
      var (k, outcome) := (input.copy, Poll(cron, s, input).1);
      var sound := k == Current(s.history) && k.spec.maxUnavailable >= 0 && RecordsAnswered(input.calls, k);
      && (outcome.Ran? <==> Gate(cron, s, input).Some? && sound)
      && (outcome.Crashed? <==> Gate(cron, s, input).Some? && !sound)
      && (outcome.Ran? ==> (outcome.rescheduled <==> Answered(input.calls.reschedule, k)))
  {
    if Gate(cron, s, input).None? {
      PollShortOfGate(cron, s, input);
    } else {
      PollThroughGate(cron, s, input);
      var s1 := s.(queue := Gate(cron, s, input).value.1);
      StartSucceedsExactly(cron, s1, input.copy, input);
      StartOutcome(cron, s1, input.copy, input);
      PollEffect(cron, s, input);
    }
  }

  /** How a poll ends that does not start a run. */
  lemma WaitExactly(cron: Cron, s: Site, input: Input)
    requires SiteInv(s) && IsCopy(s.history, input.copy) && CronContract(cron) && EventsFit(cron, s, input)
    ensures
      var (selector, outcome) := (input.copy.spec.selector, Poll(cron, s, input).1);
      && (outcome.NotSynced? <==> !input.synced)
      && (outcome.UpdateFailed? <==> input.synced && RollFails(s, input))
      && (outcome.BadSelector? <==> input.synced && Due(cron, s, input) && !Convertible(selector))
      && (outcome.NoNodes? <==>
            && input.synced && Due(cron, s, input) && Convertible(selector)
            && s.queue.keys == [] && MatchingKeys(selector + ExcludedNodes(), input.nodes) == [])
      && (outcome.NotDue? <==> input.synced && !Due(cron, s, input) && !RollFails(s, input))
  {
    WindowExactly(cron, s, input);
    EnqueueEffect(s.queue, input.copy, input.nodes);
    if Gate(cron, s, input).Some? {
      ComposedGate(cron, s, input);
      PollThroughGate(cron, s, input);
      StartOutcome(cron, s.(queue := Gate(cron, s, input).value.1), input.copy, input);
    }
  }

  /**
   When poll has an error to return: the next time is unset or at least five minutes old and its update
   fails, as the copy is outdated or the call is not answered; or the upgrade is due and its selector is
   malformed; or the run it starts returns one.
   */
  ghost predicate MustFail(cron: Cron, s: Site, input: Input)
    requires s.history != [] && EventsFit(cron, s, input)
  {
    || (&& input.synced && (input.copy.status.next.None? || input.now - input.copy.status.next.value >= LOOK_BACK)
        && !(input.copy == Current(s.history) && Answered(input.calls.roll, input.copy)))
    || (&& input.synced && Due(cron, s, input)
        && exists r :: r in input.copy.spec.selector && ((r.op.In? || r.op.NotIn?) != (r.values != {})))
    || (Poll(cron, s, input).1.Ran? && Poll(cron, s, input).1.run.returned != Some([]))
  }

  lemma ErrorExactly(cron: Cron, s: Site, input: Input)
    requires SiteInv(s) && IsCopy(s.history, input.copy) && CronContract(cron) && EventsFit(cron, s, input)
    ensures Poll(cron, s, input).1.IsError() <==> MustFail(cron, s, input)
  {
    WaitExactly(cron, s, input);
  }

  /** A calm poll with a fresh copy runs exactly if it passes the gate, and the process lives on. */
  lemma CalmPollSurvives(cron: Cron, s: Site, input: Input)
    requires SiteInv(s) && IsCopy(s.history, input.copy) && CronContract(cron) && EventsFit(cron, s, input)
    requires input.calls == ALL_CALM && input.copy == Current(s.history) && input.copy.spec.maxUnavailable >= 0
    ensures Poll(cron, s, input).1.Ran? <==> Gate(cron, s, input).Some?
    ensures Poll(cron, s, input).0.crashed == s.crashed
  {
    OutcomeExactly(cron, s, input);
    if Gate(cron, s, input).None? {
      PollShortOfGate(cron, s, input);
    } else {
      PollThroughGate(cron, s, input);
      StartOutcome(cron, s.(queue := Gate(cron, s, input).value.1), input.copy, input);
    }
  }

  lemma DueRuns(cron: Cron, s: Site, input: Input)
    requires SiteInv(s) && CronContract(cron) && input.synced && input.calls == ALL_CALM
    requires input.copy == Current(s.history) && input.copy.spec.maxUnavailable >= 0 && Due(cron, s, input)
    requires Enqueue(s.queue, input.copy, input.nodes).Some?
    requires Enqueue(s.queue, input.copy, input.nodes).value.keys != [] && EventsFit(cron, s, input)
    ensures Poll(cron, s, input).1.Ran? && Poll(cron, s, input).1.rescheduled
  {
    CurrentIsCopy(s.history);
    ComposedGate(cron, s, input);
    OutcomeExactly(cron, s, input);
  }

  /** A due upgrade with a key to work on, polled in calm weather with a fresh copy, runs to the end. */
  lemma DueUpgradeRuns(cron: Cron, s: Site, input: Input) returns (events: seq<Event>)
    requires SiteInv(s) && CronContract(cron) && input.synced && input.calls == ALL_CALM
    requires input.copy == Current(s.history) && input.copy.spec.maxUnavailable >= 0 && Due(cron, s, input)
    requires Enqueue(s.queue, input.copy, input.nodes).Some?
    requires Enqueue(s.queue, input.copy, input.nodes).value.keys != []
    ensures EventsFit(cron, s, input.(events := events))
    ensures Poll(cron, s, input.(events := events)).1.Ran? && Poll(cron, s, input.(events := events)).1.rescheduled
  {
    CurrentIsCopy(s.history);
    events := PollIsAlwaysPossible(cron, s, input);
    DueRuns(cron, s, input.(events := events));
  }

  /** A real edit leaves the current version a copy, but an outdated one. */
  lemma EditOutdates(h: History, edit: Edit)
    requires ValidHistory(h) && !Repeats([edit], Current(h))
    ensures IsCopy(ApplyEdits(h, [edit]), Current(h)) && Current(h) != Current(ApplyEdits(h, [edit]))
  {
    CurrentIsCopy(h);
    EditsExtend(h, [edit]);
    EditsLeaveNoTrace(h, [edit]);
  }

  lemma StaleCrashes(cron: Cron, s: Site, input: Input)
    requires SiteInv(s) && CronContract(cron) && EventsFit(cron, s, input) && input.synced
    requires IsCopy(s.history, input.copy) && input.copy != Current(s.history) && Due(cron, s, input)
    requires Enqueue(s.queue, input.copy, input.nodes).Some?
    requires Enqueue(s.queue, input.copy, input.nodes).value.keys != []
    ensures Poll(cron, s, input).1.Crashed?
  {
    ComposedGate(cron, s, input);
    OutcomeExactly(cron, s, input);
  }

  /**
   With a reachable server too: if a user edits a due upgrade and the next poll still sees the copy
   from before the edit, that poll brings the process down.
   */
  lemma StaleCopyCrashes(cron: Cron, s: Site, edit: Edit, input: Input) returns (events: seq<Event>)
    requires SiteInv(s) && CronContract(cron) && input.synced && input.calls == ALL_CALM
    requires input.copy == Current(s.history) && !Repeats([edit], input.copy)
    requires SiteInv(After(cron, s, Edited(edit))) && Due(cron, After(cron, s, Edited(edit)), input)
    requires Enqueue(s.queue, input.copy, input.nodes).Some?
    requires Enqueue(s.queue, input.copy, input.nodes).value.keys != []
    ensures
      var s1, happened := After(cron, s, Edited(edit)), input.(events := events);
      IsCopy(s1.history, input.copy) && EventsFit(cron, s1, happened) && Poll(cron, s1, happened).1.Crashed?
  {
    var s1 := After(cron, s, Edited(edit));
    EditOutdates(s.history, edit);
    events := PollIsAlwaysPossible(cron, s1, input);
    StaleCrashes(cron, s1, input.(events := events));
  }
}
