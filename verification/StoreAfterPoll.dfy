/** Exactly what a poll leaves behind in the stored status: its conditions and its next time. */
module StoreAfterPoll {
  import opened Basics
  import opened KubeletUpgrade
  import opened ApiServer
  import opened UpgradeRun
  import opened Polling
  import opened PollEffects
  import opened PollOutcomes

  /** The start is put on record: the object was current and the first status write landed. */
  predicate StartLands(k: KubeletUpgrade, current: KubeletUpgrade, calls: Calls) {
    k.spec.maxUnavailable >= 0 && k == current && Lands(calls.startedStatus, k)
  }

  /** And so is the end: the first record succeeded and the second status write landed. */
  predicate EndLands(k: KubeletUpgrade, current: KubeletUpgrade, calls: Calls) {
    && StartLands(k, current, calls)
    && Answered(calls.startedStatus, k) && Answered(calls.startedMain, k) && Lands(calls.completedStatus, k)
  }

  /** The conditions after a run with the given errors, written out. */
  function WithRun(was: seq<Condition>, input: Input, started: bool, ended: bool, errs: seq<Report>): seq<Condition> {
    was
    + (if started then [Condition(input.now, Text("started kubelet upgrade"), "", StatusStarted, TypeUpgradeStarted)]
       else [])
    + (if !ended then []
       else if errs == [] then
         [Condition(input.end, Text("completed kubelet upgrade"), "", StatusCompleted, TypeUpgradeCompleted)]
       else [Condition(input.end, Errors(errs), "", StatusFailed, TypeUpgradeCompleted)])
  }

  /** The error a run records, whether or not the process survives the recording. */
  function RecordedBy(run: Run): seq<Report> {
    if run.recorded.Some? then run.recorded.value else []
  }

  lemma EndConditions(cron: Cron, h: History, k: KubeletUpgrade, started: KubeletUpgrade, errs: seq<Report>,
                      input: Input)
    requires ValidHistory(h) && started == Current(h) && started.labels == k.labels && started.spec == k.spec
    ensures Current(RecordEnd(cron, h, started, errs, input).0).status.conditions ==
            WithRun(started.status.conditions, input, false, Lands(input.calls.completedStatus, k), errs)
  {
    var clone := started.RecordUpgradeCompleted(errs, input.end);
    var w1, w2 := input.calls.completedStatus, input.calls.completedMain;
    RecordStatusEffect(h, started, clone, CompletedCondition(errs, input.end), w1, w2);
    assert Lands(w1, started) <==> Lands(w1, k);
    var (h1, done) := RecordStatus(h, clone, w1, w2);
    if done.Some? {
      RescheduleEffect(cron, h1, done.value, input);
    }
  }

  lemma StartConditions(h: History, k: KubeletUpgrade, input: Input)
    requires ValidHistory(h) && IsCopy(h, k) && k.spec.maxUnavailable >= 0
    ensures Current(StartRecord(h, k, input).0).status.conditions ==
            WithRun(Current(h).status.conditions, input, StartLands(k, Current(h), input.calls), false, [])
  {
    StartRecordEffect(h, k, input);
  }

  lemma BothConditions(was: seq<Condition>, input: Input, ended: bool, errs: seq<Report>)
    ensures WithRun(WithRun(was, input, true, false, []), input, false, ended, errs) ==
            WithRun(was, input, true, ended, errs)
  {
  }

  lemma RunConditions(cron: Cron, s: Site, k: KubeletUpgrade, input: Input)
    requires SiteInv(s) && IsCopy(s.history, k)
    requires k.spec.maxUnavailable >= 0 ==>
               Complete(Init(s.queue, k.spec.maxUnavailable, s.cordoned), input.events)
    ensures
      var (was, current) := (Current(s.history).status.conditions, Current(s.history));
      var errs := if k.spec.maxUnavailable < 0 then []
                  else RecordedBy(Exec(Init(s.queue, k.spec.maxUnavailable, s.cordoned), input.events));
      Current(StartUpgrade(cron, s, k, input).0.history).status.conditions ==
      WithRun(was, input, StartLands(k, current, input.calls), EndLands(k, current, input.calls), errs)
  {
    if k.spec.maxUnavailable >= 0 {
      StartConditions(s.history, k, input);
      StartRecordExactly(s.history, k, input);
      var (h1, started) := StartRecord(s.history, k, input);
      if started.Some? {
        var errs := RecordedBy(Exec(Init(s.queue, k.spec.maxUnavailable, s.cordoned), input.events));
        EndConditions(cron, h1, k, started.value, errs, input);
        BothConditions(Current(s.history).status.conditions, input, EndLands(k, k, input.calls), errs);
      }
    }
  }

  /**
   The stored conditions after any poll, also one that brings the process down: those from before, a
   started one if the poll passed the gate and its first write landed, and an outcome with what the run
   recorded if the start was answered and the second record's first write landed.
   */
  lemma ConditionsExactly(cron: Cron, s: Site, input: Input)
    requires SiteInv(s) && IsCopy(s.history, input.copy) && CronContract(cron) && EventsFit(cron, s, input)
    ensures
      var (k, was, current) := (input.copy, Current(s.history).status.conditions, Current(s.history));
      var gate := Gate(cron, s, input);
      Current(Poll(cron, s, input).0.history).status.conditions ==
      if gate.None? then was
      else
        var (passed, q) := gate.value;
        var errs := if passed.spec.maxUnavailable < 0 then []
                    else RecordedBy(Exec(Init(q, passed.spec.maxUnavailable, s.cordoned), input.events));
        WithRun(was, input, StartLands(k, current, input.calls), EndLands(k, current, input.calls), errs)
  {
    if Gate(cron, s, input).None? {
      PollShortOfGate(cron, s, input);
    } else {
      PollThroughGate(cron, s, input);
      RunConditions(cron, s.(queue := Gate(cron, s, input).value.1), input.copy, input);
    }
  }

  // ---- The next time ----

  /** The next time a schedule gives; one that does not parse leaves it. */
  function NextTime(cron: Cron, k: KubeletUpgrade, now: Time): Option<Time> {
    match cron(k.spec.schedule, now)
    case Next(t) => Some(t)
    case Never => None
    case Unparsable => k.status.next
  }

  lemma RolledNextTime(cron: Cron, k: KubeletUpgrade, now: Time)
    ensures k.UpdateNextScheduledTime(cron, now) == k.(status := k.status.(next := NextTime(cron, k, now)))
  {
  }

  /** Before the gate: the next time moves on exactly if it has to, of a current object, and the write lands. */
  lemma RollExactly(cron: Cron, s: Site, input: Input)
    requires SiteInv(s) && IsCopy(s.history, input.copy) && CronContract(cron) && EventsFit(cron, s, input)
    requires Gate(cron, s, input).None?
    ensures
      var (k, current) := (input.copy, Current(s.history));
      var missed := k.status.next.None? || input.now - k.status.next.value >= LOOK_BACK;
      Current(Poll(cron, s, input).0.history).status.next ==
      if input.synced && missed && k == current && Lands(input.calls.roll, k) then NextTime(cron, k, input.now)
      else current.status.next
  {
    RolledNextTime(cron, input.copy, input.now);
    RequestEffect(s.history, input.calls.roll, StatusResource,
                  input.copy.UpdateNextScheduledTime(cron, input.now), input.copy);
    PollShortOfGate(cron, s, input);
    UpdateNextEffect(cron, s.history, input.copy, input.now, false, input.calls.roll);
  }

  /** The stored next time after any poll. */
  lemma NextTimeExactly(cron: Cron, s: Site, input: Input)
    requires SiteInv(s) && IsCopy(s.history, input.copy) && CronContract(cron) && EventsFit(cron, s, input)
    ensures
      var (k, current) := (input.copy, Current(s.history));
      var missed := k.status.next.None? || input.now - k.status.next.value >= LOOK_BACK;
      Current(Poll(cron, s, input).0.history).status.next ==
      if Gate(cron, s, input).None? then
        if input.synced && missed && k == current && Lands(input.calls.roll, k) then NextTime(cron, k, input.now)
        else current.status.next
      else if Poll(cron, s, input).1.Ran? && Lands(input.calls.reschedule, k) then NextTime(cron, k, input.now)
      else current.status.next
  {
    if Gate(cron, s, input).None? {
      RollExactly(cron, s, input);
    } else {
      RolledNextTime(cron, input.copy, input.now);
      OutcomeExactly(cron, s, input);
      PollEffect(cron, s, input);
    }
  }
}
