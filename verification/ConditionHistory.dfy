/** What the stored object looks like over a whole life: its conditions, labels and spec. */
module ConditionHistory {
  import opened Basics
  import opened Labels
  import opened KubeletUpgrade
  import opened ApiServer
  import UpgradeRun
  import RunInvariant
  import RunTheorems
  import opened Polling
  import opened PollEffects
  import opened Lifecycle

  function Conditions(s: Site): seq<Condition>
    requires s.history != []
  {
    Current(s.history).status.conditions
  }

  /**
   From index `from` on: times do not decrease and none is later than `t`, and every completed
   condition directly follows a started one.
   */
  ghost predicate Chronicle(cs: seq<Condition>, from: nat, t: Time) {
    && from <= |cs|
    && (forall i :: from <= i < |cs| ==> cs[i].lastTransitionTime <= t)
    && (forall i, j :: from <= i < j < |cs| ==> cs[i].lastTransitionTime <= cs[j].lastTransitionTime)
    && (forall i :: from <= i < |cs| && cs[i].kind.TypeUpgradeCompleted? ==>
         i > from && cs[i - 1].kind.TypeUpgradeStarted?)
  }

  /** Moreover the conditions from `from` on are whole (started, completed) pairs. */
  ghost predicate Paired(cs: seq<Condition>, from: nat) {
    && from <= |cs| && (|cs| - from) % 2 == 0
    && forall i :: from <= i < |cs| ==>
         if (i - from) % 2 == 0 then cs[i].kind.TypeUpgradeStarted? && cs[i].status.StatusStarted?
         else cs[i].kind.TypeUpgradeCompleted? && !cs[i].status.StatusStarted?
  }

  /** The clock after the happenings, if it stood at `t` before. */
  function ClockAfter(t: Time, es: seq<Happening>): Time
    decreases |es|
  {
    if es == [] then t
    else ClockAfter(if es[0].Polled? then es[0].input.end else t, es[1..])
  }

  lemma StartedExtends(cs: seq<Condition>, from: nat, t: Time, now: Time)
    requires Chronicle(cs, from, t) && t <= now
    ensures Chronicle(cs + [StartedCondition(now)], from, now)
  {
  }

  lemma CompletedExtends(cs: seq<Condition>, from: nat, now: Time, errs: seq<UpgradeRun.Report>, end: Time)
    requires from <= |cs| && Chronicle(cs + [StartedCondition(now)], from, now) && now <= end
    ensures Chronicle(cs + [StartedCondition(now), CompletedCondition(errs, end)], from, end)
  {
    var ds := cs + [StartedCondition(now)];
    assert cs + [StartedCondition(now), CompletedCondition(errs, end)] == ds + [CompletedCondition(errs, end)];
  }

  lemma PairExtends(cs: seq<Condition>, from: nat, now: Time, errs: seq<UpgradeRun.Report>, end: Time)
    requires Paired(cs, from)
    ensures Paired(cs + [StartedCondition(now), CompletedCondition(errs, end)], from)
  {
  }

  lemma AppendedKeepsChronicle(before: KubeletUpgrade, after: KubeletUpgrade, input: Input, outcome: Outcome,
                                 from: nat, t: Time)
    requires Appended(before, after, input, outcome)
    requires Chronicle(before.status.conditions, from, t) && t <= input.now <= input.end
    ensures Chronicle(after.status.conditions, from, input.end)
    ensures before.status.conditions <= after.status.conditions
    ensures !outcome.Crashed? && Paired(before.status.conditions, from) ==> Paired(after.status.conditions, from)
  {
    var cs := before.status.conditions;
    StartedExtends(cs, from, t, input.now);
    forall errs
      ensures Chronicle(cs + [StartedCondition(input.now), CompletedCondition(errs, input.end)], from, input.end)
    {
      CompletedExtends(cs, from, input.now, errs, input.end);
    }
    if outcome.Ran? && Paired(cs, from) {
      PairExtends(cs, from, input.now, outcome.run.recorded.value, input.end);
    }
  }

  /** No poll of this life crashes. */
  ghost predicate NoCrash(cron: Cron, s: Site, es: seq<Happening>)
    requires SiteInv(s) && CronContract(cron) && Life(cron, s, es)
    decreases |es|
  {
    es == [] ||
    (StepKeepsSite(cron, s, es[0]);
     && (es[0].Polled? ==> !Poll(cron, s, es[0].input).1.Crashed?)
     && NoCrash(cron, After(cron, s, es[0]), es[1..]))
  }

  /**
   Over any life the stored conditions are only appended to. What is appended is a sequence of runs:
   a started condition, then possibly its completed one, in time order; and if the controller never
   crashed, nothing but whole pairs.
   */
  lemma {:induction false} ConditionsOfALife(cron: Cron, s: Site, es: seq<Happening>, from: nat, t: Time)
    requires SiteInv(s) && CronContract(cron) && Life(cron, s, es) && ClockFrom(t, es)
    requires Chronicle(Conditions(s), from, t)
    ensures Conditions(s) <= Conditions(End(cron, s, es))
    ensures Chronicle(Conditions(End(cron, s, es)), from, ClockAfter(t, es))
    ensures Paired(Conditions(s), from) && NoCrash(cron, s, es) ==> Paired(Conditions(End(cron, s, es)), from)
    decreases |es|
  {
    if es != [] {
      StepKeepsSite(cron, s, es[0]);
      var s1 := After(cron, s, es[0]);
      var u := if es[0].Polled? then es[0].input.end else t;
      match es[0] {
        case Polled(input) =>
          PollEffect(cron, s, input);
          AppendedKeepsChronicle(Current(s.history), Current(s1.history), input, Poll(cron, s, input).1, from, t);
        case Edited(edit) => EditsExtend(s.history, [edit]);
        case _ =>
      }
      ConditionsOfALife(cron, s1, es[1..], from, u);
    }
  }

  ghost predicate OnlyLastResultsMayFail(run: UpgradeRun.Run, maxUnavailable: int) {
    maxUnavailable >= 0 && forall i :: 0 <= i < |run.sent| - (maxUnavailable + 1) ==> run.sent[i].Nil?
  }

  /**
   The verdict on record. After a run that ended the last two stored conditions are its start and its
   outcome. The outcome is "completed" with no error recorded, else "failed" with the recorded errors as
   its message; these stand for all results but at most the last maxUnavailable + 1, like the error that
   poll returns, which is part of them.
   */
  lemma VerdictOnRecord(cron: Cron, s: Site, input: Input)
    requires SiteInv(s) && CronContract(cron) && Possible(cron, s, Polled(input)) && Poll(cron, s, input).1.Ran?
    ensures
      var (s', outcome) := Poll(cron, s, input);
      var (was, now, run) := (Conditions(s), Conditions(s'), outcome.run);
      && run.recorded.Some? && run.returned.Some? && run.capacity == input.copy.spec.maxUnavailable
      && |now| == |was| + 2 && now[..|was|] == was
      && now[|was|] == Condition(input.now, Text("started kubelet upgrade"), "", StatusStarted, TypeUpgradeStarted)
      && now[|was| + 1] ==
         (if run.recorded.value == [] then
            Condition(input.end, Text("completed kubelet upgrade"), "", StatusCompleted, TypeUpgradeCompleted)
          else Condition(input.end, Errors(run.recorded.value), "", StatusFailed, TypeUpgradeCompleted))
      && RunInvariant.StandsFor(run, run.recorded.value) && RunInvariant.StandsFor(run, run.returned.value)
      && run.returned.value <= run.recorded.value && (outcome.IsError() ==> now[|was| + 1].status.StatusFailed?)
      && (run.recorded.value == [] ==> OnlyLastResultsMayFail(run, input.copy.spec.maxUnavailable))
  {
    PollEffect(cron, s, input);
    if Gate(cron, s, input).None? {
      PollShortOfGate(cron, s, input);
    }
    PollThroughGate(cron, s, input);
    var q := Gate(cron, s, input).value.1;
    StartOutcome(cron, s.(queue := q), input.copy, input);
    RunTheorems.ReturnedErrorIsRecorded(q, input.copy.spec.maxUnavailable, s.cordoned, input.events);
    if Poll(cron, s, input).1.run.recorded == Some([]) {
      RunTheorems.NilRecordedErrorBound(q, input.copy.spec.maxUnavailable, s.cordoned, input.events);
    }
  }

  // ---- Labels and spec belong to the users ----

  /** Every stored version has labels and a spec from `allowed`. */
  ghost predicate UserMade(h: History, allowed: iset<(LabelMap, Spec)>) {
    forall i :: 0 <= i < |h| ==> (h[i].labels, h[i].spec) in allowed
  }

  ghost predicate EditsIn(edits: seq<Edit>, allowed: iset<(LabelMap, Spec)>) {
    forall i :: 0 <= i < |edits| ==> (edits[i].labels, edits[i].spec) in allowed
  }

  ghost predicate CallsIn(calls: Calls, allowed: iset<(LabelMap, Spec)>) {
    && EditsIn(calls.roll.edits, allowed)
    && EditsIn(calls.startedStatus.edits, allowed) && EditsIn(calls.startedMain.edits, allowed)
    && EditsIn(calls.completedStatus.edits, allowed) && EditsIn(calls.completedMain.edits, allowed)
    && EditsIn(calls.reschedule.edits, allowed)
  }

  ghost predicate HappeningsIn(es: seq<Happening>, allowed: iset<(LabelMap, Spec)>) {
    forall i :: 0 <= i < |es| ==>
      && (es[i].Polled? ==> CallsIn(es[i].input.calls, allowed))
      && (es[i].Edited? ==> (es[i].edit.labels, es[i].edit.spec) in allowed)
  }

  lemma {:induction false} EditsAreUserMade(h: History, edits: seq<Edit>, allowed: iset<(LabelMap, Spec)>)
    requires h != [] && UserMade(h, allowed) && EditsIn(edits, allowed)
    ensures UserMade(ApplyEdits(h, edits), allowed)
    decreases |edits|
  {
    if edits != [] {
      var o := Current(h).(labels := edits[0].labels, spec := edits[0].spec);
      EditsAreUserMade(Put(h, o), edits[1..], allowed);
    }
  }

  lemma RequestIsUserMade(h: History, w: Weather, resource: Resource, o: KubeletUpgrade,
                          allowed: iset<(LabelMap, Spec)>)
    requires h != [] && UserMade(h, allowed) && EditsIn(w.edits, allowed)
    requires resource.MainResource? ==> (o.labels, o.spec) in allowed
    ensures UserMade(Request(h, w, resource, o).0, allowed)
    ensures Request(h, w, resource, o).1.Some? ==>
              var reply := Request(h, w, resource, o).1.value; (reply.labels, reply.spec) in allowed
  {
    EditsAreUserMade(h, w.edits, allowed);
  }

  /** The main write of recordUpgradeStatus sends back stored labels, not the edited ones. */
  lemma RecordIsUserMade(h: History, clone: KubeletUpgrade, w1: Weather, w2: Weather, allowed: iset<(LabelMap, Spec)>)
    requires h != [] && UserMade(h, allowed) && EditsIn(w1.edits, allowed) && EditsIn(w2.edits, allowed)
    ensures UserMade(RecordStatus(h, clone, w1, w2).0, allowed)
  {
    RequestIsUserMade(h, w1, StatusResource, clone, allowed);
    var (h1, reply) := Request(h, w1, StatusResource, clone);
    if reply.Some? {
      RequestIsUserMade(h1, w2, MainResource, reply.value, allowed);
    }
  }

  lemma RecordEndIsUserMade(cron: Cron, h: History, started: KubeletUpgrade, errs: seq<UpgradeRun.Report>,
                            input: Input, allowed: iset<(LabelMap, Spec)>)
    requires h != [] && UserMade(h, allowed) && CallsIn(input.calls, allowed)
    ensures UserMade(RecordEnd(cron, h, started, errs, input).0, allowed)
  {
    var clone := started.RecordUpgradeCompleted(errs, input.end);
    RecordIsUserMade(h, clone, input.calls.completedStatus, input.calls.completedMain, allowed);
    var (h1, done) := RecordStatus(h, clone, input.calls.completedStatus, input.calls.completedMain);
    if done.Some? {
      RequestIsUserMade(h1, input.calls.reschedule, StatusResource,
                        done.value.UpdateNextScheduledTime(cron, input.now), allowed);
    }
  }

  /** The run half of a poll. */
  lemma StartIsUserMade(cron: Cron, s: Site, k: KubeletUpgrade, input: Input, allowed: iset<(LabelMap, Spec)>)
    requires s.history != [] && UserMade(s.history, allowed) && CallsIn(input.calls, allowed)
    requires k.spec.maxUnavailable >= 0 ==>
               UpgradeRun.Complete(UpgradeRun.Init(s.queue, k.spec.maxUnavailable, s.cordoned), input.events)
    ensures UserMade(StartUpgrade(cron, s, k, input).0.history, allowed)
  {
    if k.spec.maxUnavailable >= 0 {
      var clone := k.RecordUpgradeStarted(input.now);
      RecordIsUserMade(s.history, clone, input.calls.startedStatus, input.calls.startedMain, allowed);
      var (h1, started) := RecordStatus(s.history, clone, input.calls.startedStatus, input.calls.startedMain);
      if started.Some? {
        var run := UpgradeRun.Exec(UpgradeRun.Init(s.queue, k.spec.maxUnavailable, s.cordoned), input.events);
        var errs := if run.recorded.Some? then run.recorded.value else [];
        RecordEndIsUserMade(cron, h1, started.value, errs, input, allowed);
      }
    }
  }

  lemma PollIsUserMade(cron: Cron, s: Site, input: Input, allowed: iset<(LabelMap, Spec)>)
    requires s.history != [] && EventsFit(cron, s, input)
    requires UserMade(s.history, allowed) && CallsIn(input.calls, allowed)
    ensures UserMade(Poll(cron, s, input).0.history, allowed)
  {
    var k := input.copy;
    RequestIsUserMade(s.history, input.calls.roll, StatusResource, k.UpdateNextScheduledTime(cron, input.now), allowed);
    var (h1, updated) := UpdateNext(cron, s.history, k, input.now, false, input.calls.roll);
    if Gate(cron, s, input).Some? {
      var q := Gate(cron, s, input).value.1;
      StartIsUserMade(cron, s.(history := h1, queue := q), updated.value, input, allowed);
    }
  }

  /**
   Whatever set of labels and specs the users keep to, so does the store, in every version: the
   controller's own label edits, the skip label above all, are never stored.
   */
  lemma {:induction false} LabelsOfALife(cron: Cron, s: Site, es: seq<Happening>, allowed: iset<(LabelMap, Spec)>)
    requires SiteInv(s) && CronContract(cron) && Life(cron, s, es)
    requires UserMade(s.history, allowed) && HappeningsIn(es, allowed)
    ensures UserMade(End(cron, s, es).history, allowed)
    decreases |es|
  {
    if es != [] {
      StepKeepsSite(cron, s, es[0]);
      match es[0] {
        case Polled(input) => PollIsUserMade(cron, s, input, allowed);
        case Edited(edit) => EditsAreUserMade(s.history, [edit], allowed);
        case _ =>
      }
      LabelsOfALife(cron, After(cron, s, es[0]), es[1..], allowed);
    }
  }
}
