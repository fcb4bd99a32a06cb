/**
 The KubeletUpgrade object as a value: what the API server stores and the controller reads.
 A nil label map or condition list reads as an empty one. Times are nanoseconds.
 */
module KubeletUpgrade {
  import opened Basics
  import opened Labels
  import UpgradeRun

  type Time = int

  const MINUTE: Time := 60_000_000_000
  const LOOK_BACK: Time := 5 * MINUTE

  datatype ConditionStatus = StatusStarted | StatusCompleted | StatusFailed

  datatype ConditionType = TypeUpgradeStarted | TypeUpgradeCompleted

  datatype Message = Text(text: string) | Errors(errs: seq<UpgradeRun.Report>)

  const MESSAGE_UPGRADE_STARTED := Text("started kubelet upgrade")
  const MESSAGE_UPGRADE_COMPLETED := Text("completed kubelet upgrade")

  datatype Condition = Condition(lastTransitionTime: Time, message: Message, reason: string,
                                 status: ConditionStatus, kind: ConditionType)

  datatype Spec = Spec(maxUnavailable: int, schedule: string, selector: seq<Requirement>)

  /** `next` is None for the zero time. */
  datatype Status = Status(conditions: seq<Condition>, next: Option<Time>)

  /** What parsing a schedule and asking for its next activation after an instant can give. */
  datatype CronResult = Unparsable | Never | Next(time: Time)

  type Cron = (string, Time) -> CronResult

  /** Next is strictly later, and whether a schedule parses does not depend on the instant. */
  ghost predicate CronContract(cron: Cron) {
    && (forall s, t :: cron(s, t).Next? ==> cron(s, t).time > t)
    && (forall s, t, u :: cron(s, t).Unparsable? ==> cron(s, u).Unparsable?)
  }

  /** The schedule `s` stands for a fixed set of activation times. */
  ghost predicate HasActivations(cron: Cron, s: string, activations: iset<Time>) {
    forall t ::
      match cron(s, t)
      case Unparsable => false
      case Never => forall a :: a in activations ==> a <= t
      case Next(n) => n in activations && n > t && forall a :: a in activations && a > t ==> n <= a
  }

  function StartedCondition(now: Time): Condition {
    Condition(now, MESSAGE_UPGRADE_STARTED, "", StatusStarted, TypeUpgradeStarted)
  }

  /** `errs` is the error collected from the workers; the empty sequence is nil. */
  function CompletedCondition(errs: seq<UpgradeRun.Report>, now: Time): Condition {
    if errs == [] then Condition(now, MESSAGE_UPGRADE_COMPLETED, "", StatusCompleted, TypeUpgradeCompleted)
    else Condition(now, Errors(errs), "", StatusFailed, TypeUpgradeCompleted)
  }

  datatype KubeletUpgrade = KubeletUpgrade(name: string, version: nat, labels: LabelMap, spec: Spec, status: Status) {

    function WithCondition(c: Condition): KubeletUpgrade {
      this.(status := status.(conditions := status.conditions + [c]))
    }

    function UpdateNextScheduledTime(cron: Cron, now: Time): KubeletUpgrade {
      match cron(spec.schedule, now)
      case Unparsable => this
      case Never => this.(status := status.(next := None))
      case Next(t) => this.(status := status.(next := Some(t)))
    }

    function RecordUpgradeStarted(now: Time): KubeletUpgrade {
      this.(labels := labels[KEY_KUBELET_UPGRADE_SKIP := "true"]).WithCondition(StartedCondition(now))
    }

    function RecordUpgradeCompleted(errs: seq<UpgradeRun.Report>, now: Time): KubeletUpgrade {
      this.(labels := labels - {KEY_KUBELET_UPGRADE_SKIP}).WithCondition(CompletedCondition(errs, now))
    }
  }

  /**
   Started, then completed: the skip label is gone, two conditions are new, nothing else moved. The
   second condition reports success exactly if there were no errors, and the errors otherwise.
   */
  lemma StartedThenCompleted(k: KubeletUpgrade, errs: seq<UpgradeRun.Report>, start: Time, end: Time)
    ensures
      var r := k.RecordUpgradeStarted(start).RecordUpgradeCompleted(errs, end);
      var n := |k.status.conditions|;
      && r.labels == k.labels - {"clusterop.isim.dev/skip"}
      && |r.status.conditions| == n + 2 && r.status.conditions[..n] == k.status.conditions
      && r.status.conditions[n] ==
         Condition(start, Text("started kubelet upgrade"), "", StatusStarted, TypeUpgradeStarted)
      && r.status.conditions[n + 1] ==
         (if errs == [] then
            Condition(end, Text("completed kubelet upgrade"), "", StatusCompleted, TypeUpgradeCompleted)
          else Condition(end, Errors(errs), "", StatusFailed, TypeUpgradeCompleted))
      && r.status.next == k.status.next && r.spec == k.spec && r.name == k.name && r.version == k.version
  {
  }

  /** The lister's filter leaves out the clone made at the start and takes the one made at the end. */
  lemma SkipLabelToggles(k: KubeletUpgrade, errs: seq<UpgradeRun.Report>, start: Time, end: Time)
    ensures !MatchesAll(ExcludedKubeletUpgrade(), k.RecordUpgradeStarted(start).labels)
    ensures MatchesAll(ExcludedKubeletUpgrade(), k.RecordUpgradeCompleted(errs, end).labels)
  {
    assert !ExcludedKubeletUpgrade()[0].Matches(k.RecordUpgradeStarted(start).labels);
  }
}
