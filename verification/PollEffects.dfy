/** What a single poll does to the stored object and to the queue, for every input. */
module PollEffects {
  import opened Basics
  import opened Labels
  import opened KubeletUpgrade
  import opened ApiServer
  import opened WorkQueue
  import opened UpgradeRun
  import opened RunTermination
  import opened RunTheorems
  import opened Polling

  // ---- Single operations ----

  /** Nothing is written unless the window has passed; what is written is the schedule's answer. */
  lemma UpdateNextEffect(cron: Cron, h: History, k: KubeletUpgrade, now: Time, force: bool, w: Weather)
    requires ValidHistory(h) && IsCopy(h, k)
    ensures
      var (h', r) := UpdateNext(cron, h, k, now, force, w);
      var rolled := k.UpdateNextScheduledTime(cron, now);
      && ValidHistory(h') && h <= h'
      && (r.Some? ==> IsCopy(h', r.value))
      && (!MustRoll(k, now) && !force ==> h' == h && r == Some(k))
      && (Current(h').status == Current(h).status || (k == Current(h) && Current(h').status == rolled.status))
      && ((MustRoll(k, now) || force) && r.Some? ==>
           && r.value == Current(h') && k == Current(h)
           && Current(h') == rolled.(version := Current(h').version))
      && (r.None? && !w.fate.ReplyLost? ==> Current(h').status == Current(h).status)
  {
    RequestEffect(h, w, StatusResource, k.UpdateNextScheduledTime(cron, now), k);
  }

  /** The clone that recordUpgradeStatus sends: the object with a condition added and labels edited. */
  ghost predicate IsRecord(k: KubeletUpgrade, clone: KubeletUpgrade, c: Condition) {
    clone == k.WithCondition(c).(labels := clone.labels)
  }

  /**
   The net effect of the two writes. Exactly one condition is added if the object was current and
   the first write landed, and none otherwise; the second write never adds anything. Labels, spec
   and next time are those the users' edits left: the label set or removed on the clone is never
   stored.
   */
  lemma RecordStatusEffect(h: History, k: KubeletUpgrade, clone: KubeletUpgrade, c: Condition, w1: Weather, w2: Weather)
    requires ValidHistory(h) && IsCopy(h, k) && IsRecord(k, clone, c)
    ensures
      var (h', r) := RecordStatus(h, clone, w1, w2);
      var before, after := Current(h), Current(h');
      && ValidHistory(h') && h <= h'
      && after.status.next == before.status.next
      && (w1.edits == [] && w2.edits == [] ==> after.labels == before.labels && after.spec == before.spec)
      && (after.status.conditions != before.status.conditions <==> k == before && Lands(w1, k))
      && (after.status.conditions != before.status.conditions ==>
           after.status.conditions == before.status.conditions + [c])
      && (r.Some? ==>
           && k == before && r.value == after
           && after == k.WithCondition(c).(version := after.version))
  {
    RequestEffect(h, w1, StatusResource, clone, k);
    var (h1, reply) := Request(h, w1, StatusResource, clone);
    EditsExtend(h, w1.edits);
    EditsExtend(h1, w2.edits);
    assert |k.status.conditions + [c]| != |k.status.conditions|;
    if reply.Some? {
      RequestEffect(h1, w2, MainResource, reply.value, reply.value);
      assert reply.value.(labels := reply.value.labels, spec := reply.value.spec) == reply.value;
    }
  }

  /**
   A record succeeds exactly if its object is current, both writes are answered, and no edit that
   gets in before one of them changes anything.
   */
  lemma RecordSucceedsExactly(h: History, k: KubeletUpgrade, clone: KubeletUpgrade, c: Condition,
                              w1: Weather, w2: Weather)
    requires ValidHistory(h) && IsCopy(h, k) && IsRecord(k, clone, c)
    ensures RecordStatus(h, clone, w1, w2).1.Some? <==> k == Current(h) && Answered(w1, k) && Answered(w2, k)
  {
    RequestEffect(h, w1, StatusResource, clone, k);
    var (h1, reply) := Request(h, w1, StatusResource, clone);
    if reply.Some? {
      RequestEffect(h1, w2, MainResource, reply.value, reply.value);
    }
  }

  // ---- The gate ----

  /** The look-back window as poll applies it to the copy it was given. */
  predicate Due(cron: Cron, s: Site, input: Input)
    requires s.history != []
  {
    && KEY_KUBELET_UPGRADE_SKIP !in input.copy.labels
    && input.copy.status.next.Some?
    && var late := input.now - input.copy.status.next.value;
       && late >= 0
       && (late < LOOK_BACK ||
           (late == LOOK_BACK && cron(input.copy.spec.schedule, input.now).Unparsable?
            && input.copy == Current(s.history) && Answered(input.calls.roll, input.copy)))
  }

  /** The first write of a poll fails: the next time has to be rolled and the request does not come back. */
  predicate RollFails(s: Site, input: Input)
    requires s.history != []
  {
    && (input.copy.status.next.None? || input.now - input.copy.status.next.value >= LOOK_BACK)
    && !(input.copy == Current(s.history) && Answered(input.calls.roll, input.copy))
  }

  /** How far the first two steps of a poll get; what passes them is the copy itself, and nothing was written. */
  lemma WindowExactly(cron: Cron, s: Site, input: Input)
    requires SiteInv(s) && IsCopy(s.history, input.copy) && CronContract(cron)
    ensures
      var (h, updated) := UpdateNext(cron, s.history, input.copy, input.now, false, input.calls.roll);
      && (updated.None? <==> RollFails(s, input))
      && (updated.Some? && CanUpgrade(updated.value, input.now) <==> Due(cron, s, input))
      && (Due(cron, s, input) ==> h == s.history && updated == Some(input.copy))
  {
    var k := input.copy;
    var w := input.calls.roll;
    UpdateNextEffect(cron, s.history, k, input.now, false, w);
    RequestEffect(s.history, w, StatusResource, k.UpdateNextScheduledTime(cron, input.now), k);
  }

  lemma EmptyStays(q: Queue, q': Queue, keys: seq<Key>)
    requires q.Idle() && q'.Idle() && q.keys <= q'.keys && Elems(q'.keys) == Elems(q.keys) + Elems(keys)
    ensures q'.keys == [] ==> q' == q
    ensures q'.keys != [] <==> q.keys != [] || keys != []
  {
    if q'.keys == [] {
      assert q'.dirty == {} && q.dirty == {};
    }
    if q.keys != [] {
      assert q.keys[0] in Elems(q'.keys);
    }
    if keys != [] {
      assert keys[0] in Elems(q'.keys);
    }
    if q'.keys != [] {
      assert q'.keys[0] in Elems(q.keys) + Elems(keys);
    }
  }

  /**
   Adding the matching nodes fails exactly for a malformed selector. Otherwise it keeps the queue idle,
   keeps the waiting keys in front and loses none.
   */
  lemma EnqueueEffect(q: Queue, k: KubeletUpgrade, nodes: seq<Node>)
    requires q.Idle()
    ensures Enqueue(q, k, nodes).Some? <==>
            forall r :: r in k.spec.selector ==> ((r.op.In? || r.op.NotIn?) <==> r.values != {})
    ensures
      Enqueue(q, k, nodes).Some? ==>
        var (q', keys) := (Enqueue(q, k, nodes).value, MatchingKeys(k.spec.selector + ExcludedNodes(), nodes));
        && q'.Idle() && q.keys <= q'.keys
        && Elems(q'.keys) == Elems(q.keys) + Elems(keys)
        && q'.keys == q.keys + FirstSeen(keys, Elems(q.keys))
        && (q'.keys == [] ==> q' == q)
        && (q'.keys != [] <==> q.keys != [] || keys != [])
  {
    SelectorConverts(k.spec.selector);
    if Convertible(k.spec.selector) {
      AddAllExtends(q, MatchingKeys(k.spec.selector + ExcludedNodes(), nodes));
      AddAllKeys(q, MatchingKeys(k.spec.selector + ExcludedNodes(), nodes));
      EmptyStays(q, Enqueue(q, k, nodes).value, MatchingKeys(k.spec.selector + ExcludedNodes(), nodes));
    }
  }

  /**
   A poll reaches startUpgrade exactly when its copy has no skip label and a next time at most five
   minutes ago, strictly less than five if the schedule parses, its selector is well-formed, and a key
   is waiting or a node matches. What passes the gate is the copy itself, and nothing was written.
   */
  lemma ComposedGate(cron: Cron, s: Site, input: Input)
    requires SiteInv(s) && IsCopy(s.history, input.copy) && CronContract(cron)
    ensures
      var (selector, q) := (input.copy.spec.selector, Enqueue(s.queue, input.copy, input.nodes));
      && (Gate(cron, s, input).Some? <==>
            && input.synced && Due(cron, s, input) && Convertible(selector)
            && (s.queue.keys != [] || MatchingKeys(selector + ExcludedNodes(), input.nodes) != []))
      && (Gate(cron, s, input).Some? ==>
           && q.Some? && Gate(cron, s, input).value == (input.copy, q.value)
           && UpdateNext(cron, s.history, input.copy, input.now, false, input.calls.roll) ==
              (s.history, Some(input.copy)))
  {
    WindowExactly(cron, s, input);
    EnqueueEffect(s.queue, input.copy, input.nodes);
  }

  /** Whatever a poll is given, the run it may start has a complete interleaving. */
  lemma PollIsAlwaysPossible(cron: Cron, s: Site, input: Input) returns (events: seq<Event>)
    requires SiteInv(s) && IsCopy(s.history, input.copy) && CronContract(cron)
    ensures EventsFit(cron, s, input.(events := events))
  {
    events := [];
    ComposedGate(cron, s, input);
    assert Gate(cron, s, input.(events := events)) == Gate(cron, s, input);
    if Gate(cron, s, input).Some? && input.copy.spec.maxUnavailable >= 0 {
      EnqueueEffect(s.queue, input.copy, input.nodes);
      var q := Gate(cron, s, input).value.1;
      events := SomeInterleaving(q, input.copy.spec.maxUnavailable, s.cordoned);
      assert Gate(cron, s, input.(events := events)) == Gate(cron, s, input);
    }
  }

  /** Passing the gate means going straight to startUpgrade with the copy and the filled queue. */
  lemma PollThroughGate(cron: Cron, s: Site, input: Input)
    requires SiteInv(s) && IsCopy(s.history, input.copy) && CronContract(cron) && EventsFit(cron, s, input)
    requires Gate(cron, s, input).Some?
    ensures
      var (k, q) := Gate(cron, s, input).value;
      && k == input.copy && q.Idle() && q.keys != []
      && Poll(cron, s, input) == StartUpgrade(cron, s.(queue := q), k, input)
  {
    ComposedGate(cron, s, input);
    EnqueueEffect(s.queue, input.copy, input.nodes);
  }

  /** Short of the gate all a poll can do is the first write. */
  lemma OnlyHistoryMoves(cron: Cron, s: Site, input: Input)
    requires SiteInv(s) && EventsFit(cron, s, input) && Gate(cron, s, input).None?
    ensures
      var (s', outcome) := Poll(cron, s, input);
      var h := UpdateNext(cron, s.history, input.copy, input.now, false, input.calls.roll).0;
      s' == s.(history := if input.synced then h else s.history) && !outcome.Ran? && !outcome.Crashed?
  {
    var updated := UpdateNext(cron, s.history, input.copy, input.now, false, input.calls.roll).1;
    if updated.Some? {
      EnqueueEffect(s.queue, updated.value, input.nodes);
    }
  }

  /** Short of the gate, a poll writes at most a new next time, and no run starts. */
  lemma PollShortOfGate(cron: Cron, s: Site, input: Input)
    requires SiteInv(s) && IsCopy(s.history, input.copy) && CronContract(cron) && EventsFit(cron, s, input)
    requires Gate(cron, s, input).None?
    ensures
      var (s', outcome) := Poll(cron, s, input);
      && ValidHistory(s'.history) && s.history <= s'.history && s' == s.(history := s'.history)
      && !outcome.Ran? && !outcome.Crashed? && (!input.synced ==> s' == s)
      && (Current(s'.history).status == Current(s.history).status ||
          Current(s'.history).status == Current(s.history).UpdateNextScheduledTime(cron, input.now).status)
  {
    UpdateNextEffect(cron, s.history, input.copy, input.now, false, input.calls.roll);
    OnlyHistoryMoves(cron, s, input);
  }

  // ---- The run ----

  /** The conditions one run adds: none or one or both if the controller crashed, else both. */
  ghost predicate Appended(before: KubeletUpgrade, after: KubeletUpgrade, input: Input, outcome: Outcome) {
    var was, now := before.status.conditions, after.status.conditions;
    match outcome
    case Ran(_, run, _) =>
      run.recorded.Some? &&
      now == was + [StartedCondition(input.now), CompletedCondition(run.recorded.value, input.end)]
    case Crashed =>
      || now == was
      || now == was + [StartedCondition(input.now)]
      || exists errs :: now == was + [StartedCondition(input.now), CompletedCondition(errs, input.end)]
    case _ => now == was
  }

  lemma CompleteRecords(q: Queue, capacity: nat, cordoned: set<Key>, es: seq<Event>)
    requires q.Idle() && Complete(Init(q, capacity, cordoned), es)
    ensures Exec(Init(q, capacity, cordoned), es).recorded.Some?
  {
    ReturnedErrorIsRecorded(q, capacity, cordoned, es);
  }

  /**
   How the next time moves over the end of a run, given what the deferred closure came to: it moves
   on exactly if the last write reaches the store, and the controller knows if it was answered.
   */
  ghost predicate Rescheduled(cron: Cron, before: KubeletUpgrade, after: KubeletUpgrade, r: Option<bool>,
                              input: Input)
  {
    var rolled := before.UpdateNextScheduledTime(cron, input.now).status.next;
    && (r.None? ==> after.status.next == before.status.next)
    && (r.Some? ==>
         && after.status.next == (if Lands(input.calls.reschedule, before) then rolled else before.status.next)
         && (r.value <==> Answered(input.calls.reschedule, before))
         && (r.value ==> after.spec == before.spec && after.labels == before.labels))
  }

  /** The last write of a run moves the next time and nothing else; its failure is survived. */
  lemma RescheduleEffect(cron: Cron, h: History, k: KubeletUpgrade, input: Input)
    requires ValidHistory(h) && k == Current(h)
    ensures
      var (h', r) := UpdateNext(cron, h, k, input.now, true, input.calls.reschedule);
      && ValidHistory(h') && h <= h'
      && Current(h').status.conditions == k.status.conditions
      && Rescheduled(cron, k, Current(h'), Some(r.Some?), input)
  {
    RequestEffect(h, input.calls.reschedule, StatusResource, k.UpdateNextScheduledTime(cron, input.now), k);
  }

  /** A condition more or less makes no difference to how the next time moves. */
  lemma RescheduledAlike(cron: Cron, k: KubeletUpgrade, l: KubeletUpgrade, after: KubeletUpgrade, r: Option<bool>,
                         input: Input)
    requires Rescheduled(cron, k, after, r, input)
    requires l.labels == k.labels && l.spec == k.spec && l.status.next == k.status.next
    ensures Rescheduled(cron, l, after, r, input)
  {
  }

  lemma RecordEndEffect(cron: Cron, h: History, started: KubeletUpgrade, errs: seq<Report>, input: Input)
    requires ValidHistory(h) && IsCopy(h, started)
    ensures
      var (h', r) := RecordEnd(cron, h, started, errs, input);
      var before, after := Current(h), Current(h');
      var c := CompletedCondition(errs, input.end);
      && ValidHistory(h') && h <= h'
      && (after.status.conditions == before.status.conditions + [c] ||
          (r.None? && after.status.conditions == before.status.conditions))
      && Rescheduled(cron, before, after, r, input)
  {
    var c := CompletedCondition(errs, input.end);
    var clone := started.RecordUpgradeCompleted(errs, input.end);
    var w1, w2 := input.calls.completedStatus, input.calls.completedMain;
    RecordStatusEffect(h, started, clone, c, w1, w2);
    var (h1, done) := RecordStatus(h, clone, w1, w2);
    if done.Some? {
      RescheduleEffect(cron, h1, done.value, input);
      var (h2, next) := UpdateNext(cron, h1, done.value, input.now, true, input.calls.reschedule);
      RescheduledAlike(cron, done.value, started, Current(h2), Some(next.Some?), input);
    }
  }

  /** The first record of a run. */
  function StartRecord(h: History, k: KubeletUpgrade, input: Input): (r: (History, Option<KubeletUpgrade>))
    requires h != []
    ensures r.0 != []
  {
    RecordStatus(h, k.RecordUpgradeStarted(input.now), input.calls.startedStatus, input.calls.startedMain)
  }

  lemma StartRecordEffect(h: History, k: KubeletUpgrade, input: Input)
    requires ValidHistory(h) && IsCopy(h, k)
    ensures
      var (h1, started) := StartRecord(h, k, input);
      var before, after := Current(h), Current(h1);
      var c := StartedCondition(input.now);
      && ValidHistory(h1) && h <= h1
      && after.status.next == before.status.next
      && (after.status.conditions != before.status.conditions <==>
            k == before && Lands(input.calls.startedStatus, k))
      && (after.status.conditions != before.status.conditions ==>
            after.status.conditions == before.status.conditions + [c])
      && (started.Some? ==>
           && k == before && started.value == after && IsCopy(h1, after)
           && after == k.WithCondition(c).(version := after.version))
  {
    var clone := k.RecordUpgradeStarted(input.now);
    RecordStatusEffect(h, k, clone, StartedCondition(input.now), input.calls.startedStatus, input.calls.startedMain);
  }

  /** Both records of a run on the history alone, once the first one succeeded. */
  lemma BothRecordsEffect(cron: Cron, h: History, k: KubeletUpgrade, errs: seq<Report>, input: Input)
    requires ValidHistory(h) && IsCopy(h, k) && StartRecord(h, k, input).1.Some?
    ensures
      var (h1, started) := StartRecord(h, k, input);
      var (h2, r) := RecordEnd(cron, h1, started.value, errs, input);
      var after := Current(h2);
      var c, d := StartedCondition(input.now), CompletedCondition(errs, input.end);
      && ValidHistory(h2) && h <= h2 && k == Current(h)
      && (after.status.conditions == k.status.conditions + [c, d] ||
          (r.None? && after.status.conditions == k.status.conditions + [c]))
      && Rescheduled(cron, k, after, r, input)
  {
    StartRecordEffect(h, k, input);
    var (h1, started) := StartRecord(h, k, input);
    RecordEndEffect(cron, h1, started.value, errs, input);
    var c, d := StartedCondition(input.now), CompletedCondition(errs, input.end);
    assert k.status.conditions + [c] + [d] == k.status.conditions + [c, d];
  }

  /** startUpgrade on the history: what the two records and the reschedule leave behind. */
  lemma StartEffect(cron: Cron, s: Site, k: KubeletUpgrade, input: Input)
    requires ValidHistory(s.history) && s.queue.Idle() && IsCopy(s.history, k)
    requires k.spec.maxUnavailable >= 0 ==>
               Complete(Init(s.queue, k.spec.maxUnavailable, s.cordoned), input.events)
    ensures
      var (s', outcome) := StartUpgrade(cron, s, k, input);
      var before, after := Current(s.history), Current(s'.history);
      && ValidHistory(s'.history) && s.history <= s'.history
      && Appended(before, after, input, outcome)
      && (after.status.conditions != before.status.conditions <==>
            k.spec.maxUnavailable >= 0 && k == before && Lands(input.calls.startedStatus, k))
      && (outcome.Crashed? ==> after.status.next == before.status.next)
      && (outcome.Ran? ==> k == before && Rescheduled(cron, k, after, Some(outcome.rescheduled), input))
  {
    if k.spec.maxUnavailable >= 0 {
      StartRecordEffect(s.history, k, input);
      if StartRecord(s.history, k, input).1.Some? {
        CompleteRecords(s.queue, k.spec.maxUnavailable, s.cordoned, input.events);
        var run := Exec(Init(s.queue, k.spec.maxUnavailable, s.cordoned), input.events);
        BothRecordsEffect(cron, s.history, k, run.recorded.value, input);
      }
    }
  }

  /** A run that happened is the given interleaving from the given queue; a crash empties the queue. */
  lemma StartOutcome(cron: Cron, s: Site, k: KubeletUpgrade, input: Input)
    requires s.history != [] && s.queue.Idle()
    requires k.spec.maxUnavailable >= 0 ==>
               Complete(Init(s.queue, k.spec.maxUnavailable, s.cordoned), input.events)
    ensures
      var (s', outcome) := StartUpgrade(cron, s, k, input);
      && (outcome.Ran? || outcome.Crashed?) && s'.queue.Idle()
      && (outcome.Crashed? ==> s'.crashed && s'.queue == EMPTY)
      && (outcome.Ran? ==>
           && outcome.gate == k && k.spec.maxUnavailable >= 0
           && outcome.run == Exec(Init(s.queue, k.spec.maxUnavailable, s.cordoned), input.events)
           && s'.queue == outcome.run.queue && s'.cordoned == outcome.run.cordoned && s'.crashed == s.crashed)
  {
    if k.spec.maxUnavailable >= 0 {
      SpawnBound(s.queue, k.spec.maxUnavailable, s.cordoned, input.events);
    }
  }

  /**
   Everything a poll can do to the stored status. Conditions are only ever appended, and exactly by
   a poll that passes the gate with the current version, whose own slot is due then, and whose first
   write lands.
   */
  lemma PollEffect(cron: Cron, s: Site, input: Input)
    requires SiteInv(s) && IsCopy(s.history, input.copy) && CronContract(cron) && EventsFit(cron, s, input)
    ensures
      var (s', outcome) := Poll(cron, s, input);
      var before, after := Current(s.history), Current(s'.history);
      && SiteInv(s') && s.history <= s'.history
      && Appended(before, after, input, outcome)
      && (outcome.Crashed? ==> s'.crashed && s'.queue == EMPTY)
      && (after.status.conditions != before.status.conditions <==>
            && Gate(cron, s, input).Some? && input.copy == before && input.copy.spec.maxUnavailable >= 0
            && Lands(input.calls.startedStatus, input.copy))
      && (after.status.conditions != before.status.conditions ==> Due(cron, s, input))
      && (after.status.next == before.status.next ||
          after.status.next == before.UpdateNextScheduledTime(cron, input.now).status.next)
      && (outcome.Crashed? ==> after.status.next == before.status.next)
      && (outcome.Ran? ==> input.copy == before && Rescheduled(cron, before, after, Some(outcome.rescheduled), input))
  {
    if Gate(cron, s, input).Some? {
      ComposedGate(cron, s, input);
      PollThroughGate(cron, s, input);
      var q := Gate(cron, s, input).value.1;
      var s1, k := s.(queue := q), input.copy;
      StartOutcome(cron, s1, k, input);
      StartEffect(cron, s1, k, input);
    } else {
      PollShortOfGate(cron, s, input);
    }
  }
}
