/**
 The controller itself: the methods of controller.go over the cluster's state and the controller's
 own map of work queues, each proved against the functions the theorems are about.
 */
module Controller {
  import opened Basics
  import opened Labels
  import opened KubeletUpgrade
  import opened ApiServer
  import opened WorkQueue
  import opened UpgradeRun
  import opened RunInvariant
  import opened RunTermination
  import opened Polling
  import opened PollEffects
  import opened PollOutcomes
  import opened Lifecycle
  import opened AllUpgrades
  import opened SchedulePass

  function NonEmpty(queues: map<string, Queue>): map<string, Queue> {
    map n | n in queues && queues[n] != EMPTY :: queues[n]
  }

  /** The cluster: every object's versions, and the nodes that are unschedulable. */
  class Cluster {
    var histories: map<string, History>
    var cordoned: set<Key>

    constructor ()
      ensures histories == map[] && cordoned == {}
    {
      histories, cordoned := map[], {};
    }

    method Send(w: Weather, resource: Resource, o: KubeletUpgrade) returns (reply: Option<KubeletUpgrade>)
      requires o.name in histories && histories[o.name] != []
      modifies this`histories
      ensures histories == old(histories)[o.name := Request(old(histories)[o.name], w, resource, o).0]
      ensures reply == Request(old(histories)[o.name], w, resource, o).1
    {
      var r := Request(histories[o.name], w, resource, o);
      histories := histories[o.name := r.0];
      reply := r.1;
    }
  }

  lemma PassFailsExtend(outcomes: seq<Outcome>, outcome: Outcome)
    ensures PassFails(outcomes + [outcome]) <==> PassFails(outcomes) || outcome.IsError()
  {
    if PassFails(outcomes) {
      var i :| 0 <= i < |outcomes| && outcomes[i].IsError();
      assert (outcomes + [outcome])[i].IsError();
    }
    if outcome.IsError() {
      assert (outcomes + [outcome])[|outcomes|].IsError();
    }
  }

  class Controller {
    const cluster: Cluster
    const cron: Cron
    var workqueues: map<string, Queue>
    var crashed: bool

    constructor (cluster: Cluster, cron: Cron)
      ensures this.cluster == cluster && this.cron == cron && workqueues == map[] && !crashed
    {
      this.cluster, this.cron, workqueues, crashed := cluster, cron, map[], false;
    }

    /** The state as the theorems see it: a queue without keys counts as no queue. */
    ghost function State(): World
      reads this, cluster
    {
      World(cluster.histories, NonEmpty(workqueues), cluster.cordoned, crashed)
    }

    ghost predicate Valid()
      reads this, cluster
    {
      WorldInv(State()) && CronContract(cron)
    }

    /** The nil dereference or channel panic that ends the process. */
    method Panic()
      modifies this
      ensures crashed && workqueues == map[]
    {
      crashed, workqueues := true, map[];
    }

    method Queue(name: string) returns (q: Queue)
      modifies this`workqueues
      ensures q == QueueOf(old(workqueues), name)
      ensures workqueues == old(workqueues)[name := q]
    {
      if name !in workqueues {
        workqueues := workqueues[name := EMPTY];
      }
      q := workqueues[name];
    }

    method EnqueueNode(k: KubeletUpgrade, key: Key)
      modifies this`workqueues
      ensures workqueues == old(workqueues)[k.name := QueueOf(old(workqueues), k.name).Add(key)]
    {
      var q := Queue(k.name);
      workqueues := workqueues[k.name := q.Add(key)];
    }

    /** False for a selector that cannot be converted; then nothing is enqueued. */
    method EnqueueMatchingNodes(k: KubeletUpgrade, nodes: seq<Node>) returns (ok: bool)
      modifies this`workqueues
      ensures ok <==> Enqueue(QueueOf(old(workqueues), k.name), k, nodes).Some?
      ensures ok <==> forall r :: r in k.spec.selector ==> ((r.op.In? || r.op.NotIn?) <==> r.values != {})
      ensures QueueOf(workqueues, k.name) ==
              if ok then Enqueue(QueueOf(old(workqueues), k.name), k, nodes).value else QueueOf(old(workqueues), k.name)
      ensures forall n :: n != k.name ==> QueueOf(workqueues, n) == QueueOf(old(workqueues), n)
    {
      var selector := AsSelector(k.spec.selector);
      SelectorConverts(k.spec.selector);
      if selector.None? {
        return false;
      }
      var keys := MatchingKeys(selector.value + ExcludedNodes(), nodes);
      for i := 0 to |keys|
        invariant QueueOf(workqueues, k.name).AddAll(keys[i..]) == QueueOf(old(workqueues), k.name).AddAll(keys)
        invariant forall n :: n != k.name ==> QueueOf(workqueues, n) == QueueOf(old(workqueues), n)
      {
        assert keys[i..][0] == keys[i] && keys[i..][1..] == keys[i + 1..];
        EnqueueNode(k, keys[i]);
      }
      ok := true;
    }

    method UpdateNextScheduledTime(k: KubeletUpgrade, now: Time, force: bool, w: Weather)
      returns (updated: Option<KubeletUpgrade>)
      requires k.name in cluster.histories && cluster.histories[k.name] != []
      modifies cluster`histories
      ensures var (h, r) := UpdateNext(cron, old(cluster.histories)[k.name], k, now, force, w);
              cluster.histories == old(cluster.histories)[k.name := h] && updated == r
    {
      if MustRoll(k, now) || force {
        var clone := k.UpdateNextScheduledTime(cron, now);
        updated := cluster.Send(w, StatusResource, clone);
      } else {
        updated := Some(k);
      }
    }

    /** An unknown status is an error before anything is written. */
    method RecordUpgradeStatus(k: KubeletUpgrade, status: string, errs: seq<Report>, now: Time,
                               w1: Weather, w2: Weather)
      returns (updated: Option<KubeletUpgrade>)
      requires k.name in cluster.histories
      requires ValidHistory(cluster.histories[k.name]) && IsCopy(cluster.histories[k.name], k)
      modifies cluster`histories
      ensures
        var h := old(cluster.histories)[k.name];
        var (h', r) :=
          if status == "completed" then RecordStatus(h, k.RecordUpgradeCompleted(errs, now), w1, w2)
          else if status == "started" then RecordStatus(h, k.RecordUpgradeStarted(now), w1, w2)
          else (h, None);
        cluster.histories == old(cluster.histories)[k.name := h'] && updated == r
    {
      var clone;
      if status == "completed" {
        clone := k.RecordUpgradeCompleted(errs, now);
      } else if status == "started" {
        clone := k.RecordUpgradeStarted(now);
      } else {
        return None;
      }
      RequestEffect(cluster.histories[k.name], w1, StatusResource, clone, k);
      updated := cluster.Send(w1, StatusResource, clone);
      if updated.Some? {
        updated := cluster.Send(w2, MainResource, updated.value);
      }
    }

    /** The error returned stands for all reports of the run but at most the last few. */
    static ghost predicate ReturnsCollected(run: Run) {
      run.returned.Some? && StandsFor(run, run.returned.value)
    }

    /** The goroutines of a run, moved one atomic action at a time in an arbitrary order. */
    method RunWorkers(q: Queue, capacity: nat) returns (run: Run, ghost events: seq<Event>)
      requires q.Idle()
      ensures Complete(Init(q, capacity, cluster.cordoned), events)
      ensures run == Exec(Init(q, capacity, cluster.cordoned), events)
      ensures run.start == q.keys && run.main.Done?
      ensures run.recorded.Some? && ReturnsCollected(run)
    {
      InitInv(q, capacity, cluster.cordoned);
      run := Init(q, capacity, cluster.cordoned);
      events := [];
      while !run.main.Done?
        invariant Legal(Init(q, capacity, cluster.cordoned), events)
        invariant run == Exec(Init(q, capacity, cluster.cordoned), events) && Inv(run) && run.start == q.keys
        decreases Remaining(run)
      {
        ghost var possible := NeverStuck(run);
        var e :| Enabled(run, e);
        RunGoesOn(Init(q, capacity, cluster.cordoned), events, e);
        events := events + [e];
        run := UpgradeRun.Step(run, e);
      }
    }

    /** One upgrade's share of the state. */
    ghost function SiteNow(name: string): Site
      requires name in cluster.histories
      reads this, cluster
    {
      Site(cluster.histories[name], QueueOf(workqueues, name), cluster.cordoned, crashed)
    }

    /** Against an earlier state: the others' objects are the same, and their queues while the process lives. */
    ghost predicate OthersKept(histories: map<string, History>, queues: map<string, Queue>, name: string)
      reads this, cluster
    {
      && cluster.histories.Keys == histories.Keys && name in histories
      && (forall n :: n in histories && n != name ==> cluster.histories[n] == histories[n])
      && (if crashed then workqueues == map[]
          else forall n :: n != name ==> QueueOf(workqueues, n) == QueueOf(queues, n))
    }

    /** Let the workers loose on the queue, and wait for them. */
    method WorkOff(name: string, capacity: nat) returns (run: Run, ghost events: seq<Event>)
      requires QueueOf(workqueues, name).Idle()
      modifies this`workqueues, cluster`cordoned
      ensures Complete(Init(QueueOf(old(workqueues), name), capacity, old(cluster.cordoned)), events)
      ensures run == Exec(Init(QueueOf(old(workqueues), name), capacity, old(cluster.cordoned)), events)
      ensures run.recorded.Some? && ReturnsCollected(run)
      ensures workqueues == old(workqueues)[name := run.queue] && cluster.cordoned == run.cordoned
    {
      var q := Queue(name);
      run, events := RunWorkers(q, capacity);
      workqueues := workqueues[name := run.queue];
      cluster.cordoned := run.cordoned;
    }

    /** The deferred closure: None if the completed record fails. */
    method Finish(started: KubeletUpgrade, errs: seq<Report>, input: Input) returns (rescheduled: Option<bool>)
      requires started.name in cluster.histories
      requires ValidHistory(cluster.histories[started.name]) && IsCopy(cluster.histories[started.name], started)
      modifies cluster`histories
      ensures var (h, r) := RecordEnd(cron, old(cluster.histories)[started.name], started, errs, input);
              cluster.histories == old(cluster.histories)[started.name := h] && rescheduled == r
    {
      var calls := input.calls;
      ghost var h := cluster.histories[started.name];
      RecordStatusEffect(h, started, started.RecordUpgradeCompleted(errs, input.end),
                         CompletedCondition(errs, input.end), calls.completedStatus, calls.completedMain);
      var completed := RecordUpgradeStatus(started, "completed", errs, input.end,
                                           calls.completedStatus, calls.completedMain);
      if completed.None? {
        return None;
      }
      var next := UpdateNextScheduledTime(completed.value, input.now, true, calls.reschedule);
      rescheduled := Some(next.Some?);
    }

    /** From the spawn loop on. */
    method RunAndRecord(k: KubeletUpgrade, started: KubeletUpgrade, input: Input)
      returns (outcome: Outcome, ghost events: seq<Event>)
      requires k.name in cluster.histories && !crashed && k.spec.maxUnavailable >= 0 && started.name == k.name
      requires SiteInv(SiteNow(k.name)) && IsCopy(cluster.histories[k.name], started)
      modifies this, cluster
      ensures Complete(Init(old(SiteNow(k.name)).queue, k.spec.maxUnavailable, old(cluster.cordoned)), events)
      ensures OthersKept(old(cluster.histories), old(workqueues), k.name)
      ensures (SiteNow(k.name), outcome) ==
              Polling.RunAndRecord(cron, old(SiteNow(k.name)), k, started, input.(events := events))
      ensures outcome.Ran? ==> ReturnsCollected(outcome.run)
    {
      var run: Run;
      run, events := WorkOff(k.name, k.spec.maxUnavailable);
      var rescheduled := Finish(started, run.recorded.value, input);
      if rescheduled.None? {
        Panic();
        outcome := Crashed;
      } else {
        outcome := Ran(k, run, rescheduled.value);
      }
    }

    /** startUpgrade once the channel has been made. */
    method RecordAndRun(k: KubeletUpgrade, input: Input) returns (outcome: Outcome, ghost events: seq<Event>)
      requires k.name in cluster.histories && !crashed && k.spec.maxUnavailable >= 0
      requires SiteInv(SiteNow(k.name)) && IsCopy(cluster.histories[k.name], k)
      modifies this, cluster
      ensures Complete(Init(old(SiteNow(k.name)).queue, k.spec.maxUnavailable, old(cluster.cordoned)), events)
      ensures OthersKept(old(cluster.histories), old(workqueues), k.name)
      ensures (SiteNow(k.name), outcome) ==
              Polling.StartUpgrade(cron, old(SiteNow(k.name)), k, input.(events := events))
      ensures outcome.Ran? ==> ReturnsCollected(outcome.run)
    {
      ghost var before := SiteNow(k.name);
      StartRecordEffect(before.history, k, input);
      var started := RecordUpgradeStatus(k, "started", [], input.now,
                                         input.calls.startedStatus, input.calls.startedMain);
      if started.None? {
        events := SomeInterleaving(before.queue, k.spec.maxUnavailable, cluster.cordoned);
        Panic();
        outcome := Crashed;
      } else {
        outcome, events := RunAndRecord(k, started.value, input);
      }
      RecordThenRun(cron, before, k, input.(events := events));
    }

    /** `events` is the interleaving that happened; if no worker got to run it is any possible one. */
    method StartUpgrade(k: KubeletUpgrade, input: Input) returns (outcome: Outcome, ghost events: seq<Event>)
      requires k.name in cluster.histories && !crashed
      requires SiteInv(SiteNow(k.name)) && IsCopy(cluster.histories[k.name], k)
      modifies this, cluster
      ensures k.spec.maxUnavailable >= 0 ==>
                Complete(Init(old(SiteNow(k.name)).queue, k.spec.maxUnavailable, old(cluster.cordoned)), events)
      ensures OthersKept(old(cluster.histories), old(workqueues), k.name)
      ensures (SiteNow(k.name), outcome) ==
              Polling.StartUpgrade(cron, old(SiteNow(k.name)), k, input.(events := events))
      ensures outcome.Ran? ==> ReturnsCollected(outcome.run)
    {
      if k.spec.maxUnavailable < 0 {
        Panic();
        outcome, events := Crashed, [];
      } else {
        outcome, events := RecordAndRun(k, input);
      }
    }

    /** The world's state is put together from one upgrade's share and the others' unchanged ones. */
    lemma StateFromSite(before: World, queues: map<string, Queue>, name: string)
      requires WorldInv(before) && before.queues == NonEmpty(queues)
      requires OthersKept(before.histories, queues, name)
      ensures State() == WithSite(before, name, SiteNow(name))
    {
      var after := WithSite(before, name, SiteNow(name));
      assert State().histories == after.histories;
      forall n
        ensures QueueOf(State().queues, n) == QueueOf(after.queues, n)
        ensures n in State().queues <==> n in after.queues
      {
        assert n != name && !crashed ==> QueueOf(workqueues, n) == QueueOf(queues, n);
      }
      assert State().queues == after.queues;
    }

    method EnqueueAndStart(k: KubeletUpgrade, input: Input) returns (outcome: Outcome, ghost events: seq<Event>)
      requires k.name in cluster.histories && !crashed
      requires SiteInv(SiteNow(k.name)) && IsCopy(cluster.histories[k.name], k)
      modifies this, cluster
      ensures OthersKept(old(cluster.histories), old(workqueues), k.name)
      ensures
        var q := Enqueue(old(SiteNow(k.name)).queue, k, input.nodes);
        q.Some? && q.value.keys != [] && k.spec.maxUnavailable >= 0 ==>
          Complete(Init(q.value, k.spec.maxUnavailable, old(cluster.cordoned)), events)
      ensures (SiteNow(k.name), outcome) ==
              Polling.EnqueueAndStart(cron, old(SiteNow(k.name)), k, input.(events := events))
    {
      ghost var before := SiteNow(k.name);
      events := [];
      var ok := EnqueueMatchingNodes(k, input.nodes);
      if !ok {
        return BadSelector, events;
      }
      var q := Queue(k.name);
      if q.keys == [] {
        return NoNodes, events;
      }
      EnqueueEffect(before.queue, k, input.nodes);
      outcome, events := StartUpgrade(k, input);
    }

    method PollSite(input: Input) returns (outcome: Outcome, ghost events: seq<Event>)
      requires !crashed && input.copy.name in cluster.histories
      requires SiteInv(SiteNow(input.copy.name)) && IsCopy(cluster.histories[input.copy.name], input.copy)
      modifies this, cluster
      ensures OthersKept(old(cluster.histories), old(workqueues), input.copy.name)
      ensures
        var happened := input.(events := events);
        && EventsFit(cron, old(SiteNow(input.copy.name)), happened)
        && (SiteNow(input.copy.name), outcome) == Polling.Poll(cron, old(SiteNow(input.copy.name)), happened)
    {
      var name := input.copy.name;
      ghost var before := SiteNow(name);
      events := [];
      if !input.synced {
        return NotSynced, events;
      }
      UpdateNextEffect(cron, before.history, input.copy, input.now, false, input.calls.roll);
      var updated := UpdateNextScheduledTime(input.copy, input.now, false, input.calls.roll);
      if updated.None? {
        return UpdateFailed, events;
      }
      if !CanUpgrade(updated.value, input.now) {
        return NotDue, events;
      }
      outcome, events := EnqueueAndStart(updated.value, input);
    }

    /**
     One poll is one step of the world, for some interleaving of the run it may start and whatever
     the cluster does.
     */
    method Poll(input: Input) returns (outcome: Outcome, ghost events: seq<Event>)
      requires Valid() && !crashed
      requires input.copy.name in cluster.histories && IsCopy(cluster.histories[input.copy.name], input.copy)
      modifies this, cluster
      ensures Valid()
      ensures
        var name := input.copy.name;
        var happened := input.(events := events);
        && CanHappen(cron, old(State()), name, Polled(happened))
        && State() == Advance(cron, old(State()), name, Polled(happened))
        && outcome == Polling.Poll(cron, SiteOf(old(State()), name), happened).1
        && (outcome.IsError() <==> MustFail(cron, SiteOf(old(State()), name), happened))
    {
      var name := input.copy.name;
      ghost var before := State();
      ghost var queues, site := workqueues, SiteNow(name);
      assert site == SiteOf(before, name) && SiteInv(site);
      outcome, events := PollSite(input);
      ghost var happened := input.(events := events);
      StepKeepsWorld(cron, before, name, Polled(happened));
      StateFromSite(before, queues, name);
      ErrorExactly(cron, site, happened);
    }

    /**
     pollSchedules: reads the clock once, polls the listed upgrades one after the other, and reports
     whether any poll failed. `polled` are the polls that took place, with their interleavings: all
     that were listed, unless one crashed.
     */
    method PollSchedules(now: Time, inputs: seq<Input>)
      returns (failed: bool, outcomes: seq<Outcome>, ghost polled: seq<Input>)
      requires Valid() && !crashed && CopiesOf(State(), inputs)
      modifies this, cluster
      ensures Valid() && Progress(cron, old(State()), State(), Listed(inputs), now, polled, outcomes)
      ensures !crashed ==> |polled| == |Listed(inputs)|
      ensures failed <==> PassFails(outcomes)
      ensures failed <==> SomeMustFail(cron, old(State()), polled)
    {
      var listed := Listed(inputs);
      CopiesOfListed(State(), inputs);
      failed, outcomes, polled := false, [], [];
      ghost var start := State();
      for i := 0 to |listed|
        invariant Valid() && !crashed && |polled| == i
        invariant Progress(cron, start, State(), listed, now, polled, outcomes)
        invariant failed <==> PassFails(outcomes)
      {
        ghost var before := State();
        var outcome;
        ghost var events;
        outcome, events := Poll(listed[i].(now := now));
        ghost var happened := listed[i].(now := now, events := events);
        ProgressStep(cron, start, before, listed, now, polled, outcomes, happened);
        PassFailsExtend(outcomes, outcome);
        polled, outcomes, failed := polled + [happened], outcomes + [outcome], failed || outcome.IsError();
        if crashed {
          PassFailsExactly(cron, start, polled);
          return;
        }
      }
      PassFailsExactly(cron, start, polled);
    }
  }
}
