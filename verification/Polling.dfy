/**
 One poll of one KubeletUpgrade, as a function of everything it depends on: the copy of the object
 the cache handed over, the clock, the nodes listed, what happens around each API call and how the
 goroutines of the run interleave.
 */
module Polling {
  import opened Basics
  import opened Labels
  import opened KubeletUpgrade
  import opened ApiServer
  import opened WorkQueue
  import opened UpgradeRun

  datatype Node = Node(name: Key, labels: LabelMap)

  /** The part of the world one upgrade's polls act on. */
  datatype Site = Site(history: History, queue: Queue, cordoned: set<Key>, crashed: bool)

  /** The API calls a poll may make, in order. */
  datatype Calls = Calls(roll: Weather, startedStatus: Weather, startedMain: Weather,
                         completedStatus: Weather, completedMain: Weather, reschedule: Weather)

  const ALL_CALM := Calls(CALM, CALM, CALM, CALM, CALM, CALM)

  /** `end` is the clock when the run is over; `events` the interleaving of the run, if there is one. */
  datatype Input = Input(synced: bool, copy: KubeletUpgrade, now: Time, end: Time,
                         nodes: seq<Node>, calls: Calls, events: seq<Event>)

  datatype Outcome =
    | NotSynced
    | UpdateFailed
    | NotDue
    | BadSelector
    | NoNodes
    | Crashed
    | Ran(gate: KubeletUpgrade, run: Run, rescheduled: bool)
  {
    /** Whether poll returns a non-nil error. */
    predicate IsError() {
      UpdateFailed? || BadSelector? || (Ran? && run.returned != Some([]))
    }
  }

  /** The next scheduled time is missing, or the look-back window has passed. */
  predicate MustRoll(k: KubeletUpgrade, now: Time) {
    k.status.next.None? || (k.status.next.value < now && now - k.status.next.value >= LOOK_BACK)
  }

  function UpdateNext(cron: Cron, h: History, k: KubeletUpgrade, now: Time, force: bool, w: Weather)
    : (r: (History, Option<KubeletUpgrade>))
    requires h != []
    ensures r.0 != []
  {
    if MustRoll(k, now) || force then Request(h, w, StatusResource, k.UpdateNextScheduledTime(cron, now))
    else (h, Some(k))
  }

  predicate CanUpgrade(k: KubeletUpgrade, now: Time) {
    && KEY_KUBELET_UPGRADE_SKIP !in k.labels
    && k.status.next.Some?
    && var next := k.status.next.value;
       now == next || (now - next <= LOOK_BACK && now - next >= 0)
  }

  /** The keys of the listed nodes that match, in the lister's order. */
  function MatchingKeys(selector: seq<Requirement>, nodes: seq<Node>): seq<Key> {
    if nodes == [] then []
    else
      (if MatchesAll(selector, nodes[0].labels) then [nodes[0].name] else []) + MatchingKeys(selector, nodes[1..])
  }

  function Enqueue(q: Queue, k: KubeletUpgrade, nodes: seq<Node>): Option<Queue> {
    match AsSelector(k.spec.selector)
    case None => None
    case Some(selector) => Some(q.AddAll(MatchingKeys(selector + ExcludedNodes(), nodes)))
  }

  /**
   recordUpgradeStatus: a status write of the clone, then a main write of whatever came back.
   An object comes back only if both writes succeeded.
   */
  function RecordStatus(h: History, clone: KubeletUpgrade, w1: Weather, w2: Weather)
    : (r: (History, Option<KubeletUpgrade>))
    requires h != []
    ensures r.0 != []
  {
    var (h1, reply) := Request(h, w1, StatusResource, clone);
    if reply.None? then (h1, None) else Request(h1, w2, MainResource, reply.value)
  }

  /** The process is gone, and its queues with it. */
  function Crash(s: Site): Site {
    s.(queue := EMPTY, crashed := true)
  }

  /**
   The deferred closure of startUpgrade: None if it crashes, else whether the next scheduled time
   was updated; a failure of that last write is only logged.
   */
  function RecordEnd(cron: Cron, h: History, started: KubeletUpgrade, errs: seq<Report>, input: Input)
    : (r: (History, Option<bool>))
    requires h != []
    ensures r.0 != []
  {
    var (h1, completed) := RecordStatus(h, started.RecordUpgradeCompleted(errs, input.end),
                                        input.calls.completedStatus, input.calls.completedMain);
    if completed.None? then (h1, None)
    else
      var (h2, next) := UpdateNext(cron, h1, completed.value, input.now, true, input.calls.reschedule);
      (h2, Some(next.Some?))
  }

  /** startUpgrade from the spawn loop on. */
  function RunAndRecord(cron: Cron, s: Site, k: KubeletUpgrade, started: KubeletUpgrade, input: Input)
    : (r: (Site, Outcome))
    requires s.history != [] && k.spec.maxUnavailable >= 0
    requires Complete(Init(s.queue, k.spec.maxUnavailable, s.cordoned), input.events)
    ensures r.0.history != []
  {
    var run := Exec(Init(s.queue, k.spec.maxUnavailable, s.cordoned), input.events);
    var errs := if run.recorded.Some? then run.recorded.value else [];
    var (h, rescheduled) := RecordEnd(cron, s.history, started, errs, input);
    var s2 := s.(history := h, queue := run.queue, cordoned := run.cordoned);
    if rescheduled.None? then (Crash(s2), Crashed) else (s2, Ran(k, run, rescheduled.value))
  }

  /**
   startUpgrade. A negative capacity makes the channel panic. If a "started" or "completed" record
   fails, the nil object it leaves behind is dereferenced: by the workers before they take a key,
   or by the deferred closure.
   */
  function StartUpgrade(cron: Cron, s: Site, k: KubeletUpgrade, input: Input): (r: (Site, Outcome))
    requires s.history != []
    requires k.spec.maxUnavailable >= 0 ==>
               Complete(Init(s.queue, k.spec.maxUnavailable, s.cordoned), input.events)
    ensures r.0.history != []
  {
    if k.spec.maxUnavailable < 0 then (Crash(s), Crashed)
    else
      var (h1, started) := RecordStatus(s.history, k.RecordUpgradeStarted(input.now),
                                        input.calls.startedStatus, input.calls.startedMain);
      if started.None? then (Crash(s.(history := h1)), Crashed)
      else RunAndRecord(cron, s.(history := h1), k, started.value, input)
  }

  /** The object that passed every check before startUpgrade, with the queue it was given. */
  function Gate(cron: Cron, s: Site, input: Input): Option<(KubeletUpgrade, Queue)>
    requires s.history != []
  {
    if !input.synced then None
    else
      var (h1, updated) := UpdateNext(cron, s.history, input.copy, input.now, false, input.calls.roll);
      if updated.None? || !CanUpgrade(updated.value, input.now) then None
      else
        var q := Enqueue(s.queue, updated.value, input.nodes);
        if q.None? || q.value.keys == [] then None else Some((updated.value, q.value))
  }

  /** If the poll starts a run, `events` is a complete interleaving of that run. */
  ghost predicate EventsFit(cron: Cron, s: Site, input: Input)
    requires s.history != []
  {
    match Gate(cron, s, input)
    case None => true
    case Some((k, q)) =>
      k.spec.maxUnavailable >= 0 ==> Complete(Init(q, k.spec.maxUnavailable, s.cordoned), input.events)
  }

  /** The second half of poll, for an object that may be upgraded. */
  function EnqueueAndStart(cron: Cron, s: Site, k: KubeletUpgrade, input: Input): (r: (Site, Outcome))
    requires s.history != []
    requires var q := Enqueue(s.queue, k, input.nodes);
             q.Some? && q.value.keys != [] && k.spec.maxUnavailable >= 0 ==>
               Complete(Init(q.value, k.spec.maxUnavailable, s.cordoned), input.events)
    ensures r.0.history != []
  {
    match Enqueue(s.queue, k, input.nodes)
    case None => (s, BadSelector)
    case Some(q) =>
      if q.keys == [] then (s.(queue := q), NoNodes)
      else StartUpgrade(cron, s.(queue := q), k, input)
  }

  function Poll(cron: Cron, s: Site, input: Input): (r: (Site, Outcome))
    requires s.history != [] && EventsFit(cron, s, input)
    ensures r.0.history != []
  {
    if !input.synced then (s, NotSynced)
    else
      var (h1, updated) := UpdateNext(cron, s.history, input.copy, input.now, false, input.calls.roll);
      var s1 := s.(history := h1);
      if updated.None? then (s1, UpdateFailed)
      else if !CanUpgrade(updated.value, input.now) then (s1, NotDue)
      else EnqueueAndStart(cron, s1, updated.value, input)
  }

  /** What holds of an upgrade between two polls. */
  ghost predicate SiteInv(s: Site) {
    ValidHistory(s.history) && s.queue.Idle()
  }
}
