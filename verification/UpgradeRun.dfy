/**
 One upgrade run: the goroutines of startUpgrade, runWorker and upgradeKubelet as a state machine.

 The actors are the main goroutine (spawn loop, wait, close, return, deferred closure), one worker
 per loop iteration, and the collector that drains the error channel and is never joined. An event
 is one atomic action of one actor; the order of the events is the interleaving, and the replies
 inside them are what the cluster answered.
 */
module UpgradeRun {
  import opened Basics
  import opened WorkQueue

  /** The call of upgradeKubelet that failed. */
  datatype Cause = LookupFailed | CordonFailed | DrainFailed | UncordonFailed

  /** What upgradeKubelet hands back to runWorker. */
  datatype Result = Upgraded | Failed(cause: Cause, notFound: bool)

  /** What a worker sends on the error channel: nil, or an error that names its node. */
  datatype Report = Nil | Error(key: Key, cause: Cause)

  /** The cluster's answer to a lookup, cordon, drain or uncordon. */
  datatype Reply = Ok | Fails(notFound: bool)

  datatype Main = Checking | Spawning | Waiting | Closing | Returning | Recording | Done

  datatype Worker =
    | Starting
    | Looking(key: Key)
    | Cordoning(key: Key)
    | Draining(key: Key)
    | Uncordoning(key: Key)
    | Releasing(key: Key, result: Result)
    | Sending(key: Key, result: Result)
    | Leaving(key: Key, result: Result)
    | Finished(key: Key, result: Result)
  {
    predicate Calling() {
      Looking? || Cordoning? || Draining? || Uncordoning?
    }

    /** Between queue.Get and queue.Done. */
    predicate InFlight() {
      Calling() || Releasing?
    }

    /** The result has been sent on the error channel. */
    predicate Departed() {
      Leaving? || Finished?
    }

    /** The error returned by runWorker: a node that no longer exists is not an error. */
    function Reported(): Report
      requires Releasing? || Sending? || Departed()
    {
      if result.Upgraded? || result.notFound then Nil else Error(key, result.cause)
    }
  }

  datatype Collector = Idle | Holding(report: Report) | Exited

  /**
   The state of a run. `start` and `before` are the queue and the unschedulable nodes when the run
   began; `owner`, `sent` and `collected` are histories: who took which key, what was sent on the
   channel and what the collector has dealt with, in order.
   */
  datatype Run = Run(
    start: seq<Key>, before: set<Key>, capacity: nat,
    main: Main, workers: seq<Worker>, queue: Queue, owner: map<Key, nat>, cordoned: set<Key>,
    buffer: seq<Report>, closed: bool, collector: Collector,
    sent: seq<Report>, collected: seq<Report>, errs: seq<Report>,
    returned: Option<seq<Report>>, recorded: Option<seq<Report>>)
  {
    predicate PastLoop() {
      !main.Checking? && !main.Spawning?
    }

    predicate Joined() {
      PastLoop() && !main.Waiting?
    }

    predicate Over() {
      main.Done? && collector.Exited?
    }
  }

  function Init(queue: Queue, capacity: nat, cordoned: set<Key>): Run {
    Run(queue.keys, cordoned, capacity,
        Checking, [], queue, map[], cordoned,
        [], false, Idle, [], [], [], None, None)
  }

  /** Which actor moves next, and the cluster's answer if that actor is a worker making a call. */
  datatype Event = MainStep | WorkerStep(w: nat, reply: Reply) | CollectorStep

  /** A send needs room in the buffer, or a waiting collector if the channel has none. */
  predicate CanSend(r: Run) {
    if r.capacity > 0 then |r.buffer| < r.capacity else r.collector.Idle?
  }

  predicate Enabled(r: Run, e: Event) {
    match e
    case MainStep =>
      && !r.main.Done?
      && (r.main.Waiting? ==> forall i :: 0 <= i < |r.workers| ==> r.workers[i].Finished?)
    case WorkerStep(w, _) =>
      && w < |r.workers|
      && (r.workers[w].Starting? ==> r.queue.keys != [])
      && (r.workers[w].Sending? ==> CanSend(r))
      && !r.workers[w].Finished?
    case CollectorStep =>
      r.collector.Holding? || (r.collector.Idle? && (r.buffer != [] || r.closed))
  }

  /** upgradeKubelet, one call at a time: the first failing call ends it. */
  function AfterCall(w: Worker, reply: Reply): Worker
    requires w.Calling()
  {
    match w
    case Looking(k) => if reply.Ok? then Cordoning(k) else Releasing(k, Failed(LookupFailed, reply.notFound))
    case Cordoning(k) => if reply.Ok? then Draining(k) else Releasing(k, Failed(CordonFailed, reply.notFound))
    case Draining(k) => if reply.Ok? then Uncordoning(k) else Releasing(k, Failed(DrainFailed, reply.notFound))
    case Uncordoning(k) => Releasing(k, if reply.Ok? then Upgraded else Failed(UncordonFailed, reply.notFound))
  }

  /** A successful cordon or uncordon sets the node's flag; nothing else touches it. */
  function CordonedAfter(w: Worker, reply: Reply, cordoned: set<Key>): set<Key>
    requires w.Calling()
  {
    if w.Cordoning? && reply.Ok? then cordoned + {w.key}
    else if w.Uncordoning? && reply.Ok? then cordoned - {w.key}
    else cordoned
  }

  /** The loop condition is evaluated against the current queue length, not the initial one. */
  function StepMain(r: Run): Run
    requires Enabled(r, MainStep)
  {
    match r.main
    case Checking => r.(main := if |r.workers| < |r.queue.keys| then Spawning else Waiting)
    case Spawning => r.(main := Checking, workers := r.workers + [Starting])
    case Waiting => r.(main := Closing)
    case Closing => r.(main := Returning, closed := true)
    case Returning => r.(main := Recording, returned := Some(r.errs))
    case Recording => r.(main := Done, recorded := Some(r.errs))
  }

  function StepWorker(r: Run, w: nat, reply: Reply): Run
    requires Enabled(r, WorkerStep(w, reply))
  {
    var worker := r.workers[w];
    if worker.Calling() then
      r.(workers := r.workers[w := AfterCall(worker, reply)],
         cordoned := CordonedAfter(worker, reply, r.cordoned))
    else match worker
      case Starting =>
        var k := r.queue.keys[0];
        r.(workers := r.workers[w := Looking(k)], queue := r.queue.Get(), owner := r.owner[k := w])
      case Releasing(k, result) =>
        r.(workers := r.workers[w := Sending(k, result)], queue := r.queue.Done(k))
      case Sending(k, result) =>
        var s := r.(workers := r.workers[w := Leaving(k, result)], sent := r.sent + [worker.Reported()]);
        if r.capacity > 0 then s.(buffer := r.buffer + [worker.Reported()])
        else s.(collector := Holding(worker.Reported()))
      case Leaving(k, result) =>
        r.(workers := r.workers[w := Finished(k, result)])
  }

  function StepCollector(r: Run): Run
    requires Enabled(r, CollectorStep)
  {
    if r.collector.Holding? then
      var report := r.collector.report;
      r.(collector := Idle, collected := r.collected + [report],
         errs := if report.Nil? then r.errs else r.errs + [report])
    else if r.buffer != [] then
      r.(collector := Holding(r.buffer[0]), buffer := r.buffer[1..])
    else
      r.(collector := Exited)
  }

  function Step(r: Run, e: Event): Run
    requires Enabled(r, e)
  {
    match e
    case MainStep => StepMain(r)
    case WorkerStep(w, reply) => StepWorker(r, w, reply)
    case CollectorStep => StepCollector(r)
  }

  /** A sequence of events that can happen, in that order, from state `r`. */
  predicate Legal(r: Run, es: seq<Event>)
    decreases |es|
  {
    es == [] || (Enabled(r, es[0]) && Legal(Step(r, es[0]), es[1..]))
  }

  function Exec(r: Run, es: seq<Event>): Run
    requires Legal(r, es)
    decreases |es|
  {
    if es == [] then r else Exec(Step(r, es[0]), es[1..])
  }

  /** The main goroutine has recorded the outcome; the collector may still be busy. */
  predicate Complete(r: Run, es: seq<Event>) {
    Legal(r, es) && Exec(r, es).main.Done?
  }

  lemma {:induction false} ExecConcat(r: Run, es: seq<Event>, fs: seq<Event>)
    requires Legal(r, es) && Legal(Exec(r, es), fs)
    ensures Legal(r, es + fs) && Exec(r, es + fs) == Exec(Exec(r, es), fs)
    decreases |es|
  {
    if es == [] {
      assert es + fs == fs;
    } else {
      ExecConcat(Step(r, es[0]), es[1..], fs);
      assert (es + fs)[1..] == es[1..] + fs;
    }
  }

  /** One more event at the end of a run. */
  lemma Extend(r: Run, es: seq<Event>, e: Event) returns (s: Run)
    requires Legal(r, es) && Enabled(Exec(r, es), e)
    ensures Legal(r, es + [e]) && Exec(r, es + [e]) == Step(Exec(r, es), e) == s
  {
    var mid, one := Exec(r, es), [e];
    s := Step(mid, e);
    assert one[1..] == [];
    assert Legal(s, one[1..]);
    assert Exec(mid, one) == Exec(s, one[1..]);
    ExecConcat(r, es, one);
  }

  /** Every prefix of a legal run is a legal run. */
  lemma {:induction false} LegalPrefix(r: Run, es: seq<Event>, k: nat)
    requires Legal(r, es) && k <= |es|
    ensures Legal(r, es[..k])
    ensures Legal(Exec(r, es[..k]), es[k..])
    ensures Exec(r, es) == Exec(Exec(r, es[..k]), es[k..])
    decreases k
  {
    if k > 0 {
      LegalPrefix(Step(r, es[0]), es[1..], k - 1);
      assert es[..k][1..] == es[1..][..k - 1];
      assert es[k..] == es[1..][k - 1..];
    }
  }
}
