/** What every step of an upgrade run keeps, for every interleaving and every reply. */
module RunInvariant {
  import opened Basics
  import opened WorkQueue
  import opened UpgradeRun

  /** How many keys the workers have taken so far. */
  function Taken(r: Run): int {
    |r.start| - |r.queue.keys|
  }

  /** The number of workers that have left the front of their code: past Get, or past the send. */
  function Begun(ws: seq<Worker>): nat {
    if ws == [] then 0
    else Begun(ws[..|ws| - 1]) + if ws[|ws| - 1].Starting? then 0 else 1
  }

  function Gone(ws: seq<Worker>): nat {
    if ws == [] then 0
    else Gone(ws[..|ws| - 1]) + if ws[|ws| - 1].Departed() then 1 else 0
  }

  lemma {:induction false} CountUpdate(ws: seq<Worker>, i: nat, w: Worker)
    requires i < |ws|
    ensures Begun(ws[i := w]) == Begun(ws) + (if w.Starting? then 0 else 1) - (if ws[i].Starting? then 0 else 1)
    ensures Gone(ws[i := w]) == Gone(ws) + (if w.Departed() then 1 else 0) - (if ws[i].Departed() then 1 else 0)
    decreases |ws|
  {
    var front := ws[..|ws| - 1];
    if i == |ws| - 1 {
      assert ws[i := w][..|ws| - 1] == front;
    } else {
      CountUpdate(front, i, w);
      assert ws[i := w][..|ws| - 1] == front[i := w];
    }
  }

  lemma {:induction false} CountBounds(ws: seq<Worker>)
    ensures Begun(ws) <= |ws|
    ensures Begun(ws) == |ws| <==> forall i :: 0 <= i < |ws| ==> !ws[i].Starting?
    ensures Gone(ws) <= |ws|
    ensures Gone(ws) == |ws| <==> forall i :: 0 <= i < |ws| ==> ws[i].Departed()
    decreases |ws|
  {
    if ws != [] {
      var front := ws[..|ws| - 1];
      CountBounds(front);
      assert forall i :: 0 <= i < |front| ==> front[i] == ws[i];
    }
  }

  lemma CountAppend(ws: seq<Worker>)
    ensures Begun(ws + [Starting]) == Begun(ws)
    ensures Gone(ws + [Starting]) == Gone(ws)
  {
    assert (ws + [Starting])[..|ws|] == ws;
  }

  /** The non-nil reports, in order: what the collector folds into the error. */
  function Failures(reports: seq<Report>): seq<Report> {
    if reports == [] then []
    else Failures(reports[..|reports| - 1]) +
         if reports[|reports| - 1].Nil? then [] else [reports[|reports| - 1]]
  }

  function InHand(c: Collector): seq<Report> {
    if c.Holding? then [c.report] else []
  }

  /** Keys leave the queue from the front, each to the worker that owns it from then on. */
  ghost predicate QueueInv(r: Run) {
    && Distinct(r.start)
    && |r.queue.keys| <= |r.start|
    && r.queue.keys == r.start[Taken(r)..]
    && (forall k :: k in r.queue.dirty <==> k in r.queue.keys)
    && (forall k :: k in r.owner <==> k in r.start[..Taken(r)])
  }

  ghost predicate OwnerInv(r: Run) {
    && (forall i :: 0 <= i < |r.workers| && !r.workers[i].Starting? ==>
         r.workers[i].key in r.owner && r.owner[r.workers[i].key] == i)
    && (forall k :: k in r.owner ==>
         r.owner[k] < |r.workers| && !r.workers[r.owner[k]].Starting? && r.workers[r.owner[k]].key == k)
    && (forall k :: k in r.queue.processing <==>
         k in r.owner && r.owner[k] < |r.workers| && r.workers[r.owner[k]].InFlight())
  }

  /** The spawn loop against its shrinking bound. */
  ghost predicate LoopInv(r: Run) {
    && Begun(r.workers) == Taken(r)
    && |r.workers| <= |r.start|
    && (r.main.Spawning? ==> |r.workers| < |r.start|)
    && (r.PastLoop() ==> |r.workers| + Taken(r) >= |r.start|)
    && (r.Joined() ==> forall i :: 0 <= i < |r.workers| ==> r.workers[i].Finished?)
  }

  /** No report is lost, duplicated or reordered on its way to the collector. */
  ghost predicate ChannelInv(r: Run) {
    && r.sent == r.collected + InHand(r.collector) + r.buffer
    && |r.buffer| <= r.capacity
    && r.errs == Failures(r.collected)
    && |r.sent| == Gone(r.workers)
    && (r.closed <==> r.Joined() && !r.main.Closing?)
    && (r.collector.Exited? ==> r.closed && r.buffer == [])
  }

  /** The reports sent are those of the departed workers. */
  ghost predicate ReportInv(r: Run) {
    && (forall i :: 0 <= i < |r.workers| && r.workers[i].Departed() ==> r.workers[i].Reported() in r.sent)
    && (forall report :: report in r.sent && report.Error? ==>
         && report.key in r.owner
         && r.owner[report.key] < |r.workers|
         && r.workers[r.owner[report.key]].Departed()
         && r.workers[r.owner[report.key]].Reported() == report)
  }

  /** Whether a worker's node is unschedulable, given whether it was when the run began. */
  function FlagOf(w: Worker, before: bool): bool
    requires !w.Starting?
  {
    if w.Looking? || w.Cordoning? then before
    else if w.Draining? || w.Uncordoning? then true
    else match w.result
      case Upgraded => false
      case Failed(cause, _) => if cause.DrainFailed? || cause.UncordonFailed? then true else before
  }

  ghost predicate CordonInv(r: Run) {
    && (forall i :: 0 <= i < |r.workers| && !r.workers[i].Starting? ==>
         (r.workers[i].key in r.cordoned) == FlagOf(r.workers[i], r.workers[i].key in r.before))
    && (forall k :: k !in r.owner ==> (k in r.cordoned <==> k in r.before))
  }

  /** The error stands for the first `m` reports sent, and at most capacity + 1 are missing. */
  ghost predicate StandsForFirst(r: Run, errs: seq<Report>, m: nat) {
    m <= |r.sent| && errs == Failures(r.sent[..m]) && |r.sent| - m <= r.capacity + 1
  }

  ghost predicate StandsFor(r: Run, errs: seq<Report>) {
    exists m: nat :: StandsForFirst(r, errs, m)
  }

  ghost predicate ReturnInv(r: Run) {
    && (r.main.Recording? || r.main.Done? ==>
         r.returned.Some? && r.returned.value <= r.errs && StandsFor(r, r.returned.value))
    && (r.main.Done? ==>
         r.recorded.Some? && r.returned.value <= r.recorded.value <= r.errs && StandsFor(r, r.recorded.value))
  }

  ghost predicate Inv(r: Run) {
    QueueInv(r) && OwnerInv(r) && LoopInv(r) && ChannelInv(r) && ReportInv(r) && CordonInv(r) && ReturnInv(r)
  }

  lemma InitInv(q: Queue, capacity: nat, cordoned: set<Key>)
    requires q.Idle()
    ensures Inv(Init(q, capacity, cordoned))
  {
    var r := Init(q, capacity, cordoned);
    assert r.start[Taken(r)..] == r.queue.keys && r.start[..Taken(r)] == [];
    assert QueueInv(r) && OwnerInv(r) && LoopInv(r);
  }

  /** The first half of the invariant: who has which key, and how many workers there are. */
  ghost predicate KeysInv(r: Run) {
    QueueInv(r) && OwnerInv(r) && LoopInv(r)
  }

  /** The second half: what the workers have reported. */
  ghost predicate TalkInv(r: Run) {
    ChannelInv(r) && ReportInv(r) && ReturnInv(r)
  }

  lemma StandsForKept(r: Run, s: Run, errs: seq<Report>)
    requires StandsFor(r, errs) && s.sent == r.sent && s.capacity == r.capacity
    ensures StandsFor(s, errs)
  {
    var m: nat :| StandsForFirst(r, errs, m);
    assert StandsForFirst(s, errs, m);
  }

  // The main goroutine.

  lemma SpawnKeepsOwner(r: Run, s: Run)
    requires OwnerInv(r)
    requires s.owner == r.owner && s.queue == r.queue
    requires s.workers == r.workers || s.workers == r.workers + [Starting]
    ensures OwnerInv(s)
  {
  }

  lemma MainKeepsLoop(r: Run)
    requires QueueInv(r) && LoopInv(r) && Enabled(r, MainStep)
    ensures LoopInv(StepMain(r))
  {
    CountBounds(r.workers);
    CountAppend(r.workers);
  }

  /** Nothing has moved on the channel. */
  ghost predicate SameChannel(r: Run, s: Run) {
    && s.capacity == r.capacity && s.sent == r.sent && s.collected == r.collected && s.errs == r.errs
    && s.buffer == r.buffer && s.collector == r.collector && Gone(s.workers) == Gone(r.workers)
  }

  lemma SameChannelKept(r: Run, s: Run)
    requires ChannelInv(r) && SameChannel(r, s)
    requires s.closed <==> s.Joined() && !s.main.Closing?
    requires r.closed ==> s.closed
    ensures ChannelInv(s)
  {
  }

  lemma MainKeepsChannel(r: Run)
    requires ChannelInv(r) && Enabled(r, MainStep)
    ensures ChannelInv(StepMain(r))
  {
    CountAppend(r.workers);
    SameChannelKept(r, StepMain(r));
  }

  lemma SpawnKeepsReports(r: Run, s: Run)
    requires ReportInv(r)
    requires s.owner == r.owner && s.sent == r.sent
    requires s.workers == r.workers || s.workers == r.workers + [Starting]
    ensures ReportInv(s)
  {
  }

  lemma MainKeepsReturn(r: Run)
    requires ChannelInv(r) && ReturnInv(r) && Enabled(r, MainStep)
    ensures ReturnInv(StepMain(r))
  {
    if r.main.Returning? || r.main.Recording? {
      assert r.sent[..|r.collected|] == r.collected;
      assert StandsForFirst(r, r.errs, |r.collected|);
      StandsForKept(r, StepMain(r), r.errs);
    }
    if r.main.Recording? {
      StandsForKept(r, StepMain(r), r.returned.value);
    }
  }

  lemma MainKeepsRest(r: Run, s: Run)
    requires QueueInv(r) && CordonInv(r)
    requires s.start == r.start && s.before == r.before && s.queue == r.queue && s.owner == r.owner
    requires s.cordoned == r.cordoned && (s.workers == r.workers || s.workers == r.workers + [Starting])
    ensures QueueInv(s) && CordonInv(s)
  {
  }

  lemma MainMovesOnlyWorkers(r: Run)
    requires Enabled(r, MainStep)
    ensures
      var s := StepMain(r);
      && s.start == r.start && s.before == r.before && s.queue == r.queue && s.owner == r.owner
      && s.cordoned == r.cordoned && s.sent == r.sent
      && (s.workers == if r.main.Spawning? then r.workers + [Starting] else r.workers)
  {
  }

  lemma MainKeepsInv(r: Run)
    requires Inv(r) && Enabled(r, MainStep)
    ensures Inv(StepMain(r))
  {
    MainMovesOnlyWorkers(r);
    MainKeepsRest(r, StepMain(r));
    MainKeepsLoop(r);
    MainKeepsChannel(r);
    MainKeepsReturn(r);
    SpawnKeepsReports(r, StepMain(r));
    SpawnKeepsOwner(r, StepMain(r));
  }

  // The collector.

  lemma CollectKeepsOrder(collected: seq<Report>, hand: Report, buffer: seq<Report>)
    ensures collected + [hand] + buffer == (collected + [hand]) + [] + buffer
    ensures Failures(collected + [hand]) == Failures(collected) + if hand.Nil? then [] else [hand]
  {
    assert (collected + [hand])[..|collected|] == collected;
  }

  lemma ReceiveKeepsOrder(collected: seq<Report>, buffer: seq<Report>)
    requires buffer != []
    ensures collected + [] + buffer == collected + [buffer[0]] + buffer[1..]
  {
    assert buffer == [buffer[0]] + buffer[1..];
  }

  lemma CollectorKeepsChannel(r: Run)
    requires ChannelInv(r) && Enabled(r, CollectorStep)
    ensures ChannelInv(StepCollector(r))
  {
    var s := StepCollector(r);
    if r.collector.Holding? {
      CollectKeepsOrder(r.collected, r.collector.report, r.buffer);
    } else if r.buffer != [] {
      ReceiveKeepsOrder(r.collected, r.buffer);
      assert s.sent == s.collected + InHand(s.collector) + s.buffer;
    }
  }

  lemma CollectorKeepsReturn(r: Run)
    requires ReturnInv(r) && Enabled(r, CollectorStep)
    ensures ReturnInv(StepCollector(r))
  {
    var s := StepCollector(r);
    if r.main.Recording? || r.main.Done? {
      StandsForKept(r, s, r.returned.value);
    }
    if r.main.Done? {
      StandsForKept(r, s, r.recorded.value);
    }
  }

  /** Every part of a run but its channel and its verdict. */
  ghost predicate SameKeys(r: Run, s: Run) {
    && s.start == r.start && s.before == r.before && s.main == r.main && s.workers == r.workers
    && s.queue == r.queue && s.owner == r.owner && s.cordoned == r.cordoned && s.sent == r.sent
  }

  lemma SameKeysKept(r: Run, s: Run)
    requires KeysInv(r) && CordonInv(r) && ReportInv(r) && SameKeys(r, s)
    ensures KeysInv(s) && CordonInv(s) && ReportInv(s)
  {
  }

  lemma CollectorKeepsInv(r: Run)
    requires Inv(r) && Enabled(r, CollectorStep)
    ensures Inv(StepCollector(r))
  {
    CollectorKeepsChannel(r);
    CollectorKeepsReturn(r);
    SameKeysKept(r, StepCollector(r));
  }

  // A worker taking a key.

  /** The key a worker takes is the next one in order, and nobody had it. */
  lemma GetTakesNext(r: Run)
    requires QueueInv(r) && r.queue.keys != []
    ensures 0 <= Taken(r) < |r.start| && r.queue.keys[0] == r.start[Taken(r)]
    ensures r.queue.keys[1..] == r.start[Taken(r) + 1..]
    ensures r.start[..Taken(r) + 1] == r.start[..Taken(r)] + [r.queue.keys[0]]
    ensures r.queue.keys[0] !in r.owner
    ensures r.queue.keys[0] !in r.queue.keys[1..]
  {
    assert r.queue.keys[0] !in r.start[..Taken(r)];
  }

  lemma GetKeepsQueue(r: Run, s: Run, w: nat)
    requires QueueInv(r) && r.queue.keys != []
    requires s.start == r.start && s.queue == r.queue.Get() && s.owner == r.owner[r.queue.keys[0] := w]
    ensures QueueInv(s) && Taken(s) == Taken(r) + 1
  {
    GetTakesNext(r);
  }

  lemma GetKeepsOwner(r: Run, s: Run, w: nat)
    requires QueueInv(r) && OwnerInv(r) && r.queue.keys != []
    requires w < |r.workers| && r.workers[w].Starting?
    requires s.workers == r.workers[w := Looking(r.queue.keys[0])]
    requires s.queue == r.queue.Get() && s.owner == r.owner[r.queue.keys[0] := w]
    ensures OwnerInv(s)
  {
    GetTakesNext(r);
  }

  lemma GetKeepsTalk(r: Run, w: nat, reply: Reply)
    requires QueueInv(r) && LoopInv(r) && TalkInv(r)
    requires Enabled(r, WorkerStep(w, reply)) && r.workers[w].Starting?
    ensures TalkInv(StepWorker(r, w, reply))
  {
    GetTakesNext(r);
    CountUpdate(r.workers, w, Looking(r.queue.keys[0]));
  }

  lemma GetKeepsCordons(r: Run, w: nat, reply: Reply)
    requires QueueInv(r) && CordonInv(r)
    requires Enabled(r, WorkerStep(w, reply)) && r.workers[w].Starting?
    ensures CordonInv(StepWorker(r, w, reply))
  {
    GetTakesNext(r);
  }

  lemma GetKeepsInv(r: Run, w: nat, reply: Reply)
    requires Inv(r) && Enabled(r, WorkerStep(w, reply)) && r.workers[w].Starting?
    ensures Inv(StepWorker(r, w, reply))
  {
    var s := StepWorker(r, w, reply);
    GetKeepsQueue(r, s, w);
    GetKeepsOwner(r, s, w);
    GetKeepsTalk(r, w, reply);
    GetKeepsCordons(r, w, reply);
    CountUpdate(r.workers, w, Looking(r.queue.keys[0]));
  }

  // A worker moving on with the key it has.

  /** A key that was taken is not waiting, so Done never puts it back. */
  lemma TakenIsNotWaiting(r: Run, k: Key)
    requires QueueInv(r) && k in r.owner
    ensures k !in r.queue.keys && k !in r.queue.dirty
  {
    var i :| 0 <= i < Taken(r) && r.start[i] == k;
  }

  /** What the keys depend on: a worker keeps its key, and the queue knows whether it is in flight. */
  ghost predicate SameKey(r: Run, s: Run, w: nat) {
    && w < |r.workers| && !r.workers[w].Starting?
    && |s.workers| == |r.workers| && s.workers == r.workers[w := s.workers[w]]
    && !s.workers[w].Starting? && s.workers[w].key == r.workers[w].key
    && (r.workers[w].Finished? ==> s.workers[w].Finished?)
    && s.start == r.start && s.main == r.main && s.owner == r.owner
    && s.queue.keys == r.queue.keys && s.queue.dirty == r.queue.dirty
    && s.queue.processing ==
       (if s.workers[w].InFlight() then r.queue.processing else r.queue.processing - {r.workers[w].key})
    && (s.workers[w].InFlight() ==> r.workers[w].InFlight())
  }

  lemma SameKeyKeepsOwner(r: Run, s: Run, w: nat)
    requires OwnerInv(r) && SameKey(r, s, w)
    ensures OwnerInv(s)
  {
  }

  lemma SameKeyKeepsLoop(r: Run, s: Run, w: nat)
    requires QueueInv(r) && LoopInv(r) && SameKey(r, s, w)
    ensures QueueInv(s) && LoopInv(s)
  {
    CountUpdate(r.workers, w, s.workers[w]);
  }

  lemma SameKeyKeepsKeys(r: Run, s: Run, w: nat)
    requires KeysInv(r) && SameKey(r, s, w)
    ensures KeysInv(s)
  {
    SameKeyKeepsOwner(r, s, w);
    SameKeyKeepsLoop(r, s, w);
  }

  /** A call moves its worker on, and may set or clear the flag of its node. */
  lemma CallStep(r: Run, w: nat, reply: Reply)
    requires Enabled(r, WorkerStep(w, reply)) && r.workers[w].Calling()
    ensures StepWorker(r, w, reply) ==
            r.(workers := r.workers[w := AfterCall(r.workers[w], reply)],
               cordoned := CordonedAfter(r.workers[w], reply, r.cordoned))
  {
  }

  lemma CallKeepsKey(r: Run, w: nat, reply: Reply)
    requires QueueInv(r) && OwnerInv(r) && Enabled(r, WorkerStep(w, reply)) && r.workers[w].Calling()
    ensures SameKey(r, StepWorker(r, w, reply), w)
  {
    CallStep(r, w, reply);
  }

  lemma MoveKeepsKey(r: Run, w: nat, reply: Reply)
    requires QueueInv(r) && OwnerInv(r) && Enabled(r, WorkerStep(w, reply)) && !r.workers[w].Starting?
    ensures SameKey(r, StepWorker(r, w, reply), w)
  {
    if r.workers[w].Calling() {
      CallKeepsKey(r, w, reply);
    } else {
      TakenIsNotWaiting(r, r.workers[w].key);
    }
  }

  /** What the reports depend on: the worker had reported before if and only if it has now, and the same. */
  ghost predicate SameReport(r: Run, s: Run, w: nat) {
    && w < |r.workers| && |s.workers| == |r.workers| && s.workers == r.workers[w := s.workers[w]]
    && (s.workers[w].Departed() <==> r.workers[w].Departed())
    && (s.workers[w].Departed() ==> s.workers[w].Reported() == r.workers[w].Reported())
    && s.owner == r.owner && s.sent == r.sent
  }

  lemma SameReportKept(r: Run, s: Run, w: nat)
    requires ReportInv(r) && SameReport(r, s, w)
    ensures ReportInv(s)
  {
  }

  lemma SilentMoves(r: Run, w: nat, reply: Reply)
    requires Enabled(r, WorkerStep(w, reply)) && !r.workers[w].Starting? && !r.workers[w].Sending?
    ensures
      var s := StepWorker(r, w, reply);
      && SameReport(r, s, w) && SameChannel(r, s)
      && s.main == r.main && s.closed == r.closed && s.returned == r.returned && s.recorded == r.recorded
  {
    CountUpdate(r.workers, w, StepWorker(r, w, reply).workers[w]);
  }

  lemma SameReturnKept(r: Run, s: Run)
    requires ReturnInv(r) && s.sent == r.sent && s.capacity == r.capacity && s.errs == r.errs
    requires s.main == r.main && s.returned == r.returned && s.recorded == r.recorded
    ensures ReturnInv(s)
  {
    if r.main.Recording? || r.main.Done? {
      StandsForKept(r, s, r.returned.value);
    }
    if r.main.Done? {
      StandsForKept(r, s, r.recorded.value);
    }
  }

  /** Neither a call nor Done nor leaving touches the channel. */
  lemma SilentKeepsTalk(r: Run, w: nat, reply: Reply)
    requires TalkInv(r)
    requires Enabled(r, WorkerStep(w, reply)) && !r.workers[w].Starting? && !r.workers[w].Sending?
    ensures TalkInv(StepWorker(r, w, reply))
  {
    var s := StepWorker(r, w, reply);
    SilentMoves(r, w, reply);
    SameChannelKept(r, s);
    SameReportKept(r, s, w);
    SameReturnKept(r, s);
  }

  lemma SendKeepsOrder(collected: seq<Report>, hand: seq<Report>, buffer: seq<Report>, x: Report)
    ensures collected + hand + (buffer + [x]) == (collected + hand + buffer) + [x]
    ensures hand == [] && buffer == [] ==> collected + [x] + buffer == (collected + hand + buffer) + [x]
  {
  }

  lemma SendKeepsChannel(r: Run, w: nat, reply: Reply)
    requires LoopInv(r) && ChannelInv(r)
    requires Enabled(r, WorkerStep(w, reply)) && r.workers[w].Sending?
    requires r.capacity == 0 ==> r.buffer == []
    ensures ChannelInv(StepWorker(r, w, reply))
  {
    var s := StepWorker(r, w, reply);
    CountUpdate(r.workers, w, s.workers[w]);
    SendKeepsOrder(r.collected, InHand(r.collector), r.buffer, r.workers[w].Reported());
    assert s.sent == s.collected + InHand(s.collector) + s.buffer;
  }

  lemma SendKeepsReports(r: Run, s: Run, w: nat)
    requires OwnerInv(r) && ReportInv(r) && w < |r.workers| && r.workers[w].Sending?
    requires s.workers == r.workers[w := Leaving(r.workers[w].key, r.workers[w].result)]
    requires s.owner == r.owner && s.sent == r.sent + [r.workers[w].Reported()]
    ensures ReportInv(s)
  {
  }

  /** A worker that has not finished keeps the main goroutine from returning. */
  lemma SendBeforeReturn(r: Run, s: Run, w: nat)
    requires LoopInv(r) && w < |r.workers| && r.workers[w].Sending? && s.main == r.main
    ensures ReturnInv(s)
  {
    assert !r.Joined();
  }

  lemma SendKeepsTalk(r: Run, w: nat, reply: Reply)
    requires OwnerInv(r) && LoopInv(r) && TalkInv(r)
    requires Enabled(r, WorkerStep(w, reply)) && r.workers[w].Sending?
    ensures TalkInv(StepWorker(r, w, reply))
  {
    var s := StepWorker(r, w, reply);
    SendKeepsChannel(r, w, reply);
    SendKeepsReports(r, s, w);
    SendBeforeReturn(r, s, w);
  }

  /** What the flags depend on: only that of the moving worker's node may change, and to the right value. */
  ghost predicate SameFlags(r: Run, s: Run, w: nat) {
    && w < |r.workers| && |s.workers| == |r.workers| && s.workers == r.workers[w := s.workers[w]]
    && !r.workers[w].Starting? && !s.workers[w].Starting? && s.workers[w].key == r.workers[w].key
    && s.owner == r.owner && s.before == r.before
    && (forall k :: k != r.workers[w].key ==> (k in s.cordoned <==> k in r.cordoned))
    && (r.workers[w].key in s.cordoned) == FlagOf(s.workers[w], r.workers[w].key in r.before)
  }

  lemma SameFlagsKept(r: Run, s: Run, w: nat)
    requires OwnerInv(r) && CordonInv(r) && SameFlags(r, s, w)
    ensures CordonInv(s)
  {
  }

  lemma CallKeepsCordons(r: Run, w: nat, reply: Reply)
    requires OwnerInv(r) && CordonInv(r) && Enabled(r, WorkerStep(w, reply)) && r.workers[w].Calling()
    ensures CordonInv(StepWorker(r, w, reply))
  {
    CallStep(r, w, reply);
    SameFlagsKept(r, StepWorker(r, w, reply), w);
  }

  lemma MoveKeepsCordons(r: Run, w: nat, reply: Reply)
    requires OwnerInv(r) && CordonInv(r) && Enabled(r, WorkerStep(w, reply)) && !r.workers[w].Starting?
    ensures CordonInv(StepWorker(r, w, reply))
  {
    if r.workers[w].Calling() {
      CallKeepsCordons(r, w, reply);
    } else {
      SameFlagsKept(r, StepWorker(r, w, reply), w);
    }
  }

  lemma MoveKeepsInv(r: Run, w: nat, reply: Reply)
    requires Inv(r) && Enabled(r, WorkerStep(w, reply)) && !r.workers[w].Starting?
    ensures Inv(StepWorker(r, w, reply))
  {
    MoveKeepsKey(r, w, reply);
    SameKeyKeepsKeys(r, StepWorker(r, w, reply), w);
    MoveKeepsCordons(r, w, reply);
    if r.workers[w].Sending? {
      SendKeepsTalk(r, w, reply);
    } else {
      SilentKeepsTalk(r, w, reply);
    }
  }

  lemma StepKeepsInv(r: Run, e: Event)
    requires Inv(r) && Enabled(r, e)
    ensures Inv(Step(r, e))
  {
    match e
    case MainStep => MainKeepsInv(r);
    case CollectorStep => CollectorKeepsInv(r);
    case WorkerStep(w, reply) =>
      if r.workers[w].Starting? {
        GetKeepsInv(r, w, reply);
      } else {
        MoveKeepsInv(r, w, reply);
      }
  }

  /** The invariant holds in every state of every run. */
  lemma {:induction false} ExecKeepsInv(r: Run, es: seq<Event>)
    requires Inv(r) && Legal(r, es)
    ensures Inv(Exec(r, es))
    decreases |es|
  {
    if es != [] {
      StepKeepsInv(r, es[0]);
      ExecKeepsInv(Step(r, es[0]), es[1..]);
    }
  }
}
