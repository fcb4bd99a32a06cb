/** Every interleaving of a run ends, and no goroutine of it is ever stuck for good. */
module RunTermination {
  import opened WorkQueue
  import opened UpgradeRun
  import opened RunInvariant

  function Weight(w: Worker): nat {
    match w
    case Starting => 10
    case Looking(_) => 9
    case Cordoning(_) => 8
    case Draining(_) => 7
    case Uncordoning(_) => 6
    case Releasing(_, _) => 5
    case Sending(_, _) => 4
    case Leaving(_, _) => 1
    case Finished(_, _) => 0
  }

  function Weights(ws: seq<Worker>): nat {
    if ws == [] then 0 else Weights(ws[..|ws| - 1]) + Weight(ws[|ws| - 1])
  }

  lemma {:induction false} WeightsUpdate(ws: seq<Worker>, i: nat, w: Worker)
    requires i < |ws|
    ensures Weights(ws[i := w]) == Weights(ws) + Weight(w) - Weight(ws[i])
    decreases |ws|
  {
    var front := ws[..|ws| - 1];
    if i == |ws| - 1 {
      assert ws[i := w][..|ws| - 1] == front;
    } else {
      WeightsUpdate(front, i, w);
      assert ws[i := w][..|ws| - 1] == front[i := w];
    }
  }

  /** The main goroutine may still spawn a worker for every key not yet accounted for. */
  function MainWeight(r: Run): int {
    match r.main
    case Checking => 12 * (|r.start| - |r.workers|) + 6
    case Spawning => 12 * (|r.start| - |r.workers|) + 5
    case Waiting => 4
    case Closing => 3
    case Returning => 2
    case Recording => 1
    case Done => 0
  }

  function CollectorWeight(c: Collector): nat {
    match c
    case Holding(_) => 2
    case Idle => 1
    case Exited => 0
  }

  /** An upper bound on the number of events still to come. */
  function Remaining(r: Run): int {
    MainWeight(r) + Weights(r.workers) + 2 * |r.buffer| + CollectorWeight(r.collector)
  }

  lemma CallShrinks(w: Worker, reply: Reply)
    requires w.Calling()
    ensures Weight(AfterCall(w, reply)) < Weight(w)
  {
  }

  /** A worker's step pays for what it puts on the channel. */
  lemma WorkerPays(r: Run, s: Run, w: nat)
    requires w < |r.workers| && |s.workers| == |r.workers| && s.workers == r.workers[w := s.workers[w]]
    requires s.main == r.main && s.start == r.start
    requires Weight(s.workers[w]) + 2 * |s.buffer| + CollectorWeight(s.collector)
           < Weight(r.workers[w]) + 2 * |r.buffer| + CollectorWeight(r.collector)
    ensures Remaining(s) < Remaining(r)
  {
    WeightsUpdate(r.workers, w, s.workers[w]);
  }

  lemma WorkerStepShrinks(r: Run, w: nat, reply: Reply)
    requires Enabled(r, WorkerStep(w, reply))
    ensures Remaining(StepWorker(r, w, reply)) < Remaining(r)
  {
    if r.workers[w].Calling() {
      CallShrinks(r.workers[w], reply);
    }
    WorkerPays(r, StepWorker(r, w, reply), w);
  }

  lemma MainStepShrinks(r: Run)
    requires |r.workers| <= |r.start| && Enabled(r, MainStep)
    ensures Remaining(StepMain(r)) < Remaining(r)
  {
    assert (r.workers + [Starting])[..|r.workers|] == r.workers;
  }

  lemma CollectorStepShrinks(r: Run)
    requires Enabled(r, CollectorStep)
    ensures Remaining(StepCollector(r)) < Remaining(r)
  {
  }

  lemma StepShrinks(r: Run, e: Event)
    requires Inv(r) && Enabled(r, e)
    ensures 0 <= Remaining(Step(r, e)) < Remaining(r)
  {
    StepKeepsInv(r, e);
    match e
    case MainStep => MainStepShrinks(r);
    case WorkerStep(w, reply) => WorkerStepShrinks(r, w, reply);
    case CollectorStep => CollectorStepShrinks(r);
  }

  lemma {:induction false} RunLength(r: Run, es: seq<Event>)
    requires Inv(r) && Legal(r, es)
    ensures |es| + Remaining(Exec(r, es)) <= Remaining(r)
    ensures Remaining(Exec(r, es)) >= 0
    decreases |es|
  {
    if es != [] {
      StepShrinks(r, es[0]);
      StepKeepsInv(r, es[0]);
      RunLength(Step(r, es[0]), es[1..]);
    }
  }

  /** No interleaving of a run over n keys has more than 12 n + 7 events. */
  lemma EveryRunEnds(q: Queue, capacity: nat, cordoned: set<Key>, es: seq<Event>)
    requires q.Idle() && Legal(Init(q, capacity, cordoned), es)
    ensures |es| <= 12 * |q.keys| + 7
  {
    InitInv(q, capacity, cordoned);
    RunLength(Init(q, capacity, cordoned), es);
  }

  /** While a worker waits for a key there is one: Get never blocks. */
  lemma GetNeverBlocks(r: Run, w: nat)
    requires Inv(r) && w < |r.workers| && r.workers[w].Starting?
    ensures r.queue.keys != []
  {
    CountBounds(r.workers);
  }

  /** Unless everything is over, some actor can move: a run has no deadlock. */
  lemma NeverStuck(r: Run) returns (e: Event)
    requires Inv(r) && !r.Over()
    ensures Enabled(r, e)
  {
    if r.collector.Holding? || (r.collector.Idle? && (r.buffer != [] || r.closed)) {
      e := CollectorStep;
    } else if !r.main.Done? && !r.main.Waiting? {
      e := MainStep;
    } else if w: nat :| w < |r.workers| && !r.workers[w].Finished? {
      if r.workers[w].Starting? {
        GetNeverBlocks(r, w);
      }
      e := WorkerStep(w, Ok);
    } else {
      e := MainStep;
    }
  }

  /** Every run can be carried on until main and collector are both done. */
  lemma {:induction false} Completion(r: Run) returns (es: seq<Event>)
    requires Inv(r)
    ensures Legal(r, es) && Exec(r, es).Over() && Inv(Exec(r, es))
    decreases Remaining(r)
  {
    RunLength(r, []);
    if r.Over() {
      es := [];
    } else {
      var e := NeverStuck(r);
      StepShrinks(r, e);
      StepKeepsInv(r, e);
      var rest := Completion(Step(r, e));
      es := [e] + rest;
    }
  }

  /** Once the loop has ended the number of workers is settled. */
  lemma {:induction false} WorkersSettled(r: Run, es: seq<Event>)
    requires Legal(r, es) && r.PastLoop()
    ensures Exec(r, es).PastLoop() && |Exec(r, es).workers| == |r.workers|
    decreases |es|
  {
    if es != [] {
      WorkersSettled(Step(r, es[0]), es[1..]);
    }
  }

  /** A run that is moved one event further is still a run, and closer to its end. */
  lemma RunGoesOn(r: Run, es: seq<Event>, e: Event)
    requires Legal(r, es) && Inv(Exec(r, es)) && Enabled(Exec(r, es), e)
    ensures Legal(r, es + [e]) && Exec(r, es + [e]) == Step(Exec(r, es), e)
    ensures Inv(Exec(r, es + [e])) && Exec(r, es + [e]).start == Exec(r, es).start
    ensures 0 <= Remaining(Exec(r, es + [e])) < Remaining(Exec(r, es))
  {
    StepShrinks(Exec(r, es), e);
    StepKeepsInv(Exec(r, es), e);
    var s := Extend(r, es, e);
  }

  /** Every run has a complete interleaving. */
  lemma SomeInterleaving(q: Queue, capacity: nat, cordoned: set<Key>) returns (es: seq<Event>)
    requires q.Idle()
    ensures Complete(Init(q, capacity, cordoned), es)
  {
    InitInv(q, capacity, cordoned);
    es := Completion(Init(q, capacity, cordoned));
  }
}
