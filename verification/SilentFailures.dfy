/**
 Exactly how many failures a run can hide. Main never waits for the collector, so the error it
 records may miss what is still in the collector's hand or in the channel.
 */
module SilentFailures {
  import opened Basics
  import opened WorkQueue
  import opened UpgradeRun
  import opened RunInvariant
  import opened RunTheorems

  /** What recording no error is meant to say: that no worker reported one. */
  ghost predicate RecordIsTruthful(q: Queue, capacity: nat, cordoned: set<Key>) {
    forall es :: Complete(Init(q, capacity, cordoned), es) ==>
      var s := Exec(Init(q, capacity, cordoned), es);
      s.recorded == Some([]) ==> forall x :: x in s.sent ==> x.Nil?
  }

  /** A run that records no error although its workers reported `m` of them. */
  ghost predicate Hides(q: Queue, capacity: nat, cordoned: set<Key>, es: seq<Event>, m: nat) {
    && Complete(Init(q, capacity, cordoned), es)
    && var s := Exec(Init(q, capacity, cordoned), es);
       s.recorded == Some([]) && |Failures(s.sent)| == m
  }

  // ---- Putting a run together ----

  /** Some events lead from one state to the other. */
  ghost predicate Leads(r: Run, s: Run) {
    exists es :: Legal(r, es) && Exec(r, es) == s
  }

  lemma Then(r: Run, s: Run, e: Event) returns (t: Run)
    requires Leads(r, s) && Enabled(s, e)
    ensures t == Step(s, e) && Leads(r, t)
  {
    var es :| Legal(r, es) && Exec(r, es) == s;
    t := Extend(r, es, e);
  }

  /** Worker `w` moves on and nothing else changes. */
  function Moved(s: Run, w: nat, to: Worker): Run
    requires w < |s.workers|
  {
    s.(workers := s.workers[w := to])
  }

  const VANISHED := Failed(LookupFailed, true)
  const STUCK := Failed(DrainFailed, false)

  /** The node turns out not to exist. */
  lemma LookupFails(r: Run, s: Run, w: nat) returns (t: Run)
    requires Leads(r, s) && w < |s.workers| && s.workers[w].Looking? && s.queue.dirty == {}
    ensures Leads(r, t)
    ensures
      var k := s.workers[w].key;
      t == Moved(s, w, Sending(k, VANISHED)).(queue := s.queue.Done(k))
  {
    var k := s.workers[w].key;
    t := Then(r, s, WorkerStep(w, Fails(true)));
    assert t == Moved(s, w, Releasing(k, VANISHED));
    t := Then(r, t, WorkerStep(w, Ok));
    assert s.workers[w := Releasing(k, VANISHED)][w := Sending(k, VANISHED)] ==
           s.workers[w := Sending(k, VANISHED)];
  }

  /** The node is cordoned and its drain fails. */
  lemma DrainFails(r: Run, s: Run, w: nat) returns (t: Run)
    requires Leads(r, s) && w < |s.workers| && s.workers[w].Looking? && s.queue.dirty == {}
    ensures Leads(r, t)
    ensures
      var k := s.workers[w].key;
      t == Moved(s, w, Sending(k, STUCK)).(queue := s.queue.Done(k), cordoned := s.cordoned + {k})
  {
    var k, ws := s.workers[w].key, s.workers;
    t := Then(r, s, WorkerStep(w, Ok));
    assert t == Moved(s, w, Cordoning(k));
    t := Then(r, t, WorkerStep(w, Ok));
    assert ws[w := Cordoning(k)][w := Draining(k)] == ws[w := Draining(k)];
    assert t == Moved(s, w, Draining(k)).(cordoned := s.cordoned + {k});
    t := Then(r, t, WorkerStep(w, Fails(false)));
    assert ws[w := Draining(k)][w := Releasing(k, STUCK)] == ws[w := Releasing(k, STUCK)];
    assert t == Moved(s, w, Releasing(k, STUCK)).(cordoned := s.cordoned + {k});
    t := Then(r, t, WorkerStep(w, Ok));
    assert ws[w := Releasing(k, STUCK)][w := Sending(k, STUCK)] == ws[w := Sending(k, STUCK)];
  }

  /** The report goes into the buffer of the channel, and the worker leaves. */
  lemma Buffers(r: Run, s: Run, w: nat) returns (t: Run)
    requires Leads(r, s) && w < |s.workers| && s.workers[w].Sending? && |s.buffer| < s.capacity
    ensures Leads(r, t)
    ensures
      var worker := s.workers[w];
      t == Moved(s, w, Finished(worker.key, worker.result)).(
             sent := s.sent + [worker.Reported()], buffer := s.buffer + [worker.Reported()])
  {
    var worker := s.workers[w];
    t := Then(r, s, WorkerStep(w, Ok));
    t := Then(r, t, WorkerStep(w, Ok));
    assert s.workers[w := Leaving(worker.key, worker.result)][w := Finished(worker.key, worker.result)] ==
           s.workers[w := Finished(worker.key, worker.result)];
  }

  /** The report ends up in the hand of the collector, which was idle. */
  lemma HandsOver(r: Run, s: Run, w: nat) returns (t: Run)
    requires Leads(r, s) && w < |s.workers| && s.workers[w].Sending? && s.buffer == [] && s.collector.Idle?
    ensures Leads(r, t)
    ensures
      var worker := s.workers[w];
      t == Moved(s, w, Finished(worker.key, worker.result)).(
             sent := s.sent + [worker.Reported()], collector := Holding(worker.Reported()))
  {
    var worker := s.workers[w];
    if s.capacity > 0 {
      t := Buffers(r, s, w);
      t := Then(r, t, CollectorStep);
    } else {
      t := Then(r, s, WorkerStep(w, Ok));
      t := Then(r, t, WorkerStep(w, Ok));
      assert s.workers[w := Leaving(worker.key, worker.result)][w := Finished(worker.key, worker.result)] ==
             s.workers[w := Finished(worker.key, worker.result)];
    }
  }

  // ---- First the nodes that vanished, then the ones that cannot be drained ----

  /** The result planned for the i-th worker: the last `m` of them fail. */
  function Planned(q: Queue, m: nat, i: nat): Result {
    if i + m < |q.keys| then VANISHED else STUCK
  }

  /** What that worker has sent. */
  function PlannedReport(q: Queue, m: nat, i: nat): Report
    requires i < |q.keys|
  {
    if i + m < |q.keys| then Nil else Error(q.keys[i], DrainFailed)
  }

  /**
   The first `j` workers have finished and the others are about to look up their nodes. The
   collector keeps up until the first failure reaches it, and does nothing from then on.
   */
  ghost predicate Stage(q: Queue, m: nat, s: Run, j: nat) {
    && m <= |q.keys| && j <= |q.keys| == |s.workers|
    && s.main.Checking? && s.queue.keys == [] && s.queue.dirty == {} && s.errs == []
    && (forall i :: 0 <= i < |q.keys| ==>
         s.workers[i] == if i < j then Finished(q.keys[i], Planned(q, m, i)) else Looking(q.keys[i]))
    && |s.sent| == j && (forall i :: 0 <= i < j ==> s.sent[i] == PlannedReport(q, m, i))
    && (if j + m <= |q.keys| then s.collector.Idle? && s.buffer == []
        else s.collector.Holding? && |s.buffer| == j + m - |q.keys| - 1)
  }

  /** What the next stage needs of the next state, the channel aside. */
  ghost predicate NextWorkers(q: Queue, m: nat, s: Run, t: Run, j: nat)
    requires j < |q.keys| && j < |s.workers|
  {
    && t.workers == s.workers[j := Finished(q.keys[j], Planned(q, m, j))]
    && t.sent == s.sent + [PlannedReport(q, m, j)]
    && t.main == s.main && t.queue.keys == s.queue.keys && t.queue.dirty == s.queue.dirty
    && t.capacity == s.capacity && t.errs == s.errs
  }

  lemma NextStage(q: Queue, m: nat, s: Run, t: Run, j: nat)
    requires j < |q.keys| && Stage(q, m, s, j) && NextWorkers(q, m, s, t, j)
    requires if j + 1 + m <= |q.keys| then t.collector.Idle? && t.buffer == []
             else t.collector.Holding? && |t.buffer| == j + m - |q.keys|
    ensures Stage(q, m, t, j + 1)
  {
  }

  lemma QuietWorker(r: Run, q: Queue, m: nat, s: Run, j: nat) returns (t: Run)
    requires Leads(r, s) && Stage(q, m, s, j) && j + m < |q.keys|
    ensures Leads(r, t) && Stage(q, m, t, j + 1) && t.capacity == s.capacity
  {
    t := LookupFails(r, s, j);
    assert s.workers[j := t.workers[j]][j := Finished(q.keys[j], VANISHED)] ==
           s.workers[j := Finished(q.keys[j], VANISHED)];
    t := HandsOver(r, t, j);
    t := Then(r, t, CollectorStep);
    NextStage(q, m, s, t, j);
  }

  lemma FailingWorker(r: Run, q: Queue, m: nat, s: Run, j: nat) returns (t: Run)
    requires Leads(r, s) && Stage(q, m, s, j) && |q.keys| <= j + m && j < |q.keys| && m <= s.capacity + 1
    ensures Leads(r, t) && Stage(q, m, t, j + 1) && t.capacity == s.capacity
  {
    t := DrainFails(r, s, j);
    assert s.workers[j := t.workers[j]][j := Finished(q.keys[j], STUCK)] ==
           s.workers[j := Finished(q.keys[j], STUCK)];
    if j + m == |q.keys| {
      t := HandsOver(r, t, j);
    } else {
      t := Buffers(r, t, j);
    }
    NextStage(q, m, s, t, j);
  }

  lemma {:induction false} NobodyGone(ws: seq<Worker>)
    requires forall i :: 0 <= i < |ws| ==> !ws[i].Departed()
    ensures Gone(ws) == 0
    decreases |ws|
  {
    if ws != [] {
      NobodyGone(ws[..|ws| - 1]);
    }
  }

  /** As long as every worker is looking up its node, the channel has not been used. */
  lemma NothingSentYet(s: Run)
    requires Inv(s) && s.main.Checking? && s.queue.keys == []
    requires forall i :: 0 <= i < |s.workers| ==> s.workers[i].Looking?
    ensures s.queue.dirty == {} && s.sent == [] && s.buffer == [] && s.errs == [] && s.collector.Idle?
  {
    NobodyGone(s.workers);
  }

  lemma {:induction false} ReachStage(q: Queue, capacity: nat, cordoned: set<Key>, m: nat, j: nat) returns (s: Run)
    requires q.Idle() && m <= |q.keys| && m <= capacity + 1 && j <= |q.keys|
    ensures Leads(Init(q, capacity, cordoned), s) && Stage(q, m, s, j) && s.capacity == capacity
    decreases j
  {
    var r, n := Init(q, capacity, cordoned), |q.keys|;
    if j == 0 {
      var es := ThenTake(q, capacity, cordoned, n, n);
      s := Exec(r, es);
      StartIsConstant(r, es);
      InitInv(q, capacity, cordoned);
      ExecKeepsInv(r, es);
      NothingSentYet(s);
    } else {
      s := ReachStage(q, capacity, cordoned, m, j - 1);
      if j - 1 + m < n {
        s := QuietWorker(r, q, m, s, j - 1);
      } else {
        s := FailingWorker(r, q, m, s, j - 1);
      }
    }
  }

  /** Once all workers are done, main can return and record before the collector moves again. */
  lemma MainRunsAhead(r: Run, s: Run) returns (t: Run)
    requires Leads(r, s) && s.main.Checking? && s.queue.keys == [] && s.errs == []
    requires forall i :: 0 <= i < |s.workers| ==> s.workers[i].Finished?
    ensures Leads(r, t)
    ensures t == s.(main := Done, closed := true, returned := Some([]), recorded := Some([]))
  {
    t := Then(r, s, MainStep);
    t := Then(r, t, MainStep);
    t := Then(r, t, MainStep);
    t := Then(r, t, MainStep);
    t := Then(r, t, MainStep);
  }

  lemma StuckStaysCordoned(s: Run, q: Queue, m: nat)
    requires CordonInv(s) && m <= |q.keys| == |s.workers|
    requires forall i :: 0 <= i < |q.keys| ==> s.workers[i] == Finished(q.keys[i], Planned(q, m, i))
    ensures forall i :: |q.keys| - m <= i < |q.keys| ==> q.keys[i] in s.cordoned
  {
    forall i | |q.keys| - m <= i < |q.keys|
      ensures q.keys[i] in s.cordoned
    {
      assert s.workers[i] == Finished(q.keys[i], STUCK);
    }
  }

  /**
   For every queue and capacity and every m up to both n and capacity + 1: all n workers run, the
   last m of them fail to drain their nodes and leave them cordoned, and still no error is returned
   or recorded.
   */
  lemma FailuresCanGoUnrecorded(q: Queue, capacity: nat, cordoned: set<Key>, m: nat) returns (es: seq<Event>)
    requires q.Idle() && m <= |q.keys| && m <= capacity + 1
    ensures Complete(Init(q, capacity, cordoned), es)
    ensures
      var s := Exec(Init(q, capacity, cordoned), es);
      && s.returned == Some([]) && s.recorded == Some([])
      && |s.workers| == |s.sent| == |q.keys|
      && (forall i :: 0 <= i < |q.keys| ==> s.sent[i] == PlannedReport(q, m, i))
      && (forall i :: 0 <= i < |q.keys| ==> s.workers[i] == Finished(q.keys[i], Planned(q, m, i)))
      && (forall i :: |q.keys| - m <= i < |q.keys| ==> q.keys[i] in s.cordoned)
  {
    var r := Init(q, capacity, cordoned);
    var s := ReachStage(q, capacity, cordoned, m, |q.keys|);
    s := MainRunsAhead(r, s);
    es :| Legal(r, es) && Exec(r, es) == s;
    InitInv(q, capacity, cordoned);
    ExecKeepsInv(r, es);
    StuckStaysCordoned(s, q, m);
  }

  /** Reports that begin with `p` nils hold at most as many errors as follow, and all of those can be. */
  lemma {:induction false} CountFailures(reports: seq<Report>, p: nat)
    requires p <= |reports| && forall i :: 0 <= i < p ==> reports[i].Nil?
    ensures |Failures(reports)| <= |reports| - p
    ensures (forall i :: p <= i < |reports| ==> reports[i].Error?) ==> |Failures(reports)| == |reports| - p
    decreases |reports|
  {
    if reports != [] {
      var front := reports[..|reports| - 1];
      CountFailures(front, if p <= |front| then p else |front|);
    }
  }

  lemma HiddenAreFew(q: Queue, capacity: nat, cordoned: set<Key>, es: seq<Event>, m: nat)
    requires q.Idle() && Hides(q, capacity, cordoned, es, m)
    ensures m <= |q.keys| && m <= capacity + 1
  {
    var r := Init(q, capacity, cordoned);
    var s := Exec(r, es);
    NilRecordedErrorBound(q, capacity, cordoned, es);
    InitInv(q, capacity, cordoned);
    ExecKeepsInv(r, es);
    StartIsConstant(r, es);
    CountFailures(s.sent, if |s.sent| > capacity + 1 then |s.sent| - (capacity + 1) else 0);
  }

  /**
   The numbers of failures that runs over `q` can hide are exactly 0, 1, ..., min(n, capacity + 1):
   no interleaving hides more, and each of these is hidden by some interleaving.
   */
  lemma HiddenFailuresExactly(q: Queue, capacity: nat, cordoned: set<Key>, m: nat)
    requires q.Idle()
    ensures (exists es :: Hides(q, capacity, cordoned, es, m)) <==> m <= |q.keys| && m <= capacity + 1
  {
    forall es | Hides(q, capacity, cordoned, es, m)
      ensures m <= |q.keys| && m <= capacity + 1
    {
      HiddenAreFew(q, capacity, cordoned, es, m);
    }
    if m <= |q.keys| && m <= capacity + 1 {
      var es := FailuresCanGoUnrecorded(q, capacity, cordoned, m);
      CountFailures(Exec(Init(q, capacity, cordoned), es).sent, |q.keys| - m);
      assert Hides(q, capacity, cordoned, es, m);
    }
  }

  /** Recording no error means that no worker reported one exactly if there was nothing to do. */
  lemma RecordIsTruthfulOnlyIfIdle(q: Queue, capacity: nat, cordoned: set<Key>)
    requires q.Idle()
    ensures RecordIsTruthful(q, capacity, cordoned) <==> q.keys == []
  {
    if q.keys == [] {
      forall es | Complete(Init(q, capacity, cordoned), es)
        ensures Exec(Init(q, capacity, cordoned), es).sent == []
      {
        InitInv(q, capacity, cordoned);
        ExecKeepsInv(Init(q, capacity, cordoned), es);
        StartIsConstant(Init(q, capacity, cordoned), es);
        CountBounds(Exec(Init(q, capacity, cordoned), es).workers);
      }
    } else {
      var es := FailuresCanGoUnrecorded(q, capacity, cordoned, 1);
      var sent := Exec(Init(q, capacity, cordoned), es).sent;
      assert sent[|q.keys| - 1] in sent && sent[|q.keys| - 1].Error?;
      assert Complete(Init(q, capacity, cordoned), es);
    }
  }
}
