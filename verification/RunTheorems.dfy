/** What an upgrade run guarantees, whatever the interleaving and whatever the cluster answers. */
module RunTheorems {
  import opened Basics
  import opened WorkQueue
  import opened UpgradeRun
  import opened RunInvariant
  import opened RunTermination

  // ---- The spawn loop ----

  lemma SuffixDistinct(keys: seq<Key>, from: nat)
    requires Distinct(keys) && from <= |keys|
    ensures Distinct(keys[from..])
  {
  }

  lemma NobodyInFlight(s: Run)
    requires OwnerInv(s) && LoopInv(s) && s.Joined()
    ensures s.queue.processing == {}
  {
    forall k
      ensures k !in s.queue.processing
    {
      assert k in s.owner ==> s.workers[s.owner[k]].Finished?;
    }
  }

  lemma IdleAtJoin(s: Run)
    requires QueueInv(s) && OwnerInv(s) && LoopInv(s) && s.Joined()
    ensures s.queue.dirty == Elems(s.queue.keys) && s.queue.processing == {}
    ensures s.queue.Idle()
    ensures s.owner.Keys == Elems(s.start[..Taken(s)])
  {
    NobodyInFlight(s);
    SuffixDistinct(s.start, Taken(s));
    assert forall k :: k in s.owner.Keys <==> k in s.start[..Taken(s)];
  }

  lemma {:induction false} StartIsConstant(r: Run, es: seq<Event>)
    requires Legal(r, es)
    ensures
      var s := Exec(r, es);
      s.start == r.start && s.before == r.before && s.capacity == r.capacity
    decreases |es|
  {
    if es != [] {
      StartIsConstant(Step(r, es[0]), es[1..]);
    }
  }

  /**
   With n keys waiting, W workers run and ceil(n/2) <= W <= n. They take the first W keys, one
   each, and the rest stay in order; the queue is idle again.
   */
  lemma SpawnBound(q: Queue, capacity: nat, cordoned: set<Key>, es: seq<Event>)
    requires q.Idle() && Legal(Init(q, capacity, cordoned), es)
    requires Exec(Init(q, capacity, cordoned), es).Joined()
    ensures
      var s := Exec(Init(q, capacity, cordoned), es);
      var n, workers := |q.keys|, |s.workers|;
      && n <= 2 * workers && workers <= n
      && s.queue == Queue(q.keys[workers..], Elems(q.keys[workers..]), {})
      && s.queue.Idle()
      && s.owner.Keys == Elems(q.keys[..workers])
      && (forall i :: 0 <= i < workers ==>
           s.workers[i].Finished? && s.workers[i].key in s.owner && s.owner[s.workers[i].key] == i)
  {
    var r := Init(q, capacity, cordoned);
    InitInv(q, capacity, cordoned);
    ExecKeepsInv(r, es);
    StartIsConstant(r, es);
    var s := Exec(r, es);
    CountBounds(s.workers);
    assert Taken(s) == |s.workers|;
    IdleAtJoin(s);
  }

  // ---- The number of nodes taken out of service at the same time ----

  /** No interleaving has more nodes in flight than keys were waiting. */
  lemma InFlightAtMostQueue(q: Queue, capacity: nat, cordoned: set<Key>, es: seq<Event>)
    requires q.Idle() && Legal(Init(q, capacity, cordoned), es)
    ensures |Exec(Init(q, capacity, cordoned), es).queue.processing| <= |q.keys|
  {
    var r := Init(q, capacity, cordoned);
    InitInv(q, capacity, cordoned);
    ExecKeepsInv(r, es);
    StartIsConstant(r, es);
    DistinctCardinality(q.keys);
    SubsetCardinality(Exec(r, es).queue.processing, Elems(q.keys));
  }

  /** Workers 0 .. k-1 hold the first keys, the others have not started: the loop raced ahead. */
  ghost predicate Raced(r: Run, s: Run, workers: nat, k: nat) {
    && k <= workers <= |r.start|
    && s.start == r.start && s.capacity == r.capacity && s.main.Checking?
    && s.queue.keys == r.start[k..] && s.queue.processing == Elems(r.start[..k])
    && |s.workers| == workers
    && forall i :: 0 <= i < workers ==> s.workers[i] == if i < k then Looking(r.start[i]) else Starting
  }

  /** The loop can spawn up to n workers before any of them takes a key. */
  lemma {:induction false} SpawnFirst(q: Queue, capacity: nat, cordoned: set<Key>, workers: nat)
    returns (es: seq<Event>)
    requires q.Idle() && workers <= |q.keys|
    ensures Legal(Init(q, capacity, cordoned), es)
    ensures Raced(Init(q, capacity, cordoned), Exec(Init(q, capacity, cordoned), es), workers, 0)
  {
    var r := Init(q, capacity, cordoned);
    if workers == 0 {
      es := [];
      assert r.start[..0] == [];
    } else {
      var fs := SpawnFirst(q, capacity, cordoned, workers - 1);
      var s := Exec(r, fs);
      var s1 := Extend(r, fs, MainStep);
      var s2 := Extend(r, fs + [MainStep], MainStep);
      es := fs + [MainStep] + [MainStep];
    }
  }

  /** Then any number of them can take their keys. */
  lemma {:induction false} ThenTake(q: Queue, capacity: nat, cordoned: set<Key>, workers: nat, k: nat)
    returns (es: seq<Event>)
    requires q.Idle() && k <= workers <= |q.keys|
    ensures Legal(Init(q, capacity, cordoned), es)
    ensures Raced(Init(q, capacity, cordoned), Exec(Init(q, capacity, cordoned), es), workers, k)
    decreases k
  {
    var r := Init(q, capacity, cordoned);
    if k == 0 {
      es := SpawnFirst(q, capacity, cordoned, workers);
    } else {
      var fs := ThenTake(q, capacity, cordoned, workers, k - 1);
      var s := Exec(r, fs);
      assert r.start[..k] == r.start[..k - 1] + [r.start[k - 1]];
      var t := Extend(r, fs, WorkerStep(k - 1, Ok));
      es := fs + [WorkerStep(k - 1, Ok)];
    }
  }

  /** All n nodes can be in flight at once, whatever maxUnavailable is. */
  lemma AllInFlight(q: Queue, capacity: nat, cordoned: set<Key>) returns (es: seq<Event>)
    requires q.Idle()
    ensures Legal(Init(q, capacity, cordoned), es)
    ensures |Exec(Init(q, capacity, cordoned), es).queue.processing| == |q.keys|
  {
    es := ThenTake(q, capacity, cordoned, |q.keys|, |q.keys|);
    assert q.keys[..|q.keys|] == q.keys;
    DistinctCardinality(q.keys);
  }

  /** The cap the comment in startUpgrade promises: min(maxUnavailable, len(queue)). */
  ghost predicate RespectsCap(q: Queue, maxUnavailable: nat, cordoned: set<Key>) {
    forall es :: Legal(Init(q, maxUnavailable, cordoned), es) ==>
      var inFlight := |Exec(Init(q, maxUnavailable, cordoned), es).queue.processing|;
      inFlight <= maxUnavailable && inFlight <= |q.keys|
  }

  /** The loop ignores numWorkers, so the promised cap holds exactly when it is not needed. */
  lemma CapHoldsOnlyIfQueueIsShort(q: Queue, maxUnavailable: nat, cordoned: set<Key>)
    requires q.Idle()
    ensures RespectsCap(q, maxUnavailable, cordoned) <==> |q.keys| <= maxUnavailable
  {
    forall es | Legal(Init(q, maxUnavailable, cordoned), es)
      ensures |Exec(Init(q, maxUnavailable, cordoned), es).queue.processing| <= |q.keys|
    {
      InFlightAtMostQueue(q, maxUnavailable, cordoned, es);
    }
    var es := AllInFlight(q, maxUnavailable, cordoned);
  }

  /** Every worker count the spawn bound allows is the outcome of some complete run. */
  lemma SpawnBoundIsTight(q: Queue, capacity: nat, cordoned: set<Key>, workers: nat)
    returns (es: seq<Event>)
    requires q.Idle() && |q.keys| <= 2 * workers && workers <= |q.keys|
    ensures Legal(Init(q, capacity, cordoned), es)
    ensures Exec(Init(q, capacity, cordoned), es).Over()
    ensures |Exec(Init(q, capacity, cordoned), es).workers| == workers
  {
    var r := Init(q, capacity, cordoned);
    InitInv(q, capacity, cordoned);
    var fs := ThenTake(q, capacity, cordoned, workers, |q.keys| - workers);
    var t := Extend(r, fs, MainStep);
    ExecKeepsInv(r, fs + [MainStep]);
    assert t.PastLoop() && |t.workers| == workers;
    var rest := Completion(t);
    WorkersSettled(t, rest);
    ExecConcat(r, fs + [MainStep], rest);
    es := fs + [MainStep] + rest;
  }

  // ---- The error channel ----

  lemma {:induction false} FailuresAreErrors(reports: seq<Report>)
    ensures forall x :: x in Failures(reports) <==> x in reports && x.Error?
    decreases |reports|
  {
    if reports != [] {
      FailuresAreErrors(reports[..|reports| - 1]);
      assert reports == reports[..|reports| - 1] + [reports[|reports| - 1]];
    }
  }

  /**
   At every step the reports sent are, in order, those collected, then the one in the collector's
   hand, then those buffered, at most `capacity`; the error so far is the non-nil collected ones.
   */
  lemma ResultConservation(q: Queue, capacity: nat, cordoned: set<Key>, es: seq<Event>)
    requires q.Idle() && Legal(Init(q, capacity, cordoned), es)
    ensures
      var s := Exec(Init(q, capacity, cordoned), es);
      && s.sent == s.collected + InHand(s.collector) + s.buffer
      && |s.buffer| <= capacity && |s.sent| <= |s.collected| + capacity + 1
      && (forall x :: x in s.errs <==> x in s.collected && x.Error?)
      && (s.Joined() ==> |s.sent| == |s.workers|)
      && (s.collector.Exited? ==> s.collected == s.sent)
  {
    var r := Init(q, capacity, cordoned);
    InitInv(q, capacity, cordoned);
    ExecKeepsInv(r, es);
    StartIsConstant(r, es);
    CountBounds(Exec(r, es).workers);
    FailuresAreErrors(Exec(r, es).collected);
  }

  /**
   The verdict: both errors stand for all reports sent but at most the last capacity + 1, and the
   returned one is part of the recorded one.
   */
  lemma ReturnedErrorIsRecorded(q: Queue, capacity: nat, cordoned: set<Key>, es: seq<Event>)
    requires q.Idle() && Complete(Init(q, capacity, cordoned), es)
    ensures
      var s := Exec(Init(q, capacity, cordoned), es);
      && s.returned.Some? && s.recorded.Some? && |s.sent| == |s.workers| && s.capacity == capacity
      && StandsFor(s, s.returned.value) && StandsFor(s, s.recorded.value)
      && s.returned.value <= s.recorded.value
      && (s.returned.value != [] ==> s.recorded.value != [])
  {
    var r := Init(q, capacity, cordoned);
    InitInv(q, capacity, cordoned);
    ExecKeepsInv(r, es);
    StartIsConstant(r, es);
    CountBounds(Exec(r, es).workers);
  }

  /** An error that is not among the last capacity + 1 reports is part of whatever stands for the reports. */
  lemma EarlyErrorShows(s: Run, errs: seq<Report>, i: nat)
    requires StandsFor(s, errs) && i < |s.sent| - (s.capacity + 1) && s.sent[i].Error?
    ensures s.sent[i] in errs
  {
    var m: nat :| StandsForFirst(s, errs, m);
    FailuresAreErrors(s.sent[..m]);
    assert s.sent[..m][i] == s.sent[i];
  }

  /** So a run in which such an error was sent returns a non-nil error, and records one. */
  lemma EarlyErrorIsReturned(q: Queue, capacity: nat, cordoned: set<Key>, es: seq<Event>, i: nat)
    requires q.Idle() && Complete(Init(q, capacity, cordoned), es)
    requires
      var s := Exec(Init(q, capacity, cordoned), es);
      i < |s.sent| - (capacity + 1) && s.sent[i].Error?
    ensures
      var s := Exec(Init(q, capacity, cordoned), es);
      && s.returned.Some? && s.sent[i] in s.returned.value && s.recorded.Some? && s.sent[i] in s.recorded.value
  {
    ReturnedErrorIsRecorded(q, capacity, cordoned, es);
    var s := Exec(Init(q, capacity, cordoned), es);
    EarlyErrorShows(s, s.returned.value, i);
    EarlyErrorShows(s, s.recorded.value, i);
  }

  /** The errors collected so far, and all errors if the collector has exited. */
  ghost predicate IsVerdict(found: Run, errs: Option<seq<Report>>, s: Run) {
    && errs == Some(Failures(found.collected)) && found.sent == s.sent
    && (found.collector.Exited? ==> errs == Some(Failures(s.sent)))
  }

  /** One event earlier. */
  lemma LastEvent(r: Run, es: seq<Event>) returns (s: Run)
    requires Legal(r, es) && es != []
    ensures Legal(r, es[..|es| - 1]) && s == Exec(r, es[..|es| - 1])
    ensures Enabled(s, es[|es| - 1]) && Exec(r, es) == Step(s, es[|es| - 1])
  {
    var n := |es| - 1;
    LegalPrefix(r, es, n);
    s := Exec(r, es[..n]);
    var last := es[n..];
    assert last[0] == es[n] && last[1..] == [];
    assert Exec(s, last) == Exec(Step(s, last[0]), last[1..]);
  }

  lemma AllCollected(s: Run)
    requires ChannelInv(s)
    ensures s.errs == Failures(s.collected) && (s.collector.Exited? ==> s.collected == s.sent)
  {
  }

  /** The step on which the verdict is taken. */
  lemma VerdictIsTaken(s: Run, e: Event)
    requires Inv(s) && Enabled(s, e) && (s.main.Returning? || s.main.Recording?) && Step(s, e).main != s.main
    ensures e.MainStep?
    ensures s.main.Returning? ==> IsVerdict(s, Step(s, e).returned, Step(s, e))
    ensures s.main.Recording? ==> IsVerdict(s, Step(s, e).recorded, Step(s, e))
  {
    AllCollected(s);
  }

  /** After the join nothing is sent any more, and a verdict stays. */
  lemma ReturnedStays(found: Run, s: Run, e: Event)
    requires Inv(s) && Enabled(s, e) && !s.main.Returning?
    requires Step(s, e).main.Recording? || Step(s, e).main.Done?
    ensures s.main.Recording? || s.main.Done?
    ensures IsVerdict(found, s.returned, s) ==> IsVerdict(found, Step(s, e).returned, Step(s, e))
  {
  }

  lemma RecordedStays(found: Run, s: Run, e: Event)
    requires Inv(s) && Enabled(s, e) && !s.main.Recording? && Step(s, e).main.Done?
    ensures s.main.Done?
    ensures IsVerdict(found, s.recorded, s) ==> IsVerdict(found, Step(s, e).recorded, Step(s, e))
  {
  }

  /** The event `j` is main's, the state before it is `found`. */
  ghost predicate Found(r: Run, es: seq<Event>, j: nat, found: Run) {
    j < |es| && es[j].MainStep? && Legal(r, es[..j]) && Exec(r, es[..j]) == found
  }

  lemma FoundLater(r: Run, es: seq<Event>, n: nat, j: nat, found: Run)
    requires n <= |es| && Found(r, es[..n], j, found)
    ensures Found(r, es, j, found)
  {
    assert es[..n][..j] == es[..j];
  }

  /** The state before the last event of a run. */
  lemma StateBeforeLast(q: Queue, capacity: nat, cordoned: set<Key>, es: seq<Event>) returns (s: Run)
    requires q.Idle() && Legal(Init(q, capacity, cordoned), es) && es != []
    ensures Legal(Init(q, capacity, cordoned), es[..|es| - 1]) && s == Exec(Init(q, capacity, cordoned), es[..|es| - 1])
    ensures Inv(s) && Enabled(s, es[|es| - 1]) && Exec(Init(q, capacity, cordoned), es) == Step(s, es[|es| - 1])
  {
    s := LastEvent(Init(q, capacity, cordoned), es);
    InitInv(q, capacity, cordoned);
    ExecKeepsInv(Init(q, capacity, cordoned), es[..|es| - 1]);
  }

  /**
   What a run returns is exactly what the collector has collected when main returns; if the collector
   has exited by then, that is every error sent.
   */
  lemma {:induction false} ReturnedIsCollected(q: Queue, capacity: nat, cordoned: set<Key>, es: seq<Event>)
    returns (j: nat, found: Run)
    requires q.Idle() && Legal(Init(q, capacity, cordoned), es)
    requires var main := Exec(Init(q, capacity, cordoned), es).main; main.Recording? || main.Done?
    ensures Found(Init(q, capacity, cordoned), es, j, found) && found.main.Returning?
    ensures
      var s := Exec(Init(q, capacity, cordoned), es);
      IsVerdict(found, s.returned, s)
    decreases |es|
  {
    var n := |es| - 1;
    var s := StateBeforeLast(q, capacity, cordoned, es);
    if s.main.Returning? {
      j, found := n, s;
      VerdictIsTaken(s, es[n]);
    } else {
      ReturnedStays(s, s, es[n]);
      j, found := ReturnedIsCollected(q, capacity, cordoned, es[..n]);
      ReturnedStays(found, s, es[n]);
      FoundLater(Init(q, capacity, cordoned), es, n, j, found);
    }
  }

  /** Likewise what it records, when the deferred closure reads it. */
  lemma {:induction false} RecordedIsCollected(q: Queue, capacity: nat, cordoned: set<Key>, es: seq<Event>)
    returns (j: nat, found: Run)
    requires q.Idle() && Complete(Init(q, capacity, cordoned), es)
    ensures Found(Init(q, capacity, cordoned), es, j, found) && found.main.Recording?
    ensures
      var s := Exec(Init(q, capacity, cordoned), es);
      IsVerdict(found, s.recorded, s)
    decreases |es|
  {
    var n := |es| - 1;
    var s := StateBeforeLast(q, capacity, cordoned, es);
    if s.main.Recording? {
      j, found := n, s;
      VerdictIsTaken(s, es[n]);
    } else {
      RecordedStays(s, s, es[n]);
      j, found := RecordedIsCollected(q, capacity, cordoned, es[..n]);
      RecordedStays(found, s, es[n]);
      FoundLater(Init(q, capacity, cordoned), es, n, j, found);
    }
  }

  /**
   A nil recorded error only vouches for the reports up to some point: any failure it misses is
   among the last capacity + 1 reports sent.
   */
  lemma NilRecordedErrorBound(q: Queue, capacity: nat, cordoned: set<Key>, es: seq<Event>)
    requires q.Idle() && Complete(Init(q, capacity, cordoned), es)
    requires Exec(Init(q, capacity, cordoned), es).recorded == Some([])
    ensures
      var s := Exec(Init(q, capacity, cordoned), es);
      && |s.sent| == |s.workers|
      && forall i :: 0 <= i < |s.sent| - (capacity + 1) ==> s.sent[i].Nil?
  {
    var r := Init(q, capacity, cordoned);
    InitInv(q, capacity, cordoned);
    ExecKeepsInv(r, es);
    StartIsConstant(r, es);
    var s := Exec(r, es);
    CountBounds(s.workers);
    var m: nat :| StandsForFirst(s, [], m);
    FailuresAreErrors(s.sent[..m]);
    forall i | 0 <= i < |s.sent| - (capacity + 1)
      ensures s.sent[i].Nil?
    {
      assert s.sent[..m][i] in s.sent[..m];
    }
  }

  // ---- Cordons ----

  /** At every step the cordons that differ from the start are those of the workers in question. */
  lemma CordonAccounting(q: Queue, capacity: nat, cordoned: set<Key>, es: seq<Event>, k: Key)
    requires q.Idle() && Legal(Init(q, capacity, cordoned), es)
    ensures
      var s := Exec(Init(q, capacity, cordoned), es);
      && (k !in s.owner ==> (k in s.cordoned <==> k in cordoned))
      && (k in s.owner ==>
           && s.owner[k] < |s.workers| && !s.workers[s.owner[k]].Starting?
           && s.workers[s.owner[k]].key == k && k in q.keys
           && (k in s.cordoned <==> FlagOf(s.workers[s.owner[k]], k in cordoned)))
  {
    var r := Init(q, capacity, cordoned);
    InitInv(q, capacity, cordoned);
    ExecKeepsInv(r, es);
    StartIsConstant(r, es);
    var s := Exec(r, es);
    if k in s.owner {
      assert s.workers[s.owner[k]].key == k;
    }
  }

  /** The worker that took `k` has finished with this result. */
  predicate ResultIs(s: Run, k: Key, result: Result) {
    k in s.owner && s.owner[k] < |s.workers| && s.workers[s.owner[k]] == Finished(k, result)
  }

  /** The drain or the uncordon of `k` failed, which was reported unless the node was not found. */
  ghost predicate LeftCordoned(s: Run, k: Key) {
    exists cause, notFound ::
      && ResultIs(s, k, Failed(cause, notFound))
      && (cause.DrainFailed? || cause.UncordonFailed?)
      && (!notFound ==> Error(k, cause) in s.sent)
  }

  lemma JoinedFlags(s: Run, k: Key)
    requires OwnerInv(s) && LoopInv(s) && ReportInv(s) && CordonInv(s) && s.Joined()
    ensures k in s.cordoned <==> LeftCordoned(s, k) || (k in s.before && !ResultIs(s, k, Upgraded))
    ensures ResultIs(s, k, Upgraded) ==> k !in s.cordoned
  {
    if k in s.owner {
      var w := s.workers[s.owner[k]];
      assert w.Finished? && w.key == k;
      assert ResultIs(s, k, w.result);
      if w.result.Failed? && !w.result.notFound {
        assert w.Reported() in s.sent;
      }
    }
  }

  /**
   After the join a node is cordoned exactly if its drain or uncordon failed, or it was cordoned before
   and has not been upgraded; the failure was reported unless the cluster said the node was not found.
   A node whose calls all succeeded is schedulable, whatever it was before.
   */
  lemma CordonsAfterJoin(q: Queue, capacity: nat, cordoned: set<Key>, es: seq<Event>, k: Key)
    requires q.Idle() && Legal(Init(q, capacity, cordoned), es)
    requires Exec(Init(q, capacity, cordoned), es).Joined()
    ensures
      var s := Exec(Init(q, capacity, cordoned), es);
      && (k in s.cordoned <==> LeftCordoned(s, k) || (k in cordoned && !ResultIs(s, k, Upgraded)))
      && (ResultIs(s, k, Upgraded) ==> k !in s.cordoned)
  {
    var r := Init(q, capacity, cordoned);
    InitInv(q, capacity, cordoned);
    ExecKeepsInv(r, es);
    StartIsConstant(r, es);
    JoinedFlags(Exec(r, es), k);
  }

  lemma SentErrorIsResult(s: Run, k: Key, cause: Cause)
    requires ReportInv(s) && OwnerInv(s) && LoopInv(s) && s.Joined()
    ensures Error(k, cause) in s.sent <==> ResultIs(s, k, Failed(cause, false))
  {
    if Error(k, cause) in s.sent {
      var w := s.workers[s.owner[k]];
      assert w.key == k && w.Finished? && w.Reported() == Error(k, cause);
    }
  }

  /**
   The errors sent are exactly those of the taken nodes that failed for another reason than not
   being found, each once: an error names one node, and its worker's own result.
   */
  lemma ErrorsSentExactly(q: Queue, capacity: nat, cordoned: set<Key>, es: seq<Event>, k: Key, cause: Cause)
    requires q.Idle() && Legal(Init(q, capacity, cordoned), es)
    requires Exec(Init(q, capacity, cordoned), es).Joined()
    ensures
      var s := Exec(Init(q, capacity, cordoned), es);
      Error(k, cause) in s.sent <==> ResultIs(s, k, Failed(cause, false))
  {
    var r := Init(q, capacity, cordoned);
    InitInv(q, capacity, cordoned);
    ExecKeepsInv(r, es);
    SentErrorIsResult(Exec(r, es), k, cause);
  }
}
