/** What the cluster answers decides: results, reports and flags from the replies of a run alone. */
module WorkerReplies {
  import opened WorkQueue
  import opened UpgradeRun
  import opened RunInvariant
  import opened RunTheorems

  /** The replies in the events of worker `w`, in order. */
  function RepliesTo(es: seq<Event>, w: nat): seq<Reply> {
    if es == [] then []
    else
      RepliesTo(es[..|es| - 1], w) +
      match es[|es| - 1]
      case WorkerStep(v, reply) => if v == w then [reply] else []
      case _ => []
  }

  // A worker's first event takes a key. The next four, as long as all goes well, are its calls: the
  // lookup, the cordon, the drain and the uncordon of the node.

  predicate AllOk(replies: seq<Reply>) {
    |replies| > 4 && replies[1].Ok? && replies[2].Ok? && replies[3].Ok? && replies[4].Ok?
  }

  /** The first call that failed, and whether it failed because something was not found. */
  predicate FailsAt(replies: seq<Reply>, cause: Cause, notFound: bool) {
    match cause
    case LookupFailed =>
      |replies| > 1 && replies[1] == Fails(notFound)
    case CordonFailed =>
      |replies| > 2 && replies[1].Ok? && replies[2] == Fails(notFound)
    case DrainFailed =>
      |replies| > 3 && replies[1].Ok? && replies[2].Ok? && replies[3] == Fails(notFound)
    case UncordonFailed =>
      |replies| > 4 && replies[1].Ok? && replies[2].Ok? && replies[3].Ok? && replies[4] == Fails(notFound)
  }

  predicate Decides(replies: seq<Reply>, result: Result) {
    match result
    case Upgraded => AllOk(replies)
    case Failed(cause, notFound) => FailsAt(replies, cause, notFound)
  }

  /** The replies a worker has had by the time it is there. */
  ghost predicate HasHad(w: Worker, replies: seq<Reply>) {
    match w
    case Starting => replies == []
    case Looking(_) => |replies| == 1
    case Cordoning(_) => |replies| == 2 && replies[1].Ok?
    case Draining(_) => |replies| == 3 && replies[1].Ok? && replies[2].Ok?
    case Uncordoning(_) => |replies| == 4 && replies[1].Ok? && replies[2].Ok? && replies[3].Ok?
    case Releasing(_, result) => Decides(replies, result)
    case Sending(_, result) => Decides(replies, result)
    case Leaving(_, result) => Decides(replies, result)
    case Finished(_, result) => Decides(replies, result)
  }

  ghost predicate AllHaveHad(s: Run, es: seq<Event>) {
    && (forall w :: 0 <= w < |s.workers| ==> HasHad(s.workers[w], RepliesTo(es, w)))
    && (forall w: nat :: |s.workers| <= w ==> RepliesTo(es, w) == [])
  }

  lemma DecidesStill(replies: seq<Reply>, reply: Reply, result: Result)
    requires Decides(replies, result)
    ensures Decides(replies + [reply], result)
  {
  }

  /** A worker's own step. */
  lemma StepHasHad(s: Run, w: nat, reply: Reply, replies: seq<Reply>)
    requires Enabled(s, WorkerStep(w, reply)) && HasHad(s.workers[w], replies)
    ensures
      var t := StepWorker(s, w, reply);
      && |t.workers| == |s.workers| && HasHad(t.workers[w], replies + [reply])
      && forall v :: 0 <= v < |s.workers| && v != w ==> t.workers[v] == s.workers[v]
  {
    var worker := s.workers[w];
    if !worker.Calling() && !worker.Starting? {
      DecidesStill(replies, reply, worker.result);
    }
  }

  lemma RepliesAfter(es: seq<Event>, e: Event, w: nat)
    ensures RepliesTo(es + [e], w) == RepliesTo(es, w) + if e.WorkerStep? && e.w == w then [e.reply] else []
  {
    assert (es + [e])[..|es|] == es;
  }

  /** Main and the collector leave the workers as they are, but for one more that has had no reply. */
  lemma OthersKeepReplies(s: Run, t: Run, es: seq<Event>, e: Event)
    requires AllHaveHad(s, es) && !e.WorkerStep?
    requires t.workers == s.workers || t.workers == s.workers + [Starting]
    ensures AllHaveHad(t, es + [e])
  {
    forall w: nat
      ensures RepliesTo(es + [e], w) == RepliesTo(es, w)
    {
      RepliesAfter(es, e, w);
    }
  }

  lemma OneMoreReply(s: Run, t: Run, es: seq<Event>, w: nat, reply: Reply)
    requires AllHaveHad(s, es) && w < |s.workers| == |t.workers|
    requires HasHad(t.workers[w], RepliesTo(es, w) + [reply])
    requires forall v :: 0 <= v < |s.workers| && v != w ==> t.workers[v] == s.workers[v]
    ensures AllHaveHad(t, es + [WorkerStep(w, reply)])
  {
    forall v: nat
      ensures RepliesTo(es + [WorkerStep(w, reply)], v) ==
              if v == w then RepliesTo(es, v) + [reply] else RepliesTo(es, v)
    {
      RepliesAfter(es, WorkerStep(w, reply), v);
    }
  }

  lemma WorkerKeepsReplies(s: Run, es: seq<Event>, w: nat, reply: Reply)
    requires AllHaveHad(s, es) && Enabled(s, WorkerStep(w, reply))
    ensures AllHaveHad(StepWorker(s, w, reply), es + [WorkerStep(w, reply)])
  {
    StepHasHad(s, w, reply, RepliesTo(es, w));
    OneMoreReply(s, StepWorker(s, w, reply), es, w, reply);
  }

  lemma {:induction false} EveryWorkerHasHad(q: Queue, capacity: nat, cordoned: set<Key>, es: seq<Event>)
    requires Legal(Init(q, capacity, cordoned), es)
    ensures AllHaveHad(Exec(Init(q, capacity, cordoned), es), es)
    decreases |es|
  {
    if es != [] {
      var n := |es| - 1;
      var s := LastEvent(Init(q, capacity, cordoned), es);
      EveryWorkerHasHad(q, capacity, cordoned, es[..n]);
      assert es == es[..n] + [es[n]];
      match es[n]
      case WorkerStep(w, reply) => WorkerKeepsReplies(s, es[..n], w, reply);
      case MainStep =>
        MainMovesOnlyWorkers(s);
        OthersKeepReplies(s, StepMain(s), es[..n], es[n]);
      case CollectorStep => OthersKeepReplies(s, StepCollector(s), es[..n], es[n]);
    }
  }

  /** At most one result is decided by the same replies. */
  lemma DecidesOne(replies: seq<Reply>, a: Result, b: Result)
    requires Decides(replies, a) && Decides(replies, b)
    ensures a == b
  {
  }

  /**
   After the join every worker's result is decided by the cluster's replies to it: upgraded if and only
   if all four calls were answered Ok, else failed with the cause of the first that was not, and for
   being not found if and only if that reply said so.
   */
  lemma ResultIsDecided(q: Queue, capacity: nat, cordoned: set<Key>, es: seq<Event>, k: Key, result: Result)
    requires q.Idle() && Legal(Init(q, capacity, cordoned), es)
    requires Exec(Init(q, capacity, cordoned), es).Joined()
    ensures
      var s := Exec(Init(q, capacity, cordoned), es);
      ResultIs(s, k, result) <==> k in s.owner && Decides(RepliesTo(es, s.owner[k]), result)
  {
    var r := Init(q, capacity, cordoned);
    InitInv(q, capacity, cordoned);
    ExecKeepsInv(r, es);
    EveryWorkerHasHad(q, capacity, cordoned, es);
    var s := Exec(r, es);
    if k in s.owner {
      var w := s.workers[s.owner[k]];
      assert w.Finished? && w.key == k && HasHad(w, RepliesTo(es, s.owner[k]));
      if Decides(RepliesTo(es, s.owner[k]), result) {
        DecidesOne(RepliesTo(es, s.owner[k]), w.result, result);
      }
    }
  }

  /** An error is sent for a node exactly if that call was the first to fail, and not for being not found. */
  lemma ErrorsFromReplies(q: Queue, capacity: nat, cordoned: set<Key>, es: seq<Event>, k: Key, cause: Cause)
    requires q.Idle() && Legal(Init(q, capacity, cordoned), es)
    requires Exec(Init(q, capacity, cordoned), es).Joined()
    ensures
      var s := Exec(Init(q, capacity, cordoned), es);
      Error(k, cause) in s.sent <==> k in s.owner && FailsAt(RepliesTo(es, s.owner[k]), cause, false)
  {
    ErrorsSentExactly(q, capacity, cordoned, es, k, cause);
    ResultIsDecided(q, capacity, cordoned, es, k, Failed(cause, false));
  }

  lemma LeftMeansLateFailure(q: Queue, capacity: nat, cordoned: set<Key>, es: seq<Event>, k: Key)
    requires q.Idle() && Legal(Init(q, capacity, cordoned), es)
    requires Exec(Init(q, capacity, cordoned), es).Joined()
    ensures
      var s := Exec(Init(q, capacity, cordoned), es);
      LeftCordoned(s, k) <==>
        exists notFound ::
          ResultIs(s, k, Failed(DrainFailed, notFound)) || ResultIs(s, k, Failed(UncordonFailed, notFound))
  {
    forall cause, notFound
      ensures ResultIs(Exec(Init(q, capacity, cordoned), es), k, Failed(cause, notFound)) && !notFound ==>
              Error(k, cause) in Exec(Init(q, capacity, cordoned), es).sent
    {
      ErrorsSentExactly(q, capacity, cordoned, es, k, cause);
    }
  }

  /**
   A node is cordoned after the join exactly if its worker's drain or uncordon was the first call to
   fail, or it was cordoned before and its worker did not get all four calls answered Ok.
   */
  lemma CordonsFromReplies(q: Queue, capacity: nat, cordoned: set<Key>, es: seq<Event>, k: Key)
    requires q.Idle() && Legal(Init(q, capacity, cordoned), es)
    requires Exec(Init(q, capacity, cordoned), es).Joined()
    ensures
      var s := Exec(Init(q, capacity, cordoned), es);
      k in s.cordoned <==>
        if k in s.owner then
          var replies := RepliesTo(es, s.owner[k]);
          || (exists notFound :: FailsAt(replies, DrainFailed, notFound) || FailsAt(replies, UncordonFailed, notFound))
          || (k in cordoned && !AllOk(replies))
        else k in cordoned
  {
    var s := Exec(Init(q, capacity, cordoned), es);
    CordonsAfterJoin(q, capacity, cordoned, es, k);
    ResultIsDecided(q, capacity, cordoned, es, k, Upgraded);
    forall cause, notFound
      ensures ResultIs(s, k, Failed(cause, notFound)) <==>
              k in s.owner && FailsAt(RepliesTo(es, s.owner[k]), cause, notFound)
    {
      ResultIsDecided(q, capacity, cordoned, es, k, Failed(cause, notFound));
    }
    LeftMeansLateFailure(q, capacity, cordoned, es, k);
  }
}
