/** The node queue over many runs: who gets in, and how long a key can be left behind. */
module NodeQueue {
  import opened Basics
  import opened Labels
  import opened KubeletUpgrade
  import opened WorkQueue
  import opened UpgradeRun
  import opened RunTheorems
  import opened Polling
  import opened PollEffects
  import opened Lifecycle

  /** The keys that workers take during a happening. */
  ghost function TakenBy(cron: Cron, s: Site, e: Happening): set<Key>
    requires SiteInv(s) && Possible(cron, s, e)
  {
    if e.Polled? && Poll(cron, s, e.input).1.Ran? then Poll(cron, s, e.input).1.run.owner.Keys else {}
  }

  ghost predicate IsRun(cron: Cron, s: Site, e: Happening)
    requires SiteInv(s) && Possible(cron, s, e)
  {
    e.Polled? && Poll(cron, s, e.input).1.Ran?
  }

  /**
   A run adds the matching keys behind the waiting ones, takes at least half of the queue from the
   front, and leaves the rest in order.
   */
  lemma RunOnQueue(cron: Cron, s: Site, input: Input) returns (q: Queue, workers: nat)
    requires SiteInv(s) && CronContract(cron) && Possible(cron, s, Polled(input)) && IsRun(cron, s, Polled(input))
    ensures q.Idle() && s.queue.keys <= q.keys
    ensures Elems(q.keys) ==
            Elems(s.queue.keys) + Elems(MatchingKeys(input.copy.spec.selector + ExcludedNodes(), input.nodes))
    ensures workers <= |q.keys| <= 2 * workers
    ensures TakenBy(cron, s, Polled(input)) == Elems(q.keys[..workers])
    ensures After(cron, s, Polled(input)).queue.keys == q.keys[workers..]
  {
    if Gate(cron, s, input).None? {
      PollShortOfGate(cron, s, input);
    }
    ComposedGate(cron, s, input);
    PollThroughGate(cron, s, input);
    EnqueueEffect(s.queue, input.copy, input.nodes);
    q := Gate(cron, s, input).value.1;
    StartOutcome(cron, s.(queue := q), input.copy, input);
    var capacity := input.copy.spec.maxUnavailable;
    SpawnBound(q, capacity, s.cordoned, input.events);
    workers := |Exec(Init(q, capacity, s.cordoned), input.events).workers|;
  }

  /** Nothing but a run or the end of the process changes the queue. */
  lemma QueueUnchanged(cron: Cron, s: Site, e: Happening)
    requires SiteInv(s) && CronContract(cron) && Possible(cron, s, e)
    requires !IsRun(cron, s, e) && !s.crashed && !After(cron, s, e).crashed
    ensures After(cron, s, e).queue == s.queue
  {
    if e.Polled? {
      if Gate(cron, s, e.input).None? {
        PollShortOfGate(cron, s, e.input);
      } else {
        PollThroughGate(cron, s, e.input);
        StartOutcome(cron, s.(queue := Gate(cron, s, e.input).value.1), e.input.copy, e.input);
      }
    }
  }

  // ---- Who gets into the queue ----

  ghost predicate Vouches(input: Input, node: Node, k: Key) {
    && node.name == k
    && Selects(input.copy.spec.selector, node.labels)
    && KEY_NODE_ROLE_CONTROL_PLANE !in node.labels && KEY_NODE_ROLE_MASTER !in node.labels
  }

  /** A poll that went on to startUpgrade, and listed a node of that name that matched and is no control plane. */
  ghost predicate VouchesFor(cron: Cron, s: Site, e: Happening, k: Key)
    requires s.history != []
  {
    && e.Polled? && Gate(cron, s, e.input).Some?
    && exists j :: 0 <= j < |e.input.nodes| && Vouches(e.input, e.input.nodes[j], k)
  }

  /** Some poll of this life did. */
  ghost predicate Vouched(cron: Cron, s: Site, es: seq<Happening>, k: Key)
    requires SiteInv(s) && CronContract(cron) && Life(cron, s, es)
    decreases |es|
  {
    es != [] &&
    (VouchesFor(cron, s, es[0], k) ||
     (StepKeepsSite(cron, s, es[0]); Vouched(cron, After(cron, s, es[0]), es[1..], k)))
  }

  lemma {:induction false} MatchingKeysAreVouched(input: Input, nodes: seq<Node>, k: Key) returns (j: nat)
    requires k in MatchingKeys(input.copy.spec.selector + ExcludedNodes(), nodes)
    ensures j < |nodes| && Vouches(input, nodes[j], k)
    decreases |nodes|
  {
    var selector := input.copy.spec.selector;
    SelectsExactly(selector, nodes[0].labels);
    if MatchesAll(selector + ExcludedNodes(), nodes[0].labels) && nodes[0].name == k {
      ExcludedNodesMeaning(selector, nodes[0].labels);
      j := 0;
    } else {
      var i := MatchingKeysAreVouched(input, nodes[1..], k);
      j := i + 1;
    }
  }

  lemma {:induction false} VouchedNodeIsIncluded(input: Input, nodes: seq<Node>, j: nat)
    requires j < |nodes| && Vouches(input, nodes[j], nodes[j].name)
    ensures nodes[j].name in MatchingKeys(input.copy.spec.selector + ExcludedNodes(), nodes)
    decreases |nodes|
  {
    if j == 0 {
      SelectsExactly(input.copy.spec.selector, nodes[0].labels);
      ExcludedNodesMeaning(input.copy.spec.selector, nodes[0].labels);
    } else {
      VouchedNodeIsIncluded(input, nodes[1..], j - 1);
    }
  }

  /** The keys to enqueue are exactly the names of the matching nodes outside the control plane. */
  lemma MatchingKeysExact(input: Input, nodes: seq<Node>, k: Key)
    ensures k in MatchingKeys(input.copy.spec.selector + ExcludedNodes(), nodes) <==>
            exists j :: 0 <= j < |nodes| && Vouches(input, nodes[j], k)
  {
    if k in MatchingKeys(input.copy.spec.selector + ExcludedNodes(), nodes) {
      var j := MatchingKeysAreVouched(input, nodes, k);
    }
    forall j | 0 <= j < |nodes| && Vouches(input, nodes[j], k)
      ensures k in MatchingKeys(input.copy.spec.selector + ExcludedNodes(), nodes)
    {
      VouchedNodeIsIncluded(input, nodes, j);
    }
  }

  lemma MatchingKeysFirst(selector: seq<Requirement>, node: Node, rest: seq<Node>)
    ensures MatchingKeys(selector, [node] + rest) ==
            (if Selects(selector, node.labels) then [node.name] else []) + MatchingKeys(selector, rest)
  {
    assert ([node] + rest)[0] == node && ([node] + rest)[1..] == rest;
    SelectsExactly(selector, node.labels);
  }

  /** The keys come in the order of the nodes, each node giving its own name or none. */
  lemma {:induction false} MatchingKeysInOrder(selector: seq<Requirement>, a: seq<Node>, b: seq<Node>)
    ensures MatchingKeys(selector, a + b) == MatchingKeys(selector, a) + MatchingKeys(selector, b)
    ensures |a| == 1 ==> MatchingKeys(selector, a) == if Selects(selector, a[0].labels) then [a[0].name] else []
    decreases |a|
  {
    if a == [] {
      assert a + b == b;
    } else {
      assert a == [a[0]] + a[1..] && a + b == [a[0]] + (a[1..] + b);
      MatchingKeysFirst(selector, a[0], a[1..]);
      MatchingKeysFirst(selector, a[0], a[1..] + b);
      MatchingKeysInOrder(selector, a[1..], b);
    }
  }

  /** The keys a run takes or leaves were waiting before it or are vouched for by its own poll. */
  lemma RunKeysAreVouched(cron: Cron, s: Site, input: Input, k: Key)
    requires SiteInv(s) && CronContract(cron) && Possible(cron, s, Polled(input)) && IsRun(cron, s, Polled(input))
    requires k in TakenBy(cron, s, Polled(input)) || k in After(cron, s, Polled(input)).queue.keys
    ensures k in s.queue.keys || VouchesFor(cron, s, Polled(input), k)
  {
    if Gate(cron, s, input).None? {
      PollShortOfGate(cron, s, input);
    }
    var q, workers := RunOnQueue(cron, s, input);
    assert k in Elems(q.keys);
    if k !in s.queue.keys {
      var j := MatchingKeysAreVouched(input, input.nodes, k);
    }
  }

  lemma StepKeysAreVouched(cron: Cron, s: Site, e: Happening, k: Key)
    requires SiteInv(s) && CronContract(cron) && Possible(cron, s, e)
    requires k in After(cron, s, e).queue.keys
    ensures k in s.queue.keys || VouchesFor(cron, s, e, k)
  {
    if IsRun(cron, s, e) {
      RunKeysAreVouched(cron, s, e.input, k);
    } else if e.Polled? {
      PollEffect(cron, s, e.input);
      if !After(cron, s, e).crashed {
        QueueUnchanged(cron, s, e);
      }
    }
  }

  /** Every key waiting at the end of a life was waiting before it or vouched for during it. */
  lemma {:induction false} WaitingKeysAreVouched(cron: Cron, s: Site, es: seq<Happening>, k: Key)
    requires SiteInv(s) && CronContract(cron) && Life(cron, s, es)
    requires k in End(cron, s, es).queue.keys
    ensures k in s.queue.keys || Vouched(cron, s, es, k)
    decreases |es|
  {
    if es != [] {
      StepKeepsSite(cron, s, es[0]);
      var s1 := After(cron, s, es[0]);
      WaitingKeysAreVouched(cron, s1, es[1..], k);
      if k in s1.queue.keys {
        StepKeysAreVouched(cron, s, es[0], k);
      }
    }
  }

  /** The run a poll carries out, even if the controller crashes when it is over. */
  ghost function RunOf(cron: Cron, s: Site, input: Input): Option<Run>
    requires SiteInv(s) && EventsFit(cron, s, input)
  {
    var gate := Gate(cron, s, input);
    if gate.None? || gate.value.0.spec.maxUnavailable < 0 then None
    else if StartRecord(s.history, gate.value.0, input).1.None? then None
    else Some(Exec(Init(gate.value.1, gate.value.0.spec.maxUnavailable, s.cordoned), input.events))
  }

  /** The cordons after a poll are those its run left; a poll without a run leaves them alone. */
  lemma CordonsOfPoll(cron: Cron, s: Site, input: Input)
    requires SiteInv(s) && CronContract(cron) && Possible(cron, s, Polled(input))
    ensures
      var (s', outcome) := Poll(cron, s, input);
      && s'.cordoned == (if RunOf(cron, s, input).Some? then RunOf(cron, s, input).value.cordoned else s.cordoned)
      && (outcome.Ran? ==> RunOf(cron, s, input) == Some(outcome.run))
  {
    if Gate(cron, s, input).None? {
      PollShortOfGate(cron, s, input);
    } else {
      PollThroughGate(cron, s, input);
    }
  }

  /** A run only works on keys of the queue it started with. */
  lemma RunKeysAreQueued(cron: Cron, s: Site, input: Input, k: Key)
    requires SiteInv(s) && CronContract(cron) && Possible(cron, s, Polled(input))
    requires RunOf(cron, s, input).Some? && k in RunOf(cron, s, input).value.owner
    ensures k in s.queue.keys || VouchesFor(cron, s, Polled(input), k)
  {
    PollThroughGate(cron, s, input);
    ComposedGate(cron, s, input);
    EnqueueEffect(s.queue, input.copy, input.nodes);
    var q := Gate(cron, s, input).value.1;
    CordonAccounting(q, input.copy.spec.maxUnavailable, s.cordoned, input.events, k);
    assert k in Elems(q.keys);
    if k !in s.queue.keys {
      var j := MatchingKeysAreVouched(input, input.nodes, k);
    }
  }

  /**
   Node safety. In a life that began with an empty queue, every node a poll cordons, uncordons or
   drains was listed by a poll of this same upgrade that went on to start a run, that one or an
   earlier one, matched the selector that poll used, and carried neither the control-plane nor the
   master label.
   */
  lemma OnlyVouchedNodesAreTouched(cron: Cron, s: Site, es: seq<Happening>, input: Input, k: Key)
    requires SiteInv(s) && CronContract(cron) && s.queue.keys == []
    requires Life(cron, s, es) && Possible(cron, End(cron, s, es), Polled(input))
    requires
      var s1 := End(cron, s, es);
      var run := RunOf(cron, s1, input);
      (run.Some? && k in run.value.owner) || (k in s1.cordoned) != (k in Poll(cron, s1, input).0.cordoned)
    ensures Vouched(cron, s, es, k) || VouchesFor(cron, End(cron, s, es), Polled(input), k)
  {
    var s1 := End(cron, s, es);
    CordonsOfPoll(cron, s1, input);
    var gate := Gate(cron, s1, input).value;
    PollThroughGate(cron, s1, input);
    CordonAccounting(gate.1, gate.0.spec.maxUnavailable, s1.cordoned, input.events, k);
    RunKeysAreQueued(cron, s1, input, k);
    if k in s1.queue.keys {
      WaitingKeysAreVouched(cron, s, es, k);
    }
  }

  // ---- How long a key can wait ----

  /** The process lives on throughout. */
  ghost predicate Uninterrupted(cron: Cron, s: Site, es: seq<Happening>)
    requires SiteInv(s) && CronContract(cron) && Life(cron, s, es)
    decreases |es|
  {
    && !s.crashed
    && (es != [] ==> (StepKeepsSite(cron, s, es[0]); Uninterrupted(cron, After(cron, s, es[0]), es[1..])))
  }

  ghost function Runs(cron: Cron, s: Site, es: seq<Happening>): nat
    requires SiteInv(s) && CronContract(cron) && Life(cron, s, es)
    decreases |es|
  {
    if es == [] then 0
    else
      StepKeepsSite(cron, s, es[0]);
      (if IsRun(cron, s, es[0]) then 1 else 0) + Runs(cron, After(cron, s, es[0]), es[1..])
  }

  ghost predicate TakenDuring(cron: Cron, s: Site, es: seq<Happening>, k: Key)
    requires SiteInv(s) && CronContract(cron) && Life(cron, s, es)
    decreases |es|
  {
    es != [] &&
    (k in TakenBy(cron, s, es[0]) ||
     (StepKeepsSite(cron, s, es[0]); TakenDuring(cron, After(cron, s, es[0]), es[1..], k)))
  }

  /** The number of runs after which the key at position `p` has been taken. */
  function Patience(p: nat): nat {
    if p == 0 then 1 else 1 + Patience((p - 1) / 2)
  }

  lemma {:induction false} PatienceMonotone(p: nat, q: nat)
    requires p <= q
    ensures 1 <= Patience(p) <= Patience(q)
    decreases q
  {
    if p > 0 {
      PatienceMonotone((p - 1) / 2, (q - 1) / 2);
    } else if q > 0 {
      PatienceMonotone(0, (q - 1) / 2);
    }
  }

  function Pow2(m: nat): nat {
    if m == 0 then 1 else 2 * Pow2(m - 1)
  }

  /** Patience is logarithmic: m runs are enough for fewer than 2^m keys. */
  lemma {:induction false} PatienceIsLogarithmic(p: nat, m: nat)
    requires p + 1 < Pow2(m)
    ensures Patience(p) <= m
    decreases m
  {
    if p > 0 {
      PatienceIsLogarithmic((p - 1) / 2, m - 1);
    }
  }

  /** A run takes the key at position `p` or more than halves what is in front of it. */
  lemma RunHalvesPosition(cron: Cron, s: Site, input: Input, p: nat)
    requires SiteInv(s) && CronContract(cron) && Possible(cron, s, Polled(input)) && IsRun(cron, s, Polled(input))
    requires p < |s.queue.keys|
    ensures
      var k := s.queue.keys[p];
      var rest := After(cron, s, Polled(input)).queue.keys;
      k in TakenBy(cron, s, Polled(input)) ||
      exists p' :: 0 <= p' < |rest| && rest[p'] == k && p > 0 && p' <= (p - 1) / 2
  {
    var q, workers := RunOnQueue(cron, s, input);
    assert q.keys[p] == s.queue.keys[p];
    if p < workers {
      assert q.keys[..workers][p] == q.keys[p];
    } else {
      assert q.keys[workers..][p - workers] == q.keys[p];
    }
  }

  /**
   No key starves: however the matching nodes change from run to run, the key at position `p` is
   taken within Patience(p) runs, that is within about log2 of its position.
   */
  lemma {:induction false} NoKeyStarves(cron: Cron, s: Site, es: seq<Happening>, p: nat)
    requires SiteInv(s) && CronContract(cron) && Life(cron, s, es) && Uninterrupted(cron, s, es)
    requires p < |s.queue.keys| && Runs(cron, s, es) >= Patience(p)
    ensures TakenDuring(cron, s, es, s.queue.keys[p])
    decreases |es|
  {
    PatienceMonotone(0, p);
    var e, k := es[0], s.queue.keys[p];
    StepKeepsSite(cron, s, e);
    var s1 := After(cron, s, e);
    if !IsRun(cron, s, e) {
      QueueUnchanged(cron, s, e);
      NoKeyStarves(cron, s1, es[1..], p);
    } else if k !in TakenBy(cron, s, e) {
      RunHalvesPosition(cron, s, e.input, p);
      var p' :| 0 <= p' < |s1.queue.keys| && s1.queue.keys[p'] == k && p' <= (p - 1) / 2;
      PatienceMonotone(p', (p - 1) / 2);
      NoKeyStarves(cron, s1, es[1..], p');
    }
  }

  lemma {:induction false} NoRunKeepsQueue(cron: Cron, s: Site, es: seq<Happening>)
    requires SiteInv(s) && CronContract(cron) && Life(cron, s, es) && Uninterrupted(cron, s, es)
    requires Runs(cron, s, es) == 0
    ensures End(cron, s, es).queue == s.queue
    decreases |es|
  {
    if es != [] {
      StepKeepsSite(cron, s, es[0]);
      QueueUnchanged(cron, s, es[0]);
      NoRunKeepsQueue(cron, After(cron, s, es[0]), es[1..]);
    }
  }

  /** The matching keys of a poll, as a set. */
  function Matching(input: Input): set<Key> {
    Elems(MatchingKeys(input.copy.spec.selector + ExcludedNodes(), input.nodes))
  }

  /** What one run leaves is taken by the next if the queue holds the same keys again. */
  lemma HalvesCover(a: seq<Key>, v: nat, b: seq<Key>, w: nat)
    requires Distinct(a) && Distinct(b) && Elems(a) == Elems(b)
    requires v <= |a| <= 2 * v && w <= |b| <= 2 * w && a[v..] <= b
    ensures Elems(a) == Elems(a[..v]) + Elems(b[..w])
  {
    DistinctCardinality(a);
    DistinctCardinality(b);
    assert |a[v..]| <= w;
    forall k | k in Elems(a)
      ensures k in a[..v] || k in b[..w]
    {
      var i :| 0 <= i < |a| && a[i] == k;
      if i < v {
        assert a[..v][i] == k;
      } else {
        assert b[i - v] == a[v..][i - v] == k;
        assert b[..w][i - v] == k;
      }
    }
    assert forall k :: k in b[..w] ==> k in Elems(b);
    assert forall k :: k in a[..v] ==> k in Elems(a);
  }

  /**
   Two-run fairness: if two consecutive runs match the same nodes, and no other key was waiting
   before, each of these nodes is taken by one of the two.
   */
  lemma TwoRunsTakeEveryNode(cron: Cron, s: Site, first: Input, es: seq<Happening>, second: Input)
    requires SiteInv(s) && CronContract(cron)
    requires Possible(cron, s, Polled(first)) && IsRun(cron, s, Polled(first))
    requires SiteInv(After(cron, s, Polled(first))) && Life(cron, After(cron, s, Polled(first)), es)
    requires
      var s1 := After(cron, s, Polled(first));
      Uninterrupted(cron, s1, es) && Runs(cron, s1, es) == 0
    requires
      var s2 := End(cron, After(cron, s, Polled(first)), es);
      Possible(cron, s2, Polled(second)) && IsRun(cron, s2, Polled(second))
    requires Matching(first) == Matching(second) && Elems(s.queue.keys) <= Matching(first)
    ensures
      var s2 := End(cron, After(cron, s, Polled(first)), es);
      Matching(first) <= TakenBy(cron, s, Polled(first)) + TakenBy(cron, s2, Polled(second))
  {
    var s1 := After(cron, s, Polled(first));
    var q1, w1 := RunOnQueue(cron, s, first);
    NoRunKeepsQueue(cron, s1, es);
    var s2 := End(cron, s1, es);
    var q2, w2 := RunOnQueue(cron, s2, second);
    HalvesCover(q1.keys, w1, q2.keys, w2);
  }

  /** A poll that passes the gate matches this set of nodes. */
  ghost predicate PollMatches(cron: Cron, s: Site, e: Happening, nodes: set<Key>)
    requires s.history != []
  {
    e.Polled? && Gate(cron, s, e.input).Some? ==> Matching(e.input) == nodes
  }

  /** All polls of this life that pass the gate match the same set of nodes. */
  ghost predicate AlwaysMatches(cron: Cron, s: Site, es: seq<Happening>, nodes: set<Key>)
    requires SiteInv(s) && CronContract(cron) && Life(cron, s, es)
    decreases |es|
  {
    es == [] ||
    (PollMatches(cron, s, es[0], nodes)
     && (StepKeepsSite(cron, s, es[0]); AlwaysMatches(cron, After(cron, s, es[0]), es[1..], nodes)))
  }

  lemma {:induction false} VouchedMatches(cron: Cron, s: Site, es: seq<Happening>, nodes: set<Key>, k: Key)
    requires SiteInv(s) && CronContract(cron) && Life(cron, s, es)
    requires AlwaysMatches(cron, s, es, nodes) && Vouched(cron, s, es, k)
    ensures k in nodes
    decreases |es|
  {
    StepKeepsSite(cron, s, es[0]);
    if VouchesFor(cron, s, es[0], k) {
      MatchingKeysExact(es[0].input, es[0].input.nodes, k);
    } else {
      VouchedMatches(cron, After(cron, s, es[0]), es[1..], nodes, k);
    }
  }

  /**
   Over a life that began with an empty queue and whose runs always matched the same set of nodes, any
   two consecutive runs together take all of it.
   */
  lemma TwoRunsTakeAll(cron: Cron, s: Site, past: seq<Happening>, first: Input, es: seq<Happening>, second: Input,
                       nodes: set<Key>)
    requires SiteInv(s) && CronContract(cron) && s.queue.keys == []
    requires Life(cron, s, past) && AlwaysMatches(cron, s, past, nodes)
    requires Possible(cron, End(cron, s, past), Polled(first)) && IsRun(cron, End(cron, s, past), Polled(first))
    requires SiteInv(After(cron, End(cron, s, past), Polled(first)))
    requires Life(cron, After(cron, End(cron, s, past), Polled(first)), es)
    requires
      var s1 := After(cron, End(cron, s, past), Polled(first));
      Uninterrupted(cron, s1, es) && Runs(cron, s1, es) == 0
    requires
      var s2 := End(cron, After(cron, End(cron, s, past), Polled(first)), es);
      Possible(cron, s2, Polled(second)) && IsRun(cron, s2, Polled(second))
    requires Matching(first) == nodes && Matching(second) == nodes
    ensures
      var s0 := End(cron, s, past);
      var s2 := End(cron, After(cron, s0, Polled(first)), es);
      nodes <= TakenBy(cron, s0, Polled(first)) + TakenBy(cron, s2, Polled(second))
  {
    var s0 := End(cron, s, past);
    forall k | k in Elems(s0.queue.keys)
      ensures k in nodes
    {
      WaitingKeysAreVouched(cron, s, past, k);
      VouchedMatches(cron, s, past, nodes, k);
    }
    TwoRunsTakeEveryNode(cron, s0, first, es, second);
  }
}
