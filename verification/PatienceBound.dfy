/** A key can really be left behind for as many runs as NodeQueue.NoKeyStarves allows, less one. */
module PatienceBound {
  import opened Basics
  import opened Labels
  import opened KubeletUpgrade
  import opened ApiServer
  import opened WorkQueue
  import opened UpgradeRun
  import opened RunTheorems
  import opened Polling
  import opened PollEffects
  import opened PollOutcomes
  import opened Lifecycle
  import opened NodeQueue

  /** The object can be run whenever its slot comes, and the schedule always gives it another slot. */
  ghost predicate Recurring(cron: Cron, s: Site) {
    && SiteInv(s) && !s.crashed && Slot(s).Some?
    && var k := Current(s.history);
       && KEY_KUBELET_UPGRADE_SKIP !in k.labels && k.spec.maxUnavailable >= 0 && Convertible(k.spec.selector)
       && forall t :: cron(k.spec.schedule, t).Next?
  }

  /** A poll at the very time of the slot. */
  function AtSlot(s: Site, nodes: seq<Node>, events: seq<Event>): Input
    requires s.history != [] && Slot(s).Some?
  {
    Input(true, Current(s.history), Slot(s).value, Slot(s).value, nodes, ALL_CALM, events)
  }

  /** The queue such a poll runs on. */
  ghost predicate Filled(s: Site, nodes: seq<Node>, q: Queue)
    requires s.history != []
  {
    q.Idle() && q.keys != [] && Enqueue(s.queue, Current(s.history), nodes) == Some(q)
  }

  lemma AtSlotGate(cron: Cron, s: Site, nodes: seq<Node>, q: Queue, events: seq<Event>)
    requires CronContract(cron) && Recurring(cron, s) && Filled(s, nodes, q)
    requires Complete(Init(q, Current(s.history).spec.maxUnavailable, s.cordoned), events)
    ensures EventsFit(cron, s, AtSlot(s, nodes, events))
    ensures Gate(cron, s, AtSlot(s, nodes, events)) == Some((Current(s.history), q))
  {
    ComposedGate(cron, s, AtSlot(s, nodes, events));
  }

  /** It runs, takes what its interleaving takes, and leaves the object as it was, but for a later slot. */
  lemma AtSlotRuns(cron: Cron, s: Site, nodes: seq<Node>, q: Queue, events: seq<Event>)
    requires CronContract(cron) && Recurring(cron, s) && Filled(s, nodes, q)
    requires Complete(Init(q, Current(s.history).spec.maxUnavailable, s.cordoned), events)
    requires EventsFit(cron, s, AtSlot(s, nodes, events))
    ensures
      var (s', outcome) := Poll(cron, s, AtSlot(s, nodes, events));
      var run := Exec(Init(q, Current(s.history).spec.maxUnavailable, s.cordoned), events);
      && Recurring(cron, s') && Slot(s').value > Slot(s).value
      && Current(s'.history).spec == Current(s.history).spec
      && outcome.Ran? && outcome.run == run && s'.queue == run.queue
  {
    var input := AtSlot(s, nodes, events);
    AtSlotGate(cron, s, nodes, q, events);
    OutcomeExactly(cron, s, input);
    PollThroughGate(cron, s, input);
    StartOutcome(cron, s.(queue := q), Current(s.history), input);
    PollEffect(cron, s, input);
  }

  /** With the fewest workers the spawn bound allows, only the first half of the queue is taken. */
  lemma FewestTaken(cron: Cron, s: Site, nodes: seq<Node>, q: Queue) returns (events: seq<Event>)
    requires CronContract(cron) && Recurring(cron, s) && Filled(s, nodes, q)
    ensures EventsFit(cron, s, AtSlot(s, nodes, events))
    ensures
      var (s', outcome) := Poll(cron, s, AtSlot(s, nodes, events));
      var half := (|q.keys| + 1) / 2;
      && Recurring(cron, s') && Slot(s').value > Slot(s).value
      && Current(s'.history).spec == Current(s.history).spec
      && outcome.Ran? && outcome.run.owner.Keys == Elems(q.keys[..half]) && s'.queue.keys == q.keys[half..]
  {
    var capacity := Current(s.history).spec.maxUnavailable;
    events := SpawnBoundIsTight(q, capacity, s.cordoned, (|q.keys| + 1) / 2);
    AtSlotGate(cron, s, nodes, q, events);
    AtSlotRuns(cron, s, nodes, q, events);
    SpawnBound(q, capacity, s.cordoned, events);
  }

  lemma NoNodesNoChange(s: Site)
    requires SiteInv(s) && s.queue.keys != [] && Convertible(Current(s.history).spec.selector)
    ensures Filled(s, [], s.queue)
  {
    assert MatchingKeys(Current(s.history).spec.selector + ExcludedNodes(), []) == [];
  }

  /** The last of p + 1 keys is left, at half its place. */
  lemma HalfIsLeft(cron: Cron, s: Site, p: nat) returns (events: seq<Event>)
    requires CronContract(cron) && Recurring(cron, s) && p > 0 && |s.queue.keys| == p + 1
    ensures EventsFit(cron, s, AtSlot(s, [], events))
    ensures
      var (s', outcome) := Poll(cron, s, AtSlot(s, [], events));
      && Recurring(cron, s') && Slot(s').value > Slot(s).value
      && outcome.Ran? && s.queue.keys[p] !in outcome.run.owner.Keys
      && |s'.queue.keys| == (p - 1) / 2 + 1 && s'.queue.keys[(p - 1) / 2] == s.queue.keys[p]
  {
    NoNodesNoChange(s);
    events := FewestTaken(cron, s, [], s.queue);
    assert s.queue.keys[p] !in s.queue.keys[..(p + 2) / 2];
  }

  lemma RanIsRun(cron: Cron, s: Site, input: Input)
    requires SiteInv(s) && !s.crashed && IsCopy(s.history, input.copy)
    requires EventsFit(cron, s, input) && Poll(cron, s, input).1.Ran?
    ensures Possible(cron, s, Polled(input)) && IsRun(cron, s, Polled(input))
    ensures TakenBy(cron, s, Polled(input)) == Poll(cron, s, input).1.run.owner.Keys
    ensures After(cron, s, Polled(input)) == Poll(cron, s, input).0
  {
  }

  /**
   The bound of NoKeyStarves is exact: from every recurring upgrade with p + 1 keys waiting, life can
   go on with Patience(p) - 1 runs, none of which takes the last of these keys.
   */
  lemma {:induction false} PatienceIsTight(cron: Cron, s: Site, p: nat) returns (es: seq<Happening>)
    requires CronContract(cron) && Recurring(cron, s) && |s.queue.keys| == p + 1
    ensures Life(cron, s, es) && Uninterrupted(cron, s, es) && ClockFrom(Slot(s).value, es)
    ensures Runs(cron, s, es) == Patience(p) - 1 && !TakenDuring(cron, s, es, s.queue.keys[p])
    decreases p
  {
    if p == 0 {
      es := [];
    } else {
      var events := HalfIsLeft(cron, s, p);
      var e := Polled(AtSlot(s, [], events));
      CurrentIsCopy(s.history);
      RanIsRun(cron, s, AtSlot(s, [], events));
      var s1 := After(cron, s, e);
      var rest := PatienceIsTight(cron, s1, (p - 1) / 2);
      ClockWeaken(Slot(s).value, Slot(s1).value, rest);
      es := [e] + rest;
      assert es[1..] == rest;
    }
  }

  // ---- Two runs are not enough if other keys are waiting ----

  /** With only this node listed, its name is what the poll adds to the queue. */
  lemma OneNodeMatches(s: Site, node: Node, input: Input)
    requires SiteInv(s) && input.copy == Current(s.history) && input.nodes == [node]
    requires Convertible(input.copy.spec.selector) && Vouches(input, node, node.name)
    ensures MatchingKeys(input.copy.spec.selector + ExcludedNodes(), [node]) == [node.name]
    ensures Enqueue(s.queue, input.copy, [node]) == Some(s.queue.Add(node.name))
    ensures Matching(input) == {node.name}
  {
    SelectsExactly(input.copy.spec.selector, node.labels);
    ExcludedNodesMeaning(input.copy.spec.selector, node.labels);
    assert [node][1..] == [];
    assert [node.name][1..] == [];
    assert s.queue.AddAll([node.name]) == s.queue.Add(node.name).AddAll([]);
  }

  lemma LastIsLeft(keys: seq<Key>, k: Key)
    requires Distinct(keys + [k]) && |keys| > 0
    ensures
      var half := (|keys| + 2) / 2;
      k !in (keys + [k])[..half] && (keys + [k])[half..] == keys[half..] + [k]
  {
    assert (keys + [k])[|keys|] == k;
  }

  /** Adding a key puts it last, unless it is waiting there already. */
  lemma AddedIsLast(q: Queue, keys: seq<Key>, k: Key)
    requires q.Idle() && (q.keys == keys + [k] || (q.keys == keys && k !in keys))
    ensures q.Add(k).keys == keys + [k]
  {
    assert q.keys == keys + [k] ==> q.keys[|keys|] == k;
  }

  /** A run at the slot that adds the node, takes the first half of the queue and leaves the node last. */
  lemma NodeIsLeftLast(cron: Cron, s: Site, node: Node, keys: seq<Key>) returns (events: seq<Event>)
    requires CronContract(cron) && Recurring(cron, s) && Vouches(AtSlot(s, [node], []), node, node.name)
    requires s.queue.Add(node.name).keys == keys + [node.name] && |keys| > 0
    ensures Possible(cron, s, Polled(AtSlot(s, [node], events)))
    ensures IsRun(cron, s, Polled(AtSlot(s, [node], events)))
    ensures Matching(AtSlot(s, [node], events)) == {node.name}
    ensures
      var e := Polled(AtSlot(s, [node], events));
      var s' := After(cron, s, e);
      && node.name !in TakenBy(cron, s, e) && Recurring(cron, s')
      && Current(s'.history).spec == Current(s.history).spec
      && s'.queue.keys == keys[(|keys| + 2) / 2..] + [node.name]
  {
    var q := s.queue.Add(node.name);
    OperationsKeepValid(s.queue, node.name);
    OneNodeMatches(s, node, AtSlot(s, [node], []));
    LastIsLeft(keys, node.name);
    events := FewestTaken(cron, s, [node], q);
    CurrentIsCopy(s.history);
    RanIsRun(cron, s, AtSlot(s, [node], events));
  }

  /**
   With three or more other keys waiting, two consecutive runs can both miss the only node they match:
   TwoRunsTakeEveryNode does need that nothing else waits.
   */
  lemma TwoRunsCanMissANode(cron: Cron, s: Site, node: Node) returns (first: Input, second: Input)
    requires CronContract(cron) && Recurring(cron, s) && Vouches(AtSlot(s, [node], []), node, node.name)
    requires |s.queue.keys| >= 3 && node.name !in s.queue.keys
    ensures Possible(cron, s, Polled(first)) && IsRun(cron, s, Polled(first)) && Matching(first) == {node.name}
    ensures node.name !in TakenBy(cron, s, Polled(first))
    ensures
      var s1 := After(cron, s, Polled(first));
      && SiteInv(s1) && Possible(cron, s1, Polled(second)) && IsRun(cron, s1, Polled(second))
      && Matching(second) == {node.name} && node.name !in TakenBy(cron, s1, Polled(second))
  {
    var keys := s.queue.keys;
    AddedIsLast(s.queue, keys, node.name);
    var events := NodeIsLeftLast(cron, s, node, keys);
    first := AtSlot(s, [node], events);
    var s1, rest := After(cron, s, Polled(first)), keys[(|keys| + 2) / 2..];
    AddedIsLast(s1.queue, rest, node.name);
    events := NodeIsLeftLast(cron, s1, node, rest);
    second := AtSlot(s1, [node], events);
  }
}
