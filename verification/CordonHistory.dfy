/** Which nodes are unschedulable after any course of events, and whose doing that is. */
module CordonHistory {
  import opened KubeletUpgrade
  import opened WorkQueue
  import opened UpgradeRun
  import opened RunTheorems
  import opened Polling
  import opened PollEffects
  import opened Lifecycle
  import opened NodeQueue
  import opened AllUpgrades

  /** This leaves the node cordoned: a run whose drain or uncordon of it failed, or another actor. */
  ghost predicate Leaves(cron: Cron, s: Site, e: Happening, k: Key)
    requires SiteInv(s) && Possible(cron, s, e)
  {
    match e
    case Polled(input) => RunOf(cron, s, input).Some? && LeftCordoned(RunOf(cron, s, input).value, k)
    case Recordoned(nodes) => k in nodes
    case _ => false
  }

  /** This leaves the node schedulable: a run that upgraded it, or another actor. */
  ghost predicate Frees(cron: Cron, s: Site, e: Happening, k: Key)
    requires SiteInv(s) && Possible(cron, s, e)
  {
    match e
    case Polled(input) => RunOf(cron, s, input).Some? && ResultIs(RunOf(cron, s, input).value, k, Upgraded)
    case Recordoned(nodes) => k !in nodes
    case _ => false
  }

  lemma RunFlags(cron: Cron, s: Site, input: Input, k: Key)
    requires SiteInv(s) && CronContract(cron) && Possible(cron, s, Polled(input)) && RunOf(cron, s, input).Some?
    ensures
      var run := RunOf(cron, s, input).value;
      k in run.cordoned <==> LeftCordoned(run, k) || (k in s.cordoned && !ResultIs(run, k, Upgraded))
  {
    PollThroughGate(cron, s, input);
    var (gate, q) := Gate(cron, s, input).value;
    CordonsAfterJoin(q, gate.spec.maxUnavailable, s.cordoned, input.events, k);
  }

  /** Nothing else moves a node's flag. */
  lemma StepFlag(cron: Cron, s: Site, e: Happening, k: Key)
    requires SiteInv(s) && CronContract(cron) && Possible(cron, s, e)
    ensures k in After(cron, s, e).cordoned <==>
            Leaves(cron, s, e, k) || (k in s.cordoned && !Frees(cron, s, e, k))
  {
    if e.Polled? {
      CordonsOfPoll(cron, s, e.input);
      if RunOf(cron, s, e.input).Some? {
        RunFlags(cron, s, e.input, k);
      }
    }
  }

  // ---- Over all upgrades of a controller ----

  ghost predicate NeverFreed(cron: Cron, w: World, steps: seq<(string, Happening)>, k: Key)
    requires WorldInv(w) && CronContract(cron) && Course(cron, w, steps)
    decreases |steps|
  {
    steps == [] ||
    (StepKeepsWorld(cron, w, steps[0].0, steps[0].1);
     && !Frees(cron, SiteOf(w, steps[0].0), steps[0].1, k)
     && NeverFreed(cron, Advance(cron, w, steps[0].0, steps[0].1), steps[1..], k))
  }

  /** Some step leaves the node cordoned and no later one frees it. */
  ghost predicate LeftDuring(cron: Cron, w: World, steps: seq<(string, Happening)>, k: Key)
    requires WorldInv(w) && CronContract(cron) && Course(cron, w, steps)
    decreases |steps|
  {
    steps != [] &&
    (StepKeepsWorld(cron, w, steps[0].0, steps[0].1);
     var w' := Advance(cron, w, steps[0].0, steps[0].1);
     || LeftDuring(cron, w', steps[1..], k)
     || (Leaves(cron, SiteOf(w, steps[0].0), steps[0].1, k) && NeverFreed(cron, w', steps[1..], k)))
  }

  /**
   Whatever happens to all upgrades together, a node is cordoned at the end exactly if the last step
   that set its flag left it cordoned, or it was cordoned from the start and no step freed it.
   */
  lemma {:induction false} CordonedExactly(cron: Cron, w: World, steps: seq<(string, Happening)>, k: Key)
    requires WorldInv(w) && CronContract(cron) && Course(cron, w, steps)
    ensures k in Final(cron, w, steps).cordoned <==>
            LeftDuring(cron, w, steps, k) || (k in w.cordoned && NeverFreed(cron, w, steps, k))
    decreases |steps|
  {
    if steps != [] {
      var (n, e) := steps[0];
      StepKeepsWorld(cron, w, n, e);
      StepFlag(cron, SiteOf(w, n), e, k);
      CordonedExactly(cron, Advance(cron, w, n, e), steps[1..], k);
    }
  }

  /** A run of some upgrade, with what came before and after it. */
  datatype Culprit = Culprit(before: seq<(string, Happening)>, name: string, input: Input,
                             after: seq<(string, Happening)>)

  /** The run's drain or uncordon of the node failed, and no later step freed the node. */
  ghost predicate LeavesForGood(cron: Cron, found: World, name: string, input: Input,
                                after: seq<(string, Happening)>, k: Key)
    requires WorldInv(found) && CronContract(cron)
  {
    && CanHappen(cron, found, name, Polled(input))
    && (StepKeepsWorld(cron, found, name, Polled(input));
        var run, next := RunOf(cron, SiteOf(found, name), input), Advance(cron, found, name, Polled(input));
        run.Some? && LeftCordoned(run.value, k) && Course(cron, next, after) && NeverFreed(cron, next, after, k))
  }

  function StepsOfCulprit(c: Culprit): seq<(string, Happening)> {
    c.before + [(c.name, Polled(c.input))] + c.after
  }

  ghost predicate IsCulprit(cron: Cron, w: World, steps: seq<(string, Happening)>, c: Culprit, k: Key)
    requires WorldInv(w) && CronContract(cron)
  {
    && steps == StepsOfCulprit(c) && Course(cron, w, c.before)
    && LeavesForGood(cron, Final(cron, w, c.before), c.name, c.input, c.after, k)
  }

  lemma OneStepMore(c: Culprit, step: (string, Happening))
    ensures StepsOfCulprit(c.(before := [step] + c.before)) == [step] + StepsOfCulprit(c)
  {
  }

  lemma CulpritLater(cron: Cron, w: World, step: (string, Happening), rest: seq<(string, Happening)>,
                     c: Culprit, k: Key)
    requires WorldInv(w) && CronContract(cron) && CanHappen(cron, w, step.0, step.1)
    requires WorldInv(Advance(cron, w, step.0, step.1))
    requires IsCulprit(cron, Advance(cron, w, step.0, step.1), rest, c, k)
    ensures IsCulprit(cron, w, [step] + rest, c.(before := [step] + c.before), k)
  {
    CoursePrepend(cron, w, step, c.before);
    OneStepMore(c, step);
  }

  lemma NothingBefore(name: string, input: Input, rest: seq<(string, Happening)>)
    ensures StepsOfCulprit(Culprit([], name, input, rest)) == [(name, Polled(input))] + rest
  {
  }

  lemma EmptyCourse(cron: Cron, w: World)
    requires WorldInv(w) && CronContract(cron)
    ensures Course(cron, w, []) && Final(cron, w, []) == w
  {
  }

  /** A run that leaves the node, right at the start. */
  lemma CulpritNow(cron: Cron, w: World, name: string, input: Input, rest: seq<(string, Happening)>, k: Key)
    requires WorldInv(w) && CronContract(cron) && LeavesForGood(cron, w, name, input, rest, k)
    ensures IsCulprit(cron, w, [(name, Polled(input))] + rest, Culprit([], name, input, rest), k)
  {
    EmptyCourse(cron, w);
    NothingBefore(name, input, rest);
  }

  /** Where to look for the culprit: in the first step or in the rest. */
  lemma NowOrLater(cron: Cron, w: World, step: (string, Happening), rest: seq<(string, Happening)>, k: Key)
    requires WorldInv(w) && CronContract(cron) && Course(cron, w, [step] + rest) && !step.1.Recordoned?
    requires LeftDuring(cron, w, [step] + rest, k)
    ensures CanHappen(cron, w, step.0, step.1) && WorldInv(Advance(cron, w, step.0, step.1))
    ensures Course(cron, Advance(cron, w, step.0, step.1), rest)
    ensures LeftDuring(cron, Advance(cron, w, step.0, step.1), rest, k) ||
            (step.1.Polled? && LeavesForGood(cron, w, step.0, step.1.input, rest, k))
  {
    assert ([step] + rest)[0] == step && ([step] + rest)[1..] == rest;
    StepKeepsWorld(cron, w, step.0, step.1);
  }

  lemma {:induction false} LeftByACulprit(cron: Cron, w: World, steps: seq<(string, Happening)>, k: Key)
    returns (c: Culprit)
    requires WorldInv(w) && CronContract(cron) && Course(cron, w, steps) && LeftDuring(cron, w, steps, k)
    requires forall i :: 0 <= i < |steps| ==> !steps[i].1.Recordoned?
    ensures IsCulprit(cron, w, steps, c, k)
    decreases |steps|
  {
    var step, rest := steps[0], steps[1..];
    assert steps == [step] + rest;
    NowOrLater(cron, w, step, rest, k);
    var w' := Advance(cron, w, step.0, step.1);
    if LeftDuring(cron, w', rest, k) {
      c := LeftByACulprit(cron, w', rest, k);
      CulpritLater(cron, w, step, rest, c, k);
      c := c.(before := [step] + c.before);
    } else {
      CulpritNow(cron, w, step.0, step.1.input, rest, k);
      c := Culprit([], step.0, step.1.input, rest);
    }
  }

  /**
   If only the controller moves flags, every node that is cordoned in the end and was not at the start
   has a run of some upgrade whose drain or uncordon of it failed, and has not been upgraded since.
   */
  lemma EveryCordonHasACulprit(cron: Cron, w: World, steps: seq<(string, Happening)>, k: Key) returns (c: Culprit)
    requires WorldInv(w) && CronContract(cron) && Course(cron, w, steps)
    requires forall i :: 0 <= i < |steps| ==> !steps[i].1.Recordoned?
    requires k !in w.cordoned && k in Final(cron, w, steps).cordoned
    ensures IsCulprit(cron, w, steps, c, k)
  {
    CordonedExactly(cron, w, steps, k);
    c := LeftByACulprit(cron, w, steps, k);
  }
}
