/** All upgrades of one controller: separate histories and queues, shared nodes, one process. */
module AllUpgrades {
  import opened KubeletUpgrade
  import opened ApiServer
  import opened WorkQueue
  import opened Polling
  import opened PollEffects
  import opened Lifecycle

  datatype World = World(histories: map<string, History>, queues: map<string, Queue>,
                         cordoned: set<Key>, crashed: bool)

  /** A queue that was never used is an empty one; the map keeps only those that are not. */
  function QueueOf(queues: map<string, Queue>, name: string): Queue {
    if name in queues then queues[name] else EMPTY
  }

  function SetQueue(queues: map<string, Queue>, name: string, q: Queue): map<string, Queue> {
    if q == EMPTY then queues - {name} else queues[name := q]
  }

  ghost predicate WorldInv(w: World) {
    && (forall n :: n in w.histories ==> ValidHistory(w.histories[n]) && w.histories[n][0].name == n)
    && (forall n :: n in w.queues ==> w.queues[n].Idle() && w.queues[n] != EMPTY)
    && (w.crashed ==> w.queues == map[])
  }

  function SiteOf(w: World, name: string): Site
    requires name in w.histories
  {
    Site(w.histories[name], QueueOf(w.queues, name), w.cordoned, w.crashed)
  }

  function WithSite(w: World, name: string, s: Site): World {
    World(w.histories[name := s.history],
          if s.crashed then map[] else SetQueue(w.queues, name, s.queue),
          s.cordoned, s.crashed)
  }

  ghost predicate CanHappen(cron: Cron, w: World, name: string, e: Happening)
    requires WorldInv(w)
  {
    && name in w.histories && Possible(cron, SiteOf(w, name), e)
    && (e.Polled? ==> e.input.copy.name == name)
  }

  function Advance(cron: Cron, w: World, name: string, e: Happening): World
    requires WorldInv(w) && CanHappen(cron, w, name, e)
  {
    WithSite(w, name, After(cron, SiteOf(w, name), e))
  }

  // ---- Every upgrade lives its own life ----

  /** What a step on some upgrade looks like to another one: new cordons, or the process ending or restarting. */
  function Shadow(w: World, w': World): seq<Happening> {
    if w'.crashed && !w.crashed then [Recordoned(w'.cordoned), Killed]
    else if !w'.crashed && w.crashed then [Recordoned(w'.cordoned), Restarted]
    else [Recordoned(w'.cordoned)]
  }

  /** A crashed process has no queues. */
  lemma AfterCrashNoQueue(cron: Cron, s: Site, e: Happening)
    requires SiteInv(s) && CronContract(cron) && Possible(cron, s, e)
    requires s.crashed ==> s.queue == EMPTY
    ensures After(cron, s, e).crashed ==> After(cron, s, e).queue == EMPTY
  {
    if e.Polled? {
      PollEffect(cron, s, e.input);
      if Gate(cron, s, e.input).None? {
        PollShortOfGate(cron, s, e.input);
      } else {
        PollThroughGate(cron, s, e.input);
        StartOutcome(cron, s.(queue := Gate(cron, s, e.input).value.1), e.input.copy, e.input);
      }
    }
  }

  lemma StepKeepsWorld(cron: Cron, w: World, name: string, e: Happening)
    requires WorldInv(w) && CronContract(cron) && CanHappen(cron, w, name, e)
    ensures WorldInv(Advance(cron, w, name, e))
    ensures SiteInv(SiteOf(w, name))
    ensures SiteOf(Advance(cron, w, name, e), name) == After(cron, SiteOf(w, name), e)
  {
    StepKeepsSite(cron, SiteOf(w, name), e);
    AfterCrashNoQueue(cron, SiteOf(w, name), e);
  }

  /**
   No step on one upgrade reaches another's object or queue: to the other upgrade it is a legal
   stretch of its own life in which others moved cordons or the process ended or restarted.
   */
  lemma OthersSeeAShadow(cron: Cron, w: World, name: string, e: Happening, other: string)
    requires WorldInv(w) && CronContract(cron) && CanHappen(cron, w, name, e)
    requires other in w.histories && other != name
    ensures
      var w' := Advance(cron, w, name, e);
      && WorldInv(w') && SiteInv(SiteOf(w, other))
      && Life(cron, SiteOf(w, other), Shadow(w, w'))
      && End(cron, SiteOf(w, other), Shadow(w, w')) == SiteOf(w', other)
      && SiteOf(w', other).history == SiteOf(w, other).history
      && (!w.crashed && !w'.crashed ==> SiteOf(w', other).queue == SiteOf(w, other).queue)
  {
    StepKeepsWorld(cron, w, name, e);
    var w' := Advance(cron, w, name, e);
    var s := SiteOf(w, other);
    var a := Recordoned(w'.cordoned);
    var b := if w.crashed then Restarted else Killed;
    LifeOfOne(cron, s, a);
    if w.crashed != w'.crashed {
      LifeOfOne(cron, After(cron, s, a), b);
      LifeConcat(cron, s, [a], [b]);
      assert [a] + [b] == [a, b];
    }
  }

  /** A sequence of steps on any upgrades. */
  ghost predicate Course(cron: Cron, w: World, steps: seq<(string, Happening)>)
    requires WorldInv(w) && CronContract(cron)
    decreases |steps|
  {
    steps == [] ||
    (&& CanHappen(cron, w, steps[0].0, steps[0].1)
     && (StepKeepsWorld(cron, w, steps[0].0, steps[0].1);
         Course(cron, Advance(cron, w, steps[0].0, steps[0].1), steps[1..])))
  }

  ghost function Final(cron: Cron, w: World, steps: seq<(string, Happening)>): (w': World)
    requires WorldInv(w) && CronContract(cron) && Course(cron, w, steps)
    ensures WorldInv(w') && w.histories.Keys <= w'.histories.Keys
    decreases |steps|
  {
    if steps == [] then w
    else
      StepKeepsWorld(cron, w, steps[0].0, steps[0].1);
      Final(cron, Advance(cron, w, steps[0].0, steps[0].1), steps[1..])
  }

  lemma CoursePrepend(cron: Cron, w: World, step: (string, Happening), rest: seq<(string, Happening)>)
    requires WorldInv(w) && CronContract(cron) && CanHappen(cron, w, step.0, step.1)
    requires WorldInv(Advance(cron, w, step.0, step.1)) && Course(cron, Advance(cron, w, step.0, step.1), rest)
    ensures Course(cron, w, [step] + rest)
    ensures Final(cron, w, [step] + rest) == Final(cron, Advance(cron, w, step.0, step.1), rest)
  {
    assert ([step] + rest)[0] == step && ([step] + rest)[1..] == rest;
  }

  /** The part of a course that concerns one upgrade. */
  ghost function Projection(cron: Cron, w: World, steps: seq<(string, Happening)>, name: string): seq<Happening>
    requires WorldInv(w) && CronContract(cron) && Course(cron, w, steps)
    decreases |steps|
  {
    if steps == [] then []
    else
      StepKeepsWorld(cron, w, steps[0].0, steps[0].1);
      var w' := Advance(cron, w, steps[0].0, steps[0].1);
      (if steps[0].0 == name then [steps[0].1] else Shadow(w, w')) + Projection(cron, w', steps[1..], name)
  }

  /**
   Whatever happens to all upgrades together, each of them goes through a legal life of its own
   that ends where the whole ends: what holds of every life holds of every upgrade.
   */
  lemma {:induction false} EveryUpgradeLivesALife(cron: Cron, w: World, steps: seq<(string, Happening)>, name: string)
    requires WorldInv(w) && CronContract(cron) && Course(cron, w, steps) && name in w.histories
    ensures
      var es := Projection(cron, w, steps, name);
      && SiteInv(SiteOf(w, name))
      && Life(cron, SiteOf(w, name), es)
      && End(cron, SiteOf(w, name), es) == SiteOf(Final(cron, w, steps), name)
    decreases |steps|
  {
    if steps != [] {
      var (n, e) := steps[0];
      StepKeepsWorld(cron, w, n, e);
      var w' := Advance(cron, w, n, e);
      var s := SiteOf(w, name);
      EveryUpgradeLivesALife(cron, w', steps[1..], name);
      if n == name {
        LifeOfOne(cron, s, e);
        LifeConcat(cron, s, [e], Projection(cron, w', steps[1..], name));
      } else {
        OthersSeeAShadow(cron, w, n, e, name);
        LifeConcat(cron, s, Shadow(w, w'), Projection(cron, w', steps[1..], name));
      }
    }
  }
}
