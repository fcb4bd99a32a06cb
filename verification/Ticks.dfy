/**
 Ticks of the ticker: in each the clock is read once and every upgrade is polled at most once. From
 that follows, for each upgrade's own life, the order of times the theorems about lives rest on.
 */
module Ticks {
  import opened KubeletUpgrade
  import opened Polling
  import opened Lifecycle
  import opened SlotCoverage
  import opened AllUpgrades
  import opened SchedulePass

  type Step = (string, Happening)

  /** The clock when the tick begins and when its polls are over, and what happens from its start on. */
  datatype Tick = Tick(now: Time, end: Time, steps: seq<Step>)

  ghost predicate PollsWithin(steps: seq<Step>, now: Time, end: Time) {
    forall i :: 0 <= i < |steps| && steps[i].1.Polled? ==>
      steps[i].1.input.now == now && now <= steps[i].1.input.end <= end
  }

  ghost predicate PolledOnce(steps: seq<Step>) {
    forall i, j :: 0 <= i < j < |steps| && steps[i].1.Polled? && steps[j].1.Polled? ==> steps[i].0 != steps[j].0
  }

  /** All polls of a tick use its clock reading and are over when it ends; no upgrade is polled twice. */
  ghost predicate Fits(tick: Tick) {
    PollsWithin(tick.steps, tick.now, tick.end) && PolledOnce(tick.steps) && tick.now <= tick.end
  }

  /** Ticks do not overlap, and the first does not begin before `t`. */
  ghost predicate InOrder(t: Time, ticks: seq<Tick>)
    decreases |ticks|
  {
    ticks == [] || (Fits(ticks[0]) && t <= ticks[0].now && InOrder(ticks[0].end, ticks[1..]))
  }

  function StepsOf(ticks: seq<Tick>): seq<Step> {
    if ticks == [] then [] else ticks[0].steps + StepsOf(ticks[1..])
  }

  predicate IsPollOf(step: Step, name: string) {
    step.0 == name && step.1.Polled?
  }

  // ---- The order of times, for one upgrade ----

  /** Each poll of this upgrade starts no earlier than its last one ended, and none before `t`. */
  predicate ClockOf(t: Time, steps: seq<Step>, name: string)
    decreases |steps|
  {
    steps == [] ||
    (if IsPollOf(steps[0], name) then
       t <= steps[0].1.input.now <= steps[0].1.input.end && ClockOf(steps[0].1.input.end, steps[1..], name)
     else ClockOf(t, steps[1..], name))
  }

  lemma {:induction false} ClockOfWeaken(t: Time, u: Time, steps: seq<Step>, name: string)
    requires ClockOf(u, steps, name) && t <= u
    ensures ClockOf(t, steps, name)
    decreases |steps|
  {
    if steps != [] && !IsPollOf(steps[0], name) {
      ClockOfWeaken(t, u, steps[1..], name);
    }
  }

  /** The rest of a tick, in which this upgrade may still be polled only if it has not been so far. */
  lemma {:induction false} ClockInTick(t: Time, steps: seq<Step>, rest: seq<Step>, name: string, now: Time, end: Time)
    requires PollsWithin(steps, now, end) && PolledOnce(steps) && t <= end && now <= end
    requires t <= now || forall i :: 0 <= i < |steps| ==> !IsPollOf(steps[i], name)
    requires ClockOf(end, rest, name)
    ensures ClockOf(t, steps + rest, name)
    decreases |steps|
  {
    if steps == [] {
      assert steps + rest == rest;
      ClockOfWeaken(t, end, rest, name);
    } else {
      assert (steps + rest)[0] == steps[0] && (steps + rest)[1..] == steps[1..] + rest;
      var u := if IsPollOf(steps[0], name) then steps[0].1.input.end else t;
      ClockInTick(u, steps[1..], rest, name, now, end);
    }
  }

  /** Ticks in order keep the polls of every upgrade in order, though not those of all together. */
  lemma {:induction false} TicksKeepClock(t: Time, ticks: seq<Tick>, name: string)
    requires InOrder(t, ticks)
    ensures ClockOf(t, StepsOf(ticks), name)
    decreases |ticks|
  {
    if ticks != [] {
      TicksKeepClock(ticks[0].end, ticks[1..], name);
      ClockInTick(t, ticks[0].steps, StepsOf(ticks[1..]), name, ticks[0].now, ticks[0].end);
    }
  }

  /** To another upgrade a step is a few happenings, none of them a poll. */
  lemma ShadowHasNoClock(t: Time, w: World, w': World, rest: seq<Happening>)
    ensures ClockFrom(t, Shadow(w, w') + rest) <==> ClockFrom(t, rest)
    ensures CloseTogether(t, Shadow(w, w') + rest) <==> CloseTogether(t, rest)
  {
    var shadow := Shadow(w, w');
    var es := shadow + rest;
    assert es[0] == shadow[0] && es[1..] == shadow[1..] + rest;
    if |shadow| == 2 {
      assert es[1..][0] == shadow[1] && es[1..][1..] == rest;
    } else {
      assert es[1..] == rest;
    }
  }

  lemma ClockPrepend(t: Time, e: Happening, rest: seq<Happening>)
    ensures ClockFrom(t, [e] + rest) <==>
            if e.Polled? then t <= e.input.now <= e.input.end && ClockFrom(e.input.end, rest) else ClockFrom(t, rest)
  {
    assert ([e] + rest)[0] == e && ([e] + rest)[1..] == rest;
  }

  /** The life an upgrade lives in a course has the clock the polls of that upgrade have. */
  lemma {:induction false} ProjectionClock(cron: Cron, w: World, steps: seq<Step>, name: string, t: Time)
    requires WorldInv(w) && CronContract(cron) && Course(cron, w, steps) && ClockOf(t, steps, name)
    ensures ClockFrom(t, Projection(cron, w, steps, name))
    decreases |steps|
  {
    if steps != [] {
      var (n, e) := steps[0];
      StepKeepsWorld(cron, w, n, e);
      var w' := Advance(cron, w, n, e);
      var rest := Projection(cron, w', steps[1..], name);
      ProjectionClock(cron, w', steps[1..], name, if IsPollOf(steps[0], name) then e.input.end else t);
      if n == name {
        ClockPrepend(t, e, rest);
      } else {
        ShadowHasNoClock(t, w, w', rest);
      }
    }
  }

  /** Over any ticks, whatever else happens in them, the life of every upgrade is in clock order. */
  lemma EveryLifeIsInOrder(cron: Cron, w: World, ticks: seq<Tick>, name: string, t: Time)
    requires WorldInv(w) && CronContract(cron) && Course(cron, w, StepsOf(ticks)) && name in w.histories
    requires InOrder(t, ticks)
    ensures
      var es := Projection(cron, w, StepsOf(ticks), name);
      && SiteInv(SiteOf(w, name)) && Life(cron, SiteOf(w, name), es) && ClockFrom(t, es)
      && End(cron, SiteOf(w, name), es) == SiteOf(Final(cron, w, StepsOf(ticks)), name)
  {
    EveryUpgradeLivesALife(cron, w, StepsOf(ticks), name);
    TicksKeepClock(t, ticks, name);
    ProjectionClock(cron, w, StepsOf(ticks), name, t);
  }

  // ---- A pass is a tick ----

  function StepsOfPolls(inputs: seq<Input>): (steps: seq<Step>)
    ensures |steps| == |inputs|
    ensures forall i :: 0 <= i < |inputs| ==> steps[i] == (inputs[i].copy.name, Polled(inputs[i]))
  {
    if inputs == [] then [] else [(inputs[0].copy.name, Polled(inputs[0]))] + StepsOfPolls(inputs[1..])
  }

  /** The polls of this pass, up to one that crashes, are a course of the world that leads where the pass leads. */
  ghost predicate IsACourse(cron: Cron, w: World, inputs: seq<Input>)
    requires WorldInv(w) && CronContract(cron) && PassPossible(cron, w, inputs)
  {
    var (w', outcomes) := Pass(cron, w, inputs);
    && |outcomes| <= |inputs|
    && Course(cron, w, StepsOfPolls(inputs[..|outcomes|]))
    && Final(cron, w, StepsOfPolls(inputs[..|outcomes|])) == w'
  }

  lemma StepsOfMore(first: Input, rest: seq<Input>, n: nat)
    requires n <= |rest|
    ensures StepsOfPolls(([first] + rest)[..n + 1]) == [(first.copy.name, Polled(first))] + StepsOfPolls(rest[..n])
  {
    assert ([first] + rest)[..n + 1] == [first] + rest[..n];
  }

  lemma CrashIsACourse(cron: Cron, w: World, first: Input, rest: seq<Input>)
    requires WorldInv(w) && CronContract(cron) && PassPossible(cron, w, [first] + rest)
    requires Advance(cron, w, first.copy.name, Polled(first)).crashed
    ensures IsACourse(cron, w, [first] + rest)
  {
    var step := (first.copy.name, Polled(first));
    StepKeepsWorld(cron, w, step.0, step.1);
    CoursePrepend(cron, w, step, []);
    assert ([first] + rest)[..1] == [first] && StepsOfPolls([first]) == [step] + [];
  }

  lemma PollThenCourse(cron: Cron, w: World, first: Input, rest: seq<Input>)
    requires WorldInv(w) && CronContract(cron) && PassPossible(cron, w, [first] + rest)
    requires CanHappen(cron, w, first.copy.name, Polled(first))
    requires WorldInv(Advance(cron, w, first.copy.name, Polled(first)))
    requires var w1 := Advance(cron, w, first.copy.name, Polled(first));
             !w1.crashed && PassPossible(cron, w1, rest) && IsACourse(cron, w1, rest)
    ensures IsACourse(cron, w, [first] + rest)
  {
    var step := (first.copy.name, Polled(first));
    var w1 := PassPrepend(cron, w, first, rest);
    var n := |Pass(cron, w1, rest).1|;
    CoursePrepend(cron, w, step, StepsOfPolls(rest[..n]));
    StepsOfMore(first, rest, n);
  }

  /** Every pass is such a course. */
  lemma {:induction false} PassIsACourse(cron: Cron, w: World, inputs: seq<Input>)
    requires WorldInv(w) && CronContract(cron) && PassPossible(cron, w, inputs)
    ensures IsACourse(cron, w, inputs)
    decreases |inputs|
  {
    if inputs != [] {
      var first, rest := inputs[0], inputs[1..];
      assert inputs == [first] + rest;
      StepKeepsWorld(cron, w, first.copy.name, Polled(first));
      var w1 := Advance(cron, w, first.copy.name, Polled(first));
      if w1.crashed {
        CrashIsACourse(cron, w, first, rest);
      } else {
        PassIsACourse(cron, w1, rest);
        PollThenCourse(cron, w, first, rest);
      }
    }
  }

  /** A pass over distinct upgrades at one clock reading is a tick, if nothing is left running at `end`. */
  lemma PassIsATick(listed: seq<Input>, now: Time, polled: seq<Input>, end: Time)
    requires MatchListed(listed, now, polled) && DistinctNames(listed) && now <= end
    requires forall i :: 0 <= i < |polled| ==> now <= polled[i].end <= end
    ensures Fits(Tick(now, end, StepsOfPolls(polled)))
  {
    forall i, j | 0 <= i < j < |polled|
      ensures polled[i].copy.name != polled[j].copy.name
    {
      assert polled[i].copy == listed[i].copy && polled[j].copy == listed[j].copy;
    }
  }
}
