/** The theorems about one upgrade's life, for every upgrade of a controller that polls tick by tick. */
module EveryUpgrade {
  import opened KubeletUpgrade
  import opened ApiServer
  import opened Polling
  import opened Lifecycle
  import opened ConditionHistory
  import opened SlotCoverage
  import opened AllUpgrades
  import opened Ticks

  // ---- Conditions ----

  /**
   Over any ticks every upgrade's stored conditions are only appended to, in time order, and each
   completed one directly follows a started one.
   */
  lemma ConditionsOverTicks(cron: Cron, w: World, ticks: seq<Tick>, name: string, t: Time)
    requires WorldInv(w) && CronContract(cron) && Course(cron, w, StepsOf(ticks)) && name in w.histories
    requires InOrder(t, ticks)
    ensures
      var es, s, s' := Projection(cron, w, StepsOf(ticks), name), SiteOf(w, name),
                       SiteOf(Final(cron, w, StepsOf(ticks)), name);
      Conditions(s) <= Conditions(s') && Chronicle(Conditions(s'), |Conditions(s)|, ClockAfter(t, es))
  {
    EveryLifeIsInOrder(cron, w, ticks, name, t);
    ConditionsOfALife(cron, SiteOf(w, name), Projection(cron, w, StepsOf(ticks), name),
                      |Conditions(SiteOf(w, name))|, t);
  }

  // ---- No slot runs twice ----

  lemma {:induction false} ClockOfSplit(t: Time, a: seq<Step>, b: seq<Step>, name: string)
    requires ClockOf(t, a + b, name)
    ensures ClockOf(t, a, name) && ClockOf(t, b, name)
    decreases |a|
  {
    if a == [] {
      assert a + b == b;
    } else {
      assert (a + b)[0] == a[0] && (a + b)[1..] == a[1..] + b;
      if IsPollOf(a[0], name) {
        ClockOfSplit(a[0].1.input.end, a[1..], b, name);
        ClockOfWeaken(t, a[0].1.input.end, b, name);
      } else {
        ClockOfSplit(t, a[1..], b, name);
      }
    }
  }

  lemma ClockOfRest(t: Time, steps: seq<Step>, rest: seq<Step>, name: string)
    requires steps != [] && ClockOf(t, steps + rest, name)
    ensures IsPollOf(steps[0], name) ==> t <= steps[0].1.input.now <= steps[0].1.input.end
    ensures ClockOf(if IsPollOf(steps[0], name) then steps[0].1.input.end else t, steps[1..] + rest, name)
  {
    assert (steps + rest)[0] == steps[0] && (steps + rest)[1..] == steps[1..] + rest;
  }

  /** The life an upgrade leads until a poll is in clock order together with that poll. */
  lemma {:induction false} ProjectionClockThen(cron: Cron, w: World, steps: seq<Step>, name: string, last: Input,
                                               t: Time)
    requires WorldInv(w) && CronContract(cron) && Course(cron, w, steps)
    requires ClockOf(t, steps + [(name, Polled(last))], name)
    ensures ClockFrom(t, Projection(cron, w, steps, name) + [Polled(last)])
    decreases |steps|
  {
    if steps == [] {
      assert (steps + [(name, Polled(last))])[0] == (name, Polled(last));
      assert Projection(cron, w, steps, name) + [Polled(last)] == [Polled(last)] && [Polled(last)][1..] == [];
    } else {
      var (n, e) := steps[0];
      ClockOfRest(t, steps, [(name, Polled(last))], name);
      StepKeepsWorld(cron, w, n, e);
      var w' := Advance(cron, w, n, e);
      var rest := Projection(cron, w', steps[1..], name);
      ProjectionClockThen(cron, w', steps[1..], name, last, if IsPollOf(steps[0], name) then e.input.end else t);
      if n == name {
        assert [e] + rest + [Polled(last)] == [e] + (rest + [Polled(last)]);
        ClockPrepend(t, e, rest + [Polled(last)]);
      } else {
        assert Shadow(w, w') + rest + [Polled(last)] == Shadow(w, w') + (rest + [Polled(last)]);
        ShadowHasNoClock(t, w, w', rest + [Polled(last)]);
      }
    }
  }

  /** Any stretch of ticks from a poll of an upgrade to a later one of the same upgrade. */
  ghost predicate Stretch(ticks: seq<Tick>, name: string, first: Input, middle: seq<Step>, last: Input) {
    exists before, after ::
      StepsOf(ticks) == before + ([(name, Polled(first))] + (middle + [(name, Polled(last))])) + after
  }

  lemma StretchClock(t: Time, ticks: seq<Tick>, name: string, first: Input, middle: seq<Step>, last: Input)
    requires InOrder(t, ticks) && Stretch(ticks, name, first, middle, last)
    ensures first.now <= first.end && ClockOf(first.end, middle + [(name, Polled(last))], name)
  {
    var before, after :|
      StepsOf(ticks) == before + ([(name, Polled(first))] + (middle + [(name, Polled(last))])) + after;
    var rest := middle + [(name, Polled(last))];
    var stretch := [(name, Polled(first))] + rest;
    TicksKeepClock(t, ticks, name);
    ClockOfSplit(t, before + stretch, after, name);
    ClockOfSplit(t, before, stretch, name);
    assert stretch[0] == (name, Polled(first)) && stretch[1..] == rest;
  }

  /**
   Over any ticks, for every upgrade: if it was run, its new next time reached the store and its
   schedule parses, then every later start on record is for a strictly later slot, whatever happened
   to it and to the others in between.
   */
  lemma NoSlotRunsTwiceOverTicks(cron: Cron, w: World, ticks: seq<Tick>, t: Time, name: string,
                                 first: Input, middle: seq<Step>, last: Input)
    requires WorldInv(w) && CronContract(cron) && InOrder(t, ticks) && Stretch(ticks, name, first, middle, last)
    requires CanHappen(cron, w, name, Polled(first)) && WorldInv(Advance(cron, w, name, Polled(first)))
    requires Course(cron, Advance(cron, w, name, Polled(first)), middle)
    requires CanHappen(cron, Final(cron, Advance(cron, w, name, Polled(first)), middle), name, Polled(last))
    requires Poll(cron, SiteOf(w, name), first).1.Ran? && Lands(first.calls.reschedule, first.copy)
    requires !cron(Current(w.histories[name]).spec.schedule, first.now).Unparsable?
    ensures
      var s := SiteOf(w, name);
      var found := SiteOf(Final(cron, Advance(cron, w, name, Polled(first)), middle), name);
      RecordsStart(cron, found, last) ==>
        && Slot(s).Some? && Slot(found).Some?
        && Slot(s).value <= first.now < Slot(found).value <= last.now <= Slot(found).value + LOOK_BACK
  {
    var s, w1 := SiteOf(w, name), Advance(cron, w, name, Polled(first));
    StretchClock(t, ticks, name, first, middle, last);
    StepKeepsWorld(cron, w, name, Polled(first));
    EveryUpgradeLivesALife(cron, w1, middle, name);
    ProjectionClockThen(cron, w1, middle, name, last, first.end);
    NoSlotRunsTwice(cron, s, first, Projection(cron, w1, middle, name), last);
  }

  // ---- Coverage ----

  /** Every poll of this upgrade in the course is steady. */
  ghost predicate SteadyCourse(cron: Cron, w: World, steps: seq<Step>, name: string, schedule: string)
    requires WorldInv(w) && CronContract(cron) && Course(cron, w, steps)
    decreases |steps|
  {
    steps == [] ||
    (&& (IsPollOf(steps[0], name) ==> Steady(cron, SiteOf(w, name), steps[0].1.input, schedule))
     && (StepKeepsWorld(cron, w, steps[0].0, steps[0].1);
         SteadyCourse(cron, Advance(cron, w, steps[0].0, steps[0].1), steps[1..], name, schedule)))
  }

  lemma ShadowIsSteady(cron: Cron, s: Site, w: World, w': World, schedule: string)
    requires SiteInv(s) && CronContract(cron) && Life(cron, s, Shadow(w, w'))
    ensures SteadyLife(cron, s, Shadow(w, w'), schedule)
  {
    var es := Shadow(w, w');
    StepKeepsSite(cron, s, es[0]);
    if |es| == 2 {
      StepKeepsSite(cron, After(cron, s, es[0]), es[1..][0]);
    }
  }

  lemma {:induction false} SteadyConcat(cron: Cron, s: Site, es: seq<Happening>, fs: seq<Happening>, schedule: string)
    requires SiteInv(s) && CronContract(cron) && Life(cron, s, es) && SteadyLife(cron, s, es, schedule)
    requires Life(cron, End(cron, s, es), fs) && SteadyLife(cron, End(cron, s, es), fs, schedule)
    requires Life(cron, s, es + fs)
    ensures SteadyLife(cron, s, es + fs, schedule)
    decreases |es|
  {
    if es == [] {
      assert es + fs == fs;
    } else {
      assert (es + fs)[0] == es[0] && (es + fs)[1..] == es[1..] + fs;
      StepKeepsSite(cron, s, es[0]);
      SteadyConcat(cron, After(cron, s, es[0]), es[1..], fs, schedule);
    }
  }

  /** What the others do in between does not make an upgrade's life less steady. */
  lemma {:induction false} SteadyProjection(cron: Cron, w: World, steps: seq<Step>, name: string, schedule: string)
    requires WorldInv(w) && CronContract(cron) && Course(cron, w, steps) && name in w.histories
    requires SteadyCourse(cron, w, steps, name, schedule)
    ensures SiteInv(SiteOf(w, name)) && Life(cron, SiteOf(w, name), Projection(cron, w, steps, name))
    ensures SteadyLife(cron, SiteOf(w, name), Projection(cron, w, steps, name), schedule)
    decreases |steps|
  {
    EveryUpgradeLivesALife(cron, w, steps, name);
    if steps != [] {
      var (n, e) := steps[0];
      StepKeepsWorld(cron, w, n, e);
      var w' := Advance(cron, w, n, e);
      var s, rest := SiteOf(w, name), Projection(cron, w', steps[1..], name);
      SteadyProjection(cron, w', steps[1..], name, schedule);
      if n == name {
        LifeOfOne(cron, s, e);
        assert [e][1..] == [];
        SteadyConcat(cron, s, [e], rest, schedule);
      } else {
        OthersSeeAShadow(cron, w, n, e, name);
        ShadowIsSteady(cron, s, w, w', schedule);
        SteadyConcat(cron, s, Shadow(w, w'), rest, schedule);
      }
    }
  }

  /** Ticks come at most five minutes apart, and each of them polls this upgrade. */
  ghost predicate TicksClose(prev: Time, ticks: seq<Tick>, name: string)
    decreases |ticks|
  {
    ticks == [] ||
    (&& prev <= ticks[0].now <= prev + LOOK_BACK
     && (exists i :: 0 <= i < |ticks[0].steps| && IsPollOf(ticks[0].steps[i], name))
     && TicksClose(ticks[0].now, ticks[1..], name))
  }

  /** Each poll of this upgrade comes at most five minutes after its last one, the first after `prev`. */
  predicate CloseOf(prev: Time, steps: seq<Step>, name: string)
    decreases |steps|
  {
    steps == [] ||
    (if IsPollOf(steps[0], name) then
       prev <= steps[0].1.input.now <= prev + LOOK_BACK && CloseOf(steps[0].1.input.now, steps[1..], name)
     else CloseOf(prev, steps[1..], name))
  }

  lemma {:induction false} CloseProjection(cron: Cron, w: World, steps: seq<Step>, name: string, prev: Time)
    requires WorldInv(w) && CronContract(cron) && Course(cron, w, steps) && CloseOf(prev, steps, name)
    ensures CloseTogether(prev, Projection(cron, w, steps, name))
    decreases |steps|
  {
    if steps != [] {
      var (n, e) := steps[0];
      StepKeepsWorld(cron, w, n, e);
      var w' := Advance(cron, w, n, e);
      var rest := Projection(cron, w', steps[1..], name);
      CloseProjection(cron, w', steps[1..], name, if IsPollOf(steps[0], name) then e.input.now else prev);
      if n == name {
        assert ([e] + rest)[0] == e && ([e] + rest)[1..] == rest;
      } else {
        ShadowHasNoClock(prev, w, w', rest);
      }
    }
  }

  /** Before its poll in a tick an upgrade was last polled at `prev`, after it at `now`. */
  lemma {:induction false} CloseInTick(prev: Time, steps: seq<Step>, rest: seq<Step>, name: string,
                                       now: Time, end: Time)
    requires PollsWithin(steps, now, end) && PolledOnce(steps) && CloseOf(now, rest, name)
    requires
      if exists i :: 0 <= i < |steps| && IsPollOf(steps[i], name) then prev <= now <= prev + LOOK_BACK
      else prev == now
    ensures CloseOf(prev, steps + rest, name)
    decreases |steps|
  {
    if steps == [] {
      assert steps + rest == rest;
    } else {
      assert (steps + rest)[0] == steps[0] && (steps + rest)[1..] == steps[1..] + rest;
      if IsPollOf(steps[0], name) {
        CloseInTick(now, steps[1..], rest, name, now, end);
      } else {
        assert forall i :: 0 < i < |steps| ==> steps[i] == steps[1..][i - 1];
        CloseInTick(prev, steps[1..], rest, name, now, end);
      }
    }
  }

  lemma {:induction false} CloseTicks(t: Time, prev: Time, ticks: seq<Tick>, name: string)
    requires InOrder(t, ticks) && TicksClose(prev, ticks, name)
    ensures CloseOf(prev, StepsOf(ticks), name)
    decreases |ticks|
  {
    if ticks != [] {
      CloseTicks(ticks[0].end, ticks[0].now, ticks[1..], name);
      CloseInTick(prev, ticks[0].steps, StepsOf(ticks[1..]), name, ticks[0].now, ticks[0].end);
    }
  }

  /**
   Over ticks at most five minutes apart that poll the upgrade steadily, every activation that a
   later poll leaves behind has a run in the upgrade's life whose clock lies in the five minutes from
   it on, whatever the other upgrades, the users and the process do between these polls.
   */
  lemma EveryUpgradeIsCovered(cron: Cron, w: World, ticks: seq<Tick>, name: string, schedule: string,
                              activations: iset<Time>, t: Time, prev: Time, a: Time, j: nat)
    returns (k: nat)
    requires WorldInv(w) && CronContract(cron) && HasActivations(cron, schedule, activations)
    requires Course(cron, w, StepsOf(ticks)) && name in w.histories
    requires InOrder(t, ticks) && TicksClose(prev, ticks, name)
    requires SteadyCourse(cron, w, StepsOf(ticks), name, schedule)
    requires Slot(SiteOf(w, name)) == NextAfter(cron, schedule, prev)
    requires
      var es := Projection(cron, w, StepsOf(ticks), name);
      a in activations && j < |es| && es[j].Polled? && prev < a <= es[j].input.now
    ensures
      var es := Projection(cron, w, StepsOf(ticks), name);
      && SiteInv(SiteOf(w, name)) && Life(cron, SiteOf(w, name), es)
      && k <= j && Covers(cron, SiteOf(w, name), es, k, a)
  {
    var steps := StepsOf(ticks);
    SteadyProjection(cron, w, steps, name, schedule);
    CloseTicks(t, prev, ticks, name);
    CloseProjection(cron, w, steps, name, prev);
    k := EverySlotIsCovered(cron, SiteOf(w, name), Projection(cron, w, steps, name), schedule, activations, prev, a, j);
  }
}
