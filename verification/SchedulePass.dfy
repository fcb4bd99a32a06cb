/** One tick of the controller: pollSchedules over a snapshot of the upgrades. */
module SchedulePass {
  import opened Labels
  import opened KubeletUpgrade
  import opened ApiServer
  import opened Polling
  import opened PollOutcomes
  import opened Lifecycle
  import opened AllUpgrades

  /** The lister returns the copies without the skip label. */
  function Listed(inputs: seq<Input>): seq<Input> {
    if inputs == [] then []
    else (if MatchesAll(ExcludedKubeletUpgrade(), inputs[0].copy.labels) then [inputs[0]] else []) + Listed(inputs[1..])
  }

  /** Exactly the copies without the skip label are listed. */
  lemma {:induction false} ListedExact(inputs: seq<Input>, input: Input)
    ensures input in Listed(inputs) <==> input in inputs && KEY_KUBELET_UPGRADE_SKIP !in input.copy.labels
    decreases |inputs|
  {
    if inputs != [] {
      ListedExact(inputs[1..], input);
      assert inputs == [inputs[0]] + inputs[1..];
      assert MatchesAll(ExcludedKubeletUpgrade(), inputs[0].copy.labels) <==>
             ExcludedKubeletUpgrade()[0].Matches(inputs[0].copy.labels);
    }
  }

  lemma ListedFirst(first: Input, rest: seq<Input>)
    ensures Listed([first] + rest) ==
            (if KEY_KUBELET_UPGRADE_SKIP in first.copy.labels then [] else [first]) + Listed(rest)
  {
    assert ([first] + rest)[0] == first && ([first] + rest)[1..] == rest;
    assert MatchesAll(ExcludedKubeletUpgrade(), first.copy.labels) <==>
           ExcludedKubeletUpgrade()[0].Matches(first.copy.labels);
  }

  /** And they are listed in the order of the snapshot, each as often as it is there. */
  lemma {:induction false} ListedInOrder(a: seq<Input>, b: seq<Input>)
    ensures Listed(a + b) == Listed(a) + Listed(b)
    ensures |a| == 1 ==> Listed(a) == if KEY_KUBELET_UPGRADE_SKIP in a[0].copy.labels then [] else a
    decreases |a|
  {
    if a == [] {
      assert a + b == b;
    } else {
      assert a == [a[0]] + a[1..] && a + b == [a[0]] + (a[1..] + b);
      ListedFirst(a[0], a[1..]);
      ListedFirst(a[0], a[1..] + b);
      ListedInOrder(a[1..], b);
    }
  }

  /** Each poll of the pass is possible when its turn comes; a crash ends the pass. */
  ghost predicate PassPossible(cron: Cron, w: World, inputs: seq<Input>)
    requires WorldInv(w) && CronContract(cron)
    decreases |inputs|
  {
    inputs == [] ||
    (&& CanHappen(cron, w, inputs[0].copy.name, Polled(inputs[0]))
     && (StepKeepsWorld(cron, w, inputs[0].copy.name, Polled(inputs[0]));
         var w' := Advance(cron, w, inputs[0].copy.name, Polled(inputs[0]));
         w'.crashed || PassPossible(cron, w', inputs[1..])))
  }

  /** The outcomes of the polls in order, up to and including one that crashes. */
  ghost function Pass(cron: Cron, w: World, inputs: seq<Input>): (World, seq<Outcome>)
    requires WorldInv(w) && CronContract(cron) && PassPossible(cron, w, inputs)
    decreases |inputs|
  {
    if inputs == [] then (w, [])
    else
      StepKeepsWorld(cron, w, inputs[0].copy.name, Polled(inputs[0]));
      var outcome := Poll(cron, SiteOf(w, inputs[0].copy.name), inputs[0]).1;
      var w1 := Advance(cron, w, inputs[0].copy.name, Polled(inputs[0]));
      if w1.crashed then (w1, [outcome])
      else
        var (w2, outcomes) := Pass(cron, w1, inputs[1..]);
        (w2, [outcome] + outcomes)
  }

  /** A first poll that does not crash, followed by a pass, is a pass. */
  lemma PassPrepend(cron: Cron, w: World, first: Input, rest: seq<Input>) returns (w1: World)
    requires WorldInv(w) && CronContract(cron) && CanHappen(cron, w, first.copy.name, Polled(first))
    requires !Advance(cron, w, first.copy.name, Polled(first)).crashed
    ensures w1 == Advance(cron, w, first.copy.name, Polled(first)) && WorldInv(w1)
    ensures PassPossible(cron, w, [first] + rest) <==> PassPossible(cron, w1, rest)
    ensures PassPossible(cron, w1, rest) ==>
              Pass(cron, w, [first] + rest) ==
              (Pass(cron, w1, rest).0, [Poll(cron, SiteOf(w, first.copy.name), first).1] + Pass(cron, w1, rest).1)
  {
    StepKeepsWorld(cron, w, first.copy.name, Polled(first));
    w1 := Advance(cron, w, first.copy.name, Polled(first));
    assert ([first] + rest)[0] == first && ([first] + rest)[1..] == rest;
  }

  lemma LastPoll(cron: Cron, w: World, last: Input)
    requires WorldInv(w) && CronContract(cron) && CanHappen(cron, w, last.copy.name, Polled(last))
    ensures PassPossible(cron, w, [last])
    ensures Pass(cron, w, [last]) ==
            (Advance(cron, w, last.copy.name, Polled(last)), [Poll(cron, SiteOf(w, last.copy.name), last).1])
  {
    StepKeepsWorld(cron, w, last.copy.name, Polled(last));
    var w1 := Advance(cron, w, last.copy.name, Polled(last));
    var outcome := Poll(cron, SiteOf(w, last.copy.name), last).1;
    var one := [last];
    assert one[1..] == [];
    assert PassPossible(cron, w, one);
    if !w1.crashed {
      assert Pass(cron, w1, one[1..]) == (w1, []);
      assert [outcome] + [] == [outcome];
    }
  }

  /** With one more poll at its end, the pass leads to `w2` and has the further outcome `o`. */
  ghost predicate Continues(cron: Cron, w: World, inputs: seq<Input>, last: Input, w2: World, o: Outcome)
    requires WorldInv(w) && CronContract(cron)
  {
    && PassPossible(cron, w, inputs) && PassPossible(cron, w, inputs + [last])
    && Pass(cron, w, inputs + [last]) == (w2, Pass(cron, w, inputs).1 + [o])
  }

  /** The pass over `inputs` is a first poll with outcome `x`, and then the pass over `rest` from `w1` on. */
  ghost predicate Begins(cron: Cron, w: World, inputs: seq<Input>, x: Outcome, w1: World, rest: seq<Input>)
    requires WorldInv(w) && WorldInv(w1) && CronContract(cron)
  {
    && PassPossible(cron, w, inputs) && PassPossible(cron, w1, rest)
    && Pass(cron, w, inputs) == (Pass(cron, w1, rest).0, [x] + Pass(cron, w1, rest).1)
  }

  lemma FirstAndLast(x: Outcome, outcomes: seq<Outcome>, o: Outcome)
    ensures [x] + (outcomes + [o]) == [x] + outcomes + [o]
  {
  }

  /** A first poll does not change how the rest of the pass goes on. */
  lemma PassExtendStep(cron: Cron, w: World, inputs: seq<Input>, x: Outcome, w1: World, rest: seq<Input>,
                       last: Input, w2: World, o: Outcome)
    requires WorldInv(w) && WorldInv(w1) && CronContract(cron)
    requires Begins(cron, w, inputs, x, w1, rest) && Begins(cron, w, inputs + [last], x, w1, rest + [last])
    requires Continues(cron, w1, rest, last, w2, o)
    ensures Continues(cron, w, inputs, last, w2, o)
  {
    FirstAndLast(x, Pass(cron, w1, rest).1, o);
  }

  lemma {:induction false} PassContinues(cron: Cron, w: World, inputs: seq<Input>, last: Input)
    requires WorldInv(w) && CronContract(cron) && PassPossible(cron, w, inputs)
    requires var w1 := Pass(cron, w, inputs).0;
             WorldInv(w1) && !w1.crashed && CanHappen(cron, w1, last.copy.name, Polled(last))
    ensures
      var w1 := Pass(cron, w, inputs).0;
      Continues(cron, w, inputs, last, Advance(cron, w1, last.copy.name, Polled(last)),
                Poll(cron, SiteOf(w1, last.copy.name), last).1)
    decreases |inputs|
  {
    if inputs == [] {
      LastPoll(cron, w, last);
      var outcome := Poll(cron, SiteOf(w, last.copy.name), last).1;
      assert inputs + [last] == [last] && Pass(cron, w, inputs) == (w, []) && [] + [outcome] == [outcome];
    } else {
      var first, rest := inputs[0], inputs[1..];
      assert inputs == [first] + rest && inputs + [last] == [first] + (rest + [last]);
      var w1 := PassPrepend(cron, w, first, rest);
      PassContinues(cron, w1, rest, last);
      w1 := PassPrepend(cron, w, first, rest + [last]);
      var w2 := Pass(cron, w1, rest).0;
      PassExtendStep(cron, w, inputs, Poll(cron, SiteOf(w, first.copy.name), first).1, w1, rest, last,
                     Advance(cron, w2, last.copy.name, Polled(last)), Poll(cron, SiteOf(w2, last.copy.name), last).1);
    }
  }

  /** One more poll at the end of a pass that has not crashed. */
  lemma PassExtend(cron: Cron, w: World, inputs: seq<Input>, last: Input)
    requires WorldInv(w) && CronContract(cron) && PassPossible(cron, w, inputs)
    requires var w1 := Pass(cron, w, inputs).0;
             WorldInv(w1) && !w1.crashed && CanHappen(cron, w1, last.copy.name, Polled(last))
    ensures PassPossible(cron, w, inputs + [last])
    ensures
      var (w1, outcomes) := Pass(cron, w, inputs);
      Pass(cron, w, inputs + [last]) ==
      (Advance(cron, w1, last.copy.name, Polled(last)),
       outcomes + [Poll(cron, SiteOf(w1, last.copy.name), last).1])
  {
    PassContinues(cron, w, inputs, last);
  }

  /** A step never takes back a stored version, so every copy stays a copy. */
  lemma CopiesSurvive(cron: Cron, w: World, name: string, e: Happening, o: KubeletUpgrade)
    requires WorldInv(w) && CronContract(cron) && CanHappen(cron, w, name, e)
    requires o.name in w.histories && IsCopy(w.histories[o.name], o)
    ensures o.name in Advance(cron, w, name, e).histories
    ensures IsCopy(Advance(cron, w, name, e).histories[o.name], o)
  {
    StepKeepsSite(cron, SiteOf(w, name), e);
  }

  /** Every listed upgrade has a history, and its input a copy from it. */
  ghost predicate CopiesOf(w: World, inputs: seq<Input>) {
    forall i :: 0 <= i < |inputs| ==>
      inputs[i].copy.name in w.histories && IsCopy(w.histories[inputs[i].copy.name], inputs[i].copy)
  }

  lemma CopiesOfListed(w: World, inputs: seq<Input>)
    requires CopiesOf(w, inputs)
    ensures CopiesOf(w, Listed(inputs))
  {
    forall i | 0 <= i < |Listed(inputs)|
      ensures Listed(inputs)[i] in inputs
    {
      ListedExact(inputs, Listed(inputs)[i]);
    }
  }

  lemma AllCopiesSurvive(cron: Cron, w: World, name: string, e: Happening, inputs: seq<Input>)
    requires WorldInv(w) && CronContract(cron) && CanHappen(cron, w, name, e) && CopiesOf(w, inputs)
    ensures CopiesOf(Advance(cron, w, name, e), inputs)
  {
    forall i | 0 <= i < |inputs|
      ensures
        var w' := Advance(cron, w, name, e);
        inputs[i].copy.name in w'.histories && IsCopy(w'.histories[inputs[i].copy.name], inputs[i].copy)
    {
      CopiesSurvive(cron, w, name, e, inputs[i].copy);
    }
  }

  /** The first listed inputs were polled, all at the one clock reading `now`, with their own interleavings. */
  ghost predicate MatchListed(listed: seq<Input>, now: Time, polled: seq<Input>) {
    && |polled| <= |listed|
    && forall j :: 0 <= j < |polled| ==> polled[j] == listed[j].(now := now, events := polled[j].events)
  }

  lemma MatchListedExtend(listed: seq<Input>, now: Time, polled: seq<Input>, happened: Input)
    requires MatchListed(listed, now, polled) && |polled| < |listed|
    requires happened == listed[|polled|].(now := now, events := happened.events)
    ensures MatchListed(listed, now, polled + [happened])
  {
  }

  /** The polls in `polled` took place from `start` on, for the first listed inputs, and led to `w`. */
  ghost predicate Progress(cron: Cron, start: World, w: World, listed: seq<Input>, now: Time, polled: seq<Input>,
                           outcomes: seq<Outcome>)
    requires WorldInv(start) && CronContract(cron)
  {
    && |polled| == |outcomes| && MatchListed(listed, now, polled)
    && PassPossible(cron, start, polled) && Pass(cron, start, polled) == (w, outcomes)
    && CopiesOf(w, listed)
  }

  lemma ProgressStep(cron: Cron, start: World, w: World, listed: seq<Input>, now: Time, polled: seq<Input>,
                     outcomes: seq<Outcome>, happened: Input)
    requires WorldInv(start) && CronContract(cron) && Progress(cron, start, w, listed, now, polled, outcomes)
    requires |polled| < |listed| && happened == listed[|polled|].(now := now, events := happened.events)
    requires WorldInv(w) && !w.crashed && CanHappen(cron, w, happened.copy.name, Polled(happened))
    ensures Progress(cron, start, Advance(cron, w, happened.copy.name, Polled(happened)), listed, now,
                     polled + [happened], outcomes + [Poll(cron, SiteOf(w, happened.copy.name), happened).1])
  {
    PassExtend(cron, start, polled, happened);
    AllCopiesSurvive(cron, w, happened.copy.name, Polled(happened), listed);
    MatchListedExtend(listed, now, polled, happened);
  }

  /** pollSchedules returns nil if and only if no poll returned an error. */
  predicate PassFails(outcomes: seq<Outcome>) {
    exists i :: 0 <= i < |outcomes| && outcomes[i].IsError()
  }

  /** Some poll of the pass has an error to return, in the world it finds. */
  ghost predicate SomeMustFail(cron: Cron, w: World, inputs: seq<Input>)
    requires WorldInv(w) && CronContract(cron) && PassPossible(cron, w, inputs)
    decreases |inputs|
  {
    inputs != [] &&
    (StepKeepsWorld(cron, w, inputs[0].copy.name, Polled(inputs[0]));
     var w1 := Advance(cron, w, inputs[0].copy.name, Polled(inputs[0]));
     || MustFail(cron, SiteOf(w, inputs[0].copy.name), inputs[0])
     || (!w1.crashed && SomeMustFail(cron, w1, inputs[1..])))
  }

  lemma PassFailsPrepend(outcome: Outcome, outcomes: seq<Outcome>)
    ensures PassFails([outcome] + outcomes) <==> outcome.IsError() || PassFails(outcomes)
  {
    if outcome.IsError() {
      assert ([outcome] + outcomes)[0].IsError();
    }
    if PassFails(outcomes) {
      var i :| 0 <= i < |outcomes| && outcomes[i].IsError();
      assert ([outcome] + outcomes)[i + 1].IsError();
    }
  }

  /** The pass returns an error exactly if one of its polls has one to return. */
  lemma {:induction false} PassFailsExactly(cron: Cron, w: World, inputs: seq<Input>)
    requires WorldInv(w) && CronContract(cron) && PassPossible(cron, w, inputs)
    ensures PassFails(Pass(cron, w, inputs).1) <==> SomeMustFail(cron, w, inputs)
    decreases |inputs|
  {
    if inputs != [] {
      var name := inputs[0].copy.name;
      StepKeepsWorld(cron, w, name, Polled(inputs[0]));
      var w1, outcome := Advance(cron, w, name, Polled(inputs[0])), Poll(cron, SiteOf(w, name), inputs[0]).1;
      ErrorExactly(cron, SiteOf(w, name), inputs[0]);
      if w1.crashed {
        PassFailsPrepend(outcome, []);
        assert [outcome] + [] == [outcome];
      } else {
        PassFailsExactly(cron, w1, inputs[1..]);
        PassFailsPrepend(outcome, Pass(cron, w1, inputs[1..]).1);
      }
    }
  }

  ghost predicate DistinctNames(inputs: seq<Input>) {
    forall i, j :: 0 <= i < j < |inputs| ==> inputs[i].copy.name != inputs[j].copy.name
  }

  /** Fresh copies, calm weather, one clock reading for the whole pass. */
  ghost predicate CalmPass(w: World, inputs: seq<Input>, now: Time)
    requires WorldInv(w)
  {
    forall i :: 0 <= i < |inputs| ==>
      && inputs[i].calls == ALL_CALM && inputs[i].now == now
      && inputs[i].copy.name in w.histories
      && inputs[i].copy == Current(w.histories[inputs[i].copy.name])
      && inputs[i].copy.spec.maxUnavailable >= 0
  }

  /** The upgrade starts if polled now: decided by the state before the pass alone. */
  ghost predicate Starts(cron: Cron, w: World, input: Input)
    requires WorldInv(w) && input.copy.name in w.histories
  {
    Gate(cron, SiteOf(w, input.copy.name), input).Some?
  }

  /** A calm poll with a fresh copy runs exactly if it passes the gate, and does not crash. */
  lemma CalmStep(cron: Cron, w: World, input: Input)
    requires WorldInv(w) && CronContract(cron) && !w.crashed
    requires CanHappen(cron, w, input.copy.name, Polled(input))
    requires input.calls == ALL_CALM && input.copy == Current(w.histories[input.copy.name])
    requires input.copy.spec.maxUnavailable >= 0
    ensures !Advance(cron, w, input.copy.name, Polled(input)).crashed
    ensures Poll(cron, SiteOf(w, input.copy.name), input).1.Ran? <==> Starts(cron, w, input)
  {
    StepKeepsWorld(cron, w, input.copy.name, Polled(input));
    CalmPollSurvives(cron, SiteOf(w, input.copy.name), input);
  }

  /** A poll of one upgrade leaves the others' objects, queues and gates as they were. */
  lemma OthersUnmoved(cron: Cron, w: World, input: Input, other: Input)
    requires WorldInv(w) && CronContract(cron) && !w.crashed
    requires CanHappen(cron, w, input.copy.name, Polled(input))
    requires other.copy.name in w.histories && other.copy.name != input.copy.name
    requires !Advance(cron, w, input.copy.name, Polled(input)).crashed
    ensures
      var w' := Advance(cron, w, input.copy.name, Polled(input));
      && WorldInv(w') && other.copy.name in w'.histories
      && w'.histories[other.copy.name] == w.histories[other.copy.name]
      && (Starts(cron, w', other) <==> Starts(cron, w, other))
  {
    OthersSeeAShadow(cron, w, input.copy.name, Polled(input), other.copy.name);
  }

  lemma AllOthersUnmoved(cron: Cron, w: World, first: Input, inputs: seq<Input>)
    requires WorldInv(w) && CronContract(cron) && !w.crashed && inputs != [] && first == inputs[0]
    requires CanHappen(cron, w, first.copy.name, Polled(first))
    requires !Advance(cron, w, first.copy.name, Polled(first)).crashed
    requires DistinctNames(inputs) && forall i :: 0 <= i < |inputs| ==> inputs[i].copy.name in w.histories
    ensures
      var w' := Advance(cron, w, first.copy.name, Polled(first));
      && WorldInv(w')
      && forall i :: 0 <= i < |inputs[1..]| ==>
           && inputs[1..][i].copy.name in w'.histories
           && w'.histories[inputs[1..][i].copy.name] == w.histories[inputs[1..][i].copy.name]
           && (Starts(cron, w', inputs[1..][i]) <==> Starts(cron, w, inputs[1..][i]))
  {
    StepKeepsWorld(cron, w, first.copy.name, Polled(first));
    forall i | 0 <= i < |inputs[1..]|
      ensures
        var w' := Advance(cron, w, first.copy.name, Polled(first));
        && inputs[1..][i].copy.name in w'.histories
        && w'.histories[inputs[1..][i].copy.name] == w.histories[inputs[1..][i].copy.name]
        && (Starts(cron, w', inputs[1..][i]) <==> Starts(cron, w, inputs[1..][i]))
    {
      assert inputs[1..][i] == inputs[i + 1];
      OthersUnmoved(cron, w, first, inputs[1..][i]);
    }
  }

  lemma RestIsCalm(w: World, w1: World, inputs: seq<Input>, now: Time)
    requires WorldInv(w) && WorldInv(w1) && inputs != [] && CalmPass(w, inputs, now) && DistinctNames(inputs)
    requires forall i :: 0 <= i < |inputs[1..]| ==>
               && inputs[1..][i].copy.name in w1.histories
               && w1.histories[inputs[1..][i].copy.name] == w.histories[inputs[1..][i].copy.name]
    ensures CalmPass(w1, inputs[1..], now) && DistinctNames(inputs[1..])
  {
  }

  /** What is left of a calm pass after its first poll is a calm pass that starts the same upgrades. */
  lemma RestOfPass(cron: Cron, w: World, inputs: seq<Input>, now: Time) returns (w1: World)
    requires WorldInv(w) && CronContract(cron) && !w.crashed && inputs != []
    requires DistinctNames(inputs) && CalmPass(w, inputs, now) && PassPossible(cron, w, inputs)
    ensures WorldInv(w1) && !w1.crashed
    ensures DistinctNames(inputs[1..]) && CalmPass(w1, inputs[1..], now) && PassPossible(cron, w1, inputs[1..])
    ensures Pass(cron, w, inputs).1 ==
            [Poll(cron, SiteOf(w, inputs[0].copy.name), inputs[0]).1] + Pass(cron, w1, inputs[1..]).1
    ensures forall i :: 0 <= i < |inputs| - 1 ==>
              && inputs[i + 1].copy.name in w1.histories
              && (Starts(cron, w1, inputs[1..][i]) <==> Starts(cron, w, inputs[i + 1]))
  {
    var first, rest := inputs[0], inputs[1..];
    assert inputs == [first] + rest;
    CalmStep(cron, w, first);
    AllOthersUnmoved(cron, w, first, inputs);
    w1 := PassPrepend(cron, w, first, rest);
    RestIsCalm(w, w1, inputs, now);
  }

  /**
   In a calm pass over distinct upgrades, the ones that start are exactly those the state before the
   pass lets start at the common clock reading, whatever came earlier in the pass.
   */
  lemma {:induction false} PassIndependence(cron: Cron, w: World, inputs: seq<Input>, now: Time)
    requires WorldInv(w) && CronContract(cron) && !w.crashed
    requires DistinctNames(inputs) && CalmPass(w, inputs, now) && PassPossible(cron, w, inputs)
    ensures
      var outcomes := Pass(cron, w, inputs).1;
      && |outcomes| == |inputs|
      && forall i :: 0 <= i < |inputs| ==> (outcomes[i].Ran? <==> Starts(cron, w, inputs[i]))
    decreases |inputs|
  {
    if inputs != [] {
      CalmStep(cron, w, inputs[0]);
      var w1 := RestOfPass(cron, w, inputs, now);
      PassIndependence(cron, w1, inputs[1..], now);
    }
  }

  /** The names of the upgrades that started in a pass. */
  ghost function StartedIn(inputs: seq<Input>, outcomes: seq<Outcome>): set<string>
    requires |inputs| == |outcomes|
  {
    set i | 0 <= i < |inputs| && outcomes[i].Ran? :: inputs[i].copy.name
  }

  lemma StartedAgree(cron: Cron, w: World, a: seq<Input>, x: seq<Outcome>, b: seq<Input>, y: seq<Outcome>)
    requires WorldInv(w) && |a| == |x| && |b| == |y|
    requires forall i :: 0 <= i < |a| ==> a[i].copy.name in w.histories && (x[i].Ran? <==> Starts(cron, w, a[i]))
    requires forall i :: 0 <= i < |b| ==> b[i].copy.name in w.histories && (y[i].Ran? <==> Starts(cron, w, b[i]))
    requires forall input :: input in a ==> input in b
    ensures StartedIn(a, x) <= StartedIn(b, y)
  {
    forall name | name in StartedIn(a, x)
      ensures name in StartedIn(b, y)
    {
      var i :| 0 <= i < |a| && x[i].Ran? && a[i].copy.name == name;
      assert a[i] in b;
      var j :| 0 <= j < |b| && b[j] == a[i];
      assert y[j].Ran?;
    }
  }

  /** The order of the snapshot decides nothing: two calm passes over the same inputs start the same upgrades. */
  lemma OrderDoesNotMatter(cron: Cron, w: World, a: seq<Input>, b: seq<Input>, now: Time)
    requires WorldInv(w) && CronContract(cron) && !w.crashed
    requires DistinctNames(a) && CalmPass(w, a, now) && PassPossible(cron, w, a)
    requires DistinctNames(b) && CalmPass(w, b, now) && PassPossible(cron, w, b)
    requires forall input :: input in a <==> input in b
    ensures |Pass(cron, w, a).1| == |a| && |Pass(cron, w, b).1| == |b|
    ensures StartedIn(a, Pass(cron, w, a).1) == StartedIn(b, Pass(cron, w, b).1)
  {
    PassIndependence(cron, w, a, now);
    PassIndependence(cron, w, b, now);
    StartedAgree(cron, w, a, Pass(cron, w, a).1, b, Pass(cron, w, b).1);
    StartedAgree(cron, w, b, Pass(cron, w, b).1, a, Pass(cron, w, a).1);
  }
}
