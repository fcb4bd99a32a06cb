/** Exactly which activations are run; with polls close enough together, all of them. */
module SlotCoverage {
  import opened Basics
  import opened Labels
  import opened KubeletUpgrade
  import opened ApiServer
  import opened Polling
  import opened PollEffects
  import opened PollOutcomes
  import opened Lifecycle

  // ---- Steady polls ----

  function NextAfter(cron: Cron, schedule: string, t: Time): Option<Time> {
    match cron(schedule, t)
    case Next(n) => Some(n)
    case _ => None
  }

  /** Fresh copy, calm weather, no skip label, a valid selector and at least one matching node. */
  ghost predicate Steady(cron: Cron, s: Site, input: Input, schedule: string)
    requires s.history != []
  {
    && input.synced && input.calls == ALL_CALM && input.copy == Current(s.history)
    && EventsFit(cron, s, input)
    && KEY_KUBELET_UPGRADE_SKIP !in input.copy.labels
    && input.copy.spec.schedule == schedule && input.copy.spec.maxUnavailable >= 0
    && Convertible(input.copy.spec.selector)
    && MatchingKeys(input.copy.spec.selector + ExcludedNodes(), input.nodes) != []
  }

  lemma SteadyGate(cron: Cron, s: Site, input: Input, schedule: string)
    requires SiteInv(s) && CronContract(cron) && Steady(cron, s, input, schedule)
    requires !cron(schedule, input.now).Unparsable?
    ensures Gate(cron, s, input).Some? <==>
            Slot(s).Some? && Slot(s).value <= input.now < Slot(s).value + LOOK_BACK
  {
    ComposedGate(cron, s, input);
    EnqueueEffect(s.queue, input.copy, input.nodes);
    var keys := MatchingKeys(input.copy.spec.selector + ExcludedNodes(), input.nodes);
    assert keys[0] in Elems(Enqueue(s.queue, input.copy, input.nodes).value.keys);
  }

  /** No activation lies between an instant and the first activation after it. */
  lemma SameNext(cron: Cron, schedule: string, activations: iset<Time>, t: Time, u: Time)
    requires HasActivations(cron, schedule, activations)
    requires t <= u && cron(schedule, t).Next? && u < cron(schedule, t).time
    ensures cron(schedule, u) == cron(schedule, t)
  {
    var n := cron(schedule, t).time;
    assert n in activations;
    match cron(schedule, u) {
      case Next(m) => assert m in activations && m > t;
      case _ =>
    }
  }

  lemma PollWaits(cron: Cron, s: Site, input: Input)
    requires SiteInv(s) && EventsFit(cron, s, input) && input.synced
    requires !MustRoll(input.copy, input.now) && input.copy.status.next.value > input.now
    ensures Poll(cron, s, input) == (s, NotDue)
  {
  }

  /** Rolling forward gives a time that is not due yet, so the poll stops there. */
  lemma RolledIsNotDue(cron: Cron, s: Site, input: Input)
    requires SiteInv(s) && CronContract(cron) && EventsFit(cron, s, input)
    requires input.synced && input.calls == ALL_CALM && input.copy == Current(s.history)
    requires MustRoll(input.copy, input.now) && !cron(input.copy.spec.schedule, input.now).Unparsable?
    ensures
      var (s', outcome) := Poll(cron, s, input);
      Slot(s') == NextAfter(cron, input.copy.spec.schedule, input.now)
  {
    var rolled := input.copy.UpdateNextScheduledTime(cron, input.now);
    RequestEffect(s.history, CALM, StatusResource, rolled, input.copy);
    UpdateNextEffect(cron, s.history, input.copy, input.now, false, CALM);
  }

  /**
   A steady poll runs exactly if the stored slot is due and its window open, and leaves as stored
   slot the first activation after the poll, whether it ran, rolled forward or did nothing.
   */
  lemma SteadyPoll(cron: Cron, s: Site, input: Input, schedule: string, activations: iset<Time>, prev: Time)
    requires SiteInv(s) && CronContract(cron) && HasActivations(cron, schedule, activations)
    requires Steady(cron, s, input, schedule)
    requires Slot(s).None? || Slot(s) == NextAfter(cron, schedule, prev)
    requires prev <= input.now
    ensures
      var (s', outcome) := Poll(cron, s, input);
      && SiteInv(s') && Slot(s') == NextAfter(cron, schedule, input.now)
      && (outcome.Ran? <==> Slot(s).Some? && Slot(s).value <= input.now < Slot(s).value + LOOK_BACK)
  {
    SteadyGate(cron, s, input, schedule);
    OutcomeExactly(cron, s, input);
    PollEffect(cron, s, input);
    if Gate(cron, s, input).None? {
      PollShortOfGate(cron, s, input);
      if MustRoll(input.copy, input.now) {
        RolledIsNotDue(cron, s, input);
      } else {
        assert Slot(s).value > input.now;
        SameNext(cron, schedule, activations, prev, input.now);
        PollWaits(cron, s, input);
      }
    }
  }

  // ---- Steady lives ----

  /**
   A stretch of life whose polls are steady. Between them users may edit the object, others may move
   cordons, and the process may die and be restarted.
   */
  ghost predicate SteadyLife(cron: Cron, s: Site, es: seq<Happening>, schedule: string)
    requires SiteInv(s) && CronContract(cron) && Life(cron, s, es)
    decreases |es|
  {
    es == [] ||
    (&& (es[0].Polled? ==> Steady(cron, s, es[0].input, schedule))
     && (StepKeepsSite(cron, s, es[0]); SteadyLife(cron, After(cron, s, es[0]), es[1..], schedule)))
  }

  /**
   The k-th happening is a run within five minutes of `a`, for the slot stored then, which is not
   after `a`.
   */
  ghost predicate Covers(cron: Cron, s: Site, es: seq<Happening>, k: nat, a: Time)
    requires SiteInv(s) && CronContract(cron) && Life(cron, s, es)
  {
    && k < |es| && es[k].Polled?
    && var found := StateAt(cron, s, es, k);
    && Poll(cron, found, es[k].input).1.Ran?
    && a <= es[k].input.now < a + LOOK_BACK
    && Slot(found).Some? && Slot(found).value <= a
  }

  /** Only polls move the stored slot. */
  lemma OnlyPollsMoveSlot(cron: Cron, s: Site, e: Happening)
    requires SiteInv(s) && CronContract(cron) && Possible(cron, s, e) && !e.Polled?
    ensures Slot(After(cron, s, e)) == Slot(s)
  {
    if e.Edited? {
      EditsExtend(s.history, [e.edit]);
    }
  }

  // ---- Exactly which activations are run ----

  /** The slot stored after a poll at this time, or that of an object without a next time. */
  function StoredSlot(cron: Cron, schedule: string, since: Option<Time>): Option<Time> {
    if since.None? then None else NextAfter(cron, schedule, since.value)
  }

  /** The time of the last poll before the k-th happening, or `since` if there is none. */
  function PollBefore(since: Option<Time>, es: seq<Happening>, k: nat): Option<Time>
    requires k <= |es|
    decreases |es|
  {
    if k == 0 then since
    else PollBefore(if es[0].Polled? then Some(es[0].input.now) else since, es[1..], k - 1)
  }

  /** The polls follow each other in time, none of them before `since`. */
  predicate Ascending(since: Option<Time>, es: seq<Happening>)
    decreases |es|
  {
    es == [] ||
    (if es[0].Polled? then
       (since.Some? ==> since.value <= es[0].input.now) && Ascending(Some(es[0].input.now), es[1..])
     else Ascending(since, es[1..]))
  }

  /** The k-th happening is the first poll at or after `a`. */
  ghost predicate FirstPollFrom(es: seq<Happening>, a: Time, k: nat) {
    && k < |es| && es[k].Polled? && a <= es[k].input.now
    && forall i :: 0 <= i < k && es[i].Polled? ==> es[i].input.now < a
  }

  /**
   The k-th happening is the first poll at or after `a`, and comes less than five minutes after the
   first activation since the poll before it, which may well be earlier than `a`.
   */
  ghost predicate Catches(cron: Cron, schedule: string, since: Option<Time>, es: seq<Happening>, k: nat, a: Time) {
    && FirstPollFrom(es, a, k)
    && var slot := StoredSlot(cron, schedule, PollBefore(since, es, k));
       slot.Some? && slot.value <= a && es[k].input.now - slot.value < LOOK_BACK
  }

  /** What holds of the rest of a steady life holds of the life, one happening later. */
  lemma CoversRest(cron: Cron, s: Site, es: seq<Happening>, k: nat, a: Time)
    requires SiteInv(s) && CronContract(cron) && es != [] && Life(cron, s, es)
    requires SiteInv(After(cron, s, es[0]))
    ensures Covers(cron, s, es, k + 1, a) <==> Covers(cron, After(cron, s, es[0]), es[1..], k, a)
  {
    if k + 1 < |es| {
      assert StateAt(cron, s, es, k + 1) == StateAt(cron, After(cron, s, es[0]), es[1..], k);
      assert es[1..][k] == es[k + 1];
    }
  }

  lemma CatchesRest(cron: Cron, schedule: string, since: Option<Time>, es: seq<Happening>, k: nat, a: Time)
    requires es != []
    ensures
      var later := if es[0].Polled? then Some(es[0].input.now) else since;
      Catches(cron, schedule, since, es, k + 1, a) <==>
        Catches(cron, schedule, later, es[1..], k, a) && (es[0].Polled? ==> es[0].input.now < a)
  {
    if k + 1 < |es| {
      assert es[1..][k] == es[k + 1];
      assert forall i :: 0 < i <= k ==> es[i] == es[1..][i - 1];
    }
  }

  /** The slot stored after a poll lies ahead of it. */
  lemma StoredSlotIsAhead(cron: Cron, schedule: string, t: Time)
    requires CronContract(cron)
    ensures NextAfter(cron, schedule, t).Some? ==> NextAfter(cron, schedule, t).value > t
  {
  }

  /** Nothing catches an activation that an earlier poll has left behind. */
  lemma {:induction false} CatchesAhead(cron: Cron, schedule: string, t: Time, es: seq<Happening>, k: nat, a: Time)
    requires CronContract(cron) && a <= t && Ascending(Some(t), es)
    ensures !Catches(cron, schedule, Some(t), es, k, a)
    decreases |es|
  {
    StoredSlotIsAhead(cron, schedule, t);
    if k > 0 && es != [] {
      CatchesRest(cron, schedule, Some(t), es, k - 1, a);
      if !es[0].Polled? {
        CatchesAhead(cron, schedule, t, es[1..], k - 1, a);
      }
    }
  }

  /** A steady poll stores the first activation after it, and nothing else moves the stored slot. */
  lemma SlotAfterStep(cron: Cron, s: Site, e: Happening, schedule: string, activations: iset<Time>,
                      since: Option<Time>)
    requires SiteInv(s) && CronContract(cron) && HasActivations(cron, schedule, activations)
    requires Possible(cron, s, e) && Slot(s) == StoredSlot(cron, schedule, since)
    requires e.Polled? ==> Steady(cron, s, e.input, schedule) && (since.Some? ==> since.value <= e.input.now)
    ensures Slot(After(cron, s, e)) ==
            StoredSlot(cron, schedule, if e.Polled? then Some(e.input.now) else since)
  {
    if e.Polled? {
      SteadyPoll(cron, s, e.input, schedule, activations, if since.Some? then since.value else e.input.now);
    } else {
      OnlyPollsMoveSlot(cron, s, e);
    }
  }

  /** What is left of a steady life after its first happening is a steady life. */
  lemma SteadyRest(cron: Cron, s: Site, es: seq<Happening>, schedule: string, activations: iset<Time>,
                   since: Option<Time>)
    returns (s1: Site, later: Option<Time>)
    requires SiteInv(s) && CronContract(cron) && HasActivations(cron, schedule, activations)
    requires es != [] && Life(cron, s, es) && SteadyLife(cron, s, es, schedule) && Ascending(since, es)
    requires Slot(s) == StoredSlot(cron, schedule, since)
    ensures s1 == After(cron, s, es[0]) && later == (if es[0].Polled? then Some(es[0].input.now) else since)
    ensures SiteInv(s1) && Life(cron, s1, es[1..]) && SteadyLife(cron, s1, es[1..], schedule)
    ensures Ascending(later, es[1..]) && Slot(s1) == StoredSlot(cron, schedule, later)
  {
    StepKeepsSite(cron, s, es[0]);
    SlotAfterStep(cron, s, es[0], schedule, activations, since);
    s1 := After(cron, s, es[0]);
    later := if es[0].Polled? then Some(es[0].input.now) else since;
  }

  lemma CoversFirst(cron: Cron, s: Site, es: seq<Happening>, schedule: string, activations: iset<Time>,
                    since: Option<Time>, a: Time)
    requires SiteInv(s) && CronContract(cron) && HasActivations(cron, schedule, activations)
    requires es != [] && Life(cron, s, es) && SteadyLife(cron, s, es, schedule) && Ascending(since, es)
    requires Slot(s) == StoredSlot(cron, schedule, since)
    ensures Covers(cron, s, es, 0, a) <==> Catches(cron, schedule, since, es, 0, a)
  {
    if es[0].Polled? {
      var input := es[0].input;
      SteadyPoll(cron, s, input, schedule, activations, if since.Some? then since.value else input.now);
    }
  }

  lemma CoveredLater(cron: Cron, s: Site, es: seq<Happening>, schedule: string, since: Option<Time>,
                     s1: Site, later: Option<Time>, a: Time, k: nat)
    requires SiteInv(s) && CronContract(cron) && es != [] && Life(cron, s, es)
    requires s1 == After(cron, s, es[0]) && SiteInv(s1) && Life(cron, s1, es[1..]) && Ascending(since, es)
    requires later == if es[0].Polled? then Some(es[0].input.now) else since
    requires Covers(cron, s1, es[1..], k, a) <==> Catches(cron, schedule, later, es[1..], k, a)
    ensures Covers(cron, s, es, k + 1, a) <==> Catches(cron, schedule, since, es, k + 1, a)
  {
    CoversRest(cron, s, es, k, a);
    CatchesRest(cron, schedule, since, es, k, a);
    if es[0].Polled? && a <= es[0].input.now {
      CatchesAhead(cron, schedule, es[0].input.now, es[1..], k, a);
    }
  }

  /**
   Over any steady life, however far apart its polls: a happening runs the upgrade for an activation
   exactly if it is the first poll at or after it and catches it.
   */
  lemma {:induction false} CoveredExactly(cron: Cron, s: Site, es: seq<Happening>, schedule: string,
                                          activations: iset<Time>, since: Option<Time>, a: Time, k: nat)
    requires SiteInv(s) && CronContract(cron) && HasActivations(cron, schedule, activations)
    requires Life(cron, s, es) && SteadyLife(cron, s, es, schedule) && Ascending(since, es)
    requires Slot(s) == StoredSlot(cron, schedule, since)
    ensures Covers(cron, s, es, k, a) <==> Catches(cron, schedule, since, es, k, a)
    decreases |es|
  {
    if k == 0 && es != [] {
      CoversFirst(cron, s, es, schedule, activations, since, a);
    } else if k < |es| {
      var s1, later := SteadyRest(cron, s, es, schedule, activations, since);
      CoveredExactly(cron, s1, es[1..], schedule, activations, later, a, k - 1);
      CoveredLater(cron, s, es, schedule, since, s1, later, a, k - 1);
    }
  }

  lemma {:induction false} PollBeforeIsEarlier(t: Time, es: seq<Happening>, k: nat, a: Time)
    requires t < a && FirstPollFrom(es, a, k)
    ensures PollBefore(Some(t), es, k).Some? && PollBefore(Some(t), es, k).value < a
    decreases |es|
  {
    if k > 0 {
      assert forall i :: 0 < i <= k ==> es[i] == es[1..][i - 1];
      PollBeforeIsEarlier(if es[0].Polled? then es[0].input.now else t, es[1..], k - 1, a);
    }
  }

  lemma OneFirstPoll(es: seq<Happening>, a: Time, j: nat, k: nat)
    requires FirstPollFrom(es, a, j) && FirstPollFrom(es, a, k)
    ensures j == k
  {
  }

  lemma ActivationAfter(cron: Cron, schedule: string, activations: iset<Time>, t: Time, a: Time)
    requires HasActivations(cron, schedule, activations) && a in activations && t < a
    ensures NextAfter(cron, schedule, t).Some? && t < NextAfter(cron, schedule, t).value <= a
  {
    assert !cron(schedule, t).Never?;
  }

  /**
   Which activations are lost. Over any steady life an activation is run for exactly if the first poll
   at or after it comes less than five minutes after the first activation since the poll before. So
   an activation can be lost to a poll that comes right after it: an earlier one takes it along.
   */
  lemma ActivationIsRunExactly(cron: Cron, s: Site, es: seq<Happening>, schedule: string,
                               activations: iset<Time>, prev: Time, a: Time, j: nat)
    requires SiteInv(s) && CronContract(cron) && HasActivations(cron, schedule, activations)
    requires Life(cron, s, es) && SteadyLife(cron, s, es, schedule) && Ascending(Some(prev), es)
    requires Slot(s) == NextAfter(cron, schedule, prev)
    requires a in activations && prev < a && FirstPollFrom(es, a, j)
    ensures
      var before := PollBefore(Some(prev), es, j);
      && before.Some? && before.value < a
      && var slot := NextAfter(cron, schedule, before.value);
      && slot.Some? && before.value < slot.value <= a
      && ((exists k :: Covers(cron, s, es, k, a)) <==> es[j].input.now - slot.value < LOOK_BACK)
  {
    PollBeforeIsEarlier(prev, es, j, a);
    ActivationAfter(cron, schedule, activations, PollBefore(Some(prev), es, j).value, a);
    forall k: nat | Covers(cron, s, es, k, a)
      ensures Catches(cron, schedule, Some(prev), es, j, a)
    {
      CoveredExactly(cron, s, es, schedule, activations, Some(prev), a, k);
      OneFirstPoll(es, a, j, k);
    }
    CoveredExactly(cron, s, es, schedule, activations, Some(prev), a, j);
  }

  // ---- Polls close together ----

  /** Each poll comes at most five minutes after the one before, the first after `prev`. */
  predicate CloseTogether(prev: Time, es: seq<Happening>)
    decreases |es|
  {
    es == [] ||
    (if es[0].Polled? then prev <= es[0].input.now <= prev + LOOK_BACK && CloseTogether(es[0].input.now, es[1..])
     else CloseTogether(prev, es[1..]))
  }

  lemma {:induction false} CloseAscends(prev: Time, es: seq<Happening>)
    requires CloseTogether(prev, es)
    ensures Ascending(Some(prev), es)
    decreases |es|
  {
    if es != [] {
      CloseAscends(if es[0].Polled? then es[0].input.now else prev, es[1..]);
    }
  }

  /** Of polls close together some poll catches every activation they leave behind. */
  lemma {:induction false} CloseCatches(cron: Cron, schedule: string, activations: iset<Time>,
                                        prev: Time, es: seq<Happening>, a: Time, j: nat)
    returns (k: nat)
    requires HasActivations(cron, schedule, activations) && CloseTogether(prev, es)
    requires a in activations && j < |es| && es[j].Polled? && prev < a <= es[j].input.now
    ensures k <= j && Catches(cron, schedule, Some(prev), es, k, a)
    decreases |es|
  {
    if es[0].Polled? && a <= es[0].input.now {
      ActivationAfter(cron, schedule, activations, prev, a);
      k := 0;
    } else {
      assert es[j] == es[1..][j - 1];
      var later := if es[0].Polled? then es[0].input.now else prev;
      k := CloseCatches(cron, schedule, activations, later, es[1..], a, j - 1);
      CatchesRest(cron, schedule, Some(prev), es, k, a);
      k := k + 1;
    }
  }

  /**
   Every activation after `prev` that a later poll leaves behind has a run whose clock lies in the
   five minutes from the activation on.
   */
  lemma EverySlotIsCovered(cron: Cron, s: Site, es: seq<Happening>, schedule: string,
                           activations: iset<Time>, prev: Time, a: Time, j: nat)
    returns (k: nat)
    requires SiteInv(s) && CronContract(cron) && HasActivations(cron, schedule, activations)
    requires Life(cron, s, es) && SteadyLife(cron, s, es, schedule) && CloseTogether(prev, es)
    requires Slot(s) == NextAfter(cron, schedule, prev)
    requires a in activations && j < |es| && es[j].Polled? && prev < a <= es[j].input.now
    ensures k <= j && Covers(cron, s, es, k, a)
  {
    k := CloseCatches(cron, schedule, activations, prev, es, a, j);
    CloseAscends(prev, es);
    CoveredExactly(cron, s, es, schedule, activations, Some(prev), a, k);
  }

  /** An object without a next time is covered from its first poll on. */
  lemma EverySlotIsCoveredFromUnset(cron: Cron, s: Site, es: seq<Happening>, schedule: string,
                                    activations: iset<Time>, a: Time, j: nat)
    returns (k: nat)
    requires SiteInv(s) && CronContract(cron) && HasActivations(cron, schedule, activations)
    requires Life(cron, s, es) && SteadyLife(cron, s, es, schedule) && Slot(s).None?
    requires es != [] && es[0].Polled? && CloseTogether(es[0].input.now, es)
    requires a in activations && j < |es| && es[j].Polled? && es[0].input.now < a <= es[j].input.now
    ensures k <= j && Covers(cron, s, es, k, a)
  {
    var first := es[0].input.now;
    assert es[1..][j - 1] == es[j];
    k := CloseCatches(cron, schedule, activations, first, es[1..], a, j - 1);
    CatchesRest(cron, schedule, None, es, k, a);
    CloseAscends(first, es);
    k := k + 1;
    CoveredExactly(cron, s, es, schedule, activations, None, a, k);
  }

  /**
   For the stored slot itself: once it has come, the next steady poll runs it exactly if that poll is
   less than five minutes late, and in either case the stored slot moves on to the future.
   */
  lemma SlotIsLostIffPollIsLate(cron: Cron, s: Site, input: Input, schedule: string,
                                activations: iset<Time>, prev: Time)
    requires SiteInv(s) && CronContract(cron) && HasActivations(cron, schedule, activations)
    requires Steady(cron, s, input, schedule) && Slot(s) == NextAfter(cron, schedule, prev)
    requires prev <= input.now && Slot(s).Some? && Slot(s).value <= input.now
    ensures !Poll(cron, s, input).1.Ran? <==> input.now - Slot(s).value >= LOOK_BACK
    ensures Beyond(Poll(cron, s, input).0, input.now) && Slot(Poll(cron, s, input).0) != Slot(s)
  {
    SteadyPoll(cron, s, input, schedule, activations, prev);
  }
}
