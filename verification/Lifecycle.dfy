/**
 The life of one upgrade: polls that may be handed any old copy, users' edits, other actors'
 cordons, crashes and restarts, in any order. Polls are serialized and the clock does not go back.
 */
module Lifecycle {
  import opened Basics
  import opened KubeletUpgrade
  import opened ApiServer
  import opened WorkQueue
  import opened Polling
  import opened PollEffects

  datatype Happening =
    | Polled(input: Input)
    | Edited(edit: Edit)
    | Recordoned(nodes: set<Key>)   // other upgrades and administrators
    | Killed                        // the process dies between two polls
    | Restarted                     // a new process: fresh queues

  ghost predicate Possible(cron: Cron, s: Site, e: Happening)
    requires s.history != []
  {
    match e
    case Polled(input) => !s.crashed && IsCopy(s.history, input.copy) && EventsFit(cron, s, input)
    case Killed => !s.crashed
    case Restarted => s.crashed
    case _ => true
  }

  function After(cron: Cron, s: Site, e: Happening): (s': Site)
    requires s.history != [] && Possible(cron, s, e)
    ensures s'.history != []
  {
    match e
    case Polled(input) => Poll(cron, s, input).0
    case Edited(edit) => s.(history := ApplyEdits(s.history, [edit]))
    case Recordoned(nodes) => s.(cordoned := nodes)
    case Killed => Crash(s)
    case Restarted => s.(queue := EMPTY, crashed := false)
  }

  lemma StepKeepsSite(cron: Cron, s: Site, e: Happening)
    requires SiteInv(s) && CronContract(cron) && Possible(cron, s, e)
    ensures SiteInv(After(cron, s, e)) && s.history <= After(cron, s, e).history
  {
    match e
    case Polled(input) => PollEffect(cron, s, input);
    case Edited(edit) => EditsExtend(s.history, [edit]);
    case _ =>
  }

  ghost predicate Life(cron: Cron, s: Site, es: seq<Happening>)
    requires SiteInv(s) && CronContract(cron)
    decreases |es|
  {
    es == [] ||
    (Possible(cron, s, es[0]) && (StepKeepsSite(cron, s, es[0]); Life(cron, After(cron, s, es[0]), es[1..])))
  }

  ghost function End(cron: Cron, s: Site, es: seq<Happening>): (s': Site)
    requires SiteInv(s) && CronContract(cron) && Life(cron, s, es)
    ensures SiteInv(s') && s.history <= s'.history
    decreases |es|
  {
    if es == [] then s
    else StepKeepsSite(cron, s, es[0]); End(cron, After(cron, s, es[0]), es[1..])
  }

  /** The state the k-th happening finds. */
  ghost function StateAt(cron: Cron, s: Site, es: seq<Happening>, k: nat): (s': Site)
    requires SiteInv(s) && CronContract(cron) && Life(cron, s, es) && k < |es|
    ensures SiteInv(s') && Possible(cron, s', es[k])
    decreases |es|
  {
    if k == 0 then s
    else StepKeepsSite(cron, s, es[0]); StateAt(cron, After(cron, s, es[0]), es[1..], k - 1)
  }

  /** Each poll starts no earlier than the one before it ended, and no poll starts before `t`. */
  predicate ClockFrom(t: Time, es: seq<Happening>)
    decreases |es|
  {
    es == [] ||
    (if es[0].Polled? then t <= es[0].input.now <= es[0].input.end && ClockFrom(es[0].input.end, es[1..])
     else ClockFrom(t, es[1..]))
  }

  // ---- No slot runs twice ----

  function Slot(s: Site): Option<Time>
    requires s.history != []
  {
    Current(s.history).status.next
  }

  /** The stored slot is unset or still ahead of `t`. */
  predicate Beyond(s: Site, t: Time)
    requires s.history != []
  {
    Slot(s).None? || Slot(s).value > t
  }

  lemma StepStaysBeyond(cron: Cron, s: Site, e: Happening, t: Time)
    requires SiteInv(s) && CronContract(cron) && Possible(cron, s, e) && Beyond(s, t)
    requires e.Polled? ==> t <= e.input.now
    ensures Beyond(After(cron, s, e), t)
  {
    match e
    case Polled(input) => PollEffect(cron, s, input);
    case Edited(edit) => EditsExtend(s.history, [edit]);
    case _ =>
  }

  lemma {:induction false} ClockWeaken(t: Time, u: Time, es: seq<Happening>)
    requires ClockFrom(u, es) && t <= u
    ensures ClockFrom(t, es)
    decreases |es|
  {
    if es != [] && !es[0].Polled? {
      ClockWeaken(t, u, es[1..]);
    }
  }

  lemma ClockLater(t: Time, es: seq<Happening>)
    requires ClockFrom(t, es) && es != []
    ensures ClockFrom(t, es[1..])
  {
    if es[0].Polled? {
      ClockWeaken(t, es[0].input.end, es[1..]);
    }
  }

  /** A slot that lies ahead of an instant is never replaced by one that does not. */
  lemma {:induction false} LifeStaysBeyond(cron: Cron, s: Site, es: seq<Happening>, t: Time)
    requires SiteInv(s) && CronContract(cron) && Life(cron, s, es) && ClockFrom(t, es) && Beyond(s, t)
    ensures Beyond(End(cron, s, es), t)
    decreases |es|
  {
    if es != [] {
      StepKeepsSite(cron, s, es[0]);
      StepStaysBeyond(cron, s, es[0], t);
      ClockLater(t, es);
      LifeStaysBeyond(cron, After(cron, s, es[0]), es[1..], t);
    }
  }

  /** The poll recorded a start in the store. */
  predicate RecordsStart(cron: Cron, s: Site, input: Input)
    requires s.history != [] && EventsFit(cron, s, input)
  {
    Current(Poll(cron, s, input).0.history).status.conditions != Current(s.history).status.conditions
  }

  /** Once the stored slot is ahead of `t`, any later start on record is for a due slot after `t`. */
  lemma LaterStartsAreLater(cron: Cron, s: Site, es: seq<Happening>, last: Input, t: Time)
    requires SiteInv(s) && CronContract(cron) && Beyond(s, t) && Life(cron, s, es)
    requires Possible(cron, End(cron, s, es), Polled(last)) && ClockFrom(t, es)
    ensures
      var mid := End(cron, s, es);
      RecordsStart(cron, mid, last) ==>
           && Slot(mid).Some? && t < Slot(mid).value <= last.now <= Slot(mid).value + LOOK_BACK
           && (!cron(Current(mid.history).spec.schedule, last.now).Unparsable? ==>
                last.now < Slot(mid).value + LOOK_BACK)
  {
    LifeStaysBeyond(cron, s, es, t);
    PollEffect(cron, End(cron, s, es), last);
  }

  lemma {:induction false} ClockSplit(t: Time, es: seq<Happening>, fs: seq<Happening>)
    requires ClockFrom(t, es + fs)
    ensures ClockFrom(t, es) && ClockFrom(t, fs)
    decreases |es|
  {
    if es == [] {
      assert es + fs == fs;
    } else {
      assert (es + fs)[0] == es[0] && (es + fs)[1..] == es[1..] + fs;
      if es[0].Polled? {
        ClockSplit(es[0].input.end, es[1..], fs);
        ClockWeaken(t, es[0].input.end, fs);
      } else {
        ClockSplit(t, es[1..], fs);
      }
    }
  }

  /**
   If the new next time of a run reached the store, and its schedule parses, then every later start
   on record belongs to a strictly later slot: N1 <= t1 < N2 <= t2 < N2 + 5min. Old copies, failed
   writes, edits, crashes and restarts in between make no difference.
   */
  lemma NoSlotRunsTwice(cron: Cron, s: Site, first: Input, es: seq<Happening>, last: Input)
    requires SiteInv(s) && CronContract(cron)
    requires Possible(cron, s, Polled(first)) && SiteInv(After(cron, s, Polled(first)))
    requires Life(cron, After(cron, s, Polled(first)), es)
    requires Possible(cron, End(cron, After(cron, s, Polled(first)), es), Polled(last))
    requires first.now <= first.end && ClockFrom(first.end, es + [Polled(last)])
    requires !cron(Current(s.history).spec.schedule, first.now).Unparsable?
    requires Poll(cron, s, first).1.Ran? && Lands(first.calls.reschedule, first.copy)
    ensures
      var mid := End(cron, After(cron, s, Polled(first)), es);
      RecordsStart(cron, mid, last) ==>
           && Slot(s).Some? && Slot(mid).Some?
           && Slot(s).value <= first.now < Slot(mid).value <= last.now <= Slot(mid).value + LOOK_BACK
           && (!cron(Current(mid.history).spec.schedule, last.now).Unparsable? ==>
                last.now < Slot(mid).value + LOOK_BACK)
  {
    PollEffect(cron, s, first);
    var s1 := After(cron, s, Polled(first));
    assert Beyond(s1, first.now);
    ClockSplit(first.end, es, [Polled(last)]);
    ClockWeaken(first.now, first.end, es);
    LaterStartsAreLater(cron, s1, es, last, first.now);
  }

  lemma LifeOfOne(cron: Cron, s: Site, e: Happening)
    requires SiteInv(s) && CronContract(cron) && Possible(cron, s, e)
    ensures Life(cron, s, [e]) && End(cron, s, [e]) == After(cron, s, e)
  {
    StepKeepsSite(cron, s, e);
    var s1, one := After(cron, s, e), [e];
    assert one[1..] == [];
    assert Life(cron, s1, one[1..]);
    assert End(cron, s, one) == End(cron, s1, one[1..]);
  }

  lemma FirstOfConcat(es: seq<Happening>, fs: seq<Happening>)
    requires es != []
    ensures es + fs == [es[0]] + (es[1..] + fs)
  {
  }

  lemma LifePrepend(cron: Cron, s: Site, e: Happening, rest: seq<Happening>)
    requires SiteInv(s) && CronContract(cron) && Possible(cron, s, e)
    requires SiteInv(After(cron, s, e)) && Life(cron, After(cron, s, e), rest)
    ensures Life(cron, s, [e] + rest) && End(cron, s, [e] + rest) == End(cron, After(cron, s, e), rest)
  {
    assert ([e] + rest)[0] == e && ([e] + rest)[1..] == rest;
  }

  lemma {:induction false} LifeConcat(cron: Cron, s: Site, es: seq<Happening>, fs: seq<Happening>)
    requires SiteInv(s) && CronContract(cron) && Life(cron, s, es) && Life(cron, End(cron, s, es), fs)
    ensures Life(cron, s, es + fs) && End(cron, s, es + fs) == End(cron, End(cron, s, es), fs)
    decreases |es|
  {
    if es == [] {
      assert es + fs == fs;
    } else {
      FirstOfConcat(es, fs);
      StepKeepsSite(cron, s, es[0]);
      LifeConcat(cron, After(cron, s, es[0]), es[1..], fs);
      LifePrepend(cron, s, es[0], es[1..] + fs);
    }
  }
}
