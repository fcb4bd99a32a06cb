/**
 The KubeletUpgrade object in memory: a struct whose label map and condition slice live elsewhere,
 so that copying the struct alone shares both. The three methods below have no modifies clause:
 nothing that existed before the call is written, and all they return is fresh.
 */
module DeepCopy {
  import opened Basics
  import opened Labels
  import opened KubeletUpgrade
  import UpgradeRun

  /** A Go map: a nil map is null. */
  class LabelTable {
    var entries: LabelMap

    constructor (entries: LabelMap)
      ensures this.entries == entries
    {
      this.entries := entries;
    }
  }

  class Upgrade {
    var name: string
    var version: nat
    var labels: LabelTable?
    // The spec: its selector is a slice too, to which nothing is ever appended.
    var maxUnavailable: int
    var schedule: string
    var selector: array?<Requirement>
    // The condition slice: its backing array, whose length is the capacity, and its own length.
    var conditions: array?<Condition>
    var length: nat
    var next: Option<Time>

    ghost predicate Valid()
      reads this
    {
      if conditions == null then length == 0 else length <= conditions.Length
    }

    /** The object as a value. */
    ghost function Value(): KubeletUpgrade
      requires Valid()
      reads this, labels, selector, conditions
    {
      KubeletUpgrade(name, version, if labels == null then map[] else labels.entries,
                     Spec(maxUnavailable, schedule, if selector == null then [] else selector[..]),
                     Status(if conditions == null then [] else conditions[..length], next))
    }

    /** Assigning one struct to another: the label map and both backing arrays are shared. */
    constructor Shallow(k: Upgrade)
      requires k.Valid()
      ensures labels == k.labels && selector == k.selector && conditions == k.conditions && length == k.length
      ensures name == k.name && version == k.version && next == k.next
      ensures maxUnavailable == k.maxUnavailable && schedule == k.schedule
      ensures Valid() && Value() == k.Value()
    {
      name, version, labels := k.name, k.version, k.labels;
      maxUnavailable, schedule, selector := k.maxUnavailable, k.schedule, k.selector;
      conditions, length, next := k.conditions, k.length, k.next;
    }

    /** The objects whose contents this one's value depends on. */
    ghost function Reach(): set<object>
      reads this
    {
      {this} + (if labels == null then {} else {labels}) + (if selector == null then {} else {selector}) +
      (if conditions == null then {} else {conditions})
    }

    /** The spec with a selector of its own. */
    method SpecDeepCopyInto(out: Upgrade)
      requires out != this
      modifies out`maxUnavailable, out`schedule, out`selector
      ensures out.maxUnavailable == maxUnavailable && out.schedule == schedule
      ensures out.selector == null <==> selector == null
      ensures selector != null ==> fresh(out.selector) && out.selector[..] == selector[..]
    {
      out.maxUnavailable, out.schedule, out.selector := maxUnavailable, schedule, selector;
      if selector != null {
        var copy := new Requirement[selector.Length](_ => Requirement("", Exists, {}));
        for i := 0 to selector.Length
          invariant copy[..i] == selector[..i]
          modifies copy
        {
          copy[i] := selector[i];
        }
        assert copy[..selector.Length] == copy[..] && selector[..selector.Length] == selector[..];
        out.selector := copy;
      }
    }

    /** The status with a backing array of its own, without spare capacity. */
    method StatusDeepCopyInto(out: Upgrade)
      requires Valid() && out != this
      modifies out`conditions, out`length, out`next
      ensures out.length == length && out.next == next
      ensures out.conditions == null <==> conditions == null
      ensures conditions != null ==>
                fresh(out.conditions) && out.conditions.Length == length && out.conditions[..] == conditions[..length]
    {
      out.conditions, out.length, out.next := conditions, length, next;
      if conditions != null {
        var copy := new Condition[length](_ => StartedCondition(0));
        for i := 0 to length
          invariant copy[..i] == conditions[..i]
          modifies copy
        {
          copy[i] := conditions[i];
        }
        assert copy[..length] == copy[..];
        out.conditions := copy;
      }
    }

    method DeepCopyInto(out: Upgrade)
      requires Valid() && out != this
      modifies out
      ensures out.Valid() && out.Value() == Value()
      ensures (out.labels == null <==> labels == null) && (out.selector == null <==> selector == null)
      ensures out.conditions == null <==> conditions == null
      ensures out.labels != null ==> fresh(out.labels)
      ensures out.selector != null ==> fresh(out.selector)
      ensures out.conditions != null ==> fresh(out.conditions) && out.conditions.Length == out.length
    {
      out.name, out.version, out.labels := name, version, labels;
      if labels != null {
        out.labels := new LabelTable(labels.entries);
      }
      SpecDeepCopyInto(out);
      StatusDeepCopyInto(out);
    }

    method DeepCopy() returns (out: Upgrade)
      requires Valid()
      ensures out.Valid() && out.Value() == Value() && fresh(out.Reach())
      ensures (out.labels == null <==> labels == null)
      ensures out.conditions != null ==> out.conditions.Length == out.length
    {
      out := new Upgrade.Shallow(this);
      DeepCopyInto(out);
    }

    /** A larger backing array, with the old contents and one condition more. */
    static method Grown(full: array<Condition>, c: Condition) returns (grown: array<Condition>)
      ensures fresh(grown) && grown.Length > full.Length && grown[..full.Length + 1] == full[..] + [c]
    {
      grown := new Condition[2 * full.Length + 1](_ => c);
      for i := 0 to full.Length
        invariant grown[..i] == full[..i] && grown[full.Length] == c
        modifies grown
      {
        grown[i] := full[i];
      }
      assert full[..full.Length] == full[..];
    }

    /** append: in place while there is spare capacity, otherwise into a new backing array. */
    method AppendCondition(c: Condition)
      requires Valid()
      modifies this`conditions, this`length, conditions
      ensures Valid() && Value() == old(Value()).WithCondition(c)
      ensures conditions != null && (conditions == old(conditions) || fresh(conditions))
      ensures conditions == old(conditions) <==> old(conditions) != null && old(length < conditions.Length)
    {
      if conditions != null && length < conditions.Length {
        conditions[length] := c;
        length := length + 1;
      } else if conditions == null {
        conditions, length := new Condition[1](_ => c), 1;
      } else {
        conditions := Grown(conditions, c);
        length := length + 1;
      }
    }

    /** Set the key of every exclusion requirement, allocating the map if it is nil. */
    method AddSkipLabel()
      requires Valid()
      modifies this`labels, labels
      ensures Valid() && labels != null && (labels == old(labels) || fresh(labels))
      ensures Value() == old(Value()).(labels := old(Value().labels)[KEY_KUBELET_UPGRADE_SKIP := "true"])
    {
      if labels == null {
        labels := new LabelTable(map[]);
      }
      var requirements := ExcludedKubeletUpgrade();
      ghost var before := labels.entries;
      for i := 0 to |requirements|
        invariant labels.entries == if i == 0 then before else before[KEY_KUBELET_UPGRADE_SKIP := "true"]
        modifies labels
      {
        labels.entries := labels.entries[requirements[i].key := "true"];
      }
    }

    /** Delete the key of every exclusion requirement; a nil map stays nil. */
    method RemoveSkipLabel()
      requires Valid()
      modifies labels
      ensures Valid() && Value() == old(Value()).(labels := old(Value().labels) - {KEY_KUBELET_UPGRADE_SKIP})
    {
      if labels != null {
        var requirements := ExcludedKubeletUpgrade();
        ghost var before := labels.entries;
        for i := 0 to |requirements|
          invariant labels.entries == if i == 0 then before else before - {KEY_KUBELET_UPGRADE_SKIP}
          modifies labels
        {
          labels.entries := labels.entries - {requirements[i].key};
        }
      }
    }

    // The methods of types.go. Each is called on a copy of the struct that shares the map and the slices.

    method CloneOfReceiver() returns (cloned: Upgrade)
      requires Valid()
      ensures cloned.Valid() && cloned.Value() == Value() && fresh(cloned.Reach())
    {
      var k := new Upgrade.Shallow(this);
      cloned := k.DeepCopy();
    }

    method UpdateNextScheduledTime(cron: Cron, now: Time) returns (cloned: Upgrade)
      requires Valid()
      ensures cloned.Valid() && fresh(cloned.Reach())
      ensures cloned.Value() == Value().UpdateNextScheduledTime(cron, now)
    {
      cloned := CloneOfReceiver();
      match cron(cloned.schedule, now) {
        case Unparsable => return;
        case Never => cloned.next := None;
        case Next(t) => cloned.next := Some(t);
      }
    }

    method RecordUpgradeStarted(now: Time) returns (cloned: Upgrade)
      requires Valid()
      ensures cloned.Valid() && fresh(cloned.Reach())
      ensures cloned.Value() == Value().RecordUpgradeStarted(now)
    {
      cloned := CloneOfReceiver();
      cloned.AddSkipLabel();
      cloned.AppendCondition(StartedCondition(now));
    }

    method RecordUpgradeCompleted(errs: seq<UpgradeRun.Report>, now: Time) returns (cloned: Upgrade)
      requires Valid()
      ensures cloned.Valid() && fresh(cloned.Reach())
      ensures cloned.Value() == Value().RecordUpgradeCompleted(errs, now)
    {
      cloned := CloneOfReceiver();
      cloned.RemoveSkipLabel();
      cloned.AppendCondition(CompletedCondition(errs, now));
    }
  }

  /** In memory too: started then completed, and the object they were called on is as it was. */
  method StartedThenCompletedInMemory(k: Upgrade, errs: seq<UpgradeRun.Report>, start: Time, end: Time)
    returns (done: Upgrade)
    requires k.Valid()
    ensures k.Value() == old(k.Value())
    ensures done.Valid() && fresh(done.Reach())
    ensures done.Value().labels == k.Value().labels - {KEY_KUBELET_UPGRADE_SKIP}
    ensures
      var (was, now) := (k.Value().status.conditions, done.Value().status.conditions);
      && |now| == |was| + 2 && now[..|was|] == was
      && now[|was|] == Condition(start, Text("started kubelet upgrade"), "", StatusStarted, TypeUpgradeStarted)
      && now[|was| + 1] ==
         (if errs == [] then
            Condition(end, Text("completed kubelet upgrade"), "", StatusCompleted, TypeUpgradeCompleted)
          else Condition(end, Errors(errs), "", StatusFailed, TypeUpgradeCompleted))
    ensures done.Value().spec == k.Value().spec && done.Value().status.next == k.Value().status.next
  {
    var started := k.RecordUpgradeStarted(start);
    done := started.RecordUpgradeCompleted(errs, end);
    StartedThenCompleted(k.Value(), errs, start, end);
  }

  /**
   Why the deep copy is needed: appending to a mere struct copy of an object whose slice has spare
   capacity writes into the original's backing array.
   */
  method ShallowAppendWritesOriginal(k: Upgrade, c: Condition)
    requires k.Valid() && k.conditions != null && k.length < k.conditions.Length
    modifies k.conditions
    ensures k.conditions[k.length] == c
  {
    var shared := new Upgrade.Shallow(k);
    shared.AppendCondition(c);
    assert shared.conditions[..shared.length][k.length] == c;
  }
}
