/** Label requirements, and the two lists of them that the controller adds to its selectors. */
module Labels {
  import opened Basics

  type LabelMap = map<string, string>

  datatype Operator = In | NotIn | Exists | DoesNotExist

  datatype Requirement = Requirement(key: string, op: Operator, values: set<string>) {
    predicate Matches(labels: LabelMap) {
      match op
      case In => key in labels && labels[key] in values
      case NotIn => key !in labels || labels[key] !in values
      case Exists => key in labels
      case DoesNotExist => key !in labels
    }

    /** The set operators need values, the existence operators must not have any. */
    predicate WellFormed() {
      (op.In? || op.NotIn?) <==> values != {}
    }
  }

  predicate MatchesAll(requirements: seq<Requirement>, labels: LabelMap) {
    forall i :: 0 <= i < |requirements| ==> requirements[i].Matches(labels)
  }

  /** What a selector asks of labels: a value among those given, or not among them, a key, or no such key. */
  ghost predicate Selects(selector: seq<Requirement>, labels: LabelMap) {
    forall r :: r in selector ==>
      && (r.op.In? ==> r.key in labels && labels[r.key] in r.values)
      && (r.op.NotIn? ==> r.key in labels ==> labels[r.key] !in r.values)
      && (r.op.Exists? ==> r.key in labels)
      && (r.op.DoesNotExist? ==> r.key !in labels)
  }

  lemma SelectsExactly(selector: seq<Requirement>, labels: LabelMap)
    ensures MatchesAll(selector, labels) <==> Selects(selector, labels)
  {
    if MatchesAll(selector, labels) {
      forall r | r in selector
        ensures r.Matches(labels)
      {
        var i :| 0 <= i < |selector| && selector[i] == r;
      }
    }
    if Selects(selector, labels) {
      forall i | 0 <= i < |selector|
        ensures selector[i].Matches(labels)
      {
        assert selector[i] in selector;
      }
    }
  }

  /** Turning a label selector into requirements fails if one of its expressions is malformed. */
  function AsSelector(expressions: seq<Requirement>): Option<seq<Requirement>> {
    if forall i :: 0 <= i < |expressions| ==> expressions[i].WellFormed() then Some(expressions) else None
  }

  /** What a selector has to be like: values for every set operator, and none for the others. */
  ghost predicate Convertible(selector: seq<Requirement>) {
    forall r :: r in selector ==> ((r.op.In? || r.op.NotIn?) <==> r.values != {})
  }

  lemma SelectorConverts(selector: seq<Requirement>)
    ensures AsSelector(selector) == if Convertible(selector) then Some(selector) else None
  {
    if Convertible(selector) {
      forall i | 0 <= i < |selector|
        ensures selector[i].WellFormed()
      {
        assert selector[i] in selector;
      }
    }
  }

  const KEY_NODE_ROLE_CONTROL_PLANE := "node-role.kubernetes.io/control-plane"
  const KEY_NODE_ROLE_MASTER := "node-role.kubernetes.io/master"
  const KEY_KUBELET_UPGRADE_SKIP := "clusterop.isim.dev/skip"

  function ExcludedNodes(): seq<Requirement> {
    [Requirement(KEY_NODE_ROLE_CONTROL_PLANE, DoesNotExist, {}), Requirement(KEY_NODE_ROLE_MASTER, DoesNotExist, {})]
  }

  function ExcludedKubeletUpgrade(): seq<Requirement> {
    [Requirement(KEY_KUBELET_UPGRADE_SKIP, DoesNotExist, {})]
  }

  /** Adding the exclusions keeps out exactly the nodes with a control-plane or a master label. */
  lemma ExcludedNodesMeaning(selector: seq<Requirement>, labels: LabelMap)
    ensures MatchesAll(selector + ExcludedNodes(), labels) <==>
            && MatchesAll(selector, labels)
            && KEY_NODE_ROLE_CONTROL_PLANE !in labels && KEY_NODE_ROLE_MASTER !in labels
  {
    var all := selector + ExcludedNodes();
    assert all[|selector|] == ExcludedNodes()[0] && all[|selector| + 1] == ExcludedNodes()[1];
    assert forall i :: 0 <= i < |selector| ==> all[i] == selector[i];
  }
}
