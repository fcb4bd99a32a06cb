/**
 The API server, for one object: every version it has stored, oldest first. A version's number is
 its position, so a write that carries any but the last number is out of date and is rejected.
 The status subresource is on: a status write changes only the status, a main write all but it.
 */
module ApiServer {
  import opened Basics
  import opened Labels
  import opened KubeletUpgrade

  type History = seq<KubeletUpgrade>

  ghost predicate ValidHistory(h: History) {
    && h != []
    && forall i :: 0 <= i < |h| ==> h[i].version == i && h[i].name == h[0].name
  }

  function Current(h: History): KubeletUpgrade
    requires h != []
  {
    h[|h| - 1]
  }

  /** `o` is a copy of some stored version, perhaps an old one. */
  ghost predicate IsCopy(h: History, o: KubeletUpgrade) {
    o.version < |h| && h[o.version] == o
  }

  lemma CurrentIsCopy(h: History)
    requires ValidHistory(h)
    ensures IsCopy(h, Current(h))
  {
  }

  /** A change made by a user: labels and spec, never the status. */
  datatype Edit = Edit(labels: LabelMap, spec: Spec)

  datatype Fate = Delivered | ReplyLost | Unreachable

  /** What happens around one API call: edits that get in first, then the fate of the call. */
  datatype Weather = Weather(edits: seq<Edit>, fate: Fate)

  const CALM := Weather([], Delivered)

  datatype Resource = StatusResource | MainResource

  /** Storing identical content is a no-op. */
  function Put(h: History, o: KubeletUpgrade): History
    requires h != []
    ensures Put(h, o) != []
  {
    if o == Current(h) then h else h + [o.(version := |h|)]
  }

  function ApplyEdits(h: History, edits: seq<Edit>): History
    requires h != []
    ensures ApplyEdits(h, edits) != []
    decreases |edits|
  {
    if edits == [] then h
    else ApplyEdits(Put(h, Current(h).(labels := edits[0].labels, spec := edits[0].spec)), edits[1..])
  }

  function Write(h: History, resource: Resource, o: KubeletUpgrade): History
    requires h != []
    ensures Write(h, resource, o) != []
  {
    match resource
    case StatusResource => Put(h, Current(h).(status := o.status))
    case MainResource => Put(h, Current(h).(labels := o.labels, spec := o.spec))
  }

  predicate Accepts(h: History, w: Weather, o: KubeletUpgrade)
    requires h != []
  {
    !w.fate.Unreachable? && o.version == |ApplyEdits(h, w.edits)| - 1
  }

  /** One UpdateStatus or Update call. No object comes back if it failed or its reply was lost. */
  function Request(h: History, w: Weather, resource: Resource, o: KubeletUpgrade)
    : (r: (History, Option<KubeletUpgrade>))
    requires h != []
    ensures r.0 != []
  {
    var h1 := ApplyEdits(h, w.edits);
    if !Accepts(h, w, o) then (h1, None)
    else
      var h2 := Write(h1, resource, o);
      (h2, if w.fate.ReplyLost? then None else Some(Current(h2)))
  }

  lemma PutExtends(h: History, o: KubeletUpgrade)
    requires ValidHistory(h) && o.name == Current(h).name && o.version == Current(h).version
    ensures ValidHistory(Put(h, o)) && h <= Put(h, o)
    ensures Current(Put(h, o)) == o.(version := Current(Put(h, o)).version)
  {
  }

  /** Edits only add versions and never touch the status. */
  lemma {:induction false} EditsExtend(h: History, edits: seq<Edit>)
    requires ValidHistory(h)
    ensures ValidHistory(ApplyEdits(h, edits)) && h <= ApplyEdits(h, edits)
    ensures Current(ApplyEdits(h, edits)).status == Current(h).status
    decreases |edits|
  {
    if edits != [] {
      var o := Current(h).(labels := edits[0].labels, spec := edits[0].spec);
      PutExtends(h, o);
      EditsExtend(Put(h, o), edits[1..]);
    }
  }

  // ---- When a write gets through ----

  /** The edits put in again what `k` has already. */
  predicate Repeats(edits: seq<Edit>, k: KubeletUpgrade) {
    forall i :: 0 <= i < |edits| ==> edits[i].labels == k.labels && edits[i].spec == k.spec
  }

  /** A write of a current object reaches the store. */
  predicate Lands(w: Weather, k: KubeletUpgrade) {
    !w.fate.Unreachable? && Repeats(w.edits, k)
  }

  /** And its reply comes back. */
  predicate Answered(w: Weather, k: KubeletUpgrade) {
    w.fate.Delivered? && Repeats(w.edits, k)
  }

  /** Edits leave no trace exactly if each of them repeats what is stored. */
  lemma {:induction false} EditsLeaveNoTrace(h: History, edits: seq<Edit>)
    requires ValidHistory(h)
    ensures ApplyEdits(h, edits) == h <==> Repeats(edits, Current(h))
    decreases |edits|
  {
    if edits != [] {
      var o := Current(h).(labels := edits[0].labels, spec := edits[0].spec);
      PutExtends(h, o);
      if o == Current(h) {
        EditsLeaveNoTrace(h, edits[1..]);
        assert Repeats(edits, Current(h)) <==> Repeats(edits[1..], Current(h)) by {
          assert edits == [edits[0]] + edits[1..];
        }
      } else {
        EditsExtend(Put(h, o), edits[1..]);
      }
    }
  }

  /** A write derived from the copy `base` is accepted exactly if that copy is current and it lands. */
  lemma AcceptsExactly(h: History, w: Weather, o: KubeletUpgrade, base: KubeletUpgrade)
    requires ValidHistory(h) && IsCopy(h, base) && o.version == base.version
    ensures Accepts(h, w, o) <==> base == Current(h) && Lands(w, base)
  {
    EditsExtend(h, w.edits);
    EditsLeaveNoTrace(h, w.edits);
  }

  /** An accepted write stores exactly its part of the object. */
  lemma WriteEffect(h: History, resource: Resource, o: KubeletUpgrade)
    requires ValidHistory(h)
    ensures ValidHistory(Write(h, resource, o)) && h <= Write(h, resource, o)
    ensures
      var before, after := Current(h), Current(Write(h, resource, o));
      && (resource.StatusResource? ==> after == before.(status := o.status, version := after.version))
      && (resource.MainResource? ==> after == before.(labels := o.labels, spec := o.spec, version := after.version))
  {
    match resource
    case StatusResource => PutExtends(h, Current(h).(status := o.status));
    case MainResource => PutExtends(h, Current(h).(labels := o.labels, spec := o.spec));
  }

  /**
   A write derived from a copy `base` gets through exactly if that copy is current and no edit that
   comes first changes anything; then the store holds exactly the written part. Otherwise only the
   edits are seen.
   */
  lemma RequestEffect(h: History, w: Weather, resource: Resource, o: KubeletUpgrade, base: KubeletUpgrade)
    requires ValidHistory(h) && IsCopy(h, base) && o.version == base.version
    ensures
      var (h', reply) := Request(h, w, resource, o);
      && ValidHistory(h') && h <= h'
      && (Accepts(h, w, o) <==> base == Current(h) && Lands(w, base))
      && (reply.Some? <==> base == Current(h) && Answered(w, base))
      && (reply.Some? ==> reply.value == Current(h'))
      && (!Accepts(h, w, o) ==> h' == ApplyEdits(h, w.edits) && Current(h').status == Current(h).status)
      && (Accepts(h, w, o) ==>
           && ApplyEdits(h, w.edits) == h && h' == Write(h, resource, o)
           && (resource.StatusResource? ==>
                Current(h') == base.(status := o.status, version := Current(h').version))
           && (resource.MainResource? ==>
                Current(h') == base.(labels := o.labels, spec := o.spec, version := Current(h').version)))
  {
    AcceptsExactly(h, w, o, base);
    EditsExtend(h, w.edits);
    EditsLeaveNoTrace(h, w.edits);
    WriteEffect(h, resource, o);
  }
}
