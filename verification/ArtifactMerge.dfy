/** Merging remote and local observations of artifacts (merge_artifacts in src/services/artifacts.py). */
module ArtifactMerge {
  import opened Common

  datatype State = Remote | Local | Queued | Empty | Failed

  datatype Kind = Image | Video | Audio | File | Report | Webpage | Data

  datatype Artifact = Artifact(
    id: string,
    kind: Kind,
    state: State,
    title: Option<string>,
    uri: Option<string>,
    localPath: Option<string>,
    mimeType: Option<string>,
    sizeBytes: Option<int>,
    width: Option<int>,
    height: Option<int>,
    duration: Option<real>,
    sourceChat: Option<string>,
    requestedBackend: Option<string>,
    requestModel: Option<string>,
    effectiveBackend: Option<string>,
    observedBackend: Option<string>,
    verification: string)

  function Rank(s: State): nat {
    match s
    case Failed => 0
    case Empty => 0
    case Queued => 1
    case Remote => 2
    case Local => 3
  }

  /** Python's `a or b` on an optional string: "" gives way like None. */
  function OrText(a: Option<string>, b: Option<string>): Option<string> {
    if a.Some? && a.value != "" then a else b
  }

  function OrInt(a: Option<int>, b: Option<int>): Option<int> {
    if a.Some? && a.value != 0 then a else b
  }

  function OrReal(a: Option<real>, b: Option<real>): Option<real> {
    if a.Some? && a.value != 0.0 then a else b
  }

  function Complete(prefer: Artifact, other: Artifact): Artifact {
    var usable := !other.state.Failed?;
    prefer.(
      title := OrText(prefer.title, other.title),
      uri := OrText(prefer.uri, other.uri),
      localPath := OrText(prefer.localPath, if other.state.Local? then other.localPath else None),
      mimeType := OrText(prefer.mimeType, if usable then other.mimeType else None),
      sizeBytes := OrInt(prefer.sizeBytes, if usable then other.sizeBytes else None),
      width := OrInt(prefer.width, if usable then other.width else None),
      height := OrInt(prefer.height, if usable then other.height else None),
      duration := OrReal(prefer.duration, if usable then other.duration else None),
      sourceChat := OrText(prefer.sourceChat, other.sourceChat),
      requestedBackend := OrText(prefer.requestedBackend, other.requestedBackend),
      requestModel := OrText(prefer.requestModel, other.requestModel),
      effectiveBackend := OrText(prefer.effectiveBackend, other.effectiveBackend),
      observedBackend := OrText(prefer.observedBackend, other.observedBackend))
  }

  function Join(current: Artifact, newer: Artifact): (joined: Artifact)
    ensures joined.id == current.id || joined.id == newer.id
  {
    if Rank(newer.state) >= Rank(current.state) then Complete(newer, current) else Complete(current, newer)
  }

  /** `newer` joined into the entry of its id, or put at the end if it is the first of its id. */
  function Add(merged: seq<Artifact>, newer: Artifact): seq<Artifact> {
    if merged == [] then [newer]
    else if merged[0].id == newer.id then [Join(merged[0], newer)] + merged[1..]
    else [merged[0]] + Add(merged[1..], newer)
  }

  function AddAll(merged: seq<Artifact>, more: seq<Artifact>): seq<Artifact>
    decreases |more|
  {
    if more == [] then merged else AddAll(Add(merged, more[0]), more[1..])
  }

  function Merged(items: seq<Artifact>): seq<Artifact> {
    AddAll([], items)
  }

  function Flatten(groups: seq<seq<Artifact>>): seq<Artifact>
    decreases |groups|
  {
    if groups == [] then [] else Flatten(groups[..|groups| - 1]) + groups[|groups| - 1]
  }

  // ---------------------------------------------------------------- the loop over a dictionary and an order

  /** The dictionary read in the order its ids were first seen. */
  function Listed(table: map<string, Artifact>, order: seq<string>): seq<Artifact>
    requires forall k :: 0 <= k < |order| ==> order[k] in table
  {
    seq(|order|, k requires 0 <= k < |order| => table[order[k]])
  }

  ghost predicate Indexed(table: map<string, Artifact>, order: seq<string>) {
    && (forall id :: id in table <==> id in order)
    && (forall k :: 0 <= k < |order| ==> order[k] in table && table[order[k]].id == order[k])
    && (forall i, j :: 0 <= i < j < |order| ==> order[i] != order[j])
  }

  lemma {:induction false} AddListed(table: map<string, Artifact>, order: seq<string>, newer: Artifact, done: seq<Artifact>)
    requires Indexed(table, order) && done <= Listed(table, order)
    requires forall k :: 0 <= k < |done| ==> order[k] != newer.id
    ensures newer.id !in table ==> Add(Listed(table, order)[|done|..], newer) == Listed(table, order)[|done|..] + [newer]
    ensures newer.id in table ==>
              Add(Listed(table, order)[|done|..], newer)
              == Listed(table[newer.id := Join(table[newer.id], newer)], order)[|done|..]
    decreases |order| - |done|
  {
    var all := Listed(table, order);
    if |done| < |order| {
      assert all[|done|..] == [all[|done|]] + all[|done| + 1..];
      if order[|done|] == newer.id {
        ListedElsewhere(table, order, Join(table[newer.id], newer), |done|);
      } else {
        AddListed(table, order, newer, all[..|done| + 1]);
        if newer.id in table {
          var after := Listed(table[newer.id := Join(table[newer.id], newer)], order);
          assert after[|done|..] == [all[|done|]] + after[|done| + 1..];
        }
      }
    }
  }

  lemma ListedElsewhere(table: map<string, Artifact>, order: seq<string>, joined: Artifact, n: nat)
    requires Indexed(table, order) && n < |order|
    ensures Listed(table[order[n] := joined], order)[n..] == [joined] + Listed(table, order)[n + 1..]
  {
    assert forall k :: n < k < |order| ==> order[k] != order[n];
  }

  lemma {:induction false} AddAllAppend(merged: seq<Artifact>, more: seq<Artifact>, last: Artifact)
    ensures AddAll(merged, more + [last]) == Add(AddAll(merged, more), last)
    decreases |more|
  {
    if more == [] {
      assert (more + [last])[1..] == [];
    } else {
      assert (more + [last])[1..] == more[1..] + [last];
      AddAllAppend(Add(merged, more[0]), more[1..], last);
    }
  }

  method MergeArtifacts(groups: seq<seq<Artifact>>) returns (result: seq<Artifact>)
    ensures result == Merged(Flatten(groups))
  {
    var table: map<string, Artifact> := map[];
    var order: seq<string> := [];
    ghost var seen: seq<Artifact> := [];
    for g := 0 to |groups|
      invariant seen == Flatten(groups[..g])
      invariant Indexed(table, order) && Listed(table, order) == Merged(seen)
    {
      for i := 0 to |groups[g]|
        invariant seen == Flatten(groups[..g]) + groups[g][..i]
        invariant Indexed(table, order) && Listed(table, order) == Merged(seen)
      {
        table, order := Observe(table, order, groups[g][i], seen);
        seen := seen + [groups[g][i]];
      }
      assert groups[g][..|groups[g]|] == groups[g];
      assert groups[..g + 1][..g] == groups[..g];
    }
    assert groups[..|groups|] == groups;
    result := seq(|order|, k requires 0 <= k < |order| => table[order[k]]);
  }

  method Observe(table: map<string, Artifact>, order: seq<string>, newer: Artifact, ghost seen: seq<Artifact>)
    returns (table': map<string, Artifact>, order': seq<string>)
    requires Indexed(table, order) && Listed(table, order) == Merged(seen)
    ensures Indexed(table', order') && Listed(table', order') == Merged(seen + [newer])
  {
    AddListed(table, order, newer, []);
    AddAllAppend([], seen, newer);
    assert Listed(table, order)[0..] == Listed(table, order);
    table', order' := table, order;
    if newer.id !in table {
      table' := table[newer.id := newer];
      order' := order + [newer.id];
      assert Listed(table', order') == Listed(table, order) + [newer];
    } else {
      var current := table[newer.id];
      var prefer := if Rank(newer.state) >= Rank(current.state) then newer else current;
      var other := if Rank(newer.state) >= Rank(current.state) then current else newer;
      table' := table[newer.id := Complete(prefer, other)];
      assert Listed(table', order)[0..] == Listed(table', order);
    }
  }

  // ---------------------------------------------------------------- identities and their order

  function Ids(items: seq<Artifact>): (ids: seq<string>)
    ensures |ids| == |items| && forall k :: 0 <= k < |items| ==> ids[k] == items[k].id
  {
    seq(|items|, k requires 0 <= k < |items| => items[k].id)
  }

  /** The ids of `items` without repetitions, each where it was first seen. */
  function FirstSeen(items: seq<Artifact>): seq<string>
    decreases |items|
  {
    if items == [] then []
    else
      var before, id := FirstSeen(items[..|items| - 1]), items[|items| - 1].id;
      if id in before then before else before + [id]
  }

  predicate Distinct(ids: seq<string>) {
    forall i, j :: 0 <= i < j < |ids| ==> ids[i] != ids[j]
  }

  lemma {:induction false} AddIds(merged: seq<Artifact>, newer: Artifact)
    ensures Ids(Add(merged, newer)) == if newer.id in Ids(merged) then Ids(merged) else Ids(merged) + [newer.id]
  {
    if merged != [] {
      assert Ids(merged) == [merged[0].id] + Ids(merged[1..]);
      if merged[0].id != newer.id {
        AddIds(merged[1..], newer);
        assert Ids(Add(merged, newer)) == [merged[0].id] + Ids(Add(merged[1..], newer));
      } else {
        assert Ids(Add(merged, newer)) == [merged[0].id] + Ids(merged[1..]);
      }
    }
  }

  /** The merged artifacts have distinct ids, in the order the inputs showed them first. */
  lemma {:induction false} MergedInFirstSeenOrder(items: seq<Artifact>)
    ensures Ids(Merged(items)) == FirstSeen(items)
    ensures Distinct(Ids(Merged(items)))
    decreases |items|
  {
    if items != [] {
      var less := items[..|items| - 1];
      MergedInFirstSeenOrder(less);
      assert items == less + [items[|items| - 1]];
      AddAllAppend([], less, items[|items| - 1]);
      AddIds(Merged(less), items[|items| - 1]);
    }
  }

  // ---------------------------------------------------------------- one id at a time

  function Of(items: seq<Artifact>, id: string): seq<Artifact>
    decreases |items|
  {
    if items == [] then []
    else Of(items[..|items| - 1], id) + (if items[|items| - 1].id == id then [items[|items| - 1]] else [])
  }

  function Joined(same: seq<Artifact>): Artifact
    requires same != []
    decreases |same|
  {
    if |same| == 1 then same[0] else Join(Joined(same[..|same| - 1]), same[|same| - 1])
  }

  lemma {:induction false} AtMostOne(merged: seq<Artifact>, id: string)
    requires Distinct(Ids(merged))
    ensures |Of(merged, id)| <= 1
    decreases |merged|
  {
    if merged != [] {
      OfFront(merged, id);
      assert Ids(merged[1..]) == Ids(merged)[1..];
      AtMostOne(merged[1..], id);
      if merged[0].id == id { NotAmong(merged[1..], id); }
    }
  }

  function JoinInto(found: seq<Artifact>, newer: Artifact): seq<Artifact> {
    if found == [] then [newer] else [Join(found[0], newer)]
  }

  lemma {:induction false} AddFinds(merged: seq<Artifact>, newer: Artifact, id: string)
    requires Distinct(Ids(merged))
    ensures Of(Add(merged, newer), id) == if id != newer.id then Of(merged, id) else JoinInto(Of(merged, id), newer)
  {
    if merged == [] {
      OfFront([newer], id);
    } else {
      OfFront(merged, id);
      assert Ids(merged[1..]) == Ids(merged)[1..];
      if merged[0].id == newer.id {
        NotAmong(merged[1..], newer.id);
        FrontFinds(Join(merged[0], newer), merged[1..], id);
      } else {
        AddFinds(merged[1..], newer, id);
        FrontFinds(merged[0], Add(merged[1..], newer), id);
      }
    }
  }

  lemma FrontFinds(first: Artifact, rest: seq<Artifact>, id: string)
    ensures Of([first] + rest, id) == (if first.id == id then [first] else []) + Of(rest, id)
  {
    OfFront([first] + rest, id);
    assert ([first] + rest)[1..] == rest;
  }

  lemma {:induction false} OfFront(items: seq<Artifact>, id: string)
    requires items != []
    ensures Of(items, id) == (if items[0].id == id then [items[0]] else []) + Of(items[1..], id)
    decreases |items|
  {
    if |items| > 1 {
      var less := items[..|items| - 1];
      OfFront(less, id);
      assert less[1..] == items[1..][..|items[1..]| - 1];
    } else {
      assert items[..0] == [] && items[1..] == [];
    }
  }

  lemma {:induction false} NotAmong(items: seq<Artifact>, id: string)
    requires id !in Ids(items)
    ensures Of(items, id) == []
    decreases |items|
  {
    if items != [] {
      var less := items[..|items| - 1];
      assert Ids(less) == Ids(items)[..|less|] && Ids(items)[|less|] == items[|less|].id;
      NotAmong(less, id);
    }
  }

  function JoinedList(same: seq<Artifact>): seq<Artifact> {
    if same == [] then [] else [Joined(same)]
  }

  lemma JoinedAppend(same: seq<Artifact>, last: Artifact)
    ensures JoinInto(JoinedList(same), last) == JoinedList(same + [last])
  {
    assert (same + [last])[..|same|] == same;
  }

  lemma MergedAppend(less: seq<Artifact>, last: Artifact, id: string)
    ensures Of(Merged(less + [last]), id)
            == if id != last.id then Of(Merged(less), id) else JoinInto(Of(Merged(less), id), last)
  {
    MergedInFirstSeenOrder(less);
    AddAllAppend([], less, last);
    AddFinds(Merged(less), last, id);
  }

  /** What comes out for an id depends only on the inputs of that id, joined one after another. */
  lemma {:induction false} MergedById(items: seq<Artifact>, id: string)
    ensures Of(Merged(items), id) == JoinedList(Of(items, id))
    decreases |items|
  {
    if items != [] {
      var less, last := items[..|items| - 1], items[|items| - 1];
      MergedById(less, id);
      MergedAppend(less, last, id);
      assert items == less + [last];
      if last.id == id {
        assert Of(items, id) == Of(less, id) + [last];
        JoinedAppend(Of(less, id), last);
      } else {
        assert Of(items, id) == Of(less, id);
      }
    }
  }

  // ---------------------------------------------------------------- which input wins

  datatype Field =
    | Title | Uri | SourceChat | RequestedBackend | RequestModel | EffectiveBackend | ObservedBackend
    | LocalPath
    | MimeType | SizeBytes | Width | Height | Duration

  datatype Value = Nothing | Text(text: string) | Whole(n: int) | Length(r: real)

  function TextValue(t: Option<string>): Value { if t.Some? && t.value != "" then Text(t.value) else Nothing }
  function IntValue(n: Option<int>): Value { if n.Some? && n.value != 0 then Whole(n.value) else Nothing }
  function RealValue(r: Option<real>): Value { if r.Some? && r.value != 0.0 then Length(r.value) else Nothing }

  /** The value of a field that counts; None, "" and 0 all read as nothing. */
  function Get(a: Artifact, f: Field): Value {
    match f
    case Title => TextValue(a.title)
    case Uri => TextValue(a.uri)
    case SourceChat => TextValue(a.sourceChat)
    case RequestedBackend => TextValue(a.requestedBackend)
    case RequestModel => TextValue(a.requestModel)
    case EffectiveBackend => TextValue(a.effectiveBackend)
    case ObservedBackend => TextValue(a.observedBackend)
    case LocalPath => TextValue(a.localPath)
    case MimeType => TextValue(a.mimeType)
    case SizeBytes => IntValue(a.sizeBytes)
    case Width => IntValue(a.width)
    case Height => IntValue(a.height)
    case Duration => RealValue(a.duration)
  }

  predicate Measured(f: Field) { f.MimeType? || f.SizeBytes? || f.Width? || f.Height? || f.Duration? }

  /** Whether an artifact that was not preferred may lend a field. */
  predicate Lends(a: Artifact, f: Field) {
    if f.LocalPath? then a.state.Local? else if Measured(f) then !a.state.Failed? else true
  }

  lemma CompleteField(prefer: Artifact, other: Artifact, f: Field)
    ensures Get(Complete(prefer, other), f) ==
            if Get(prefer, f) != Nothing then Get(prefer, f) else if Lends(other, f) then Get(other, f) else Nothing
  {
  }

  /** `k` is the last of the inputs of the highest rank. */
  predicate Leads(same: seq<Artifact>, k: nat) {
    && k < |same|
    && (forall j :: 0 <= j < k ==> Rank(same[j].state) <= Rank(same[k].state))
    && (forall j :: k < j < |same| ==> Rank(same[j].state) < Rank(same[k].state))
  }

  predicate LedBy(joined: Artifact, lead: Artifact, f: Field) {
    && joined.id == lead.id && joined.kind == lead.kind && joined.state == lead.state && joined.verification == lead.verification
    && (Get(lead, f) != Nothing ==> Get(joined, f) == Get(lead, f))
  }

  /**
   The newest input of the highest rank decides state, kind and verification, and every
   field it has something to say about.
   */
  lemma {:induction false} LeadDecides(same: seq<Artifact>, f: Field) returns (k: nat)
    requires same != [] && forall j :: 0 <= j < |same| ==> same[j].id == same[0].id
    ensures Leads(same, k) && LedBy(Joined(same), same[k], f)
    decreases |same|
  {
    if |same| == 1 {
      k := 0;
    } else {
      var less, last := same[..|same| - 1], same[|same| - 1];
      k := LeadDecides(less, f);
      JoinLed(Joined(less), less[k], last, f);
      if Rank(last.state) >= Rank(less[k].state) {
        k := |same| - 1;
      }
    }
  }

  lemma JoinLed(current: Artifact, lead: Artifact, last: Artifact, f: Field)
    requires LedBy(current, lead, f) && last.id == lead.id
    ensures LedBy(Join(current, last), if Rank(last.state) >= Rank(lead.state) then last else lead, f)
  {
    CompleteField(last, current, f);
    CompleteField(current, last, f);
  }

  predicate Has(same: seq<Artifact>, state: State) {
    exists j :: 0 <= j < |same| && same[j].state == state
  }

  /**
   The state that comes out: local if any input is, else remote if any is, else queued if
   any is; and among empty and failed ones, the newest.
   */
  lemma BestStateWins(same: seq<Artifact>)
    requires same != [] && forall j :: 0 <= j < |same| ==> same[j].id == same[0].id
    ensures Joined(same).state == if Has(same, Local) then Local
                                  else if Has(same, Remote) then Remote
                                  else if Has(same, Queued) then Queued
                                  else same[|same| - 1].state
  {
    var k := LeadDecides(same, Title);
    BestLeads(same, k);
  }

  lemma BestLeads(same: seq<Artifact>, k: nat)
    requires Leads(same, k)
    ensures same[k].state == if Has(same, Local) then Local
                             else if Has(same, Remote) then Remote
                             else if Has(same, Queued) then Queued
                             else same[|same| - 1].state
  {
    assert Has(same, same[k].state);
    if k < |same| - 1 { assert Rank(same[|same| - 1].state) < Rank(same[k].state); }
  }

  /** `a` is an input that `joined` may have `f` from. */
  predicate Vouches(joined: Artifact, a: Artifact, f: Field) {
    && Get(a, f) == Get(joined, f)
    && (Measured(f) && !joined.state.Failed? ==> !a.state.Failed?)
    && (f.LocalPath? && joined.state.Local? ==> a.state.Local?)
  }

  ghost predicate Sourced(same: seq<Artifact>, joined: Artifact, f: Field) {
    Get(joined, f) != Nothing ==> exists j :: 0 <= j < |same| && Vouches(joined, same[j], f)
  }

  /**
   Every field of the result is taken from one of the inputs; a result that did not fail
   has its type, size, dimensions and duration from an input that did not fail, and a
   local result has its path from a local one.
   */
  lemma {:induction false} FieldsHaveASource(same: seq<Artifact>, f: Field)
    requires same != []
    ensures Sourced(same, Joined(same), f)
    decreases |same|
  {
    if |same| == 1 {
      assert Vouches(Joined(same), same[0], f);
    } else {
      var less, last := same[..|same| - 1], same[|same| - 1];
      FieldsHaveASource(less, f);
      JoinSourced(less, Joined(less), last, f);
      assert same == less + [last];
    }
  }

  lemma JoinSourced(less: seq<Artifact>, current: Artifact, last: Artifact, f: Field)
    requires Sourced(less, current, f)
    ensures Sourced(less + [last], Join(current, last), f)
  {
    CompleteField(last, current, f);
    CompleteField(current, last, f);
    var joined := Join(current, last);
    if Get(joined, f) != Nothing {
      if Get(last, f) == Get(joined, f) && Vouches(joined, last, f) {
        assert (less + [last])[|less|] == last;
      } else {
        var j :| 0 <= j < |less| && Vouches(current, less[j], f);
        assert (less + [last])[j] == less[j] && Vouches(joined, less[j], f);
      }
    }
  }

  /** No title, location, source or backend is lost: nothing only if no input had anything. */
  lemma {:induction false} OpenFieldsAreKept(same: seq<Artifact>, f: Field)
    requires same != [] && !Measured(f) && !f.LocalPath?
    ensures Get(Joined(same), f) == Nothing <==> forall j :: 0 <= j < |same| ==> Get(same[j], f) == Nothing
    decreases |same|
  {
    if |same| > 1 {
      var less, last := same[..|same| - 1], same[|same| - 1];
      OpenFieldsAreKept(less, f);
      CompleteField(last, Joined(less), f);
      CompleteField(Joined(less), last, f);
      assert forall j :: 0 <= j < |less| ==> same[j] == less[j];
    }
  }

  // ---------------------------------------------------------------- merging in parts

  lemma {:induction false} AddAllSplit(merged: seq<Artifact>, a: seq<Artifact>, b: seq<Artifact>)
    ensures AddAll(merged, a + b) == AddAll(AddAll(merged, a), b)
    decreases |a|
  {
    if a == [] {
      assert a + b == b;
    } else {
      assert (a + b)[1..] == a[1..] + b;
      AddAllSplit(Add(merged, a[0]), a[1..], b);
    }
  }

  lemma {:induction false} AddNewId(merged: seq<Artifact>, newer: Artifact)
    requires newer.id !in Ids(merged)
    ensures Add(merged, newer) == merged + [newer]
  {
    if merged != [] {
      assert Ids(merged) == [merged[0].id] + Ids(merged[1..]);
      AddNewId(merged[1..], newer);
    }
  }

  lemma {:induction false} DistinctAreKept(items: seq<Artifact>)
    requires Distinct(Ids(items))
    ensures Merged(items) == items
    decreases |items|
  {
    if items != [] {
      var less, last := items[..|items| - 1], items[|items| - 1];
      assert Ids(less) == Ids(items)[..|less|];
      DistinctAreKept(less);
      assert items == less + [last];
      AddAllAppend([], less, last);
      AddNewId(less, last);
    }
  }

  /** Merging an already merged part with the rest is merging everything at once. */
  lemma MergeInParts(a: seq<Artifact>, b: seq<Artifact>)
    ensures Merged(Merged(a) + b) == Merged(a + b)
    ensures Merged(Merged(a)) == Merged(a)
  {
    MergedInFirstSeenOrder(a);
    DistinctAreKept(Merged(a));
    AddAllSplit([], Merged(a), b);
    AddAllSplit([], a, b);
  }
}
