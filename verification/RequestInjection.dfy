/**
 Writing Gemini Web selectors into a StreamGenerate request (inject_web_request_options in
 src/thinking_client.py), on decoded JSON: encoding and decoding cancel out.
 */
module RequestInjection {
  import opened Common
  import opened Json

  const FEATURE_MODE: nat := 49
  const LEARNING_COMPANION: nat := 54
  const LEARNING_IDS: nat := 55
  const THINKING_MODE: nat := 79
  const THINKING_LEVEL: nat := 80
  const TASK_FLAG: nat := 83
  const NATIVE_TASK_MODE: int := 40
  const MAX_ATTACHMENTS: nat := 10

  datatype Options = Options(
    thinkingMode: Option<int>,
    thinkingLevel: Option<int>,
    learningMode: Option<int>,
    learningField: Option<string>,
    learningValue: Option<int>,
    mediaMode: Option<int>,
    task: bool,
    toolMode: Option<int>,
    attachments: seq<Value>)

  datatype Error = TaskShape | MediaShape | ToolShape | ThinkingShape | InvalidJson | BadArguments

  /** A JSON text inside the request: not a text, a text that is no JSON, or the decoded value. */
  datatype Text = Absent | Garbled | Decoded(value: Value)

  /** `f.req`: no JSON array of two elements, or one whose second element is the payload. */
  datatype Envelope = NoText | BadText | Other(value: Value) | Outer(first: Value, payload: Text, rest: seq<Value>)

  datatype Request = Request(fields: map<string, Value>, envelope: Envelope)

  // ---------------------------------------------------------------- options

  /** A learning id of None or 0 selects no learning mode. */
  predicate Learns(o: Options) { o.learningMode.Some? && o.learningMode.value != 0 }

  predicate Conflicting(o: Options) {
    || (o.task && (o.mediaMode.Some? || o.learningMode.Some? || o.toolMode.Some?))
    || (o.toolMode.Some? && (o.mediaMode.Some? || o.learningMode.Some?))
  }

  function Feature(o: Options): Option<int> {
    if o.task then Some(NATIVE_TASK_MODE) else o.mediaMode.Else(o.toolMode)
  }

  /** Which error a changed request shape raises; without one the request is left as it is. */
  function ShapeError(o: Options): Option<Error> {
    if o.task then Some(TaskShape)
    else if o.mediaMode.Some? then Some(MediaShape)
    else if o.toolMode.Some? || o.attachments != [] then Some(ToolShape)
    else if o.thinkingLevel.Some? then Some(ThinkingShape)
    else None
  }

  function FeatureError(o: Options): Error {
    if o.task then TaskShape else if o.mediaMode.Some? then MediaShape else ToolShape
  }

  function Companion(field: string, value: int): Option<Value> {
    var one := Arr([Int(value)]);
    if field == "zUa" then Some(Arr([Arr([Arr([Arr([one])])])]))
    else if field == "QLd" then Some(Arr([Arr([Arr([Null, one])])]))
    else if field == "LYd" then Some(Arr([Arr([Arr([Null, Null, one])])]))
    else if field == "h5d" then Some(Arr([Arr([Arr([Null, Null, Null, one])])]))
    else None
  }

  function LearningCompanion(o: Options): Option<Value> {
    if o.learningField.None? || o.learningField.value == "" || o.learningValue.None? then None
    else Companion(o.learningField.value, o.learningValue.value)
  }

  // ---------------------------------------------------------------- what a request must look like

  predicate HasPrompt(inner: seq<Value>) {
    inner != [] && inner[0].Arr? && inner[0].items != [] && inner[0].items[0].Str?
  }

  /** The query as the attachment step sees it: padding has turned an empty payload into a null query. */
  predicate TakesAttachments(inner: seq<Value>) {
    HasPrompt(inner) && |inner[0].items| >= 4 && (inner[0].items[3] == Null || inner[0].items[3].Arr?)
  }

  function Files(inner: seq<Value>): seq<Value>
    requires TakesAttachments(inner)
  {
    if inner[0].items[3].Arr? then inner[0].items[3].items else []
  }

  predicate Selectable(v: Value, feature: int) { v == Null || EqualsInt(v, feature) }

  /** The error the payload is refused with, or None if it is accepted. */
  function Refusal(o: Options, inner: seq<Value>): Option<Error> {
    if o.thinkingLevel.Some? && (|inner| < 69 || !HasPrompt(inner)) then Some(ThinkingShape)
    else if Feature(o).Some?
            && (|inner| <= FEATURE_MODE || !HasPrompt(inner) || !Selectable(inner[FEATURE_MODE], Feature(o).value))
    then Some(FeatureError(o))
    else if o.task && |inner| > TASK_FLAG && inner[TASK_FLAG] != Null && !inner[TASK_FLAG].Bool? then Some(TaskShape)
    else if o.attachments != [] && !TakesAttachments(inner) then Some(ToolShape)
    else if o.attachments != [] && |Files(inner)| + |o.attachments| > MAX_ATTACHMENTS then Some(BadArguments)
    else if Learns(o) && LearningCompanion(o).None? then Some(BadArguments)
    else None
  }

  // ---------------------------------------------------------------- what comes out

  function AtLeast(a: nat, b: nat): nat { if a >= b then a else b }

  function Length(o: Options, inner: seq<Value>): nat {
    var base := if Feature(o).None? then AtLeast(|inner|, 81) else |inner|;
    var task := if o.task then AtLeast(base, TASK_FLAG + 1) else base;
    var thinking := if o.thinkingLevel.Some? then AtLeast(task, 81) else task;
    if Learns(o) then AtLeast(thinking, 56) else thinking
  }

  /** What the options put into slot `i`, if anything. */
  function Selected(o: Options, i: nat): Option<Value> {
    if i == FEATURE_MODE && Feature(o).Some? then Some(Int(Feature(o).value))
    else if i == TASK_FLAG && o.task then Some(Bool(true))
    else if i == LEARNING_COMPANION && Learns(o) then LearningCompanion(o)
    else if i == LEARNING_IDS && Learns(o) then Some(Arr([Arr([Int(o.learningMode.value)])]))
    else if i == THINKING_MODE && o.thinkingLevel.Some? && o.thinkingMode.Some? then Some(Int(o.thinkingMode.value))
    else if i == THINKING_LEVEL && o.thinkingLevel.Some? then Some(Int(o.thinkingLevel.value))
    else None
  }

  function WithFiles(query: seq<Value>, files: seq<Value>): Value
    requires |query| >= 4
  {
    Arr(query[3 := Arr(files)])
  }

  function Slot(o: Options, inner: seq<Value>, i: nat): Value {
    if Selected(o, i).Some? then Selected(o, i).value
    else if i == 0 && o.attachments != [] && TakesAttachments(inner) then WithFiles(inner[0].items, Files(inner) + o.attachments)
    else if i < |inner| then inner[i]
    else Null
  }

  function Written(o: Options, inner: seq<Value>): seq<Value> {
    seq(Length(o, inner), i requires 0 <= i < Length(o, inner) => Slot(o, inner, i))
  }

  function InjectedPayload(o: Options, inner: seq<Value>): Result<seq<Value>, Error> {
    match Refusal(o, inner)
    case Some(error) => Err(error)
    case None => Ok(Written(o, inner))
  }

  method Extend(o: Options, payload: seq<Value>) returns (inner: seq<Value>)
    ensures |inner| == Length(o, payload)
    ensures forall i :: 0 <= i < |inner| ==> inner[i] == if i < |payload| then payload[i] else Null
  {
    var required := if Feature(o).None? then 81 else |payload|;
    if o.task {
      required := AtLeast(required, TASK_FLAG + 1);
    }
    if o.thinkingLevel.Some? {
      required := AtLeast(required, 81);
    }
    if Learns(o) {
      required := AtLeast(required, 56);
    }
    inner := payload;
    if |inner| < required {
      inner := inner + seq(required - |inner|, _ => Null);
    }
  }

  method Attach(o: Options, payload: seq<Value>) returns (result: Result<seq<Value>, Error>)
    ensures o.attachments == [] ==> result == Ok(payload)
    ensures o.attachments != [] ==>
              result == if !TakesAttachments(payload) then Err(ToolShape)
                        else if |Files(payload)| + |o.attachments| > MAX_ATTACHMENTS then Err(BadArguments)
                        else Ok(payload[0 := WithFiles(payload[0].items, Files(payload) + o.attachments)])
  {
    if o.attachments == [] {
      return Ok(payload);
    }
    var query := if payload != [] then payload[0] else Null;
    if !query.Arr? || |query.items| < 4 || !query.items[0].Str? {
      return Err(ToolShape);
    }
    var existing := query.items[3];
    if existing != Null && !existing.Arr? {
      return Err(ToolShape);
    }
    var files := if existing.Arr? then existing.items else [];
    if |files| + |o.attachments| > MAX_ATTACHMENTS {
      return Err(BadArguments);
    }
    return Ok(payload[0 := Arr(query.items[3 := Arr(files + o.attachments)])]);
  }

  /** The learning fields, then the thinking fields. */
  method SelectModes(o: Options, payload: seq<Value>) returns (result: Result<seq<Value>, Error>)
    requires Learns(o) ==> |payload| > LEARNING_IDS
    requires o.thinkingLevel.Some? ==> |payload| > THINKING_LEVEL
    ensures result.Err? <==> Learns(o) && LearningCompanion(o).None?
    ensures result.Err? ==> result.error == BadArguments
    ensures result.Ok? ==>
              && |result.value| == |payload|
              && forall i :: 0 <= i < |payload| ==>
                   result.value[i] == if i != FEATURE_MODE && i != TASK_FLAG then Selected(o, i).Or(payload[i]) else payload[i]
  {
    var inner := payload;
    if Learns(o) {
      var companion := LearningCompanion(o);
      if companion.None? {
        return Err(BadArguments);
      }
      inner := inner[LEARNING_COMPANION := companion.value];
      inner := inner[LEARNING_IDS := Arr([Arr([Int(o.learningMode.value)])])];
    }
    if o.thinkingLevel.Some? {
      if o.thinkingMode.Some? {
        inner := inner[THINKING_MODE := Int(o.thinkingMode.value)];
      }
      inner := inner[THINKING_LEVEL := Int(o.thinkingLevel.value)];
    }
    return Ok(inner);
  }

  /** The payload is checked, extended, and overwritten slot by slot. */
  method InjectPayload(o: Options, payload: seq<Value>) returns (result: Result<seq<Value>, Error>)
    ensures result == InjectedPayload(o, payload)
  {
    if o.thinkingLevel.Some? && (|payload| < 69 || !HasPrompt(payload)) {
      return Err(ThinkingShape);
    }
    var feature := Feature(o);
    if feature.Some? {
      if |payload| <= FEATURE_MODE || !HasPrompt(payload) {
        return Err(FeatureError(o));
      }
      if payload[FEATURE_MODE] != Null && !EqualsInt(payload[FEATURE_MODE], feature.value) {
        return Err(FeatureError(o));
      }
    }
    if o.task && |payload| > TASK_FLAG && payload[TASK_FLAG] != Null && !payload[TASK_FLAG].Bool? {
      return Err(TaskShape);
    }
    var inner := Extend(o, payload);
    assert TakesAttachments(inner) <==> TakesAttachments(payload);
    if feature.Some? {
      inner := inner[FEATURE_MODE := Int(feature.value)];
    }
    if o.task {
      inner := inner[TASK_FLAG := Bool(true)];
    }
    var attached := Attach(o, inner);
    if attached.Err? {
      return Err(attached.error);
    }
    result := SelectModes(o, attached.value);
    if result.Ok? {
      assert result.value == Written(o, payload);
    }
  }

  /** Without a selector that insists on it, a request of unknown shape is sent as it is. */
  function Unfit(o: Options, r: Request): Result<Request, Error> {
    if ShapeError(o).Some? then Err(ShapeError(o).value) else Ok(r)
  }

  function Unreadable(o: Options): Error {
    ShapeError(o).Or(InvalidJson)
  }

  function Injected(o: Options, r: Request): Result<Request, Error> {
    if Conflicting(o) then Err(BadArguments)
    else match r.envelope
      case NoText => Unfit(o, r)
      case BadText => Err(Unreadable(o))
      case Other(_) => Unfit(o, r)
      case Outer(first, payload, rest) =>
        match payload
        case Absent => Unfit(o, r)
        case Garbled => Err(Unreadable(o))
        case Decoded(value) =>
          if !value.Arr? then Unfit(o, r)
          else match InjectedPayload(o, value.items)
            case Err(error) => Err(error)
            case Ok(inner) => Ok(r.(envelope := Outer(first, Decoded(Arr(inner)), rest)))
  }

  // ---------------------------------------------------------------- laws

  lemma ExtendsTo(o: Options, inner: seq<Value>)
    requires Refusal(o, inner).None?
    ensures |inner| <= Length(o, inner)
    ensures forall i: nat :: Selected(o, i).Some? ==> i < Length(o, inner)
  {
  }

  /**
   Every selected slot lies within the result and holds its selector; every other slot is
   what it was, or null where the payload was extended; the query changes in its
   attachments alone.
   */
  lemma OnlySelectedSlotsChange(o: Options, inner: seq<Value>, i: nat)
    requires Refusal(o, inner).None?
    ensures var out := Written(o, inner);
            && |out| >= |inner|
            && (Selected(o, i).Some? ==> i < |out| && out[i] == Selected(o, i).value)
            && (Selected(o, i).None? && 0 < i < |inner| ==> out[i] == inner[i])
            && (Selected(o, i).None? && |inner| <= i < |out| ==> out[i] == Null)
            && (inner != [] && o.attachments == [] ==> out[0] == inner[0])
  {
    ExtendsTo(o, inner);
  }

  /** The value at a path of list indexes, if it leads somewhere. */
  function At(v: Value, path: seq<nat>): Option<Value>
    decreases |path|
  {
    if path == [] then Some(v)
    else if v.Arr? && path[0] < |v.items| then At(v.items[path[0]], path[1..])
    else None
  }

  /** Everything in a value that is neither a list nor null, in order. */
  function Leaves(v: Value): seq<Value> {
    match v
    case Arr(items) => LeavesOf(items)
    case Null => []
    case _ => [v]
  }

  function LeavesOf(items: seq<Value>): seq<Value> {
    if items == [] then [] else Leaves(items[0]) + LeavesOf(items[1..])
  }

  /** Where the companion value of a learning field belongs. */
  function CompanionPath(field: string): Option<seq<nat>> {
    match field
    case "zUa" => Some([0, 0, 0, 0, 0])
    case "QLd" => Some([0, 0, 1, 0])
    case "LYd" => Some([0, 0, 2, 0])
    case "h5d" => Some([0, 0, 3, 0])
    case _ => None
  }

  lemma CompanionHasOneLeaf(field: string, value: int)
    ensures Companion(field, value).Some? <==> CompanionPath(field).Some?
    ensures Companion(field, value).Some? ==>
              var v := Companion(field, value).value;
              At(v, CompanionPath(field).value) == Some(Int(value)) && Leaves(v) == [Int(value)]
  {
    assert [0][1..] == [] && [0, 0][1..] == [0] && [0, 0, 0][1..] == [0, 0];
    LeafAlone(value);
    var one := Arr([Int(value)]);
    if field == "zUa" {
      OneLeaf(one, value);
      OneLeaf(Arr([one]), value);
      OneLeaf(Arr([Arr([one])]), value);
      OneLeaf(Arr([Arr([Arr([one])])]), value);
      assert [0, 0, 0, 0, 0][1..] == [0, 0, 0, 0] && [0, 0, 0, 0][1..] == [0, 0, 0];
    } else if field == "QLd" {
      NullsThenOne([Null, one], one, value);
      WrappedTwice([Null, one], 1, value);
    } else if field == "LYd" {
      NullsThenOne([Null, Null, one], one, value);
      WrappedTwice([Null, Null, one], 2, value);
    } else if field == "h5d" {
      NullsThenOne([Null, Null, Null, one], one, value);
      WrappedTwice([Null, Null, Null, one], 3, value);
    }
  }

  lemma LeafAlone(value: int)
    ensures Leaves(Arr([Int(value)])) == [Int(value)] && At(Arr([Int(value)]), [0]) == Some(Int(value))
  {
    assert [Int(value)][1..] == [] && [0][1..] == [];
    assert LeavesOf([Int(value)]) == [Int(value)] + LeavesOf([]);
  }

  lemma WrappedTwice(items: seq<Value>, i: nat, value: int)
    requires i < |items| && LeavesOf(items) == [Int(value)] && items[i] == Arr([Int(value)])
    ensures Leaves(Arr([Arr([Arr(items)])])) == [Int(value)]
    ensures At(Arr([Arr([Arr(items)])]), [0, 0, i, 0]) == Some(Int(value))
  {
    OneLeaf(Arr(items), value);
    OneLeaf(Arr([Arr(items)]), value);
    PathInside(items, i, value);
  }

  lemma PathInside(items: seq<Value>, i: nat, value: int)
    requires i < |items| && items[i] == Arr([Int(value)])
    ensures At(Arr([Arr([Arr(items)])]), [0, 0, i, 0]) == Some(Int(value))
  {
    LeafAlone(value);
    AtStep(Arr(items), i, [0]);
    AtStep(Arr([Arr(items)]), 0, [i] + [0]);
    AtStep(Arr([Arr([Arr(items)])]), 0, [0] + ([i] + [0]));
    assert [0, 0, i, 0] == [0] + ([0] + ([i] + [0]));
  }

  lemma AtStep(v: Value, i: nat, path: seq<nat>)
    requires v.Arr? && i < |v.items|
    ensures At(v, [i] + path) == At(v.items[i], path)
  {
    assert ([i] + path)[1..] == path;
  }

  lemma OneLeaf(v: Value, value: int)
    requires Leaves(v) == [Int(value)]
    ensures Leaves(Arr([v])) == [Int(value)]
  {
    assert [v][1..] == [];
    assert LeavesOf([v]) == Leaves(v) + LeavesOf([]);
  }

  lemma {:induction false} NullsThenOne(items: seq<Value>, one: Value, value: int)
    requires items != [] && items[|items| - 1] == one && Leaves(one) == [Int(value)]
    requires forall i :: 0 <= i < |items| - 1 ==> items[i] == Null
    ensures LeavesOf(items) == [Int(value)]
    decreases |items|
  {
    if |items| == 1 {
      assert items[1..] == [];
      assert LeavesOf(items) == Leaves(one) + LeavesOf([]);
    } else {
      NullsThenOne(items[1..], one, value);
      assert LeavesOf(items) == [] + LeavesOf(items[1..]);
    }
  }

  /** A payload whose first slot is the query: a list that starts with the prompt. */
  predicate StartsWithPrompt(inner: seq<Value>) {
    |inner| > 0 && inner[0].Arr? && |inner[0].items| > 0 && inner[0].items[0].Str?
  }

  /** What is accepted, by the recorded numbers: lengths, the selector and flag slots, and at most ten attachments. */
  lemma AcceptedExactly(o: Options, inner: seq<Value>)
    ensures Refusal(o, inner).None? <==>
              && (o.thinkingLevel.Some? ==> |inner| >= 69 && StartsWithPrompt(inner))
              && (o.task || o.mediaMode.Some? || o.toolMode.Some? ==>
                    && |inner| >= 50 && StartsWithPrompt(inner)
                    && (inner[49] == Null
                        || EqualsInt(inner[49], if o.task then 40 else if o.mediaMode.Some? then o.mediaMode.value else o.toolMode.value)))
              && (o.task && |inner| >= 84 ==> inner[83] == Null || inner[83].Bool?)
              && (o.attachments != [] ==>
                    && StartsWithPrompt(inner) && |inner[0].items| >= 4
                    && (inner[0].items[3] == Null
                        || (inner[0].items[3].Arr? && |inner[0].items[3].items| + |o.attachments| <= 10))
                    && |o.attachments| <= 10)
              && (o.learningMode.Some? && o.learningMode.value != 0 ==>
                    o.learningField.Some? && CompanionPath(o.learningField.value).Some? && o.learningValue.Some?)
  {
    if o.learningField.Some? && o.learningValue.Some? { CompanionHasOneLeaf(o.learningField.value, o.learningValue.value); }
  }

  /** Where each selector lands: the recorded slots of the request, by number. */
  lemma SelectorsLand(o: Options, inner: seq<Value>)
    requires Refusal(o, inner).None?
    ensures var out := Written(o, inner);
            && (o.task ==> |out| > 83 && out[49] == Int(40) && out[83] == Bool(true))
            && (!o.task && o.mediaMode.Some? ==> |out| > 49 && out[49] == Int(o.mediaMode.value))
            && (!o.task && o.mediaMode.None? && o.toolMode.Some? ==> |out| > 49 && out[49] == Int(o.toolMode.value))
            && (o.thinkingLevel.Some? ==> |out| > 80 && out[80] == Int(o.thinkingLevel.value))
            && (o.thinkingLevel.Some? && o.thinkingMode.Some? ==> out[79] == Int(o.thinkingMode.value))
            && (o.learningMode.Some? && o.learningMode.value != 0 ==>
                  && |out| > 55 && out[55] == Arr([Arr([Int(o.learningMode.value)])])
                  && o.learningField.Some? && o.learningValue.Some? && CompanionPath(o.learningField.value).Some?
                  && At(out[54], CompanionPath(o.learningField.value).value) == Some(Int(o.learningValue.value))
                  && Leaves(out[54]) == [Int(o.learningValue.value)])
            && (forall i :: 0 <= i < |inner| && i != 0 && i != 49 && i != 54 && i != 55 && i != 79 && i != 80 && i != 83 ==> out[i] == inner[i])
  {
    ExtendsTo(o, inner);
    if o.learningField.Some? && o.learningValue.Some? { CompanionHasOneLeaf(o.learningField.value, o.learningValue.value); }
  }

  /** Attachments: those of the request first, then the new ones, at most ten in all. */
  lemma AttachmentsAreAppended(o: Options, inner: seq<Value>)
    requires Refusal(o, inner).None? && o.attachments != []
    ensures var out := Written(o, inner);
            && TakesAttachments(inner) && TakesAttachments(out)
            && Files(out) == Files(inner) + o.attachments && |Files(out)| <= MAX_ATTACHMENTS
            && |out[0].items| == |inner[0].items|
            && forall k :: 0 <= k < |inner[0].items| && k != 3 ==> out[0].items[k] == inner[0].items[k]
  {
    ExtendsTo(o, inner);
  }

  lemma AcceptedAgain(o: Options, inner: seq<Value>)
    requires Refusal(o, inner).None? && o.attachments == []
    ensures Refusal(o, Written(o, inner)).None? && Length(o, Written(o, inner)) == Length(o, inner)
  {
    ExtendsTo(o, inner);
    var out := Written(o, inner);
    assert inner != [] ==> out[0] == inner[0];
  }

  /** Injecting the same options a second time changes nothing exactly when there are no attachments. */
  lemma InjectingTwice(o: Options, inner: seq<Value>)
    requires Refusal(o, inner).None?
    ensures InjectedPayload(o, Written(o, inner)) == Ok(Written(o, inner)) <==> o.attachments == []
  {
    var out := Written(o, inner);
    if o.attachments == [] {
      AcceptedAgain(o, inner);
      forall i | 0 <= i < |out| ensures Written(o, out)[i] == out[i] { OnlySelectedSlotsChange(o, inner, i); }
      assert Written(o, out) == out;
    } else {
      AttachmentsAreAppended(o, inner);
      if Refusal(o, out).None? {
        AttachmentsAreAppended(o, out);
        assert |Files(Written(o, out))| > |Files(out)|;
      }
    }
  }

  /** Whole requests: all fields but the payload stay, and a second injection adds nothing. */
  lemma InjectedRequest(o: Options, r: Request)
    requires Injected(o, r).Ok?
    ensures var out := Injected(o, r).value;
            && out.fields == r.fields
            && (out != r ==> out.envelope.Outer? && r.envelope.Outer?
                             && out.envelope.first == r.envelope.first && out.envelope.rest == r.envelope.rest)
            && (o.attachments == [] ==> Injected(o, out) == Ok(out))
  {
    if r.envelope.Outer? && r.envelope.payload.Decoded? && r.envelope.payload.value.Arr? {
      InjectingTwice(o, r.envelope.payload.value.items);
    }
  }

  /** A request is passed on unwritten only if no selector insists on the shape it lacks. */
  lemma SelectorsAreNeverDropped(o: Options, r: Request)
    requires Injected(o, r).Ok? && ShapeError(o).Some?
    ensures r.envelope.Outer? && r.envelope.payload.Decoded? && r.envelope.payload.value.Arr?
    ensures Injected(o, r).value.envelope.payload == Decoded(Arr(Written(o, r.envelope.payload.value.items)))
  {
  }
}
