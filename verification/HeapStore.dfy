/** Cloning on the heap, and the store that relies on it.

    Everywhere else states are values. Here they are what they are in memory: maps, slices and
    pointers that callers go on holding. A slice is an array of its length; `repr` is a set of
    objects that a value lives in, without cycles.
  */
module HeapStore {
  import opened Domain
  import Store

  class MapCell {
    var fields: map<string, Value>

    constructor ()
      ensures fields == map[]
    {
      fields := map[];
    }
  }

  class RequirementCell {
    var value: PendingRequirement

    constructor (value: PendingRequirement)
      ensures this.value == value
    {
      this.value := value;
    }
  }

  /** A value of type any: a map, a slice, or something immutable. */
  datatype Value = Scalar(json: Json) | MapRef(cell: MapCell) | SliceRef(items: array<Value>)

  datatype HeapCall = HeapCall(id: string, name: string, arguments: MapCell?)

  datatype HeapMessage = HeapMessage(
    role: Role, content: string, name: string, toolCallID: string,
    toolCalls: array?<HeapCall>, requirement: RequirementCell?)

  datatype HeapState = HeapState(
    id: RunID, version: int, step: int, status: RunStatus,
    pendingRequirement: RequirementCell?, output: string, error: Errors, messages: array?<HeapMessage>)

  // ---------------------------------------------------------------- what a heap value denotes

  predicate Immutable(json: Json) {
    !json.JsonArray? && !json.JsonObject?
  }

  ghost predicate Denotes(v: Value, json: Json, repr: set<object>)
    reads repr
    decreases json
  {
    match v
    case Scalar(s) => Immutable(s) && json == s
    case MapRef(m) =>
      && m in repr && json.JsonObject? && m.fields.Keys == json.fields.Keys
      && forall k | k in json.fields :: Denotes(m.fields[k], json.fields[k], repr - {m})
    case SliceRef(a) =>
      && a in repr && json.JsonArray? && a.Length == |json.items|
      && forall i | 0 <= i < |json.items| :: Denotes(a[i], json.items[i], repr - {a})
  }

  ghost predicate ArgumentsDenote(m: MapCell?, arguments: map<string, Json>, repr: set<object>)
    reads repr
  {
    if m == null then arguments == map[]
    else
      && m in repr && m.fields.Keys == arguments.Keys
      && forall k | k in arguments :: Denotes(m.fields[k], arguments[k], repr - {m})
  }

  ghost predicate CallDenotes(h: HeapCall, call: ToolCall, repr: set<object>)
    reads repr
  {
    h.id == call.id && h.name == call.name && ArgumentsDenote(h.arguments, call.arguments, repr)
  }

  ghost predicate CallsDenote(a: array?<HeapCall>, calls: seq<ToolCall>, repr: set<object>)
    reads repr
  {
    if a == null || a.Length == 0 then calls == []
    else
      && a in repr && a.Length == |calls|
      && forall i | 0 <= i < |calls| :: CallDenotes(a[i], calls[i], repr)
  }

  ghost predicate RequirementDenotes(p: RequirementCell?, requirement: Option<PendingRequirement>, repr: set<object>)
    reads repr
  {
    if p == null then requirement == None else p in repr && requirement == Some(p.value)
  }

  ghost predicate MessageDenotes(h: HeapMessage, message: Message, repr: set<object>)
    reads repr
  {
    && h.role == message.role && h.content == message.content
    && h.name == message.name && h.toolCallID == message.toolCallID
    && CallsDenote(h.toolCalls, message.toolCalls, repr)
    && RequirementDenotes(h.requirement, message.requirement, repr)
  }

  ghost predicate MessagesDenote(a: array?<HeapMessage>, messages: seq<Message>, repr: set<object>)
    reads repr
  {
    if a == null || a.Length == 0 then messages == []
    else
      && a in repr && a.Length == |messages|
      && forall i | 0 <= i < |messages| :: MessageDenotes(a[i], messages[i], repr)
  }

  ghost predicate StateDenotes(h: HeapState, state: RunState, repr: set<object>)
    reads repr
  {
    && h.id == state.id && h.version == state.version && h.step == state.step && h.status == state.status
    && h.output == state.output && h.error == state.error
    && RequirementDenotes(h.pendingRequirement, state.pendingRequirement, repr)
    && MessagesDenote(h.messages, state.messages, repr)
  }

  // ---------------------------------------------------------------- larger footprints

  lemma {:induction false} DenotesIn(v: Value, json: Json, repr: set<object>, more: set<object>)
    requires Denotes(v, json, repr) && repr <= more
    ensures Denotes(v, json, more)
    decreases json
  {
    match v {
      case Scalar(_) =>
      case MapRef(m) =>
        forall k | k in json.fields
          ensures Denotes(m.fields[k], json.fields[k], more - {m})
        {
          DenotesIn(m.fields[k], json.fields[k], repr - {m}, more - {m});
        }
      case SliceRef(a) =>
        forall i | 0 <= i < |json.items|
          ensures Denotes(a[i], json.items[i], more - {a})
        {
          DenotesIn(a[i], json.items[i], repr - {a}, more - {a});
        }
    }
  }

  lemma CallDenotesIn(h: HeapCall, call: ToolCall, repr: set<object>, more: set<object>)
    requires CallDenotes(h, call, repr) && repr <= more
    ensures CallDenotes(h, call, more)
  {
    if h.arguments != null {
      var m: MapCell := h.arguments;
      forall k | k in call.arguments
        ensures Denotes(m.fields[k], call.arguments[k], more - {m})
      {
        DenotesIn(m.fields[k], call.arguments[k], repr - {m}, more - {m});
      }
    }
  }

  lemma MessageDenotesIn(h: HeapMessage, message: Message, repr: set<object>, more: set<object>)
    requires MessageDenotes(h, message, repr) && repr <= more
    ensures MessageDenotes(h, message, more)
  {
    if h.toolCalls != null && h.toolCalls.Length > 0 {
      forall i | 0 <= i < |message.toolCalls|
        ensures CallDenotes(h.toolCalls[i], message.toolCalls[i], more)
      {
        CallDenotesIn(h.toolCalls[i], message.toolCalls[i], repr, more);
      }
    }
  }

  lemma StateDenotesIn(h: HeapState, state: RunState, repr: set<object>, more: set<object>)
    requires StateDenotes(h, state, repr) && repr <= more
    ensures StateDenotes(h, state, more)
  {
    if h.messages != null && h.messages.Length > 0 {
      forall i | 0 <= i < |state.messages|
        ensures MessageDenotes(h.messages[i], state.messages[i], more)
      {
        MessageDenotesIn(h.messages[i], state.messages[i], repr, more);
      }
    }
  }

  lemma StateHeader(h: HeapState, state: RunState, repr: set<object>)
    requires StateDenotes(h, state, repr)
    ensures h.id == state.id && h.version == state.version
  {
  }

  lemma StateVersion(h: HeapState, state: RunState, repr: set<object>, version: int)
    requires StateDenotes(h, state, repr)
    ensures StateDenotes(h.(version := version), state.(version := version), repr)
  {
  }

  // ---------------------------------------------------------------- cloning

  /** cloneJSONLikeValue: the same value, on new objects only. */
  method CloneValue(v: Value, ghost json: Json, ghost repr: set<object>) returns (out: Value, ghost used: set<object>)
    requires Denotes(v, json, repr)
    ensures fresh(used) && Denotes(out, json, used)
    decreases json, 1
  {
    match v {
      case Scalar(_) =>
        out, used := v, {};
      case MapRef(m) =>
        var copy, inner := CloneFields(m, json.fields, repr, json);
        out, used := MapRef(copy), inner;
      case SliceRef(a) =>
        out, used := CloneItems(a, json, repr);
    }
  }

  method CloneFields(m: MapCell, ghost fields: map<string, Json>, ghost repr: set<object>, ghost bound: Json)
    returns (out: MapCell, ghost used: set<object>)
    requires ArgumentsDenote(m, fields, repr)
    requires forall k | k in fields :: fields[k] < bound
    ensures fresh(used) && ArgumentsDenote(out, fields, used)
    decreases bound, 0
  {
    out := new MapCell();
    used := {};
    var keys := m.fields.Keys;
    while keys != {}
      invariant keys <= fields.Keys
      invariant fresh(used) && fresh(out) && out !in used
      invariant out.fields.Keys == fields.Keys - keys
      invariant forall k | k in out.fields :: Denotes(out.fields[k], fields[k], used)
      decreases keys
    {
      var key :| key in keys;
      var value, inner := CloneValue(m.fields[key], fields[key], repr - {m});
      ghost var more := used + inner;
      forall k | k in out.fields
        ensures Denotes(out.fields[k], fields[k], more)
      {
        DenotesIn(out.fields[k], fields[k], used, more);
      }
      DenotesIn(value, fields[key], inner, more);
      out.fields := out.fields[key := value];
      used := more;
      keys := keys - {key};
    }
    assert used + {out} - {out} == used;
    used := used + {out};
  }

  method CloneItems(a: array<Value>, ghost json: Json, ghost repr: set<object>)
    returns (out: Value, ghost used: set<object>)
    requires Denotes(SliceRef(a), json, repr)
    ensures fresh(used) && Denotes(out, json, used)
    decreases json, 0
  {
    var copy := new Value[a.Length](_ => Scalar(JsonNull));
    used := {};
    for i := 0 to a.Length
      invariant fresh(used) && copy !in used
      invariant forall k | 0 <= k < i :: Denotes(copy[k], json.items[k], used)
    {
      var item, inner := CloneValue(a[i], json.items[i], repr - {a});
      ghost var more := used + inner;
      forall k | 0 <= k < i
        ensures Denotes(copy[k], json.items[k], more)
      {
        DenotesIn(copy[k], json.items[k], used, more);
      }
      DenotesIn(item, json.items[i], inner, more);
      copy[i] := item;
      used := more;
    }
    assert used + {copy} - {copy} == used;
    out, used := SliceRef(copy), used + {copy};
  }

  method CloneToolCall(h: HeapCall, ghost call: ToolCall, ghost repr: set<object>)
    returns (out: HeapCall, ghost used: set<object>)
    requires CallDenotes(h, call, repr)
    ensures fresh(used) && CallDenotes(out, call, used)
  {
    out, used := h, {};
    if h.arguments != null {
      var arguments, inner := CloneFields(h.arguments, call.arguments, repr, JsonObject(call.arguments));
      out, used := h.(arguments := arguments), inner;
    }
  }

  method CloneCalls(a: array<HeapCall>, ghost calls: seq<ToolCall>, ghost repr: set<object>)
    returns (out: array<HeapCall>, ghost used: set<object>)
    requires a.Length > 0 && CallsDenote(a, calls, repr)
    ensures fresh(used) && out.Length == a.Length && CallsDenote(out, calls, used)
  {
    out := new HeapCall[a.Length](_ => HeapCall("", "", null));
    used := {out};
    for i := 0 to a.Length
      invariant fresh(used) && out in used
      invariant forall k | 0 <= k < i :: CallDenotes(out[k], calls[k], used - {out})
    {
      var call, inner := CloneToolCall(a[i], calls[i], repr);
      ghost var more := used + inner;
      forall k | 0 <= k < i
        ensures CallDenotes(out[k], calls[k], more - {out})
      {
        CallDenotesIn(out[k], calls[k], used - {out}, more - {out});
      }
      CallDenotesIn(call, calls[i], inner, more - {out});
      out[i] := call;
      used := more;
    }
    forall k | 0 <= k < |calls|
      ensures CallDenotes(out[k], calls[k], used)
    {
      CallDenotesIn(out[k], calls[k], used - {out}, used);
    }
  }

  method CloneRequirement(p: RequirementCell?, ghost requirement: Option<PendingRequirement>, ghost repr: set<object>)
    returns (out: RequirementCell?, ghost used: set<object>)
    requires RequirementDenotes(p, requirement, repr)
    ensures fresh(used) && RequirementDenotes(out, requirement, used)
  {
    if p == null {
      return null, {};
    }
    var copy := new RequirementCell(p.value);
    out, used := copy, {copy};
  }

  method CloneMessage(h: HeapMessage, ghost message: Message, ghost repr: set<object>)
    returns (out: HeapMessage, ghost used: set<object>)
    requires MessageDenotes(h, message, repr)
    ensures fresh(used) && MessageDenotes(out, message, used)
  {
    out, used := h, {};
    if h.toolCalls != null && h.toolCalls.Length > 0 {
      var calls, inner := CloneCalls(h.toolCalls, message.toolCalls, repr);
      out, used := out.(toolCalls := calls), inner;
    }
    var requirement, cell := CloneRequirement(h.requirement, message.requirement, repr);
    var cloned := out.(requirement := requirement);
    ghost var both := used + cell;
    if h.toolCalls != null && h.toolCalls.Length > 0 {
      forall k | 0 <= k < |message.toolCalls|
        ensures CallDenotes(cloned.toolCalls[k], message.toolCalls[k], both)
      {
        CallDenotesIn(out.toolCalls[k], message.toolCalls[k], used, both);
      }
    }
    out, used := cloned, both;
  }

  /** Always a new slice, also for none. */
  method CloneMessages(a: array?<HeapMessage>, ghost messages: seq<Message>, ghost repr: set<object>)
    returns (out: array<HeapMessage>, ghost used: set<object>)
    requires MessagesDenote(a, messages, repr)
    ensures fresh(used) && MessagesDenote(out, messages, used)
  {
    var length := if a == null then 0 else a.Length;
    out := new HeapMessage[length](_ => HeapMessage(NoRole, "", "", "", null, null));
    used := {out};
    for i := 0 to length
      invariant fresh(used) && out in used
      invariant forall k | 0 <= k < i :: MessageDenotes(out[k], messages[k], used - {out})
    {
      var message, inner := CloneMessage(a[i], messages[i], repr);
      ghost var more := used + inner;
      forall k | 0 <= k < i
        ensures MessageDenotes(out[k], messages[k], more - {out})
      {
        MessageDenotesIn(out[k], messages[k], used - {out}, more - {out});
      }
      MessageDenotesIn(message, messages[i], inner, more - {out});
      out[i] := message;
      used := more;
    }
    forall k | 0 <= k < |messages|
      ensures MessageDenotes(out[k], messages[k], used)
    {
      MessageDenotesIn(out[k], messages[k], used - {out}, used);
    }
  }

  /** CloneRunState: the same state, on new objects only. */
  method CloneRunState(h: HeapState, ghost state: RunState, ghost repr: set<object>)
    returns (out: HeapState, ghost used: set<object>)
    requires StateDenotes(h, state, repr)
    ensures fresh(used) && StateDenotes(out, state, used)
  {
    var requirement, cell := CloneRequirement(h.pendingRequirement, state.pendingRequirement, repr);
    var messages, inner := CloneMessages(h.messages, state.messages, repr);
    out := h.(pendingRequirement := requirement, messages := messages);
    used := cell + inner;
    forall k | 0 <= k < |state.messages|
      ensures MessageDenotes(messages[k], state.messages[k], used)
    {
      MessageDenotesIn(messages[k], state.messages[k], inner, used);
    }
  }

  // ---------------------------------------------------------------- the store

  class HeapStore {
    var states: map<RunID, HeapState>
    /** The states as values, and the objects they live in. */
    ghost var model: map<RunID, RunState>
    ghost var Repr: set<object>

    ghost predicate Valid()
      reads this, Repr
    {
      && this !in Repr
      && states.Keys == model.Keys
      && forall id | id in model :: StateDenotes(states[id], model[id], Repr)
    }

    constructor ()
      ensures Valid() && model == map[] && Repr == {}
    {
      states, model, Repr := map[], map[], {};
    }

    /** Validation reads the requirement through its pointer and no message. */
    method Validate(h: HeapState, ghost state: RunState, ghost repr: set<object>) returns (err: Errors)
      requires StateDenotes(h, state, repr)
      ensures err == ValidateRunState(state)
    {
      var requirement := if h.pendingRequirement == null then None else Some(h.pendingRequirement.value);
      err := ValidateRunState(
        RunState(h.id, h.version, h.step, h.status, requirement, h.output, h.error, []));
    }

    /** `ctxErr` is what the context's Err() answers. */
    method Save(ctxErr: Errors, h: HeapState, ghost state: RunState, ghost repr: set<object>) returns (err: Errors)
      requires Valid() && StateDenotes(h, state, repr)
      modifies this
      ensures Valid() && fresh(Repr - old(Repr))
      ensures err == if ctxErr != {} then ctxErr else Store.SaveErr(old(model), state)
      ensures model == if err == {} then old(model)[state.id := Store.SavedState(old(model), state)] else old(model)
    {
      hide StateDenotes, ValidateRunState;
      if ctxErr != {} {
        return ctxErr;
      }
      err := Validate(h, state, repr);
      StateHeader(h, state, repr);
      if err != {} {
        return;
      }
      if h.id !in states {
        if h.version != 0 {
          return {ErrRunVersionConflict};
        }
      } else {
        StateHeader(states[h.id], model[h.id], Repr);
        if h.version != states[h.id].version {
          return {ErrRunVersionConflict};
        }
      }
      var version := if h.id in states then states[h.id].version + 1 else 1;
      assert version == Store.SavedState(model, state).version;
      var next, used := CloneRunState(h, state, repr);
      ghost var more := Repr + used;
      forall id | id in model
        ensures StateDenotes(states[id], model[id], more)
      {
        StateDenotesIn(states[id], model[id], Repr, more);
      }
      StateDenotesIn(next, state, used, more);
      StateVersion(next, state, more, version);
      model := model[state.id := Store.SavedState(model, state)];
      states := states[h.id := next.(version := version)];
      Repr := more;
    }

    method Load(ctxErr: Errors, runID: RunID) returns (h: HeapState, err: Errors, ghost repr: set<object>)
      requires Valid()
      ensures err == if ctxErr != {} then ctxErr else Store.LoadErr(model, runID)
      ensures fresh(repr)
      ensures err == {} ==> runID in model && StateDenotes(h, model[runID], repr)
    {
      h, repr := HeapState("", 0, 0, Unset, null, "", {}, null), {};
      if ctxErr != {} {
        return h, ctxErr, {};
      }
      if runID == "" {
        return h, {ErrInvalidRunID}, {};
      }
      if runID !in states {
        return h, {ErrRunNotFound}, {};
      }
      err := {};
      h, repr := CloneRunState(states[runID], model[runID], Repr);
    }
  }

  /** Nothing done later to a state that was passed to Save, or that Load returned, changes what any
      Load returns: `modify` stands for arbitrary writes to all objects of both. */
  method LaterWritesAreInvisible(store: HeapStore, h: HeapState, ghost state: RunState, repr: set<object>, other: RunID)
    returns (again: HeapState, err: Errors, ghost used: set<object>)
    requires store.Valid() && StateDenotes(h, state, repr) && repr !! store.Repr && store !in repr
    modifies store, repr
    ensures store.Valid() && repr !! store.Repr
    ensures store.model == if Store.SaveErr(old(store.model), state) == {}
                           then old(store.model)[state.id := Store.SavedState(old(store.model), state)]
                           else old(store.model)
    ensures err == Store.LoadErr(store.model, other)
    ensures err == {} ==> StateDenotes(again, store.model[other], used)
  {
    hide HeapStore.Valid, StateDenotes, Store.SaveErr;
    var saveErr := store.Save({}, h, state, repr);
    var loaded, loadErr, held := store.Load({}, other);
    modify repr;
    modify held;
    again, err, used := store.Load({}, other);
  }
}
