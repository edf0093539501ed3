/** Transcript normalisation before a provider call.

    The loop keeps the latest observation of a call at the place of its first one. `NormalForm` says
    the same without a loop: which positions survive, and what stands there.
  */
module Normalize {
  import opened Domain
  import opened Transcript

  datatype Result = Normalized(messages: seq<Message>) | Malformed(index: nat)

  function KeyOf(message: Message): string {
    Trim(message.toolCallID)
  }

  // ---------------------------------------------------------------- acceptance

  /** An assistant message before position `j` declares the (non-empty) identifier. */
  ghost predicate Known(messages: seq<Message>, j: int, id: string) {
    id != "" && exists i | 0 <= i < j && i < |messages| :: Declares(messages[i], id)
  }

  ghost predicate AcceptedAt(messages: seq<Message>, j: int)
    requires 0 <= j < |messages|
  {
    messages[j].role == Tool ==> Known(messages, j, KeyOf(messages[j]))
  }

  ghost predicate Accepted(messages: seq<Message>) {
    forall j | 0 <= j < |messages| :: AcceptedAt(messages, j)
  }

  // ---------------------------------------------------------------- the normal form

  /** The tool messages `i` and `j` observe the same call. */
  predicate Same(messages: seq<Message>, i: int, j: int)
    requires 0 <= i < |messages| && 0 <= j < |messages|
  {
    messages[i].role == Tool && messages[j].role == Tool && KeyOf(messages[i]) == KeyOf(messages[j])
  }

  /** Position `i` survives: it holds no tool message, or the first observation of its call. */
  ghost predicate Survives(messages: seq<Message>, i: int)
    requires 0 <= i < |messages|
  {
    forall j | 0 <= j < i :: !Same(messages, j, i)
  }

  /** The surviving positions below `n`, in order. */
  ghost function Surviving(messages: seq<Message>, n: nat): (positions: seq<nat>)
    requires n <= |messages|
    ensures forall k | 0 <= k < |positions| :: positions[k] < n && Survives(messages, positions[k])
    ensures forall k, l | 0 <= k < l < |positions| :: positions[k] < positions[l]
    ensures forall i | 0 <= i < n && Survives(messages, i) :: i in positions
  {
    if n == 0 then []
    else if Survives(messages, n - 1) then Surviving(messages, n - 1) + [n - 1]
    else Surviving(messages, n - 1)
  }

  /** The last observation below `n` of the call observed at `i`. */
  function Latest(messages: seq<Message>, i: nat, n: nat): (l: nat)
    requires i < n <= |messages|
    ensures i <= l < n
    ensures l == i || Same(messages, i, l)
    ensures messages[l].role == messages[i].role
    ensures messages[i].role == Tool ==> Same(messages, i, l)
    ensures forall j | l < j < n :: !Same(messages, i, j)
    decreases n - i
  {
    if i == n - 1 || Same(messages, i, n - 1) then n - 1 else Latest(messages, i, n - 1)
  }

  ghost function NormalForm(messages: seq<Message>, n: nat): (r: seq<Message>)
    requires n <= |messages|
    ensures |r| == |Surviving(messages, n)|
  {
    var positions := Surviving(messages, n);
    seq(|positions|, k requires 0 <= k < |positions| => messages[Latest(messages, positions[k], n)])
  }

  // ---------------------------------------------------------------- the loop

  /** What the two maps of the loop hold after `n` messages. */
  ghost predicate Indexed(messages: seq<Message>, n: nat, index: map<string, nat>)
    requires n <= |messages|
  {
    && (forall i | 0 <= i < n && messages[i].role == Tool :: KeyOf(messages[i]) in index)
    && (forall key | key in index :: PointsAt(messages, Surviving(messages, n), index[key], key))
  }

  predicate PointsAt(messages: seq<Message>, positions: seq<nat>, k: nat, key: string) {
    && k < |positions| && positions[k] < |messages|
    && messages[positions[k]].role == Tool && KeyOf(messages[positions[k]]) == key
  }

  ghost predicate Collected(messages: seq<Message>, n: nat, ids: set<string>) {
    forall id :: id in ids <==> Known(messages, n, id)
  }

  lemma AppendKeeps(messages: seq<Message>, n: nat)
    requires n < |messages| && Survives(messages, n)
    ensures NormalForm(messages, n + 1) == NormalForm(messages, n) + [messages[n]]
  {
    var positions := Surviving(messages, n);
    assert Surviving(messages, n + 1) == positions + [n];
    forall k | 0 <= k < |positions|
      ensures Latest(messages, positions[k], n + 1) == Latest(messages, positions[k], n)
    {
      assert !Same(messages, positions[k], n);
    }
    assert Latest(messages, n, n + 1) == n;
    hide Surviving, Latest, Survives;
  }

  lemma OverwriteKeeps(messages: seq<Message>, n: nat, k: nat)
    requires n < |messages| && k < |Surviving(messages, n)|
    requires Same(messages, Surviving(messages, n)[k], n)
    ensures Surviving(messages, n + 1) == Surviving(messages, n)
    ensures NormalForm(messages, n + 1) == NormalForm(messages, n)[k := messages[n]]
  {
    var positions := Surviving(messages, n);
    assert !Survives(messages, n);
    forall l | 0 <= l < |positions| && l != k
      ensures Latest(messages, positions[l], n + 1) == Latest(messages, positions[l], n)
    {
      if Same(messages, positions[l], n) {
        assert Same(messages, positions[l], positions[k]) && Same(messages, positions[k], positions[l]);
      }
    }
  }

  /** Some survivor observes the call of every tool message. */
  lemma FirstSurvives(messages: seq<Message>, i: nat, n: nat) returns (f: nat)
    requires i < n <= |messages| && messages[i].role == Tool
    ensures f <= i && f in Surviving(messages, n) && Same(messages, f, i)
  {
    if Survives(messages, i) {
      f := i;
    } else {
      var j :| 0 <= j < i && Same(messages, j, i);
      f := FirstSurvives(messages, j, n);
    }
  }

  /** The next position holds no tool message, or one whose call is not indexed yet. */
  lemma Append(messages: seq<Message>, n: nat, index: map<string, nat>)
    requires n < |messages| && Indexed(messages, n, index)
    requires messages[n].role == Tool ==> KeyOf(messages[n]) !in index
    ensures |NormalForm(messages, n + 1)| == |NormalForm(messages, n)| + 1
    ensures NormalForm(messages, n + 1) == NormalForm(messages, n) + [messages[n]]
    ensures messages[n].role != Tool ==> Indexed(messages, n + 1, index)
    ensures messages[n].role == Tool ==>
      Indexed(messages, n + 1, index[KeyOf(messages[n]) := |NormalForm(messages, n)|])
  {
    hide Surviving, NormalForm, Survives, Latest, KeyOf, Indexed, PointsAt;
    FreshSurvives(messages, n, index);
    AppendKeeps(messages, n);
    IndexGrows(messages, n, index);
  }

  lemma IndexGrows(messages: seq<Message>, n: nat, index: map<string, nat>)
    requires n < |messages| && Indexed(messages, n, index)
    requires Surviving(messages, n + 1) == Surviving(messages, n) + [n]
    ensures messages[n].role != Tool ==> Indexed(messages, n + 1, index)
    ensures messages[n].role == Tool ==> Indexed(messages, n + 1, index[KeyOf(messages[n]) := |Surviving(messages, n)|])
  {
    hide Surviving, NormalForm, Survives, Latest, KeyOf, PointsAt;
    forall k, key | PointsAt(messages, Surviving(messages, n), k, key)
      ensures PointsAt(messages, Surviving(messages, n + 1), k, key)
    {
      StillPoints(messages, Surviving(messages, n), k, key, n);
    }
    LastPoints(messages, Surviving(messages, n), n);
  }

  lemma StillPoints(messages: seq<Message>, positions: seq<nat>, k: nat, key: string, n: nat)
    requires PointsAt(messages, positions, k, key)
    ensures PointsAt(messages, positions + [n], k, key)
  {
  }

  lemma LastPoints(messages: seq<Message>, positions: seq<nat>, n: nat)
    requires n < |messages|
    ensures messages[n].role == Tool ==> PointsAt(messages, positions + [n], |positions|, KeyOf(messages[n]))
  {
  }

  lemma FreshSurvives(messages: seq<Message>, n: nat, index: map<string, nat>)
    requires n < |messages| && Indexed(messages, n, index)
    requires messages[n].role == Tool ==> KeyOf(messages[n]) !in index
    ensures Survives(messages, n)
    ensures Surviving(messages, n + 1) == Surviving(messages, n) + [n]
  {
    hide KeyOf, PointsAt;
  }

  /** The next position observes an indexed call again. */
  lemma Overwrite(messages: seq<Message>, n: nat, index: map<string, nat>)
    requires n < |messages| && Indexed(messages, n, index)
    requires messages[n].role == Tool && KeyOf(messages[n]) in index
    ensures index[KeyOf(messages[n])] < |NormalForm(messages, n)|
    ensures NormalForm(messages, n + 1) == NormalForm(messages, n)[index[KeyOf(messages[n])] := messages[n]]
    ensures Indexed(messages, n + 1, index)
  {
    hide Surviving, NormalForm, Survives, Latest;
    OverwriteKeeps(messages, n, index[KeyOf(messages[n])]);
  }

  lemma NothingCollected(messages: seq<Message>)
    ensures NormalForm(messages, 0) == []
    ensures Indexed(messages, 0, map[])
    ensures Collected(messages, 0, {})
  {
  }

  /** Only assistant messages declare calls. */
  lemma NothingDeclared(messages: seq<Message>, n: nat, ids: set<string>)
    requires n < |messages| && messages[n].role != Assistant && Collected(messages, n, ids)
    ensures Collected(messages, n + 1, ids)
  {
  }

  lemma CollectedAccepts(messages: seq<Message>, n: nat, ids: set<string>)
    requires n < |messages| && Collected(messages, n, ids)
    ensures AcceptedAt(messages, n) <==> messages[n].role != Tool || KeyOf(messages[n]) in ids
    ensures "" !in ids
  {
  }

  /** NormalizeMessagesForProvider: refused at the first tool message without an earlier call, or
      the normal form. */
  method NormalizeMessagesForProvider(messages: seq<Message>) returns (result: Result)
    ensures result.Normalized? <==> Accepted(messages)
    ensures result.Normalized? ==> result.messages == NormalForm(messages, |messages|)
    ensures result.Malformed? ==>
      && result.index < |messages| && !AcceptedAt(messages, result.index)
      && forall j | 0 <= j < result.index :: AcceptedAt(messages, j)
  {
    hide Surviving, NormalForm, Survives, Latest, Indexed, Collected, AcceptedAt, TrimLeft, TrimRight;
    var normalized: seq<Message> := [];
    var assistantToolCalls: set<string> := {};
    var index: map<string, nat> := map[];
    NothingCollected(messages);
    for i := 0 to |messages|
      invariant forall j | 0 <= j < i :: AcceptedAt(messages, j)
      invariant normalized == NormalForm(messages, i)
      invariant Indexed(messages, i, index)
      invariant Collected(messages, i, assistantToolCalls)
    {
      var message := messages[i];
      CollectedAccepts(messages, i, assistantToolCalls);
      match message.role {
        case Assistant =>
          Append(messages, i, index);
          normalized := normalized + [message];
          assistantToolCalls := CollectCalls(messages, i, assistantToolCalls);
        case Tool =>
          var toolCallID := Trim(message.toolCallID);
          if toolCallID == "" || toolCallID !in assistantToolCalls {
            return Malformed(i);
          }
          NothingDeclared(messages, i, assistantToolCalls);
          if toolCallID in index {
            Overwrite(messages, i, index);
            normalized := normalized[index[toolCallID] := message];
          } else {
            Append(messages, i, index);
            normalized := normalized + [message];
            index := index[toolCallID := |normalized| - 1];
          }
        case _ =>
          NothingDeclared(messages, i, assistantToolCalls);
          Append(messages, i, index);
          normalized := normalized + [message];
      }
    }
    result := Normalized(normalized);
  }

  method CollectCalls(messages: seq<Message>, i: nat, ids: set<string>) returns (more: set<string>)
    requires i < |messages| && messages[i].role == Assistant && Collected(messages, i, ids)
    ensures Collected(messages, i + 1, more)
  {
    var calls := messages[i].toolCalls;
    more := ids;
    for k := 0 to |calls|
      invariant forall id :: id in more <==>
        Known(messages, i, id) || (id != "" && exists l | 0 <= l < k :: calls[l].id == id)
    {
      if calls[k].id != "" {
        more := more + {calls[k].id};
      }
    }
    assert forall id :: Known(messages, i + 1, id) <==>
      Known(messages, i, id) || (id != "" && Declares(messages[i], id));
  }

  // ---------------------------------------------------------------- what the normal form is

  ghost function Normal(messages: seq<Message>): seq<Message> {
    NormalForm(messages, |messages|)
  }

  /** What stands at a surviving position: its own message, or the last observation of its call. */
  lemma NormalAt(messages: seq<Message>, k: nat)
    requires k < |Normal(messages)|
    ensures var i := Surviving(messages, |messages|)[k];
      && i < |messages|
      && Normal(messages)[k].role == messages[i].role
      && (messages[i].role != Tool ==> Normal(messages)[k] == messages[i])
      && (messages[i].role == Tool ==> KeyOf(Normal(messages)[k]) == KeyOf(messages[i]))
  {
  }

  ghost predicate OneObservation(messages: seq<Message>) {
    forall i, j | 0 <= i < j < |messages| :: !Same(messages, i, j)
  }

  /** No call is observed twice in the normal form. */
  lemma NormalIsUnique(messages: seq<Message>)
    ensures OneObservation(Normal(messages))
  {
    var r := Normal(messages);
    var positions := Surviving(messages, |messages|);
    forall i, j | 0 <= i < j < |r|
      ensures !Same(r, i, j)
    {
      NormalAt(messages, i);
      NormalAt(messages, j);
      if Same(r, i, j) {
        assert Same(messages, positions[i], positions[j]);
      }
    }
  }

  /** Every observed call is still observed, by its last tool message. */
  lemma NormalKeepsCalls(messages: seq<Message>, i: nat) returns (k: nat)
    requires i < |messages| && messages[i].role == Tool
    requires forall j | i < j < |messages| :: !Same(messages, i, j)
    ensures k < |Normal(messages)| && Normal(messages)[k] == messages[i]
    ensures Surviving(messages, |messages|)[k] <= i
    ensures forall j | 0 <= j < Surviving(messages, |messages|)[k] :: !Same(messages, j, i)
  {
    var f := FirstSurvives(messages, i, |messages|);
    var positions := Surviving(messages, |messages|);
    k :| 0 <= k < |positions| && positions[k] == f;
    assert Survives(messages, f);
    assert forall j | 0 <= j < f && Same(messages, j, i) :: Same(messages, j, f);
    assert Same(messages, f, Latest(messages, f, |messages|));
    assert Same(messages, i, Latest(messages, f, |messages|)) && Same(messages, f, i);
  }

  function Speech(messages: seq<Message>): seq<Message> {
    if messages == [] then []
    else Speech(messages[..|messages| - 1])
         + if messages[|messages| - 1].role == Tool then [] else [messages[|messages| - 1]]
  }

  lemma SpeechAppend(messages: seq<Message>, message: Message)
    ensures Speech(messages + [message]) == Speech(messages) + if message.role == Tool then [] else [message]
  {
    assert (messages + [message])[..|messages|] == messages;
  }

  lemma {:induction false} SpeechOverwrite(messages: seq<Message>, k: nat, message: Message)
    requires k < |messages| && messages[k].role == Tool && message.role == Tool
    ensures Speech(messages[k := message]) == Speech(messages)
  {
    var last := |messages| - 1;
    if k == last {
      assert messages[k := message][..last] == messages[..last];
    } else {
      assert messages[k := message][..last] == messages[..last][k := message];
      SpeechOverwrite(messages[..last], k, message);
    }
  }

  /** Everything but tool messages keeps its content and its order. */
  lemma {:induction false} NormalKeepsSpeech(messages: seq<Message>, n: nat)
    requires n <= |messages|
    ensures Speech(NormalForm(messages, n)) == Speech(messages[..n])
  {
    hide Surviving, NormalForm, Survives, Latest;
    if n == 0 {
      NothingCollected(messages);
    } else {
      NormalKeepsSpeech(messages, n - 1);
      var last := messages[n - 1];
      assert messages[..n] == messages[..n - 1] + [last];
      SpeechAppend(messages[..n - 1], last);
      if Survives(messages, n - 1) {
        AppendKeeps(messages, n - 1);
        SpeechAppend(NormalForm(messages, n - 1), last);
      } else {
        var k := RepeatOverwrites(messages, n - 1);
        SpeechOverwrite(NormalForm(messages, n - 1), k, last);
      }
    }
  }

  lemma RepeatOverwrites(messages: seq<Message>, n: nat) returns (k: nat)
    requires n < |messages| && !Survives(messages, n)
    ensures messages[n].role == Tool
    ensures k < |NormalForm(messages, n)| && NormalForm(messages, n)[k].role == Tool
    ensures NormalForm(messages, n + 1) == NormalForm(messages, n)[k := messages[n]]
  {
    var j :| 0 <= j < n && Same(messages, j, n);
    var f := FirstSurvives(messages, j, n);
    var positions := Surviving(messages, n);
    k :| 0 <= k < |positions| && positions[k] == f;
    assert Same(messages, f, n);
    OverwriteKeeps(messages, n, k);
  }

  /** Every tool message of the normal form still follows its assistant call. */
  lemma NormalIsAccepted(messages: seq<Message>)
    requires Accepted(messages)
    ensures Accepted(Normal(messages))
  {
    var r := Normal(messages);
    var positions := Surviving(messages, |messages|);
    forall k | 0 <= k < |r|
      ensures AcceptedAt(r, k)
    {
      NormalAt(messages, k);
      if r[k].role == Tool {
        assert AcceptedAt(messages, positions[k]);
        var i :| 0 <= i < positions[k] && Declares(messages[i], KeyOf(r[k]));
        assert Survives(messages, i);
        var l :| 0 <= l < |positions| && positions[l] == i;
        NormalAt(messages, l);
        assert l < k && Declares(r[l], KeyOf(r[k]));
      }
    }
  }

  lemma {:induction false} AllSurvive(messages: seq<Message>, n: nat)
    requires n <= |messages| && OneObservation(messages)
    ensures |Surviving(messages, n)| == n
    ensures forall k | 0 <= k < n :: Surviving(messages, n)[k] == k
  {
    if n > 0 {
      AllSurvive(messages, n - 1);
      assert Survives(messages, n - 1);
    }
  }

  /** Normalising twice is normalising once. */
  lemma NormalIsIdempotent(messages: seq<Message>)
    ensures Normal(Normal(messages)) == Normal(messages)
    ensures Accepted(messages) ==> Accepted(Normal(messages))
  {
    var r := Normal(messages);
    NormalIsUnique(messages);
    AllSurvive(r, |r|);
    forall k | 0 <= k < |r|
      ensures Normal(r)[k] == r[k]
    {
      assert Latest(r, k, |r|) == k;
    }
    if Accepted(messages) {
      NormalIsAccepted(messages);
    }
  }

  // ---------------------------------------------------------------- which transcripts are accepted

  /** No identifier of a call has white space around it. */
  ghost predicate TrimmedCalls(messages: seq<Message>) {
    forall i, id | 0 <= i < |messages| && Declares(messages[i], id) :: Trim(id) == id
  }

  /** A transcript whose tool messages name earlier calls is accepted when call identifiers are trimmed. */
  lemma DeclaredIsAccepted(messages: seq<Message>)
    requires Declared(messages) && TrimmedCalls(messages)
    ensures Accepted(messages)
  {
    forall j | 0 <= j < |messages| && messages[j].role == Tool
      ensures Known(messages, j, KeyOf(messages[j]))
    {
      assert DeclaredBefore(messages, j, messages[j].toolCallID);
      var i :| 0 <= i < j && Declares(messages[i], messages[j].toolCallID);
    }
  }

  /** Trimming confuses no two calls. */
  ghost predicate Distinguishable(messages: seq<Message>) {
    forall i, j, id |
      && 0 <= i < |messages| && Declares(messages[i], id)
      && 0 <= j < |messages| && Declares(messages[j], Trim(id))
      :: Trim(id) == id
  }

  /** Acceptance in full: every observed identifier, trimmed, is a call declared earlier. For the
      transcripts of the runtime, where it is so untrimmed, that leaves two ways: the identifier is
      trimmed already, or its trimmed form happens to name another earlier call. Where trimming
      confuses no two calls only the first remains. */
  lemma AcceptedIffObservedTrimmed(messages: seq<Message>)
    ensures Accepted(messages) <==>
      forall j | 0 <= j < |messages| && messages[j].role == Tool ::
        Trim(messages[j].toolCallID) != "" && DeclaredBefore(messages, j, Trim(messages[j].toolCallID))
    ensures Declared(messages) ==>
      (Accepted(messages) <==>
        forall j | 0 <= j < |messages| && messages[j].role == Tool ::
          var id := messages[j].toolCallID;
          Trim(id) == id || (Trim(id) != "" && DeclaredBefore(messages, j, Trim(id))))
    ensures Declared(messages) && Distinguishable(messages) ==>
      (Accepted(messages) <==>
        forall j | 0 <= j < |messages| && messages[j].role == Tool ::
          Trim(messages[j].toolCallID) == messages[j].toolCallID)
  {
    hide Trim;
    assert forall j | 0 <= j < |messages| && messages[j].role != Tool :: AcceptedAt(messages, j);
    forall j | 0 <= j < |messages| && messages[j].role == Tool
      ensures var id := Trim(messages[j].toolCallID);
        AcceptedAt(messages, j) <==> id != "" && DeclaredBefore(messages, j, id)
      ensures Declared(messages) ==>
        messages[j].toolCallID != "" && DeclaredBefore(messages, j, messages[j].toolCallID)
    {
    }
    if Declared(messages) && Distinguishable(messages) {
      forall j | 0 <= j < |messages| && messages[j].role == Tool
        ensures AcceptedAt(messages, j) <==> Trim(messages[j].toolCallID) == messages[j].toolCallID
      {
        var i :| 0 <= i < j && Declares(messages[i], messages[j].toolCallID);
      }
    }
  }

  // ---------------------------------------------------------------- which observations are merged

  /** Some tool message carries exactly this identifier. */
  ghost predicate Observes(messages: seq<Message>, id: string) {
    exists k :: 0 <= k < |messages| && messages[k].role == Tool && messages[k].toolCallID == id
  }

  /** No two calls that were observed have the same trimmed identifier. */
  ghost predicate KeptApart(messages: seq<Message>) {
    forall i, j | 0 <= i < |messages| && 0 <= j < |messages| && Same(messages, i, j) ::
      messages[i].toolCallID == messages[j].toolCallID
  }

  /** Normalising keeps an observation of every call if and only if no two observed calls have the
      same trimmed identifier; otherwise one call's observation replaces another's. */
  lemma ObservationsKeptIffApart(messages: seq<Message>)
    ensures (forall id | Observes(messages, id) :: Observes(Normal(messages), id)) <==> KeptApart(messages)
  {
    hide Trim, NormalForm, Surviving, Latest;
    if KeptApart(messages) {
      forall i | 0 <= i < |messages| && messages[i].role == Tool
        ensures Observes(Normal(messages), messages[i].toolCallID)
      {
        var l := Latest(messages, i, |messages|);
        assert forall j | l < j < |messages| && Same(messages, l, j) :: Same(messages, i, j);
        var k := NormalKeepsCalls(messages, l);
      }
    }
    if forall id | Observes(messages, id) :: Observes(Normal(messages), id) {
      NormalIsUnique(messages);
      var r := Normal(messages);
      forall i, j | 0 <= i < |messages| && 0 <= j < |messages| && Same(messages, i, j)
        ensures messages[i].toolCallID == messages[j].toolCallID
      {
        assert Observes(messages, messages[i].toolCallID) && Observes(messages, messages[j].toolCallID);
        var k :| 0 <= k < |r| && r[k].role == Tool && r[k].toolCallID == messages[i].toolCallID;
        var l :| 0 <= l < |r| && r[l].role == Tool && r[l].toolCallID == messages[j].toolCallID;
        assert Same(r, k, l) && Same(r, l, k);
      }
    }
  }

  // ---------------------------------------------------------------- calls whose identifiers differ in blanks

  function Asking(ids: seq<string>): Message {
    Message(Assistant, "", "", "", seq(|ids|, i requires 0 <= i < |ids| => ToolCall(ids[i], "f", map[])), None)
  }

  lemma BlankIsTrimmed()
    ensures Trim(" a") == "a" == Trim("a")
  {
    assert " a"[1..] == "a";
    assert TrimLeft(" a") == TrimLeft("a") == "a";
  }

  /** The answer to a call with a leading blank is refused. */
  lemma BlankBreaksAcceptance(answer: Message)
    requires answer.role == Tool && answer.toolCallID == " a"
    ensures var messages := [Asking([" a"]), answer];
      Declared(messages) && !Accepted(messages)
  {
    BlankIsTrimmed();
    var messages := [Asking([" a"]), answer];
    assert messages[0].toolCalls[0].id == " a";
    assert Declares(messages[0], " a");
    assert forall k | 0 <= k < |messages[0].toolCalls| :: messages[0].toolCalls[k].id == " a";
    assert !AcceptedAt(messages, 1);
  }

  /** The answers to two calls that differ in a blank are accepted, and the first one is lost. */
  lemma BlankMergesObservations(first: Message, second: Message)
    requires first.role == Tool && first.toolCallID == " a"
    requires second.role == Tool && second.toolCallID == "a"
    ensures var messages := [Asking([" a", "a"]), first, second];
      && Declared(messages) && Accepted(messages)
      && Observes(messages, " a") && !Observes(Normal(messages), " a")
      && second in Normal(messages)
  {
    BlankIsTrimmed();
    var messages := [Asking([" a", "a"]), first, second];
    BlanksAreDeclared(first, second);
    assert messages[1].toolCallID == " a";
    LastReplacesFirst(messages, 1, 2);
    hide Trim, NormalForm, Surviving, Accepted, Declared;
  }

  lemma BlanksAreDeclared(first: Message, second: Message)
    requires first.role == Tool && first.toolCallID == " a"
    requires second.role == Tool && second.toolCallID == "a"
    ensures var messages := [Asking([" a", "a"]), first, second];
      Declared(messages) && Accepted(messages)
  {
    hide Trim;
    BlankIsTrimmed();
    var messages := [Asking([" a", "a"]), first, second];
    assert messages[0].toolCalls[0].id == " a" && messages[0].toolCalls[1].id == "a";
    assert Declares(messages[0], " a") && Declares(messages[0], "a");
    AcceptedIffObservedTrimmed(messages);
  }

  /** An observation with another identifier of the same trimmed form is lost to the last one. */
  lemma LastReplacesFirst(messages: seq<Message>, i: nat, last: nat)
    requires i < last == |messages| - 1 && Same(messages, i, last)
    requires messages[i].toolCallID != messages[last].toolCallID
    ensures !Observes(Normal(messages), messages[i].toolCallID)
    ensures messages[last] in Normal(messages)
  {
    hide Trim, NormalForm, Surviving, Latest;
    var r := Normal(messages);
    var l := NormalKeepsCalls(messages, last);
    NormalIsUnique(messages);
    forall k | 0 <= k < |r| && r[k].role == Tool && r[k].toolCallID == messages[i].toolCallID
      ensures k == l
    {
      assert Same(r, k, l) && Same(r, l, k);
    }
  }
}
