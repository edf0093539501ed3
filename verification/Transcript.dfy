/** The grammar of a transcript: which tool messages answer which assistant message, and what
    appending a message keeps.
  */
module Transcript {
  import opened Domain

  /** Only tool messages stand between the assistant message `i` and the tool message `j`. */
  ghost predicate Follows(messages: seq<Message>, i: int, j: int) {
    && 0 <= i < j < |messages|
    && messages[i].role == Assistant
    && forall k | i < k <= j :: messages[k].role == Tool
  }

  /** The tool messages directly after an assistant message carry its call identifiers, in order. */
  ghost predicate InOrder(messages: seq<Message>) {
    forall i, j | Follows(messages, i, j) :: Answers(messages, i, j)
  }

  /** The tool message `j` carries the identifier of the call it answers by position. */
  ghost predicate Answers(messages: seq<Message>, i: int, j: int)
    requires 0 <= i < j < |messages|
  {
    j - i - 1 < |messages[i].toolCalls| && messages[j].toolCallID == messages[i].toolCalls[j - i - 1].id
  }

  /** An assistant message before position `j` declares the identifier. */
  ghost predicate DeclaredBefore(messages: seq<Message>, j: int, id: string) {
    exists i | 0 <= i < j && i < |messages| :: Declares(messages[i], id)
  }

  /** Every tool message names a call of an earlier assistant message. */
  ghost predicate Declared(messages: seq<Message>) {
    forall j | 0 <= j < |messages| && messages[j].role == Tool ::
      messages[j].toolCallID != "" && DeclaredBefore(messages, j, messages[j].toolCallID)
  }

  ghost predicate Healthy(messages: seq<Message>) {
    InOrder(messages) && Declared(messages)
  }

  /** The first `n` calls of the assistant message `i` are answered directly after it. */
  ghost predicate AnsweredUpTo(messages: seq<Message>, i: int, n: int) {
    && 0 <= i < |messages|
    && messages[i].role == Assistant
    && 0 <= n <= |messages[i].toolCalls|
    && i + n < |messages|
    && forall k | i < k <= i + n ::
         messages[k].role == Tool && messages[k].toolCallID == messages[i].toolCalls[k - i - 1].id
  }

  ghost predicate Answered(messages: seq<Message>, i: int) {
    0 <= i < |messages| && AnsweredUpTo(messages, i, |messages[i].toolCalls|)
  }

  /** The answers to the assistant message `i` stop at `end`, before all its calls are answered. */
  ghost predicate CutAt(messages: seq<Message>, i: int, end: int) {
    && AnsweredUpTo(messages, i, end - i - 1)
    && end - i - 1 < |messages[i].toolCalls|
    && (end == |messages| || messages[end].role != Tool)
  }

  /** All assistant messages from `from` on, and before `to`, have all their calls answered. */
  ghost predicate AllAnswered(messages: seq<Message>, from: int, to: int) {
    forall i | from <= i < to && 0 <= i < |messages| && messages[i].role == Assistant :: Answered(messages, i)
  }

  function AssistantCount(messages: seq<Message>): nat {
    if messages == [] then 0
    else AssistantCount(messages[..|messages| - 1]) + if messages[|messages| - 1].role == Assistant then 1 else 0
  }

  lemma CountAppend(messages: seq<Message>, message: Message)
    ensures AssistantCount(messages + [message]) ==
      AssistantCount(messages) + if message.role == Assistant then 1 else 0
  {
    assert (messages + [message])[..|messages|] == messages;
  }

  lemma CountAppendPlain(messages: seq<Message>, more: seq<Message>)
    requires forall k | 0 <= k < |more| :: more[k].role != Assistant
    ensures AssistantCount(messages + more) == AssistantCount(messages)
  {
    if more == [] {
      assert messages + more == messages;
    } else {
      var init := more[..|more| - 1];
      CountAppendPlain(messages, init);
      CountAppend(messages + init, more[|more| - 1]);
      assert messages + more == messages + init + [more[|more| - 1]];
    }
  }

  lemma AppendInOrder(messages: seq<Message>, message: Message)
    requires InOrder(messages)
    requires forall i | Follows(messages + [message], i, |messages|) :: Answers(messages + [message], i, |messages|)
    ensures InOrder(messages + [message])
  {
    var all := messages + [message];
    forall i, j | Follows(all, i, j)
      ensures Answers(all, i, j)
    {
      if j < |messages| {
        assert Follows(messages, i, j) by {
          assert forall k | i < k <= j :: messages[k] == all[k];
        }
        assert Answers(messages, i, j);
      }
    }
  }

  /** A message that is no tool message starts nothing and answers nothing. */
  lemma AppendSpeech(messages: seq<Message>, message: Message)
    requires Healthy(messages) && message.role != Tool
    ensures Healthy(messages + [message])
  {
    assert (messages + [message])[|messages|].role != Tool;
    AppendInOrder(messages, message);
    DeclaredGrows(messages, [message]);
  }

  /** Declarations are never lost, so only new tool messages need one. */
  lemma DeclaredGrows(messages: seq<Message>, more: seq<Message>)
    requires Declared(messages)
    requires forall k | 0 <= k < |more| && more[k].role == Tool ::
      more[k].toolCallID != "" && DeclaredBefore(messages, |messages|, more[k].toolCallID)
    ensures Declared(messages + more)
  {
    var all := messages + more;
    forall j | 0 <= j < |all| && all[j].role == Tool
      ensures all[j].toolCallID != "" && DeclaredBefore(all, j, all[j].toolCallID)
    {
      var bound := if j < |messages| then j else |messages|;
      assert DeclaredBefore(messages, bound, all[j].toolCallID);
      var i :| 0 <= i < bound && i < |messages| && Declares(messages[i], all[j].toolCallID);
      assert Declares(all[i], all[j].toolCallID);
    }
  }

  /** Answering the next call of the open assistant message keeps the grammar. */
  lemma AppendAnswer(messages: seq<Message>, a: int, n: int, message: Message)
    requires Healthy(messages)
    requires AnsweredUpTo(messages, a, n) && a + n + 1 == |messages| && n < |messages[a].toolCalls|
    requires message.role == Tool && message.toolCallID == messages[a].toolCalls[n].id != ""
    ensures Healthy(messages + [message])
    ensures AnsweredUpTo(messages + [message], a, n + 1)
  {
    var all := messages + [message];
    assert all[a].role == Assistant;
    assert forall i | Follows(all, i, |messages|) :: i == a;
    AppendInOrder(messages, message);
    assert Declares(messages[a], message.toolCallID);
    DeclaredGrows(messages, [message]);
  }

  /** A replayed observation does not follow an assistant message directly. */
  lemma AppendReplay(messages: seq<Message>, message: Message)
    requires Healthy(messages)
    requires messages == [] || messages[|messages| - 1].role == User
    requires message.role == Tool && message.toolCallID != ""
    requires DeclaredBefore(messages, |messages|, message.toolCallID)
    ensures Healthy(messages + [message])
  {
    var all := messages + [message];
    assert messages != [] ==> all[|messages| - 1].role == User;
    assert forall i :: !Follows(all, i, |messages|);
    AppendInOrder(messages, message);
    DeclaredGrows(messages, [message]);
  }

  lemma AnsweredGrows(messages: seq<Message>, more: seq<Message>, from: int, to: int)
    requires AllAnswered(messages, from, to) && to <= |messages|
    ensures AllAnswered(messages + more, from, to)
  {
    var all := messages + more;
    forall i | from <= i < to && 0 <= i < |all| && all[i].role == Assistant
      ensures Answered(all, i)
    {
      assert Answered(messages, i);
    }
  }
}
