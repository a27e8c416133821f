/** The chat page: session titles derived from the first user message, the model list, and
    the message list that grows optimistically while a message is being sent. Server answers
    and clock values are parameters. */
module ChatPage {
  import opened Outcomes
  import opened Text

  datatype Role = User | Assistant

  datatype Message = Message(id: string, content: string, role: Role, timestamp: string)

  /** The first message written by the user, if any. */
  function FirstUserMessage(messages: seq<Message>): (r: Option<Message>)
    ensures r.Some? <==> exists i :: 0 <= i < |messages| && messages[i].role == User
    ensures r.Some? ==> exists i :: 0 <= i < |messages| && messages[i] == r.value && r.value.role == User
                                    && forall j :: 0 <= j < i ==> messages[j].role != User
  {
    if messages == [] then None
    else if messages[0].role == User then Some(messages[0])
    else
      var r := FirstUserMessage(messages[1..]);
      assert forall i :: 1 <= i < |messages| ==> messages[1..][i - 1] == messages[i];
      r
  }

  const UntitledNew := "Nueva Conversación"
  const UntitledError := "Chat sin título"
  const TitleLength := 50

  /** The title of a session: the first user message cut to 50 characters, followed by
      "..." exactly when it was longer; a fixed title when there is no user message, another
      when the session's messages could not be fetched. */
  function SessionTitle(fetched: Option<seq<Message>>): (title: string)
    ensures fetched.None? ==> title == UntitledError
    ensures fetched.Some? && FirstUserMessage(fetched.value).None? ==> title == UntitledNew
    ensures fetched.Some? && FirstUserMessage(fetched.value).Some? ==>
      var content := FirstUserMessage(fetched.value).value.content;
      && (|content| <= TitleLength ==> title == content)
      && (|content| > TitleLength ==> |title| == TitleLength + 3 && title[..TitleLength] == content[..TitleLength]
                                      && title[TitleLength..] == "...")
  {
    match fetched
    case None => UntitledError
    case Some(messages) =>
      match FirstUserMessage(messages)
      case None => UntitledNew
      case Some(first) =>
        var title := Take(first.content, TitleLength) + (if |first.content| > TitleLength then "..." else "");
        assert |first.content| > TitleLength ==> title[..TitleLength] == Take(first.content, TitleLength);
        title
  }

  /** No title is longer than 53 characters. */
  lemma TitleBounded(fetched: Option<seq<Message>>)
    ensures |SessionTitle(fetched)| <= TitleLength + 3
  {
    assert |UntitledNew| == 18 && |UntitledError| == 15;
  }

  /** A session as listed, with its title and, when they could be fetched, its messages. */
  datatype ChatSession = ChatSession(sessionId: string, title: string, messages: Option<seq<Message>>)

  /** The listed sessions with their titles; `fetched[k]` is the answer for the k-th one. */
  function Titled(ids: seq<string>, fetched: seq<Option<seq<Message>>>): (sessions: seq<ChatSession>)
    requires |fetched| == |ids|
    ensures |sessions| == |ids|
    ensures forall k :: 0 <= k < |ids| ==>
      sessions[k] == ChatSession(ids[k], SessionTitle(fetched[k]), fetched[k])
  {
    seq(|ids|, k requires 0 <= k < |ids| => ChatSession(ids[k], SessionTitle(fetched[k]), fetched[k]))
  }

  /** An entry of the model list as the server sends it: a name, an object whose `id`,
      `name` and `model` fields are given as strings (empty when absent or falsy) together
      with its `JSON.stringify` text, or any other value with its `String()` text. */
  datatype ModelEntry = Name(name: string) | Described(id: string, displayName: string, modelId: string, json: string) | Other(text: string)

  /** The name shown for an entry: a name as it is; an object's `id`, else `name`, else
      `model`, else its JSON text; anything else as text. */
  function ModelName(entry: ModelEntry): (name: string)
    ensures entry.Name? ==> name == entry.name
    ensures entry.Described? ==> name in [entry.id, entry.displayName, entry.modelId, entry.json]
    ensures entry.Described? && entry.id != "" ==> name == entry.id
    ensures entry.Described? && entry.id == "" && entry.displayName != "" ==> name == entry.displayName
    ensures entry.Described? && entry.id == "" && entry.displayName == "" && entry.modelId != "" ==> name == entry.modelId
    ensures entry.Described? && entry.id == "" && entry.displayName == "" && entry.modelId == "" ==> name == entry.json
    ensures entry.Other? ==> name == entry.text
  {
    match entry
    case Name(name) => name
    case Described(id, displayName, modelId, json) =>
      if id != "" then id else if displayName != "" then displayName else if modelId != "" then modelId else json
    case Other(text) => text
  }

  /** The models answer: a bare list, or an object whose `models` field may be missing. */
  datatype ModelsAnswer = List(entries: seq<ModelEntry>) | Wrapped(models: Option<seq<ModelEntry>>)

  const FallbackModels := ["gpt-4o-mini", "gpt-4o", "gpt-3.5-turbo"]

  /** The answer to a send: the new session's id, the assistant message's id, `content` and
      `response` (each empty when absent). */
  datatype Reply = Reply(sessionId: string, id: string, content: string, response: string)

  /** The assistant message shown for a reply: the server's id, else one made from the
      clock, and `content`, else `response`. */
  function AnswerOf(reply: Reply, answeredAt: nat, answeredIso: string): (m: Message)
    ensures m.role == Assistant && m.timestamp == answeredIso
    ensures m.id == if reply.id != "" then reply.id else NatToString(answeredAt)
    ensures m.content == if reply.content != "" then reply.content else reply.response
  {
    Message(if reply.id != "" then reply.id else NatToString(answeredAt),
            if reply.content != "" then reply.content else reply.response, Assistant, answeredIso)
  }

  /** The messages other than those carrying `id`. */
  function WithoutId(messages: seq<Message>, id: string): (r: seq<Message>)
    ensures |r| <= |messages|
    ensures forall i :: 0 <= i < |r| ==> r[i].id != id
  {
    if messages == [] then []
    else (if messages[0].id == id then [] else [messages[0]]) + WithoutId(messages[1..], id)
  }

  /** The filter keeps exactly the messages with another id. */
  lemma {:induction false} WithoutIdMembers(messages: seq<Message>, id: string, m: Message)
    ensures m in WithoutId(messages, id) <==> m in messages && m.id != id
  {
    if messages != [] {
      WithoutIdMembers(messages[1..], id, m);
      assert messages == [messages[0]] + messages[1..];
    }
  }

  /** Removing an id no message carries changes nothing. */
  lemma {:induction false} WithoutAbsentId(messages: seq<Message>, id: string)
    requires forall i :: 0 <= i < |messages| ==> messages[i].id != id
    ensures WithoutId(messages, id) == messages
  {
    if messages != [] {
      WithoutAbsentId(messages[1..], id);
    }
  }

  /** The page's state: the input field, the messages shown, the listed sessions, the
      current session, the model list and the sending flag. */
  class ChatView {
    var draft: string
    var messages: seq<Message>
    var sessions: seq<ChatSession>
    var currentSessionId: Option<string>
    var models: seq<string>
    var loading: bool

    constructor()
      ensures draft == "" && messages == [] && sessions == [] && currentSessionId == None
      ensures models == [] && !loading
    {
      draft := "";
      messages := [];
      sessions := [];
      currentSessionId := None;
      models := [];
      loading := false;
    }

    /** `loadSessions`: every listed session gets its title; the first one, when it has an
        id, becomes current and its messages are shown. A failed listing changes nothing. */
    method LoadSessions(listed: Result<seq<string>, string>, fetched: seq<Option<seq<Message>>>)
      requires listed.Success? ==> |fetched| == |listed.value|
      modifies this
      ensures listed.Failure? ==> sessions == old(sessions) && messages == old(messages) && currentSessionId == old(currentSessionId)
      ensures listed.Success? ==> sessions == Titled(listed.value, fetched)
      ensures listed.Success? && |listed.value| > 0 && listed.value[0] != "" ==>
        && currentSessionId == Some(listed.value[0])
        && messages == fetched[0].GetOr([])
      ensures listed.Success? && (|listed.value| == 0 || listed.value[0] == "") ==>
        messages == old(messages) && currentSessionId == old(currentSessionId)
      ensures draft == old(draft) && models == old(models) && loading == old(loading)
    {
      if listed.Failure? {
        return;
      }
      sessions := Titled(listed.value, fetched);
      if |sessions| > 0 && sessions[0].sessionId != "" {
        messages := sessions[0].messages.GetOr([]);
        currentSessionId := Some(sessions[0].sessionId);
      }
    }

    /** `loadModels`: one name per entry, in order; the fixed three-model list when the
        request fails. */
    method LoadModels(answer: Result<ModelsAnswer, string>)
      modifies this
      ensures answer.Failure? ==> models == FallbackModels
      ensures answer.Success? ==>
        var entries := match answer.value
          case List(entries) => entries
          case Wrapped(m) => m.GetOr([]);
        |models| == |entries| && forall k :: 0 <= k < |entries| ==> models[k] == ModelName(entries[k])
      ensures draft == old(draft) && messages == old(messages) && sessions == old(sessions)
      ensures currentSessionId == old(currentSessionId) && loading == old(loading)
    {
      if answer.Failure? {
        models := FallbackModels;
        return;
      }
      var entries := match answer.value
        case List(entries) => entries
        case Wrapped(m) => m.GetOr([]);
      models := seq(|entries|, k requires 0 <= k < |entries| => ModelName(entries[k]));
    }

    /** `createNewSession`: no current session and no messages. */
    method CreateNewSession()
      modifies this
      ensures currentSessionId == None && messages == []
      ensures draft == old(draft) && sessions == old(sessions) && models == old(models) && loading == old(loading)
    {
      currentSessionId := None;
      messages := [];
    }

    /** `handleSendMessage`: nothing happens for a blank draft or while a send is loading.
        Otherwise the draft is cleared and shown at once as a user message stamped `sentAt`;
        on success the assistant's answer follows it (its id the server's, else `answeredAt`)
        and a first session's id becomes current; on failure every message carrying the
        temporary id is removed again. */
    method HandleSendMessage(sentAt: nat, sentIso: string, reply: Result<Reply, string>, answeredAt: nat, answeredIso: string)
      modifies this
      ensures JsTrim(old(draft)) == "" || old(loading) ==>
        draft == old(draft) && messages == old(messages) && currentSessionId == old(currentSessionId) && loading == old(loading)
      ensures JsTrim(old(draft)) != "" && !old(loading) ==>
        var sent := Message(NatToString(sentAt), old(draft), User, sentIso);
        && draft == "" && !loading
        && (reply.Success? ==>
              && messages == old(messages) + [sent, AnswerOf(reply.value, answeredAt, answeredIso)]
              && currentSessionId == (if old(currentSessionId).None? && reply.value.sessionId != "" then Some(reply.value.sessionId)
                                      else old(currentSessionId)))
        && (reply.Failure? ==> messages == WithoutId(old(messages) + [sent], sent.id) && currentSessionId == old(currentSessionId))
      ensures sessions == old(sessions) && models == old(models)
    {
      if JsTrim(draft) == "" || loading {
        return;
      }
      SendDraft(sentAt, sentIso, reply, answeredAt, answeredIso);
    }

    /** The send itself, once the draft is known to be worth sending. */
    method SendDraft(sentAt: nat, sentIso: string, reply: Result<Reply, string>, answeredAt: nat, answeredIso: string)
      modifies this
      ensures var sent := Message(NatToString(sentAt), old(draft), User, sentIso);
        && draft == "" && !loading
        && (reply.Success? ==>
              && messages == old(messages) + [sent, AnswerOf(reply.value, answeredAt, answeredIso)]
              && currentSessionId == (if old(currentSessionId).None? && reply.value.sessionId != "" then Some(reply.value.sessionId)
                                      else old(currentSessionId)))
        && (reply.Failure? ==> messages == WithoutId(old(messages) + [sent], sent.id) && currentSessionId == old(currentSessionId))
      ensures sessions == old(sessions) && models == old(models)
    {
      var userMessage := draft;
      draft := "";
      loading := true;
      var sent := Message(NatToString(sentAt), userMessage, User, sentIso);
      messages := messages + [sent];
      match reply {
        case Success(r) =>
          if currentSessionId.None? && r.sessionId != "" {
            currentSessionId := Some(r.sessionId);
          }
          var answer := AnswerOf(r, answeredAt, answeredIso);
          assert messages + [answer] == old(messages) + [sent, answer];
          messages := messages + [answer];
        case Failure(_) =>
          messages := WithoutId(messages, sent.id);
      }
      loading := false;
    }
  }

  /** A failed send leaves the messages as they were, provided no earlier message carries
      the temporary id. */
  lemma FailedSendRestoresMessages(before: seq<Message>, sent: Message)
    requires forall i :: 0 <= i < |before| ==> before[i].id != sent.id
    ensures WithoutId(before + [sent], sent.id) == before
  {
    WithoutIdAppend(before, [sent], sent.id);
    WithoutAbsentId(before, sent.id);
    assert [sent][1..] == [];
  }

  lemma {:induction false} WithoutIdAppend(a: seq<Message>, b: seq<Message>, id: string)
    ensures WithoutId(a + b, id) == WithoutId(a, id) + WithoutId(b, id)
  {
    if a != [] {
      WithoutIdAppend(a[1..], b, id);
      assert (a + b)[0] == a[0] && (a + b)[1..] == a[1..] + b;
    } else {
      assert a + b == b;
    }
  }
}
