// The conversation store of backend/storage.py. The data directory of JSON
// files becomes an in-memory map from conversation id to conversation, held
// by a `ConversationStore` object whose methods update it in place; the clock
// is a caller-supplied timestamp string.

module Storage {
  import opened Wrappers
  import opened Json
  import Text

  /** A stored message: a dict from field name to value. */
  type Message = map<string, Value>

  /** One conversation file: its id, creation time, title (None for a file that has no title) and messages. */
  datatype Conversation = Conversation(id: string, createdAt: string, title: Option<string>, messages: seq<Message>)

  const NewTitle: string := "New Conversation"
  const PendingStatus: string := "clarification_pending"
  const SubmittedStatus: string := "clarification_submitted"
  const CompleteStatus: string := "complete"

  /** The statuses find_pending_intent_message looks for when it is given none. */
  const DefaultStatuses: seq<string> := [PendingStatus, SubmittedStatus]

  /** `statuses`, or the default ones when it is None. */
  function StatusesOr(statuses: Option<seq<string>>): seq<string>
  {
    if statuses.None? then DefaultStatuses else statuses.value
  }

  /** `metadata or {}`. */
  function OrEmpty(v: Value): (r: Value)
    ensures Truthy(v) ==> r == v
    ensures !Truthy(v) ==> r == Obj([])
  {
    if Truthy(v) then v else Obj([])
  }

  // ---------------------------------------------------------------------------
  // The messages.

  /** The message add_user_message appends. */
  function UserMessage(content: string): (m: Message)
    ensures m.Keys == {"role", "content"} && m["role"] == Str("user") && m["content"] == Str(content)
    ensures forall statuses :: !Awaiting(m, statuses)
  {
    map["role" := Str("user"), "content" := Str(content)]
  }

  /** The message add_assistant_message appends, or the exception `stage3["response"]` raises. */
  function AssistantMessage(stage0: Value, stage1: Value, stage2: Value, stage3: Value, metadata: Value): (r: Result<Message, PyError>)
    ensures r.Ok? <==> Subscript(stage3, "response").Ok?
    ensures r.Ok? ==> && r.value.Keys == {"role", "content", "stage0", "stage1", "stage2", "stage3", "metadata"}
                      && r.value["role"] == Str("assistant") && r.value["content"] == Subscript(stage3, "response").value
                      && r.value["stage0"] == stage0 && r.value["stage1"] == stage1
                      && r.value["stage2"] == stage2 && r.value["stage3"] == stage3
                      && r.value["metadata"] == OrEmpty(metadata)
                      && forall statuses :: !Awaiting(r.value, statuses)
  {
    match Subscript(stage3, "response")
    case Err(x) => Err(x)
    case Ok(response) =>
      Ok(map["role" := Str("assistant"), "content" := response, "stage0" := stage0, "stage1" := stage1,
             "stage2" := stage2, "stage3" := stage3, "metadata" := OrEmpty(metadata)])
  }

  /**
   * The message add_assistant_message_debate appends: the contributions are
   * stored twice, under "contributions" and "debate", and stage 0 keeps the
   * metadata's intent analysis. `stage3["response"]` and `.get` on metadata
   * that is not a dict raise.
   */
  function DebateMessage(experts: Value, contributions: Value, stage3: Value, metadata: Value): (r: Result<Message, PyError>)
    ensures r.Ok? <==> Subscript(stage3, "response").Ok? && OrEmpty(metadata).Obj?
    ensures !Subscript(stage3, "response").Ok? ==> r == Err(Subscript(stage3, "response").error)
    ensures !OrEmpty(metadata).Obj? ==> r.Err?
    // the response is read first; only then does `.get` on truthy metadata that is not a dict raise
    ensures Subscript(stage3, "response").Ok? && !OrEmpty(metadata).Obj? ==> r == Err(AttributeError)
    ensures r.Ok? ==> && r.value.Keys == {"role", "content", "stage0", "experts", "contributions", "debate", "stage3", "metadata"}
                      && r.value["role"] == Str("assistant") && r.value["content"] == Subscript(stage3, "response").value
                      && r.value["experts"] == experts && r.value["stage3"] == stage3
                      && r.value["contributions"] == contributions && r.value["debate"] == contributions
                      && r.value["stage0"] == Obj([("analysis", Get(OrEmpty(metadata).fields, "intent_analysis", Str("")))])
                      && r.value["metadata"] == OrEmpty(metadata)
                      && forall statuses :: !Awaiting(r.value, statuses)
  {
    var safe := OrEmpty(metadata);
    match Subscript(stage3, "response")
    case Err(x) => Err(x)
    case Ok(response) =>
      if !safe.Obj? then Err(AttributeError)
      else
        Ok(map["role" := Str("assistant"), "content" := response,
               "stage0" := Obj([("analysis", Get(safe.fields, "intent_analysis", Str("")))]),
               "experts" := experts, "contributions" := contributions, "debate" := contributions,
               "stage3" := stage3, "metadata" := safe])
  }

  /** The intent draft as stored: its "draft_intent" when it is a dict (None when that is missing), else the draft itself. */
  function StoredDraft(draft: Value): Value
  {
    if draft.Obj? then Get(draft.fields, "draft_intent", Null) else draft
  }

  /** The message add_assistant_message_intent_draft appends: an assistant message awaiting clarification. */
  function IntentDraftMessage(draft: Value, display: Value, questions: Value, metadata: Value): (m: Message)
    ensures m.Keys == {"role", "status", "intent_draft", "intent_display", "clarification_questions", "metadata"}
    ensures Awaiting(m, DefaultStatuses) && Awaiting(m, [PendingStatus]) && m["status"] == Str(PendingStatus)
    ensures m["intent_draft"] == StoredDraft(draft) && m["clarification_questions"] == questions
    ensures m["intent_display"] == display && m["metadata"] == OrEmpty(metadata)
  {
    map["role" := Str("assistant"), "status" := Str(PendingStatus), "intent_draft" := StoredDraft(draft),
        "intent_display" := display, "clarification_questions" := questions, "metadata" := OrEmpty(metadata)]
  }

  /** `msg.get("role") == "assistant" and msg.get("status") in statuses`. */
  predicate Awaiting(m: Message, statuses: seq<string>)
  {
    "role" in m && m["role"] == Str("assistant") && "status" in m && m["status"].Str? && m["status"].s in statuses
  }

  /** The message mark_pending_intent_submitted stores back: status submitted, the answers recorded, the rest kept. */
  function SubmittedMessage(m: Message, answers: Value): Message
  {
    m["status" := Str(SubmittedStatus)]["clarification_answers" := answers]
  }

  /** The keys finalize_intent_message overwrites. */
  const FinalKeys: set<string> := {"status", "content", "stage0", "experts", "contributions", "debate", "stage3", "metadata"}

  /**
   * The message finalize_intent_message stores back: `m` updated with the
   * pipeline results, or the AttributeError of `stage3.get` when stage3 is
   * not a dict.
   */
  function FinalizedMessage(m: Message, intent: string, experts: Value, contributions: Value, stage3: Value, metadata: Value): Result<Message, PyError>
  {
    if !stage3.Obj? then Err(AttributeError)
    else
      Ok(m + map["status" := Str(CompleteStatus), "content" := Get(stage3.fields, "response", Str("")),
                 "stage0" := Obj([("analysis", Str(intent))]), "experts" := experts,
                 "contributions" := contributions, "debate" := contributions,
                 "stage3" := stage3, "metadata" := OrEmpty(metadata)])
  }

  /**
   * Finalising completes the message: status "complete", the content the
   * answer or "", the contributions under both keys; every key it does not
   * overwrite (the draft, the answers) keeps its value.
   */
  lemma FinalizedFields(m: Message, intent: string, experts: Value, contributions: Value, stage3: Value, metadata: Value)
    ensures var r := FinalizedMessage(m, intent, experts, contributions, stage3, metadata);
            && (r.Ok? <==> stage3.Obj?)
            && (r.Ok? ==> && r.value.Keys == m.Keys + FinalKeys
                          && r.value["status"] == Str(CompleteStatus)
                          && r.value["content"] == Get(stage3.fields, "response", Str(""))
                          && r.value["contributions"] == contributions && r.value["debate"] == contributions
                          && r.value["stage0"] == Obj([("analysis", Str(intent))])
                          && r.value["experts"] == experts && r.value["stage3"] == stage3
                          && r.value["metadata"] == OrEmpty(metadata)
                          && forall k :: k in m && k !in FinalKeys ==> r.value[k] == m[k])
  {
  }

  // ---------------------------------------------------------------------------
  // The backward scan.

  /** The greatest index below `n` whose message awaits clarification with one of `statuses`. */
  function LatestAwaiting(msgs: seq<Message>, statuses: seq<string>, n: nat): (r: Option<nat>)
    requires n <= |msgs|
    ensures r.Some? ==> r.value < n && Awaiting(msgs[r.value], statuses)
    ensures r.Some? ==> forall j :: r.value < j < n ==> !Awaiting(msgs[j], statuses)
    ensures r.None? <==> forall j :: 0 <= j < n ==> !Awaiting(msgs[j], statuses)
  {
    if n == 0 then None
    else if Awaiting(msgs[n - 1], statuses) then Some(n - 1)
    else LatestAwaiting(msgs, statuses, n - 1)
  }

  /** The index find_pending_intent_message finds in the stored conversation `id`, None when there is none or no such conversation. */
  function PendingIndex(store: map<string, Conversation>, id: string, statuses: seq<string>): (r: Option<nat>)
    ensures r.Some? ==> id in store && r.value < |store[id].messages|
  {
    if id !in store then None else LatestAwaiting(store[id].messages, statuses, |store[id].messages|)
  }

  /** Nothing at or after `i` awaits any more: the scan finds what it finds among the messages before `i`. */
  lemma LatestBelow(msgs: seq<Message>, statuses: seq<string>, i: nat)
    requires i <= |msgs|
    requires forall j :: i <= j < |msgs| ==> !Awaiting(msgs[j], statuses)
    ensures LatestAwaiting(msgs, statuses, |msgs|) == LatestAwaiting(msgs, statuses, i)
    decreases |msgs| - i
  {
    if i < |msgs| {
      LatestBelowStep(msgs, statuses, i, |msgs|);
    }
  }

  lemma {:induction false} LatestBelowStep(msgs: seq<Message>, statuses: seq<string>, i: nat, n: nat)
    requires i <= n <= |msgs|
    requires forall j :: i <= j < n ==> !Awaiting(msgs[j], statuses)
    ensures LatestAwaiting(msgs, statuses, n) == LatestAwaiting(msgs, statuses, i)
    decreases n - i
  {
    if n > i {
      LatestBelowStep(msgs, statuses, i, n - 1);
    }
  }

  /** Replacing only message `i` leaves the scan below `i` as it was. */
  lemma {:induction false} LatestIgnoresLater(msgs: seq<Message>, statuses: seq<string>, i: nat, m: Message, n: nat)
    requires n <= i < |msgs|
    ensures LatestAwaiting(msgs[i := m], statuses, n) == LatestAwaiting(msgs, statuses, n)
  {
    if n > 0 {
      LatestIgnoresLater(msgs, statuses, i, m, n - 1);
    }
  }

  /** Once submitted, the message is still the one the default scan finds; a scan for pending messages only passes over it. */
  lemma SubmittedStillFound(msgs: seq<Message>, i: nat, answers: Value)
    requires i < |msgs| && LatestAwaiting(msgs, DefaultStatuses, |msgs|) == Some(i)
    ensures LatestAwaiting(msgs[i := SubmittedMessage(msgs[i], answers)], DefaultStatuses, |msgs|) == Some(i)
    ensures LatestAwaiting(msgs[i := SubmittedMessage(msgs[i], answers)], [PendingStatus], |msgs|) != Some(i)
  {
    var after := msgs[i := SubmittedMessage(msgs[i], answers)];
    assert Awaiting(after[i], DefaultStatuses);
    forall j | i < j < |msgs|
      ensures !Awaiting(after[j], DefaultStatuses)
    {
      assert after[j] == msgs[j];
    }
    LatestBelow(after, DefaultStatuses, i + 1);
    assert !Awaiting(after[i], [PendingStatus]);
  }

  /**
   * Once finalised, the message is no longer found: the default scan goes on
   * to the latest awaiting message before it, if any.
   */
  lemma FinalizedNotFound(msgs: seq<Message>, i: nat, intent: string, experts: Value, contributions: Value, stage3: Value, metadata: Value)
    requires i < |msgs| && LatestAwaiting(msgs, DefaultStatuses, |msgs|) == Some(i)
    requires FinalizedMessage(msgs[i], intent, experts, contributions, stage3, metadata).Ok?
    ensures var after := msgs[i := FinalizedMessage(msgs[i], intent, experts, contributions, stage3, metadata).value];
            LatestAwaiting(after, DefaultStatuses, |msgs|) == LatestAwaiting(msgs, DefaultStatuses, i)
  {
    var fin := FinalizedMessage(msgs[i], intent, experts, contributions, stage3, metadata).value;
    var after := msgs[i := fin];
    assert fin["status"] == Str(CompleteStatus);
    forall j | i <= j < |msgs|
      ensures !Awaiting(after[j], DefaultStatuses)
    {
      if j > i {
        assert after[j] == msgs[j];
      }
    }
    LatestBelow(after, DefaultStatuses, i);
    LatestIgnoresLater(msgs, DefaultStatuses, i, fin, i);
  }

  /** A freshly appended intent draft is what the default scan finds. */
  lemma DraftIsFound(msgs: seq<Message>, draft: Value, display: Value, questions: Value, metadata: Value)
    ensures var after := msgs + [IntentDraftMessage(draft, display, questions, metadata)];
            LatestAwaiting(after, DefaultStatuses, |after|) == Some(|msgs|)
  {
    var after := msgs + [IntentDraftMessage(draft, display, questions, metadata)];
    assert after[|msgs|] == IntentDraftMessage(draft, display, questions, metadata);
  }

  /**
   * A pending message through the rest of the clarification lifecycle:
   * submitted, then complete. The scans find it while it awaits and not once
   * it is complete, and every field the draft recorded survives, as do the
   * answers.
   */
  lemma ClarificationLifecycle(m: Message, answers: Value, intent: string, experts: Value, contributions: Value, stage3: Value, metadata: Value)
    requires Awaiting(m, [PendingStatus]) && stage3.Obj?
    ensures var submitted := SubmittedMessage(m, answers);
            var complete := FinalizedMessage(submitted, intent, experts, contributions, stage3, metadata);
            && Awaiting(submitted, DefaultStatuses) && !Awaiting(submitted, [PendingStatus])
            && complete.Ok? && complete.value["status"] == Str(CompleteStatus) && !Awaiting(complete.value, DefaultStatuses)
            && complete.value["clarification_answers"] == answers
            && forall k :: k in m && k !in FinalKeys && k != "clarification_answers" ==> complete.value[k] == m[k]
  {
    var submitted := SubmittedMessage(m, answers);
    SubmittedFields(m, answers);
    FinalizedFields(submitted, intent, experts, contributions, stage3, metadata);
  }

  /** Submitting keeps every field but the status and the answers; the message then awaits as submitted. */
  lemma SubmittedFields(m: Message, answers: Value)
    requires "role" in m && m["role"] == Str("assistant")
    ensures var s := SubmittedMessage(m, answers);
            && s.Keys == m.Keys + {"status", "clarification_answers"}
            && s["status"] == Str(SubmittedStatus) && s["clarification_answers"] == answers
            && Awaiting(s, DefaultStatuses) && !Awaiting(s, [PendingStatus])
            && forall k :: k in m && k != "status" && k != "clarification_answers" ==> s[k] == m[k]
  {
  }

  // ---------------------------------------------------------------------------
  // The listing.

  /** The metadata record list_conversations reports for one conversation. */
  datatype Listing = Listing(id: string, createdAt: string, title: string, messageCount: nat)

  function ListingOf(c: Conversation): Listing
  {
    Listing(c.id, c.createdAt, if c.title.Some? then c.title.value else NewTitle, |c.messages|)
  }

  /** Newest first: creation times never increase along the list. */
  predicate NewestFirst(xs: seq<Listing>)
  {
    forall i, j :: 0 <= i < j < |xs| ==> Text.LexLe(xs[j].createdAt, xs[i].createdAt)
  }

  /** `x` put in front of the first entry not newer than it. */
  function InsertNewest(x: Listing, xs: seq<Listing>): (r: seq<Listing>)
    requires NewestFirst(xs)
    ensures NewestFirst(r) && multiset(r) == multiset(xs) + multiset{x}
  {
    if xs == [] then [x]
    else if Text.LexLe(xs[0].createdAt, x.createdAt) then
      InsertFront(x, xs);
      [x] + xs
    else
      var rest := InsertNewest(x, xs[1..]);
      Text.LexLeTotal(xs[0].createdAt, x.createdAt);
      InsertBehind(xs[0], xs[1..], rest, x);
      assert xs == [xs[0]] + xs[1..];
      [xs[0]] + rest
  }

  lemma InsertFront(x: Listing, xs: seq<Listing>)
    requires NewestFirst(xs) && xs != [] && Text.LexLe(xs[0].createdAt, x.createdAt)
    ensures NewestFirst([x] + xs)
  {
    var r := [x] + xs;
    forall i, j | 0 <= i < j < |r|
      ensures Text.LexLe(r[j].createdAt, r[i].createdAt)
    {
      if i == 0 && j > 1 {
        Text.LexLeTransitive(r[j].createdAt, xs[0].createdAt, x.createdAt);
      }
    }
  }

  lemma InsertBehind(head: Listing, tail: seq<Listing>, rest: seq<Listing>, x: Listing)
    requires NewestFirst([head] + tail) && NewestFirst(rest)
    requires multiset(rest) == multiset(tail) + multiset{x}
    requires Text.LexLe(x.createdAt, head.createdAt)
    ensures NewestFirst([head] + rest)
  {
    var r := [head] + rest;
    forall j | 0 < j < |r|
      ensures Text.LexLe(r[j].createdAt, head.createdAt)
    {
      assert r[j] in multiset(rest);
      assert ([head] + tail)[0] == head;
      if r[j] != x {
        assert r[j] in multiset(tail);
        var k :| 0 <= k < |tail| && tail[k] == r[j];
        assert ([head] + tail)[k + 1] == r[j];
      }
    }
  }

  /** `sort(key=created_at, reverse=True)`: the same records, newest first. */
  function SortNewestFirst(xs: seq<Listing>): (r: seq<Listing>)
    ensures NewestFirst(r) && multiset(r) == multiset(xs)
  {
    if xs == [] then []
    else
      var sorted := SortNewestFirst(xs[1..]);
      assert xs == [xs[0]] + xs[1..];
      InsertNewest(xs[0], sorted)
  }

  // ---------------------------------------------------------------------------
  // The store.

  /** The conversation `c` with `m` appended to its messages. */
  function Appended(c: Conversation, m: Message): (d: Conversation)
    ensures d.id == c.id && d.createdAt == c.createdAt && d.title == c.title
    ensures |d.messages| == |c.messages| + 1 && d.messages[..|c.messages|] == c.messages && d.messages[|c.messages|] == m
  {
    c.(messages := c.messages + [m])
  }

  /** The conversation `c` with message `i` replaced by `m`. */
  function Replaced(c: Conversation, i: nat, m: Message): (d: Conversation)
    requires i < |c.messages|
    ensures d.id == c.id && d.createdAt == c.createdAt && d.title == c.title
    ensures |d.messages| == |c.messages| && d.messages[i] == m
    ensures forall j :: 0 <= j < |c.messages| && j != i ==> d.messages[j] == c.messages[j]
  {
    c.(messages := c.messages[i := m])
  }

  /** The data directory: one conversation per id. */
  class ConversationStore {
    var conversations: map<string, Conversation>

    /** Every conversation is stored under its own id. */
    ghost predicate Valid()
      reads this
    {
      forall id :: id in conversations ==> conversations[id].id == id
    }

    /** An empty data directory. */
    constructor ()
      ensures conversations == map[] && Valid()
    {
      conversations := map[];
    }

    /** get_conversation. */
    function GetConversation(id: string): (r: Option<Conversation>)
      reads this
      ensures r.Some? <==> id in conversations
      ensures r.Some? ==> r.value == conversations[id]
    {
      if id in conversations then Some(conversations[id]) else None
    }

    /** create_conversation: a fresh record stored under `id`, replacing any conversation already there. */
    method CreateConversation(id: string, now: string) returns (c: Conversation)
      requires Valid()
      modifies this
      ensures Valid()
      ensures c == Conversation(id, now, Some(NewTitle), [])
      ensures conversations == old(conversations)[id := c]
    {
      c := Conversation(id, now, Some(NewTitle), []);
      conversations := conversations[id := c];
    }

    /** Appends `m` to conversation `id`, which must exist. */
    method Append(id: string, m: Message)
      requires Valid() && id in conversations
      modifies this
      ensures Valid()
      ensures conversations == old(conversations)[id := Appended(old(conversations)[id], m)]
    {
      var conversation := conversations[id];
      conversation := conversation.(messages := conversation.messages + [m]);
      conversations := conversations[conversation.id := conversation];
    }

    /** add_user_message. */
    method AddUserMessage(id: string, content: string) returns (r: Result<(), PyError>)
      requires Valid()
      modifies this
      ensures Valid()
      ensures id !in old(conversations) ==> r == Err(ValueError) && conversations == old(conversations)
      ensures id in old(conversations) ==> r == Ok(()) && conversations == old(conversations)[id := Appended(old(conversations)[id], UserMessage(content))]
    {
      if id !in conversations {
        return Err(ValueError);
      }
      Append(id, UserMessage(content));
      return Ok(());
    }

    /** add_assistant_message. */
    method AddAssistantMessage(id: string, stage0: Value, stage1: Value, stage2: Value, stage3: Value, metadata: Value)
        returns (r: Result<(), PyError>)
      requires Valid()
      modifies this
      ensures Valid()
      ensures var m := AssistantMessage(stage0, stage1, stage2, stage3, metadata);
              && (id !in old(conversations) ==> r == Err(ValueError))
              && (id in old(conversations) && m.Err? ==> r == Err(m.error))
              && (r.Err? ==> conversations == old(conversations))
              && (id in old(conversations) && m.Ok? ==> r == Ok(()) && conversations == old(conversations)[id := Appended(old(conversations)[id], m.value)])
    {
      if id !in conversations {
        return Err(ValueError);
      }
      var m := AssistantMessage(stage0, stage1, stage2, stage3, metadata);
      if m.Err? {
        return Err(m.error);
      }
      Append(id, m.value);
      return Ok(());
    }

    /** add_assistant_message_debate. */
    method AddAssistantMessageDebate(id: string, experts: Value, contributions: Value, stage3: Value, metadata: Value)
        returns (r: Result<(), PyError>)
      requires Valid()
      modifies this
      ensures Valid()
      ensures var m := DebateMessage(experts, contributions, stage3, metadata);
              && (id !in old(conversations) ==> r == Err(ValueError))
              && (id in old(conversations) && m.Err? ==> r == Err(m.error))
              && (r.Err? ==> conversations == old(conversations))
              && (id in old(conversations) && m.Ok? ==> r == Ok(()) && conversations == old(conversations)[id := Appended(old(conversations)[id], m.value)])
    {
      if id !in conversations {
        return Err(ValueError);
      }
      var m := DebateMessage(experts, contributions, stage3, metadata);
      if m.Err? {
        return Err(m.error);
      }
      Append(id, m.value);
      return Ok(());
    }

    /** add_assistant_message_intent_draft. */
    method AddAssistantMessageIntentDraft(id: string, draft: Value, display: Value, questions: Value, metadata: Value)
        returns (r: Result<(), PyError>)
      requires Valid()
      modifies this
      ensures Valid()
      ensures id !in old(conversations) ==> r == Err(ValueError) && conversations == old(conversations)
      ensures id in old(conversations) ==>
                r == Ok(()) && conversations == old(conversations)[id := Appended(old(conversations)[id], IntentDraftMessage(draft, display, questions, metadata))]
    {
      if id !in conversations {
        return Err(ValueError);
      }
      Append(id, IntentDraftMessage(draft, display, questions, metadata));
      return Ok(());
    }

    /** find_pending_intent_message: the scan from the last message back to the first. */
    method FindPendingIntentMessage(id: string, statuses: Option<seq<string>>) returns (found: Option<(nat, Message)>)
      ensures var i := PendingIndex(conversations, id, StatusesOr(statuses));
              && (i.None? ==> found.None?)
              && (i.Some? ==> found == Some((i.value, conversations[id].messages[i.value])))
    {
      if id !in conversations {
        return None;
      }
      var messages := conversations[id].messages;
      var wanted := StatusesOr(statuses);
      var idx: int := |messages| - 1;
      while idx >= 0
        invariant -1 <= idx < |messages|
        invariant LatestAwaiting(messages, wanted, |messages|) == LatestAwaiting(messages, wanted, idx + 1)
        decreases idx
      {
        var msg := messages[idx];
        if Awaiting(msg, wanted) {
          return Some((idx, msg));
        }
        idx := idx - 1;
      }
      return None;
    }

    /** mark_pending_intent_submitted: only the latest awaiting message changes, to submitted with the answers. */
    method MarkPendingIntentSubmitted(id: string, answers: Value) returns (r: Result<(), PyError>)
      requires Valid()
      modifies this
      ensures Valid()
      ensures var i := PendingIndex(old(conversations), id, DefaultStatuses);
              && (i.None? ==> r == Err(ValueError) && conversations == old(conversations))
              && (i.Some? ==>
                    var c := old(conversations)[id];
                    r == Ok(()) && conversations == old(conversations)[id := Replaced(c, i.value, SubmittedMessage(c.messages[i.value], answers))])
    {
      var found := FindPendingIntentMessage(id, None);
      if found.None? {
        return Err(ValueError);
      }
      var (idx, msg) := found.value;
      var conversation := conversations[id];
      msg := msg["status" := Str(SubmittedStatus)];
      msg := msg["clarification_answers" := answers];
      conversation := conversation.(messages := conversation.messages[idx := msg]);
      conversations := conversations[conversation.id := conversation];
      return Ok(());
    }

    /** finalize_intent_message: only the latest awaiting message changes, completed with the pipeline results. */
    method FinalizeIntentMessage(id: string, intent: string, experts: Value, contributions: Value, stage3: Value, metadata: Value)
        returns (r: Result<(), PyError>)
      requires Valid()
      modifies this
      ensures Valid()
      ensures var i := PendingIndex(old(conversations), id, DefaultStatuses);
              && (i.None? ==> r == Err(ValueError))
              && (i.Some? && !stage3.Obj? ==> r == Err(AttributeError))
              && (r.Err? ==> conversations == old(conversations))
              && (i.Some? && stage3.Obj? ==>
                    var c := old(conversations)[id];
                    var m := FinalizedMessage(c.messages[i.value], intent, experts, contributions, stage3, metadata);
                    r == Ok(()) && conversations == old(conversations)[id := Replaced(c, i.value, m.value)])
    {
      var found := FindPendingIntentMessage(id, None);
      if found.None? {
        return Err(ValueError);
      }
      var (idx, msg) := found.value;
      var conversation := conversations[id];
      var updated := FinalizedMessage(msg, intent, experts, contributions, stage3, metadata);
      if updated.Err? {
        return Err(updated.error);
      }
      conversation := conversation.(messages := conversation.messages[idx := updated.value]);
      conversations := conversations[conversation.id := conversation];
      return Ok(());
    }

    /** update_conversation_title: only the title changes. */
    method UpdateConversationTitle(id: string, title: string) returns (r: Result<(), PyError>)
      requires Valid()
      modifies this
      ensures Valid()
      ensures id !in old(conversations) ==> r == Err(ValueError) && conversations == old(conversations)
      ensures id in old(conversations) ==> r == Ok(()) && conversations == old(conversations)[id := old(conversations)[id].(title := Some(title))]
    {
      if id !in conversations {
        return Err(ValueError);
      }
      var conversation := conversations[id];
      conversation := conversation.(title := Some(title));
      conversations := conversations[conversation.id := conversation];
      return Ok(());
    }

    /** delete_conversation: the conversation is removed, and nothing else. */
    method DeleteConversation(id: string) returns (r: Result<(), PyError>)
      requires Valid()
      modifies this
      ensures Valid()
      ensures id !in old(conversations) ==> r == Err(ValueError) && conversations == old(conversations)
      ensures id in old(conversations) ==> r == Ok(()) && conversations == old(conversations) - {id}
    {
      if id !in conversations {
        return Err(ValueError);
      }
      conversations := conversations - {id};
      return Ok(());
    }

    /**
     * list_conversations: one record per stored conversation, built in
     * whatever order the directory yields the files, then sorted newest first.
     */
    method ListConversations() returns (listing: seq<Listing>)
      requires Valid()
      ensures NewestFirst(listing)
      ensures |listing| == |conversations|
      ensures Covers(listing, conversations, conversations.Keys)
      ensures Describes(listing, conversations, conversations.Keys)
    {
      var collected := CollectListings(conversations);
      listing := SortNewestFirst(collected);
      SameRecords(collected, listing, conversations, conversations.Keys);
    }
  }

  /** The loop of list_conversations over the directory: one record per file, in the order the directory yields them. */
  method CollectListings(store: map<string, Conversation>) returns (collected: seq<Listing>)
    requires forall id :: id in store ==> store[id].id == id
    ensures |collected| == |store|
    ensures Covers(collected, store, store.Keys) && Describes(collected, store, store.Keys)
  {
    var remaining := store.Keys;
    ghost var done: set<string> := {};
    collected := [];
    while remaining != {}
      invariant done <= store.Keys && remaining == store.Keys - done
      invariant |collected| == |done|
      invariant Covers(collected, store, done)
      invariant Describes(collected, store, done)
      decreases |remaining|
    {
      var id :| id in remaining;
      assert id !in done && id in store;
      CollectOne(collected, store, done, id);
      collected := collected + [ListingOf(store[id])];
      remaining := remaining - {id};
      done := done + {id};
    }
    assert done == store.Keys;
  }

  /** Every conversation whose id is in `ids` has its record in `xs`. */
  ghost predicate Covers(xs: seq<Listing>, store: map<string, Conversation>, ids: set<string>)
  {
    forall id :: id in ids && id in store ==> ListingOf(store[id]) in xs
  }

  /** Every record in `xs` is the record of a conversation whose id is in `ids`. */
  ghost predicate Describes(xs: seq<Listing>, store: map<string, Conversation>, ids: set<string>)
  {
    forall k :: 0 <= k < |xs| ==> xs[k].id in ids && xs[k].id in store && xs[k] == ListingOf(store[xs[k].id])
  }

  /** Adding the record of conversation `id` extends both properties to `ids + {id}`. */
  lemma CollectOne(xs: seq<Listing>, store: map<string, Conversation>, ids: set<string>, id: string)
    requires id in store && store[id].id == id && id !in ids
    requires |xs| == |ids|
    requires Covers(xs, store, ids) && Describes(xs, store, ids)
    ensures |xs + [ListingOf(store[id])]| == |ids + {id}|
    ensures Covers(xs + [ListingOf(store[id])], store, ids + {id})
    ensures Describes(xs + [ListingOf(store[id])], store, ids + {id})
  {
    var ys := xs + [ListingOf(store[id])];
    forall i | i in ids + {id} && i in store
      ensures ListingOf(store[i]) in ys
    {
      if i != id {
        var k :| 0 <= k < |xs| && xs[k] == ListingOf(store[i]);
        assert ys[k] == xs[k];
      } else {
        assert ys[|xs|] == ListingOf(store[id]);
      }
    }
    forall k | 0 <= k < |ys|
      ensures ys[k].id in ids + {id} && ys[k].id in store && ys[k] == ListingOf(store[ys[k].id])
    {
      if k < |xs| {
        assert ys[k] == xs[k];
      }
    }
  }

  /** A permutation of the records keeps both properties and the length. */
  lemma SameRecords(xs: seq<Listing>, ys: seq<Listing>, store: map<string, Conversation>, ids: set<string>)
    requires multiset(ys) == multiset(xs)
    requires Covers(xs, store, ids) && Describes(xs, store, ids)
    ensures |ys| == |xs|
    ensures Covers(ys, store, ids) && Describes(ys, store, ids)
  {
    assert |multiset(ys)| == |multiset(xs)|;
    forall id | id in ids && id in store
      ensures ListingOf(store[id]) in ys
    {
      assert ListingOf(store[id]) in multiset(xs);
    }
    forall k | 0 <= k < |ys|
      ensures ys[k].id in ids && ys[k].id in store && ys[k] == ListingOf(store[ys[k].id])
    {
      assert ys[k] in multiset(ys);
      var j :| 0 <= j < |xs| && xs[j] == ys[k];
    }
  }
}
