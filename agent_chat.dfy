/**
 * The agent chat page: the submit guard on the input box, and the three-step turn
 * (store the user's message, call the chat agent, store the agent's reply) that aborts
 * at the first step that fails. The message table and the agent are reached through
 * a `MessageStore` and a `TurnWorld` that says how each remote step answers.
 */
module AgentChat {
  import opened Wrappers

  // ---------------------------------------------------------------------------
  // String trimming, as `String.prototype.trim` does it
  // ---------------------------------------------------------------------------

  /** The characters `trim` removes: the ECMAScript WhiteSpace and LineTerminator sets. */
  predicate IsJsSpace(c: char) {
    || c == '\t' || c == '\n' || c == '\U{000B}' || c == '\U{000C}' || c == '\r' || c == ' '
    || c == '\U{00A0}' || c == '\U{1680}' || ('\U{2000}' <= c <= '\U{200A}')
    || c == '\U{2028}' || c == '\U{2029}' || c == '\U{202F}' || c == '\U{205F}'
    || c == '\U{3000}' || c == '\U{FEFF}'
  }

  /** `s` without its leading white space: the longest suffix that does not start with it. */
  function TrimStart(s: string): (r: string)
    ensures |r| <= |s| && r == s[|s| - |r|..]
    ensures forall k :: 0 <= k < |s| - |r| ==> IsJsSpace(s[k])
    ensures r != [] ==> !IsJsSpace(r[0])
  {
    if s != [] && IsJsSpace(s[0]) then TrimStart(s[1..]) else s
  }

  /** `s` without its trailing white space: the longest prefix that does not end with it. */
  function TrimEnd(s: string): (r: string)
    ensures |r| <= |s| && r == s[..|r|]
    ensures forall k :: |r| <= k < |s| ==> IsJsSpace(s[k])
    ensures r != [] ==> !IsJsSpace(r[|r| - 1])
  {
    if s != [] && IsJsSpace(s[|s| - 1]) then TrimEnd(s[..|s| - 1]) else s
  }

  /** `s.trim()`. */
  function Trim(s: string): string {
    TrimEnd(TrimStart(s))
  }

  /** `s` has a character that is not white space. */
  predicate HasContent(s: string) {
    exists k :: 0 <= k < |s| && !IsJsSpace(s[k])
  }

  /** A prefix of a suffix is a slice. */
  lemma SliceOfSuffix<T>(s: seq<T>, i: nat, n: nat)
    requires i + n <= |s|
    ensures s[i..][..n] == s[i..i + n]
  {
  }

  /** The trimmed string is a window of `s`, starting where the leading white space ends. */
  lemma TrimIsWindow(s: string)
    ensures var i, r := |s| - |TrimStart(s)|, Trim(s);
      i + |r| <= |s| && r == s[i..i + |r|]
  {
    SliceOfSuffix(s, |s| - |TrimStart(s)|, |TrimEnd(TrimStart(s))|);
  }

  /** Only white space lies outside the window. */
  lemma TrimDropsOnlySpace(s: string)
    ensures var i, r := |s| - |TrimStart(s)|, Trim(s);
      && (forall k :: 0 <= k < i ==> IsJsSpace(s[k]))
      && (forall k :: i + |r| <= k < |s| ==> IsJsSpace(s[k]))
  {
    var t := TrimStart(s);
    var i := |s| - |t|;
    var r := TrimEnd(t);
    assert t == s[i..];
    forall k | i + |r| <= k < |s|
      ensures IsJsSpace(s[k])
    {
      assert s[k] == t[k - i];
    }
  }

  /** A non-empty trimmed string neither starts nor ends with white space. */
  lemma TrimEndsWithContent(s: string)
    ensures var r := Trim(s); r != [] ==> !IsJsSpace(r[0]) && !IsJsSpace(r[|r| - 1])
  {
    var t := TrimStart(s);
    var r := TrimEnd(t);
    if r != [] {
      assert r[0] == t[0];
    }
  }

  /** The trimmed string is empty exactly when every character is white space. */
  lemma TrimEmptyIff(s: string)
    ensures Trim(s) == [] <==> !HasContent(s)
  {
    TrimIsWindow(s);
    TrimDropsOnlySpace(s);
    TrimEndsWithContent(s);
    var i := |s| - |TrimStart(s)|;
    if Trim(s) != [] {
      assert s[i] == Trim(s)[0];
    }
  }

  /** Trimming twice is trimming once. */
  lemma TrimIdempotent(s: string)
    ensures Trim(Trim(s)) == Trim(s)
  {
    TrimEndsWithContent(s);
  }

  // ---------------------------------------------------------------------------
  // Agents, messages, and the agent's context
  // ---------------------------------------------------------------------------

  datatype AgentConfig = AgentConfig(name: string, color: string)

  const CoFounder: AgentConfig := AgentConfig("Co-Founder Agent", "primary")

  /** The persona table keyed by route parameter. */
  const AgentConfigs: map<string, AgentConfig> := map[
    "co_founder" := CoFounder,
    "co_investor" := AgentConfig("Co-Investor Agent", "success"),
    "co_lender" := AgentConfig("Co-Lender Agent", "warning"),
    "co_builder" := AgentConfig("Co-Builder Agent", "warm-accent")]

  /** The persona for the `agentType` route parameter: a missing or empty parameter means the
      co-founder, a known one its own entry, and an unknown one no entry at all. */
  function AgentFor(agentType: Option<string>): (c: Option<AgentConfig>)
    ensures !Truthy(agentType) ==> c == Some(CoFounder)
    ensures Truthy(agentType) && agentType.value in AgentConfigs ==> c == Some(AgentConfigs[agentType.value])
    ensures Truthy(agentType) && agentType.value !in AgentConfigs ==> c.None?
  {
    var key := if Truthy(agentType) then agentType.value else "co_founder";
    if key in AgentConfigs then Some(AgentConfigs[key]) else None
  }

  datatype Role = UserRole | AssistantRole

  /** A row of `agent_messages` as the page has fetched it. */
  datatype Message = Message(id: string, role: Role, content: string, createdAt: string)

  /** One entry of the context sent to the agent. */
  datatype ContextEntry = ContextEntry(role: Role, content: string)

  /** The messages projected to role and content, in order. */
  function Context(ms: seq<Message>): (c: seq<ContextEntry>)
    ensures |c| == |ms|
    ensures forall i :: 0 <= i < |ms| ==> c[i] == ContextEntry(ms[i].role, ms[i].content)
  {
    if ms == [] then [] else [ContextEntry(ms[0].role, ms[0].content)] + Context(ms[1..])
  }

  /** The context for a new message: the fetched messages (none while they are not
      loaded), in order, then the new message as the user's. */
  function BuildContext(messages: Option<seq<Message>>, content: string): (c: seq<ContextEntry>)
    ensures |c| == |messages.GetOr([])| + 1
    ensures c[..|c| - 1] == Context(messages.GetOr([]))
    ensures c[|c| - 1] == ContextEntry(UserRole, content)
  {
    Context(messages.GetOr([])) + [ContextEntry(UserRole, content)]
  }

  lemma {:induction false} ContextAppend(a: seq<Message>, b: seq<Message>)
    ensures Context(a + b) == Context(a) + Context(b)
    decreases |a|
  {
    if a == [] {
      assert a + b == b;
    } else {
      assert (a + b)[1..] == a[1..] + b;
      ContextAppend(a[1..], b);
    }
  }

  /** Once a turn has been stored and the messages fetched again, the history the next turn
      sends starts with exactly the context this turn sent. */
  lemma NextContextExtends(history: seq<Message>, content: string, mine: Message, reply: Message, next: string)
    requires mine.role == UserRole && mine.content == content
    ensures BuildContext(Some(history + [mine, reply]), next)[..|history| + 1]
         == BuildContext(Some(history), content)
  {
    ContextAppend(history, [mine, reply]);
    assert Context([mine, reply]) == [ContextEntry(UserRole, content), ContextEntry(reply.role, reply.content)];
  }

  // ---------------------------------------------------------------------------
  // The submit guard
  // ---------------------------------------------------------------------------

  /** `handleSubmit`: the message to send, if there is one. It is sent when the input holds
      something besides white space and no send is pending, and it is the trimmed input. */
  function SubmitGuard(input: string, pending: bool): (sent: Option<string>)
    ensures sent.Some? <==> !pending && HasContent(input)
    ensures sent.Some? ==> sent.value == Trim(input) && sent.value != ""
    ensures sent.Some? ==> !IsJsSpace(sent.value[0]) && !IsJsSpace(sent.value[|sent.value| - 1])
  {
    TrimEmptyIff(input);
    TrimEndsWithContent(input);
    if Trim(input) != "" && !pending then Some(Trim(input)) else None
  }

  // ---------------------------------------------------------------------------
  // One turn
  // ---------------------------------------------------------------------------

  /** A row written to `agent_messages`. */
  datatype StoredMessage = StoredMessage(conversationId: string, role: Role, content: string)

  /** The one request sent to the chat agent. */
  datatype AgentRequest = AgentRequest(messages: seq<ContextEntry>, agentType: Option<string>)

  /** How the remote steps of a turn answer: the error (if any) of the user-message insert,
      the agent's reply or error message, and the error (if any) of the reply's insert. */
  datatype TurnWorld = TurnWorld(userInsert: Option<string>, agent: Result<string>, replyInsert: Option<string>)

  /** What a turn did: the rows it wrote, the agent requests it made, and its result. */
  datatype Turn = Turn(stored: seq<StoredMessage>, calls: seq<AgentRequest>, outcome: Result<string>)

  const NoConversation: string := "No conversation"
  const SendFailed: string := "Failed to send message"

  /** The message of the error toast. */
  function ErrorText(message: string): (t: string)
    ensures t != ""
    ensures message != "" ==> t == message
  {
    if message != "" then message else SendFailed
  }

  /** The mutation function, step by step; the first step that fails ends the turn. */
  function TurnOf(conversationId: Option<string>, user: Option<string>, messages: Option<seq<Message>>,
                  agentType: Option<string>, content: string, w: TurnWorld): (t: Turn)
    // Without a conversation or a user nothing is written and nothing is called.
    ensures !(Truthy(conversationId) && user.Some?) ==> t == Turn([], [], Err(NoConversation))
    // The user's message is written first, the reply second, and nothing else.
    ensures |t.stored| <= 2
    ensures |t.stored| >= 1 ==> t.stored[0] == StoredMessage(conversationId.value, UserRole, content)
    ensures |t.stored| == 2 ==> w.agent.Ok? && t.stored[1] == StoredMessage(conversationId.value, AssistantRole, w.agent.value)
    // The agent is called, once, exactly when the user's message was stored.
    ensures t.calls != [] <==> Truthy(conversationId) && user.Some? && w.userInsert.None?
    ensures t.calls != [] ==> t.calls == [AgentRequest(BuildContext(messages, content), agentType)] && t.stored != []
    // A reply is stored exactly when the agent answered and its insert succeeded, and
    // that is exactly when the turn succeeds, with the agent's message as its value.
    ensures |t.stored| == 2 <==> t.calls != [] && w.agent.Ok? && w.replyInsert.None?
    ensures t.outcome.Ok? <==> |t.stored| == 2
    ensures t.outcome.Ok? ==> t.outcome.value == w.agent.value
    // Each failure is reported with the failing step's message.
    ensures Truthy(conversationId) && user.Some? && w.userInsert.Some? ==>
              t.stored == [] && t.outcome == Err(w.userInsert.value)
    ensures t.calls != [] && w.agent.Err? ==> |t.stored| == 1 && t.outcome == Err(w.agent.message)
    ensures t.calls != [] && w.agent.Ok? && w.replyInsert.Some? ==>
              |t.stored| == 1 && t.outcome == Err(w.replyInsert.value)
  {
    if !Truthy(conversationId) || user.None? then Turn([], [], Err(NoConversation))
    else
      var mine := StoredMessage(conversationId.value, UserRole, content);
      if w.userInsert.Some? then Turn([], [], Err(w.userInsert.value))
      else
        var calls := [AgentRequest(BuildContext(messages, content), agentType)];
        match w.agent
        case Err(m) => Turn([mine], calls, Err(m))
        case Ok(reply) =>
          if w.replyInsert.Some? then Turn([mine], calls, Err(w.replyInsert.value))
          else Turn([mine, StoredMessage(conversationId.value, AssistantRole, reply)], calls, Ok(reply))
  }

  /** The `agent_messages` table; inserts append. */
  class MessageStore {
    var rows: seq<StoredMessage>

    constructor (initial: seq<StoredMessage>)
      ensures rows == initial
    {
      rows := initial;
    }

    /** An insert: the row is appended unless the database reports an error, which is an
        input here and is passed back. */
    method Insert(m: StoredMessage, fault: Option<string>) returns (error: Option<string>)
      modifies this
      ensures error == fault
      ensures rows == if fault.None? then old(rows) + [m] else old(rows)
    {
      error := fault;
      if fault.None? {
        rows := rows + [m];
      }
    }
  }

  /** A send in flight: the trimmed message it was started with, and the conversation id
      and the messages of the render that started it. The mutation function closes over
      those two values, so later changes to the page's state do not reach it. */
  datatype Sending = Sending(content: string, conversationId: Option<string>, messages: Option<seq<Message>>)

  /** The page's state: the input box, the send mutation in flight (if any; the mutation
      is pending exactly while there is one), the current conversation, and the messages
      the page has fetched. */
  class ChatSession {
    const agentType: Option<string>
    const user: Option<string>
    var input: string
    var sending: Option<Sending>
    var conversationId: Option<string>
    var messages: Option<seq<Message>>
    /** The fetched messages have been invalidated and are due to be fetched again. */
    var stale: bool

    constructor (agentType: Option<string>, conversationParam: Option<string>, user: Option<string>)
      ensures this.agentType == agentType && this.user == user
      ensures input == "" && sending.None? && conversationId == conversationParam
      ensures messages.None? && !stale
    {
      this.agentType := agentType;
      this.user := user;
      input := "";
      sending := None;
      conversationId := conversationParam;
      messages := None;
      stale := false;
    }

    /** The input box's `onChange`. */
    method Edit(text: string)
      modifies this
      ensures input == text
      ensures sending == old(sending) && conversationId == old(conversationId)
      ensures messages == old(messages) && stale == old(stale)
    {
      input := text;
    }

    /** The conversation query created a new conversation. */
    method ConversationCreated(id: string)
      modifies this
      ensures conversationId == Some(id)
      ensures input == old(input) && sending == old(sending)
      ensures messages == old(messages) && stale == old(stale)
    {
      conversationId := Some(id);
    }

    /** The messages query settled with the conversation's messages. */
    method MessagesFetched(ms: seq<Message>)
      modifies this
      ensures messages == Some(ms) && !stale
      ensures input == old(input) && sending == old(sending) && conversationId == old(conversationId)
    {
      messages := Some(ms);
      stale := false;
    }

    /** `handleSubmit`: starts the mutation with the trimmed input when the guard allows it;
        the send in flight then holds that message together with the current conversation
        id and messages. Otherwise nothing changes. */
    method HandleSubmit() returns (started: Option<string>)
      modifies this
      ensures started == SubmitGuard(old(input), old(sending).Some?)
      ensures started.Some? ==> sending == Some(Sending(started.value, old(conversationId), old(messages)))
      ensures started.None? ==> sending == old(sending)
      ensures input == old(input) && conversationId == old(conversationId)
      ensures messages == old(messages) && stale == old(stale)
    {
      started := SubmitGuard(input, sending.Some?);
      if started.Some? {
        sending := Some(Sending(started.value, conversationId, messages));
      }
    }

    /** The send in flight runs to the end with the values it captured: its steps against
        the store and the agent, then `onSuccess` (clear the input, invalidate the messages)
        or `onError` (toast the error's message, keep the input). */
    method Settle(store: MessageStore, w: TurnWorld)
      returns (calls: seq<AgentRequest>, toast: Option<string>)
      requires sending.Some?
      modifies this, store
      ensures var snap := old(sending).value;
        var t := TurnOf(snap.conversationId, user, snap.messages, agentType, snap.content, w);
        && store.rows == old(store.rows) + t.stored
        && calls == t.calls
        && sending.None? && conversationId == old(conversationId) && messages == old(messages)
        && (t.outcome.Ok? ==> input == "" && stale && toast.None?)
        && (t.outcome.Err? ==> input == old(input) && stale == old(stale) && toast == Some(ErrorText(t.outcome.message)))
    {
      var snap := sending.value;
      var content := snap.content;
      calls := [];
      toast := None;
      sending := None;
      if !Truthy(snap.conversationId) || user.None? {
        toast := Some(ErrorText(NoConversation));
        return;
      }
      var id := snap.conversationId.value;
      var error := store.Insert(StoredMessage(id, UserRole, content), w.userInsert);
      if error.Some? {
        toast := Some(ErrorText(error.value));
        return;
      }
      calls := [AgentRequest(BuildContext(snap.messages, content), agentType)];
      if w.agent.Err? {
        toast := Some(ErrorText(w.agent.message));
        return;
      }
      error := store.Insert(StoredMessage(id, AssistantRole, w.agent.value), w.replyInsert);
      assert error.None? ==>
        store.rows == old(store.rows) + [StoredMessage(id, UserRole, content), StoredMessage(id, AssistantRole, w.agent.value)];
      if error.Some? {
        toast := Some(ErrorText(error.value));
        return;
      }
      input := "";
      stale := true;
    }
  }
}
